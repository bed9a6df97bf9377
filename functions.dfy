/**
  The restricted-expression sandbox of src/coordle/functions.py: a validator that
  walks a parsed tree and rejects, at the first violation, every node kind,
  operator, identifier, constant type or callee outside a fixed allow-list; an
  interpreter for validated trees at an input `x`; and the compile step
  (`build_function`) that only ever yields a callable for a tree that passed.

  Arithmetic is exact over `real`. The transcendental routines and `**` are
  parameters (a `MathLib`): their values are left abstract, while the domain
  and argument-count failures of the host routines are written out.
*/
module Functions {
  import opened Wrappers
  import opened Syntax

  /** `_ALLOWED_FUNCS`: the only names a call may target. */
  const AllowedFuncs: set<string> := {"sin", "cos", "tan", "exp", "log", "sqrt", "abs", "floor", "ceil"}

  /** The only identifier an expression may mention. */
  const Variable: string := "x"

  // ---------------------------------------------------------------------------
  // Compile errors (`FunctionParseError`)
  // ---------------------------------------------------------------------------

  datatype ParseError =
    | SyntaxError(detail: string)
    | OperatorNotAllowed(op: BinOperator)
    | UnaryOperatorNotAllowed(uop: UnaryOperator)
    | NotDirectFunctionName
    | FunctionNotAllowed(name: string)
    | KeywordArgumentsNotAllowed
    | UnknownName(id: string)
    | ConstantNotAllowed
    | NodeTypeNotAllowed(kind: string)
    | ComparisonOperatorNotAllowed(cop: CmpOperator)
    | ConditionNodeNotAllowed(kind: string)

  /** The message text the error carries (`str(e)`). */
  function Message(err: ParseError): string
  {
    match err
    case SyntaxError(detail) => "Syntax error in expression: " + detail
    case OperatorNotAllowed(op) => "Operator " + BinOperatorName(op) + " not allowed"
    case UnaryOperatorNotAllowed(op) => "Unary operator " + UnaryOperatorName(op) + " not allowed"
    case NotDirectFunctionName => "Only direct function names are allowed"
    case FunctionNotAllowed(name) => "Function '" + name + "' is not allowed"
    case KeywordArgumentsNotAllowed => "Keyword arguments are not allowed"
    case UnknownName(id) => "Unknown name '" + id + "'"
    case ConstantNotAllowed => "Only int/float constants are allowed"
    case NodeTypeNotAllowed(kind) => "Node type " + kind + " not allowed"
    case ComparisonOperatorNotAllowed(op) => "Comparison operator " + CmpOperatorName(op) + " not allowed"
    case ConditionNodeNotAllowed(kind) => "Condition node " + kind + " not allowed"
  }

  // ---------------------------------------------------------------------------
  // Validation (`_validate`, `_validate_condition`)
  // ---------------------------------------------------------------------------

  /** The outcome of a validation walk: nothing, or the first violation met. */
  datatype Check = Pass | Fail(error: ParseError)

  /** Run `first`, and `second` only if `first` passed. */
  function Then(first: Check, second: Check): Check
  {
    if first.Fail? then first else second
  }

  predicate AllowedBinOperator(op: BinOperator)
  {
    op.Add? || op.Sub? || op.Mult? || op.Div? || op.Pow?
  }

  predicate AllowedUnaryOperator(op: UnaryOperator)
  {
    op.UAdd? || op.USub?
  }

  predicate AllowedCmpOperator(op: CmpOperator)
  {
    op.Lt? || op.LtE? || op.Gt? || op.GtE? || op.Eq? || op.NotEq?
  }

  /** `isinstance(value, (int, float))`; a bool is an int in the host language. */
  predicate NumericConstant(v: ConstValue)
  {
    v.IntConst? || v.FloatConst? || v.BoolConst?
  }

  function Validate(e: Expr): Check
    decreases e
  {
    match e
    case Expression(body) => Validate(body)
    case BinOp(left, op, right) =>
      if !AllowedBinOperator(op) then Fail(OperatorNotAllowed(op))
      else Then(Validate(left), Validate(right))
    case UnaryOp(op, operand) =>
      if !AllowedUnaryOperator(op) then Fail(UnaryOperatorNotAllowed(op))
      else Validate(operand)
    case Call(func, args, keywords) =>
      if !func.Name? then Fail(NotDirectFunctionName)
      else if func.id !in AllowedFuncs then Fail(FunctionNotAllowed(func.id))
      else Then(ValidateAll(args), if |keywords| > 0 then Fail(KeywordArgumentsNotAllowed) else Pass)
    case Name(id) =>
      if id != Variable then Fail(UnknownName(id)) else Pass
    case Constant(v) =>
      if !NumericConstant(v) then Fail(ConstantNotAllowed) else Pass
    case IfExp(test, body, orelse) =>
      Then(Validate(body), Then(Validate(orelse), ValidateCondition(test)))
    case _ => Fail(NodeTypeNotAllowed(KindName(e)))
  }

  /** Validate a list of sub-expressions left to right, stopping at the first violation. */
  function ValidateAll(es: seq<Expr>): Check
    decreases es
  {
    if |es| == 0 then Pass else Then(Validate(es[0]), ValidateAll(es[1..]))
  }

  function ValidateCondition(c: Expr): Check
    decreases c
  {
    match c
    case Compare(left, ops, comparators) =>
      Then(Validate(left), Then(ValidateAll(comparators), CheckCmpOperators(ops)))
    case BoolOp(_, values) => ValidateConditions(values)
    case _ => Fail(ConditionNodeNotAllowed(KindName(c)))
  }

  function ValidateConditions(cs: seq<Expr>): Check
    decreases cs
  {
    if |cs| == 0 then Pass else Then(ValidateCondition(cs[0]), ValidateConditions(cs[1..]))
  }

  function CheckCmpOperators(ops: seq<CmpOperator>): Check
  {
    if |ops| == 0 then Pass
    else if !AllowedCmpOperator(ops[0]) then Fail(ComparisonOperatorNotAllowed(ops[0]))
    else CheckCmpOperators(ops[1..])
  }

  // ---------------------------------------------------------------------------
  // The accepted grammar, stated declaratively (no order, no first violation)
  // ---------------------------------------------------------------------------

  ghost predicate InGrammar(e: Expr)
    decreases e
  {
    match e
    case Expression(body) => InGrammar(body)
    case BinOp(left, op, right) => AllowedBinOperator(op) && InGrammar(left) && InGrammar(right)
    case UnaryOp(op, operand) => AllowedUnaryOperator(op) && InGrammar(operand)
    case Call(func, args, keywords) =>
      func.Name? && func.id in AllowedFuncs && keywords == [] &&
      forall a :: a in args ==> InGrammar(a)
    case Name(id) => id == Variable
    case Constant(v) => NumericConstant(v)
    case IfExp(test, body, orelse) => IsCondition(test) && InGrammar(body) && InGrammar(orelse)
    case _ => false
  }

  ghost predicate IsCondition(c: Expr)
    decreases c
  {
    match c
    case Compare(left, ops, comparators) =>
      InGrammar(left) &&
      (forall a :: a in comparators ==> InGrammar(a)) &&
      (forall op :: op in ops ==> AllowedCmpOperator(op))
    case BoolOp(_, values) => forall v :: v in values ==> IsCondition(v)
    case _ => false
  }

  /** The validator accepts exactly the declarative grammar. */
  lemma {:induction false} ValidateAcceptsGrammar(e: Expr)
    ensures Validate(e).Pass? <==> InGrammar(e)
    decreases e
  {
    match e
    case Expression(body) => ValidateAcceptsGrammar(body);
    case BinOp(left, op, right) => ValidateAcceptsGrammar(left); ValidateAcceptsGrammar(right);
    case UnaryOp(op, operand) => ValidateAcceptsGrammar(operand);
    case Call(func, args, keywords) => ValidateAllAcceptsGrammar(args);
    case Name(id) =>
    case Constant(v) =>
    case IfExp(test, body, orelse) =>
      ValidateAcceptsGrammar(body); ValidateAcceptsGrammar(orelse); ValidateConditionAcceptsGrammar(test);
    case Compare(_, _, _) =>
    case BoolOp(_, _) =>
    case Other(_) =>
  }

  lemma {:induction false} ValidateAllAcceptsGrammar(es: seq<Expr>)
    ensures ValidateAll(es).Pass? <==> forall a :: a in es ==> InGrammar(a)
    decreases es
  {
    if |es| > 0 {
      ValidateAcceptsGrammar(es[0]);
      ValidateAllAcceptsGrammar(es[1..]);
      assert forall a :: a in es ==> a == es[0] || a in es[1..];
    }
  }

  lemma {:induction false} ValidateConditionAcceptsGrammar(c: Expr)
    ensures ValidateCondition(c).Pass? <==> IsCondition(c)
    decreases c
  {
    match c
    case Compare(left, ops, comparators) =>
      ValidateAcceptsGrammar(left);
      ValidateAllAcceptsGrammar(comparators);
      CheckCmpOperatorsAccepts(ops);
    case BoolOp(_, values) => ValidateConditionsAcceptsGrammar(values);
    case _ =>
  }

  lemma {:induction false} ValidateConditionsAcceptsGrammar(cs: seq<Expr>)
    ensures ValidateConditions(cs).Pass? <==> forall c :: c in cs ==> IsCondition(c)
    decreases cs
  {
    if |cs| > 0 {
      ValidateConditionAcceptsGrammar(cs[0]);
      ValidateConditionsAcceptsGrammar(cs[1..]);
      assert forall c :: c in cs ==> c == cs[0] || c in cs[1..];
    }
  }

  lemma {:induction false} CheckCmpOperatorsAccepts(ops: seq<CmpOperator>)
    ensures CheckCmpOperators(ops).Pass? <==> forall op :: op in ops ==> AllowedCmpOperator(op)
  {
    if |ops| > 0 {
      CheckCmpOperatorsAccepts(ops[1..]);
      assert forall op :: op in ops ==> op == ops[0] || op in ops[1..];
    }
  }

  /**
    `err` describes a violation that is present in the tree `e`: the operator,
    callee, identifier, constant, keyword list or node kind it names occurs in
    `e`, at a position the validator inspects, and is outside the allow-list
    there.
  */
  ghost predicate Offends(e: Expr, err: ParseError)
    decreases e
  {
    match e
    case Expression(body) => Offends(body, err)
    case BinOp(left, op, right) =>
      (!AllowedBinOperator(op) && err == OperatorNotAllowed(op)) || Offends(left, err) || Offends(right, err)
    case UnaryOp(op, operand) =>
      (!AllowedUnaryOperator(op) && err == UnaryOperatorNotAllowed(op)) || Offends(operand, err)
    case Call(func, args, keywords) =>
      (!func.Name? && err == NotDirectFunctionName) ||
      (func.Name? && func.id !in AllowedFuncs && err == FunctionNotAllowed(func.id)) ||
      (func.Name? && func.id in AllowedFuncs &&
        ((keywords != [] && err == KeywordArgumentsNotAllowed) || exists a :: a in args && Offends(a, err)))
    case Name(id) => id != Variable && err == UnknownName(id)
    case Constant(v) => !NumericConstant(v) && err == ConstantNotAllowed
    case IfExp(test, body, orelse) => Offends(body, err) || Offends(orelse, err) || ConditionOffends(test, err)
    case _ => err == NodeTypeNotAllowed(KindName(e))
  }

  /** The same for a node in condition position. */
  ghost predicate ConditionOffends(c: Expr, err: ParseError)
    decreases c
  {
    match c
    case Compare(left, ops, comparators) =>
      Offends(left, err) || (exists a :: a in comparators && Offends(a, err)) ||
      (err.ComparisonOperatorNotAllowed? && err.cop in ops && !AllowedCmpOperator(err.cop))
    case BoolOp(_, values) => exists v :: v in values && ConditionOffends(v, err)
    case _ => err == ConditionNodeNotAllowed(KindName(c))
  }

  /** A tree holding a violation is outside the grammar: `Offends` only describes real violations. */
  lemma {:induction false} OffendsOutsideGrammar(e: Expr, err: ParseError)
    requires Offends(e, err)
    ensures !InGrammar(e)
    decreases e
  {
    match e
    case Expression(body) => OffendsOutsideGrammar(body, err);
    case BinOp(left, op, right) =>
      if Offends(left, err) { OffendsOutsideGrammar(left, err); }
      else if Offends(right, err) { OffendsOutsideGrammar(right, err); }
    case UnaryOp(op, operand) =>
      if Offends(operand, err) { OffendsOutsideGrammar(operand, err); }
    case Call(func, args, keywords) =>
      if func.Name? && func.id in AllowedFuncs && keywords == [] {
        var a :| a in args && Offends(a, err);
        OffendsOutsideGrammar(a, err);
      }
    case Name(_) =>
    case Constant(_) =>
    case IfExp(test, body, orelse) =>
      if Offends(body, err) { OffendsOutsideGrammar(body, err); }
      else if Offends(orelse, err) { OffendsOutsideGrammar(orelse, err); }
      else { ConditionOffendsOutsideGrammar(test, err); }
    case Compare(_, _, _) =>
    case BoolOp(_, _) =>
    case Other(_) =>
  }

  lemma {:induction false} ConditionOffendsOutsideGrammar(c: Expr, err: ParseError)
    requires ConditionOffends(c, err)
    ensures !IsCondition(c)
    decreases c
  {
    match c
    case Compare(left, ops, comparators) =>
      if Offends(left, err) {
        OffendsOutsideGrammar(left, err);
      } else if exists a :: a in comparators && Offends(a, err) {
        var a :| a in comparators && Offends(a, err);
        OffendsOutsideGrammar(a, err);
      }
    case BoolOp(_, values) =>
      var v :| v in values && ConditionOffends(v, err);
      ConditionOffendsOutsideGrammar(v, err);
    case _ =>
  }

  /** A violation found in a tree is never a syntax error. */
  lemma {:induction false} OffendsIsNotSyntaxError(e: Expr, err: ParseError)
    requires Offends(e, err)
    ensures !err.SyntaxError?
    decreases e
  {
    match e
    case Expression(body) => OffendsIsNotSyntaxError(body, err);
    case BinOp(left, op, right) =>
      if Offends(left, err) { OffendsIsNotSyntaxError(left, err); }
      else if Offends(right, err) { OffendsIsNotSyntaxError(right, err); }
    case UnaryOp(op, operand) =>
      if Offends(operand, err) { OffendsIsNotSyntaxError(operand, err); }
    case Call(func, args, keywords) =>
      if exists a :: a in args && Offends(a, err) {
        var a :| a in args && Offends(a, err);
        OffendsIsNotSyntaxError(a, err);
      }
    case IfExp(test, body, orelse) =>
      if Offends(body, err) { OffendsIsNotSyntaxError(body, err); }
      else if Offends(orelse, err) { OffendsIsNotSyntaxError(orelse, err); }
      else { ConditionOffendsIsNotSyntaxError(test, err); }
    case _ =>
  }

  lemma {:induction false} ConditionOffendsIsNotSyntaxError(c: Expr, err: ParseError)
    requires ConditionOffends(c, err)
    ensures !err.SyntaxError?
    decreases c
  {
    match c
    case Compare(left, ops, comparators) =>
      if Offends(left, err) {
        OffendsIsNotSyntaxError(left, err);
      } else if exists a :: a in comparators && Offends(a, err) {
        var a :| a in comparators && Offends(a, err);
        OffendsIsNotSyntaxError(a, err);
      }
    case BoolOp(_, values) =>
      var v :| v in values && ConditionOffends(v, err);
      ConditionOffendsIsNotSyntaxError(v, err);
    case _ =>
  }

  /** A rejected tree is rejected for a violation that it really contains. */
  lemma {:induction false} ValidateReportsViolation(e: Expr)
    requires Validate(e).Fail?
    ensures Offends(e, Validate(e).error)
    decreases e
  {
    match e
    case Expression(body) => ValidateReportsViolation(body);
    case BinOp(left, op, right) =>
      if AllowedBinOperator(op) {
        if Validate(left).Fail? { ValidateReportsViolation(left); } else { ValidateReportsViolation(right); }
      }
    case UnaryOp(op, operand) =>
      if AllowedUnaryOperator(op) { ValidateReportsViolation(operand); }
    case Call(func, args, keywords) =>
      if func.Name? && func.id in AllowedFuncs && ValidateAll(args).Fail? {
        ValidateAllReportsViolation(args);
      }
    case IfExp(test, body, orelse) =>
      if Validate(body).Fail? {
        ValidateReportsViolation(body);
      } else if Validate(orelse).Fail? {
        ValidateReportsViolation(orelse);
      } else {
        ValidateConditionReportsViolation(test);
      }
    case _ =>
  }

  /** A rejected argument list is rejected for a violation in one of its elements. */
  lemma {:induction false} ValidateAllReportsViolation(es: seq<Expr>)
    requires ValidateAll(es).Fail?
    ensures exists a :: a in es && Offends(a, ValidateAll(es).error)
    decreases es
  {
    if Validate(es[0]).Fail? {
      ValidateReportsViolation(es[0]);
    } else {
      ValidateAllReportsViolation(es[1..]);
      var a :| a in es[1..] && Offends(a, ValidateAll(es).error);
      assert a in es;
    }
  }

  /** A rejected condition is rejected for a violation it really contains. */
  lemma {:induction false} ValidateConditionReportsViolation(c: Expr)
    requires ValidateCondition(c).Fail?
    ensures ConditionOffends(c, ValidateCondition(c).error)
    decreases c
  {
    match c
    case Compare(left, ops, comparators) =>
      if Validate(left).Fail? {
        ValidateReportsViolation(left);
      } else if ValidateAll(comparators).Fail? {
        ValidateAllReportsViolation(comparators);
      } else {
        CheckCmpOperatorsReportsViolation(ops);
      }
    case BoolOp(_, values) =>
      ValidateConditionsReportsViolation(values);
    case _ =>
  }

  /** A rejected and/or is rejected for a violation in one of its sub-conditions. */
  lemma {:induction false} ValidateConditionsReportsViolation(cs: seq<Expr>)
    requires ValidateConditions(cs).Fail?
    ensures exists c :: c in cs && ConditionOffends(c, ValidateConditions(cs).error)
    decreases cs
  {
    if ValidateCondition(cs[0]).Fail? {
      ValidateConditionReportsViolation(cs[0]);
    } else {
      ValidateConditionsReportsViolation(cs[1..]);
      var c :| c in cs[1..] && ConditionOffends(c, ValidateConditions(cs).error);
      assert c in cs;
    }
  }

  /** The operator check reports the first operator of the chain that is not allowed. */
  lemma {:induction false} CheckCmpOperatorsReportsViolation(ops: seq<CmpOperator>)
    requires CheckCmpOperators(ops).Fail?
    ensures exists i :: 0 <= i < |ops| && CheckCmpOperators(ops).error == ComparisonOperatorNotAllowed(ops[i]) &&
                        !AllowedCmpOperator(ops[i]) && forall j :: 0 <= j < i ==> AllowedCmpOperator(ops[j])
  {
    if AllowedCmpOperator(ops[0]) {
      CheckCmpOperatorsReportsViolation(ops[1..]);
      var i :| 0 <= i < |ops[1..]| && CheckCmpOperators(ops[1..]).error == ComparisonOperatorNotAllowed(ops[1..][i]) &&
               !AllowedCmpOperator(ops[1..][i]) && forall j :: 0 <= j < i ==> AllowedCmpOperator(ops[1..][j]);
      assert forall j :: 0 <= j < i + 1 ==> AllowedCmpOperator(ops[j]) by {
        forall j | 0 <= j < i + 1 ensures AllowedCmpOperator(ops[j]) {
          if j > 0 { assert ops[j] == ops[1..][j - 1]; }
        }
      }
      assert CheckCmpOperators(ops).error == ComparisonOperatorNotAllowed(ops[i + 1]);
    } else {
      assert CheckCmpOperators(ops).error == ComparisonOperatorNotAllowed(ops[0]);
    }
  }

  /** In a comparison the operands are validated before the operators: left, then comparators. */
  lemma CompareReportsOperandsBeforeOperators(left: Expr, ops: seq<CmpOperator>, comparators: seq<Expr>)
    ensures Validate(left).Fail? ==> ValidateCondition(Compare(left, ops, comparators)) == Validate(left)
    ensures Validate(left).Pass? && ValidateAll(comparators).Fail? ==>
              ValidateCondition(Compare(left, ops, comparators)) == ValidateAll(comparators)
    ensures Validate(left).Pass? && ValidateAll(comparators).Pass? ==>
              ValidateCondition(Compare(left, ops, comparators)) == CheckCmpOperators(ops)
  {
  }

  /** In a call to an allowed name, a bad argument is reported even when keywords are present too. */
  lemma CallReportsArgumentsBeforeKeywords(name: string, args: seq<Expr>, keywords: seq<Keyword>)
    requires name in AllowedFuncs && ValidateAll(args).Fail?
    ensures Validate(Call(Name(name), args, keywords)) == ValidateAll(args)
  {
  }

  /** In a conditional expression the branches are validated before the condition. */
  lemma IfExpReportsBranchesBeforeCondition(test: Expr, body: Expr, orelse: Expr)
    ensures Validate(body).Fail? ==> Validate(IfExp(test, body, orelse)) == Validate(body)
    ensures Validate(body).Pass? && Validate(orelse).Fail? ==>
              Validate(IfExp(test, body, orelse)) == Validate(orelse)
    ensures Validate(body).Pass? && Validate(orelse).Pass? ==>
              Validate(IfExp(test, body, orelse)) == ValidateCondition(test)
  {
  }

  // ---------------------------------------------------------------------------
  // Evaluation (`_eval`, `_eval_cond`)
  // ---------------------------------------------------------------------------

  /**
    The host's math routines. sin, cos, tan, log and sqrt never fail on the
    arguments the sandbox passes them (the domain checks are written out in
    ApplyFunc). When `exp` and `**` fail (overflow, a zero base with a negative
    exponent, a result that is not real) is left to the parameter: `None` is a
    failure.
  */
  datatype MathLib = MathLib(
    sin: real -> real,
    cos: real -> real,
    tan: real -> real,
    exp: real -> Option<real>,
    log: real -> real,
    sqrt: real -> real,
    pow: (real, real) -> Option<real>)

  datatype EvalError =
    // the interpreter's own failures (`FunctionParseError` raised while evaluating)
    | UnknownNameDuringEvaluation(id: string)
    | UnexpectedOperator(op: BinOperator)
    | UnexpectedUnaryOperator(uop: UnaryOperator)
    | UnexpectedNodeType(kind: string)
    | UnexpectedConditionNode(kind: string)
    // host failures that only an unvalidated tree can provoke
    | CalleeHasNoId
    | UnknownFunction(name: string)
    | NonNumericConstant
    // failures of the arithmetic itself, for a particular input
    | ZeroDivision
    | WrongArgumentCount(fname: string)
    | MathDomainError(fname: string)
    | MathRangeError(fname: string)
    | PowerError

  /** The failures a validated expression may still raise at some inputs. */
  predicate IsArithmeticError(err: EvalError)
  {
    err.ZeroDivision? || err.WrongArgumentCount? || err.MathDomainError? || err.MathRangeError? || err.PowerError?
  }

  function Abs(r: real): real
  {
    if r < 0.0 then -r else r
  }

  /** One binary operation on two evaluated operands. */
  function Arith(lib: MathLib, op: BinOperator, a: real, b: real): (r: Result<real, EvalError>)
    ensures !AllowedBinOperator(op) <==> r == Failure(UnexpectedOperator(op))
    ensures AllowedBinOperator(op) && r.Failure? ==> IsArithmeticError(r.error)
    ensures op.Add? || op.Sub? || op.Mult? ==> r.Success?
    ensures op.Sub? ==> r.value + b == a
    ensures op.Div? ==> (r.Failure? <==> b == 0.0) && (r.Success? ==> r.value * b == a)
    ensures op.Pow? ==> (r.Failure? <==> lib.pow(a, b).None?)
  {
    match op
    case Add => Success(a + b)
    case Sub => Success(a - b)
    case Mult => Success(a * b)
    case Div => if b == 0.0 then Failure(ZeroDivision) else Success(a / b)
    case Pow =>
      var p := lib.pow(a, b);
      if p.None? then Failure(PowerError) else Success(p.value)
    case _ => Failure(UnexpectedOperator(op))
  }

  /**
    `func(*args)` for an entry of `_ALLOWED_FUNCS`: `log` takes one or two
    arguments and every other routine exactly one; `abs`, `floor` and `ceil`
    are computed, the rest come from `lib`.
  */
  function ApplyFunc(lib: MathLib, name: string, args: seq<real>): (r: Result<real, EvalError>)
    ensures name !in AllowedFuncs ==> r == Failure(UnknownFunction(name))
    ensures name in AllowedFuncs && r.Failure? ==> IsArithmeticError(r.error)
    ensures name in AllowedFuncs && name != "log" ==> (r == Failure(WrongArgumentCount(name)) <==> |args| != 1)
    ensures name == "log" ==> (r == Failure(WrongArgumentCount(name)) <==> |args| != 1 && |args| != 2)
    ensures name == "log" && |args| == 1 ==> (r.Failure? <==> args[0] <= 0.0)
    ensures name == "sqrt" && |args| == 1 ==> (r.Failure? <==> args[0] < 0.0)
    ensures name == "exp" && |args| == 1 ==> (r.Failure? <==> lib.exp(args[0]).None?)
    ensures (name == "sin" || name == "cos" || name == "tan") && |args| == 1 ==> r.Success?
    ensures name == "abs" && |args| == 1 ==>
              r.Success? && r.value >= 0.0 && (r.value == args[0] || r.value == -args[0])
    ensures name == "floor" && |args| == 1 ==>
              r.Success? && r.value.Floor as real == r.value && r.value <= args[0] < r.value + 1.0
    ensures name == "ceil" && |args| == 1 ==>
              r.Success? && r.value.Floor as real == r.value && r.value - 1.0 < args[0] <= r.value
  {
    if name == "log" then
      if |args| == 1 then
        if args[0] <= 0.0 then Failure(MathDomainError(name)) else Success(lib.log(args[0]))
      else if |args| == 2 then
        if args[0] <= 0.0 || args[1] <= 0.0 then Failure(MathDomainError(name))
        else if lib.log(args[1]) == 0.0 then Failure(ZeroDivision)
        else Success(lib.log(args[0]) / lib.log(args[1]))
      else Failure(WrongArgumentCount(name))
    else if |args| != 1 then
      if name in AllowedFuncs then Failure(WrongArgumentCount(name)) else Failure(UnknownFunction(name))
    else
      var a := args[0];
      if name == "sin" then Success(lib.sin(a))
      else if name == "cos" then Success(lib.cos(a))
      else if name == "tan" then Success(lib.tan(a))
      else if name == "exp" then
        (var r := lib.exp(a); if r.None? then Failure(MathRangeError(name)) else Success(r.value))
      else if name == "sqrt" then
        if a < 0.0 then Failure(MathDomainError(name)) else Success(lib.sqrt(a))
      else if name == "abs" then Success(Abs(a))
      else if name == "floor" then Success(a.Floor as real)
      else if name == "ceil" then Success(-((-a).Floor) as real)
      else Failure(UnknownFunction(name))
  }

  function Eval(lib: MathLib, e: Expr, x: real): Result<real, EvalError>
    decreases e
  {
    match e
    case Expression(body) => Eval(lib, body, x)
    case Constant(v) =>
      (match v
       case IntConst(i) => Success(i as real)
       case FloatConst(r) => Success(r)
       case BoolConst(b) => Success(if b then 1.0 else 0.0)
       case _ => Failure(NonNumericConstant))
    case Name(id) =>
      if id == Variable then Success(x) else Failure(UnknownNameDuringEvaluation(id))
    case BinOp(left, op, right) =>
      var l := Eval(lib, left, x);
      if l.Failure? then l
      else
        var r := Eval(lib, right, x);
        if r.Failure? then r else Arith(lib, op, l.value, r.value)
    case UnaryOp(op, operand) =>
      var v := Eval(lib, operand, x);
      if v.Failure? then v
      else if op.UAdd? then Success(v.value)
      else if op.USub? then Success(-v.value)
      else Failure(UnexpectedUnaryOperator(op))
    case Call(func, args, _) =>
      if !func.Name? then Failure(CalleeHasNoId)
      else if func.id !in AllowedFuncs then Failure(UnknownFunction(func.id))
      else
        var vs := EvalArgs(lib, args, x);
        if vs.Failure? then Failure(vs.error) else ApplyFunc(lib, func.id, vs.value)
    case IfExp(test, body, orelse) =>
      var c := EvalCond(lib, test, x);
      if c.Failure? then Failure(c.error)
      else if c.value then Eval(lib, body, x)
      else Eval(lib, orelse, x)
    case _ => Failure(UnexpectedNodeType(KindName(e)))
  }

  /** The argument list of a call, evaluated left to right. */
  function EvalArgs(lib: MathLib, es: seq<Expr>, x: real): Result<seq<real>, EvalError>
    decreases es
  {
    if |es| == 0 then Success([])
    else
      var v := Eval(lib, es[0], x);
      if v.Failure? then Failure(v.error)
      else
        var rest := EvalArgs(lib, es[1..], x);
        if rest.Failure? then rest else Success([v.value] + rest.value)
  }

  /** One link of a comparison chain; a link with any other operator leaves the chain's result unchanged. */
  predicate CmpHolds(op: CmpOperator, a: real, b: real)
  {
    match op
    case Lt => a < b
    case LtE => a <= b
    case Gt => a > b
    case GtE => a >= b
    case Eq => a == b
    case NotEq => a != b
    case _ => true
  }

  function EvalCond(lib: MathLib, c: Expr, x: real): Result<bool, EvalError>
    decreases c
  {
    match c
    case Compare(left, ops, comparators) =>
      var l := Eval(lib, left, x);
      if l.Failure? then Failure(l.error) else Chain(lib, l.value, ops, comparators, x)
    case BoolOp(And, values) => AllConds(lib, values, x)
    case BoolOp(Or, values) => AnyConds(lib, values, x)
    case _ => Failure(UnexpectedConditionNode(KindName(c)))
  }

  /**
    The rest of a comparison chain whose current left operand is `current`,
    pairing operators with comparators as `zip` does. Every comparator is
    evaluated, even after a link has already failed.
  */
  function Chain(lib: MathLib, current: real, ops: seq<CmpOperator>, comparators: seq<Expr>, x: real): Result<bool, EvalError>
    decreases comparators
  {
    if |ops| == 0 || |comparators| == 0 then Success(true)
    else
      var right := Eval(lib, comparators[0], x);
      if right.Failure? then Failure(right.error)
      else
        var rest := Chain(lib, right.value, ops[1..], comparators[1..], x);
        if rest.Failure? then rest else Success(CmpHolds(ops[0], current, right.value) && rest.value)
  }

  /** `all(...)` over the sub-conditions: stops at the first false one. */
  function AllConds(lib: MathLib, cs: seq<Expr>, x: real): Result<bool, EvalError>
    decreases cs
  {
    if |cs| == 0 then Success(true)
    else
      var c := EvalCond(lib, cs[0], x);
      if c.Failure? || !c.value then c else AllConds(lib, cs[1..], x)
  }

  /** `any(...)` over the sub-conditions: stops at the first true one. */
  function AnyConds(lib: MathLib, cs: seq<Expr>, x: real): Result<bool, EvalError>
    decreases cs
  {
    if |cs| == 0 then Success(false)
    else
      var c := EvalCond(lib, cs[0], x);
      if c.Failure? || c.value then c else AnyConds(lib, cs[1..], x)
  }

  /**
    The comparison-chain loop of `_eval_cond` as the source writes it: the
    accumulators `result` and `currentLeft` are updated once per
    (operator, comparator) pair.
  */
  method EvalCompare(lib: MathLib, left: Expr, ops: seq<CmpOperator>, comparators: seq<Expr>, x: real)
    returns (r: Result<bool, EvalError>)
    ensures r == EvalCond(lib, Compare(left, ops, comparators), x)
  {
    var l := Eval(lib, left, x);
    if l.Failure? {
      return Failure(l.error);
    }
    var n := if |ops| < |comparators| then |ops| else |comparators|;
    var result := true;
    var currentLeft := l.value;
    var i := 0;
    while i < n
      invariant 0 <= i <= n
      invariant Chain(lib, l.value, ops, comparators, x) ==
                (var rest := Chain(lib, currentLeft, ops[i..], comparators[i..], x);
                 if rest.Failure? then rest else Success(result && rest.value))
    {
      var right := Eval(lib, comparators[i], x);
      if right.Failure? {
        return Failure(right.error);
      }
      assert ops[i..][1..] == ops[i + 1..];
      assert comparators[i..][1..] == comparators[i + 1..];
      result := result && CmpHolds(ops[i], currentLeft, right.value);
      currentLeft := right.value;
      i := i + 1;
    }
    r := Success(result);
  }

  // ---------------------------------------------------------------------------
  // Soundness: a validated tree never reaches the interpreter's own failures
  // ---------------------------------------------------------------------------

  lemma {:induction false} EvalSound(lib: MathLib, e: Expr, x: real)
    requires InGrammar(e)
    ensures Eval(lib, e, x).Failure? ==> IsArithmeticError(Eval(lib, e, x).error)
    decreases e
  {
    match e
    case Expression(body) => EvalSound(lib, body, x);
    case BinOp(left, op, right) => EvalSound(lib, left, x); EvalSound(lib, right, x);
    case UnaryOp(op, operand) => EvalSound(lib, operand, x);
    case Call(func, args, _) => EvalArgsSound(lib, args, x);
    case Name(_) =>
    case Constant(_) =>
    case IfExp(test, body, orelse) =>
      EvalCondSound(lib, test, x); EvalSound(lib, body, x); EvalSound(lib, orelse, x);
  }

  lemma {:induction false} EvalArgsSound(lib: MathLib, es: seq<Expr>, x: real)
    requires forall a :: a in es ==> InGrammar(a)
    ensures EvalArgs(lib, es, x).Failure? ==> IsArithmeticError(EvalArgs(lib, es, x).error)
    decreases es
  {
    if |es| > 0 {
      EvalSound(lib, es[0], x);
      EvalArgsSound(lib, es[1..], x);
    }
  }

  lemma {:induction false} EvalCondSound(lib: MathLib, c: Expr, x: real)
    requires IsCondition(c)
    ensures EvalCond(lib, c, x).Failure? ==> IsArithmeticError(EvalCond(lib, c, x).error)
    decreases c
  {
    match c
    case Compare(left, ops, comparators) =>
      EvalSound(lib, left, x);
      if Eval(lib, left, x).Success? {
        ChainSound(lib, Eval(lib, left, x).value, ops, comparators, x);
      }
    case BoolOp(op, values) =>
      if op.And? { AllCondsSound(lib, values, x); } else { AnyCondsSound(lib, values, x); }
  }

  lemma {:induction false} ChainSound(lib: MathLib, current: real, ops: seq<CmpOperator>, comparators: seq<Expr>, x: real)
    requires forall a :: a in comparators ==> InGrammar(a)
    ensures Chain(lib, current, ops, comparators, x).Failure? ==>
              IsArithmeticError(Chain(lib, current, ops, comparators, x).error)
    decreases comparators
  {
    if |ops| > 0 && |comparators| > 0 {
      EvalSound(lib, comparators[0], x);
      if Eval(lib, comparators[0], x).Success? {
        ChainSound(lib, Eval(lib, comparators[0], x).value, ops[1..], comparators[1..], x);
      }
    }
  }

  lemma {:induction false} AllCondsSound(lib: MathLib, cs: seq<Expr>, x: real)
    requires forall c :: c in cs ==> IsCondition(c)
    ensures AllConds(lib, cs, x).Failure? ==> IsArithmeticError(AllConds(lib, cs, x).error)
    decreases cs
  {
    if |cs| > 0 {
      EvalCondSound(lib, cs[0], x);
      AllCondsSound(lib, cs[1..], x);
    }
  }

  lemma {:induction false} AnyCondsSound(lib: MathLib, cs: seq<Expr>, x: real)
    requires forall c :: c in cs ==> IsCondition(c)
    ensures AnyConds(lib, cs, x).Failure? ==> IsArithmeticError(AnyConds(lib, cs, x).error)
    decreases cs
  {
    if |cs| > 0 {
      EvalCondSound(lib, cs[0], x);
      AnyCondsSound(lib, cs[1..], x);
    }
  }

  // ---------------------------------------------------------------------------
  // Condition semantics
  // ---------------------------------------------------------------------------

  /** Every adjacent pair of operands satisfies the operator between them. */
  ghost predicate Pairwise(operands: seq<real>, ops: seq<CmpOperator>)
  {
    forall i :: 0 <= i < |ops| && i + 1 < |operands| ==> CmpHolds(ops[i], operands[i], operands[i + 1])
  }

  /**
    A chain `a op1 b op2 c ...` fails exactly when one of its operands fails,
    with the first such failure, and otherwise is the conjunction of the
    pairwise comparisons, each right operand becoming the next left operand.
  */
  lemma {:induction false} ChainIsPairwise(lib: MathLib, current: real, ops: seq<CmpOperator>, comparators: seq<Expr>, x: real)
    requires |ops| == |comparators|
    ensures var vs := EvalArgs(lib, comparators, x);
            Chain(lib, current, ops, comparators, x) ==
              if vs.Failure? then Failure(vs.error) else Success(Pairwise([current] + vs.value, ops))
    decreases comparators
  {
    if |ops| > 0 {
      var right := Eval(lib, comparators[0], x);
      if right.Success? {
        ChainIsPairwise(lib, right.value, ops[1..], comparators[1..], x);
        var rest := EvalArgs(lib, comparators[1..], x);
        if rest.Success? {
          var operands := [current] + ([right.value] + rest.value);
          var tail := [right.value] + rest.value;
          assert operands[1..] == tail;
          assert Pairwise(operands, ops) <==> CmpHolds(ops[0], current, right.value) && Pairwise(tail, ops[1..]) by {
            if CmpHolds(ops[0], current, right.value) && Pairwise(tail, ops[1..]) {
              forall i | 0 <= i < |ops| && i + 1 < |operands|
                ensures CmpHolds(ops[i], operands[i], operands[i + 1])
              {
                if i > 0 {
                  assert ops[i] == ops[1..][i - 1];
                  assert operands[i] == tail[i - 1] && operands[i + 1] == tail[i];
                }
              }
            }
            if Pairwise(operands, ops) {
              assert CmpHolds(ops[0], operands[0], operands[1]);
              forall i | 0 <= i < |ops[1..]| && i + 1 < |tail|
                ensures CmpHolds(ops[1..][i], tail[i], tail[i + 1])
              {
                assert CmpHolds(ops[i + 1], operands[i + 1], operands[i + 2]);
              }
            }
          }
        }
      }
    }
  }

  /** `and` is `all`: when every sub-condition evaluates, the result is their conjunction. */
  lemma {:induction false} AndIsAll(lib: MathLib, cs: seq<Expr>, x: real)
    requires forall i :: 0 <= i < |cs| ==> EvalCond(lib, cs[i], x).Success?
    ensures AllConds(lib, cs, x) == Success(forall i :: 0 <= i < |cs| ==> EvalCond(lib, cs[i], x).value)
    decreases cs
  {
    if |cs| > 0 {
      AndIsAll(lib, cs[1..], x);
      assert forall i :: 1 <= i < |cs| ==> cs[i] == cs[1..][i - 1];
    }
  }

  /** `and` stops at its first false sub-condition; later ones are not evaluated. */
  lemma {:induction false} AndShortCircuits(lib: MathLib, cs: seq<Expr>, k: nat, x: real)
    requires k < |cs| && EvalCond(lib, cs[k], x) == Success(false)
    requires forall j :: 0 <= j < k ==> EvalCond(lib, cs[j], x) == Success(true)
    ensures AllConds(lib, cs, x) == Success(false)
    decreases k
  {
    if k > 0 {
      assert EvalCond(lib, cs[0], x) == Success(true);
      assert forall j :: 0 <= j < k - 1 ==> cs[1..][j] == cs[j + 1];
      AndShortCircuits(lib, cs[1..], k - 1, x);
    }
  }

  /** `or` is `any`: when every sub-condition evaluates, the result is their disjunction. */
  lemma {:induction false} OrIsAny(lib: MathLib, cs: seq<Expr>, x: real)
    requires forall i :: 0 <= i < |cs| ==> EvalCond(lib, cs[i], x).Success?
    ensures AnyConds(lib, cs, x) == Success(exists i :: 0 <= i < |cs| && EvalCond(lib, cs[i], x).value)
    decreases cs
  {
    if |cs| > 0 {
      OrIsAny(lib, cs[1..], x);
      assert forall i :: 1 <= i < |cs| ==> cs[i] == cs[1..][i - 1];
      if !EvalCond(lib, cs[0], x).value {
        if exists i :: 0 <= i < |cs| && EvalCond(lib, cs[i], x).value {
          var i :| 0 <= i < |cs| && EvalCond(lib, cs[i], x).value;
          assert EvalCond(lib, cs[1..][i - 1], x).value;
        }
      }
    }
  }

  /** `or` stops at its first true sub-condition; later ones are not evaluated. */
  lemma {:induction false} OrShortCircuits(lib: MathLib, cs: seq<Expr>, k: nat, x: real)
    requires k < |cs| && EvalCond(lib, cs[k], x) == Success(true)
    requires forall j :: 0 <= j < k ==> EvalCond(lib, cs[j], x) == Success(false)
    ensures AnyConds(lib, cs, x) == Success(true)
    decreases k
  {
    if k > 0 {
      assert EvalCond(lib, cs[0], x) == Success(false);
      assert forall j :: 0 <= j < k - 1 ==> cs[1..][j] == cs[j + 1];
      OrShortCircuits(lib, cs[1..], k - 1, x);
    }
  }

  /** A sub-condition that raises before the deciding one makes the whole `and` raise. */
  lemma {:induction false} AndPropagatesFailure(lib: MathLib, cs: seq<Expr>, k: nat, x: real)
    requires k < |cs| && EvalCond(lib, cs[k], x).Failure?
    requires forall j :: 0 <= j < k ==> EvalCond(lib, cs[j], x) == Success(true)
    ensures AllConds(lib, cs, x) == EvalCond(lib, cs[k], x)
    decreases k
  {
    if k > 0 {
      assert EvalCond(lib, cs[0], x) == Success(true);
      assert forall j :: 0 <= j < k - 1 ==> cs[1..][j] == cs[j + 1];
      AndPropagatesFailure(lib, cs[1..], k - 1, x);
    }
  }

  /** A sub-condition that raises before the deciding one makes the whole `or` raise. */
  lemma {:induction false} OrPropagatesFailure(lib: MathLib, cs: seq<Expr>, k: nat, x: real)
    requires k < |cs| && EvalCond(lib, cs[k], x).Failure?
    requires forall j :: 0 <= j < k ==> EvalCond(lib, cs[j], x) == Success(false)
    ensures AnyConds(lib, cs, x) == EvalCond(lib, cs[k], x)
    decreases k
  {
    if k > 0 {
      assert EvalCond(lib, cs[0], x) == Success(false);
      assert forall j :: 0 <= j < k - 1 ==> cs[1..][j] == cs[j + 1];
      OrPropagatesFailure(lib, cs[1..], k - 1, x);
    }
  }

  /** A conditional expression yields its body when the test holds and its else-branch otherwise. */
  lemma IfExpSelectsBranch(lib: MathLib, test: Expr, body: Expr, orelse: Expr, x: real)
    requires EvalCond(lib, test, x).Success?
    ensures Eval(lib, IfExp(test, body, orelse), x) ==
              if EvalCond(lib, test, x).value then Eval(lib, body, x) else Eval(lib, orelse, x)
  {
  }

  // ---------------------------------------------------------------------------
  // Compile (`SafeEvaluator.__init__`, `build_function`, `make_callable`)
  // ---------------------------------------------------------------------------

  /** A tree that passed validation; no other tree can be turned into a callable. */
  type Compiled = t: Expr | Validate(t).Pass? witness Expression(Constant(IntConst(0)))

  /** Parse with the host parser, then validate; a syntax error and a rejected tree are distinct. */
  function BuildFunction(parse: string -> ParseOutcome, expr: string): (r: Result<Compiled, ParseError>)
    ensures r.Success? <==> parse(expr).Parsed? && InGrammar(parse(expr).tree)
    ensures r.Success? ==> r.value == parse(expr).tree
    ensures r.Failure? ==> (r.error.SyntaxError? <==> parse(expr).SyntaxFailure?)
    ensures r.Failure? && parse(expr).SyntaxFailure? ==> r.error == SyntaxError(parse(expr).detail)
    ensures r.Failure? && parse(expr).Parsed? ==> Offends(parse(expr).tree, r.error)
  {
    match parse(expr)
    case SyntaxFailure(detail) => Failure(SyntaxError(detail))
    case Parsed(tree) =>
      ValidateAcceptsGrammar(tree);
      var check := Validate(tree);
      if check.Fail? then
        ValidateReportsViolation(tree);
        OffendsIsNotSyntaxError(tree, check.error);
        Failure(check.error)
      else Success(tree)
  }

  /** The callable `f(x) = float(eval(tree, x))`; it can only fail with an arithmetic error. */
  function MakeCallable(lib: MathLib, c: Compiled): (f: real -> Result<real, EvalError>)
    ensures forall x :: f(x) == Eval(lib, c, x)
    ensures forall x :: f(x).Failure? ==> IsArithmeticError(f(x).error)
  {
    ValidateAcceptsGrammar(c);
    assert forall x :: Eval(lib, c, x).Failure? ==> IsArithmeticError(Eval(lib, c, x).error) by {
      forall x ensures Eval(lib, c, x).Failure? ==> IsArithmeticError(Eval(lib, c, x).error) {
        EvalSound(lib, c, x);
      }
    }
    x => Eval(lib, c, x)
  }

  // ---------------------------------------------------------------------------
  // Concrete expressions from the project's tests
  // ---------------------------------------------------------------------------

  /** The tree of `2*x + 3`. */
  const LinearTree: Expr :=
    Expression(BinOp(BinOp(Constant(IntConst(2)), Mult, Name("x")), Add, Constant(IntConst(3))))

  /** The tree of `y + 1`. */
  const UnknownNameTree: Expr := Expression(BinOp(Name("y"), Add, Constant(IntConst(1))))

  /** The tree of `0`. */
  const ZeroTree: Expr := Expression(Constant(IntConst(0)))

  /** The tree of `x if x > 0 else -x`. */
  const AbsTree: Expr :=
    Expression(IfExp(Compare(Name("x"), [Gt], [Constant(IntConst(0))]), Name("x"), UnaryOp(USub, Name("x"))))

  /** `2*x + 3` compiles and gives 3 at 0 and 5 at 1. */
  lemma LinearExample(lib: MathLib, x: real)
    ensures Validate(LinearTree).Pass?
    ensures Eval(lib, LinearTree, x) == Success(2.0 * x + 3.0)
    ensures Eval(lib, LinearTree, 0.0) == Success(3.0) && Eval(lib, LinearTree, 1.0) == Success(5.0)
  {
  }

  /** `y + 1` is rejected at validation, naming `y`, whatever parser produced the tree. */
  lemma UnknownNameExample(parse: string -> ParseOutcome, expr: string)
    requires parse(expr) == Parsed(UnknownNameTree)
    ensures BuildFunction(parse, expr) == Failure(UnknownName("y"))
    ensures Message(UnknownName("y")) == "Unknown name 'y'"
  {
  }

  /** `0` evaluates to 0 at every input. */
  lemma ZeroExample(lib: MathLib, x: real)
    ensures Validate(ZeroTree).Pass? && Eval(lib, ZeroTree, x) == Success(0.0)
  {
  }

  /** `x if x > 0 else -x` compiles and agrees with `abs(x)` everywhere. */
  lemma AbsExample(lib: MathLib, x: real)
    ensures Validate(AbsTree).Pass?
    ensures Eval(lib, AbsTree, x) == Success(Abs(x))
    ensures Eval(lib, AbsTree, x) == Eval(lib, Expression(Call(Name("abs"), [Name("x")], [])), x)
  {
  }
}
