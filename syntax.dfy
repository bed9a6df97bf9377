/**
  The syntax trees that the host parser (Python's `ast.parse(expr, mode="eval")`)
  hands to the expression sandbox. The datatype covers the node kinds the sandbox
  accepts AND the ones it must reject, so that rejection is observable: operators
  outside the allow-list, comparisons, boolean operations and constants of every
  type the host can produce, plus a catch-all for every other node kind
  (attribute access, subscripts, lambdas, collection literals, ...).
*/
module Syntax {

  /** Every binary operator of the host grammar. */
  datatype BinOperator =
    | Add | Sub | Mult | Div | Pow
    | Mod | FloorDiv | MatMult | LShift | RShift | BitOr | BitXor | BitAnd

  /** Every unary operator of the host grammar. */
  datatype UnaryOperator = UAdd | USub | Not | Invert

  /** Every comparison operator of the host grammar. */
  datatype CmpOperator = Lt | LtE | Gt | GtE | Eq | NotEq | Is | IsNot | In | NotIn

  /** The host grammar has exactly two boolean operators. */
  datatype BoolOperator = And | Or

  /** The value of a literal. Booleans are a subtype of integers in the host language. */
  datatype ConstValue =
    | IntConst(i: int)
    | FloatConst(r: real)
    | BoolConst(b: bool)
    | ComplexConst(re: real, im: real)
    | StrConst(s: string)
    | BytesConst(bytes: seq<int>)
    | NoneConst
    | EllipsisConst

  /** A keyword argument `name=value` of a call. */
  datatype Keyword = Keyword(arg: string, value: Expr)

  datatype Expr =
    | Expression(body: Expr)                                   // the root produced in "eval" mode
    | BinOp(left: Expr, op: BinOperator, right: Expr)
    | UnaryOp(uop: UnaryOperator, operand: Expr)
    | Call(func: Expr, args: seq<Expr>, keywords: seq<Keyword>)
    | Name(id: string)
    | Constant(value: ConstValue)
    | IfExp(test: Expr, body: Expr, orelse: Expr)               // `body if test else orelse`
    | Compare(left: Expr, ops: seq<CmpOperator>, comparators: seq<Expr>)
    | BoolOp(bop: BoolOperator, values: seq<Expr>)
    | Other(kind: string)                                       // any other node kind, by its class name

  /** What the host parser returns: a tree, or a syntax error with its message. */
  datatype ParseOutcome = Parsed(tree: Expr) | SyntaxFailure(detail: string)

  /** The class name of a node, as `type(node).__name__` reports it. */
  function KindName(e: Expr): string
  {
    match e
    case Expression(_) => "Expression"
    case BinOp(_, _, _) => "BinOp"
    case UnaryOp(_, _) => "UnaryOp"
    case Call(_, _, _) => "Call"
    case Name(_) => "Name"
    case Constant(_) => "Constant"
    case IfExp(_, _, _) => "IfExp"
    case Compare(_, _, _) => "Compare"
    case BoolOp(_, _) => "BoolOp"
    case Other(k) => k
  }

  function BinOperatorName(op: BinOperator): string
  {
    match op
    case Add => "Add"
    case Sub => "Sub"
    case Mult => "Mult"
    case Div => "Div"
    case Pow => "Pow"
    case Mod => "Mod"
    case FloorDiv => "FloorDiv"
    case MatMult => "MatMult"
    case LShift => "LShift"
    case RShift => "RShift"
    case BitOr => "BitOr"
    case BitXor => "BitXor"
    case BitAnd => "BitAnd"
  }

  function UnaryOperatorName(op: UnaryOperator): string
  {
    match op
    case UAdd => "UAdd"
    case USub => "USub"
    case Not => "Not"
    case Invert => "Invert"
  }

  function CmpOperatorName(op: CmpOperator): string
  {
    match op
    case Lt => "Lt"
    case LtE => "LtE"
    case Gt => "Gt"
    case GtE => "GtE"
    case Eq => "Eq"
    case NotEq => "NotEq"
    case Is => "Is"
    case IsNot => "IsNot"
    case In => "In"
    case NotIn => "NotIn"
  }
}
