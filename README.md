# Coordinate Wordle core, modelled in Dafny

Coordinate Wordle hides a target point. The player guesses a function `y = f(x)` as a text
expression. The game scores each guess by how close the curve comes to the target. This
project models the three parts of the game that hold its logic, and proves their
properties:

- **The expression sandbox** (`functions.dfy`, module `Functions`, over the syntax trees of
  `syntax.dfy`, module `Syntax`). The validator walks a parsed tree. It rejects, at the
  first violation, every node kind, operator, identifier, constant type or callee outside
  the allow-list. The interpreter evaluates a tree at an input `x`. This covers chained
  comparisons and `and`/`or` inside `a if cond else b`. `BuildFunction` parses, then
  validates. Only trees that pass validation belong to the type `Compiled`, and only those
  become callables. The main theorems are these:
  - the validator accepts exactly a declarative grammar (`ValidateAcceptsGrammar`);
  - a validated tree never reaches the interpreter's own "Unknown name"/"Unexpected …"
    failures (`EvalSound`, `MakeCallable`).
- **The curve-to-point sampler** (`geometry.dfy`, module `Geometry`). It scans an evenly
  spaced grid over `[xMin, xMax]` and keeps a running minimum of the distance to the target.
  Samples where the function raises or gives a complex or non-finite value are skipped. The
  result is `+inf` when no sample is retained.
- **The game engine** (`engine.dfy`, module `Engine`). A class holds the attempts list and
  the `finished`/`won` flags. Its invariant says the following:
  - a hit wins;
  - the attempt limit ends the game;
  - every attempt's best distance is the running minimum.

  `SubmitGuess` refuses a guess once the game is finished, leaving the state unchanged.

Arithmetic is exact over `real`. `+`, `-` and `*` are exact. `/` raises on a zero divisor,
as the host language does. `**` and `sin`, `cos`, `tan`, `exp`, `log` and `sqrt` come from
a `MathLib` parameter. Their values are abstract. The failure conditions of `sqrt` and `log`
are written out: `sqrt` of a negative, `log` of a non-positive value, `log` with a base whose
logarithm is zero, and the wrong number of arguments. When `exp` and `**` fail is left to
the parameter: they fail exactly where it answers `None`. `abs`, `floor` and `ceil` are
concrete. The host parser (`ast.parse`) and `math.hypot` are parameters too.
`Geometry.IsHypot` states what `hypot` computes (a non-negative `h` with
`h*h == a*a + b*b`), and the lemmas that need it assume it.

`/` raises `ZeroDivisionError` on a zero divisor, as Python does, and
`min_distance_curve_to_point` returns only the distance, not where it was found.

## Model

| member | source | states |
|---|---|---|
| `Functions.ValidateAcceptsGrammar` | src/coordle/functions.py:55-98 | `_validate` accepts a tree iff it is in the allowed grammar, stated declaratively. A binary operator must be one of Add, Sub, Mult, Div, Pow, and a unary one UAdd or USub, with both operands valid. A call must target a bare name in the nine-entry allow-list, with valid arguments and no keywords. The only name is `x`. Constants must be int/float (bool included). A conditional needs a condition plus valid branches. Every other node kind is rejected |
| `Functions.ValidateAllAcceptsGrammar` | src/coordle/functions.py:77-78 | validating a list of sub-expressions passes iff every element is in the grammar |
| `Functions.ValidateConditionAcceptsGrammar` | src/coordle/functions.py:100-117 | `_validate_condition` accepts exactly two shapes: a comparison whose operands are all valid and whose operators are all in {<, <=, >, >=, ==, !=}, or an and/or of valid conditions. Any other condition node is rejected |
| `Functions.ValidateConditionsAcceptsGrammar` | src/coordle/functions.py:114-115 | an and/or passes iff each sub-condition is a valid condition |
| `Functions.CheckCmpOperatorsAccepts` | src/coordle/functions.py:107-109 | the comparison-operator check passes iff every operator is one of the six allowed |
| `Functions.Validate` | src/coordle/functions.py:55-98 | the walk of `_validate` itself. Its properties are stated by `ValidateAcceptsGrammar` and `ValidateReportsViolation` |
| `Functions.ValidateCondition` | src/coordle/functions.py:100-117 | the walk of `_validate_condition` itself. Its properties are stated by `ValidateConditionAcceptsGrammar`, `ValidateConditionReportsViolation` and `CompareReportsOperandsBeforeOperators` |
| `Functions.Message` | src/coordle/functions.py:62-117 | the text of each `FunctionParseError` raised by validation, and of the syntax error at line 48. `UnknownNameExample` states the text for an unknown name |
| `Syntax.KindName` | src/coordle/functions.py:98 | `type(node).__name__`, the node kind named in "Node type … not allowed" and "Condition node … not allowed" |
| `Functions.ValidateReportsViolation` | src/coordle/functions.py:55-98 | when validation fails, the reported error describes a violation present in the tree (`Offends`). The named operator, callee, identifier, constant, keyword list or node kind occurs at a position the validator inspects, outside the allow-list |
| `Functions.ValidateAllReportsViolation` | src/coordle/functions.py:77-78 | a rejected argument list is rejected for a violation in one of its elements |
| `Functions.ValidateConditionReportsViolation` | src/coordle/functions.py:100-117 | a rejected condition is rejected for a violation it contains (`ConditionOffends`): in its operands, a comparison operator of its own chain, a sub-condition, or its node kind |
| `Functions.ValidateConditionsReportsViolation` | src/coordle/functions.py:114-115 | a rejected and/or is rejected for a violation in one of its sub-conditions |
| `Functions.CheckCmpOperatorsReportsViolation` | src/coordle/functions.py:107-109 | the rejected comparison operator is the first operator of the chain outside the six allowed |
| `Functions.OffendsOutsideGrammar` | src/coordle/functions.py:55-98 | a tree holding a violation as `Offends` describes it is outside the grammar, so a reported violation is a real one |
| `Functions.ConditionOffendsOutsideGrammar` | src/coordle/functions.py:100-117 | the same for a condition |
| `Functions.CompareReportsOperandsBeforeOperators` | src/coordle/functions.py:102-109 | in a comparison, a violation in the left operand is reported first, then one in the comparators, and only then a disallowed operator |
| `Functions.CallReportsArgumentsBeforeKeywords` | src/coordle/functions.py:77-80 | in a call to an allowed name, an argument violation is reported even when keyword arguments are present too |
| `Functions.IfExpReportsBranchesBeforeCondition` | src/coordle/functions.py:90-95 | the body is validated first, then the else-branch, then the condition. The first failure among them is the one reported |
| `Functions.Eval` | src/coordle/functions.py:121-170 | the interpreter `_eval` itself. Its properties are stated by `EvalSound`, `IfExpSelectsBranch`, `Arith`, `ApplyFunc` and the examples |
| `Functions.EvalCond` | src/coordle/functions.py:172-202 | `_eval_cond` itself. Its properties are stated by `EvalCondSound`, `EvalCompare`, `ChainIsPairwise` and the and/or lemmas |
| `Functions.Chain` | src/coordle/functions.py:176-193 | the comparison chain as a recursion over the zipped operators and comparators. `ChainIsPairwise` characterises it and `EvalCompare` runs it as a loop |
| `Functions.AllConds` | src/coordle/functions.py:196-197 | `all(...)` over the sub-conditions. Characterised by `AndIsAll`, `AndShortCircuits` and `AndPropagatesFailure` |
| `Functions.AnyConds` | src/coordle/functions.py:198-199 | `any(...)` over the sub-conditions. Characterised by `OrIsAny`, `OrShortCircuits` and `OrPropagatesFailure` |
| `Functions.Arith` | src/coordle/functions.py:133-147 | a binary operation fails with "Unexpected operator" exactly for operators outside the five allowed. `+`, `-` and `*` never fail, and `(a - b) + b == a`. `/` fails exactly on a zero divisor and otherwise `(a / b) * b == a`. `**` fails exactly where the `MathLib` power answers `None`. Every other failure is arithmetic |
| `Functions.ApplyFunc` | src/coordle/functions.py:8-18 | calling an `_ALLOWED_FUNCS` entry. A name outside the table fails as unknown; inside it, only arithmetic failures occur. `log` takes one or two arguments and the rest exactly one. One-argument `log` fails exactly on a non-positive argument, `sqrt` exactly on a negative one, and `exp` exactly where its `MathLib` routine answers `None`. `sin`, `cos` and `tan` never fail. `abs` is non-negative and is `±x`. `floor` and `ceil` are integers within one of `x`, below and above it |
| `Functions.EvalSound` | src/coordle/functions.py:121-170 | for a validated tree, `_eval` fails only with an arithmetic error of the host routines. It never takes the "Unknown name", "Unexpected operator", "Unexpected unary operator" or "Unexpected node type" branches, and never fails a callee or constant lookup |
| `Functions.EvalArgsSound` | src/coordle/functions.py:160 | the same for evaluating the argument list of a call |
| `Functions.EvalCondSound` | src/coordle/functions.py:172-202 | the same for `_eval_cond` on a validated condition: it never takes the "Unexpected condition node" branch |
| `Functions.ChainSound` | src/coordle/functions.py:178-193 | the same for the operands of a comparison chain |
| `Functions.AllCondsSound` | src/coordle/functions.py:196-197 | the same for `and` |
| `Functions.AnyCondsSound` | src/coordle/functions.py:198-199 | the same for `or` |
| `Functions.EvalCompare` | src/coordle/functions.py:173-193 | the loop with accumulators `result` and `current_left` computes the comparison-chain semantics of `EvalCond`. It fails with the first failing operand |
| `Functions.ChainIsPairwise` | src/coordle/functions.py:176-193 | a chain `a op1 b op2 c …` fails iff an operand fails, with the first such failure. Otherwise it is the conjunction of the pairwise comparisons, each right operand becoming the next left operand |
| `Functions.AndIsAll` | src/coordle/functions.py:196-197 | `and` over sub-conditions that all evaluate is their conjunction (`all`) |
| `Functions.AndShortCircuits` | src/coordle/functions.py:197 | `and` is false at the first false sub-condition, whatever the later ones would do |
| `Functions.OrIsAny` | src/coordle/functions.py:198-199 | `or` over sub-conditions that all evaluate is their disjunction (`any`) |
| `Functions.OrShortCircuits` | src/coordle/functions.py:199 | `or` is true at the first true sub-condition, whatever the later ones would do |
| `Functions.AndPropagatesFailure` | src/coordle/functions.py:197 | when the sub-conditions before the k-th are all true and the k-th raises, `and` raises that same error |
| `Functions.OrPropagatesFailure` | src/coordle/functions.py:199 | when the sub-conditions before the k-th are all false and the k-th raises, `or` raises that same error |
| `Functions.IfExpSelectsBranch` | src/coordle/functions.py:163-168 | a conditional expression evaluates to its body when the condition holds and to its else-branch otherwise |
| `Functions.BuildFunction` | src/coordle/functions.py:43-51 | compiling succeeds iff the text parses and the tree is in the grammar, and the compiled tree is the parsed one. A syntax error is reported as such, and only for text that does not parse, with the parser's message. A rejected parsed tree is rejected for a violation present in it (`Offends`) |
| `Functions.MakeCallable` | src/coordle/functions.py:204-208 | the callable evaluates the compiled tree, and every failure it raises is an arithmetic error at that input |
| `Functions.LinearExample` | tests/test_functions.py:7-10 | `2*x + 3` compiles and equals `2x + 3` everywhere, so 3 at 0 and 5 at 1 |
| `Functions.UnknownNameExample` | tests/test_functions.py:19-25 | `y + 1` is rejected by validation with "Unknown name 'y'", never as a syntax error |
| `Functions.ZeroExample` | src/coordle/functions.py:125-126 | `0` compiles and evaluates to 0 at every input |
| `Functions.AbsExample` | src/coordle/functions.py:163-168 | `x if x > 0 else -x` compiles and agrees with `abs(x)` at every input |
| `Geometry.Min` | src/coordle/engine.py:84 | `min(a, b)` on distances is no larger than either argument and is one of them |
| `Geometry.MinDistanceCurveToPoint` | src/coordle/geometry.py:7-45 | raises `ValueError` iff `n_samples < 2`. Otherwise it scans the grid points `x_min + i*step` and gives `+inf` iff no sample is retained. Retained means the call did not raise and gave a finite real. The answer is at most the `hypot` distance of every retained sample, and equals the distance of some retained sample |
| `Geometry.GridEndpoints` | src/coordle/geometry.py:22-26 | the first sampled point is `x_min` and the last is `x_max` |
| `Geometry.GridWithinBounds` | src/coordle/geometry.py:22-26 | when `x_min <= x_max`, the sampled points increase and stay within the closed interval |
| `Geometry.MinDistanceUnique` | src/coordle/geometry.py:38-45 | the description of the answer determines it: two values that both satisfy it are equal |
| `Geometry.AllFailingGivesInfinity` | src/coordle/geometry.py:23-31 | a function that raises at every grid point yields `+inf` |
| `Geometry.MinDistanceNonNegative` | src/coordle/geometry.py:38-45 | with the real `hypot`, a finite answer is non-negative |
| `Geometry.HypotOnAxis` | src/coordle/geometry.py:40 | `hypot(a, 0)` is the absolute value of `a` |
| `Engine.Strip` | src/coordle/engine.py:55 | `expr.strip()` is the infix of the input with only whitespace before and after it. It neither starts nor ends with whitespace, and it is empty iff the input is all whitespace |
| `Engine.SkipLeading` | src/coordle/engine.py:55 | the scan for leading whitespace stops at the first non-whitespace character or the end, having passed only whitespace |
| `Engine.SkipTrailing` | src/coordle/engine.py:55 | the scan for trailing whitespace stops after the last non-whitespace character or at the start, having passed only whitespace |
| `Engine.BestDist` | src/coordle/engine.py:96-99 | `_best_dist_or_inf` is `inf` with no attempts. Otherwise it is at most every attempt's distance and equal to one of them |
| `Engine.CoordinateWordleEngine.BestDistOrInf` | src/coordle/engine.py:96-99 | `_best_dist_or_inf` itself: `BestDist` of the current attempts, whose contract states the minimum |
| `Engine.AsSampler` | src/coordle/geometry.py:27-36 | the compiled callable as the sampler sees it: a sample is retained exactly when the call did not raise, and then it carries the call's value |
| `Engine.CoordinateWordleEngine.constructor` | src/coordle/engine.py:32-40 | a new game has no attempts and is neither finished nor won |
| `Engine.GameState.constructor` | src/coordle/engine.py:22-28 | a new state holds the configuration and target, no attempts, and both flags false |
| `Engine.CoordinateWordleEngine.IsFinished` | src/coordle/engine.py:42-43 | the game is finished iff its last attempt hit or the attempt limit is reached |
| `Engine.CoordinateWordleEngine.HasWon` | src/coordle/engine.py:45-46 | the game is won iff its last attempt hit, and a won game is finished |
| `Engine.CoordinateWordleEngine.RemainingAttempts` | src/coordle/engine.py:48-49 | `max_attempts - len(attempts)`. With `max_attempts >= 1` it is never negative, and it is at least one while the game goes on |
| `Engine.CoordinateWordleEngine.RecordAttempt` | src/coordle/engine.py:101-111 | appends the attempt and keeps the game invariant. A hit sets `finished` and `won`. A miss that reaches `max_attempts` sets `finished` and not `won`. Otherwise the game goes on |
| `Engine.CoordinateWordleEngine.SubmitGuess` | src/coordle/engine.py:51-94 | a finished game raises and nothing changes. An empty stripped expression records `inf`, no hit, "Empty expression" and the previous best. A rejected expression records `inf`, no hit and the error message. A valid one records the sampled minimum distance, `best = min(previous best, dist)` and `hit` iff `dist < eps`. `ValueError` from the sampler escapes with nothing recorded. Every non-raising call appends exactly the returned attempt |
| `Engine.ZeroCurveIsClose` | tests/test_engine.py:11-15 | with an exact `hypot`, the sampled distance from the curve `y = 0` to the target (0, 0) over the default grid is below the default threshold 0.2. The grid point `-20/1999` lies that close |
| `Engine.GuessZeroWins` | tests/test_engine.py:7-17 | with the default configuration and target (0, 0), the guess "0" hits, finishes the game and wins it |

## Left out

- `ast.parse` is not modelled. It is a parameter from text to a tree or a syntax error with
  its message, and the model starts from its output.
- IEEE-754 arithmetic is not modelled. Values are exact reals, so there is no rounding,
  overflow to infinity, NaN, or float literal that overflows to `inf`. The grid points are
  exact, which is why the last one is exactly `x_max`.
- The values of `math.sin`, `cos`, `tan`, `exp`, `log`, `sqrt`, `**` and `math.hypot` are
  abstract. So the `sin(x)` test (values near 0 and 1) is not modelled. Nor are the cases
  where the host rounds or overflows.
- `**` yielding a complex number is treated as a failure of the call. In the host, a complex
  intermediate can flow into further arithmetic (`abs((-1) ** 0.5)` gives 1.0), and only
  `float(...)` in `make_callable` rejects a complex final value.
- Python's exact integers and its int/float distinction are not modelled (both are `real`).
  `floor` and `ceil` return their integer as a real.
- Evaluating a non-numeric constant is an error in the model; in the host it returns the
  constant itself. Validation rejects such constants, so no compiled function reaches this
  case.
- Whitespace for `str.strip()` is the host's `str.isspace` set, listed by code point.
- Random target generation (`random.Random.uniform`) is not modelled. The target is a
  constructor parameter, and `point_min`/`point_max` are carried in the configuration
  unused.
- `reveal_target`, the HTTP API, the command-line loop, plotting and session storage are
  not part of this model.
- Python's recursion limit is not modelled. `_validate`, `_validate_condition`, `_eval` and
  `_eval_cond` recurse once per tree level. A legal but very deep tree (around a thousand
  nested operations) makes the host raise `RecursionError`. That is not a
  `FunctionParseError`, so `submit_guess` would let it escape and record nothing. The model's
  validator and interpreter are total and accept such trees.
- The location of the minimum is not returned; the source's sampler returns only the
  distance.

