/**
  The game engine of src/coordle/engine.py. A `GameState` holds the target, the
  list of attempts and the `finished`/`won` flags; `submit_guess` compiles the
  guessed expression, samples its distance to the target and appends exactly one
  attempt, and `_record_attempt` ends the game on a hit (a win) or when the
  attempt limit is reached (a loss). A finished game refuses further guesses.

  The configuration is a parameter (the defaults of src/coordle/config.py are
  `DefaultConfig`); so are the target (the source draws it at random), the host
  parser, the math library and `math.hypot`.
*/
module Engine {
  import opened Wrappers
  import opened Syntax
  import Functions
  import opened Geometry

  datatype GameConfig = GameConfig(
    xMin: real,
    xMax: real,
    nSamples: int,
    maxAttempts: int,
    eps: real,          // win threshold
    pointMin: real,
    pointMax: real)

  const DefaultConfig: GameConfig := GameConfig(-20.0, 20.0, 2000, 8, 0.2, -10.0, 10.0)

  datatype GuessResult = GuessResult(
    expr: string,
    dist: Distance,
    bestDist: Distance,
    hit: bool,
    error: Option<string>)

  /** The exceptions `submit_guess` lets escape: nothing is recorded when one is raised. */
  datatype EngineError = GameAlreadyFinished | SamplingFailed(cause: ValueError)

  const EmptyExpressionMessage: string := "Empty expression"

  // ---------------------------------------------------------------------------
  // `str.strip()`
  // ---------------------------------------------------------------------------

  /** The characters the host's `str.isspace` accepts. */
  predicate IsSpace(c: char)
  {
    var n := c as int;
    n == 0x20 || 0x09 <= n <= 0x0d || 0x1c <= n <= 0x1f || n == 0x85 || n == 0xa0 || n == 0x1680 ||
    0x2000 <= n <= 0x200a || n == 0x2028 || n == 0x2029 || n == 0x202f || n == 0x205f || n == 0x3000
  }

  /** The first index at or after `i` that does not hold whitespace, or `|s|`. */
  function SkipLeading(s: string, i: nat): (j: nat)
    requires i <= |s|
    ensures i <= j <= |s|
    ensures forall k :: i <= k < j ==> IsSpace(s[k])
    ensures j < |s| ==> !IsSpace(s[j])
    decreases |s| - i
  {
    if i < |s| && IsSpace(s[i]) then SkipLeading(s, i + 1) else i
  }

  /** The end of `s[lo..j]` once its trailing whitespace is dropped. */
  function SkipTrailing(s: string, lo: nat, j: nat): (e: nat)
    requires lo <= j <= |s|
    ensures lo <= e <= j
    ensures forall k :: e <= k < j ==> IsSpace(s[k])
    ensures e > lo ==> !IsSpace(s[e - 1])
    decreases j
  {
    if j > lo && IsSpace(s[j - 1]) then SkipTrailing(s, lo, j - 1) else j
  }

  /** `r` is the infix of `s` starting at `i`, with only whitespace of `s` before and after it. */
  ghost predicate TrimmedAt(s: string, r: string, i: int)
  {
    0 <= i && i + |r| <= |s| && r == s[i..i + |r|] &&
    (forall k :: 0 <= k < i ==> IsSpace(s[k])) &&
    (forall k :: i + |r| <= k < |s| ==> IsSpace(s[k]))
  }

  /** `s.strip()`: the longest infix of `s` that neither starts nor ends with whitespace. */
  function Strip(s: string): (r: string)
    ensures exists i :: TrimmedAt(s, r, i)
    ensures r != [] ==> !IsSpace(r[0]) && !IsSpace(r[|r| - 1])
    ensures r == [] <==> forall k :: 0 <= k < |s| ==> IsSpace(s[k])
  {
    var i := SkipLeading(s, 0);
    var e := SkipTrailing(s, i, |s|);
    assert TrimmedAt(s, s[i..e], i);
    s[i..e]
  }

  // ---------------------------------------------------------------------------
  // `_best_dist_or_inf` and the shape of a recorded attempt
  // ---------------------------------------------------------------------------

  /** The smallest `dist` over the attempts, `Inf` when there are none. */
  function BestDist(attempts: seq<GuessResult>): (r: Distance)
    ensures |attempts| == 0 ==> r == Inf
    ensures forall i :: 0 <= i < |attempts| ==> !Below(attempts[i].dist, r)
    ensures |attempts| > 0 ==> exists i :: 0 <= i < |attempts| && attempts[i].dist == r
    decreases |attempts|
  {
    if |attempts| == 0 then Inf
    else Min(BestDist(attempts[..|attempts| - 1]), attempts[|attempts| - 1].dist)
  }

  /**
    What every recorded attempt satisfies: a hit is a distance below the
    threshold, and a rejected expression has an infinite distance and no hit.
  */
  ghost predicate WellFormedAttempt(g: GuessResult, eps: real)
  {
    (g.hit <==> Below(g.dist, Fin(eps))) &&
    (g.error.Some? ==> g.dist == Inf && !g.hit)
  }

  /** The most attempts a game can hold: the limit, or one when the limit is below one. */
  function AttemptCap(maxAttempts: int): nat
  {
    if maxAttempts >= 1 then maxAttempts else 1
  }

  /** Each attempt's `bestDist` is the minimum of the distances up to and including it. */
  ghost predicate RunningMinimum(attempts: seq<GuessResult>)
    decreases |attempts|
  {
    |attempts| == 0 ||
    (RunningMinimum(attempts[..|attempts| - 1]) && attempts[|attempts| - 1].bestDist == BestDist(attempts))
  }

  /** The function handed to the sampler: a failing call raises, a value is a finite float. */
  function AsSampler(f: real -> Result<real, Functions.EvalError>): (g: real -> Sample)
    ensures forall x :: Retained(g(x)) <==> f(x).Success?
    ensures forall x :: f(x).Success? ==> g(x) == FloatValue(Finite(f(x).value))
  {
    x => if f(x).Failure? then Raises else FloatValue(Finite(f(x).value))
  }

  // ---------------------------------------------------------------------------
  // Game state
  // ---------------------------------------------------------------------------

  class GameState {
    const config: GameConfig
    const target: (real, real)
    var attempts: seq<GuessResult>
    var finished: bool
    var won: bool

    constructor (config: GameConfig, target: (real, real))
      ensures this.config == config && this.target == target
      ensures attempts == [] && !finished && !won
    {
      this.config := config;
      this.target := target;
      attempts := [];
      finished := false;
      won := false;
    }
  }

  class CoordinateWordleEngine {
    const config: GameConfig
    const state: GameState
    const parse: string -> ParseOutcome
    const lib: Functions.MathLib
    const hypot: (real, real) -> real

    /**
      The game invariant: at most the attempt limit is used, only the last
      attempt can be a hit, the game is won exactly when the last attempt hit,
      finished exactly when it hit or the limit was reached, and every
      attempt's `bestDist` is the running minimum of the distances so far.
    */
    ghost predicate Valid()
      reads this, state
    {
      var a := state.attempts;
      state.config == config &&
      |a| <= AttemptCap(config.maxAttempts) &&
      (forall i :: 0 <= i < |a| - 1 ==> !a[i].hit) &&
      (state.won <==> |a| > 0 && a[|a| - 1].hit) &&
      (state.finished <==> |a| > 0 && (a[|a| - 1].hit || |a| >= config.maxAttempts)) &&
      (forall i :: 0 <= i < |a| ==> WellFormedAttempt(a[i], config.eps)) &&
      RunningMinimum(a)
    }

    constructor (config: GameConfig, target: (real, real), parse: string -> ParseOutcome,
                 lib: Functions.MathLib, hypot: (real, real) -> real)
      ensures Valid() && fresh(state)
      ensures this.config == config && state.target == target
      ensures this.parse == parse && this.lib == lib && this.hypot == hypot
      ensures state.attempts == [] && !state.finished && !state.won
    {
      this.config := config;
      this.parse := parse;
      this.lib := lib;
      this.hypot := hypot;
      state := new GameState(config, target);
    }

    function IsFinished(): (r: bool)
      requires Valid()
      reads this, state
      ensures r <==> |state.attempts| > 0 &&
                     (state.attempts[|state.attempts| - 1].hit || |state.attempts| >= config.maxAttempts)
    {
      state.finished
    }

    function HasWon(): (r: bool)
      requires Valid()
      reads this, state
      ensures r ==> IsFinished()
      ensures r <==> |state.attempts| > 0 && state.attempts[|state.attempts| - 1].hit
    {
      state.won
    }

    function RemainingAttempts(): (r: int)
      requires Valid()
      reads this, state
      ensures r + |state.attempts| == config.maxAttempts
      ensures config.maxAttempts >= 1 ==> r >= 0
      ensures config.maxAttempts >= 1 && !IsFinished() ==> r >= 1
    {
      config.maxAttempts - |state.attempts|
    }

    function BestDistOrInf(): Distance
      reads this, state
    {
      BestDist(state.attempts)
    }

    /** Append an attempt, then end the game on a hit or at the attempt limit. */
    method RecordAttempt(gr: GuessResult)
      requires Valid() && !state.finished
      requires WellFormedAttempt(gr, config.eps)
      requires gr.bestDist == BestDist(state.attempts + [gr])
      modifies state
      ensures Valid()
      ensures state.attempts == old(state.attempts) + [gr]
      ensures gr.hit ==> state.finished && state.won
      ensures !gr.hit ==> !state.won && (state.finished <==> |state.attempts| >= config.maxAttempts)
    {
      ghost var before := state.attempts;
      state.attempts := state.attempts + [gr];
      assert state.attempts[..|before|] == before;
      if gr.hit {
        state.finished := true;
        state.won := true;
        return;
      }
      if |state.attempts| >= config.maxAttempts {
        state.finished := true;
        state.won := false;
      }
    }

    method SubmitGuess(expr: string) returns (r: Result<GuessResult, EngineError>)
      requires Valid()
      modifies state
      ensures Valid()
      ensures old(state.finished) ==> r == Failure(GameAlreadyFinished)
      ensures r.Failure? ==> state.attempts == old(state.attempts) &&
                             state.finished == old(state.finished) && state.won == old(state.won)
      ensures r.Success? ==> state.attempts == old(state.attempts) + [r.value]
      // the recorded attempt
      ensures r.Success? ==> r.value.expr == Strip(expr)
      ensures r.Success? ==> r.value.bestDist == Min(BestDist(old(state.attempts)), r.value.dist)
      ensures r.Success? ==> (r.value.hit <==> Below(r.value.dist, Fin(config.eps)))
      // how the game ends
      ensures r.Success? ==> state.won == r.value.hit
      ensures r.Success? ==> (state.finished <==> r.value.hit || |state.attempts| >= config.maxAttempts)
      // an empty or rejected expression
      ensures !old(state.finished) && Strip(expr) == [] ==>
                r == Success(GuessResult(Strip(expr), Inf, BestDist(old(state.attempts)), false,
                                         Some(EmptyExpressionMessage)))
      ensures !old(state.finished) && Strip(expr) != [] && Functions.BuildFunction(parse, Strip(expr)).Failure? ==>
                r == Success(GuessResult(Strip(expr), Inf, BestDist(old(state.attempts)), false,
                                         Some(Functions.Message(Functions.BuildFunction(parse, Strip(expr)).error))))
      // an accepted expression
      ensures !old(state.finished) && Strip(expr) != [] && Functions.BuildFunction(parse, Strip(expr)).Success? ==>
                var f := AsSampler(Functions.MakeCallable(lib, Functions.BuildFunction(parse, Strip(expr)).value));
                if config.nSamples < 2 then r == Failure(SamplingFailed(TooFewSamples))
                else r.Success? && r.value.error.None? &&
                     IsMinDistance(f, hypot, state.target, config.xMin, config.xMax, config.nSamples, r.value.dist)
    {
      if state.finished {
        return Failure(GameAlreadyFinished);
      }
      var stripped := Strip(expr);
      if |stripped| == 0 {
        var gr := GuessResult(stripped, Inf, BestDistOrInf(), false, Some(EmptyExpressionMessage));
        RecordAttempt(gr);
        return Success(gr);
      }
      var compiled := Functions.BuildFunction(parse, stripped);
      if compiled.Failure? {
        var gr := GuessResult(stripped, Inf, BestDistOrInf(), false, Some(Functions.Message(compiled.error)));
        RecordAttempt(gr);
        return Success(gr);
      }
      var f := AsSampler(Functions.MakeCallable(lib, compiled.value));
      var sampled := MinDistanceCurveToPoint(f, hypot, state.target, config.xMin, config.xMax, config.nSamples);
      if sampled.Failure? {
        assert sampled.error == TooFewSamples;
        return Failure(SamplingFailed(sampled.error));
      }
      var dist := sampled.value;
      var bestPrev := BestDistOrInf();
      var bestDist := Min(bestPrev, dist);
      var hit := Below(dist, Fin(config.eps));
      var gr := GuessResult(stripped, dist, bestDist, hit, None);
      RecordAttempt(gr);
      return Success(gr);
    }
  }

  /**
    Sampling the curve `y = 0` over the default grid against the target (0, 0)
    finds a distance below the default threshold.
  */
  lemma ZeroCurveIsClose(lib: Functions.MathLib, hypot: (real, real) -> real, m: Distance)
    requires IsHypot(hypot)
    requires IsMinDistance(AsSampler(Functions.MakeCallable(lib, Functions.ZeroTree)), hypot, (0.0, 0.0),
                           -20.0, 20.0, 2000, m)
    ensures Below(m, Fin(0.2))
  {
    var f := AsSampler(Functions.MakeCallable(lib, Functions.ZeroTree));
    // the grid point closest to 0 is the 1000th: x = -20/1999
    var x := GridX(-20.0, 20.0, 2000, 999);
    assert x == -20.0 / 1999.0;
    assert f(x) == FloatValue(Finite(0.0));
    HypotOnAxis(hypot, x);
    assert SampleDistance(f, hypot, 0.0, 0.0, x) == 20.0 / 1999.0;
  }

  /**
    The project's engine test: against the target (0, 0) with the default
    configuration, the guess "0" hits at once and wins the game.
  */
  method GuessZeroWins(parse: string -> ParseOutcome, lib: Functions.MathLib, hypot: (real, real) -> real)
    returns (result: Result<GuessResult, EngineError>, finished: bool, won: bool)
    requires parse("0") == Parsed(Functions.ZeroTree)
    requires IsHypot(hypot)
    ensures result.Success? && result.value.hit && result.value.error.None?
    ensures finished && won
  {
    var engine := new CoordinateWordleEngine(DefaultConfig, (0.0, 0.0), parse, lib, hypot);
    assert Strip("0") == "0";
    Functions.ValidateAcceptsGrammar(Functions.ZeroTree);
    assert Functions.BuildFunction(parse, "0") == Success(Functions.ZeroTree);
    result := engine.SubmitGuess("0");
    ZeroCurveIsClose(lib, hypot, result.value.dist);
    finished := engine.IsFinished();
    won := engine.HasWon();
  }
}
