/** The tree-walking evaluator. Expressions read the environment and only `integ`
    writes to it (it rebinds `x`); statements evaluate their expressions, define
    variables and hand values to the graphics engine or the console, which here are
    events appended to a log. A thrown error is an `Err` that stops the statement, with
    every change made before it kept. */
module Interpreter {
  import opened Tokens
  import opened Results
  import opened Ast
  import opened Environment

  /** The library routines and the sampling of `graph`, which the model takes as given:
      `std::sin`, `std::cos`, `std::tan`, `std::log`, `std::pow`, the value of `1.0f / 0`
      and the points the `graph` loop visits. */
  datatype Numerics = Numerics(
    sin: real -> real,
    cos: real -> real,
    tan: real -> real,
    log: real -> real,
    pow: (real, real) -> real,
    infinity: real,
    graphDomain: seq<real>)

  /** The number of slices `integ` sums. */
  const Slices: nat := 100000

  const DivisionMsg: string := "Error: Division by zero"
  const PowerMsg: string := "Error: Negative base to non-integer power"

  /** `1.0f / v`: a float division by zero gives infinity rather than an error. */
  function Reciprocal(num: Numerics, v: real): (r: real)
    ensures v != 0.0 ==> r * v == 1.0
    ensures v == 0.0 ==> r == num.infinity
  {
    if v == 0.0 then num.infinity else 1.0 / v
  }

  predicate IsInteger(v: real)
  {
    v.Floor as real == v
  }

  /** `visitUnaryExpr` once the operand is known; `+` and any other kind fall to the
      default branch and leave the value as it is. */
  function ApplyUnary(num: Numerics, op: TokenType, v: real): (r: real)
    ensures op == Minus ==> r == -v
    ensures op == Sin ==> r == num.sin(v)
    ensures op == Cos ==> r == num.cos(v)
    ensures op == Tan ==> r == num.tan(v)
    ensures op == Cosec ==> r == Reciprocal(num, num.sin(v))
    ensures op == Sec ==> r == Reciprocal(num, num.cos(v))
    ensures op == Cot ==> r == Reciprocal(num, num.tan(v))
    ensures op == Log ==> r == num.log(v)
    ensures op == Abs ==> r >= 0.0 && (r == v || r == -v)
    ensures !(op in {Minus, Sin, Cos, Tan, Cosec, Sec, Cot, Log, Abs}) ==> r == v
  {
    if op == Minus then -v
    else if op == Sin then num.sin(v)
    else if op == Cos then num.cos(v)
    else if op == Tan then num.tan(v)
    else if op == Cosec then Reciprocal(num, num.sin(v))
    else if op == Sec then Reciprocal(num, num.cos(v))
    else if op == Cot then Reciprocal(num, num.tan(v))
    else if op == Log then num.log(v)
    else if op == Abs then (if v < 0.0 then -v else v)
    else v
  }

  /** `visitBinaryExpr` once both operands are known. */
  function ApplyBinary(num: Numerics, op: TokenType, a: real, b: real): (r: Result<real>)
    ensures r.Err? <==> (op == Slash && b == 0.0) || (op == Power && a < 0.0 && !IsInteger(b))
    ensures r.Err? && op == Slash ==> r.msg == DivisionMsg
    ensures r.Err? && op == Power ==> r.msg == PowerMsg
    ensures op == Plus ==> r == Ok(a + b)
    ensures op == Minus ==> r == Ok(a - b)
    ensures op == Star ==> r == Ok(a * b)
    ensures r.Ok? && op == Slash ==> r.value * b == a
    ensures r.Ok? && op == Power ==> r.value == num.pow(a, b)
    ensures r.Ok? && !(op in {Plus, Minus, Star, Slash, Power}) ==> r.value == 0.0
  {
    if op == Plus then Ok(a + b)
    else if op == Minus then Ok(a - b)
    else if op == Star then Ok(a * b)
    else if op == Slash then (if b == 0.0 then Err(DivisionMsg) else Ok(a / b))
    else if op == Power then (if a < 0.0 && !IsInteger(b) then Err(PowerMsg) else Ok(num.pow(a, b)))
    else Ok(0.0)
  }

  /** A value or an error, and the environment evaluation leaves behind. */
  datatype Outcome<+T> = Outcome(result: Result<T>, env: Env)

  /** The width of one slice of `integ` from `a` to `b`. */
  function SliceWidth(a: real, b: real): real
  {
    (b - a) / Slices as real
  }

  /** The sum of the samples times the slice width: the value `integ` returns. */
  function Scaled(sum: real, h: real): real
  {
    sum * h
  }

  /** The position of the `i`-th sample of `integ`. */
  function SamplePoint(a: real, h: real, i: nat): real
  {
    a + (i as real) * h
  }

  /** Evaluation of an expression: operands left to right, the first error stops it. */
  function Eval(num: Numerics, env: Env, e: Expr): Outcome<real>
    decreases e, 1
  {
    match e
    case LiteralExpr(v) => Outcome(Ok(v), env)
    case IdentifierExpr(name) => Outcome(Lookup(env, name), env)
    case UnaryExpr(op, operand) =>
      var o := Eval(num, env, operand);
      if o.result.Err? then o
      else Outcome(Ok(ApplyUnary(num, op.kind, o.result.value)), o.env)
    case BinaryExpr(left, op, right) =>
      var l := Eval(num, env, left);
      if l.result.Err? then l
      else
        var r := Eval(num, l.env, right);
        if r.result.Err? then r
        else Outcome(ApplyBinary(num, op.kind, l.result.value, r.result.value), r.env)
    case IntegExpr(formula, limitStart, limitEnd) =>
      var a := Eval(num, env, limitStart);
      if a.result.Err? then a
      else
        var b := Eval(num, a.env, limitEnd);
        if b.result.Err? then b
        else
          var h := SliceWidth(a.result.value, b.result.value);
          var s := IntegSum(num, b.env, formula, a.result.value, h, 1, 0.0);
          if s.result.Err? then s else Outcome(Ok(Scaled(s.result.value, h)), s.env)
  }

  /** The loop of `visitIntegExpr` from sample `i` on, with `acc` summed so far: bind `x`
      to the sample point, evaluate the formula, add. */
  function IntegSum(num: Numerics, env: Env, f: Expr, a: real, h: real, i: nat, acc: real): Outcome<real>
    requires 1 <= i <= Slices + 1
    decreases f, 2, Slices + 1 - i
  {
    if i > Slices then Outcome(Ok(acc), env)
    else
      var o := Eval(num, Defined(env, "x", SamplePoint(a, h, i)).value, f);
      if o.result.Err? then o
      else IntegSum(num, o.env, f, a, h, i + 1, acc + o.result.value)
  }

  /** One turn of the `integ` loop. */
  lemma IntegSumStep(num: Numerics, env: Env, f: Expr, a: real, h: real, i: nat, acc: real)
    requires 1 <= i <= Slices
    ensures var o := Eval(num, Defined(env, "x", SamplePoint(a, h, i)).value, f);
      IntegSum(num, env, f, a, h, i, acc) ==
        if o.result.Err? then o else IntegSum(num, o.env, f, a, h, i + 1, acc + o.result.value)
  {
  }

  // ---------------------------------------------------------------------------
  // What evaluation does to the environment
  // ---------------------------------------------------------------------------

  /** `after` differs from `before` at most in `x`, and has lost no name. */
  predicate OnlyX(before: Env, after: Env)
  {
    before.Keys <= after.Keys &&
    forall k :: k != "x" && k in after ==> k in before && after[k] == before[k]
  }

  lemma OnlyXTrans(e1: Env, e2: Env, e3: Env)
    requires OnlyX(e1, e2) && OnlyX(e2, e3)
    ensures OnlyX(e1, e3)
  {
  }

  /** Evaluation binds at most `x`: every other name, the constants among them, keeps
      its value, and no name disappears. */
  lemma {:induction false} EvalOnlyX(num: Numerics, env: Env, e: Expr)
    ensures OnlyX(env, Eval(num, env, e).env)
    decreases e, 1
  {
    match e
    case LiteralExpr(_) =>
    case IdentifierExpr(_) =>
    case UnaryExpr(_, operand) =>
      EvalOnlyX(num, env, operand);
    case BinaryExpr(left, _, right) =>
      var l := Eval(num, env, left);
      EvalOnlyX(num, env, left);
      if l.result.Ok? {
        EvalOnlyX(num, l.env, right);
        OnlyXTrans(env, l.env, Eval(num, l.env, right).env);
      }
    case IntegExpr(formula, limitStart, limitEnd) =>
      var a := Eval(num, env, limitStart);
      EvalOnlyX(num, env, limitStart);
      if a.result.Ok? {
        var b := Eval(num, a.env, limitEnd);
        EvalOnlyX(num, a.env, limitEnd);
        OnlyXTrans(env, a.env, b.env);
        if b.result.Ok? {
          var h := SliceWidth(a.result.value, b.result.value);
          IntegSumOnlyX(num, b.env, formula, a.result.value, h, 1, 0.0);
          OnlyXTrans(env, b.env, IntegSum(num, b.env, formula, a.result.value, h, 1, 0.0).env);
        }
      }
  }

  lemma {:induction false} IntegSumOnlyX(num: Numerics, env: Env, f: Expr, a: real, h: real, i: nat, acc: real)
    requires 1 <= i <= Slices + 1
    ensures OnlyX(env, IntegSum(num, env, f, a, h, i, acc).env)
    decreases f, 2, Slices + 1 - i
  {
    if i <= Slices {
      var bound := Defined(env, "x", SamplePoint(a, h, i)).value;
      assert OnlyX(env, bound);
      var o := Eval(num, bound, f);
      EvalOnlyX(num, bound, f);
      OnlyXTrans(env, bound, o.env);
      if o.result.Ok? {
        IntegSumOnlyX(num, o.env, f, a, h, i + 1, acc + o.result.value);
        OnlyXTrans(env, o.env, IntegSum(num, o.env, f, a, h, i + 1, acc + o.result.value).env);
      }
    }
  }

  /** The constants are never changed by evaluation. */
  lemma EvalKeepsConstants(num: Numerics, env: Env, e: Expr, c: string)
    requires IsConstant(c) && c in env
    ensures c in Eval(num, env, e).env && Eval(num, env, e).env[c] == env[c]
  {
    EvalOnlyX(num, env, e);
  }

  /** An expression without `integ` leaves the environment exactly as it was. */
  lemma {:induction false} NoIntegKeepsEnv(num: Numerics, env: Env, e: Expr)
    requires NoInteg(e)
    ensures Eval(num, env, e).env == env
    decreases e
  {
    match e
    case LiteralExpr(_) =>
    case IdentifierExpr(_) =>
    case UnaryExpr(_, operand) =>
      NoIntegKeepsEnv(num, env, operand);
    case BinaryExpr(left, _, right) =>
      NoIntegKeepsEnv(num, env, left);
      NoIntegKeepsEnv(num, env, right);
  }

  /** The right operand is evaluated in the environment the left one leaves, and only
      when the left one succeeds. */
  lemma BinaryLeftFirst(num: Numerics, env: Env, left: Expr, op: Token, right: Expr)
    ensures var l := Eval(num, env, left);
      var o := Eval(num, env, BinaryExpr(left, op, right));
      (l.result.Err? ==> o == l) &&
      (l.result.Ok? ==> o.env == Eval(num, l.env, right).env)
  {
  }

  // ---------------------------------------------------------------------------
  // `integ` as a right-endpoint Riemann sum
  // ---------------------------------------------------------------------------

  /** The value of the formula at sample `j`, with `x` bound to the sample point. */
  function Sample(num: Numerics, env: Env, f: Expr, a: real, h: real, j: nat): Outcome<real>
  {
    Eval(num, env["x" := SamplePoint(a, h, j)], f)
  }

  /** The sum of the samples `i` to `Slices`. */
  function RightSum(num: Numerics, env: Env, f: Expr, a: real, h: real, i: nat): real
    requires 1 <= i <= Slices + 1
    decreases Slices + 1 - i
  {
    if i > Slices then 0.0
    else
      var s := Sample(num, env, f, a, h, i).result;
      (if s.Ok? then s.value else 0.0) + RightSum(num, env, f, a, h, i + 1)
  }

  lemma RebindX(cur: Env, env: Env, p: real)
    requires cur - {"x"} == env - {"x"}
    ensures cur["x" := p] == env["x" := p]
  {
    forall k | k != "x"
      ensures k in cur <==> k in env
      ensures k in cur ==> cur[k] == env[k]
    {
      assert k in cur <==> k in cur - {"x"};
      assert k in env <==> k in env - {"x"};
      if k in cur {
        assert cur[k] == (cur - {"x"})[k];
        assert env[k] == (env - {"x"})[k];
      }
    }
  }

  lemma RebindXAgain(env: Env, p: real)
    ensures env["x" := p] - {"x"} == env - {"x"}
  {
  }

  /** Environments that differ only in `x` agree once `x` is set aside. */
  lemma OnlyXOff(before: Env, after: Env)
    requires OnlyX(before, after)
    ensures after - {"x"} == before - {"x"}
  {
    forall k | k != "x"
      ensures k in after <==> k in before
      ensures k in after ==> after[k] == before[k]
    {
    }
  }

  /** One sample, taken in any environment that agrees with `env` off `x`, is `Sample`,
      and it leaves an environment that still agrees with `env` off `x`. */
  lemma SampleStep(num: Numerics, env: Env, cur: Env, f: Expr, a: real, h: real, i: nat)
    requires cur - {"x"} == env - {"x"}
    ensures Eval(num, Defined(cur, "x", SamplePoint(a, h, i)).value, f) == Sample(num, env, f, a, h, i)
    ensures Sample(num, env, f, a, h, i).env - {"x"} == env - {"x"}
  {
    var p := SamplePoint(a, h, i);
    RebindX(cur, env, p);
    EvalOnlyX(num, env["x" := p], f);
    OnlyXOff(env["x" := p], Sample(num, env, f, a, h, i).env);
    RebindXAgain(env, p);
  }

  /** With no failing sample, the loop adds up exactly the samples, each taken with only
      `x` rebound (an `integ` inside the formula changes only `x`, which the next sample
      rebinds), and leaves the environment the last sample leaves. */
  lemma {:induction false} IntegSumIsRightSum(num: Numerics, env: Env, cur: Env, f: Expr, a: real, h: real, i: nat, acc: real)
    requires 1 <= i <= Slices + 1 && cur - {"x"} == env - {"x"}
    requires forall j :: i <= j <= Slices ==> Sample(num, env, f, a, h, j).result.Ok?
    ensures IntegSum(num, cur, f, a, h, i, acc).result == Ok(acc + RightSum(num, env, f, a, h, i))
    ensures i <= Slices ==> IntegSum(num, cur, f, a, h, i, acc).env == Sample(num, env, f, a, h, Slices).env
    decreases Slices + 1 - i
  {
    if i <= Slices {
      SampleStep(num, env, cur, f, a, h, i);
      var o := Sample(num, env, f, a, h, i);
      IntegSumIsRightSum(num, env, o.env, f, a, h, i + 1, acc + o.result.value);
    }
  }

  /** The whole loop, from the first sample with nothing summed yet. */
  lemma IntegSumTotal(num: Numerics, env: Env, cur: Env, f: Expr, a: real, h: real)
    requires cur - {"x"} == env - {"x"}
    requires forall j :: 1 <= j <= Slices ==> Sample(num, env, f, a, h, j).result.Ok?
    ensures IntegSum(num, cur, f, a, h, 1, 0.0).result == Ok(RightSum(num, env, f, a, h, 1))
    ensures IntegSum(num, cur, f, a, h, 1, 0.0).env == Sample(num, env, f, a, h, Slices).env
  {
    IntegSumIsRightSum(num, env, cur, f, a, h, 1, 0.0);
    var sum := RightSum(num, env, f, a, h, 1);
    assert 0.0 + sum == sum;
  }

  /** The first failing sample ends the loop: its error and the environment it leaves
      are the loop's. */
  lemma {:induction false} IntegSumStops(num: Numerics, env: Env, cur: Env, f: Expr, a: real, h: real, i: nat, j: nat, acc: real)
    requires 1 <= i <= j <= Slices && cur - {"x"} == env - {"x"}
    requires forall k :: i <= k < j ==> Sample(num, env, f, a, h, k).result.Ok?
    requires Sample(num, env, f, a, h, j).result.Err?
    ensures IntegSum(num, cur, f, a, h, i, acc) == Sample(num, env, f, a, h, j)
    decreases j - i
  {
    SampleStep(num, env, cur, f, a, h, i);
    if i < j {
      var o := Sample(num, env, f, a, h, i);
      IntegSumStops(num, env, o.env, f, a, h, i + 1, j, acc + o.result.value);
    }
  }

  /** A formula without `integ` leaves `x` at the sample point, whether the sample
      fails or not. */
  lemma SampleLeavesPoint(num: Numerics, env: Env, f: Expr, a: real, h: real, j: nat)
    requires NoInteg(f)
    ensures Sample(num, env, f, a, h, j).env == env["x" := SamplePoint(a, h, j)]
  {
    NoIntegKeepsEnv(num, env["x" := SamplePoint(a, h, j)], f);
  }

  /** `visitIntegExpr` once both limits have evaluated. */
  lemma EvalInteg(num: Numerics, env: Env, f: Expr, lo: Expr, hi: Expr, a: real, b: real)
    requires Eval(num, env, lo).result == Ok(a)
    requires Eval(num, Eval(num, env, lo).env, hi).result == Ok(b)
    ensures var s := IntegSum(num, Eval(num, Eval(num, env, lo).env, hi).env, f, a, SliceWidth(a, b), 1, 0.0);
      Eval(num, env, IntegExpr(f, lo, hi)) ==
        if s.result.Err? then s else Outcome(Ok(Scaled(s.result.value, SliceWidth(a, b))), s.env)
  {
  }

  /** `integ (f, lo, hi)` with limits `a` and `b` and no failing sample is `h` times the
      sum of `f` at `a + h`, `a + 2h`, ..., `b`, where `h = (b - a) / 100000`. It leaves
      the environment its last sample leaves. */
  lemma IntegIsRiemannSum(num: Numerics, env: Env, f: Expr, lo: Expr, hi: Expr, a: real, b: real, h: real)
    requires Eval(num, env, lo).result == Ok(a)
    requires Eval(num, Eval(num, env, lo).env, hi).result == Ok(b)
    requires h == SliceWidth(a, b)
    requires forall j :: 1 <= j <= Slices ==> Sample(num, env, f, a, h, j).result.Ok?
    ensures Eval(num, env, IntegExpr(f, lo, hi)).result == Ok(Scaled(RightSum(num, env, f, a, h, 1), h))
    ensures Eval(num, env, IntegExpr(f, lo, hi)).env == Sample(num, env, f, a, h, Slices).env
  {
    var e1 := Eval(num, env, lo).env;
    var e2 := Eval(num, e1, hi).env;
    EvalOnlyX(num, env, lo);
    EvalOnlyX(num, e1, hi);
    OnlyXTrans(env, e1, e2);
    OnlyXOff(env, e2);
    IntegSumTotal(num, env, e2, f, a, h);
    EvalInteg(num, env, f, lo, hi, a, b);
  }

  /** The last sample point is the upper limit, so an `integ` whose formula has no
      `integ` of its own leaves `x` bound to `b`. */
  lemma IntegEndsAtUpperLimit(num: Numerics, env: Env, f: Expr, lo: Expr, hi: Expr, a: real, b: real, h: real)
    requires NoInteg(f)
    requires Eval(num, env, lo).result == Ok(a)
    requires Eval(num, Eval(num, env, lo).env, hi).result == Ok(b)
    requires h == SliceWidth(a, b)
    requires forall j :: 1 <= j <= Slices ==> Sample(num, env, f, a, h, j).result.Ok?
    ensures Eval(num, env, IntegExpr(f, lo, hi)).env == env["x" := b]
  {
    IntegIsRiemannSum(num, env, f, lo, hi, a, b, h);
    SampleLeavesPoint(num, env, f, a, h, Slices);
    assert (Slices as real) * h == b - a;
    assert SamplePoint(a, h, Slices) == b;
  }

  // ---------------------------------------------------------------------------
  // Statements
  // ---------------------------------------------------------------------------

  /** What the graphics engine and the console are asked to do. */
  datatype Event =
    | Printed(value: real)
    | Plotted(x: real, y: real)
    | LineDrawn(x1: real, y1: real, x2: real, y2: real)
    | Shown
    | Hidden
    | Cleaned
    | ScreenCleared
    | Exited

  /** How a statement ends: its error if any, the environment and the event log. */
  datatype Effect = Effect(result: Result<()>, env: Env, log: seq<Event>)

  /** Several expressions evaluated in order; the first error stops the rest. */
  function EvalAll(num: Numerics, env: Env, es: seq<Expr>): (o: Outcome<seq<real>>)
    ensures o.result.Ok? ==> |o.result.value| == |es|
    decreases |es|
  {
    if |es| == 0 then Outcome(Ok([]), env)
    else
      var first := Eval(num, env, es[0]);
      if first.result.Err? then Outcome(Err(first.result.msg), first.env)
      else
        var rest := EvalAll(num, first.env, es[1..]);
        if rest.result.Err? then rest
        else Outcome(Ok([first.result.value] + rest.result.value), rest.env)
  }

  /** The loop of `visitGraphStmt` over the remaining sample points: bind `x`, evaluate,
      plot the point shifted to the middle of an 800 by 600 canvas. */
  function GraphSteps(num: Numerics, env: Env, log: seq<Event>, e: Expr, points: seq<real>): Effect
    decreases |points|
  {
    if |points| == 0 then Effect(Ok(()), env, log)
    else
      var o := Eval(num, Defined(env, "x", points[0]).value, e);
      if o.result.Err? then Effect(Err(o.result.msg), o.env, log)
      else GraphSteps(num, o.env, log + [Plotted(400.0 + points[0], 300.0 - o.result.value)], e, points[1..])
  }

  /** `interpret`: the effect of one statement. */
  function Exec(num: Numerics, env: Env, log: seq<Event>, s: Stmt): Effect
  {
    match s
    case ExprStmt(e) =>
      var o := Eval(num, env, e);
      Effect(if o.result.Ok? then Ok(()) else Err(o.result.msg), o.env, log)
    case PrintStmt(e) =>
      var o := Eval(num, env, e);
      if o.result.Err? then Effect(Err(o.result.msg), o.env, log)
      else Effect(Ok(()), o.env, log + [Printed(o.result.value)])
    case VariableStmt(name, init) =>
      var o := if init.Some? then Eval(num, env, init.value) else Outcome(Ok(0.0), env);
      if o.result.Err? then Effect(Err(o.result.msg), o.env, log)
      else
        var d := Defined(o.env, name, o.result.value);
        if d.Err? then Effect(Err(d.msg), o.env, log) else Effect(Ok(()), d.value, log)
    case GraphStmt(e) => GraphSteps(num, env, log, e, num.graphDomain)
    case PlotStmt(a, b) =>
      var o := EvalAll(num, env, [a, b]);
      if o.result.Err? then Effect(Err(o.result.msg), o.env, log)
      else Effect(Ok(()), o.env, log + [Plotted(o.result.value[0], o.result.value[1])])
    case LineStmt(a, b, c, d) =>
      var o := EvalAll(num, env, [a, b, c, d]);
      if o.result.Err? then Effect(Err(o.result.msg), o.env, log)
      else
        var v := o.result.value;
        Effect(Ok(()), o.env, log + [LineDrawn(v[0], v[1], v[2], v[3])])
    case ShowStmt => Effect(Ok(()), env, log + [Shown])
    case HideStmt => Effect(Ok(()), env, log + [Hidden])
    case ClearStmt => Effect(Ok(()), env, log + [ScreenCleared])
    case CleanStmt => Effect(Ok(()), env, log + [Cleaned])
    case ExitStmt => Effect(Ok(()), env, log + [Exited])
  }

  // ---------------------------------------------------------------------------
  // What statements do
  // ---------------------------------------------------------------------------

  lemma {:induction false} EvalAllOnlyX(num: Numerics, env: Env, es: seq<Expr>)
    ensures OnlyX(env, EvalAll(num, env, es).env)
    decreases |es|
  {
    if |es| > 0 {
      var first := Eval(num, env, es[0]);
      EvalOnlyX(num, env, es[0]);
      if first.result.Ok? {
        EvalAllOnlyX(num, first.env, es[1..]);
        OnlyXTrans(env, first.env, EvalAll(num, first.env, es[1..]).env);
      }
    }
  }

  lemma {:induction false} GraphStepsOnlyX(num: Numerics, env: Env, log: seq<Event>, e: Expr, points: seq<real>)
    ensures OnlyX(env, GraphSteps(num, env, log, e, points).env)
    ensures log <= GraphSteps(num, env, log, e, points).log
    decreases |points|
  {
    if |points| > 0 {
      var bound := Defined(env, "x", points[0]).value;
      assert OnlyX(env, bound);
      var o := Eval(num, bound, e);
      EvalOnlyX(num, bound, e);
      OnlyXTrans(env, bound, o.env);
      if o.result.Ok? {
        var log' := log + [Plotted(400.0 + points[0], 300.0 - o.result.value)];
        GraphStepsOnlyX(num, o.env, log', e, points[1..]);
        OnlyXTrans(env, o.env, GraphSteps(num, o.env, log', e, points[1..]).env);
      }
    }
  }

  /** No statement changes a constant, and none removes a name or an event. */
  lemma ExecKeepsConstants(num: Numerics, env: Env, log: seq<Event>, s: Stmt, c: string)
    requires IsConstant(c) && c in env
    ensures var d := Exec(num, env, log, s);
      c in d.env && d.env[c] == env[c] && env.Keys <= d.env.Keys && log <= d.log
  {
    match s
    case ExprStmt(e) => EvalOnlyX(num, env, e);
    case PrintStmt(e) => EvalOnlyX(num, env, e);
    case VariableStmt(name, init) =>
      if init.Some? {
        EvalOnlyX(num, env, init.value);
      }
    case GraphStmt(e) => GraphStepsOnlyX(num, env, log, e, num.graphDomain);
    case PlotStmt(a, b) => EvalAllOnlyX(num, env, [a, b]);
    case LineStmt(a, b, c, d) => EvalAllOnlyX(num, env, [a, b, c, d]);
    case ShowStmt =>
    case HideStmt =>
    case ClearStmt =>
    case CleanStmt =>
    case ExitStmt =>
  }

  /** `var name = e;` binds `name` to the value of `e`, `var name;` binds it to 0; when
      the initializer fails nothing is bound, and a constant is refused after its
      initializer has been evaluated. */
  lemma VariableStmtBinds(num: Numerics, env: Env, log: seq<Event>, name: string, init: Option<Expr>)
    ensures var o := if init.Some? then Eval(num, env, init.value) else Outcome(Ok(0.0), env);
      var d := Exec(num, env, log, VariableStmt(name, init));
      d.log == log &&
      (o.result.Err? ==> d == Effect(Err(o.result.msg), o.env, log)) &&
      (o.result.Ok? && IsConstant(name) ==> d == Effect(Err(ConstantMsg(name)), o.env, log)) &&
      (o.result.Ok? && !IsConstant(name) ==>
        d.result.Ok? && Lookup(d.env, name) == o.result &&
        forall k :: k != name ==> Lookup(d.env, k) == Lookup(o.env, k))
  {
  }

  /** The events `graph` adds when no sample fails: one point per sample. */
  function Plots(num: Numerics, env: Env, e: Expr, points: seq<real>): seq<Event>
    decreases |points|
  {
    if |points| == 0 then []
    else
      var v := Eval(num, env["x" := points[0]], e).result;
      [Plotted(400.0 + points[0], 300.0 - (if v.Ok? then v.value else 0.0))] + Plots(num, env, e, points[1..])
  }

  lemma SamplesOfTail(num: Numerics, env: Env, e: Expr, points: seq<real>)
    requires |points| > 0
    requires forall k :: 0 <= k < |points| ==> Eval(num, env["x" := points[k]], e).result.Ok?
    ensures forall k :: 0 <= k < |points[1..]| ==> Eval(num, env["x" := points[1..][k]], e).result.Ok?
  {
    forall k | 0 <= k < |points[1..]|
      ensures Eval(num, env["x" := points[1..][k]], e).result.Ok?
    {
      assert points[1..][k] == points[k + 1];
    }
  }

  /** One turn of the `graph` loop when the sample succeeds. The sample is taken with
      only `x` rebound, and what it leaves still agrees with `env` off `x`. */
  lemma GraphStep(num: Numerics, env: Env, cur: Env, log: seq<Event>, e: Expr, points: seq<real>)
    requires cur - {"x"} == env - {"x"} && |points| > 0
    requires Eval(num, env["x" := points[0]], e).result.Ok?
    ensures var o := Eval(num, env["x" := points[0]], e);
      GraphSteps(num, cur, log, e, points) ==
        GraphSteps(num, o.env, log + [Plotted(400.0 + points[0], 300.0 - o.result.value)], e, points[1..])
    ensures Eval(num, env["x" := points[0]], e).env - {"x"} == env - {"x"}
  {
    var p := points[0];
    RebindX(cur, env, p);
    EvalOnlyX(num, env["x" := p], e);
    OnlyXOff(env["x" := p], Eval(num, env["x" := p], e).env);
    RebindXAgain(env, p);
  }

  /** `graph e` with no failing sample succeeds. */
  lemma {:induction false} GraphSucceeds(num: Numerics, env: Env, cur: Env, log: seq<Event>, e: Expr, points: seq<real>)
    requires cur - {"x"} == env - {"x"}
    requires forall k :: 0 <= k < |points| ==> Eval(num, env["x" := points[k]], e).result.Ok?
    ensures GraphSteps(num, cur, log, e, points).result.Ok?
    decreases |points|
  {
    if |points| > 0 {
      var p := points[0];
      assert Eval(num, env["x" := p], e).result.Ok?;
      GraphStep(num, env, cur, log, e, points);
      SamplesOfTail(num, env, e, points);
      var o := Eval(num, env["x" := p], e);
      GraphSucceeds(num, env, o.env, log + [Plotted(400.0 + p, 300.0 - o.result.value)], e, points[1..]);
    }
  }

  /** One turn of the `graph` loop adds the point of the first sample to the log. */
  lemma GraphLogStep(num: Numerics, env: Env, cur: Env, log: seq<Event>, e: Expr, points: seq<real>)
    requires cur - {"x"} == env - {"x"} && |points| > 0
    requires Eval(num, env["x" := points[0]], e).result.Ok?
    requires var o := Eval(num, env["x" := points[0]], e);
      var ev := Plotted(400.0 + points[0], 300.0 - o.result.value);
      GraphSteps(num, o.env, log + [ev], e, points[1..]).log == log + [ev] + Plots(num, env, e, points[1..])
    ensures GraphSteps(num, cur, log, e, points).log == log + Plots(num, env, e, points)
  {
    GraphStep(num, env, cur, log, e, points);
    PlotsHead(num, env, e, points);
    var o := Eval(num, env["x" := points[0]], e);
    var ev := Plotted(400.0 + points[0], 300.0 - o.result.value);
    var rest := Plots(num, env, e, points[1..]);
    assert log + [ev] + rest == log + ([ev] + rest);
  }

  lemma PlotsHead(num: Numerics, env: Env, e: Expr, points: seq<real>)
    requires |points| > 0 && Eval(num, env["x" := points[0]], e).result.Ok?
    ensures Plots(num, env, e, points) ==
      [Plotted(400.0 + points[0], 300.0 - Eval(num, env["x" := points[0]], e).result.value)] + Plots(num, env, e, points[1..])
  {
  }

  /** `graph e` with no failing sample plots exactly one point per sample, in order. */
  lemma {:induction false} GraphPlotsEachSample(num: Numerics, env: Env, cur: Env, log: seq<Event>, e: Expr, points: seq<real>)
    requires cur - {"x"} == env - {"x"}
    requires forall k :: 0 <= k < |points| ==> Eval(num, env["x" := points[k]], e).result.Ok?
    ensures GraphSteps(num, cur, log, e, points).log == log + Plots(num, env, e, points)
    decreases |points|
  {
    if |points| > 0 {
      var p := points[0];
      assert Eval(num, env["x" := p], e).result.Ok?;
      GraphStep(num, env, cur, log, e, points);
      SamplesOfTail(num, env, e, points);
      var o := Eval(num, env["x" := p], e);
      GraphPlotsEachSample(num, env, o.env, log + [Plotted(400.0 + p, 300.0 - o.result.value)], e, points[1..]);
      GraphLogStep(num, env, cur, log, e, points);
    }
  }

  /** After the same `graph` run, the environment is the one the last sample leaves. */
  lemma {:induction false} GraphLeavesLastSample(num: Numerics, env: Env, cur: Env, log: seq<Event>, e: Expr, points: seq<real>)
    requires cur - {"x"} == env - {"x"}
    requires forall k :: 0 <= k < |points| ==> Eval(num, env["x" := points[k]], e).result.Ok?
    requires |points| > 0
    ensures GraphSteps(num, cur, log, e, points).env == Eval(num, env["x" := points[|points| - 1]], e).env
    decreases |points|
  {
    var p := points[0];
    assert Eval(num, env["x" := p], e).result.Ok?;
    GraphStep(num, env, cur, log, e, points);
    var o := Eval(num, env["x" := p], e);
    var ev := Plotted(400.0 + p, 300.0 - o.result.value);
    assert GraphSteps(num, cur, log, e, points) == GraphSteps(num, o.env, log + [ev], e, points[1..]);
    if |points| > 1 {
      SamplesOfTail(num, env, e, points);
      GraphLeavesLastSample(num, env, o.env, log + [ev], e, points[1..]);
      assert points[1..][|points| - 2] == points[|points| - 1];
    } else {
      assert GraphSteps(num, o.env, log + [ev], e, points[1..]).env == o.env;
    }
  }

  /** When `e` has no `integ`, `graph e` leaves `x` bound to the last sample and every
      other name as it was. */
  lemma GraphEndsAtLastSample(num: Numerics, env: Env, cur: Env, log: seq<Event>, e: Expr, points: seq<real>)
    requires NoInteg(e) && cur - {"x"} == env - {"x"}
    requires forall k :: 0 <= k < |points| ==> Eval(num, env["x" := points[k]], e).result.Ok?
    requires |points| > 0
    ensures GraphSteps(num, cur, log, e, points).env == env["x" := points[|points| - 1]]
  {
    GraphLeavesLastSample(num, env, cur, log, e, points);
    NoIntegKeepsEnv(num, env["x" := points[|points| - 1]], e);
  }

  /** `EvalAll` on a non-empty list: the head first, then the rest. */
  lemma EvalAllCons(num: Numerics, env: Env, e: Expr, es: seq<Expr>)
    ensures var first := Eval(num, env, e);
      EvalAll(num, env, [e] + es) ==
        if first.result.Err? then Outcome(Err(first.result.msg), first.env)
        else
          var rest := EvalAll(num, first.env, es);
          if rest.result.Err? then rest else Outcome(Ok([first.result.value] + rest.result.value), rest.env)
  {
    assert ([e] + es)[0] == e && ([e] + es)[1..] == es;
  }

  /** `plot a, b`: `a` is evaluated first, `b` in the environment `a` leaves, and the
      point of the two values is plotted; the first error stops it with nothing plotted. */
  lemma PlotDrawsBothValues(num: Numerics, env: Env, log: seq<Event>, a: Expr, b: Expr)
    ensures Eval(num, env, a).result.Err? ==>
      Exec(num, env, log, PlotStmt(a, b)) == Effect(Err(Eval(num, env, a).result.msg), Eval(num, env, a).env, log)
    ensures var oa := Eval(num, env, a);
      var ob := Eval(num, oa.env, b);
      oa.result.Ok? && ob.result.Err? ==> Exec(num, env, log, PlotStmt(a, b)) == Effect(Err(ob.result.msg), ob.env, log)
    ensures var oa := Eval(num, env, a);
      var ob := Eval(num, oa.env, b);
      oa.result.Ok? && ob.result.Ok? ==>
        Exec(num, env, log, PlotStmt(a, b)) == Effect(Ok(()), ob.env, log + [Plotted(oa.result.value, ob.result.value)])
  {
    EvalPair(num, env, a, b);
  }

  /** Two arguments, left to right. */
  lemma EvalPair(num: Numerics, env: Env, a: Expr, b: Expr)
    ensures var oa := Eval(num, env, a);
      var ob := Eval(num, oa.env, b);
      EvalAll(num, env, [a, b]) ==
        if oa.result.Err? then Outcome(Err(oa.result.msg), oa.env)
        else if ob.result.Err? then Outcome(Err(ob.result.msg), ob.env)
        else Outcome(Ok([oa.result.value, ob.result.value]), ob.env)
  {
    var oa := Eval(num, env, a);
    assert [a, b] == [a] + [b];
    EvalAllCons(num, env, a, [b]);
    assert [b] == [b] + [];
    EvalAllCons(num, oa.env, b, []);
    var ob := Eval(num, oa.env, b);
    if oa.result.Ok? && ob.result.Ok? {
      assert [oa.result.value] + ([ob.result.value] + []) == [oa.result.value, ob.result.value];
    }
  }

  // ---------------------------------------------------------------------------
  // The interpreter object
  // ---------------------------------------------------------------------------

  /** The visitor: owns its environment, and its calls to the graphics engine and
      the console are recorded in `log`. */
  class Interpreter {
    const num: Numerics
    const env: Environment
    var log: seq<Event>

    constructor (num: Numerics)
      ensures this.num == num && fresh(env) && env.saved == Seeded() && log == []
    {
      this.num := num;
      env := new Environment();
      log := [];
    }

    /** `accept` on an expression. */
    method Evaluate(e: Expr) returns (r: Result<real>)
      modifies env
      ensures Eval(num, old(env.saved), e) == Outcome(r, env.saved)
      decreases e, 1
    {
      match e
      case LiteralExpr(v) =>
        return Ok(v);
      case IdentifierExpr(name) =>
        r := env.Get(name);
      case UnaryExpr(op, operand) =>
        var v :- Evaluate(operand);
        return Ok(ApplyUnary(num, op.kind, v));
      case BinaryExpr(left, op, right) =>
        var a :- Evaluate(left);
        var b :- Evaluate(right);
        return ApplyBinary(num, op.kind, a, b);
      case IntegExpr(formula, limitStart, limitEnd) =>
        var a :- Evaluate(limitStart);
        var b :- Evaluate(limitEnd);
        r := Integrate(formula, a, b);
    }

    /** The counted loop of `visitIntegExpr`. */
    method Integrate(f: Expr, a: real, b: real) returns (r: Result<real>)
      modifies env
      ensures var h := SliceWidth(a, b);
        var s := IntegSum(num, old(env.saved), f, a, h, 1, 0.0);
        Outcome(r, env.saved) == if s.result.Err? then s else Outcome(Ok(Scaled(s.result.value, h)), s.env)
      decreases f, 2
    {
      var result := 0.0;
      var h := SliceWidth(a, b);
      ghost var start := env.saved;
      var i := 1;
      while i <= Slices
        invariant 1 <= i <= Slices + 1
        invariant IntegSum(num, start, f, a, h, 1, 0.0) == IntegSum(num, env.saved, f, a, h, i, result)
        decreases Slices + 1 - i
      {
        ghost var before := env.saved;
        var defined := env.Define("x", SamplePoint(a, h, i));
        assert defined.Ok? by { assert !IsConstant("x"); }
        ghost var o := Eval(num, env.saved, f);
        assert IntegSum(num, before, f, a, h, i, result) ==
          if o.result.Err? then o else IntegSum(num, o.env, f, a, h, i + 1, result + o.result.value)
        by { IntegSumStep(num, before, f, a, h, i, result); }
        var v :- Evaluate(f);
        result := result + v;
        i := i + 1;
      }
      return Ok(Scaled(result, h));
    }

    /** `interpret`: one statement. */
    method Interpret(s: Stmt) returns (r: Result<()>)
      modifies this, env
      ensures Exec(num, old(env.saved), old(log), s) == Effect(r, env.saved, log)
    {
      match s
      case ExprStmt(e) =>
        var v :- Evaluate(e);
        return Ok(());
      case PrintStmt(e) =>
        var v :- Evaluate(e);
        log := log + [Printed(v)];
        return Ok(());
      case VariableStmt(name, init) =>
        var val := 0.0;
        if init.Some? {
          val :- Evaluate(init.value);
        }
        assert (if init.Some? then Eval(num, old(env.saved), init.value) else Outcome(Ok(0.0), old(env.saved)))
               == Outcome(Ok(val), env.saved);
        r := env.Define(name, val);
        if r.Ok? {
          assert r.value == ();
        }
      case GraphStmt(e) =>
        r := Graph(e);
      case PlotStmt(first, second) =>
        EvalAllCons(num, env.saved, first, [second]);
        var x :- Evaluate(first);
        EvalAllCons(num, env.saved, second, []);
        var y :- Evaluate(second);
        log := log + [Plotted(x, y)];
        return Ok(());
      case LineStmt(first, second, third, fourth) =>
        r := Line(first, second, third, fourth);
      case ShowStmt =>
        log := log + [Shown];
        return Ok(());
      case HideStmt =>
        log := log + [Hidden];
        return Ok(());
      case ClearStmt =>
        log := log + [ScreenCleared];
        return Ok(());
      case CleanStmt =>
        log := log + [Cleaned];
        return Ok(());
      case ExitStmt =>
        log := log + [Exited];
        return Ok(());
    }

    /** The sampling loop of `visitGraphStmt`. */
    method Graph(e: Expr) returns (r: Result<()>)
      modifies this, env
      ensures GraphSteps(num, old(env.saved), old(log), e, num.graphDomain) == Effect(r, env.saved, log)
    {
      ghost var start := env.saved;
      ghost var log0 := log;
      var rest := num.graphDomain;
      while |rest| > 0
        invariant GraphSteps(num, start, log0, e, num.graphDomain) == GraphSteps(num, env.saved, log, e, rest)
        decreases |rest|
      {
        var i := rest[0];
        ghost var before := env.saved;
        var defined := env.Define("x", i);
        assert defined.Ok? by { assert !IsConstant("x"); }
        ghost var o := Eval(num, env.saved, e);
        assert GraphSteps(num, before, log, e, rest) ==
          if o.result.Err? then Effect(Err(o.result.msg), o.env, log)
          else GraphSteps(num, o.env, log + [Plotted(400.0 + i, 300.0 - o.result.value)], e, rest[1..]);
        var v :- Evaluate(e);
        log := log + [Plotted(400.0 + i, 300.0 - v)];
        rest := rest[1..];
      }
      return Ok(());
    }

    /** `visitLineStmt`: the four coordinates, left to right. */
    method Line(first: Expr, second: Expr, third: Expr, fourth: Expr) returns (r: Result<()>)
      modifies this, env
      ensures var o := EvalAll(num, old(env.saved), [first, second, third, fourth]);
        Effect(r, env.saved, log) ==
          if o.result.Err? then Effect(Err(o.result.msg), o.env, old(log))
          else
            var v := o.result.value;
            Effect(Ok(()), o.env, old(log) + [LineDrawn(v[0], v[1], v[2], v[3])])
    {
      EvalAllCons(num, env.saved, first, [second, third, fourth]);
      var x1 :- Evaluate(first);
      EvalAllCons(num, env.saved, second, [third, fourth]);
      var y1 :- Evaluate(second);
      EvalAllCons(num, env.saved, third, [fourth]);
      var x2 :- Evaluate(third);
      EvalAllCons(num, env.saved, fourth, []);
      var y2 :- Evaluate(fourth);
      log := log + [LineDrawn(x1, y1, x2, y2)];
      return Ok(());
    }
  }
}
