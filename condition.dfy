/**
 * Strategy conditions (src/strategy/condition.rs): comparisons of an
 * indicator's output with a threshold, crossings detected against the output
 * of the previous evaluation, and their conjunction, disjunction and negation.
 * Evaluation feeds the market data to every indicator it reaches, so it
 * returns the updated condition beside the answer.
 */
module Condition {
  import opened Wrappers
  import opened Output
  import Externals
  import MarketData
  import IndicatorEnum

  type Indicator = IndicatorEnum.Indicator

  datatype Condition =
    | GreaterThan(indicator: Indicator, value: OutputType)
    | LessThan(indicator: Indicator, value: OutputType)
    | Equals(indicator: Indicator, value: OutputType)
    | GreaterThanOrEqual(indicator: Indicator, value: OutputType)
    | LessThanOrEqual(indicator: Indicator, value: OutputType)
    /** Upward crossing: the previous output was at most the threshold, the current one is above. */
    | CrossOver(indicator: Indicator, value: OutputType, prev: Option<OutputType>)
    /** Downward crossing: the previous output was at least the threshold, the current one is below. */
    | CrossUnder(indicator: Indicator, value: OutputType, prev: Option<OutputType>)
    | And(conds: seq<Condition>)
    | Or(conds: seq<Condition>)
    | Not(cond: Condition)

  /** Every indicator in the condition is a valid one. */
  predicate Valid(c: Condition)
    decreases c
  {
    match c
    case And(cs) => forall i :: 0 <= i < |cs| ==> Valid(cs[i])
    case Or(cs) => forall i :: 0 <= i < |cs| ==> Valid(cs[i])
    case Not(c1) => Valid(c1)
    case _ => IndicatorEnum.Valid(c.indicator)
  }

  predicate AllValid(cs: seq<Condition>)
  {
    forall i :: 0 <= i < |cs| ==> Valid(cs[i])
  }

  /** `indicator.next(data)`: the market data fed as a candle; indicators always accept one. */
  function Feed(env: Externals.Env, ind: Indicator, d: MarketData.MarketData): (r: (Indicator, OutputType))
    requires IndicatorEnum.Valid(ind)
    ensures IndicatorEnum.Valid(r.0) && IndicatorEnum.Period(env, r.0) == IndicatorEnum.Period(env, ind)
    ensures (r.0, Ok(r.1)) == IndicatorEnum.NextCandle(env, ind, MarketData.ToBar(d))
  {
    IndicatorEnum.NextCandleKeepsPeriod(env, ind, MarketData.ToBar(d));
    var (i1, o) := IndicatorEnum.NextCandle(env, ind, MarketData.ToBar(d));
    (i1, o.value)
  }

  /**
   * The crossing test: without a previous output there is no crossing;
   * otherwise the previous output must stand in relation `before` to the
   * threshold and, only then, the current one in relation `after`.
   */
  function Crossed(env: Externals.Env, prev: Option<OutputType>, current: OutputType, value: OutputType,
                   before: Relation, after: Relation): (r: Result<bool>)
    ensures prev.None? ==> r == Ok(false)
    ensures prev.Some? && Externals.CompareOutputs(env, prev.value, value, before) == Ok(false) ==> r == Ok(false)
    ensures prev.Some? && Externals.CompareOutputs(env, prev.value, value, before) == Ok(true)
            ==> r == Externals.CompareOutputs(env, current, value, after)
    ensures prev.Some? && Externals.CompareOutputs(env, prev.value, value, before).Err?
            ==> r == Externals.CompareOutputs(env, prev.value, value, before)
  {
    match prev
    case None => Ok(false)
    case Some(p) =>
      var b := Externals.CompareOutputs(env, p, value, before);
      if b.Err? then b
      else if !b.value then Ok(false)
      else Externals.CompareOutputs(env, current, value, after)
  }

  /** `evaluate`: the updated condition and the answer. */
  function Evaluate(env: Externals.Env, c: Condition, d: MarketData.MarketData): (r: (Condition, Result<bool>))
    requires Valid(c)
    ensures Valid(r.0)
    decreases c, 1
  {
    match c
    case GreaterThan(ind, v) =>
      var (i1, o) := Feed(env, ind, d); (GreaterThan(i1, v), Externals.CompareOutputs(env, o, v, Gt))
    case LessThan(ind, v) =>
      var (i1, o) := Feed(env, ind, d); (LessThan(i1, v), Externals.CompareOutputs(env, o, v, Lt))
    case Equals(ind, v) =>
      var (i1, o) := Feed(env, ind, d); (Equals(i1, v), Externals.CompareOutputs(env, o, v, Eq))
    case GreaterThanOrEqual(ind, v) =>
      var (i1, o) := Feed(env, ind, d); (GreaterThanOrEqual(i1, v), Externals.CompareOutputs(env, o, v, Ge))
    case LessThanOrEqual(ind, v) =>
      var (i1, o) := Feed(env, ind, d); (LessThanOrEqual(i1, v), Externals.CompareOutputs(env, o, v, Le))
    case CrossOver(ind, v, prev) =>
      var (i1, o) := Feed(env, ind, d);
      var r := Crossed(env, prev, o, v, Le, Gt);
      // a failed comparison returns before the current output is remembered
      if r.Err? then (CrossOver(i1, v, prev), r) else (CrossOver(i1, v, Some(o)), r)
    case CrossUnder(ind, v, prev) =>
      var (i1, o) := Feed(env, ind, d);
      var r := Crossed(env, prev, o, v, Ge, Lt);
      if r.Err? then (CrossUnder(i1, v, prev), r) else (CrossUnder(i1, v, Some(o)), r)
    case And(cs) => var (cs1, r) := EvaluateEach(env, cs, d, true); (And(cs1), r)
    case Or(cs) => var (cs1, r) := EvaluateEach(env, cs, d, false); (Or(cs1), r)
    case Not(c1) => var (c2, r) := Evaluate(env, c1, d); (Not(c2), Negate(r))
  }

  function Negate(r: Result<bool>): (n: Result<bool>)
    ensures n.Ok? <==> r.Ok?
    ensures n.Ok? ==> n.value == !r.value
    ensures n.Err? ==> n == r
  {
    if r.Err? then r else Ok(!r.value)
  }

  /**
   * The children of an `And` (`unit` true) or an `Or` (`unit` false) in order,
   * stopping at the first whose answer is not `unit` or that fails; `unit` if
   * there is none.
   */
  function EvaluateEach(env: Externals.Env, cs: seq<Condition>, d: MarketData.MarketData, unit: bool): (r: (seq<Condition>, Result<bool>))
    requires AllValid(cs)
    ensures |r.0| == |cs| && AllValid(r.0)
    decreases cs, 0
  {
    if |cs| == 0 then ([], Ok(unit))
    else
      var (c1, r1) := Evaluate(env, cs[0], d);
      if r1 != Ok(unit) then ([c1] + cs[1..], r1)
      else
        var (rest, r2) := EvaluateEach(env, cs[1..], d, unit);
        ([c1] + rest, r2)
  }

  // ---------------------------------------------------------------- max_period

  /** The larger of two optional periods; a missing one is ignored. */
  function MaxOpt(a: Option<nat>, b: Option<nat>): (m: Option<nat>)
    ensures m.None? <==> a.None? && b.None?
    ensures a.Some? ==> m.Some? && m.value >= a.value
    ensures b.Some? ==> m.Some? && m.value >= b.value
    ensures m == a || m == b
  {
    if a.None? then b
    else if b.None? then a
    else if a.value >= b.value then a else b
  }

  /** `max_period`: the most history any indicator in the condition needs, `None` if there is none. */
  function MaxPeriod(env: Externals.Env, c: Condition): (p: Option<nat>)
    decreases c, 1
  {
    match c
    case And(cs) => MaxPeriodAll(env, cs)
    case Or(cs) => MaxPeriodAll(env, cs)
    case Not(c1) => MaxPeriod(env, c1)
    case _ => Some(IndicatorEnum.Period(env, c.indicator))
  }

  /** The largest period among the children that have one. */
  function MaxPeriodAll(env: Externals.Env, cs: seq<Condition>): (p: Option<nat>)
    ensures p.None? <==> forall i :: 0 <= i < |cs| ==> MaxPeriod(env, cs[i]).None?
    ensures p.Some? ==> forall i :: 0 <= i < |cs| && MaxPeriod(env, cs[i]).Some? ==> MaxPeriod(env, cs[i]).value <= p.value
    ensures p.Some? ==> exists i :: 0 <= i < |cs| && MaxPeriod(env, cs[i]) == p
    decreases cs, 0
  {
    if |cs| == 0 then Option.None
    else
      var rest := MaxPeriodAll(env, cs[1..]);
      var m := MaxOpt(MaxPeriod(env, cs[0]), rest);
      assert forall i :: 1 <= i < |cs| ==> cs[i] == cs[1..][i - 1];
      assert rest.Some? ==> exists j :: 0 <= j < |cs| - 1 && MaxPeriod(env, cs[1..][j]) == rest;
      m
  }

  /** Evaluation never changes how much history the condition needs. */
  lemma {:induction false} EvaluateKeepsPeriod(env: Externals.Env, c: Condition, d: MarketData.MarketData)
    requires Valid(c)
    ensures MaxPeriod(env, Evaluate(env, c, d).0) == MaxPeriod(env, c)
    decreases c, 1
  {
    match c
    case And(cs) =>
      assert Evaluate(env, c, d).0 == And(EvaluateEach(env, cs, d, true).0);
      EachKeepsPeriod(env, cs, d, true);
    case Or(cs) =>
      assert Evaluate(env, c, d).0 == Or(EvaluateEach(env, cs, d, false).0);
      EachKeepsPeriod(env, cs, d, false);
    case Not(c1) =>
      assert Evaluate(env, c, d).0 == Not(Evaluate(env, c1, d).0);
      EvaluateKeepsPeriod(env, c1, d);
    case _ => LeafKeepsPeriod(env, c, d);
  }

  /** A comparison keeps its indicator's period: feeding the indicator does not change it. */
  lemma LeafKeepsPeriod(env: Externals.Env, c: Condition, d: MarketData.MarketData)
    requires Valid(c) && !c.And? && !c.Or? && !c.Not?
    ensures MaxPeriod(env, Evaluate(env, c, d).0) == MaxPeriod(env, c)
  {
    var (i1, _) := Feed(env, c.indicator, d);
    assert Evaluate(env, c, d).0.indicator == i1;
  }

  lemma {:induction false} EachKeepsPeriod(env: Externals.Env, cs: seq<Condition>, d: MarketData.MarketData, unit: bool)
    requires AllValid(cs)
    ensures MaxPeriodAll(env, EvaluateEach(env, cs, d, unit).0) == MaxPeriodAll(env, cs)
    decreases cs, 0
  {
    if |cs| > 0 {
      EvaluateKeepsPeriod(env, cs[0], d);
      var r := EvaluateEach(env, cs, d, unit).0;
      assert r[1..] == if Evaluate(env, cs[0], d).1 != Ok(unit) then cs[1..] else EvaluateEach(env, cs[1..], d, unit).0;
      if Evaluate(env, cs[0], d).1 == Ok(unit) {
        EachKeepsPeriod(env, cs[1..], d, unit);
      }
    }
  }

  /** A comparison with a single indicator needs exactly that indicator's period. */
  lemma LeafPeriod(env: Externals.Env, ind: Indicator, v: OutputType)
    ensures MaxPeriod(env, And([GreaterThan(ind, v), Not(LessThan(ind, v))])) == Some(IndicatorEnum.Period(env, ind))
  {
    var cs := [GreaterThan(ind, v), Not(LessThan(ind, v))];
    assert cs[1..] == [Not(LessThan(ind, v))] && cs[1..][1..] == [];
    assert MaxPeriod(env, cs[1..][0]) == Some(IndicatorEnum.Period(env, ind));
    assert MaxPeriodAll(env, cs[1..][1..]) == Option.None;
    assert MaxPeriodAll(env, cs[1..]) == Some(IndicatorEnum.Period(env, ind));
  }

  // ---------------------------------------------------------------- the method

  /** `evaluate` as the source runs it: the children of `And` and `Or` in a loop that returns early. */
  method Run(env: Externals.Env, c: Condition, d: MarketData.MarketData) returns (c1: Condition, r: Result<bool>)
    requires Valid(c)
    ensures (c1, r) == Evaluate(env, c, d)
    decreases c, 1
  {
    match c {
      case And(cs) =>
        var cs1, r1 := RunAll(env, cs, d, true);
        c1, r := And(cs1), r1;
      case Or(cs) =>
        var cs1, r1 := RunAll(env, cs, d, false);
        c1, r := Or(cs1), r1;
      case Not(inner) =>
        var inner1, r1 := Run(env, inner, d);
        c1, r := Not(inner1), Negate(r1);
      case _ =>
        c1, r := Evaluate(env, c, d).0, Evaluate(env, c, d).1;
    }
  }

  /** One step of `EvaluateEach`. */
  lemma EachUnfolds(env: Externals.Env, cs: seq<Condition>, d: MarketData.MarketData, unit: bool)
    requires |cs| > 0 && AllValid(cs)
    ensures AllValid(cs[1..])
    ensures Evaluate(env, cs[0], d).1 != Ok(unit)
            ==> EvaluateEach(env, cs, d, unit) == ([Evaluate(env, cs[0], d).0] + cs[1..], Evaluate(env, cs[0], d).1)
    ensures Evaluate(env, cs[0], d).1 == Ok(unit)
            ==> EvaluateEach(env, cs, d, unit) == ([Evaluate(env, cs[0], d).0] + EvaluateEach(env, cs[1..], d, unit).0,
                                                   EvaluateEach(env, cs[1..], d, unit).1)
  {
  }

  /** What the loop over the children knows after `i` children answered `unit`. */
  predicate LoopState(env: Externals.Env, cs: seq<Condition>, d: MarketData.MarketData, unit: bool, i: nat, done: seq<Condition>)
    requires AllValid(cs)
  {
    i <= |cs| && AllValid(cs[i..])
    && EvaluateEach(env, cs, d, unit) == (done + EvaluateEach(env, cs[i..], d, unit).0, EvaluateEach(env, cs[i..], d, unit).1)
  }

  /** A turn of the loop where child `i` answers `unit`: it joins the children done. */
  lemma LoopContinues(env: Externals.Env, cs: seq<Condition>, d: MarketData.MarketData, unit: bool, i: nat, done: seq<Condition>,
                      ci: Condition)
    requires AllValid(cs) && LoopState(env, cs, d, unit, i, done) && i < |cs|
    requires Evaluate(env, cs[i], d) == (ci, Ok(unit))
    ensures LoopState(env, cs, d, unit, i + 1, done + [ci])
  {
    var t := cs[i..];
    var u := cs[i + 1..];
    assert t[0] == cs[i] && t[1..] == u;
    EachUnfolds(env, t, d, unit);
    var tail := EvaluateEach(env, u, d, unit);
    assert EvaluateEach(env, t, d, unit) == ([ci] + tail.0, tail.1);
    assert done + ([ci] + tail.0) == (done + [ci]) + tail.0;
    assert EvaluateEach(env, cs, d, unit) == ((done + [ci]) + tail.0, tail.1);
  }

  /** A turn of the loop where child `i` answers otherwise: that is the answer. */
  lemma LoopStops(env: Externals.Env, cs: seq<Condition>, d: MarketData.MarketData, unit: bool, i: nat, done: seq<Condition>,
                  ci: Condition, ri: Result<bool>)
    requires AllValid(cs) && LoopState(env, cs, d, unit, i, done) && i < |cs|
    requires Evaluate(env, cs[i], d) == (ci, ri) && ri != Ok(unit)
    ensures EvaluateEach(env, cs, d, unit) == (done + [ci] + cs[i + 1..], ri)
  {
    var t := cs[i..];
    assert t[0] == cs[i] && t[1..] == cs[i + 1..];
    EachUnfolds(env, t, d, unit);
    assert done + ([ci] + cs[i + 1..]) == done + [ci] + cs[i + 1..];
  }

  /** The loop over the children of an `And` (`unit` true) or an `Or` (`unit` false), returning early. */
  method RunAll(env: Externals.Env, cs: seq<Condition>, d: MarketData.MarketData, unit: bool)
    returns (cs1: seq<Condition>, r: Result<bool>)
    requires AllValid(cs)
    ensures (cs1, r) == EvaluateEach(env, cs, d, unit)
    decreases cs, 0
  {
    var done: seq<Condition> := [];
    var i := 0;
    assert cs[0..] == cs;
    assert [] + EvaluateEach(env, cs, d, unit).0 == EvaluateEach(env, cs, d, unit).0;
    while i < |cs|
      invariant LoopState(env, cs, d, unit, i, done)
      decreases |cs| - i
    {
      var ci, ri := Run(env, cs[i], d);
      if ri != Ok(unit) {
        LoopStops(env, cs, d, unit, i, done, ci, ri);
        return done + [ci] + cs[i + 1..], ri;
      }
      LoopContinues(env, cs, d, unit, i, done, ci);
      done, i := done + [ci], i + 1;
    }
    assert cs[i..] == [] && done + [] == done;
    cs1, r := done, Ok(unit);
  }

  // ---------------------------------------------------------------- properties

  /** An empty conjunction holds and an empty disjunction does not. */
  lemma EmptyJunctions(env: Externals.Env, d: MarketData.MarketData)
    ensures Evaluate(env, And([]), d) == (And([]), Ok(true))
    ensures Evaluate(env, Or([]), d) == (Or([]), Ok(false))
  {
  }

  /**
   * The short circuit: either every child was evaluated and answered `unit`,
   * or the children before `k` answered `unit`, child `k` gave the answer, and
   * the children after it were not touched.
   */
  lemma StopsAt(env: Externals.Env, cs: seq<Condition>, d: MarketData.MarketData, unit: bool) returns (k: nat)
    requires AllValid(cs)
    ensures k <= |cs|
    ensures forall i :: 0 <= i < k ==> Evaluate(env, cs[i], d) == (EvaluateEach(env, cs, d, unit).0[i], Ok(unit))
    ensures k == |cs| ==> EvaluateEach(env, cs, d, unit).1 == Ok(unit)
    ensures k < |cs| ==> Evaluate(env, cs[k], d) == (EvaluateEach(env, cs, d, unit).0[k], EvaluateEach(env, cs, d, unit).1)
    ensures k < |cs| ==> EvaluateEach(env, cs, d, unit).1 != Ok(unit)
    ensures k < |cs| ==> EvaluateEach(env, cs, d, unit).0[k + 1..] == cs[k + 1..]
  {
    var rs := Answers(env, cs, d);
    EachIsWalk(env, cs, d, unit);
    k := WalkStopsAt(cs, rs, unit);
    forall i | 0 <= i < |cs|
      ensures rs[i] == Evaluate(env, cs[i], d)
    {
      AnswersAt(env, cs, d, i);
    }
  }

  /** What each child would answer on `d`, were the walk to reach it. */
  function Answers(env: Externals.Env, cs: seq<Condition>, d: MarketData.MarketData): (rs: seq<(Condition, Result<bool>)>)
    requires AllValid(cs)
    ensures |rs| == |cs|
  {
    if |cs| == 0 then [] else [Evaluate(env, cs[0], d)] + Answers(env, cs[1..], d)
  }

  lemma {:induction false} AnswersAt(env: Externals.Env, cs: seq<Condition>, d: MarketData.MarketData, i: nat)
    requires AllValid(cs) && i < |cs|
    ensures Answers(env, cs, d)[i] == Evaluate(env, cs[i], d)
    decreases i
  {
    if i > 0 {
      assert cs[1..][i - 1] == cs[i];
      AnswersAt(env, cs[1..], d, i - 1);
    }
  }

  /**
   * The short-circuit walk over answers given in advance: the children do not
   * share state, so walking over their answers is evaluating them in turn.
   */
  function Walk(cs: seq<Condition>, rs: seq<(Condition, Result<bool>)>, unit: bool): (r: (seq<Condition>, Result<bool>))
    requires |rs| == |cs|
  {
    if |cs| == 0 then ([], Ok(unit))
    else if rs[0].1 != Ok(unit) then ([rs[0].0] + cs[1..], rs[0].1)
    else
      var (rest, r) := Walk(cs[1..], rs[1..], unit);
      ([rs[0].0] + rest, r)
  }

  lemma {:induction false} EachIsWalk(env: Externals.Env, cs: seq<Condition>, d: MarketData.MarketData, unit: bool)
    requires AllValid(cs)
    ensures EvaluateEach(env, cs, d, unit) == Walk(cs, Answers(env, cs, d), unit)
  {
    if |cs| > 0 {
      assert Answers(env, cs, d)[1..] == Answers(env, cs[1..], d);
      EachIsWalk(env, cs[1..], d, unit);
    }
  }

  /** `StopsAt` over answers given in advance. */
  lemma {:induction false} WalkStopsAt(cs: seq<Condition>, rs: seq<(Condition, Result<bool>)>, unit: bool) returns (k: nat)
    requires |rs| == |cs|
    ensures var w := Walk(cs, rs, unit);
            && |w.0| == |cs|
            && k <= |cs|
            && (forall i :: 0 <= i < k ==> rs[i] == (w.0[i], Ok(unit)))
            && (k == |cs| ==> w.1 == Ok(unit))
            && (k < |cs| ==> rs[k] == (w.0[k], w.1) && w.1 != Ok(unit) && w.0[k + 1..] == cs[k + 1..])
  {
    if |cs| == 0 {
      return 0;
    }
    var w := Walk(cs, rs, unit);
    if rs[0].1 != Ok(unit) {
      assert w.0[1..] == cs[1..];
      return 0;
    }
    var j := WalkStopsAt(cs[1..], rs[1..], unit);
    k := j + 1;
    var rest := Walk(cs[1..], rs[1..], unit);
    assert w == ([rs[0].0] + rest.0, rest.1);
    forall i | 0 <= i < k
      ensures rs[i] == (w.0[i], Ok(unit))
    {
      if i > 0 {
        assert rs[i] == rs[1..][i - 1] && w.0[i] == rest.0[i - 1];
      }
    }
    if k < |cs| {
      assert rs[k] == rs[1..][j] && w.0[k] == rest.0[j];
      assert w.0[k + 1..] == rest.0[j + 1..];
    }
  }

  /** Each child wrapped in `Not`. */
  function Nots(cs: seq<Condition>): (r: seq<Condition>)
    ensures |r| == |cs| && forall i :: 0 <= i < |cs| ==> r[i] == Not(cs[i])
  {
    if |cs| == 0 then [] else [Not(cs[0])] + Nots(cs[1..])
  }

  /**
   * De Morgan over evaluation: the disjunction of the negated children answers
   * the negation of the conjunction, and touches the same indicators the same way.
   */
  lemma {:induction false} DeMorgan(env: Externals.Env, cs: seq<Condition>, d: MarketData.MarketData)
    requires AllValid(cs)
    ensures AllValid(Nots(cs))
    ensures EvaluateEach(env, Nots(cs), d, false) == (Nots(EvaluateEach(env, cs, d, true).0), Negate(EvaluateEach(env, cs, d, true).1))
    decreases |cs|
  {
    if |cs| > 0 {
      assert Nots(cs)[1..] == Nots(cs[1..]);
      DeMorgan(env, cs[1..], d);
    }
  }

  /** The first evaluation of a crossing never detects one, and remembers the output. */
  lemma FirstCrossingIsFalse(env: Externals.Env, ind: Indicator, v: OutputType, d: MarketData.MarketData)
    requires IndicatorEnum.Valid(ind)
    ensures Evaluate(env, CrossOver(ind, v, Option.None), d) == (CrossOver(Feed(env, ind, d).0, v, Some(Feed(env, ind, d).1)), Ok(false))
    ensures Evaluate(env, CrossUnder(ind, v, Option.None), d) == (CrossUnder(Feed(env, ind, d).0, v, Some(Feed(env, ind, d).1)), Ok(false))
  {
  }

  /** On single values an upward crossing is: at most the threshold before, above it now. */
  lemma CrossOverOnSingles(env: Externals.Env, ind: Indicator, p: real, t: real, d: MarketData.MarketData)
    requires IndicatorEnum.Valid(ind) && Feed(env, ind, d).1.Single?
    ensures Evaluate(env, CrossOver(ind, Single(t), Some(Single(p))), d).1 == Ok(p <= t && Feed(env, ind, d).1.x > t)
  {
  }

  /** On single values a downward crossing is: at least the threshold before, below it now. */
  lemma CrossUnderOnSingles(env: Externals.Env, ind: Indicator, p: real, t: real, d: MarketData.MarketData)
    requires IndicatorEnum.Valid(ind) && Feed(env, ind, d).1.Single?
    ensures Evaluate(env, CrossUnder(ind, Single(t), Some(Single(p))), d).1 == Ok(p >= t && Feed(env, ind, d).1.x < t)
  {
  }

  /** A failed comparison in a crossing leaves the remembered output as it was. */
  lemma FailedCrossingKeepsPrevious(env: Externals.Env, ind: Indicator, v: OutputType, prev: Option<OutputType>, d: MarketData.MarketData)
    requires IndicatorEnum.Valid(ind) && Evaluate(env, CrossOver(ind, v, prev), d).1.Err?
    ensures Evaluate(env, CrossOver(ind, v, prev), d).0.prev == prev
  {
  }

  /** On a number, "above" and "at most" the same threshold are complementary. */
  lemma ComplementaryLeaves(env: Externals.Env, ind: Indicator, t: real, d: MarketData.MarketData)
    requires IndicatorEnum.Valid(ind) && Feed(env, ind, d).1.Single?
    ensures Evaluate(env, GreaterThan(ind, Single(t)), d).1 == Negate(Evaluate(env, LessThanOrEqual(ind, Single(t)), d).1)
    ensures Evaluate(env, GreaterThan(ind, Single(t)), d).0.indicator == Evaluate(env, LessThanOrEqual(ind, Single(t)), d).0.indicator
  {
  }

  /** A NaN output satisfies no comparison with a number. */
  lemma NaNComparesFalse(env: Externals.Env, ind: Indicator, t: real, d: MarketData.MarketData)
    requires IndicatorEnum.Valid(ind) && Feed(env, ind, d).1.SingleNaN?
    ensures Evaluate(env, GreaterThan(ind, Single(t)), d).1 == Ok(false)
    ensures Evaluate(env, LessThanOrEqual(ind, Single(t)), d).1 == Ok(false)
  {
  }

  // ---------------------------------------------------------------- serialisation

  /**
   * The serialised form of a condition: each comparison's indicator form and
   * threshold, and the junctions' children.  A crossing's previous output is
   * skipped.
   */
  datatype Encoded =
    | GreaterThanForm(IndicatorEnum.Encoded, OutputType)
    | LessThanForm(IndicatorEnum.Encoded, OutputType)
    | EqualsForm(IndicatorEnum.Encoded, OutputType)
    | GreaterThanOrEqualForm(IndicatorEnum.Encoded, OutputType)
    | LessThanOrEqualForm(IndicatorEnum.Encoded, OutputType)
    | CrossOverForm(IndicatorEnum.Encoded, OutputType)
    | CrossUnderForm(IndicatorEnum.Encoded, OutputType)
    | AndForm(seq<Encoded>)
    | OrForm(seq<Encoded>)
    | NotForm(Encoded)

  function Encode(c: Condition): Encoded
    decreases c, 1
  {
    match c
    case GreaterThan(ind, v) => GreaterThanForm(IndicatorEnum.Encode(ind), v)
    case LessThan(ind, v) => LessThanForm(IndicatorEnum.Encode(ind), v)
    case Equals(ind, v) => EqualsForm(IndicatorEnum.Encode(ind), v)
    case GreaterThanOrEqual(ind, v) => GreaterThanOrEqualForm(IndicatorEnum.Encode(ind), v)
    case LessThanOrEqual(ind, v) => LessThanOrEqualForm(IndicatorEnum.Encode(ind), v)
    case CrossOver(ind, v, _) => CrossOverForm(IndicatorEnum.Encode(ind), v)
    case CrossUnder(ind, v, _) => CrossUnderForm(IndicatorEnum.Encode(ind), v)
    case And(cs) => AndForm(EncodeAll(cs))
    case Or(cs) => OrForm(EncodeAll(cs))
    case Not(c1) => NotForm(Encode(c1))
  }

  function EncodeAll(cs: seq<Condition>): (es: seq<Encoded>)
    ensures |es| == |cs|
    decreases cs, 0
  {
    if |cs| == 0 then [] else [Encode(cs[0])] + EncodeAll(cs[1..])
  }

  /**
   * Deserialisation: every indicator is read back through the indicator's
   * reader, the first failure failing the whole condition, and a crossing
   * starts without a previous output.
   */
  function Decode(e: Encoded): (r: Result<Condition>)
    ensures r.Err? ==> r.error == InvalidParameter
    decreases e, 1
  {
    match e
    case GreaterThanForm(ie, v) => IndicatorEnum.Decode(ie).Map(ind => GreaterThan(ind, v))
    case LessThanForm(ie, v) => IndicatorEnum.Decode(ie).Map(ind => LessThan(ind, v))
    case EqualsForm(ie, v) => IndicatorEnum.Decode(ie).Map(ind => Equals(ind, v))
    case GreaterThanOrEqualForm(ie, v) => IndicatorEnum.Decode(ie).Map(ind => GreaterThanOrEqual(ind, v))
    case LessThanOrEqualForm(ie, v) => IndicatorEnum.Decode(ie).Map(ind => LessThanOrEqual(ind, v))
    case CrossOverForm(ie, v) => IndicatorEnum.Decode(ie).Map(ind => CrossOver(ind, v, None))
    case CrossUnderForm(ie, v) => IndicatorEnum.Decode(ie).Map(ind => CrossUnder(ind, v, None))
    case AndForm(es) => DecodeAll(es).Map(cs => And(cs))
    case OrForm(es) => DecodeAll(es).Map(cs => Or(cs))
    case NotForm(e1) => Decode(e1).Map(c1 => Not(c1))
  }

  function DecodeAll(es: seq<Encoded>): (r: Result<seq<Condition>>)
    ensures r.Err? ==> r.error == InvalidParameter
    ensures r.Ok? ==> |r.value| == |es|
    decreases es, 0
  {
    if |es| == 0 then Ok([])
    else
      match Decode(es[0])
      case Err(err) => Err(err)
      case Ok(c) => DecodeAll(es[1..]).Map(cs => [c] + cs)
  }

  /** The condition as deserialisation rebuilds it: every indicator reset, every crossing without a previous output. */
  function Fresh(c: Condition): (r: Condition)
    requires Valid(c)
    ensures Valid(r)
    decreases c, 1
  {
    match c
    case CrossOver(ind, v, _) => CrossOver(IndicatorEnum.Restart(ind), v, None)
    case CrossUnder(ind, v, _) => CrossUnder(IndicatorEnum.Restart(ind), v, None)
    case And(cs) => And(FreshAll(cs))
    case Or(cs) => Or(FreshAll(cs))
    case Not(c1) => Not(Fresh(c1))
    case GreaterThan(ind, v) => GreaterThan(IndicatorEnum.Restart(ind), v)
    case LessThan(ind, v) => LessThan(IndicatorEnum.Restart(ind), v)
    case Equals(ind, v) => Equals(IndicatorEnum.Restart(ind), v)
    case GreaterThanOrEqual(ind, v) => GreaterThanOrEqual(IndicatorEnum.Restart(ind), v)
    case LessThanOrEqual(ind, v) => LessThanOrEqual(IndicatorEnum.Restart(ind), v)
  }

  function FreshAll(cs: seq<Condition>): (r: seq<Condition>)
    requires AllValid(cs)
    ensures |r| == |cs| && AllValid(r)
    decreases cs, 0
  {
    if |cs| == 0 then []
    else
      var r := [Fresh(cs[0])] + FreshAll(cs[1..]);
      assert forall i :: 1 <= i < |r| ==> r[i] == FreshAll(cs[1..])[i - 1];
      r
  }

  /** A fresh condition has no crossing that remembers an output. */
  predicate Forgotten(c: Condition)
    decreases c, 1
  {
    match c
    case CrossOver(_, _, prev) => prev.None?
    case CrossUnder(_, _, prev) => prev.None?
    case And(cs) => forall i :: 0 <= i < |cs| ==> Forgotten(cs[i])
    case Or(cs) => forall i :: 0 <= i < |cs| ==> Forgotten(cs[i])
    case Not(c1) => Forgotten(c1)
    case _ => true
  }

  /** Writing then reading a condition gives it back fresh: thresholds and parameters survive, running state does not. */
  lemma {:induction false} DecodeEncode(c: Condition)
    requires Valid(c)
    ensures Decode(Encode(c)) == Ok(Fresh(c))
    decreases c, 1
  {
    match c
    case And(cs) => DecodeEncodeAll(cs);
    case Or(cs) => DecodeEncodeAll(cs);
    case Not(c1) => DecodeEncode(c1);
    case _ => IndicatorEnum.DecodeEncode(c.indicator);
  }

  lemma {:induction false} DecodeEncodeAll(cs: seq<Condition>)
    requires AllValid(cs)
    ensures DecodeAll(EncodeAll(cs)) == Ok(FreshAll(cs))
    decreases cs, 0
  {
    if |cs| > 0 {
      DecodeEncode(cs[0]);
      DecodeEncodeAll(cs[1..]);
      assert EncodeAll(cs)[0] == Encode(cs[0]) && EncodeAll(cs)[1..] == EncodeAll(cs[1..]);
    }
  }

  /** A condition read back has forgotten every previous output. */
  lemma {:induction false} FreshForgets(c: Condition)
    requires Valid(c)
    ensures Forgotten(Fresh(c))
    decreases c, 1
  {
    match c
    case And(cs) => FreshAllForgets(cs);
    case Or(cs) => FreshAllForgets(cs);
    case Not(c1) => FreshForgets(c1);
    case _ =>
  }

  lemma {:induction false} FreshAllForgets(cs: seq<Condition>)
    requires AllValid(cs)
    ensures forall i :: 0 <= i < |cs| ==> Forgotten(FreshAll(cs)[i])
    decreases cs, 0
  {
    if |cs| > 0 {
      FreshForgets(cs[0]);
      FreshAllForgets(cs[1..]);
      assert forall i :: 1 <= i < |cs| ==> FreshAll(cs)[i] == FreshAll(cs[1..])[i - 1];
    }
  }

  /** The written form depends on thresholds and parameters alone: a fresh condition writes what it wrote before. */
  lemma {:induction false} EncodeForgetsState(c: Condition)
    requires Valid(c)
    ensures Encode(Fresh(c)) == Encode(c)
    decreases c, 1
  {
    match c
    case And(cs) => EncodeAllForgetsState(cs);
    case Or(cs) => EncodeAllForgetsState(cs);
    case Not(c1) => EncodeForgetsState(c1);
    case _ => IndicatorEnum.EncodeForgetsState(c.indicator);
  }

  lemma {:induction false} EncodeAllForgetsState(cs: seq<Condition>)
    requires AllValid(cs)
    ensures EncodeAll(FreshAll(cs)) == EncodeAll(cs)
    decreases cs, 0
  {
    if |cs| > 0 {
      EncodeForgetsState(cs[0]);
      EncodeAllForgetsState(cs[1..]);
      assert FreshAll(cs)[0] == Fresh(cs[0]) && FreshAll(cs)[1..] == FreshAll(cs[1..]);
    }
  }
}
