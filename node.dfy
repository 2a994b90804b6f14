/**
 * Strategy trees (src/strategy/node.rs): preprocessing steps, conditional
 * branches, fixed actions and sequences whose children's actions are combined
 * under an aggregation mode.  Evaluation advances the indicators of every
 * condition it reaches, so it returns the updated tree beside the action.
 */
module Node {
  import opened Wrappers
  import Externals
  import MarketData
  import IndicatorEnum
  import Condition
  import Actions
  import Output
  import opened Counting

  type Action = Actions.Action

  /** `u8`. */
  type Percent = p: nat | p < 256

  datatype SequenceMode = First | Any | All | Majority | Percentage(percentage: Percent)

  /** The preprocessing steps; applying either leaves the data as it is. */
  datatype PreprocessingStep = WaveletDenoise | Normalize

  datatype StrategyNode =
    | Preprocess(step: PreprocessingStep)
    | If(condition: Condition.Condition, thenBranch: StrategyNode, elseBranch: Option<StrategyNode>)
    | Action(action: Action)
    | Sequence(mode: SequenceMode, nodes: seq<StrategyNode>)

  /** Every condition in the tree holds valid indicators. */
  predicate Valid(n: StrategyNode)
    decreases n
  {
    match n
    case If(c, t, e) => Condition.Valid(c) && Valid(t) && (e.Some? ==> Valid(e.value))
    case Sequence(_, ns) => forall i :: 0 <= i < |ns| ==> Valid(ns[i])
    case _ => true
  }

  predicate AllValid(ns: seq<StrategyNode>)
  {
    forall i :: 0 <= i < |ns| ==> Valid(ns[i])
  }

  predicate NoHold(acts: seq<Action>)
  {
    forall i :: 0 <= i < |acts| ==> acts[i] != Actions.Hold
  }

  /** First and Any stop at the first child that does not hold. */
  predicate StopsEarly(mode: SequenceMode) { mode == First || mode == Any }

  // ---------------------------------------------------------------- evaluation

  /** `evaluate`: the updated tree and the action. */
  function Evaluate(env: Externals.Env, n: StrategyNode, d: MarketData.MarketData): (r: (StrategyNode, Result<Action>))
    requires Valid(n)
    ensures Valid(r.0)
    decreases n, 2
  {
    match n
    case Preprocess(_) => (n, Ok(Actions.Hold))
    case Action(a) => (n, Ok(a))
    case If(c, t, e) =>
      var (c1, b) := Condition.Evaluate(env, c, d);
      if b.Err? then (If(c1, t, e), Err(b.error))
      else if b.value then
        var (t1, a) := Evaluate(env, t, d); (If(c1, t1, e), a)
      else if e.Some? then
        var (e1, a) := Evaluate(env, e.value, d); (If(c1, t, Some(e1)), a)
      else (If(c1, t, e), Ok(Actions.Hold))
    case Sequence(mode, ns) =>
      var (ns1, acts) := Collect(env, ns, d, StopsEarly(mode));
      if acts.Err? then (Sequence(mode, ns1), Err(acts.error))
      else (Sequence(mode, ns1), Ok(Aggregate(env, mode, acts.value)))
  }

  /**
   * The children in order with their non-Hold actions collected; with `stop`
   * the first such action ends the walk.  The first failure ends it too.
   */
  function Collect(env: Externals.Env, ns: seq<StrategyNode>, d: MarketData.MarketData, stop: bool)
    : (r: (seq<StrategyNode>, Result<seq<Action>>))
    requires AllValid(ns)
    ensures |r.0| == |ns| && AllValid(r.0)
    ensures r.1.Ok? ==> NoHold(r.1.value) && |r.1.value| <= |ns|
    ensures r.1.Ok? && stop ==> |r.1.value| <= 1
    decreases ns, 1
  {
    Combine(ns, Evaluations(env, ns, d), stop, 0)
  }

  /**
   * What each child would answer on `d`.  The children do not share state, so
   * evaluating them one by one or all at once gives the same answers; `Combine`
   * reads only the answers of the children the walk reaches.
   */
  function Evaluations(env: Externals.Env, ns: seq<StrategyNode>, d: MarketData.MarketData)
    : (rs: seq<(StrategyNode, Result<Action>)>)
    requires AllValid(ns)
    ensures |rs| == |ns| && forall i :: 0 <= i < |rs| ==> Valid(rs[i].0)
    decreases ns, 0
  {
    if |ns| == 0 then []
    else [Evaluate(env, ns[0], d)] + Evaluations(env, ns[1..], d)
  }

  /** Child `i`'s answer. */
  lemma {:induction false} EvaluationsAt(env: Externals.Env, ns: seq<StrategyNode>, d: MarketData.MarketData, i: nat)
    requires AllValid(ns) && i < |ns|
    ensures Evaluations(env, ns, d)[i] == Evaluate(env, ns[i], d)
    decreases i
  {
    if i > 0 {
      assert ns[1..][i - 1] == ns[i];
      EvaluationsAt(env, ns[1..], d, i - 1);
    }
  }

  /**
   * The walk over the children from child `from` on, given their answers `rs`:
   * a child the walk reaches takes its updated form, the ones after the end
   * stay as they were.
   */
  function Combine(ns: seq<StrategyNode>, rs: seq<(StrategyNode, Result<Action>)>, stop: bool, from: nat)
    : (r: (seq<StrategyNode>, Result<seq<Action>>))
    requires |rs| == |ns| && from <= |ns|
    ensures |r.0| == |ns| - from
    ensures forall j :: 0 <= j < |r.0| ==> r.0[j] == rs[from + j].0 || r.0[j] == ns[from + j]
    ensures r.1.Ok? ==> NoHold(r.1.value) && |r.1.value| <= |ns| - from
    ensures r.1.Ok? && stop ==> |r.1.value| <= 1
    decreases |ns| - from
  {
    if from == |ns| then ([], Ok([]))
    else
      var (n1, r1) := rs[from];
      if r1.Err? then ([n1] + ns[from + 1..], Err(r1.error))
      else if r1.value != Actions.Hold && stop then ([n1] + ns[from + 1..], Ok([r1.value]))
      else
        var (rest, rr) := Combine(ns, rs, stop, from + 1);
        ([n1] + rest, Join(if r1.value != Actions.Hold then [r1.value] else [], rr))
  }

  /** Actions collected so far, put in front of the outcome of the rest. */
  function Join(acc: seq<Action>, rest: Result<seq<Action>>): (r: Result<seq<Action>>)
    ensures r.Ok? <==> rest.Ok?
    ensures r.Ok? ==> r.value == acc + rest.value
    ensures r.Err? ==> r == rest
  {
    if rest.Err? then rest else Ok(acc + rest.value)
  }

  // ---------------------------------------------------------------- aggregation

  /** The order the counting map hands its entries out in: a permutation of its keys. */
  function HashOrder(env: Externals.Env, keys: seq<Action>): (r: seq<Action>)
    ensures multiset(r) == multiset(keys)
    ensures forall a :: a in r <==> a in keys
  {
    var h := env.hashOrder(keys);
    var r := if multiset(h) == multiset(keys) then h else keys;
    assert forall a :: a in r <==> a in multiset(r);
    r
  }

  /**
   * `max_by_key` over the entries in `order`: an entry with the largest count,
   * the last such one on a tie.
   */
  function LastMax(counts: map<Action, nat>, order: seq<Action>): (r: Option<Action>)
    requires forall i :: 0 <= i < |order| ==> order[i] in counts
    ensures r.None? <==> |order| == 0
    ensures r.Some? ==> r.value in order
    ensures r.Some? ==> forall i :: 0 <= i < |order| ==> counts[order[i]] <= counts[r.value]
    decreases |order|
  {
    if |order| == 0 then Option.None
    else
      var best := LastMax(counts, order[..|order| - 1]);
      var last := order[|order| - 1];
      if best.None? || counts[last] >= counts[best.value] then Some(last) else best
  }

  /** The first entry in `order` whose share of `total`, in whole percent rounded down, reaches `p`. */
  function FirstReaching(counts: map<Action, nat>, total: nat, order: seq<Action>, p: nat): (r: Option<Action>)
    requires total > 0 && forall i :: 0 <= i < |order| ==> order[i] in counts
    ensures r.Some? ==> r.value in order && counts[r.value] * 100 / total >= p
    ensures r.None? <==> forall i :: 0 <= i < |order| ==> counts[order[i]] * 100 / total < p
    decreases |order|
  {
    if |order| == 0 then Option.None
    else if counts[order[0]] * 100 / total >= p then Some(order[0])
    else
      assert forall i :: 1 <= i < |order| ==> order[i] == order[1..][i - 1];
      FirstReaching(counts, total, order[1..], p)
  }

  /** The entry found is the first that reaches the threshold: every one before it falls short. */
  lemma {:induction false} FirstReachingIsFirst(counts: map<Action, nat>, total: nat, order: seq<Action>, p: nat) returns (k: nat)
    requires total > 0 && forall i :: 0 <= i < |order| ==> order[i] in counts
    requires FirstReaching(counts, total, order, p).Some?
    ensures k < |order| && order[k] == FirstReaching(counts, total, order, p).value
    ensures forall i :: 0 <= i < k ==> counts[order[i]] * 100 / total < p
    decreases |order|
  {
    if counts[order[0]] * 100 / total >= p {
      return 0;
    }
    var j := FirstReachingIsFirst(counts, total, order[1..], p);
    assert forall i :: 1 <= i < |order| ==> order[i] == order[1..][i - 1];
    k := j + 1;
  }

  /** Majority: the most frequent collected action (the hash order decides ties), Hold if none. */
  function MajorityOf(env: Externals.Env, acts: seq<Action>): Action
  {
    var counts := Counts(acts);
    var m := LastMax(counts, HashOrder(env, Distinct(acts)));
    if m.Some? then m.value else Actions.Hold
  }

  /** Percentage(p): the first collected action, in hash order, holding at least p percent. */
  function PercentageOf(env: Externals.Env, acts: seq<Action>, p: nat): Action
  {
    if |acts| == 0 then Actions.Hold
    else
      var m := FirstReaching(Counts(acts), |acts|, HashOrder(env, Distinct(acts)), p);
      if m.Some? then m.value else Actions.Hold
  }

  /** The collected actions under each mode. */
  function Aggregate(env: Externals.Env, mode: SequenceMode, acts: seq<Action>): Action
  {
    match mode
    case First => if |acts| > 0 then acts[0] else Actions.Hold
    case Any => if |acts| > 0 then acts[0] else Actions.Hold
    case All =>
      if |acts| > 0 && forall i :: 0 <= i < |acts| ==> acts[i] == acts[0] then acts[0] else Actions.Hold
    case Majority => MajorityOf(env, acts)
    case Percentage(p) => PercentageOf(env, acts, p)
  }

  // ---------------------------------------------------------------- properties of the aggregation

  /** All: an action exactly when every collected action is that one. */
  lemma AllAgrees(env: Externals.Env, acts: seq<Action>, a: Action)
    requires a != Actions.Hold
    ensures Aggregate(env, All, acts) == a <==> |acts| > 0 && forall i :: 0 <= i < |acts| ==> acts[i] == a
  {
  }

  /** First and Any answer the first collected action, Hold if there is none. */
  lemma FirstIsFirst(env: Externals.Env, acts: seq<Action>)
    ensures Aggregate(env, First, acts) == Aggregate(env, Any, acts)
    ensures |acts| == 0 ==> Aggregate(env, First, acts) == Actions.Hold
    ensures |acts| > 0 ==> Aggregate(env, First, acts) == acts[0]
  {
  }

  /** The entry `max_by_key` picks outnumbers every action of `acts` when `order` lists them all. */
  lemma LastMaxBeatsAll(acts: seq<Action>, order: seq<Action>)
    requires |acts| > 0 && forall a :: a in order <==> a in acts
    ensures forall i :: 0 <= i < |order| ==> order[i] in Counts(acts)
    ensures LastMax(Counts(acts), order).Some? && LastMax(Counts(acts), order).value in acts
    ensures forall a :: Count(acts, a) <= Count(acts, LastMax(Counts(acts), order).value)
  {
    var counts := Counts(acts);
    assert acts[0] in order;
    var m := LastMax(counts, order).value;
    forall a
      ensures Count(acts, a) <= Count(acts, m)
    {
      if a in acts {
        var i :| 0 <= i < |order| && order[i] == a;
      }
    }
  }

  /** Majority picks a collected action no other one outnumbers; Hold only when nothing was collected. */
  lemma MajorityIsMostFrequent(env: Externals.Env, acts: seq<Action>)
    requires NoHold(acts)
    ensures Aggregate(env, Majority, acts) == Actions.Hold <==> |acts| == 0
    ensures |acts| > 0 ==> Aggregate(env, Majority, acts) in acts
    ensures |acts| > 0 ==> forall a :: Count(acts, a) <= Count(acts, Aggregate(env, Majority, acts))
  {
    assert Aggregate(env, Majority, acts) == MajorityOf(env, acts);
    var order := HashOrder(env, Distinct(acts));
    if |acts| > 0 {
      LastMaxBeatsAll(acts, order);
      var m := LastMax(Counts(acts), order).value;
      assert MajorityOf(env, acts) == m;
      var i :| 0 <= i < |acts| && acts[i] == m;
    } else {
      assert |order| == 0;
    }
  }

  /** A tie is not broken towards Hold: one buy against one sell answers one of them. */
  lemma MajorityTieIsNotHold(env: Externals.Env)
    ensures Aggregate(env, Majority, [Actions.Buy, Actions.Sell]) in {Actions.Buy, Actions.Sell}
  {
    MajorityIsMostFrequent(env, [Actions.Buy, Actions.Sell]);
  }

  /** The percentage walk over an order listing exactly the collected actions, in terms of the actions. */
  lemma FirstReachingOverActions(acts: seq<Action>, order: seq<Action>, p: nat)
    requires |acts| > 0 && forall a :: a in order <==> a in acts
    ensures forall i :: 0 <= i < |order| ==> order[i] in Counts(acts)
    ensures var m := FirstReaching(Counts(acts), |acts|, order, p);
            (m.Some? ==> m.value in acts && Count(acts, m.value) * 100 / |acts| >= p)
            && (m.None? <==> forall i :: 0 <= i < |acts| ==> Count(acts, acts[i]) * 100 / |acts| < p)
  {
    var counts := Counts(acts);
    var m := FirstReaching(counts, |acts|, order, p);
    if m.None? {
      forall i | 0 <= i < |acts|
        ensures Count(acts, acts[i]) * 100 / |acts| < p
      {
        assert acts[i] in order;
        var j :| 0 <= j < |order| && order[j] == acts[i];
      }
    } else {
      assert m.value in order;
      var k :| 0 <= k < |order| && order[k] == m.value;
    }
  }

  /**
   * Percentage(p): an action only when its share in whole percent reaches p,
   * and Hold exactly when no collected action's share does.
   */
  lemma PercentageReaches(env: Externals.Env, acts: seq<Action>, p: Percent)
    requires NoHold(acts)
    ensures var r := Aggregate(env, Percentage(p), acts);
            r != Actions.Hold ==> r in acts && Count(acts, r) * 100 / |acts| >= p
    ensures Aggregate(env, Percentage(p), acts) == Actions.Hold
            <==> forall i :: 0 <= i < |acts| ==> Count(acts, acts[i]) * 100 / |acts| < p
  {
    assert Aggregate(env, Percentage(p), acts) == PercentageOf(env, acts, p);
    if |acts| > 0 {
      var order := HashOrder(env, Distinct(acts));
      FirstReachingOverActions(acts, order, p);
      var m := FirstReaching(Counts(acts), |acts|, order, p);
      if m.Some? {
        var k :| 0 <= k < |acts| && acts[k] == m.value;
        assert m.value != Actions.Hold;
      }
    }
  }

  /** No count exceeds the total, so a threshold above 100 percent always answers Hold. */
  lemma PercentageAboveHundredHolds(env: Externals.Env, acts: seq<Action>, p: Percent)
    requires NoHold(acts) && p > 100
    ensures Aggregate(env, Percentage(p), acts) == Actions.Hold
  {
    PercentageReaches(env, acts, p);
    forall i | 0 <= i < |acts|
      ensures Count(acts, acts[i]) * 100 / |acts| < p
    {
      CountAtMostLength(acts, acts[i]);
      DivAtMost(Count(acts, acts[i]), |acts|);
    }
  }

  lemma DivAtMost(c: nat, total: nat)
    requires 0 < total && c <= total
    ensures c * 100 / total <= 100
  {
    assert c * 100 <= total * 100;
  }

  // ---------------------------------------------------------------- the counting loops

  /** `max_by_key` as the iterator runs it: a later entry with an equal count replaces the best so far. */
  method MaxByKey(counts: map<Action, nat>, order: seq<Action>) returns (best: Option<Action>)
    requires forall i :: 0 <= i < |order| ==> order[i] in counts
    ensures best == LastMax(counts, order)
  {
    best := Option.None;
    var i := 0;
    while i < |order|
      invariant 0 <= i <= |order| && best == LastMax(counts, order[..i])
      decreases |order| - i
    {
      assert order[..i + 1][..i] == order[..i];
      if best.None? || counts[order[i]] >= counts[best.value] {
        best := Some(order[i]);
      }
      i := i + 1;
    }
    assert order[..i] == order;
  }

  /** `filter_map(..).next()`: the first entry reaching the threshold. */
  method FindReaching(counts: map<Action, nat>, total: nat, order: seq<Action>, p: nat) returns (found: Option<Action>)
    requires total > 0 && forall i :: 0 <= i < |order| ==> order[i] in counts
    ensures found == FirstReaching(counts, total, order, p)
  {
    var i := 0;
    assert order[0..] == order;
    while i < |order|
      invariant 0 <= i <= |order|
      invariant FirstReaching(counts, total, order, p) == FirstReaching(counts, total, order[i..], p)
      decreases |order| - i
    {
      assert order[i..][0] == order[i] && order[i..][1..] == order[i + 1..];
      if counts[order[i]] * 100 / total >= p {
        return Some(order[i]);
      }
      i := i + 1;
    }
    return Option.None;
  }

  /** The aggregation as the source runs it: the counting loop, then the walk over the map. */
  method RunAggregate(env: Externals.Env, mode: SequenceMode, acts: seq<Action>) returns (chosen: Action)
    ensures chosen == Aggregate(env, mode, acts)
  {
    match mode {
      case Majority =>
        var counts, keys := Counting.Tally(acts);
        var best := MaxByKey(counts, HashOrder(env, keys));
        chosen := if best.Some? then best.value else Actions.Hold;
      case Percentage(p) =>
        var counts, keys := Counting.Tally(acts);
        if |acts| == 0 {
          chosen := Actions.Hold;
        } else {
          var found := FindReaching(counts, |acts|, HashOrder(env, keys), p);
          chosen := if found.Some? then found.value else Actions.Hold;
        }
      case _ =>
        chosen := Aggregate(env, mode, acts);
    }
  }

  // ---------------------------------------------------------------- the evaluation loop

  /** What the loop over a sequence's children knows after `i` of them. */
  predicate CombineState(ns: seq<StrategyNode>, rs: seq<(StrategyNode, Result<Action>)>, stop: bool,
                         i: nat, done: seq<StrategyNode>, acc: seq<Action>)
    requires |rs| == |ns|
  {
    i <= |ns|
    && Combine(ns, rs, stop, 0) == (done + Combine(ns, rs, stop, i).0, Join(acc, Combine(ns, rs, stop, i).1))
  }

  /** Before the first turn nothing is done and nothing collected. */
  lemma CombineStarts(ns: seq<StrategyNode>, rs: seq<(StrategyNode, Result<Action>)>, stop: bool)
    requires |rs| == |ns|
    ensures CombineState(ns, rs, stop, 0, [], [])
  {
    var r := Combine(ns, rs, stop, 0);
    assert [] + r.0 == r.0;
    if r.1.Ok? {
      assert [] + r.1.value == r.1.value;
    }
  }

  /** After every child took its turn the walk's outcome is what was done and collected. */
  lemma CombineFinishes(ns: seq<StrategyNode>, rs: seq<(StrategyNode, Result<Action>)>, stop: bool,
                        done: seq<StrategyNode>, acc: seq<Action>)
    requires |rs| == |ns| && CombineState(ns, rs, stop, |ns|, done, acc)
    ensures Combine(ns, rs, stop, 0) == (done, Ok(acc))
  {
    assert done + [] == done && acc + [] == acc;
  }

  /** A turn where child `i` neither fails nor ends the walk. */
  lemma CombineContinues(ns: seq<StrategyNode>, rs: seq<(StrategyNode, Result<Action>)>, stop: bool,
                         i: nat, done: seq<StrategyNode>, acc: seq<Action>)
    requires |rs| == |ns| && CombineState(ns, rs, stop, i, done, acc) && i < |ns|
    requires rs[i].1.Ok? && !(rs[i].1.value != Actions.Hold && stop)
    ensures CombineState(ns, rs, stop, i + 1, done + [rs[i].0],
                         acc + if rs[i].1.value != Actions.Hold then [rs[i].1.value] else [])
  {
    var a := rs[i].1.value;
    var extra := if a != Actions.Hold then [a] else [];
    var rest := Combine(ns, rs, stop, i + 1);
    assert Combine(ns, rs, stop, i) == ([rs[i].0] + rest.0, Join(extra, rest.1));
    assert done + ([rs[i].0] + rest.0) == (done + [rs[i].0]) + rest.0;
    if rest.1.Ok? {
      assert acc + (extra + rest.1.value) == (acc + extra) + rest.1.value;
    }
  }

  /** A turn where child `i` fails or, under First and Any, answers an action: the walk ends there. */
  lemma CombineEnds(ns: seq<StrategyNode>, rs: seq<(StrategyNode, Result<Action>)>, stop: bool,
                    i: nat, done: seq<StrategyNode>, acc: seq<Action>)
    requires |rs| == |ns| && CombineState(ns, rs, stop, i, done, acc) && i < |ns|
    requires rs[i].1.Err? || (rs[i].1.value != Actions.Hold && stop)
    ensures rs[i].1.Err? ==> Combine(ns, rs, stop, 0) == (done + [rs[i].0] + ns[i + 1..], Err(rs[i].1.error))
    ensures rs[i].1.Ok? ==> Combine(ns, rs, stop, 0) == (done + [rs[i].0] + ns[i + 1..], Ok(acc + [rs[i].1.value]))
  {
    assert done + ([rs[i].0] + ns[i + 1..]) == done + [rs[i].0] + ns[i + 1..];
  }

  /** The walk over a sequence's children as the source runs it: a loop that breaks or returns early. */
  method RunChildren(env: Externals.Env, ns: seq<StrategyNode>, d: MarketData.MarketData, stop: bool)
    returns (ns1: seq<StrategyNode>, acts: Result<seq<Action>>)
    requires AllValid(ns)
    ensures (ns1, acts) == Collect(env, ns, d, stop)
    decreases ns, 1
  {
    ghost var rs := Evaluations(env, ns, d);
    var done: seq<StrategyNode> := [];
    var acc: seq<Action> := [];
    var i := 0;
    CombineStarts(ns, rs, stop);
    while i < |ns|
      invariant CombineState(ns, rs, stop, i, done, acc)
      decreases |ns| - i
    {
      var ni, ri := RunChild(env, ns, d, i);
      if ri.Err? || (ri.value != Actions.Hold && stop) {
        CombineEnds(ns, rs, stop, i, done, acc);
        if ri.Err? {
          return done + [ni] + ns[i + 1..], Err(ri.error);
        }
        return done + [ni] + ns[i + 1..], Ok(acc + [ri.value]);
      }
      CombineContinues(ns, rs, stop, i, done, acc);
      done, acc, i := done + [ni], acc + (if ri.value != Actions.Hold then [ri.value] else []), i + 1;
    }
    CombineFinishes(ns, rs, stop, done, acc);
    ns1, acts := done, Ok(acc);
  }

  /** The loop's call on child `i`. */
  method RunChild(env: Externals.Env, ns: seq<StrategyNode>, d: MarketData.MarketData, i: nat)
    returns (ni: StrategyNode, ri: Result<Action>)
    requires AllValid(ns) && i < |ns|
    ensures (ni, ri) == Evaluations(env, ns, d)[i]
    decreases ns, 0
  {
    ni, ri := Run(env, ns[i], d);
    EvaluationsAt(env, ns, d, i);
  }

  /** `evaluate` as the source runs it. */
  method Run(env: Externals.Env, n: StrategyNode, d: MarketData.MarketData) returns (n1: StrategyNode, r: Result<Action>)
    requires Valid(n)
    ensures (n1, r) == Evaluate(env, n, d)
    decreases n, 2
  {
    match n {
      case If(c, t, e) =>
        var c1, b := Condition.Run(env, c, d);
        if b.Err? {
          return If(c1, t, e), Err(b.error);
        }
        if b.value {
          var t1, a := Run(env, t, d);
          return If(c1, t1, e), a;
        }
        if e.Some? {
          var e1, a := Run(env, e.value, d);
          return If(c1, t, Some(e1)), a;
        }
        return If(c1, t, e), Ok(Actions.Hold);
      case Sequence(mode, ns) =>
        var ns1, acts := RunChildren(env, ns, d, StopsEarly(mode));
        if acts.Err? {
          return Sequence(mode, ns1), Err(acts.error);
        }
        var chosen := RunAggregate(env, mode, acts.value);
        return Sequence(mode, ns1), Ok(chosen);
      case _ =>
        n1, r := Evaluate(env, n, d).0, Evaluate(env, n, d).1;
    }
  }

  // ---------------------------------------------------------------- properties of evaluation

  /** A preprocessing step answers Hold and changes nothing; a fixed action answers itself. */
  lemma LeavesAnswer(env: Externals.Env, step: PreprocessingStep, a: Action, d: MarketData.MarketData)
    ensures Evaluate(env, Preprocess(step), d) == (Preprocess(step), Ok(Actions.Hold))
    ensures Evaluate(env, Action(a), d) == (Action(a), Ok(a))
  {
  }

  /** `If` follows its condition: true to the then-branch, false to the else-branch or Hold. */
  lemma IfRoutes(env: Externals.Env, c: Condition.Condition, t: StrategyNode, e: Option<StrategyNode>, d: MarketData.MarketData)
    requires Valid(If(c, t, e))
    ensures var (c1, b) := Condition.Evaluate(env, c, d);
            var r := Evaluate(env, If(c, t, e), d);
            (b.Err? ==> r == (If(c1, t, e), Err(b.error)))
            && (b == Ok(true) ==> r == (If(c1, Evaluate(env, t, d).0, e), Evaluate(env, t, d).1))
            && (b == Ok(false) && e.Some? ==> r == (If(c1, t, Some(Evaluate(env, e.value, d).0)), Evaluate(env, e.value, d).1))
            && (b == Ok(false) && e.None? ==> r == (If(c1, t, e), Ok(Actions.Hold)))
  {
  }

  /** Under `stop` the walk ends at the first answer that is not Hold. */
  lemma {:induction false} CombineStopsAt(ns: seq<StrategyNode>, rs: seq<(StrategyNode, Result<Action>)>, from: nat)
    returns (k: nat)
    requires |rs| == |ns| && from <= |ns|
    requires Combine(ns, rs, true, from).1.Ok? && |Combine(ns, rs, true, from).1.value| > 0
    ensures from <= k < |ns|
    ensures forall i :: from <= i < k ==> rs[i] == (Combine(ns, rs, true, from).0[i - from], Ok(Actions.Hold))
    ensures rs[k] == (Combine(ns, rs, true, from).0[k - from], Ok(Combine(ns, rs, true, from).1.value[0]))
    ensures Combine(ns, rs, true, from).0[k + 1 - from..] == ns[k + 1..]
    decreases |ns| - from
  {
    if rs[from].1.value != Actions.Hold {
      return from;
    }
    var r := Combine(ns, rs, true, from);
    var rest := Combine(ns, rs, true, from + 1);
    assert rs[from].1 == Ok(Actions.Hold);
    assert r == ([rs[from].0] + rest.0, Join([], rest.1));
    assert r.1.value == [] + rest.1.value == rest.1.value;
    k := CombineStopsAt(ns, rs, from + 1);
    forall i | from <= i < k
      ensures rs[i] == (r.0[i - from], Ok(Actions.Hold))
    {
      if i > from {
        assert r.0[i - from] == rest.0[i - (from + 1)];
      }
    }
    assert r.0[k - from] == rest.0[k - (from + 1)];
    assert r.0[k + 1 - from..] == rest.0[k + 1 - (from + 1)..];
  }

  /**
   * Under First and Any a sequence answers the first child's action that is
   * not Hold: the children before it answered Hold, and the children after it
   * are not evaluated.
   */
  lemma FirstStopsAt(env: Externals.Env, ns: seq<StrategyNode>, d: MarketData.MarketData) returns (k: nat)
    requires AllValid(ns) && Collect(env, ns, d, true).1.Ok? && |Collect(env, ns, d, true).1.value| > 0
    ensures k < |ns|
    ensures var c := Collect(env, ns, d, true);
            && (forall i :: 0 <= i < k ==> Evaluate(env, ns[i], d) == (c.0[i], Ok(Actions.Hold)))
            && Evaluate(env, ns[k], d) == (c.0[k], Ok(c.1.value[0]))
            && c.0[k + 1..] == ns[k + 1..]
  {
    var rs := Evaluations(env, ns, d);
    assert Collect(env, ns, d, true) == Combine(ns, rs, true, 0);
    k := FirstOfAnswers(ns, rs);
    AllEvaluations(env, ns, d);
  }

  /** `CombineStopsAt` from the first child. */
  lemma FirstOfAnswers(ns: seq<StrategyNode>, rs: seq<(StrategyNode, Result<Action>)>) returns (k: nat)
    requires |rs| == |ns|
    requires Combine(ns, rs, true, 0).1.Ok? && |Combine(ns, rs, true, 0).1.value| > 0
    ensures var c := Combine(ns, rs, true, 0);
            && k < |ns|
            && (forall i :: 0 <= i < k ==> rs[i] == (c.0[i], Ok(Actions.Hold)))
            && rs[k] == (c.0[k], Ok(c.1.value[0]))
            && c.0[k + 1..] == ns[k + 1..]
  {
    k := CombineStopsAt(ns, rs, 0);
    var c := Combine(ns, rs, true, 0);
    assert forall i :: 0 <= i < k ==> c.0[i] == c.0[i - 0];
  }

  /** Every child's answer, at once. */
  lemma AllEvaluations(env: Externals.Env, ns: seq<StrategyNode>, d: MarketData.MarketData)
    requires AllValid(ns)
    ensures forall i :: 0 <= i < |ns| ==> Evaluations(env, ns, d)[i] == Evaluate(env, ns[i], d)
  {
    forall i | 0 <= i < |ns|
      ensures Evaluations(env, ns, d)[i] == Evaluate(env, ns[i], d)
    {
      EvaluationsAt(env, ns, d, i);
    }
  }

  /** RSI(14) answering 50 on its first input, above 40: the strategy of the source answers Sell. */
  lemma RsiStrategyExample(env: Externals.Env)
    requires env.rsi(14, [100.0]) == 50.0
    ensures var c := Condition.GreaterThan(IndicatorEnum.NewRsi(14).value, Output.Single(40.0));
            Evaluate(env, If(c, Action(Actions.Sell), Some(Action(Actions.Hold))), MarketData.Float(100.0)).1 == Ok(Actions.Sell)
  {
    var ind := IndicatorEnum.NewRsi(14).value;
    MarketData.FloatProjections(100.0);
    assert [] + [100.0] == [100.0];
    assert Condition.Feed(env, ind, MarketData.Float(100.0)).1 == Output.Single(50.0);
  }

  // ---------------------------------------------------------------- max_period and validate

  /** `max_period`: the most history any condition in the tree needs, `None` if there is no indicator. */
  function MaxPeriod(env: Externals.Env, n: StrategyNode): (p: Option<nat>)
    decreases n, 1
  {
    match n
    case Preprocess(_) => Option.None
    case Action(_) => Option.None
    case If(c, t, e) =>
      Condition.MaxOpt(Condition.MaxOpt(Condition.MaxPeriod(env, c), MaxPeriod(env, t)),
                       if e.Some? then MaxPeriod(env, e.value) else Option.None)
    case Sequence(_, ns) => MaxPeriodAll(env, ns)
  }

  /** The largest period among the children that have one. */
  function MaxPeriodAll(env: Externals.Env, ns: seq<StrategyNode>): (p: Option<nat>)
    ensures p.None? <==> forall i :: 0 <= i < |ns| ==> MaxPeriod(env, ns[i]).None?
    ensures p.Some? ==> forall i :: 0 <= i < |ns| && MaxPeriod(env, ns[i]).Some? ==> MaxPeriod(env, ns[i]).value <= p.value
    ensures p.Some? ==> exists i :: 0 <= i < |ns| && MaxPeriod(env, ns[i]) == p
    decreases ns, 0
  {
    if |ns| == 0 then Option.None
    else
      var rest := MaxPeriodAll(env, ns[1..]);
      assert forall i :: 1 <= i < |ns| ==> ns[i] == ns[1..][i - 1];
      assert rest.Some? ==> exists j :: 0 <= j < |ns| - 1 && MaxPeriod(env, ns[1..][j]) == rest;
      Condition.MaxOpt(MaxPeriod(env, ns[0]), rest)
  }

  /** An `If` needs what its condition and both branches need. */
  lemma IfPeriod(env: Externals.Env, c: Condition.Condition, t: StrategyNode, e: StrategyNode)
    requires Condition.MaxPeriod(env, c).Some?
    ensures MaxPeriod(env, If(c, t, Some(e))).Some?
    ensures Condition.MaxPeriod(env, c).value <= MaxPeriod(env, If(c, t, Some(e))).value
    ensures MaxPeriod(env, t).Some? ==> MaxPeriod(env, t).value <= MaxPeriod(env, If(c, t, Some(e))).value
    ensures MaxPeriod(env, e).Some? ==> MaxPeriod(env, e).value <= MaxPeriod(env, If(c, t, Some(e))).value
  {
  }

  /** Two RSI conditions of periods 10 and 20 in one sequence need 20 inputs of history. */
  lemma ComposedPeriodExample(env: Externals.Env)
    ensures var c1 := Condition.GreaterThan(IndicatorEnum.NewRsi(10).value, Output.Single(0.0));
            var c2 := Condition.LessThan(IndicatorEnum.NewRsi(20).value, Output.Single(0.0));
            var seqNode := Sequence(All, [If(c1, Action(Actions.Hold), Option.None), If(c2, Action(Actions.Hold), Option.None)]);
            MaxPeriod(env, seqNode) == Some(20)
  {
    var c1 := Condition.GreaterThan(IndicatorEnum.NewRsi(10).value, Output.Single(0.0));
    var c2 := Condition.LessThan(IndicatorEnum.NewRsi(20).value, Output.Single(0.0));
    var n1 := If(c1, Action(Actions.Hold), Option.None);
    var n2 := If(c2, Action(Actions.Hold), Option.None);
    assert MaxPeriod(env, n1) == Some(10);
    assert MaxPeriod(env, n2) == Some(20);
    var ns := [n1, n2];
    assert ns[1..] == [n2] && ns[1..][1..] == [];
    assert MaxPeriodAll(env, ns[1..]) == Some(20);
  }

  /**
   * `validate`: every path must end in an action.  The answer is the first
   * violation, the then-branch searched before the else-branch; `None` stands
   * for `Ok(())`.
   */
  function Validate(n: StrategyNode): (r: Option<StrategyError>)
    decreases n, 1
  {
    match n
    case Preprocess(_) => Option.None
    case Action(_) => Option.None
    case If(_, t, e) =>
      var rt := Validate(t);
      if rt.Some? then rt
      else if e.None? then Some(MissingElseBranch)
      else Validate(e.value)
    case Sequence(_, ns) =>
      if |ns| == 0 then Some(EmptySequence) else ValidateAll(ns)
  }

  /** The children in order; the first violation is the answer. */
  function ValidateAll(ns: seq<StrategyNode>): (r: Option<StrategyError>)
    ensures r.None? <==> forall i :: 0 <= i < |ns| ==> Validate(ns[i]).None?
    decreases ns, 0
  {
    if |ns| == 0 then Option.None
    else
      var r0 := Validate(ns[0]);
      assert forall i :: 1 <= i < |ns| ==> ns[i] == ns[1..][i - 1];
      if r0.Some? then r0 else ValidateAll(ns[1..])
  }

  /** The violation reported is that of the first child that has one. */
  lemma {:induction false} ValidateAllFirst(ns: seq<StrategyNode>) returns (k: nat)
    requires ValidateAll(ns).Some?
    ensures k < |ns| && Validate(ns[k]) == ValidateAll(ns)
    ensures forall i :: 0 <= i < k ==> Validate(ns[i]).None?
    decreases |ns|
  {
    if Validate(ns[0]).Some? {
      return 0;
    }
    var j := ValidateAllFirst(ns[1..]);
    assert forall i :: 1 <= i < |ns| ==> ns[i] == ns[1..][i - 1];
    k := j + 1;
  }

  /** Every path ends in an action or a preprocessing step: no `If` without else, no empty sequence. */
  predicate Complete(n: StrategyNode)
    decreases n
  {
    match n
    case Preprocess(_) => true
    case Action(_) => true
    case If(_, t, e) => Complete(t) && e.Some? && Complete(e.value)
    case Sequence(_, ns) => |ns| > 0 && forall i :: 0 <= i < |ns| ==> Complete(ns[i])
  }

  /** `validate` accepts exactly the complete trees. */
  lemma {:induction false} ValidateIsComplete(n: StrategyNode)
    ensures Validate(n).None? <==> Complete(n)
    decreases n
  {
    match n
    case Preprocess(_) =>
    case Action(_) =>
    case If(_, t, e) =>
      ValidateIsComplete(t);
      if e.Some? {
        ValidateIsComplete(e.value);
      }
    case Sequence(_, ns) =>
      forall i | 0 <= i < |ns|
        ensures Validate(ns[i]).None? <==> Complete(ns[i])
      {
        ValidateIsComplete(ns[i]);
      }
  }

  /** The examples of the source: an action, an If with both branches and a sequence pass; a missing else and an empty sequence fail. */
  lemma ValidateExamples(c: Condition.Condition)
    ensures Validate(Action(Actions.Buy)).None?
    ensures Validate(If(c, Action(Actions.Sell), Some(Action(Actions.Hold)))).None?
    ensures Validate(Sequence(First, [Action(Actions.Buy), Action(Actions.Sell)])).None?
    ensures Validate(If(c, Action(Actions.Hold), Option.None)) == Some(MissingElseBranch)
    ensures Validate(Sequence(Any, [])) == Some(EmptySequence)
  {
    assert [Action(Actions.Buy), Action(Actions.Sell)][1..] == [Action(Actions.Sell)];
  }

  // ---------------------------------------------------------------- serialisation

  /** The serialised form of a tree: its shape, with each condition in its serialised form. */
  datatype Encoded =
    | PreprocessForm(PreprocessingStep)
    | IfForm(Condition.Encoded, Encoded, Option<Encoded>)
    | ActionForm(Action)
    | SequenceForm(SequenceMode, seq<Encoded>)

  function Encode(n: StrategyNode): Encoded
    decreases n, 1
  {
    match n
    case Preprocess(step) => PreprocessForm(step)
    case If(c, t, e) => IfForm(Condition.Encode(c), Encode(t), if e.Some? then Some(Encode(e.value)) else None)
    case Action(a) => ActionForm(a)
    case Sequence(mode, ns) => SequenceForm(mode, EncodeAll(ns))
  }

  function EncodeAll(ns: seq<StrategyNode>): (es: seq<Encoded>)
    ensures |es| == |ns|
    decreases ns, 0
  {
    if |ns| == 0 then [] else [Encode(ns[0])] + EncodeAll(ns[1..])
  }

  /** Deserialisation: the first condition that does not read back fails the whole tree. */
  function Decode(e: Encoded): (r: Result<StrategyNode>)
    ensures r.Err? ==> r.error == InvalidParameter
    decreases e, 1
  {
    match e
    case PreprocessForm(step) => Ok(Preprocess(step))
    case IfForm(ce, te, ee) =>
      var c := Condition.Decode(ce);
      var t := Decode(te);
      if c.Err? then Err(c.error)
      else if t.Err? then Err(t.error)
      else if ee.None? then Ok(If(c.value, t.value, None))
      else Decode(ee.value).Map(n => If(c.value, t.value, Some(n)))
    case ActionForm(a) => Ok(Action(a))
    case SequenceForm(mode, es) => DecodeAll(es).Map(ns => Sequence(mode, ns))
  }

  function DecodeAll(es: seq<Encoded>): (r: Result<seq<StrategyNode>>)
    ensures r.Err? ==> r.error == InvalidParameter
    ensures r.Ok? ==> |r.value| == |es|
    decreases es, 0
  {
    if |es| == 0 then Ok([])
    else
      match Decode(es[0])
      case Err(err) => Err(err)
      case Ok(n) => DecodeAll(es[1..]).Map(ns => [n] + ns)
  }

  /** The tree as deserialisation rebuilds it: every condition fresh, the shape kept. */
  function Fresh(n: StrategyNode): (r: StrategyNode)
    requires Valid(n)
    ensures Valid(r)
    decreases n, 1
  {
    match n
    case If(c, t, e) => If(Condition.Fresh(c), Fresh(t), if e.Some? then Some(Fresh(e.value)) else None)
    case Sequence(mode, ns) => Sequence(mode, FreshAll(ns))
    case _ => n
  }

  function FreshAll(ns: seq<StrategyNode>): (r: seq<StrategyNode>)
    requires AllValid(ns)
    ensures |r| == |ns| && AllValid(r)
    decreases ns, 0
  {
    if |ns| == 0 then []
    else
      var r := [Fresh(ns[0])] + FreshAll(ns[1..]);
      assert forall i :: 1 <= i < |r| ==> r[i] == FreshAll(ns[1..])[i - 1];
      r
  }

  /** Writing then reading a tree gives it back fresh: its shape, thresholds and parameters survive, running state does not. */
  lemma {:induction false} DecodeEncode(n: StrategyNode)
    requires Valid(n)
    ensures Decode(Encode(n)) == Ok(Fresh(n))
    decreases n, 1
  {
    match n
    case If(c, t, e) =>
      Condition.DecodeEncode(c);
      DecodeEncode(t);
      if e.Some? {
        DecodeEncode(e.value);
      }
    case Sequence(_, ns) => DecodeEncodeAll(ns);
    case _ =>
  }

  lemma {:induction false} DecodeEncodeAll(ns: seq<StrategyNode>)
    requires AllValid(ns)
    ensures DecodeAll(EncodeAll(ns)) == Ok(FreshAll(ns))
    decreases ns, 0
  {
    if |ns| > 0 {
      DecodeEncode(ns[0]);
      DecodeEncodeAll(ns[1..]);
      assert EncodeAll(ns)[0] == Encode(ns[0]) && EncodeAll(ns)[1..] == EncodeAll(ns[1..]);
    }
  }
}
