/**
 * The top-level strategy (src/strategy/strat.rs): a strategy tree behind a
 * warm-up state machine.  While the tree's indicators are still gathering
 * history the strategy only updates them and answers "no decision yet";
 * once `period` inputs have been seen it evaluates the tree on every input.
 */
module Strat {
  import opened Wrappers
  import Externals
  import MarketData
  import Node
  import Actions

  type Action = Actions.Action

  datatype State = Progress(index: nat) | Ready

  /**
   * The tree operations the strategy calls besides `evaluate`: `update`,
   * `period`, `reset` and `StrategyNode::default`.  node.rs does not define
   * them, so they are parameters here.
   */
  datatype NodeOps = NodeOps(
    update: (Node.StrategyNode, MarketData.MarketData) -> (Node.StrategyNode, Result<()>),
    period: Node.StrategyNode -> nat,
    reset: Node.StrategyNode -> Node.StrategyNode,
    default: Node.StrategyNode)

  /**
   * What the strategy relies on: the operations keep the tree's indicators
   * valid, and updating a tree does not change the history it needs.
   */
  ghost predicate Sound(ops: NodeOps)
  {
    && (forall n, d :: Node.Valid(n) ==> Node.Valid(ops.update(n, d).0) && ops.period(ops.update(n, d).0) == ops.period(n))
    && (forall n :: Node.Valid(n) ==> Node.Valid(ops.reset(n)))
    && Node.Valid(ops.default)
  }

  /** `next`: one more input seen; at the period the strategy becomes ready, and stays so. */
  function NextState(state: State, period: nat): (s: State)
    ensures state.Ready? ==> s.Ready?
    ensures state.Progress? ==> (s.Ready? <==> state.index >= period)
    ensures s.Progress? ==> state.Progress? && s.index == state.index + 1 && s.index <= period
  {
    match state
    case Progress(i) => if i < period then Progress(i + 1) else Ready
    case Ready => Ready
  }

  /**
   * `evaluate`: the state steps first; still in progress, the tree only
   * updates and the answer is `None` (or the update's error); ready, the
   * tree's action is the answer.
   */
  function Call(env: Externals.Env, ops: NodeOps, nodes: Node.StrategyNode, state: State, d: MarketData.MarketData)
    : (r: (Node.StrategyNode, State, Result<Option<Action>>))
    requires Node.Valid(nodes) && Sound(ops)
    ensures Node.Valid(r.0)
    ensures r.1 == NextState(state, ops.period(nodes))
    ensures r.2.Ok? && r.2.value.Some? <==> r.1.Ready? && Node.Evaluate(env, nodes, d).1.Ok?
    ensures r.1.Progress? ==> r.0 == ops.update(nodes, d).0 && ops.period(r.0) == ops.period(nodes)
  {
    var s := NextState(state, ops.period(nodes));
    if s.Progress? then
      var (n1, u) := ops.update(nodes, d);
      (n1, s, if u.Err? then Err(u.error) else Ok(Option.None))
    else
      var (n1, a) := Node.Evaluate(env, nodes, d);
      (n1, s, if a.Err? then Err(a.error) else Ok(Some(a.value)))
  }

  /** A run of calls on the inputs `ds`: the final tree and state, and every answer. */
  function Calls(env: Externals.Env, ops: NodeOps, nodes: Node.StrategyNode, state: State, ds: seq<MarketData.MarketData>)
    : (r: (Node.StrategyNode, State, seq<Result<Option<Action>>>))
    requires Node.Valid(nodes) && Sound(ops)
    ensures |r.2| == |ds|
    decreases |ds|
  {
    if |ds| == 0 then (nodes, state, [])
    else
      var (n1, s1, o) := Call(env, ops, nodes, state, ds[0]);
      var (n2, s2, os) := Calls(env, ops, n1, s1, ds[1..]);
      (n2, s2, [o] + os)
  }

  class Strategy {
    var nodes: Node.StrategyNode
    var state: State

    /** `new`, and deserialisation, which goes through it: warm-up starts over. */
    constructor New(nodes: Node.StrategyNode)
      ensures this.nodes == nodes && state == Progress(0)
    {
      this.nodes, state := nodes, Progress(0);
    }

    /** `Default`: the default tree, warm-up not begun. */
    constructor Default(ops: NodeOps)
      ensures nodes == ops.default && state == Progress(0)
    {
      nodes, state := ops.default, Progress(0);
    }

    /** `period`: the tree's. */
    function Period(ops: NodeOps): (p: nat)
      reads this
      ensures p == ops.period(nodes)
    {
      ops.period(nodes)
    }

    /**
     * What serialisation writes: the tree's form alone, so that the warm-up
     * state is lost and the tree reads back fresh.
     */
    function Encode(): (e: Node.Encoded)
      reads this
      ensures e == Node.Encode(nodes)
      ensures Node.Valid(nodes) ==> Node.Decode(e) == Ok(Node.Fresh(nodes))
    {
      var e := Node.Encode(nodes);
      if Node.Valid(nodes) then Node.DecodeEncode(nodes); e else e
    }

    /** Deserialisation reads the tree back, failing when it fails, and builds the strategy through `new`. */
    static method Decode(e: Node.Encoded) returns (r: Result<Strategy>)
      ensures r.Ok? <==> Node.Decode(e).Ok?
      ensures r.Err? ==> r.error == Node.Decode(e).error
      ensures r.Ok? ==> fresh(r.value) && r.value.nodes == Node.Decode(e).value && r.value.state == Progress(0)
    {
      var d := Node.Decode(e);
      if d.Err? {
        return Err(d.error);
      }
      var s := new Strategy.New(d.value);
      return Ok(s);
    }

    method Next(ops: NodeOps)
      modifies this
      ensures nodes == old(nodes) && state == NextState(old(state), ops.period(nodes))
    {
      if state.Progress? {
        if state.index < ops.period(nodes) {
          state := Progress(state.index + 1);
        } else {
          state := Ready;
        }
      }
    }

    method Evaluate(env: Externals.Env, ops: NodeOps, d: MarketData.MarketData) returns (r: Result<Option<Action>>)
      requires Node.Valid(nodes) && Sound(ops)
      modifies this
      ensures (nodes, state, r) == Call(env, ops, old(nodes), old(state), d)
    {
      Next(ops);
      match state {
        case Progress(_) =>
          var (n1, u) := ops.update(nodes, d);
          nodes := n1;
          if u.Err? {
            return Err(u.error);
          }
          return Ok(Option.None);
        case Ready =>
          var n1, a := Node.Run(env, nodes, d);
          nodes := n1;
          if a.Err? {
            return Err(a.error);
          }
          return Ok(Some(a.value));
      }
    }

    /** `reset`: warm-up starts over and the tree resets. */
    method Reset(ops: NodeOps)
      modifies this
      ensures state == Progress(0) && nodes == ops.reset(old(nodes))
    {
      state := Progress(0);
      nodes := ops.reset(nodes);
    }
  }

  /**
   * A strategy read back from its serialised form starts its warm-up over,
   * whatever state it was in, and its tree comes back fresh: every indicator
   * reset and every crossing without a previous output.
   */
  method DecodeEncode(s: Strategy) returns (back: Result<Strategy>)
    requires Node.Valid(s.nodes)
    ensures back.Ok? && fresh(back.value)
    ensures back.value.nodes == Node.Fresh(s.nodes) && back.value.state == Progress(0)
  {
    back := Strategy.Decode(s.Encode());
  }

  // ---------------------------------------------------------------- warm-up

  /** Once ready, a strategy stays ready and every successful answer is a decision. */
  lemma {:induction false} ReadyDecides(env: Externals.Env, ops: NodeOps, nodes: Node.StrategyNode, ds: seq<MarketData.MarketData>)
    requires Node.Valid(nodes) && Sound(ops)
    ensures Calls(env, ops, nodes, Ready, ds).1 == Ready
    ensures forall k :: 0 <= k < |ds| && Calls(env, ops, nodes, Ready, ds).2[k].Ok?
              ==> Calls(env, ops, nodes, Ready, ds).2[k].value.Some?
    decreases |ds|
  {
    if |ds| > 0 {
      var (n1, s1, o) := Call(env, ops, nodes, Ready, ds[0]);
      ReadyDecides(env, ops, n1, ds[1..]);
    }
  }

  /**
   * From `Progress(i)` with `i` at most the period `p`: the call with index `k`
   * answers no decision exactly when `i + k < p`, and the state after the run
   * is `Progress(i + |ds|)` while that stays within `p`, `Ready` after.
   */
  lemma {:induction false} WarmUpFrom(env: Externals.Env, ops: NodeOps, nodes: Node.StrategyNode, i: nat,
                                      ds: seq<MarketData.MarketData>)
    requires Node.Valid(nodes) && Sound(ops) && i <= ops.period(nodes)
    ensures var p := ops.period(nodes);
            Calls(env, ops, nodes, Progress(i), ds).1 == if i + |ds| <= p then Progress(i + |ds|) else Ready
    ensures forall k :: 0 <= k < |ds| && Calls(env, ops, nodes, Progress(i), ds).2[k].Ok?
              ==> (Calls(env, ops, nodes, Progress(i), ds).2[k].value.None? <==> i + k < ops.period(nodes))
    decreases |ds|
  {
    if |ds| > 0 {
      var p := ops.period(nodes);
      var (n1, s1, o) := Call(env, ops, nodes, Progress(i), ds[0]);
      var rest := Calls(env, ops, n1, s1, ds[1..]);
      assert Calls(env, ops, nodes, Progress(i), ds) == (rest.0, rest.1, [o] + rest.2);
      if i < p {
        assert s1 == Progress(i + 1) && ops.period(n1) == p;
        WarmUpFrom(env, ops, n1, i + 1, ds[1..]);
      } else {
        assert s1 == Ready;
        ReadyDecides(env, ops, n1, ds[1..]);
      }
    }
  }

  /**
   * The warm-up boundary is exact: a fresh strategy whose tree needs `p`
   * inputs gives no decision on its first `p` calls and a decision (when the
   * call succeeds) from call `p + 1` on.
   */
  lemma WarmUp(env: Externals.Env, ops: NodeOps, nodes: Node.StrategyNode, ds: seq<MarketData.MarketData>)
    requires Node.Valid(nodes) && Sound(ops)
    ensures forall k :: 0 <= k < |ds| && Calls(env, ops, nodes, Progress(0), ds).2[k].Ok?
              ==> (Calls(env, ops, nodes, Progress(0), ds).2[k].value.None? <==> k < ops.period(nodes))
  {
    WarmUpFrom(env, ops, nodes, 0, ds);
  }

  /** With period 0 the very first call already evaluates the tree. */
  lemma NoWarmUp(env: Externals.Env, ops: NodeOps, nodes: Node.StrategyNode, d: MarketData.MarketData)
    requires Node.Valid(nodes) && Sound(ops) && ops.period(nodes) == 0
    ensures Call(env, ops, nodes, Progress(0), d).1 == Ready
    ensures Call(env, ops, nodes, Progress(0), d).2 == (var a := Node.Evaluate(env, nodes, d).1;
                                                        if a.Err? then Err(a.error) else Ok(Some(a.value)))
  {
  }
}
