/**
 * The relative strength index (rsi.rs is not part of this model).  Only what
 * the rest of the code relies on is kept: a period fixed at construction, a
 * failing `new(0)`, a `reset` that forgets the inputs, and an output that is
 * some function (`Externals.Env.rsi`) of the period and of every input since
 * construction or reset.
 */
module Rsi {
  import opened Wrappers
  import Externals
  import Candles

  datatype RsiState = RsiState(period: nat, inputs: seq<real>)

  function Create(period: nat): (r: Result<RsiState>)
    ensures r.Ok? <==> period > 0
    ensures r.Err? ==> r.error == InvalidParameter
    ensures r.Ok? ==> r.value == RsiState(period, [])
  {
    if period == 0 then Err(InvalidParameter) else Ok(RsiState(period, []))
  }

  function Step(env: Externals.Env, s: RsiState, x: real): (r: (RsiState, real))
    ensures r.0 == RsiState(s.period, s.inputs + [x])
    ensures r.1 == env.rsi(s.period, r.0.inputs)
  {
    var inputs := s.inputs + [x];
    (RsiState(s.period, inputs), env.rsi(s.period, inputs))
  }

  function StepCandle(env: Externals.Env, s: RsiState, b: Candles.Bar): (r: (RsiState, real))
    ensures r == Step(env, s, b.close)
  {
    Step(env, s, b.close)
  }

  function Restart(s: RsiState): (r: RsiState)
    ensures r.period == s.period && r.inputs == []
    ensures s.period > 0 ==> r == Create(s.period).value
  {
    s.(inputs := [])
  }

  /** The period this indicator reports (its own `period()` in src/indicators/rsi.rs). */
  function Period(s: RsiState): nat { s.period }

  /** Two indices of the same period that saw the same inputs since their resets answer alike. */
  lemma SameHistorySameOutput(env: Externals.Env, s: RsiState, t: RsiState, x: real)
    requires s.period == t.period && s.inputs == t.inputs
    ensures Step(env, s, x) == Step(env, t, x)
  {
  }

  datatype RsiParams = RsiParams(period: nat)

  /** What this indicator's serde code in src/indicators/rsi.rs writes: the parameters, no running state. */
  function Encode(s: RsiState): RsiParams { RsiParams(s.period) }

  /** Reads the parameters back the way this indicator's serde code in src/indicators/rsi.rs does. */
  function Decode(p: RsiParams): (r: Result<RsiState>)
    ensures r == Create(p.period)
  {
    Create(p.period)
  }

  lemma DecodeEncode(s: RsiState)
    requires s.period > 0
    ensures Decode(Encode(s)) == Ok(Restart(s))
  {
  }
}
