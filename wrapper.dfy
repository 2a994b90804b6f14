/**
 * The indicator wrapper of the strategy layer (src/strategy/wrapper.rs): an
 * indicator together with the last output it produced, so that conditions can
 * look back one step.
 */
module Wrapper {
  import opened Wrappers
  import opened Output
  import Externals
  import Candles
  import IndicatorEnum

  /** The cached output as a result: `NotInitialized` until an update succeeded. */
  function Previous(previous: Option<OutputType>): (r: Result<OutputType>)
    ensures r.Ok? <==> previous.Some?
    ensures r.Ok? ==> r.value == previous.value
    ensures r.Err? ==> r.error == NotInitialized
  {
    if previous.Some? then Ok(previous.value) else Err(NotInitialized)
  }

  class IndicatorState {
    var indicator: IndicatorEnum.Indicator
    var previousOutput: Option<OutputType>

    /** `new` and `From<Indicator>`: nothing cached yet. */
    constructor New(indicator: IndicatorEnum.Indicator)
      ensures this.indicator == indicator && previousOutput.None?
    {
      this.indicator, previousOutput := indicator, Option.None;
    }

    /** `Default`: the pass-through indicator, nothing cached. */
    constructor Default()
      ensures indicator == IndicatorEnum.Default() && previousOutput.None?
    {
      indicator, previousOutput := IndicatorEnum.Default(), Option.None;
    }

    /** The wrapper deserialisation builds: the indicator read back, nothing cached. */
    constructor Decoded(indicator: IndicatorEnum.Indicator)
      ensures this.indicator == indicator && previousOutput.None?
    {
      this.indicator, previousOutput := indicator, Option.None;
    }

    /**
     * Deserialising reads the indicator back through the indicator's reader,
     * failing when that fails, and starts with an empty cache.
     */
    static method Decode(e: IndicatorEnum.Encoded) returns (r: Result<IndicatorState>)
      ensures r.Ok? <==> IndicatorEnum.Decode(e).Ok?
      ensures r.Err? ==> r.error == IndicatorEnum.Decode(e).error
      ensures r.Ok? ==> fresh(r.value) && r.value.indicator == IndicatorEnum.Decode(e).value
                        && r.value.previousOutput.None?
    {
      var d := IndicatorEnum.Decode(e);
      if d.Err? {
        return Err(d.error);
      }
      var w := new IndicatorState.Decoded(d.value);
      return Ok(w);
    }

    /**
     * What serialisation writes: the indicator's form alone, so that the
     * cache is lost and the indicator reads back reset.
     */
    function Encode(): (e: IndicatorEnum.Encoded)
      reads this
      ensures e == IndicatorEnum.Encode(indicator)
      ensures IndicatorEnum.Valid(indicator) ==> IndicatorEnum.Decode(e) == Ok(IndicatorEnum.Restart(indicator))
    {
      var e := IndicatorEnum.Encode(indicator);
      if IndicatorEnum.Valid(indicator) then IndicatorEnum.DecodeEncode(indicator); e else e
    }

    /** `prev`. */
    function Prev(): (r: Result<OutputType>)
      reads this
      ensures r == Previous(previousOutput)
    {
      Previous(previousOutput)
    }

    function Period(env: Externals.Env): (p: nat)
      reads this
      ensures p == IndicatorEnum.Period(env, indicator)
    {
      IndicatorEnum.Period(env, indicator)
    }

    /**
     * `update` on a single value: the indicator steps; on success the output
     * becomes the cached one, on failure the cache is kept.
     */
    method Update(env: Externals.Env, x: real) returns (r: Result<()>)
      requires IndicatorEnum.Valid(indicator)
      modifies this
      ensures indicator == IndicatorEnum.NextValue(env, old(indicator), x).0
      ensures IndicatorEnum.Valid(indicator)
      ensures var o := IndicatorEnum.NextValue(env, old(indicator), x).1;
              (o.Ok? ==> r == Ok(()) && previousOutput == Some(o.value))
              && (o.Err? ==> r == Err(o.error) && previousOutput == old(previousOutput))
    {
      var (next, o) := IndicatorEnum.NextValue(env, indicator, x);
      indicator := next;
      if o.Err? {
        return Err(o.error);
      }
      previousOutput := Some(o.value);
      return Ok(());
    }

    /** `update` on a candle; indicators never refuse one, so the update always caches. */
    method UpdateCandle(env: Externals.Env, b: Candles.Bar) returns (r: Result<()>)
      requires IndicatorEnum.Valid(indicator)
      modifies this
      ensures indicator == IndicatorEnum.NextCandle(env, old(indicator), b).0
      ensures IndicatorEnum.Valid(indicator)
      ensures r == Ok(()) && previousOutput == Some(IndicatorEnum.NextCandle(env, old(indicator), b).1.value)
    {
      var (next, o) := IndicatorEnum.NextCandle(env, indicator, b);
      indicator := next;
      previousOutput := Some(o.value);
      return Ok(());
    }

    /** `reset`: the indicator resets and the cache empties. */
    method Reset()
      requires IndicatorEnum.Valid(indicator)
      modifies this
      ensures indicator == IndicatorEnum.Restart(old(indicator)) && previousOutput.None?
    {
      indicator := IndicatorEnum.Restart(indicator);
      previousOutput := Option.None;
    }
  }

  /**
   * A wrapper read back from its serialised form holds its indicator reset and
   * has lost its cache: its parameters survive, its running state does not.
   */
  method DecodeEncode(w: IndicatorState) returns (back: Result<IndicatorState>)
    requires IndicatorEnum.Valid(w.indicator)
    ensures back.Ok? && fresh(back.value)
    ensures back.value.indicator == IndicatorEnum.Restart(w.indicator)
    ensures back.value.Prev() == Err(NotInitialized)
  {
    back := IndicatorState.Decode(w.Encode());
  }

  /**
   * On an EMA(3) that has seen 2, a round-trip through the serialised form
   * answers 4 to the input 4, as a fresh average does, where the wrapper
   * itself answers 3.
   */
  method RoundTripRestartsEma(env: Externals.Env) returns (kept: Result<OutputType>, readBack: Result<OutputType>)
    ensures kept == Ok(Single(3.0)) && readBack == Ok(Single(4.0))
  {
    var ind := IndicatorEnum.NewEma(3).value;
    var w := new IndicatorState.New(ind);
    var u := w.Update(env, 2.0);
    var back := DecodeEncode(w);
    var w2 := back.value;
    u := w.Update(env, 4.0);
    kept := w.Prev();
    u := w2.Update(env, 4.0);
    readBack := w2.Prev();
  }

  /** `prev` after a successful update answers exactly the output of that update. */
  method PrevAfterUpdate(env: Externals.Env, ind: IndicatorEnum.Indicator, x: real) returns (r: Result<OutputType>)
    requires IndicatorEnum.Valid(ind) && !ind.Stoch? && !ind.Obv?
    ensures r == IndicatorEnum.NextValue(env, ind, x).1
  {
    var w := new IndicatorState.New(ind);
    var u := w.Update(env, x);
    r := w.Prev();
  }

  /** A failed update leaves `prev` as it was: after a refused value a fresh wrapper still has nothing cached. */
  method PrevAfterRefusedUpdate(env: Externals.Env, ind: IndicatorEnum.Indicator, x: real) returns (r: Result<OutputType>)
    requires IndicatorEnum.Valid(ind) && (ind.Stoch? || ind.Obv?)
    ensures r == Err(NotInitialized)
  {
    var w := new IndicatorState.New(ind);
    var u := w.Update(env, x);
    r := w.Prev();
  }
}
