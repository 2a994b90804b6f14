/**
 * The Keltner channel (src/indicators/kc.rs): an exponential moving average
 * as middle band and bands `multiplier` average true ranges above and below.
 * A candle is reduced to its typical price before anything else, so both the
 * average and the true range only ever see single values.
 */
module Kc {
  import opened Wrappers
  import Numeric
  import Candles
  import Ema
  import Atr
  import Tr

  datatype KcState = KcState(multiplier: real, atr: Atr.AtrState, ema: Ema.EmaState)

  datatype KcOutput = KcOutput(upper: real, middle: real, lower: real)

  /** Both sub-indicators are constructed ones of the same period. */
  predicate Valid(s: KcState) { Atr.Valid(s.atr) && Ema.Valid(s.ema) && s.atr.ema.period == s.ema.period }

  function Create(period: nat, multiplier: real): (r: Result<KcState>)
    ensures r.Ok? <==> period > 0
    ensures r.Err? ==> r.error == InvalidParameter
    ensures r.Ok? ==> Valid(r.value) && r.value.multiplier == multiplier
                      && r.value.atr == Atr.Create(period).value && r.value.ema == Ema.Create(period).value
  {
    if period == 0 then Err(InvalidParameter)
    else
      match Atr.Create(period)
      case Err(e) => Err(e)
      case Ok(atr) =>
        match Ema.Create(period)
        case Err(e) => Err(e)
        case Ok(ema) => Ok(KcState(multiplier, atr, ema))
  }

  /** The channel around `middle` for a true range average `atr`. */
  function Bands(middle: real, atr: real, multiplier: real): (o: KcOutput)
    ensures o.middle == middle
    ensures o.upper - o.middle == o.middle - o.lower == multiplier * atr
  {
    KcOutput(middle + multiplier * atr, middle, middle - multiplier * atr)
  }

  /** `next(x)`: the same value feeds the true range average and the middle average. */
  function Step(s: KcState, x: real): (r: (KcState, KcOutput))
    ensures (r.0.atr, r.0.ema) == (Atr.StepValue(s.atr, x).0, Ema.Step(s.ema, x).0)
    ensures r.0.multiplier == s.multiplier
    ensures r.1 == Bands(Ema.Step(s.ema, x).1, Atr.StepValue(s.atr, x).1, s.multiplier)
    ensures Valid(s) ==> Valid(r.0)
  {
    var (atr, atrValue) := Atr.StepValue(s.atr, x);
    var (ema, emaValue) := Ema.Step(s.ema, x);
    (KcState(s.multiplier, atr, ema), Bands(emaValue, atrValue, s.multiplier))
  }

  /** A candle feeds its typical price (high + low + close) / 3. */
  function StepCandle(s: KcState, b: Candles.Bar): (r: (KcState, KcOutput))
    ensures r == Step(s, Candles.TypicalPrice(b))
  {
    Step(s, (b.high + b.low + b.close) / 3.0)
  }

  /** `reset` resets both averages; the multiplier stays. */
  function Restart(s: KcState): (r: KcState)
    ensures r == KcState(s.multiplier, Atr.Restart(s.atr), Ema.Restart(s.ema))
    ensures Valid(s) ==> r == Create(s.ema.period, s.multiplier).value
  {
    KcState(s.multiplier, Atr.Restart(s.atr), Ema.Restart(s.ema))
  }

  /** The period is the middle average's. */
  function Period(s: KcState): (p: nat)
    ensures p == Ema.Period(s.ema)
  {
    s.ema.period
  }

  /** The output as a vector: upper, middle, lower. */
  function ToVec(o: KcOutput): (v: seq<real>)
    ensures |v| == 3 && v[0] == o.upper && v[1] == o.middle && v[2] == o.lower
  {
    [o.upper, o.middle, o.lower]
  }

  /** The true range average has only seen non-negative ranges. */
  predicate RangeNonNegative(s: KcState) { s.atr.ema.current >= 0.0 }

  lemma StepKeepsRangeNonNegative(s: KcState, x: real)
    requires Valid(s) && RangeNonNegative(s)
    ensures RangeNonNegative(Step(s, x).0)
    ensures Atr.StepValue(s.atr, x).1 >= 0.0
  {
    var b := Candles.ValueBar(x);
    Tr.NonNegative(s.atr.trueRange, b);
    if !s.atr.ema.isNew {
      Ema.BetweenPreviousAndInput(s.atr.ema, Tr.Step(s.atr.trueRange, b).1);
    }
  }

  /** With a non-negative multiplier the middle band lies between the others. */
  lemma Ordered(s: KcState, x: real)
    requires Valid(s) && RangeNonNegative(s) && s.multiplier >= 0.0
    ensures var o := Step(s, x).1; o.lower <= o.middle <= o.upper
  {
    StepKeepsRangeNonNegative(s, x);
    Numeric.MulNonNegative(s.multiplier, Atr.StepValue(s.atr, x).1);
  }

  /** A constructed or reset channel satisfies the invariant. */
  lemma RestartRangeNonNegative(s: KcState)
    ensures RangeNonNegative(Restart(s))
  {
  }

  /** The first output after construction or reset is the input on all three bands. */
  lemma FirstOutputIsInput(s: KcState, x: real)
    ensures Step(Restart(s), x).1 == KcOutput(x, x, x)
  {
  }

  /** The persisted form: the period and the multiplier; reading it back builds both averages. */
  datatype KcParams = KcParams(period: nat, multiplier: real)

  /** What this indicator's serde code in src/indicators/kc.rs writes: the parameters, no running state. */
  function Encode(s: KcState): KcParams { KcParams(s.ema.period, s.multiplier) }

  /** Reads the parameters back the way this indicator's serde code in src/indicators/kc.rs does. */
  function Decode(p: KcParams): (r: Result<KcState>)
    ensures r == Create(p.period, p.multiplier)
  {
    match Atr.Create(p.period)
    case Err(e) => Err(e)
    case Ok(atr) =>
      match Ema.Create(p.period)
      case Err(e) => Err(e)
      case Ok(ema) => Ok(KcState(p.multiplier, atr, ema))
  }

  lemma DecodeEncode(s: KcState)
    requires Valid(s)
    ensures Decode(Encode(s)) == Ok(Restart(s))
  {
  }

  /** The channel of the source: the multiplier, an ATR object and an EMA object. */
  class KeltnerChannel {
    var multiplier: real
    var atr: Atr.AverageTrueRange
    var ema: Ema.ExponentialMovingAverage

    /** The middle average is not the one inside the true range average. */
    predicate Separate() reads this, atr { atr.ema != ema }

    function State(): KcState reads this, atr, atr.trueRange, atr.ema, ema
    {
      KcState(multiplier, atr.State(), ema.State())
    }

    constructor Init(multiplier: real, atr: Atr.AverageTrueRange, ema: Ema.ExponentialMovingAverage)
      ensures this.multiplier == multiplier && this.atr == atr && this.ema == ema
    {
      this.multiplier, this.atr, this.ema := multiplier, atr, ema;
    }

    static method New(period: nat, multiplier: real) returns (r: Result<KeltnerChannel>)
      ensures r.Ok? <==> period > 0
      ensures r.Err? ==> r.error == InvalidParameter
      ensures r.Ok? ==> fresh(r.value) && fresh(r.value.atr) && fresh(r.value.atr.trueRange)
                        && fresh(r.value.atr.ema) && fresh(r.value.ema)
      ensures r.Ok? ==> r.value.Separate() && r.value.State() == Create(period, multiplier).value
    {
      if period == 0 {
        return Err(InvalidParameter);
      }
      var a := Atr.AverageTrueRange.New(period);
      var e := Ema.ExponentialMovingAverage.New(period);
      var kc := new KeltnerChannel.Init(multiplier, a.value, e.value);
      return Ok(kc);
    }

    /** `Default`: period 10, multiplier 2. */
    static method Default() returns (kc: KeltnerChannel)
      ensures fresh(kc) && fresh(kc.atr) && fresh(kc.atr.trueRange) && fresh(kc.atr.ema) && fresh(kc.ema)
      ensures kc.Separate() && kc.State() == Create(10, 2.0).value
    {
      var r := New(10, 2.0);
      kc := r.value;
    }

    function Multiplier(): real reads this { multiplier }

    method Next(input: real) returns (out: KcOutput)
      requires Separate()
      modifies atr.trueRange, atr.ema, ema
      ensures (State(), out) == Step(old(State()), input)
    {
      var atrValue := atr.NextValue(input);
      var emaValue := ema.Next(input);
      out := Bands(emaValue, atrValue, multiplier);
    }

    method NextCandle(b: Candles.Bar) returns (out: KcOutput)
      requires Separate()
      modifies atr.trueRange, atr.ema, ema
      ensures (State(), out) == StepCandle(old(State()), b)
    {
      var tp := (b.high + b.low + b.close) / 3.0;
      out := Next(tp);
    }

    method Reset()
      requires Separate()
      modifies atr.trueRange, atr.ema, ema
      ensures State() == Restart(old(State()))
    {
      atr.Reset();
      ema.Reset();
    }

    function Period(): nat reads this, ema { ema.Period() }
  }
}
