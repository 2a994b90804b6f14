/**
 * The super trend bands (src/indicators/super_trend.rs): a centre and bands
 * `multiplier` average true ranges above and below it.  A single value is its
 * own centre; a candle's centre is (high + low) / 2 while the true range
 * average sees the whole candle.
 */
module SuperTrend {
  import opened Wrappers
  import Numeric
  import Candles
  import Atr
  import Tr
  import Ema

  datatype SuperTrendState = SuperTrendState(multiplier: real, atr: Atr.AtrState)

  datatype SuperTrendOutput = SuperTrendOutput(upper: real, lower: real)

  predicate Valid(s: SuperTrendState) { Atr.Valid(s.atr) }

  function Create(multiplier: real, period: nat): (r: Result<SuperTrendState>)
    ensures r.Ok? <==> period > 0
    ensures r.Err? ==> r.error == InvalidParameter
    ensures r.Ok? ==> Valid(r.value) && r.value == SuperTrendState(multiplier, Atr.Create(period).value)
  {
    match Atr.Create(period)
    case Err(e) => Err(e)
    case Ok(atr) => Ok(SuperTrendState(multiplier, atr))
  }

  /** The bands around `centre` for a true range average `atr`. */
  function Bands(centre: real, atr: real, multiplier: real): (o: SuperTrendOutput)
    ensures o.upper - centre == centre - o.lower == multiplier * atr
  {
    SuperTrendOutput(centre + multiplier * atr, centre - multiplier * atr)
  }

  /** `next(x)`: `x` is the centre and feeds the true range average. */
  function Step(s: SuperTrendState, x: real): (r: (SuperTrendState, SuperTrendOutput))
    ensures r.0 == s.(atr := Atr.StepValue(s.atr, x).0)
    ensures r.1 == Bands(x, Atr.StepValue(s.atr, x).1, s.multiplier)
    ensures Valid(s) ==> Valid(r.0)
  {
    var (atr, a) := Atr.StepValue(s.atr, x);
    (s.(atr := atr), Bands(x, a, s.multiplier))
  }

  /** `next(candle)`: the true range average sees the candle, the centre is its median price. */
  function StepCandle(s: SuperTrendState, b: Candles.Bar): (r: (SuperTrendState, SuperTrendOutput))
    ensures r.0 == s.(atr := Atr.Step(s.atr, b).0)
    ensures r.1 == Bands((b.high + b.low) / 2.0, Atr.Step(s.atr, b).1, s.multiplier)
    ensures Valid(s) ==> Valid(r.0)
  {
    var (atr, a) := Atr.Step(s.atr, b);
    (s.(atr := atr), Bands((b.high + b.low) / 2.0, a, s.multiplier))
  }

  /** `reset` resets only the true range average. */
  function Restart(s: SuperTrendState): (r: SuperTrendState)
    ensures r == s.(atr := Atr.Restart(s.atr))
    ensures Valid(s) ==> r == Create(s.multiplier, Atr.Period(s.atr)).value
  {
    s.(atr := Atr.Restart(s.atr))
  }

  /** The period is the true range average's. */
  function Period(s: SuperTrendState): (p: nat)
    ensures p == Atr.Period(s.atr)
  {
    Atr.Period(s.atr)
  }

  /** The output as a vector: lower band first, then upper band. */
  function ToVec(o: SuperTrendOutput): (v: seq<real>)
    ensures |v| == 2 && v[0] == o.lower && v[1] == o.upper
  {
    [o.lower, o.upper]
  }

  /** The first output after construction or reset: a value gives both bands at the value. */
  lemma FirstValueOutput(s: SuperTrendState, x: real)
    ensures Step(Restart(s), x).1 == SuperTrendOutput(x, x)
  {
  }

  /** ... and a candle gives the median price plus and minus `multiplier` times its range. */
  lemma FirstCandleOutput(s: SuperTrendState, b: Candles.Bar)
    ensures var c := (b.high + b.low) / 2.0; var d := s.multiplier * (b.high - b.low);
            StepCandle(Restart(s), b).1 == SuperTrendOutput(c + d, c - d)
  {
  }

  /** For ordered bars and a non-negative multiplier the lower band is never above the upper. */
  lemma CandleBandsOrdered(s: SuperTrendState, b: Candles.Bar)
    requires Valid(s) && s.multiplier >= 0.0 && s.atr.ema.current >= 0.0 && b.low <= b.high
    ensures StepCandle(s, b).1.lower <= StepCandle(s, b).1.upper
    ensures StepCandle(s, b).0.atr.ema.current >= 0.0
  {
    Tr.NonNegative(s.atr.trueRange, b);
    if !s.atr.ema.isNew {
      Ema.BetweenPreviousAndInput(s.atr.ema, Tr.Step(s.atr.trueRange, b).1);
    }
    Numeric.MulNonNegative(s.multiplier, Atr.Step(s.atr, b).1);
  }

  /** The persisted form: multiplier and period; reading it back builds the average. */
  datatype SuperTrendParams = SuperTrendParams(multiplier: real, period: nat)

  /** What this indicator's serde code in src/indicators/super_trend.rs writes: the parameters, no running state. */
  function Encode(s: SuperTrendState): SuperTrendParams { SuperTrendParams(s.multiplier, Period(s)) }

  /** Reads the parameters back the way this indicator's serde code in src/indicators/super_trend.rs does. */
  function Decode(p: SuperTrendParams): (r: Result<SuperTrendState>)
    ensures r == Create(p.multiplier, p.period)
  {
    match Atr.Create(p.period)
    case Err(e) => Err(e)
    case Ok(atr) => Ok(SuperTrendState(p.multiplier, atr))
  }

  lemma DecodeEncode(s: SuperTrendState)
    requires Valid(s)
    ensures Decode(Encode(s)) == Ok(Restart(s))
  {
  }

  /** The indicator of the source: the multiplier and an ATR object. */
  class SuperTrend {
    var multiplier: real
    var atr: Atr.AverageTrueRange

    function State(): SuperTrendState reads this, atr, atr.trueRange, atr.ema
    {
      SuperTrendState(multiplier, atr.State())
    }

    constructor Init(multiplier: real, atr: Atr.AverageTrueRange)
      ensures this.multiplier == multiplier && this.atr == atr
    {
      this.multiplier, this.atr := multiplier, atr;
    }

    static method New(multiplier: real, period: nat) returns (r: Result<SuperTrend>)
      ensures r.Ok? <==> period > 0
      ensures r.Err? ==> r.error == InvalidParameter
      ensures r.Ok? ==> fresh(r.value) && fresh(r.value.atr) && fresh(r.value.atr.trueRange) && fresh(r.value.atr.ema)
      ensures r.Ok? ==> r.value.State() == Create(multiplier, period).value
    {
      var a := Atr.AverageTrueRange.New(period);
      if a.Err? {
        return Err(a.error);
      }
      var st := new SuperTrend.Init(multiplier, a.value);
      return Ok(st);
    }

    /** `Default`: multiplier 3, period 10. */
    static method Default() returns (st: SuperTrend)
      ensures fresh(st) && fresh(st.atr) && fresh(st.atr.trueRange) && fresh(st.atr.ema)
      ensures st.State() == Create(3.0, 10).value
    {
      var r := New(3.0, 10);
      st := r.value;
    }

    method Next(input: real) returns (out: SuperTrendOutput)
      modifies atr.trueRange, atr.ema
      ensures (State(), out) == Step(old(State()), input)
    {
      var a := atr.NextValue(input);
      out := Bands(input, a, multiplier);
    }

    method NextCandle(b: Candles.Bar) returns (out: SuperTrendOutput)
      modifies atr.trueRange, atr.ema
      ensures (State(), out) == StepCandle(old(State()), b)
    {
      var a := atr.Next(b);
      out := Bands((b.high + b.low) / 2.0, a, multiplier);
    }

    method Reset()
      modifies atr.trueRange, atr.ema
      ensures State() == Restart(old(State()))
    {
      atr.Reset();
    }

    function Period(): nat reads this, atr, atr.ema { atr.Period() }
  }
}
