/**
 * The average true range (src/indicators/atr.rs): an exponential moving
 * average of the true range.
 */
module Atr {
  import opened Wrappers
  import Numeric
  import Candles
  import Ema
  import Tr

  datatype AtrState = AtrState(trueRange: Tr.TrState, ema: Ema.EmaState)

  predicate Valid(s: AtrState) { Ema.Valid(s.ema) }

  function Create(period: nat): (r: Result<AtrState>)
    ensures r.Ok? <==> period > 0
    ensures r.Err? ==> r.error == InvalidParameter
    ensures r.Ok? ==> Valid(r.value) && r.value == AtrState(Tr.Create(), Ema.Create(period).value)
  {
    match Ema.Create(period)
    case Err(e) => Err(e)
    case Ok(ema) => Ok(AtrState(Tr.Create(), ema))
  }

  /** `next(bar)`: the true range of the bar, averaged. */
  function Step(s: AtrState, b: Candles.Bar): (r: (AtrState, real))
    ensures r.0.trueRange == Tr.Step(s.trueRange, b).0
    ensures (r.0.ema, r.1) == Ema.Step(s.ema, Tr.Step(s.trueRange, b).1)
    ensures Valid(s) ==> Valid(r.0)
  {
    var (tr, range) := Tr.Step(s.trueRange, b);
    var (ema, out) := Ema.Step(s.ema, range);
    (AtrState(tr, ema), out)
  }

  /** `next(x)`: the true range of the single value `x`, averaged. */
  function StepValue(s: AtrState, x: real): (r: (AtrState, real))
    ensures r == Step(s, Candles.ValueBar(x))
  {
    Step(s, Candles.ValueBar(x))
  }

  function Restart(s: AtrState): (r: AtrState)
    ensures r == AtrState(Tr.Create(), Ema.Restart(s.ema))
    ensures Valid(s) ==> r == Create(s.ema.period).value
  {
    AtrState(Tr.Restart(s.trueRange), Ema.Restart(s.ema))
  }

  /** The period is the average's. */
  function Period(s: AtrState): (p: nat)
    ensures p == Ema.Period(s.ema)
  {
    s.ema.period
  }

  /** The first output after construction or reset is the bar's high minus its low. */
  lemma FirstOutputIsRange(s: AtrState, b: Candles.Bar)
    ensures Step(Restart(s), b).1 == b.high - b.low
  {
  }

  /** Later outputs follow the average's recurrence on the true range. */
  lemma Recurrence(s: AtrState, b: Candles.Bar)
    requires !s.ema.isNew
    ensures Step(s, b).1 == s.ema.k * Tr.Range(s.trueRange.prevClose, b) + (1.0 - s.ema.k) * s.ema.current
  {
  }

  /** ATR(3) on (10, 7.5, 9), (11, 9, 9.5), (9, 5, 8) answers 2.5, 2.25, 3.375. */
  lemma PeriodThreeExample(o: real, p: real, v: Option<real>)
    ensures var s0 := Create(3).value;
            var (s1, a1) := Step(s0, Candles.Bar(o, 10.0, 7.5, 9.0, p, v));
            var (s2, a2) := Step(s1, Candles.Bar(o, 11.0, 9.0, 9.5, p, v));
            var (s3, a3) := Step(s2, Candles.Bar(o, 9.0, 5.0, 8.0, p, v));
            [a1, a2, a3] == [2.5, 2.25, 3.375]
  {
  }

  /** After a reset the next bar (60, 15, 51) answers its range 45, whatever came before. */
  lemma ResetExample(s: AtrState, o: real, p: real, v: Option<real>)
    ensures Step(Restart(s), Candles.Bar(o, 60.0, 15.0, 51.0, p, v)).1 == 45.0
  {
  }

  /** The persisted form holds only the period; reading it back goes through `new`. */
  datatype AtrParams = AtrParams(period: nat)

  /** What this indicator's serde code in src/indicators/atr.rs writes: the parameters, no running state. */
  function Encode(s: AtrState): AtrParams { AtrParams(s.ema.period) }

  /** Reads the parameters back the way this indicator's serde code in src/indicators/atr.rs does. */
  function Decode(p: AtrParams): (r: Result<AtrState>)
    ensures r == Create(p.period)
  {
    Create(p.period)
  }

  lemma DecodeEncode(s: AtrState)
    requires Valid(s)
    ensures Decode(Encode(s)) == Ok(Restart(s))
  {
  }

  /** The indicator of the source: a true range object and an average object. */
  class AverageTrueRange {
    var trueRange: Tr.TrueRange
    var ema: Ema.ExponentialMovingAverage

    function State(): AtrState reads this, trueRange, ema { AtrState(trueRange.State(), ema.State()) }

    constructor Init(tr: Tr.TrueRange, ema: Ema.ExponentialMovingAverage)
      ensures trueRange == tr && this.ema == ema
    {
      trueRange, this.ema := tr, ema;
    }

    static method New(period: nat) returns (r: Result<AverageTrueRange>)
      ensures r.Ok? <==> period > 0
      ensures r.Err? ==> r.error == InvalidParameter
      ensures r.Ok? ==> fresh(r.value) && fresh(r.value.trueRange) && fresh(r.value.ema)
      ensures r.Ok? ==> r.value.State() == Create(period).value
    {
      var tr := new Tr.TrueRange();
      var e := Ema.ExponentialMovingAverage.New(period);
      if e.Err? {
        return Err(e.error);
      }
      var a := new AverageTrueRange.Init(tr, e.value);
      return Ok(a);
    }

    /** `Default`: period 14. */
    static method Default() returns (a: AverageTrueRange)
      ensures fresh(a) && fresh(a.trueRange) && fresh(a.ema) && a.State() == Create(14).value
    {
      var r := New(14);
      a := r.value;
    }

    method Next(b: Candles.Bar) returns (out: real)
      modifies trueRange, ema
      ensures (State(), out) == Step(old(State()), b)
    {
      var range := trueRange.Next(b);
      out := ema.Next(range);
    }

    method NextValue(x: real) returns (out: real)
      modifies trueRange, ema
      ensures (State(), out) == StepValue(old(State()), x)
    {
      var range := trueRange.NextValue(x);
      out := ema.Next(range);
    }

    method Reset()
      modifies trueRange, ema
      ensures State() == Restart(old(State()))
    {
      trueRange.Reset();
      ema.Reset();
    }

    function Period(): nat reads this, ema { ema.Period() }
  }
}
