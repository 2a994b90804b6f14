/**
 * The awesome oscillator (src/indicators/ao.rs): a short simple moving average
 * minus a long one, both fed the same value; a candle feeds its median price.
 */
module Ao {
  import opened Wrappers
  import Numeric
  import Candles
  import Sma

  datatype AoState = AoState(long: Sma.SmaState, short: Sma.SmaState)

  predicate Valid(s: AoState) { Sma.Valid(s.long) && Sma.Valid(s.short) }

  /** `new(short, long)`: the long average is built first, so its refusal comes first. */
  function Create(short: nat, long: nat): (r: Result<AoState>)
    ensures r.Ok? <==> short > 0 && long > 0
    ensures r.Err? ==> r.error == InvalidParameter
    ensures r.Ok? ==> Valid(r.value) && r.value == AoState(Sma.Create(long).value, Sma.Create(short).value)
  {
    match Sma.Create(long)
    case Err(e) => Err(e)
    case Ok(l) =>
      match Sma.Create(short)
      case Err(e) => Err(e)
      case Ok(sh) => Ok(AoState(l, sh))
  }

  /** `next(x)`: the short average's output minus the long one's. */
  function Step(s: AoState, x: real): (r: (AoState, real))
    requires s.long.period > 0 && s.short.period > 0
    ensures r.0 == AoState(Sma.Step(s.long, x).0, Sma.Step(s.short, x).0)
    ensures r.1 == Sma.Step(s.short, x).1 - Sma.Step(s.long, x).1
    ensures Valid(s) ==> Valid(r.0)
  {
    var (sh, sv) := Sma.Step(s.short, x);
    var (l, lv) := Sma.Step(s.long, x);
    (AoState(l, sh), sv - lv)
  }

  /** The median price (high + low) / 2 of a bar. */
  function MedianPrice(b: Candles.Bar): real { (b.high + b.low) / 2.0 }

  /** `next(candle)`: both averages are fed the median price. */
  function StepCandle(s: AoState, b: Candles.Bar): (r: (AoState, real))
    requires s.long.period > 0 && s.short.period > 0
    ensures r == Step(s, MedianPrice(b))
  {
    Step(s, MedianPrice(b))
  }

  /** The period is the larger of the two averages' periods. */
  function Period(s: AoState): (p: nat)
    ensures p >= s.long.period && p >= s.short.period
    ensures p == s.long.period || p == s.short.period
  {
    if s.long.period >= s.short.period then s.long.period else s.short.period
  }

  function Restart(s: AoState): (r: AoState)
    ensures r == AoState(Sma.Restart(s.long), Sma.Restart(s.short))
    ensures Valid(s) ==> r == Create(s.short.period, s.long.period).value
  {
    AoState(Sma.Restart(s.long), Sma.Restart(s.short))
  }

  /** Feeds `xs` in order through this indicator's own `next` in src/indicators/ao.rs; the final state and the outputs. */
  function Feed(s: AoState, xs: seq<real>): (r: (AoState, seq<real>))
    requires s.long.period > 0 && s.short.period > 0
    ensures r.0.long.period == s.long.period && r.0.short.period == s.short.period && |r.1| == |xs|
    decreases |xs|
  {
    if |xs| == 0 then (s, [])
    else
      var (s1, outs) := Feed(s, xs[..|xs| - 1]);
      var (s2, o) := Step(s1, xs[|xs| - 1]);
      (s2, outs + [o])
  }

  /** The two averages run on the same inputs as the oscillator. */
  lemma {:induction false} FeedRunsAverages(s: AoState, xs: seq<real>)
    requires s.long.period > 0 && s.short.period > 0
    ensures Feed(s, xs).0 == AoState(Sma.Feed(s.long, xs).0, Sma.Feed(s.short, xs).0)
    decreases |xs|
  {
    if |xs| > 0 {
      FeedRunsAverages(s, xs[..|xs| - 1]);
    }
  }

  /**
   * From construction, each output is the mean of the last `min(n, short)`
   * inputs minus the mean of the last `min(n, long)` inputs.
   */
  lemma DifferenceOfWindowMeans(short: nat, long: nat, xs: seq<real>)
    requires short > 0 && long > 0 && |xs| > 0
    ensures Feed(Create(short, long).value, xs).1[|xs| - 1]
            == Numeric.Mean(Numeric.Window(xs, short)) - Numeric.Mean(Numeric.Window(xs, long))
  {
    var s0 := Create(short, long).value;
    LastOutput(s0, xs);
    Sma.FeedWindow(short, xs);
    Sma.FeedWindow(long, xs);
  }

  /** Each output is the short average's output minus the long one's on the same inputs. */
  lemma LastOutput(s: AoState, xs: seq<real>)
    requires s.long.period > 0 && s.short.period > 0 && |xs| > 0
    ensures Feed(s, xs).1[|xs| - 1] == Sma.Feed(s.short, xs).1[|xs| - 1] - Sma.Feed(s.long, xs).1[|xs| - 1]
  {
    var init, x := xs[..|xs| - 1], xs[|xs| - 1];
    FeedRunsAverages(s, init);
    var before := Feed(s, init);
    assert Feed(s, xs).1[|xs| - 1] == Step(before.0, x).1;
    assert Sma.Feed(s.short, xs).1[|xs| - 1] == Sma.Step(Sma.Feed(s.short, init).0, x).1;
    assert Sma.Feed(s.long, xs).1[|xs| - 1] == Sma.Step(Sma.Feed(s.long, init).0, x).1;
  }

  /** With equal periods the two averages agree and the oscillator answers 0. */
  lemma EqualPeriodsGiveZero(p: nat, xs: seq<real>)
    requires p > 0 && |xs| > 0
    ensures Feed(Create(p, p).value, xs).1[|xs| - 1] == 0.0
  {
    DifferenceOfWindowMeans(p, p, xs);
  }

  /** The first output after construction or reset is 0. */
  lemma FirstOutputIsZero(s: AoState, x: real)
    requires s.long.period > 0 && s.short.period > 0
    ensures Step(Restart(s), x).1 == 0.0
  {
    Sma.FirstOutputIsInput(s.short, x);
    Sma.FirstOutputIsInput(s.long, x);
  }

  /** The persisted form is the two periods; reading it back goes through `new`. */
  datatype AoParams = AoParams(shortPeriod: nat, longPeriod: nat)

  /** What this indicator's serde code in src/indicators/ao.rs writes: the parameters, no running state. */
  function Encode(s: AoState): AoParams { AoParams(s.short.period, s.long.period) }

  /** Reads the parameters back the way this indicator's serde code in src/indicators/ao.rs does. */
  function Decode(p: AoParams): (r: Result<AoState>)
    ensures r == Create(p.shortPeriod, p.longPeriod)
  {
    Create(p.shortPeriod, p.longPeriod)
  }

  lemma DecodeEncode(s: AoState)
    requires Valid(s)
    ensures Decode(Encode(s)) == Ok(Restart(s))
  {
  }

  /** The oscillator of the source: two moving-average objects. */
  class AwesomeOscillator {
    var longSma: Sma.SimpleMovingAverage
    var shortSma: Sma.SimpleMovingAverage

    function State(): AoState reads this, longSma, shortSma { AoState(longSma.State(), shortSma.State()) }

    constructor Init(longSma: Sma.SimpleMovingAverage, shortSma: Sma.SimpleMovingAverage)
      ensures this.longSma == longSma && this.shortSma == shortSma
    {
      this.longSma, this.shortSma := longSma, shortSma;
    }

    static method New(short: nat, long: nat) returns (r: Result<AwesomeOscillator>)
      ensures r.Ok? <==> short > 0 && long > 0
      ensures r.Err? ==> r.error == InvalidParameter
      ensures r.Ok? ==> fresh(r.value) && fresh(r.value.longSma) && fresh(r.value.shortSma)
      ensures r.Ok? ==> r.value.longSma != r.value.shortSma && r.value.State() == Create(short, long).value
    {
      var l := Sma.SimpleMovingAverage.New(long);
      if l.Err? {
        return Err(l.error);
      }
      var sh := Sma.SimpleMovingAverage.New(short);
      if sh.Err? {
        return Err(sh.error);
      }
      var ao := new AwesomeOscillator.Init(l.value, sh.value);
      return Ok(ao);
    }

    method Next(input: real) returns (out: real)
      requires longSma != shortSma && longSma.period > 0 && shortSma.period > 0
      modifies longSma, shortSma
      ensures State() == Step(old(State()), input).0 && out == Step(old(State()), input).1
    {
      var shortValue := shortSma.Next(input);
      var longValue := longSma.Next(input);
      out := shortValue - longValue;
    }

    method NextCandle(b: Candles.Bar) returns (out: real)
      requires longSma != shortSma && longSma.period > 0 && shortSma.period > 0
      modifies longSma, shortSma
      ensures State() == StepCandle(old(State()), b).0 && out == StepCandle(old(State()), b).1
    {
      var mp := (b.high + b.low) / 2.0;
      out := Next(mp);
    }

    method Reset()
      requires longSma != shortSma
      modifies longSma, shortSma
      ensures State() == Restart(old(State()))
    {
      longSma.Reset();
      shortSma.Reset();
    }

    /** The larger of the two averages' periods. */
    function Period(): nat reads this, longSma, shortSma
    {
      if longSma.period >= shortSma.period then longSma.period else shortSma.period
    }
  }
}
