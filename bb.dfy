/**
 * Bollinger bands (src/indicators/bb.rs): the running mean of a standard
 * deviation sub-indicator, with bands `multiplier` deviations above and below.
 */
module Bb {
  import opened Wrappers
  import Numeric
  import Externals
  import Candles
  import Sd

  datatype BbState = BbState(period: nat, multiplier: real, sd: Sd.SdState)

  datatype BbOutput = BbOutput(average: real, upper: real, lower: real)

  /** The deviation sub-indicator is a constructed one of the same period. */
  predicate Valid(s: BbState) { Sd.Valid(s.sd) && s.sd.period == s.period }

  function Create(period: nat, multiplier: real): (r: Result<BbState>)
    ensures r.Ok? <==> period > 0
    ensures r.Err? ==> r.error == InvalidParameter
    ensures r.Ok? ==> Valid(r.value) && r.value.period == period && r.value.multiplier == multiplier
    ensures r.Ok? ==> r.value.sd == Sd.Create(period).value
  {
    match Sd.Create(period)
    case Err(e) => Err(e)
    case Ok(sd) => Ok(BbState(period, multiplier, sd))
  }

  /** The bands around a mean `mean` for a deviation `dev`. */
  function Bands(mean: real, dev: real, multiplier: real): (o: BbOutput)
    ensures o.average == mean
    ensures o.upper - o.average == o.average - o.lower == dev * multiplier
  {
    BbOutput(mean, mean + dev * multiplier, mean - dev * multiplier)
  }

  /** `next(input)`: advance the deviation, then band its mean. */
  function Step(env: Externals.Env, s: BbState, x: real): (r: (BbState, BbOutput))
    requires Valid(s)
    ensures Valid(r.0) && r.0.period == s.period && r.0.multiplier == s.multiplier
    ensures r.0.sd == Sd.Step(env, s.sd, x).0
    ensures r.1 == Bands(Sd.MeanOf(r.0.sd), Sd.Step(env, s.sd, x).1, s.multiplier)
  {
    var (sd, dev) := Sd.Step(env, s.sd, x);
    (s.(sd := sd), Bands(Sd.MeanOf(sd), dev, s.multiplier))
  }

  /** A candle feeds its close. */
  function StepCandle(env: Externals.Env, s: BbState, b: Candles.Bar): (r: (BbState, BbOutput))
    requires Valid(s)
    ensures r == Step(env, s, b.close)
  {
    Step(env, s, b.close)
  }

  /** `reset` resets only the deviation; period and multiplier stay. */
  function Restart(s: BbState): (r: BbState)
    ensures r.period == s.period && r.multiplier == s.multiplier
    ensures Valid(s) ==> r == Create(s.period, s.multiplier).value
  {
    s.(sd := Sd.Restart(s.sd))
  }

  /** The period this indicator reports (its own `period()` in src/indicators/bb.rs). */
  function Period(s: BbState): nat { s.period }

  /** The bands are symmetric about the average. */
  lemma Symmetric(env: Externals.Env, s: BbState, x: real)
    requires Valid(s)
    ensures var o := Step(env, s, x).1; o.upper - o.average == o.average - o.lower
  {
  }

  /** With a non-negative multiplier the average lies between the bands. */
  lemma Ordered(env: Externals.Env, s: BbState, x: real)
    requires Valid(s) && Externals.Sound(env) && s.multiplier >= 0.0
    ensures var o := Step(env, s, x).1; o.lower <= o.average <= o.upper
  {
    Numeric.MulNonNegative(Sd.Step(env, s.sd, x).1, s.multiplier);
  }

  /** The first output after construction or reset has all three values equal to the input. */
  lemma FirstOutputIsInput(env: Externals.Env, s: BbState, x: real)
    requires Valid(s) && Externals.Sound(env)
    ensures Step(env, Restart(s), x).1 == BbOutput(x, x, x)
  {
    Sd.FirstOutputAfterResetIsZero(env, s.sd, x);
    Sd.StepHolds(Sd.Restart(s.sd), [], x);
    Sd.MeanFromSum([x], Sd.Advance(Sd.Restart(s.sd), x).m);
  }

  /** Feeds `xs` in order; the final state and the outputs. */
  function Feed(env: Externals.Env, s: BbState, xs: seq<real>): (r: (BbState, seq<BbOutput>))
    requires Valid(s)
    ensures Valid(r.0) && r.0.period == s.period && r.0.multiplier == s.multiplier && |r.1| == |xs|
    decreases |xs|
  {
    if |xs| == 0 then (s, [])
    else
      var (s1, outs) := Feed(env, s, xs[..|xs| - 1]);
      var (s2, o) := Step(env, s1, xs[|xs| - 1]);
      (s2, outs + [o])
  }

  /** The bands run the deviation sub-indicator on the same inputs. */
  lemma {:induction false} FeedRunsDeviation(env: Externals.Env, s: BbState, xs: seq<real>)
    requires Valid(s)
    ensures Feed(env, s, xs).0.sd == Sd.Feed(env, s.sd, xs).0
    ensures |xs| > 0 ==> Feed(env, s, xs).1[|xs| - 1]
                         == Bands(Sd.MeanOf(Sd.Feed(env, s.sd, xs).0), Sd.Feed(env, s.sd, xs).1[|xs| - 1], s.multiplier)
    decreases |xs|
  {
    if |xs| > 0 {
      FeedRunsDeviation(env, s, xs[..|xs| - 1]);
    }
  }

  /**
   * After at least one input the average is the mean of the last
   * `min(n, period)` inputs and the bands lie `multiplier` population
   * standard deviations of that window away.
   */
  lemma AverageIsWindowMean(env: Externals.Env, period: nat, multiplier: real, xs: seq<real>)
    requires period > 0 && |xs| > 0
    ensures var w := Numeric.Window(xs, period);
            var o := Feed(env, Create(period, multiplier).value, xs).1[|xs| - 1];
            o == Bands(Numeric.Mean(w), Sd.Deviation(env, w), multiplier)
  {
    var s0 := Create(period, multiplier).value;
    FeedRunsDeviation(env, s0, xs);
    Sd.MeanAndDeviationOfWindow(env, period, xs);
  }

  /** BB(3, 2) on 2, 5, 1, 6.25: averages 2, 3.5, 8/3, 49/12; the second bands are 6.5 and 0.5. */
  lemma PeriodThreeExample(env: Externals.Env)
    requires Externals.Sound(env)
    ensures var s0 := Create(3, 2.0).value;
            var (s1, o1) := Step(env, s0, 2.0);
            var (s2, o2) := Step(env, s1, 5.0);
            var (s3, o3) := Step(env, s2, 1.0);
            var (s4, o4) := Step(env, s3, 6.25);
            o1 == BbOutput(2.0, 2.0, 2.0) && o2 == BbOutput(3.5, 6.5, 0.5)
            && o3.average == 8.0 / 3.0 && o4.average == 49.0 / 12.0
  {
    Externals.SqrtZero(env);
    Externals.SqrtOfSquare(env, 1.5);
  }

  /** The persisted form holds period and multiplier; reading it back builds a fresh deviation. */
  datatype BbParams = BbParams(period: nat, multiplier: real)

  /** What this indicator's serde code in src/indicators/bb.rs writes: the parameters, no running state. */
  function Encode(s: BbState): BbParams { BbParams(s.period, s.multiplier) }

  /** Reads the parameters back the way this indicator's serde code in src/indicators/bb.rs does. */
  function Decode(p: BbParams): (r: Result<BbState>)
    ensures r == Create(p.period, p.multiplier)
  {
    match Sd.Create(p.period)
    case Err(e) => Err(e)
    case Ok(sd) => Ok(BbState(p.period, p.multiplier, sd))
  }

  lemma DecodeEncode(s: BbState)
    requires Valid(s)
    ensures Decode(Encode(s)) == Ok(Restart(s))
  {
  }

  /** The bands of the source, holding the deviation as an object. */
  class BollingerBands {
    var period: nat
    var multiplier: real
    var sd: Sd.StandardDeviation

    function State(): BbState reads this, sd, sd.deque { BbState(period, multiplier, sd.State()) }

    constructor Init(period: nat, multiplier: real, sd: Sd.StandardDeviation)
      ensures this.period == period && this.multiplier == multiplier && this.sd == sd
    {
      this.period, this.multiplier, this.sd := period, multiplier, sd;
    }

    static method New(period: nat, multiplier: real) returns (r: Result<BollingerBands>)
      ensures r.Ok? <==> period > 0
      ensures r.Err? ==> r.error == InvalidParameter
      ensures r.Ok? ==> fresh(r.value) && fresh(r.value.sd) && fresh(r.value.sd.deque)
      ensures r.Ok? ==> r.value.State() == Create(period, multiplier).value
    {
      var sr := Sd.StandardDeviation.New(period);
      if sr.Err? {
        return Err(sr.error);
      }
      var bb := new BollingerBands.Init(period, multiplier, sr.value);
      return Ok(bb);
    }

    /** `Default`: period 9, multiplier 2. */
    static method Default() returns (bb: BollingerBands)
      ensures fresh(bb) && fresh(bb.sd) && fresh(bb.sd.deque) && bb.State() == Create(9, 2.0).value
    {
      var sd := Sd.StandardDeviation.Default();
      bb := new BollingerBands.Init(9, 2.0, sd);
    }

    function Multiplier(): real reads this { multiplier }

    method Next(env: Externals.Env, input: real) returns (out: BbOutput)
      requires Valid(State())
      modifies sd, sd.deque
      ensures sd == old(sd) && sd.deque == old(sd.deque)
      ensures (State(), out) == Step(env, old(State()), input)
    {
      var dev := sd.Next(env, input);
      var mean := sd.Mean();
      out := Bands(mean, dev, multiplier);
    }

    method NextCandle(env: Externals.Env, b: Candles.Bar) returns (out: BbOutput)
      requires Valid(State())
      modifies sd, sd.deque
      ensures sd == old(sd) && sd.deque == old(sd.deque)
      ensures (State(), out) == StepCandle(env, old(State()), b)
    {
      out := Next(env, b.close);
    }

    method Reset()
      requires Valid(State())
      modifies sd, sd.deque
      ensures sd == old(sd) && sd.deque == old(sd.deque)
      ensures State() == Restart(old(State()))
    {
      sd.Reset();
    }

    function Period(): nat reads this { period }
  }
}
