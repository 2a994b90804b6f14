/**
 * Moving average convergence/divergence (src/indicators/macd.rs): a fast and a
 * slow exponential average of the input, their difference `macd`, an
 * exponential average `signal` of that difference, and `histogram = macd - signal`.
 */
module Macd {
  import opened Wrappers
  import Numeric
  import Candles
  import Ema

  datatype MacdState = MacdState(fast: Ema.EmaState, slow: Ema.EmaState, signal: Ema.EmaState)

  datatype MacdOutput = MacdOutput(macd: real, signal: real, histogram: real)

  predicate Valid(s: MacdState) { Ema.Valid(s.fast) && Ema.Valid(s.slow) && Ema.Valid(s.signal) }

  /** `new(fast, slow, signal)`: the first sub-average that fails decides the error. */
  function Create(fast: nat, slow: nat, signal: nat): (r: Result<MacdState>)
    ensures r.Ok? <==> fast > 0 && slow > 0 && signal > 0
    ensures r.Err? ==> r.error == InvalidParameter
    ensures r.Ok? ==> Valid(r.value) && r.value.fast == Ema.Create(fast).value
                      && r.value.slow == Ema.Create(slow).value && r.value.signal == Ema.Create(signal).value
  {
    match Ema.Create(fast)
    case Err(e) => Err(e)
    case Ok(f) =>
      match Ema.Create(slow)
      case Err(e) => Err(e)
      case Ok(sl) =>
        match Ema.Create(signal)
        case Err(e) => Err(e)
        case Ok(sg) => Ok(MacdState(f, sl, sg))
  }

  /** The signal line's input on `x`: the fast average minus the slow one. */
  function Step(s: MacdState, x: real): (r: (MacdState, MacdOutput))
    ensures r.0.fast == Ema.Step(s.fast, x).0 && r.0.slow == Ema.Step(s.slow, x).0
    ensures r.1.macd == Ema.Step(s.fast, x).1 - Ema.Step(s.slow, x).1
    ensures (r.0.signal, r.1.signal) == Ema.Step(s.signal, r.1.macd)
    ensures r.1.histogram == r.1.macd - r.1.signal
    ensures Valid(s) ==> Valid(r.0)
  {
    var (f, fv) := Ema.Step(s.fast, x);
    var (sl, sv) := Ema.Step(s.slow, x);
    var macd := fv - sv;
    var (sg, signal) := Ema.Step(s.signal, macd);
    (MacdState(f, sl, sg), MacdOutput(macd, signal, macd - signal))
  }

  function StepCandle(s: MacdState, b: Candles.Bar): (r: (MacdState, MacdOutput))
    ensures r == Step(s, b.close)
  {
    Step(s, b.close)
  }

  /** `reset` resets the three averages. */
  function Restart(s: MacdState): (r: MacdState)
    ensures r == MacdState(Ema.Restart(s.fast), Ema.Restart(s.slow), Ema.Restart(s.signal))
    ensures Valid(s) ==> r == Create(s.fast.period, s.slow.period, s.signal.period).value
  {
    MacdState(Ema.Restart(s.fast), Ema.Restart(s.slow), Ema.Restart(s.signal))
  }

  /** The period is the slow average's. */
  function Period(s: MacdState): (p: nat)
    ensures p == Ema.Period(s.slow)
  {
    s.slow.period
  }

  /** `to_vec`: macd, signal, histogram in that order. */
  function ToVec(o: MacdOutput): (v: seq<real>)
    ensures |v| == 3 && v[0] == o.macd && v[1] == o.signal && v[2] == o.histogram
  {
    [o.macd, o.signal, o.histogram]
  }

  /** Feeds `xs` in order; the final state and the outputs. */
  function Feed(s: MacdState, xs: seq<real>): (r: (MacdState, seq<MacdOutput>))
    ensures |r.1| == |xs|
    ensures Valid(s) ==> Valid(r.0)
    decreases |xs|
  {
    if |xs| == 0 then (s, [])
    else
      var (s1, outs) := Feed(s, xs[..|xs| - 1]);
      var (s2, o) := Step(s1, xs[|xs| - 1]);
      (s2, outs + [o])
  }

  /** The histogram is always the gap between the two lines. */
  lemma {:induction false} HistogramEverywhere(s: MacdState, xs: seq<real>)
    ensures forall i :: 0 <= i < |xs| ==> Feed(s, xs).1[i].histogram == Feed(s, xs).1[i].macd - Feed(s, xs).1[i].signal
    decreases |xs|
  {
    if |xs| > 0 {
      HistogramEverywhere(s, xs[..|xs| - 1]);
    }
  }

  /** The first output after construction or reset is (0, 0, 0). */
  lemma FirstOutputIsZero(s: MacdState, x: real)
    ensures Step(Restart(s), x).1 == MacdOutput(0.0, 0.0, 0.0)
  {
  }

  /** Two indicators with the same periods, both reset, answer any inputs alike. */
  lemma ResetReplays(s: MacdState, t: MacdState, xs: seq<real>)
    requires Valid(s) && Valid(t)
    requires s.fast.period == t.fast.period && s.slow.period == t.slow.period && s.signal.period == t.signal.period
    ensures Feed(Restart(s), xs) == Feed(Restart(t), xs)
  {
  }

  /** Two decimals, as the source's tests compare. */
  function Round2(x: real): real { (Numeric.Round(x * 100.0) as real) / 100.0 }

  function Rounded(o: MacdOutput): MacdOutput
  {
    MacdOutput(Round2(o.macd), Round2(o.signal), Round2(o.histogram))
  }

  /** MACD(3, 6, 4) on 2, 3, 4.2: exactly (0, 0, 0), (3/14, 3/35, 9/70), (25.35/49, 63.3/245, 63.45/245). */
  /** A MACD(3, 6, 4) that has seen input, with the three averages at `f`, `sl` and `g`. */
  function At(f: real, sl: real, g: real): MacdState
  {
    MacdState(Ema.EmaState(3, 0.5, f, false), Ema.EmaState(6, 2.0 / 7.0, sl, false), Ema.EmaState(4, 0.4, g, false))
  }

  /** The first three steps of the source's test, exactly. */
  lemma ThreeSixFourExact()
    ensures var s0 := Create(3, 6, 4).value;
            var (s1, o1) := Step(s0, 2.0);
            var (s2, o2) := Step(s1, 3.0);
            var (s3, o3) := Step(s2, 4.2);
            o1 == MacdOutput(0.0, 0.0, 0.0)
            && o2 == MacdOutput(3.0 / 14.0, 3.0 / 35.0, 9.0 / 70.0)
            && o3 == MacdOutput(25.35 / 49.0, 63.3 / 245.0, 63.45 / 245.0)
            && s3 == At(3.35, 138.8 / 49.0, 63.3 / 245.0)
  {
    var s0 := Create(3, 6, 4).value;
    assert s0.fast.k == 0.5 && s0.slow.k == 2.0 / 7.0 && s0.signal.k == 0.4;
    var (s1, o1) := Step(s0, 2.0);
    assert s1.fast.current == 2.0 && s1.slow.current == 2.0 && s1.signal.current == 0.0;
    var (s2, o2) := Step(s1, 3.0);
    assert s2.fast.current == 2.5 && s2.slow.current == 16.0 / 7.0;
    assert o2.macd == 3.0 / 14.0;
    assert s2.signal.current == 3.0 / 35.0;
    var (s3, o3) := Step(s2, 4.2);
    assert s3.fast.current == 3.35 && s3.slow.current == 138.8 / 49.0;
  }

  /** The fourth step of the test: the input 7. */
  lemma ThreeSixFourStep4()
    ensures Step(At(3.35, 138.8 / 49.0, 63.3 / 245.0), 7.0)
            == (At(207.0 / 40.0, 1380.0 / 343.0, 105591.0 / 171500.0),
                MacdOutput(15801.0 / 13720.0, 105591.0 / 171500.0, 183843.0 / 343000.0))
  {
  }

  /** The fifth step: the input 6.7. */
  lemma ThreeSixFourStep5()
    ensures Step(At(207.0 / 40.0, 1380.0 / 343.0, 105591.0 / 171500.0), 6.7)
            == (At(95.0 / 16.0, 57481.0 / 12005.0, 9954297.0 / 12005000.0),
                MacdOutput(220779.0 / 192080.0, 9954297.0 / 12005000.0, 7688781.0 / 24010000.0))
  {
  }

  /** The sixth step: the input 6.5. */
  lemma ThreeSixFourStep6()
    ensures Step(At(95.0 / 16.0, 57481.0 / 12005.0, 9954297.0 / 12005000.0), 6.5).1
            == MacdOutput(506385.0 / 537824.0, 734571099.0 / 840350000.0, 113310927.0 / 1680700000.0)
  {
  }

  /**
   * Rounded to two decimals, as the source's test compares, the six steps are
   * (0, 0, 0), (0.21, 0.09, 0.13), (0.52, 0.26, 0.26), (1.15, 0.62, 0.54),
   * (1.15, 0.83, 0.32) and (0.94, 0.87, 0.07).
   */
  lemma ThreeSixFourExample()
    ensures var s0 := Create(3, 6, 4).value;
            var (s1, o1) := Step(s0, 2.0);
            var (s2, o2) := Step(s1, 3.0);
            var (s3, o3) := Step(s2, 4.2);
            var (s4, o4) := Step(s3, 7.0);
            var (s5, o5) := Step(s4, 6.7);
            var (s6, o6) := Step(s5, 6.5);
            Rounded(o1) == MacdOutput(0.0, 0.0, 0.0)
            && Rounded(o2) == MacdOutput(0.21, 0.09, 0.13)
            && Rounded(o3) == MacdOutput(0.52, 0.26, 0.26)
            && Rounded(o4) == MacdOutput(1.15, 0.62, 0.54)
            && Rounded(o5) == MacdOutput(1.15, 0.83, 0.32)
            && Rounded(o6) == MacdOutput(0.94, 0.87, 0.07)
  {
    ThreeSixFourExact();
    ThreeSixFourStep4();
    ThreeSixFourStep5();
    ThreeSixFourStep6();
    assert Round2(3.0 / 14.0) == 0.21 && Round2(3.0 / 35.0) == 0.09 && Round2(9.0 / 70.0) == 0.13;
    assert Round2(25.35 / 49.0) == 0.52 && Round2(63.3 / 245.0) == 0.26 && Round2(63.45 / 245.0) == 0.26;
    assert Round2(15801.0 / 13720.0) == 1.15 && Round2(105591.0 / 171500.0) == 0.62;
    assert Round2(183843.0 / 343000.0) == 0.54;
    assert Round2(220779.0 / 192080.0) == 1.15 && Round2(9954297.0 / 12005000.0) == 0.83;
    assert Round2(7688781.0 / 24010000.0) == 0.32;
    assert Round2(506385.0 / 537824.0) == 0.94 && Round2(734571099.0 / 840350000.0) == 0.87;
    assert Round2(113310927.0 / 1680700000.0) == 0.07;
  }

  /** The persisted form: the three periods; reading it back goes through `new`. */
  datatype MacdParams = MacdParams(fast: nat, slow: nat, signal: nat)

  /** What this indicator's serde code in src/indicators/macd.rs writes: the parameters, no running state. */
  function Encode(s: MacdState): MacdParams { MacdParams(s.fast.period, s.slow.period, s.signal.period) }

  /** Reads the parameters back the way this indicator's serde code in src/indicators/macd.rs does. */
  function Decode(p: MacdParams): (r: Result<MacdState>)
    ensures r == Create(p.fast, p.slow, p.signal)
  {
    Create(p.fast, p.slow, p.signal)
  }

  lemma DecodeEncode(s: MacdState)
    requires Valid(s)
    ensures Decode(Encode(s)) == Ok(Restart(s))
  {
  }

  /** The indicator of the source, holding three average objects. */
  class MovingAverageConvergenceDivergence {
    var fastEma: Ema.ExponentialMovingAverage
    var slowEma: Ema.ExponentialMovingAverage
    var signalEma: Ema.ExponentialMovingAverage

    /** The three averages are distinct objects. */
    predicate Separate() reads this
    {
      fastEma != slowEma && fastEma != signalEma && slowEma != signalEma
    }

    function State(): MacdState reads this, fastEma, slowEma, signalEma
    {
      MacdState(fastEma.State(), slowEma.State(), signalEma.State())
    }

    constructor Init(f: Ema.ExponentialMovingAverage, sl: Ema.ExponentialMovingAverage, sg: Ema.ExponentialMovingAverage)
      ensures fastEma == f && slowEma == sl && signalEma == sg
    {
      fastEma, slowEma, signalEma := f, sl, sg;
    }

    static method New(fast: nat, slow: nat, signal: nat) returns (r: Result<MovingAverageConvergenceDivergence>)
      ensures r.Ok? <==> fast > 0 && slow > 0 && signal > 0
      ensures r.Err? ==> r.error == InvalidParameter
      ensures r.Ok? ==> fresh(r.value) && fresh(r.value.fastEma) && fresh(r.value.slowEma) && fresh(r.value.signalEma)
      ensures r.Ok? ==> r.value.Separate() && r.value.State() == Create(fast, slow, signal).value
    {
      var f := Ema.ExponentialMovingAverage.New(fast);
      if f.Err? {
        return Err(f.error);
      }
      var sl := Ema.ExponentialMovingAverage.New(slow);
      if sl.Err? {
        return Err(sl.error);
      }
      var sg := Ema.ExponentialMovingAverage.New(signal);
      if sg.Err? {
        return Err(sg.error);
      }
      var m := new MovingAverageConvergenceDivergence.Init(f.value, sl.value, sg.value);
      return Ok(m);
    }

    /** `Default`: periods 12, 26 and 9. */
    static method Default() returns (m: MovingAverageConvergenceDivergence)
      ensures fresh(m) && fresh(m.fastEma) && fresh(m.slowEma) && fresh(m.signalEma)
      ensures m.Separate() && m.State() == Create(12, 26, 9).value
    {
      var r := New(12, 26, 9);
      m := r.value;
    }

    method Next(input: real) returns (out: MacdOutput)
      requires Separate()
      modifies fastEma, slowEma, signalEma
      ensures (State(), out) == Step(old(State()), input)
    {
      var fastVal := fastEma.Next(input);
      var slowVal := slowEma.Next(input);
      var macd := fastVal - slowVal;
      var signal := signalEma.Next(macd);
      out := MacdOutput(macd, signal, macd - signal);
    }

    method NextCandle(b: Candles.Bar) returns (out: MacdOutput)
      requires Separate()
      modifies fastEma, slowEma, signalEma
      ensures (State(), out) == StepCandle(old(State()), b)
    {
      out := Next(b.close);
    }

    method Reset()
      requires Separate()
      modifies fastEma, slowEma, signalEma
      ensures State() == Restart(old(State()))
    {
      fastEma.Reset();
      slowEma.Reset();
      signalEma.Reset();
    }

    function Period(): nat reads this, slowEma { slowEma.Period() }
  }
}
