/**
 * The stochastic oscillator (src/indicators/stoch.rs).  %K places the close
 * between the lowest low and the highest high of the last `period` candles;
 * %D is a simple moving average of %K over `smoothing` outputs.  Both are
 * answered on the 0..100 scale.
 */
module Stoch {
  import opened Wrappers
  import Numeric
  import Candles
  import Sma

  /** One remembered candle: its high, low and close. */
  datatype Hlc = Hlc(high: real, low: real, close: real)

  datatype StochState = StochState(period: nat, smoothing: nat, values: seq<Hlc>, d: Sma.SmaState)

  datatype StochOutput = StochOutput(k: real, d: real)

  /** The candle window stays within `period`; %D is a constructed average of period `smoothing`. */
  predicate Valid(s: StochState)
  {
    s.period > 0 && |s.values| <= s.period && Sma.Valid(s.d) && s.d.period == s.smoothing
  }

  /** `new(period, smoothing)`: a zero period is refused first, then the average's own refusal. */
  function Create(period: nat, smoothing: nat): (r: Result<StochState>)
    ensures r.Ok? <==> period > 0 && smoothing > 0
    ensures r.Err? ==> r.error == InvalidParameter
    ensures r.Ok? ==> Valid(r.value) && r.value == StochState(period, smoothing, [], Sma.Create(smoothing).value)
  {
    if period == 0 then Err(InvalidParameter)
    else
      match Sma.Create(smoothing)
      case Err(e) => Err(e)
      case Ok(d) => Ok(StochState(period, smoothing, [], d))
  }

  function HlcOf(b: Candles.Bar): Hlc { Hlc(b.high, b.low, b.close) }

  function Highs(vs: seq<Hlc>): (hs: seq<real>)
    ensures |hs| == |vs| && forall i :: 0 <= i < |vs| ==> hs[i] == vs[i].high
  {
    seq(|vs|, i requires 0 <= i < |vs| => vs[i].high)
  }

  function Lows(vs: seq<Hlc>): (ls: seq<real>)
    ensures |ls| == |vs| && forall i :: 0 <= i < |vs| ==> ls[i] == vs[i].low
  {
    seq(|vs|, i requires 0 <= i < |vs| => vs[i].low)
  }

  function HighestHigh(vs: seq<Hlc>): real { Numeric.FoldMax(Numeric.F64Min, Highs(vs)) }

  function LowestLow(vs: seq<Hlc>): real { Numeric.FoldMin(Numeric.F64Max, Lows(vs)) }

  /** The unscaled %K of `close` against the window `vs`; 0 when the range is empty. */
  function RawK(vs: seq<Hlc>, close: real): real
  {
    var hh := HighestHigh(vs);
    var ll := LowestLow(vs);
    if hh - ll == 0.0 then 0.0 else (close - ll) / (hh - ll)
  }

  /** `next(candle)`: slide the window, compute %K, feed it to the %D average, scale both by 100. */
  function Step(s: StochState, b: Candles.Bar): (r: (StochState, StochOutput))
    requires s.d.period > 0
    ensures r.0.period == s.period && r.0.smoothing == s.smoothing
    ensures r.0.values == Numeric.PushBounded(s.values, HlcOf(b), s.period)
    ensures var k := RawK(r.0.values, b.close);
            r.0.d == Sma.SmaState(s.d.period, Numeric.Slide(s.d.window, k, s.d.period))
            && r.1 == StochOutput(k * 100.0, Numeric.Mean(r.0.d.window) * 100.0)
    ensures Valid(s) ==> Valid(r.0)
  {
    var vs := Numeric.PushBounded(s.values, HlcOf(b), s.period);
    var k := RawK(vs, b.close);
    var (d, dv) := Sma.Step(s.d, k);
    (StochState(s.period, s.smoothing, vs, d), StochOutput(k * 100.0, dv * 100.0))
  }

  /** The period this indicator reports (its own `period()` in src/indicators/stoch.rs). */
  function Period(s: StochState): nat { s.period }

  /** `reset` as the source writes it: only the candle window is cleared. */
  function RestartAsWritten(s: StochState): (r: StochState)
    ensures r.values == [] && r.d == s.d && r.period == s.period && r.smoothing == s.smoothing
  {
    s.(values := [])
  }

  /** `reset` restoring the constructed state: the window and the %D average are cleared. */
  function Restart(s: StochState): (r: StochState)
    ensures r.values == [] && r.d == Sma.Restart(s.d) && r.period == s.period && r.smoothing == s.smoothing
    ensures Valid(s) ==> r == Create(s.period, s.smoothing).value
  {
    s.(values := [], d := Sma.Restart(s.d))
  }

  /** %K's unscaled value lies in [0, 1] when the close lies within the newest candle's range. */
  lemma RawKRange(vs: seq<Hlc>, close: real)
    requires |vs| > 0 && vs[|vs| - 1].low <= close <= vs[|vs| - 1].high
    ensures 0.0 <= RawK(vs, close) <= 1.0
  {
    var hh, ll := HighestHigh(vs), LowestLow(vs);
    Numeric.FoldMaxIsMax(Numeric.F64Min, Highs(vs));
    Numeric.FoldMinIsMin(Numeric.F64Max, Lows(vs));
    assert Highs(vs)[|vs| - 1] == vs[|vs| - 1].high;
    assert Lows(vs)[|vs| - 1] == vs[|vs| - 1].low;
    assert ll <= close <= hh;
    if hh - ll != 0.0 {
      Numeric.FractionWithin(ll, hh, close);
    }
  }

  /** Every %K remembered by the %D average lies in [0, 1]. */
  predicate Unit(s: StochState) { Numeric.Within(s.d.window, 0.0, 1.0) }

  /**
   * "Returns data in a range from 0.0 to 100.0": on a candle whose close lies
   * between its low and high both %K and %D are in [0, 100], and the average
   * keeps remembering values in [0, 1].
   */
  lemma StepInRange(s: StochState, b: Candles.Bar)
    requires Valid(s) && Unit(s) && Candles.Ordered(b)
    ensures var (s', o) := Step(s, b); Unit(s') && 0.0 <= o.k <= 100.0 && 0.0 <= o.d <= 100.0
  {
    var vs := Numeric.PushBounded(s.values, HlcOf(b), s.period);
    var k := RawK(vs, b.close);
    RawKRange(vs, b.close);
    var w := Numeric.Slide(s.d.window, k, s.d.period);
    assert Numeric.Within(w, 0.0, 1.0) by {
      forall i | 0 <= i < |w| ensures 0.0 <= w[i] <= 1.0 {
        if i < |w| - 1 {
          if |s.d.window| < s.d.period {
            assert w[i] == s.d.window[i];
          } else {
            assert w[i] == s.d.window[i + 1];
          }
        }
      }
    }
    Numeric.MeanWithin(w, 0.0, 1.0);
  }

  /** The constructed state remembers nothing, so every %K it holds is in range. */
  lemma CreateInRange(period: nat, smoothing: nat)
    requires period > 0 && smoothing > 0
    ensures Unit(Create(period, smoothing).value) && Unit(Restart(Create(period, smoothing).value))
  {
  }

  /** Feeds `bs` in order; the final state and the outputs. */
  function Feed(s: StochState, bs: seq<Candles.Bar>): (r: (StochState, seq<StochOutput>))
    requires s.d.period > 0
    ensures r.0.d.period == s.d.period && r.0.period == s.period && r.0.smoothing == s.smoothing
    ensures |r.1| == |bs|
    ensures Valid(s) ==> Valid(r.0)
    decreases |bs|
  {
    if |bs| == 0 then (s, [])
    else
      var (s1, outs) := Feed(s, bs[..|bs| - 1]);
      var (s2, o) := Step(s1, bs[|bs| - 1]);
      (s2, outs + [o])
  }

  /** The remembered form of each candle, in order. */
  function HlcsOf(bs: seq<Candles.Bar>): (vs: seq<Hlc>)
    ensures |vs| == |bs|
    decreases |bs|
  {
    if |bs| == 0 then [] else HlcsOf(bs[..|bs| - 1]) + [HlcOf(bs[|bs| - 1])]
  }

  /** The unscaled %K values of a run of outputs, in order. */
  function Ks(outs: seq<StochOutput>): (ks: seq<real>)
    ensures |ks| == |outs| && forall i :: 0 <= i < |outs| ==> ks[i] == outs[i].k / 100.0
  {
    seq(|outs|, i requires 0 <= i < |outs| => outs[i].k / 100.0)
  }

  /** From construction the window is the last `min(n, period)` candles. */
  lemma {:induction false} FeedWindow(period: nat, smoothing: nat, bs: seq<Candles.Bar>)
    requires period > 0 && smoothing > 0
    ensures Feed(Create(period, smoothing).value, bs).0.values == Numeric.Window(HlcsOf(bs), period)
    decreases |bs|
  {
    if |bs| > 0 {
      var init, b := bs[..|bs| - 1], bs[|bs| - 1];
      FeedWindow(period, smoothing, init);
      var s1 := Feed(Create(period, smoothing).value, init).0;
      Numeric.PushBoundedSlides(s1.values, HlcOf(b), period);
      Numeric.SlideWindow(HlcsOf(init), HlcOf(b), period);
    }
  }

  /** The last step of a run. */
  lemma FeedUnfold(s: StochState, bs: seq<Candles.Bar>)
    requires s.d.period > 0 && |bs| > 0
    ensures Feed(s, bs).0 == Step(Feed(s, bs[..|bs| - 1]).0, bs[|bs| - 1]).0
    ensures Feed(s, bs).1 == Feed(s, bs[..|bs| - 1]).1 + [Step(Feed(s, bs[..|bs| - 1]).0, bs[|bs| - 1]).1]
  {
  }

  /** %D's average holds the last `min(n, smoothing)` unscaled %K values of `outs`. */
  predicate AverageOf(s: StochState, outs: seq<StochOutput>)
  {
    s.d.window == Numeric.Window(Ks(outs), s.d.period)
  }

  /** One step keeps %D's average the window of the unscaled %K values answered so far. */
  lemma StepKeepsAverage(s: StochState, outs: seq<StochOutput>, b: Candles.Bar)
    requires s.d.period > 0 && AverageOf(s, outs)
    ensures AverageOf(Step(s, b).0, outs + [Step(s, b).1])
  {
    var o := Step(s, b).1;
    var w, k, p := Ks(outs), o.k / 100.0, s.d.period;
    assert Step(s, b).0.d.window == Numeric.Slide(Numeric.Window(w, p), k, p);
    assert Ks(outs + [o]) == w + [k] by {
      KsSnoc(outs, o);
    }
    Numeric.SlideWindow(w, k, p);
  }

  /** From an empty average, %D's average holds the last `min(n, smoothing)` unscaled %K values. */
  lemma {:induction false} AverageWindow(s: StochState, bs: seq<Candles.Bar>)
    requires s.d.period > 0 && s.d.window == []
    ensures AverageOf(Feed(s, bs).0, Feed(s, bs).1)
    decreases |bs|
  {
    if |bs| > 0 {
      var init := bs[..|bs| - 1];
      AverageWindow(s, init);
      FeedUnfold(s, bs);
      StepKeepsAverage(Feed(s, init).0, Feed(s, init).1, bs[|bs| - 1]);
    } else {
      assert Ks([]) == [];
    }
  }

  lemma KsSnoc(outs: seq<StochOutput>, o: StochOutput)
    ensures Ks(outs + [o]) == Ks(outs) + [o.k / 100.0]
  {
    assert forall i :: 0 <= i < |outs| ==> (outs + [o])[i] == outs[i];
  }

  /**
   * After at least one candle, %D is 100 times the mean of the last
   * `min(n, smoothing)` unscaled %K values.
   */
  lemma DIsAverageOfK(period: nat, smoothing: nat, bs: seq<Candles.Bar>)
    requires period > 0 && smoothing > 0 && |bs| > 0
    ensures var outs := Feed(Create(period, smoothing).value, bs).1;
            outs[|bs| - 1].d == Numeric.Mean(Numeric.Window(Ks(outs), smoothing)) * 100.0
  {
    var s0 := Create(period, smoothing).value;
    AverageWindow(s0, bs);
    var before := Feed(s0, bs[..|bs| - 1]);
    var st := Step(before.0, bs[|bs| - 1]);
    assert Feed(s0, bs).0 == st.0 && Feed(s0, bs).1 == before.1 + [st.1];
  }

  /** A bar carrying only a high, a low and a close, as the source's tests build them. */
  function TestBar(high: real, low: real, close: real): Candles.Bar
  {
    Candles.Bar(0.0, high, low, close, 0.0, None)
  }

  /** The state after `ks` were fed to %D with the candle window `vs`, for the examples. */
  function At(period: nat, smoothing: nat, vs: seq<Hlc>, ks: seq<real>): StochState
  {
    StochState(period, smoothing, vs, Sma.SmaState(smoothing, ks))
  }

  lemma ExampleStep1()
    ensures Step(At(3, 2, [], []), TestBar(20.0, 10.0, 15.0))
            == (At(3, 2, [Hlc(20.0, 10.0, 15.0)], [0.5]), StochOutput(50.0, 50.0))
  {
    var vs := [Hlc(20.0, 10.0, 15.0)];
    assert Numeric.PushBounded([], Hlc(20.0, 10.0, 15.0), 3) == vs;
    assert Highs(vs) == [20.0] && Lows(vs) == [10.0];
    assert RawK(vs, 15.0) == 0.5;
    assert Numeric.Slide([], 0.5, 2) == [0.5];
    assert Numeric.Sum([0.5]) == 0.5;
  }

  lemma ExampleStep2()
    ensures Step(At(3, 2, [Hlc(20.0, 10.0, 15.0)], [0.5]), TestBar(22.0, 12.0, 20.0))
            == (At(3, 2, [Hlc(20.0, 10.0, 15.0), Hlc(22.0, 12.0, 20.0)], [0.5, 5.0 / 6.0]),
                StochOutput(250.0 / 3.0, 200.0 / 3.0))
  {
    var vs := [Hlc(20.0, 10.0, 15.0), Hlc(22.0, 12.0, 20.0)];
    assert Numeric.PushBounded([Hlc(20.0, 10.0, 15.0)], Hlc(22.0, 12.0, 20.0), 3) == vs;
    assert Highs(vs) == [20.0, 22.0] && Lows(vs) == [10.0, 12.0];
    assert RawK(vs, 20.0) == 5.0 / 6.0;
    assert Numeric.Slide([0.5], 5.0 / 6.0, 2) == [0.5, 5.0 / 6.0];
    assert Numeric.Sum([0.5, 5.0 / 6.0]) == 4.0 / 3.0;
  }

  lemma ExampleStep3()
    ensures Step(At(3, 2, [Hlc(20.0, 10.0, 15.0), Hlc(22.0, 12.0, 20.0)], [0.5, 5.0 / 6.0]), TestBar(28.0, 18.0, 25.0))
            == (At(3, 2, [Hlc(20.0, 10.0, 15.0), Hlc(22.0, 12.0, 20.0), Hlc(28.0, 18.0, 25.0)], [5.0 / 6.0, 5.0 / 6.0]),
                StochOutput(250.0 / 3.0, 250.0 / 3.0))
  {
    var vs := [Hlc(20.0, 10.0, 15.0), Hlc(22.0, 12.0, 20.0), Hlc(28.0, 18.0, 25.0)];
    assert Numeric.PushBounded([Hlc(20.0, 10.0, 15.0), Hlc(22.0, 12.0, 20.0)], Hlc(28.0, 18.0, 25.0), 3) == vs;
    assert Highs(vs) == [20.0, 22.0, 28.0] && Lows(vs) == [10.0, 12.0, 18.0];
    assert RawK(vs, 25.0) == 5.0 / 6.0;
    assert [0.5, 5.0 / 6.0][1..] + [5.0 / 6.0] == [5.0 / 6.0, 5.0 / 6.0];
    assert Numeric.Sum([5.0 / 6.0, 5.0 / 6.0]) == 5.0 / 3.0;
  }

  lemma ExampleStep4()
    ensures Step(At(3, 2, [Hlc(20.0, 10.0, 15.0), Hlc(22.0, 12.0, 20.0), Hlc(28.0, 18.0, 25.0)], [5.0 / 6.0, 5.0 / 6.0]),
                 TestBar(30.0, 20.0, 28.0))
            == (At(3, 2, [Hlc(22.0, 12.0, 20.0), Hlc(28.0, 18.0, 25.0), Hlc(30.0, 20.0, 28.0)], [5.0 / 6.0, 8.0 / 9.0]),
                StochOutput(800.0 / 9.0, 775.0 / 9.0))
  {
    var vs := [Hlc(22.0, 12.0, 20.0), Hlc(28.0, 18.0, 25.0), Hlc(30.0, 20.0, 28.0)];
    assert Numeric.PushBounded([Hlc(20.0, 10.0, 15.0), Hlc(22.0, 12.0, 20.0), Hlc(28.0, 18.0, 25.0)], Hlc(30.0, 20.0, 28.0), 3) == vs;
    assert Highs(vs) == [22.0, 28.0, 30.0] && Lows(vs) == [12.0, 18.0, 20.0];
    assert RawK(vs, 28.0) == 8.0 / 9.0;
    assert [5.0 / 6.0, 5.0 / 6.0][1..] + [8.0 / 9.0] == [5.0 / 6.0, 8.0 / 9.0];
    assert Numeric.Sum([5.0 / 6.0, 8.0 / 9.0]) == 31.0 / 18.0;
  }

  lemma ExampleStep5()
    ensures Step(At(3, 2, [Hlc(22.0, 12.0, 20.0), Hlc(28.0, 18.0, 25.0), Hlc(30.0, 20.0, 28.0)], [5.0 / 6.0, 8.0 / 9.0]),
                 TestBar(27.0, 19.0, 22.0))
            == (At(3, 2, [Hlc(28.0, 18.0, 25.0), Hlc(30.0, 20.0, 28.0), Hlc(27.0, 19.0, 22.0)], [8.0 / 9.0, 1.0 / 3.0]),
                StochOutput(100.0 / 3.0, 550.0 / 9.0))
  {
    var vs := [Hlc(28.0, 18.0, 25.0), Hlc(30.0, 20.0, 28.0), Hlc(27.0, 19.0, 22.0)];
    assert Numeric.PushBounded([Hlc(22.0, 12.0, 20.0), Hlc(28.0, 18.0, 25.0), Hlc(30.0, 20.0, 28.0)], Hlc(27.0, 19.0, 22.0), 3) == vs;
    assert Highs(vs) == [28.0, 30.0, 27.0] && Lows(vs) == [18.0, 20.0, 19.0];
    assert RawK(vs, 22.0) == 1.0 / 3.0;
    assert [5.0 / 6.0, 8.0 / 9.0][1..] + [1.0 / 3.0] == [8.0 / 9.0, 1.0 / 3.0];
    assert Numeric.Sum([8.0 / 9.0, 1.0 / 3.0]) == 11.0 / 9.0;
  }

  lemma ExampleStep6()
    ensures Step(At(3, 2, [Hlc(28.0, 18.0, 25.0), Hlc(30.0, 20.0, 28.0), Hlc(27.0, 19.0, 22.0)], [8.0 / 9.0, 1.0 / 3.0]),
                 TestBar(25.0, 15.0, 16.0)).1
            == StochOutput(20.0 / 3.0, 20.0)
  {
    var vs := [Hlc(30.0, 20.0, 28.0), Hlc(27.0, 19.0, 22.0), Hlc(25.0, 15.0, 16.0)];
    assert Numeric.PushBounded([Hlc(28.0, 18.0, 25.0), Hlc(30.0, 20.0, 28.0), Hlc(27.0, 19.0, 22.0)], Hlc(25.0, 15.0, 16.0), 3) == vs;
    assert Highs(vs) == [30.0, 27.0, 25.0] && Lows(vs) == [20.0, 19.0, 15.0];
    assert RawK(vs, 16.0) == 1.0 / 15.0;
    assert [8.0 / 9.0, 1.0 / 3.0][1..] + [1.0 / 15.0] == [1.0 / 3.0, 1.0 / 15.0];
    assert Numeric.Sum([1.0 / 3.0, 1.0 / 15.0]) == 0.4;
  }

  /**
   * STOCH(3, 2) on six candles: %K = 50, 250/3, 250/3, 800/9, 100/3, 20/3 and
   * %D = 50, 200/3, 250/3, 775/9, 550/9, 20.
   */
  lemma PeriodThreeExample()
    ensures var s0 := Create(3, 2).value;
            var (s1, o1) := Step(s0, TestBar(20.0, 10.0, 15.0));
            var (s2, o2) := Step(s1, TestBar(22.0, 12.0, 20.0));
            var (s3, o3) := Step(s2, TestBar(28.0, 18.0, 25.0));
            var (s4, o4) := Step(s3, TestBar(30.0, 20.0, 28.0));
            var (s5, o5) := Step(s4, TestBar(27.0, 19.0, 22.0));
            var (s6, o6) := Step(s5, TestBar(25.0, 15.0, 16.0));
            o1 == StochOutput(50.0, 50.0) && o2 == StochOutput(250.0 / 3.0, 200.0 / 3.0)
            && o3 == StochOutput(250.0 / 3.0, 250.0 / 3.0) && o4 == StochOutput(800.0 / 9.0, 775.0 / 9.0)
            && o5 == StochOutput(100.0 / 3.0, 550.0 / 9.0) && o6 == StochOutput(20.0 / 3.0, 20.0)
  {
    assert Create(3, 2).value == At(3, 2, [], []);
    ExampleStep1();
    ExampleStep2();
    ExampleStep3();
    ExampleStep4();
    ExampleStep5();
    ExampleStep6();
  }

  /**
   * As written, `reset` keeps %D's memory: STOCH(1, 2) fed a candle with
   * %K = 50, reset, then fed a candle closing at its low answers %D = 25,
   * where a constructed oscillator answers 0.
   */
  lemma RestartAsWrittenKeepsAverage()
    ensures var s1 := Step(Create(1, 2).value, TestBar(20.0, 10.0, 15.0)).0;
            Step(RestartAsWritten(s1), TestBar(20.0, 10.0, 10.0)).1 == StochOutput(0.0, 25.0)
            && Step(Restart(s1), TestBar(20.0, 10.0, 10.0)).1 == StochOutput(0.0, 0.0)
  {
    assert Create(1, 2).value == At(1, 2, [], []);
    RestartExampleFirst();
    var s1 := At(1, 2, [Hlc(20.0, 10.0, 15.0)], [0.5]);
    assert RestartAsWritten(s1) == At(1, 2, [], [0.5]);
    assert Restart(s1) == At(1, 2, [], []);
    RestartExampleKept();
    RestartExampleCleared();
  }

  lemma RestartExampleFirst()
    ensures Step(At(1, 2, [], []), TestBar(20.0, 10.0, 15.0)).0 == At(1, 2, [Hlc(20.0, 10.0, 15.0)], [0.5])
  {
    var a := [Hlc(20.0, 10.0, 15.0)];
    assert Numeric.PushBounded([], Hlc(20.0, 10.0, 15.0), 1) == a;
    assert Highs(a) == [20.0] && Lows(a) == [10.0];
    assert RawK(a, 15.0) == 0.5;
    assert Numeric.Slide([], 0.5, 2) == [0.5];
  }

  /** The window of the candle (20, 10, 10) alone, and its %K. */
  lemma RestartExampleWindow()
    ensures Numeric.PushBounded([], Hlc(20.0, 10.0, 10.0), 1) == [Hlc(20.0, 10.0, 10.0)]
    ensures RawK([Hlc(20.0, 10.0, 10.0)], 10.0) == 0.0
  {
    var v := [Hlc(20.0, 10.0, 10.0)];
    assert Highs(v) == [20.0] && Lows(v) == [10.0];
  }

  lemma RestartExampleKept()
    ensures Step(At(1, 2, [], [0.5]), TestBar(20.0, 10.0, 10.0)).1 == StochOutput(0.0, 25.0)
  {
    RestartExampleWindow();
    var v := [Hlc(20.0, 10.0, 10.0)];
    assert HlcOf(TestBar(20.0, 10.0, 10.0)) == Hlc(20.0, 10.0, 10.0);
    var r := Step(At(1, 2, [], [0.5]), TestBar(20.0, 10.0, 10.0));
    assert r.0.values == v;
    assert RawK(r.0.values, 10.0) == 0.0;
    assert Numeric.Slide([0.5], 0.0, 2) == [0.5, 0.0];
    assert Numeric.Sum([0.5, 0.0]) == 0.5;
    assert r.0.d == Sma.SmaState(2, [0.5, 0.0]);
    assert r.1.d == 25.0;
  }

  lemma RestartExampleCleared()
    ensures Step(At(1, 2, [], []), TestBar(20.0, 10.0, 10.0)).1 == StochOutput(0.0, 0.0)
  {
    RestartExampleWindow();
    assert HlcOf(TestBar(20.0, 10.0, 10.0)) == Hlc(20.0, 10.0, 10.0);
    var r := Step(At(1, 2, [], []), TestBar(20.0, 10.0, 10.0));
    assert r.0.values == [Hlc(20.0, 10.0, 10.0)];
    assert RawK(r.0.values, 10.0) == 0.0;
    assert Numeric.Slide([], 0.0, 2) == [0.0];
    assert Numeric.Sum([0.0]) == 0.0;
    assert r.0.d == Sma.SmaState(2, [0.0]);
    assert r.1.d == 0.0;
  }

  /** After the corrected reset the oscillator answers any candles as a constructed one does. */
  lemma RestartReplays(s: StochState, bs: seq<Candles.Bar>)
    requires Valid(s)
    ensures Feed(Restart(s), bs) == Feed(Create(s.period, s.smoothing).value, bs)
  {
  }

  /** The persisted form: the two periods. */
  datatype StochParams = StochParams(period: nat, smoothing: nat)

  /** What this indicator's serde code in src/indicators/stoch.rs writes: the parameters, no running state. */
  function Encode(s: StochState): StochParams { StochParams(s.period, s.smoothing) }

  /** Deserialization as the source writes it: only the average's period is checked. */
  function DecodeAsWritten(p: StochParams): (r: Result<StochState>)
    ensures r.Ok? <==> p.smoothing > 0
    ensures r.Ok? ==> r.value == StochState(p.period, p.smoothing, [], Sma.Create(p.smoothing).value)
  {
    match Sma.Create(p.smoothing)
    case Err(e) => Err(e)
    case Ok(d) => Ok(StochState(p.period, p.smoothing, [], d))
  }

  /** As written, a zero period is read back although `new` refuses it. */
  lemma DecodeAsWrittenAcceptsZeroPeriod()
    ensures DecodeAsWritten(StochParams(0, 3)).Ok? && Create(0, 3).Err?
  {
  }

  /** Deserialization through `new`. */
  function Decode(p: StochParams): (r: Result<StochState>)
    ensures r == Create(p.period, p.smoothing)
  {
    Create(p.period, p.smoothing)
  }

  /** Reading back a written oscillator gives it reset, so replaying inputs reproduces its outputs. */
  lemma DecodeEncode(s: StochState)
    requires Valid(s)
    ensures Decode(Encode(s)) == Ok(Restart(s))
  {
  }

  /** The oscillator of the source: its periods, its candle window and a moving-average object. */
  class StochasticOscillator {
    var period: nat
    var smoothingPeriod: nat
    var values: seq<Hlc>
    var d: Sma.SimpleMovingAverage

    function State(): StochState reads this, d { StochState(period, smoothingPeriod, values, d.State()) }

    constructor Init(period: nat, smoothingPeriod: nat, d: Sma.SimpleMovingAverage)
      ensures this.period == period && this.smoothingPeriod == smoothingPeriod && values == [] && this.d == d
    {
      this.period, this.smoothingPeriod, values, this.d := period, smoothingPeriod, [], d;
    }

    static method New(period: nat, smoothingPeriod: nat) returns (r: Result<StochasticOscillator>)
      ensures r.Ok? <==> period > 0 && smoothingPeriod > 0
      ensures r.Err? ==> r.error == InvalidParameter
      ensures r.Ok? ==> fresh(r.value) && fresh(r.value.d) && r.value.State() == Create(period, smoothingPeriod).value
    {
      if period == 0 {
        return Err(InvalidParameter);
      }
      var dr := Sma.SimpleMovingAverage.New(smoothingPeriod);
      if dr.Err? {
        return Err(dr.error);
      }
      var st := new StochasticOscillator.Init(period, smoothingPeriod, dr.value);
      return Ok(st);
    }

    /** `Default`: periods 14 and 3. */
    static method Default() returns (st: StochasticOscillator)
      ensures fresh(st) && fresh(st.d) && st.State() == Create(14, 3).value
    {
      var r := New(14, 3);
      st := r.value;
    }

    method Next(b: Candles.Bar) returns (out: StochOutput)
      requires d.period > 0
      modifies this, d
      ensures d == old(d)
      ensures State() == Step(old(State()), b).0 && out == Step(old(State()), b).1
    {
      values := values + [HlcOf(b)];
      if |values| > period {
        values := values[1..];
      }
      var k := RawK(values, b.close);
      var dv := d.Next(k);
      out := StochOutput(k * 100.0, dv * 100.0);
    }

    /** The corrected `reset`: the window and the %D average. */
    method Reset()
      modifies this, d
      ensures d == old(d)
      ensures State() == Restart(old(State()))
    {
      values := [];
      d.Reset();
    }

    function Period(): nat reads this { period }
  }
}
