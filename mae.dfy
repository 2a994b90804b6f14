/**
 * The mean absolute error indicator (src/indicators/mae.rs): over the last
 * `period` inputs, the mean of the absolute deviations from the window's mean.
 */
module Mae {
  import opened Wrappers
  import Numeric
  import Candles

  datatype MaeState = MaeState(period: nat, values: seq<real>, mean: real)

  /** The window stays within `period`. */
  predicate Valid(s: MaeState) { s.period > 0 && |s.values| <= s.period }

  function Create(period: nat): (r: Result<MaeState>)
    ensures r.Ok? <==> period > 0
    ensures r.Err? ==> r.error == InvalidParameter
    ensures r.Ok? ==> Valid(r.value) && r.value == MaeState(period, [], 0.0)
  {
    if period == 0 then Err(InvalidParameter) else Ok(MaeState(period, [], 0.0))
  }

  /** `next(x)`: push `x`, drop the oldest beyond `period`, store the window's mean, answer the mean absolute deviation. */
  function Step(s: MaeState, x: real): (r: (MaeState, real))
    requires s.period > 0
    ensures r.0.period == s.period && r.0.values == Numeric.PushBounded(s.values, x, s.period)
    ensures r.0.mean == Numeric.Mean(r.0.values)
    ensures r.1 == Numeric.MeanAbsDev(r.0.values)
    ensures Valid(s) ==> Valid(r.0)
  {
    var vs := Numeric.PushBounded(s.values, x, s.period);
    (MaeState(s.period, vs, Numeric.Mean(vs)), Numeric.MeanAbsDev(vs))
  }

  function StepCandle(s: MaeState, b: Candles.Bar): (r: (MaeState, real))
    requires s.period > 0
    ensures r == Step(s, b.close)
  {
    Step(s, b.close)
  }

  /** `reset`: an empty window and a zero mean. */
  function Restart(s: MaeState): (r: MaeState)
    ensures r.period == s.period && r.values == [] && r.mean == 0.0
    ensures s.period > 0 ==> r == Create(s.period).value
  {
    MaeState(s.period, [], 0.0)
  }

  /** The period this indicator reports (its own `period()` in src/indicators/mae.rs). */
  function Period(s: MaeState): nat { s.period }

  /** The output is never negative. */
  lemma NonNegative(s: MaeState, x: real)
    requires s.period > 0
    ensures Step(s, x).1 >= 0.0
  {
    var vs := Step(s, x).0.values;
    Numeric.AbsDevNonNegative(vs, Numeric.Mean(vs));
  }

  /** A window equal to the input throughout answers 0; in particular the first input after construction or reset. */
  lemma ConstantIsZero(s: MaeState, x: real)
    requires Valid(s) && Numeric.Constant(s.values, x)
    ensures Step(s, x).1 == 0.0 && Step(s, x).0.mean == x
    ensures Numeric.Constant(Step(s, x).0.values, x)
  {
    Numeric.PushBoundedSlides(s.values, x, s.period);
    Numeric.ConstantSlide(s.values, x, s.period);
    Numeric.ConstantMean(Step(s, x).0.values, x);
  }

  lemma FirstOutputIsZero(s: MaeState, x: real)
    requires s.period > 0
    ensures Step(Restart(s), x).1 == 0.0
  {
    ConstantIsZero(Restart(s), x);
  }

  /** Feeds `xs` in order through this indicator's own `next` in src/indicators/mae.rs; the final state and the outputs. */
  function Feed(s: MaeState, xs: seq<real>): (r: (MaeState, seq<real>))
    requires s.period > 0
    ensures r.0.period == s.period && |r.1| == |xs|
    decreases |xs|
  {
    if |xs| == 0 then (s, [])
    else
      var (s1, outs) := Feed(s, xs[..|xs| - 1]);
      var (s2, o) := Step(s1, xs[|xs| - 1]);
      (s2, outs + [o])
  }

  /**
   * From construction the window is the last `min(n, period)` inputs, `mean`
   * is their mean and the output their mean absolute deviation.
   */
  lemma {:induction false} FeedWindow(period: nat, xs: seq<real>)
    requires period > 0
    ensures Feed(Create(period).value, xs).0.values == Numeric.Window(xs, period)
    ensures |xs| > 0 ==> var w := Numeric.Window(xs, period);
                         Feed(Create(period).value, xs).0.mean == Numeric.Mean(w)
                         && Feed(Create(period).value, xs).1[|xs| - 1] == Numeric.MeanAbsDev(w)
    decreases |xs|
  {
    if |xs| > 0 {
      var s0 := Create(period).value;
      var init, x := xs[..|xs| - 1], xs[|xs| - 1];
      var (s1, outs) := Feed(s0, init);
      FeedWindow(period, init);
      var (s2, o) := Step(s1, x);
      assert Feed(s0, xs) == (s2, outs + [o]);
      Numeric.PushBoundedSlides(Numeric.Window(init, period), x, period);
      Numeric.SlideWindow(init, x, period);
      Numeric.SplitLast(xs);
      assert s2.values == Numeric.Window(xs, period);
    }
  }

  /** MAE(3) on 1, 2, 6: the third output is the mean distance from 3, that is 2. */
  lemma PeriodThreeExample()
    ensures var s0 := Create(3).value;
            var (s1, o1) := Step(s0, 1.0);
            var (s2, o2) := Step(s1, 2.0);
            var (s3, o3) := Step(s2, 6.0);
            o1 == 0.0 && o2 == 0.5 && o3 == 2.0 && s3.mean == 3.0
  {
    var s0 := Create(3).value;
    assert Numeric.PushBounded([], 1.0, 3) == [1.0];
    assert Numeric.PushBounded([1.0], 2.0, 3) == [1.0, 2.0];
    assert Numeric.PushBounded([1.0, 2.0], 6.0, 3) == [1.0, 2.0, 6.0];
    assert Numeric.Sum([1.0, 2.0]) == 3.0 && Numeric.AbsDev([1.0, 2.0], 1.5) == 1.0;
    assert Numeric.Sum([1.0, 2.0, 6.0]) == 9.0 && Numeric.AbsDev([1.0, 2.0, 6.0], 3.0) == 6.0;
  }

  /**
   * The persisted form holds only the period (window and mean are skipped and
   * read back empty and zero); reading it back goes through `new`.
   */
  datatype MaeParams = MaeParams(period: nat)

  /** What this indicator's serde code in src/indicators/mae.rs writes: the parameters, no running state. */
  function Encode(s: MaeState): MaeParams { MaeParams(s.period) }

  /** Deserialization as the derived reader does it: any period is accepted. */
  function DecodeAsWritten(p: MaeParams): (r: Result<MaeState>)
    ensures r == Ok(MaeState(p.period, [], 0.0))
  {
    Ok(MaeState(p.period, [], 0.0))
  }

  /** As written, a zero period is read back although `new` refuses it. */
  lemma DecodeAsWrittenAcceptsZeroPeriod()
    ensures DecodeAsWritten(MaeParams(0)).Ok? && Create(0).Err?
  {
  }

  /** Reads the parameters back the way this indicator's serde code in src/indicators/mae.rs does. */
  function Decode(p: MaeParams): (r: Result<MaeState>)
    ensures r == Create(p.period)
  {
    Create(p.period)
  }

  lemma DecodeEncode(s: MaeState)
    requires Valid(s)
    ensures Decode(Encode(s)) == Ok(Restart(s))
  {
  }

  /** The indicator of the source: its period, window and stored mean. */
  class MeanAbsoluteError {
    var period: nat
    var values: seq<real>
    var mean: real

    function State(): MaeState reads this { MaeState(period, values, mean) }

    constructor Init(period: nat)
      ensures State() == MaeState(period, [], 0.0)
    {
      this.period, values, mean := period, [], 0.0;
    }

    static method New(period: nat) returns (r: Result<MeanAbsoluteError>)
      ensures r.Ok? <==> period > 0
      ensures r.Err? ==> r.error == InvalidParameter
      ensures r.Ok? ==> fresh(r.value) && r.value.State() == Create(period).value
    {
      if period == 0 {
        return Err(InvalidParameter);
      }
      var m := new MeanAbsoluteError.Init(period);
      return Ok(m);
    }

    /** `Default`: period 14. */
    static method Default() returns (m: MeanAbsoluteError)
      ensures fresh(m) && m.State() == Create(14).value
    {
      m := new MeanAbsoluteError.Init(14);
    }

    method Next(input: real) returns (out: real)
      requires period > 0
      modifies this
      ensures State() == Step(old(State()), input).0 && out == Step(old(State()), input).1
    {
      values := values + [input];
      if |values| > period {
        values := values[1..];
      }
      mean := Numeric.Sum(values) / (|values| as real);
      out := Numeric.AbsDev(values, mean) / (|values| as real);
    }

    method NextCandle(b: Candles.Bar) returns (out: real)
      requires period > 0
      modifies this
      ensures State() == StepCandle(old(State()), b).0 && out == StepCandle(old(State()), b).1
    {
      out := Next(b.close);
    }

    method Reset()
      modifies this
      ensures State() == Restart(old(State()))
    {
      values := [];
      mean := 0.0;
    }

    function Period(): nat reads this { period }
  }
}
