/**
 * The simple moving average (sma.rs is not part of this model): modelled as
 * the mean of the last `min(n, period)` inputs, which is what the expected
 * values of the Bollinger band and standard deviation tests require of a
 * rolling mean.  `new(0)` is taken to fail with InvalidParameter, like every
 * other windowed indicator.
 */
module Sma {
  import opened Wrappers
  import Numeric
  import Candles

  datatype SmaState = SmaState(period: nat, window: seq<real>)

  predicate Valid(s: SmaState) { s.period > 0 && |s.window| <= s.period }

  function Create(period: nat): (r: Result<SmaState>)
    ensures r.Ok? <==> period > 0
    ensures r.Err? ==> r.error == InvalidParameter
    ensures r.Ok? ==> Valid(r.value) && r.value == SmaState(period, [])
  {
    if period == 0 then Err(InvalidParameter) else Ok(SmaState(period, []))
  }

  /** `next(x)`: the window slides over `x` and the output is its mean. */
  function Step(s: SmaState, x: real): (r: (SmaState, real))
    requires s.period > 0
    ensures r.0 == SmaState(s.period, Numeric.Slide(s.window, x, s.period))
    ensures r.1 == Numeric.Mean(r.0.window)
    ensures Valid(s) ==> Valid(r.0)
  {
    var w := Numeric.Slide(s.window, x, s.period);
    (SmaState(s.period, w), Numeric.Mean(w))
  }

  function StepCandle(s: SmaState, b: Candles.Bar): (r: (SmaState, real))
    requires s.period > 0
    ensures r == Step(s, b.close)
  {
    Step(s, b.close)
  }

  function Restart(s: SmaState): (r: SmaState)
    ensures r.period == s.period && r.window == []
    ensures s.period > 0 ==> r == Create(s.period).value
  {
    s.(window := [])
  }

  /** The period this indicator reports (its own `period()` in src/indicators/sma.rs). */
  function Period(s: SmaState): nat { s.period }

  /** Feeds `xs` in order through this indicator's own `next` in src/indicators/sma.rs; the final state and the outputs. */
  function Feed(s: SmaState, xs: seq<real>): (r: (SmaState, seq<real>))
    requires s.period > 0
    ensures r.0.period == s.period && |r.1| == |xs|
    decreases |xs|
  {
    if |xs| == 0 then (s, [])
    else
      var (s1, outs) := Feed(s, xs[..|xs| - 1]);
      var (s2, o) := Step(s1, xs[|xs| - 1]);
      (s2, outs + [o])
  }

  /** Feeding one more input extends the run by one step. */
  lemma FeedSnoc(s: SmaState, xs: seq<real>, x: real)
    requires s.period > 0
    ensures Feed(s, xs + [x]).0 == Step(Feed(s, xs).0, x).0
    ensures Feed(s, xs + [x]).1 == Feed(s, xs).1 + [Step(Feed(s, xs).0, x).1]
  {
    assert (xs + [x])[..|xs|] == xs;
  }

  /** From construction, the window is the last `min(n, period)` inputs and each output is its mean. */
  lemma {:induction false} FeedWindow(period: nat, xs: seq<real>)
    requires period > 0
    ensures Feed(Create(period).value, xs).0.window == Numeric.Window(xs, period)
    ensures |xs| > 0 ==> Feed(Create(period).value, xs).1[|xs| - 1] == Numeric.Mean(Numeric.Window(xs, period))
    decreases |xs|
  {
    if |xs| > 0 {
      var init := xs[..|xs| - 1];
      FeedWindow(period, init);
      Numeric.SlideWindow(init, xs[|xs| - 1], period);
      assert init + [xs[|xs| - 1]] == xs;
    }
  }

  /** The first output after construction or reset is the input. */
  lemma FirstOutputIsInput(s: SmaState, x: real)
    requires s.period > 0
    ensures Step(Restart(s), x).1 == x
  {
    assert Numeric.Slide([], x, s.period) == [x];
    assert Numeric.Sum([x]) == x;
  }

  /** The persisted form holds only the period. */
  datatype SmaParams = SmaParams(period: nat)

  /** What this indicator's serde code in src/indicators/sma.rs writes: the parameters, no running state. */
  function Encode(s: SmaState): SmaParams { SmaParams(s.period) }

  /** Reads the parameters back the way this indicator's serde code in src/indicators/sma.rs does. */
  function Decode(p: SmaParams): (r: Result<SmaState>)
    ensures r == Create(p.period)
  {
    Create(p.period)
  }

  lemma DecodeEncode(s: SmaState)
    requires s.period > 0
    ensures Decode(Encode(s)) == Ok(Restart(s))
  {
  }

  /** The moving average object: its period and the window it keeps. */
  class SimpleMovingAverage {
    var period: nat
    var window: seq<real>

    function State(): SmaState reads this { SmaState(period, window) }

    constructor Init(period: nat)
      requires period > 0
      ensures State() == Create(period).value
    {
      this.period, window := period, [];
    }

    static method New(period: nat) returns (r: Result<SimpleMovingAverage>)
      ensures r.Ok? <==> period > 0
      ensures r.Err? ==> r.error == InvalidParameter
      ensures r.Ok? ==> fresh(r.value) && r.value.State() == Create(period).value
    {
      if period == 0 {
        return Err(InvalidParameter);
      }
      var m := new SimpleMovingAverage.Init(period);
      return Ok(m);
    }

    method Next(input: real) returns (out: real)
      requires period > 0
      modifies this
      ensures (State(), out) == Step(old(State()), input)
    {
      if |window| < period {
        window := window + [input];
      } else {
        window := window[1..] + [input];
      }
      out := Numeric.Sum(window) / (|window| as real);
    }

    method NextCandle(b: Candles.Bar) returns (out: real)
      requires period > 0
      modifies this
      ensures (State(), out) == StepCandle(old(State()), b)
    {
      out := Next(b.close);
    }

    method Reset()
      modifies this
      ensures State() == Restart(old(State()))
    {
      window := [];
    }

    function Period(): nat reads this { period }
  }
}
