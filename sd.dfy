/**
 * The rolling standard deviation (src/indicators/sd.rs): Welford's running
 * mean `m` and sum of squared deviations `m2` over the last `period` inputs,
 * which a ring buffer `deque` remembers so that the oldest one can be taken
 * out again.  The output is the population standard deviation of the window.
 */
module Sd {
  import opened Wrappers
  import opened Numeric
  import Externals
  import Candles

  datatype SdState = SdState(period: nat, index: nat, count: nat, m: real, m2: real, deque: seq<real>)

  /** The ring buffer has one slot per period, the cursor is inside it, at most `period` inputs are counted. */
  predicate Valid(s: SdState)
  {
    s.period > 0 && |s.deque| == s.period && s.index < s.period && s.count <= s.period
  }

  function Zeros(n: nat): (r: seq<real>)
    ensures |r| == n && forall i :: 0 <= i < n ==> r[i] == 0.0
  {
    seq(n, _ => 0.0)
  }

  function Create(period: nat): (r: Result<SdState>)
    ensures r.Ok? <==> period > 0
    ensures r.Err? ==> r.error == InvalidParameter
    ensures r.Ok? ==> Valid(r.value) && r.value.period == period && r.value.index == 0 && r.value.count == 0
    ensures r.Ok? ==> r.value.m == 0.0 && r.value.m2 == 0.0 && r.value.deque == Zeros(period)
  {
    if period == 0 then Err(InvalidParameter) else Ok(SdState(period, 0, 0, 0.0, 0.0, Zeros(period)))
  }

  /** A count, a running mean and a running sum of squared deviations. */
  datatype Welford = Welford(count: nat, mean: real, m2: real)

  /** Welford's update while the window fills: one more value counted. */
  function FillMoments(count: nat, m: real, m2: real, x: real): Welford
  {
    var count' := count + 1;
    var delta := x - m;
    var m' := m + delta / (count' as real);
    var delta2 := x - m';
    Welford(count', m', m2 + delta * delta2)
  }

  /** The update once the window is full: `oldVal` leaves and `x` enters. */
  function SlideMoments(period: nat, count: nat, m: real, m2: real, x: real, oldVal: real): Welford
    requires period > 0
  {
    var delta := x - oldVal;
    var m' := m + delta / (period as real);
    var delta2 := x - m' + oldVal - m;
    Welford(count, m', m2 + delta * delta2)
  }

  /** The new count, mean and unclamped squared deviations, by whether the window is full. */
  function StepMoments(s: SdState, x: real): Welford
    requires Valid(s)
  {
    if s.count < s.period then FillMoments(s.count, s.m, s.m2, x)
    else SlideMoments(s.period, s.count, s.m, s.m2, x, s.deque[s.index])
  }

  /** The state after `next(input)`, with `m2` clamped at 0. */
  function Advance(s: SdState, x: real): (r: SdState)
    requires Valid(s)
    ensures Valid(r) && r.period == s.period
    ensures 1 <= r.count <= r.period && r.m2 >= 0.0
    ensures r.index == if s.index + 1 < s.period then s.index + 1 else 0
    ensures r.deque == s.deque[s.index := x]
  {
    var moments := StepMoments(s, x);
    SdState(s.period, if s.index + 1 < s.period then s.index + 1 else 0,
            moments.count, moments.mean, if moments.m2 < 0.0 then 0.0 else moments.m2,
            s.deque[s.index := x])
  }

  /** The output after a step: the square root of m2 / count. */
  function Output(env: Externals.Env, s: SdState): real
    requires s.count > 0
  {
    env.sqrt(s.m2 / (s.count as real))
  }

  /** `next(input)`: the new state and the output. */
  function Step(env: Externals.Env, s: SdState, x: real): (r: (SdState, real))
    requires Valid(s)
    ensures r.0 == Advance(s, x)
    ensures Externals.Sound(env) ==> r.1 >= 0.0
  {
    var t := Advance(s, x);
    assert t.m2 / (t.count as real) >= 0.0;
    (t, Output(env, t))
  }

  /** `mean()`: the running mean. */
  function MeanOf(s: SdState): real { s.m }

  /** `reset`: every field back to its constructed value, the same period. */
  function Restart(s: SdState): (r: SdState)
    ensures s.period > 0 ==> r == Create(s.period).value
  {
    SdState(s.period, 0, 0, 0.0, 0.0, Zeros(s.period))
  }

  /** The period this indicator reports (its own `period()` in src/indicators/sd.rs). */
  function Period(s: SdState): nat { s.period }

  // ------------------------------------------------------------------ the window

  /** The ring buffer lists the window `w` oldest first, starting from the cursor. */
  ghost predicate Ring(s: SdState, w: seq<real>)
  {
    Valid(s) && |w| == s.count
    && (s.count < s.period ==> s.index == s.count && w == s.deque[..s.count])
    && (s.count == s.period ==> w == s.deque[s.index..] + s.deque[..s.index])
  }

  /** `m` is the mean of the window `w` and `m2` its sum of squared deviations from it. */
  ghost predicate Moments(s: SdState, w: seq<real>)
  {
    Sum(w) == (|w| as real) * s.m && s.m2 == SumSq(w) - (|w| as real) * s.m * s.m
  }

  ghost predicate Holds(s: SdState, w: seq<real>) { Ring(s, w) && Moments(s, w) }

  lemma CreateHoldsNothing(period: nat)
    requires period > 0
    ensures Holds(Create(period).value, [])
  {
  }

  /**
   * Welford's fill step in the reals: from `n` values with sum `s` and sum of
   * squares `q` to `n + 1` values with sum `s'` and sum of squares `q'`.
   */
  lemma FillAlgebra(s: real, q: real, s': real, q': real, n: real, m: real, m2: real, x: real, m': real, m2': real)
    requires n >= 0.0 && s == n * m && m2 == q - n * m * m
    requires s' == s + x && q' == q + x * x
    requires m' == m + (x - m) / (n + 1.0) && m2' == m2 + (x - m) * (x - m')
    ensures (n + 1.0) * m' == s' && m2' == q' - (n + 1.0) * m' * m'
  {
    assert (n + 1.0) * m' == n * m + x;
    calc {
      (q + x * x) - (n + 1.0) * m' * m';
      (q + x * x) - (n * m + x) * m';
      m2 + n * m * m + x * x - n * m * m' - x * m';
    }
    assert m * ((n + 1.0) * m' - n * m - x) == 0.0;
  }

  /** The sliding step in the reals: `o` leaves a window of `p` values and `x` enters. */
  lemma SlideAlgebra(s: real, q: real, s': real, q': real, p: real, m: real, m2: real, x: real, o: real, m': real, m2': real)
    requires p > 0.0 && s == p * m && m2 == q - p * m * m
    requires s' == s - o + x && q' == q - o * o + x * x
    requires m' == m + (x - o) / p && m2' == m2 + (x - o) * (x - m' + o - m)
    ensures p * m' == s' && m2' == q' - p * m' * m'
  {
    assert p * m' == p * m + x - o;
    assert p * (m' - m) == x - o;
    assert p * (m' * m' - m * m) == (x - o) * (m' + m) by {
      assert m' * m' - m * m == (m' - m) * (m' + m);
    }
  }

  /** With `n` values and n * m == Sum, SumSq - n * m^2 is the sum of squared deviations from `m`. */
  lemma DeviationIsSqDev(w: seq<real>, m: real)
    requires Sum(w) == (|w| as real) * m
    ensures SumSq(w) - (|w| as real) * m * m == SqDev(w, m) >= 0.0
  {
    SqDevExpand(w, m);
    SqDevNonNegative(w, m);
    assert 2.0 * m * Sum(w) == 2.0 * (|w| as real) * m * m;
  }

  /** ... and `m` is the mean. */
  lemma MeanFromSum(w: seq<real>, m: real)
    requires |w| > 0 && Sum(w) == (|w| as real) * m
    ensures Mean(w) == m
  {
    DivideProduct(Sum(w), |w| as real, m);
  }

  lemma DivideProduct(a: real, n: real, m: real)
    requires n != 0.0 && a == n * m
    ensures a / n == m
  {
  }

  /** Hence SumSq - n * m^2 is never negative. */
  lemma DeviationNonNegative(w: seq<real>, m: real)
    requires Sum(w) == (|w| as real) * m
    ensures SumSq(w) - (|w| as real) * m * m >= 0.0
  {
    DeviationIsSqDev(w, m);
  }

  /** One step keeps the ring buffer listing the slid window. */
  lemma RingStep(s: SdState, w: seq<real>, x: real)
    requires Ring(s, w)
    ensures Ring(Advance(s, x), Slide(w, x, s.period))
    ensures s.count == s.period ==> w[0] == s.deque[s.index]
  {
    var p := s.period;
    var deque := s.deque[s.index := x];
    if s.count < p {
      assert deque[..s.count + 1] == s.deque[..s.count] + [x];
      if s.count + 1 == p {
        assert deque[0..] + deque[..0] == deque;
      }
    } else {
      var o := s.deque[s.index];
      assert s.deque[s.index..] == [o] + s.deque[s.index + 1..];
      assert w[1..] == s.deque[s.index + 1..] + s.deque[..s.index];
      if s.index + 1 < p {
        assert deque[s.index + 1..] == s.deque[s.index + 1..];
        assert deque[..s.index + 1] == s.deque[..s.index] + [x];
      } else {
        assert deque == s.deque[..s.index] + [x];
        assert deque[0..] + deque[..0] == deque;
      }
    }
  }

  /** `r` counts the values of `w` and has their exact mean and unclamped squared deviations. */
  ghost predicate WindowMoments(w: seq<real>, r: Welford)
  {
    r.count == |w| && Sum(w) == (r.count as real) * r.mean && r.m2 == SumSq(w) - (r.count as real) * r.mean * r.mean
  }

  lemma SnocSums(w: seq<real>, x: real)
    ensures Sum(w + [x]) == Sum(w) + x && SumSq(w + [x]) == SumSq(w) + x * x
  {
    SumSnoc(w, x);
    SumSqAppend(w, [x]);
    assert SumSq([x]) == x * x;
  }

  /** Dropping the first value of a window and appending `x`. */
  lemma SlideSums(w: seq<real>, x: real)
    requires |w| > 0
    ensures Sum(w[1..] + [x]) == Sum(w) - w[0] + x && SumSq(w[1..] + [x]) == SumSq(w) - w[0] * w[0] + x * x
  {
    SnocSums(w[1..], x);
  }

  lemma FillExact(s: SdState, sum: real, sumSq: real, x: real)
    requires sum == (s.count as real) * s.m && s.m2 == sumSq - (s.count as real) * s.m * s.m
    ensures var r := FillMoments(s.count, s.m, s.m2, x);
            sum + x == (r.count as real) * r.mean && r.m2 == sumSq + x * x - (r.count as real) * r.mean * r.mean
  {
    var r := FillMoments(s.count, s.m, s.m2, x);
    FillAlgebra(sum, sumSq, sum + x, sumSq + x * x, s.count as real, s.m, s.m2, x, r.mean, r.m2);
  }

  /** While the window fills, Welford's update keeps mean and squared deviations exact. */
  lemma FillWindow(s: SdState, w: seq<real>, x: real)
    requires |w| == s.count && Moments(s, w)
    ensures WindowMoments(w + [x], FillMoments(s.count, s.m, s.m2, x))
  {
    SnocSums(w, x);
    FillExact(s, Sum(w), SumSq(w), x);
  }

  lemma SlideExact(s: SdState, sum: real, sumSq: real, x: real, o: real)
    requires s.period > 0
    requires sum == (s.period as real) * s.m && s.m2 == sumSq - (s.period as real) * s.m * s.m
    ensures var r := SlideMoments(s.period, s.count, s.m, s.m2, x, o);
            sum - o + x == (s.period as real) * r.mean && r.m2 == sumSq - o * o + x * x - (s.period as real) * r.mean * r.mean
  {
    var r := SlideMoments(s.period, s.count, s.m, s.m2, x, o);
    SlideAlgebra(sum, sumSq, sum - o + x, sumSq - o * o + x * x, s.period as real, s.m, s.m2, x, o, r.mean, r.m2);
  }

  /** Once full, replacing the oldest value keeps mean and squared deviations exact. */
  lemma SlideWindowMoments(s: SdState, w: seq<real>, x: real)
    requires s.period > 0 && |w| == s.count == s.period && Moments(s, w)
    ensures WindowMoments(w[1..] + [x], SlideMoments(s.period, s.count, s.m, s.m2, x, w[0]))
  {
    SlideSums(w, x);
    SlideExact(s, Sum(w), SumSq(w), x, w[0]);
  }

  /** Exact moments of a window carry over to a state holding them, the clamp never firing. */
  lemma ClampedMoments(t: SdState, w: seq<real>, r: Welford)
    requires WindowMoments(w, r) && t.m == r.mean && t.m2 == (if r.m2 < 0.0 then 0.0 else r.m2)
    ensures Moments(t, w)
  {
    DeviationNonNegative(w, r.mean);
  }

  lemma FillStep(s: SdState, w: seq<real>, x: real)
    requires Valid(s) && |w| == s.count && s.count < s.period && Moments(s, w)
    ensures Moments(Advance(s, x), w + [x])
  {
    FillWindow(s, w, x);
    ClampedMoments(Advance(s, x), w + [x], StepMoments(s, x));
  }

  lemma SlideStep(s: SdState, w: seq<real>, x: real)
    requires Valid(s) && |w| == s.count == s.period && Moments(s, w) && w[0] == s.deque[s.index]
    ensures Moments(Advance(s, x), w[1..] + [x])
  {
    SlideWindowMoments(s, w, x);
    ClampedMoments(Advance(s, x), w[1..] + [x], StepMoments(s, x));
  }

  /** One step keeps the state holding the slid window; the clamp never fires. */
  lemma StepHolds(s: SdState, w: seq<real>, x: real)
    requires Holds(s, w)
    ensures Holds(Advance(s, x), Slide(w, x, s.period))
  {
    RingStep(s, w, x);
    if s.count < s.period {
      FillStep(s, w, x);
    } else {
      SlideStep(s, w, x);
    }
  }

  /** Feeds `xs` in order; the final state and the outputs. */
  function Feed(env: Externals.Env, s: SdState, xs: seq<real>): (r: (SdState, seq<real>))
    requires Valid(s)
    ensures Valid(r.0) && r.0.period == s.period && |r.1| == |xs|
    decreases |xs|
  {
    if |xs| == 0 then (s, [])
    else
      var (s1, outs) := Feed(env, s, xs[..|xs| - 1]);
      var (s2, o) := Step(env, s1, xs[|xs| - 1]);
      (s2, outs + [o])
  }

  /** From construction, the state holds the last `min(n, period)` inputs. */
  lemma {:induction false} FeedHoldsWindow(env: Externals.Env, period: nat, xs: seq<real>)
    requires period > 0
    ensures Holds(Feed(env, Create(period).value, xs).0, Window(xs, period))
    decreases |xs|
  {
    if |xs| == 0 {
      CreateHoldsNothing(period);
    } else {
      var init := xs[..|xs| - 1];
      FeedHoldsWindow(env, period, init);
      StepHolds(Feed(env, Create(period).value, init).0, Window(init, period), xs[|xs| - 1]);
      SlideWindow(init, xs[|xs| - 1], period);
      assert init + [xs[|xs| - 1]] == xs;
    }
  }

  /**
   * After at least one input, `m` is the mean of the window and the output is
   * the population standard deviation of the window.
   */
  /** The last output of a run is the output of its final state. */
  lemma FeedLast(env: Externals.Env, s: SdState, xs: seq<real>)
    requires Valid(s) && |xs| > 0
    ensures Feed(env, s, xs).0.count > 0
    ensures Feed(env, s, xs).1[|xs| - 1] == Output(env, Feed(env, s, xs).0)
  {
  }

  /** A state holding a non-empty window has its mean and outputs its population standard deviation. */
  lemma HoldsMeanAndDeviation(env: Externals.Env, s: SdState, w: seq<real>)
    requires s.count == |w| > 0 && Moments(s, w)
    ensures MeanOf(s) == Mean(w)
    ensures Output(env, s) == Deviation(env, w)
  {
    assert Mean(w) == s.m by { MeanFromSum(w, s.m); }
    assert s.m2 == SqDev(w, s.m) by { DeviationIsSqDev(w, s.m); }
  }

  /** The population standard deviation of a non-empty window. */
  function Deviation(env: Externals.Env, w: seq<real>): real
    requires |w| > 0
  {
    env.sqrt(SqDev(w, Mean(w)) / (|w| as real))
  }

  lemma MeanAndDeviationOfWindow(env: Externals.Env, period: nat, xs: seq<real>)
    requires period > 0 && |xs| > 0
    ensures MeanOf(Feed(env, Create(period).value, xs).0) == Mean(Window(xs, period))
    ensures Feed(env, Create(period).value, xs).1[|xs| - 1] == Deviation(env, Window(xs, period))
  {
    FeedHoldsWindow(env, period, xs);
    FeedLast(env, Create(period).value, xs);
    HoldsMeanAndDeviation(env, Feed(env, Create(period).value, xs).0, Window(xs, period));
  }

  /** A constant input gives a zero deviation every time. */
  /** A constant non-empty window has deviation 0. */
  lemma ConstantDeviation(env: Externals.Env, w: seq<real>, c: real)
    requires Externals.Sound(env) && |w| > 0 && Constant(w, c)
    ensures Deviation(env, w) == 0.0
  {
    ConstantWindow(w, c);
    MeanFromSum(w, c);
    Externals.SqrtZero(env);
  }

  lemma ConstantInputGivesZero(env: Externals.Env, period: nat, xs: seq<real>, c: real)
    requires Externals.Sound(env) && period > 0 && |xs| > 0 && Constant(xs, c)
    ensures Feed(env, Create(period).value, xs).1[|xs| - 1] == 0.0
  {
    MeanAndDeviationOfWindow(env, period, xs);
    assert Constant(Window(xs, period), c);
    ConstantDeviation(env, Window(xs, period), c);
  }

  /** After a reset the next output is 0. */
  lemma FirstOutputAfterResetIsZero(env: Externals.Env, s: SdState, x: real)
    requires Externals.Sound(env) && s.period > 0
    ensures Step(env, Restart(s), x).1 == 0.0
  {
    StepHolds(Restart(s), [], x);
    Externals.SqrtZero(env);
  }

  /** SD(4): the inputs 10, 20 give 0 then 5, and 30 next gives the variance 200/3. */
  lemma PeriodFourExample(env: Externals.Env)
    requires Externals.Sound(env)
    ensures var s0 := Create(4).value;
            var (s1, o1) := Step(env, s0, 10.0);
            var (s2, o2) := Step(env, s1, 20.0);
            var s3 := Advance(s2, 30.0);
            o1 == 0.0 && o2 == 5.0 && s3.m2 / (s3.count as real) == 200.0 / 3.0
  {
    Externals.SqrtZero(env);
    Externals.SqrtOfSquare(env, 5.0);
  }

  /** The persisted form holds only the period; reading it back goes through `new`. */
  datatype SdParams = SdParams(period: nat)

  /** What this indicator's serde code in src/indicators/sd.rs writes: the parameters, no running state. */
  function Encode(s: SdState): SdParams { SdParams(s.period) }

  /** Reads the parameters back the way this indicator's serde code in src/indicators/sd.rs does. */
  function Decode(p: SdParams): (r: Result<SdState>)
    ensures r == Create(p.period)
  {
    Create(p.period)
  }

  lemma DecodeEncode(s: SdState)
    requires s.period > 0
    ensures Decode(Encode(s)) == Ok(Restart(s))
  {
  }

  /** The standard deviation of the source with its ring buffer as an array. */
  class StandardDeviation {
    var period: nat
    var index: nat
    var count: nat
    var m: real
    var m2: real
    var deque: array<real>

    function State(): SdState reads this, deque { SdState(period, index, count, m, m2, deque[..]) }

    constructor Init(period: nat)
      requires period > 0
      ensures fresh(deque) && State() == Create(period).value
    {
      this.period := period;
      index, count, m, m2 := 0, 0, 0.0, 0.0;
      deque := new real[period](_ => 0.0);
    }

    static method New(period: nat) returns (r: Result<StandardDeviation>)
      ensures r.Ok? <==> period > 0
      ensures r.Err? ==> r.error == InvalidParameter
      ensures r.Ok? ==> fresh(r.value) && fresh(r.value.deque) && r.value.State() == Create(period).value
    {
      if period == 0 {
        return Err(InvalidParameter);
      }
      var sd := new StandardDeviation.Init(period);
      return Ok(sd);
    }

    /** `Default`: period 9. */
    static method Default() returns (sd: StandardDeviation)
      ensures fresh(sd) && fresh(sd.deque) && sd.State() == Create(9).value
    {
      sd := new StandardDeviation.Init(9);
    }

    function Mean(): real reads this { m }

    method Next(env: Externals.Env, input: real) returns (out: real)
      requires Valid(State())
      modifies this, deque
      ensures deque == old(deque)
      ensures (State(), out) == Step(env, old(State()), input)
    {
      ghost var s := State();
      assert s.count == count && s.m == m && s.m2 == m2 && s.period == period && s.index == index;
      var oldVal := deque[index];
      deque[index] := input;
      index := if index + 1 < period then index + 1 else 0;
      var moments: Welford;
      if count < period {
        moments := FillMoments(count, m, m2, input);
      } else {
        moments := SlideMoments(period, count, m, m2, input, oldVal);
      }
      assert moments == StepMoments(s, input);
      count, m, m2 := moments.count, moments.mean, moments.m2;
      if m2 < 0.0 {
        m2 := 0.0;
      }
      assert deque[..] == s.deque[s.index := input];
      assert State() == Advance(s, input);
      out := env.sqrt(m2 / (count as real));
    }

    method NextCandle(env: Externals.Env, b: Candles.Bar) returns (out: real)
      requires Valid(State())
      modifies this, deque
      ensures deque == old(deque)
      ensures (State(), out) == Step(env, old(State()), b.close)
    {
      out := Next(env, b.close);
    }

    method Reset()
      requires Valid(State())
      modifies this, deque
      ensures deque == old(deque)
      ensures State() == Restart(old(State()))
    {
      index, count, m, m2 := 0, 0, 0.0, 0.0;
      var i := 0;
      while i < period
        modifies deque
        invariant 0 <= i <= period == deque.Length
        invariant forall j :: 0 <= j < i ==> deque[j] == 0.0
      {
        deque[i] := 0.0;
        i := i + 1;
      }
      assert deque[..] == Zeros(period);
    }

    function Period(): nat reads this { period }
  }
}
