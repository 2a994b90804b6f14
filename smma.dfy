/**
 * The smoothed moving average (src/indicators/smma.rs).  The queue is seeded
 * with one dummy 0.0; it is evicted by the `period`-th input, whose output is
 * the plain mean of the first `period` inputs.  From then on every output is
 * `(previous * (period - 1) + input) / period`.
 */
module Smma {
  import opened Wrappers
  import opened HelperTypes
  import Numeric
  import Candles

  datatype SmmaState = SmmaState(period: nat, queue: QueueState<real>, smma: Option<real>)

  /** The queue has the average's period as capacity and never overflows it. */
  predicate Valid(s: SmmaState)
  {
    s.period >= 1 && s.queue.period == s.period && QueueBounded(s.queue)
  }

  function Create(period: nat): (r: Result<SmmaState>)
    ensures r.Ok? <==> period >= 2
    ensures r.Err? ==> r.error == InvalidParameter
    ensures r.Ok? ==> Valid(r.value) && r.value.period == period
    ensures r.Ok? ==> r.value.queue.items == [0.0] && r.value.smma == None
  {
    if period < 2 then Err(InvalidParameter)
    else Ok(SmmaState(period, QueueNextWith(QueueNew<real>(period).value, 0.0).0, None))
  }

  /** `next(input)`: the new state and the output. */
  function Step(s: SmmaState, x: real): (r: (SmmaState, real))
    requires s.period > 0
    ensures r.0.period == s.period && r.0.queue.period == s.queue.period
    ensures Valid(s) ==> Valid(r.0)
    ensures s.smma.Some? ==> r.0.queue == s.queue
  {
    if s.smma.None? then
      var (q, evicted) := QueueNextWith(s.queue, x);
      if evicted.Some? then
        var avg := Numeric.Sum(q.items) / (s.period as real);
        (SmmaState(s.period, q, Some(avg)), avg)
      else
        (SmmaState(s.period, q, None), x)
    else
      var v := (s.smma.value * ((s.period as real) - 1.0) + x) / (s.period as real);
      (s.(smma := Some(v)), v)
  }

  function StepCandle(s: SmmaState, b: Candles.Bar): (r: (SmmaState, real))
    requires s.period > 0
    ensures r == Step(s, b.close)
  {
    Step(s, b.close)
  }

  /** `reset`: a fresh queue with the dummy 0.0 pushed, no average. */
  function Restart(s: SmmaState): (r: SmmaState)
    ensures s.period >= 2 ==> r == Create(s.period).value
    ensures r.period == s.period && r.smma.None?
  {
    SmmaState(s.period, QueueNextWith(QueueState([], s.period), 0.0).0, None)
  }

  /** The period this indicator reports (its own `period()` in src/indicators/smma.rs). */
  function Period(s: SmmaState): nat { s.period }

  /** Feeds `xs` in order; the final state and the outputs. */
  function Feed(s: SmmaState, xs: seq<real>): (r: (SmmaState, seq<real>))
    requires s.period > 0
    ensures r.0.period == s.period && |r.1| == |xs|
    decreases |xs|
  {
    if |xs| == 0 then (s, [])
    else
      var (s1, outs) := Feed(s, xs[..|xs| - 1]);
      var (s2, o) := Step(s1, xs[|xs| - 1]);
      (s2, outs + [o])
  }

  /**
   * While it fills, the queue holds the dummy and the inputs, and every output
   * is its input.
   */
  lemma {:induction false} Seeding(period: nat, xs: seq<real>)
    requires period >= 2 && |xs| < period
    ensures Feed(Create(period).value, xs) == (SmmaState(period, QueueState([0.0] + xs, period), None), xs)
    decreases |xs|
  {
    if |xs| > 0 {
      var init, x := xs[..|xs| - 1], xs[|xs| - 1];
      Seeding(period, init);
      var s1 := SmmaState(period, QueueState([0.0] + init, period), None);
      assert Step(s1, x) == (SmmaState(period, QueueState([0.0] + init + [x], period), None), x);
      assert Feed(Create(period).value, xs) == (Step(s1, x).0, init + [x]);
      assert init + [x] == xs;
      assert [0.0] + init + [x] == [0.0] + xs;
      assert Step(s1, x).0 == SmmaState(period, QueueState([0.0] + xs, period), None);
    } else {
      assert [0.0] + xs == [0.0];
    }
  }

  /** The `period`-th input evicts the dummy; the output is the mean of the first `period` inputs. */
  lemma {:induction false} FirstAverage(period: nat, xs: seq<real>)
    requires period >= 2 && |xs| == period
    ensures var (s, outs) := Feed(Create(period).value, xs);
            outs[period - 1] == Numeric.Mean(xs) && s.smma == Some(Numeric.Mean(xs))
            && s.queue.items == xs && outs[..period - 1] == xs[..period - 1]
  {
    var init, x := xs[..period - 1], xs[period - 1];
    Seeding(period, init);
    var s1 := SmmaState(period, QueueState([0.0] + init, period), None);
    assert init + [x] == xs;
    assert ([0.0] + init + [x])[1..] == xs;
    var q := QueueState(xs, period);
    assert QueueNextWith(s1.queue, x) == (q, Some(0.0));
    assert Step(s1, x) == (SmmaState(period, q, Some(Numeric.Mean(xs))), Numeric.Mean(xs));
  }

  /** After seeding each output is (previous * (period - 1) + input) / period. */
  lemma Smoothing(s: SmmaState, x: real)
    requires s.period > 0 && s.smma.Some?
    ensures Step(s, x).1 == (s.smma.value * ((s.period as real) - 1.0) + x) / (s.period as real)
    ensures Step(s, x).0.smma == Some(Step(s, x).1)
  {
  }

  /** Feeding one more input steps the state the earlier inputs left. */
  lemma FeedSnoc(s: SmmaState, xs: seq<real>, x: real)
    requires s.period > 0
    ensures Feed(s, xs + [x]) == (Step(Feed(s, xs).0, x).0, Feed(s, xs).1 + [Step(Feed(s, xs).0, x).1])
  {
    assert (xs + [x])[..|xs|] == xs;
  }

  /** SMMA(3) on 1, 2, 3: the inputs twice, then their mean 2, which seeds the smoothing. */
  lemma FirstThree()
    ensures Feed(Create(3).value, [1.0, 2.0, 3.0]).1 == [1.0, 2.0, 2.0]
    ensures Feed(Create(3).value, [1.0, 2.0, 3.0]).0.smma == Some(2.0)
  {
    var a := [1.0, 2.0, 3.0];
    FirstAverage(3, a);
    assert a[1..] == [2.0, 3.0] && a[1..][1..] == [3.0];
    assert Numeric.Sum(a) == 6.0;
    var outs := Feed(Create(3).value, a).1;
    assert outs[..2] == [1.0, 2.0] && outs[2] == 2.0;
    assert outs == outs[..2] + [outs[2]];
  }

  /** Smoothing with a known period and previous average. */
  lemma SmoothingFrom(s: SmmaState, x: real, p: nat, prev: real)
    requires s.period == p > 0 && s.smma == Some(prev)
    ensures Step(s, x).1 == (prev * ((p as real) - 1.0) + x) / (p as real)
    ensures Step(s, x).0.period == p && Step(s, x).0.smma == Some(Step(s, x).1)
  {
    Smoothing(s, x);
  }

  /** Seeded with 2, SMMA(3) answers 4 with 8/3 and then 5 with 31/9. */
  lemma AfterSeed(s: SmmaState)
    requires s.period == 3 && s.smma == Some(2.0)
    ensures Step(s, 4.0).1 == 8.0 / 3.0 && Step(Step(s, 4.0).0, 5.0).1 == 31.0 / 9.0
  {
    SmoothingFrom(s, 4.0, 3, 2.0);
    SmoothingFrom(Step(s, 4.0).0, 5.0, 3, 8.0 / 3.0);
  }

  /** SMMA(3) turns 1, 2, 3, 4, 5 into 1, 2, 2, 8/3, 31/9. */
  lemma PeriodThreeExample()
    ensures Feed(Create(3).value, [1.0, 2.0, 3.0, 4.0, 5.0]).1 == [1.0, 2.0, 2.0, 8.0 / 3.0, 31.0 / 9.0]
  {
    var s0 := Create(3).value;
    var a := [1.0, 2.0, 3.0];
    var b := a + [4.0];
    FirstThree();
    var r3 := Feed(s0, a);
    AfterSeed(r3.0);
    FeedSnoc(s0, a, 4.0);
    FeedSnoc(s0, b, 5.0);
    assert b + [5.0] == [1.0, 2.0, 3.0, 4.0, 5.0];
  }

  /** The persisted form holds only the period. */
  datatype SmmaParams = SmmaParams(period: nat)

  /** What this indicator's serde code in src/indicators/smma.rs writes: the parameters, no running state. */
  function Encode(s: SmmaState): SmmaParams { SmmaParams(s.period) }

  /** Deserialization as the source writes it: an empty queue, only `period > 0` checked. */
  function DecodeAsWritten(p: SmmaParams): (r: Result<SmmaState>)
    ensures r.Ok? <==> p.period > 0
    ensures r.Ok? ==> r.value.queue.items == [] && r.value.smma.None?
  {
    match QueueNew<real>(p.period)
    case Err(e) => Err(e)
    case Ok(q) => Ok(SmmaState(p.period, q, None))
  }

  /**
   * As written, a read-back average of period 2 answers 1, 2 to the inputs 1, 2
   * while a constructed one answers 1, 1.5; and period 1 is read back although
   * `new` rejects it.
   */
  lemma DecodeAsWrittenDiffersFromNew()
    ensures DecodeAsWritten(SmmaParams(1)).Ok? && Create(1).Err?
    ensures Feed(DecodeAsWritten(SmmaParams(2)).value, [1.0, 2.0]).1 == [1.0, 2.0]
    ensures Feed(Create(2).value, [1.0, 2.0]).1 == [1.0, 1.5]
  {
    var xs := [1.0, 2.0];
    assert xs[..1] == [1.0];
    FirstAverage(2, xs);
    assert Numeric.Sum(xs) == 3.0;
  }

  /** Deserialization through `new`, so that every read-back average is a constructed one. */
  function Decode(p: SmmaParams): (r: Result<SmmaState>)
    ensures r == Create(p.period)
  {
    Create(p.period)
  }

  /** Writing then reading a constructed average gives it back reset. */
  lemma DecodeEncode(s: SmmaState)
    requires s.period >= 2
    ensures Decode(Encode(s)) == Ok(Restart(s))
  {
  }

  /** The streaming average of the source, holding its queue as an object. */
  class SmoothedMovingAverage {
    var period: nat
    var queue: Queue<real>
    var smma: Option<real>

    function State(): SmmaState reads this, queue { SmmaState(period, queue.State(), smma) }

    constructor Init(p: nat, q: Queue<real>)
      ensures period == p && queue == q && smma == None
    {
      period, queue, smma := p, q, None;
    }

    static method New(period: nat) returns (r: Result<SmoothedMovingAverage>)
      ensures r.Ok? <==> period >= 2
      ensures r.Err? ==> r.error == InvalidParameter
      ensures r.Ok? ==> fresh(r.value) && fresh(r.value.queue) && r.value.State() == Create(period).value
    {
      if period < 2 {
        return Err(InvalidParameter);
      }
      var qr := Queue<real>.New(period);
      var q := qr.value;
      var _ := q.NextWith(0.0);
      var m := new SmoothedMovingAverage.Init(period, q);
      return Ok(m);
    }

    /** `Default`: `new(14)`. */
    static method Default() returns (m: SmoothedMovingAverage)
      ensures fresh(m) && fresh(m.queue) && m.State() == Create(14).value
    {
      var r := New(14);
      m := r.value;
    }

    method Next(input: real) returns (out: real)
      requires period > 0
      modifies queue
      modifies this
      ensures queue == old(queue) && period == old(period)
      ensures (State(), out) == Step(old(State()), input)
    {
      if smma.None? {
        var evicted := queue.NextWith(input);
        if evicted.Some? {
          var avg := Numeric.Sum(queue.queue) / (period as real);
          smma := Some(avg);
          assert State() == Step(old(State()), input).0;
          return avg;
        }
        assert State() == Step(old(State()), input).0;
        return input;
      }
      var v := (smma.value * ((period as real) - 1.0) + input) / (period as real);
      smma := Some(v);
      assert queue.State() == old(queue.State());
      assert old(State()).smma.Some?;
      assert old(State()).smma.value == old(smma).value;
      assert Step(old(State()), input).1 == v;
      assert Step(old(State()), input).0 == old(State()).(smma := Some(v));
      assert State() == Step(old(State()), input).0;
      out := v;
    }

    method NextCandle(b: Candles.Bar) returns (out: real)
      requires period > 0
      modifies queue
      modifies this
      ensures queue == old(queue) && period == old(period)
      ensures (State(), out) == StepCandle(old(State()), b)
    {
      out := Next(b.close);
    }

    method Reset()
      requires period > 0
      modifies this
      ensures fresh(queue) && period == old(period)
      ensures State() == Restart(old(State()))
    {
      var q := new Queue<real>.Init(QueueState([], period));
      var _ := q.NextWith(0.0);
      queue := q;
      smma := None;
    }

    function Period(): nat reads this { period }
  }
}
