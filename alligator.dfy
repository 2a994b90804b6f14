/**
 * The Alligator (src/indicators/alligator.rs): three smoothed moving averages,
 * the jaw, the teeth and the lips, each followed by a shift queue.  Every
 * line's output is its average delayed by the queue's capacity: once the queue
 * is full the value evicted by the push, before that the oldest value held.
 */
module Alligator {
  import opened Wrappers
  import opened HelperTypes
  import Numeric
  import Candles
  import Smma

  /** One line: its average and its shift queue. */
  datatype Line = Line(smma: Smma.SmmaState, buffer: QueueState<real>)

  datatype AlligatorState = AlligatorState(jaw: Line, teeth: Line, lips: Line)

  datatype AlligatorOutput = AlligatorOutput(jaw: real, teeth: real, lips: real)

  /** A constructed line: an average of period at least 2, a bounded queue of capacity at least 1. */
  predicate LineValid(l: Line)
  {
    Smma.Valid(l.smma) && l.smma.period >= 2 && l.buffer.period >= 1 && QueueBounded(l.buffer)
  }

  predicate Valid(s: AlligatorState) { LineValid(s.jaw) && LineValid(s.teeth) && LineValid(s.lips) }

  /** A fresh line of average period `period` and shift `shift`. */
  function NewLine(period: nat, shift: nat): (l: Line)
    requires period >= 2 && shift >= 1
    ensures LineValid(l) && l.smma == Smma.Create(period).value && l.smma.period == period
    ensures l.buffer == QueueNew<real>(shift).value && l.buffer.period == shift && l.buffer.items == []
  {
    Line(Smma.Create(period).value, QueueNew<real>(shift).value)
  }

  /** `new`: every period must be at least 2 and every shift at least 1. */
  function Create(jawPeriod: nat, jawShift: nat, teethPeriod: nat, teethShift: nat,
                  lipsPeriod: nat, lipsShift: nat): (r: Result<AlligatorState>)
    ensures r.Ok? <==> jawPeriod >= 2 && teethPeriod >= 2 && lipsPeriod >= 2
                       && jawShift >= 1 && teethShift >= 1 && lipsShift >= 1
    ensures r.Err? ==> r.error == InvalidParameter
    ensures r.Ok? ==> Valid(r.value)
    ensures r.Ok? ==> r.value == AlligatorState(NewLine(jawPeriod, jawShift), NewLine(teethPeriod, teethShift),
                                                NewLine(lipsPeriod, lipsShift))
  {
    if jawPeriod < 2 || teethPeriod < 2 || lipsPeriod < 2 then Err(InvalidParameter)
    else if jawShift < 1 || teethShift < 1 || lipsShift < 1 then Err(InvalidParameter)
    else Ok(AlligatorState(NewLine(jawPeriod, jawShift), NewLine(teethPeriod, teethShift),
                           NewLine(lipsPeriod, lipsShift)))
  }

  /** `standard()`: jaw (13, 8), teeth (8, 5), lips (5, 3); it is also `Default`. */
  function Standard(): (r: Result<AlligatorState>)
    ensures r.Ok? && Valid(r.value)
    ensures r.value.jaw.smma.period == 13 && r.value.jaw.buffer.period == 8
    ensures r.value.teeth.smma.period == 8 && r.value.teeth.buffer.period == 5
    ensures r.value.lips.smma.period == 5 && r.value.lips.buffer.period == 3
  {
    Create(13, 8, 8, 5, 5, 3)
  }

  /**
   * Pushes `v` into a shift queue; the line's output is the evicted value, or
   * the front of the queue when nothing was evicted.  Either way it is the
   * oldest of the held values and `v`, so the `0.0` fallback is never taken.
   */
  function Shift(q: QueueState<real>, v: real): (r: (QueueState<real>, real))
    ensures r.0 == QueueNextWith(q, v).0
    ensures r.1 == (q.items + [v])[0]
  {
    var (q1, evicted) := QueueNextWith(q, v);
    var out := if evicted.Some? then evicted.value else if |q1.items| > 0 then q1.items[0] else 0.0;
    (q1, out)
  }

  /** One line on input `x`: advance the average, then shift its output. */
  function LineStep(l: Line, x: real): (r: (Line, real))
    requires l.smma.period > 0
    ensures r.0.smma == Smma.Step(l.smma, x).0
    ensures r.0.buffer == Shift(l.buffer, Smma.Step(l.smma, x).1).0
    ensures r.1 == Shift(l.buffer, Smma.Step(l.smma, x).1).1
    ensures LineValid(l) ==> LineValid(r.0)
  {
    var (m, v) := Smma.Step(l.smma, x);
    var (b, out) := Shift(l.buffer, v);
    (Line(m, b), out)
  }

  /** `next(x)`: the three lines in the order jaw, teeth, lips. */
  function Step(s: AlligatorState, x: real): (r: (AlligatorState, AlligatorOutput))
    requires Valid(s)
    ensures Valid(r.0)
    ensures r.0 == AlligatorState(LineStep(s.jaw, x).0, LineStep(s.teeth, x).0, LineStep(s.lips, x).0)
    ensures r.1 == AlligatorOutput(LineStep(s.jaw, x).1, LineStep(s.teeth, x).1, LineStep(s.lips, x).1)
  {
    var (j, jv) := LineStep(s.jaw, x);
    var (t, tv) := LineStep(s.teeth, x);
    var (l, lv) := LineStep(s.lips, x);
    (AlligatorState(j, t, l), AlligatorOutput(jv, tv, lv))
  }

  /** The median price (high + low) / 2 of a bar. */
  function MedianPrice(b: Candles.Bar): real { (b.high + b.low) / 2.0 }

  /** `next(candle)`: the median price is fed. */
  function StepCandle(s: AlligatorState, b: Candles.Bar): (r: (AlligatorState, AlligatorOutput))
    requires Valid(s)
    ensures r == Step(s, MedianPrice(b))
  {
    Step(s, MedianPrice(b))
  }

  /** A line's warm-up: its average's period plus its shift. */
  function LinePeriod(l: Line): nat { l.smma.period + l.buffer.period }

  /** `period()`: the largest warm-up of the three lines. */
  function Period(s: AlligatorState): (p: nat)
    ensures p >= LinePeriod(s.jaw) && p >= LinePeriod(s.teeth) && p >= LinePeriod(s.lips)
    ensures p == LinePeriod(s.jaw) || p == LinePeriod(s.teeth) || p == LinePeriod(s.lips)
  {
    Numeric.MaxNat(Numeric.MaxNat(LinePeriod(s.jaw), LinePeriod(s.teeth)), LinePeriod(s.lips))
  }

  /** The standard Alligator warms up for 21 inputs, the jaw's 13 + 8. */
  lemma StandardPeriod()
    ensures Period(Standard().value) == 21
  {
  }

  /** `reset`: every average reset, every queue replaced by an empty one of the same capacity. */
  function LineRestart(l: Line): (r: Line)
    ensures r.smma == Smma.Restart(l.smma)
    ensures r.buffer.items == [] && r.buffer.period == l.buffer.period
  {
    Line(Smma.Restart(l.smma), QueueReset(l.buffer))
  }

  function Restart(s: AlligatorState): (r: AlligatorState)
    ensures r == AlligatorState(LineRestart(s.jaw), LineRestart(s.teeth), LineRestart(s.lips))
    ensures Valid(s) ==> r == Create(s.jaw.smma.period, s.jaw.buffer.period, s.teeth.smma.period,
                                     s.teeth.buffer.period, s.lips.smma.period, s.lips.buffer.period).value
  {
    AlligatorState(LineRestart(s.jaw), LineRestart(s.teeth), LineRestart(s.lips))
  }

  // ---------------------------------------------------------------- the delay

  /** Pushes `vs` through a shift queue; the final queue and the line's outputs. */
  function ShiftFeed(q: QueueState<real>, vs: seq<real>): (r: (QueueState<real>, seq<real>))
    ensures r.0.period == q.period && |r.1| == |vs|
    decreases |vs|
  {
    if |vs| == 0 then (q, [])
    else
      var (q1, outs) := ShiftFeed(q, vs[..|vs| - 1]);
      var (q2, o) := Shift(q1, vs[|vs| - 1]);
      (q2, outs + [o])
  }

  /**
   * Through an empty queue of capacity `c`, the `i`-th output is the value
   * pushed `c` calls earlier once `i >= c`, and the first value pushed before
   * that; the queue holds the last `c` values.
   */
  lemma {:induction false} ShiftDelays(c: nat, vs: seq<real>)
    requires c > 0
    ensures ShiftFeed(QueueState([], c), vs).0.items == Numeric.Window(vs, c)
    ensures forall i :: 0 <= i < |vs| && i < c ==> ShiftFeed(QueueState([], c), vs).1[i] == vs[0]
    ensures forall i :: c <= i < |vs| ==> ShiftFeed(QueueState([], c), vs).1[i] == vs[i - c]
    decreases |vs|
  {
    if |vs| > 0 {
      var init, v := vs[..|vs| - 1], vs[|vs| - 1];
      assert init + [v] == vs;
      ShiftDelays(c, init);
      var (q1, outs) := ShiftFeed(QueueState([], c), init);
      assert q1 == QueueState(Numeric.Window(init, c), c);
      QueueSlides(q1, v);
      Numeric.SlideWindow(init, v, c);
      var o := Shift(q1, v).1;
      assert o == (q1.items + [v])[0];
      if |init| < c {
        assert o == vs[0];
      } else {
        assert q1.items == init[|init| - c..];
        assert o == vs[|vs| - 1 - c];
      }
      assert ShiftFeed(QueueState([], c), vs).1 == outs + [o];
    }
  }

  /** Feeds `xs` to one line; the final line and its outputs. */
  function LineFeed(l: Line, xs: seq<real>): (r: (Line, seq<real>))
    requires l.smma.period > 0
    ensures r.0.smma.period == l.smma.period && |r.1| == |xs|
    decreases |xs|
  {
    if |xs| == 0 then (l, [])
    else
      var (l1, outs) := LineFeed(l, xs[..|xs| - 1]);
      var (l2, o) := LineStep(l1, xs[|xs| - 1]);
      (l2, outs + [o])
  }

  /** A line runs its average on the inputs and its queue on the average's outputs. */
  lemma {:induction false} LineFeedComposes(l: Line, xs: seq<real>)
    requires l.smma.period > 0
    ensures LineFeed(l, xs).0.smma == Smma.Feed(l.smma, xs).0
    ensures LineFeed(l, xs).0.buffer == ShiftFeed(l.buffer, Smma.Feed(l.smma, xs).1).0
    ensures LineFeed(l, xs).1 == ShiftFeed(l.buffer, Smma.Feed(l.smma, xs).1).1
    decreases |xs|
  {
    if |xs| > 0 {
      var init := xs[..|xs| - 1];
      LineFeedComposes(l, init);
      var ms := Smma.Feed(l.smma, xs).1;
      assert ms[..|ms| - 1] == Smma.Feed(l.smma, init).1;
    }
  }

  /**
   * A fresh line of period `period` and shift `shift` outputs, at call `i`,
   * its average's output of call `i - shift` once `i >= shift`, and its
   * average's first output before that.
   */
  lemma LineIsDelayedAverage(period: nat, shift: nat, xs: seq<real>)
    requires period >= 2 && shift >= 1
    ensures forall i :: 0 <= i < |xs| && i < shift ==>
              LineFeed(NewLine(period, shift), xs).1[i] == Smma.Feed(Smma.Create(period).value, xs).1[0]
    ensures forall i :: shift <= i < |xs| ==>
              LineFeed(NewLine(period, shift), xs).1[i] == Smma.Feed(Smma.Create(period).value, xs).1[i - shift]
  {
    LineFeedComposes(NewLine(period, shift), xs);
    ShiftDelays(shift, Smma.Feed(Smma.Create(period).value, xs).1);
  }

  // ---------------------------------------------------------------- feeding the indicator

  /** Feeds `xs` in order through this indicator's own `next` in src/indicators/alligator.rs; the final state and the outputs. */
  function Feed(s: AlligatorState, xs: seq<real>): (r: (AlligatorState, seq<AlligatorOutput>))
    requires Valid(s)
    ensures Valid(r.0) && |r.1| == |xs|
    decreases |xs|
  {
    if |xs| == 0 then (s, [])
    else
      var (s1, outs) := Feed(s, xs[..|xs| - 1]);
      var (s2, o) := Step(s1, xs[|xs| - 1]);
      (s2, outs + [o])
  }

  function Jaws(outs: seq<AlligatorOutput>): (r: seq<real>)
    ensures |r| == |outs| && forall i :: 0 <= i < |outs| ==> r[i] == outs[i].jaw
  {
    seq(|outs|, i requires 0 <= i < |outs| => outs[i].jaw)
  }

  function Teeth(outs: seq<AlligatorOutput>): (r: seq<real>)
    ensures |r| == |outs| && forall i :: 0 <= i < |outs| ==> r[i] == outs[i].teeth
  {
    seq(|outs|, i requires 0 <= i < |outs| => outs[i].teeth)
  }

  function Lips(outs: seq<AlligatorOutput>): (r: seq<real>)
    ensures |r| == |outs| && forall i :: 0 <= i < |outs| ==> r[i] == outs[i].lips
  {
    seq(|outs|, i requires 0 <= i < |outs| => outs[i].lips)
  }

  lemma ProjectSnoc(outs: seq<AlligatorOutput>, o: AlligatorOutput)
    ensures Jaws(outs + [o]) == Jaws(outs) + [o.jaw]
    ensures Teeth(outs + [o]) == Teeth(outs) + [o.teeth]
    ensures Lips(outs + [o]) == Lips(outs) + [o.lips]
  {
    assert Jaws(outs + [o]) == Jaws(outs) + [o.jaw];
    assert Teeth(outs + [o]) == Teeth(outs) + [o.teeth];
    assert Lips(outs + [o]) == Lips(outs) + [o.lips];
  }

  /** The three lines run independently of one another on the same inputs. */
  lemma {:induction false} FeedRunsLines(s: AlligatorState, xs: seq<real>)
    requires Valid(s)
    ensures Feed(s, xs).0 == AlligatorState(LineFeed(s.jaw, xs).0, LineFeed(s.teeth, xs).0, LineFeed(s.lips, xs).0)
    ensures Jaws(Feed(s, xs).1) == LineFeed(s.jaw, xs).1
    ensures Teeth(Feed(s, xs).1) == LineFeed(s.teeth, xs).1
    ensures Lips(Feed(s, xs).1) == LineFeed(s.lips, xs).1
    decreases |xs|
  {
    if |xs| > 0 {
      var init := xs[..|xs| - 1];
      FeedRunsLines(s, init);
      var (s1, outs) := Feed(s, init);
      ProjectSnoc(outs, Step(s1, xs[|xs| - 1]).1);
    }
  }

  /**
   * A fresh Alligator's jaw at call `i` is the jaw average's output of call
   * `i - jawShift` once `i >= jawShift`, and its first output before that;
   * likewise for the teeth and the lips.
   */
  lemma JawIsDelayed(jawPeriod: nat, jawShift: nat, teethPeriod: nat, teethShift: nat,
                     lipsPeriod: nat, lipsShift: nat, xs: seq<real>)
    requires Create(jawPeriod, jawShift, teethPeriod, teethShift, lipsPeriod, lipsShift).Ok?
    ensures var outs := Feed(Create(jawPeriod, jawShift, teethPeriod, teethShift, lipsPeriod, lipsShift).value, xs).1;
            var avg := Smma.Feed(Smma.Create(jawPeriod).value, xs).1;
            (forall i :: 0 <= i < |xs| && i < jawShift ==> outs[i].jaw == avg[0])
            && (forall i :: jawShift <= i < |xs| ==> outs[i].jaw == avg[i - jawShift])
  {
    var s := Create(jawPeriod, jawShift, teethPeriod, teethShift, lipsPeriod, lipsShift).value;
    FeedRunsLines(s, xs);
    LineIsDelayedAverage(jawPeriod, jawShift, xs);
  }

  lemma TeethAreDelayed(jawPeriod: nat, jawShift: nat, teethPeriod: nat, teethShift: nat,
                        lipsPeriod: nat, lipsShift: nat, xs: seq<real>)
    requires Create(jawPeriod, jawShift, teethPeriod, teethShift, lipsPeriod, lipsShift).Ok?
    ensures var outs := Feed(Create(jawPeriod, jawShift, teethPeriod, teethShift, lipsPeriod, lipsShift).value, xs).1;
            var avg := Smma.Feed(Smma.Create(teethPeriod).value, xs).1;
            (forall i :: 0 <= i < |xs| && i < teethShift ==> outs[i].teeth == avg[0])
            && (forall i :: teethShift <= i < |xs| ==> outs[i].teeth == avg[i - teethShift])
  {
    var s := Create(jawPeriod, jawShift, teethPeriod, teethShift, lipsPeriod, lipsShift).value;
    FeedRunsLines(s, xs);
    LineIsDelayedAverage(teethPeriod, teethShift, xs);
  }

  lemma LipsAreDelayed(jawPeriod: nat, jawShift: nat, teethPeriod: nat, teethShift: nat,
                       lipsPeriod: nat, lipsShift: nat, xs: seq<real>)
    requires Create(jawPeriod, jawShift, teethPeriod, teethShift, lipsPeriod, lipsShift).Ok?
    ensures var outs := Feed(Create(jawPeriod, jawShift, teethPeriod, teethShift, lipsPeriod, lipsShift).value, xs).1;
            var avg := Smma.Feed(Smma.Create(lipsPeriod).value, xs).1;
            (forall i :: 0 <= i < |xs| && i < lipsShift ==> outs[i].lips == avg[0])
            && (forall i :: lipsShift <= i < |xs| ==> outs[i].lips == avg[i - lipsShift])
  {
    var s := Create(jawPeriod, jawShift, teethPeriod, teethShift, lipsPeriod, lipsShift).value;
    FeedRunsLines(s, xs);
    LineIsDelayedAverage(lipsPeriod, lipsShift, xs);
  }

  /** SMMA(2) turns 1, 2, 3, 4 into 1, 1.5, 2.25, 3.125. */
  lemma AverageExample()
    ensures Smma.Feed(Smma.Create(2).value, [1.0, 2.0, 3.0, 4.0]).1 == [1.0, 1.5, 2.25, 3.125]
  {
    var s0 := Smma.Create(2).value;
    var a := [1.0, 2.0];
    Smma.FirstAverage(2, a);
    assert a[1..] == [2.0];
    assert Numeric.Sum(a) == 3.0;
    var r2 := Smma.Feed(s0, a);
    assert r2.0.smma == Some(1.5) && r2.1 == [1.0, 1.5];
    var r3 := Smma.Step(r2.0, 3.0);
    assert r3.1 == 2.25;
    var b := a + [3.0];
    assert b[..2] == a;
    assert Smma.Feed(s0, b) == (r3.0, r2.1 + [r3.1]);
    var r4 := Smma.Step(r3.0, 4.0);
    assert r4.1 == 3.125;
    var xs := [1.0, 2.0, 3.0, 4.0];
    assert xs[..3] == b;
    assert Smma.Feed(s0, xs) == (r4.0, r2.1 + [r3.1] + [r4.1]);
  }

  /** A line of SMMA(2) shifted by 2 turns 1, 2, 3, 4 into 1, 1, 1, 1.5. */
  lemma LineExample()
    ensures LineFeed(NewLine(2, 2), [1.0, 2.0, 3.0, 4.0]).1 == [1.0, 1.0, 1.0, 1.5]
  {
    var xs := [1.0, 2.0, 3.0, 4.0];
    AverageExample();
    LineIsDelayedAverage(2, 2, xs);
    var outs := LineFeed(NewLine(2, 2), xs).1;
    assert outs[0] == 1.0 && outs[1] == 1.0 && outs[2] == 1.0 && outs[3] == 1.5;
  }

  // ---------------------------------------------------------------- persistence

  /** The persisted form: each line's average period and its queue's capacity as its shift. */
  datatype AlligatorParams = AlligatorParams(jawPeriod: nat, jawShift: nat, teethPeriod: nat,
                                             teethShift: nat, lipsPeriod: nat, lipsShift: nat)

  /** What this indicator's serde code in src/indicators/alligator.rs writes: the parameters, no running state. */
  function Encode(s: AlligatorState): AlligatorParams
  {
    AlligatorParams(s.jaw.smma.period, s.jaw.buffer.period, s.teeth.smma.period,
                    s.teeth.buffer.period, s.lips.smma.period, s.lips.buffer.period)
  }

  /** Reading back goes through `new`, so it refuses what `new` refuses. */
  function Decode(p: AlligatorParams): (r: Result<AlligatorState>)
    ensures r == Create(p.jawPeriod, p.jawShift, p.teethPeriod, p.teethShift, p.lipsPeriod, p.lipsShift)
  {
    Create(p.jawPeriod, p.jawShift, p.teethPeriod, p.teethShift, p.lipsPeriod, p.lipsShift)
  }

  lemma DecodeEncode(s: AlligatorState)
    requires Valid(s)
    ensures Decode(Encode(s)) == Ok(Restart(s))
  {
  }

  // ---------------------------------------------------------------- the object

  /** The Alligator of the source: three average objects and three shift queues. */
  class Alligator {
    var jaw: Smma.SmoothedMovingAverage
    var teeth: Smma.SmoothedMovingAverage
    var lips: Smma.SmoothedMovingAverage
    var jawBuffer: Queue<real>
    var teethBuffer: Queue<real>
    var lipsBuffer: Queue<real>

    /** No two of the averages and no two of the six queues are the same object. */
    predicate Separate() reads this, jaw, teeth, lips
    {
      jaw != teeth && jaw != lips && teeth != lips
      && jaw.queue != teeth.queue && jaw.queue != lips.queue && teeth.queue != lips.queue
      && jawBuffer != teethBuffer && jawBuffer != lipsBuffer && teethBuffer != lipsBuffer
      && jaw.queue != jawBuffer && jaw.queue != teethBuffer && jaw.queue != lipsBuffer
      && teeth.queue != jawBuffer && teeth.queue != teethBuffer && teeth.queue != lipsBuffer
      && lips.queue != jawBuffer && lips.queue != teethBuffer && lips.queue != lipsBuffer
    }

    function State(): AlligatorState
      reads this, jaw, teeth, lips, jaw.queue, teeth.queue, lips.queue, jawBuffer, teethBuffer, lipsBuffer
    {
      AlligatorState(Line(jaw.State(), jawBuffer.State()), Line(teeth.State(), teethBuffer.State()),
                     Line(lips.State(), lipsBuffer.State()))
    }

    constructor Init(j: Smma.SmoothedMovingAverage, t: Smma.SmoothedMovingAverage, l: Smma.SmoothedMovingAverage,
                     jb: Queue<real>, tb: Queue<real>, lb: Queue<real>)
      ensures jaw == j && teeth == t && lips == l && jawBuffer == jb && teethBuffer == tb && lipsBuffer == lb
    {
      jaw, teeth, lips := j, t, l;
      jawBuffer, teethBuffer, lipsBuffer := jb, tb, lb;
    }

    static method New(jawPeriod: nat, jawShift: nat, teethPeriod: nat, teethShift: nat,
                      lipsPeriod: nat, lipsShift: nat) returns (r: Result<Alligator>)
      ensures r.Ok? <==> Create(jawPeriod, jawShift, teethPeriod, teethShift, lipsPeriod, lipsShift).Ok?
      ensures r.Err? ==> r.error == InvalidParameter
      ensures r.Ok? ==> fresh(r.value) && r.value.Separate()
      ensures r.Ok? ==> r.value.State() == Create(jawPeriod, jawShift, teethPeriod, teethShift, lipsPeriod, lipsShift).value
    {
      if jawPeriod < 2 || teethPeriod < 2 || lipsPeriod < 2 {
        return Err(InvalidParameter);
      }
      if jawShift < 1 || teethShift < 1 || lipsShift < 1 {
        return Err(InvalidParameter);
      }
      var j := Smma.SmoothedMovingAverage.New(jawPeriod);
      var t := Smma.SmoothedMovingAverage.New(teethPeriod);
      var l := Smma.SmoothedMovingAverage.New(lipsPeriod);
      var jb := Queue<real>.New(jawShift);
      var tb := Queue<real>.New(teethShift);
      var lb := Queue<real>.New(lipsShift);
      var a := new Alligator.Init(j.value, t.value, l.value, jb.value, tb.value, lb.value);
      return Ok(a);
    }

    /** `Default`: the standard Alligator. */
    static method Default() returns (a: Alligator)
      ensures fresh(a) && a.Separate() && a.State() == Standard().value
    {
      var r := New(13, 8, 8, 5, 5, 3);
      a := r.value;
    }

    /** Pushes `v` into a shift queue and returns the line's output. */
    static method ShiftThrough(buffer: Queue<real>, v: real) returns (out: real)
      modifies buffer
      ensures buffer.State() == Shift(old(buffer.State()), v).0
      ensures out == Shift(old(buffer.State()), v).1
    {
      var evicted := buffer.NextWith(v);
      if evicted.Some? {
        out := evicted.value;
      } else if |buffer.queue| > 0 {
        out := buffer.queue[0];
      } else {
        out := 0.0;
      }
    }

    method Next(input: real) returns (out: AlligatorOutput)
      requires Separate() && Valid(State())
      modifies jaw, teeth, lips, jaw.queue, teeth.queue, lips.queue, jawBuffer, teethBuffer, lipsBuffer
      ensures jaw == old(jaw) && teeth == old(teeth) && lips == old(lips)
      ensures jaw.queue == old(jaw.queue) && teeth.queue == old(teeth.queue) && lips.queue == old(lips.queue)
      ensures Separate()
      ensures State() == Step(old(State()), input).0
      ensures out == Step(old(State()), input).1
    {
      var jv := jaw.Next(input);
      var tv := teeth.Next(input);
      var lv := lips.Next(input);
      var js := ShiftThrough(jawBuffer, jv);
      var ts := ShiftThrough(teethBuffer, tv);
      var ls := ShiftThrough(lipsBuffer, lv);
      out := AlligatorOutput(js, ts, ls);
    }

    method NextCandle(b: Candles.Bar) returns (out: AlligatorOutput)
      requires Separate() && Valid(State())
      modifies jaw, teeth, lips, jaw.queue, teeth.queue, lips.queue, jawBuffer, teethBuffer, lipsBuffer
      ensures jaw == old(jaw) && teeth == old(teeth) && lips == old(lips)
      ensures jaw.queue == old(jaw.queue) && teeth.queue == old(teeth.queue) && lips.queue == old(lips.queue)
      ensures Separate()
      ensures State() == StepCandle(old(State()), b).0
      ensures out == StepCandle(old(State()), b).1
    {
      out := Next(MedianPrice(b));
    }

    method Reset()
      requires Separate() && Valid(State())
      modifies this, jaw, teeth, lips
      ensures jaw == old(jaw) && teeth == old(teeth) && lips == old(lips)
      ensures fresh(jawBuffer) && fresh(teethBuffer) && fresh(lipsBuffer)
      ensures fresh(jaw.queue) && fresh(teeth.queue) && fresh(lips.queue)
      ensures Separate()
      ensures State() == Restart(old(State()))
    {
      jaw.Reset();
      teeth.Reset();
      lips.Reset();
      var jb := Queue<real>.New(jawBuffer.period);
      var tb := Queue<real>.New(teethBuffer.period);
      var lb := Queue<real>.New(lipsBuffer.period);
      jawBuffer, teethBuffer, lipsBuffer := jb.value, tb.value, lb.value;
    }

    function Period(): nat
      reads this, jaw, teeth, lips, jawBuffer, teethBuffer, lipsBuffer
    {
      Numeric.MaxNat(Numeric.MaxNat(jaw.period + jawBuffer.period, teeth.period + teethBuffer.period),
                     lips.period + lipsBuffer.period)
    }
  }
}
