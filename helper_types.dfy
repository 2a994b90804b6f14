/**
 * Bounded buffers (src/helper_types.rs): `Cycle`, an index that wraps at its
 * period, and `Queue`, a FIFO that evicts its oldest element once it holds
 * more than its capacity.  The utility crate's queue used by the smoothed
 * average, the Alligator and Williams %R is modelled by the same `next_with`.
 */
module HelperTypes {
  import opened Wrappers
  import Numeric

  // ---------------------------------------------------------------- Cycle

  datatype CycleState = CycleState(period: nat, index: nat)

  function CycleNew(period: nat): (r: Result<CycleState>)
    ensures r.Ok? <==> period > 0
    ensures r.Ok? ==> r.value.period == period && r.value.index == 0
    ensures r.Err? ==> r.error == InvalidParameter
  {
    if period == 0 then Err(InvalidParameter) else Ok(CycleState(period, 0))
  }

  /** `next_silence`: one step forward, back to 0 after `period - 1`. */
  function CycleAdvance(c: CycleState): (r: CycleState)
    ensures r.period == c.period
    ensures c.index + 1 < c.period ==> r.index == c.index + 1
    ensures c.index + 1 >= c.period ==> r.index == 0
    ensures c.period > 0 ==> r.index < c.period
  {
    if c.index + 1 < c.period then c.(index := c.index + 1) else c.(index := 0)
  }

  function CycleAdvanceTimes(c: CycleState, n: nat): CycleState
  {
    if n == 0 then c else CycleAdvance(CycleAdvanceTimes(c, n - 1))
  }

  /** From a fresh cycle, after `n` steps the index is `n mod period`. */
  lemma {:induction false} CycleCountsModuloPeriod(period: nat, n: nat)
    requires period > 0
    ensures CycleAdvanceTimes(CycleState(period, 0), n) == CycleState(period, n % period)
  {
    if n > 0 {
      CycleCountsModuloPeriod(period, n - 1);
      var i := (n - 1) % period;
      if i + 1 < period {
        assert n % period == i + 1 by { ModStep(n - 1, period); }
      } else {
        assert n % period == 0 by { ModStep(n - 1, period); }
      }
    }
  }

  lemma ModStep(m: nat, p: nat)
    requires p > 0
    ensures (m % p) + 1 < p ==> (m + 1) % p == (m % p) + 1
    ensures (m % p) + 1 >= p ==> (m + 1) % p == 0
  {
    var q, r := m / p, m % p;
    if r + 1 < p {
      ModUnique(m + 1, p, q, r + 1);
    } else {
      assert m + 1 == (q + 1) * p;
      ModUnique(m + 1, p, q + 1, 0);
    }
  }

  lemma MulAtLeast(d: int, p: int)
    requires d >= 1 && p > 0
    ensures d * p >= p
  {
    if d > 1 { MulAtLeast(d - 1, p); assert d * p == (d - 1) * p + p; }
  }
  lemma ModUnique(a: int, p: int, q: int, r: int)
    requires p > 0 && 0 <= r < p && a == q * p + r
    ensures a % p == r
  {
    var q', r' := a / p, a % p;
    assert a == q' * p + r';
    assert q * p - q' * p == r' - r;
    assert (q - q') * p == q * p - q' * p;
    if q > q' {
      MulAtLeast(q - q', p);
    } else if q < q' {
      MulAtLeast(q' - q, p);
    }
  }

  function CycleReset(c: CycleState): (r: CycleState)
    ensures r.period == c.period && r.index == 0
  {
    c.(index := 0)
  }

  // ---------------------------------------------------------------- Queue

  datatype QueueState<T> = QueueState(items: seq<T>, period: nat)

  /** Holds no more than its capacity. */
  predicate QueueBounded<T>(q: QueueState<T>) { |q.items| <= q.period }

  function QueueNew<T>(capacity: nat): (r: Result<QueueState<T>>)
    ensures r.Ok? <==> capacity > 0
    ensures r.Ok? ==> r.value.items == [] && r.value.period == capacity
    ensures r.Err? ==> r.error == InvalidParameter
  {
    if capacity == 0 then Err(InvalidParameter) else Ok(QueueState([], capacity))
  }

  /** `next_with`: append at the back; once over capacity, evict and return the front. */
  function QueueNextWith<T>(q: QueueState<T>, v: T): (r: (QueueState<T>, Option<T>))
    ensures r.0.period == q.period
    ensures r.1.Some? <==> |q.items| >= q.period
    ensures r.1.None? ==> r.0.items == q.items + [v]
    ensures r.1.Some? ==> [r.1.value] + r.0.items == q.items + [v]
    ensures QueueBounded(q) ==> QueueBounded(r.0)
  {
    var all := q.items + [v];
    if |all| > q.period then (QueueState(all[1..], q.period), Some(all[0]))
    else (QueueState(all, q.period), None)
  }

  /** On a queue within its capacity, `next_with` slides the window of the last `period` values. */
  lemma QueueSlides<T>(q: QueueState<T>, v: T)
    requires QueueBounded(q) && q.period > 0
    ensures QueueNextWith(q, v).0.items == Numeric.Slide(q.items, v, q.period)
  {
    if |q.items| == q.period {
      assert (q.items + [v])[1..] == q.items[1..] + [v];
    }
  }

  /** Pushes `vs` one by one; returns the final queue and the evicted values in order. */
  function QueuePushAll<T>(q: QueueState<T>, vs: seq<T>): (QueueState<T>, seq<T>)
    decreases |vs|
  {
    if |vs| == 0 then (q, [])
    else
      var (q1, e) := QueueNextWith(q, vs[0]);
      var (q2, es) := QueuePushAll(q1, vs[1..]);
      (q2, (if e.Some? then [e.value] else []) + es)
  }

  /**
   * FIFO: the evicted values followed by the queue's contents are exactly the
   * old contents followed by the pushed values, and a bounded queue keeps the
   * last `min(total, capacity)` of them.
   */
  lemma {:induction false} QueueIsFifo<T>(q: QueueState<T>, vs: seq<T>)
    requires QueueBounded(q)
    ensures QueuePushAll(q, vs).1 + QueuePushAll(q, vs).0.items == q.items + vs
    ensures QueuePushAll(q, vs).0.period == q.period
    ensures |QueuePushAll(q, vs).0.items| == if |q.items| + |vs| <= q.period then |q.items| + |vs| else q.period
    decreases |vs|
  {
    if |vs| > 0 {
      var (q1, e) := QueueNextWith(q, vs[0]);
      QueueIsFifo(q1, vs[1..]);
      var (q2, es) := QueuePushAll(q1, vs[1..]);
      assert vs == [vs[0]] + vs[1..];
      if e.Some? {
        calc {
          [e.value] + es + q2.items;
          [e.value] + (es + q2.items);
          [e.value] + (q1.items + vs[1..]);
          ([e.value] + q1.items) + vs[1..];
          (q.items + [vs[0]]) + vs[1..];
          q.items + vs;
        }
      } else {
        calc {
          [] + es + q2.items;
          q1.items + vs[1..];
          (q.items + [vs[0]]) + vs[1..];
          q.items + vs;
        }
      }
    }
  }

  /** Raw `push_back` through the dereferenced deque: no eviction. */
  function QueuePushBack<T>(q: QueueState<T>, v: T): (r: QueueState<T>)
    ensures r.items == q.items + [v] && r.period == q.period
  {
    q.(items := q.items + [v])
  }

  /** Raw `pop_front` through the dereferenced deque. */
  function QueuePopFront<T>(q: QueueState<T>): (r: (QueueState<T>, Option<T>))
    ensures |q.items| == 0 ==> r == (q, None)
    ensures |q.items| > 0 ==> r.1 == Some(q.items[0]) && [q.items[0]] + r.0.items == q.items
  {
    if |q.items| == 0 then (q, None) else (q.(items := q.items[1..]), Some(q.items[0]))
  }

  function QueuePushBackAll<T>(q: QueueState<T>, vs: seq<T>): QueueState<T>
    decreases |vs|
  {
    if |vs| == 0 then q else QueuePushBackAll(QueuePushBack(q, vs[0]), vs[1..])
  }

  lemma {:induction false} QueuePushBackAllLength<T>(q: QueueState<T>, vs: seq<T>)
    ensures |QueuePushBackAll(q, vs).items| == |q.items| + |vs|
    ensures QueuePushBackAll(q, vs).period == q.period
    decreases |vs|
  {
    if |vs| > 0 {
      QueuePushBackAllLength(QueuePushBack(q, vs[0]), vs[1..]);
    }
  }

  /** Twelve raw pushes into a queue of capacity 10 then one pop leave 11 elements. */
  lemma RawPushesExceedCapacity()
    ensures var q := QueuePushBackAll(QueueNew<int>(10).value, [0, 1, 2, 3, 4, 5, 6, 7, 8, 9, 10, 11]);
            |q.items| == 12 && |QueuePopFront(q).0.items| == 11 && !QueueBounded(QueuePopFront(q).0)
  {
    QueuePushBackAllLength(QueueNew<int>(10).value, [0, 1, 2, 3, 4, 5, 6, 7, 8, 9, 10, 11]);
  }

  function QueueReset<T>(q: QueueState<T>): (r: QueueState<T>)
    ensures r.items == [] && r.period == q.period
  {
    QueueState([], q.period)
  }

  // ---------------------------------------------------------------- classes

  class Cycle {
    var period: nat
    var index: nat

    function State(): CycleState reads this { CycleState(period, index) }

    constructor Init(s: CycleState)
      ensures State() == s
    {
      period, index := s.period, s.index;
    }

    static method New(period: nat) returns (r: Result<Cycle>)
      ensures r.Ok? <==> period > 0
      ensures r.Err? ==> r.error == InvalidParameter
      ensures r.Ok? ==> fresh(r.value) && r.value.State() == CycleNew(period).value
    {
      if period == 0 {
        return Err(InvalidParameter);
      }
      var c := new Cycle.Init(CycleState(period, 0));
      return Ok(c);
    }

    method NextSilence()
      modifies this
      ensures State() == CycleAdvance(old(State()))
    {
      if index + 1 < period {
        index := index + 1;
      } else {
        index := 0;
      }
    }

    method NextIdx() returns (i: nat)
      modifies this
      ensures State() == CycleAdvance(old(State())) && i == index
    {
      NextSilence();
      i := index;
    }

    method Reset()
      modifies this
      ensures State() == CycleReset(old(State()))
    {
      index := 0;
    }
  }

  class Queue<T> {
    var queue: seq<T>
    var period: nat

    function State(): QueueState<T> reads this { QueueState(queue, period) }

    constructor Init(s: QueueState<T>)
      ensures State() == s
    {
      queue, period := s.items, s.period;
    }

    static method New(capacity: nat) returns (r: Result<Queue<T>>)
      ensures r.Ok? <==> capacity > 0
      ensures r.Err? ==> r.error == InvalidParameter
      ensures r.Ok? ==> fresh(r.value) && r.value.State() == QueueNew<T>(capacity).value
    {
      if capacity == 0 {
        return Err(InvalidParameter);
      }
      var q := new Queue<T>.Init(QueueState([], capacity));
      return Ok(q);
    }

    method NextWith(value: T) returns (evicted: Option<T>)
      modifies this
      ensures (State(), evicted) == QueueNextWith(old(State()), value)
    {
      queue := queue + [value];
      if |queue| > period {
        evicted := Some(queue[0]);
        queue := queue[1..];
        return;
      }
      evicted := None;
    }

    method PushBack(value: T)
      modifies this
      ensures State() == QueuePushBack(old(State()), value)
    {
      queue := queue + [value];
    }

    method PopFront() returns (front: Option<T>)
      modifies this
      ensures (State(), front) == QueuePopFront(old(State()))
    {
      if |queue| == 0 {
        return None;
      }
      front := Some(queue[0]);
      queue := queue[1..];
    }

    method Reset()
      modifies this
      ensures State() == QueueReset(old(State()))
    {
      queue := [];
    }
  }
}
