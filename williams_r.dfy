/**
 * Williams %R (src/indicators/williams_r.rs): where the latest price sits
 * between the highest high and the lowest low of the last `period` entries,
 * scaled to [-100, 0].  It answers 0 while either window is still filling and
 * when the range is degenerate.
 */
module WilliamsR {
  import opened Wrappers
  import opened HelperTypes
  import Numeric
  import Candles

  datatype WrState = WrState(highs: QueueState<real>, lows: QueueState<real>)

  /** Both windows have the same positive capacity and stay within it. */
  predicate Valid(s: WrState)
  {
    s.highs.period > 0 && s.lows.period == s.highs.period && QueueBounded(s.highs) && QueueBounded(s.lows)
  }

  function Create(period: nat): (r: Result<WrState>)
    ensures r.Ok? <==> period > 0
    ensures r.Err? ==> r.error == InvalidParameter
    ensures r.Ok? ==> Valid(r.value) && r.value == WrState(QueueState([], period), QueueState([], period))
  {
    match QueueNew<real>(period)
    case Err(e) => Err(e)
    case Ok(highs) =>
      match QueueNew<real>(period)
      case Err(e) => Err(e)
      case Ok(lows) => Ok(WrState(highs, lows))
  }

  /** The period is the capacity of the highs window. */
  function Period(s: WrState): nat { s.highs.period }

  /** The highest high, f64::MIN-seeded as in the source. */
  function HighestHigh(s: WrState): real { Numeric.FoldMax(Numeric.F64Min, s.highs.items) }

  /** The lowest low, f64::MAX-seeded as in the source. */
  function LowestLow(s: WrState): real { Numeric.FoldMin(Numeric.F64Max, s.lows.items) }

  /** Whether both windows hold `period` entries. */
  predicate Full(s: WrState) { |s.highs.items| >= Period(s) && |s.lows.items| >= Period(s) }

  /** The %R of `close` against the windows of `s`. */
  function Percent(s: WrState, close: real): (r: real)
    ensures !Full(s) ==> r == 0.0
    ensures Full(s) && HighestHigh(s) == LowestLow(s) ==> r == 0.0
    ensures Full(s) && HighestHigh(s) != LowestLow(s)
            ==> r == (HighestHigh(s) - close) / (HighestHigh(s) - LowestLow(s)) * -100.0
  {
    if !Full(s) then 0.0
    else
      var hh := HighestHigh(s);
      var ll := LowestLow(s);
      if hh == ll then 0.0 else (hh - close) / (hh - ll) * -100.0
  }

  /** Pushes `high` and `low`, then the %R of `close`. */
  function Advance(s: WrState, high: real, low: real, close: real): (r: (WrState, real))
    ensures r.0 == WrState(QueueNextWith(s.highs, high).0, QueueNextWith(s.lows, low).0)
    ensures r.1 == Percent(r.0, close)
    ensures Valid(s) ==> Valid(r.0)
  {
    var s' := WrState(QueueNextWith(s.highs, high).0, QueueNextWith(s.lows, low).0);
    (s', Percent(s', close))
  }

  /** `next(x)`: `x` is high, low and close at once. */
  function Step(s: WrState, x: real): (r: (WrState, real))
    ensures r == Advance(s, x, x, x)
  {
    Advance(s, x, x, x)
  }

  /** `next(candle)`: the candle's high, low and close. */
  function StepCandle(s: WrState, b: Candles.Bar): (r: (WrState, real))
    ensures r == Advance(s, b.high, b.low, b.close)
  {
    Advance(s, b.high, b.low, b.close)
  }

  function Restart(s: WrState): (r: WrState)
    ensures r == WrState(QueueReset(s.highs), QueueReset(s.lows))
    ensures Valid(s) ==> r == Create(Period(s)).value
  {
    WrState(QueueReset(s.highs), QueueReset(s.lows))
  }

  /** The %R of a price between the lowest low and the highest high lies in [-100, 0]. */
  lemma PercentRange(s: WrState, close: real)
    requires LowestLow(s) <= close <= HighestHigh(s)
    ensures -100.0 <= Percent(s, close) <= 0.0
  {
    if Full(s) && HighestHigh(s) != LowestLow(s) {
      var hh, ll := HighestHigh(s), LowestLow(s);
      var d := hh - ll;
      var q := (hh - close) / d;
      assert d > 0.0 && q * d == hh - close;
      if q < 0.0 {
        Numeric.MulNonNegative(-q, d);
      }
      if q > 1.0 {
        Numeric.MulNonNegative(q - 1.0, d);
      }
    }
  }

  /** The newest entry of a window is within its extrema. */
  lemma NewestWithinExtrema(q: QueueState<real>, v: real)
    requires q.period > 0
    ensures Numeric.FoldMax(Numeric.F64Min, QueueNextWith(q, v).0.items) >= v
    ensures Numeric.FoldMin(Numeric.F64Max, QueueNextWith(q, v).0.items) <= v
  {
    var items := QueueNextWith(q, v).0.items;
    assert items[|items| - 1] == v;
    Numeric.FoldMaxIsMax(Numeric.F64Min, items);
    Numeric.FoldMinIsMin(Numeric.F64Max, items);
  }

  /** On single values the input is in both windows, so %R lies in [-100, 0]. */
  lemma ValueRange(s: WrState, x: real)
    requires Valid(s)
    ensures -100.0 <= Step(s, x).1 <= 0.0
  {
    NewestWithinExtrema(s.highs, x);
    NewestWithinExtrema(s.lows, x);
    PercentRange(Step(s, x).0, x);
  }

  /** On a candle whose close is between its low and high, %R lies in [-100, 0]. */
  lemma CandleRange(s: WrState, b: Candles.Bar)
    requires Valid(s) && Candles.Ordered(b)
    ensures -100.0 <= StepCandle(s, b).1 <= 0.0
  {
    NewestWithinExtrema(s.highs, b.high);
    NewestWithinExtrema(s.lows, b.low);
    PercentRange(StepCandle(s, b).0, b.close);
  }

  /** Feeds `xs` in order; the final state and the outputs. */
  function Feed(s: WrState, xs: seq<real>): (r: (WrState, seq<real>))
    ensures |r.1| == |xs|
    decreases |xs|
  {
    if |xs| == 0 then (s, [])
    else
      var (s1, outs) := Feed(s, xs[..|xs| - 1]);
      var (s2, o) := Step(s1, xs[|xs| - 1]);
      (s2, outs + [o])
  }

  /** From construction both windows hold the last `min(n, period)` inputs. */
  lemma {:induction false} FeedWindows(period: nat, xs: seq<real>)
    requires period > 0
    ensures var s := Feed(Create(period).value, xs).0;
            Valid(s) && Period(s) == period
            && s.highs.items == Numeric.Window(xs, period) && s.lows.items == Numeric.Window(xs, period)
    decreases |xs|
  {
    if |xs| > 0 {
      var init, x := xs[..|xs| - 1], xs[|xs| - 1];
      FeedWindows(period, init);
      var s1 := Feed(Create(period).value, init).0;
      QueueSlides(s1.highs, x);
      QueueSlides(s1.lows, x);
      Numeric.SlideWindow(init, x, period);
      assert init + [x] == xs;
    }
  }

  /** While fewer than `period` inputs have arrived the output is 0. */
  lemma WarmUpIsZero(period: nat, xs: seq<real>)
    requires period > 0 && 0 < |xs| < period
    ensures Feed(Create(period).value, xs).1[|xs| - 1] == 0.0
  {
    FeedWindows(period, xs);
  }

  /** The persisted form holds only the period; reading it back goes through `new`. */
  datatype WrParams = WrParams(period: nat)

  /** What this indicator's serde code in src/indicators/williams_r.rs writes: the parameters, no running state. */
  function Encode(s: WrState): WrParams { WrParams(Period(s)) }

  /** Reads the parameters back the way this indicator's serde code in src/indicators/williams_r.rs does. */
  function Decode(p: WrParams): (r: Result<WrState>)
    ensures r == Create(p.period)
  {
    Create(p.period)
  }

  lemma DecodeEncode(s: WrState)
    requires Valid(s)
    ensures Decode(Encode(s)) == Ok(Restart(s))
  {
  }

  /** The indicator of the source: two queue objects. */
  class WilliamsR {
    var highs: Queue<real>
    var lows: Queue<real>

    function State(): WrState reads this, highs, lows { WrState(highs.State(), lows.State()) }

    constructor Init(highs: Queue<real>, lows: Queue<real>)
      ensures this.highs == highs && this.lows == lows
    {
      this.highs, this.lows := highs, lows;
    }

    static method New(period: nat) returns (r: Result<WilliamsR>)
      ensures r.Ok? <==> period > 0
      ensures r.Err? ==> r.error == InvalidParameter
      ensures r.Ok? ==> fresh(r.value) && fresh(r.value.highs) && fresh(r.value.lows)
      ensures r.Ok? ==> r.value.highs != r.value.lows && r.value.State() == Create(period).value
    {
      var h := Queue<real>.New(period);
      if h.Err? {
        return Err(h.error);
      }
      var l := Queue<real>.New(period);
      var w := new WilliamsR.Init(h.value, l.value);
      return Ok(w);
    }

    /** `Default`: period 14. */
    static method Default() returns (w: WilliamsR)
      ensures fresh(w) && fresh(w.highs) && fresh(w.lows)
      ensures w.highs != w.lows && w.State() == Create(14).value
    {
      var r := New(14);
      w := r.value;
    }

    /** The shared body of both `next`s. */
    method Push(high: real, low: real, close: real) returns (out: real)
      requires highs != lows
      modifies highs, lows
      ensures (State(), out) == Advance(old(State()), high, low, close)
    {
      var _ := highs.NextWith(high);
      var _ := lows.NextWith(low);
      if |highs.queue| < highs.period || |lows.queue| < highs.period {
        return 0.0;
      }
      var hh := Numeric.FoldMax(Numeric.F64Min, highs.queue);
      var ll := Numeric.FoldMin(Numeric.F64Max, lows.queue);
      if hh == ll {
        return 0.0;
      }
      out := (hh - close) / (hh - ll) * -100.0;
    }

    method Next(input: real) returns (out: real)
      requires highs != lows
      modifies highs, lows
      ensures (State(), out) == Step(old(State()), input)
    {
      out := Push(input, input, input);
    }

    method NextCandle(b: Candles.Bar) returns (out: real)
      requires highs != lows
      modifies highs, lows
      ensures (State(), out) == StepCandle(old(State()), b)
    {
      out := Push(b.high, b.low, b.close);
    }

    method Reset()
      requires highs != lows
      modifies highs, lows
      ensures State() == Restart(old(State()))
    {
      highs.Reset();
      lows.Reset();
    }

    function Period(): nat reads this, highs { highs.period }
  }
}
