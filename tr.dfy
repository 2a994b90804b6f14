/**
 * The true range (tr.rs is not part of this model; the ATR, KC and SuperTrend
 * code fixes what it must do): on a bar, the largest of high - low,
 * |high - previous close| and |low - previous close|, and high - low on the
 * first bar.  A single value is fed as the bar whose every price is that value.
 */
module Tr {
  import opened Wrappers
  import Numeric
  import Candles

  datatype TrState = TrState(prevClose: Option<real>)

  function Create(): TrState { TrState(None) }

  /** The true range of `b` after a bar that closed at `prevClose`. */
  function Range(prevClose: Option<real>, b: Candles.Bar): (r: real)
    ensures r >= b.high - b.low
    ensures prevClose.None? ==> r == b.high - b.low
    ensures prevClose.Some? ==> r >= Numeric.Abs(b.high - prevClose.value) && r >= Numeric.Abs(b.low - prevClose.value)
    ensures prevClose.Some? ==> r == b.high - b.low || r == Numeric.Abs(b.high - prevClose.value)
                                || r == Numeric.Abs(b.low - prevClose.value)
  {
    var hl := b.high - b.low;
    match prevClose
    case None => hl
    case Some(c) => Numeric.Max(hl, Numeric.Max(Numeric.Abs(b.high - c), Numeric.Abs(b.low - c)))
  }

  /** `next(bar)`: the range and the bar's close remembered. */
  function Step(s: TrState, b: Candles.Bar): (r: (TrState, real))
    ensures r.0 == TrState(Some(b.close)) && r.1 == Range(s.prevClose, b)
  {
    (TrState(Some(b.close)), Range(s.prevClose, b))
  }

  /** `next(x)`: the bar of the single value `x`. */
  function StepValue(s: TrState, x: real): (r: (TrState, real))
    ensures r == Step(s, Candles.ValueBar(x))
  {
    Step(s, Candles.ValueBar(x))
  }

  function Restart(s: TrState): (r: TrState)
    ensures r == Create()
  {
    TrState(None)
  }

  /** On single values the range is the distance to the previous one, 0 at first. */
  lemma ValueRange(s: TrState, x: real)
    ensures StepValue(s, x).1 == if s.prevClose.None? then 0.0 else Numeric.Abs(x - s.prevClose.value)
  {
  }

  /** A bar whose low is at most its high has a non-negative range. */
  lemma NonNegative(s: TrState, b: Candles.Bar)
    requires b.low <= b.high
    ensures Step(s, b).1 >= 0.0
  {
  }

  /** The true range object: the previous close it remembers. */
  class TrueRange {
    var prevClose: Option<real>

    function State(): TrState reads this { TrState(prevClose) }

    constructor ()
      ensures State() == Create()
    {
      prevClose := None;
    }

    method Next(b: Candles.Bar) returns (out: real)
      modifies this
      ensures (State(), out) == Step(old(State()), b)
    {
      var hl := b.high - b.low;
      if prevClose.None? {
        out := hl;
      } else {
        var c := prevClose.value;
        out := Numeric.Max(hl, Numeric.Max(Numeric.Abs(b.high - c), Numeric.Abs(b.low - c)));
      }
      prevClose := Some(b.close);
    }

    method NextValue(x: real) returns (out: real)
      modifies this
      ensures (State(), out) == StepValue(old(State()), x)
    {
      out := Next(Candles.ValueBar(x));
    }

    method Reset()
      modifies this
      ensures State() == Restart(old(State()))
    {
      prevClose := None;
    }
  }
}
