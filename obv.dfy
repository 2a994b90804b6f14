/**
 * On-balance volume (src/indicators/obv.rs): a running volume total that adds
 * a candle's volume when it closes above the previous close, subtracts it when
 * it closes below, and starts from the first candle's volume.  A missing (NaN)
 * volume makes the total NaN, written `None` here, until the next reset.
 */
module Obv {
  import opened Wrappers
  import Candles

  /** `obv` is `None` once it is NaN. */
  datatype ObvState = ObvState(obv: Option<real>, prevClose: Option<real>)

  function Create(): ObvState { ObvState(Some(0.0), None) }

  /** f64 addition and subtraction with NaN absorbing. */
  function Add(a: Option<real>, b: Option<real>): (r: Option<real>)
    ensures r.Some? <==> a.Some? && b.Some?
    ensures r.Some? ==> r.value == a.value + b.value
  {
    if a.Some? && b.Some? then Some(a.value + b.value) else None
  }

  function Sub(a: Option<real>, b: Option<real>): (r: Option<real>)
    ensures r.Some? <==> a.Some? && b.Some?
    ensures r.Some? ==> r.value == a.value - b.value
  {
    if a.Some? && b.Some? then Some(a.value - b.value) else None
  }

  /** `next(candle)`: the new state; the output is the new total. */
  function Step(s: ObvState, b: Candles.Bar): (r: (ObvState, Option<real>))
    ensures r.0.prevClose == Some(b.close) && r.1 == r.0.obv
    ensures s.prevClose.None? ==> r.1 == b.volume
    ensures s.prevClose.Some? && b.close == s.prevClose.value ==> r.1 == s.obv
  {
    var obv :=
      match s.prevClose
      case Some(prev) =>
        if b.close > prev then Add(s.obv, b.volume)
        else if b.close < prev then Sub(s.obv, b.volume)
        else s.obv
      case None => b.volume;
    (ObvState(obv, Some(b.close)), obv)
  }

  function Restart(s: ObvState): (r: ObvState)
    ensures r == Create()
  {
    ObvState(Some(0.0), None)
  }

  /** The period this indicator reports (its own `period()` in src/indicators/obv.rs). */
  function Period(s: ObvState): nat { 1 }

  /** The sign rule: with a total and a volume at hand, the close's move against the previous one decides. */
  lemma SignRule(s: ObvState, b: Candles.Bar)
    requires s.prevClose.Some? && s.obv.Some? && b.volume.Some?
    ensures var out := Step(s, b).1;
            out.Some?
            && (b.close > s.prevClose.value ==> out.value == s.obv.value + b.volume.value)
            && (b.close < s.prevClose.value ==> out.value == s.obv.value - b.volume.value)
            && (b.close == s.prevClose.value ==> out.value == s.obv.value)
  {
  }

  /** A NaN total stays NaN until a reset; a missing volume on a move makes it NaN. */
  lemma NaNAbsorbs(s: ObvState, b: Candles.Bar)
    requires s.prevClose.Some?
    ensures s.obv.None? ==> Step(s, b).1.None?
    ensures b.volume.None? && b.close != s.prevClose.value ==> Step(s, b).1.None?
  {
  }

  /** Closes 100, 105, 102, 108, 104 with volumes 10, 20, 15, 25, 30 give 10, 30, 15, 40, 10. */
  lemma FiveCandleExample(o: real, h: real, l: real)
    ensures var bar := (c: real, v: real) => Candles.Bar(o, h, l, c, c, Some(v));
            var (s1, a1) := Step(Create(), bar(100.0, 10.0));
            var (s2, a2) := Step(s1, bar(105.0, 20.0));
            var (s3, a3) := Step(s2, bar(102.0, 15.0));
            var (s4, a4) := Step(s3, bar(108.0, 25.0));
            var (s5, a5) := Step(s4, bar(104.0, 30.0));
            [a1, a2, a3, a4, a5] == [Some(10.0), Some(30.0), Some(15.0), Some(40.0), Some(10.0)]
  {
  }

  /** The persisted form is empty; reading it back gives a new indicator. */
  datatype ObvParams = ObvParams

  /** What this indicator's serde code in src/indicators/obv.rs writes: the parameters, no running state. */
  function Encode(s: ObvState): ObvParams { ObvParams }

  /** Reads the parameters back the way this indicator's serde code in src/indicators/obv.rs does. */
  function Decode(p: ObvParams): (r: ObvState)
    ensures r == Create()
  {
    Create()
  }

  lemma DecodeEncode(s: ObvState)
    ensures Decode(Encode(s)) == Restart(s)
  {
  }

  /** The indicator of the source, field by field. */
  class OnBalanceVolume {
    var obv: Option<real>
    var prevClose: Option<real>

    function State(): ObvState reads this { ObvState(obv, prevClose) }

    constructor ()
      ensures State() == Create()
    {
      obv, prevClose := Some(0.0), None;
    }

    method Next(b: Candles.Bar) returns (out: Option<real>)
      modifies this
      ensures (State(), out) == Step(old(State()), b)
    {
      match prevClose {
        case Some(prev) =>
          if b.close > prev {
            obv := Add(obv, b.volume);
          } else if b.close < prev {
            obv := Sub(obv, b.volume);
          }
        case None =>
          obv := b.volume;
      }
      prevClose := Some(b.close);
      out := obv;
    }

    method Reset()
      modifies this
      ensures State() == Restart(old(State()))
    {
      obv, prevClose := Some(0.0), None;
    }

    function Period(): nat { 1 }
  }
}
