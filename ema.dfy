/** The exponential moving average (src/indicators/ema.rs). */
module Ema {
  import opened Wrappers
  import Candles
  import Numeric

  /** `period`, the weight `k`, the last output `current`, and whether no input has been seen. */
  datatype EmaState = EmaState(period: nat, k: real, current: real, isNew: bool)

  /** The weight a period fixes: 2 / (period + 1). */
  function Weight(period: nat): real { 2.0 / ((period + 1) as real) }

  /** A constructed average: positive period and the weight that period fixes. */
  predicate Valid(s: EmaState) { s.period > 0 && s.k == Weight(s.period) }

  function Create(period: nat): (r: Result<EmaState>)
    ensures r.Ok? <==> period > 0
    ensures r.Err? ==> r.error == InvalidParameter
    ensures r.Ok? ==> Valid(r.value) && r.value.period == period && r.value.isNew && r.value.current == 0.0
  {
    if period == 0 then Err(InvalidParameter) else Ok(EmaState(period, Weight(period), 0.0, true))
  }

  /** `next(input)`: the new state and the output, which is the new `current`. */
  function Step(s: EmaState, x: real): (r: (EmaState, real))
    ensures r.1 == r.0.current && !r.0.isNew
    ensures r.0.period == s.period && r.0.k == s.k
    ensures s.isNew ==> r.1 == x
  {
    if s.isNew then (s.(isNew := false, current := x), x)
    else
      var c := s.k * x + (1.0 - s.k) * s.current;
      (s.(current := c), c)
  }

  /** A candle feeds its close. */
  function StepCandle(s: EmaState, b: Candles.Bar): (r: (EmaState, real))
    ensures r == Step(s, b.close)
  {
    Step(s, b.close)
  }

  /** `reset` keeps period and weight and forgets the inputs. */
  function Restart(s: EmaState): (r: EmaState)
    ensures r.period == s.period && r.k == s.k && r.isNew
    ensures Valid(s) ==> r == Create(s.period).value
  {
    s.(current := 0.0, isNew := true)
  }

  /** The period this indicator reports (its own `period()` in src/indicators/ema.rs). */
  function Period(s: EmaState): nat { s.period }

  /** After the first input each output is between the previous output and the input. */
  lemma BetweenPreviousAndInput(s: EmaState, x: real)
    requires Valid(s) && !s.isNew
    ensures Step(s, x).1 == s.k * x + (1.0 - s.k) * s.current
    ensures (s.current <= x ==> s.current <= Step(s, x).1 <= x)
    ensures (x <= s.current ==> x <= Step(s, x).1 <= s.current)
  {
    var p := s.period as real;
    assert s.k * (p + 1.0) == 2.0;
    assert 0.0 < s.k <= 1.0 by {
      if s.k > 1.0 {
        Numeric.MulNonNegative(s.k - 1.0, p + 1.0);
      }
    }
    var out := Step(s, x).1;
    assert out - s.current == s.k * (x - s.current);
    assert x - out == (1.0 - s.k) * (x - s.current);
    if s.current <= x {
      Numeric.MulNonNegative(s.k, x - s.current);
      Numeric.MulNonNegative(1.0 - s.k, x - s.current);
    } else {
      Numeric.MulNonNegative(s.k, s.current - x);
      Numeric.MulNonNegative(1.0 - s.k, s.current - x);
    }
  }

  /** The first input after construction or reset is returned unchanged. */
  lemma FirstOutputIsInput(s: EmaState, x: real)
    ensures Step(Restart(s), x).1 == x
  {
  }

  /** EMA(3) has weight 0.5 and turns 2, 5, 1, 6.25 into 2, 3.5, 2.25, 4.25. */
  lemma PeriodThreeExample()
    ensures Create(3).value.k == 0.5
    ensures var s0 := Create(3).value;
            var r1 := Step(s0, 2.0); var r2 := Step(r1.0, 5.0);
            var r3 := Step(r2.0, 1.0); var r4 := Step(r3.0, 6.25);
            [r1.1, r2.1, r3.1, r4.1] == [2.0, 3.5, 2.25, 4.25]
  {
  }

  /** The persisted form: period and weight; the other fields take their defaults when read back. */
  datatype EmaParams = EmaParams(period: nat, k: real)

  /** What this indicator's serde code in src/indicators/ema.rs writes: the parameters, no running state. */
  function Encode(s: EmaState): EmaParams { EmaParams(s.period, s.k) }

  /** Reads the parameters back the way this indicator's serde code in src/indicators/ema.rs does. */
  function Decode(p: EmaParams): (r: EmaState)
    ensures r.isNew && r.current == 0.0 && r.period == p.period && r.k == p.k
  {
    EmaState(p.period, p.k, 0.0, true)
  }

  /** Writing then reading an average gives it back reset; for a fresh one, itself. */
  lemma DecodeEncode(s: EmaState)
    ensures Decode(Encode(s)) == Restart(s)
    ensures Valid(s) ==> Decode(Encode(s)) == Create(s.period).value
    ensures Encode(Create(3).value) == EmaParams(3, 0.5)
  {
  }

  /** The streaming average of the source, field by field. */
  class ExponentialMovingAverage {
    var period: nat
    var k: real
    var current: real
    var isNew: bool

    function State(): EmaState reads this { EmaState(period, k, current, isNew) }

    constructor Init(s: EmaState)
      ensures State() == s
    {
      period, k, current, isNew := s.period, s.k, s.current, s.isNew;
    }

    static method New(period: nat) returns (r: Result<ExponentialMovingAverage>)
      ensures r.Ok? <==> period > 0
      ensures r.Err? ==> r.error == InvalidParameter
      ensures r.Ok? ==> fresh(r.value) && r.value.State() == Create(period).value
    {
      if period == 0 {
        return Err(InvalidParameter);
      }
      var e := new ExponentialMovingAverage.Init(EmaState(period, 2.0 / ((period + 1) as real), 0.0, true));
      return Ok(e);
    }

    /** `Default`: period 9. */
    static method Default() returns (e: ExponentialMovingAverage)
      ensures fresh(e) && e.State() == Create(9).value
    {
      e := new ExponentialMovingAverage.Init(Create(9).value);
    }

    method Next(input: real) returns (out: real)
      modifies this
      ensures (State(), out) == Step(old(State()), input)
    {
      if isNew {
        isNew := false;
        current := input;
        assert State() == Step(old(State()), input).0;
      } else {
        current := k * input + (1.0 - k) * current;
        assert State() == Step(old(State()), input).0;
      }
      out := current;
    }

    method NextCandle(b: Candles.Bar) returns (out: real)
      modifies this
      ensures (State(), out) == StepCandle(old(State()), b)
    {
      out := Next(b.close);
    }

    method Reset()
      modifies this
      ensures State() == Restart(old(State()))
    {
      current := 0.0;
      isNew := true;
    }

    function Period(): nat reads this { period }
  }
}
