/**
 * The Martingale stake modifier (src/strategy/binary/martingale.rs): a
 * counter of consecutive doublings, bounded by `maxDoublings`, that turns the
 * result of the last trade into a factor for the next stake.
 */
module Martingale {
  import opened Wrappers
  import Numeric
  import Platform

  /** `u32`. */
  type U32 = x: int | 0 <= x < 0x1_0000_0000

  /** Which results start the doubling over: a win only, or a win or a draw. */
  datatype ResetCondition = Win | WinOrDraw

  /**
   * One `calculate_multiplier` on the counter `current`: the new counter and
   * the stake factor.  A win resets and gives 1; a loss below the maximum
   * counts one more doubling and gives the multiplier to that power, at the
   * maximum it gives 1 and leaves the counter; a draw resets under
   * `WinOrDraw` and otherwise keeps the current factor.
   */
  function Step(multiplier: real, maxDoublings: nat, reset: ResetCondition, current: nat, result: Platform.TradeResult)
    : (nat, real)
  {
    match result
    case Win(_) => (0, 1.0)
    case Lose => if current < maxDoublings then (current + 1, Numeric.Pow(multiplier, current + 1)) else (current, 1.0)
    case Draw => if reset.WinOrDraw? then (0, 1.0) else (current, Numeric.Pow(multiplier, current))
  }

  /** A run of trades from counter `current`: the final counter and the factor after each result. */
  function Run(multiplier: real, maxDoublings: nat, reset: ResetCondition, current: nat, results: seq<Platform.TradeResult>)
    : (r: (nat, seq<real>))
    ensures |r.1| == |results|
    decreases |results|
  {
    if |results| == 0 then (current, [])
    else
      var (c, f) := Step(multiplier, maxDoublings, reset, current, results[0]);
      var (last, fs) := Run(multiplier, maxDoublings, reset, c, results[1..]);
      (last, [f] + fs)
  }

  class Martingale {
    var multiplier: real
    var maxDoublings: U32
    var currentDoublings: U32
    var resetCondition: ResetCondition

    /** The fields as `new` sets them: no doubling made yet. */
    constructor Init(multiplier: real, maxDoublings: U32, reset: ResetCondition)
      ensures this.multiplier == multiplier && this.maxDoublings == maxDoublings
      ensures resetCondition == reset && currentDoublings == 0
    {
      this.multiplier, this.maxDoublings, resetCondition := multiplier, maxDoublings, reset;
      currentDoublings := 0;
    }

    /** `calculate_multiplier`: the counter moves as `Step` says and the factor is returned. */
    method CalculateMultiplier(result: Platform.TradeResult) returns (f: real)
      modifies this
      ensures multiplier == old(multiplier) && maxDoublings == old(maxDoublings) && resetCondition == old(resetCondition)
      ensures (currentDoublings, f) == Step(multiplier, maxDoublings, resetCondition, old(currentDoublings), result)
    {
      match result {
        case Win(_) =>
          currentDoublings := 0;
          f := 1.0;
        case Lose =>
          if currentDoublings < maxDoublings {
            currentDoublings := currentDoublings + 1;
            f := Numeric.Pow(multiplier, currentDoublings);
          } else {
            f := 1.0;
          }
        case Draw =>
          if resetCondition.WinOrDraw? {
            currentDoublings := 0;
            f := 1.0;
          } else {
            f := Numeric.Pow(multiplier, currentDoublings);
          }
      }
    }

    /** `modify`: without a last result the amount is kept, otherwise it is scaled by the factor for that result. */
    method Modify(amount: real, last: Option<Platform.TradeResult>) returns (r: real)
      modifies this
      ensures multiplier == old(multiplier) && maxDoublings == old(maxDoublings) && resetCondition == old(resetCondition)
      ensures last.None? ==> r == amount && currentDoublings == old(currentDoublings)
      ensures last.Some? ==>
                var (c, f) := Step(multiplier, maxDoublings, resetCondition, old(currentDoublings), last.value);
                currentDoublings == c && r == amount * f
    {
      if last.Some? {
        var f := CalculateMultiplier(last.value);
        r := amount * f;
      } else {
        r := amount;
      }
    }
  }

  /** `Martingale::new`: a multiplier above 1 and at least one doubling, or `InvalidParameter`. */
  method New(multiplier: real, maxDoublings: U32, reset: ResetCondition) returns (r: Result<Martingale>)
    ensures r.Ok? <==> multiplier > 1.0 && maxDoublings > 0
    ensures r.Err? ==> r.error == InvalidParameter
    ensures r.Ok? ==> fresh(r.value) && r.value.multiplier == multiplier && r.value.maxDoublings == maxDoublings
                      && r.value.resetCondition == reset && r.value.currentDoublings == 0
  {
    if multiplier <= 1.0 {
      return Err(InvalidParameter);
    }
    if maxDoublings == 0 {
      return Err(InvalidParameter);
    }
    var m := new Martingale.Init(multiplier, maxDoublings, reset);
    return Ok(m);
  }

  // ---------------------------------------------------------------- properties of one step

  /** A win resets the counter and gives factor 1, whatever the reset condition. */
  lemma WinResets(multiplier: real, maxDoublings: nat, reset: ResetCondition, current: nat, payout: real)
    ensures Step(multiplier, maxDoublings, reset, current, Platform.Win(payout)) == (0, 1.0)
  {
  }

  /** A loss below the maximum counts one more doubling; at or above it the factor falls back to 1 and the counter stays. */
  lemma LoseDoubles(multiplier: real, maxDoublings: nat, reset: ResetCondition, current: nat)
    ensures current < maxDoublings ==>
              Step(multiplier, maxDoublings, reset, current, Platform.Lose) == (current + 1, Numeric.Pow(multiplier, current + 1))
    ensures current >= maxDoublings ==> Step(multiplier, maxDoublings, reset, current, Platform.Lose) == (current, 1.0)
  {
  }

  /** A draw resets under `WinOrDraw`; under `Win` it keeps the counter and its factor. */
  lemma DrawDepends(multiplier: real, maxDoublings: nat, current: nat)
    ensures Step(multiplier, maxDoublings, WinOrDraw, current, Platform.Draw) == (0, 1.0)
    ensures Step(multiplier, maxDoublings, Win, current, Platform.Draw) == (current, Numeric.Pow(multiplier, current))
  {
  }

  /** `b^i <= b^j` for `b >= 1` and `i <= j`. */
  lemma {:induction false} PowMonotone(b: real, i: nat, j: nat)
    requires b >= 1.0 && i <= j
    ensures Numeric.Pow(b, i) <= Numeric.Pow(b, j)
    decreases j
  {
    if i < j {
      PowMonotone(b, i, j - 1);
      Numeric.PowAtLeastOne(b, j - 1);
      assert Numeric.Pow(b, j) == b * Numeric.Pow(b, j - 1);
      assert b * Numeric.Pow(b, j - 1) - Numeric.Pow(b, j - 1) == (b - 1.0) * Numeric.Pow(b, j - 1);
      Numeric.MulNonNegative(b - 1.0, Numeric.Pow(b, j - 1));
    }
  }

  /**
   * The counter never passes the maximum, and every factor lies between 1 and
   * `multiplier^maxDoublings`: the stake is never more than that many doublings.
   */
  lemma StepBounds(multiplier: real, maxDoublings: nat, reset: ResetCondition, current: nat, result: Platform.TradeResult)
    requires multiplier >= 1.0 && current <= maxDoublings
    ensures Step(multiplier, maxDoublings, reset, current, result).0 <= maxDoublings
    ensures 1.0 <= Step(multiplier, maxDoublings, reset, current, result).1 <= Numeric.Pow(multiplier, maxDoublings)
  {
    Numeric.PowAtLeastOne(multiplier, maxDoublings);
    match result
    case Win(_) =>
    case Lose =>
      if current < maxDoublings {
        Numeric.PowAtLeastOne(multiplier, current + 1);
        PowMonotone(multiplier, current + 1, maxDoublings);
      }
    case Draw =>
      Numeric.PowAtLeastOne(multiplier, current);
      PowMonotone(multiplier, current, maxDoublings);
  }

  // ---------------------------------------------------------------- properties of a run

  /** Over a whole run the counter stays within the maximum and every factor within `[1, multiplier^maxDoublings]`. */
  lemma {:induction false} RunBounds(multiplier: real, maxDoublings: nat, reset: ResetCondition, current: nat,
                                     results: seq<Platform.TradeResult>)
    requires multiplier >= 1.0 && current <= maxDoublings
    ensures Run(multiplier, maxDoublings, reset, current, results).0 <= maxDoublings
    ensures forall k :: 0 <= k < |results| ==>
              1.0 <= Run(multiplier, maxDoublings, reset, current, results).1[k] <= Numeric.Pow(multiplier, maxDoublings)
    decreases |results|
  {
    if |results| > 0 {
      var (c, f) := Step(multiplier, maxDoublings, reset, current, results[0]);
      StepBounds(multiplier, maxDoublings, reset, current, results[0]);
      RunBounds(multiplier, maxDoublings, reset, c, results[1..]);
    }
  }

  /** `k` losses in a row from counter `c`, with `c + k` within the maximum, give the factors `m^(c+1)`, …, `m^(c+k)`. */
  lemma {:induction false} LosingStreak(multiplier: real, maxDoublings: nat, reset: ResetCondition, current: nat, k: nat)
    requires current + k <= maxDoublings
    ensures var r := Run(multiplier, maxDoublings, reset, current, seq(k, _ => Platform.Lose));
            r.0 == current + k && forall i :: 0 <= i < k ==> r.1[i] == Numeric.Pow(multiplier, current + i + 1)
    decreases k
  {
    if k > 0 {
      var losses := seq(k, _ => Platform.Lose);
      assert losses[0] == Platform.Lose;
      assert losses[1..] == seq(k - 1, _ => Platform.Lose);
      LosingStreak(multiplier, maxDoublings, reset, current + 1, k - 1);
    }
  }

  /** At the maximum, further losses leave the counter there and the stake at its base: factor 1 each time. */
  lemma {:induction false} LossesAtMaxStayFlat(multiplier: real, maxDoublings: nat, reset: ResetCondition, k: nat)
    ensures var r := Run(multiplier, maxDoublings, reset, maxDoublings, seq(k, _ => Platform.Lose));
            r.0 == maxDoublings && forall i :: 0 <= i < k ==> r.1[i] == 1.0
    decreases k
  {
    if k > 0 {
      var losses := seq(k, _ => Platform.Lose);
      assert losses[0] == Platform.Lose;
      assert losses[1..] == seq(k - 1, _ => Platform.Lose);
      LossesAtMaxStayFlat(multiplier, maxDoublings, reset, k - 1);
    }
  }

  /** A fresh modifier's stakes: no result keeps the amount; a first loss scales it by the multiplier. */
  method FirstStakes(multiplier: real, maxDoublings: U32, amount: real) returns (kept: real, doubled: real)
    requires multiplier > 1.0 && maxDoublings > 0
    ensures kept == amount && doubled == amount * multiplier
  {
    var r := New(multiplier, maxDoublings, Win);
    var m := r.value;
    kept := m.Modify(amount, None);
    doubled := m.Modify(amount, Some(Platform.Lose));
    assert Numeric.Pow(multiplier, 1) == multiplier * Numeric.Pow(multiplier, 0);
  }
}
