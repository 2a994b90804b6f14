/**
 * The stake modifiers (src/strategy/binary/modifier.rs): either the amount
 * is left alone, or a Martingale counter scales it.
 */
module Modifier {
  import Wrappers
  import Numeric
  import Platform
  import M = Martingale

  datatype Modifier = None | Martingale(martingale: M.Martingale)

  /** `Modifier::none`. */
  function NoneModifier(): (m: Modifier)
    ensures m.None?
  {
    None
  }

  /** `Default`: no modification. */
  function Default(): (m: Modifier)
    ensures m == NoneModifier()
  {
    None
  }

  /** `Modifier::martingale`: the Martingale's parameter errors come through unchanged. */
  method MartingaleModifier(multiplier: real, maxDoublings: M.U32, reset: M.ResetCondition)
    returns (r: Wrappers.Result<Modifier>)
    ensures r.Ok? <==> multiplier > 1.0 && maxDoublings > 0
    ensures r.Err? ==> r.error == Wrappers.InvalidParameter
    ensures r.Ok? ==> r.value.Martingale? && fresh(r.value.martingale)
                      && r.value.martingale.multiplier == multiplier && r.value.martingale.maxDoublings == maxDoublings
                      && r.value.martingale.resetCondition == reset && r.value.martingale.currentDoublings == 0
  {
    var m := M.New(multiplier, maxDoublings, reset);
    if m.Err? {
      return Wrappers.Err(m.error);
    }
    return Wrappers.Ok(Martingale(m.value));
  }

  /** `modify`: `None` passes the amount through; a Martingale scales it and moves its counter. */
  method Modify(modifier: Modifier, amount: real, last: Wrappers.Option<Platform.TradeResult>) returns (r: real)
    modifies if modifier.Martingale? then {modifier.martingale} else {}
    ensures modifier.None? ==> r == amount
    ensures modifier.Martingale? ==>
              var g := modifier.martingale;
              g.multiplier == old(g.multiplier) && g.maxDoublings == old(g.maxDoublings)
              && g.resetCondition == old(g.resetCondition)
              && (last.None? ==> r == amount && g.currentDoublings == old(g.currentDoublings))
              && (last.Some? ==>
                    var (c, f) := M.Step(g.multiplier, g.maxDoublings, g.resetCondition, old(g.currentDoublings), last.value);
                    g.currentDoublings == c && r == amount * f)
  {
    match modifier {
      case None =>
        r := amount;
      case Martingale(g) =>
        r := g.Modify(amount, last);
    }
  }

  /** The default modifier leaves every amount as it is, whatever the last result. */
  method DefaultKeepsAmount(amount: real, last: Wrappers.Option<Platform.TradeResult>) returns (r: real)
    ensures r == amount
  {
    r := Modify(Default(), amount, last);
  }

  /** A Martingale modifier after a loss from a fresh start doubles a stake of 10 to 20 at multiplier 2. */
  method MartingaleAfterLoss() returns (r: real)
    ensures r == 20.0
  {
    var m := MartingaleModifier(2.0, 3, M.Win);
    r := Modify(m.value, 10.0, Wrappers.Some(Platform.Lose));
    assert Numeric.Pow(2.0, 1) == 2.0 * Numeric.Pow(2.0, 0);
  }
}
