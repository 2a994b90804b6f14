/** The outcome of a binary-options trade (src/strategy/platform.rs). */
module Platform {

  /** A win carries its payout; the stake modifiers only look at the kind. */
  datatype TradeResult = Win(payout: real) | Lose | Draw
}
