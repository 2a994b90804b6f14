/** The trading actions a strategy produces (src/strategy/action.rs). */
module Actions {
  datatype Action = StrongBuy | Buy | Hold | Sell | StrongSell
}
