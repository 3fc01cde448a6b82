/**
 * Broker actions the strategy issues and the bracket prices attached to an
 * entry order.
 */
module Orders {

  /** Direction of an entry order (the strings "buy" and "sell"). */
  datatype Side = Buy | Sell

  function Opposite(side: Side): (o: Side)
    ensures o != side
  {
    match side
    case Buy => Sell
    case Sell => Buy
  }

  /**
   * What one tick may hand to the broker: a liquidation of every open
   * position (`sell_all`) or a bracket order (`create_order(...,
   * type="bracket", ...)` followed by `submit_order`).
   */
  datatype Action =
    | SellAll
    | Order(symbol: string, side: Side, quantity: int, takeProfit: real, stopLoss: real)

  /** Exit prices of a bracket order. */
  datatype Bracket = Bracket(takeProfit: real, stopLoss: real)

  /** Profit per share of a position entered on `side` at `entry` and closed at `exit`. */
  function Gain(side: Side, entry: real, exit: real): (g: real)
  {
    match side
    case Buy => exit - entry
    case Sell => entry - exit
  }

  /**
   * Exit prices for an entry at `price`: the target sits 4 ATR in favour of
   * the position and the stop 2 ATR against it.
   */
  function BracketFor(side: Side, price: real, atr: real): (b: Bracket)
    ensures Gain(side, price, b.takeProfit) == 4.0 * atr
    ensures Gain(side, price, b.stopLoss) == -2.0 * atr
  {
    match side
    case Buy => Bracket(price + 4.0 * atr, price - 2.0 * atr)
    case Sell => Bracket(price - 4.0 * atr, price + 2.0 * atr)
  }

  /** The long and the short bracket are mirror images of each other around the price. */
  lemma BracketMirror(price: real, atr: real)
    ensures BracketFor(Sell, price, atr).stopLoss - price == price - BracketFor(Buy, price, atr).stopLoss
    ensures BracketFor(Sell, price, atr).takeProfit - price == price - BracketFor(Buy, price, atr).takeProfit
    ensures BracketFor(Buy, price, atr).stopLoss == price - 2.0 * atr
    ensures BracketFor(Buy, price, atr).takeProfit == price + 4.0 * atr
  {
  }

  /**
   * With a positive ATR the stop and the target lie on opposite sides of the
   * entry price, and the target is twice as far away as the stop.
   */
  lemma BracketRiskReward(side: Side, price: real, atr: real)
    requires atr > 0.0
    ensures var b := BracketFor(side, price, atr);
      (side == Buy ==> b.stopLoss < price < b.takeProfit)
      && (side == Sell ==> b.takeProfit < price < b.stopLoss)
      && b.takeProfit - price == -2.0 * (b.stopLoss - price)
  {
  }
}
