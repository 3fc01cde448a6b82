/** The strategy object: its settings, the remembered side and the tick. */
module Trader {
  import opened Options
  import opened Orders
  import opened Sizing
  import opened SentimentGate
  import opened Decision

  class MLTrader {
    const symbol: string
    /** How often the scheduler runs a tick. */
    const sleeptime: string
    const cashAtRisk: real
    const sentimentThreshold: real
    /** Length of the ATR window; it is used only by the market-data step. */
    const atrWindow: int
    /** The side of the last entry order (`None` before the first one). */
    var lastTrade: Option<Side>
    /** Every broker action issued so far, in order. */
    var log: seq<Action>

    /** The remembered side is the side of the last logged entry, and no reversal skipped its liquidation. */
    ghost predicate Valid()
      reads this
    {
      lastTrade == LastEntry(log) && ReversalsFlatten(log)
    }

    function Settings(): (cfg: Config)
    {
      Config(symbol, cashAtRisk, sentimentThreshold)
    }

    /** `initialize`: the settings with their defaults, and nothing traded yet. */
    constructor (symbol: string := "LLOY.L", cashAtRisk: real := 0.5,
                 sentimentThreshold: real := 0.95, atrWindow: int := 14)
      ensures Valid()
      ensures this.symbol == symbol && this.cashAtRisk == cashAtRisk
      ensures this.sentimentThreshold == sentimentThreshold && this.atrWindow == atrWindow
      ensures sleeptime == "24H"
      ensures lastTrade == None && log == []
    {
      this.symbol := symbol;
      this.sleeptime := "24H";
      this.lastTrade := None;
      this.cashAtRisk := cashAtRisk;
      this.sentimentThreshold := sentimentThreshold;
      this.atrWindow := atrWindow;
      this.log := [];
    }

    /**
     * Hands one action to the broker (`sell_all` or `submit_order`). An
     * internal step of OpenPosition: on its own it need not keep Valid().
     */
    method Issue(a: Action)
      modifies this`log
      ensures log == old(log) + [a]
    {
      log := log + [a];
    }

    /**
     * An entry on `order.side`: `sell_all` first when the opposite side is
     * remembered, then the bracket order; the side is remembered whatever
     * the broker returns for the order. The log invariant is kept.
     */
    method OpenPosition(order: Action)
      requires Valid()
      requires order.Order?
      modifies this`lastTrade, this`log
      ensures Valid()
      ensures log == old(log) + Enter(old(lastTrade), order).actions
      ensures lastTrade == Some(order.side) == Enter(old(lastTrade), order).next
    {
      EnterKeepsReversalsFlat(log, order);
      if lastTrade == Some(Opposite(order.side)) {
        Issue(SellAll);
      }
      Issue(order);
      lastTrade := Some(order.side);
      assert log == old(log) + Enter(old(lastTrade), order).actions;
    }

    /**
     * `on_trading_iteration`: one tick. The issued actions and the new
     * remembered side are those of Decide, the log grows by exactly the
     * issued actions, and the log invariant is kept.
     */
    method OnTradingIteration(lastPrice: Option<real>, atr: Option<real>, cash: real,
                              sentiment: Option<Sentiment>) returns (issued: seq<Action>)
      requires Valid()
      modifies this`lastTrade, this`log
      ensures Valid()
      ensures Decide(Settings(), old(lastTrade), TickInput(lastPrice, atr, cash, sentiment))
              == Outcome(issued, lastTrade)
      ensures log == old(log) + issued
    {
      var start := |log|;
      issued := [];
      if lastPrice.None? || atr.None? {
        return;
      }
      var price, range := lastPrice.value, atr.value;
      var sizing := PositionSizing(cash, cashAtRisk, price);
      if sentiment.None? {
        return;
      }
      var probability, polarity := sentiment.value.probability, sentiment.value.polarity;

      var buy := BracketFor(Buy, price, range);
      var sell := BracketFor(Sell, price, range);

      ghost var t := TickInput(lastPrice, atr, cash, sentiment);
      ghost var d := Decide(Settings(), lastTrade, t);
      StepKeepsReversalsFlat(Settings(), log, t);
      if sizing.cash > price && sizing.quantity > 0 {
        if polarity == Positive && probability > sentimentThreshold {
          OpenPosition(Order(symbol, Buy, sizing.quantity, buy.takeProfit, buy.stopLoss));
        } else if polarity == Negative && probability > sentimentThreshold {
          OpenPosition(Order(symbol, Sell, sizing.quantity, sell.takeProfit, sell.stopLoss));
        }
      }
      assert log == old(log) + d.actions && lastTrade == d.next;
      issued := log[start..];
      assert log == old(log) + issued;
    }
  }
}
