/**
 * The per-tick decision of the strategy as a pure function of the held side
 * and the tick's inputs, and what it guarantees across a run of ticks.
 */
module Decision {
  import opened Options
  import opened Orders
  import opened Sizing
  import opened SentimentGate

  /** The strategy's settings that the decision reads. */
  datatype Config = Config(symbol: string, cashAtRisk: real, sentimentThreshold: real)

  /**
   * What one tick observes: the last close and the ATR (missing when market
   * data could not be fetched), the account's cash, and the sentiment
   * (missing when the news request failed).
   */
  datatype TickInput = TickInput(
    lastPrice: Option<real>,
    atr: Option<real>,
    cash: real,
    sentiment: Option<Sentiment>)

  /** Actions handed to the broker during the tick, in order, and the side remembered afterwards. */
  datatype Outcome = Outcome(actions: seq<Action>, next: Option<Side>)

  /**
   * Opening a position on `order.side`: an opposite position remembered from
   * earlier is liquidated first; the remembered side becomes `order.side`.
   */
  function Enter(last: Option<Side>, order: Action): (d: Outcome)
    requires order.Order?
  {
    var close := if last == Some(Opposite(order.side)) then [SellAll] else [];
    Outcome(close + [order], Some(order.side))
  }

  /**
   * The transition of one tick: abort on missing data or sentiment, trade
   * only when the cash exceeds the price and the sized quantity is positive,
   * and then only on a signal that clears the gate.
   */
  function Decide(cfg: Config, last: Option<Side>, t: TickInput): (d: Outcome)
  {
    if t.lastPrice.None? || t.atr.None? || t.sentiment.None? then Outcome([], last)
    else
      var price := t.lastPrice.value;
      var sizing := PositionSizing(t.cash, cfg.cashAtRisk, price);
      if !(sizing.cash > price && sizing.quantity > 0) then Outcome([], last)
      else
        match Gate(t.sentiment.value, cfg.sentimentThreshold)
        case NoSignal => Outcome([], last)
        case Signal(side) =>
          var b := BracketFor(side, price, t.atr.value);
          Enter(last, Order(cfg.symbol, side, sizing.quantity, b.takeProfit, b.stopLoss))
  }

  /** The tick passes its guards and the gate: the price, ATR and sentiment are there and trading is allowed. */
  predicate Trades(cfg: Config, t: TickInput)
  {
    && t.lastPrice.Some? && t.atr.Some? && t.sentiment.Some?
    && var sizing := PositionSizing(t.cash, cfg.cashAtRisk, t.lastPrice.value);
    && sizing.cash > t.lastPrice.value
    && sizing.quantity > 0
    && Gate(t.sentiment.value, cfg.sentimentThreshold).Signal?
  }

  /** A tick issues something exactly when it trades; otherwise the remembered side is kept. */
  lemma ActsOnlyWhenTrading(cfg: Config, last: Option<Side>, t: TickInput)
    ensures Decide(cfg, last, t).actions != [] <==> Trades(cfg, t)
    ensures !Trades(cfg, t) ==> Decide(cfg, last, t).next == last
  {
  }

  /** Missing price, ATR or sentiment: the tick issues nothing and changes nothing. */
  lemma MissingInputIsNoOp(cfg: Config, last: Option<Side>, t: TickInput)
    requires t.lastPrice.None? || t.atr.None? || t.sentiment.None?
    ensures Decide(cfg, last, t) == Outcome([], last)
  {
  }

  /** A non-positive price sizes to zero shares and never trades, whatever the sentiment. */
  lemma NonPositivePriceIsNoOp(cfg: Config, last: Option<Side>, t: TickInput)
    requires t.lastPrice.Some? && t.lastPrice.value <= 0.0
    ensures Decide(cfg, last, t) == Outcome([], last)
  {
  }

  /** A probability at the threshold, or a neutral label, never trades. */
  lemma WeakSentimentIsNoOp(cfg: Config, last: Option<Side>, t: TickInput)
    requires t.sentiment.Some?
    requires t.sentiment.value.probability <= cfg.sentimentThreshold || t.sentiment.value.polarity == Neutral
    ensures Decide(cfg, last, t) == Outcome([], last)
  {
    GateIsStrict(t.sentiment.value, cfg.sentimentThreshold);
  }

  /**
   * A signal on `side` that passes the guards: a liquidation first exactly
   * when the opposite side is remembered, then one bracket order for the
   * sized quantity at the ATR bracket prices; the remembered side becomes
   * `side`.
   */
  lemma SignalEntersPosition(cfg: Config, last: Option<Side>, t: TickInput, side: Side)
    requires Trades(cfg, t)
    requires Gate(t.sentiment.value, cfg.sentimentThreshold) == Signal(side)
    ensures var d := Decide(cfg, last, t);
      var price := t.lastPrice.value;
      var b := BracketFor(side, price, t.atr.value);
      && d.next == Some(side)
      && |d.actions| == (if last == Some(Opposite(side)) then 2 else 1)
      && d.actions[|d.actions| - 1]
         == Order(cfg.symbol, side, PositionSizing(t.cash, cfg.cashAtRisk, price).quantity, b.takeProfit, b.stopLoss)
      && (|d.actions| == 2 ==> d.actions[0] == SellAll)
  {
  }

  /** At most one entry order per tick, and it is the last action; anything before it is a liquidation. */
  lemma OneEntryPerTick(cfg: Config, last: Option<Side>, t: TickInput)
    ensures var d := Decide(cfg, last, t);
      && |d.actions| <= 2
      && (forall i :: 0 <= i < |d.actions| - 1 ==> d.actions[i] == SellAll)
      && (d.actions != [] ==> d.actions[|d.actions| - 1].Order? && d.next == Some(d.actions[|d.actions| - 1].side))
  {
  }

  /**
   * Every order issued carries the strategy's symbol and a positive quantity
   * no larger than half a share beyond the cash put at risk, and its target
   * is twice as far from the price as its stop; with a positive ATR the exit
   * prices lie on opposite sides of the price.
   */
  lemma OrdersAreWellFormed(cfg: Config, last: Option<Side>, t: TickInput)
    ensures forall a | a in Decide(cfg, last, t).actions && a.Order? ::
      && t.lastPrice.Some? && t.atr.Some?
      && a.quantity > 0
      && a.symbol == cfg.symbol
      && a.quantity as real * t.lastPrice.value - t.cash * cfg.cashAtRisk <= t.lastPrice.value / 2.0
      && (t.atr.value > 0.0 && a.side == Buy ==> a.stopLoss < t.lastPrice.value < a.takeProfit)
      && (t.atr.value > 0.0 && a.side == Sell ==> a.takeProfit < t.lastPrice.value < a.stopLoss)
      && a.takeProfit - t.lastPrice.value == -2.0 * (a.stopLoss - t.lastPrice.value)
  {
    if Trades(cfg, t) {
      var price := t.lastPrice.value;
      var side := Gate(t.sentiment.value, cfg.sentimentThreshold).side;
      if t.atr.value > 0.0 {
        BracketRiskReward(side, price, t.atr.value);
      }
      SizingWithinHalfShare(t.cash, cfg.cashAtRisk, price);
    }
  }

  /**
   * With a risk fraction of at most one half, an order never costs as much
   * as the whole cash: rounding adds at most half a share, and the guard
   * already requires more cash than one share's price.
   */
  lemma OrderAffordableUpToHalfRisk(cfg: Config, last: Option<Side>, t: TickInput)
    requires cfg.cashAtRisk <= 0.5
    ensures forall a | a in Decide(cfg, last, t).actions && a.Order? ::
      t.lastPrice.Some? && a.quantity as real * t.lastPrice.value < t.cash
  {
    if Trades(cfg, t) {
      var price := t.lastPrice.value;
      SizingWithinHalfShare(t.cash, cfg.cashAtRisk, price);
      assert t.cash * cfg.cashAtRisk <= t.cash * 0.5 by {
        assert t.cash * (0.5 - cfg.cashAtRisk) >= 0.0;
      }
    }
  }

  // ---------------------------------------------------------------------
  // Runs of ticks and the action log

  /** The side of the most recent entry order in `log`, if there is one. */
  function LastEntry(log: seq<Action>): (side: Option<Side>)
  {
    if log == [] then None
    else match log[|log| - 1]
      case SellAll => LastEntry(log[..|log| - 1])
      case Order(_, side, _, _, _) => Some(side)
  }

  /**
   * No position is ever reversed without being flattened first: an order
   * whose side is opposite to the previous entry comes straight after a
   * liquidation, and a liquidation comes straight before such an order.
   */
  ghost predicate ReversalsFlatten(log: seq<Action>)
  {
    && (forall i | 0 <= i < |log| && log[i].Order? && LastEntry(log[..i]) == Some(Opposite(log[i].side)) ::
          0 < i && log[i - 1] == SellAll)
    && (forall i | 0 <= i < |log| && log[i] == SellAll ::
          i + 1 < |log| && log[i + 1].Order? && LastEntry(log[..i]) == Some(Opposite(log[i + 1].side)))
  }

  /** The ticks' decisions one after the other, starting from remembered side `last`. */
  function Run(cfg: Config, last: Option<Side>, ticks: seq<TickInput>): (r: Outcome)
    decreases |ticks|
  {
    if ticks == [] then Outcome([], last)
    else
      var d := Decide(cfg, last, ticks[0]);
      var rest := Run(cfg, d.next, ticks[1..]);
      Outcome(d.actions + rest.actions, rest.next)
  }

  lemma LastEntryAppendSellAll(log: seq<Action>)
    ensures LastEntry(log + [SellAll]) == LastEntry(log)
  {
    assert (log + [SellAll])[..|log|] == log;
  }

  lemma LastEntryAppendOrder(log: seq<Action>, o: Action)
    requires o.Order?
    ensures LastEntry(log + [o]) == Some(o.side)
  {
  }

  /** Appending an entry that does not reverse the last one keeps the log well ordered. */
  lemma AppendEntry(log: seq<Action>, o: Action)
    requires ReversalsFlatten(log)
    requires o.Order? && LastEntry(log) != Some(Opposite(o.side))
    ensures ReversalsFlatten(log + [o])
  {
    var n := log + [o];
    forall i | 0 <= i <= |log| ensures n[..i] == log[..i] {}
    forall i | 0 <= i < |n| && n[i].Order? && LastEntry(n[..i]) == Some(Opposite(n[i].side))
      ensures 0 < i && n[i - 1] == SellAll
    {
      assert i < |log|;
      assert n[i] == log[i];
    }
    forall i | 0 <= i < |n| && n[i] == SellAll
      ensures i + 1 < |n| && n[i + 1].Order? && LastEntry(n[..i]) == Some(Opposite(n[i + 1].side))
    {
      assert i < |log| && n[i] == log[i];
    }
  }

  /** Appending a liquidation and then an entry that reverses the last one keeps the log well ordered. */
  lemma AppendReversal(log: seq<Action>, o: Action)
    requires ReversalsFlatten(log)
    requires o.Order? && LastEntry(log) == Some(Opposite(o.side))
    ensures ReversalsFlatten(log + [SellAll, o])
  {
    var n := log + [SellAll, o];
    forall i | 0 <= i <= |log| ensures n[..i] == log[..i] {}
    assert n[..|log| + 1] == log + [SellAll];
    LastEntryAppendSellAll(log);
    forall i | 0 <= i < |n| && n[i].Order? && LastEntry(n[..i]) == Some(Opposite(n[i].side))
      ensures 0 < i && n[i - 1] == SellAll
    {
      if i < |log| {
        assert n[i] == log[i];
      }
    }
    forall i | 0 <= i < |n| && n[i] == SellAll
      ensures i + 1 < |n| && n[i + 1].Order? && LastEntry(n[..i]) == Some(Opposite(n[i + 1].side))
    {
      if i < |log| {
        assert n[i] == log[i];
      }
    }
  }

  /** An entry keeps the log free of unflattened reversals and makes its side the last entry. */
  lemma EnterKeepsReversalsFlat(log: seq<Action>, o: Action)
    requires ReversalsFlatten(log)
    requires o.Order?
    ensures var d := Enter(LastEntry(log), o);
      ReversalsFlatten(log + d.actions) && d.next == LastEntry(log + d.actions)
  {
    var d := Enter(LastEntry(log), o);
    if LastEntry(log) == Some(Opposite(o.side)) {
      assert d.actions == [SellAll, o];
      AppendReversal(log, o);
      assert log + [SellAll, o] == (log + [SellAll]) + [o];
      LastEntryAppendOrder(log + [SellAll], o);
    } else {
      assert d.actions == [o];
      AppendEntry(log, o);
      LastEntryAppendOrder(log, o);
    }
  }

  /** One tick keeps the log free of unflattened reversals and the remembered side equal to the last entry. */
  lemma StepKeepsReversalsFlat(cfg: Config, log: seq<Action>, t: TickInput)
    requires ReversalsFlatten(log)
    ensures var d := Decide(cfg, LastEntry(log), t);
      ReversalsFlatten(log + d.actions) && d.next == LastEntry(log + d.actions)
  {
    var d := Decide(cfg, LastEntry(log), t);
    if Trades(cfg, t) {
      var side := Gate(t.sentiment.value, cfg.sentimentThreshold).side;
      var b := BracketFor(side, t.lastPrice.value, t.atr.value);
      var quantity := PositionSizing(t.cash, cfg.cashAtRisk, t.lastPrice.value).quantity;
      var o := Order(cfg.symbol, side, quantity, b.takeProfit, b.stopLoss);
      assert d == Enter(LastEntry(log), o);
      EnterKeepsReversalsFlat(log, o);
    } else {
      ActsOnlyWhenTrading(cfg, LastEntry(log), t);
      assert log + d.actions == log;
    }
  }

  /**
   * From any log without unflattened reversals, with the remembered side
   * equal to the log's last entry, a run of ticks keeps both properties.
   */
  lemma {:induction false} RunKeepsReversalsFlat(cfg: Config, log: seq<Action>, ticks: seq<TickInput>)
    requires ReversalsFlatten(log)
    ensures var r := Run(cfg, LastEntry(log), ticks);
      ReversalsFlatten(log + r.actions) && r.next == LastEntry(log + r.actions)
    decreases |ticks|
  {
    if ticks == [] {
      assert log + [] == log;
    } else {
      var d := Decide(cfg, LastEntry(log), ticks[0]);
      RunUnfold(cfg, log, ticks);
      StepKeepsReversalsFlat(cfg, log, ticks[0]);
      RunKeepsReversalsFlat(cfg, log + d.actions, ticks[1..]);
    }
  }

  /** A run is its first tick followed by the run of the remaining ticks from the new side. */
  lemma RunUnfold(cfg: Config, log: seq<Action>, ticks: seq<TickInput>)
    requires ticks != []
    ensures var d := Decide(cfg, LastEntry(log), ticks[0]);
      var r := Run(cfg, LastEntry(log), ticks);
      var rest := Run(cfg, d.next, ticks[1..]);
      log + r.actions == (log + d.actions) + rest.actions && r.next == rest.next
  {
    var d := Decide(cfg, LastEntry(log), ticks[0]);
    var rest := Run(cfg, d.next, ticks[1..]);
    assert Run(cfg, LastEntry(log), ticks) == Outcome(d.actions + rest.actions, rest.next);
    assert log + (d.actions + rest.actions) == (log + d.actions) + rest.actions;
  }

  /** Starting flat, every run's log flattens before each reversal and ends on the remembered side. */
  lemma RunFromFlat(cfg: Config, ticks: seq<TickInput>)
    ensures ReversalsFlatten(Run(cfg, None, ticks).actions)
    ensures Run(cfg, None, ticks).next == LastEntry(Run(cfg, None, ticks).actions)
  {
    RunKeepsReversalsFlat(cfg, [], ticks);
    assert [] + Run(cfg, None, ticks).actions == Run(cfg, None, ticks).actions;
  }
}
