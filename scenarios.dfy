/**
 * Worked examples: single ticks, most with the default settings (one puts all
 * of the cash at risk), and sizing on its own.
 */
module Scenarios {
  import opened Options
  import opened Orders
  import opened Sizing
  import opened SentimentGate
  import opened Decision

  const Defaults := Config("LLOY.L", 0.5, 0.95)

  /** 10000 cash at price 100 and risk one half buys 50 shares, stop 96, target 108. */
  lemma LongEntryFromFlat()
    ensures Decide(Defaults, None, TickInput(Some(100.0), Some(2.0), 10000.0, Some(Sentiment(0.97, Positive))))
            == Outcome([Order("LLOY.L", Buy, 50, 108.0, 96.0)], Some(Buy))
  {
  }

  /** Held short, a confident positive sentiment liquidates and then goes long. */
  lemma ShortFlipsToLong()
    ensures Decide(Defaults, Some(Sell), TickInput(Some(100.0), Some(2.0), 10000.0, Some(Sentiment(0.97, Positive))))
            == Outcome([SellAll, Order("LLOY.L", Buy, 50, 108.0, 96.0)], Some(Buy))
  {
  }

  /** Held long, a confident negative sentiment liquidates and then goes short, stop 104, target 92. */
  lemma LongFlipsToShort()
    ensures Decide(Defaults, Some(Buy), TickInput(Some(100.0), Some(2.0), 10000.0, Some(Sentiment(0.99, Negative))))
            == Outcome([SellAll, Order("LLOY.L", Sell, 50, 92.0, 104.0)], Some(Sell))
  {
  }

  /** Already long, another buy signal re-issues the entry with no liquidation. */
  lemma SameSideReenters()
    ensures Decide(Defaults, Some(Buy), TickInput(Some(100.0), Some(2.0), 10000.0, Some(Sentiment(0.97, Positive))))
            == Outcome([Order("LLOY.L", Buy, 50, 108.0, 96.0)], Some(Buy))
  {
  }

  /** A probability exactly at the threshold does not trade. */
  lemma ThresholdIsExclusive()
    ensures Decide(Defaults, Some(Sell), TickInput(Some(100.0), Some(2.0), 10000.0, Some(Sentiment(0.95, Positive))))
            == Outcome([], Some(Sell))
  {
  }

  /** A price of zero sizes to nothing and never trades. */
  lemma ZeroPriceNeverTrades()
    ensures PositionSizing(10000.0, 0.5, 0.0) == Sizing(0.0, 0)
    ensures Decide(Defaults, None, TickInput(Some(0.0), Some(2.0), 10000.0, Some(Sentiment(0.99, Negative))))
            == Outcome([], None)
  {
  }

  /** Sizing rounds to nearest with ties to even: 3.5 shares become 4 and 2.5 become 2. */
  lemma SizingRoundsHalfToEven()
    ensures PositionSizing(700.0, 0.5, 100.0) == Sizing(700.0, 4)
    ensures PositionSizing(500.0, 0.5, 100.0) == Sizing(500.0, 2)
    ensures PositionSizing(740.0, 0.5, 100.0) == Sizing(740.0, 4)
  {
  }

  /** With all of the cash at risk, rounding up can order more than the cash covers: 1.5 shares become 2. */
  lemma FullRiskCanExceedCash()
    ensures Decide(Config("LLOY.L", 1.0, 0.95), None,
                   TickInput(Some(100.0), Some(2.0), 150.0, Some(Sentiment(0.97, Positive))))
            == Outcome([Order("LLOY.L", Buy, 2, 108.0, 96.0)], Some(Buy))
  {
  }
}
