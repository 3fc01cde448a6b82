# MLTrader decision core, modelled in Dafny

This project models the per-tick decision logic of the `MLTrader` strategy in
`trading_bot_base.py`. On each tick the strategy does the following:

- It reads the last close and the average true range (ATR). It aborts the tick
  when either one is missing.
- It sizes a position from the account cash and the `cash_at_risk` fraction.
- It reads a news-sentiment verdict (a probability and a label). It aborts when
  the verdict is missing.
- If the cash exceeds the price and the quantity is positive, a `"positive"`
  (`"negative"`) label whose probability is strictly above
  `sentiment_threshold` opens a long (short) bracket order. The stop is 2 ATR
  against the position and the target is 4 ATR in its favour.
- If the remembered side `last_trade` is the opposite one, `sell_all` is issued
  first. The remembered side then becomes the new side.

Modules:

- `Options` (options.dfy): the optional value used for missing inputs.
- `Orders` (orders.dfy): sides, the two broker actions (`SellAll`, a bracket
  `Order`) and the bracket prices.
- `Sizing` (sizing.dfy): Python's `round(x, 0)` (round half to even) and
  `position_sizing`.
- `SentimentGate` (sentiment_gate.dfy): the strict confidence gate.
- `Decision` (decision.dfy): the following parts.
  - `Decide` is the pure transition of one tick. It takes the remembered side
    and the tick's inputs, and gives the actions issued and the new side.
  - Lemmas state the guards, the strict gate, the entry shape, and the order
    quantities and prices.
  - `Run` applies `Decide` to a sequence of ticks. An invariant over the whole
    action log (`ReversalsFlatten`) says that no position is ever reversed
    without a `sell_all` right before the reversal. It also says that every
    `sell_all` is immediately followed by such a reversal.
- `Trader` (trader.dfy): the class `MLTrader`.
  - It has the settings as constant fields. It has the mutable field
    `lastTrade` and a log of the broker actions issued so far.
  - `OnTradingIteration` follows the source branch by branch. It is proved to
    issue exactly what `Decide` says and to keep the log invariant.
- `Scenarios` (scenarios.dfy): worked examples. Most are single ticks with the
  default settings. One tick puts all of the cash at risk, and one example is
  about sizing alone.

Prices, ATR, cash and probabilities are `real`. Quantities are `int`.

Three points of the code's behaviour worth noting:

- The quantity is rounded to the nearest integer, with ties going to the even
  one (`round(..., 0)`, trading_bot_base.py:54). It is not floored.
  `Scenarios.SizingRoundsHalfToEven` shows 3.5 shares becoming 4.
- `last_trade` is updated whatever `submit_order` returns
  (trading_bot_base.py:127-128 and :139-140). It does not depend on the
  submission succeeding.
- A missing sentiment aborts the tick (trading_bot_base.py:107-108). The
  outcome is "no action", the same as for a neutral verdict.

## Model

| member | source | states |
|---|---|---|
| `Sizing.RoundHalfEven` | trading_bot_base.py:54 | The result is an integer within 1/2 of the input; at an exact tie it is the even neighbour (Python's `round`). |
| `Sizing.RoundHalfEvenUnique` | trading_bot_base.py:54 | Those two properties determine the rounded value: any integer that has them is RoundHalfEven's result. |
| `Sizing.PositionSizing` | trading_bot_base.py:49-55 | `position_sizing` on exact reals; its contract is carried by SizingRule, SizingNonNegative and SizingWithinHalfShare. |
| `Sizing.SizingRule` | trading_bot_base.py:49-55 | A price <= 0 gives (0, 0) for any cash and risk fraction; otherwise the cash is returned unchanged and the quantity is `cash * cash_at_risk / price` rounded half to even. |
| `Sizing.SizingNonNegative` | trading_bot_base.py:52-55 | With cash >= 0 and `cash_at_risk` >= 0 the quantity is never negative. |
| `Sizing.SizingWithinHalfShare` | trading_bot_base.py:54 | For a positive price, quantity times price differs from the cash put at risk by at most half a share's price. |
| `Orders.BracketFor` | trading_bot_base.py:111-114 | Per share, the take-profit gains 4 ATR and the stop-loss loses 2 ATR for the side of the entry. |
| `Orders.BracketMirror` | trading_bot_base.py:111-114 | Buy stop is price - 2 ATR and buy target price + 4 ATR; the sell prices mirror the buy prices around the price. |
| `Orders.BracketRiskReward` | trading_bot_base.py:111-114 | For ATR > 0 the stop and the target lie on opposite sides of the price (long: stop below, target above; short: the reverse), and the target is twice as far away as the stop. |
| `SentimentGate.Gate` | trading_bot_base.py:119-131 | Buy signal iff label positive and probability > threshold; sell signal iff label negative and probability > threshold; nothing otherwise. |
| `SentimentGate.GateIsStrict` | trading_bot_base.py:119-131 | A probability at or below the threshold, or a neutral label, passes no signal. |
| `Decision.Enter` | trading_bot_base.py:120-140 | The close-then-open entry: `sell_all` only on a reversal, then the order, and the side remembered; see SignalEntersPosition and EnterKeepsReversalsFlat. |
| `Decision.Decide` | trading_bot_base.py:99-140 | One tick's actions and new `last_trade`; see ActsOnlyWhenTrading, MissingInputIsNoOp, SignalEntersPosition, OneEntryPerTick and OrdersAreWellFormed. |
| `Decision.ActsOnlyWhenTrading` | trading_bot_base.py:99-140 | A tick issues actions iff price, ATR and sentiment are present, cash > price, quantity > 0 and the gate passes; a tick that does not trade keeps `last_trade`. |
| `Decision.MissingInputIsNoOp` | trading_bot_base.py:99-108 | A missing price, ATR or sentiment issues nothing and leaves `last_trade` unchanged. |
| `Decision.NonPositivePriceIsNoOp` | trading_bot_base.py:104-117 | A price <= 0 never issues an order, whatever the sentiment or the cash. |
| `Decision.WeakSentimentIsNoOp` | trading_bot_base.py:117-140 | A probability equal to (or below) the threshold, or a neutral label, issues nothing and keeps `last_trade`. |
| `Decision.SignalEntersPosition` | trading_bot_base.py:119-140 | On a signal for a side: exactly one `sell_all` first if the opposite side is remembered (none otherwise, so a same-side signal re-enters), then one bracket order with the sized quantity and the ATR bracket prices; `last_trade` becomes that side. |
| `Decision.OneEntryPerTick` | trading_bot_base.py:117-140 | At most two actions per tick, every action but the last is a `sell_all`, and the last is an order whose side becomes `last_trade`. |
| `Decision.OrdersAreWellFormed` | trading_bot_base.py:111-138 | Every order issued (for any ATR, zero included) has a positive quantity and the strategy's symbol, costs at most half a share more than the cash at risk, and has its target twice as far from the price as its stop; with ATR > 0 the stop and the target are on opposite sides of the price. |
| `Decision.OrderAffordableUpToHalfRisk` | trading_bot_base.py:54-117 | With `cash_at_risk` <= 1/2 (the default is 0.5) every order costs less than the available cash. |
| `Decision.EnterKeepsReversalsFlat` | trading_bot_base.py:120-140 | An entry (with its `sell_all` when it reverses the remembered side) keeps the log invariant and makes its side the last entry. |
| `Decision.StepKeepsReversalsFlat` | trading_bot_base.py:120-140 | One tick keeps the log invariant: every reversal order comes straight after a `sell_all`, every `sell_all` straight before a reversal, and `last_trade` is the side of the last order. |
| `Decision.RunKeepsReversalsFlat` | trading_bot_base.py:98-140 | Any sequence of ticks keeps that invariant. |
| `Decision.RunFromFlat` | trading_bot_base.py:42 | Starting from `last_trade = None`, every run's log satisfies the invariant and ends with `last_trade` equal to the side of its last order. |
| `Trader.MLTrader.constructor` | trading_bot_base.py:39-46 | The settings take their defaults ("LLOY.L", 0.5, 0.95, 14, "24H"), `last_trade` is None and nothing has been issued. |
| `Trader.MLTrader.Issue` | trading_bot_base.py:121-139 | Handing an action to the broker appends it to the log; it is an internal step of OpenPosition. |
| `Trader.MLTrader.OpenPosition` | trading_bot_base.py:120-140 | `sell_all` is issued first only when the opposite side is remembered; then the order is issued and its side is remembered whatever `submit_order` returns; the log invariant is kept. |
| `Trader.MLTrader.OnTradingIteration` | trading_bot_base.py:98-140 | The actions issued and the new `last_trade` are exactly those of `Decide`; the log grows by exactly those actions and keeps its invariant. |
| `Scenarios.LongEntryFromFlat` | trading_bot_base.py:111-128 | With cash 10000, price 100, risk 0.5 and ATR 2, starting flat, a positive signal buys 50 shares with stop 96 and target 108. |
| `Scenarios.ShortFlipsToLong` | trading_bot_base.py:119-128 | Held short, a positive signal at 0.97 > 0.95 issues `sell_all` then the long order and ends long. |
| `Scenarios.LongFlipsToShort` | trading_bot_base.py:131-140 | Held long, a negative signal issues `sell_all` then a short order with stop 104 and target 92, and ends short. |
| `Scenarios.SameSideReenters` | trading_bot_base.py:119-128 | Held long, a positive signal re-issues the long order without `sell_all`. |
| `Scenarios.ThresholdIsExclusive` | trading_bot_base.py:119 | A probability of exactly 0.95 with threshold 0.95 issues nothing. |
| `Scenarios.ZeroPriceNeverTrades` | trading_bot_base.py:52-53 | A price of 0 sizes to (0, 0) and issues nothing. |
| `Scenarios.SizingRoundsHalfToEven` | trading_bot_base.py:54 | 3.5 shares round to 4, 2.5 to 2 and 3.7 to 4. |
| `Scenarios.FullRiskCanExceedCash` | trading_bot_base.py:54-117 | With `cash_at_risk` 1, cash 150 and price 100, the order is for 2 shares, which cost more than the cash. |

## Left out

- Market data and ATR (`get_market_data_and_atr`, trading_bot_base.py:65-77) are left out. They wrap a charting library and `pandas_ta.atr`. The last close and the ATR are tick inputs, and `atrWindow` is stored but not used. A not-a-number ATR during the warm-up window is not modelled: it is not `None`, so the source lets it through.
- News and dates (`get_dates`, `get_sentiment`, trading_bot_base.py:58-95) are left out. They do date arithmetic, a news request and exception handling. The sentiment verdict is a tick input, and a failure is a missing verdict.
- finbert_utils.py is not part of this model. It does model download, tensor inference and softmax. Its `(0, "neutral")` result for no headlines is one possible input; the gate never passes it.
- Broker and framework plumbing (`get_cash`, `create_order`, `submit_order`, `sell_all`, the `Strategy` base class, trading_bot_base.py:3-6 and :46) is left out. Cash is a tick input, and the broker calls become appended `SellAll` and `Order` actions. What the broker then does (fills, rejections, the real positions) is not modelled.
- Credentials, configuration loading and the backtest entry point (trading_bot_base.py:22-32 and :146-172) are left out.
- Sizing.PositionSizing computes on exact reals. Python's binary floating point, with its rounding error in `cash * cash_at_risk / last_price` and in the bracket prices, is not modelled. The quantity is an `int`, where Python keeps an integral float.
- Trader.MLTrader.OnTradingIteration does not model exceptions raised by `sell_all`, `create_order` or `submit_order` (trading_bot_base.py:121-127 and :133-139). In the source such an exception leaves the tick before `last_trade` is updated, sometimes after a liquidation. The model always completes the entry and updates `last_trade`.
- Trader.MLTrader.OnTradingIteration calls `get_cash` before the sentiment check, through `position_sizing`. The model receives the cash as an input, so the moment of that read is not modelled.
