# Bybit scalping bots: a Dafny model

This project models the decision and bookkeeping logic of two spot-trading
scripts for the Bybit exchange, `carteira_real/tradev2.py` and
`carteira_real/tradev1.py`. Both scripts follow the same strategy:

1. Fetch 300 OHLCV bars per symbol.
2. Compute EMA50 and EMA200 of the closes, and an ATR.
3. Enter a long position when EMA50 is above EMA200.

The two versions differ in what they add to that:

- **tradev2.py** gates an entry on the free balance, on the ATR, and on a
  small backtest replayed over the same bars (`backtest_simples`). It sizes
  a limit buy with minimum-notional and minimum-quantity fix-ups. It keeps a
  set of symbols with an open order, seeded at start-up from the exchange.
- **tradev1.py** places market orders. Next to the same set it keeps a map
  from symbol to position (quantity and fill price). It sells a position
  when the price is more than 0.5% above the entry while EMA50 is below
  EMA200.

The exchange is not modelled. Each call is replaced by what it returned,
passed in as a parameter: a bar sequence, a balance map, an order outcome or
market limits. An outcome that raised is a value too. Prices are exact `real`
numbers.

Files:

| File | Contents |
|---|---|
| `exchange.dfy` | What both scripts share: bars, order outcomes, Python truthiness of an optional number, `s[-n:]`, and the 5% position size. |
| `indicators.dfy` | True range, ATR and the pandas EMA. These are pure functions, plus lemmas about them. |
| `backtest.dfy` | `backtest_simples`. A specification by functions (first hit in a window, the trade list, compounding, the report), the imperative simulator proved equal to it, and the properties of the report. |
| `trade_v2.dfy` | The v2 open-order set as a class `Trader`, with its seeding, buy and cycle methods. Each method is proved against a function that specifies it. |
| `trade_v1.dfy` | The v1 set and position map as a class `Trader`, with its buy, sell and cycle methods. Each is proved against functions on a `Book` value, and the invariant "set = keys of the map" is proved kept. |

Behaviour worth knowing:

- **EMA:** it is pandas' default `adjust=True` form, the ratio of two
  running sums. It is not the fixed-alpha recursion. `Indicators.EmaStep`
  shows the step it actually takes: toward each new close by a factor
  1/den_t, which starts at 1.
- **True range:** the first bar's true range is high − low.
- **Notional fix-up (v2):** it re-sizes a too-small order to 5 USDT, whatever
  the market's minimum cost (`TradeV2.AdjustMissesHigherFloor`).
- **No removal (v2):** v2 never removes a symbol from its set, because it has
  no sell path (`TradeV2.RunFromGrows`).
- **No gate (v1):** v1 has no backtest gate and does not block an entry when
  the ATR is missing.
- **Strict test (v1):** the sell test `preco_atual > lucro_minimo` is strict.
- **Zero price (v1):** the last close is a numpy float, so dividing by a zero
  close gives inf or nan instead of raising. The buy is still attempted with
  that quantity (`TradeV1.BuyQty`). In v2 the close comes from `tolist()`, a
  Python float, so the same division raises.
- **No stop-loss:** neither script has a stop-loss exit.

An exception that escapes the body of the per-symbol loop ends the rest of
that pass, because the catch-all handler is outside the `for`. The model
records this as the `aborted` flag of a cycle state. The cases are:

- v2: a zero price at tradev2.py:259.
- v1: a failed `fetch_ohlcv`, or an empty bar list (`iloc[-1]` at
  tradev1.py:166).
- v1: a failed balance fetch at tradev1.py:160, which ends the pass before
  any symbol.

## Model

| member | source | states |
|---|---|---|
| Exchange.LastN | carteira_real/tradev2.py:236 | `s[-n:]` is the last n elements, or all of them when there are fewer |
| Exchange.Closes | carteira_real/tradev2.py:232 | defined as the close of each bar, in order (`df['close']`) |
| Exchange.Last | carteira_real/tradev2.py:233-235 | defined as the last element of a non-empty sequence, `closes[-1]` and `iloc[-1]` |
| Exchange.Stake | carteira_real/tradev2.py:259 | for a non-zero price, the buy quantity of either script (also tradev1.py:181, through `TradeV1.BuyQty`) times the price is 5% of the free USDT balance |
| Exchange.Truthy | carteira_real/tradev2.py:180 | defined as Python truthiness of an optional number: true exactly when it is present and non-zero, as `if min_qty` here and the `or` chain at tradev1.py:144 test it |
| Exchange.FreeAmount | carteira_real/tradev1.py:117 | defined as `balance['free'].get(asset, 0)`: the listed free amount, 0 when the asset is not listed |
| Indicators.TrueRange | carteira_real/tradev2.py:71-74 | the true range is at least high − low and at least both gaps to the previous close, and equals one of the three; on the first bar it is high − low |
| Indicators.TrueRanges | carteira_real/tradev2.py:74 | defined as the TR column: the true range of each bar, in order |
| Indicators.RollingMean | carteira_real/tradev2.py:75 | defined as `rolling(window=period).mean()`: entry i is missing while fewer than `period` values end at i, and otherwise is the mean of those `period` values |
| Indicators.Atr | carteira_real/tradev2.py:69-76 | the ATR is None exactly when fewer than `period` bars are given, and otherwise is the mean of the last `period` true ranges |
| Indicators.AtrNonNegative | carteira_real/tradev2.py:71-76 | bars whose high is never below their low have ATR ≥ 0 |
| Indicators.AtrOfFlatMarket | carteira_real/tradev1.py:64-71 | a market whose high, low and close never leave one price has ATR 0 |
| Indicators.Decay | carteira_real/tradev2.py:230-231 | the decay w = 1 − 2/(span+1) lies in [0, 1) |
| Indicators.Numerator | carteira_real/tradev2.py:230-231 | defined as the running numerator num_t = x_t + w·num_(t−1) of the adjusted EMA |
| Indicators.Denominator | carteira_real/tradev2.py:230-231 | the running weight total is at least 1 once one input has been seen |
| Indicators.EmaAt | carteira_real/tradev2.py:230-231 | defined as the EMA value at index t, the running numerator over the running denominator of the inputs up to t |
| Indicators.Ema | carteira_real/tradev2.py:230-231 | one EMA value per close, the first equal to the first close |
| Indicators.EmaStartsAtFirstInput | carteira_real/tradev1.py:164-165 | the adjusted EMA at index 0 is the first input |
| Indicators.TotalWeight | carteira_real/tradev2.py:230-231 | the reference weight total Σ w^i is at least 1 for at least one term |
| Indicators.NumeratorIsWeightedSum | carteira_real/tradev2.py:230-231 | the running numerator num_t = x_t + w·num_(t−1) equals the documented sum Σ w^i·x_(t−i) |
| Indicators.DenominatorIsTotalWeight | carteira_real/tradev2.py:230-231 | the running denominator den_t = 1 + w·den_(t−1) equals Σ w^i |
| Indicators.EmaClosedForm | carteira_real/tradev2.py:230-231 | every EMA value is the weighted mean Σ w^i·x_(t−i) / Σ w^i of the closes up to t |
| Indicators.EmaWithinBounds | carteira_real/tradev2.py:230-231 | every EMA value lies between any lower and upper bound of the inputs |
| Indicators.EmaOfConstant | carteira_real/tradev1.py:164-165 | a constant close series has a constant EMA equal to that close |
| Indicators.EmaStep | carteira_real/tradev2.py:230-231 | each EMA value moves from the previous one toward the new close by the factor 1/den_t, not by a fixed alpha |
| Backtest.Hits | carteira_real/tradev2.py:97-101 | defined as: the bar's low reaches the stop or its high reaches the target |
| Backtest.FirstHit | carteira_real/tradev2.py:96-104 | defined as the outcome at the first bar of the window whose low reaches the stop (a loss, tested first) or whose high reaches the target (a win); None when no bar does |
| Backtest.EntryOutcome | carteira_real/tradev2.py:88-104 | defined as the first hit in bars i+1 .. i+50 against stop close_i·(1−sl) and target close_i·(1+tp) |
| Backtest.ScanEnd | carteira_real/tradev2.py:84 | defined as the end of `range(200, len(df) - 50)`: len − 50, but never below 200 |
| Backtest.TradesUpTo | carteira_real/tradev2.py:84-104 | defined as the trade list after the indices 200 .. n−1: an index with EMA50 > EMA200 appends its entry's outcome when its window reached a price |
| Backtest.EntriesUpTo | carteira_real/tradev2.py:82-91 | defined as the `entrou` counter after the indices 200 .. n−1: one per index with EMA50 > EMA200 |
| Backtest.Factor | carteira_real/tradev2.py:98-103 | defined as the capital factor of a trade: 1+tp for a win, 1−sl for a loss |
| Backtest.Compound | carteira_real/tradev2.py:80-103 | defined as 1000 multiplied, trade by trade in order, by 1+tp for a win and 1−sl for a loss |
| Backtest.Count | carteira_real/tradev2.py:110 | defined as `trades.count(t)`, the number of entries equal to t |
| Backtest.Summarize | carteira_real/tradev2.py:106-112 | defined as (0, 0, 0) for no trade, else (count, wins/count·100, (capital − 1000)/1000·100) |
| Backtest.Backtest | carteira_real/tradev2.py:79-112 | defined as the report of the trade list over the entries 200 ≤ i < len − 50, with its compounded capital |
| Backtest.FirstHitIsFirst | carteira_real/tradev2.py:94-104 | the look-ahead finds nothing exactly when no bar of the window reaches the stop or the target; otherwise it reports the earliest such bar, a loss when that bar's low reaches the stop (a bar reaching both is a loss) |
| Backtest.ScanEntry | carteira_real/tradev2.py:88-104 | the inner loop with its early exits returns the outcome of the entry at bar i: stop close·(1−sl), target close·(1+tp), bars i+1 .. i+50 |
| Backtest.BacktestSimple | carteira_real/tradev2.py:79-112 | the nested loops return, as (trades, win rate, return), the report of the trade list built from the entries at 200 ≤ i < len−50 with EMA50 > EMA200, with the capital compounded in order |
| Backtest.TradesAfterEntry | carteira_real/tradev2.py:90-104 | passing an entry index appends that entry's outcome to the trade list, if it reached a price |
| Backtest.TradesAfterNonEntry | carteira_real/tradev2.py:84-90 | an index with EMA50 ≤ EMA200 records nothing |
| Backtest.CompoundSnoc | carteira_real/tradev2.py:98-103 | recording a trade multiplies the capital by 1−sl for a loss and 1+tp for a win |
| Backtest.TradesAtMostEntries | carteira_real/tradev2.py:82-104 | recorded trades ≤ the `entrou` counter ≤ the number of scanned indices |
| Backtest.EntriesCountEntrySet | carteira_real/tradev2.py:84-91 | `entrou` counts exactly the indices 200 ≤ i < n with EMA50 > EMA200 |
| Backtest.BacktestCounts | carteira_real/tradev2.py:82-104 | the report's trade count ≤ the number of entries ≤ max(0, len − 250) |
| Backtest.CountsAddUp | carteira_real/tradev2.py:99-110 | wins plus losses make up the whole trade list |
| Backtest.CountIsMultiplicity | carteira_real/tradev2.py:110 | `trades.count(t)` is the multiplicity of t in the list |
| Backtest.BacktestReportBounds | carteira_real/tradev2.py:106-112 | with no recorded trade the result is (0, 0, 0); otherwise the win rate lies in [0, 100] |
| Backtest.RatioIsPercentage | carteira_real/tradev2.py:110 | count/len·100 lies in [0, 100] and is 100 when every trade counts |
| Backtest.CompoundClosedWin | carteira_real/tradev2.py:102-103 | the closed form of the capital survives recording a win |
| Backtest.CompoundClosedLoss | carteira_real/tradev2.py:98-99 | the closed form of the capital survives recording a loss |
| Backtest.CompoundClosedForm | carteira_real/tradev2.py:80-103 | final capital = 1000·(1+tp)^wins·(1−sl)^losses |
| Backtest.CompoundByCounts | carteira_real/tradev2.py:98-103 | two trade lists with as many wins and as many losses end with the same capital |
| Backtest.SummaryIgnoresOrder | carteira_real/tradev2.py:80-112 | reordering the outcomes changes neither the final capital nor the report |
| Backtest.AllWinsCount | carteira_real/tradev2.py:110 | a list of wins has as many wins as trades and no loss |
| Backtest.AllWinsSummary | carteira_real/tradev2.py:102-112 | all wins with tp > 0 give win rate 100 and a positive return |
| Backtest.NoStopAllWins | carteira_real/tradev2.py:96-104 | when no entry's scan reaches the stop, every recorded trade is a win |
| Backtest.TradesGrow | carteira_real/tradev2.py:96-104 | an entry whose scan reached a price leaves the trade list non-empty from then on |
| Backtest.WinningSeriesReport | carteira_real/tradev2.py:79-112 | bars on which some entry reaches the target and none the stop backtest to win rate 100 and a positive return |
| TradeV2.MinCostOf | carteira_real/tradev2.py:172 | defined as the listed cost minimum, or 5.0 when the market lists no cost entry (`.get('min', 5.0)`); a listed null minimum has none |
| TradeV2.AdjustQty | carteira_real/tradev2.py:174-182 | after the fix-ups the quantity is at least the minimum amount whenever a (truthy) minimum amount is given |
| TradeV2.AdjustKeepsCompliant | carteira_real/tradev2.py:174-182 | an order meeting both limits keeps its quantity |
| TradeV2.AdjustMeetsCostFloor | carteira_real/tradev2.py:172-178 | with a positive price and a cost floor of at most 5 USDT, the adjusted order meets the floor |
| TradeV2.AdjustMissesHigherFloor | carteira_real/tradev2.py:176-178 | the fix-up re-sizes to 5 USDT, not to the floor: with floor 10, price 6 and quantity 1, the order comes out worth 5 |
| TradeV2.AdjustIdempotent | carteira_real/tradev2.py:174-182 | adjusting an adjusted quantity changes nothing |
| TradeV2.BuyEffect | carteira_real/tradev2.py:161-203 | defined as: invalid arguments, a symbol already in the set or an unreadable cost limit request nothing; otherwise the adjusted limit order is requested, and the symbol joins the set unless the order call raised |
| TradeV2.BuyAlreadyOpen | carteira_real/tradev2.py:166-168 | a buy for a symbol in the set requests no order and leaves the set as it was |
| TradeV2.BuyUpdatesSet | carteira_real/tradev2.py:161-203 | the set only gains the bought symbol, and gains it exactly when the arguments are truthy, the symbol had no open order, the cost limit could be compared and the order call returned |
| TradeV2.BuyRaisedKeepsSet | carteira_real/tradev2.py:194-203 | an order call that raised leaves the set unchanged |
| TradeV2.BuyRequestSize | carteira_real/tradev2.py:171-194 | a requested limit order is for the given symbol and price, with a quantity at least the minimum amount when one is set, all before the rounding of tradev2.py:184-185 |
| TradeV2.Answered | carteira_real/tradev2.py:139-157 | the number of symbols looked up before the first lookup that raised |
| TradeV2.SeedFrom | carteira_real/tradev2.py:138-158 | defined as the set plus each scanned symbol with a non-empty open-order list, the scan stopping at the first failed lookup |
| TradeV2.Read | carteira_real/tradev2.py:229-236 | defined as the last close, the last EMA50 and EMA200 of the closes, and the 14-period ATR of the last 100 bars |
| TradeV2.BacktestProfit | carteira_real/tradev2.py:248 | defined as `lucro_sim`, the return of the backtest run on the same bars with EMA50, EMA200 and the default fractions |
| TradeV2.GateOpen | carteira_real/tradev2.py:240-253 | defined as: ATR present, EMA50 > EMA200 and a backtest return ≥ 0 |
| TradeV2.Decide | carteira_real/tradev2.py:240-262 | defined as the checks in order: no ATR, EMA50 ≤ EMA200 or a negative backtest return give no trade; then a zero price raises; otherwise the signal with a 5% quantity, stop price·(1−0.005) and target price·(1+0.01) |
| TradeV2.Assess | carteira_real/tradev2.py:229-262 | defined as the decision on the readings of the fetched bars and the backtest return of the same bars |
| TradeV2.SeedMembership | carteira_real/tradev2.py:138-158 | after the start-up scan the set holds what it held plus exactly the symbols with a non-empty open-order list that were looked up before the first failure |
| TradeV2.DecideGate | carteira_real/tradev2.py:240-262 | a buy is signalled (or the division by a zero price raises) exactly when ATR is present, EMA50 > EMA200 and the backtest return is ≥ 0; the signal carries the readings, a quantity worth 5% of the balance, and sl < price < tp for a positive price |
| TradeV2.ReadIsLastClose | carteira_real/tradev2.py:232-236 | the price read is the last close, and the ATR is missing exactly when fewer than 14 bars were fetched |
| TradeV2.Step | carteira_real/tradev2.py:216-262 | defined as one loop body: a symbol in the set or not listed is skipped; otherwise it is fetched, and empty bars are skipped; an entry goes to the buy routine; a zero price ends the pass |
| TradeV2.RunFrom | carteira_real/tradev2.py:216-262 | defined as the steps over the remaining symbols in order, stopping once the pass is aborted |
| TradeV2.UsdtBalance | carteira_real/tradev2.py:50-58 | defined as the free USDT balance, 0 when it is not listed or the fetch failed |
| TradeV2.Cycle | carteira_real/tradev2.py:206-262 | defined as: below 10 USDT free nothing happens; otherwise the pass over all symbols from an empty record |
| TradeV2.LowBalanceIdle | carteira_real/tradev2.py:210-214 | with less than 10 USDT free no symbol is looked at and nothing changes |
| TradeV2.RunFromGrows | carteira_real/tradev2.py:216-262 | a pass only adds to the set and only appends to what it fetched, signalled and ordered |
| TradeV2.OpenSymbolSkipped | carteira_real/tradev2.py:216-219 | a symbol in the set is never fetched and never gets an order during the rest of a pass |
| TradeV2.StepSkipsOpenSymbol | carteira_real/tradev2.py:216-219 | one loop body keeps a symbol of the set in the set, does not fetch it and requests no order for it |
| TradeV2.OfferSource | carteira_real/tradev2.py:216-262 | each signal the gate offers is the gate's decision on the bars of one of the given symbols |
| TradeV2.StepSignals | carteira_real/tradev2.py:216-262 | one symbol adds at most one signal to the pass, the gate's decision for it |
| TradeV2.SignalsFromGate | carteira_real/tradev2.py:216-262 | every signal that reaches the buy routine in a pass came through the gate |
| TradeV2.CycleSkipsOpenSymbols | carteira_real/tradev2.py:206-262 | a symbol with an open order at the start of a pass stays in the set, is not fetched and gets no order |
| TradeV2.Trader.constructor | carteira_real/tradev2.py:31 | the set starts empty |
| TradeV2.Trader.SeedOpenOrders | carteira_real/tradev2.py:138-158 | the loop over the symbols updates the set as the seeding function does, stopping at the first failed lookup |
| TradeV2.Trader.Buy | carteira_real/tradev2.py:161-203 | the guards, the fix-ups and the set update give the change of state and the order requested by the buy specification |
| TradeV2.Trader.Evaluate | carteira_real/tradev2.py:229-262 | the indicator block, the backtest and the gate return the decision on the fetched bars |
| TradeV2.Trader.RunCycle | carteira_real/tradev2.py:206-262 | the loop over the symbols leaves the set, the fetched symbols, the signals, the orders and the abort flag as one pass of the cycle specifies |
| TradeV1.SellSignal | carteira_real/tradev1.py:96-110 | defined as: a recorded position, a price above 1.005·entry, and EMA50 < EMA200 |
| TradeV1.NoPositionNoSell | carteira_real/tradev1.py:97-99 | there is no sell signal for a symbol without a recorded position |
| TradeV1.SellNeedsBoth | carteira_real/tradev1.py:101-110 | for a recorded position the signal fires exactly when price > 1.005·entry and EMA50 < EMA200; profit alone or a downtrend alone is not enough |
| TradeV1.SellSignalScenarios | carteira_real/tradev1.py:97-110 | bought at 100: 102 in a downtrend sells, 100.5 or an uptrend or another symbol does not |
| TradeV1.FillPrice | carteira_real/tradev1.py:144 | defined as `order.get('average') or order.get('price') or preco`: the truthy average, else the truthy order price, else the reference price |
| TradeV1.FillPriceNonZero | carteira_real/tradev1.py:144 | a non-zero reference price gives a non-zero recorded entry price |
| TradeV1.BaseAsset | carteira_real/tradev1.py:115 | the base asset is the prefix of the symbol before its first '/' |
| TradeV1.BaseAssetOfPairs | carteira_real/tradev1.py:115 | "BTC/USDT" and "ETH/USDT" have base assets "BTC" and "ETH" |
| TradeV1.AfterBuy | carteira_real/tradev1.py:137-153 | defined as: a symbol in the set requests nothing; otherwise a market buy of the quantity is requested, and when it returned with an id the symbol joins the set with the position (quantity, fill price) |
| TradeV1.BuyAlreadyOpen | carteira_real/tradev1.py:139-141 | a buy for a symbol in the set requests nothing and changes neither structure |
| TradeV1.BuyRecordsPosition | carteira_real/tradev1.py:143-153 | a buy whose order returned with an id records the symbol in the set and the position {quantity, fill price}, other symbols unchanged; a raised order or missing id changes nothing |
| TradeV1.AfterSell | carteira_real/tradev1.py:113-134 | defined as: no balance fetched or a zero free base balance requests nothing; otherwise a market sell of the whole free amount is requested, and when it returned with an id the symbol leaves the set and the map |
| TradeV1.SellWithoutBalance | carteira_real/tradev1.py:115-121 | with no free base balance a sell requests nothing and changes nothing |
| TradeV1.SellClosesPosition | carteira_real/tradev1.py:113-134 | a sell either changes nothing or removes the symbol from both structures, keeping every other symbol; a raised order changes nothing; with a non-zero free base balance and an order that returned with an id, the whole free amount is sold and the symbol leaves both structures |
| TradeV1.SellAbsentHarmless | carteira_real/tradev1.py:128-131 | selling a symbol that is in neither structure leaves them as they were |
| TradeV1.BuyKeepsConsistent | carteira_real/tradev1.py:149-150 | a buy keeps set = keys of the position map |
| TradeV1.SellKeepsConsistent | carteira_real/tradev1.py:128-131 | a sell keeps set = keys of the position map |
| TradeV1.QuoteOf | carteira_real/tradev1.py:163-166 | the quoted price is the last close |
| TradeV1.BuyQty | carteira_real/tradev1.py:181 | the quantity is None (numpy's inf or nan) exactly when the price is 0, and otherwise is worth 5% of the balance at that price |
| TradeV1.Step | carteira_real/tradev1.py:161-184 | defined as: a failed fetch or empty bars raise and end the pass; otherwise the sell on the sell signal, else the buy for EMA50 > EMA200 without a position, else nothing |
| TradeV1.RunFrom | carteira_real/tradev1.py:161-184 | defined as the steps over the remaining symbols in order, stopping once the pass is aborted |
| TradeV1.Cycle | carteira_real/tradev1.py:156-184 | defined as: a failed balance fetch ends the pass before any symbol; otherwise the pass over all symbols with the free USDT balance |
| TradeV1.StepOrderRules | carteira_real/tradev1.py:168-184 | one symbol requests at most one order, for that symbol; a sell only on the sell signal, a buy only without it, with EMA50 > EMA200, no position, and a quantity worth 5% of the balance for a non-zero price and the non-finite one (None) for a zero price |
| TradeV1.StepKeepsConsistent | carteira_real/tradev1.py:161-184 | one symbol of the pass keeps set = keys of the position map |
| TradeV1.RunFromKeepsConsistent | carteira_real/tradev1.py:161-184 | the rest of a pass keeps set = keys of the position map |
| TradeV1.CycleKeepsConsistent | carteira_real/tradev1.py:52-53 | a whole pass keeps set = keys of the position map, so each symbol in the set has exactly one position |
| TradeV1.Trader.constructor | carteira_real/tradev1.py:52-53 | both structures start empty, and so consistent |
| TradeV1.Trader.Buy | carteira_real/tradev1.py:137-153 | the method leaves the set, the map and the requested order as the buy specification gives them |
| TradeV1.Trader.Sell | carteira_real/tradev1.py:113-134 | the method leaves the set, the map and the requested order as the sell specification gives them |
| TradeV1.Trader.RunCycle | carteira_real/tradev1.py:156-184 | the loop over the symbols leaves the structures, the orders requested and the abort flag as one pass of the cycle specifies; a zero close does not end the pass |

## Left out

- Exchange calls (`fetch_balance`, `fetch_ohlcv`, `fetch_open_orders`, `create_*_order`, `market`, `load_markets`, `load_time_difference`): replaced by their results, passed in as parameters.
- Logging, Excel writing, `print`, the credentials file and its `input()` prompts: I/O only. The logging and Excel calls are assumed not to raise.
- The `while True` driver, `time.sleep(60)` and the catch-all handler: one pass of the loop is modelled; the handler appears only as the end of that pass.
- Exchange configuration and credentials are not part of this model.
- `round(x, n)` and `round(qty, int(precision))`: decimal rounding of floats is not modelled (identity). The minimum-quantity bound holds before rounding only; the minimum-notional bound holds before rounding and only for a cost floor of at most 5 USDT (`TradeV2.AdjustMeetsCostFloor`), because the fix-up re-sizes to 5 USDT.
- Floating point and pandas NaN: prices are exact reals; a NaN rolling mean is the missing value of `Indicators.RollingMean`.
- The spot/linear `category` parameter choice: exchange plumbing.
- `market['limits']['amount']['min']` raising KeyError for a market without an amount entry: the minimum amount is modelled as present or None.
- The v1 sell fill price (`preco_venda`): computed only for the log line, so `TradeV1.Trader.Sell` takes no reference price.
- The v1 ATR, stop and target: computed only to be logged and written to Excel, so they are not modelled.
- `TradeV2.Trader.SeedOpenOrders`: the open-order lookup is abstracted to a count per symbol, or None when `market` or `fetch_open_orders` raised.
- Backtest.BacktestSimple: the method runs with the default fractions `sl_pct = 0.005` and `tp_pct = 0.01`, the only ones tradev2.py:248 passes (tradev1.py never calls it); the specification function `Backtest.Backtest` and its lemmas hold for any fractions.
- Non-finite numbers (v1): the inf or nan quantity of a zero close is recorded as None, not as a number; what the exchange does with it is the buy outcome given as a parameter.
- `obter_ohlcv` returning [] on a failed fetch in v2 is the same input as an empty bar list; v2 then skips the symbol.
