# A verified model of the arbitrage bot's decision and streaming core

The bot watches the best bid and ask of one pair (ETH against USDT) on several venues. On every price update it can do three things:
- It compares venues and records a cross-venue arbitrage opportunity when the profit margin is high enough.
- It stores the latest quote per venue and counts checks and skipped checks.
- It validates and persists market-data records.

Raw websocket frames go through three layers:
- the venue clients in `exchange/` (Huobi `.bbo`, Binance book ticker, a reconnecting base client);
- a generic dispatcher in `websocket/WebSocketClient.java`;
- per-venue ticker decoders (Huobi, Binance, Gemini, Poloniex, Bittrex, GDAX) that keep a ticker cache and call a callback.

The model is Dafny, one module per source file:
- Pure decisions and decoders are functions with contracts and lemmas.
- Objects whose fields the source updates are classes with the same fields (the services, the clients, the two records).
- A JSON message is an abstract parsed tree (`Json`).
- Prices are exact reals. BigDecimal HALF_UP rounding is `Decimal.RoundHalfUp`, which rounds ties away from zero.
- Clock readings, mapper success and socket state are parameters.

| module | source |
|---|---|
| `ArbitrageService` | service/ArbitrageService.java |
| `RealTimeArbitrageService` | service/RealTimeArbitrageService.java |
| `StatisticsService` | service/StatisticsService.java |
| `MarketDataService` | service/MarketDataService.java |
| `Model` | model/MarketData.java, model/ArbitrageOpportunity.java |
| `ExchangeClient` | exchange/ExchangeWebSocketClient.java |
| `HuobiExchangeClient` | exchange/huobi/HuobiWebSocketClient.java |
| `BinanceExchangeClient` | exchange/binance/BinanceWebSocketClient.java |
| `StreamClient` | websocket/WebSocketClient.java and the client state of the six websocket/* clients |
| `HuobiStream`, `BinanceStream`, `GeminiStream`, `PoloniexStream`, `BittrexStream`, `GdaxStream`, `FlatTicker`, `Ticker` | the decoders, subscription frames and symbol conversion of websocket/* |
| `StreamingArbitrageService` | service/websocket/StreamingArbitrageService.java |
| `GzipUtil`, `ArbitrageConfig`, `WebSocketMessageHandler` | util/GzipUtil.java, config/ArbitrageConfig.java, the callback signature |
| `Json`, `Text`, `Decimal`, `Wrappers` | supporting definitions: the JSON tree, Java string operations, HALF_UP rounding, Option |

Paths in the table below are relative to the repository root.

## Model

| member | source | states |
|---|---|---|
| ArbitrageService.IsValidInput | src/main/java/co/codingnomads/bot/arbitrage/service/ArbitrageService.java:110-119 | defines isValidInput: symbol and both exchange names non-null and not empty after trim, all four prices non-null and above zero; what it admits is stated by InvalidInputYieldsNothing and OpportunitiesOfValidInput |
| ArbitrageService.ProfitMargin | src/main/java/co/codingnomads/bot/arbitrage/service/ArbitrageService.java:151-155 | defines calculateProfitMargin: (sell - buy) / buy rounded HALF_UP to PROFIT_MARGIN_SCALE (6) places, times 100; a zero buy price is excluded because BigDecimal.divide throws on it; its error, monotonicity, zero and tie behaviour are the four lemmas below |
| ArbitrageService.ProfitMarginError | src/main/java/co/codingnomads/bot/arbitrage/service/ArbitrageService.java:151-155 | the margin, ((sell-buy)/buy rounded to 6 places HALF_UP) x 100, is within 0.00005 of the exact percentage |
| ArbitrageService.ProfitMarginMono | src/main/java/co/codingnomads/bot/arbitrage/service/ArbitrageService.java:151-155 | at a positive buy price, a higher sell price never gives a lower margin |
| ArbitrageService.ProfitMarginZero | src/main/java/co/codingnomads/bot/arbitrage/service/ArbitrageService.java:151-155 | equal prices give margin 0 |
| ArbitrageService.PositiveMarginNeedsSpread | src/main/java/co/codingnomads/bot/arbitrage/service/ArbitrageService.java:151-155 | a positive margin at a positive buy price needs sell > buy |
| ArbitrageService.ProfitMarginTies | src/main/java/co/codingnomads/bot/arbitrage/service/ArbitrageService.java:153 | HALF_UP rounds a half-unit tie away from zero for gains and losses alike (+0.0001 and -0.0001) |
| ArbitrageService.Direction | src/main/java/co/codingnomads/bot/arbitrage/service/ArbitrageService.java:131-142 | a record is produced iff margin > minMargin (strictly), and it carries exactly symbol, buy/sell exchange, buy/sell price and the computed margin |
| ArbitrageService.Opportunities | src/main/java/co/codingnomads/bot/arbitrage/service/ArbitrageService.java:81-96 | at most two records; none for invalid input |
| ArbitrageService.OpportunitiesOfValidInput | src/main/java/co/codingnomads/bot/arbitrage/service/ArbitrageService.java:91-95 | for valid input the list is direction 1 (buy ask2 on exchange2, sell bid1 on exchange1) then direction 2 (buy ask1, sell bid2), each present iff its margin clears the threshold |
| ArbitrageService.InvalidInputYieldsNothing | src/main/java/co/codingnomads/bot/arbitrage/service/ArbitrageService.java:110-119 | a null or blank (after trim) symbol or exchange name, or a null or non-positive price, yields no record |
| ArbitrageService.AtMostOneDirection | src/main/java/co/codingnomads/bot/arbitrage/service/ArbitrageService.java:91-95 | with uncrossed quotes and a non-negative threshold, at most one direction is recorded |
| ArbitrageService.CrossedQuoteRecorded | src/main/java/co/codingnomads/bot/arbitrage/service/ArbitrageService.java:115-118 | only positivity is checked: a crossed quote (bid above ask) passes validation and is recorded |
| ArbitrageService.MarginAtThresholdNotRecorded | src/main/java/co/codingnomads/bot/arbitrage/service/ArbitrageService.java:135 | a margin exactly equal to minMargin is not recorded |
| ArbitrageService.ExactMarginDecides | src/main/java/co/codingnomads/bot/arbitrage/service/ArbitrageService.java:135 | an exact margin more than the rounding bound above or below the threshold decides the outcome the same way |
| ArbitrageService.ArbitrageService.SaveArbitrageOpportunity | src/main/java/co/codingnomads/bot/arbitrage/service/ArbitrageService.java:57-63 | the insert is attempted once; a failing insert adds no row and does not escape |
| ArbitrageService.ArbitrageService.CheckArbitrageDirection | src/main/java/co/codingnomads/bot/arbitrage/service/ArbitrageService.java:131-142 | saves exactly the record Direction produces, or nothing |
| ArbitrageService.ArbitrageService.CheckArbitrageOpportunity | src/main/java/co/codingnomads/bot/arbitrage/service/ArbitrageService.java:81-96 | save calls are exactly Opportunities, in order; a failed first save does not stop the second direction |
| ArbitrageService.ArbitrageService.GetLatestOpportunities | src/main/java/co/codingnomads/bot/arbitrage/service/ArbitrageService.java:198-205 | the mapper's list, or [] when the query throws |
| ArbitrageService.ArbitrageService.GetTodayOpportunityCount | src/main/java/co/codingnomads/bot/arbitrage/service/ArbitrageService.java:212-219 | the mapper's count, or 0 when the query throws |
| RealTimeArbitrageService.IsFresh | src/main/java/co/codingnomads/bot/arbitrage/service/RealTimeArbitrageService.java:135-137 | defines isDataFresh: strictly less than PRICE_EXPIRY_MS (5000) has passed since the quote's timestamp; the boundary is FreshnessBoundary |
| RealTimeArbitrageService.FreshnessBoundary | src/main/java/co/codingnomads/bot/arbitrage/service/RealTimeArbitrageService.java:135-137 | freshness is strict: a quote 5000 ms old is stale, one 4999 ms old is fresh |
| RealTimeArbitrageService.ShippedNamesNeverMatch | src/main/java/co/codingnomads/bot/arbitrage/service/RealTimeArbitrageService.java:116-117 | the names the clients write ("币安", "火币") are not the names the check reads ("Binance", "Huobi") |
| RealTimeArbitrageService.RealTimeArbitrageService.constructor | src/main/java/co/codingnomads/bot/arbitrage/service/RealTimeArbitrageService.java:40 | the store starts empty |
| RealTimeArbitrageService.RealTimeArbitrageService.HandlePriceUpdate | src/main/java/co/codingnomads/bot/arbitrage/service/RealTimeArbitrageService.java:93-110 | stores MarketData(exchange, SYMBOL, bid, ask, now) under the exchange (last write wins, other keys unchanged) and hands it to saveMarketData once; then the check runs on the updated store |
| RealTimeArbitrageService.RealTimeArbitrageService.CheckForArbitrageOpportunity | src/main/java/co/codingnomads/bot/arbitrage/service/RealTimeArbitrageService.java:115-127 | with a configured venue missing nothing changes; with both present checkCount rises by one and either the detector is called once (both fresh) or skipped rises by one; skipped never exceeds checks |
| RealTimeArbitrageService.ConfiguredNamesReachDetector | src/main/java/co/codingnomads/bot/arbitrage/service/RealTimeArbitrageService.java:115-127 | updates under the configured names, fresh, lead to one check and one detector call with exactly those quotes |
| RealTimeArbitrageService.ClientWritesKeepConfiguredNamesOut | src/main/java/co/codingnomads/bot/arbitrage/service/RealTimeArbitrageService.java:106-117 | the keys the shipped clients write (their own exchange names) stay within the client names, and neither configured exchange name is ever among them, however many writes have happened |
| RealTimeArbitrageService.ClientUpdateNeverTriggersDetection | src/main/java/co/codingnomads/bot/arbitrage/service/RealTimeArbitrageService.java:93-127 | one price update from a shipped client, at any time and whatever the insert does, leaves the check and skip counters and the detector calls unchanged, and the store is still keyed by client names only, so the same holds for the next update |
| StatisticsService.Due | src/main/java/co/codingnomads/bot/arbitrage/service/StatisticsService.java:52 | defines printStats' test: strictly more than STATS_PRINT_INTERVAL_MS (60000) since the last report; NotDueAgain and PrintStats state its consequences |
| StatisticsService.NotDueAgain | src/main/java/co/codingnomads/bot/arbitrage/service/StatisticsService.java:52 | the interval test is strict, so a report is never due at the instant of the last one |
| StatisticsService.StatisticsService.constructor | src/main/java/co/codingnomads/bot/arbitrage/service/StatisticsService.java:21-24 | counters start at 0 and the marker at the construction time |
| StatisticsService.StatisticsService.IncrementCheckCount | src/main/java/co/codingnomads/bot/arbitrage/service/StatisticsService.java:29-31 | raises checkCount by one, nothing else changes |
| StatisticsService.StatisticsService.IncrementSkippedOpportunities | src/main/java/co/codingnomads/bot/arbitrage/service/StatisticsService.java:36-38 | raises skippedOpportunities by one, nothing else changes |
| StatisticsService.StatisticsService.IncrementProcessedOpportunities | src/main/java/co/codingnomads/bot/arbitrage/service/StatisticsService.java:43-45 | raises processedOpportunities by one, nothing else changes |
| StatisticsService.StatisticsService.PrintStats | src/main/java/co/codingnomads/bot/arbitrage/service/StatisticsService.java:50-62 | emits a report of the counters and moves the marker to now iff now - marker > 60000; otherwise nothing changes; counters are never touched |
| StatisticsService.StatisticsService.PrintFinalStats | src/main/java/co/codingnomads/bot/arbitrage/service/StatisticsService.java:67-69 | behaves like printStats: emits only when the interval has elapsed |
| StatisticsService.PrintTwice | src/main/java/co/codingnomads/bot/arbitrage/service/StatisticsService.java:52-53 | two prints at the same instant emit at most one report |
| StatisticsService.FinalStatsSkippedWhenRecent | src/main/java/co/codingnomads/bot/arbitrage/service/StatisticsService.java:67-69 | a final print within the interval of the last report emits nothing |
| StatisticsService.StatisticsService.PrintFinalStatsForced | src/main/java/co/codingnomads/bot/arbitrage/service/StatisticsService.java:67-69 | a forced final print always emits one report of the counters |
| StatisticsService.FinalStatsAlwaysLogged | src/main/java/co/codingnomads/bot/arbitrage/service/StatisticsService.java:67-69 | with the forced print, the same shutdown logs exactly one final report |
| MarketDataService.ValidFields | src/main/java/co/codingnomads/bot/arbitrage/service/MarketDataService.java:64-69 | defines isValidMarketData on a snapshot of the row: exchange and symbol non-null and not empty after trim, bid and ask non-null and above zero, timestamp non-null and above zero; ValidFieldsIff states it character by character |
| MarketDataService.IsValidMarketData | src/main/java/co/codingnomads/bot/arbitrage/service/MarketDataService.java:63-70 | a null row is invalid; otherwise ValidFields of its fields |
| MarketDataService.ValidFieldsIff | src/main/java/co/codingnomads/bot/arbitrage/service/MarketDataService.java:63-70 | valid iff exchange and symbol are non-null and non-blank after trim, both prices non-null and > 0, and the timestamp non-null and > 0 |
| MarketDataService.CrossedQuoteIsValid | src/main/java/co/codingnomads/bot/arbitrage/service/MarketDataService.java:67-68 | no bid <= ask ordering is required |
| MarketDataService.MarketDataService.SaveMarketData | src/main/java/co/codingnomads/bot/arbitrage/service/MarketDataService.java:45-55 | insert is called exactly when the record is valid; a failing insert adds no row and does not escape |
| MarketDataService.MarketDataService.GetLatestMarketData | src/main/java/co/codingnomads/bot/arbitrage/service/MarketDataService.java:82-89 | the mapper's list, or [] when the query throws |
| MarketDataService.MarketDataService.GetTodayDataCount | src/main/java/co/codingnomads/bot/arbitrage/service/MarketDataService.java:97-104 | the mapper's count, or 0 when the query throws |
| Model.ShowMarketData | src/main/java/co/codingnomads/bot/arbitrage/model/MarketData.java:59-68 | toString starts with "MarketData{exchange='", the exchange and "', symbol='"; each of symbol, bidPrice and askPrice appears between its own label and the next field's; it ends with ", timestamp=", the timestamp and "}" |
| Model.ShowMarketDataOmits | src/main/java/co/codingnomads/bot/arbitrage/model/MarketData.java:59-68 | toString depends only on exchange, symbol, the two prices and timestamp (id, volumes, createdAt are not shown) |
| Model.MarketData.ToString | src/main/java/co/codingnomads/bot/arbitrage/model/MarketData.java:59-68 | toString on the row's current fields; what it contains is stated by ShowMarketData |
| Model.MarketData.Empty | src/main/java/co/codingnomads/bot/arbitrage/model/MarketData.java:20 | every field null |
| Model.MarketData.constructor | src/main/java/co/codingnomads/bot/arbitrage/model/MarketData.java:23-29 | sets exchange, symbol, bid, ask, timestamp; id, volumes, createdAt stay null |
| Model.MarketData.SetId | src/main/java/co/codingnomads/bot/arbitrage/model/MarketData.java:33 | changes only id |
| Model.MarketData.SetExchange | src/main/java/co/codingnomads/bot/arbitrage/model/MarketData.java:36 | changes only exchange |
| Model.MarketData.SetSymbol | src/main/java/co/codingnomads/bot/arbitrage/model/MarketData.java:39 | changes only symbol |
| Model.MarketData.SetBidPrice | src/main/java/co/codingnomads/bot/arbitrage/model/MarketData.java:42 | changes only bidPrice |
| Model.MarketData.SetAskPrice | src/main/java/co/codingnomads/bot/arbitrage/model/MarketData.java:45 | changes only askPrice |
| Model.MarketData.SetBidVolume | src/main/java/co/codingnomads/bot/arbitrage/model/MarketData.java:48 | changes only bidVolume |
| Model.MarketData.SetAskVolume | src/main/java/co/codingnomads/bot/arbitrage/model/MarketData.java:51 | changes only askVolume |
| Model.MarketData.SetTimestamp | src/main/java/co/codingnomads/bot/arbitrage/model/MarketData.java:54 | changes only timestamp |
| Model.MarketData.SetCreatedAt | src/main/java/co/codingnomads/bot/arbitrage/model/MarketData.java:57 | changes only createdAt |
| Model.ShowOpportunity | src/main/java/co/codingnomads/bot/arbitrage/model/ArbitrageOpportunity.java:61-71 | toString starts with "ArbitrageOpportunity{symbol='", the symbol and "', buyExchange='"; each of buyExchange, sellExchange, buyPrice and sellPrice appears between its own label and the next field's; it ends with ", profitMargin=", the margin and "%}" |
| Model.ShowOpportunityOmits | src/main/java/co/codingnomads/bot/arbitrage/model/ArbitrageOpportunity.java:61-71 | toString depends only on symbol through profitMargin (id, profitAmount, detectedAt are not shown) |
| Model.ArbitrageOpportunity.ToString | src/main/java/co/codingnomads/bot/arbitrage/model/ArbitrageOpportunity.java:61-71 | toString on the row's current fields; what it contains is stated by ShowOpportunity |
| Model.ArbitrageOpportunity.Empty | src/main/java/co/codingnomads/bot/arbitrage/model/ArbitrageOpportunity.java:20 | every field null |
| Model.ArbitrageOpportunity.constructor | src/main/java/co/codingnomads/bot/arbitrage/model/ArbitrageOpportunity.java:23-31 | sets the six fields to its six arguments, each of which may be null; id, profitAmount and detectedAt stay null |
| Model.ArbitrageOpportunity.SetId | src/main/java/co/codingnomads/bot/arbitrage/model/ArbitrageOpportunity.java:35 | changes only id |
| Model.ArbitrageOpportunity.SetSymbol | src/main/java/co/codingnomads/bot/arbitrage/model/ArbitrageOpportunity.java:38 | changes only symbol |
| Model.ArbitrageOpportunity.SetBuyExchange | src/main/java/co/codingnomads/bot/arbitrage/model/ArbitrageOpportunity.java:41 | changes only buyExchange |
| Model.ArbitrageOpportunity.SetSellExchange | src/main/java/co/codingnomads/bot/arbitrage/model/ArbitrageOpportunity.java:44 | changes only sellExchange |
| Model.ArbitrageOpportunity.SetBuyPrice | src/main/java/co/codingnomads/bot/arbitrage/model/ArbitrageOpportunity.java:47 | changes only buyPrice |
| Model.ArbitrageOpportunity.SetSellPrice | src/main/java/co/codingnomads/bot/arbitrage/model/ArbitrageOpportunity.java:50 | changes only sellPrice |
| Model.ArbitrageOpportunity.SetProfitMargin | src/main/java/co/codingnomads/bot/arbitrage/model/ArbitrageOpportunity.java:53 | changes only profitMargin |
| Model.ArbitrageOpportunity.SetProfitAmount | src/main/java/co/codingnomads/bot/arbitrage/model/ArbitrageOpportunity.java:56 | changes only profitAmount |
| Model.ArbitrageOpportunity.SetDetectedAt | src/main/java/co/codingnomads/bot/arbitrage/model/ArbitrageOpportunity.java:59 | changes only detectedAt |
| GzipUtil.DecompressGzip | src/main/java/co/codingnomads/bot/arbitrage/util/GzipUtil.java:24-43 | "" for null or empty input and for a stream that fails to inflate; otherwise the inflated text |
| ExchangeClient.Remaining | src/main/java/co/codingnomads/bot/arbitrage/exchange/ExchangeWebSocketClient.java:128-129 | the copied array is exactly the bytes from the buffer's position to its end |
| ExchangeClient.AtMostOneLive | src/main/java/co/codingnomads/bot/arbitrage/exchange/ExchangeWebSocketClient.java:200-217 | when only the slot's task can be live, at most one reconnect task is pending or running |
| ExchangeClient.ExchangeWebSocketClient.constructor | src/main/java/co/codingnomads/bot/arbitrage/exchange/ExchangeWebSocketClient.java:69-80 | not reconnecting, no task, nothing forwarded |
| ExchangeClient.ExchangeWebSocketClient.OnOpen | src/main/java/co/codingnomads/bot/arbitrage/exchange/ExchangeWebSocketClient.java:90-93 | clears isReconnecting; nothing else changes |
| ExchangeClient.ExchangeWebSocketClient.OnTextMessage | src/main/java/co/codingnomads/bot/arbitrage/exchange/ExchangeWebSocketClient.java:112-118 | the text is forwarded unchanged; the reconnect state is untouched |
| ExchangeClient.ExchangeWebSocketClient.OnBinaryMessage | src/main/java/co/codingnomads/bot/arbitrage/exchange/ExchangeWebSocketClient.java:126-134 | a copy of the remaining bytes is forwarded |
| ExchangeClient.ExchangeWebSocketClient.OnClose | src/main/java/co/codingnomads/bot/arbitrage/exchange/ExchangeWebSocketClient.java:144-149 | while reconnecting or once shut down nothing changes; otherwise the flag is set, every live task is cancelled and exactly one new 5-second task is pending in the slot |
| ExchangeClient.ExchangeWebSocketClient.OnError | src/main/java/co/codingnomads/bot/arbitrage/exchange/ExchangeWebSocketClient.java:157-162 | the same rule as onClose |
| ExchangeClient.ExchangeWebSocketClient.ScheduleReconnect | src/main/java/co/codingnomads/bot/arbitrage/exchange/ExchangeWebSocketClient.java:170-186 | a no-op while reconnecting or once shut down; otherwise sets the flag, cancels the live task and puts exactly one new 5-second task in the slot |
| ExchangeClient.ExchangeWebSocketClient.CancelExistingReconnectTask | src/main/java/co/codingnomads/bot/arbitrage/exchange/ExchangeWebSocketClient.java:200-204 | cancels the slot's task if it is not done; afterwards no task is live |
| ExchangeClient.ExchangeWebSocketClient.ScheduleNewReconnectTask | src/main/java/co/codingnomads/bot/arbitrage/exchange/ExchangeWebSocketClient.java:209-217 | appends one pending task with delay RECONNECT_DELAY_SECONDS (5) and puts it in the slot |
| ExchangeClient.ExchangeWebSocketClient.HandleReconnectFailure | src/main/java/co/codingnomads/bot/arbitrage/exchange/ExchangeWebSocketClient.java:243-249 | clears the flag and schedules again, with no retry limit |
| ExchangeClient.ExchangeWebSocketClient.PerformReconnect | src/main/java/co/codingnomads/bot/arbitrage/exchange/ExchangeWebSocketClient.java:224-249 | from any flag value: close() of an open socket and a refusal's onError and onClose schedule only while the flag is clear, a throw always schedules; afterwards the flag is set exactly when the attempt threw on a running executor, the task list grew by Reschedules new tasks, only the last of them pending, and the running task was cancelled if anything was scheduled |
| ExchangeClient.ExchangeWebSocketClient.RunReconnectTask | src/main/java/co/codingnomads/bot/arbitrage/exchange/ExchangeWebSocketClient.java:209-236 | the slot's pending task runs with whatever flag the callbacks left: the same outcome as performReconnect, the task itself ends done when nothing was scheduled, and exactly one task is live if and only if something was scheduled |
| ExchangeClient.ExchangeWebSocketClient.PerformReconnectChecked | src/main/java/co/codingnomads/bot/arbitrage/exchange/ExchangeWebSocketClient.java:224-249 | the corrected performReconnect, with a false result handed to handleReconnectFailure: the flag is set exactly when the attempt failed, in either way, on a running executor, and ReschedulesChecked tasks were scheduled |
| ExchangeClient.RefusedReconnectStopsRetrying | src/main/java/co/codingnomads/bot/arbitrage/exchange/ExchangeWebSocketClient.java:231-234 | as written, one refused reconnect leaves the client not reconnecting with no live task |
| ExchangeClient.ExchangeWebSocketClient.RunReconnectTaskChecked | src/main/java/co/codingnomads/bot/arbitrage/exchange/ExchangeWebSocketClient.java:209-236 | the task body with the corrected performReconnect: the same frame as RunReconnectTask with ReschedulesChecked in place of Reschedules; with CheckedFailureRetries, every failed attempt on a running executor leaves exactly one live task |
| ExchangeClient.RefusedReconnectIsRetried | src/main/java/co/codingnomads/bot/arbitrage/exchange/ExchangeWebSocketClient.java:231-234 | with the check, the same refusal leaves a retry pending 5 seconds out |
| ExchangeClient.RefusalWhileReconnecting | src/main/java/co/codingnomads/bot/arbitrage/exchange/ExchangeWebSocketClient.java:144-149 | as written, a refusal while the flag is set schedules nothing, because onError and onClose see the flag; corrected, it schedules exactly one retry |
| ExchangeClient.CheckedFailureRetries | src/main/java/co/codingnomads/bot/arbitrage/exchange/ExchangeWebSocketClient.java:243-249 | corrected, every refused or throwing attempt on a running executor schedules at least one retry, whatever the flag was |
| ExchangeClient.OpenBeforeTaskRunsReconnectsAgain | src/main/java/co/codingnomads/bot/arbitrage/exchange/ExchangeWebSocketClient.java:90-93 | onClose, then onOpen before the task runs: the task still closes and reconnects, close() schedules a new reconnect, and the client ends with the flag clear, the old task cancelled and one new task pending in the slot |
| HuobiExchangeClient.BboUpdate | src/main/java/co/codingnomads/bot/arbitrage/exchange/huobi/HuobiWebSocketClient.java:142-174 | an update ("火币", tick.bid, tick.ask) iff text is non-empty, free of "pong", "subbed" and "err-msg", parses, and has ch ending in ".bbo" and a tick with bid and ask |
| HuobiExchangeClient.PongDropped | src/main/java/co/codingnomads/bot/arbitrage/exchange/huobi/HuobiWebSocketClient.java:149-152 | any text containing "pong" yields nothing, whatever it parses to |
| HuobiExchangeClient.AcknowledgementDropped | src/main/java/co/codingnomads/bot/arbitrage/exchange/huobi/HuobiWebSocketClient.java:154-157 | any text containing "subbed" or "err-msg" yields nothing |
| HuobiExchangeClient.ServerPingYieldsNothing | src/main/java/co/codingnomads/bot/arbitrage/exchange/huobi/HuobiWebSocketClient.java:160 | a server {"ping": n} yields no update |
| HuobiExchangeClient.TickerChannelIgnored | src/main/java/co/codingnomads/bot/arbitrage/exchange/huobi/HuobiWebSocketClient.java:162 | a ".ticker" channel with bid and ask yields nothing |
| HuobiExchangeClient.BboPushReported | src/main/java/co/codingnomads/bot/arbitrage/exchange/huobi/HuobiWebSocketClient.java:159-168 | a ".bbo" push that passes the filters reports exactly its bid and ask |
| HuobiExchangeClient.SubscriptionChannel | src/main/java/co/codingnomads/bot/arbitrage/exchange/huobi/HuobiWebSocketClient.java:86-90 | the subscription names market.ethusdt.bbo |
| HuobiExchangeClient.SubscriptionRoundTrip | src/main/java/co/codingnomads/bot/arbitrage/exchange/huobi/HuobiWebSocketClient.java:86-90 | the id read back from the subscription is the clock reading |
| HuobiExchangeClient.SubscriptionMessage | src/main/java/co/codingnomads/bot/arbitrage/exchange/huobi/HuobiWebSocketClient.java:86-90 | defines sendSubscriptionMessage's text: the bbo channel of the configured symbol and the clock reading as id; SubscriptionChannel and SubscriptionRoundTrip state both |
| HuobiExchangeClient.PingMessage | src/main/java/co/codingnomads/bot/arbitrage/exchange/huobi/HuobiWebSocketClient.java:136-140 | defines sendPingMessage's text, {"ping":<now>}; PingTimerFires states when it is sent |
| HuobiExchangeClient.AtMostOneTimer | src/main/java/co/codingnomads/bot/arbitrage/exchange/huobi/HuobiWebSocketClient.java:107-134 | when the field names the only uncancelled timer, at most one timer runs |
| HuobiExchangeClient.HuobiWebSocketClient.constructor | src/main/java/co/codingnomads/bot/arbitrage/exchange/huobi/HuobiWebSocketClient.java:44-48 | no timer, nothing sent, no update |
| HuobiExchangeClient.HuobiWebSocketClient.StopPingTimer | src/main/java/co/codingnomads/bot/arbitrage/exchange/huobi/HuobiWebSocketClient.java:127-134 | cancels the field's timer and clears the field; no timer runs |
| HuobiExchangeClient.HuobiWebSocketClient.StartPingTimer | src/main/java/co/codingnomads/bot/arbitrage/exchange/huobi/HuobiWebSocketClient.java:107-125 | stops the old timer first; exactly one timer runs afterwards, the new one |
| HuobiExchangeClient.HuobiWebSocketClient.PingTimerFires | src/main/java/co/codingnomads/bot/arbitrage/exchange/huobi/HuobiWebSocketClient.java:113-121 | while the socket is open a ping is sent; when that send throws, the socket library's reconnect() is called instead; on a closed socket nothing happens |
| HuobiExchangeClient.HuobiWebSocketClient.OnOpen | src/main/java/co/codingnomads/bot/arbitrage/exchange/huobi/HuobiWebSocketClient.java:66-71 | sends the subscription, then exactly one ping timer runs |
| HuobiExchangeClient.HuobiWebSocketClient.OnClose | src/main/java/co/codingnomads/bot/arbitrage/exchange/huobi/HuobiWebSocketClient.java:73-78 | stops the timer and starts one reconnect thread |
| HuobiExchangeClient.HuobiWebSocketClient.OnError | src/main/java/co/codingnomads/bot/arbitrage/exchange/huobi/HuobiWebSocketClient.java:80-84 | stops the timer; no reconnect |
| HuobiExchangeClient.HuobiWebSocketClient.RunReconnectThread | src/main/java/co/codingnomads/bot/arbitrage/exchange/huobi/HuobiWebSocketClient.java:92-105 | a failing reconnect is handled as a close; a successful one changes nothing here |
| HuobiExchangeClient.HuobiWebSocketClient.OnTextMessage | src/main/java/co/codingnomads/bot/arbitrage/exchange/huobi/HuobiWebSocketClient.java:50-53 | a text frame is only logged: the method has no modifies clause, so no field changes |
| HuobiExchangeClient.HuobiWebSocketClient.OnBinaryMessage | src/main/java/co/codingnomads/bot/arbitrage/exchange/huobi/HuobiWebSocketClient.java:55-64 | the remaining bytes are decompressed and classified; at most one update, exactly BboUpdate's |
| BinanceExchangeClient.Decode | src/main/java/co/codingnomads/bot/arbitrage/exchange/binance/BinanceWebSocketClient.java:80-90 | an update ("币安", b, a) iff the frame parses and has both b and a |
| BinanceExchangeClient.BookTickerDecodes | src/main/java/co/codingnomads/bot/arbitrage/exchange/binance/BinanceWebSocketClient.java:82-86 | a book-ticker frame reports exactly its bid and ask |
| BinanceExchangeClient.IncompleteFrameDropped | src/main/java/co/codingnomads/bot/arbitrage/exchange/binance/BinanceWebSocketClient.java:82-88 | an unparsable frame, or one missing b or a, reports nothing |
| BinanceExchangeClient.BinanceWebSocketClient.constructor | src/main/java/co/codingnomads/bot/arbitrage/exchange/binance/BinanceWebSocketClient.java:35-39 | no update yet |
| BinanceExchangeClient.BinanceWebSocketClient.OnMessage | src/main/java/co/codingnomads/bot/arbitrage/exchange/binance/BinanceWebSocketClient.java:56-63 | exactly one update per decodable frame, none otherwise |
| BinanceExchangeClient.BinanceWebSocketClient.OnOpen | src/main/java/co/codingnomads/bot/arbitrage/exchange/binance/BinanceWebSocketClient.java:46-49 | only logs: no modifies clause, so no update is recorded |
| BinanceExchangeClient.BinanceWebSocketClient.OnClose | src/main/java/co/codingnomads/bot/arbitrage/exchange/binance/BinanceWebSocketClient.java:65-68 | only logs: nothing is recorded and no reconnect is scheduled |
| BinanceExchangeClient.BinanceWebSocketClient.OnError | src/main/java/co/codingnomads/bot/arbitrage/exchange/binance/BinanceWebSocketClient.java:70-73 | only logs: nothing is recorded and no reconnect is scheduled |
| Ticker.ConvertSymbolToCurrencyPair | src/main/java/co/codingnomads/bot/arbitrage/websocket/HuobiWebSocketClient.java:166-176 | defines convertSymbolToCurrencyPair: ETHUSDT and BTCUSDT after upper-casing, anything else null; ConvertSymbolIff states it both ways |
| Ticker.ConvertSymbolIff | src/main/java/co/codingnomads/bot/arbitrage/websocket/HuobiWebSocketClient.java:166-176 | a symbol converts to a pair iff its upper case is ETHUSDT (ETH_USD) or BTCUSDT (BTC_USD); anything else is null |
| Ticker.ConvertPairSymbol | src/main/java/co/codingnomads/bot/arbitrage/websocket/BinanceWebSocketClient.java:61-71 | each pair's symbol, in upper or lower case, converts back to it |
| Ticker.ConvertIgnoresCase | src/main/java/co/codingnomads/bot/arbitrage/websocket/BinanceWebSocketClient.java:62 | the conversion ignores case |
| Ticker.UsdSymbolUnknown | src/main/java/co/codingnomads/bot/arbitrage/websocket/HuobiWebSocketClient.java:166-176 | "ethusd" (no trailing T) is not recognised |
| StreamClient.TickerPayload | src/main/java/co/codingnomads/bot/arbitrage/websocket/WebSocketClient.java:46-70 | a frame is a ticker payload exactly when it is a 24hrTicker, or a @ticker stream wrapper that has data, or (not such a wrapper) an array of more than one element or a ticker-channel frame with a tick; a wrapper hands over its data, every other payload is the frame itself; a scalar is never one |
| StreamClient.TaggedTickerWins | src/main/java/co/codingnomads/bot/arbitrage/websocket/WebSocketClient.java:48-52 | an "e":"24hrTicker" message is its own payload, even when it also has a stream and data |
| StreamClient.StreamWrapperHandsData | src/main/java/co/codingnomads/bot/arbitrage/websocket/WebSocketClient.java:54-58 | a stream name containing "@ticker" hands over its data field |
| StreamClient.BinancePushIsPayload | src/main/java/co/codingnomads/bot/arbitrage/websocket/WebSocketClient.java:48-52 | Binance's push is dispatched as it stands |
| StreamClient.HuobiPushIsPayload | src/main/java/co/codingnomads/bot/arbitrage/websocket/WebSocketClient.java:66-70 | Huobi's ticker push matches the last rule and is dispatched as it stands |
| StreamClient.FlatPushesAreNotPayloads | src/main/java/co/codingnomads/bot/arbitrage/websocket/WebSocketClient.java:48-70 | the Poloniex, Bittrex and GDAX pushes match no rule, so their handlers never run |
| StreamClient.CacheAfter | src/main/java/co/codingnomads/bot/arbitrage/websocket/HuobiWebSocketClient.java:142 | the key written now holds its ticker and every other key is unchanged |
| StreamClient.DeliveredAfter | src/main/java/co/codingnomads/bot/arbitrage/websocket/HuobiWebSocketClient.java:144-146 | the callback gets this ticker once if it is set and an entry was written, and otherwise nothing |
| StreamClient.TextEntry | src/main/java/co/codingnomads/bot/arbitrage/websocket/WebSocketClient.java:38-81 | defines the cache entry a text frame leads to: none for an unparsable frame, Huobi's processMessage, or the venue's ticker handler on TickerPayload when a "ticker" handler is registered; BinancePushCached and GeminiRegistrationNeverFires state cases of it |
| StreamClient.SubscriptionFor | src/main/java/co/codingnomads/bot/arbitrage/websocket/HuobiWebSocketClient.java:186-199 | defines which venue's subscribeToTicker frame a client sends; the per-venue lemmas below state what each names |
| StreamClient.BinancePushCached | src/main/java/co/codingnomads/bot/arbitrage/websocket/WebSocketClient.java:72-74 | with a ticker handler registered, a Binance push for a known pair is cached under its raw symbol |
| StreamClient.HuobiPushCached | src/main/java/co/codingnomads/bot/arbitrage/websocket/HuobiWebSocketClient.java:76-97 | a Huobi ticker push for a known pair, symbol without dots, is cached under the upper-cased symbol with exactly its bid and ask, whatever handlers are registered |
| StreamClient.GeminiRegistrationNeverFires | src/main/java/co/codingnomads/bot/arbitrage/websocket/GeminiWebSocketClient.java:40-46 | with only its own registrations (ticker never, l2_updates on open), Gemini never caches anything from a frame |
| StreamClient.ExchangeWebSocketClient.constructor | src/main/java/co/codingnomads/bot/arbitrage/websocket/WebSocketClient.java:26-28 | not connected, incomplete future, each venue's constructor handlers, empty cache, no callback |
| StreamClient.ExchangeWebSocketClient.OnOpen | src/main/java/co/codingnomads/bot/arbitrage/websocket/WebSocketClient.java:31-35 | connected, the future completed, then the venue's onOpen registrations |
| StreamClient.ExchangeWebSocketClient.OnClose | src/main/java/co/codingnomads/bot/arbitrage/websocket/WebSocketClient.java:84-87 | not connected; nothing else changes |
| StreamClient.ExchangeWebSocketClient.OnError | src/main/java/co/codingnomads/bot/arbitrage/websocket/WebSocketClient.java:90-96 | not connected; the future fails only if it was not done |
| StreamClient.ExchangeWebSocketClient.RegisterMessageHandler | src/main/java/co/codingnomads/bot/arbitrage/websocket/WebSocketClient.java:101-103 | the key now names this handler and every other key is unchanged |
| StreamClient.ExchangeWebSocketClient.IsConnected | src/main/java/co/codingnomads/bot/arbitrage/websocket/WebSocketClient.java:115-117 | true iff the flag is set and the socket is not closed |
| StreamClient.ExchangeWebSocketClient.Subscribe | src/main/java/co/codingnomads/bot/arbitrage/websocket/WebSocketClient.java:122-129 | the frame is sent iff isConnected() holds |
| StreamClient.ExchangeWebSocketClient.SubscribeToTicker | src/main/java/co/codingnomads/bot/arbitrage/websocket/HuobiWebSocketClient.java:186-199 | the venue's subscription frame is sent iff connected |
| StreamClient.ExchangeWebSocketClient.SetTickerUpdateCallback | src/main/java/co/codingnomads/bot/arbitrage/websocket/HuobiWebSocketClient.java:178-180 | the callback is set or cleared |
| StreamClient.ExchangeWebSocketClient.SetExchange | src/main/java/co/codingnomads/bot/arbitrage/websocket/GeminiWebSocketClient.java:35-37 | the exchange field takes the new value |
| StreamClient.ExchangeWebSocketClient.GetLatestTicker | src/main/java/co/codingnomads/bot/arbitrage/websocket/HuobiWebSocketClient.java:182-184 | the cached ticker for the symbol, or null |
| StreamClient.ExchangeWebSocketClient.Store | src/main/java/co/codingnomads/bot/arbitrage/websocket/BinanceWebSocketClient.java:47-51 | the put into the cache, then the callback once if set |
| StreamClient.ExchangeWebSocketClient.HandleTickerUpdate | src/main/java/co/codingnomads/bot/arbitrage/websocket/PoloniexWebSocketClient.java:48-79 | the venue's decoder decides the entry; cache and callback change only through it |
| StreamClient.ExchangeWebSocketClient.ProcessMessage | src/main/java/co/codingnomads/bot/arbitrage/websocket/HuobiWebSocketClient.java:76-97 | sends the pong HuobiStream.ProcessMessage gives and writes only its entry |
| StreamClient.ExchangeWebSocketClient.OnTextMessage | src/main/java/co/codingnomads/bot/arbitrage/websocket/WebSocketClient.java:38-81 | the "ticker" handler runs once iff the message is a ticker message with a non-null payload and a "ticker" handler is registered; Huobi uses its own processMessage; an unparsable frame changes nothing |
| StreamClient.ExchangeWebSocketClient.OnBinaryMessage | src/main/java/co/codingnomads/bot/arbitrage/websocket/HuobiWebSocketClient.java:61-74 | Huobi processes an inflated frame as it processes text; the other venues ignore binary frames |
| HuobiStream.ExtractSymbolFromChannel | src/main/java/co/codingnomads/bot/arbitrage/websocket/HuobiWebSocketClient.java:157-164 | the second dot-separated part, upper-cased; null with fewer than two parts |
| HuobiStream.ExtractFromTickerChannel | src/main/java/co/codingnomads/bot/arbitrage/websocket/HuobiWebSocketClient.java:157-164 | market.<s>.ticker gives back upper(s) |
| HuobiStream.ExtractNeedsTwoParts | src/main/java/co/codingnomads/bot/arbitrage/websocket/HuobiWebSocketClient.java:160-163 | a channel without a dot, even with a trailing dot, gives null |
| HuobiStream.TickerUpdate | src/main/java/co/codingnomads/bot/arbitrage/websocket/HuobiWebSocketClient.java:126-155 | an entry iff ch mentions ticker, tick has numeric bid and ask, and the channel's symbol converts; the entry is (symbol, pair, exchange, bid, ask) |
| HuobiStream.TickerPushDecodes | src/main/java/co/codingnomads/bot/arbitrage/websocket/HuobiWebSocketClient.java:129-146 | a push for a known pair is cached under its upper-cased symbol with exactly its bid and ask |
| HuobiStream.PongRoundTrip | src/main/java/co/codingnomads/bot/arbitrage/websocket/HuobiWebSocketClient.java:115-118 | the pong carries the ping's value back |
| HuobiStream.PongMessage | src/main/java/co/codingnomads/bot/arbitrage/websocket/HuobiWebSocketClient.java:117 | defines the pong text {"pong": <n>}; PongRoundTrip reads n back |
| HuobiStream.PingReply | src/main/java/co/codingnomads/bot/arbitrage/websocket/HuobiWebSocketClient.java:113-124 | defines handlePingMessage: one pong echoing the ping's value read as a long, nothing without a ping; ProcessMessage and HeartbeatAnswered state it |
| HuobiStream.ProcessMessage | src/main/java/co/codingnomads/bot/arbitrage/websocket/HuobiWebSocketClient.java:76-97 | a ping is answered with one pong and writes nothing; otherwise nothing is sent; a message with neither ping nor subbed writes exactly what TickerUpdate gives, and only such a message writes anything |
| HuobiStream.HeartbeatAnswered | src/main/java/co/codingnomads/bot/arbitrage/websocket/HuobiWebSocketClient.java:79-82 | {"ping": n} is answered with {"pong": n} and writes nothing |
| HuobiStream.PingBeatsTicker | src/main/java/co/codingnomads/bot/arbitrage/websocket/HuobiWebSocketClient.java:79-82 | a message with both a ping and a ticker is only answered |
| HuobiStream.SubscribedChannelCachesUpper | src/main/java/co/codingnomads/bot/arbitrage/websocket/HuobiWebSocketClient.java:186-191 | the lower-cased channel subscribed to yields the symbol back in upper case |
| HuobiStream.SubscriptionMessage | src/main/java/co/codingnomads/bot/arbitrage/websocket/HuobiWebSocketClient.java:186-191 | defines subscribeToTicker's text: the ticker channel of the lower-cased symbol and the id ticker_<now>; SubscribedChannelCachesUpper states where such pushes are cached |
| BinanceStream.TickerUpdate | src/main/java/co/codingnomads/bot/arbitrage/websocket/BinanceWebSocketClient.java:36-59 | an entry iff s, b and a are present, b and a are numerals and s converts; keyed by the raw s, bid = b, ask = a |
| BinanceStream.TickerPushDecodes | src/main/java/co/codingnomads/bot/arbitrage/websocket/BinanceWebSocketClient.java:38-47 | a push for a known pair is cached under its own symbol with exactly its bid and ask |
| BinanceStream.SubscriptionMessage | src/main/java/co/codingnomads/bot/arbitrage/websocket/BinanceWebSocketClient.java:81-87 | defines subscribeToTicker's text; SubscriptionNamesSymbol states what it names |
| BinanceStream.SubscriptionNamesSymbol | src/main/java/co/codingnomads/bot/arbitrage/websocket/BinanceWebSocketClient.java:81-87 | the stream subscribed to is the lower-cased symbol, which converts to the same pair |
| GeminiStream.LastPriceNoneIff | src/main/java/co/codingnomads/bot/arbitrage/websocket/GeminiWebSocketClient.java:60-69 | no price on a side iff no change is on that side |
| GeminiStream.LastPriceIsLastOn | src/main/java/co/codingnomads/bot/arbitrage/websocket/GeminiWebSocketClient.java:60-69 | otherwise the price is that of the last change on that side |
| GeminiStream.TickerUpdate | src/main/java/co/codingnomads/bot/arbitrage/websocket/GeminiWebSocketClient.java:48-93 | an entry iff symbol and changes are present, every change is readable, and both sides were seen; keyed by symbol |
| GeminiStream.TickerFromLastChanges | src/main/java/co/codingnomads/bot/arbitrage/websocket/GeminiWebSocketClient.java:71-79 | the ticker holds the last bid, the last ask, the bid again as last price, and no pair |
| GeminiStream.OneSidedUpdateDropped | src/main/java/co/codingnomads/bot/arbitrage/websocket/GeminiWebSocketClient.java:71 | an update with no ask side writes nothing |
| GeminiStream.HandleTickerUpdate | src/main/java/co/codingnomads/bot/arbitrage/websocket/GeminiWebSocketClient.java:55-88 | the loop computes exactly TickerUpdate |
| GeminiStream.GeminiSymbol | src/main/java/co/codingnomads/bot/arbitrage/websocket/GeminiWebSocketClient.java:101 | no slash and no upper-case letter remains; without slashes it is the lower-cased symbol |
| GeminiStream.SubscriptionMessage | src/main/java/co/codingnomads/bot/arbitrage/websocket/GeminiWebSocketClient.java:99-114 | defines subscribeToTicker's text; SubscriptionNamesSymbol states what it names |
| GeminiStream.SubscriptionNamesSymbol | src/main/java/co/codingnomads/bot/arbitrage/websocket/GeminiWebSocketClient.java:99-114 | the symbol subscribed to is the Gemini name |
| FlatTicker.Decode | src/main/java/co/codingnomads/bot/arbitrage/websocket/BittrexWebSocketClient.java:52-64 | an entry iff the key field is present and the three price fields are numerals; keyed by the key field's text, no pair, the three prices as read |
| FlatTicker.DecodeEncode | src/main/java/co/codingnomads/bot/arbitrage/websocket/BittrexWebSocketClient.java:52-64 | decoding a message built from a key and three prices gives them back |
| FlatTicker.TextPriceDropped | src/main/java/co/codingnomads/bot/arbitrage/websocket/BittrexWebSocketClient.java:53 | a price that is not a numeral drops the whole message |
| PoloniexStream.TickerUpdate | src/main/java/co/codingnomads/bot/arbitrage/websocket/PoloniexWebSocketClient.java:48-79 | nothing without a data field, otherwise the flat ticker read from data (symbol, bid, ask, last) |
| PoloniexStream.TickerPushDecodes | src/main/java/co/codingnomads/bot/arbitrage/websocket/PoloniexWebSocketClient.java:52-66 | a push wrapped in data is cached under its symbol with its three prices |
| PoloniexStream.ListedDataDropped | src/main/java/co/codingnomads/bot/arbitrage/websocket/PoloniexWebSocketClient.java:52-57 | a list under data throws on the symbol read, so nothing is cached |
| PoloniexStream.PoloniexSymbol | src/main/java/co/codingnomads/bot/arbitrage/websocket/PoloniexWebSocketClient.java:87 | defines the Poloniex name: every slash becomes an underscore; PoloniexSymbolBack states its inverse |
| PoloniexStream.PoloniexSymbolBack | src/main/java/co/codingnomads/bot/arbitrage/websocket/PoloniexWebSocketClient.java:87 | every slash becomes an underscore, and nothing else is lost |
| PoloniexStream.SubscriptionMessage | src/main/java/co/codingnomads/bot/arbitrage/websocket/PoloniexWebSocketClient.java:85-100 | defines subscribeToTicker's text; SubscriptionNamesSymbol states what it names |
| PoloniexStream.SubscriptionNamesSymbol | src/main/java/co/codingnomads/bot/arbitrage/websocket/PoloniexWebSocketClient.java:85-100 | the symbol subscribed to is the Poloniex name |
| BittrexStream.TickerUpdate | src/main/java/co/codingnomads/bot/arbitrage/websocket/BittrexWebSocketClient.java:48-76 | an entry iff symbol is present and bidRate, askRate, lastTradeRate are numerals; keyed by symbol |
| BittrexStream.TickerPushDecodes | src/main/java/co/codingnomads/bot/arbitrage/websocket/BittrexWebSocketClient.java:52-64 | a push is cached under its symbol with its three prices |
| BittrexStream.BittrexSymbol | src/main/java/co/codingnomads/bot/arbitrage/websocket/BittrexWebSocketClient.java:84 | defines the Bittrex name: every slash becomes a hyphen; BittrexSymbolBack states its inverse |
| BittrexStream.BittrexSymbolBack | src/main/java/co/codingnomads/bot/arbitrage/websocket/BittrexWebSocketClient.java:84 | every slash becomes a hyphen, and nothing else is lost |
| BittrexStream.SubscriptionMessage | src/main/java/co/codingnomads/bot/arbitrage/websocket/BittrexWebSocketClient.java:82-97 | defines subscribeToTicker's text; SubscriptionNamesSymbol states what it names |
| BittrexStream.SubscriptionNamesSymbol | src/main/java/co/codingnomads/bot/arbitrage/websocket/BittrexWebSocketClient.java:82-97 | the single argument is "ticker_" followed by the Bittrex symbol |
| GdaxStream.TickerUpdate | src/main/java/co/codingnomads/bot/arbitrage/websocket/GDAXWebSocketClient.java:48-76 | an entry iff product_id is present and best_bid, best_ask, price are numerals; keyed by product_id |
| GdaxStream.TickerPushDecodes | src/main/java/co/codingnomads/bot/arbitrage/websocket/GDAXWebSocketClient.java:52-64 | a push is cached under its product id with its three prices |
| GdaxStream.ProductId | src/main/java/co/codingnomads/bot/arbitrage/websocket/GDAXWebSocketClient.java:84 | defines the product id: every slash becomes a hyphen; ProductIdBack states its inverse |
| GdaxStream.ProductIdBack | src/main/java/co/codingnomads/bot/arbitrage/websocket/GDAXWebSocketClient.java:84 | every slash becomes a hyphen, and nothing else is lost |
| GdaxStream.SubscriptionMessage | src/main/java/co/codingnomads/bot/arbitrage/websocket/GDAXWebSocketClient.java:82-97 | defines subscribeToTicker's text; SubscriptionNamesProduct states what it names |
| GdaxStream.SubscriptionNamesProduct | src/main/java/co/codingnomads/bot/arbitrage/websocket/GDAXWebSocketClient.java:82-97 | the product id subscribed to is the renamed symbol |
| StreamingArbitrageService.StreamingMargin | src/main/java/co/codingnomads/bot/arbitrage/service/websocket/StreamingArbitrageService.java:206-207 | defines the margin the streaming check computes: (sell - buy) / buy rounded HALF_UP to 6 places, a fraction and not a percentage; StreamingMarginInPercent and UnitsDisagree state its relation to the percentage |
| StreamingArbitrageService.CheckArbitrage | src/main/java/co/codingnomads/bot/arbitrage/service/websocket/StreamingArbitrageService.java:201-221 | nothing if either price is null; a throw iff the buy price is 0; a report iff the fraction (sell-buy)/buy, rounded to 6 places HALF_UP, is above 0.005 |
| StreamingArbitrageService.StreamingMarginInPercent | src/main/java/co/codingnomads/bot/arbitrage/service/websocket/StreamingArbitrageService.java:206-207 | the fraction is ArbitrageService's percent margin divided by 100 |
| StreamingArbitrageService.UnitsDisagree | src/main/java/co/codingnomads/bot/arbitrage/service/websocket/StreamingArbitrageService.java:210 | a 0.4% spread clears ArbitrageService's 0.03 minimum but is not reported here |
| StreamingArbitrageService.ReportedSpreadBound | src/main/java/co/codingnomads/bot/arbitrage/service/websocket/StreamingArbitrageService.java:207-210 | a report means the exact spread exceeded 0.0049995 |
| StreamingArbitrageService.ReportNeedsSpread | src/main/java/co/codingnomads/bot/arbitrage/service/websocket/StreamingArbitrageService.java:210 | a report at a positive buy price needs sell > buy |
| StreamingArbitrageService.ReportedPercentError | src/main/java/co/codingnomads/bot/arbitrage/service/websocket/StreamingArbitrageService.java:211-217 | the percent shown is margin x 100 to within half a unit of the third place |
| StreamingArbitrageService.StreamingArbitrageService.constructor | src/main/java/co/codingnomads/bot/arbitrage/service/websocket/StreamingArbitrageService.java:34-36 | not running, no ticker |
| StreamingArbitrageService.StreamingArbitrageService.StartArbitrageDetection | src/main/java/co/codingnomads/bot/arbitrage/service/websocket/StreamingArbitrageService.java:44-64 | running afterwards iff setup succeeded (or it already was); a failure is reported |
| StreamingArbitrageService.StreamingArbitrageService.StopArbitrageDetection | src/main/java/co/codingnomads/bot/arbitrage/service/websocket/StreamingArbitrageService.java:69-71 | clears the running flag |
| StreamingArbitrageService.StreamingArbitrageService.CheckArbitrageOpportunity | src/main/java/co/codingnomads/bot/arbitrage/service/websocket/StreamingArbitrageService.java:174-183 | gets past the guard iff running and a "BINANCE" ticker is stored |
| StreamingArbitrageService.StreamingArbitrageService.OnBinanceTicker | src/main/java/co/codingnomads/bot/arbitrage/service/websocket/StreamingArbitrageService.java:148-152 | stores the ticker under "BINANCE" before the check |
| StreamingArbitrageService.StreamingArbitrageService.IsRunning | src/main/java/co/codingnomads/bot/arbitrage/service/websocket/StreamingArbitrageService.java:226-228 | the running flag |
| StreamingArbitrageService.StreamingArbitrageService.GetLatestTickers | src/main/java/co/codingnomads/bot/arbitrage/service/websocket/StreamingArbitrageService.java:233-235 | a copy equal to the stored tickers |
| Decimal.RoundHalfUp | src/main/java/co/codingnomads/bot/arbitrage/service/ArbitrageService.java:153 | defines BigDecimal rounding to a scale with HALF_UP on an exact value; the lemmas below state what it means |
| Decimal.RoundHalfUpCorrect | src/main/java/co/codingnomads/bot/arbitrage/service/ArbitrageService.java:153 | the result is n units of 10^-scale where no integer is nearer than n to the scaled value and a tie goes away from zero |
| Decimal.RoundHalfUpUnique | src/main/java/co/codingnomads/bot/arbitrage/service/ArbitrageService.java:153 | any result meeting that description is the one RoundHalfUp gives |
| Decimal.RoundHalfUpError | src/main/java/co/codingnomads/bot/arbitrage/service/ArbitrageService.java:153 | the rounded value is within half a unit of the last place of the exact one |
| Decimal.RoundHalfUpNegate | src/main/java/co/codingnomads/bot/arbitrage/service/ArbitrageService.java:153 | HALF_UP is symmetric about zero |
| Decimal.RoundHalfUpMono | src/main/java/co/codingnomads/bot/arbitrage/service/ArbitrageService.java:153 | rounding never reverses the order of two values |
| Text.Trim | src/main/java/co/codingnomads/bot/arbitrage/service/ArbitrageService.java:112-114 | defines String.trim(): characters at or below U+0020 removed from both ends; TrimEmptyIffBlank states when it is empty |
| Text.TrimEmptyIffBlank | src/main/java/co/codingnomads/bot/arbitrage/service/ArbitrageService.java:112-114 | `s.trim().isEmpty()` holds exactly when every character of s is at or below U+0020 |
| Text.NullOrBlankIff | src/main/java/co/codingnomads/bot/arbitrage/service/ArbitrageService.java:112-114 | the null-or-blank test holds exactly when s is null or consists only of characters at or below U+0020 |
| Text.JavaSplit | src/main/java/co/codingnomads/bot/arbitrage/websocket/HuobiWebSocketClient.java:159 | defines String.split on a one-character separator: the whole string when the separator is absent, otherwise the pieces with trailing empty ones removed; SplitThree and JoinPieces state it |
| Text.JoinPieces | src/main/java/co/codingnomads/bot/arbitrage/websocket/HuobiWebSocketClient.java:159 | joining the pieces back with the separator gives the string again |
| Text.SplitThree | src/main/java/co/codingnomads/bot/arbitrage/websocket/HuobiWebSocketClient.java:159-161 | splitting x.y.z, with no separator inside the three and z not empty, gives exactly [x, y, z] |
| Text.IntToStringRoundTrip | src/main/java/co/codingnomads/bot/arbitrage/exchange/huobi/HuobiWebSocketClient.java:87 | the decimal rendering of a long (%d) parses back to the same number |

## Left out

- Floating point: `asDouble`, `BigDecimal.valueOf(double)` and the `doubleValue()` compare in ArbitrageService are exact reals, so rounding by binary doubles is not captured.
- Integer widths: AtomicInteger counters, `long` timestamps and subtractions of clock readings are unbounded integers, with no wrap-around.
- Clocks: `System.currentTimeMillis()` readings are parameters (`now`, `binanceClock`, `huobiClock`).
- JSON and number parsing: Jackson's `readTree` and `new BigDecimal(String)` are not modelled. A decoder receives the parsed tree, or None when parsing threw, and a numeral carries its exact value.
- GZIP inflation: the inflated text is an input. GzipUtil keeps only its "" fallbacks. The private decompressGzip of websocket/HuobiWebSocketClient.java (it reads `bytes.array()` whole) is likewise an input.
- Concurrency: executors, the Huobi reconnect thread and ping Timer, ConcurrentHashMap and `synchronized` are modelled sequentially. Tasks, timers and threads are kept as records the environment runs.
- Socket I/O: `send` appends to an outbox, and `isOpen`, `isClosed` and the outcome of `reconnectBlocking` are parameters. `connect`, `close` and `setConnectionLostTimeout` are left out.
- Logging is left out, including the heartbeat branch at WebSocketClient.java:75-77 and the `logError` and `logWarning` helpers.
- Persistence: the two mappers are oracles. A parameter says whether an insert succeeds, and a query is given its reply, or None when it throws.
- Missing code: `ArbitrageService.checkForArbitrage(MarketData, MarketData)` and `startArbitrageMonitoring` have no definition in the repository. Calls of the former are recorded in `RealTimeArbitrageService.detections`.
- RealTimeArbitrageService's `init`, `destroy` and `initializeWebSocketConnections` are left out: they wire clients, schedulers and shutdown only.
- StreamingArbitrageService: the XChange plumbing (`initializeExchanges`, `connectToExchanges`, `subscribeToTickers` and the disconnects in stop) is reduced to a `setupOk` outcome. `checkArbitrage` is private and its calls are commented out, so nothing calls `CheckArbitrage` in the model.
- WebSocketArbitrageService, the bootstrap and UI classes, the poll-based fallback and the test and demo apps are not part of this model.
- The getters of MarketData and ArbitrageOpportunity are field reads in Dafny, with no methods of their own.
- `getExchangeName`, `waitForConnection` and `initializeReconnectExecutor` are not modelled: they only return a field or (re)create an executor. The `future` field holds the connection future's state.
- Non-ASCII case mapping: `toUpperCase` and `toLowerCase` map ASCII letters only.
- Exchange instances are abstract identities (`ExchangeRef`). The ticker callback is recorded as the sequence of tickers it was given.
- StreamClient.ExchangeWebSocketClient.RegisterMessageHandler: a handler is one of the client's own methods (its handleTickerUpdate or Huobi's handlePingMessage), not an arbitrary consumer.
- The Kraken rule of the dispatcher (an array of more than one element) is modelled in `TickerPayload`, but no venue decodes such a payload.
- Huobi's pong at websocket/HuobiWebSocketClient.java:118 is sent without an isConnected check. A send on a closed socket throws and is caught, and that failure is not modelled.
- HuobiExchangeClient.HuobiWebSocketClient.PingTimerFires: the socket library's reconnect() after a failed ping is counted in `libraryReconnects`; what that call does and the callbacks it fires are not modelled.
- ExchangeClient.ExchangeWebSocketClient.PerformReconnect: that a refused connection reports through onError and then onClose before `reconnectBlocking` returns is how the model orders the library's callbacks; the library is not part of this model.
- The constructor `new ArbitrageOpportunity(...)` takes six nullable arguments; ArbitrageService only ever passes non-null ones, which `Opportunity` builds directly.

## Findings

| source | as written | input that shows it | evidently intended | confidence | as-written member | corrected member |
|---|---|---|---|---|---|---|
| src/main/java/co/codingnomads/bot/arbitrage/exchange/ExchangeWebSocketClient.java:231-234 | performReconnect ignores the boolean that `reconnectBlocking()` returns and clears `isReconnecting` as if it had connected | reconnectBlocking returns false (the server refuses): the library's onError and onClose arrive while the flag is set and schedule nothing, then the flag is cleared, leaving a closed client with no pending reconnect | a refused connection is a failed attempt, retried like a throw (handleReconnectFailure) | not executed | ExchangeClient.RefusedReconnectStopsRetrying | ExchangeClient.RefusedReconnectIsRetried |
| src/main/java/co/codingnomads/bot/arbitrage/service/StatisticsService.java:67-69 | printFinalStats, commented as forcing one print, delegates to printStats, which prints only when more than 60 s have passed since the last report | shutdown within 60 s of the last report (or of start-up): no final statistics are logged | the final report is always emitted | not executed | StatisticsService.FinalStatsSkippedWhenRecent | StatisticsService.FinalStatsAlwaysLogged |
