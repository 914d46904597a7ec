# StockVerse core, modelled in Dafny

StockVerse is a gamified stock-market dashboard. This project models its
sequential logic and proves properties of it:

- **The quote client** (`MarketDataService`). It keeps a 30-second
  per-ticker cache of live quotes and answers the six-stock roster in
  roster order. A symbol whose fetch fails gets a synthetic quote, which
  is never cached. The client also builds daily price histories; a
  history that cannot be fetched is replaced by a synthetic random walk.
- **Single-stock trading on the dashboard page.** This covers the
  buy/sell handler with its guards and weighted average cost, the
  portfolio value (cash plus unrealised profit), and the trading panel's
  button conditions, share-count clamp and default props.
- **The mini-games.**
  - The decision game: stat effects, clamping, drawing questions without
    replacement, the adult phase's quota of ten answers a day with its
    24-hour reset, and the `hh:mm:ss` countdown.
  - The 10-Year Bet quiz and the stock-news quiz, with their
    one-answer guards and counters.
- **Sequence utilities of the charts and news widgets.**
  - Candles that open at the previous close, kept in 50-element windows.
  - The candlestick panel's vertical scale and label stride.
  - The rotating headline bar and the breaking-news carousel.
- **Small rankers and validators.**
  - The leaderboard: four distinct bots plus the player, ranked by cash.
  - The stats bars.
  - The profile editor's checks.
  - The chat panel's append-only message log.
- **The two Python back ends.**
  - A row iterator that wraps round the price table.
  - The latest-row and last-N-rows queries.
  - The Yahoo proxy's defaults and error statuses.
  - The chatbot's sliding window, whose cursor advances one row per
    request modulo the table length.
  - The chatbot's reply rules.

Each React handler is one atomic transition of a `class`, whose fields
are the component's state. Pure expressions are functions with lemmas.
Every `Math.random()` result is a `Draw`, a real in [0, 1), supplied by
the caller. A shuffle is any permutation: a sequence with the same
multiset. `Date.now()` is a parameter in milliseconds. Every network
outcome is an input datatype.

Money is modelled as a real. The decision game keeps its stats as
integers, and the leaderboard's cash values are integers too.
`Math.round(x * 100) / 100` is `Common.Round2`, defined as
floor(100x + 1/2) / 100.

Each source file has its own module:

| file | module |
|---|---|
| `src/services/marketData.ts` | `MarketData` |
| `src/pages/Index.tsx` | `TradingPage` |
| `PortfolioManager.tsx` | `PortfolioManager` |
| `FinancialGameModal.tsx` | `FinancialGame` |
| `TenYearBetGame.tsx` | `TenYearBet` |
| `StockNewsQuiz.tsx` | `StockNewsQuiz` |
| `StockChart.tsx` | `StockChart` |
| `RandomGraph.tsx` | `RandomGraph` |
| `NewsTicker.tsx` | `NewsTicker` |
| `NewsFlashModal.tsx` | `NewsFlash` |
| `FinancialLeaderboard.tsx` | `Leaderboard` |
| `FinancialDashboard.tsx` | `Dashboard` |
| `UserProfileModal.tsx` | `UserProfile` |
| `InvestmentAssistant.tsx` | `InvestmentAssistant` |
| `backend/server.py` | `StockServer` |
| `backend/chatbot_server.py` | `ChatbotServer` |

`Common` holds the shared helpers:

- `Option` and `Draw`;
- rounding;
- ASCII whitespace trimming;
- decimal numerals and two-digit padding;
- `LastN`, which models `slice(-n)` for n ≥ 1;
- small facts about integer division.

## Model

| member | source | states |
|---|---|---|
| Common.Round2 | src/services/marketData.ts:85-87 | `Math.round(x * 100) / 100` lies within half a cent of x, and it is a whole number of cents |
| Common.Trim | src/components/UserProfileModal.tsx:33-34 | `trim()` leaves a string without leading or trailing whitespace, cut out of the original string |
| Common.LastN | src/components/StockChart.tsx:61 | for n ≥ 1, `slice(-n)` keeps the last min(n, length) elements in order |
| MarketData.ExtractMeta | src/services/marketData.ts:65-74 | a response is usable exactly when it is `ok` and has `chart.result[0].meta`; anything else goes to the fallback |
| MarketData.LiveQuote | src/services/marketData.ts:76-92 | a live quote carries the display symbol and name, and price, change and change percent are within a rounding step of price, price − previous close and 100·change/previous close; volume, high, low and open are copied from the meta object |
| MarketData.BasePrice | src/services/marketData.ts:122-131 | the base price is one of the table's prices, or 150 for a symbol not in the table |
| MarketData.FallbackChange | src/services/marketData.ts:133-134 | the synthetic move is at most 1% of the base price either way |
| MarketData.FallbackQuote | src/services/marketData.ts:120-148 | a synthetic quote keeps the given symbol and name and opens at the base price; its price is the rounded max(5, base + change) and never below 5; the change is within 1% of base and the percent within ±1; volume lies in [500000, 1499999]; low ≤ unrounded price ≤ high |
| MarketData.FreshEntryAnswers | src/services/marketData.ts:56-59 | an entry younger than 30 000 ms is returned as it is, and the cache is not changed |
| MarketData.StaleEntryRefetched | src/services/marketData.ts:57-104 | at 30 000 ms or older the quote comes from the fetch: live when usable, synthetic otherwise |
| MarketData.FetchOutcomeOnCache | src/services/marketData.ts:95-104 | a successful fetch overwrites that ticker's entry with the new quote and its arrival time; a failed fetch leaves the cache unchanged and answers with the synthetic quote |
| MarketData.RosterSymbolsDistinct | src/services/marketData.ts:17-24 | the roster's tickers are distinct, and so are its display symbols |
| MarketData.AnswerLabelled | src/services/marketData.ts:82-84 | whatever the cache and the fetch outcome, a stock's quote carries its display symbol and name, and the cache stays labelled |
| MarketData.StoreUpToElsewhere | src/services/marketData.ts:95-98 | handling stocks never touches the entry of a ticker that was not handled |
| MarketData.RefreshStep | src/services/marketData.ts:54-59 | when the refresh reaches a stock, its answer is the one the starting cache would give, as in the concurrent original where every cache check happens before any write |
| MarketData.RefreshEntry | src/services/marketData.ts:54-107 | after a full refresh each ticker's entry is what handling that stock alone would leave, whatever order the fetches finish in |
| MarketData.StoreUpToLater | src/services/marketData.ts:95-98 | stocks handled later leave an earlier stock's entry alone |
| MarketData.SecondRefreshRepeats | src/services/marketData.ts:56-59 | a second refresh within 30 s of a cached or freshly fetched quote repeats that quote, whatever the network does the second time |
| MarketData.ExtractHistory | src/services/marketData.ts:163-175 | a history payload is used exactly when the response is `ok` and parses |
| MarketData.RawPoints | src/services/marketData.ts:177-179 | each timestamp is paired, in order, with its day and its close, where a missing close reads as 0 |
| MarketData.KeepPositive | src/services/marketData.ts:180 | the filter's output is no longer than its input, and every kept price is positive |
| MarketData.KeepPositiveExactly | src/services/marketData.ts:180 | a point is kept if and only if it is in the input with a positive price |
| MarketData.KeepPositiveAbove | src/services/marketData.ts:180 | filtering keeps every date at or above a bound that held before |
| MarketData.KeepPositiveKeepsOrder | src/services/marketData.ts:177-180 | filtering keeps points in ascending date order |
| MarketData.LiveHistoryInOrder | src/services/marketData.ts:177-180 | timestamps that arrive in order give a live history in date order |
| MarketData.DayOfMonotone | src/services/marketData.ts:178 | a later timestamp never falls on an earlier day |
| MarketData.WalkAtLeastFloor | src/services/marketData.ts:231-232 | the synthetic walk never drops below 50 once it has taken a step |
| MarketData.FallbackPriceAt | src/services/marketData.ts:236 | every synthetic day's rounded price is at least 50 |
| MarketData.DisplaySymbols | src/services/marketData.ts:183-199 | the keys of the history map are the stocks' display symbols, in order |
| MarketData.MapExtend | src/services/marketData.ts:198-200 | adding one stock's history under a new key keeps the earlier entries and adds exactly that key |
| MarketData.FallbackHistory | src/services/marketData.ts:221-241 | the synthetic history has exactly days + 1 points dated one day apart and ending today; each price is the rounded walk price, never below 50 |
| MarketData.StockHistory | src/services/marketData.ts:160-191 | one stock's history is the live filtered points when the fetch worked, and otherwise its own synthetic walk |
| MarketData.CollectHistories | src/services/marketData.ts:195-202 | the map has exactly one key per display symbol, and each holds that stock's own history |
| MarketData.MarketDataService.constructor | src/services/marketData.ts:31 | the cache starts empty |
| MarketData.MarketDataService.FetchAllStocksData | src/services/marketData.ts:52-113 | one quote per roster stock, in roster order, labelled with the display symbol and name; each is the answer from the cache before the refresh, from the fetch, or from the fallback; the cache ends as every stock's own update applied |
| MarketData.MarketDataService.FetchTechStockData | src/services/marketData.ts:115-118 | the result is exactly the TECH stock's quote of that refresh |
| MarketData.MarketDataService.ClearCache | src/services/marketData.ts:244-246 | the cache is empty afterwards |
| MarketData.MarketDataService.AllStocksHistoricalData | src/services/marketData.ts:157-202 | a history for each of the six display symbols and no other key; each is live when its fetch worked, and otherwise that stock's own synthetic walk |
| MarketData.MarketDataService.TechHistoricalData | src/services/marketData.ts:216-219 | the TECH history is the live one when its fetch worked; otherwise it is that stock's own synthetic walk: days + 1 points dated up to today, each priced at least 50 |
| TradingPage.ApplyTrade | src/pages/Index.tsx:119-155 | without a quote the trade is refused; a buy is refused if and only if n·price exceeds cash; a sell is refused if and only if n exceeds the shares held |
| TradingPage.BuyAccepted | src/pages/Index.tsx:131-141 | an accepted buy adds n shares and takes n·price from cash; the new shares × average equals old shares × old average + n·price; with no shares before, the average is the price |
| TradingPage.SellAccepted | src/pages/Index.tsx:143-153 | an accepted sell removes n shares, keeps the average even at zero shares, and adds n·price to cash |
| TradingPage.TradeKeepsNonNegative | src/pages/Index.tsx:125-153 | from non-negative cash, shares, average and price, an accepted trade leaves all of them non-negative |
| TradingPage.TradeMovesValue | src/pages/Index.tsx:107-153 | the portfolio value counts unrealised profit: a buy at the quote lowers it by the cost, a sell raises it by the shares' cost basis |
| TradingPage.WorkedTrades | src/pages/Index.tsx:119-155 | concrete trades: buying into an empty holding, averaging up, a partial sell, and a refused sell and buy |
| TradingPage.Page.constructor | src/pages/Index.tsx:90-96 | the page starts with name "You", 10000 cash, no holding and a portfolio value of 10000 |
| TradingPage.Page.HandleTechTrade | src/pages/Index.tsx:119-155 | the handler's outcome is `ApplyTrade` of the old state; an accepted trade installs the new holding and cash, and a refused one changes nothing; shares never go negative |
| TradingPage.Page.RecomputePortfolioValue | src/pages/Index.tsx:107-116 | the value becomes cash + shares·price − shares·average with a quote and shares, and the cash otherwise |
| TradingPage.Page.SaveProfile | src/pages/Index.tsx:347-351 | saving the profile sets the name and cash and resets the portfolio value to that cash |
| PortfolioManager.TotalValueAgreesWithPage | src/components/PortfolioManager.tsx:40-42 | the panel's total equals the page's portfolio value: userMoney + shares·price − shares·average with a quote and shares, and userMoney otherwise |
| PortfolioManager.ClampShares | src/components/PortfolioManager.tsx:114 | the share count is the parsed number when it is at least 1, and 1 otherwise (NaN, 0 or negative) |
| PortfolioManager.EstimatedAmount | src/components/PortfolioManager.tsx:142 | the amount shown is n·price, at least one share's price |
| PortfolioManager.ButtonsMatchHandler | src/components/PortfolioManager.tsx:121-134 | with a handler, buy is enabled if and only if the page's handler accepts the buy, and sell likewise; the amount shown is what moves between cash and holding; without a handler both are disabled |
| PortfolioManager.ResolveProps | src/components/PortfolioManager.tsx:33-35 | absent props become a holding of {0, 0} and 10000 cash; given props are kept |
| FinancialGame.TotalSeconds | src/components/FinancialGameModal.tsx:45 | ceil(max(0, ms)/1000): 0 for ms ≤ 0, else the least whole number of seconds covering ms |
| FinancialGame.FormatMsReadsBack | src/components/FinancialGameModal.tsx:44-53 | `formatMs` reads back as hh:mm:ss with hours·3600 + minutes·60 + seconds = the seconds left, minutes and seconds below 60, every field at least two digits |
| FinancialGame.FormatMsExpired | src/components/FinancialGameModal.tsx:44-53 | any ms ≤ 0 shows "00:00:00" |
| FinancialGame.ParseJoined | src/components/FinancialGameModal.tsx:49-52 | three numerals joined by colons read back as their numbers |
| FinancialGame.PaddedSmall | src/components/FinancialGameModal.tsx:50-51 | a number below 100, padded, is a two-digit numeral of that number |
| FinancialGame.ClockSplit | src/components/FinancialGameModal.tsx:46-48 | hours, minutes and seconds of a count of seconds add back up to it, minutes and seconds below 60 |
| FinancialGame.Set | src/components/FinancialGameModal.tsx:133-135 | the player with one stat replaced and every other stat and the name unchanged |
| FinancialGame.AddedPerStat | src/components/FinancialGameModal.tsx:132-136 | adding an effect moves each stat by exactly the total listed for it and keeps the name |
| FinancialGame.ClampStats | src/components/FinancialGameModal.tsx:137-141 | clamping puts happiness and health in [0, 100] and cash, literacy and debt at 0 or above; each stat is clamped on its own; stats already in range are unchanged |
| FinancialGame.AnswerOutcome | src/components/FinancialGameModal.tsx:131-143 | after an accepted answer every stat is its old value plus the effect's amount for it, clamped to its range |
| FinancialGame.ApplyEffect | src/components/FinancialGameModal.tsx:131-136 | the loop over the effect's keys computes `Added`, the specification of the per-key additions |
| FinancialGame.LiteracyAfter | src/components/FinancialGameModal.tsx:172-192 | a correct side-quiz answer raises literacy up to the cap of 100; a wrong one lowers it by 1 down to 0; literacy in [0, 100] stays there |
| FinancialGame.CorrectAnswerAboveCap | src/components/FinancialGameModal.tsx:172-181 | literacy above 100, which the decision game allows, is brought down to 100 by a correct quiz answer |
| FinancialGame.RemoveAt | src/components/FinancialGameModal.tsx:119 | filtering out index i keeps every other element in order and removes exactly one copy of the chosen one |
| FinancialGame.NextQuestion | src/components/FinancialGameModal.tsx:105-122 | the student phase with an empty list ends in congratulations; otherwise the drawn question is taken from the list, or from the adult bank when the list is empty, and the rest is the pool minus exactly that question |
| FinancialGame.DrawShrinksPool | src/components/FinancialGameModal.tsx:113-120 | drawing from a non-empty list takes one of its questions and shrinks it by one |
| FinancialGame.Game.constructor | src/components/FinancialGameModal.tsx:56-65 | initial state: the given player, student phase, no quota window, main mode |
| FinancialGame.Game.LoadNextQuestion | src/components/FinancialGameModal.tsx:105-122 | sets the question and the remaining events as `NextQuestion` says, or shows the congratulations, and changes nothing else |
| FinancialGame.Game.Open | src/components/FinancialGameModal.tsx:67-85 | opening resets player, phase, notices, quota and mode, takes the first ten of a shuffle of the student bank and draws from them |
| FinancialGame.Game.HandleAnswer | src/components/FinancialGameModal.tsx:124-158 | in the adult phase with 10 answers used, the answer is refused and only the limit notice changes; otherwise the clamped effect is applied and the next question drawn; an adult answer adds exactly 1 to the count and shows the notice at 10; a student answer never changes the count; the stored quota record is rewritten only by an adult answer while a reset time is armed |
| FinancialGame.Game.HandleContinueToAdult | src/components/FinancialGameModal.tsx:160-170 | the adult phase starts with the adult bank as its pool, a count of 0, and a reset time and stored record of now + 24 h |
| FinancialGame.Game.Tick | src/components/FinancialGameModal.tsx:88-103 | with a reset time set, the countdown shows the time left; at 0 the count goes back to 0, the notice is hidden and the next reset is now + 24 h; without a reset time nothing changes |
| FinancialGame.Game.HandleStockQuizAnswer | src/components/FinancialGameModal.tsx:172-181 | only literacy changes: +2 capped at 100, or −1 floored at 0 |
| FinancialGame.Game.HandleTenYearBetAnswer | src/components/FinancialGameModal.tsx:183-192 | only literacy changes: +1 capped at 100, or −1 floored at 0 |
| TenYearBet.CountCorrect | src/components/TenYearBetGame.tsx:48-56 | the number of correct records never exceeds the number of records |
| TenYearBet.CountCorrectAppend | src/components/TenYearBetGame.tsx:48-56 | appending a record adds 1 to the count exactly when it is correct |
| TenYearBet.ScoreTier | src/components/TenYearBetGame.tsx:72-78 | the message tier is chosen by percentage at 80, 60 and 40, each boundary stated in both directions |
| TenYearBet.PercentageAtLeast | src/components/TenYearBetGame.tsx:73 | a percentage of at least c is the same as 100·score ≥ c·total |
| TenYearBet.ScoreTierMonotone | src/components/TenYearBetGame.tsx:72-78 | a higher score never earns a worse message |
| TenYearBet.Progress | src/components/TenYearBetGame.tsx:38 | progress is in (0, 100] on a question, and reaches 100 exactly on the last |
| TenYearBet.ProgressStep | src/components/TenYearBetGame.tsx:38 | each further question moves the bar by 100/total |
| TenYearBet.Game.constructor | src/components/TenYearBetGame.tsx:28-34 | the game starts at the first question with nothing selected, counted or recorded |
| TenYearBet.Game.HandleAnswer | src/components/TenYearBetGame.tsx:40-59 | a second answer is ignored; otherwise the answer is correct if and only if it equals the question's answer, one record is appended, the count rises by 1 exactly when correct, the result is reported, and the count always equals the correct records |
| TenYearBet.Game.HandleNext | src/components/TenYearBetGame.tsx:61-70 | below the last question the index moves on and the selection, result and verdict are cleared; at the last the game completes with the index in range |
| TenYearBet.Game.FinalTier | src/components/TenYearBetGame.tsx:72-78 | the closing message is the top one exactly when at least 80% of the questions were answered correctly |
| StockNewsQuiz.PickQuestion | src/components/StockNewsQuiz.tsx:35-36 | a draw picks a question of the bank, at index floor(r·n) in [0, n) |
| StockNewsQuiz.EveryQuestionReachable | src/components/StockNewsQuiz.tsx:35 | every question of the bank is picked by some draw |
| StockNewsQuiz.Quiz.constructor | src/components/StockNewsQuiz.tsx:23-28 | the quiz starts with no question and zero counts |
| StockNewsQuiz.Quiz.LoadRandomQuestion | src/components/StockNewsQuiz.tsx:34-41 | a drawn question with selection, explanation and verdict cleared; counters unchanged |
| StockNewsQuiz.Quiz.HandleAnswer | src/components/StockNewsQuiz.tsx:43-57 | without a question nothing changes; otherwise the answer is correct if and only if it equals the question's answer; one is added to the question count, and one to the correct count exactly when correct, so the correct count never exceeds the question count |
| StockNewsQuiz.Quiz.HandleNextQuestion | src/components/StockNewsQuiz.tsx:59-61 | a new draw that keeps both counters |
| StockChart.TransformData | src/components/StockChart.tsx:30-41 | the candle opens at the previous close, or at its own value when it is the first, and closes at the new value; low ≤ min(open, close) ≤ max(open, close) ≤ high, with wicks under 2; range = high − low ≥ 0; ohlcDiff = abs(close − open); volume in [50, 549] |
| StockChart.AppendKeepsChained | src/components/StockChart.tsx:59-60 | appending a new candle keeps every candle opening at its predecessor's close |
| StockChart.SuffixKeepsChained | src/components/StockChart.tsx:61 | dropping old candles keeps the chain |
| StockChart.PushKeepsValid | src/components/StockChart.tsx:53-62 | append-then-keep-50 yields at most 50 well-formed chained candles, ending with the new one |
| StockChart.PointValue | src/components/StockChart.tsx:57 | the value is the close if truthy, else the value if truthy, else the open |
| StockChart.Chart.constructor | src/components/StockChart.tsx:25-27 | the chart starts empty, loading, without error |
| StockChart.Chart.FetchNextData | src/components/StockChart.tsx:43-71 | an HTTP error, a network error or an empty answer records the error and keeps the candles; otherwise the series becomes the last 50 of old + [new candle], with the new candle last and the series still valid |
| RandomGraph.Merge | src/components/RandomGraph.tsx:197-200 | the series after a poll is the last min(50, old + new) elements of old ++ new, in order |
| RandomGraph.MergeEndsWithIncoming | src/components/RandomGraph.tsx:197-200 | the freshly fetched points always end the series, or fill it when there are more than 50 |
| RandomGraph.BodyHeight | src/components/RandomGraph.tsx:57-58 | the body height is close − open for a green candle (close ≥ open) and open − close otherwise |
| RandomGraph.BodySpan | src/components/RandomGraph.tsx:58-59 | a body spans from the lower to the higher of open and close |
| RandomGraph.GetYScale | src/components/RandomGraph.tsx:23-25 | `getY` maps the highest high to row 0 and the lowest low to the chart height, is strictly decreasing, and keeps prices within the chart |
| RandomGraph.LabelStride | src/components/RandomGraph.tsx:108 | the stride is ceil(n/6) |
| RandomGraph.LabelIndices | src/components/RandomGraph.tsx:108 | the labelled indices are multiples of the stride, inside the series, and at most six |
| RandomGraph.LabelIndicesAreFilter | src/components/RandomGraph.tsx:108 | an index is labelled if and only if it is a multiple of the stride |
| RandomGraph.Panel.constructor | src/components/RandomGraph.tsx:129-131 | the panel starts empty and loading, mounted |
| RandomGraph.Panel.LoadInitialData | src/components/RandomGraph.tsx:171-185 | the first load replaces the series, or records the load error; nothing happens after unmounting |
| RandomGraph.Panel.PollUpdate | src/components/RandomGraph.tsx:190-207 | a poll merges the new points into at most 50, or records the update error; nothing happens after unmounting |
| RandomGraph.Panel.Unmount | src/components/RandomGraph.tsx:209-212 | unmounting stops further updates and changes no data |
| NewsTicker.Tick | src/components/NewsTicker.tsx:17-22 | a tick turns [h] ++ t into t ++ [h]; an empty list stays empty; an empty-string head is dropped |
| NewsTicker.TickPermutes | src/components/NewsTicker.tsx:18-21 | over non-empty headlines a tick keeps the length and the multiset |
| NewsTicker.TicksRotate | src/components/NewsTicker.tsx:17-22 | k ticks, k ≤ n, move the first k headlines to the back in order |
| NewsTicker.FullCycle | src/components/NewsTicker.tsx:17-22 | n ticks over n headlines restore the original order |
| NewsTicker.EmptyHeadDropped | src/components/NewsTicker.tsx:19-20 | an empty head is removed for good: one shorter, one empty string fewer |
| NewsTicker.Rendered | src/components/NewsTicker.tsx:36 | the bar renders the list twice in a row, 2n items |
| NewsTicker.Ticker.constructor | src/components/NewsTicker.tsx:3-13 | the bar starts with the six fixed headlines |
| NewsTicker.Ticker.Step | src/components/NewsTicker.tsx:16-23 | the shift-and-push callback computes `Tick` of the old list |
| NewsFlash.Next | src/components/NewsFlashModal.tsx:65 | the forward step goes from i to i + 1 and wraps the last index to 0, staying in [0, n) |
| NewsFlash.Prev | src/components/NewsFlashModal.tsx:163 | the backward step goes from i to i − 1 and wraps 0 to n − 1 |
| NewsFlash.NextPrevInverse | src/components/NewsFlashModal.tsx:163-176 | prev after next and next after prev are the identity, and prev stays in range |
| NewsFlash.StepsModular | src/components/NewsFlashModal.tsx:62-68 | k timer steps from i land on (i + k) mod n |
| NewsFlash.FullRound | src/components/NewsFlashModal.tsx:62-68 | n steps over n headlines return to the start |
| NewsFlash.ImpactColor | src/components/NewsFlashModal.tsx:76-83 | High, Medium and Low map to red, yellow and green, and anything else to grey |
| NewsFlash.Dots | src/components/NewsFlashModal.tsx:145-153 | dot i is highlighted if and only if i is the current index |
| NewsFlash.OneDotLit | src/components/NewsFlashModal.tsx:145-153 | exactly one dot is highlighted when the index is in range |
| NewsFlash.Carousel.constructor | src/components/NewsFlashModal.tsx:57-58 | the carousel starts at the first headline, not animating |
| NewsFlash.Carousel.StartStep | src/components/NewsFlashModal.tsx:62-63 | a requested step, from the timer or either button, starts the animation and keeps the index |
| NewsFlash.Carousel.FinishNext | src/components/NewsFlashModal.tsx:64-67 | a forward step lands on `Next` of the index, in range, animation off |
| NewsFlash.Carousel.FinishPrev | src/components/NewsFlashModal.tsx:162-165 | a backward step lands on `Prev` of the index, in range, animation off |
| Leaderboard.FakeNamesDistinct | src/components/FinancialLeaderboard.tsx:5 | the ten fake names are distinct |
| Leaderboard.PermutationKeepsDistinct | src/components/FinancialLeaderboard.tsx:41 | a shuffle of distinct names has no repeats |
| Leaderboard.Bots | src/components/FinancialLeaderboard.tsx:40-47 | there are exactly four bots |
| Leaderboard.BotsFromDistinctNames | src/components/FinancialLeaderboard.tsx:41-46 | bots from a shuffle of distinct names have ids "bot-i", names from the list with no two the same, cash in [0, 4999], and none is the player |
| Leaderboard.BotsWellFormed | src/components/FinancialLeaderboard.tsx:40-47 | the board's four bots have distinct fake names and cash in [0, 4999] |
| Leaderboard.YouEntry | src/components/FinancialLeaderboard.tsx:59 | the player's entry has cash max(0, player cash), or 0 without a player |
| Leaderboard.InsertAdds | src/components/FinancialLeaderboard.tsx:61 | inserting adds exactly that entry |
| Leaderboard.InsertRanks | src/components/FinancialLeaderboard.tsx:61 | inserting into a ranked list keeps it ranked by cash |
| Leaderboard.SortByCashRanks | src/components/FinancialLeaderboard.tsx:61 | the sort orders by non-increasing cash and is a permutation |
| Leaderboard.EntriesAreRankedBotsAndYou | src/components/FinancialLeaderboard.tsx:56-62 | the board is exactly the four bots and the player's entry, five in all, ranked by cash, with the player's entry the only one marked as theirs |
| Leaderboard.GetRankIcon | src/components/FinancialLeaderboard.tsx:32-37 | icons exist for ranks 1, 2 and 3 only: trophy, medal, award |
| Dashboard.Capped | src/components/FinancialDashboard.tsx:18 | `capped` lies in [0, max], is the identity on [0, max], and maps an absent value to 0 |
| Dashboard.CappedIdempotent | src/components/FinancialDashboard.tsx:18 | capping twice is capping once |
| Dashboard.BarsShowClampedStats | src/components/FinancialDashboard.tsx:55-71 | on clamped stats the happiness and health bars show the stats exactly, and the literacy bar shows literacy up to 100 |
| Dashboard.DisplayedDebt | src/components/FinancialDashboard.tsx:31 | the debt shown is never negative and is the debt when that is not negative |
| Dashboard.DebtBar | src/components/FinancialDashboard.tsx:34 | the debt bar lies in [0, 100] and is within rounding of abs(debt)/10 000 up to a debt of one million |
| Dashboard.CashBar | src/components/FinancialDashboard.tsx:45 | the cash bar is at most 100, is full from 1000 cash up, and is within rounding of cash/10 below that |
| Dashboard.BarsMonotone | src/components/FinancialDashboard.tsx:34-45 | more cash never shortens the cash bar, and more debt never shortens the debt bar |
| UserProfile.BlankNameRejected | src/components/UserProfileModal.tsx:33 | a whitespace-only name never passes the save test |
| UserProfile.SavedNameIsTrimmed | src/components/UserProfileModal.tsx:34 | the saved name starts and ends with something other than whitespace, and trimming it again changes nothing |
| UserProfile.Editor.constructor | src/components/UserProfileModal.tsx:23-25 | the fields start as the page's values, marked valid |
| UserProfile.Editor.Resync | src/components/UserProfileModal.tsx:27-30 | name and money are copied from the page again |
| UserProfile.Editor.HandleSave | src/components/UserProfileModal.tsx:32-40 | a save succeeds if and only if the trimmed name is non-empty and money ≥ 0; it hands over the trimmed name and the money; a failed save hands nothing over and marks the form invalid |
| UserProfile.Editor.ValidityTimeout | src/components/UserProfileModal.tsx:38 | after the timeout the form is valid again |
| UserProfile.Editor.HandleMoneyChange | src/components/UserProfileModal.tsx:42-49 | a non-negative number is taken, an empty field becomes 0, anything else is ignored; money that was ≥ 0 stays ≥ 0, and no upper bound is applied |
| InvestmentAssistant.AppendKeepsAnswered | src/components/InvestmentAssistant.tsx:16-19 | appending a user message and the canned reply keeps every user message answered |
| InvestmentAssistant.SendRecordsUserText | src/components/InvestmentAssistant.tsx:16-19 | a send records the user's text, untrimmed, as their latest message |
| InvestmentAssistant.Assistant.constructor | src/components/InvestmentAssistant.tsx:7-11 | the log starts with exactly the greeting, the input empty, the panel closed |
| InvestmentAssistant.Assistant.Toggle | src/components/InvestmentAssistant.tsx:79 | the round button flips the panel open or closed |
| InvestmentAssistant.Assistant.Close | src/components/InvestmentAssistant.tsx:37 | the header button closes the panel |
| InvestmentAssistant.Assistant.SetMessage | src/components/InvestmentAssistant.tsx:65 | typing sets the input and nothing else |
| InvestmentAssistant.Assistant.HandleSend | src/components/InvestmentAssistant.tsx:13-21 | a blank input changes nothing; otherwise the untrimmed text and the canned reply are appended, the earlier log stays an unchanged prefix, and the input is cleared |
| StockServer.ReadingOf | backend/server.py:49-52 | a reading's time is the row's date and its value is the row's open |
| StockServer.Tail | backend/server.py:91 | `df.tail(limit)` is a suffix of the rows: the last min(limit, n) for a non-negative limit, and all but the first −limit for a negative one |
| StockServer.GetStockData | backend/server.py:84-96 | the body reports success, its count equals the rows returned, and the rows are the tail for the limit (50 when absent) |
| StockServer.DefaultLimit | backend/server.py:85-96 | with no limit the body holds the last min(50, n) rows |
| StockServer.Params | backend/server.py:111-114 | interval and range are forwarded from the query, defaulting to "1m" and "1d" |
| StockServer.ProxyOutcome | backend/server.py:128-152 | as written: timeout → 504, other transport error → 502, an upstream status other than 200 → 500; the body is returned if and only if the upstream answered 200 with JSON |
| StockServer.UpstreamNotFoundBecomes500 | backend/server.py:128-152 | an upstream 404 reaches the caller as 500 |
| StockServer.IntendedProxyOutcome | backend/server.py:128-130 | the corrected proxy passes the upstream error status through and agrees with the original elsewhere |
| StockServer.IntendedDiffersOnUpstreamErrors | backend/server.py:128-152 | the original and the corrected proxy differ exactly on upstream errors other than 500 |
| StockServer.IteratorStep | backend/server.py:47-62 | after k answered calls the iterator, restarted if exhausted, yields row k mod n |
| StockServer.Server.constructor | backend/server.py:34-37 | the iterator starts at the first row and there is no current row |
| StockServer.Server.NextData | backend/server.py:39-64 | the k-th call (from 0) returns row k mod n as its date and open, wrapping after the last row, and records it as the current row; with no rows the call fails with 500 |
| StockServer.Server.CurrentData | backend/server.py:66-75 | before any call there is no reading; afterwards it is the row the latest call returned |
| ChatbotServer.PointOf | backend/chatbot_server.py:66-73 | each row becomes a point with time = date and the OHLC and volume copied |
| ChatbotServer.Points | backend/chatbot_server.py:64-73 | the conversion gives one point per row, in order |
| ChatbotServer.LimitOr50 | backend/chatbot_server.py:54 | the limit is the given whole number, or 50 |
| ChatbotServer.WindowForLimit | backend/chatbot_server.py:57-61 | for limit ≥ 0 the window is the rows from the cursor, min(limit, n − cursor) of them, in order |
| ChatbotServer.WindowForNegativeLimit | backend/chatbot_server.py:57-61 | for a negative limit the window is empty unless the end falls before the table's front, in which case it wraps from the back |
| ChatbotServer.MinusOneFromFront | backend/chatbot_server.py:57-61 | at cursor 0 a limit of −1 returns every row except the last |
| ChatbotServer.ChatServer.constructor | backend/chatbot_server.py:39 | the cursor starts at 0 |
| ChatbotServer.ChatServer.GetStockData | backend/chatbot_server.py:49-78 | the k-th request (from 0) returns the points of the window starting at row k mod n, and the cursor advances by exactly 1 mod n whatever the limit; with no rows it fails with 500 |
| ChatbotServer.RespondCases | backend/chatbot_server.py:80-116 | a blank or missing message gets the fixed prompt without consulting the model; otherwise a model failure gets the fixed apology, and a success gets the model's trimmed text |
| ChatbotServer.FixedRepliesTrimmed | backend/chatbot_server.py:83-116 | the two fixed replies neither start nor end with whitespace |
| ChatbotServer.ReplyIsTrimmed | backend/chatbot_server.py:83-116 | no reply starts or ends with whitespace |

## Left out

- Network I/O is not modelled: every fetch is an input value. This covers `fetchWithTimeout` and its abort timer in `marketData.ts`, the proxy's outbound call and CORS setup, and the Gemini call and HTML templates of the chatbot.
- Timers are not modelled as such. Each interval or timeout callback is a method the caller invokes: `Tick`, `PollUpdate`, `Step`, `FinishNext`, `FinishPrev` and `ValidityTimeout`.
- Random distributions are not modelled. Each `Math.random()` result is a `Draw` parameter in [0, 1), and every shuffle is an arbitrary permutation.
- Floating point is not modelled: money and prices are exact reals, so IEEE rounding, NaN and infinities do not arise. `PercentOf` gives 0 when the previous close is 0, where the source would produce NaN or Infinity.
- Date and locale formatting are not modelled: `toISOString`, `toLocaleTimeString` and `Intl.NumberFormat`. History dates are day numbers; the synthetic history counts back from a `today` parameter.
- `localStorage` is a field holding the last record written; reading it back on load is not part of the source's logic here.
- The outer `try`/`catch` blocks of `fetchAllStocksData` and `getAllStocksHistoricalData` are not modelled. The inner handlers catch every error, so the outer fallbacks cannot be reached.
- MarketData.MarketDataService.FetchAllStocksData: one `now` stands for every cache check of a refresh. Each successful fetch carries its own arrival time.
- TradingPage.ApplyTrade: requires n ≥ 1 and a non-negative holding. The share-count input never passes fewer than one share, and no trade makes shares negative.
- FinancialGame.Game.HandleAnswer: effect keys that are not numeric stats are skipped. This includes `name`, to which the source would concatenate a number. Player stats are integers.
- FinancialGame.Game.Tick: one clock reading is used for both the time left and the next reset time.
- Common.Trim: whitespace is the ASCII set. JavaScript `trim()` and Python `strip()` also remove other Unicode spaces.
- PortfolioManager.ClampShares: `parseInt` is modelled by what it returns, as a parameter.
- UserProfile.Editor.HandleMoneyChange: `parseFloat` is modelled by what it returns, as a parameter.
- Leaderboard.SortByCashRanks: states order and permutation. Stability is built into the definition but is not stated as a property.
- RandomGraph.GetY: requires max > min. With a flat series the source divides by zero.
- Rendering with empty data is not modelled.
- StockChart.Chart.FetchNextData: the `responseData.data || responseData` fallback is not modelled; the answer is already the list of points.
- StockServer.ProxyOutcome: the `detail` strings of the error responses are not modelled.
- ChatbotServer.RespondCases: the Gemini prompt text is not modelled, nor a request body that is not JSON, nor a non-string message.
- ChatbotServer.LimitOr50: a `limit` that is not a whole number falls back to 50, as Flask's `type=int` does.
- TenYearBet.Game.constructor: requires a non-empty question bank. The game indexes its first question at once.
- The theme switcher, the tutorial, the chat client, the polling hooks and the purely presentational components are outside this model. So are the development and deployment scripts.

## Findings

| source | as written | input that shows it | evidently intended | confidence | as-written member | corrected member |
|---|---|---|---|---|---|---|
| backend/server.py:128-152 | the `HTTPException` raised for an upstream non-200 status is caught by the generic `except Exception` handler and re-raised as 500 | upstream answers 404 | the upstream status (404) reaches the caller | not executed | StockServer.ProxyOutcome, StockServer.UpstreamNotFoundBecomes500 | StockServer.IntendedProxyOutcome, StockServer.IntendedDiffersOnUpstreamErrors |
