# A verified model of the trading research system

The program finds and replays trading opportunities on a binary-contract exchange. A contract pays $1
or nothing; prices are ticks of 1/10000 dollar, quantities are hundredths of a contract, and their
product is an exact number of micro-dollars. Everything the program computes exactly is modelled here in
Dafny, with its arithmetic as it is: integers unbounded, floor division where Python floors, fees and
queue shares as exact rationals.

The model follows the program's own components.

* **Exchange simulator** (`Engine`, `EngineGrowth`, `EngineInvariant`, `EngineSafety`, `EngineTurns`,
  `SafeRuns`, `Causality`, `Latency`, `Notices`, `Requests`, `Hearing`, `FedMarkets`, `Standing`, `OrderStatus`,
  `Arrivals`, `PrintBudget`, `PrintTurns`, `TakerLeg`, `BuyingPower`, `LogLedger`, `Backtest`, with `Fills`,
  `QueueTape` and `Portfolio`). `Engine` gives the replay as a step relation over the engine's state, for an arbitrary
  deterministic strategy `(state, view, stimulus) -> (state, requests)`; a run is any number of turns,
  since a strategy may wake itself for ever. `Backtest` is the imperative engine, proved to take exactly
  those turns. The claims about runs (no look-ahead, solvency, ledger balance, no overfilling, clock,
  latency, sharing of prints) are theorems about every reachable state.
* **No-arbitrage compiler** (`Relationships`, `NoArbitrage`, `LadderScan`): relations over 0/1 worlds,
  the buy-only constraints they compile to, and the equivalence of "no constraint violated" with the
  existence of a distribution inside the quotes.
* **Execution and detection** (`OrderBooks`, `Fees`, `Execution`, `Sizing`, `Detector`, `BundleReplay`):
  walking the book, the size optimum although profit is not concave, the detector, and its agreement with
  the engine when a bundle is sent.
* **Interval reasoning** (`Intervals`, `InferredRelations`): what strikes and rules text prove.
* **Incremental index** (`Scanner`, `Episodes`): when it equals a full rescan, and the life of an episode.
* **Market maker** (`MarketMaker`, `QuoteProtocol`, `CancelOnce`, `KillSwitch`, `Quoting`): the cancel/replace protocol on top of the engine.
* **Isotonic calibration** (`Calibration`): pool-adjacent-violators and its least-squares optimality.

`Units`, `Sorting` and the module `MapSums` hold what the components share. Objects whose methods update
fields are classes with those fields; the functions their contracts name are the specification the
theorems are about. Exceptions are an `error` in the state or a `None`; the first one ends the run.

Three claims of the program's documentation hold only under a condition, which is proved exact.

* Buying power (`backtest/engine.py:13`) leaves fees out of the purchase check and out of the reservation
  of a resting order: a run never falls short if and only if every fee, taker or maker, is covered when it
  is charged (`BuyingPower.BuyingPowerOverRuns`; `TakerLeg.FeesOutrunCash` and
  `BuyingPower.MakerFeesOutrunCash` fall short).
* Downward half-lines with equal ends of different closedness are ordered the wrong way round
  (`market/semantics.py:331`): `InferredRelations.DownChainExactly`, `InferredRelations.TieExample`.
* The incremental index differs from a rescan after recording gaps and after closes on a market outside
  the violated constraint: `ScanIndex.IncrementalExactly`, `ScanIndex.CloseDrifts`, `ScanIndex.GapDrifts`.

## Model

| member | source | states |
|---|---|---|
| Causality.NoLookAhead | backtest/engine.py:324-362 | For every list of events, deterministic strategy, configuration and cut T, after any number of turns the run on the whole feed and the run on the feed truncated at T have submitted the same orders and executed the same fills up to T |
| Causality.TogetherStep | backtest/engine.py:330-362 | With equal engine states and feeds that agree up to the cut, either both runs take the same turn, despite the one-event peek and same-instant batching, or both have only later times ahead of them |
| Causality.PastStep | backtest/engine.py:330-362 | A turn taken after the cut leaves the orders and fills up to the cut as they were, whatever it does |
| Engine.ListFeedLaws | backtest/feed.py:41-52 | A list feed is sorted by time and priority, is a rearrangement of what it was given, and truncating it is dropping the later events, or never having given them |
| Engine.InstantOrder | backtest/events.py:15-40 | In a list feed events come by time, and at one instant settlements first, then closes, then books and polls, then prints |
| Hearing.StrategyHearsFeed | backtest/engine.py:330-355 | Over any run without an error, a strategy that keeps a record has been told of exactly the events that have come out of the feed and that it can hear, each once and in the feed's order |
| Hearing.StrategySeesTruly | backtest/engine.py:330-362 | Whenever it is called after the start, the strategy sees each market exactly as the feed up to that instant has it, and is called about an event at the event's own time, with every book updated at that instant just as it was sent |
| Hearing.BatchTold | backtest/engine.py:354-355 | Told of a batch without an error, the strategy hears of exactly its audible events, in order, the state unchanged in between |
| Hearing.OneCall | backtest/engine.py:178-243 | A call is shown the engine's state as it is, and what it asks for changes none of what later calls are shown at that instant |
| FedMarkets.EventFed | backtest/engine.py:383-416 | Each event leaves every market as the events so far say, and a market whose book it updates displays the YES levels it sends as YES bids and the NO levels as NO bids |
| FedMarkets.ArrivalFed | backtest/engine.py:481-488 | An arriving order leaves the markets as the feed has them, but for what it takes off its own book |
| Notices.TurnsInOrder | backtest/engine.py:330-358 | At every instant the feed's events come before all messages, and each turn takes the least message by time, then kind, then age |
| Requests.CallHonoured | backtest/engine.py:280-310 | Every request of a call that meets no error is honoured: an order goes on record as sent and on its way for the submission latency, a cancel for the cancel latency, a wake for its time |
| Requests.NothingUnasked | backtest/engine.py:280-310 | Nothing else goes on the queue on a strategy's account |
| Requests.DeliveredByThen | backtest/engine.py:355-358 | No message is lost: once the clock is past its time, some turn has taken it off the queue and acted on it |
| Requests.TakenMeans | backtest/engine.py:438-450 | A cancel, in its turn, leaves its order nowhere on the book and every other as it was; a notice or a wake is told at its own time |
| Standing.OldestFirst | backtest/engine.py:492-512 | In every reachable state each market's resting orders stand in the order they were submitted, before all still on their way, and the strategy is shown every market it has an order in |
| OrderStatus.StatusTellsTruth | backtest/engine.py:452-592 | In every reachable state the status on each record is true: submitted while under way, resting or partial while on the book, and afterwards filled, partial, rejected, cancelled or expired as the order was |
| Arrivals.TurnedAwayOutcome | backtest/engine.py:452-480 | An order turned away by the checks is marked rejected, will be heard of the acknowledgement latency later, and changes nothing else |
| Arrivals.AcceptedMeans | backtest/engine.py:481-512 | An accepted order's fills are bought and logged with their shares of the fee, and its remainder stands in full at the back of its market's list, behind the floored share of the displayed size, or is gone if it may not rest |
| Arrivals.MarketableMeans | backtest/engine.py:473-478 | An order is marketable exactly if some displayed ask is within its limit |
| Arrivals.TakerGets | backtest/fills.py:94-115 | At every price up to its limit a taker's fills come to all it asked for or all that can be had there, haircuts included, whichever is less |
| Arrivals.ArrivalTakes | backtest/engine.py:482-484 | ... from its market's own book, and nothing if that was last heard of longer ago than allowed |
| LogLedger.AccountIsTheLog | research/market_making_analysis.py:16-19 | In every reachable state, at any settlement values the feed agrees with, the account is worth exactly the opening cash and what the logged fills paid, cost and will pay; and the fees paid are the fees logged |
| PrintTurns.PrintReachesEach | backtest/engine.py:422-435 | Every resting order has its turn with a print, in the order they stand: sold below its price it is filled whole, at its price it is served what those before it have left, otherwise it stays as it was |
| PrintTurns.BookReachesEach | backtest/engine.py:400-403 | Every resting order is shown a new book: filled whole if crossed, otherwise left with what it had and moved up as its queue allows |
| QueueTape.CountersReadTape | backtest/fills.py:151-178 | While an order is open its counters are what the tape says: the contracts sold at its price since the last snapshot, and the size that snapshot displayed |
| QueueTape.JoinsBehind | backtest/fills.py:145-149 | An order joins behind the floored share of the size displayed at its price |
| QueueTape.PrintMeans | backtest/fills.py:151-165 | A print below the order's price fills it whole, one at its price serves those ahead first and then the order, any other changes nothing |
| QueueTape.SnapshotMeans | backtest/fills.py:167-178 | A snapshot that crosses the order fills it whole; any other moves it up by the floored cancel share of the fall in size that prints do not explain, never past the front nor behind more than is displayed |
| QueueTape.PlaceLessPrints | backtest/fills.py:151-165 | Between snapshots the place ahead is the last place less the contracts sold at the price |
| QueueTape.ExplainedFall | backtest/fills.py:173-178 | Where prints explain the whole fall in the displayed size, a snapshot credits no cancellations |
| Latency.OrdersTakeEffectOnTime | backtest/engine.py:10-12 | In every reachable state an order whose latency has not passed is still under way, unfilled and not resting; once the clock is past it, it has arrived |
| Notices.FillsHeardOnTime | backtest/engine.py:10-12 | In every reachable state a fill's notice is under way, due exactly the acknowledgement latency after the fill, until the clock reaches it, and gone once the clock is past it; and no notice is of a fill that did not happen |
| Notices.HeardAtItsTime | backtest/engine.py:448-449 | The turn that takes a fill's notice off the queue tells the strategy of it, with the clock at the fill's time plus the latency |
| SafeRuns.Solvency | backtest/engine.py:461-592 | In every reachable state reservations are price times remainder for exactly the resting orders, and cash plus fees paid covers their sum, so available cash is short by fees alone |
| SafeRuns.LedgerBalances | backtest/portfolio.py:11-15 | In every reachable state cash plus open cost is opening cash plus realised less fees, at most one side is held, and its cost is between nothing and $1 a contract |
| SafeRuns.NeverOverfilled | backtest/engine.py:515-580 | In every reachable state logged fills plus what still rests never exceed an order's quantity (and add up to it while it rests), each fill on the order's own market and side within its limit |
| SafeRuns.ClosedMeansEmpty | backtest/engine.py:405-413 | In every reachable state a closed or settled market has no resting order, and each market's list holds just its own orders, each once |
| SafeRuns.ClockForward | backtest/engine.py:330-358 | Over any run on a feed in order the clock never runs backwards |
| SafeRuns.StoppedFromOutside | backtest/engine.py:274-341 | A run on a feed in order stops only by the strategy's own request or a malformed snapshot; a purchase is never refused by the portfolio |
| SafeRuns.FeedBackwardsExactly | backtest/engine.py:338-341 | On a feed in order the backwards error is reached if and only if the feed opens before time zero |
| SafeRuns.StepKeeps | backtest/engine.py:330-362 | One turn of the main loop keeps the whole invariant, for any strategy |
| EngineTurns.EventKeeps | backtest/engine.py:383-416 | Applying any feed event keeps the invariant and can fail only on a malformed snapshot |
| EngineTurns.CloseKeeps | backtest/engine.py:405-413 | A closing market sheds all its resting orders and only those |
| EngineTurns.ArrivalKeeps | backtest/engine.py:461-512 | An arriving order, rejected, filled, rested or any mixture, keeps the invariant and raises nothing |
| EngineTurns.RecordFillsKeeps | backtest/engine.py:515-544 | Booking an order's fills spends no more, fees aside, than was set aside for them at the limit |
| EngineTurns.TakeKeeps | backtest/engine.py:481-491 | The taker leg books the fills, counts them on the record and leaves the money for the remainder set aside |
| EngineTurns.FeeStep | backtest/engine.py:515-521 | A floored share of the fee is not negative and leaves enough for the shares still to come |
| EngineSafety.MakerFillKeeps | backtest/engine.py:546-580 | A maker fill is paid from its own reservation and keeps the invariant |
| EngineSafety.MatchKeeps | backtest/engine.py:422-435 | Showing a print to all resting orders keeps the invariant and raises nothing |
| EngineSafety.ShowKeeps | backtest/engine.py:400-403 | Showing a new book to all resting orders keeps the invariant and raises nothing |
| EngineSafety.DropAllKeeps | backtest/engine.py:588-592 | Dropping a list of orders removes exactly those and keeps the rest of the state sound |
| EngineSafety.SubmitKeeps | backtest/engine.py:280-298 | Submitting an order keeps the invariant; only an unlisted market is an error |
| PrintBudget.PrintSharedOnce | backtest/engine.py:422-435 | Over all our orders resting at a print's price, the fills it gives and the queue places it clears come to between nothing and its count |
| PrintBudget.OneTurn | backtest/engine.py:425-433 | One order's turn with a print uses no more than what is left of the level's budget and takes just that off it |
| TakerLeg.FeeSplit | backtest/engine.py:515-521 | Splitting an order's fee over its fills gives floored proportional shares, none negative, adding up to the fee |
| TakerLeg.RecordFillsIs | backtest/engine.py:515-544 | With the market unsettled, every fill is bought and logged once, with its share of the fee, and only fill notices are scheduled |
| TakerLeg.ArrivalSpends | backtest/engine.py:461-512 | What an accepted order does to available cash: its fills, their fee, the reservation of what rests, and the dollars netting pays back |
| TakerLeg.BuyingPowerExactly | backtest/engine.py:468-470 | One arrival: an accepted order leaves no shortfall, whatever the account holds, if and only if what the order leaves of the available cash covers its fee, which the purchase check leaves out |
| TakerLeg.FeesOutrunCash | backtest/engine.py:13 | A concrete account and order that pass the check and leave available cash below zero, by exactly the fee |
| BuyingPower.BuyingPowerOverRuns | backtest/engine.py:13 | Over any run, at no instant is less than nothing available if and only if every fee charged, on arrival or on a maker fill, is covered by what is available when it is charged |
| BuyingPower.TurnExactly | backtest/engine.py:330-362 | A turn that begins without a shortfall has none at any instant if and only if each fee it charges is covered when it is charged |
| BuyingPower.MakerFillSpends | backtest/engine.py:546-580 | A maker fill takes its fee, and nothing else, out of the cash available, and adds what netting pays back |
| BuyingPower.MakerFillLogs | backtest/engine.py:546-570 | A maker fill is bought and logged once, at the order's own price, as a maker's, with the maker's fee |
| BuyingPower.HitExactly | backtest/engine.py:546-580 | A maker fill leaves a shortfall if and only if the cash available and what netting pays back do not cover its fee |
| BuyingPower.ArrivalExactly | backtest/engine.py:461-512 | An arriving order, turned away or accepted, leaves a shortfall if and only if it is accepted and its fee is not covered by what it leaves |
| BuyingPower.OtherEvents | backtest/engine.py:383-416 | Closes, settlements, poll confirmations, unlisted markets and malformed snapshots never lower the cash available |
| BuyingPower.OtherMessages | backtest/engine.py:438-450 | Cancels, notices, wakes and the strategy calls they bring never lower the cash available |
| BuyingPower.MakerFeesOutrunCash | backtest/engine.py:546-553 | A concrete resting order that is accepted, is charged nothing on arrival, and when a print sweeps it leaves available cash below zero by the maker fee |
| Backtester.RunBacktest | backtest/engine.py:595-601 | A new engine object run on a feed ends in the state the step relation reaches, and stops early only when the run is over |
| Backtester.Backtest.constructor | backtest/engine.py:247-271 | A new engine is in the initial state |
| Backtester.Backtest.Run | backtest/engine.py:324-362 | The main loop takes exactly the turns of the step relation, up to a given number |
| Backtester.Backtest.Turn | backtest/engine.py:330-360 | One pass of the loop is one step: the feed's next instant if it comes no later than the least message, else that message |
| Backtester.Backtest.TakeFeed | backtest/engine.py:335-354 | A pass that takes the feed applies one instant, or raises if that instant is past |
| Backtester.Backtest.TakeMessage | backtest/engine.py:355-358 | A pass that takes a message pops the least by time, priority and sequence and dispatches it at its time |
| Backtester.Backtest.FeedBatch | backtest/engine.py:345-353 | All events of one instant are applied before the strategy sees any of them |
| Backtester.Backtest.Push | backtest/engine.py:274-278 | Scheduling keeps the queue in time, priority and sequence order and adds just the message |
| Backtester.Backtest.Schedule | backtest/engine.py:274-278 | A message is scheduled under the next sequence number, or refused if its time is past |
| Backtester.Backtest.Submit | backtest/engine.py:280-298 | A submission records the order and schedules its arrival after the latency |
| Backtester.Backtest.RequestCancel | backtest/engine.py:300-303 | A cancel request only schedules the cancel |
| Backtester.Backtest.CallStrategy | backtest/engine.py:178-243 | A strategy call sees the state as of now and has its requests carried out in order, up to the first error |
| Backtester.Backtest.RemoveResting | backtest/engine.py:582-586 | Removing an order takes it off its market's list and releases its reservation |
| Backtester.Backtest.DropResting | backtest/engine.py:588-592 | Dropping an order marks it and removes it |
| Backtester.Backtest.SumReserved | backtest/engine.py:469 | The loop over reservations gives their total, in whatever order |
| Backtester.Backtest.RecordFills | backtest/engine.py:515-544 | The loop over an order's fills does what the step relation says, fee shares included |
| Backtester.Backtest.FillMaker | backtest/engine.py:546-580 | A maker fill updates the account, log, record, reservation and list as the step relation says |
| Backtester.Backtest.MatchResting | backtest/engine.py:422-435 | The loop over resting orders shares the print's count as the step relation says |
| Backtester.Backtest.ShowBook | backtest/engine.py:400-403 | The loop over resting orders shows each the new book as the step relation says |
| Backtester.Backtest.ConfirmBooks | backtest/engine.py:385-390 | A poll confirmation re-dates just the books it speaks of |
| Backtester.Backtest.ApplyFeed | backtest/engine.py:383-416 | Each kind of feed event changes the state as the step relation says |
| Backtester.Backtest.TakeFrom | backtest/engine.py:481-484 | A marketable order takes from the book as of its arrival |
| Backtester.Backtest.TakeOff | backtest/fills.py:181-188 | The fills come off the displayed book one by one, inconsistent ones passed over |
| Backtester.Backtest.RestOrder | backtest/engine.py:492-512 | What is left of an order rests, expires or is filled as the step relation says |
| Backtester.Backtest.Arrive | backtest/engine.py:461-512 | An arriving order goes through the checks in the same sequence to the same outcome |
| Backtester.Backtest.DispatchScheduled | backtest/engine.py:438-450 | Each scheduled message does what the step relation says |
| Ledger.NetKeeps | backtest/portfolio.py:74-85 | Netting conserves cash plus open cost less realised whatever the floor division picks, and leaves one side with a cost in range |
| Ledger.BuyKeeps | backtest/portfolio.py:59-72 | Every purchase keeps the identity and the inventory sound, and costs no more than price times quantity plus fee |
| Ledger.SettleKeeps | backtest/portfolio.py:87-98 | Settlement keeps the identity, empties the position and never takes cash |
| Ledger.NetPreservesEquity | backtest/portfolio.py:74-85 | Netting is invisible at every settlement value |
| Ledger.NetTakesPairs | backtest/portfolio.py:74-85 | Netting turns exactly the YES/NO pairs into dollars and takes each side's cost out in proportion, rounded down |
| Ledger.ReplayBalanced | backtest/portfolio.py:11-15 | After any history of purchases and settlements the identity holds with at most one side held |
| Ledger.ReplayEquity | backtest/portfolio.py:59-98 | Cash plus what is held is always worth the opening cash plus the un-netted fills' own profits |
| Ledger.FinalCash | research/market_making_analysis.py:16-19 | Once everything traded has settled, cash is the opening cash less every fill's price and fee plus every fill's own payoff |
| Ledger.ConservationAtMarks | backtest/portfolio.py:101-121 | At any marks, equity is opening cash plus realised plus unrealised less fees |
| Ledger.MarkedAtSettlement | backtest/portfolio.py:113-121 | Marked at bids that agree with a settlement, the account is worth what it is at that settlement |
| Ledger.CarriedAtCost | backtest/portfolio.py:113-121 | Without bids everything is carried at cost |
| Ledger.Portfolio.Buy | backtest/portfolio.py:59-72 | The object's purchase is the ledger's, refused exactly for a settled market |
| Ledger.Portfolio.Net | backtest/portfolio.py:74-85 | The object's netting is the ledger's |
| Ledger.Portfolio.Settle | backtest/portfolio.py:87-98 | The object's settlement is the ledger's and reports the realised amount |
| Ledger.Portfolio.Equity | backtest/portfolio.py:113-121 | The valuation loop gives cash plus every holding at its liquidation value, or at cost without a bid |
| Ledger.Portfolio.Unrealised | backtest/portfolio.py:101-111 | The valuation loop gives every holding's value less its cost |
| FillDominance.ModelsOrdered | backtest/fills.py:25-29 | For one order and every sequence of prints and books, at every instant pessimistic fills at most queue(1,0), at most queue(a,c), at most optimistic, at most the order |
| FillDominance.FillsMonotone | backtest/fills.py:145-178 | Fills never fall when alpha falls and the cancel share rises |
| FillDominance.PessimisticTrails | backtest/fills.py:134-136 | The pessimistic order fills all at once or not at all, and never ahead of a queue model |
| Fills.RestingOrder.Place | backtest/fills.py:145-149 | The object joins the queue as the model says |
| Fills.RestingOrder.Trade | backtest/fills.py:151-165 | The object meets a print as the model says |
| Fills.RestingOrder.Book | backtest/fills.py:167-178 | The object meets a book as the model says |
| Fills.ScanLevelSize | backtest/fills.py:75-84 | The early-stopping scan finds exactly the size displayed at the price |
| Fills.TakerModel.ExecuteLoop | backtest/fills.py:104-115 | The loop over the asks gives the model's fills |
| Fills.TakerWithinLimit | backtest/fills.py:94-115 | Whatever the haircuts, a taker gets no more than it asked for and pays no more than its limit |
| Fills.Deplete | backtest/fills.py:181-188 | The displayed book stays well formed |
| BundleReplay.RealisedIsPredicted | backtest/strategies.py:5-8 | Without latency and with cash for limits and fees, in every world a bundle's realised profit is the detector's settlement of it, however its inventory nets against what was held |
| BundleReplay.RealisesTheEdge | backtest/strategies.py:5-8 | In every world its relation admits the bundle realises at least the net edge reported |
| BundleReplay.ReplayExample | backtest/strategies.py:89-110 | A concrete state, violated rule and bundle that the replay theorems apply to, with its edge |
| BundleReplay.BundleFillsAsPriced | backtest/strategies.py:89-110 | The bundle's orders, sized for any number of bundles up to the detected one, are bought with the detector's fills and fees, log just those, and leave each leg's asks as its walk leaves them |
| BundleReplay.LimitedWalk | backtest/fills.py:94-115 | Without haircuts, a limit every fill respects changes nothing: the engine's taker gives the detector's fills |
| BundleReplay.LastFillLimits | backtest/strategies.py:90-95 | The last fill of a walk is its dearest and no smaller walk pays more |
| BundleReplay.DepletedToResidue | backtest/fills.py:181-188 | Taking a walk's fills off the displayed book leaves exactly the residual asks and the other side as it was |
| BundleReplay.LineRuns | backtest/engine.py:355-358 | Orders in line at one instant arrive in turn, one to a pass, each filled as priced |
| BundleReplay.ProfitIsSettlement | arbitrage/opportunity.py:100-111 | The legs' own payoffs less their costs are the bundle's settlement |
| OrderBooks.LevelsSorted | market/order_book.py:95-97 | The bids come strictly best first and are exactly the book's entries |
| OrderBooks.AsksSorted | market/order_book.py:99-113 | The asks come strictly cheapest first, carry the opposite bids' sizes, and start at the best ask |
| OrderBooks.SnapshotMeaning | market/order_book.py:82-92 | Levels are accepted exactly when prices are inside ($0, $1), no size is negative and no sized level is repeated; the book then shows exactly the sized ones |
| OrderBooks.SnapshotShows | market/order_book.py:48-55 | A snapshot is accepted exactly if both lists are well formed, and then the YES bids are the YES list's sized levels and the NO bids the NO list's |
| OrderBooks.DeltaMeaning | market/order_book.py:57-70 | A delta is refused exactly if its price is outside ($0, $1) or it takes more than is there; otherwise just the one level it names moves, by just that much |
| OrderBooks.AsksAreBids | market/order_book.py:99-113 | A side's asks are the other side's bids: one at p for each bid at $1 - p, and of its size |
| OrderBooks.DeltaUndo | market/order_book.py:57-70 | A delta and its opposite cancel out |
| OrderBooks.OrderBook.ApplySnapshot | market/order_book.py:48-55 | A snapshot replaces both sides with what their own lists show or, if invalid, changes nothing |
| OrderBooks.OrderBook.Check | market/order_book.py:82-92 | The validating loop accepts and keeps what the specification does |
| OrderBooks.OrderBook.ApplyDelta | market/order_book.py:57-70 | A delta changes one level or, if invalid, nothing |
| Fees.OrderFeeBounds | market/fees.py:86-110 | Rounding only adds, and less than one unit for each rounding step |
| Fees.FreeSchedule | market/fees.py:77-110 | A schedule with multiplier zero charges nothing |
| Fees.ExactFeeMeans | market/fees.py:5-12 | The exact fee is the documented coefficient x multiplier x contracts x P x (1 - P), in micro-dollars |
| Fees.OrderFeeMeans | market/fees.py:86-110 | An order is charged each fill's exact fee rounded up to the micro-dollar or cent, or its exact total rounded up to a cent |
| Fees.ScheduleOfSeries | market/fees.py:117-129 | A ticker's schedule is its series' own, the part before the first dash, or the default |
| Relationships.Sound | market/relationships.py:175-414 | Every admissible world satisfies every compiled constraint |
| Relationships.Characterises | market/relationships.py:175-414 | Every inadmissible world violates some compiled constraint |
| Relationships.Tight | market/relationships.py:175-414 | Each constraint's bound is attained in some admissible world |
| Relationships.CompiledMeaning | market/relationships.py:175-408 | Each compiled constraint says, in every world, exactly one conjunct of its relation |
| Relationships.LegsOfRelation | market/relationships.py:175-408 | A relation's constraints trade only its own markets, at least one of each leg, for whole dollars |
| Relationships.SeparateLegs | market/relationships.py:175-408 | No compiled constraint buys one contract in two legs |
| Relationships.PayoffLoop | market/relationships.py:85-91 | The accumulating loop gives the bundle's payoff |
| Relationships.CheckLoop | market/relationships.py:96-106 | The loop prices the bundle at the best asks, or gives up at a leg without one |
| Relationships.TopQtyMeans | market/relationships.py:105-106 | The quantity a check reports is the greatest number of bundles the best asks alone can fill |
| NoArbitrage.NoneMissedNoneInvented | market/relationships.py:21-25 | For every kind of relation, overlapping unions included, with every leg quoted and books uncrossed, no constraint shows a margin if and only if some distribution over admissible worlds fits every marginal inside its bid and ask |
| NoArbitrage.CoherentIsUnviolated | market/relationships.py:96-106 | A fitting distribution leaves no constraint a margin |
| NoArbitrage.AdjacentPairsMiss | market/relationships.py:310-330 | A ladder checked on adjacent pairs only misses an arbitrage |
| LadderScan.CandidateConstraints | market/relationships.py:336-361 | The running-minimum scan returns the violated pair constraints, for any quotes, missing ones included |
| LadderScan.PrefilterLossless | market/relationships.py:336-361 | A pair constraint is kept exactly when its check shows a margin |
| LadderScan.PrefilterOnce | market/relationships.py:336-361 | Each violated pair is returned once |
| Execution.WalkAsks | arbitrage/execution.py:42-54 | The loop gives the walk's fills and what it could not fill |
| Execution.WalkFills | arbitrage/execution.py:42-54 | The walk buys everything there is, up to the quantity, in sized fills |
| Execution.WalkCheapest | arbitrage/execution.py:42-54 | No way of taking the quantity from the book costs less |
| Execution.PriceBundleLoop | arbitrage/execution.py:120-145 | The loop over the legs prices the bundle or gives up at the first leg that cannot be filled |
| Execution.PricedAsViewed | arbitrage/execution.py:120-145 | A bundle prices exactly when the books hold every leg's quantity, and then at its net profit |
| Execution.RoundingCost | market/fees.py:86-110 | Rounding never gains, and with per-fill micro-dollar ceilings costs less than one a fill |
| Sizing.Optimize | arbitrage/execution.py:187-226 | The chosen size has the best profit of all candidates, the smallest such, and the break-even is the largest profitable one found; nothing is returned exactly when the depth is below a lot |
| Sizing.CandidatesSuffice | arbitrage/execution.py:166-209 | For every multiple of the lot some candidate's unrounded profit is at least as good, although profit is not concave |
| Sizing.BestIsBest | arbitrage/execution.py:187-209 | Without fees the best candidate is the best of all multiples of the lot up to the depth |
| Sizing.FreeOptimum | arbitrage/execution.py:187-226 | Without fees what is returned is the best of all multiples of the lot, and no size beyond the returned break-even pays |
| Sizing.FeeFreeRoundingFree | market/fees.py:77-110 | Without fees rounding changes nothing at any size |
| Sizing.BestWithinFills | arbitrage/execution.py:187-209 | With per-fill micro-dollar ceilings no size beats the chosen one by as much as the number of fills of the candidate that is best before rounding |
| Sizing.ExactOptimumExists | arbitrage/execution.py:166-209 | Some candidate is best before rounding among all multiples of the lot |
| Sizing.NeighboursNoStep | arbitrage/execution.py:166-184 | Neighbouring candidates are one lot apart, or no price level of any leg ends between them |
| Sizing.NetLinear | arbitrage/execution.py:166-171 | Between level boundaries the unrounded profit is linear |
| Sizing.NothingLater | arbitrage/execution.py:210-226 | Past the last profitable candidate's neighbour nothing is profitable |
| Sizing.CandidateSizes | arbitrage/execution.py:166-184 | The nested loops give exactly the candidate sizes, ascending |
| Sizing.DeepestBundle | arbitrage/execution.py:148-157 | The loop gives the largest number of bundles every leg's depth allows |
| Sizing.MaxBundlesIsDepth | arbitrage/execution.py:148-157 | The books hold s bundles exactly when s is at most that number |
| Sizing.ChooseBest | arbitrage/execution.py:198-209 | The scan keeps the most profitable candidate, the smaller on a tie |
| Sizing.FindBreakeven | arbitrage/execution.py:210-226 | The search returns a profitable size if any candidate is, and without rounding the largest profitable multiple of the lot |
| Sizing.Bisect | arbitrage/execution.py:216-225 | The bisection ends, staying between a profitable and an unprofitable multiple of the lot |
| Sizing.Midway | arbitrage/execution.py:216-225 | Each probe is a multiple of the lot strictly between the ends |
| Detector.Detect | arbitrage/detector.py:42-84 | Every violated trade is reported once, credited to the strongest evidence for it, and nothing else is |
| Detector.Consider | arbitrage/detector.py:60-83 | A known trade leaves the reports as they were; a new one is reported exactly if its check shows a margin |
| Detector.Evaluate | arbitrage/detector.py:87-136 | The classification and every flag follow from liquidity, fees, depth and target; a sized opportunity is the optimiser's best candidate with its break-even, and guaranteed its net edge; an unprofitable one pays at no candidate size, at no size at all where rounding changes no fee, and with per-fill micro-dollar ceilings nowhere by as much as the fills of the size best before rounding |
| Detector.ReportedSizeIsBest | arbitrage/detector.py:128-136 | No size the depth and the cap allow nets more than a reported one where rounding changes no fee, nor as much more as the fills of the size best before rounding under micro-dollar ceilings; and nothing beyond the reported break-even pays where rounding changes no fee |
| Detector.SameKeySameVerdict | arbitrage/detector.py:63-67 | Two constraints that are the same trade have the same check |
| Detector.KeyIsTrade | arbitrage/detector.py:63-67 | Two constraints have one key exactly if they buy the same legs, in whatever order, for the same bound |
| Detector.SettlesAtLeastNet | arbitrage/opportunity.py:100-111 | In every admissible world a priced bundle settles at its net edge or better |
| Detector.SettlesAtNetSomewhere | arbitrage/opportunity.py:100-111 | ... and in some admissible world at exactly its net edge |
| Detector.NetDecomposed | arbitrage/opportunity.py:69-82 | The net edge is the margin at the best asks times the bundles, less slippage and fees, neither ever negative |
| Detector.SettleLoop | arbitrage/opportunity.py:100-111 | The loop over the legs gives the settlement |
| ScanIndex.IncrementalExactly | research/scanner.py:319-414 | After a batch the open episodes equal a full rescan if and only if the batch meets an explicit condition on gaps and closes |
| ScanIndex.IncrementalEqualsRescan | research/scanner.py:11-13 | Over any run without gaps or closes, after each batch the open episodes are exactly the violated constraints of all relations whose books are all present |
| ScanIndex.QuietStep | research/scanner.py:381-414 | A batch without gap or new close keeps the index exact, also for relations that become priceable through a ticker outside the violated constraint |
| ScanIndex.RunExists | research/scanner.py:319-367 | Every feed of batches has its run of the index |
| ScanIndex.CloseDrifts | research/scanner.py:523-526 | From the empty start, loading three books makes the index exact, and a close on a market of the relation that is not in the violated constraint then leaves an episode the rescan does not have |
| ScanIndex.GapDrifts | research/scanner.py:370-379 | From the empty start, loading three books makes the index exact, and a quiet poll after a recording gap then leaves the standing violation unreported |
| Episodes.Scanner.Process | research/scanner.py:319-367 | Processing a batch makes exactly one step of the index and writes the episodes' chronicle: each that ends, once and for its own reason; each that goes on, when last seen alive; and each other that is open, opened now by a violation found |
| Episodes.Scanner.CheckGap | research/scanner.py:370-379 | A gap ends every open episode, and nothing else does here |
| Episodes.Scanner.Evaluate | research/scanner.py:394-414 | What is found is noted alive or opened; an episode with a changed book that is not found again ends, as consumed or as a quote change |
| Episodes.Scanner.CloseForMarket | research/scanner.py:523-526 | A close ends exactly the episodes with a leg on the market |
| Episodes.Scanner.Attribute | research/scanner.py:500-516 | An end is put down to a taker exactly if a print kept of a leg's market, after the episode was last seen alive, bought the leg's side at its recorded ask or above |
| Episodes.Scanner.EndSome | research/scanner.py:518-522 | The episodes given, and no others, end, each once, its time left out unless it was watched to the end |
| Episodes.PrunedKeeps | research/scanner.py:341-345 | Of the prints kept only those older than the memory are dropped, from the front |
| ScanIndex.FoundKeys | research/scanner.py:394-414 | What the detector reports for the touched, observable relations is exactly what they violate |
| Intervals.SubsetMeans | market/semantics.py:79-106 | The subset test is exactly inclusion of the point sets |
| Intervals.DisjointMeans | market/semantics.py:84-113 | The disjointness test rules out a common point, and for non-empty intervals is exactly that |
| Intervals.LatticeExact | market/semantics.py:136-151 | The lattice range is precisely the grid points in the interval |
| Intervals.LineTiled | market/semantics.py:352-370 | Disjoint and abutting from end to end: every real lies in exactly one interval |
| Intervals.IntegersTiled | market/semantics.py:373-382 | A contiguous cover holds every integer in exactly one range |
| Intervals.AnalyseTiling | market/semantics.py:352-370 | The analysis reports disjointness exactly, and what it calls exhaustive tiles the line, or the grid |
| Intervals.UnionOnLine | market/semantics.py:406-417 | Abutting tiles from edge to edge of the target hold each of its points exactly once and no other |
| InferredRelations.NumericFamily | market/semantics.py:479-535 | Exactly the chains, exclusivity and partition the intervals support are emitted, and each is true of every settlement value it speaks of, except that the downward chain is false exactly when two ends at one strike, one included and one not, are among those values |
| InferredRelations.DownNestedExactly | market/semantics.py:324-333 | Downward half-lines, in the order the tie key gives, are nested at every value if and only if no two equal upper ends differ in closedness |
| InferredRelations.TieExample | market/semantics.py:331 | A concrete well-formed ladder whose emitted chain, called proven, rejects the world of its own strike |
| InferredRelations.UpNested | market/semantics.py:324-333 | Upward half-lines, in the order the tie key gives, are always nested |
| InferredRelations.TextIsStrike | market/semantics.py:303-321 | Where a market is trusted, settling by its text is settling by its strike |
| InferredRelations.NumericView | market/semantics.py:303-321 | A market is used only if its strike and its rules text settle alike at every value, or at every value of the grid it is trusted on |
| InferredRelations.UpChainTruth | market/semantics.py:490-506 | The upward chain emitted is true of every settlement value it speaks of |
| InferredRelations.DownChainExactly | market/semantics.py:324-333 | The downward chain emitted is true of every settlement value it speaks of if and only if no strike among them is used with both an included and an excluded end |
| InferredRelations.MutexTruth | market/semantics.py:509-519 | Disjoint intervals are exclusive at every settlement value |
| InferredRelations.PartitionTruth | market/semantics.py:520-535 | A tiled family has exactly one winner, on the reals or on the grid |
| InferredRelations.FindUnions | market/semantics.py:629-661 | Exactly the half-lines outside the group that its buckets tile are emitted as unions, each true, in the world the whole family settles to, of every settlement value it speaks of |
| InferredRelations.UnionOnGrid | market/semantics.py:385-403 | A successful exact union has each grid value in the target exactly when it is in exactly one tile |
| InferredRelations.UnionOnReals | market/semantics.py:406-417 | ... and each real, when the tiles abut from edge to edge |
| InferredRelations.UnionHolds | market/semantics.py:639-660 | The union of a target and its tiles is admissible in the world the whole family induces, at every settlement value its level speaks of |
| Calibration.IsotonicCalibrator.Fit | pricing/calibration.py:286-304 | The fitted values are the non-decreasing sequence with the least squared error, in the caller's order, and the knots are the pooled blocks' means |
| Calibration.StepOptimal | pricing/calibration.py:274-304 | The block means beat every non-decreasing sequence by at least their squared distance from it |
| Calibration.StepUnique | pricing/calibration.py:274-304 | No other non-decreasing sequence does as well |
| Calibration.PoolAdjacentViolators | pricing/calibration.py:289-295 | The stack always cuts the sorted sample into runs whose prefix means are at least the run's, and ends with means in order |
| Calibration.PoolHeavy | pricing/calibration.py:291-295 | Pooling two runs whose means are out of order keeps every prefix mean at least the pooled mean |
| Calibration.Scatter | pricing/calibration.py:301-303 | Each fitted value lands at its caller's index |
| QuoteProtocol.OneOrderASide | market_making/baseline.py:19-22 | With the requote interval longer than the submission latency, in every reachable state at most one of the maker's orders on each side of each market is under way or resting |
| QuoteProtocol.CancelledAtMostOnce | market_making/baseline.py:243-254 | In every reachable state the maker has logged no order as cancelled twice, whatever the latencies |
| CancelOnce.EngineCancelsOnce | market_making/baseline.py:243-254 | Over any run the engine receives at most one cancel for each order: no two turns take one off the queue and no two wait in it at once |
| CancelOnce.CancelsNew | market_making/baseline.py:243-254 | The cancels one call sends are for different orders, none of them cancelled before |
| QuoteProtocol.NothingAfterKill | market_making/baseline.py:158-160 | Once the kill-switch has tripped it stays tripped and no order is ever sent again |
| KillSwitch.CheckWithdraws | market_making/baseline.py:125-145 | A due risk check trips the switch exactly on a breach; with the switch tripped it withdraws every open order of ours not withdrawn before, each once, and no other; otherwise it sends nothing |
| Quoting.TrippedWithdrawsAll | market_making/baseline.py:99-145 | Told of something when a check is due and the switch tripped, the maker asks the engine to cancel every open order of its own that it has not asked about, each exactly once |
| Quoting.TrippedClearsBook | market_making/baseline.py:142-145 | ... and each such order on the engine's book then has a cancel on its way |
| Quoting.SideMeans | market_making/baseline.py:209-232 | One side's decision: wait while a request is recent or a cancel pending; leave an order in line; cancel one that is not; place exactly what is wanted where none is, once the last is old enough |
| Quoting.ManageMeans | market_making/baseline.py:204-234 | A decision sends what each side asks for, YES first, wanting nothing once killed or while the market is not open, and wakes again exactly if a side is to be looked at |
| Quoting.NoWakeNoWork | market_making/baseline.py:204-234 | A decision that asks for no wake leaves each side as wanted |
| Quoting.RespondMeans | market_making/baseline.py:99-116 | The maker acts on its own fills, its own wakes and new books of its markets, and on nothing else |
| Quoting.LiveMeans | market_making/baseline.py:207 | The maker looks at the last of its orders listed on the side |
| QuoteProtocol.FreeKey | market_making/baseline.py:215-226 | Where nothing of ours rests and the last placement is old enough, nothing of ours is out at all |
| QuoteProtocol.LogIsExact | market_making/baseline.py:236-254 | The maker's log is exactly what it asked the engine for |
| QuoteProtocol.ProtocolStep | market_making/baseline.py:204-254 | One turn of strategy and engine together keeps the protocol |
| MarketMaker.BinaryMarketMaker.OnEvent | market_making/baseline.py:99-116 | The object responds to an event with the state and requests of the strategy function |
| MarketMaker.BinaryMarketMaker.CheckRisk | market_making/baseline.py:125-140 | Whatever counts as a breach, a due risk check updates the peak, trips the kill-switch on one and then withdraws everything |
| MarketMaker.BinaryMarketMaker.ManageMarket | market_making/baseline.py:204-234 | One decision manages both sides and wakes again if a side has to wait |
| MarketMaker.BinaryMarketMaker.ManageOne | market_making/baseline.py:209-232 | One side is left, placed or withdrawn as the strategy function says |
| MarketMaker.BinaryMarketMaker.PlaceQuote | market_making/baseline.py:236-241 | A placement is sent, dated and logged |
| MarketMaker.BinaryMarketMaker.Withdraw | market_making/baseline.py:243-254 | A cancel is sent, remembered and logged, unless it was before |
| MarketMaker.BinaryMarketMaker.WithdrawEverything | market_making/baseline.py:142-145 | Every open order of ours is withdrawn, market by market |

## Left out

- Backtester.Backtest.Run: takes a number of turns, because a strategy may keep waking itself and the program's loop then has no end.
- BundleReplay.RealisedIsPredicted: is about the default taker model and orders sent with nothing else due at that instant; with slippage the displayed book need not match the fills, by the program's own design.
- Sizing.BestIsBest: is about schedules without fees; with rounded fees the statement is BestWithinFills.
- MarketMaker.BinaryMarketMaker.CheckRisk: leaves what is quoted, the account's value and what counts as a breach to a parameter of the maker; the quoting formulas are floating point.
- InferredRelations.FindUnions: is the loop over one group of disjoint buckets; grouping events by their settlement variable is not modelled.
- Calibration.IsotonicCalibrator.Fit: `predict`, which interpolates in floating point, is not modelled.
- The engine's `on_end`, exceptions raised inside a strategy, equity sampling, metadata, settlement list, event counts, rejection reasons and the order statuses rewritten after the run ends.
- The resting-order objects of `backtest/fills.py` are values inside the engine's maps; their methods are proved against the same functions in `Fills.RestingOrder`.
- The heap of `heapq` is a list kept in order; only that the least message leaves first matters.
- Dominance between fill models for whole runs or for several orders sharing a print: strategies react to fills and the print is shared, so the claim is per order.
- Floats: `alpha`, `cancel_share`, `depth_fraction`, fee multipliers, strikes, forecasts and outcomes are exact reals.
- The grid step of a family is a parameter (any positive step), and whether a market's text and strike agree is an input of the interval reasoning; the rules-text patterns that decide them are not modelled.
- Trust in an inexact market is assumed on that market's own grid, where the program's note names only the first such market's grid.
- Declared and empirical relations, evidence prose, titles, and exhaustiveness taken from exchange flags.
- Funnel counters of the detector, and its return on investment and time to close.
- Probes, exposures, variants, observations, left censoring and hours to expiry of the scanner, and what is still open when the data end.
- Constraint identifiers of the scanner are the detector's keys (the multiset of legs and the bound) rather than hashed strings.
- `StoreFeed`, the database, REST and WebSocket clients, collectors, reports and command-line scripts; `PassiveQuoter`.
- The order in which `ArbitrageTaker` considers relations, its cooldown, overlap filter and book-age limit: the model is of the orders it sends for one opportunity.
- Bootstraps, ridge and logistic fits, scoring rules, certainty-equivalent quoting and other floating-point analysis.
