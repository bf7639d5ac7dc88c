# ATLAS verification model

A Dafny model of the parts of ATLAS whose correctness only shows over whole runs: ledgers that match
fills to lots, the protective-order protocol between the position manager and the IBKR bridge, the
backtest simulators, the durable state machines, and the query that attaches news to trades.
`dafny verify dfyconfig.toml` checks everything.

## What is modelled

**Execution ledgers** (`Lots`, `Ordering`, `ExecutionLots`, `BybitReport`, `Performance`). The two
first-in first-out matchers visit rows in stable order of time, rewrite them where they stand and
deplete queues. Both are proved against one cumulative-cost function: a close is charged one
contiguous slice of everything opened so far, nothing is created or lost except at most `eps` of
dust per dropped lot, a linked exit touches only its own entry, and the P&L that the report shows is
conserved. Run one after the other, with the rows of other profiles in between, they give every
covered sell the same cost. Every figure written into a row is stated in the row's own fields.

**Protection** (`Protection`, `ProtectionDecision`, `ProtectionParties`, `ProtectionLevels`,
`PaperExecution`). The manager commits intent before it calls; the bridge holds its lock, checks,
reserves two order identities and sends two legs. `Protection` is a step machine with a durable
record, volatile bridge memory and a network that may delay, lose or overtake messages;
`ProtectionParties` holds the two parties as classes whose methods take exactly those steps. The
price pipeline goes from the plan to fill-anchored levels to tick rounding.

**Simulators** (`IbkrBacktest`, `IbkrTrades`, `SpotAccount`, `SpotWalkForward`, `SpotExit`,
`SpotBreakout`, `SpotTrades`, `BaselineTrades`, `AtrTrades`, `BreakoutTrades`, `FifteenMinutes`,
`Triggers`, `Drawdown`). Exact accounting, solvency, loss bounds, flat intraday sessions, no
look-ahead as a statement about two histories, and the one-pass forms (drawdown, fifteen-minute
grouping) against their direct definitions. `IbkrTrades`, `BaselineTrades`, `AtrTrades` and
`BreakoutTrades` say, in the figures of the bars, when every run enters and exits, at which price
and with which lot. The walk-forward run, its training runs and its folds are one method; the
breakout rule is modelled, its averages and range are inputs.

**Durable state** (`Onboarding`, `OnboardingCustody`, `FlexFile`, `Folds`, `SavedFills`, `Evidence`,
`EvidenceFigures`, `ManagedInventory`, `ManagedOrders`). The onboarding queue under any interleaving
of its handlers and of removed profiles; what proves a saved fill; the statement-evidence store
under any sequence of imports and recoveries; and the managed spot inventory under any run of
orders, fills and reconciliations, the lot rule included. Beside the invariants stand the exact
conditions under which a request, an order or a piece of evidence is accepted, and the figures it
then stores.

**News** (`NewsWindows`, `NewsRows`). Merged 24-hour windows, the index by symbol, and the articles
each row is served.

Prices and quantities are reals. The dust tolerance is a parameter `eps >= 0`; rounding to eight
decimals is any function within half a unit of the eighth decimal. The router's signals and the
indicators are arbitrary functions of their window. Broker reads, clocks, tokens and database reads
of other tables are inputs. `Wrappers` and `RealArith` hold what the modules share.

Three results are about where the code departs from what one might expect of it. Each has an input
that shows it and the exact condition under which the expected holds:

- An article dated inside the anchor's own millisecond, but after its start, passes the millisecond
  comparison and is not fetched by the query (`NewsWindows.AnArticleCanBeMissed`). A row is served
  what a scan of all articles gives if and only if another anchor follows within a day or no stored
  article about its symbol has such a date (`NewsWindows.ServedIsScanByDates`).
- A verification remembers the account it asked the bridge about, but the profile takes the job's
  account as it is afterwards. The job can be approved anew, which resets `attempts`, then rejected,
  amended, and brought back to the waiting state (`Onboarding.AnotherAccountCanConnect`, a run from
  the empty queue). The profile names the verified account if and only if the job was not amended
  during the wait or its last amendment set that same account (`Onboarding.ProfileMatchesIff`); no
  amendment is accepted there without an approval first (`Onboarding.AmendNeedsApproval`).
- A buy without a price counts as bought for nothing in a later average. The first priced buy leaves
  the average between the priced buys if and only if it is the first buy since the inventory was
  empty (`ManagedInventory.FirstPricedBuyIff`). A second buy needs what is held to be within `eps`
  or, by the lot rule, confirmed dust (`ManagedInventory.AverageCanBeBelowEveryBuy` is such a run).
  Later buys can bring the average back between the prices, and it is never above the highest of
  them (`ManagedInventory.AverageIsNeverAbove`).

## Model

| member | source | states |
|---|---|---|
| `Lots.DrainRefines` | app/api/routes_broker_native.py:103-105 | the closing loop matches min(wanted, available) up to `eps`, charges exactly the cumulative cost of that first slice and leaves the queue behind it |
| `Lots.CostShift` | app/api/routes_broker_native.py:103-105 | the cumulative cost restarted behind `x` units is the original one shifted by `x` |
| `Lots.CostWithinPrices` | app/api/routes_broker_native.py:106-107 | the cost of a slice lies between its quantity at the least and at the greatest lot price |
| `Lots.DrainRecordsPrefix` | app/api/routes_broker_native.py:103-105 | the recorded times and entry identifiers are those of a prefix of the queue, in order |
| `Lots.DrainMatchesPrefix` | app/api/routes_broker_native.py:103-105 | the matched quantity reaches into the last lot visited and not beyond |
| `Ordering.StableOrderIsOrdered` | app/api/routes_broker_native.py:82 | the order of visits is by time, and rows of equal time as they stand, so no row comes twice |
| `Ordering.BlockKeepsOrder` | app/api/routes_broker_native.py:82 | a block of rows is visited in its own order whatever stands around it: its i-th visit is one of the whole order, and the block's visits before that are its own first i |
| `ExecutionLots.ReduceAt` | app/api/routes_broker_native.py:96-97 | removal by equality deletes exactly the exhausted lot, wherever it is in the queue |
| `ExecutionLots.UnlinkEntry` | app/api/routes_broker_native.py:94-98 | the loop over a snapshot leaves the queue that the linked-exit specification describes |
| `ExecutionLots.LinkedExitSparesOthers` | app/api/routes_broker_native.py:91-98 | lots of other entries are untouched and keep their order |
| `ExecutionLots.LinkedExitConserves` | app/api/routes_broker_native.py:91-98 | a linked exit loses nothing but at most `eps` per dropped lot |
| `ExecutionLots.LinkedExitDrainsOwn` | app/api/routes_broker_native.py:91-98 | among the lots of its own entry a linked exit takes exactly what a FIFO drain of these lots alone takes, and leaves what it leaves |
| `ExecutionLots.DrainQueue` | app/api/routes_broker_native.py:103-105 | the in-place FIFO loop computes the specified drain |
| `ExecutionLots.CloseRow` | app/api/routes_broker_native.py:90-110 | a close takes its entry from its link or from the drain, and leaves the queue that either leaves |
| `ExecutionLots.PairRow` | app/api/routes_broker_native.py:83-115 | one row is annotated, its return in percent of the invested amount included, and its book updated, as specified |
| `ExecutionLots.VisitRow` | app/api/routes_broker_native.py:82-115 | one visit rewrites the row where it stands and replaces the book of its key alone |
| `ExecutionLots.PairExecutionLots` | app/api/routes_broker_native.py:79-116 | every row, in the order of a stable sort by time, is annotated where it stands from the book of its own key after the rows before it; rows of other keys play no part |
| `ExecutionLots.LotsStayPositive` | app/api/routes_broker_native.py:81-108 | every queued lot of every key is positive after any rows |
| `ExecutionLots.LedgerConserves` | app/api/routes_broker_native.py:81-108 | per key and side, opened = consumed + still queued, up to `eps` per lot that left |
| `ExecutionLots.QueueIsBehindCursor` | app/api/routes_broker_native.py:82-105 | without linked exits the queue is always the opened lots behind one cursor, for any interleaving |
| `ExecutionLots.CloseIsChargedOneSlice` | app/api/routes_broker_native.py:82-108 | each close is charged C(m+matched) - C(m) of everything opened, its price lies between the least and greatest of that slice, and its opening time is the slice's earliest |
| `ExecutionLots.LinkedRowsAreExact` | app/api/routes_broker_native.py:99-102 | in every run a linked exit is told its link's price, time, source and identifier, and quantity times that price, whatever any queue holds |
| `ExecutionLots.DrainedRowsAreSliced` | app/api/routes_broker_native.py:103-111 | in every run another exit is told of a prefix of the opposite queue: its cost, price, earliest time and, when fully matched with no identifier missing, its identifiers |
| `ExecutionLots.DerivedFigures` | app/api/routes_broker_native.py:112-114 | a return is given exactly when P&L and a nonzero invested amount are, to four decimals of 100 * pnl / invested; a duration in whole seconds, never negative, exactly with an opening time |
| `ExecutionLots.OnlyContextChanges` | app/api/routes_broker_native.py:83-115 | a close only gains its context; every other row stays as it is |
| `BybitReport.MatchLots` | app/api/routes_broker_native.py:246-248 | the second FIFO loop computes the same drain, and keeps the first lot's time |
| `BybitReport.VisitRow` | app/api/routes_broker_native.py:238-251 | one visit reports the row in place and changes the queue of its symbol alone |
| `BybitReport.MatchReportRows` | app/api/routes_broker_native.py:237-251 | every row, in the order of a stable sort by time, is reported where it stands, a sell from the queue of its symbol after the rows before it |
| `BybitReport.SameQueues` | app/api/routes_broker_native.py:237-251 | when the sells of a symbol are covered, the ledger reads the reported rows into that symbol's own queue; other symbols play no part |
| `BybitReport.MatchersAgree` | app/api/routes_broker_native.py:237-251 | a sell that is covered, with the earlier sells of its symbol, gets the same entry price and cost from both matchers, and its P&L is its proceeds less that cost |
| `BybitReport.SellFigures` | app/api/routes_broker_native.py:244-250 | a covered sell shows the rounded proceeds less the cost of the first slice of its symbol's queue, that cost and its average price; another only the first lot's time |
| `BybitReport.OtherRowsStay` | app/api/routes_broker_native.py:239-243 | other rows stay as they are, and a priced buy queues a lot of its own figures |
| `Performance.BlockIsPairedAlone` | app/api/routes_broker_native.py:79-116 | a profile's report rows are annotated among all rows as they would be alone |
| `Performance.PassesAgree` | app/api/routes_broker_native.py:237-281 | the ledger pass over all rows, sorted anew, leaves in every covered sell the entry price, cost and P&L that the report pass wrote there |
| `Performance.MatchAndPair` | app/api/routes_broker_native.py:237-281 | the two loops, run one after the other on the rows themselves, leave every covered sell so |
| `BybitReport.DrainConservesValue` | app/api/routes_broker_native.py:246-248 | queue value before = cost charged + value left + cost of dust, which is zero when `eps` is |
| `BybitReport.PnlIsConserved` | app/api/routes_broker_native.py:237-251 | over any run the shown P&L of a symbol is sold - bought + cost of remaining lots + cost of dust - what uncovered sells brought beyond their drained cost, up to the rounding error of each covered sell |
| `BybitReport.CoveredPnlIsConserved` | app/api/routes_broker_native.py:237-251 | with all sells covered, exact rounding and no dust: shown P&L = sold - bought + cost of remaining lots |
| `PaperExecution.PlanSucceedsIff` | app/services/paper_execution.py:16-36 | with positive settings a plan exists exactly when the decision is BUY or SELL and price, equity and cash are positive |
| `PaperExecution.RawQuantityIsBounded` | app/services/paper_execution.py:23-36 | an unrounded position costs at most the allowed share of cash and risks at most the allowed share of equity |
| `PaperExecution.PlanFigures` | app/services/paper_execution.py:23-36 | each figure of a plan is rounded from its own: quantity, cost, amount at risk, and levels on the right sides |
| `PaperExecution.DistanceFigures` | app/services/paper_execution.py:24 | the stop distance is the greater of the measured range, or one percent of the price, times the multiplier, and half a percent of the price |
| `ProtectionLevels.PlannedLevelsAreRecovered` | app/services/ibkr_protection_levels.py:27-49 | from saved stop, target and ratio the planned price is recovered within half a unit of the eighth decimal, and target distance = ratio * stop distance |
| `ProtectionLevels.AnchoredExactly` | app/services/ibkr_protection_levels.py:10-49 | levels are anchored exactly for a filled Paper entry whose known reference lies strictly between positive levels on their sides and whose moved levels stay positive; each keeps its distance |
| `ProtectionLevels.TicksNeverWiden` | tools/ibkr_bridge.py:353-361 | after anchoring to the fill and rounding to ticks, both distances never exceed the planned ones and shrink by less than one tick, long and short |
| `ProtectionLevels.PricesAreTicks` | tools/ibkr_bridge.py:353-361 | both prices are whole ticks |
| `Protection.StagedStopIsSaved` | tools/ibkr_bridge.py:403-416 | a staged order that recovery transmits is one of the two saved identities |
| `Protection.StepKeeps` | app/services/ibkr_position_manager.py:201-237 | every step keeps the invariant: a call that may still place legs excludes any other of its entry, its record withholds permission, and an answer that releases intent is never one to such a call |
| `Protection.AlwaysInv` | app/services/ibkr_position_manager.py:201-237 | the invariant holds after any steps of both parties, the network and crashes |
| `Protection.OneRunPerEntry` | tools/ibkr_bridge.py:433-452 | no two passes through the placement loop are for one entry |
| `Protection.CheckingHasNoRun` | tools/ibkr_bridge.py:424-436 | while an allowed call is being checked its entry has not been placed, though the bridge's memory of attempts may be gone |
| `Protection.StepKeepsIds` | app/services/ibkr_position_manager.py:226-233 | every saved, sent, reported or placed identity belongs to the run of its entry |
| `Protection.StepKeepsLegs` | tools/ibkr_bridge.py:437-452 | no leg of a run is placed twice |
| `Protection.StepKeepsEpochs` | tools/ibkr_bridge.py:433-435 | within one life of the bridge no two runs share an identity |
| `Protection.ProtectionAtMostOnce` | tools/ibkr_bridge.py:379-460 | over any run of retries, lost replies, crashes and restarts: at most one placement run and two identities per entry, each new leg at most once; each new order closes the run's position, a stop at its stop price under the first identity, a limit at its target under the second |
| `ProtectionDecision.ProtectedIff` | tools/ibkr_bridge.py:363-402 | a call is answered as protected without placing anything exactly when two orders are open, one stop at the asked stop and one limit at the asked target, each on the other side and of the asked remaining quantity, group, account and settings |
| `ProtectionDecision.TransmittedIff` | tools/ibkr_bridge.py:405-416 | an order is transmitted exactly when it is the verified, still staged stop beside its working target, both under the two saved identities and as asked |
| `ProtectionDecision.PlacedIff` | tools/ibkr_bridge.py:424-436 | a new pair is placed exactly for an allowed call of an entry not attempted before, with no order of the symbol, a known next identity and nothing refused on the way |
| `ProtectionDecision.RefusedAs` | tools/ibkr_bridge.py:381-434 | otherwise the first refusal that applies is given |
| `ProtectionDecision.PlacedPairStands` | tools/ibkr_bridge.py:437-456 | the rows listed for the two orders sent are the asked pair: confirmed now, and found by a later call |
| `ProtectionDecision.AnswerIsKept` | app/services/ibkr_position_manager.py:226-237 | a trusted answer gives the record its status and any identities it names; an untrusted one leaves it pending with the identities it had |
| `ProtectionDecision.StagedStopIsRecovered` | app/services/ibkr_position_manager.py:205-233 | after a pending placement with a staged stop, the next call carries the two identities and exactly that stop is transmitted |
| `ProtectionDecision.FailureIsKept` | app/services/ibkr_position_manager.py:212-224 | an allowed call refused with 503 for one of the five retryable reasons releases the intent; no other failure changes the record |
| `ProtectionDecision.IntentIsKept` | app/services/ibkr_position_manager.py:201-211 | a call may place exactly when there is no record or a released one; its intent is then recorded, and the saved identities go with it |
| `ProtectionParties.Bridge.PlaceLegs` | tools/ibkr_bridge.py:437-452 | identities are noted before their legs go out; the loop ends at a changed position or a failing placement, and the legs placed are those noted |
| `ProtectionParties.Bridge.PlacePair` | tools/ibkr_bridge.py:433-460 | the pair's two identities and the attempt are taken before the legs; the answer and the legs are those of the decision to place |
| `ProtectionParties.Bridge.Protect` | tools/ibkr_bridge.py:381-460 | an uninterrupted call takes exactly the protocol's steps: same answer, same orders sent, same memory; it answers PROTECTED without an order exactly when the asked pair stands, and after sending only when the pair read back stands |
| `ProtectionParties.Bridge.Serve` | tools/ibkr_bridge.py:398-460 | the checks in their order give the specified decision's answer; the what-if check takes one identity before the pair's two |
| `ProtectionParties.PlacedPairIsProtected` | tools/ibkr_bridge.py:398-456 | a placement whose two orders are listed is answered as protected, and so is every later call for the pair while they stand |
| `ProtectionParties.Bridge.NextValidId` | tools/ibkr_bridge.py:21-22 | a broker callback never lowers the next identity |
| `ProtectionParties.EntryRow.Commit` | app/services/ibkr_position_manager.py:201-212 | permission is decided from the record, and intent committed, before the call |
| `ProtectionParties.EntryRow.Settle` | app/services/ibkr_position_manager.py:213-237 | an answer changes the record as the protocol says; only a retryable refusal of an allowed call releases intent |
| `Triggers.TriggerIsPessimistic` | app/backtesting/ibkr_atr_comparison.py:74-87 | for every price path of the bar an exit is modelled exactly when the path fills a level, never at a better level than the first one it fills, long and short |
| `Triggers.TriggerIsTight` | app/backtesting/ibkr_atr_comparison.py:74-87 | some path first fills at the very level, gaps beyond the target aside; the reason tells which levels the bar touches |
| `Triggers.SpotTriggersCompose` | app/backtesting/spot_exit_comparison.py:24-40 | the opening and the intrabar trigger in sequence are the long trigger |
| `IbkrBacktest.Validate` | app/backtesting/ibkr_atr_comparison.py:23-57 | accepts exactly the bundles with the right header whose rows are complete, of weekdays and regular hours, in order, without gaps, finished when collected and validly priced; an accepted bundle is returned as its rows |
| `IbkrBacktest.ValidateSessions` | app/backtesting/ibkr_intraday_comparison.py:18-24 | accepts exactly the rows whose validation days each have the exit bar |
| `IbkrBacktest.Signals` | app/backtesting/ibkr_atr_comparison.py:60-71 | the stream holds, at each bar, what the 200 bars before it call for |
| `IbkrBacktest.Simulate` | app/backtesting/ibkr_atr_comparison.py:90-152 | the loop over its own variables, entries and exits included, ends in the state on which the theorems below are proved |
| `IbkrBacktest.EquityIsAccounted` | app/backtesting/ibkr_atr_comparison.py:92-151 | after every bar: equity = capital + closed P&L + open position marked less its entry fee; `fees` holds every commission |
| `IbkrBacktest.EntryIsBracketed` | app/backtesting/ibkr_atr_comparison.py:108-126 | an entry lies between its positive levels, its target twice as far as its stop, and costs at most a fifth of the cash |
| `IbkrBacktest.StopLossesAreBounded` | app/backtesting/ibkr_atr_comparison.py:112-148 | every STOP or STOP_FIRST trade, long or short, loses at most its planned risk plus quantity * stop * slip, both commissions included |
| `IbkrBacktest.NeverOvernight` | app/backtesting/ibkr_atr_comparison.py:95-148 | with the intraday policy, on every validated bundle with complete sessions, a held position is always of the current day and before the exit bar |
| `IbkrBacktest.IntradayPolicyIsAlwaysFlat` | app/backtesting/ibkr_intraday_comparison.py:27-45 | for every validated bundle with complete sessions the run ends flat and no trade spans two dates: the raise is unreachable |
| `IbkrBacktest.NoLookAhead` | app/backtesting/ibkr_atr_comparison.py:60-152 | histories that agree through a bar give the same state after it, decisions and ATR windows included |
| `IbkrTrades.EntryOpens` | app/backtesting/ibkr_atr_comparison.py:100-128 | an entry is made exactly when one share is affordable and both levels are positive: long for BUY, short for SELL, at the bar's opening with slippage, its stop at the planned distance, its quantity the greatest within plan, risk budget and a fifth of the cash |
| `IbkrTrades.EligibleBarsOpen` | app/backtesting/ibkr_atr_comparison.py:99-130 | in every run a flat account with cash takes each decision that can open a position and counts each that cannot |
| `IbkrTrades.EveryPositionIsGenuine` | app/backtesting/ibkr_atr_comparison.py:95-148 | in every run each position is such an entry, untouched by every bar until its exit; each trade closes it at the level its bar calls for, with slippage, for its rounded P&L |
| `IbkrTrades.DrawdownIsTracked` | app/backtesting/ibkr_atr_comparison.py:149-152 | in every run the peak is the highest equity marked at a close, capital included, and the drawdown the greatest percentage below the peak so far |
| `SpotAccount.EnterIsSound` | app/backtesting/spot_walk_forward.py:80-92 | an affordable entry keeps accounting, solvency, peak and drawdown |
| `SpotAccount.CloseIsSound` | app/backtesting/spot_exit_comparison.py:48-63 | a close keeps them, the dust block included |
| `SpotAccount.MarkIsSound` | app/backtesting/spot_walk_forward.py:106-109 | marking a bar keeps them: peak and drawdown are those of the whole curve from the capital on |
| `SpotAccount.EquityIsAccounted` | app/backtesting/spot_walk_forward.py:72-112 | equity = capital + closed P&L + quantity * (close - entry price) - entry fee |
| `SpotAccount.Account.Buy` | app/backtesting/spot_walk_forward.py:90-92 | an entry changes cash, quantity and entry as specified and nothing else |
| `SpotAccount.Account.Sell` | app/backtesting/spot_exit_comparison.py:48-63 | a close appends one trade and empties the position, or blocks a lot below the minimum |
| `SpotAccount.Account.MarkClose` | app/backtesting/spot_walk_forward.py:106-109 | a mark appends to the curve and raises peak and drawdown as specified |
| `SpotWalkForward.Signals` | app/backtesting/spot_walk_forward.py:60-69 | the decision at a bar is that of the 200 bars that end with it |
| `SpotWalkForward.ActOn` | app/backtesting/spot_walk_forward.py:72-105 | the opening of a bar changes the account as specified |
| `SpotWalkForward.Simulate` | app/backtesting/spot_walk_forward.py:72-112 | the loop over the live account computes the state before every bar |
| `SpotWalkForward.AlwaysSound` | app/backtesting/spot_walk_forward.py:72-112 | after every bar: exact accounting, cash never negative, positive when flat, drawdown that of the whole curve |
| `SpotWalkForward.SizingNeverRaises` | app/backtesting/spot_walk_forward.py:80-83 | the sizing call of a flat account always has the positive cash it demands |
| `SpotWalkForward.SameBarsSameAccount` | app/backtesting/spot_walk_forward.py:72-112 | bars through `n` and decisions before `n` determine the account through bar `n` |
| `SpotWalkForward.NoLookAhead` | app/backtesting/spot_walk_forward.py:60-112 | histories that agree through a bar give the same trades, blockers and curve through it, signals included |
| `SpotWalkForward.TrainingUsesOnlyEarlierBars` | app/backtesting/spot_walk_forward.py:148-150 | a training fold depends only on rows before its fold |
| `SpotWalkForward.TradesAreInOrder` | app/backtesting/spot_walk_forward.py:72-112 | trades come in strictly increasing exit bars |
| `SpotWalkForward.ValidationFolds` | app/backtesting/spot_walk_forward.py:147-157 | the folds together hold every closed trade exactly once, each in the fold of its exit bar |
| `SpotWalkForward.TrainingRuns` | app/backtesting/spot_walk_forward.py:148-150 | one run per fold, over the bars that end where the fold begins |
| `SpotWalkForward.WalkForward` | app/backtesting/spot_walk_forward.py:147-157 | for one case of slippage: the folds together hold the run's trades once each and in order, each in the fold of its exit bar; the training run of a fold ends where the fold begins |
| `SpotWalkForward.Report` | app/backtesting/spot_walk_forward.py:126-168 | refused exactly for settings, history or cases outside their bounds; otherwise one such scenario for each case of slippage |
| `SpotWalkForward.CloseIsLeveled` | app/backtesting/spot_exit_comparison.py:48-63 | a close at or below the target, and outside gaps at or above the stop, keeps every trade within its levels before slippage |
| `SpotWalkForward.TradeIsBounded` | app/backtesting/spot_exit_comparison.py:48-63 | a trade within its levels gains at most its target distance and, gaps aside, loses at most its stop distance plus slippage and fees |
| `BaselineTrades.LotIs` | app/backtesting/spot_walk_forward.py:80-88 | the lot entered is the plan's quantity rounded down to a step that can be bought, or none can |
| `BaselineTrades.EveryBarIsGenuine` | app/backtesting/spot_walk_forward.py:72-109 | in every run a flat account buys at a bar's opening, with slippage, exactly after a BUY whose lot fits; a holding one sells at the opening, with slippage, exactly after a SELL of a lot that can be sold; nothing else moves it |
| `BaselineTrades.EveryTradeIsGenuine` | app/backtesting/spot_walk_forward.py:72-112 | in every run each entry and each trade was made so, and no decision between them could sell |
| `BaselineTrades.OpeningSuffices` | app/backtesting/spot_walk_forward.py:60-112 | histories that agree before a bar, and in its opening alone, give the same cash, lot, entry, trades and blockers after it |
| `SpotExit.AlwaysWithinLevels` | app/backtesting/spot_exit_comparison.py:65-114 | in every run each entry lies strictly between its levels and no exit is above its target or, gaps aside, below its stop, before slippage |
| `SpotExit.EveryTradeIsBounded` | app/backtesting/spot_exit_comparison.py:48-114 | every trade of every run gains at most its target distance and, gaps aside, loses at most its stop distance plus slippage and fees |
| `SpotExit.ActOn` | app/backtesting/spot_exit_comparison.py:66-114 | opening, entry and intrabar exits of a bar change the account as specified |
| `SpotExit.BuyOn` | app/backtesting/spot_exit_comparison.py:78-110 | an entry, and the exit that slippage can force at the same opening, as specified |
| `SpotExit.Simulate` | app/backtesting/spot_exit_comparison.py:43-121 | the loop computes the state before every bar |
| `SpotExit.AlwaysSound` | app/backtesting/spot_exit_comparison.py:43-121 | accounting and solvency after every bar |
| `SpotExit.NoLookAhead` | app/backtesting/spot_exit_comparison.py:17-121 | no look-ahead, the entry's ATR window included |
| `AtrTrades.BuyIs` | app/backtesting/spot_exit_comparison.py:78-110 | an entry is at the bar's opening with slippage, its stop one and a half measured ranges below that price and its target twice as far above it, or blocked for the first reason that applies |
| `AtrTrades.EveryBarIsGenuine` | app/backtesting/spot_exit_comparison.py:65-121 | in every run each bar enters, exits at the opening or within its range, or leaves the account as it is, exactly as its decision, opening, low and high call for |
| `AtrTrades.EveryTradeIsGenuine` | app/backtesting/spot_exit_comparison.py:43-121 | in every run each entry and each trade was made so, and no bar between them could end the position |
| `SpotBreakout.Decide` | app/backtesting/spot_breakout_v1.py:32-45 | the one-pass rule with its maximum and mean decides as the rule over all prior candles |
| `SpotBreakout.Decisions` | app/backtesting/spot_breakout_v1.py:28-46 | the rule's decisions sit on the last row of each complete candle, each from the 200 candles that end with it |
| `SpotBreakout.AlwaysWithinLevels` | app/backtesting/spot_breakout_v1.py:69-116 | the same for every run of the breakout policy |
| `SpotBreakout.EveryTradeIsBounded` | app/backtesting/spot_breakout_v1.py:69-116 | the same bound on every trade of every run of the breakout policy |
| `SpotBreakout.EntryRisksOnePercent` | app/backtesting/spot_breakout_v1.py:85-107 | an entry risks at most one percent of the cash over its stop distance and invests at most a fifth |
| `SpotBreakout.ActOn` | app/backtesting/spot_breakout_v1.py:70-116 | one bar changes the account as specified |
| `SpotBreakout.OpenOn` | app/backtesting/spot_breakout_v1.py:70-110 | the opening exits or enters as specified, and says whether it tried |
| `SpotBreakout.CloseOn` | app/backtesting/spot_breakout_v1.py:111-116 | a touched level closes the position, the stop first |
| `SpotBreakout.BuyOn` | app/backtesting/spot_breakout_v1.py:85-110 | an entry and its immediate exit, as specified |
| `SpotBreakout.Simulate` | app/backtesting/spot_breakout_v1.py:49-123 | the loop computes the state before every bar |
| `SpotBreakout.AlwaysSound` | app/backtesting/spot_breakout_v1.py:49-123 | accounting and solvency after every bar |
| `SpotBreakout.NoLookAhead` | app/backtesting/spot_breakout_v1.py:28-123 | no look-ahead, candles and decisions included |
| `BreakoutTrades.LotIs` | app/backtesting/spot_breakout_v1.py:85-100 | the lot is the greatest within one percent of the cash at risk, a fifth of it invested and the cash itself, rounded down to a step that can be bought, or none can |
| `BreakoutTrades.BuyIs` | app/backtesting/spot_breakout_v1.py:85-110 | an entry is at the bar's opening with slippage its stop two ranges below that price and its target three times as far above it, or blocked for the first reason that applies |
| `BreakoutTrades.EveryBarIsGenuine` | app/backtesting/spot_breakout_v1.py:69-123 | in every run each bar does exactly what its decision, opening, low and high call for |
| `BreakoutTrades.EveryTradeIsGenuine` | app/backtesting/spot_breakout_v1.py:49-123 | in every run each entry and each trade was made so, and no bar between them could end the position |
| `FifteenMinutes.GroupRows` | app/backtesting/spot_timeframe_comparison.py:15-18 | the dictionary holds each bucket's rows, its keys in order of first appearance |
| `FifteenMinutes.AggregateFifteen` | app/backtesting/spot_timeframe_comparison.py:13-36 | on gapless rows: the stride-3 slices from the first aligned row and their last indices; neither interior error is reachable |
| `FifteenMinutes.CandlesAreValid` | app/backtesting/spot_timeframe_comparison.py:28-33 | every candle has valid prices and its interval's stamp, and at most two rows are discarded at each edge |
| `FifteenMinutes.CandleFigures` | app/backtesting/spot_timeframe_comparison.py:19-33 | a candle has the opening of its first row, the close of its last, the extremes and the volume of all three, from an aligned row on |
| `FifteenMinutes.EveryIntervalIsACandle` | app/backtesting/spot_timeframe_comparison.py:13-36 | every aligned row with two after it starts a candle |
| `FifteenMinutes.FifteenSignals` | app/backtesting/spot_timeframe_comparison.py:39-50 | a decision is written at the last row of its candle when a next opening exists |
| `FifteenMinutes.SlicesAgree` | app/backtesting/spot_timeframe_comparison.py:13-36 | a closed candle and all before it are determined by the rows so far |
| `FifteenMinutes.DecisionsAgree` | app/backtesting/spot_timeframe_comparison.py:39-50 | decisions before a bar depend only on rows through it |
| `FifteenMinutes.NoLookAheadOnCandles` | app/backtesting/spot_timeframe_comparison.py:69-76 | the simulation driven by fifteen-minute decisions does not look ahead |
| `Drawdown.MaxDrawdown` | app/api/routes_phase36_verified.py:30-42 | the one-pass absolute drawdown is the largest fall of the running total from an earlier to a later point, zero baseline included |
| `Drawdown.DailyDrawdown` | app/services/profit_chart.py:77-84 | running total, peak, its first day and drawdown are those of the whole curve |
| `Drawdown.DropExtends` | app/services/profit_chart.py:77-84 | one more point updates the pairwise drawdown through the peak alone |
| `Drawdown.FallExtends` | app/backtesting/spot_walk_forward.py:106-109 | one more non-negative point updates the pairwise percentage drawdown through the peak alone |
| `Onboarding.JobRow.Amend` | app/api/routes_ibkr_onboarding.py:107-117 | answers and assigns as the transition says, and changes nothing on refusal |
| `Onboarding.JobRow.Approve` | app/api/routes_ibkr_onboarding.py:121-131 | the same for an approval |
| `Onboarding.JobRow.Reject` | app/api/routes_ibkr_onboarding.py:135-139 | the same for a rejection |
| `Onboarding.JobRow.SubmitLogin` | app/api/routes_ibkr_onboarding.py:143-155 | the same for a login submission |
| `Onboarding.JobRow.Sweep` | app/api/routes_ibkr_onboarding.py:168-170 | an expired lease fails its job and erases login and lease |
| `Onboarding.JobRow.Claim` | app/api/routes_ibkr_onboarding.py:171-183 | hands out login and lease, or fails the job |
| `Onboarding.JobRow.Acknowledge` | app/api/routes_ibkr_onboarding.py:187-197 | accepted only for the current, unexpired lease |
| `Onboarding.JobRow.Conclude` | app/api/routes_ibkr_onboarding.py:211-239 | the second half of a verification, under a fresh lock |
| `Onboarding.TransitionsAreSound` | app/api/routes_ibkr_onboarding.py:93-239 | every handler keeps: login stored iff QUEUED or PROVISIONING, lease iff PROVISIONING, attempts <= 3 and >= 1 while PROVISIONING or LOGIN_REQUIRED, a profile only if CONNECTED, bridge token while it is needed |
| `Onboarding.SecretsAreStored` | app/api/routes_ibkr_onboarding.py:165-210 | in every reachable queue a claim finds the login and token it decrypts, and a verification the token |
| `Onboarding.NextIsSound` | app/api/routes_ibkr_onboarding.py:93-239 | every event on the queue, removal of a profile or of the approving user included, keeps every job sound |
| `Onboarding.NextKeepsUse` | app/api/routes_ibkr_onboarding.py:143-197 | every event keeps: a login is handed out at most once, a lease acknowledged at most once, by its job and not after it expires |
| `Onboarding.NextKeepsProfiles` | app/api/routes_ibkr_onboarding.py:211-239 | every event keeps: a job creates at most one profile, also under racing verifications, and then stays CONNECTED with that profile or, once it is removed, with none |
| `Onboarding.OnboardingIsSafe` | app/api/routes_ibkr_onboarding.py:93-239 | all of these hold in every reachable interleaving, removals included |
| `Onboarding.AccountFollows` | app/api/routes_ibkr_onboarding.py:107-117 | over any events the account of a job is the one its last accepted amendment set, or unchanged |
| `Onboarding.VerifiedAccountIsStored` | app/api/routes_ibkr_onboarding.py:208-239 | if no amendment, or no approval, of the job is accepted while a verification waits, the profile is created for the verified account |
| `Onboarding.ProfileMatchesIff` | app/api/routes_ibkr_onboarding.py:201-239 | over any events during the wait: the created profile names the verified account if and only if the job was not amended or its last amendment set that account |
| `Onboarding.AmendNeedsApproval` | app/api/routes_ibkr_onboarding.py:107-131 | no amendment is accepted during the wait before an approval of the job is |
| `Onboarding.AnotherAccountCanConnect` | app/api/routes_ibkr_onboarding.py:107-239 | a run of events from the empty queue after which the one profile names an account that was not verified |
| `OnboardingCustody.EveryJobHasCustody` | app/api/routes_ibkr_onboarding.py:93-239 | in every reachable queue each job was brought to its state by accepted requests, each after the one it needs: approved for an active owner and a free account, logged in by its owner, claimed, started, verified for an assignable account |
| `OnboardingCustody.EventsAreSteps` | app/api/routes_ibkr_onboarding.py:93-239 | no event moves a job forward but as such a step, and a new job is a request by its key alone |
| `OnboardingCustody.DueRequestsSucceed` | app/api/routes_ibkr_onboarding.py:93-155 | a request of user or administrator that the job's state and the guards allow is carried out |
| `OnboardingCustody.DueAnswersSucceed` | app/api/routes_ibkr_onboarding.py:159-239 | so are a claim, a worker's answer and the end of a verification |
| `FlexFile.ParseFlex` | app/services/ibkr_statement_import.py:56-102 | the nested loops accept a file exactly when the specification does, and return its executions by trade identifier; symbols are compared in upper case |
| `FlexFile.ReadIffConsistent` | app/services/ibkr_statement_import.py:63-99 | rows are read exactly when all execution rows are acceptable and repeated identifiers agree; then every row is held and nothing else |
| `FlexFile.AcceptableIff` | app/services/ibkr_statement_import.py:63-99 | an execution row is acceptable exactly when it is of the account, a USD stock execution with USD fees, opens or closes, has a side that fits its sign, a positive price, no multiplier, correction or tax, all identifiers, readable figures and a time |
| `FlexFile.ReadFigures` | app/services/ibkr_statement_import.py:90-96 | an acceptable row is read as its own identifiers, side, absolute quantity, price, signed fee, P&L and time |
| `SavedFills.ProveFill` | app/services/ibkr_entry_fill.py:16-58 | the loop over callbacks ends with the proof that the specification gives, or with none |
| `SavedFills.ProvedIff` | app/services/ibkr_entry_fill.py:16-53 | a fill is proved exactly when the action qualifies, its own callbacks all fit its symbol, side and lifetime, repeated ones agree, and the distinct executions add up to its quantity |
| `SavedFills.ProofMeans` | app/services/ibkr_entry_fill.py:46-58 | a proof covers the quantity, its price lies within those of own callbacks, its time is their last, and it names their executions |
| `SavedFills.ProofIsStable` | app/services/ibkr_entry_fill.py:16-58 | what is proved depends neither on order or repetition of callbacks nor on those of other orders and accounts, and stays proved |
| `SavedFills.ReadFill` | app/services/ibkr_ledger_history.py:10-60 | the audit of an action is read as a fill, from the broker's status or from saved executions, or refused, as specified |
| `SavedFills.SavedFillMeans` | app/services/ibkr_ledger_history.py:10-60 | a saved fill covers its action's quantity at a positive price; an exit is only read from the full broker status; once read it stays as it is |
| `EvidenceFigures.ProvedExactly` | app/services/ibkr_entry_fill.py:16-53 | in the callbacks' own fields: a fill is proved exactly when the action qualifies, its own callbacks are plausible and consistent, and their distinct executions sum to its quantity |
| `EvidenceFigures.ProofFigures` | app/services/ibkr_entry_fill.py:46-58 | its quantity and its price times quantity are the sums over the distinct executions |
| `EvidenceFigures.ProofNames` | app/services/ibkr_entry_fill.py:46-58 | its time is their last, and it names them |
| `EvidenceFigures.ReadExactly` | app/services/ibkr_ledger_history.py:10-60 | a saved action is read exactly from a status that fills it, with that status's figures, or for an entry from its saved proof, with the proof's |
| `Evidence.SumIgnoresOrder` | app/services/ibkr_statement_import.py:114-127 | quantity, value, fees, P&L and latest time of a group do not depend on the order of its executions |
| `Evidence.StoredEvidenceRevalidates` | app/services/ibkr_statement_import.py:204-212 | evidence recomputed from the executions it stored, in any order, is the stored evidence |
| `Evidence.EvidenceStore.Owners` | app/services/ibkr_statement_import.py:155-158 | the reverse index maps each stored execution to the one action that holds it |
| `Evidence.EvidenceStore.Check` | app/services/ibkr_statement_import.py:160-177 | a mapped action passes exactly when it fits: known action, distinct known identifiers of one whole order, held by no other action, evidence that agrees with what is stored |
| `Evidence.EvidenceStore.Reconcile` | app/services/ibkr_statement_import.py:140-201 | accepted exactly when every mapping fits; writes all new evidence or, when rejected or previewed, nothing; reports duplicates and unmapped executions |
| `Evidence.GatheredIffAgree` | app/services/ibkr_closed_recovery.py:42-53 | own callbacks are gathered exactly when repeated ones agree in every field, and then once each |
| `Evidence.EvidenceStore.CloseEvidence` | app/services/ibkr_closed_recovery.py:30-69 | the closing is accepted, with the saved fill, the proof by callbacks and the sums of P&L and commission, or refused, as specified |
| `Evidence.EvidenceStore.HeldElsewhere` | app/services/ibkr_closed_recovery.py:124-130 | the loop over stored rows finds an execution of the group exactly when another action holds one |
| `Evidence.EvidenceStore.Recover` | app/services/ibkr_closed_recovery.py:78-155 | accepted exactly when the pair is recoverable, its closing and opening evidence computed from audits, callbacks and file; writes the missing rows of the pair or nothing |
| `Evidence.ClosingIsStable` | app/services/ibkr_closed_recovery.py:30-69 | a closing depends neither on order or repetition of callbacks nor on those of other orders, and stays confirmed |
| `Evidence.StoredPairRevalidates` | app/services/ibkr_closed_recovery.py:158-184 | read back from the stored executions and callbacks, in any order and at any later time, the stored opening and closing are found again |
| `Evidence.ImportedOrdersAreWhole` | app/services/ibkr_statement_import.py:169-177 | after an applied import every mapped action holds every execution of one broker order of the file |
| `Evidence.ImportKeepsUnique` | app/services/ibkr_statement_import.py:155-188 | an import keeps executions exclusive to one action and overwrites nothing |
| `Evidence.RecoveryKeepsUnique` | app/services/ibkr_closed_recovery.py:124-154 | so does a recovery |
| `Evidence.EvidenceIsSafe` | app/services/ibkr_closed_recovery.py:124-154 | over any sequence of both workflows no execution belongs to two actions and stored evidence never changes |
| `Evidence.RepeatAddsNothing` | app/services/ibkr_statement_import.py:174-188 | an accepted, applied request is accepted again, whenever it is made and after any other requests, and adds nothing |
| `EvidenceFigures.ClosedIff` | app/services/ibkr_closed_recovery.py:30-58 | a closing is confirmed exactly for an own Paper exit with an audited fill and a proof at the same price and in its lifetime, identical repeated callbacks, and figures in USD |
| `EvidenceFigures.ClosingFigures` | app/services/ibkr_closed_recovery.py:57-69 | its quantity is the audit's; P&L and commission are given exactly when every distinct own callback gives them, and then are the sums over these callbacks |
| `EvidenceFigures.ClosingNames` | app/services/ibkr_closed_recovery.py:42-69 | it keeps and names the distinct own callbacks, at the time of their last |
| `EvidenceFigures.StatementIff` | app/services/ibkr_statement_import.py:105-123 | statement evidence exists exactly when a saved fill does and the executions are of one order, agree with it and cover its quantity at its price |
| `EvidenceFigures.StatementFigures` | app/services/ibkr_statement_import.py:114-137 | its price is the quantity-weighted one, its time the last, its commission the sum with the sign turned, its P&L the sum, given exactly for a close whose executions all have one |
| `EvidenceFigures.OpeningIff` | app/services/ibkr_closed_recovery.py:72-88 | an opening is confirmed exactly for an own Paper entry opposite to the exit, with distinct opening executions of one order within its lifetime and of the quantity of both |
| `EvidenceFigures.OpeningFigures` | app/services/ibkr_closed_recovery.py:78-99 | its figures are the sums, the weighted price and the last time of these executions |
| `EvidenceFigures.RecoverableIff` | app/services/ibkr_closed_recovery.py:102-144 | a pair is recovered exactly when the review names an entry that the exit references, with free executions that confirm its opening, a confirmed closing, and nothing stored that differs |
| `EvidenceFigures.RecoveredRows` | app/services/ibkr_closed_recovery.py:131-154 | an applied recovery stores both rows with both figures, the executions with the entry alone, and nothing else |
| `EvidenceFigures.FitsIff` | app/services/ibkr_statement_import.py:160-176 | a mapped action passes exactly when its executions are free and whole, no earlier mapping has them, and its evidence exists and is what is stored, if anything is |
| `EvidenceFigures.AcceptedIff` | app/services/ibkr_statement_import.py:140-177 | an import is accepted exactly when its whole mapping passes, which is not empty if it is to be applied |
| `EvidenceFigures.ImportedRows` | app/services/ibkr_statement_import.py:178-188 | an accepted, applied import stores for each mapped action the evidence of its saved fill and executions, and nothing else |
| `EvidenceFigures.DuplicatesAreCounted` | app/services/ibkr_statement_import.py:189-191 | the reported duplicates are the mapped actions that have a row |
| `ManagedInventory.Inventory.ApplyManagedFill` | app/services/bybit_spot_execution.py:97-119 | raises exactly for an inapplicable fill, changing nothing; otherwise the new inventory is the specified one |
| `ManagedInventory.Inventory.ReconcileSell` | app/services/bybit_spot_execution.py:354-377 | the inventory is written down to a smaller broker balance; otherwise the sell is the least of what is asked, managed and held |
| `ManagedInventory.Inventory.Execute` | app/services/bybit_spot_execution.py:274-441 | the outcome with its reason, the quantity sent and the new inventory, from the first gate over the lot rule to the applied fill, which never raises; a placement that raises leaves a sell's write-down |
| `ManagedInventory.OutcomeMeans` | app/services/bybit_spot_execution.py:274-441 | only an executed order moves what was bought and sold; a refused one changes nothing; any other can at most write a sell's inventory down to the broker's balance |
| `ManagedInventory.SentIsALot` | app/brokers/bybit_private.py:94-106 | what is sent is what is asked rounded down by less than a step, a positive whole number of steps and at least the minimum |
| `ManagedInventory.BuysExceedResidual` | app/services/bybit_spot_execution.py:29-62 | a buy on top of what is held sends more than that |
| `ManagedInventory.SellsAreCovered` | app/services/bybit_spot_execution.py:341-377 | a submitted sell, before and after rounding, exceeds neither what is managed, nor the broker's balance, nor what was asked |
| `ManagedInventory.NextIsBalanced` | app/services/bybit_spot_execution.py:97-119 | every order keeps 0 <= managed <= bought - sold + eps * sells, and the lower bound while nothing was written down |
| `ManagedInventory.NextIsAveraged` | app/services/bybit_spot_execution.py:105-112 | every order keeps the average between the lowest and highest priced buy since the inventory was empty, once the first of them is priced |
| `ManagedInventory.InventoryIsSound` | app/services/bybit_spot_execution.py:341-441 | both hold over any run of orders, fills and reconciliations |
| `ManagedInventory.HistoryIsRecorded` | app/services/bybit_spot_execution.py:97-119 | in every reachable history the recorded buys since the inventory was empty are none exactly when nothing is managed, and there is no average before the first priced one |
| `ManagedInventory.FirstPricedBuyIff` | app/services/bybit_spot_execution.py:105-112 | in every reachable history the first priced buy leaves the average between the priced buys if and only if it is the first buy since the inventory was empty |
| `ManagedInventory.AverageIsNeverAbove` | app/services/bybit_spot_execution.py:105-112 | in every reachable history the average is positive and not above the highest priced buy since the inventory was empty, whichever buys were priced |
| `ManagedInventory.AverageCanBeBelowEveryBuy` | app/services/bybit_spot_execution.py:29-441 | a run from nothing, under one lot rule, whose average is below every priced buy |
| `ManagedOrders.AllowedIff` | app/services/bybit_spot_execution.py:298-344 | an order passes the gates exactly when the route is ready, the quantity positive, a buy finds nothing or confirmed dust, and a sell is covered by what is managed |
| `ManagedOrders.RefusedFor` | app/services/bybit_spot_execution.py:298-344 | otherwise the first refusal that applies is given |
| `ManagedOrders.SentIff` | app/services/bybit_spot_execution.py:346-386 | it is sent exactly when, further, more than dust of a sell is left after the balance and the lot rule accepts the quantity; what is sent is rounded down to whole steps |
| `ManagedOrders.BookedIff` | app/services/bybit_spot_execution.py:418-427 | the fill of a sent order, the first positive quantity reported or else what was asked, is booked exactly when a sell takes no more than is held |
| `ManagedOrders.ExecutedBuy` | app/services/bybit_spot_execution.py:105-112 | an executed buy adds that quantity, and its price by weight to the average when one is reported |
| `ManagedOrders.ExecutedSell` | app/services/bybit_spot_execution.py:113-119 | an executed sell takes that quantity from what the balance left, and empties an inventory of dust |
| `ManagedOrders.UnbookedLeaves` | app/services/bybit_spot_execution.py:346-427 | any other order leaves the inventory as it is, an allowed sell what the balance leaves |
| `ManagedOrders.AnsweredAs` | app/services/bybit_spot_execution.py:346-427 | the answer of each order that is not booked |
| `NewsWindows.SortedAnchors` | app/services/trade_news_context.py:16-21 | the distinct nonzero anchors of all rows, ascending |
| `NewsWindows.MergeWindows` | app/services/trade_news_context.py:22-30 | extending the last window in place computes the specified merge |
| `NewsWindows.MergedAreSeparated` | app/services/trade_news_context.py:22-30 | merged windows are disjoint and ordered |
| `NewsWindows.MergedCoverExactly` | app/services/trade_news_context.py:22-30 | they cover exactly the 24 hours before each anchor |
| `NewsWindows.BuildIndex` | app/services/trade_news_context.py:35-48 | each symbol's list is the articles that name it, in fetched order |
| `NewsWindows.AttachTradeNews` | app/services/trade_news_context.py:20-58 | every row is served the first three fetched, matching articles per stage, and their union without repetition |
| `NewsWindows.FetchedIff` | app/services/trade_news_context.py:20-54 | an article eligible for an anchor is fetched if and only if it is not dated inside the anchor's own millisecond, after its start, or another anchor follows within a day |
| `NewsWindows.ServedIsScanByDates` | app/services/trade_news_context.py:20-54 | a row is served what a scan of every article gives if and only if another anchor follows within a day or no stored article about its symbol is dated inside the anchor's own millisecond, after its start |
| `NewsWindows.OnlyTheAnchorsMillisecondIsMissed` | app/services/trade_news_context.py:40-54 | an article the scan gives and the query misses is dated inside the anchor's own millisecond, after its start |
| `NewsWindows.WholeMillisecondsAreServed` | app/services/trade_news_context.py:20-58 | with articles dated in whole milliseconds the query and the full scan always agree |
| `NewsWindows.AnArticleCanBeMissed` | app/services/trade_news_context.py:24-54 | a trade and an article for which they differ |
| `NewsWindows.ScanGivesNewest` | app/services/trade_news_context.py:34-54 | with articles newest first, an eligible article that is not given is no newer than the three that are |
| `NewsRows.FitsIff` | app/services/trade_news_context.py:40-54 | an article fits a row exactly when it names its symbol and its millisecond is in the 24 hours up to the row's time |
| `NewsRows.InQueryIff` | app/services/trade_news_context.py:21-34 | the query reaches an article exactly when its date is in the 24 hours up to a time of some row |
| `NewsRows.RowShowsFirstThree` | app/services/trade_news_context.py:40-58 | a row's list for a stage is the first three stored articles, in order, that fit it and are reached |
| `NewsRows.NewsAreBoth` | app/services/trade_news_context.py:51-58 | a row's news are its entry's articles and then those of its exit that are not among them |

## Left out

- ExecutionLots.PairExecutionLots: the ISO texts of the two times are not modelled. Lots are values in the queue, so the sharing of lot lists between queue and snapshot is expressed by position.
- BybitReport.MatchReportRows: takes the rows already built from their fills.
- Drawdown.MaxDrawdown: states the absolute figure only; the percentage figure divides by a peak of cumulative P&L, for which no pairwise meaning is claimed when totals are negative.
- Drawdown.DailyDrawdown: takes the daily sums; grouping rows into days, instruments and accounts is not modelled, nor is the rounding of reported figures.
- IbkrBacktest.Validate: the conversion of a timestamp to the exchange's local date, weekday and minute is given, and the theorems on sessions assume that this clock does not run backward over the bars.
- IbkrBacktest.Simulate: returns the loop's state; summary figures derived from it (profit factor, rounded totals) are not modelled, and no lower bound of equity is claimed for short positions.
- SpotWalkForward.ValidationFolds: takes the trades of the validation run; metrics, routes and report texts are not modelled.
- SpotWalkForward.WalkForward: the metrics of runs and folds are not modelled, nor the validation of the bundle, whose rows and rules are given as valid.
- SpotBreakout.Decisions: the two averages and the true range are arbitrary functions of the 200 candles.
- FifteenMinutes.AggregateFifteen: takes rows that baseline validation accepted; the choice of the common window of two timeframes is not modelled.
- Protection.ProtectionAtMostOnce: the bridge's handlers are atomic steps under their lock and broker callbacks are atomic; identities under unlocked threads, and identities across bridge restarts, are the broker's to keep apart. `recover_rejected_levels` (app/services/ibkr_protection_recovery.py:103), which an operator may apply, writes PRE_SUBMISSION_BLOCKED into the same record; the theorem is about runs without it.
- ProtectionParties.Bridge.Protect: broker reads are gathered in one input, the tick-rounded pair and the outcome of the checks before it (position, contract, bracket) included, so when each of them happens is not modelled, and their own waits are not; the protocol allows a crash between any two steps, this method does not.
- ProtectionLevels.TicksNeverWiden: decimal texts are reals, and checks of finiteness are not modelled.
- Onboarding.OnboardingIsSafe: other tables (users, registered accounts, competing jobs, profiles) are adversarial inputs, and what removing a profile demands of it is not modelled; encryption, hashing and authentication are not modelled, a login and a lease are serial numbers.
- Onboarding.VerifiedAccountIsStored: says nothing of profiles created by other routes, and at most one active job or profile per account is not claimed.
- FlexFile.ParseFlex: XML, its size and entity checks, and the conversion of local times are not modelled; an element is a row of attributes, its numbers and time already read or refused; upper-casing covers Latin letters only.
- Evidence.EvidenceStore.Reconcile: trades of a row are a set instead of a sorted list; decimals are reals; the profile keeps one owner, so the two workflows see the same rows.
- Evidence.EvidenceStore.Recover: decimals and binary fractions are reals; times of callbacks are given as read from their texts.
- Performance.MatchAndPair: the rows of other profiles are given, and no other row of the report's profile has a price and a quantity.
- ManagedInventory.Inventory.Execute: what the first gates read (environment, certification, connection, pending submission) is given with the order; the lot rule is read once per order. `sent` is the quantity after the client rounded it to the lot step.
- NewsWindows.ServedIsScanByDates: for articles dated from 1970 on, as truncation to milliseconds turns around there; the query returns the newest first.
- NewsWindows.AttachTradeNews: an article is identified by its own value (identifiers are primary keys); titles, links and scores are not modelled, and conversion between floating-point seconds and milliseconds is exact.
- The signals of the strategy router, indicators, sentiment, MT5 volume rounding, `recover_rejected_levels`, `merge_saved_fills`, readiness rows, and the account, admin and market routes.
