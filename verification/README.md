# A verified model of the trading core

A Dafny 4.11 model of the parts of this trading system in which a mistake costs money or loses work:
the FIFO ledger and its target prices, the backtest replay, the paper broker with its restart recovery,
and the small protocols around them (worker leases, the bounded backtest queue, resumable backfill and
gap repair, run metrics). `dafny verify dfyconfig.toml` checks everything.

What is proved, in the system's own terms:

- **FIFO ledger.** After any history that goes through, the queue is the purchases in order with the total
  sold cut off the front; units, cost and fees are conserved; two sales match what one sale of both does.
  With whole units the 1e-9 tolerance is inert; for every real request the result is pinned down within
  it, and `consume` divides by zero for exactly the requests in (0, 1e-9].
- **Target price.** Doubling, 64 bisections and the rounding up to a paisa return a price that nets the
  desired proceeds and exceeds any sufficient price by less than a paisa plus 2^-64 of the bracket.
- **Replay.** An order is placed on exactly the bars that call for one and filled at the next open with the
  terms asked for. On NSE every TARGET_HIT nets its percentage over cost and entry fees of the units it
  consumed, no exit fails for lack of inventory, and closed rows plus queue account for every purchase. Every
  row was due, nothing due is missed, and the results reported add up to proceeds less cost. No bar looks
  ahead. Each entered lot is written exactly once and the store's conflict clause drops nothing. A loop over
  mutable state refines the step function.
- **Paper broker.** Over every run of signals, candles and manual closes: caches mirror tables, cycles are
  disciplined, limits hold, lots carry their stops and expiries, and on both markets the ledger balances
  (exactly, or within an explicit per-trade rounding sum). An entry is refused for exactly the first limit it
  breaks and bought exactly when it breaks none.
  A bar of any replay and a candle over the same lots write the same closings, row by sale, expiries included:
  no lot of a replay outlives its expiry. Where a natural claim is false as coded there is a run that breaks it
  and the condition for it: a restart rebuilds a symbol if and only if the log can be read in order of time and
  its holdings and open lots were stored in order; a close overdraws the account if and only if cash and the
  kept share of the sale do not cover the fixed charge; NSE target exits net their percentage as long as no
  candle closes lots of one timeframe while the symbol has others; the exposure cap bounds the entry value of
  open lots on CRYPTO and misses it on NSE.
- **Protocols.** Lease intervals of different owners never overlap; the queue bound holds under every
  interleaving; a backfill ends after at most its remaining chunks and attempts and a COMPLETE job has every
  expected candle; gap ranges are the only maximal grouping of the missing times; the single drawdown pass
  is the quadratic maximum.

Conventions. Prices, fees, quantities and cash are exact reals; `round(x, d)` is any function within a given
distance of x; floats enter only as the limit at which the target search gives up. Times are integers. A
database statement or a lock-protected block is one atomic step. Calls that may raise return a `Result` or
a flag together with what they had already written. Code that updates in place is modelled by classes
whose methods equal a function of the old state; the theorems are about those functions.

## Model

| member | source | states |
|---|---|---|
| Fifo.FifoInventory.constructor | backend/core/fifo.py:83-84 | a new ledger is empty and valid |
| Fifo.FifoInventory.Add | backend/core/fifo.py:86-89 | appends exactly the acquisition at the back, or refuses a non-positive price or quantity or negative fees and changes nothing |
| Fifo.FifoInventory.Consume | backend/core/fifo.py:91-116 | the in-place loop leaves the queue and returns the match of `Sale`, and on each error leaves the queue alone; `SaleExact` and `DrainWithinTolerance` say what that is |
| Fifo.FifoInventory.PreviewAllocations | backend/core/fifo.py:118-121 | matches a series of sales one after another on a clone; the ledger itself cannot change |
| Fifo.ShrinkProportion | backend/core/fifo.py:102-108 | splitting a slice leaves both parts with the slice's fees per unit |
| Fifo.Conservation | backend/core/fifo.py:91-116 | units of every acquisition, cost and fees of a queue are those of the units taken plus those of the units left |
| Fifo.CutCut | backend/core/fifo.py:91-116 | cutting a then b off the front is cutting a + b |
| Fifo.CutAppend | backend/core/fifo.py:86-116 | adding at the back commutes with any feasible cut |
| Fifo.SalesAdd | backend/core/fifo.py:91-116 | two sales match in total the cost, fees and units one sale of both quantities matches |
| Fifo.DrainExact | backend/core/fifo.py:97-109 | on whole quantities the tolerance is inert: the loop takes exactly the first q units |
| Fifo.DrainWithinTolerance | backend/core/fifo.py:97-109 | for every real request the units taken are the first m for some m within 1e-9 of it, and at most one remnant of at most 1e-9 is dropped |
| Fifo.SaleSucceeds | backend/core/fifo.py:91-96 | a whole-unit sale goes through if and only if it is positive and covered |
| Fifo.SaleExact | backend/core/fifo.py:91-116 | a successful whole-unit sale is matched with exactly the first q units, at their cost and fees, and leaves exactly the rest |
| Fifo.SaleDividesByZero | backend/core/fifo.py:99-113 | a positive covered request raises a division by zero if and only if it is at most 1e-9 |
| Fifo.NormalForm | backend/core/fifo.py:86-121 | a whole-unit history goes through if and only if it is legal, and then the queue is the purchases with the total sold cut off |
| Fifo.LegalStep | backend/core/fifo.py:86-96 | legality step by step: valid acquisitions, positive sales, never more sold than bought |
| Fifo.SalesMayMove | backend/core/fifo.py:86-121 | the queue depends only on the order of buys and the total sold |
| Fees.NseProceeds | backend/markets/nse/fees.py:29-32 | what a sale nets is a fixed share of its raw value less the fixed charge |
| Fees.NsePurchase | backend/markets/nse/fees.py:24-27 | what a purchase costs is its raw value raised by slippage and variable charge, plus the fixed charge; the slippage reported is its share of the raw value |
| Fees.NseGrows | backend/markets/nse/fees.py:29-32 | proceeds never fall as the price rises if and only if the kept share is not negative, which only a rate or slippage above 100%, not both, makes it |
| Fees.PercentageProceeds | backend/backtest/engine.py:99-112 | the percentage model nets a fixed share of the raw value |
| Fees.PercentageGrows | backend/backtest/engine.py:93-112 | every validated percentage model has growing proceeds |
| Fees.PercentageReaches | backend/backtest/engine.py:93-112 | a validated percentage model can reach a positive amount if and only if neither charge takes everything |
| TargetPrice.NetProfitTargetPrice | backend/core/fifo.py:51-75 | the doubling and bisection loops compute `NetTarget`, errors included; a percentage is refused if and only if it is not positive, and the price returned nets cost and entry fees of the units with the percentage on top of both |
| TargetPrice.DoubleUpFinds | backend/core/fifo.py:61-66 | the bound found is sufficient and is the first bound or twice an insufficient price |
| TargetPrice.DoubleUpGivesUp | backend/core/fifo.py:63-66 | giving up means no price below half the float limit suffices |
| TargetPrice.BisectFinds | backend/core/fifo.py:67-72 | bisection keeps a sufficient upper end within the bracket over 2^n of any sufficient price |
| TargetPrice.CeilPaisaTight | backend/core/fifo.py:73-75 | rounding up lands on the paisa grid, less than a paisa above |
| TargetPrice.TargetSuffices | backend/core/fifo.py:51-75 | the returned price is on the paisa grid, and a sale at it nets (cost of the units + their entry fees) * (1 + percentage / 100) |
| TargetPrice.TargetTight | backend/core/fifo.py:51-75 | it exceeds every sufficient price by less than a paisa plus the bracket over 2^64 |
| TargetPrice.TargetFailsOnlyBeyondFloats | backend/core/fifo.py:51-66 | a positive target fails only when no price below half the float limit suffices |
| LotNames.LotNameInjective | backend/backtest/engine.py:481-577 | within a symbol the printed lot id determines cycle and lot number |
| ReplayLoop.RunSymbol | backend/backtest/engine.py:395-491 | the bar loop over mutable lots, ledger, counters and batch produces the outcome of the step function, errors and partial output included; `OrderedExactlyWhen`, `EnteredExactlyWhen`, `ReplayIsRight` and `CompletedIsRight` say what that is |
| ReplayLoop.RefreshTargets | backend/backtest/engine.py:600-605 | the loop sets every NSE target to what the lot's present FIFO match needs, or stops at the first that raises |
| ReplayLoop.ExitLoop | backend/backtest/engine.py:424-446 | the exit loop over the live ledger is the step function's exit pass, with the same queue left; `ReplayIsRight` and `NoneMissed` say what it closes and reports |
| ReplayLoop.ReportOpen | backend/backtest/engine.py:484-489 | one OPEN row per remaining lot, each previewed from the front of the same queue |
| ReplayLoop.NextOrder | backend/backtest/engine.py:450-483 | the pending order and counters a bar leaves for the next; `OrderedExactlyWhen` says when there is one |
| ReplayOrders.OrderedExactlyWhen | backend/backtest/engine.py:454-483 | after every bar of every replay an order is pending if and only if the bar is in the window, another follows, the cycle has room, and either the open ladder cycle has dipped far enough below its last entry or the strategy says BUY and the account is flat or may add; it is the next lot of the open cycle or the first of a new one |
| ReplayOrders.EnteredExactlyWhen | backend/backtest/engine.py:408-422 | on every bar of every replay the order of the bar before becomes a lot at this open, unless the ladder's capital does not allow it; its size, price, stop, target percentage and expiry are those the settings, the ladder or the signal ask for |
| ReplayOrders.CancelledExactlyWhen | backend/backtest/engine.py:404-406 | a replay still going stops as cancelled on exactly the bars on which it looks, every 500th, and finds the flag set; what it has written stays |
| ReplayOrders.SizedOnce | backend/backtest/engine.py:171-181 | the size asked for is a single number |
| LotPolicy.PlannedIsPower | backend/backtest/engine.py:171-178 | the share of the lot before, lot by lot, is the power of the share |
| ReplayInventory.RefreshKeeps | backend/backtest/engine.py:600-605 | a refresh changes targets only, and on NSE makes each one fresh |
| ReplayInventory.FirstTargetEarns | backend/backtest/engine.py:424-447 | the first exit of a bar, at a fresh target, nets its percentage |
| ReplayInventory.ExitOneGood | backend/backtest/engine.py:427-446 | one lot of the exit pass keeps queue and lots in balance and every target exit earning |
| ReplayInventory.NseReplayIsGood | backend/backtest/engine.py:404-449 | in every state of every NSE replay the queue holds exactly the open lots' units, every target is fresh, every TARGET_HIT netted its percentage over cost and entry fees of the units it was matched with, and no abort is for lack of inventory; rows an abort leaves written earned theirs too |
| ReplayAccounts.TargetsEarnInTurn | backend/backtest/engine.py:424-447 | in every NSE replay a TARGET_HIT nets its percentage over cost and entry fees of the units bought right after those of the rows before it |
| ReplayAccounts.ReplayIsRight | backend/backtest/engine.py:424-694 | over every replay every row was due and at the price that was due, its lot carries its terms and extremes, and gross, fees, slippage and net are those of the sale less cost and entry fees of the units sold, within the stated roundings; rows an abort leaves written too |
| ReplayAccounts.NoneMissed | backend/backtest/engine.py:424-446 | no lot stays open whose stop the bar reached, none past its expiry, and none whose target it reached, unless on NSE another lot was closed on the bar |
| ReplayAccounts.CompletedIsRight | backend/backtest/engine.py:484-491 | a completed replay writes its closed rows and then one OPEN row per lot left, worth the last close less cost and entry fees of the front units |
| ReplayAccounts.ResultsAddUp | backend/backtest/engine.py:664-694 | over every replay the net results add up to all proceeds less what the units sold had cost, within the rounding of each row; on NSE that is what has left the inventory |
| ReplayAccounts.BoughtAreEntered | backend/backtest/engine.py:418-420 | the acquisitions are the lots entered, at their prices, sizes and fees |
| ReplayExpiry.NoneOutlives | backend/backtest/engine.py:404-449 | in every replay the open lots are in order of entry, one a bar, and none outlives its expiry |
| ReplayExpiry.ExpiredIsFirst | backend/backtest/engine.py:424-435 | of the lots the exits of a bar look at, one that has expired is the first, so nothing suppresses its target |
| ReplayCapital.LadderCapitalHolds | backend/backtest/engine.py:404-555 | at every bar of every NSE replay with a ladder the inventory costs no more than its capital, up to the rounding of one lot |
| ReplayLedger.NseReplayIsSettled | backend/backtest/engine.py:404-449 | in every state of every NSE replay the queue is the purchases with the closed rows' units cut off, each closed row was matched with the units bought right after those of the rows before it, and cost and fees split between closed rows and queue without loss |
| ReplayHistory.RunSame | backend/backtest/engine.py:404-483 | replays agreeing on the first n bars are in the same state after them |
| ReplayHistory.NoLookAhead | backend/backtest/engine.py:404-483 | they have closed the same rows and hold the same lots and inventory, also when one series ends there |
| ReplayHistory.RowsOnlyGrow | backend/backtest/engine.py:438-446 | closed rows are only appended, across batch flushes, each by the bar that closed it |
| ReplayHistory.SameCloses | backend/backtest/engine.py:404-483 | two completed replays agreeing on n bars report the same closes below n |
| ReplayHistory.ReplayIsNumbered | backend/backtest/engine.py:408-483 | lot keys entered are strictly ascending despite failed entries and cycle resets, and rows plus open lots are exactly the entered ones |
| ReplayHistory.ExactlyOnce | backend/backtest/engine.py:395-491 | the written rows carry every entered lot exactly once and the store keeps them all |
| ReplayHistory.StoredAll | backend/data/repositories.py:808-815 | ON CONFLICT DO NOTHING drops no row when the keys differ |
| ReplayHistory.StoppedRowsDistinct | backend/backtest/engine.py:395-491 | a replay that aborts has written no lot twice |
| ReplayHistory.AbortedRowsAreStored | backend/backtest/engine.py:395-491 | so the store keeps every row it was handed |
| ExitPasses.ReplayFlag | backend/backtest/engine.py:425-441 | the replay's flag is set exactly when an earlier lot of the bar closed, on NSE |
| ExitPasses.BrokerFlag | backend/paper_trading/broker.py:427-458 | the same for the broker's candle |
| ExitPasses.PassesAgree | backend/paper_trading/broker.py:433-460 | replay and broker decide alike on a lot if and only if it is not an expiring lot whose target was suppressed |
| ExitPasses.ClosingsAgree | backend/paper_trading/broker.py:433-460 | both passes close the same lots, with the same statuses at the same raw prices in the same order, if and only if no target of an expiring lot is suppressed |
| ExitPasses.ReplayWrites | backend/backtest/engine.py:424-447 | the rows a bar appends, across batch flushes, are exactly those of its closings, one each and in order |
| ExitPasses.BrokerWrites | backend/paper_trading/broker.py:433-460 | the sales a candle stores are exactly those of its closings, one each and in order, and the lots table has their statuses |
| ExitPasses.PassesWriteAlike | backend/backtest/engine.py:424-447 | a bar and a candle that go through over lots that look the same, none suppressed, write the same closings: same lot, status, raw price and order, on both markets |
| ExitAgreement.NeverSuppressed | backend/backtest/engine.py:424-435 | no lots that look like those of a replay's bar are ever suppressed |
| ExitAgreement.ReplayAndBrokerWriteAlike | backend/backtest/engine.py:424-447 | every bar of every replay that goes through, and the candle of every sane account with the same lots, write the same closings, expiries included |
| ExitPasses.NoExpiryNoneSuppressed | backend/paper_trading/broker.py:433-460 | without expiries nothing is suppressed, so the passes write alike |
| ExitPasses.RulesDiffer | backend/backtest/engine.py:431-435 | on two lots at their targets, the second expiring, which no replay lists, the rules differ: kept by the one, EXPIRED by the other |
| PaperBroker.PaperBroker.FillEntry | backend/paper_trading/broker.py:142-275 | the checks, writes and re-mark take the account from its old state to the one `Broker.FillEntry` gives, raising at the same points; `BoughtExactlyWhen` says when that buys |
| PaperBroker.PaperBroker.CloseLot | backend/paper_trading/broker.py:574-632 | the same for a close: matched first in, first out, result stored, inventory released, proceeds booked |
| PaperBroker.PaperBroker.MarkOpenLots | backend/paper_trading/broker.py:655-723 | re-marking lots one by one against the present queue |
| PaperBroker.PaperBroker.FillPending | backend/paper_trading/broker.py:417-432 | the pending loop: dropped, deferred or filled at the open, oldest first; a fill that raises leaves the entries of other symbols |
| PaperBroker.PaperBroker.CloseHit | backend/paper_trading/broker.py:433-460 | the exit loop over the lots read before it |
| PaperBroker.PaperBroker.ProcessMarketCandle | backend/paper_trading/broker.py:404-472 | a candle: pending entries, exits, marks, ladder entries, in that order |
| PaperBroker.PaperBroker.LoadInventories | backend/paper_trading/broker.py:637-653 | one ledger per symbol from the trade log in (executed_at, trade_id) order, or the first error |
| BrokerRisk.AcceptedChecks | backend/paper_trading/broker.py:183-218 | an accepted entry is affordable, is the first for its signal, and was within each limit: open positions, total exposure, purchases of the day, and realized plus unrealized loss of the day |
| BrokerOrders.JudgedExactlyWhen | backend/paper_trading/broker.py:142-218 | an entry is refused for a reason if and only if that limit, written out over the tables, is the first one broken; it raises if and only if it passes the first three and has no size; it is accepted if and only if it breaks none and its signal is not filled already |
| BrokerOrders.BoughtExactlyWhen | backend/paper_trading/broker.py:142-275 | on every sane account trying an entry stores and pays for one purchase at that size and fill if and only if it is accepted and its target is defined; otherwise no lot, trade or cash changes and a refusal stores its reason |
| BrokerOrders.SizeIs | backend/paper_trading/execution.py:119-138 | the size is the ladder's for the price band of the cycle's first lot, or the planned share in the market's units, and at least the minimum |
| BrokerOrders.SignalExactlyWhen | backend/paper_trading/broker.py:118-140 | a signal is ignored while a ladder cycle of its key is open, queued once for the next open, or filled at once |
| BrokerOrders.CandleLeavesDeferred | backend/paper_trading/broker.py:417-491 | the entries a candle leaves pending are exactly those of other symbols and the allowed ones that are of another timeframe or not executable yet, the boundary after their creation included |
| BrokerOrders.LadderQueuesExactlyWhen | backend/paper_trading/broker.py:498-556 | a candle queues the next ladder lot of a key if and only if its cycle may grow, its close lies the dip or more below the last entry, and nothing is queued for it |
| BrokerOrders.ExitsExactlyWhen | backend/paper_trading/broker.py:442-458 | a candle closes a lot at its stop, else at its target, else at the close on expiry, if and only if that is due |
| BrokerRisk.AcceptedQuantity | backend/paper_trading/execution.py:119-138 | accepted quantities are positive, and whole on NSE |
| BrokerRisk.NseLotIsWhole | backend/paper_trading/execution.py:119-138 | an NSE lot is whole if and only if the rounded-down size reaches the minimum or the minimum is whole |
| BrokerRisk.HalfAShare | backend/paper_trading/execution.py:38-66 | a validated policy with a minimum of half a share gives half a share |
| BrokerRisk.EnterPositions | backend/paper_trading/broker.py:322-326 | an accepted entry keeps distinct open keys within the cap |
| BrokerRisk.AppendDaily | backend/paper_trading/broker.py:333-342 | a checked purchase keeps every market day within its cap while the log fits the 10,000-row read |
| BrokerRisk.SaleShortfall | backend/paper_trading/accounting.py:18-21 | a sale never costs more than its recorded fees exceed its recorded turnover, rounding counted |
| BrokerRisk.NoShortfall | backend/paper_trading/accounting.py:18-21 | the total shortfall is zero if and only if every sale's turnover covered its fees |
| BrokerCore.CloseCovered | backend/paper_trading/broker.py:574-581 | a close of an open lot never fails for lack of inventory |
| BrokerCore.EnterStocked | backend/paper_trading/broker.py:253-270 | an entry keeps every symbol's queue the FIFO replay of its log, holding the open lots' units |
| BrokerCore.CloseStocked | backend/paper_trading/broker.py:612-631 | a close keeps the same |
| BrokerCycles.AcceptedCycle | backend/paper_trading/broker.py:149-170 | an accepted entry takes the next number of the one cycle its key may use, within the cap |
| BrokerCycles.CycleNumbers | backend/data/repositories.py:1787-1807 | the rows of a cycle, over all time, carry 1..n without gap or repeat |
| BrokerCycles.EnterCycles | backend/paper_trading/broker.py:232-252 | inserting such a lot keeps cycles owned, shared, numbered and capped |
| BrokerCycles.UpdateCycles | backend/data/repositories.py:1809-1823 | marking or closing a row keeps them too |
| BrokerLedger.PurchaseDrift | backend/paper_trading/accounting.py:13-16 | cash paid and amount booked differ by at most one rounding of price per unit and one of fees |
| BrokerLedger.SaleDrift | backend/paper_trading/accounting.py:18-25 | cash received less inventory released differs from the booked result by at most the roundings of exit price, basis, fees and result |
| BrokerLedger.SaleReleases | backend/core/fifo.py:91-116 | what a sale releases from inventory is its matched cost and entry fees |
| BrokerLedger.EnterConserves | backend/paper_trading/broker.py:266-271 | an entry keeps the ledger identity within the drift |
| BrokerLedger.CloseConserves | backend/paper_trading/broker.py:626-631 | a close keeps the ledger identity within the drift |
| BrokerEvents.FillEntryKeeps | backend/paper_trading/broker.py:142-275 | filling an entry keeps the whole invariant, also when it raises part way |
| BrokerEvents.ExitScanKeeps | backend/paper_trading/broker.py:433-460 | every close of a candle goes through and keeps the invariant |
| BrokerEvents.QueueLadderOnce | backend/paper_trading/broker.py:467-471 | visiting a strategy key again queues nothing more |
| BrokerEvents.OnCandleKeeps | backend/paper_trading/broker.py:404-472 | a candle keeps the invariant |
| BrokerEvents.OnSignalKeeps | backend/paper_trading/broker.py:118-140 | a signal keeps the invariant |
| BrokerEvents.OnManualCloseKeeps | backend/paper_trading/broker.py:558-572 | a manual close keeps the invariant |
| BrokerEvents.RunIsSane | backend/paper_trading/broker.py:118-653 | over every run from a fresh account the whole invariant holds: mirrored caches, paired log, cycles, limits, NSE inventories and ledger |
| BrokerSafety.AccountStaysSafe | backend/paper_trading/broker.py:314-352 | over every run open positions and purchases per day stay within their caps, and cash is never negative while sales cover their fees |
| BrokerSafety.NseSalePays | backend/markets/nse/fees.py:29-32 | a sale nets at least zero if and only if its kept share covers the fixed charge |
| BrokerSafety.ClosingOverdrawsExactlyWhen | backend/paper_trading/broker.py:574-632 | a close always goes through and overdraws the account if and only if cash plus the kept share of the sale is below the fixed charge |
| BrokerExamples.StoppedLotOverdraws | backend/paper_trading/broker.py:441-632 | a run that overdraws a fresh account of a thousand rupees: one share bought at 970, stopped at 10 |
| BrokerSafety.NsePricesAreClean | backend/markets/nse/fees.py:24-27 | under the default costs every price from a tenth of a paisa stores a positive price and no negative fee |
| BrokerTargets.RemarkedIsFresh | backend/paper_trading/broker.py:655-723 | re-marking a symbol's lots makes every target of the book what its present match needs |
| BrokerTargets.RunIsFresh | backend/paper_trading/broker.py:380-472 | over every NSE run in which nothing raised and no candle left a target stale, every open lot has the target, basis and unrealized result of its present FIFO match |
| BrokerTargets.TargetExitsEarn | backend/paper_trading/broker.py:446-450 | after any such run every TARGET_HIT of the next candle nets the lot's percentage over cost and entry fees of the first units of the queue, as many as the lot has |
| BrokerTargets.RunMarksRight | backend/paper_trading/broker.py:655-723 | after any such run every open lot's unrealized result is what it would bring at its last price less cost and entry fees of the first units of the queue, up to rounding |
| BrokerTargets.MarketWideLeavesNoneStale | backend/paper_trading/broker.py:380-402 | candles of `on_market_candle` always meet that condition |
| BrokerExamples.StaleTargetFails | backend/paper_trading/broker.py:461-466 | a run in which nothing raised: after a five-minute candle closes its lot, a daily lot keeps its target and does not earn it |
| BrokerExposure.CryptoExposureWithinCap | backend/paper_trading/broker.py:327-332 | over every CRYPTO run an accepted entry keeps the entry value of all open lots within the exposure cap, up to the rounding of its fill |
| BrokerExamples.ExposureCapIsMissed | backend/paper_trading/broker.py:327-332 | an NSE run whose third purchase is accepted and takes the inventory's cost beyond the cap |
| BrokerExposure.LadderEntryWithinCapital | backend/paper_trading/broker.py:186-194 | an accepted NSE ladder entry keeps the inventory's cost within the ladder's capital, up to the rounding of its fill |
| BrokerSafety.RunKeepsStart | backend/paper_trading/broker.py:118-653 | no operation changes the starting balance |
| BrokerSafety.LedgerBalances | backend/paper_trading/broker.py:195-632 | over every NSE run cash + inventory cost + unallocated fees = opening balance + realized results, exactly or within the per-trade rounding sum |
| BrokerCrypto.CryptoLedgerBalances | backend/paper_trading/broker.py:195-632 | over every CRYPTO run cash + cost and entry fees of the open lots = opening balance + realized results, exactly or within the rounding of each trade |
| BrokerTerms.RunCarries | backend/paper_trading/execution.py:150-161 | over every run each open lot has the stop and expiry of its policy; on CRYPTO also the target of its percentage, its own price as basis, and a mark worth its last price less its cost |
| BrokerTerms.SignalTerms | backend/paper_trading/broker.py:219-232 | an entry without a percentage takes the distance of the signal's target, else one percent, and without a stop percentage the signal's stop |
| BrokerTerms.CloseIsRight | backend/paper_trading/broker.py:574-632 | closing any open lot of any sane account goes through and stores status, time, all fees and, as its result, the proceeds less cost and entry fees of the units sold, up to rounding |
| BrokerTerms.ClosedByHandExactlyWhen | backend/paper_trading/broker.py:558-572 | a close by hand raises and changes nothing if and only if there is no positive mark; otherwise it sells the lot at its last price |
| BrokerTerms.CandleMarksAtClose | backend/paper_trading/broker.py:461-466 | a candle that goes through leaves every open lot it concerns marked at its close |
| BrokerTerms.EntryMarksAtFill | backend/paper_trading/broker.py:270-273 | an entry that goes through leaves every open lot of its symbol marked at the stored price of its fill |
| BrokerTerms.MarkStores | backend/paper_trading/broker.py:699-723 | a mark stores the new marks in the row, and there the entry fees of the units the lot would sell |
| BrokerSafety.InventoryMatchesLots | backend/paper_trading/broker.py:266-631 | over every NSE run each queue is sound, holds exactly its open lots' units, and covers each of them |
| BrokerSafety.CyclesAreDisciplined | backend/paper_trading/broker.py:149-252 | over every run a cycle has one owner, a key one open cycle, and cycle numbers are 1..n within their caps |
| BrokerSafety.CacheMirrorsTable | backend/paper_trading/portfolio.py:33-49 | over every run the cached lots are exactly the OPEN rows |
| BrokerRecovery.ChronologicalSorts | backend/data/repositories.py:1856-1861 | the recovery read returns the same rows in time order |
| BrokerRecovery.SortingKeepsBuys | backend/data/repositories.py:1856-1861 | sorting a timely log keeps each symbol's purchases in order and its total sold, however sales move |
| BrokerRecovery.SortingKeepsPairs | backend/data/repositories.py:1856-1861 | sorting keeps every sale behind its purchase |
| BrokerRecovery.PairedCovers | backend/paper_trading/broker.py:637-653 | in a paired log no symbol ever sold more than it bought |
| BrokerRecovery.PairedLegal | backend/paper_trading/broker.py:637-653 | its FIFO history is legal, so replay never runs short |
| BrokerRecovery.SameQueues | backend/paper_trading/broker.py:637-653 | replaying in time order gives the queues replaying in storage order gives |
| BrokerRecovery.LoadIsPerSymbol | backend/paper_trading/broker.py:637-653 | the loading loop gives each symbol the queue of its own history |
| BrokerRecovery.Recovery | backend/paper_trading/broker.py:637-653 | for every sane NSE account with a timely log, loading rebuilds exactly the live inventories |
| BrokerRecovery.LoadSucceeds | backend/paper_trading/broker.py:637-653 | as long as no sale is stamped before its purchase, loading never fails |
| SliceOrder.QueueSurvivesSorting | backend/core/fifo.py:86-121 | sorting the purchases by time leaves the queue alone if and only if every purchase still held is no earlier than those before it |
| ExactRecovery.SortedBuys | backend/data/repositories.py:1856-1861 | sorting a log by time sorts each symbol's purchases, stably, and changes no total |
| ExactRecovery.LoadExactlyWhen | backend/paper_trading/broker.py:637-653 | loading a log goes through if and only if no symbol, in its order, ever sells more than it has bought |
| ExactRecovery.RecoveryExactlyWhen | backend/paper_trading/broker.py:637-653 | when it goes through, loading rebuilds a symbol's live inventory if and only if each purchase still held is no earlier than the purchases stored before it |
| BrokerTiming.RunRecoversExactlyWhen | backend/paper_trading/broker.py:88-96 | both conditions over every NSE run, whatever the times of its events |
| BrokerTiming.RunLoads | backend/paper_trading/broker.py:88-96 | loading goes through after every run in which no lot is closed by hand before its entry |
| BrokerExamples.RestartCanDiffer | backend/paper_trading/broker.py:637-653 | a run after which it does not: signals stamped 2 and then 1, the first lot closed by hand |
| BrokerRestart.PortfolioExactlyWhen | backend/paper_trading/portfolio.py:15-23 | a rebuild brings back the same lots, and in the order the broker held them if and only if their rows were inserted in order of entry time and lot number |
| BrokerRestart.RestartRestoresExactlyWhen | backend/paper_trading/broker.py:88-104 | over every NSE run, a restart restores a symbol's inventory and lots if and only if the log can be read in order of time and both were stored in order |
| BrokerTiming.RunIsTimed | backend/paper_trading/broker.py:441-627 | no sale is stamped before its purchase, and purchases are in order when the events are |
| BrokerTiming.RunRecovers | backend/paper_trading/broker.py:88-96 | over every such NSE run, reloading never fails and rebuilds the live inventories |
| Leases.Repository.AcquireLease | backend/monitoring/repository.py:29-87 | granted if and only if the length is allowed and the row is free, own, expired or inactive; then the caller holds it, active, until now + ttl; a refusal changes nothing and other tasks are untouched |
| Leases.Repository.ReleaseLease | backend/monitoring/repository.py:123-140 | the caller no longer holds the row; a row it did not hold is unchanged, and so are other tasks |
| Leases.Repository.Heartbeat | backend/monitoring/repository.py:89-121 | renews the caller's own lease if and only if the length is allowed and it is active and unexpired; nothing else changes |
| Leases.Repository.ExpireStaleLeases | backend/monitoring/repository.py:142-149 | every active row past its time becomes EXPIRED and no other row changes |
| Leases.OthersLeaveItAlone | backend/monitoring/repository.py:49-149 | no other owner's call ends, shortens or takes over an unexpired lease, late and doubled releases included |
| Leases.LeaseStands | backend/monitoring/repository.py:49-149 | a grant stands unchanged until it expires or its owner renews or releases it |
| Leases.LeasesAreExclusive | backend/monitoring/repository.py:49-149 | on one clock, grants of different owners never overlap over any run |
| Leases.GrantBehind | backend/monitoring/repository.py:49-149 | behind every active row is the latest grant, unreleased |
| Leases.HeartbeatRenewsLive | backend/monitoring/repository.py:89-121 | a heartbeat renews only an unexpired lease of the same owner |
| Leases.LiveLeaseIsRenewed | backend/monitoring/repository.py:89-121 | and every unexpired, unreleased grant is renewed by its owner's heartbeat, to its length from then |
| Leases.LeaseGroup.Enter | backend/monitoring/leases.py:99-108 | a group ends holding every row of its guards, active and unexpired, or none of them, and disturbs no running lease |
| Leases.LeaseGroup.Exit | backend/monitoring/leases.py:110-118 | releases what the group claimed and no row of anyone else |
| Leases.LeaseGroup.ReleaseFirst | backend/monitoring/leases.py:75-91 | releasing in reverse leaves none of the group's leases and grants nothing |
| JobQueue.JobRunner.ReserveCount | backend/backtest/jobs.py:91-102 | reserves exactly count slots when they fit, and refuses otherwise without a change |
| JobQueue.JobRunner.SubmitReserved | backend/backtest/jobs.py:104-112 | turns reserved slots into jobs, up to where the executor refuses |
| JobQueue.JobRunner.ReleaseReservation | backend/backtest/jobs.py:114-116 | gives back exactly count slots when that many are reserved, otherwise all; the cap keeps holding and no job is touched |
| JobQueue.JobRunner.FinishRun | backend/backtest/jobs.py:122-136 | one job and no other leaves the executor and its id the table; a table that listed exactly the jobs still does, with one slot more free |
| JobQueue.Reservation.Submit | backend/backtest/jobs.py:33-39 | a reservation is submitted at most once and at its own size; a refusal leaves it active |
| JobQueue.Reservation.Release | backend/backtest/jobs.py:41-53 | releasing is idempotent and does nothing after a submission |
| JobQueue.EveryInterleavingIsBounded | backend/backtest/jobs.py:91-136 | under every interleaving, with no assumption, futures + reserved is at most max_pending and reserved is never negative |
| JobQueue.EveryInterleavingIsAccounted | backend/backtest/jobs.py:23-116 | while the executor accepts work, reserved is the sum of live reservations, the clamp never fires and none is reported lost |
| JobQueue.JobsAreBounded | backend/backtest/jobs.py:104-136 | with fresh run ids the table lists exactly the executor's jobs, so they are bounded too |
| JobQueue.AccountedExactlyWhenAccepted | backend/backtest/jobs.py:33-116 | a submission keeps the counter right if and only if the executor takes all of it |
| JobQueue.TrackedExactlyWhenFresh | backend/backtest/jobs.py:104-112 | it keeps the table right if and only if its run ids are fresh |
| JobQueue.RepeatedIdsExceedTheCap | backend/backtest/jobs.py:104-112 | a repeated run id lets three jobs into a queue of two |
| JobQueue.RefusalLosesAReservation | backend/backtest/jobs.py:33-53 | a refusing executor makes another live reservation be reported lost |
| GapRanges.ContiguousMissingRanges | backend/data/timescale.py:219-238 | the scan returns the grouping of the sorted missing times; its candles are exactly expected minus actual, and it is empty if and only if nothing is missing |
| GapRanges.GroupTimes | backend/data/timescale.py:226-238 | the loop computes `Grouped` |
| GapRanges.GroupedDescribes | backend/data/timescale.py:226-238 | every range spans exactly its count of steps, the grid points in order are the times, and neighbours cannot be merged |
| GapRanges.GroupedIsUnique | backend/data/timescale.py:226-238 | no other list of ranges does |
| GapRanges.OrderedExactlyWhenSpaced | backend/data/timescale.py:219-238 | ranges are ordered and disjoint if and only if the missing times are at least a step apart |
| GapRanges.RangesAreMaximal | backend/data/timescale.py:219-238 | then no range can be extended at either end |
| GapRanges.RangesAreTheMissing | backend/data/timescale.py:219-238 | counts add up to the number of missing candles |
| GapRanges.CryptoExpectedOpenTimes | backend/data/timescale.py:241-248 | the loop lists the candles of the window that close by its end |
| GapRanges.NseExpectedOpenTimes | backend/data/timescale.py:251-269 | the nested loops list the candles of each session, each date once and in order |
| GapRanges.CandlesExact | backend/data/timescale.py:241-269 | a time is listed if and only if it is on the period's grid, closes within it and lies in the window |
| GapRanges.ExpectedExact | backend/data/timescale.py:821-829 | expected times are exactly the market's candles in the window: reading only nearby session dates loses none |
| GapRanges.GapsAreOrdered | backend/data/timescale.py:219-269 | for both markets the gap ranges are ordered, disjoint and maximal, whatever is stored |
| GapRanges.DailySessionsExpectNothing | backend/data/timescale.py:262-268 | no daily candle is ever expected on NSE |
| BackfillWorker.MarketDataStore.ClaimBackfill | backend/data/timescale.py:462-486 | the oldest due job is RUNNING and claimable again exactly after five minutes, position and attempts unchanged, other jobs untouched; nothing is claimed only when nothing is due |
| BackfillWorker.MarketDataStore.AdvanceBackfill | backend/data/timescale.py:488-509 | moves the position, completes the job if and only if it reached the end, and otherwise leaves it due at once |
| BackfillWorker.MarketDataStore.FailBackfill | backend/data/timescale.py:512-528 | FAILED for good if and only if the attempts are used up; otherwise claimable again from one moment on, a minute to an hour later; position and other jobs untouched |
| BackfillWorker.MarketDataStore.UpsertCandles | backend/data/timescale.py:308-334 | the last candle of each key wins |
| BackfillWorker.Worker.ExpectedTimes | backend/data/timescale.py:821-829 | the builder of the job's market |
| BackfillWorker.Worker.RepairRange | backend/data/timescale.py:831-863 | gaps found, requested one by one, stored and counted again |
| BackfillWorker.Worker.LoadChunk | backend/data/timescale.py:733-766 | all candles inside the chunk, written and reconciled, or a failed attempt |
| BackfillWorker.Worker.Finish | backend/data/timescale.py:760-793 | advance, and after the last chunk repair; an unhealthy repair is a failed attempt |
| BackfillWorker.Worker.RunNext | backend/data/timescale.py:674-802 | one run of the worker takes both tables to what `RunOnce` gives |
| BackfillWorker.Worker.RunPending | backend/data/timescale.py:804-813 | runs until nothing is claimable or the maximum is reached, each run claiming a job, and never more often than chunks and attempts were left |
| Backfill.Claim | backend/data/timescale.py:466-474 | the first claimable job in creation order, or none is |
| Backfill.AttemptProgress | backend/data/timescale.py:674-802 | each attempt ends the job or leaves fewer chunks and attempts; the position never moves back or past the end |
| Backfill.RunOnceProgress | backend/data/timescale.py:674-802 | the same for the whole table, other jobs untouched |
| Backfill.ClaimsAreBounded | backend/data/timescale.py:804-813 | over any runs, whatever providers and database do, claims never exceed the chunks and attempts at the start |
| Backfill.ChunksCover | backend/data/timescale.py:733-762 | the chunks left are as many stretches of the job's days as it takes to cover the rest of the range |
| Backfill.BackoffDoubles | backend/data/timescale.py:521-522 | the wait is a minute after the first failure and doubles with each up to an hour |
| Backfill.EnoughRunsFinish | backend/data/timescale.py:804-813 | that many runs an hour apart leave every job COMPLETE or FAILED |
| Backfill.HealthyMeansStored | backend/data/timescale.py:831-863 | HEALTHY means every expected candle is stored, GAPS_DETECTED that one is not |
| Backfill.CompleteMeansStored | backend/data/timescale.py:674-802 | a job left COMPLETE has every expected candle of its range stored |
| Backfill.CompletedJobsStayStored | backend/data/timescale.py:674-863 | with providers returning only finished candles this holds of every COMPLETE job in every reachable state |
| Backfill.UpsertKeepsExactly | backend/data/timescale.py:308-334 | a batch loses no stored candle if and only if none is last overwritten by an unfinished one |
| Backfill.UnfinishedCandleUndoesCompletion | backend/data/timescale.py:850-853 | two runs from freshly enqueued jobs: an unfinished candle stored by the second job's repair undoes the first job's completion |
| Backfill.AnsweredRepairHeals | backend/data/timescale.py:847-856 | one answered request per gap range is enough for HEALTHY |
| Backfill.AdvancedChunkIsReconciled | backend/data/timescale.py:733-766 | a chunk advanced past is stored exactly as the provider returned it |
| Backfill.EmptyWindowMatches | backend/data/timescale.py:684-694 | the reconciliation of an exhausted range always matches |
| Metrics.MetricsAccumulator.constructor | backend/backtest/metrics.py:17-39 | starts from the totals of no trades |
| Metrics.MetricsAccumulator.AddTrade | backend/backtest/metrics.py:44-77 | the fields stay the totals and samples of all trades recorded |
| Metrics.MetricsAccumulator.MaximumDrawdown | backend/backtest/metrics.py:79-87 | the largest fall in time order, between the realized loss and the gross loss |
| Metrics.WorstFall | backend/backtest/metrics.py:80-87 | the single pass returns the maximum over all i <= j of equity i less equity j |
| Metrics.TotalsAgree | backend/backtest/metrics.py:44-77 | every trade is counted once, and realized = gross profit - gross loss, for every sequence of trades |
| Metrics.AmountsAreOfTheTrades | backend/backtest/metrics.py:54-77 | the closed list is exit time and net result of the trades that are not OPEN, in order; realized is the sum of their net results, unrealized the sum of the open ones' unrealized results |
| Metrics.CountsAreOfTheTrades | backend/backtest/metrics.py:58-74 | winners, losers, breakeven, target hits, stopped and expired are the numbers of trades with that result or status |
| Metrics.SamplesAreOfTheTrades | backend/backtest/metrics.py:44-76 | fees, slippage and exposure are sums over all trades, and the samples are the values the trades carry, in order |
| Metrics.SamplesAgree | backend/backtest/metrics.py:44-77 | exposure is the holding times of closed trades plus the minutes of open ones, and samples are at most one per trade |
| Metrics.DrawdownIsUnique | backend/backtest/metrics.py:79-87 | the quadratic definition has one value |
| Metrics.DrawdownBounds | backend/backtest/metrics.py:79-87 | a drawdown is at least the overall loss and at most the gross loss |
| Metrics.TimeOrderKeeps | backend/backtest/metrics.py:83-84 | sorting by timestamp is stable and changes no sum |

## Left out

- Floating point: quantities, prices and cash are exact reals, rounding is bounded by a parameter, and infinity is a limit parameter of the target search.
- RunIsSane: requires the fills of the run to store positive prices and no negative fees; `NsePricesAreClean` shows the default NSE costs give that from a tenth of a paisa up.
- RunIsSane: requires a whole minimum lot on NSE, which `ExecutionPolicy` does not check; `NseLotIsWhole` is the exact condition.
- AccountStaysSafe: the caps are the largest any accepted policy carries; the daily cap is stated while the log fits one 10,000-row read, as the code only sees that much. The same read of lot rows is taken as complete.
- EnoughRunsFinish: assumes runs finish inside their lease without a crash between statements and that no job is enqueued again meanwhile; `advance_backfill` does not check the lease owner, so a worker that overran its lease is not covered.
- EveryInterleavingIsBounded: one thread per reservation; cancel events and shutdown are not modelled.
- Matched reconciliation: the SHA-256 digest is taken to be free of collisions.
- CRYPTO inventory: the replay adds to it and never consumes on CRYPTO, so the inventory theorems are for NSE; the ledgers of both markets are covered.
- RunMarksRight: for runs that leave no mark stale, as `TargetExitsEarn`; on CRYPTO `RunCarries` has no such condition.
- CryptoExposureWithinCap: stated at each accepted entry, for the policy of that entry; `ExposureCapIsMissed` shows there is no such bound on NSE.
- TargetExitsEarn: a sufficient condition only; a candle that leaves a target stale may still happen to earn it, and an operation that raises may leave targets of its symbol as they were.
- Mark order: `_mark_open_lots` sorts, previews every lot, then marks; here each lot is previewed and marked in cache order. The marks do not depend on each other, so this differs only in which of them are stored before one raises.
- Portfolio dictionaries: lots per symbol are one sequence in insertion order, filtered by symbol; the pending list is the in-memory one, whose stored rows survive a fill that raises and return at the next rebuild; lot identifiers are row numbers.
- Stored reporting fields of the broker's lots (excursions, slippage, allocations), the percentages of the replay's extremes, averages and public summaries.
- `run_pending`'s check that its maximum lies in 1..10000; `enqueue_backfill`; the dual writer's counters.
- Restarts are not events of a run: `RestartRestoresExactlyWhen` says what one finds at any moment. Rows equal in entry time and lot number are taken in insertion order.
- `reset`, entry-permission callbacks (inputs of the events here), cancellation (a flag of the bar), audit and alert tables, heartbeat threads (heartbeat calls may come at any time).
- Timezone handling: naive timestamps are refused before this code; India is taken at its constant offset.
- Candle loading, indicators, strategies, walk-forward jobs, screeners, HTTP routes, broker and exchange clients, migrations: plumbing or library behaviour.
