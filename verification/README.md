# Slick simulated exchange: a verified model

This project models the core of the slick exchange simulator and proves what its design relies on.
One price-ordered, priority-queued book holds the simulator's own orders next to phantom orders that
mirror a real venue. A FIFO and a pro-rata engine match against it; client requests and market data
change it; read-only scans predict what a match will do before anything is written; lookup maps, an
object pool and a per-price phantom index have to agree with it after every step. Beside the core
stand three self-contained protocols: Hyperliquid's compressed level-2 channel, Coinbase's event
sequencer, and session plumbing (client order ids and TCP reassembly).

## How to read it

The project has a specification layer and an object layer.

- **Plans.** `Queue`, `ProRata`, `MatchPlan`, `PreChecks`, `EngineAgreement`, `TradeSummaries` and
  `FillAccounting` describe one match as a plan of fills and cancels over a queue, and prove the
  engines' arithmetic, the pre-checks and conservation. `Liquidity` and `Allotment` say what a match takes
  and how it is split in prices, quantities and lots alone.
- **State.** `BookState` is the book as one value with its invariant `Inv`. `BookInvariant`, `BookOps`,
  `Matching`, `Requests`, `RequestLaws`, `Reconcile`, `Feed`, `FeedMatching`, `Rebuild` and `Mirror`
  define every operation on it and prove what each keeps. `Exchange` is the state machine and `Runs`
  carries the invariant over whole runs; `Runs.Safety` is the main theorem. `Statements`, `StatementLaws` and
  `StatementRuns` follow what clients are told over the same runs, `CreditRuns` the trade credits, `Priority`
  and `Arrivals` who stands where at a level, and `NoPrice` what an order without a price would do.
- **Laws.** `OrderFates`, `EventLaws`, `ReportLaws` and `CreditLaws` state what each request and each feed event
  does as its sender sees it - what it finds, trades, rests, removes, reports and credits - without the
  functions that compute it.
- **Objects.** `OrderBooks`, `Engines`, `ProRataEngines`, `FeedEngines`, `Symbols`, `FeedHandlers` and
  `Venues` are the code as it works: classes updated in place and loops with invariants. Each method is
  proved equal to the specification function of its step, so `Venues.SimulatedVenue` is a refinement of
  `Exchange.Step` and inherits the main theorem.
- **Protocols.** `L2Diff`/`L2Messages`/`L2Channel`/`L2Book`/`L2Follower`, `Sequencer`/`Release`, `ClOrdIds`, `Stream` and `TradeCredits` each hold a
  specification, a theorem over every run, and the class that implements it.

Modelling choices:

- A side of the L3 library's book is one sequence sorted by price and then priority; a price level is a
  maximal run of equal prices. The library's contract is: add, resize and move notify the observer,
  resizing to zero deletes, `clear` notifies nobody, and a non-zero sequence below the last is refused.
- An order pointer is the order's internal id, and the pool maps ids to records. "Freed" is "no longer
  in the pool", so a leak or a double free shows up as the pool differing from the set of own orders.
- Values from process-wide counters, clocks and UUIDs (internal ids, priorities, order ids, times) are
  parameters of the events that draw them. The order in which a hash map yields own orders during a
  rebuild is a parameter too, and every result holds for every such order.
- Client matching passes sequence 0, as the exchange does; the feed path carries the venue's stamps.
- A snapshot is one `SnapshotBegin` followed by `SnapshotLevel` events sharing its stamp. Hyperliquid's
  priority 0 makes the library use the timestamp, so the priority of a phantom order is arbitrary here
  and no arrival-order claim is made about phantom liquidity.
- Quantities and prices are unbounded naturals; where the source relies on a width (128-bit products and
  values, unsigned 64-bit clock arithmetic) it is stated explicitly.

## What turned out not to hold

- **An amendment may carry no price.** `Symbol::modifyOrder` does not repeat the `restsRemainder` test of
  `addOrder`, and an edit request without a price arrives with the null price. Amended to it, an order that
  is not completely filled rests at no price although its owner was told it is cancelled
  (`NoPrice.AmendedWithoutPrice`). `RequestLaws.AmendSafeIff` gives the exact condition and
  `RequestLaws.AmendToNoPriceBreaks` an example.
- **`recordTrade` may look for a summary that does not exist.** A match starts with the null price as its last
  fill price. Recording it is safe if and only if the first crossing order that self-match prevention does
  not remove has a price (`NoPrice.MatchRecordsSafelyIff`); after the amendment above, every sell that
  matches next is unsafe (`NoPrice.NextSellIsUnsafe`).
- **A level that a print swept is not offset.** A trade print credits the phantom quantity it took, so that an
  update too old to have seen the trade does not put it back. Only the branch for an existing level takes the
  credit: once the print has emptied the level, such an update rests in full. Among the updates that cross
  nothing, those offset as intended are exactly the ones of an existing level, of nothing, or with no unseen
  trade (`CreditRuns.UpdatesOffsetTheirTrades`); `CreditRuns.SweptLevelIsNotOffset` is a run of three events
  that is not.
- **An in-place mirror change may move to a crossing price.** A CHANGE that keeps its place is not matched
  first. `Mirror.ApplyMarketOrderSafeIff` and `Mirror.MoveUncrossedIff` say exactly when the book stays
  consistent and `Mirror.InPlaceChangeCanCross` shows a book where it does not.
- **A zero-quantity fill-or-kill is not always "trivially fillable".** Under CANCEL_NEWEST with an own
  order at the front of the crossing queue the scan says no; `PreChecks.FillOrKillAtZero` is exact and
  `RequestLaws.ZeroFillOrKillRefused` an example.
- **Ask removals cannot be spliced one at a time.** The l2 header says a client is free to apply removals in
  the order received. That is true of bids (`L2Diff.BidRemovalsSplice`); for asks it is true exactly when
  at most one level is removed (`L2Diff.AskRemovalsSpliceIff`, with `L2Diff.AskSplicesLeaveALevel` as the
  example). The simulator's own decoder resolves every index first and is right in both cases.
- **A level batch is replayed in its own order exactly when its times do not fall**
  (`Sequencer.LevelBatchInOrderIff`, with `Sequencer.FallingBatchIsReversed` as the example).
- **Event-time order needs channels that keep within a second.** The sequencer holds an event for one second.
  While what should come first follows within less than that, every run is dispatched in event-time order
  (`Release.DispatchedInEventOrder`); at exactly one second it no longer is (`Release.ASecondIsTooLate`). The
  order is lost exactly by a row that belongs before something already dispatched (`Release.BatchKeepsOrderIff`).

## Model

| member | source | states |
|---|---|---|
| `Runs.Safety` | src/exchange/exchange.cpp:230-806 | In every state reachable by any run of client new/amend/cancel requests, level updates, trade prints, snapshot rebuilds, mirrored orders and mirrored trades, under either engine and any SMP mode: best bid < best ask, both queues sorted with positive quantities, the phantom index exact at every price, the pool holding exactly the orders in the maps, both lookup maps naming exactly those orders, each own order resting with its leaves and balanced accounts, and no execution ever declined on sequence |
| `Runs.StepKeeps` | src/exchange/exchange.cpp:230-379 | Every admissible event from any consistent state leads to a consistent state; the events' assumptions are unused ids, unique generated order ids, real feed prices, and for amendments and in-place changes the exact conditions below |
| `Runs.RunKeeps` | src/exchange/exchange.cpp:648-806 | The same over runs of any length, from any consistent state |
| `Runs.DrawnStamp` | src/venues/coinbase/coinbase_exchange.cpp:197-209 | A freshly drawn stamp is never below the book's last sequence, so the book accepts it |
| `Runs.BestPrices` | src/order_book/order_book.hpp:173-187 | The invariant implies best bid below best ask |
| `EventLaws.OnlyRestingKinds` | src/common/order.hpp:356-360 | After any run every own order in the book has a price and is Day, GoodTillCancel or GoodTillDate |
| `EventLaws.FindExact` | src/exchange/exchange.cpp:297-305 | A request finds exactly the live order that carries its client order id, or, without one, its order id, and nothing if there is none |
| `EventLaws.CancelTakesOut` | src/exchange/exchange.cpp:343-379 | A cancel that names a live order by either id takes it out of book, maps and pool and reports it cancelled; nothing else moves |
| `EventLaws.AmendReaches` | src/exchange/exchange.cpp:287-341 | An amendment that names a live order by either id is carried out on that order |
| `EventLaws.UnknownChangesNothing` | src/exchange/exchange.cpp:306-311 | A cancel or an amendment that names no live order changes nothing |
| `EventLaws.NewReaches` | src/exchange/exchange.cpp:238-250 | A new order is taken up unless its client order id names a live one, and then nothing changes |
| `EventLaws.StampsRise` | src/venues/coinbase/coinbase_exchange.cpp:197-209 | Every drawn stamp is above the previous one and above everything the book has seen |
| `EventLaws.DeclinedIff` | src/matching_engine/match_common.hpp:330-362 | A feed match is declined exactly if its sequence regresses and it could trade something, and then changes nothing |
| `EventLaws.StaleIsSkipped` | src/venues/coinbase/coinbase_exchange.cpp:274-285 | A level update older than the last one changes nothing but the stamp |
| `EventLaws.UpdateRemembersTime` | src/venues/coinbase/coinbase_exchange.cpp:299-332 | Any other is applied, and the next is measured against its time |
| `EventLaws.TimeNeverGoesBack` | src/venues/coinbase/coinbase_feed_callbacks.cpp:159-162 | On a stamped feed no event moves the update time back |
| `EventLaws.NewLevelLaw` | src/venues/coinbase/coinbase_exchange.cpp:298-332 | An update of a price at which nothing rests trades min(quantity, what rests on the other side at prices it accepts) and rests the remainder as one order |
| `EventLaws.PrintLaw` | src/venues/coinbase/coinbase_exchange.cpp:387-420 | So does a trade print, which leaves the update time alone |
| `EventLaws.SnapshotLevelLaw` | src/venues/coinbase/coinbase_feed_callbacks.cpp:130-163 | So does each level of a snapshot, and the update time only moves forward |
| `EventLaws.MarketTradeLaw` | src/exchange/exchange.cpp:793-806 | A mirrored trade takes what it can and rests nothing |
| `EventLaws.SnapshotBeginLaw` | src/venues/coinbase/coinbase_feed_callbacks.cpp:91-126 | The start of a snapshot leaves exactly our own orders, each with its price, quantity and priority |
| `EventLaws.DeleteLaw` | src/exchange/exchange.cpp:733-738 | A mirrored deletion removes the order from whichever side it rests on and touches nothing else; of an order already gone it does nothing |
| `EventLaws.ChangeInPlaceLaw` | src/exchange/exchange.cpp:741-750 | A change that is not to be requeued gives a resting order the venue's price and quantity under its old priority, at an unchanged price in its old place; to nothing, it removes it |
| `EventLaws.RestsAnewLaw` | src/exchange/exchange.cpp:751-766 | A new order, and a change that is requeued or finds nothing, leaves its old place, trades what it can and rests the remainder under the event's priority |
| `StatementRuns.StatementSafety` | src/matching_engine/match_common.hpp:173-372 | In every reachable state and for every order id: nothing was reported out of turn and nothing follows a terminal report; a live order has had none, its cumulative quantity and value are the sums over its execution reports, its quantities add up and its average lies between its lowest and highest reported price; an order that is gone was never reported or has had its terminal report; and no two own orders share a priority |
| `StatementRuns.StepTracked` | src/exchange/exchange.cpp:230-379 | One event: records and reports stay in step, and a place is drawn only by an order that comes to rest or an accepted amendment that moves or grows one |
| `Statements.StandingMeans` | src/matching_engine/match_common.hpp:287-324 | What an unbroken statement means in terms of the reports themselves: sums of executions, and at most one terminal report, last |
| `StatementLaws.MatchOrderTold` | src/matching_engine/match_common.hpp:173-232 | However a match ends, every resting order it touched and the aggressor were told exactly what happened to them |
| `StatementLaws.NewOrderTold` | src/exchange/symbol.cpp:15-56 | A new order ends open and resting, or shut and freed |
| `StatementLaws.AmendTold` | src/exchange/symbol.cpp:58-87 | An amendment leaves the order open with its records in step, or shut and freed, and gives it a new priority only if it moves or grows |
| `ReportLaws.NewOrderReports` | src/matching_engine/match_common.hpp:173-324 | Every report of a new order's request: none if turned back, acknowledgement and cancel if refused; otherwise an acknowledgement, then to its sender exactly its fills, price by price, with quantity moving from leaves to cumulative at each; to the owner of a resting order exactly the fills and the self-match cancel of that order; to nobody else anything |
| `ReportLaws.AmendReports` | src/matching_engine/match_common.hpp:214-324 | Every report of an accepted amendment: the replacement with what is still wanted, then the fills as above, going on from what had been filled before |
| `ReportLaws.FeedReports` | src/matching_engine/match_common.hpp:326-362 | A feed match is told fill by fill to the owners of the orders it fills, and to nobody else |
| `ReportLaws.ApplyAllBooked` | src/matching_engine/match_common.hpp:287-324 | The same for any list of fills and cancels the book can carry out |
| `CreditRuns.UpdatesOffsetTheirTrades` | src/exchange/exchange.cpp:648-674 | After any run, an update of an existing level that is not stale leaves there the reported quantity less exactly the phantom quantity that prints stamped after it took at its price and that no update since has accounted for; and among all updates that cross nothing it is so if and only if the level exists, or nothing is reported, or there is no such print |
| `CreditLaws.PrintCreditsWhatItTook` | src/venues/coinbase/coinbase_exchange.cpp:411-418 | A print credits, at every price of the side it traded with and under its own time, exactly the phantom quantity that side lost there, and nothing anywhere else |
| `CreditLaws.ExistingLevelLaw` | src/exchange/exchange.cpp:648-723 | An update of a price at which something rests, order by order: target is the reported quantity less the credits stamped after it, or zero; growth joins as one new order, a reduction trims the level to its front; own orders, other prices and the other side stay; the credits it reflects are forgotten |
| `CreditLaws.UpdateAfterPrint` | src/exchange/exchange.cpp:648-674 | A print followed by an update of a level it traded at: stamped before the print the update shows the reported quantity less what the print took, stamped with it or after it shows it in full |
| `CreditLaws.CreditCounts` | src/exchange/symbol.hpp:116-129 | A credit counts for updates of its own price stamped before it, and for no others |
| `CreditLaws.TakeForgets` | src/exchange/symbol.hpp:140-166 | A take forgets the credits its update reflects and only those |
| `CreditRuns.SweptLevelIsNotOffset` | src/venues/coinbase/coinbase_exchange.cpp:298-311 | A level is offered, swept by a print, and restored in full by an update older than the print |
| `CreditRuns.TableIsItsHistory` | src/exchange/symbol.hpp:116-166 | After any run of the exchange the credit table answers every take with the credits of its own history that no later update has covered |
| `CreditRuns.PrintsAreCredited` | src/venues/coinbase/coinbase_exchange.cpp:411-418 | In a consistent book every print trades at real prices and is credited |
| `Priority.NewRestsLast` | src/exchange/symbol.cpp:28-33 | A new order that rests, whatever it traded first, stands behind everything at its price or better and before everything worse; nobody else on its side moves |
| `Priority.ShrinkingKeepsPlace` | src/exchange/symbol.cpp:62-80 | An amendment that neither moves nor grows an order changes its quantity where it stands and nothing else on its side |
| `Priority.RequeuedGoesLast` | src/exchange/symbol.cpp:62-80 | One that moves or grows it puts it last of its level |
| `Arrivals.NewArrivesLast` | src/order_book/order_book.hpp:89-101 | After any run, a new order that comes to rest under a priority above all drawn before stands last of its level, among own and mirrored orders alike |
| `Arrivals.RequeuedArrivesLast` | src/exchange/symbol.cpp:62-80 | And so does what is left of an order that an accepted amendment moves or grows |
| `Arrivals.StepBelow` | src/order_book/order_book.hpp:237-246 | One event of any kind: every resting order stays below the highest priority drawn so far; fills, cancels, reconciliations, rebuilds and changes in place never raise one |
| `Priority.RebuildKeepsOrder` | src/order_book/order_book.hpp:170-187 | A rebuild leaves both queues as they were without the phantom orders, for any map order, provided no two own orders share a priority |
| `Priority.RebuildSafety` | src/order_book/order_book.hpp:170-187 | So it is in every reachable state, priorities being drawn from a counter |
| `PreChecks.FillOrKillExact` | src/matching_engine/match_common.hpp:115-167 | For every book, limit, positive quantity and SMP mode (CANCEL_NEWEST having passed), the fill-or-kill scan says yes if and only if the FIFO loop, and if and only if the pro-rata loop, fills everything |
| `PreChecks.FillOrKillAtZero` | src/matching_engine/match_common.hpp:118-167 | At quantity zero the scan says no exactly when CANCEL_NEWEST meets an own order at the front of the crossing queue |
| `PreChecks.BackstopExact` | src/matching_engine/match_common.hpp:81-113 | The CANCEL_NEWEST scan with queue reach (FIFO) or level reach (pro-rata) is true if and only if that engine's loop would meet an own order, so the backstops are unreachable once it passes |
| `PreChecks.NeverRejected` | src/matching_engine/match_common.hpp:40-72 | With SMP off or CANCEL_RESTING neither loop ever turns the aggressor back |
| `PreChecks.PlanRemaining` | src/matching_engine/fifo_matching_engine.cpp:28-69 | What either loop leaves is the quantity less the available crossing liquidity, own orders excluded when SMP removes them |
| `Liquidity.MatchTakes` | src/matching_engine/fifo_matching_engine.cpp:28-69 | In plain prices, for either engine and every match that is not turned back: it takes exactly min(quantity, what rests at acceptable prices), never trades beyond the limit, and while it wants more nothing acceptable is left. Without a limit every price is acceptable, otherwise those at most (buying) or at least (selling) the limit; orders that self-match prevention removes do not count |
| `Liquidity.MarketTakesAll` | src/matching_engine/fifo_matching_engine.cpp:28-34 | With self-match prevention off, a match without a limit fills exactly min(quantity, everything resting) |
| `Liquidity.CanFillPlainly` | src/matching_engine/match_common.hpp:118-167 | The fill-or-kill scan compares the quantity with what rests at acceptable prices |
| `Liquidity.FifoOrderByOrder` | src/matching_engine/fifo_matching_engine.cpp:28-65 | What FIFO gives each resting order: the quantity left once everything acceptable ahead of it has its own, capped by its size; nothing to an order out of reach or removed |
| `Liquidity.ProRataLevelByLevel` | src/matching_engine/pro_rata_matching_engine.cpp:100-141 | What pro-rata does at the best price, whatever the SMP mode: cancel the removed orders, fill the allocation of the others, go on behind the level |
| `Liquidity.FilledAsAllocated` | src/matching_engine/pro_rata_matching_engine.cpp:130-141 | Filling an allocation gives every order of the level exactly its own share |
| `PreChecks.WouldSelfMatchInQueue` | src/matching_engine/match_common.hpp:81-113 | The queue-reach loop answers whether an own order is within the quantity in queue order |
| `PreChecks.WouldSelfMatchOnLevels` | src/matching_engine/match_common.hpp:81-113 | The level-reach loop answers whether an own order is on any level the quantity reaches |
| `PreChecks.CanFillCompletely` | src/matching_engine/match_common.hpp:118-167 | The scanning loop answers the fill-or-kill question |
| `EngineAgreement.EnginesAgree` | src/matching_engine/pro_rata_matching_engine.cpp:29-145 | For every lot size, minimum and percentage the two engines leave the same remainder and trade the same quantity at every price |
| `EngineAgreement.SameQuantityAtEveryPrice` | src/matching_engine/pro_rata_matching_engine.cpp:100-141 | The same for any exact way of splitting a level, not only the configured one |
| `EngineAgreement.HundredPercentIsFifo` | src/matching_engine/pro_rata_matching_engine.cpp:49-60 | With `fifo_percent` 100 and SMP off pro-rata takes exactly FIFO's actions, for any lot size and minimum |
| `ProRata.AllocationExact` | src/matching_engine/pro_rata_matching_engine.cpp:29-87 | Allocations lie between 0 and each order's size and sum to min(qty, level total) |
| `ProRata.FairShares` | src/matching_engine/pro_rata_matching_engine.cpp:62-85 | With no minimum each order's share is at most its exact proportion and less than one lot below it, and the quantity that spills to queue order is less than orders × lot |
| `Allotment.SplitPlainly` | src/matching_engine/pro_rata_matching_engine.cpp:29-87 | The whole split order by order in integer arithmetic: the first-come part is the most whole lots within the percentage, filled in queue order; each share is the most whole lots within the order's proportion of the rest that are not below the minimum, or nothing; what rounding left goes in queue order |
| `Allotment.FirstComeIsSafe` | src/matching_engine/pro_rata_matching_engine.cpp:47-60 | No order gets less than its place in the queue earns it of the first-come part, which is a lot multiple f with f × 100 at most quantity × percentage and the next lot above it too large |
| `Allotment.ShareIsLots` | src/matching_engine/pro_rata_matching_engine.cpp:66-72 | A share is nothing or at least the minimum, a lot multiple, within proportion, and no larger such number exists |
| `ProRata.HundredPercentIsFifo` | src/matching_engine/pro_rata_matching_engine.cpp:47-85 | With the whole quantity in the FIFO slice every order gets exactly its FIFO fill, for any lot size |
| `ProRata.FifoClosedForm` | src/matching_engine/fifo_matching_engine.cpp:28-65 | FIFO in closed form: an order trades what is left once everything ahead of it is filled, capped by its size |
| `ProRata.MulDivFloor` | src/utils/math.hpp:13-32 | The quotient is exact, bounded by `a`, and needs only `c != 0` and `b <= c` |
| `ProRata.SplitterExact` | src/matching_engine/pro_rata_matching_engine.cpp:29-87 | Every valid configuration is an exact way of splitting a level |
| `ProRata.Allocate` | src/matching_engine/pro_rata_matching_engine.cpp:29-87 | The engine's three loops compute the allocation; every `mul_div_floor` call meets its precondition and nothing is left at the end |
| `ProRata.AllocateRest` | src/matching_engine/pro_rata_matching_engine.cpp:62-86 | The pro-rata and leftover loops place exactly the rest of the quantity |
| `MatchPlan.PlanSound` | src/matching_engine/fifo_matching_engine.cpp:28-69 | Every action of either engine's plan hits an order that rests with enough quantity, fills plus remainder are the quantity, and the plan stops only when nothing crosses any more |
| `MatchPlan.FifoSound` | src/matching_engine/fifo_matching_engine.cpp:28-65 | The FIFO half of that |
| `MatchPlan.ProRataSound` | src/matching_engine/pro_rata_matching_engine.cpp:100-141 | The pro-rata half of that, for any exact split |
| `TradeSummaries.Conservation` | src/matching_engine/match_common.hpp:252-280 | Over a whole match by either engine: summary prices strictly worsen, every summary's leg count, aggressor leg, resting legs and phantom quantity balance, the summaries total what the aggressor lost, per price they report what traded there, and with the SMP cancels they total what the book lost |
| `TradeSummaries.LegsAreTheFills` | src/matching_engine/match_common.hpp:252-280 | Read leg by leg, the summaries of a match are its fills: the same orders, prices and quantities in the same order |
| `TradeSummaries.PlanWorsens` | src/matching_engine/match_common.hpp:252-280 | Either engine's fills never return to an earlier price |
| `FillAccounting.FreshRunAccounting` | src/utils/order.hpp:15-29 | Over any run of fills and amendments of a new order: cumulative quantity and value are the sums over the fills, a live order keeps cum + leaves = quantity, and the average lies between the lowest and highest fill price |
| `FillAccounting.RunAccounting` | src/utils/order.hpp:15-29 | The same from any balanced order |
| `FillAccounting.ValueFits` | src/utils/order.hpp:15-22 | With 64-bit prices and 64-bit order and amendment quantities the filled quantity fits 64 bits and the cumulative value 128 |
| `FillAccounting.FilledWithin` | src/matching_engine/match_common.hpp:214-224 | An order never fills more than the largest quantity it was entered or amended to |
| `FillAccounting.PreviewIsExact` | src/matching_engine/match_common.hpp:181-224 | The leaves previewed before anything is written are the leaves the amendment gets, and they are zero exactly when the new quantity is at or below what is filled |
| `Requests.MatchOrderOutcomes` | src/matching_engine/match_common.hpp:173-232 | Any incoming order: a self-match rejection changes nothing, a failed fill-or-kill changes only the reports, and otherwise the invariant holds, the aggressor lost exactly what was taken, and what is left of it does not cross |
| `Requests.LoopKeeps` | src/matching_engine/fifo_matching_engine.cpp:28-69 | The matching loop from any consistent state never takes the backstop, keeps the invariant and leaves nothing that crosses |
| `Matching.ApplyAllKeeps` | src/matching_engine/match_common.hpp:287-324 | Applying a sound plan keeps the invariant at every fill and cancel and does to the queue exactly what was planned |
| `RequestLaws.NewOrderKeeps` | src/exchange/symbol.cpp:15-56 | Every new order - market, limit, IOC, FOK, of any size - keeps the invariant: it rests, or it is returned to the pool, never both and never neither |
| `OrderFates.NewOrderFate` | src/exchange/symbol.cpp:15-56 | A new order trades min(its quantity, what rests at prices it accepts, orders of its own client apart under SMP). What is left rests at its own price and priority, under its own names, exactly if the order was accepted, has a price and is Day, GoodTillCancel or GoodTillDate; otherwise it ends outside book, maps and pool |
| `OrderFates.NewOrderToldInFull` | src/matching_engine/match_common.hpp:364-372 | What its sender has heard then: nothing if it was turned back, no terminal report if it rests, a terminal report in every other case |
| `OrderFates.NewOrderRefusals` | src/matching_engine/match_common.hpp:173-212 | An order of any positive quantity is turned back exactly if the mode is CANCEL_NEWEST and an order of its client rests within its reach, and refused exactly if it is fill-or-kill, not turned back, and less than its quantity rests at prices it accepts |
| `OrderFates.PlanKeepsApart` | src/matching_engine/match_common.hpp:22-72 | Only orders that self-match prevention removes are ever cancelled, and those are never filled |
| `OrderFates.StrangersTrade` | src/matching_engine/match_common.hpp:22-72 | A new order that is anonymous (client id -1), or whose client has nothing resting, is never turned back and cancels nothing, in any mode |
| `OrderFates.StrangersAmend` | src/matching_engine/match_common.hpp:22-72 | The same of an amendment |
| `RequestLaws.AmendSafeIff` | src/exchange/symbol.cpp:58-87 | An amendment, including one that trades and one that ends the order, keeps the invariant if and only if it carries a price, or is turned back, or is covered by the liquidity it crosses |
| `OrderFates.AmendFate` | src/exchange/symbol.cpp:58-87 | Any amendment, without conditions: turned back exactly under CANCEL_NEWEST with an own order within reach of what is still wanted; otherwise it trades min(what is still wanted, what rests at prices it accepts), and what is left rests at the new price and total, under the new priority only if it moved or grew; nothing left means gone |
| `RequestLaws.AmendToNoPriceBreaks` | src/exchange/symbol.cpp:73-80 | A lone bid amended to the null price breaks the book |
| `NoPrice.RecordsSafelyIff` | src/matching_engine/match_common.hpp:252-280 | Recording any list of fills and cancels finds its summary at every fill if and only if the first fill has a price |
| `NoPrice.MatchRecordsSafelyIff` | src/matching_engine/match_common.hpp:252-280 | For any queue, priced or not, and either engine: recording the match is safe if and only if nothing is asked for, or the first crossing order that self-match prevention does not remove has a price |
| `NoPrice.AmendedWithoutPrice` | src/exchange/symbol.cpp:58-87 | The lone bid amended to the null price: what rests, and what its owner was told |
| `NoPrice.NextSellIsUnsafe` | src/matching_engine/match_common.hpp:270-273 | From that state every sell, at any limit and under either engine, asks for the last of no summaries |
| `RequestLaws.RejectedLeavesNoTrace` | src/matching_engine/match_common.hpp:176-199 | A CANCEL_NEWEST rejection of an amendment leaves book, order and reports as they were, but for the pending status the handler set |
| `RequestLaws.RejectedNewLeavesNoTrace` | src/matching_engine/match_common.hpp:176-199 | A CANCEL_NEWEST rejection of a new order leaves the exchange exactly as it was |
| `RequestLaws.FillOrKillIsAtomic` | src/matching_engine/match_common.hpp:205-212 | A fill-or-kill order of any size, zero included, trades all of its quantity or none of it, and when refused book, maps, pool and index are untouched |
| `RequestLaws.ZeroFillOrKillRefused` | src/matching_engine/match_common.hpp:118-167 | A zero-quantity fill-or-kill order of the lone bid's owner under CANCEL_NEWEST is refused |
| `BookOps.CancelOwnKeeps` | src/exchange/symbol.cpp:89-96 | A cancel takes the order out of book, maps and pool together |
| `BookOps.FillPassiveKeeps` | src/order_book/order_book.hpp:189-217 | A fill of a resting order keeps the invariant; one that finishes an own order takes it out of book, maps and pool |
| `BookOps.RestOwnKeeps` | src/order_book/order_book.hpp:89-101 | Resting an order keeps the invariant: it enters maps and book together and the phantom index does not count it |
| `BookOps.SettleKeeps` | src/order_book/order_book.hpp:136-168 | Settling an amended order at its new price and place, or removing it when nothing is left, restores the invariant |
| `BookInvariant.ResizePhantomKeeps` | src/order_book/order_book.hpp:340-370 | Resizing a phantom order keeps the index exact at every price |
| `BookInvariant.AddPhantomKeeps` | src/order_book/order_book.hpp:340-370 | Resting a phantom order that crosses nothing keeps the invariant, index included |
| `Feed.ReconcileExact` | src/exchange/exchange.cpp:648-723 | Reconciling an existing level leaves its phantom quantity at exactly the target; growth is one new order behind the level, reductions come strictly from the back, and no other order of the book moves or changes |
| `Feed.IndexIsTheLevel` | src/order_book/order_book.hpp:324-331 | In an uncrossed book the index, keyed by price alone, is the phantom quantity of the side the level is on |
| `Feed.LevelFits` | src/exchange/exchange.cpp:673-683 | A level that exists may grow without being matched first |
| `Reconcile.ReductionsTrim` | src/exchange/exchange.cpp:684-721 | The reductions chosen from the back leave the level's first units and nothing else of it: the walk equals an independent trim |
| `Reconcile.TrimmedOrderByOrder` | src/exchange/exchange.cpp:684-721 | That trim order by order: each phantom order of the level keeps what is left of the target once those ahead of it have their own, capped by its size, and goes if that is nothing |
| `FeedMatching.MatchFeedKeeps` | src/matching_engine/match_common.hpp:330-362 | Market liquidity as an aggressor keeps the invariant, and what is left of it no longer crosses |
| `FeedMatching.MatchThenRestKeeps` | src/venues/coinbase/coinbase_exchange.cpp:298-330 | A new level, or a print's remainder, is matched and then rested without crossing the book |
| `Rebuild.ClearMdOrdersKeeps` | src/order_book/order_book.hpp:170-187 | A rebuild, in whatever order the map yields the own orders, leaves exactly the own orders, each resting as before, and no phantom quantity in book or index |
| `Mirror.ApplyMarketOrderSafeIff` | src/exchange/exchange.cpp:725-806 | A mirrored NEW, DELETE or CHANGE, as the feed's interface documents them, keeps the invariant if and only if, being an in-place change, it keeps a real price and does not move to where it would trade |
| `Mirror.MoveUncrossedIff` | src/exchange/exchange.cpp:741-750 | An in-place change of price leaves the book uncrossed if and only if nothing on the other side would trade at the new price |
| `Mirror.InPlaceChangeCanCross` | src/exchange/exchange.cpp:741-750 | A two-order book that an in-place change crosses |
| `Mirror.DeleteKeeps` | src/exchange/exchange.cpp:733-738 | Deleting a mirrored order, present or already gone, keeps the invariant and frees its id |
| `TradeCredits.CreditsRefineHistory` | src/exchange/symbol.hpp:116-166 | For any interleaving of credits and takes, a take answers the sum of the credits at its key stamped after it that no take since has covered, and a price keeps at most one entry per timestamp |
| `TradeCredits.AddCredit` | src/exchange/symbol.hpp:116-129 | The loop adds to the entry with the same timestamp, or appends one |
| `TradeCredits.DropReflected` | src/exchange/symbol.hpp:140-166 | Erasing while iterating keeps exactly the credits the update does not reflect, and returns their sum |
| `TradeCredits.CreditTable.CreditQty` | src/exchange/symbol.hpp:116-129 | The table after a credit, over its whole map |
| `TradeCredits.CreditTable.TakeQty` | src/exchange/symbol.hpp:140-166 | The table and the answer after a take; an emptied price leaves the map |
| `OrderBooks.OrderBook.NotifyOrderUpdate` | src/order_book/order_book.hpp:340-370 | The observer's update of index and leaves |
| `OrderBooks.OrderBook.AddOrder` | src/order_book/order_book.hpp:89-101 | Registers, then rests, an own order |
| `OrderBooks.OrderBook.CancelOrder` | src/order_book/order_book.hpp:108-120 | Book, maps, report and pool after a cancel |
| `OrderBooks.OrderBook.ExecuteOrder` | src/order_book/order_book.hpp:189-217 | A regressing sequence changes nothing; otherwise the record, the book and the maps after an execution |
| `OrderBooks.OrderBook.FillRestingOrder` | src/matching_engine/match_common.hpp:294-317 | A resting order's fill with its report and its return to the pool |
| `OrderBooks.OrderBook.SettleOrder` | src/order_book/order_book.hpp:136-168 | The book after an amendment settles |
| `Engines.FifoLoop` | src/matching_engine/fifo_matching_engine.cpp:28-69 | FIFO's loop carries out its plan exactly: book, remainder, rejection and trade summaries |
| `ProRataEngines.ProRataLoop` | src/matching_engine/pro_rata_matching_engine.cpp:100-145 | The pro-rata loop, level by level with its cancels and re-reads, carries out its plan exactly |
| `ProRataEngines.CancelSelfOnLevel` | src/matching_engine/pro_rata_matching_engine.cpp:111-128 | One pass cancels exactly the owner's orders on the level and leaves the rest of the queue alone |
| `ProRataEngines.FillOnLevel` | src/matching_engine/pro_rata_matching_engine.cpp:130-141 | Executing the allocations does to the queue, the aggressor and the summaries what was planned |
| `FeedEngines.FifoFeedLoop` | src/matching_engine/fifo_matching_engine.cpp:71-95 | The feed loop carries out the FIFO plan, or, declined, leaves the book and the quantity untouched |
| `FeedEngines.ProRataFeedLoop` | src/matching_engine/pro_rata_matching_engine.cpp:147-172 | The same for pro-rata |
| `FeedEngines.FillRestingFromFeed` | src/matching_engine/match_common.hpp:326-362 | One feed fill: a declined execution restores the quantity and records nothing |
| `Symbols.PrepareOrder` | src/matching_engine/match_common.hpp:173-232 | The preamble's decision and its writes, in its order, for both engines |
| `Symbols.MatchOrder` | src/matching_engine/fifo_matching_engine.cpp:18-69 | A whole match by either engine: resulting state, reject reason and trade summaries |
| `Symbols.AddOrder` | src/exchange/symbol.cpp:15-56 | A new order's resulting state, reject reason and trade summaries, with the invariant |
| `Symbols.ModifyOrder` | src/exchange/symbol.cpp:58-87 | An amendment's resulting state, reject reason and trade summaries, and exactly when the invariant survives |
| `FeedHandlers.ReconcilePhantomQty` | src/exchange/exchange.cpp:648-723 | The handler's whole effect: no level, no change; otherwise phantom quantity max(0, target − unreflected trades), nothing else moved, and the credits taken |
| `FeedHandlers.ChooseReductions` | src/exchange/exchange.cpp:698-713 | The backward walk chooses all reductions before any is applied |
| `FeedHandlers.ClearMDOrders` | src/order_book/order_book.hpp:173-187 | Saving, clearing and re-adding yields the rebuilt book, for any map order |
| `Venues.SimulatedVenue.OnNewOrder` | src/exchange/exchange.cpp:230-285 | The handler is the state machine's step and keeps the venue's invariant |
| `Venues.SimulatedVenue.OnModifyOrder` | src/exchange/exchange.cpp:287-341 | For any amendment, unknown orders included, the handler is the step; the venue stays consistent if and only if the amendment is admissible |
| `Venues.SimulatedVenue.OnCancelOrder` | src/exchange/exchange.cpp:343-379 | The same for cancels, unknown orders included |
| `Venues.SimulatedVenue.OnLevelUpdate` | src/venues/coinbase/coinbase_exchange.cpp:271-332 | The same for a level update: stale ones skipped, new levels matched, existing ones reconciled |
| `Venues.SimulatedVenue.OnTradePrint` | src/venues/coinbase/coinbase_exchange.cpp:387-420 | The same for a trade print, crediting the phantom quantity each price lost |
| `Venues.SimulatedVenue.OnSnapshotBegin` | src/venues/coinbase/coinbase_feed_callbacks.cpp:91-126 | The same for the start of a rebuild, under one fresh stamp |
| `Venues.SimulatedVenue.OnSnapshotLevel` | src/venues/coinbase/coinbase_feed_callbacks.cpp:127-163 | The same for each level of the snapshot |
| `Venues.SimulatedVenue.OnMarketOrder` | src/exchange/exchange.cpp:725-766 | For any mirrored order as the feed's interface documents them the handler is the step; the venue stays consistent if and only if an in-place change keeps a real price and stays clear of the other side |
| `Venues.SimulatedVenue.OnMarketTrade` | src/exchange/exchange.cpp:793-806 | The same for a mirrored trade |
| `Venues.SimulatedVenue.DrawStamp` | src/venues/coinbase/coinbase_exchange.cpp:197-209 | Catches up with the book, then advances |
| `L2Diff.DiffRoundTrip` | src/venues/hyperliquid/hyperliquid_l2_diff.cpp:30-68 | For any two strictly best-first sides, a decoder that holds the first and applies the difference holds exactly the second: prices, order and quantities, whichever order removals are listed in |
| `L2Diff.SubscriberHoldsTheBook` | src/venues/hyperliquid/hyperliquid_publisher.cpp:350-387 | After any run of subscription responses and book frames over any coins, a subscriber holds exactly the published depth of each coin's last frame |
| `L2Messages.ShowsTheLastFrame` | src/venues/hyperliquid/hyperliquid_publisher.cpp:350-387 | Level by level: after any run the subscriber of a coin shows the best twenty levels of each side of its last frame, or all of them if there are fewer, and knows no other quantity |
| `L2Messages.TwentyOfEach` | src/venues/hyperliquid/hyperliquid_l2_diff.cpp:84-120 | What is published of a frame, position by position; the asks start after the last bid |
| `L2Messages.OnlyWhatChanged` | src/venues/hyperliquid/hyperliquid_l2_diff.cpp:30-68 | A difference lists exactly the levels that are new or have a new quantity, best first, and exactly the positions of the prices that are gone, highest first for bids and lowest first for asks |
| `L2Messages.OtherCoins` | src/venues/hyperliquid/hyperliquid_publisher.cpp:350-387 | No message touches what a subscriber shows of another coin |
| `L2Diff.BidRemovalsSplice` | src/venues/hyperliquid/hyperliquid_l2_diff.cpp:54-60 | Bid removals spliced one at a time in emitted order equal removing them all at once |
| `L2Diff.AskRemovalsSpliceIff` | src/venues/hyperliquid/hyperliquid_l2_diff.cpp:61-67 | Ask removals spliced in emitted order are right if and only if at most one level is removed |
| `L2Diff.AskSplicesLeaveALevel` | src/venues/hyperliquid/hyperliquid_l2_diff.cpp:61-67 | Two asks removed together, spliced in emitted order, leave one of them |
| `L2Book.BookFollowsTheChannel` | src/venues/hyperliquid/hyperliquid_exchange.cpp:193-258 | If the exchange book's phantom quantity is the published book, then after the next difference it is the new published book at every price of both sides, and own orders are untouched, as long as none rests where the new book crosses it |
| `L2Follower.BookFollowsEveryMessage` | src/venues/hyperliquid/hyperliquid_exchange.cpp:128-258 | Over any run of snapshots and differences over any coins, after each message the exchange's own book of that coin holds exactly the published depth of the message's frame |
| `L2Follower.SnapshotMirrors` | src/venues/hyperliquid/hyperliquid_exchange.cpp:128-177 | After a snapshot the book is the published one, whatever phantom quantity it held before |
| `L2Book.SetLevelShowsIff` | src/venues/hyperliquid/hyperliquid_exchange.cpp:275-306 | A level shows its whole reported quantity if and only if it exists already, or nothing is reported, or it crosses nothing |
| `L2Book.SetLevelExact` | src/venues/hyperliquid/hyperliquid_exchange.cpp:275-306 | Setting one level sets its phantom quantity and moves nothing else, provided a new level crosses nothing |
| `L2Book.SetLevelIsTheHandler` | src/venues/hyperliquid/hyperliquid_exchange.cpp:275-306 | That step is the exchange's level handler on an unstamped feed with no unreflected trade |
| `L2Diff.RunHolds` | src/venues/hyperliquid/hyperliquid_publisher.cpp:292-299 | Publisher baseline and subscriber book agree for every coin after every message |
| `L2Channel.ComputeSide` | src/venues/hyperliquid/hyperliquid_l2_diff.cpp:30-68 | The encoder's loops over hash maps and both index directions |
| `L2Channel.SplitFrame` | src/venues/hyperliquid/hyperliquid_l2_diff.cpp:84-120 | Each side truncated to the published depth, the asks read after every bid of the frame |
| `L2Channel.LowerBound` | src/venues/hyperliquid/hyperliquid_exchange.cpp:250-254 | Bisection finds the first price that is not better |
| `L2Channel.Publisher.PublishBook` | src/venues/hyperliquid/hyperliquid_publisher.cpp:383-387 | The diff against the baseline, and the baseline it leaves |
| `L2Channel.Publisher.PublishResponse` | src/venues/hyperliquid/hyperliquid_publisher.cpp:292-307 | The full snapshot sent first seeds the baseline |
| `L2Channel.SideMirror.ApplyRemovals` | src/venues/hyperliquid/hyperliquid_exchange.cpp:212-233 | All indices are resolved against the array as it stood, then erased by price |
| `L2Channel.SideMirror.ApplyChanges` | src/venues/hyperliquid/hyperliquid_exchange.cpp:240-258 | Changed levels keep the array strictly best-first |
| `L2Channel.SideMirror.Process` | src/venues/hyperliquid/hyperliquid_exchange.cpp:193-258 | A whole diff of one side |
| `L2Channel.SideMirror.Rebuild` | src/venues/hyperliquid/hyperliquid_exchange.cpp:128-177 | A snapshot rebuilds the array, skipping empty levels |
| `Sequencer.StrictOrder` | src/venues/coinbase/coinbase_exchange.hpp:70-91 | The comparison is a strict order, total on events with different sequence ids |
| `Sequencer.QueuedOrderIsFinal` | src/venues/coinbase/coinbase_exchange.cpp:211-265 | Whatever is queued or discarded later, and at whatever pace events are released, events already queued are dispatched in the order they hold now |
| `Release.UnforcedPass` | src/venues/coinbase/coinbase_exchange.cpp:211-265 | In plain arithmetic, for clocks below 2^63: an unforced pass dispatches the front of the queue as long as it is at least a second older than the newest event queued, or has waited at least a second, and stops at the first event that is neither; a clock behind an event's reading releases it |
| `Release.DispatchedInEventOrder` | src/venues/coinbase/coinbase_exchange.cpp:225-265 | What the hold buys: as long as the channels keep within a second of each other, every run dispatches its events in event-time order across all batches, trades before the level updates of their instant |
| `Release.BatchKeepsOrderIff` | src/venues/coinbase/coinbase_feed_callbacks.cpp:208-235 | Exactly when event-time order is lost: a batch costs it if and only if it brings a row that belongs before something already dispatched |
| `Release.PassKeepsOrder` | src/venues/coinbase/coinbase_exchange.cpp:221-265 | Dispatching never costs it, forced or not, at any pace |
| `Release.OrderShowsIff` | src/venues/coinbase/coinbase_exchange.cpp:221-265 | Once everything queued is dispatched, the whole output is in event-time order if and only if the order was kept |
| `Release.ASecondIsTooLate` | src/venues/coinbase/coinbase_exchange.cpp:229-235 | A trade that comes exactly one second behind the newest event is dispatched after the level update of its own instant |
| `Release.BatchQueues` | src/venues/coinbase/coinbase_feed_callbacks.cpp:208-235 | A batch puts exactly its own rows into the queue, and the newest time is that of the newest row so far |
| `Release.SnapshotDiscards` | src/venues/coinbase/coinbase_feed_callbacks.cpp:107-114 | What was queued when a snapshot arrives is never dispatched after it |
| `Sequencer.QueuedTogether` | src/venues/coinbase/coinbase_exchange.hpp:73-91 | Of two events queued together the comparison's first is dispatched first on every continuation |
| `Sequencer.TradeBeforeItsLevel` | src/venues/coinbase/coinbase_exchange.hpp:76-83 | In particular a trade precedes a level update with its timestamp |
| `Sequencer.LevelBatchInOrder` | src/venues/coinbase/coinbase_feed_callbacks.cpp:185-235 | From every reachable state, a level batch with non-falling times is dispatched in its own order, whatever else is queued and whatever follows |
| `Sequencer.InOrderAt` | src/venues/coinbase/coinbase_feed_callbacks.cpp:208-222 | That order, element by element: the end-of-event flag is on the batch's last element and on no other |
| `Sequencer.LevelBatchInOrderIff` | src/venues/coinbase/coinbase_feed_callbacks.cpp:208-234 | Non-falling times are exactly what that takes |
| `Sequencer.FallingBatchIsReversed` | src/venues/coinbase/coinbase_feed_callbacks.cpp:208-234 | A two-row batch with falling times is replayed backwards, its end-of-event flag first |
| `Sequencer.TradeBatchInOrder` | src/venues/coinbase/coinbase_feed_callbacks.cpp:287-325 | A trade batch listed newest first is dispatched oldest first, its flag last |
| `Sequencer.SymbolEventState.OnLevel2Updates` | src/venues/coinbase/coinbase_feed_callbacks.cpp:208-234 | The reverse enqueue loop |
| `Sequencer.SymbolEventState.OnMarketTrades` | src/venues/coinbase/coinbase_feed_callbacks.cpp:287-325 | The forward enqueue loop |
| `Sequencer.SymbolEventState.ProcessSequencedEvents` | src/venues/coinbase/coinbase_exchange.cpp:211-265 | Releases the front of the queue while it is ready by time gap, timeout or force, in unsigned 64-bit arithmetic |
| `ClOrdIds.SessionSafety` | src/order_gateway/cl_ord_id_index.hpp:11-98 | Over every run of sends, acceptances, rejections, renames and completions with overlapping replaces: an entry's claims are the requests in flight naming its id, an entry exists only while held or claimed, no two working orders hold one id, `find` answers the holder, and no step trips the assertion in `assign` |
| `ClOrdIds.StepKeeps` | src/order_gateway/cl_ord_id_index.hpp:30-78 | Each protocol step from any consistent session |
| `ClOrdIds.FindIsTheHolder` | src/order_gateway/cl_ord_id_index.hpp:21-25 | At most one working order holds an id and `find` answers exactly it, or 0 |
| `ClOrdIds.ClaimExact` | src/order_gateway/cl_ord_id_index.hpp:28-36 | A claim is refused exactly when another order, or a request for one, has the id |
| `ClOrdIds.EventMeans` | src/order_gateway/cl_ord_id_index.hpp:21-78 | What each event does to every lookup: an accepted new order is found under its id, a replaced one under its new id and not under its old, a finished one not at all, and no event touches any other id |
| `ClOrdIds.ClOrdIdIndex.ClaimId` | src/order_gateway/cl_ord_id_index.hpp:30-37 | The map and the answer after a claim |
| `ClOrdIds.ClOrdIdIndex.ReleaseId` | src/order_gateway/cl_ord_id_index.hpp:47-52 | The map after a release |
| `ClOrdIds.ClOrdIdIndex.RenameId` | src/order_gateway/cl_ord_id_index.hpp:75-78 | The map after a rename, also onto the same id |
| `Stream.ChunkingDoesNotMatter` | src/order_gateway/tcp_order_gateway.cpp:46-65 | However a connection's bytes are split into reads, and whatever other connections do between, its protocol is handed the messages of the whole stream since it connected and the gateway keeps the rest |
| `Stream.SameStreamSameMessages` | src/order_gateway/tcp_order_gateway.cpp:46-65 | Two ways of cutting one stream are indistinguishable |
| `Stream.ParsingResumes` | src/order_gateway/tcp_order_gateway.hpp:63-66 | Parsing what is left with more bytes behind it continues as the whole would |
| `Stream.ParsingLosesNothing` | src/order_gateway/tcp_order_gateway.hpp:63-66 | Messages and remainder are the stream, and the remainder holds no whole message |
| `Stream.EveryMessageIsFramed` | src/order_gateway/tcp_order_gateway.hpp:63-66 | The stream is cut where the framing says, message by message |
| `Stream.TcpOrderGateway.OnClientData` | src/order_gateway/tcp_order_gateway.cpp:46-65 | Both branches, buffered and unbuffered, have the same effect |
| `Stream.TcpOrderGateway.OnClientDisconnected` | src/order_gateway/tcp_order_gateway.cpp:40-44 | A disconnect forgets the connection's tail |

## Left out

- Runs.Safety: assumes that events carry unused ids, unique order ids and real feed prices, that an amendment carries a price or leaves nothing to rest, and that an in-place mirror change does not move to a crossing price; the last two are exactly the conditions of `RequestLaws.AmendSafeIff` and `Mirror.ApplyMarketOrderSafeIff`.
- Runs.Safety: does not speak of a client fill the book declines, because client matching passes sequence 0, which the book never refuses.
- Mirror.ApplyMarketOrderSafeIff: a mirrored order's id is assumed not to be one of the simulator's own and not to be added twice, and one that is rested anew to carry a real price, as the feed's interface documents; the source asserts the last two.
- L2Diff.SubscriberHoldsTheBook: covers one subscriber per coin; a second subscription resets the shared baseline under the first.
- L2Channel.SideMirror.ApplyRemovals: keeps the index array and the mirrored quantities only; what each removal does to the exchange's book is `L2Book.SetLevelExact`, and that the book follows is `L2Book.BookFollowsTheChannel`.
- L2Channel.SideMirror.ApplyChanges: the same for changed levels.
- L2Channel.SideMirror.Process: the same for a whole difference of one side.
- L2Channel.SideMirror.Rebuild: keeps the index array and the mirrored quantities only; clearing the book is `FeedHandlers.ClearMDOrders` and resting a snapshot level is `FeedMatching.MatchThenRestKeeps`.
- L2Book.BookFollowsTheChannel: a published level that crosses an own order trades with it first and then shows less (`L2Book.SetLevelShowsIff`), so runs in which one does are outside the theorem; so are client orders between two messages, which take mirrored quantity.
- CreditRuns.UpdatesOffsetTheirTrades: an update that crosses trades first, and what it leaves is not compared with its offset.
- OrderBooks.OrderBook.SettleOrder: covers orders in the maps; the source would re-register one that is not, which its only caller never passes because it finds the order in them.
- StatementRuns.StatementSafety: assumes that an internal id is never used for two orders and that every priority drawn for an own order is above those drawn before, as the source's counters make them; rejections and pending-status responses are not among the reports.
- ClOrdIds.SessionSafety: claim counts are unbounded, where the source's 32-bit counter would wrap after 2^32 requests in flight for one id.
- Sequencer.TradeBatchInOrder: a batch is one symbol's prints; the flag is missing when the batch's first print belongs to another symbol, which is a parameter.
- Stream.ChunkingDoesNotMatter: the protocol is any length-framed one; a protocol that closes the connection from inside its callback is not modelled.
- Priority.NewRestsLast: assumes the drawn priority is not below any resting at that price, which `Arrivals.NewArrivesLast` derives over runs; on Hyperliquid, whose phantom orders rest under timestamps, no drawn priority is above them.
- Reports carry identity, price, quantity, leaves and cumulative quantity; tags, timestamps and the pending-status reports are presentation.
- Level and order update caches, their batch flags on the client path, publication and trade history: output only.
- Symbol lookup, unknown contracts, user identities, market data subscriptions and timers: no deep state.
- HTTP, WebSocket and FIX front ends, JSON and compression, configuration merging, queues, threads and the retransmission buffers: library calls or I/O.
- Conversion between floating point and fixed point, formatting of numbers and times.
