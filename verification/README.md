# Verified model of the exchange benchmark

The repository benchmarks order-matching engines. A fleet of bots sends orders to an engine, the
engine's answers and the bots' telemetry are logged, a reference order book replays the orders in the
engine's own order, and a validator compares what was traded with what should have been. This project
models the parts on which that verdict rests, and proves what they promise:

- **Matching.** `BookSpec` and `BookSafety` say what price-time matching is and what it keeps over
  every run. Three engines and two reference books are proved to be that specification: the sorted
  vectors of `NaiveBook`, the price-level tree of `OrderBook`, the Go engine with its ladders of shared
  order objects (`StubEngine`), and the lazily sorted Rust engine (`RustEngine`). `EngineRuns` accounts for
  every quantity over whole runs of the Go engine, with its protective limits and without. `TimePriority`
  says, in terms of the requests alone, what rests, who trades first and what every answer means.
- **Concurrency.** `ConcurrentEngine` is the engine with one lock per symbol, `Ring` the lock-free ring
  and `Disruptor` the engine fed by rings, each as single atomic steps that interleave freely.
- **The verdict.** `Replay`, `Compare`, `EdgeCases`, `Validator` and `Verdict` model the validator;
  `EndToEnd` and `DisruptorEndToEnd` prove that it accepts every run of either concurrent engine whose steps
  are harmless: no cancel is acknowledged as unknown while its order rests or is about to, and no protective
  limit turns anything away. `CancelRace` and `RingRace` show that this condition is exact step by step, that
  clients who wait for answers meet it, and that the open-loop bots may not.
- **Runs.** `RunStore`, `RunLifecycle` and `RunSafety` model how processes that share a store claim,
  execute, cancel and finish runs; `RunEndings` says through which stages a run goes and which ending it gets.
- **Telemetry.** Re-delivered acks (`DedupWindow`, `Aggregator`), acks per second (`TpsCounter`,
  `SlidingPeak`), counters flushed by many pods (`RedisRollup`), and rows for the time-series table
  (`Calendar`, `Decimals`, `CopyRows`). `BotIds` covers the ids bots generate and how answers are routed
  back to them.

Objects that the source updates in place are classes whose methods are proved against functions of the
old and new value; what runs concurrently is a state machine over its steps; the laws are lemmas about
those functions and machines. `dafny verify dfyconfig.toml` checks everything.

## What the code does not do

Some comments in the repository promise more than the code does, and some requests fare otherwise than
their sender would expect. The model follows the code; each of these is a lemma with a concrete input, and
next to it stands the exact condition under which the code does what is promised.

- Evicting a bucket of the per-second counter can make the reported peak too low (tps.rs:83-84 says it
  cannot): `TpsCounter.EvictionUnderstatesThePeak` is a stream, for every cap, whose evictions are all
  forced. The peak is exact if and only if some busiest second was not evicted and recorded again:
  `TpsCounter.PeakIsExactIff`.
- The ring-fed engine does not mirror the locked one (disruptor.go:291-292 says "exactly"): it has no
  limit on field lengths and none on resting orders. `DisruptorSafety.LongIdTellsApart` and
  `DisruptorSafety.FullSideTellsApart` give the requests; `DisruptorSafety.AnswersAgreeIff` says when the
  answers (status, reason and fills) agree.
- A cancel of an unknown order is answered without a matcher, because its position "can't affect any book"
  (disruptor.go:204-205). It can: `RingRace.PipelinedCancelIsRefused` is a run over one connection in which
  the order is being placed when the cancel looks it up and rests when the cancel draws its number. The
  replay then cancels what the engine goes on to trade, and the validator refuses the run. The locked engine
  has the same window between connections: `CancelRace.EarlyCancelDiverges`. Replay and engine agree after a
  missed cancel if and only if the order neither rests nor is about to: `CancelRace.MissAgreesIff`. The
  closed-loop bots (main.rs:606-640 of the bot fleet) wait for answers and are safe short of a timeout, as
  is a single connection to the locked engine; the open-loop bots (main.rs:494-503, 763-776, 1211-1217)
  cancel what they have merely sent.
- A stored ending is not final while an execution is under way (json_store.go:99-105 guards only one
  ending against another): `RunSafety.UnregisteredCancelIsOverwritten` is a run from the empty store.
  `RunSafety.EndingIsFinalIff` says, of any reachable state, when an ending is final; after the execution
  has returned it always is (`RunSafety.ReturnedIsFinal`).
- The Rust engine never reads an order's type: a market order without a price is turned away and one with a
  price acts as a limit order: `RustEngine.MarketWithoutPriceIsRefused`. `RustEngine.MarketAgreesIff` says
  when that makes no difference.
- A ring of a single slot loses items: `RingSafety.OneSlotLosesItems`. All guarantees hold from two slots
  on; the source uses 16384.
- An order of the largest 64-bit quantity is never flagged as over-filled, because the totals saturate at
  that number: `EdgeCases.LargestOrderIsNeverFlagged`. Every smaller order is flagged if and only if it
  traded more than was placed: `EdgeCases.FindOverfill`.
- replay.rs:259-263 says events with cancels are left in file order; the code reorders them too:
  `Replay.CancelsAreReordered`. It reorders if and only if every event's own id has an arrival
  number: `Replay.OrderByEngineSeq`.

## Model

| member | source | states |
|---|---|---|
| BookSpec.MatchWalksTheLadder | rust/reference-orderbook/src/book.rs:115-155 | fill k trades with the k-th order of the ladder at that order's price within the limit, all but the last order touched are used up, and the walk stops only when the active order is spent, the ladder is empty or the next price is beyond the limit |
| BookSpec.WalkIsUnique | rust/reference-orderbook/src/book.rs:157-197 | those conditions leave one outcome: fills, residual and remaining ladder are determined |
| BookSafety.FillsTakeTheBest | rust/reference-orderbook/src/book.rs:115-197 | each fill is with the order that is best once the earlier ones are gone, at the resting price, inside both limits, for a positive quantity no larger than what rests; the bid is named as buyer and the ask as seller, whichever came in |
| BookSafety.MatchConserves | rust/reference-orderbook/src/oracle.rs:74-120 | whatever quantity leaves any id during a match is in a fill |
| BookSafety.CompleteKeepsValid | rust/reference-orderbook/src/book.rs:27-67 | a placement keeps both ladders strictly sorted, ids distinct, and every bid below every ask |
| BookSafety.CancelRemovesExactly | rust/reference-orderbook/src/book.rs:69-89 | a cancel answers true if and only if the order rests, and then removes that order and nothing else |
| BookSafety.CancelReleasesAll | rust/reference-orderbook/src/book.rs:69-89 | after a successful cancel nothing rests under the id, and a failed one leaves its quantity alone |
| BookSafety.RunsConserve | rust/reference-orderbook/src/book.rs:27-197 | over every run with distinct live ids: book sorted and uncrossed after each operation, fills positive, and accepted quantity of each id = traded + resting + cancelled or dropped |
| TimePriority.RejectedIff | rust/reference-orderbook/src/book.rs:27-36 | each refusal has exactly its cause: no id, a quantity that is not positive, a limit order without a positive price; it leaves the book alone |
| TimePriority.WhatRestsIsWhatWasSent | rust/reference-orderbook/src/book.rs:38-64 | what rests after a placement has the side, price and stamp that were sent and the quantity sent less what it traded, and rests exactly when a limit order has something left |
| TimePriority.StopsOnlyWhen | rust/reference-orderbook/src/book.rs:115-197 | a placement stops trading only when its order is used up, the other side is empty, or the best price left is beyond its limit; a market order has none |
| TimePriority.LadderGoesByTime | rust/reference-orderbook/src/book.rs:97-113 | over every run a side stands in the order of the requests' prices, then of their stamps, then of who was placed first; in broken mode the later stamp stands first |
| TimePriority.SoonerTradesFirst | rust/reference-orderbook/src/oracle.rs:122-135 | over every run, with limits or without: whoever trades with the later of two resting orders has traded with the one of better price, or of one price the smaller stamp (the larger in broken mode), and used it up |
| TimePriority.RunIsHandleAll | rust/reference-orderbook/src/book.rs:27-89 | runs of the reference book are among those runs |
| NaiveOracle.NaiveBook.ProcessNewOrder | rust/reference-orderbook/src/oracle.rs:19-60 | push, full sort and matching loop on vectors answer and leave behind what the specification says, rejections and ids that already rest included, and keep both vectors in priority order |
| NaiveOracle.NaiveBook.Cancel | rust/reference-orderbook/src/oracle.rs:62-72 | removal from whichever vector holds the order is the specified cancel |
| NaiveOracle.NaiveBook.MatchBuy | rust/reference-orderbook/src/oracle.rs:74-96 | the buy loop returns the specified fills, residual and ask ladder |
| NaiveOracle.NaiveBook.MatchSell | rust/reference-orderbook/src/oracle.rs:98-120 | the sell loop likewise |
| NaiveOracle.NaiveBook.Sort | rust/reference-orderbook/src/oracle.rs:122-135 | both vectors become their stable sort by price, time and insertion |
| PriceLevelBook.OrderBook.ProcessNewOrder | rust/reference-orderbook/src/book.rs:27-67 | the tree book's placement in place is the level function, and its representation invariant (no empty level, index exactly the resting orders) is kept |
| PriceLevelBook.OrderBook.Cancel | rust/reference-orderbook/src/book.rs:69-89 | cancel by index entry, level removed with its last order, invariant kept |
| PriceLevelBook.OrderBook.MatchBuy | rust/reference-orderbook/src/book.rs:115-155 | the loop over best level and front order, index entries removed as orders are used up, computes the level match; the lookups it expects to succeed do |
| PriceLevelBook.OrderBook.MatchSell | rust/reference-orderbook/src/book.rs:157-197 | the mirrored loop likewise |
| LevelRefinement.PlaceRefines | rust/reference-orderbook/src/book.rs:27-67 | on related books a placement gives equal results and related books |
| LevelRefinement.CancelRefines | rust/reference-orderbook/src/book.rs:69-89 | so does a cancel |
| LevelRefinement.RunsRefine | rust/reference-orderbook/src/book.rs:27-197 | for every sequence of placements and cancels with distinct live ids the price-level book and the sorted-vector book answer alike, action by action |
| StubEngine.OrderBeforeIsPriority | examples/stub-engine/main.go:327-346 | the comparison orders as price, then time (inverted in broken mode), then insertion |
| StubEngine.SymbolBook.InsertSorted | examples/stub-engine/main.go:348-363 | the binary-search insert equals appending and stably sorting, in both modes |
| StubEngine.FoundWhereItIs | examples/stub-engine/main.go:365-384 | the position searched for is where the order stands if it still rests: its sort key survives partial fills and head pops |
| StubEngine.SymbolBook.RemoveOrder | examples/stub-engine/main.go:365-384 | removes exactly the given object, if and only if it is still in its ladder |
| StubEngine.Engine.Match | examples/stub-engine/main.go:405-467 | quantities of shared objects reduced in place, heads popped and unindexed, numbers drawn one per fill: the specified match |
| StubEngine.Engine.ProcessNew | examples/stub-engine/main.go:187-282 | answer, reason, fills and book of every placement, with length limit and resting cap, in both modes; numbers consecutive; other books untouched; index exact again |
| StubEngine.Engine.ProcessCancel | examples/stub-engine/main.go:284-320 | canceled if and only if the order rests; the one order goes, and a miss means it rests nowhere |
| StubEngine.Engine.UnknownIsNotLive | examples/stub-engine/main.go:284-297 | between operations an id the index does not know rests in no book |
| EngineSpec.LimitsInvisibleIff | examples/stub-engine/main.go:178-282 | the limits leave answer and book as they are exactly when the request is malformed, or its fields fit and its residual does not meet a full side |
| TimePriority.AnswerSaysWhy | examples/stub-engine/main.go:187-282 | every status and reason has exactly its cause, read off the request and the book: malformed, a field over 256 bytes, 100000 orders on its side with nothing or something traded, or none of these |
| EngineSpec.SubmittedKeepsValid | examples/stub-engine/main.go:187-282 | whatever the limits do, the book stays sorted and uncrossed and no other id appears |
| EngineRuns.RequestsConserve | examples/stub-engine/main.go:187-320 | over every run of new orders and cancels, with the limits or without: book sorted and uncrossed, fills positive, and what was accepted under an id has traded, rests, was cancelled or was let go, residuals dropped at a full side included |
| EngineRuns.HandleKeeps | examples/stub-engine/main.go:250-279 | one request keeps that account, the two answers at a full side included |
| EngineRuns.RestingIsBounded | examples/stub-engine/main.go:250-279 | with the limits no side of a book ever holds more than the cap, over every run and for every request |
| EngineRuns.UnlimitedIsReference | examples/stub-engine/disruptor.go:290-330 | without the limits the account is that of the reference book |
| RustEngine.Engine.NewOrder | examples/rust-engine/src/main.rs:184-223 | the unsorted bag, sorted on demand, gives the answer and fills of the reference book for the same order with a limit, whatever its type, and keeps mirroring that book |
| RustEngine.MarketAgreesIff | examples/rust-engine/src/main.rs:184-223 | a market order fares as in the reference book if and only if it is malformed either way, or carries a positive price within which it trades in full |
| RustEngine.MarketWithoutPriceIsRefused | examples/rust-engine/src/main.rs:194-198 | a market order without a price is rejected where the reference book accepts it |
| RustEngine.Engine.MatchOrder | examples/rust-engine/src/main.rs:243-318 | sort, take the front, push the remainder back: the specified match |
| RustEngine.Engine.CancelOrder | examples/rust-engine/src/main.rs:225-241 | the order goes from every book that holds it, and the answer says whether any did |
| ConcurrentSafety.TradeKeepsValid | examples/stub-engine/main.go:405-467 | between any two fills of a match the book is sorted and uncrossed without the active order |
| ConcurrentSafety.CompleteStep | examples/stub-engine/main.go:405-467 | one fill leaves the completed book as it was and takes the first of the fills to come |
| ConcurrentSafety.StepKeeps | examples/stub-engine/main.go:187-320 | every harmless atomic step of any request keeps the simulation invariant for all symbols |
| ConcurrentSafety.ReachableInv | examples/stub-engine/main.go:187-320 | in every interleaving of harmless steps each symbol's book and fills are on the way to those of its requests replayed in number order; numbers, ids, index and pending cancels are consistent |
| CancelRace.MissAgreesIff | examples/stub-engine/main.go:284-297 | after a cancel that missed the index, replay and engine agree on a book if and only if the order neither rests there nor will once the lock holder is done |
| CancelRace.StepAgreesIff | examples/stub-engine/main.go:187-320 | after any step of any request of the locked engine, replay and engine agree on every book if and only if the step is harmless: no order turned away for its length, no residual for want of room, no miss of an order that rests or is about to |
| CancelRace.GoneStaysGone | examples/stub-engine/main.go:187-320 | an order whose request has returned and that rests nowhere never comes back, whatever happens next |
| CancelRace.WaitingClientsAreSafe | rust/bot-fleet/src/main.rs:606-640 | every run of clients that cancel only what was answered, or what no order is called, is harmless throughout as long as no limit is reached |
| CancelRace.EarlyCancelDiverges | examples/stub-engine/main.go:284-297 | a run from the start with one early cancel: the engine trades, the replay does not, and the validator refuses the run however it was written down |
| RingRace.PipelinedCancelIsRefused | examples/stub-engine/disruptor.go:190-209 | the same as a reachable run of the ring-fed engine over one connection |
| RingRace.WaitingClientsAreSafe | rust/bot-fleet/src/main.rs:606-640 | every run of the ring-fed engine whose clients wait for answers is a correct one in the sense of the theorem below |
| RingSafety.StepKeeps | examples/stub-engine/disruptor.go:86-107 | every atomic step of `publish` or `consume` keeps the ring's invariant, for any number of producers |
| RingSafety.ConsumedInClaimOrder | examples/stub-engine/disruptor.go:86-107 | what the matcher is handed is a prefix of what was claimed: nothing lost, repeated or reordered |
| RingSafety.SlotsAreExclusive | examples/stub-engine/disruptor.go:86-107 | no two actors ever hold one slot's data |
| RingSafety.NeverOverfull | examples/stub-engine/disruptor.go:86-107 | published and unconsumed items never exceed the ring's size |
| RingSafety.AlwaysProgress | examples/stub-engine/disruptor.go:86-107 | as long as a claim is outstanding some actor can step |
| RingSafety.OneSlotLosesItems | examples/stub-engine/disruptor.go:77-107 | with a single slot a reachable run overwrites an item |
| DisruptorSafety.MoveKeeps | examples/stub-engine/disruptor.go:183-394 | every move of a producer or a matcher keeps the invariant of all shards and symbols, mid-request included |
| DisruptorSafety.MatchersRunInClaimOrder | examples/stub-engine/disruptor.go:271-394 | in every interleaving a shard has answered a prefix of its claims, each answer is the one those requests alone would get, and the numbers a shard draws from the shared counter go up |
| DisruptorSafety.BooksRunInClaimOrder | examples/stub-engine/disruptor.go:293-394 | an idle book is what its answered requests alone would make of it; one being worked on becomes that with the request in hand |
| DisruptorSafety.CancelAnswerIff | examples/stub-engine/disruptor.go:335-348 | a cancel is confirmed exactly when its order rests, and takes that order and nothing else |
| Disruptor.HashOfA | examples/stub-engine/disruptor.go:183-187 | the hash that picks a shard has the published value for the letter a |
| DisruptorSafety.MatchersNeverWait | examples/stub-engine/disruptor.go:271-288 | a matcher with a request in hand can always move |
| DisruptorSafety.SameBooks | examples/stub-engine/main.go:187-320 | under limits nobody hits, the locked engine's books are the ring-fed engine's |
| DisruptorSafety.AnswersAgreeIff | examples/stub-engine/disruptor.go:290-348 | both engines give the same status, reason and fills, request by request, exactly as long as no field is too long and no residual meets a full side |
| DisruptorSafety.LongIdTellsApart | examples/stub-engine/main.go:208-217 | an id of 257 bytes: refused by one engine, taken by the other |
| DisruptorSafety.FullSideTellsApart | examples/stub-engine/main.go:250-279 | one bid more than a side holds: the answers differ |
| DisruptorEndToEnd.CorrectRunsFollow | examples/stub-engine/disruptor.go:183-394 | a run of the rings with unique ids and harmless misses is, step for step, a run of the locked engine without limits |
| DisruptorEndToEnd.EveryRingRunValidates | examples/stub-engine/disruptor.go:183-394 | so the validator accepts every such run that comes to rest, at any depth and field length, cancels numbered before their order included |
| Replay.BuildCancelOwner | rust/validator/src/replay.rs:130-142 | a cancel belongs to the symbol of the first placement of its id |
| Replay.FirstPlacementOwns | rust/validator/src/replay.rs:130-142 | the first placement of an id decides its owner, whatever follows |
| Replay.ReplaySequential | rust/validator/src/replay.rs:144-172 | one pass over all books yields the expected fills |
| Replay.ShardingIsInvisible | rust/validator/src/replay.rs:174-235 | for every event list with increasing line numbers, the shards' fills merged by line are the sequential ones as a list; duplicate ids and early cancels included |
| Replay.ReplaySharded | rust/validator/src/replay.rs:174-235 | bucketing, one replay per symbol and the stable merge return the sequential list |
| Replay.ReplayExpectedFills | rust/validator/src/replay.rs:239-249 | the number of shards does not matter |
| Replay.OrderByEngineSeq | rust/validator/src/replay.rs:265-313 | returns the events untouched when there are no arrival numbers or some order's or cancel's own id is empty or has none; otherwise the result is the one of the next row |
| Replay.EngineOrderIsSortedPermutation | rust/validator/src/replay.rs:276-313 | the reordered events are a permutation, sorted by the arrival number of each order's or cancel's own id with ties in line order, renumbered from 1 |
| Replay.CancelsAreReordered | rust/validator/src/replay.rs:259-313 | a concrete list with a cancel that does not stay in file order |
| Compare.Diff | rust/validator/src/compare.rs:57-113 | valid if and only if expected and actual are equal as multisets; otherwise the number is one past the longest covered prefix, or past the list for a pure surplus, with the fill that explains it |
| Compare.FirstBadSeqIsUnique | rust/validator/src/compare.rs:57-113 | the conditions on the reported number determine it |
| Compare.DifferenceMeans | rust/validator/src/compare.rs:71-113 | a missing fill has a price and quantity nobody reported; a priority violation names a report of the same price and quantity; a surplus is reported more often than expected |
| Compare.FillCounts | rust/validator/src/compare.rs:123-129 | the counts are the multiset of the selected fills |
| Compare.DecrementCount | rust/validator/src/compare.rs:131-140 | takes one copy if there is one, and says so |
| EdgeCases.Detect | rust/validator/src/edge_cases.rs:26-176 | each kind of violation is reported if and only if its condition fails |
| EdgeCases.FindInconsistent | rust/validator/src/edge_cases.rs:38-74 | flags exactly the reports that share a number and differ in the trade |
| EdgeCases.FindOverfill | rust/validator/src/edge_cases.rs:99-168 | flags exactly the orders below the largest 64-bit quantity that traded more than was placed |
| EdgeCases.OneMoreReport | rust/validator/src/edge_cases.rs:117-147 | one more report adds its quantity to what its buyer bought and to what its seller sold, unless it is not positive |
| EdgeCases.LastPlacementCounts | rust/validator/src/edge_cases.rs:32-37 | the last order placed under an id says how much was placed |
| EdgeCases.PlacedIsPlaced | rust/validator/src/edge_cases.rs:32-37 | and nothing is listed as placed that no order placed |
| EdgeCases.LargestOrderIsNeverFlagged | rust/validator/src/edge_cases.rs:117-137 | an order of the largest quantity trades one more than it was placed for and no check objects |
| EdgeCases.SaturationIsExact | rust/validator/src/edge_cases.rs:122-137 | saturating totals decide over-fills exactly for every order below the largest quantity |
| Validator.ReadActualFills | rust/validator/src/main.rs:99-157 | first report of each number, or of each content without one, sorted by number when all have one |
| Validator.ReportsAreFillLines | rust/validator/src/main.rs:99-157 | the reports are the fill lines, all of them and in order |
| Validator.KeptIff | rust/validator/src/main.rs:115-157 | a report is kept exactly when no earlier one has its number or, both without one, its content; numbers increase when all kept have one, and file order stands otherwise |
| Validator.ReadArrivalOrder | rust/validator/src/main.rs:161-192 | reads the map of the next row off the lines |
| Validator.FirstAckDecides | rust/validator/src/main.rs:161-192 | an id is mapped exactly when some line acknowledges it, and to the number of the first that does |
| Validator.Validate | rust/validator/src/main.rs:55-97 | passes if and only if there are orders, the multisets agree and no check objects |
| Verdict.VerdictIsInvariant | rust/validator/src/main.rs:99-192 | with every fill numbered and acks of one id in agreement, permuting or repeating output lines does not change the verdict |
| EndToEnd.OrderedAsAcknowledged | rust/validator/src/replay.rs:265-313 | however a run was logged, the validator puts its events into the order the engine numbered them |
| EndToEnd.ReplayYieldsTrades | rust/validator/src/replay.rs:144-172 | the replay of a finished run yields the engine's trades as a multiset |
| EndToEnd.DedupedAreTrades | rust/validator/src/main.rs:99-157 | the deduplicated reports of a finished run are its trades |
| EndToEnd.TradesAreClean | rust/validator/src/edge_cases.rs:26-176 | no check objects to the trades of a finished run |
| EndToEnd.EveryInterleavingValidates | examples/stub-engine/main.go:187-320 | for every interleaving of harmless steps of the per-symbol-locked engine that comes to rest, however its events and output were written down, the validator accepts; cancels numbered before their order included |
| RunStore.JsonStore.SaveRun | services/orchestrator/internal/store/json_store.go:84-115 | writes the entry of an existing run and no other, except that one ending never replaces another |
| RunStore.JsonStore.ClaimRun | services/orchestrator/internal/store/json_store.go:117-147 | only a queued run is claimed; endings are handed back, anything else is in progress |
| RunStore.JsonStore.ClaimNextQueuedRun | services/orchestrator/internal/store/json_store.go:149-175 | claims a queued run no other is older than, and reports none only when nothing is queued |
| RunStore.JsonStore.GetRun | services/orchestrator/internal/store/json_store.go:50-64 | returns the run of that id, or not found |
| RunSafety.ReachableInv | services/orchestrator/internal/orchestrator/manager.go:109-163 | claims, executions, endings, cancel functions and slots stay consistent in every interleaving |
| RunSafety.SlotsAreAccounted | services/orchestrator/internal/orchestrator/manager.go:109-163 | build slots in use per process are its pending claims plus live executions, and never exceed the cap |
| RunSafety.ExecutedAtMostOnce | services/orchestrator/internal/orchestrator/manager.go:360-507 | nobody else ever works on a run, at the same time or later |
| RunSafety.ReturnedIsFinal | services/orchestrator/internal/orchestrator/manager.go:360-507 | once an execution has returned, the stored status is an ending and never changes |
| RunSafety.EarlyCancelIsHeeded | services/orchestrator/internal/orchestrator/manager.go:203-225 | a registered cancel that fires before the last look at the context never ends in Finished |
| RunSafety.UnregisteredCancelIsOverwritten | services/orchestrator/internal/orchestrator/manager.go:203-225 | from the empty store: a cancel that finds no cancel function is written down and then overwritten by a stage |
| RunSafety.EndingChangesIff | services/orchestrator/internal/store/json_store.go:99-105 | a step changes a stored ending if and only if it is an execution past its context check saving a stage of that run |
| RunSafety.EndingLastsIff | services/orchestrator/internal/orchestrator/manager.go:546-556 | over any run an ending lasts exactly as long as no stage is saved over it |
| RunSafety.EndingIsFinalIff | services/orchestrator/internal/orchestrator/manager.go:546-556 | in any reachable state a stored ending is final over all continuations if and only if nobody is launching the run, saving a stage of it, or on the way to one with an open context |
| RunEndings.FailureSaysWhy | services/orchestrator/internal/orchestrator/manager.go:647-669 | over every run from the empty store, an execution that fails with nobody asking to cancel ends as timed out, cancelled or failed exactly as a timeout, a shutdown or neither was first to close its context before its last look |
| RunEndings.StagesInOrder | services/orchestrator/internal/orchestrator/manager.go:397-507 | without a cancel each step leaves a run's stored status or moves it to the next stage, or from a stage to an ending |
| DedupWindow.WindowedDedup.Insert | rust/telemetry-ingester/src/aggregator.rs:121-134 | new exactly when neither generation holds the identity; rotation at the cap |
| DedupWindow.WindowIsRecent | rust/telemetry-ingester/src/aggregator.rs:97-134 | after any stream the two sets are exactly the identities accepted since the horizon, the active ones last |
| DedupWindow.RetainedIsBounded | rust/telemetry-ingester/src/aggregator.rs:97-134 | at most twice the cap is ever retained |
| DedupWindow.RecognisedIff | rust/telemetry-ingester/src/aggregator.rs:97-134 | an identity is recognised if and only if some acceptance of it is followed by fewer than twice the cap less its slot |
| DedupWindow.RecognisedForOneGeneration | rust/telemetry-ingester/src/aggregator.rs:97-134 | a repeat after at most `cap` later acceptances is always recognised |
| DedupWindow.ForgottenAfterTwoGenerations | rust/telemetry-ingester/src/aggregator.rs:97-134 | after twice the cap it counts as new again |
| Aggregator.Aggregator.Record | rust/telemetry-ingester/src/aggregator.rs:257-357 | filter, run cap, duplicate check, bot cap, window, ticks and bot counters in that order, as the fates that the rows below account for |
| AggregatorSafety.EveryEventIsAccountedOnce | rust/telemetry-ingester/src/aggregator.rs:257-357 | every event of an admitted run is counted, a duplicate or refused, once; each counter of a bot is the number of its counted events of that one kind, latency samples are its acks with a latency; refused events are of bots without an entry in a full run; duplicates are the acks the window knows; span, ticks and window are those of the event lists |
| AggregatorSafety.NothingPassedIsLost | rust/telemetry-ingester/src/aggregator.rs:257-283 | events that pass the filter are exactly those counted, duplicate, or dropped for want of a run or bot entry |
| AggregatorSafety.Totals | rust/telemetry-ingester/src/aggregator.rs:380-391 | each total of a run is the number of counted events of its kind, and all of them together make up every event that reached a bot |
| AggregatorSafety.RedeliveriesOnlyCount | rust/telemetry-ingester/src/aggregator.rs:284-302 | re-deliveries inside the window, anywhere in any stream, change the duplicate counters by their number and nothing else |
| AggregatorSafety.RecentAckIsRedelivered | rust/telemetry-ingester/src/aggregator.rs:284-302 | an ack repeated after at most the window's number of new acks of its run is such a re-delivery |
| TpsCounter.TpsCounter.Record | rust/bench-core/src/metrics/tps.rs:76-96 | one more count in the stamp's second, a smallest bucket evicted when a new second meets a full map |
| TpsCounter.TpsCounter.PeakTps | rust/bench-core/src/metrics/tps.rs:102-104 | the greatest bucket, zero without any |
| TpsCounter.BucketsAreBounded | rust/bench-core/src/metrics/tps.rs:76-96 | the map never exceeds its cap |
| TpsCounter.PeakNeverDecreases | rust/bench-core/src/metrics/tps.rs:76-104 | evictions included, the reported peak never goes down |
| TpsCounter.PeakIsNeverTooHigh | rust/bench-core/src/metrics/tps.rs:76-104 | it never exceeds the true per-second maximum |
| TpsCounter.PeakIsExactIff | rust/bench-core/src/metrics/tps.rs:76-104 | it is the true maximum if and only if some busiest second was not evicted and recorded again |
| TpsCounter.PeakIsExact | rust/bench-core/src/metrics/tps.rs:76-104 | hence for at most cap distinct seconds in any order, and for stamps that never go back |
| TpsCounter.EvictionUnderstatesThePeak | rust/bench-core/src/metrics/tps.rs:83-94 | for every cap a stream, with every eviction forced, whose peak of four is reported as three |
| TpsCounter.SomeUnderstatedLife | rust/bench-core/src/metrics/tps.rs:83-94 | such streams exist for every cap of at least two |
| SlidingPeak.SlidingWindowPeak | rust/bot-fleet/src/main.rs:1331-1354 | the two-pointer scan over sorted stamps returns the maximum, over every start time, of stamps in a half-open window |
| SlidingPeak.PeakTps | rust/bot-fleet/src/main.rs:1321-1327 | the same for stamps in any order and windows of one second |
| SlidingPeak.AlignedPeakWithinTwice | rust/bot-fleet/src/main.rs:1308-1320 | the sliding peak lies between the aligned peak and twice that |
| SlidingPeak.TruePeakIsAligned | rust/bench-core/src/metrics/tps.rs:40-49 | the counter's true per-second maximum is the aligned peak of the same stamps |
| SlidingPeak.FleetAndIngesterAgree | rust/bench-core/src/metrics/tps.rs:76-104 | for the same acks the counter's figure never exceeds the fleet's, and is at least half of it when the counter is exact |
| RedisRollup.RunRollup.Observe | rust/telemetry-ingester/src/sink/redis.rs:149-181 | one more in its total, and the marks stay past values |
| RedisRollup.RunRollup.Flush | rust/telemetry-ingester/src/sink/redis.rs:245-294 | the shared counters move by the delta and the marks catch up if the push went through; otherwise neither moves |
| RedisRollup.RunRollup.IsFullyFlushed | rust/telemetry-ingester/src/sink/redis.rs:210-217 | true if and only if nothing is left to push, the latency sum included although it is not compared |
| RedisRollup.SharedCountersBalance | rust/telemetry-ingester/src/sink/redis.rs:220-335 | in every interleaving of pods the shared counters are the sum of all marks plus what was evicted, and the events seen of a run, counted by kind with their latencies, are the sum of all totals plus the same |
| RedisRollup.FlushedRunIsExact | rust/telemetry-ingester/src/sink/redis.rs:231-294 | once every pod's rollup of a run passes the count check, the shared counters are exactly what all pods saw |
| RedisRollup.SharedNeverAhead | rust/telemetry-ingester/src/sink/redis.rs:238-294 | at any moment they are behind by the unpushed deltas and never ahead |
| RedisRollup.EnabledStepsHappen | rust/telemetry-ingester/src/sink/redis.rs:238-251 | no delta is ever negative, so every enabled step can be taken |
| Calendar.CivilIsThatDay | rust/telemetry-ingester/src/sink/timescale.rs:224-235 | for every day number the date is valid and has that day number, counted by year and month lengths |
| Calendar.OneDateADay | rust/telemetry-ingester/src/sink/timescale.rs:221-235 | no two valid dates share a day number |
| Calendar.DayNumberInverts | rust/telemetry-ingester/src/sink/timescale.rs:221-235 | every valid date is the one its day number converts to |
| CopyRows.PushEscaped | rust/telemetry-ingester/src/sink/timescale.rs:186-196 | appends the value with backslash, tab, newline and return escaped |
| CopyRows.TimeReadsBack | rust/telemetry-ingester/src/sink/timescale.rs:201-219 | for every 64-bit stamp the literal reads back as the stamp truncated to microseconds |
| CopyRows.StampInJanuary | rust/telemetry-ingester/src/sink/timescale.rs:198-219 | the literal of the comment's example, character by character |
| CopyRows.BatchReadsBack | rust/telemetry-ingester/src/sink/timescale.rs:126-182 | a streamed batch reads back, under the escape rules of the text format of COPY, as one row of nine columns for each event, whatever the ids contain |
| CopyRows.EventReadsBack | rust/telemetry-ingester/src/sink/timescale.rs:145-177 | every column is recovered: the receive stamp, or the send stamp when there is none, to the microsecond, texts and the literal kind exactly, numbers bit for bit |
| CopyRows.EventBuffer.PushWithCap | rust/telemetry-ingester/src/sink/timescale.rs:251-262 | appends, dropping the oldest exactly when the buffer is full |
| CopyRows.EventBuffer.Flush | rust/telemetry-ingester/src/sink/timescale.rs:126-182 | the stream reads back as one row for each buffered event, in order, that recovers all its columns in the sense of the row above; the buffer is cleared only once committed |
| CopyRows.NewestAreKept | rust/telemetry-ingester/src/sink/timescale.rs:246-262 | while the database is down the newest events stay, in order |
| BotIds.BotIsRecovered | rust/bot-fleet/src/pool.rs:447-457 | the global bot index is recovered from every id a bot generates |
| BotIds.ParsedIff | rust/bot-fleet/src/pool.rs:447-457 | a bot is read from an id exactly when the id is the prefix, a numeral from one to the largest machine word with or without a plus sign, an underscore, and anything |
| BotIds.FirstIds | rust/bot-fleet/src/main.rs:1189-1217 | two ids, character by character |
| BotIds.IdsAreUnique | rust/bot-fleet/src/main.rs:1189-1217 | bot, number and kind can be told from the id, so no two ids of a fleet are equal |
| BotIds.DeliveredIffNamed | rust/bot-fleet/src/pool.rs:411-445 | a pod delivers to exactly those of its bots that the message names |
| BotIds.NoRecipientTwice | rust/bot-fleet/src/pool.rs:425-441 | no inbox gets a message twice |
| BotIds.FillFindsBothBots | rust/bot-fleet/src/pool.rs:334-337 | with equal windows a fill reaches its buyer and its seller, each in the one inbox of the one pod that runs it, and nobody else |
| BotIds.AckFindsItsBot | rust/bot-fleet/src/main.rs:266 | an answer reaches the bot that asked and no other |

## Left out

- JSON, HTTP, WebSockets, files, locks and the database, Redis and Kafka clients: the model starts from parsed events; a locked read-modify-write, a push or a copy is one step that happens or does not.
- Time: clocks, back-off, tickers and deadlines are nondeterministic steps or parameters.
- Hashes used as identities (event identity, fill key): taken to be injective; the model keeps the whole event or fill.
- Machine integers in counters: sequence numbers, counters, quantities and ring cursors do not wrap here; wrap-around is modelled where the code meets it (saturating totals, columns cast to signed, the symbol hash). The casts of flush deltas to signed 64-bit numbers are taken to be exact.
- Live ids placed twice: required distinct for the price-level book and the engines, as their callers are; the naive book and the replay theorems do allow them.
- Order types other than limit and market, and letter case of sides and types, in the Go engine: the request arrives with its type read.
- `matchBuy` and `matchSell` of the Go engine are one method with the side as a parameter, as they mirror each other; the reference books keep both.
- Clients of a fill (`uniqueClients`) and the engine's output queues, which drop for slow clients: what the validator reads is the bots' own log.
- EndToEnd.EveryInterleavingValidates: for runs whose steps are harmless in the exact sense of `CancelRace.StepAgreesIff`, which neither the limits nor the open-loop bots ensure; requests have unique ids, non-empty symbols and a limit or market type, and every ack and fill is logged.
- DisruptorEndToEnd.EveryRingRunValidates: the same without the limits, which that engine does not have.
- DisruptorSafety.MatchersRunInClaimOrder: atomic operations are sequentially consistent steps; a matcher's work on its own book is part of the step before it, and a cancel's number, its second index lookup and the removal are one step, since only the matcher of an order's symbol touches its index entry.
- The ring's power-of-two mask is the remainder by its size.
- RunSafety.ReturnedIsFinal: store operations succeed; when a final save fails the run keeps its last stored status. Direct endpoint benchmarks, artifact files and publishing are not modelled.
- Per-second points, percentiles, histograms, average rates and scores: floating point with few exact claims; the aggregator counts latency samples only.
- Aggregator.Aggregator.Record: holds window and ticks as values of the types of `DedupWindow` and the list handed to `TpsCounter`, whose classes are proved separately.
- RedisRollup.SharedCountersBalance: a failed push applies nothing, a pod does not crash, and the sink's own cap on runs only refuses new ones.
- Numeric escapes of the COPY text format, which the rows never contain, are read as malformed.
- services/control-panel, a smaller twin of the orchestrator, and leaderboards, console, authentication and archive handling: plumbing or single-branch facts.
