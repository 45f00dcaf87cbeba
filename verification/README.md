# Stock ledger, document protocols and small codecs: a Dafny model

A model of the parts of a restaurant chain's ERP that decide what is in stock, with proofs of what they promise.

* **The ledger** (`PostingRules`, `Ledger`, `LedgerInvariant`, `LedgerSums`, `LedgerLaws`, `LedgerReadings`, `LedgerEffects`). An append-only list of entries and a balance snapshot kept by upserts, as a state machine whose steps are the ledger's transactions: drafting, editing, moving on, posting a plan, reversing, rebuilding, a new day. The laws hold in every state a run can reach. `LedgerService` is the service as a class over those tables, each method proved to be the step of the same name, and `LedgerEffects` says in plain fields what each step writes and when it is refused. `OpeningBalances` holds the rules of the one document type that `DemoStock`, the browser demo's ledger, writes; the demo has no snapshot and recomputes balances from the entries, and the two are proved to agree.
* **Postings at the same time** (`ConcurrentPosting`). Each transaction locks and reads the rows that exist, checks, and later upserts and commits; others may do anything in between, including inserting a row that did not exist when it looked, or one that came too late for it to see.
* **What a sale takes** (`BranchAllocation`, `ConsumptionPlan`, `ConsumptionLaws`, `ConsumptionChoice`). First expired first out, the shortfall on the lot received last or on a placeholder; the plan for a whole document and its posting as one step. `NegativeEpisodes` counts how often an item went below zero.
* **Branch consumption** (`SalesEvents`, `SalesEventService`, `SalesClaims`). Claim, draft, post, crash and re-process, by any number of processors; and the service's own loops.
* **Goods receipts** (`GoodsReceiptRules`, `GoodsReceipts`, `GoodsReceiptLaws`, `GoodsReceiptEffects`, `GoodsReceiptService`). Drafts, inspection, findings fixed at submission, approval by someone else, and postings that lock receipt and order, judge, and commit later.
* **Codecs and a log** (`Texts`, `Base32`, `DecimalText`, `BusinessDates`, `TypedDates`, `ChangeLog`, `ItemsService`, `ItemEffects`). Base32 over a 32-bit value that overflows, exact decimals as text, day-first dates in two calendars, and the change log a POS replays.

Quantities and costs are integers at a common scale except in the codecs; a variance limit is in hundredths of a percent and compared by cross-multiplying. Dates are integers, a business time is a date and an offset in the day. Lots, documents, events, receipts and items are known by the order they were created in.

The laws are stated through the rules they are about where they span many steps; what each rule itself means is stated apart, in primitive fields and numbers, in `LedgerEffects`, `ConsumptionChoice`, `SalesClaims`, `GoodsReceiptEffects`, `OpeningBalances`, `ItemEffects` and `TypedDates`. Every lemma carries `{:induction false}`: whatever is proved by induction says so in its body.

Where code and documentation disagree the model follows the code:

* `backend/src/modules/branch-consumption/domain/consumption-rules.ts:34` says a shortfall pick takes its lot below zero, which an expired lot with enough left does not (`BranchAllocation.ShortfallBelowZero`, `FlaggedAboveZero`).
* `backend/src/modules/goods-receipts/domain/goods-receipt-rules.ts:243-247` says a delivery turned away whole does not start receiving its order, which can still be cancelled. The code does not keep its word for an order whose every line has a variance limit reaching down to nothing, which `backend/src/core/receiving/domain/inspection.ts:71` allows with 100 %: every line counts as complete before anything is asked about what was received, and the order ends as received (`GoodsReceiptLaws.TurnedAwayLeavesTheOrder`, `RefusedWholeIsReceived`).
* `web/src/demo/stock.ts:548-563` looks at a document's status before its revision, where `backend/src/modules/ledger/ledger.service.ts:377-413` does the opposite when a draft is edited; so an edit of a posted balance at an old revision is refused by both, with different words (`DemoStock.UpdatesAgree`).

## Model

| member | source | states |
|---|---|---|
| `PostingRules.NetChanges` | backend/src/modules/ledger/domain/posting-rules.ts:128-142 | one row per touched lot and location, its null-skipping sum, the rows in lock order |
| `PostingRules.ApplyMovements` | backend/src/modules/ledger/domain/posting-rules.ts:155-191 | all or nothing: the rows after the document, or the least row (by lot, then location) that would go below zero where no branch is |
| `PostingRules.LockOrder` | backend/src/modules/ledger/domain/posting-rules.ts:113-125 | the same keys, each once, in lock order |
| `PostingRules.OrderedMeans` | backend/src/modules/ledger/domain/posting-rules.ts:113-125 | that order is by lot and then by location, and strict |
| `PostingRules.UpsertIsNet` | backend/src/modules/ledger/ledger.service.ts:1425-1443 | the upsert with its CASE over null piece counts keeps the snapshot equal to summing all entries |
| `PostingRules.JudgedOnce` | backend/src/modules/ledger/ledger.service.ts:1376-1408 | the answer is unique and depends on the stored rows only through what the touched keys read |
| `LedgerInvariant.Reachable` | backend/src/modules/ledger/ledger.service.ts:716-880 | every run of drafting, editing, moving on, posting, reversing and rebuilding keeps: snapshot = sum of entries, nothing below zero off a branch, exact reversals, one placeholder per branch and item, links to older lots, every entry at its lot's own item and cost |
| `LedgerInvariant.PostKeeps` | backend/src/modules/ledger/ledger.service.ts:716-804 | one posting keeps all of that |
| `LedgerInvariant.ReverseKeeps` | backend/src/modules/ledger/ledger.service.ts:823-880 | one reversal keeps all of that |
| `LedgerLaws.SnapshotNeverDrifts` | backend/src/modules/ledger/ledger.service.ts:1146-1203 | in every reachable state the snapshot is the sum of the entries, row for row, so comparing them finds nothing |
| `LedgerLaws.CompareBalancesDecides` | backend/src/modules/ledger/ledger.service.ts:1146-1178 | the comparison is empty exactly when every row of snapshot and entries reads the same |
| `LedgerLaws.RebuildMends` | backend/src/modules/ledger/ledger.service.ts:1184-1203 | whatever stands in the snapshot, rebuilding restores the reachable state, and it changes nothing exactly when the comparison finds nothing |
| `LedgerLaws.SnapshotJudgesLikeTheLedger` | backend/src/modules/ledger/ledger.service.ts:1376-1408 | judging a posting on the snapshot gives the answer that judging it on recomputed balances gives |
| `LedgerLaws.ReversedOnce` | backend/src/modules/ledger/domain/posting-rules.ts:250-261 | in every reachable state a reversed document, and a reversal, is refused reversal, and no two documents reverse the same one |
| `LedgerLaws.ReversedForGood` | backend/src/modules/ledger/domain/posting-rules.ts:250-261 | that stays so in every later state |
| `LedgerLaws.ReversedAsOf` | backend/src/modules/ledger/ledger.service.ts:965-973 | as of a day a reversed document contributes nothing before its date, its entries until the reversal's date, and exactly zero from then on, for every weight a reversal turns around |
| `LedgerLaws.OnlyLiveDocumentsCount` | backend/src/modules/ledger/ledger.service.ts:823-880 | conservation: all entries together sum to those of the documents that are neither reversals nor reversed |
| `LedgerReadings.StockOnHandIsTheLedger` | backend/src/modules/ledger/ledger.service.ts:942-973 | today's stock read from the snapshot, and any earlier day's, is the sum of the entries up to the end of that day; a later day is refused |
| `LedgerReadings.StockOnHandShows` | backend/src/modules/ledger/ledger.service.ts:942-973 | a row is listed exactly when the entries dated so far come to something in quantity or pieces, below zero included, and with what they come to |
| `LedgerReadings.SnapshotShows` | backend/src/modules/ledger/ledger.service.ts:1425-1443 | in every reachable state the snapshot has a row for every lot and location with an entry and no other, with the sums of their quantities and of the pieces counted |
| `LedgerReadings.StockMovesOn` | backend/src/modules/ledger/ledger.service.ts:942-973 | stock as of a later day is stock as of an earlier one plus the entries dated in between |
| `LedgerReadings.StockValueIsTheLedger` | backend/src/modules/ledger/ledger.service.ts:942-1037 | stock value as balances times lot cost is the sum over entries of quantity times entry cost, in every reachable state |
| `LedgerReadings.ReversalRestoresValue` | backend/src/modules/ledger/ledger.service.ts:823-880 | reversing a document takes exactly its value out again |
| `LedgerReadings.PlaceholderCannotBeNamed` | backend/src/modules/ledger/ledger.service.ts:485-505 | a plan naming a placeholder lot is refused as naming an unknown lot |
| `LedgerReadings.PlaceholdersOnlyOwe` | backend/src/modules/ledger/ledger.service.ts:1298-1357 | one placeholder per branch and item; never above zero in any run, reversals included, and no row anywhere else |
| `LedgerReadings.GenealogyIsAcyclic` | backend/src/modules/ledger/ledger.service.ts:1252-1274 | any way back through inputs meets older lots only, so it has no cycle and ends |
| `LedgerService.StockLedger.CreateLots` | backend/src/modules/ledger/ledger.service.ts:1220-1249 | one lot and one movement per line, at the line's cost |
| `LedgerService.StockLedger.ChangesOf` | backend/src/modules/ledger/ledger.service.ts:1277-1289 | each change at its lot's own cost, or refused when one names no ordinary lot of its item |
| `LedgerService.StockLedger.PlaceholderMovements` | backend/src/modules/ledger/ledger.service.ts:1298-1357 | each use taken from its placeholder, created the first time at the latest cost or none |
| `LedgerService.StockLedger.WriteGenealogy` | backend/src/modules/ledger/ledger.service.ts:1252-1274 | one link from each output line's lot to each input, or refused and nothing written |
| `LedgerService.StockLedger.Write` | backend/src/modules/ledger/ledger.service.ts:1364-1452 | entries and snapshot after a document, or the rule that refuses it with nothing written |
| `LedgerService.StockLedger.UpsertBalances` | backend/src/modules/ledger/ledger.service.ts:1425-1443 | row by row in lock order comes to the whole upsert |
| `LedgerService.StockLedger.Post` | backend/src/modules/ledger/ledger.service.ts:716-804 | exactly the posting step the runs are made of, or a refusal that changes nothing |
| `LedgerService.StockLedger.WritePlan` | backend/src/modules/ledger/ledger.service.ts:762-790 | everything of a plan or nothing, lots rolled back too |
| `LedgerService.StockLedger.Reverse` | backend/src/modules/ledger/ledger.service.ts:823-880 | exactly the reversal step, or a refusal that changes nothing |
| `LedgerService.StockLedger.CreateDraft` | backend/src/modules/ledger/ledger.service.ts:352-371 | a draft at revision 1, or a future date refused |
| `LedgerService.StockLedger.MoveTo` | backend/src/modules/ledger/ledger.service.ts:418-429 | a document moved on takes the next revision; a posted one never moves and none is moved to posted |
| `LedgerService.StockLedger.RebuildBalances` | backend/src/modules/ledger/ledger.service.ts:1184-1203 | the snapshot summed again, with how many rows there are and how many differed |
| `LedgerEffects.NewLotsComeIn` | backend/src/modules/ledger/ledger.service.ts:1220-1249 | a posting of new lots adds one lot and one entry per line, with the line's own item, quantity, pieces, cost, expiry, location and number, and touches nothing else |
| `LedgerEffects.ChangesGoThrough` | backend/src/modules/ledger/ledger.service.ts:1277-1289 | a posting of lot changes adds one entry per change, at the lot's cost, and no lot |
| `LedgerEffects.ProductionIsWritten` | backend/src/modules/ledger/ledger.service.ts:762-804 | what was consumed goes out first, outputs come in line by line, and each link runs from the lot its output line made |
| `LedgerEffects.ConsumptionIsWritten` | backend/src/modules/ledger/ledger.service.ts:762-804 | one entry per lot change and one per use of a placeholder, in line order; lots are added only for a branch and item that had no placeholder |
| `LedgerEffects.LatestCostIsTheLatestLots` | backend/src/modules/ledger/ledger.service.ts:1298-1357 | a placeholder costs what the item's latest ordinary lot costs |
| `LedgerEffects.PreparedWhen` | backend/src/modules/ledger/ledger.service.ts:485-505 | a plan is prepared exactly when it names ordinary lots of its items and brings in lots the table stores |
| `LedgerEffects.PostedWhen` | backend/src/modules/ledger/ledger.service.ts:716-804 | a document is posted exactly when its state and dates allow it, its plan can be prepared, no row off a branch goes below zero, its entries can be stored and its links name its output lines |
| `LedgerEffects.RefusedFor` | backend/src/modules/ledger/ledger.service.ts:716-760 | the first of the guards that applies is the refusal |
| `LedgerEffects.DraftDecides` | backend/src/modules/ledger/ledger.service.ts:352-371 | a draft of any type but a reversal, dated no later than today |
| `LedgerEffects.EditDecides` | backend/src/modules/ledger/ledger.service.ts:377-413 | redated exactly as a draft at the revision its editor saw, no later than today |
| `LedgerEffects.MoveDecides` | backend/src/modules/ledger/ledger.service.ts:418-429 | moves on exactly when not posted, and never to posted |
| `LedgerEffects.ReversalIsWritten` | backend/src/modules/ledger/ledger.service.ts:823-880 | a posted document of its own with one entry for each of the original's, everything the same but for the signs |
| `DemoStock.DemoAgreesWithBackend` | web/src/demo/stock.ts:157-169 | refinement: asked the same, in any order, the recomputing ledger and the one with a snapshot end with the same documents, lots, entries and records |
| `DemoStock.DemoAnswersLikeBackend` | web/src/demo/stock.ts:515-709 | after any requests both accept or both refuse the next one and come to the same state; they give the same answer unless it edits a posted balance at an old revision |
| `DemoStock.UpdatesAgree` | web/src/demo/stock.ts:566-589 | the answers to an edit differ exactly for a known posted balance at an old revision, its location and lines being right |
| `DemoStock.DemoShowsTheSameStock` | web/src/demo/stock.ts:300-354 | both show the same stock on every day |
| `DemoStock.DemoLedger.Write` | web/src/demo/stock.ts:157-169 | appends the entries, or refuses on balances recomputed from all entries |
| `DemoStock.DemoLedger.CheckedLines` | web/src/demo/stock.ts:461-495 | the lines let through, or the first one that is not and why |
| `DemoStock.DemoLedger.CreateOpeningBalance` | web/src/demo/stock.ts:515-545 | a draft and its record, or the location, line or date that is refused |
| `DemoStock.DemoLedger.UpdateOpeningBalance` | web/src/demo/stock.ts:566-589 | a draft changed at the revision its editor saw, or what refuses it |
| `DemoStock.DemoLedger.PostOpeningBalance` | web/src/demo/stock.ts:591-655 | lots, entries and status of a posted opening balance, or the rule, its own or the ledger's, that refuses it |
| `DemoStock.DemoLedger.ReverseOpeningBalance` | web/src/demo/stock.ts:665-709 | the exact reversal, or the rule that refuses it |
| `OpeningBalances.ValidLinesStore` | backend/src/modules/opening-balances/domain/opening-balance-rules.ts:59-87 | lines let through are numbered from 1 and are ones the lots table stores |
| `OpeningBalances.PostingProblemIsFirst` | backend/src/modules/opening-balances/domain/opening-balance-rules.ts:139-153 | no line is refused exactly when none has a problem; otherwise the refusal is the first such line's |
| `OpeningBalances.LinesEnteredWhen` | backend/src/modules/opening-balances/domain/opening-balance-rules.ts:59-87 | lines are let through exactly when each can be entered, and stored as they were; else the first that cannot is named |
| `OpeningBalances.PostableWhen` | backend/src/modules/opening-balances/domain/opening-balance-rules.ts:139-153 | can be posted exactly when it has lines, its day has come, and place, items and expiries allow it |
| `OpeningBalances.RefusedLineIsNamed` | backend/src/modules/opening-balances/domain/opening-balance-rules.ts:139-153 | the line that is refused is named, with the rule it breaks |
| `OpeningBalances.LocationAllowedWhen` | backend/src/modules/opening-balances/domain/opening-balance-rules.ts:95-104 | exactly a plant, warehouse or branch in use |
| `DemoStock.EnteredIsKept` | web/src/demo/stock.ts:515-545 | a new draft keeps the lines as entered, at its location |
| `DemoStock.ChangedIsKept` | web/src/demo/stock.ts:566-589 | a changed draft has what was sent and keeps the rest |
| `DemoStock.RecordedIsPosted` | web/src/demo/stock.ts:591-655 | its lines become one lot and one entry each |
| `ConcurrentPosting.CheckStillHolds` | backend/src/modules/ledger/ledger.service.ts:1376-1443 | a check made on the rows that existed at lock time still holds at commit, rows inserted since by others included |
| `ConcurrentPosting.NeverOversold` | backend/src/modules/ledger/ledger.service.ts:1376-1443 | in any interleaving of lock, check and upsert steps, each transaction locking and reading whichever of its existing rows it sees, no lot off a branch is committed below zero, and the snapshot stays the sum of the entries |
| `ConcurrentPosting.Serialisable` | backend/src/modules/ledger/ledger.service.ts:1364-1452 | every interleaving ends as posting its commits one after the other, each of them accepted |
| `ConcurrentPosting.AloneItIsPosted` | backend/src/modules/ledger/ledger.service.ts:1364-1452 | with nothing in between, a posting commits exactly when it keeps every row off a branch at zero or more |
| `NegativeEpisodes.EpisodesAddUp` | backend/src/modules/ledger/ledger.service.ts:1069-1107 | times below zero in a period are those of its first part and those of the rest |
| `NegativeEpisodes.EpisodesEnd` | backend/src/modules/ledger/ledger.service.ts:1069-1107 | over the whole history falls less rises is one when the item ends below zero at the branch and none otherwise |
| `NegativeEpisodes.EpisodesAre` | backend/src/modules/ledger/ledger.service.ts:1069-1107 | the moves counted are the item's entries gathered by document and time, in order of business time and then of posting, and each episode is one that takes the running balance below zero |
| `BranchAllocation.FefoPick` | backend/src/core/stock/domain/fefo.ts:65-88 | takes lot by lot in FEFO order what a recursive definition of it says |
| `BranchAllocation.TakeInOrderAt` | backend/src/core/stock/domain/fefo.ts:65-88 | what each lot gives, by its place: all it has before a later one gives anything, nothing if expired |
| `BranchAllocation.AllocationExact` | backend/src/modules/branch-consumption/domain/consumption-rules.ts:53-86 | picks and placeholder together are the quantity; the placeholder takes exactly what usable stock cannot when nothing was ever received |
| `BranchAllocation.OthersKeepTheirStock` | backend/src/modules/branch-consumption/domain/consumption-rules.ts:53-86 | no lot but the one received last gives more than it has, and none that is expired |
| `BranchAllocation.FirstExpiredFirstOut` | backend/src/core/stock/domain/fefo.ts:51-88 | whichever lot came in last: one that expires later, or the same day with a higher number, gives nothing while a lot good on the day has anything left |
| `BranchAllocation.ShortfallBelowZero` | backend/src/modules/branch-consumption/domain/consumption-rules.ts:30-36 | a shortfall pick takes its lot below zero if and only if the lot was unexpired or the shortfall is more than it holds |
| `BranchAllocation.FlaggedAboveZero` | backend/src/modules/branch-consumption/domain/consumption-rules.ts:34-36 | an expired lot of 10 flagged as short for 3: the flag does not mean below zero |
| `ConsumptionPlan.LatestEntry` | backend/src/modules/ledger/ledger.service.ts:574-599 | the entry that brought an item in last: none later in business time, or none at all |
| `ConsumptionPlan.Plan` | backend/src/modules/branch-consumption/branch-consumption.service.ts:389-422 | lot changes, placeholder uses and flags for all lines |
| `ConsumptionPlan.AddPicks` | backend/src/modules/branch-consumption/branch-consumption.service.ts:400-411 | one change per pick, flags gathered |
| `ConsumptionLaws.ConsumptionPosts` | backend/src/modules/branch-consumption/branch-consumption.service.ts:371-428 | a planned consumption is never refused for want of stock: in every reachable state it posts |
| `ConsumptionLaws.ConsumptionIsExact` | backend/src/modules/branch-consumption/branch-consumption.service.ts:389-422 | the movements of each line take exactly its quantity |
| `ConsumptionLaws.OnlyLastReceivedGoesBelowZero` | backend/src/modules/branch-consumption/branch-consumption.service.ts:371-428 | a lot that is not the item's last received gives up no more than it has |
| `ConsumptionLaws.BalancesReadOnce` | backend/src/modules/branch-consumption/branch-consumption.service.ts:384-422 | planning from balances read once equals reading them again after each line, lines having distinct items |
| `ConsumptionLaws.FlagsMean` | backend/src/modules/branch-consumption/branch-consumption.service.ts:389-428 | flagged short if and only if usable stock cannot cover some line, expired if and only if such a line fell on an expired last received lot, placeholder if and only if on an item never received |
| `ConsumptionChoice.SalesTakeFirstExpired` | backend/src/modules/branch-consumption/branch-consumption.service.ts:371-428 | in the ledger: no entry of a posted consumption takes from a lot while another of the item that expires earlier, and is good on the day, has anything left on its row |
| `ConsumptionChoice.ReadOnce` | backend/src/modules/ledger/ledger.service.ts:512-552 | each ordinary lot with stock at the location is read once, with its own number, expiry and quantity |
| `ConsumptionChoice.LastReceivedIs` | backend/src/modules/ledger/ledger.service.ts:574-599 | the lot of an entry that brought the item in and that no other such entry is later than |
| `ConsumptionChoice.FlagsSayWhatHappened` | backend/src/modules/branch-consumption/branch-consumption.service.ts:389-428 | in the ledger: short exactly when good stock was not enough for some line, expired exactly when such a line's item came in last in an expired lot, placeholder exactly when it never came in |
| `SalesEvents.ReviewedHoldGoesAhead` | backend/src/modules/branch-consumption/domain/consumption-rules.ts:115-160 | a held sale is re-processed if and only if its day has come, and is then tried, neither held nor waiting |
| `SalesEvents.EveryHistory` | backend/src/modules/branch-consumption/branch-consumption.service.ts:144-365 | in any interleaving, crashes included, a record is ((held or failed) reprocessed)* and at most one of held, failed, processed; the status is what the last row says; only the first row can be a hold |
| `SalesEvents.ExactlyOnce` | backend/src/modules/branch-consumption/branch-consumption.service.ts:56-66 | at most one document per event; posted exactly when the event is processed, and the one its last row names |
| `SalesEvents.ProcessedIsFinal` | backend/src/modules/branch-consumption/branch-consumption.service.ts:146-178 | nothing changes a processed event again |
| `SalesEvents.LeftoverIsPosted` | backend/src/modules/branch-consumption/branch-consumption.service.ts:247-255 | a draft left by a run that stopped is posted by the next free processor, whatever its usage or times say by then |
| `SalesEvents.Reachable` | backend/src/modules/branch-consumption/branch-consumption.service.ts:144-365 | what every step of claiming, posting, reviewing and crashing keeps |
| `SalesEventService.ProcessIsSteps` | backend/src/modules/branch-consumption/branch-consumption.service.ts:184-229 | the service working alone takes four steps of the many-processor machine |
| `SalesEventService.WaitingFrom` | backend/src/modules/pos-integration/sales-events.service.ts:165-173 | received events in order, none excluded: all of them, or when the limit cuts the list the oldest |
| `SalesEventService.BranchConsumption.ClaimEvent` | backend/src/modules/branch-consumption/branch-consumption.service.ts:232-365 | the outcome of a claim and everything it records |
| `SalesEventService.BranchConsumption.ProcessOne` | backend/src/modules/branch-consumption/branch-consumption.service.ts:184-229 | claim and posting of one event, or nothing posted when the posting breaks off |
| `SalesEventService.BranchConsumption.Reprocess` | backend/src/modules/branch-consumption/branch-consumption.service.ts:144-178 | refused as processed or not reprocessable, or recorded and tried at once |
| `SalesEventService.BranchConsumption.ProcessWaiting` | backend/src/modules/branch-consumption/branch-consumption.service.ts:184-229 | a waiting event is settled and no other event touched |
| `SalesEventService.BranchConsumption.RunBatch` | backend/src/modules/branch-consumption/branch-consumption.service.ts:131-134 | each id of a batch is settled and counted once |
| `SalesEventService.BranchConsumption.RunBatches` | backend/src/modules/branch-consumption/branch-consumption.service.ts:121-138 | a finished run leaves no received event that is neither held nor dated ahead; the totals are the changes in processed, failed and held events; it terminates |
| `SalesClaims.ClaimDecides` | backend/src/modules/branch-consumption/domain/consumption-rules.ts:115-126 | a sale without document or hold is held exactly when it is ahead by more than tolerated and was not reviewed, else waits exactly until its day, else fails exactly without a usage, else is drafted; with the row each of these adds |
| `SalesClaims.ClaimOfTheRest` | backend/src/modules/branch-consumption/branch-consumption.service.ts:232-300 | an unposted document is taken up again, a posted one and a hold are passed over, and nothing is written |
| `SalesClaims.OrdinarySalesGoAhead` | backend/src/modules/branch-consumption/domain/consumption-rules.ts:115-126 | a sale received seconds after it was made, and one just within tolerance, are drafted |
| `SalesClaims.ReviewDecides` | backend/src/modules/branch-consumption/domain/consumption-rules.ts:143-160 | reviewed exactly when unprocessed and its last row is a hold whose day has come or a failure that can be fixed |
| `SalesClaims.ReviewIsSteps` | backend/src/modules/branch-consumption/branch-consumption.service.ts:144-178 | under the event's lock a review takes effect exactly when it may |
| `SalesClaims.ProcessedWhen` | backend/src/modules/branch-consumption/branch-consumption.service.ts:184-229 | a sale is posted exactly when nothing stands against it, with the row and the document that leaves |
| `SalesClaims.LeftoverDraftIsPosted` | backend/src/modules/branch-consumption/branch-consumption.service.ts:247-255 | the only draft of an event is posted at its own revision, whatever else is true of the sale |
| `GoodsReceiptRules.ValidLinesOk` | backend/src/modules/goods-receipts/goods-receipts.service.ts:883-977 | accepted lines are for distinct lines of the order, split exactly into accepted and rejected, pieces agreeing |
| `GoodsReceiptRules.AddedKeepsAll` | backend/src/modules/goods-receipts/goods-receipts.service.ts:637-644 | the map by order line holds all that was accepted and rejected, given one line per order line |
| `GoodsReceiptRules.AddedLosesDuplicates` | backend/src/modules/goods-receipts/goods-receipts.service.ts:637-644 | without that rule it would lose quantities |
| `GoodsReceiptRules.LotsAreStorable` | backend/src/modules/goods-receipts/goods-receipts.service.ts:713-727 | the lots of a receipt are always ones the ledger stores |
| `GoodsReceiptRules.FindingsMean` | backend/src/core/receiving/domain/inspection.ts:174-226 | each finding is there exactly for its own reason |
| `GoodsReceiptRules.VarianceIsExact` | backend/src/core/receiving/domain/inspection.ts:163-186 | the comparison is exact at the limit, and anything is over when nothing was expected |
| `GoodsReceiptLaws.AcceptingStartsTheOrder` | backend/src/modules/goods-receipts/domain/goods-receipt-rules.ts:243-254 | a posting that accepts anything starts or finishes its order |
| `GoodsReceiptLaws.TurnedAwayLeavesTheOrder` | backend/src/modules/goods-receipts/domain/goods-receipt-rules.ts:243-254 | a delivery turned away whole leaves its order's status alone if and only if some line would not be complete with nothing received; otherwise the order becomes received |
| `GoodsReceiptLaws.RefusedWholeIsReceived` | backend/src/modules/goods-receipts/domain/goods-receipt-rules.ts:243-254 | all ten of ten rejected, under a limit of 100%: the posting goes through and the order is received |
| `GoodsReceiptRules.RefusalIsFirst` | backend/src/modules/goods-receipts/domain/goods-receipt-rules.ts:303-334 | no refusal exactly when no line has one; otherwise it is the first such line's |
| `GoodsReceiptEffects.LotsComeIn` | backend/src/modules/goods-receipts/goods-receipts.service.ts:713-727 | one lot per line with anything accepted, in line order: accepted quantity and pieces, the cost ordered, the receipt's location, the earlier of the supplier's date and the item's own |
| `GoodsReceiptEffects.PostsWhen` | backend/src/modules/goods-receipts/domain/goods-receipt-rules.ts:303-339 | let through exactly when order, location and every line allow it and, unless approved, nothing is found |
| `GoodsReceiptEffects.LineRefusedWhen` | backend/src/modules/goods-receipts/domain/goods-receipt-rules.ts:303-334 | a line is let through exactly when its item is in use, its temperature taken, a reason given where one is due, nothing accepted expired and the limit kept |
| `GoodsReceiptEffects.OrderFollows` | backend/src/modules/goods-receipts/domain/goods-receipt-rules.ts:243-254 | received once every line is within its limit of what was ordered, else begun once anything has been received, else as it was |
| `GoodsReceiptEffects.CreateDecides` | backend/src/modules/goods-receipts/goods-receipts.service.ts:310-349 | drafted exactly for an order that takes deliveries and lines that can be entered on it, at the order's location |
| `GoodsReceiptEffects.UpdateDecides` | backend/src/modules/goods-receipts/goods-receipts.service.ts:352-387 | changed exactly as a draft at the revision its editor saw, keeping what was not sent |
| `GoodsReceiptEffects.ReceiptIsPosted` | backend/src/modules/goods-receipts/goods-receipts.service.ts:604-727 | as approved, or with what was found and expected written on its lines; no other receipt or order changes |
| `GoodsReceiptEffects.AloneItIsPosted` | backend/src/modules/goods-receipts/goods-receipts.service.ts:604-727 | with nothing in between, lock, judge and commit post a receipt exactly when it may begin and is let through, and else change nothing |
| `GoodsReceiptEffects.DecisionsTakeEffect` | backend/src/modules/goods-receipts/goods-receipts.service.ts:397-572 | a submission, approval or rejection takes effect at once when nobody holds the receipt |
| `GoodsReceiptEffects.SubmitDecides` | backend/src/modules/goods-receipts/goods-receipts.service.ts:397-454 | submitted exactly as a draft that could be posted; with findings it waits, with findings and expected quantities on each line |
| `GoodsReceiptEffects.ApproveDecides` | backend/src/modules/goods-receipts/goods-receipts.service.ts:462-507 | exactly a submitted receipt, by anybody but its creator |
| `GoodsReceiptEffects.RejectDecides` | backend/src/modules/goods-receipts/goods-receipts.service.ts:532-572 | exactly a submitted or approved receipt, with a reason |
| `GoodsReceiptEffects.LinesEnteredWhen` | backend/src/modules/goods-receipts/goods-receipts.service.ts:883-977 | lines are stored exactly when each can be received on its order line and no two are for one, in base units and otherwise as entered |
| `GoodsReceipts.Reachable` | backend/src/modules/goods-receipts/goods-receipts.service.ts:310-727 | what every step of drafting, submitting, deciding and posting keeps, any number at once |
| `GoodsReceiptLaws.ReceivedIsAcceptedIsStocked` | backend/src/modules/goods-receipts/goods-receipts.service.ts:637-727 | an order line has received what its posted receipts accepted, which is what their lots brought in, and returned what they rejected |
| `GoodsReceiptLaws.NeverOverTheLimit` | backend/src/modules/goods-receipts/domain/goods-receipt-rules.ts:195-214 | receipts posting at once never together receive more than ordered plus the variance limit, if no posting reads a wider one |
| `GoodsReceiptLaws.PostedWasCleanOrApproved` | backend/src/modules/goods-receipts/goods-receipts.service.ts:397-507 | a posted receipt had no finding or was approved by someone who did not create it |
| `GoodsReceiptLaws.CleanWhenItPosts` | backend/src/modules/goods-receipts/goods-receipts.service.ts:604-635 | a clean posting finds nothing against the order as it stands under its lock, and fixes exactly that |
| `GoodsReceiptLaws.FrozenOnceSubmitted` | backend/src/modules/goods-receipts/goods-receipts.service.ts:352-387 | from submission on lines, findings and expected quantities never change over any later steps; posted and rejected are final |
| `GoodsReceiptService.GoodsReceiptDesk.CheckedLines` | backend/src/modules/goods-receipts/goods-receipts.service.ts:883-977 | the stored lines, or the first problem with its line |
| `GoodsReceiptService.GoodsReceiptDesk.Create` | backend/src/modules/goods-receipts/goods-receipts.service.ts:310-349 | a draft with checked lines, or the problem and nothing written |
| `GoodsReceiptService.GoodsReceiptDesk.Update` | backend/src/modules/goods-receipts/goods-receipts.service.ts:352-387 | a draft changed at the revision its editor saw, or the problem |
| `GoodsReceiptService.GoodsReceiptDesk.FixInspection` | backend/src/modules/goods-receipts/goods-receipts.service.ts:835-845 | findings and expected quantities on each line, nothing else |
| `GoodsReceiptService.GoodsReceiptDesk.Submit` | backend/src/modules/goods-receipts/goods-receipts.service.ts:397-454 | with findings it waits for an approver, without it posts here and now, or the refusal |
| `GoodsReceiptService.GoodsReceiptDesk.Approve` | backend/src/modules/goods-receipts/goods-receipts.service.ts:462-507 | approved by someone else than its creator and posted at once if the ledger lets it, staying approved if not; or refused |
| `GoodsReceiptService.GoodsReceiptDesk.Reject` | backend/src/modules/goods-receipts/goods-receipts.service.ts:532-572 | rejected for good with a reason, or refused |
| `GoodsReceiptService.GoodsReceiptDesk.Additions` | backend/src/modules/goods-receipts/goods-receipts.service.ts:637-644 | the map by order line |
| `GoodsReceiptService.GoodsReceiptDesk.RecordReceipt` | backend/src/modules/purchase-orders/purchase-orders.service.ts:631-672 | each order line increased by what was added to it and the status set, in whatever order |
| `GoodsReceiptService.GoodsReceiptDesk.WritePosting` | backend/src/modules/goods-receipts/goods-receipts.service.ts:617-727 | order, lots and receipt after a posting |
| `GoodsReceiptService.GoodsReceiptDesk.PostFrom` | backend/src/modules/goods-receipts/goods-receipts.service.ts:604-727 | a posting from a clean draft or an approval, or its refusal with nothing written |
| `Base32.Encode` | web/src/demo/totp.ts:32-46 | the shifting loop writes the bits five at a time, the last group filled with zeros |
| `Base32.Decode` | web/src/demo/totp.ts:14-30 | the shifting loop reads the bits eight at a time, or names the first character that is none of the alphabet's |
| `Base32.ShiftIn` | web/src/demo/totp.ts:22-23 | shifting a 32-bit value that is never masked keeps the pending bits |
| `Base32.TakeOut` | web/src/demo/totp.ts:25-27 | shifting right and masking takes the highest pending group |
| `Base32.RoundTrip` | web/src/demo/totp.ts:14-46 | decoding an encoding gives the bytes back, for every byte sequence |
| `Base32.RoundTripHoweverTyped` | web/src/demo/totp.ts:14-30 | also in lower case, padded and spaced |
| `Base32.LettersRoundTrip` | web/src/demo/totp.ts:14-46 | letters come back if and only if fewer than five bits are left over and all are zero |
| `Base32.AlphabetIs` | web/src/demo/totp.ts:12-20 | the alphabet's letters and their numbers |
| `Base32.FirstBadLetterIsNamed` | web/src/demo/totp.ts:14-24 | decoded exactly when only letters, padding and white space are in it; else the first other character is named |
| `DecimalText.SubtractIsExact` | web/src/lib/decimal.ts:42-54 | the exact difference in its shortest spelling, or none exactly when a figure is no decimal |
| `DecimalText.FigureMeans` | web/src/lib/decimal.ts:17-23 | a figure is read exactly as the plain decimal it is, white space around it aside, and an empty box as zero |
| `DecimalText.SubtractOf` | web/src/lib/decimal.ts:42-54 | given figures that mean numbers, the shortest spelling of the first less the others |
| `DecimalText.FormatRoundTrip` | web/src/lib/decimal.ts:17-36 | parsing what was printed gives the same number back, with no trailing zeros and never "-0" |
| `DecimalText.OneSpelling` | web/src/lib/decimal.ts:29-36 | two shortest spellings of one number are the same text |
| `DecimalText.ShortestIsShortest` | web/src/lib/decimal.ts:29-36 | no text that spells the number is shorter |
| `DecimalText.SplitSpelled` | web/src/lib/decimal.ts:17-23 | a plain decimal reads back as its sign, digits and fraction |
| `DecimalText.CompareIsOrder` | web/src/lib/decimal.ts:57-61 | comparing by the look of the difference is the order of the numbers |
| `BusinessDates.ShownReadsBack` | web/src/lib/business-date.ts:118-197 | every real day of 1900 to 2200 shown in either language reads back as itself |
| `BusinessDates.AcceptedIsReal` | web/src/lib/business-date.ts:152-197 | an accepted date is a day the calendar has, in range, and spelled as ISO |
| `BusinessDates.AcceptedInOneLanguage` | web/src/lib/business-date.ts:169-191 | no date is accepted in both languages |
| `BusinessDates.SuggestedYearIsTaken` | web/src/lib/business-date.ts:169-191 | retyped with the suggested year, a date is accepted unless the day does not exist in it |
| `BusinessDates.SameMatch` | web/src/lib/business-date.ts:159-161 | where day, month and year are found depends only on which characters are digits and separators |
| `BusinessDates.IsoSplits` | web/src/lib/business-date.ts:106-112 | an ISO day splits into itself |
| `TypedDates.TypedDateIsRead` | web/src/lib/business-date.ts:152-197 | day first, month in one or two digits or by any of its names in any case, whatever separates them: the answer its numbers deserve, with the year probably meant, out of range, no such day or the ISO day |
| `TypedDates.TypedDayIsAccepted` | web/src/lib/business-date.ts:152-197 | every day from 1900 to 2200 so typed, in either era, is accepted as itself |
| `TypedDates.ThaiDigitsReadAlike` | web/src/lib/business-date.ts:153-156 | Thai digits are read as the digits they are |
| `TypedDates.RealMeansExists` | web/src/lib/business-date.ts:101-103 | the days a month has, leap days included |
| `TypedDates.NameIsFound` | web/src/lib/business-date.ts:124-135 | every short and long name of a month in either language, and "sept" |
| `ChangeLog.LogIsTheTable` | backend/src/modules/items/items.service.ts:436-448 | versions have no gap and each item is stored as its last change says, in every run |
| `ChangeLog.CaughtUpIsTheTable` | contracts/README.md:63-70 | a mirror at the latest version is the item table, whatever page sizes and restarts got it there |
| `ChangeLog.PullAll` | backend/src/modules/master-data/master-data.service.ts:63-89 | pulling while there is more, at any page size, ends with the table |
| `ChangeLog.PullKeeps` | backend/src/modules/master-data/master-data.service.ts:63-89 | one page is the next part of the log, and there is more exactly when the latest version is not reached |
| `ChangeLog.ForgetKeeps` | contracts/README.md:63-70 | applying part of the log again does no harm |
| `ChangeLog.DiffIsWhatAMirrorSees` | backend/src/modules/items/items.service.ts:560-579 | the diff is empty if and only if the snapshot does not change |
| `ChangeLog.UpdateLogs` | backend/src/modules/items/items.service.ts:378-434 | a stale edit is refused, one that changes nothing logs nothing, any other logs the record as stored under the next version |
| `ItemEffects.CreatedAsAsked` | backend/src/modules/items/items.service.ts:327-371 | created exactly when its units are right and its code is free; stored as asked, in use, units sorted, logged under the next version |
| `ItemEffects.EditedAsAsked` | backend/src/modules/items/items.service.ts:378-434 | exactly at the version its editor saw and with right units; every field sent is stored and the rest stay; a new version exactly when that changes the item |
| `ItemEffects.EditsTakeEffect` | backend/src/modules/items/items.service.ts:327-434 | an edit that goes through is the next state, a refused one changes nothing |
| `ItemEffects.TolerancesAsAsked` | backend/src/modules/items/items.service.ts:193-234 | stored exactly within 0 to 100 % and -60 to 60 degrees |
| `ItemEffects.RequisitionUnitAsAsked` | backend/src/modules/items/items.service.ts:242-288 | stored exactly when none, or positive and as fine as the base unit allows |
| `ItemsService.Diff` | backend/src/modules/items/items.service.ts:560-579 | exactly the fields an edit changes, with both values |
| `ItemsService.PurchaseUnitIssues` | backend/src/modules/items/domain/item-rules.ts:33-51 | exactly the units that are unknown, the base unit or repeated, and the factors that are wrong, each at its place |
| `ItemsService.ItemMaster.RecordChange` | backend/src/modules/items/items.service.ts:436-448 | the record as it now is, under its version |
| `ItemsService.ItemMaster.NextVersion` | backend/src/modules/master-data/master-data.service.ts:43-52 | the next version |
| `ItemsService.ItemMaster.Create` | backend/src/modules/items/items.service.ts:327-371 | item and change together, or the refusal |
| `ItemsService.ItemMaster.Update` | backend/src/modules/items/items.service.ts:378-434 | item and change together, or nothing |
| `ItemsService.ItemMaster.SetReceivingTolerances` | backend/src/modules/items/items.service.ts:193-234 | stored without a version or a change |
| `ItemsService.ItemMaster.SetRequisitionUnit` | backend/src/modules/items/items.service.ts:242-288 | stored without a version or a change |

## Left out

- Freedom from deadlock: balance rows inserted by concurrent postings are outside the ordered locks, so nothing is claimed.
- Document and lot numbers, their sequences, and the printed placeholder number: placeholders are keyed by branch and item, and lots compare by document and line.
- Ties in posting time: the latest entry or lot of an item, and the order of documents at one business time, go by the order they were posted in.
- The location and item filters of stock on hand, and its grouping for display: rows are shown by lot and location.
- Audit rows, logs, metrics, gauges, timers, the job lock, sessions and permissions.
- The optional guard a caller of a reversal may add, and the first use of a location.
- Stock adjustment line rules, BOMs, production costs, transfers, requisitions and purchase order totals: a document type is the plan it hands to the ledger. That a production plan links only lots it consumes, and that a consumption sends something to a placeholder or nothing at all, is required of plans (`Proper` in `Ledger`); for consumptions `ConsumptionLaws.PlanPrepares` shows it of the plans the service makes.
- Working out a sale's usage: its answer, or the reason there is none, is an input of the claim; so is whether a posting was written.
- `SalesEventService.BranchConsumption.RunBatches`: alone at work, and with answers that do not change during the run; overlapping runs are the machine in `SalesEvents`.
- `SalesEvents.EveryHistory`: record times are taken to follow the order in which rows are written, so the latest row is the one written last, and a claim or a review reads today's date when it finishes, not when it began.
- `ConsumptionLaws.ConsumptionPosts`: planning and posting are one step, and lots, balances and last receipts are taken to be read as of one moment. The lots are a second statement after the balances are locked, and could show a row inserted in between.
- `GoodsReceiptLaws.NeverOverTheLimit`: bounds the limits postings read; an item's limit may be edited between two receipts, and then the wider of them bounds.
- Unit conversion with decimals: a receiving unit holds a whole number of base quantities. Text forms of quantities, and the precision checks on them, are left to the decimal rules.
- The figures shown beside a finding (percentages, limits, dates): findings are their codes. The return document for rejected goods is the quantity recorded as returned on the order.
- A receipt's date against today, and whatever else the ledger may refuse: a posting under way may end without a trace.
- Collation of unit codes: units sort by number, the same way when stored and when compared.
- `Base32.Decode`: upper case is ASCII only; a few other characters whose upper case is a letter of the alphabet are refused by the model.
- Listing in the demo, its numbering, its notes and its views, and the text forms of the figures and dates it is given.
- Time zones and daylight saving.
