# Verified model of the write-behind cache and its simulation

wb-cache puts a cache in front of a database table.  Changes are not written through: each key has one pending update
record in a pool, a data controller merges every further change into that record, and flushes write whole batches of
records back in a transaction.  The repository judges the cache by a simulation: a script writer invents the life of a
trading company, one actor plays the script straight on the tables, another plays it through caches, and the resulting
tables are compared.  This project models both and proves that the cache cannot be told from its tables, that no change
is lost on the way to them, and that the simulation is a sound judge.

Nothing is assumed: every member has a body, and all sampled quantities, flushes, evictions, failures and interleavings
are universally quantified.

## Layers

**The data controller and the table** (`Records`, `DataController`, `Backend`).  Active models, update records and the
four answers of the controller, as values; the pass over the columns that rewrites a record in place is a method proved
against the answer.  A pending record is given a meaning, `Pends`: with this record on top of this backend row, the key
reads as that value.  Merging any sequence of changes keeps the meaning, and writing a batch one record at a time, in
any order, is writing it as a whole.

**The pool, the iterator and the write-back** (`UpdatePool`, `WriteBack`).  Records, locks and iterators are objects
changed in place.  `WbdcWriteBack` is the transaction loop: updates at once, inserts and deletes in chunks of at most
1000, confirmation only after the commit.  Its contract is the batch as a whole, exactly once, or nothing at all.

**The cache** (`CacheModel`, `Refinement`, `Clashes`, `Cache`).  `CacheModel` states each public operation as a step on
values, with backend outages as parameters.  `Refinement` proves that for an immutable controller any lawful run reads
like a plain map, that evictions, invalidations and flushes are invisible, and that a full flush leaves the backend
equal to the plain map; where the code needs a condition (a plain `insert`, a controller that is not immutable) the
condition is shown to be exact, and `Clashes` says what becomes of the cache when inserts do not respect it.  `Cache`
is the class with its pool, observers and purifier; every operation on it is proved to take the step of the value
model, and `Perform` ties the objects to the plain map directly.

**Interleaving** (`Interleaving`).  The same pool one lock operation at a time, with any number of threads that change
records, flush batches and flush single keys.  No update is lost or written twice, no record has two guards, the
unconditional re-insertion never overwrites another record, the purifier's lookup never fails, and there is no
deadlock. A visited record that holds data is taken unless another thread has it, and a flush that is left to itself
writes all that is pending for its keys. The entry of a record whose deletion was answered with `Drop` is removed
without the lock; `DropExact` says exactly when that does no harm, and `Doomed` what follows when it does.

**The two companies** (`Company`, `PlainCompany`, `PlainLaws`, `CachedCompany`, `Screenplay`, `Sessions`, `Collecting`,
`WholeCompany`, `CachedActor`).  The plain company acts on tables; `PlainLaws` says what they hold after any script,
told from its steps alone, and when a step is refused.  The cached company acts on caches whose flushes pass through
observers.  `SameTables` is about the four trading caches: any orderly script the plain company plays without failure
is played by the cached one, with flushes and evictions wherever they fall, and leaves equal tables, with no foreign
key ever violated.  Sessions are collected past their cache.  `Collecting` says what one collection takes away, and
`WholeCompany` what this means for a whole run of all five caches: the cached session table never lacks a session, what
it has too many has expired, and it is equal exactly when the last collection found all expired sessions in the
backend, as it does when sessions are flushed every other day.  `CachedActor` is the company as an object, its methods
proved to keep it beside the plain company.

**The script writer** (`Scripting`, `Queues`, `ScriptDesk`, `Backlog`, `Totals`, `Shipments`, `Plans`, `ScriptPhases`,
`ScriptSessions`, `ScriptWriter`).  The writer keeps its own stock, backorders, pending orders, shipments and sessions.
`Backlog` says how the queues are ordered, and that no order waits at the head of its queue that the stock could serve.
`Totals` says what a script amounts to, whatever has been queued meanwhile, and `Plans` what it should amount to.  Each
day's script is that of its phases, in order, each with the steps its plan asks for.  `Direct` writes the script of any
number of days; the plain company plays it without a failure, so every stock check passes, one for each product on each
day, and no order is refused.

**Together** (`EndToEnd`, `TableCompare`, `SecondaryKeys`).  Where every order and every item is at the end of a phase;
the whole simulation from sampled quantities to equal tables; the paged comparison of tables; and the cache's links
from secondary to primary keys.

A record is a sequence of column values, the first of which is its key; keys, ids and prices are integers, and `Null`
is a value.  Requirements on callers are those of the code: a plain `insert` brings a key the backend does not have, a
callback keeps the primary key, orders and sessions refer to customers that were registered before.

## What the code does that its documentation does not say

- A refused change loses the record that was pending before it (`src/update_state.rs:37-51`).
- `insert` is not preceded by a flush, so after deleting a stored key and inserting it again every flush of that key
  fails until the record is deleted once more, which brings the old row back (`src/cache.rs:578-600`,
  `Clashes.ReinsertBlocksFlush`, `Clashes.DeleteUnblocks`).
- A compute that puts back, unchanged, a record that is not cached answers that there is none (`src/cache.rs:264-303`,
  `CacheModel.Told`, `Refinement.ComputeOnTells`).
- `delete` reports nothing for a record that exists but is not cached (`src/cache.rs:607-621`,
  `Refinement.DeleteRefines`).
- Without `IMMUTABLE`, a changed record may leave an outdated copy in the cache
  (`src/test/simulation/db/cache.rs:294-299`, `Refinement.MutablePutExact`).
- The number of purified records that a flush returns is always 0 (`src/cache.rs:646-668`).
- Orders that are rechecked in vain are queued again in reverse order (`src/test/simulation/scriptwriter.rs:722-724`,
  `Backlog.FrontFiled`).
- Viewing a missing product is an error in the cached company and silently ignored in the plain one
  (`src/test/simulation/company_cached.rs:527-544`, `Screenplay.ViewExact`).
- Sessions that expire before they have reached the backend are collected by the plain company only
  (`src/test/simulation/company_cached.rs:575-616`, `Collecting.CollectExact`, `WholeCompany.SessionTablesMayDiffer`).

## Model

| member | source | states |
|---|---|---|
| `DataController.WbdcOnChange` | src/test/simulation/db/cache.rs:257-317 | the pass over the columns that rewrites the previous active model in place: it refuses exactly a deleted key, is cached exactly by an immutable controller with some column still to be written, and with nothing to write answers no operation and the record as it was |
| `DataController.ChangeAnswers` | src/test/simulation/db/cache.rs:257-317 | the answer to a change in terms of the columns: `Put` exactly when the controller is immutable and some column differs from the old record or from what is pending for it; otherwise `Nop`, and with nothing to write the pending record stays |
| `DataController.NewPends` | src/test/simulation/db/cache.rs:205-216 | a new record may be pending, and reads as the new value, exactly when the backend has no row for its key |
| `DataController.NewAndDeleteAnswers` | src/test/simulation/db/cache.rs:205-244 | a new record is cached exactly by an immutable controller; a deletion is dropped exactly when an immutable controller finds an Insert that was never written, and is pending otherwise |
| `DataController.DeletePends` | src/test/simulation/db/cache.rs:228-244 | a deletion hides the row; when `Drop` is answered, forgetting the pending record altogether hides it too |
| `DataController.ChangePends` | src/test/simulation/db/cache.rs:257-317 | while a key reads as a record, a change of it is never refused; the merged record makes the key read as the new value, an Insert stays an Insert, a record appears only if something was pending or differs |
| `DataController.FoldTelescopes` | src/test/simulation/db/cache.rs:257-317 | any sequence of changes, from any pending record consistent with the backend row, leaves one record whose application to that row is the last value; an Insert stays an Insert |
| `DataController.FoldWritesWhatDiffered` | src/test/simulation/db/cache.rs:289-310 | after any sequence of changes a column is written exactly when some submitted value differed there from the starting record |
| `Backend.OrderIsIrrelevant` | src/test/simulation/db/cache.rs:125-191 | writing the records of a batch one at a time, in any order, is refused exactly when the batch holds a record the backend refuses, and otherwise has the effect of the batch as a whole |
| `Backend.InsertAllRows` | src/test/simulation/db/cache.rs:135-148 | a multi-row insert is refused exactly when one of its keys is present, and otherwise adds exactly its rows |
| `Backend.UpdateRowRows` | src/test/simulation/db/cache.rs:182-186 | an update by primary key is refused exactly when the row is missing, and otherwise changes that row only |
| `UpdatePool.UpdateState.OnNew` | src/update_state.rs:27-35 | the pending record is replaced by the controller's answer |
| `UpdatePool.UpdateState.OnChange` | src/update_state.rs:37-51 | the pending record becomes the controller's answer to the old one; a refusal loses it |
| `UpdatePool.UpdateState.OnAccess` | src/update_state.rs:53-59 | an access leaves the pending record as it was |
| `UpdatePool.UpdateState.OnDelete` | src/update_state.rs:61-67 | the pending record becomes the controller's answer to the deletion |
| `UpdatePool.UpdateIterator.Next` | src/update_iterator.rs:92-143 | a record is yielded only if it is pooled, holds data, is not locked by another and lies ahead; afterwards it is due no more and nothing else has changed; `None` means that nothing was due; the measure is the number of slots ahead |
| `UpdatePool.UpdateIterator.TakeFromPool` | src/update_iterator.rs:112-139 | the immediate lock attempt: missing, locked and empty records are skipped without changing what is due |
| `UpdatePool.UpdateIterator.TakeGuard` | src/update_iterator.rs:108-110 | the guard of a single flush is handed out once |
| `UpdatePool.UpdateIterator.TakeBack` | src/update_iterator.rs:58-66 | a returned item with data keeps its lock among the worked ones, a confirmed one releases it |
| `UpdatePool.UpdateIterator.ConfirmAll` | src/update_iterator.rs:70-74 | exactly the worked records are emptied |
| `UpdatePool.UpdateIterator.ReleaseWorked` | src/update_iterator.rs:230-234 | dropping the worked guards releases exactly their locks |
| `UpdatePool.UpdateIterator.Reset` | src/update_iterator.rs:148-151 | the iterator starts over with no guard held |
| `UpdatePool.UpdateIterator.ObserverPass` | src/cache.rs:680-683 | after an observer has visited any prefix of the batch without confirming and the iterator was reset, what is due and every lock are as before |
| `WriteBack.Transaction.Execute` | src/test/simulation/db/cache.rs:148-186 | a statement is carried out or leaves the transaction as it was |
| `WriteBack.Place` | src/test/simulation/db/cache.rs:177-190 | an update is sent in place, inserts and deletes wait; on failure nothing is lost from what is held |
| `WriteBack.SendFullInserts` | src/test/simulation/db/cache.rs:135-150 | waiting inserts are left alone while there are fewer than 1000 of them, and are sent as one chunk when there are 1000 or the iteration has ended |
| `WriteBack.SendFullDeletes` | src/test/simulation/db/cache.rs:152-171 | the same for deletes |
| `WriteBack.Fetch` | src/test/simulation/db/cache.rs:131-132 | taking the next item moves exactly its record from due to held |
| `WriteBack.Round` | src/test/simulation/db/cache.rs:130-191 | one turn of the loop: every due record is still due, waiting, or sent; a failure gives everything back to the iterator |
| `WriteBack.LogBounded` | src/test/simulation/db/cache.rs:135-171 | with non-empty chunks there are no more statements than records |
| `WriteBack.AllSent` | src/test/simulation/db/cache.rs:130-191 | when the loop has ended every record has been addressed exactly once, and the rows are those of the batch |
| `WriteBack.Commit` | src/test/simulation/db/cache.rs:193-196 | records are confirmed if and only if the commit succeeded |
| `WriteBack.WbdcWriteBack` | src/test/simulation/db/cache.rs:115-199 | the whole write-back: on success the table is the batch applied, each due record was sent exactly once in chunks of 1 to 1000, and exactly the due records are confirmed; it fails only for a broken connection or a refused record, and then neither the table nor any record has changed |
| `Cache.Cache.PurifyUpdates` | src/cache.rs:646-668 | the lookup cannot fail; exactly the written records that nobody shares leave the pool; the count is always 0 |
| `Cache.Cache.WriteAndSettle` | src/cache.rs:685-688 | a write-back and its aftermath: table, pool, contents, locks and handles after success and after failure |
| `Cache.Cache.FlushManyRaw` | src/cache.rs:672-691 | with observers running through any part of the batch first, a flush takes the step `FlushKeys` of the value model and leaves no lock or handle behind |
| `Cache.Cache.FlushRaw` | src/cache.rs:696-702 | the same for all pooled keys |
| `Cache.Cache.FlushOne` | src/cache.rs:733-768 | a single flush writes the one pending record and leaves it empty in the pool |
| `Cache.Cache.MaybeFlushOne` | src/cache.rs:909-915 | a record that is pooled but not cached is flushed, a cached one is not |
| `Cache.Cache.FetchState` | src/cache.rs:487-509 | the record fetched for an update is pooled, has one more handle, and nothing else has changed |
| `Cache.Cache.Reinsert` | src/cache.rs:513-515 | putting the record back and dropping the handle leaves the pool with the controller's answer |
| `Cache.Cache.OnNew` | src/cache.rs:859-869 | a new record becomes pending |
| `Cache.Cache.OnChange` | src/cache.rs:872-882 | a change is merged into the pending record; a refusal empties it |
| `Cache.Cache.OnAccess` | src/cache.rs:885-892 | an access only makes sure that the record is pooled |
| `Cache.Cache.OnDelete` | src/cache.rs:833-904 | a deletion becomes pending, or takes the record out of the pool when the controller answers `Drop` |
| `Cache.Cache.Settle` | src/cache.rs:833-848 | what the inner cache makes of the controller's answer to a new value |
| `Cache.Cache.ComputeOn` | src/cache.rs:240-294 | the compute closure with all four decisions of the callback |
| `Cache.Cache.Compute` | src/cache.rs:229-307 | the compute by primary key, flush and fetch included |
| `Cache.Cache.GetOrInsert` | src/cache.rs:400-426 | get-or-insert by primary key |
| `Cache.Cache.Get` | src/cache.rs:556-573 | reading, with the access that follows a found record |
| `Cache.Cache.Insert` | src/cache.rs:578-600 | inserting without a flush |
| `Cache.Cache.Delete` | src/cache.rs:607-621 | deleting; the outcome the original panics on is kept as `Panicked` |
| `Cache.Cache.Invalidate` | src/cache.rs:626-643 | only the cached copy goes |
| `Cache.Cache.Perform` | src/cache.rs:229-643 | any operation on the objects of an immutable cache keeps the cache a refinement of the plain map, fails exactly when a write-back or a fetch it needs does or the callback does, and tells the caller the truth about that map and about what became of the cached copy |
| `Refinement.FlushRefines` | src/cache.rs:672-691 | any batch drawn from the pool is accepted by the backend, and writing it moves no view |
| `Refinement.FlushTouches` | src/cache.rs:672-691 | a flush touches only its keys, no cached copy, and takes exactly the written entries of a batch out of the pool |
| `Refinement.NewExact` | src/cache.rs:859-869 | a new record keeps the refinement exactly when the backend has no row for its key |
| `Refinement.ComputeRefines` | src/cache.rs:229-307 | compute does to the view what the callback does to the plain map, fails exactly with the backend or the callback, and answers with what became of the record: inserted, replaced, unchanged, removed or none; none for a record that exists only when an uncached record is put back as it was |
| `Refinement.ComputeOnTells` | src/cache.rs:240-307 | the kind of answer, told from the cached copy before and after: inserted exactly when there was none and is one now, replaced exactly when an immutable controller found a column to write in a cached record, unchanged exactly when the copy stayed |
| `Refinement.GetRefines` | src/cache.rs:556-573 | reading answers with the plain map's record and moves no view |
| `Refinement.DeleteRefines` | src/cache.rs:607-621 | deleting removes the record from the view whether or not it was cached, and names it in the reply exactly when it was |
| `Refinement.GetOrInsertRefines` | src/cache.rs:400-426 | get-or-insert returns the plain map's record, inserting only an absent one |
| `Refinement.StepRefines` | src/cache.rs:229-643 | any operation of an immutable cache: it fails exactly when the backend or the callback makes it, then leaves the view, and otherwise follows the plain map and answers truthfully about it and about the cached copy |
| `Refinement.StepElsewhere` | src/cache.rs:229-768 | an operation on one key changes neither the pending record nor the row nor the cached copy of any other key |
| `Refinement.StepRefinesFor` | src/cache.rs:229-768 | the same for a controller that is not immutable, as long as no cached record is replaced by another |
| `Refinement.CacheIsTransparent` | src/cache.rs:229-768 | after any lawful run from an opened table, every operation that did not fail has answered truthfully, every key reads as in the plain map, cached copies are current, and a full flush succeeds and leaves the backend equal to the plain map |
| `Refinement.UpkeepIsInvisible` | src/cache.rs:626-768 | flushes, evictions and invalidations move no view |
| `Refinement.ReachableFacts` | src/test/simulation/db/cache.rs:233-275 | in every reachable state a cached record has no pending deletion, a pending insert has no row, a pending update has one, and the "previously deleted key" refusal cannot happen |
| `Refinement.InsertExact` | src/cache.rs:578-600 | `insert` keeps the refinement, and a later flush possible, exactly when the backend has no row for the key |
| `Clashes.FlushRefusedExact` | src/cache.rs:578-600 | after any run, with inserts of any keys, a full flush is refused exactly when some pending Insert meets a row in the backend |
| `Clashes.ReinsertBlocksFlush` | src/cache.rs:578-600 | after a stored key has been deleted and inserted again before a flush, and whatever is done next, a flush is refused exactly as long as the pool has an Insert for the key and the row is there, and that is as long as nothing removes the record |
| `Clashes.DeleteUnblocks` | src/cache.rs:833-855 | a second deletion is answered with `Drop`: the flush is possible again and the old row is back |
| `Refinement.MutablePutExact` | src/test/simulation/db/cache.rs:294-299 | without `IMMUTABLE`, putting a new value keeps the cached copies right exactly when the record was not cached or has not changed |
| `Interleaving.ReinsertKeeps` | src/cache.rs:513-515 | the unconditional re-insertion never changes the pool |
| `Interleaving.AskKeeps` | src/update_state.rs:27-67 | a controller answer under the record lock keeps the invariant of the whole pool |
| `Interleaving.CommitKeeps` | src/test/simulation/db/cache.rs:193-196 | the commit of one write-back among any number of threads keeps the invariant |
| `Interleaving.PurifyKeeps` | src/cache.rs:646-668 | the purifier's lookup never fails, and it removes no record that holds data or is shared |
| `Interleaving.VisitTakes` | src/update_iterator.rs:108-139 | whatever the other threads do, a visited record that holds data is afterwards held by the visitor unless another thread has it locked, and nothing else is taken |
| `Interleaving.LockSingleTakes` | src/cache.rs:733-768 | a single flush that gets the lock takes the record exactly when it holds data |
| `Interleaving.BatchWrites` | src/cache.rs:672-691 | from any reachable state with all threads idle, a batch flush can be run, and afterwards nothing is pending for its keys, their rows are the plain records, and all other keys are as before |
| `Interleaving.SingleWrites` | src/cache.rs:733-768 | and so it is for a single flush and its one key |
| `Interleaving.NoLostUpdate` | src/cache.rs:486-515 | in every reachable state a handle or guard belongs to the very record the pool has for the key, and every key reads as the plain record, through the pool or from the backend; entries of dropped records are removed under the condition of `DropExact` |
| `Interleaving.GuardsAreExclusive` | src/update_iterator.rs:108-130 | no two threads hold one record, whatever their key lists |
| `Interleaving.BatchIsFresh` | src/update_iterator.rs:92-143 | all that a write-back has collected is accepted by the backend and has not been written before |
| `Interleaving.WrittenOnce` | src/cache.rs:672-691 | each content of a record is written by exactly one write-back before it is cleared |
| `Interleaving.WrittenIsFrozen` | src/test/simulation/db/cache.rs:193-196 | between commit and confirmation a record does not change, and only its writer clears it |
| `Interleaving.LockedIsUntouched` | src/update_state.rs:27-67 | a locked record is untouched by every other thread |
| `Interleaving.QuiescentIsWritten` | src/cache.rs:733-768 | when all threads have finished and no record holds data, the backend is the plain map |
| `Interleaving.SomeoneMoves` | src/update_iterator.rs:112-122 | no deadlock: an unfinished thread can move, or the holder of the one lock it waits for can; a thread with the lock can carry out whatever lawful change it has come for |
| `Interleaving.DropExact` | src/cache.rs:850-853 | removing the entry of a record whose deletion was answered with `Drop` keeps the invariant exactly when no other thread has a handle to the record or a guard it has still to purify, and nothing new waits in the record |
| `Interleaving.Doomed` | src/cache.rs:646-668 | from any state in which a thread holds an unpurified guard and the entry is gone, that thread alone reaches a purification whose lookup fails |
| `Interleaving.DropRaces` | src/cache.rs:850-853 | such a state is reached from an empty table: one thread inserts and deletes a record, another flushes |
| `PlainCompany.TestCompany.UpdateInventoryRecord` | src/test/simulation/company_plain.rs:191-229 | stock moves by the quantity unless the record is missing or the stock would become negative |
| `PlainCompany.TestCompany.UpdateInventory` | src/test/simulation/company_plain.rs:74-99 | an order takes stock once, and only with a status that takes stock |
| `PlainCompany.TestCompany.AddOrder` | src/test/simulation/company_plain.rs:154-170 | stock first, then the order row with the current day |
| `PlainCompany.TestCompany.UpdateOrder` | src/test/simulation/company_plain.rs:172-189 | stock first, then the status of an existing order |
| `PlainCompany.TestCompany.CheckInventory` | src/test/simulation/company_plain.rs:231-246 | counts exactly the checks that pass |
| `PlainCompany.TestCompany.UpdateProductViewCount` | src/test/simulation/company_plain.rs:254-264 | bumps the counter, silently doing nothing for a missing product |
| `PlainCompany.TestCompany.CollectExpired` | src/test/simulation/company_plain.rs:276-291 | removes exactly the sessions that have expired by the current day |
| `PlainCompany.TestCompany.Act` | src/test/simulation/actor.rs:90-158 | the interpreter plays up to the first failing step, and reports it exactly when more than ten steps follow it |
| `PlainCompany.FirstFailure` | src/test/simulation/actor.rs:105-112 | the step at which the interpreter stops is the first that fails, and playing further changes nothing |
| `PlainCompany.ActReports` | src/test/simulation/actor.rs:105-112 | a failure is reported exactly when more than ten steps follow the step that failed |
| `PlainLaws.StockConserved` | src/test/simulation/company_plain.rs:191-229 | the stock of a product is all that was brought minus all that orders have taken |
| `PlainLaws.RecordTold` | src/test/simulation/company_plain.rs:143-229 | an inventory record is as it was added, but for the stock brought and taken since |
| `PlainLaws.ChecksCounted` | src/test/simulation/company_plain.rs:231-246 | the number of checks that passed is the number of checks in the script |
| `PlainLaws.ViewsCounted` | src/test/simulation/company_plain.rs:254-264 | a product is as it was added, but for one view for each time it was viewed since |
| `PlainLaws.CustomerTold` | src/test/simulation/company_plain.rs:131-136 | a customer is as added, registered on the day of that step |
| `PlainLaws.OrderTold` | src/test/simulation/company_plain.rs:154-189 | an order is as it was placed, bought on the day of that step, with the status of the last step for it |
| `PlainLaws.SessionsTold` | src/test/simulation/company_plain.rs:248-291 | the session table holds exactly the sessions as they were last added or updated, without those that had expired when sessions were collected |
| `PlainLaws.TracesTold` | src/test/simulation/company_plain.rs:74-189 | a product, record, customer or order is in the tables exactly when a step has added it, and an order has taken stock exactly when a step of it has claimed some |
| `PlainLaws.CheckExact` | src/test/simulation/company_plain.rs:231-246 | a check passes exactly when the product has a record and its stock is what was brought minus what was taken |
| `PlainLaws.StockExact` | src/test/simulation/company_plain.rs:191-229 | stock moves exactly for a product with a record and as far as there is enough |
| `PlainLaws.OrderExact` | src/test/simulation/company_plain.rs:74-189 | an order step is accepted exactly when it may claim its stock and the order, its customer and its product are there as it needs them |
| `Company.PlayAppend` | src/test/simulation/actor.rs:105-155 | playing a screenplay in two parts is playing it whole |
| `CachedActor.TestCompany.FlushOrderCache` | src/test/simulation/company_cached.rs:60-70 | while the caches show the plain company's tables, a batch flush of orders is never refused, for a customer or for a product, and afterwards the backend has the plain orders and customers |
| `CachedActor.TestCompany.OnFlushOne` | src/test/simulation/company_cached.rs:72-102 | after the observer's part, what the single order refers to is in the backend |
| `CachedActor.TestCompany.UpdateInventoryRecord` | src/test/simulation/company_cached.rs:465-499 | stock moves, or is refused, exactly when it is in the plain company, and then the two companies agree again |
| `CachedActor.TestCompany.UpdateInventory` | src/test/simulation/company_cached.rs:340-357 | an order takes stock, or is refused, exactly as in the plain company |
| `CachedActor.TestCompany.AddOrder` | src/test/simulation/company_cached.rs:425-437 | an order the plain company accepts is accepted, and the companies agree again |
| `CachedActor.TestCompany.UpdateOrder` | src/test/simulation/company_cached.rs:502-524 | an update the plain company accepts is accepted, evicted or not, and the companies agree again |
| `CachedActor.TestCompany.CheckInventory` | src/test/simulation/company_cached.rs:447-462 | a check passes exactly when it does in the plain company |
| `CachedActor.TestCompany.UpdateProductViewCount` | src/test/simulation/company_cached.rs:527-544 | viewing fails exactly for a missing product, and otherwise counts as in the plain company |
| `CachedActor.TestCompany.SetCurrentDay` | src/test/simulation/company_cached.rs:372-382 | on day 1 customers, products and inventory reach the backend as the plain company has them |
| `CachedActor.TestCompany.FlushSessionCache` | src/test/simulation/company_cached.rs:133-156 | a flush of the sessions is never refused, and leaves every session in the backend as it is seen through the cache |
| `CachedActor.TestCompany.UpdateSession` | src/test/simulation/company_cached.rs:546-573 | a customer's visible session gets its new value |
| `CachedActor.TestCompany.CollectSessions` | src/test/simulation/company_cached.rs:575-616 | the visits one by one, after the deletion behind the cache's back, take away exactly the expired sessions with a row in the backend |
| `CachedActor.TestCompany.CurtainCall` | src/test/simulation/company_cached.rs:626-640 | closing the five caches in this order leaves the plain company's tables in the backend |
| `CachedActor.TestCompany.PlayOut` | src/test/simulation/actor.rs:90-158 | from its opening to the curtain call, with anything happening in the background, the company never fails on a screenplay the plain company plays, and leaves its tables |
| `Screenplay.MoveStockKeeps` | src/test/simulation/company_cached.rs:465-499 | moving stock fails in both companies or in neither, and keeps them equal |
| `Screenplay.UpdateOrderKeeps` | src/test/simulation/company_cached.rs:502-524 | an order update that succeeds on the tables succeeds through the caches and keeps the companies equal |
| `Screenplay.CheckInventoryKeeps` | src/test/simulation/company_cached.rs:447-462 | a check passes in both companies or in neither |
| `Screenplay.ViewExact` | src/test/simulation/company_cached.rs:527-544 | viewing fails in the cached company exactly for a missing product, where the plain company does not |
| `Screenplay.BackgroundKeeps` | src/cache.rs:771-822 | monitor flushes and evictions, at any time, succeed and keep the companies equal |
| `Screenplay.StepKeeps` | src/test/simulation/company_cached.rs:372-544 | a step that succeeds in the plain company succeeds in the cached one and keeps them equal |
| `Screenplay.SameTables` | src/test/simulation/sim_app.rs:432-470 | any orderly screenplay the plain company plays without failure is played by the four trading caches without failure under any background activity, no write-back is refused for a foreign key, and after the curtain call products, inventory, customers and orders are equal |
| `Screenplay.ReferencesHeld` | src/test/simulation/company_cached.rs:60-102 | in every reachable state all that is pending may be written: referenced products are in the backend, and customers are once the observer has run |
| `Screenplay.OrdersFlushExact` | src/test/simulation/company_cached.rs:60-70 | a batch of orders is accepted exactly when no pending order is the first to refer to a product missing in the backend |
| `Sessions.FlushAllKeeps` | src/test/simulation/company_cached.rs:133-156 | the customers that the session observer flushes are all the batch needs |
| `Sessions.FlushOneKeeps` | src/test/simulation/company_cached.rs:158-181 | the one customer flushed before a single session is all it needs |
| `Sessions.SessionsReferToCustomers` | src/test/simulation/company_cached.rs:133-181 | whatever is collected past the cache, evicted or flushed: when each customer precedes their sessions, no session is ever written before its customer |
| `Collecting.CollectTakes` | src/test/simulation/company_cached.rs:575-616 | for sessions in order and a truthful listing, collecting takes away the expired sessions that have a row in the backend, and nothing else |
| `Collecting.CollectExact` | src/test/simulation/company_cached.rs:575-616 | while the session tables read the same, collecting keeps them so exactly when every expired session, of a visitor or a customer, has a row in the backend |
| `Collecting.FlushStores` | src/test/simulation/company_cached.rs:133-156 | after a flush every expired session has its row |
| `Collecting.UpdatedVisitorIsLost` | src/test/simulation/company_cached.rs:575-579 | a visitor's session that was updated after its row reached the backend is lost when the old row expires, and its flush is refused |
| `WholeCompany.AllTables` | src/test/simulation/sim_app.rs:432-482 | for any lawful screenplay and any background: no step, flush or write-back of the five caches fails, four tables end equal, the session table has all the plain one has and otherwise only expired sessions; it is equal exactly when at the last collection all expired sessions had reached the backend |
| `WholeCompany.TimelyTables` | src/test/simulation/sim_app.rs:471-479 | with a session flush before every collection, since which only sessions that last longer were added, the session tables are equal as well |
| `WholeCompany.LatelyTables` | src/test/simulation/scriptwriter.rs:503-508 | for scripts whose sessions last three days and more, a session flush every other day is enough |
| `WholeCompany.SessionTablesMayDiffer` | src/test/simulation/company_cached.rs:575-579 | a visitor's session of three days that is never flushed ends up in the cached table and not in the plain one |
| `Scripting.TakesFromStock` | src/test/simulation/scriptwriter.rs:645-657 | an order the writer serves takes the same stock in the company that plays the script, and never more than there is |
| `Scripting.TakesNothing` | src/test/simulation/scriptwriter.rs:629-640 | an order step without a claim on stock changes no stock in either |
| `Queues.WriteOutcome` | src/test/simulation/scriptwriter.rs:612-661 | an order that asks for more than there is is backordered, new or again; one that can be served is pending until its handling days have passed, or shipped at once; any other step is written as it is |
| `Scripting.WriteAllAgrees` | src/test/simulation/scriptwriter.rs:668-734 | after any fine submission the company that plays the script has had no failure and has the writer's stock, never negative |
| `Queues.WriteConserves` | src/test/simulation/scriptwriter.rs:612-661 | writing one order step moves an order between to do, backordered, pending and shipped, and loses or doubles none |
| `Queues.WriteAllConserves` | src/test/simulation/scriptwriter.rs:668-734 | the same for a whole submission, order by order |
| `ScriptDesk.FileFrontCounts` | src/test/simulation/scriptwriter.rs:718-724 | orders queued again are each filed once, at the front |
| `ScriptDesk.FileBackCounts` | src/test/simulation/scriptwriter.rs:725-727 | new backorders are each filed once, at the back |
| `Backlog.FrontFiled` | src/test/simulation/scriptwriter.rs:718-724 | orders queued again stand before all others of their product, the last one first |
| `Backlog.BackFiled` | src/test/simulation/scriptwriter.rs:725-727 | new backorders stand behind all others of their product, in turn |
| `ScriptDesk.FilePendingCounts` | src/test/simulation/scriptwriter.rs:711-716 | pending orders are each filed once, under their day |
| `Backlog.PendingFiled` | src/test/simulation/scriptwriter.rs:711-716 | pending orders are filed under their day, in turn |
| `Backlog.SubmitWaits` | src/test/simulation/scriptwriter.rs:668-734 | a submission leaves at the head of each backorder queue an order that the stock on hand cannot serve, if there was one |
| `ScriptDesk.PlayRecorded` | src/test/simulation/company_plain.rs:74-99 | in a script that plays without failure no order is placed twice or takes stock twice, and the books record exactly the placed orders, those that took stock, and the customers |
| `ScriptDesk.SubmitKeeps` | src/test/simulation/scriptwriter.rs:668-734 | `add_steps` leaves the desk in order: company in agreement, queues holding their own orders, nothing lost or doubled |
| `Totals.SubmitGains` | src/test/simulation/scriptwriter.rs:668-734 | whatever is queued meanwhile, a submission adds up to what was submitted: orders placed and returned, items brought, products viewed |
| `ScriptDesk.GrownOrderly` | src/test/simulation/scriptwriter.rs:286-299 | trading steps keep a script orderly in the sense the cached company needs |
| `ScriptPhases.ArrivalKeeps` | src/test/simulation/scriptwriter.rs:975-1010 | stock that is in the writer's books before its step is submitted keeps the desk in order |
| `ScriptPhases.PopKeeps` | src/test/simulation/scriptwriter.rs:1035-1055 | an order taken out of its queue is in flight exactly once |
| `ScriptPhases.RestockReady` | src/test/simulation/scriptwriter.rs:1016-1070 | each order is rechecked at most once and has not taken stock before |
| `ScriptPhases.DayTaken` | src/test/simulation/scriptwriter.rs:1073-1079 | the day's pending queue is in flight, and nothing stays due up to that day |
| `ScriptPhases.ChecksPass` | src/test/simulation/scriptwriter.rs:579-587 | every stock check the writer adds passes when the script is played |
| `ScriptSessions.AddedSession` | src/test/simulation/scriptwriter.rs:503-508 | a session under the next id can always be added |
| `ScriptSessions.RememberedSession` | src/test/simulation/scriptwriter.rs:829-836 | a new session is remembered under its customer alone |
| `ScriptSessions.ExtendedSession` | src/test/simulation/scriptwriter.rs:819-826 | a session that has not expired by the day of the login has not been collected: the company can update it |
| `ScriptSessions.CollectedSessions` | src/test/simulation/company_plain.rs:276-291 | collecting removes no session that the writer could still extend |
| `ScriptWriter.ScriptWriter.ProcessOrder` | src/test/simulation/scriptwriter.rs:612-661 | orders are served or backordered by the stock on hand |
| `ScriptWriter.ScriptWriter.AddSteps` | src/test/simulation/scriptwriter.rs:668-734 | the loop with its three lists and the filing at the end computes `Submit` |
| `ScriptWriter.ScriptWriter.ReplenishInventory` | src/test/simulation/scriptwriter.rs:929-1071 | the steps amount to the deliveries of the day, item for item; each stock rises by them and falls by what the rechecked orders take; they are counted off what is being shipped; and no order is left at the head of a queue that the stock could serve |
| `ScriptWriter.ScriptWriter.Receive` | src/test/simulation/scriptwriter.rs:959-1006 | every delivery enters the stock of its product, gets its step and is counted off what is being shipped |
| `ScriptWriter.ScriptWriter.RecheckBackorders` | src/test/simulation/scriptwriter.rs:1016-1062 | the queue of every product that got a delivery is popped to the first order that cannot be served |
| `ScriptWriter.ScriptWriter.PopBackorders` | src/test/simulation/scriptwriter.rs:1029-1062 | orders leave the front of the product's own queue, in turn, as long as the stock on hand would serve each, and are submitted to be rechecked; popping stops at the first that could not be served; other queues stay |
| `ScriptWriter.ScriptWriter.FulfillPending` | src/test/simulation/scriptwriter.rs:1073-1098 | exactly the orders due today get their Shipped step, in filing order; chunks are never empty and leave no gap |
| `ScriptWriter.ScriptWriter.TaskPending` | src/test/simulation/scriptwriter.rs:464-479 | one chunk, with the others still in flight |
| `ScriptWriter.ScriptWriter.TaskPurchases` | src/test/simulation/scriptwriter.rs:325-437 | new orders with ids of their own are submitted as they are and keep the desk in order; the steps amount to them |
| `ScriptWriter.ScriptWriter.TaskReturns` | src/test/simulation/scriptwriter.rs:439-462 | exactly the returned orders are marked, in turn, and no stock comes back |
| `ScriptWriter.ScriptWriter.LogProgress` | src/test/simulation/scriptwriter.rs:579-587 | one check for each product is appended, and all pass |
| `ScriptWriter.ScriptWriter.EndDay` | src/test/simulation/scriptwriter.rs:289-293 | the day ends with the collection of sessions and one check for each product, of the stock it then has |
| `ScriptWriter.ScriptWriter.OrderShipments` | src/test/simulation/scriptwriter.rs:839-926 | for any estimates and delays: what is being shipped is the sum of the outstanding deliveries, each positive; with the stock it covers the estimate, and an order of goods never exceeds it; what is ordered arrives on the first day or after its delay, and no other day changes |
| `ScriptWriter.ScriptWriter.NextSessionId` | src/test/simulation/scriptwriter.rs:481-483 | ids rise within a day and from day to day |
| `ScriptWriter.ScriptWriter.CustomerLogin` | src/test/simulation/scriptwriter.rs:817-837 | a valid session is extended by a week and can be, any other login opens a session under the next id; the writer remembers it for that customer |
| `ScriptWriter.ScriptWriter.LogIn` | src/test/simulation/scriptwriter.rs:341-353 | each customer who visits gets one login step, in turn, and holds a session for a week; the others keep what they had |
| `ScriptWriter.ScriptWriter.TaskSessions` | src/test/simulation/scriptwriter.rs:485-511 | visitors get one session each, of three days, under consecutive ids that never repeat |
| `ScriptWriter.ScriptWriter.InitProducts` | src/test/simulation/scriptwriter.rs:737-786 | every product gets its step, its record, with its step, and an empty queue, in turn |
| `ScriptWriter.ScriptWriter.RegisterCustomers` | src/test/simulation/scriptwriter.rs:788-801 | exactly the new customers are added, in turn |
| `ScriptWriter.ScriptWriter.SimulateDay` | src/test/simulation/scriptwriter.rs:278-300 | one day for any sampled quantities: its steps are those of its phases, in order, from the new day to a check of every stock, each phase with the steps its plan asks for; the deliveries due have arrived, goods are ordered as estimated, no servable order heads a queue, and every invariant is kept |
| `Plans.DayAsPlanned` | src/test/simulation/scriptwriter.rs:278-300 | a day that follows its plan amounts to the plan and the deliveries of the day: customers, orders, returns, logins, visits, views, checks |
| `ScriptWriter.ScriptWriter.Direct` | src/test/simulation/scriptwriter.rs:265-306 | a script for any number of days begins with title, products and first customers and, but for deliveries, amounts to what was planned; it is played by the plain company without a failure, with one passing check for each product on each day; it is orderly, no session id repeats, days do not go back, and sessions last three days and more |
| `EndToEnd.OrdersAccounted` | src/test/simulation/scriptwriter.rs:612-734 | outside a submission each placed order has one Pending step or sits in exactly one place of the backorder queues; each Pending order has one Shipped step or waits once for a day still to come |
| `EndToEnd.QueuedOnce` | src/test/simulation/scriptwriter.rs:718-727 | a queued order sits in its own product's queue, in one place of it and in no other queue; the company has the order and has not taken its stock |
| `EndToEnd.StockAgrees` | src/test/simulation/scriptwriter.rs:579-587 | the writer's stock is the company's, and never negative |
| `EndToEnd.Simulate` | src/test/simulation/sim_app.rs:432-482 | for any period and any sampled quantities, the script amounts to what was planned, is played without failure with every stock checked on every day, and leaves all tables of the plain and the cached company equal, whatever is flushed or evicted meanwhile, the session table under a flush every other day and in general under the exact condition; every order and all stock is accounted for at the end, and no order heads a queue that could be served |
| `TableCompare.Paginator.NextPage` | src/test/simulation/sim_app.rs:385-386 | pages are consecutive, full but for the last, and never empty |
| `TableCompare.CompareTables` | src/test/simulation/sim_app.rs:369-429 | no difference is reported exactly when the record sequences are equal, for all lengths |
| `TableCompare.ListingsCompareTables` | src/test/simulation/sim_app.rs:385-386 | two tables listed in key order have equal listings exactly when they are equal |
| `SecondaryKeys.PrimaryKeeps` | src/cache.rs:264-275 | for either kind of controller, operations by primary key keep every link true: a removed record takes its link along |
| `SecondaryKeys.LinksKept` | src/cache.rs:264-275 | an operation by primary key other than an invalidation removes exactly the links to records that are gone, and changes none |
| `SecondaryKeys.GetByKeeps` | src/cache.rs:312-397 | reading by secondary key fails exactly with the backend; otherwise it reads the record it leads to as its primary key would, stores the link and caches the record |
| `SecondaryKeys.GetByExact` | src/cache.rs:312-397 | a read by secondary key finds an existing record exactly when it is linked or in the backend |
| `SecondaryKeys.LinksAreTrue` | src/cache.rs:312-397 | for either kind of controller, in every reachable state each link leads to a record with that secondary key, and reading through it is reading through the primary key |

## Left out

The cache:

- The library behind the inner cache, its eviction policy and its clock: eviction is a step that may happen between any
  two operations, and operations on one key are taken to be serialised by it; an eviction between the flush that precedes
  a compute and the compute itself is not modelled.
- Timers, wake-ups and the monitor's intervals: a monitor flush is a step that may happen at any time.
- The stored background error, which is reported once and cleared by reading it, and the race of `close` with the start
  of the monitor.
- The numbers that flushes return.
- `on_access` through a secondary key, `get_or_try_insert_with_secondary`, putting a new record through an unknown
  secondary key, and deleting through a secondary key whose record was evicted: these paths do not do what is documented.
- SecondaryKeys.GetByKeeps: covers reading through a secondary key; a callback that changes or removes the record it
  finds that way is not modelled.
- Records whose secondary key changes, or is shared with another record.
- Generic data controllers: the model has the one of the simulation.
- UpdatePool.UpdateState.OnAccess: has no controller that reacts to an access, because none of the simulation does.
- Cache.Cache.ComputeOn: leaves the links from secondary keys to `SecondaryKeys`, where they are values.
- Cache.Cache.Compute: the same.
- Cache.Cache.Invalidate: the same.
- Interleaving.NoLostUpdate: takes the entry of a dropped record to be removed only when `Interleaving.DropExact` says
  that this is harmless, because the property is false otherwise (`Interleaving.Doomed`).
- Interleaving.SomeoneMoves: a thread that has to remove such an entry can always do so, harmlessly or not.
- Interleaving.CommitKeeps: the statements of one transaction are one atomic step; the loop that sends them is in
  `WriteBack`.
- In the interleaved model an observer's own traffic with other caches, and a refused write-back (which is
  `WriteBack.WbdcWriteBack` and `Refinement.StepRefines` in the sequential model).
- In the interleaved model dropping the local handle is merged with the re-insertion before it.
- Widths of integers: ids, stock, days and prices are unbounded, and prices are whole numbers.

The companies:

- Screenplay.SameTables: is about scripts the plain company plays without a failing step, and about four tables; the
  fifth is in `WholeCompany.AllTables`.
- WholeCompany.AllTables: takes session ids not to repeat, visitors' sessions not to be updated, and days not to go back,
  as the script writer has it (`ScriptWriter.ScriptWriter.Direct`); `Collecting.UpdatedVisitorIsLost` shows what an
  update of a visitor's session leads to.
- Products that are added after day 1, whose orders then depend on a flush in between; `Screenplay.OrdersFlushExact` says
  what a flush of orders needs.
- The unique e-mail index of customers; the customers of a script are taken to have distinct ids.
- The caches inside `CachedActor.TestCompany` are fields that hold values of `CacheModel`; the class `Cache` is proved to
  behave like them, but its objects are not nested in the company.
- `act` of the cached company, which is the same default method as the plain company's and is modelled there
  (`PlainCompany.TestCompany.Act`).
- The database as an engine: connections, migrations, isolation levels and locks.

The script writer:

- The random models of demand, returns, logins and delays, and the search for model parameters: all that they sample is
  a parameter; the samples are non-negative, ids are fresh, and returned orders are placed ones.
- The two panics on a customer that is registered twice or a market that is full: they are preconditions.
- ScriptWriter.ScriptWriter.TaskPurchases: takes the purchases of a task as given, and the returns they will lead to are
  given with the day they come back.
- EndToEnd.OrdersAccounted: says that an order is shipped once or waits for a day to come; that the day it is shipped is
  the day it was filed under is in `ScriptWriter.ScriptWriter.FulfillPending`, one day at a time.
- Handling days are at most 255, the cap the writer puts on its samples.
- Worker threads: their chunks are submitted one after another, the session task at one point of the day, logins before
  purchases.
- Capacity reservations, messages and counters.

Around it:

- The command line, the progress display, reports, tracing, containers, and saving scripts in compressed form.
