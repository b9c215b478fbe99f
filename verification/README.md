# Outbox service: verified model

The service writes items and their events in one PostgreSQL transaction (a transactional outbox), publishes the events
under an advisory lock, tails the published rows in every worker and streams them to WebSocket clients that resume from
a cursor. This project models that protocol over every interleaving and every crash point, models the code of its parts
as classes, and proves what the service promises about both. `dafny verify dfyconfig.toml` checks all of it.

## How it is organised

| files | contents |
|---|---|
| Model, Ordering, EventLog, Mailboxes, Reader | entities; sequences and `ORDER BY ... LIMIT`; one entity's events and a consumer's view; a subscriber's queue; the client rule |
| Store, Queries | the database as a state machine, one step per SQL statement; what its selections return |
| StoreInvariant, StoreTheorems | what every database step keeps; the guarantees on the database side |
| Cluster | the whole service: database, a tailer and a hub per worker, sessions, clients, notifications, crashes |
| TailerInvariant, SessionInvariant, ClusterInvariant | what every step of the service keeps |
| Delivery, History, Streaming, Progress, Refusal, Truncation | the guarantees over whole runs |
| Database, Repository, Publisher, Hub, Paging, Tailer, StreamApi, Retention, Clients | the code of each part as methods, proved against the functions the machines use |
| Witnesses, TruncatedReplay | concrete reachable runs on which a documented promise fails |

A run is a sequence of states and steps from the empty database, each step enabled. Histories that no step reads (every
event committed, every event published, every block of positions reserved, what a tailer has handed on, what a session
has sent, what a client has processed) make the theorems survive retention. "Trimmed" means published and no longer in
the table.

## What is assumed of PostgreSQL

- READ COMMITTED: each statement sees the committed tables at its start, and a transaction's own changes become visible
  together at its commit. A crash or an error before that leaves nothing but sequence values.
- `SELECT ... FOR UPDATE` waits for the row's holder, then returns the committed row, or nothing if it was deleted.
- `nextval` and `setval` are not transactional, and positions start at 1.
- The transaction-level advisory lock and the row locks are released when the commit is visible, or at the abort.
- The trigger on `stream_seq` notifies every listening connection in the publisher's commit; a connection that closes
  loses what was on its way.
- UUIDs are never drawn twice. Batch and page sizes are at least 1. `now()` is the transaction's start.

## Where the code and its documentation differ

The model follows the code. "The service's README" is the README.md at the root of the repository.

- The live pump discards events up to the end of the replay, not up to the client's original cursor
  (app/api/stream.py:83-97, ARCHITECTURE.md:120). `Streaming.ReplayMeetsLive` holds because of it.
- The service's README (line 278) allows an event to arrive twice. A replaying client never sees one twice
  (`Delivery.LogMissesOnlyTrimmed`).
- The service's README (line 279) promises a refusal rather than a truncated history. That promise is false in general.
  It fails on three reachable tables, on which the check lets in a cursor that has lost history: an emptied outbox
  (`Witnesses.EmptiedOutbox`, app/api/stream.py:51), one swept while `published_at`, the transaction start, did not
  follow the stream (`Witnesses.PublishedOutOfOrder`), and one in the middle of a sweep, whose batches go by id
  (`Witnesses.MidSweep`). It also fails on no table at all: a batch that falls between the check and the replay it
  admits (app/api/stream.py:50 and :134 are separate statements) takes what that session has yet to read
  (`TruncatedReplay.SweptAfterCheck`). `Truncation.PromiseOverRuns` gives the condition for both: no state of a run has
  a cursor the check would wrongly let in, or a session let in that is owed an event already trimmed, if and only if
  each deletion batch passes two tests made before deleting, one on the table (`Truncation.SafeBatch`) and one against
  the open sessions (`Truncation.Spares`). A session counts as owed whatever it has not sent yet, even what is already
  in its queue. `Retention.BatchesKeepSuffix` says for which tables every batch passes the part about order: those
  whose `published_at` and id both follow the stream. `Refusal.RefusalPromise` is the condition on one state.
- A refusal can be needless (`Refusal.NeedlessRefusals`, `Witnesses.NeedlessRefusal`): a hole counts as a lost event.
- A cursor of 0 never replays (app/api/stream.py:49, app/api/stream.py:84), so a client's guarantees start at its first
  cursor greater than 0 (`SessionInvariant.Base`).

## Model

| member | source | states |
|---|---|---|
| StoreTheorems.EventLogGrammar | app/db/repository.py:50-153 | In every reachable database each entity's committed events are created v1, updated v2 to vn, then perhaps deleted at vn and nothing after, with ascending ids; a live row is the snapshot in the last of them |
| StoreTheorems.WritesAreSerializable | app/db/repository.py:68-135 | Under every interleaving each committed write did what it would have done run alone, in commit order, on the table the writes before it leave: accepted there, every field it does not set taken from there; and items is what all of them leave |
| StoreTheorems.CommitIsAtomic | app/db/repository.py:91-109 | A commit's snapshot is what the write makes of the row as committed at that moment; that one event is applied to items and queued under a fresh id together |
| StoreTheorems.OnlyCommitsWrite | app/db/repository.py:76-108 | Every other step, an abort or a rejected write included, leaves items and the committed log as they were |
| StoreTheorems.OptimisticLock | app/db/repository.py:85-108 | Of all updates and deletes of an entity that supplied the same expected version, at most one ever commits |
| StoreTheorems.LocksWaitForHolders | app/db/repository.py:78-89 | FOR UPDATE waits exactly for other updates and deletes holding the row, not for an uncommitted create; what was locked stays the committed row, at the accepted version, and nobody else's |
| StoreTheorems.PerEntityOrder | app/streaming/publisher.py:17-24 | Per entity, id, version and stream order agree: what is published of it is a prefix of what is committed of it, all of it when nothing of it is queued |
| StoreTheorems.ViewFollowsEachEntity | app/streaming/publisher.py:26-32 | Folding everything ever published leaves each entity as of its last published event |
| StoreTheorems.ViewReconstruction | app/streaming/publisher.py:135-158 | With nothing queued, that fold equals the items table, although stream order need not be id order or commit order |
| StoreTheorems.PublisherSafety | app/streaming/publisher.py:138-158 | With any number of publishers and crashes anywhere: positions are unique and ascend, reserved blocks disjoint and ascending, and at most one publisher is past the lock |
| StoreTheorems.CommitsExtendTheStream | app/streaming/publisher.py:149-158 | Only a publisher's commit publishes; what it adds lies above everything before it and fills its block without a hole; the sequence never moves back |
| StoreTheorems.CrashAnywhere | app/streaming/publisher.py:138-158 | Any transaction can end without committing at any point; tables and histories stay as they were, its locks go, positions it drew stay spent |
| StoreInvariant.NothingToSkip | app/streaming/publisher.py:23 | The holder of the advisory lock finds no outbox row locked by another publisher, so SKIP LOCKED skips nothing |
| StoreInvariant.StepKeepsInv | migrations/versions/0002_stream_seq.py:15-28 | Every database step keeps the invariant behind these theorems, unique positions included |
| EventLog.ViewIsLatest | app/db/repository.py:137-153 | Applying any interleaved log in order leaves each entity at its own last event |
| Queries.SelectStreamIsPage | app/db/repository.py:182-203 | The ordered, limited selection is exactly the lowest published rows above the cursor that the filter admits |
| Queries.ClaimRowsIsClaim | app/streaming/publisher.py:17-24 | A claim is exactly the lowest queued ids that nobody has locked |
| Queries.AgedRowsIsAgedBatch | app/streaming/retention.py:16-21 | A deletion batch is exactly the lowest ids among the aged published rows |
| Queries.OldestPositionFacts | app/db/repository.py:205-209 | The oldest replayable position is the minimum, or nothing exactly when no row is published |
| Queries.NewestPositionFacts | app/db/repository.py:211-215 | The current position is the maximum, 0 when no row is published |
| Repository.ItemRepository.Create | app/db/repository.py:50-66 | Version 1, the next event id, the created event, and the whole new database |
| Repository.ItemRepository.Lock | app/db/repository.py:78-89 | After any steps of others while it waits, the row is judged as committed then; not found and version conflict leave the database as those steps left it, otherwise the row is held as read |
| Repository.ItemRepository.Wait | app/db/repository.py:78-81 | While one transaction is suspended, the database moves by exactly the others' steps |
| Repository.ItemRepository.Update | app/db/repository.py:68-109 | The three outcomes; on success coalesced fields, version plus one, the updated event, and the whole new database |
| Repository.ItemRepository.Delete | app/db/repository.py:111-135 | The three outcomes; on success the row is gone and its event carries it at its last version |
| Repository.ItemRepository.Finish | app/db/repository.py:91-109 | Write, append and commit leave the database with exactly one more event |
| Publisher.OutboxPublisher.PublishBatch | app/streaming/publisher.py:135-162 | A busy lock changes nothing but the skip count; otherwise the first rows of the queue take the next positions in id order |
| Publisher.OutboxPublisher.ReserveBlock | app/streaming/publisher.py:149-154 | nextval, and setval for more than one row, take exactly as many positions as there are rows |
| Publisher.OutboxPublisher.Drain | app/streaming/publisher.py:126-133 | Any batch size assigns the whole queue the positions one unbounded batch would, and leaves nothing queued |
| Publisher.RestOfQueue | app/streaming/publisher.py:126-133 | What a batch leaves queued is the rest of the queue |
| Publisher.BatchesCompose | app/streaming/publisher.py:149-158 | Two batches in a row publish what one batch of both would |
| Mailboxes.AcceptedIsPrefix | app/streaming/hub.py:37-56 | Over any publish, interrupt and take steps, what a queue accepts is a prefix of what its filter wants, all of it until overflow, within capacity |
| Mailboxes.PumpSendsPrefix | app/api/stream.py:174-196 | What the pump draws, skips and sends is a prefix of the wanted events above its skip point, even with events queued behind the sentinel, and all of them once the queue is drained without overflow or sentinel |
| Mailboxes.WantedIs | app/streaming/hub.py:37-40 | The filter keeps the events of its one entity, or all if there is none |
| Mailboxes.OverflowIsPermanent | app/streaming/hub.py:42-50 | Once overflowed, always overflowed |
| Mailboxes.OverflowIsFinal | app/streaming/hub.py:111-121 | Breaking out of a batch at the first refusal loses nothing the rest of it could have done |
| Mailboxes.FillsBeforeOverflow | app/streaming/hub.py:42-56 | A queue overflows only when it holds exactly its capacity, which is then not 0 |
| Mailboxes.InterruptIsHeard | app/streaming/hub.py:52-63 | After an interrupt, as many takes as there were entries queued and one more draw the sentinel, unless the queue had no room and overflowed |
| Mailboxes.CursorIsLastAccepted | app/streaming/hub.py:111-122 | A subscriber's cursor is the position of the last event it accepted |
| Hub.Subscriber.Offer | app/streaming/hub.py:42-50 | Taken exactly when the flag is clear and there is room; otherwise the flag is up and the queue as it was |
| Hub.Subscriber.Interrupt | app/streaming/hub.py:52-56 | With room the sentinel goes behind the queue and the flag stays; without it the queue stays and the flag is up |
| Hub.Subscriber.NextEvent | app/streaming/hub.py:58-63 | Takes the head, or nothing when there is none |
| Hub.StreamHub.Subscribe | app/streaming/hub.py:81-96 | Adds one empty subscriber under a new id, also during shutdown |
| Hub.StreamHub.Unsubscribe | app/streaming/hub.py:98-105 | Removes that subscriber and no other |
| Hub.StreamHub.Publish | app/streaming/hub.py:107-122 | Every subscriber ends as if it had been given the whole batch alone |
| Hub.StreamHub.Shutdown | app/streaming/hub.py:124-133 | The same for every subscriber |
| Paging.PageThenRest | app/api/stream.py:133-144 | A page followed by everything above its last position is everything, and a short page is the last |
| Tailer.OutboxTailer.Start | app/streaming/tailer.py:50-57 | Starts where nothing in the table lies above the cursor |
| Tailer.OutboxTailer.WaitForSignal | app/streaming/tailer.py:88-102 | Woken exactly by a notification before the timeout; that spends the flag, and one arriving during the debounce is kept |
| Tailer.OutboxTailer.DeliverBatch | app/streaming/tailer.py:137-152 | The cursor moves to the last row and every subscriber is offered exactly the rows fetched |
| Tailer.OutboxTailer.Drain | app/streaming/tailer.py:128-135 | Any batch size delivers what one unbounded read would and leaves nothing above the cursor |
| Tailer.BatchIsFetchThenHandOff | app/streaming/tailer.py:137-152 | The machine's two steps do to cursor and queues what `DeliverBatch` does, and drain on exactly while batches are full |
| StreamApi.Replay | app/api/stream.py:122-148 | Any page size sends exactly what one unbounded ordered read returns, then reports position and count |
| StreamApi.PumpOnce | app/api/stream.py:181-196 | One wait: exactly a ping on a timeout, close with 4002 on the sentinel, nothing for what was replayed, else the event |
| StreamApi.Pump | app/api/stream.py:167-196 | Over any hub activity between its test and its wait, it sends what `PumpSendsPrefix` speaks of; it closes with 4002 exactly on the sentinel and with 4001 at the first test that finds the queue overflowed, drawing nothing more |
| StreamApi.Admit | app/api/stream.py:72-119 | The same for a connection past the check, which announces itself first |
| StreamApi.Stream | app/api/stream.py:24-119 | Refuses with 4003, and no event, exactly a cursor to be replayed whose next position lies below every row of a nonempty table; otherwise sends every row above the cursor that the filter admits, in order, if a replay is due, then only what the pump draws; leaves the hub as it found it |
| ClusterInvariant.StepKeepsInv | app/api/stream.py:72-97 | Every step of every process, at every await point, keeps the invariant behind the run theorems |
| Delivery.ExactlyOnce | scripts/listen.py:52-78 | Over whole runs, from its first cursor above 0, a client's processed log is exactly the published events its filter wants up to its cursor, in order, unless an event it is owed is trimmed |
| Delivery.LogMissesOnlyTrimmed | scripts/listen.py:89-124 | With no hypothesis on retention: nothing twice, nothing unwanted, nothing out of order, and only trimmed events missing |
| History.EntityHistory | scripts/listen.py:52-78 | Under the hypothesis of `ExactlyOnce`, what a client sees of each entity it wants is a contiguous block of the entity's committed history: consecutive versions in write order |
| Delivery.ReportedGapsAreHoles | scripts/listen.py:63-65 | A gap the listener reports then holds no event it wanted |
| Progress.QuietMeansComplete | app/api/stream.py:174-196 | Once a session's queue and wire are empty and its tailer has read everything, the client has processed every event it wants above its first cursor, unless one it was owed was trimmed |
| Progress.NoSessionIsStuck | app/api/stream.py:72-119 | In every state of a run each open session can take its next step |
| Progress.CloseCodes | app/api/stream.py:18-20 | A session closes with 4003 only at the check, 4002 only on the sentinel, 4001 only on overflow, 1006 only with its worker; the sentinel closes it without another event |
| Progress.ShutdownSignals | app/main.py:36 | In any run a worker's shutdown queues the sentinel for each session subscribed to it, or overflows a full queue |
| Streaming.ReplayMeetsLive | app/api/stream.py:72-97 | What one session sends is a prefix of all wanted events above last_event_id, without gap or duplicate where replay meets live, for any interleaving, unless an unsent event is trimmed |
| Streaming.TailerCompleteness | app/streaming/tailer.py:137-152 | What a tailer has handed on is exactly the stream between its start and its cursor, unless a row is trimmed unread |
| Streaming.NothingLandsBelowACursor | app/streaming/tailer.py:18-25 | No later commit lands at or below any tailer's cursor |
| Streaming.NoLostWakeup | app/streaming/tailer.py:74-116 | A connected tailer that waits with its flag clear and no notification under way has read every published row |
| Streaming.AcceptedIsSlice | app/streaming/hub.py:107-122 | What a hub accepts for a session is a contiguous slice of the filtered stream, up to the tailer's cursor until it overflows |
| Streaming.OneOrderForAll | app/streaming/publisher.py:156-158 | Two sessions with one filter, on any two workers and at any two times, agree wherever their slices overlap |
| Refusal.OldestIsUntrimmed | app/db/repository.py:205-209 | The check's oldest row is the oldest event that is not trimmed |
| Refusal.RefusalPromise | app/api/stream.py:49-70 | Every accepted cursor has its history whole if and only if the table retains a suffix of the stream and something of it, or the stream never passed position 1 |
| Refusal.AcceptedIsWhole | app/api/stream.py:49-51 | With a suffix retained, an accepted cursor has lost nothing if and only if the table holds a published row or nothing was ever published above it |
| Refusal.NeedlessRefusals | app/api/stream.py:51 | With a suffix of the stream retained, a refused cursor had lost nothing if and only if nothing was ever published between it and the oldest row |
| Refusal.RefusedSendsNothing | app/api/stream.py:49-70 | The check refuses with 4003 exactly a cursor to be replayed whose next position lies below every retained event, if any is retained, and such a connection has sent no event |
| Truncation.AcceptedCursorsAreServed | app/api/stream.py:133-148 | With a nonempty suffix retained at the check, and no batch since taking what the session has yet to send, an accepted cursor gets everything wanted above it without gap, and once the pump runs everything ever published up to the last replay query |
| Truncation.StatesKeepPromise | app/streaming/retention.py:13-23 | Every state of a run refuses each cursor that has lost history if and only if every deletion batch takes the start of the published rows and not all of them (or nothing lies past position 1) |
| Truncation.PromiseOverRuns | app/api/stream.py:49-97 | Every state of a run does so and owes no admitted session a trimmed event if and only if, besides, no batch takes a row that an admitted session's filter wants above what it has been sent |
| Truncation.SafeBatchesServe | app/api/stream.py:49-97 | If every batch before the check passed the test on the table, and none since takes what the session has yet to send, each accepted cursor is served as above |
| Retention.OutboxRetention.DeleteBatch | app/streaming/retention.py:88-93 | Deletes one batch of aged rows and reports how many |
| Retention.OutboxRetention.Sweep | app/streaming/retention.py:83-101 | Run alone with a fixed cutoff: a row stays, as it was, exactly if it is unpublished or not older than the cutoff; deleted plus remaining is the original count |
| Retention.BatchKeepsSuffix | app/streaming/retention.py:13-23 | One batch keeps a suffix of the stream if and only if every published row below one of its rows is in it |
| Retention.BatchesKeepSuffix | app/streaming/retention.py:20 | Batches of every size and cutoff keep a suffix if and only if neither published_at nor id decreases along the stream |
| Retention.SweepKeepsSuffix | app/streaming/retention.py:13-23 | A sweep keeps a suffix of the stream if and only if what is aged is the start of it |
| Retention.SweepsKeepSuffix | app/streaming/publisher.py:26-32 | All sweeps keep a suffix if and only if published_at never decreases along the stream |
| Reader.CursorIsMax | scripts/listen.py:52-78 | The cursor is the maximum of its start and everything seen |
| Reader.AcceptsRunningMaxima | loadtest/run_load.py:74-79 | Accepted positions are exactly the strict running maxima above the start |
| Reader.EveryMessageCounted | scripts/listen.py:55-78 | Received plus duplicates is the number of messages |
| Reader.GapAccounting | scripts/listen.py:63-64 | Recorded gaps are disjoint, are exactly the numbers missed between first and last accepted, and their width is the closed form |
| Clients.Listener.ShowEvent | scripts/listen.py:52-78 | One message: duplicate, gap or neither, and the cursor |
| Clients.Listener.Run | scripts/listen.py:89-124 | Reconnecting is invisible: the listener ends as if all messages had come on one connection; it gives up with status 1 exactly on a close with 4003 |
| Clients.Subscriber.Read | loadtest/run_load.py:68-85 | Keeps exactly the accepted positions and counts the rest as duplicates |
| Clients.Subscriber.Gaps | loadtest/run_load.py:103-107 | Equals the total width of the gaps a listener with the same start would record |
| Witnesses.EmptiedOutbox | app/api/stream.py:51 | A reachable table, emptied by retention, on which a cursor is accepted whose later event is gone |
| Witnesses.PublishedOutOfOrder | app/streaming/publisher.py:28 | A reachable run with published_at against stream order, whose sweep deletes the later event and keeps the earlier |
| Witnesses.MidSweep | app/streaming/retention.py:20-21 | A reachable table, published_at in order and not emptied, on which the first batch of a sweep takes the later event and the check lets a cursor through that missed it |
| TruncatedReplay.SweptAfterCheck | app/api/stream.py:50-92 | A whole run in which every state refuses rightly and every batch passes the test on the table, yet a sweep between check and replay leaves an admitted client without a wanted event |
| Witnesses.NeedlessRefusal | app/api/stream.py:51 | A reachable table on which a client that has missed nothing is refused because of a hole |
| Witnesses.StreamAgainstIdOrder | ARCHITECTURE.md:179-202 | A reachable stream that lists a smaller outbox id after a larger one, so a cursor over ids would skip it |

## Left out

- Publisher.OutboxPublisher.Drain: runs alone with the clock standing still, so every batch carries one published_at; interleavings and crashes are covered by the database machine.
- Tailer.OutboxTailer.Drain: reads one table that does not change between batches; changing tables are covered by the service machine.
- StreamApi.Replay: reads one table that does not change between pages; changing tables are covered by the service machine.
- StreamApi.Pump: the endless loop is cut after any given number of rounds; a round is one wait.
- StreamApi.Stream: hub activity between subscribing and pumping is applied at one point of the replay; the service machine interleaves it with every page and every send. A send that fails midway ends the session in the machine only.
- Retention.OutboxRetention.Sweep: the clock stands still while it runs; in the machine each batch has its own cutoff and other steps come between.
- Clients.Listener.Run: takes its connections as a finite list, and `show_control`, timestamps and output are not modelled.
- Repository.ItemRepository.Update: others run while it waits for the row, but not between its lock and its commit; the database machine interleaves those steps too.
- Hub.StreamHub.Publish: visits subscribers in no particular order, where the source follows insertion order; no result depends on it.
- HTTP routing, validation, status codes, health and diagnostics endpoints: thin wrappers with no protocol state.
- Item listing by offset and outbox paging by id: they promise nothing under concurrent writes.
- Connection pool, JSON codecs, logging, settings, Docker and migrations beyond the constraints the invariants need.
- The publisher's own wakeup channel: publishing may start at any time in the machine, which covers every wakeup.
- Event-loop internals: cancellation is a crash at an await point, and waiting for the queue returns its head or times out.
- Liveness: that steps are eventually taken. `NoLostWakeup`, `NoSessionIsStuck`, `QuietMeansComplete` and the loops' termination measures stand in for it.
- The 32-bit width of `items.version` and the 64-bit width of ids and positions: both are unbounded here.
- Latency, percentiles and pacing of the load test.
