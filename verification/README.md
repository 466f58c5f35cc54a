# Models and proofs for the event writer, the run executor and six self-contained algorithms

Each Dafny module models one part of the repository in that part's own form: loops and classes where the
code changes state step by step, functions where it only computes. `dafny verify dfyconfig.toml` covers the
whole project.

## What is modelled

**The event writer** (`EventLog`, `StreamSafety`, `Calls`, `Retention`, `WriterSpec`, `EventWriter`).
A `World` is the shared state: the Redis stream with its one consumer group (appended IDs, trim mark,
last-delivered ID, pending list), the sink, the dead-letter stream and the clock. A run is a sequence of
atomic calls by any number of replicas, retention managers and producers; each call has a guard. The
length cap that producers put on the stream is one of the calls.
The guards of `XREADGROUP`, `XAUTOCLAIM` and so on say what Redis itself does; the guards of sink writes,
dead-letter writes, ACKs and trims say what the *code* has to establish before it makes the call. All
safety results (`StreamSafety`) are about every state of every such run. A crashed replica simply makes
no further calls, since its memory is not part of the `World`.

The code itself is `EventWriter.EventConsumer` and `Retention.RetentionManager`, written against
`Calls.Broker`. Every `Broker` method first lets other processes take any of their own guarded steps
(`Interfere`), then makes one call, which may fail, and may fail although it was applied. That the
methods only ever make guarded calls is what connects the code to the runs: each process relies on the
guards of the others and keeps its own. `budget` counts the steps the others still take, which is finite in
a finite run; it is what makes loops that wait for others end. `Calm` says that no other consumer moved
during a call, `FaultFree` that no call of this replica fails, `alone` that no other consumer is active and the
stream stays under the producers' cap.

`Recorded` is a dead letter written since a given moment, after a lookup of the text that did not fail; together
with `ReplayableRecords` it says when the record has the text. `failures` counts the sink writes that failed.

`Aligned`, `Noted` and `Tracks` say what a replica's `batch`, `messageIDs` and `poisonIDs` stand for;
`GoodRecords` and `PoisonOf` are the reference that handles one entry at a time. Ages and cut-offs are read
from one clock; nothing is assumed of how an entry's ID relates to the clock when it is appended.

What can happen to an event is settled by `StreamSafety.LostExactly`: in every state of every run an appended
event is still unread, pending in the stream, in the sink or in the DLQ, unless one of three things took it,
and the lemma is an if-and-only-if: a trim while it was pending, a producer's cap while it was unread or
pending, or the ACK of an audit event that has no payload. `TrimTakesExactly` and `CapTakesExactly` say
exactly which entries the first two take, by a bound that is known before the call.

**The A2A run executor** (`Executor`, `RunWorkflow`, `FanIn`). `Executor` is the interleaved state machine of
the loop, the goroutine around `wfRun.Get` and the outside world. `RunWorkflow.RunExecutor` is the code: a
select loop over mutable fields, proved to take only steps of that machine, with the other goroutines
stepping before every select. A `Story` is what a run was told, read off its calls; `OutputIsTheStory` says
that it decides the whole output. `FanIn` is the two-channel merge, with a nondeterministic select.

**Server-sent-event frames** (`SseFrames`): both stream readers of the frontend, over text chunks.

**Graph reachability** (`GraphWalk`), **migration drift** (`Migrations`, with the replay of migrations as the
reference), **human waits** (`HumanWait`, with the store of one task's handle), **the spec cache**
(`SpecCache`, with other loads and database updates between any two steps of a load) and **slugs**
(`Slug`). In `HumanWait` others may write the stored handle between any two Redis calls; `UpdateWaitToken` is a Get
and a SetEX (`go/internal/agentgen/hitl_store.go:100-116`), so what lands between the two is overwritten.

## Where the code and its documentation disagree

The models follow the code.

- `go/cmd/event-writer/main.go:4-9` promises that every event reaches ClickHouse or the DLQ before its ACK. An
  audit event without its payload passes `ValidateEvent` (`go/internal/events/validate.go:17-35` has no audit
  case), `writeAudit` returns nil without writing (`go/internal/events/clickhouse.go:669-672`), and the writer
  ACKs it: it ends up nowhere (`StreamSafety.BareAuditVanishes`). No producer sends that kind yet
  (`docs/architecture/events-pipeline.md:86`). All results treat it as it is: the sink skips it, and
  `LostExactly`, `Drained` and `CaughtUp` say so.
- `go/cmd/event-writer/retention.go:17-20` promises that pending messages are never trimmed. The four calls
  of a trim are not atomic: `StreamSafety.LateTrimLosesAnEvent` is a run in which a trim removes a pending
  entry and the event is lost. `NoVictimsExactly` says when no pending entry is ever trimmed: if and only if at
  each trim every pending entry's time is at or above the trim's bound. `NoVictims` gives two ways to ensure
  that, and `NothingLostWithSafeTrims` what it is worth.
- `go/cmd/event-writer/main.go:743-745` promises a payload in every dead letter. `payloadOf` gives up on any XRANGE
  error, and the record is written and the entry ACKed all the same: one failed lookup, and after the next
  trim the text is nowhere (`FailedLookupLosesTheText`). A lookup that succeeds can come too late as well, when
  a replica stalls for over a day between reclaiming an entry and looking it up while another settles it
  (`SecondRecordLosesThePayload`). `ReplayableRecords`: a record carries the text if and only if its lookup
  succeeded while the entry was in the stream. `TextSavedExactly`: the DLQ has an event's text if and only if that
  was so for some record of it.
- `go/cmd/event-writer/main.go:525-538`: a failed write attempt is remembered even when a retry succeeds and
  is ACKed, so that flush counts as failed and leaves the malformed part of its batch pending. Nothing is
  lost; `EventConsumer.Flush` states it.
- `frontend/src/lib/graphWalk.ts:13` and `:32` say the start itself is not returned. It is, exactly when it
  lies on a cycle.
- `go/internal/a2a/executor.go:207-219`: after `done` with nothing streamed the loop can wait for ever for a
  result that the cancelled goroutine dropped (`Executor.DoneCanStrand`, `StuckForever`). `StrandsExactly`: from
  there a run can get stuck if and only if the goroutine has not sent the result yet.
- `scripts/check_migrations.py:82` leaves `DOWN` files out when it looks for missing objects, but not when it
  looks for later drops, so such a file hides a migration that was never applied (`DownFileMasks`).
- The SSE readers split on LF LF only. Section 9.2.6 of the WHATWG HTML standard also allows CR LF line ends;
  a stream that uses them delivers nothing (`CarriageReturnsDeliverNothing`). The repository's own servers write
  LF; only a foreign one would send such a stream.

## Model

| member | source | states |
|---|---|---|
| EventLog.ReadIsNext | go/cmd/event-writer/main.go:675-707 | one read hands out exactly the undelivered entries up to the new last-delivered ID |
| EventLog.DeliverStep | go/cmd/event-writer/main.go:675-707 | a read keeps the invariant: what it hands out becomes pending |
| EventLog.ClaimStep | go/cmd/event-writer/main.go:244-279 | a reclaim keeps it, although it drops trimmed entries from the pending list |
| EventLog.StoreStep | go/internal/events/clickhouse.go:456-483 | a sink write of a delivered, well-formed entry with a payload keeps it |
| EventLog.BuryStep | go/cmd/event-writer/main.go:743-760 | a deserved dead letter with the payload found keeps it |
| EventLog.AckStep | go/cmd/event-writer/main.go:709-718 | an ACK of entries that are settled, or that the sink skips, keeps it |
| EventLog.CutStep | go/cmd/event-writer/retention.go:165-202 | a trim at or below a reported last-delivered ID keeps it |
| EventLog.CapStep | go/internal/events/redis.go:209-231 | a producer's cap keeps it; what it takes unread or pending is on record |
| EventLog.StepSound | go/cmd/event-writer/main.go:4-13 | every guarded call keeps the invariant and only moves the state forwards |
| EventLog.FaultExactly | go/cmd/event-writer/main.go:590-611 | read off the field itself: every field has exactly one fault, or holds a storable event that is its decoded text; the parse finds the fault unless only validation does |
| StreamSafety.RunSound | go/cmd/event-writer/main.go:4-13 | every state of every run satisfies the invariant, and every earlier state evolved into it |
| StreamSafety.NoEventLost | go/cmd/event-writer/main.go:282-406 | in every state of every run an appended event is unread, pending in the stream, in the sink or dead-lettered, if and only if it is settled, or neither was taken from the stream unread or pending nor is an audit event without payload off the pending list |
| StreamSafety.LostExactly | go/cmd/event-writer/main.go:4-13 | an event is lost if and only if it is unsettled and a trim took it while pending, a cap took it while unread or pending, or it is an audit event without payload and was ACKed |
| StreamSafety.GoneByAck | go/cmd/event-writer/main.go:709-718 | what was handed out and is no longer pending was ACKed, or had been taken from the stream |
| StreamSafety.LeavesPendingOnlyWhenSettled | go/cmd/event-writer/main.go:445-561 | an ID leaves the pending list only by an ACK, when its event is already in the sink or the DLQ or is one the sink skips, or because it had been taken from the stream |
| StreamSafety.TrimSparesUnread | go/cmd/event-writer/retention.go:165-202 | a trim, interleaved with reads, never removes an unread entry |
| StreamSafety.TrimTakesExactly | go/cmd/event-writer/retention.go:165-202 | a trim takes an entry out of the stream, pending or not, if and only if it is older than the earlier of last-delivered time and age limit as observed before the XTRIM |
| StreamSafety.TrimmedPendingWasLate | go/cmd/event-writer/retention.go:104-202 | a pending entry a trim takes was delivered after its XPENDING check, and delivery lag plus trim duration exceed the maximum age |
| StreamSafety.VictimsAreTrimmedPending | go/cmd/event-writer/retention.go:102-163 | the entries counted as lost to trims are exactly the pending ones some trim removed |
| StreamSafety.NoVictimsExactly | go/cmd/event-writer/retention.go:17-20 | no pending entry was ever trimmed, if and only if at every trim each pending entry is at or above the bound |
| StreamSafety.NoVictims | go/cmd/event-writer/retention.go:17-20 | trims that are atomic, or timely, keep their bounds below what is pending |
| StreamSafety.CappedAreOvertaken | go/internal/events/redis.go:209-231 | the entries recorded as capped are exactly those some cap took while unread or pending |
| StreamSafety.CapTakesExactly | go/internal/events/redis.go:209-231 | an unread or pending entry is dropped by a cap if and only if it is before the first one kept, and at least the newest 200000 are kept |
| StreamSafety.NothingLostWithSafeTrims | go/cmd/event-writer/retention.go:14-20 | with trims that keep their bounds below what is pending, an event is lost if and only if it is unsettled and capped, or an audit event without payload off the pending list; in general all others are safe if and only if every trimmed pending entry was settled |
| StreamSafety.ReplayableRecords | go/cmd/event-writer/main.go:734-760 | a dead letter carries its event text if and only if its lookup succeeded while the entry was in the stream; a successful lookup finds every entry pending and not taken, and one that finds nothing comes after the event was settled, skipped or taken |
| StreamSafety.RecordsAreBuries | go/cmd/event-writer/main.go:746-760 | every record in the DLQ was put there by a call of the run |
| StreamSafety.TextSavedExactly | go/cmd/event-writer/main.go:734-760 | the DLQ has an event's text if and only if some record of it was written after a lookup that succeeded while the entry was in the stream |
| StreamSafety.LostPayloadsExplained | go/cmd/event-writer/main.go:734-760 | with safe trims, a record without its event's text comes from a failed lookup, or belongs to an event in the sink, recorded before, skipped by the sink or overtaken by a cap |
| StreamSafety.DeadLettersDeserved | go/cmd/event-writer/main.go:283-406 | every dead letter names an entry whose field has exactly the recorded fault, or that was stuck for over six hours; nothing storable is dead-lettered otherwise |
| StreamSafety.SinkHoldsWhatWasSent | go/cmd/event-writer/main.go:479-504 | every sink record is the decoded text of the entry under its ID, complete for its kind, audit payload included |
| StreamSafety.LateTrimLosesAnEvent | go/cmd/event-writer/retention.go:104-202 | a run in which a non-atomic trim and a crash lose an event |
| StreamSafety.BareAuditVanishes | go/internal/events/clickhouse.go:669-672 | a run without trim or cap in which an audit event without payload is ACKed and is nowhere |
| StreamSafety.FailedLookupLosesTheText | go/cmd/event-writer/main.go:734-760 | a run without stall, late trim or cap in which one failed XRANGE leaves an event's only record, and the whole system, without its text |
| StreamSafety.SecondRecordLosesThePayload | go/cmd/event-writer/main.go:734-760 | a run in which a reclaiming replica, stalled for over a day, writes a second dead letter without payload although every trim is atomic |
| Calls.ReadAdvances | go/cmd/event-writer/main.go:675-707 | a read moves the reading position by what it hands out and adds exactly that to the pending list |
| Calls.PrefixWas | go/cmd/event-writer/main.go:675-707 | appends by producers do not move the group's reading position |
| Calls.ClaimedPage | go/cmd/event-writer/main.go:244-279 | a page of a reclaim: every idle entry of its stretch still in the stream, and nothing else changed |
| Calls.ClaimTouches | go/cmd/event-writer/main.go:244-279 | whatever others did meanwhile, a reclaim leaves no entry of its stretch pending as it was when idle |
| Calls.Broker.Interfere | go/cmd/event-writer/main.go:4-13 | other replicas, producers and trims take guarded steps between any two calls |
| Calls.Broker.Ack | go/cmd/event-writer/main.go:709-718 | only IDs that are settled or skipped by the sink are ACKed; on success they are no longer pending |
| Calls.Broker.Lookup | go/cmd/event-writer/main.go:734-741 | the event text if the entry is still in the stream, otherwise nothing |
| Calls.Broker.AddDeadLetter | go/cmd/event-writer/main.go:746-760 | only deserved records with the looked-up payload are added |
| Calls.Broker.Emit | go/internal/events/clickhouse.go:456-483 | malformed if and only if validation fails; on success the event is in the sink, or is an audit event without payload, which always succeeds and is never written; a validating event of an unknown kind never succeeds |
| Calls.Broker.ReadGroup | go/cmd/event-writer/main.go:675-707 | a page of at most the limit from the reading position; empty only when nothing is unread |
| Calls.Broker.AutoClaim | go/cmd/event-writer/main.go:244-279 | a page with every idle entry up to the next cursor that is still in the stream; the cursor advances past at least one entry |
| Calls.Broker.PendingIsEmpty | go/cmd/event-writer/retention.go:105-115 | true if and only if the pending list was empty at one known moment; it fails only when Redis does |
| Calls.Broker.GroupInfo | go/cmd/event-writer/retention.go:117-148 | the last-delivered ID and the number of consumers at one known moment; it fails only when Redis does |
| Calls.Broker.Trim | go/cmd/event-writer/retention.go:198-202 | an XTRIM whose bound comes from the three observations made before it; it fails only when Redis does |
| Retention.RetentionManager.TrimUpTo | go/cmd/event-writer/retention.go:165-212 | trims at the earlier of the last-delivered time and the age limit, and nothing else; with Redis up it does trim |
| Retention.RetentionManager.Check | go/cmd/event-writer/retention.go:104-160 | refrains if and only if something was pending, or no one consumes, or nothing was delivered, as truly answered; undisturbed and with Redis up exactly by what was there |
| Retention.RetentionManager.TrimStream | go/cmd/event-writer/retention.go:102-163 | skips if and only if the answered checks forbid a trim, trims otherwise, and fails only when Redis does; what it removes had been delivered, and what of it is pending was delivered after its first look |
| Retention.TrimIsSafe | go/cmd/event-writer/retention.go:14-20 | the same for the trim that ends any run |
| WriterSpec.BatchSplits | go/cmd/event-writer/main.go:471-490 | the valid and malformed parts of a batch together are the batch |
| WriterSpec.FlushComposes | go/cmd/event-writer/main.go:445-561 | the three passes and the poison pass together flush the batch: valid part accepted by the sink in order, the rest one dead letter each, none pending |
| WriterSpec.FlushFinishes | go/cmd/event-writer/main.go:445-561 | whatever others do, a flush that succeeds leaves every entry that was in memory off the pending list and accepted by the sink or dead-lettered with a lookup of its text |
| WriterSpec.FinishedNext | go/cmd/event-writer/main.go:590-620 | what was settled while a page is read stays so, and what one more entry pushes out of memory is settled too |
| WriterSpec.TracksPoison | go/cmd/event-writer/main.go:590-611 | noting a poison entry keeps sink, dead letters and memory in balance with one-at-a-time handling |
| WriterSpec.TracksCandidate | go/cmd/event-writer/main.go:613-614 | adding an event to the batch keeps the balance |
| WriterSpec.TracksFlush | go/cmd/event-writer/main.go:445-561 | a fault-free flush keeps the balance with nothing left in memory |
| WriterSpec.FreshEntry | go/cmd/event-writer/main.go:675-707 | an entry is never handed to a lone consumer twice |
| WriterSpec.OneMoreTurn | go/cmd/event-writer/main.go:563-622 | the turns of the main loop add up: every flush tick leaves nothing read unsettled, every recovery tick is a whole sweep, every other turn reads something or finds everything read |
| WriterSpec.DrainedInOrderOnce | go/cmd/event-writer/main.go:492-504 | what a fault-free run adds to the sink is in strictly increasing ID order, so each event once |
| WriterSpec.SweepStep | go/cmd/event-writer/main.go:244-415 | one undisturbed page moves the sweep on: every idle entry behind the cursor was claimed, or had been taken from the stream and is off the pending list |
| WriterSpec.TouchedStep | go/cmd/event-writer/main.go:244-415 | the same under interference: every entry behind the cursor that was idle at the start has been handed on or left the pending list |
| WriterSpec.RecoveredNext | go/cmd/event-writer/main.go:281-407 | whatever others do, recovery stays done with what it was done with, and one more page adds its entries: those whose write failed, and the rest |
| WriterSpec.SweepLeaves | go/cmd/event-writer/main.go:244-415 | what an undisturbed sweep with Redis up leaves pending, apart from entries taken from the stream: exactly those it did not claim and the claimed ones whose write failed, and of the idle entries exactly the latter; every claimed entry to be given up on has a dead letter |
| WriterSpec.HopelessStay | go/cmd/event-writer/main.go:352-406 | undisturbed, every young well-formed entry stays pending, unless taken, if the sink is down or does not know its kind |
| WriterSpec.AllSwept | go/cmd/event-writer/main.go:244-415 | a sweep over idle entries in which no write failed leaves nothing pending |
| WriterSpec.AheadShrinks | go/cmd/event-writer/main.go:409-414 | every page that does not end the sweep leaves strictly fewer entries ahead of the cursor |
| WriterSpec.CaughtUp | go/cmd/event-writer/main.go:563-622 | once everything is read and nothing is pending, every earlier event is settled, skipped by the sink, or was taken from the stream |
| EventWriter.SomeOrder | go/cmd/event-writer/main.go:451-463 | the noted poison entries in any order, each once |
| EventWriter.EventConsumer.MoveToDLQ | go/cmd/event-writer/main.go:743-760 | success puts exactly one more record for the ID into the DLQ; with Redis up it does, after a lookup of the text that succeeded |
| EventWriter.EventConsumer.AckMessages | go/cmd/event-writer/main.go:709-718 | success takes exactly these IDs off the pending list |
| EventWriter.EventConsumer.BuryAndAck | go/cmd/event-writer/main.go:452-462 | DLQ before ACK, and no ACK without the DLQ record; with Redis up the record follows a lookup of the text |
| EventWriter.EventConsumer.BuryEach | go/cmd/event-writer/main.go:541-552 | every entry is tried in order whatever fails; those that succeed have a record and are not pending; with Redis up that is all of them, one record each, after a lookup of the text |
| EventWriter.EventConsumer.FlushPoison | go/cmd/event-writer/main.go:450-467 | every noted entry is tried once whatever fails, with the same outcome; the note is cleared either way |
| EventWriter.EventConsumer.Separate | go/cmd/event-writer/main.go:471-490 | the batch split into valid events with their IDs and malformed IDs, in order |
| EventWriter.EventConsumer.WriteAll | go/cmd/event-writer/main.go:496-504 | one attempt: success means the sink accepted all events and those it does not skip were appended in order; no success with an event that the sink refuses |
| EventWriter.EventConsumer.WriteValid | go/cmd/event-writer/main.go:492-539 | up to three attempts and one ACK; clean only if the first attempt and the ACK succeeded; a failed attempt is remembered, and every attempt but a successful last one is a failed sink write; one refused event fails all three attempts and the whole batch stays pending |
| EventWriter.EventConsumer.Flush | go/cmd/event-writer/main.go:445-561 | fault-free: the batch is flushed whole; failed ACK: memory is kept; failed attempt: memory is dropped and the malformed part stays pending; one valid event of an unknown kind, or any with the sink down, always ends the flush so, and the valid events beside it stay pending too; reported flushed only when the sink accepted every valid event and they are off the pending list; with Redis up a reported flush settles all that was in memory, whatever others do |
| EventWriter.EventConsumer.FlushTracked | go/cmd/event-writer/main.go:445-561 | a flush empties the poison note, and empties the batch unless its ACK failed; fault-free it settles all that was in memory and keeps the balance with one-at-a-time handling |
| EventWriter.EventConsumer.Absorb | go/cmd/event-writer/main.go:590-620 | every entry goes into the batch or the poison note with its reason, and a full batch is flushed; the batch stays below its size unless some ACK failed; what leaves memory without faults is settled; the balance with one-at-a-time handling is kept |
| EventWriter.EventConsumer.AbsorbPage | go/cmd/event-writer/main.go:590-620 | the same for a whole page, in order |
| EventWriter.EventConsumer.Poll | go/cmd/event-writer/main.go:581-621 | one page read and parsed; an empty page means everything was read; what leaves memory without faults is settled |
| EventWriter.EventConsumer.Turn | go/cmd/event-writer/main.go:563-622 | one turn: a flush tick leaves nothing read unsettled, a recovery tick sweeps, and otherwise something new is read or everything had been; fault-free and undisturbed it keeps the balance with one-at-a-time handling |
| EventWriter.EventConsumer.EmitRecovered | go/cmd/event-writer/main.go:352-376 | three failed sink writes for a transient failure, one for a malformed event |
| EventWriter.EventConsumer.RecoverOne | go/cmd/event-writer/main.go:281-407 | with Redis up a stuck or poison entry gets a dead letter, after a lookup of its text, and leaves the pending list, whatever the sink does, others do or a trim takes; a young well-formed entry either is accepted and leaves it too, or its write failed three times and, undisturbed, it stays; it cannot fail with a healthy sink and a known kind, and must fail with a sink that is down or an unknown kind |
| EventWriter.EventConsumer.RecoverEvent | go/cmd/event-writer/main.go:352-406 | accepted and ACKed, dead-lettered and ACKed if and only if malformed, otherwise left pending; which of them, as far as the state of the sink and the kind decide it |
| EventWriter.EventConsumer.RecoverMessages | go/cmd/event-writer/main.go:281-407 | the same for all entries of a page; undisturbed, none but entries whose write did not fail leave the pending list |
| EventWriter.EventConsumer.RecoverPending | go/cmd/event-writer/main.go:230-425 | the cursor loop ends; whatever others do, with Redis up each claimed entry that must be given up on has a dead letter written after a lookup of its text and is not pending, each other one is settled and not pending unless it is young, well-formed and its write failed three times, and no entry idle at the start is still pending untouched; undisturbed every idle entry is claimed or had been taken from the stream, and each claimed entry whose write failed stays pending, unless taken |
| EventWriter.EventConsumer.Run | go/cmd/event-writer/main.go:427-623 | whatever others do, every turn does its part, recovery ticks included, and without faults everything that was read ends up off the pending list and accepted by the sink or dead-lettered; fault-free and undisturbed, whatever the batch size, pages and flush times: the sink got exactly the valid events with a payload in stream order, the DLQ exactly the invalid ones, nothing of it is pending, and at least one entry was read per reading turn until none was left; in every run the batch stays below its size unless an ACK failed |
| EventWriter.EventConsumer.CatchUp | go/cmd/event-writer/main.go:563-622 | from any reachable state, one fault-free sweep over idle entries, reads and a flush leave nothing pending; with atomic trims and no cap every earlier event is in the sink or the DLQ, except audit events without payload |
| Executor.HandleKeepsDiscipline | go/internal/a2a/executor.go:150-225 | handling an event keeps the output grammar |
| Executor.ConcludeKeepsDiscipline | go/internal/a2a/executor.go:227-247 | so does using the workflow's result |
| Executor.StepKeepsDiscipline | go/internal/a2a/executor.go:65-252 | so does every step of the loop, the goroutine or the outside world |
| Executor.OutputGrammar | go/internal/a2a/executor.go:142-252 | in every interleaving: the task, then exactly the artifacts of the consumed token and file events in order, then at most one final text and one status; the final text never after a token or file |
| Executor.StatusIsLast | go/internal/a2a/executor.go:142-252 | nothing is yielded after the terminal status |
| Executor.StepExplains | go/internal/a2a/executor.go:142-252 | every step keeps the loop and its output explained by what it was told |
| Executor.OutputIsTheStory | go/internal/a2a/executor.go:65-252 | in every interleaving the output is decided by what the loop was told: completed if and only if `done` came, or a good result before any `done`; failed if and only if refused, `error`, or a bad result with no `done` before it; the text of the result if and only if it came without an error, is not empty, nothing was streamed, and a failed run had been `done`; no status if and only if the loop has not returned or left early; the events taken are the first that arrived |
| Executor.RunIsConsistent | go/internal/a2a/executor.go:129-137 | where the loop is and where the goroutine is fit together |
| Executor.Progress | go/internal/a2a/executor.go:129-252 | from every reachable state the loop has returned, it or the goroutine can step, the result is still to come, or the run is stuck after a `done` with nothing streamed |
| Executor.StuckForever | go/internal/a2a/executor.go:207-219 | nothing ever frees a stuck run |
| Executor.StrandsExactly | go/internal/a2a/executor.go:129-219 | after `done` with nothing streamed a run can get stuck if and only if the goroutine has not sent its result |
| Executor.DoneCanStrand | go/internal/a2a/executor.go:129-219 | a run that gets stuck |
| RunWorkflow.RunExecutor.Execute | go/internal/a2a/executor.go:53-253 | the code only takes steps of the machine and obeys the output grammar; completed, failed or no status as `OutputIsTheStory` says, and no status only when the consumer or the caller's context ended it; nothing is yielded after the consumer stops; it returns unless it waits for something no one will bring |
| RunWorkflow.RunExecutor.Drain | go/internal/a2a/executor.go:148-252 | the select loop is a run of the machine |
| RunWorkflow.RunExecutor.HandleEvent | go/internal/a2a/executor.go:150-225 | one received event is handled as the machine does |
| RunWorkflow.RunExecutor.Stream | go/internal/a2a/executor.go:157-205 | a token or file event yields its artifact; the loop ends if the consumer stops |
| RunWorkflow.RunExecutor.HandleDone | go/internal/a2a/executor.go:207-219 | completed at once if anything was streamed, otherwise after the result, with its text |
| RunWorkflow.RunExecutor.HandleError | go/internal/a2a/executor.go:221-225 | a failed status and the end |
| RunWorkflow.RunExecutor.AwaitFinalText | go/internal/a2a/executor.go:210-219 | returns, or waits for a result no one will send |
| RunWorkflow.RunExecutor.YieldFinalText | go/internal/a2a/executor.go:240-245 | the final text goes out unless the result failed, is empty or something was streamed |
| RunWorkflow.RunExecutor.HandleResult | go/internal/a2a/executor.go:227-247 | failed for an error or a failed run; otherwise the text, if there is one and nothing was streamed, and completed, unless the consumer stopped at the text |
| RunWorkflow.RunExecutor.Refuse | go/internal/a2a/executor.go:71-117 | a failed set-up yields one failed status and returns |
| FanIn.MergeEventChannels | go/internal/a2a/executor.go:255-288 | what was sent plus the event in hand is always a shuffle of what was received; it closes only with a full shuffle of both inputs or by the cancellation, not before that; it does close when both inputs do or the context is cancelled |
| FanIn.ShuffleIsAnInterleaving | go/internal/a2a/executor.go:255-288 | a shuffle is exactly an order-preserving interleaving of its inputs |
| FanIn.ShuffleConserves | go/internal/a2a/executor.go:255-288 | nothing is dropped, duplicated or made up |
| SseFrames.SplitIsTheOnlyCut | frontend/src/lib/api.ts:378-379 | the pieces are the one way to cut a text at blank lines, leftmost first |
| SseFrames.SplitExtends | frontend/src/lib/api.ts:373-379 | splitting with the carried buffer continues the split of the text so far, even when a chunk ends inside a blank line |
| SseFrames.FramesAreFinal | frontend/src/lib/api.ts:374-385 | a frame once delivered is a frame of the whole response, delivered as soon as its end has arrived |
| SseFrames.VoiceStream | frontend/src/lib/api.ts:371-385 | whatever the chunks, the frames read are those of the whole response; the carried buffer is its unfinished last piece |
| SseFrames.A2AStream | frontend/src/lib/api.ts:420-452 | the same for the other reader |
| SseFrames.YieldVoice | frontend/src/lib/api.ts:380-384 | the parsed bodies of the frames that begin with a data line, malformed ones skipped |
| SseFrames.YieldA2A | frontend/src/lib/api.ts:429-451 | the parsed bodies of the first data line of each frame |
| SseFrames.FindDataLine | frontend/src/lib/api.ts:430-431 | the first trimmed line that is a data line |
| SseFrames.TrimIsTheCore | frontend/src/lib/api.ts:381-383 | trimming takes off the white space around a text and nothing else |
| SseFrames.VoiceBodyExact | frontend/src/lib/api.ts:380-383 | the first reader takes a frame if and only if it begins, after white space, with `data:`, and its body is the trimmed rest |
| SseFrames.LinesAreTheOnlyCut | frontend/src/lib/api.ts:430 | the lines of a frame are the one way to cut it at line feeds |
| SseFrames.A2ABodyExact | frontend/src/lib/api.ts:430-433 | the second reader takes the first line that begins, after white space, with `data:`, wherever it stands, and no frame without one |
| SseFrames.RoundTrip | frontend/src/lib/api.ts:371-385 | one-line bodies sent one frame each are delivered exactly and in order, for every way of cutting them into chunks |
| SseFrames.NoFrameExactly | frontend/src/lib/api.ts:378-379 | a text completes no frame if and only if it has no two line feeds in a row |
| SseFrames.CarriageReturnsDeliverNothing | frontend/src/lib/api.ts:378-381 | so a stream with CR LF line ends delivers nothing |
| GraphWalk.ReachablePredecessors | frontend/src/lib/graphWalk.ts:15-28 | ends with exactly the nodes that have a non-empty path to the target |
| GraphWalk.ReachableSuccessors | frontend/src/lib/graphWalk.ts:34-47 | ends with exactly the nodes that have a non-empty path from the source |
| GraphWalk.FlipDual | frontend/src/lib/graphWalk.ts:15-47 | walking backwards is walking forwards in the flipped graph |
| GraphWalk.OnCycle | frontend/src/lib/graphWalk.ts:20-26 | a node reaches itself if and only if one of its edges leads back to it |
| GraphWalk.StartCanBeItsOwnPredecessor | frontend/src/lib/graphWalk.ts:11-14 | a graph in which the target is among its own predecessors |
| GraphWalk.PathIntoClosed | frontend/src/lib/graphWalk.ts:18-26 | a set closed under the walk holds every node with a path to the target |
| Migrations.IsSuperseded | scripts/check_migrations.py:49-55 | true if and only if a later file drops the object or its table |
| Migrations.IsDownExactly | scripts/check_migrations.py:82 | `DOWN` stands somewhere in the name |
| Migrations.FindDrift | scripts/check_migrations.py:77-97 | both dictionaries hold, under each file name, exactly the findings of its files in order, and no empty lists |
| Migrations.CheckFile | scripts/check_migrations.py:84-96 | one file's findings are appended, each to the right dictionary |
| Migrations.UnderExact | scripts/check_migrations.py:84-96 | listed as unexplained under a name if and only if declared by its file, absent, not dropped later and not known |
| Migrations.UnderPlaces | scripts/check_migrations.py:77-97 | what either dictionary holds under a name, exactly: every absent object of its files, in the order of files and objects, each once, as dropped by a later migration, else as known with its reason, else as missing |
| Migrations.Stays | scripts/check_migrations.py:49-55 | what no later file drops is still in the catalog at the end of the replay |
| Migrations.BlameIsExact | scripts/check_migrations.py:81-96 | whichever migrations were applied, an applied one is reported only for a column whose table was missing when it ran, and then exactly if the table came later |
| Migrations.NoFalseAlarm | scripts/check_migrations.py:77-97 | with every migration applied and every added column's table in place, nothing is unexplained even with no known drift |
| Migrations.LateTableAlarms | scripts/check_migrations.py:87-96 | a false alarm when the table comes after the column |
| Migrations.SkippedTableFound | scripts/check_migrations.py:81-96 | a table that was absent when the skipped file would have run, and that no applied file creates later, is reported under it if and only if no later file drops it and it is not known |
| Migrations.SkippedColumnFound | scripts/check_migrations.py:81-96 | a column that was absent when the skipped file would have run, and that no applied file adds later, is reported under it if and only if its table is there in the end, no later file drops it and it is not known; if the table is not there although it was in place for the skipped file or is created by it, then the file creates it and the table is reported in its place if and only if it is not known |
| Migrations.DownFileMasks | scripts/check_migrations.py:79-83 | a `DOWN` file hides a skipped migration |
| HumanWait.HITLStore.Get | go/internal/agentgen/hitl_store.go:83-98 | what the store holds at that moment; unreadable only when Redis fails |
| HumanWait.HITLStore.UpdateWaitToken | go/internal/agentgen/hitl_store.go:100-116 | on success stores token, step and waiting state, over whatever others wrote since its Get; a failure may still have stored them, and nothing else; undisturbed and with Redis up it succeeds if and only if there is a handle |
| HumanWait.HITLStore.MarkDone | go/internal/agentgen/hitl_store.go:148-152 | removes the handle, or, only when Redis fails, writes nothing |
| HumanWait.HITLRequestHandler.SyncHITLState | go/cmd/agent-runtime/hitl.go:38-66 | whatever others write meanwhile: from what the store answered and confirmed, which handle is returned, whether there is one, and what may have been written; undisturbed and with Redis up, the returned and the stored handle have the wait the workflow is in |
| HumanWait.HITLRequestHandler.SubscribeToTask | go/cmd/agent-runtime/hitl.go:78-152 | delegated if and only if there is no querier, no handle or a failed query; announced are the handle's own wait and every other one a poll finds open, none twice in a row; then, once the workflow is over, its text and completed, or failed, or nothing without an awaiter; it stops early only when the consumer or the context does, and yields nothing after that; undisturbed and with Redis up the store ends with the wait seen last, or empty when the workflow is over |
| HumanWait.HITLRequestHandler.Watch | go/cmd/agent-runtime/hitl.go:85-151 | the same for the polling itself |
| HumanWait.FollowingNext | go/cmd/agent-runtime/hitl.go:134-148 | one more poll adds a prompt exactly when it finds a wait other than the one seen last |
| HumanWait.HITLRequestHandler.Finish | go/cmd/agent-runtime/hitl.go:108-132 | the text and completed, or failed, or nothing; the handle is dropped, or kept when the consumer leaves at the text |
| HumanWait.YieldedConcludes | go/cmd/agent-runtime/hitl.go:103-132 | after the prompts at most one artifact and one status: completed, directly after the text, if and only if there is a result; failed if and only if asking for it fails; only prompts without an awaiter or before the workflow is over |
| HumanWait.YieldedAnnounces | go/cmd/agent-runtime/hitl.go:87-148 | exactly the waits found open are announced, apart from the handle's own, which is announced if it was waiting; none twice in a row |
| HumanWait.AnnouncedOnce | go/cmd/agent-runtime/hitl.go:89-148 | each wait is announced at most once if and only if no token comes back after another |
| HumanWait.FreshTokens | go/internal/temporal/canvas_workflow.go:264-275 | polls of a workflow that gives each wait a token of its own never see one come back |
| HumanWait.SubscriptionGrammar | go/cmd/agent-runtime/hitl.go:85-151 | one subscription to such a workflow: prompts, no two for the same wait, then at most one artifact and one status, which are those of the result |
| HumanWait.OpenWaitsAnnounced | go/cmd/agent-runtime/hitl.go:134-148 | every wait seen open is announced unless it was the handle's from the start |
| HumanWait.Current | go/cmd/agent-runtime/hitl.go:134-148 | the last announcement is for the wait seen last |
| HumanWait.ReusedTokenIsAnnouncedTwice | go/cmd/agent-runtime/hitl.go:134-148 | a token that comes back is announced again |
| SpecCache.KeysOfPlainTenants | go/cmd/agent-runtime/spec.go:32-36 | colon-free tenants never share a key |
| SpecCache.KeysInCache | go/cmd/agent-runtime/spec.go:53-61 | a stored key can be asked for by its own pair only, whatever the asking tenant |
| SpecCache.KeysCanCollide | go/cmd/agent-runtime/spec.go:32-36 | the key function alone does not separate tenants with colons |
| SpecCache.StalenessBound | go/cmd/agent-runtime/spec.go:38-51 | an unexpired entry was its pair's row less than 60 s and one load ago |
| SpecCache.UpdatesArrive | go/cmd/agent-runtime/spec.go:38-72 | a row unchanged for 60 s and one load is what loads return |
| SpecCache.Runtime.Get | go/cmd/agent-runtime/spec.go:38-45 | a hit if and only if there is an unexpired entry; it was, for the pair it was filled for, the database's row less than 60 s and one load ago; after a miss nothing was stored under the key within 60 s |
| SpecCache.Runtime.Set | go/cmd/agent-runtime/spec.go:47-51 | one entry replaced, valid for 60 s; every entry stays backed |
| SpecCache.Runtime.Fetch | go/cmd/agent-runtime/spec.go:58-71 | after a miss: the database's answer, stored with a validity of 60 s if it is a spec |
| SpecCache.Runtime.LoadSpecByAgentID | go/cmd/agent-runtime/spec.go:53-72 | a valid entry is always used, so a load fails only if it had to ask and the database is down, the identifiers are no UUIDs, or the pair has no row that decodes; a returned spec was the row of exactly the asked pair less than 60 s and the filling load's duration ago, and is in the cache afterwards; undisturbed, result and cache are decided by what was there |
| Slug.Slugify | go/internal/admin/agents.go:627-645 | the passes compute the letters and digits joined by single underscores, cut to 48 |
| Slug.PassesComputeSlug | go/internal/admin/agents.go:628-644 | the pipeline equals that normal form, whatever the Unicode tables say outside ASCII |
| Slug.RunsAreNormal | go/internal/admin/agents.go:638-639 | runs replaced and trimmed are in normal form |
| Slug.EveryTextIsWoven | go/internal/admin/agents.go:627-645 | every text is words of letters and digits with gaps around them |
| Slug.SlugOfWeave | go/internal/admin/agents.go:627-645 | whatever the gaps, the slug is the words with single underscores between them, cut to 48 characters, or 47 where the 48th is an underscore |
| Slug.SlugIsCanonical | go/internal/admin/agents.go:622-624 | at most 48 characters of `[a-z0-9_]`, no underscore first, last or doubled |
| Slug.FixedPoints | go/internal/admin/agents.go:627-645 | a text is its own slug if and only if it is canonical |
| Slug.Idempotent | go/internal/admin/agents.go:627-645 | the slug of a slug is the slug |
| Slug.SlugKeepsTheLetters | go/internal/admin/agents.go:627-645 | letters and digits are kept in order, except for a cut at the end that loses no more than it must |

## Left out

- Calls.Broker.Interfere: others' steps are bounded in number by `budget`, which is a parameter of every statement; unbounded runs are covered only through their finite prefixes.
- Calls.Broker.AutoClaim: the page size of 100 is not modelled; any page that makes progress is allowed. Which consumer owns a pending entry is not tracked, since no decision of the code depends on it.
- Calls.Broker.Emit: a sink that is neither healthy nor down fails at random; which of its writes fail is not a function of anything. Events of unknown kinds, which validate and fail at every write (`go/internal/events/clickhouse.go:473-474`), are excluded from fault-free runs by `knownKinds`.
- EventWriter.EventConsumer.Run: flush and recovery tickers are given as a sequence of wakeups; sleeping, backoff and the pause after three failures (`consecutiveFailures`) change no state and are left out. The fault-free result is for runs in which no producer's cap is reached meanwhile (`alone`); `CapTakesExactly` says what a cap takes.
- EventWriter.EventConsumer.CatchUp: the start-up call of `RecoverPending` followed by the read loop, up to the first empty page, as one method.
- EventLog.CapStep: the approximate `MAXLEN` is a call of its own after the append, and may keep any number of entries from 200000 up.
- Migrations.FindDrift: live tables and columns are one set of objects; columns named inside CREATE TABLE are not objects, since `declared` does not see them; within a file drops come before creates, and a column added to an absent table is not created.
- HumanWait.HITLRequestHandler.SubscribeToTask: a prompt carries its token in the model only; the inner handler a subscription is delegated to is not part of this model.
- FanIn.MergeEventChannels: the context is cancelled after a given number of channel operations, or while the goroutine waits; a send to the buffered output never blocks.
- RunWorkflow.RunExecutor.Stream: the payload of a file event is its name and final URL; the security gate's rewriting of that URL and the content type are not modelled.
- SseFrames.A2AStream: JSON parsing and the choice among task, artifact and status frames are the parameter `parse`; UTF-8 decoding of chunks happens before the model starts.
- Slug.Slugify: `unicode.IsLetter`, `IsDigit` and `ToLower` are parameters, exact on ASCII only; `TrimSpace` meets only blanks, because the builder writes nothing else that is white space.
- SpecCache.Runtime.LoadSpecByAgentID: the casts of both identifiers to UUIDs are modelled as refusing texts with a colon; the mutex makes each `get` and `set` one step.
- The dead-letter stream is append-only: its length and age trimming (`go/cmd/event-writer/retention.go:247-279`) are left out.
- The event writer's counters, log lines, health server and lag query, and the XLEN counts around a trim.
- `HITLStore.TrySignal` and the signal endpoint: best-effort by their own comment, so at-most-once signalling is not claimed.
- Token collisions of the truncated hash in `hitlWaitToken`: `FreshTokens` takes distinct tokens as given.
- Migration linting, `parse_known_drift`, regular expressions over SQL text, and the other admin, frontend and agent code: single-branch logic or I/O.
