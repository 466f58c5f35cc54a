/** The calls one replica makes: Redis commands and sink writes, each an atomic step of the shared run,
    with any number of steps by other processes before it.

    The remaining steps of the others are finite in any finite run: `budget` counts them. */
module Calls {
  import opened Prelude
  import opened EventLog
  import opened StreamSafety

  datatype SinkMode = Healthy | Flaky | Down

  datatype EmitResult = Emitted | Malformed | Transient

  datatype ClaimReply = Page(next: StreamId, messages: seq<Entry>) | Nothing | ClaimFailed

  function EntryIds(entries: seq<Entry>): (ids: seq<StreamId>)
    ensures |ids| == |entries|
    ensures forall k :: 0 <= k < |ids| ==> ids[k] == entries[k].id
  {
    seq(|entries|, k requires 0 <= k < |entries| => entries[k].id)
  }

  /** The entry was handed out, and is as it was appended. */
  predicate Handed(w: World, e: Entry) {
    e.id in w.body && w.body[e.id] == e.field && Delivered(w, e.id)
  }

  /** The group's reading position: the entries from the `k`th on are unread and no other. */
  predicate ReadTo(w: World, k: nat) {
    && k <= |w.log|
    && (forall i :: 0 <= i < k ==> !Unread(w, w.log[i]))
    && (forall i :: k <= i < |w.log| ==> Unread(w, w.log[i]))
  }

  /** The sink has the event, or is one that it skips. */
  predicate Accepted(w: World, id: StreamId) { id in SinkIds(w.sink) || Ignorable(w, id) }

  /** What an accepted write of the event adds to the sink. */
  function Record(id: StreamId, event: Event): seq<SinkRecord> {
    if Skipped(event) then [] else [SinkRecord(id, event)]
  }

  /** A sink in this mode is sure to accept the event once it validates. */
  predicate Takes(mode: SinkMode, event: Event) {
    Skipped(event) || (mode.Healthy? && event.kind in KNOWN_KINDS)
  }

  /** A sink in this mode fails every write of the event: it is down, or does not know the kind. */
  predicate Refuses(mode: SinkMode, event: Event) {
    !Skipped(event) && (mode.Down? || event.kind !in KNOWN_KINDS)
  }

  /** A field the sink can store if it validates: its kind is one of the four. */
  predicate KnownField(f: Field) {
    WellFormed(f) ==> Parse(f).event.kind in KNOWN_KINDS
  }

  predicate KnownKinds(w: World) {
    forall id :: id in w.body ==> KnownField(w.body[id])
  }

  /** Nothing was handed out and no cap took anything unread. */
  predicate SamePosition(w: World, v: World) {
    v.lastDelivered == w.lastDelivered && v.capped == w.capped
  }

  /** Nothing that belongs to the consumers of the group changed. */
  predicate Undisturbed(w: World, v: World) {
    v.sink == w.sink && v.dlq == w.dlq && v.pending == w.pending && SamePosition(w, v)
  }

  predicate OnlySink(w: World, v: World) {
    v.dlq == w.dlq && v.pending == w.pending && SamePosition(w, v)
  }

  predicate OnlyDlq(w: World, v: World) {
    v.sink == w.sink && v.pending == w.pending && SamePosition(w, v)
  }

  predicate OnlyPending(w: World, v: World) {
    v.sink == w.sink && v.dlq == w.dlq && SamePosition(w, v)
  }

  lemma HandedStays(w: World, v: World, e: Entry)
    requires Evolves(w, v) && Handed(w, e)
    ensures Handed(v, e)
  {
  }

  lemma ClearStays(w: World, v: World, ids: set<StreamId>)
    requires Evolves(w, v) && forall id :: id in ids ==> Clear(w, id)
    ensures forall id :: id in ids ==> Clear(v, id)
  {
  }

  /** The unread entries are the tail of the log. */
  lemma UnreadIsATail(w: World, from: nat)
    requires Inv(w) && from <= |w.log|
    requires forall k :: 0 <= k < from ==> !Unread(w, w.log[k])
    requires from < |w.log| ==> Unread(w, w.log[from])
    ensures ReadTo(w, from)
  {
    forall k | 0 <= k < |w.log|
      ensures w.log[k] in w.body
    {
      IdSetIsContents(w.log, w.log[k]);
    }
  }

  /** What is read does not become unread, nor the other way round, unless entries are handed out or capped. */
  lemma UnreadStays(w: World, v: World, id: StreamId)
    requires Inv(w) && Inv(v) && Evolves(w, v) && SamePosition(w, v) && id in w.body
    ensures Unread(w, id) <==> Unread(v, id)
  {
    hide Records, Accounts, IdSet, Sorted;
  }

  lemma AppendedIsUnread(w: World, v: World, i: nat)
    requires Inv(w) && Inv(v) && w.log <= v.log && SamePosition(w, v)
    requires |w.log| <= i < |v.log|
    ensures Unread(v, v.log[i])
  {
    hide Records, Accounts;
    IdSetIsContents(v.log, v.log[i]);
    forall id | id in w.body
      ensures Before(id, v.log[i])
    {
      IdSetIsContents(w.log, id);
    }
  }

  lemma LoggedIsStored(w: World, i: nat)
    requires Inv(w) && i < |w.log|
    ensures w.log[i] in w.body
  {
    IdSetIsContents(w.log, w.log[i]);
  }

  lemma LogOnlyGrows(w: World, v: World)
    requires Evolves(w, v)
    ensures w.log <= v.log
  {
  }

  /** Appending moves no one's reading position. */
  lemma PrefixWas(w: World, v: World, k: nat)
    requires Inv(w) && Inv(v) && Evolves(w, v) && SamePosition(w, v)
    requires ReadTo(v, k)
    ensures ReadTo(w, k)
  {
    hide Inv, Unread, SamePosition;
    LogOnlyGrows(w, v);
    hide Evolves;
    if |w.log| < |v.log| {
      AppendedIsUnread(w, v, |w.log|);
    }
    forall i | 0 <= i < |w.log|
      ensures v.log[i] == w.log[i] && (Unread(w, w.log[i]) <==> Unread(v, v.log[i]))
    {
      LoggedIsStored(w, i);
      UnreadStays(w, v, w.log[i]);
    }
  }

  lemma PrefixStays(w: World, v: World, k: nat)
    requires Inv(w) && Inv(v) && Evolves(w, v) && SamePosition(w, v)
    requires ReadTo(w, k)
    ensures ReadTo(v, k)
  {
    hide Inv, Unread, SamePosition;
    LogOnlyGrows(w, v);
    hide Evolves;
    forall i | |w.log| <= i < |v.log|
      ensures Unread(v, v.log[i])
    {
      AppendedIsUnread(w, v, i);
    }
    forall i | 0 <= i < |w.log|
      ensures v.log[i] == w.log[i] && (Unread(w, w.log[i]) <==> Unread(v, v.log[i]))
    {
      LoggedIsStored(w, i);
      UnreadStays(w, v, w.log[i]);
    }
  }

  lemma OnePrefix(w: World, j: nat, k: nat)
    requires ReadTo(w, j) && ReadTo(w, k)
    ensures j == k
  {
    hide Unread;
    assert j < |w.log| ==> Unread(w, w.log[j]);
    assert k < |w.log| ==> Unread(w, w.log[k]);
  }

  lemma NoIds()
    ensures IdSet([]) == {}
  {
  }

  /** After a read, exactly what it handed out is new among the read and the pending. */
  lemma ReadAdvances(w: World, from: nat, count: nat)
    requires Inv(w) && ReadTo(w, from) && NextUnread(w, from, count)
    ensures var v := Apply(w, Deliver(from, count));
            && ReadTo(v, from + count)
            && v.pending.Keys == w.pending.Keys + IdSet(w.log[from..from + count])
            && v.log == w.log && v.sink == w.sink && v.dlq == w.dlq && v.capped == w.capped
  {
    hide IdSet, Records, Accounts;
    if count == 0 {
      assert w.log[from..from] == [];
      NoIds();
    }
  }

  /** The entries stored under a stretch of the log. */
  function Entries(w: World, from: nat, to: nat): (es: seq<Entry>)
    requires from <= to <= |w.log|
    requires forall k :: from <= k < to ==> w.log[k] in w.body
    ensures |es| == to - from
    ensures forall k :: 0 <= k < |es| ==> es[k] == Entry(w.log[from + k], w.body[w.log[from + k]])
  {
    seq(to - from, k requires 0 <= k < to - from => Entry(w.log[from + k], w.body[w.log[from + k]]))
  }

  lemma NowOnlyGrows(w: World, v: World)
    requires Evolves(w, v)
    ensures w.now <= v.now
  {
  }

  lemma ClaimIsFree(ws: seq<World>, i: nat, cursor: StreamId, next: Option<StreamId>, minIdle: int)
    requires i < |ws|
    ensures Guard(ws, i, Claim(cursor, next, minIdle))
  {
  }

  lemma HandedByRead(w: World, from: nat, count: nat)
    requires Inv(w) && NextUnread(w, from, count)
    requires forall k :: from <= k < from + count ==> w.log[k] in w.body
    ensures forall k :: from <= k < from + count ==>
              Handed(Apply(w, Deliver(from, count)), Entry(w.log[k], w.body[w.log[k]]))
  {
    if count > 0 {
      ReadIsNext(w, from, count);
    }
  }

  /** The stretch of the pending list one XAUTOCLAIM page covers: up to the next cursor, "0-0" at the end. */
  function UpTo(next: StreamId): Option<StreamId> {
    if next == ZERO then None else Some(next)
  }

  /** What XAUTOCLAIM hands to its caller. */
  predicate Claimable(w: World, id: StreamId, cursor: StreamId, next: Option<StreamId>, minIdle: int) {
    id in w.pending && InRange(id, cursor, next) && Idle(w, id, minIdle) && InStream(w, id)
  }

  lemma ClaimKeeps(w: World, cursor: StreamId, next: Option<StreamId>, minIdle: int)
    requires Inv(w)
    ensures var v := Apply(w, Claim(cursor, next, minIdle));
            && v.sink == w.sink && v.dlq == w.dlq && SamePosition(w, v) && v.body == w.body
            && (forall id :: id in v.pending ==> id in w.pending)
            && (forall id :: id in v.pending && !InRange(id, cursor, next) ==> v.pending[id] == w.pending[id])
            && (forall id :: id in w.pending && id !in v.pending ==> InRange(id, cursor, next) && Taken(v, id))
            && (forall id :: Claimable(w, id, cursor, next, minIdle) ==>
                  id in v.pending && id in v.body && Delivered(v, id))
            && (forall id :: id in w.pending && InRange(id, cursor, next) && Idle(w, id, minIdle) && id in v.pending ==>
                  Claimable(w, id, cursor, next, minIdle))
  {
  }

  /** The run so far: its states, its calls, its last state, and how many steps the other processes
      may still take. */
  datatype Run = Run(ws: seq<World>, ops: seq<Op>, w: World, budget: nat)

  ghost predicate Sound(run: Run, knownKinds: bool) {
    IsRun(run.ws, run.ops) && run.w == run.ws[|run.ops|] && (knownKinds ==> KnownKinds(run.w))
  }

  /** The run went on, by this replica's calls and by others'; only others append entries. */
  ghost predicate Onward(a: Run, b: Run) {
    && a.ws <= b.ws && a.ops <= b.ops && Evolves(a.w, b.w)
    && b.budget <= a.budget && |b.w.log| + b.budget <= |a.w.log| + a.budget
  }

  /** No other consumer moved in between. */
  predicate Calm(alone: bool, a: Run, b: Run) {
    alone || a.budget == b.budget
  }

  function Then(run: Run, op: Op): Run {
    Run(run.ws + [Apply(run.w, op)], run.ops + [op], Apply(run.w, op), run.budget)
  }

  lemma NextIsSound(first: Run, run: Run, op: Op, knownKinds: bool)
    requires Sound(run, knownKinds) && Guard(run.ws, |run.ops|, op) && Onward(first, run)
    requires knownKinds && op.Append? ==> KnownField(op.field)
    ensures var next := Then(run, op);
            && Sound(next, knownKinds) && first.ws <= next.ws && first.ops <= next.ops && Evolves(first.w, next.w)
            && |next.w.log| <= |run.w.log| + if op.Append? then 1 else 0
  {
    hide Inv, Evolves;
    var next := Then(run, op);
    ExtendRun(run.ws, run.ops, op);
    assert next.ws[|run.ops|] == run.w;
    RunSound(next.ws, next.ops, |run.ops|, |run.ops| + 1);
    EvolvesTransitive(first.w, run.w, next.w);
  }

  /** A call of this replica. */
  lemma ThenIsSound(first: Run, run: Run, op: Op, knownKinds: bool)
    requires Sound(run, knownKinds) && Guard(run.ws, |run.ops|, op) && Onward(first, run) && !op.Append?
    ensures Sound(Then(run, op), knownKinds) && Onward(first, Then(run, op))
  {
    hide Inv, Evolves, Apply, Guard, Sound;
    NextIsSound(first, run, op, knownKinds);
  }

  /** A step of another process, which uses up one of the remaining ones. */
  lemma OthersStep(first: Run, run: Run, op: Op, knownKinds: bool)
    requires Sound(run, knownKinds) && Guard(run.ws, |run.ops|, op) && Onward(first, run) && run.budget > 0
    requires knownKinds && op.Append? ==> KnownField(op.field)
    ensures Sound(Then(run, op).(budget := run.budget - 1), knownKinds)
    ensures Onward(first, Then(run, op).(budget := run.budget - 1))
  {
    hide Inv, Evolves, Apply, Guard;
    NextIsSound(first, run, op, knownKinds);
  }

  lemma OnwardReflexive(a: Run)
    ensures Onward(a, a)
  {
    EvolvesReflexive(a.w);
  }

  lemma OnwardTransitive(alone: bool, a: Run, b: Run, c: Run)
    requires Onward(a, b) && Onward(b, c)
    ensures Onward(a, c)
    ensures Calm(alone, a, c) ==> Calm(alone, a, b) && Calm(alone, b, c)
  {
    hide Evolves;
    EvolvesTransitive(a.w, b.w, c.w);
  }

  lemma OnwardEvolves(a: Run, b: Run)
    requires Onward(a, b)
    ensures Evolves(a.w, b.w)
  {
  }

  lemma SoundInv(run: Run, knownKinds: bool)
    requires Sound(run, knownKinds)
    ensures Inv(run.w)
  {
    RunSound(run.ws, run.ops, |run.ops|, |run.ops|);
  }

  lemma PositionWas(a: Run, b: Run, knownKinds: bool, from: nat)
    requires Sound(a, knownKinds) && Sound(b, knownKinds) && Onward(a, b)
    requires ReadTo(b.w, from) && SamePosition(a.w, b.w)
    ensures ReadTo(a.w, from)
  {
    hide Inv, Evolves, ReadTo;
    SoundInv(a, knownKinds);
    SoundInv(b, knownKinds);
    PrefixWas(a.w, b.w, from);
  }

  /** Other processes' appends do not move the group's reading position. */
  lemma PositionStays(a: Run, b: Run, knownKinds: bool, k: nat)
    requires Sound(a, knownKinds) && Sound(b, knownKinds) && Onward(a, b)
    requires ReadTo(a.w, k) && SamePosition(a.w, b.w)
    ensures ReadTo(b.w, k) && a.w.log <= b.w.log
  {
    hide Inv, Evolves, ReadTo;
    SoundInv(a, knownKinds);
    SoundInv(b, knownKinds);
    LogOnlyGrows(a.w, b.w);
    PrefixStays(a.w, b.w, k);
  }

  lemma LogIsSorted(run: Run, knownKinds: bool)
    requires Sound(run, knownKinds)
    ensures Sorted(run.w.log)
  {
    SoundInv(run, knownKinds);
  }

  lemma SoundShape(run: Run, knownKinds: bool)
    requires Sound(run, knownKinds)
    ensures |run.ws| == |run.ops| + 1 && run.w == run.ws[|run.ops|]
  {
  }

  lemma OneStepLess(first: Run, run: Run, knownKinds: bool)
    requires Sound(run, knownKinds) && Onward(first, run) && run.budget > 0
    ensures Sound(run.(budget := run.budget - 1), knownKinds) && Onward(first, run.(budget := run.budget - 1))
  {
  }

  /** What was observed at an earlier moment can still be looked up. */
  lemma OnwardKeepsMoments(a: Run, b: Run)
    requires Onward(a, b)
    ensures Evolves(a.w, b.w)
    ensures |a.ops| <= |b.ops| && b.budget <= a.budget
    ensures forall k :: 0 <= k < |a.ws| ==> k < |b.ws| && b.ws[k] == a.ws[k]
  {
  }

  predicate RecordedAt(a: Run, b: Run, id: StreamId, n: nat)
    requires n < |b.w.dlq|
  {
    b.w.dlq[n].id == id && b.w.dlq[n].read.Some? && b.w.dlq[n].read.value >= |a.ops|
  }

  /** Since `a`, a dead letter was written for the entry, after a lookup of its text that did not fail. */
  ghost predicate Recorded(a: Run, b: Run, id: StreamId) {
    exists n :: |a.w.dlq| <= n < |b.w.dlq| && RecordedAt(a, b, id, n)
  }

  lemma RecordedStays(a: Run, b: Run, c: Run, id: StreamId)
    requires Onward(b, c) && Recorded(a, b, id)
    ensures Recorded(a, c, id)
  {
    var n :| |a.w.dlq| <= n < |b.w.dlq| && RecordedAt(a, b, id, n);
    assert RecordedAt(a, c, id, n);
  }

  lemma RecordedSinceEarlier(a: Run, b: Run, c: Run, id: StreamId)
    requires Onward(a, b) && Recorded(b, c, id)
    ensures Recorded(a, c, id)
  {
    var n :| |b.w.dlq| <= n < |c.w.dlq| && RecordedAt(b, c, id, n);
    assert RecordedAt(a, c, id, n);
  }

  lemma {:induction false} AmongDlqIds(dlq: seq<DlqRecord>, n: nat)
    requires n < |dlq|
    ensures dlq[n].id in DlqIds(dlq)
  {
    if n < |dlq| - 1 {
      AmongDlqIds(dlq[..|dlq| - 1], n);
    }
  }

  lemma RecordedIsInDlq(a: Run, b: Run, id: StreamId)
    requires Recorded(a, b, id)
    ensures id in DlqIds(b.w.dlq)
  {
    var n :| |a.w.dlq| <= n < |b.w.dlq| && RecordedAt(a, b, id, n);
    AmongDlqIds(b.w.dlq, n);
  }

  lemma BodyIsLog(run: Run, knownKinds: bool, id: StreamId)
    requires Sound(run, knownKinds) && id in run.w.body
    ensures exists j :: 0 <= j < |run.w.log| && run.w.log[j] == id
  {
    SoundInv(run, knownKinds);
    IdSetIsContents(run.w.log, id);
  }

  /** Nothing joined the pending list, and only entries that had been taken from the stream left it. */
  predicate OnlyTakenLeft(w: World, v: World) {
    && (forall id :: id in v.pending ==> id in w.pending)
    && (forall id :: id in w.pending && id !in v.pending ==> Taken(v, id))
  }

  /** The entry was handed on, or left the pending list, since `w`. */
  predicate Touched(w: World, v: World, id: StreamId) {
    id !in v.pending || v.pending[id].last >= w.now
  }

  /** Every entry of the stretch that was idle in `w` has been touched. */
  ghost predicate PageTouched(w: World, v: World, cursor: StreamId, next: StreamId, minIdle: int) {
    forall id :: Idle(w, id, minIdle) && InRange(id, cursor, UpTo(next)) ==> Touched(w, v, id)
  }

  /** Whatever others did since `u`, a reclaim touches all that was idle then. */
  lemma ClaimTouches(u: World, w: World, cursor: StreamId, next: StreamId, minIdle: int)
    requires Inv(u) && Evolves(u, w) && minIdle > 0
    ensures PageTouched(u, Apply(w, Claim(cursor, UpTo(next), minIdle)), cursor, next, minIdle)
  {
    hide Records, IdSet, Sorted;
    forall id | Idle(u, id, minIdle) && InRange(id, cursor, UpTo(next))
      ensures Touched(u, Apply(w, Claim(cursor, UpTo(next), minIdle)), id)
    {
      assert id in u.body && Delivered(u, id);
    }
  }

  lemma NoneIsTouched(u: World, w: World, cursor: StreamId, next: StreamId, minIdle: int)
    requires w.pending == map[]
    ensures PageTouched(u, w, cursor, next, minIdle)
  {
  }

  /** One page of a sweep: every idle entry up to the next cursor is among the messages or gone, and the
      cursor passed at least one entry. */
  predicate Swept(w: World, v: World, cursor: StreamId, next: StreamId, minIdle: int, ids: seq<StreamId>) {
    && (forall id :: id in w.pending && InRange(id, cursor, UpTo(next)) && Idle(w, id, minIdle) && id in v.pending ==>
          id in IdSet(ids))
    && (forall id :: id in w.pending && id in v.pending && !InRange(id, cursor, UpTo(next)) ==>
          v.pending[id] == w.pending[id])
    && (next != ZERO ==> Before(cursor, next) && exists id :: id in w.pending && InRange(id, cursor, Some(next)))
  }

  lemma NoneLeft(w: World, v: World)
    ensures Undisturbed(w, v) ==> OnlyTakenLeft(w, v)
  {
  }

  /** What a reclaim in state `w` hands out and leaves, also as seen from an earlier state `u`. */
  lemma ClaimedPage(u: World, w: World, cursor: StreamId, next: StreamId, minIdle: int, messages: seq<Entry>)
    requires Inv(w) && u.now <= w.now
    requires next != ZERO ==> Before(cursor, next) && exists id :: id in w.pending && InRange(id, cursor, Some(next))
    requires forall k :: 0 <= k < |messages| ==>
               Claimable(w, messages[k].id, cursor, UpTo(next), minIdle) && w.body[messages[k].id] == messages[k].field
    requires forall id :: Claimable(w, id, cursor, UpTo(next), minIdle) ==> id in IdSet(EntryIds(messages))
    ensures var v := Apply(w, Claim(cursor, UpTo(next), minIdle));
            && (forall k :: 0 <= k < |messages| ==>
                  && Handed(v, messages[k]) && messages[k].id in v.pending
                  && InRange(messages[k].id, cursor, UpTo(next)))
            && (Undisturbed(u, w) ==>
                  && OnlyPending(u, v) && OnlyTakenLeft(u, v)
                  && Swept(u, v, cursor, next, minIdle, EntryIds(messages)))
  {
    ClaimKeeps(w, cursor, UpTo(next), minIdle);
    hide Inv, Apply, IdSet, EntryIds, InStream;
  }

  class Broker {
    const redisUp: bool      // no Redis call of this replica fails
    const sinkMode: SinkMode
    const knownKinds: bool   // producers only send event kinds the sink knows
    const alone: bool        // no other consumer of the group is active, and the stream stays under the producers' cap
    var run: Run
    var consumers: nat       // registered in the group, which no call of this replica changes
    ghost var failures: nat  // how many sink writes of this replica were refused or failed

    ghost predicate Valid()
      reads this
    {
      Sound(run, knownKinds)
    }

    /** No call of this replica fails, and no event is of a kind the sink rejects. */
    ghost predicate FaultFree()
    {
      redisUp && sinkMode.Healthy? && knownKinds
    }

    constructor (redisUp: bool, sinkMode: SinkMode, knownKinds: bool, alone: bool, now: int, budget: nat)
      ensures Valid() && run.w == Start(now) && run.budget == budget
      ensures this.redisUp == redisUp && this.sinkMode == sinkMode
      ensures this.knownKinds == knownKinds && this.alone == alone
    {
      this.redisUp, this.sinkMode, this.knownKinds, this.alone := redisUp, sinkMode, knownKinds, alone;
      run := Run([Start(now)], [], Start(now), budget);
      consumers, failures := 0, 0;
    }

    /** Other processes take some of their remaining steps. */
    method Interfere()
      requires Valid()
      modifies this`run, this`consumers
      ensures Valid() && Onward(old(run), run)
      ensures Calm(alone, old(run), run) ==> Undisturbed(old(run.w), run.w)
      ensures run.budget == old(run.budget) ==> run == old(run) && consumers == old(consumers)
    {
      hide Inv, Evolves, Onward, Sound;
      ghost var first := run;
      OnwardReflexive(run);
      while *
        invariant Valid() && Onward(first, run) && run.budget <= first.budget
        invariant Calm(alone, first, run) ==> Undisturbed(first.w, run.w)
        invariant run.budget == first.budget ==> run == first && consumers == old(consumers)
        decreases run.budget
      {
        if run.budget == 0 {
          break;
        }
        SoundShape(run, knownKinds);
        var op: Op := *;
        if Guard(run.ws, |run.ops|, op)
           && (alone ==> op.Append? || op.Tick? || op.Cut?)
           && (knownKinds && op.Append? ==> KnownField(op.field)) {
          OthersStep(first, run, op, knownKinds);
          run := Then(run, op).(budget := run.budget - 1);
        } else {
          OneStepLess(first, run, knownKinds);
          run := run.(budget := run.budget - 1);
          consumers := *;
        }
      }
    }

    method Clock() returns (now: int, at: nat)
      requires Valid()
      modifies this`run, this`consumers
      ensures Valid() && Onward(old(run), run)
      ensures Calm(alone, old(run), run) ==> Undisturbed(old(run.w), run.w)
      ensures now == run.w.now && at == |run.ops|
      ensures run.budget == old(run.budget) ==> run == old(run) && consumers == old(consumers)
    {
      hide Inv, Evolves, Onward, Sound;
      Interfere();
      now, at := run.w.now, |run.ops|;
    }

    /** XACK.  A failed call may still have been applied. */
    method Ack(ids: set<StreamId>) returns (ok: bool)
      requires Valid() && forall id :: id in ids ==> Clear(run.w, id)
      modifies this`run, this`consumers
      ensures Valid() && Onward(old(run), run)
      ensures redisUp ==> ok
      ensures ok ==> run.w.pending.Keys !! ids
      ensures Calm(alone, old(run), run) ==>
                && OnlyPending(old(run.w), run.w)
                && (run.w.pending == old(run.w.pending) - ids || (!ok && run.w.pending == old(run.w.pending)))
    {
      hide Inv, Evolves, Onward, Sound;
      ghost var first := run;
      Interfere();
      OnwardEvolves(first, run);
      ClearStays(first.w, run.w, ids);
      SoundShape(run, knownKinds);
      ok := *;
      var applied: bool := *;
      ok := ok || redisUp;
      if ok || applied {
        ThenIsSound(first, run, Op.Ack(ids), knownKinds);
        run := Then(run, Op.Ack(ids));
      }
    }

    /** XRANGE of one ID: the "event" text of the entry, "" when it is gone. */
    method Lookup(id: StreamId) returns (payload: string, read: Option<nat>)
      requires Valid() && id in run.w.body
      modifies this`run, this`consumers
      ensures Valid() && Onward(old(run), run)
      ensures Calm(alone, old(run), run) ==> Undisturbed(old(run.w), run.w)
      ensures redisUp ==> read.Some?
      ensures id in run.w.body && (read.Some? ==> read.value == |run.ops|)
      ensures payload == if read.Some? && InStream(run.w, id) then RawText(run.w.body[id]) else ""
    {
      hide Inv, Onward, Sound;
      ghost var first := run;
      Interfere();
      OnwardEvolves(first, run);
      var ok: bool := *;
      if ok || redisUp {
        read := Some(|run.ops|);
        payload := if InStream(run.w, id) then RawText(run.w.body[id]) else "";
      } else {
        read, payload := None, "";
      }
    }

    /** XADD to the dead-letter stream. */
    method AddDeadLetter(r: DlqRecord) returns (ok: bool)
      requires Valid() && Deserved(run.w, r.id, r.reason) && Delivered(run.w, r.id)
      requires r.read.Some? ==> r.read.value < |run.ws| && r.id in run.ws[r.read.value].body
      requires r.payload ==
               if r.read.Some? && InStream(run.ws[r.read.value], r.id) then RawText(run.w.body[r.id]) else ""
      modifies this`run, this`consumers
      ensures Valid() && Onward(old(run), run)
      ensures redisUp ==> ok
      ensures ok ==> r.id in DlqIds(run.w.dlq)
      ensures ok ==> |old(run.w.dlq)| < |run.w.dlq| && run.w.dlq[|run.w.dlq| - 1] == r
      ensures Calm(alone, old(run), run) ==>
                && OnlyDlq(old(run.w), run.w)
                && (run.w.dlq == old(run.w.dlq) + [r] || (!ok && run.w.dlq == old(run.w.dlq)))
    {
      hide Inv, Evolves, Onward, Sound;
      ghost var first := run;
      Interfere();
      OnwardKeepsMoments(first, run);
      HandedStays(first.w, run.w, Entry(r.id, first.w.body[r.id]));
      DeservedStays(first.w, run.w, r.id, r.reason);
      SoundShape(first, knownKinds);
      SoundShape(run, knownKinds);
      ok := *;
      var applied: bool := *;
      ok := ok || redisUp;
      if ok || applied {
        ghost var before := run.w;
        ThenIsSound(first, run, Bury(r), knownKinds);
        run := Then(run, Bury(r));
        assert run.w.dlq[..|before.dlq|] == before.dlq;
      }
    }

    /** The sink's write of one event.  A failed write may still have landed; an audit event without payload
        is reported written whatever the state of the sink, and never is. */
    method Emit(id: StreamId, event: Event) returns (r: EmitResult)
      requires Valid() && id in run.w.body && Delivered(run.w, id) && Parse(run.w.body[id]) == Candidate(event)
      modifies this`run, this`consumers, this`failures
      ensures Valid() && Onward(old(run), run)
      ensures failures == old(failures) + if r.Emitted? then 0 else 1
      ensures r.Malformed? <==> !Validates(event)
      ensures r.Emitted? ==> Accepted(run.w, id)
      ensures Validates(event) && (FaultFree() || Takes(sinkMode, event)) ==> r.Emitted?
      ensures Refuses(sinkMode, event) ==> !r.Emitted?
      ensures Calm(alone, old(run), run) && Refuses(sinkMode, event) ==> run.w.sink == old(run.w.sink)
      ensures Calm(alone, old(run), run) ==>
                && OnlySink(old(run.w), run.w)
                && (run.w.sink == old(run.w.sink) + Record(id, event) || (!r.Emitted? && run.w.sink == old(run.w.sink)))
    {
      hide Inv, Evolves, Onward;
      ghost var first := run;
      Interfere();
      OnwardEvolves(first, run);
      HandedStays(first.w, run.w, Entry(id, first.w.body[id]));
      SoundShape(run, knownKinds);
      var failed: bool := *;
      var landed: bool := *;
      if !Validates(event) {
        r := Malformed;
      } else if Skipped(event) {
        r := EmitResult.Emitted;
        assert run.w.sink + [] == run.w.sink;
      } else if event.kind !in KNOWN_KINDS || sinkMode.Down? {
        r := Transient;
      } else {
        r := if failed && !sinkMode.Healthy? then Transient else EmitResult.Emitted;
        if r.Emitted? || landed {
          ghost var before := run.w;
          ThenIsSound(first, run, Op.Store(id, event), knownKinds);
          run := Then(run, Op.Store(id, event));
          assert run.w.sink[..|before.sink|] == before.sink;
        }
      }
      if !r.Emitted? {
        failures := failures + 1;
      }
    }

    method FirstUnread() returns (from: nat)
      requires Valid()
      ensures ReadTo(run.w, from)
    {
      hide Inv, Evolves, Sound;
      SoundInv(run, knownKinds);
      from := 0;
      while from < |run.w.log| && !Unread(run.w, run.w.log[from])
        invariant from <= |run.w.log|
        invariant forall k :: 0 <= k < from ==> !Unread(run.w, run.w.log[k])
      {
        from := from + 1;
      }
      UnreadIsATail(run.w, from);
    }

    method HandOut(from: nat, count: nat, ghost first: Run) returns (page: seq<Entry>)
      requires Valid() && Onward(first, run)
      requires ReadTo(run.w, from) && NextUnread(run.w, from, count)
      modifies this`run, this`consumers
      ensures Valid() && Onward(first, run) && run.budget == old(run.budget)
      ensures run.w.sink == old(run.w.sink) && run.w.dlq == old(run.w.dlq) && run.w.log == old(run.w.log)
      ensures |page| == count && (forall k :: 0 <= k < |page| ==> Handed(run.w, page[k]))
      ensures ReadTo(run.w, from + count) && run.w.log[from..from + count] == EntryIds(page)
      ensures run.w.pending.Keys == old(run.w.pending).Keys + IdSet(EntryIds(page))
    {
      hide Inv, Evolves, Onward, Sound, Apply;
      SoundInv(run, knownKinds);
      SoundShape(run, knownKinds);
      page := Entries(run.w, from, from + count);
      assert EntryIds(page) == run.w.log[from..from + count];
      ReadAdvances(run.w, from, count);
      HandedByRead(run.w, from, count);
      ThenIsSound(first, run, Deliver(from, count), knownKinds);
      run := Then(run, Deliver(from, count));
    }

    /** XREADGROUP ">" COUNT limit; `from` is the reading position it found.  A failed call may still
        have handed the entries out. */
    method ReadGroup(limit: nat) returns (ok: bool, page: seq<Entry>, ghost from: nat)
      requires Valid() && limit > 0
      modifies this`run, this`consumers
      ensures Valid() && Onward(old(run), run)
      ensures redisUp ==> ok
      ensures |page| <= limit && (!ok ==> page == [])
      ensures forall k :: 0 <= k < |page| ==> Handed(run.w, page[k])
      ensures ok ==> ReadTo(run.w, from + |page|) && run.w.log[from..from + |page|] == EntryIds(page)
      ensures ok && page == [] ==> from == |run.w.log|
      ensures Calm(alone, old(run), run) ==>
                && run.w.sink == old(run.w.sink) && run.w.dlq == old(run.w.dlq)
                && ReadTo(old(run.w), from)
                && (ok ==> run.w.pending.Keys == old(run.w.pending).Keys + IdSet(EntryIds(page)))
    {
      hide Inv, Evolves, Onward, Sound, Apply, Guard;
      ghost var first := run;
      Interfere();
      var start := FirstUnread();
      from := start;
      if Calm(alone, first, run) {
        PositionWas(first, run, knownKinds, from);
      }
      var available := |run.w.log| - start;
      var count: int := *;
      count := if available == 0 then 0 else if count < 1 then 1 else count;
      count := if limit < count then limit else count;
      count := if available < count then available else count;
      ok := *;
      var applied: bool := *;
      ok := ok || redisUp;
      page := [];
      if ok || applied {
        var handed := HandOut(start, count, first);
        if ok {
          page := handed;
        }
      }
    }

    /** The claimable entries, in stream order. */
    method CollectClaimable(cursor: StreamId, next: Option<StreamId>, minIdle: int) returns (messages: seq<Entry>)
      requires Valid()
      ensures forall k :: 0 <= k < |messages| ==>
                && Claimable(run.w, messages[k].id, cursor, next, minIdle)
                && run.w.body[messages[k].id] == messages[k].field
      ensures forall id :: Claimable(run.w, id, cursor, next, minIdle) ==> id in IdSet(EntryIds(messages))
    {
      hide Inv, Evolves, Apply, Guard, Sound;
      var w := run.w;
      messages := [];
      var k := 0;
      while k < |w.log|
        invariant k <= |w.log|
        invariant forall j :: 0 <= j < |messages| ==>
                    Claimable(w, messages[j].id, cursor, next, minIdle) && w.body[messages[j].id] == messages[j].field
        invariant forall j :: 0 <= j < k && Claimable(w, w.log[j], cursor, next, minIdle) ==>
                    w.log[j] in IdSet(EntryIds(messages))
      {
        var id := w.log[k];
        if Claimable(w, id, cursor, next, minIdle) {
          ghost var before := EntryIds(messages);
          messages := messages + [Entry(id, w.body[id])];
          assert EntryIds(messages)[..|before|] == before;
        }
        k := k + 1;
      }
      forall id | Claimable(w, id, cursor, next, minIdle)
        ensures id in IdSet(EntryIds(messages))
      {
        BodyIsLog(run, knownKinds, id);
        var j :| 0 <= j < |w.log| && w.log[j] == id;
      }
    }

    /** XAUTOCLAIM from `cursor`.  Any cut of the pending list into pages is allowed that makes progress;
        a failed call may still have been applied. */
    method AutoClaim(cursor: StreamId, minIdle: int) returns (reply: ClaimReply)
      requires Valid() && minIdle > 0
      modifies this
      ensures Valid() && Onward(old(run), run) && failures == old(failures)
      ensures redisUp ==> !reply.ClaimFailed?
      ensures reply.Nothing? ==> run.w.pending == map[]
      ensures reply.Page? ==> forall k :: 0 <= k < |reply.messages| ==>
                && Handed(run.w, reply.messages[k]) && reply.messages[k].id in run.w.pending
                && InRange(reply.messages[k].id, cursor, UpTo(reply.next))
      ensures reply.Page? ==> PageTouched(old(run.w), run.w, cursor, reply.next, minIdle)
      ensures Calm(alone, old(run), run) ==> OnlyPending(old(run.w), run.w) && OnlyTakenLeft(old(run.w), run.w)
      ensures Calm(alone, old(run), run) && reply.Page? ==>
                Swept(old(run.w), run.w, cursor, reply.next, minIdle, EntryIds(reply.messages))
    {
      hide Inv, Evolves, Onward, Sound, Apply, Guard, Claimable, Swept, OnlyTakenLeft, Handed, PageTouched;
      ghost var first := run;
      Interfere();
      OnwardEvolves(first, run);
      NowOnlyGrows(first.w, run.w);
      var next: StreamId := *;
      if next !in run.w.pending || !Before(cursor, next)
         || !(exists id | id in run.w.pending :: InRange(id, cursor, Some(next))) {
        next := ZERO;
      }
      var messages := CollectClaimable(cursor, UpTo(next), minIdle);
      var ok: bool := *;
      var applied: bool := *;
      var silent: bool := *;
      if run.w.pending == map[] && silent {
        NoneLeft(first.w, run.w);
        reply := Nothing;
      } else if ok || redisUp || applied {
        SoundInv(first, knownKinds);
        SoundInv(run, knownKinds);
        SoundShape(run, knownKinds);
        ClaimTouches(first.w, run.w, cursor, next, minIdle);
        ClaimedPage(first.w, run.w, cursor, next, minIdle, messages);
        ClaimIsFree(run.ws, |run.ops|, cursor, UpTo(next), minIdle);
        ThenIsSound(first, run, Claim(cursor, UpTo(next), minIdle), knownKinds);
        run := Then(run, Claim(cursor, UpTo(next), minIdle));
        reply := if ok || redisUp then Page(next, messages) else ClaimFailed;
      } else {
        NoneLeft(first.w, run.w);
        reply := ClaimFailed;
      }
    }

    /** XPENDING - + 1: is anything pending? */
    method PendingIsEmpty() returns (ok: bool, empty: bool, at: nat)
      requires Valid()
      modifies this
      ensures Valid() && Onward(old(run), run)
      ensures redisUp ==> ok
      ensures run.budget == old(run.budget) ==> run == old(run) && consumers == old(consumers)
      ensures Calm(alone, old(run), run) ==> Undisturbed(old(run.w), run.w)
      ensures at == |run.ops| && (empty <==> run.w.pending == map[])
    {
      hide Inv, Evolves, Onward, Sound;
      Interfere();
      ok := *;
      ok := ok || redisUp;
      empty, at := run.w.pending == map[], |run.ops|;
    }

    /** XINFO GROUPS: the last-delivered ID of the group, and its number of consumers. */
    method GroupInfo() returns (ok: bool, last: StreamId, members: nat, at: nat)
      requires Valid()
      modifies this
      ensures Valid() && Onward(old(run), run)
      ensures redisUp ==> ok
      ensures run.budget == old(run.budget) ==> run == old(run) && consumers == old(consumers)
      ensures Calm(alone, old(run), run) ==> Undisturbed(old(run.w), run.w)
      ensures at == |run.ops| && last == run.w.lastDelivered && members == consumers
    {
      hide Inv, Evolves, Onward, Sound;
      Interfere();
      ok := *;
      ok := ok || redisUp;
      last, members, at := run.w.lastDelivered, consumers, |run.ops|;
    }

    /** XTRIM MINID.  A failed call may still have been applied. */
    method Trim(minId: StreamId, checkAt: nat, infoAt: nat, clockAt: nat) returns (ok: bool)
      requires Valid() && |run.ws| == |run.ops| + 1
      requires checkAt <= infoAt <= clockAt <= |run.ops| && run.ws[checkAt].pending == map[]
      requires minId == StreamId(Min(run.ws[infoAt].lastDelivered.ms, run.ws[clockAt].now - MAX_AGE_MS), 0)
      modifies this
      ensures Valid() && Onward(old(run), run)
      ensures redisUp ==> ok
      ensures Calm(alone, old(run), run) ==> Undisturbed(old(run.w), run.w)
      ensures ok ==> |old(run.ops)| < |run.ops| && run.ops[|run.ops| - 1] == Cut(minId, checkAt, infoAt, clockAt)
    {
      hide Inv, Evolves, Onward, Sound;
      ghost var first := run;
      Interfere();
      OnwardKeepsMoments(first, run);
      SoundShape(run, knownKinds);
      ok := *;
      var applied: bool := *;
      ok := ok || redisUp;
      if ok || applied {
        ThenIsSound(first, run, Cut(minId, checkAt, infoAt, clockAt), knownKinds);
        run := Then(run, Cut(minId, checkAt, infoAt, clockAt));
      }
    }
  }
}
