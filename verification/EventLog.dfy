/** The event stream as the event writer sees it: a Redis stream with one consumer group, the
    ClickHouse sink and the dead-letter stream, and the atomic calls that change them.

    A run is a sequence of such calls by any number of writer replicas, retention managers and
    producers, interleaved call by call.  Nothing of a replica's memory is part of a `World`, so a
    replica that crashes simply makes no further calls. */
module EventLog {
  import opened Prelude

  const CLAIM_IDLE_MS := 30_000
  const STUCK_AFTER_MS := 21_600_000
  const MAX_AGE_MS := 86_400_000
  const STREAM_CAP := 200_000

  // ---- Entries ----------------------------------------------------------------------------

  datatype StreamId = StreamId(ms: int, sub: nat)

  const ZERO := StreamId(0, 0)

  predicate Before(a: StreamId, b: StreamId) {
    a.ms < b.ms || (a.ms == b.ms && a.sub < b.sub)
  }

  /** A decoded event, as far as validation looks at it. */
  datatype Event = Event(
    kind: string, eventId: string, tenantId: string,
    gatewayRequestId: Option<string>, hasToolCall: bool, hasUserActivity: bool, hasAudit: bool)

  /** The "event" field of a stream entry: absent, or a raw text and what it decodes to. */
  datatype Field = Absent | Present(raw: string, decoded: Option<Event>)

  datatype Entry = Entry(id: StreamId, field: Field)

  datatype Reason = MissingEventField | InvalidJson | MissingKind | ValidationFailed | StuckPending

  datatype Parsed = Poison(reason: Reason) | Candidate(event: Event)

  const KNOWN_KINDS := {"gateway_request", "tool_call", "user_activity", "audit"}

  /** The checks on an entry before it may join a batch. */
  function Parse(field: Field): Parsed {
    match field
    case Absent => Poison(MissingEventField)
    case Present(_, None) => Poison(InvalidJson)
    case Present(_, Some(e)) => if e.kind == "" then Poison(MissingKind) else Candidate(e)
  }

  predicate Validates(e: Event) {
    && e.kind != "" && e.eventId != "" && e.tenantId != ""
    && (e.kind == "gateway_request" ==> e.gatewayRequestId.Some? && e.gatewayRequestId.value != "")
    && (e.kind == "tool_call" ==> e.hasToolCall)
    && (e.kind == "user_activity" ==> e.hasUserActivity)
  }

  /** The entry carries an event the sink may store. */
  predicate WellFormed(field: Field) {
    Parse(field).Candidate? && Validates(Parse(field).event)
  }

  /** An event without what its kind must have. */
  predicate Incomplete(e: Event) {
    || e.eventId == "" || e.tenantId == ""
    || (e.kind == "gateway_request" && (e.gatewayRequestId.None? || e.gatewayRequestId.value == ""))
    || (e.kind == "tool_call" && !e.hasToolCall) || (e.kind == "user_activity" && !e.hasUserActivity)
  }

  /** What is wrong with a field that can never be stored, read off the field itself. */
  predicate FaultOf(field: Field, reason: Reason) {
    match reason
    case MissingEventField => field.Absent?
    case InvalidJson => field.Present? && field.decoded.None?
    case MissingKind => field.Present? && field.decoded.Some? && field.decoded.value.kind == ""
    case ValidationFailed =>
      field.Present? && field.decoded.Some? && field.decoded.value.kind != "" && Incomplete(field.decoded.value)
    case StuckPending => false
  }

  /** Every field has one fault exactly, or holds a storable event, which is its decoded text. */
  lemma FaultExactly(field: Field, reason: Reason)
    ensures WellFormed(field) <==> forall r :: !FaultOf(field, r)
    ensures WellFormed(field) ==> field.Present? && field.decoded == Some(Parse(field).event)
    ensures Parse(field) == Poison(reason) <==> FaultOf(field, reason) && reason != ValidationFailed
    ensures forall r :: FaultOf(field, reason) && FaultOf(field, r) ==> r == reason
  {
    if !WellFormed(field) {
      assert FaultOf(field, if Parse(field).Poison? then Parse(field).reason else ValidationFailed);
    }
  }

  /** An audit event without its payload passes validation; the sink reports it written and writes nothing. */
  predicate Skipped(e: Event) { e.kind == "audit" && !e.hasAudit }

  /** The entry carries such an event. */
  predicate Hollow(field: Field) {
    WellFormed(field) && Skipped(Parse(field).event)
  }

  function RawText(field: Field): string {
    if field.Present? then field.raw else ""
  }

  // ---- The shared state -------------------------------------------------------------------

  /** When a pending entry was first handed out, and when it was last handed out or claimed. */
  datatype Delivery = Delivery(first: int, last: int)

  datatype SinkRecord = SinkRecord(id: StreamId, event: Event)

  /** `read` is the moment of the run at which the payload was looked up, None if that lookup failed. */
  datatype DlqRecord = DlqRecord(id: StreamId, reason: Reason, payload: string, read: Option<nat>)

  datatype World = World(
    now: int,
    log: seq<StreamId>,               // every ID ever appended, in order
    body: map<StreamId, Field>,       // what was appended under it
    floor: StreamId,                  // IDs below it have been trimmed from the stream
    lastDelivered: StreamId,
    pending: map<StreamId, Delivery>,
    sink: seq<SinkRecord>,
    dlq: seq<DlqRecord>,
    victims: set<StreamId>,           // history: IDs a trim removed while they were pending
    capped: set<StreamId>)            // history: IDs a producer's cap removed while unread or pending

  predicate InStream(w: World, id: StreamId) { id in w.body && !Before(id, w.floor) }

  predicate Delivered(w: World, id: StreamId) { !Before(w.lastDelivered, id) }

  /** What XREADGROUP with ">" may still hand out. */
  predicate Unread(w: World, id: StreamId) { InStream(w, id) && !Delivered(w, id) }

  /** The entry left the stream before it was done with. */
  predicate Taken(w: World, id: StreamId) { id in w.victims || id in w.capped }

  function IdSet(ids: seq<StreamId>): set<StreamId> {
    if ids == [] then {} else IdSet(ids[..|ids| - 1]) + {ids[|ids| - 1]}
  }

  function SinkIds(sink: seq<SinkRecord>): set<StreamId> {
    if sink == [] then {} else SinkIds(sink[..|sink| - 1]) + {sink[|sink| - 1].id}
  }

  function DlqIds(dlq: seq<DlqRecord>): set<StreamId> {
    if dlq == [] then {} else DlqIds(dlq[..|dlq| - 1]) + {dlq[|dlq| - 1].id}
  }

  /** The event is safe: written to the sink, or recorded in the dead-letter stream. */
  predicate Settled(w: World, id: StreamId) { id in SinkIds(w.sink) || id in DlqIds(w.dlq) }

  predicate Ignorable(w: World, id: StreamId) { id in w.body && Hollow(w.body[id]) }

  /** What the writer's code takes as done when it ACKs: settled, or skipped by the sink. */
  predicate Clear(w: World, id: StreamId) { Settled(w, id) || Ignorable(w, id) }

  /** The entry belongs in the dead-letter stream for this reason: it cannot be parsed or stored, or it has
      been stuck for too long. */
  predicate Deserved(w: World, id: StreamId, reason: Reason) {
    && id in w.body
    && match reason
       case StuckPending => w.now - id.ms > STUCK_AFTER_MS
       case ValidationFailed => Parse(w.body[id]).Candidate? && !Validates(Parse(w.body[id]).event)
       case _ => Parse(w.body[id]) == Poison(reason)
  }

  // ---- Calls ------------------------------------------------------------------------------

  datatype Op =
    | Append(id: StreamId, field: Field)
    | Tick(to: int)
    | Deliver(from: nat, count: nat)                                    // XREADGROUP ">"
    | Claim(cursor: StreamId, next: Option<StreamId>, minIdle: int)     // XAUTOCLAIM
    | Store(id: StreamId, event: Event)                                 // a sink write that landed
    | Bury(record: DlqRecord)                                           // XADD to the DLQ
    | Ack(ids: set<StreamId>)                                           // XACK
    | Cut(minId: StreamId, checkAt: nat, infoAt: nat, clockAt: nat)     // XTRIM MINID
    | Cap(keepFrom: nat)                                                // the MAXLEN part of a producer's XADD

  predicate InRange(id: StreamId, cursor: StreamId, next: Option<StreamId>) {
    !Before(id, cursor) && (next.Some? ==> Before(id, next.value))
  }

  predicate Idle(w: World, id: StreamId, minIdle: int) {
    id in w.pending && w.now - w.pending[id].last >= minIdle
  }

  /** The pending list after XAUTOCLAIM: entries that left the stream are dropped from it, idle ones
      become the caller's. */
  function AfterClaim(w: World, cursor: StreamId, next: Option<StreamId>, minIdle: int): map<StreamId, Delivery> {
    map id | id in w.pending && !(InRange(id, cursor, next) && Before(id, w.floor)) ::
      if InRange(id, cursor, next) && Idle(w, id, minIdle) then w.pending[id].(last := w.now) else w.pending[id]
  }

  function HandedOut(ids: set<StreamId>, now: int): map<StreamId, Delivery> {
    map id | id in ids :: Delivery(now, now)
  }

  /** What leaves the stream unread or pending when it is cut at `minId`. */
  function Overtaken(w: World, minId: StreamId): set<StreamId> {
    set id | id in w.body && Before(id, minId) && (Unread(w, id) || (id in w.pending && InStream(w, id)))
  }

  function Apply(w: World, op: Op): World {
    match op
    case Append(id, field) => w.(log := w.log + [id], body := w.body[id := field])
    case Tick(to) => w.(now := to)
    case Deliver(from, count) =>
      if count == 0 || from + count > |w.log| then w else
      w.(pending := w.pending + HandedOut(IdSet(w.log[from..from + count]), w.now),
         lastDelivered := w.log[from + count - 1])
    case Claim(cursor, next, minIdle) => w.(pending := AfterClaim(w, cursor, next, minIdle))
    case Store(id, event) => w.(sink := w.sink + [SinkRecord(id, event)])
    case Bury(record) => w.(dlq := w.dlq + [record])
    case Ack(ids) => w.(pending := w.pending - ids)
    case Cut(minId, _, _, _) =>
      if !Before(w.floor, minId) then w else
      w.(floor := minId, victims := w.victims + (set id | id in w.pending && InStream(w, id) && Before(id, minId)))
    case Cap(keepFrom) =>
      if keepFrom >= |w.log| || !Before(w.floor, w.log[keepFrom]) then w else
      w.(floor := w.log[keepFrom], capped := w.capped + Overtaken(w, w.log[keepFrom]))
  }

  /** XREADGROUP hands out the first unread entries, in stream order. */
  predicate NextUnread(w: World, from: nat, count: nat) {
    && from + count <= |w.log|
    && (forall k :: 0 <= k < from ==> !Unread(w, w.log[k]))
    && (forall k :: from <= k < from + count ==> Unread(w, w.log[k]))
  }

  function Min(a: int, b: int): int { if a < b then a else b }

  /** When the call may happen at moment `i` of a history: what Redis itself enforces for the first
      group, what the writer's code has to establish for the rest. */
  predicate Guard(ws: seq<World>, i: nat, op: Op)
    requires i < |ws|
  {
    var w := ws[i];
    match op
    case Append(id, _) => Before(ZERO, id) && (w.log != [] ==> Before(w.log[|w.log| - 1], id))
    case Tick(to) => w.now <= to
    case Deliver(from, count) => NextUnread(w, from, count)
    case Claim(_, _, _) => true
    case Cap(keepFrom) => keepFrom + STREAM_CAP <= |w.log|

    case Store(id, event) =>
      && id in w.body && Delivered(w, id)
      && WellFormed(w.body[id]) && Parse(w.body[id]) == Candidate(event) && !Skipped(event)
    case Bury(record) =>
      && Deserved(w, record.id, record.reason) && Delivered(w, record.id)
      && (record.read.Some? ==> record.read.value <= i && record.id in ws[record.read.value].body)
      && record.payload ==
         (if record.read.Some? && InStream(ws[record.read.value], record.id)
          then RawText(w.body[record.id]) else "")
    case Ack(ids) => forall id :: id in ids ==> Clear(w, id)
    case Cut(minId, checkAt, infoAt, clockAt) =>
      && checkAt <= infoAt <= clockAt <= i
      && ws[checkAt].pending == map[]
      && minId == StreamId(Min(ws[infoAt].lastDelivered.ms, ws[clockAt].now - MAX_AGE_MS), 0)
  }

  function Start(now: int): World {
    World(now, [], map[], ZERO, ZERO, map[], [], [], {}, {})
  }

  ghost predicate IsRun(ws: seq<World>, ops: seq<Op>) {
    && |ws| == |ops| + 1
    && ws[0] == Start(ws[0].now)
    && forall i :: 0 <= i < |ops| ==> Guard(ws, i, ops[i]) && ws[i + 1] == Apply(ws[i], ops[i])
  }

  // ---- What every reachable state keeps ---------------------------------------------------

  predicate Sorted(log: seq<StreamId>) {
    forall i, j :: 0 <= i < j < |log| ==> Before(log[i], log[j])
  }

  /** A dead-letter record of a non-empty event field that does not carry it, though it was looked up. */
  predicate Unreplayable(w: World, r: DlqRecord) {
    r.id in w.body && r.read.Some? && RawText(w.body[r.id]) != "" && r.payload != RawText(w.body[r.id])
  }

  /** The event was safe when dead letter `k` was written, or the sink skips it, or it was taken from the stream. */
  predicate Excused(w: World, k: nat)
    requires k < |w.dlq|
  {
    var id := w.dlq[k].id;
    id in SinkIds(w.sink) || id in DlqIds(w.dlq[..k]) || Ignorable(w, id) || Taken(w, id)
  }

  /** The sink holds only what was appended, validates and has a payload; a dead letter is deserved, carries
      its event text or nothing, and nothing only with an excuse. */
  ghost predicate Records(w: World) {
    && (forall k :: 0 <= k < |w.sink| ==>
          var r := w.sink[k];
          r.id in w.body && WellFormed(w.body[r.id]) && Parse(w.body[r.id]) == Candidate(r.event) && !Skipped(r.event))
    && (forall k :: 0 <= k < |w.dlq| ==>
          var r := w.dlq[k]; Deserved(w, r.id, r.reason) && (r.payload == "" || r.payload == RawText(w.body[r.id])))
    && (forall k :: 0 <= k < |w.dlq| && Unreplayable(w, w.dlq[k]) ==> Excused(w, k))
  }

  /** Where the marks and the recorded losses stand in the log. */
  ghost predicate Marks(w: World) {
    && (forall id :: id in w.body ==> Before(ZERO, id))
    && (w.lastDelivered == ZERO || w.lastDelivered in w.body)
    && (w.floor in w.body || !Before(w.lastDelivered, w.floor))
    && (forall id :: id in w.body && !Delivered(w, id) && Before(id, w.floor) ==> id in w.capped)
    && (forall id :: id in w.victims ==> id in w.body && Delivered(w, id) && Before(id, w.floor))
    && (forall id :: id in w.capped ==> id in w.body && Before(id, w.floor))
  }

  /** Every delivered entry is pending, done with or taken. */
  ghost predicate Accounts(w: World) {
    && (forall id :: id in w.pending ==> id in w.body && Delivered(w, id))
    && (forall id :: id in w.body && Delivered(w, id) ==> id in w.pending || Clear(w, id) || Taken(w, id))
    && (forall id :: id in w.pending && Before(id, w.floor) ==> Taken(w, id))
  }

  ghost predicate Inv(w: World) {
    Sorted(w.log) && w.body.Keys == IdSet(w.log) && Marks(w) && Accounts(w) && Records(w)
  }

  /** The same delivery, perhaps handed on since `now`. */
  predicate SameOrLater(d: Delivery, e: Delivery, now: int) {
    e.first == d.first && (e.last == d.last || e.last >= now)
  }

  /** What any number of calls can do to the state, and what they cannot undo. */
  ghost predicate Evolves(w: World, v: World) {
    && w.now <= v.now
    && w.log <= v.log
    && (forall id :: id in w.body ==> id in v.body && v.body[id] == w.body[id])
    && !Before(v.floor, w.floor)
    && !Before(v.lastDelivered, w.lastDelivered)
    && w.sink <= v.sink && w.dlq <= v.dlq
    && SinkIds(w.sink) <= SinkIds(v.sink) && DlqIds(w.dlq) <= DlqIds(v.dlq)
    && w.victims <= v.victims && w.capped <= v.capped
    && (forall id :: id in v.pending ==>
          || (id in w.pending && SameOrLater(w.pending[id], v.pending[id], w.now))
          || (!Delivered(w, id) && v.pending[id].first >= w.now && v.pending[id].last >= w.now))
    && (forall id :: id in w.pending && id !in v.pending ==> Clear(v, id) || Taken(v, id))
  }

  lemma DeservedStays(w: World, v: World, id: StreamId, reason: Reason)
    requires Evolves(w, v) && Deserved(w, id, reason)
    ensures Deserved(v, id, reason)
  {
  }

  lemma EvolvesReflexive(w: World)
    ensures Evolves(w, w)
  {
  }

  lemma EvolvesTransitive(u: World, v: World, w: World)
    requires Evolves(u, v) && Evolves(v, w)
    ensures Evolves(u, w)
  {
  }

  lemma {:induction false} IdSetIsContents(ids: seq<StreamId>, id: StreamId)
    ensures id in IdSet(ids) <==> exists k :: 0 <= k < |ids| && ids[k] == id
  {
    if ids != [] {
      IdSetIsContents(ids[..|ids| - 1], id);
    }
  }

  /** The IDs one read hands out were unread, and afterwards nothing at or below them is. */
  lemma ReadIsNext(w: World, from: nat, count: nat)
    requires Inv(w) && NextUnread(w, from, count) && count > 0
    ensures forall id :: id in IdSet(w.log[from..from + count]) ==>
              id in w.body && !Delivered(w, id) && !Before(w.log[from + count - 1], id)
    ensures forall id :: id in w.body && !Before(w.log[from + count - 1], id) ==>
              Delivered(w, id) || id in w.capped || id in IdSet(w.log[from..from + count])
    ensures Before(w.lastDelivered, w.log[from + count - 1])
  {
    var page := w.log[from..from + count];
    forall id | id in IdSet(page)
      ensures id in w.body && !Delivered(w, id) && !Before(w.log[from + count - 1], id)
    {
      IdSetIsContents(page, id);
      var k :| 0 <= k < |page| && page[k] == id;
      assert w.log[from + k] == id;
    }
    forall id | id in w.body && !Before(w.log[from + count - 1], id)
      ensures Delivered(w, id) || id in w.capped || id in IdSet(page)
    {
      IdSetIsContents(w.log, id);
      var k :| 0 <= k < |w.log| && w.log[k] == id;
      if from <= k {
        assert k < from + count;
        assert page[k - from] == id;
        IdSetIsContents(page, id);
      }
    }
    assert Unread(w, w.log[from + count - 1]);
  }

  lemma RecordsStay(w: World, v: World)
    requires Records(w) && v.sink == w.sink && v.dlq == w.dlq && w.now <= v.now
    requires w.victims <= v.victims && w.capped <= v.capped
    requires forall id :: id in w.body ==> id in v.body && v.body[id] == w.body[id]
    ensures Records(v)
  {
    hide SinkIds, DlqIds, WellFormed, Parse, Validates;
  }

  /** What one read changes, as facts about sets. */
  lemma HandedOutAdds(pending: map<StreamId, Delivery>, page: set<StreamId>, now: int)
    ensures var after := pending + HandedOut(page, now);
            && after.Keys == pending.Keys + page
            && (forall id :: id in page ==> after[id] == Delivery(now, now))
            && (forall id :: id in pending && id !in page ==> after[id] == pending[id])
  {
  }

  lemma DeliverEffect(w: World, from: nat, count: nat)
    requires Inv(w) && NextUnread(w, from, count) && count > 0
    ensures var v := Apply(w, Deliver(from, count)); var page := IdSet(w.log[from..from + count]);
            && v == w.(pending := v.pending, lastDelivered := v.lastDelivered)
            && v.lastDelivered in w.body && Before(w.lastDelivered, v.lastDelivered)
            && v.pending.Keys == w.pending.Keys + page
            && (forall id :: id in page ==>
                  id in w.body && !Delivered(w, id) && Delivered(v, id) && v.pending[id] == Delivery(w.now, w.now))
            && (forall id :: id in w.pending && id !in page ==> v.pending[id] == w.pending[id])
            && (forall id :: id in w.body && Delivered(v, id) ==> Delivered(w, id) || id in w.capped || id in page)
  {
    hide Inv, SinkIds, DlqIds, IdSet;
    ReadIsNext(w, from, count);
    assert Unread(w, w.log[from + count - 1]);
    var page, v := IdSet(w.log[from..from + count]), Apply(w, Deliver(from, count));
    assert v.lastDelivered == w.log[from + count - 1];
    HandedOutAdds(w.pending, page, w.now);
    hide HandedOut;
    assert v.pending == w.pending + HandedOut(page, w.now);
  }

  lemma DeliverKeeps(w: World, v: World, page: set<StreamId>)
    requires Inv(w) && v == w.(pending := v.pending, lastDelivered := v.lastDelivered)
    requires v.lastDelivered in w.body && Before(w.lastDelivered, v.lastDelivered)
    requires v.pending.Keys == w.pending.Keys + page
    requires forall id :: id in page ==>
              id in w.body && !Delivered(w, id) && Delivered(v, id) && v.pending[id] == Delivery(w.now, w.now)
    requires forall id :: id in w.pending && id !in page ==> v.pending[id] == w.pending[id]
    requires forall id :: id in w.body && Delivered(v, id) ==> Delivered(w, id) || id in w.capped || id in page
    ensures Inv(v) && Evolves(w, v)
  {
    hide Records, SinkIds, DlqIds, IdSet, Sorted;
    RecordsStay(w, v);
  }

  lemma DeliverStep(w: World, from: nat, count: nat)
    requires Inv(w) && NextUnread(w, from, count)
    ensures Inv(Apply(w, Deliver(from, count)))
    ensures Evolves(w, Apply(w, Deliver(from, count)))
  {
    hide Inv, Evolves;
    if count == 0 {
      EvolvesReflexive(w);
    } else {
      DeliverEffect(w, from, count);
      DeliverKeeps(w, Apply(w, Deliver(from, count)), IdSet(w.log[from..from + count]));
    }
  }

  lemma AppendKeepsLog(w: World, id: StreamId, field: Field)
    requires Sorted(w.log) && w.body.Keys == IdSet(w.log) && (w.log != [] ==> Before(w.log[|w.log| - 1], id))
    ensures var v := Apply(w, Append(id, field));
            Sorted(v.log) && v.body.Keys == IdSet(v.log) && forall x :: x in w.body ==> Before(x, id)
  {
    hide SinkIds, DlqIds;
    var v := Apply(w, Append(id, field));
    assert v.log[..|w.log|] == w.log;
    forall x | x in w.body
      ensures Before(x, id)
    {
      IdSetIsContents(w.log, x);
    }
  }

  lemma AppendKeepsMarks(w: World, id: StreamId, field: Field)
    requires Marks(w) && Before(ZERO, id) && forall x :: x in w.body ==> Before(x, id)
    ensures Marks(Apply(w, Append(id, field)))
  {
  }

  lemma AppendKeepsAccounts(w: World, id: StreamId, field: Field)
    requires Marks(w) && Accounts(w) && Before(ZERO, id) && forall x :: x in w.body ==> Before(x, id)
    ensures Accounts(Apply(w, Append(id, field))) && Evolves(w, Apply(w, Append(id, field)))
  {
    hide SinkIds, DlqIds, Hollow;
  }

  lemma AppendStep(w: World, id: StreamId, field: Field)
    requires Inv(w) && Before(ZERO, id) && (w.log != [] ==> Before(w.log[|w.log| - 1], id))
    ensures Inv(Apply(w, Append(id, field)))
    ensures Evolves(w, Apply(w, Append(id, field)))
  {
    AppendKeepsLog(w, id, field);
    hide Records, SinkIds, DlqIds, IdSet, Sorted, Hollow, Marks, Accounts, Evolves;
    RecordsStay(w, Apply(w, Append(id, field)));
    AppendKeepsMarks(w, id, field);
    AppendKeepsAccounts(w, id, field);
  }

  lemma TickStep(w: World, to: int)
    requires Inv(w) && w.now <= to
    ensures Inv(Apply(w, Tick(to))) && Evolves(w, Apply(w, Tick(to)))
  {
    hide Records, SinkIds, DlqIds, IdSet, Sorted;
    RecordsStay(w, Apply(w, Tick(to)));
  }

  lemma ClaimStep(w: World, cursor: StreamId, next: Option<StreamId>, minIdle: int)
    requires Inv(w)
    ensures Inv(Apply(w, Claim(cursor, next, minIdle)))
    ensures Evolves(w, Apply(w, Claim(cursor, next, minIdle)))
  {
    hide Records, SinkIds, DlqIds, IdSet, Sorted;
    RecordsStay(w, Apply(w, Claim(cursor, next, minIdle)));
  }

  lemma StoreRecords(w: World, id: StreamId, event: Event)
    requires Records(w) && id in w.body
    requires WellFormed(w.body[id]) && Parse(w.body[id]) == Candidate(event) && !Skipped(event)
    ensures Records(Apply(w, Store(id, event)))
  {
    hide DlqIds;
    var v := Apply(w, Store(id, event));
    assert v.sink[..|w.sink|] == w.sink;
  }

  lemma SinkIdsAppend(sink: seq<SinkRecord>, r: SinkRecord)
    ensures SinkIds(sink + [r]) == SinkIds(sink) + {r.id}
  {
    assert (sink + [r])[..|sink|] == sink;
  }

  lemma StoreStep(w: World, id: StreamId, event: Event)
    requires Inv(w) && id in w.body && Delivered(w, id)
    requires WellFormed(w.body[id]) && Parse(w.body[id]) == Candidate(event) && !Skipped(event)
    ensures Inv(Apply(w, Store(id, event)))
    ensures Evolves(w, Apply(w, Store(id, event)))
  {
    hide Records, IdSet, DlqIds, Sorted, WellFormed, Parse;
    StoreRecords(w, id, event);
    SinkIdsAppend(w.sink, SinkRecord(id, event));
    hide SinkIds;
  }

  /** A dead-letter record loses its payload only when the entry is gone, and then it is accounted for. */
  lemma BuryRecords(w: World, r: DlqRecord)
    requires Records(w) && Deserved(w, r.id, r.reason)
    requires r.payload == "" || r.payload == RawText(w.body[r.id])
    requires Unreplayable(w, r) ==> Clear(w, r.id) || Taken(w, r.id)
    ensures Records(Apply(w, Bury(r)))
  {
    hide SinkIds, Parse, Validates, WellFormed;
    var v := Apply(w, Bury(r));
    assert v.dlq[..|w.dlq|] == w.dlq;
    forall k | 0 <= k < |v.dlq| && Unreplayable(v, v.dlq[k])
      ensures Excused(v, k)
    {
      if k < |w.dlq| {
        assert v.dlq[..k] == w.dlq[..k] && v.dlq[k] == w.dlq[k];
      }
    }
  }

  lemma DlqIdsAppend(dlq: seq<DlqRecord>, r: DlqRecord)
    ensures DlqIds(dlq + [r]) == DlqIds(dlq) + {r.id}
  {
    assert (dlq + [r])[..|dlq|] == dlq;
  }

  lemma BuryStep(w: World, r: DlqRecord)
    requires Inv(w) && Deserved(w, r.id, r.reason) && Delivered(w, r.id)
    requires r.payload == "" || r.payload == RawText(w.body[r.id])
    requires r.read.Some? && r.payload != RawText(w.body[r.id]) ==> Before(r.id, w.floor)
    ensures Inv(Apply(w, Bury(r)))
    ensures Evolves(w, Apply(w, Bury(r)))
  {
    hide Records, IdSet, SinkIds, Sorted, RawText, Parse, Validates;
    BuryRecords(w, r);
    DlqIdsAppend(w.dlq, r);
    hide DlqIds;
  }

  lemma AckStep(w: World, ids: set<StreamId>)
    requires Inv(w) && forall id :: id in ids ==> Clear(w, id)
    ensures Inv(Apply(w, Ack(ids)))
    ensures Evolves(w, Apply(w, Ack(ids)))
  {
    hide Records, SinkIds, DlqIds, IdSet, Sorted;
    RecordsStay(w, Apply(w, Ack(ids)));
  }

  /** A trim at or below a last-delivered ID the group once reported cannot touch an unread entry. */
  lemma CutStep(w: World, minId: StreamId, checkAt: nat, infoAt: nat, clockAt: nat)
    requires Inv(w) && !Before(w.lastDelivered, minId)
    ensures Inv(Apply(w, Cut(minId, checkAt, infoAt, clockAt)))
    ensures Evolves(w, Apply(w, Cut(minId, checkAt, infoAt, clockAt)))
  {
    hide Records, SinkIds, DlqIds, IdSet, Sorted, Hollow, WellFormed;
    RecordsStay(w, Apply(w, Cut(minId, checkAt, infoAt, clockAt)));
  }

  lemma CapKeeps(w: World, v: World, minId: StreamId)
    requires Marks(w) && Accounts(w) && minId in w.body
    requires v == w.(floor := v.floor, capped := v.capped)
    requires v == w || (Before(w.floor, minId) && v.floor == minId && v.capped == w.capped + Overtaken(w, minId))
    ensures Marks(v) && Accounts(v) && Evolves(w, v)
  {
    hide SinkIds, DlqIds, Hollow;
  }

  /** A producer's cap keeps the newest entries; what it takes unread or pending is on record. */
  lemma CapStep(w: World, keepFrom: nat)
    requires Inv(w) && keepFrom < |w.log|
    ensures Inv(Apply(w, Cap(keepFrom))) && Evolves(w, Apply(w, Cap(keepFrom)))
  {
    IdSetIsContents(w.log, w.log[keepFrom]);
    hide Records, SinkIds, DlqIds, IdSet, Sorted, Settled, Hollow;
    var v := Apply(w, Cap(keepFrom));
    RecordsStay(w, v);
    assert v == w.(floor := v.floor, capped := v.capped);
    CapKeeps(w, v, w.log[keepFrom]);
  }

  /** The payload rule of a guarded dead-letter write, at the moment of the write. */
  lemma BuryGuard(ws: seq<World>, i: nat, r: DlqRecord)
    requires i < |ws| && Guard(ws, i, Bury(r))
    requires r.read.Some? ==> Evolves(ws[r.read.value], ws[i])
    ensures Deserved(ws[i], r.id, r.reason) && Delivered(ws[i], r.id)
    ensures r.payload == "" || r.payload == RawText(ws[i].body[r.id])
    ensures r.read.Some? && r.payload != RawText(ws[i].body[r.id]) ==> Before(r.id, ws[i].floor)
  {
  }

  lemma CutGuard(ws: seq<World>, i: nat, op: Op)
    requires i < |ws| && op.Cut? && Guard(ws, i, op) && Evolves(ws[op.infoAt], ws[i])
    ensures !Before(ws[i].lastDelivered, op.minId)
  {
  }

  lemma StepSound(ws: seq<World>, i: nat, op: Op)
    requires i < |ws| && Inv(ws[i]) && Guard(ws, i, op)
    requires op.Cut? ==> Evolves(ws[op.infoAt], ws[i])
    requires op.Bury? && op.record.read.Some? ==> Evolves(ws[op.record.read.value], ws[i])
    ensures Inv(Apply(ws[i], op)) && Evolves(ws[i], Apply(ws[i], op))
  {
    hide Inv, Evolves, Apply;
    match op {
      case Append(id, field) => AppendStep(ws[i], id, field);
      case Tick(to) => TickStep(ws[i], to);
      case Deliver(from, count) => DeliverStep(ws[i], from, count);
      case Claim(cursor, next, minIdle) => ClaimStep(ws[i], cursor, next, minIdle);
      case Store(id, event) => StoreStep(ws[i], id, event);
      case Bury(r) =>
        BuryGuard(ws, i, r);
        BuryStep(ws[i], r);
      case Ack(ids) => AckStep(ws[i], ids);
      case Cut(minId, checkAt, infoAt, clockAt) =>
        CutGuard(ws, i, op);
        CutStep(ws[i], minId, checkAt, infoAt, clockAt);
      case Cap(keepFrom) => CapStep(ws[i], keepFrom);
    }
  }
}
