/** What the event writer's steps mean: batches, the recovery sweep, and the reference that handles one
    entry at a time. */
module WriterSpec {
  import opened Prelude
  import opened EventLog
  import opened StreamSafety
  import opened Calls

  /** How the write of a batch ended: stored and ACKed; stored but the ACK failed; some attempt failed. */
  datatype WriteOutcome = Clean | Unacked | Failing

  /** What the select of the main loop found ready; with nothing due it reads. */
  datatype Wakeup = FlushTick | RecoveryTick | NothingDue

  /** How a flush ended. */
  datatype FlushOutcome = NothingToDo | Flushed | AckFailed | WriteFailed

  // ---- What a batch stands for ------------------------------------------------------------

  /** Event `k` of the batch is the one delivered under ID `k`. */
  ghost predicate Aligned(w: World, batch: seq<Event>, ids: seq<StreamId>) {
    && |batch| == |ids|
    && forall k :: 0 <= k < |ids| ==>
         ids[k] in w.body && Delivered(w, ids[k]) && Parse(w.body[ids[k]]) == Candidate(batch[k])
  }

  ghost predicate AllHanded(w: World, ids: set<StreamId>) {
    forall id :: id in ids ==> id in w.body && Delivered(w, id)
  }

  /** Each noted entry was handed out and deserves the noted reason. */
  ghost predicate Noted(w: World, poison: map<StreamId, Reason>) {
    AllHanded(w, poison.Keys) && forall id :: id in poison ==> Deserved(w, id, poison[id])
  }

  lemma NotedStays(a: Run, b: Run, poison: map<StreamId, Reason>)
    requires Onward(a, b) && Noted(a.w, poison)
    ensures Noted(b.w, poison)
  {
    hide Parse, Validates;
    forall id | id in poison
      ensures Deserved(b.w, id, poison[id])
    {
      DeservedStays(a.w, b.w, id, poison[id]);
    }
  }

  lemma DeservedInRun(a: Run, b: Run, id: StreamId, reason: Reason)
    requires Onward(a, b) && Deserved(a.w, id, reason)
    ensures Deserved(b.w, id, reason)
  {
    DeservedStays(a.w, b.w, id, reason);
  }

  lemma NotedAt(w: World, poison: map<StreamId, Reason>, id: StreamId)
    requires Noted(w, poison) && id in poison
    ensures AllHanded(w, {id}) && Deserved(w, id, poison[id])
  {
  }

  lemma NotedAll(w: World, poison: map<StreamId, Reason>, ids: set<StreamId>)
    requires Noted(w, poison) && ids <= poison.Keys
    ensures AllHanded(w, ids)
  {
  }

  lemma NothingNoted(w: World)
    ensures Noted(w, map[]) && Aligned(w, [], [])
  {
  }

  lemma PoisonDeserved(w: World, e: Entry, reason: Reason)
    requires Handed(w, e) && Parse(e.field) == Poison(reason)
    ensures Deserved(w, e.id, reason) && AllHanded(w, {e.id})
  {
  }

  lemma NotedAppend(w: World, poison: map<StreamId, Reason>, e: Entry, reason: Reason)
    requires Noted(w, poison) && Handed(w, e) && Parse(e.field) == Poison(reason)
    ensures Noted(w, poison[e.id := reason]) && poison[e.id := reason].Keys == poison.Keys + {e.id}
  {
    PoisonDeserved(w, e, reason);
    hide Deserved, Parse;
  }

  /** The part of a batch that validates, in order, with the IDs it came under. */
  function Valids(batch: seq<Event>, ids: seq<StreamId>): (r: seq<SinkRecord>)
    requires |batch| == |ids|
  {
    if batch == [] then [] else
      var n := |batch| - 1;
      Valids(batch[..n], ids[..n]) + if Validates(batch[n]) then [SinkRecord(ids[n], batch[n])] else []
  }

  /** The records among them that a sink which accepts all of them ends up with. */
  function Landed(records: seq<SinkRecord>): seq<SinkRecord> {
    if records == [] then [] else
      var n := |records| - 1;
      Landed(records[..n]) + Record(records[n].id, records[n].event)
  }

  lemma LandedAppend(records: seq<SinkRecord>, r: SinkRecord)
    ensures Landed(records + [r]) == Landed(records) + Record(r.id, r.event)
  {
    assert (records + [r])[..|records|] == records;
  }

  /** The IDs of the part that does not. */
  function Malformeds(batch: seq<Event>, ids: seq<StreamId>): (r: seq<StreamId>)
    requires |batch| == |ids|
  {
    if batch == [] then [] else
      var n := |batch| - 1;
      Malformeds(batch[..n], ids[..n]) + if Validates(batch[n]) then [] else [ids[n]]
  }

  function RecordIds(records: seq<SinkRecord>): (ids: seq<StreamId>)
    ensures |ids| == |records|
    ensures forall k :: 0 <= k < |ids| ==> ids[k] == records[k].id
  {
    seq(|records|, k requires 0 <= k < |records| => records[k].id)
  }

  /** The IDs with a dead-letter record, in the order of the records. */
  function Buried(dlq: seq<DlqRecord>): (ids: seq<StreamId>)
    ensures |ids| == |dlq|
    ensures forall k :: 0 <= k < |ids| ==> ids[k] == dlq[k].id
  {
    seq(|dlq|, k requires 0 <= k < |dlq| => dlq[k].id)
  }

  /** Every record may be written for the entry it names. */
  ghost predicate Storable(w: World, records: seq<SinkRecord>) {
    forall k :: 0 <= k < |records| ==>
      && records[k].id in w.body && Delivered(w, records[k].id)
      && Parse(w.body[records[k].id]) == Candidate(records[k].event) && Validates(records[k].event)
  }

  /** At most `ids` left the pending list; the other entries are as they were. */
  predicate Shrunk(w: World, v: World, ids: set<StreamId>) {
    && (forall id :: id in v.pending ==> id in w.pending && v.pending[id] == w.pending[id])
    && (forall id :: id in w.pending && id !in ids ==> id in v.pending)
  }

  /** Only dead letters were written, and at most `ids` left the pending list. */
  predicate OnlyBurials(w: World, v: World, ids: set<StreamId>) {
    v.sink == w.sink && SamePosition(w, v) && Shrunk(w, v, ids)
  }

  /** Each of `ids` got one more dead-letter record and left the pending list. */
  predicate AllBuried(w: World, v: World, ids: multiset<StreamId>) {
    && multiset(Buried(v.dlq)) == multiset(Buried(w.dlq)) + ids
    && forall id :: id in ids ==> id !in v.pending && id in DlqIds(v.dlq)
  }

  lemma StorableStays(a: Run, b: Run, records: seq<SinkRecord>)
    requires Onward(a, b) && Storable(a.w, records)
    ensures Storable(b.w, records)
  {
  }

  predicate AllAccepted(w: World, ids: set<StreamId>) {
    forall id :: id in ids ==> Accepted(w, id)
  }

  lemma AcceptedIsClear(w: World, ids: set<StreamId>)
    requires AllAccepted(w, ids)
    ensures forall id :: id in ids ==> Clear(w, id)
  {
  }

  lemma SafeStays(a: Run, b: Run, ids: set<StreamId>)
    requires Onward(a, b)
    ensures AllAccepted(a.w, ids) ==> AllAccepted(b.w, ids)
    ensures ids <= DlqIds(a.w.dlq) ==> ids <= DlqIds(b.w.dlq)
  {
  }

  /** Once settled and off the pending list, an entry never comes back to it. */
  lemma GoneStays(a: Run, b: Run, ids: set<StreamId>)
    requires Onward(a, b) && AllHanded(a.w, ids) && a.w.pending.Keys !! ids
    ensures b.w.pending.Keys !! ids
  {
  }

  /** Each has a dead-letter record and is not pending; and if Redis is up, a record written since `first` after
      a lookup of its text. */
  ghost predicate AllGone(first: Run, b: Run, ids: set<StreamId>, up: bool) {
    forall id :: id in ids ==> id in DlqIds(b.w.dlq) && id !in b.w.pending && (up ==> Recorded(first, b, id))
  }

  lemma AllGoneStays(first: Run, a: Run, b: Run, ids: set<StreamId>, up: bool)
    requires Onward(a, b) && AllHanded(a.w, ids) && AllGone(first, a, ids, up)
    ensures AllGone(first, b, ids, up)
  {
    hide DlqIds, Recorded;
    SafeStays(a, b, ids);
    GoneStays(a, b, ids);
    forall id | id in ids && up
      ensures Recorded(first, b, id)
    {
      RecordedStays(first, a, b, id);
    }
  }

  lemma HandedUnion(w: World, a: set<StreamId>, b: set<StreamId>)
    requires AllHanded(w, a) && AllHanded(w, b)
    ensures AllHanded(w, a + b)
  {
  }

  lemma NoneGone(run: Run, up: bool)
    ensures AllGone(run, run, {}, up) && AllHanded(run.w, {})
  {
  }

  lemma OneMoreGone(first: Run, mid: Run, b: Run, ids: set<StreamId>, id: StreamId, up: bool)
    requires Onward(first, mid) && AllGone(first, b, ids, up)
    requires id in DlqIds(b.w.dlq) && id !in b.w.pending && (up ==> Recorded(mid, b, id))
    ensures AllGone(first, b, ids + {id}, up)
  {
    hide DlqIds, Recorded, Onward;
    if up {
      RecordedSinceEarlier(first, mid, b, id);
    }
  }

  lemma AlignedShape(w: World, batch: seq<Event>, ids: seq<StreamId>)
    requires Aligned(w, batch, ids)
    ensures |batch| == |ids| && AllHanded(w, IdSet(ids))
  {
    forall id | id in IdSet(ids)
      ensures id in w.body && Delivered(w, id)
    {
      IdSetIsContents(ids, id);
    }
  }

  lemma HeldHanded(w: World, batch: seq<Event>, ids: seq<StreamId>, poison: map<StreamId, Reason>)
    requires Aligned(w, batch, ids) && Noted(w, poison)
    ensures AllHanded(w, IdSet(ids) + poison.Keys)
  {
    AlignedShape(w, batch, ids);
  }

  lemma PageHanded(w: World, page: seq<Entry>, k: nat)
    requires k <= |page| && forall j :: 0 <= j < |page| ==> Handed(w, page[j])
    ensures AllHanded(w, IdSet(EntryIds(page[..k])))
  {
    forall id | id in IdSet(EntryIds(page[..k]))
      ensures id in w.body && Delivered(w, id)
    {
      IdSetIsContents(EntryIds(page[..k]), id);
    }
  }

  lemma RecordedLast(a: Run, b: Run, c: Run, id: StreamId)
    requires Onward(a, b) && Onward(b, c) && |b.w.dlq| < |c.w.dlq|
    requires var r := c.w.dlq[|c.w.dlq| - 1]; r.id == id && r.read.Some? && r.read.value >= |b.ops|
    ensures Recorded(a, c, id)
  {
    assert RecordedAt(a, c, id, |c.w.dlq| - 1);
  }

  /** Each is off the pending list: accepted by the sink, or recorded since `a`. */
  ghost predicate AllFinished(a: Run, b: Run, ids: set<StreamId>) {
    forall id :: id in ids ==> id !in b.w.pending && (Accepted(b.w, id) || Recorded(a, b, id))
  }

  lemma NoneFinished(a: Run, b: Run)
    ensures AllFinished(a, b, {})
  {
  }

  lemma GoneIsFinished(a: Run, b: Run, ids: set<StreamId>)
    requires AllGone(a, b, ids, true)
    ensures AllFinished(a, b, ids)
  {
  }

  lemma AcceptedIsFinished(a: Run, b: Run, ids: set<StreamId>)
    requires AllAccepted(b.w, ids) && b.w.pending.Keys !! ids
    ensures AllFinished(a, b, ids)
  {
  }

  lemma FinishedStays(a: Run, b: Run, c: Run, ids: set<StreamId>)
    requires Onward(b, c) && AllHanded(b.w, ids) && AllFinished(a, b, ids)
    ensures AllFinished(a, c, ids)
  {
    GoneStays(b, c, ids);
    forall id | id in ids
      ensures Accepted(c.w, id) || Recorded(a, c, id)
    {
      hide Recorded;
      if Recorded(a, b, id) {
        RecordedStays(a, b, c, id);
      }
    }
  }

  lemma FinishedSinceEarlier(a: Run, b: Run, c: Run, ids: set<StreamId>)
    requires Onward(a, b) && AllFinished(b, c, ids)
    ensures AllFinished(a, c, ids)
  {
    hide Accepted;
    forall id | id in ids && Recorded(b, c, id)
      ensures Recorded(a, c, id)
    {
      RecordedSinceEarlier(a, b, c, id);
    }
  }

  /** What leaves a memory that held `held` and took in `more`. */
  lemma FinishedTwice(a: Run, b: Run, c: Run, held: set<StreamId>, more: set<StreamId>, kept: set<StreamId>,
                      later: set<StreamId>, left: set<StreamId>)
    requires Onward(a, b) && Onward(b, c) && AllHanded(b.w, held + more)
    requires AllFinished(a, b, held + more - kept) && AllFinished(b, c, kept + later - left)
    ensures AllFinished(a, c, held + (more + later) - left)
  {
    hide Onward;
    FinishedStays(a, b, c, held + more - kept);
    FinishedSinceEarlier(a, b, c, kept + later - left);
  }

  /** What was set out to be buried since `before`, each as often as `ids` says. */
  predicate Attempts(before: seq<StreamId>, after: seq<StreamId>, ids: multiset<StreamId>) {
    before <= after && multiset(after[|before|..]) == ids
  }

  lemma NoAttempts(a: seq<StreamId>)
    ensures forall none: set<StreamId> :: none == {} ==> Attempts(a, a, multiset(none) + multiset{})
  {
    assert a[|a|..] == [];
  }

  lemma SameAttempts(a: seq<StreamId>, b: seq<StreamId>, ids: multiset<StreamId>)
    requires Attempts(a, b, ids)
    ensures Attempts(a, b, ids + multiset{}) && Attempts(a, b, ids + multiset([]))
  {
  }

  lemma MoreAttempts(a: seq<StreamId>, b: seq<StreamId>, ids: multiset<StreamId>, more: seq<StreamId>)
    requires Attempts(a, b, ids)
    ensures Attempts(a, b + more, ids + multiset(more))
  {
    assert (b + more)[|a|..] == b[|a|..] + more;
  }

  lemma {:induction false} ValidsAreStorable(w: World, batch: seq<Event>, ids: seq<StreamId>)
    requires Aligned(w, batch, ids)
    ensures Storable(w, Valids(batch, ids))
  {
    if batch != [] {
      var n := |batch| - 1;
      ValidsAreStorable(w, batch[..n], ids[..n]);
    }
  }

  /** What a flush notes about the malformed part of its batch. */
  function Rejected(ids: seq<StreamId>): (m: map<StreamId, Reason>)
    ensures m.Keys == IdSet(ids)
  {
    map id | id in IdSet(ids) :: ValidationFailed
  }

  lemma IdSetAppend(ids: seq<StreamId>, id: StreamId)
    ensures IdSet(ids + [id]) == IdSet(ids) + {id}
  {
    assert (ids + [id])[..|ids|] == ids;
  }

  lemma RejectOneMore(w: World, ids: seq<StreamId>, id: StreamId)
    requires Noted(w, Rejected(ids)) && AllHanded(w, {id}) && Deserved(w, id, ValidationFailed)
    ensures Noted(w, Rejected(ids + [id]))
  {
    hide Deserved, IdSet, Delivered;
    IdSetAppend(ids, id);
    forall x | x in IdSet(ids)
      ensures Deserved(w, x, ValidationFailed)
    {
      NotedAt(w, Rejected(ids), x);
    }
  }

  lemma {:induction false} MalformedsAreRejected(w: World, batch: seq<Event>, ids: seq<StreamId>)
    requires Aligned(w, batch, ids)
    ensures Noted(w, Rejected(Malformeds(batch, ids)))
  {
    if batch != [] {
      var n := |batch| - 1;
      var before := Malformeds(batch[..n], ids[..n]);
      MalformedsAreRejected(w, batch[..n], ids[..n]);
      if Validates(batch[n]) {
        assert before + [] == before;
      } else {
        assert Deserved(w, ids[n], ValidationFailed);
        RejectOneMore(w, before, ids[n]);
      }
    }
  }

  lemma RecordsSoFar(valid: seq<SinkRecord>, k: nat)
    requires k < |valid|
    ensures IdSet(RecordIds(valid[..k + 1])) == IdSet(RecordIds(valid[..k])) + {valid[k].id}
    ensures Landed(valid[..k + 1]) == Landed(valid[..k]) + Record(valid[k].id, valid[k].event)
  {
    assert valid[..k + 1] == valid[..k] + [valid[k]];
    LandedAppend(valid[..k], valid[k]);
    assert RecordIds(valid[..k + 1]) == RecordIds(valid[..k]) + [valid[k].id];
    IdSetAppend(RecordIds(valid[..k]), valid[k].id);
  }

  /** A replica's memory stays meaningful whatever the others do. */
  lemma MemoryStays(a: Run, b: Run, batch: seq<Event>, ids: seq<StreamId>, poison: set<StreamId>)
    requires Onward(a, b)
    ensures Aligned(a.w, batch, ids) ==> Aligned(b.w, batch, ids)
    ensures AllHanded(a.w, poison) ==> AllHanded(b.w, poison)
  {
  }

  lemma OneMoreBuried(u: World, a: Run, b: Run, done: multiset<StreamId>, id: StreamId)
    requires AllBuried(u, a.w, done) && Onward(a, b)
    requires forall x :: x in done ==> x in a.w.body && Delivered(a.w, x)
    requires id !in b.w.pending && id in DlqIds(b.w.dlq) && Buried(b.w.dlq) == Buried(a.w.dlq) + [id]
    ensures AllBuried(u, b.w, done + multiset{id})
  {
  }

  lemma NoneBuried(w: World)
    ensures OnlyBurials(w, w, {}) && AllBuried(w, w, multiset{})
  {
  }

  /** Burying one more of a list of entries. */
  lemma BurialStep(u: World, a: Run, b: Run, ids: seq<StreamId>, k: nat, buried: bool)
    requires Onward(a, b) && AllHanded(a.w, IdSet(ids)) && k < |ids|
    requires OnlyBurials(u, a.w, IdSet(ids[..k])) && OnlyBurials(a.w, b.w, {ids[k]})
    requires buried ==> AllBuried(u, a.w, multiset(ids[..k]))
    requires buried ==> ids[k] !in b.w.pending && ids[k] in DlqIds(b.w.dlq)
    requires buried ==> Buried(b.w.dlq) == Buried(a.w.dlq) + [ids[k]]
    ensures OnlyBurials(u, b.w, IdSet(ids[..k + 1]))
    ensures buried ==> AllBuried(u, b.w, multiset(ids[..k + 1]))
  {
    hide Onward, Buried, DlqIds;
    assert ids[..k + 1] == ids[..k] + [ids[k]];
    IdSetAppend(ids[..k], ids[k]);
    if buried {
      forall x | x in multiset(ids[..k])
        ensures x in a.w.body && Delivered(a.w, x)
      {
        IdSetIsContents(ids, x);
      }
      OneMoreBuried(u, a, b, multiset(ids[..k]), ids[k]);
    }
  }

  lemma HandedAt(w: World, ids: seq<StreamId>, k: nat)
    requires AllHanded(w, IdSet(ids)) && k < |ids|
    ensures AllHanded(w, {ids[k]}) && ids[k] in IdSet(ids)
  {
    IdSetIsContents(ids, ids[k]);
  }

  /** Some record of the batch fails at every write. */
  predicate AnyRefused(mode: SinkMode, records: seq<SinkRecord>) {
    exists k :: 0 <= k < |records| && Refuses(mode, records[k].event)
  }

  lemma NoneRefused(mode: SinkMode)
    ensures !AnyRefused(mode, [])
  {
  }

  /** With a sink that is down, that is any record it does not skip. */
  lemma {:induction false} DownRefuses(records: seq<SinkRecord>)
    ensures AnyRefused(Down, records) <==> Landed(records) != []
  {
    if records != [] {
      var n := |records| - 1;
      DownRefuses(records[..n]);
      assert forall k :: 0 <= k < n ==> records[k] == records[..n][k];
      assert Refuses(Down, records[n].event) <==> Record(records[n].id, records[n].event) != [];
      hide Refuses, Record;
    }
  }

  lemma NoRecords(w: World)
    ensures AllAccepted(w, IdSet(RecordIds([]))) && Landed([]) == []
  {
  }

  lemma StorableAt(w: World, records: seq<SinkRecord>, k: nat)
    requires Storable(w, records) && k < |records|
    ensures var r := records[k];
            r.id in w.body && Delivered(w, r.id) && Parse(w.body[r.id]) == Candidate(r.event) && Validates(r.event)
  {
  }

  lemma {:induction false} BatchSplits(batch: seq<Event>, ids: seq<StreamId>)
    requires |batch| == |ids|
    ensures IdSet(RecordIds(Valids(batch, ids))) + IdSet(Malformeds(batch, ids)) == IdSet(ids)
  {
    if batch != [] {
      var n := |batch| - 1;
      var valid, malformed := Valids(batch[..n], ids[..n]), Malformeds(batch[..n], ids[..n]);
      BatchSplits(batch[..n], ids[..n]);
      IdSetAppend(malformed, ids[n]);
      assert RecordIds(valid + [SinkRecord(ids[n], batch[n])]) == RecordIds(valid) + [ids[n]];
      IdSetAppend(RecordIds(valid), ids[n]);
      assert valid + [] == valid && malformed + [] == malformed;
    }
  }

  /** A fault-free flush: the valid part of the batch is in the sink, in order; the rest and the noted
      poison have one more dead-letter record each; none of it is pending any more. */
  predicate FlushedAll(w: World, v: World, batch: seq<Event>, ids: seq<StreamId>, poison: set<StreamId>)
    requires |batch| == |ids|
  {
    && SamePosition(w, v)
    && v.sink == w.sink + Landed(Valids(batch, ids))
    && multiset(Buried(v.dlq)) == multiset(Buried(w.dlq)) + multiset(poison) + multiset(Malformeds(batch, ids))
    && v.pending.Keys == w.pending.Keys - poison - IdSet(ids)
  }

  /** The sink has accepted every record, and its entry is no longer pending. */
  predicate Written(w: World, valid: seq<SinkRecord>) {
    AllAccepted(w, IdSet(RecordIds(valid))) && w.pending.Keys !! IdSet(RecordIds(valid))
  }

  lemma {:induction false} StorableHanded(w: World, records: seq<SinkRecord>)
    requires Storable(w, records)
    ensures AllHanded(w, IdSet(RecordIds(records)))
  {
    hide Parse, Validates;
    forall id | id in IdSet(RecordIds(records))
      ensures id in w.body && Delivered(w, id)
    {
      IdSetIsContents(RecordIds(records), id);
    }
  }

  lemma WrittenStays(a: Run, b: Run, valid: seq<SinkRecord>)
    requires Onward(a, b) && Storable(a.w, valid) && Written(a.w, valid)
    ensures Written(b.w, valid)
  {
    StorableHanded(a.w, valid);
    hide Storable, IdSet, RecordIds;
    SafeStays(a, b, IdSet(RecordIds(valid)));
    GoneStays(a, b, IdSet(RecordIds(valid)));
  }

  /** What a flush leaves of the batch in memory: nothing, or all of it. */
  predicate EmptiedOrKept(batch0: seq<Event>, ids0: seq<StreamId>, batch: seq<Event>, ids: seq<StreamId>) {
    (batch == [] && ids == []) || (batch == batch0 && ids == ids0)
  }

  /** The effect of writing and ACKing a batch on the shared state. */
  predicate WroteBatch(w: World, v: World, valid: seq<SinkRecord>) {
    && v.dlq == w.dlq && SamePosition(w, v)
    && v.sink == w.sink + Landed(valid) && v.pending == w.pending - IdSet(RecordIds(valid))
  }

  lemma FlushComposes(u: World, a: World, b: World, c: World, batch: seq<Event>, ids: seq<StreamId>,
                      poison: set<StreamId>)
    requires |batch| == |ids|
    requires OnlyBurials(u, a, poison) && AllBuried(u, a, multiset(poison))
    requires WroteBatch(a, b, Valids(batch, ids))
    requires OnlyBurials(b, c, IdSet(Malformeds(batch, ids))) && AllBuried(b, c, multiset(Malformeds(batch, ids)))
    ensures FlushedAll(u, c, batch, ids, poison)
  {
    hide Buried;
    BatchSplits(batch, ids);
    forall id | id in poison
      ensures id !in a.pending
    {
      assert id in multiset(poison);
    }
    forall id | id in IdSet(Malformeds(batch, ids))
      ensures id !in c.pending
    {
      IdSetIsContents(Malformeds(batch, ids), id);
      assert id in multiset(Malformeds(batch, ids));
    }
  }

  /** Nothing was in the batch. */
  lemma FlushOfPoisonOnly(u: World, a: World, poison: set<StreamId>)
    requires OnlyBurials(u, a, poison) && AllBuried(u, a, multiset(poison))
    ensures FlushedAll(u, a, [], [], poison)
  {
    forall id | id in poison
      ensures id !in a.pending
    {
      assert id in multiset(poison);
    }
  }

  /** A flush that succeeds is done with all that was in memory. */
  lemma FlushFinishes(first: Run, cleared: Run, stored: Run, now: Run, batch: seq<Event>, ids: seq<StreamId>,
                      poison: set<StreamId>)
    requires Onward(first, cleared) && Onward(cleared, stored) && Onward(stored, now) && |batch| == |ids|
    requires AllHanded(cleared.w, poison) && AllGone(first, cleared, poison, true)
    requires Written(now.w, Valids(batch, ids)) && AllGone(stored, now, IdSet(Malformeds(batch, ids)), true)
    ensures AllGone(first, now, poison, true) && AllFinished(first, now, IdSet(ids) + poison)
  {
    var valid, malformed := IdSet(RecordIds(Valids(batch, ids))), IdSet(Malformeds(batch, ids));
    BatchSplits(batch, ids);
    OnwardTransitive(true, cleared, stored, now);
    OnwardTransitive(true, first, cleared, stored);
    AllGoneStays(first, cleared, now, poison, true);
    GoneIsFinished(first, now, poison);
    AcceptedIsFinished(first, now, valid);
    GoneIsFinished(stored, now, malformed);
    FinishedSinceEarlier(first, stored, now, malformed);
    hide Valids, Malformeds, IdSet, AllGone, Onward, Accepted, Recorded;
    assert AllFinished(first, now, valid + malformed + poison);
  }

  lemma NothingWritten(w: World)
    ensures WroteBatch(w, w, []) && Written(w, [])
  {
  }

  lemma BurialsKept(u: World, a: World, b: World, ids: multiset<StreamId>)
    requires AllBuried(u, a, ids) && b.dlq == a.dlq && b.pending.Keys <= a.pending.Keys
    ensures AllBuried(u, b, ids)
  {
  }

  lemma NothingFlushed(w: World)
    ensures FlushedAll(w, w, [], [], {})
  {
  }

  // ---- Recovery ---------------------------------------------------------------------------

  function MessageAge(now: int, id: StreamId): int { now - id.ms }

  /** An entry recovery gives up on: stuck for too long, or not storable. */
  predicate MustBury(w: World, id: StreamId) {
    id in w.body && (MessageAge(w.now, id) > STUCK_AFTER_MS || !WellFormed(w.body[id]))
  }

  /** A well-formed entry that is not stuck at this time. */
  predicate Young(w: World, id: StreamId, now: int) {
    id in w.body && WellFormed(w.body[id]) && MessageAge(now, id) <= STUCK_AFTER_MS
  }

  /** Recovery may leave the entry pending: it is young, and its write can fail. */
  predicate Doubtful(w: World, id: StreamId, now: int, mode: SinkMode) {
    Young(w, id, now) && !Takes(mode, Parse(w.body[id]).event)
  }

  /** Recovery must leave the entry pending: it is young, and its write is sure to fail. */
  predicate Hopeless(w: World, id: StreamId, now: int, mode: SinkMode) {
    Young(w, id, now) && Refuses(mode, Parse(w.body[id]).event)
  }

  /** Recovery, started in `a`, is done with the entry: it is off the pending list, in the sink or the DLQ or
      skipped by the sink, and if it had to be given up on, recorded since, with a lookup of its text. */
  ghost predicate Dealt(a: Run, b: Run, id: StreamId) {
    id !in b.w.pending && Clear(b.w, id) && (MustBury(a.w, id) ==> Recorded(a, b, id))
  }

  /** What recovery made of the entries it claimed since `a`, whatever others did: only a doubtful write
      failed, every hopeless one did, and with Redis up it is done with all the others. */
  ghost predicate Recovered(a: Run, b: Run, claimed: set<StreamId>, failed: set<StreamId>, up: bool, mode: SinkMode) {
    && failed <= claimed && AllHanded(b.w, claimed)
    && (forall id :: id in failed ==> Doubtful(b.w, id, a.w.now, mode))
    && (forall id :: id in claimed && Hopeless(b.w, id, b.w.now, mode) ==> id in failed)
    && (up ==> forall id :: id in claimed && id !in failed ==> Dealt(a, b, id))
  }

  /** What had to be given up on has a dead letter written since, with a lookup of its text, and is not pending. */
  ghost predicate Interred(a: Run, b: Run, ids: set<StreamId>) {
    forall id :: id in ids && MustBury(a.w, id) ==> Recorded(a, b, id) && id !in b.w.pending
  }

  /** No write of such an entry can have failed, so recovery is done with all of them. */
  lemma GivenUp(first: Run, v: Run, claimed: set<StreamId>, failed: set<StreamId>, up: bool, mode: SinkMode)
    requires Onward(first, v) && Recovered(first, v, claimed, failed, up, mode)
    ensures up ==> Interred(first, v, claimed)
  {
    hide Recorded, DlqIds, SinkIds, Takes, Refuses, Clear, Hopeless;
    OnwardEvolves(first, v);
  }

  /** Undisturbed, what was claimed was pending, and an entry leaves the pending list only if recovery is done
      with it or it had been taken from the stream. */
  predicate Kept(w0: World, v: World, claimed: set<StreamId>, failed: set<StreamId>) {
    && claimed <= w0.pending.Keys
    && forall id :: id in w0.pending && id !in claimed - failed ==> id in v.pending || Taken(v, id)
  }

  lemma NothingRecovered(run: Run, up: bool, mode: SinkMode)
    ensures Recovered(run, run, {}, {}, up, mode) && Shrunk(run.w, run.w, {}) && Kept(run.w, run.w, {}, {})
  {
  }

  /** What recovery is done with, it stays done with. */
  lemma RecoveredStays(first: Run, a: Run, b: Run, claimed: set<StreamId>, failed: set<StreamId>, up: bool,
                       mode: SinkMode)
    requires Onward(a, b) && Recovered(first, a, claimed, failed, up, mode)
    ensures Recovered(first, b, claimed, failed, up, mode)
  {
    hide WellFormed, Parse, DlqIds, SinkIds, Takes, Refuses, Skipped, Recorded;
    forall id | Recorded(first, a, id)
      ensures Recorded(first, b, id)
    {
      RecordedStays(first, a, b, id);
    }
  }

  lemma RecoveredSinceEarlier(a: Run, b: Run, v: Run, claimed: set<StreamId>, failed: set<StreamId>, up: bool,
                              mode: SinkMode)
    requires Onward(a, b) && Recovered(b, v, claimed, failed, up, mode)
    ensures Recovered(a, v, claimed, failed, up, mode)
  {
    hide WellFormed, Parse, DlqIds, SinkIds, Takes, Refuses, Skipped, Recorded;
    forall id | Recorded(b, v, id)
      ensures Recorded(a, v, id)
    {
      RecordedSinceEarlier(a, b, v, id);
    }
  }

  lemma NoLarger(a: set<StreamId>, b: set<StreamId>)
    requires a <= b
    ensures |a| <= |b|
  {
    assert b == a + (b - a);
  }

  /** The entries whose write failed, after a page on which the writes of `more` failed. */
  function StillFailed(claimed: set<StreamId>, failed: set<StreamId>, page: set<StreamId>, more: set<StreamId>)
    : set<StreamId>
  {
    (failed - (page - more)) + (more - claimed)
  }

  lemma FewFailed(claimed: set<StreamId>, failed: set<StreamId>, page: set<StreamId>, more: set<StreamId>)
    ensures |StillFailed(claimed, failed, page, more)| <= |failed| + |more|
  {
    NoLarger(failed - (page - more), failed);
    NoLarger(more - claimed, more);
    var a, b := failed - (page - more), more - claimed;
    assert a + b == a + (b - a);
    NoLarger(b - a, b);
    assert |a + (b - a)| == |a| + |b - a|;
  }

  lemma RecoveredBoth(w0: Run, v: Run, claimed: set<StreamId>, failed: set<StreamId>,
                      page: set<StreamId>, more: set<StreamId>, up: bool, mode: SinkMode)
    requires Recovered(w0, v, claimed, failed, up, mode) && Recovered(w0, v, page, more, up, mode)
    ensures Recovered(w0, v, claimed + page, StillFailed(claimed, failed, page, more), up, mode)
  {
    hide Dealt, Doubtful, Hopeless, Delivered;
  }

  /** One more page, or one more entry, of a recovery that began in `first`. */
  lemma RecoveredNext(first: Run, mid: Run, now: Run, claimed: set<StreamId>, failed: set<StreamId>,
                      page: set<StreamId>, more: set<StreamId>, up: bool, mode: SinkMode)
    requires Onward(first, mid) && Onward(mid, now)
    requires Recovered(first, mid, claimed, failed, up, mode) && Recovered(mid, now, page, more, up, mode)
    ensures Recovered(first, now, claimed + page, StillFailed(claimed, failed, page, more), up, mode)
  {
    hide Onward, Recovered, StillFailed;
    RecoveredStays(first, mid, now, claimed, failed, up, mode);
    RecoveredSinceEarlier(first, mid, now, page, more, up, mode);
    RecoveredBoth(first, now, claimed, failed, page, more, up, mode);
  }

  lemma FailedWereClaimed(w0: Run, v: Run, claimed: set<StreamId>, failed: set<StreamId>, up: bool,
                          mode: SinkMode)
    requires Recovered(w0, v, claimed, failed, up, mode)
    ensures failed <= claimed
  {
  }

  lemma AcceptedStays(a: Run, b: Run, id: StreamId)
    requires Onward(a, b) && Accepted(a.w, id)
    ensures Accepted(b.w, id)
  {
  }

  /** A stuck or poison entry: with Redis up it has its dead letter, and no failed write. */
  lemma RecoveredByBurial(first: Run, timed: Run, now: Run, msg: Entry, up: bool, mode: SinkMode)
    requires Onward(first, timed) && Onward(timed, now) && Handed(timed.w, msg)
    requires MessageAge(timed.w.now, msg.id) > STUCK_AFTER_MS || Parse(msg.field).Poison?
    requires up ==> Recorded(timed, now, msg.id) && msg.id !in now.w.pending
    ensures Recovered(first, now, {msg.id}, {}, up, mode)
  {
    hide Validates, DlqIds, SinkIds, Parse, Recorded;
    if up {
      RecordedSinceEarlier(first, timed, now, msg.id);
      RecordedIsInDlq(timed, now, msg.id);
    }
    HandedStays(timed.w, now.w, msg);
  }

  /** An entry with an event that is not stuck: what its write made of it. */
  lemma RecoveredByWrite(first: Run, timed: Run, now: Run, msg: Entry, event: Event, r: EmitResult, up: bool,
                         mode: SinkMode)
    requires Onward(first, timed) && Onward(timed, now) && Handed(timed.w, msg)
    requires MessageAge(timed.w.now, msg.id) <= STUCK_AFTER_MS && Parse(msg.field) == Candidate(event)
    requires (r.Malformed? <==> !Validates(event)) && (Validates(event) && Takes(mode, event) ==> r.Emitted?)
    requires Refuses(mode, event) ==> !r.Emitted?
    requires up && !r.Transient? ==> msg.id !in now.w.pending
    requires up && r.Emitted? ==> Accepted(now.w, msg.id)
    requires up && r.Malformed? ==> Recorded(timed, now, msg.id)
    ensures Recovered(first, now, {msg.id}, if r.Transient? then {msg.id} else {}, up, mode)
  {
    hide Validates, DlqIds, SinkIds, Parse, Takes, Refuses, Recorded;
    if up && r.Malformed? {
      RecordedSinceEarlier(first, timed, now, msg.id);
      RecordedIsInDlq(timed, now, msg.id);
    }
    HandedStays(timed.w, now.w, msg);
  }

  /** With a sink that takes every event there is, no write failed. */
  lemma NoneFailed(w0: Run, run: Run, claimed: set<StreamId>, failed: set<StreamId>, up: bool)
    requires Sound(run, true) && Recovered(w0, run, claimed, failed, up, Healthy)
    ensures failed == {}
  {
    hide Dealt, Hopeless;
  }

  lemma ShrunkTwice(u: World, v: World, w: World, claimed: set<StreamId>, failed: set<StreamId>,
                    page: set<StreamId>, more: set<StreamId>)
    requires Shrunk(u, v, claimed - failed) && Shrunk(v, w, page - more) && failed <= claimed
    ensures Shrunk(u, w, claimed + page - StillFailed(claimed, failed, page, more))
  {
  }

  lemma KeptStep(w0: Run, a: Run, b: Run, c: Run, claimed: set<StreamId>, failed: set<StreamId>,
                 page: set<StreamId>, more: set<StreamId>)
    requires Onward(a, b) && Onward(b, c) && Kept(w0.w, a.w, claimed, failed) && failed <= claimed
    requires OnlyTakenLeft(a.w, b.w) && Shrunk(b.w, c.w, page - more) && page <= w0.w.pending.Keys
    ensures Kept(w0.w, c.w, claimed + page, StillFailed(claimed, failed, page, more))
  {
  }

  /** Undisturbed, every young entry that the sink is sure to refuse stays pending. */
  lemma HopelessStay(w0: Run, v: Run, claimed: set<StreamId>, failed: set<StreamId>, up: bool, mode: SinkMode)
    requires Kept(w0.w, v.w, claimed, failed) && Recovered(w0, v, claimed, failed, up, mode)
    ensures forall id :: id in w0.w.pending && Hopeless(v.w, id, v.w.now, mode) ==> id in v.w.pending || Taken(v.w, id)
  {
    hide Doubtful, Dealt;
  }

  lemma KeptByClaim(w0: Run, a: Run, b: Run, claimed: set<StreamId>, failed: set<StreamId>)
    requires Onward(a, b) && Kept(w0.w, a.w, claimed, failed) && OnlyTakenLeft(a.w, b.w)
    ensures Kept(w0.w, b.w, claimed, failed)
  {
  }

  /** The sweep so far, whatever others do: every entry behind the cursor that was idle at its start has been
      touched. */
  predicate TouchedTo(w0: World, v: World, cursor: Option<StreamId>, minIdle: int) {
    forall id :: id in w0.pending && Idle(w0, id, minIdle) && (cursor.Some? ==> Before(id, cursor.value)) ==>
      Touched(w0, v, id)
  }

  lemma TouchedStarts(w: World, minIdle: int)
    requires forall id :: id in w.pending ==> Before(ZERO, id)
    ensures TouchedTo(w, w, Some(ZERO), minIdle)
  {
  }

  lemma TouchedStays(w0: Run, a: Run, b: Run, id: StreamId)
    requires Onward(w0, a) && Onward(a, b) && id in w0.w.body && Delivered(w0.w, id) && Touched(w0.w, a.w, id)
    ensures Touched(w0.w, b.w, id)
  {
  }

  lemma StillIdle(w0: Run, a: Run, id: StreamId, minIdle: int)
    requires Onward(w0, a) && Idle(w0.w, id, minIdle) && id in w0.w.body && Delivered(w0.w, id)
    ensures Touched(w0.w, a.w, id) || Idle(a.w, id, minIdle)
    ensures forall v :: Touched(a.w, v, id) ==> Touched(w0.w, v, id)
  {
  }

  lemma TouchedStep(w0: Run, a: Run, b: Run, c: Run, cursor: StreamId, next: StreamId, minIdle: int)
    requires Onward(w0, a) && Onward(a, b) && Onward(b, c)
    requires forall id :: id in w0.w.pending ==> id in w0.w.body && Delivered(w0.w, id)
    requires TouchedTo(w0.w, a.w, Some(cursor), minIdle) && PageTouched(a.w, b.w, cursor, next, minIdle)
    ensures TouchedTo(w0.w, c.w, UpTo(next), minIdle)
  {
    forall id | Idle(w0.w, id, minIdle) && (UpTo(next).Some? ==> Before(id, next))
      ensures Touched(w0.w, c.w, id)
    {
      hide Onward, Touched;
      OnwardTransitive(true, w0, a, b);
      StillIdle(w0, a, id, minIdle);
      if Touched(w0.w, a.w, id) {
        TouchedStays(w0, a, b, id);
      }
      TouchedStays(w0, b, c, id);
    }
  }

  /** The sweep so far, undisturbed: nothing joined the pending list, what is ahead of the cursor is untouched or
      was taken, and every idle entry behind it was claimed, or was taken and is off the list. */
  predicate SweptTo(w0: World, v: World, cursor: Option<StreamId>, minIdle: int, claimed: set<StreamId>) {
    && (forall id :: id in v.pending ==> id in w0.pending)
    && (cursor.Some? ==> forall id :: id in v.pending && !Before(id, cursor.value) ==> v.pending[id] == w0.pending[id])
    && (cursor.Some? ==> forall id :: id in w0.pending && !Before(id, cursor.value) ==> id in v.pending || Taken(v, id))
    && (forall id :: id in w0.pending && Idle(w0, id, minIdle) && (cursor.Some? ==> Before(id, cursor.value)) ==>
          id in claimed || (id !in v.pending && Taken(v, id)))
  }

  lemma SweepStarts(w: World, minIdle: int)
    requires forall id :: id in w.pending ==> Before(ZERO, id)
    ensures SweptTo(w, w, Some(ZERO), minIdle, {})
  {
  }

  /** One page moves the sweep up to the next cursor. */
  lemma SweepStep(w0: Run, a: Run, b: Run, c: Run, cursor: StreamId, next: StreamId, minIdle: int,
                  claimed: set<StreamId>, page: set<StreamId>, gone: set<StreamId>)
    requires Onward(w0, a) && Onward(a, b) && Onward(b, c)
    requires SweptTo(w0.w, a.w, Some(cursor), minIdle, claimed)
    requires OnlyTakenLeft(a.w, b.w)
    requires forall id :: id in b.w.pending && !InRange(id, cursor, UpTo(next)) ==> b.w.pending[id] == a.w.pending[id]
    requires forall id :: id in a.w.pending && id in b.w.pending && InRange(id, cursor, UpTo(next)) ==>
               Idle(a.w, id, minIdle) ==> id in page
    requires Shrunk(b.w, c.w, gone) && gone <= page && forall id :: id in page ==> InRange(id, cursor, UpTo(next))
    requires next != ZERO ==> Before(cursor, next)
    ensures SweptTo(w0.w, c.w, UpTo(next), minIdle, claimed + page)
  {
  }

  lemma PageInRange(w: World, messages: seq<Entry>, cursor: StreamId, next: Option<StreamId>)
    requires forall k :: 0 <= k < |messages| ==> messages[k].id in w.pending && InRange(messages[k].id, cursor, next)
    ensures forall id :: id in IdSet(EntryIds(messages)) ==> id in w.pending && InRange(id, cursor, next)
  {
    forall id | id in IdSet(EntryIds(messages))
      ensures id in w.pending && InRange(id, cursor, next)
    {
      IdSetIsContents(EntryIds(messages), id);
    }
  }

  /** The pending entries a sweep has still to pass. */
  function Ahead(w: World, cursor: StreamId): set<StreamId> {
    set id | id in w.pending && !Before(id, cursor)
  }

  /** A page that does not end the sweep leaves strictly less ahead. */
  lemma AheadShrinks(a: World, b: World, c: World, cursor: StreamId, next: StreamId, ids: set<StreamId>)
    requires OnlyTakenLeft(a, b) && Shrunk(b, c, ids)
    requires next != ZERO ==> Before(cursor, next) && exists id :: id in a.pending && InRange(id, cursor, Some(next))
    ensures next != ZERO ==> Ahead(c, next) < Ahead(a, cursor)
  {
    if next != ZERO {
      var id :| id in a.pending && InRange(id, cursor, Some(next));
      assert id in Ahead(a, cursor) && id !in Ahead(c, next);
      assert Ahead(c, next) <= Ahead(a, cursor);
    }
  }

  lemma SweptParts(a: World, b: World, cursor: StreamId, next: StreamId, minIdle: int, ids: seq<StreamId>)
    requires Swept(a, b, cursor, next, minIdle, ids) && OnlyTakenLeft(a, b)
    ensures forall id :: id in b.pending && !InRange(id, cursor, UpTo(next)) ==> b.pending[id] == a.pending[id]
    ensures forall id :: id in a.pending && id in b.pending && InRange(id, cursor, UpTo(next)) ==>
              Idle(a, id, minIdle) ==> id in IdSet(ids)
    ensures next != ZERO ==> Before(cursor, next) && exists id :: id in a.pending && InRange(id, cursor, Some(next))
  {
  }

  lemma SoundPending(run: Run, knownKinds: bool)
    requires Sound(run, knownKinds)
    ensures forall id :: id in run.w.pending ==> id in run.w.body && Delivered(run.w, id) && Before(ZERO, id)
  {
    SoundInv(run, knownKinds);
  }

  lemma BudgetFalls(a: Run, b: Run)
    requires Onward(a, b)
    ensures b.budget <= a.budget
  {
  }

  /** The sweep found no pending entry at all. */
  lemma SweepEnds(w0: Run, a: Run, b: Run, cursor: StreamId, minIdle: int, claimed: set<StreamId>)
    requires Onward(w0, a) && Onward(a, b) && SweptTo(w0.w, a.w, Some(cursor), minIdle, claimed)
    requires OnlyTakenLeft(a.w, b.w) && b.w.pending == map[]
    ensures SweptTo(w0.w, b.w, None, minIdle, claimed)
  {
  }

  /** An undisturbed page: sweep, coverage and what is kept move up to the next cursor. */
  lemma SweepPage(w0: Run, a: Run, b: Run, c: Run, cursor: StreamId, next: StreamId, minIdle: int,
                  claimed: set<StreamId>, failed: set<StreamId>, messages: seq<Entry>, more: set<StreamId>)
    requires Onward(w0, a) && Onward(a, b) && Onward(b, c) && failed <= claimed
    requires SweptTo(w0.w, a.w, Some(cursor), minIdle, claimed) && Kept(w0.w, a.w, claimed, failed)
    requires OnlyTakenLeft(a.w, b.w) && Swept(a.w, b.w, cursor, next, minIdle, EntryIds(messages))
    requires Shrunk(b.w, c.w, IdSet(EntryIds(messages)) - more)
    requires forall id :: id in IdSet(EntryIds(messages)) ==> id in b.w.pending && InRange(id, cursor, UpTo(next))
    ensures var page := IdSet(EntryIds(messages));
            && SweptTo(w0.w, c.w, UpTo(next), minIdle, claimed + page)
            && Kept(w0.w, c.w, claimed + page, StillFailed(claimed, failed, page, more))
  {
    var page := IdSet(EntryIds(messages));
    SweptParts(a.w, b.w, cursor, next, minIdle, EntryIds(messages));
    assert page <= w0.w.pending.Keys;
    hide Onward, SweptTo, Kept, OnlyTakenLeft, Swept, Shrunk, IdSet, EntryIds, InRange, StillFailed;
    KeptStep(w0, a, b, c, claimed, failed, page, more);
    SweepStep(w0, a, b, c, cursor, next, minIdle, claimed, page, page - more);
  }

  /** What an undisturbed sweep with Redis up leaves pending: exactly what it did not claim and the claimed
      entries whose write failed; of the entries that were idle, exactly those whose write failed.  Those to be
      given up on have a dead letter, if they were claimed.  Only trims and caps make exceptions. */
  lemma SweepLeaves(w0: Run, v: Run, minIdle: int, claimed: set<StreamId>, failed: set<StreamId>, mode: SinkMode)
    requires Onward(w0, v) && SweptTo(w0.w, v.w, None, minIdle, claimed)
    requires Kept(w0.w, v.w, claimed, failed) && Recovered(w0, v, claimed, failed, true, mode)
    ensures forall id :: !Taken(v.w, id) ==>
              (id in v.w.pending <==> id in w0.w.pending && (id in claimed ==> id in failed))
    ensures forall id :: id in w0.w.pending && Idle(w0.w, id, minIdle) && !Taken(v.w, id) ==>
              (id in v.w.pending <==> id in failed)
    ensures forall id :: id in w0.w.pending && Idle(w0.w, id, minIdle) && MustBury(w0.w, id) ==>
              id !in v.w.pending && if id in claimed then Recorded(w0, v, id) else Taken(v.w, id)
  {
    hide WellFormed, Parse, DlqIds, SinkIds, Takes, Refuses, Clear, Recorded;
  }

  lemma AllSwept(w0: Run, v: Run, minIdle: int, claimed: set<StreamId>, mode: SinkMode)
    requires SweptTo(w0.w, v.w, None, minIdle, claimed) && Recovered(w0, v, claimed, {}, true, mode)
    requires forall id :: id in w0.w.pending ==> Idle(w0.w, id, minIdle)
    ensures v.w.pending == map[]
  {
    hide Doubtful, Hopeless;
    assert forall id :: id !in v.w.pending;
  }

  // ---- One entry at a time ----------------------------------------------------------------

  /** What handling the entries one by one, in order, writes to the sink ... */
  function GoodRecords(es: seq<Entry>): (r: seq<SinkRecord>) {
    if es == [] then [] else
      var e := es[|es| - 1];
      GoodRecords(es[..|es| - 1]) + if WellFormed(e.field) then Record(e.id, Parse(e.field).event) else []
  }

  /** ... and to the dead-letter stream. */
  function PoisonOf(es: seq<Entry>): (r: seq<StreamId>) {
    if es == [] then [] else
      var e := es[|es| - 1];
      PoisonOf(es[..|es| - 1]) + if WellFormed(e.field) then [] else [e.id]
  }

  /** Sink and dead letters, together with what the batch still holds back, are those of the entries seen. */
  predicate Ledger(base: World, w: World, seen: seq<Entry>, batch: seq<Event>, ids: seq<StreamId>,
                   poison: set<StreamId>)
    requires |batch| == |ids|
  {
    && w.sink + Landed(Valids(batch, ids)) == base.sink + GoodRecords(seen)
    && multiset(Buried(w.dlq)) + multiset(poison) + multiset(Malformeds(batch, ids)) ==
       multiset(Buried(base.dlq)) + multiset(PoisonOf(seen))
  }

  /** The ledger balances, and whatever became pending is in memory or still to be parsed. */
  predicate Tracks(base: World, w: World, seen: seq<Entry>, rest: seq<Entry>,
                   batch: seq<Event>, ids: seq<StreamId>, poison: set<StreamId>)
  {
    && |batch| == |ids| && Ledger(base, w, seen, batch, ids, poison)
    && w.pending.Keys <= base.pending.Keys + IdSet(ids) + poison + IdSet(EntryIds(rest))
    && poison <= IdSet(EntryIds(seen))
  }

  /** The entries handed out since position `k0` are exactly these. */
  predicate Position(w: World, k0: nat, read: seq<Entry>) {
    && k0 + |read| <= |w.log| && w.log[k0..k0 + |read|] == EntryIds(read) && ReadTo(w, k0 + |read|)
    && forall k :: 0 <= k < |read| ==> Handed(w, read[k])
  }

  /** An entry read later was not seen before. */
  lemma FreshEntry(w: World, k0: nat, read: seq<Entry>, n: nat)
    requires Sorted(w.log) && Position(w, k0, read) && n < |read|
    ensures read[n].id !in IdSet(EntryIds(read[..n]))
  {
    var earlier := EntryIds(read[..n]);
    IdSetIsContents(earlier, read[n].id);
    forall k | 0 <= k < |earlier|
      ensures earlier[k] != read[n].id
    {
      assert EntryIds(read)[k] == w.log[k0 + k] && EntryIds(read)[n] == w.log[k0 + n];
      assert Before(w.log[k0 + k], w.log[k0 + n]);
    }
  }

  lemma PositionSpan(w: World, k0: nat, read: seq<Entry>)
    requires Position(w, k0, read)
    ensures k0 + |read| <= |w.log| && w.log[k0..k0 + |read|] == EntryIds(read)
  {
  }

  lemma OnwardLog(a: Run, b: Run)
    requires Onward(a, b)
    ensures a.w.log <= b.w.log
  {
  }

  lemma HandedStaysInRun(a: Run, b: Run, page: seq<Entry>)
    requires Onward(a, b) && forall k :: 0 <= k < |page| ==> Handed(a.w, page[k])
    ensures forall k :: 0 <= k < |page| ==> Handed(b.w, page[k])
  {
    forall k | 0 <= k < |page|
      ensures Handed(b.w, page[k])
    {
      HandedStays(a.w, b.w, page[k]);
    }
  }

  lemma PositionGrows(a: Run, k0: nat, read: seq<Entry>, b: Run, page: seq<Entry>, from: nat)
    requires Onward(a, b) && Position(a.w, k0, read) && ReadTo(a.w, from)
    requires ReadTo(b.w, from + |page|) && b.w.log[from..from + |page|] == EntryIds(page)
    requires forall k :: 0 <= k < |page| ==> Handed(b.w, page[k])
    ensures Position(b.w, k0, read + page) && from == k0 + |read|
  {
    hide Evolves;
    var w, v := a.w, b.w;
    OnwardLog(a, b);
    OnePrefix(w, from, k0 + |read|);
    assert v.log[k0..k0 + |read|] == w.log[k0..k0 + |read|];
    assert v.log[k0..from + |page|] == v.log[k0..from] + v.log[from..from + |page|];
    assert EntryIds(read + page) == EntryIds(read) + EntryIds(page);
    HandedStaysInRun(a, b, read);
  }

  lemma PositionKept(a: Run, b: Run, knownKinds: bool, k0: nat, read: seq<Entry>)
    requires Sound(a, knownKinds) && Sound(b, knownKinds) && Onward(a, b)
    requires Position(a.w, k0, read) && SamePosition(a.w, b.w)
    ensures Position(b.w, k0, read)
  {
    hide Sound, Onward;
    PositionStays(a, b, knownKinds, k0 + |read|);
    HandedStaysInRun(a, b, read);
  }

  lemma AlignedAppend(w: World, batch: seq<Event>, ids: seq<StreamId>, e: Entry, event: Event)
    requires Aligned(w, batch, ids) && Handed(w, e) && Parse(e.field) == Candidate(event)
    ensures Aligned(w, batch + [event], ids + [e.id])
  {
  }

  /** A fault-free run of the loop, flushed: since `base`, the sink got exactly the storable events handed
      out, in stream order, each once; the dead letters are exactly the others; none of them is pending. */
  predicate Drained(base: World, w: World, k0: nat, seen: seq<Entry>) {
    && ReadTo(base, k0) && Position(w, k0, seen)
    && w.sink == base.sink + GoodRecords(seen)
    && multiset(Buried(w.dlq)) == multiset(Buried(base.dlq)) + multiset(PoisonOf(seen))
    && w.pending.Keys <= base.pending.Keys
  }

  lemma SortedAppend(ids: seq<StreamId>, id: StreamId)
    requires Sorted(ids) && (ids != [] ==> Before(ids[|ids| - 1], id))
    ensures Sorted(ids + [id])
  {
    forall i | 0 <= i < |ids|
      ensures Before(ids[i], id)
    {
      assert i < |ids| - 1 ==> Before(ids[i], ids[|ids| - 1]);
    }
  }

  /** One entry more adds its ID at most, and at the end. */
  lemma GoodIdsAppend(es: seq<Entry>, e: Entry)
    ensures RecordIds(GoodRecords(es + [e])) in {RecordIds(GoodRecords(es)), RecordIds(GoodRecords(es)) + [e.id]}
  {
    assert (es + [e])[..|es|] == es;
    assert GoodRecords(es) + [] == GoodRecords(es);
    if WellFormed(e.field) && !Skipped(Parse(e.field).event) {
      var r := SinkRecord(e.id, Parse(e.field).event);
      assert RecordIds(GoodRecords(es) + [r]) == RecordIds(GoodRecords(es)) + [r.id];
    }
  }

  lemma LastOfPage(log: seq<StreamId>, k0: nat, es: seq<Entry>)
    requires es != [] && k0 + |es| <= |log| && log[k0..k0 + |es|] == EntryIds(es)
    ensures var n := |es| - 1;
            log[k0..k0 + n] == EntryIds(es[..n]) && log[k0 + n] == es[n].id && es == es[..n] + [es[n]]
  {
    var n := |es| - 1;
    assert EntryIds(es)[n] == log[k0..k0 + |es|][n];
    assert log[k0..k0 + n] == log[k0..k0 + |es|][..n];
    assert EntryIds(es[..n]) == EntryIds(es)[..n];
  }

  lemma NoGoodRecords()
    ensures RecordIds(GoodRecords([])) == []
  {
  }

  /** What a fault-free run adds to the sink is in stream order, each entry once. */
  lemma {:induction false} DrainedInOrderOnce(w: World, k0: nat, seen: seq<Entry>)
    requires Sorted(w.log) && k0 + |seen| <= |w.log| && w.log[k0..k0 + |seen|] == EntryIds(seen)
    ensures var ids := RecordIds(GoodRecords(seen));
            && Sorted(ids)
            && (ids != [] ==> seen != [] && !Before(w.log[k0 + |seen| - 1], ids[|ids| - 1]))
  {
    hide GoodRecords, RecordIds, EntryIds;
    if seen == [] {
      NoGoodRecords();
    } else {
      var n := |seen| - 1;
      LastOfPage(w.log, k0, seen);
      DrainedInOrderOnce(w, k0, seen[..n]);
      GoodIdsAppend(seen[..n], seen[n]);
      assert n > 0 ==> Before(w.log[k0 + n - 1], w.log[k0 + n]);
      SortedAppend(RecordIds(GoodRecords(seen[..n])), seen[n].id);
    }
  }

  lemma TracksDrained(base: World, w: World, k0: nat, seen: seq<Entry>)
    requires Tracks(base, w, seen, [], [], [], {}) && ReadTo(base, k0) && Position(w, k0, seen)
    ensures Drained(base, w, k0, seen)
  {
    hide GoodRecords, PoisonOf, Buried, ReadTo, Position;
    NoIds();
    assert Valids([], []) == [] && Landed([]) == [] && multiset(Malformeds([], [])) == multiset{};
    assert w.sink + [] == w.sink;
    assert EntryIds([]) == [];
  }

  lemma PositionStarts(run: Run, knownKinds: bool) returns (k0: nat)
    requires Sound(run, knownKinds)
    ensures ReadTo(run.w, k0) && Position(run.w, k0, [])
  {
    SoundInv(run, knownKinds);
    k0 := 0;
    while k0 < |run.w.log| && !Unread(run.w, run.w.log[k0])
      invariant k0 <= |run.w.log|
      invariant forall k :: 0 <= k < k0 ==> !Unread(run.w, run.w.log[k])
    {
      k0 := k0 + 1;
    }
    UnreadIsATail(run.w, k0);
  }

  lemma AppendsUseBudget(a: Run, b: Run)
    requires Onward(a, b)
    ensures |b.w.log| + b.budget <= |a.w.log| + a.budget
  {
  }

  lemma ReadForGood(w: World, v: World, id: StreamId)
    requires Evolves(w, v) && id in w.body && !Unread(w, id)
    ensures id in v.body && !Unread(v, id)
  {
  }

  lemma ReadAndNotPending(w: World, id: StreamId)
    requires Inv(w) && id in w.body && !Unread(w, id) && id !in w.pending
    ensures Clear(w, id) || Taken(w, id)
  {
  }

  lemma BodyStays(w: World, v: World, id: StreamId)
    requires Evolves(w, v) && id in w.body
    ensures id in v.body
  {
  }

  /** Once everything known at `last` was read and nothing is pending, every earlier event is settled or
      skipped by the sink, or was taken from the stream. */
  lemma CaughtUp(first: Run, last: Run, end: Run, knownKinds: bool, k0: nat, seen: seq<Entry>)
    requires Sound(last, knownKinds) && Sound(end, knownKinds) && Onward(first, last) && Onward(last, end)
    requires Position(last.w, k0, seen) && k0 + |seen| == |last.w.log| && end.w.pending == map[]
    ensures forall id :: id in first.w.body ==>
              id in end.w.body && !Unread(end.w, id) && (Clear(end.w, id) || Taken(end.w, id))
    ensures AtomicTrims(end.ws, end.ops) && end.w.capped == {} ==> forall id :: id in first.w.body ==> Clear(end.w, id)
    ensures end.budget == first.budget ==> forall id :: id in end.w.body ==> !Unread(end.w, id)
  {
    hide AtomicTrims, Inv, Evolves, Unread, Clear;
    SoundInv(last, knownKinds);
    SoundInv(end, knownKinds);
    OnwardEvolves(first, last);
    OnwardEvolves(last, end);
    forall id | id in last.w.body
      ensures id in end.w.body && !Unread(end.w, id) && (Clear(end.w, id) || Taken(end.w, id))
    {
      BodyIsLog(last, knownKinds, id);
      ReadForGood(last.w, end.w, id);
      ReadAndNotPending(end.w, id);
    }
    forall id | id in first.w.body
      ensures id in last.w.body
    {
      BodyStays(first.w, last.w, id);
    }
    if AtomicTrims(end.ws, end.ops) {
      NoVictims(end.ws, end.ops, |end.ops|);
    }
    if end.budget == first.budget {
      LogOnlyGrows(last.w, end.w);
      assert end.w.log == last.w.log;
      forall id | id in end.w.body
        ensures id in last.w.body
      {
        BodyIsLog(end, knownKinds, id);
        var j :| 0 <= j < |last.w.log| && last.w.log[j] == id;
        LoggedIsStored(last.w, j);
      }
    }
  }

  lemma TracksStart(w: World)
    ensures Tracks(w, w, [], [], [], [], {})
  {
  }

  lemma Regroup(a: multiset<StreamId>, b: multiset<StreamId>, c: multiset<StreamId>, x: multiset<StreamId>)
    ensures a + (b + x) + c == (a + b + c) + x
    ensures a + (b + x) == (a + b) + x
  {
  }

  lemma EmptyBatch()
    ensures Valids([], []) == [] && Malformeds([], []) == [] && Landed([]) == []
  {
  }

  lemma LedgerOfNothing(base: World, v: World, seen: seq<Entry>)
    requires v.sink == base.sink + GoodRecords(seen)
    requires multiset(Buried(v.dlq)) == multiset(Buried(base.dlq)) + multiset(PoisonOf(seen))
    ensures Ledger(base, v, seen, [], [], {})
  {
    EmptyBatch();
    hide GoodRecords, PoisonOf, Buried, Valids, Malformeds;
    Regroup(multiset(Buried(v.dlq)), multiset{}, multiset{}, multiset{});
    var none: set<StreamId> := {};
    assert multiset(none) == multiset{} && multiset(Malformeds([], [])) == multiset{};
    assert v.sink + [] == v.sink;
  }

  lemma TracksFlush(base: World, w: World, v: World, seen: seq<Entry>, rest: seq<Entry>,
                    batch: seq<Event>, ids: seq<StreamId>, poison: set<StreamId>)
    requires Tracks(base, w, seen, rest, batch, ids, poison) && FlushedAll(w, v, batch, ids, poison)
    ensures Tracks(base, v, seen, rest, [], [], {})
  {
    NoIds();
    LedgerOfNothing(base, v, seen);
    hide IdSet, GoodRecords, PoisonOf, EntryIds, Buried, Valids, Malformeds, Ledger;
  }

  lemma TracksRead(base: World, w: World, v: World, seen: seq<Entry>, page: seq<Entry>,
                   batch: seq<Event>, ids: seq<StreamId>, poison: set<StreamId>)
    requires Tracks(base, w, seen, [], batch, ids, poison)
    requires v.sink == w.sink && v.dlq == w.dlq && v.pending.Keys == w.pending.Keys + IdSet(EntryIds(page))
    ensures Tracks(base, v, seen, page, batch, ids, poison)
  {
  }

  lemma EntriesAppend(es: seq<Entry>, e: Entry)
    ensures IdSet(EntryIds(es + [e])) == IdSet(EntryIds(es)) + {e.id}
    ensures GoodRecords(es + [e]) ==
              GoodRecords(es) + if WellFormed(e.field) then Record(e.id, Parse(e.field).event) else []
    ensures PoisonOf(es + [e]) == PoisonOf(es) + if WellFormed(e.field) then [] else [e.id]
  {
    assert EntryIds(es + [e]) == EntryIds(es) + [e.id];
    IdSetAppend(EntryIds(es), e.id);
    assert (es + [e])[..|es|] == es;
  }

  lemma IdOfRest(e: Entry, rest: seq<Entry>, x: StreamId)
    ensures x in IdSet(EntryIds([e] + rest)) <==> x == e.id || x in IdSet(EntryIds(rest))
  {
    var whole, tail := EntryIds([e] + rest), EntryIds(rest);
    IdSetIsContents(whole, x);
    IdSetIsContents(tail, x);
    hide IdSet;
    assert whole == [e.id] + tail;
    hide EntryIds;
    assert x in whole <==> x == e.id || x in tail;
  }

  lemma RestShrinks(e: Entry, rest: seq<Entry>)
    ensures IdSet(EntryIds([e] + rest)) == {e.id} + IdSet(EntryIds(rest))
  {
    hide IdSet, EntryIds;
    forall x
      ensures x in IdSet(EntryIds([e] + rest)) <==> x in {e.id} + IdSet(EntryIds(rest))
    {
      IdOfRest(e, rest, x);
    }
  }

  lemma TracksPoison(base: World, w: World, seen: seq<Entry>, e: Entry, rest: seq<Entry>,
                     batch: seq<Event>, ids: seq<StreamId>, poison: set<StreamId>)
    requires Tracks(base, w, seen, [e] + rest, batch, ids, poison)
    requires Parse(e.field).Poison? && e.id !in IdSet(EntryIds(seen))
    ensures Tracks(base, w, seen + [e], rest, batch, ids, poison + {e.id})
  {
    hide IdSet, Valids, Malformeds, GoodRecords, PoisonOf, EntryIds, Buried;
    EntriesAppend(seen, e);
    RestShrinks(e, rest);
    assert multiset(poison + {e.id}) == multiset(poison) + multiset{e.id};
    assert GoodRecords(seen) + [] == GoodRecords(seen);
    Regroup(multiset(Buried(w.dlq)), multiset(poison), multiset(Malformeds(batch, ids)), multiset{e.id});
    Regroup(multiset(Buried(base.dlq)), multiset(PoisonOf(seen)), multiset{}, multiset{e.id});
  }

  lemma BatchAppend(batch: seq<Event>, ids: seq<StreamId>, event: Event, id: StreamId)
    requires |batch| == |ids|
    ensures Landed(Valids(batch + [event], ids + [id])) ==
            Landed(Valids(batch, ids)) + if Validates(event) then Record(id, event) else []
    ensures Malformeds(batch + [event], ids + [id]) == Malformeds(batch, ids) + if Validates(event) then [] else [id]
  {
    assert (batch + [event])[..|batch|] == batch && (ids + [id])[..|ids|] == ids;
    LandedAppend(Valids(batch, ids), SinkRecord(id, event));
    var valid := Valids(batch, ids);
    assert valid + [] == valid && Landed(valid) + [] == Landed(valid);
  }

  lemma BothGrow(a: seq<SinkRecord>, b: seq<SinkRecord>, c: seq<SinkRecord>, d: seq<SinkRecord>, more: seq<SinkRecord>)
    requires a + b == c + d
    ensures a + (b + more) == c + (d + more)
  {
    assert a + (b + more) == (a + b) + more;
    assert c + (d + more) == (c + d) + more;
  }

  lemma LedgerCandidate(base: World, w: World, seen: seq<Entry>, e: Entry,
                        batch: seq<Event>, ids: seq<StreamId>, poison: set<StreamId>, event: Event)
    requires |batch| == |ids| && Ledger(base, w, seen, batch, ids, poison)
    requires Parse(e.field) == Candidate(event)
    ensures Ledger(base, w, seen + [e], batch + [event], ids + [e.id], poison)
  {
    hide IdSet, EntryIds, GoodRecords, PoisonOf, Buried, Valids, Malformeds, Landed, Record, Validates;
    EntriesAppend(seen, e);
    BatchAppend(batch, ids, event, e.id);
    assert WellFormed(e.field) <==> Validates(event);
    hide Parse, WellFormed;
    var record := if Validates(event) then Record(e.id, event) else [];
    BothGrow(w.sink, Landed(Valids(batch, ids)), base.sink, GoodRecords(seen), record);
    assert Landed(Valids(batch, ids)) + [] == Landed(Valids(batch, ids)) && GoodRecords(seen) + [] == GoodRecords(seen);
    assert Malformeds(batch, ids) + [] == Malformeds(batch, ids) && PoisonOf(seen) + [] == PoisonOf(seen);
    Regroup(multiset(Buried(w.dlq)) + multiset(poison), multiset(Malformeds(batch, ids)), multiset{}, multiset{e.id});
    Regroup(multiset(Buried(base.dlq)), multiset(PoisonOf(seen)), multiset{}, multiset{e.id});
  }

  lemma TracksCandidate(base: World, w: World, seen: seq<Entry>, e: Entry, rest: seq<Entry>,
                        batch: seq<Event>, ids: seq<StreamId>, poison: set<StreamId>, event: Event)
    requires Tracks(base, w, seen, [e] + rest, batch, ids, poison)
    requires Parse(e.field) == Candidate(event)
    ensures Tracks(base, w, seen + [e], rest, batch + [event], ids + [e.id], poison)
  {
    LedgerCandidate(base, w, seen, e, batch, ids, poison, event);
    EntriesAppend(seen, e);
    RestShrinks(e, rest);
    IdSetAppend(ids, e.id);
    hide IdSet, EntryIds, Ledger, Parse;
  }

  // ---- The main loop, turn by turn --------------------------------------------------------

  /** What a replica can count on: Redis answers, the sink's mode, it is the only consumer, kinds are known. */
  datatype Conditions = Conditions(up: bool, mode: SinkMode, alone: bool, knownKinds: bool) {
    predicate FaultFree() { up && mode.Healthy? && knownKinds }
  }

  /** Between `a` and `b` a whole recovery sweep was made. */
  ghost predicate Sweeps(c: Conditions, a: Run, b: Run, claimed: set<StreamId>, failed: set<StreamId>) {
    && Recovered(a, b, claimed, failed, c.up, c.mode)
    && (c.up ==> TouchedTo(a.w, b.w, None, CLAIM_IDLE_MS))
    && (Calm(c.alone, a, b) ==>
          Kept(a.w, b.w, claimed, failed) && (c.up ==> SweptTo(a.w, b.w, None, CLAIM_IDLE_MS, claimed)))
  }

  /** What one turn of the loop, from `a` to `b`, is worth; `was` entries had been read before it, `seen` after.
      A flush leaves nothing read unsettled, a recovery tick sweeps, and else something new is read, or
      everything had been. */
  ghost predicate Turned(c: Conditions, first: Run, wakeup: Wakeup, a: Run, b: Run, was: nat, seen: seq<Entry>) {
    && Onward(a, b) && was <= |seen|
    && match wakeup
       case FlushTick => |seen| == was && (c.FaultFree() ==> AllFinished(first, b, IdSet(EntryIds(seen))))
       case RecoveryTick => |seen| == was && exists claimed, failed :: Sweeps(c, a, b, claimed, failed)
       case NothingDue => c.up ==> |seen| > was || ReadTo(b.w, |b.w.log|)
  }

  /** The turns of a run of the loop: `states[i]` is the moment before turn `i`, with `counts[i]` entries read. */
  ghost predicate Turns(c: Conditions, wakeups: seq<Wakeup>, states: seq<Run>, counts: seq<nat>, seen: seq<Entry>) {
    && |states| == |wakeups| + 1 == |counts| && counts[0] == 0 && counts[|wakeups|] == |seen|
    && (forall i :: 0 <= i < |counts| ==> counts[i] <= |seen| && Sound(states[i], c.knownKinds))
    && forall i :: 0 <= i < |wakeups| ==>
         Turned(c, states[0], wakeups[i], states[i], states[i + 1], counts[i], seen[..counts[i + 1]])
  }

  lemma NoTurns(c: Conditions, run: Run)
    requires Sound(run, c.knownKinds)
    ensures Turns(c, [], [run], [0], [])
  {
  }

  lemma OneMoreTurn(c: Conditions, wakeups: seq<Wakeup>, states: seq<Run>, counts: seq<nat>, seen: seq<Entry>,
                    wakeup: Wakeup, b: Run, more: seq<Entry>)
    requires Turns(c, wakeups, states, counts, seen) && Sound(b, c.knownKinds) && seen <= more
    requires Turned(c, states[0], wakeup, states[|wakeups|], b, |seen|, more)
    ensures Turns(c, wakeups + [wakeup], states + [b], counts + [|more|], more)
  {
    hide Turned, Sound;
    var ws, ss, cs := wakeups + [wakeup], states + [b], counts + [|more|];
    forall i | 0 <= i < |ws|
      ensures Turned(c, ss[0], ws[i], ss[i], ss[i + 1], cs[i], more[..cs[i + 1]])
    {
      if i < |wakeups| {
        assert more[..counts[i + 1]] == seen[..counts[i + 1]];
      } else {
        assert more[..|more|] == more;
      }
    }
  }

  /** How often the loop reads. */
  function Reads(wakeups: seq<Wakeup>): nat {
    if wakeups == [] then 0
    else Reads(wakeups[..|wakeups| - 1]) + if wakeups[|wakeups| - 1].NothingDue? then 1 else 0
  }

  lemma FinishedAll(a: Run, b: Run, ids: set<StreamId>, held: set<StreamId>)
    requires AllFinished(a, b, ids - held) && AllFinished(a, b, held)
    ensures AllFinished(a, b, ids)
  {
    hide Accepted, Recorded;
  }

  lemma HandedPart(w: World, ids: set<StreamId>, held: set<StreamId>)
    requires AllHanded(w, ids)
    ensures AllHanded(w, ids - held)
  {
  }

  /** The rest of what was read is settled. */
  lemma FinishedWith(a: Run, b: Run, c: Run, ids: set<StreamId>, held: set<StreamId>)
    requires Onward(a, b) && Onward(b, c) && AllHanded(b.w, ids)
    requires AllFinished(a, b, ids - held) && AllFinished(b, c, held)
    ensures AllFinished(a, c, ids) && forall none :: none == {} ==> AllFinished(a, c, ids - none)
  {
    hide Onward, AllFinished;
    HandedPart(b.w, ids, held);
    FinishedStays(a, b, c, ids - held);
    FinishedSinceEarlier(a, b, c, held);
    FinishedAll(a, c, ids, held);
    assert forall none: set<StreamId> :: none == {} ==> ids - none == ids;
  }

  lemma NoReads()
    ensures Reads([]) == 0
  {
  }

  lemma OneMoreRead(wakeups: seq<Wakeup>, wakeup: Wakeup)
    ensures Reads(wakeups + [wakeup]) == Reads(wakeups) + if wakeup.NothingDue? then 1 else 0
  {
    assert (wakeups + [wakeup])[..|wakeups|] == wakeups;
  }

  lemma {:induction false} IdSetSum(a: seq<StreamId>, b: seq<StreamId>)
    ensures IdSet(a + b) == IdSet(a) + IdSet(b)
  {
    if b == [] {
      assert a + b == a;
    } else {
      var n := |b| - 1;
      IdSetSum(a, b[..n]);
      assert a + b == (a + b[..n]) + [b[n]] && b == b[..n] + [b[n]];
      IdSetAppend(a + b[..n], b[n]);
      IdSetAppend(b[..n], b[n]);
    }
  }

  lemma SeenGrows(seen: seq<Entry>, more: seq<Entry>)
    requires seen <= more
    ensures IdSet(EntryIds(more)) == IdSet(EntryIds(seen)) + IdSet(EntryIds(more[|seen|..]))
  {
    assert EntryIds(more) == EntryIds(seen) + EntryIds(more[|seen|..]);
    IdSetSum(EntryIds(seen), EntryIds(more[|seen|..]));
  }

  lemma FinishedNext(read: Run, mid: Run, now: Run, page: seq<Entry>, k: nat, held0: set<StreamId>,
                     held: set<StreamId>, left: set<StreamId>)
    requires Onward(read, mid) && Onward(mid, now) && k < |page|
    requires AllHanded(read.w, held0) && forall j :: 0 <= j < |page| ==> Handed(mid.w, page[j])
    requires AllFinished(read, mid, held0 + IdSet(EntryIds(page[..k])) - held)
    requires AllFinished(mid, now, held + {page[k].id} - left)
    ensures AllFinished(read, now, held0 + IdSet(EntryIds(page[..k + 1])) - left)
  {
    hide Onward, AllFinished, IdSet, EntryIds, AllHanded, Handed;
    MemoryStays(read, mid, [], [], held0);
    PageHanded(mid.w, page, k);
    HandedUnion(mid.w, held0, IdSet(EntryIds(page[..k])));
    assert page[..k + 1] == page[..k] + [page[k]];
    EntriesAppend(page[..k], page[k]);
    FinishedTwice(read, mid, now, held0, IdSet(EntryIds(page[..k])), held, {page[k].id}, left);
  }

  lemma FinishedByPage(first: Run, mid: Run, now: Run, seen: seq<Entry>, more: seq<Entry>,
                       held: set<StreamId>, left: set<StreamId>)
    requires Onward(first, mid) && Onward(mid, now) && seen <= more
    requires AllHanded(mid.w, IdSet(EntryIds(seen)))
    requires AllFinished(first, mid, IdSet(EntryIds(seen)) - held)
    requires AllFinished(mid, now, held + IdSet(EntryIds(more[|seen|..])) - left)
    ensures AllFinished(first, now, IdSet(EntryIds(more)) - left)
  {
    SeenGrows(seen, more);
    hide Onward, AllFinished, IdSet, EntryIds, AllHanded;
    var none: set<StreamId> := {};
    assert none + IdSet(EntryIds(seen)) == IdSet(EntryIds(seen));
    FinishedTwice(first, mid, now, none, IdSet(EntryIds(seen)), held, IdSet(EntryIds(more[|seen|..])), left);
    assert none + (IdSet(EntryIds(seen)) + IdSet(EntryIds(more[|seen|..]))) == IdSet(EntryIds(more));
  }
}
