/** One replica of the event writer: its batch memory, the flush, the read loop and the recovery sweep,
    written against the calls of `Broker`, each of which lets the other processes run first. */
module EventWriter {
  import opened Prelude
  import opened EventLog
  import opened StreamSafety
  import opened Calls
  import opened WriterSpec

  const MAX_RETRIES := 3
  const READ_COUNT := 10

  /** The iteration order of a Go map is unspecified. */
  method SomeOrder(ids: set<StreamId>) returns (order: seq<StreamId>)
    ensures multiset(order) == multiset(ids) && IdSet(order) == ids
  {
    order := [];
    var todo := ids;
    while todo != {}
      invariant todo <= ids && IdSet(order) == ids - todo
      invariant multiset(order) == multiset(ids - todo)
      decreases todo
    {
      var id :| id in todo;
      IdSetAppend(order, id);
      assert ids - (todo - {id}) == (ids - todo) + {id};
      order, todo := order + [id], todo - {id};
    }
    assert ids - todo == ids;
  }

  class EventConsumer {
    const broker: Broker
    const batchSize: nat
    var batch: seq<Event>
    var messageIDs: seq<StreamId>
    var poisonIDs: map<StreamId, Reason>
    ghost var seen: seq<Entry>             // every entry this replica has parsed, in order
    ghost var attempted: seq<StreamId>     // every entry it set out to bury, in order
    ghost var ackFailed: bool              // some flush ended with a failed ACK

    ghost predicate Valid()
      reads this, broker
    {
      broker.Valid() && Aligned(broker.run.w, batch, messageIDs) && Noted(broker.run.w, poisonIDs)
    }

    /** What the replica has read and not yet settled. */
    ghost function Held(): set<StreamId>
      reads this`messageIDs, this`poisonIDs
    {
      IdSet(messageIDs) + poisonIDs.Keys
    }

    /** The batch is below its size, unless a failed ACK made a flush keep it. */
    ghost predicate Bounded()
      reads this
    {
      batchSize == 0 || |batch| < batchSize || ackFailed
    }

    constructor (broker: Broker, batchSize: nat)
      requires broker.Valid()
      ensures this.broker == broker && this.batchSize == batchSize && Valid()
      ensures batch == [] && messageIDs == [] && poisonIDs == map[] && seen == [] && attempted == [] && Bounded()
    {
      this.broker, this.batchSize := broker, batchSize;
      batch, messageIDs, poisonIDs, seen, attempted, ackFailed := [], [], map[], [], [], false;
    }

    method MoveToDLQ(id: StreamId, reason: Reason) returns (ok: bool)
      requires broker.Valid() && AllHanded(broker.run.w, {id}) && Deserved(broker.run.w, id, reason)
      modifies this`attempted, broker`run, broker`consumers
      ensures broker.Valid() && Onward(old(broker.run), broker.run)
      ensures attempted == old(attempted) + [id]
      ensures broker.redisUp ==> ok
      ensures ok ==> id in DlqIds(broker.run.w.dlq)
      ensures broker.redisUp ==> Recorded(old(broker.run), broker.run, id)
      ensures Calm(broker.alone, old(broker.run), broker.run) ==>
                && OnlyDlq(old(broker.run.w), broker.run.w)
                && (ok ==> Buried(broker.run.w.dlq) == Buried(old(broker.run.w.dlq)) + [id])
    {
      hide Inv, Evolves, Apply, Guard, Onward, Sound;
      ghost var first := broker.run;
      attempted := attempted + [id];
      var payload, read := broker.Lookup(id);
      ghost var mid := broker.run;
      MemoryStays(first, mid, [], [], {id});
      DeservedInRun(first, mid, id, reason);
      SoundShape(mid, broker.knownKinds);
      ok := broker.AddDeadLetter(DlqRecord(id, reason, payload, read));
      OnwardTransitive(broker.alone, first, mid, broker.run);
      if broker.redisUp {
        RecordedLast(first, mid, broker.run, id);
      }
    }

    method AckMessages(ids: seq<StreamId>) returns (ok: bool)
      requires broker.Valid() && forall id :: id in IdSet(ids) ==> Clear(broker.run.w, id)
      modifies broker`run, broker`consumers
      ensures broker.Valid() && Onward(old(broker.run), broker.run)
      ensures broker.redisUp ==> ok
      ensures ok ==> broker.run.w.pending.Keys !! IdSet(ids)
      ensures Calm(broker.alone, old(broker.run), broker.run) ==>
                && OnlyPending(old(broker.run.w), broker.run.w)
                && (broker.run.w.pending == old(broker.run.w.pending) - IdSet(ids) ||
                    (!ok && broker.run.w.pending == old(broker.run.w.pending)))
    {
      hide Inv, Evolves, Apply, Guard, Onward, Sound;
      if ids == [] {
        OnwardReflexive(broker.run);
        return true;
      }
      ok := broker.Ack(IdSet(ids));
    }

    /** DLQ first, then ACK; no ACK when the DLQ write failed. */
    method BuryAndAck(id: StreamId, reason: Reason) returns (ok: bool)
      requires broker.Valid() && AllHanded(broker.run.w, {id}) && Deserved(broker.run.w, id, reason)
      modifies this`attempted, broker`run, broker`consumers
      ensures broker.Valid() && Onward(old(broker.run), broker.run)
      ensures attempted == old(attempted) + [id]
      ensures broker.redisUp ==> ok
      ensures ok ==> id in DlqIds(broker.run.w.dlq) && id !in broker.run.w.pending
      ensures broker.redisUp ==> Recorded(old(broker.run), broker.run, id)
      ensures Calm(broker.alone, old(broker.run), broker.run) ==>
                && OnlyBurials(old(broker.run.w), broker.run.w, {id})
                && (ok ==> Buried(broker.run.w.dlq) == Buried(old(broker.run.w.dlq)) + [id])
    {
      hide Inv, Evolves, Apply, Guard, Onward, Sound, Recorded;
      ghost var first := broker.run;
      ok := MoveToDLQ(id, reason);
      if ok {
        ghost var mid := broker.run;
        assert IdSet([id]) == {id} by {
          assert [id][..0] == [];
        }
        ok := AckMessages([id]);
        OnwardTransitive(broker.alone, first, mid, broker.run);
        SafeStays(mid, broker.run, {id});
        if broker.redisUp {
          RecordedStays(first, mid, broker.run, id);
        }
      }
    }

    /** Each entry in turn to the DLQ, then ACKed; a failure leaves that entry pending and goes on. */
    method BuryEach(ids: seq<StreamId>, reasons: map<StreamId, Reason>) returns (ghost buried: set<StreamId>)
      requires broker.Valid() && Noted(broker.run.w, reasons) && IdSet(ids) <= reasons.Keys
      modifies this`attempted, broker`run, broker`consumers
      ensures broker.Valid() && Onward(old(broker.run), broker.run)
      ensures attempted == old(attempted) + ids
      ensures buried <= IdSet(ids) && AllGone(old(broker.run), broker.run, buried, broker.redisUp)
      ensures broker.redisUp ==> buried == IdSet(ids)
      ensures Calm(broker.alone, old(broker.run), broker.run) ==>
                && OnlyBurials(old(broker.run.w), broker.run.w, IdSet(ids))
                && (broker.redisUp ==> AllBuried(old(broker.run.w), broker.run.w, multiset(ids)))
    {
      hide Inv, Evolves, Apply, Guard, Onward, Sound, Aligned, AllBuried;
      hide OnlyBurials, Buried, DlqIds, AllHanded, IdSet, Noted, Deserved, AllGone, Recorded;
      ghost var first := broker.run;
      OnwardReflexive(first);
      NotedAll(first.w, reasons, IdSet(ids));
      NoneBuried(first.w);
      NoIds();
      assert ids[..0] == [] && attempted + [] == attempted;
      ghost var asked := attempted;
      buried := {};
      NoneGone(first, broker.redisUp);
      for k := 0 to |ids|
        invariant broker.Valid() && Onward(first, broker.run) && AllHanded(broker.run.w, IdSet(ids))
        invariant Noted(broker.run.w, reasons) && attempted == asked + ids[..k]
        invariant buried <= IdSet(ids[..k]) && AllHanded(broker.run.w, buried)
        invariant AllGone(first, broker.run, buried, broker.redisUp)
        invariant broker.redisUp ==> buried == IdSet(ids[..k])
        invariant Calm(broker.alone, first, broker.run) ==>
                    && OnlyBurials(first.w, broker.run.w, IdSet(ids[..k]))
                    && (broker.redisUp ==> AllBuried(first.w, broker.run.w, multiset(ids[..k])))
      {
        ghost var mid := broker.run;
        HandedAt(mid.w, ids, k);
        NotedAt(mid.w, reasons, ids[k]);
        var ok := BuryAndAck(ids[k], reasons[ids[k]]);
        OnwardTransitive(broker.alone, first, mid, broker.run);
        MemoryStays(mid, broker.run, [], [], IdSet(ids));
        NotedStays(mid, broker.run, reasons);
        AllGoneStays(first, mid, broker.run, buried, broker.redisUp);
        MemoryStays(mid, broker.run, [], [], buried);
        MemoryStays(mid, broker.run, [], [], {ids[k]});
        HandedUnion(broker.run.w, buried, {ids[k]});
        assert ids[..k + 1] == ids[..k] + [ids[k]];
        IdSetAppend(ids[..k], ids[k]);
        if ok {
          OneMoreGone(first, mid, broker.run, buried, ids[k], broker.redisUp);
          buried := buried + {ids[k]};
        }
        if Calm(broker.alone, first, broker.run) {
          BurialStep(first.w, mid, broker.run, ids, k, broker.redisUp);
        }
      }
      assert ids[..|ids|] == ids;
    }

    /** The poison entries noted while reading, in no particular order; the note is cleared either way. */
    method FlushPoison() returns (ghost buried: set<StreamId>)
      requires Valid()
      modifies this`poisonIDs, this`attempted, broker`run, broker`consumers
      ensures Valid() && Onward(old(broker.run), broker.run) && poisonIDs == map[]
      ensures Attempts(old(attempted), attempted, multiset(old(poisonIDs).Keys))
      ensures buried <= old(poisonIDs).Keys && AllGone(old(broker.run), broker.run, buried, broker.redisUp)
      ensures broker.redisUp ==> buried == old(poisonIDs).Keys
      ensures Calm(broker.alone, old(broker.run), broker.run) ==>
                && OnlyBurials(old(broker.run.w), broker.run.w, old(poisonIDs).Keys)
                && (broker.redisUp ==> AllBuried(old(broker.run.w), broker.run.w, multiset(old(poisonIDs).Keys)))
    {
      hide Inv, Evolves, Apply, Guard, Onward, Sound, Aligned, AllBuried, OnlyBurials, IdSet, Noted, AllGone;
      ghost var first := broker.run;
      var order := SomeOrder(poisonIDs.Keys);
      buried := BuryEach(order, poisonIDs);
      assert attempted[|old(attempted)|..] == order;
      MemoryStays(first, broker.run, batch, messageIDs, {});
      NothingNoted(broker.run.w);
      poisonIDs := map[];
    }

    /** First pass of a flush: validation only. */
    method Separate() returns (valid: seq<SinkRecord>, malformed: seq<StreamId>)
      requires |batch| == |messageIDs|
      ensures valid == Valids(batch, messageIDs) && malformed == Malformeds(batch, messageIDs)
    {
      valid, malformed := [], [];
      for k := 0 to |batch|
        invariant valid == Valids(batch[..k], messageIDs[..k]) && malformed == Malformeds(batch[..k], messageIDs[..k])
      {
        assert batch[..k + 1][..k] == batch[..k] && messageIDs[..k + 1][..k] == messageIDs[..k];
        if Validates(batch[k]) {
          valid := valid + [SinkRecord(messageIDs[k], batch[k])];
        } else {
          malformed := malformed + [messageIDs[k]];
        }
      }
      assert batch[..|batch|] == batch && messageIDs[..|batch|] == messageIDs;
    }

    /** One attempt at writing the valid events, in order; it stops at the first failure. */
    method WriteAll(valid: seq<SinkRecord>) returns (success: bool)
      requires broker.Valid() && Storable(broker.run.w, valid)
      modifies broker
      ensures broker.Valid() && Onward(old(broker.run), broker.run)
      ensures broker.failures == old(broker.failures) + if success then 0 else 1
      ensures success ==> AllAccepted(broker.run.w, IdSet(RecordIds(valid)))
      ensures broker.FaultFree() ==> success
      ensures AnyRefused(broker.sinkMode, valid) ==> !success
      ensures Calm(broker.alone, old(broker.run), broker.run) ==>
                && OnlySink(old(broker.run.w), broker.run.w)
                && (success ==> broker.run.w.sink == old(broker.run.w.sink) + Landed(valid))
    {
      hide Inv, Evolves, Apply, Guard, Onward, Sound, Storable, IdSet, SinkIds, RecordIds, Parse, Validates;
      hide Landed, Refuses, Takes, Record;
      ghost var first := broker.run;
      OnwardReflexive(first);
      NoRecords(first.w);
      var k := 0;
      success := true;
      while k < |valid| && success
        invariant k <= |valid| && broker.Valid() && Onward(first, broker.run) && Storable(broker.run.w, valid)
        invariant success ==> AllAccepted(broker.run.w, IdSet(RecordIds(valid[..k])))
        invariant broker.FaultFree() ==> success
        invariant broker.failures == old(broker.failures) + if success then 0 else 1
        invariant success ==> forall j :: 0 <= j < k ==> !Refuses(broker.sinkMode, valid[j].event)
        invariant Calm(broker.alone, first, broker.run) ==>
                    && OnlySink(first.w, broker.run.w)
                    && (success ==> broker.run.w.sink == first.w.sink + Landed(valid[..k]))
        decreases |valid| - k
      {
        ghost var mid := broker.run;
        StorableAt(mid.w, valid, k);
        var r := broker.Emit(valid[k].id, valid[k].event);
        OnwardTransitive(broker.alone, first, mid, broker.run);
        StorableStays(mid, broker.run, valid);
        SafeStays(mid, broker.run, IdSet(RecordIds(valid[..k])));
        RecordsSoFar(valid, k);
        success := r.Emitted?;
        k := k + 1;
      }
      if success {
        assert valid[..|valid|] == valid;
      }
    }

    /** Second pass of a flush: up to three attempts, then one ACK for all.  An earlier failed attempt is
        remembered even when a later one succeeds and is ACKed. */
    method WriteValid(valid: seq<SinkRecord>) returns (outcome: WriteOutcome, attempts: nat)
      requires broker.Valid() && Storable(broker.run.w, valid) && valid != []
      modifies broker
      ensures broker.Valid() && Onward(old(broker.run), broker.run)
      ensures broker.FaultFree() ==> outcome == Clean
      ensures broker.redisUp ==> outcome != Unacked
      ensures AnyRefused(broker.sinkMode, valid) ==> outcome == Failing && attempts == MAX_RETRIES
      ensures outcome == Clean ==> Written(broker.run.w, valid)
      ensures 1 <= attempts <= MAX_RETRIES && (outcome == Clean ==> attempts == 1)
      ensures outcome == Failing ==> Written(broker.run.w, valid) || attempts == MAX_RETRIES
      // all attempts but a last successful one ended with a write that failed
      ensures || (outcome == Failing && broker.failures == old(broker.failures) + attempts)
              || broker.failures + 1 == old(broker.failures) + attempts
      ensures Calm(broker.alone, old(broker.run), broker.run) ==>
                && broker.run.w.dlq == old(broker.run.w.dlq) && SamePosition(old(broker.run.w), broker.run.w)
                && (broker.run.w.pending == old(broker.run.w.pending) ||
                    broker.run.w.pending == old(broker.run.w.pending) - IdSet(RecordIds(valid)))
                && (outcome == Clean ==>
                      && broker.run.w.sink == old(broker.run.w.sink) + Landed(valid)
                      && broker.run.w.pending == old(broker.run.w.pending) - IdSet(RecordIds(valid)))
                && (AnyRefused(broker.sinkMode, valid) ==> broker.run.w.pending == old(broker.run.w.pending))
    {
      hide Inv, Evolves, Apply, Guard, Onward, Sound, Storable, IdSet, SinkIds;
      hide RecordIds, Landed, AllAccepted, AnyRefused;
      ghost var first := broker.run;
      OnwardReflexive(first);
      var attempt, failed, acked := 1, false, false;
      attempts := 0;
      while attempt <= MAX_RETRIES && !acked
        invariant attempt == attempts + 1 && (acked && !failed ==> attempts == 1) && (acked ==> attempts >= 1)
        invariant attempts <= MAX_RETRIES
        invariant broker.failures == old(broker.failures) + attempts - if acked then 1 else 0
        invariant broker.Valid() && Onward(first, broker.run) && Storable(broker.run.w, valid)
        invariant broker.FaultFree() ==> !failed && (acked || attempt == 1)
        invariant AnyRefused(broker.sinkMode, valid) ==> !acked
        invariant attempt == 1 || acked || failed
        invariant acked ==>
                    && AllAccepted(broker.run.w, IdSet(RecordIds(valid)))
                    && broker.run.w.pending.Keys !! IdSet(RecordIds(valid))
        invariant Calm(broker.alone, first, broker.run) ==>
                    && broker.run.w.dlq == first.w.dlq && SamePosition(first.w, broker.run.w)
                    && broker.run.w.pending ==
                       (if acked then first.w.pending - IdSet(RecordIds(valid)) else first.w.pending)
                    && (acked && !failed ==> broker.run.w.sink == first.w.sink + Landed(valid))
                    && (attempt == 1 ==> broker.run.w.sink == first.w.sink)
        decreases MAX_RETRIES - attempt
      {
        ghost var mid := broker.run;
        attempts := attempt;
        var success := WriteAll(valid);
        ghost var written := broker.run;
        OnwardTransitive(broker.alone, first, mid, broker.run);
        StorableStays(mid, broker.run, valid);
        if success {
          AcceptedIsClear(written.w, IdSet(RecordIds(valid)));
          var ok := AckMessages(RecordIds(valid));
          OnwardTransitive(broker.alone, first, written, broker.run);
          OnwardTransitive(broker.alone, mid, written, broker.run);
          StorableStays(written, broker.run, valid);
          SafeStays(written, broker.run, IdSet(RecordIds(valid)));
          if !ok {
            return Unacked, attempts;
          }
          acked := true;
        } else {
          failed := true;
        }
        attempt := attempt + 1;
      }
      outcome := if failed then Failing else Clean;
    }

    method Flush() returns (outcome: FlushOutcome)
      requires Valid()
      modifies this`batch, this`messageIDs, this`poisonIDs, this`attempted, broker
      ensures Valid() && Onward(old(broker.run), broker.run)
      ensures poisonIDs == map[]
      // whatever fails, every noted entry is tried, and every malformed one unless the write failed
      ensures Attempts(old(attempted), attempted, multiset(old(poisonIDs).Keys) +
                       if outcome == Flushed then multiset(Malformeds(old(batch), old(messageIDs))) else multiset{})
      ensures outcome == AckFailed ==> batch == old(batch) && messageIDs == old(messageIDs)
      ensures outcome != AckFailed ==> batch == [] && messageIDs == []
      ensures outcome == Flushed || outcome == NothingToDo ==>
                Written(broker.run.w, Valids(old(batch), old(messageIDs)))
      ensures broker.redisUp ==> outcome != AckFailed
      ensures broker.FaultFree() ==> outcome == NothingToDo || outcome == Flushed
      // whatever others do, every entry in memory is off the pending list after a flush that succeeds
      ensures broker.redisUp ==> AllGone(old(broker.run), broker.run, old(poisonIDs).Keys, true)
      ensures broker.redisUp && (outcome == Flushed || outcome == NothingToDo) ==>
                AllFinished(old(broker.run), broker.run, old(Held()))
      // one valid event that the sink refuses, say of an unknown kind, fails every flush it is in, and the whole
      // batch stays pending
      ensures AnyRefused(broker.sinkMode, Valids(old(batch), old(messageIDs))) ==> outcome == WriteFailed
      ensures Calm(broker.alone, old(broker.run), broker.run) &&
              AnyRefused(broker.sinkMode, Valids(old(batch), old(messageIDs))) ==>
                old(broker.run.w.pending).Keys - old(poisonIDs).Keys <= broker.run.w.pending.Keys
      // a failed attempt, even one a retry made good, leaves the malformed part of the batch pending
      ensures Calm(broker.alone, old(broker.run), broker.run) && outcome == WriteFailed ==>
                && old(broker.run.w.pending).Keys
                     - old(poisonIDs).Keys - IdSet(RecordIds(Valids(old(batch), old(messageIDs))))
                   <= broker.run.w.pending.Keys
                && (broker.redisUp ==> AllBuried(old(broker.run.w), broker.run.w, multiset(old(poisonIDs).Keys)))
      ensures Calm(broker.alone, old(broker.run), broker.run) && broker.FaultFree() ==>
                FlushedAll(old(broker.run.w), broker.run.w, old(batch), old(messageIDs), old(poisonIDs).Keys)
      ensures Calm(broker.alone, old(broker.run), broker.run) ==>
                SamePosition(old(broker.run.w), broker.run.w) &&
                broker.run.w.pending.Keys <= old(broker.run.w.pending).Keys
    {
      hide Inv, Evolves, Apply, Guard, Onward, Sound, AllBuried, FlushedAll, Storable;
      hide Valids, Malformeds, IdSet, RecordIds, Buried, Noted, Deserved, Written, Attempts, AllGone, AnyRefused;
      hide AllFinished, AllHanded, Aligned;
      ghost var first, poison := broker.run, poisonIDs.Keys;
      NotedAll(first.w, poisonIDs, poison);
      NoneRefused(broker.sinkMode);
      if batch == [] && poisonIDs == map[] {
        OnwardReflexive(first);
        NothingFlushed(first.w);
        NothingWritten(first.w);
        EmptyBatch();
        AlignedShape(first.w, batch, messageIDs);
        assert messageIDs == [] && poison == {};
        NoAttempts(attempted);
        NoneGone(first, true);
        NoIds();
        assert Held() == {};
        NoneFinished(first, first);
        return NothingToDo;
      }
      ghost var buried := FlushPoison();
      SameAttempts(old(attempted), attempted, multiset(poison));
      ghost var cleared := broker.run;
      MemoryStays(first, cleared, [], [], poison);
      AlignedShape(cleared.w, batch, messageIDs);
      if batch == [] {
        NothingWritten(cleared.w);
        EmptyBatch();
        NoIds();
        assert old(Held()) == poison;
        if broker.redisUp {
          GoneIsFinished(first, cleared, poison);
        }
        if Calm(broker.alone, first, cleared) && broker.redisUp {
          FlushOfPoisonOnly(first.w, cleared.w, poison);
        }
        return Flushed;
      }
      ValidsAreStorable(cleared.w, batch, messageIDs);
      var valid, malformed := Separate();
      MalformedsAreRejected(cleared.w, batch, messageIDs);
      var reasons := Rejected(malformed);
      OnwardReflexive(cleared);
      NothingWritten(cleared.w);
      if valid != [] {
        var written, _ := WriteValid(valid);
        OnwardTransitive(broker.alone, first, cleared, broker.run);
        MemoryStays(cleared, broker.run, batch, messageIDs, {});
        NotedStays(cleared, broker.run, reasons);
        NothingNoted(broker.run.w);
        if broker.redisUp {
          AllGoneStays(first, cleared, broker.run, poison, true);
        }
        if written == Unacked {
          return AckFailed;
        }
        if written == Failing {
          if Calm(broker.alone, first, broker.run) && broker.redisUp {
            BurialsKept(first.w, cleared.w, broker.run.w, multiset(poison));
          }
          batch, messageIDs := [], [];
          return WriteFailed;
        }
      }
      ghost var stored := broker.run;
      MoreAttempts(old(attempted), attempted, multiset(poison), malformed);
      ghost var rejected := BuryEach(malformed, reasons);
      StorableStays(cleared, stored, valid);
      WrittenStays(stored, broker.run, valid);
      if broker.redisUp {
        FlushFinishes(first, cleared, stored, broker.run, batch, messageIDs, poison);
      }
      NothingNoted(broker.run.w);
      OnwardTransitive(broker.alone, first, stored, broker.run);
      OnwardTransitive(broker.alone, cleared, stored, broker.run);
      if Calm(broker.alone, first, broker.run) && broker.FaultFree() {
        FlushComposes(first.w, cleared.w, stored.w, broker.run.w, batch, messageIDs, poison);
      }
      batch, messageIDs := [], [];
      outcome := Flushed;
    }

    method FlushTracked(ghost base: World, ghost rest: seq<Entry>)
      requires Valid()
      modifies this`batch, this`messageIDs, this`poisonIDs, this`attempted, this`ackFailed, broker
      ensures Bounded() && (old(ackFailed) ==> ackFailed) && (broker.redisUp ==> ackFailed == old(ackFailed))
      ensures Valid() && Onward(old(broker.run), broker.run)
      ensures Calm(broker.alone, old(broker.run), broker.run) ==>
                SamePosition(old(broker.run.w), broker.run.w)
      ensures broker.FaultFree() ==> batch == [] && messageIDs == []
      ensures broker.FaultFree() ==> AllFinished(old(broker.run), broker.run, old(Held())) && Held() == {}
      ensures poisonIDs == map[] && EmptiedOrKept(old(batch), old(messageIDs), batch, messageIDs)
      ensures Calm(broker.alone, old(broker.run), broker.run) && broker.FaultFree() &&
              Tracks(base, old(broker.run.w), seen, rest, old(batch), old(messageIDs), old(poisonIDs).Keys) ==>
                Tracks(base, broker.run.w, seen, rest, batch, messageIDs, poisonIDs.Keys)
    {
      hide Inv, Evolves, Apply, Guard, Onward, Sound, Tracks, FlushedAll, AllFinished, IdSet;
      ghost var first, batch0, ids0, poison0 := broker.run, batch, messageIDs, poisonIDs.Keys;
      NoIds();
      var outcome := Flush();
      if outcome == AckFailed {
        ackFailed := true;
      }
      if Calm(broker.alone, first, broker.run) && broker.FaultFree()
         && Tracks(base, first.w, seen, rest, batch0, ids0, poison0) {
        TracksFlush(base, first.w, broker.run.w, seen, rest, batch0, ids0, poison0);
        assert poisonIDs.Keys == {};
      }
    }

    /** Parses one entry into the batch or the poison note, and flushes a full batch. */
    method Absorb(msg: Entry, ghost base: World, ghost rest: seq<Entry>)
      requires Valid() && Handed(broker.run.w, msg)
      modifies this`batch, this`messageIDs, this`poisonIDs, this`seen, this`attempted, this`ackFailed, broker
      ensures (old(Bounded()) ==> Bounded()) && (old(ackFailed) ==> ackFailed)
      ensures broker.redisUp ==> ackFailed == old(ackFailed)
      ensures Valid() && Onward(old(broker.run), broker.run) && seen == old(seen) + [msg]
      ensures match Parse(msg.field)
              case Poison(reason) =>
                batch == old(batch) && messageIDs == old(messageIDs) && poisonIDs == old(poisonIDs)[msg.id := reason]
              case Candidate(event) =>
                if |old(batch)| + 1 < batchSize
                then
                  && batch == old(batch) + [event] && messageIDs == old(messageIDs) + [msg.id]
                  && poisonIDs == old(poisonIDs)
                else
                  && EmptiedOrKept(old(batch) + [event], old(messageIDs) + [msg.id], batch, messageIDs)
                  && poisonIDs == map[]
      ensures broker.FaultFree() ==> AllFinished(old(broker.run), broker.run, old(Held()) + {msg.id} - Held())
      ensures Calm(broker.alone, old(broker.run), broker.run) ==>
                SamePosition(old(broker.run.w), broker.run.w)
      ensures Calm(broker.alone, old(broker.run), broker.run) && broker.FaultFree() &&
              Tracks(base, old(broker.run.w), old(seen), [msg] + rest,
                     old(batch), old(messageIDs), old(poisonIDs).Keys) &&
              msg.id !in IdSet(EntryIds(old(seen))) ==>
                Tracks(base, broker.run.w, seen, rest, batch, messageIDs, poisonIDs.Keys)
    {
      hide Inv, Evolves, Apply, Guard, Onward, Sound, Tracks, FlushedAll, IdSet, EntryIds;
      hide Valids, Malformeds, Aligned, AllHanded, Handed, Parse, Noted, Deserved, AllFinished;
      ghost var first, before, held := broker.run, seen, Held();
      NoneFinished(first, first);
      ghost var tracked := Tracks(base, first.w, seen, [msg] + rest, batch, messageIDs, poisonIDs.Keys) &&
                           msg.id !in IdSet(EntryIds(seen));
      OnwardReflexive(first);
      seen := seen + [msg];
      match Parse(msg.field) {
        case Poison(reason) =>
          if tracked {
            TracksPoison(base, first.w, before, msg, rest, batch, messageIDs, poisonIDs.Keys);
          }
          NotedAppend(first.w, poisonIDs, msg, reason);
          poisonIDs := poisonIDs[msg.id := reason];
          assert held + {msg.id} - Held() == {};
        case Candidate(event) =>
          if tracked {
            TracksCandidate(base, first.w, before, msg, rest, batch, messageIDs, poisonIDs.Keys, event);
          }
          AlignedAppend(first.w, batch, messageIDs, msg, event);
          IdSetAppend(messageIDs, msg.id);
          batch, messageIDs := batch + [event], messageIDs + [msg.id];
          assert held + {msg.id} == Held();
          if |batch| >= batchSize {
            FlushTracked(base, rest);
            if broker.FaultFree() {
              assert held + {msg.id} - Held() == held + {msg.id};
            }
          } else {
            assert held + {msg.id} - Held() == {};
          }
      }
    }

    /** Parses a page, entry by entry. */
    method AbsorbPage(page: seq<Entry>, ghost base: World, ghost k0: nat)
      requires Valid() && forall k :: 0 <= k < |page| ==> Handed(broker.run.w, page[k])
      modifies this`batch, this`messageIDs, this`poisonIDs, this`seen, this`attempted, this`ackFailed, broker
      ensures (old(Bounded()) ==> Bounded()) && (old(ackFailed) ==> ackFailed)
      ensures broker.redisUp ==> ackFailed == old(ackFailed)
      ensures Valid() && Onward(old(broker.run), broker.run) && seen == old(seen) + page
      ensures page == [] ==> broker.run == old(broker.run)
      ensures broker.FaultFree() ==>
                AllFinished(old(broker.run), broker.run, old(Held()) + IdSet(EntryIds(page)) - Held())
      ensures Calm(broker.alone, old(broker.run), broker.run) ==>
                SamePosition(old(broker.run.w), broker.run.w)
      ensures Calm(broker.alone, old(broker.run), broker.run) && broker.FaultFree() &&
              Tracks(base, old(broker.run.w), old(seen), page, old(batch), old(messageIDs), old(poisonIDs).Keys) &&
              Position(old(broker.run.w), k0, old(seen) + page) ==>
                Tracks(base, broker.run.w, seen, [], batch, messageIDs, poisonIDs.Keys)
    {
      hide Inv, Evolves, Apply, Guard, Onward, Sound, Tracks, FlushedAll, IdSet;
      hide EntryIds, Position, Aligned, AllHanded, Handed, Sorted, Noted, AllFinished;
      ghost var read, seen0, held0 := broker.run, seen, Held();
      NoneFinished(read, read);
      NoIds();
      HeldHanded(read.w, batch, messageIDs, poisonIDs);
      ghost var bounded, failed := Bounded(), ackFailed;
      ghost var tracked := broker.FaultFree() && Position(read.w, k0, seen + page) &&
                           Tracks(base, read.w, seen, page, batch, messageIDs, poisonIDs.Keys);
      if tracked {
        LogIsSorted(read, broker.knownKinds);
      }
      OnwardReflexive(read);
      assert page[..0] == [] && page[0..] == page && seen0 + [] == seen0 && EntryIds(page[..0]) == [];
      assert Held() + {} - Held() == {};
      for k := 0 to |page|
        invariant Valid() && Onward(read, broker.run) && seen == seen0 + page[..k]
        invariant k == 0 ==> broker.run == read
        invariant broker.FaultFree() ==>
                    AllFinished(read, broker.run, held0 + IdSet(EntryIds(page[..k])) - Held())
        invariant (bounded ==> Bounded()) && (failed ==> ackFailed) && (broker.redisUp ==> ackFailed == failed)
        invariant forall j :: 0 <= j < |page| ==> Handed(broker.run.w, page[j])
        invariant Calm(broker.alone, read, broker.run) ==> SamePosition(read.w, broker.run.w)
        invariant tracked && Calm(broker.alone, read, broker.run) ==>
                    Tracks(base, broker.run.w, seen, page[k..], batch, messageIDs, poisonIDs.Keys)
      {
        ghost var mid, held := broker.run, Held();
        assert page[k..] == [page[k]] + page[k + 1..];
        if tracked {
          FreshEntry(read.w, k0, seen0 + page, |seen0| + k);
          assert (seen0 + page)[..|seen0| + k] == seen;
        }
        Absorb(page[k], base, page[k + 1..]);
        OnwardTransitive(broker.alone, read, mid, broker.run);
        HandedStaysInRun(mid, broker.run, page);
        assert page[..k + 1] == page[..k] + [page[k]];
        if broker.FaultFree() {
          FinishedNext(read, mid, broker.run, page, k, held0, held, Held());
        }
      }
      assert page[..|page|] == page && page[|page|..] == [];
    }

    /** One turn of the read loop: a page of new entries, parsed one by one. */
    method Poll(ghost base: World, ghost k0: nat) returns (ok: bool, added: nat)
      requires Valid()
      modifies this`batch, this`messageIDs, this`poisonIDs, this`seen, this`attempted, this`ackFailed, broker
      ensures (old(Bounded()) ==> Bounded()) && (old(ackFailed) ==> ackFailed)
      ensures broker.redisUp ==> ackFailed == old(ackFailed)
      ensures Valid() && Onward(old(broker.run), broker.run)
      ensures broker.redisUp ==> ok
      ensures |old(seen)| + added == |seen| && old(seen) <= seen
      ensures ok && added == 0 ==> ReadTo(broker.run.w, |broker.run.w.log|)
      ensures forall k :: |old(seen)| <= k < |seen| ==> Handed(broker.run.w, seen[k])
      ensures broker.FaultFree() ==>
                AllFinished(old(broker.run), broker.run,
                            old(Held()) + IdSet(EntryIds(seen[|old(seen)|..])) - Held())
      ensures Calm(broker.alone, old(broker.run), broker.run) && broker.FaultFree() &&
              Tracks(base, old(broker.run.w), old(seen), [], old(batch), old(messageIDs), old(poisonIDs).Keys) &&
              Position(old(broker.run.w), k0, old(seen)) ==>
                && Tracks(base, broker.run.w, seen, [], batch, messageIDs, poisonIDs.Keys)
                && Position(broker.run.w, k0, seen)
                && (added == 0 ==> k0 + |seen| == |broker.run.w.log|)
    {
      hide Inv, Evolves, Apply, Guard, Onward, Sound, Tracks, IdSet;
      hide EntryIds, Position, Aligned, AllHanded, Handed, ReadTo, Noted, AllFinished;
      ghost var first, seen0, held0 := broker.run, seen, Held();
      ghost var tracked := broker.FaultFree() && Position(first.w, k0, seen) &&
                           Tracks(base, first.w, seen, [], batch, messageIDs, poisonIDs.Keys);
      var page: seq<Entry>;
      ghost var from: nat;
      ok, page, from := broker.ReadGroup(READ_COUNT);
      ghost var read := broker.run;
      added := |page|;
      MemoryStays(first, read, batch, messageIDs, {});
      NotedStays(first, read, poisonIDs);
      tracked := tracked && Calm(broker.alone, first, read);
      if tracked {
        TracksRead(base, first.w, read.w, seen, page, batch, messageIDs, poisonIDs.Keys);
        PositionGrows(first, k0, seen0, read, page, from);
      }
      AbsorbPage(page, base, k0);
      OnwardTransitive(broker.alone, first, read, broker.run);
      HandedStaysInRun(read, broker.run, page);
      assert seen[|seen0|..] == page;
      if broker.FaultFree() {
        FinishedSinceEarlier(first, read, broker.run, held0 + IdSet(EntryIds(page)) - Held());
      }
      if tracked && Calm(broker.alone, first, broker.run) {
        PositionKept(read, broker.run, broker.knownKinds, k0, seen);
      }
    }

    /** Writes one reclaimed event: up to three attempts, none after a validation error. */
    method EmitRecovered(id: StreamId, event: Event) returns (r: EmitResult, attempts: nat)
      requires broker.Valid() && id in broker.run.w.body && Delivered(broker.run.w, id)
      requires Parse(broker.run.w.body[id]) == Candidate(event)
      modifies broker
      ensures broker.Valid() && Onward(old(broker.run), broker.run)
      ensures r.Malformed? <==> !Validates(event)
      ensures r.Emitted? ==> Accepted(broker.run.w, id)
      ensures 1 <= attempts <= MAX_RETRIES
      ensures (r.Malformed? ==> attempts == 1) && (r.Transient? ==> attempts == MAX_RETRIES)
      ensures broker.failures == old(broker.failures) + attempts - if r.Emitted? then 1 else 0
      ensures Validates(event) && (broker.FaultFree() || Takes(broker.sinkMode, event)) ==> r.Emitted?
      ensures Refuses(broker.sinkMode, event) ==> !r.Emitted?
      ensures Calm(broker.alone, old(broker.run), broker.run) ==> OnlySink(old(broker.run.w), broker.run.w)
    {
      hide Inv, Evolves, Apply, Guard, Onward, Sound, SinkIds, Parse, Validates;
      ghost var first := broker.run;
      OnwardReflexive(first);
      var attempt := 1;
      r, attempts := Transient, 0;
      while attempt <= MAX_RETRIES && r.Transient?
        invariant broker.Valid() && Onward(first, broker.run)
        invariant id in broker.run.w.body && Delivered(broker.run.w, id)
                  && Parse(broker.run.w.body[id]) == Candidate(event)
        invariant r.Malformed? ==> !Validates(event)
        invariant attempt > 1 ==> (r.Malformed? <==> !Validates(event))
        invariant attempt == 1 ==> r.Transient?
        invariant attempt == attempts + 1 && attempts <= MAX_RETRIES
        invariant r.Malformed? ==> attempts == 1
        invariant broker.failures == old(broker.failures) + attempts - if r.Emitted? then 1 else 0
        invariant r.Emitted? ==> Accepted(broker.run.w, id)
        invariant attempt > 1 && Validates(event) && (broker.FaultFree() || Takes(broker.sinkMode, event)) ==>
                    r.Emitted?
        invariant Refuses(broker.sinkMode, event) ==> !r.Emitted?
        invariant Calm(broker.alone, first, broker.run) ==> OnlySink(first.w, broker.run.w)
        decreases MAX_RETRIES - attempt
      {
        ghost var mid := broker.run;
        attempts := attempt;
        r := broker.Emit(id, event);
        OnwardTransitive(broker.alone, first, mid, broker.run);
        OnwardEvolves(mid, broker.run);
        HandedStays(mid.w, broker.run.w, Entry(id, mid.w.body[id]));
        attempt := attempt + 1;
      }
    }

    /** Writes one reclaimed event and settles it: an accepted one is ACKed, a malformed one goes to the DLQ, and
        one whose write failed is left pending. */
    method RecoverEvent(msg: Entry, event: Event) returns (ghost r: EmitResult)
      requires broker.Valid() && Handed(broker.run.w, msg) && Parse(msg.field) == Candidate(event)
      modifies this`attempted, broker
      ensures broker.Valid() && Onward(old(broker.run), broker.run)
      ensures r.Malformed? <==> !Validates(event)
      ensures Validates(event) && (broker.FaultFree() || Takes(broker.sinkMode, event)) ==> r.Emitted?
      ensures Refuses(broker.sinkMode, event) ==> !r.Emitted?
      ensures old(broker.failures) <= broker.failures <= old(broker.failures) + MAX_RETRIES
      ensures r.Transient? ==> broker.failures == old(broker.failures) + MAX_RETRIES
      ensures broker.redisUp && r.Emitted? ==> msg.id !in broker.run.w.pending && Accepted(broker.run.w, msg.id)
      ensures broker.redisUp && r.Malformed? ==>
                msg.id !in broker.run.w.pending && Recorded(old(broker.run), broker.run, msg.id)
      ensures Calm(broker.alone, old(broker.run), broker.run) ==>
                && Shrunk(old(broker.run.w), broker.run.w, {msg.id})
                && SamePosition(old(broker.run.w), broker.run.w)
                && (r.Transient? ==> broker.run.w.pending == old(broker.run.w.pending))
    {
      hide Inv, Evolves, Apply, Guard, Onward, Sound, DlqIds, SinkIds, Parse, Validates, Buried, Takes, Refuses;
      hide Recorded;
      ghost var first := broker.run;
      var result, _ := EmitRecovered(msg.id, event);
      r := result;
      ghost var emitted := broker.run;
      OnwardEvolves(first, emitted);
      HandedStays(first.w, emitted.w, msg);
      match result {
        case Emitted =>
          assert IdSet([msg.id]) == {msg.id} by {
            assert [msg.id][..0] == [];
          }
          var _ := AckMessages([msg.id]);
          OnwardTransitive(broker.alone, first, emitted, broker.run);
          AcceptedStays(emitted, broker.run, msg.id);
        case Malformed =>
          var _ := BuryAndAck(msg.id, ValidationFailed);
          OnwardTransitive(broker.alone, first, emitted, broker.run);
          if broker.redisUp {
            RecordedSinceEarlier(first, emitted, broker.run, msg.id);
          }
        case Transient =>
      }
    }

    /** One reclaimed entry: stuck or poison goes to the DLQ; an event goes to the sink, and stays pending when
        its write fails.  `failed` is the entry in that case, and nothing otherwise. */
    method RecoverOne(msg: Entry) returns (ghost failed: set<StreamId>)
      requires broker.Valid() && Handed(broker.run.w, msg)
      modifies this`attempted, broker
      ensures broker.Valid() && Onward(old(broker.run), broker.run)
      ensures Recovered(old(broker.run), broker.run, {msg.id}, failed, broker.redisUp, broker.sinkMode)
      ensures broker.redisUp ==> Interred(old(broker.run), broker.run, {msg.id})
      ensures old(broker.failures) + MAX_RETRIES * |failed| <= broker.failures
      ensures Calm(broker.alone, old(broker.run), broker.run) ==>
                && Shrunk(old(broker.run.w), broker.run.w, {msg.id} - failed)
                && SamePosition(old(broker.run.w), broker.run.w)
    {
      hide Inv, Evolves, Apply, Guard, Onward, Sound, DlqIds, SinkIds, Validates, Buried, Recovered, Takes, Refuses;
      hide Interred, Recorded;
      ghost var first := broker.run;
      failed := {};
      var now, _ := broker.Clock();
      ghost var timed := broker.run;
      OnwardEvolves(first, timed);
      HandedStays(first.w, timed.w, msg);
      if MessageAge(now, msg.id) > STUCK_AFTER_MS {
        var _ := BuryAndAck(msg.id, StuckPending);
        OnwardTransitive(broker.alone, first, timed, broker.run);
        RecoveredByBurial(first, timed, broker.run, msg, broker.redisUp, broker.sinkMode);
        GivenUp(first, broker.run, {msg.id}, failed, broker.redisUp, broker.sinkMode);
        return;
      }
      match Parse(msg.field) {
        case Poison(reason) =>
          PoisonDeserved(timed.w, msg, reason);
          var _ := BuryAndAck(msg.id, reason);
          OnwardTransitive(broker.alone, first, timed, broker.run);
          RecoveredByBurial(first, timed, broker.run, msg, broker.redisUp, broker.sinkMode);
        case Candidate(event) =>
          ghost var r := RecoverEvent(msg, event);
          OnwardTransitive(broker.alone, first, timed, broker.run);
          if r.Transient? {
            failed := {msg.id};
          }
          RecoveredByWrite(first, timed, broker.run, msg, event, r, broker.redisUp, broker.sinkMode);
      }
      GivenUp(first, broker.run, {msg.id}, failed, broker.redisUp, broker.sinkMode);
    }

    /** The messages of one page of reclaimed entries. */
    method RecoverMessages(messages: seq<Entry>) returns (ghost failed: set<StreamId>)
      requires broker.Valid() && forall k :: 0 <= k < |messages| ==> Handed(broker.run.w, messages[k])
      modifies this`attempted, broker
      ensures broker.Valid() && Onward(old(broker.run), broker.run)
      ensures Recovered(old(broker.run), broker.run, IdSet(EntryIds(messages)), failed,
                        broker.redisUp, broker.sinkMode)
      ensures broker.redisUp ==> Interred(old(broker.run), broker.run, IdSet(EntryIds(messages)))
      ensures old(broker.failures) + MAX_RETRIES * |failed| <= broker.failures
      ensures Calm(broker.alone, old(broker.run), broker.run) ==>
                && Shrunk(old(broker.run.w), broker.run.w, IdSet(EntryIds(messages)) - failed)
                && SamePosition(old(broker.run.w), broker.run.w)
    {
      hide Inv, Evolves, Apply, Guard, Onward, Sound, Recovered, Shrunk, Interred;
      hide EntryIds, IdSet, Handed, StillFailed;
      ghost var first := broker.run;
      OnwardReflexive(first);
      NothingRecovered(first, broker.redisUp, broker.sinkMode);
      NoIds();
      failed := {};
      assert messages[..0] == [] && EntryIds(messages[..0]) == [] && failed - failed == failed;
      for k := 0 to |messages|
        invariant broker.Valid() && Onward(first, broker.run)
        invariant forall j :: 0 <= j < |messages| ==> Handed(broker.run.w, messages[j])
        invariant Recovered(first, broker.run, IdSet(EntryIds(messages[..k])), failed,
                            broker.redisUp, broker.sinkMode)
        invariant old(broker.failures) + MAX_RETRIES * |failed| <= broker.failures
        invariant Calm(broker.alone, first, broker.run) ==>
                    && Shrunk(first.w, broker.run.w, IdSet(EntryIds(messages[..k])) - failed)
                    && SamePosition(first.w, broker.run.w)
      {
        ghost var mid, ids, id := broker.run, IdSet(EntryIds(messages[..k])), messages[k].id;
        ghost var more := RecoverOne(messages[k]);
        OnwardTransitive(broker.alone, first, mid, broker.run);
        HandedStaysInRun(mid, broker.run, messages);
        assert messages[..k + 1] == messages[..k] + [messages[k]];
        EntriesAppend(messages[..k], messages[k]);
        RecoveredNext(first, mid, broker.run, ids, failed, {id}, more, broker.redisUp, broker.sinkMode);
        if Calm(broker.alone, first, broker.run) {
          FailedWereClaimed(first, mid, ids, failed, broker.redisUp, broker.sinkMode);
          ShrunkTwice(first.w, mid.w, broker.run.w, ids, failed, {id}, more);
        }
        FewFailed(ids, failed, {id}, more);
        failed := StillFailed(ids, failed, {id}, more);
      }
      assert messages[..|messages|] == messages;
      GivenUp(first, broker.run, IdSet(EntryIds(messages)), failed, broker.redisUp, broker.sinkMode);
    }

    /** The recovery sweep: claims idle pending entries page by page until the cursor comes back to 0-0.
        `failed` are the claimed entries whose write failed; `SweepLeaves` says what that makes of the others. */
    method RecoverPending() returns (ok: bool, ghost claimed: set<StreamId>, ghost failed: set<StreamId>)
      requires broker.Valid()
      modifies this`attempted, broker
      ensures broker.Valid() && Onward(old(broker.run), broker.run)
      ensures broker.redisUp ==> ok
      // whatever others do meanwhile
      ensures Recovered(old(broker.run), broker.run, claimed, failed, broker.redisUp, broker.sinkMode)
      ensures broker.redisUp ==> Interred(old(broker.run), broker.run, claimed)
      // each failed entry was tried three times
      ensures old(broker.failures) + MAX_RETRIES * |failed| <= broker.failures
      ensures broker.FaultFree() ==> failed == {}
      ensures ok ==> TouchedTo(old(broker.run.w), broker.run.w, None, CLAIM_IDLE_MS)
      ensures Calm(broker.alone, old(broker.run), broker.run) ==>
                && SamePosition(old(broker.run.w), broker.run.w)
                && Kept(old(broker.run.w), broker.run.w, claimed, failed)
                && (ok ==> SweptTo(old(broker.run.w), broker.run.w, None, CLAIM_IDLE_MS, claimed))
    {
      hide Inv, Evolves, Apply, Guard, Onward, Sound, SweptTo, Swept, Recovered, Kept, StillFailed;
      hide Shrunk, Handed, OnlyTakenLeft, EntryIds, IdSet, InRange;
      hide PageTouched, TouchedTo, Interred;
      ghost var first := broker.run;
      OnwardReflexive(first);
      NothingRecovered(first, broker.redisUp, broker.sinkMode);
      SoundPending(first, broker.knownKinds);
      SweepStarts(first.w, CLAIM_IDLE_MS);
      TouchedStarts(first.w, CLAIM_IDLE_MS);
      claimed, failed := {}, {};
      var cursor, done := ZERO, false;
      while !done
        invariant broker.Valid() && Onward(first, broker.run)
        invariant Recovered(first, broker.run, claimed, failed, broker.redisUp, broker.sinkMode)
        invariant old(broker.failures) + MAX_RETRIES * |failed| <= broker.failures
        invariant TouchedTo(first.w, broker.run.w, if done then None else Some(cursor), CLAIM_IDLE_MS)
        invariant Calm(broker.alone, first, broker.run) ==>
                    && SamePosition(first.w, broker.run.w)
                    && Kept(first.w, broker.run.w, claimed, failed)
                    && SweptTo(first.w, broker.run.w, if done then None else Some(cursor), CLAIM_IDLE_MS, claimed)
        decreases broker.run.budget, !done, Ahead(broker.run.w, cursor)
      {
        ghost var start := broker.run;
        var reply := broker.AutoClaim(cursor, CLAIM_IDLE_MS);
        ghost var paged := broker.run;
        OnwardTransitive(broker.alone, first, start, paged);
        BudgetFalls(start, paged);
        RecoveredStays(first, start, paged, claimed, failed, broker.redisUp, broker.sinkMode);
        FailedWereClaimed(first, paged, claimed, failed, broker.redisUp, broker.sinkMode);
        match reply {
          case ClaimFailed =>
            if Calm(broker.alone, first, paged) {
              OnwardReflexive(paged);
              KeptByClaim(first, start, paged, claimed, failed);
            }
            return false, claimed, failed;
          case Nothing =>
            NoneIsTouched(start.w, paged.w, cursor, ZERO, CLAIM_IDLE_MS);
            OnwardReflexive(paged);
            TouchedStep(first, start, paged, paged, cursor, ZERO, CLAIM_IDLE_MS);
            if Calm(broker.alone, first, paged) {
              KeptByClaim(first, start, paged, claimed, failed);
              SweepEnds(first, start, paged, cursor, CLAIM_IDLE_MS, claimed);
            }
            done := true;
          case Page(next, messages) =>
            ghost var page := IdSet(EntryIds(messages));
            ghost var more := RecoverMessages(messages);
            OnwardTransitive(broker.alone, first, paged, broker.run);
            OnwardTransitive(broker.alone, start, paged, broker.run);
            BudgetFalls(paged, broker.run);
            TouchedStep(first, start, paged, broker.run, cursor, next, CLAIM_IDLE_MS);
            RecoveredNext(first, paged, broker.run, claimed, failed, page, more, broker.redisUp, broker.sinkMode);
            if Calm(broker.alone, start, broker.run) {
              SweptParts(start.w, paged.w, cursor, next, CLAIM_IDLE_MS, EntryIds(messages));
              AheadShrinks(start.w, paged.w, broker.run.w, cursor, next, page - more);
            }
            if Calm(broker.alone, first, broker.run) {
              PageInRange(paged.w, messages, cursor, UpTo(next));
              SweepPage(first, start, paged, broker.run, cursor, next, CLAIM_IDLE_MS,
                        claimed, failed, messages, more);
            }
            FewFailed(claimed, failed, page, more);
            claimed, failed := claimed + page, StillFailed(claimed, failed, page, more);
            if next == ZERO {
              done := true;
            } else {
              cursor := next;
            }
        }
      }
      ok := true;
      GivenUp(first, broker.run, claimed, failed, broker.redisUp, broker.sinkMode);
      if broker.FaultFree() {
        NoneFailed(first, broker.run, claimed, failed, true);
      }
    }

    ghost function Given(): Conditions {
      Conditions(broker.redisUp, broker.sinkMode, broker.alone, broker.knownKinds)
    }

    /** What was read since `first` is settled, or still in memory. */
    ghost predicate Settles(first: Run)
      reads this, broker
    {
      && Onward(first, broker.run) && (forall k :: 0 <= k < |seen| ==> Handed(broker.run.w, seen[k]))
      && (broker.FaultFree() ==> AllFinished(first, broker.run, IdSet(EntryIds(seen)) - Held()))
    }

    /** One turn of the main loop. */
    method Turn(wakeup: Wakeup, ghost first: Run, ghost k0: nat)
      requires Valid() && Settles(first)
      modifies this`batch, this`messageIDs, this`poisonIDs, this`seen, this`attempted, this`ackFailed, broker
      ensures (old(Bounded()) ==> Bounded()) && (broker.redisUp ==> ackFailed == old(ackFailed))
      ensures Valid() && Onward(old(broker.run), broker.run) && Settles(first) && old(seen) <= seen
      ensures Turned(Given(), first, wakeup, old(broker.run), broker.run, |old(seen)|, seen)
      ensures Calm(broker.alone, old(broker.run), broker.run) && broker.FaultFree() && wakeup != RecoveryTick &&
              Tracks(first.w, old(broker.run.w), old(seen), [], old(batch), old(messageIDs), old(poisonIDs).Keys) &&
              Position(old(broker.run.w), k0, old(seen)) ==>
                && Tracks(first.w, broker.run.w, seen, [], batch, messageIDs, poisonIDs.Keys)
                && Position(broker.run.w, k0, seen)
                && (wakeup == NothingDue ==> |seen| > |old(seen)| || k0 + |seen| == |broker.run.w.log|)
    {
      hide Inv, Evolves, Apply, Guard, Onward, Sound, Tracks, Position, ReadTo, SweptTo, Recovered, Kept, TouchedTo;
      hide GoodRecords, PoisonOf, AllFinished, IdSet, EntryIds, AllHanded, Handed, Noted, Aligned;
      ghost var mid, seen0, held0 := broker.run, seen, Held();
      PageHanded(mid.w, seen, |seen|);
      HeldHanded(mid.w, batch, messageIDs, poisonIDs);
      assert seen[..|seen|] == seen && seen[|seen|..] == [];
      match wakeup {
        case FlushTick =>
          FlushTracked(first.w, []);
          OnwardTransitive(broker.alone, first, mid, broker.run);
          HandedStaysInRun(mid, broker.run, seen);
          if broker.FaultFree() {
            FinishedWith(first, mid, broker.run, IdSet(EntryIds(seen)), held0);
          }
          if Calm(broker.alone, mid, broker.run) && Position(mid.w, k0, seen) {
            PositionKept(mid, broker.run, broker.knownKinds, k0, seen);
          }
        case RecoveryTick =>
          ghost var claimed, failed;
          var ok;
          ok, claimed, failed := RecoverPending();
          OnwardTransitive(broker.alone, first, mid, broker.run);
          HandedStaysInRun(mid, broker.run, seen);
          MemoryStays(mid, broker.run, batch, messageIDs, {});
          NotedStays(mid, broker.run, poisonIDs);
          assert Sweeps(Given(), mid, broker.run, claimed, failed);
          if broker.FaultFree() {
            HandedPart(mid.w, IdSet(EntryIds(seen)), held0);
            FinishedStays(first, mid, broker.run, IdSet(EntryIds(seen)) - held0);
          }
        case NothingDue =>
          var _, _ := Poll(first.w, k0);
          OnwardTransitive(broker.alone, first, mid, broker.run);
          HandedStaysInRun(mid, broker.run, seen0);
          if broker.FaultFree() {
            FinishedByPage(first, mid, broker.run, seen0, seen, held0, Held());
          }
      }
    }

    /** The main loop: it ends with a flush when told to stop.  `states` and `counts` say where each turn began. */
    method Run(wakeups: seq<Wakeup>) returns (ghost k0: nat, ghost states: seq<Run>, ghost counts: seq<nat>)
      requires broker.Valid()
      modifies this, broker
      ensures Bounded() && (broker.redisUp ==> !ackFailed)
      ensures Valid() && Onward(old(broker.run), broker.run)
      // every turn does its part, whatever others do, with recovery ticks or not
      ensures Turns(Given(), wakeups, states, counts, seen) && states[0] == old(broker.run)
      ensures Onward(states[|wakeups|], broker.run)
      // without faults everything that was read ends up settled and off the pending list
      ensures broker.FaultFree() ==> AllFinished(old(broker.run), broker.run, IdSet(EntryIds(seen)))
      // and undisturbed exactly so, and at least one entry is read per turn until none is left
      ensures Calm(broker.alone, old(broker.run), broker.run) && broker.FaultFree() && RecoveryTick !in wakeups ==>
                && batch == [] && poisonIDs == map[] && Drained(old(broker.run.w), broker.run.w, k0, seen)
                && (|seen| >= Reads(wakeups) || k0 + |seen| >= |old(broker.run.w.log)|)
    {
      hide Inv, Evolves, Apply, Guard, Onward, Sound, Tracks, Turned, Turns, AllFinished, EntryIds, Handed;
      hide Position, ReadTo, SweptTo, Recovered, Kept, GoodRecords, PoisonOf, Noted, Aligned, IdSet, Reads, Drained;
      ghost var first := broker.run;
      batch, messageIDs, poisonIDs, seen, ackFailed := [], [], map[], [], false;
      OnwardReflexive(first);
      TracksStart(first.w);
      NothingNoted(first.w);
      k0 := PositionStarts(first, broker.knownKinds);
      NoTurns(Given(), first);
      NoReads();
      NoIds();
      NoneFinished(first, first);
      states, counts := [first], [0];
      assert poisonIDs.Keys == {} && EntryIds(seen) == [] && wakeups[..0] == [];
      assert IdSet(EntryIds(seen)) - Held() == {};
      for i := 0 to |wakeups|
        invariant Valid() && Settles(first) && Bounded() && (broker.redisUp ==> !ackFailed)
        invariant |states| == i + 1 && states[0] == first && states[i] == broker.run
        invariant Turns(Given(), wakeups[..i], states, counts, seen)
        invariant Calm(broker.alone, first, broker.run) && broker.FaultFree() && RecoveryTick !in wakeups ==>
                    && Tracks(first.w, broker.run.w, seen, [], batch, messageIDs, poisonIDs.Keys)
                    && Position(broker.run.w, k0, seen)
                    && (|seen| >= Reads(wakeups[..i]) || k0 + |seen| >= |first.w.log|)
      {
        ghost var mid, seen0 := broker.run, seen;
        Turn(wakeups[i], first, k0);
        OnwardTransitive(broker.alone, first, mid, broker.run);
        OnwardLog(first, broker.run);
        assert wakeups[..i + 1] == wakeups[..i] + [wakeups[i]];
        OneMoreTurn(Given(), wakeups[..i], states, counts, seen0, wakeups[i], broker.run, seen);
        OneMoreRead(wakeups[..i], wakeups[i]);
        states, counts := states + [broker.run], counts + [|seen|];
      }
      assert wakeups[..|wakeups|] == wakeups;
      ghost var last, held := broker.run, Held();
      HeldHanded(last.w, batch, messageIDs, poisonIDs);
      PageHanded(last.w, seen, |seen|);
      assert seen[..|seen|] == seen;
      FlushTracked(first.w, []);
      OnwardTransitive(broker.alone, first, last, broker.run);
      if broker.FaultFree() {
        FinishedWith(first, last, broker.run, IdSet(EntryIds(seen)), held);
      }
      if Calm(broker.alone, first, broker.run) && broker.FaultFree() && RecoveryTick !in wakeups {
        PositionKept(last, broker.run, broker.knownKinds, k0, seen);
        assert poisonIDs.Keys == {};
        TracksDrained(first.w, broker.run.w, k0, seen);
      }
    }

    /** A restarted replica with nothing in memory: one recovery sweep, reads until nothing is left, and a
        flush.  Fault-free and with no other consumer about, and everything pending idle, it leaves nothing
        pending, and settles every event appended before it started. */
    method CatchUp()
      requires broker.Valid() && broker.alone && broker.FaultFree()
      requires forall id :: id in broker.run.w.pending ==> Idle(broker.run.w, id, CLAIM_IDLE_MS)
      modifies this, broker
      ensures Valid() && Onward(old(broker.run), broker.run)
      ensures broker.run.w.pending == map[]
      ensures forall id :: id in old(broker.run.w.body) ==>
                id in broker.run.w.body && !Unread(broker.run.w, id) &&
                (Clear(broker.run.w, id) || Taken(broker.run.w, id))
      ensures AtomicTrims(broker.run.ws, broker.run.ops) && broker.run.w.capped == {} ==>
                forall id :: id in old(broker.run.w.body) ==> Clear(broker.run.w, id)
      ensures broker.run.budget == old(broker.run.budget) ==>
                forall id :: id in broker.run.w.body ==> !Unread(broker.run.w, id)
    {
      hide Inv, Evolves, Apply, Guard, Onward, Sound, Tracks, Position, ReadTo;
      hide SweptTo, Recovered, Kept, GoodRecords, PoisonOf, Clear, AtomicTrims, IdSet;
      ghost var first := broker.run;
      var _, claimed, _ := RecoverPending();
      ghost var base := broker.run;
      AllSwept(first, base, CLAIM_IDLE_MS, claimed, broker.sinkMode);
      batch, messageIDs, poisonIDs, seen := [], [], map[], [];
      TracksStart(base.w);
      ghost var k0 := PositionStarts(base, broker.knownKinds);
      OnwardReflexive(base);
      assert poisonIDs.Keys == {};
      var more := true;
      while more
        invariant Valid() && Onward(base, broker.run)
        invariant Tracks(base.w, broker.run.w, seen, [], batch, messageIDs, poisonIDs.Keys)
        invariant Position(broker.run.w, k0, seen)
        invariant !more ==> k0 + |seen| == |broker.run.w.log|
        decreases more, broker.run.budget + |broker.run.w.log| - k0 - |seen|
      {
        ghost var mid, seen0 := broker.run, seen;
        var ok, added := Poll(base.w, k0);
        OnwardTransitive(true, base, mid, broker.run);
        AppendsUseBudget(mid, broker.run);
        PositionSpan(mid.w, k0, seen0);
        PositionSpan(broker.run.w, k0, seen);
        more := added > 0;
      }
      ghost var last := broker.run;
      FlushTracked(base.w, []);
      OnwardTransitive(true, base, last, broker.run);
      OnwardTransitive(true, first, base, broker.run);
      PositionKept(last, broker.run, broker.knownKinds, k0, seen);
      assert poisonIDs.Keys == {};
      TracksDrained(base.w, broker.run.w, k0, seen);
      PositionSpan(last.w, k0, seen);
      OnwardTransitive(true, first, base, last);
      CaughtUp(first, last, broker.run, broker.knownKinds, k0, seen);
    }
  }
}
