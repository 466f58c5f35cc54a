/** What holds in every run of the event writer: any number of replicas, any mix of failed calls,
    crashes, reclaims and trims, interleaved call by call. */
module StreamSafety {
  import opened Prelude
  import opened EventLog

  /** One more sound step, after a sound history. */
  lemma SoundStep(ws: seq<World>, ops: seq<Op>, k: nat)
    requires IsRun(ws, ops) && k < |ops|
    requires forall j :: 0 <= j <= k ==> Inv(ws[j]) && Evolves(ws[j], ws[k])
    ensures Inv(ws[k + 1]) && Evolves(ws[k], ws[k + 1])
  {
    assert Guard(ws, k, ops[k]);
    StepSound(ws, k, ops[k]);
  }

  lemma StartSound(now: int)
    ensures Inv(Start(now))
  {
  }

  lemma {:induction false} HistorySound(ws: seq<World>, ops: seq<Op>, k: nat)
    requires IsRun(ws, ops) && k < |ws|
    ensures forall j :: 0 <= j <= k ==> Inv(ws[j]) && Evolves(ws[j], ws[k])
  {
    hide Inv, Evolves;
    if k == 0 {
      StartSound(ws[0].now);
      EvolvesReflexive(ws[0]);
    } else {
      HistorySound(ws, ops, k - 1);
      SoundStep(ws, ops, k - 1);
      forall j | 0 <= j <= k
        ensures Inv(ws[j]) && Evolves(ws[j], ws[k])
      {
        if j < k {
          EvolvesTransitive(ws[j], ws[k - 1], ws[k]);
        } else {
          EvolvesReflexive(ws[k]);
        }
      }
    }
  }

  /** Every state of a run is sound, and every earlier state evolved into it. */
  lemma RunSound(ws: seq<World>, ops: seq<Op>, j: nat, k: nat)
    requires IsRun(ws, ops) && j <= k < |ws|
    ensures Inv(ws[k]) && Evolves(ws[j], ws[k])
  {
    HistorySound(ws, ops, k);
  }

  lemma RunShape(ws: seq<World>, ops: seq<Op>)
    requires IsRun(ws, ops)
    ensures |ws| == |ops| + 1 && ws[0].victims == {} && ws[0].capped == {} && ws[0].dlq == []
  {
  }

  lemma StepOf(ws: seq<World>, ops: seq<Op>, i: nat)
    requires IsRun(ws, ops) && i < |ops|
    ensures |ws| == |ops| + 1 && Guard(ws, i, ops[i]) && ws[i + 1] == Apply(ws[i], ops[i])
  {
  }

  // ---- No event is lost -------------------------------------------------------------------

  /** The event can still reach the sink or the DLQ, or already has. */
  predicate Accounted(w: World, id: StreamId) {
    Unread(w, id) || (id in w.pending && InStream(w, id)) || Settled(w, id)
  }

  /** Off the pending list although neither the sink nor the DLQ has it: an audit event without payload. */
  predicate Dropped(w: World, id: StreamId) {
    id in w.body && Hollow(w.body[id]) && Delivered(w, id) && id !in w.pending
  }

  /** In every state of every run: an event is accounted for, unless it is unsettled and was taken from the
      stream unread or pending, or is an audit event without payload off the pending list; and then not. */
  lemma NoEventLost(ws: seq<World>, ops: seq<Op>, k: nat, id: StreamId)
    requires IsRun(ws, ops) && k < |ws| && id in ws[k].body
    ensures Accounted(ws[k], id) <==> Settled(ws[k], id) || !(Taken(ws[k], id) || Dropped(ws[k], id))
  {
    RunSound(ws, ops, k, k);
    hide IsRun, SinkIds, DlqIds, Hollow, Records;
  }

  /** Call `i` is an ACK that takes `id` off the pending list. */
  predicate Acks(ws: seq<World>, ops: seq<Op>, i: nat, id: StreamId) {
    i < |ops| && i < |ws| && ops[i].Ack? && id in ops[i].ids && id in ws[i].pending
  }

  /** An ID leaves the pending list only by an ACK, when its event was already settled or is one the sink
      skips, or because it had been taken from the stream. */
  lemma LeavesPendingOnlyWhenSettled(ws: seq<World>, ops: seq<Op>, i: nat, id: StreamId)
    requires IsRun(ws, ops) && i < |ops|
    requires id in ws[i].pending && id !in ws[i + 1].pending
    ensures (Acks(ws, ops, i, id) && Clear(ws[i], id)) || Taken(ws[i], id)
  {
    RunSound(ws, ops, i, i);
    assert Guard(ws, i, ops[i]);
  }

  /** A call that hands an entry out makes it pending. */
  lemma HandedOutIsPending(ws: seq<World>, ops: seq<Op>, i: nat, id: StreamId)
    requires IsRun(ws, ops) && i < |ops|
    requires id in ws[i + 1].body && Delivered(ws[i + 1], id) && id !in ws[i + 1].pending
    ensures (id in ws[i].body && Delivered(ws[i], id)) || Taken(ws[i], id)
  {
    RunSound(ws, ops, i, i);
    var w := ws[i];
    assert Guard(ws, i, ops[i]);
    match ops[i] {
      case Deliver(from, count) =>
        if count > 0 {
          DeliverEffect(w, from, count);
        }
      case Append(x, _) =>
        if w.lastDelivered in w.body {
          IdSetIsContents(w.log, w.lastDelivered);
        }
      case _ =>
    }
  }

  /** What was handed out and is not pending any more was ACKed, or taken from the stream. */
  lemma {:induction false} GoneByAck(ws: seq<World>, ops: seq<Op>, k: nat, id: StreamId)
    requires IsRun(ws, ops) && k < |ws| && id in ws[k].body && Delivered(ws[k], id) && id !in ws[k].pending
    ensures Taken(ws[k], id) || exists i :: 0 <= i < k && Acks(ws, ops, i, id)
  {
    if k > 0 {
      var i := k - 1;
      RunSound(ws, ops, i, k);
      RunSound(ws, ops, i, i);
      if id in ws[i].pending {
        LeavesPendingOnlyWhenSettled(ws, ops, i, id);
      } else {
        HandedOutIsPending(ws, ops, i, id);
        if !Taken(ws[i], id) {
          GoneByAck(ws, ops, i, id);
        }
      }
    }
  }

  lemma PendingIsDelivered(w: World, id: StreamId)
    requires Inv(w) && id in w.pending
    ensures id in w.body && Delivered(w, id)
  {
  }

  lemma GoneForGood(w: World, v: World, id: StreamId)
    requires Evolves(w, v) && Delivered(w, id) && id !in w.pending
    ensures Delivered(v, id) && id !in v.pending
  {
  }

  lemma AckedStaysGone(ws: seq<World>, ops: seq<Op>, i: nat, k: nat, id: StreamId)
    requires IsRun(ws, ops) && i < k < |ws| && Acks(ws, ops, i, id)
    ensures Delivered(ws[k], id) && id !in ws[k].pending
  {
    hide Inv, Evolves, IsRun, Guard;
    StepOf(ws, ops, i);
    RunSound(ws, ops, i, i);
    RunSound(ws, ops, i + 1, k);
    PendingIsDelivered(ws[i], id);
    GoneForGood(ws[i + 1], ws[k], id);
  }

  // ---- Trimming ---------------------------------------------------------------------------

  /** Call `i` is a trim that takes `id` out of the stream. */
  predicate Trims(ws: seq<World>, ops: seq<Op>, i: nat, id: StreamId) {
    i < |ops| && i + 1 < |ws| && ops[i].Cut? && InStream(ws[i], id) && !InStream(ws[i + 1], id)
  }

  /** A trim never removes an unread entry: what it removes was delivered even when it asked the group. */
  lemma TrimSparesUnread(ws: seq<World>, ops: seq<Op>, i: nat, id: StreamId)
    requires IsRun(ws, ops) && Trims(ws, ops, i, id)
    ensures ops[i].infoAt <= i && Delivered(ws[ops[i].infoAt], id) && Delivered(ws[i], id)
  {
    assert Guard(ws, i, ops[i]);
    RunSound(ws, ops, ops[i].infoAt, i);
  }

  /** What a trim takes out of the stream, exactly: the entries older than its bound, pending or not.  The
      bound is known before the XTRIM is sent. */
  lemma TrimTakesExactly(ws: seq<World>, ops: seq<Op>, i: nat, id: StreamId)
    requires IsRun(ws, ops) && i < |ops| && ops[i].Cut? && InStream(ws[i], id)
    ensures ops[i].infoAt <= ops[i].clockAt <= i
    ensures ops[i].minId == StreamId(Min(ws[ops[i].infoAt].lastDelivered.ms, ws[ops[i].clockAt].now - MAX_AGE_MS), 0)
    ensures Trims(ws, ops, i, id) <==> id.ms < ops[i].minId.ms
  {
    assert Guard(ws, i, ops[i]);
  }

  /** A pending entry that a trim takes was delivered after the trim's own XPENDING check, and delivery lag
      and trim duration together exceed the maximum age. */
  lemma TrimmedPendingWasLate(ws: seq<World>, ops: seq<Op>, i: nat, id: StreamId)
    requires IsRun(ws, ops) && Trims(ws, ops, i, id) && id in ws[i].pending
    ensures ops[i].checkAt <= ops[i].clockAt <= i
    ensures !Delivered(ws[ops[i].checkAt], id)
    ensures id.ms < ws[ops[i].clockAt].now - MAX_AGE_MS
    ensures ws[i].now - ws[ops[i].checkAt].now + ws[i].pending[id].first - id.ms > MAX_AGE_MS
  {
    assert Guard(ws, i, ops[i]);
    RunSound(ws, ops, ops[i].checkAt, i);
    RunSound(ws, ops, ops[i].clockAt, i);
  }

  /** One call makes exactly the pending entries it trims into victims. */
  lemma NewVictims(ws: seq<World>, ops: seq<Op>, i: nat, id: StreamId)
    requires IsRun(ws, ops) && i < |ops|
    ensures id in ws[i + 1].victims <==> id in ws[i].victims || (Trims(ws, ops, i, id) && id in ws[i].pending)
  {
    assert Guard(ws, i, ops[i]) && ws[i + 1] == Apply(ws[i], ops[i]);
    hide Guard, IsRun, IdSet, Overtaken;
  }

  /** The victims are exactly the pending entries some trim removed. */
  lemma {:induction false} VictimsAreTrimmedPending(ws: seq<World>, ops: seq<Op>, k: nat, id: StreamId)
    requires IsRun(ws, ops) && k < |ws|
    ensures id in ws[k].victims <==> exists i :: 0 <= i < k && Trims(ws, ops, i, id) && id in ws[i].pending
  {
    hide IsRun, Trims;
    RunShape(ws, ops);
    if k > 0 {
      VictimsAreTrimmedPending(ws, ops, k - 1, id);
      NewVictims(ws, ops, k - 1, id);
    }
  }

  // ---- The producers' cap -----------------------------------------------------------------

  /** Call `i` is a producer's cap that takes `id` out of the stream while it is unread or pending. */
  predicate Overtakes(ws: seq<World>, ops: seq<Op>, i: nat, id: StreamId) {
    && i < |ops| && i + 1 < |ws| && ops[i].Cap?
    && InStream(ws[i], id) && (Unread(ws[i], id) || id in ws[i].pending) && !InStream(ws[i + 1], id)
  }

  lemma NewCapped(ws: seq<World>, ops: seq<Op>, i: nat, id: StreamId)
    requires IsRun(ws, ops) && i < |ops|
    ensures id in ws[i + 1].capped <==> id in ws[i].capped || Overtakes(ws, ops, i, id)
  {
    assert Guard(ws, i, ops[i]) && ws[i + 1] == Apply(ws[i], ops[i]);
    hide Guard, IsRun, IdSet;
  }

  lemma {:induction false} CappedAreOvertaken(ws: seq<World>, ops: seq<Op>, k: nat, id: StreamId)
    requires IsRun(ws, ops) && k < |ws|
    ensures id in ws[k].capped <==> exists i :: 0 <= i < k && Overtakes(ws, ops, i, id)
  {
    hide IsRun, Trims, Overtakes;
    RunShape(ws, ops);
    if k > 0 {
      CappedAreOvertaken(ws, ops, k - 1, id);
      NewCapped(ws, ops, k - 1, id);
    }
  }

  /** Which unread and pending entries a cap drops, exactly: those older than the first one it keeps; and it
      keeps at least the newest 200000 of all, so it drops only what lags behind that many. */
  lemma CapTakesExactly(ws: seq<World>, ops: seq<Op>, i: nat, n: nat)
    requires IsRun(ws, ops) && i < |ops| && ops[i].Cap? && n < |ws[i].log|
    requires InStream(ws[i], ws[i].log[n]) && (Unread(ws[i], ws[i].log[n]) || ws[i].log[n] in ws[i].pending)
    ensures Overtakes(ws, ops, i, ws[i].log[n]) <==> n < ops[i].keepFrom
    ensures ops[i].keepFrom + STREAM_CAP <= |ws[i].log|
  {
    RunSound(ws, ops, i, i);
    assert Guard(ws, i, ops[i]);
    var w, j := ws[i], ops[i].keepFrom;
    assert n < j ==> Before(w.log[n], w.log[j]);
    assert j < n ==> Before(w.log[j], w.log[n]);
  }

  // ---- What is lost, exactly --------------------------------------------------------------

  /** The same, told by the calls of the run: lost, if and only if not settled and taken while pending by a
      trim, taken unread or pending by a producer's cap, or an audit event without payload that was ACKed. */
  lemma LostExactly(ws: seq<World>, ops: seq<Op>, k: nat, id: StreamId)
    requires IsRun(ws, ops) && k < |ws| && id in ws[k].body
    ensures !Accounted(ws[k], id) <==>
            !Settled(ws[k], id) &&
            ((exists i :: 0 <= i < k && Trims(ws, ops, i, id) && id in ws[i].pending) ||
             (exists i :: 0 <= i < k && Overtakes(ws, ops, i, id)) ||
             (Hollow(ws[k].body[id]) && exists i :: 0 <= i < k && Acks(ws, ops, i, id)))
  {
    hide Hollow, Accounted, Settled, Overtakes, Trims, Acks;
    NoEventLost(ws, ops, k, id);
    VictimsAreTrimmedPending(ws, ops, k, id);
    CappedAreOvertaken(ws, ops, k, id);
    if Delivered(ws[k], id) && id !in ws[k].pending {
      GoneByAck(ws, ops, k, id);
    }
    forall i | 0 <= i < k && Acks(ws, ops, i, id)
      ensures Delivered(ws[k], id) && id !in ws[k].pending
    {
      AckedStaysGone(ws, ops, i, k, id);
    }
  }

  // ---- Trims that take nothing pending ----------------------------------------------------

  /** At each of the first `k` calls that is a trim, every pending entry still in the stream is as young as
      the trim's bound, or younger. */
  ghost predicate TrimsSparePending(ws: seq<World>, ops: seq<Op>, k: nat)
    requires k <= |ops| < |ws|
  {
    forall i, id :: 0 <= i < k && ops[i].Cut? && id in ws[i].pending && InStream(ws[i], id) ==> id.ms >= ops[i].minId.ms
  }

  /** No trim ever took a pending entry, if and only if each of them kept its bound below what was pending. */
  lemma NoVictimsExactly(ws: seq<World>, ops: seq<Op>, k: nat)
    requires IsRun(ws, ops) && k < |ws|
    ensures ws[k].victims == {} <==> TrimsSparePending(ws, ops, k)
  {
    hide Guard, Apply;
    forall i, id | 0 <= i < k && ops[i].Cut? && id in ws[i].pending && InStream(ws[i], id)
      ensures id.ms < ops[i].minId.ms ==> id in ws[k].victims
    {
      TrimTakesExactly(ws, ops, i, id);
      VictimsAreTrimmedPending(ws, ops, k, id);
    }
    if TrimsSparePending(ws, ops, k) {
      forall id
        ensures id !in ws[k].victims
      {
        VictimsAreTrimmedPending(ws, ops, k, id);
        forall i | 0 <= i < k && id in ws[i].pending
          ensures !Trims(ws, ops, i, id)
        {
          if ops[i].Cut? && InStream(ws[i], id) {
            TrimTakesExactly(ws, ops, i, id);
          }
        }
      }
    }
  }

  /** Each trim asks, computes and cuts in one moment. */
  ghost predicate AtomicTrims(ws: seq<World>, ops: seq<Op>) {
    forall i :: 0 <= i < |ops| && ops[i].Cut? ==> ops[i].checkAt == i
  }

  /** No trim runs longer than the maximum age leaves over the delivery lag of what is pending. */
  ghost predicate TimelyTrims(ws: seq<World>, ops: seq<Op>)
    requires IsRun(ws, ops)
  {
    forall i, id :: 0 <= i < |ops| && ops[i].Cut? && id in ws[i].pending ==>
      Guard(ws, i, ops[i]) && ws[i].now - ws[ops[i].checkAt].now + ws[i].pending[id].first - id.ms <= MAX_AGE_MS
  }

  /** Two ways to keep the bound below what is pending: trims that are atomic, or timely. */
  lemma NoVictims(ws: seq<World>, ops: seq<Op>, k: nat)
    requires IsRun(ws, ops) && k < |ws|
    requires AtomicTrims(ws, ops) || TimelyTrims(ws, ops)
    ensures TrimsSparePending(ws, ops, k) && ws[k].victims == {}
  {
    forall i, id | 0 <= i < k && ops[i].Cut? && id in ws[i].pending && InStream(ws[i], id)
      ensures id.ms >= ops[i].minId.ms
    {
      assert Guard(ws, i, ops[i]);
      TrimTakesExactly(ws, ops, i, id);
      if Trims(ws, ops, i, id) {
        TrimmedPendingWasLate(ws, ops, i, id);
      }
    }
    NoVictimsExactly(ws, ops, k);
  }

  /** The design's promise, exactly.  With trims that keep their bounds below what is pending, an event is
      lost if and only if it is unsettled and a producer's cap overtook it, or it is an audit event without
      payload off the pending list.  In general all others are safe exactly when all entries that trims took
      while pending were settled by someone. */
  lemma NothingLostWithSafeTrims(ws: seq<World>, ops: seq<Op>, k: nat)
    requires IsRun(ws, ops) && k < |ws|
    ensures TrimsSparePending(ws, ops, k) ==> forall id :: id in ws[k].body ==>
              (!Accounted(ws[k], id) <==> !Settled(ws[k], id) && (id in ws[k].capped || Dropped(ws[k], id)))
    ensures (forall id :: id in ws[k].body && id !in ws[k].capped && !Dropped(ws[k], id) ==> Accounted(ws[k], id)) <==>
            (forall id :: id in ws[k].victims && id !in ws[k].capped && !Dropped(ws[k], id) ==> Settled(ws[k], id))
  {
    RunSound(ws, ops, k, k);
    NoVictimsExactly(ws, ops, k);
    hide IsRun, Dropped, Accounted, Settled, Records, TrimsSparePending;
    forall id | id in ws[k].body
      ensures Accounted(ws[k], id) <==> Settled(ws[k], id) || !(Taken(ws[k], id) || Dropped(ws[k], id))
    {
      NoEventLost(ws, ops, k, id);
    }
  }

  // ---- Replaying dead letters -------------------------------------------------------------

  /** The record's XRANGE succeeded, while the entry was in the stream. */
  predicate LookedUp(ws: seq<World>, r: DlqRecord) {
    r.read.Some? && r.read.value < |ws| && InStream(ws[r.read.value], r.id)
  }

  /** A record carries its event field exactly when its lookup succeeded while the entry was in the stream.  A
      lookup that succeeds finds every entry that is pending and was not taken; one that finds nothing comes
      after the event was settled, skipped by the sink or taken. */
  lemma ReplayableRecords(ws: seq<World>, ops: seq<Op>, i: nat)
    requires IsRun(ws, ops) && i < |ops| && ops[i].Bury?
    ensures ops[i].record.id in ws[i].body && (ops[i].record.read.Some? ==> ops[i].record.read.value <= i)
    ensures var r := ops[i].record; var text := RawText(ws[i].body[r.id]);
            && r.payload == (if LookedUp(ws, r) then text else "")
            && (text != "" ==> (r.payload == text <==> LookedUp(ws, r)))
    ensures var r := ops[i].record;
            r.read.Some? ==>
              var w := ws[r.read.value];
              && (r.id in w.pending && !Taken(w, r.id) ==> LookedUp(ws, r))
              && (!LookedUp(ws, r) ==> Clear(w, r.id) || Taken(w, r.id))
  {
    var r := ops[i].record;
    assert Guard(ws, i, ops[i]);
    if r.read.Some? {
      RunSound(ws, ops, r.read.value, i);
      RunSound(ws, ops, r.read.value, r.read.value);
    }
  }

  /** The dead-letter stream holds what the calls put there. */
  lemma {:induction false} RecordsAreBuries(ws: seq<World>, ops: seq<Op>, k: nat, n: nat)
    requires IsRun(ws, ops) && k < |ws| && n < |ws[k].dlq|
    ensures exists i :: 0 <= i < k && ops[i] == Bury(ws[k].dlq[n])
  {
    hide Guard, IsRun;
    RunShape(ws, ops);
    if k > 0 {
      StepOf(ws, ops, k - 1);
      if n < |ws[k - 1].dlq| {
        RecordsAreBuries(ws, ops, k - 1, n);
      }
    }
  }

  lemma BuriesAreRecords(ws: seq<World>, ops: seq<Op>, i: nat, k: nat)
    requires IsRun(ws, ops) && i < k < |ws| && ops[i].Bury?
    ensures var n := |ws[i].dlq|; n < |ws[k].dlq| && ws[k].dlq[n] == ops[i].record
  {
    hide Guard, IsRun, Inv;
    RunShape(ws, ops);
    StepOf(ws, ops, i);
    RunSound(ws, ops, i + 1, k);
  }

  /** The record carries the event field of the entry it names. */
  predicate HasText(w: World, r: DlqRecord) { r.id in w.body && r.payload == RawText(w.body[r.id]) }

  lemma BuryKeepsText(ws: seq<World>, ops: seq<Op>, i: nat, k: nat)
    requires IsRun(ws, ops) && i < k < |ws| && ops[i].Bury?
    ensures var r := ops[i].record;
            r.id in ws[k].body && (RawText(ws[k].body[r.id]) != "" ==> (HasText(ws[k], r) <==> LookedUp(ws, r)))
  {
    hide IsRun, Inv, LookedUp;
    RunShape(ws, ops);
    ReplayableRecords(ws, ops, i);
    RunSound(ws, ops, i, k);
  }

  /** The text of an event is in the dead-letter stream exactly when some record of it was written after a
      lookup that succeeded while the entry was in the stream. */
  lemma TextSavedExactly(ws: seq<World>, ops: seq<Op>, k: nat, id: StreamId)
    requires IsRun(ws, ops) && k < |ws| && id in ws[k].body && RawText(ws[k].body[id]) != ""
    ensures (exists n :: 0 <= n < |ws[k].dlq| && ws[k].dlq[n].id == id && HasText(ws[k], ws[k].dlq[n])) <==>
            (exists i :: 0 <= i < k && ops[i].Bury? && ops[i].record.id == id && LookedUp(ws, ops[i].record))
  {
    hide IsRun, HasText, LookedUp, RawText;
    RunShape(ws, ops);
    forall n | 0 <= n < |ws[k].dlq| && ws[k].dlq[n].id == id && HasText(ws[k], ws[k].dlq[n])
      ensures exists i :: 0 <= i < k && ops[i].Bury? && ops[i].record.id == id && LookedUp(ws, ops[i].record)
    {
      RecordsAreBuries(ws, ops, k, n);
      var i :| 0 <= i < k && ops[i] == Bury(ws[k].dlq[n]);
      BuryKeepsText(ws, ops, i, k);
    }
    forall i | 0 <= i < k && ops[i].Bury? && ops[i].record.id == id && LookedUp(ws, ops[i].record)
      ensures exists n :: 0 <= n < |ws[k].dlq| && ws[k].dlq[n].id == id && HasText(ws[k], ws[k].dlq[n])
    {
      BuriesAreRecords(ws, ops, i, k);
      BuryKeepsText(ws, ops, i, k);
      assert ws[k].dlq[|ws[i].dlq|].id == id;
    }
  }

  /** In every reachable state, with safe trims: a record without its event's text comes from a lookup that
      failed, or belongs to an event that is in the sink, has an earlier record, is one the sink skips, or was
      overtaken by a cap. */
  lemma LostPayloadsExplained(ws: seq<World>, ops: seq<Op>, k: nat, n: nat)
    requires IsRun(ws, ops) && k < |ws| && n < |ws[k].dlq| && !HasText(ws[k], ws[k].dlq[n])
    requires AtomicTrims(ws, ops) || TimelyTrims(ws, ops)
    ensures var w := ws[k];
            || w.dlq[n].read.None?
            || w.dlq[n].id in SinkIds(w.sink) || w.dlq[n].id in DlqIds(w.dlq[..n])
            || Ignorable(w, w.dlq[n].id) || w.dlq[n].id in w.capped
  {
    RunSound(ws, ops, k, k);
    NoVictims(ws, ops, k);
  }

  /** Nothing is dead-lettered that could be stored: every record names an entry that has exactly the recorded
      fault, or that was stuck for over six hours. */
  lemma DeadLettersDeserved(ws: seq<World>, ops: seq<Op>, k: nat, n: nat)
    requires IsRun(ws, ops) && k < |ws| && n < |ws[k].dlq|
    ensures var r := ws[k].dlq[n];
            && Deserved(ws[k], r.id, r.reason) && r.id in ws[k].body
            && if r.reason == StuckPending then ws[k].now - r.id.ms > STUCK_AFTER_MS
               else FaultOf(ws[k].body[r.id], r.reason) && !WellFormed(ws[k].body[r.id])
  {
    RunSound(ws, ops, k, k);
    FaultExactly(ws[k].body[ws[k].dlq[n].id], ws[k].dlq[n].reason);
  }

  /** Nothing malformed is stored, and nothing is stored as something else. */
  lemma SinkHoldsWhatWasSent(ws: seq<World>, ops: seq<Op>, k: nat, n: nat)
    requires IsRun(ws, ops) && k < |ws| && n < |ws[k].sink|
    ensures var r := ws[k].sink[n];
            && r.id in ws[k].body && WellFormed(ws[k].body[r.id]) && !Hollow(ws[k].body[r.id])
            && Parse(ws[k].body[r.id]) == Candidate(r.event)
            && ws[k].body[r.id] == Present(RawText(ws[k].body[r.id]), Some(r.event)) && r.event.kind != ""
            && !Incomplete(r.event) && (r.event.kind == "audit" ==> r.event.hasAudit)
  {
    RunSound(ws, ops, k, k);
  }

  // ---- Extending a run -------------------------------------------------------------------

  lemma GuardOfPrefix(ws: seq<World>, vs: seq<World>, i: nat, op: Op)
    requires ws <= vs && i < |ws|
    ensures Guard(ws, i, op) == Guard(vs, i, op)
  {
  }

  lemma ExtendRun(ws: seq<World>, ops: seq<Op>, op: Op)
    requires IsRun(ws, ops) && Guard(ws, |ops|, op)
    ensures IsRun(ws + [Apply(ws[|ops|], op)], ops + [op])
  {
    var vs := ws + [Apply(ws[|ops|], op)];
    forall i | 0 <= i < |ops| + 1
      ensures Guard(vs, i, (ops + [op])[i])
    {
      GuardOfPrefix(ws, vs, i, (ops + [op])[i]);
    }
  }

  // ---- Runs that show the conditions are needed -------------------------------------------

  const POISON := Present("{", None)
  const BARE_AUDIT := Present("{}", Some(Event("audit", "e", "t", None, false, false, false)))

  const EARLY := StreamId(1, 0)
  const LATE := StreamId(5, 0)

  /** One more call, in runs built call by call. */
  lemma Step(ws: seq<World>, ops: seq<Op>, op: Op) returns (vs: seq<World>, os: seq<Op>)
    requires IsRun(ws, ops) && Guard(ws, |ops|, op)
    ensures IsRun(vs, os) && ws <= vs && os == ops + [op] && vs[|os|] == Apply(ws[|ops|], op)
    ensures AtomicTrims(ws, ops) && (op.Cut? ==> op.checkAt == |ops|) ==> AtomicTrims(vs, os)
  {
    ExtendRun(ws, ops, op);
    vs, os := ws + [Apply(ws[|ops|], op)], ops + [op];
  }

  /** Two poison entries have been appended. */
  predicate TwoPoison(w: World) {
    && w.log == [EARLY, LATE] && w.body == map[EARLY := POISON, LATE := POISON]
    && w.victims == {} && w.capped == {} && w.sink == []
  }

  lemma TwoPoisonAppended() returns (ws: seq<World>, ops: seq<Op>)
    ensures IsRun(ws, ops) && |ops| == 3 && AtomicTrims(ws, ops)
    ensures var w := ws[3];
            && TwoPoison(w) && w.now == 5 && w.lastDelivered == ZERO && w.floor == ZERO
            && w.pending == map[] && w.dlq == []
  {
    ws, ops := [Start(1)], [];
    ws, ops := Step(ws, ops, Append(EARLY, POISON));
    ws, ops := Step(ws, ops, Tick(5));
    ws, ops := Step(ws, ops, Append(LATE, POISON));
  }

  /** A read hands both out. */
  lemma BothDelivered(ws: seq<World>, ops: seq<Op>) returns (vs: seq<World>, os: seq<Op>)
    requires IsRun(ws, ops) && AtomicTrims(ws, ops)
    requires var w := ws[|ops|]; TwoPoison(w) && w.lastDelivered == ZERO && w.floor == ZERO && w.pending == map[]
    ensures IsRun(vs, os) && ws <= vs && |os| == |ops| + 1 && AtomicTrims(vs, os)
    ensures var w := ws[|ops|];
            vs[|os|] == w.(lastDelivered := LATE, pending := HandedOut({EARLY, LATE}, w.now))
  {
    var page: seq<StreamId> := [EARLY, LATE];
    vs, os := Step(ws, ops, Deliver(0, 2));
    assert ws[|ops|].log[0..2] == page;
    assert IdSet(page) == {EARLY, LATE} by {
      assert page[..1] == [EARLY] && [EARLY][..0] == [];
      assert IdSet([EARLY]) == IdSet([]) + {EARLY};
    }
    assert ws[|ops|].pending + HandedOut({EARLY, LATE}, ws[|ops|].now) == HandedOut({EARLY, LATE}, ws[|ops|].now);
  }

  lemma ReclaimDrops(ws: seq<World>, ops: seq<Op>)
    requires |ws| == |ops| + 1 && EARLY in ws[|ops|].body && ws[|ops|].floor == LATE
    requires ws[|ops|].sink == [] && ws[|ops|].dlq == []
    ensures var v := Apply(ws[|ops|], Claim(ZERO, None, CLAIM_IDLE_MS));
            EARLY in v.body && EARLY !in v.pending && !Accounted(v, EARLY)
  {
  }

  /** A trim whose XPENDING check ran before a late delivery removes that entry; if the consumer then
      dies, the next reclaim drops it and the event is gone. */
  lemma LateTrimLosesAnEvent() returns (ws: seq<World>, ops: seq<Op>)
    ensures IsRun(ws, ops) && EARLY in ws[|ops|].body && EARLY !in ws[|ops|].pending && !Accounted(ws[|ops|], EARLY)
  {
    hide IsRun, AtomicTrims, IdSet;
    ws, ops := TwoPoisonAppended();
    ws, ops := Step(ws, ops, Tick(MAX_AGE_MS + 10));
    var checkAt := |ops|;
    ws, ops := BothDelivered(ws, ops);
    var trim := Cut(LATE, checkAt, |ops|, |ops|);
    ws, ops := Step(ws, ops, trim);
    ReclaimDrops(ws, ops);
    ws, ops := Step(ws, ops, Claim(ZERO, None, CLAIM_IDLE_MS));
  }

  /** An audit event without payload: validated, reported written, ACKed, and nowhere. */
  lemma BareAuditVanishes() returns (ws: seq<World>, ops: seq<Op>)
    ensures IsRun(ws, ops) && EARLY in ws[|ops|].body && !Accounted(ws[|ops|], EARLY)
    ensures AtomicTrims(ws, ops) && ws[|ops|].victims == {} && ws[|ops|].capped == {}
  {
    ws, ops := [Start(1)], [];
    ws, ops := Step(ws, ops, Append(EARLY, BARE_AUDIT));
    assert ws[1].log[0..1] == [EARLY] && [EARLY][..0] == [];
    ws, ops := Step(ws, ops, Deliver(0, 1));
    ws, ops := Step(ws, ops, Ack({EARLY}));
  }

  /** Both entries idle too long are reclaimed by a second replica, while the first still holds them. */
  lemma BothReclaimed() returns (ws: seq<World>, ops: seq<Op>)
    ensures IsRun(ws, ops) && |ops| == 6 && AtomicTrims(ws, ops)
    ensures var w := ws[6];
            && TwoPoison(w) && w.now == 5 + CLAIM_IDLE_MS && w.lastDelivered == LATE && w.floor == ZERO && w.dlq == []
            && w.pending.Keys == {EARLY, LATE} && forall id :: id in w.pending ==> w.pending[id].last == w.now
  {
    hide IsRun, AtomicTrims, IdSet;
    ws, ops := TwoPoisonAppended();
    ws, ops := BothDelivered(ws, ops);
    ws, ops := Step(ws, ops, Tick(5 + CLAIM_IDLE_MS));
    ws, ops := Step(ws, ops, Claim(ZERO, None, CLAIM_IDLE_MS));
  }

  lemma NoDeadLetters()
    ensures DlqIds([]) == {}
  {
  }

  /** A replica records a poison entry that is still in the stream. */
  lemma RecordPoison(ws: seq<World>, ops: seq<Op>, id: StreamId) returns (vs: seq<World>, os: seq<Op>)
    requires IsRun(ws, ops) && AtomicTrims(ws, ops)
    requires var w := ws[|ops|]; InStream(w, id) && Delivered(w, id) && w.body[id] == POISON
    ensures IsRun(vs, os) && |os| == |ops| + 1 && AtomicTrims(vs, os)
    ensures vs[|os|] == ws[|ops|].(dlq := ws[|ops|].dlq + [DlqRecord(id, InvalidJson, "{", Some(|ops|))])
  {
    vs, os := Step(ws, ops, Bury(DlqRecord(id, InvalidJson, "{", Some(|ops|))));
  }

  /** The first replica has recorded both, with their payloads. */
  lemma BothRecorded() returns (ws: seq<World>, ops: seq<Op>)
    ensures IsRun(ws, ops) && |ops| == 8 && AtomicTrims(ws, ops)
    ensures var w := ws[8];
            && TwoPoison(w) && w.now == 5 + CLAIM_IDLE_MS && w.lastDelivered == LATE && w.floor == ZERO
            && |w.dlq| == 2 && DlqIds(w.dlq) == {EARLY, LATE} && w.pending.Keys == {EARLY, LATE}
  {
    hide DlqIds, Guard, Apply, IsRun, AtomicTrims;
    NoDeadLetters();
    ws, ops := BothReclaimed();
    RunShape(ws, ops);
    var dlq := ws[6].dlq;
    ws, ops := RecordPoison(ws, ops, EARLY);
    DlqIdsAppend(dlq, ws[7].dlq[0]);
    dlq := ws[7].dlq;
    ws, ops := RecordPoison(ws, ops, LATE);
    DlqIdsAppend(dlq, ws[8].dlq[1]);
  }

  /** The first replica ACKs both; a day later an atomic trim removes the older one. */
  lemma BothAckedAndOneTrimmed() returns (ws: seq<World>, ops: seq<Op>)
    ensures IsRun(ws, ops) && |ops| == 11 && AtomicTrims(ws, ops)
    ensures var w := ws[11];
            && TwoPoison(w) && w.lastDelivered == LATE && w.floor == LATE && |w.dlq| == 2
  {
    hide DlqIds, SinkIds, IsRun, AtomicTrims;
    ws, ops := BothRecorded();
    ws, ops := Step(ws, ops, Ack({EARLY, LATE}));
    assert ws[9].pending == map[];
    ws, ops := Step(ws, ops, Tick(MAX_AGE_MS + CLAIM_IDLE_MS + 10));
    ws, ops := Step(ws, ops, Cut(LATE, 10, 10, 10));
  }

  /** The second replica, stalled for over a day between its reclaim and its XRANGE, now records the entry
      again: the lookup succeeds and finds nothing. */
  lemma SecondRecordLosesThePayload() returns (ws: seq<World>, ops: seq<Op>)
    ensures IsRun(ws, ops) && AtomicTrims(ws, ops)
    ensures |ws[|ops|].dlq| == 3 && Unreplayable(ws[|ops|], ws[|ops|].dlq[2])
  {
    hide DlqIds, SinkIds, IsRun, AtomicTrims;
    ws, ops := BothAckedAndOneTrimmed();
    ws, ops := Step(ws, ops, Bury(DlqRecord(EARLY, InvalidJson, "", Some(11))));
  }

  lemma BothInDlq(w: World)
    requires |w.dlq| == 2 && w.dlq[0].id == EARLY && w.dlq[1].id == LATE
    ensures forall id :: id in {EARLY, LATE} ==> Clear(w, id)
  {
    assert w.dlq == [w.dlq[0]] + [w.dlq[1]];
    DlqIdsAppend([w.dlq[0]], w.dlq[1]);
    DlqIdsAppend([], w.dlq[0]);
    assert [] + [w.dlq[0]] == [w.dlq[0]];
  }

  /** One XRANGE fails: the entry's only record is written without its text, and the entry is ACKed. */
  lemma OneRecordedBlind() returns (ws: seq<World>, ops: seq<Op>)
    ensures IsRun(ws, ops) && |ops| == 7 && AtomicTrims(ws, ops)
    ensures var w := ws[7];
            && TwoPoison(w) && w.now == 5 && w.lastDelivered == LATE && w.floor == ZERO && w.pending == map[]
            && w.dlq == [DlqRecord(EARLY, InvalidJson, "", None), DlqRecord(LATE, InvalidJson, "{", Some(5))]
  {
    hide IsRun, AtomicTrims;
    ws, ops := TwoPoisonAppended();
    ws, ops := BothDelivered(ws, ops);
    ws, ops := Step(ws, ops, Bury(DlqRecord(EARLY, InvalidJson, "", None)));
    ws, ops := RecordPoison(ws, ops, LATE);
    RunShape(ws, ops);
    BothInDlq(ws[6]);
    ws, ops := Step(ws, ops, Ack({EARLY, LATE}));
    assert ws[7].pending == map[];
  }

  /** A failed lookup loses the text for good, without any stall, late trim or cap: after the next trim, an
      atomic one, the event is in the dead-letter stream only, without its text. */
  lemma FailedLookupLosesTheText() returns (ws: seq<World>, ops: seq<Op>)
    ensures IsRun(ws, ops) && AtomicTrims(ws, ops)
    ensures var w := ws[|ops|];
            && w.victims == {} && w.capped == {} && w.sink == [] && EARLY in w.body && !InStream(w, EARLY)
            && forall n :: 0 <= n < |w.dlq| && w.dlq[n].id == EARLY ==> !HasText(w, w.dlq[n])
  {
    hide IsRun, AtomicTrims;
    ws, ops := OneRecordedBlind();
    ws, ops := Step(ws, ops, Tick(MAX_AGE_MS + 10));
    ws, ops := Step(ws, ops, Cut(LATE, 8, 8, 8));
  }
}
