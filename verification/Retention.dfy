/** The retention manager: trims the event stream up to what the group has consumed. */
module Retention {
  import opened Prelude
  import opened EventLog
  import opened StreamSafety
  import opened Calls

  datatype TrimOutcome = Trimmed(checkAt: nat, infoAt: nat, clockAt: nat) | Skipped | Failed

  /** What XINFO GROUPS says of the group. */
  datatype GroupState = GroupState(last: StreamId, consumers: nat)

  /** What the checks come to. */
  datatype Verdict = Unanswered | Refrain | GoAhead(maxId: StreamId)

  /** Something was pending, or no one consumes, or nothing was delivered yet. */
  predicate Forbids(pending: Option<bool>, group: Option<GroupState>) {
    && pending.Some?
    && (pending.value || (group.Some? && (group.value.consumers == 0 || group.value.last == ZERO)))
  }

  /** At some moment since `since` something was pending, or nothing was. */
  ghost predicate WasPending(ws: seq<World>, since: nat, pending: bool) {
    exists at :: since <= at < |ws| && (pending <==> ws[at].pending != map[])
  }

  ghost predicate WasLast(ws: seq<World>, since: nat, last: StreamId) {
    exists at :: since <= at < |ws| && ws[at].lastDelivered == last
  }

  /** Call `i` of the run is a trim that asked its three questions since moment `since`. */
  ghost predicate TrimmedAt(ws: seq<World>, ops: seq<Op>, i: nat, since: nat, outcome: TrimOutcome) {
    && outcome.Trimmed? && i < |ops| && i < |ws|
    && since <= outcome.checkAt <= outcome.infoAt <= outcome.clockAt <= i
    && ws[outcome.checkAt].pending == map[]
    && ws[outcome.infoAt].lastDelivered != ZERO
    && ops[i] == Cut(StreamId(Min(ws[outcome.infoAt].lastDelivered.ms, ws[outcome.clockAt].now - MAX_AGE_MS), 0),
                     outcome.checkAt, outcome.infoAt, outcome.clockAt)
  }

  /** What the last call, a trim, took had been delivered; and if it was pending, after the trim's check. */
  ghost predicate SparesUndelivered(ws: seq<World>, ops: seq<Op>, checkAt: nat) {
    && ops != [] && |ws| == |ops| + 1 && checkAt < |ws|
    && forall id :: Trims(ws, ops, |ops| - 1, id) ==>
         Delivered(ws[|ops|], id) && (id in ws[|ops| - 1].pending ==> !Delivered(ws[checkAt], id))
  }

  lemma TrimmedAtSince(ws: seq<World>, ops: seq<Op>, later: nat, since: nat, outcome: TrimOutcome)
    requires ops != [] && TrimmedAt(ws, ops, |ops| - 1, later, outcome) && since <= later
    ensures TrimmedAt(ws, ops, |ops| - 1, since, outcome)
    ensures ops[|ops| - 1].Cut? && ops[|ops| - 1].checkAt == outcome.checkAt && outcome.checkAt < |ws|
  {
  }

  lemma UndisturbedTwice(u: World, v: World, w: World)
    ensures Undisturbed(u, v) && Undisturbed(v, w) ==> Undisturbed(u, w)
  {
  }

  lemma WasAt(ws: seq<World>, since: nat, at: nat)
    requires since <= at < |ws|
    ensures WasPending(ws, since, ws[at].pending != map[]) && WasLast(ws, since, ws[at].lastDelivered)
  {
  }

  lemma WasStays(a: Run, b: Run, since: nat, pending: bool, last: StreamId)
    requires Onward(a, b)
    ensures WasPending(a.ws, since, pending) ==> WasPending(b.ws, since, pending)
    ensures WasLast(a.ws, since, last) ==> WasLast(b.ws, since, last)
  {
    OnwardKeepsMoments(a, b);
    hide Onward, Evolves;
  }

  lemma SoundRun(run: Run, knownKinds: bool)
    requires Sound(run, knownKinds)
    ensures IsRun(run.ws, run.ops) && |run.ws| == |run.ops| + 1 && run.w == run.ws[|run.ops|]
  {
  }

  lemma TrimIsSafe(ws: seq<World>, ops: seq<Op>, outcome: TrimOutcome)
    requires IsRun(ws, ops) && ops != [] && outcome.Trimmed? && outcome.checkAt < |ws|
    requires ops[|ops| - 1].Cut? && ops[|ops| - 1].checkAt == outcome.checkAt
    ensures SparesUndelivered(ws, ops, outcome.checkAt)
  {
    hide Inv, Evolves;
    forall id | Trims(ws, ops, |ops| - 1, id)
      ensures Delivered(ws[|ops|], id)
      ensures id in ws[|ops| - 1].pending ==> !Delivered(ws[outcome.checkAt], id)
    {
      TrimSparesUnread(ws, ops, |ops| - 1, id);
      assert ws[|ops|] == Apply(ws[|ops| - 1], ops[|ops| - 1]);
      if id in ws[|ops| - 1].pending {
        TrimmedPendingWasLate(ws, ops, |ops| - 1, id);
      }
    }
  }

  class RetentionManager {
    const broker: Broker

    constructor (broker: Broker)
      ensures this.broker == broker
    {
      this.broker := broker;
    }

    /** Cuts at the earlier of the last-delivered time and the age limit. */
    method TrimUpTo(maxId: StreamId, checkAt: nat, infoAt: nat) returns (outcome: TrimOutcome)
      requires broker.Valid() && checkAt <= infoAt <= |broker.run.ops|
      requires broker.run.ws[checkAt].pending == map[] && broker.run.ws[infoAt].lastDelivered == maxId != ZERO
      modifies broker
      ensures broker.Valid() && Onward(old(broker.run), broker.run)
      ensures Calm(broker.alone, old(broker.run), broker.run) ==> Undisturbed(old(broker.run.w), broker.run.w)
      ensures outcome.Trimmed? || (outcome.Failed? && !broker.redisUp)
      ensures outcome.Trimmed? ==>
                outcome.checkAt == checkAt && outcome.infoAt == infoAt && |old(broker.run.ops)| <= outcome.clockAt
      ensures outcome.Trimmed? ==>
                broker.run.ops != [] && TrimmedAt(broker.run.ws, broker.run.ops, |broker.run.ops| - 1, checkAt, outcome)
    {
      hide Inv, Evolves, Apply, Guard;
      var now, clockAt := broker.Clock();
      ghost var mid := broker.run.w;
      var trimMs := maxId.ms;
      if now - MAX_AGE_MS < trimMs {
        trimMs := now - MAX_AGE_MS;
      }
      var ok := broker.Trim(StreamId(trimMs, 0), checkAt, infoAt, clockAt);
      EvolvesTransitive(old(broker.run.w), mid, broker.run.w);
      outcome := if ok then Trimmed(checkAt, infoAt, clockAt) else Failed;
    }

    /** The two questions and the safety checks.  `pending` and `group` are what was answered, if anything was. */
    method Check()
      returns (verdict: Verdict, checkAt: nat, infoAt: nat,
               ghost pending: Option<bool>, ghost group: Option<GroupState>)
      requires broker.Valid()
      modifies broker
      ensures broker.Valid() && Onward(old(broker.run), broker.run)
      ensures Calm(broker.alone, old(broker.run), broker.run) ==> Undisturbed(old(broker.run.w), broker.run.w)
      ensures verdict.Refrain? <==> Forbids(pending, group)
      ensures verdict.Unanswered? ==> pending.None? || group.None?
      ensures broker.redisUp ==> !verdict.Unanswered?
      ensures pending.Some? ==> WasPending(broker.run.ws, |old(broker.run.ops)|, pending.value)
      ensures group.Some? ==> WasLast(broker.run.ws, |old(broker.run.ops)|, group.value.last)
      ensures broker.redisUp && broker.run.budget == old(broker.run.budget) ==>
                (verdict.Refrain? <==> old(broker.run.w.pending) != map[] || old(broker.consumers) == 0
                                       || old(broker.run.w.lastDelivered) == ZERO)
      ensures verdict.GoAhead? ==>
                && pending.Some? && group.Some? && |old(broker.run.ops)| <= checkAt <= infoAt <= |broker.run.ops|
                && broker.run.ws[checkAt].pending == map[]
                && broker.run.ws[infoAt].lastDelivered == verdict.maxId != ZERO
    {
      hide Inv, Evolves, Apply, Guard, Onward, Sound, IsRun, WasPending, WasLast, Undisturbed;
      ghost var first := broker.run;
      pending, group, infoAt := None, None, 0;
      SoundShape(first, broker.knownKinds);
      var ok, empty;
      ok, empty, checkAt := broker.PendingIsEmpty();
      if !ok {
        return Unanswered, checkAt, infoAt, pending, group;
      }
      pending := Some(!empty);
      ghost var checked := broker.run;
      SoundShape(checked, broker.knownKinds);
      OnwardKeepsMoments(first, checked);
      WasAt(checked.ws, |first.ops|, checkAt);
      if !empty {
        return Refrain, checkAt, infoAt, pending, group;
      }
      var found, last, consumers;
      found, last, consumers, infoAt := broker.GroupInfo();
      ghost var asked := broker.run;
      SoundShape(asked, broker.knownKinds);
      OnwardTransitive(broker.alone, first, checked, asked);
      OnwardKeepsMoments(checked, asked);
      WasStays(checked, asked, |first.ops|, !empty, last);
      UndisturbedTwice(first.w, checked.w, asked.w);
      if !found {
        return Unanswered, checkAt, infoAt, pending, group;
      }
      group := Some(GroupState(last, consumers));
      WasAt(asked.ws, |first.ops|, infoAt);
      verdict := if consumers == 0 || last == ZERO then Refrain else GoAhead(last);
    }

    /** Trims nothing while anything is pending, and never an entry that was not delivered.  `pending` and
        `group` are what the two questions were answered, if they were. */
    method TrimStream() returns (outcome: TrimOutcome, ghost pending: Option<bool>, ghost group: Option<GroupState>)
      requires broker.Valid()
      modifies broker
      ensures broker.Valid() && Onward(old(broker.run), broker.run)
      ensures Calm(broker.alone, old(broker.run), broker.run) ==> Undisturbed(old(broker.run.w), broker.run.w)
      // it skips exactly when told to
      ensures outcome.Skipped? <==> Forbids(pending, group)
      ensures outcome.Trimmed? ==> pending.Some? && group.Some?
      ensures broker.redisUp ==> !outcome.Failed?
      // and is told the truth
      ensures pending.Some? ==> WasPending(broker.run.ws, |old(broker.run.ops)|, pending.value)
      ensures group.Some? ==> WasLast(broker.run.ws, |old(broker.run.ops)|, group.value.last)
      ensures broker.redisUp && broker.run.budget == old(broker.run.budget) ==>
                (outcome.Skipped? <==> old(broker.run.w.pending) != map[] || old(broker.consumers) == 0
                                       || old(broker.run.w.lastDelivered) == ZERO)
      ensures outcome.Trimmed? ==>
                && broker.run.ops != []
                && TrimmedAt(broker.run.ws, broker.run.ops, |broker.run.ops| - 1, |old(broker.run.ops)|, outcome)
      ensures outcome.Trimmed? ==> SparesUndelivered(broker.run.ws, broker.run.ops, outcome.checkAt)
    {
      hide Inv, Evolves, Apply, Guard, Onward, Sound, TrimmedAt, IsRun, WasPending, WasLast;
      hide SparesUndelivered, Undisturbed, Forbids;
      ghost var first := broker.run;
      var verdict, checkAt, infoAt;
      verdict, checkAt, infoAt, pending, group := Check();
      match verdict {
        case Unanswered =>
          outcome := Failed;
        case Refrain =>
          outcome := Skipped;
        case GoAhead(maxId) =>
          ghost var asked := broker.run;
          outcome := TrimUpTo(maxId, checkAt, infoAt);
          OnwardTransitive(broker.alone, first, asked, broker.run);
          OnwardKeepsMoments(first, asked);
          OnwardKeepsMoments(asked, broker.run);
          WasStays(asked, broker.run, |first.ops|, pending.value, group.value.last);
          UndisturbedTwice(first.w, asked.w, broker.run.w);
          if outcome.Trimmed? {
            TrimmedAtSince(broker.run.ws, broker.run.ops, checkAt, |first.ops|, outcome);
            SoundRun(broker.run, broker.knownKinds);
            TrimIsSafe(broker.run.ws, broker.run.ops, outcome);
          }
      }
    }
  }
}
