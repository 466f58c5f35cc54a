/** The executor's own code: the select loop over mutable channels and flags, shown to take only steps of
    the state machine in `Executor`, whatever the other goroutines do in between. */
module RunWorkflow {
  import opened Executor

  /** How far the set-up before the loop gets. */
  datatype Startup = NoOrchestrator | SubscribeFails | StartFails | Ready

  /** What one arm of the loop leads to: the next select, the return, or a wait that will not end. */
  datatype Verdict = Continue | Done | Stalled

  /** A run of the machine from its start to `s`. */
  ghost predicate LeadsTo(trail: seq<State>, actions: seq<Action>, s: State) {
    IsRun(trail, actions) && trail[|actions|] == s
  }

  lemma ExtendRun(trail: seq<State>, actions: seq<Action>, s: State, a: Action)
    requires LeadsTo(trail, actions, s) && Enabled(s, a)
    ensures LeadsTo(trail + [Next(s, a)], actions + [a], Next(s, a))
  {
  }

  lemma {:induction false} ToldOfPrefix(trail: seq<State>, actions: seq<Action>, trail': seq<State>,
                                        actions': seq<Action>, k: nat)
    requires IsRun(trail, actions) && IsRun(trail', actions') && trail <= trail' && actions <= actions'
    requires k < |trail|
    ensures Told(trail', actions', k) == Told(trail, actions, k)
  {
    if k > 0 {
      ToldOfPrefix(trail, actions, trail', actions', k - 1);
    }
  }

  /** Where a run leads, its output obeys the grammar. */
  lemma LeadsToDisciplined(trail: seq<State>, actions: seq<Action>, s: State)
    requires LeadsTo(trail, actions, s)
    ensures Disciplined(s)
  {
    RunIsDisciplined(trail, actions, |actions|);
  }

  /** The consumer or the context makes the loop leave. */
  predicate Leaves(a: Action) {
    a in {YieldTask(false), TakeEvent(false), TakeResult(false), SeeDone}
  }

  lemma ToldOneMore(trail: seq<State>, actions: seq<Action>, s: State, a: Action)
    requires LeadsTo(trail, actions, s) && Enabled(s, a)
    ensures LeadsTo(trail + [Next(s, a)], actions + [a], Next(s, a))
    ensures var was := Told(trail, actions, |actions|);
            var now := Told(trail + [Next(s, a)], actions + [a], |actions| + 1);
            && now == Tell(was, s, a)
            && (now.left ==> was.left || Leaves(a)) && (now.refused ==> was.refused || a.Refuse?)
  {
    hide Next, Enabled;
    ExtendRun(trail, actions, s, a);
    ToldOfPrefix(trail, actions, trail + [Next(s, a)], actions + [a], |actions|);
  }

  class RunExecutor {
    const startup: Startup
    var inbox: seq<Event>
    var open: bool
    var evNil: bool
    var workflow: Workflow
    var cancelled: bool
    var gotTokens: bool
    var out: seq<Output>
    var budget: nat            // steps the other goroutines may still take
    ghost var control: Control
    ghost var consumed: seq<Event>
    ghost var trail: seq<State>
    ghost var actions: seq<Action>
    ghost var closed: bool     // the consumer has asked for no more
    ghost var ended: bool      // the caller's context was done

    ghost function Abs(): State
      reads this
    {
      State(inbox, open, evNil, workflow, cancelled, control, gotTokens, consumed, out)
    }

    /** The calls recorded lead to `s`; the loop left only for a reason, and refused only a failed set-up. */
    ghost predicate At(s: State)
      reads this`trail, this`actions, this`closed, this`ended
    {
      && LeadsTo(trail, actions, s)
      && (Told(trail, actions, |actions|).left ==> closed || ended)
      && (Told(trail, actions, |actions|).refused ==> startup != Ready)
    }

    /** Nothing is done after the consumer's last answer; before a terminal event only the caller cancels. */
    ghost predicate Heeds()
      reads this
    {
      && (closed ==> control.Returned?)
      && (cancelled && (control.Opening? || control.Setup? || control.Draining?) ==> ended)
    }

    ghost predicate Valid()
      reads this
    {
      At(Abs()) && Heeds()
    }

    constructor (startup: Startup, budget: nat)
      ensures Valid() && Abs() == START && this.startup == startup && this.budget == budget && !closed && !ended
    {
      this.startup := startup;
      inbox, open, evNil, workflow, cancelled, gotTokens, out := [], true, false, NotStarted, false, false, [];
      this.budget := budget;
      control, consumed, trail, actions := Opening, [], [START], [];
      closed, ended := false, false;
    }

    /** Records that the fields now hold what step `a` of the machine makes of state `before`. */
    ghost method Record(before: State, a: Action)
      requires At(before) && Enabled(before, a) && Abs() == Next(before, a) && Heeds()
      requires (Leaves(a) ==> closed || ended) && (a.Refuse? ==> startup != Ready)
      modifies this`trail, this`actions
      ensures Valid()
    {
      ToldOneMore(trail, actions, before, a);
      trail, actions := trail + [Abs()], actions + [a];
    }

    /** The caller's context is done. */
    ghost method End()
      modifies this`ended
      ensures ended && forall s :: old(At(s)) ==> At(s)
    {
      hide LeadsTo, Told;
      ended := true;
    }

    method OtherStep()
      requires Valid()
      modifies this`inbox, this`open, this`workflow, this`cancelled, this`ended, this`trail, this`actions
      ensures Valid() && (old(ended) ==> ended)
      ensures old(workflow) == NotStarted ==> workflow == NotStarted
    {
      hide At, Handle, Conclude, Streamed;
      ghost var before := Abs();
      var a: Action := *;
      match a {
        case Arrive(e) =>
          if !open { return; }
          inbox := inbox + [e];
        case CloseInbox =>
          if !open { return; }
          open := false;
        case CancelOutside =>
          cancelled := true;
          End();
        case Finish(r) =>
          if !workflow.Running? { return; }
          workflow := Finished(r);
        case Send =>
          if !workflow.Finished? { return; }
          workflow := Sent(workflow.result);
        case Drop =>
          if !workflow.Finished? || !cancelled { return; }
          workflow := Dropped;
        case _ =>
          return;
      }
      Record(before, a);
    }

    /** The event source, the result goroutine and the caller's context take some of their steps. */
    method Others()
      requires Valid()
      modifies this
      ensures Valid() && budget <= old(budget)
      ensures control == old(control) && evNil == old(evNil) && gotTokens == old(gotTokens)
      ensures consumed == old(consumed) && out == old(out) && closed == old(closed)
      ensures budget == old(budget) ==> inbox == old(inbox)
      ensures old(workflow) == NotStarted ==> workflow == NotStarted
    {
      hide At;
      while *
        invariant Valid() && budget <= old(budget)
        invariant control == old(control) && evNil == old(evNil) && gotTokens == old(gotTokens)
        invariant consumed == old(consumed) && out == old(out) && closed == old(closed)
        invariant budget == old(budget) ==> inbox == old(inbox)
        invariant old(workflow) == NotStarted ==> workflow == NotStarted
        decreases budget
      {
        if budget == 0 {
          break;
        }
        budget := budget - 1;
        OtherStep();
      }
    }

    /** Hands an output to the consumer, which may ask for no more, and is then never called again. */
    method Yield(o: Output) returns (more: bool)
      requires !closed
      modifies this`out, this`closed
      ensures out == old(out) + [o] && closed == !more
      ensures forall s :: old(At(s)) ==> At(s)
    {
      hide LeadsTo, Told;
      out := out + [o];
      more := *;
      closed := !more;
    }

    method YieldStatus(state: TaskState)
      requires Valid() && control == Finishing(state)
      modifies this`out, this`closed, this`cancelled, this`control, this`trail, this`actions
      ensures Valid() && control.Returned?
      ensures out == old(out) + [StatusUpdate(state)]
    {
      hide At;
      ghost var before := Abs();
      var _ := Yield(StatusUpdate(state));
      control, cancelled := Returned, true;
      Record(before, EmitStatus);
    }

    /** The loop has received `e` and not yet handled it; `before` is where it stood. */
    ghost predicate Holding(before: State, e: Event)
      reads this
    {
      && At(before) && Heeds()
      && before.control.Draining? && !before.evNil && before.inbox != [] && before.inbox[0] == e
      && Abs() == before.(inbox := before.inbox[1..], consumed := before.consumed + [e])
    }

    /** A token or file event: its artifact goes out, and nothing more if the consumer stops. */
    method Stream(ghost before: State, e: Event, o: Output) returns (verdict: Verdict)
      requires Holding(before, e)
      requires o == match e
                    case TokenEvent(content) => TokenArtifact(content)
                    case FileEvent(name, url) => FileArtifact(name, url)
                    case _ => o
      requires Streams(e)
      modifies this`gotTokens, this`out, this`closed, this`cancelled, this`control, this`trail, this`actions
      ensures Valid() && out == old(out) + [o]
      ensures verdict == if control.Returned? then Done else Continue
      ensures verdict.Continue? ==> control.Draining?
    {
      hide At;
      gotTokens := true;
      var more := Yield(o);
      verdict := if more then Continue else Done;
      if !more {
        control, cancelled := Returned, true;
      }
      Record(before, TakeEvent(more));
    }

    method HandleError(ghost before: State)
      requires Holding(before, ErrorEvent)
      modifies this`out, this`closed, this`cancelled, this`control, this`trail, this`actions
      ensures Valid() && control.Returned? && out == old(out) + [StatusUpdate(Failed)]
    {
      hide At;
      cancelled := true;
      control := Finishing(Failed);
      Record(before, TakeEvent(true));
      YieldStatus(Failed);
    }

    /** The run waits for something no one will bring within its remaining steps. */
    ghost predicate Blocked()
      reads this
    {
      !control.Returned? && !LoopCanStep(Abs()) && budget == 0
    }

    /** With the result `d` in hand: its final text goes out, unless it failed, is empty or would repeat
        streamed content. */
    method YieldFinalText(ghost before: State, d: Result) returns (more: bool)
      requires At(before) && !closed && before.workflow == Sent(d)
      requires before.control.Awaiting? || (before.control.Draining? && !d.err && !d.failed)
      requires Abs() == before.(workflow := Received, cancelled := true)
      modifies this`out, this`closed, this`control, this`trail, this`actions
      ensures Valid() && control == if more then Finishing(Completed) else Returned
      ensures out == old(out) + if d.err || d.finalText == "" || gotTokens then [] else [FinalText(d.finalText)]
      ensures !more ==> closed && !d.err && d.finalText != "" && !gotTokens
    {
      hide At;
      more := true;
      if !d.err && d.finalText != "" && !gotTokens {
        more := Yield(FinalText(d.finalText));
      }
      control := if more then Finishing(Completed) else Returned;
      Record(before, TakeResult(more));
    }

    /** After `done` with nothing streamed: the text of the result, if it came with one, and a completed status
        unless the consumer stopped at the text. */
    ghost predicate Answers(before: seq<Output>, returned: bool)
      reads this
    {
      if !returned then out == before else
      && workflow.Received?
      && (|| out == before + [StatusUpdate(Completed)]
          || (exists text :: text != "" && out == before + [FinalText(text), StatusUpdate(Completed)])
          || (closed && exists text :: text != "" && out == before + [FinalText(text)]))
    }

    /** After `done` with nothing streamed: the final text comes from the result channel. */
    method AwaitFinalText() returns (returned: bool)
      requires Valid() && control.Awaiting? && !gotTokens
      modifies this
      ensures Valid() && budget <= old(budget)
      ensures returned <==> control.Returned?
      ensures !returned ==> Blocked()
      ensures Answers(old(out), returned)
    {
      hide At;
      while !workflow.Sent?
        invariant Valid() && budget <= old(budget) && control.Awaiting? && !gotTokens && out == old(out)
        decreases budget
      {
        if budget == 0 {
          return false;
        }
        budget := budget - 1;
        Others();
      }
      ghost var before := Abs();
      var d := workflow.result;
      workflow, cancelled := Received, true;
      var more := YieldFinalText(before, d);
      if more {
        YieldStatus(Completed);
      }
      returned := true;
      assert old(out) + [] == old(out);
      assert more && out != old(out) + [StatusUpdate(Completed)] ==>
               out == old(out) + [FinalText(d.finalText), StatusUpdate(Completed)];
    }

    /** `done`: with nothing streamed the result's final text is waited for; then the run is completed. */
    method HandleDone(ghost before: State) returns (verdict: Verdict)
      requires Holding(before, DoneEvent)
      modifies this
      ensures Valid() && budget <= old(budget)
      ensures verdict == if control.Returned? then Done else Stalled
      ensures verdict.Stalled? ==> Blocked()
      ensures old(gotTokens) ==> verdict.Done? && out == old(out) + [StatusUpdate(Completed)]
      ensures !old(gotTokens) ==> Answers(old(out), verdict.Done?)
    {
      hide At;
      cancelled := true;
      control := if gotTokens then Finishing(Completed) else Awaiting;
      Record(before, TakeEvent(true));
      if !gotTokens {
        var returned := AwaitFinalText();
        verdict := if returned then Done else Stalled;
      } else {
        YieldStatus(Completed);
        verdict := Done;
      }
    }

    /** One event from the channel; handled by its type. */
    method HandleEvent() returns (verdict: Verdict)
      requires Valid() && control.Draining? && !evNil && inbox != []
      modifies this
      ensures Valid() && budget <= old(budget)
      ensures verdict.Done? <==> control.Returned?
      ensures verdict.Continue? ==> control.Draining? && evNil == old(evNil) && inbox == old(inbox)[1..]
      ensures verdict.Stalled? ==> Blocked()
    {
      hide At;
      ghost var before := Abs();
      var e := inbox[0];
      inbox := inbox[1..];
      consumed := consumed + [e];
      match e {
        case TokenEvent(content) =>
          verdict := Stream(before, e, TokenArtifact(content));
        case FileEvent(name, url) =>
          verdict := Stream(before, e, FileArtifact(name, url));
        case DoneEvent =>
          verdict := HandleDone(before);
        case ErrorEvent =>
          HandleError(before);
          verdict := Done;
        case OtherEvent =>
          Record(before, TakeEvent(true));
          verdict := Continue;
      }
    }

    /** The workflow's result arrived before any terminal event. */
    method HandleResult()
      requires Valid() && control.Draining? && workflow.Sent?
      modifies this
      ensures Valid() && budget == old(budget) && control.Returned?
      ensures var d := old(workflow).result;
              if d.err || d.failed then out == old(out) + [StatusUpdate(Failed)]
              else
                var text := if d.finalText == "" || old(gotTokens) then [] else [FinalText(d.finalText)];
                out == old(out) + text + [StatusUpdate(Completed)] || (closed && text != [] && out == old(out) + text)
    {
      hide At;
      ghost var before := Abs();
      var d := workflow.result;
      workflow, cancelled := Received, true;
      if d.err || d.failed {
        control := Finishing(Failed);
        Record(before, TakeResult(true));
        YieldStatus(Failed);
        return;
      }
      var more := YieldFinalText(before, d);
      if more {
        YieldStatus(Completed);
      }
    }

    /** The set-up failed: a failed status and no loop. */
    method Refuse()
      requires Valid() && control.Setup? && startup != Ready
      modifies this`out, this`closed, this`cancelled, this`control, this`trail, this`actions
      ensures Valid() && control.Returned? && out == old(out) + [StatusUpdate(Failed)]
    {
      hide At;
      ghost var before := Abs();
      control := Finishing(Failed);
      Record(before, Action.Refuse);
      YieldStatus(Failed);
    }

    /** The for/select loop; a select with several ready arms picks any of them. */
    method Drain() returns (returned: bool)
      requires Valid() && control.Draining?
      modifies this
      ensures Valid()
      ensures (returned <==> control.Returned?) && (!returned ==> Blocked())
    {
      hide At;
      while true
        invariant Valid() && control.Draining?
        decreases budget, |inbox| + if evNil then 0 else 1
      {
        Others();
        ghost var before := Abs();
        if
        case !evNil && inbox != [] =>
          var verdict := HandleEvent();
          if verdict != Continue {
            return verdict.Done?;
          }
        case !evNil && inbox == [] && !open =>
          evNil := true;
          Record(before, SeeClosed);
        case workflow.Sent? =>
          HandleResult();
          return true;
        case cancelled =>
          control := Returned;
          Record(before, SeeDone);
          return true;
        case (evNil || (inbox == [] && open)) && !workflow.Sent? && !cancelled =>
          if budget == 0 {
            return false;
          }
          budget := budget - 1;
      }
    }

    /** The task goes out first; nothing more when the consumer does not want it. */
    method Greet() returns (more: bool)
      requires Valid() && Abs() == START
      modifies this`out, this`closed, this`cancelled, this`control, this`trail, this`actions
      ensures Valid() && out == [InitialTask] && control == if more then Setup else Returned
    {
      hide At;
      ghost var before := Abs();
      more := Yield(InitialTask);
      control := Setup;
      if !more {
        control, cancelled := Returned, true;
      }
      Record(before, YieldTask(more));
    }

    /** Where it stands and what it yielded, from the calls recorded. */
    lemma Explain()
      requires Valid() && !control.Opening?
      ensures LeadsTo(trail, actions, Abs()) && out != [] && Opened(Abs()) <= out && Ending(Tail(Abs()))
      ensures HasFinalText(Tail(Abs())) ==> !Streamed(consumed)
      ensures var story := Told(trail, actions, |actions|);
              && Tale(story) <= out
              && (StatusUpdate(Completed) in out <==> control.Returned? && !story.left && WentWell(story))
              && (StatusUpdate(Failed) in out <==> control.Returned? && !story.left && WentBadly(story))
              && (out == Tale(story) <==> !control.Returned? || story.left)
              && (story.left ==> closed || ended) && (story.refused ==> startup != Ready)
    {
      hide Streamed, Artifacts, WentWell, WentBadly, Told;
      LeadsToDisciplined(trail, actions, Abs());
      OutputIsTheStory(trail, actions, |actions|);
    }

    /** Runs to its return, or to a state where it waits for something that never comes.  Either way every
        state it passed through obeys the output grammar, and what it yielded is decided by what it was told; it
        leaves without a status only when the consumer or the caller's context ended it. */
    method Execute() returns (returned: bool)
      requires Valid() && Abs() == START
      modifies this
      ensures Valid() && (returned <==> control.Returned?) && (!returned ==> Blocked())
      ensures out != [] && Opened(Abs()) <= out && Ending(Tail(Abs()))
      ensures HasFinalText(Tail(Abs())) ==> !Streamed(consumed)
      ensures startup != Ready ==> returned && (out == [InitialTask] || out == [InitialTask, StatusUpdate(Failed)])
      ensures LeadsTo(trail, actions, Abs())
      ensures var story := Told(trail, actions, |actions|);
              && Tale(story) <= out
              && (StatusUpdate(Completed) in out <==> returned && !story.left && WentWell(story))
              && (StatusUpdate(Failed) in out <==> returned && !story.left && WentBadly(story))
              && (out == Tale(story) <==> !returned || story.left)
              && (story.left ==> closed || ended) && (story.refused ==> startup != Ready)
    {
      hide At, Told, Streamed, LeadsTo, Tale, WentWell, WentBadly, Opened, Tail, Ending, HasFinalText, Handle, Conclude;
      var more := Greet();
      returned := true;
      if more {
        Others();
        if startup != Ready {
          Refuse();
        } else {
          ghost var before := Abs();
          control, workflow := Draining, Running;
          Record(before, Spawn);
          returned := Drain();
        }
      }
      Explain();
    }
  }
}
