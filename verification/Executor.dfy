/** The A2A run executor: a loop that drains the run's event channel while a second goroutine waits for the
    workflow's result, with cancellation.  The loop, the goroutine and the outside world take turns. */
module Executor {
  import opened Prelude

  datatype Event =
    | TokenEvent(content: string)
    | FileEvent(name: string, url: string)
    | DoneEvent
    | ErrorEvent
    | OtherEvent

  datatype Result = Result(err: bool, failed: bool, finalText: string)

  datatype TaskState = Completed | Failed

  datatype Output =
    | InitialTask
    | TokenArtifact(content: string)
    | FileArtifact(name: string, url: string)
    | FinalText(text: string)
    | StatusUpdate(state: TaskState)

  /** The goroutine around wfRun.Get: not spawned, blocked in Get, at its select, done with it either way;
      `Received` once the loop has taken what it sent. */
  datatype Workflow = NotStarted | Running | Finished(result: Result) | Sent(result: Result) | Received | Dropped

  /** Where the loop's goroutine is. */
  datatype Control = Opening | Setup | Draining | Awaiting | Finishing(state: TaskState) | Returned

  datatype State = State(
    inbox: seq<Event>,      // events in the channel
    open: bool,             // the channel is not closed
    evNil: bool,            // the loop saw it closed and dropped it
    workflow: Workflow,
    cancelled: bool,        // streamCtx is done
    control: Control,
    gotTokens: bool,
    consumed: seq<Event>,   // every event the loop took, in order
    out: seq<Output>)       // everything yielded, in order

  const START := State([], true, false, NotStarted, false, Opening, false, [], [])

  // ---- Steps ------------------------------------------------------------------------------

  /** `more` is what the consumer's yield returns. */
  datatype Action =
    | Arrive(event: Event) | CloseInbox | CancelOutside | Finish(result: Result)   // the outside world
    | Send | Drop                                                                  // the result goroutine
    | YieldTask(more: bool) | Refuse | Spawn                                       // the loop
    | TakeEvent(more: bool) | SeeClosed | TakeResult(more: bool) | SeeDone | EmitStatus

  predicate Enabled(s: State, a: Action) {
    match a
    case Arrive(_) => s.open
    case CloseInbox => s.open
    case CancelOutside => true
    case Finish(_) => s.workflow.Running?
    case Send => s.workflow.Finished?
    case Drop => s.workflow.Finished? && s.cancelled
    case YieldTask(_) => s.control.Opening?
    case Refuse => s.control.Setup?
    case Spawn => s.control.Setup?
    case TakeEvent(_) => s.control.Draining? && !s.evNil && s.inbox != []
    case SeeClosed => s.control.Draining? && !s.evNil && s.inbox == [] && !s.open
    case TakeResult(_) => (s.control.Draining? || s.control.Awaiting?) && s.workflow.Sent?
    case SeeDone => s.control.Draining? && s.cancelled
    case EmitStatus => s.control.Finishing?
  }

  function Return(s: State): State { s.(control := Returned, cancelled := true) }

  function Handle(s: State, e: Event, more: bool): State {
    var t := s.(consumed := s.consumed + [e]);
    match e
    case TokenEvent(content) =>
      var u := t.(gotTokens := true, out := t.out + [TokenArtifact(content)]);
      if more then u else Return(u)
    case FileEvent(name, url) =>
      var u := t.(gotTokens := true, out := t.out + [FileArtifact(name, url)]);
      if more then u else Return(u)
    case DoneEvent => t.(cancelled := true, control := if t.gotTokens then Finishing(Completed) else Awaiting)
    case ErrorEvent => t.(cancelled := true, control := Finishing(Failed))
    case OtherEvent => t
  }

  /** The end of a run whose result is in: FinalText only when nothing was streamed. */
  function Conclude(s: State, r: Result, more: bool): State {
    var t := s.(workflow := Received, cancelled := true);
    if s.control.Draining? && (r.err || r.failed) then t.(control := Finishing(Failed))
    else if !r.err && r.finalText != "" && !s.gotTokens then
      var u := t.(out := t.out + [FinalText(r.finalText)]);
      if more then u.(control := Finishing(Completed)) else Return(u)
    else t.(control := Finishing(Completed))
  }

  function Next(s: State, a: Action): State
    requires Enabled(s, a)
  {
    match a
    case Arrive(e) => s.(inbox := s.inbox + [e])
    case CloseInbox => s.(open := false)
    case CancelOutside => s.(cancelled := true)
    case Finish(r) => s.(workflow := Finished(r))
    case Send => s.(workflow := Sent(s.workflow.result))
    case Drop => s.(workflow := Dropped)
    case YieldTask(more) =>
      var t := s.(out := [InitialTask], control := Setup);
      if more then t else Return(t)
    case Refuse => s.(control := Finishing(Failed))
    case Spawn => s.(control := Draining, workflow := Running)
    case TakeEvent(more) => Handle(s.(inbox := s.inbox[1..]), s.inbox[0], more)
    case SeeClosed => s.(evNil := true)
    case TakeResult(more) => Conclude(s, s.workflow.result, more)
    case SeeDone => Return(s)
    case EmitStatus => Return(s.(out := s.out + [StatusUpdate(s.control.state)]))
  }

  ghost predicate IsRun(trail: seq<State>, actions: seq<Action>) {
    && |trail| == |actions| + 1 && trail[0] == START
    && forall i :: 0 <= i < |actions| ==> Enabled(trail[i], actions[i]) && trail[i + 1] == Next(trail[i], actions[i])
  }

  // ---- Output grammar ---------------------------------------------------------------------

  predicate Streams(e: Event) { e.TokenEvent? || e.FileEvent? }

  predicate Streamed(es: seq<Event>) {
    exists k | 0 <= k < |es| :: Streams(es[k])
  }

  function ArtifactOf(e: Event): seq<Output> {
    match e
    case TokenEvent(content) => [TokenArtifact(content)]
    case FileEvent(name, url) => [FileArtifact(name, url)]
    case _ => []
  }

  /** The artifacts of the consumed events: one per token or file event, in order. */
  function Artifacts(es: seq<Event>): (r: seq<Output>)
    ensures forall k :: 0 <= k < |r| ==> r[k].TokenArtifact? || r[k].FileArtifact?
  {
    if es == [] then [] else
      Artifacts(es[..|es| - 1]) + ArtifactOf(es[|es| - 1])
  }

  /** What may follow the streamed artifacts: the final text at most once, then at most one status. */
  predicate Ending(tail: seq<Output>) {
    || tail == []
    || (|tail| == 1 && (tail[0].FinalText? || tail[0].StatusUpdate?))
    || (|tail| == 2 && tail[0].FinalText? && tail[1].StatusUpdate?)
  }

  predicate HasStatus(tail: seq<Output>) { tail != [] && tail[|tail| - 1].StatusUpdate? }

  predicate HasFinalText(tail: seq<Output>) { tail != [] && tail[0].FinalText? }

  function Opened(s: State): seq<Output> { [InitialTask] + Artifacts(s.consumed) }

  function Tail(s: State): seq<Output>
    requires Opened(s) <= s.out
  {
    s.out[|Opened(s)|..]
  }

  /** The whole output discipline of a state. */
  predicate Disciplined(s: State) {
    && (s.gotTokens <==> Streamed(s.consumed))
    && if s.control.Opening? then s.out == [] && s.consumed == [] else
       && Opened(s) <= s.out && Ending(Tail(s))
       && (s.control.Setup? || s.control.Draining? || s.control.Awaiting? ==> Tail(s) == [])
       && (s.control.Finishing? ==> !HasStatus(Tail(s)))
       && (HasFinalText(Tail(s)) ==> !s.gotTokens)
       && (s.control.Awaiting? ==> !s.gotTokens && s.consumed != [] && s.consumed[|s.consumed| - 1].DoneEvent?)
  }

  lemma TailIs(s: State, tail: seq<Output>)
    ensures s.out == Opened(s) + tail <==> Opened(s) <= s.out && Tail(s) == tail
  {
    hide Artifacts;
    if Opened(s) <= s.out {
      assert s.out == Opened(s) + Tail(s);
    }
  }

  lemma ConsumedOne(es: seq<Event>, e: Event)
    ensures Streamed(es + [e]) <==> Streamed(es) || Streams(e)
    ensures Artifacts(es + [e]) == Artifacts(es) + ArtifactOf(e)
  {
    assert (es + [e])[..|es|] == es;
    if Streamed(es) {
      var k :| 0 <= k < |es| && Streams(es[k]);
      assert Streams((es + [e])[k]);
    }
    if Streams(e) {
      assert Streams((es + [e])[|es|]);
    }
  }

  lemma Handled(s: State, e: Event, more: bool)
    requires s.control.Draining?
    ensures var t := Handle(s, e, more);
            && t.consumed == s.consumed + [e] && t.out == s.out + ArtifactOf(e)
            && t.gotTokens == (s.gotTokens || Streams(e)) && !t.control.Opening?
            && (t.control.Awaiting? ==> !t.gotTokens && e.DoneEvent?)
  {
    assert s.out + [] == s.out;
  }

  lemma DrainingHasNoTail(s: State)
    requires Disciplined(s) && s.control.Draining?
    ensures s.out == Opened(s) && (s.gotTokens <==> Streamed(s.consumed))
  {
    hide Streamed, Artifacts, Opened;
    TailIs(s, []);
    assert Opened(s) + [] == Opened(s);
  }

  lemma NoTailIsDisciplined(t: State)
    requires !t.control.Opening? && t.out == Opened(t) && (t.gotTokens <==> Streamed(t.consumed))
    requires t.control.Awaiting? ==> !t.gotTokens && t.consumed != [] && t.consumed[|t.consumed| - 1].DoneEvent?
    ensures Disciplined(t)
  {
    hide Streamed, Artifacts, Opened;
    assert Opened(t) + [] == Opened(t);
    TailIs(t, []);
    hide Tail;
  }

  lemma HandleKeepsDiscipline(s: State, e: Event, more: bool)
    requires Disciplined(s) && s.control.Draining?
    ensures Disciplined(Handle(s, e, more))
  {
    hide Disciplined, Handle, Streamed, Artifacts, ArtifactOf;
    var t := Handle(s, e, more);
    DrainingHasNoTail(s);
    Handled(s, e, more);
    ConsumedOne(s.consumed, e);
    assert t.out == Opened(t);
    NoTailIsDisciplined(t);
  }

  lemma ConcludeKeepsDiscipline(s: State, r: Result, more: bool)
    requires Disciplined(s) && (s.control.Draining? || s.control.Awaiting?)
    ensures Disciplined(Conclude(s, r, more))
  {
    hide Streamed, Artifacts;
    assert s.out == Opened(s);
  }

  lemma OpeningKeepsDiscipline(s: State, more: bool)
    requires Disciplined(s) && s.control.Opening?
    ensures Disciplined(Next(s, YieldTask(more)))
  {
    assert Artifacts([]) == [];
  }

  lemma StatusKeepsDiscipline(s: State)
    requires Disciplined(s) && s.control.Finishing?
    ensures Disciplined(Return(s.(out := s.out + [StatusUpdate(s.control.state)])))
  {
    hide Streamed, Artifacts;
    var t, status := Return(s.(out := s.out + [StatusUpdate(s.control.state)])), [StatusUpdate(s.control.state)];
    TailIs(s, Tail(s));
    assert Opened(t) == Opened(s);
    hide Opened;
    assert t.out == Opened(t) + (Tail(s) + status);
    TailIs(t, Tail(s) + status);
    hide Tail;
  }

  lemma StepKeepsDiscipline(s: State, a: Action)
    requires Disciplined(s) && Enabled(s, a)
    ensures Disciplined(Next(s, a))
  {
    hide Streamed, Artifacts, Handle, Conclude;
    match a {
      case TakeEvent(more) => HandleKeepsDiscipline(s.(inbox := s.inbox[1..]), s.inbox[0], more);
      case YieldTask(more) => OpeningKeepsDiscipline(s, more);
      case TakeResult(more) => ConcludeKeepsDiscipline(s, s.workflow.result, more);
      case EmitStatus => StatusKeepsDiscipline(s);
      case _ =>
    }
  }

  lemma {:induction false} RunIsDisciplined(trail: seq<State>, actions: seq<Action>, k: nat)
    requires IsRun(trail, actions) && k < |trail|
    ensures Disciplined(trail[k])
  {
    if k > 0 {
      hide Next, Enabled, Disciplined;
      RunIsDisciplined(trail, actions, k - 1);
      assert Enabled(trail[k - 1], actions[k - 1]);
      StepKeepsDiscipline(trail[k - 1], actions[k - 1]);
    }
  }

  /** In every interleaving: the task first, then exactly the artifacts of the consumed token and file
      events in order, then at most one final text and at most one status; the final text never in a run
      that consumed a token or file event. */
  lemma OutputGrammar(trail: seq<State>, actions: seq<Action>, k: nat)
    requires IsRun(trail, actions) && k < |trail| && trail[k].out != []
    ensures Opened(trail[k]) <= trail[k].out && Ending(Tail(trail[k]))
    ensures HasFinalText(Tail(trail[k])) ==> !Streamed(trail[k].consumed)
  {
    RunIsDisciplined(trail, actions, k);
  }

  // ---- What a run was told, and what it said ----------------------------------------------

  /** What happened to the loop, told by the calls of the run alone: the events that arrived and those it took,
      whether the set-up was refused, the result it took, and whether it left because the consumer wanted no more
      or the context was done. */
  datatype Story = Story(arrived: seq<Event>, taken: seq<Event>, refused: bool, result: Option<Result>, left: bool)

  const UNTOLD := Story([], [], false, None, false)

  predicate SawDone(story: Story) { DoneEvent in story.taken }

  predicate SawError(story: Story) { ErrorEvent in story.taken }

  /** There is a text to show: it came with a result, nothing was streamed before, and the run did not fail. */
  predicate HasAnswer(story: Story) {
    && story.result.Some? && !story.result.value.err && story.result.value.finalText != ""
    && (story.result.value.failed ==> SawDone(story)) && !Streamed(story.taken)
  }

  /** `done` came, or a good result. */
  predicate WentWell(story: Story) {
    SawDone(story) || (story.result.Some? && !story.result.value.err && !story.result.value.failed)
  }

  /** Refused, `error`, or a bad result with no `done` before it. */
  predicate WentBadly(story: Story) {
    || story.refused || SawError(story)
    || (story.result.Some? && (story.result.value.err || story.result.value.failed) && !SawDone(story))
  }

  function Tell(story: Story, s: State, a: Action): Story
    requires Enabled(s, a)
  {
    match a
    case Arrive(e) => story.(arrived := story.arrived + [e])
    case YieldTask(more) => story.(left := !more)
    case Refuse => story.(refused := true)
    case TakeEvent(more) =>
      story.(taken := story.taken + [s.inbox[0]], left := Streams(s.inbox[0]) && !more)
    case TakeResult(more) =>
      var told := story.(result := Some(s.workflow.result));
      told.(left := HasAnswer(told) && !more)
    case SeeDone => story.(left := true)
    case _ => story
  }

  /** The story of the first `k` calls of a run. */
  ghost function Told(trail: seq<State>, actions: seq<Action>, k: nat): Story
    requires IsRun(trail, actions) && k < |trail|
  {
    if k == 0 then UNTOLD else Tell(Told(trail, actions, k - 1), trail[k - 1], actions[k - 1])
  }

  /** All a story yields before its status. */
  function Tale(story: Story): seq<Output> {
    [InitialTask] + Artifacts(story.taken) + if HasAnswer(story) then [FinalText(story.result.value.finalText)] else []
  }

  /** Nothing but events has come to the loop so far, and none that ends it. */
  predicate Unfinished(story: Story) {
    !story.refused && story.result.None? && !story.left && !SawError(story)
  }

  /** Where the loop is follows from what it was told. */
  predicate Placed(c: Control, story: Story) {
    match c
    case Opening => story.taken == [] && Unfinished(story)
    case Setup => story.taken == [] && Unfinished(story)
    case Draining => Unfinished(story) && !SawDone(story)
    case Awaiting => Unfinished(story) && SawDone(story) && !Streamed(story.taken)
    case Finishing(state) =>
      !story.left && (WentWell(story) <==> state == Completed) && (WentBadly(story) <==> state == Failed)
    case Returned => story.left || (WentWell(story) <==> !WentBadly(story))
  }

  /** So does what it has yielded. */
  function Said(c: Control, story: Story): seq<Output> {
    if c.Opening? then []
    else if c.Returned? && !story.left then
      Tale(story) + [StatusUpdate(if WentWell(story) then Completed else Failed)]
    else Tale(story)
  }

  predicate Explained(s: State, story: Story) {
    && s.consumed == story.taken && story.arrived == story.taken + s.inbox
    && (s.gotTokens <==> Streamed(story.taken)) && Placed(s.control, story) && s.out == Said(s.control, story)
  }

  lemma TakenOne(story: Story, e: Event, more: bool)
    requires Placed(Draining, story)
    ensures var now := story.(taken := story.taken + [e], left := Streams(e) && !more);
            && (Streamed(now.taken) <==> Streamed(story.taken) || Streams(e))
            && Tale(now) == Tale(story) + ArtifactOf(e) && now.result.None?
            && (SawDone(now) <==> e.DoneEvent?) && (SawError(now) <==> e.ErrorEvent?)
  {
    ConsumedOne(story.taken, e);
    hide Streamed, Artifacts, ArtifactOf;
    var now := story.(taken := story.taken + [e], left := Streams(e) && !more);
    assert Tale(story) == [InitialTask] + Artifacts(story.taken);
    assert Tale(now) == [InitialTask] + Artifacts(now.taken);
  }

  /** Where one more event leaves the loop. */
  lemma TakingPlaces(story: Story, e: Event, more: bool)
    requires Placed(Draining, story)
    ensures var now := story.(taken := story.taken + [e], left := Streams(e) && !more);
            && (Streams(e) ==> Placed(if more then Draining else Returned, now))
            && (e.OtherEvent? ==> Placed(Draining, now)) && (e.ErrorEvent? ==> Placed(Finishing(Failed), now))
            && (e.DoneEvent? ==> Placed(if Streamed(now.taken) then Finishing(Completed) else Awaiting, now))
  {
    TakenOne(story, e, more);
    hide Streamed, SawDone, SawError, Artifacts;
  }

  lemma HandledTo(s: State, e: Event, more: bool)
    requires s.control.Draining?
    ensures var t := Handle(s, e, more);
            && t.inbox == s.inbox
            && t.control == match e
                            case DoneEvent => if t.gotTokens then Finishing(Completed) else Awaiting
                            case ErrorEvent => Finishing(Failed)
                            case OtherEvent => Draining
                            case _ => if more then Draining else Returned
  {
  }

  lemma TakingExplains(s: State, story: Story, more: bool)
    requires Explained(s, story) && Enabled(s, TakeEvent(more))
    ensures Explained(Next(s, TakeEvent(more)), Tell(story, s, TakeEvent(more)))
  {
    var e, rest := s.inbox[0], s.(inbox := s.inbox[1..]);
    assert s.inbox == [e] + s.inbox[1..];
    TakenOne(story, e, more);
    TakingPlaces(story, e, more);
    Handled(rest, e, more);
    HandledTo(rest, e, more);
    assert Next(s, TakeEvent(more)) == Handle(rest, e, more);
    hide Tale, Streamed, SawDone, SawError, Artifacts, Placed, Handle, Next, WentWell, WentBadly;
  }

  lemma ResultExplains(s: State, story: Story, more: bool)
    requires Explained(s, story) && Enabled(s, TakeResult(more))
    ensures Explained(Next(s, TakeResult(more)), Tell(story, s, TakeResult(more)))
  {
    hide Streamed, Artifacts;
    var told := story.(result := Some(s.workflow.result));
    var now := Tell(story, s, TakeResult(more));
    var before := [InitialTask] + Artifacts(story.taken);
    assert Tale(story) == before + [] && before + [] == before;
    assert HasAnswer(now) <==> HasAnswer(told);
    assert Tale(now) == before + if HasAnswer(told) then [FinalText(s.workflow.result.finalText)] else [];
    assert (SawDone(now) <==> SawDone(story)) && (SawError(now) <==> SawError(story));
    hide Tale, SawDone, SawError;
  }

  lemma StatusExplains(s: State, story: Story)
    requires Explained(s, story) && Enabled(s, EmitStatus)
    ensures Explained(Next(s, EmitStatus), story)
  {
    hide Tale, WentWell, WentBadly;
  }

  lemma StepExplains(s: State, story: Story, a: Action)
    requires Explained(s, story) && Enabled(s, a)
    ensures Explained(Next(s, a), Tell(story, s, a))
  {
    match a {
      case TakeEvent(more) => TakingExplains(s, story, more);
      case TakeResult(more) => ResultExplains(s, story, more);
      case EmitStatus => StatusExplains(s, story);
      case _ => hide Streamed, SawDone, SawError;
    }
  }

  lemma {:induction false} RunIsExplained(trail: seq<State>, actions: seq<Action>, k: nat)
    requires IsRun(trail, actions) && k < |trail|
    ensures Explained(trail[k], Told(trail, actions, k))
  {
    if k > 0 {
      hide Next, Enabled, Tell, Explained;
      RunIsExplained(trail, actions, k - 1);
      assert Enabled(trail[k - 1], actions[k - 1]);
      StepExplains(trail[k - 1], Told(trail, actions, k - 1), actions[k - 1]);
    }
  }

  /** In every interleaving, the whole output is decided by what the loop was told: the task, one artifact for
      each token or file event taken, the result's text if there is one to show, and, unless the loop left early,
      a status when it returns, which is `Completed` or `Failed` as the run went.  The events taken are the
      first of those that arrived. */
  lemma OutputIsTheStory(trail: seq<State>, actions: seq<Action>, k: nat)
    requires IsRun(trail, actions) && k < |trail| && trail[k].out != []
    ensures var (out, story, over) := (trail[k].out, Told(trail, actions, k), trail[k].control.Returned?);
            && story.taken <= story.arrived && trail[k].consumed == story.taken
            && (StatusUpdate(Completed) in out <==> over && !story.left && WentWell(story))
            && (StatusUpdate(Failed) in out <==> over && !story.left && WentBadly(story))
            && Tale(story) <= out && (out[|Tale(story)|..] == [] <==> !over || story.left)
            && |out| <= |Tale(story)| + 1
  {
    RunIsExplained(trail, actions, k);
    assert forall o :: o in Artifacts(Told(trail, actions, k).taken) ==> !o.StatusUpdate?;
    hide Streamed, SawDone, SawError, Artifacts, Told;
  }

  lemma ReturnedIsFinal(s: State, a: Action)
    requires s.control.Returned? && Enabled(s, a)
    ensures Next(s, a).control.Returned? && Next(s, a).out == s.out
  {
  }

  /** Nothing is yielded after the terminal status. */
  lemma {:induction false} StatusIsLast(trail: seq<State>, actions: seq<Action>, j: nat, k: nat)
    requires IsRun(trail, actions) && j <= k < |trail|
    requires trail[j].out != [] && trail[j].out[|trail[j].out| - 1].StatusUpdate?
    ensures trail[k].out == trail[j].out && trail[k].control.Returned?
    decreases k
  {
    RunIsDisciplined(trail, actions, j);
    assert Opened(trail[j]) <= trail[j].out;
    if j < k {
      hide Next, Enabled;
      StatusIsLast(trail, actions, j, k - 1);
      assert Enabled(trail[k - 1], actions[k - 1]);
      ReturnedIsFinal(trail[k - 1], actions[k - 1]);
    }
  }

  // ---- Progress ---------------------------------------------------------------------------

  predicate Consistent(s: State) {
    && (s.workflow.NotStarted? ==> !s.control.Draining? && !s.control.Awaiting?)
    && (s.workflow.Received? ==> s.control.Finishing? || s.control.Returned?)
    && (s.workflow.Dropped? ==> s.cancelled)
    && (s.control.Opening? || s.control.Setup? ==> s.workflow.NotStarted?)
    && (s.control.Awaiting? ==> s.cancelled)
  }

  lemma StepKeepsConsistent(s: State, a: Action)
    requires Consistent(s) && Enabled(s, a)
    ensures Consistent(Next(s, a))
  {
  }

  lemma {:induction false} RunIsConsistent(trail: seq<State>, actions: seq<Action>, k: nat)
    requires IsRun(trail, actions) && k < |trail|
    ensures Consistent(trail[k])
  {
    if k > 0 {
      hide Next, Enabled, Consistent;
      RunIsConsistent(trail, actions, k - 1);
      assert Enabled(trail[k - 1], actions[k - 1]);
      StepKeepsConsistent(trail[k - 1], actions[k - 1]);
    }
  }

  predicate LoopCanStep(s: State) {
    || Enabled(s, YieldTask(true)) || Enabled(s, Spawn) || Enabled(s, TakeEvent(true)) || Enabled(s, SeeClosed)
    || Enabled(s, TakeResult(true)) || Enabled(s, SeeDone) || Enabled(s, EmitStatus)
  }

  predicate GoroutineCanStep(s: State) { Enabled(s, Send) || Enabled(s, Drop) }

  /** The loop handled `done` and blocks on a result the goroutine gave up sending. */
  predicate Stuck(s: State) { s.control.Awaiting? && s.workflow.Dropped? }

  /** The loop has returned, or it or the goroutine can step, or the result is still to come, or the run is
      stuck; and a stuck run is one that consumed `done` last and no token or file at all. */
  lemma Progress(trail: seq<State>, actions: seq<Action>, k: nat)
    requires IsRun(trail, actions) && k < |trail|
    ensures var s := trail[k];
            s.control.Returned? || LoopCanStep(s) || GoroutineCanStep(s) || s.workflow.Running? || Stuck(s)
    ensures Stuck(trail[k]) ==>
              && !Streamed(trail[k].consumed) && trail[k].consumed != []
              && trail[k].consumed[|trail[k].consumed| - 1] == DoneEvent
    ensures Stuck(trail[k]) ==> !LoopCanStep(trail[k]) && !GoroutineCanStep(trail[k])
  {
    RunIsConsistent(trail, actions, k);
    RunIsDisciplined(trail, actions, k);
  }

  lemma StuckStays(s: State, a: Action)
    requires Stuck(s) && Enabled(s, a)
    ensures Stuck(Next(s, a)) && Next(s, a).out == s.out
  {
  }

  /** Nothing the world does ever frees a stuck run. */
  lemma {:induction false} StuckForever(trail: seq<State>, actions: seq<Action>, j: nat, k: nat)
    requires IsRun(trail, actions) && j <= k < |trail| && Stuck(trail[j])
    ensures Stuck(trail[k]) && trail[k].out == trail[j].out
    decreases k
  {
    if j < k {
      hide Next, Enabled, Stuck;
      StuckForever(trail, actions, j, k - 1);
      assert Enabled(trail[k - 1], actions[k - 1]);
      StuckStays(trail[k - 1], actions[k - 1]);
    }
  }

  /** From `s` the steps `actions` lead through the states `trail`. */
  ghost predicate Continues(s: State, trail: seq<State>, actions: seq<Action>) {
    && |trail| == |actions| + 1 && trail[0] == s
    && forall i :: 0 <= i < |actions| ==> Enabled(trail[i], actions[i]) && trail[i + 1] == Next(trail[i], actions[i])
  }

  ghost predicate CanStrand(s: State) {
    exists trail, actions :: Continues(s, trail, actions) && Stuck(trail[|actions|])
  }

  /** With the result sent, the loop can only take it and go on to its end. */
  predicate Served(s: State) {
    || s.control.Finishing? || s.control.Returned?
    || (s.workflow.Sent? && (s.control.Draining? || s.control.Awaiting?))
  }

  lemma StepKeepsServed(s: State, a: Action)
    requires Served(s) && Enabled(s, a)
    ensures Served(Next(s, a))
  {
  }

  lemma {:induction false} ServedForGood(s: State, trail: seq<State>, actions: seq<Action>, k: nat)
    requires Continues(s, trail, actions) && Served(s) && k < |trail|
    ensures Served(trail[k])
  {
    hide Enabled, Next, Served;
    if k > 0 {
      ServedForGood(s, trail, actions, k - 1);
      StepKeepsServed(trail[k - 1], actions[k - 1]);
    }
  }

  /** After `done` with nothing streamed, a run can still get stuck exactly as long as the goroutine has not
      sent its result: whatever it has still to fetch or to send, it may drop. */
  lemma StrandsExactly(trail: seq<State>, actions: seq<Action>, k: nat)
    requires IsRun(trail, actions) && k < |trail| && trail[k].control.Awaiting?
    ensures CanStrand(trail[k]) <==> !trail[k].workflow.Sent?
    ensures trail[k].workflow.Sent? <==>
            !(trail[k].workflow.Running? || trail[k].workflow.Finished? || Stuck(trail[k]))
  {
    var s := trail[k];
    RunIsConsistent(trail, actions, k);
    if s.workflow.Sent? {
      forall vs, os | Continues(s, vs, os)
        ensures !Stuck(vs[|os|])
      {
        ServedForGood(s, vs, os, |os|);
      }
    } else if Stuck(s) {
      assert Continues(s, [s], []);
    } else if s.workflow.Finished? {
      assert Continues(s, [s, Next(s, Drop)], [Drop]);
    } else {
      var finish := Finish(Result(true, false, ""));
      var t := Next(s, finish);
      assert Continues(s, [s, t, Next(t, Drop)], [finish, Drop]);
    }
  }

  /** The executor can get stuck: `done` with nothing streamed cancels the context, and the goroutine,
      whose Get has just returned, takes its Done branch. */
  lemma DoneCanStrand() returns (trail: seq<State>, actions: seq<Action>)
    ensures IsRun(trail, actions) && Stuck(trail[|actions|])
  {
    var r := Result(false, false, "answer");
    actions := [YieldTask(true), Spawn, Arrive(DoneEvent), Finish(r), TakeEvent(true), Drop];
    var s1 := Next(START, actions[0]);
    var s2 := Next(s1, actions[1]);
    var s3 := Next(s2, actions[2]);
    var s4 := Next(s3, actions[3]);
    var s5 := Next(s4, actions[4]);
    trail := [START, s1, s2, s3, s4, s5, Next(s5, actions[5])];
  }
}
