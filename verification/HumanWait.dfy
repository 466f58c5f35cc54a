/** Human-in-the-loop tasks: keeping the stored handle in step with the workflow, and the subscription that
    polls the workflow and announces its waits. */
module HumanWait {
  import opened Prelude

  datatype HITLState = Unset | Submitted | Waiting | Signalled | Done

  datatype Handle = Handle(state: HITLState, waitToken: string, stepID: string)

  const ZERO_HANDLE := Handle(Unset, "", "")

  /** What the workflow answers to a status query; a query on a finished workflow fails. */
  datatype Query = QueryFails | Answers(state: HITLState, waitToken: string, stepID: string)

  /** What the subscriber sees.  The token says which wait a prompt is for; it is not sent. */
  datatype Event = InputRequired(token: string) | Artifact(text: string) | Completed | Failed

  // ---- Announcements ----------------------------------------------------------------------

  predicate Opens(q: Query) { q.Answers? && q.state == Waiting }

  /** The tokens of the waits that polls found open, in the order of the polls. */
  function Waits(polls: seq<Query>): seq<string> {
    if polls == [] then [] else
      var before, last := Waits(polls[..|polls| - 1]), polls[|polls| - 1];
      if Opens(last) then before + [last.waitToken] else before
  }

  /** The tokens that differ from the one before, `current` being the one before the first. */
  function Changes(current: string, tokens: seq<string>): seq<string>
    decreases |tokens|
  {
    if tokens == [] then []
    else if tokens[0] == current then Changes(current, tokens[1..])
    else [tokens[0]] + Changes(tokens[0], tokens[1..])
  }

  function Announcements(start: Handle, tokens: seq<string>): seq<string> {
    (if start.state == Waiting then [start.waitToken] else []) + Changes(start.waitToken, tokens)
  }

  predicate Distinct(s: seq<string>) { forall i, j :: 0 <= i < j < |s| ==> s[i] != s[j] }

  /** No token comes back after another one. */
  predicate NoReuse(s: seq<string>) {
    forall i, j, k :: 0 <= i < j < k < |s| && s[i] == s[k] ==> s[j] == s[i]
  }

  function DropLeading(t: string, s: seq<string>): seq<string> {
    if s != [] && s[0] == t then DropLeading(t, s[1..]) else s
  }

  lemma {:induction false} Leading(t: string, s: seq<string>, x: string)
    ensures x == t || (x in s <==> x in DropLeading(t, s))
  {
    if s != [] && s[0] == t {
      Leading(t, s[1..], x);
      assert s == [s[0]] + s[1..];
    }
  }

  lemma {:induction false} SameMembers(t: string, s: seq<string>, x: string)
    ensures x in Changes(t, s) <==> x in DropLeading(t, s)
    decreases |s|
  {
    if s != [] {
      SameMembers(t, s[1..], x);
      if s[0] != t {
        SameMembers(s[0], s[1..], x);
        Leading(s[0], s[1..], x);
        assert s == [s[0]] + s[1..];
      }
    }
  }

  lemma NoReuseOfSame(t: string, s: seq<string>)
    requires s != [] && s[0] == t
    ensures NoReuse([t] + s) <==> NoReuse(s)
  {
    var whole := [t] + s;
    if NoReuse(whole) {
      forall i, j, k | 0 <= i < j < k < |s| && s[i] == s[k]
        ensures s[j] == s[i]
      {
        assert whole[i + 1] == whole[k + 1] ==> whole[j + 1] == whole[i + 1];
      }
    }
    if NoReuse(s) {
      forall i, j, k | 0 <= i < j < k < |whole| && whole[i] == whole[k]
        ensures whole[j] == whole[i]
      {
        var i', j' := if i == 0 then 0 else i - 1, j - 1;
        assert s[i'] == s[k - 1] && (i' < j' ==> s[j'] == s[i']);
      }
    }
  }

  lemma NoReuseOfOther(t: string, s: seq<string>)
    requires s != [] && s[0] != t
    ensures NoReuse([t] + s) <==> NoReuse(s) && t !in s
  {
    var whole := [t] + s;
    if NoReuse(whole) {
      forall i, j, k | 0 <= i < j < k < |s| && s[i] == s[k]
        ensures s[j] == s[i]
      {
        assert whole[i + 1] == whole[k + 1] ==> whole[j + 1] == whole[i + 1];
      }
      forall k | 0 <= k < |s|
        ensures s[k] != t
      {
        assert whole[1] == s[0] != whole[0];
        assert k > 0 ==> whole[0] != whole[k + 1];
      }
    }
    if NoReuse(s) && t !in s {
      forall i, j, k | 0 <= i < j < k < |whole| && whole[i] == whole[k]
        ensures whole[j] == whole[i]
      {
        assert whole[k] in s;
        assert s[i - 1] == s[k - 1] ==> s[j - 1] == s[i - 1];
      }
    }
  }

  lemma {:induction false} NoReuseByHead(t: string, s: seq<string>)
    ensures NoReuse([t] + s) <==> NoReuse(DropLeading(t, s)) && t !in DropLeading(t, s)
  {
    if s == [] {
    } else if s[0] == t {
      NoReuseByHead(t, s[1..]);
      assert [t] + s[1..] == s;
      NoReuseOfSame(t, s);
    } else {
      NoReuseOfOther(t, s);
    }
  }

  lemma DistinctByHead(t: string, s: seq<string>)
    ensures Distinct([t] + s) <==> Distinct(s) && t !in s
  {
    var whole := [t] + s;
    if Distinct(whole) {
      forall i, j | 0 <= i < j < |s|
        ensures s[i] != s[j]
      {
        assert whole[i + 1] != whole[j + 1];
      }
      forall k | 0 <= k < |s|
        ensures s[k] != t
      {
        assert whole[0] != whole[k + 1];
      }
    }
  }

  lemma {:induction false} ChangesDistinct(t: string, s: seq<string>)
    ensures Distinct(Changes(t, s)) <==> NoReuse(DropLeading(t, s))
    decreases |s|
  {
    if s == [] {
    } else if s[0] == t {
      ChangesDistinct(t, s[1..]);
    } else {
      ChangesDistinct(s[0], s[1..]);
      SameMembers(s[0], s[1..], s[0]);
      NoReuseByHead(s[0], s[1..]);
      DistinctByHead(s[0], Changes(s[0], s[1..]));
      assert [s[0]] + s[1..] == s;
    }
  }

  /** Each wait is announced at most once exactly when no token comes back; a first token that was already
      in the handle and not announced may come back once. */
  lemma AnnouncedOnce(start: Handle, tokens: seq<string>)
    ensures Distinct(Announcements(start, tokens)) <==>
            NoReuse(if start.state == Waiting then [start.waitToken] + tokens else DropLeading(start.waitToken, tokens))
  {
    if start.state == Waiting {
      var other := start.waitToken + "!";
      ChangesDistinct(other, [start.waitToken] + tokens);
      assert ([start.waitToken] + tokens)[1..] == tokens;
    } else {
      ChangesDistinct(start.waitToken, tokens);
      assert [] + Changes(start.waitToken, tokens) == Changes(start.waitToken, tokens);
    }
  }

  /** The tokens are those of a workflow's successive waits, looked at in order: the `i`th shows wait `at[i]`. */
  predicate Shows(waits: seq<string>, at: seq<nat>, tokens: seq<string>) {
    && |at| == |tokens|
    && (forall i :: 0 <= i < |at| ==> at[i] < |waits| && tokens[i] == waits[at[i]])
    && forall i, j :: 0 <= i < j < |at| ==> at[i] <= at[j]
  }

  /** Polls of a workflow whose waits have tokens of their own never see one come back. */
  lemma FreshTokens(waits: seq<string>, at: seq<nat>, tokens: seq<string>)
    requires Distinct(waits) && Shows(waits, at, tokens)
    ensures NoReuse(tokens)
  {
    forall i, j, k | 0 <= i < j < k < |tokens| && tokens[i] == tokens[k]
      ensures tokens[j] == tokens[i]
    {
      assert at[i] <= at[j] <= at[k];
    }
  }

  /** A workflow that used a token again would have its wait announced again. */
  lemma ReusedTokenIsAnnouncedTwice()
    ensures Announcements(Handle(Submitted, "", ""), ["a", "b", "a"]) == ["a", "b", "a"]
  {
    assert ["a", "b", "a"][1..] == ["b", "a"] && ["b", "a"][1..] == ["a"];
    assert Changes("b", ["a"]) == ["a"];
    assert Changes("a", ["b", "a"]) == ["b", "a"];
  }

  /** Every wait a poll found open is announced, unless it was the handle's from the start. */
  lemma {:induction false} OpenWaitsAnnounced(current: string, tokens: seq<string>, i: nat)
    requires i < |tokens|
    ensures tokens[i] == current || tokens[i] in Changes(current, tokens)
    decreases |tokens|
  {
    if i > 0 {
      OpenWaitsAnnounced(tokens[0], tokens[1..], i - 1);
    }
  }

  function LastOf(current: string, tokens: seq<string>): string {
    if tokens == [] then current else tokens[|tokens| - 1]
  }

  /** The last announcement is always for the wait seen last. */
  lemma {:induction false} Current(current: string, tokens: seq<string>)
    ensures LastOf(current, Changes(current, tokens)) == LastOf(current, tokens)
    decreases |tokens|
  {
    if tokens != [] {
      Current(tokens[0], tokens[1..]);
    }
  }

  lemma {:induction false} ChangesAppend(current: string, tokens: seq<string>, t: string)
    ensures Changes(current, tokens + [t]) ==
            if t == LastOf(current, tokens) then Changes(current, tokens) else Changes(current, tokens) + [t]
    decreases |tokens|
  {
    if tokens != [] {
      ChangesAppend(tokens[0], tokens[1..], t);
      assert (tokens + [t])[1..] == tokens[1..] + [t];
    } else {
      assert (tokens + [t])[1..] == [];
    }
  }

  // ---- The store --------------------------------------------------------------------------

  datatype Lookup = NotFound | Unreadable | Found(handle: Handle)

  /** The handle of one task, in Redis, which may be out of reach at any call, and where other subscriptions,
      the signal endpoint and expiry may change it between any two calls, `budget` times at most. */
  class HITLStore {
    const reachable: bool                    // no Redis call fails
    var stored: Option<Handle>
    var budget: nat
    ghost var asked: seq<string>             // the tokens this process set out to store, in order
    ghost var confirmed: seq<string>         // those whose store was confirmed
    ghost var written: seq<Option<Handle>>   // what it wrote, None for a removal

    constructor (reachable: bool, stored: Option<Handle>, budget: nat)
      ensures this.reachable == reachable && this.stored == stored && this.budget == budget
      ensures asked == [] && confirmed == [] && written == []
    {
      this.reachable, this.stored, this.budget := reachable, stored, budget;
      asked, confirmed, written := [], [], [];
    }

    method Others()
      modifies this`stored, this`budget
      ensures budget <= old(budget) && (budget == old(budget) ==> stored == old(stored))
    {
      var write: bool := *;
      if write && budget > 0 {
        stored, budget := *, budget - 1;
      }
    }

    method Get() returns (r: Lookup)
      modifies this`stored, this`budget
      ensures budget <= old(budget) && (budget == old(budget) ==> stored == old(stored))
      ensures match r
              case Unreadable => !reachable
              case NotFound => stored.None?
              case Found(h) => stored == Some(h)
    {
      Others();
      var fails: bool := *;
      if fails && !reachable {
        return Unreadable;
      }
      return match stored case None => NotFound case Some(h) => Found(h);
    }

    /** A Get and a SetEX: what anyone else wrote between the two is overwritten, and a SetEX that fails may
        still have been applied. */
    method UpdateWaitToken(waitToken: string, stepID: string) returns (ok: bool)
      modifies this
      ensures budget <= old(budget)
      ensures asked == old(asked) + [waitToken]
      ensures confirmed == if ok then old(confirmed) + [waitToken] else old(confirmed)
      ensures ok ==> written != old(written)
      ensures written == old(written) ||
              (stored == Some(Handle(Waiting, waitToken, stepID)) && written == old(written) + [stored])
      ensures reachable && budget == old(budget) ==> (ok <==> old(stored).Some?) && (!ok ==> stored == old(stored))
    {
      asked := asked + [waitToken];
      var h := Get();
      if !h.Found? {
        return false;
      }
      Others();
      ok := *;
      var applied: bool := *;
      ok := ok || reachable;
      if ok {
        confirmed := confirmed + [waitToken];
      }
      if ok || applied {
        stored := Some(h.handle.(state := Waiting, waitToken := waitToken, stepID := stepID));
        written := written + [stored];
      }
    }

    method MarkDone()
      modifies this`stored, this`budget, this`written
      ensures budget <= old(budget)
      ensures written == old(written) || (written == old(written) + [None] && stored.None?)
      ensures reachable ==> written != old(written)
    {
      Others();
      var applied: bool := *;
      if applied || reachable {
        stored := None;
        written := written + [None];
      }
    }
  }

  // ---- The handler ------------------------------------------------------------------------

  /** How a subscription ended: handed to the inner handler, left by the consumer, cancelled, or finished
      with the workflow. */
  datatype Ending = Delegated | ConsumerLeft | ContextDone | Finished

  /** The result of the workflow, when there is an awaiter to ask. */
  datatype Final = NoAwaiter | ResultFails | Result(text: string)

  function FinalEvents(final: Final): seq<Event> {
    match final
    case NoAwaiter => []
    case ResultFails => [Failed]
    case Result(text) => [Artifact(text), Completed]
  }

  function Prompts(tokens: seq<string>): seq<Event> {
    seq(|tokens|, i requires 0 <= i < |tokens| => InputRequired(tokens[i]))
  }

  /** What a subscription that began with handle `start` and made `polls` has yielded when it ends. */
  predicate Yielded(out: seq<Event>, start: Handle, polls: seq<Query>, final: Final, ending: Ending) {
    var prompts := Prompts(Announcements(start, Waits(polls)));
    var over := polls != [] && polls[|polls| - 1].QueryFails?;
    && (forall i :: 0 <= i < |polls| - 1 ==> polls[i].Answers?)
    && match ending
       case Delegated => out == [] && polls == []
       case ContextDone => !over && out == prompts
       case ConsumerLeft =>
         if over then final.Result? && out == prompts + [Artifact(final.text)] else out == prompts && out != []
       case Finished => over && out == prompts + FinalEvents(final)
  }

  /** The store holds a handle with the wait seen last. */
  predicate Keeps(stored: Option<Handle>, start: Handle, polls: seq<Query>) {
    stored.Some? && stored.value.waitToken == LastOf(start.waitToken, Waits(polls))
  }

  /** How what was yielded ends, event by event: prompts, and once the workflow is over its result and a status. */
  predicate Concludes(out: seq<Event>, polls: seq<Query>, final: Final, ending: Ending) {
    var n := |out|;
    var over := polls != [] && polls[|polls| - 1].QueryFails?;
    && (forall i :: 0 <= i < n - 2 ==> out[i].InputRequired?)
    && (ending.Finished? ==> over)
    && if !over then forall i :: 0 <= i < n ==> out[i].InputRequired? else
       match final
       case NoAwaiter => ending.Finished? && forall i :: 0 <= i < n ==> out[i].InputRequired?
       case ResultFails =>
         ending.Finished? && n >= 1 && out[n - 1] == Failed && (n >= 2 ==> out[n - 2].InputRequired?)
       case Result(text) =>
         if ending.Finished? then n >= 2 && out[n - 2] == Artifact(text) && out[n - 1] == Completed
         else ending.ConsumerLeft? && n >= 1 && out[n - 1] == Artifact(text) && (n >= 2 ==> out[n - 2].InputRequired?)
  }

  predicate FoundOpen(polls: seq<Query>, token: string) {
    exists k | 0 <= k < |polls| :: polls[k].Answers? && polls[k].state == Waiting && polls[k].waitToken == token
  }

  /** Which waits were announced: the handle's, if it was waiting, and every one a poll found open unless it was
      the handle's; no other, and none twice in a row. */
  predicate Announces(out: seq<Event>, start: Handle, polls: seq<Query>) {
    && (start.state == Waiting ==> out != [] && out[0] == InputRequired(start.waitToken))
    && (forall k :: 0 <= k < |polls| && polls[k].Answers? && polls[k].state == Waiting ==>
          polls[k].waitToken == start.waitToken || InputRequired(polls[k].waitToken) in out)
    && (forall i :: 0 <= i < |out| && out[i].InputRequired? ==>
          || (i == 0 && start.state == Waiting && out[0].token == start.waitToken)
          || FoundOpen(polls, out[i].token))
    && (forall i :: 0 <= i < |out| - 1 && out[i].InputRequired? ==> out[i + 1] != out[i])
    && (start.state != Waiting && out != [] ==> out[0] != InputRequired(start.waitToken))
  }

  lemma YieldedConcludes(out: seq<Event>, start: Handle, polls: seq<Query>, final: Final, ending: Ending)
    requires Yielded(out, start, polls, final, ending)
    ensures Concludes(out, polls, final, ending)
  {
    hide Announcements, Waits;
  }

  lemma {:induction false} WaitsWereOpen(polls: seq<Query>, token: string)
    ensures token in Waits(polls) <==> FoundOpen(polls, token)
  {
    if polls != [] {
      var n := |polls| - 1;
      WaitsWereOpen(polls[..n], token);
      assert forall k :: 0 <= k < n ==> polls[..n][k] == polls[k];
    }
  }

  lemma {:induction false} ChangesDiffer(current: string, tokens: seq<string>)
    ensures var c := Changes(current, tokens);
            (c != [] ==> c[0] != current) && forall i :: 0 <= i < |c| - 1 ==> c[i + 1] != c[i]
    ensures forall t :: t in Changes(current, tokens) ==> t in tokens
    decreases |tokens|
  {
    if tokens != [] {
      if tokens[0] == current {
        ChangesDiffer(current, tokens[1..]);
      } else {
        ChangesDiffer(tokens[0], tokens[1..]);
      }
    }
  }

  lemma AllAnnounced(current: string, tokens: seq<string>)
    ensures forall t :: t in tokens ==> t == current || t in Changes(current, tokens)
  {
    forall t | t in tokens
      ensures t == current || t in Changes(current, tokens)
    {
      var i :| 0 <= i < |tokens| && tokens[i] == t;
      OpenWaitsAnnounced(current, tokens, i);
    }
  }

  lemma OpenNow(polls: seq<Query>, k: nat)
    requires k < |polls| && polls[k].Answers? && polls[k].state == Waiting
    ensures FoundOpen(polls, polls[k].waitToken)
  {
  }

  /** The announced tokens: the handle's, if it was waiting, then the others found open, none twice in a row. */
  lemma AnnouncedTokens(start: Handle, polls: seq<Query>)
    ensures var tokens := Announcements(start, Waits(polls));
            && (start.state == Waiting ==> tokens != [] && tokens[0] == start.waitToken)
            && (start.state != Waiting && tokens != [] ==> tokens[0] != start.waitToken)
            && (forall i :: 0 <= i < |tokens| - 1 ==> tokens[i + 1] != tokens[i])
            && (forall t :: FoundOpen(polls, t) ==> t == start.waitToken || t in tokens)
            && (forall i :: 0 <= i < |tokens| ==> (i == 0 && start.state == Waiting) || FoundOpen(polls, tokens[i]))
  {
    var seen := Waits(polls);
    var changes := Changes(start.waitToken, seen);
    ChangesDiffer(start.waitToken, seen);
    AllAnnounced(start.waitToken, seen);
    forall t
      ensures t in seen <==> FoundOpen(polls, t)
    {
      WaitsWereOpen(polls, t);
    }
    hide Waits, Changes, FoundOpen;
    var tokens := Announcements(start, seen);
    assert tokens == (if start.state == Waiting then [start.waitToken] + changes else changes);
    assert forall i :: 0 <= i < |changes| ==> changes[i] in changes;
  }

  lemma YieldedAnnounces(out: seq<Event>, start: Handle, polls: seq<Query>, final: Final, ending: Ending)
    requires Yielded(out, start, polls, final, ending) && !ending.Delegated?
    ensures Announces(out, start, polls)
  {
    var tokens := Announcements(start, Waits(polls));
    AnnouncedTokens(start, polls);
    assert Prompts(tokens) <= out && forall i :: |tokens| <= i < |out| ==> !out[i].InputRequired?;
    forall k | 0 <= k < |polls| && polls[k].Answers? && polls[k].state == Waiting
      ensures polls[k].waitToken == start.waitToken || InputRequired(polls[k].waitToken) in out
    {
      OpenNow(polls, k);
      if polls[k].waitToken in tokens {
        var i :| 0 <= i < |tokens| && tokens[i] == polls[k].waitToken;
        assert out[i] == InputRequired(polls[k].waitToken);
      }
    }
    hide Announcements, Waits, FoundOpen, Yielded, FinalEvents;
  }

  /** After these polls, none of which failed, what was announced, and the token announced or known last. */
  predicate Following(start: Handle, polls: seq<Query>, out: seq<Event>, token: string) {
    && (forall i :: 0 <= i < |polls| ==> polls[i].Answers?)
    && out == Prompts(Announcements(start, Waits(polls))) && token == LastOf(start.waitToken, Waits(polls))
  }

  lemma FollowedToken(start: Handle, polls: seq<Query>, out: seq<Event>, token: string)
    requires Following(start, polls, out, token)
    ensures token == LastOf(start.waitToken, Waits(polls))
  {
  }

  lemma FollowingStarts(start: Handle)
    ensures var out := if start.state == Waiting then [InputRequired(start.waitToken)] else [];
            Following(start, [], out, start.waitToken)
    ensures Changes(start.waitToken, Waits([])) == []
  {
  }

  /** One poll more adds a prompt exactly when it finds a wait other than the one seen last. */
  lemma FollowingNext(start: Handle, polls: seq<Query>, q: Query, out: seq<Event>, token: string)
    requires Following(start, polls, out, token) && q.Answers?
    ensures var news := Opens(q) && q.waitToken != token;
            && Following(start, polls + [q], if news then out + [InputRequired(q.waitToken)] else out,
                         if news then q.waitToken else token)
            && (news ==> Changes(start.waitToken, Waits(polls + [q])) ==
                         Changes(start.waitToken, Waits(polls)) + [q.waitToken])
            && (!news ==> Changes(start.waitToken, Waits(polls + [q])) == Changes(start.waitToken, Waits(polls)))
  {
    assert (polls + [q])[..|polls|] == polls;
    if Opens(q) {
      ChangesAppend(start.waitToken, Waits(polls), q.waitToken);
    }
  }

  lemma FollowingStops(start: Handle, polls: seq<Query>, out: seq<Event>, token: string, final: Final)
    requires Following(start, polls, out, token)
    ensures Yielded(out, start, polls, final, ContextDone)
    ensures out != [] ==> Yielded(out, start, polls, final, ConsumerLeft)
  {
  }

  lemma FollowingEnds(start: Handle, polls: seq<Query>, q: Query, out: seq<Event>, token: string, final: Final)
    requires Following(start, polls, out, token) && q.QueryFails?
    ensures Yielded(out + FinalEvents(final), start, polls + [q], final, Finished)
    ensures final.Result? ==> Yielded(out + [Artifact(final.text)], start, polls + [q], final, ConsumerLeft)
    ensures Waits(polls + [q]) == Waits(polls)
  {
    assert (polls + [q])[..|polls|] == polls;
  }

  /** The token a sync sets out to store: the workflow's, when it waits and the handle has another. */
  function SyncAsks(read: Lookup, hasQuerier: bool, query: Query): seq<string> {
    if read.Found? && hasQuerier && Opens(query) && read.handle.waitToken != query.waitToken
    then [query.waitToken] else []
  }

  class HITLRequestHandler {
    const hasQuerier: bool
    const store: HITLStore
    ghost var closed: bool     // the consumer has asked for no more
    ghost var ended: bool      // the request's context was done

    constructor (hasQuerier: bool, store: HITLStore)
      ensures this.hasQuerier == hasQuerier && this.store == store && !closed && !ended
    {
      this.hasQuerier, this.store := hasQuerier, store;
      closed, ended := false, false;
    }

    /** Brings the stored handle up to the workflow's current wait.  `read` is what the store had to say: no
        handle and no HITL task, or an unreadable one and the zero handle; a failed query drops the handle;
        a new wait is stored and taken over, or, when the update fails, not taken over. */
    method SyncHITLState(query: Query) returns (handle: Handle, ok: bool, ghost read: Lookup)
      modifies store
      ensures store.budget <= old(store.budget)
      ensures store.reachable ==> !read.Unreadable?
      // undisturbed, and with Redis up, the handle and the store are brought up to the workflow's wait
      ensures store.reachable && store.budget == old(store.budget) ==>
                match old(store.stored)
                case None => read.NotFound? && store.stored.None?
                case Some(h) =>
                  && read == Found(h)
                  && (!hasQuerier ==> store.stored == Some(h))
                  && (hasQuerier && query.QueryFails? ==> store.stored.None?)
                  && (hasQuerier && query.Answers? ==>
                        && ok && store.stored == Some(handle)
                        && (query.state == Waiting ==> handle.waitToken == query.waitToken))
      ensures store.asked == old(store.asked) + SyncAsks(read, hasQuerier, query)
      ensures match read
              case NotFound => !ok && handle == ZERO_HANDLE && store.written == old(store.written)
              case Unreadable => ok && handle == ZERO_HANDLE && store.written == old(store.written)
              case Found(h) =>
                if hasQuerier && query.QueryFails?
                then !ok && handle == ZERO_HANDLE && store.written in {old(store.written), old(store.written) + [None]}
                else if SyncAsks(read, hasQuerier, query) == []
                then ok && handle == h && store.written == old(store.written)
                else var taken := Handle(Waiting, query.waitToken, query.stepID);
                  && ok && handle == (if store.confirmed == old(store.confirmed) then h else taken)
                  && (store.written == old(store.written) ==> store.confirmed == old(store.confirmed))
                  && (store.written == old(store.written) ||
                      (store.written == old(store.written) + [Some(taken)] && store.stored == Some(taken)))
    {
      var found := store.Get();
      read := found;
      if found.NotFound? {
        return ZERO_HANDLE, false, read;
      }
      if found.Unreadable? || !hasQuerier {
        return if found.Found? then found.handle else ZERO_HANDLE, true, read;
      }
      handle := found.handle;
      if query.QueryFails? {
        store.MarkDone();
        return ZERO_HANDLE, false, read;
      }
      if query.state == Waiting && handle.waitToken != query.waitToken {
        var updated := store.UpdateWaitToken(query.waitToken, query.stepID);
        if updated {
          handle := handle.(state := Waiting, waitToken := query.waitToken, stepID := query.stepID);
        }
      }
      ok := true;
    }

    /** Hands an event to the consumer, which may ask for no more, and is then never called again. */
    method Yield(out: seq<Event>, e: Event) returns (more: bool, after: seq<Event>)
      requires !closed
      modifies this`closed
      ensures after == out + [e] && closed == !more
    {
      after := out + [e];
      more := *;
      closed := !more;
    }

    /** Is the request's context done? */
    method IsDone() returns (done: bool)
      modifies this`ended
      ensures ended == (old(ended) || done)
    {
      done := *;
      ended := ended || done;
    }

    /** The workflow is over: its result goes out, if there is one to ask for; the handle is dropped, unless
        the consumer leaves before the status. */
    method Finish(before: seq<Event>, final: Final) returns (out: seq<Event>, ending: Ending)
      requires !closed
      modifies this`closed, store`stored, store`budget, store`written
      ensures store.budget <= old(store.budget)
      ensures ending == ConsumerLeft ==> closed && store.stored == old(store.stored)
      ensures ending == Finished && store.reachable ==>
                store.written == old(store.written) + [None] && store.stored.None?
      ensures ending == Finished || (ending == ConsumerLeft && final.Result? && store.written == old(store.written))
      ensures out == before + if ending == Finished then FinalEvents(final) else [Artifact(final.text)]
      ensures out == before + match final
                              case NoAwaiter => []
                              case ResultFails => [Failed]
                              case Result(text) => [Artifact(text)] + if ending == Finished then [Completed] else []
    {
      out := before;
      var more;
      match final {
        case NoAwaiter =>
        case ResultFails =>
          more, out := Yield(out, Failed);
        case Result(text) =>
          more, out := Yield(out, Artifact(text));
          if !more {
            return out, ConsumerLeft;
          }
          more, out := Yield(out, Completed);
      }
      store.MarkDone();
      ending := Finished;
    }

    /** The subscription itself: announces what is already waiting, then polls. */
    method Watch(start: Handle, polls: seq<Query>, final: Final) returns (out: seq<Event>, polled: nat, ending: Ending)
      requires !closed && !ended
      modifies this, store
      ensures polled <= |polls| && !ending.Delegated? && Yielded(out, start, polls[..polled], final, ending)
      ensures store.budget <= old(store.budget)
      ensures (ending.ConsumerLeft? ==> closed) && (ending.ContextDone? ==> ended || polled == |polls|)
      ensures store.reachable && store.budget == old(store.budget) && old(store.stored) == Some(start) ==>
                if ending.Finished? then store.stored.None?
                else Keeps(store.stored, start, polls[..polled])
      ensures store.asked == old(store.asked) + Changes(start.waitToken, Waits(polls[..polled]))
    {
      hide Following, Yielded, Waits, Changes, FinalEvents, LastOf;
      ghost var asked, stored, budget := store.asked, store.stored, store.budget;
      out, polled := [], 0;
      var handle, more := start, true;
      if handle.state == Waiting {
        more, out := Yield(out, InputRequired(handle.waitToken));
      }
      FollowingStarts(start);
      assert out == if start.state == Waiting then [InputRequired(start.waitToken)] else [];
      assert polls[..0] == [] && asked + [] == asked;
      FollowedToken(start, [], out, handle.waitToken);
      if !more {
        FollowingStops(start, [], out, handle.waitToken, final);
        return out, polled, ConsumerLeft;
      }
      while polled < |polls|
        invariant polled <= |polls| && Following(start, polls[..polled], out, handle.waitToken)
        invariant store.asked == asked + Changes(start.waitToken, Waits(polls[..polled]))
        invariant !closed && store.budget <= budget
        invariant handle.waitToken == LastOf(start.waitToken, Waits(polls[..polled]))
        invariant store.reachable && store.budget == budget && stored == Some(start) ==> store.stored == Some(handle)
      {
        ghost var before := polls[..polled];
        var cancelled := IsDone();
        if cancelled {
          FollowingStops(start, before, out, handle.waitToken, final);
          return out, polled, ContextDone;
        }
        var status := polls[polled];
        polled := polled + 1;
        assert polls[..polled] == before + [status];
        if status.QueryFails? {
          FollowingEnds(start, before, status, out, handle.waitToken, final);
          out, ending := Finish(out, final);
          return;
        }
        FollowingNext(start, before, status, out, handle.waitToken);
        ghost var news := Opens(status) && status.waitToken != handle.waitToken;
        FollowedToken(start, polls[..polled], if news then out + [InputRequired(status.waitToken)] else out,
                      if news then status.waitToken else handle.waitToken);
        if status.state == Waiting && status.waitToken != handle.waitToken {
          var _ := store.UpdateWaitToken(status.waitToken, status.stepID);
          handle := handle.(state := Waiting, waitToken := status.waitToken, stepID := status.stepID);
          more, out := Yield(out, InputRequired(status.waitToken));
          if !more {
            FollowingStops(start, polls[..polled], out, handle.waitToken, final);
            return out, polled, ConsumerLeft;
          }
        }
      }
      FollowingStops(start, polls[..polled], out, handle.waitToken, final);
      ending := ContextDone;
    }

    /** Polls until the consumer or the context ends it or the workflow is over.  `polls` holds what the
        workflow would answer at each tick; the first `polled` are asked for.  Every announced wait is also
        stored, or at least the attempt is made. */
    method SubscribeToTask(first: Query, polls: seq<Query>, final: Final)
      returns (out: seq<Event>, start: Handle, polled: nat, ending: Ending, ghost read: Lookup)
      modifies this, store
      ensures polled <= |polls| && Yielded(out, start, polls[..polled], final, ending)
      ensures Concludes(out, polls[..polled], final, ending)
      ensures !ending.Delegated? ==> Announces(out, start, polls[..polled])
      // it stops early only when the consumer or the context does
      ensures (ending.ConsumerLeft? ==> closed) && (ending.ContextDone? ==> ended || polled == |polls|)
      // undisturbed, and with Redis up, the store ends with the wait seen last, or without a handle
      ensures store.reachable && store.budget == old(store.budget) && !ending.Delegated? ==>
                if ending.Finished? then store.stored.None?
                else Keeps(store.stored, start, polls[..polled])
      ensures ending.Delegated? <==> !hasQuerier || read.NotFound? || (read.Found? && first.QueryFails?)
      ensures !ending.Delegated? ==>
                && (read.Unreadable? ==> start == ZERO_HANDLE)
                && (read.Found? ==> start == read.handle || (SyncAsks(read, hasQuerier, first) != [] &&
                                                             start == Handle(Waiting, first.waitToken, first.stepID)))
      ensures store.asked == old(store.asked) + SyncAsks(read, hasQuerier, first)
                             + Changes(start.waitToken, Waits(polls[..polled]))
    {
      closed, ended := false, false;
      var isHITL;
      out, polled := [], 0;
      start, isHITL, read := SyncHITLState(first);
      assert polls[..0] == [];
      if !isHITL || !hasQuerier {
        return out, start, polled, Delegated, read;
      }
      out, polled, ending := Watch(start, polls, final);
      YieldedConcludes(out, start, polls[..polled], final, ending);
      YieldedAnnounces(out, start, polls[..polled], final, ending);
    }
  }

  lemma {:induction false} NoReuseAfterDrop(t: string, s: seq<string>)
    requires NoReuse(s)
    ensures NoReuse(DropLeading(t, s))
  {
    if s != [] && s[0] == t {
      forall i, j, k | 0 <= i < j < k < |s[1..]| && s[1..][i] == s[1..][k]
        ensures s[1..][j] == s[1..][i]
      {
        assert s[i + 1] == s[k + 1] ==> s[j + 1] == s[i + 1];
      }
      NoReuseAfterDrop(t, s[1..]);
    }
  }

  /** One subscription to a workflow that gives every wait a token of its own: prompts first, no two for the
      same wait, then at most one artifact and at most one status, and nothing else. */
  lemma SubscriptionGrammar(out: seq<Event>, start: Handle, polls: seq<Query>, final: Final, ending: Ending,
                            waits: seq<string>, at: seq<nat>) returns (n: nat)
    requires Yielded(out, start, polls, final, ending) && !ending.Delegated? && Distinct(waits)
    requires Shows(waits, at, (if start.state == Waiting then [start.waitToken] else []) + Waits(polls))
    ensures n <= |out| && (forall i :: 0 <= i < n ==> out[i].InputRequired?)
    ensures forall i, j :: 0 <= i < j < n ==> out[i] != out[j]
    ensures out[n..] == [] || out[n..] == FinalEvents(final) || (final.Result? && out[n..] == [Artifact(final.text)])
    ensures out[n..] != [] ==> polls != [] && polls[|polls| - 1].QueryFails?
    ensures Concludes(out, polls, final, ending) && Announces(out, start, polls)
  {
    YieldedConcludes(out, start, polls, final, ending);
    YieldedAnnounces(out, start, polls, final, ending);
    hide Concludes, Announces;
    var seen := Waits(polls);
    var tokens := Announcements(start, seen);
    n := |tokens|;
    assert Prompts(tokens) <= out;
    FreshTokens(waits, at, (if start.state == Waiting then [start.waitToken] else []) + seen);
    if start.state != Waiting {
      assert [] + seen == seen;
      NoReuseAfterDrop(start.waitToken, seen);
    }
    AnnouncedOnce(start, seen);
    forall i, j | 0 <= i < j < n
      ensures out[i] != out[j]
    {
      assert out[i] == InputRequired(tokens[i]) && out[j] == InputRequired(tokens[j]);
    }
  }
}
