/** The two-channel fan-in that feeds the run executor when events come from the in-process bus. */
module FanIn {
  import opened Prelude

  /** `s` takes all of `a` and all of `b`, each in its own order. */
  predicate Shuffle<T(==)>(s: seq<T>, a: seq<T>, b: seq<T>) {
    if s == [] then a == [] && b == [] else
      var (init, last) := (s[..|s| - 1], s[|s| - 1]);
      || (a != [] && a[|a| - 1] == last && Shuffle(init, a[..|a| - 1], b))
      || (b != [] && b[|b| - 1] == last && Shuffle(init, a, b[..|b| - 1]))
  }

  /** The elements of `s` that `picks` attributes to `side`. */
  function Side<T>(s: seq<T>, picks: seq<bool>, side: bool): seq<T>
    requires |s| == |picks|
  {
    if s == [] then [] else
      var n := |s| - 1;
      var before := Side(s[..n], picks[..n], side);
      if picks[n] == side then before + [s[n]] else before
  }

  lemma {:induction false} Attribution<T>(s: seq<T>, a: seq<T>, b: seq<T>) returns (picks: seq<bool>)
    requires Shuffle(s, a, b)
    ensures |picks| == |s| && Side(s, picks, true) == a && Side(s, picks, false) == b
  {
    if s == [] {
      picks := [];
    } else {
      var n := |s| - 1;
      if a != [] && a[|a| - 1] == s[n] && Shuffle(s[..n], a[..|a| - 1], b) {
        var before := Attribution(s[..n], a[..|a| - 1], b);
        picks := before + [true];
        assert picks[..n] == before;
      } else {
        var before := Attribution(s[..n], a, b[..|b| - 1]);
        picks := before + [false];
        assert picks[..n] == before;
      }
    }
  }

  lemma {:induction false} AttributedIsShuffle<T>(s: seq<T>, picks: seq<bool>)
    requires |picks| == |s|
    ensures Shuffle(s, Side(s, picks, true), Side(s, picks, false))
  {
    if s != [] {
      var n := |s| - 1;
      AttributedIsShuffle(s[..n], picks[..n]);
      var a, b := Side(s[..n], picks[..n], true), Side(s[..n], picks[..n], false);
      if picks[n] {
        assert (a + [s[n]])[..|a|] == a;
      } else {
        assert (b + [s[n]])[..|b|] == b;
      }
    }
  }

  /** A shuffle is exactly a sequence whose elements can be told apart into the two inputs. */
  lemma ShuffleIsAnInterleaving<T>(s: seq<T>, a: seq<T>, b: seq<T>)
    ensures Shuffle(s, a, b) <==>
            exists picks: seq<bool> :: |picks| == |s| && Side(s, picks, true) == a && Side(s, picks, false) == b
  {
    if Shuffle(s, a, b) {
      var picks := Attribution(s, a, b);
    }
    forall picks: seq<bool> | |picks| == |s| && Side(s, picks, true) == a && Side(s, picks, false) == b
      ensures Shuffle(s, a, b)
    {
      AttributedIsShuffle(s, picks);
    }
  }

  lemma LastOfMultiset<T>(s: seq<T>)
    requires s != []
    ensures multiset(s) == multiset(s[..|s| - 1]) + multiset{s[|s| - 1]}
  {
    assert s == s[..|s| - 1] + [s[|s| - 1]];
  }

  /** Nothing is dropped, duplicated or made up. */
  lemma {:induction false} ShuffleConserves<T>(s: seq<T>, a: seq<T>, b: seq<T>)
    requires Shuffle(s, a, b)
    ensures multiset(s) == multiset(a) + multiset(b) && |s| == |a| + |b|
  {
    if s != [] {
      var n := |s| - 1;
      LastOfMultiset(s);
      if a != [] && a[|a| - 1] == s[n] && Shuffle(s[..n], a[..|a| - 1], b) {
        ShuffleConserves(s[..n], a[..|a| - 1], b);
        LastOfMultiset(a);
      } else {
        ShuffleConserves(s[..n], a, b[..|b| - 1]);
        LastOfMultiset(b);
      }
    }
  }

  lemma ShuffleGrows<T>(s: seq<T>, a: seq<T>, b: seq<T>, i: nat, j: nat)
    requires i <= |a| && j <= |b| && Shuffle(s, a[..i], b[..j])
    ensures i < |a| ==> Shuffle(s + [a[i]], a[..i + 1], b[..j])
    ensures j < |b| ==> Shuffle(s + [b[j]], a[..i], b[..j + 1])
  {
    if i < |a| {
      assert (s + [a[i]])[..|s|] == s && a[..i + 1][..i] == a[..i];
    }
    if j < |b| {
      assert (s + [b[j]])[..|s|] == s && b[..j + 1][..j] == b[..j];
    }
  }

  /** An input channel: what arrives on it, and whether it is then closed. */
  datatype Channel<T> = Channel(events: seq<T>, closes: bool)

  /** The merged channel was closed with both inputs exhausted, or by the cancellation, or is still open. */
  datatype Outcome = Exhausted | Cancelled | Underway

  /** What was sent, followed by the event in hand, if any. */
  function WithHand<T>(merged: seq<T>, hand: Option<T>): seq<T> {
    if hand.Some? then merged + [hand.value] else merged
  }

  /** The goroutine has nothing to receive, and an input is still open. */
  predicate Starved<T>(evs: Channel<T>, terms: Channel<T>, i: nat, j: nat) {
    i == |evs.events| && j == |terms.events| && !(evs.closes && terms.closes)
  }

  /** The goroutine, watched for `patience` channel operations; the context is cancelled once `cancelAt` of them
      have been made, or while the goroutine waits with fewer made.  What it sent, with the event in its hand,
      is at every moment a shuffle of what it received.  It stops with the output a full shuffle of both
      inputs, or because of the cancellation and not before it; it does stop when both inputs close, and a
      cancelled goroutine never waits. */
  method MergeEventChannels<T(==)>(evs: Channel<T>, terms: Channel<T>, cancelAt: Option<nat>, patience: nat)
    returns (outcome: Outcome, merged: seq<T>, hand: Option<T>, i: nat, j: nat, moves: nat)
    ensures i <= |evs.events| && j <= |terms.events|
    ensures Shuffle(WithHand(merged, hand), evs.events[..i], terms.events[..j])
    ensures |merged| + i + j <= moves <= |merged| + i + j + 2 && moves <= patience
    ensures outcome.Exhausted? ==> evs.closes && terms.closes && Shuffle(merged, evs.events, terms.events)
    ensures outcome.Cancelled? ==>
              cancelAt.Some? && (moves >= cancelAt.value || (hand.None? && Starved(evs, terms, i, j)))
    ensures hand.Some? ==> outcome != Exhausted
    ensures outcome.Underway? ==>
              moves == patience || (hand.None? && cancelAt.None? && Starved(evs, terms, i, j))
    ensures cancelAt.None? && evs.closes && terms.closes && patience >= 2 * (|evs.events| + |terms.events|) + 2
            ==> outcome.Exhausted?
    ensures cancelAt.Some? && patience >= 2 * (|evs.events| + |terms.events|) + 3 ==> !outcome.Underway?
  {
    merged, hand, i, j, moves := [], None, 0, 0, 0;
    var evNil, termNil := false, false;
    assert Shuffle(merged, evs.events[..i], terms.events[..j]);
    assert evs.events[..|evs.events|] == evs.events && terms.events[..|terms.events|] == terms.events;
    hide Shuffle;
    while moves < patience
      invariant i <= |evs.events| && j <= |terms.events| && hand.None? && moves <= patience
      invariant Shuffle(merged, evs.events[..i], terms.events[..j]) && |merged| == i + j
      invariant evNil ==> evs.closes && i == |evs.events|
      invariant termNil ==> terms.closes && j == |terms.events|
      invariant !(evNil && termNil)
      invariant moves == |merged| + i + j + (if evNil then 1 else 0) + (if termNil then 1 else 0)
      decreases patience - moves
    {
      var blocked := (evNil || (i == |evs.events| && !evs.closes))
                     && (termNil || (j == |terms.events| && !terms.closes));
      var cancelled := cancelAt.Some? && (moves >= cancelAt.value || blocked);
      if {
        case !evNil && i < |evs.events| =>
          ShuffleGrows(merged, evs.events, terms.events, i, j);
          hand, i, moves := Some(evs.events[i]), i + 1, moves + 1;
        case !evNil && i == |evs.events| && evs.closes =>
          evNil, moves := true, moves + 1;
          if termNil {
            return Exhausted, merged, None, i, j, moves;
          }
          continue;
        case !termNil && j < |terms.events| =>
          ShuffleGrows(merged, evs.events, terms.events, i, j);
          hand, j, moves := Some(terms.events[j]), j + 1, moves + 1;
        case !termNil && j == |terms.events| && terms.closes =>
          termNil, moves := true, moves + 1;
          if evNil {
            return Exhausted, merged, None, i, j, moves;
          }
          continue;
        case cancelled =>
          return Cancelled, merged, None, i, j, moves;
        case !cancelled && blocked =>
          return Underway, merged, None, i, j, moves;      // until more arrives
      }
      if moves == patience {
        return Underway, merged, hand, i, j, moves;
      }
      cancelled := cancelAt.Some? && moves >= cancelAt.value;
      if {
        case true =>
          merged, hand, moves := merged + [hand.value], None, moves + 1;
        case cancelled =>
          return Cancelled, merged, hand, i, j, moves;
      }
    }
    outcome := Underway;
  }
}
