/** The migration drift script, against what replaying the migrations does to the catalog. */
module Migrations {
  import opened Prelude

  datatype TableName = TableName(schema: string, name: string)

  datatype Obj = Table(table: TableName) | Column(table: TableName, column: string)

  /** One file, already parsed: what it creates and what it drops. */
  datatype Migration = Migration(name: string, tables: seq<TableName>, columns: seq<(TableName, string)>,
                                 drops: set<Obj>)

  /** Tables first, then columns. */
  function Declared(m: Migration): seq<Obj> {
    seq(|m.tables|, i requires 0 <= i < |m.tables| => Table(m.tables[i]))
    + seq(|m.columns|, i requires 0 <= i < |m.columns| => Column(m.columns[i].0, m.columns[i].1))
  }

  predicate DownAt(name: string, i: nat) { i + 4 <= |name| && name[i..i + 4] == "DOWN" }

  predicate IsDown(name: string) {
    exists i | 0 <= i < |name| :: DownAt(name, i)
  }

  /** "DOWN" stands somewhere in the name. */
  lemma IsDownExactly(name: string)
    ensures IsDown(name) <==> exists a, b :: name == a + "DOWN" + b
  {
    if i :| 0 <= i < |name| && DownAt(name, i) {
      assert name == name[..i] + name[i..i + 4] + name[i + 4..];
    }
    if a, b :| name == a + "DOWN" + b {
      assert name[|a|..|a| + 4] == "DOWN";
      assert DownAt(name, |a|);
    }
  }

  lemma NoLetterD(name: string)
    requires 'D' !in name
    ensures !IsDown(name)
  {
    forall i | 0 <= i < |name|
      ensures !DownAt(name, i)
    {
      assert name[i] in name;
      if i + 4 <= |name| {
        assert name[i..i + 4][0] == name[i];
      }
    }
  }

  predicate Drops(m: Migration, o: Obj) { o in m.drops || Table(o.table) in m.drops }

  // ---- The drift script ---------------------------------------------------------------------

  /** A later file drops the object or its table; files that are never run forwards count as well. */
  ghost predicate Superseded(o: Obj, i: nat, files: seq<Migration>) {
    exists k :: i < k < |files| && Drops(files[k], o)
  }

  datatype Why = Missing | DroppedLater | KnownDrift(reason: string)

  type Finding = (Obj, Why)

  /** The columns of an absent table count as present: the table stands for them. */
  predicate Present(o: Obj, live: set<Obj>) {
    o in live || (o.Column? && Table(o.table) !in live)
  }

  ghost function Judge(files: seq<Migration>, i: nat, o: Obj, live: set<Obj>,
                       known: map<(string, Obj), string>): Option<Why>
    requires i < |files|
  {
    if Present(o, live) then None
    else if Superseded(o, i, files) then Some(DroppedLater)
    else if (files[i].name, o) in known then Some(KnownDrift(known[(files[i].name, o)]))
    else Some(Missing)
  }

  method IsSuperseded(o: Obj, index: nat, files: seq<Migration>) returns (r: bool)
    requires index < |files|
    ensures r <==> Superseded(o, index, files)
  {
    for k := index + 1 to |files|
      invariant forall j :: index < j < k ==> !Drops(files[j], o)
    {
      if o in files[k].drops || Table(o.table) in files[k].drops {
        return true;
      }
    }
    return false;
  }

  /** The findings on the first `n` objects of file `i`, unexplained or explained. */
  ghost function InFile(files: seq<Migration>, i: nat, n: nat, live: set<Obj>, known: map<(string, Obj), string>,
                        missing: bool): seq<Finding>
    requires i < |files| && n <= |Declared(files[i])|
  {
    if n == 0 then [] else
      var before := InFile(files, i, n - 1, live, known, missing);
      var o := Declared(files[i])[n - 1];
      match Judge(files, i, o, live, known)
      case None => before
      case Some(why) => if why.Missing? == missing then before + [(o, why)] else before
  }

  /** All findings filed under `name` for the first `n` files, in the order of the files. */
  ghost function Under(files: seq<Migration>, n: nat, name: string, live: set<Obj>, known: map<(string, Obj), string>,
                       missing: bool): seq<Finding>
    requires n <= |files|
  {
    if n == 0 then [] else
      var before := Under(files, n - 1, name, live, known, missing);
      if files[n - 1].name == name && !IsDown(name) then
        before + InFile(files, n - 1, |Declared(files[n - 1])|, live, known, missing)
      else before
  }

  function At(m: map<string, seq<Finding>>, name: string): seq<Finding> {
    if name in m then m[name] else []
  }

  /** Dictionary contents as the caller of `find_drift` sees them: no key without a finding. */
  ghost predicate Holds(m: map<string, seq<Finding>>, files: seq<Migration>, n: nat, live: set<Obj>,
                        known: map<(string, Obj), string>, missing: bool)
    requires n <= |files|
  {
    forall name :: At(m, name) == Under(files, n, name, live, known, missing) && (name in m ==> m[name] != [])
  }

  /** `m` is `m0` with `more` appended under `name`. */
  ghost predicate Grown(m0: map<string, seq<Finding>>, m: map<string, seq<Finding>>, name: string, more: seq<Finding>) {
    && (forall n :: At(m, n) == if n == name then At(m0, n) + more else At(m0, n))
    && (forall n :: n in m ==> n in m0 || m[n] != [])
  }

  lemma GrownByNothing(m: map<string, seq<Finding>>, name: string)
    ensures Grown(m, m, name, [])
  {
    assert At(m, name) + [] == At(m, name);
  }

  lemma GrownByOne(m0: map<string, seq<Finding>>, m: map<string, seq<Finding>>, name: string, more: seq<Finding>,
                   f: Finding)
    requires Grown(m0, m, name, more)
    ensures Grown(m0, m[name := At(m, name) + [f]], name, more + [f])
  {
    assert At(m0, name) + (more + [f]) == At(m, name) + [f];
  }

  /** One file's objects, each present, or filed as explained or unexplained. */
  method CheckFile(files: seq<Migration>, i: nat, live: set<Obj>, known: map<(string, Obj), string>,
                   unexplained0: map<string, seq<Finding>>, explained0: map<string, seq<Finding>>)
    returns (unexplained: map<string, seq<Finding>>, explained: map<string, seq<Finding>>)
    requires i < |files|
    ensures Grown(unexplained0, unexplained, files[i].name, InFile(files, i, |Declared(files[i])|, live, known, true))
    ensures Grown(explained0, explained, files[i].name, InFile(files, i, |Declared(files[i])|, live, known, false))
  {
    hide Grown, At, Declared, Superseded, Present;
    unexplained, explained := unexplained0, explained0;
    var name := files[i].name;
    GrownByNothing(unexplained, name);
    GrownByNothing(explained, name);
    var objects := Declared(files[i]);
    for k := 0 to |objects|
      invariant Grown(unexplained0, unexplained, name, InFile(files, i, k, live, known, true))
      invariant Grown(explained0, explained, name, InFile(files, i, k, live, known, false))
    {
      var o := objects[k];
      if Present(o, live) {
        continue;
      }
      GrownByOne(unexplained0, unexplained, name, InFile(files, i, k, live, known, true), (o, Missing));
      ghost var why := Judge(files, i, o, live, known).value;
      GrownByOne(explained0, explained, name, InFile(files, i, k, live, known, false), (o, why));
      var superseded := IsSuperseded(o, i, files);
      if superseded {
        explained := explained[name := At(explained, name) + [(o, DroppedLater)]];
      } else if (name, o) in known {
        explained := explained[name := At(explained, name) + [(o, KnownDrift(known[(name, o)]))]];
      } else {
        unexplained := unexplained[name := At(unexplained, name) + [(o, Missing)]];
      }
    }
  }

  lemma NotHeldByDown(m: map<string, seq<Finding>>, files: seq<Migration>, i: nat, live: set<Obj>,
                      known: map<(string, Obj), string>, missing: bool)
    requires i < |files| && IsDown(files[i].name) && Holds(m, files, i, live, known, missing)
    ensures Holds(m, files, i + 1, live, known, missing)
  {
  }

  lemma HoldsNothing(files: seq<Migration>, live: set<Obj>, known: map<(string, Obj), string>)
    ensures Holds(map[], files, 0, live, known, true) && Holds(map[], files, 0, live, known, false)
  {
  }

  lemma GrownHolds(m0: map<string, seq<Finding>>, m: map<string, seq<Finding>>, files: seq<Migration>, i: nat,
                   live: set<Obj>, known: map<(string, Obj), string>, missing: bool)
    requires i < |files| && !IsDown(files[i].name)
    requires Holds(m0, files, i, live, known, missing)
    requires Grown(m0, m, files[i].name, InFile(files, i, |Declared(files[i])|, live, known, missing))
    ensures Holds(m, files, i + 1, live, known, missing)
  {
    hide InFile, IsDown, Declared;
    forall name
      ensures At(m, name) == Under(files, i + 1, name, live, known, missing) && (name in m ==> m[name] != [])
    {
      assert At(m0, name) == Under(files, i, name, live, known, missing);
    }
  }

  method FindDrift(files: seq<Migration>, live: set<Obj>, known: map<(string, Obj), string>)
    returns (unexplained: map<string, seq<Finding>>, explained: map<string, seq<Finding>>)
    ensures Holds(unexplained, files, |files|, live, known, true)
    ensures Holds(explained, files, |files|, live, known, false)
  {
    hide InFile, Declared, IsDown;
    unexplained, explained := map[], map[];
    HoldsNothing(files, live, known);
    hide Holds;
    for i := 0 to |files|
      invariant Holds(unexplained, files, i, live, known, true)
      invariant Holds(explained, files, i, live, known, false)
    {
      if IsDown(files[i].name) {
        NotHeldByDown(unexplained, files, i, live, known, true);
        NotHeldByDown(explained, files, i, live, known, false);
        continue;
      }
      ghost var unexplained0, explained0 := unexplained, explained;
      unexplained, explained := CheckFile(files, i, live, known, unexplained, explained);
      GrownHolds(unexplained0, unexplained, files, i, live, known, true);
      GrownHolds(explained0, explained, files, i, live, known, false);
    }
  }

  // ---- What is reported -------------------------------------------------------------------

  /** File `i` declares the object, and `find_drift` calls it missing. */
  ghost predicate Reported(files: seq<Migration>, i: nat, o: Obj, live: set<Obj>, known: map<(string, Obj), string>) {
    i < |files| && !IsDown(files[i].name) && o in Declared(files[i]) && Judge(files, i, o, live, known) == Some(Missing)
  }

  lemma {:induction false} InFileExact(files: seq<Migration>, i: nat, n: nat, live: set<Obj>,
                                       known: map<(string, Obj), string>, o: Obj)
    requires i < |files| && n <= |Declared(files[i])|
    ensures (o, Missing) in InFile(files, i, n, live, known, true) <==>
            o in Declared(files[i])[..n] && Judge(files, i, o, live, known) == Some(Missing)
  {
    hide Declared, Judge;
    if n > 0 {
      InFileExact(files, i, n - 1, live, known, o);
      assert Declared(files[i])[..n] == Declared(files[i])[..n - 1] + [Declared(files[i])[n - 1]];
    }
  }

  /** What `find_drift` lists under a name as unexplained is exactly what is reported for its files. */
  lemma {:induction false} UnderExact(files: seq<Migration>, n: nat, name: string, live: set<Obj>,
                                      known: map<(string, Obj), string>, o: Obj)
    requires n <= |files|
    ensures (o, Missing) in Under(files, n, name, live, known, true) <==>
            exists i | 0 <= i < n :: files[i].name == name && Reported(files, i, o, live, known)
  {
    hide Declared, Judge, IsDown;
    if n > 0 {
      UnderExact(files, n - 1, name, live, known, o);
      InFileExact(files, n - 1, |Declared(files[n - 1])|, live, known, o);
      assert Declared(files[n - 1])[..|Declared(files[n - 1])|] == Declared(files[n - 1]);
    }
  }

  lemma {:induction false} NothingInFile(files: seq<Migration>, i: nat, n: nat, live: set<Obj>,
                                         known: map<(string, Obj), string>)
    requires i < |files| && n <= |Declared(files[i])| && !IsDown(files[i].name)
    requires forall o :: !Reported(files, i, o, live, known)
    ensures InFile(files, i, n, live, known, true) == []
  {
    hide Declared, Judge, IsDown;
    if n > 0 {
      NothingInFile(files, i, n - 1, live, known);
      assert !Reported(files, i, Declared(files[i])[n - 1], live, known);
    }
  }

  lemma {:induction false} NothingUnder(files: seq<Migration>, n: nat, name: string, live: set<Obj>,
                                        known: map<(string, Obj), string>)
    requires n <= |files|
    requires forall i, o :: 0 <= i < n ==> !Reported(files, i, o, live, known)
    ensures Under(files, n, name, live, known, true) == []
  {
    hide Declared, Judge, IsDown;
    if n > 0 {
      NothingUnder(files, n - 1, name, live, known);
      if files[n - 1].name == name && !IsDown(name) {
        NothingInFile(files, n - 1, |Declared(files[n - 1])|, live, known);
      }
    }
  }

  // ---- The findings, exactly --------------------------------------------------------------

  /** The object is not in the database, nor is it a column of a table that is not; and this is why: a later file
      drops it or its table, or else it is listed as known, or else there is no excuse. */
  ghost predicate Explains(files: seq<Migration>, i: nat, o: Obj, live: set<Obj>, known: map<(string, Obj), string>,
                           why: Why)
    requires i < |files|
  {
    && o !in live && (o.Column? ==> Table(o.table) in live)
    && var dropped := exists k :: i < k < |files| && (o in files[k].drops || Table(o.table) in files[k].drops);
       match why
       case DroppedLater => dropped
       case KnownDrift(reason) => !dropped && (files[i].name, o) in known && known[(files[i].name, o)] == reason
       case Missing => !dropped && (files[i].name, o) !in known
  }

  lemma JudgeExplains(files: seq<Migration>, i: nat, o: Obj, live: set<Obj>, known: map<(string, Obj), string>,
                      why: Why)
    requires i < |files|
    ensures Judge(files, i, o, live, known) == Some(why) <==> Explains(files, i, o, live, known, why)
  {
    assert Superseded(o, i, files) <==>
           exists k :: i < k < |files| && (o in files[k].drops || Table(o.table) in files[k].drops) by {
      assert forall k :: i < k < |files| ==>
               (Drops(files[k], o) <==> o in files[k].drops || Table(o.table) in files[k].drops);
    }
    hide Superseded, Drops;
  }

  /** Finding `f` is about object `k` of file `i`, rightly filed. */
  ghost predicate About(f: Finding, files: seq<Migration>, i: nat, k: nat, live: set<Obj>,
                        known: map<(string, Obj), string>, missing: bool) {
    && i < |files| && k < |Declared(files[i])| && f.0 == Declared(files[i])[k]
    && Explains(files, i, f.0, live, known, f.1) && f.1.Missing? == missing
  }

  /** Object `k` of file `i` has to be filed. */
  ghost predicate Due(files: seq<Migration>, i: nat, k: nat, live: set<Obj>, known: map<(string, Obj), string>,
                      missing: bool) {
    exists f: Finding :: About(f, files, i, k, live, known, missing)
  }

  /** The findings of one file are those due, in the order of its objects, each once: the `p`th is about object
      `at[p]`. */
  lemma {:induction false} InFilePlaces(files: seq<Migration>, i: nat, n: nat, live: set<Obj>,
                                        known: map<(string, Obj), string>, missing: bool) returns (at: seq<nat>)
    requires i < |files| && n <= |Declared(files[i])|
    ensures var found := InFile(files, i, n, live, known, missing);
            && |at| == |found|
            && (forall p :: 0 <= p < |at| ==> at[p] < n && About(found[p], files, i, at[p], live, known, missing))
            && (forall p, q :: 0 <= p < q < |at| ==> at[p] < at[q])
            && forall k: nat :: k < n && Due(files, i, k, live, known, missing) ==> k in at
  {
    hide Declared, Judge, Explains;
    if n == 0 {
      at := [];
    } else {
      at := InFilePlaces(files, i, n - 1, live, known, missing);
      var o := Declared(files[i])[n - 1];
      forall why
        ensures Judge(files, i, o, live, known) == Some(why) <==> Explains(files, i, o, live, known, why)
      {
        JudgeExplains(files, i, o, live, known, why);
      }
      match Judge(files, i, o, live, known) {
        case None =>
        case Some(why) =>
          if why.Missing? == missing {
            assert About((o, why), files, i, n - 1, live, known, missing);
            at := at + [n - 1];
          }
      }
    }
  }

  lemma DueInRange(files: seq<Migration>, i: nat, live: set<Obj>, known: map<(string, Obj), string>, missing: bool)
    ensures forall k: nat :: Due(files, i, k, live, known, missing) ==> i < |files| && k < |Declared(files[i])|
  {
    hide Explains, Declared;
  }

  predicate Earlier(a: (nat, nat), b: (nat, nat)) { a.0 < b.0 || (a.0 == b.0 && a.1 < b.1) }

  function Places(i: nat, ks: seq<nat>): (at: seq<(nat, nat)>)
    ensures |at| == |ks| && forall p :: 0 <= p < |at| ==> at[p] == (i, ks[p])
  {
    seq(|ks|, p requires 0 <= p < |ks| => (i, ks[p]))
  }

  lemma AllPlaced(i: nat, ks: seq<nat>)
    ensures forall k: nat :: k in ks ==> (i, k) in Places(i, ks)
  {
    forall k: nat | k in ks
      ensures (i, k) in Places(i, ks)
    {
      var p :| 0 <= p < |ks| && ks[p] == k;
      assert Places(i, ks)[p] == (i, k);
    }
  }

  /** Finding `p` is about the place `at[p]`, in a file of that name that is run forwards. */
  ghost predicate Listed(found: seq<Finding>, at: seq<(nat, nat)>, files: seq<Migration>, n: nat, name: string,
                         live: set<Obj>, known: map<(string, Obj), string>, missing: bool) {
    && |at| == |found|
    && forall p :: 0 <= p < |at| ==>
         && at[p].0 < n <= |files| && files[at[p].0].name == name && !IsDown(name)
         && About(found[p], files, at[p].0, at[p].1, live, known, missing)
  }

  predicate InOrder(at: seq<(nat, nat)>) { forall p, q :: 0 <= p < q < |at| ==> Earlier(at[p], at[q]) }

  /** Nothing due is left out. */
  ghost predicate Complete(at: seq<(nat, nat)>, files: seq<Migration>, n: nat, name: string,
                           live: set<Obj>, known: map<(string, Obj), string>, missing: bool)
    requires n <= |files|
  {
    forall i: nat, k: nat ::
      i < n && files[i].name == name && !IsDown(name) && Due(files, i, k, live, known, missing) ==> (i, k) in at
  }

  lemma NoneListed(files: seq<Migration>, name: string, live: set<Obj>, known: map<(string, Obj), string>,
                   missing: bool)
    ensures Listed([], [], files, 0, name, live, known, missing) && InOrder([])
    ensures Complete([], files, 0, name, live, known, missing)
  {
  }

  lemma ListedNext(found: seq<Finding>, at: seq<(nat, nat)>, more: seq<Finding>, ks: seq<nat>, files: seq<Migration>,
                   n: nat, name: string, live: set<Obj>, known: map<(string, Obj), string>, missing: bool)
    requires 0 < n <= |files| && files[n - 1].name == name && !IsDown(name) && |ks| == |more|
    requires Listed(found, at, files, n - 1, name, live, known, missing) && InOrder(at)
    requires forall p :: 0 <= p < |ks| ==> About(more[p], files, n - 1, ks[p], live, known, missing)
    requires forall p, q :: 0 <= p < q < |ks| ==> ks[p] < ks[q]
    ensures Listed(found + more, at + Places(n - 1, ks), files, n, name, live, known, missing)
    ensures InOrder(at + Places(n - 1, ks))
  {
    hide About, IsDown;
  }

  lemma ListedSoFar(found: seq<Finding>, at: seq<(nat, nat)>, files: seq<Migration>, n: nat, name: string,
                    live: set<Obj>, known: map<(string, Obj), string>, missing: bool)
    requires 0 < n <= |files| && Listed(found, at, files, n - 1, name, live, known, missing)
    ensures Listed(found, at, files, n, name, live, known, missing)
  {
    hide About, IsDown;
    forall p | 0 <= p < |at|
      ensures at[p].0 < n && About(found[p], files, at[p].0, at[p].1, live, known, missing)
    {
      assert at[p].0 < n - 1;
    }
  }

  lemma CompleteNext(at: seq<(nat, nat)>, ks: seq<nat>, files: seq<Migration>, n: nat, name: string,
                     live: set<Obj>, known: map<(string, Obj), string>, missing: bool)
    requires 0 < n <= |files| && Complete(at, files, n - 1, name, live, known, missing)
    requires forall k: nat :: k < |Declared(files[n - 1])| && Due(files, n - 1, k, live, known, missing) ==> k in ks
    ensures Complete(at + Places(n - 1, ks), files, n, name, live, known, missing)
    ensures files[n - 1].name != name || IsDown(name) ==> Complete(at, files, n, name, live, known, missing)
  {
    AllPlaced(n - 1, ks);
    DueInRange(files, n - 1, live, known, missing);
    hide Due, IsDown, Declared;
  }

  /** What `find_drift` lists under a name, exactly: every finding due in the files of that name that are run
      forwards, in the order of the files and of their objects, each once, and nothing else. */
  lemma {:induction false} UnderPlaces(files: seq<Migration>, n: nat, name: string, live: set<Obj>,
                                       known: map<(string, Obj), string>, missing: bool)
    returns (at: seq<(nat, nat)>)
    requires n <= |files|
    ensures Listed(Under(files, n, name, live, known, missing), at, files, n, name, live, known, missing)
    ensures InOrder(at) && Complete(at, files, n, name, live, known, missing)
  {
    hide Declared, InFile, IsDown, About, Due, Listed, Complete, InOrder;
    if n == 0 {
      at := [];
      NoneListed(files, name, live, known, missing);
    } else {
      at := UnderPlaces(files, n - 1, name, live, known, missing);
      var before := Under(files, n - 1, name, live, known, missing);
      var objects := |Declared(files[n - 1])|;
      var ks := InFilePlaces(files, n - 1, objects, live, known, missing);
      CompleteNext(at, ks, files, n, name, live, known, missing);
      ListedSoFar(before, at, files, n, name, live, known, missing);
      if files[n - 1].name == name && !IsDown(name) {
        ListedNext(before, at, InFile(files, n - 1, objects, live, known, missing), ks,
                   files, n, name, live, known, missing);
        at := at + Places(n - 1, ks);
      }
    }
  }

  // ---- Replay -----------------------------------------------------------------------------

  function Names(m: Migration): set<Obj> { set t | t in m.tables :: Table(t) }

  /** A file's drops, then its tables, then its columns; a column without its table is not added. */
  function AfterDrops(m: Migration, catalog: set<Obj>): set<Obj> { set o | o in catalog && !Drops(m, o) }

  function AfterTables(m: Migration, catalog: set<Obj>): set<Obj> { AfterDrops(m, catalog) + Names(m) }

  function Run(m: Migration, catalog: set<Obj>): set<Obj> {
    var tables := AfterTables(m, catalog);
    tables + set c | c in m.columns && Table(c.0) in tables :: Column(c.0, c.1)
  }

  /** The catalog after those of the first `n` files that were applied. */
  function Replay(files: seq<Migration>, n: nat, applied: set<nat>, base: set<Obj>): set<Obj>
    requires n <= |files|
  {
    if n == 0 then base else
      var before := Replay(files, n - 1, applied, base);
      if n - 1 in applied then Run(files[n - 1], before) else before
  }

  function Live(files: seq<Migration>, applied: set<nat>, base: set<Obj>): set<Obj> {
    Replay(files, |files|, applied, base)
  }

  /** The table a column of file `i` belongs to is there when the file adds the column. */
  predicate TableIsThere(files: seq<Migration>, i: nat, o: Obj, applied: set<nat>, base: set<Obj>)
    requires i < |files|
  {
    Table(o.table) in AfterTables(files[i], Replay(files, i, applied, base))
  }

  /** What no later file drops stays. */
  lemma {:induction false} Stays(files: seq<Migration>, i: nat, n: nat, applied: set<nat>, base: set<Obj>, o: Obj)
    requires i < n <= |files| && o in Replay(files, i + 1, applied, base) && !Superseded(o, i, files)
    ensures o in Replay(files, n, applied, base)
    decreases n
  {
    if i + 1 < n {
      Stays(files, i, n - 1, applied, base, o);
      assert !Drops(files[n - 1], o);
    }
  }

  lemma RunDeclares(m: Migration, catalog: set<Obj>, o: Obj)
    requires o in Run(m, catalog)
    ensures o in catalog || o in Declared(m)
  {
    match o {
      case Table(t) =>
        if o !in catalog {
          var k :| 0 <= k < |m.tables| && m.tables[k] == t;
          assert Declared(m)[k] == o;
        }
      case Column(t, c) =>
        if o !in catalog {
          var k :| 0 <= k < |m.columns| && m.columns[k] == (t, c);
          assert Declared(m)[|m.tables| + k] == o;
        }
    }
  }

  /** What is there and was not before file `j` was created by an applied file since. */
  lemma {:induction false} Origin(files: seq<Migration>, j: nat, n: nat, applied: set<nat>, base: set<Obj>, o: Obj)
    requires j <= n <= |files| && o in Replay(files, n, applied, base) && o !in Replay(files, j, applied, base)
    ensures exists k :: j <= k < n && k in applied && o in Declared(files[k])
    decreases n
  {
    if n - 1 in applied && o !in Replay(files, n - 1, applied, base) {
      RunDeclares(files[n - 1], Replay(files, n - 1, applied, base), o);
    } else {
      Origin(files, j, n - 1, applied, base, o);
    }
  }

  lemma DeclaredRuns(m: Migration, catalog: set<Obj>, o: Obj)
    requires o in Declared(m) && (o.Column? ==> Table(o.table) in AfterTables(m, catalog))
    ensures o in Run(m, catalog)
  {
    match o {
      case Table(t) =>
        assert t in m.tables;
      case Column(t, c) =>
        assert (t, c) in m.columns;
    }
  }

  /** Whatever subset of the migrations was applied, a report names a file that was not applied, or a column
      whose table was missing when the file added it; and such a column is reported exactly when the table
      is there in the end without it, and nothing later drops it or lists it as known. */
  lemma BlameIsExact(files: seq<Migration>, applied: set<nat>, base: set<Obj>, i: nat, o: Obj,
                     known: map<(string, Obj), string>)
    requires i < |files| && i in applied && !IsDown(files[i].name) && o in Declared(files[i])
    ensures Reported(files, i, o, Live(files, applied, base), known) <==>
            && o.Column? && !TableIsThere(files, i, o, applied, base)
            && o !in Live(files, applied, base) && Table(o.table) in Live(files, applied, base)
            && !Superseded(o, i, files) && (files[i].name, o) !in known
  {
    hide IsDown, Declared, Superseded;
    if o.Column? ==> TableIsThere(files, i, o, applied, base) {
      DeclaredRuns(files[i], Replay(files, i, applied, base), o);
      if !Superseded(o, i, files) {
        Stays(files, i, |files|, applied, base, o);
      }
    }
  }

  /** Everything that is meant to run forwards. */
  predicate AllForward(files: seq<Migration>, applied: set<nat>) {
    forall i :: 0 <= i < |files| ==> (i in applied <==> !IsDown(files[i].name))
  }

  predicate ColumnsFindTables(files: seq<Migration>, applied: set<nat>, base: set<Obj>) {
    forall i, o :: 0 <= i < |files| && i in applied && o in Declared(files[i]) && o.Column?
                   ==> TableIsThere(files, i, o, applied, base)
  }

  /** With every migration applied `find_drift` lists nothing, even with no known drift. */
  lemma NoFalseAlarm(files: seq<Migration>, applied: set<nat>, base: set<Obj>, name: string)
    requires AllForward(files, applied) && ColumnsFindTables(files, applied, base)
    ensures Under(files, |files|, name, Live(files, applied, base), map[], true) == []
  {
    hide IsDown, Declared, Live, TableIsThere;
    forall i, o | 0 <= i < |files|
      ensures !Reported(files, i, o, Live(files, applied, base), map[])
    {
      if !IsDown(files[i].name) && o in Declared(files[i]) {
        BlameIsExact(files, applied, base, i, o, map[]);
      }
    }
    NothingUnder(files, |files|, name, Live(files, applied, base), map[]);
  }

  /** A column added to a table that does not exist yet is lost, and then reported for good. */
  lemma LateTableAlarms()
    ensures var t := TableName("them", "runs");
            var files := [Migration("1.sql", [], [(t, "note")], {}), Migration("2.sql", [t], [], {})];
            && AllForward(files, {0, 1})
            && Reported(files, 0, Column(t, "note"), Live(files, {0, 1}, {}), map[])
  {
    var t := TableName("them", "runs");
    var files := [Migration("1.sql", [], [(t, "note")], {}), Migration("2.sql", [t], [], {})];
    var o := Column(t, "note");
    NoLetterD("1.sql");
    NoLetterD("2.sql");
    assert Declared(files[0])[0] == o;
    assert Replay(files, 0, {0, 1}, {}) == {};
    assert Replay(files, 1, {0, 1}, {}) == {};
    assert t in files[1].tables;
    assert Replay(files, 2, {0, 1}, {}) == {Table(t)};
  }

  /** The object was not there when the skipped file `j` would have run, and no applied file creates it later. */
  ghost predicate OnlyLeft(files: seq<Migration>, applied: set<nat>, base: set<Obj>, j: nat, o: Obj)
    requires j < |files|
  {
    && j !in applied && o in Declared(files[j]) && o !in Replay(files, j, applied, base)
    && forall k :: j < k < |files| && k in applied ==> o !in Declared(files[k])
  }

  lemma OnlyLeftIsAbsent(files: seq<Migration>, applied: set<nat>, base: set<Obj>, j: nat, o: Obj)
    requires j < |files| && OnlyLeft(files, applied, base, j, o)
    ensures o !in Live(files, applied, base)
  {
    hide Declared;
    if o in Live(files, applied, base) {
      Origin(files, j, |files|, applied, base, o);
    }
  }

  /** A migration that was never applied: a table left to it alone is reported under it exactly when no later
      file, run or not, drops it and it is not listed as known. */
  lemma SkippedTableFound(files: seq<Migration>, applied: set<nat>, base: set<Obj>, j: nat, o: Obj,
                          known: map<(string, Obj), string>)
    requires j < |files| && !IsDown(files[j].name) && o.Table? && OnlyLeft(files, applied, base, j, o)
    ensures Reported(files, j, o, Live(files, applied, base), known) <==>
            !Superseded(o, j, files) && (files[j].name, o) !in known
  {
    hide IsDown, Declared, Superseded, Live;
    OnlyLeftIsAbsent(files, applied, base, j, o);
  }

  /** The same for a column: it is reported itself if and only if its table is there in the end.  When it is not,
      although it was there for the skipped file or that file creates it, then the file does create it, and the
      table is reported in the column's place, unless it is listed as known. */
  lemma SkippedColumnFound(files: seq<Migration>, applied: set<nat>, base: set<Obj>, j: nat, o: Obj,
                           known: map<(string, Obj), string>)
    requires j < |files| && !IsDown(files[j].name) && o.Column? && OnlyLeft(files, applied, base, j, o)
    ensures var (live, t) := (Live(files, applied, base), Table(o.table));
            && (Reported(files, j, o, live, known) <==>
                  t in live && !Superseded(o, j, files) && (files[j].name, o) !in known)
            && (t !in live && !Superseded(o, j, files)
                && (t in Replay(files, j, applied, base) || t in Declared(files[j])) ==>
                  t in Declared(files[j]) && (Reported(files, j, t, live, known) <==> (files[j].name, t) !in known))
  {
    hide IsDown, Declared;
    OnlyLeftIsAbsent(files, applied, base, j, o);
    var t := Table(o.table);
    if t !in Live(files, applied, base) && !Superseded(o, j, files) {
      forall k | j < k < |files|
        ensures !Drops(files[k], t)
      {
        assert !Drops(files[k], o);
      }
      if t in Replay(files, j, applied, base) {
        assert Replay(files, j + 1, applied, base) == Replay(files, j, applied, base);
        Stays(files, j, |files|, applied, base, t);
      }
    }
  }

  /** A file that is never run forwards hides a migration that was never applied. */
  lemma DownFileMasks()
    ensures var t := TableName("them", "tenants");
            var files := [Migration("1.sql", [t], [], {}), Migration("1_DOWN.sql", [], [], {Table(t)})];
            && !IsDown(files[0].name) && IsDown(files[1].name) && Table(t) !in Live(files, {}, {})
            && forall name, known :: Under(files, 2, name, Live(files, {}, {}), known, true) == []
  {
    var t := TableName("them", "tenants");
    var files := [Migration("1.sql", [t], [], {}), Migration("1_DOWN.sql", [], [], {Table(t)})];
    NoLetterD("1.sql");
    assert DownAt(files[1].name, 2);
    var live := Live(files, {}, {});
    assert Drops(files[1], Table(t));
    forall name, known: map<(string, Obj), string>
      ensures Under(files, 2, name, live, known, true) == []
    {
      forall i, o | 0 <= i < 2
        ensures !Reported(files, i, o, live, known)
      {
        assert o in Declared(files[0]) ==> o == Table(t);
      }
      NothingUnder(files, 2, name, live, known);
    }
  }
}
