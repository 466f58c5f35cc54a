/** The in-process agent-spec cache, with concurrent loads and database updates between any two of its steps. */
module SpecCache {
  import opened Prelude

  const TTL := 60_000    // milliseconds

  /** The database at one instant: the stored spec of each (tenant, agent). */
  datatype Moment = Moment(time: int, rows: map<(string, string), string>)

  datatype AgentSpec = AgentSpec(name: string, plan: string)

  datatype Entry = Entry(spec: AgentSpec, expiresAt: int)

  /** Where an entry came from: whose load, at which moment it asked the database, when it began and when it
      stored what it got. */
  datatype Fill = Fill(tenant: string, agent: string, asked: nat, began: int, stored: int)

  datatype LoadResult = Loaded(spec: AgentSpec) | QueryFails | NoRow | BadRow

  // ---- Keys -------------------------------------------------------------------------------

  function SpecCacheKey(tenantID: string, agentID: string): string { tenantID + ":" + agentID }

  predicate NoColon(s: string) { ':' !in s }

  /** The query casts both identifiers to UUIDs, and no UUID has a colon in it. */
  predicate IsUUIDLike(s: string) { NoColon(s) }

  lemma KeySeparator(tenant: string, agent: string)
    ensures var (key, n) := (SpecCacheKey(tenant, agent), |tenant|);
            && key[n] == ':' && key[..n] == tenant && key[n + 1..] == agent
            && (NoColon(tenant) ==> forall i :: 0 <= i < n ==> key[i] != ':')
            && (NoColon(agent) ==> forall i :: n < i < |key| ==> key[i] != ':')
  {
    var key := SpecCacheKey(tenant, agent);
    forall i | |tenant| < i < |key|
      ensures key[i] in agent
    {
      assert key[i] == agent[i - |tenant| - 1];
    }
  }

  /** Colon-free tenants never share a key. */
  lemma KeysOfPlainTenants(t1: string, a1: string, t2: string, a2: string)
    requires NoColon(t1) && NoColon(t2)
    ensures SpecCacheKey(t1, a1) == SpecCacheKey(t2, a2) <==> t1 == t2 && a1 == a2
  {
    KeySeparator(t1, a1);
    KeySeparator(t2, a2);
    assert SpecCacheKey(t1, a1) == SpecCacheKey(t2, a2) ==> |t1| == |t2|;
  }

  /** A key with a single colon can be asked for in one way only, whatever the tenant asked with. */
  lemma KeysInCache(t: string, a: string, t2: string, a2: string)
    requires NoColon(t) && NoColon(a)
    ensures SpecCacheKey(t, a) == SpecCacheKey(t2, a2) <==> t == t2 && a == a2
  {
    KeySeparator(t, a);
    KeySeparator(t2, a2);
    assert SpecCacheKey(t, a) == SpecCacheKey(t2, a2) ==> |t| == |t2|;
  }

  /** The key alone does not tell tenants with colons apart. */
  lemma KeysCanCollide()
    ensures SpecCacheKey("a:b", "c") == SpecCacheKey("a", "b:c")
  {
  }

  // ---- Where entries come from ------------------------------------------------------------

  ghost predicate Timeline(history: seq<Moment>) {
    history != [] && forall i, j :: 0 <= i < j < |history| ==> history[i].time <= history[j].time
  }

  function Now(history: seq<Moment>): int
    requires history != []
  {
    history[|history| - 1].time
  }

  /** The database held `spec` for the fill's own pair at the moment the fill asked, which lies between the
      start of its load and the time it stored the answer. */
  predicate Answered(history: seq<Moment>, fill: Fill, spec: AgentSpec, unmarshal: string -> Option<AgentSpec>) {
    && IsUUIDLike(fill.tenant) && IsUUIDLike(fill.agent)
    && fill.asked < |history|
    && (fill.tenant, fill.agent) in history[fill.asked].rows
    && unmarshal(history[fill.asked].rows[(fill.tenant, fill.agent)]) == Some(spec)
    && fill.began <= history[fill.asked].time <= fill.stored <= Now(history)
  }

  ghost predicate Backed(history: seq<Moment>, key: string, entry: Entry, fill: Fill,
                         unmarshal: string -> Option<AgentSpec>) {
    && Answered(history, fill, entry.spec, unmarshal)
    && key == SpecCacheKey(fill.tenant, fill.agent) && entry.expiresAt == fill.stored + TTL
  }

  lemma BackedLater(history: seq<Moment>, later: seq<Moment>, key: string, entry: Entry, fill: Fill,
                    unmarshal: string -> Option<AgentSpec>)
    requires Timeline(later) && history <= later && Backed(history, key, entry, fill, unmarshal)
    ensures Backed(later, key, entry, fill, unmarshal)
  {
    assert Now(history) == later[|history| - 1].time;
  }

  /** Every entry has a fill that backs it. */
  ghost predicate AllBacked(history: seq<Moment>, entries: map<string, Entry>, fills: map<string, Fill>,
                            unmarshal: string -> Option<AgentSpec>) {
    && entries.Keys == fills.Keys
    && forall key :: key in entries ==> Backed(history, key, entries[key], fills[key], unmarshal)
  }

  lemma AllBackedLater(history: seq<Moment>, later: seq<Moment>, entries: map<string, Entry>, fills: map<string, Fill>,
                       unmarshal: string -> Option<AgentSpec>)
    requires Timeline(later) && history <= later && AllBacked(history, entries, fills, unmarshal)
    ensures AllBacked(later, entries, fills, unmarshal)
  {
    forall key | key in entries
      ensures Backed(later, key, entries[key], fills[key], unmarshal)
    {
      BackedLater(history, later, key, entries[key], fills[key], unmarshal);
    }
  }

  lemma AllBackedWith(history: seq<Moment>, entries: map<string, Entry>, fills: map<string, Fill>,
                      unmarshal: string -> Option<AgentSpec>, key: string, entry: Entry, fill: Fill)
    requires AllBacked(history, entries, fills, unmarshal) && Backed(history, key, entry, fill, unmarshal)
    ensures AllBacked(history, entries[key := entry], fills[key := fill], unmarshal)
  {
    hide Backed;
  }

  /** The staleness bound: what is still valid now was the row of its own pair less than a TTL and one load
      ago. */
  predicate FreshEnough(asked: int, now: int, load: int) { asked > now - TTL - load }

  lemma StalenessBound(history: seq<Moment>, key: string, entry: Entry, fill: Fill, now: int,
                       unmarshal: string -> Option<AgentSpec>)
    requires Timeline(history) && Backed(history, key, entry, fill, unmarshal) && now < entry.expiresAt
    ensures FreshEnough(history[fill.asked].time, now, fill.stored - fill.began)
  {
  }

  /** An update reaches every load: once the row has been the same for a TTL and one load, that row is
      what loads return. */
  lemma UpdatesArrive(history: seq<Moment>, fill: Fill, spec: AgentSpec, since: int, row: string,
                      unmarshal: string -> Option<AgentSpec>)
    requires Timeline(history) && Answered(history, fill, spec, unmarshal)
    requires FreshEnough(history[fill.asked].time, Now(history), fill.stored - fill.began)
    requires Now(history) >= since + TTL + (fill.stored - fill.began)
    requires forall i :: 0 <= i < |history| && history[i].time >= since ==>
               (fill.tenant, fill.agent) in history[i].rows && history[i].rows[(fill.tenant, fill.agent)] == row
    ensures unmarshal(row) == Some(spec)
  {
    assert history[fill.asked].time >= since;
  }

  lemma Begun(history: seq<Moment>)
    requires Timeline(history)
    ensures history != []
  {
  }

  /** An entry found under the pair's key is the pair's own. */
  lemma OwnAnswer(history: seq<Moment>, fill: Fill, spec: AgentSpec, unmarshal: string -> Option<AgentSpec>,
                  tenantID: string, agentID: string)
    requires Answered(history, fill, spec, unmarshal)
    requires SpecCacheKey(fill.tenant, fill.agent) == SpecCacheKey(tenantID, agentID)
    ensures fill.tenant == tenantID && fill.agent == agentID && fill.asked < |history|
  {
    KeysInCache(fill.tenant, fill.agent, tenantID, agentID);
  }

  // ---- The runtime ------------------------------------------------------------------------

  /** What a load finds when it looks: the cache and the time. */
  datatype Sight = Sight(entries: map<string, Entry>, now: int)

  /** A valid entry under the key. */
  predicate Fresh(entries: map<string, Entry>, now: int, key: string) {
    key in entries && now < entries[key].expiresAt
  }

  /** What the database answers to the query of one load. */
  function Answer(rows: map<(string, string), string>, tenantID: string, agentID: string,
                  unmarshal: string -> Option<AgentSpec>): LoadResult {
    if !IsUUIDLike(tenantID) || !IsUUIDLike(agentID) then QueryFails
    else if (tenantID, agentID) !in rows then NoRow
    else match unmarshal(rows[(tenantID, agentID)])
         case None => BadRow
         case Some(spec) => Loaded(spec)
  }

  /** At some moment since `since` the pair had no row, or one that does not decode, as `r` says. */
  ghost predicate WasUnfit(history: seq<Moment>, since: int, tenantID: string, agentID: string,
                           unmarshal: string -> Option<AgentSpec>, r: LoadResult) {
    exists i :: since <= i < |history| && 0 <= i &&
      if (tenantID, agentID) !in history[i].rows then r.NoRow?
      else r.BadRow? && unmarshal(history[i].rows[(tenantID, agentID)]) == None
  }

  lemma WasUnfitSince(history: seq<Moment>, since: int, later: int, tenantID: string, agentID: string,
                      unmarshal: string -> Option<AgentSpec>, r: LoadResult)
    requires since <= later
    ensures WasUnfit(history, later, tenantID, agentID, unmarshal, r) ==>
              WasUnfit(history, since, tenantID, agentID, unmarshal, r)
  {
  }

  lemma Answering(history: seq<Moment>, since: int, tenantID: string, agentID: string,
                  unmarshal: string -> Option<AgentSpec>)
    requires history != [] && since <= |history| - 1
    ensures var r := Answer(history[|history| - 1].rows, tenantID, agentID, unmarshal);
            && (r.QueryFails? ==> !IsUUIDLike(tenantID) || !IsUUIDLike(agentID))
            && (r.NoRow? || r.BadRow? ==> WasUnfit(history, since, tenantID, agentID, unmarshal, r))
  {
  }

  lemma AnsweredNow(asked: seq<Moment>, history: seq<Moment>, fill: Fill, spec: AgentSpec,
                    unmarshal: string -> Option<AgentSpec>)
    requires asked != [] && asked <= history && Timeline(history) && fill.asked == |asked| - 1
    requires Answer(asked[|asked| - 1].rows, fill.tenant, fill.agent, unmarshal) == Loaded(spec)
    requires fill.began <= Now(asked) && fill.stored == Now(history)
    ensures Answered(history, fill, spec, unmarshal)
    ensures FreshEnough(history[fill.asked].time, Now(history), fill.stored - fill.began)
  {
    assert history[fill.asked] == asked[fill.asked];
  }

  class Runtime {
    const databaseUp: bool              // no query fails for want of a database
    const unmarshal: string -> Option<AgentSpec>
    var entries: map<string, Entry>
    var history: seq<Moment>            // the database at every instant so far, the present one last
    var budget: nat                     // steps the rest of the world may still take
    ghost var fills: map<string, Fill>  // where each entry came from

    ghost predicate Valid()
      reads this
    {
      Timeline(history) && AllBacked(history, entries, fills, unmarshal)
    }

    constructor (databaseUp: bool, unmarshal: string -> Option<AgentSpec>, start: Moment, budget: nat)
      ensures Valid() && entries == map[] && history == [start]
      ensures this.databaseUp == databaseUp && this.unmarshal == unmarshal && this.budget == budget
    {
      this.databaseUp, this.unmarshal := databaseUp, unmarshal;
      this.budget := budget;
      entries, history, fills := map[], [start], map[];
    }

    /** Time passes, the database may change. */
    method Advance(next: Moment)
      requires Valid() && next.time >= Now(history)
      modifies this`history
      ensures Valid() && history == old(history) + [next]
    {
      hide AllBacked;
      AllBackedLater(history, history + [next], entries, fills, unmarshal);
      history := history + [next];
    }

    /** Stores what load `fill` was answered. */
    method Set(key: string, spec: AgentSpec, ghost fill: Fill)
      requires Valid() && key == SpecCacheKey(fill.tenant, fill.agent)
      requires fill.stored == Now(history) && Answered(history, fill, spec, unmarshal)
      modifies this`entries, this`fills
      ensures Valid() && fills == old(fills)[key := fill]
      ensures entries == old(entries)[key := Entry(spec, Now(history) + TTL)]
    {
      hide AllBacked, Answered;
      AllBackedWith(history, entries, fills, unmarshal, key, Entry(spec, Now(history) + TTL), fill);
      entries := entries[key := Entry(spec, Now(history) + TTL)];
      fills := fills[key := fill];
    }

    /** Everyone else: time, database updates, and the stores of other loads, each of a spec the database
        gave it for its own pair after it began. */
    method Others()
      requires Valid()
      modifies this
      ensures Valid() && old(history) <= history && Now(old(history)) <= Now(history)
      ensures budget <= old(budget)
      ensures budget == old(budget) ==> history == old(history) && entries == old(entries) && fills == old(fills)
    {
      while *
        invariant Valid() && old(history) <= history && Now(old(history)) <= Now(history)
        invariant budget <= old(budget)
        invariant budget == old(budget) ==> history == old(history) && entries == old(entries) && fills == old(fills)
        decreases budget
      {
        if budget == 0 {
          break;
        }
        budget := budget - 1;
        var next: Moment := *;
        var fill: Fill := *;
        var spec: AgentSpec := *;
        if next.time >= Now(history) {
          Advance(next);
        } else if fill.stored == Now(history) && Answered(history, fill, spec, unmarshal) {
          Set(SpecCacheKey(fill.tenant, fill.agent), spec, fill);
        }
      }
    }

    /** A hit was, for the pair it was filled for, the database's row less than a TTL and that load's duration
        ago; a miss means that nothing was stored under `key` within the TTL. */
    method Get(key: string) returns (r: Option<AgentSpec>)
      requires Valid()
      ensures r.Some? ==>
                && key in fills && key == SpecCacheKey(fills[key].tenant, fills[key].agent)
                && Answered(history, fills[key], r.value, unmarshal)
                && FreshEnough(history[fills[key].asked].time, Now(history), fills[key].stored - fills[key].began)
      ensures r == if Fresh(entries, Now(history), key) then Some(entries[key].spec) else None
      ensures r.None? ==> key in fills ==> fills[key].stored <= Now(history) - TTL
    {
      if key in entries && Now(history) < entries[key].expiresAt {
        assert Backed(history, key, entries[key], fills[key], unmarshal);
        StalenessBound(history, key, entries[key], fills[key], Now(history), unmarshal);
        return Some(entries[key].spec);
      }
      assert key in entries ==> Backed(history, key, entries[key], fills[key], unmarshal);
      return None;
    }

    /** One query, at one moment, and the decoding of its row. */
    method Query(tenantID: string, agentID: string) returns (r: LoadResult)
      requires history != []
      ensures r == Answer(history[|history| - 1].rows, tenantID, agentID, unmarshal) || (!databaseUp && r == QueryFails)
    {
      var fails: bool := *;
      if (fails && !databaseUp) || !IsUUIDLike(tenantID) || !IsUUIDLike(agentID) {
        return QueryFails;
      }
      var rows := history[|history| - 1].rows;
      if (tenantID, agentID) !in rows {
        return NoRow;
      }
      var spec := unmarshal(rows[(tenantID, agentID)]);
      if spec.None? {
        return BadRow;
      }
      return Loaded(spec.value);
    }

    /** Stores what the database has just answered, after whatever others do first. */
    method Keep(key: string, spec: AgentSpec, ghost asked: Fill) returns (ghost fill: Fill)
      requires Valid() && history != [] && asked.asked == |history| - 1 && asked.began <= Now(history)
      requires key == SpecCacheKey(asked.tenant, asked.agent)
      requires Answer(history[|history| - 1].rows, asked.tenant, asked.agent, unmarshal) == Loaded(spec)
      modifies this
      ensures Valid() && old(history) <= history && Now(old(history)) <= Now(history) && budget <= old(budget)
      ensures fill.tenant == asked.tenant && fill.agent == asked.agent && Answered(history, fill, spec, unmarshal)
      ensures FreshEnough(history[fill.asked].time, Now(history), fill.stored - fill.began)
      ensures Fresh(entries, Now(history), key) && entries[key].spec == spec
      ensures budget == old(budget) ==>
                history == old(history) && entries == old(entries)[key := Entry(spec, Now(history) + TTL)]
    {
      hide AllBacked, FreshEnough, Timeline, Answered, Answer;
      ghost var before := history;
      Others();
      fill := asked.(stored := Now(history));
      AnsweredNow(before, history, fill, spec, unmarshal);
      Set(key, spec, fill);
    }

    /** A miss: the database is asked, and what it answers is stored. */
    method Fetch(key: string, tenantID: string, agentID: string, began: int) returns (r: LoadResult, ghost fill: Fill)
      requires Valid() && history != [] && began <= Now(history) && key == SpecCacheKey(tenantID, agentID)
      modifies this
      ensures Valid() && old(history) <= history && Now(old(history)) <= Now(history) && budget <= old(budget)
      ensures r.Loaded? ==>
                && fill.tenant == tenantID && fill.agent == agentID && Answered(history, fill, r.spec, unmarshal)
                && FreshEnough(history[fill.asked].time, Now(history), fill.stored - fill.began)
                && Fresh(entries, Now(history), key) && entries[key].spec == r.spec
      ensures r.NoRow? || r.BadRow? ==> WasUnfit(history, |old(history)| - 1, tenantID, agentID, unmarshal, r)
      ensures r.QueryFails? && databaseUp ==> !IsUUIDLike(tenantID) || !IsUUIDLike(agentID)
      ensures budget == old(budget) ==>
                && history == old(history)
                && (databaseUp ==> r == Answer(history[|history| - 1].rows, tenantID, agentID, unmarshal))
                && entries == if r.Loaded? then old(entries)[key := Entry(r.spec, Now(history) + TTL)] else old(entries)
    {
      hide AllBacked, SpecCacheKey, FreshEnough, Timeline, Answered, Answer, WasUnfit;
      fill := Fill(tenantID, agentID, 0, began, 0);
      Others();
      fill := fill.(asked := |history| - 1);
      r := Query(tenantID, agentID);
      Answering(history, |old(history)| - 1, tenantID, agentID, unmarshal);
      if r.Loaded? {
        fill := Keep(key, r.spec, fill);
      }
    }

    /** A spec from the cache or from the database.  What is returned is a row the database held for exactly
        the asked pair, less than a TTL and the filling load's duration ago, and is in the cache afterwards; a
        valid entry is always used, so only a load that asked the database itself fails.  `seen` is what the
        load found when it looked. */
    method LoadSpecByAgentID(tenantID: string, agentID: string)
      returns (r: LoadResult, ghost fill: Fill, ghost seen: Sight)
      requires Valid()
      modifies this
      ensures Valid() && old(history) <= history
      ensures r.Loaded? ==>
                && fill.tenant == tenantID && fill.agent == agentID && Answered(history, fill, r.spec, unmarshal)
                && FreshEnough(history[fill.asked].time, Now(history), fill.stored - fill.began)
      ensures r.NoRow? || r.BadRow? ==> WasUnfit(history, |old(history)| - 1, tenantID, agentID, unmarshal, r)
      // a valid entry is used, and what was loaded is one
      ensures var key := SpecCacheKey(tenantID, agentID);
              && (Fresh(seen.entries, seen.now, key) ==> r == Loaded(seen.entries[key].spec) && entries == seen.entries)
              && (r.Loaded? ==> Fresh(entries, Now(history), key) && entries[key].spec == r.spec)
      ensures Now(old(history)) <= seen.now <= Now(history)
      ensures r.QueryFails? && databaseUp ==> !IsUUIDLike(tenantID) || !IsUUIDLike(agentID)
      // undisturbed, the result and the cache are decided by what was there
      ensures budget == old(budget) ==>
                var (key, now) := (SpecCacheKey(tenantID, agentID), Now(history));
                && history == old(history) && seen == Sight(old(entries), now)
                && (databaseUp ==>
                      r == if Fresh(old(entries), now, key) then Loaded(old(entries)[key].spec)
                           else Answer(history[|history| - 1].rows, tenantID, agentID, unmarshal))
                && entries == if r.Loaded? && !Fresh(old(entries), now, key)
                              then old(entries)[key := Entry(r.spec, now + TTL)] else old(entries)
    {
      hide AllBacked, SpecCacheKey, FreshEnough, Timeline, Answered, NoColon, Answer, WasUnfit;
      ghost var start := history;
      Begun(history);
      var began := Now(history);
      var key := SpecCacheKey(tenantID, agentID);
      Others();
      seen := Sight(entries, Now(history));
      var cached := Get(key);
      if cached.Some? {
        fill := fills[key];
        OwnAnswer(history, fill, cached.value, unmarshal, tenantID, agentID);
        return Loaded(cached.value), fill, seen;
      }
      ghost var looked := history;
      r, fill := Fetch(key, tenantID, agentID, began);
      WasUnfitSince(history, |start| - 1, |looked| - 1, tenantID, agentID, unmarshal, r);
    }
  }
}
