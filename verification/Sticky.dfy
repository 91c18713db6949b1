/** The bounded table of run pins (internal/router/sticky.go) and the history it stands for. */
module Sticky {
  import opened Options
  import Sets

  const MAX_ENTRIES := 256

  datatype Entry = Entry(provider: string, lastUsed: int)

  type Table = map<string, Entry>

  /** What callers saw, in order: a pin set, a pin found or a pin missing. */
  datatype Event = Pinned(key: string, provider: string, at: int) | Found(key: string, at: int) | Missed(key: string)

  // ---------------------------------------------------------------- what the table does

  ghost predicate Oldest(t: Table, key: string) {
    key in t && forall k | k in t :: t[key].lastUsed <= t[k].lastUsed
  }

  /** The table after making room for key: one entry with the oldest use goes when a new key meets a full table. */
  ghost predicate MakesRoom(t: Table, key: string, u: Table) {
    if key !in t && |t| >= MAX_ENTRIES then exists k :: Oldest(t, k) && u == t - {k} else u == t
  }

  ghost predicate Step(t: Table, e: Event, u: Table) {
    match e
    case Missed(key) => key !in t && u == t
    case Found(key, at) => key in t && u == t[key := t[key].(lastUsed := at)]
    case Pinned(key, provider, at) =>
      key != "" && provider != "" && exists v: Table {:trigger MakesRoom(t, key, v)} ::
        MakesRoom(t, key, v) && u == v[key := Entry(provider, at)]
  }

  /** t can be the table after these events. */
  ghost predicate Reaches(log: seq<Event>, t: Table) {
    if log == [] then t == map[]
    else
      exists s: Table {:trigger Step(s, log[|log| - 1], t)} ::
        Reaches(log[..|log| - 1], s) && Step(s, log[|log| - 1], t)
  }

  // ---------------------------------------------------------------- what the history says

  /** Other keys pinned or found since key was. */
  function Others(log: seq<Event>, key: string): set<string> {
    if log == [] then {}
    else
      var front, e := log[..|log| - 1], log[|log| - 1];
      if e.Missed? then Others(front, key) else if e.key == key then {} else Others(front, key) + {e.key}
  }

  /** The provider key is pinned to: the one pinned last, until 256 other keys were used in between uses of key. */
  function Holds(log: seq<Event>, key: string): string {
    if log == [] then ""
    else
      var front, e := log[..|log| - 1], log[|log| - 1];
      if e.Pinned? && e.key == key then e.provider
      else if |Others(log, key)| >= MAX_ENTRIES then ""
      else Holds(front, key)
  }

  /** The key e uses: a pin or a hit uses its key, a miss uses none. */
  predicate Uses(e: Event, key: string) { !e.Missed? && e.key == key }

  /** Another key counts exactly when it was used and key was not used after that. */
  lemma {:induction false} OthersAre(log: seq<Event>, key: string, other: string)
    ensures other in Others(log, key) <==>
            other != key && exists i | 0 <= i < |log| ::
              Uses(log[i], other) && forall j | i < j < |log| :: !Uses(log[j], key)
  {
    if log != [] {
      var n := |log| - 1;
      OthersAre(log[..n], key, other);
      if i :| 0 <= i < |log| && Uses(log[i], other) && forall j | i < j < |log| :: !Uses(log[j], key) {
        if i < n { assert log[..n][i] == log[i] && forall j | i < j < n :: log[..n][j] == log[j]; }
      }
      if i :| 0 <= i < n && Uses(log[..n][i], other) && forall j | i < j < n :: !Uses(log[..n][j], key) {
        assert log[i] == log[..n][i] && forall j | i < j < n :: log[j] == log[..n][j];
      }
    }
  }

  /** What asking for a key adds to the history. */
  function UseOf(t: Table, key: string, at: int): seq<Event> {
    if key == "" then [] else if key in t then [Found(key, at)] else [Missed(key)]
  }

  function Lookup(t: Table, key: string): string { if key in t then t[key].provider else "" }

  function Latest(log: seq<Event>): (at: Option<int>) {
    if log == [] then None
    else if log[|log| - 1].Missed? then Latest(log[..|log| - 1]) else Some(log[|log| - 1].at)
  }

  /** Every use is later than the ones before it. */
  predicate Clocked(log: seq<Event>) {
    log == [] ||
    var front, e := log[..|log| - 1], log[|log| - 1];
    Clocked(front) && (e.Missed? || Latest(front).None? || Latest(front).value < e.at)
  }

  // ---------------------------------------------------------------- the table is the history

  ghost predicate Bounded(t: Table) { |t| <= MAX_ENTRIES && "" !in t && forall k | k in t :: t[k].provider != "" }

  lemma {:induction false} TableIsBounded(log: seq<Event>, t: Table)
    requires Reaches(log, t)
    ensures Bounded(t) && |t| <= 256
  {
    if log != [] {
      var s :| Reaches(log[..|log| - 1], s) && Step(s, log[|log| - 1], t);
      TableIsBounded(log[..|log| - 1], s);
      StepIsBounded(s, log[|log| - 1], t);
    }
  }

  lemma StepIsBounded(t: Table, e: Event, u: Table)
    requires Bounded(t) && Step(t, e, u)
    ensures Bounded(u)
  {
    match e
    case Missed(_) =>
    case Found(key, at) => assert u.Keys == t.Keys;
    case Pinned(key, provider, at) =>
      var v: Table :| MakesRoom(t, key, v) && u == v[key := Entry(provider, at)];
      RoomIsMade(t, key, v);
      hide MakesRoom;
      if key in t { KeysAfter(v, key, Entry(provider, at)); }
      PutIsBounded(v, key, Entry(provider, at), key in v);
  }

  lemma KeysAfter(v: Table, key: string, e: Entry)
    ensures v[key := e].Keys == v.Keys + {key} && |v[key := e]| == |v.Keys + {key}|
  {
    assert |v[key := e].Keys| == |v[key := e]|;
  }

  lemma PutIsBounded(v: Table, key: string, e: Entry, there: bool)
    requires |v| <= MAX_ENTRIES && there == (key in v) && (!there ==> |v| < MAX_ENTRIES)
    requires "" !in v && (forall k | k in v :: v[k].provider != "") && key != "" && e.provider != ""
    ensures Bounded(v[key := e])
  {
    KeysAfter(v, key, e);
    assert |v.Keys| == |v|;
    if there { assert v.Keys + {key} == v.Keys; }
  }

  lemma RoomIsMade(t: Table, key: string, v: Table)
    requires |t| <= MAX_ENTRIES && MakesRoom(t, key, v)
    ensures |v| <= MAX_ENTRIES && (key !in t ==> |v| < MAX_ENTRIES && key !in v)
    ensures forall k | k in v :: k in t && v[k] == t[k]
  {
    if key !in t && |t| >= MAX_ENTRIES {
      var k :| Oldest(t, k) && v == t - {k};
      assert v.Keys == t.Keys - {k};
    }
  }

  /** Keys used after key was, according to the table. */
  function Newer(t: Table, key: string): set<string>
    requires key in t
  {
    set k | k in t && t[k].lastUsed > t[key].lastUsed
  }

  ghost predicate UpTo(t: Table, at: Option<int>) { forall k | k in t :: at.Some? && t[k].lastUsed <= at.value }

  ghost predicate Distinct(t: Table) { forall j, k | j in t && k in t && j != k :: t[j].lastUsed != t[k].lastUsed }

  ghost predicate Agrees(log: seq<Event>, t: Table, key: string) {
    Holds(log, key) == Lookup(t, key) && (key in t ==> Others(log, key) == Newer(t, key))
  }

  ghost predicate Mirrors(log: seq<Event>, t: Table) {
    Bounded(t) && UpTo(t, Latest(log)) && Distinct(t) && forall key :: Agrees(log, t, key)
  }

  /** On a strictly increasing clock the bounded table answers exactly as the whole history would. */
  lemma {:induction false} TableIsHistory(log: seq<Event>, t: Table)
    requires Reaches(log, t) && Clocked(log)
    ensures Mirrors(log, t)
  {
    if log != [] {
      var front, e := log[..|log| - 1], log[|log| - 1];
      var s :| Reaches(front, s) && Step(s, e, t);
      TableIsHistory(front, s);
      assert log == front + [e];
      hide *;
      MirrorStep(front, e, s, t);
    }
  }

  lemma HoldsNext(log: seq<Event>, e: Event, key: string)
    ensures Holds(log + [e], key)
         == if e.Pinned? && e.key == key then e.provider
            else if |Others(log + [e], key)| >= MAX_ENTRIES then "" else Holds(log, key)
    ensures Others(log + [e], key)
         == if e.Missed? then Others(log, key) else if e.key == key then {} else Others(log, key) + {e.key}
  {
    assert (log + [e])[..|log|] == log;
  }

  lemma ClockNext(log: seq<Event>, e: Event)
    requires Clocked(log + [e])
    ensures Latest(log + [e]) == if e.Missed? then Latest(log) else Some(e.at)
    ensures !e.Missed? ==> Latest(log).None? || Latest(log).value < e.at
  {
    assert (log + [e])[..|log|] == log;
  }

  lemma FewNewer(t: Table, key: string)
    requires key in t && |t| <= MAX_ENTRIES
    ensures |Newer(t, key)| < MAX_ENTRIES
  {
    assert |t.Keys| == |t|;
    Sets.SubsetSize(Newer(t, key), t.Keys - {key});
  }

  /** A use of k, new or old, puts k in front of every other key. */
  lemma Used(t: Table, k: string, v: Table, p: string, at: int, u: Table)
    requires MakesRoom(t, k, v) && u == v[k := Entry(p, at)] && |t| <= MAX_ENTRIES
    requires Distinct(t) && forall j | j in t :: t[j].lastUsed < at
    ensures UpTo(u, Some(at)) && Distinct(u) && Newer(u, k) == {}
  {
    RoomIsMade(t, k, v);
    hide MakesRoom;
    forall j ensures j in u <==> j == k || j in v {}
  }

  lemma UsedOther(t: Table, k: string, v: Table, p: string, at: int, u: Table, key: string)
    requires MakesRoom(t, k, v) && u == v[k := Entry(p, at)] && |t| <= MAX_ENTRIES
    requires Distinct(t) && (forall j | j in t :: t[j].lastUsed < at) && key != k
    ensures key in u ==> key in t && u[key] == t[key] && Newer(u, key) == Newer(t, key) + {k}
    ensures key in t && key !in u ==> |Newer(t, key) + {k}| >= MAX_ENTRIES
  {
    OnlyOldestGoes(t, k, v);
    hide MakesRoom, Distinct, Newer;
    if key in t && key !in v { EveryoneIsNewer(t, key); }
    if key in u { OneMoreIsNewer(t, k, v, p, at, u, key); }
  }

  lemma OneMoreIsNewer(t: Table, k: string, v: Table, p: string, at: int, u: Table, key: string)
    requires u == v[k := Entry(p, at)] && key in u && key != k && (forall j | j in t :: t[j].lastUsed < at)
    requires forall j | j in t && j !in v :: Oldest(t, j)
    requires forall j | j in v :: j in t && v[j] == t[j]
    ensures Newer(u, key) == Newer(t, key) + {k}
  {
    forall j ensures j in Newer(u, key) <==> j in Newer(t, key) + {k} {
      assert j in t && j !in v ==> t[j].lastUsed <= t[key].lastUsed;
    }
  }

  lemma OnlyOldestGoes(t: Table, k: string, v: Table)
    requires MakesRoom(t, k, v)
    ensures forall j | j in t && j !in v :: Oldest(t, j) && |t| >= MAX_ENTRIES && k !in t
    ensures forall j | j in v :: j in t && v[j] == t[j]
  {
  }

  lemma EveryoneIsNewer(t: Table, key: string)
    requires Oldest(t, key) && Distinct(t)
    ensures |Newer(t, key)| == |t| - 1 && key !in Newer(t, key)
  {
    assert Newer(t, key) == t.Keys - {key};
    assert |t.Keys| == |t|;
  }

  lemma MirrorMiss(log: seq<Event>, key: string, t: Table)
    requires Mirrors(log, t) && Clocked(log + [Missed(key)])
    ensures Mirrors(log + [Missed(key)], t)
  {
    ClockNext(log, Missed(key));
    forall k ensures Agrees(log + [Missed(key)], t, k) {
      HoldsNext(log, Missed(key), k);
      assert Agrees(log, t, k);
      hide Holds, Others;
      if k in t { FewNewer(t, k); }
    }
    hide Agrees, Clocked, Latest;
  }

  lemma MirrorUse(log: seq<Event>, e: Event, t: Table, v: Table, p: string, u: Table)
    requires Mirrors(log, t) && Clocked(log + [e]) && !e.Missed? && Bounded(u)
    requires MakesRoom(t, e.key, v) && u == v[e.key := Entry(p, e.at)]
    requires if e.Pinned? then e.provider == p else e.key in t && t[e.key].provider == p
    ensures Mirrors(log + [e], u)
  {
    ClockNext(log, e);
    assert forall j | j in t :: t[j].lastUsed < e.at;
    Used(t, e.key, v, p, e.at, u);
    forall k ensures Agrees(log + [e], u, k) {
      HoldsNext(log, e, k);
      assert Agrees(log, t, k);
      hide Holds, Others;
      AgreesUse(log, e, t, v, p, u, k);
    }
    hide Agrees, Clocked, Latest;
  }

  lemma AgreesUse(log: seq<Event>, e: Event, t: Table, v: Table, p: string, u: Table, key: string)
    requires Agrees(log, t, key) && |t| <= MAX_ENTRIES && |u| <= MAX_ENTRIES && !e.Missed?
    requires MakesRoom(t, e.key, v) && u == v[e.key := Entry(p, e.at)]
    requires if e.Pinned? then e.provider == p else e.key in t && t[e.key].provider == p
    requires Distinct(t) && (forall j | j in t :: t[j].lastUsed < e.at) && Newer(u, e.key) == {}
    ensures Agrees(log + [e], u, key)
  {
    HoldsNext(log, e, key);
    hide Holds, Others;
    if key != e.key {
      UsedOther(t, e.key, v, p, e.at, u, key);
      if key in u { FewNewer(u, key); }
      RoomIsMade(t, e.key, v);
    }
  }

  lemma MirrorStep(log: seq<Event>, e: Event, t: Table, u: Table)
    requires Mirrors(log, t) && Step(t, e, u) && Clocked(log + [e])
    ensures Mirrors(log + [e], u)
  {
    assert Bounded(t);
    StepIsBounded(t, e, u);
    hide Clocked, Bounded, Mirrors;
    match e
    case Missed(key) => MirrorMiss(log, key, t);
    case Found(key, at) => MirrorUse(log, e, t, t, t[key].provider, u);
    case Pinned(key, p, at) =>
      var v: Table :| MakesRoom(t, key, v) && u == v[key := Entry(p, at)];
      MirrorUse(log, e, t, v, p, u);
  }

  /** After a pin, with no later pin of the same key, it holds exactly as long as fewer than 256 other keys
      have been used since the key's own latest use. */
  lemma {:induction false} HoldsUntilCrowdedOut(log: seq<Event>, n: nat, key: string)
    requires n < |log| && log[n].Pinned? && log[n].key == key && log[n].provider != ""
    requires forall i | n < i < |log| :: !(log[i].Pinned? && log[i].key == key)
    ensures Holds(log, key) == log[n].provider <==> forall m | n < m <= |log| :: |Others(log[..m], key)| < 256
    ensures Holds(log, key) == log[n].provider || Holds(log, key) == ""
  {
    hide Holds, Others;
    var front, e := log[..|log| - 1], log[|log| - 1];
    assert log == front + [e] && log[..|log|] == log;
    HoldsNext(front, e, key);
    if n < |log| - 1 {
      HoldsUntilCrowdedOut(front, n, key);
      assert forall m | n < m <= |front| :: front[..m] == log[..m];
      assert |Others(log[..|log|], key)| == |Others(log, key)|;
    } else {
      assert |Others(log, key)| == 0;
      assert forall m | n < m <= |log| :: log[..m] == log;
    }
  }

  // ---------------------------------------------------------------- the store

  class StickyStore {
    var entries: Table
    ghost var log: seq<Event>

    ghost predicate Valid()
      reads this
    {
      Reaches(log, entries)
    }

    constructor ()
      ensures Valid() && log == [] && entries == map[]
    {
      entries := map[];
      log := [];
    }

    /** The pin of a key, whose use it then is. */
    method Get(key: string, now: int) returns (provider: string)
      requires Valid()
      modifies this
      ensures Valid() && provider == Lookup(old(entries), key)
      ensures log == old(log) + UseOf(old(entries), key, now)
    {
      TableIsBounded(log, entries);
      if key == "" {
        return "";
      }
      if key !in entries {
        Extends(log, Missed(key), entries, entries);
        log := log + [Missed(key)];
        return "";
      }
      var e := entries[key];
      Extends(log, Found(key, now), entries, entries[key := e.(lastUsed := now)]);
      log := log + [Found(key, now)];
      entries := entries[key := e.(lastUsed := now)];
      return e.provider;
    }

    method Set(key: string, provider: string, now: int)
      requires Valid()
      modifies this
      ensures Valid()
      ensures log == old(log) + if key == "" || provider == "" then [] else [Pinned(key, provider, now)]
    {
      if key == "" || provider == "" {
        return;
      }
      TableIsBounded(log, entries);
      ghost var before := entries;
      if key !in entries && |entries| >= MAX_ENTRIES {
        EvictOldest();
      }
      assert MakesRoom(before, key, entries);
      entries := entries[key := Entry(provider, now)];
      Extends(log, Pinned(key, provider, now), before, entries);
      log := log + [Pinned(key, provider, now)];
    }

    /** Removes an entry nobody's use is older than. */
    method EvictOldest()
      requires entries != map[] && "" !in entries
      modifies this`entries
      ensures exists k :: Oldest(old(entries), k) && entries == old(entries) - {k}
    {
      var oldestKey, oldestTime, first := "", 0, true;
      var todo := entries.Keys;
      NoKeys(entries);
      while todo != {}
        invariant entries == old(entries) && todo <= entries.Keys && (first <==> todo == entries.Keys)
        invariant !first ==> oldestKey in entries && oldestTime == entries[oldestKey].lastUsed
        invariant !first ==> forall k | k in entries.Keys - todo :: oldestTime <= entries[k].lastUsed
      {
        var k :| k in todo;
        todo := todo - {k};
        if first || entries[k].lastUsed < oldestTime {
          oldestKey, oldestTime, first := k, entries[k].lastUsed, false;
        }
      }
      assert forall k | k in entries :: k in entries.Keys - todo;
      assert Oldest(entries, oldestKey);
      if oldestKey != "" {
        entries := entries - {oldestKey};
      }
    }
  }

  lemma Extends(log: seq<Event>, e: Event, t: Table, u: Table)
    requires Reaches(log, t) && Step(t, e, u)
    ensures Reaches(log + [e], u)
  {
    var next := log + [e];
    assert next[..|log|] == log && Step(t, next[|next| - 1], u);
  }

  lemma NoKeys(t: Table)
    ensures t == map[] || exists k :: k in t.Keys
  {
    if forall k :: k !in t { assert t == map[]; }
  }
}
