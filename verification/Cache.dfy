/**
 The cache in front of the management store: `TTLCache` (cache.py), and `CachedManagement` (storage.py),
 which clears it after every write of keys or upstreams.

 Times are integers. A load is a task that reads the store once, at some moment after it started.
 */
module Cache {
  import opened Basics

  datatype Slot<K> = Slot(key: K, expires: int, task: nat)

  predicate DistinctKeys<K(==)>(s: seq<Slot<K>>) {
    forall i, j :: 0 <= i < j < |s| ==> s[i].key != s[j].key
  }

  /** The position of a key, or the length. */
  function Find<K(==)>(s: seq<Slot<K>>, key: K, from: nat): (i: nat)
    requires from <= |s|
    ensures from <= i <= |s| && (i < |s| ==> s[i].key == key)
    ensures forall j :: from <= j < i ==> s[j].key != key
    decreases |s| - from
  {
    if from == |s| || s[from].key == key then from else Find(s, key, from + 1)
  }

  function Without<K(==)>(s: seq<Slot<K>>, key: K): seq<Slot<K>> {
    var i := Find(s, key, 0);
    if i == |s| then s else s[..i] + s[i + 1..]
  }

  predicate Live<K(==)>(s: seq<Slot<K>>, key: K, now: int) {
    var i := Find(s, key, 0);
    i < |s| && s[i].expires > now
  }

  function Newest<K>(s: seq<Slot<K>>, capacity: nat): seq<Slot<K>> {
    if |s| <= capacity then s else s[|s| - capacity..]
  }

  /** The slot a lookup ends with: the one there if it is live, else one for the load it starts. */
  function Chosen<K(==)>(s: seq<Slot<K>>, key: K, now: int, ttl: nat, task: nat): Slot<K> {
    if Live(s, key, now) then s[Find(s, key, 0)] else Slot(key, now + ttl, task)
  }

  /** The cache after a lookup: the key it looked up comes last, and the least recently used are gone. */
  function Looked<K(==)>(s: seq<Slot<K>>, key: K, now: int, ttl: nat, capacity: nat, task: nat): seq<Slot<K>> {
    Newest(Without(s, key) + [Chosen(s, key, now, ttl, task)], capacity)
  }

  class TTLCache<K(==)> {
    const ttl: nat
    const capacity: nat
    var entries: seq<Slot<K>>

    /** The order of the entries is the order of their last lookups. */
    ghost predicate Valid()
      reads this
    {
      capacity > 0 && |entries| <= capacity && DistinctKeys(entries)
    }

    constructor (ttl: nat, capacity: nat)
      requires capacity > 0
      ensures Valid() && entries == [] && this.ttl == ttl && this.capacity == capacity
    {
      this.ttl, this.capacity, entries := ttl, capacity, [];
    }

    /** The part of `get` before it awaits; `task` names the load it would start. */
    method Get(key: K, now: int, task: nat) returns (slot: Slot<K>, started: bool)
      requires Valid()
      modifies this
      ensures Valid() && entries == Looked(old(entries), key, now, ttl, capacity, task)
      ensures slot == Chosen(old(entries), key, now, ttl, task) == Last(entries)
      ensures started <==> !Live(old(entries), key, now)
    {
      ghost var was := entries;
      var i := Find(entries, key, 0);
      started := i == |entries| || entries[i].expires <= now;
      if started {
        slot := Slot(key, now + ttl, task);
        entries := if i == |entries| then entries + [slot] else entries[i := slot];
        ghost var all := entries;
        ghost var n := 0;
        while |entries| > capacity
          invariant n <= |all| && entries == all[n..]
          invariant n > 0 ==> |entries| >= capacity
        {
          entries, n := entries[1..], n + 1;
        }
        assert entries == Newest(all, capacity);
      } else {
        slot := entries[i];
      }
      LookedKeeps(was, key, now, ttl, capacity, task);
      MovesToEnd(was, slot, capacity);
      entries := Without(entries, key) + [slot];
    }

    /** A load failed: its entry goes, unless a newer one has taken its place. */
    method Forget(failed: Slot<K>)
      requires Valid()
      modifies this
      ensures Valid() && entries == if failed in old(entries) then Without(old(entries), failed.key) else old(entries)
    {
      WithoutKeeps(entries, failed.key);
      var i := Find(entries, failed.key, 0);
      if i < |entries| && entries[i] == failed {
        entries := Without(entries, failed.key);
      }
    }

    method Clear()
      requires Valid()
      modifies this
      ensures Valid() && entries == []
    {
      entries := [];
    }
  }

  lemma WithoutKeeps<K>(s: seq<Slot<K>>, key: K)
    requires DistinctKeys(s)
    ensures DistinctKeys(Without(s, key)) && |Without(s, key)| <= |s|
    ensures forall i :: 0 <= i < |Without(s, key)| ==> Without(s, key)[i].key != key && Without(s, key)[i] in s
  {
    var i := Find(s, key, 0);
    if i < |s| {
      var t := Without(s, key);
      assert forall j :: 0 <= j < |t| ==> t[j] == s[if j < i then j else j + 1];
    }
  }

  lemma LookedKeeps<K>(s: seq<Slot<K>>, key: K, now: int, ttl: nat, capacity: nat, task: nat)
    requires DistinctKeys(s) && capacity > 0
    ensures var t := Looked(s, key, now, ttl, capacity, task);
            DistinctKeys(t) && 0 < |t| <= capacity && Last(t) == Chosen(s, key, now, ttl, task)
  {
    hide Find;
    WithoutKeeps(s, key);
  }

  lemma ReplacedMoves<K>(s: seq<Slot<K>>, slot: Slot<K>)
    requires Find(s, slot.key, 0) < |s|
    ensures Without(s[Find(s, slot.key, 0) := slot], slot.key) == Without(s, slot.key)
  {
    hide Find;
    var i := Find(s, slot.key, 0);
    var t := s[i := slot];
    assert forall j :: 0 <= j < i ==> t[j] == s[j];
    FindIs(t, slot.key, i);
    assert t[..i] == s[..i] && t[i + 1..] == s[i + 1..];
  }

  lemma AppendedStays<K>(t: seq<Slot<K>>, slot: Slot<K>)
    requires t != [] && Last(t) == slot && forall j :: 0 <= j < |t| - 1 ==> t[j].key != slot.key
    ensures Without(t, slot.key) + [slot] == t
  {
    hide Find;
    FindIs(t, slot.key, |t| - 1);
    assert t == t[..|t| - 1] + t[|t|..] + [slot];
  }

  /** Replacing in place or appending, evicting, then moving the key to the end. */
  lemma MovesToEnd<K>(s: seq<Slot<K>>, slot: Slot<K>, capacity: nat)
    requires DistinctKeys(s) && |s| <= capacity && capacity > 0
    ensures var i := Find(s, slot.key, 0);
            var t := Newest(if i == |s| then s + [slot] else s[i := slot], capacity);
            Without(t, slot.key) + [slot] == Newest(Without(s, slot.key) + [slot], capacity)
  {
    hide Find;
    var i := Find(s, slot.key, 0);
    if i < |s| {
      ReplacedMoves(s, slot);
    } else {
      hide DistinctKeys;
      var all := s + [slot];
      var t := Newest(all, capacity);
      assert t == if |s| < capacity then all else all[1..];
      AppendedStays(t, slot);
    }
  }

  lemma FindIs<K>(t: seq<Slot<K>>, key: K, i: nat)
    requires i < |t| && t[i].key == key && forall j :: 0 <= j < i ==> t[j].key != key
    ensures Find(t, key, 0) == i
  {
    hide Find;
  }

  // ---------------------------------------------------------------- the store behind it

  /** A load: its key, how many writes had committed and what time it was when it started, and, once it has
      read the store, how many writes it saw. */
  datatype Load = Load(key: nat, commits: nat, time: int, saw: Option<nat>)
  /** A cached read: its key, the load it shares, when it began, and the last write that had returned by then. */
  datatype Reading = Reading(key: nat, task: nat, time: int, returned: nat)

  /** `commits` counts writes of keys and upstreams committed so far; `returned` is the latest of those
      whose `save` or `delete` has returned, `open` those that have committed and not returned. */
  datatype State = State(entries: seq<Slot<nat>>, loads: seq<Load>, readings: seq<Reading>, commits: nat, returned: nat,
                         open: set<nat>, now: int)

  datatype Event =
    | Tick(later: nat)
    | Get(key: nat)
    | Read(task: nat)
    | Fail(slot: Slot<nat>)
    | Commit
    | Return(write: nat)

  function Start(now: int): State {
    State([], [], [], 0, 0, {}, now)
  }

  predicate Enabled(s: State, e: Event) {
    match e
    case Read(task) => task < |s.loads| && s.loads[task].saw.None?
    case Return(write) => write in s.open
    case _ => true
  }

  function Step(s: State, e: Event, ttl: nat, capacity: nat): State
    requires Enabled(s, e)
  {
    match e
    case Tick(later) => s.(now := s.now + later)
    case Get(key) =>
      var slot := Chosen(s.entries, key, s.now, ttl, |s.loads|);
      s.(entries := Looked(s.entries, key, s.now, ttl, capacity, |s.loads|),
         loads := if Live(s.entries, key, s.now) then s.loads else s.loads + [Load(key, s.commits, s.now, None)],
         readings := s.readings + [Reading(key, slot.task, s.now, s.returned)])
    case Read(task) => s.(loads := s.loads[task := s.loads[task].(saw := Some(s.commits))])
    case Fail(slot) => s.(entries := if slot in s.entries then Without(s.entries, slot.key) else s.entries)
    case Commit => s.(commits := s.commits + 1, open := s.open + {s.commits + 1})
    case Return(write) => s.(entries := [], open := s.open - {write}, returned := Max(s.returned, write))
  }

  predicate Runs(s: State, events: seq<Event>, ttl: nat, capacity: nat)
    decreases |events|
  {
    events == [] || (Enabled(s, events[0]) && Runs(Step(s, events[0], ttl, capacity), events[1..], ttl, capacity))
  }

  function Outcome(s: State, events: seq<Event>, ttl: nat, capacity: nat): State
    requires Runs(s, events, ttl, capacity)
    decreases |events|
  {
    if events == [] then s else Outcome(Step(s, events[0], ttl, capacity), events[1..], ttl, capacity)
  }

  /** An entry's load is for its key, started after every write that has returned, and `ttl` before it expires. */
  ghost predicate EntryOk(s: State, slot: Slot<nat>, ttl: nat) {
    && slot.task < |s.loads|
    && s.loads[slot.task].key == slot.key && s.loads[slot.task].commits >= s.returned
    && slot.expires == s.loads[slot.task].time + ttl
  }

  /** A read shares a load started after every write that had returned when it began, and not before
      `ttl` ago; so what it answers with includes those writes. */
  ghost predicate ReadingOk(s: State, r: Reading, ttl: nat) {
    && r.task < |s.loads|
    && var l := s.loads[r.task];
       && l.key == r.key && l.commits >= r.returned
       && (l.time == r.time || r.time < l.time + ttl)
       && (l.saw.Some? ==> l.saw.value >= r.returned)
  }

  ghost predicate Inv(s: State, ttl: nat, capacity: nat) {
    && DistinctKeys(s.entries) && |s.entries| <= capacity
    && s.returned <= s.commits
    && (forall w :: w in s.open ==> w <= s.commits)
    && (forall i :: 0 <= i < |s.loads| ==> s.loads[i].commits <= s.commits
                                           && (s.loads[i].saw.Some? ==> s.loads[i].saw.value >= s.loads[i].commits))
    && (forall i :: 0 <= i < |s.entries| ==> EntryOk(s, s.entries[i], ttl))
    && (forall i :: 0 <= i < |s.readings| ==> ReadingOk(s, s.readings[i], ttl))
  }

  /** What a lookup leaves: entries that were there, and the one it chose. */
  lemma LookedFrom<K>(s: seq<Slot<K>>, key: K, now: int, ttl: nat, capacity: nat, task: nat, x: Slot<K>)
    requires DistinctKeys(s) && x in Looked(s, key, now, ttl, capacity, task)
    ensures x in s || x == Chosen(s, key, now, ttl, task)
  {
    hide Find, Chosen;
    WithoutKeeps(s, key);
    var all := Without(s, key) + [Chosen(s, key, now, ttl, task)];
    assert x in all;
  }

  lemma GetEntries(s: State, key: nat, ttl: nat, capacity: nat, x: Slot<nat>)
    requires Inv(s, ttl, capacity) && capacity > 0 && x in Step(s, Get(key), ttl, capacity).entries
    ensures EntryOk(Step(s, Get(key), ttl, capacity), x, ttl)
  {
    hide Find, Looked;
    LookedFrom(s.entries, key, s.now, ttl, capacity, |s.loads|, x);
    if x in s.entries {
      assert EntryOk(s, x, ttl);
    }
  }

  lemma ChosenOk(s: State, key: nat, ttl: nat, capacity: nat)
    requires Inv(s, ttl, capacity) && capacity > 0
    ensures var t := Step(s, Get(key), ttl, capacity); ReadingOk(t, Last(t.readings), ttl)
  {
    hide Find, Looked;
    if Live(s.entries, key, s.now) {
      assert EntryOk(s, s.entries[Find(s.entries, key, 0)], ttl);
    }
  }

  lemma GetKeeps(s: State, key: nat, ttl: nat, capacity: nat)
    requires Inv(s, ttl, capacity) && capacity > 0
    ensures Inv(Step(s, Get(key), ttl, capacity), ttl, capacity)
  {
    hide Find, Looked, Chosen, Live;
    var t := Step(s, Get(key), ttl, capacity);
    LookedKeeps(s.entries, key, s.now, ttl, capacity, |s.loads|);
    forall i | 0 <= i < |t.entries| ensures EntryOk(t, t.entries[i], ttl) {
      GetEntries(s, key, ttl, capacity, t.entries[i]);
    }
    ChosenOk(s, key, ttl, capacity);
    forall i | 0 <= i < |t.readings| ensures ReadingOk(t, t.readings[i], ttl) {
      if i < |s.readings| { assert ReadingOk(s, s.readings[i], ttl); }
    }
  }

  lemma StepKeeps(s: State, e: Event, ttl: nat, capacity: nat)
    requires Inv(s, ttl, capacity) && capacity > 0 && Enabled(s, e)
    ensures Inv(Step(s, e, ttl, capacity), ttl, capacity)
  {
    if e.Get? {
      GetKeeps(s, e.key, ttl, capacity);
    } else {
      hide Looked, Find, Chosen, Live;
      var t := Step(s, e, ttl, capacity);
      if e.Fail? {
        WithoutKeeps(s.entries, e.slot.key);
      }
      forall i | 0 <= i < |t.entries| ensures EntryOk(t, t.entries[i], ttl) {
        assert t.entries[i] in s.entries;
      }
      forall i | 0 <= i < |t.readings| ensures ReadingOk(t, t.readings[i], ttl) {
        assert ReadingOk(s, s.readings[i], ttl);
      }
    }
  }

  lemma {:induction false} RunsKeep(s: State, events: seq<Event>, ttl: nat, capacity: nat)
    requires Inv(s, ttl, capacity) && capacity > 0 && Runs(s, events, ttl, capacity)
    ensures Inv(Outcome(s, events, ttl, capacity), ttl, capacity)
    decreases |events|
  {
    hide Inv, Step, Enabled;
    if events != [] {
      StepKeeps(s, events[0], ttl, capacity);
      RunsKeep(Step(s, events[0], ttl, capacity), events[1..], ttl, capacity);
    }
  }

  /** In every run: a cached read shares a load started after each write that had returned when it began,
      so it answers with a state that includes them, and never with one older than the time to live. */
  lemma ReadsFollowWrites(now: int, events: seq<Event>, ttl: nat, capacity: nat, i: nat)
    requires capacity > 0 && Runs(Start(now), events, ttl, capacity)
    requires i < |Outcome(Start(now), events, ttl, capacity).readings|
    ensures var s := Outcome(Start(now), events, ttl, capacity); ReadingOk(s, s.readings[i], ttl)
    ensures |Outcome(Start(now), events, ttl, capacity).entries| <= capacity
  {
    hide Runs, Outcome, Step, Enabled, ReadingOk;
    assert Inv(Start(now), ttl, capacity);
    RunsKeep(Start(now), events, ttl, capacity);
  }

  // ---------------------------------------------------------------- sharing, order and failed loads

  lemma LiveIs<K>(s: seq<Slot<K>>, key: K, now: int, i: nat)
    requires DistinctKeys(s) && i < |s| && s[i].key == key
    ensures Find(s, key, 0) == i && (Live(s, key, now) <==> now < s[i].expires)
  {
    FindIs(s, key, i);
  }

  /** In every run: a read of a key that is present shares its load exactly while that is younger than the time to
      live; otherwise, and for a key that is absent, it starts one. */
  lemma PresentKeysShare(now: int, events: seq<Event>, ttl: nat, capacity: nat, s: State, key: nat, i: nat)
    requires capacity > 0 && Runs(Start(now), events, ttl, capacity) && s == Outcome(Start(now), events, ttl, capacity)
    requires i <= |s.entries| && (i < |s.entries| ==> s.entries[i].key == key)
    requires i == |s.entries| ==> forall j :: 0 <= j < |s.entries| ==> s.entries[j].key != key
    ensures var t := Step(s, Get(key), ttl, capacity);
            && t.readings != [] && (i < |s.entries| ==> s.entries[i].task < |s.loads|)
            && if i < |s.entries| && s.now < s.loads[s.entries[i].task].time + ttl
               then t.loads == s.loads && Last(t.readings).task == s.entries[i].task
               else t.loads == s.loads + [Load(key, s.commits, s.now, None)] && Last(t.readings).task == |s.loads|
  {
    hide Runs, Outcome, Looked;
    assert Inv(Start(now), ttl, capacity);
    RunsKeep(Start(now), events, ttl, capacity);
    if i < |s.entries| {
      assert EntryOk(s, s.entries[i], ttl);
      LiveIs(s.entries, key, s.now, i);
    }
  }

  lemma NewestAppended<K>(rest: seq<Slot<K>>, slot: Slot<K>, capacity: nat)
    requires |rest| <= capacity && capacity > 0
    ensures var t := Newest(rest + [slot], capacity);
            t != [] && Last(t) == slot && t[..|t| - 1] == if |rest| < capacity then rest else rest[1..]
  {
    var t := Newest(rest + [slot], capacity);
    assert t == (if |rest| < capacity then rest else rest[1..]) + [slot];
  }

  /** A lookup moves its key to the end, keeps the others in order, and evicts at most the one whose last lookup
      is longest ago, and only for a new key in a full cache. */
  lemma LookupOrder<K>(s: seq<Slot<K>>, key: K, now: int, ttl: nat, capacity: nat, task: nat, i: nat)
    requires DistinctKeys(s) && |s| <= capacity && capacity > 0 && i <= |s|
    requires if i < |s| then s[i].key == key else forall j :: 0 <= j < |s| ==> s[j].key != key
    ensures var t := Looked(s, key, now, ttl, capacity, task);
            && t != [] && Last(t).key == key
            && t[..|t| - 1] == (if i < |s| then s[..i] + s[i + 1..] else if |s| < capacity then s else s[1..])
            && (i < |s| && now < s[i].expires ==> Last(t) == s[i])
            && (i == |s| || now >= s[i].expires ==> Last(t) == Slot(key, now + ttl, task))
  {
    hide Find, Newest, DistinctKeys;
    var slot := Chosen(s, key, now, ttl, task);
    if i < |s| {
      LiveIs(s, key, now, i);
      NewestAppended(s[..i] + s[i + 1..], slot, capacity);
    } else {
      NewestAppended(s, slot, capacity);
    }
  }

  /** A failed load is not kept: the next read of its key starts another. A newer entry for the key stays. */
  lemma FailedLoadsGo(s: State, slot: Slot<nat>, ttl: nat, capacity: nat)
    requires Inv(s, ttl, capacity) && capacity > 0
    ensures var t := Step(s, Fail(slot), ttl, capacity);
            && (slot in s.entries ==> !Live(t.entries, slot.key, s.now) && forall x :: x in t.entries ==> x.key != slot.key)
            && (slot !in s.entries ==> t == s)
            && (forall x :: x in s.entries && x.key != slot.key ==> x in t.entries)
  {
    hide Find;
    WithoutKeeps(s.entries, slot.key);
    var i := Find(s.entries, slot.key, 0);
    if i < |s.entries| {
      assert s.entries == s.entries[..i] + [s.entries[i]] + s.entries[i + 1..];
    }
  }
}
