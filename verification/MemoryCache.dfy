/** The in-memory cache: expiry on read, purge before eviction, least recently used first out. */
module MemoryCache {
  import opened Jobs
  import opened Sets

  type Key = string
  type Bytes = seq<bv8>

  datatype Entry = Entry(value: Bytes, expires: Option<int>, touched: int)

  type Cache = map<Key, Entry>

  const DEFAULT_MAX_ENTRIES := 10_000

  predicate Expired(e: Entry, now: int) {
    e.expires.Some? && now > e.expires.value
  }

  function Live(m: Cache, now: int): Cache {
    map k | k in m && !Expired(m[k], now) :: m[k]
  }

  function Fresh(value: Bytes, ttl: int, now: int): Entry {
    Entry(value, if ttl > 0 then Some(now + ttl) else None, now)
  }

  ghost predicate Submap(a: Cache, b: Cache) {
    forall k :: k in a ==> k in b && b[k] == a[k]
  }

  /** No discarded entry was used later than a kept one. */
  ghost predicate OldestFirst(all: Cache, kept: Cache) {
    forall g, k :: g in all && g !in kept && k in kept ==> all[g].touched <= kept[k].touched
  }

  /**
   What eviction may leave.  Within the limit nothing goes.  Otherwise everything expired goes, and live
   entries only if that was not enough, oldest first and no more than needed; it stops short of the limit
   only when the oldest key left is the empty string, which the scan cannot tell from "none found".
   */
  ghost predicate Evicts(m: Cache, now: int, limit: nat, m': Cache) {
    if |m| <= limit then m' == m
    else
      var live := Live(m, now);
      && Submap(m', live) && OldestFirst(live, m')
      && (|live| <= limit ==> m' == live)
      && (|live| > limit ==> |m'| >= limit)
      && ("" in live ==> "" in m')
      && (|m'| > limit ==> "" in m' && forall k :: k in m' ==> m'[""].touched <= m'[k].touched)
  }

  class Memory {
    var maxEntries: int
    var entries: Cache

    /** What every method keeps as long as no empty key is set. */
    ghost predicate Within()
      reads this
    {
      "" !in entries && |entries| <= if maxEntries > 0 then maxEntries else 10_000
    }

    constructor ()
      ensures entries == map[] && maxEntries == 0 && Within()
    {
      entries := map[];
      maxEntries := 0;
    }

    function Limit(): (n: nat)
      reads this
      ensures n > 0 && n == if maxEntries > 0 then maxEntries else 10_000
    {
      if maxEntries > 0 then maxEntries else DEFAULT_MAX_ENTRIES
    }

    method Get(key: Key, now: int) returns (value: Option<Bytes>)
      modifies this`entries
      ensures Step(old(entries), Op.Get(key), now, Limit(), entries)
      ensures value == Answer(old(entries), key, now)
      ensures old(Within()) ==> Within()
    {
      if key !in entries {
        return None;
      }
      KeptByGet(entries, key, now);
      var e := entries[key];
      if Expired(e, now) {
        entries := Without(entries, key);
        return None;
      }
      entries := entries[key := e.(touched := now)];
      value := Some(e.value);
    }

    method Set(key: Key, value: Bytes, ttl: int, now: int)
      modifies this`entries
      ensures Step(old(entries), Op.Set(key, value, ttl), now, Limit(), entries)
      ensures old(Within()) && key != "" ==> Within()
    {
      entries := entries[key := Entry(value, if ttl > 0 then Some(now + ttl) else None, now)];
      Evict(now);
    }

    method Delete(key: Key)
      modifies this`entries
      ensures entries == Without(old(entries), key)
      ensures old(Within()) ==> Within()
    {
      Subset(Without(entries, key).Keys, entries.Keys);
      entries := Without(entries, key);
    }

    method Clear()
      modifies this`entries
      ensures entries == map[] && Within()
    {
      entries := map[];
    }

    method Evict(now: int)
      modifies this`entries
      ensures Evicts(old(entries), now, Limit(), entries)
    {
      var limit := Limit();
      if |entries| <= limit {
        return;
      }
      Purge(now);
      ghost var live := entries;
      while |entries| > limit
        invariant Submap(entries, live) && OldestFirst(live, entries)
        invariant |live| > limit ==> |entries| >= limit
        invariant |live| <= limit ==> entries == live
        invariant "" in live ==> "" in entries
        decreases |entries|
      {
        var oldest := Oldest(entries);
        if oldest == "" {
          return;
        }
        SmallerWithout(entries, oldest);
        entries := Without(entries, oldest);
      }
    }

    /** Drops everything expired. */
    method Purge(now: int)
      modifies this`entries
      ensures entries == Live(old(entries), now)
    {
      var keys := entries.Keys;
      while keys != {}
        invariant keys <= entries.Keys
        invariant Submap(entries, old(entries))
        invariant forall k :: k in old(entries) && !Expired(old(entries)[k], now) ==> k in entries
        invariant forall k :: k in entries && k !in keys ==> !Expired(entries[k], now)
        decreases keys
      {
        var key :| key in keys;
        if Expired(entries[key], now) {
          entries := Without(entries, key);
        }
        keys := keys - {key};
      }
      assert entries == Live(old(entries), now);
    }
  }

  lemma KeptByGet(m: Cache, key: Key, now: int)
    requires key in m
    ensures |Without(m, key)| <= |m| && |m[key := m[key].(touched := now)]| == |m|
  {
    Subset(Without(m, key).Keys, m.Keys);
    assert m[key := m[key].(touched := now)].Keys == m.Keys;
  }

  /** The scan for the entry unused longest; "" also stands for finding none. */
  method Oldest(m: Cache) returns (oldestKey: Key)
    requires m != map[]
    ensures oldestKey in m && forall k :: k in m ==> m[oldestKey].touched <= m[k].touched
  {
    oldestKey := "";
    var oldest: Option<int> := None;
    var keys := m.Keys;
    while keys != {}
      invariant keys <= m.Keys
      invariant oldest.None? <==> keys == m.Keys
      invariant oldest.Some? ==> oldestKey in m && oldest.value == m[oldestKey].touched
      invariant oldest.Some? ==> forall k :: k in m && k !in keys ==> oldest.value <= m[k].touched
      decreases keys
    {
      var key :| key in keys;
      if oldest.None? || m[key].touched < oldest.value {
        oldestKey, oldest := key, Some(m[key].touched);
      }
      keys := keys - {key};
    }
  }

  lemma SmallerWithout(m: Cache, k: Key)
    requires k in m
    ensures |Without(m, k)| == |m| - 1
  {
    assert Without(m, k).Keys == m.Keys - {k};
  }

  // ---- one operation, and the ideal store it must agree with ----

  datatype Op = Get(key: Key) | Set(key: Key, value: Bytes, ttl: int) | Delete(key: Key) | Clear

  function Answer(m: Cache, key: Key, now: int): Option<Bytes> {
    if key in m && !Expired(m[key], now) then Some(m[key].value) else None
  }

  ghost predicate Step(m: Cache, op: Op, now: int, limit: nat, m': Cache) {
    match op
    case Get(key) =>
      m' == if key !in m then m else if Expired(m[key], now) then Without(m, key) else m[key := m[key].(touched := now)]
    case Set(key, value, ttl) => Evicts(m[key := Fresh(value, ttl, now)], now, limit, m')
    case Delete(key) => m' == Without(m, key)
    case Clear => m' == map[]
  }

  /** A store that never evicts and never forgets what expired. */
  type Ideal = map<Key, (Bytes, Option<int>)>

  function IdealStep(u: Ideal, op: Op, now: int): Ideal {
    match op
    case Get(_) => u
    case Set(key, value, ttl) => u[key := (value, if ttl > 0 then Some(now + ttl) else None)]
    case Delete(key) => Without(u, key)
    case Clear => map[]
  }

  function IdealAnswer(u: Ideal, key: Key, now: int): Option<Bytes> {
    if key in u && !(u[key].1.Some? && now > u[key].1.value) then Some(u[key].0) else None
  }

  /** Operations with the clock reading each makes. */
  datatype Timed = Timed(op: Op, now: int)

  ghost predicate Run(ms: seq<Cache>, us: seq<Ideal>, ops: seq<Timed>, limit: nat) {
    && |ms| == |us| == |ops| + 1 && ms[0] == map[] && us[0] == map[]
    && (forall i :: 0 <= i < |ops| ==> Step(ms[i], ops[i].op, ops[i].now, limit, ms[i + 1]))
    && (forall i :: 0 <= i < |ops| ==> us[i + 1] == IdealStep(us[i], ops[i].op, ops[i].now))
    && (forall i, j :: 0 <= i < j < |ops| ==> ops[i].now <= ops[j].now)
  }

  /** Whatever is held is what the ideal store holds. */
  ghost predicate Coherent(m: Cache, u: Ideal) {
    forall k :: k in m ==> k in u && u[k] == (m[k].value, m[k].expires)
  }

  lemma StepKeepsCoherent(m: Cache, u: Ideal, op: Op, now: int, limit: nat, m': Cache)
    requires Coherent(m, u) && Step(m, op, now, limit, m')
    ensures Coherent(m', IdealStep(u, op, now))
  {
  }

  /** Every hit returns exactly the bytes last set under the key, and only until they expire, whatever was evicted meanwhile. */
  lemma {:induction false} HitsAreRight(ms: seq<Cache>, us: seq<Ideal>, ops: seq<Timed>, limit: nat, i: nat, key: Key, now: int)
    requires Run(ms, us, ops, limit) && i < |ms|
    ensures Coherent(ms[i], us[i])
    ensures Answer(ms[i], key, now).Some? ==> Answer(ms[i], key, now) == IdealAnswer(us[i], key, now)
  {
    if i > 0 {
      HitsAreRight(ms, us, ops, limit, i - 1, key, now);
      StepKeepsCoherent(ms[i - 1], us[i - 1], ops[i - 1].op, ops[i - 1].now, limit, ms[i]);
    }
  }

  lemma NoMoreThan(m: Cache, u: Ideal)
    requires m.Keys <= u.Keys
    ensures |m| <= |u|
  {
    assert u.Keys == m.Keys + (u.Keys - m.Keys);
    assert |u.Keys| == |m.Keys| + |u.Keys - m.Keys|;
  }

  /** While the ideal store stays within the limit, the cache answers exactly as it does, misses included. */
  lemma {:induction false} NothingEvictedNothingMissed(ms: seq<Cache>, us: seq<Ideal>, ops: seq<Timed>, limit: nat, i: nat, key: Key, now: int)
    requires Run(ms, us, ops, limit) && i < |ms|
    requires forall k :: 0 <= k <= i ==> |us[k]| <= limit
    requires i > 0 ==> ops[i - 1].now <= now
    ensures Answer(ms[i], key, now) == IdealAnswer(us[i], key, now)
  {
    HitsAreRight(ms, us, ops, limit, i, key, now);
    if i > 0 {
      var t := ops[i - 1];
      if i > 1 {
        assert ops[i - 2].now <= ops[i - 1].now;
      }
      NothingEvictedNothingMissed(ms, us, ops, limit, i - 1, key, now);
      HitsAreRight(ms, us, ops, limit, i - 1, key, now);
      if t.op.Set? {
        NoMoreThan(ms[i - 1][t.op.key := Fresh(t.op.value, t.op.ttl, t.now)], us[i]);
      }
    }
  }

  // ---- least recently used ----

  /** When `key` was last set or asked for among the first `i` operations. */
  function LastUse(ops: seq<Timed>, i: nat, key: Key): Option<int>
    requires i <= |ops|
  {
    if i == 0 then None
    else
      var op := ops[i - 1].op;
      if (op.Get? || op.Set?) && op.key == key then Some(ops[i - 1].now) else LastUse(ops, i - 1, key)
  }

  /** On every run, an entry's use time is when its key was last set or found. */
  lemma {:induction false} TouchedIsLastUse(ms: seq<Cache>, us: seq<Ideal>, ops: seq<Timed>, limit: nat, i: nat, key: Key)
    requires Run(ms, us, ops, limit) && i < |ms| && key in ms[i]
    ensures LastUse(ops, i, key) == Some(ms[i][key].touched)
  {
    if i > 0 {
      StepTouches(ms[i - 1], ops[i - 1].op, ops[i - 1].now, limit, ms[i], key);
      if key in ms[i - 1] {
        TouchedIsLastUse(ms, us, ops, limit, i - 1, key);
      }
    }
  }

  lemma StepTouches(m: Cache, op: Op, now: int, limit: nat, m': Cache, key: Key)
    requires Step(m, op, now, limit, m') && key in m'
    ensures if (op.Get? || op.Set?) && op.key == key then m'[key].touched == now
            else key in m && m'[key].touched == m[key].touched
  {
    if op.Set? {
      var all := m[op.key := Fresh(op.value, op.ttl, now)];
      assert key in all && m'[key] == all[key];
    }
  }

  /**
   Eviction, on every run: a Set that drops a live entry leaves no expired one, no fewer entries than the limit, and
   none whose key was last set or found before the dropped one's.
   */
  lemma EvictsLeastRecentlyUsed(ms: seq<Cache>, us: seq<Ideal>, ops: seq<Timed>, limit: nat, i: nat, gone: Key, kept: Key)
    requires Run(ms, us, ops, limit) && i < |ops| && ops[i].op.Set? && gone != ops[i].op.key
    requires gone in ms[i] && !Expired(ms[i][gone], ops[i].now) && gone !in ms[i + 1]
    ensures |ms[i + 1]| >= limit && (kept in ms[i + 1] ==> !Expired(ms[i + 1][kept], ops[i].now))
    ensures LastUse(ops, i, gone).Some?
    ensures kept in ms[i + 1] ==> LastUse(ops, i + 1, kept).Some? && LastUse(ops, i, gone).value <= LastUse(ops, i + 1, kept).value
  {
    var op, now := ops[i].op, ops[i].now;
    var all := ms[i][op.key := Fresh(op.value, op.ttl, now)];
    assert Step(ms[i], op, now, limit, ms[i + 1]) && Evicts(all, now, limit, ms[i + 1]);
    assert gone in Live(all, now);
    TouchedIsLastUse(ms, us, ops, limit, i, gone);
    if kept in ms[i + 1] {
      TouchedIsLastUse(ms, us, ops, limit, i + 1, kept);
      assert kept in Live(all, now) && ms[i + 1][kept] == all[kept];
    }
  }

  // ---- the bound ----

  lemma LiveIsSmaller(m: Cache, now: int)
    ensures |Live(m, now)| <= |m|
  {
    assert m.Keys == Live(m, now).Keys + (m.Keys - Live(m, now).Keys);
    assert |m.Keys| == |Live(m, now).Keys| + |m.Keys - Live(m, now).Keys|;
  }

  /** The live keys used no earlier than the empty key. */
  function NotOlderThanEmpty(m: Cache, now: int): set<Key>
    requires "" in m
  {
    set k | k in m && !Expired(m[k], now) && m[k].touched >= m[""].touched
  }

  /** No two live entries were last used at the same instant. */
  ghost predicate DistinctTouches(m: Cache) {
    forall a, b :: a in m && b in m && a != b ==> m[a].touched != m[b].touched
  }

  /** With distinct touch times: eviction leaves too many exactly when the empty key is live and more than `limit` live entries are no older than it. */
  lemma OverfullExactly(m: Cache, now: int, limit: nat, m': Cache)
    requires Evicts(m, now, limit, m') && |m| > limit && DistinctTouches(Live(m, now))
    ensures |m'| > limit <==> "" in Live(m, now) && |NotOlderThanEmpty(m, now)| > limit
  {
    var live := Live(m, now);
    if |m'| > limit {
      Subset(m'.Keys, NotOlderThanEmpty(m, now));
    }
    if "" in live && |NotOlderThanEmpty(m, now)| > limit {
      assert "" in m';
      forall k | k in NotOlderThanEmpty(m, now) ensures k in m' {
        assert k in live;
      }
      Subset(NotOlderThanEmpty(m, now), m'.Keys);
    }
  }

  ghost predicate NonEmptyKeys(ops: seq<Timed>) {
    forall i :: 0 <= i < |ops| && ops[i].op.Set? ==> ops[i].op.key != ""
  }

  /** With no empty key the cache never exceeds its limit. */
  lemma {:induction false} Bounded(ms: seq<Cache>, us: seq<Ideal>, ops: seq<Timed>, limit: nat, i: nat)
    requires Run(ms, us, ops, limit) && NonEmptyKeys(ops) && i < |ms|
    ensures |ms[i]| <= limit && "" !in ms[i]
  {
    if i > 0 {
      Bounded(ms, us, ops, limit, i - 1);
      StepBounded(ms[i - 1], ops[i - 1].op, ops[i - 1].now, limit, ms[i]);
    }
  }

  lemma StepBounded(m: Cache, op: Op, now: int, limit: nat, m': Cache)
    requires Step(m, op, now, limit, m') && |m| <= limit && "" !in m && (op.Set? ==> op.key != "")
    ensures |m'| <= limit && "" !in m'
  {
    match op
    case Get(key) =>
      if key in m {
        assert m[key := m[key].(touched := now)].Keys == m.Keys;
        Subset(Without(m, key).Keys, m.Keys);
      }
    case Set(key, value, ttl) =>
    case Delete(key) => Subset(Without(m, key).Keys, m.Keys);
    case Clear =>
  }

  /** The scan mistakes a stored empty key for an empty cache: whatever eviction does, one entry too many stays behind. */
  lemma EmptyKeyOverflows(m': Cache)
    requires Evicts(map["" := Entry([], None, 1), "a" := Entry([], None, 2)], 2, 1, m')
    ensures |m'| == 2
  {
    var m: Cache := map["" := Entry([], None, 1), "a" := Entry([], None, 2)];
    assert Live(m, 2) == m && m.Keys == {"", "a"};
    assert NotOlderThanEmpty(m, 2) == {"", "a"};
    OverfullExactly(m, 2, 1, m');
    Subset(m'.Keys, m.Keys);
  }
}
