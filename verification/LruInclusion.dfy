/** A larger cache never loses what a smaller one still has: the inclusion property of least-recently-used eviction, with expiry. */
module LruInclusion {
  import opened Jobs
  import opened MemoryCache
  import opened Sets

  /** The live entries `a` of the smaller cache and `b` of the larger: nested, and apart by at most `gap` keys. */
  ghost predicate Core(a: Cache, b: Cache, gap: nat) {
    Submap(a, b) && |b.Keys - a.Keys| <= gap && DistinctTouches(b)
  }

  ghost predicate TouchedBy(m: Cache, now: int) {
    forall k :: k in m ==> m[k].touched <= now
  }

  /** The two caches at clock reading `now`, in the state any common history leaves them in. */
  ghost predicate Nested(s: Cache, ks: nat, l: Cache, kl: nat, now: int) {
    && 0 < ks <= kl && |s| <= ks && |l| <= kl
    && "" !in s && "" !in l
    && Core(Live(s, now), Live(l, now), kl - ks)
    && TouchedBy(Live(l, now), now)
  }

  lemma DistinctInPart(part: Cache, m: Cache)
    requires Submap(part, m) && DistinctTouches(m)
    ensures DistinctTouches(part)
  {
  }

  lemma DistinctWith(m: Cache, key: Key, e: Entry)
    requires DistinctTouches(m) && TouchedBy(m, e.touched - 1)
    ensures DistinctTouches(m[key := e])
  {
  }

  lemma LiveLater(s: Cache, l: Cache, now: int, later: int)
    requires now <= later && Submap(Live(s, now), Live(l, now))
    ensures Submap(Live(l, later), Live(l, now)) && Submap(Live(s, later), Live(l, later))
    ensures Live(l, later).Keys - Live(s, later).Keys <= Live(l, now).Keys - Live(s, now).Keys
  {
    forall k | k in Live(l, later) && k in Live(s, now) ensures k in Live(s, later) {
      assert Live(l, now)[k] == Live(s, now)[k];
    }
  }

  lemma TouchedInPart(part: Cache, m: Cache, now: int)
    requires Submap(part, m) && TouchedBy(m, now)
    ensures TouchedBy(part, now) && forall later :: now <= later ==> TouchedBy(part, later)
  {
  }

  lemma TimePasses(s: Cache, ks: nat, l: Cache, kl: nat, now: int, later: int)
    requires Nested(s, ks, l, kl, now) && now <= later
    ensures Nested(s, ks, l, kl, later) && (now < later ==> TouchedBy(Live(l, later), later - 1))
  {
    hide DistinctTouches, Live, Submap, TouchedBy;
    LiveLater(s, l, now, later);
    DistinctInPart(Live(l, later), Live(l, now));
    TouchedInPart(Live(l, later), Live(l, now), now);
    Subset(Live(l, later).Keys - Live(s, later).Keys, Live(l, now).Keys - Live(s, now).Keys);
  }

  lemma LiveWithout(m: Cache, key: Key, now: int)
    ensures Live(Without(m, key), now) == Without(Live(m, now), key)
  {
  }

  lemma LiveWith(m: Cache, key: Key, e: Entry, now: int)
    requires !Expired(e, now)
    ensures Live(m[key := e], now) == Live(m, now)[key := e]
  {
  }

  lemma SubmapWithout(a: Cache, b: Cache, key: Key)
    requires Submap(a, b)
    ensures Submap(Without(a, key), Without(b, key)) && Submap(Without(b, key), b)
  {
  }

  /** Forgetting a key on both sides. */
  lemma CoreWithout(a: Cache, b: Cache, gap: nat, key: Key)
    requires Core(a, b, gap)
    ensures Core(Without(a, key), Without(b, key), gap)
  {
    hide DistinctTouches, Submap;
    SubmapWithout(a, b, key);
    DistinctInPart(Without(b, key), b);
    Subset(Without(b, key).Keys - Without(a, key).Keys, b.Keys - a.Keys);
  }

  lemma SubmapWith(a: Cache, b: Cache, key: Key, e: Entry)
    requires Submap(a, b)
    ensures Submap(a[key := e], b[key := e])
  {
  }

  lemma TouchedWith(m: Cache, key: Key, e: Entry)
    requires TouchedBy(m, e.touched - 1)
    ensures TouchedBy(m[key := e], e.touched)
  {
  }

  /** Writing a key, last used now, on both sides. */
  lemma CoreWith(a: Cache, b: Cache, gap: nat, key: Key, e: Entry)
    requires Core(a, b, gap) && TouchedBy(b, e.touched - 1)
    ensures Core(a[key := e], b[key := e], gap) && TouchedBy(b[key := e], e.touched)
  {
    hide DistinctTouches;
    DistinctWith(b, key, e);
    Subset(b[key := e].Keys - a[key := e].Keys, b.Keys - a.Keys);
    SubmapWith(a, b, key, e);
    TouchedWith(b, key, e);
    hide Submap, TouchedBy;
  }

  /** A hit on the larger side only. */
  lemma CoreTouch(a: Cache, b: Cache, gap: nat, key: Key, e: Entry)
    requires Core(a, b, gap) && TouchedBy(b, e.touched - 1) && key in b && key !in a
    ensures Core(a, b[key := e], gap) && TouchedBy(b[key := e], e.touched)
  {
    hide DistinctTouches;
    DistinctWith(b, key, e);
    assert b[key := e].Keys == b.Keys;
    assert Submap(a, b[key := e]);
    assert TouchedBy(b[key := e], e.touched);
  }

  function Touched(e: Entry, now: int): Entry { e.(touched := now) }

  /** A read's effect on the live entries. */
  lemma LiveAfterGet(m: Cache, key: Key, now: int, limit: nat, m': Cache)
    requires Step(m, Op.Get(key), now, limit, m')
    ensures Live(m', now) == if key in Live(m, now) then Live(m, now)[key := Touched(m[key], now)] else Live(m, now)
  {
    if key in m && !Expired(m[key], now) {
      LiveWith(m, key, Touched(m[key], now), now);
    } else {
      LiveWithout(m, key, now);
    }
  }

  lemma GetKeepsNested(s: Cache, ks: nat, l: Cache, kl: nat, key: Key, now: int, s': Cache, l': Cache)
    requires Nested(s, ks, l, kl, now) && TouchedBy(Live(l, now), now - 1)
    requires Step(s, Op.Get(key), now, ks, s') && Step(l, Op.Get(key), now, kl, l')
    ensures Nested(s', ks, l', kl, now)
  {
    StepBounded(s, Op.Get(key), now, ks, s');
    StepBounded(l, Op.Get(key), now, kl, l');
    LiveAfterGet(s, key, now, ks, s');
    LiveAfterGet(l, key, now, kl, l');
    var a, b := Live(s, now), Live(l, now);
    if key in a {
      assert b[key] == a[key];
      CoreWith(a, b, kl - ks, key, Touched(s[key], now));
    } else if key in b {
      CoreTouch(a, b, kl - ks, key, Touched(l[key], now));
    }
  }

  lemma DeleteKeepsNested(s: Cache, ks: nat, l: Cache, kl: nat, key: Key, now: int)
    requires Nested(s, ks, l, kl, now)
    ensures Nested(Without(s, key), ks, Without(l, key), kl, now)
  {
    StepBounded(s, Op.Delete(key), now, ks, Without(s, key));
    StepBounded(l, Op.Delete(key), now, kl, Without(l, key));
    LiveWithout(s, key, now);
    LiveWithout(l, key, now);
    CoreWithout(Live(s, now), Live(l, now), kl - ks, key);
  }

  lemma EmptyIsNested(ks: nat, kl: nat, now: int)
    requires 0 < ks <= kl
    ensures Nested(map[], ks, map[], kl, now)
  {
    assert Live(map[], now) == map[];
    assert |Live(map[], now).Keys - Live(map[], now).Keys| == 0;
  }

  /** Just before eviction: each cache may be one entry over. */
  ghost predicate NestedOver(s: Cache, ks: nat, l: Cache, kl: nat, now: int) {
    && 0 < ks <= kl && |s| <= ks + 1 && |l| <= kl + 1
    && "" !in s && "" !in l
    && Core(Live(s, now), Live(l, now), kl - ks)
    && TouchedBy(Live(l, now), now)
  }

  /** Eviction takes at most one live entry, and only from a cache with one too many. */
  lemma EvictsAtMostOne(m: Cache, now: int, limit: nat, m': Cache)
    requires Evicts(m, now, limit, m') && |m| <= limit + 1 && "" !in m
    ensures |m'| <= limit && Submap(Live(m', now), Live(m, now))
    ensures |Live(m, now)| <= limit ==> Live(m', now) == Live(m, now)
    ensures |Live(m, now)| > limit ==> |Live(m', now)| == limit && |Live(m, now)| == limit + 1
    ensures OldestFirst(Live(m, now), Live(m', now)) && "" !in m'
  {
    LiveIsSmaller(m, now);
    if |m| > limit {
      assert Live(m', now) == m';
    }
  }

  lemma Split(a: Cache, b: Cache)
    requires Submap(a, b)
    ensures |b| == |a| + |b.Keys - a.Keys|
  {
    assert b.Keys == a.Keys + (b.Keys - a.Keys);
    assert |b.Keys| == |a.Keys| + |b.Keys - a.Keys|;
  }

  /** When both drop a live entry, the smaller cache cannot keep what the larger one drops. */
  lemma BothEvict(a: Cache, b: Cache, a': Cache, b': Cache)
    requires Submap(a, b) && DistinctTouches(b)
    requires Submap(a', a) && OldestFirst(a, a') && |a'| < |a|
    requires Submap(b', b) && OldestFirst(b, b') && |b'| + 1 == |b|
    ensures Submap(a', b')
  {
    forall x | x in a' ensures x in b' {
      if x !in b' {
        var y := Dropped(a, a');
        assert a[y].touched <= a'[x].touched;
        assert y in b' ==> b[x].touched <= b'[y].touched;
        TwoGone(b.Keys, b'.Keys, x, y);
      }
    }
  }

  lemma Dropped(a: Cache, a': Cache) returns (y: Key)
    requires Submap(a', a) && |a'| < |a|
    ensures y in a && y !in a'
  {
    if a.Keys <= a'.Keys {
      Subset(a.Keys, a'.Keys);
    }
    y :| y in a && y !in a';
  }

  lemma TwoGone<T>(all: set<T>, kept: set<T>, x: T, y: T)
    requires kept <= all && x in all && y in all && x !in kept && y !in kept && x != y
    ensures |kept| + 2 <= |all|
  {
    Subset(kept + {x} + {y}, all);
  }

  lemma EvictKeepsNested(s: Cache, ks: nat, l: Cache, kl: nat, now: int, s': Cache, l': Cache)
    requires NestedOver(s, ks, l, kl, now)
    requires Evicts(s, now, ks, s') && Evicts(l, now, kl, l')
    ensures Nested(s', ks, l', kl, now)
  {
    hide Evicts, OldestFirst, Live, DistinctTouches, Submap, TouchedBy;
    var a, b, a', b' := Live(s, now), Live(l, now), Live(s', now), Live(l', now);
    EvictsAtMostOne(s, now, ks, s');
    EvictsAtMostOne(l, now, kl, l');
    Split(a, b);
    if |b| > kl {
      BothEvict(a, b, a', b');
    } else {
      SubmapTrans(a', a, b);
    }
    DistinctInPart(b', b);
    TouchedInPart(b', b, now);
    Split(a', b');
  }

  lemma SubmapTrans(a: Cache, b: Cache, c: Cache)
    requires Submap(a, b) && Submap(b, c)
    ensures Submap(a, c)
  {
  }

  lemma SetKeepsNested(s: Cache, ks: nat, l: Cache, kl: nat, key: Key, value: Bytes, ttl: int, now: int, s': Cache, l': Cache)
    requires Nested(s, ks, l, kl, now) && TouchedBy(Live(l, now), now - 1) && key != ""
    requires Step(s, Op.Set(key, value, ttl), now, ks, s') && Step(l, Op.Set(key, value, ttl), now, kl, l')
    ensures Nested(s', ks, l', kl, now)
  {
    hide Core, TouchedBy, Evicts, Live;
    var e := Fresh(value, ttl, now);
    var s1, l1 := s[key := e], l[key := e];
    assert s1.Keys == s.Keys + {key} && l1.Keys == l.Keys + {key};
    LiveWith(s, key, e, now);
    LiveWith(l, key, e, now);
    CoreWith(Live(s, now), Live(l, now), kl - ks, key, e);
    assert NestedOver(s1, ks, l1, kl, now);
    EvictKeepsNested(s1, ks, l1, kl, now, s', l');
  }

  /** One history driving both caches: same operations, strictly increasing clock readings, no empty key. */
  ghost predicate Twins(ss: seq<Cache>, ks: nat, ls: seq<Cache>, kl: nat, ops: seq<Timed>) {
    && 0 < ks <= kl
    && |ss| == |ls| == |ops| + 1 && ss[0] == map[] && ls[0] == map[]
    && NonEmptyKeys(ops)
    && (forall i, j :: 0 <= i < j < |ops| ==> ops[i].now < ops[j].now)
    && (forall i :: 0 <= i < |ops| ==>
          && Step(ss[i], ops[i].op, ops[i].now, ks, ss[i + 1])
          && Step(ls[i], ops[i].op, ops[i].now, kl, ls[i + 1]))
  }

  lemma StepKeepsNested(s: Cache, ks: nat, l: Cache, kl: nat, op: Op, now: int, s': Cache, l': Cache)
    requires Nested(s, ks, l, kl, now) && TouchedBy(Live(l, now), now - 1)
    requires op.Set? ==> op.key != ""
    requires Step(s, op, now, ks, s') && Step(l, op, now, kl, l')
    ensures Nested(s', ks, l', kl, now)
  {
    match op
    case Get(key) => GetKeepsNested(s, ks, l, kl, key, now, s', l');
    case Set(key, value, ttl) => SetKeepsNested(s, ks, l, kl, key, value, ttl, now, s', l');
    case Delete(key) => DeleteKeepsNested(s, ks, l, kl, key, now);
    case Clear => EmptyIsNested(ks, kl, now);
  }

  lemma {:induction false} TwinsStayNested(ss: seq<Cache>, ks: nat, ls: seq<Cache>, kl: nat, ops: seq<Timed>, i: nat)
    requires Twins(ss, ks, ls, kl, ops) && 0 < i < |ss|
    ensures Nested(ss[i], ks, ls[i], kl, ops[i - 1].now)
  {
    hide Nested, Step;
    var now := ops[i - 1].now;
    if i == 1 {
      EmptyIsNested(ks, kl, now);
      assert Live(ls[0], now) == map[];
    } else {
      TwinsStayNested(ss, ks, ls, kl, ops, i - 1);
      assert ops[i - 2].now < now;
      TimePasses(ss[i - 1], ks, ls[i - 1], kl, ops[i - 2].now, now);
    }
    StepKeepsNested(ss[i - 1], ks, ls[i - 1], kl, ops[i - 1].op, now, ss[i], ls[i]);
  }

  /** After any common history, every live entry of the smaller cache is in the larger one with the same value, expiry and touch time. */
  lemma Inclusion(ss: seq<Cache>, ks: nat, ls: seq<Cache>, kl: nat, ops: seq<Timed>, i: nat, now: int, key: Key)
    requires Twins(ss, ks, ls, kl, ops) && i < |ss| && (i > 0 ==> ops[i - 1].now <= now)
    requires key in ss[i] && !Expired(ss[i][key], now)
    ensures key in ls[i] && ls[i][key] == ss[i][key]
  {
    if i > 0 {
      TwinsStayNested(ss, ks, ls, kl, ops, i);
      TimePasses(ss[i], ks, ls[i], kl, ops[i - 1].now, now);
      assert key in Live(ss[i], now);
    }
  }
}
