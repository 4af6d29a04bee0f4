/** What a limiter allows over whole runs, and when its sweep can be noticed. */
module RateLimitRuns {
  import opened Jobs
  import opened RateLimit

  datatype Event = Ask(key: Key, now: real) | Reset(key: Key)

  /** The state after `e` and the answer given, with or without sweeping. */
  function Do(cfg: Config, st: State, e: Event, sweeping: bool): (State, Option<Answer>)
    requires Sane(cfg)
  {
    match e
    case Reset(key) => (Cleared(st, key), None)
    case Ask(key, now) =>
      var (st', answer) := if sweeping then RateLimit.Ask(cfg, st, key, now) else Spend(cfg, st, key, now);
      (st', Some(answer))
  }

  function Final(cfg: Config, st: State, es: seq<Event>, sweeping: bool): State
    requires Sane(cfg)
    decreases |es|
  {
    if es == [] then st else Final(cfg, Do(cfg, st, es[0], sweeping).0, es[1..], sweeping)
  }

  function Answers(cfg: Config, st: State, es: seq<Event>, sweeping: bool): (answers: seq<Option<Answer>>)
    requires Sane(cfg)
    ensures |answers| == |es|
    decreases |es|
  {
    if es == [] then []
    else [Do(cfg, st, es[0], sweeping).1] + Answers(cfg, Do(cfg, st, es[0], sweeping).0, es[1..], sweeping)
  }

  /** Requests for `key` that are let through. */
  function Passed(cfg: Config, st: State, es: seq<Event>, key: Key): nat
    requires Sane(cfg)
    decreases |es|
  {
    if es == [] then 0
    else
      var (st', answer) := Do(cfg, st, es[0], true);
      (if es[0].Ask? && es[0].key == key && answer.value.allowed then 1 else 0) + Passed(cfg, st', es[1..], key)
  }

  /** Clock readings never go back, and stay between `from` and `to`. */
  predicate InOrder(es: seq<Event>, from: real, to: real)
    decreases |es|
  {
    if es == [] then from <= to
    else if es[0].Ask? then from <= es[0].now && InOrder(es[1..], es[0].now, to)
    else InOrder(es[1..], from, to)
  }

  /** Buckets hold between none and a burst of tokens and were seen in the past. */
  ghost predicate Tidy(cfg: Config, st: State, now: real) {
    && (forall k :: k in st.buckets ==> 0.0 <= st.buckets[k].tokens <= cfg.burst as real && st.buckets[k].seen <= now)
    && (st.lastSweep.Some? ==> st.lastSweep.value <= now)
  }

  // ---- earning is linear in time ----

  lemma Times(a: real, b: real, r: real)
    requires a <= b && r > 0.0
    ensures a * r <= b * r
  {
  }

  lemma GainGrows(cfg: Config, a: real, b: real)
    requires Sane(cfg) && a <= b
    ensures Gain(cfg, a) <= Gain(cfg, b)
  {
    Times(a, b, Rate(cfg));
  }

  lemma GainOverTwo(cfg: Config, t: real, u: real, v: real)
    requires Sane(cfg)
    ensures Gain(cfg, v - t) == Gain(cfg, u - t) + Gain(cfg, v - u)
  {
    Distributes(u - t, v - u, Rate(cfg));
    assert v - t == (u - t) + (v - u);
  }

  lemma Distributes(a: real, b: real, r: real)
    ensures (a + b) * r == a * r + b * r
  {
  }

  lemma GainOfNothing(cfg: Config)
    requires Sane(cfg)
    ensures Gain(cfg, 0.0) == 0.0
  {
  }

  lemma GainOfWindow(cfg: Config)
    requires Sane(cfg)
    ensures Gain(cfg, cfg.window) == cfg.limit as real && Gain(cfg, cfg.window * 2.0) == 2.0 * cfg.limit as real
  {
    Distributes(cfg.window, cfg.window, Rate(cfg));
    assert cfg.window * 2.0 == cfg.window + cfg.window;
  }

  // ---- levels ----

  lemma LevelLater(cfg: Config, st: State, key: Key, t: real, u: real)
    requires Sane(cfg) && t <= u
    ensures Level(cfg, st, key, u) == Min(cfg.burst as real, Level(cfg, st, key, t) + Gain(cfg, u - t))
  {
    hide Gain;
    GainGrows(cfg, 0.0, u - t);
    GainOfNothing(cfg);
    if key in st.buckets {
      GainOverTwo(cfg, st.buckets[key].seen, t, u);
    }
  }

  lemma LevelBounds(cfg: Config, st: State, key: Key, now: real)
    requires Sane(cfg) && Tidy(cfg, st, now)
    ensures 0.0 <= Level(cfg, st, key, now) <= cfg.burst as real
  {
    hide Gain;
    GainOfNothing(cfg);
    if key in st.buckets {
      GainGrows(cfg, 0.0, now - st.buckets[key].seen);
    }
  }

  lemma SpendTakes(cfg: Config, st: State, key: Key, now: real, other: Key)
    requires Sane(cfg) && Tidy(cfg, st, now)
    ensures var (st', answer) := Spend(cfg, st, key, now);
            && Tidy(cfg, st', now)
            && Level(cfg, st', other, now) == Level(cfg, st, other, now) - (if other == key && answer.allowed then 1.0 else 0.0)
            && (answer.allowed <==> Level(cfg, st, key, now) >= 1.0)
  {
    hide Gain, Rate;
    LevelBounds(cfg, st, key, now);
    GainOfNothing(cfg);
    assert now - now == 0.0;
  }

  /** Sweeping takes no token from anyone, provided two windows refill a whole burst. */
  lemma SweepUnnoticed(cfg: Config, st: State, now: real, key: Key)
    requires Sane(cfg) && Tidy(cfg, st, now) && cfg.burst <= 2 * cfg.limit
    ensures Tidy(cfg, Swept(cfg, st, now), now)
    ensures Level(cfg, Swept(cfg, st, now), key, now) == Level(cfg, st, key, now)
  {
    hide Gain;
    if key in st.buckets && now - st.buckets[key].seen > cfg.window * 2.0 {
      GainGrows(cfg, cfg.window * 2.0, now - st.buckets[key].seen);
      GainOfWindow(cfg);
    }
  }

  lemma DoTakes(cfg: Config, st: State, e: Event, now: real, key: Key, sweeping: bool)
    requires Sane(cfg) && Tidy(cfg, st, now) && (sweeping ==> cfg.burst <= 2 * cfg.limit)
    requires e.Ask? ==> e.now == now
    requires e.Reset? ==> e.key != key
    ensures var (st', answer) := Do(cfg, st, e, sweeping);
            && Tidy(cfg, st', now)
            && Level(cfg, st', key, now) ==
                 Level(cfg, st, key, now) - (if e.Ask? && e.key == key && answer.value.allowed then 1.0 else 0.0)
            && (e.Ask? ==> (answer.value.allowed <==> Level(cfg, st, e.key, now) >= 1.0))
  {
    if e.Ask? {
      if sweeping {
        SweepUnnoticed(cfg, st, now, key);
        SweepUnnoticed(cfg, st, now, e.key);
        SpendTakes(cfg, Swept(cfg, st, now), e.key, now, key);
      } else {
        SpendTakes(cfg, st, e.key, now, key);
      }
    }
  }

  lemma TidyLater(cfg: Config, st: State, t: real, u: real)
    requires Tidy(cfg, st, t) && t <= u
    ensures Tidy(cfg, st, u)
  {
  }

  /** Tokens spent plus tokens left never exceed tokens held plus tokens earned. */
  lemma {:induction false} SpanBalance(cfg: Config, st: State, es: seq<Event>, key: Key, from: real, to: real)
    requires Sane(cfg) && cfg.burst <= 2 * cfg.limit && Tidy(cfg, st, from) && InOrder(es, from, to)
    requires forall i :: 0 <= i < |es| && es[i].Reset? ==> es[i].key != key
    ensures Passed(cfg, st, es, key) as real <= Level(cfg, st, key, from) + Gain(cfg, to - from)
    decreases |es|
  {
    hide Level, Gain, Tidy, Do;
    LevelBounds(cfg, st, key, from);
    if es == [] {
      GainOfNothing(cfg);
      GainGrows(cfg, 0.0, to - from);
    } else {
      var u := if es[0].Ask? then es[0].now else from;
      TidyLater(cfg, st, from, u);
      DoTakes(cfg, st, es[0], u, key, true);
      SpanBalance(cfg, Do(cfg, st, es[0], true).0, es[1..], key, u, to);
      LevelLater(cfg, st, key, from, u);
      GainOverTwo(cfg, from, u, to);
    }
  }

  lemma DoIsTidy(cfg: Config, st: State, e: Event, now: real)
    requires Sane(cfg) && cfg.burst <= 2 * cfg.limit && Tidy(cfg, st, now) && (e.Ask? ==> e.now == now)
    ensures Tidy(cfg, Do(cfg, st, e, true).0, now)
  {
    if e.Ask? {
      DoTakes(cfg, st, e, now, e.key, true);
    }
  }

  lemma {:induction false} FinalIsTidy(cfg: Config, st: State, es: seq<Event>, from: real, to: real)
    requires Sane(cfg) && cfg.burst <= 2 * cfg.limit && Tidy(cfg, st, from) && InOrder(es, from, to)
    ensures Tidy(cfg, Final(cfg, st, es, true), to)
    decreases |es|
  {
    hide Tidy, Do;
    if es == [] {
      TidyLater(cfg, st, from, to);
    } else {
      var u := if es[0].Ask? then es[0].now else from;
      TidyLater(cfg, st, from, u);
      DoIsTidy(cfg, st, es[0], u);
      FinalIsTidy(cfg, Do(cfg, st, es[0], true).0, es[1..], u, to);
    }
  }

  /**
   After any history, over any span without a Reset of `key`: the requests let through number at most
   the burst plus what the limit allows for the length of the span.
   */
  lemma BucketBound(cfg: Config, history: seq<Event>, start: real, es: seq<Event>, key: Key, from: real, to: real)
    requires Sane(cfg) && cfg.burst <= 2 * cfg.limit
    requires InOrder(history, start, from) && InOrder(es, from, to)
    requires forall i :: 0 <= i < |es| && es[i].Reset? ==> es[i].key != key
    ensures Passed(cfg, Final(cfg, EMPTY, history, true), es, key) as real
              <= cfg.burst as real + Earned(cfg, to - from)
  {
    hide Gain, Level, Earned, Tidy, Do, Final;
    EmptyIsTidy(cfg, start);
    var st := Final(cfg, EMPTY, history, true);
    FinalIsTidy(cfg, EMPTY, history, start, from);
    SpanBalance(cfg, st, es, key, from, to);
    LevelBounds(cfg, st, key, from);
    GainIsEarned(cfg, to - from);
  }

  /** What the limit allows for a span of length `t`. */
  function Earned(cfg: Config, t: real): real
    requires Sane(cfg)
  {
    cfg.limit as real * t / cfg.window
  }

  lemma EmptyIsTidy(cfg: Config, now: real)
    ensures Tidy(cfg, EMPTY, now)
  {
  }

  lemma GainIsEarned(cfg: Config, t: real)
    requires Sane(cfg)
    ensures Gain(cfg, t) == Earned(cfg, t)
  {
    var l, w, r := cfg.limit as real, cfg.window, Rate(cfg);
    QuotientTimes(l * t, w);
    Reorder(t, r, w);
    Cancel(t * r, l * t / w, w);
  }

  lemma Reorder(t: real, r: real, w: real)
    ensures (t * r) * w == (r * w) * t
  {
  }

  lemma Cancel(a: real, b: real, w: real)
    requires a * w == b * w && w > 0.0
    ensures a == b
  {
    if a < b {
      StrictTimes(a, b, w);
    } else if b < a {
      StrictTimes(b, a, w);
    }
  }

  // ---- the wait ----

  /** After a refusal, and with no further request for the key, it has a whole token from exactly the announced wait on. */
  lemma WaitIsExact(cfg: Config, st: State, key: Key, now: real, t: real)
    requires Sane(cfg) && now <= t
    ensures var (st', answer) := Spend(cfg, st, key, now);
            !answer.allowed ==> answer.wait > 0.0 && (Level(cfg, st', key, t) >= 1.0 <==> now + answer.wait <= t)
  {
    var level := Level(cfg, st, key, now);
    if level < 1.0 {
      EarnsTheRest(level, t - now, Rate(cfg));
      assert Gain(cfg, t - now) == (t - now) * Rate(cfg);
      hide Rate, Gain;
    }
  }

  lemma EarnsTheRest(level: real, d: real, r: real)
    requires level < 1.0 && r > 0.0
    ensures level + d * r >= 1.0 <==> (1.0 - level) / r <= d
    ensures (1.0 - level) / r > 0.0
  {
    var wait := (1.0 - level) / r;
    QuotientTimes(1.0 - level, r);
    if wait <= d {
      Times(wait, d, r);
    } else {
      StrictTimes(d, wait, r);
    }
    PositiveQuotient(1.0 - level, r);
  }

  lemma PositiveQuotient(a: real, r: real)
    requires a > 0.0 && r > 0.0
    ensures a / r > 0.0
  {
  }

  lemma QuotientTimes(a: real, r: real)
    requires r > 0.0
    ensures (a / r) * r == a
  {
  }

  lemma StrictTimes(a: real, b: real, r: real)
    requires a < b && r > 0.0
    ensures a * r < b * r
  {
  }

  // ---- when sweeping goes unnoticed ----

  /** Two limiters nobody can tell apart from `now` on. */
  ghost predicate Alike(cfg: Config, a: State, b: State, now: real)
    requires Sane(cfg)
  {
    forall k :: Level(cfg, a, k, now) == Level(cfg, b, k, now)
  }

  lemma AlikeLater(cfg: Config, a: State, b: State, t: real, u: real)
    requires Sane(cfg) && Alike(cfg, a, b, t) && t <= u
    ensures Alike(cfg, a, b, u)
  {
    forall k ensures Level(cfg, a, k, u) == Level(cfg, b, k, u) {
      LevelLater(cfg, a, k, t, u);
      LevelLater(cfg, b, k, t, u);
    }
  }

  lemma AlikeAnswers(cfg: Config, a: State, b: State, e: Event, now: real)
    requires Sane(cfg) && cfg.burst <= 2 * cfg.limit && Tidy(cfg, a, now) && Tidy(cfg, b, now) && Alike(cfg, a, b, now)
    requires e.Ask? ==> e.now == now
    ensures Do(cfg, a, e, true).1 == Do(cfg, b, e, false).1
    ensures Alike(cfg, Do(cfg, a, e, true).0, Do(cfg, b, e, false).0, now)
    ensures Tidy(cfg, Do(cfg, a, e, true).0, now) && Tidy(cfg, Do(cfg, b, e, false).0, now)
  {
    var a', b' := Do(cfg, a, e, true).0, Do(cfg, b, e, false).0;
    if e.Ask? {
      SweepUnnoticed(cfg, a, now, e.key);
      assert Level(cfg, a, e.key, now) == Level(cfg, b, e.key, now);
      DoTakes(cfg, a, e, now, e.key, true);
      DoTakes(cfg, b, e, now, e.key, false);
    }
    forall k ensures Level(cfg, a', k, now) == Level(cfg, b', k, now) {
      assert Level(cfg, a, k, now) == Level(cfg, b, k, now);
      if !(e.Reset? && e.key == k) {
        DoTakes(cfg, a, e, now, k, true);
        DoTakes(cfg, b, e, now, k, false);
      }
    }
  }

  lemma {:induction false} AlikeRuns(cfg: Config, a: State, b: State, es: seq<Event>, from: real, to: real)
    requires Sane(cfg) && cfg.burst <= 2 * cfg.limit && Tidy(cfg, a, from) && Tidy(cfg, b, from) && Alike(cfg, a, b, from)
    requires InOrder(es, from, to)
    ensures Answers(cfg, a, es, true) == Answers(cfg, b, es, false)
    decreases |es|
  {
    hide Tidy, Alike, Do;
    if es != [] {
      var u := if es[0].Ask? then es[0].now else from;
      TidyLater(cfg, a, from, u);
      TidyLater(cfg, b, from, u);
      AlikeLater(cfg, a, b, from, u);
      AlikeAnswers(cfg, a, b, es[0], u);
      AlikeRuns(cfg, Do(cfg, a, es[0], true).0, Do(cfg, b, es[0], false).0, es[1..], u, to);
    }
  }

  lemma {:induction false} AnswersJoin(cfg: Config, st: State, es: seq<Event>, fs: seq<Event>, sweeping: bool)
    requires Sane(cfg)
    ensures Answers(cfg, st, es + fs, sweeping) == Answers(cfg, st, es, sweeping) + Answers(cfg, Final(cfg, st, es, sweeping), fs, sweeping)
    ensures Final(cfg, st, es + fs, sweeping) == Final(cfg, Final(cfg, st, es, sweeping), fs, sweeping)
    decreases |es|
  {
    hide Do;
    if es == [] {
      assert es + fs == fs;
    } else {
      assert (es + fs)[1..] == es[1..] + fs;
      AnswersJoin(cfg, Do(cfg, st, es[0], sweeping).0, es[1..], fs, sweeping);
    }
  }

  function Repeat(n: nat, e: Event): (es: seq<Event>)
    ensures |es| == n && forall i :: 0 <= i < n ==> es[i] == e
  {
    seq(n, _ => e)
  }

  /** `n` requests at one instant, each finding a token and no sweep due. */
  lemma {:induction false} Drain(cfg: Config, st: State, key: Key, now: real, n: nat, sweeping: bool)
    requires Sane(cfg) && key in st.buckets && st.buckets[key].seen == now
    requires n as real <= st.buckets[key].tokens <= cfg.burst as real
    requires sweeping ==> st.lastSweep == Some(now)
    ensures Final(cfg, st, Repeat(n, Ask(key, now)), sweeping) ==
            st.(buckets := st.buckets[key := Bucket(st.buckets[key].tokens - n as real, now)])
    ensures forall i :: 0 <= i < n ==> Answers(cfg, st, Repeat(n, Ask(key, now)), sweeping)[i] == Some(Answer(true, 0.0))
    decreases n
  {
    hide Gain, Rate;
    if n > 0 {
      GainOfNothing(cfg);
      assert now - now == 0.0;
      var es := Repeat(n, Ask(key, now));
      assert es[1..] == Repeat(n - 1, Ask(key, now));
      var st' := Do(cfg, st, es[0], sweeping).0;
      assert st' == st.(buckets := st.buckets[key := Bucket(st.buckets[key].tokens - 1.0, now)]);
      Drain(cfg, st', key, now, n - 1, sweeping);
    }
  }

  const VICTIM: Key := "k"

  /** Just past two windows: a drained bucket has earned half a token more than twice the limit. */
  function Later(cfg: Config): real
    requires Sane(cfg)
  {
    cfg.window * 2.0 + 0.5 / Rate(cfg)
  }

  lemma EarnedByLater(cfg: Config)
    requires Sane(cfg)
    ensures Gain(cfg, Later(cfg)) == 2.0 * cfg.limit as real + 0.5
    ensures Later(cfg) > cfg.window * 2.0
  {
    var half := 0.5 / Rate(cfg);
    QuotientTimes(0.5, Rate(cfg));
    PositiveQuotient(0.5, Rate(cfg));
    GainOfWindow(cfg);
    Distributes(cfg.window * 2.0, half, Rate(cfg));
  }

  /** A key that spent its whole burst at instant zero. */
  lemma Drained(cfg: Config, sweeping: bool)
    requires Sane(cfg)
    ensures Final(cfg, EMPTY, Repeat(cfg.burst, Ask(VICTIM, 0.0)), sweeping) ==
            State(map[VICTIM := Bucket(0.0, 0.0)], if sweeping then Some(0.0) else None)
  {
    var es := Repeat(cfg.burst, Ask(VICTIM, 0.0));
    var st := Do(cfg, EMPTY, es[0], sweeping).0;
    assert st == State(map[VICTIM := Bucket(cfg.burst as real - 1.0, 0.0)], if sweeping then Some(0.0) else None);
    assert es[1..] == Repeat(cfg.burst - 1, Ask(VICTIM, 0.0));
    Drain(cfg, st, VICTIM, 0.0, cfg.burst - 1, sweeping);
  }

  /** The request that tells: refused by a limiter that remembers, allowed by one that swept the key away. */
  lemma RefusedUnswept(cfg: Config)
    requires Sane(cfg) && cfg.burst > 2 * cfg.limit
    ensures var es := Repeat(2 * cfg.limit + 1, Ask(VICTIM, Later(cfg)));
            Answers(cfg, State(map[VICTIM := Bucket(0.0, 0.0)], None), es, false)[2 * cfg.limit] != Some(Answer(true, 0.0))
  {
    var st, n, now := State(map[VICTIM := Bucket(0.0, 0.0)], None), 2 * cfg.limit, Later(cfg);
    EarnedByLater(cfg);
    var es := Repeat(n + 1, Ask(VICTIM, now));
    hide Gain, Later, Rate;
    assert now - 0.0 == now;
    var st1 := Do(cfg, st, es[0], false).0;
    assert st1 == State(map[VICTIM := Bucket(n as real - 0.5, now)], None);
    var mid, last := Repeat(n - 1, Ask(VICTIM, now)), Repeat(1, Ask(VICTIM, now));
    assert es[1..] == mid + last;
    Drain(cfg, st1, VICTIM, now, n - 1, false);
    AnswersJoin(cfg, st1, mid, last, false);
    GainOfNothing(cfg);
    assert now - now == 0.0;
    assert Answers(cfg, Final(cfg, st1, mid, false), last, false)[0] != Some(Answer(true, 0.0));
  }

  lemma AllowedSwept(cfg: Config)
    requires Sane(cfg) && cfg.burst > 2 * cfg.limit
    ensures var es := Repeat(2 * cfg.limit + 1, Ask(VICTIM, Later(cfg)));
            Answers(cfg, State(map[VICTIM := Bucket(0.0, 0.0)], Some(0.0)), es, true)[2 * cfg.limit] == Some(Answer(true, 0.0))
  {
    var st, n, now := State(map[VICTIM := Bucket(0.0, 0.0)], Some(0.0)), 2 * cfg.limit, Later(cfg);
    EarnedByLater(cfg);
    var es := Repeat(n + 1, Ask(VICTIM, now));
    hide Gain, Later, Rate;
    var st1 := Do(cfg, st, es[0], true).0;
    assert Swept(cfg, st, now) == State(map[], Some(now));
    assert st1 == State(map[VICTIM := Bucket(cfg.burst as real - 1.0, now)], Some(now));
    assert es[1..] == Repeat(n, Ask(VICTIM, now));
    Drain(cfg, st1, VICTIM, now, n, true);
    assert Answers(cfg, st, es, true)[n] == Answers(cfg, st1, es[1..], true)[n - 1];
  }

  lemma {:induction false} AllAtOnce(es: seq<Event>, now: real, to: real)
    requires now <= to && forall i :: 0 <= i < |es| ==> es[i].Ask? && es[i].now == now
    ensures InOrder(es, now, to)
    decreases |es|
  {
    if es != [] {
      AllAtOnce(es[1..], now, to);
    }
  }

  lemma {:induction false} InOrderJoin(es: seq<Event>, fs: seq<Event>, from: real, mid: real, to: real)
    requires InOrder(es, from, mid) && InOrder(fs, mid, to)
    ensures InOrder(es + fs, from, to)
    decreases |es|
  {
    if es == [] {
      assert es + fs == fs;
      Earlier(fs, from, mid, to);
    } else {
      assert (es + fs)[1..] == es[1..] + fs;
      InOrderJoin(es[1..], fs, if es[0].Ask? then es[0].now else from, mid, to);
    }
  }

  lemma {:induction false} Earlier(es: seq<Event>, from: real, mid: real, to: real)
    requires from <= mid && InOrder(es, mid, to)
    ensures InOrder(es, from, to)
    decreases |es|
  {
    if es != [] && es[0].Reset? {
      Earlier(es[1..], from, mid, to);
    }
  }

  /** With a burst above twice the limit, a run on which sweeping changes an answer. */
  lemma SweepNoticed(cfg: Config) returns (es: seq<Event>)
    requires Sane(cfg) && cfg.burst > 2 * cfg.limit
    ensures InOrder(es, 0.0, Later(cfg)) && Answers(cfg, EMPTY, es, true) != Answers(cfg, EMPTY, es, false)
  {
    hide Answers, Final, InOrder, Do, Later, Repeat;
    var first, second := Repeat(cfg.burst, Ask(VICTIM, 0.0)), Repeat(2 * cfg.limit + 1, Ask(VICTIM, Later(cfg)));
    es := first + second;
    EarnedByLater(cfg);
    AllAtOnce(first, 0.0, Later(cfg));
    AllAtOnce(second, Later(cfg), Later(cfg));
    InOrderJoin(first, second, 0.0, Later(cfg), Later(cfg));
    AnswersJoin(cfg, EMPTY, first, second, true);
    AnswersJoin(cfg, EMPTY, first, second, false);
    Drained(cfg, true);
    Drained(cfg, false);
    RefusedUnswept(cfg);
    AllowedSwept(cfg);
    var k := cfg.burst + 2 * cfg.limit;
    assert Answers(cfg, EMPTY, es, true)[k] == Some(Answer(true, 0.0)) != Answers(cfg, EMPTY, es, false)[k];
  }

  ghost predicate Invisible(cfg: Config)
    requires Sane(cfg)
  {
    forall es, from, to :: InOrder(es, from, to) ==> Answers(cfg, EMPTY, es, true) == Answers(cfg, EMPTY, es, false)
  }

  /** Sweeping never changes an answer or a wait, on any run, exactly when the burst is at most twice the limit. */
  lemma SweepInvisibleExactly(cfg: Config)
    requires Sane(cfg)
    ensures Invisible(cfg) <==> cfg.burst <= 2 * cfg.limit
  {
    if cfg.burst <= 2 * cfg.limit {
      forall es, from, to | InOrder(es, from, to)
        ensures Answers(cfg, EMPTY, es, true) == Answers(cfg, EMPTY, es, false)
      {
        AlikeRuns(cfg, EMPTY, EMPTY, es, from, to);
      }
    } else {
      var es := SweepNoticed(cfg);
    }
  }

  // ---- when the bound holds ----

  /** The bound on what one span lets through, over every history and every span. */
  ghost predicate AlwaysBounded(cfg: Config)
    requires Sane(cfg)
  {
    forall history: seq<Event>, start, es: seq<Event>, key, from, to ::
      InOrder(history, start, from) && InOrder(es, from, to) && (forall i :: 0 <= i < |es| && es[i].Reset? ==> es[i].key != key) ==>
        Passed(cfg, Final(cfg, EMPTY, history, true), es, key) as real <= cfg.burst as real + Earned(cfg, to - from)
  }

  lemma {:induction false} PassedJoin(cfg: Config, st: State, es: seq<Event>, fs: seq<Event>, key: Key)
    requires Sane(cfg)
    ensures Passed(cfg, st, es + fs, key) == Passed(cfg, st, es, key) + Passed(cfg, Final(cfg, st, es, true), fs, key)
    decreases |es|
  {
    hide Do;
    if es == [] {
      assert es + fs == fs;
    } else {
      assert (es + fs)[1..] == es[1..] + fs;
      PassedJoin(cfg, Do(cfg, st, es[0], true).0, es[1..], fs, key);
    }
  }

  /** Where every request of the key is let through, they all count. */
  lemma {:induction false} PassedAll(cfg: Config, st: State, es: seq<Event>, key: Key)
    requires Sane(cfg) && forall i :: 0 <= i < |es| ==> es[i].Ask? && es[i].key == key
    requires forall i :: 0 <= i < |es| ==> Answers(cfg, st, es, true)[i] == Some(Answer(true, 0.0))
    ensures Passed(cfg, st, es, key) == |es|
    decreases |es|
  {
    hide Do;
    if es != [] {
      var st' := Do(cfg, st, es[0], true).0;
      assert Answers(cfg, st, es, true)[0] == Some(Answer(true, 0.0));
      forall i | 0 <= i < |es[1..]| ensures Answers(cfg, st', es[1..], true)[i] == Some(Answer(true, 0.0)) {
        assert Answers(cfg, st, es, true)[i + 1] == Answers(cfg, st', es[1..], true)[i];
      }
      PassedAll(cfg, st', es[1..], key);
    }
  }

  /** From a state in which the sweep at `now` forgets the key, a whole burst at that instant is let through. */
  lemma BurstPasses(cfg: Config, st: State, now: real)
    requires Sane(cfg) && Swept(cfg, st, now) == State(map[], Some(now))
    ensures Passed(cfg, st, Repeat(cfg.burst, Ask(VICTIM, now)), VICTIM) == cfg.burst
  {
    var es := Repeat(cfg.burst, Ask(VICTIM, now));
    var st1 := Do(cfg, st, es[0], true).0;
    assert st1 == State(map[VICTIM := Bucket(cfg.burst as real - 1.0, now)], Some(now));
    assert es[1..] == Repeat(cfg.burst - 1, Ask(VICTIM, now));
    hide Gain, Rate, Level;
    Drain(cfg, st1, VICTIM, now, cfg.burst - 1, true);
    PassedAll(cfg, st1, es[1..], VICTIM);
  }

  /** Two bursts, one at the start and one as soon as the sweep has forgotten the first: more than the bound allows. */
  lemma TwoBurstsExceed(cfg: Config) returns (es: seq<Event>)
    requires Sane(cfg) && cfg.burst > 2 * cfg.limit
    ensures InOrder(es, 0.0, Later(cfg)) && forall i :: 0 <= i < |es| ==> es[i].Ask?
    ensures Passed(cfg, EMPTY, es, VICTIM) as real > cfg.burst as real + Earned(cfg, Later(cfg) - 0.0)
  {
    hide Passed, Final, InOrder, Do, Repeat, Gain, Rate, Earned, Later;
    var first, second := Repeat(cfg.burst, Ask(VICTIM, 0.0)), Repeat(cfg.burst, Ask(VICTIM, Later(cfg)));
    es := first + second;
    EarnedByLater(cfg);
    GainIsEarned(cfg, Later(cfg));
    AllAtOnce(first, 0.0, Later(cfg));
    AllAtOnce(second, Later(cfg), Later(cfg));
    InOrderJoin(first, second, 0.0, Later(cfg), Later(cfg));
    Drained(cfg, true);
    var drained := Final(cfg, EMPTY, first, true);
    assert Swept(cfg, EMPTY, 0.0) == State(map[], Some(0.0));
    assert Swept(cfg, drained, Later(cfg)) == State(map[], Some(Later(cfg)));
    BurstPasses(cfg, EMPTY, 0.0);
    BurstPasses(cfg, drained, Later(cfg));
    PassedJoin(cfg, EMPTY, first, second, VICTIM);
  }

  /** The bound holds on every span of every run exactly when the burst is at most twice the limit. */
  lemma BoundedExactly(cfg: Config)
    requires Sane(cfg)
    ensures AlwaysBounded(cfg) <==> cfg.burst <= 2 * cfg.limit
  {
    hide Passed, Final, InOrder, Earned, Later;
    if cfg.burst <= 2 * cfg.limit {
      forall history: seq<Event>, start, es: seq<Event>, key, from, to |
        InOrder(history, start, from) && InOrder(es, from, to) && (forall i :: 0 <= i < |es| && es[i].Reset? ==> es[i].key != key)
        ensures Passed(cfg, Final(cfg, EMPTY, history, true), es, key) as real <= cfg.burst as real + Earned(cfg, to - from)
      {
        BucketBound(cfg, history, start, es, key, from, to);
      }
    } else {
      var es := TwoBurstsExceed(cfg);
      NoHistory(cfg);
      assert InOrder([], 0.0, 0.0);
    }
  }

  lemma NoHistory(cfg: Config)
    requires Sane(cfg)
    ensures InOrder([], 0.0, 0.0) && Final(cfg, EMPTY, [], true) == EMPTY
  {
  }

  // ---- what stays tracked ----

  /** Everything tracked at the last sweep had been seen within the two windows before it. */
  ghost predicate Recent(cfg: Config, st: State, now: real) {
    && (forall k :: k in st.buckets ==> st.buckets[k].seen <= now)
    && (st.lastSweep.None? ==> st.buckets == map[])
    && (st.lastSweep.Some? ==> st.lastSweep.value <= now)
    && (st.lastSweep.Some? ==> forall k :: k in st.buckets ==> st.buckets[k].seen >= st.lastSweep.value - cfg.window * 2.0)
  }

  /** Right after any request, every tracked key was seen within the last three windows. */
  lemma OnlyRecentKeysTracked(cfg: Config, st: State, key: Key, now: real)
    requires Sane(cfg) && Recent(cfg, st, now)
    ensures var st' := RateLimit.Ask(cfg, st, key, now).0;
            Recent(cfg, st', now) && forall k :: k in st'.buckets ==> now - st'.buckets[k].seen < cfg.window * 3.0
  {
  }

  lemma {:induction false} FinalIsRecent(cfg: Config, st: State, es: seq<Event>, from: real, to: real)
    requires Sane(cfg) && Recent(cfg, st, from) && InOrder(es, from, to)
    ensures Recent(cfg, Final(cfg, st, es, true), to)
    decreases |es|
  {
    if es != [] {
      var u := if es[0].Ask? then es[0].now else from;
      if es[0].Ask? {
        assert Recent(cfg, st, u);
        OnlyRecentKeysTracked(cfg, st, es[0].key, u);
      }
      FinalIsRecent(cfg, Do(cfg, st, es[0], true).0, es[1..], u, to);
    }
  }
}
