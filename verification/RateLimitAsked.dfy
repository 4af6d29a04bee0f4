/** What a limiter does, in the limit, window and burst it was asked for. */
module RateLimitAsked {
  import opened Jobs
  import opened RateLimit
  import opened RateLimitRuns

  /** What is taken for a limit or burst below one, and for a window that is not positive. */
  function AtLeastOne(n: int): int { if n < 1 then 1 else n }

  function MinuteIfNone(window: real): real { if window <= 0.0 then 60.0 else window }

  /**
   The token bound on whatever is asked for: after any history, over any span without a Reset of the key, at most
   the burst plus limit * span / window requests are let through, if the burst is at most twice the limit.
   */
  lemma AskedBound(limit: int, window: real, burst: int, history: seq<Event>, start: real, es: seq<Event>, key: Key, from: real, to: real)
    requires AtLeastOne(burst) <= 2 * AtLeastOne(limit)
    requires InOrder(history, start, from) && InOrder(es, from, to)
    requires forall i :: 0 <= i < |es| && es[i].Reset? ==> es[i].key != key
    ensures var cfg := NewWithBurst(limit, window, burst);
            Passed(cfg, Final(cfg, EMPTY, history, true), es, key) as real <=
              AtLeastOne(burst) as real + AtLeastOne(limit) as real * (to - from) / MinuteIfNone(window)
  {
    hide Passed, Final, InOrder;
    BucketBound(NewWithBurst(limit, window, burst), history, start, es, key, from, to);
  }

  lemma OverRate(cfg: Config)
    requires Sane(cfg)
    ensures 1.0 / Rate(cfg) == cfg.window / cfg.limit as real && cfg.window / cfg.limit as real > 0.0
    ensures Gain(cfg, cfg.window / cfg.limit as real) == 1.0
  {
    var l, w, r := cfg.limit as real, cfg.window, Rate(cfg);
    QuotientTimes(1.0, r);
    QuotientTimes(w, l);
    PositiveQuotient(w, l);
    assert (w / l) * r * w == (w / l) * l by {
      Regroup(w / l, r, w);
    }
    Cancel((w / l) * r, 1.0, w);
    Cancel(1.0 / r, w / l, r);
  }

  lemma Regroup(a: real, b: real, c: real)
    ensures a * b * c == a * (b * c)
  {
  }

  /** Which requests of `n` at one instant pass, from a state with just the key's bucket, swept at that instant. */
  lemma BurstAtOnce(cfg: Config, key: Key, now: real)
    requires Sane(cfg)
    ensures var es := Repeat(cfg.burst, Ask(key, now));
            && Final(cfg, EMPTY, es, true) == State(map[key := Bucket(0.0, now)], Some(now))
            && forall i :: 0 <= i < cfg.burst ==> Answers(cfg, EMPTY, es, true)[i] == Some(Answer(true, 0.0))
  {
    var es := Repeat(cfg.burst, Ask(key, now));
    var st := Do(cfg, EMPTY, es[0], true).0;
    assert st == State(map[key := Bucket(cfg.burst as real - 1.0, now)], Some(now));
    assert es[1..] == Repeat(cfg.burst - 1, Ask(key, now));
    hide Gain, Rate;
    Drain(cfg, st, key, now, cfg.burst - 1, true);
    forall i | 0 <= i < cfg.burst ensures Answers(cfg, EMPTY, es, true)[i] == Some(Answer(true, 0.0)) {
      assert i > 0 ==> Answers(cfg, EMPTY, es, true)[i] == Answers(cfg, st, es[1..], true)[i - 1];
    }
  }

  /**
   From a new limiter: the first `burst` requests pass at once, the next is refused, told to wait window / limit, and
   one at any later time passes exactly from then on.
   */
  lemma FirstBurst(limit: int, window: real, burst: int, key: Key, now: real, later: real)
    requires limit >= 1 && window > 0.0 && burst >= 1 && now <= later
    ensures var cfg := NewWithBurst(limit, window, burst);
            var es := Repeat(burst, Ask(key, now));
            var (refused, answer) := RateLimit.Ask(cfg, Final(cfg, EMPTY, es, true), key, now);
            && (forall i :: 0 <= i < burst ==> Answers(cfg, EMPTY, es, true)[i] == Some(Answer(true, 0.0)))
            && answer == Answer(false, window / limit as real)
            && (burst <= 2 * limit ==> (RateLimit.Ask(cfg, refused, key, later).1.allowed <==> now + window / limit as real <= later))
  {
    var cfg := NewWithBurst(limit, window, burst);
    BurstAtOnce(cfg, key, now);
    var drained := State(map[key := Bucket(0.0, now)], Some(now));
    assert Swept(cfg, drained, now) == drained;
    OverRate(cfg);
    GainOfNothing(cfg);
    assert now - now == 0.0 && Level(cfg, drained, key, now) == 0.0;
    var (refused, answer) := Spend(cfg, drained, key, now);
    assert answer == Answer(false, window / limit as real) && refused == drained;
    WaitIsExact(cfg, drained, key, now, later);
    if burst <= 2 * limit {
      hide Gain, Rate, Level;
      DoTakes(cfg, refused, Ask(key, later), later, key, true);
    }
  }

  /** Requests of one key, each at least window / limit after the one before. */
  predicate Spaced(cfg: Config, es: seq<Event>, key: Key, from: real)
    requires Sane(cfg)
    decreases |es|
  {
    es == [] || (es[0].Ask? && es[0].key == key && from <= es[0].now
                 && Spaced(cfg, es[1..], key, es[0].now + cfg.window / cfg.limit as real))
  }

  /** Whoever asks no more often than the limit allows is never refused. */
  lemma {:induction false} SpacedAllPass(cfg: Config, st: State, es: seq<Event>, key: Key, from: real)
    requires Sane(cfg) && cfg.burst <= 2 * cfg.limit && Tidy(cfg, st, from)
    requires Spaced(cfg, es, key, from) && Level(cfg, st, key, from) >= 1.0
    ensures Passed(cfg, st, es, key) == |es|
    decreases |es|
  {
    hide Gain, Level, Tidy, Do;
    if es != [] {
      var u := es[0].now;
      var next := u + cfg.window / cfg.limit as real;
      OverRate(cfg);
      TidyLater(cfg, st, from, u);
      LevelLater(cfg, st, key, from, u);
      GainGrows(cfg, 0.0, u - from);
      GainOfNothing(cfg);
      DoTakes(cfg, st, es[0], u, key, true);
      var st' := Do(cfg, st, es[0], true).0;
      LevelBounds(cfg, st', key, u);
      TidyLater(cfg, st', u, next);
      LevelLater(cfg, st', key, u, next);
      assert next - u == cfg.window / cfg.limit as real;
      SpacedAllPass(cfg, st', es[1..], key, next);
    }
  }
}
