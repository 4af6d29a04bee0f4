/** The token bucket limiter, with exact rationals for tokens and for time in seconds. */
module RateLimit {
  import opened Jobs

  type Key = string

  datatype Config = Config(limit: int, window: real, burst: int)

  datatype Bucket = Bucket(tokens: real, seen: real)

  datatype State = State(buckets: map<Key, Bucket>, lastSweep: Option<real>)

  const EMPTY := State(map[], None)

  /** A sane configuration is taken as asked; a limit or burst below one becomes one, a window that is not positive a minute. */
  function NewWithBurst(limit: int, window: real, burst: int): (cfg: Config)
    ensures Sane(cfg)
    ensures limit >= 1 && window > 0.0 && burst >= 1 ==> cfg == Config(limit, window, burst)
    ensures limit < 1 ==> cfg.limit == 1
    ensures burst < 1 ==> cfg.burst == 1
    ensures window <= 0.0 ==> cfg.window == 60.0
  {
    Config(if limit < 1 then 1 else limit, if window <= 0.0 then 60.0 else window, if burst < 1 then 1 else burst)
  }

  /** A burst equal to the limit, so a full bucket refills within one window. */
  function New(limit: int, window: real): (cfg: Config)
    ensures Sane(cfg) && cfg.burst == cfg.limit
    ensures limit >= 1 && window > 0.0 ==> cfg == Config(limit, window, limit)
  {
    NewWithBurst(limit, window, limit)
  }

  predicate Sane(cfg: Config) {
    cfg.limit >= 1 && cfg.window > 0.0 && cfg.burst >= 1
  }

  function Rate(cfg: Config): (r: real)
    requires Sane(cfg)
    ensures r > 0.0 && r * cfg.window == cfg.limit as real
  {
    cfg.limit as real / cfg.window
  }

  function Min(a: real, b: real): real { if a < b then a else b }

  /** Tokens earned in `dt` seconds. */
  function Gain(cfg: Config, dt: real): real
    requires Sane(cfg)
  {
    dt * Rate(cfg)
  }

  /** Tokens in `b` at time `t`, refilled since it was last seen and capped at the burst. */
  function Refilled(cfg: Config, b: Bucket, t: real): real
    requires Sane(cfg)
  {
    Min(cfg.burst as real, b.tokens + Gain(cfg, t - b.seen))
  }

  /** Tokens `key` has at time `t`; a key not tracked has a full bucket. */
  function Level(cfg: Config, st: State, key: Key, t: real): real
    requires Sane(cfg)
  {
    if key in st.buckets then Refilled(cfg, st.buckets[key], t) else cfg.burst as real
  }

  function Swept(cfg: Config, st: State, now: real): State {
    if st.lastSweep.Some? && now - st.lastSweep.value < cfg.window then st
    else State(map k | k in st.buckets && now - st.buckets[k].seen <= cfg.window * 2.0 :: st.buckets[k], Some(now))
  }

  /** Whether a request may proceed, and otherwise how long until it may. */
  datatype Answer = Answer(allowed: bool, wait: real)

  function Spend(cfg: Config, st: State, key: Key, now: real): (State, Answer)
    requires Sane(cfg)
  {
    var tokens := Level(cfg, st, key, now);
    if tokens < 1.0 then
      (st.(buckets := st.buckets[key := Bucket(tokens, now)]), Answer(false, (1.0 - tokens) / Rate(cfg)))
    else
      (st.(buckets := st.buckets[key := Bucket(tokens - 1.0, now)]), Answer(true, 0.0))
  }

  function Ask(cfg: Config, st: State, key: Key, now: real): (State, Answer)
    requires Sane(cfg)
  {
    Spend(cfg, Swept(cfg, st, now), key, now)
  }

  function Cleared(st: State, key: Key): State {
    st.(buckets := Without(st.buckets, key))
  }

  class Limiter {
    const cfg: Config
    var buckets: map<Key, Bucket>
    var lastSweep: Option<real>

    ghost function Now(): State
      reads this
    {
      State(buckets, lastSweep)
    }

    constructor (limit: int, window: real, burst: int)
      ensures cfg == NewWithBurst(limit, window, burst) && Now() == EMPTY
    {
      cfg := Config(if limit < 1 then 1 else limit, if window <= 0.0 then 60.0 else window, if burst < 1 then 1 else burst);
      buckets, lastSweep := map[], None;
    }

    method Allow(key: Key, now: real) returns (allowed: bool, wait: real)
      requires Sane(cfg)
      modifies this
      ensures (Now(), Answer(allowed, wait)) == Ask(cfg, old(Now()), key, now)
    {
      var rate := Rate(cfg);
      Sweep(now);
      ghost var swept := Now();
      var tokens := cfg.burst as real;
      if key in buckets {
        tokens := Min(cfg.burst as real, buckets[key].tokens + (now - buckets[key].seen) * rate);
      }
      assert tokens == Level(cfg, swept, key, now);
      hide Level, Rate;
      if tokens < 1.0 {
        buckets := buckets[key := Bucket(tokens, now)];
        return false, (1.0 - tokens) / rate;
      }
      buckets := buckets[key := Bucket(tokens - 1.0, now)];
      return true, 0.0;
    }

    method Reset(key: Key)
      modifies this
      ensures Now() == Cleared(old(Now()), key)
    {
      buckets := Without(buckets, key);
    }

    method Sweep(now: real)
      modifies this
      ensures Now() == Swept(cfg, old(Now()), now)
    {
      if lastSweep.Some? && now - lastSweep.value < cfg.window {
        return;
      }
      lastSweep := Some(now);
      var keys := buckets.Keys;
      while keys != {}
        modifies this`buckets
        invariant keys <= buckets.Keys
        invariant forall k :: k in buckets ==> k in old(buckets) && buckets[k] == old(buckets)[k]
        invariant forall k :: k in old(buckets) && now - old(buckets)[k].seen <= cfg.window * 2.0 ==> k in buckets
        invariant forall k :: k in buckets && k !in keys ==> now - buckets[k].seen <= cfg.window * 2.0
        decreases keys
      {
        var key :| key in keys;
        if now - buckets[key].seen > cfg.window * 2.0 {
          buckets := Without(buckets, key);
        }
        keys := keys - {key};
      }
      assert buckets == Swept(cfg, old(Now()), now).buckets;
    }
  }
}
