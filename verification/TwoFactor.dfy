/**
 The second factor: app codes and recovery codes on one throttle per subject.  Checking an app code is a
 parameter, and so is the clock the throttle reads.
 */
module TwoFactor {
  import opened Jobs
  import opened Recovery
  import RateLimit

  type Subject = RateLimit.Key

  datatype Reply = Throttled(wait: real) | Wrong | Right

  /** One try up to the answer: the attempt is spent first, and nothing is checked without one. */
  function Guess(cfg: RateLimit.Config, st: RateLimit.State, subject: Subject, now: real, right: bool): (RateLimit.State, Reply)
    requires RateLimit.Sane(cfg)
  {
    var (st', answer) := RateLimit.Ask(cfg, st, subject, now);
    (st', if !answer.allowed then Throttled(answer.wait) else if right then Right else Wrong)
  }

  class Verifier {
    const kit: Kit
    const totp: (string, string, int) -> bool
    const attempts: RateLimit.Limiter

    constructor (kit: Kit, totp: (string, string, int) -> bool, limit: int, window: real)
      ensures this.kit == kit && this.totp == totp && fresh(attempts)
      ensures attempts.cfg == RateLimit.New(limit, window) && attempts.Now() == RateLimit.EMPTY
    {
      this.kit, this.totp := kit, totp;
      attempts := new RateLimit.Limiter(limit, window, limit);
    }

    method VerifyAt(subject: Subject, secret: string, code: string, t: int, now: real) returns (ok: bool, retryAfter: real)
      requires RateLimit.Sane(attempts.cfg)
      modifies attempts
      ensures var (asked, reply) := Guess(attempts.cfg, old(attempts.Now()), subject, now, totp(secret, code, t));
              && attempts.Now() == (if reply.Right? then RateLimit.Cleared(asked, subject) else asked)
              && (ok <==> reply.Right?)
              && retryAfter == (if reply.Throttled? then reply.wait else 0.0)
    {
      hide RateLimit.Ask, RateLimit.Cleared;
      var allowed, wait := attempts.Allow(subject, now);
      if !allowed {
        return false, wait;
      }
      if !totp(secret, code, t) {
        return false, 0.0;
      }
      attempts.Reset(subject);
      return true, 0.0;
    }

    method VerifyRecovery(subject: Subject, stored: string, code: string, now: real)
      returns (remaining: string, ok: bool, retryAfter: real)
      requires RateLimit.Sane(attempts.cfg)
      modifies attempts
      ensures var (left, right) := Consume(kit, stored, code);
              var (asked, reply) := Guess(attempts.cfg, old(attempts.Now()), subject, now, right);
              && attempts.Now() == (if reply.Right? then RateLimit.Cleared(asked, subject) else asked)
              && (ok <==> reply.Right?)
              && remaining == (if ok then left else stored)
              && retryAfter == (if reply.Throttled? then reply.wait else 0.0)
    {
      hide RateLimit.Ask, RateLimit.Cleared, Consume;
      var allowed, wait := attempts.Allow(subject, now);
      if !allowed {
        return stored, false, wait;
      }
      remaining, ok := ConsumeRecoveryCode(kit, stored, code);
      if !ok {
        return stored, false, 0.0;
      }
      attempts.Reset(subject);
      return remaining, true, 0.0;
    }

    method Reset(subject: Subject)
      modifies attempts
      ensures attempts.Now() == RateLimit.Cleared(old(attempts.Now()), subject)
    {
      attempts.Reset(subject);
    }
  }
}
