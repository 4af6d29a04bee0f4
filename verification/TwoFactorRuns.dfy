/**
 Whole runs of tries at the second factor.  A try spends its attempt and gets its answer in one step, and a
 recovery code is read, spent and written back in that step, as the one transaction the package asks for.
 The Reset after a success is a step of its own, so other tries may come between.
 */
module TwoFactorRuns {
  import opened Jobs
  import opened Lists
  import opened Recovery
  import opened TwoFactor
  import RateLimit
  import RateLimitRuns

  datatype Event =
    | App(subject: Subject, right: bool, now: real)
    | Recover(subject: Subject, code: string, now: real)
    | Reset(subject: Subject)

  /** `spent` lists, per subject, the accepted recovery codes as normalised. */
  datatype World = World(limits: RateLimit.State, stored: map<Subject, string>, spent: map<Subject, seq<string>>)

  function StoredOf(w: World, subject: Subject): string {
    if subject in w.stored then w.stored[subject] else ""
  }

  function SpentOf(w: World, subject: Subject): seq<string> {
    if subject in w.spent then w.spent[subject] else []
  }

  function Next(cfg: RateLimit.Config, kit: Kit, w: World, e: Event): (World, Option<Reply>)
    requires RateLimit.Sane(cfg)
  {
    match e
    case Reset(subject) => (w.(limits := RateLimit.Cleared(w.limits, subject)), None)
    case App(subject, right, now) =>
      var (limits, reply) := Guess(cfg, w.limits, subject, now, right);
      (w.(limits := limits), Some(reply))
    case Recover(subject, code, now) =>
      var (left, right) := Consume(kit, StoredOf(w, subject), code);
      var (limits, reply) := Guess(cfg, w.limits, subject, now, right);
      if reply.Right? then
        (World(limits, w.stored[subject := left], w.spent[subject := SpentOf(w, subject) + [Normal(kit, code)]]), Some(reply))
      else (w.(limits := limits), Some(reply))
  }

  function Final(cfg: RateLimit.Config, kit: Kit, w: World, es: seq<Event>): World
    requires RateLimit.Sane(cfg)
    decreases |es|
  {
    if es == [] then w else Final(cfg, kit, Next(cfg, kit, w, es[0]).0, es[1..])
  }

  /** Every hash is one clean line, and no two codes share one. */
  ghost predicate Sound(kit: Kit) {
    (forall x :: Clean(kit.hash(x))) && Injective(kit)
  }

  ghost predicate Injective(kit: Kit) {
    forall x, y :: kit.hash(x) == kit.hash(y) ==> x == y
  }

  lemma HashIsInjective(kit: Kit, a: string, b: string)
    requires Injective(kit)
    ensures kit.hash(a) == kit.hash(b) <==> a == b
  {
  }

  // ---- recovery codes are conserved ----

  /** Each code issued to `subject` is either spent or still stored, and nothing else is. */
  ghost predicate Conserved(kit: Kit, w: World, subject: Subject, issued: seq<string>) {
    forall c :: multiset(SpentOf(w, subject))[c] + multiset(Split(StoredOf(w, subject)))[kit.hash(c)] == multiset(issued)[c]
  }

  lemma HashesCons(kit: Kit, xs: seq<string>)
    requires xs != []
    ensures multiset(Hashes(kit, xs)) == multiset{kit.hash(xs[0])} + multiset(Hashes(kit, xs[1..]))
  {
    assert Hashes(kit, xs) == [kit.hash(xs[0])] + Hashes(kit, xs[1..]);
  }

  lemma {:induction false} HashesCount(kit: Kit, codes: seq<string>, c: string)
    requires Injective(kit)
    ensures multiset(Hashes(kit, codes))[kit.hash(c)] == multiset(codes)[c]
  {
    hide Hashes, Injective;
    if codes != [] {
      HashesCons(kit, codes);
      HashesCount(kit, codes[1..], c);
      HashIsInjective(kit, codes[0], c);
      assert multiset(codes) == multiset{codes[0]} + multiset(codes[1..]) by {
        assert codes == [codes[0]] + codes[1..];
      }
    }
  }

  /** Enrolment stores each code that has a meaningful character once for every time it was issued. */
  lemma EnrolledIsConserved(kit: Kit, w: World, subject: Subject, codes: seq<string>)
    requires Sound(kit) && SpentOf(w, subject) == [] && StoredOf(w, subject) == Stored(kit, codes)
    ensures Conserved(kit, w, subject, Issued(kit, codes))
  {
    hide Split, Join, Issued;
    SplitJoin(Hashes(kit, Issued(kit, codes)));
    forall c {
      HashesCount(kit, Issued(kit, codes), c);
    }
  }

  lemma SpendingConserves(kit: Kit, w: World, w': World, subject: Subject, issued: seq<string>, code: string)
    requires Injective(kit) && Conserved(kit, w, subject, issued) && SpentOf(w', subject) == SpentOf(w, subject) + [code]
    requires kit.hash(code) in Split(StoredOf(w, subject))
    requires multiset(Split(StoredOf(w', subject))) == multiset(Split(StoredOf(w, subject))) - multiset{kit.hash(code)}
    ensures Conserved(kit, w', subject, issued)
  {
    hide Split, StoredOf, SpentOf, Injective;
    forall c
      ensures multiset(SpentOf(w', subject))[c] + multiset(Split(StoredOf(w', subject)))[kit.hash(c)] == multiset(issued)[c]
    {
      HashIsInjective(kit, c, code);
      assert multiset(SpentOf(w, subject))[c] + multiset(Split(StoredOf(w, subject)))[kit.hash(c)] == multiset(issued)[c];
    }
  }

  lemma NextConserves(cfg: RateLimit.Config, kit: Kit, w: World, e: Event, subject: Subject, issued: seq<string>)
    requires RateLimit.Sane(cfg) && Sound(kit) && Conserved(kit, w, subject, issued)
    ensures Conserved(kit, Next(cfg, kit, w, e).0, subject, issued)
  {
    hide Split, Consume, RateLimit.Ask, Normal, Conserved, Injective, Clean;
    var w' := Next(cfg, kit, w, e).0;
    if e.Recover? && e.subject == subject && Next(cfg, kit, w, e).1 == Some(Right) {
      ConsumeTakesOne(kit, StoredOf(w, subject), e.code);
      SpendingConserves(kit, w, w', subject, issued, Normal(kit, e.code));
    } else {
      SameIsConserved(kit, w, w', subject, issued);
    }
  }

  lemma SameIsConserved(kit: Kit, w: World, w': World, subject: Subject, issued: seq<string>)
    requires Conserved(kit, w, subject, issued)
    requires SpentOf(w', subject) == SpentOf(w, subject) && StoredOf(w', subject) == StoredOf(w, subject)
    ensures Conserved(kit, w', subject, issued)
  {
  }

  lemma {:induction false} FinalConserves(cfg: RateLimit.Config, kit: Kit, w: World, es: seq<Event>, subject: Subject, issued: seq<string>)
    requires RateLimit.Sane(cfg) && Sound(kit) && Conserved(kit, w, subject, issued)
    ensures Conserved(kit, Final(cfg, kit, w, es), subject, issued)
    decreases |es|
  {
    hide Conserved, Next, Sound;
    if es != [] {
      NextConserves(cfg, kit, w, es[0], subject, issued);
      FinalConserves(cfg, kit, Next(cfg, kit, w, es[0]).0, es[1..], subject, issued);
    }
  }

  /**
   Through any run of tries by anyone: what was accepted and what is stored add up to what was issued, so no
   code is accepted more often than it was issued.
   */
  lemma CodesAreConserved(cfg: RateLimit.Config, kit: Kit, w: World, codes: seq<string>, es: seq<Event>, subject: Subject)
    requires RateLimit.Sane(cfg) && Sound(kit)
    requires SpentOf(w, subject) == [] && StoredOf(w, subject) == Stored(kit, codes)
    ensures var w' := Final(cfg, kit, w, es);
            && Conserved(kit, w', subject, Issued(kit, codes))
            && multiset(SpentOf(w', subject)) <= multiset(Issued(kit, codes))
  {
    hide Stored, Issued, Split, Final, Sound;
    EnrolledIsConserved(kit, w, subject, codes);
    FinalConserves(cfg, kit, w, es, subject, Issued(kit, codes));
  }

  lemma LeftExactly(kit: Kit, w: World, subject: Subject, issued: seq<string>, c: string)
    requires Conserved(kit, w, subject, issued)
    ensures kit.hash(c) in Split(StoredOf(w, subject)) <==> multiset(SpentOf(w, subject))[c] < multiset(issued)[c]
  {
    hide Split, StoredOf, SpentOf;
    assert multiset(SpentOf(w, subject))[c] + multiset(Split(StoredOf(w, subject)))[kit.hash(c)] == multiset(issued)[c];
  }

  lemma NothingIssuedIsEmpty(kit: Kit, codes: seq<string>)
    ensures "" !in Issued(kit, codes)
  {
  }

  /**
   After any run, a try that is not throttled is accepted exactly when its code, as normalised, was issued more
   often than it has been accepted: unspent codes stay good in any order, and spent ones are gone.
   */
  lemma AcceptedExactly(cfg: RateLimit.Config, kit: Kit, w: World, codes: seq<string>, es: seq<Event>, subject: Subject, code: string, now: real)
    requires RateLimit.Sane(cfg) && Sound(kit)
    requires SpentOf(w, subject) == [] && StoredOf(w, subject) == Stored(kit, codes)
    ensures var w' := Final(cfg, kit, w, es);
            var reply := Next(cfg, kit, w', Recover(subject, code, now)).1;
            && reply.Some?
            && (!reply.value.Throttled? ==>
                  (reply.value.Right? <==>
                    multiset(SpentOf(w', subject))[Normal(kit, code)] < multiset(Issued(kit, codes))[Normal(kit, code)]))
  {
    hide Stored, Issued, Split, Consume, Final, Sound, Normal, Conserved, RateLimit.Ask;
    var w' := Final(cfg, kit, w, es);
    CodesAreConserved(cfg, kit, w, codes, es, subject);
    ConsumeTakesOne(kit, StoredOf(w', subject), code);
    NothingIssuedIsEmpty(kit, codes);
    LeftExactly(kit, w', subject, Issued(kit, codes), Normal(kit, code));
  }

  /** Only an accepted recovery code changes what is stored, and only its own subject's. */
  lemma OtherStepsStoreNothing(cfg: RateLimit.Config, kit: Kit, w: World, e: Event, subject: Subject)
    requires RateLimit.Sane(cfg)
    ensures var (w', reply) := Next(cfg, kit, w, e);
            var accepted := e.Recover? && e.subject == subject && reply == Some(Right);
            && (!accepted ==> StoredOf(w', subject) == StoredOf(w, subject) && SpentOf(w', subject) == SpentOf(w, subject))
            && (accepted ==> Split(StoredOf(w', subject)) == RemoveFirst(Split(StoredOf(w, subject)), kit.hash(Normal(kit, e.code))))
  {
    hide Split, Consume, Normal, RateLimit.Ask;
    if e.Recover? {
      ConsumeTakesOne(kit, StoredOf(w, e.subject), e.code);
    }
  }

  /** What is stored after spending `order` one by one; nothing once one of them is refused. */
  function SpendAll(kit: Kit, stored: string, order: seq<string>): Option<string>
    decreases |order|
  {
    if order == [] then Some(stored)
    else
      var (left, ok) := Consume(kit, stored, order[0]);
      if ok then SpendAll(kit, left, order[1..]) else None
  }

  function Normals(kit: Kit, codes: seq<string>): (ns: seq<string>)
    ensures |ns| == |codes| && forall i :: 0 <= i < |ns| ==> ns[i] == Normal(kit, codes[i])
  {
    seq(|codes|, i requires 0 <= i < |codes| => Normal(kit, codes[i]))
  }

  lemma {:induction false} SpendAllFrom(kit: Kit, stored: string, order: seq<string>)
    requires multiset(Hashes(kit, Normals(kit, order))) == multiset(Split(stored)) && "" !in Normals(kit, order)
    ensures SpendAll(kit, stored, order).Some? && Split(SpendAll(kit, stored, order).value) == []
    decreases |order|
  {
    hide Split, Normal, Consume;
    if order == [] {
      assert multiset(Split(stored)) == multiset{};
      assert |Split(stored)| == |multiset(Split(stored))|;
    } else {
      var h := kit.hash(Normal(kit, order[0]));
      assert Hashes(kit, Normals(kit, order)) == [h] + Hashes(kit, Normals(kit, order[1..]));
      assert h in multiset(Split(stored));
      assert Normals(kit, order)[0] == Normal(kit, order[0]);
      ConsumeTakesOne(kit, stored, order[0]);
      assert forall n :: n in Normals(kit, order[1..]) ==> n in Normals(kit, order);
      SpendAllFrom(kit, Consume(kit, stored, order[0]).0, order[1..]);
    }
  }

  lemma {:induction false} HashesOfPermuted(kit: Kit, a: seq<string>, b: seq<string>)
    requires multiset(a) == multiset(b)
    ensures multiset(Hashes(kit, a)) == multiset(Hashes(kit, b))
    decreases |a|
  {
    if a != [] {
      hide Hashes, RemoveFirst;
      assert a[0] in multiset(a);
      assert a[0] in multiset(b);
      TakingOneOut(kit, b, a[0]);
      assert a == [a[0]] + a[1..];
      RemoveFirstTakesOne(b, a[0]);
      assert multiset(a[1..]) == multiset(RemoveFirst(b, a[0]));
      HashesOfPermuted(kit, a[1..], RemoveFirst(b, a[0]));
      HashesCons(kit, a);
    } else {
      assert |b| == |multiset(b)|;
    }
  }

  lemma {:induction false} TakingOneOut(kit: Kit, b: seq<string>, x: string)
    requires x in b
    ensures multiset(Hashes(kit, b)) == multiset(Hashes(kit, RemoveFirst(b, x))) + multiset{kit.hash(x)}
  {
    hide Hashes;
    HashesCons(kit, b);
    if b[0] != x {
      TakingOneOut(kit, b[1..], x);
      var rest := RemoveFirst(b, x);
      assert rest[0] == b[0] && rest[1..] == RemoveFirst(b[1..], x);
      HashesCons(kit, rest);
    }
  }

  /** The codes issued can all be spent, in any order, and then none is left; two hashes need not even differ. */
  lemma AnyOrderSpendsAll(kit: Kit, codes: seq<string>, order: seq<string>)
    requires forall x :: Clean(kit.hash(x))
    requires multiset(Normals(kit, order)) == multiset(Issued(kit, codes))
    ensures var left := SpendAll(kit, Stored(kit, codes), order);
            left.Some? && Split(left.value) == []
  {
    hide Split, Normal, Join, Issued, SpendAll;
    SplitJoin(Hashes(kit, Issued(kit, codes)));
    NothingIssuedIsEmpty(kit, codes);
    HashesOfPermuted(kit, Normals(kit, order), Issued(kit, codes));
    assert "" !in multiset(Issued(kit, codes));
    assert "" !in multiset(Normals(kit, order));
    SpendAllFrom(kit, Stored(kit, codes), order);
  }

  // ---- one budget for both kinds of code ----

  function Seen(e: Event): RateLimitRuns.Event {
    match e
    case App(subject, _, now) => RateLimitRuns.Ask(subject, now)
    case Recover(subject, _, now) => RateLimitRuns.Ask(subject, now)
    case Reset(subject) => RateLimitRuns.Reset(subject)
  }

  function AllSeen(es: seq<Event>): (rs: seq<RateLimitRuns.Event>)
    ensures |rs| == |es| && forall i :: 0 <= i < |es| ==> rs[i] == Seen(es[i])
  {
    seq(|es|, i requires 0 <= i < |es| => Seen(es[i]))
  }

  predicate InOrder(es: seq<Event>, from: real, to: real) {
    RateLimitRuns.InOrder(AllSeen(es), from, to)
  }

  /** Codes of either kind, right or wrong, that were actually checked for `subject`. */
  function Checked(cfg: RateLimit.Config, kit: Kit, w: World, es: seq<Event>, subject: Subject): nat
    requires RateLimit.Sane(cfg)
    decreases |es|
  {
    if es == [] then 0
    else
      var (w', reply) := Next(cfg, kit, w, es[0]);
      (if es[0].subject == subject && reply.Some? && !reply.value.Throttled? then 1 else 0) + Checked(cfg, kit, w', es[1..], subject)
  }

  lemma NextIsSeen(cfg: RateLimit.Config, kit: Kit, w: World, e: Event)
    requires RateLimit.Sane(cfg)
    ensures var (w', reply) := Next(cfg, kit, w, e);
            var (limits, answer) := RateLimitRuns.Do(cfg, w.limits, Seen(e), true);
            && w'.limits == limits && reply.Some? == answer.Some?
            && (reply.Some? <==> !e.Reset?)
            && (answer.Some? ==> (answer.value.allowed <==> !reply.value.Throttled?))
  {
    hide Consume, RateLimit.Ask, RateLimit.Cleared;
  }

  lemma {:induction false} RunsAreSeen(cfg: RateLimit.Config, kit: Kit, w: World, es: seq<Event>, subject: Subject)
    requires RateLimit.Sane(cfg)
    ensures Final(cfg, kit, w, es).limits == RateLimitRuns.Final(cfg, w.limits, AllSeen(es), true)
    ensures Checked(cfg, kit, w, es, subject) == RateLimitRuns.Passed(cfg, w.limits, AllSeen(es), subject)
    decreases |es|
  {
    hide Next, RateLimitRuns.Do;
    if es != [] {
      NextIsSeen(cfg, kit, w, es[0]);
      assert AllSeen(es)[1..] == AllSeen(es[1..]);
      RunsAreSeen(cfg, kit, Next(cfg, kit, w, es[0]).0, es[1..], subject);
    }
  }

  /**
   After any history of a new verifier, over any span in which the subject's record is not cleared, app codes
   and recovery codes checked for it number together at most the attempts plus what they earn back in the span.
   */
  lemma GuessBudget(attempts: int, window: real, kit: Kit, stored: map<Subject, string>, history: seq<Event>, start: real,
                    es: seq<Event>, subject: Subject, from: real, to: real)
    requires InOrder(history, start, from) && InOrder(es, from, to)
    requires forall i :: 0 <= i < |es| && es[i].Reset? ==> es[i].subject != subject
    ensures var cfg := RateLimit.New(attempts, window);
            var w := Final(cfg, kit, World(RateLimit.EMPTY, stored, map[]), history);
            && Checked(cfg, kit, w, es, subject) as real <= cfg.limit as real + RateLimitRuns.Earned(cfg, to - from)
            && (attempts >= 1 && window > 0.0 ==>
                  Checked(cfg, kit, w, es, subject) as real <= attempts as real + attempts as real * (to - from) / window)
  {
    hide Final, Checked, RateLimitRuns.Final, RateLimitRuns.Passed, RateLimitRuns.InOrder, Next;
    var cfg := RateLimit.New(attempts, window);
    var w0 := World(RateLimit.EMPTY, stored, map[]);
    RunsAreSeen(cfg, kit, w0, history, subject);
    RunsAreSeen(cfg, kit, Final(cfg, kit, w0, history), es, subject);
    RateLimitRuns.BucketBound(cfg, AllSeen(history), start, AllSeen(es), subject, from, to);
  }

  /** Clearing gives back every attempt to the subject and touches nobody else's. */
  lemma ClearedIsWhole(cfg: RateLimit.Config, st: RateLimit.State, subject: Subject, other: Subject, now: real)
    requires RateLimit.Sane(cfg)
    ensures RateLimit.Level(cfg, RateLimit.Cleared(st, subject), other, now) ==
            if other == subject then cfg.burst as real else RateLimit.Level(cfg, st, other, now)
  {
  }
}
