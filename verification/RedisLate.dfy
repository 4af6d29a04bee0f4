/** What late settlement does to the Redis queue: runs in which it does harm, exactly which settlements can, and how much. */
module RedisLate {
  import opened Jobs
  import opened Books
  import opened RedisQueue
  import opened RedisRuns
  import opened RedisRefines
  import opened Sets
  import Q = QueueSpec

  ghost predicate Reaches(ws: seq<World>, es: seq<Event>, w: World) {
    Run(ws, es) && ws[|es|] == w
  }

  ghost predicate Reachable(w: World) {
    exists ws, es :: Reaches(ws, es, w)
  }

  lemma Begins(w: World)
    requires Init(w)
    ensures Reachable(w)
  {
    assert Reaches([w], [], w);
  }

  lemma Onward(w: World, e: Event)
    requires Reachable(w) && Enabled(w, e)
    ensures Reachable(Next(w, e))
  {
    var ws, es :| Reaches(ws, es, w);
    assert Reaches(ws + [Next(w, e)], es + [e], Next(w, e));
  }

  /** One job with a budget of five, held by claim 1 until instant ten. */
  lemma OneHeld() returns (w: World)
    ensures Reachable(w) && w.now == 0 && w.timeout == 10
    ensures w.db == Db(map[], map[1 := 10], map[1 := Stored(1, "", "", 5, 0, 0, "", 0)], map[1 := 1], [], 1)
    ensures w.crew.held == map[1 := Q.Hold(Record(1, "", "", 1, 5, 0, 0, ""), 10)]
  {
    w := World(0, 10, EMPTY, map[], map[], {}, Q.Crew(map[], map[], map[], map[]), BLANK);
    hide Reachable;
    var w0, push, claim := w, MintPush(Record(0, "", "", 0, 5, 0, 0, "")), Claim(1, 0, Some(1));
    var w1 := Next(w0, push);
    var w2 := Next(w1, Write(1));
    assert w2.db == Db(map[1 := 0], map[], map[1 := Stored(1, "", "", 5, 0, 0, "", 0)], map[], [], 1);
    assert Reclaimed(w2.db, 0) == w2.db;
    w := Next(w2, claim);
    assert Init(w0) && Enabled(w0, push) && Enabled(w1, Write(1)) && Enabled(w2, claim);
    hide Init, Next, Enabled;
    Begins(w0);
    Onward(w0, push);
    Onward(w1, Write(1));
    Onward(w2, claim);
  }

  /** Claim 1 lapses, and claim 2 takes the job over. */
  lemma TakenOver() returns (w: World)
    ensures Reachable(w) && w.now == 10 && w.timeout == 10
    ensures w.db == Db(map[], map[1 := 20], map[1 := Stored(1, "", "", 5, 0, 0, "", 0)], map[1 := 2], [], 1)
    ensures w.crew.held == map[1 := Q.Hold(Record(1, "", "", 1, 5, 0, 0, ""), 10), 2 := Q.Hold(Record(1, "", "", 2, 5, 0, 0, ""), 20)]
  {
    hide Reachable;
    var w0 := OneHeld();
    var claim := Claim(2, 10, Some(1));
    var w1 := Next(w0, Tick(10));
    assert Reclaimed(w1.db, 10) == w1.db.(pending := map[1 := 10], reserved := map[]);
    w := Next(w1, claim);
    assert Enabled(w0, Tick(10)) && Enabled(w1, claim);
    hide Next, Enabled, Reclaimed;
    Onward(w0, Tick(10));
    Onward(w1, claim);
  }

  /** Claim 1's worker hands the job back after that. */
  lemma HandedBackLate() returns (w: World)
    ensures Reachable(w) && w.now == 10 && w.timeout == 10
    ensures w.db == Db(map[1 := 10], map[], map[1 := Stored(1, "", "", 5, 10, 0, "", 0)], map[1 := 2], [], 1)
    ensures w.crew.held == map[2 := Q.Hold(Record(1, "", "", 2, 5, 0, 0, ""), 20)]
  {
    hide Reachable;
    var w0 := TakenOver();
    w := Next(w0, HandBack(1, 10, ""));
    assert Enabled(w0, HandBack(1, 10, ""));
    Onward(w0, HandBack(1, 10, ""));
  }

  /** The job is handed out a third time while claim 2 is still live: two live claims of one job. */
  lemma LateSettlementShares() returns (w: World)
    ensures Reachable(w) && !Q.Exclusive(Abstract(w))
    ensures {2, 3} <= w.crew.held.Keys && w.crew.held[2].rec.id == w.crew.held[3].rec.id
    ensures w.now < w.crew.held[2].lease && w.now < w.crew.held[3].lease
  {
    hide Reachable;
    w := HandedBackLate();
    assert Reclaimed(w.db, 10) == w.db;
    Onward(w, Claim(3, 10, Some(1)));
    w := Next(w, Claim(3, 10, Some(1)));
    assert Q.Live(Abstract(w), 2) && Q.Live(Abstract(w), 3);
  }

  // ---- what exactly lateness breaks ----

  /** A live claim of job `id` other than `c`. */
  ghost predicate HeldElsewhere(w: World, c: Ticket, id: JobId) {
    exists d :: d != c && Q.Live(Abstract(w), d) && w.crew.held[d].rec.id == id
  }

  /** Taking a job's reservation and nothing of any other job. */
  lemma LosingReservation(w: World, c: Ticket, w': World)
    requires Tidy(w) && c in w.crew.held && w'.crew.held == Without(w.crew.held, c) && w'.now == w.now
    requires w'.db.reserved == Without(w.db.reserved, w.crew.held[c].rec.id)
    requires forall k :: k != w.crew.held[c].rec.id ==> (k in w'.db.pending <==> k in w.db.pending) && (k in w'.db.jobs <==> k in w.db.jobs)
    ensures var id := w.crew.held[c].rec.id;
            Tidy(w') <==> !HeldElsewhere(w, c, id) && (id in w'.db.pending ==> id in w'.db.jobs)
  {
    var id := w.crew.held[c].rec.id;
    if d :| d != c && Q.Live(Abstract(w), d) && w.crew.held[d].rec.id == id {
      assert d in w'.crew.held && id !in w'.db.reserved;
    } else {
      forall d | d in w'.crew.held && w'.now < w'.crew.held[d].lease ensures w.crew.held[d].rec.id != id {
        assert Q.Live(Abstract(w), d);
      }
    }
  }

  /**
   What exclusivity rests on survives a settlement, late or not, exactly when no other live claim is on the job and
   the job's id is not waiting in pending while its record is removed.
   */
  lemma SettleKeepsTidyExactly(w: World, c: Ticket, outcome: Outcome, at: int, reason: string)
    requires Tidy(w) && c in w.crew.held
    ensures var id := w.crew.held[c].rec.id;
            Tidy(DoSettle(w, c, outcome, at, reason)) <==>
              !HeldElsewhere(w, c, id) && (Decide(w.crew.held[c].rec, outcome).Release? || id !in w.db.pending)
  {
    hide Tidy, HeldElsewhere, Trim, Buried, Rewritten;
    LosingReservation(w, c, DoSettle(w, c, outcome, at, reason));
  }

  /** The same for handing a job back, which removes no record. */
  lemma HandBackKeepsTidyExactly(w: World, c: Ticket, at: int, reason: string)
    requires Tidy(w) && c in w.crew.held
    ensures Tidy(Next(w, HandBack(c, at, reason))) <==> !HeldElsewhere(w, c, w.crew.held[c].rec.id)
  {
    hide Tidy, HeldElsewhere, Rewritten;
    LosingReservation(w, c, Next(w, HandBack(c, at, reason)));
  }

  // ---- claims that return nothing although a job is due ----

  /** Completing a job that a late worker had put back leaves its id behind. */
  lemma IdLeftBehind() returns (w: World)
    ensures Reachable(w) && w.now == 10 && w.db == Db(map[1 := 10], map[], map[], map[], [], 1) && w.crew.held == map[]
  {
    hide Reachable;
    var w0 := HandedBackLate();
    w := Next(w0, Settle(2, Succeeded, 0, ""));
    assert Enabled(w0, Settle(2, Succeeded, 0, ""));
    Onward(w0, Settle(2, Succeeded, 0, ""));
  }

  /** Then another job is due, but a claim finds that id first and returns nothing. */
  lemma NilThoughDue() returns (w: World)
    ensures Reachable(w) && Enabled(w, Claim(9, 10, Some(1))) && Q.Claimable(JobsOf(w.db), 10, 2)
    ensures 9 !in w.crew.held && Next(w, Claim(9, 10, Some(1))).crew == w.crew
  {
    hide Reachable;
    var w0 := IdLeftBehind();
    var push := MintPush(Record(0, "", "", 0, 5, 10, 10, ""));
    var w1 := Next(w0, push);
    w := Next(w1, Write(2));
    assert Enabled(w0, push) && Enabled(w1, Write(2));
    assert w.db == Db(map[1 := 10, 2 := 10], map[], map[2 := Stored(2, "", "", 5, 10, 10, "", 0)], map[], [], 2);
    SpuriousAnswer(w);
    hide Enabled, Next;
    Onward(w0, push);
    Onward(w1, Write(2));
  }

  lemma SpuriousAnswer(w: World)
    requires w.db == Db(map[1 := 10, 2 := 10], map[], map[2 := Stored(2, "", "", 5, 10, 10, "", 0)], map[], [], 2)
    requires w.now == 10 && w.crew.held == map[]
    ensures Enabled(w, Claim(9, 10, Some(1))) && Next(w, Claim(9, 10, Some(1))).crew == w.crew && Q.Claimable(JobsOf(w.db), 10, 2)
  {
    assert Reclaimed(w.db, 10) == w.db;
  }

  /** Ids waiting without a record. */
  function Strays(db: Db): set<JobId> { db.pending.Keys - db.jobs.Keys }

  /** A claim that picked an id without a record, and so returned nothing. */
  predicate Spurious(w: World, e: Event) {
    e.Claim? && e.pick.Some? && e.pick.value !in w.db.jobs
  }

  /** A settlement that removes the record of an id that waits in pending. */
  predicate Strands(w: World, e: Event) {
    && e.Settle? && e.c in w.crew.held && !Decide(w.crew.held[e.c].rec, e.outcome).Release?
    && w.crew.held[e.c].rec.id in w.db.pending && w.crew.held[e.c].rec.id in w.db.jobs
  }

  lemma ReclaimKeepsStrays(db: Db, t: int)
    requires Layout(db)
    ensures Strays(Reclaimed(db, t)) == Strays(db)
  {
  }

  lemma SettleStrays(w: World, c: Ticket, outcome: Outcome, at: int, reason: string)
    requires c in w.crew.held
    ensures var id := w.crew.held[c].rec.id;
            var before, after := Strays(w.db), Strays(DoSettle(w, c, outcome, at, reason).db);
            if Strands(w, Settle(c, outcome, at, reason)) then after == before + {id} && id !in before else after <= before
  {
    hide Trim, Buried, Rewritten;
  }

  /** What one event does to the stray ids: only a stranding adds one, and every spurious answer uses one up. */
  lemma StraysStep(w: World, e: Event)
    requires Layout(w.db) && Enabled(w, e)
    ensures var before, after := Strays(w.db), Strays(Next(w, e).db);
            if Spurious(w, e) then e.pick.value in before && after == before - {e.pick.value}
            else if Strands(w, e) then after == before + {w.crew.held[e.c].rec.id} && w.crew.held[e.c].rec.id !in before
            else after <= before
  {
    if e.Settle? {
      hide DoSettle, Strands, Strays;
      SettleStrays(w, e.c, e.outcome, e.at, e.reason);
    } else if e.Claim? {
      ClaimStrays(w, e.c, e.t, e.pick);
    } else {
      hide Trim, Rewritten;
    }
  }

  lemma ClaimStrays(w: World, c: Ticket, t: int, pick: Option<JobId>)
    requires Layout(w.db) && Enabled(w, Claim(c, t, pick))
    ensures var before, after := Strays(w.db), Strays(DoClaim(w, c, t, pick).db);
            if pick.Some? && pick.value !in w.db.jobs then pick.value in before && after == before - {pick.value}
            else after <= before
  {
    ReclaimKeepsStrays(w.db, t);
    hide Reclaimed;
  }

  /** Spurious answers among the first `i` events, and settlements among them that stranded an id. */
  function SpuriousAnswers(ws: seq<World>, es: seq<Event>, i: nat): nat
    requires i <= |es| < |ws|
  {
    if i == 0 then 0 else SpuriousAnswers(ws, es, i - 1) + (if Spurious(ws[i - 1], es[i - 1]) then 1 else 0)
  }

  function Strandings(ws: seq<World>, es: seq<Event>, i: nat): nat
    requires i <= |es| < |ws|
  {
    if i == 0 then 0 else Strandings(ws, es, i - 1) + (if Strands(ws[i - 1], es[i - 1]) then 1 else 0)
  }

  /** On every run, however late workers settle: spurious answers so far, and ids still astray, are together at most the strandings. */
  lemma {:induction false} SpuriousAreBounded(ws: seq<World>, es: seq<Event>, i: nat)
    requires Run(ws, es) && i <= |es|
    ensures SpuriousAnswers(ws, es, i) + |Strays(ws[i].db)| <= Strandings(ws, es, i)
  {
    hide Enabled, Next, Strays, Spurious, Strands;
    if i == 0 {
      NoStrays(ws[0]);
    } else {
      var w, e := ws[i - 1], es[i - 1];
      SpuriousAreBounded(ws, es, i - 1);
      RunIsSafe(ws, es, i - 1);
      StraysStep(w, e);
      if !Spurious(w, e) && !Strands(w, e) {
        Subset(Strays(ws[i].db), Strays(w.db));
      }
    }
  }

  lemma NoStrays(w: World)
    requires Init(w)
    ensures Strays(w.db) == {}
  {
  }
}
