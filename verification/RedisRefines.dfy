/** What whole runs of the Redis queue guarantee, with and without timely settlement. */
module RedisRefines {
  import opened Jobs
  import opened Books
  import opened RedisQueue
  import opened RedisRuns
  import Q = QueueSpec

  /** The instant from which a stored job may be handed out: its due time, or when its reservation lapses. */
  function Avail(db: Db, id: JobId): int {
    if id in db.pending then db.pending[id] else if id in db.reserved then db.reserved[id] else 0
  }

  function JobsOf(db: Db): map<JobId, Q.Job> {
    map id | id in db.jobs :: Q.Job(Avail(db, id), Count(db.attempts, id), db.jobs[id].max)
  }

  function Abstract(w: World): Q.State {
    Q.State(w.now, JobsOf(w.db), w.crew)
  }

  function LabelOf(e: Event): Q.Label {
    match e
    case Tick(_) => Q.Label.Tick
    case Write(id) => Q.Label.Push(id)
    case Claim(c, t, pick) => if pick.Some? then Q.Label.Take(c, t) else Q.Label.Idle(t)
    case Settle(c, outcome, _, _) => Q.Label.Settle(c, outcome)
    case HandBack(c, _, _) => Q.Label.HandBack(c)
    case Drop(c) => Q.Label.Drop(c)
    case _ => Q.Label.Internal
  }

  /** Settling while the reservation still stands. */
  ghost predicate Timely(w: World, e: Event) {
    match e
    case Settle(c, _, _, _) => c in w.crew.held && w.now < w.crew.held[c].lease
    case HandBack(c, _, _) => c in w.crew.held && w.now < w.crew.held[c].lease
    case _ => true
  }

  /** What timely settlement adds to the layout: no id without a record, and every live hold has its reservation. */
  ghost predicate Tidy(w: World) {
    && w.db.pending.Keys <= w.db.jobs.Keys
    && (forall c :: c in w.crew.held && w.now < w.crew.held[c].lease ==>
          w.crew.held[c].rec.id in w.db.reserved && w.db.reserved[w.crew.held[c].rec.id] == w.crew.held[c].lease)
  }

  // ---- the claim script, exactly ----

  /** Whatever the state of the keys: the script returns nothing exactly when no stored job is claimable or it picked an id whose record is gone. */
  lemma NilExactly(db: Db, now: int, expires: int, pick: Option<JobId>, db': Db)
    requires Layout(db) && Claims(db, now, expires, pick, db')
    ensures Reply(db, db', pick).None? <==>
              (forall id :: !Q.Claimable(JobsOf(db), now, id)) || (pick.Some? && pick.value !in db.jobs)
    ensures Reply(db, db', pick).Some? ==> Q.Claimable(JobsOf(db), now, pick.value)
  {
    NothingDue(db, now);
    if pick.Some? {
      assert Due(Reclaimed(db, now), now, pick.value);
    }
  }

  lemma NothingDue(db: Db, now: int)
    requires Layout(db)
    ensures forall id :: id in db.jobs ==> (Due(Reclaimed(db, now), now, id) <==> Q.Claimable(JobsOf(db), now, id))
    ensures (forall id :: !Due(Reclaimed(db, now), now, id)) ==> Reclaimed(db, now) == db
  {
    var ready := Reclaimed(db, now);
    if forall id :: !Due(ready, now, id) {
      assert forall id :: id in db.reserved ==> id in ready.reserved by {
        forall id | id in db.reserved ensures id in ready.reserved {
          assert !Due(ready, now, id);
        }
      }
      assert ready.reserved == db.reserved;
      assert ready.pending == db.pending;
    }
  }

  lemma ReclaimOnlyRaises(db: Db, t: int)
    requires Layout(db)
    ensures Q.Raised(JobsOf(db), JobsOf(Reclaimed(db, t)), t)
  {
  }

  lemma GrabTakes(db: Db, id: JobId, expires: int)
    requires Layout(db) && id in db.pending && id in db.jobs
    ensures var job := JobsOf(db)[id];
            JobsOf(Grab(db, id, expires)) == JobsOf(db)[id := Q.Job(expires, job.attempts + 1, job.max)]
  {
  }

  lemma ClaimIdles(w: World, c: Ticket, t: int)
    requires Layout(w.db) && Tidy(w) && Enabled(w, Claim(c, t, None))
    ensures Q.Idles(Abstract(w), t, Abstract(DoClaim(w, c, t, None)))
  {
    NothingDue(w.db, t);
  }

  lemma ScriptTakes(db: Db, t: int, expires: int, id: JobId)
    requires Layout(db) && FirstDue(Reclaimed(db, t), t, id) && id in db.jobs
    ensures var db' := Grab(Reclaimed(db, t), id, expires);
            var jobs, jobs' := JobsOf(db), JobsOf(db');
            && Q.Claimable(jobs, t, id)
            && jobs[id].max == db.jobs[id].max && jobs[id].attempts + 1 == Count(db'.attempts, id)
            && id in jobs' && jobs'[id] == Q.Job(expires, jobs[id].attempts + 1, jobs[id].max)
            && Q.Raised(Without(jobs, id), Without(jobs', id), t)
  {
    NothingDue(db, t);
    ReclaimOnlyRaises(db, t);
    ReclaimLayout(db, t);
    GrabTakes(Reclaimed(db, t), id, expires);
  }

  lemma ClaimTakes(w: World, c: Ticket, t: int, id: JobId)
    requires Layout(w.db) && Tidy(w) && Enabled(w, Claim(c, t, Some(id))) && id in w.db.jobs && w.db.jobs[id].id == id
    ensures Q.Takes(Abstract(w), c, t, Abstract(DoClaim(w, c, t, Some(id))))
  {
    hide JobsOf, Reclaimed, Layout, Tidy, Q.Raised, Q.Claimable, FirstDue;
    ScriptTakes(w.db, t, t + w.timeout, id);
  }

  lemma PickedIsStored(w: World, c: Ticket, t: int, id: JobId)
    requires Layout(w.db) && Tidy(w) && Enabled(w, Claim(c, t, Some(id)))
    ensures id in w.db.jobs && w.db.jobs[id].id == id
  {
    assert Due(Reclaimed(w.db, t), t, id);
  }

  lemma ClaimKeepsTidy(w: World, c: Ticket, t: int, pick: Option<JobId>)
    requires Layout(w.db) && Tidy(w) && Enabled(w, Claim(c, t, pick))
    ensures Tidy(DoClaim(w, c, t, pick))
  {
  }

  lemma RemoveTakesOut(db: Db, id: JobId)
    requires Layout(db)
    ensures JobsOf(Remove(db, id)) == Without(JobsOf(db), id)
  {
  }

  lemma GiveBackReschedules(db: Db, rec: Record, at: int, reason: string)
    requires Layout(db) && rec.id in db.jobs && db.jobs[rec.id].max == rec.max
    ensures JobsOf(GiveBack(db, rec, at, reason)) == JobsOf(db)[rec.id := JobsOf(db)[rec.id].(at := at)]
  {
  }

  /** The queue still stores the job behind a live hold. */
  ghost predicate Stands(w: World, c: Ticket) {
    && Q.Live(Abstract(w), c)
    && var rec := w.crew.held[c].rec;
    && rec.id in w.db.jobs && w.db.jobs[rec.id].max == rec.max
    && rec.id in w.db.reserved
  }

  lemma LiveStands(w: World, c: Ticket)
    requires Tidy(w) && Q.Backed(Abstract(w)) && Q.Live(Abstract(w), c)
    ensures Stands(w, c)
  {
  }

  lemma SettleRefines(w: World, c: Ticket, outcome: Outcome, at: int, reason: string)
    requires Layout(w.db) && Stands(w, c)
    ensures Q.Settles(Abstract(w), c, outcome, Abstract(DoSettle(w, c, outcome, at, reason)))
  {
    var rec := w.crew.held[c].rec;
    RemoveTakesOut(w.db, rec.id);
    GiveBackReschedules(w.db, rec, at, reason);
    assert JobsOf(Bury(w.db, rec, reason)) == JobsOf(Remove(w.db, rec.id));
  }

  lemma HandBackRefines(w: World, c: Ticket, at: int, reason: string)
    requires Layout(w.db) && Stands(w, c)
    ensures Q.HandsBack(Abstract(w), c, Abstract(Next(w, HandBack(c, at, reason))))
  {
    GiveBackReschedules(w.db, w.crew.held[c].rec, at, reason);
  }

  /** Settling one live hold leaves the reservations behind all others alone. */
  lemma SettleKeepsTidy(w: World, c: Ticket, w': World)
    requires Layout(w.db) && Tidy(w) && Q.Exclusive(Abstract(w)) && Stands(w, c)
    requires w' == w.(db := w'.db, crew := w'.crew, graves := w'.graves, books := w'.books)
    requires w'.crew.held == Without(w.crew.held, c)
    requires w'.db.reserved == Without(w.db.reserved, w.crew.held[c].rec.id)
    requires w'.db.pending.Keys <= w'.db.jobs.Keys
    ensures Tidy(w')
  {
    forall d | d in w.crew.held && d != c && w.now < w.crew.held[d].lease
      ensures w.crew.held[d].rec.id != w.crew.held[c].rec.id
    {
      assert Q.Live(Abstract(w), d);
    }
  }

  lemma SettleStaysTidy(w: World, c: Ticket, outcome: Outcome, at: int, reason: string)
    requires Layout(w.db) && Tidy(w) && Q.Exclusive(Abstract(w)) && Stands(w, c)
    ensures Tidy(DoSettle(w, c, outcome, at, reason))
  {
    SettleKeepsTidy(w, c, DoSettle(w, c, outcome, at, reason));
  }

  lemma HandBackStaysTidy(w: World, c: Ticket, at: int, reason: string)
    requires Layout(w.db) && Tidy(w) && Q.Exclusive(Abstract(w)) && Stands(w, c)
    ensures Tidy(Next(w, HandBack(c, at, reason)))
  {
    SettleKeepsTidy(w, c, Next(w, HandBack(c, at, reason)));
  }

  lemma WriteRefines(w: World, id: JobId)
    requires Safe(w) && Tidy(w) && id in w.drafts
    ensures Q.Pushes(Abstract(w), id, Abstract(DoWrite(w, id)))
    ensures Tidy(DoWrite(w, id))
  {
    var w' := DoWrite(w, id);
    assert JobsOf(w'.db) == JobsOf(w.db)[id := JobsOf(w'.db)[id]];
  }

  lemma NextKeepsTidy(w: World, e: Event)
    requires Safe(w) && Tidy(w) && Q.Exclusive(Abstract(w)) && Q.Backed(Abstract(w)) && Enabled(w, e) && Timely(w, e)
    ensures Tidy(Next(w, e))
  {
    hide Layout, Fresh, Faithful, Filed, NoneLost, Q.Exclusive, Q.Backed, DoClaim, DoSettle, GiveBack;
    match e
    case Write(id) =>
    case Claim(c, t, pick) => ClaimKeepsTidy(w, c, t, pick);
    case Settle(c, outcome, at, reason) =>
      LiveStands(w, c);
      SettleStaysTidy(w, c, outcome, at, reason);
    case HandBack(c, at, reason) =>
      LiveStands(w, c);
      HandBackStaysTidy(w, c, at, reason);
    case _ =>
  }

  lemma SameJobs(db: Db, db': Db)
    requires db' == db.(counter := db'.counter, failed := db'.failed)
    ensures JobsOf(db') == JobsOf(db)
  {
  }

  lemma NextRefines(w: World, e: Event)
    requires Safe(w) && Tidy(w) && Q.Backed(Abstract(w)) && Enabled(w, e) && Timely(w, e)
    ensures Q.Next(Abstract(w), LabelOf(e), Abstract(Next(w, e)))
  {
    hide Layout, Fresh, Faithful, Filed, NoneLost, Tidy, Q.Backed;
    hide JobsOf, DoWrite, DoClaim, DoSettle, GiveBack, Q.Pushes, Q.Idles, Q.Takes, Q.Settles, Q.HandsBack;
    match e
    case Write(id) => WriteRefines(w, id);
    case Claim(c, t, pick) => 
      if pick.Some? {
        PickedIsStored(w, c, t, pick.value);
        ClaimTakes(w, c, t, pick.value);
      } else {
        ClaimIdles(w, c, t);
      }
    case Settle(c, outcome, at, reason) =>
      LiveStands(w, c);
      SettleRefines(w, c, outcome, at, reason);
    case HandBack(c, at, reason) =>
      LiveStands(w, c);
      HandBackRefines(w, c, at, reason);
    case _ => SameJobs(w.db, Next(w, e).db);
  }

  // ---- whole runs ----

  /** Late settlements included: the layout holds in every reachable state, and so do the books. */
  lemma {:induction false} RunIsSafe(ws: seq<World>, es: seq<Event>, i: nat)
    requires Run(ws, es) && i < |ws|
    ensures Safe(ws[i])
  {
    if i > 0 {
      RunIsSafe(ws, es, i - 1);
      NextKeepsSafe(ws[i - 1], es[i - 1]);
    }
  }

  /** Late settlements and crashes included: following the retry copies of a pushed job ends at one that is completed, stored, listed as failed, or trimmed off the failed list. */
  lemma NoJobIsLost(ws: seq<World>, es: seq<Event>, i: nat, id: JobId) returns (last: JobId)
    requires Run(ws, es) && i < |ws| && id in ws[i].books.pushed
    ensures Sound(ws[i].books) && Succeeds(ws[i].books, id, last)
    ensures last in ws[i].books.pushed && ws[i].books.pushed[last] == ws[i].books.pushed[id]
    ensures last in ws[i].books.completed || last in ws[i].books.trimmed
         || (last in ws[i].db.jobs && Content(ws[i].db.jobs[last].name, ws[i].db.jobs[last].payload) == ws[i].books.pushed[id]
             && (last in ws[i].db.pending || last in ws[i].db.reserved))
         || (exists s :: s in ws[i].db.failed && s.id == last && Content(s.name, s.payload) == ws[i].books.pushed[id])
  {
    RunIsSafe(ws, es, i);
    var w := ws[i];
    last := NothingLost(w.books, w.db.jobs.Keys, Ids(w.db.failed), id, w.db.counter);
    if last in Ids(w.db.failed) {
      var s :| s in w.db.failed && s.id == last;
      assert Carries(w.books.pushed, s);
    }
  }

  ghost predicate TimelyRun(ws: seq<World>, es: seq<Event>) {
    Run(ws, es) && forall i :: 0 <= i < |es| ==> Timely(ws[i], es[i])
  }

  function Image(ws: seq<World>): (ss: seq<Q.State>)
    ensures |ss| == |ws| && forall i :: 0 <= i < |ws| ==> ss[i] == Abstract(ws[i])
  {
    seq(|ws|, i requires 0 <= i < |ws| => Abstract(ws[i]))
  }

  function Labels(es: seq<Event>): (ls: seq<Q.Label>)
    ensures |ls| == |es| && forall i :: 0 <= i < |es| ==> ls[i] == LabelOf(es[i])
  {
    seq(|es|, i requires 0 <= i < |es| => LabelOf(es[i]))
  }

  lemma {:induction false} TimelyPrefix(ws: seq<World>, es: seq<Event>, i: nat)
    requires TimelyRun(ws, es) && i < |ws|
    ensures Safe(ws[i]) && Tidy(ws[i]) && Q.Inv(Abstract(ws[i]))
    ensures i < |es| ==> Q.Next(Abstract(ws[i]), LabelOf(es[i]), Abstract(ws[i + 1]))
  {
    hide Safe, Q.Next;
    RunIsSafe(ws, es, i);
    if i == 0 {
      assert JobsOf(ws[0].db) == map[];
    } else {
      TimelyPrefix(ws, es, i - 1);
      NextKeepsTidy(ws[i - 1], es[i - 1]);
      Q.NextKeepsInv(Abstract(ws[i - 1]), LabelOf(es[i - 1]), Abstract(ws[i]));
    }
    if i < |es| {
      NextRefines(ws[i], es[i]);
    }
  }

  /** With timely settlement, every run of the Redis queue is a run of the abstract queue. */
  lemma RedisRefinesQueue(ws: seq<World>, es: seq<Event>)
    requires TimelyRun(ws, es)
    ensures Q.Run(Image(ws), Labels(es))
  {
    assert JobsOf(ws[0].db) == map[];
    forall i | 0 <= i < |es| ensures Q.Next(Image(ws)[i], Labels(es)[i], Image(ws)[i + 1]) {
      TimelyPrefix(ws, es, i);
    }
  }

  /** With timely settlement a claim is answered with a claimable job if there is one and with nothing otherwise. */
  lemma ClaimExact(ws: seq<World>, es: seq<Event>, i: nat)
    requires TimelyRun(ws, es) && i < |es| && es[i].Claim?
    ensures es[i].c in ws[i + 1].crew.held <==> exists id :: Q.Claimable(JobsOf(ws[i].db), es[i].t, id)
    ensures es[i].c in ws[i + 1].crew.held ==> Q.Claimable(JobsOf(ws[i].db), es[i].t, ws[i + 1].crew.held[es[i].c].rec.id)
  {
    hide Safe, Tidy, Q.Inv, JobsOf, Next, Q.Claimable, Q.Raised;
    TimelyPrefix(ws, es, i);
  }

  /** No two live claims of one job, and no job beyond its budget. */
  lemma RedisIsExclusive(ws: seq<World>, es: seq<Event>, i: nat)
    requires TimelyRun(ws, es) && i < |ws|
    ensures Q.Exclusive(Abstract(ws[i])) && Q.WithinBudget(Abstract(ws[i]))
  {
    TimelyPrefix(ws, es, i);
  }

  /** A job nobody abandons, hands back or overruns, and which always fails, runs exactly its budget and is buried once. */
  lemma RedisAlwaysFailing(ws: seq<World>, es: seq<Event>, j: JobId, i: nat)
    requires TimelyRun(ws, es) && i < |ws|
    requires forall k :: 0 <= k < |es| ==> Q.Plain(Image(ws)[k], Labels(es)[k], Image(ws)[k + 1], j)
    ensures Q.Accurate(Abstract(ws[i]), j)
    ensures j in ws[i].crew.limit && j !in ws[i].db.jobs ==>
              Count(ws[i].crew.ran, j) == Budget(ws[i].crew.limit[j]) && Count(ws[i].crew.buried, j) == 1
  {
    RedisRefinesQueue(ws, es);
    Q.AlwaysFailingRun(Image(ws), Labels(es), j, i);
  }
}
