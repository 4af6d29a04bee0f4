/** With timely settlement, the MongoDB queue is the abstract queue, and hands out the job due longest. */
module MongoRefines {
  import opened Jobs
  import opened Rows
  import opened MongoQueue
  import opened MongoRuns
  import Q = QueueSpec

  function Abstract(w: World): Q.State {
    Q.State(w.now, JobsOf(w.db.jobs, w.timeout), w.crew)
  }

  function LabelOf(e: Event): Q.Label {
    match e
    case Tick(_) => Q.Label.Tick
    case Write(id) => Q.Label.Push(id)
    case Claim(c, t, pick) => if pick.Some? then Q.Label.Take(c, t) else Q.Label.Idle(t)
    case Settle(c, outcome, _, _) => Q.Label.Settle(c, outcome)
    case HandBack(c, _, _) => Q.Label.HandBack(c)
    case Drop(c) => Q.Label.Drop(c)
    case _ => Q.Label.Internal
  }

  ghost predicate Timely(w: World, e: Event) {
    match e
    case Settle(c, _, _, _) => c in w.crew.held && w.now < w.crew.held[c].lease
    case HandBack(c, _, _) => c in w.crew.held && w.now < w.crew.held[c].lease
    case _ => true
  }

  lemma ClaimIdles(w: World, c: Ticket, t: int)
    requires w.timeout > 0 && Enabled(w, Claim(c, t, None))
    ensures Q.Idles(Abstract(w), t, Abstract(DoClaim(w, c, t, None)))
  {
    SelectsExactly(w.db.jobs, t, w.timeout, None);
  }

  lemma ClaimTakes(w: World, c: Ticket, t: int, id: JobId)
    requires Fresh(w) && Enabled(w, Claim(c, t, Some(id)))
    ensures Q.Takes(Abstract(w), c, t, Abstract(DoClaim(w, c, t, Some(id))))
  {
    SelectsExactly(w.db.jobs, t, w.timeout, Some(id));
    var w' := DoClaim(w, c, t, Some(id));
    assert Without(JobsOf(w'.db.jobs, w.timeout), id) == Without(JobsOf(w.db.jobs, w.timeout), id);
  }

  lemma SettleRefines(w: World, c: Ticket, outcome: Outcome, at: int, reason: string)
    requires Q.Live(Abstract(w), c) && w.crew.held[c].rec.id in w.db.jobs
    ensures Q.Settles(Abstract(w), c, outcome, Abstract(DoSettle(w, c, outcome, at, reason)))
  {
    var id := w.crew.held[c].rec.id;
    RemovedTakesOut(w.db.jobs, id, w.timeout);
    GivenBackReschedules(w.db.jobs, id, at, reason, w.timeout);
  }

  lemma WriteRefines(w: World, id: JobId)
    requires Fresh(w) && id in w.drafts
    ensures Q.Pushes(Abstract(w), id, Abstract(DoWrite(w, id)))
  {
    var w' := DoWrite(w, id);
    assert JobsOf(w'.db.jobs, w.timeout) == JobsOf(w.db.jobs, w.timeout)[id := JobsOf(w'.db.jobs, w.timeout)[id]];
  }

  lemma LiveStands(w: World, c: Ticket)
    requires Q.Backed(Abstract(w)) && Q.Live(Abstract(w), c)
    ensures w.crew.held[c].rec.id in w.db.jobs
  {
  }

  lemma NextRefines(w: World, e: Event)
    requires Fresh(w) && Q.Backed(Abstract(w)) && Enabled(w, e) && Timely(w, e)
    ensures Q.Next(Abstract(w), LabelOf(e), Abstract(Next(w, e)))
  {
    hide Q.Backed, Q.Pushes, Q.Idles, Q.Takes, Q.Settles, DoWrite, DoClaim, DoSettle;
    match e
    case Write(id) => WriteRefines(w, id);
    case Claim(c, t, pick) =>
      if pick.Some? {
        ClaimTakes(w, c, t, pick.value);
      } else {
        ClaimIdles(w, c, t);
      }
    case Settle(c, outcome, at, reason) =>
      LiveStands(w, c);
      SettleRefines(w, c, outcome, at, reason);
    case HandBack(c, at, reason) =>
      LiveStands(w, c);
      GivenBackReschedules(w.db.jobs, w.crew.held[c].rec.id, at, reason, w.timeout);
    case _ =>
  }

  // ---- whole runs ----

  ghost predicate TimelyRun(ws: seq<World>, es: seq<Event>) {
    Run(ws, es) && forall i :: 0 <= i < |es| ==> Timely(ws[i], es[i])
  }

  function Image(ws: seq<World>): (ss: seq<Q.State>)
    ensures |ss| == |ws| && forall i :: 0 <= i < |ws| ==> ss[i] == Abstract(ws[i])
  {
    seq(|ws|, i requires 0 <= i < |ws| => Abstract(ws[i]))
  }

  function Labels(es: seq<Event>): (ls: seq<Q.Label>)
    ensures |ls| == |es| && forall i :: 0 <= i < |es| ==> ls[i] == LabelOf(es[i])
  {
    seq(|es|, i requires 0 <= i < |es| => LabelOf(es[i]))
  }

  lemma {:induction false} TimelyPrefix(ws: seq<World>, es: seq<Event>, i: nat)
    requires TimelyRun(ws, es) && i < |ws|
    ensures Fresh(ws[i]) && Q.Inv(Abstract(ws[i]))
    ensures i < |es| ==> Q.Next(Abstract(ws[i]), LabelOf(es[i]), Abstract(ws[i + 1]))
  {
    hide Q.Next, Enabled, Next, LabelOf;
    if i == 0 {
      assert JobsOf(ws[0].db.jobs, ws[0].timeout) == map[];
    } else {
      TimelyPrefix(ws, es, i - 1);
      NextKeepsFresh(ws[i - 1], es[i - 1]);
      Q.NextKeepsInv(Abstract(ws[i - 1]), LabelOf(es[i - 1]), Abstract(ws[i]));
    }
    if i < |es| {
      NextRefines(ws[i], es[i]);
    }
  }

  /** With timely settlement, every run of the MongoDB queue is a run of the abstract queue. */
  lemma MongoRefinesQueue(ws: seq<World>, es: seq<Event>)
    requires TimelyRun(ws, es)
    ensures Q.Run(Image(ws), Labels(es))
  {
    assert JobsOf(ws[0].db.jobs, ws[0].timeout) == map[];
    forall i | 0 <= i < |es| ensures Q.Next(Image(ws)[i], Labels(es)[i], Image(ws)[i + 1]) {
      TimelyPrefix(ws, es, i);
    }
  }

  /** A claim succeeds exactly when some job is claimable, settled on time or not. */
  lemma ClaimExact(w: World, c: Ticket, t: int, pick: Option<JobId>)
    requires Fresh(w) && Enabled(w, Claim(c, t, pick))
    ensures c in DoClaim(w, c, t, pick).crew.held <==> exists id :: Q.Claimable(JobsOf(w.db.jobs, w.timeout), t, id)
  {
    SelectsExactly(w.db.jobs, t, w.timeout, pick);
  }

  /** No two live claims of one job, and no job settled beyond its budget. */
  lemma MongoIsExclusive(ws: seq<World>, es: seq<Event>, i: nat)
    requires TimelyRun(ws, es) && i < |ws|
    ensures Q.Exclusive(Abstract(ws[i])) && Q.WithinBudget(Abstract(ws[i]))
  {
    TimelyPrefix(ws, es, i);
  }

  lemma MongoAlwaysFailing(ws: seq<World>, es: seq<Event>, j: JobId, i: nat)
    requires TimelyRun(ws, es) && i < |ws|
    requires forall k :: 0 <= k < |es| ==> Q.Plain(Image(ws)[k], Labels(es)[k], Image(ws)[k + 1], j)
    ensures Q.Accurate(Abstract(ws[i]), j)
    ensures j in ws[i].crew.limit && j !in ws[i].db.jobs ==>
              Count(ws[i].crew.ran, j) == Budget(ws[i].crew.limit[j]) && Count(ws[i].crew.buried, j) == 1
  {
    MongoRefinesQueue(ws, es);
    Q.AlwaysFailingRun(Image(ws), Labels(es), j, i);
  }
}
