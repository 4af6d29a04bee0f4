/**
 What the SQL driver's two-statement claim guarantees.  The guard alone keeps live claims exclusive,
 whatever commits between the statements; being due and counting attempts exactly also need the row
 to be as it was read.
 */
module SqlRefines {
  import opened Jobs
  import opened Books
  import opened Rows
  import opened SqlQueue
  import opened SqlRuns
  import Q = QueueSpec

  // ---- exclusivity, with nothing assumed about what commits in between ----

  ghost predicate Live(w: World, c: Ticket) {
    c in w.crew.held && w.now < w.crew.held[c].lease
  }

  ghost predicate Exclusive(w: World) {
    forall c, d :: Live(w, c) && Live(w, d) && c != d ==> w.crew.held[c].rec.id != w.crew.held[d].rec.id
  }

  /** Every live hold has its reservation in the table. */
  ghost predicate Guarded(w: World) {
    forall c :: Live(w, c) ==>
      && w.crew.held[c].rec.id in w.db.jobs
      && w.db.jobs[w.crew.held[c].rec.id].reserved == Some(w.crew.held[c].lease - w.timeout - 1)
  }

  ghost predicate ReadEarlier(w: World) {
    forall c :: c in w.seen ==> w.seen[c].t <= w.now && w.seen[c].row.id <= w.db.jobSeq
  }

  ghost predicate Apart(w: World) {
    && w.timeout > 0 && Exclusive(w) && Guarded(w) && ReadEarlier(w)
    && (forall id :: id in w.db.jobs ==> w.db.jobs[id].id == id <= w.db.jobSeq)
    && (forall c :: c in w.crew.held ==> w.crew.held[c].rec.id <= w.db.jobSeq)
  }

  /** An update made with clock reading `t <= now` can only hit a row no live hold is on. */
  lemma GuardSparesLiveHolds(w: World, c: Ticket, d: Ticket)
    requires Apart(w) && c in w.seen && Live(w, d)
    requires Hits(w.db, w.seen[c].row, w.seen[c].t, w.timeout)
    ensures w.crew.held[d].rec.id != w.seen[c].row.id
  {
  }

  lemma UpdateKeepsApart(w: World, c: Ticket)
    requires Apart(w) && Enabled(w, Update(c))
    ensures Apart(DoUpdate(w, c))
  {
    if Hits(w.db, w.seen[c].row, w.seen[c].t, w.timeout) {
      forall d | Live(w, d) ensures w.crew.held[d].rec.id != w.seen[c].row.id {
        GuardSparesLiveHolds(w, c, d);
      }
      assert forall d :: Live(DoUpdate(w, c), d) && d != c ==> Live(w, d);
      hide Hits;
    }
  }

  /** Settling one live hold leaves every other's reservation in place. */
  lemma SettleKeepsApart(w: World, c: Ticket, w': World)
    requires Apart(w) && Live(w, c)
    requires w'.crew.held == Without(w.crew.held, c) && w'.now == w.now && w'.timeout == w.timeout && w'.seen == w.seen
    requires w'.db.jobSeq == w.db.jobSeq
    requires Without(w'.db.jobs, w.crew.held[c].rec.id) == Without(w.db.jobs, w.crew.held[c].rec.id)
    requires w.crew.held[c].rec.id in w'.db.jobs ==> w'.db.jobs[w.crew.held[c].rec.id].id == w.crew.held[c].rec.id
    ensures Apart(w')
  {
    var id := w.crew.held[c].rec.id;
    forall d | Live(w', d)
      ensures Live(w, d) && d != c && w.crew.held[d].rec.id in w'.db.jobs
      ensures w'.db.jobs[w.crew.held[d].rec.id] == w.db.jobs[w.crew.held[d].rec.id]
    {
      assert w.crew.held[d].rec.id in Without(w.db.jobs, id);
    }
    forall k | k in w'.db.jobs ensures w'.db.jobs[k].id == k <= w'.db.jobSeq {
      assert k != id ==> k in Without(w'.db.jobs, id);
    }
  }

  lemma SettleLeavesOthers(w: World, c: Ticket, outcome: Outcome, at: int, reason: string)
    requires Apart(w) && Live(w, c)
    ensures Apart(DoSettle(w, c, outcome, at, reason))
  {
    hide Exclusive, Guarded, ReadEarlier;
    SettleKeepsApart(w, c, DoSettle(w, c, outcome, at, reason));
  }

  lemma HandBackLeavesOthers(w: World, c: Ticket, at: int, reason: string)
    requires Apart(w) && Live(w, c)
    ensures Apart(Next(w, HandBack(c, at, reason)))
  {
    hide Exclusive, Guarded, ReadEarlier;
    SettleKeepsApart(w, c, Next(w, HandBack(c, at, reason)));
  }

  lemma InsertKeepsApart(w: World, rec: Record, w': World)
    requires Apart(w)
    requires w' == w.(db := w'.db, crew := w'.crew, books := w'.books) && w'.crew.held == w.crew.held
    requires w'.db.jobs == Insert(w.db, rec).jobs && w'.db.jobSeq == w.db.jobSeq + 1
    ensures Apart(w')
  {
    assert forall d :: Live(w', d) ==> Live(w, d);
  }

  /** Time passing, a select, and a worker that gives up without settling. */
  lemma QuietKeepsApart(w: World, e: Event)
    requires Apart(w) && Enabled(w, e) && (e.Tick? || e.Select? || e.Drop?)
    ensures Apart(Next(w, e))
  {
    assert forall d :: Live(Next(w, e), d) ==> Live(w, d);
  }

  lemma NextKeepsApart(w: World, e: Event)
    requires Apart(w) && Enabled(w, e) && Timely(w, e)
    ensures Apart(Next(w, e))
  {
    hide DoUpdate, DoSettle, GiveBack, Apart;
    match e
    case Push(rec) => InsertKeepsApart(w, rec, Next(w, e));
    case Retry(key, t) => InsertKeepsApart(w, Again(w.db.failed[key], t), Next(w, e));
    case Update(c) => UpdateKeepsApart(w, c);
    case Settle(c, outcome, at, reason) => SettleLeavesOthers(w, c, outcome, at, reason);
    case HandBack(c, at, reason) => HandBackLeavesOthers(w, c, at, reason);
    case _ => QuietKeepsApart(w, e);
  }

  /** Timely settlement is enough: no two live claims of one job, for every interleaving of selects and updates. */
  lemma {:induction false} SqlIsExclusive(ws: seq<World>, es: seq<Event>, i: nat)
    requires TimelyRun(ws, es) && i < |ws|
    ensures Apart(ws[i]) && Exclusive(ws[i])
  {
    if i > 0 {
      SqlIsExclusive(ws, es, i - 1);
      NextKeepsApart(ws[i - 1], es[i - 1]);
    }
  }

  // ---- refinement, exactly when no update hands out a job it should not ----

  function Abstract(w: World): Q.State {
    Q.State(w.now, JobsOf(w.db.jobs, w.timeout), w.crew)
  }

  /** Whether the guarded update of `c` affects a row. */
  predicate Lands(w: World, c: Ticket)
    requires c in w.seen
  {
    Hits(w.db, w.seen[c].row, w.seen[c].t, w.timeout)
  }

  /** An update that lands finds its row due at the claim's clock reading and its count as the select read it. */
  ghost predicate Undisturbed(w: World, e: Event) {
    e.Update? && e.c in w.seen && Lands(w, e.c) ==>
      var r, row := w.seen[e.c], w.db.jobs[w.seen[e.c].row.id];
      row.available <= r.t && row.attempts == r.row.attempts
  }

  function LabelOf(w: World, e: Event): Q.Label {
    match e
    case Tick(_) => Q.Label.Tick
    case Push(_) => Q.Label.Push(w.db.jobSeq + 1)
    case Retry(_, _) => Q.Label.Push(w.db.jobSeq + 1)
    case Select(c, t, pick) => if pick.None? then Q.Label.Idle(t) else Q.Label.Internal
    case Update(c) => if c in w.seen && Lands(w, c) then Q.Label.Take(c, w.seen[c].t) else Q.Label.Internal
    case Settle(c, outcome, _, _) => Q.Label.Settle(c, outcome)
    case HandBack(c, _, _) => Q.Label.HandBack(c)
    case Drop(c) => Q.Label.Drop(c)
  }

  /** The rows selected were selectable when read. */
  ghost predicate Picked(w: World) {
    && w.timeout > 0
    && (forall c :: c in w.seen ==> Selectable(w.seen[c].row, w.seen[c].t, w.timeout) && w.seen[c].t <= w.now)
    && (forall id :: id in w.db.jobs ==> w.db.jobs[id].id == id)
    && (forall id :: id in w.crew.limit ==> id <= w.db.jobSeq)
  }

  lemma NextKeepsPicked(w: World, e: Event)
    requires Picked(w) && Enabled(w, e)
    ensures Picked(Next(w, e))
  {
  }

  lemma SelectIdles(w: World, c: Ticket, t: int)
    requires w.timeout > 0 && Enabled(w, Select(c, t, None))
    ensures Q.Idles(Abstract(w), t, Abstract(Next(w, Select(c, t, None))))
  {
    SelectsExactly(w.db.jobs, t, w.timeout, None);
  }

  /** The row and what was read of it keep the limit the job was queued with. */
  lemma LimitStands(w: World, c: Ticket)
    requires Faithful(w) && c in w.seen && w.seen[c].row.id in w.db.jobs
    ensures w.db.jobs[w.seen[c].row.id].max == w.seen[c].row.max
  {
    assert Limited(w.crew.limit, w.seen[c].row.id, w.seen[c].row.max);
  }

  /**
   The guarded update, exactly.  It hands out a job when it lands and changes nothing when it does not; the job
   it hands out was due when its row is due now; and it is a proper claim of the abstract queue when that row
   is due and its count still the one read.
   */
  lemma UpdateExact(w: World, c: Ticket)
    requires Picked(w) && Faithful(w) && Enabled(w, Update(c))
    ensures c in DoUpdate(w, c).crew.held <==> Lands(w, c)
    ensures !Lands(w, c) ==> Abstract(DoUpdate(w, c)) == Abstract(w)
    ensures Lands(w, c) ==>
              (Q.Claimable(JobsOf(w.db.jobs, w.timeout), w.seen[c].t, w.seen[c].row.id) <==>
               w.db.jobs[w.seen[c].row.id].available <= w.seen[c].t)
    ensures Lands(w, c) ==>
              (Q.Takes(Abstract(w), c, w.seen[c].t, Abstract(DoUpdate(w, c))) <==> Undisturbed(w, Update(c)))
  {
    hide Faithful;
    if Lands(w, c) {
      var id := w.seen[c].row.id;
      LimitStands(w, c);
      SelectableFromAvail(w.db.jobs[id], w.seen[c].t, w.timeout);
      RemovedTakesOut(w.db.jobs, id, w.timeout);
      RemovedTakesOut(DoUpdate(w, c).db.jobs, id, w.timeout);
      assert Without(DoUpdate(w, c).db.jobs, id) == Without(w.db.jobs, id);
    }
  }

  lemma PushRefines(w: World, rec: Record, db': Db, w': World)
    requires Picked(w) && db'.jobs == Insert(w.db, rec).jobs
    requires w' == w.(db := db', crew := Q.Enlist(w.crew, w.db.jobSeq + 1, rec.max), books := w'.books)
    ensures Q.Pushes(Abstract(w), w.db.jobSeq + 1, Abstract(w'))
  {
    var id := w.db.jobSeq + 1;
    assert JobsOf(db'.jobs, w.timeout) == JobsOf(w.db.jobs, w.timeout)[id := JobsOf(db'.jobs, w.timeout)[id]];
  }

  lemma SettleRefines(w: World, c: Ticket, outcome: Outcome, at: int, reason: string)
    requires Q.Live(Abstract(w), c) && w.crew.held[c].rec.id in w.db.jobs
    ensures Q.Settles(Abstract(w), c, outcome, Abstract(DoSettle(w, c, outcome, at, reason)))
  {
    var id := w.crew.held[c].rec.id;
    RemovedTakesOut(w.db.jobs, id, w.timeout);
    GivenBackReschedules(w.db.jobs, id, at, reason, w.timeout);
  }

  lemma LiveStands(w: World, c: Ticket)
    requires Q.Backed(Abstract(w)) && Q.Live(Abstract(w), c)
    ensures w.crew.held[c].rec.id in w.db.jobs
  {
  }

  /** From a state of a timely run, a step is a step of the abstract queue exactly when it is undisturbed. */
  lemma NextRefinesExactly(w: World, e: Event)
    requires Picked(w) && Faithful(w) && Enabled(w, e) && Timely(w, e)
    ensures Q.Backed(Abstract(w)) && Undisturbed(w, e) ==> Q.Next(Abstract(w), LabelOf(w, e), Abstract(Next(w, e)))
    ensures Q.Next(Abstract(w), LabelOf(w, e), Abstract(Next(w, e))) ==> Undisturbed(w, e)
  {
    hide Q.Backed, Q.Pushes, Q.Idles, Q.Takes, Q.Settles, DoUpdate, DoSettle, Selects, Faithful, Lands;
    match e
    case Push(rec) => PushRefines(w, rec, Next(w, e).db, Next(w, e));
    case Retry(key, t) => PushRefines(w, Again(w.db.failed[key], t), Next(w, e).db, Next(w, e));
    case Select(c, t, pick) =>
      if pick.None? {
        SelectIdles(w, c, t);
      }
    case Update(c) => UpdateExact(w, c);
    case Settle(c, outcome, at, reason) =>
      if Q.Backed(Abstract(w)) {
        LiveStands(w, c);
        SettleRefines(w, c, outcome, at, reason);
      }
    case HandBack(c, at, reason) =>
      if Q.Backed(Abstract(w)) {
        LiveStands(w, c);
        GivenBackReschedules(w.db.jobs, w.crew.held[c].rec.id, at, reason, w.timeout);
      }
    case _ =>
  }

  function Image(ws: seq<World>): (ss: seq<Q.State>)
    ensures |ss| == |ws| && forall i :: 0 <= i < |ws| ==> ss[i] == Abstract(ws[i])
  {
    seq(|ws|, i requires 0 <= i < |ws| => Abstract(ws[i]))
  }

  function Labels(ws: seq<World>, es: seq<Event>): (ls: seq<Q.Label>)
    requires |ws| > |es|
    ensures |ls| == |es| && forall i :: 0 <= i < |es| ==> ls[i] == LabelOf(ws[i], es[i])
  {
    seq(|es|, i requires 0 <= i < |es| => LabelOf(ws[i], es[i]))
  }

  ghost predicate UndisturbedRun(ws: seq<World>, es: seq<Event>) {
    TimelyRun(ws, es) && forall i :: 0 <= i < |es| ==> Undisturbed(ws[i], es[i])
  }

  lemma {:induction false} PickedPrefix(ws: seq<World>, es: seq<Event>, i: nat)
    requires Run(ws, es) && i < |ws|
    ensures Picked(ws[i]) && Faithful(ws[i])
  {
    hide Enabled, Next, Picked, Faithful, NoneLost;
    RunIsSafe(ws, es, i);
    if i == 0 {
      NothingPicked(ws[0]);
    } else {
      PickedPrefix(ws, es, i - 1);
      NextKeepsPicked(ws[i - 1], es[i - 1]);
    }
  }

  lemma NothingPicked(w: World)
    requires Init(w)
    ensures Picked(w) && Q.Init(Abstract(w))
  {
    assert JobsOf(w.db.jobs, w.timeout) == map[];
  }

  lemma {:induction false} UndisturbedPrefix(ws: seq<World>, es: seq<Event>, i: nat)
    requires UndisturbedRun(ws, es) && i < |ws|
    ensures Q.Inv(Abstract(ws[i]))
    ensures i < |es| ==> Q.Next(Abstract(ws[i]), LabelOf(ws[i], es[i]), Abstract(ws[i + 1]))
  {
    hide Q.Next, Enabled, Next, LabelOf, Undisturbed, Picked, Faithful;
    if i == 0 {
      NothingPicked(ws[0]);
    } else {
      UndisturbedPrefix(ws, es, i - 1);
      Q.NextKeepsInv(Abstract(ws[i - 1]), LabelOf(ws[i - 1], es[i - 1]), Abstract(ws[i]));
    }
    if i < |es| {
      PickedPrefix(ws, es, i);
      NextRefinesExactly(ws[i], es[i]);
    }
  }

  /**
   With timely settlement, and whoever wins or loses the guarded updates: the run is a run of the abstract queue
   exactly when every update that lands is undisturbed, and then every job keeps within its budget.
   */
  lemma SqlRefinesQueue(ws: seq<World>, es: seq<Event>)
    requires TimelyRun(ws, es)
    ensures Q.Run(Image(ws), Labels(ws, es)) <==> UndisturbedRun(ws, es)
    ensures UndisturbedRun(ws, es) ==> forall i :: 0 <= i < |ws| ==> Q.WithinBudget(Abstract(ws[i]))
  {
    hide Enabled, Next, LabelOf, Undisturbed, Q.Next, Picked, Faithful;
    NothingPicked(ws[0]);
    if UndisturbedRun(ws, es) {
      forall i | 0 <= i < |es| ensures Q.Next(Image(ws)[i], Labels(ws, es)[i], Image(ws)[i + 1]) {
        UndisturbedPrefix(ws, es, i);
      }
      forall i | 0 <= i < |ws| ensures Q.WithinBudget(Abstract(ws[i])) {
        UndisturbedPrefix(ws, es, i);
      }
    }
    if Q.Run(Image(ws), Labels(ws, es)) {
      forall i | 0 <= i < |es| ensures Undisturbed(ws[i], es[i]) {
        assert Q.Next(Image(ws)[i], Labels(ws, es)[i], Image(ws)[i + 1]);
        PickedPrefix(ws, es, i);
        NextRefinesExactly(ws[i], es[i]);
      }
    }
  }

  // ---- what a disturbed update can do ----

  ghost predicate Reaches(ws: seq<World>, es: seq<Event>, w: World) {
    TimelyRun(ws, es) && ws[|es|] == w
  }

  ghost predicate Reachable(w: World) {
    exists ws, es :: Reaches(ws, es, w)
  }

  lemma Begins(w: World)
    requires Init(w)
    ensures Reachable(w)
  {
    assert Reaches([w], [], w);
  }

  lemma Onward(w: World, e: Event)
    requires Reachable(w) && Enabled(w, e) && Timely(w, e)
    ensures Reachable(Next(w, e))
  {
    var ws, es :| Reaches(ws, es, w);
    assert Reaches(ws + [Next(w, e)], es + [e], Next(w, e));
  }

  /** One job with a budget of two, selected by claims 1 and 2 at instant zero before either update. */
  lemma BothSelected() returns (w: World)
    ensures Reachable(w) && w.now == 0 && w.timeout == 10 && w.crew.held == map[] && w.crew.ran == map[]
    ensures w.db.jobs.Keys == {1} && w.db.jobs[1] == Row(1, "", "", 0, 2, 0, None, "", 0)
    ensures w.seen == map[1 := Read(w.db.jobs[1], 0), 2 := Read(w.db.jobs[1], 0)]
    ensures w.crew.limit == map[1 := 2]
  {
    w := World(0, 10, Db(map[], map[], 0, 0), map[], map[], Q.Crew(map[], map[], map[], map[]), BLANK);
    hide Reachable;
    var w0, push, first, second := w, Push(Record(0, "", "", 0, 2, 0, 0, "")), Select(1, 0, Some(1)), Select(2, 0, Some(1));
    var w1 := Next(w0, push);
    var w2 := Next(w1, first);
    w := Next(w2, second);
    assert Init(w0) && Enabled(w0, push) && Enabled(w1, first) && Enabled(w2, second);
    hide Init, Next, Enabled;
    Begins(w0);
    Onward(w0, push);
    Onward(w1, first);
    Onward(w2, second);
  }

  /** Claim 2 runs the job, which fails and is put off until `at`; claim 1's update still takes it at once. */
  lemma SecondUpdateStillHits(at: int) returns (w: World)
    ensures Reachable(w) && w.now == 0 && w.timeout == 10 && w.seen == map[] && w.crew.held.Keys == {1}
    ensures w.db.jobs.Keys == {1} && w.db.jobs[1] == Row(1, "", "", 1, 2, at, Some(0), "", 0)
    ensures w.crew.held[1] == Q.Hold(Record(1, "", "", 1, 2, 0, 0, ""), 11)
    ensures w.crew.ran == map[1 := 1] && w.crew.limit == map[1 := 2]
  {
    hide Reachable;
    var w0 := BothSelected();
    var settle := Settle(2, Errored, at, "");
    var w1 := Next(w0, Update(2));
    var w2 := Next(w1, settle);
    w := Next(w2, Update(1));
    assert Enabled(w0, Update(2)) && Enabled(w1, settle) && Timely(w1, settle) && Enabled(w2, Update(1));
    hide Next, Enabled;
    Onward(w0, Update(2));
    Onward(w1, settle);
    Onward(w2, Update(1));
  }

  /** The guard does not look at available_at: a job can be handed out long before it is due. */
  lemma EarlyClaim(at: int) returns (w: World)
    requires at > 0
    ensures Reachable(w) && Live(w, 1)
    ensures w.crew.held[1].rec.id in w.db.jobs && w.now < w.db.jobs[w.crew.held[1].rec.id].available == at
  {
    w := SecondUpdateStillHits(at);
  }

  /** The update writes a stale count: a job with a budget of two runs three times. */
  lemma BudgetExceeded() returns (w: World)
    ensures Reachable(w) && 1 in w.crew.limit && Count(w.crew.ran, 1) == 3 && Budget(w.crew.limit[1]) == 2
  {
    hide Reachable;
    var w0 := SecondUpdateStillHits(0);
    var settle, pick, last := Settle(1, Errored, 0, ""), Select(3, 0, Some(1)), Settle(3, Errored, 0, "");
    var w1 := Next(w0, settle);
    var w2 := Next(w1, pick);
    var w3 := Next(w2, Update(3));
    w := Next(w3, last);
    assert Enabled(w0, settle) && Timely(w0, settle) && Enabled(w1, pick) && Enabled(w2, Update(3));
    assert Enabled(w3, last) && Timely(w3, last);
    hide Next, Enabled;
    Onward(w0, settle);
    Onward(w1, pick);
    Onward(w2, Update(3));
    Onward(w3, last);
  }
}
