/** What becomes of one job on MongoDB: when it is first handed out, in which order, and what a release, a failure and a retry keep of it. */
module MongoLife {
  import opened Jobs
  import opened Rows
  import opened MongoQueue
  import opened MongoRuns
  import Q = QueueSpec

  /** The job an event asks for: what is pushed, or a failure's content with no attempts, a limit of three, due now. */
  function Asked(e: Event): Option<Record> {
    match e
    case MintPush(rec) => Some(rec)
    case MintRetry(f, t) => Some(Record(0, f.name, f.payload, 0, 3, t, t, ""))
    case _ => None
  }

  predicate Takes(e: Event, id: JobId) {
    e.Claim? && e.pick == Some(id)
  }

  /** A row as asked for: nothing of it lost, never reserved. */
  predicate IsAsked(r: Row, id: JobId, rec: Record) {
    && r.id == id && r.name == rec.name && r.payload == rec.payload && r.attempts == rec.attempts && r.max == rec.max
    && r.available == rec.available && r.reserved.None? && r.error == "" && r.created == rec.created
  }

  /** `id` was minted for `rec` and has not been handed out. */
  ghost predicate Waits(w: World, id: JobId, rec: Record) {
    && id <= w.db.counter
    && (id in w.drafts ==> IsAsked(w.drafts[id].doc, id, rec))
    && (id in w.db.jobs ==> IsAsked(w.db.jobs[id], id, rec))
    && (forall c :: c in w.crew.held ==> w.crew.held[c].rec.id != id)
  }

  lemma AskedWaits(w: World, e: Event)
    requires Safe(w) && Enabled(w, e) && Asked(e).Some?
    ensures Waits(Next(w, e), w.db.counter + 1, Asked(e).value)
  {
    hide Ordered, NoneLost;
  }

  lemma SettleWaits(w: World, c: Ticket, outcome: Outcome, at: int, reason: string, id: JobId, rec: Record)
    requires Waits(w, id, rec) && c in w.crew.held
    ensures Waits(DoSettle(w, c, outcome, at, reason), id, rec)
  {
    hide Truncate, IsAsked;
  }

  lemma ClaimWaits(w: World, c: Ticket, t: int, pick: Option<JobId>, id: JobId, rec: Record)
    requires Fresh(w) && Enabled(w, Claim(c, t, pick)) && Waits(w, id, rec) && pick != Some(id)
    ensures Waits(DoClaim(w, c, t, pick), id, rec)
  {
    hide IsAsked;
  }

  lemma NextWaits(w: World, e: Event, id: JobId, rec: Record)
    requires Fresh(w) && Enabled(w, e) && Waits(w, id, rec) && !Takes(e, id)
    ensures Waits(Next(w, e), id, rec)
  {
    hide Truncate, IsAsked, DoSettle, DoClaim;
    match e
    case Settle(c, outcome, at, reason) => SettleWaits(w, c, outcome, at, reason, id, rec);
    case Claim(c, t, pick) => ClaimWaits(w, c, t, pick, id, rec);
    case Write(k) =>
    case _ =>
  }

  /** From just after event `m` asked for a job until it is handed out, it waits as it was asked for. */
  lemma {:induction false} WaitsUntilTaken(ws: seq<World>, es: seq<Event>, m: nat, i: nat)
    requires Run(ws, es) && m < i < |ws| && Asked(es[m]).Some?
    requires forall k :: m < k < i ==> !Takes(es[k], ws[m].db.counter + 1)
    ensures Waits(ws[i], ws[m].db.counter + 1, Asked(es[m]).value)
  {
    hide Next, Enabled, Waits, Fresh, Faithful, Ordered, NoneLost;
    if i == m + 1 {
      RunIsSafe(ws, es, m);
      AskedWaits(ws[m], es[m]);
    } else {
      WaitsUntilTaken(ws, es, m, i - 1);
      RunIsSafe(ws, es, i - 1);
      NextWaits(ws[i - 1], es[i - 1], ws[m].db.counter + 1, Asked(es[m]).value);
    }
  }

  /** A stored job that was never handed out is claimable at `t` exactly when its asked due time has come. */
  lemma DueExactly(w: World, id: JobId, rec: Record, t: int)
    requires Waits(w, id, rec) && id in w.db.jobs
    ensures Q.Claimable(JobsOf(w.db.jobs, w.timeout), t, id) <==> rec.available <= t
    ensures JobsOf(w.db.jobs, w.timeout)[id].attempts == rec.attempts && JobsOf(w.db.jobs, w.timeout)[id].max == rec.max
  {
  }

  /** On every run, a pushed or retried job is first handed out no earlier than asked, as it was asked for, with one more attempt. */
  lemma FirstClaim(ws: seq<World>, es: seq<Event>, m: nat, i: nat)
    requires Run(ws, es) && m < i < |es| && Asked(es[m]).Some?
    requires Takes(es[i], ws[m].db.counter + 1) && forall k :: m < k < i ==> !Takes(es[k], ws[m].db.counter + 1)
    ensures var rec := Asked(es[m]).value;
            && rec.available <= es[i].t && es[i].c in ws[i + 1].crew.held
            && ws[i + 1].crew.held[es[i].c].rec ==
                 Record(ws[m].db.counter + 1, rec.name, rec.payload, rec.attempts + 1, rec.max, rec.available, rec.created, "")
  {
    WaitsUntilTaken(ws, es, m, i);
    assert Enabled(ws[i], es[i]) && ws[i + 1] == Next(ws[i], es[i]);
  }

  // ---- order ----

  /** No claim passes over a job that is due and free for one that is due later, or as early but pushed later. */
  lemma NoOvertaking(w: World, c: Ticket, t: int, id: JobId, k: JobId)
    requires Fresh(w) && Enabled(w, Claim(c, t, Some(id)))
    requires k in w.db.jobs && k != id && w.db.jobs[k].available <= t
    requires w.db.jobs[k].reserved.None? || w.db.jobs[k].reserved.value + w.timeout < t
    ensures id in w.db.jobs
    ensures w.db.jobs[id].available < w.db.jobs[k].available || (w.db.jobs[id].available == w.db.jobs[k].available && id < k)
  {
    SelectsInOrder(w.db.jobs, t, w.timeout, id, k);
  }

  /** Nobody hands a job back, no attempt is repeated, and no claim takes over a lapsed reservation. */
  ghost predicate Steady(w: World, e: Event) {
    match e
    case HandBack(_, _, _) => false
    case Settle(c, outcome, _, _) => c in w.crew.held && !Decide(w.crew.held[c].rec, outcome).Release?
    case Claim(_, _, pick) => pick.Some? ==> pick.value in w.db.jobs && w.db.jobs[pick.value].reserved.None?
    case _ => true
  }

  /** Stored and reserved, or gone for good. */
  ghost predicate Spent(w: World, id: JobId) {
    id in w.books.pushed && (id in w.db.jobs ==> w.db.jobs[id].reserved.Some?)
  }

  lemma NextSpent(w: World, e: Event, id: JobId)
    requires Fresh(w) && Enabled(w, e) && Steady(w, e) && Spent(w, id)
    ensures Spent(Next(w, e), id)
  {
    hide Selects, Truncate;
  }

  lemma {:induction false} StaysSpent(ws: seq<World>, es: seq<Event>, i: nat, j: nat, id: JobId)
    requires Run(ws, es) && i <= j < |ws| && Spent(ws[i], id)
    requires forall k :: 0 <= k < |es| ==> Steady(ws[k], es[k])
    ensures Spent(ws[j], id)
  {
    hide Next, Enabled, Spent, Steady, Fresh, Faithful, Ordered, NoneLost;
    if i < j {
      StaysSpent(ws, es, i, j - 1, id);
      RunIsSafe(ws, es, j - 1);
      NextSpent(ws[j - 1], es[j - 1], id);
    }
  }

  /** First due, first out: on a run without releases and lapses, of two jobs both stored and due at the earlier claim, that claim takes the one due first, and of two due together the one pushed first. */
  lemma FirstDueFirstOut(ws: seq<World>, es: seq<Event>, i: nat, j: nat, a: JobId, b: JobId)
    requires Run(ws, es) && i < j < |es| && Takes(es[i], a) && Takes(es[j], b)
    requires forall k :: 0 <= k < |es| ==> Steady(ws[k], es[k])
    requires b in ws[i].db.jobs && ws[i].db.jobs[b].available <= es[i].t
    ensures a in ws[i].db.jobs
    ensures ws[i].db.jobs[a].available < ws[i].db.jobs[b].available || (ws[i].db.jobs[a].available == ws[i].db.jobs[b].available && a < b)
  {
    RunIsSafe(ws, es, i);
    assert Enabled(ws[i], es[i]) && Enabled(ws[j], es[j]) && Steady(ws[i], es[i]) && Steady(ws[j], es[j]);
    assert !Spent(ws[j], b);
    if ws[i].db.jobs[b].reserved.Some? {
      StaysSpent(ws, es, i, j, b);
    }
    if a == b {
      assert Spent(ws[i + 1], a);
      StaysSpent(ws, es, i + 1, j, a);
    }
    NoOvertaking(ws[i], es[i].c, es[i].t, a, b);
  }

  // ---- what is kept ----

  /** A claimed job is handed out again exactly once its timeout has run out, if nothing else happens to it. */
  lemma ReservedUntil(db: Db, id: JobId, t: int, timeout: int, u: int)
    requires id in db.jobs && db.jobs[id].available <= t && timeout > 0
    ensures Q.Claimable(JobsOf(Reserve(db, id, t).jobs, timeout), u, id) <==> t + timeout < u
    ensures forall k :: k != id ==> (k in Reserve(db, id, t).jobs <==> k in db.jobs)
    ensures forall k :: k != id && k in db.jobs ==> Reserve(db, id, t).jobs[k] == db.jobs[k]
  {
  }

  /** Released and claimed again: not before the time given, with the reason, one more attempt, and all else as it was. */
  lemma ReleasedThenClaimed(db: Db, id: JobId, at: int, reason: string, timeout: int, t: int)
    requires id in db.jobs && timeout > 0
    ensures var released := GiveBack(db, id, at, reason);
            && released.failed == db.failed && (forall k :: k != id ==> (k in released.jobs <==> k in db.jobs))
            && (forall k :: k != id && k in db.jobs ==> released.jobs[k] == db.jobs[k])
            && (Q.Claimable(JobsOf(released.jobs, timeout), t, id) <==> at <= t)
            && var r := db.jobs[id];
            ToRecord(Reserve(released, id, t).jobs[id]) ==
              Record(r.id, r.name, r.payload, r.attempts + 1, r.max, at, r.created, if |reason| <= 4000 then reason else reason[..4000])
  {
  }

  /** Failed and retried: listed with its attempts and reason, then queued afresh under a new id and listed no more. */
  lemma FailedThenRetried(db: Db, rec: Record, reason: string, now: int, later: int)
    ensures var f := Remove(MongoQueue.Report(db, rec, reason, now), rec.id);
            && f.jobs == Without(db.jobs, rec.id) && rec.id in f.failed && Without(f.failed, rec.id) == Without(db.failed, rec.id)
            && f.failed[rec.id] ==
                 Failure(rec.id, rec.name, rec.payload, rec.attempts, if |reason| <= 4000 then reason else reason[..4000], now)
            && var r := Retried(f, f.failed[rec.id], later);
            && r.failed == Without(f.failed, rec.id)
            && r.jobs == f.jobs[db.counter + 1 := Row(db.counter + 1, rec.name, rec.payload, 0, 3, later, None, "", later)]
  {
  }
}
