/** What becomes of one job in the SQL tables: when it is first handed out, in which order, and what a release, a failure and a retry keep of it. */
module SqlLife {
  import opened Jobs
  import opened Rows
  import opened SqlQueue
  import opened SqlRuns
  import Q = QueueSpec

  /** The job an event asks for: what is pushed, or a failure's content with no attempts, a limit of three, due now. */
  function Asked(w: World, e: Event): Option<Record> {
    match e
    case Push(rec) => Some(rec)
    case Retry(key, t) =>
      if key in w.db.failed then Some(Record(0, w.db.failed[key].name, w.db.failed[key].payload, 0, 3, t, t, "")) else None
    case _ => None
  }

  /** An update that lands on the row of `id`. */
  predicate Takes(w: World, e: Event, id: JobId) {
    e.Update? && e.c in w.seen && w.seen[e.c].row.id == id && Hits(w.db, w.seen[e.c].row, w.seen[e.c].t, w.timeout)
  }

  /** A row as asked for: nothing of it lost, never reserved. */
  predicate IsAsked(r: Row, id: JobId, rec: Record) {
    && r.id == id && r.name == rec.name && r.payload == rec.payload && r.attempts == rec.attempts && r.max == rec.max
    && r.available == rec.available && r.reserved.None? && r.error == "" && r.created == rec.created
  }

  /** `id` was queued for `rec` and has not been handed out, whoever has read it. */
  ghost predicate Waits(w: World, id: JobId, rec: Record) {
    && id <= w.db.jobSeq
    && (id in w.db.jobs ==> IsAsked(w.db.jobs[id], id, rec))
    && (forall c :: c in w.seen && w.seen[c].row.id == id ==> IsAsked(w.seen[c].row, id, rec) && rec.available <= w.seen[c].t)
    && (forall c :: c in w.crew.held ==> w.crew.held[c].rec.id != id)
  }

  lemma AskedWaits(w: World, e: Event)
    requires Safe(w) && Enabled(w, e) && Asked(w, e).Some?
    ensures Waits(Next(w, e), w.db.jobSeq + 1, Asked(w, e).value)
    ensures w.db.jobSeq + 1 in Next(w, e).db.jobs
  {
    hide NoneLost;
    forall c | c in w.seen ensures w.seen[c].row.id <= w.db.jobSeq {
      assert Carries(w.books.pushed, w.seen[c].row.id, w.seen[c].row.name, w.seen[c].row.payload);
    }
    forall c | c in w.crew.held ensures w.crew.held[c].rec.id <= w.db.jobSeq {
      assert Carries(w.books.pushed, w.crew.held[c].rec.id, w.crew.held[c].rec.name, w.crew.held[c].rec.payload);
    }
  }

  lemma SettleWaits(w: World, c: Ticket, outcome: Outcome, at: int, reason: string, id: JobId, rec: Record)
    requires c in w.crew.held && Waits(w, id, rec)
    ensures Waits(DoSettle(w, c, outcome, at, reason), id, rec)
  {
    hide Truncate, IsAsked;
  }

  lemma UpdateWaits(w: World, c: Ticket, id: JobId, rec: Record)
    requires c in w.seen && Waits(w, id, rec) && !Takes(w, Update(c), id)
    ensures Waits(DoUpdate(w, c), id, rec)
  {
    hide IsAsked;
  }

  lemma NextWaits(w: World, e: Event, id: JobId, rec: Record)
    requires Fresh(w) && Enabled(w, e) && Waits(w, id, rec) && !Takes(w, e, id)
    ensures Waits(Next(w, e), id, rec)
  {
    hide Truncate, DoSettle, DoUpdate;
    match e
    case Settle(c, outcome, at, reason) => SettleWaits(w, c, outcome, at, reason, id, rec);
    case Update(c) => UpdateWaits(w, c, id, rec);
    case Select(c, t, pick) =>
    case Retry(key, t) =>
    case _ =>
  }

  /** From just after event `m` asked for a job until an update lands on it, it waits as it was asked for. */
  lemma {:induction false} WaitsUntilTaken(ws: seq<World>, es: seq<Event>, m: nat, i: nat)
    requires Run(ws, es) && m < i < |ws| && Asked(ws[m], es[m]).Some?
    requires forall k :: m < k < i ==> !Takes(ws[k], es[k], ws[m].db.jobSeq + 1)
    ensures Waits(ws[i], ws[m].db.jobSeq + 1, Asked(ws[m], es[m]).value)
  {
    hide Next, Enabled, Waits, Takes, Fresh, Faithful, NoneLost;
    if i == m + 1 {
      RunIsSafe(ws, es, m);
      AskedWaits(ws[m], es[m]);
    } else {
      WaitsUntilTaken(ws, es, m, i - 1);
      RunIsSafe(ws, es, i - 1);
      NextWaits(ws[i - 1], es[i - 1], ws[m].db.jobSeq + 1, Asked(ws[m], es[m]).value);
    }
  }

  /** A stored job that was never handed out is claimable at `t` exactly when its asked due time has come. */
  lemma DueExactly(w: World, id: JobId, rec: Record, t: int)
    requires Waits(w, id, rec) && id in w.db.jobs
    ensures Q.Claimable(JobsOf(w.db.jobs, w.timeout), t, id) <==> rec.available <= t
    ensures JobsOf(w.db.jobs, w.timeout)[id].attempts == rec.attempts && JobsOf(w.db.jobs, w.timeout)[id].max == rec.max
  {
  }

  /**
   On every run, whatever comes between selects and updates: a pushed or retried job is first handed out no earlier
   than asked, as it was asked for, with one more attempt.  So only a job handed out before can come too early.
   */
  lemma FirstClaim(ws: seq<World>, es: seq<Event>, m: nat, i: nat)
    requires Run(ws, es) && m < i < |es| && Asked(ws[m], es[m]).Some?
    requires Takes(ws[i], es[i], ws[m].db.jobSeq + 1) && forall k :: m < k < i ==> !Takes(ws[k], es[k], ws[m].db.jobSeq + 1)
    ensures var rec := Asked(ws[m], es[m]).value;
            && rec.available <= ws[i].seen[es[i].c].t && es[i].c in ws[i + 1].crew.held
            && ws[i + 1].crew.held[es[i].c].rec ==
                 Record(ws[m].db.jobSeq + 1, rec.name, rec.payload, rec.attempts + 1, rec.max, rec.available, rec.created, "")
  {
    WaitsUntilTaken(ws, es, m, i);
    assert Enabled(ws[i], es[i]) && ws[i + 1] == Next(ws[i], es[i]);
  }

  /** No select passes over a job that is due and free for one that is due later, or as early but queued later. */
  lemma NoOvertaking(w: World, c: Ticket, t: int, id: JobId, k: JobId)
    requires Fresh(w) && Enabled(w, Select(c, t, Some(id)))
    requires k in w.db.jobs && k != id && w.db.jobs[k].available <= t
    requires w.db.jobs[k].reserved.None? || w.db.jobs[k].reserved.value + w.timeout < t
    ensures id in w.db.jobs
    ensures w.db.jobs[id].available < w.db.jobs[k].available || (w.db.jobs[id].available == w.db.jobs[k].available && id < k)
  {
    SelectsInOrder(w.db.jobs, t, w.timeout, id, k);
  }

  // ---- what is kept ----

  /** A claim that nothing disturbed keeps its job until its timeout has run out, and touches no other. */
  lemma ReservedUntil(db: Db, id: JobId, t: int, timeout: int, u: int)
    requires id in db.jobs && db.jobs[id].id == id && db.jobs[id].available <= t && timeout > 0
    requires db.jobs[id].reserved.None? || db.jobs[id].reserved.value + timeout < t
    ensures var taken := SqlQueue.Update(db, db.jobs[id], t, timeout);
            && (Q.Claimable(JobsOf(taken.jobs, timeout), u, id) <==> t + timeout < u)
            && (forall k :: k != id ==> (k in taken.jobs <==> k in db.jobs))
            && (forall k :: k != id && k in db.jobs ==> taken.jobs[k] == db.jobs[k])
  {
  }

  /** Released and claimed again: not before the time given, with the reason, one more attempt, and all else as it was. */
  lemma ReleasedThenClaimed(db: Db, id: JobId, at: int, reason: string, timeout: int, t: int)
    requires id in db.jobs && timeout > 0
    ensures var released := GiveBack(db, id, at, reason);
            && released == db.(jobs := released.jobs) && (forall k :: k != id ==> (k in released.jobs <==> k in db.jobs))
            && (forall k :: k != id && k in db.jobs ==> released.jobs[k] == db.jobs[k])
            && (Q.Claimable(JobsOf(released.jobs, timeout), t, id) <==> at <= t)
            && var r := db.jobs[id];
            Claimed(released.jobs[id]) ==
              Record(r.id, r.name, r.payload, r.attempts + 1, r.max, at, r.created, if |reason| <= 4000 then reason else reason[..4000])
  {
  }

  /** Failed and retried: in the failed table with its attempts and reason, then queued afresh under a new key and there no more. */
  lemma FailedThenRetried(db: Db, rec: Record, reason: string, now: int, later: int)
    ensures var f := Bury(db, rec, reason, now);
            var key := db.failSeq + 1;
            && f.jobs == Without(db.jobs, rec.id) && f.jobSeq == db.jobSeq && f.failSeq == key
            && f.failed ==
                 db.failed[key := Failure(rec.name, rec.payload, rec.attempts, if |reason| <= 4000 then reason else reason[..4000], now)]
            && var r := Revive(f, key, later);
            && r.failed == Without(f.failed, key)
            && r.jobs == f.jobs[db.jobSeq + 1 := Row(db.jobSeq + 1, rec.name, rec.payload, 0, 3, later, None, "", later)]
  {
  }
}
