/** What becomes of one job in Redis: when it is first handed out, in which order, and what a release, a failure and a retry keep of it. */
module RedisLife {
  import opened Jobs
  import opened Lists
  import opened RedisQueue
  import opened RedisRuns
  import opened RedisRefines
  import Q = QueueSpec

  /** The job an event asks for: what is pushed, with its count at zero, or a failure's content with its own limit, due now. */
  function Asked(e: Event): Option<Record> {
    match e
    case MintPush(rec) => Some(rec.(attempts := 0))
    case MintRetry(raw, t) => Some(Record(0, raw.name, raw.payload, 0, raw.max, t, t, ""))
    case _ => None
  }

  predicate Takes(e: Event, id: JobId) {
    e.Claim? && e.pick == Some(id)
  }

  predicate IsAsked(s: Stored, id: JobId, rec: Record) {
    && s.id == id && s.name == rec.name && s.payload == rec.payload && s.max == rec.max
    && s.available == rec.available && s.created == rec.created && s.error == ""
  }

  /** `id` was minted for `rec` and has not been handed out: not yet written, or pending at its due time. */
  ghost predicate Waits(w: World, id: JobId, rec: Record) {
    && id <= w.db.counter && id !in w.db.reserved && id !in w.db.attempts
    && (id in w.drafts ==> IsAsked(w.drafts[id].job, id, rec))
    && (id in w.db.jobs ==> IsAsked(w.db.jobs[id], id, rec) && id in w.db.pending && w.db.pending[id] == rec.available)
    && (forall c :: c in w.crew.held ==> w.crew.held[c].rec.id != id)
  }

  lemma AskedWaits(w: World, e: Event)
    requires Layout(w.db) && Fresh(w) && Enabled(w, e) && Asked(e).Some?
    ensures Waits(Next(w, e), w.db.counter + 1, Asked(e).value)
  {
  }

  lemma SettleWaits(w: World, c: Ticket, outcome: Outcome, at: int, reason: string, id: JobId, rec: Record)
    requires c in w.crew.held && Waits(w, id, rec)
    ensures Waits(DoSettle(w, c, outcome, at, reason), id, rec)
  {
    hide Truncate, Trim, IsAsked, SettledBooks;
  }

  lemma ClaimWaits(w: World, c: Ticket, t: int, pick: Option<JobId>, id: JobId, rec: Record)
    requires Layout(w.db) && Enabled(w, Claim(c, t, pick)) && Waits(w, id, rec) && pick != Some(id)
    ensures Waits(DoClaim(w, c, t, pick), id, rec)
  {
    hide IsAsked;
  }

  lemma WriteWaits(w: World, k: JobId, id: JobId, rec: Record)
    requires Fresh(w) && k in w.drafts && Waits(w, id, rec)
    ensures Waits(DoWrite(w, k), id, rec)
  {
  }

  lemma NextWaits(w: World, e: Event, id: JobId, rec: Record)
    requires Layout(w.db) && Fresh(w) && Enabled(w, e) && Waits(w, id, rec) && !Takes(e, id)
    ensures Waits(Next(w, e), id, rec)
  {
    hide Truncate, Trim, Lost, DoSettle, DoClaim, DoWrite, IsAsked;
    match e
    case Settle(c, outcome, at, reason) => SettleWaits(w, c, outcome, at, reason, id, rec);
    case Claim(c, t, pick) => ClaimWaits(w, c, t, pick, id, rec);
    case Write(k) => WriteWaits(w, k, id, rec);
    case HandBack(c, at, reason) =>
    case _ =>
  }

  /** From just after event `m` asked for a job until it is handed out, it waits as it was asked for. */
  lemma {:induction false} WaitsUntilTaken(ws: seq<World>, es: seq<Event>, m: nat, i: nat)
    requires Run(ws, es) && m < i < |ws| && Asked(es[m]).Some?
    requires forall k :: m < k < i ==> !Takes(es[k], ws[m].db.counter + 1)
    ensures Waits(ws[i], ws[m].db.counter + 1, Asked(es[m]).value)
  {
    hide Next, Enabled, Waits, Layout, Fresh, Faithful, Filed, NoneLost;
    if i == m + 1 {
      RunIsSafe(ws, es, m);
      AskedWaits(ws[m], es[m]);
    } else {
      WaitsUntilTaken(ws, es, m, i - 1);
      RunIsSafe(ws, es, i - 1);
      NextWaits(ws[i - 1], es[i - 1], ws[m].db.counter + 1, Asked(es[m]).value);
    }
  }

  /** A stored job that was never handed out is claimable at `t` exactly when its asked due time has come. */
  lemma DueExactly(w: World, id: JobId, rec: Record, t: int)
    requires Waits(w, id, rec) && id in w.db.jobs
    ensures Q.Claimable(JobsOf(w.db), t, id) <==> rec.available <= t
    ensures JobsOf(w.db)[id].attempts == 0 && JobsOf(w.db)[id].max == rec.max
  {
  }

  /** On every run, late settlements included: a pushed or retried job is first handed out no earlier than asked, as it was asked for, as its first attempt. */
  lemma FirstClaim(ws: seq<World>, es: seq<Event>, m: nat, i: nat)
    requires Run(ws, es) && m < i < |es| && Asked(es[m]).Some?
    requires Takes(es[i], ws[m].db.counter + 1) && ws[m].db.counter + 1 in ws[i].db.jobs
    requires forall k :: m < k < i ==> !Takes(es[k], ws[m].db.counter + 1)
    ensures var rec := Asked(es[m]).value;
            && rec.available <= es[i].t && es[i].c in ws[i + 1].crew.held
            && ws[i + 1].crew.held[es[i].c].rec ==
                 Record(ws[m].db.counter + 1, rec.name, rec.payload, 1, rec.max, rec.available, rec.created, "")
  {
    WaitsUntilTaken(ws, es, m, i);
    assert Enabled(ws[i], es[i]) && ws[i + 1] == Next(ws[i], es[i]);
  }

  /** No claim passes over a job pending and due for one whose score is later; a lapsed reservation counts as due now. */
  lemma NoOvertaking(w: World, c: Ticket, t: int, id: JobId, k: JobId)
    requires Layout(w.db) && Enabled(w, Claim(c, t, Some(id))) && k in w.db.pending && w.db.pending[k] <= t
    ensures id in w.db.pending || (id in w.db.reserved && w.db.reserved[id] <= t)
    ensures (if id in w.db.pending then w.db.pending[id] else t) <= w.db.pending[k]
  {
    assert Due(Reclaimed(w.db, t), t, k);
  }

  // ---- what is kept ----

  /** A claimed job is handed out again from exactly the end of its timeout, if nothing else happens to it. */
  lemma ReservedUntil(db: Db, id: JobId, t: int, timeout: int, u: int)
    requires id in db.jobs && id in db.pending && id !in db.reserved
    ensures var taken := Grab(db, id, t + timeout);
            && (Q.Claimable(JobsOf(taken), u, id) <==> t + timeout <= u)
            && Without(taken.reserved, id) == db.reserved && taken.pending == Without(db.pending, id)
            && taken.jobs == db.jobs && taken.failed == db.failed && Count(taken.attempts, id) == Count(db.attempts, id) + 1
            && forall k :: k != id ==> Count(taken.attempts, k) == Count(db.attempts, k)
  {
    assert Without(Grab(db, id, t + timeout).reserved, id) == db.reserved;
  }

  /** Released and claimed again: not before the time given, with the reason, one more attempt, and all else as it was. */
  lemma ReleasedThenClaimed(db: Db, rec: Record, at: int, reason: string, t: int, expires: int)
    ensures var released := GiveBack(db, rec, at, reason);
            && released == db.(jobs := released.jobs, reserved := Without(db.reserved, rec.id), pending := db.pending[rec.id := at])
            && (forall k :: k != rec.id ==> (k in released.jobs <==> k in db.jobs) && (k in db.jobs ==> released.jobs[k] == db.jobs[k]))
            && (Q.Claimable(JobsOf(released), t, rec.id) <==> at <= t)
            && Reply(released, Grab(released, rec.id, expires), Some(rec.id)) ==
                 Some(Record(rec.id, rec.name, rec.payload, Count(db.attempts, rec.id) + 1, rec.max, at, rec.created,
                             if |reason| <= 4000 then reason else reason[..4000]))
  {
  }

  /** Failed and retried: in front of the list with its attempts and reason, then queued afresh under a new id and listed no more. */
  lemma FailedThenRetried(db: Db, rec: Record, reason: string, later: int)
    requires |db.failed| <= 1000
    ensures var raw := Stored(rec.id, rec.name, rec.payload, rec.max, 0, rec.created,
                              if |reason| <= 4000 then reason else reason[..4000], rec.attempts);
            var f := Bury(db, rec, reason);
            && f.jobs == Without(db.jobs, rec.id) && f.reserved == Without(db.reserved, rec.id) && f.attempts == Without(db.attempts, rec.id)
            && f.pending == db.pending && f.failed == [raw] + (if |db.failed| < 1000 then db.failed else db.failed[..999])
            && var r := Retried(f, raw, later);
            && r.failed == f.failed[1..] && r.counter == db.counter + 1
            && r.pending == f.pending[r.counter := later] && r.reserved == f.reserved && r.attempts == f.attempts
            && r.jobs == f.jobs[r.counter := Stored(r.counter, rec.name, rec.payload, rec.max, later, later, "", 0)]
  {
    var all := [Buried(rec, reason)] + db.failed;
    assert |all| > 1000 ==> all[..1000] == [Buried(rec, reason)] + db.failed[..999];
  }
}
