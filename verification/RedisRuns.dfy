/**
 Any number of dispatchers, workers and operators sharing one Redis queue.  Every event is one atomic
 command, pipeline or script; a crash is an operation whose remaining events never happen.  Claims may
 use a clock reading older than the present, settlements may come long after the reservation lapsed.
 */
module RedisRuns {
  import opened Jobs
  import opened Lists
  import opened Books
  import opened RedisQueue
  import Q = QueueSpec

  /** A job whose id is minted but which is not written yet; `retryOf` is the failure it copies. */
  datatype Draft = Draft(job: Stored, retryOf: Option<Stored>)

  /**
   `clearing` holds retries whose copy is written but whose failure is still listed, by copy id;
   `graves` is every failure this queue ever listed.
   */
  datatype World = World(now: int, timeout: int, db: Db, drafts: map<JobId, Draft>, clearing: map<JobId, Stored>,
                         graves: set<Stored>, crew: Q.Crew, books: Books)

  datatype Event =
    | Tick(to: int)
    | MintPush(rec: Record)
    | MintRetry(raw: Stored, t: int)
    | Write(id: JobId)
    | Clear(id: JobId)
    | Claim(c: Ticket, t: int, pick: Option<JobId>)
    | Settle(c: Ticket, outcome: Outcome, at: int, reason: string)
    | HandBack(c: Ticket, at: int, reason: string)
    | Drop(c: Ticket)
    | OtherMint                 // another queue mints an id
    | OtherFail(raw: Stored)    // another queue buries a job
    | OtherClear(raw: Stored)   // another queue takes a failure back

  function Ids(list: seq<Stored>): (ids: set<JobId>)
    ensures forall s :: s in list ==> s.id in ids
  {
    set s | s in list :: s.id
  }

  /** The ids LTRIM pushes off when `raw` arrives. */
  function Lost(list: seq<Stored>, raw: Stored): set<JobId> {
    if |list| < KEPT then {} else Ids(([raw] + list)[KEPT..])
  }

  ghost predicate Enabled(w: World, e: Event) {
    match e
    case Tick(to) => w.now <= to
    case MintPush(_) => true
    case MintRetry(raw, t) => raw in w.graves && t <= w.now
    case Write(id) => id in w.drafts
    case Clear(id) => id in w.clearing
    case Claim(c, t, pick) =>
      && t <= w.now && c !in w.crew.held
      && var ready := Reclaimed(w.db, t);
      if pick.Some? then FirstDue(ready, t, pick.value) else forall id :: !Due(ready, t, id)
    case Settle(c, _, _, _) => c in w.crew.held
    case HandBack(c, _, _) => c in w.crew.held
    case Drop(c) => c in w.crew.held
    case OtherMint => true
    case OtherFail(raw) => raw.id <= w.db.counter && raw.id !in w.books.pushed && raw.id !in w.drafts
    case OtherClear(raw) => raw.id !in w.books.pushed
  }

  function Start(w: World, job: Stored, retryOf: Option<Stored>): World {
    w.(db := w.db.(counter := job.id), drafts := w.drafts[job.id := Draft(job, retryOf)])
  }

  function DoWrite(w: World, id: JobId): World
    requires id in w.drafts
  {
    var d := w.drafts[id];
    w.(db := Enqueue(w.db, d.job),
       drafts := Without(w.drafts, id),
       clearing := if d.retryOf.Some? then w.clearing[id := d.retryOf.value] else w.clearing,
       crew := Q.Enlist(w.crew, id, d.job.max),
       books := w.books.(pushed := w.books.pushed[id := Content(d.job.name, d.job.payload)],
                         copy := if d.retryOf.Some? then w.books.copy[d.retryOf.value.id := id] else w.books.copy))
  }

  function DoClear(w: World, id: JobId): World
    requires id in w.clearing
  {
    w.(db := Unbury(w.db, w.clearing[id]), clearing := Without(w.clearing, id))
  }

  function DoClaim(w: World, c: Ticket, t: int, pick: Option<JobId>): World {
    var ready := Reclaimed(w.db, t);
    if pick.None? then w.(db := ready)
    else
      var db' := Grab(ready, pick.value, t + w.timeout);
      match Reply(w.db, db', pick)
      case None => w.(db := db')
      case Some(rec) => w.(db := db', crew := Q.Grant(w.crew, c, Q.Hold(rec, t + w.timeout)))
  }

  /** The one pipeline that settles a job. */
  function SettledDb(db: Db, rec: Record, verdict: Verdict, at: int, reason: string): Db {
    match verdict
    case Complete => Remove(db, rec.id)
    case Release => GiveBack(db, rec, at, reason)
    case Fail => Bury(db, rec, reason)
  }

  function SettledBooks(books: Books, failed: seq<Stored>, rec: Record, verdict: Verdict, reason: string): Books {
    match verdict
    case Complete => Finished(books, rec.id)
    case Release => books
    case Fail => books.(trimmed := books.trimmed + Lost(failed, Buried(rec, reason)))
  }

  function DoSettle(w: World, c: Ticket, outcome: Outcome, at: int, reason: string): World
    requires c in w.crew.held
  {
    var rec := w.crew.held[c].rec;
    var verdict := Decide(rec, outcome);
    w.(db := SettledDb(w.db, rec, verdict, at, reason),
       crew := Q.SettleCrew(w.crew, c, outcome),
       graves := if verdict.Fail? then w.graves + {Buried(rec, reason)} else w.graves,
       books := SettledBooks(w.books, w.db.failed, rec, verdict, reason))
  }

  function Next(w: World, e: Event): World
    requires Enabled(w, e)
  {
    match e
    case Tick(to) => w.(now := to)
    case MintPush(rec) => Start(w, Rewritten(rec.(id := w.db.counter + 1), rec.available, ""), None)
    case MintRetry(raw, t) => Start(w, Copy(raw, w.db.counter + 1, t), Some(raw))
    case Write(id) => DoWrite(w, id)
    case Clear(id) => DoClear(w, id)
    case Claim(c, t, pick) => DoClaim(w, c, t, pick)
    case Settle(c, outcome, at, reason) => DoSettle(w, c, outcome, at, reason)
    case HandBack(c, at, reason) =>
      w.(db := GiveBack(w.db, w.crew.held[c].rec, at, reason), crew := Q.Forget(w.crew, c))
    case Drop(c) => w.(crew := Q.Forget(w.crew, c))
    case OtherMint => w.(db := w.db.(counter := w.db.counter + 1))
    case OtherFail(raw) =>
      w.(db := w.db.(failed := Trim([raw] + w.db.failed)), books := w.books.(trimmed := w.books.trimmed + Lost(w.db.failed, raw)))
    case OtherClear(raw) => w.(db := Unbury(w.db, raw))
  }

  ghost predicate Init(w: World) {
    && w.timeout > 0 && w.db.(counter := 0, failed := []) == EMPTY
    && w.drafts == map[] && w.clearing == map[] && w.graves == {}
    && w.crew == Q.Crew(map[], map[], map[], map[]) && w.books == BLANK
    && |w.db.failed| <= KEPT && (forall s :: s in w.db.failed ==> s.id <= w.db.counter)
  }

  ghost predicate Run(ws: seq<World>, es: seq<Event>) {
    && |ws| == |es| + 1 && Init(ws[0])
    && forall i :: 0 <= i < |es| ==> Enabled(ws[i], es[i]) && ws[i + 1] == Next(ws[i], es[i])
  }

  // ---- the key layout ----

  /** What every reachable state of the keys satisfies, however late workers settle. */
  ghost predicate Layout(db: Db) {
    && db.pending.Keys !! db.reserved.Keys
    && db.reserved.Keys <= db.jobs.Keys
    && db.attempts.Keys <= db.jobs.Keys
    && db.jobs.Keys <= db.pending.Keys + db.reserved.Keys
    && (forall id :: id in db.pending ==> id <= db.counter)
    && (forall id :: id in db.jobs ==> id <= db.counter && db.jobs[id].id == id)
    && |db.failed| <= KEPT
  }

  /** Ids still being pushed are known to nobody else. */
  ghost predicate Fresh(w: World) {
    && (forall id :: id in w.drafts ==>
          && w.drafts[id].job.id == id <= w.db.counter
          && id !in w.db.pending && id !in w.books.pushed)
    && (forall id :: id in w.books.pushed ==> id <= w.db.counter)
    && (forall s :: s in w.db.failed ==> s.id <= w.db.counter && s.id !in w.drafts)
    && w.db.pending.Keys <= w.books.pushed.Keys && w.db.jobs.Keys <= w.books.pushed.Keys
    && (forall c :: c in w.crew.held ==> w.crew.held[c].rec.id in w.books.pushed)
    && w.crew.limit.Keys == w.books.pushed.Keys
    && w.timeout > 0
  }

  ghost predicate Carries(pushed: map<JobId, Content>, s: Stored) {
    s.id in pushed && pushed[s.id] == Content(s.name, s.payload)
  }

  ghost predicate Limited(limit: map<JobId, int>, id: JobId, max: int) {
    id in limit && limit[id] == max
  }

  ghost predicate HoldsPushed(pushed: map<JobId, Content>, limit: map<JobId, int>, rec: Record) {
    rec.id in pushed && pushed[rec.id] == Carried(rec) && Limited(limit, rec.id, rec.max)
  }

  /** `job` copies the listed failure `raw` under a later id. */
  ghost predicate Retries(graves: set<Stored>, job: Stored, raw: Stored) {
    raw in graves && raw.id < job.id && job.name == raw.name && job.payload == raw.payload
  }

  /** Every queued or held job still carries what was pushed. */
  ghost predicate Faithful(w: World) {
    && (forall id :: id in w.db.jobs ==> Carries(w.books.pushed, w.db.jobs[id]) && Limited(w.crew.limit, id, w.db.jobs[id].max))
    && (forall c :: c in w.crew.held ==> HoldsPushed(w.books.pushed, w.crew.limit, w.crew.held[c].rec))
  }

  /** Failures and the retries made of them carry what was pushed, and a failure is cleared only after its copy is queued. */
  ghost predicate Filed(w: World) {
    && (forall s :: s in w.db.failed && s.id in w.books.pushed ==> s in w.graves)
    && (forall s :: s in w.graves ==> Carries(w.books.pushed, s))
    && (forall id :: id in w.drafts && w.drafts[id].retryOf.Some? ==>
          Retries(w.graves, w.drafts[id].job, w.drafts[id].retryOf.value))
    && (forall id :: id in w.clearing ==> w.clearing[id].id in w.books.copy)
  }

  ghost predicate NoneLost(w: World) {
    Balanced(w.books, w.db.jobs.Keys, Ids(w.db.failed))
  }

  ghost predicate Safe(w: World) {
    Layout(w.db) && Fresh(w) && Faithful(w) && Filed(w) && NoneLost(w)
  }

  lemma TrimKeeps(list: seq<Stored>, raw: Stored)
    requires |list| <= KEPT
    ensures forall s :: s in Trim([raw] + list) ==> s == raw || s in list
    ensures raw in Trim([raw] + list)
    ensures Ids([raw] + list) <= Ids(Trim([raw] + list)) + Lost(list, raw)
    ensures |Trim([raw] + list)| == if |list| < 1000 then |list| + 1 else 1000
  {
    var all := [raw] + list;
    assert all[0] == raw && Trim(all)[0] == raw;
    if |list| == KEPT {
      assert all == all[..KEPT] + all[KEPT..];
    }
  }

  // ---- the layout survives every command ----

  lemma ReclaimLayout(db: Db, t: int)
    requires Layout(db)
    ensures Layout(Reclaimed(db, t))
  {
  }

  lemma GrabLayout(db: Db, id: JobId, expires: int)
    requires Layout(db) && id in db.pending
    ensures Layout(Grab(db, id, expires))
  {
  }

  lemma GiveBackLayout(db: Db, rec: Record, at: int, reason: string)
    requires Layout(db) && rec.id <= db.counter
    ensures Layout(GiveBack(db, rec, at, reason))
  {
  }

  lemma BuryLayout(db: Db, rec: Record, reason: string)
    requires Layout(db)
    ensures Layout(Remove(db, rec.id)) && Layout(Bury(db, rec, reason))
  {
    TrimKeeps(db.failed, Buried(rec, reason));
  }

  lemma ClaimLayout(w: World, c: Ticket, t: int, pick: Option<JobId>)
    requires Layout(w.db) && Enabled(w, Claim(c, t, pick))
    ensures Layout(DoClaim(w, c, t, pick).db)
  {
    ReclaimLayout(w.db, t);
    if pick.Some? {
      GrabLayout(Reclaimed(w.db, t), pick.value, t + w.timeout);
    }
  }

  lemma SettleLayout(w: World, c: Ticket, outcome: Outcome, at: int, reason: string)
    requires Layout(w.db) && Fresh(w) && c in w.crew.held
    ensures Layout(DoSettle(w, c, outcome, at, reason).db)
  {
    BuryLayout(w.db, w.crew.held[c].rec, reason);
    GiveBackLayout(w.db, w.crew.held[c].rec, at, reason);
    hide Layout, Bury, GiveBack, Remove, Buried;
  }

  lemma WriteLayout(w: World, id: JobId)
    requires Layout(w.db) && Fresh(w) && id in w.drafts
    ensures Layout(DoWrite(w, id).db)
  {
  }

  lemma NextKeepsLayout(w: World, e: Event)
    requires Layout(w.db) && Fresh(w) && Enabled(w, e)
    ensures Layout(Next(w, e).db)
  {
    hide DoClaim, DoSettle, GiveBack, DoWrite;
    match e
    case Write(id) => WriteLayout(w, id);
    case Claim(c, t, pick) => ClaimLayout(w, c, t, pick);
    case Settle(c, outcome, at, reason) => SettleLayout(w, c, outcome, at, reason);
    case HandBack(c, at, reason) => GiveBackLayout(w.db, w.crew.held[c].rec, at, reason);
    case OtherFail(raw) => TrimKeeps(w.db.failed, raw);
    case _ =>
  }

  // ---- each event keeps ids fresh, contents faithful and jobs accounted for ----

  lemma StartFresh(w: World, job: Stored, retryOf: Option<Stored>)
    requires Layout(w.db) && Fresh(w)
    requires job.id == w.db.counter + 1 && (retryOf.Some? ==> Retries(w.graves, job, retryOf.value))
    ensures Fresh(Start(w, job, retryOf))
  {
  }

  lemma StartFaithful(w: World, job: Stored, retryOf: Option<Stored>)
    requires Layout(w.db) && Fresh(w) && Faithful(w)
    requires job.id == w.db.counter + 1 && (retryOf.Some? ==> Retries(w.graves, job, retryOf.value))
    ensures Faithful(Start(w, job, retryOf))
  {
  }

  lemma StartFiled(w: World, job: Stored, retryOf: Option<Stored>)
    requires Fresh(w) && Faithful(w) && Filed(w)
    requires job.id == w.db.counter + 1 && (retryOf.Some? ==> Retries(w.graves, job, retryOf.value))
    ensures Filed(Start(w, job, retryOf))
  {
  }

  lemma StartBalanced(w: World, job: Stored, retryOf: Option<Stored>)
    requires Fresh(w) && Filed(w) && NoneLost(w)
    requires job.id == w.db.counter + 1 && (retryOf.Some? ==> Retries(w.graves, job, retryOf.value))
    ensures NoneLost(Start(w, job, retryOf))
  {
  }

  lemma WriteFresh(w: World, id: JobId)
    requires Layout(w.db) && Fresh(w) && id in w.drafts
    ensures Fresh(DoWrite(w, id))
  {
  }

  lemma WriteFaithful(w: World, id: JobId)
    requires Layout(w.db) && Fresh(w) && Faithful(w) && id in w.drafts
    ensures Faithful(DoWrite(w, id))
  {
  }

  lemma WriteFiled(w: World, id: JobId)
    requires Fresh(w) && Faithful(w) && Filed(w) && id in w.drafts
    ensures Filed(DoWrite(w, id))
  {
  }

  lemma WriteBalanced(w: World, id: JobId)
    requires NoneLost(w) && id in w.drafts && id !in w.books.pushed && w.drafts[id].job.id == id
    requires w.drafts[id].retryOf.Some? ==> Retries(w.graves, w.drafts[id].job, w.drafts[id].retryOf.value) && Carries(w.books.pushed, w.drafts[id].retryOf.value)
    ensures NoneLost(DoWrite(w, id))
  {
  }

  lemma ClearFresh(w: World, id: JobId)
    requires Layout(w.db) && Fresh(w) && id in w.clearing
    ensures Fresh(DoClear(w, id))
  {
  }

  lemma ClearFaithful(w: World, id: JobId)
    requires Layout(w.db) && Fresh(w) && Faithful(w) && id in w.clearing
    ensures Faithful(DoClear(w, id))
  {
  }

  lemma ClearFiled(w: World, id: JobId)
    requires Fresh(w) && Faithful(w) && Filed(w) && id in w.clearing
    ensures Filed(DoClear(w, id))
  {
  }

  lemma ClearBalanced(w: World, id: JobId)
    requires Fresh(w) && Filed(w) && NoneLost(w) && id in w.clearing
    ensures NoneLost(DoClear(w, id))
  {
  }

  /** A claim moves ids between the two sorted sets and at most hands out one stored job. */
  ghost predicate Handed(w: World, c: Ticket, w': World) {
    && w'.db.jobs == w.db.jobs && w'.db.failed == w.db.failed && w'.db.counter == w.db.counter
    && w'.db.pending.Keys <= w.db.pending.Keys + w.db.reserved.Keys
    && w' == w.(db := w'.db, crew := w'.crew)
    && (w'.crew == w.crew || (c in w'.crew.held && w'.crew == Q.Grant(w.crew, c, w'.crew.held[c])
          && var rec := w'.crew.held[c].rec; rec.id in w.db.jobs && rec == ToRecord(w.db.jobs[rec.id], rec.attempts)))
  }

  lemma ClaimHands(w: World, c: Ticket, t: int, pick: Option<JobId>)
    requires Layout(w.db) && Enabled(w, Claim(c, t, pick))
    ensures Handed(w, c, DoClaim(w, c, t, pick))
  {
  }

  lemma ClaimFresh(w: World, c: Ticket, w': World)
    requires Layout(w.db) && Fresh(w) && Handed(w, c, w')
    ensures Fresh(w')
  {
  }

  lemma ClaimFaithful(w: World, c: Ticket, w': World)
    requires Layout(w.db) && Fresh(w) && Faithful(w) && Handed(w, c, w')
    ensures Faithful(w')
  {
  }

  lemma ClaimFiled(w: World, c: Ticket, w': World)
    requires Fresh(w) && Faithful(w) && Filed(w) && Handed(w, c, w')
    ensures Filed(w')
  {
  }

  lemma ClaimBalanced(w: World, c: Ticket, w': World)
    requires Fresh(w) && Filed(w) && NoneLost(w) && Handed(w, c, w')
    ensures NoneLost(w')
  {
  }

  lemma CompleteFresh(w: World, c: Ticket, outcome: Outcome)
    requires Layout(w.db) && Fresh(w)
    requires c in w.crew.held && Decide(w.crew.held[c].rec, outcome).Complete?
    ensures Fresh(DoSettle(w, c, outcome, 0, ""))
  {
  }

  lemma CompleteFaithful(w: World, c: Ticket, outcome: Outcome)
    requires Layout(w.db) && Fresh(w) && Faithful(w)
    requires c in w.crew.held && Decide(w.crew.held[c].rec, outcome).Complete?
    ensures Faithful(DoSettle(w, c, outcome, 0, ""))
  {
  }

  lemma CompleteFiled(w: World, c: Ticket, outcome: Outcome)
    requires Fresh(w) && Faithful(w) && Filed(w)
    requires c in w.crew.held && Decide(w.crew.held[c].rec, outcome).Complete?
    ensures Filed(DoSettle(w, c, outcome, 0, ""))
  {
  }

  lemma CompleteBalanced(w: World, c: Ticket, outcome: Outcome)
    requires Fresh(w) && Filed(w) && NoneLost(w)
    requires c in w.crew.held && Decide(w.crew.held[c].rec, outcome).Complete?
    ensures NoneLost(DoSettle(w, c, outcome, 0, ""))
  {
  }

  lemma ReleaseFresh(w: World, c: Ticket, at: int, reason: string, crew: Q.Crew)
    requires Layout(w.db) && Fresh(w)
    requires c in w.crew.held && crew.held == Without(w.crew.held, c) && crew.limit == w.crew.limit
    ensures Fresh(w.(db := GiveBack(w.db, w.crew.held[c].rec, at, reason), crew := crew))
  {
  }

  lemma ReleaseFaithful(w: World, c: Ticket, at: int, reason: string, crew: Q.Crew)
    requires Layout(w.db) && Fresh(w) && Faithful(w)
    requires c in w.crew.held && crew.held == Without(w.crew.held, c) && crew.limit == w.crew.limit
    ensures Faithful(w.(db := GiveBack(w.db, w.crew.held[c].rec, at, reason), crew := crew))
  {
  }

  lemma ReleaseFiled(w: World, c: Ticket, at: int, reason: string, crew: Q.Crew)
    requires Fresh(w) && Faithful(w) && Filed(w)
    requires c in w.crew.held && crew.held == Without(w.crew.held, c) && crew.limit == w.crew.limit
    ensures Filed(w.(db := GiveBack(w.db, w.crew.held[c].rec, at, reason), crew := crew))
  {
  }

  lemma ReleaseBalanced(w: World, c: Ticket, at: int, reason: string, crew: Q.Crew)
    requires Fresh(w) && Filed(w) && NoneLost(w)
    requires c in w.crew.held && crew.held == Without(w.crew.held, c) && crew.limit == w.crew.limit
    ensures NoneLost(w.(db := GiveBack(w.db, w.crew.held[c].rec, at, reason), crew := crew))
  {
  }

  lemma FailFresh(w: World, c: Ticket, outcome: Outcome, reason: string)
    requires Layout(w.db) && Fresh(w)
    requires c in w.crew.held && Decide(w.crew.held[c].rec, outcome).Fail? && |w.db.failed| <= KEPT
    ensures Fresh(DoSettle(w, c, outcome, 0, reason))
  {
    TrimKeeps(w.db.failed, Buried(w.crew.held[c].rec, reason));
  }

  lemma FailFaithful(w: World, c: Ticket, outcome: Outcome, reason: string)
    requires Layout(w.db) && Fresh(w) && Faithful(w)
    requires c in w.crew.held && Decide(w.crew.held[c].rec, outcome).Fail? && |w.db.failed| <= KEPT
    ensures Faithful(DoSettle(w, c, outcome, 0, reason))
  {
    TrimKeeps(w.db.failed, Buried(w.crew.held[c].rec, reason));
  }

  /** One more failure of this queue, listed and remembered. */
  lemma FiledMore(w: World, w': World, raw: Stored)
    requires Filed(w) && Carries(w.books.pushed, raw)
    requires w'.drafts == w.drafts && w'.clearing == w.clearing
    requires w'.books.pushed == w.books.pushed && w'.books.copy == w.books.copy
    requires w'.graves == w.graves + {raw} && forall s :: s in w'.db.failed ==> s == raw || s in w.db.failed
    ensures Filed(w')
  {
  }

  lemma FailFiled(w: World, c: Ticket, outcome: Outcome, reason: string)
    requires Faithful(w) && Filed(w)
    requires c in w.crew.held && Decide(w.crew.held[c].rec, outcome).Fail? && |w.db.failed| <= KEPT
    ensures Filed(DoSettle(w, c, outcome, 0, reason))
  {
    var raw := Buried(w.crew.held[c].rec, reason);
    TrimKeeps(w.db.failed, raw);
    assert Carries(w.books.pushed, raw) by {
      assert HoldsPushed(w.books.pushed, w.crew.limit, w.crew.held[c].rec);
    }
    hide Filed, Trim, Lost, Carries;
    FiledMore(w, DoSettle(w, c, outcome, 0, reason), raw);
  }

  lemma FailBalanced(w: World, c: Ticket, outcome: Outcome, reason: string)
    requires NoneLost(w) && |w.db.failed| <= KEPT
    requires c in w.crew.held && Decide(w.crew.held[c].rec, outcome).Fail?
    ensures NoneLost(DoSettle(w, c, outcome, 0, reason))
  {
    TrimKeeps(w.db.failed, Buried(w.crew.held[c].rec, reason));
  }

  lemma SettleFresh(w: World, c: Ticket, outcome: Outcome, at: int, reason: string)
    requires Safe(w) && c in w.crew.held
    ensures Fresh(DoSettle(w, c, outcome, at, reason))
  {
    match Decide(w.crew.held[c].rec, outcome)
    case Complete => CompleteFresh(w, c, outcome);
    case Release => ReleaseFresh(w, c, at, reason, Q.SettleCrew(w.crew, c, outcome));
    case Fail => FailFresh(w, c, outcome, reason);
  }

  lemma NextKeepsFresh(w: World, e: Event)
    requires Safe(w) && Enabled(w, e)
    ensures Fresh(Next(w, e))
  {
    match e
    case MintPush(rec) => StartFresh(w, Rewritten(rec.(id := w.db.counter + 1), rec.available, ""), None);
    case MintRetry(raw, t) => StartFresh(w, Copy(raw, w.db.counter + 1, t), Some(raw));
    case Write(id) => WriteFresh(w, id);
    case Clear(id) => ClearFresh(w, id);
    case Claim(c, t, pick) =>
      ClaimHands(w, c, t, pick);
      ClaimFresh(w, c, Next(w, e));
    case Settle(c, outcome, at, reason) => SettleFresh(w, c, outcome, at, reason);
    case HandBack(c, at, reason) => ReleaseFresh(w, c, at, reason, Q.Forget(w.crew, c));
    case OtherFail(raw) => TrimKeeps(w.db.failed, raw);
    case _ =>
  }

  lemma SettleFaithful(w: World, c: Ticket, outcome: Outcome, at: int, reason: string)
    requires Safe(w) && c in w.crew.held
    ensures Faithful(DoSettle(w, c, outcome, at, reason))
  {
    match Decide(w.crew.held[c].rec, outcome)
    case Complete => CompleteFaithful(w, c, outcome);
    case Release => ReleaseFaithful(w, c, at, reason, Q.SettleCrew(w.crew, c, outcome));
    case Fail => FailFaithful(w, c, outcome, reason);
  }

  lemma SettleFiled(w: World, c: Ticket, outcome: Outcome, at: int, reason: string)
    requires Safe(w) && c in w.crew.held
    ensures Filed(DoSettle(w, c, outcome, at, reason))
  {
    match Decide(w.crew.held[c].rec, outcome)
    case Complete => CompleteFiled(w, c, outcome);
    case Release => ReleaseFiled(w, c, at, reason, Q.SettleCrew(w.crew, c, outcome));
    case Fail => FailFiled(w, c, outcome, reason);
  }

  lemma NextKeepsFaithful(w: World, e: Event)
    requires Safe(w) && Enabled(w, e)
    ensures Faithful(Next(w, e))
  {
    match e
    case MintPush(rec) => StartFaithful(w, Rewritten(rec.(id := w.db.counter + 1), rec.available, ""), None);
    case MintRetry(raw, t) => StartFaithful(w, Copy(raw, w.db.counter + 1, t), Some(raw));
    case Write(id) => WriteFaithful(w, id);
    case Clear(id) => ClearFaithful(w, id);
    case Claim(c, t, pick) =>
      ClaimHands(w, c, t, pick);
      ClaimFaithful(w, c, Next(w, e));
    case Settle(c, outcome, at, reason) => SettleFaithful(w, c, outcome, at, reason);
    case HandBack(c, at, reason) => ReleaseFaithful(w, c, at, reason, Q.Forget(w.crew, c));
    case OtherFail(raw) => TrimKeeps(w.db.failed, raw);
    case _ =>
  }

  lemma NextKeepsFiled(w: World, e: Event)
    requires Safe(w) && Enabled(w, e)
    ensures Filed(Next(w, e))
  {
    match e
    case MintPush(rec) => StartFiled(w, Rewritten(rec.(id := w.db.counter + 1), rec.available, ""), None);
    case MintRetry(raw, t) => StartFiled(w, Copy(raw, w.db.counter + 1, t), Some(raw));
    case Write(id) => WriteFiled(w, id);
    case Clear(id) => ClearFiled(w, id);
    case Claim(c, t, pick) =>
      ClaimHands(w, c, t, pick);
      ClaimFiled(w, c, Next(w, e));
    case Settle(c, outcome, at, reason) => SettleFiled(w, c, outcome, at, reason);
    case HandBack(c, at, reason) => ReleaseFiled(w, c, at, reason, Q.Forget(w.crew, c));
    case OtherFail(raw) => TrimKeeps(w.db.failed, raw);
    case _ =>
  }

  lemma SettleBalanced(w: World, c: Ticket, outcome: Outcome, at: int, reason: string)
    requires Safe(w) && c in w.crew.held
    ensures NoneLost(DoSettle(w, c, outcome, at, reason))
  {
    match Decide(w.crew.held[c].rec, outcome)
    case Complete => CompleteBalanced(w, c, outcome);
    case Release => ReleaseBalanced(w, c, at, reason, Q.SettleCrew(w.crew, c, outcome));
    case Fail => FailBalanced(w, c, outcome, reason);
  }

  lemma OtherFailBalanced(w: World, raw: Stored)
    requires NoneLost(w) && |w.db.failed| <= KEPT && Enabled(w, OtherFail(raw))
    ensures NoneLost(Next(w, OtherFail(raw)))
  {
    TrimKeeps(w.db.failed, raw);
  }

  lemma NextKeepsBalanced(w: World, e: Event)
    requires Safe(w) && Enabled(w, e)
    ensures NoneLost(Next(w, e))
  {
    match e
    case MintPush(rec) => StartBalanced(w, Rewritten(rec.(id := w.db.counter + 1), rec.available, ""), None);
    case MintRetry(raw, t) => StartBalanced(w, Copy(raw, w.db.counter + 1, t), Some(raw));
    case Write(id) => WriteBalanced(w, id);
    case Clear(id) => ClearBalanced(w, id);
    case Claim(c, t, pick) =>
      ClaimHands(w, c, t, pick);
      ClaimBalanced(w, c, Next(w, e));
    case Settle(c, outcome, at, reason) => SettleBalanced(w, c, outcome, at, reason);
    case HandBack(c, at, reason) => ReleaseBalanced(w, c, at, reason, Q.Forget(w.crew, c));
    case OtherFail(raw) => OtherFailBalanced(w, raw);
    case _ =>
  }

  lemma NextKeepsSafe(w: World, e: Event)
    requires Safe(w) && Enabled(w, e)
    ensures Safe(Next(w, e))
  {
    NextKeepsLayout(w, e);
    NextKeepsFresh(w, e);
    NextKeepsFaithful(w, e);
    NextKeepsFiled(w, e);
    NextKeepsBalanced(w, e);
  }
}
