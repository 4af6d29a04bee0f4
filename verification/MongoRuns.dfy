/** Many dispatchers, workers and operators on one MongoDB queue; Fail and Retry can be cut short between their two writes. */
module MongoRuns {
  import opened Jobs
  import opened Books
  import opened Rows
  import opened MongoQueue
  import Q = QueueSpec

  datatype Draft = Draft(doc: Row, retryOf: Option<Failure>)

  /**
   `reported` holds the tickets whose failure is recorded but whose document is not deleted yet; `clearing` maps a
   written copy to the failure it came from.  `recorded` counts the executions whose outcome has been written, so a
   failing one at the first write of its Fail; `cut` counts the failing ones whose worker died between the two.
   */
  datatype World = World(now: int, timeout: int, db: Db, drafts: map<JobId, Draft>, clearing: map<JobId, JobId>,
                         reported: map<Ticket, Outcome>, recorded: map<JobId, nat>, cut: map<JobId, nat>,
                         graves: set<Failure>, crew: Q.Crew, books: Books)

  datatype Event =
    | Tick(to: int)
    | MintPush(rec: Record)
    | MintRetry(f: Failure, t: int)
    | OtherMint
    | Write(id: JobId)
    | Clear(id: JobId)
    | Claim(c: Ticket, t: int, pick: Option<JobId>)
    | Report(c: Ticket, outcome: Outcome, reason: string, t: int)
    | Settle(c: Ticket, outcome: Outcome, at: int, reason: string)
    | HandBack(c: Ticket, at: int, reason: string)
    | Drop(c: Ticket)

  ghost predicate Enabled(w: World, e: Event) {
    match e
    case Tick(to) => w.now <= to
    case MintPush(_) => true
    case MintRetry(f, t) => f in w.graves && t <= w.now
    case OtherMint => true
    case Write(id) => id in w.drafts
    case Clear(id) => id in w.clearing
    case Claim(c, t, pick) =>
      && t <= w.now && c !in w.crew.held && c !in w.reported
      && Selects(w.db.jobs, t, w.timeout, pick)
    case Report(c, outcome, _, t) => c in w.crew.held && c !in w.reported && Decide(w.crew.held[c].rec, outcome).Fail? && t <= w.now
    case Settle(c, outcome, _, _) =>
      && c in w.crew.held
      && (if Decide(w.crew.held[c].rec, outcome).Fail? then c in w.reported && w.reported[c] == outcome else c !in w.reported)
    case HandBack(c, _, _) => c in w.crew.held && c !in w.reported
    case Drop(c) => c in w.crew.held
  }

  function Start(w: World, doc: Row, retryOf: Option<Failure>): World {
    w.(db := w.db.(counter := doc.id), drafts := w.drafts[doc.id := Draft(doc, retryOf)])
  }

  function DoWrite(w: World, id: JobId): World
    requires id in w.drafts
  {
    var d := w.drafts[id];
    w.(db := Insert(w.db, d.doc),
       drafts := Without(w.drafts, id),
       clearing := if d.retryOf.Some? then w.clearing[id := d.retryOf.value.id] else w.clearing,
       crew := Q.Enlist(w.crew, id, d.doc.max),
       books := w.books.(pushed := w.books.pushed[id := Content(d.doc.name, d.doc.payload)],
                         copy := if d.retryOf.Some? then w.books.copy[d.retryOf.value.id := id] else w.books.copy))
  }

  function DoClear(w: World, id: JobId): World
    requires id in w.clearing
  {
    w.(db := MongoQueue.Clear(w.db, w.clearing[id]), clearing := Without(w.clearing, id))
  }

  function DoClaim(w: World, c: Ticket, t: int, pick: Option<JobId>): World
    requires pick.Some? ==> pick.value in w.db.jobs
  {
    if pick.None? then w
    else
      var db' := Reserve(w.db, pick.value, t);
      w.(db := db', crew := Q.Grant(w.crew, c, Q.Hold(ToRecord(db'.jobs[pick.value]), t + w.timeout + 1)))
  }

  function DoReport(w: World, c: Ticket, outcome: Outcome, reason: string, t: int): World
    requires c in w.crew.held
  {
    var rec := w.crew.held[c].rec;
    var db' := MongoQueue.Report(w.db, rec, reason, t);
    w.(db := db', reported := w.reported[c := outcome], graves := w.graves + {db'.failed[rec.id]},
       recorded := if outcome.Undecodable? then w.recorded else Bump(w.recorded, rec.id))
  }

  /** A worker that dies; if it had recorded its job's failure, that Fail is cut short. */
  function DoDrop(w: World, c: Ticket): World
    requires c in w.crew.held
  {
    w.(crew := Q.Forget(w.crew, c), reported := Without(w.reported, c),
       cut := if c in w.reported && !w.reported[c].Undecodable? then Bump(w.cut, w.crew.held[c].rec.id) else w.cut)
  }

  /** The one command that settles a job, for a Fail its second. */
  function SettledDb(db: Db, id: JobId, verdict: Verdict, at: int, reason: string): Db {
    if verdict.Release? then GiveBack(db, id, at, reason) else Remove(db, id)
  }

  function DoSettle(w: World, c: Ticket, outcome: Outcome, at: int, reason: string): World
    requires c in w.crew.held
  {
    var rec := w.crew.held[c].rec;
    var verdict := Decide(rec, outcome);
    w.(db := SettledDb(w.db, rec.id, verdict, at, reason),
       crew := Q.SettleCrew(w.crew, c, outcome),
       reported := Without(w.reported, c),
       recorded := if verdict.Fail? then w.recorded else Bump(w.recorded, rec.id),
       books := if verdict.Complete? then Finished(w.books, rec.id) else w.books)
  }

  function Next(w: World, e: Event): World
    requires Enabled(w, e)
  {
    match e
    case Tick(to) => w.(now := to)
    case MintPush(rec) => Start(w, NewRow(rec, w.db.counter + 1), None)
    case MintRetry(f, t) => Start(w, NewRow(Again(f, t), w.db.counter + 1), Some(f))
    case OtherMint => w.(db := w.db.(counter := w.db.counter + 1))
    case Write(id) => DoWrite(w, id)
    case Clear(id) => DoClear(w, id)
    case Claim(c, t, pick) => DoClaim(w, c, t, pick)
    case Report(c, outcome, reason, t) => DoReport(w, c, outcome, reason, t)
    case Settle(c, outcome, at, reason) => DoSettle(w, c, outcome, at, reason)
    case HandBack(c, at, reason) => w.(db := GiveBack(w.db, w.crew.held[c].rec.id, at, reason), crew := Q.Forget(w.crew, c))
    case Drop(c) => DoDrop(w, c)
  }

  ghost predicate Init(w: World) {
    && w.timeout > 0 && w.db == Db(map[], map[], w.db.counter)
    && w.drafts == map[] && w.clearing == map[] && w.reported == map[] && w.recorded == map[] && w.cut == map[] && w.graves == {}
    && w.crew == Q.Crew(map[], map[], map[], map[]) && w.books == BLANK
  }

  ghost predicate Run(ws: seq<World>, es: seq<Event>) {
    && |ws| == |es| + 1 && Init(ws[0])
    && forall i :: 0 <= i < |es| ==> Enabled(ws[i], es[i]) && ws[i + 1] == Next(ws[i], es[i])
  }

  // ---- nothing is lost, however late workers settle and wherever they crash ----

  ghost predicate Fresh(w: World) {
    && w.timeout > 0
    && (forall id :: id in w.drafts ==> w.drafts[id].doc.id == id <= w.db.counter && id !in w.books.pushed)
    && (forall id :: id in w.books.pushed ==> id <= w.db.counter)
    && (forall id :: id in w.db.jobs ==> w.db.jobs[id].id == id)
    && w.crew.limit.Keys == w.books.pushed.Keys
  }

  ghost predicate Carries(pushed: map<JobId, Content>, id: JobId, name: string, payload: string) {
    id in pushed && pushed[id] == Content(name, payload)
  }

  ghost predicate Limited(limit: map<JobId, int>, id: JobId, max: int) {
    id in limit && limit[id] == max
  }

  ghost predicate Faithful(w: World) {
    && (forall id :: id in w.db.jobs ==>
          Carries(w.books.pushed, id, w.db.jobs[id].name, w.db.jobs[id].payload) && Limited(w.crew.limit, id, w.db.jobs[id].max))
    && (forall c :: c in w.crew.held ==>
          Carries(w.books.pushed, w.crew.held[c].rec.id, w.crew.held[c].rec.name, w.crew.held[c].rec.payload))
    && (forall f :: f in w.graves ==> Carries(w.books.pushed, f.id, f.name, f.payload))
    && (forall id :: id in w.db.failed ==> w.db.failed[id] in w.graves && w.db.failed[id].id == id)
  }

  ghost predicate Retries(graves: set<Failure>, doc: Row, f: Failure) {
    f in graves && f.id < doc.id && doc.name == f.name && doc.payload == f.payload
  }

  /** What an interrupted move leaves behind: the failure is recorded before the job goes, the copy queued before the failure goes. */
  ghost predicate Ordered(w: World) {
    && (forall id :: id in w.drafts && w.drafts[id].retryOf.Some? ==> Retries(w.graves, w.drafts[id].doc, w.drafts[id].retryOf.value))
    && (forall id :: id in w.clearing ==> w.clearing[id] in w.books.copy)
    && (forall c :: c in w.reported ==> c in w.crew.held && (w.crew.held[c].rec.id in w.db.failed || w.crew.held[c].rec.id in w.books.copy))
  }

  ghost predicate NoneLost(w: World) {
    Balanced(w.books, w.db.jobs.Keys, w.db.failed.Keys)
  }

  ghost predicate Safe(w: World) {
    Fresh(w) && Faithful(w) && Ordered(w) && NoneLost(w)
  }

  /** Events that queue nothing new. */
  lemma FreshStays(w: World, w': World)
    requires Fresh(w) && w'.timeout == w.timeout && w'.drafts == w.drafts && w'.books.pushed == w.books.pushed
    requires w.db.counter <= w'.db.counter && w'.crew.limit == w.crew.limit
    requires forall id :: id in w'.db.jobs ==> w'.db.jobs[id].id == id
    ensures Fresh(w')
  {
  }

  lemma SettleFresh(w: World, c: Ticket, outcome: Outcome, at: int, reason: string)
    requires Fresh(w) && c in w.crew.held
    ensures Fresh(DoSettle(w, c, outcome, at, reason))
  {
    hide Truncate;
    FreshStays(w, DoSettle(w, c, outcome, at, reason));
  }

  lemma StartFresh(w: World, doc: Row, retryOf: Option<Failure>)
    requires Fresh(w) && doc.id == w.db.counter + 1
    ensures Fresh(Start(w, doc, retryOf))
  {
  }

  lemma WriteFresh(w: World, id: JobId)
    requires Fresh(w) && id in w.drafts
    ensures Fresh(DoWrite(w, id))
  {
  }

  lemma NextKeepsFresh(w: World, e: Event)
    requires Fresh(w) && Enabled(w, e)
    ensures Fresh(Next(w, e))
  {
    hide DoSettle, DoWrite, Start, Truncate;
    match e
    case MintPush(rec) => StartFresh(w, NewRow(rec, w.db.counter + 1), None);
    case MintRetry(f, t) => StartFresh(w, NewRow(Again(f, t), w.db.counter + 1), Some(f));
    case Write(id) => WriteFresh(w, id);
    case Settle(c, outcome, at, reason) => SettleFresh(w, c, outcome, at, reason);
    case Clear(id) => FreshStays(w, DoClear(w, id));
    case Claim(c, t, pick) => FreshStays(w, DoClaim(w, c, t, pick));
    case Report(c, outcome, reason, t) => FreshStays(w, DoReport(w, c, outcome, reason, t));
    case HandBack(c, at, reason) => FreshStays(w, Next(w, e));
    case Drop(c) => FreshStays(w, DoDrop(w, c));
    case _ =>
  }

  lemma WriteFaithful(w: World, id: JobId)
    requires Fresh(w) && Faithful(w) && id in w.drafts
    ensures Faithful(DoWrite(w, id))
  {
  }

  lemma ClearFaithful(w: World, id: JobId)
    requires Fresh(w) && Faithful(w) && id in w.clearing
    ensures Faithful(DoClear(w, id))
  {
  }

  lemma ClaimFaithful(w: World, c: Ticket, t: int, pick: Option<JobId>)
    requires Fresh(w) && Faithful(w) && Enabled(w, Claim(c, t, pick))
    ensures Faithful(DoClaim(w, c, t, pick))
  {
  }

  lemma ReportFaithful(w: World, c: Ticket, outcome: Outcome, reason: string, t: int)
    requires Fresh(w) && Faithful(w) && Enabled(w, Report(c, outcome, reason, t))
    ensures Faithful(DoReport(w, c, outcome, reason, t))
  {
  }

  lemma ReleaseFaithful(w: World, c: Ticket, outcome: Outcome, at: int, reason: string)
    requires Fresh(w) && Faithful(w) && Enabled(w, Settle(c, outcome, at, reason)) && Decide(w.crew.held[c].rec, outcome).Release?
    ensures Faithful(DoSettle(w, c, outcome, at, reason))
  {
  }

  lemma RemovalFaithful(w: World, c: Ticket, outcome: Outcome, at: int, reason: string)
    requires Fresh(w) && Faithful(w) && Enabled(w, Settle(c, outcome, at, reason)) && !Decide(w.crew.held[c].rec, outcome).Release?
    ensures Faithful(DoSettle(w, c, outcome, at, reason))
  {
  }

  lemma SettleFaithful(w: World, c: Ticket, outcome: Outcome, at: int, reason: string)
    requires Fresh(w) && Faithful(w) && Enabled(w, Settle(c, outcome, at, reason))
    ensures Faithful(DoSettle(w, c, outcome, at, reason))
  {
    hide DoSettle, Faithful;
    if Decide(w.crew.held[c].rec, outcome).Release? {
      ReleaseFaithful(w, c, outcome, at, reason);
    } else {
      RemovalFaithful(w, c, outcome, at, reason);
    }
  }

  lemma NextKeepsFaithful(w: World, e: Event)
    requires Fresh(w) && Faithful(w) && Enabled(w, e)
    ensures Faithful(Next(w, e))
  {
    hide DoWrite, DoClear, DoClaim, DoReport, DoSettle;
    match e
    case Write(id) => WriteFaithful(w, id);
    case Clear(id) => ClearFaithful(w, id);
    case Claim(c, t, pick) => ClaimFaithful(w, c, t, pick);
    case Report(c, outcome, reason, t) => ReportFaithful(w, c, outcome, reason, t);
    case Settle(c, outcome, at, reason) => SettleFaithful(w, c, outcome, at, reason);
    case _ =>
  }

  lemma WriteOrdered(w: World, id: JobId)
    requires Fresh(w) && Faithful(w) && Ordered(w) && id in w.drafts
    ensures Ordered(DoWrite(w, id))
  {
  }

  lemma ClearOrdered(w: World, id: JobId)
    requires Fresh(w) && Faithful(w) && Ordered(w) && id in w.clearing
    ensures Ordered(DoClear(w, id))
  {
  }

  lemma ClaimOrdered(w: World, c: Ticket, t: int, pick: Option<JobId>)
    requires Fresh(w) && Faithful(w) && Ordered(w) && Enabled(w, Claim(c, t, pick))
    ensures Ordered(DoClaim(w, c, t, pick))
  {
  }

  lemma ReportOrdered(w: World, c: Ticket, outcome: Outcome, reason: string, t: int)
    requires Fresh(w) && Faithful(w) && Ordered(w) && Enabled(w, Report(c, outcome, reason, t))
    ensures Ordered(DoReport(w, c, outcome, reason, t))
  {
  }

  lemma SettleOrdered(w: World, c: Ticket, outcome: Outcome, at: int, reason: string)
    requires Fresh(w) && Faithful(w) && Ordered(w) && Enabled(w, Settle(c, outcome, at, reason))
    ensures Ordered(DoSettle(w, c, outcome, at, reason))
  {
  }

  lemma OtherOrdered(w: World, e: Event)
    requires Fresh(w) && Faithful(w) && Ordered(w) && Enabled(w, e)
    requires !e.Write? && !e.Clear? && !e.Claim? && !e.Report? && !e.Settle?
    ensures Ordered(Next(w, e))
  {
  }

  lemma NextKeepsOrdered(w: World, e: Event)
    requires Fresh(w) && Faithful(w) && Ordered(w) && Enabled(w, e)
    ensures Ordered(Next(w, e))
  {
    hide DoWrite, DoClear, DoClaim, DoReport, DoSettle, Faithful, Fresh, Ordered;
    match e
    case Write(id) => WriteOrdered(w, id);
    case Clear(id) => ClearOrdered(w, id);
    case Claim(c, t, pick) => ClaimOrdered(w, c, t, pick);
    case Report(c, outcome, reason, t) => ReportOrdered(w, c, outcome, reason, t);
    case Settle(c, outcome, at, reason) => SettleOrdered(w, c, outcome, at, reason);
    case _ => OtherOrdered(w, e);
  }

  lemma WriteNoneLost(w: World, id: JobId)
    requires NoneLost(w) && id in w.drafts && id !in w.books.pushed && w.drafts[id].doc.id == id
    requires w.drafts[id].retryOf.Some? ==>
               var f := w.drafts[id].retryOf.value;
               Retries(w.graves, w.drafts[id].doc, f) && Carries(w.books.pushed, f.id, f.name, f.payload)
    ensures NoneLost(DoWrite(w, id))
  {
  }

  lemma ClearNoneLost(w: World, id: JobId)
    requires Fresh(w) && Faithful(w) && Ordered(w) && NoneLost(w) && id in w.clearing
    ensures NoneLost(DoClear(w, id))
  {
  }

  lemma ClaimNoneLost(w: World, c: Ticket, t: int, pick: Option<JobId>)
    requires Fresh(w) && Faithful(w) && Ordered(w) && NoneLost(w) && Enabled(w, Claim(c, t, pick))
    ensures NoneLost(DoClaim(w, c, t, pick))
  {
  }

  lemma ReportNoneLost(w: World, c: Ticket, outcome: Outcome, reason: string, t: int)
    requires Fresh(w) && Faithful(w) && Ordered(w) && NoneLost(w) && Enabled(w, Report(c, outcome, reason, t))
    ensures NoneLost(DoReport(w, c, outcome, reason, t))
  {
  }

  lemma SettleNoneLost(w: World, c: Ticket, outcome: Outcome, at: int, reason: string)
    requires Fresh(w) && Faithful(w) && Ordered(w) && NoneLost(w) && Enabled(w, Settle(c, outcome, at, reason))
    ensures NoneLost(DoSettle(w, c, outcome, at, reason))
  {
  }

  lemma NextKeepsNoneLost(w: World, e: Event)
    requires Fresh(w) && Faithful(w) && Ordered(w) && NoneLost(w) && Enabled(w, e)
    ensures NoneLost(Next(w, e))
  {
    hide DoWrite, DoClear, DoClaim, DoReport, DoSettle;
    match e
    case Write(id) => WriteNoneLost(w, id);
    case Clear(id) => ClearNoneLost(w, id);
    case Claim(c, t, pick) => ClaimNoneLost(w, c, t, pick);
    case Report(c, outcome, reason, t) => ReportNoneLost(w, c, outcome, reason, t);
    case Settle(c, outcome, at, reason) => SettleNoneLost(w, c, outcome, at, reason);
    case _ =>
  }

  lemma NextKeepsSafe(w: World, e: Event)
    requires Safe(w) && Enabled(w, e)
    ensures Safe(Next(w, e))
  {
    hide Fresh, Faithful, Ordered, NoneLost, Next, Enabled;
    NextKeepsFresh(w, e);
    NextKeepsFaithful(w, e);
    NextKeepsOrdered(w, e);
    NextKeepsNoneLost(w, e);
  }

  lemma {:induction false} RunIsSafe(ws: seq<World>, es: seq<Event>, i: nat)
    requires Run(ws, es) && i < |ws|
    ensures Safe(ws[i])
  {
    if i > 0 {
      RunIsSafe(ws, es, i - 1);
      NextKeepsSafe(ws[i - 1], es[i - 1]);
    }
  }

  /**
   Whatever is cut short between two writes, and however late workers settle: following the retry
   copies of a pushed job ends at one that is completed, stored, or recorded as failed.
   */
  lemma NoJobIsLost(ws: seq<World>, es: seq<Event>, i: nat, id: JobId) returns (last: JobId)
    requires Run(ws, es) && i < |ws| && id in ws[i].books.pushed
    ensures Sound(ws[i].books) && Succeeds(ws[i].books, id, last)
    ensures last in ws[i].books.pushed && ws[i].books.pushed[last] == ws[i].books.pushed[id]
    ensures last in ws[i].books.completed
         || (last in ws[i].db.jobs && Content(ws[i].db.jobs[last].name, ws[i].db.jobs[last].payload) == ws[i].books.pushed[id])
         || (last in ws[i].db.failed && Content(ws[i].db.failed[last].name, ws[i].db.failed[last].payload) == ws[i].books.pushed[id])
  {
    RunIsSafe(ws, es, i);
    NothingTrimmed(ws, es, i);
    last := NothingLost(ws[i].books, ws[i].db.jobs.Keys, ws[i].db.failed.Keys, id, ws[i].db.counter);
  }

  lemma NextTrimsNothing(w: World, e: Event)
    requires Enabled(w, e)
    ensures Next(w, e).books.trimmed == w.books.trimmed
  {
    hide GiveBack, Selects, MongoQueue.Report;
  }

  /** The failures are not bounded here. */
  lemma {:induction false} NothingTrimmed(ws: seq<World>, es: seq<Event>, i: nat)
    requires Run(ws, es) && i < |ws|
    ensures ws[i].books.trimmed == {}
  {
    hide Enabled, Next;
    if i > 0 {
      NothingTrimmed(ws, es, i - 1);
      NextTrimsNothing(ws[i - 1], es[i - 1]);
    }
  }
}
