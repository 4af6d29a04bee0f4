/** Many workers and operators on the SQL tables, with the two statements of a claim as separate steps. */
module SqlRuns {
  import opened Jobs
  import opened Books
  import opened Rows
  import opened SqlQueue
  import Q = QueueSpec

  /** A claim between its select and its update: the row it read and the clock it read first. */
  datatype Read = Read(row: Row, t: int)

  /** `origin` says which job a failure row came from; the table itself does not keep that. */
  datatype World = World(now: int, timeout: int, db: Db, seen: map<Ticket, Read>, origin: map<nat, JobId>, crew: Q.Crew, books: Books)

  datatype Event =
    | Tick(to: int)
    | Push(rec: Record)
    | Select(c: Ticket, t: int, pick: Option<JobId>)
    | Update(c: Ticket)
    | Settle(c: Ticket, outcome: Outcome, at: int, reason: string)
    | HandBack(c: Ticket, at: int, reason: string)
    | Drop(c: Ticket)
    | Retry(key: nat, t: int)

  ghost predicate Enabled(w: World, e: Event) {
    match e
    case Tick(to) => w.now <= to
    case Push(_) => true
    case Select(c, t, pick) => t <= w.now && c !in w.seen && c !in w.crew.held && Selects(w.db.jobs, t, w.timeout, pick)
    case Update(c) => c in w.seen && c !in w.crew.held
    case Settle(c, _, _, _) => c in w.crew.held
    case HandBack(c, _, _) => c in w.crew.held
    case Drop(c) => c in w.crew.held
    case Retry(key, t) => key in w.db.failed && key in w.origin && t <= w.now
  }

  function DoPush(w: World, rec: Record): World {
    var id := w.db.jobSeq + 1;
    w.(db := Insert(w.db, rec), crew := Q.Enlist(w.crew, id, rec.max),
       books := w.books.(pushed := w.books.pushed[id := Carried(rec)]))
  }

  function DoUpdate(w: World, c: Ticket): World
    requires c in w.seen
  {
    var r := w.seen[c];
    var done := w.(db := SqlQueue.Update(w.db, r.row, r.t, w.timeout), seen := Without(w.seen, c));
    if Hits(w.db, r.row, r.t, w.timeout) then
      done.(crew := Q.Grant(w.crew, c, Q.Hold(Claimed(r.row), r.t + w.timeout + 1)))
    else done
  }

  /** The one command or transaction that settles a job. */
  function SettledDb(db: Db, rec: Record, verdict: Verdict, at: int, reason: string, now: int): Db {
    match verdict
    case Complete => Remove(db, rec.id)
    case Release => GiveBack(db, rec.id, at, reason)
    case Fail => Bury(db, rec, reason, now)
  }

  function DoSettle(w: World, c: Ticket, outcome: Outcome, at: int, reason: string): World
    requires c in w.crew.held
  {
    var rec := w.crew.held[c].rec;
    var verdict := Decide(rec, outcome);
    w.(db := SettledDb(w.db, rec, verdict, at, reason, w.now),
       crew := Q.SettleCrew(w.crew, c, outcome),
       origin := if verdict.Fail? then w.origin[w.db.failSeq + 1 := rec.id] else w.origin,
       books := if verdict.Complete? then Finished(w.books, rec.id) else w.books)
  }

  function DoRetry(w: World, key: nat, t: int): World
    requires key in w.db.failed && key in w.origin
  {
    var id := w.db.jobSeq + 1;
    var f := w.db.failed[key];
    w.(db := Revive(w.db, key, t), crew := Q.Enlist(w.crew, id, DEFAULT_MAX_ATTEMPTS),
       books := w.books.(pushed := w.books.pushed[id := Content(f.name, f.payload)],
                         copy := w.books.copy[w.origin[key] := id]))
  }

  function Next(w: World, e: Event): World
    requires Enabled(w, e)
  {
    match e
    case Tick(to) => w.(now := to)
    case Push(rec) => DoPush(w, rec)
    case Select(c, t, pick) => if pick.Some? then w.(seen := w.seen[c := Read(w.db.jobs[pick.value], t)]) else w
    case Update(c) => DoUpdate(w, c)
    case Settle(c, outcome, at, reason) => DoSettle(w, c, outcome, at, reason)
    case HandBack(c, at, reason) => w.(db := GiveBack(w.db, w.crew.held[c].rec.id, at, reason), crew := Q.Forget(w.crew, c))
    case Drop(c) => w.(crew := Q.Forget(w.crew, c))
    case Retry(key, t) => DoRetry(w, key, t)
  }

  ghost predicate Init(w: World) {
    && w.timeout > 0 && w.db == Db(map[], map[], 0, 0) && w.seen == map[] && w.origin == map[]
    && w.crew == Q.Crew(map[], map[], map[], map[]) && w.books == BLANK
  }

  ghost predicate Run(ws: seq<World>, es: seq<Event>) {
    && |ws| == |es| + 1 && Init(ws[0])
    && forall i :: 0 <= i < |es| ==> Enabled(ws[i], es[i]) && ws[i + 1] == Next(ws[i], es[i])
  }

  ghost predicate Timely(w: World, e: Event) {
    match e
    case Settle(c, _, _, _) => c in w.crew.held && w.now < w.crew.held[c].lease
    case HandBack(c, _, _) => c in w.crew.held && w.now < w.crew.held[c].lease
    case _ => true
  }

  ghost predicate TimelyRun(ws: seq<World>, es: seq<Event>) {
    Run(ws, es) && forall i :: 0 <= i < |es| ==> Timely(ws[i], es[i])
  }

  ghost predicate Carries(pushed: map<JobId, Content>, id: JobId, name: string, payload: string) {
    id in pushed && pushed[id] == Content(name, payload)
  }

  ghost predicate Limited(limit: map<JobId, int>, id: JobId, max: int) {
    id in limit && limit[id] == max
  }

  ghost predicate Fresh(w: World) {
    && w.timeout > 0
    && (forall id :: id in w.db.jobs ==> w.db.jobs[id].id == id)
    && (forall id :: id in w.books.pushed ==> id <= w.db.jobSeq)
    && (forall key :: key in w.db.failed ==> key <= w.db.failSeq)
    && w.db.failed.Keys <= w.origin.Keys
    && w.crew.limit.Keys == w.books.pushed.Keys
  }

  ghost predicate Faithful(w: World) {
    && (forall id :: id in w.db.jobs ==>
          Carries(w.books.pushed, id, w.db.jobs[id].name, w.db.jobs[id].payload) && Limited(w.crew.limit, id, w.db.jobs[id].max))
    && (forall c :: c in w.seen ==>
          && Carries(w.books.pushed, w.seen[c].row.id, w.seen[c].row.name, w.seen[c].row.payload)
          && Limited(w.crew.limit, w.seen[c].row.id, w.seen[c].row.max) && w.seen[c].t <= w.now)
    && (forall c :: c in w.crew.held ==>
          && Carries(w.books.pushed, w.crew.held[c].rec.id, w.crew.held[c].rec.name, w.crew.held[c].rec.payload))
    && (forall key :: key in w.db.failed ==>
          key in w.origin && Carries(w.books.pushed, w.origin[key], w.db.failed[key].name, w.db.failed[key].payload))
  }

  function Origins(w: World): (ids: set<JobId>)
    ensures forall key :: key in w.db.failed && key in w.origin ==> w.origin[key] in ids
  {
    set key | key in w.db.failed && key in w.origin :: w.origin[key]
  }

  ghost predicate NoneLost(w: World) {
    Balanced(w.books, w.db.jobs.Keys, Origins(w))
  }

  ghost predicate Safe(w: World) {
    Fresh(w) && Faithful(w) && NoneLost(w)
  }

  lemma SettleFresh(w: World, c: Ticket, outcome: Outcome, at: int, reason: string)
    requires Fresh(w) && c in w.crew.held
    ensures Fresh(DoSettle(w, c, outcome, at, reason))
  {
  }

  lemma RetryFresh(w: World, key: nat, t: int)
    requires Fresh(w) && key in w.db.failed && key in w.origin
    ensures Fresh(DoRetry(w, key, t))
  {
  }

  lemma NextKeepsFresh(w: World, e: Event)
    requires Fresh(w) && Enabled(w, e)
    ensures Fresh(Next(w, e))
  {
    hide DoSettle, DoRetry;
    match e
    case Settle(c, outcome, at, reason) => SettleFresh(w, c, outcome, at, reason);
    case Retry(key, t) => RetryFresh(w, key, t);
    case _ =>
  }

  lemma PushFaithful(w: World, rec: Record)
    requires Fresh(w) && Faithful(w)
    ensures Faithful(DoPush(w, rec))
  {
  }

  lemma UpdateFaithful(w: World, c: Ticket)
    requires Fresh(w) && Faithful(w) && c in w.seen
    ensures Faithful(DoUpdate(w, c))
  {
  }

  lemma BuryFaithful(w: World, c: Ticket, outcome: Outcome, at: int, reason: string)
    requires Fresh(w) && Faithful(w) && c in w.crew.held && Decide(w.crew.held[c].rec, outcome).Fail?
    ensures Faithful(DoSettle(w, c, outcome, at, reason))
  {
  }

  lemma CompleteFaithful(w: World, c: Ticket, outcome: Outcome, at: int, reason: string)
    requires Fresh(w) && Faithful(w) && c in w.crew.held && Decide(w.crew.held[c].rec, outcome).Complete?
    ensures Faithful(DoSettle(w, c, outcome, at, reason))
  {
  }

  lemma ReleaseFaithful(w: World, c: Ticket, outcome: Outcome, at: int, reason: string)
    requires Fresh(w) && Faithful(w) && c in w.crew.held && Decide(w.crew.held[c].rec, outcome).Release?
    ensures Faithful(DoSettle(w, c, outcome, at, reason))
  {
  }

  lemma SettleFaithful(w: World, c: Ticket, outcome: Outcome, at: int, reason: string)
    requires Fresh(w) && Faithful(w) && c in w.crew.held
    ensures Faithful(DoSettle(w, c, outcome, at, reason))
  {
    var verdict := Decide(w.crew.held[c].rec, outcome);
    hide DoSettle;
    match verdict
    case Complete => CompleteFaithful(w, c, outcome, at, reason);
    case Release => ReleaseFaithful(w, c, outcome, at, reason);
    case Fail => BuryFaithful(w, c, outcome, at, reason);
  }

  lemma RetryFaithful(w: World, key: nat, t: int)
    requires Fresh(w) && Faithful(w) && key in w.db.failed && key in w.origin
    ensures Faithful(DoRetry(w, key, t))
  {
  }

  lemma NextKeepsFaithful(w: World, e: Event)
    requires Fresh(w) && Faithful(w) && Enabled(w, e)
    ensures Faithful(Next(w, e))
  {
    hide DoPush, DoUpdate, DoSettle, DoRetry;
    match e
    case Push(rec) => PushFaithful(w, rec);
    case Update(c) => UpdateFaithful(w, c);
    case Settle(c, outcome, at, reason) => SettleFaithful(w, c, outcome, at, reason);
    case Retry(key, t) => RetryFaithful(w, key, t);
    case _ =>
  }

  lemma PushNoneLost(w: World, rec: Record)
    requires Fresh(w) && Faithful(w) && NoneLost(w)
    ensures NoneLost(DoPush(w, rec))
  {
    assert Origins(DoPush(w, rec)) == Origins(w);
  }

  lemma UpdateNoneLost(w: World, c: Ticket)
    requires Fresh(w) && Faithful(w) && NoneLost(w) && c in w.seen
    ensures NoneLost(DoUpdate(w, c))
  {
    assert Origins(DoUpdate(w, c)) == Origins(w);
  }

  lemma SettleNoneLost(w: World, c: Ticket, outcome: Outcome, at: int, reason: string)
    requires Fresh(w) && NoneLost(w) && c in w.crew.held
    ensures NoneLost(DoSettle(w, c, outcome, at, reason))
  {
    var w' := DoSettle(w, c, outcome, at, reason);
    assert Origins(w) <= Origins(w') by {
      forall k | k in w.db.failed && k in w.origin ensures w.origin[k] in Origins(w') {
        assert k in w'.db.failed;
      }
    }
    if Decide(w.crew.held[c].rec, outcome).Fail? {
      assert w.db.failSeq + 1 in w'.db.failed;
    }
  }

  lemma RetryNoneLost(w: World, key: nat, t: int)
    requires Fresh(w) && NoneLost(w) && key in w.db.failed && key in w.origin
    requires Carries(w.books.pushed, w.origin[key], w.db.failed[key].name, w.db.failed[key].payload)
    ensures NoneLost(DoRetry(w, key, t))
  {
    var w' := DoRetry(w, key, t);
    forall k | k in w.db.failed && k != key ensures w.origin[k] in Origins(w') {
      assert k in w'.db.failed;
    }
  }

  lemma NextKeepsNoneLost(w: World, e: Event)
    requires Fresh(w) && Faithful(w) && NoneLost(w) && Enabled(w, e)
    ensures NoneLost(Next(w, e))
  {
    hide DoPush, DoUpdate, DoSettle, DoRetry;
    match e
    case Push(rec) => PushNoneLost(w, rec);
    case Update(c) => UpdateNoneLost(w, c);
    case Settle(c, outcome, at, reason) => SettleNoneLost(w, c, outcome, at, reason);
    case Retry(key, t) => RetryNoneLost(w, key, t);
    case _ => assert Origins(Next(w, e)) == Origins(w);
  }

  lemma NextKeepsSafe(w: World, e: Event)
    requires Safe(w) && Enabled(w, e)
    ensures Safe(Next(w, e))
  {
    hide Fresh, Faithful, NoneLost, Next, Enabled;
    NextKeepsFresh(w, e);
    NextKeepsFaithful(w, e);
    NextKeepsNoneLost(w, e);
  }

  lemma {:induction false} RunIsSafe(ws: seq<World>, es: seq<Event>, i: nat)
    requires Run(ws, es) && i < |ws|
    ensures Safe(ws[i])
  {
    if i > 0 {
      RunIsSafe(ws, es, i - 1);
      NextKeepsSafe(ws[i - 1], es[i - 1]);
    }
  }

  lemma NextTrimsNothing(w: World, e: Event)
    requires Enabled(w, e)
    ensures Next(w, e).books.trimmed == w.books.trimmed
  {
    hide GiveBack, Selects, Bury;
  }

  /** The failed table is not bounded. */
  lemma {:induction false} NothingTrimmed(ws: seq<World>, es: seq<Event>, i: nat)
    requires Run(ws, es) && i < |ws|
    ensures ws[i].books.trimmed == {}
  {
    hide Enabled, Next;
    if i > 0 {
      NothingTrimmed(ws, es, i - 1);
      NextTrimsNothing(ws[i - 1], es[i - 1]);
    }
  }

  /** Late settlements and crashes included: following the retry copies of a pushed job ends at one that is completed, in the jobs table, or in the failed table. */
  lemma NoJobIsLost(ws: seq<World>, es: seq<Event>, i: nat, id: JobId) returns (last: JobId)
    requires Run(ws, es) && i < |ws| && id in ws[i].books.pushed
    ensures Sound(ws[i].books) && Succeeds(ws[i].books, id, last)
    ensures last in ws[i].books.pushed && ws[i].books.pushed[last] == ws[i].books.pushed[id]
    ensures last in ws[i].books.completed
         || (last in ws[i].db.jobs && Content(ws[i].db.jobs[last].name, ws[i].db.jobs[last].payload) == ws[i].books.pushed[id])
         || (exists key :: key in ws[i].db.failed && key in ws[i].origin && ws[i].origin[key] == last
               && Content(ws[i].db.failed[key].name, ws[i].db.failed[key].payload) == ws[i].books.pushed[id])
  {
    RunIsSafe(ws, es, i);
    NothingTrimmed(ws, es, i);
    var w := ws[i];
    last := NothingLost(w.books, w.db.jobs.Keys, Origins(w), id, w.db.jobSeq);
    if last in Origins(w) {
      var key :| key in w.db.failed && key in w.origin && w.origin[key] == last;
      assert Carries(w.books.pushed, w.origin[key], w.db.failed[key].name, w.db.failed[key].payload);
    }
  }
}
