/**
 Many requests and operators on the session store at once, every store command a step of its own.  Between any
 two steps time may pass and anyone may act; a save or a destroy may stop after any of its commands.
 */
module SessionIndex {
  import opened Jobs
  import opened Sessions
  import opened SessionStore

  /** `handler` bounds the time from loading a session to saving it, `rounding` what the client rounds off an expiry. */
  datatype Setting = Setting(ttl: int, handler: int, rounding: int)

  predicate Sensible(c: Setting) {
    c.ttl > 0 && c.handler >= 0 && 0 <= c.rounding <= SECOND
  }

  function Min(a: int, b: int): int { if a < b then a else b }

  /** The hour of slack covers the slowest handler, the minute `Touch` leaves, and the rounding. */
  predicate Slack(c: Setting) {
    Min(c.handler + MINUTE, c.ttl - 1) + c.rounding <= HOUR
  }

  datatype Request = Request(session: State, loaded: int, saved: bool)

  type SaveId = nat

  datatype Stage = ToSet | ToAdd | ToExpire | Lapsed

  /** A save between its commands.  `Lapsed`: all three were sent, but the last found the session not listed. */
  datatype Save = Save(id: Sid, data: Data, expiresAt: int, ttl: int, stage: Stage)

  /**
   Bookkeeping beside the store: `writer` names the save that wrote each session key, and `cut` holds the saves
   whose session a later SREM, or a later deletion of the whole index, took off the index.
   */
  datatype World = World(now: int, db: Db, requests: map<nat, Request>, saves: map<SaveId, Save>, next: SaveId,
                         writer: map<Sid, SaveId>, cut: set<SaveId>)

  datatype Event =
    | Begin(r: nat, cookie: Sid, newId: Sid, t: int)
    | Act(r: nat, op: Op, t: int)
    | Finish(r: nat, t: int)
    | SetStep(j: SaveId, t: int)
    | AddStep(j: SaveId, t: int)
    | ExpireStep(j: SaveId, lost: int, t: int)
    | UnlistStep(user: string, sid: Sid, t: int)
    | DropStep(sids: set<Sid>, t: int)
    | DropIndexStep(user: string, t: int)

  ghost predicate Enabled(c: Setting, w: World, e: Event) {
    && w.now <= e.t
    && match e
       case Begin(r, _, _, _) => r !in w.requests
       case Act(r, _, _) => r in w.requests
       case Finish(r, t) => r in w.requests && t - w.requests[r].loaded <= c.handler
       case SetStep(j, _) => j in w.saves && w.saves[j].stage == ToSet
       case AddStep(j, _) => j in w.saves && w.saves[j].stage == ToAdd
       case ExpireStep(j, lost, _) => j in w.saves && w.saves[j].stage == ToExpire && 0 <= lost <= c.rounding
       case UnlistStep(_, _, _) => true
       case DropStep(_, _) => true
       case DropIndexStep(_, _) => true
  }

  function DoFinish(c: Setting, w: World, r: nat, t: int): World
    requires r in w.requests
  {
    var req := w.requests[r];
    if req.saved then w
    else
      var done := w.(requests := w.requests[r := req.(saved := true)]);
      if !req.session.dirty then done
      else
        var s := req.session;
        done.(saves := w.saves[w.next := Save(s.id, s.data, s.expiresAt, Ttl(s.expiresAt, c.ttl, t), ToSet)], next := w.next + 1)
  }

  function DoSet(w: World, j: SaveId, t: int): World
    requires j in w.saves
  {
    var s := w.saves[j];
    w.(db := SetKey(w.db, s.id, Entry(s.data, s.expiresAt, t + s.ttl)), writer := w.writer[s.id := j],
       saves := if UserOf(s.data) == "" then Without(w.saves, j) else w.saves[j := s.(stage := ToAdd)])
  }

  function DoAdd(w: World, j: SaveId, t: int): World
    requires j in w.saves
  {
    var s := w.saves[j];
    w.(db := Add(w.db, UserOf(s.data), s.id, t), saves := w.saves[j := s.(stage := ToExpire)], cut := w.cut - {j})
  }

  function DoExpire(w: World, j: SaveId, lost: int, t: int): World
    requires j in w.saves
  {
    var s := w.saves[j];
    var user := UserOf(s.data);
    w.(db := Extend(w.db, user, t + s.ttl + HOUR - lost, t),
       saves := if s.id in Listed(w.db, user, t) then Without(w.saves, j) else w.saves[j := s.(stage := Lapsed)])
  }

  /** The saves behind those of `sids` that are stored for `user`. */
  function Behind(w: World, user: string, sids: set<Sid>): set<SaveId> {
    set sid | sid in sids && sid in w.db.sessions && sid in w.writer && UserOf(w.db.sessions[sid].data) == user :: w.writer[sid]
  }

  function Next(c: Setting, w: World, e: Event): World
    requires Enabled(c, w, e)
  {
    var next := match e
      case Begin(r, cookie, newId, t) =>
        w.(requests := w.requests[r := Request(Opened(w.db, cookie, newId, c.ttl, t), t, false)])
      case Act(r, op, t) =>
        w.(requests := w.requests[r := w.requests[r].(session := Apply(w.requests[r].session, op, c.ttl, t))])
      case Finish(r, t) => DoFinish(c, w, r, t)
      case SetStep(j, t) => DoSet(w, j, t)
      case AddStep(j, t) => DoAdd(w, j, t)
      case ExpireStep(j, lost, t) => DoExpire(w, j, lost, t)
      case UnlistStep(user, sid, t) => w.(db := Unlist(w.db, user, sid, t), cut := w.cut + Behind(w, user, {sid}))
      case DropStep(sids, t) => w.(db := Drop(w.db, sids))
      case DropIndexStep(user, t) => w.(db := DropIndex(w.db, user), cut := w.cut + Behind(w, user, w.db.sessions.Keys));
    next.(now := e.t)
  }

  function Start(now: int): World {
    World(now, Db(map[], map[]), map[], map[], 0, map[], {})
  }

  ghost predicate Allowed(c: Setting, w: World, es: seq<Event>)
    decreases |es|
  {
    es == [] || (Enabled(c, w, es[0]) && Allowed(c, Next(c, w, es[0]), es[1..]))
  }

  ghost function Final(c: Setting, w: World, es: seq<Event>): World
    requires Allowed(c, w, es)
    decreases |es|
  {
    if es == [] then w else Final(c, Next(c, w, es[0]), es[1..])
  }

  // ---- what every step keeps ----

  ghost predicate RequestsFit(c: Setting, requests: map<nat, Request>, now: int) {
    forall r :: r in requests ==>
      var q := requests[r];
      q.loaded <= now && q.loaded + c.ttl - MINUTE <= q.session.expiresAt <= now + c.ttl
  }

  ghost predicate SavesFit(c: Setting, saves: map<SaveId, Save>, next: SaveId, now: int) {
    forall j :: j in saves ==>
      var s := saves[j];
      j < next && s.expiresAt <= now + c.ttl && s.ttl > 0 && s.ttl >= c.ttl - c.handler - MINUTE
  }

  ghost predicate EntriesFit(c: Setting, sessions: map<Sid, Entry>, now: int) {
    forall sid :: sid in sessions ==> sessions[sid].expiresAt <= now + c.ttl
  }

  ghost predicate Written(sessions: map<Sid, Entry>, writer: map<Sid, SaveId>, saves: map<SaveId, Save>, next: SaveId) {
    forall sid :: sid in sessions ==>
      && sid in writer && writer[sid] < next
      && (writer[sid] in saves ==>
            && saves[writer[sid]].stage != ToSet && saves[writer[sid]].id == sid
            && saves[writer[sid]].data == sessions[sid].data && saves[writer[sid]].expiresAt == sessions[sid].expiresAt)
  }

  /** A session whose last save ran all its commands and found itself listed, and that nobody took off the index since. */
  predicate Settled(writer: map<Sid, SaveId>, saves: map<SaveId, Save>, cut: set<SaveId>, sid: Sid) {
    sid in writer && writer[sid] !in saves && writer[sid] !in cut
  }

  predicate OnIndex(index: map<string, Members>, user: string, sid: Sid, expiresAt: int) {
    user in index && sid in index[user].ids && (index[user].until.None? || expiresAt <= index[user].until.value)
  }

  ghost predicate IndexHolds(db: Db, writer: map<Sid, SaveId>, saves: map<SaveId, Save>, cut: set<SaveId>, now: int) {
    forall sid :: sid in db.sessions && Settled(writer, saves, cut, sid) && now <= db.sessions[sid].expiresAt
                  && UserOf(db.sessions[sid].data) != "" ==>
      OnIndex(db.index, UserOf(db.sessions[sid].data), sid, db.sessions[sid].expiresAt)
  }

  ghost predicate Bounded(c: Setting, w: World) {
    && RequestsFit(c, w.requests, w.now)
    && SavesFit(c, w.saves, w.next, w.now)
    && EntriesFit(c, w.db.sessions, w.now)
  }

  ghost predicate Inv(c: Setting, w: World) {
    && Bounded(c, w)
    && Written(w.db.sessions, w.writer, w.saves, w.next)
    && IndexHolds(w.db, w.writer, w.saves, w.cut, w.now)
  }

  lemma OpenedFits(c: Setting, db: Db, cookie: Sid, newId: Sid, t: int)
    requires EntriesFit(c, db.sessions, t)
    ensures t + c.ttl - MINUTE <= Opened(db, cookie, newId, c.ttl, t).expiresAt <= t + c.ttl
  {
  }

  lemma FinishKeepsBounded(c: Setting, w: World, r: nat, t: int)
    requires Sensible(c) && Enabled(c, w, Finish(r, t)) && Bounded(c, w)
    ensures Bounded(c, Next(c, w, Finish(r, t)))
  {
    var q := w.requests[r];
    assert q.loaded + c.ttl - MINUTE <= q.session.expiresAt <= w.now + c.ttl;
  }

  lemma NextKeepsRequests(c: Setting, w: World, e: Event)
    requires Enabled(c, w, e) && Bounded(c, w)
    ensures RequestsFit(c, Next(c, w, e).requests, e.t)
  {
    hide Opened, Apply, SetKey, Listed, Add, Extend, Unlist, Behind, Ttl, SavesFit;
    match e
    case Begin(r, cookie, newId, t) => OpenedFits(c, w.db, cookie, newId, t);
    case Act(r, op, t) => ApplyExpiry(w.requests[r].session, op, c.ttl, t);
    case _ =>
  }

  lemma NextKeepsSessions(c: Setting, w: World, e: Event)
    requires Sensible(c) && Enabled(c, w, e) && Bounded(c, w)
    ensures SavesFit(c, Next(c, w, e).saves, Next(c, w, e).next, e.t)
    ensures EntriesFit(c, Next(c, w, e).db.sessions, e.t)
  {
    hide Opened, Apply, Listed, Add, Extend, Unlist, Behind, Ttl, RequestsFit;
    if e.Finish? {
      FinishKeepsBounded(c, w, e.r, e.t);
    }
  }

  lemma NextKeepsBounded(c: Setting, w: World, e: Event)
    requires Sensible(c) && Enabled(c, w, e) && Bounded(c, w)
    ensures Bounded(c, Next(c, w, e))
  {
    NextKeepsRequests(c, w, e);
    NextKeepsSessions(c, w, e);
    assert Next(c, w, e).now == e.t;
    hide RequestsFit, SavesFit, EntriesFit;
  }

  lemma NextKeepsWritten(c: Setting, w: World, e: Event)
    requires Enabled(c, w, e) && SavesFit(c, w.saves, w.next, w.now) && Written(w.db.sessions, w.writer, w.saves, w.next)
    ensures var w' := Next(c, w, e); Written(w'.db.sessions, w'.writer, w'.saves, w'.next)
  {
    hide Opened, Apply, UserOf, Listed, Behind, Ttl;
  }

  lemma SetKeepsIndex(c: Setting, w: World, j: SaveId, t: int)
    requires Enabled(c, w, SetStep(j, t)) && Written(w.db.sessions, w.writer, w.saves, w.next)
    requires IndexHolds(w.db, w.writer, w.saves, w.cut, w.now)
    ensures var w' := Next(c, w, SetStep(j, t)); IndexHolds(w'.db, w'.writer, w'.saves, w'.cut, t)
  {
    hide UserOf;
  }

  lemma AddKeepsIndex(c: Setting, w: World, j: SaveId, t: int)
    requires Enabled(c, w, AddStep(j, t)) && IndexHolds(w.db, w.writer, w.saves, w.cut, w.now)
    ensures var w' := Next(c, w, AddStep(j, t)); IndexHolds(w'.db, w'.writer, w'.saves, w'.cut, t)
  {
    hide UserOf;
  }

  /** The one step that may shorten an index's life still outlives every session there can be. */
  lemma ExpireKeepsIndex(c: Setting, w: World, j: SaveId, lost: int, t: int)
    requires Sensible(c) && Slack(c) && Enabled(c, w, ExpireStep(j, lost, t)) && Inv(c, w)
    ensures var w' := Next(c, w, ExpireStep(j, lost, t)); IndexHolds(w'.db, w'.writer, w'.saves, w'.cut, t)
  {
    hide UserOf;
    assert t + w.saves[j].ttl + HOUR - lost >= t + c.ttl;
  }

  lemma TakingOffKeepsIndex(c: Setting, w: World, e: Event)
    requires e.UnlistStep? || e.DropStep? || e.DropIndexStep?
    requires Enabled(c, w, e) && Written(w.db.sessions, w.writer, w.saves, w.next)
    requires IndexHolds(w.db, w.writer, w.saves, w.cut, w.now)
    ensures var w' := Next(c, w, e); IndexHolds(w'.db, w'.writer, w'.saves, w'.cut, w'.now)
  {
    hide UserOf;
  }

  lemma NextKeepsInv(c: Setting, w: World, e: Event)
    requires Sensible(c) && Slack(c) && Enabled(c, w, e) && Inv(c, w)
    ensures Inv(c, Next(c, w, e))
  {
    NextKeepsBounded(c, w, e);
    NextKeepsWritten(c, w, e);
    hide Bounded, UserOf, Opened, Apply, Ttl;
    match e
    case SetStep(j, t) => SetKeepsIndex(c, w, j, t);
    case AddStep(j, t) => AddKeepsIndex(c, w, j, t);
    case ExpireStep(j, lost, t) => ExpireKeepsIndex(c, w, j, lost, t);
    case UnlistStep(_, _, _) => TakingOffKeepsIndex(c, w, e);
    case DropStep(_, _) => TakingOffKeepsIndex(c, w, e);
    case DropIndexStep(_, _) => TakingOffKeepsIndex(c, w, e);
    case _ =>
  }

  lemma {:induction false} FinalKeepsInv(c: Setting, w: World, es: seq<Event>)
    requires Sensible(c) && Slack(c) && Allowed(c, w, es) && Inv(c, w)
    ensures Inv(c, Final(c, w, es))
    decreases |es|
  {
    hide Inv, Next, Enabled;
    if es != [] {
      NextKeepsInv(c, w, es[0]);
      FinalKeepsInv(c, Next(c, w, es[0]), es[1..]);
    }
  }

  // ---- the index agrees with a scan of the sessions ----

  /** The ids a scan of all session keys would find alive for `user`. */
  function Scan(db: Db, user: string, t: int): set<Sid> {
    set sid | sid in db.sessions && Loaded(db, sid, t).Some? && UserOf(db.sessions[sid].data) == user
  }

  /** From now until something happens: every live, settled session of every user is on the user's index. */
  ghost predicate Agrees(w: World) {
    forall user, sid, t :: w.now <= t && user != "" && sid in Scan(w.db, user, t) && Settled(w.writer, w.saves, w.cut, sid) ==>
      sid in Listed(w.db, user, t)
  }

  lemma InvAgrees(c: Setting, w: World)
    requires Inv(c, w)
    ensures Agrees(w)
  {
    forall user, sid, t | w.now <= t && user != "" && sid in Scan(w.db, user, t) && Settled(w.writer, w.saves, w.cut, sid)
      ensures sid in Listed(w.db, user, t)
    {
      assert OnIndex(w.db.index, user, sid, w.db.sessions[sid].expiresAt);
    }
  }

  /** In every reachable state the index misses no live session that is settled, now or until it expires. */
  lemma IndexAgrees(c: Setting, start: int, es: seq<Event>)
    requires Sensible(c) && Slack(c) && Allowed(c, Start(start), es)
    ensures Agrees(Final(c, Start(start), es))
  {
    FinalKeepsInv(c, Start(start), es);
    InvAgrees(c, Final(c, Start(start), es));
  }

  /**
   DestroyForUser, with nothing in between but time, from any reachable state.  The user's sessions alive afterwards
   are exactly those alive then that were not on the index when it was read; so it ends every session exactly when
   each was on the index.  None of those left was settled: its last save had not finished or found itself unlisted,
   or a Destroy that stopped half-way or an overlapping DestroyForUser had taken it off the index.
   */
  lemma LogOutEverywhere(c: Setting, start: int, es: seq<Event>, user: string, t1: int, t2: int, t3: int)
    requires Sensible(c) && Slack(c) && Allowed(c, Start(start), es) && user != ""
    requires var w := Final(c, Start(start), es); w.now <= t1 <= t2 <= t3
    ensures var w := Final(c, Start(start), es);
            var w' := Next(c, Next(c, w, DropStep(Listed(w.db, user, t1), t2)), DropIndexStep(user, t3));
            && Scan(w'.db, user, t3) == Scan(w.db, user, t3) - Listed(w.db, user, t1) <= Scan(w.db, user, t1)
            && (Scan(w'.db, user, t3) == {} <==> Scan(w.db, user, t3) <= Listed(w.db, user, t1))
            && (forall sid :: sid in Scan(w'.db, user, t3) ==> !Settled(w.writer, w.saves, w.cut, sid))
  {
    var w := Final(c, Start(start), es);
    IndexAgrees(c, start, es);
    hide Final, Allowed, UserOf, Settled;
    var w' := Next(c, Next(c, w, DropStep(Listed(w.db, user, t1), t2)), DropIndexStep(user, t3));
    DroppedScan(w.db, user, Listed(w.db, user, t1), t3);
    ScanShrinks(w.db, user, t1, t3);
    assert w'.db == DropIndex(Drop(w.db, Listed(w.db, user, t1)), user);
    hide Scan, Listed, Next;
    forall sid | sid in Scan(w'.db, user, t3) ensures !Settled(w.writer, w.saves, w.cut, sid) {
      assert sid in Scan(w.db, user, t1);
    }
    Emptied(Scan(w.db, user, t3), Listed(w.db, user, t1));
  }

  lemma Emptied<T>(a: set<T>, b: set<T>)
    ensures a - b == {} <==> a <= b
  {
    assert a <= b ==> forall x :: x in a ==> x in b;
    assert a - b == {} ==> forall x :: x in a ==> x !in a - b;
  }

  lemma DroppedScan(db: Db, user: string, sids: set<Sid>, t: int)
    ensures Scan(DropIndex(Drop(db, sids), user), user, t) == Scan(db, user, t) - sids
  {
    hide UserOf;
  }

  lemma ScanShrinks(db: Db, user: string, t: int, later: int)
    requires t <= later
    ensures Scan(db, user, later) <= Scan(db, user, t)
  {
    hide UserOf;
  }
}
