/** The hour of slack on the index is enough exactly when it covers what can be lost, and what it cannot cover. */
module SessionSlack {
  import opened Jobs
  import opened Sessions
  import opened SessionStore
  import opened SessionIndex

  ghost predicate AlwaysAgrees(c: Setting) {
    forall start, es :: Allowed(c, Start(start), es) ==> Agrees(Final(c, Start(start), es))
  }

  lemma {:induction false} FinalJoin(c: Setting, w: World, es: seq<Event>, fs: seq<Event>)
    requires Allowed(c, w, es) && Allowed(c, Final(c, w, es), fs)
    ensures Allowed(c, w, es + fs) && Final(c, w, es + fs) == Final(c, Final(c, w, es), fs)
    decreases |es|
  {
    hide Next, Enabled;
    if es == [] {
      assert es + fs == fs;
    } else {
      assert (es + fs)[1..] == es[1..] + fs;
      FinalJoin(c, Next(c, w, es[0]), es[1..], fs);
    }
  }

  lemma OneStep(c: Setting, w: World, e: Event)
    requires Enabled(c, w, e)
    ensures Allowed(c, w, [e]) && Final(c, w, [e]) == Next(c, w, e)
  {
    hide Next, Enabled;
    var none: seq<Event> := [];
    assert [e][1..] == none;
    assert Allowed(c, Next(c, w, e), none);
  }

  lemma TwoSteps(c: Setting, w: World, e: Event, f: Event)
    requires Enabled(c, w, e) && Enabled(c, Next(c, w, e), f)
    ensures Allowed(c, w, [e, f]) && Final(c, w, [e, f]) == Next(c, Next(c, w, e), f)
  {
    hide Next, Enabled;
    OneStep(c, w, e);
    OneStep(c, Next(c, w, e), f);
    FinalJoin(c, w, [e], [f]);
    assert [e] + [f] == [e, f];
  }

  /** The three commands of a save that has just been decided on, all at `t`. */
  function Commands(j: SaveId, lost: int, t: int): seq<Event> {
    [SetStep(j, t), AddStep(j, t), ExpireStep(j, lost, t)]
  }

  /** The first two commands of a save, together. */
  lemma SetAndAdd(c: Setting, w: World, j: SaveId, t: int)
    requires w.now <= t && j in w.saves && w.saves[j].stage == ToSet && UserOf(w.saves[j].data) != ""
    ensures Allowed(c, w, [SetStep(j, t), AddStep(j, t)])
    ensures var s := w.saves[j];
            Final(c, w, [SetStep(j, t), AddStep(j, t)]) ==
              World(t, Add(SetKey(w.db, s.id, Entry(s.data, s.expiresAt, t + s.ttl)), UserOf(s.data), s.id, t),
                    w.requests, w.saves[j := s.(stage := ToExpire)], w.next, w.writer[s.id := j], w.cut - {j})
  {
    hide UserOf, Add;
    TwoSteps(c, w, SetStep(j, t), AddStep(j, t));
  }

  /** With nothing in between, the three commands do what `Save` does, and the session is settled. */
  lemma CommandsSave(c: Setting, w: World, j: SaveId, lost: int, t: int)
    requires Sensible(c) && 0 <= lost <= c.rounding && w.now <= t
    requires j in w.saves && w.saves[j].stage == ToSet && UserOf(w.saves[j].data) != ""
    ensures Allowed(c, w, Commands(j, lost, t))
    ensures var s := w.saves[j];
            var user := UserOf(s.data);
            Final(c, w, Commands(j, lost, t)) ==
              World(t, Db(w.db.sessions[s.id := Entry(s.data, s.expiresAt, t + s.ttl)],
                          w.db.index[user := Members(Listed(w.db, user, t) + {s.id}, Some(t + s.ttl + HOUR - lost))]),
                    w.requests, Without(w.saves, j), w.next, w.writer[s.id := j], w.cut - {j})
  {
    hide UserOf, Allowed, Final;
    var s := w.saves[j];
    var user := UserOf(s.data);
    SetAndAdd(c, w, j, t);
    var w2 := Final(c, w, [SetStep(j, t), AddStep(j, t)]);
    AddThenExtend(SetKey(w.db, s.id, Entry(s.data, s.expiresAt, t + s.ttl)), user, s.id, t, t + s.ttl + HOUR - lost);
    assert Without(w2.saves, j) == Without(w.saves, j);
    OneStep(c, w2, ExpireStep(j, lost, t));
    FinalJoin(c, w, [SetStep(j, t), AddStep(j, t)], [ExpireStep(j, lost, t)]);
    assert [SetStep(j, t), AddStep(j, t)] + [ExpireStep(j, lost, t)] == Commands(j, lost, t);
  }

  lemma AddThenExtend(db: Db, user: string, sid: Sid, t: int, until: int)
    ensures var added := Add(db, user, sid, t);
            && sid in Listed(added, user, t)
            && Extend(added, user, until, t) == db.(index := db.index[user := Members(Listed(db, user, t) + {sid}, Some(until))])
  {
    var added := Add(db, user, sid, t);
    assert Standing(added, user, t);
    assert Extend(added, user, until, t).index == db.index[user := Members(Listed(db, user, t) + {sid}, Some(until))];
  }

  /** That is the method's effect on the store, so the interleaved runs and the method speak of the same save. */
  lemma CommandsAreSaved(c: Setting, w: World, j: SaveId, lost: int, t: int, st: State)
    requires Sensible(c) && 0 <= lost <= c.rounding && w.now <= t
    requires j in w.saves && w.saves[j] == Save(st.id, st.data, st.expiresAt, Ttl(st.expiresAt, c.ttl, t), ToSet)
    requires UserOf(st.data) != ""
    ensures Allowed(c, w, Commands(j, lost, t)) && Final(c, w, Commands(j, lost, t)).db == Saved(w.db, st, c.ttl, t, t, t, t, lost)
  {
    CommandsSave(c, w, j, lost, t);
    hide Allowed, Final, UserOf, Ttl;
    var db1 := SetKey(w.db, st.id, Entry(st.data, st.expiresAt, t + Ttl(st.expiresAt, c.ttl, t)));
    assert Listed(db1, UserOf(st.data), t) == Listed(w.db, UserOf(st.data), t);
  }

  const USER := "u"

  function Mine(): Data { map[USER_ID_KEY := USER] }

  /** A new visitor logs in and the response is sent, all at `t`. */
  function Login(j: SaveId, r: nat, sid: Sid, lost: int, t: int): seq<Event> {
    [Begin(r, "", sid, t), Act(r, Put(USER_ID_KEY, USER), t)] + ([Finish(r, t)] + Commands(j, lost, t))
  }

  lemma LoginBegins(c: Setting, w: World, r: nat, sid: Sid, t: int)
    requires Sensible(c) && w.now <= t && r !in w.requests && w.next !in w.saves
    ensures Allowed(c, w, [Begin(r, "", sid, t), Act(r, Put(USER_ID_KEY, USER), t)])
    ensures Final(c, w, [Begin(r, "", sid, t), Act(r, Put(USER_ID_KEY, USER), t)]) ==
            w.(now := t, requests := w.requests[r := Request(State(sid, Mine(), t + c.ttl, true, true), t, false)])
  {
    var w1 := Next(c, w, Begin(r, "", sid, t));
    TwoSteps(c, w, Begin(r, "", sid, t), Act(r, Put(USER_ID_KEY, USER), t));
  }

  lemma LoginFinishes(c: Setting, w: World, r: nat, sid: Sid, t: int)
    requires Sensible(c) && w.now == t && w.next !in w.saves
    requires r in w.requests && w.requests[r] == Request(State(sid, Mine(), t + c.ttl, true, true), t, false)
    ensures Allowed(c, w, [Finish(r, t)])
    ensures Final(c, w, [Finish(r, t)]) ==
            w.(requests := w.requests[r := Request(State(sid, Mine(), t + c.ttl, true, true), t, true)],
               saves := w.saves[w.next := Save(sid, Mine(), t + c.ttl, c.ttl, ToSet)], next := w.next + 1)
  {
    OneStep(c, w, Finish(r, t));
  }

  ghost predicate LoggedIn(c: Setting, w: World, r: nat, sid: Sid, t: int, w': World) {
    && w'.now == t && w'.saves == w.saves && w'.next == w.next + 1
    && w'.db.sessions == w.db.sessions[sid := Entry(Mine(), t + c.ttl, t + c.ttl)]
    && w'.db.index == w.db.index[USER := Members(Listed(w.db, USER, t) + {sid}, Some(t + c.ttl + HOUR - c.rounding))]
    && w'.requests == w.requests[r := Request(State(sid, Mine(), t + c.ttl, true, true), t, true)]
    && w'.writer == w.writer[sid := w.next] && w'.cut == w.cut - {w.next}
  }

  lemma LoginSaves(c: Setting, w: World, r: nat, sid: Sid, t: int)
    requires Sensible(c) && w.now <= t && r !in w.requests && w.next !in w.saves
    ensures Allowed(c, w, Login(w.next, r, sid, c.rounding, t))
    ensures LoggedIn(c, w, r, sid, t, Final(c, w, Login(w.next, r, sid, c.rounding, t)))
  {
    hide Next, Enabled, Allowed, Final, Commands;
    var begun, finish := [Begin(r, "", sid, t), Act(r, Put(USER_ID_KEY, USER), t)], [Finish(r, t)];
    LoginBegins(c, w, r, sid, t);
    var w2 := Final(c, w, begun);
    LoginFinishes(c, w2, r, sid, t);
    var w3 := Final(c, w2, finish);
    assert Without(w3.saves, w.next) == w.saves;
    assert w3.requests == w.requests[r := Request(State(sid, Mine(), t + c.ttl, true, true), t, true)];
    CommandsSave(c, w3, w.next, c.rounding, t);
    FinalJoin(c, w2, finish, Commands(w.next, c.rounding, t));
    FinalJoin(c, w, begun, finish + Commands(w.next, c.rounding, t));
  }

  /** The first login ever, at instant zero. */
  lemma FirstLogin(c: Setting) returns (w: World)
    requires Sensible(c)
    ensures Allowed(c, Start(0), Login(0, 0, "a", c.rounding, 0)) && w == Final(c, Start(0), Login(0, 0, "a", c.rounding, 0))
    ensures w.db == Db(map["a" := Entry(Mine(), c.ttl, c.ttl)], map[USER := Members({"a"}, Some(c.ttl + HOUR - c.rounding))])
    ensures w.now == 0 && w.requests.Keys == {0} && w.saves == map[] && w.next == 1 && w.writer == map["a" := 0] && w.cut == {}
  {
    LoginSaves(c, Start(0), 0, "a", 0);
    assert {} + {"a"} == {"a"};
    w := Final(c, Start(0), Login(0, 0, "a", c.rounding, 0));
  }

  /** Loading "a" within the minute and changing it: the expiry stays, the session is dirty. */
  function Reading(t: int): seq<Event> { [Begin(1, "a", "", t), Act(1, Put("x", "y"), t)] }

  lemma ReadingSaves(c: Setting, w: World, t: int)
    requires Sensible(c) && w.now <= t <= Min(MINUTE, c.ttl) && w.requests.Keys == {0}
    requires w.db.sessions == map["a" := Entry(Mine(), c.ttl, c.ttl)]
    ensures Allowed(c, w, Reading(t))
    ensures Final(c, w, Reading(t)) ==
            w.(now := t, requests := w.requests[1 := Request(State("a", Mine()["x" := "y"], c.ttl, true, false), t, false)])
  {
    var w1 := Next(c, w, Begin(1, "a", "", t));
    assert w1.requests[1].session == State("a", Mine(), c.ttl, false, false);
    TwoSteps(c, w, Begin(1, "a", "", t), Act(1, Put("x", "y"), t));
  }

  function Ending(c: Setting, t: int): seq<Event> { [Finish(1, t)] + Commands(2, c.rounding, t) }

  /** The slow request saves at last, and shortens the index's life to what was left of its own session. */
  lemma EndingShortens(c: Setting, w: World, t: int)
    requires Sensible(c) && w.now <= t < c.ttl && w.next == 2 && w.saves == map[]
    requires 1 in w.requests && t - w.requests[1].loaded <= c.handler && Standing(w.db, USER, t)
    requires w.requests[1].session == State("a", Mine()["x" := "y"], c.ttl, true, false) && !w.requests[1].saved
    ensures Allowed(c, w, Ending(c, t))
    ensures var w' := Final(c, w, Ending(c, t));
            && w'.db == Db(w.db.sessions["a" := Entry(Mine()["x" := "y"], c.ttl, c.ttl)],
                           w.db.index[USER := Members(w.db.index[USER].ids + {"a"}, Some(c.ttl + HOUR - c.rounding))])
            && w'.saves == map[] && w'.writer == w.writer["a" := 2] && w'.cut == w.cut - {2} && w'.now == t
  {
    var w1 := Next(c, w, Finish(1, t));
    assert w1.saves == map[2 := Save("a", Mine()["x" := "y"], c.ttl, c.ttl - t, ToSet)];
    CommandsSave(c, w1, 2, c.rounding, t);
    assert Without(w1.saves, 2) == map[];
    hide Next, Enabled, Allowed, Final, Commands;
    OneStep(c, w, Finish(1, t));
    FinalJoin(c, w, [Finish(1, t)], Commands(2, c.rounding, t));
  }

  /** The run up to where the slow request is about to save: "a" read at `a`, "b" logged in at `m`. */
  lemma BeforeEnding(c: Setting, a: int, m: int) returns (es: seq<Event>)
    requires Sensible(c) && 0 <= a <= m < c.ttl && a <= MINUTE && m - a <= c.handler
    ensures Allowed(c, Start(0), es)
    ensures var w := Final(c, Start(0), es);
            && w.now == m && w.next == 2 && w.saves == map[] && w.cut == {} && w.writer == map["a" := 0, "b" := 1]
            && 1 in w.requests && w.requests[1] == Request(State("a", Mine()["x" := "y"], c.ttl, true, false), a, false)
            && w.db.sessions == map["a" := Entry(Mine(), c.ttl, c.ttl), "b" := Entry(Mine(), m + c.ttl, m + c.ttl)]
            && USER in w.db.index && w.db.index[USER].until == Some(m + c.ttl + HOUR - c.rounding)
  {
    var w1 := FirstLogin(c);
    hide Next, Enabled, Allowed, Final, Login, Reading, Start;
    ReadingSaves(c, w1, a);
    var w2 := Final(c, w1, Reading(a));
    LoginSaves(c, w2, 2, "b", m);
    FinalJoin(c, w1, Reading(a), Login(1, 2, "b", c.rounding, m));
    es := Login(0, 0, "a", c.rounding, 0) + (Reading(a) + Login(1, 2, "b", c.rounding, m));
    FinalJoin(c, Start(0), Login(0, 0, "a", c.rounding, 0), Reading(a) + Login(1, 2, "b", c.rounding, m));
  }

  lemma Outlived(c: Setting, w: World, m: int)
    requires Sensible(c) && w.now == m && m + c.rounding > HOUR
    requires "b" in w.db.sessions && w.db.sessions["b"] == Entry(Mine(), m + c.ttl, m + c.ttl)
    requires USER in w.db.index && w.db.index[USER].until == Some(c.ttl + HOUR - c.rounding)
    requires Settled(w.writer, w.saves, w.cut, "b")
    ensures !Agrees(w)
  {
    assert "b" in Scan(w.db, USER, m + c.ttl);
    assert Listed(w.db, USER, m + c.ttl) == {};
  }

  /** A run against the slack: a slow request of one session ends the index before another session of the user. */
  lemma SlowSaveDropsAnother(c: Setting) returns (es: seq<Event>)
    requires Sensible(c) && !Slack(c)
    ensures Allowed(c, Start(0), es) && !Agrees(Final(c, Start(0), es))
  {
    var m := Min(c.handler + MINUTE, c.ttl - 1);
    var before := BeforeEnding(c, Min(MINUTE, m), m);
    hide Next, Enabled, Allowed, Final, Ending, Agrees, Start;
    var w3 := Final(c, Start(0), before);
    EndingShortens(c, w3, m);
    Outlived(c, Final(c, w3, Ending(c, m)), m);
    es := before + Ending(c, m);
    FinalJoin(c, Start(0), before, Ending(c, m));
  }

  /** The index never misses a live settled session, on any run, exactly when the hour covers the handler, the touch and the rounding. */
  lemma AgreesExactly(c: Setting)
    requires Sensible(c)
    ensures AlwaysAgrees(c) <==> Slack(c)
  {
    if Slack(c) {
      forall start, es | Allowed(c, Start(start), es)
        ensures Agrees(Final(c, Start(start), es))
      {
        IndexAgrees(c, start, es);
      }
    } else {
      var es := SlowSaveDropsAnother(c);
    }
  }

  /** Without rounding, a handler may take up to 59 minutes whatever the lifetime. */
  lemma FiftyNineMinutes(ttl: int, handler: int)
    requires ttl > 3_600_001 && handler >= 0
    ensures AlwaysAgrees(Setting(ttl, handler, 0)) <==> handler <= 59 * 60_000
  {
    AgreesExactly(Setting(ttl, handler, 0));
  }

  // ---- the sessions an index can miss, slack or not ----

  /** A session not among the ids a DestroyForUser read survives its two deletions, and the index is gone. */
  lemma UnreadSurvives(c: Setting, w: World, user: string, ids: set<Sid>, t: int)
    requires w.now <= t
    ensures Allowed(c, w, [DropStep(ids, t), DropIndexStep(user, t)])
    ensures var w' := Final(c, w, [DropStep(ids, t), DropIndexStep(user, t)]);
            && Scan(w'.db, user, t) == Scan(w.db, user, t) - ids && Listed(w'.db, user, t) == {}
            && w'.now == t && w'.saves == w.saves
  {
    TwoSteps(c, w, DropStep(ids, t), DropIndexStep(user, t));
    DroppedScan(w.db, user, ids, t);
  }

  /**
   Reachable with any setting: a DestroyForUser reads the index, another login of the user runs from beginning to
   end, and the DestroyForUser goes on.  The new session is alive, its save is over, and it is on no index, so that
   a second DestroyForUser, run without interruption, misses it as well.
   */
  lemma OverlapLosesSession(c: Setting) returns (es: seq<Event>, during: seq<Event>)
    requires Sensible(c)
    ensures Allowed(c, Start(0), es)
    ensures var ids := Listed(Final(c, Start(0), es).db, USER, 0);
            var fs := es + (during + [DropStep(ids, 0), DropIndexStep(USER, 0)]);
            && Allowed(c, Start(0), fs)
            && var w := Final(c, Start(0), fs);
            && w.saves == map[] && Scan(w.db, USER, 0) == {"b"} && Listed(w.db, USER, 0) == {}
            && Scan(DropIndex(Drop(w.db, Listed(w.db, USER, 0)), USER), USER, 0) == {"b"}
  {
    es, during := Login(0, 0, "a", c.rounding, 0), Login(1, 1, "b", c.rounding, 0);
    var w1 := FirstLogin(c);
    LoginSaves(c, w1, 1, "b", 0);
    var w2 := Final(c, w1, during);
    assert Scan(w2.db, USER, 0) == {"a", "b"};
    UnreadSurvives(c, w2, USER, {"a"}, 0);
    var ending := [DropStep({"a"}, 0), DropIndexStep(USER, 0)];
    DroppedScan(Final(c, w2, ending).db, USER, {}, 0);
    hide Next, Enabled, Allowed, Final, Login, Start, Scan;
    FinalJoin(c, w1, during, ending);
    FinalJoin(c, Start(0), es, during + ending);
  }

  /** What the last command of a save finds: it settles the save if the session is still listed, and otherwise leaves it alive and unlisted. */
  lemma SettledExactly(c: Setting, w: World, j: SaveId, lost: int, t: int)
    requires Enabled(c, w, ExpireStep(j, lost, t))
    ensures var (s, w') := (w.saves[j], Next(c, w, ExpireStep(j, lost, t)));
            var user := UserOf(s.data);
            && (j !in w'.saves <==> s.id in Listed(w.db, user, t))
            && (j in w'.saves ==> s.id !in Listed(w'.db, user, t) && w'.saves[j] == s.(stage := Lapsed))
            && Scan(w'.db, user, t) == Scan(w.db, user, t)
  {
    hide UserOf;
    var (s, w') := (w.saves[j], Next(c, w, ExpireStep(j, lost, t)));
    assert w'.db.sessions == w.db.sessions;
    assert forall sid :: Loaded(w'.db, sid, t) == Loaded(w.db, sid, t);
  }

  /** A save whose user's index lapses between the SADD and the EXPIRE: every command is sent, and the session is on no index. */
  lemma ExpireTooLate(c: Setting, w: World, j: SaveId, t: int)
    requires Sensible(c) && w.now <= t && j in w.saves && w.saves[j].stage == ToSet && UserOf(w.saves[j].data) != ""
    requires UserOf(w.saves[j].data) in w.db.index && w.db.index[UserOf(w.saves[j].data)].until == Some(t)
    ensures var es := [SetStep(j, t), AddStep(j, t)] + [ExpireStep(j, 0, t + 1)];
            && Allowed(c, w, es)
            && var s, w' := w.saves[j], Final(c, w, es);
            && w'.now == t + 1 && w'.saves == w.saves[j := s.(stage := Lapsed)]
            && w'.db.sessions == w.db.sessions[s.id := Entry(s.data, s.expiresAt, t + s.ttl)]
            && Listed(w'.db, UserOf(s.data), t + 1) == {}
  {
    hide UserOf, Allowed, Final;
    var user := UserOf(w.saves[j].data);
    SetAndAdd(c, w, j, t);
    var w2 := Final(c, w, [SetStep(j, t), AddStep(j, t)]);
    assert w2.db.index[user].until == Some(t) && Listed(w2.db, user, t + 1) == {};
    SettledExactly(c, w2, j, 0, t + 1);
    OneStep(c, w2, ExpireStep(j, 0, t + 1));
    FinalJoin(c, w, [SetStep(j, t), AddStep(j, t)], [ExpireStep(j, 0, t + 1)]);
  }

  /**
   Reachable with any setting, slack included: the index is about to lapse when the user logs in again, and does so
   between that save's SADD and its EXPIRE.  Every command was sent; the new session is alive and on no index.
   */
  lemma LapseLosesSession(c: Setting) returns (es: seq<Event>, w: World)
    requires Sensible(c)
    ensures Allowed(c, Start(0), es) && w == Final(c, Start(0), es)
    ensures w.saves.Keys == {1} && w.saves[1].id == "b" && w.saves[1].stage == Lapsed
    ensures "b" in Scan(w.db, USER, w.now) && Listed(w.db, USER, w.now) == {}
  {
    var u := c.ttl + HOUR - c.rounding;
    var w1 := FirstLogin(c);
    var begun, finish, commands := [Begin(1, "", "b", u), Act(1, Put(USER_ID_KEY, USER), u)], [Finish(1, u)],
        [SetStep(1, u), AddStep(1, u)] + [ExpireStep(1, 0, u + 1)];
    hide Next, Enabled, Allowed, Final, Login, Start;
    LoginBegins(c, w1, 1, "b", u);
    var w2 := Final(c, w1, begun);
    LoginFinishes(c, w2, 1, "b", u);
    var w3 := Final(c, w2, finish);
    ExpireTooLate(c, w3, 1, u);
    w := Final(c, w3, commands);
    assert Loaded(w.db, "b", u + 1).Some?;
    FinalJoin(c, w2, finish, commands);
    FinalJoin(c, w1, begun, finish + commands);
    es := Login(0, 0, "a", c.rounding, 0) + (begun + (finish + commands));
    FinalJoin(c, Start(0), Login(0, 0, "a", c.rounding, 0), begun + (finish + commands));
  }
}
