/** What the session operations promise each other: save and load, destroy and load, and what a handler's changes keep. */
module SessionLaws {
  import opened Jobs
  import opened Sessions
  import opened SessionStore
  import opened SessionIndex
  import opened SessionSlack

  // ---- save and load ----

  /**
   Whoever's session it is, and at whatever times its commands run: after a save, a load by its id gives back id, data
   and expiry whole until the session expires, and nothing after; every other session loads as before.
   */
  lemma SaveThenLoad(db: Db, s: State, lifetime: int, t0: int, t1: int, t2: int, t3: int, lost: int, t: int)
    requires lifetime >= 0 && t0 <= t1
    ensures Loaded(Saved(db, s, lifetime, t0, t1, t2, t3, lost), s.id, t) ==
            if t <= s.expiresAt then Some(State(s.id, s.data, s.expiresAt, false, false)) else None
    ensures forall sid :: sid != s.id ==> Loaded(Saved(db, s, lifetime, t0, t1, t2, t3, lost), sid, t) == Loaded(db, sid, t)
  {
    hide UserOf;
  }

  /** Saved for a user at one instant, it is on that user's index for its remaining life and an hour less the rounding; other users' indexes are as they were. */
  lemma SaveThenListed(db: Db, s: State, lifetime: int, t0: int, t: int, lost: int, later: int, other: string)
    requires UserOf(s.data) != "" && t <= later
    requires later <= t + (if s.expiresAt <= t0 then lifetime else s.expiresAt - t0) + 3_600_000 - lost
    ensures var saved := Saved(db, s, lifetime, t0, t, t, t, lost);
            && s.id in Listed(saved, UserOf(s.data), later)
            && (forall sid :: sid in Listed(db, UserOf(s.data), t) ==> sid in Listed(saved, UserOf(s.data), later))
            && (other != UserOf(s.data) ==> Listed(saved, other, later) == Listed(db, other, later))
  {
    hide UserOf;
    var db1 := SetKey(db, s.id, Entry(s.data, s.expiresAt, t + Ttl(s.expiresAt, lifetime, t0)));
    AddThenExtend(db1, UserOf(s.data), s.id, t, t + Ttl(s.expiresAt, lifetime, t0) + HOUR - lost);
  }

  /** A session of nobody is saved by its one command, and on no index. */
  lemma GuestIsSaved(c: Setting, w: World, j: SaveId, t: int, st: State, lost: int)
    requires w.now <= t && j in w.saves && w.saves[j] == Save(st.id, st.data, st.expiresAt, Ttl(st.expiresAt, c.ttl, t), ToSet)
    requires UserOf(st.data) == ""
    ensures Allowed(c, w, [SetStep(j, t)])
    ensures var w' := Final(c, w, [SetStep(j, t)]);
            && w'.db == Saved(w.db, st, c.ttl, t, t, t, t, lost) && w'.db.index == w.db.index
            && j !in w'.saves && st.id in w'.writer && w'.writer[st.id] == j
  {
    hide UserOf, Ttl;
    OneStep(c, w, SetStep(j, t));
  }

  /** Destroyed, it loads no more and is off its user's index; every other session loads, and is listed, as before. */
  lemma DestroyThenLoad(db: Db, user: string, sid: Sid, t: int, later: int, other: Sid)
    requires t <= later
    ensures var gone := Drop(Unlist(db, user, sid, t), {sid});
            && Loaded(gone, sid, later).None? && sid !in Listed(gone, user, later)
            && (other != sid ==> Loaded(gone, other, later) == Loaded(db, other, later)
                                 && (other in Listed(gone, user, later) <==> other in Listed(db, user, later)))
  {
  }

  /** What a handler starts from: the loaded session with its data whole and its life never shortened, or an empty new one. */
  lemma OpenedIsLoaded(db: Db, cookie: Sid, newId: Sid, lifetime: int, t: int)
    ensures var s := Opened(db, cookie, newId, lifetime, t);
            if cookie != "" && Loaded(db, cookie, t).Some? then
              && s.id == cookie && s.data == Loaded(db, cookie, t).value.data
              && s.expiresAt >= Loaded(db, cookie, t).value.expiresAt
              && s.expiresAt == (if t + lifetime > Loaded(db, cookie, t).value.expiresAt + 60_000 then t + lifetime
                                 else Loaded(db, cookie, t).value.expiresAt)
              && (s.dirty <==> s.expiresAt != Loaded(db, cookie, t).value.expiresAt)
            else s == State(newId, map[], t + lifetime, false, true)
  {
  }

  // ---- what a handler does ----

  /** Putting a value makes it the one found, and leaves every other. */
  lemma PutThenLookup(s: State, key: string, value: string, other: string)
    ensures var s' := Apply(s, Put(key, value), 0, 0);
            && key in s'.data && Lookup(s'.data, key) == value && s'.id == s.id
            && (other != key ==> (other in s'.data <==> other in s.data) && Lookup(s'.data, other) == Lookup(s.data, other))
            && (s' == s || s'.dirty)
  {
  }

  /** Forgetting a key removes it and nothing else. */
  lemma ForgetThenLookup(s: State, key: string, other: string)
    ensures var s' := Apply(s, Forget(key), 0, 0);
            && key !in s'.data && Lookup(s'.data, key) == "" && s'.id == s.id
            && (other != key ==> (other in s'.data <==> other in s.data) && Lookup(s'.data, other) == Lookup(s.data, other))
            && (key in s.data ==> s'.dirty)
  {
  }

  /** Clearing keeps the id and leaves no value; a session with any is marked for saving. */
  lemma ClearedIsEmpty(s: State, key: string)
    ensures var s' := Apply(s, Clear, 0, 0);
            key !in s'.data && s'.id == s.id && UserOf(s'.data) == "" && (key in s.data ==> s'.dirty)
  {
  }

  /** Logging in: the id is the new one, the user is found, all other data is kept, and the session will be saved under the new id alone. */
  lemma LoginRenames(s: State, id: Sid, user: string, other: string)
    ensures var s' := Apply(Apply(s, Regenerate(id), 0, 0), Put(USER_ID_KEY, user), 0, 0);
            && s'.id == id && UserOf(s'.data) == user && s'.dirty && s'.unsaved && s'.expiresAt == s.expiresAt
            && (other != USER_ID_KEY ==> Lookup(s'.data, other) == Lookup(s.data, other))
  {
  }

  /** Logging out: the id is the new one and nobody is found; nothing of the old data is. */
  lemma LogoutForgets(s: State, id: Sid, key: string)
    ensures var s' := Apply(s, Invalidate(id), 0, 0);
            s'.id == id && UserOf(s'.data) == "" && key !in s'.data && s'.dirty && s'.expiresAt == s.expiresAt
  {
  }
}
