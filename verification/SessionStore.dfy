/**
 The Redis session store: session keys, one index set per user, and their expiries.  A key can be read up to
 and including the instant it expires, as in Redis; a lapsed key stays in the maps here until it is replaced.
 */
module SessionStore {
  import opened Jobs
  import opened Sessions

  datatype Entry = Entry(data: Data, expiresAt: int, until: int)

  datatype Members = Members(ids: set<Sid>, until: Option<int>)

  datatype Db = Db(sessions: map<Sid, Entry>, index: map<string, Members>)

  function Get(db: Db, sid: Sid, t: int): Option<Entry> {
    if sid in db.sessions && t <= db.sessions[sid].until then Some(db.sessions[sid]) else None
  }

  function SetKey(db: Db, sid: Sid, entry: Entry): Db {
    db.(sessions := db.sessions[sid := entry])
  }

  predicate Standing(db: Db, user: string, t: int) {
    user in db.index && (db.index[user].until.None? || t <= db.index[user].until.value)
  }

  /** SMEMBERS. */
  function Listed(db: Db, user: string, t: int): set<Sid> {
    if Standing(db, user, t) then db.index[user].ids else {}
  }

  /** SADD: a set made anew has no expiry. */
  function Add(db: Db, user: string, sid: Sid, t: int): (db': Db)
    ensures db'.sessions == db.sessions
  {
    var until := if Standing(db, user, t) then db.index[user].until else None;
    db.(index := db.index[user := Members(Listed(db, user, t) + {sid}, until)])
  }

  /** EXPIRE: nothing happens to a key that is not there. */
  function Extend(db: Db, user: string, until: int, t: int): (db': Db)
    ensures db'.sessions == db.sessions
  {
    if Standing(db, user, t) then db.(index := db.index[user := db.index[user].(until := Some(until))]) else db
  }

  /** SREM: a set left empty is gone. */
  function Unlist(db: Db, user: string, sid: Sid, t: int): (db': Db)
    ensures db'.sessions == db.sessions
  {
    if !Standing(db, user, t) then db
    else if db.index[user].ids - {sid} == {} then db.(index := Without(db.index, user))
    else db.(index := db.index[user := db.index[user].(ids := db.index[user].ids - {sid})])
  }

  function Drop(db: Db, sids: set<Sid>): Db {
    db.(sessions := db.sessions - sids)
  }

  function DropIndex(db: Db, user: string): Db {
    db.(index := Without(db.index, user))
  }

  function Loaded(db: Db, sid: Sid, t: int): Option<State> {
    var entry := Get(db, sid, t);
    if entry.None? || t > entry.value.expiresAt then None
    else Some(State(sid, entry.value.data, entry.value.expiresAt, false, false))
  }

  /** How long a session saved at `t` is kept: what is left of it, or a whole lifetime when nothing is. */
  function Ttl(expiresAt: int, lifetime: int, t: int): int {
    if expiresAt - t <= 0 then lifetime else expiresAt - t
  }

  /** The three commands of a save, at the times they run; `lost` is what the client rounds off the index's expiry. */
  function Saved(db: Db, s: State, lifetime: int, t0: int, t1: int, t2: int, t3: int, lost: int): Db {
    var ttl := Ttl(s.expiresAt, lifetime, t0);
    var db1 := SetKey(db, s.id, Entry(s.data, s.expiresAt, t1 + ttl));
    if UserOf(s.data) == "" then db1
    else Extend(Add(db1, UserOf(s.data), s.id, t2), UserOf(s.data), t3 + ttl + HOUR - lost, t3)
  }

  class Store {
    const lifetime: int
    var sessions: map<Sid, Entry>
    var index: map<string, Members>

    ghost function Now(): Db
      reads this
    {
      Db(sessions, index)
    }

    constructor (lifetime: int)
      ensures this.lifetime == lifetime && Now() == Db(map[], map[])
    {
      this.lifetime, sessions, index := lifetime, map[], map[];
    }

    /** `cookie` is the id read from the request, "" when there is none. */
    method Load(cookie: Sid, t: int) returns (s: Option<State>)
      ensures s == if cookie == "" then None else Loaded(Now(), cookie, t)
    {
      if cookie == "" || cookie !in sessions || t > sessions[cookie].until {
        return None;
      }
      var p := sessions[cookie];
      if t > p.expiresAt {
        return None;
      }
      return Some(State(cookie, p.data, p.expiresAt, false, false));
    }

    method SAdd(user: string, sid: Sid, t: int)
      modifies this`index
      ensures Now() == Add(old(Now()), user, sid, t)
    {
      if user in index && (index[user].until.None? || t <= index[user].until.value) {
        index := index[user := Members(index[user].ids + {sid}, index[user].until)];
      } else {
        assert {} + {sid} == {sid};
        index := index[user := Members({sid}, None)];
      }
    }

    method Expire(user: string, until: int, t: int)
      modifies this`index
      ensures Now() == Extend(old(Now()), user, until, t)
    {
      if user in index && (index[user].until.None? || t <= index[user].until.value) {
        index := index[user := Members(index[user].ids, Some(until))];
      }
    }

    method SRem(user: string, sid: Sid, t: int)
      modifies this`index
      ensures Now() == Unlist(old(Now()), user, sid, t)
    {
      if user in index && (index[user].until.None? || t <= index[user].until.value) {
        var ids := index[user].ids - {sid};
        if ids == {} {
          index := Without(index, user);
        } else {
          index := index[user := Members(ids, index[user].until)];
        }
      }
    }

    method Save(s: Session, t0: int, t1: int, t2: int, t3: int, lost: int)
      modifies this
      ensures Now() == Saved(old(Now()), s.Now(), lifetime, t0, t1, t2, t3, lost)
    {
      var ttl := s.ExpiresAt - t0;
      if ttl <= 0 {
        ttl := lifetime;
      }
      sessions := sessions[s.ID := Entry(s.Data, s.ExpiresAt, t1 + ttl)];
      var user := UserOf(s.Data);
      if user != "" {
        SAdd(user, s.ID, t2);
        Expire(user, t3 + ttl + HOUR - lost, t3);
      }
    }

    method Destroy(s: Session, t: int)
      modifies this
      ensures var user := UserOf(s.Data);
              var unlisted := if user == "" then old(Now()) else Unlist(old(Now()), user, s.ID, t);
              Now() == if s.ID == "" then old(Now()) else Drop(unlisted, {s.ID})
    {
      if s.ID == "" {
        return;
      }
      var user := UserOf(s.Data);
      if user != "" {
        SRem(user, s.ID, t);
      }
      sessions := sessions - {s.ID};
    }

    method DestroyForUser(user: string, t: int)
      modifies this
      ensures Now() == DropIndex(Drop(old(Now()), Listed(old(Now()), user, t)), user)
    {
      var ids: set<Sid> := {};
      if user in index && (index[user].until.None? || t <= index[user].until.value) {
        ids := index[user].ids;
      }
      ghost var all := ids;
      var keys: set<Sid> := {};
      while ids != {}
        invariant keys + ids == all
        decreases ids
      {
        var id :| id in ids;
        keys := keys + {id};
        ids := ids - {id};
      }
      if |keys| > 0 {
        sessions := sessions - keys;
      } else {
        assert sessions - all == sessions;
      }
      index := Without(index, user);
    }
  }

  /** The response writer that saves the session once, before the first byte goes out or when the handler is done. */
  class Saver {
    const store: Store
    const session: Session
    var saved: bool

    constructor (store: Store, session: Session)
      ensures this.store == store && this.session == session && !saved
    {
      this.store, this.session, saved := store, session, false;
    }

    method Save(t0: int, t1: int, t2: int, t3: int, lost: int)
      modifies this`saved, store
      ensures saved
      ensures store.Now() == if old(saved) || !session.dirty then old(store.Now())
                             else Saved(old(store.Now()), session.Now(), store.lifetime, t0, t1, t2, t3, lost)
    {
      if saved {
        return;
      }
      saved := true;
      if !session.dirty {
        return;
      }
      store.Save(session, t0, t1, t2, t3, lost);
    }
  }

  /** What the middleware hands to the handler. */
  function Opened(db: Db, cookie: Sid, newId: Sid, lifetime: int, t: int): State {
    var found := if cookie == "" then None else Loaded(db, cookie, t);
    if found.None? then Created(newId, lifetime, t) else Touched(found.value, lifetime, t)
  }

  method Open(store: Store, cookie: Sid, newId: Sid, t: int) returns (s: Session)
    ensures fresh(s) && s.Now() == Opened(store.Now(), cookie, newId, store.lifetime, t)
  {
    var found := store.Load(cookie, t);
    if found.None? {
      s := new Session.New(newId, store.lifetime, t);
    } else {
      s := new Session.From(found.value);
      s.TouchAt(store.lifetime, t);
    }
  }
}
