/**
 The Redis driver: one queue's sorted sets and hashes, plus the failed list and id counter that all
 queues share.  `Db` is a snapshot of those keys and the functions on it are what one command, pipeline
 or script does to them; class `Driver` performs the same commands on its fields.
 */
module RedisQueue {
  import opened Jobs
  import opened Lists

  /** A record as kept in the jobs hash and in the failed list. */
  datatype Stored = Stored(id: JobId, name: string, payload: string, max: int, available: int,
                           created: int, error: string, attempts: nat)

  datatype Db = Db(pending: map<JobId, int>, reserved: map<JobId, int>, jobs: map<JobId, Stored>,
                   attempts: map<JobId, nat>, failed: seq<Stored>, counter: nat)

  const EMPTY := Db(map[], map[], map[], map[], [], 0)

  /** How many failures the failed list keeps. */
  const KEPT := 1000

  function ToRecord(s: Stored, attempts: nat): Record {
    Record(s.id, s.name, s.payload, attempts, s.max, s.available, s.created, s.error)
  }

  /** What Release writes back: the attempt count lives in its own hash, so it is not stored here. */
  function Rewritten(rec: Record, at: int, reason: string): Stored {
    Stored(rec.id, rec.name, rec.payload, rec.max, at, rec.created, Truncate(reason), 0)
  }

  /** What Fail pushes onto the failed list. */
  function Buried(rec: Record, reason: string): Stored {
    Stored(rec.id, rec.name, rec.payload, rec.max, 0, rec.created, Truncate(reason), rec.attempts)
  }

  /** The copy Retry queues for a failed entry. */
  function Copy(raw: Stored, id: JobId, now: int): Stored {
    Stored(id, raw.name, raw.payload, raw.max, now, now, "", 0)
  }

  function Trim(list: seq<Stored>): seq<Stored> {
    if |list| <= KEPT then list else list[..KEPT]
  }

  // ---- one function per atomic command ----

  function Enqueue(db: Db, s: Stored): Db {
    db.(jobs := db.jobs[s.id := s], pending := db.pending[s.id := s.available])
  }

  /** The first loop of the claim script: every lapsed reservation goes back to pending, due now. */
  function Reclaimed(db: Db, now: int): (r: Db)
    ensures r.pending.Keys + r.reserved.Keys == db.pending.Keys + db.reserved.Keys
    ensures db.pending.Keys <= r.pending.Keys && r.reserved.Keys <= db.reserved.Keys
    ensures db.pending.Keys !! db.reserved.Keys ==> r.pending.Keys !! r.reserved.Keys
  {
    db.(pending := map id | id in db.pending.Keys + db.reserved.Keys && (id in db.pending || db.reserved[id] <= now)
                     :: if id in db.reserved && db.reserved[id] <= now then now else db.pending[id],
        reserved := map id | id in db.reserved && db.reserved[id] > now :: db.reserved[id])
  }

  ghost predicate Due(db: Db, now: int, id: JobId) {
    id in db.pending && db.pending[id] <= now
  }

  /** A due id of lowest score. */
  ghost predicate FirstDue(db: Db, now: int, id: JobId) {
    Due(db, now, id) && forall k :: Due(db, now, k) ==> db.pending[id] <= db.pending[k]
  }

  /** The rest of the script, once `id` was picked: move it, or drop it when its record is gone. */
  function Grab(db: Db, id: JobId, expires: int): Db {
    if id in db.jobs then
      db.(pending := Without(db.pending, id), reserved := db.reserved[id := expires], attempts := Bump(db.attempts, id))
    else
      db.(pending := Without(db.pending, id), reserved := Without(db.reserved, id))
  }

  /** The whole script; `pick` is the id it chose, if any was due. */
  ghost predicate Claims(db: Db, now: int, expires: int, pick: Option<JobId>, db': Db) {
    var ready := Reclaimed(db, now);
    match pick
    case None => (forall id :: !Due(ready, now, id)) && db' == ready
    case Some(id) => FirstDue(ready, now, id) && db' == Grab(ready, id, expires)
  }

  /** The reply: nothing, or the picked record with its new attempt count. */
  function Reply(db: Db, db': Db, pick: Option<JobId>): Option<Record> {
    if pick.Some? && pick.value in db.jobs then
      Some(ToRecord(db.jobs[pick.value], Count(db'.attempts, pick.value)))
    else None
  }

  function Remove(db: Db, id: JobId): Db {
    db.(reserved := Without(db.reserved, id), jobs := Without(db.jobs, id), attempts := Without(db.attempts, id))
  }

  function GiveBack(db: Db, rec: Record, at: int, reason: string): Db {
    db.(jobs := db.jobs[rec.id := Rewritten(rec, at, reason)],
        reserved := Without(db.reserved, rec.id),
        pending := db.pending[rec.id := at])
  }

  function Bury(db: Db, rec: Record, reason: string): Db {
    Remove(db, rec.id).(failed := Trim([Buried(rec, reason)] + db.failed))
  }

  function Unbury(db: Db, raw: Stored): Db {
    db.(failed := RemoveFirst(db.failed, raw))
  }

  /** What an uninterrupted Retry of the failure `raw` leaves. */
  function Retried(db: Db, raw: Stored, now: int): Db {
    Unbury(Enqueue(db.(counter := db.counter + 1), Copy(raw, db.counter + 1, now)), raw)
  }

  /** Midway through the loop: exactly the ids in `done` have moved from reserved to pending, due `now`. */
  ghost predicate PartlyReclaimed(db: Db, now: int, done: seq<JobId>, pending: map<JobId, int>, reserved: map<JobId, int>) {
    && (forall id :: id in reserved <==> id in db.reserved && id !in done)
    && (forall id :: id in reserved ==> reserved[id] == db.reserved[id])
    && (forall id :: id in pending <==> id in db.pending || id in done)
    && (forall id :: id in pending ==> pending[id] == if id in done then now else db.pending[id])
  }

  lemma FullyReclaimed(db: Db, now: int, done: seq<JobId>, pending: map<JobId, int>, reserved: map<JobId, int>)
    requires PartlyReclaimed(db, now, done, pending, reserved)
    requires forall id :: id in done <==> id in db.reserved && db.reserved[id] <= now
    ensures Reclaimed(db, now) == db.(pending := pending, reserved := reserved)
  {
    assert Reclaimed(db, now).reserved == reserved;
    assert Reclaimed(db, now).pending == pending;
  }

  lemma {:induction false} LowestExists(z: map<JobId, int>, ids: set<JobId>) returns (low: JobId)
    requires ids != {} && ids <= z.Keys
    ensures low in ids && forall k :: k in ids ==> z[low] <= z[k]
  {
    var some :| some in ids;
    low := some;
    if ids != {some} {
      var other := LowestExists(z, ids - {some});
      if z[other] < z[some] {
        low := other;
      }
      assert forall k :: k in ids ==> k == some || k in ids - {some};
    }
  }

  /** The ids scored at most `bound`, lowest score first. */
  method RangeByScore(z: map<JobId, int>, bound: int) returns (ids: seq<JobId>)
    ensures forall id :: id in ids <==> id in z && z[id] <= bound
    ensures forall i, j :: 0 <= i < j < |ids| ==> ids[i] != ids[j] && z[ids[i]] <= z[ids[j]]
  {
    var rest := set id | id in z && z[id] <= bound;
    ids := [];
    while rest != {}
      invariant forall id :: id in ids ==> id in z && z[id] <= bound
      invariant forall id :: id in z && z[id] <= bound ==> id in ids || id in rest
      invariant forall id :: id in rest ==> id in z && z[id] <= bound && id !in ids
      invariant forall i, j :: 0 <= i < j < |ids| ==> ids[i] != ids[j] && z[ids[i]] <= z[ids[j]]
      invariant forall i, id :: 0 <= i < |ids| && id in rest ==> z[ids[i]] <= z[id]
      decreases rest
    {
      ghost var lowest := LowestExists(z, rest);
      var low :| low in rest && forall k :: k in rest ==> z[low] <= z[k];
      ids := ids + [low];
      rest := rest - {low};
    }
  }

  class Driver {
    var pending: map<JobId, int>
    var reserved: map<JobId, int>
    var jobs: map<JobId, Stored>
    var attempts: map<JobId, nat>
    var failed: seq<Stored>
    var counter: nat
    const timeout: int

    ghost function State(): Db
      reads this
    {
      Db(pending, reserved, jobs, attempts, failed, counter)
    }

    constructor (timeout: int)
      ensures State() == Db(map[], map[], map[], map[], [], 0)
      ensures this.timeout == if timeout > 0 then timeout else 900_000
    {
      pending, reserved, jobs, attempts, failed, counter := map[], map[], map[], map[], [], 0;
      this.timeout := if timeout > 0 then timeout else DEFAULT_TIMEOUT;
    }

    method Mint() returns (id: JobId)
      modifies this
      ensures State() == old(State()).(counter := id) && id == old(counter) + 1
    {
      counter := counter + 1;
      id := counter;
    }

    method Write(s: Stored)
      modifies this
      ensures State() == Enqueue(old(State()), s)
    {
      jobs := jobs[s.id := s];
      pending := pending[s.id := s.available];
    }

    /** Push mints an id and then writes; both commands together when nothing comes between them. */
    method Push(rec: Record) returns (id: JobId)
      modifies this
      ensures id == old(counter) + 1
      ensures State() == Enqueue(old(State()).(counter := id), Rewritten(rec.(id := id), rec.available, ""))
    {
      id := Mint();
      Write(Stored(id, rec.name, rec.payload, rec.max, rec.available, rec.created, "", 0));
    }

    /** The claim script's loop over lapsed reservations. */
    method Reclaim(now: int)
      modifies this`pending, this`reserved
      ensures State() == Reclaimed(old(State()), now)
    {
      ghost var before := State();
      var stale := RangeByScore(reserved, now);
      for i := 0 to |stale|
        invariant PartlyReclaimed(before, now, stale[..i], pending, reserved)
      {
        assert stale[..i + 1] == stale[..i] + [stale[i]];
        reserved := Without(reserved, stale[i]);
        pending := pending[stale[i] := now];
      }
      assert stale[..|stale|] == stale;
      FullyReclaimed(before, now, stale, pending, reserved);
    }

    method Claim(now: int) returns (rec: Option<Record>, ghost pick: Option<JobId>)
      modifies this
      ensures Claims(old(State()), now, now + timeout, pick, State())
      ensures rec == Reply(old(State()), State(), pick)
    {
      hide Reclaimed;
      Reclaim(now);
      ghost var ready := State();
      var due := RangeByScore(pending, now);
      if |due| == 0 {
        return None, None;
      }
      var id := due[0];
      pick := Some(id);
      assert FirstDue(ready, now, id) by {
        assert forall k :: Due(ready, now, k) ==> k in due;
      }
      pending := Without(pending, id);
      reserved := reserved[id := now + timeout];
      if id !in jobs {
        reserved := Without(reserved, id);
        assert State().reserved == Without(ready.reserved, id);
        return None, pick;
      }
      attempts := Bump(attempts, id);
      rec := Some(ToRecord(jobs[id], attempts[id]));
    }

    method Complete(rec: Record)
      modifies this
      ensures State() == Remove(old(State()), rec.id)
    {
      reserved := Without(reserved, rec.id);
      jobs := Without(jobs, rec.id);
      attempts := Without(attempts, rec.id);
    }

    method Release(rec: Record, at: int, reason: string)
      modifies this
      ensures State() == GiveBack(old(State()), rec, at, reason)
    {
      jobs := jobs[rec.id := Stored(rec.id, rec.name, rec.payload, rec.max, at, rec.created, Truncate(reason), 0)];
      reserved := Without(reserved, rec.id);
      pending := pending[rec.id := at];
    }

    method Fail(rec: Record, reason: string)
      modifies this
      ensures State() == Bury(old(State()), rec, reason)
    {
      var raw := Stored(rec.id, rec.name, rec.payload, rec.max, 0, rec.created, Truncate(reason), rec.attempts);
      failed := [raw] + failed;
      if |failed| > KEPT {
        failed := failed[..KEPT];
      }
      reserved := Without(reserved, rec.id);
      jobs := Without(jobs, rec.id);
      attempts := Without(attempts, rec.id);
    }

    /** Queues a copy of the newest failure of job `id`, then takes that failure off the list. */
    method Retry(id: JobId, now: int) returns (copy: Option<JobId>)
      modifies this
      ensures copy.None? <==> forall i :: 0 <= i < |old(failed)| ==> old(failed)[i].id != id
      ensures copy.None? ==> State() == old(State())
      ensures copy.Some? ==> copy.value == old(counter) + 1
      ensures copy.Some? ==> exists i :: Newest(old(failed), id, i) && State() == Retried(old(State()), old(failed)[i], now)
    {
      var raws := failed;
      for i := 0 to |raws|
        invariant State() == old(State()) && raws == failed
        invariant forall k :: 0 <= k < i ==> raws[k].id != id
      {
        if raws[i].id == id {
          var raw := raws[i];
          assert Newest(raws, id, i);
          var minted := Push(Record(0, raw.name, raw.payload, 0, raw.max, now, now, ""));
          failed := RemoveFirst(failed, raw);
          return Some(minted);
        }
      }
      copy := None;
    }
  }

  ghost predicate Newest(list: seq<Stored>, id: JobId, i: int) {
    0 <= i < |list| && list[i].id == id && forall k :: 0 <= k < i ==> list[k].id != id
  }
}
