/**
 The MongoDB driver: one queue's job documents, the failures, and the id sequence.  Each command touches
 one document atomically; moving a job to or from the failures takes two.
 */
module MongoQueue {
  import opened Jobs
  import opened Rows

  /** A failure, kept under the job's own id. */
  datatype Failure = Failure(id: JobId, name: string, payload: string, attempts: nat, error: string, failedAt: int)

  datatype Db = Db(jobs: map<JobId, Row>, failed: map<JobId, Failure>, counter: nat)

  /** The record Retry pushes: the failure's content with a fresh, default budget. */
  function Again(f: Failure, now: int): Record {
    Record(0, f.name, f.payload, 0, DEFAULT_MAX_ATTEMPTS, now, now, "")
  }

  function Insert(db: Db, d: Row): Db {
    db.(jobs := db.jobs[d.id := d])
  }

  function Reserve(db: Db, id: JobId, now: int): Db
    requires id in db.jobs
  {
    db.(jobs := db.jobs[id := db.jobs[id].(reserved := Some(now), attempts := db.jobs[id].attempts + 1)])
  }

  ghost predicate Claims(db: Db, now: int, timeout: int, pick: Option<JobId>, db': Db) {
    && Selects(db.jobs, now, timeout, pick)
    && match pick
       case None => db' == db
       case Some(id) => id in db.jobs && db' == Reserve(db, id, now)
  }

  function Remove(db: Db, id: JobId): Db {
    db.(jobs := Without(db.jobs, id))
  }

  function GiveBack(db: Db, id: JobId, at: int, reason: string): Db {
    db.(jobs := GivenBack(db.jobs, id, at, reason))
  }

  function Report(db: Db, rec: Record, reason: string, now: int): Db {
    db.(failed := db.failed[rec.id := Failure(rec.id, rec.name, rec.payload, rec.attempts, Truncate(reason), now)])
  }

  function Clear(db: Db, id: JobId): Db {
    db.(failed := Without(db.failed, id))
  }

  /** What an uninterrupted Retry of `f` leaves. */
  function Retried(db: Db, f: Failure, now: int): Db {
    Clear(Insert(db.(counter := db.counter + 1), NewRow(Again(f, now), db.counter + 1)), f.id)
  }

  class Driver {
    var jobs: map<JobId, Row>
    var failed: map<JobId, Failure>
    var counter: nat
    const timeout: int

    ghost function State(): Db
      reads this
    {
      Db(jobs, failed, counter)
    }

    /** Documents are stored under their own ids. */
    ghost predicate Valid()
      reads this
    {
      && timeout > 0
      && (forall id :: id in jobs ==> jobs[id].id == id)
      && (forall id :: id in failed ==> failed[id].id == id)
    }

    constructor (timeout: int)
      ensures Valid() && State() == Db(map[], map[], 0)
      ensures this.timeout == if timeout > 0 then timeout else 900_000
    {
      jobs, failed, counter := map[], map[], 0;
      this.timeout := if timeout > 0 then timeout else DEFAULT_TIMEOUT;
    }

    method NextId() returns (id: JobId)
      requires Valid()
      modifies this
      ensures Valid() && id == old(counter) + 1 && State() == old(State()).(counter := id)
    {
      counter := counter + 1;
      id := counter;
    }

    method Push(rec: Record) returns (id: JobId)
      requires Valid()
      modifies this
      ensures Valid() && id == old(counter) + 1
      ensures State() == Insert(old(State()).(counter := id), NewRow(rec, id))
    {
      id := NextId();
      jobs := jobs[id := Row(id, rec.name, rec.payload, rec.attempts, rec.max, rec.available, None, "", rec.created)];
    }

    method Claim(now: int) returns (rec: Option<Record>, ghost pick: Option<JobId>)
      requires Valid()
      modifies this
      ensures Valid() && Claims(old(State()), now, timeout, pick, State())
      ensures rec == if pick.None? then None else Some(ToRecord(jobs[pick.value]))
    {
      var found := Find(jobs, now, timeout);
      pick := found;
      if found.None? {
        return None, pick;
      }
      var id := found.value;
      jobs := jobs[id := jobs[id].(reserved := Some(now), attempts := jobs[id].attempts + 1)];
      rec := Some(ToRecord(jobs[id]));
    }

    method Complete(rec: Record)
      requires Valid()
      modifies this
      ensures Valid() && State() == Remove(old(State()), rec.id)
    {
      jobs := Without(jobs, rec.id);
    }

    method Release(rec: Record, at: int, reason: string)
      requires Valid()
      modifies this
      ensures Valid() && State() == GiveBack(old(State()), rec.id, at, reason)
    {
      if rec.id in jobs {
        jobs := jobs[rec.id := jobs[rec.id].(reserved := None, available := at, error := Truncate(reason))];
      }
    }

    /** The failure is recorded first, and the job deleted second. */
    method Fail(rec: Record, reason: string, now: int)
      requires Valid()
      modifies this
      ensures Valid() && State() == Remove(Report(old(State()), rec, reason, now), rec.id)
    {
      failed := failed[rec.id := Failure(rec.id, rec.name, rec.payload, rec.attempts, Truncate(reason), now)];
      jobs := Without(jobs, rec.id);
    }

    /** The copy is queued first, and the failure deleted second. */
    method Retry(id: JobId, now: int) returns (copy: Option<JobId>)
      requires Valid()
      modifies this
      ensures Valid()
      ensures copy.None? <==> id !in old(failed)
      ensures copy.None? ==> State() == old(State())
      ensures copy.Some? ==> copy.value == old(counter) + 1
      ensures copy.Some? ==> State() == Retried(old(State()), old(failed)[id], now)
    {
      if id !in failed {
        return None;
      }
      var f := failed[id];
      var minted := Push(Record(0, f.name, f.payload, 0, DEFAULT_MAX_ATTEMPTS, now, now, ""));
      failed := Without(failed, id);
      copy := Some(minted);
    }
  }
}
