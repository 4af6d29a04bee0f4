/**
 The SQL driver: a jobs table and a failed_jobs table.  Fail and Retry are transactions; a claim is a
 select followed by a guarded update, and other sessions may commit between the two.
 */
module SqlQueue {
  import opened Jobs
  import opened Rows

  datatype Failure = Failure(name: string, payload: string, attempts: nat, error: string, failedAt: int)

  /** `jobSeq` and `failSeq` are the primary key sequences of the two tables. */
  datatype Db = Db(jobs: map<JobId, Row>, failed: map<nat, Failure>, jobSeq: nat, failSeq: nat)

  function Again(f: Failure, now: int): Record {
    Record(0, f.name, f.payload, 0, DEFAULT_MAX_ATTEMPTS, now, now, "")
  }

  function Insert(db: Db, rec: Record): Db {
    var id := db.jobSeq + 1;
    db.(jobs := db.jobs[id := NewRow(rec, id)], jobSeq := id)
  }

  /** Whether the guarded update touches the row it read. */
  predicate Hits(db: Db, read: Row, now: int, timeout: int) {
    read.id in db.jobs && Open(db.jobs[read.id], now, timeout)
  }

  /** The update: the attempt count written is one more than the one read, whatever is stored by now. */
  function Update(db: Db, read: Row, now: int, timeout: int): Db {
    if Hits(db, read, now, timeout) then
      db.(jobs := db.jobs[read.id := db.jobs[read.id].(reserved := Some(now), attempts := read.attempts + 1)])
    else db
  }

  /** What the claim returns when its update hit: the row as read, with the new attempt count. */
  function Claimed(read: Row): Record {
    ToRecord(read).(attempts := read.attempts + 1)
  }

  function Remove(db: Db, id: JobId): Db {
    db.(jobs := Without(db.jobs, id))
  }

  function GiveBack(db: Db, id: JobId, at: int, reason: string): Db {
    db.(jobs := GivenBack(db.jobs, id, at, reason))
  }

  function Bury(db: Db, rec: Record, reason: string, now: int): Db {
    var key := db.failSeq + 1;
    Remove(db, rec.id).(failed := db.failed[key := Failure(rec.name, rec.payload, rec.attempts, Truncate(reason), now)], failSeq := key)
  }

  function Revive(db: Db, key: nat, now: int): Db
    requires key in db.failed
  {
    Insert(db, Again(db.failed[key], now)).(failed := Without(db.failed, key))
  }

  class DBDriver {
    var jobs: map<JobId, Row>
    var failed: map<nat, Failure>
    var jobSeq: nat
    var failSeq: nat
    const timeout: int

    ghost function State(): Db
      reads this
    {
      Db(jobs, failed, jobSeq, failSeq)
    }

    ghost predicate Valid()
      reads this
    {
      timeout > 0 && forall id :: id in jobs ==> jobs[id].id == id <= jobSeq
    }

    constructor (timeout: int)
      ensures Valid() && State() == Db(map[], map[], 0, 0)
      ensures this.timeout == if timeout > 0 then timeout else 900_000
    {
      jobs, failed, jobSeq, failSeq := map[], map[], 0, 0;
      this.timeout := if timeout > 0 then timeout else DEFAULT_TIMEOUT;
    }

    method Push(rec: Record)
      requires Valid()
      modifies this
      ensures Valid() && State() == Insert(old(State()), rec)
    {
      jobSeq := jobSeq + 1;
      jobs := jobs[jobSeq := Row(jobSeq, rec.name, rec.payload, rec.attempts, rec.max, rec.available, None, "", rec.created)];
    }

    method Select(now: int) returns (row: Option<Row>)
      requires Valid()
      ensures Selects(jobs, now, timeout, if row.Some? then Some(row.value.id) else None)
      ensures row.Some? ==> row.value == jobs[row.value.id]
    {
      var pick := Find(jobs, now, timeout);
      row := if pick.None? then None else Some(jobs[pick.value]);
    }

    method Reserve(read: Row, now: int) returns (affected: nat)
      requires Valid()
      modifies this
      ensures Valid() && State() == Update(old(State()), read, now, timeout)
      ensures affected == if Hits(old(State()), read, now, timeout) then 1 else 0
    {
      if read.id in jobs && Open(jobs[read.id], now, timeout) {
        jobs := jobs[read.id := jobs[read.id].(reserved := Some(now), attempts := read.attempts + 1)];
        affected := 1;
      } else {
        affected := 0;
      }
    }

    /** With nothing committed in between, the update always hits the row that was selected. */
    method Claim(now: int) returns (rec: Option<Record>, ghost read: Option<Row>)
      requires Valid()
      modifies this
      ensures Valid()
      ensures Selects(old(jobs), now, timeout, if read.Some? then Some(read.value.id) else None)
      ensures read.None? ==> rec == None && State() == old(State())
      ensures read.Some? ==> read.value.id in old(jobs) && read.value == old(jobs)[read.value.id]
      ensures read.Some? ==> rec == Some(Claimed(read.value)) && State() == Update(old(State()), read.value, now, timeout)
    {
      var row := Select(now);
      read := row;
      if row.None? {
        return None, read;
      }
      var affected := Reserve(row.value, now);
      if affected == 0 {
        assert false;
      }
      rec := Some(ToRecord(row.value).(attempts := row.value.attempts + 1));
    }

    method Complete(rec: Record)
      requires Valid()
      modifies this
      ensures Valid() && State() == Remove(old(State()), rec.id)
    {
      jobs := Without(jobs, rec.id);
    }

    method Release(rec: Record, at: int, reason: string)
      requires Valid()
      modifies this
      ensures Valid() && State() == GiveBack(old(State()), rec.id, at, reason)
    {
      if rec.id in jobs {
        jobs := jobs[rec.id := jobs[rec.id].(reserved := None, available := at, error := Truncate(reason))];
      }
    }

    method Fail(rec: Record, reason: string, now: int)
      requires Valid()
      modifies this
      ensures Valid() && State() == Bury(old(State()), rec, reason, now)
    {
      failSeq := failSeq + 1;
      failed := failed[failSeq := Failure(rec.name, rec.payload, rec.attempts, Truncate(reason), now)];
      jobs := Without(jobs, rec.id);
    }

    method Retry(key: nat, now: int) returns (found: bool)
      requires Valid()
      modifies this
      ensures Valid() && (found <==> key in old(failed))
      ensures found ==> State() == Revive(old(State()), key, now)
      ensures !found ==> State() == old(State())
    {
      found := key in failed;
      if found {
        var f := failed[key];
        Push(Record(0, f.name, f.payload, 0, DEFAULT_MAX_ATTEMPTS, now, now, ""));
        failed := Without(failed, key);
      }
    }
  }
}
