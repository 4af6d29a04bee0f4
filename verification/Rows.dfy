/** A queued job as MongoDB and the SQL tables both keep it, with the time of its reservation in the row itself. */
module Rows {
  import opened Jobs
  import Q = QueueSpec

  /** `reserved` is when the job was last claimed, if it is reserved. */
  datatype Row = Row(id: JobId, name: string, payload: string, attempts: nat, max: int,
                     available: int, reserved: Option<int>, error: string, created: int)

  function ToRecord(r: Row): Record {
    Record(r.id, r.name, r.payload, r.attempts, r.max, r.available, r.created, r.error)
  }

  function NewRow(rec: Record, id: JobId): Row {
    Row(id, rec.name, rec.payload, rec.attempts, rec.max, rec.available, None, "", rec.created)
  }

  /** Unreserved, or reserved longer ago than the timeout. */
  predicate Open(r: Row, now: int, timeout: int) {
    r.reserved.None? || r.reserved.value < now - timeout
  }

  predicate Selectable(r: Row, now: int, timeout: int) {
    r.available <= now && Open(r, now, timeout)
  }

  predicate Before(a: Row, b: Row) {
    a.available < b.available || (a.available == b.available && a.id <= b.id)
  }

  /** What a claim's query finds: the selectable row due longest, lowest id first. */
  ghost predicate Selects(jobs: map<JobId, Row>, now: int, timeout: int, pick: Option<JobId>) {
    match pick
    case None => forall id :: id in jobs ==> !Selectable(jobs[id], now, timeout)
    case Some(id) =>
      && id in jobs && Selectable(jobs[id], now, timeout)
      && forall k :: k in jobs && Selectable(jobs[k], now, timeout) ==> Before(jobs[id], jobs[k])
  }

  lemma {:induction false} FirstExists(jobs: map<JobId, Row>, ids: set<JobId>) returns (first: JobId)
    requires ids != {} && ids <= jobs.Keys
    requires forall id :: id in jobs ==> jobs[id].id == id
    ensures first in ids && forall k :: k in ids ==> Before(jobs[first], jobs[k])
  {
    var some :| some in ids;
    first := some;
    if ids != {some} {
      var other := FirstExists(jobs, ids - {some});
      if !Before(jobs[some], jobs[other]) {
        first := other;
      }
      assert forall k :: k in ids ==> k == some || k in ids - {some};
    }
  }

  method Find(jobs: map<JobId, Row>, now: int, timeout: int) returns (pick: Option<JobId>)
    requires forall id :: id in jobs ==> jobs[id].id == id
    ensures Selects(jobs, now, timeout, pick)
  {
    var matching := set id | id in jobs && Selectable(jobs[id], now, timeout);
    if matching == {} {
      assert forall id :: id in jobs && Selectable(jobs[id], now, timeout) ==> id in matching;
      return None;
    }
    ghost var first := FirstExists(jobs, matching);
    var id :| id in matching && forall k :: k in matching ==> Before(jobs[id], jobs[k]);
    assert forall k :: k in jobs && Selectable(jobs[k], now, timeout) ==> k in matching;
    pick := Some(id);
  }

  /** The row found is due before every other selectable row, or as early with a lower id. */
  lemma SelectsInOrder(jobs: map<JobId, Row>, now: int, timeout: int, id: JobId, k: JobId)
    requires Selects(jobs, now, timeout, Some(id)) && (forall j :: j in jobs ==> jobs[j].id == j)
    requires k in jobs && k != id && jobs[k].available <= now && (jobs[k].reserved.None? || jobs[k].reserved.value + timeout < now)
    ensures id in jobs && jobs[id].available <= now && (jobs[id].reserved.None? || jobs[id].reserved.value + timeout < now)
    ensures jobs[id].available < jobs[k].available || (jobs[id].available == jobs[k].available && id < k)
  {
    assert Selectable(jobs[k], now, timeout);
  }

  /** What Release writes: an update of a row that is gone changes nothing. */
  function GivenBack(jobs: map<JobId, Row>, id: JobId, at: int, reason: string): map<JobId, Row> {
    if id in jobs then jobs[id := jobs[id].(reserved := None, available := at, error := Truncate(reason))] else jobs
  }

  // ---- as the abstract queue sees it ----

  /**
   The instant from which a row is selectable.  A reservation lapses strictly after the timeout, so the
   first instant at which it no longer counts is one tick later.
   */
  function Avail(r: Row, timeout: int): int {
    if r.reserved.None? || r.reserved.value + timeout < r.available then r.available
    else r.reserved.value + timeout + 1
  }

  function JobsOf(jobs: map<JobId, Row>, timeout: int): map<JobId, Q.Job> {
    map id | id in jobs :: Q.Job(Avail(jobs[id], timeout), jobs[id].attempts, jobs[id].max)
  }

  /** A row is selectable at exactly the instants from `Avail` on. */
  lemma SelectableFromAvail(r: Row, now: int, timeout: int)
    requires timeout > 0
    ensures Selectable(r, now, timeout) <==> Avail(r, timeout) <= now
  {
  }

  /** The query finds something exactly when the abstract queue has something to hand out. */
  lemma SelectsExactly(jobs: map<JobId, Row>, now: int, timeout: int, pick: Option<JobId>)
    requires timeout > 0 && Selects(jobs, now, timeout, pick)
    ensures pick.Some? <==> exists id :: Q.Claimable(JobsOf(jobs, timeout), now, id)
    ensures pick.Some? ==> Q.Claimable(JobsOf(jobs, timeout), now, pick.value)
  {
    forall id | id in jobs ensures Selectable(jobs[id], now, timeout) <==> Q.Claimable(JobsOf(jobs, timeout), now, id) {
      SelectableFromAvail(jobs[id], now, timeout);
    }
  }

  lemma GivenBackReschedules(jobs: map<JobId, Row>, id: JobId, at: int, reason: string, timeout: int)
    requires id in jobs
    ensures JobsOf(GivenBack(jobs, id, at, reason), timeout) == JobsOf(jobs, timeout)[id := JobsOf(jobs, timeout)[id].(at := at)]
  {
  }

  lemma RemovedTakesOut(jobs: map<JobId, Row>, id: JobId, timeout: int)
    ensures JobsOf(Without(jobs, id), timeout) == Without(JobsOf(jobs, timeout), id)
  {
  }
}
