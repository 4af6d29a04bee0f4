/**
 Where a pushed job ended up.  The drivers differ in how they store jobs; whether a job can vanish is
 one argument about four sets, made here once.
 */
module Books {
  import opened Jobs

  datatype Content = Content(name: string, payload: string)

  /**
   `pushed` is every job ever written with what it carried, `completed` the ids some worker completed,
   `copy` maps a retried job to the copy queued for it, `trimmed` the failures pushed out of a bounded failed list.
   */
  datatype Books = Books(pushed: map<JobId, Content>, completed: set<JobId>, copy: map<JobId, JobId>, trimmed: set<JobId>)

  const BLANK := Books(map[], {}, map[], {})

  function Carried(rec: Record): Content { Content(rec.name, rec.payload) }

  function Finished(b: Books, id: JobId): Books { b.(completed := b.completed + {id}) }

  /** A copy is a later job with the same content. */
  ghost predicate Sound(b: Books) {
    forall id :: id in b.copy ==>
      && id in b.pushed && b.copy[id] in b.pushed
      && id < b.copy[id] && b.pushed[b.copy[id]] == b.pushed[id]
  }

  ghost predicate Placed(b: Books, queued: set<JobId>, failed: set<JobId>, id: JobId) {
    id in b.completed || id in queued || id in failed || id in b.trimmed
  }

  /** Nothing is lost: every pushed job is placed, or a copy took over from it. */
  ghost predicate Balanced(b: Books, queued: set<JobId>, failed: set<JobId>) {
    && Sound(b)
    && forall id :: id in b.pushed ==> Placed(b, queued, failed, id) || id in b.copy
  }

  /** `last` is `id` or a copy of a copy of it. */
  ghost predicate Succeeds(b: Books, id: JobId, last: JobId)
    requires Sound(b)
    decreases if last >= id then last - id else 0
  {
    id == last || (id in b.copy && b.copy[id] <= last && Succeeds(b, b.copy[id], last))
  }

  /** Following the copies of any pushed job ends at a placed job carrying the same content. */
  lemma {:induction false} NothingLost(b: Books, queued: set<JobId>, failed: set<JobId>, id: JobId, top: JobId) returns (last: JobId)
    requires Balanced(b, queued, failed) && id in b.pushed
    requires forall k :: k in b.pushed ==> k <= top
    ensures last in b.pushed && Succeeds(b, id, last)
    ensures b.pushed[last] == b.pushed[id] && Placed(b, queued, failed, last)
    ensures id <= last
    decreases top - id
  {
    if Placed(b, queued, failed, id) {
      last := id;
    } else {
      last := NothingLost(b, queued, failed, b.copy[id], top);
    }
  }
}
