/** Vocabulary shared by the queue drivers: ids, records, and the worker's decision about a finished job. */
module Jobs {

  datatype Option<+T> = None | Some(value: T)

  type JobId = nat

  /** One call to `Claim` that returned a record, so one worker's hold on one job. */
  type Ticket = nat

  /** What a worker is handed, and what it hands back when it settles the job. */
  datatype Record = Record(id: JobId, name: string, payload: string, attempts: nat, max: int,
                           available: int, created: int, error: string)

  /** How the attempt ended: the stored job could not be decoded, `Run` returned nil, or `Run` returned an error or panicked. */
  datatype Outcome = Undecodable | Succeeded | Errored

  datatype Verdict = Complete | Release | Fail

  /** The single settle decision of a worker. */
  function Decide(rec: Record, outcome: Outcome): (v: Verdict)
    ensures v.Complete? <==> outcome.Succeeded?
    ensures v.Release? <==> outcome.Errored? && rec.attempts < rec.max
  {
    match outcome
    case Undecodable => Fail
    case Succeeded => Complete
    case Errored => if rec.attempts >= rec.max then Fail else Release
  }

  const ERROR_LIMIT := 4000

  /** How long a reservation lasts unless a driver says otherwise: fifteen minutes in milliseconds. */
  const DEFAULT_TIMEOUT := 15 * 60 * 1000

  /** The limit a retried job gets from the drivers whose failures do not keep the original one. */
  const DEFAULT_MAX_ATTEMPTS := 3

  function Truncate(s: string): (r: string)
    ensures r <= s
    ensures |r| == if |s| <= 4000 then |s| else 4000
  {
    if |s| <= ERROR_LIMIT then s else s[..ERROR_LIMIT]
  }

  /** Number of tries a job gets: a limit below one still buys the first try. */
  function Budget(max: int): (b: nat)
    ensures b >= 1 && b >= max
  {
    if max < 1 then 1 else max
  }

  function Count(m: map<JobId, nat>, id: JobId): nat {
    if id in m then m[id] else 0
  }

  function Bump(m: map<JobId, nat>, id: JobId): (m': map<JobId, nat>)
    ensures forall k :: Count(m', k) == Count(m, k) + (if k == id then 1 else 0)
  {
    m[id := Count(m, id) + 1]
  }

  /** `map` without one key. */
  function Without<K, V>(m: map<K, V>, k: K): (m': map<K, V>)
    ensures m'.Keys == m.Keys - {k}
    ensures forall x :: x in m' ==> m'[x] == m[x]
  {
    m - {k}
  }
}
