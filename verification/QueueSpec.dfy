/**
 The queue that the Redis and MongoDB drivers both implement, stripped to one number per job: the
 instant from which the job may be handed out.  A waiting job carries its due time there, a reserved
 job the instant at which its reservation lapses.  Everything proved here holds of every driver that
 is shown to refine it.
 */
module QueueSpec {
  import opened Jobs

  datatype Job = Job(at: int, attempts: nat, max: int)

  /** A worker's hold: the record it was given and the instant from which the job may go to someone else. */
  datatype Hold = Hold(rec: Record, lease: int)

  /**
   What the workers have done so far.  `ran` counts executions that were settled, `buried` those settled by
   Fail, `limit` remembers every job ever queued and its attempt limit.
   */
  datatype Crew = Crew(held: map<Ticket, Hold>, ran: map<JobId, nat>, buried: map<JobId, nat>, limit: map<JobId, int>)

  datatype State = State(now: int, jobs: map<JobId, Job>, crew: Crew)

  datatype Label =
    | Tick
    | Push(id: JobId)
    | Idle(t: int)
    | Take(c: Ticket, t: int)
    | Settle(c: Ticket, outcome: Outcome)
    | HandBack(c: Ticket)
    | Drop(c: Ticket)
    | Internal

  // ---- what each event does to the workers' side ----

  function Enlist(crew: Crew, id: JobId, max: int): Crew {
    crew.(limit := crew.limit[id := max])
  }

  function Grant(crew: Crew, c: Ticket, hold: Hold): Crew {
    crew.(held := crew.held[c := hold])
  }

  function Forget(crew: Crew, c: Ticket): Crew {
    crew.(held := Without(crew.held, c))
  }

  function SettleCrew(crew: Crew, c: Ticket, outcome: Outcome): Crew
    requires c in crew.held
  {
    var rec := crew.held[c].rec;
    Forget(crew, c).(
      ran := if outcome.Undecodable? then crew.ran else Bump(crew.ran, rec.id),
      buried := if Decide(rec, outcome).Fail? then Bump(crew.buried, rec.id) else crew.buried)
  }

  // ---- the steps ----

  ghost predicate Claimable(jobs: map<JobId, Job>, t: int, id: JobId) {
    id in jobs && jobs[id].at <= t
  }

  /** `b` is `a` with some already-past times moved up to at most `t`: no job becomes claimable later than `t`. */
  ghost predicate Raised(a: map<JobId, Job>, b: map<JobId, Job>, t: int) {
    && a.Keys == b.Keys
    && forall id :: id in a ==>
         b[id] == a[id] || (a[id].at <= b[id].at <= t && b[id] == a[id].(at := b[id].at))
  }

  ghost predicate Pushes(s: State, id: JobId, s': State) {
    && id !in s.crew.limit
    && id in s'.jobs
    && s' == s.(jobs := s.jobs[id := s'.jobs[id]], crew := Enlist(s.crew, id, s'.jobs[id].max))
  }

  /** A claim that finds nothing: there was nothing to find. */
  ghost predicate Idles(s: State, t: int, s': State) {
    t <= s.now && s' == s && forall id :: !Claimable(s.jobs, t, id)
  }

  /** A claim that succeeds: some claimable job spends one attempt and is kept from everyone else until the lease. */
  ghost predicate Takes(s: State, c: Ticket, t: int, s': State) {
    && t <= s.now
    && c !in s.crew.held && c in s'.crew.held
    && var hold := s'.crew.held[c];
    var id := hold.rec.id;
    && Claimable(s.jobs, t, id)
    && hold.rec.attempts == s.jobs[id].attempts + 1 && hold.rec.max == s.jobs[id].max
    && id in s'.jobs && s'.jobs[id] == Job(hold.lease, hold.rec.attempts, hold.rec.max)
    && Raised(Without(s.jobs, id), Without(s'.jobs, id), t)
    && s'.now == s.now && s'.crew == Grant(s.crew, c, hold)
  }

  ghost predicate Settles(s: State, c: Ticket, outcome: Outcome, s': State) {
    && Live(s, c)
    && var rec := s.crew.held[c].rec;
    && rec.id in s.jobs
    && (if Decide(rec, outcome).Release? then Rescheduled(s.jobs, rec.id, s'.jobs) else s'.jobs == Without(s.jobs, rec.id))
    && s'.now == s.now && s'.crew == SettleCrew(s.crew, c, outcome)
  }

  ghost predicate HandsBack(s: State, c: Ticket, s': State) {
    && Live(s, c)
    && s.crew.held[c].rec.id in s.jobs
    && Rescheduled(s.jobs, s.crew.held[c].rec.id, s'.jobs)
    && s'.now == s.now && s'.crew == Forget(s.crew, c)
  }

  ghost predicate Next(s: State, l: Label, s': State) {
    match l
    case Internal => s' == s
    case Tick => s.now <= s'.now && s' == s.(now := s'.now)
    case Push(id) => Pushes(s, id, s')
    case Idle(t) => Idles(s, t, s')
    case Take(c, t) => Takes(s, c, t, s')
    case Settle(c, outcome) => Settles(s, c, outcome, s')
    case HandBack(c) => HandsBack(s, c, s')
    case Drop(c) => c in s.crew.held && s' == s.(crew := Forget(s.crew, c))
  }

  ghost predicate Rescheduled(jobs: map<JobId, Job>, id: JobId, jobs': map<JobId, Job>)
    requires id in jobs
  {
    id in jobs' && jobs' == jobs[id := jobs[id].(at := jobs'[id].at)]
  }

  /** A hold is live until its lease runs out; settling a live hold is what "timely" means. */
  ghost predicate Live(s: State, c: Ticket) {
    c in s.crew.held && s.now < s.crew.held[c].lease
  }

  ghost predicate Init(s: State) {
    s.jobs == map[] && s.crew == Crew(map[], map[], map[], map[])
  }

  ghost predicate Run(ss: seq<State>, ls: seq<Label>) {
    && |ss| == |ls| + 1 && Init(ss[0])
    && forall i :: 0 <= i < |ls| ==> Next(ss[i], ls[i], ss[i + 1])
  }

  // ---- safety ----

  ghost predicate Exclusive(s: State) {
    forall c, d :: Live(s, c) && Live(s, d) && c != d ==> s.crew.held[c].rec.id != s.crew.held[d].rec.id
  }

  /** The queue agrees with every live hold, so nothing else can have moved that job. */
  ghost predicate Backed(s: State) {
    forall c :: Live(s, c) ==>
      var h := s.crew.held[c];
      && h.rec.id in s.jobs && s.jobs[h.rec.id] == Job(h.lease, h.rec.attempts, h.rec.max)
      && Count(s.crew.ran, h.rec.id) < h.rec.attempts
  }

  ghost predicate WithinBudget(s: State) {
    forall id :: id in s.crew.limit ==> Count(s.crew.ran, id) <= Budget(s.crew.limit[id])
  }

  ghost predicate Counted(s: State) {
    && (forall id :: id in s.jobs ==>
          && id in s.crew.limit && s.crew.limit[id] == s.jobs[id].max
          && Count(s.crew.ran, id) <= s.jobs[id].attempts
          && Count(s.crew.ran, id) < Budget(s.jobs[id].max))
    && (forall id :: id !in s.crew.limit ==> Count(s.crew.ran, id) == 0)
  }

  ghost predicate Inv(s: State) {
    Exclusive(s) && Backed(s) && WithinBudget(s) && Counted(s)
  }

  lemma NextKeepsInv(s: State, l: Label, s': State)
    requires Inv(s) && Next(s, l, s')
    ensures Inv(s')
  {
    match l
    case Internal =>
    case Tick =>
      assert forall c :: Live(s', c) ==> Live(s, c);
    case Push(id) =>
      assert forall c :: Live(s', c) <==> Live(s, c);
    case Idle(t) =>
    case Take(c, t) => TakeKeepsInv(s, c, t, s');
    case Settle(c, outcome) => SettleKeepsInv(s, c, outcome, s');
    case HandBack(c) =>
      assert forall d :: Live(s', d) ==> Live(s, d) && d != c;
    case Drop(c) =>
      assert forall d :: Live(s', d) ==> Live(s, d);
  }

  lemma TakeKeepsInv(s: State, c: Ticket, t: int, s': State)
    requires Inv(s) && Takes(s, c, t, s')
    ensures Inv(s')
  {
    var hold := s'.crew.held[c];
    var id := hold.rec.id;
    forall d | Live(s', d) && d != c
      ensures Live(s, d) && s.crew.held[d] == s'.crew.held[d] && s.crew.held[d].rec.id != id
      ensures s'.jobs[s.crew.held[d].rec.id] == s.jobs[s.crew.held[d].rec.id]
    {
      assert Live(s, d);
      var other := s.crew.held[d].rec.id;
      assert other in Without(s.jobs, id);
      assert Without(s'.jobs, id)[other] == Without(s.jobs, id)[other];
    }
    forall k | k in s'.jobs
      ensures k in s.jobs && s'.jobs[k].max == s.jobs[k].max && s'.jobs[k].attempts >= s.jobs[k].attempts
    {
      if k != id {
        assert k in Without(s'.jobs, id);
      }
    }
  }

  lemma SettleKeepsInv(s: State, c: Ticket, outcome: Outcome, s': State)
    requires Inv(s) && Settles(s, c, outcome, s')
    ensures Inv(s')
  {
    assert forall d :: Live(s', d) ==> Live(s, d) && d != c;
  }

  lemma {:induction false} RunIsSafe(ss: seq<State>, ls: seq<Label>, i: nat)
    requires Run(ss, ls) && i < |ss|
    ensures Inv(ss[i])
  {
    if i > 0 {
      RunIsSafe(ss, ls, i - 1);
      NextKeepsInv(ss[i - 1], ls[i - 1], ss[i]);
    }
  }

  // ---- a job that always fails ----

  ghost predicate HeldBy(s: State, c: Ticket, j: JobId) {
    c in s.crew.held && s.crew.held[c].rec.id == j
  }

  /** Step `l` treats job `j` the plain way: pushed unspent, never abandoned or handed back, never outliving its lease, always failing. */
  ghost predicate Plain(s: State, l: Label, s': State, j: JobId) {
    match l
    case Push(id) => id == j && j in s'.jobs ==> s'.jobs[j].attempts == 0
    case Tick => forall c :: HeldBy(s, c, j) ==> s'.now < s.crew.held[c].lease
    case Take(c, t) => HeldBy(s', c, j) ==> s.now < s'.crew.held[c].lease
    case Settle(c, outcome) => HeldBy(s, c, j) ==> outcome.Errored?
    case HandBack(c) => !HeldBy(s, c, j)
    case Drop(c) => !HeldBy(s, c, j)
    case _ => true
  }

  /** While queued the job has run once per attempt not still in flight; once gone it has run its whole budget and been buried once. */
  ghost predicate Accurate(s: State, j: JobId) {
    && (forall c :: HeldBy(s, c, j) ==> Live(s, c) && j in s.jobs && Count(s.crew.ran, j) + 1 == s.jobs[j].attempts)
    && (j in s.jobs ==>
          && Count(s.crew.buried, j) == 0 && s.jobs[j].attempts <= Budget(s.jobs[j].max)
          && ((forall c :: !HeldBy(s, c, j)) ==> Count(s.crew.ran, j) == s.jobs[j].attempts))
    && (j in s.crew.limit && j !in s.jobs ==>
          Count(s.crew.ran, j) == Budget(s.crew.limit[j]) && Count(s.crew.buried, j) == 1)
    && (j !in s.crew.limit ==> Count(s.crew.buried, j) == 0)
  }

  lemma PlainKeepsAccurate(s: State, l: Label, s': State, j: JobId)
    requires Inv(s) && Next(s, l, s') && Plain(s, l, s', j) && Accurate(s, j)
    ensures Accurate(s', j)
  {
    match l
    case Internal =>
    case Idle(t) =>
    case Tick =>
      assert forall c :: HeldBy(s', c, j) <==> HeldBy(s, c, j);
    case Push(id) =>
      assert forall c :: HeldBy(s', c, j) <==> HeldBy(s, c, j);
    case Take(c, t) =>
      var id := s'.crew.held[c].rec.id;
      assert HeldBy(s', c, id);
      assert forall d :: d != c ==> (HeldBy(s', d, j) <==> HeldBy(s, d, j));
      if id != j && j in s.jobs {
        assert j in Without(s.jobs, id) && j in Without(s'.jobs, id);
      }
      if id != j && j in s'.jobs {
        assert j in Without(s'.jobs, id);
      }
      if id == j {
        assert forall d :: HeldBy(s, d, j) ==> Live(s, d);
        assert forall d :: !HeldBy(s, d, j);
      }
    case Settle(c, outcome) => PlainSettle(s, c, outcome, s', j);
    case HandBack(c) =>
      assert forall d :: HeldBy(s', d, j) <==> HeldBy(s, d, j);
    case Drop(c) =>
      assert forall d :: HeldBy(s', d, j) <==> HeldBy(s, d, j);
  }

  lemma PlainSettle(s: State, c: Ticket, outcome: Outcome, s': State, j: JobId)
    requires Inv(s) && Next(s, Settle(c, outcome), s') && Plain(s, Settle(c, outcome), s', j) && Accurate(s, j)
    ensures Accurate(s', j)
  {
    var id := s.crew.held[c].rec.id;
    assert forall d :: HeldBy(s', d, j) ==> HeldBy(s, d, j) && d != c;
    if id == j {
      assert HeldBy(s, c, j);
      assert forall d :: HeldBy(s, d, j) ==> Live(s, d);
      assert forall d :: !HeldBy(s', d, j);
    } else {
      assert forall d :: HeldBy(s, d, j) ==> HeldBy(s', d, j);
    }
  }

  /** On every plain run for `j`: the job is still queued short of its budget, or it ran exactly its budget and was buried exactly once. */
  lemma {:induction false} AlwaysFailingRun(ss: seq<State>, ls: seq<Label>, j: JobId, i: nat)
    requires Run(ss, ls) && i < |ss|
    requires forall k :: 0 <= k < |ls| ==> Plain(ss[k], ls[k], ss[k + 1], j)
    ensures Accurate(ss[i], j)
  {
    if i > 0 {
      AlwaysFailingRun(ss, ls, j, i - 1);
      RunIsSafe(ss, ls, i - 1);
      PlainKeepsAccurate(ss[i - 1], ls[i - 1], ss[i], j);
    }
  }
}
