/**
 The worker's claim loop, its slot semaphore and the goroutines it starts, as interleaved steps.
 The driver is a source of tickets and a log of settle calls; what those calls do is QueueSpec's business.
 */
module Worker {
  import opened Jobs
  import opened Sets

  /** Where the loop stands.  `Offering` holds a claimed record that has no slot yet. */
  datatype Loop = Top | Claiming | Offering(c: Ticket) | Stopping | Returned(drained: bool)

  /** A goroutine: still running the job, settled but still in its slot, or out of its slot. */
  datatype Phase = Working | Settled | Freed

  datatype State = State(concurrency: int, cancelled: bool, loop: Loop, tasks: map<Ticket, Phase>,
                         recs: map<Ticket, Record>, ended: map<Ticket, Outcome>, calls: map<Ticket, seq<Verdict>>)

  datatype Event =
    | Cancel
    | Look
    | Claim(c: Ticket, rec: Record)
    | ClaimNothing   // an empty queue, or a claim error, which is only logged
    | Begin
    | HandBack
    | Settle(c: Ticket, outcome: Outcome)
    | Free(c: Ticket)
    | Finish(c: Ticket)
    | Drained
    | TimedOut

  function InSlots(s: State): (cs: set<Ticket>)
    ensures forall c :: c in cs <==> c in s.tasks && s.tasks[c] != Freed
  {
    set c | c in s.tasks && s.tasks[c] != Freed
  }

  /** Claimed, and its job is running or waits for a slot. */
  predicate IsOpen(s: State, c: Ticket) {
    (c in s.tasks && s.tasks[c] == Working) || s.loop == Offering(c)
  }

  function Running(s: State): (cs: set<Ticket>)
    ensures forall c :: c in cs <==> c in s.tasks && s.tasks[c] == Working
  {
    set c | c in s.tasks && s.tasks[c] == Working
  }

  function Calls(s: State, c: Ticket): seq<Verdict> {
    if c in s.calls then s.calls[c] else []
  }

  predicate Enabled(s: State, e: Event) {
    match e
    case Cancel => true
    case Look => s.loop.Top?
    case Claim(c, _) => s.loop.Claiming? && c !in s.recs
    case ClaimNothing => s.loop.Claiming?
    case Begin => s.loop.Offering? && |InSlots(s)| < s.concurrency
    case HandBack => s.loop.Offering? && s.cancelled
    case Settle(c, _) => c in s.tasks && s.tasks[c] == Working && c in s.recs
    case Free(c) => c in s.tasks && s.tasks[c] == Settled
    case Finish(c) => c in s.tasks && s.tasks[c] == Freed
    case Drained => s.loop.Stopping? && s.tasks == map[]
    case TimedOut => s.loop.Stopping?
  }

  function Next(s: State, e: Event): (s': State)
    requires Enabled(s, e)
    ensures s'.concurrency == s.concurrency
  {
    match e
    case Cancel => s.(cancelled := true)
    case Look => s.(loop := if s.cancelled then Stopping else Claiming)
    case ClaimNothing => s.(loop := Top)
    case Claim(c, rec) => s.(loop := Offering(c), recs := s.recs[c := rec])
    case Begin => s.(loop := Top, tasks := s.tasks[s.loop.c := Working])
    case HandBack => s.(loop := Top, calls := s.calls[s.loop.c := Calls(s, s.loop.c) + [Release]])
    case Settle(c, outcome) =>
      s.(tasks := s.tasks[c := Settled], ended := s.ended[c := outcome],
         calls := s.calls[c := Calls(s, c) + [Decide(s.recs[c], outcome)]])
    case Free(c) => s.(tasks := s.tasks[c := Freed])
    case Finish(c) => s.(tasks := Without(s.tasks, c))
    case Drained => s.(loop := Returned(true))
    case TimedOut => s.(loop := Returned(false))
  }

  /** A concurrency below one means one. */
  ghost predicate Init(s: State, asked: int) {
    s == State(if asked < 1 then 1 else asked, s.cancelled, Top, map[], map[], map[], map[])
  }

  ghost predicate Run(ss: seq<State>, es: seq<Event>, asked: int) {
    && |ss| == |es| + 1 && Init(ss[0], asked)
    && forall i :: 0 <= i < |es| ==> Enabled(ss[i], es[i]) && ss[i + 1] == Next(ss[i], es[i])
  }

  /** The calls a claimed record has had: none while it is open, then exactly one, its job's verdict or Release if it never started. */
  function Due(s: State, c: Ticket): seq<Verdict>
    requires c in s.recs
  {
    if IsOpen(s, c) then []
    else [if c in s.ended then Decide(s.recs[c], s.ended[c]) else Release]
  }

  ghost predicate Inv(s: State) {
    && s.concurrency >= 1
    && |InSlots(s)| <= s.concurrency
    && Known(s)
    && (forall c :: c in s.recs ==> Calls(s, c) == Due(s, c))
  }

  /** Only claimed records are worked on or settled, and none that is still open has ended. */
  ghost predicate Known(s: State) {
    && (forall c :: c in s.tasks ==> c in s.recs && s.loop != Offering(c))
    && (forall c :: c in s.calls ==> c in s.recs)
    && (forall c :: c in s.ended ==> c in s.recs && !IsOpen(s, c))
    && (s.loop.Offering? ==> s.loop.c in s.recs)
    && (s.loop == Returned(true) ==> s.tasks == map[])
  }

  lemma SlotsKept(s: State, e: Event)
    requires Inv(s) && Enabled(s, e)
    ensures |InSlots(Next(s, e))| <= s.concurrency
  {
    var before, after := InSlots(s), InSlots(Next(s, e));
    if e.Begin? {
      assert after == before + {s.loop.c};
    } else {
      assert after <= before;
      Subset(after, before);
    }
  }

  lemma NextKeepsKnown(s: State, e: Event)
    requires Known(s) && Enabled(s, e)
    ensures Known(Next(s, e))
  {
  }

  lemma NextKeepsCalls(s: State, e: Event, c: Ticket)
    requires Known(s) && Enabled(s, e) && c in Next(s, e).recs
    requires c in s.recs ==> Calls(s, c) == Due(s, c)
    ensures Calls(Next(s, e), c) == Due(Next(s, e), c)
  {
  }

  lemma NextKeepsInv(s: State, e: Event)
    requires Inv(s) && Enabled(s, e)
    ensures Inv(Next(s, e))
  {
    hide Known, Enabled, Next, Calls, Due, IsOpen, InSlots;
    SlotsKept(s, e);
    NextKeepsKnown(s, e);
    forall c | c in Next(s, e).recs ensures Calls(Next(s, e), c) == Due(Next(s, e), c) {
      NextKeepsCalls(s, e, c);
    }
  }

  lemma {:induction false} RunKeepsInv(ss: seq<State>, es: seq<Event>, asked: int, i: nat)
    requires Run(ss, es, asked) && i < |ss|
    ensures Inv(ss[i])
  {
    if i > 0 {
      RunKeepsInv(ss, es, asked, i - 1);
      NextKeepsInv(ss[i - 1], es[i - 1]);
    }
  }

  /** At every moment at most `concurrency` jobs run, and every other unsettled record is the one the loop holds. */
  lemma BoundedConcurrency(ss: seq<State>, es: seq<Event>, asked: int, i: nat)
    requires Run(ss, es, asked) && i < |ss|
    ensures |Running(ss[i])| <= if asked < 1 then 1 else asked
    ensures forall c :: c in ss[i].recs && Calls(ss[i], c) == [] ==>
              c in Running(ss[i]) || ss[i].loop == Offering(c)
  {
    RunKeepsInv(ss, es, asked, i);
    ConcurrencyFixed(ss, es, asked, i);
    Subset(Running(ss[i]), InSlots(ss[i]));
    forall c | c in ss[i].recs && Calls(ss[i], c) == [] ensures IsOpen(ss[i], c) {
      assert Calls(ss[i], c) == Due(ss[i], c);
    }
  }

  lemma {:induction false} ConcurrencyFixed(ss: seq<State>, es: seq<Event>, asked: int, i: nat)
    requires Run(ss, es, asked) && i < |ss|
    ensures ss[i].concurrency == if asked < 1 then 1 else asked
  {
    hide Enabled, Next;
    if i > 0 {
      ConcurrencyFixed(ss, es, asked, i - 1);
      assert ss[i] == Next(ss[i - 1], es[i - 1]);
    }
  }

  /** When Run returns having drained, every record it ever claimed has had exactly one settle call, and the right one. */
  lemma DrainedMeansSettledOnce(ss: seq<State>, es: seq<Event>, asked: int, i: nat, c: Ticket)
    requires Run(ss, es, asked) && i < |ss| && ss[i].loop == Returned(true) && c in ss[i].recs
    ensures Calls(ss[i], c) == [if c in ss[i].ended then Decide(ss[i].recs[c], ss[i].ended[c]) else Release]
  {
    RunKeepsInv(ss, es, asked, i);
    assert Calls(ss[i], c) == Due(ss[i], c);
  }

  /** Even when the wait times out, no record is ever settled twice. */
  lemma NeverSettledTwice(ss: seq<State>, es: seq<Event>, asked: int, i: nat, c: Ticket)
    requires Run(ss, es, asked) && i < |ss|
    ensures |Calls(ss[i], c)| <= 1
  {
    RunKeepsInv(ss, es, asked, i);
    if c in ss[i].recs {
      assert Calls(ss[i], c) == Due(ss[i], c);
    }
  }

  /** What the job `c` can do next by itself: be settled, leave its slot, or be gone. */
  predicate CanMove(s: State, c: Ticket) {
    Enabled(s, Settle(c, Succeeded)) || Enabled(s, Free(c)) || Enabled(s, Finish(c))
  }

  /**
   The loop is never stuck: a claimed record is held back only while as many jobs as were asked for have the slots,
   and draining is held up only by jobs that are not gone, each of which can always move on.
   */
  lemma WaitsOnlyForJobs(ss: seq<State>, es: seq<Event>, asked: int, i: nat)
    requires Run(ss, es, asked) && i < |ss|
    ensures ss[i].loop.Offering? && !Enabled(ss[i], Begin) ==> |InSlots(ss[i])| == if asked < 1 then 1 else asked
    ensures ss[i].loop.Stopping? && !Enabled(ss[i], Drained) ==> ss[i].tasks != map[]
    ensures forall c :: c in ss[i].tasks ==> CanMove(ss[i], c)
  {
    RunKeepsInv(ss, es, asked, i);
    ConcurrencyFixed(ss, es, asked, i);
  }

  // ---- shutting down ----

  /** The loop leaves only after cancellation, and so does a record nobody started. */
  ghost predicate LeavesCancelled(s: State) {
    && (s.loop.Stopping? || s.loop.Returned? ==> s.cancelled)
    && (forall c :: c in s.recs && c !in s.ended && !IsOpen(s, c) ==> s.cancelled)
  }

  lemma NextLeavesCancelled(s: State, e: Event)
    requires LeavesCancelled(s) && Enabled(s, e)
    ensures LeavesCancelled(Next(s, e))
  {
    forall c | c in Next(s, e).recs && c !in Next(s, e).ended && !IsOpen(Next(s, e), c) ensures Next(s, e).cancelled {
      assert c in s.recs && c !in s.ended && !IsOpen(s, c) ==> s.cancelled;
    }
  }

  /** On every run: Run stops, and releases a record unstarted, only once it has been cancelled. */
  lemma {:induction false} StopsOnlyWhenCancelled(ss: seq<State>, es: seq<Event>, asked: int, i: nat)
    requires Run(ss, es, asked) && i < |ss|
    ensures LeavesCancelled(ss[i])
  {
    if i > 0 {
      StopsOnlyWhenCancelled(ss, es, asked, i - 1);
      NextLeavesCancelled(ss[i - 1], es[i - 1]);
    }
  }

  /** Records claimed by the events from `i` up to `j`. */
  function Claims(es: seq<Event>, i: nat, j: nat): nat
    requires i <= j <= |es|
  {
    if i == j then 0 else Claims(es, i, j - 1) + (if es[j - 1].Claim? then 1 else 0)
  }

  /** Once cancelled, Run claims at most the one record it was about to claim. */
  lemma {:induction false} OneClaimAfterCancel(ss: seq<State>, es: seq<Event>, asked: int, i: nat, j: nat)
    requires Run(ss, es, asked) && i <= j <= |es| && ss[i].cancelled
    ensures ss[j].cancelled
    ensures Claims(es, i, j) + (if ss[j].loop.Claiming? then 1 else 0) <= if ss[i].loop.Claiming? then 1 else 0
  {
    if i < j {
      OneClaimAfterCancel(ss, es, asked, i, j - 1);
      assert Enabled(ss[j - 1], es[j - 1]) && ss[j] == Next(ss[j - 1], es[j - 1]);
    }
  }
}
