/**
 How many executions of a job MongoDB can come to record.  Fail records the failure before it deletes the job, so a
 worker that dies in between, or is too late for the second write, has recorded an execution it never settled.
 */
module MongoBudget {
  import opened Jobs
  import opened Books
  import opened Rows
  import opened MongoQueue
  import opened MongoRuns
  import opened MongoRefines
  import Q = QueueSpec

  /** Claims of `id` that have recorded a failed execution and are still to delete the job. */
  function Begun(reported: map<Ticket, Outcome>, held: map<Ticket, Q.Hold>, id: JobId): (cs: set<Ticket>)
    ensures forall c :: c in cs <==> c in reported && c in held && held[c].rec.id == id && !reported[c].Undecodable?
  {
    set c | c in reported && c in held && held[c].rec.id == id && !reported[c].Undecodable?
  }

  /** Those of them whose reservation has lapsed. */
  ghost function Overdue(w: World, id: JobId): (cs: set<Ticket>)
    ensures forall c :: c in cs <==> c in Begun(w.reported, w.crew.held, id) && !Q.Live(Abstract(w), c)
  {
    set c | c in Begun(w.reported, w.crew.held, id) && !Q.Live(Abstract(w), c)
  }

  /** Fails of `id` cut short: begun, and then the worker died or its reservation lapsed before the job was deleted. */
  ghost function CutShort(w: World, id: JobId): nat {
    Count(w.cut, id) + |Overdue(w, id)|
  }

  /** Executions recorded are those settled, those whose Fail is half done, and those whose worker died half-way. */
  ghost predicate Tally(w: World, id: JobId) {
    Count(w.recorded, id) == Count(w.crew.ran, id) + |Begun(w.reported, w.crew.held, id)| + Count(w.cut, id)
  }

  ghost predicate Tallied(w: World) {
    w.reported.Keys <= w.crew.held.Keys && forall id :: Tally(w, id)
  }

  lemma BegunMore(reported: map<Ticket, Outcome>, held: map<Ticket, Q.Hold>, c: Ticket, outcome: Outcome, id: JobId)
    requires c in held && c !in reported
    ensures |Begun(reported[c := outcome], held, id)| ==
            |Begun(reported, held, id)| + (if held[c].rec.id == id && !outcome.Undecodable? then 1 else 0)
  {
    var before, after := Begun(reported, held, id), Begun(reported[c := outcome], held, id);
    assert after == if held[c].rec.id == id && !outcome.Undecodable? then before + {c} else before;
  }

  lemma BegunLess(reported: map<Ticket, Outcome>, held: map<Ticket, Q.Hold>, c: Ticket, id: JobId)
    requires c in held
    ensures |Begun(Without(reported, c), Without(held, c), id)| ==
            |Begun(reported, held, id)| - (if c in reported && held[c].rec.id == id && !reported[c].Undecodable? then 1 else 0)
  {
    assert Begun(Without(reported, c), Without(held, c), id) == Begun(reported, held, id) - {c};
  }

  lemma BegunSame(reported: map<Ticket, Outcome>, held: map<Ticket, Q.Hold>, held': map<Ticket, Q.Hold>, id: JobId)
    requires forall c :: c in reported ==> (c in held <==> c in held') && (c in held ==> held[c] == held'[c])
    ensures Begun(reported, held', id) == Begun(reported, held, id)
  {
  }

  lemma ReportTallied(w: World, c: Ticket, outcome: Outcome, reason: string, t: int)
    requires Tallied(w) && Enabled(w, Report(c, outcome, reason, t))
    ensures Tallied(DoReport(w, c, outcome, reason, t))
  {
    hide Begun, MongoQueue.Report;
    forall id ensures Tally(DoReport(w, c, outcome, reason, t), id) {
      assert Tally(w, id);
      BegunMore(w.reported, w.crew.held, c, outcome, id);
    }
  }

  /** What settling does to the counts. */
  lemma SettleCounts(w: World, c: Ticket, outcome: Outcome, at: int, reason: string)
    requires Enabled(w, Settle(c, outcome, at, reason))
    ensures var (id, w') := (w.crew.held[c].rec.id, DoSettle(w, c, outcome, at, reason));
            && w'.reported == Without(w.reported, c) && w'.crew.held == Without(w.crew.held, c) && w'.cut == w.cut
            && w'.crew.ran == (if outcome.Undecodable? then w.crew.ran else Bump(w.crew.ran, id))
            && w'.recorded == (if c in w.reported then w.recorded else Bump(w.recorded, id))
            && (c in w.reported ==> w.reported[c] == outcome) && (outcome.Undecodable? ==> c in w.reported)
  {
    hide GiveBack, Remove, Bump;
  }

  lemma SettleTallied(w: World, c: Ticket, outcome: Outcome, at: int, reason: string)
    requires Tallied(w) && Enabled(w, Settle(c, outcome, at, reason))
    ensures Tallied(DoSettle(w, c, outcome, at, reason))
  {
    SettleCounts(w, c, outcome, at, reason);
    var w' := DoSettle(w, c, outcome, at, reason);
    hide Begun, DoSettle, Enabled, Bump;
    forall id ensures Tally(w', id) {
      assert Tally(w, id);
      BegunLess(w.reported, w.crew.held, c, id);
    }
  }

  lemma DropTallied(w: World, c: Ticket)
    requires Tallied(w) && Enabled(w, Drop(c))
    ensures Tallied(DoDrop(w, c))
  {
    hide Begun;
    forall id ensures Tally(DoDrop(w, c), id) {
      assert Tally(w, id);
      BegunLess(w.reported, w.crew.held, c, id);
    }
  }

  /** Any other event records nothing and leaves every begun Fail as it is. */
  lemma OtherTallied(w: World, w': World)
    requires Tallied(w) && w'.reported == w.reported && w'.recorded == w.recorded && w'.cut == w.cut && w'.crew.ran == w.crew.ran
    requires forall c :: c in w.reported ==> c in w'.crew.held && w'.crew.held[c] == w.crew.held[c]
    ensures Tallied(w')
  {
    hide Begun;
    forall id ensures Tally(w', id) {
      assert Tally(w, id);
      BegunSame(w.reported, w.crew.held, w'.crew.held, id);
    }
  }

  lemma NextTallied(w: World, e: Event)
    requires Tallied(w) && Enabled(w, e)
    ensures Tallied(Next(w, e))
  {
    hide Tally, DoReport, DoSettle, DoDrop, GivenBack, Reserve;
    match e
    case Report(c, outcome, reason, t) => ReportTallied(w, c, outcome, reason, t);
    case Settle(c, outcome, at, reason) => SettleTallied(w, c, outcome, at, reason);
    case Drop(c) => DropTallied(w, c);
    case Claim(c, t, pick) => OtherTallied(w, DoClaim(w, c, t, pick));
    case Write(id) => OtherTallied(w, DoWrite(w, id));
    case Clear(id) => OtherTallied(w, DoClear(w, id));
    case _ => OtherTallied(w, Next(w, e));
  }

  lemma {:induction false} RunTallied(ws: seq<World>, es: seq<Event>, i: nat)
    requires Run(ws, es) && i < |ws|
    ensures Tallied(ws[i])
  {
    hide Next, Enabled;
    if i == 0 {
      assert forall id :: Begun(ws[0].reported, ws[0].crew.held, id) == {};
    } else {
      hide Tallied;
      RunTallied(ws, es, i - 1);
      NextTallied(ws[i - 1], es[i - 1]);
    }
  }

  /** At most one Fail of a job is begun by a live claim, and only while the job still has budget. */
  lemma OneLiveFail(w: World, id: JobId)
    requires Q.Inv(Abstract(w)) && id in w.crew.limit
    ensures Count(w.crew.ran, id) + |Begun(w.reported, w.crew.held, id)| <= Budget(w.crew.limit[id]) + |Overdue(w, id)|
  {
    var begun := Begun(w.reported, w.crew.held, id);
    var live := begun - Overdue(w, id);
    assert begun == live + Overdue(w, id);
    if c :| c in live {
      assert Q.Live(Abstract(w), c);
      forall d | d in live ensures d == c {
        assert Q.Live(Abstract(w), d);
      }
      assert live == {c};
    }
  }

  /**
   With timely settlement, a job's recorded executions exceed its budget by at most the number of its Fails that
   were cut short; with none cut short they keep within it.
   */
  lemma RecordedWithinBudget(ws: seq<World>, es: seq<Event>, i: nat, id: JobId)
    requires TimelyRun(ws, es) && i < |ws| && id in ws[i].crew.limit
    ensures Count(ws[i].recorded, id) <= Budget(ws[i].crew.limit[id]) + CutShort(ws[i], id)
  {
    hide Q.Inv, Begun, Overdue, Next, Enabled;
    TimelyPrefix(ws, es, i);
    RunTallied(ws, es, i);
    assert Tally(ws[i], id);
    OneLiveFail(ws[i], id);
  }

  lemma {:induction false} NeverCut(ws: seq<World>, es: seq<Event>, j: JobId, i: nat)
    requires Run(ws, es) && i < |ws|
    requires forall k :: 0 <= k < |es| ==> Q.Plain(Image(ws)[k], Labels(es)[k], Image(ws)[k + 1], j)
    ensures Count(ws[i].cut, j) == 0
  {
    if i > 0 {
      NeverCut(ws, es, j, i - 1);
      var w, e := ws[i - 1], es[i - 1];
      hide DoReport, DoSettle, DoWrite, DoClear, DoClaim;
      if e.Drop? {
        assert Q.Plain(Image(ws)[i - 1], Labels(es)[i - 1], Image(ws)[i], j);
        assert !Q.HeldBy(Abstract(w), e.c, j);
      } else {
        OnlyDropsCut(w, e);
      }
    }
  }

  lemma OnlyDropsCut(w: World, e: Event)
    requires Enabled(w, e) && !e.Drop?
    ensures Next(w, e).cut == w.cut
  {
    hide GiveBack, MongoQueue.Report, Reserve;
  }

  /** An always-failing job that nobody abandons, hands back or overruns: once gone, exactly its budget of executions was recorded. */
  lemma AlwaysFailingRecords(ws: seq<World>, es: seq<Event>, j: JobId, i: nat)
    requires TimelyRun(ws, es) && i < |ws|
    requires forall k :: 0 <= k < |es| ==> Q.Plain(Image(ws)[k], Labels(es)[k], Image(ws)[k + 1], j)
    ensures j in ws[i].crew.limit && j !in ws[i].db.jobs ==> Count(ws[i].recorded, j) == Budget(ws[i].crew.limit[j])
  {
    hide Next, Enabled, Q.Plain;
    MongoAlwaysFailing(ws, es, j, i);
    RunTallied(ws, es, i);
    NeverCut(ws, es, j, i);
    assert Tally(ws[i], j);
    if c :| c in Begun(ws[i].reported, ws[i].crew.held, j) {
      assert Q.HeldBy(Abstract(ws[i]), c, j);
    }
  }

  // ---- the bound is met ----

  ghost predicate Reaches(ws: seq<World>, es: seq<Event>, w: World) {
    TimelyRun(ws, es) && ws[|es|] == w
  }

  ghost predicate Reachable(w: World) {
    exists ws, es :: Reaches(ws, es, w)
  }

  lemma Begins(w: World)
    requires Init(w)
    ensures Reachable(w)
  {
    assert Reaches([w], [], w);
  }

  lemma Onward(w: World, e: Event)
    requires Reachable(w) && Enabled(w, e) && Timely(w, e)
    ensures Reachable(Next(w, e))
  {
    var ws, es :| Reaches(ws, es, w);
    assert Reaches(ws + [Next(w, e)], es + [e], Next(w, e));
  }

  /** A job with a budget of one after `n` executions, each recorded as failed by a worker that died before deleting it. */
  ghost predicate Cut(w: World, n: nat) {
    && w.now == 11 * n && w.timeout == 10 && w.crew.held == map[] && w.reported == map[]
    && w.crew.limit == map[1 := 1] && w.crew.ran == map[] && Count(w.recorded, 1) == n == Count(w.cut, 1)
    && w.db.jobs.Keys == {1}
    && w.db.jobs[1] == Row(1, "", "", n, 1, 0, if n == 0 then None else Some(11 * n - 11), "", 0)
  }

  /** The next execution up to its recorded failure. */
  lemma RunsAndFails(w: World, n: nat) returns (w': World)
    requires Reachable(w) && Cut(w, n)
    ensures Reachable(w') && w'.now == w.now && w'.timeout == 10 && w'.reported == map[0 := Errored]
    ensures w'.crew == w.crew.(held := map[0 := Q.Hold(Record(1, "", "", n + 1, 1, 0, 0, ""), w.now + 11)])
    ensures Count(w'.recorded, 1) == n + 1 && Count(w'.cut, 1) == n
    ensures w'.db.jobs.Keys == {1} && w'.db.jobs[1] == Row(1, "", "", n + 1, 1, 0, Some(w.now), "", 0)
  {
    hide Reachable;
    var claim, report := Claim(0, w.now, Some(1)), Report(0, Errored, "", w.now);
    var w1 := Next(w, claim);
    w' := Next(w1, report);
    assert Enabled(w, claim) && Enabled(w1, report);
    hide Enabled, Next;
    Onward(w, claim);
    Onward(w1, report);
  }

  lemma NoneCut() returns (w: World)
    ensures Reachable(w) && Cut(w, 0)
  {
    w := World(0, 10, Db(map[], map[], 0), map[], map[], map[], map[], map[], {}, Q.Crew(map[], map[], map[], map[]), BLANK);
    hide Reachable;
    var w0, mint := w, MintPush(Record(0, "", "", 0, 1, 0, 0, ""));
    var w1 := Next(w0, mint);
    w := Next(w1, Write(1));
    assert Init(w0) && Enabled(w0, mint) && Enabled(w1, Write(1));
    hide Init, Next, Enabled;
    Begins(w0);
    Onward(w0, mint);
    Onward(w1, Write(1));
  }

  lemma {:induction false} CutOften(n: nat) returns (w: World)
    ensures Reachable(w) && Cut(w, n)
  {
    hide Reachable;
    if n == 0 {
      w := NoneCut();
    } else {
      w := CutOften(n - 1);
      w := RunsAndFails(w, n - 1);
      Onward(w, Drop(0));
      w := Next(w, Drop(0));
      Onward(w, Tick(11 * n));
      w := Next(w, Tick(11 * n));
    }
  }

  /** For every `n` there is a timely run with `n` Fails cut short and just as many executions recorded over budget. */
  lemma CutFailsAddUp(n: nat) returns (w: World)
    ensures Reachable(w) && w.crew.limit == map[1 := 1] && CutShort(w, 1) == n
    ensures Count(w.recorded, 1) == Budget(1) + n
  {
    hide Reachable;
    w := CutOften(n);
    w := RunsAndFails(w, n);
    Onward(w, Settle(0, Errored, 0, ""));
    w := Next(w, Settle(0, Errored, 0, ""));
    assert Overdue(w, 1) == {};
  }

  ghost predicate AlwaysWithin(n: nat, over: nat) {
    forall ws: seq<World>, es: seq<Event>, i: nat, id ::
      TimelyRun(ws, es) && i < |ws| && id in ws[i].crew.limit && CutShort(ws[i], id) <= n ==>
        Count(ws[i].recorded, id) <= Budget(ws[i].crew.limit[id]) + over
  }

  /**
   Exactly: if at most `n` Fails of any job are cut short, every timely run stays within the budget plus `over`
   when, and only when, `n` is at most `over`.  So the budget itself is kept exactly when no Fail is cut short.
   */
  lemma BudgetExactly(n: nat, over: nat)
    ensures AlwaysWithin(n, over) <==> n <= over
  {
    if n <= over {
      forall ws: seq<World>, es: seq<Event>, i: nat, id | TimelyRun(ws, es) && i < |ws| && id in ws[i].crew.limit && CutShort(ws[i], id) <= n
        ensures Count(ws[i].recorded, id) <= Budget(ws[i].crew.limit[id]) + over
      {
        RecordedWithinBudget(ws, es, i, id);
      }
    } else {
      var w := CutFailsAddUp(n);
      var ws: seq<World>, es: seq<Event> :| Reaches(ws, es, w);
      assert ws[|es|].crew.limit[1] == 1;
    }
  }
}
