/** How many migrations each command applies or undoes, and when rolling back several batches undoes several Ups. */
module MigrateBatches {
  import opened Jobs
  import opened Migrate
  import opened MigrateRuns

  // ---- one Up ----

  /** The ids an Up applies, in order. */
  ghost function Batch(reg: set<Id>, ledger: map<Id, nat>, steps: int, stop: nat): seq<Id> {
    Ascending(reg - ledger.Keys)[..Applied(reg, ledger, steps, stop)]
  }

  /** The ledger with `ids` added under batch `b`. */
  ghost function Recorded(ledger: map<Id, nat>, ids: seq<Id>, b: nat): map<Id, nat> {
    map id | id in ledger.Keys + Elems(ids) :: if id in ids then b else ledger[id]
  }

  lemma InElems(ids: seq<Id>, id: Id)
    ensures id in ids <==> id in Elems(ids)
  {
  }

  lemma ApplyLedger<S>(code: Code<S>, db: Db<S>, ids: seq<Id>, b: nat)
    ensures Apply(code, db, ids, b).ledger == Recorded(db.ledger, ids, b)
  {
    ApplyRecords(code, db, ids, b);
  }

  /**
   How far an Up gets: to the end of what is pending, to `steps` migrations when that is positive and fewer, or to the
   failure; it reports success exactly when no failure came first; it applies the lowest pending ids under one batch
   number above all others, and changes no other entry.
   */
  lemma UpExactly<S>(code: Code<S>, reg: set<Id>, steps: int, stop: nat, db: Db<S>)
    ensures var pending := reg - db.ledger.Keys;
            var planned := if 0 < steps && steps < |pending| then steps else |pending|;
            var ids := Batch(reg, db.ledger, steps, stop);
            var (db', ok) := DoUp(code, reg, steps, stop, db);
            && |ids| == (if stop < planned then stop else planned) && (ok <==> planned <= stop)
            && Elems(ids) <= pending && |Elems(ids)| == |ids| && db'.ledger == Recorded(db.ledger, ids, TopBatch(db.ledger) + 1)
            && (forall a, p :: a in ids && p in pending && p !in ids ==> a < p)
  {
    hide Batch, TopBatch, DoUp, Elems, Recorded, Planned;
    PlannedLength(reg, db.ledger, steps);
    BatchLength(reg, db.ledger, steps, stop);
    BatchIsLowest(reg, db.ledger, steps, stop);
    UpReports(code, reg, steps, stop, db);
    UpLedger(code, reg, steps, stop, db);
  }

  lemma UpLedger<S>(code: Code<S>, reg: set<Id>, steps: int, stop: nat, db: Db<S>)
    ensures DoUp(code, reg, steps, stop, db).0.ledger == Recorded(db.ledger, Batch(reg, db.ledger, steps, stop), TopBatch(db.ledger) + 1)
  {
    hide Apply, TopBatch, DoUp, Batch, Recorded;
    UpIsBatch(code, reg, steps, stop, db);
    ApplyLedger(code, db, Batch(reg, db.ledger, steps, stop), TopBatch(db.ledger) + 1);
  }

  lemma UpIsBatch<S>(code: Code<S>, reg: set<Id>, steps: int, stop: nat, db: Db<S>)
    ensures DoUp(code, reg, steps, stop, db).0 == Apply(code, db, Batch(reg, db.ledger, steps, stop), TopBatch(db.ledger) + 1)
  {
    hide Apply, TopBatch, Ascending, DoUp, Applied;
    UpApplies(code, reg, steps, stop, db);
  }

  lemma BatchLength(reg: set<Id>, ledger: map<Id, nat>, steps: int, stop: nat)
    ensures |Batch(reg, ledger, steps, stop)| == Least(stop, |Planned(reg, ledger, steps)|)
  {
    hide Ascending, Applied, Planned;
    AppliedLength(reg, ledger, steps, stop);
  }

  lemma BatchIsLowest(reg: set<Id>, ledger: map<Id, nat>, steps: int, stop: nat)
    ensures var ids, pending := Batch(reg, ledger, steps, stop), reg - ledger.Keys;
            && Elems(ids) <= pending && |Elems(ids)| == |ids|
            && (forall a, p :: a in ids && p in pending && p !in ids ==> a < p)
  {
    hide Ascending, Applied, Elems;
    TakesLowest(reg - ledger.Keys, Applied(reg, ledger, steps, stop));
  }

  lemma UpReports<S>(code: Code<S>, reg: set<Id>, steps: int, stop: nat, db: Db<S>)
    ensures DoUp(code, reg, steps, stop, db).1 <==> |Planned(reg, db.ledger, steps)| <= stop
  {
  }

  lemma AppliedLength(reg: set<Id>, ledger: map<Id, nat>, steps: int, stop: nat)
    ensures Applied(reg, ledger, steps, stop) == Least(stop, |Planned(reg, ledger, steps)|)
  {
  }

  lemma PlannedLength(reg: set<Id>, ledger: map<Id, nat>, steps: int)
    ensures |Planned(reg, ledger, steps)| == if 0 < steps < |reg - ledger.Keys| then steps else |reg - ledger.Keys|
  {
  }

  /** The first ids in order are the lowest. */
  lemma TakesLowest(ids: set<Id>, n: nat)
    requires n <= |ids|
    ensures var taken := Ascending(ids)[..n];
            && Elems(taken) <= ids && |Elems(taken)| == n
            && (forall a, p :: a in taken && p in ids && p !in taken ==> a < p)
  {
    var all := Ascending(ids);
    AscendingIncreases(ids);
    forall x ensures x in all <==> x in ids {
      InElems(all, x);
    }
    hide Ascending;
    FrontIsLowest(all, n);
    DistinctElems(all[..n]);
    forall x ensures x in all[..n] <==> x in Elems(all[..n]) {
      InElems(all[..n], x);
    }
    hide Elems;
  }

  lemma FrontIsLowest(all: seq<Id>, n: nat)
    requires Increasing(all) && n <= |all|
    ensures Increasing(all[..n]) && forall x :: x in all[..n] ==> x in all
    ensures forall a, p :: a in all[..n] && p in all && p !in all[..n] ==> a < p
  {
    assert all == all[..n] + all[n..];
    forall a, p | a in all[..n] && p in all && p !in all[..n] ensures a < p {
      var i :| 0 <= i < n && all[..n][i] == a;
      var j :| 0 <= j < |all[n..]| && all[n..][j] == p;
      assert all[i] == a && all[n + j] == p;
    }
  }

  ghost predicate NoRepeats(ids: seq<Id>) {
    forall i, j :: 0 <= i < j < |ids| ==> ids[i] != ids[j]
  }

  lemma {:induction false} DistinctElems(ids: seq<Id>)
    requires NoRepeats(ids)
    ensures |Elems(ids)| == |ids|
  {
    if ids == [] {
      assert Elems(ids) == {};
    } else {
      var front, x := ids[..|ids| - 1], ids[|ids| - 1];
      DistinctElems(front);
      assert ids == front + [x];
      assert Elems(ids) == Elems(front) + {x};
      InElems(front, x);
    }
  }

  // ---- batch numbers, over any history ----

  lemma {:induction false} UndoLedger<S>(code: Code<S>, db: Db<S>, ids: seq<Id>)
    requires Undoable(code, ids)
    ensures Undo(code, db, ids).ledger == db.ledger - Elems(ids)
    decreases |ids|
  {
    if ids == [] {
      assert Elems(ids) == {};
    } else {
      UndoLedger(code, UndoOne(code, db, ids[0]), ids[1..]);
      ElemsCons(ids[0], ids[1..]);
      assert ids == [ids[0]] + ids[1..];
      hide Elems;
      assert Without(db.ledger, ids[0]) - Elems(ids[1..]) == db.ledger - ({ids[0]} + Elems(ids[1..]));
    }
  }

  lemma RollbackLedger<S>(code: Code<S>, reg: set<Id>, batches: int, stop: nat, db: Db<S>)
    ensures var plan := Descending(Targets(db.ledger, TopBatch(db.ledger), batches));
            var n := Reach(code, reg, plan, stop);
            DoRollback(code, reg, batches, stop, db).0.ledger == db.ledger - Elems(plan[..n])
  {
    hide Descending, Targets, TopBatch, Elems, Undo, Reach;
    var plan := Descending(Targets(db.ledger, TopBatch(db.ledger), batches));
    UndoLedger(code, db, plan[..Reach(code, reg, plan, stop)]);
  }

  lemma UpKeepsNumbered<S>(code: Code<S>, reg: set<Id>, steps: int, stop: nat, db: Db<S>)
    requires Numbered(db.ledger)
    ensures Numbered(DoUp(code, reg, steps, stop, db).0.ledger)
  {
    UpLedger(code, reg, steps, stop, db);
    hide DoUp, Batch, TopBatch;
  }

  lemma RollbackKeepsNumbered<S>(code: Code<S>, reg: set<Id>, batches: int, stop: nat, db: Db<S>)
    requires Numbered(db.ledger)
    ensures Numbered(DoRollback(code, reg, batches, stop, db).0.ledger)
  {
    RollbackLedger(code, reg, batches, stop, db);
    hide DoRollback, Descending, TopBatch, Targets, Reach, Elems;
  }

  /** In every history, warned or not, recorded batch numbers start at one. */
  lemma {:induction false} HistoryIsNumbered<S>(code: Code<S>, cs: seq<Command>, initial: S)
    ensures Numbered(After(code, cs, Db(initial, map[])).ledger)
    decreases |cs|
  {
    hide DoUp, DoRollback, Numbered;
    if cs == [] {
      assert Numbered(map[]) by {
        NothingIsNumbered();
      }
    } else {
      HistoryIsNumbered(code, cs[..|cs| - 1], initial);
      var db := After(code, cs[..|cs| - 1], Db(initial, map[]));
      match cs[|cs| - 1]
      case Up(reg, steps, stop) => UpKeepsNumbered(code, reg, steps, stop, db);
      case Rollback(reg, batches, stop) => RollbackKeepsNumbered(code, reg, batches, stop, db);
      case Reset(reg, stop) => RollbackKeepsNumbered(code, reg, TopBatch(db.ledger), stop, db);
      case Refresh(reg, stop, stopUp) =>
        RollbackKeepsNumbered(code, reg, TopBatch(db.ledger), stop, db);
        UpKeepsNumbered(code, reg, 0, stopUp, DoReset(code, reg, stop, db).0);
    }
  }

  lemma NothingIsNumbered()
    ensures Numbered(map[])
  {
  }

  /** A successful Rollback of `batches` batches, one if none is asked for, keeps exactly the entries whose batch is that far below the top. */
  lemma RollbackKeepsExactly<S>(code: Code<S>, reg: set<Id>, batches: int, stop: nat, db: Db<S>)
    requires Numbered(db.ledger)
    ensures var (db', ok) := DoRollback(code, reg, batches, stop, db);
            var count := if batches <= 0 then 1 else batches;
            ok ==> db'.ledger == map id | id in db.ledger && db.ledger[id] <= TopBatch(db.ledger) - count :: db.ledger[id]
  {
    hide Descending, TopBatch, Reach, Undo;
    RollbackLedger(code, reg, batches, stop, db);
    var plan := Descending(Targets(db.ledger, TopBatch(db.ledger), batches));
    assert plan[..|plan|] == plan;
    hide Elems;
  }

  /** A successful Reset, after any history, leaves nothing applied. */
  lemma ResetEmpties<S>(code: Code<S>, reg: set<Id>, stop: nat, db: Db<S>)
    requires Numbered(db.ledger)
    ensures DoReset(code, reg, stop, db).1 ==> DoReset(code, reg, stop, db).0.ledger == map[]
  {
    RollbackKeepsExactly(code, reg, TopBatch(db.ledger), stop, db);
    assert IsTop(TopBatch(db.ledger), db.ledger);
    hide DoRollback, TopBatch;
  }

  /** A successful Refresh leaves exactly the registered migrations applied, all in batch one. */
  lemma RefreshAppliesAll<S>(code: Code<S>, reg: set<Id>, stop: nat, stopUp: nat, db: Db<S>)
    requires Numbered(db.ledger)
    ensures var (db', ok) := DoRefresh(code, reg, stop, stopUp, db);
            ok ==> db'.ledger == OneBatch(reg)
  {
    hide DoUp, DoReset, Numbered;
    ResetEmpties(code, reg, stop, db);
    var emptied := DoReset(code, reg, stop, db).0;
    if DoReset(code, reg, stop, db).1 {
      UpFromNothing(code, reg, stopUp, emptied);
    }
  }

  /** Every id of `reg` in batch one. */
  function OneBatch(reg: set<Id>): map<Id, nat> { map id | id in reg :: 1 }

  /** An Up without a limit, from an empty ledger. */
  lemma UpFromNothing<S>(code: Code<S>, reg: set<Id>, stop: nat, db: Db<S>)
    requires db.ledger == map[]
    ensures var (db', ok) := DoUp(code, reg, 0, stop, db);
            ok ==> db'.ledger == OneBatch(reg)
  {
    hide DoUp, Batch, TopBatch, Recorded, Planned;
    UpReports(code, reg, 0, stop, db);
    UpLedger(code, reg, 0, stop, db);
    if DoUp(code, reg, 0, stop, db).1 {
      BatchFromNothing(reg, stop);
    }
  }

  lemma BatchFromNothing(reg: set<Id>, stop: nat)
    requires |Planned(reg, map[], 0)| <= stop
    ensures Recorded(map[], Batch(reg, map[], 0, stop), TopBatch(map[]) + 1) == OneBatch(reg)
  {
    hide Batch, TopBatch, Elems, Recorded, Planned;
    var none: map<Id, nat> := map[];
    assert reg - none.Keys == reg;
    PlannedLength(reg, none, 0);
    BatchLength(reg, none, 0, stop);
    BatchIsLowest(reg, none, 0, stop);
    AllRecorded(reg, Batch(reg, none, 0, stop));
  }

  lemma AllRecorded(reg: set<Id>, ids: seq<Id>)
    requires Elems(ids) <= reg && |Elems(ids)| == |reg|
    ensures Recorded(map[], ids, TopBatch(map[]) + 1) == OneBatch(reg)
  {
    WholeSubset(Elems(ids), reg);
    assert IsTop(TopBatch(map[]), map[]);
    forall id ensures id in ids <==> id in reg {
      InElems(ids, id);
    }
    hide Elems, TopBatch;
  }

  lemma WholeSubset<T>(a: set<T>, b: set<T>)
    requires a <= b && |a| == |b|
    ensures a == b
  {
    assert b == a + (b - a);
  }

  // ---- how far a rollback gets ----

  ghost predicate Decreasing(ids: seq<Id>) {
    forall i, j :: 0 <= i < j < |ids| ==> ids[i] > ids[j]
  }

  lemma ConsDecreases(m: Id, rest: seq<Id>)
    requires Decreasing(rest) && forall j :: 0 <= j < |rest| ==> m > rest[j]
    ensures Decreasing([m] + rest)
  {
  }

  lemma {:induction false} DescendingDecreases(ids: set<Id>)
    ensures Decreasing(Descending(ids))
  {
    if ids != {} {
      hide Decreasing;
      var m := Max(ids);
      var rest := Descending(ids - {m});
      DescendingDecreases(ids - {m});
      forall j | 0 <= j < |rest| ensures m > rest[j] {
        InElems(rest, rest[j]);
      }
      ConsDecreases(m, rest);
    }
  }

  lemma {:induction false} ReachExactly<S>(code: Code<S>, reg: set<Id>, ids: seq<Id>, stop: nat, p: nat)
    requires p < |ids|
    ensures p < Reach(code, reg, ids, stop) <==> p < stop && forall q :: 0 <= q <= p ==> ids[q] in reg && code(ids[q]).down.Some?
    decreases p
  {
    if p > 0 && stop > 0 && !Blocked(code, reg, ids[0]) {
      ReachExactly(code, reg, ids[1..], stop - 1, p - 1);
      assert forall q :: 0 < q <= p ==> ids[q] == ids[1..][q - 1];
      assert forall q :: 0 <= q < p ==> ids[1..][q] == ids[q + 1];
    }
  }

  /** `id` and everything in `ids` above it. */
  function From(ids: set<Id>, id: Id): set<Id> { set k | k in ids && k >= id }

  lemma FrontOfDescending(ids: set<Id>, p: nat)
    requires p < |ids|
    ensures From(ids, Descending(ids)[p]) == Elems(Descending(ids)[..p + 1]) && |From(ids, Descending(ids)[p])| == p + 1
  {
    var plan := Descending(ids);
    DescendingDecreases(ids);
    hide Descending;
    forall k ensures k in From(ids, plan[p]) <==> k in Elems(plan[..p + 1]) {
      InElems(plan, k);
      InElems(plan[..p + 1], k);
    }
    DistinctElems(plan[..p + 1]);
    hide Elems, From;
  }

  /** Whether a rollback of `targets` gets as far as undoing `id`: nothing from `id` up lacks code or a Down, and the step that fails comes later. */
  ghost predicate Reached<S>(code: Code<S>, reg: set<Id>, targets: set<Id>, stop: nat, id: Id) {
    |From(targets, id)| <= stop && forall k :: k in From(targets, id) ==> k in reg && code(k).down.Some?
  }

  lemma AllOfFront<S>(code: Code<S>, reg: set<Id>, ids: seq<Id>, p: nat)
    requires p < |ids|
    ensures (forall q :: 0 <= q <= p ==> ids[q] in reg && code(ids[q]).down.Some?)
       <==> (forall k :: k in Elems(ids[..p + 1]) ==> k in reg && code(k).down.Some?)
  {
    forall q | 0 <= q <= p ensures ids[q] in Elems(ids[..p + 1]) {
      assert ids[..p + 1][q] == ids[q];
    }
  }

  lemma ReachedAt<S>(code: Code<S>, reg: set<Id>, targets: set<Id>, stop: nat, p: nat)
    requires p < |targets|
    ensures p < Reach(code, reg, Descending(targets), stop) <==> Reached(code, reg, targets, stop, Descending(targets)[p])
  {
    var plan := Descending(targets);
    hide Descending, Reach, From, Elems;
    ReachExactly(code, reg, plan, stop, p);
    FrontOfDescending(targets, p);
    AllOfFront(code, reg, plan, p);
  }

  lemma UndoneExactly<S>(code: Code<S>, reg: set<Id>, targets: set<Id>, stop: nat, id: Id)
    ensures var plan := Descending(targets);
            id in plan[..Reach(code, reg, plan, stop)] <==> id in targets && Reached(code, reg, targets, stop, id)
  {
    var plan := Descending(targets);
    var n := Reach(code, reg, plan, stop);
    DescendingDecreases(targets);
    InElems(plan, id);
    hide Descending, Reach, Reached, Elems;
    if id in plan {
      var p :| 0 <= p < |plan| && plan[p] == id;
      ReachedAt(code, reg, targets, stop, p);
      assert p < n ==> plan[..n][p] == id;
      assert forall q :: 0 <= q < n ==> plan[..n][q] == plan[q];
    } else {
      assert forall q :: 0 <= q < n ==> plan[..n][q] == plan[q];
    }
  }

  /**
   Wherever a Rollback stops, it has undone exactly the ids of the batches asked for that it reached from the highest
   down, and has left every other entry; it reports success exactly when nothing was in its way.
   */
  lemma RollbackExactly<S>(code: Code<S>, reg: set<Id>, batches: int, stop: nat, db: Db<S>)
    ensures var targets := Targets(db.ledger, TopBatch(db.ledger), batches);
            var (db', ok) := DoRollback(code, reg, batches, stop, db);
            && (forall id :: id in db'.ledger <==> id in db.ledger && !(id in targets && Reached(code, reg, targets, stop, id)))
            && (forall id :: id in db'.ledger ==> db'.ledger[id] == db.ledger[id])
            && (ok <==> |targets| <= stop && forall id :: id in targets ==> id in reg && code(id).down.Some?)
  {
    var targets := Targets(db.ledger, TopBatch(db.ledger), batches);
    var plan := Descending(targets);
    var n := Reach(code, reg, plan, stop);
    RollbackSucceeds(code, reg, targets, stop);
    hide Descending, Targets, TopBatch, Reached, Undo;
    RollbackLedger(code, reg, batches, stop, db);
    hide Reach;
    forall id ensures id in plan[..n] <==> id in targets && Reached(code, reg, targets, stop, id) {
      UndoneExactly(code, reg, targets, stop, id);
    }
    forall id ensures id in Elems(plan[..n]) <==> id in plan[..n] {
      InElems(plan[..n], id);
    }
    hide Elems;
  }

  lemma RollbackSucceeds<S>(code: Code<S>, reg: set<Id>, targets: set<Id>, stop: nat)
    ensures var plan := Descending(targets);
            Reach(code, reg, plan, stop) == |plan| <==> |targets| <= stop && forall id :: id in targets ==> id in reg && code(id).down.Some?
  {
    var plan := Descending(targets);
    forall id ensures id in plan <==> id in targets {
      InElems(plan, id);
    }
    hide Descending, Elems;
    if plan != [] {
      ReachExactly(code, reg, plan, stop, |plan| - 1);
    }
  }

  // ---- several Ups, and as many batches rolled back ----

  datatype Call = Call(reg: set<Id>, steps: int, stop: nat)

  ghost function Ups<S>(code: Code<S>, calls: seq<Call>, db: Db<S>): Db<S>
    decreases |calls|
  {
    if calls == [] then db else Ups(code, calls[1..], DoUp(code, calls[0].reg, calls[0].steps, calls[0].stop, db).0)
  }

  ghost function BatchOf(call: Call, ledger: map<Id, nat>): seq<Id> {
    Batch(call.reg, ledger, call.steps, call.stop)
  }

  ghost function LedgerAfter(call: Call, ledger: map<Id, nat>): map<Id, nat> {
    Recorded(ledger, BatchOf(call, ledger), TopBatch(ledger) + 1)
  }

  /** All the ids the calls apply, in the order they apply them. */
  ghost function Order(calls: seq<Call>, ledger: map<Id, nat>): seq<Id>
    decreases |calls|
  {
    if calls == [] then [] else BatchOf(calls[0], ledger) + Order(calls[1..], LedgerAfter(calls[0], ledger))
  }

  /** Every call applies something. */
  ghost predicate EachApplies(calls: seq<Call>, ledger: map<Id, nat>)
    decreases |calls|
  {
    calls == [] || (BatchOf(calls[0], ledger) != [] && EachApplies(calls[1..], LedgerAfter(calls[0], ledger)))
  }

  ghost function UpAll<S>(code: Code<S>, s: S, ids: seq<Id>): S
    decreases |ids|
  {
    if ids == [] then s else UpAll(code, code(ids[0]).up(s), ids[1..])
  }

  ghost function DownAll<S>(code: Code<S>, s: S, ids: seq<Id>): S
    requires Undoable(code, ids)
    decreases |ids|
  {
    if ids == [] then s else DownAll(code, code(ids[0]).down.value(s), ids[1..])
  }

  lemma {:induction false} ApplySchema<S>(code: Code<S>, db: Db<S>, ids: seq<Id>, b: nat)
    ensures Apply(code, db, ids, b).schema == UpAll(code, db.schema, ids)
    decreases |ids|
  {
    if ids != [] {
      ApplySchema(code, ApplyOne(code, db, ids[0], b), ids[1..], b);
    }
  }

  lemma {:induction false} UndoSchema<S>(code: Code<S>, db: Db<S>, ids: seq<Id>)
    requires Undoable(code, ids)
    ensures Undo(code, db, ids).schema == DownAll(code, db.schema, ids)
    decreases |ids|
  {
    if ids != [] {
      UndoSchema(code, UndoOne(code, db, ids[0]), ids[1..]);
    }
  }

  lemma {:induction false} UpAllJoin<S>(code: Code<S>, s: S, a: seq<Id>, b: seq<Id>)
    ensures UpAll(code, s, a + b) == UpAll(code, UpAll(code, s, a), b)
    decreases |a|
  {
    if a == [] {
      assert a + b == b;
    } else {
      assert (a + b)[1..] == a[1..] + b;
      UpAllJoin(code, code(a[0]).up(s), a[1..], b);
    }
  }

  /** A new batch on top. */
  lemma TopAfter(call: Call, ledger: map<Id, nat>)
    requires BatchOf(call, ledger) != []
    ensures TopBatch(LedgerAfter(call, ledger)) == TopBatch(ledger) + 1
  {
    var ids := BatchOf(call, ledger);
    hide TopBatch, Batch;
    InElems(ids, ids[0]);
    forall id | id in LedgerAfter(call, ledger) && id !in ids ensures id in ledger {
      InElems(ids, id);
    }
    assert LedgerAfter(call, ledger)[ids[0]] == TopBatch(ledger) + 1;
    TopIsUnique(TopBatch(ledger) + 1, TopBatch(LedgerAfter(call, ledger)), LedgerAfter(call, ledger));
  }

  /** What several Ups leave: the schema by their ids in order of application, old entries as they were, new ones in as many new batches. */
  ghost predicate Stacked(ledger: map<Id, nat>, order: seq<Id>, top: nat, ledger': map<Id, nat>) {
    && ledger'.Keys == ledger.Keys + Elems(order)
    && (forall id :: id in ledger ==> ledger'[id] == ledger[id])
    && (forall id :: id in order ==> id !in ledger && ledger'[id] > top)
  }

  lemma RecordedStacks(ledger: map<Id, nat>, ids: seq<Id>, top: nat)
    requires Elems(ids) !! ledger.Keys
    ensures Stacked(ledger, ids, top, Recorded(ledger, ids, top + 1))
  {
    forall id ensures id in ids <==> id in Elems(ids) {
      InElems(ids, id);
    }
    hide Elems;
  }

  lemma OneUp<S>(code: Code<S>, call: Call, db: Db<S>)
    ensures var db' := DoUp(code, call.reg, call.steps, call.stop, db).0;
            && db'.ledger == LedgerAfter(call, db.ledger) && db'.schema == UpAll(code, db.schema, BatchOf(call, db.ledger))
            && Stacked(db.ledger, BatchOf(call, db.ledger), TopBatch(db.ledger), db'.ledger)
  {
    hide DoUp, TopBatch, Apply, UpAll, Elems, Recorded, Stacked, Batch;
    var ids := BatchOf(call, db.ledger);
    BatchIsLowest(call.reg, db.ledger, call.steps, call.stop);
    UpLedger(code, call.reg, call.steps, call.stop, db);
    UpIsBatch(code, call.reg, call.steps, call.stop, db);
    ApplySchema(code, db, ids, TopBatch(db.ledger) + 1);
    RecordedStacks(db.ledger, ids, TopBatch(db.ledger));
  }

  lemma StackedJoin(ledger: map<Id, nat>, a: seq<Id>, mid: map<Id, nat>, b: seq<Id>, ledger': map<Id, nat>, top: nat)
    requires Stacked(ledger, a, top, mid) && Stacked(mid, b, top + 1, ledger')
    ensures Stacked(ledger, a + b, top, ledger')
  {
    forall id ensures id in Elems(a + b) <==> id in Elems(a) || id in Elems(b) {
      InElems(a + b, id);
      InElems(a, id);
      InElems(b, id);
    }
    forall id | id in a ensures id in mid {
      InElems(a, id);
    }
    forall id | id in b ensures id !in ledger {
      InElems(b, id);
    }
  }

  lemma UpsCons<S>(code: Code<S>, calls: seq<Call>, db: Db<S>)
    requires EachApplies(calls, db.ledger) && calls != []
    ensures var ids, mid := BatchOf(calls[0], db.ledger), LedgerAfter(calls[0], db.ledger);
            && ids != [] && EachApplies(calls[1..], mid) && Order(calls, db.ledger) == ids + Order(calls[1..], mid)
            && Ups(code, calls, db) == Ups(code, calls[1..], DoUp(code, calls[0].reg, calls[0].steps, calls[0].stop, db).0)
  {
  }

  lemma {:induction false} UpsStack<S>(code: Code<S>, calls: seq<Call>, db: Db<S>)
    requires EachApplies(calls, db.ledger)
    ensures var db' := Ups(code, calls, db);
            && db'.schema == UpAll(code, db.schema, Order(calls, db.ledger))
            && Stacked(db.ledger, Order(calls, db.ledger), TopBatch(db.ledger), db'.ledger)
            && TopBatch(db'.ledger) == TopBatch(db.ledger) + |calls|
    decreases |calls|
  {
    if calls == [] {
      assert Elems([]) == {};
    } else {
      UpsCons(code, calls, db);
      hide DoUp, TopBatch, Stacked, UpAll, BatchOf, LedgerAfter, Elems, Ups, Order, EachApplies;
      var mid := DoUp(code, calls[0].reg, calls[0].steps, calls[0].stop, db).0;
      var ids, rest := BatchOf(calls[0], db.ledger), Order(calls[1..], mid.ledger);
      OneUp(code, calls[0], db);
      TopAfter(calls[0], db.ledger);
      UpsStack(code, calls[1..], mid);
      UpAllJoin(code, db.schema, ids, rest);
      StackedJoin(db.ledger, ids, mid.ledger, rest, Ups(code, calls, db).ledger, TopBatch(db.ledger));
    }
  }

  /** The last `k` batches are exactly what the `k` Ups applied. */
  lemma TargetsAreOrder(ledger: map<Id, nat>, order: seq<Id>, top: nat, ledger': map<Id, nat>, k: nat)
    requires Stacked(ledger, order, top, ledger') && IsTop(top, ledger) && k > 0
    ensures Targets(ledger', top + k, k) == Elems(order)
  {
    forall id ensures id in Targets(ledger', top + k, k) <==> id in Elems(order) {
      InElems(order, id);
    }
  }

  /**
   A successful Rollback of as many batches as there were Ups, each of which applied something: the ledger is as it
   was before the first of them, and the schema is the Downs run on what the Ups made, highest id first.
   */
  lemma RollbackUndoesBatches<S>(code: Code<S>, calls: seq<Call>, db: Db<S>, reg: set<Id>, stop: nat)
    requires EachApplies(calls, db.ledger) && calls != []
    requires DoRollback(code, reg, |calls|, stop, Ups(code, calls, db)).1
    ensures var order := Order(calls, db.ledger);
            var plan := Descending(Elems(order));
            var db' := DoRollback(code, reg, |calls|, stop, Ups(code, calls, db)).0;
            && db'.ledger == db.ledger && Undoable(code, plan)
            && db'.schema == DownAll(code, UpAll(code, db.schema, order), plan)
  {
    hide Undo, Descending, TopBatch, Targets, UpAll, DownAll, Order, Ups, Undoable, DoRollback, EachApplies, Stacked, Elems;
    var order, up := Order(calls, db.ledger), Ups(code, calls, db);
    UpsStack(code, calls, db);
    TargetsAreOrder(db.ledger, order, TopBatch(db.ledger), up.ledger, |calls|);
    SuccessUndoesAll(code, reg, |calls|, stop, up);
    var plan := Descending(Elems(order));
    UndoLedger(code, up, plan);
    UndoSchema(code, up, plan);
    StackTakenOff(db.ledger, order, TopBatch(db.ledger), up.ledger);
  }

  lemma StackTakenOff(ledger: map<Id, nat>, order: seq<Id>, top: nat, ledger': map<Id, nat>)
    requires Stacked(ledger, order, top, ledger')
    ensures ledger' - Elems(order) == ledger
  {
    forall id ensures id in order <==> id in Elems(order) {
      InElems(order, id);
    }
    hide Elems;
  }

  /** Downs in descending order undo Ups in ascending order. */
  lemma AscendingIsUndone<S(!new)>(code: Code<S>, s: S, ids: seq<Id>)
    requires Inverts(code) && Increasing(ids) && Undoable(code, Descending(Elems(ids)))
    ensures DownAll(code, UpAll(code, s, ids), Descending(Elems(ids))) == s
  {
    hide Inverts, Increasing, Descending, Apply, Undo, UpAll, DownAll, Undoable, Elems;
    var blank := Db(s, map[]);
    UndoUndoesApply(code, blank, ids, 1);
    ApplySchema(code, blank, ids, 1);
    UndoSchema(code, Apply(code, blank, ids, 1), Descending(Elems(ids)));
  }

  // ---- why ascending: a schema that remembers the order ----

  /** A schema that is the list of what was applied; a Down only takes its own id off the end. */
  function Stack(): Code<seq<Id>> {
    (id: Id) => Migration((s: seq<Id>) => s + [id],
                          Some((s: seq<Id>) => if s != [] && s[|s| - 1] == id then s[..|s| - 1] else s))
  }

  lemma StackInverts()
    ensures Inverts(Stack())
  {
    forall id, s | Stack()(id).down.Some? ensures Back(Stack(), id, s) == s {
      assert (s + [id])[..|s + [id]| - 1] == s;
    }
  }

  lemma {:induction false} StackUps(s: seq<Id>, ids: seq<Id>)
    ensures UpAll(Stack(), s, ids) == s + ids
    decreases |ids|
  {
    if ids == [] {
      assert s + ids == s;
    } else {
      StackUps(s + [ids[0]], ids[1..]);
      assert s + ids == (s + [ids[0]]) + ids[1..];
    }
  }

  /** Every Down takes off at most one id, and all of them succeed only on the reverse of the plan. */
  lemma {:induction false} StackDowns(s: seq<Id>, plan: seq<Id>)
    ensures Undoable(Stack(), plan)
    ensures |DownAll(Stack(), s, plan)| + |plan| >= |s|
    ensures |DownAll(Stack(), s, plan)| + |plan| == |s| ==> forall i :: 0 <= i < |plan| ==> s[|s| - 1 - i] == plan[i]
    decreases |plan|
  {
    if plan != [] {
      var s' := Stack()(plan[0]).down.value(s);
      StackDowns(s', plan[1..]);
      if |DownAll(Stack(), s, plan)| + |plan| == |s| {
        assert s != [] && s[|s| - 1] == plan[0];
        forall i | 0 < i < |plan| ensures s[|s| - 1 - i] == plan[i] {
          assert s'[|s'| - 1 - (i - 1)] == plan[1..][i - 1];
        }
      }
    }
  }

  /** Of that schema, the Downs restore what was there only if the Ups came in ascending order. */
  lemma StackTells(s: seq<Id>, ids: seq<Id>)
    requires |Elems(ids)| == |ids|
    ensures Undoable(Stack(), Descending(Elems(ids)))
    ensures DownAll(Stack(), UpAll(Stack(), s, ids), Descending(Elems(ids))) == s ==> Increasing(ids)
  {
    hide DownAll, UpAll, Stack, Elems, Descending;
    var plan := Descending(Elems(ids));
    StackUps(s, ids);
    StackDowns(s + ids, plan);
    DescendingDecreases(Elems(ids));
    if DownAll(Stack(), s + ids, plan) == s {
      forall i, j | 0 <= i < j < |ids| ensures ids[i] < ids[j] {
        var p, q := |ids| - 1 - j, |ids| - 1 - i;
        assert plan[p] == (s + ids)[|s + ids| - 1 - p] == ids[j];
        assert plan[q] == (s + ids)[|s + ids| - 1 - q] == ids[i];
      }
    }
  }

  lemma {:induction false} OrderIsDistinct(calls: seq<Call>, ledger: map<Id, nat>)
    requires EachApplies(calls, ledger)
    ensures |Elems(Order(calls, ledger))| == |Order(calls, ledger)|
    ensures forall id :: id in Order(calls, ledger) ==> id !in ledger
    decreases |calls|
  {
    if calls == [] {
      assert Elems([]) == {};
    } else {
      var ids, mid := BatchOf(calls[0], ledger), LedgerAfter(calls[0], ledger);
      var rest := Order(calls[1..], mid);
      BatchIsLowest(calls[0].reg, ledger, calls[0].steps, calls[0].stop);
      OrderIsDistinct(calls[1..], mid);
      hide Order, BatchOf, DoUp, TopBatch;
      JoinDistinct(ids, rest, ledger);
    }
  }

  lemma JoinDistinct(a: seq<Id>, b: seq<Id>, ledger: map<Id, nat>)
    requires |Elems(a)| == |a| && |Elems(b)| == |b|
    requires forall id :: id in b ==> id !in ledger.Keys + Elems(a)
    ensures |Elems(a + b)| == |a + b|
  {
    forall id ensures id in Elems(a + b) <==> id in Elems(a) + Elems(b) {
      InElems(a + b, id);
      InElems(a, id);
      InElems(b, id);
    }
    assert Elems(a + b) == Elems(a) + Elems(b);
    assert Elems(a) !! Elems(b);
  }

  /** For every number of Ups that each applied something: rolling back as many batches restores the ledger, and restores the schema if the ids were applied in ascending order throughout. */
  lemma RollbackUndoesUps<S(!new)>(code: Code<S>, calls: seq<Call>, db: Db<S>, reg: set<Id>, stop: nat)
    requires Inverts(code) && EachApplies(calls, db.ledger) && calls != []
    ensures var (db', ok) := DoRollback(code, reg, |calls|, stop, Ups(code, calls, db));
            ok ==> db'.ledger == db.ledger && (Increasing(Order(calls, db.ledger)) ==> db' == db)
  {
    hide DoRollback, Ups, Order, Descending, EachApplies, Increasing, Inverts, UpAll, DownAll, Undoable;
    if DoRollback(code, reg, |calls|, stop, Ups(code, calls, db)).1 {
      RollbackUndoesBatches(code, calls, db, reg, stop);
      if Increasing(Order(calls, db.ledger)) {
        AscendingIsUndone(code, db.schema, Order(calls, db.ledger));
      }
    }
  }

  /** And only then: out of ascending order there is a schema, with Downs that invert their Ups, that a successful rollback does not restore. */
  lemma OnlyAscendingIsRestored(calls: seq<Call>, ledger: map<Id, nat>, schema: seq<Id>, reg: set<Id>, stop: nat)
    requires EachApplies(calls, ledger) && calls != []
    ensures Inverts(Stack())
    ensures var db := Db(schema, ledger);
            var (db', ok) := DoRollback(Stack(), reg, |calls|, stop, Ups(Stack(), calls, db));
            ok ==> (db' == db <==> Increasing(Order(calls, ledger)))
  {
    hide DoRollback, Ups, Order, Descending, EachApplies, Increasing, Inverts, UpAll, DownAll, Undoable, Stack, Elems;
    var db := Db(schema, ledger);
    StackInverts();
    RollbackUndoesUps(Stack(), calls, db, reg, stop);
    if DoRollback(Stack(), reg, |calls|, stop, Ups(Stack(), calls, db)).1 {
      RollbackUndoesBatches(Stack(), calls, db, reg, stop);
      OrderIsDistinct(calls, ledger);
      StackTells(schema, Order(calls, ledger));
    }
  }

  // ---- when the order is ascending ----

  /** No call warns. */
  ghost predicate AllQuiet(calls: seq<Call>, ledger: map<Id, nat>)
    decreases |calls|
  {
    calls == [] || (!Warns(calls[0].reg, ledger) && AllQuiet(calls[1..], LedgerAfter(calls[0], ledger)))
  }

  lemma RecordedKeys(ledger: map<Id, nat>, ids: seq<Id>, b: nat)
    ensures Recorded(ledger, ids, b).Keys == ledger.Keys + Elems(ids)
  {
  }

  lemma BatchAscends(call: Call, ledger: map<Id, nat>)
    ensures Increasing(BatchOf(call, ledger)) && LedgerAfter(call, ledger).Keys == ledger.Keys + Elems(BatchOf(call, ledger))
  {
    hide TopBatch, Ascending, Elems, Increasing, Recorded, Applied;
    RecordedKeys(ledger, BatchOf(call, ledger), TopBatch(ledger) + 1);
    PrefixIncreases(call.reg - ledger.Keys, Applied(call.reg, ledger, call.steps, call.stop));
  }

  lemma QuietBatchIsAbove(call: Call, ledger: map<Id, nat>)
    requires !Warns(call.reg, ledger)
    ensures Above(Elems(BatchOf(call, ledger)), ledger.Keys)
  {
    hide Ascending, Elems, Warns, Above, Applied;
    var pending := call.reg - ledger.Keys;
    TakesLowest(pending, Applied(call.reg, ledger, call.steps, call.stop));
    QuietIsAbove(call.reg, ledger);
    FewerAbove(Elems(BatchOf(call, ledger)), pending, ledger.Keys);
  }

  lemma FewerAbove(fewer: set<Id>, ids: set<Id>, below: set<Id>)
    requires fewer <= ids && Above(ids, below)
    ensures Above(fewer, below)
  {
  }

  /** Ups that do not warn apply ids above everything recorded before them, in ascending order throughout. */
  lemma {:induction false} QuietUpsAscend(calls: seq<Call>, ledger: map<Id, nat>)
    requires AllQuiet(calls, ledger)
    ensures Increasing(Order(calls, ledger)) && Above(Elems(Order(calls, ledger)), ledger.Keys)
    decreases |calls|
  {
    if calls == [] {
      assert Elems([]) == {};
    } else {
      hide BatchOf, LedgerAfter, Warns, Increasing, Above, Elems;
      QuietUpsAscend(calls[1..], LedgerAfter(calls[0], ledger));
      BatchAscends(calls[0], ledger);
      QuietBatchIsAbove(calls[0], ledger);
      AscendOnTop(BatchOf(calls[0], ledger), Order(calls[1..], LedgerAfter(calls[0], ledger)), ledger.Keys);
    }
  }

  lemma AscendOnTop(a: seq<Id>, b: seq<Id>, below: set<Id>)
    requires Increasing(a) && Increasing(b) && Above(Elems(a), below) && Above(Elems(b), below + Elems(a))
    ensures Increasing(a + b) && Above(Elems(a + b), below)
  {
    forall id ensures id in Elems(a + b) ==> id in Elems(a) || id in Elems(b) {
      InElems(a + b, id);
      InElems(a, id);
      InElems(b, id);
    }
    forall i, j | 0 <= i < |a| && 0 <= j < |b| ensures a[i] < b[j] {
      InElems(a, a[i]);
      InElems(b, b[j]);
    }
  }

  /** So when no Up but the first warned, rolling all of them back restores schema and ledger. */
  lemma RollbackUndoesQuietUps<S(!new)>(code: Code<S>, calls: seq<Call>, db: Db<S>, reg: set<Id>, stop: nat)
    requires Inverts(code) && EachApplies(calls, db.ledger) && calls != []
    requires AllQuiet(calls[1..], LedgerAfter(calls[0], db.ledger))
    ensures var (db', ok) := DoRollback(code, reg, |calls|, stop, Ups(code, calls, db));
            ok ==> db' == db
  {
    hide DoRollback, Ups, EachApplies, BatchOf, LedgerAfter, Elems, Inverts, Increasing;
    RollbackUndoesUps(code, calls, db, reg, stop);
    LaterQuietAscends(calls, db.ledger);
  }

  lemma LaterQuietAscends(calls: seq<Call>, ledger: map<Id, nat>)
    requires calls != [] && AllQuiet(calls[1..], LedgerAfter(calls[0], ledger))
    ensures Increasing(Order(calls, ledger))
  {
    hide BatchOf, LedgerAfter, Elems, Increasing, AllQuiet;
    var ids, mid := BatchOf(calls[0], ledger), LedgerAfter(calls[0], ledger);
    QuietUpsAscend(calls[1..], mid);
    BatchAscends(calls[0], ledger);
    FewerBelow(Elems(Order(calls[1..], mid)), Elems(ids), mid.Keys);
    AscendOnTop(ids, Order(calls[1..], mid), {});
  }

  lemma FewerBelow(ids: set<Id>, fewer: set<Id>, below: set<Id>)
    requires fewer <= below && Above(ids, below)
    ensures Above(ids, fewer) && Above(ids, {} + fewer) && Above(fewer, {}) && Above(ids, {})
  {
  }
}
