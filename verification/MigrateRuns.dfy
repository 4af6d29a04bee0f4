/** What holds of the schema and the ledger over any history of the runner's commands. */
module MigrateRuns {
  import opened Jobs
  import opened Migrate

  /** Each Down, where there is one, undoes its Up. */
  ghost predicate Inverts<S(!new)>(code: Code<S>) {
    forall id, s :: code(id).down.Some? ==> Back(code, id, s) == s
  }

  function Back<S>(code: Code<S>, id: Id, s: S): S
    requires code(id).down.Some?
  {
    code(id).down.value(code(id).up(s))
  }

  /** Later ids are never in earlier batches. */
  ghost predicate Ordered(ledger: map<Id, nat>) {
    forall i, j :: i in ledger && j in ledger && i < j ==> ledger[i] <= ledger[j]
  }

  ghost predicate Numbered(ledger: map<Id, nat>) {
    forall id :: id in ledger ==> ledger[id] >= 1
  }

  /** The schema is what the recorded ids make of the initial one, applied in id order. */
  ghost predicate Sound<S>(code: Code<S>, initial: S, db: Db<S>) {
    db.schema == Composed(code, db.ledger.Keys, initial) && Ordered(db.ledger) && Numbered(db.ledger)
  }

  ghost predicate Above(ids: set<Id>, below: set<Id>) {
    forall i, k :: i in ids && k in below ==> k < i
  }

  lemma ComposedAdd<S>(code: Code<S>, ids: set<Id>, id: Id, initial: S)
    requires Above({id}, ids)
    ensures Composed(code, ids + {id}, initial) == code(id).up(Composed(code, ids, initial))
  {
    assert Max(ids + {id}) == id;
    assert ids + {id} - {id} == ids;
  }

  lemma ApplyOneKeepsSound<S>(code: Code<S>, initial: S, db: Db<S>, id: Id, batch: nat)
    requires Sound(code, initial, db) && Above({id}, db.ledger.Keys)
    requires batch >= 1 && forall k :: k in db.ledger ==> db.ledger[k] <= batch
    ensures Sound(code, initial, ApplyOne(code, db, id, batch))
  {
    hide Composed;
    ComposedAdd(code, db.ledger.Keys, id, initial);
    assert ApplyOne(code, db, id, batch).ledger.Keys == db.ledger.Keys + {id};
  }

  lemma {:induction false} AscendingTake(ids: set<Id>, n: nat)
    requires 0 < n <= |ids|
    ensures Ascending(ids)[..n] == [Min(ids)] + Ascending(ids - {Min(ids)})[..n - 1]
  {
    var m := Min(ids);
    AscendingFront(ids, m);
    hide Ascending, Elems;
    assert ([m] + Ascending(ids - {m}))[..n] == [m] + Ascending(ids - {m})[..n - 1];
  }

  lemma {:induction false} ApplyKeepsSound<S>(code: Code<S>, initial: S, db: Db<S>, pending: set<Id>, n: nat, batch: nat)
    requires Sound(code, initial, db) && Above(pending, db.ledger.Keys) && n <= |pending|
    requires batch >= 1 && forall id :: id in db.ledger ==> db.ledger[id] <= batch
    ensures Sound(code, initial, Apply(code, db, Ascending(pending)[..n], batch))
    decreases n
  {
    hide Ascending, Sound, Elems;
    if n > 0 {
      var m := Min(pending);
      AscendingTake(pending, n);
      ApplyOneKeepsSound(code, initial, db, m, batch);
      var next, rest := ApplyOne(code, db, m, batch), Ascending(pending - {m})[..n - 1];
      assert ([m] + rest)[1..] == rest;
      ApplyKeepsSound(code, initial, next, pending - {m}, n - 1, batch);
    }
  }

  /** How many migrations an Up applies: the plan, or as many as come before the one that fails. */
  ghost function Applied(reg: set<Id>, ledger: map<Id, nat>, steps: int, stop: nat): (n: nat)
    ensures n <= |reg - ledger.Keys|
  {
    Least(stop, |Planned(reg, ledger, steps)|)
  }

  /** What Up leaves: the first so many pending ids, in order, under one new batch number. */
  lemma UpApplies<S>(code: Code<S>, reg: set<Id>, steps: int, stop: nat, db: Db<S>)
    ensures DoUp(code, reg, steps, stop, db).0 ==
            Apply(code, db, Ascending(reg - db.ledger.Keys)[..Applied(reg, db.ledger, steps, stop)], TopBatch(db.ledger) + 1)
  {
    hide Apply, Ascending, TopBatch, Elems, Planned;
    PlanIsPrefix(reg, db.ledger, steps, Applied(reg, db.ledger, steps, stop));
  }

  lemma PlanIsPrefix(reg: set<Id>, ledger: map<Id, nat>, steps: int, n: nat)
    requires n <= |Planned(reg, ledger, steps)|
    ensures Planned(reg, ledger, steps)[..n] == Ascending(reg - ledger.Keys)[..n]
  {
  }

  lemma QuietIsAbove(reg: set<Id>, ledger: map<Id, nat>)
    requires !Warns(reg, ledger)
    ensures Above(reg - ledger.Keys, ledger.Keys)
  {
  }

  lemma UpKeepsSound<S>(code: Code<S>, initial: S, reg: set<Id>, steps: int, stop: nat, db: Db<S>)
    requires Sound(code, initial, db) && !Warns(reg, db.ledger)
    ensures Sound(code, initial, DoUp(code, reg, steps, stop, db).0)
  {
    hide Apply, Ascending, Sound, DoUp, Warns, Applied, Above, Elems;
    QuietIsAbove(reg, db.ledger);
    UpApplies(code, reg, steps, stop, db);
    ApplyKeepsSound(code, initial, db, reg - db.ledger.Keys, Applied(reg, db.ledger, steps, stop), TopBatch(db.ledger) + 1);
  }

  lemma UndoOneKeepsSound<S(!new)>(code: Code<S>, initial: S, db: Db<S>, id: Id)
    requires Inverts(code) && Sound(code, initial, db) && IsGreatest(id, db.ledger.Keys) && code(id).down.Some?
    ensures Sound(code, initial, UndoOne(code, db, id))
  {
    hide Composed;
    var rest := db.ledger.Keys - {id};
    ComposedAdd(code, rest, id, initial);
    assert rest + {id} == db.ledger.Keys;
    assert Back(code, id, Composed(code, rest, initial)) == Composed(code, rest, initial);
    assert UndoOne(code, db, id).ledger.Keys == rest;
  }

  lemma {:induction false} DescendingTake(ids: set<Id>, n: nat)
    requires 0 < n <= |ids|
    ensures Descending(ids)[..n] == [Max(ids)] + Descending(ids - {Max(ids)})[..n - 1]
  {
    var m := Max(ids);
    DescendingFront(ids, m);
    hide Descending, Elems;
    assert ([m] + Descending(ids - {m}))[..n] == [m] + Descending(ids - {m})[..n - 1];
  }

  lemma TopComesFirst(top: set<Id>, keys: set<Id>)
    requires top != {} && top <= keys && Above(top, keys - top)
    ensures IsGreatest(Max(top), keys)
    ensures Above(top - {Max(top)}, keys - {Max(top)} - (top - {Max(top)}))
  {
    assert keys - {Max(top)} - (top - {Max(top)}) == keys - top;
    assert forall k :: k in keys ==> k in top || k in keys - top;
  }

  lemma {:induction false} UndoKeepsSound<S(!new)>(code: Code<S>, initial: S, db: Db<S>, top: set<Id>, n: nat)
    requires Inverts(code) && Sound(code, initial, db)
    requires top <= db.ledger.Keys && Above(top, db.ledger.Keys - top)
    requires n <= |top| && Undoable(code, Descending(top)[..n])
    ensures Sound(code, initial, Undo(code, db, Descending(top)[..n]))
    decreases n
  {
    hide Descending, Sound, Inverts, Elems, Above;
    if n > 0 {
      var m := Max(top);
      DescendingTake(top, n);
      var rest := Descending(top - {m})[..n - 1];
      assert ([m] + rest)[0] == m && ([m] + rest)[1..] == rest;
      assert m in [m] + rest && forall id :: id in rest ==> id in [m] + rest;
      TopComesFirst(top, db.ledger.Keys);
      UndoOneKeepsSound(code, initial, db, m);
      UndoKeepsSound(code, initial, UndoOne(code, db, m), top - {m}, n - 1);
    }
  }

  lemma TargetsAreOnTop(ledger: map<Id, nat>, top: nat, batches: int)
    requires Ordered(ledger)
    ensures Targets(ledger, top, batches) <= ledger.Keys
    ensures Above(Targets(ledger, top, batches), ledger.Keys - Targets(ledger, top, batches))
  {
  }

  /** However far it gets. */
  lemma RollbackKeepsSound<S(!new)>(code: Code<S>, initial: S, reg: set<Id>, batches: int, stop: nat, db: Db<S>)
    requires Inverts(code) && Sound(code, initial, db)
    ensures Sound(code, initial, DoRollback(code, reg, batches, stop, db).0)
  {
    var targets := Targets(db.ledger, TopBatch(db.ledger), batches);
    TargetsAreOnTop(db.ledger, TopBatch(db.ledger), batches);
    UndoKeepsSound(code, initial, db, targets, Reach(code, reg, Descending(targets), stop));
  }

  lemma {:induction false} UndoForgets<S>(code: Code<S>, db: Db<S>, ids: seq<Id>)
    requires Undoable(code, ids)
    ensures Undo(code, db, ids).ledger.Keys == db.ledger.Keys - Elems(ids)
    decreases |ids|
  {
    if ids != [] {
      UndoForgets(code, UndoOne(code, db, ids[0]), ids[1..]);
      assert ids == [ids[0]] + ids[1..];
      ElemsCons(ids[0], ids[1..]);
      hide Elems;
    }
  }

  /** A Reset that reports success has emptied the ledger and restored the schema the history began with. */
  lemma ResetRestores<S(!new)>(code: Code<S>, initial: S, reg: set<Id>, stop: nat, db: Db<S>)
    requires Inverts(code) && Sound(code, initial, db) && DoReset(code, reg, stop, db).1
    ensures DoReset(code, reg, stop, db).0 == Db(initial, map[])
  {
    var top := TopBatch(db.ledger);
    var targets := Targets(db.ledger, top, top);
    assert targets == db.ledger.Keys;
    var plan := Descending(targets);
    assert plan[..|plan|] == plan;
    UndoForgets(code, db, plan);
    RollbackKeepsSound(code, initial, reg, top, stop, db);
    var db' := DoReset(code, reg, stop, db).0;
    assert db'.ledger.Keys == {};
    assert db'.ledger == map[];
  }

  // ---- any history ----

  datatype Command =
    | Up(reg: set<Id>, steps: int, stop: nat)
    | Rollback(reg: set<Id>, batches: int, stop: nat)
    | Reset(reg: set<Id>, stop: nat)
    | Refresh(reg: set<Id>, stop: nat, stopUp: nat)

  ghost function Do<S>(code: Code<S>, c: Command, db: Db<S>): Db<S> {
    match c
    case Up(reg, steps, stop) => DoUp(code, reg, steps, stop, db).0
    case Rollback(reg, batches, stop) => DoRollback(code, reg, batches, stop, db).0
    case Reset(reg, stop) => DoReset(code, reg, stop, db).0
    case Refresh(reg, stop, stopUp) => DoRefresh(code, reg, stop, stopUp, db).0
  }

  ghost function After<S>(code: Code<S>, cs: seq<Command>, db: Db<S>): Db<S>
    decreases |cs|
  {
    if cs == [] then db else Do(code, cs[|cs| - 1], After(code, cs[..|cs| - 1], db))
  }

  /** No Up in the history logs the out-of-order warning. */
  ghost predicate Quiet<S>(code: Code<S>, cs: seq<Command>, db: Db<S>) {
    forall i :: 0 <= i < |cs| && cs[i].Up? ==> !Warns(cs[i].reg, After(code, cs[..i], db).ledger)
  }

  lemma RefreshKeepsSound<S(!new)>(code: Code<S>, initial: S, reg: set<Id>, stop: nat, stopUp: nat, db: Db<S>)
    requires Inverts(code) && Sound(code, initial, db)
    ensures Sound(code, initial, DoRefresh(code, reg, stop, stopUp, db).0)
  {
    RollbackKeepsSound(code, initial, reg, TopBatch(db.ledger), stop, db);
    if DoReset(code, reg, stop, db).1 {
      ResetRestores(code, initial, reg, stop, db);
      UpKeepsSound(code, initial, reg, 0, stopUp, DoReset(code, reg, stop, db).0);
    }
  }

  /** Whatever fails along the way, and with the registered code changing between commands: a quiet history keeps the schema equal to the recorded Ups in id order. */
  lemma {:induction false} QuietHistoryIsSound<S(!new)>(code: Code<S>, initial: S, cs: seq<Command>)
    requires Inverts(code) && Quiet(code, cs, Db(initial, map[]))
    ensures Sound(code, initial, After(code, cs, Db(initial, map[])))
    decreases |cs|
  {
    var empty := Db(initial, map[]);
    if cs != [] {
      var before, last := cs[..|cs| - 1], cs[|cs| - 1];
      forall i | 0 <= i < |before| && before[i].Up? ensures !Warns(before[i].reg, After(code, before[..i], empty).ledger) {
        assert before[..i] == cs[..i];
      }
      hide Sound, Warns, Inverts, DoUp, DoRollback, DoRefresh;
      QuietHistoryIsSound(code, initial, before);
      var db := After(code, before, empty);
      match last
      case Up(reg, steps, stop) => UpKeepsSound(code, initial, reg, steps, stop, db);
      case Rollback(reg, batches, stop) => RollbackKeepsSound(code, initial, reg, batches, stop, db);
      case Reset(reg, stop) => RollbackKeepsSound(code, initial, reg, TopBatch(db.ledger), stop, db);
      case Refresh(reg, stop, stopUp) => RefreshKeepsSound(code, initial, reg, stop, stopUp, db);
    }
  }

  // ---- the warning ----

  lemma {:induction false} ApplyRecords<S>(code: Code<S>, db: Db<S>, ids: seq<Id>, batch: nat)
    ensures Apply(code, db, ids, batch).ledger.Keys == db.ledger.Keys + Elems(ids)
    ensures forall id :: id in Apply(code, db, ids, batch).ledger ==>
              Apply(code, db, ids, batch).ledger[id] == if id in ids then batch else db.ledger[id]
    decreases |ids|
  {
    if ids != [] {
      assert ids == [ids[0]] + ids[1..];
      ApplyRecords(code, ApplyOne(code, db, ids[0], batch), ids[1..], batch);
      assert Elems(ids) == {ids[0]} + Elems(ids[1..]);
    }
  }

  /** The first pending id is the first applied. */
  lemma FirstApplied(ids: set<Id>, n: nat)
    requires 0 < n <= |ids|
    ensures Min(ids) in Ascending(ids)[..n] && forall id :: id in Ascending(ids)[..n] ==> id in ids
  {
    AscendingTake(ids, n);
    assert Ascending(ids)[..n][0] == Min(ids);
    assert forall id :: id in Ascending(ids)[..n] ==> id in Elems(Ascending(ids));
  }

  /** A newly applied id that precedes an applied one carries a later batch number than it. */
  lemma LateArrival(before: map<Id, nat>, after: map<Id, nat>, ids: seq<Id>, batch: nat, m: Id, a: Id)
    requires batch > 0 && IsTop(batch - 1, before) && after.Keys == before.Keys + Elems(ids)
    requires forall id :: id in after ==> after[id] == if id in ids then batch else before[id]
    requires m in ids && a in before && a !in ids && m < a
    ensures !Ordered(after)
  {
    assert m in after && a in after && after[m] > after[a];
  }

  lemma WarnedIsDisordered<S>(code: Code<S>, reg: set<Id>, steps: int, stop: nat, db: Db<S>)
    requires Warns(reg, db.ledger) && Applied(reg, db.ledger, steps, stop) > 0
    ensures !Ordered(DoUp(code, reg, steps, stop, db).0.ledger)
  {
    hide Apply, Ascending, DoUp, Applied, Elems, Ordered, TopBatch;
    var pending, n := reg - db.ledger.Keys, Applied(reg, db.ledger, steps, stop);
    var ids, batch := Ascending(pending)[..n], TopBatch(db.ledger) + 1;
    UpApplies(code, reg, steps, stop, db);
    ApplyRecords(code, db, ids, batch);
    FirstApplied(pending, n);
    var p, a :| p in pending && a in db.ledger && p < a;
    LateArrival(db.ledger, Apply(code, db, ids, batch).ledger, ids, batch, Min(pending), a);
  }

  /** For an Up that applies something, batches stay in id order exactly when no warning is logged. */
  lemma WarningMarksExactly<S>(code: Code<S>, initial: S, reg: set<Id>, steps: int, stop: nat, db: Db<S>)
    requires Sound(code, initial, db)
    ensures Applied(reg, db.ledger, steps, stop) > 0 ==>
              (Ordered(DoUp(code, reg, steps, stop, db).0.ledger) <==> !Warns(reg, db.ledger))
  {
    hide Ordered, DoUp, Warns, Applied;
    if Warns(reg, db.ledger) {
      if Applied(reg, db.ledger, steps, stop) > 0 {
        WarnedIsDisordered(code, reg, steps, stop, db);
      }
    } else {
      UpKeepsSound(code, initial, reg, steps, stop, db);
    }
  }

  // ---- rolling back what Up just did ----

  ghost predicate Increasing(ids: seq<Id>) {
    forall i, j :: 0 <= i < j < |ids| ==> ids[i] < ids[j]
  }

  lemma {:induction false} AscendingIncreases(ids: set<Id>)
    ensures Increasing(Ascending(ids))
  {
    if ids != {} {
      AscendingIncreases(ids - {Min(ids)});
      var rest := Ascending(ids - {Min(ids)});
      forall j | 0 <= j < |rest| ensures Min(ids) < rest[j] {
        assert rest[j] in Elems(rest);
      }
    }
  }

  lemma UndoOneUndoesApplyOne<S(!new)>(code: Code<S>, db: Db<S>, id: Id, batch: nat)
    requires Inverts(code) && id !in db.ledger && code(id).down.Some?
    ensures UndoOne(code, ApplyOne(code, db, id, batch), id) == db
  {
    assert Back(code, id, db.schema) == db.schema;
    assert Without(db.ledger[id := batch], id) == db.ledger;
  }

  /** The last of increasing ids is the first to be undone. */
  lemma LastIsFirstBack(ids: seq<Id>)
    requires Increasing(ids) && ids != []
    ensures var x := ids[|ids| - 1];
            x !in ids[..|ids| - 1] && Descending(Elems(ids)) == [x] + Descending(Elems(ids[..|ids| - 1]))
  {
    var front, x := ids[..|ids| - 1], ids[|ids| - 1];
    assert ids == front + [x];
    assert Elems(ids) == Elems(front) + {x};
    assert Elems(ids) - {x} == Elems(front);
    DescendingFront(Elems(ids), x);
  }

  lemma UndoCons<S>(code: Code<S>, db: Db<S>, x: Id, rest: seq<Id>)
    requires Undoable(code, [x] + rest)
    ensures code(x).down.Some? && Undoable(code, rest)
    ensures Undo(code, db, [x] + rest) == Undo(code, UndoOne(code, db, x), rest)
  {
    assert ([x] + rest)[0] == x && ([x] + rest)[1..] == rest;
  }

  /** Undoing in descending order takes off the last one applied, and goes on with the rest. */
  lemma UndoLast<S(!new)>(code: Code<S>, db: Db<S>, ids: seq<Id>, batch: nat)
    requires Inverts(code) && Increasing(ids) && ids != [] && ids[|ids| - 1] !in db.ledger
    requires Undoable(code, Descending(Elems(ids)))
    ensures var front := ids[..|ids| - 1];
            && Undoable(code, Descending(Elems(front)))
            && Undo(code, Apply(code, db, ids, batch), Descending(Elems(ids))) ==
                 Undo(code, Apply(code, db, front, batch), Descending(Elems(front)))
  {
    hide Inverts, Undoable, Apply, Undo, Increasing, Descending, Elems;
    var front, x := ids[..|ids| - 1], ids[|ids| - 1];
    LastIsFirstBack(ids);
    assert ids == front + [x];
    ApplySnoc(code, db, front, x, batch);
    ApplyRecords(code, db, front, batch);
    UndoCons(code, Apply(code, db, ids, batch), x, Descending(Elems(front)));
    NotAmong(front, x);
    UndoOneUndoesApplyOne(code, Apply(code, db, front, batch), x, batch);
  }

  lemma NotAmong(ids: seq<Id>, x: Id)
    requires x !in ids
    ensures x !in Elems(ids)
  {
  }

  lemma FrontIncreases(ids: seq<Id>)
    requires Increasing(ids) && ids != []
    ensures Increasing(ids[..|ids| - 1]) && forall id :: id in ids[..|ids| - 1] ==> id in ids
  {
  }

  lemma {:induction false} UndoUndoesApply<S(!new)>(code: Code<S>, db: Db<S>, ids: seq<Id>, batch: nat)
    requires Inverts(code) && Increasing(ids) && (forall id :: id in ids ==> id !in db.ledger)
    requires Undoable(code, Descending(Elems(ids)))
    ensures Undo(code, Apply(code, db, ids, batch), Descending(Elems(ids))) == db
    decreases |ids|
  {
    hide Inverts, Descending, Increasing, Undoable;
    if ids == [] {
      assert Elems(ids) == {};
      assert Descending({}) == [];
    } else {
      hide Apply, Undo, Elems;
      UndoLast(code, db, ids, batch);
      FrontIncreases(ids);
      UndoUndoesApply(code, db, ids[..|ids| - 1], batch);
    }
  }

  lemma TopIsUnique(a: nat, b: nat, ledger: map<Id, nat>)
    requires IsTop(a, ledger) && IsTop(b, ledger)
    ensures a == b
  {
  }

  /** After an Up that applied something, the last batch is exactly what it applied. */
  lemma LastBatchIsUp<S>(code: Code<S>, db: Db<S>, ids: seq<Id>)
    requires ids != []
    ensures var up := Apply(code, db, ids, TopBatch(db.ledger) + 1);
            Targets(up.ledger, TopBatch(up.ledger), 1) == Elems(ids)
  {
    hide Apply, TopBatch;
    var batch := TopBatch(db.ledger) + 1;
    var up := Apply(code, db, ids, batch);
    ApplyRecords(code, db, ids, batch);
    assert ids[0] in Elems(ids);
    assert IsTop(batch, up.ledger) by {
      assert ids[0] in up.ledger && up.ledger[ids[0]] == batch;
    }
    TopIsUnique(batch, TopBatch(up.ledger), up.ledger);
    assert forall id :: id in ids <==> id in Elems(ids);
  }

  /** A Rollback that reports success has undone exactly its targets, newest first. */
  lemma SuccessUndoesAll<S>(code: Code<S>, reg: set<Id>, batches: int, stop: nat, db: Db<S>)
    requires DoRollback(code, reg, batches, stop, db).1
    ensures var plan := Descending(Targets(db.ledger, TopBatch(db.ledger), batches));
            Undoable(code, plan) && DoRollback(code, reg, batches, stop, db).0 == Undo(code, db, plan)
  {
    hide Undo, Descending, TopBatch, Targets, Elems;
    var plan := Descending(Targets(db.ledger, TopBatch(db.ledger), batches));
    assert plan[..|plan|] == plan;
  }

  /** What one batch is made of, once it is applied. */
  lemma AppliedThenUndone<S(!new)>(code: Code<S>, db: Db<S>, pending: set<Id>, n: nat)
    requires Inverts(code) && pending !! db.ledger.Keys && 0 < n <= |pending|
    ensures var up := Apply(code, db, Ascending(pending)[..n], TopBatch(db.ledger) + 1);
            var plan := Descending(Targets(up.ledger, TopBatch(up.ledger), 1));
            Undoable(code, plan) ==> Undo(code, up, plan) == db
  {
    hide Apply, Undo, Ascending, Descending, TopBatch, Targets, Inverts, Increasing, Undoable, Elems;
    var ids := Ascending(pending)[..n];
    PrefixIncreases(pending, n);
    FirstApplied(pending, n);
    LastBatchIsUp(code, db, ids);
    if Undoable(code, Descending(Elems(ids))) {
      UndoUndoesApply(code, db, ids, TopBatch(db.ledger) + 1);
    }
  }

  /** Rolling back one batch after an Up that applied something restores schema and ledger exactly, warning or no warning. */
  lemma RollbackUndoesUp<S(!new)>(code: Code<S>, reg: set<Id>, steps: int, stop: nat, db: Db<S>, reg': set<Id>, stop': nat)
    requires Inverts(code)
    ensures var (db', ok) := DoRollback(code, reg', 1, stop', DoUp(code, reg, steps, stop, db).0);
            Applied(reg, db.ledger, steps, stop) > 0 && ok ==> db' == db
  {
    hide Applied, DoUp, DoRollback, Inverts, Ascending, Descending, Targets, TopBatch, Apply, Undo, Undoable;
    var up := DoUp(code, reg, steps, stop, db).0;
    if Applied(reg, db.ledger, steps, stop) > 0 && DoRollback(code, reg', 1, stop', up).1 {
      UpApplies(code, reg, steps, stop, db);
      AppliedThenUndone(code, db, reg - db.ledger.Keys, Applied(reg, db.ledger, steps, stop));
      SuccessUndoesAll(code, reg', 1, stop', up);
    }
  }

  lemma PrefixIncreases(ids: set<Id>, n: nat)
    requires n <= |ids|
    ensures Increasing(Ascending(ids)[..n])
  {
    AscendingIncreases(ids);
  }
}
