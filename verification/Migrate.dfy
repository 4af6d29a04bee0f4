/**
 The migration runner.  An id stands for its place in the order ids sort in; each migration's transaction
 is one step that changes the schema and the ledger together, or fails and changes neither.
 */
module Migrate {
  import opened Jobs

  type Id = nat

  datatype Migration<!S> = Migration(up: S -> S, down: Option<S -> S>)

  /** What every id means; an id never changes meaning once it ran anywhere. */
  type Code<!S> = Id -> Migration<S>

  /** `ledger` is schema_migrations: which ids are applied, and in which batch. */
  datatype Db<S> = Db(schema: S, ledger: map<Id, nat>)

  // ---- ids in order ----

  predicate IsLeast(m: Id, ids: set<Id>) { m in ids && forall k :: k in ids ==> m <= k }

  predicate IsGreatest(m: Id, ids: set<Id>) { m in ids && forall k :: k in ids ==> k <= m }

  lemma {:induction false} ExtremesExist(ids: set<Id>)
    requires ids != {}
    ensures exists m :: m in ids && IsLeast(m, ids)
    ensures exists m :: m in ids && IsGreatest(m, ids)
  {
    var some :| some in ids;
    if ids == {some} {
      assert IsLeast(some, ids) && IsGreatest(some, ids);
    } else {
      ExtremesExist(ids - {some});
      var rest := ids - {some};
      var low :| low in rest && IsLeast(low, rest);
      var high :| high in rest && IsGreatest(high, rest);
      assert forall k :: k in ids ==> k == some || k in rest;
      var least, greatest := if low < some then low else some, if high > some then high else some;
      assert IsLeast(least, ids) && IsGreatest(greatest, ids);
    }
  }

  ghost function Min(ids: set<Id>): (m: Id)
    requires ids != {}
    ensures IsLeast(m, ids)
  {
    ExtremesExist(ids);
    var m :| IsLeast(m, ids);
    m
  }

  ghost function Max(ids: set<Id>): (m: Id)
    requires ids != {}
    ensures IsGreatest(m, ids)
  {
    ExtremesExist(ids);
    var m :| IsGreatest(m, ids);
    m
  }

  function Elems(s: seq<Id>): set<Id> {
    set x | x in s
  }

  lemma ElemsCons(x: Id, s: seq<Id>)
    ensures Elems([x] + s) == {x} + Elems(s)
  {
  }

  ghost function Ascending(ids: set<Id>): (s: seq<Id>)
    ensures Elems(s) == ids && |s| == |ids|
  {
    if ids == {} then [] else
      var m := Min(ids);
      var rest := Ascending(ids - {m});
      ElemsCons(m, rest);
      [m] + rest
  }

  ghost function Descending(ids: set<Id>): (s: seq<Id>)
    ensures Elems(s) == ids && |s| == |ids|
  {
    if ids == {} then [] else
      var m := Max(ids);
      var rest := Descending(ids - {m});
      ElemsCons(m, rest);
      [m] + rest
  }

  // ---- applying and undoing ----

  function ApplyOne<S>(code: Code<S>, db: Db<S>, id: Id, batch: nat): Db<S> {
    Db(code(id).up(db.schema), db.ledger[id := batch])
  }

  function Apply<S>(code: Code<S>, db: Db<S>, ids: seq<Id>, batch: nat): Db<S>
    decreases |ids|
  {
    if ids == [] then db else Apply(code, ApplyOne(code, db, ids[0], batch), ids[1..], batch)
  }

  function UndoOne<S>(code: Code<S>, db: Db<S>, id: Id): Db<S>
    requires code(id).down.Some?
  {
    Db(code(id).down.value(db.schema), Without(db.ledger, id))
  }

  ghost predicate Undoable<S>(code: Code<S>, ids: seq<Id>) {
    forall id :: id in ids ==> code(id).down.Some?
  }

  ghost function Undo<S>(code: Code<S>, db: Db<S>, ids: seq<Id>): Db<S>
    requires Undoable(code, ids)
    decreases |ids|
  {
    if ids == [] then db else Undo(code, UndoOne(code, db, ids[0]), ids[1..])
  }

  /** The composition of the Ups of `ids`, in id order. */
  ghost function Composed<S>(code: Code<S>, ids: set<Id>, initial: S): S {
    if ids == {} then initial else code(Max(ids)).up(Composed(code, ids - {Max(ids)}, initial))
  }

  ghost predicate IsTop(b: nat, ledger: map<Id, nat>) {
    && (forall id :: id in ledger ==> ledger[id] <= b)
    && (b > 0 ==> exists id :: id in ledger && ledger[id] == b)
  }

  /** The highest batch recorded; zero when nothing is. */
  ghost function TopBatch(ledger: map<Id, nat>): (b: nat)
    ensures IsTop(b, ledger)
    decreases |ledger|
  {
    if ledger == map[] then 0 else
      var some :| some in ledger;
      var rest := Without(ledger, some);
      assert ledger.Keys == rest.Keys + {some};
      var b := TopBatch(rest);
      assert forall id :: id in ledger ==> id == some || id in rest;
      if b > ledger[some] then b else ledger[some]
  }

  /** Pending ids in order, cut to `steps` when that is positive and smaller. */
  ghost function Planned(reg: set<Id>, ledger: map<Id, nat>, steps: int): seq<Id> {
    var pending := Ascending(reg - ledger.Keys);
    if 0 < steps < |pending| then pending[..steps] else pending
  }

  ghost predicate PrecedesApplied(pending: set<Id>, ledger: map<Id, nat>) {
    exists p, a :: p in pending && a in ledger && p < a
  }

  /** The out-of-order warning: some pending id sorts before some applied one, planned for this call or not. */
  ghost predicate Warns(reg: set<Id>, ledger: map<Id, nat>) {
    PrecedesApplied(reg - ledger.Keys, ledger)
  }

  /** The ids of the last `batches` batches, at least one. */
  function Targets(ledger: map<Id, nat>, top: nat, batches: int): set<Id> {
    var lowest := top - (if batches <= 0 then 1 else batches) + 1;
    set id | id in ledger && ledger[id] >= if lowest < 1 then 1 else lowest
  }

  predicate Blocked<S>(code: Code<S>, reg: set<Id>, id: Id) {
    id !in reg || code(id).down.None?
  }

  /** How far a rollback gets: to the first id that is missing or has no Down, or to the step that fails. */
  function Reach<S>(code: Code<S>, reg: set<Id>, ids: seq<Id>, stop: nat): (n: nat)
    ensures n <= |ids| && n <= stop && Undoable(code, ids[..n])
    decreases |ids|
  {
    if ids == [] || stop == 0 || Blocked(code, reg, ids[0]) then 0
    else
      var rest := Reach(code, reg, ids[1..], stop - 1);
      assert ids[..1 + rest] == [ids[0]] + ids[1..][..rest];
      1 + rest
  }

  function Least(a: nat, b: nat): nat { if a < b then a else b }

  // ---- each command: the database it leaves, and whether it reported success ----

  ghost function DoUp<S>(code: Code<S>, reg: set<Id>, steps: int, stop: nat, db: Db<S>): (Db<S>, bool) {
    var plan := Planned(reg, db.ledger, steps);
    (Apply(code, db, plan[..Least(stop, |plan|)], TopBatch(db.ledger) + 1), |plan| <= stop)
  }

  ghost function DoRollback<S>(code: Code<S>, reg: set<Id>, batches: int, stop: nat, db: Db<S>): (Db<S>, bool) {
    var plan := Descending(Targets(db.ledger, TopBatch(db.ledger), batches));
    var n := Reach(code, reg, plan, stop);
    (Undo(code, db, plan[..n]), n == |plan|)
  }

  ghost function DoReset<S>(code: Code<S>, reg: set<Id>, stop: nat, db: Db<S>): (Db<S>, bool) {
    DoRollback(code, reg, TopBatch(db.ledger), stop, db)
  }

  ghost function DoRefresh<S>(code: Code<S>, reg: set<Id>, stop: nat, stopUp: nat, db: Db<S>): (Db<S>, bool) {
    var (emptied, ok) := DoReset(code, reg, stop, db);
    if ok then DoUp(code, reg, 0, stopUp, emptied) else (emptied, false)
  }

  // ---- the runner ----

  lemma AscendingFront(ids: set<Id>, m: Id)
    requires IsLeast(m, ids)
    ensures Ascending(ids) == [m] + Ascending(ids - {m})
  {
  }

  lemma DescendingFront(ids: set<Id>, m: Id)
    requires IsGreatest(m, ids)
    ensures Descending(ids) == [m] + Descending(ids - {m})
  {
  }

  lemma {:induction false} ApplySnoc<S>(code: Code<S>, db: Db<S>, ids: seq<Id>, id: Id, batch: nat)
    ensures Apply(code, db, ids + [id], batch) == ApplyOne(code, Apply(code, db, ids, batch), id, batch)
    decreases |ids|
  {
    if ids == [] {
      assert ([] + [id])[1..] == [];
    } else {
      assert (ids + [id])[1..] == ids[1..] + [id];
      ApplySnoc(code, ApplyOne(code, db, ids[0], batch), ids[1..], id, batch);
    }
  }

  lemma {:induction false} UndoSnoc<S>(code: Code<S>, db: Db<S>, ids: seq<Id>, id: Id)
    requires Undoable(code, ids) && code(id).down.Some?
    ensures Undoable(code, ids + [id]) && Undo(code, db, ids + [id]) == UndoOne(code, Undo(code, db, ids), id)
    decreases |ids|
  {
    if ids == [] {
      assert ([] + [id])[1..] == [];
    } else {
      assert (ids + [id])[1..] == ids[1..] + [id];
      UndoSnoc(code, UndoOne(code, db, ids[0]), ids[1..], id);
    }
  }

  /** Registered ids in order. */
  method Sort(ids: set<Id>) returns (s: seq<Id>)
    ensures s == Ascending(ids)
  {
    hide Ascending, Elems, IsLeast;
    s := [];
    var rest := ids;
    while rest != {}
      invariant rest <= ids
      invariant s + Ascending(rest) == Ascending(ids)
      decreases rest
    {
      ExtremesExist(rest);
      var m :| m in rest && IsLeast(m, rest);
      AscendingFront(rest, m);
      assert s + ([m] + Ascending(rest - {m})) == (s + [m]) + Ascending(rest - {m});
      s := s + [m];
      rest := rest - {m};
    }
    assert Ascending(rest) == [];
  }

  method SortDown(ids: set<Id>) returns (s: seq<Id>)
    ensures s == Descending(ids)
  {
    hide Descending, Elems, IsGreatest;
    s := [];
    var rest := ids;
    while rest != {}
      invariant rest <= ids
      invariant s + Descending(rest) == Descending(ids)
      decreases rest
    {
      ExtremesExist(rest);
      var m :| m in rest && IsGreatest(m, rest);
      DescendingFront(rest, m);
      assert s + ([m] + Descending(rest - {m})) == (s + [m]) + Descending(rest - {m});
      s := s + [m];
      rest := rest - {m};
    }
    assert Descending(rest) == [];
  }

  class Runner<!S> {
    var schema: S
    var ledger: map<Id, nat>
    const code: Code<S>

    ghost function State(): Db<S>
      reads this
    {
      Db(schema, ledger)
    }

    constructor (code: Code<S>, schema: S)
      ensures this.code == code && State() == Db(schema, map[])
    {
      this.code, this.schema, ledger := code, schema, map[];
    }

    method MaxBatch() returns (top: nat)
      ensures top == TopBatch(ledger)
    {
      top := 0;
      var rest := ledger.Keys;
      while rest != {}
        invariant rest <= ledger.Keys
        invariant forall id :: id in ledger && id !in rest ==> ledger[id] <= top
        invariant top > 0 ==> exists id :: id in ledger && ledger[id] == top
        decreases rest
      {
        var id :| id in rest;
        if ledger[id] > top {
          top := ledger[id];
        }
        rest := rest - {id};
      }
      assert IsTop(top, ledger);
    }

    method OutOfOrder(pending: seq<Id>) returns (warned: bool)
      ensures warned <==> PrecedesApplied(Elems(pending), ledger)
    {
      if ledger == map[] {
        return false;
      }
      ExtremesExist(ledger.Keys);
      var highest :| highest in ledger.Keys && IsGreatest(highest, ledger.Keys);
      warned := false;
      for i := 0 to |pending|
        invariant warned ==> exists k :: 0 <= k < i && pending[k] < highest
        invariant forall k :: 0 <= k < i && pending[k] < highest ==> warned
      {
        if pending[i] < highest {
          warned := true;
        }
      }
      if warned {
        var k :| 0 <= k < |pending| && pending[k] < highest;
        assert pending[k] in Elems(pending) && highest in ledger;
      }
      forall p, a | p in Elems(pending) && a in ledger && p < a ensures warned {
        var k :| 0 <= k < |pending| && pending[k] == p;
      }
    }

    /** `stop` is how many migrations succeed before one fails or the context ends. */
    method Up(reg: set<Id>, steps: int, stop: nat) returns (ok: bool, warned: bool)
      modifies this
      ensures (State(), ok) == DoUp(code, reg, steps, stop, old(State()))
      ensures warned <==> Warns(reg, old(ledger))
    {
      hide PrecedesApplied, Apply, TopBatch, Ascending;
      ghost var before := State();
      var top := MaxBatch();
      var pending := Sort(reg - ledger.Keys);
      warned := OutOfOrder(pending);
      if 0 < steps < |pending| {
        pending := pending[..steps];
      }
      ghost var plan := Planned(reg, before.ledger, steps);
      assert pending == plan;
      ok := ApplyAll(pending, top + 1, stop);
      assert State() == Apply(code, before, plan[..Least(stop, |plan|)], top + 1);
    }

    method ApplyAll(plan: seq<Id>, batch: nat, stop: nat) returns (ok: bool)
      modifies this
      ensures State() == Apply(code, old(State()), plan[..Least(stop, |plan|)], batch) && (ok <==> |plan| <= stop)
    {
      ghost var before := State();
      for i := 0 to |plan|
        invariant i <= stop
        invariant State() == Apply(code, before, plan[..i], batch)
      {
        if i == stop {
          return false;
        }
        assert plan[..i + 1] == plan[..i] + [plan[i]];
        ApplySnoc(code, before, plan[..i], plan[i], batch);
        schema := code(plan[i]).up(schema);
        ledger := ledger[plan[i] := batch];
      }
      ok := true;
    }

    method Rollback(reg: set<Id>, batches: int, stop: nat) returns (ok: bool)
      modifies this
      ensures (State(), ok) == DoRollback(code, reg, batches, stop, old(State()))
    {
      var count := if batches <= 0 then 1 else batches;
      var top := MaxBatch();
      if top == 0 {
        assert Targets(ledger, 0, batches) == {};
        return true;
      }
      var lowest := top - count + 1;
      if lowest < 1 {
        lowest := 1;
      }
      var targets := set id | id in ledger && ledger[id] >= lowest;
      assert targets == Targets(ledger, top, batches);
      var plan := SortDown(targets);
      ok := UndoAll(reg, plan, stop);
    }

    method UndoAll(reg: set<Id>, plan: seq<Id>, stop: nat) returns (ok: bool)
      modifies this
      ensures State() == Undo(code, old(State()), plan[..Reach(code, reg, plan, stop)])
      ensures ok <==> Reach(code, reg, plan, stop) == |plan|
    {
      ghost var before := State();
      for i := 0 to |plan|
        invariant i <= stop
        invariant Reach(code, reg, plan, stop) == i + Reach(code, reg, plan[i..], stop - i)
        invariant Undoable(code, plan[..i])
        invariant State() == Undo(code, before, plan[..i])
      {
        if i == stop || plan[i] !in reg || code(plan[i]).down.None? {
          assert Blocked(code, reg, plan[i]) || i == stop;
          return false;
        }
        assert plan[..i + 1] == plan[..i] + [plan[i]];
        assert plan[i..][1..] == plan[i + 1..];
        UndoSnoc(code, before, plan[..i], plan[i]);
        schema := code(plan[i]).down.value(schema);
        ledger := Without(ledger, plan[i]);
      }
      assert plan[..|plan|] == plan;
      ok := true;
    }

    /** Rolls back as many batches as the highest batch number. */
    method Reset(reg: set<Id>, stop: nat) returns (ok: bool)
      modifies this
      ensures (State(), ok) == DoReset(code, reg, stop, old(State()))
    {
      var top := MaxBatch();
      ok := Rollback(reg, top, stop);
    }

    /** Reset, then Up unless the reset failed. */
    method Refresh(reg: set<Id>, stop: nat, stopUp: nat) returns (ok: bool)
      modifies this
      ensures (State(), ok) == DoRefresh(code, reg, stop, stopUp, old(State()))
    {
      ok := Reset(reg, stop);
      if ok {
        var up, warned := Up(reg, 0, stopUp);
        ok := up;
      }
    }
  }
}
