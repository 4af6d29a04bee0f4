/**
 Concurrent calls of Remember for one key of one working store that neither expires, evicts nor deletes it.
 A call reads the store, then joins or starts the key's flight; the flight's leader reads the store
 again, computes on a miss, writes, and returns; the group forgets the flight a moment later.
 */
module Remember {
  import opened Jobs

  /** Where a flight stands.  `Returning` has its result but can still be joined; `None` stands for an error. */
  datatype Stage<V> = Checking | Computing | Storing(value: V) | Returning(result: Option<V>) | Ended(result: Option<V>)

  datatype Caller<V> = Arriving | Missed | In(flight: nat) | Done(result: Option<V>)

  /** `initial` is what the store held at the start, `computed` the successful computations so far, `failed` the flights whose computation failed. */
  datatype State<V> = State(initial: Option<V>, store: Option<V>, current: Option<nat>, flights: map<nat, Stage<V>>,
                            callers: map<nat, Caller<V>>, next: nat, computed: seq<V>, failed: set<nat>)

  datatype Event<V> =
    | Arrive(p: nat)
    | Look(p: nat)
    | Join(p: nat)
    | Check
    | Compute(outcome: Option<V>)
    | Store
    | Finish
    | Return(p: nat)

  predicate At<V(==)>(s: State<V>, p: nat, c: Caller<V>) {
    p in s.callers && s.callers[p] == c
  }

  /** The stage of the flight the group knows, if any. */
  function Now<V>(s: State<V>): Option<Stage<V>> {
    if s.current.Some? && s.current.value in s.flights then Some(s.flights[s.current.value]) else None
  }

  predicate Enabled<V(==)>(s: State<V>, e: Event<V>) {
    match e
    case Arrive(p) => p !in s.callers
    case Look(p) => At(s, p, Arriving)
    case Join(p) => At(s, p, Missed)
    case Check => Now(s) == Some(Checking)
    case Compute(_) => Now(s) == Some(Computing)
    case Store => Now(s).Some? && Now(s).value.Storing?
    case Finish => Now(s).Some? && Now(s).value.Returning?
    case Return(p) => p in s.callers && s.callers[p].In? && s.callers[p].flight in s.flights && s.flights[s.callers[p].flight].Ended?
  }

  function Move<V>(s: State<V>, stage: Stage<V>): State<V>
    requires s.current.Some?
  {
    s.(flights := s.flights[s.current.value := stage])
  }

  function Next<V(==)>(s: State<V>, e: Event<V>): State<V>
    requires Enabled(s, e)
  {
    match e
    case Arrive(p) => s.(callers := s.callers[p := Arriving])
    case Look(p) => s.(callers := s.callers[p := if s.store.Some? then Done(s.store) else Missed])
    case Join(p) =>
      if s.current.Some? then s.(callers := s.callers[p := In(s.current.value)])
      else s.(callers := s.callers[p := In(s.next)], current := Some(s.next), flights := s.flights[s.next := Checking], next := s.next + 1)
    case Check => Move(s, if s.store.Some? then Returning(s.store) else Computing)
    case Compute(outcome) =>
      if outcome.Some? then Move(s, Storing(outcome.value)).(computed := s.computed + [outcome.value])
      else Move(s, Returning(None)).(failed := s.failed + {s.current.value})
    case Store => Move(s, Returning(Some(Now(s).value.value))).(store := Some(Now(s).value.value))
    case Finish => Move(s, Ended(Now(s).value.result)).(current := None)
    case Return(p) => s.(callers := s.callers[p := Done(s.flights[s.callers[p].flight].result)])
  }

  ghost predicate Init<V>(s: State<V>) {
    s == State(s.initial, s.initial, None, map[], map[], 0, [], {})
  }

  ghost predicate Run<V>(ss: seq<State<V>>, es: seq<Event<V>>) {
    && |ss| == |es| + 1 && Init(ss[0])
    && forall i :: 0 <= i < |es| ==> Enabled(ss[i], es[i]) && ss[i + 1] == Next(ss[i], es[i])
  }

  /** The one value this key can have: what was stored at the start, or what was computed. */
  ghost predicate IsValue<V>(s: State<V>, v: V) {
    s.initial == Some(v) || (s.initial.None? && s.computed == [v])
  }

  /** A flight's stage agrees with the store: only the current one computes, on an empty store and before any success. */
  ghost predicate StageRight<V>(s: State<V>, f: nat, stage: Stage<V>) {
    match stage
    case Checking => f !in s.failed
    case Computing => s.store.None? && s.computed == [] && f !in s.failed
    case Storing(v) => s.store.None? && IsValue(s, v) && f !in s.failed
    case Returning(r) => if r.Some? then IsValue(s, r.value) && f !in s.failed else f in s.failed && s.store.None? && s.computed == []
    case Ended(r) => if r.Some? then IsValue(s, r.value) && f !in s.failed else f in s.failed
  }

  ghost predicate CallerRight<V>(s: State<V>, c: Caller<V>) {
    match c
    case In(f) => f in s.flights
    case Done(r) => r.Some? ==> IsValue(s, r.value)
    case _ => true
  }

  /** The group knows exactly the flight that has not ended. */
  ghost predicate OneFlight<V(!new)>(s: State<V>) {
    && (s.current.Some? ==> s.current.value in s.flights && !s.flights[s.current.value].Ended?)
    && (forall f :: f in s.flights && !s.flights[f].Ended? ==> s.current == Some(f))
    && (forall f :: f in s.flights ==> f < s.next)
    && (forall f :: f in s.failed ==> f in s.flights)
  }

  ghost predicate Agreed<V(!new)>(s: State<V>) {
    && (forall f :: f in s.flights ==> StageRight(s, f, s.flights[f]))
    && |s.computed| <= 1
    && (s.initial.Some? ==> s.computed == [] && s.store == s.initial)
    && (s.store.Some? ==> IsValue(s, s.store.value))
    && (s.computed != [] && s.store.None? ==> Now(s) == Some(Storing(s.computed[0])))
  }

  ghost predicate Told<V(!new)>(s: State<V>) {
    forall p :: p in s.callers ==> CallerRight(s, s.callers[p])
  }

  ghost predicate Inv<V(!new)>(s: State<V>) {
    OneFlight(s) && Agreed(s) && Told(s)
  }

  lemma NextKeepsOneFlight<V(!new)>(s: State<V>, e: Event<V>)
    requires OneFlight(s) && Enabled(s, e)
    ensures OneFlight(Next(s, e))
  {
  }

  lemma NextKeepsAgreed<V(!new)>(s: State<V>, e: Event<V>)
    requires OneFlight(s) && Agreed(s) && Enabled(s, e)
    ensures Agreed(Next(s, e))
  {
  }

  lemma NextKeepsTold<V(!new)>(s: State<V>, e: Event<V>)
    requires OneFlight(s) && Agreed(s) && Told(s) && Enabled(s, e)
    ensures Told(Next(s, e))
  {
  }

  lemma NextKeepsInv<V(!new)>(s: State<V>, e: Event<V>)
    requires Inv(s) && Enabled(s, e)
    ensures Inv(Next(s, e))
  {
    hide OneFlight, Agreed, Told, Next, Enabled;
    NextKeepsOneFlight(s, e);
    NextKeepsAgreed(s, e);
    NextKeepsTold(s, e);
  }

  lemma {:induction false} RunKeepsInv<V(!new)>(ss: seq<State<V>>, es: seq<Event<V>>, i: nat)
    requires Run(ss, es) && i < |ss|
    ensures Inv(ss[i])
  {
    if i > 0 {
      RunKeepsInv(ss, es, i - 1);
      NextKeepsInv(ss[i - 1], es[i - 1]);
    }
  }

  /** Over the whole run at most one computation succeeds, none if the store already held the value, and every caller that got an answer got that one. */
  lemma ComputedOnce<V(!new)>(ss: seq<State<V>>, es: seq<Event<V>>, i: nat, p: nat, q: nat)
    requires Run(ss, es) && i < |ss|
    ensures |ss[i].computed| <= (if ss[i].initial.Some? then 0 else 1)
    ensures ss[i].store.Some? ==> IsValue(ss[i], ss[i].store.value)
    ensures forall v :: At(ss[i], p, Done(Some(v))) ==> IsValue(ss[i], v)
    ensures forall v, u :: At(ss[i], p, Done(Some(v))) && At(ss[i], q, Done(Some(u))) ==> v == u
  {
    RunKeepsInv(ss, es, i);
    assert forall v :: At(ss[i], p, Done(Some(v))) ==> CallerRight(ss[i], Done(Some(v)));
    assert forall v :: At(ss[i], q, Done(Some(v))) ==> CallerRight(ss[i], Done(Some(v)));
  }

  /** While nothing has been written, whatever failed, the store is as it was; it changes only to the computed value. */
  lemma FailuresStoreNothing<V(!new)>(ss: seq<State<V>>, es: seq<Event<V>>, i: nat)
    requires Run(ss, es) && i < |ss|
    ensures ss[i].store == ss[i].initial || (ss[i].initial.None? && ss[i].computed == [ss[i].store.value])
  {
    RunKeepsInv(ss, es, i);
  }

  /** A call returns an error exactly when the computation of its own flight failed. */
  lemma ErrorExactly<V(!new)>(ss: seq<State<V>>, es: seq<Event<V>>, i: nat)
    requires Run(ss, es) && i < |es| && es[i].Return?
    ensures ss[i].callers[es[i].p].In?
    ensures At(ss[i + 1], es[i].p, Done(None)) <==> ss[i].callers[es[i].p].flight in ss[i].failed
  {
    RunKeepsInv(ss, es, i);
    var f := ss[i].callers[es[i].p].flight;
    assert StageRight(ss[i], f, ss[i].flights[f]);
  }

  /** From the moment the value is stored, a caller not yet in a flight can only end with it. */
  ghost predicate WillSucceed<V>(s: State<V>, p: nat) {
    && s.store.Some?
    && (p in s.callers ==>
          match s.callers[p]
          case In(f) => f !in s.failed
          case Done(r) => r == s.store
          case _ => true)
  }

  lemma NextKeepsWillSucceed<V(!new)>(s: State<V>, e: Event<V>, p: nat)
    requires Inv(s) && Enabled(s, e) && WillSucceed(s, p)
    ensures WillSucceed(Next(s, e), p) && Next(s, e).store == s.store && Next(s, e).computed == s.computed
  {
    if s.current.Some? {
      assert StageRight(s, s.current.value, s.flights[s.current.value]);
    }
    if e.Return? {
      var f := s.callers[e.p].flight;
      assert StageRight(s, f, s.flights[f]);
    }
  }

  /** A call that reaches the store or its flight after the value was stored never computes and returns that value. */
  lemma {:induction false} AfterSuccess<V(!new)>(ss: seq<State<V>>, es: seq<Event<V>>, i: nat, j: nat, p: nat)
    requires Run(ss, es) && i <= j < |ss| && ss[i].store.Some?
    requires p !in ss[i].callers || ss[i].callers[p].Arriving? || ss[i].callers[p].Missed?
    ensures WillSucceed(ss[j], p) && ss[j].store == ss[i].store && ss[j].computed == ss[i].computed
    ensures p in ss[j].callers && ss[j].callers[p].Done? ==> ss[j].callers[p].result == ss[i].store
  {
    hide Enabled, Next, Inv;
    if i < j {
      AfterSuccess(ss, es, i, j - 1, p);
      RunKeepsInv(ss, es, j - 1);
      NextKeepsWillSucceed(ss[j - 1], es[j - 1], p);
    }
  }

  ghost predicate UsesStore<V>(s: State<V>, p: nat) {
    p in s.callers ==> s.callers[p].Arriving? || s.callers[p] == Done(s.store)
  }

  lemma NextKeepsUsesStore<V(!new)>(s: State<V>, e: Event<V>, p: nat)
    requires s.store.Some? && UsesStore(s, p) && Enabled(s, e) && Next(s, e).store == s.store
    ensures UsesStore(Next(s, e), p)
  {
    hide Now;
  }

  /** A call whose first look comes after the value was stored joins no flight: it returns that value from the store. */
  lemma {:induction false} FoundAtOnce<V(!new)>(ss: seq<State<V>>, es: seq<Event<V>>, i: nat, j: nat, p: nat)
    requires Run(ss, es) && i <= j < |ss| && ss[i].store.Some?
    requires p !in ss[i].callers || ss[i].callers[p].Arriving?
    ensures p in ss[j].callers ==> ss[j].callers[p].Arriving? || ss[j].callers[p] == Done(ss[i].store)
  {
    hide Inv, Enabled, Next, WillSucceed;
    if i < j {
      FoundAtOnce(ss, es, i, j - 1, p);
      AfterSuccess(ss, es, i, j - 1, p);
      AfterSuccess(ss, es, i, j, p);
      NextKeepsUsesStore(ss[j - 1], es[j - 1], p);
    }
  }

  /** What can happen next that brings call `p` nearer to its answer: a step of its own, or one of the flight it is in. */
  predicate CanMove<V(==)>(s: State<V>, p: nat) {
    || Enabled(s, Look(p)) || Enabled(s, Join(p)) || Enabled(s, Return(p))
    || (s.current.Some? && At(s, p, In(s.current.value))
        && (Enabled(s, Check) || Enabled(s, Compute(None)) || Enabled(s, Store) || Enabled(s, Finish)))
  }

  /** No call waits for ever on nothing: until it has its answer, it or its flight can move. */
  lemma NeverStuck<V(!new)>(ss: seq<State<V>>, es: seq<Event<V>>, i: nat, p: nat)
    requires Run(ss, es) && i < |ss| && p in ss[i].callers && !ss[i].callers[p].Done?
    ensures CanMove(ss[i], p)
  {
    RunKeepsInv(ss, es, i);
    var s := ss[i];
    if s.callers[p].In? {
      var f := s.callers[p].flight;
      assert CallerRight(s, s.callers[p]);
      if !s.flights[f].Ended? {
        assert s.current == Some(f) && Now(s) == Some(s.flights[f]);
      }
    }
  }
}
