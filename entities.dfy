/**
  The per-entity ledger: its sorted cashflows, the incremental IRR
  computation over them, and the two functions that group a flat list of
  cashflows into ledgers keyed by entity name.
*/
module Entities {
  import opened Wrappers
  import opened Dates
  import opened Cashflows
  import opened Irrs

  /** The net flow of one cashflow as the ledger counts it: outflow minus inflow. */
  function Net(c: Cashflow): real {
    c.outflow - c.inflow
  }

  /** The series the solver sees at step `k`: the net flows of the cashflows
      before `k`, then the value of cashflow `k` plus its own net flow. */
  function WorkingSeries(cfs: seq<Cashflow>, k: nat): seq<real>
    requires 1 <= k < |cfs|
  {
    seq(k, j requires 0 <= j < k => Net(cfs[j])) + [cfs[k].value + Net(cfs[k])]
  }

  /** One IRR per period transition: the cashflow at index `i` (from 1 on)
      closes a period and contributes the IRR of `WorkingSeries(cfs, i)`.
      `solve` is the root finder `npf.irr`. */
  function IrrSeries(cfs: seq<Cashflow>, name: string, solve: seq<real> -> real): seq<Irr>
    decreases |cfs|
  {
    if |cfs| < 2 then []
    else
      var k := |cfs| - 1;
      IrrSeries(cfs[..k], name, solve) + [Irr(cfs[k].date, Round4(solve(WorkingSeries(cfs, k))), name)]
  }

  lemma {:induction false} WorkingSeriesPrefix(cfs: seq<Cashflow>, n: nat, k: nat)
    requires 1 <= k < n <= |cfs|
    ensures WorkingSeries(cfs[..n], k) == WorkingSeries(cfs, k)
  {
  }

  /** Shape of the result: `max(0, n - 1)` records, record `i` dated at
      cashflow `i + 1`, owned by the entity, with the rounded IRR of the
      series of step `i + 1`. */
  lemma {:induction false} IrrSeriesShape(cfs: seq<Cashflow>, name: string, solve: seq<real> -> real)
    ensures |IrrSeries(cfs, name, solve)| == if |cfs| < 2 then 0 else |cfs| - 1
    ensures forall i :: 0 <= i < |IrrSeries(cfs, name, solve)| ==>
      IrrSeries(cfs, name, solve)[i] == Irr(cfs[i + 1].date, Round4(solve(WorkingSeries(cfs, i + 1))), name)
    decreases |cfs|
  {
    if |cfs| >= 2 {
      var k := |cfs| - 1;
      IrrSeriesShape(cfs[..k], name, solve);
      forall i | 0 <= i < k - 1
        ensures IrrSeries(cfs, name, solve)[i] == Irr(cfs[i + 1].date, Round4(solve(WorkingSeries(cfs, i + 1))), name)
      {
        WorkingSeriesPrefix(cfs, k, i + 1);
      }
    }
  }

  /** The IRR scenario of the model tests: three monthly cashflows give the
      series `[-1000, 1100]` and then `[-1000, 100, 1100]`; with a solver that
      returns their common root 0.1, the ledger gets one record per month
      after the first. */
  lemma IrrSeriesExample(solve: seq<real> -> real)
    requires solve([-1000.0, 1100.0]) == 0.1 && solve([-1000.0, 100.0, 1100.0]) == 0.1
    ensures
      var name := "test account";
      var cfs := [Cashflow(Some(Date(2022, 1, 1)), 1000.0, 0.0, 0.0, name),
                  Cashflow(Some(Date(2022, 2, 1)), 0.0, 100.0, 1000.0, name),
                  Cashflow(Some(Date(2022, 3, 1)), 0.0, 100.0, 1000.0, name)];
      && WorkingSeries(cfs, 1) == [-1000.0, 1100.0]
      && WorkingSeries(cfs, 2) == [-1000.0, 100.0, 1100.0]
      && IrrSeries(cfs, name, solve) == [Irr(Some(Date(2022, 2, 1)), 0.1, name), Irr(Some(Date(2022, 3, 1)), 0.1, name)]
  {
    var name := "test account";
    var cfs := [Cashflow(Some(Date(2022, 1, 1)), 1000.0, 0.0, 0.0, name),
                Cashflow(Some(Date(2022, 2, 1)), 0.0, 100.0, 1000.0, name),
                Cashflow(Some(Date(2022, 3, 1)), 0.0, 100.0, 1000.0, name)];
    assert WorkingSeries(cfs, 1) == [-1000.0, 1100.0];
    assert WorkingSeries(cfs, 2) == [-1000.0, 100.0, 1100.0];
    Round4Exact(0.1, 1000);
    IrrSeriesShape(cfs, name, solve);
  }

  /** An entity aggregate: identity is its name, state is its ledger. */
  class Entity {
    const entityName: string
    var sortedCashflows: seq<Cashflow>
    var irrs: seq<Irr>

    /** The ledger is kept in ascending order. */
    ghost predicate Valid()
      reads this
    {
      Sorted(sortedCashflows)
    }

    constructor (entityName: string)
      ensures this.entityName == entityName
      ensures sortedCashflows == [] && irrs == []
      ensures Valid()
    {
      this.entityName := entityName;
      sortedCashflows := [];
      irrs := [];
    }

    /** `add_cashflow`: append, then sort the whole list again. */
    method AddCashflow(cashflow: Cashflow)
      modifies this`sortedCashflows
      ensures sortedCashflows == StableSort(old(sortedCashflows) + [cashflow])
      ensures Valid()
      ensures multiset(sortedCashflows) == multiset(old(sortedCashflows)) + multiset{cashflow}
      ensures Sorted(old(sortedCashflows)) ==> sortedCashflows == Insert(old(sortedCashflows), cashflow)
    {
      ghost var before := sortedCashflows;
      sortedCashflows := sortedCashflows + [cashflow];
      sortedCashflows := StableSort(sortedCashflows);
      StableSortSorted(before + [cashflow]);
      SortAppend(before, cashflow);
      if Sorted(before) {
        StableSortOfSorted(before);
      }
    }

    /** `calculate_irr`: clears `irrs`; with two or more cashflows, walks them
        in order keeping the working series, whose last slot holds the
        cashflow's value while the solver runs and its bare net flow after. */
    method CalculateIrr(solve: seq<real> -> real)
      modifies this`irrs
      ensures irrs == IrrSeries(sortedCashflows, entityName, solve)
    {
      irrs := [];
      if |sortedCashflows| < 2 {
        // The source prints a diagnostic here and returns normally.
      } else {
        var periodic := [Net(sortedCashflows[0])];
        for i := 1 to |sortedCashflows|
          invariant |periodic| == i
          invariant forall j :: 0 <= j < i ==> periodic[j] == Net(sortedCashflows[j])
          invariant irrs == IrrSeries(sortedCashflows[..i], entityName, solve)
        {
          var cashflow := sortedCashflows[i];
          periodic := periodic + [cashflow.value + cashflow.outflow - cashflow.inflow];
          assert periodic == WorkingSeries(sortedCashflows, i);
          assert sortedCashflows[..i + 1][..i] == sortedCashflows[..i];
          WorkingSeriesPrefix(sortedCashflows, i + 1, i);
          irrs := irrs + [Irr(cashflow.date, Round4(solve(periodic)), entityName)];
          periodic := periodic[i := cashflow.outflow - cashflow.inflow];
        }
        assert sortedCashflows[..|sortedCashflows|] == sortedCashflows;
      }
    }

    /** `__eq__`: another object equals this one exactly when it is an
        `Entity` with the same name. */
    predicate Equals(other: object?) {
      other is Entity && (other as Entity).entityName == entityName
    }

    /** `__hash__`: the hash of the name, for a given string hash. */
    function Hash(strHash: string -> int): int {
      strHash(entityName)
    }
  }

  /** Equality ignores the ledger contents and is an equivalence. */
  lemma EqualsByName(a: Entity, b: Entity, c: Entity)
    ensures a.Equals(b) <==> a.entityName == b.entityName
    ensures a.Equals(a)
    ensures a.Equals(b) ==> b.Equals(a)
    ensures a.Equals(b) && b.Equals(c) ==> a.Equals(c)
  {
  }

  /** An entity is never equal to an object of another class. */
  lemma NotEqualToOtherObjects(a: Entity, other: object?)
    requires !(other is Entity)
    ensures !a.Equals(other)
  {
  }

  /** Equal entities hash identically. */
  lemma HashConsistentWithEquals(a: Entity, b: Entity, strHash: string -> int)
    ensures a.Equals(b) ==> a.Hash(strHash) == b.Hash(strHash)
  {
  }

  // ----- grouping -----

  /** The set of entity names occurring in `cashflows`. */
  function NameSet(cashflows: seq<Cashflow>): (names: set<string>)
    ensures forall c :: c in cashflows ==> c.entityName in names
  {
    if cashflows == [] then {}
    else
      var init := cashflows[..|cashflows| - 1];
      assert cashflows == init + [cashflows[|cashflows| - 1]];
      NameSet(init) + {cashflows[|cashflows| - 1].entityName}
  }

  /** A name is in `NameSet` exactly when some cashflow carries it. */
  lemma {:induction false} NameSetMembership(cashflows: seq<Cashflow>, n: string)
    ensures n in NameSet(cashflows) <==> exists c :: c in cashflows && c.entityName == n
  {
    if cashflows != [] {
      var init := cashflows[..|cashflows| - 1];
      assert cashflows == init + [cashflows[|cashflows| - 1]];
      NameSetMembership(init, n);
    }
  }

  lemma NameSetAppend(cashflows: seq<Cashflow>, c: Cashflow)
    ensures NameSet(cashflows + [c]) == NameSet(cashflows) + {c.entityName}
  {
    assert (cashflows + [c])[..|cashflows|] == cashflows;
  }

  /** The entity names of `cashflows`, each once, in order of first occurrence
      (the key order of the dictionary that collection creation builds). */
  function DistinctNames(cashflows: seq<Cashflow>): seq<string>
  {
    if cashflows == [] then []
    else
      var rest := DistinctNames(cashflows[..|cashflows| - 1]);
      var name := cashflows[|cashflows| - 1].entityName;
      if name in rest then rest else rest + [name]
  }

  /** `DistinctNames` lists exactly the names of `NameSet`, without repetition. */
  lemma {:induction false} DistinctNamesSpec(cashflows: seq<Cashflow>)
    ensures forall n :: n in DistinctNames(cashflows) <==> n in NameSet(cashflows)
    ensures forall i, j :: 0 <= i < j < |DistinctNames(cashflows)| ==> DistinctNames(cashflows)[i] != DistinctNames(cashflows)[j]
  {
    if cashflows != [] {
      var init := cashflows[..|cashflows| - 1];
      assert cashflows == init + [cashflows[|cashflows| - 1]];
      NameSetAppend(init, cashflows[|cashflows| - 1]);
      DistinctNamesSpec(init);
    }
  }

  /** How the names of a prefix grow by one cashflow. */
  lemma NamesOfLongerPrefix(cashflows: seq<Cashflow>, i: nat)
    requires i < |cashflows|
    ensures NameSet(cashflows[..i + 1]) == NameSet(cashflows[..i]) + {cashflows[i].entityName}
    ensures DistinctNames(cashflows[..i + 1]) ==
      var rest := DistinctNames(cashflows[..i]);
      if cashflows[i].entityName in NameSet(cashflows[..i]) then rest else rest + [cashflows[i].entityName]
  {
    assert cashflows[..i + 1][..i] == cashflows[..i];
    NameSetAppend(cashflows[..i], cashflows[i]);
    DistinctNamesSpec(cashflows[..i]);
  }

  /** The cashflows with the given entity name, in input order. */
  function WithName(cashflows: seq<Cashflow>, name: string): seq<Cashflow>
  {
    if cashflows == [] then []
    else
      var c := cashflows[|cashflows| - 1];
      WithName(cashflows[..|cashflows| - 1], name) + (if c.entityName == name then [c] else [])
  }

  /** `WithName` keeps exactly the cashflows carrying that name. */
  lemma {:induction false} WithNameMembers(cashflows: seq<Cashflow>, name: string, c: Cashflow)
    ensures c in WithName(cashflows, name) <==> c in cashflows && c.entityName == name
  {
    if cashflows != [] {
      var init := cashflows[..|cashflows| - 1];
      WithNameMembers(init, name, c);
      assert cashflows == init + [cashflows[|cashflows| - 1]];
    }
  }

  /** The cashflows that allocation hands to the ledger object `e`: those
      whose name is a key mapped to `e`. */
  function Routed(cashflows: seq<Cashflow>, entities: map<string, Entity>, e: Entity): seq<Cashflow>
  {
    if cashflows == [] then []
    else
      var c := cashflows[|cashflows| - 1];
      Routed(cashflows[..|cashflows| - 1], entities, e)
        + (if c.entityName in entities && entities[c.entityName] == e then [c] else [])
  }

  /** When distinct keys hold distinct ledgers, the ledger under `name`
      receives exactly the cashflows named `name`. */
  lemma {:induction false} RoutedByName(cashflows: seq<Cashflow>, entities: map<string, Entity>, name: string)
    requires name in entities
    requires forall c :: c in cashflows ==> c.entityName in entities
    requires forall k1, k2 :: k1 in entities && k2 in entities && k1 != k2 ==> entities[k1] != entities[k2]
    ensures Routed(cashflows, entities, entities[name]) == WithName(cashflows, name)
  {
    if cashflows != [] {
      var init := cashflows[..|cashflows| - 1];
      assert forall c :: c in init ==> c in cashflows;
      RoutedByName(init, entities, name);
    }
  }

  lemma RoutedAppend(done: seq<Cashflow>, c: Cashflow, entities: map<string, Entity>, e: Entity)
    requires c.entityName in entities
    ensures Routed(done + [c], entities, e)
         == Routed(done, entities, e) + (if entities[c.entityName] == e then [c] else [])
  {
    assert (done + [c])[..|done|] == done;
  }

  lemma SortAppendTo(start: seq<Cashflow>, routed: seq<Cashflow>, c: Cashflow)
    ensures StableSort(StableSort(start + routed) + [c]) == StableSort(start + (routed + [c]))
  {
    var s := start + routed;
    SortAppend(s, c);
    assert s + [c] == start + (routed + [c]);
  }

  /** The loop body of `allocate_cashflows_to_entities`: the ledger stored
      under the cashflow's name takes it (every key sharing that ledger sees
      the change); every other ledger is untouched. */
  method RouteOne(c: Cashflow, entities: map<string, Entity>)
    requires c.entityName in entities
    modifies entities.Values`sortedCashflows
    ensures forall k :: k in entities ==>
      entities[k].sortedCashflows ==
        if entities[k] == entities[c.entityName] then StableSort(old(entities[k].sortedCashflows) + [c])
        else old(entities[k].sortedCashflows)
  {
    assert entities[c.entityName] in entities.Values;
    entities[c.entityName].AddCashflow(c);
  }

  /** One allocation step, for any ledger `e`: if `c` is routed to it, it is
      re-sorted with `c` appended, otherwise it stays; either way it then holds
      its starting cashflows and everything routed to it so far, sorted. */
  lemma AllocationStep(start: seq<Cashflow>, done: seq<Cashflow>, c: Cashflow, entities: map<string, Entity>,
                         e: Entity, before: seq<Cashflow>, after: seq<Cashflow>)
    requires c.entityName in entities
    requires before == StableSort(start + Routed(done, entities, e))
    requires after == if e == entities[c.entityName] then StableSort(before + [c]) else before
    ensures after == StableSort(start + Routed(done + [c], entities, e))
  {
      var r := Routed(done, entities, e);
      RoutedAppend(done, c, entities, e);
      if e == entities[c.entityName] {
        SortAppendTo(start, r, c);
      } else {
        assert r + [] == r;
      }
  }

  /** `allocate_cashflows_to_entities`. Every name must be a key (the source's
      lookup raises `KeyError` otherwise). Each ledger ends up holding its old
      cashflows and the ones routed to it, sorted; the map itself is returned. */
  method AllocateCashflowsToEntities(cashflows: seq<Cashflow>, entities: map<string, Entity>)
    returns (result: map<string, Entity>)
    requires forall c :: c in cashflows ==> c.entityName in entities
    requires forall k :: k in entities ==> entities[k].Valid()
    modifies entities.Values`sortedCashflows
    ensures result == entities
    ensures forall k :: k in entities ==>
      entities[k].sortedCashflows == StableSort(old(entities[k].sortedCashflows) + Routed(cashflows, entities, entities[k]))
    ensures forall k :: k in entities ==> entities[k].Valid()
  {
    ghost var start := map k | k in entities :: entities[k].sortedCashflows;
    forall k | k in entities
      ensures StableSort(start[k] + Routed([], entities, entities[k])) == start[k]
    {
      assert start[k] + [] == start[k];
      StableSortOfSorted(start[k]);
    }
    ghost var done: seq<Cashflow> := [];
    var i := 0;
    while i < |cashflows|
      invariant i <= |cashflows| && done == cashflows[..i]
      invariant forall k :: k in entities ==> entities[k].sortedCashflows == StableSort(start[k] + Routed(done, entities, entities[k]))
    {
      var cashflow := cashflows[i];
      assert done + [cashflow] == cashflows[..i + 1];
      label Before:
      RouteOne(cashflow, entities);
      forall k | k in entities
        ensures entities[k].sortedCashflows == StableSort(start[k] + Routed(done + [cashflow], entities, entities[k]))
      {
        AllocationStep(start[k], done, cashflow, entities, entities[k], old@Before(entities[k].sortedCashflows), entities[k].sortedCashflows);
      }
      done := done + [cashflow];
      i := i + 1;
    }
    assert done == cashflows;
    forall k | k in entities
      ensures entities[k].Valid()
    {
      StableSortSorted(start[k] + Routed(cashflows, entities, entities[k]));
    }
    result := entities;
  }

  /** `entities_collection_creation`: a fresh, empty ledger for every name in
      `cashflows`; a repeated name replaces its ledger by a new empty one and
      keeps its place. `order` is the resulting key order of the dictionary. */
  method EntitiesCollectionCreation(cashflows: seq<Cashflow>)
    returns (entities: map<string, Entity>, order: seq<string>)
    ensures entities.Keys == NameSet(cashflows)
    ensures order == DistinctNames(cashflows)
    ensures forall k :: k in entities ==>
      && fresh(entities[k])
      && entities[k].entityName == k
      && entities[k].sortedCashflows == []
      && entities[k].irrs == []
      && entities[k].Valid()
    ensures forall k1, k2 :: k1 in entities && k2 in entities && k1 != k2 ==> entities[k1] != entities[k2]
  {
    entities := map[];
    order := [];
    for i := 0 to |cashflows|
      invariant entities.Keys == NameSet(cashflows[..i])
      invariant order == DistinctNames(cashflows[..i])
      invariant forall k :: k in entities ==>
        && fresh(entities[k])
        && entities[k].entityName == k
        && entities[k].sortedCashflows == []
        && entities[k].irrs == []
    {
      var name := cashflows[i].entityName;
      NamesOfLongerPrefix(cashflows, i);
      if name !in entities {
        order := order + [name];
      }
      var entity := new Entity(name);
      entities := entities[name := entity];
    }
    assert cashflows[..|cashflows|] == cashflows;
    forall k | k in entities
      ensures entities[k].Valid()
    {
      assert entities[k].sortedCashflows == [];
    }
  }

  /** The allocation scenario of the model tests: two cashflows handed over
      newest first end up oldest first in the single ledger. */
  lemma AllocateExample(e: Entity)
    ensures
      var name := "test entity";
      var c1 := Cashflow(Some(Date(2022, 1, 1)), 100.0, 100.0, 100.0, name);
      var c2 := Cashflow(Some(Date(2023, 1, 2)), 1000.0, 1000.0, 1000.0, name);
      StableSort([] + Routed([c2, c1], map[name := e], e)) == [c1, c2]
  {
    var name := "test entity";
    var c1 := Cashflow(Some(Date(2022, 1, 1)), 100.0, 100.0, 100.0, name);
    var c2 := Cashflow(Some(Date(2023, 1, 2)), 1000.0, 1000.0, 1000.0, name);
    var m := map[name := e];
    assert [c2, c1][..1] == [c2];
    assert [c2][..0] == [];
    assert Routed([c2], m, e) == [c2];
    assert Routed([c2, c1], m, e) == [c2, c1];
    assert StableSort([c2]) == [c2];
    assert Lt(c1, [c2][0]);
    assert [] + [c2, c1] == [c2, c1];
  }
}
