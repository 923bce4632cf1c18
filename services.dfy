/**
  The IRR pipeline: fetch the cashflows once, build one empty ledger per
  entity name, allocate every cashflow to its ledger, compute every ledger's
  IRRs, and publish them all in one load.
*/
module Services {
  import opened Wrappers
  import opened Dates
  import opened Cashflows
  import opened Irrs
  import opened Entities
  import opened Repository

  /** The ledger the pipeline builds for `name`: the cashflows with that
      name, sorted. */
  function LedgerOf(cashflows: seq<Cashflow>, name: string): (r: seq<Cashflow>)
    ensures Sorted(r)
    ensures multiset(r) == multiset(WithName(cashflows, name))
    ensures |r| == |WithName(cashflows, name)|
  {
    StableSortSorted(WithName(cashflows, name));
    StableSort(WithName(cashflows, name))
  }

  /** The IRRs of the ledgers for `names`, one ledger after another. */
  function PublishedIrrs(names: seq<string>, cashflows: seq<Cashflow>, solve: seq<real> -> real): seq<Irr>
  {
    if names == [] then []
    else
      var n := names[|names| - 1];
      PublishedIrrs(names[..|names| - 1], cashflows, solve) + IrrSeries(LedgerOf(cashflows, n), n, solve)
  }

  /** What the pipeline publishes for the source rows `cashflows`. */
  function PipelineIrrs(cashflows: seq<Cashflow>, solve: seq<real> -> real): seq<Irr>
  {
    PublishedIrrs(DistinctNames(cashflows), cashflows, solve)
  }

  /** The number of records the ledgers for `names` produce: one less than
      the ledger's size, and none for a ledger of fewer than two. */
  function RecordCount(names: seq<string>, cashflows: seq<Cashflow>): nat
  {
    if names == [] then 0
    else
      var n := |WithName(cashflows, names[|names| - 1])|;
      RecordCount(names[..|names| - 1], cashflows) + (if n < 2 then 0 else n - 1)
  }

  /** `WithName` keeps every copy of a cashflow with that name and no copy
      of any other. */
  lemma {:induction false} WithNameCount(cashflows: seq<Cashflow>, name: string, c: Cashflow)
    ensures multiset(WithName(cashflows, name))[c] == if c.entityName == name then multiset(cashflows)[c] else 0
  {
    if cashflows != [] {
      var init := cashflows[..|cashflows| - 1];
      assert cashflows == init + [cashflows[|cashflows| - 1]];
      WithNameCount(init, name, c);
    }
  }

  /** Every fetched cashflow is placed, with all its copies, in the ledger
      of its own name, which the pipeline creates, and in no other ledger. */
  lemma EveryCashflowPlacedOnce(cashflows: seq<Cashflow>, c: Cashflow)
    requires c in cashflows
    ensures c.entityName in DistinctNames(cashflows)
    ensures forall n :: n in DistinctNames(cashflows) ==>
      multiset(LedgerOf(cashflows, n))[c] == if n == c.entityName then multiset(cashflows)[c] else 0
  {
    DistinctNamesSpec(cashflows);
    forall n | n in DistinctNames(cashflows)
      ensures multiset(LedgerOf(cashflows, n))[c] == if n == c.entityName then multiset(cashflows)[c] else 0
    {
      WithNameCount(cashflows, n, c);
    }
  }

  /** The number of published records is the sum, over the ledgers, of
      their size less one (and nothing for ledgers of fewer than two). */
  lemma {:induction false} PublishedCount(names: seq<string>, cashflows: seq<Cashflow>, solve: seq<real> -> real)
    ensures |PublishedIrrs(names, cashflows, solve)| == RecordCount(names, cashflows)
  {
    if names != [] {
      var n := names[|names| - 1];
      PublishedCount(names[..|names| - 1], cashflows, solve);
      IrrSeriesShape(LedgerOf(cashflows, n), n, solve);
    }
  }

  /** Every published record belongs to one of the listed entities and
      carries the date of one of that entity's cashflows. */
  lemma {:induction false} PublishedProvenance(names: seq<string>, cashflows: seq<Cashflow>,
                                               solve: seq<real> -> real, x: Irr)
    requires x in PublishedIrrs(names, cashflows, solve)
    ensures x.entityName in names
    ensures exists c :: c in cashflows && c.entityName == x.entityName && c.date == x.date
  {
    var init := names[..|names| - 1];
    var n := names[|names| - 1];
    var ledger := LedgerOf(cashflows, n);
    if x in PublishedIrrs(init, cashflows, solve) {
      PublishedProvenance(init, cashflows, solve, x);
      assert x.entityName in names by { assert forall m :: m in init ==> m in names; }
    } else {
      assert x in IrrSeries(ledger, n, solve);
      IrrSeriesShape(ledger, n, solve);
      var i :| 0 <= i < |IrrSeries(ledger, n, solve)| && IrrSeries(ledger, n, solve)[i] == x;
      var c := ledger[i + 1];
      assert c in multiset(WithName(cashflows, n));
      WithNameMembers(cashflows, n, c);
    }
  }

  /** With distinct ledgers, allocating into fresh empty ledgers yields
      exactly `LedgerOf` under every key. */
  lemma AllocatedLedgers(cashflows: seq<Cashflow>, entities: map<string, Entity>)
    requires forall c :: c in cashflows ==> c.entityName in entities
    requires forall k1, k2 :: k1 in entities && k2 in entities && k1 != k2 ==> entities[k1] != entities[k2]
    ensures forall k :: k in entities ==>
      StableSort([] + Routed(cashflows, entities, entities[k])) == LedgerOf(cashflows, k)
  {
    forall k | k in entities
      ensures StableSort([] + Routed(cashflows, entities, entities[k])) == LedgerOf(cashflows, k)
    {
      RoutedByName(cashflows, entities, k);
      assert [] + Routed(cashflows, entities, entities[k]) == WithName(cashflows, k);
    }
  }

  /** Publishing the ledgers in `order`, each holding the IRRs of its
      `LedgerOf`, is `PublishedIrrs` of `order`. */
  lemma {:induction false} FlattenPublished(entities: map<string, Entity>, order: seq<string>,
                                            cashflows: seq<Cashflow>, solve: seq<real> -> real)
    requires forall n :: n in order ==> n in entities
    requires forall j :: 0 <= j < |order| ==>
      entities[order[j]].irrs == IrrSeries(LedgerOf(cashflows, order[j]), order[j], solve)
    ensures FlattenIrrs(entities, order) == PublishedIrrs(order, cashflows, solve)
  {
    if order != [] {
      var init := order[..|order| - 1];
      assert forall n :: n in init ==> n in order;
      assert forall j :: 0 <= j < |init| ==> init[j] == order[j];
      FlattenPublished(entities, init, cashflows, solve);
    }
  }

  /** The loop of `irr_pipeline` over `entities.values()`, whose iteration
      order is the key order `order`: every ledger computes its IRRs from
      its own cashflows. */
  method CalculateIrrs(entities: map<string, Entity>, order: seq<string>, solve: seq<real> -> real)
    requires forall j :: 0 <= j < |order| ==> order[j] in entities && entities[order[j]].entityName == order[j]
    requires forall i, j :: 0 <= i < j < |order| ==> order[i] != order[j]
    modifies entities.Values`irrs
    ensures forall j :: 0 <= j < |order| ==>
      entities[order[j]].irrs == IrrSeries(entities[order[j]].sortedCashflows, order[j], solve)
  {
    for i := 0 to |order|
      invariant forall j :: 0 <= j < i ==>
        entities[order[j]].irrs == IrrSeries(entities[order[j]].sortedCashflows, order[j], solve)
    {
      var entity := entities[order[i]];
      assert entity in entities.Values;
      entity.CalculateIrr(solve);
    }
  }

  /** Lines 14-15 of `irr_pipeline`: one fresh ledger per name of
      `cashflows`, in the dictionary's key order `order`, each holding its
      `LedgerOf`. */
  method GroupCashflows(cashflows: seq<Cashflow>)
    returns (entities: map<string, Entity>, order: seq<string>)
    ensures order == DistinctNames(cashflows)
    ensures forall n :: n in order <==> n in entities
    ensures forall k :: k in entities ==>
      && fresh(entities[k])
      && entities[k].entityName == k
      && entities[k].sortedCashflows == LedgerOf(cashflows, k)
  {
    entities, order := EntitiesCollectionCreation(cashflows);
    DistinctNamesSpec(cashflows);
    AllocatedLedgers(cashflows, entities);
    entities := AllocateCashflowsToEntities(cashflows, entities);
  }

  /** Lines 14-18 of `irr_pipeline`: the grouped ledgers, after every one
      of them has computed its IRRs. */
  method ComputeLedgers(cashflows: seq<Cashflow>, solve: seq<real> -> real)
    returns (entities: map<string, Entity>, order: seq<string>)
    ensures order == DistinctNames(cashflows)
    ensures KeyOrder(entities, order)
    ensures forall j :: 0 <= j < |order| ==>
      entities[order[j]].irrs == IrrSeries(LedgerOf(cashflows, order[j]), order[j], solve)
  {
    entities, order := GroupCashflows(cashflows);
    DistinctNamesSpec(cashflows);
    CalculateIrrs(entities, order, solve);
  }

  /** `irr_pipeline`. The ledgers are built from the very list the
      allocation walks, so allocation's lookup never misses; every ledger's
      IRRs are computed after allocation and before the single load. */
  method IrrPipeline(repository: FakeRepository, solve: seq<real> -> real)
    modifies repository
    ensures repository.rows == old(repository.rows)
    ensures repository.fetches == old(repository.fetches) + 1
    ensures repository.loads == old(repository.loads) + 1
    ensures repository.table == PipelineIrrs(old(repository.rows), solve)
  {
    var cashflows := repository.GetCashflows();
    var entities, order := ComputeLedgers(cashflows, solve);
    repository.LoadIrrs(entities, order);
    FlattenPublished(entities, order, cashflows, solve);
  }

  // ----- the integration scenario -----

  lemma WithNameAppend(cashflows: seq<Cashflow>, c: Cashflow, name: string)
    ensures WithName(cashflows + [c], name) == WithName(cashflows, name) + (if c.entityName == name then [c] else [])
  {
    assert (cashflows + [c])[..|cashflows|] == cashflows;
  }

  lemma {:induction false} WithNameConcat(s: seq<Cashflow>, t: seq<Cashflow>, name: string)
    ensures WithName(s + t, name) == WithName(s, name) + WithName(t, name)
    decreases |t|
  {
    if t == [] {
      assert s + t == s;
    } else {
      var init := t[..|t| - 1];
      var x := t[|t| - 1];
      assert t == init + [x];
      assert s + t == (s + init) + [x];
      WithNameConcat(s, init, name);
      WithNameAppend(s + init, x, name);
      WithNameAppend(init, x, name);
    }
  }

  lemma DistinctNamesAppend(cashflows: seq<Cashflow>, c: Cashflow)
    ensures DistinctNames(cashflows + [c]) ==
      var rest := DistinctNames(cashflows);
      if c.entityName in rest then rest else rest + [c.entityName]
  {
    assert (cashflows + [c])[..|cashflows|] == cashflows;
  }

  /** Every cashflow of `s` belongs to entity `a`. */
  predicate AllNamed(s: seq<Cashflow>, a: string) {
    forall i :: 0 <= i < |s| ==> s[i].entityName == a
  }

  /** A non-empty run of cashflows of one entity names just that entity. */
  lemma {:induction false} DistinctNamesOfOne(s: seq<Cashflow>, a: string)
    requires s != [] && AllNamed(s, a)
    ensures DistinctNames(s) == [a]
  {
    var init := s[..|s| - 1];
    assert s == init + [s[|s| - 1]];
    DistinctNamesAppend(init, s[|s| - 1]);
    if init != [] {
      DistinctNamesOfOne(init, a);
    }
  }

  lemma {:induction false} WithNameUniform(s: seq<Cashflow>, a: string, name: string)
    requires AllNamed(s, a)
    ensures WithName(s, name) == if a == name then s else []
  {
    if s != [] {
      var init := s[..|s| - 1];
      assert s == init + [s[|s| - 1]];
      WithNameUniform(init, a, name);
    }
  }

  /** The first account of the integration test: 1000 paid in, then four
      months of 100 out, valued at 1000 throughout. */
  function FirstAccountRows(a: string): seq<Cashflow> {
    [ Cashflow(Some(Date(2022, 1, 1)), 1000.0, 0.0, 1000.0, a),
      Cashflow(Some(Date(2022, 2, 1)), 0.0, 100.0, 1000.0, a),
      Cashflow(Some(Date(2022, 3, 1)), 0.0, 100.0, 1000.0, a),
      Cashflow(Some(Date(2022, 4, 1)), 0.0, 100.0, 1000.0, a),
      Cashflow(Some(Date(2022, 5, 1)), 0.0, 100.0, 1000.0, a) ]
  }

  /** The second account: 1000 paid in, valued at 1100 a month later. */
  function SecondAccountRows(b: string): seq<Cashflow> {
    [ Cashflow(Some(Date(2022, 3, 1)), 1000.0, 0.0, 1000.0, b),
      Cashflow(Some(Date(2022, 4, 1)), 0.0, 0.0, 1100.0, b) ]
  }

  lemma AccountsNamed(a: string, b: string)
    ensures AllNamed(FirstAccountRows(a), a) && AllNamed(SecondAccountRows(b), b)
  {
  }

  /** The integration rows name the two accounts, in first-seen order. */
  lemma IntegrationNames(a: string, b: string)
    requires a != b
    ensures DistinctNames(FirstAccountRows(a) + SecondAccountRows(b)) == [a, b]
  {
    var s := FirstAccountRows(a);
    var t := SecondAccountRows(b);
    AccountsNamed(a, b);
    DistinctNamesOfOne(s, a);
    DistinctNamesAppend(s, t[0]);
    assert b !in [a];
    DistinctNamesAppend(s + [t[0]], t[1]);
    assert s + t == (s + [t[0]]) + [t[1]];
  }

  /** The integration accounts' rows are each in date order. */
  lemma IntegrationRowsSorted(a: string, b: string)
    ensures Sorted(FirstAccountRows(a)) && Sorted(SecondAccountRows(b))
  {
  }

  /** The first integration account's ledger keeps its rows as they came,
      since they are already in date order. */
  lemma FirstAccountLedger(a: string, b: string)
    requires a != b
    ensures LedgerOf(FirstAccountRows(a) + SecondAccountRows(b), a) == FirstAccountRows(a)
  {
    var s := FirstAccountRows(a);
    var t := SecondAccountRows(b);
    AccountsNamed(a, b);
    WithNameConcat(s, t, a);
    WithNameUniform(s, a, a);
    WithNameUniform(t, b, a);
    assert s + [] == s;
    IntegrationRowsSorted(a, b);
    StableSortOfSorted(s);
  }

  /** Likewise for the second account. */
  lemma SecondAccountLedger(a: string, b: string)
    requires a != b
    ensures LedgerOf(FirstAccountRows(a) + SecondAccountRows(b), b) == SecondAccountRows(b)
  {
    var s := FirstAccountRows(a);
    var t := SecondAccountRows(b);
    AccountsNamed(a, b);
    WithNameConcat(s, t, b);
    WithNameUniform(s, a, b);
    WithNameUniform(t, b, b);
    assert [] + t == t;
    IntegrationRowsSorted(a, b);
    StableSortOfSorted(t);
  }

  /** The solver that the integration test's expectations presuppose: it
      returns 0.1, the common root of every working series of the two
      accounts (see `TenPercentRoots`). */
  predicate SolvesAtTenPercent(solve: seq<real> -> real) {
    && solve([-1000.0, 1100.0]) == 0.1
    && solve([-1000.0, 100.0, 1100.0]) == 0.1
    && solve([-1000.0, 100.0, 100.0, 1100.0]) == 0.1
    && solve([-1000.0, 100.0, 100.0, 100.0, 1100.0]) == 0.1
  }

  /** The first account yields one record per month from February to May. */
  lemma FirstAccountIrrs(a: string, solve: seq<real> -> real)
    requires SolvesAtTenPercent(solve)
    ensures IrrSeries(FirstAccountRows(a), a, solve) ==
      [ Irr(Some(Date(2022, 2, 1)), 0.1, a), Irr(Some(Date(2022, 3, 1)), 0.1, a),
        Irr(Some(Date(2022, 4, 1)), 0.1, a), Irr(Some(Date(2022, 5, 1)), 0.1, a) ]
  {
    var s := FirstAccountRows(a);
    assert WorkingSeries(s, 1) == [-1000.0, 1100.0];
    assert WorkingSeries(s, 2) == [-1000.0, 100.0, 1100.0];
    assert WorkingSeries(s, 3) == [-1000.0, 100.0, 100.0, 1100.0];
    assert WorkingSeries(s, 4) == [-1000.0, 100.0, 100.0, 100.0, 1100.0];
    Round4Exact(0.1, 1000);
    IrrSeriesShape(s, a, solve);
  }

  /** The second account yields one record, in April. */
  lemma SecondAccountIrrs(b: string, solve: seq<real> -> real)
    requires SolvesAtTenPercent(solve)
    ensures IrrSeries(SecondAccountRows(b), b, solve) == [Irr(Some(Date(2022, 4, 1)), 0.1, b)]
  {
    var t := SecondAccountRows(b);
    assert WorkingSeries(t, 1) == [-1000.0, 1100.0];
    Round4Exact(0.1, 1000);
    IrrSeriesShape(t, b, solve);
  }

  /** Publishing two names is the first name's IRRs followed by the second's. */
  lemma PublishedPair(a: string, b: string, cashflows: seq<Cashflow>, solve: seq<real> -> real)
    ensures PublishedIrrs([a, b], cashflows, solve) ==
      IrrSeries(LedgerOf(cashflows, a), a, solve) + IrrSeries(LedgerOf(cashflows, b), b, solve)
  {
    var first := IrrSeries(LedgerOf(cashflows, a), a, solve);
    var second := IrrSeries(LedgerOf(cashflows, b), b, solve);
    assert [a][..0] == [];
    assert PublishedIrrs([a], cashflows, solve) == first;
    assert [a, b][..1] == [a];
  }

  /** The records the integration test expects for accounts `a` and `b`. */
  function IntegrationExpected(a: string, b: string): seq<Irr> {
    [ Irr(Some(Date(2022, 2, 1)), 0.1, a), Irr(Some(Date(2022, 3, 1)), 0.1, a),
      Irr(Some(Date(2022, 4, 1)), 0.1, a), Irr(Some(Date(2022, 5, 1)), 0.1, a),
      Irr(Some(Date(2022, 4, 1)), 0.1, b) ]
  }

  /** The integration test: the pipeline publishes five records, four for the
      first account and one for the second, each with monthly rate 0.1. */
  lemma IntegrationPublished(a: string, b: string, solve: seq<real> -> real)
    requires a != b
    requires SolvesAtTenPercent(solve)
    ensures PipelineIrrs(FirstAccountRows(a) + SecondAccountRows(b), solve) == IntegrationExpected(a, b)
  {
    var rows := FirstAccountRows(a) + SecondAccountRows(b);
    IntegrationNames(a, b);
    PublishedPair(a, b, rows, solve);
    FirstAccountLedger(a, b);
    SecondAccountLedger(a, b);
    FirstAccountIrrs(a, solve);
    SecondAccountIrrs(b, solve);
  }

  /** A monthly rate of 0.1 annualises to 2.1384, whatever the record's date and name. */
  lemma ValueAnnualOfTenPercent(x: Irr)
    requires x.value == 0.1
    ensures ValueAnnual(x) == 2.1384
  {
    ValueAnnualExamples(x.entityName, x.date);
    assert x == Irr(x.date, 0.1, x.entityName);
  }

  /** Each expected record has annual rate 2.1384. */
  lemma ExpectedAnnual(a: string, b: string)
    ensures var e := IntegrationExpected(a, b);
      forall i :: 0 <= i < |e| ==> ValueAnnual(e[i]) == 2.1384
  {
    var e := IntegrationExpected(a, b);
    forall i | 0 <= i < |e|
      ensures ValueAnnual(e[i]) == 2.1384
    {
      ValueAnnualOfTenPercent(e[i]);
    }
  }

  /** Every published record of the integration test has annual rate 2.1384. */
  lemma IntegrationAnnual(a: string, b: string, solve: seq<real> -> real)
    requires a != b
    requires SolvesAtTenPercent(solve)
    ensures var r := PipelineIrrs(FirstAccountRows(a) + SecondAccountRows(b), solve);
      forall i :: 0 <= i < |r| ==> ValueAnnual(r[i]) == 2.1384
  {
    IntegrationPublished(a, b, solve);
    ExpectedAnnual(a, b);
  }

  /** The same, for the account names of the integration data. */
  lemma IntegrationScenario(solve: seq<real> -> real)
    requires SolvesAtTenPercent(solve)
    ensures PipelineIrrs(FirstAccountRows("Test Account 1") + SecondAccountRows("Test Account 2"), solve)
      == IntegrationExpected("Test Account 1", "Test Account 2")
  {
    assert "Test Account 1"[13] != "Test Account 2"[13];
    IntegrationPublished("Test Account 1", "Test Account 2", solve);
  }
}
