/**
  The repository the pipeline reads cashflows from and publishes IRRs to.
  The abstract base class has two operations; this in-memory repository
  implements them over a fixed list of source rows and a destination table,
  and counts how often each is called.
*/
module Repository {
  import opened Cashflows
  import opened Irrs
  import opened Entities

  /** The IRRs of the ledgers listed in `order`, ledger after ledger, each
      ledger's records in their own order. */
  function FlattenIrrs(entities: map<string, Entity>, order: seq<string>): (r: seq<Irr>)
    requires forall n :: n in order ==> n in entities
    reads entities.Values
  {
    if order == [] then []
    else
      var last := order[|order| - 1];
      assert entities[last] in entities.Values;
      FlattenIrrs(entities, order[..|order| - 1]) + entities[last].irrs
  }

  /** Every record comes from one of the listed ledgers, and every record of
      every listed ledger is there. */
  lemma {:induction false} FlattenIrrsMembership(entities: map<string, Entity>, order: seq<string>, x: Irr)
    requires forall n :: n in order ==> n in entities
    ensures x in FlattenIrrs(entities, order) <==> exists n :: n in order && x in entities[n].irrs
  {
    if order != [] {
      var init := order[..|order| - 1];
      var last := order[|order| - 1];
      assert forall n :: n in init ==> n in order;
      FlattenIrrsMembership(entities, init, x);
      if x in entities[last].irrs {
        assert last in order;
      }
      assert forall n :: n in order ==> n in init || n == last by {
        assert order == init + [last];
      }
    }
  }

  /** `order` lists every key of `entities` exactly once: an iteration order
      of the dictionary. */
  ghost predicate KeyOrder(entities: map<string, Entity>, order: seq<string>) {
    && (forall n :: n in order <==> n in entities)
    && (forall i, j :: 0 <= i < j < |order| ==> order[i] != order[j])
  }

  class FakeRepository {
    /** The source table the cashflows are read from. */
    var rows: seq<Cashflow>
    /** The destination table; each load replaces its contents. */
    var table: seq<Irr>
    var fetches: nat
    var loads: nat

    constructor (rows: seq<Cashflow>)
      ensures this.rows == rows && table == []
      ensures fetches == 0 && loads == 0
    {
      this.rows := rows;
      table := [];
      fetches := 0;
      loads := 0;
    }

    /** `get_cashflows`: every row of the source, in source order. */
    method GetCashflows() returns (cashflows: seq<Cashflow>)
      modifies this`fetches
      ensures cashflows == rows
      ensures fetches == old(fetches) + 1
    {
      cashflows := rows;
      fetches := fetches + 1;
    }

    /** `load_irrs`: the destination is truncated and then receives the IRRs
        of every ledger, in the dictionary's key order `order`, which lists
        every key exactly once. */
    method LoadIrrs(entities: map<string, Entity>, order: seq<string>)
      requires KeyOrder(entities, order)
      modifies this`table, this`loads
      ensures table == FlattenIrrs(entities, order)
      ensures loads == old(loads) + 1
    {
      table := FlattenIrrs(entities, order);
      loads := loads + 1;
    }
  }
}
