# IRR calculator: a verified model of the ledger and the pipeline

The system reads a flat list of dated cashflows, one row per entity and
month. It groups the rows into one ledger per entity name and keeps each
ledger in date order. For every period transition it computes the monthly
internal rate of return (IRR) of the cashflows so far, and it publishes all
IRR records to a destination table.

The Dafny modules follow the program's structure:

- `Wrappers`: `Option`.
- `Dates`: calendar dates, their order, and `%Y-%m-%d` formatting with a parser that inverts it.
- `Cashflows`:
  - the immutable `Cashflow` record and its `__gt__`;
  - the `<` that Python's `sorted` derives from it;
  - `StableSort`, an insertion sort. A stable sort by a strict weak order has a single possible result, so `StableSort` is what `sorted` returns.
- `Irrs`:
  - the `Irr` record;
  - four-decimal rounding, round-half-even on exact reals;
  - `value_annual` and `to_dict`;
  - net present value, used only to show that 0.1 is the root in the test data.
- `Entities`:
  - the `Entity` class with its mutable fields `sortedCashflows` and `irrs`, and the methods `AddCashflow`, `CalculateIrr`, `Equals` and `Hash`;
  - the two grouping functions `allocate_cashflows_to_entities` and `entities_collection_creation`, modelled as methods over a `map<string, Entity>`.
- `Repository`: the repository interface's two operations, on an in-memory `FakeRepository`.
- `Services`: `irr_pipeline` over that repository, the specification functions it is proved against, and the integration scenario.

The IRR root finder (`npf.irr`) is a parameter `solve: seq<real> -> real`.
Every statement about IRRs holds for every solver. The test scenarios assume
only that `solve` returns 0.1 on the series they produce. `Irrs.TenPercentRoots`
proves that 0.1 is an exact root of each of those series.

Python dictionaries keep insertion order, and `irr_pipeline` iterates in that
order. The model makes the order explicit: `EntitiesCollectionCreation`
returns it as `order`, and it equals `DistinctNames(cashflows)`, the names in
order of first appearance.

## Model

| member | source | states |
|---|---|---|
| Dates.BeforeIsStrictTotalOrder | cloud_function/model.py:32 | Date comparison is irreflexive, transitive and total. |
| Dates.Format | cloud_function/model.py:74 | `%Y-%m-%d` output has ten characters, dashes at positions 4 and 7, and digits everywhere else. |
| Dates.Pad2Value | cloud_function/model.py:74 | A zero-padded two-digit field reads back as its number. |
| Dates.Pad4Value | cloud_function/model.py:74 | A zero-padded four-digit field reads back as its number. |
| Dates.TwoDigits | cloud_function/model.py:74 | Every two-digit string is the padding of its own value. |
| Dates.FourDigits | cloud_function/model.py:74 | Every four-digit string is the padding of its own value. |
| Dates.ParseFormat | cloud_function/model.py:74 | Parsing a formatted valid date gives the date back. |
| Dates.FormatParse | cloud_function/model.py:74 | A string parses to a valid date exactly when it is that date's formatting. |
| Cashflows.LtByDate | cloud_function/model.py:26-32 | The `<` that sorting uses: undated cashflows are least, dated ones go by date, and undated sorts strictly before dated. |
| Cashflows.LtIsStrictWeakOrder | cloud_function/model.py:26-32 | That `<` is irreflexive, asymmetric and transitive, and incomparability is transitive. |
| Cashflows.SortedByDate | cloud_function/model.py:26-32 | In a sorted list, undated cashflows precede dated ones and dates never decrease. |
| Cashflows.Insert | cloud_function/model.py:108-109 | Insertion adds one element and keeps all others: the length grows by one and the result is a permutation of the input plus `x`. |
| Cashflows.StableSort | cloud_function/model.py:109 | Sorting keeps the length and is a permutation of its input. |
| Cashflows.InsertSorted | cloud_function/model.py:108-109 | Inserting into a sorted list gives a sorted list. |
| Cashflows.InsertSplits | cloud_function/model.py:108-109 | The inserted element lands right after the leading elements not greater than it, so it follows equal dates. The elements before and after keep their order. |
| Cashflows.InsertionPointFirstGreater | cloud_function/model.py:108-109 | In a sorted list, every element from the insertion point on is greater than the inserted one. |
| Cashflows.InsertAtEnd | cloud_function/model.py:108-109 | If no element is greater than `x`, `x` is appended at the end. |
| Cashflows.StableSortSorted | cloud_function/model.py:109 | The sort's result is sorted. |
| Cashflows.StableSortOfSorted | cloud_function/model.py:109 | Sorting an already sorted list leaves it unchanged. |
| Cashflows.SortAppend | cloud_function/model.py:108-109 | Re-sorting after every append equals sorting all the cashflows once, and equals inserting into the sorted prefix. |
| Cashflows.SortByDateExample | tests/test_model.py:6-16 | The three dated test cashflows sort to `[c3, c1, c2]`. |
| Cashflows.SortUndatedExample | tests/test_model.py:19-29 | The undated cashflow sorts first, whichever order the two come in. |
| Irrs.RoundHalfEven | cloud_function/model.py:64 | The result is the nearest integer, and ties go to the even neighbour. |
| Irrs.Round4 | cloud_function/model.py:64 | `round(x, 4)` is within half a unit of the fourth decimal and has at most four decimals. |
| Irrs.Round4Exact | cloud_function/model.py:134 | Rounding leaves a value that already has four decimals unchanged. |
| Irrs.ValueAnnualExamples | tests/test_model.py:76-92 | Annualising maps the monthly rates 1, -1 and 0.01 to 4095, -1 and 0.1268, and 0.1 to the 2.1384 of the integration test. |
| Irrs.ToDict | cloud_function/model.py:73-78 | The record's date string parses back to the IRR's date. The monthly and annual rates and the entity name are the IRR's. |
| Irrs.ToDictExample | tests/test_model.py:95-105 | The test IRR serialises to `2022-02-01`, 1, 4095 and `test - account`. |
| Irrs.TenPercentRoots | tests/test_model.py:70-73 | 0.1 is an exact root of each series the test ledgers hand to the solver. |
| Entities.WorkingSeriesPrefix | cloud_function/model.py:124-138 | The series at step `k` depends only on the cashflows up to `k`. |
| Entities.IrrSeriesShape | cloud_function/model.py:118-137 | No records for fewer than two cashflows, otherwise one fewer than the cashflows. Record `i` carries the date of cashflow `i + 1`, the entity's name, and the rounded solver value on `[net_0, ..., net_i, value_{i+1} + net_{i+1}]`. |
| Entities.IrrSeriesExample | tests/test_model.py:50-73 | The three test cashflows give the series `[-1000, 1100]` and `[-1000, 100, 1100]`, and with a solver returning 0.1 on them, two records dated February and March. |
| Entities.Entity.constructor | cloud_function/model.py:96-99 | A new entity has the given name and empty lists. |
| Entities.Entity.AddCashflow | cloud_function/model.py:101-109 | The new list is the stable sort of the old list plus the cashflow. It is sorted and a permutation of the old contents plus the cashflow. When the old list was sorted, the new one is the insertion of the cashflow into it. Only `sortedCashflows` changes. |
| Entities.Entity.CalculateIrr | cloud_function/model.py:111-138 | The loop that keeps the working series produces exactly `IrrSeries` of the ledger. Only `irrs` changes, and it is replaced rather than appended to, so recomputing with the same solver gives the same list. |
| Entities.EqualsByName | cloud_function/model.py:140-143 | Two entities are equal exactly when their names are equal, and equality is an equivalence. |
| Entities.NotEqualToOtherObjects | cloud_function/model.py:141-142 | An entity never equals an object of another class. |
| Entities.HashConsistentWithEquals | cloud_function/model.py:145-146 | Equal entities hash alike. |
| Entities.NameSet | cloud_function/model.py:178-181 | Every cashflow's entity name is in the name set. |
| Entities.NameSetMembership | cloud_function/model.py:179 | A name is in the set exactly when some cashflow carries it. |
| Entities.DistinctNamesSpec | cloud_function/model.py:180-181 | The key order holds exactly the names that occur, each once. |
| Entities.NamesOfLongerPrefix | cloud_function/model.py:180-181 | One step of the creation loop adds a new name to the key set, and appends it to the order only if it is new. |
| Entities.WithNameMembers | cloud_function/model.py:162-163 | The cashflows of a name are exactly the input cashflows carrying that name. |
| Entities.RoutedByName | cloud_function/model.py:163 | When distinct keys hold distinct ledgers, the ledger under a name receives exactly the cashflows with that name, in input order. |
| Entities.AllocationStep | cloud_function/model.py:162-163 | After each routed cashflow, every ledger holds its starting cashflows plus everything routed to it so far, sorted. |
| Entities.RouteOne | cloud_function/model.py:163 | The ledger under the cashflow's name is re-sorted with the cashflow appended; every other ledger is unchanged. |
| Entities.AllocateCashflowsToEntities | cloud_function/model.py:149-166 | Requires every cashflow name to be a key, the source's `KeyError`. Also requires every ledger to be sorted on entry; both callers pass fresh empty entities. Each ledger ends as the stable sort of its old list plus the cashflows routed to it, stays sorted, and the same map is returned. Only ledger lists change. |
| Entities.EntitiesCollectionCreation | cloud_function/model.py:169-183 | The keys are exactly the names that occur, and the key order is first appearance. Each value is a fresh entity with that name and empty lists, and distinct keys hold distinct objects. |
| Entities.AllocateExample | tests/test_model.py:32-47 | Two cashflows given newest first end up oldest first in the ledger. |
| Repository.FlattenIrrsMembership | cloud_function/repository.py:131 | A record is published exactly when it belongs to one of the listed ledgers. |
| Repository.FakeRepository.constructor | cloud_function/repository.py:6-15 | A fake repository starts with the given source rows, an empty destination and no calls. |
| Repository.FakeRepository.GetCashflows | cloud_function/repository.py:17-28 | Returns every source row in order and records one fetch. |
| Repository.FakeRepository.LoadIrrs | cloud_function/repository.py:123-136 | Requires `order` to list every key of the map exactly once, as iterating `entities.values()` does. Truncates the destination and writes the IRRs of every ledger in that order, recording one load. |
| Services.LedgerOf | cloud_function/services.py:14-15 | The ledger a name receives is sorted and is a permutation of the cashflows with that name. |
| Services.WithNameCount | cloud_function/model.py:162-163 | A name's cashflows keep every copy of each cashflow with that name and no copy of any other. |
| Services.EveryCashflowPlacedOnce | cloud_function/services.py:15 | Every fetched cashflow's name is a key. The cashflow appears in its own entity's ledger as often as in the input, and in no other ledger. |
| Services.AllocatedLedgers | cloud_function/services.py:14-15 | With distinct ledger objects, allocating into empty ledgers gives every key exactly its `LedgerOf`. |
| Services.PublishedCount | cloud_function/services.py:20 | The number of published records is the sum over entities of `max(0, n - 1)`. |
| Services.PublishedProvenance | cloud_function/services.py:17-20 | Every published record names a listed entity and carries the date of one of that entity's cashflows. |
| Services.FlattenPublished | cloud_function/services.py:20 | Flattening the computed ledgers in key order gives `PublishedIrrs`. |
| Services.CalculateIrrs | cloud_function/services.py:17-18 | After the loop, every ledger in key order has computed its IRRs from its own cashflows. |
| Services.GroupCashflows | cloud_function/services.py:14-15 | Creating the map from the fetched list makes every allocation lookup succeed, and each key ends with a fresh entity holding its `LedgerOf`. |
| Services.ComputeLedgers | cloud_function/services.py:14-18 | IRRs are computed after allocation. `order` lists every key exactly once, and every ledger's IRRs are those of its `LedgerOf`. |
| Services.IrrPipeline | cloud_function/services.py:5-20 | Exactly one fetch and one load, the source rows untouched, and the destination holding `PipelineIrrs` of the fetched rows. |
| Services.IntegrationNames | tests/data/cashflows.py:3-53 | The integration rows name the two accounts, in order. |
| Services.FirstAccountLedger | tests/data/cashflows.py:3-38 | The first account's ledger is its five rows in date order. |
| Services.SecondAccountLedger | tests/data/cashflows.py:39-53 | The second account's ledger is its two rows in date order. |
| Services.FirstAccountIrrs | tests/test_services.py:19-26 | The first account publishes four records at rate 0.1, dated February to May. |
| Services.SecondAccountIrrs | tests/test_services.py:27-28 | The second account publishes one record at rate 0.1, dated April. |
| Services.IntegrationPublished | tests/test_services.py:13-29 | The pipeline over the integration rows, taken in the data file's order, publishes exactly the five expected records. |
| Services.ValueAnnualOfTenPercent | cloud_function/model.py:64 | A monthly rate of 0.1 annualises to 2.1384, whatever the record's date and name. |
| Services.ExpectedAnnual | tests/test_services.py:18-29 | Each expected record's annual rate is 2.1384. |
| Services.IntegrationAnnual | tests/test_services.py:18-29 | Every record the pipeline publishes for the integration rows has annual rate 2.1384. |
| Services.IntegrationScenario | tests/test_services.py:13-29 | The same five records for the accounts `Test Account 1` and `Test Account 2`. |

## Left out

- `npf.irr`: the numeric root finder is the parameter `solve`. Its convergence, its failures and NaN results are not modelled.
- Floating point: amounts and rates are exact reals. `round(_, 4)` is round-half-even on the exact value, not on a binary double.
- Double-precision effects on the annual rate: on doubles `1.1 ** 12 - 1` is only close to 2.138428376721, while on exact reals it equals that value. Both round to 2.1384.
- The `print` diagnostic in `calculate_irr` for fewer than two cashflows is a side effect only. The model just leaves `irrs` empty.
- `to_dict` with a missing date, where `strftime` would fail: `Irrs.ToDict` requires a date.
- Years before 1000: `Dates.Format` always pads `%Y` to four digits, which a C library's `strftime` may not do.
- Time of day: cashflow dates are calendar dates. `datetime` values with a time of day are not modelled.
- Entities.AllocateCashflowsToEntities: a name that is not a key is a precondition. The source raises `KeyError` partway through, with earlier ledgers already updated, and that partial state is not modelled. The pipeline never reaches it, as `Services.GroupCashflows` proves.
- Entities.AllocateCashflowsToEntities: its `ensures` does not restate that `irrs` is unchanged. The `modifies` clause, restricted to the `sortedCashflows` fields, already states it.
- Python's string hash is the parameter `strHash` of `Entities.Entity.Hash`.
- `AbstractRepository` is modelled through a single in-memory class, `FakeRepository`, which has its two operations.
- `BiqQueryRepository` (cloud_function/repository.py:45-136) and the BigQuery client are cloud I/O. The BigQuery load serialises each record with `to_dict`, which is modelled separately as `Irrs.ToDict`.
- The fake's destination stores `Irr` values, and the write-truncate disposition is modelled as overwriting.
- cloud_function/query.py is SQL text and is not part of this model.
- cloud_function/main.py, the Pub/Sub entry point, is not part of this model.
- The test configuration files are not part of this model.
- The integration test reads the destination back with `ORDER BY entity_name, date`. That read is not modelled. The records are shown in the order `load_irrs` writes them. That order follows the order in which account names first appear in the fetched rows.
- Services.IntegrationScenario: the rows are taken in the data file's order. The source fetches with `SELECT *` and no `ORDER BY`, so no row order is promised. If account 2's rows came first, its record would be written first. Each account's ledger is the same either way, because its dates are distinct. Only the `ORDER BY` read-back makes the test independent of the fetch order.
