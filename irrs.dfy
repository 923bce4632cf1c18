/**
  The immutable IRR record: a periodic (monthly) rate for one entity at one
  date, its annualised projection and its serialised form.
*/
module Irrs {
  import opened Wrappers
  import opened Dates

  datatype Irr = Irr(date: Option<Date>, value: real, entityName: string)

  /** The dictionary `Irr.to_dict` builds, one field per key. */
  datatype IrrRecord = IrrRecord(date: string, irrMonthly: real, irrAnnual: real, entityName: string)

  function Pow(x: real, n: nat): (r: real)
    ensures x > 0.0 ==> r > 0.0
  {
    if n == 0 then 1.0 else x * Pow(x, n - 1)
  }

  /** The integer nearest to `y`, ties going to the even one (Python's `round`). */
  function RoundHalfEven(y: real): (n: int)
    ensures n as real - 0.5 <= y <= n as real + 0.5
    ensures (y == n as real - 0.5 || y == n as real + 0.5) ==> n % 2 == 0
  {
    var f := y.Floor;
    var d := y - f as real;
    if d < 0.5 then f
    else if d > 0.5 then f + 1
    else if f % 2 == 0 then f
    else f + 1
  }

  /** `round(x, 4)` on the exact value: the nearest multiple of 1/10000. */
  function Round4(x: real): (r: real)
    ensures -0.00005 <= r - x <= 0.00005
    ensures (r * 10000.0).Floor as real == r * 10000.0
  {
    RoundHalfEven(x * 10000.0) as real / 10000.0
  }

  /** A value that already has at most four decimals is left alone. */
  lemma {:induction false} Round4Exact(x: real, n: int)
    requires x == n as real / 10000.0
    ensures Round4(x) == x
  {
    assert x * 10000.0 == n as real;
  }

  /** `Irr.value_annual`: the monthly rate compounded over twelve months. */
  function ValueAnnual(irr: Irr): real {
    Round4(Pow(1.0 + irr.value, 12) - 1.0)
  }

  /** The annualised value for monthly rates 1, -1, 0.01 and 0.1. */
  lemma ValueAnnualExamples(name: string, d: Option<Date>)
    ensures ValueAnnual(Irr(d, 1.0, name)) == 4095.0
    ensures ValueAnnual(Irr(d, -1.0, name)) == -1.0
    ensures ValueAnnual(Irr(d, 0.01, name)) == 0.1268
    ensures ValueAnnual(Irr(d, 0.1, name)) == 2.1384
  {
    assert Pow(2.0, 12) == 4096.0;
    Round4Exact(4095.0, 40950000);
    assert Pow(0.0, 12) == 0.0;
    Round4Exact(-1.0, -10000);
    var p := Pow(1.01, 12);
    assert p == 1.126825030131969720661201;
    assert (p - 1.0) * 10000.0 == 1268.25030131969720661201;
    assert RoundHalfEven((p - 1.0) * 10000.0) == 1268;
    var q := Pow(1.1, 12);
    assert q == 3.138428376721;
    assert RoundHalfEven((q - 1.0) * 10000.0) == 21384;
  }

  /** `Irr.to_dict`. The date must be present: `strftime` on `None` raises. */
  function ToDict(irr: Irr): (d: IrrRecord)
    requires irr.date.Some? && Valid(irr.date.value)
    ensures Parse(d.date) == irr.date
    ensures d.irrMonthly == irr.value && d.irrAnnual == ValueAnnual(irr)
    ensures d.entityName == irr.entityName
  {
    ParseFormat(irr.date.value);
    IrrRecord(Format(irr.date.value), irr.value, ValueAnnual(irr), irr.entityName)
  }

  lemma ToDictExample()
    ensures ToDict(Irr(Some(Date(2022, 2, 1)), 1.0, "test - account"))
         == IrrRecord("2022-02-01", 1.0, 4095.0, "test - account")
  {
    ValueAnnualExamples("test - account", Some(Date(2022, 2, 1)));
  }

  /** Net present value of `series` at `rate`, the quantity `npf.irr` drives to zero. */
  function Npv(rate: real, series: seq<real>): real
    requires rate > -1.0
  {
    if series == [] then 0.0
    else Npv(rate, series[..|series| - 1]) + series[|series| - 1] / Pow(1.0 + rate, |series| - 1)
  }

  /** A monthly rate of 10% is a root of the working series that a bond-like
      account produces: one deposit of 1000, then 100 per month, then 1000
      back with the last coupon. */
  lemma TenPercentRoots()
    ensures Npv(0.1, [-1000.0, 1100.0]) == 0.0
    ensures Npv(0.1, [-1000.0, 100.0, 1100.0]) == 0.0
    ensures Npv(0.1, [-1000.0, 100.0, 100.0, 1100.0]) == 0.0
    ensures Npv(0.1, [-1000.0, 100.0, 100.0, 100.0, 1100.0]) == 0.0
  {
    assert Pow(1.1, 1) == 1.1;
    assert Pow(1.1, 2) == 1.21;
    assert Pow(1.1, 3) == 1.331;
    assert Pow(1.1, 4) == 1.4641;
    assert [-1000.0, 100.0, 100.0, 100.0, 1100.0][..4] == [-1000.0, 100.0, 100.0, 100.0];
    assert [-1000.0, 100.0, 100.0, 100.0][..3] == [-1000.0, 100.0, 100.0];
    assert [-1000.0, 100.0, 100.0, 1100.0][..3] == [-1000.0, 100.0, 100.0];
    assert [-1000.0, 100.0, 100.0][..2] == [-1000.0, 100.0];
    assert [-1000.0, 100.0, 1100.0][..2] == [-1000.0, 100.0];
    assert [-1000.0, 100.0][..1] == [-1000.0];
    assert [-1000.0, 1100.0][..1] == [-1000.0];
    assert [-1000.0][..0] == [];
  }
}
