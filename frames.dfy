/**
 * The processed sales table that both forecasters read, and the steps they
 * share: the per-brand grouping, the re-aggregation of a brand's rows to one
 * row per date, the chronological 80/20 split and the accuracy scores.
 */
module Frames {
  import opened Values
  import opened Ordering

  /** The numeric columns of the sales tables. */
  datatype Column =
    | TotalSales | QuantitySold | OnlinePopularity
    | CompetitorPrice | CategoryTrendIndex | CustomerGrowthRate | CustomerRetentionRate
    | StockLevel | SupplyDelayDays | InflationRate | WeatherScore
    | Promotion | DiscountPercentage | IsHoliday
    | SalesLag1 | SalesMA3
    | CategoryEncoded | BrandEncoded | RegionEncoded

  /** `r` keeps some of the elements of `s`, in the order `s` has them. */
  ghost predicate Subsequence<T>(r: seq<T>, s: seq<T>)
  {
    if r == [] then true
    else if s == [] then false
    else (r[0] == s[0] && Subsequence(r[1..], s[1..])) || Subsequence(r, s[1..])
  }

  /** `[c for c in wanted if c in cols]`: the wanted columns that the table has, in the wanted order. */
  function Available(wanted: seq<Column>, cols: set<Column>): (r: seq<Column>)
    ensures forall c :: c in r <==> c in wanted && c in cols
    ensures Subsequence(r, wanted)
  {
    if wanted == [] then []
    else if wanted[0] in cols then [wanted[0]] + Available(wanted[1..], cols)
    else Available(wanted[1..], cols)
  }

  /** Two column sets that agree on the wanted columns make the same selection. */
  lemma {:induction false} AvailableAgrees(wanted: seq<Column>, a: set<Column>, b: set<Column>)
    requires forall c :: c in wanted ==> (c in a <==> c in b)
    ensures Available(wanted, a) == Available(wanted, b)
  {
    if wanted != [] {
      AvailableAgrees(wanted[1..], a, b);
    }
  }

  /** One row of the processed table: one (category, brand, day) with its numeric cells. */
  datatype Record = Record(category: string, brand: string, date: int, vals: map<Column, Option<real>>)

  /** A table: the set of numeric columns it has and its rows. */
  datatype Table = Table(cols: set<Column>, rows: seq<Record>)

  /** Every row has exactly the table's columns. */
  ghost predicate WellFormed(t: Table)
  {
    forall i :: 0 <= i < |t.rows| ==> t.rows[i].vals.Keys == t.cols
  }

  /** The columns both forecasters read are in the table, and every row has every column of the table. */
  ghost predicate Readable(cols: set<Column>, rows: seq<Record>)
  {
    TotalSales in cols && OnlinePopularity in cols &&
    forall r :: r in rows ==> forall c :: c in cols ==> c in r.vals
  }

  /** The cells of one column, top to bottom. */
  function ColumnOf(rows: seq<Record>, c: Column): seq<Option<real>>
    requires forall r :: r in rows ==> c in r.vals
  {
    seq(|rows|, i requires 0 <= i < |rows| => rows[i].vals[c])
  }

  /** `df.groupby("Brand")` visits the distinct brands in ascending order. */
  function Brands(rows: seq<Record>): (bs: seq<string>)
    ensures Increasing(bs, StrLt)
    ensures forall b :: b in bs <==> exists i :: 0 <= i < |rows| && rows[i].brand == b
  {
    StrLtIsStrictTotalOrder();
    var names := seq(|rows|, i requires 0 <= i < |rows| => rows[i].brand);
    var bs := SortedDistinct(names, StrLt);
    assert forall b :: b in names <==> exists i :: 0 <= i < |rows| && rows[i].brand == b by {
      forall b ensures b in names <==> exists i :: 0 <= i < |rows| && rows[i].brand == b {
        if b in names {
          var i :| 0 <= i < |names| && names[i] == b;
        }
        if i :| 0 <= i < |rows| && rows[i].brand == b {
          assert names[i] == b;
        }
      }
    }
    bs
  }

  /** The group of one brand: its rows, in table order. */
  function BrandRecords(rows: seq<Record>, b: string): (g: seq<Record>)
    ensures forall r :: r in g <==> r in rows && r.brand == b
  {
    if rows == [] then []
    else (if rows[0].brand == b then [rows[0]] else []) + BrandRecords(rows[1..], b)
  }

  /** The rows of one day, in table order. */
  function DateRecords(rows: seq<Record>, d: int): (g: seq<Record>)
    ensures forall r :: r in g <==> r in rows && r.date == d
  {
    if rows == [] then []
    else (if rows[0].date == d then [rows[0]] else []) + DateRecords(rows[1..], d)
  }

  /** One row per date after the re-aggregation: the date and the aggregated features. */
  datatype DayRow = DayRow(date: int, vals: map<Column, Option<real>>)

  /** The columns of a re-aggregated brand table. */
  function DayColumns(regs: seq<Column>): set<Column>
  {
    {TotalSales, OnlinePopularity} + set c | c in regs
  }

  /** Every row has the columns that the re-aggregation reads. */
  ghost predicate HasColumns(rows: seq<Record>, regs: seq<Column>)
  {
    forall r :: r in rows ==> TotalSales in r.vals && OnlinePopularity in r.vals && forall c :: c in regs ==> c in r.vals
  }

  /** One aggregated cell: `Total_Sales` is summed, every other feature averaged. */
  function DayValue(group: seq<Record>, c: Column): Option<real>
    requires forall r :: r in group ==> c in r.vals
  {
    if c == TotalSales then Some(SumPresent(ColumnOf(group, c))) else MeanPresent(ColumnOf(group, c))
  }

  /** The aggregated row of one date: the date, and one cell per aggregated column, the sales cell never missing. */
  function AggregateDay(rows: seq<Record>, regs: seq<Column>, d: int): (day: DayRow)
    requires HasColumns(rows, regs)
    ensures day.date == d && day.vals.Keys == DayColumns(regs) && day.vals[TotalSales].Some?
  {
    var group := DateRecords(rows, d);
    DayRow(d, map c | c in DayColumns(regs) :: DayValue(group, c))
  }

  /** The cells of a date's row: `Total_Sales` is the day's sum, every other feature the day's mean. */
  lemma AggregateDayCells(rows: seq<Record>, regs: seq<Column>, d: int)
    requires HasColumns(rows, regs)
    ensures AggregateDay(rows, regs, d).vals[TotalSales] == Some(SumPresent(ColumnOf(DateRecords(rows, d), TotalSales)))
    ensures forall c :: c in DayColumns(regs) && c != TotalSales ==>
      AggregateDay(rows, regs, d).vals[c] == MeanPresent(ColumnOf(DateRecords(rows, d), c))
  {
  }

  /** Some row falls on day `d`. */
  ghost predicate SoldOn(rows: seq<Record>, d: int)
  {
    exists k :: 0 <= k < |rows| && rows[k].date == d
  }

  /** Some aggregated row is for day `d`. */
  ghost predicate HasDay(days: seq<DayRow>, d: int)
  {
    exists i :: 0 <= i < |days| && days[i].date == d
  }

  /** The distinct dates of some rows, ascending. */
  function Dates(rows: seq<Record>): (ds: seq<int>)
    ensures forall i, j :: 0 <= i < j < |ds| ==> ds[i] < ds[j]
    ensures forall d :: d in ds <==> SoldOn(rows, d)
  {
    IntLtIsStrictTotalOrder();
    var names := seq(|rows|, i requires 0 <= i < |rows| => rows[i].date);
    var ds := SortedDistinct(names, IntLt);
    assert forall i, j :: 0 <= i < j < |ds| ==> IntLt(ds[i], ds[j]);
    assert forall d :: d in names <==> SoldOn(rows, d) by {
      forall d ensures d in names <==> SoldOn(rows, d) {
        if k :| 0 <= k < |rows| && rows[k].date == d {
          assert names[k] == d;
        }
      }
    }
    ds
  }

  /** The aggregated rows of the given dates, one each, in the same order. */
  function AggregateDays(rows: seq<Record>, regs: seq<Column>, dates: seq<int>): (days: seq<DayRow>)
    requires HasColumns(rows, regs)
    ensures |days| == |dates|
    ensures forall i :: 0 <= i < |days| ==> days[i].date == dates[i]
    ensures forall i :: 0 <= i < |days| ==> days[i] == AggregateDay(rows, regs, dates[i])
  {
    seq(|dates|, i requires 0 <= i < |dates| => AggregateDay(rows, regs, dates[i]))
  }

  /**
   * `groupby("Date", as_index=False).agg({"Total_Sales": "sum",
   * "Online_Popularity": "mean", <regressor>: "mean", ...})`: one row per
   * distinct date, in ascending date order, each the aggregate of its date.
   */
  function AggregateByDate(rows: seq<Record>, regs: seq<Column>): (days: seq<DayRow>)
    requires HasColumns(rows, regs)
    ensures forall i, j :: 0 <= i < j < |days| ==> days[i].date < days[j].date
    ensures forall d :: HasDay(days, d) <==> SoldOn(rows, d)
    ensures forall i :: 0 <= i < |days| ==> days[i] == AggregateDay(rows, regs, days[i].date)
  {
    var dates := Dates(rows);
    var days := AggregateDays(rows, regs, dates);
    assert forall d :: HasDay(days, d) <==> SoldOn(rows, d) by {
      forall d ensures HasDay(days, d) <==> SoldOn(rows, d) {
        if HasDay(days, d) {
          var i :| 0 <= i < |days| && days[i].date == d;
          assert dates[i] in dates;
        }
        if SoldOn(rows, d) {
          assert d in dates;
          var i :| 0 <= i < |dates| && dates[i] == d;
          assert days[i].date == d;
        }
      }
    }
    days
  }

  /** The most recent date of a non-empty run of days in ascending order. */
  function LastDate(days: seq<DayRow>): (d: int)
    requires days != []
    requires forall i, j :: 0 <= i < j < |days| ==> days[i].date < days[j].date
    ensures exists i :: 0 <= i < |days| && days[i].date == d
    ensures forall i :: 0 <= i < |days| ==> days[i].date <= d
  {
    days[|days| - 1].date
  }

  /** Every row of the table has the table's columns, and the forecasters' two columns are there. */
  ghost predicate ReadableTable(t: Table)
  {
    Readable(t.cols, t.rows)
  }

  /** A brand's group of a readable table is readable. */
  lemma BrandRowsReadable(t: Table, b: string)
    requires ReadableTable(t)
    ensures Readable(t.cols, BrandRecords(t.rows, b))
  {
  }

  /**
   * `n` consecutive days, the first of them `start`: strictly ascending,
   * one day apart, and the last of them `start + n - 1`.
   */
  function ConsecutiveDays(start: int, n: nat): (ds: seq<int>)
    ensures |ds| == n
    ensures forall k :: 0 <= k < n ==> ds[k] == start + k
    ensures forall i, j :: 0 <= i < j < n ==> ds[i] < ds[j]
    ensures forall k :: 0 < k < n ==> ds[k] == ds[k - 1] + 1
    ensures n > 0 ==> ds[0] == start && ds[n - 1] == start + n - 1
  {
    seq(n, k requires 0 <= k < n => start + k)
  }

  /**
   * `int(n * 0.8)`: the size of the chronological training split. The
   * double nearest 0.8 is slightly above it, so the product never falls
   * below an integral 4n/5 and the truncation equals integer division.
   */
  function TrainSize(n: nat): (k: nat)
    ensures k <= n
    ensures n >= 1 ==> k < n
    ensures n >= 3 ==> k >= 2
    ensures n >= 20 ==> k >= 16 && n - k >= 4
  {
    (4 * n) / 5
  }
}
