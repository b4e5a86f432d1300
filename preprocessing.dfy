/**
 * The feature builder (`preprocess_data`): the raw observation table is
 * imputed, sorted by brand and date, label-encoded, given a per-brand lag and
 * trailing mean of sales, standardised, and aggregated to one row per
 * (category, brand, date), the table both forecasters read.
 *
 * The raw table is held column by column, as a data frame is: the label
 * cells of each row (category, brand, region, date) and one sequence of
 * cells per numeric column.
 */
module Preprocessing {
  import opened Values
  import opened Ordering
  import opened Frames

  /** The label cells of one raw observation. */
  datatype Key = Key(category: string, brand: string, region: string, date: int)

  /** A raw data frame: the label cells of each row and the numeric columns it has. */
  datatype RawFrame = RawFrame(keys: seq<Key>, data: map<Column, seq<Option<real>>>)

  /** Every numeric column has one cell per row. */
  ghost predicate Rectangular(keys: seq<Key>, data: map<Column, seq<Option<real>>>)
  {
    forall c :: c in data ==> |data[c]| == |keys|
  }

  // ---------------------------------------------------------------------
  // Median imputation
  // ---------------------------------------------------------------------

  /** Ascending (ties allowed). */
  ghost predicate Ascending(s: seq<real>)
  {
    forall i, j :: 0 <= i < j < |s| ==> s[i] <= s[j]
  }

  /** Puts `x` into its place in an ascending sequence. */
  function InsertReal(x: real, s: seq<real>): (r: seq<real>)
    ensures |r| == |s| + 1
    ensures multiset(r) == multiset(s) + multiset{x}
  {
    if s == [] then [x]
    else if x <= s[0] then [x] + s
    else
      assert s == [s[0]] + s[1..];
      [s[0]] + InsertReal(x, s[1..])
  }

  /** A head no larger than any element of an ascending tail gives an ascending sequence. */
  lemma ConsAscending(h: real, t: seq<real>)
    requires Ascending(t) && forall k :: 0 <= k < |t| ==> h <= t[k]
    ensures Ascending([h] + t)
  {
    var r := [h] + t;
    forall i, j | 0 <= i < j < |r| ensures r[i] <= r[j] {
      assert r[j] == t[j - 1];
      if i > 0 {
        assert r[i] == t[i - 1];
      }
    }
  }

  /** A lower bound of `x` and of every element is a lower bound after the insertion. */
  lemma {:induction false} InsertRealAbove(x: real, s: seq<real>, lo: real)
    requires lo <= x && forall k :: 0 <= k < |s| ==> lo <= s[k]
    ensures forall k :: 0 <= k < |s| + 1 ==> lo <= InsertReal(x, s)[k]
  {
    if s != [] && x > s[0] {
      InsertRealAbove(x, s[1..], lo);
      assert InsertReal(x, s) == [s[0]] + InsertReal(x, s[1..]);
    }
  }

  /** Inserting into an ascending sequence keeps it ascending. */
  lemma {:induction false} InsertRealAscending(x: real, s: seq<real>)
    requires Ascending(s)
    ensures Ascending(InsertReal(x, s))
  {
    if s == [] {
    } else if x <= s[0] {
      ConsAscending(x, s);
    } else {
      var rest := s[1..];
      InsertRealAscending(x, rest);
      InsertRealAbove(x, rest, s[0]);
      ConsAscending(s[0], InsertReal(x, rest));
    }
  }

  /** The values in ascending order. */
  function SortReals(xs: seq<real>): (r: seq<real>)
    ensures Ascending(r)
    ensures multiset(r) == multiset(xs)
  {
    if xs == [] then []
    else
      assert xs == [xs[0]] + xs[1..];
      InsertRealAscending(xs[0], SortReals(xs[1..]));
      InsertReal(xs[0], SortReals(xs[1..]))
  }

  /**
   * pandas `median()` of the present values: the middle of the sorted
   * values, or the mean of the two middle ones for an even count. It lies
   * between the smallest and the largest value.
   */
  function Median(xs: seq<real>): (m: real)
    requires xs != []
    ensures Min(xs) <= m <= Max(xs)
  {
    var s := SortReals(xs);
    var n := |s|;
    assert |s| == |xs| by {
      assert |multiset(s)| == |multiset(xs)|;
    }
    assert s[0] in multiset(xs) && s[n - 1] in multiset(xs);
    assert s[0] in xs && s[n - 1] in xs;
    assert Min(xs) <= s[0] && s[n - 1] <= Max(xs);
    if n % 2 == 1 then
      assert s[0] <= s[n / 2] <= s[n - 1];
      s[n / 2]
    else
      assert s[0] <= s[n / 2 - 1] <= s[n / 2] <= s[n - 1];
      (s[n / 2 - 1] + s[n / 2]) / 2.0
  }

  /**
   * `col.fillna(col.median())`: the missing values of a column become the
   * median of its present values; a column with no value present stays as
   * it is (its median is missing).
   */
  function MedianFill(xs: seq<Option<real>>): (r: seq<Option<real>>)
    ensures |r| == |xs|
  {
    var p := Present(xs);
    if p == [] then xs else FillMissing(xs, Median(p))
  }

  /**
   * Median imputation keeps every present value, and when some value is
   * present it leaves no value missing, each filled one lying between the
   * smallest and the largest present value.
   */
  lemma MedianFillFills(xs: seq<Option<real>>)
    ensures forall i :: 0 <= i < |xs| && xs[i].Some? ==> MedianFill(xs)[i] == xs[i]
    ensures Present(xs) != [] ==> AllPresent(MedianFill(xs))
    ensures Present(xs) != [] ==> forall i :: 0 <= i < |xs| && xs[i].None? ==>
      MedianFill(xs)[i] == Some(Median(Present(xs))) &&
      Min(Present(xs)) <= MedianFill(xs)[i].value <= Max(Present(xs))
    ensures Present(xs) == [] ==> MedianFill(xs) == xs
  {
  }

  /** The columns imputed with their median unconditionally: the frame must have them. */
  const MedianColumns: seq<Column> := [OnlinePopularity, TotalSales, QuantitySold]

  /** The covariates imputed with their median when the frame has them. */
  const NumericFillColumns: seq<Column> := [
    CompetitorPrice, CategoryTrendIndex, CustomerGrowthRate,
    CustomerRetentionRate, StockLevel, SupplyDelayDays,
    InflationRate, WeatherScore]

  /** How a column's missing values are filled. */
  datatype Filling = ByMedian | ByZero | Unfilled

  /** Median for the listed columns, 0 for the holiday flag, nothing for the rest. */
  function FillingOf(c: Column): (f: Filling)
    ensures f == ByMedian <==> c in MedianColumns || c in NumericFillColumns
    ensures f == ByZero <==> c == IsHoliday
  {
    match c
    case OnlinePopularity | TotalSales | QuantitySold => ByMedian
    case CompetitorPrice | CategoryTrendIndex | CustomerGrowthRate => ByMedian
    case CustomerRetentionRate | StockLevel | SupplyDelayDays => ByMedian
    case InflationRate | WeatherScore => ByMedian
    case IsHoliday => ByZero
    case _ => Unfilled
  }

  /** A whole-column fill. */
  type ColumnFill = seq<Option<real>> -> seq<Option<real>>

  /** `fillna(0)`. */
  function ZeroFill(xs: seq<Option<real>>): seq<Option<real>>
  {
    FillMissing(xs, 0.0)
  }

  /** The imputation of one column, given the median and the zero fill. */
  function ImputedWith(c: Column, xs: seq<Option<real>>, median: ColumnFill, zero: ColumnFill): seq<Option<real>>
  {
    match FillingOf(c)
    case ByMedian => median(xs)
    case ByZero => zero(xs)
    case Unfilled => xs
  }

  /** The imputation of every column of a frame, given the median and the zero fill. */
  function ImputeWith(data: map<Column, seq<Option<real>>>, median: ColumnFill, zero: ColumnFill): (r: map<Column, seq<Option<real>>>)
    ensures r.Keys == data.Keys
  {
    map c | c in data :: ImputedWith(c, data[c], median, zero)
  }

  /** The imputation of every column of a frame. */
  function Impute(data: map<Column, seq<Option<real>>>): (r: map<Column, seq<Option<real>>>)
    ensures r.Keys == data.Keys
  {
    ImputeWith(data, MedianFill, ZeroFill)
  }

  /**
   * What the imputation does to each column: the median columns keep their
   * present values and, when one is present, have none missing; a missing
   * holiday flag becomes 0 and every other holiday flag is kept; every other
   * column is unchanged.
   */
  lemma ImputeColumns(data: map<Column, seq<Option<real>>>)
    ensures forall c :: c in data && (c in MedianColumns || c in NumericFillColumns) ==>
      Impute(data)[c] == MedianFill(data[c])
    ensures IsHoliday in data ==> forall i :: 0 <= i < |data[IsHoliday]| ==>
      Impute(data)[IsHoliday][i] == if data[IsHoliday][i].Some? then data[IsHoliday][i] else Some(0.0)
    ensures forall c :: c in data && c !in MedianColumns && c !in NumericFillColumns && c != IsHoliday ==>
      Impute(data)[c] == data[c]
  {
    assert IsHoliday !in MedianColumns && IsHoliday !in NumericFillColumns;
  }

  /** No column is listed twice. */
  ghost predicate Distinct(listed: seq<Column>)
  {
    forall i, j :: 0 <= i < j < |listed| ==> listed[i] != listed[j]
  }

  /** The place of a covariate in its list; 8 for every other column. */
  function CovariateRank(c: Column): (k: nat)
    ensures k <= |NumericFillColumns|
    ensures k < |NumericFillColumns| ==> NumericFillColumns[k] == c
  {
    match c
    case CompetitorPrice => 0
    case CategoryTrendIndex => 1
    case CustomerGrowthRate => 2
    case CustomerRetentionRate => 3
    case StockLevel => 4
    case SupplyDelayDays => 5
    case InflationRate => 6
    case WeatherScore => 7
    case _ => 8
  }

  /** Neither list repeats a column, they share none, and neither holds the holiday flag. */
  lemma ImputationLists()
    ensures Distinct(MedianColumns) && Distinct(NumericFillColumns)
    ensures forall c :: c in MedianColumns ==> c !in NumericFillColumns
    ensures IsHoliday !in MedianColumns && IsHoliday !in NumericFillColumns
  {
    assert forall k :: 0 <= k < |NumericFillColumns| ==> CovariateRank(NumericFillColumns[k]) == k;
  }

  /** The frame after filling each listed column it has. */
  function FillColumns(data: map<Column, seq<Option<real>>>, listed: seq<Column>, fill: ColumnFill): (r: map<Column, seq<Option<real>>>)
    ensures r.Keys == data.Keys
  {
    map c | c in data :: if c in listed then fill(data[c]) else data[c]
  }

  /** The frame after filling its holiday flag, when it has one. */
  function FillHoliday(data: map<Column, seq<Option<real>>>, zero: ColumnFill): (r: map<Column, seq<Option<real>>>)
    ensures r.Keys == data.Keys
  {
    if IsHoliday in data then data[IsHoliday := zero(data[IsHoliday])] else data
  }

  /**
   * Filling the required columns, then the covariates, then the holiday flag
   * imputes every column once, by its own rule, whatever the fills are.
   */
  lemma ImputeInSteps(data: map<Column, seq<Option<real>>>, median: ColumnFill, zero: ColumnFill)
    ensures FillHoliday(FillColumns(FillColumns(data, MedianColumns, median), NumericFillColumns, median), zero)
      == ImputeWith(data, median, zero)
  {
    var required := FillColumns(data, MedianColumns, median);
    var covariates := FillColumns(required, NumericFillColumns, median);
    var filled := FillHoliday(covariates, zero);
    ImputationLists();
    forall c | c in data
      ensures filled[c] == ImputedWith(c, data[c], median, zero)
    {
    }
  }

  /** Fills each listed column the frame has, one column reassigned at a time. */
  method FillListed(data0: map<Column, seq<Option<real>>>, listed: seq<Column>, fill: ColumnFill)
    returns (data: map<Column, seq<Option<real>>>)
    requires Distinct(listed)
    ensures data == FillColumns(data0, listed, fill)
  {
    data := data0;
    var j := 0;
    while j < |listed|
      invariant 0 <= j <= |listed|
      invariant data == FillColumns(data0, listed[..j], fill)
    {
      var c := listed[j];
      ghost var done := listed[..j];
      assert c !in done;
      assert listed[..j + 1] == done + [c];
      if c in data {
        data := data[c := fill(data[c])];
      }
      j := j + 1;
      forall d | d in data0
        ensures data[d] == FillColumns(data0, listed[..j], fill)[d]
      {
        assert d in listed[..j] <==> d in done || d == c;
      }
    }
    assert listed[..j] == listed;
  }

  /**
   * The imputation as the source runs it: the three required columns, then
   * each listed covariate the frame has, then the holiday flag.
   */
  method ImputeMissing(data0: map<Column, seq<Option<real>>>) returns (data: map<Column, seq<Option<real>>>)
    requires OnlinePopularity in data0 && TotalSales in data0 && QuantitySold in data0
    ensures data == Impute(data0)
  {
    ImputationLists();
    data := FillListed(data0, MedianColumns, MedianFill);
    data := FillListed(data, NumericFillColumns, MedianFill);
    if IsHoliday in data {
      data := data[IsHoliday := ZeroFill(data[IsHoliday])];
    }
    ImputeInSteps(data0, MedianFill, ZeroFill);
  }

  // ---------------------------------------------------------------------
  // Sorting by brand, then date
  // ---------------------------------------------------------------------

  /** Row `a` sorts strictly before row `b`: by brand, then by date. */
  predicate SortsBefore(a: Key, b: Key)
  {
    StrLt(a.brand, b.brand) || (a.brand == b.brand && a.date < b.date)
  }

  /** Two rows that agree on the sort columns. */
  predicate Ties(a: Key, b: Key)
  {
    a.brand == b.brand && a.date == b.date
  }

  lemma SortsBeforeIrreflexive(a: Key)
    ensures !SortsBefore(a, a)
  {
    StrLtIrreflexive(a.brand);
  }

  lemma SortsBeforeTransitive(a: Key, b: Key, c: Key)
    requires SortsBefore(a, b) && SortsBefore(b, c)
    ensures SortsBefore(a, c)
  {
    if StrLt(a.brand, b.brand) && StrLt(b.brand, c.brand) {
      StrLtTransitive(a.brand, b.brand, c.brand);
    }
  }

  /** Of two rows, one sorts before the other or they tie. */
  lemma SortsBeforeTotal(a: Key, b: Key)
    ensures SortsBefore(a, b) || SortsBefore(b, a) || Ties(a, b)
  {
    StrLtTotal(a.brand, b.brand);
  }

  /** Every entry is a row index below `n`. */
  ghost predicate IndicesBelow(s: seq<nat>, n: nat)
  {
    forall p :: 0 <= p < |s| ==> s[p] < n
  }

  /** No row index is listed twice. */
  ghost predicate NoRepeats(s: seq<nat>)
  {
    forall p, q :: 0 <= p < q < |s| ==> s[p] != s[q]
  }

  /**
   * The rows listed in `s` are in (brand, date) order, and rows that tie
   * keep the order they had in the table: a stable sort.
   */
  ghost predicate SortedStably(keys: seq<Key>, s: seq<nat>)
    requires IndicesBelow(s, |keys|)
  {
    forall p, q :: 0 <= p < q < |s| ==>
      !SortsBefore(keys[s[q]], keys[s[p]]) && (Ties(keys[s[p]], keys[s[q]]) ==> s[p] < s[q])
  }

  /** Places row `i` after every listed row that does not sort after it. */
  function Place(keys: seq<Key>, s: seq<nat>, i: nat): (r: seq<nat>)
    requires i < |keys| && IndicesBelow(s, |keys|)
    ensures |r| == |s| + 1 && IndicesBelow(r, |keys|)
    ensures forall x :: x in r <==> x == i || x in s
  {
    if s == [] then [i]
    else if SortsBefore(keys[i], keys[s[0]]) then [i] + s
    else
      assert s == [s[0]] + s[1..];
      [s[0]] + Place(keys, s[1..], i)
  }

  /** A row that sorts before the first listed row sorts before all of them, and ties none. */
  lemma PlaceFirst(keys: seq<Key>, s: seq<nat>, i: nat)
    requires i < |keys| && IndicesBelow(s, |keys|) && s != []
    requires SortedStably(keys, s)
    requires SortsBefore(keys[i], keys[s[0]])
    ensures forall q :: 0 <= q < |s| ==> !SortsBefore(keys[s[q]], keys[i]) && !Ties(keys[i], keys[s[q]])
  {
    forall q | 0 <= q < |s|
      ensures !SortsBefore(keys[s[q]], keys[i]) && !Ties(keys[i], keys[s[q]])
    {
      SortsBeforeIrreflexive(keys[s[0]]);
      if SortsBefore(keys[s[q]], keys[i]) {
        SortsBeforeTransitive(keys[s[q]], keys[i], keys[s[0]]);
      }
      if Ties(keys[i], keys[s[q]]) {
        assert SortsBefore(keys[s[q]], keys[s[0]]);
      }
    }
  }

  /** Every row of the tail of a stably sorted listing may follow its head. */
  lemma TailFollowsHead(keys: seq<Key>, s: seq<nat>)
    requires IndicesBelow(s, |keys|) && s != []
    requires SortedStably(keys, s) && NoRepeats(s)
    ensures forall x :: x in s[1..] ==>
      !SortsBefore(keys[x], keys[s[0]]) && (Ties(keys[s[0]], keys[x]) ==> s[0] < x) && x != s[0]
  {
    forall x | x in s[1..]
      ensures !SortsBefore(keys[x], keys[s[0]]) && (Ties(keys[s[0]], keys[x]) ==> s[0] < x) && x != s[0]
    {
      var m :| 0 <= m < |s[1..]| && s[1..][m] == x;
      assert s[m + 1] == x;
    }
  }

  /** A head that may precede every row of a stably sorted listing keeps it stably sorted. */
  lemma ConsSorted(keys: seq<Key>, h: nat, t: seq<nat>)
    requires h < |keys| && IndicesBelow(t, |keys|)
    requires SortedStably(keys, t) && NoRepeats(t)
    requires forall x :: x in t ==> !SortsBefore(keys[x], keys[h]) && (Ties(keys[h], keys[x]) ==> h < x) && x != h
    ensures IndicesBelow([h] + t, |keys|)
    ensures SortedStably(keys, [h] + t) && NoRepeats([h] + t)
  {
    var r := [h] + t;
    forall p, q | 0 <= p < q < |r|
      ensures !SortsBefore(keys[r[q]], keys[r[p]]) && (Ties(keys[r[p]], keys[r[q]]) ==> r[p] < r[q])
      ensures r[p] != r[q]
    {
      if p == 0 {
        assert r[q] == t[q - 1] && r[q] in t;
      } else {
        assert r[p] == t[p - 1] && r[q] == t[q - 1];
      }
    }
  }

  /** Placing a row that comes after every listed one in the table keeps the listing stably sorted. */
  lemma {:induction false} PlaceSorted(keys: seq<Key>, s: seq<nat>, i: nat)
    requires i < |keys| && IndicesBelow(s, |keys|)
    requires SortedStably(keys, s) && NoRepeats(s)
    requires forall p :: 0 <= p < |s| ==> s[p] < i
    ensures SortedStably(keys, Place(keys, s, i)) && NoRepeats(Place(keys, s, i))
  {
    if s == [] {
    } else if SortsBefore(keys[i], keys[s[0]]) {
      PlaceFirst(keys, s, i);
      assert forall x :: x in s ==> x != i;
      ConsSorted(keys, i, s);
    } else {
      PlaceSorted(keys, s[1..], i);
      TailFollowsHead(keys, s);
      ConsSorted(keys, s[0], Place(keys, s[1..], i));
    }
  }

  /** The stable sort order of the first `n` rows: each row placed in turn. */
  function SortOrder(keys: seq<Key>, n: nat): (order: seq<nat>)
    requires n <= |keys|
    ensures |order| == n && IndicesBelow(order, |keys|)
    ensures forall x: int :: x in order <==> 0 <= x < n
  {
    if n == 0 then [] else Place(keys, SortOrder(keys, n - 1), n - 1)
  }

  /** The sort order of the first `n` rows lists only rows below `n`. */
  lemma OrderBelow(keys: seq<Key>, n: nat)
    requires n <= |keys|
    ensures forall p :: 0 <= p < n ==> SortOrder(keys, n)[p] < n
  {
    var s := SortOrder(keys, n);
    forall p | 0 <= p < n ensures s[p] < n {
      assert s[p] in s;
    }
  }

  /** The sort order lists each of the first `n` rows once, in stably sorted order. */
  lemma {:induction false} SortOrderSorted(keys: seq<Key>, n: nat)
    requires n <= |keys|
    ensures NoRepeats(SortOrder(keys, n)) && SortedStably(keys, SortOrder(keys, n))
  {
    if n > 0 {
      var s := SortOrder(keys, n - 1);
      SortOrderSorted(keys, n - 1);
      OrderBelow(keys, n - 1);
      PlaceSorted(keys, s, n - 1);
      assert SortOrder(keys, n) == Place(keys, s, n - 1);
    }
  }

  /** The rows taken in the listed order. */
  function Permute<T>(xs: seq<T>, order: seq<nat>): (r: seq<T>)
    requires IndicesBelow(order, |xs|)
    ensures |r| == |order|
  {
    seq(|order|, p requires 0 <= p < |order| => xs[order[p]])
  }

  /** `df.sort_values(by=["Brand", "Date"])`: every column reordered by the stable sort order. */
  function SortByBrandDate(f: RawFrame): (g: RawFrame)
    requires Rectangular(f.keys, f.data)
    ensures Rectangular(g.keys, g.data) && |g.keys| == |f.keys| && g.data.Keys == f.data.Keys
  {
    var order := SortOrder(f.keys, |f.keys|);
    RawFrame(Permute(f.keys, order), map c | c in f.data :: Permute(f.data[c], order))
  }

  /**
   * The sorted frame holds the same rows, each once: its row `p` is the
   * input row `order[p]` in every column, where `order` lists every row
   * index once. The rows are in (brand, date) order, and rows that tie keep
   * their input order.
   */
  lemma SortByBrandDateSorts(f: RawFrame)
    requires Rectangular(f.keys, f.data)
    ensures var g := SortByBrandDate(f);
      var order := SortOrder(f.keys, |f.keys|);
      && |order| == |f.keys|
      && (forall x :: x in order <==> 0 <= x < |f.keys|)
      && NoRepeats(order)
      && (forall p :: 0 <= p < |order| ==> g.keys[p] == f.keys[order[p]])
      && (forall c, p :: c in f.data && 0 <= p < |order| ==> g.data[c][p] == f.data[c][order[p]])
      && (forall p, q :: 0 <= p < q < |g.keys| ==> !SortsBefore(g.keys[q], g.keys[p]))
      && (forall p, q :: 0 <= p < q < |g.keys| && Ties(g.keys[p], g.keys[q]) ==> order[p] < order[q])
  {
    SortOrderSorted(f.keys, |f.keys|);
  }

  // ---------------------------------------------------------------------
  // Label encoding
  // ---------------------------------------------------------------------

  /** The text columns that are label-encoded. */
  datatype Label = CategoryLabel | BrandLabel | RegionLabel

  function LabelOf(k: Key, l: Label): string
  {
    match l
    case CategoryLabel => k.category
    case BrandLabel => k.brand
    case RegionLabel => k.region
  }

  /** The `_Encoded` column a label is written to. */
  function EncodedColumn(l: Label): Column
  {
    match l
    case CategoryLabel => CategoryEncoded
    case BrandLabel => BrandEncoded
    case RegionLabel => RegionEncoded
  }

  /** The text of one label column, top to bottom. */
  function Labels(keys: seq<Key>, l: Label): (names: seq<string>)
    ensures |names| == |keys|
  {
    seq(|keys|, i requires 0 <= i < |keys| => LabelOf(keys[i], l))
  }

  /** `LabelEncoder.classes_`: the distinct strings in ascending order. */
  function Classes(names: seq<string>): (cls: seq<string>)
    ensures Increasing(cls, StrLt)
    ensures forall x :: x in cls <==> x in names
  {
    StrLtIsStrictTotalOrder();
    SortedDistinct(names, StrLt)
  }

  /** `LabelEncoder().fit_transform`: each string becomes its position among the classes. */
  function Encode(names: seq<string>): (codes: seq<Option<real>>)
    ensures |codes| == |names|
  {
    var cls := Classes(names);
    seq(|names|, i requires 0 <= i < |names| => Some(IndexOf(cls, names[i]) as real))
  }

  /** The codes are whole numbers in 0..k-1, where k is the number of distinct strings. */
  lemma EncodeRange(names: seq<string>)
    ensures forall i :: 0 <= i < |names| ==>
      var code := Encode(names)[i];
      code.Some? && 0.0 <= code.value < |Classes(names)| as real && code.value.Floor as real == code.value
  {
  }

  /** Two rows get the same code exactly when they have the same string. */
  lemma EncodeInjective(names: seq<string>)
    ensures forall i, j :: 0 <= i < |names| && 0 <= j < |names| ==>
      (Encode(names)[i] == Encode(names)[j] <==> names[i] == names[j])
  {
    var cls := Classes(names);
    forall i, j | 0 <= i < |names| && 0 <= j < |names| && Encode(names)[i] == Encode(names)[j]
      ensures names[i] == names[j]
    {
      assert cls[IndexOf(cls, names[i])] == names[i];
    }
  }

  /** Codes follow the order of the strings. */
  lemma EncodeOrdered(names: seq<string>)
    ensures forall i, j :: 0 <= i < |names| && 0 <= j < |names| && StrLt(names[i], names[j]) ==>
      Encode(names)[i].value < Encode(names)[j].value
  {
    var cls := Classes(names);
    StrLtIsStrictTotalOrder();
    forall i, j | 0 <= i < |names| && 0 <= j < |names| && StrLt(names[i], names[j])
      ensures Encode(names)[i].value < Encode(names)[j].value
    {
      IndexOfIncreasing(cls, StrLt, names[i], names[j]);
    }
  }

  /** Every code in 0..k-1 is used: code m is given to the rows holding the m-th class. */
  lemma EncodeOnto(names: seq<string>)
    ensures forall m :: 0 <= m < |Classes(names)| ==>
      exists i :: 0 <= i < |names| && names[i] == Classes(names)[m] && Encode(names)[i] == Some(m as real)
  {
    var cls := Classes(names);
    forall m | 0 <= m < |cls|
      ensures exists i :: 0 <= i < |names| && names[i] == cls[m] && Encode(names)[i] == Some(m as real)
    {
      assert cls[m] in names;
      var i :| 0 <= i < |names| && names[i] == cls[m];
      StrLtIsStrictTotalOrder();
      IndexOfAt(cls, StrLt, m);
      assert Encode(names)[i] == Some(m as real);
    }
  }

  /** The labels encoded, in the order the source encodes them. */
  const EncodedLabels: seq<Label> := [CategoryLabel, BrandLabel, RegionLabel]

  /** The frame after encoding the listed labels, one after another. */
  function EncodeAll(keys: seq<Key>, data: map<Column, seq<Option<real>>>, ls: seq<Label>): map<Column, seq<Option<real>>>
  {
    if ls == [] then data
    else
      var l := ls[|ls| - 1];
      EncodeAll(keys, data, ls[..|ls| - 1])[EncodedColumn(l) := Encode(Labels(keys, l))]
  }

  /** After encoding, each encoded column holds its label's codes and every other column is unchanged. */
  lemma {:induction false} EncodeAllColumns(keys: seq<Key>, data: map<Column, seq<Option<real>>>, ls: seq<Label>)
    ensures forall c :: c in EncodeAll(keys, data, ls) <==> c in data || exists l :: l in ls && c == EncodedColumn(l)
    ensures forall l :: l in ls ==> EncodeAll(keys, data, ls)[EncodedColumn(l)] == Encode(Labels(keys, l))
    ensures forall c :: c in data && (forall l :: l in ls ==> c != EncodedColumn(l)) ==>
      EncodeAll(keys, data, ls)[c] == data[c]
  {
    if ls != [] {
      var init := ls[..|ls| - 1];
      EncodeAllColumns(keys, data, init);
      assert ls == init + [ls[|ls| - 1]];
      forall l | l in ls
        ensures EncodeAll(keys, data, ls)[EncodedColumn(l)] == Encode(Labels(keys, l))
      {
        if l != ls[|ls| - 1] {
          assert l in init;
        }
      }
    }
  }

  /** `for col in [...]: df[col + "_Encoded"] = LabelEncoder().fit_transform(df[col])`. */
  method EncodeLabels(keys: seq<Key>, data0: map<Column, seq<Option<real>>>) returns (data: map<Column, seq<Option<real>>>)
    ensures data == EncodeAll(keys, data0, EncodedLabels)
  {
    data := data0;
    var j := 0;
    while j < |EncodedLabels|
      invariant 0 <= j <= |EncodedLabels|
      invariant data == EncodeAll(keys, data0, EncodedLabels[..j])
    {
      var l := EncodedLabels[j];
      data := data[EncodedColumn(l) := Encode(Labels(keys, l))];
      assert EncodedLabels[..j + 1][..j] == EncodedLabels[..j];
      j := j + 1;
    }
    assert EncodedLabels[..j] == EncodedLabels;
  }

  // ---------------------------------------------------------------------
  // Per-brand sales features
  // ---------------------------------------------------------------------

  /** The number of set flags. */
  function Count(flags: seq<bool>): nat
  {
    if flags == [] then 0 else Count(flags[..|flags| - 1]) + (if flags[|flags| - 1] then 1 else 0)
  }

  /** The cells whose flag is set, in table order. */
  function Where<T>(xs: seq<T>, flags: seq<bool>): (r: seq<T>)
    requires |flags| == |xs|
    ensures |r| == Count(flags)
  {
    if xs == [] then []
    else
      var n := |xs| - 1;
      Where(xs[..n], flags[..n]) + (if flags[n] then [xs[n]] else [])
  }

  /** A set flag is preceded by fewer set flags than there are in all. */
  lemma {:induction false} CountBefore(flags: seq<bool>, j: int)
    requires 0 <= j < |flags| && flags[j]
    ensures Count(flags[..j]) < Count(flags)
  {
    var n := |flags| - 1;
    if j < n {
      CountBefore(flags[..n], j);
      assert flags[..n][..j] == flags[..j];
    } else {
      assert flags[..j] == flags[..n];
    }
  }

  /** A row whose flag is set is selected at the position given by the set flags before it. */
  lemma {:induction false} WhereAt<T>(xs: seq<T>, flags: seq<bool>, j: int)
    requires |flags| == |xs| && 0 <= j < |xs| && flags[j]
    ensures Count(flags[..j]) < Count(flags) && Where(xs, flags)[Count(flags[..j])] == xs[j]
  {
    CountBefore(flags, j);
    var n := |xs| - 1;
    if j < n {
      WhereAt(xs[..n], flags[..n], j);
      assert flags[..n][..j] == flags[..j];
      assert xs[..n][j] == xs[j];
    } else {
      assert flags[..j] == flags[..n];
    }
  }

  /** The row holding the m-th selected cell. */
  function RowOf(flags: seq<bool>, m: nat): (j: nat)
    requires m < Count(flags)
    ensures j < |flags| && flags[j] && Count(flags[..j]) == m
  {
    var n := |flags| - 1;
    if m < Count(flags[..n]) then
      var j := RowOf(flags[..n], m);
      assert flags[..n][..j] == flags[..j];
      j
    else
      assert flags[..n] == flags[..n];
      n
  }

  /** Which rows belong to brand `b`. */
  function BrandFlags(keys: seq<Key>, b: string): (flags: seq<bool>)
    ensures |flags| == |keys|
  {
    seq(|keys|, i requires 0 <= i < |keys| => keys[i].brand == b)
  }

  /** `df.groupby("Brand")[col]` for one brand: its cells in table order. */
  function BrandView<T>(keys: seq<Key>, b: string, xs: seq<T>): seq<T>
    requires |xs| == |keys|
  {
    Where(xs, BrandFlags(keys, b))
  }

  /** A whole-column operation that keeps the length. */
  ghost predicate KeepsLength(f: ColumnFill)
  {
    forall ys :: |f(ys)| == |ys|
  }

  /**
   * `df.groupby("Brand")[col].transform(f)`: each row takes the cell of
   * `f(its brand's cells)` at its own position within the brand.
   */
  function GroupTransform(keys: seq<Key>, xs: seq<Option<real>>, f: ColumnFill): (r: seq<Option<real>>)
    requires |xs| == |keys| && KeepsLength(f)
    ensures |r| == |keys|
  {
    seq(|keys|, i requires 0 <= i < |keys| =>
      var flags := BrandFlags(keys, keys[i].brand);
      CountBefore(flags, i);
      f(Where(xs, flags))[Count(flags[..i])])
  }

  /** Each brand's cells of the transformed column are `f` of its cells of the input column. */
  lemma ViewOfTransform(keys: seq<Key>, xs: seq<Option<real>>, f: ColumnFill, b: string)
    requires |xs| == |keys| && KeepsLength(f)
    ensures BrandView(keys, b, GroupTransform(keys, xs, f)) == f(BrandView(keys, b, xs))
  {
    var flags := BrandFlags(keys, b);
    var g := GroupTransform(keys, xs, f);
    var view := Where(g, flags);
    var want := f(Where(xs, flags));
    forall m | 0 <= m < |view|
      ensures view[m] == want[m]
    {
      var j := RowOf(flags, m);
      WhereAt(g, flags, j);
      assert BrandFlags(keys, keys[j].brand) == flags;
    }
  }

  /** `shift(1)`: every cell moves one row down; the first becomes missing. */
  function Shift1(ys: seq<Option<real>>): (r: seq<Option<real>>)
    ensures |r| == |ys|
  {
    if ys == [] then [] else [None] + ys[..|ys| - 1]
  }

  /** `ffill().bfill()`. */
  function FillBothWays(ys: seq<Option<real>>): (r: seq<Option<real>>)
    ensures |r| == |ys|
  {
    BFill(FFill(ys))
  }

  /**
   * The lag of a brand's sales with no value missing: each row holds the
   * previous row's sales, and the first row, which has none, its own.
   */
  lemma LagOfSales(ts: seq<Option<real>>)
    requires AllPresent(ts) && |ts| >= 2
    ensures FillBothWays(Shift1(ts))[0] == ts[0]
    ensures forall i :: 0 < i < |ts| ==> FillBothWays(Shift1(ts))[i] == ts[i - 1]
  {
    var sh := Shift1(ts);
    var ff := FFill(sh);
    forall i | 0 < i < |ts|
      ensures ff[i] == ts[i - 1] && FillBothWays(sh)[i] == ts[i - 1]
    {
      FFillKeepsPresent(sh, i);
      BFillAt(ff, i);
    }
    BFillAt(ff, 0);
    FFillAt(sh, 0);
    assert sh[0] == None && ff[0] == None;
    assert FillBothWays(sh)[0] == FillBothWays(sh)[1] == ts[0];
  }

  /** A brand with one row has no sales to lag: its lag stays missing. */
  lemma LagOfSingleRow(ts: seq<Option<real>>)
    requires |ts| == 1
    ensures FillBothWays(Shift1(ts)) == [None]
  {
    var sh := Shift1(ts);
    assert sh == [None];
    FFillAt(sh, 0);
    assert FFill(sh)[0] == None;
    BFillAt(FFill(sh), 0);
    assert BFill(FFill(sh))[0] == None;
    assert FillBothWays(sh)[0] == None;
    assert |FillBothWays(sh)| == 1;
  }

  /** The trailing window of up to three rows that ends at row i. */
  function Window(ys: seq<Option<real>>, i: int): seq<Option<real>>
    requires 0 <= i < |ys|
  {
    ys[(if i >= 2 then i - 2 else 0)..i + 1]
  }

  /** `rolling(3, min_periods=1).mean()`: the mean of the present values of each trailing window. */
  function RollingMean3(ys: seq<Option<real>>): (r: seq<Option<real>>)
    ensures |r| == |ys|
  {
    seq(|ys|, i requires 0 <= i < |ys| => MeanPresent(Window(ys, i)))
  }

  /** The mean of a window with no value missing. */
  lemma MeanOfAllPresent(w: seq<Option<real>>)
    requires AllPresent(w) && w != []
    ensures MeanPresent(w) == Some(Sum(Unwrap(w)) / |w| as real)
  {
    PresentOfAllPresent(w);
    var p := Present(w);
    assert p == Unwrap(w);
    assert |p| == |w|;
    assert |p| != 0;
    assert MeanPresent(w) == Some(Sum(p) / |p| as real);
  }

  lemma {:induction false} SumOfThree(a: real, b: real, c: real)
    ensures Sum([a]) == a && Sum([a, b]) == a + b && Sum([a, b, c]) == a + b + c
  {
    assert [a][1..] == [] && [b][1..] == [] && [c][1..] == [];
    assert Sum([a]) == a && Sum([b]) == b && Sum([c]) == c;
    assert [a, b][1..] == [b] && Sum([a, b]) == a + Sum([b]);
    assert [b, c][1..] == [c] && Sum([b, c]) == b + Sum([c]);
    assert [a, b, c][1..] == [b, c] && Sum([a, b, c]) == a + Sum([b, c]);
  }

  /** The first row's rolling mean is its own sales. */
  lemma RollingMeanFirst(ts: seq<Option<real>>)
    requires AllPresent(ts) && ts != []
    ensures RollingMean3(ts)[0] == ts[0]
  {
    var w := Window(ts, 0);
    assert w == [ts[0]];
    MeanOfAllPresent(w);
    assert Unwrap(w) == [ts[0].value];
    SumOfThree(ts[0].value, 0.0, 0.0);
    assert ts[0] == Some(ts[0].value);
  }

  /** The second row's rolling mean is the mean of the first two rows' sales. */
  lemma RollingMeanSecond(ts: seq<Option<real>>)
    requires AllPresent(ts) && |ts| >= 2
    ensures RollingMean3(ts)[1] == Some((ts[0].value + ts[1].value) / 2.0)
  {
    var w := Window(ts, 1);
    assert w == [ts[0], ts[1]];
    MeanOfAllPresent(w);
    assert Unwrap(w) == [ts[0].value, ts[1].value];
    SumOfThree(ts[0].value, ts[1].value, 0.0);
    assert |w| as real == 2.0;
  }

  /** Every later row's rolling mean is the mean of its sales and the two rows' before it. */
  lemma RollingMeanLater(ts: seq<Option<real>>, i: int)
    requires AllPresent(ts) && 2 <= i < |ts|
    ensures RollingMean3(ts)[i] == Some((ts[i - 2].value + ts[i - 1].value + ts[i].value) / 3.0)
  {
    var w := Window(ts, i);
    assert w == [ts[i - 2], ts[i - 1], ts[i]];
    MeanOfAllPresent(w);
    assert Unwrap(w) == [ts[i - 2].value, ts[i - 1].value, ts[i].value];
    SumOfThree(ts[i - 2].value, ts[i - 1].value, ts[i].value);
    var total := Sum(Unwrap(w));
    assert total == ts[i - 2].value + ts[i - 1].value + ts[i].value;
    var n := |w| as real;
    assert n == 3.0;
    assert MeanPresent(w) == Some(total / n);
    assert total / n == (ts[i - 2].value + ts[i - 1].value + ts[i].value) / 3.0;
    assert RollingMean3(ts)[i] == MeanPresent(w);
  }

  /** A window is missing its mean only when its last row is missing too. */
  lemma RollingMeanMissing(ys: seq<Option<real>>, i: int)
    requires 0 <= i < |ys|
    ensures RollingMean3(ys)[i].None? ==> ys[i].None?
  {
    var w := Window(ys, i);
    if ys[i].Some? {
      assert w[|w| - 1] == ys[i];
      PresentMembers(w, |w| - 1);
    }
  }

  /** Set flags before an earlier row are no more than before a later one. */
  lemma {:induction false} CountMonotone(flags: seq<bool>, j: int, k: int)
    requires 0 <= j <= k <= |flags|
    ensures Count(flags[..j]) <= Count(flags[..k])
  {
    if j < k {
      CountMonotone(flags, j, k - 1);
      assert flags[..k][..k - 1] == flags[..k - 1];
    }
  }

  /** The selected cells keep the table's order: a later position comes from a later row. */
  lemma RowOfIncreasing(flags: seq<bool>, m: nat, n: nat)
    requires m < n < Count(flags)
    ensures RowOf(flags, m) < RowOf(flags, n)
  {
    var j, k := RowOf(flags, m), RowOf(flags, n);
    if k <= j {
      CountMonotone(flags, k, j);
    }
  }

  /** Rows of brand `b` only, with dates never decreasing. */
  ghost predicate BrandRowsByDate(view: seq<Key>, b: string)
  {
    && (forall m :: 0 <= m < |view| ==> view[m].brand == b)
    && (forall m, n :: 0 <= m < n < |view| ==> view[m].date <= view[n].date)
  }

  /** A row of a brand's view is a row of that brand. */
  lemma BrandViewRow(keys: seq<Key>, b: string, m: int)
    requires 0 <= m < |BrandView(keys, b, keys)|
    ensures BrandView(keys, b, keys)[m].brand == b
  {
    var flags := BrandFlags(keys, b);
    var j := RowOf(flags, m);
    WhereAt(keys, flags, j);
  }

  /** Two rows of a brand's view of a sorted frame: the earlier is no later in date. */
  lemma BrandViewPair(keys: seq<Key>, b: string, m: int, n: int)
    requires forall p, q :: 0 <= p < q < |keys| ==> !SortsBefore(keys[q], keys[p])
    requires 0 <= m < n < |BrandView(keys, b, keys)|
    ensures BrandView(keys, b, keys)[m].date <= BrandView(keys, b, keys)[n].date
  {
    var flags := BrandFlags(keys, b);
    var view := Where(keys, flags);
    var j, k := RowOf(flags, m), RowOf(flags, n);
    RowOfIncreasing(flags, m, n);
    WhereAt(keys, flags, j);
    WhereAt(keys, flags, k);
    assert view[m] == keys[j] && view[n] == keys[k];
    assert !SortsBefore(keys[k], keys[j]);
  }

  /** In a frame sorted by brand and date, each brand's rows are in date order. */
  lemma BrandViewByDate(keys: seq<Key>, b: string)
    requires forall p, q :: 0 <= p < q < |keys| ==> !SortsBefore(keys[q], keys[p])
    ensures BrandRowsByDate(BrandView(keys, b, keys), b)
  {
    var view := BrandView(keys, b, keys);
    forall m | 0 <= m < |view| ensures view[m].brand == b {
      BrandViewRow(keys, b, m);
    }
    forall m, n | 0 <= m < n < |view| ensures view[m].date <= view[n].date {
      BrandViewPair(keys, b, m, n);
    }
  }

  /** Filling one column from another cell by cell, over two joined pieces. */
  lemma FillFromAppend(a: seq<Option<real>>, b: seq<Option<real>>, c: seq<Option<real>>, d: seq<Option<real>>)
    requires |a| == |c| && |b| == |d|
    ensures FillFrom(a + b, c + d) == FillFrom(a, c) + FillFrom(b, d)
  {
  }

  /** Selecting rows and filling a column from another give the same cells in either order. */
  lemma {:induction false} WhereFillFrom(xs: seq<Option<real>>, ys: seq<Option<real>>, flags: seq<bool>)
    requires |xs| == |ys| == |flags|
    ensures Where(FillFrom(xs, ys), flags) == FillFrom(Where(xs, flags), Where(ys, flags))
  {
    if xs != [] {
      var n := |xs| - 1;
      var f := FillFrom(xs, ys);
      WhereFillFrom(xs[..n], ys[..n], flags[..n]);
      assert f[..n] == FillFrom(xs[..n], ys[..n]);
      var tx, ty := if flags[n] then [xs[n]] else [], if flags[n] then [ys[n]] else [];
      FillFromAppend(Where(xs[..n], flags[..n]), tx, Where(ys[..n], flags[..n]), ty);
      assert (if flags[n] then [f[n]] else []) == FillFrom(tx, ty);
    }
  }

  /** The per-brand operations keep the length of a column. */
  lemma SalesOperationsKeepLength()
    ensures KeepsLength(Shift1) && KeepsLength(FillBothWays) && KeepsLength(RollingMean3)
  {
  }

  /**
   * Lines 56-63 of the feature builder: `Sales_Lag_1` is each brand's sales
   * shifted by one row, then forward- and backward-filled within the brand;
   * `Sales_MA_3` is each brand's trailing three-row mean of sales, a missing
   * one replaced by the row's own sales.
   */
  function AddSalesFeatures(keys: seq<Key>, data: map<Column, seq<Option<real>>>): (r: map<Column, seq<Option<real>>>)
    requires TotalSales in data && |data[TotalSales]| == |keys|
    ensures r.Keys == data.Keys + {SalesLag1, SalesMA3}
  {
    SalesOperationsKeepLength();
    var ts := data[TotalSales];
    var lag := GroupTransform(keys, GroupTransform(keys, ts, Shift1), FillBothWays);
    var mean := FillFrom(GroupTransform(keys, ts, RollingMean3), ts);
    data[SalesLag1 := lag][SalesMA3 := mean]
  }

  /**
   * Each brand's lag is the filled shift of its sales, its trailing mean
   * before the fill is the rolling mean of its sales, and its `Sales_MA_3`
   * is that rolling mean with a missing cell taken from the same row's
   * sales; sales are unchanged.
   */
  lemma SalesFeaturesPerBrand(keys: seq<Key>, data: map<Column, seq<Option<real>>>, b: string)
    requires TotalSales in data && |data[TotalSales]| == |keys|
    ensures var r, ts := AddSalesFeatures(keys, data), data[TotalSales];
      && r[TotalSales] == ts
      && BrandView(keys, b, r[SalesLag1]) == FillBothWays(Shift1(BrandView(keys, b, ts)))
      && BrandView(keys, b, GroupTransform(keys, ts, RollingMean3)) == RollingMean3(BrandView(keys, b, ts))
      && BrandView(keys, b, r[SalesMA3]) == FillFrom(RollingMean3(BrandView(keys, b, ts)), BrandView(keys, b, ts))
  {
    SalesOperationsKeepLength();
    var ts := data[TotalSales];
    ViewOfTransform(keys, ts, Shift1, b);
    ViewOfTransform(keys, GroupTransform(keys, ts, Shift1), FillBothWays, b);
    ViewOfTransform(keys, ts, RollingMean3, b);
    WhereFillFrom(GroupTransform(keys, ts, RollingMean3), ts, BrandFlags(keys, b));
  }

  /**
   * With none of a brand's sales missing, its `Sales_MA_3` in row `i` of the
   * brand is the mean of the sales of rows `max(0, i - 2)` to `i`.
   */
  lemma BrandMean(keys: seq<Key>, data: map<Column, seq<Option<real>>>, b: string, i: int)
    requires TotalSales in data && |data[TotalSales]| == |keys|
    requires AllPresent(BrandView(keys, b, data[TotalSales])) && 0 <= i < |BrandView(keys, b, data[TotalSales])|
    ensures var v := BrandView(keys, b, data[TotalSales]);
      var lo := if i >= 2 then i - 2 else 0;
      BrandView(keys, b, AddSalesFeatures(keys, data)[SalesMA3])[i] == Some(Sum(Unwrap(v[lo..i + 1])) / (i + 1 - lo) as real)
  {
    var v := BrandView(keys, b, data[TotalSales]);
    SalesFeaturesPerBrand(keys, data, b);
    var w := Window(v, i);
    MeanOfAllPresent(w);
    assert RollingMean3(v)[i] == MeanPresent(w);
  }

  /**
   * The trailing mean is missing only in rows whose own sales are missing:
   * with sales imputed, no value of `Sales_MA_3` is missing.
   */
  lemma SalesMeanPresent(keys: seq<Key>, data: map<Column, seq<Option<real>>>, i: int)
    requires TotalSales in data && |data[TotalSales]| == |keys| && 0 <= i < |keys|
    ensures AddSalesFeatures(keys, data)[SalesMA3][i].None? ==> data[TotalSales][i].None?
  {
    SalesOperationsKeepLength();
    var ts := data[TotalSales];
    var flags := BrandFlags(keys, keys[i].brand);
    WhereAt(ts, flags, i);
    RollingMeanMissing(Where(ts, flags), Count(flags[..i]));
  }

  /**
   * The lag property within a brand sorted by date: when the brand has at
   * least two rows and no sales missing, its first lag is its first sales
   * and every later lag is the previous row's sales.
   */
  lemma BrandLag(keys: seq<Key>, data: map<Column, seq<Option<real>>>, b: string)
    requires TotalSales in data && |data[TotalSales]| == |keys|
    requires AllPresent(BrandView(keys, b, data[TotalSales])) && |BrandView(keys, b, data[TotalSales])| >= 2
    ensures var lag, ts := BrandView(keys, b, AddSalesFeatures(keys, data)[SalesLag1]), BrandView(keys, b, data[TotalSales]);
      lag[0] == ts[0] && forall i :: 0 < i < |ts| ==> lag[i] == ts[i - 1]
  {
    SalesFeaturesPerBrand(keys, data, b);
    LagOfSales(BrandView(keys, b, data[TotalSales]));
  }

  /** Lines 56-63 as the source runs them, one column reassigned at a time. */
  method EngineerSalesFeatures(keys: seq<Key>, data0: map<Column, seq<Option<real>>>) returns (data: map<Column, seq<Option<real>>>)
    requires TotalSales in data0 && |data0[TotalSales]| == |keys|
    ensures data == AddSalesFeatures(keys, data0)
  {
    SalesOperationsKeepLength();
    data := data0;
    data := data[SalesLag1 := GroupTransform(keys, data[TotalSales], Shift1)];
    data := data[SalesMA3 := GroupTransform(keys, data[TotalSales], RollingMean3)];
    data := data[SalesLag1 := GroupTransform(keys, data[SalesLag1], FillBothWays)];
    data := data[SalesMA3 := FillFrom(data[SalesMA3], data[TotalSales])];
  }

  // Normalisation (lines 65-76)

  /** The columns standardised, in the listed order; `Total_Sales` is not among them. */
  const NormaliseColumns: seq<Column> := [
    QuantitySold, OnlinePopularity, SalesLag1, SalesMA3,
    CompetitorPrice, CategoryTrendIndex, CustomerGrowthRate, CustomerRetentionRate,
    StockLevel, SupplyDelayDays, InflationRate, WeatherScore]

  /** The constant added to the standard deviation so that a constant column does not divide by zero. */
  const NormEpsilon: real := 0.000001

  /** A square root as the pipeline needs it: never negative on a non-negative argument. */
  ghost predicate NonNegativeRoot(sqrt: real -> real)
  {
    forall v: real :: v >= 0.0 ==> sqrt(v) >= 0.0
  }

  /** The sum of squared deviations from `mean`. */
  function SquaredDeviations(p: seq<real>, mean: real): (r: real)
    ensures r >= 0.0
  {
    if p == [] then 0.0
    else
      var e := p[0] - mean;
      assert e * e >= 0.0 by {
        if e < 0.0 {
          assert e * e == (-e) * (-e);
        }
      }
      e * e + SquaredDeviations(p[1..], mean)
  }

  /** pandas `var()`: the sample variance, with `n - 1` in the denominator. */
  function SampleVariance(p: seq<real>): (v: real)
    requires |p| >= 2
    ensures v >= 0.0
  {
    SquaredDeviations(p, Sum(p) / |p| as real) / (|p| - 1) as real
  }

  /** `(x - mean) / d` on reals. */
  function Scaled(p: seq<real>, mean: real, d: real): (r: seq<real>)
    requires d != 0.0
    ensures |r| == |p|
  {
    if p == [] then [] else [(p[0] - mean) / d] + Scaled(p[1..], mean, d)
  }

  /** `(x - mean) / d` on every present cell; missing cells stay missing. */
  function Rescale(xs: seq<Option<real>>, mean: real, d: real): (r: seq<Option<real>>)
    requires d != 0.0
    ensures |r| == |xs|
    ensures forall i :: 0 <= i < |xs| ==> r[i] == if xs[i].Some? then Some((xs[i].value - mean) / d) else None
  {
    if xs == [] then []
    else [if xs[0].Some? then Some((xs[0].value - mean) / d) else None] + Rescale(xs[1..], mean, d)
  }

  /**
   * `(x - x.mean()) / (x.std() + 1e-6)` on one column. With fewer than two
   * present values pandas' sample deviation is missing, and so is every cell.
   */
  function Standardise(xs: seq<Option<real>>, sqrt: real -> real): (r: seq<Option<real>>)
    requires NonNegativeRoot(sqrt)
    ensures |r| == |xs|
  {
    var p := Present(xs);
    if |p| < 2 then seq(|xs|, i => None)
    else Rescale(xs, Sum(p) / |p| as real, Spread(p, sqrt))
  }

  /** `x.std() + 1e-6`: the sample standard deviation plus the guard constant, always positive. */
  function Spread(p: seq<real>, sqrt: real -> real): (d: real)
    requires NonNegativeRoot(sqrt) && |p| >= 2
    ensures d > 0.0
  {
    sqrt(SampleVariance(p)) + NormEpsilon
  }

  lemma {:induction false} PresentOfRescale(xs: seq<Option<real>>, mean: real, d: real)
    requires d != 0.0
    ensures Present(Rescale(xs, mean, d)) == Scaled(Present(xs), mean, d)
  {
    if xs != [] {
      PresentOfRescale(xs[1..], mean, d);
      var r := Rescale(xs, mean, d);
      assert r[1..] == Rescale(xs[1..], mean, d);
      if xs[0].Some? {
        var q := Present(xs);
        assert q == [xs[0].value] + Present(xs[1..]);
        assert q[0] == xs[0].value && q[1..] == Present(xs[1..]);
        assert r[0] == Some((xs[0].value - mean) / d);
        assert Present(r) == [(xs[0].value - mean) / d] + Present(r[1..]);
        assert Scaled(q, mean, d) == [(q[0] - mean) / d] + Scaled(q[1..], mean, d);
      } else {
        assert r[0].None?;
        assert Present(r) == Present(r[1..]);
        assert Present(xs) == Present(xs[1..]);
      }
    }
  }

  lemma {:induction false} SumOfScaled(p: seq<real>, mean: real, d: real)
    requires d != 0.0
    ensures Sum(Scaled(p, mean, d)) * d == Sum(p) - |p| as real * mean
  {
    if p != [] {
      SumOfScaled(p[1..], mean, d);
      var head := (p[0] - mean) / d;
      var rest := Sum(Scaled(p[1..], mean, d));
      assert Sum(Scaled(p, mean, d)) == head + rest;
      assert head * d == p[0] - mean;
      assert (head + rest) * d == head * d + rest * d;
    }
  }

  /** Deviations from the mean, scaled by any non-zero factor, sum to zero. */
  lemma ScaledAroundMean(p: seq<real>, mean: real, d: real)
    requires d != 0.0 && p != [] && mean == Sum(p) / |p| as real
    ensures Sum(Scaled(p, mean, d)) == 0.0
  {
    SumOfScaled(p, mean, d);
    var n := |p| as real;
    assert n * mean == Sum(p);
    var total := Sum(Scaled(p, mean, d));
    assert total * d == 0.0;
  }

  /** Dividing by a positive number keeps the order. */
  lemma DivideKeepsOrder(x: real, y: real, d: real)
    requires d > 0.0
    ensures x < y <==> x / d < y / d
  {
    assert x == (x / d) * d && y == (y / d) * d;
    if x / d < y / d {
      assert (x / d) * d < (y / d) * d;
    }
  }

  /** After standardising, the present values of a column have mean zero. */
  lemma StandardiseCentres(xs: seq<Option<real>>, sqrt: real -> real)
    requires NonNegativeRoot(sqrt) && |Present(xs)| >= 2
    ensures Sum(Present(Standardise(xs, sqrt))) == 0.0
  {
    var p := Present(xs);
    var mean := Sum(p) / |p| as real;
    var d := Spread(p, sqrt);
    assert Standardise(xs, sqrt) == Rescale(xs, mean, d);
    PresentOfRescale(xs, mean, d);
    ScaledAroundMean(p, mean, d);
  }

  /**
   * Standardising keeps missing cells missing and present ones present,
   * unless fewer than two values are present, when every cell is missing.
   */
  lemma StandardiseMissing(xs: seq<Option<real>>, sqrt: real -> real)
    requires NonNegativeRoot(sqrt)
    ensures forall i :: 0 <= i < |xs| ==> (Standardise(xs, sqrt)[i].Some? <==> xs[i].Some? && |Present(xs)| >= 2)
  {
  }

  /** Rescaling by a positive factor keeps the order of the present values. */
  lemma RescaleKeepsOrder(xs: seq<Option<real>>, mean: real, d: real, i: int, j: int)
    requires d > 0.0 && 0 <= i < |xs| && 0 <= j < |xs| && xs[i].Some? && xs[j].Some?
    ensures xs[i].value < xs[j].value <==> Rescale(xs, mean, d)[i].value < Rescale(xs, mean, d)[j].value
  {
    var r := Rescale(xs, mean, d);
    var a, b := xs[i].value - mean, xs[j].value - mean;
    assert r[i] == Some(a / d) && r[j] == Some(b / d);
    DivideKeepsOrder(a, b, d);
    assert xs[i].value < xs[j].value <==> a < b;
  }

  /** Standardising keeps the order of the present values. */
  lemma StandardiseKeepsOrder(xs: seq<Option<real>>, sqrt: real -> real, i: int, j: int)
    requires NonNegativeRoot(sqrt)
    requires 0 <= i < |xs| && 0 <= j < |xs| && xs[i].Some? && xs[j].Some? && |Present(xs)| >= 2
    ensures Standardise(xs, sqrt)[i].Some? && Standardise(xs, sqrt)[j].Some?
    ensures xs[i].value < xs[j].value <==> Standardise(xs, sqrt)[i].value < Standardise(xs, sqrt)[j].value
  {
    var p := Present(xs);
    var mean, d := Sum(p) / |p| as real, Spread(p, sqrt);
    var r := Rescale(xs, mean, d);
    assert Standardise(xs, sqrt) == r;
    RescaleKeepsOrder(xs, mean, d, i, j);
  }

  /** Whether a column is in the normalised list. */
  predicate Normalised(c: Column)
  {
    match c
    case QuantitySold | OnlinePopularity | SalesLag1 | SalesMA3 => true
    case CompetitorPrice | CategoryTrendIndex | CustomerGrowthRate | CustomerRetentionRate => true
    case StockLevel | SupplyDelayDays | InflationRate | WeatherScore => true
    case _ => false
  }

  /** The normalised columns are the listed ones, and `Total_Sales` is not listed. */
  lemma NormalisedListed()
    ensures forall c :: Normalised(c) <==> c in NormaliseColumns
    ensures TotalSales !in NormaliseColumns
  {
  }

  /** Lines 73-76: every listed column the frame has is standardised; no other column changes. */
  function Normalise(data: map<Column, seq<Option<real>>>, sqrt: real -> real): (r: map<Column, seq<Option<real>>>)
    requires NonNegativeRoot(sqrt)
    ensures r.Keys == data.Keys
  {
    map c | c in data :: if Normalised(c) then Standardise(data[c], sqrt) else data[c]
  }

  /**
   * The columns normalisation changes are the available listed ones:
   * `Total_Sales` and every other column are left as they are.
   */
  lemma NormaliseChoosesColumns(data: map<Column, seq<Option<real>>>, sqrt: real -> real)
    requires NonNegativeRoot(sqrt)
    ensures forall c :: c in Available(NormaliseColumns, data.Keys) ==> Normalise(data, sqrt)[c] == Standardise(data[c], sqrt)
    ensures forall c :: c in data && c !in NormaliseColumns ==> Normalise(data, sqrt)[c] == data[c]
    ensures TotalSales in data ==> Normalise(data, sqrt)[TotalSales] == data[TotalSales]
  {
    NormalisedListed();
  }

  // ---------------------------------------------------------------------
  // Aggregation by (Category, Brand, Date)
  // ---------------------------------------------------------------------

  /** The key of one output row. */
  datatype DayKey = DayKey(category: string, brand: string, date: int)

  function KeyOf(k: Key): DayKey
  {
    DayKey(k.category, k.brand, k.date)
  }

  /** Some row has key `g`. */
  ghost predicate HasKey(keys: seq<Key>, g: DayKey)
  {
    exists i :: 0 <= i < |keys| && KeyOf(keys[i]) == g
  }

  /** Lexicographic order on (Category, Brand, Date): the order in which `groupby` emits its groups. */
  predicate DayKeyLt(a: DayKey, b: DayKey)
  {
    || StrLt(a.category, b.category)
    || (a.category == b.category && StrLt(a.brand, b.brand))
    || (a.category == b.category && a.brand == b.brand && a.date < b.date)
  }

  lemma DayKeyLtIsStrictTotalOrder()
    ensures StrictTotalOrder(DayKeyLt)
  {
    StrLtIsStrictTotalOrder();
    forall a: DayKey, b: DayKey, c: DayKey | DayKeyLt(a, b) && DayKeyLt(b, c)
      ensures DayKeyLt(a, c)
    {
      if a.category != c.category {
        assert StrLt(a.category, b.category) || StrLt(b.category, c.category);
      }
    }
    forall a: DayKey, b: DayKey
      ensures a == b || DayKeyLt(a, b) || DayKeyLt(b, a)
    {
      StrLtTotal(a.category, b.category);
      StrLtTotal(a.brand, b.brand);
    }
  }

  /** The distinct keys of the rows, in `groupby` order. */
  function Groups(keys: seq<Key>): (gs: seq<DayKey>)
    ensures Increasing(gs, DayKeyLt)
    ensures forall g :: g in gs <==> HasKey(keys, g)
  {
    DayKeyLtIsStrictTotalOrder();
    var all := seq(|keys|, i requires 0 <= i < |keys| => KeyOf(keys[i]));
    assert forall g :: g in all <==> exists i :: 0 <= i < |keys| && KeyOf(keys[i]) == g by {
      forall g ensures g in all <==> exists i :: 0 <= i < |keys| && KeyOf(keys[i]) == g {
        if i :| 0 <= i < |keys| && KeyOf(keys[i]) == g {
          assert all[i] == g;
        }
      }
    }
    SortedDistinct(all, DayKeyLt)
  }

  /** The rows of group `g`. */
  function GroupFlags(keys: seq<Key>, g: DayKey): (flags: seq<bool>)
    ensures |flags| == |keys|
  {
    seq(|keys|, i requires 0 <= i < |keys| => KeyOf(keys[i]) == g)
  }

  /** One aggregated cell as `agg_dict` names it: sum, first, or mean. */
  function AggregateCell(c: Column, cells: seq<Option<real>>): Option<real>
  {
    match c
    case TotalSales | QuantitySold => Some(SumPresent(cells))
    case CategoryEncoded | BrandEncoded | RegionEncoded => FirstPresent(cells)
    case _ => MeanPresent(cells)
  }

  /** The output row of group `g`: its key and one aggregated cell per column. */
  function AggregateRow(keys: seq<Key>, data: map<Column, seq<Option<real>>>, g: DayKey): (r: Record)
    requires Rectangular(keys, data)
    ensures r.vals.Keys == data.Keys
  {
    Record(g.category, g.brand, g.date,
      map c | c in data :: AggregateCell(c, Where(data[c], GroupFlags(keys, g))))
  }

  /** `groupby(["Category", "Brand", "Date"], as_index=False).agg(agg_dict)`. */
  function Aggregate(keys: seq<Key>, data: map<Column, seq<Option<real>>>): (t: Table)
    requires Rectangular(keys, data)
    ensures t.cols == data.Keys
  {
    var gs := Groups(keys);
    Table(data.Keys, seq(|gs|, m requires 0 <= m < |gs| => AggregateRow(keys, data, gs[m])))
  }

  /** The (Category, Brand, Date) keys of some output rows. */
  function RowKeys(rows: seq<Record>): seq<DayKey>
  {
    seq(|rows|, m requires 0 <= m < |rows| => DayKey(rows[m].category, rows[m].brand, rows[m].date))
  }

  /**
   * The output has exactly one row per distinct (Category, Brand, Date) of
   * the input, in ascending key order, each row with every column.
   */
  lemma AggregateOneRowPerKey(keys: seq<Key>, data: map<Column, seq<Option<real>>>)
    requires Rectangular(keys, data)
    ensures var t := Aggregate(keys, data);
      && WellFormed(t)
      && Increasing(RowKeys(t.rows), DayKeyLt)
      && forall g :: g in RowKeys(t.rows) <==> HasKey(keys, g)
  {
    var t := Aggregate(keys, data);
    assert RowKeys(t.rows) == Groups(keys);
  }

  /**
   * The cells of an output row: `Total_Sales` and `Quantity_Sold` are the
   * sums over the rows of its key, never missing; the encoded labels take
   * the first present value; every other column takes the mean.
   */
  lemma AggregateCells(keys: seq<Key>, data: map<Column, seq<Option<real>>>, m: int, c: Column)
    requires Rectangular(keys, data) && c in data
    requires 0 <= m < |Aggregate(keys, data).rows|
    ensures var row, cells := Aggregate(keys, data).rows[m], Where(data[c], GroupFlags(keys, Groups(keys)[m]));
      && (c == TotalSales || c == QuantitySold ==> row.vals[c] == Some(SumPresent(cells)))
      && (c == CategoryEncoded || c == BrandEncoded || c == RegionEncoded ==> row.vals[c] == FirstPresent(cells))
      && (c !in {TotalSales, QuantitySold, CategoryEncoded, BrandEncoded, RegionEncoded} ==> row.vals[c] == MeanPresent(cells))
  {
    var gs := Groups(keys);
    var row := AggregateRow(keys, data, gs[m]);
    assert Aggregate(keys, data).rows[m] == row;
    var cells := Where(data[c], GroupFlags(keys, gs[m]));
    assert row.vals[c] == AggregateCell(c, cells);
    AggregateCellRule(c, cells);
  }

  lemma AggregateCellRule(c: Column, cells: seq<Option<real>>)
    ensures c == TotalSales || c == QuantitySold ==> AggregateCell(c, cells) == Some(SumPresent(cells))
    ensures c == CategoryEncoded || c == BrandEncoded || c == RegionEncoded ==> AggregateCell(c, cells) == FirstPresent(cells)
    ensures c !in {TotalSales, QuantitySold, CategoryEncoded, BrandEncoded, RegionEncoded} ==> AggregateCell(c, cells) == MeanPresent(cells)
  {
  }

  /** A sequence of zeros sums to zero. */
  lemma {:induction false} SumZeros(a: seq<real>)
    requires forall m :: 0 <= m < |a| ==> a[m] == 0.0
    ensures Sum(a) == 0.0
  {
    if a != [] {
      SumZeros(a[1..]);
    }
  }

  /** Pointwise sums add up. */
  lemma {:induction false} SumPointwise(a: seq<real>, b: seq<real>, c: seq<real>)
    requires |a| == |b| == |c| && forall m :: 0 <= m < |c| ==> c[m] == a[m] + b[m]
    ensures Sum(c) == Sum(a) + Sum(b)
  {
    if c != [] {
      SumPointwise(a[1..], b[1..], c[1..]);
    }
  }

  /** No key occurs twice. */
  ghost predicate NoRepeatedKeys(gs: seq<DayKey>)
  {
    forall m, n :: 0 <= m < n < |gs| ==> gs[m] != gs[n]
  }

  /** A value placed at the one position of `g` sums to that value. */
  lemma {:induction false} SumIndicator(a: seq<real>, gs: seq<DayKey>, g: DayKey, v: real)
    requires |a| == |gs| && NoRepeatedKeys(gs)
    requires forall m :: 0 <= m < |a| ==> a[m] == if gs[m] == g then v else 0.0
    ensures Sum(a) == if g in gs then v else 0.0
  {
    if a != [] {
      SumIndicator(a[1..], gs[1..], g, v);
      if gs[0] == g {
        assert g !in gs[1..];
      } else {
        assert g in gs <==> g in gs[1..];
      }
    }
  }

  /** The sums of one column over some groups. */
  function GroupSums(keys: seq<Key>, xs: seq<Option<real>>, gs: seq<DayKey>): (r: seq<real>)
    requires |xs| == |keys|
    ensures |r| == |gs|
  {
    seq(|gs|, m requires 0 <= m < |gs| => SumPresent(Where(xs, GroupFlags(keys, gs[m]))))
  }

  /** Adding a last row adds its value to the sum of its own group and nothing to the others. */
  lemma GroupSumStep(keys: seq<Key>, xs: seq<Option<real>>, g: DayKey)
    requires |xs| == |keys| && keys != []
    ensures var n := |keys| - 1;
      SumPresent(Where(xs, GroupFlags(keys, g))) ==
        SumPresent(Where(xs[..n], GroupFlags(keys[..n], g))) + (if KeyOf(keys[n]) == g then SumPresent([xs[n]]) else 0.0)
  {
    var n := |keys| - 1;
    var flags := GroupFlags(keys, g);
    assert flags[..n] == GroupFlags(keys[..n], g);
    var head := Where(xs[..n], flags[..n]);
    var tail := if flags[n] then [xs[n]] else [];
    assert Where(xs, flags) == head + tail;
    PresentAppend(head, tail);
    SumAppend(Present(head), Present(tail));
  }

  /** Adding a last row adds its value to the total of the group sums once, when its key is a group. */
  lemma GroupSumsLast(keys: seq<Key>, xs: seq<Option<real>>, gs: seq<DayKey>)
    requires |xs| == |keys| && keys != [] && NoRepeatedKeys(gs)
    ensures var n := |keys| - 1;
      Sum(GroupSums(keys, xs, gs)) ==
        Sum(GroupSums(keys[..n], xs[..n], gs)) + (if KeyOf(keys[n]) in gs then SumPresent([xs[n]]) else 0.0)
  {
    var n := |keys| - 1;
    var k, v := KeyOf(keys[n]), SumPresent([xs[n]]);
    var sums, before := GroupSums(keys, xs, gs), GroupSums(keys[..n], xs[..n], gs);
    var ind := seq(|gs|, m requires 0 <= m < |gs| => if gs[m] == k then v else 0.0);
    forall m | 0 <= m < |gs| ensures sums[m] == before[m] + ind[m] {
      GroupSumStep(keys, xs, gs[m]);
    }
    SumPointwise(before, ind, sums);
    SumIndicator(ind, gs, k, v);
  }

  /** Group sums over groups that cover every row, each once, add up to the column's sum. */
  lemma {:induction false} GroupSumsTotal(keys: seq<Key>, xs: seq<Option<real>>, gs: seq<DayKey>)
    requires |xs| == |keys| && NoRepeatedKeys(gs)
    requires forall i :: 0 <= i < |keys| ==> KeyOf(keys[i]) in gs
    ensures Sum(GroupSums(keys, xs, gs)) == SumPresent(xs)
  {
    if keys == [] {
      SumZeros(GroupSums(keys, xs, gs));
    } else {
      var n := |keys| - 1;
      assert forall i :: 0 <= i < n ==> keys[..n][i] == keys[i];
      GroupSumsTotal(keys[..n], xs[..n], gs);
      GroupSumsLast(keys, xs, gs);
      assert KeyOf(keys[n]) in gs;
      SumPresentLast(xs);
    }
  }

  /** The sum of a column is the sum without its last cell plus that cell. */
  lemma SumPresentLast(xs: seq<Option<real>>)
    requires xs != []
    ensures SumPresent(xs) == SumPresent(xs[..|xs| - 1]) + SumPresent([xs[|xs| - 1]])
  {
    var n := |xs| - 1;
    assert xs == xs[..n] + [xs[n]];
    PresentAppend(xs[..n], [xs[n]]);
    SumAppend(Present(xs[..n]), Present([xs[n]]));
  }

  /**
   * The grand total of a summed column is preserved: the output's
   * `Total_Sales` (or `Quantity_Sold`) adds up to the input's.
   */
  lemma AggregateKeepsTotal(keys: seq<Key>, data: map<Column, seq<Option<real>>>, c: Column)
    requires Rectangular(keys, data) && c in data && (c == TotalSales || c == QuantitySold)
    ensures forall r :: r in Aggregate(keys, data).rows ==> c in r.vals
    ensures SumPresent(ColumnOf(Aggregate(keys, data).rows, c)) == SumPresent(data[c])
  {
    var t := Aggregate(keys, data);
    var gs := Groups(keys);
    var cells := ColumnOf(t.rows, c);
    var sums := GroupSums(keys, data[c], gs);
    DayKeyLtIsStrictTotalOrder();
    assert NoRepeatedKeys(gs) by {
      forall m, n | 0 <= m < n < |gs| ensures gs[m] != gs[n] {
        assert DayKeyLt(gs[m], gs[n]);
      }
    }
    forall i | 0 <= i < |keys| ensures KeyOf(keys[i]) in gs {
    }
    assert AllPresent(cells);
    assert Unwrap(cells) == sums;
    PresentOfAllPresent(cells);
    GroupSumsTotal(keys, data[c], gs);
  }

  /** A frame with sales and popularity aggregates to a table both forecasters can read. */
  lemma AggregateReadable(keys: seq<Key>, data: map<Column, seq<Option<real>>>)
    requires Rectangular(keys, data) && TotalSales in data && OnlinePopularity in data
    ensures WellFormed(Aggregate(keys, data))
    ensures Readable(Aggregate(keys, data).cols, Aggregate(keys, data).rows)
  {
  }

  // ---------------------------------------------------------------------
  // The whole feature builder
  // ---------------------------------------------------------------------

  lemma ImputeKeepsShape(keys: seq<Key>, data: map<Column, seq<Option<real>>>)
    requires Rectangular(keys, data)
    ensures Rectangular(keys, Impute(data))
  {
  }

  lemma {:induction false} EncodeAllShape(keys: seq<Key>, data: map<Column, seq<Option<real>>>, ls: seq<Label>)
    requires Rectangular(keys, data)
    ensures Rectangular(keys, EncodeAll(keys, data, ls))
    ensures EncodeAll(keys, data, ls).Keys == data.Keys + set l | l in ls :: EncodedColumn(l)
  {
    if ls != [] {
      var init := ls[..|ls| - 1];
      EncodeAllShape(keys, data, init);
      assert ls == init + [ls[|ls| - 1]];
      assert (set l | l in ls :: EncodedColumn(l)) == (set l | l in init :: EncodedColumn(l)) + {EncodedColumn(ls[|ls| - 1])};
    }
  }

  lemma EncodeKeepsShape(keys: seq<Key>, data: map<Column, seq<Option<real>>>)
    requires Rectangular(keys, data)
    ensures Rectangular(keys, EncodeAll(keys, data, EncodedLabels))
    ensures EncodeAll(keys, data, EncodedLabels).Keys == data.Keys + {CategoryEncoded, BrandEncoded, RegionEncoded}
  {
    EncodeAllShape(keys, data, EncodedLabels);
    var added := set l | l in EncodedLabels :: EncodedColumn(l);
    assert EncodedColumn(EncodedLabels[0]) == CategoryEncoded;
    assert EncodedColumn(EncodedLabels[1]) == BrandEncoded;
    assert EncodedColumn(EncodedLabels[2]) == RegionEncoded;
    assert added == {CategoryEncoded, BrandEncoded, RegionEncoded};
  }

  lemma FeaturesKeepShape(keys: seq<Key>, data: map<Column, seq<Option<real>>>)
    requires Rectangular(keys, data) && TotalSales in data
    ensures Rectangular(keys, AddSalesFeatures(keys, data))
  {
  }

  lemma NormaliseKeepsShape(keys: seq<Key>, data: map<Column, seq<Option<real>>>, sqrt: real -> real)
    requires Rectangular(keys, data) && NonNegativeRoot(sqrt)
    ensures Rectangular(keys, Normalise(data, sqrt))
  {
  }

  /** The frame handed to the aggregation: imputed, sorted, encoded, with the sales features, normalised. */
  function Prepared(raw: RawFrame, sqrt: real -> real): (f: RawFrame)
    requires Rectangular(raw.keys, raw.data) && TotalSales in raw.data && NonNegativeRoot(sqrt)
    ensures Rectangular(f.keys, f.data)
    ensures f.data.Keys == raw.data.Keys + {CategoryEncoded, BrandEncoded, RegionEncoded, SalesLag1, SalesMA3}
    ensures forall g :: HasKey(f.keys, g) <==> HasKey(raw.keys, g)
  {
    ImputeKeepsShape(raw.keys, raw.data);
    SameKeysAfterSort(RawFrame(raw.keys, Impute(raw.data)));
    var sorted := SortByBrandDate(RawFrame(raw.keys, Impute(raw.data)));
    EncodeKeepsShape(sorted.keys, sorted.data);
    var encoded := EncodeAll(sorted.keys, sorted.data, EncodedLabels);
    FeaturesKeepShape(sorted.keys, encoded);
    var featured := AddSalesFeatures(sorted.keys, encoded);
    NormaliseKeepsShape(sorted.keys, featured, sqrt);
    RawFrame(sorted.keys, Normalise(featured, sqrt))
  }

  /** `preprocess_data` from the loaded frame to the aggregated table. */
  function Preprocess(raw: RawFrame, sqrt: real -> real): (t: Table)
    requires Rectangular(raw.keys, raw.data) && TotalSales in raw.data && NonNegativeRoot(sqrt)
  {
    var f := Prepared(raw, sqrt);
    Aggregate(f.keys, f.data)
  }

  /** Lines 27-104, step by step as the source runs them. */
  method PreprocessData(raw: RawFrame, sqrt: real -> real) returns (t: Table)
    requires Rectangular(raw.keys, raw.data)
    requires OnlinePopularity in raw.data && TotalSales in raw.data && QuantitySold in raw.data
    requires NonNegativeRoot(sqrt)
    ensures t == Preprocess(raw, sqrt)
  {
    var data := ImputeMissing(raw.data);
    ImputeKeepsShape(raw.keys, raw.data);
    var sorted := SortByBrandDate(RawFrame(raw.keys, data));
    data := EncodeLabels(sorted.keys, sorted.data);
    EncodeKeepsShape(sorted.keys, sorted.data);
    data := EngineerSalesFeatures(sorted.keys, data);
    FeaturesKeepShape(sorted.keys, EncodeAll(sorted.keys, sorted.data, EncodedLabels));
    NormaliseKeepsShape(sorted.keys, data, sqrt);
    data := Normalise(data, sqrt);
    t := Aggregate(sorted.keys, data);
  }

  /**
   * What the forecasters receive: a readable table with the input's columns
   * and the five added ones, exactly one row per distinct
   * (Category, Brand, Date) of the input, in ascending key order.
   */
  lemma PreprocessOutput(raw: RawFrame, sqrt: real -> real)
    requires Rectangular(raw.keys, raw.data)
    requires OnlinePopularity in raw.data && TotalSales in raw.data
    requires NonNegativeRoot(sqrt)
    ensures var t := Preprocess(raw, sqrt);
      && t.cols == raw.data.Keys + {CategoryEncoded, BrandEncoded, RegionEncoded, SalesLag1, SalesMA3}
      && WellFormed(t) && Readable(t.cols, t.rows)
      && Increasing(RowKeys(t.rows), DayKeyLt)
      && forall g :: g in RowKeys(t.rows) <==> HasKey(raw.keys, g)
  {
    var f := Prepared(raw, sqrt);
    AggregateOneRowPerKey(f.keys, f.data);
    AggregateReadable(f.keys, f.data);
  }

  /** Sorting moves the rows but keeps the set of their keys. */
  lemma SameKeysAfterSort(f: RawFrame)
    requires Rectangular(f.keys, f.data)
    ensures forall g :: HasKey(f.keys, g) <==> HasKey(SortByBrandDate(f).keys, g)
  {
    var s := SortByBrandDate(f);
    var order := SortOrder(f.keys, |f.keys|);
    SortByBrandDateSorts(f);
    forall g ensures HasKey(f.keys, g) <==> HasKey(s.keys, g) {
      if i :| 0 <= i < |f.keys| && KeyOf(f.keys[i]) == g {
        assert i in order;
        var p :| 0 <= p < |order| && order[p] == i;
        assert KeyOf(s.keys[p]) == g;
      }
      if p :| 0 <= p < |s.keys| && KeyOf(s.keys[p]) == g {
        assert order[p] in order;
        assert KeyOf(f.keys[order[p]]) == g;
      }
    }
  }
}
