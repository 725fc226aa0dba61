/**
 * The data frame the cleaner and the type detector work on: a table of
 * rows over dynamically typed cells with positional columns, the library
 * calls the source delegates to pandas (given as the `Pandas` bundle of
 * functions), and the few whole-column computations pandas performs for
 * it (`drop_duplicates`, `mean`, `mode`, `fillna`).
 */
module Frames {
  import opened Wrappers

  /** One cell: NaN/None, a number, or text. */
  datatype Cell = Missing | Num(value: real) | Text(text: string)

  /** A calendar date, as a pandas Timestamp holds it to day precision. */
  datatype CalendarDate = CalendarDate(year: int, month: int, day: int)

  predicate IsLeapYear(y: int)
  {
    y % 4 == 0 && (y % 100 != 0 || y % 400 == 0)
  }

  function DaysInMonth(y: int, m: int): int
  {
    if m == 2 then (if IsLeapYear(y) then 29 else 28)
    else if m == 4 || m == 6 || m == 9 || m == 11 then 30
    else 31
  }

  /** Dates pandas can hold: four-digit years, real months and days. */
  predicate ValidDate(d: CalendarDate)
  {
    1000 <= d.year <= 9999 && 1 <= d.month <= 12 && 1 <= d.day <= DaysInMonth(d.year, d.month)
  }

  type Timestamp = d: CalendarDate | ValidDate(d) witness CalendarDate(2000, 1, 1)

  /** The answers of `pandas.api.types.infer_dtype(series, skipna=True)` the source tests for. */
  datatype Dtype =
    | StringDtype | MixedDtype | IntegerDtype | FloatingDtype
    | CategoricalDtype | BooleanDtype | DateDtype | OtherDtype(name: string)

  /**
   * The pandas calls whose internals are not modelled, one function each:
   * - inferDtype: `infer_dtype(series, skipna=True)`;
   * - parseNumber: `pd.to_numeric(..., errors="coerce")` on one string;
   * - toDatetime: `pd.to_datetime(series, errors="coerce")` at one index,
   *   given the whole series because pandas infers one format for it;
   * - parsesWithFormat: whether `pd.to_datetime(value, format=fmt,
   *   errors="coerce")` gives a timestamp;
   * - render: `astype(str)` of the number at one index of a series,
   *   given the whole series because the text depends on its dtype
   *   (an int64 1 renders as "1", a float64 1.0 as "1.0");
   * - isFloatDtype: `pd.api.types.is_float_dtype(series)`.
   */
  datatype Pandas = Pandas(
    inferDtype: seq<Cell> -> Dtype,
    parseNumber: string -> Option<real>,
    toDatetime: (seq<Cell>, nat) -> Option<Timestamp>,
    parsesWithFormat: (string, string) -> bool,
    render: (seq<Cell>, nat) -> string,
    isFloatDtype: seq<Cell> -> bool)

  /** `pd.to_numeric(errors="coerce")` on one cell: NaN stays NaN, numbers stay as they are. */
  function ToNumeric(p: Pandas, c: Cell): (r: Option<real>)
    ensures c.Missing? ==> r.None?
    ensures c.Num? ==> r == Some(c.value)
  {
    match c
    case Missing => None
    case Num(x) => Some(x)
    case Text(s) => p.parseNumber(s)
  }

  /** `pd.to_datetime(series, errors="coerce")[i]`: NaN always becomes NaT. */
  function ToDatetime(p: Pandas, s: seq<Cell>, i: nat): (r: Option<Timestamp>)
    requires i < |s|
    ensures s[i].Missing? ==> r.None?
  {
    if s[i].Missing? then None else p.toDatetime(s, i)
  }

  /** `astype(str)` of the present cell at index i of the series `col`. */
  function Render(p: Pandas, col: seq<Cell>, i: nat): string
    requires i < |col| && !col[i].Missing?
  {
    match col[i]
    case Num(_) => p.render(col, i)
    case Text(s) => s
  }

  // ---------------------------------------------------------------------
  // Counting

  /** The number of `true`s: pandas' `.sum()` of a boolean series. */
  function CountTrue(bs: seq<bool>): (n: nat)
    ensures n <= |bs|
  {
    if bs == [] then 0 else CountTrue(bs[..|bs| - 1]) + (if bs[|bs| - 1] then 1 else 0)
  }

  lemma {:induction false} CountTrueZero(bs: seq<bool>)
    ensures CountTrue(bs) == 0 <==> forall i :: 0 <= i < |bs| ==> !bs[i]
  {
    if bs != [] {
      var init := bs[..|bs| - 1];
      CountTrueZero(init);
      assert forall i :: 0 <= i < |init| ==> init[i] == bs[i];
    }
  }

  /** Counting a weaker condition gives at least as much. */
  lemma {:induction false} CountTrueMono(a: seq<bool>, b: seq<bool>)
    requires |a| == |b|
    requires forall i :: 0 <= i < |a| && a[i] ==> b[i]
    ensures CountTrue(a) <= CountTrue(b)
  {
    if a != [] {
      CountTrueMono(a[..|a| - 1], b[..|b| - 1]);
    }
  }

  /** Counting two exclusive conditions separately adds up to counting either. */
  lemma {:induction false} CountTrueDisjoint(a: seq<bool>, b: seq<bool>, c: seq<bool>)
    requires |a| == |b| == |c|
    requires forall i :: 0 <= i < |c| ==> c[i] == (a[i] || b[i]) && !(a[i] && b[i])
    ensures CountTrue(c) == CountTrue(a) + CountTrue(b)
  {
    if c != [] {
      CountTrueDisjoint(a[..|a| - 1], b[..|b| - 1], c[..|c| - 1]);
    }
  }

  function PresentMask(col: seq<Cell>): (m: seq<bool>)
    ensures |m| == |col| && forall i :: 0 <= i < |col| ==> m[i] == !col[i].Missing?
  {
    seq(|col|, i requires 0 <= i < |col| => !col[i].Missing?)
  }

  function MissingMask(col: seq<Cell>): (m: seq<bool>)
    ensures |m| == |col| && forall i :: 0 <= i < |col| ==> m[i] == col[i].Missing?
  {
    seq(|col|, i requires 0 <= i < |col| => col[i].Missing?)
  }

  /** `series.notna().sum()`. */
  function CountPresent(col: seq<Cell>): nat
  {
    CountTrue(PresentMask(col))
  }

  /** `series.isna().sum()`. */
  function CountMissing(col: seq<Cell>): nat
  {
    CountTrue(MissingMask(col))
  }

  predicate HasMissing(col: seq<Cell>)
  {
    exists i :: 0 <= i < |col| && col[i].Missing?
  }

  predicate HasPresent(col: seq<Cell>)
  {
    exists i :: 0 <= i < |col| && !col[i].Missing?
  }

  /** Every cell is either counted as present or as missing. */
  lemma PresentPlusMissing(col: seq<Cell>)
    ensures CountPresent(col) + CountMissing(col) == |col|
  {
    var all := seq(|col|, i requires 0 <= i < |col| => true);
    CountTrueDisjoint(PresentMask(col), MissingMask(col), all);
    AllTrueCount(all);
  }

  lemma {:induction false} AllTrueCount(bs: seq<bool>)
    requires forall i :: 0 <= i < |bs| ==> bs[i]
    ensures CountTrue(bs) == |bs|
  {
    if bs != [] {
      AllTrueCount(bs[..|bs| - 1]);
    }
  }

  lemma CountPresentZero(col: seq<Cell>)
    ensures CountPresent(col) == 0 <==> !HasPresent(col)
  {
    CountTrueZero(PresentMask(col));
  }

  // ---------------------------------------------------------------------
  // Tables

  predicate Distinct<T(==)>(xs: seq<T>)
  {
    forall i, j :: 0 <= i < j < |xs| ==> xs[i] != xs[j]
  }

  type Row = seq<Cell>

  /** Column names in order, and rows of cells aligned with them by position. */
  datatype Table = Table(names: seq<string>, rows: seq<Row>)

  /** Every row has one cell per column. */
  predicate Shaped(t: Table)
  {
    forall i :: 0 <= i < |t.rows| ==> |t.rows[i]| == |t.names|
  }

  /** A frame whose column labels are unique, so that `df[col]` names one column. */
  predicate WellFormed(t: Table)
  {
    Shaped(t) && Distinct(t.names)
  }

  /** `df[col]` for the column at position j. */
  function Column(t: Table, j: nat): (c: seq<Cell>)
    requires Shaped(t) && j < |t.names|
    ensures |c| == |t.rows| && forall i :: 0 <= i < |t.rows| ==> c[i] == t.rows[i][j]
  {
    seq(|t.rows|, i requires 0 <= i < |t.rows| => t.rows[i][j])
  }

  /** The columns of a table, in order. */
  function Columns(t: Table): (cs: seq<seq<Cell>>)
    requires Shaped(t)
    ensures |cs| == |t.names| && forall k :: 0 <= k < |cs| ==> cs[k] == Column(t, k)
  {
    seq(|t.names|, k requires 0 <= k < |t.names| => Column(t, k))
  }

  /** The table of m rows whose columns are `cs`. */
  function FromColumns(names: seq<string>, cs: seq<seq<Cell>>, m: nat): (r: Table)
    requires |cs| == |names| && forall k :: 0 <= k < |cs| ==> |cs[k]| == m
    ensures r.names == names && |r.rows| == m && Shaped(r)
    ensures forall k :: 0 <= k < |names| ==> Column(r, k) == cs[k]
  {
    Table(names, seq(m, i requires 0 <= i < m => seq(|names|, k requires 0 <= k < |names| => cs[k][i])))
  }

  // ---------------------------------------------------------------------
  // drop_duplicates(keep="first")

  /** The position of the first occurrence of x. */
  function FirstIndex(xs: seq<Row>, x: Row): (k: nat)
    requires x in xs
    ensures k < |xs| && xs[k] == x && x !in xs[..k]
  {
    if xs[0] == x then 0 else 1 + FirstIndex(xs[1..], x)
  }

  /** Only one position holds the first occurrence. */
  lemma FirstIndexUnique(xs: seq<Row>, x: Row, k: nat)
    requires k < |xs| && xs[k] == x && x !in xs[..k]
    ensures FirstIndex(xs, x) == k
  {
  }

  /**
   * `drop_duplicates()`: the rows with every repeat of an earlier row
   * removed. Missing cells compare equal to each other here, as they do
   * for pandas' duplicate detection.
   */
  function Dedup(xs: seq<Row>): (d: seq<Row>)
    ensures |d| <= |xs|
    ensures forall x :: x in d <==> x in xs
    ensures Distinct(d)
  {
    if xs == [] then []
    else
      var init := xs[..|xs| - 1];
      var last := xs[|xs| - 1];
      assert xs == init + [last];
      if last in init then Dedup(init) else Dedup(init) + [last]
  }

  /** The kept rows stand in the order of their first occurrences. */
  lemma {:induction false} DedupKeepsFirstOrder(xs: seq<Row>)
    ensures forall i, j :: 0 <= i < j < |Dedup(xs)| ==>
      FirstIndex(xs, Dedup(xs)[i]) < FirstIndex(xs, Dedup(xs)[j])
  {
    if xs != [] {
      var init := xs[..|xs| - 1];
      var last := xs[|xs| - 1];
      assert xs == init + [last];
      DedupKeepsFirstOrder(init);
      var d0 := Dedup(init);
      forall y | y in init
        ensures FirstIndex(xs, y) == FirstIndex(init, y)
      {
        var k := FirstIndex(init, y);
        assert xs[..k] == init[..k];
        FirstIndexUnique(xs, y, k);
      }
      if last !in init {
        FirstIndexUnique(xs, last, |xs| - 1);
        forall i | 0 <= i < |d0|
          ensures FirstIndex(xs, d0[i]) < FirstIndex(xs, last)
        {
          assert d0[i] in init;
        }
      }
    }
  }

  /** A row is a repeat when an equal row stands before it. */
  function RepeatMask(xs: seq<Row>): (m: seq<bool>)
    ensures |m| == |xs| && forall i :: 0 <= i < |xs| ==> m[i] == (xs[i] in xs[..i])
  {
    seq(|xs|, i requires 0 <= i < |xs| => xs[i] in xs[..i])
  }

  /** The rows removed are exactly the repeats. */
  lemma {:induction false} DedupRemovesRepeats(xs: seq<Row>)
    ensures |xs| - |Dedup(xs)| == CountTrue(RepeatMask(xs))
  {
    if xs != [] {
      var init := xs[..|xs| - 1];
      assert RepeatMask(xs)[..|xs| - 1] == RepeatMask(init) by {
        forall i | 0 <= i < |init| ensures xs[..i] == init[..i] { }
      }
      DedupRemovesRepeats(init);
    }
  }

  // ---------------------------------------------------------------------
  // mean, mode, fillna

  function SumNums(col: seq<Cell>): real
  {
    if col == [] then 0.0
    else SumNums(col[..|col| - 1]) + (if col[|col| - 1].Num? then col[|col| - 1].value else 0.0)
  }

  function CountNums(col: seq<Cell>): nat
  {
    if col == [] then 0
    else CountNums(col[..|col| - 1]) + (if col[|col| - 1].Num? then 1 else 0)
  }

  predicate HasNum(col: seq<Cell>)
  {
    exists i :: 0 <= i < |col| && col[i].Num?
  }

  lemma {:induction false} CountNumsZero(col: seq<Cell>)
    ensures CountNums(col) == 0 <==> !HasNum(col)
  {
    if col != [] {
      var init := col[..|col| - 1];
      CountNumsZero(init);
      assert forall i :: 0 <= i < |init| ==> init[i] == col[i];
    }
  }

  /** `series.mean()` (NaN skipped): the average of the numbers, NaN when there is none. */
  function ColumnMean(col: seq<Cell>): (m: Option<real>)
    ensures m.Some? <==> HasNum(col)
  {
    CountNumsZero(col);
    if CountNums(col) == 0 then None else Some(SumNums(col) / CountNums(col) as real)
  }

  lemma {:induction false} SumNumsWithin(col: seq<Cell>, lo: real, hi: real)
    requires forall i :: 0 <= i < |col| && col[i].Num? ==> lo <= col[i].value <= hi
    ensures lo * CountNums(col) as real <= SumNums(col) <= hi * CountNums(col) as real
  {
    if col != [] {
      var init := col[..|col| - 1];
      var last := col[|col| - 1];
      assert forall i :: 0 <= i < |init| ==> init[i] == col[i];
      SumNumsWithin(init, lo, hi);
      var n := CountNums(init) as real;
      if last.Num? {
        assert CountNums(col) as real == n + 1.0;
        assert lo * (n + 1.0) == lo * n + lo;
        assert hi * (n + 1.0) == hi * n + hi;
      } else {
        assert CountNums(col) as real == n;
      }
    }
  }

  /** Dividing bounds on a total by a positive count bounds the average. */
  lemma DivWithin(s: real, n: real, lo: real, hi: real)
    requires 0.0 < n && lo * n <= s <= hi * n
    ensures lo <= s / n <= hi
  {
  }

  /** The mean lies within any bounds that hold for every number of the column. */
  lemma MeanWithin(col: seq<Cell>, lo: real, hi: real)
    requires HasNum(col)
    requires forall i :: 0 <= i < |col| && col[i].Num? ==> lo <= col[i].value <= hi
    ensures lo <= ColumnMean(col).value <= hi
  {
    CountNumsZero(col);
    SumNumsWithin(col, lo, hi);
    DivWithin(SumNums(col), CountNums(col) as real, lo, hi);
  }

  /** How often a value occurs in the column. */
  function Occurrences(col: seq<Cell>, c: Cell): nat
  {
    multiset(col)[c]
  }

  /** Scans from position i, keeping the earliest most frequent present value seen so far. */
  function ModeFrom(col: seq<Cell>, i: nat, best: Option<Cell>): (m: Option<Cell>)
    requires i <= |col|
    requires best.Some? ==> !best.value.Missing? && best.value in col
    requires best.Some? <==> exists k :: 0 <= k < i && !col[k].Missing?
    requires best.Some? ==> forall k :: 0 <= k < i && !col[k].Missing? ==>
      Occurrences(col, col[k]) <= Occurrences(col, best.value)
    ensures m.Some? <==> HasPresent(col)
    ensures m.Some? ==> !m.value.Missing? && m.value in col
    ensures m.Some? ==> forall k :: 0 <= k < |col| && !col[k].Missing? ==>
      Occurrences(col, col[k]) <= Occurrences(col, m.value)
    decreases |col| - i
  {
    if i == |col| then best
    else if col[i].Missing? then ModeFrom(col, i + 1, best)
    else if best.None? || Occurrences(col, best.value) < Occurrences(col, col[i]) then
      ModeFrom(col, i + 1, Some(col[i]))
    else ModeFrom(col, i + 1, best)
  }

  /**
   * `series.mode(dropna=True).iloc[0]`, or None when `mode` is empty: a
   * most frequent present value.
   */
  function ColumnMode(col: seq<Cell>): (m: Option<Cell>)
    ensures m.Some? <==> HasPresent(col)
    ensures m.Some? ==> !m.value.Missing? && m.value in col
    ensures m.Some? ==> forall k :: 0 <= k < |col| && !col[k].Missing? ==>
      Occurrences(col, col[k]) <= Occurrences(col, m.value)
  {
    ModeFrom(col, 0, None)
  }

  /** `series.fillna(v)`. */
  function FillMissing(col: seq<Cell>, v: Cell): (r: seq<Cell>)
    ensures |r| == |col|
    ensures forall i :: 0 <= i < |col| ==> r[i] == (if col[i].Missing? then v else col[i])
  {
    seq(|col|, i requires 0 <= i < |col| => if col[i].Missing? then v else col[i])
  }

  // ---------------------------------------------------------------------
  // astype(str) samples

  /** Counting from the front: the first flag, then the rest. */
  lemma {:induction false} CountTrueCons(b: bool, bs: seq<bool>)
    ensures CountTrue([b] + bs) == (if b then 1 else 0) + CountTrue(bs)
  {
    if bs != [] {
      var init := bs[..|bs| - 1];
      CountTrueCons(b, init);
      assert ([b] + bs)[..|bs|] == [b] + init;
    }
  }

  /** The present cells of `col[i..]`: the first cell, then those after it. */
  lemma CountPresentFrom(col: seq<Cell>, i: nat)
    requires i < |col|
    ensures CountPresent(col[i..]) == (if col[i].Missing? then 0 else 1) + CountPresent(col[i + 1..])
  {
    assert PresentMask(col[i..]) == [!col[i].Missing?] + PresentMask(col[i + 1..]);
    CountTrueCons(!col[i].Missing?, PresentMask(col[i + 1..]));
  }

  /** The positions from i on whose cells are present, in column order. */
  function PresentFrom(col: seq<Cell>, i: nat): (ix: seq<nat>)
    requires i <= |col|
    ensures forall m :: 0 <= m < |ix| ==> i <= ix[m] < |col| && !col[ix[m]].Missing?
    decreases |col| - i
  {
    if i == |col| then []
    else (if col[i].Missing? then [] else [i]) + PresentFrom(col, i + 1)
  }

  /** The positions come in increasing order. */
  lemma {:induction false} PresentFromIncreasing(col: seq<Cell>, i: nat)
    requires i <= |col|
    ensures forall m, n :: 0 <= m < n < |PresentFrom(col, i)| ==> PresentFrom(col, i)[m] < PresentFrom(col, i)[n]
    decreases |col| - i
  {
    if i < |col| {
      PresentFromIncreasing(col, i + 1);
      var rest := PresentFrom(col, i + 1);
      var ix := PresentFrom(col, i);
      assert ix == (if col[i].Missing? then [] else [i]) + rest;
      if !col[i].Missing? {
        forall m, n | 0 <= m < n < |ix| ensures ix[m] < ix[n] {
          assert ix[n] == rest[n - 1] && i < rest[n - 1];
          if m == 0 {
            assert ix[m] == i;
          } else {
            assert ix[m] == rest[m - 1] && rest[m - 1] < rest[n - 1];
          }
        }
      }
    }
  }

  /** No present cell from i on is left out. */
  lemma {:induction false} PresentFromComplete(col: seq<Cell>, i: nat)
    requires i <= |col|
    ensures forall j :: i <= j < |col| && !col[j].Missing? ==> j in PresentFrom(col, i)
    decreases |col| - i
  {
    if i < |col| {
      PresentFromComplete(col, i + 1);
      var rest := PresentFrom(col, i + 1);
      var ix := PresentFrom(col, i);
      assert ix == (if col[i].Missing? then [] else [i]) + rest;
      forall j | i <= j < |col| && !col[j].Missing? ensures j in ix {
        if j == i {
          assert ix[0] == i;
        } else {
          assert j in rest;
          var m :| 0 <= m < |rest| && rest[m] == j;
          assert ix[|ix| - |rest| + m] == j;
        }
      }
    }
  }

  /** There are as many positions as present cells. */
  lemma {:induction false} PresentFromCount(col: seq<Cell>, i: nat)
    requires i <= |col|
    ensures |PresentFrom(col, i)| == CountPresent(col[i..])
    decreases |col| - i
  {
    if i < |col| {
      PresentFromCount(col, i + 1);
      CountPresentFrom(col, i);
    }
  }

  /**
   * The index `dropna()` keeps: every position of a present cell, each
   * once and in column order, and nothing else.
   */
  function PresentIndices(col: seq<Cell>): (ix: seq<nat>)
    ensures forall m :: 0 <= m < |ix| ==> ix[m] < |col| && !col[ix[m]].Missing?
    ensures forall m, n :: 0 <= m < n < |ix| ==> ix[m] < ix[n]
    ensures forall j :: 0 <= j < |col| && !col[j].Missing? ==> j in ix
    ensures |ix| == CountPresent(col)
  {
    assert col[0..] == col;
    PresentFromIncreasing(col, 0);
    PresentFromComplete(col, 0);
    PresentFromCount(col, 0);
    PresentFrom(col, 0)
  }

  function Min(a: nat, b: nat): nat
  {
    if a <= b then a else b
  }

  /** `head(k)` of the rendered present cells from position i on. */
  function SampleFrom(p: Pandas, col: seq<Cell>, i: nat, k: nat): (r: seq<string>)
    requires i <= |col|
    ensures |r| == Min(k, |PresentFrom(col, i)|)
    ensures forall m :: 0 <= m < |r| ==> r[m] == Render(p, col, PresentFrom(col, i)[m])
    decreases |col| - i
  {
    if i == |col| || k == 0 then []
    else if col[i].Missing? then SampleFrom(p, col, i + 1, k)
    else [Render(p, col, i)] + SampleFrom(p, col, i + 1, k - 1)
  }

  /**
   * `series.dropna().astype(str).head(k)`: the first k present cells, or
   * all of them when there are fewer, rendered in column order.
   */
  function Sample(p: Pandas, col: seq<Cell>, k: nat): (r: seq<string>)
    ensures |r| == Min(k, CountPresent(col))
    ensures r == [] <==> k == 0 || !HasPresent(col)
    ensures forall m :: 0 <= m < |r| ==> r[m] == Render(p, col, PresentIndices(col)[m])
  {
    CountPresentZero(col);
    assert col[0..] == col;
    PresentFromCount(col, 0);
    SampleFrom(p, col, 0, k)
  }
}
