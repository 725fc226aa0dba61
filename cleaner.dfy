/**
 * `clean_data`: drop duplicate rows, try to turn text columns into
 * numbers and then into dates, fill the remaining gaps with the mean or
 * the mode, and report what was done in an `info` record.
 */
module Cleaner {
  import opened Wrappers
  import opened Frames
  import opened Validation

  /** The tags `info["imputed"]` records. */
  datatype Imputation = Mean | Mode

  /** The `info` dictionary: `duplicates`, `imputed` and `invalid`. */
  datatype Info = Info(duplicates: nat, imputed: map<string, Imputation>, invalid: map<string, nat>)

  /** The dtypes `clean_data` tries to convert. */
  predicate Promotable(d: Dtype)
  {
    d == StringDtype || d == MixedDtype
  }

  predicate MeanImputed(d: Dtype)
  {
    d == IntegerDtype || d == FloatingDtype
  }

  predicate ModeImputed(d: Dtype)
  {
    d == StringDtype || d == CategoricalDtype || d == BooleanDtype
  }

  /** A column after the conversion step, the dtype `clean_data` then holds for it, and the count it records in `invalid`. */
  datatype Promotion = Promotion(cells: seq<Cell>, dtype: Dtype, invalid: Option<nat>)

  /** `if invalid: info["invalid"][col] = invalid`: nothing is recorded for a count of zero. */
  function Recorded(n: nat): Option<nat>
  {
    if n > 0 then Some(n) else None
  }

  /** The conversion step of one column (lines 23-38 of the source). */
  function Promote(p: Pandas, col: seq<Cell>): (r: Promotion)
    ensures |r.cells| == |col|
  {
    var d := p.inferDtype(col);
    if !Promotable(d) then Promotion(col, d, None)
    else if SomeConverted(p, col) then
      Promotion(NumericColumn(p, col), FloatingDtype, Recorded(NumericInvalid(p, col)))
    else
      var dates := ValidateDates(p, col);
      if dates.0.Some? then Promotion(dates.0.value, DateDtype, Recorded(dates.1))
      else Promotion(col, d, None)
  }

  /**
   * Only `string` and `mixed` columns are converted; numbers are tried
   * first, dates only when no cell converted to a number; a count is
   * recorded only when it is positive.
   */
  lemma PromoteSpec(p: Pandas, col: seq<Cell>)
    ensures var r := Promote(p, col);
      && (r.invalid.Some? ==> r.invalid.value > 0)
      && (!Promotable(p.inferDtype(col)) ==> r == Promotion(col, p.inferDtype(col), None))
      && (Promotable(p.inferDtype(col)) && SomeConverted(p, col) ==>
            r.cells == NumericColumn(p, col) && r.dtype == FloatingDtype && HasNum(r.cells) &&
            r.invalid == Recorded(NumericInvalid(p, col)))
      && (Promotable(p.inferDtype(col)) && !SomeConverted(p, col) && SomeDate(p, col) ==>
            r.cells == DateColumn(p, col) && r.dtype == DateDtype &&
            r.invalid == Recorded(CountMissing(DateColumn(p, col))))
      && (Promotable(p.inferDtype(col)) && !SomeConverted(p, col) && !SomeDate(p, col) ==>
            r == Promotion(col, p.inferDtype(col), None))
  {
  }

  /** The value `fillna(df[col].mean())` writes: the mean, or NaN when there is no number to average. */
  function MeanCell(col: seq<Cell>): Cell
  {
    match ColumnMean(col)
    case None => Missing
    case Some(m) => Num(m)
  }

  /** The imputation step of one column (lines 40-48 of the source), given the dtype held for it. */
  function Impute(col: seq<Cell>, d: Dtype): (r: (seq<Cell>, Option<Imputation>))
    ensures |r.0| == |col|
  {
    if !HasMissing(col) then (col, None)
    else if MeanImputed(d) then (FillMissing(col, MeanCell(col)), Some(Mean))
    else if ModeImputed(d) then
      match ColumnMode(col)
      case None => (col, None)
      case Some(m) => (FillMissing(col, m), Some(Mode))
    else (col, None)
  }

  /**
   * A column is imputed only when it has a gap; integer and floating
   * columns get the mean, string, categorical and boolean columns a most
   * frequent value when there is one, other columns nothing; present
   * cells are never changed.
   */
  lemma ImputeSpec(col: seq<Cell>, d: Dtype)
    ensures var r := Impute(col, d);
      && (r.1.None? ==> r.0 == col)
      && (r.1.Some? ==> HasMissing(col))
      && (r.1 == Some(Mean) <==> HasMissing(col) && MeanImputed(d))
      && (r.1 == Some(Mode) <==> HasMissing(col) && ModeImputed(d) && HasPresent(col))
      && (forall i :: 0 <= i < |col| && !col[i].Missing? ==> r.0[i] == col[i])
  {
  }

  /** Mean imputation writes the mean into every gap, and leaves none exactly when there is a number to average. */
  lemma MeanImputeFills(col: seq<Cell>, d: Dtype)
    requires Impute(col, d).1 == Some(Mean)
    ensures forall i :: 0 <= i < |col| && col[i].Missing? ==> Impute(col, d).0[i] == MeanCell(col)
    ensures !HasMissing(Impute(col, d).0) <==> HasNum(col)
    ensures HasNum(col) ==> forall i :: 0 <= i < |col| && col[i].Missing? ==>
      Impute(col, d).0[i] == Num(ColumnMean(col).value)
  {
  }

  /** Mode imputation leaves no gap, and fills every gap with a value at least as frequent as any other. */
  lemma ModeImputeFills(col: seq<Cell>, d: Dtype)
    requires Impute(col, d).1 == Some(Mode)
    ensures !HasMissing(Impute(col, d).0)
    ensures forall i, k :: 0 <= i < |col| && col[i].Missing? && 0 <= k < |col| && !col[k].Missing? ==>
      Impute(col, d).0[i] in col && Occurrences(col, col[k]) <= Occurrences(col, Impute(col, d).0[i])
  {
  }

  /** What `clean_data` makes of one column. */
  datatype Outcome = Outcome(cells: seq<Cell>, imputed: Option<Imputation>, invalid: Option<nat>)

  function CleanColumn(p: Pandas, col: seq<Cell>): (r: Outcome)
    ensures |r.cells| == |col|
  {
    var pr := Promote(p, col);
    var im := Impute(pr.cells, pr.dtype);
    Outcome(im.0, im.1, pr.invalid)
  }

  /** `df.drop_duplicates()`, keeping the column labels. */
  function Deduplicated(df: Table): (r: Table)
    requires Shaped(df)
    ensures r.names == df.names && Shaped(r)
  {
    var r := Table(df.names, Dedup(df.rows));
    assert forall i :: 0 <= i < |r.rows| ==> r.rows[i] in df.rows;
    r
  }

  /**
   * The dictionary a loop over columns builds when it stores `vals[k]`
   * under `names[k]` whenever there is a value to store, later columns
   * last.
   */
  function RecordOf<T>(names: seq<string>, vals: seq<Option<T>>): map<string, T>
    requires |names| == |vals|
  {
    if vals == [] then map[]
    else
      var k := |vals| - 1;
      var m := RecordOf(names[..k], vals[..k]);
      if vals[k].Some? then m[names[k] := vals[k].value] else m
  }

  lemma PrefixStep<T>(s: seq<T>, j: nat)
    requires j < |s|
    ensures s[..j + 1] == s[..j] + [s[j]]
  {
  }

  /** Extending the prefix by one position adds at most that position's entry. */
  lemma RecordOfStep<T>(names: seq<string>, vals: seq<Option<T>>, j: nat)
    requires |names| == |vals| && j < |vals|
    ensures RecordOf(names[..j + 1], vals[..j + 1]) ==
      if vals[j].Some? then RecordOf(names[..j], vals[..j])[names[j] := vals[j].value]
      else RecordOf(names[..j], vals[..j])
  {
    assert names[..j + 1][..j] == names[..j];
    assert vals[..j + 1][..j] == vals[..j];
  }

  /** With distinct column labels, the dictionary holds exactly the columns that had a value, with that value. */
  lemma {:induction false} RecordOfSpec<T>(names: seq<string>, vals: seq<Option<T>>)
    requires |names| == |vals| && Distinct(names)
    ensures forall k :: 0 <= k < |vals| ==> (names[k] in RecordOf(names, vals) <==> vals[k].Some?)
    ensures forall k :: 0 <= k < |vals| && vals[k].Some? ==> RecordOf(names, vals)[names[k]] == vals[k].value
    ensures forall c :: c in RecordOf(names, vals) ==> c in names
  {
    if vals != [] {
      var k := |vals| - 1;
      assert Distinct(names[..k]);
      RecordOfSpec(names[..k], vals[..k]);
      forall i | 0 <= i < k ensures names[i] != names[k] && names[..k][i] == names[i] && vals[..k][i] == vals[i] { }
      forall c | c in RecordOf(names[..k], vals[..k]) ensures c in names {
        var i :| 0 <= i < k && names[..k][i] == c;
      }
    }
  }

  /**
   * Duplicates are dropped before the columns are converted and imputed,
   * so the cleaned table can hold equal rows again: a floating column
   * with a gap and a 2.0 has two different rows, and both read 2.0 once
   * the gap is filled with the mean.
   */
  lemma CleanedRowsMayRepeat()
    ensures var p := Pandas(_ => FloatingDtype, _ => None, (_, _) => None, (_, _) => false, (_, _) => "", _ => false);
      var df := Table(["x"], [[Missing], [Num(2.0)]]);
      && WellFormed(df) && Distinct(df.rows)
      && Deduplicated(df) == df
      && CleanColumn(p, Column(df, 0)).cells == [Num(2.0), Num(2.0)]
  {
    var df := Table(["x"], [[Missing], [Num(2.0)]]);
    assert Column(df, 0) == [Missing, Num(2.0)];
    GapAndTwoAreDistinct();
    GapAndTwoMean();
  }

  /** The rows (NaN) and (2.0) are different, so `drop_duplicates` keeps both. */
  lemma GapAndTwoAreDistinct()
    ensures Dedup([[Missing], [Num(2.0)]]) == [[Missing], [Num(2.0)]]
  {
    var rows: seq<Row> := [[Missing], [Num(2.0)]];
    assert [Num(2.0)] !in [[Missing]];
    assert rows[..1] == [[Missing]];
    assert [[Missing]][..0] == [];
  }

  /** The mean of (NaN, 2.0) is 2.0. */
  lemma GapAndTwoMean()
    ensures ColumnMean([Missing, Num(2.0)]) == Some(2.0)
  {
    var col := [Missing, Num(2.0)];
    assert col[..1] == [Missing];
    assert SumNums(col) == 2.0;
    assert CountNums(col) == 1;
  }

  /**
   * `clean_data(df)`: the deduplicated table with every column cleaned
   * by `CleanColumn`, and the record of what was done.
   */
  method CleanData(p: Pandas, df: Table) returns (out: Table, info: Info)
    requires WellFormed(df)
    ensures out.names == df.names && Shaped(out)
    ensures |out.rows| == |Dedup(df.rows)|
    ensures info.duplicates == |df.rows| - |out.rows|
    ensures forall j :: 0 <= j < |df.names| ==>
      Column(out, j) == CleanColumn(p, Column(Deduplicated(df), j)).cells
    ensures forall j :: 0 <= j < |df.names| ==>
      (df.names[j] in info.imputed <==> CleanColumn(p, Column(Deduplicated(df), j)).imputed.Some?)
    ensures forall j :: 0 <= j < |df.names| && df.names[j] in info.imputed ==>
      Some(info.imputed[df.names[j]]) == CleanColumn(p, Column(Deduplicated(df), j)).imputed
    ensures forall j :: 0 <= j < |df.names| ==>
      (df.names[j] in info.invalid <==> CleanColumn(p, Column(Deduplicated(df), j)).invalid.Some?)
    ensures forall j :: 0 <= j < |df.names| && df.names[j] in info.invalid ==>
      Some(info.invalid[df.names[j]]) == CleanColumn(p, Column(Deduplicated(df), j)).invalid
    ensures forall c :: c in info.imputed ==> c in df.names
    ensures forall c :: c in info.invalid ==> c in df.names
  {
    var before := |df.rows|;
    var deduped := Deduplicated(df);
    var duplicates := before - |deduped.rows|;
    var cols, imputed, invalid := CleanColumns(p, df.names, Columns(deduped));
    RecordOfSpec(df.names, ImputedOf(p, Columns(deduped)));
    RecordOfSpec(df.names, InvalidOf(p, Columns(deduped)));
    info := Info(duplicates, imputed, invalid);
    out := FromColumns(df.names, cols, |deduped.rows|);
  }

  /**
   * The column loop of `clean_data`: each column is converted and
   * imputed on its own, and `info["invalid"]` and `info["imputed"]` gain
   * an entry for the columns that had something to record.
   */
  method CleanColumns(p: Pandas, names: seq<string>, cols0: seq<seq<Cell>>)
    returns (cols: seq<seq<Cell>>, imputed: map<string, Imputation>, invalid: map<string, nat>)
    requires |cols0| == |names|
    ensures |cols| == |names|
    ensures forall k :: 0 <= k < |names| ==> cols[k] == CleanColumn(p, cols0[k]).cells
    ensures imputed == RecordOf(names, ImputedOf(p, cols0))
    ensures invalid == RecordOf(names, InvalidOf(p, cols0))
  {
    var n := |names|;
    cols, imputed, invalid := [], map[], map[];
    ghost var cleaned := CellsOf(p, cols0);
    ghost var imputations := ImputedOf(p, cols0);
    ghost var invalids := InvalidOf(p, cols0);
    for j := 0 to n
      invariant |cols| == j
      invariant cols == cleaned[..j]
      invariant imputed == RecordOf(names[..j], imputations[..j])
      invariant invalid == RecordOf(names[..j], invalids[..j])
    {
      var o := CleanSeries(p, cols0[j]);
      if o.invalid.Some? {
        invalid := invalid[names[j] := o.invalid.value];
      }
      if o.imputed.Some? {
        imputed := imputed[names[j] := o.imputed.value];
      }
      cols := cols + [o.cells];
      PrefixStep(cleaned, j);
      RecordOfStep(names, imputations, j);
      RecordOfStep(names, invalids, j);
    }
    assert cleaned[..n] == cleaned && names[..n] == names;
    assert imputations[..n] == imputations && invalids[..n] == invalids;
  }

  /** The cleaned cells of each column, in column order. */
  ghost function CellsOf(p: Pandas, cols: seq<seq<Cell>>): (r: seq<seq<Cell>>)
    ensures |r| == |cols| && forall k :: 0 <= k < |cols| ==> r[k] == CleanColumn(p, cols[k]).cells
  {
    seq(|cols|, k requires 0 <= k < |cols| => CleanColumn(p, cols[k]).cells)
  }

  /** What `info["imputed"]` would record for each column, in column order. */
  ghost function ImputedOf(p: Pandas, cols: seq<seq<Cell>>): (r: seq<Option<Imputation>>)
    ensures |r| == |cols| && forall k :: 0 <= k < |cols| ==> r[k] == CleanColumn(p, cols[k]).imputed
  {
    seq(|cols|, k requires 0 <= k < |cols| => CleanColumn(p, cols[k]).imputed)
  }

  /** What `info["invalid"]` would record for each column, in column order. */
  ghost function InvalidOf(p: Pandas, cols: seq<seq<Cell>>): (r: seq<Option<nat>>)
    ensures |r| == |cols| && forall k :: 0 <= k < |cols| ==> r[k] == CleanColumn(p, cols[k]).invalid
  {
    seq(|cols|, k requires 0 <= k < |cols| => CleanColumn(p, cols[k]).invalid)
  }

  /** One pass of the column loop: conversion, then imputation. */
  method CleanSeries(p: Pandas, series: seq<Cell>) returns (o: Outcome)
    ensures o == CleanColumn(p, series)
  {
    var promoted, dtype, count := PromoteSeries(p, series);
    var cells, how := ImputeSeries(promoted, dtype);
    o := Outcome(cells, how, count);
  }

  /**
   * The conversion part of the column loop of `clean_data`: for a
   * `string` or `mixed` column, numbers first and dates only when no
   * cell converted to a number. Answers the column, the dtype the loop
   * goes on with, and the invalid count it records.
   */
  method PromoteSeries(p: Pandas, series: seq<Cell>) returns (cells: seq<Cell>, dtype: Dtype, invalid: Option<nat>)
    ensures Promotion(cells, dtype, invalid) == Promote(p, series)
  {
    cells, invalid := series, None;
    dtype := p.inferDtype(series);
    if dtype == StringDtype || dtype == MixedDtype {
      var validated, count := ValidateNumeric(p, series);
      if validated.Some? {
        cells := validated.value;
        if count > 0 {
          invalid := Some(count);
        }
        dtype := FloatingDtype;
      } else {
        var dates := ValidateDates(p, series);
        if dates.0.Some? {
          cells := dates.0.value;
          if dates.1 > 0 {
            invalid := Some(dates.1);
          }
          dtype := DateDtype;
        }
      }
    }
  }

  /** The imputation part of the column loop of `clean_data`. */
  method ImputeSeries(series: seq<Cell>, dtype: Dtype) returns (cells: seq<Cell>, imputed: Option<Imputation>)
    ensures (cells, imputed) == Impute(series, dtype)
  {
    cells, imputed := series, None;
    if HasMissing(series) {
      if dtype == IntegerDtype || dtype == FloatingDtype {
        cells := FillMissing(series, MeanCell(series));
        imputed := Some(Mean);
      } else if dtype == StringDtype || dtype == CategoricalDtype || dtype == BooleanDtype {
        var mode := ColumnMode(series);
        if mode.Some? {
          cells := FillMissing(series, mode.value);
          imputed := Some(Mode);
        }
      }
    }
  }
}
