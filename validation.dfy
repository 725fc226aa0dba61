/**
 * The two column validators of the cleaner: `_validate_numeric` (direct
 * numeric parse, then number words for the cells that did not parse) and
 * `_validate_dates` (pandas' date parser, then `strftime("%Y-%m-%d")`).
 */
module Validation {
  import opened Wrappers
  import opened Text
  import opened Frames
  import opened WordNumbers
  import opened Patterns

  // ---------------------------------------------------------------------
  // _validate_numeric

  /**
   * The value the numeric cascade gives one cell: `pd.to_numeric`'s answer
   * when it has one, otherwise the number-word reading of the original
   * cell (`converted.update(as_words)` writes only where `converted` is NaN).
   */
  function NumericCell(p: Pandas, c: Cell): Option<real>
  {
    var direct := ToNumeric(p, c);
    if direct.Some? then direct else WordsValue(c)
  }

  /** A numeric result as a column: NaN where nothing converted. */
  function AsCell(v: Option<real>): Cell
  {
    match v
    case None => Missing
    case Some(x) => Num(x)
  }

  /** `converted` after the cascade: the numeric value of every cell, or NaN. */
  function Converted(p: Pandas, s: seq<Cell>): (r: seq<Option<real>>)
    ensures |r| == |s|
    ensures forall i :: 0 <= i < |s| ==> r[i] == NumericCell(p, s[i])
  {
    seq(|s|, i requires 0 <= i < |s| => NumericCell(p, s[i]))
  }

  /** A column of numbers and NaN. */
  function AsCells(vs: seq<Option<real>>): (r: seq<Cell>)
    ensures |r| == |vs| && forall i :: 0 <= i < |vs| ==> r[i] == AsCell(vs[i])
  {
    seq(|vs|, i requires 0 <= i < |vs| => AsCell(vs[i]))
  }

  /** `converted` as a column. */
  function NumericColumn(p: Pandas, s: seq<Cell>): seq<Cell>
  {
    AsCells(Converted(p, s))
  }

  /** `converted.isna() & series.notna()`. */
  function UnconvertedMask(vs: seq<Option<real>>, s: seq<Cell>): (m: seq<bool>)
    requires |vs| == |s|
    ensures |m| == |s| && forall i :: 0 <= i < |s| ==> m[i] == (vs[i].None? && !s[i].Missing?)
  {
    seq(|s|, i requires 0 <= i < |s| => vs[i].None? && !s[i].Missing?)
  }

  /** The number of cells that held a value and still did not convert. */
  function NumericInvalid(p: Pandas, s: seq<Cell>): nat
  {
    CountTrue(UnconvertedMask(Converted(p, s), s))
  }

  predicate SomeConverted(p: Pandas, s: seq<Cell>)
  {
    exists i :: 0 <= i < |s| && NumericCell(p, s[i]).Some?
  }

  /**
   * `_validate_numeric(series)`: one pass of `pd.to_numeric`, then
   * `_words_to_num` over the cells it left NaN (only when there are any),
   * then the two counts. Answers (None, 0) when no cell converted, and
   * otherwise the converted column with the number of present cells that
   * did not convert.
   */
  method ValidateNumeric(p: Pandas, series: seq<Cell>) returns (validated: Option<seq<Cell>>, invalid: nat)
    ensures validated.None? <==> !SomeConverted(p, series)
    ensures validated.None? ==> invalid == 0
    ensures validated.Some? ==> validated.value == NumericColumn(p, series)
    ensures validated.Some? ==> invalid == NumericInvalid(p, series)
    ensures invalid <= CountPresent(series)
  {
    var converted := seq(|series|, i requires 0 <= i < |series| => ToNumeric(p, series[i]));
    if exists i :: 0 <= i < |series| && converted[i].None? {
      var i := 0;
      while i < |series|
        invariant 0 <= i <= |series| && |converted| == |series|
        invariant forall k :: 0 <= k < i ==> converted[k] == NumericCell(p, series[k])
        invariant forall k :: i <= k < |series| ==> converted[k] == ToNumeric(p, series[k])
      {
        if converted[i].None? {
          var w := WordsToNum(series[i]);
          if w.Some? {
            converted := converted[i := w];
          }
        }
        i := i + 1;
      }
    }
    assert converted == Converted(p, series);
    var present, bad := CountConversions(converted, series);
    NumericInvalidAtMostPresent(p, series);
    if present == 0 {
      return None, 0;
    }
    return Some(AsCells(converted)), bad;
  }

  /**
   * `converted.notna().sum()` and `(converted.isna() & series.notna()).sum()`:
   * how many cells converted, and how many held a value and did not.
   */
  method CountConversions(converted: seq<Option<real>>, series: seq<Cell>) returns (present: nat, bad: nat)
    requires |converted| == |series|
    ensures present == 0 <==> forall k :: 0 <= k < |converted| ==> converted[k].None?
    ensures bad == CountTrue(UnconvertedMask(converted, series))
  {
    ghost var mask := UnconvertedMask(converted, series);
    present, bad := 0, 0;
    var j := 0;
    while j < |series|
      invariant 0 <= j <= |series|
      invariant present == 0 <==> forall k :: 0 <= k < j ==> converted[k].None?
      invariant bad == CountTrue(mask[..j])
    {
      assert mask[..j + 1][..j] == mask[..j];
      if converted[j].Some? {
        present := present + 1;
      } else if !series[j].Missing? {
        bad := bad + 1;
      }
      j := j + 1;
    }
    assert mask[..j] == mask;
  }

  /** Word conversion fills only the cells the direct parse left NaN: a parsed cell keeps its parse. */
  lemma DirectParseWins(p: Pandas, s: seq<Cell>, i: nat)
    requires i < |s| && ToNumeric(p, s[i]).Some?
    ensures NumericColumn(p, s)[i] == Num(ToNumeric(p, s[i]).value)
  {
  }

  /** A cell the direct parse leaves NaN is filled from its number words, or stays NaN. */
  lemma WordsFillGaps(p: Pandas, s: seq<Cell>, i: nat)
    requires i < |s| && ToNumeric(p, s[i]).None?
    ensures NumericColumn(p, s)[i] == AsCell(WordsValue(s[i]))
  {
  }

  /** The numeric invalid count never counts a cell that was missing to begin with. */
  lemma NumericInvalidAtMostPresent(p: Pandas, s: seq<Cell>)
    ensures NumericInvalid(p, s) <= CountPresent(s)
  {
    CountTrueMono(UnconvertedMask(Converted(p, s), s), PresentMask(s));
  }

  /** Missing cells stay missing through the numeric cascade. */
  lemma NumericKeepsMissing(p: Pandas, s: seq<Cell>, i: nat)
    requires i < |s| && s[i].Missing?
    ensures NumericColumn(p, s)[i] == Missing
    ensures !UnconvertedMask(Converted(p, s), s)[i]
  {
  }

  // ---------------------------------------------------------------------
  // strftime("%Y-%m-%d")

  function DigitChar(n: nat): char
    requires n < 10
  {
    ('0' as int + n) as char
  }

  function DigitValue(c: char): nat
    requires IsDigit(c)
  {
    c as int - '0' as int
  }

  /** Two decimal digits, zero-padded. */
  function Digits2(n: nat): (r: string)
    requires n < 100
    ensures |r| == 2 && IsDigit(r[0]) && IsDigit(r[1])
  {
    [DigitChar(n / 10), DigitChar(n % 10)]
  }

  /** Four decimal digits, zero-padded. */
  function Digits4(n: nat): (r: string)
    requires n < 10000
    ensures |r| == 4 && forall k :: 0 <= k < 4 ==> IsDigit(r[k])
  {
    Digits2(n / 100) + Digits2(n % 100)
  }

  /** `Timestamp.strftime("%Y-%m-%d")`. */
  function IsoDate(d: Timestamp): (r: string)
    ensures |r| == 10 && IsoDatePrefix(r)
  {
    Digits4(d.year) + "-" + Digits2(d.month) + "-" + Digits2(d.day)
  }

  function Value2(s: string): nat
    requires |s| == 2 && IsDigit(s[0]) && IsDigit(s[1])
  {
    10 * DigitValue(s[0]) + DigitValue(s[1])
  }

  function Value4(s: string): nat
    requires |s| == 4 && forall k :: 0 <= k < 4 ==> IsDigit(s[k])
  {
    100 * Value2(s[..2]) + Value2(s[2..])
  }

  /** Reads a `YYYY-MM-DD` text back into its year, month and day. */
  function ReadIsoDate(s: string): Option<CalendarDate>
  {
    if |s| == 10 && IsoDatePrefix(s) then
      Some(CalendarDate(Value4(s[..4]), Value2(s[5..7]), Value2(s[8..])))
    else None
  }

  /** The canonical text of a date reads back as the same date. */
  lemma IsoDateRoundTrip(d: Timestamp)
    ensures ReadIsoDate(IsoDate(d)) == Some(d)
  {
  }

  /** Two dates with the same canonical text are the same date. */
  lemma IsoDateInjective(d: Timestamp, e: Timestamp)
    requires IsoDate(d) == IsoDate(e)
    ensures d == e
  {
  }

  // ---------------------------------------------------------------------
  // _validate_dates

  /** `pd.to_datetime(series, errors="coerce").dt.strftime("%Y-%m-%d")` at one position. */
  function DateCell(p: Pandas, s: seq<Cell>, i: nat): Cell
    requires i < |s|
  {
    match ToDatetime(p, s, i)
    case None => Missing
    case Some(d) => Text(IsoDate(d))
  }

  function DateColumn(p: Pandas, s: seq<Cell>): (r: seq<Cell>)
    ensures |r| == |s| && forall i :: 0 <= i < |s| ==> r[i] == DateCell(p, s, i)
  {
    seq(|s|, i requires 0 <= i < |s| => DateCell(p, s, i))
  }

  predicate SomeDate(p: Pandas, s: seq<Cell>)
  {
    exists i :: 0 <= i < |s| && ToDatetime(p, s, i).Some?
  }

  /**
   * `_validate_dates(series)`: None with count 0 when no cell parsed as a
   * date; otherwise the ISO texts, NaN where parsing failed, with the
   * number of failed cells, the cells that were missing to begin with
   * included.
   */
  function ValidateDates(p: Pandas, s: seq<Cell>): (r: (Option<seq<Cell>>, nat))
    ensures r.0.None? <==> !SomeDate(p, s)
    ensures r.0.None? ==> r.1 == 0
    ensures r.0.Some? ==> |r.0.value| == |s|
    ensures r.0.Some? ==> forall i :: 0 <= i < |s| ==> (r.0.value[i].Missing? <==> ToDatetime(p, s, i).None?)
    ensures r.0.Some? ==> r.1 == CountMissing(r.0.value) && CountMissing(s) <= r.1 < |s|
  {
    if !SomeDate(p, s) then (None, 0)
    else
      DateInvalidCountsMissing(p, s);
      (Some(DateColumn(p, s)), CountMissing(DateColumn(p, s)))
  }

  /** Each parsed cell of a date-validated column reads back as the date pandas parsed. */
  lemma DateCellReadsBack(p: Pandas, s: seq<Cell>, i: nat)
    requires i < |s| && ToDatetime(p, s, i).Some?
    ensures DateCell(p, s, i).Text?
    ensures ReadIsoDate(DateCell(p, s, i).text) == ToDatetime(p, s, i)
  {
  }

  /**
   * Unlike the numeric count, the date invalid count takes in every cell
   * that was missing to begin with, and it leaves out at least the cell
   * that parsed.
   */
  lemma DateInvalidCountsMissing(p: Pandas, s: seq<Cell>)
    requires SomeDate(p, s)
    ensures CountMissing(s) <= CountMissing(DateColumn(p, s)) < |s|
  {
    var parsed := DateColumn(p, s);
    CountTrueMono(MissingMask(s), MissingMask(parsed));
    PresentPlusMissing(parsed);
    var i :| 0 <= i < |s| && ToDatetime(p, s, i).Some?;
    assert !parsed[i].Missing?;
    CountPresentZero(parsed);
  }

  /** Every present cell of a date-validated column is an ISO date at its start. */
  lemma DateColumnIsIso(p: Pandas, s: seq<Cell>, i: nat)
    requires i < |s| && !DateColumn(p, s)[i].Missing?
    ensures DateColumn(p, s)[i].Text? && IsoDatePrefix(DateColumn(p, s)[i].text)
  {
  }
}
