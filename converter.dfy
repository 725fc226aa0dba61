/**
 * `convert.detect_types`: a semantic type for every column of a frame,
 * first from the column's name and a sample of its values, then
 * rewritten by a refinement pass that looks at the column again.
 */
module Converter {
  import opened Text
  import opened Frames
  import opened Patterns
  import opened Validation

  /** The labels `detect_types` hands out. */
  datatype SemanticType =
    | Identifier | PlainString | ProductName | Location | Currency
    | Date | Boolean | Integer | Floating

  /** The string the source stores for each type; the nine are distinct. */
  function Label(t: SemanticType): (s: string)
    ensures |s| > 0
  {
    match t
    case Identifier => "identifier"
    case PlainString => "string"
    case ProductName => "product_name"
    case Location => "location"
    case Currency => "currency"
    case Date => "date"
    case Boolean => "boolean"
    case Integer => "integer"
    case Floating => "floating"
  }

  // ---------------------------------------------------------------------
  // Constants

  /** `_DATE_FORMATS`, the strptime formats the content check tries in turn. */
  const DateFormats: seq<string> :=
    ["%Y-%m-%d", "%d/%m/%Y", "%m/%d/%Y", "%Y/%m/%d", "%d-%m-%Y", "%m-%d-%Y", "%B %d %Y", "%d %B %Y"]

  const NameTerms: seq<string> := ["name", "title", "product", "model"]
  const DateTerms: seq<string> := ["date", "time", "created", "updated"]
  const PriceTerms: seq<string> := ["price", "cost", "amount", "fee"]

  /** The values the boolean check accepts, after lower-casing. */
  const BoolTokens: set<string> :=
    {"true", "false", "yes", "no", "1", "0", "t", "f", "y", "n", "inactive", "active"}

  const CurrencyTerms: seq<string> := ["price", "cost", "fee", "amount"]
  const RefineDateTerms: seq<string> := ["date", "time", "day"]
  const LocationTerms: seq<string> := ["location", "address", "city", "country", "street"]
  const ProductTerms: seq<string> := ["product", "item", "model"]

  /** The column the refinement pass always leaves as a string. */
  const ProductNameColumn: string := "product_name"

  // ---------------------------------------------------------------------
  // Ratios: `mask.mean()` compared with a threshold, k hits out of n.
  // The mean of an empty sample is NaN, and every comparison with NaN
  // fails; k/n is compared exactly.

  /** `mean() >= 0.5` */
  predicate AtLeastHalf(k: nat, n: nat) { n > 0 && 2 * k >= n }
  /** `mean() > 0.5` */
  predicate MoreThanHalf(k: nat, n: nat) { 2 * k > n }
  /** `mean() > 0.2` */
  predicate MoreThanFifth(k: nat, n: nat) { 5 * k > n }
  /** `mean() > 0.3` */
  predicate MoreThanThreeTenths(k: nat, n: nat) { 10 * k > 3 * n }

  /** How many of the sampled strings `f` accepts: the `.sum()` of a boolean mask. */
  function CountMatching(ss: seq<string>, f: string -> bool): (n: nat)
    ensures n <= |ss|
  {
    if ss == [] then 0
    else CountMatching(ss[..|ss| - 1], f) + (if f(ss[|ss| - 1]) then 1 else 0)
  }

  /** Every string accepted counts fully; none accepted counts zero. */
  lemma {:induction false} CountMatchingExtremes(ss: seq<string>, f: string -> bool)
    ensures (forall i :: 0 <= i < |ss| ==> f(ss[i])) ==> CountMatching(ss, f) == |ss|
    ensures CountMatching(ss, f) == 0 <==> forall i :: 0 <= i < |ss| ==> !f(ss[i])
  {
    if ss != [] {
      var init := ss[..|ss| - 1];
      CountMatchingExtremes(init, f);
      assert forall i :: 0 <= i < |init| ==> init[i] == ss[i];
    }
  }

  // ---------------------------------------------------------------------
  // The content checks of `_infer_column_type`

  predicate IsBoolToken(s: string)
  {
    Lower(s) in BoolTokens
  }

  /** `parsed.notna().mean() > 0.5` for `pd.to_datetime(sample, format=fmt, errors="coerce")`. */
  predicate FormatFits(p: Pandas, sample: seq<string>, fmt: string)
  {
    MoreThanHalf(CountMatching(sample, s => p.parsesWithFormat(s, fmt)), |sample|)
  }

  /** The number of formats among `fmts` that most of the sample parses with. */
  function FormatsMatching(p: Pandas, sample: seq<string>, fmts: seq<string>): (n: nat)
    ensures n <= |fmts|
    ensures n > 0 <==> exists k :: 0 <= k < |fmts| && FormatFits(p, sample, fmts[k])
  {
    if fmts == [] then 0
    else
      var init := fmts[..|fmts| - 1];
      assert forall k :: 0 <= k < |init| ==> init[k] == fmts[k];
      FormatsMatching(p, sample, init) + (if FormatFits(p, sample, fmts[|fmts| - 1]) then 1 else 0)
  }

  /** `date_matches` after the loop over `_DATE_FORMATS`. */
  function DateMatches(p: Pandas, sample: seq<string>): nat
  {
    FormatsMatching(p, sample, DateFormats)
  }

  /** `float(x).is_integer()`. */
  predicate IsWhole(x: real)
  {
    x == x.Floor as real
  }

  /** `pd.to_numeric(sample, errors="coerce").dropna().apply(is_integer).all()`. */
  predicate AllWhole(p: Pandas, sample: seq<string>)
  {
    forall i :: 0 <= i < |sample| && p.parseNumber(sample[i]).Some? ==> IsWhole(p.parseNumber(sample[i]).value)
  }

  /** The content fallback of `_infer_column_type` (lines 96-143), on the sample of rendered values. */
  function ContentType(p: Pandas, sample: seq<string>): SemanticType
  {
    var n := |sample|;
    if AtLeastHalf(CountMatching(sample, IsBoolToken), n) then Boolean
    else if DateMatches(p, sample) > 0 then Date
    else if MoreThanHalf(CountMatching(sample, NumericShape), n) then
      (if AllWhole(p, sample) then Integer else Floating)
    else if MoreThanFifth(CountMatching(sample, CurrencyShape), n) then Currency
    else PlainString
  }

  /**
   * `"id" in l and l.endswith("id")`, for the lower-cased name l. The
   * first test adds nothing: a name that ends in "id" contains it.
   */
  predicate IdName(l: string)
  {
    Contains(l, "id") && EndsWith(l, "id")
  }

  /** `_infer_column_type(df, name)` for the column `col` labelled `name`. */
  function InferredType(p: Pandas, name: string, col: seq<Cell>): SemanticType
  {
    var l := Lower(name);
    if IdName(l) then Identifier
    else if ContainsAny(l, NameTerms) then PlainString
    else if ContainsAny(l, DateTerms) then Date
    else if ContainsAny(l, PriceTerms) then Currency
    else ContentType(p, Sample(p, col, 20))
  }

  // ---------------------------------------------------------------------
  // Properties of the first pass

  /** A name ending in "id", in any case, makes an identifier whatever else it holds and whatever the values. */
  lemma IdentifierComesFirst(p: Pandas, name: string, col: seq<Cell>)
    requires EndsWith(Lower(name), "id")
    ensures InferredType(p, name, col) == Identifier
  {
  }

  /** A name term wins over the date and price terms and over the values. */
  lemma NameTermsComeNext(p: Pandas, name: string, col: seq<Cell>)
    requires !EndsWith(Lower(name), "id") && ContainsAny(Lower(name), NameTerms)
    ensures InferredType(p, name, col) == PlainString
  {
  }

  /** A date term decides "date" on the name alone: the values are never consulted. */
  lemma DateNamesIgnoreValues(p: Pandas, name: string, col: seq<Cell>)
    requires !EndsWith(Lower(name), "id") && !ContainsAny(Lower(name), NameTerms)
    requires ContainsAny(Lower(name), DateTerms)
    ensures InferredType(p, name, col) == Date
  {
  }

  /** A price term decides "currency" on the name alone. */
  lemma PriceNamesAreCurrency(p: Pandas, name: string, col: seq<Cell>)
    requires !EndsWith(Lower(name), "id") && !ContainsAny(Lower(name), NameTerms)
    requires !ContainsAny(Lower(name), DateTerms) && ContainsAny(Lower(name), PriceTerms)
    ensures InferredType(p, name, col) == Currency
  {
  }

  /** A column with no value left after `dropna` is a string column unless its name decides. */
  lemma EmptyColumnIsString(p: Pandas, name: string, col: seq<Cell>)
    requires !HasPresent(col)
    requires !IdName(Lower(name)) && !ContainsAny(Lower(name), NameTerms)
    requires !ContainsAny(Lower(name), DateTerms) && !ContainsAny(Lower(name), PriceTerms)
    ensures InferredType(p, name, col) == PlainString
  {
  }

  /**
   * The boolean check comes first: a sample is boolean exactly when at
   * least half of it are boolean tokens, so "1" and "0" count as boolean
   * and not as integers.
   */
  lemma BooleanContentSpec(p: Pandas, sample: seq<string>)
    ensures ContentType(p, sample) == Boolean <==> AtLeastHalf(CountMatching(sample, IsBoolToken), |sample|)
  {
  }

  /**
   * A sample is a date sample exactly when it is not a boolean sample and
   * some format of `_DATE_FORMATS` parses more than half of it.
   */
  lemma DateContentSpec(p: Pandas, sample: seq<string>)
    ensures ContentType(p, sample) == Date <==>
      !AtLeastHalf(CountMatching(sample, IsBoolToken), |sample|) &&
      exists k :: 0 <= k < |DateFormats| && FormatFits(p, sample, DateFormats[k])
  {
  }

  /**
   * Integer or floating exactly when the boolean and date checks fail and
   * more than half of the sample has the shape `-?\d+(\.\d+)?`; then
   * "integer" exactly when every parsed value is whole.
   */
  lemma NumericContentSpec(p: Pandas, sample: seq<string>)
    ensures ContentType(p, sample) in {Integer, Floating} <==>
      !AtLeastHalf(CountMatching(sample, IsBoolToken), |sample|) && DateMatches(p, sample) == 0 &&
      MoreThanHalf(CountMatching(sample, NumericShape), |sample|)
    ensures ContentType(p, sample) == Integer <==>
      ContentType(p, sample) in {Integer, Floating} &&
      forall i :: 0 <= i < |sample| && p.parseNumber(sample[i]).Some? ==> IsWhole(p.parseNumber(sample[i]).value)
    ensures ContentType(p, sample) == Floating <==>
      ContentType(p, sample) in {Integer, Floating} &&
      exists i :: 0 <= i < |sample| && p.parseNumber(sample[i]).Some? && !IsWhole(p.parseNumber(sample[i]).value)
  {
  }

  /**
   * Currency exactly when the boolean, date and numeric checks fail and
   * more than a fifth of the sample has the currency shape.
   */
  lemma CurrencyContentSpec(p: Pandas, sample: seq<string>)
    ensures ContentType(p, sample) == Currency <==>
      !AtLeastHalf(CountMatching(sample, IsBoolToken), |sample|) && DateMatches(p, sample) == 0 &&
      !MoreThanHalf(CountMatching(sample, NumericShape), |sample|) &&
      MoreThanFifth(CountMatching(sample, CurrencyShape), |sample|)
  {
  }

  /** "string" is the default: exactly when none of the four content checks passes. */
  lemma PlainStringContentSpec(p: Pandas, sample: seq<string>)
    ensures ContentType(p, sample) == PlainString <==>
      !AtLeastHalf(CountMatching(sample, IsBoolToken), |sample|) && DateMatches(p, sample) == 0 &&
      !MoreThanHalf(CountMatching(sample, NumericShape), |sample|) &&
      !MoreThanFifth(CountMatching(sample, CurrencyShape), |sample|)
  {
  }

  /**
   * The currency shape is checked only when the numeric shape did not
   * win. Every unsigned number has the currency shape, so when at most
   * half the sample is numeric, the currency check still counts those
   * numbers.
   */
  lemma {:induction false} NumbersCountAsCurrency(sample: seq<string>)
    requires forall i :: 0 <= i < |sample| ==> |sample[i]| == 0 || sample[i][0] != '-'
    ensures CountMatching(sample, NumericShape) <= CountMatching(sample, CurrencyShape)
  {
    if sample != [] {
      var init := sample[..|sample| - 1];
      assert forall i :: 0 <= i < |init| ==> init[i] == sample[i];
      NumbersCountAsCurrency(init);
      var last := sample[|sample| - 1];
      if NumericShape(last) {
        UnsignedNumericIsCurrency(last);
      }
    }
  }

  // ---------------------------------------------------------------------
  // _refine_inferred_types, one column

  /** Some non-missing value of the column is not whole. */
  predicate HasFraction(col: seq<Cell>)
  {
    exists i :: 0 <= i < |col| && col[i].Num? && !IsWhole(col[i].value)
  }

  /** One of the three date patterns in more than 30% of the sample (lines 178-182). */
  predicate HasDatePattern(sample: seq<string>)
  {
    var n := |sample|;
    MoreThanThreeTenths(CountMatching(sample, HasDayFirstDate), n) ||
    MoreThanThreeTenths(CountMatching(sample, HasYearFirstDate), n) ||
    MoreThanThreeTenths(CountMatching(sample, HasTextualDate), n)
  }

  /** One of the three product-name patterns in more than 30% of the sample (lines 196-204). */
  predicate HasProductPattern(sample: seq<string>)
  {
    var n := |sample|;
    MoreThanThreeTenths(CountMatching(sample, HasWordNumber), n) ||
    MoreThanThreeTenths(CountMatching(sample, HasTwoCapitalWords), n) ||
    MoreThanThreeTenths(CountMatching(sample, HasCode), n)
  }

  /** Some sampled value holds one of the three date patterns. */
  predicate SomeDateLike(sample: seq<string>)
  {
    exists i :: 0 <= i < |sample| &&
      (HasDayFirstDate(sample[i]) || HasYearFirstDate(sample[i]) || HasTextualDate(sample[i]))
  }

  /** Some sampled value holds one of the three product-name patterns. */
  predicate SomeProductLike(sample: seq<string>)
  {
    exists i :: 0 <= i < |sample| &&
      (HasWordNumber(sample[i]) || HasTwoCapitalWords(sample[i]) || HasCode(sample[i]))
  }

  /**
   * The date check needs a match: a sample none of whose values holds a
   * date pattern, the empty sample included, fails it.
   */
  lemma DatePatternNeedsAMatch(sample: seq<string>)
    ensures HasDatePattern(sample) ==> SomeDateLike(sample)
  {
    if !SomeDateLike(sample) {
      CountMatchingExtremes(sample, HasDayFirstDate);
      CountMatchingExtremes(sample, HasYearFirstDate);
      CountMatchingExtremes(sample, HasTextualDate);
    }
  }

  /** A sample of ISO dates, such as `_validate_dates` writes, passes the date check. */
  lemma IsoSampleHasDatePattern(sample: seq<string>)
    requires sample != [] && forall i :: 0 <= i < |sample| ==> IsoDatePrefix(sample[i])
    ensures HasDatePattern(sample)
  {
    forall i | 0 <= i < |sample|
      ensures HasYearFirstDate(sample[i])
    {
      IsoDateIsYearFirst(sample[i]);
    }
    CountMatchingExtremes(sample, HasYearFirstDate);
  }

  /**
   * The product check needs a match: a sample none of whose values holds
   * a product-name pattern, the empty sample included, fails it.
   */
  lemma ProductPatternNeedsAMatch(sample: seq<string>)
    ensures HasProductPattern(sample) ==> SomeProductLike(sample)
  {
    if !SomeProductLike(sample) {
      CountMatchingExtremes(sample, HasWordNumber);
      CountMatchingExtremes(sample, HasTwoCapitalWords);
      CountMatchingExtremes(sample, HasCode);
    }
  }

  /** A sample whose every value holds a model code ("X5") passes the product check. */
  lemma CodeSampleHasProductPattern(sample: seq<string>)
    requires sample != [] && forall i :: 0 <= i < |sample| ==> HasCode(sample[i])
    ensures HasProductPattern(sample)
  {
    CountMatchingExtremes(sample, HasCode);
  }

  /**
   * `refined_types[col]` after the loop body for a column other than
   * "product_name": five rules, each testing the type the first pass
   * detected and each overwriting what the rules before it wrote.
   */
  function RefinedType(p: Pandas, name: string, col: seq<Cell>, detected: SemanticType): SemanticType
  {
    var l := Lower(name);
    var sample := Sample(p, col, 20);
    var t1 := if detected == Integer && p.isFloatDtype(col) && HasFraction(col) then Floating else detected;
    var t2 := if (detected == Integer || detected == Floating) && ContainsAny(l, CurrencyTerms) then Currency else t1;
    var t3 := if detected == PlainString && ContainsAny(l, RefineDateTerms) && HasDatePattern(sample) then Date else t2;
    var t4 := if detected == PlainString && ContainsAny(l, LocationTerms) then Location else t3;
    if detected == PlainString && name != ProductNameColumn && ContainsAny(l, ProductTerms) && HasProductPattern(sample)
    then ProductName else t4
  }

  /** What the refinement pass stores for one entry of `types`. */
  function RefinedEntry(p: Pandas, name: string, col: seq<Cell>, detected: SemanticType): SemanticType
  {
    if name == ProductNameColumn then PlainString else RefinedType(p, name, col, detected)
  }

  /** The type `detect_types` reports for the column `col` labelled `name`. */
  function DetectedType(p: Pandas, name: string, col: seq<Cell>): SemanticType
  {
    RefinedEntry(p, name, col, InferredType(p, name, col))
  }

  // ---------------------------------------------------------------------
  // Properties of the refinement pass

  /** Only integer, floating and string verdicts are ever revised. */
  lemma RefineKeepsOthers(p: Pandas, name: string, col: seq<Cell>, detected: SemanticType)
    requires detected !in {Integer, Floating, PlainString}
    ensures RefinedEntry(p, name, col, detected) == (if name == ProductNameColumn then PlainString else detected)
  {
  }

  /** "product_name" always ends as a string, whatever the first pass and the values said. */
  lemma ProductNameStaysString(p: Pandas, col: seq<Cell>, detected: SemanticType)
    ensures RefinedEntry(p, ProductNameColumn, col, detected) == PlainString
  {
  }

  /**
   * An integer column turns floating only when it has a float dtype and a
   * value that is not whole, and otherwise stays integer, unless its name
   * holds a currency term, which makes it currency.
   */
  lemma IntegerRefinement(p: Pandas, name: string, col: seq<Cell>)
    requires name != ProductNameColumn
    ensures RefinedType(p, name, col, Integer) ==
      if ContainsAny(Lower(name), CurrencyTerms) then Currency
      else if p.isFloatDtype(col) && HasFraction(col) then Floating
      else Integer
  {
  }

  /** A floating column stays floating unless its name holds a currency term. */
  lemma FloatingRefinement(p: Pandas, name: string, col: seq<Cell>)
    ensures RefinedType(p, name, col, Floating) ==
      if ContainsAny(Lower(name), CurrencyTerms) then Currency else Floating
  {
  }

  /**
   * For a string column the rules do not combine: the product rule
   * overrides the location rule, which overrides the date rule, because
   * each one tests the original type.
   */
  lemma StringRefinementOrder(p: Pandas, name: string, col: seq<Cell>)
    requires name != ProductNameColumn
    ensures var l := Lower(name);
      var sample := Sample(p, col, 20);
      RefinedType(p, name, col, PlainString) ==
        if ContainsAny(l, ProductTerms) && HasProductPattern(sample) then ProductName
        else if ContainsAny(l, LocationTerms) then Location
        else if ContainsAny(l, RefineDateTerms) && HasDatePattern(sample) then Date
        else PlainString
  {
  }

  /**
   * In `detect_types` the currency rule of the refinement pass never
   * fires: a name with a currency term is already "currency" after the
   * first pass unless an earlier name rule claimed it, and none of those
   * gives integer or floating.
   */
  lemma CurrencyRefinementUnreachable(p: Pandas, name: string, col: seq<Cell>)
    requires InferredType(p, name, col) in {Integer, Floating}
    ensures !ContainsAny(Lower(name), CurrencyTerms)
  {
    var l := Lower(name);
    if ContainsAny(l, CurrencyTerms) {
      var k :| 0 <= k < |CurrencyTerms| && Contains(l, CurrencyTerms[k]);
      var m := if k == 2 then 3 else if k == 3 then 2 else k;
      assert PriceTerms[m] == CurrencyTerms[k];
      assert ContainsAny(l, PriceTerms);
    }
  }

  /** So `detect_types` says "currency" exactly when the first pass did. */
  lemma CurrencyFromFirstPassOnly(p: Pandas, name: string, col: seq<Cell>)
    ensures DetectedType(p, name, col) == Currency <==>
      name != ProductNameColumn && InferredType(p, name, col) == Currency
  {
    var t := InferredType(p, name, col);
    if t in {Integer, Floating} {
      CurrencyRefinementUnreachable(p, name, col);
    }
  }

  /** "product_name" holds the name term "name" and does not end in "id". */
  lemma ProductNameIsNamed()
    ensures ContainsAny(Lower(ProductNameColumn), NameTerms)
    ensures !EndsWith(Lower(ProductNameColumn), "id")
  {
    var s := ProductNameColumn;
    assert Lower(s) == s;
    assert s[8..] == NameTerms[0];
    assert NameTerms[0] <= s[8..];
    assert s[|s| - 2..] != "id" by {
      assert s[|s| - 1] == 'e';
    }
  }

  /** A name ending in "id" is reported as an identifier by `detect_types` too. */
  lemma DetectedIdentifier(p: Pandas, name: string, col: seq<Cell>)
    requires EndsWith(Lower(name), "id")
    ensures DetectedType(p, name, col) == Identifier
  {
    IdentifierComesFirst(p, name, col);
    ProductNameIsNamed();
  }

  /** A date term without a preceding identifier or name term is reported as a date by `detect_types`. */
  lemma DetectedDateName(p: Pandas, name: string, col: seq<Cell>)
    requires !EndsWith(Lower(name), "id") && !ContainsAny(Lower(name), NameTerms)
    requires ContainsAny(Lower(name), DateTerms)
    ensures DetectedType(p, name, col) == Date
  {
    DateNamesIgnoreValues(p, name, col);
    ProductNameIsNamed();
  }

  // ---------------------------------------------------------------------
  // _looks_like_date

  /** `_looks_like_date(series)`: each of the first ten values starts with an ISO date. */
  predicate LooksLikeDate(p: Pandas, col: seq<Cell>)
  {
    var sample := Sample(p, col, 10);
    forall m :: 0 <= m < |sample| ==> IsoDatePrefix(sample[m])
  }

  /** `.all()` of nothing is true: a column with no values looks like dates. */
  lemma EmptyLooksLikeDate(p: Pandas, col: seq<Cell>)
    requires !HasPresent(col)
    ensures LooksLikeDate(p, col)
  {
  }

  /** A column `_validate_dates` produced looks like dates. */
  lemma ValidatedDatesLookLikeDates(p: Pandas, s: seq<Cell>)
    ensures LooksLikeDate(p, DateColumn(p, s))
  {
  }

  // ---------------------------------------------------------------------
  // The imperative parts

  /** The `date_matches` loop of `_infer_column_type` (lines 117-121). */
  method CountDateMatches(p: Pandas, sample: seq<string>) returns (matches: nat)
    ensures matches == DateMatches(p, sample)
    ensures matches <= |DateFormats|
    ensures matches > 0 <==> exists k :: 0 <= k < |DateFormats| && FormatFits(p, sample, DateFormats[k])
  {
    matches := 0;
    for k := 0 to |DateFormats|
      invariant matches == FormatsMatching(p, sample, DateFormats[..k])
    {
      var fmt := DateFormats[k];
      if FormatFits(p, sample, fmt) {
        matches := matches + 1;
      }
      assert DateFormats[..k + 1][..k] == DateFormats[..k];
    }
    assert DateFormats[..|DateFormats|] == DateFormats;
  }

  /** `_infer_column_type(df, name)`: the first rule that applies decides. */
  method InferColumnType(p: Pandas, name: string, series: seq<Cell>) returns (t: SemanticType)
    ensures t == InferredType(p, name, series)
  {
    var l := Lower(name);
    if IdName(l) {
      return Identifier;
    }
    if ContainsAny(l, NameTerms) {
      return PlainString;
    }
    if ContainsAny(l, DateTerms) {
      return Date;
    }
    if ContainsAny(l, PriceTerms) {
      return Currency;
    }
    var sample := Sample(p, series, 20);
    var n := |sample|;
    if AtLeastHalf(CountMatching(sample, IsBoolToken), n) {
      return Boolean;
    }
    var matches := CountDateMatches(p, sample);
    if matches > 0 {
      return Date;
    }
    if MoreThanHalf(CountMatching(sample, NumericShape), n) {
      if AllWhole(p, sample) {
        return Integer;
      }
      return Floating;
    }
    if MoreThanFifth(CountMatching(sample, CurrencyShape), n) {
      return Currency;
    }
    return PlainString;
  }

  /** The loop body of `_refine_inferred_types` for one column other than "product_name". */
  method RefineColumn(p: Pandas, name: string, series: seq<Cell>, detected: SemanticType) returns (t: SemanticType)
    requires name != ProductNameColumn
    ensures t == RefinedType(p, name, series, detected)
  {
    t := detected;
    var l := Lower(name);
    if detected == Integer && p.isFloatDtype(series) {
      if HasFraction(series) {
        t := Floating;
      }
    }
    if detected == Integer || detected == Floating {
      if ContainsAny(l, CurrencyTerms) {
        t := Currency;
      }
    }
    if detected == PlainString && ContainsAny(l, RefineDateTerms) {
      var sample := Sample(p, series, 20);
      if HasDatePattern(sample) {
        t := Date;
      }
    }
    if detected == PlainString && ContainsAny(l, LocationTerms) {
      t := Location;
    }
    if detected == PlainString && name != ProductNameColumn && ContainsAny(l, ProductTerms) {
      var sample := Sample(p, series, 20);
      if HasProductPattern(sample) {
        t := ProductName;
      }
    }
  }

  /**
   * `_refine_inferred_types(df, types)`: every entry is revised from the
   * type it had on entry; "product_name" is set to a string. Every key
   * must name a column (`df[col]` raises otherwise).
   */
  method RefineTypes(p: Pandas, df: Table, types: map<string, SemanticType>) returns (refined: map<string, SemanticType>)
    requires WellFormed(df)
    requires forall c :: c in types ==> c in df.names
    ensures refined.Keys == types.Keys
    ensures forall j :: 0 <= j < |df.names| && df.names[j] in types ==>
      refined[df.names[j]] == RefinedEntry(p, df.names[j], Column(df, j), types[df.names[j]])
  {
    var names := df.names;
    refined := types;
    if ProductNameColumn in types {
      refined := refined[ProductNameColumn := PlainString];
    }
    for j := 0 to |names|
      invariant refined.Keys == types.Keys
      invariant ProductNameColumn in types ==> refined[ProductNameColumn] == PlainString
      invariant forall k :: 0 <= k < j && names[k] in types ==>
        refined[names[k]] == RefinedEntry(p, names[k], Column(df, k), types[names[k]])
      invariant forall k :: j <= k < |names| && names[k] in types && names[k] != ProductNameColumn ==>
        refined[names[k]] == types[names[k]]
    {
      var c := names[j];
      if c in types && c != ProductNameColumn {
        var t := RefineColumn(p, c, Column(df, j), types[c]);
        refined := refined[c := t];
      }
      forall k | 0 <= k < |names| && k != j
        ensures names[k] != c
      {
        assert k < j || j < k;
      }
    }
  }

  /** The first loop of `convert.detect_types`: `_infer_column_type` for every column. */
  method InferAllTypes(p: Pandas, df: Table) returns (first: map<string, SemanticType>)
    requires WellFormed(df)
    ensures forall c :: c in first <==> c in df.names
    ensures forall j :: 0 <= j < |df.names| ==> first[df.names[j]] == InferredType(p, df.names[j], Column(df, j))
  {
    var names := df.names;
    first := map[];
    for j := 0 to |names|
      invariant forall c :: c in first <==> c in names[..j]
      invariant forall k :: 0 <= k < j ==> first[names[k]] == InferredType(p, names[k], Column(df, k))
    {
      var t := InferColumnType(p, names[j], Column(df, j));
      first := first[names[j] := t];
    }
    assert names[..|names|] == names;
  }

  /** `convert.detect_types(df)`: one type per column, first pass then refinement. */
  method DetectTypes(p: Pandas, df: Table) returns (types: map<string, SemanticType>)
    requires WellFormed(df)
    ensures forall c :: c in types <==> c in df.names
    ensures forall j :: 0 <= j < |df.names| ==> types[df.names[j]] == DetectedType(p, df.names[j], Column(df, j))
  {
    var first := InferAllTypes(p, df);
    types := RefineTypes(p, df, first);
  }
}
