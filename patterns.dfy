/**
 * Hand-written recognisers for the regular expressions the type detector
 * applies to sampled values. The recognisers measure maximal runs of a
 * character class instead of backtracking, and bound a run where the
 * regex bounds its count (`\d{1,2}`, `[A-Za-z]{3,9}`, at least four
 * digits for a final `\d{4}`); a search (`str.contains`) tries every
 * start. For the patterns of the refinement pass, lemmas further down
 * show that this gives the answers of a matcher that may stop each
 * repeat at any length, and check the examples named beside them.
 * `\d`, `[A-Z]`, `[a-z]` and `\w` are read on ASCII; `\s` is Python's
 * whitespace.
 */
module Patterns {
  import opened Text

  /** The length of the run of characters satisfying `f` that starts at `i`. */
  function RunLength(s: string, i: nat, f: char -> bool): (n: nat)
    requires i <= |s|
    ensures i + n <= |s|
    decreases |s| - i
  {
    if i < |s| && f(s[i]) then 1 + RunLength(s, i + 1, f) else 0
  }

  predicate AllDigits(s: string)
  {
    forall k :: 0 <= k < |s| ==> IsDigit(s[k])
  }

  /**
   * Python's `$`: the end of the text, or just before a newline that ends
   * it. `Anchored(s, P)` holds when the pattern body `P` matches all of
   * `s` or all of `s` but such a final newline.
   */
  predicate Anchored(s: string, body: string -> bool)
  {
    body(s) || (|s| > 0 && s[|s| - 1] == '\n' && body(s[..|s| - 1]))
  }

  // ---------------------------------------------------------------------
  // ^-?\d+(\.\d+)?$

  /** `\d+(\.\d+)?` covering all of `s`. */
  predicate UnsignedDecimal(s: string)
  {
    var d := RunLength(s, 0, IsDigit);
    d >= 1 &&
    (d == |s| ||
     (s[d] == '.' && RunLength(s, d + 1, IsDigit) >= 1 && d + 1 + RunLength(s, d + 1, IsDigit) == |s|))
  }

  /** `-?\d+(\.\d+)?` covering all of `s`. */
  predicate SignedDecimal(s: string)
  {
    if |s| > 0 && s[0] == '-' then UnsignedDecimal(s[1..]) else UnsignedDecimal(s)
  }

  /** `str.match(r"^-?\d+(\.\d+)?$")`. */
  predicate NumericShape(s: string)
  {
    Anchored(s, SignedDecimal)
  }

  /** The shape read the other way: digits, optionally a point and more digits. */
  function DecimalText(whole: string, frac: string): string
  {
    if frac == [] then whole else whole + "." + frac
  }

  /** Every text built from a non-empty run of digits and an optional fraction has the decimal shape. */
  lemma DecimalTextIsDecimal(whole: string, frac: string)
    requires whole != [] && AllDigits(whole) && AllDigits(frac)
    ensures UnsignedDecimal(DecimalText(whole, frac))
  {
    var t := DecimalText(whole, frac);
    RunForced(t, 0, |whole|, IsDigit);
    if frac != [] {
      RunForced(t, |whole| + 1, |t|, IsDigit);
    }
  }

  /** The digits before the point of a decimal text. */
  function WholePart(s: string): string
  {
    s[..RunLength(s, 0, IsDigit)]
  }

  /** The digits after the point of a decimal text, empty when there is no point. */
  function FracPart(s: string): string
  {
    var d := RunLength(s, 0, IsDigit);
    if d < |s| then s[d + 1..] else ""
  }

  /** Conversely, every text of decimal shape splits into such a whole part and fraction. */
  lemma DecimalIsDecimalText(s: string)
    requires UnsignedDecimal(s)
    ensures WholePart(s) != [] && AllDigits(WholePart(s)) && AllDigits(FracPart(s))
    ensures s == DecimalText(WholePart(s), FracPart(s))
  {
    var d := RunLength(s, 0, IsDigit);
    RunSpan(s, 0, IsDigit);
    if d < |s| {
      RunSpan(s, d + 1, IsDigit);
    }
  }

  // ---------------------------------------------------------------------
  // ^[\$\€\£]?\d+(\.\d+)?[\$\€\£]?$

  predicate IsCurrencySymbol(c: char)
  {
    c == '$' || c == '€' || c == '£'
  }

  /** `\d+(\.\d+)?[\$\€\£]?` covering all of `s`. */
  predicate AmountWithSuffix(s: string)
  {
    UnsignedDecimal(s) || (|s| > 0 && IsCurrencySymbol(s[|s| - 1]) && UnsignedDecimal(s[..|s| - 1]))
  }

  /** `[\$\€\£]?\d+(\.\d+)?[\$\€\£]?` covering all of `s`. */
  predicate CurrencyBody(s: string)
  {
    if |s| > 0 && IsCurrencySymbol(s[0]) then AmountWithSuffix(s[1..]) else AmountWithSuffix(s)
  }

  /** `str.match(r"^[\$\€\£]?\d+(\.\d+)?[\$\€\£]?$")`. */
  predicate CurrencyShape(s: string)
  {
    Anchored(s, CurrencyBody)
  }

  /** Every unsigned number of the numeric shape also has the currency shape. */
  lemma UnsignedNumericIsCurrency(s: string)
    requires NumericShape(s)
    requires |s| == 0 || s[0] != '-'
    ensures CurrencyShape(s)
  {
  }

  /** A sign excludes the currency shape: "-5" has the numeric shape but not the currency one. */
  lemma SignedIsNotCurrency(s: string)
    requires |s| > 0 && s[0] == '-'
    ensures !CurrencyShape(s)
  {
  }

  // ---------------------------------------------------------------------
  // \d{4}-\d{2}-\d{2} at the start (str.match)

  /** `str.match(r"\d{4}-\d{2}-\d{2}")`: an ISO date at the start of the text, anything after it. */
  predicate IsoDatePrefix(s: string)
  {
    |s| >= 10 &&
    IsDigit(s[0]) && IsDigit(s[1]) && IsDigit(s[2]) && IsDigit(s[3]) && s[4] == '-' &&
    IsDigit(s[5]) && IsDigit(s[6]) && s[7] == '-' && IsDigit(s[8]) && IsDigit(s[9])
  }

  // ---------------------------------------------------------------------
  // The date patterns of the refinement pass (str.contains: anywhere in the text)

  predicate IsDateSeparator(c: char) { c == '/' || c == '-' }

  /** `\d{2}[/-]\d{2}[/-]\d{4}` starting at i. */
  predicate DayFirstAt(s: string, i: nat)
  {
    i + 10 <= |s| &&
    IsDigit(s[i]) && IsDigit(s[i + 1]) && IsDateSeparator(s[i + 2]) &&
    IsDigit(s[i + 3]) && IsDigit(s[i + 4]) && IsDateSeparator(s[i + 5]) &&
    IsDigit(s[i + 6]) && IsDigit(s[i + 7]) && IsDigit(s[i + 8]) && IsDigit(s[i + 9])
  }

  /** `\d{4}[/-]\d{2}[/-]\d{2}` starting at i. */
  predicate YearFirstAt(s: string, i: nat)
  {
    i + 10 <= |s| &&
    IsDigit(s[i]) && IsDigit(s[i + 1]) && IsDigit(s[i + 2]) && IsDigit(s[i + 3]) &&
    IsDateSeparator(s[i + 4]) && IsDigit(s[i + 5]) && IsDigit(s[i + 6]) &&
    IsDateSeparator(s[i + 7]) && IsDigit(s[i + 8]) && IsDigit(s[i + 9])
  }

  /** `\d{4}` at q: at least four digits (nothing follows them in the pattern). */
  predicate YearAt(s: string, q: nat)
    requires q <= |s|
  {
    RunLength(s, q, IsDigit) >= 4
  }

  /** `\s+\d{4}` at q. */
  predicate SpacesYearAt(s: string, q: nat)
    requires q <= |s|
  {
    var sp := RunLength(s, q, IsSpace);
    sp >= 1 && YearAt(s, q + sp)
  }

  /** The position after the optional comma of `,?`. */
  function AfterComma(s: string, q: nat): (r: nat)
    requires q <= |s|
    ensures r <= |s|
  {
    if q < |s| && s[q] == ',' then q + 1 else q
  }

  /** `\d{1,2},?\s+\d{4}` at q. */
  predicate DayYearAt(s: string, q: nat)
    requires q <= |s|
  {
    var dg := RunLength(s, q, IsDigit);
    1 <= dg <= 2 && SpacesYearAt(s, AfterComma(s, q + dg))
  }

  /** `\s+\d{1,2},?\s+\d{4}` at q. */
  predicate DayCommaYearAt(s: string, q: nat)
    requires q <= |s|
  {
    var sp := RunLength(s, q, IsSpace);
    sp >= 1 && DayYearAt(s, q + sp)
  }

  /** `[A-Za-z]{3,9}\s+\d{1,2},?\s+\d{4}` starting at i. */
  predicate TextualDateAt(s: string, i: nat)
    requires i <= |s|
  {
    var l := RunLength(s, i, IsLetter);
    3 <= l <= 9 && DayCommaYearAt(s, i + l)
  }

  predicate HasDayFirstDate(s: string)
  {
    exists i | 0 <= i <= |s| :: DayFirstAt(s, i)
  }

  predicate HasYearFirstDate(s: string)
  {
    exists i | 0 <= i <= |s| :: YearFirstAt(s, i)
  }

  predicate HasTextualDate(s: string)
  {
    exists i | 0 <= i <= |s| :: TextualDateAt(s, i)
  }

  // ---------------------------------------------------------------------
  // The product-name patterns of the refinement pass (str.contains)

  /** `\b` just before a word character at i. */
  predicate WordStartsAt(s: string, i: nat)
    requires i <= |s|
  {
    i == 0 || !IsWordChar(s[i - 1])
  }

  /** `\b` just after a word character that ends at q. */
  predicate WordEndsAt(s: string, q: nat)
    requires q <= |s|
  {
    q == |s| || !IsWordChar(s[q])
  }

  /** `[A-Z][a-z]+` at i: the length it covers, or 0 when it does not match there. */
  function CapitalWord(s: string, i: nat): (n: nat)
    requires i <= |s|
    ensures i + n <= |s|
  {
    if i < |s| && IsUpper(s[i]) && RunLength(s, i + 1, IsLower) >= 1 then 1 + RunLength(s, i + 1, IsLower) else 0
  }

  /** `\d+\b` at q: the digits end a word. */
  predicate DigitsEndAt(s: string, q: nat)
    requires q <= |s|
  {
    var dg := RunLength(s, q, IsDigit);
    dg >= 1 && WordEndsAt(s, q + dg)
  }

  /** `\s+\d+\b` at q. */
  predicate SpacesDigitsEndAt(s: string, q: nat)
    requires q <= |s|
  {
    var sp := RunLength(s, q, IsSpace);
    sp >= 1 && DigitsEndAt(s, q + sp)
  }

  /** `\b[A-Z][a-z]+\s+\d+\b` starting at i ("Series 7"). */
  predicate WordNumberAt(s: string, i: nat)
    requires i <= |s|
  {
    var w := CapitalWord(s, i);
    WordStartsAt(s, i) && w >= 2 && SpacesDigitsEndAt(s, i + w)
  }

  /** `[A-Z][a-z]+\b` at q. */
  predicate CapitalWordEndAt(s: string, q: nat)
    requires q <= |s|
  {
    var w := CapitalWord(s, q);
    w >= 2 && WordEndsAt(s, q + w)
  }

  /** `\s+[A-Z][a-z]+\b` at q. */
  predicate SpacesCapitalWordEndAt(s: string, q: nat)
    requires q <= |s|
  {
    var sp := RunLength(s, q, IsSpace);
    sp >= 1 && CapitalWordEndAt(s, q + sp)
  }

  /** `\b[A-Z][a-z]+\s+[A-Z][a-z]+\b` starting at i ("Nike Air"). */
  predicate TwoCapitalWordsAt(s: string, i: nat)
    requires i <= |s|
  {
    var w := CapitalWord(s, i);
    WordStartsAt(s, i) && w >= 2 && SpacesCapitalWordEndAt(s, i + w)
  }

  /** `\b[A-Z]+\d+\b` starting at i ("X5"). */
  predicate CodeAt(s: string, i: nat)
    requires i <= |s|
  {
    var up := RunLength(s, i, IsUpper);
    WordStartsAt(s, i) && up >= 1 && DigitsEndAt(s, i + up)
  }

  predicate HasWordNumber(s: string)
  {
    exists i | 0 <= i <= |s| :: WordNumberAt(s, i)
  }

  predicate HasTwoCapitalWords(s: string)
  {
    exists i | 0 <= i <= |s| :: TwoCapitalWordsAt(s, i)
  }

  predicate HasCode(s: string)
  {
    exists i | 0 <= i <= |s| :: CodeAt(s, i)
  }

  // ---------------------------------------------------------------------
  // The refinement-pass patterns read as a backtracking matcher reads
  // them: every repeat may stop at any length its count allows, and a
  // pattern matches at a start when some choice of lengths fits. Each
  // repeat below ends at a bound variable e.

  /** Every character of `s[a..b]` is in the class `f`. */
  predicate Span(s: string, a: nat, b: nat, f: char -> bool)
  {
    a <= b <= |s| && forall k :: a <= k < b ==> f(s[k])
  }

  /** The run from a is at least as long as any stretch of the class from a. */
  lemma {:induction false} RunCovers(s: string, a: nat, b: nat, f: char -> bool)
    requires Span(s, a, b, f)
    ensures RunLength(s, a, f) >= b - a
    decreases b - a
  {
    if a < b {
      RunCovers(s, a + 1, b, f);
    }
  }

  /** The run from a is a stretch of its class. */
  lemma {:induction false} RunSpan(s: string, a: nat, f: char -> bool)
    requires a <= |s|
    ensures Span(s, a, a + RunLength(s, a, f), f)
    decreases |s| - a
  {
    if a < |s| && f(s[a]) {
      RunSpan(s, a + 1, f);
    }
  }

  /** A repeat followed by a character outside its class takes exactly the run. */
  lemma {:induction false} RunForced(s: string, a: nat, b: nat, f: char -> bool)
    requires Span(s, a, b, f) && (b == |s| || !f(s[b]))
    ensures RunLength(s, a, f) == b - a && a + RunLength(s, a, f) == b
    decreases b - a
  {
    if a < b {
      RunForced(s, a + 1, b, f);
    }
  }

  // [A-Za-z]{3,9}\s+\d{1,2},?\s+\d{4}

  /** `\d{4}` at q. */
  predicate YearDigitsMatch(s: string, q: nat)
  {
    Span(s, q, q + 4, IsDigit)
  }

  /** `\s+\d{4}` at q. */
  predicate SpacesYearMatch(s: string, q: nat)
  {
    exists e | q < e <= |s| :: Span(s, q, e, IsSpace) && YearDigitsMatch(s, e)
  }

  /** `,?\s+\d{4}` at q. */
  predicate CommaSpacesYearMatch(s: string, q: nat)
  {
    SpacesYearMatch(s, q) || (q < |s| && s[q] == ',' && SpacesYearMatch(s, q + 1))
  }

  /** `\d{1,2},?\s+\d{4}` at q. */
  predicate DayYearMatch(s: string, q: nat)
  {
    exists e | q < e <= q + 2 && e <= |s| :: Span(s, q, e, IsDigit) && CommaSpacesYearMatch(s, e)
  }

  /** `\s+\d{1,2},?\s+\d{4}` at q. */
  predicate SpacesDayYearMatch(s: string, q: nat)
  {
    exists e | q < e <= |s| :: Span(s, q, e, IsSpace) && DayYearMatch(s, e)
  }

  /** `[A-Za-z]{3,9}\s+\d{1,2},?\s+\d{4}` at i. */
  predicate TextualDateMatch(s: string, i: nat)
  {
    exists e | i + 3 <= e <= i + 9 && e <= |s| :: Span(s, i, e, IsLetter) && SpacesDayYearMatch(s, e)
  }

  lemma YearDigitsRun(s: string, q: nat)
    requires q <= |s|
    ensures YearDigitsMatch(s, q) <==> YearAt(s, q)
  {
    if YearDigitsMatch(s, q) {
      RunCovers(s, q, q + 4, IsDigit);
    }
    if YearAt(s, q) {
      RunSpan(s, q, IsDigit);
    }
  }

  lemma SpacesYearSound(s: string, q: nat)
    requires q <= |s| && SpacesYearMatch(s, q)
    ensures SpacesYearAt(s, q)
  {
    var e :| q < e <= |s| && Span(s, q, e, IsSpace) && YearDigitsMatch(s, e);
    assert IsDigit(s[e]);
    RunForced(s, q, e, IsSpace);
    YearDigitsRun(s, e);
  }

  lemma SpacesYearComplete(s: string, q: nat)
    requires q <= |s| && SpacesYearAt(s, q)
    ensures SpacesYearMatch(s, q)
  {
    var sp := RunLength(s, q, IsSpace);
    YearDigitsRun(s, q + sp);
    RunSpan(s, q, IsSpace);
  }

  /** A comma is not a space, so `\s+\d{4}` cannot match where a comma stands. */
  lemma CommaIsNotSpacesYear(s: string, q: nat)
    requires q < |s| && s[q] == ','
    ensures !SpacesYearMatch(s, q)
  {
    assert !IsSpace(s[q]);
  }

  lemma CommaSpacesYearSound(s: string, q: nat)
    requires q <= |s| && CommaSpacesYearMatch(s, q)
    ensures SpacesYearAt(s, AfterComma(s, q))
  {
    if q < |s| && s[q] == ',' {
      CommaIsNotSpacesYear(s, q);
      SpacesYearSound(s, q + 1);
    } else {
      SpacesYearSound(s, q);
    }
  }

  lemma CommaSpacesYearComplete(s: string, q: nat)
    requires q <= |s| && SpacesYearAt(s, AfterComma(s, q))
    ensures CommaSpacesYearMatch(s, q)
  {
    SpacesYearComplete(s, AfterComma(s, q));
  }

  /** A match of `,?\s+\d{4}` starts with a comma or a space, never a digit. */
  lemma CommaSpacesYearStart(s: string, q: nat)
    requires CommaSpacesYearMatch(s, q)
    ensures q < |s| && !IsDigit(s[q])
  {
    if SpacesYearMatch(s, q) {
      var e :| q < e <= |s| && Span(s, q, e, IsSpace) && YearDigitsMatch(s, e);
      assert IsSpace(s[q]);
    }
  }

  lemma DayYearSound(s: string, q: nat)
    requires q <= |s| && DayYearMatch(s, q)
    ensures DayYearAt(s, q)
  {
    var e :| q < e <= q + 2 && e <= |s| && Span(s, q, e, IsDigit) && CommaSpacesYearMatch(s, e);
    CommaSpacesYearStart(s, e);
    RunForced(s, q, e, IsDigit);
    CommaSpacesYearSound(s, e);
  }

  lemma DayYearComplete(s: string, q: nat)
    requires q <= |s| && DayYearAt(s, q)
    ensures DayYearMatch(s, q)
  {
    var dg := RunLength(s, q, IsDigit);
    CommaSpacesYearComplete(s, q + dg);
    RunSpan(s, q, IsDigit);
  }

  /** A match of `\d{1,2},?\s+\d{4}` starts with a digit. */
  lemma DayYearStart(s: string, q: nat)
    requires DayYearMatch(s, q)
    ensures q < |s| && IsDigit(s[q])
  {
    var e :| q < e <= q + 2 && e <= |s| && Span(s, q, e, IsDigit) && CommaSpacesYearMatch(s, e);
  }

  lemma DayCommaYearSound(s: string, q: nat)
    requires q <= |s| && SpacesDayYearMatch(s, q)
    ensures DayCommaYearAt(s, q)
  {
    var e :| q < e <= |s| && Span(s, q, e, IsSpace) && DayYearMatch(s, e);
    DayYearStart(s, e);
    RunForced(s, q, e, IsSpace);
    DayYearSound(s, e);
  }

  lemma DayCommaYearComplete(s: string, q: nat)
    requires q <= |s| && DayCommaYearAt(s, q)
    ensures SpacesDayYearMatch(s, q)
  {
    var sp := RunLength(s, q, IsSpace);
    DayYearComplete(s, q + sp);
    RunSpan(s, q, IsSpace);
  }

  /** A match of `\s+\d{1,2},?\s+\d{4}` starts with a space. */
  lemma SpacesDayYearStart(s: string, q: nat)
    requires SpacesDayYearMatch(s, q)
    ensures q < |s| && IsSpace(s[q])
  {
    var e :| q < e <= |s| && Span(s, q, e, IsSpace) && DayYearMatch(s, e);
  }

  /**
   * `[A-Za-z]{3,9}\s+\d{1,2},?\s+\d{4}` matches at i exactly when the
   * letter run from i is 3 to 9 long and the day and year follow it: the
   * letters must stop where the spaces begin, so a longer run ("Septembers
   * 5 2023" from its first letter) cannot be shortened into a match.
   */
  lemma TextualDateAtIsMatch(s: string, i: nat)
    requires i <= |s|
    ensures TextualDateAt(s, i) <==> TextualDateMatch(s, i)
  {
    if TextualDateMatch(s, i) {
      TextualDateSound(s, i);
    }
    if TextualDateAt(s, i) {
      TextualDateComplete(s, i);
    }
  }

  lemma TextualDateSound(s: string, i: nat)
    requires i <= |s| && TextualDateMatch(s, i)
    ensures TextualDateAt(s, i)
  {
    var e :| i + 3 <= e <= i + 9 && e <= |s| && Span(s, i, e, IsLetter) && SpacesDayYearMatch(s, e);
    SpacesDayYearStart(s, e);
    RunForced(s, i, e, IsLetter);
    DayCommaYearSound(s, e);
  }

  lemma TextualDateComplete(s: string, i: nat)
    requires i <= |s| && TextualDateAt(s, i)
    ensures TextualDateMatch(s, i)
  {
    var l := RunLength(s, i, IsLetter);
    DayCommaYearComplete(s, i + l);
    RunSpan(s, i, IsLetter);
  }

  // \b[A-Z][a-z]+\s+\d+\b, \b[A-Z][a-z]+\s+[A-Z][a-z]+\b, \b[A-Z]+\d+\b

  /** `\d+\b` at q. */
  predicate DigitsEndMatch(s: string, q: nat)
  {
    exists e | q < e <= |s| :: Span(s, q, e, IsDigit) && WordEndsAt(s, e)
  }

  /** `\s+\d+\b` at q. */
  predicate SpacesDigitsEndMatch(s: string, q: nat)
  {
    exists e | q < e <= |s| :: Span(s, q, e, IsSpace) && DigitsEndMatch(s, e)
  }

  /** `\b[A-Z][a-z]+\s+\d+\b` at i. */
  predicate WordNumberMatch(s: string, i: nat)
    requires i <= |s|
  {
    WordStartsAt(s, i) && i < |s| && IsUpper(s[i]) &&
    exists e | i + 1 < e <= |s| :: Span(s, i + 1, e, IsLower) && SpacesDigitsEndMatch(s, e)
  }

  /** `[A-Z][a-z]+\b` at q. */
  predicate CapitalWordEndMatch(s: string, q: nat)
  {
    q < |s| && IsUpper(s[q]) &&
    exists e | q + 1 < e <= |s| :: Span(s, q + 1, e, IsLower) && WordEndsAt(s, e)
  }

  /** `\s+[A-Z][a-z]+\b` at q. */
  predicate SpacesCapitalWordEndMatch(s: string, q: nat)
  {
    exists e | q < e <= |s| :: Span(s, q, e, IsSpace) && CapitalWordEndMatch(s, e)
  }

  /** `\b[A-Z][a-z]+\s+[A-Z][a-z]+\b` at i. */
  predicate TwoCapitalWordsMatch(s: string, i: nat)
    requires i <= |s|
  {
    WordStartsAt(s, i) && i < |s| && IsUpper(s[i]) &&
    exists e | i + 1 < e <= |s| :: Span(s, i + 1, e, IsLower) && SpacesCapitalWordEndMatch(s, e)
  }

  /** `\b[A-Z]+\d+\b` at i. */
  predicate CodeMatch(s: string, i: nat)
    requires i <= |s|
  {
    WordStartsAt(s, i) && exists e | i < e <= |s| :: Span(s, i, e, IsUpper) && DigitsEndMatch(s, e)
  }

  lemma DigitsEndSound(s: string, q: nat)
    requires q <= |s| && DigitsEndMatch(s, q)
    ensures DigitsEndAt(s, q)
  {
    var e :| q < e <= |s| && Span(s, q, e, IsDigit) && WordEndsAt(s, e);
    RunForced(s, q, e, IsDigit);
  }

  lemma DigitsEndComplete(s: string, q: nat)
    requires q <= |s| && DigitsEndAt(s, q)
    ensures DigitsEndMatch(s, q)
  {
    RunSpan(s, q, IsDigit);
  }

  /** A match of `\d+\b` starts with a digit. */
  lemma DigitsEndStart(s: string, q: nat)
    requires DigitsEndMatch(s, q)
    ensures q < |s| && IsDigit(s[q])
  {
    var e :| q < e <= |s| && Span(s, q, e, IsDigit) && WordEndsAt(s, e);
  }

  lemma SpacesDigitsEndSound(s: string, q: nat)
    requires q <= |s| && SpacesDigitsEndMatch(s, q)
    ensures SpacesDigitsEndAt(s, q)
  {
    var e :| q < e <= |s| && Span(s, q, e, IsSpace) && DigitsEndMatch(s, e);
    DigitsEndStart(s, e);
    RunForced(s, q, e, IsSpace);
    DigitsEndSound(s, e);
  }

  lemma SpacesDigitsEndComplete(s: string, q: nat)
    requires q <= |s| && SpacesDigitsEndAt(s, q)
    ensures SpacesDigitsEndMatch(s, q)
  {
    var sp := RunLength(s, q, IsSpace);
    DigitsEndComplete(s, q + sp);
    RunSpan(s, q, IsSpace);
  }

  /** A match of `\s+...` starts with a space. */
  lemma SpacesDigitsEndStart(s: string, q: nat)
    requires SpacesDigitsEndMatch(s, q)
    ensures q < |s| && IsSpace(s[q])
  {
    var e :| q < e <= |s| && Span(s, q, e, IsSpace) && DigitsEndMatch(s, e);
  }

  /** A capital and a stretch of lower-case letters ended by anything else is the whole capitalised word. */
  lemma CapitalWordForced(s: string, i: nat, e: nat)
    requires i < |s| && IsUpper(s[i]) && i + 1 < e && Span(s, i + 1, e, IsLower) && (e == |s| || !IsLower(s[e]))
    ensures i + CapitalWord(s, i) == e
  {
    RunForced(s, i + 1, e, IsLower);
  }

  lemma CapitalWordEndSound(s: string, q: nat)
    requires q <= |s| && CapitalWordEndMatch(s, q)
    ensures CapitalWordEndAt(s, q)
  {
    var e :| q + 1 < e <= |s| && Span(s, q + 1, e, IsLower) && WordEndsAt(s, e);
    CapitalWordForced(s, q, e);
  }

  lemma CapitalWordEndComplete(s: string, q: nat)
    requires q <= |s| && CapitalWordEndAt(s, q)
    ensures CapitalWordEndMatch(s, q)
  {
    RunSpan(s, q + 1, IsLower);
  }

  lemma SpacesCapitalWordEndSound(s: string, q: nat)
    requires q <= |s| && SpacesCapitalWordEndMatch(s, q)
    ensures SpacesCapitalWordEndAt(s, q)
  {
    var e :| q < e <= |s| && Span(s, q, e, IsSpace) && CapitalWordEndMatch(s, e);
    RunForced(s, q, e, IsSpace);
    CapitalWordEndSound(s, e);
  }

  lemma SpacesCapitalWordEndComplete(s: string, q: nat)
    requires q <= |s| && SpacesCapitalWordEndAt(s, q)
    ensures SpacesCapitalWordEndMatch(s, q)
  {
    var sp := RunLength(s, q, IsSpace);
    CapitalWordEndComplete(s, q + sp);
    RunSpan(s, q, IsSpace);
  }

  /** A match of `\s+[A-Z][a-z]+\b` starts with a space. */
  lemma SpacesCapitalWordEndStart(s: string, q: nat)
    requires SpacesCapitalWordEndMatch(s, q)
    ensures q < |s| && IsSpace(s[q])
  {
    var e :| q < e <= |s| && Span(s, q, e, IsSpace) && CapitalWordEndMatch(s, e);
  }

  /**
   * `\b[A-Z][a-z]+\s+\d+\b` matches at i exactly when the recogniser
   * accepts there: a word boundary before the capital, and the lower-case,
   * space and digit runs each taken whole, the digits ending a word.
   */
  lemma WordNumberAtIsMatch(s: string, i: nat)
    requires i <= |s|
    ensures WordNumberAt(s, i) <==> WordNumberMatch(s, i)
  {
    if WordNumberMatch(s, i) {
      WordNumberSound(s, i);
    }
    if WordNumberAt(s, i) {
      WordNumberComplete(s, i);
    }
  }

  lemma WordNumberSound(s: string, i: nat)
    requires i <= |s| && WordNumberMatch(s, i)
    ensures WordNumberAt(s, i)
  {
    var e :| i + 1 < e <= |s| && Span(s, i + 1, e, IsLower) && SpacesDigitsEndMatch(s, e);
    SpacesDigitsEndStart(s, e);
    CapitalWordForced(s, i, e);
    SpacesDigitsEndSound(s, e);
  }

  lemma WordNumberComplete(s: string, i: nat)
    requires i <= |s| && WordNumberAt(s, i)
    ensures WordNumberMatch(s, i)
  {
    SpacesDigitsEndComplete(s, i + CapitalWord(s, i));
    RunSpan(s, i + 1, IsLower);
  }

  /** `\b[A-Z][a-z]+\s+[A-Z][a-z]+\b` matches at i exactly when the recogniser accepts there. */
  lemma TwoCapitalWordsAtIsMatch(s: string, i: nat)
    requires i <= |s|
    ensures TwoCapitalWordsAt(s, i) <==> TwoCapitalWordsMatch(s, i)
  {
    if TwoCapitalWordsMatch(s, i) {
      TwoCapitalWordsSound(s, i);
    }
    if TwoCapitalWordsAt(s, i) {
      TwoCapitalWordsComplete(s, i);
    }
  }

  lemma TwoCapitalWordsSound(s: string, i: nat)
    requires i <= |s| && TwoCapitalWordsMatch(s, i)
    ensures TwoCapitalWordsAt(s, i)
  {
    var e :| i + 1 < e <= |s| && Span(s, i + 1, e, IsLower) && SpacesCapitalWordEndMatch(s, e);
    SpacesCapitalWordEndStart(s, e);
    CapitalWordForced(s, i, e);
    SpacesCapitalWordEndSound(s, e);
  }

  lemma TwoCapitalWordsComplete(s: string, i: nat)
    requires i <= |s| && TwoCapitalWordsAt(s, i)
    ensures TwoCapitalWordsMatch(s, i)
  {
    SpacesCapitalWordEndComplete(s, i + CapitalWord(s, i));
    RunSpan(s, i + 1, IsLower);
  }

  /**
   * `\b[A-Z]+\d+\b` matches at i exactly when the recogniser accepts
   * there: a word boundary on both sides, the capitals and the digits
   * each taken whole.
   */
  lemma CodeAtIsMatch(s: string, i: nat)
    requires i <= |s|
    ensures CodeAt(s, i) <==> CodeMatch(s, i)
  {
    if CodeMatch(s, i) {
      var e :| i < e <= |s| && Span(s, i, e, IsUpper) && DigitsEndMatch(s, e);
      DigitsEndStart(s, e);
      RunForced(s, i, e, IsUpper);
      DigitsEndSound(s, e);
    }
    if CodeAt(s, i) {
      DigitsEndComplete(s, i + RunLength(s, i, IsUpper));
      RunSpan(s, i, IsUpper);
    }
  }

  /**
   * `str.contains` with each of these patterns holds exactly when the
   * backtracking reading matches at some start.
   */
  lemma SearchesMatchBacktracking(s: string)
    ensures HasTextualDate(s) <==> exists i | 0 <= i <= |s| :: TextualDateMatch(s, i)
    ensures HasWordNumber(s) <==> exists i | 0 <= i <= |s| :: WordNumberMatch(s, i)
    ensures HasTwoCapitalWords(s) <==> exists i | 0 <= i <= |s| :: TwoCapitalWordsMatch(s, i)
    ensures HasCode(s) <==> exists i | 0 <= i <= |s| :: CodeMatch(s, i)
  {
    forall i | 0 <= i <= |s|
      ensures TextualDateAt(s, i) <==> TextualDateMatch(s, i)
      ensures WordNumberAt(s, i) <==> WordNumberMatch(s, i)
      ensures TwoCapitalWordsAt(s, i) <==> TwoCapitalWordsMatch(s, i)
      ensures CodeAt(s, i) <==> CodeMatch(s, i)
    {
      TextualDateAtIsMatch(s, i);
      WordNumberAtIsMatch(s, i);
      TwoCapitalWordsAtIsMatch(s, i);
      CodeAtIsMatch(s, i);
    }
  }

  // ---------------------------------------------------------------------
  // The examples the refinement pass names beside its patterns

  /** An ISO date at the start of a text is a year-first date there. */
  lemma IsoDateIsYearFirst(s: string)
    requires IsoDatePrefix(s)
    ensures YearFirstAt(s, 0) && HasYearFirstDate(s)
  {
    assert YearFirstAt(s, 0);
  }

  lemma SlashDatesExample()
    ensures DayFirstAt("03/04/2021", 0) && !YearFirstAt("03/04/2021", 0)
    ensures YearFirstAt("2020/07-08", 0) && !DayFirstAt("2020/07-08", 0)
  {
  }

  lemma TextualDateExample()
    ensures TextualDateAt("Feb 20, 2023", 0) && HasTextualDate("Feb 20, 2023")
  {
    var s := "Feb 20, 2023";
    assert RunLength(s, 0, IsLetter) == 3;
    assert RunLength(s, 3, IsSpace) == 1;
    assert RunLength(s, 4, IsDigit) == 2;
    assert AfterComma(s, 6) == 7;
    assert RunLength(s, 7, IsSpace) == 1;
    assert RunLength(s, 8, IsDigit) == 4;
    assert TextualDateAt(s, 0);
  }

  /** The day and year after ten letters: a match of the nine that follow the first. */
  lemma LongMonthTail()
    ensures TextualDateAt("Septembers 5 2023", 1)
  {
    var s := "Septembers 5 2023";
    assert RunLength(s, 1, IsLetter) == 9;
    LongMonthDayYear();
  }

  lemma LongMonthDayYear()
    ensures DayCommaYearAt("Septembers 5 2023", 10)
  {
    var s := "Septembers 5 2023";
    assert RunLength(s, 10, IsSpace) == 1;
    assert RunLength(s, 11, IsDigit) == 1;
    assert AfterComma(s, 12) == 12;
    assert RunLength(s, 12, IsSpace) == 1;
    assert RunLength(s, 13, IsDigit) == 4;
  }

  /**
   * Ten letters are too many for `[A-Za-z]{3,9}` at the first letter, but
   * the search still finds the match one letter further on.
   */
  lemma LongMonthExample()
    ensures !TextualDateAt("Septembers 5 2023", 0) && !TextualDateMatch("Septembers 5 2023", 0)
    ensures TextualDateAt("Septembers 5 2023", 1) && HasTextualDate("Septembers 5 2023")
  {
    var s := "Septembers 5 2023";
    assert RunLength(s, 0, IsLetter) == 10;
    TextualDateAtIsMatch(s, 0);
    LongMonthTail();
  }

  lemma WordNumberExample()
    ensures HasWordNumber("Series 7")
  {
    assert WordNumberAt("Series 7", 0);
  }

  lemma TwoCapitalWordsExample()
    ensures HasTwoCapitalWords("Nike Air")
  {
    assert TwoCapitalWordsAt("Nike Air", 0);
  }

  lemma CodeExamples()
    ensures HasCode("BMW X5") && HasCode("Audi A4")
  {
    assert CodeAt("BMW X5", 4);
    assert CodeAt("Audi A4", 5);
  }

  /**
   * A capital inside a word has no `\b` before it, so "iPhone 14" is not a
   * capitalised word and a number, and "MacBook Pro" is not two
   * capitalised words.
   */
  lemma MixedCaseExamples()
    ensures !HasWordNumber("iPhone 14") && !HasTwoCapitalWords("MacBook Pro")
  {
    PhoneIsNotWordNumber();
    BookIsNotTwoCapitalWords();
  }

  lemma PhoneIsNotWordNumber()
    ensures !HasWordNumber("iPhone 14")
  {
    var s := "iPhone 14";
    forall i | 0 <= i <= |s|
      ensures !WordNumberAt(s, i)
    {
      if i == 1 {
        assert !WordStartsAt(s, i);
      } else {
        assert CapitalWord(s, i) == 0;
      }
    }
  }

  lemma BookIsNotTwoCapitalWords()
    ensures !HasTwoCapitalWords("MacBook Pro")
  {
    forall i | 0 <= i <= |"MacBook Pro"|
      ensures !TwoCapitalWordsAt("MacBook Pro", i)
    {
      BookIsNotTwoCapitalWordsAt(i);
    }
  }

  lemma BookIsNotTwoCapitalWordsAt(i: nat)
    requires i <= |"MacBook Pro"|
    ensures !TwoCapitalWordsAt("MacBook Pro", i)
  {
    var s := "MacBook Pro";
    if i == 0 {
      assert RunLength(s, 1, IsLower) == 2;
      assert RunLength(s, 3, IsSpace) == 0;
    } else if i == 3 {
      assert !WordStartsAt(s, i);
    } else if i == 8 {
      assert RunLength(s, 9, IsLower) == 2;
      assert RunLength(s, 11, IsSpace) == 0;
    } else {
      assert CapitalWord(s, i) == 0;
    }
  }
}
