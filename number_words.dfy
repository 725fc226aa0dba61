/**
 * The number-word parser of the cleaner (`_words_to_num`): lower-case the
 * text, read hyphens as spaces, split on whitespace, look every token up
 * in a fixed table of words and add the values up.
 */
module WordNumbers {
  import opened Wrappers
  import opened Text
  import opened Frames

  /** `_NUMBER_WORDS`: zero to twenty, then the tens up to ninety. */
  const NumberWords: map<string, nat> := map[
    "zero" := 0, "one" := 1, "two" := 2, "three" := 3, "four" := 4,
    "five" := 5, "six" := 6, "seven" := 7, "eight" := 8, "nine" := 9,
    "ten" := 10, "eleven" := 11, "twelve" := 12, "thirteen" := 13,
    "fourteen" := 14, "fifteen" := 15, "sixteen" := 16, "seventeen" := 17,
    "eighteen" := 18, "nineteen" := 19, "twenty" := 20, "thirty" := 30,
    "forty" := 40, "fifty" := 50, "sixty" := 60, "seventy" := 70,
    "eighty" := 80, "ninety" := 90]

  /** `text.lower().replace("-", " ")`. */
  function Normalize(s: string): string
  {
    ReplaceChar(Lower(s), '-', ' ')
  }

  /** `text.lower().replace("-", " ").split()`. */
  function Tokens(s: string): seq<string>
  {
    Split(Normalize(s))
  }

  predicate AllKnown(ts: seq<string>)
  {
    forall k :: 0 <= k < |ts| ==> ts[k] in NumberWords
  }

  /** The sum of the table values of the tokens. */
  function SumWords(ts: seq<string>): nat
    requires AllKnown(ts)
  {
    if ts == [] then 0 else SumWords(ts[..|ts| - 1]) + NumberWords[ts[|ts| - 1]]
  }

  /**
   * What `_words_to_num` answers: nothing for a value that is not text or
   * holds no token, nothing when some token is not a number word, and
   * otherwise the sum of the tokens' values.
   */
  function WordsValue(v: Cell): Option<real>
  {
    match v
    case Text(s) =>
      var ts := Tokens(s);
      if ts != [] && AllKnown(ts) then Some(SumWords(ts) as real) else None
    case _ => None
  }

  /** `_words_to_num`, with its early return on the first unknown token. */
  method WordsToNum(v: Cell) returns (r: Option<real>)
    ensures r == WordsValue(v)
  {
    if !v.Text? {
      return None;
    }
    var parts := Tokens(v.text);
    if |parts| == 0 {
      return None;
    }
    var value: nat := 0;
    var i := 0;
    while i < |parts|
      invariant 0 <= i <= |parts|
      invariant AllKnown(parts[..i])
      invariant value == SumWords(parts[..i])
    {
      if parts[i] !in NumberWords {
        return None;
      }
      assert parts[..i + 1][..i] == parts[..i];
      value := value + NumberWords[parts[i]];
      i := i + 1;
    }
    assert parts[..i] == parts;
    return Some(value as real);
  }

  // ---------------------------------------------------------------------
  // Properties

  lemma LowerIdempotent(s: string)
    ensures Lower(Lower(s)) == Lower(s)
  {
  }

  /** Upper- and lower-case spellings of a text read the same. */
  lemma WordsIgnoreCase(s: string)
    ensures WordsValue(Text(Lower(s))) == WordsValue(Text(s))
  {
    LowerIdempotent(s);
  }

  lemma NormalizeAround(a: string, c: char, b: string)
    ensures Normalize(a + [c] + b) == Normalize(a) + Normalize([c]) + Normalize(b)
  {
  }

  /** A hyphen separates number words exactly as a space does. */
  lemma WordsHyphenIsSpace(a: string, b: string)
    ensures WordsValue(Text(a + "-" + b)) == WordsValue(Text(a + " " + b))
  {
    NormalizeAround(a, '-', b);
    NormalizeAround(a, ' ', b);
    assert Normalize("-") == Normalize(" ") == " ";
  }

  lemma {:induction false} SumWordsAppend(xs: seq<string>, ys: seq<string>)
    requires AllKnown(xs) && AllKnown(ys)
    ensures AllKnown(xs + ys)
    ensures SumWords(xs + ys) == SumWords(xs) + SumWords(ys)
    decreases |ys|
  {
    assert AllKnown(xs + ys) by {
      forall k | 0 <= k < |xs + ys| ensures (xs + ys)[k] in NumberWords {
        if k >= |xs| { assert (xs + ys)[k] == ys[k - |xs|]; }
      }
    }
    if ys == [] {
      assert xs + ys == xs;
    } else {
      var init := ys[..|ys| - 1];
      assert (xs + ys)[..|xs + ys| - 1] == xs + init;
      assert AllKnown(init) by {
        forall k | 0 <= k < |init| ensures init[k] in NumberWords { assert init[k] == ys[k]; }
      }
      SumWordsAppend(xs, init);
    }
  }

  lemma TokensAtSpace(a: string, b: string)
    ensures Tokens(a + " " + b) == Tokens(a) + Tokens(b)
  {
    NormalizeAround(a, ' ', b);
    assert Normalize(" ") == [' '];
    SplitAtSpace(Normalize(a), ' ', Normalize(b));
  }

  /** Number words written one after the other add up: "twenty one" is 20 + 1. */
  lemma WordsAdd(a: string, b: string)
    requires WordsValue(Text(a)).Some? && WordsValue(Text(b)).Some?
    ensures WordsValue(Text(a + " " + b)) == Some(WordsValue(Text(a)).value + WordsValue(Text(b)).value)
    ensures WordsValue(Text(a + "-" + b)) == WordsValue(Text(a + " " + b))
  {
    TokensAtSpace(a, b);
    SumWordsAppend(Tokens(a), Tokens(b));
    WordsHyphenIsSpace(a, b);
  }

  /** One unknown token spoils the whole text, wherever it stands. */
  lemma WordsUnknownSpoils(a: string, b: string)
    requires (exists k :: 0 <= k < |Tokens(a)| && Tokens(a)[k] !in NumberWords) ||
             (exists k :: 0 <= k < |Tokens(b)| && Tokens(b)[k] !in NumberWords)
    ensures WordsValue(Text(a + " " + b)) == None
    ensures WordsValue(Text(b + " " + a)) == None
  {
    TokensAtSpace(a, b);
    TokensAtSpace(b, a);
    var ab := Tokens(a) + Tokens(b);
    var ba := Tokens(b) + Tokens(a);
    if k :| 0 <= k < |Tokens(a)| && Tokens(a)[k] !in NumberWords {
      assert ab[k] == Tokens(a)[k];
      assert ba[|Tokens(b)| + k] == Tokens(a)[k];
    } else {
      var k :| 0 <= k < |Tokens(b)| && Tokens(b)[k] !in NumberWords;
      assert ab[|Tokens(a)| + k] == Tokens(b)[k];
      assert ba[k] == Tokens(b)[k];
    }
  }

  lemma NormalizeBlank(s: string)
    ensures AllSpace(Normalize(s)) <==> forall i :: 0 <= i < |s| ==> IsSpace(s[i]) || s[i] == '-'
  {
  }

  /** A text of nothing but whitespace and hyphens holds no token, and so no number. */
  lemma WordsBlank(s: string)
    ensures Tokens(s) == [] <==> forall i :: 0 <= i < |s| ==> IsSpace(s[i]) || s[i] == '-'
    ensures (forall i :: 0 <= i < |s| ==> IsSpace(s[i]) || s[i] == '-') ==> WordsValue(Text(s)) == None
  {
    SplitEmptyIffBlank(Normalize(s));
    NormalizeBlank(s);
  }

  lemma {:induction false} SplitFromWord(s: string, cur: string)
    requires NoSpace(cur) && NoSpace(s) && cur + s != []
    ensures SplitFrom(s, cur) == [cur + s]
    decreases |s|
  {
    if |s| == 0 {
      assert cur + s == cur;
    } else {
      assert (cur + [s[0]]) + s[1..] == cur + s;
      SplitFromWord(s[1..], cur + [s[0]]);
    }
  }

  /** A word of lower-case letters is left alone by normalising and is a single token. */
  lemma LowerWordIsToken(w: string)
    requires w != [] && forall i :: 0 <= i < |w| ==> IsLower(w[i])
    ensures Normalize(w) == w && NoSpace(w) && Tokens(w) == [w]
  {
    assert Normalize(w) == w;
    SplitFromWord(w, []);
    assert [] + w == w;
  }

  lemma TwentyEightTokens()
    ensures Tokens("twenty-eight") == ["twenty", "eight"]
  {
    var a, b := "twenty", "eight";
    LowerWordIsToken(a);
    LowerWordIsToken(b);
    assert a + "-" + b == "twenty-eight";
    NormalizeAround(a, '-', b);
    NormalizeAround(a, ' ', b);
    assert Normalize("-") == Normalize(" ") == " ";
    SplitAtSpace(a, ' ', b);
  }

  /** "twenty-eight" reads as 28. */
  lemma TwentyEight()
    ensures WordsValue(Text("twenty-eight")) == Some(28.0)
  {
    TwentyEightTokens();
    var ts := ["twenty", "eight"];
    assert ts[..1] == ["twenty"] && ts[..1][..0] == [];
    assert AllKnown(ts);
    assert SumWords(ts) == 28;
  }
}
