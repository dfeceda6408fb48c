/**
 * `formatRawUSD`: a dollar amount written from its decimal text without going
 * through a floating-point number. The integer part gets a comma before
 * every group of three digits that ends a run of digits, wherever the
 * source's regular expression matches (a position that is not a word
 * boundary), and the fraction, when there is one, is cut (not rounded) to
 * two characters.
 */
module FormatUsd {
  import opened Text

  // ----- Splitting at the dots -----

  /** The position of the first `c` in `s` at or after `from`, or `|s|` when there is none. */
  function IndexOf(s: string, c: char, from: nat): (i: nat)
    requires from <= |s|
    ensures from <= i <= |s|
    ensures i < |s| ==> s[i] == c
    ensures forall j :: from <= j < i ==> s[j] != c
    decreases |s| - from
  {
    if from == |s| then |s|
    else if s[from] == c then from
    else IndexOf(s, c, from + 1)
  }

  /** The first piece of `raw.split(".")`. */
  function IntegerPart(raw: string): string
  {
    raw[..IndexOf(raw, '.', 0)]
  }

  /** The second piece of `raw.split(".")`; "" stands for both an absent and an empty piece, which are equally falsy. */
  function DecimalPart(raw: string): string
  {
    var dot := IndexOf(raw, '.', 0);
    if dot == |raw| then "" else raw[dot + 1..IndexOf(raw, '.', dot + 1)]
  }

  /** The decimal point and at most two characters of the decimal part; nothing when it is empty. */
  function Fraction(raw: string): string
  {
    var d := DecimalPart(raw);
    if d == "" then "" else "." + d[..if |d| < 2 then |d| else 2]
  }

  // ----- The separator pattern -----

  /** A word character of regular expressions: a letter, a digit or `_`. */
  predicate IsWordChar(c: char)
  {
    ('a' <= c <= 'z') || ('A' <= c <= 'Z') || ('0' <= c <= '9') || c == '_'
  }

  /** Whether position `p` of `s` is a word boundary (`\b`); outside the string counts as a non-word character. */
  predicate WordBoundary(s: string, p: nat)
    requires p <= |s|
  {
    var before := p > 0 && IsWordChar(s[p - 1]);
    var after := p < |s| && IsWordChar(s[p]);
    before != after
  }

  /** The length of the run of digits starting at `p`. */
  function DigitRun(s: string, p: nat): (n: nat)
    requires p <= |s|
    ensures p + n <= |s|
    decreases |s| - p
  {
    if p < |s| && IsDigit(s[p]) then 1 + DigitRun(s, p + 1) else 0
  }

  /**
   * Where the pattern matches: not at a word boundary, and followed by one or
   * more groups of three digits and then no further digit, that is, by a
   * run of digits whose length is a positive multiple of three.
   */
  predicate CommaAt(s: string, p: nat)
    requires p <= |s|
  {
    !WordBoundary(s, p) && DigitRun(s, p) > 0 && DigitRun(s, p) % 3 == 0
  }

  /** `s[p..]` with a comma inserted at every matching position. */
  function CommasFrom(s: string, p: nat): string
    requires p <= |s|
    decreases |s| - p
  {
    if p == |s| then ""
    else (if CommaAt(s, p) then "," else "") + [s[p]] + CommasFrom(s, p + 1)
  }

  /** The integer part with its thousands separators. */
  function Commas(s: string): string
  {
    CommasFrom(s, 0)
  }

  /** `formatRawUSD(rawStr)`; an absent string is "". */
  function FormatRawUsd(raw: string): (out: string)
    ensures |out| > 0 && out[0] == '$'
  {
    if raw == "" || raw == "0" then "$0"
    else "$" + Commas(IntegerPart(raw)) + Fraction(raw)
  }

  // ----- Removing the separators again -----

  /** `s` without its commas. */
  function Strip(s: string): (r: string)
    ensures |r| <= |s|
  {
    if s == [] then [] else (if s[0] == ',' then [] else [s[0]]) + Strip(s[1..])
  }

  predicate NoCommas(s: string)
  {
    forall i :: 0 <= i < |s| ==> s[i] != ','
  }

  predicate Digits(s: string)
  {
    forall i :: 0 <= i < |s| ==> IsDigit(s[i])
  }

  lemma {:induction false} StripAppend(a: string, b: string)
    ensures Strip(a + b) == Strip(a) + Strip(b)
    decreases |a|
  {
    if a == [] {
      assert a + b == b;
    } else {
      assert (a + b)[1..] == a[1..] + b;
      StripAppend(a[1..], b);
    }
  }

  lemma {:induction false} StripNoCommas(s: string)
    requires NoCommas(s)
    ensures Strip(s) == s
    decreases |s|
  {
    if s != [] {
      StripNoCommas(s[1..]);
    }
  }

  /** Deleting the inserted commas gives back the text they were inserted into. */
  lemma {:induction false} StripCommasFrom(s: string, p: nat)
    requires p <= |s|
    ensures Strip(CommasFrom(s, p)) == Strip(s[p..])
    decreases |s| - p
  {
    if p < |s| {
      StripCommasFrom(s, p + 1);
      var sep: string := if CommaAt(s, p) then "," else "";
      assert Strip(sep) == [];
      StripAppend(sep, [s[p]] + CommasFrom(s, p + 1));
      StripAppend([s[p]], CommasFrom(s, p + 1));
      assert s[p..] == [s[p]] + s[p + 1..];
      StripAppend([s[p]], s[p + 1..]);
    }
  }

  /** The separators are the only change: without them, the grouped integer part is the integer part. */
  lemma CommasRoundTrip(s: string)
    requires NoCommas(s)
    ensures Strip(Commas(s)) == s
  {
    StripCommasFrom(s, 0);
    assert s[0..] == s;
    StripNoCommas(s);
  }

  // ----- Where the separators fall in a string of digits -----

  lemma {:induction false} DigitRunOfDigits(s: string, p: nat)
    requires Digits(s) && p <= |s|
    ensures DigitRun(s, p) == |s| - p
    decreases |s| - p
  {
    if p < |s| {
      DigitRunOfDigits(s, p + 1);
    }
  }

  /**
   * In a string of digits a comma goes before position `p` exactly when `p`
   * is not the start and the number of digits from `p` on is a multiple of
   * three.
   */
  lemma CommaPlacement(s: string, p: nat)
    requires Digits(s) && p < |s|
    ensures CommaAt(s, p) <==> 0 < p && (|s| - p) % 3 == 0
  {
    DigitRunOfDigits(s, p);
    if p > 0 {
      assert IsWordChar(s[p - 1]) && IsWordChar(s[p]);
    } else {
      assert IsWordChar(s[p]);
    }
  }

  /** Where no comma goes between `p` and `q`, the text there is copied unchanged. */
  lemma {:induction false} CopiedUpTo(s: string, p: nat, q: nat)
    requires p <= q <= |s|
    requires forall i :: p <= i < q ==> !CommaAt(s, i)
    ensures CommasFrom(s, p) == s[p..q] + CommasFrom(s, q)
    decreases q - p
  {
    if p < q {
      CopiedUpTo(s, p + 1, q);
      assert !CommaAt(s, p);
      assert CommasFrom(s, p) == [s[p]] + CommasFrom(s, p + 1);
      assert s[p..q] == [s[p]] + s[p + 1..q];
    } else {
      assert s[p..q] == [];
    }
  }

  /**
   * The leading group of a string of digits has one to three digits: it is
   * copied as it is, and a comma follows it when more digits do.
   */
  lemma LeadingGroup(s: string)
    requires Digits(s) && |s| > 0
    ensures var g := (|s| - 1) % 3 + 1;
      && 1 <= g <= 3
      && |Commas(s)| >= g && Commas(s)[..g] == s[..g]
      && (|s| > g ==> |Commas(s)| > g && Commas(s)[g] == ',')
  {
    var g := (|s| - 1) % 3 + 1;
    forall i | 0 <= i < g ensures !CommaAt(s, i) {
      CommaPlacement(s, i);
    }
    CopiedUpTo(s, 0, g);
    if |s| > g {
      CommaPlacement(s, g);
    }
  }

  // ----- The whole amount -----

  lemma {:induction false} SliceNoCommas(s: string, i: nat, j: nat)
    requires NoCommas(s) && i <= j <= |s|
    ensures NoCommas(s[i..j])
  {
    assert forall k :: 0 <= k < j - i ==> s[i..j][k] == s[i + k];
  }

  /** Zero and the empty string are written `$0`. */
  lemma ZeroAmounts()
    ensures FormatRawUsd("") == "$0" && FormatRawUsd("0") == "$0"
    ensures FormatRawUsd("0.5") == "$0.5"
  {
    assert IndexOf("0.5", '.', 0) == 1;
    assert IndexOf("0.5", '.', 2) == 3;
    assert Commas("0") == "0" by {
      assert !CommaAt("0", 0);
    }
  }

  /** The kept fraction is the text from the first `.` on, cut after at most two more characters. */
  lemma FractionIsSlice(raw: string)
    ensures var dot := IndexOf(raw, '.', 0);
      Fraction(raw) == raw[dot..dot + |Fraction(raw)|]
  {
    var dot := IndexOf(raw, '.', 0);
    var fr := Fraction(raw);
    if fr != "" {
      var d := DecimalPart(raw);
      var k := if |d| < 2 then |d| else 2;
      assert dot < |raw|;
      var end := IndexOf(raw, '.', dot + 1);
      assert d == raw[dot + 1..end];
      var kept := raw[dot + 1..dot + 1 + k];
      assert d[..k] == kept;
      assert fr == "." + kept;
      assert raw[dot] == '.';
      assert forall i :: 0 <= i < 1 + k ==> raw[dot..dot + 1 + k][i] == fr[i];
    }
  }

  /** The integer part followed by the kept fraction is a prefix of the amount's text. */
  lemma KeptPrefix(raw: string)
    requires NoCommas(raw)
    ensures NoCommas(IntegerPart(raw)) && NoCommas(Fraction(raw))
    ensures IntegerPart(raw) + Fraction(raw) <= raw
  {
    var dot := IndexOf(raw, '.', 0);
    var fr := Fraction(raw);
    FractionIsSlice(raw);
    SliceNoCommas(raw, 0, dot);
    SliceNoCommas(raw, dot, dot + |fr|);
    assert raw[..dot] + raw[dot..dot + |fr|] == raw[..dot + |fr|];
  }

  /**
   * Without the commas, the written amount is `$` and the amount's own text,
   * cut after two decimals, after a trailing `.`, or before a second `.`:
   * digits are never rounded, changed or reordered.
   */
  lemma {:induction false} FormatTruncates(raw: string)
    requires NoCommas(raw) && raw != "" && raw != "0"
    ensures Strip(FormatRawUsd(raw)) == "$" + IntegerPart(raw) + Fraction(raw)
    ensures Strip(FormatRawUsd(raw)) <= "$" + raw
  {
    var ip := IntegerPart(raw);
    var fr := Fraction(raw);
    KeptPrefix(raw);
    assert FormatRawUsd(raw) == "$" + (Commas(ip) + fr);
    StripGrouped(ip, fr);
    SamePrefixAfterDollar(ip + fr, raw);
  }

  /** Deleting the commas of `$`, a grouped integer part and a fraction leaves `$` and the two parts. */
  lemma StripGrouped(ip: string, fr: string)
    requires NoCommas(ip) && NoCommas(fr)
    ensures Strip("$" + (Commas(ip) + fr)) == "$" + (ip + fr)
  {
    CommasRoundTrip(ip);
    StripNoCommas(fr);
    StripAppend("$", Commas(ip) + fr);
    StripAppend(Commas(ip), fr);
    assert Strip("$") == "$";
  }

  lemma SamePrefixAfterDollar(p: string, s: string)
    requires p <= s
    ensures "$" + p <= "$" + s
  {
    assert ("$" + s)[..|p| + 1] == "$" + s[..|p|];
  }

  /** A fraction is kept only when the decimal part is not empty; then it has one or two characters after the point. */
  lemma FractionShape(raw: string)
    ensures DecimalPart(raw) == "" <==> Fraction(raw) == ""
    ensures Fraction(raw) != "" ==>
              && Fraction(raw)[0] == '.'
              && 2 <= |Fraction(raw)| <= 3
              && Fraction(raw)[1..] <= DecimalPart(raw)
  {
    var d := DecimalPart(raw);
    if d != "" {
      var k := if |d| < 2 then |d| else 2;
      assert Fraction(raw)[1..] == d[..k];
    }
  }

  /** Without a decimal part the written amount has no decimal point at all. */
  lemma NoFractionNoPoint(raw: string)
    requires DecimalPart(raw) == ""
    ensures forall i :: 0 <= i < |FormatRawUsd(raw)| ==> FormatRawUsd(raw)[i] != '.'
  {
    if raw != "" && raw != "0" {
      var ip := IntegerPart(raw);
      NoPointInCommas(ip, 0);
      assert FormatRawUsd(raw) == "$" + Commas(ip);
    }
  }

  lemma {:induction false} NoPointInCommas(s: string, p: nat)
    requires p <= |s|
    requires forall i :: p <= i < |s| ==> s[i] != '.'
    ensures forall i :: 0 <= i < |CommasFrom(s, p)| ==> CommasFrom(s, p)[i] != '.'
    decreases |s| - p
  {
    if p < |s| {
      NoPointInCommas(s, p + 1);
    }
  }

  /** Searching a prefix finds what the whole text has before the cut, and otherwise stops at the cut. */
  lemma {:induction false} IndexOfPrefix(s: string, c: char, from: nat, e: nat)
    requires from <= e <= |s|
    ensures IndexOf(s[..e], c, from) == if IndexOf(s, c, from) < e then IndexOf(s, c, from) else e
    decreases e - from
  {
    if from < e && s[from] != c {
      IndexOfPrefix(s, c, from + 1, e);
    }
  }

  /** Text from a second `.` on is dropped: the amount is written as if it ended there. */
  lemma {:induction false} SecondPointIgnored(raw: string)
    requires IndexOf(raw, '.', 0) < |raw|
    requires IndexOf(raw, '.', IndexOf(raw, '.', 0) + 1) < |raw|
    ensures var second := IndexOf(raw, '.', IndexOf(raw, '.', 0) + 1);
      FormatRawUsd(raw) == FormatRawUsd(raw[..second])
  {
    var dot := IndexOf(raw, '.', 0);
    var second := IndexOf(raw, '.', dot + 1);
    var cut := raw[..second];
    assert IndexOf(cut, '.', 0) == dot by {
      IndexOfPrefix(raw, '.', 0, second);
    }
    assert IndexOf(cut, '.', dot + 1) == second by {
      IndexOfPrefix(raw, '.', dot + 1, second);
    }
    assert IntegerPart(cut) == IntegerPart(raw) by {
      assert cut[..dot] == raw[..dot];
    }
    assert DecimalPart(cut) == DecimalPart(raw) by {
      assert cut[dot + 1..second] == raw[dot + 1..second];
    }
    assert cut != "" && cut != "0" by {
      assert cut[dot] == '.';
    }
  }
}
