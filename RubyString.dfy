/**
 * The parts of Ruby's String behaviour that the helpers and controllers rely on:
 * String#split with a one-character separator other than a space, joining with a separator,
 * ActiveSupport's blank?, ASCII downcase/capitalize, and decimal digit runs.
 */
module RubyString {

  /** Index of the last occurrence of c in s, or -1 when c does not occur. */
  function LastIndexOf(s: string, c: char): (i: int)
    ensures -1 <= i < |s|
    ensures 0 <= i ==> s[i] == c
    ensures forall k :: i < k < |s| ==> s[k] != c
  {
    if |s| == 0 then -1
    else if s[|s| - 1] == c then |s| - 1
    else LastIndexOf(s[..|s| - 1], c)
  }

  /** A character that does not occur has no last occurrence. */
  lemma LastIndexOfAbsent(s: string, c: char)
    requires c !in s
    ensures LastIndexOf(s, c) == -1
  {
  }

  /** The last separator of p + [c] + w sits right after p when w holds no separator. */
  lemma LastIndexOfAfter(p: string, c: char, w: string)
    requires c !in w
    ensures LastIndexOf(p + [c] + w, c) == |p|
  {
    var s := p + [c] + w;
    assert s[|p|] == c;
  }

  /** Every field between separators, empty fields included. */
  function Fields(s: string, sep: char): (r: seq<string>)
    ensures |r| >= 1
    decreases |s|
  {
    var i := LastIndexOf(s, sep);
    if i < 0 then [s] else Fields(s[..i], sep) + [s[i + 1..]]
  }

  /** Drops the empty fields at the end, as String#split does by default. */
  function DropTrailingEmpty(xs: seq<string>): (r: seq<string>)
    ensures r <= xs
    ensures r == [] || r[|r| - 1] != ""
    ensures forall i :: |r| <= i < |xs| ==> xs[i] == ""
  {
    if xs == [] then []
    else if xs[|xs| - 1] == "" then DropTrailingEmpty(xs[..|xs| - 1])
    else xs
  }

  /**
   * Ruby's s.split(sep) for a one-character separator string other than " " (which Ruby
   * treats awk-style, splitting on runs of whitespace; that case is not modelled): the
   * last entry is never empty, and nothing at all is left exactly when the string is made
   * of separators only.
   */
  function Split(s: string, sep: char): (r: seq<string>)
    ensures r == [] || r[|r| - 1] != ""
    ensures r == [] <==> AllSeparators(s, sep)
  {
    SplitEmptyIff(s, sep);
    DropTrailingEmpty(Fields(s, sep))
  }

  /** No field is left after dropping the empty ones exactly when the string is all separators. */
  lemma SplitEmptyIff(s: string, sep: char)
    ensures DropTrailingEmpty(Fields(s, sep)) == [] <==> AllSeparators(s, sep)
  {
    var fs := Fields(s, sep);
    var r := DropTrailingEmpty(fs);
    FieldsAllEmpty(s, sep);
    if r != [] {
      assert r[|r| - 1] == fs[|r| - 1];
    }
  }

  /** Whether every character of s is the separator. */
  predicate AllSeparators(s: string, sep: char)
  {
    forall k :: 0 <= k < |s| ==> s[k] == sep
  }

  /** Whether every entry of xs is empty. */
  predicate AllEmpty(xs: seq<string>)
  {
    forall j :: 0 <= j < |xs| ==> xs[j] == ""
  }

  /** All fields are empty exactly when every character of the string is the separator. */
  lemma {:induction false} FieldsAllEmpty(s: string, sep: char)
    ensures AllEmpty(Fields(s, sep)) <==> AllSeparators(s, sep)
    decreases |s|
  {
    var i := LastIndexOf(s, sep);
    if i < 0 {
      var fs := Fields(s, sep);
      assert fs == [s];
      if |s| > 0 {
        assert fs[0] != "" && !AllEmpty(fs);
        assert s[0] != sep && !AllSeparators(s, sep);
      } else {
        assert AllEmpty(fs) && AllSeparators(s, sep);
      }
    } else {
      FieldsAllEmpty(s[..i], sep);
      var init := Fields(s[..i], sep);
      assert Fields(s, sep) == init + [s[i + 1..]];
      AllEmptySnoc(init, s[i + 1..]);
      AllSeparatorsAtLast(s, sep, i);
    }
  }

  lemma AllEmptySnoc(xs: seq<string>, x: string)
    ensures AllEmpty(xs + [x]) <==> AllEmpty(xs) && x == ""
  {
    assert forall j :: 0 <= j < |xs| ==> (xs + [x])[j] == xs[j];
    assert (xs + [x])[|xs|] == x;
  }

  /** With i the last separator, s is all separators iff s[..i] is and i is the last index. */
  lemma AllSeparatorsAtLast(s: string, sep: char, i: int)
    requires 0 <= i < |s| && s[i] == sep
    requires forall k :: i < k < |s| ==> s[k] != sep
    ensures AllSeparators(s, sep) <==> AllSeparators(s[..i], sep) && i == |s| - 1
  {
    assert forall k :: 0 <= k < i ==> s[..i][k] == s[k];
    if i < |s| - 1 {
      assert s[|s| - 1] != sep;
    }
  }

  /** xs.join(sep). */
  function Join(xs: seq<string>, sep: char): string
  {
    if xs == [] then ""
    else if |xs| == 1 then xs[0]
    else Join(xs[..|xs| - 1], sep) + [sep] + xs[|xs| - 1]
  }

  /** A field that holds no separator is split off whole at the end of a string. */
  lemma {:induction false} FieldsSnoc(p: string, sep: char, w: string)
    requires sep !in w
    ensures Fields(p + [sep] + w, sep) == Fields(p, sep) + [w]
  {
    var s := p + [sep] + w;
    LastIndexOfAfter(p, sep, w);
    assert s[..|p|] == p;
    assert s[|p| + 1..] == w;
  }

  /** No field contains the separator. */
  lemma {:induction false} FieldsHaveNoSeparator(s: string, sep: char)
    ensures forall f :: f in Fields(s, sep) ==> sep !in f
    decreases |s|
  {
    var i := LastIndexOf(s, sep);
    if i >= 0 {
      FieldsHaveNoSeparator(s[..i], sep);
    }
  }

  /** Every character of every field is a character of the string. */
  lemma {:induction false} FieldsCharsFromString(s: string, sep: char)
    ensures forall f, ch :: f in Fields(s, sep) && ch in f ==> ch in s
    decreases |s|
  {
    var i := LastIndexOf(s, sep);
    if i >= 0 {
      FieldsCharsFromString(s[..i], sep);
      assert forall ch :: ch in s[..i] ==> ch in s;
      assert forall ch :: ch in s[i + 1..] ==> ch in s;
    }
  }

  /** Splitting what Join produced gives back the fields, separator-free fields assumed. */
  lemma {:induction false} FieldsJoin(xs: seq<string>, sep: char)
    requires xs != []
    requires forall x :: x in xs ==> sep !in x
    ensures Fields(Join(xs, sep), sep) == xs
    decreases |xs|
  {
    if |xs| == 1 {
      assert xs[0] in xs;
      LastIndexOfAbsent(xs[0], sep);
    } else {
      var init := xs[..|xs| - 1];
      assert forall x :: x in init ==> x in xs;
      FieldsJoin(init, sep);
      FieldsSnoc(Join(init, sep), sep, xs[|xs| - 1]);
      assert init + [xs[|xs| - 1]] == xs;
    }
  }

  /**
   * split is the inverse of join on lists of separator-free entries whose last
   * entry is not empty (split would drop an empty last entry).
   */
  lemma SplitJoin(xs: seq<string>, sep: char)
    requires forall x :: x in xs ==> sep !in x
    requires xs == [] || xs[|xs| - 1] != ""
    ensures Split(Join(xs, sep), sep) == xs
  {
    if xs == [] {
      assert Fields("", sep) == [""];
    } else {
      FieldsJoin(xs, sep);
    }
  }

  /** A separator at the end only adds an empty field, which split drops. */
  lemma SplitIgnoresTrailingSeparator(s: string, sep: char)
    ensures Split(s + [sep], sep) == Split(s, sep)
  {
    FieldsSnoc(s, sep, "");
    assert s + [sep] + "" == s + [sep];
    assert (Fields(s, sep) + [""])[..|Fields(s, sep)|] == Fields(s, sep);
  }

  /** Entries of a split never contain the separator, and come from the string's characters. */
  lemma SplitEntries(s: string, sep: char)
    ensures forall x :: x in Split(s, sep) ==> sep !in x
    ensures forall x, ch :: x in Split(s, sep) && ch in x ==> ch in s
  {
    FieldsHaveNoSeparator(s, sep);
    FieldsCharsFromString(s, sep);
    var fs := Fields(s, sep);
    assert forall x :: x in Split(s, sep) ==> x in fs;
  }

  /** The characters matched by POSIX [[:space:]] in the ASCII range. */
  predicate IsSpace(ch: char)
  {
    ch == ' ' || ch == '\t' || ch == '\n' || ch == '\r' || ch == '\U{B}' || ch == '\U{C}'
  }

  /** String#blank? from ActiveSupport: empty or whitespace only. */
  predicate IsBlank(s: string)
  {
    forall i :: 0 <= i < |s| ==> IsSpace(s[i])
  }

  /** Every entry split off a blank string is blank. */
  lemma SplitOfBlankIsBlank(s: string, sep: char)
    requires IsBlank(s)
    ensures forall x :: x in Split(s, sep) ==> IsBlank(x)
  {
    SplitEntries(s, sep);
    forall x | x in Split(s, sep)
      ensures IsBlank(x)
    {
      forall i | 0 <= i < |x|
        ensures IsSpace(x[i])
      {
        assert x[i] in x;
        var j :| 0 <= j < |s| && s[j] == x[i];
      }
    }
  }

  predicate IsUpper(ch: char) { 'A' <= ch <= 'Z' }
  predicate IsLower(ch: char) { 'a' <= ch <= 'z' }

  function ToLower(ch: char): (r: char)
    ensures IsUpper(ch) ==> IsLower(r) && r as int - 'a' as int == ch as int - 'A' as int
    ensures !IsUpper(ch) ==> r == ch
  {
    if IsUpper(ch) then (ch as int - 'A' as int + 'a' as int) as char else ch
  }

  function ToUpper(ch: char): (r: char)
    ensures IsLower(ch) ==> IsUpper(r) && r as int - 'A' as int == ch as int - 'a' as int
    ensures !IsLower(ch) ==> r == ch
  {
    if IsLower(ch) then (ch as int - 'a' as int + 'A' as int) as char else ch
  }

  /** String#downcase on ASCII letters. */
  function Downcase(s: string): (r: string)
    ensures |r| == |s|
    ensures forall i :: 0 <= i < |s| ==> r[i] == ToLower(s[i])
    ensures forall i :: 0 <= i < |s| ==> !IsUpper(r[i])
  {
    seq(|s|, i requires 0 <= i < |s| => ToLower(s[i]))
  }

  /** String#capitalize on ASCII letters: first character upper case, the rest lower case. */
  function Capitalize(s: string): (r: string)
    ensures |r| == |s|
    ensures |s| > 0 ==> r[0] == ToUpper(s[0]) && r[1..] == Downcase(s[1..])
  {
    if s == [] then [] else [ToUpper(s[0])] + Downcase(s[1..])
  }

  predicate IsDigit(ch: char) { '0' <= ch <= '9' }

  predicate AllDigits(s: string)
  {
    forall i :: 0 <= i < |s| ==> IsDigit(s[i])
  }

  /** The longest run of digits at the end of s (what /(\d+)\z/ captures, or "" for no match). */
  function TrailingDigits(s: string): (d: string)
    ensures |d| <= |s| && d == s[|s| - |d|..]
    ensures AllDigits(d)
    ensures |d| < |s| ==> !IsDigit(s[|s| - |d| - 1])
  {
    if |s| > 0 && IsDigit(s[|s| - 1]) then
      var p := s[..|s| - 1];
      var d := TrailingDigits(p);
      var r := d + [s[|s| - 1]];
      assert s[|s| - |r|..] == p[|p| - |d|..] + [s[|s| - 1]];
      assert r[..|d|] == d;
      assert |r| < |s| ==> s[|s| - |r| - 1] == p[|p| - |d| - 1];
      r
    else ""
  }

  function DigitValue(ch: char): (n: nat)
    requires IsDigit(ch)
    ensures n < 10
  {
    ch as int - '0' as int
  }

  function DigitChar(n: nat): (ch: char)
    requires n < 10
    ensures IsDigit(ch) && DigitValue(ch) == n
  {
    ('0' as int + n) as char
  }

  /** The number a digit string denotes (what String#to_i gives for it). */
  function DecimalValue(d: string): nat
    requires AllDigits(d)
  {
    if d == [] then 0 else DecimalValue(d[..|d| - 1]) * 10 + DigitValue(d[|d| - 1])
  }

  /** Integer#to_s for non-negative integers. */
  function DecimalString(n: nat): (d: string)
    ensures |d| > 0 && AllDigits(d)
  {
    if n < 10 then [DigitChar(n)] else DecimalString(n / 10) + [DigitChar(n % 10)]
  }

  /** to_i undoes to_s. */
  lemma {:induction false} DecimalRoundTrip(n: nat)
    ensures DecimalValue(DecimalString(n)) == n
  {
    var d := DecimalString(n);
    if n >= 10 {
      DecimalRoundTrip(n / 10);
      assert d[..|d| - 1] == DecimalString(n / 10);
    }
  }

  /** The trailing digit run of p + d is d itself when d is all digits and p does not end in one. */
  lemma {:induction false} TrailingDigitsOfSuffix(p: string, d: string)
    requires AllDigits(d)
    requires p == [] || !IsDigit(p[|p| - 1])
    ensures TrailingDigits(p + d) == d
    decreases |d|
  {
    if d == [] {
      assert p + d == p;
    } else {
      var init := d[..|d| - 1];
      assert (p + d)[..|p + d| - 1] == p + init;
      TrailingDigitsOfSuffix(p, init);
      assert init + [d[|d| - 1]] == d;
    }
  }
}
