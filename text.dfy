/**
 * Character classes and string helpers that the backend (Python) and the
 * frontend (TypeScript) apply to transcripts: whitespace tests, strip/trim,
 * ASCII case mapping, substring search, Python's `str.split()` word count,
 * and decimal rendering and parsing of integers.
 */
module Text {

  /** The two runtimes disagree slightly on what counts as whitespace. */
  datatype Whitespace = Python | JavaScript

  /** A JavaScript line terminator: what the regex `.` refuses to match. */
  predicate IsLineTerminator(c: char) {
    c == '\n' || c == '\r' || c == '\U{2028}' || c == '\U{2029}'
  }

  /** Python's `str.isspace()` and JavaScript's `\s` / `trim()` set. */
  predicate IsSpace(ws: Whitespace, c: char) {
    || c == ' ' || c == '\t' || c == '\n' || c == '\r' || c == '\U{B}' || c == '\U{C}'
    || c == '\U{A0}' || c == '\U{1680}' || ('\U{2000}' <= c <= '\U{200A}')
    || c == '\U{2028}' || c == '\U{2029}' || c == '\U{202F}' || c == '\U{205F}' || c == '\U{3000}'
    || (ws == Python && ('\U{1C}' <= c <= '\U{1F}' || c == '\U{85}'))
    || (ws == JavaScript && c == '\U{FEFF}')
  }

  predicate IsDigit(c: char) {
    '0' <= c <= '9'
  }

  /** True when the string holds nothing but whitespace (`not s.strip()`). */
  predicate IsBlank(ws: Whitespace, s: string) {
    forall i :: 0 <= i < |s| ==> IsSpace(ws, s[i])
  }

  /** Length of the run of whitespace at the start of `s`. */
  function LeadingSpace(ws: Whitespace, s: string): (n: nat)
    ensures n <= |s|
    ensures forall i :: 0 <= i < n ==> IsSpace(ws, s[i])
    ensures n < |s| ==> !IsSpace(ws, s[n])
  {
    if |s| == 0 || !IsSpace(ws, s[0]) then 0 else 1 + LeadingSpace(ws, s[1..])
  }

  /** Length of the run of whitespace at the end of `s`. */
  function TrailingSpace(ws: Whitespace, s: string): (n: nat)
    ensures n <= |s|
    ensures forall i :: |s| - n <= i < |s| ==> IsSpace(ws, s[i])
    ensures n < |s| ==> !IsSpace(ws, s[|s| - 1 - n])
  {
    if |s| == 0 || !IsSpace(ws, s[|s| - 1]) then 0 else 1 + TrailingSpace(ws, s[..|s| - 1])
  }

  /** Python's `str.strip()` (ws == Python) and JavaScript's `trim()` (ws == JavaScript). */
  function Strip(ws: Whitespace, s: string): (r: string)
    ensures |r| <= |s|
    ensures r == [] <==> IsBlank(ws, s)
    ensures r != [] ==> !IsSpace(ws, r[0]) && !IsSpace(ws, r[|r| - 1])
  {
    var rest := s[LeadingSpace(ws, s)..];
    rest[..|rest| - TrailingSpace(ws, rest)]
  }

  /** Stripping a string that neither starts nor ends with whitespace leaves it alone. */
  lemma StripUnchanged(ws: Whitespace, s: string)
    requires s != [] ==> !IsSpace(ws, s[0]) && !IsSpace(ws, s[|s| - 1])
    ensures Strip(ws, s) == s
  {
  }

  /** Surrounding whitespace does not change the stripped text. */
  lemma {:induction false} StripPadded(ws: Whitespace, pre: string, s: string, post: string)
    requires IsBlank(ws, pre) && IsBlank(ws, post)
    ensures Strip(ws, pre + s + post) == Strip(ws, s)
  {
    if IsBlank(ws, s) {
      BlankConcat(ws, pre, s, post);
    } else {
      var t := pre + s + post;
      var a := LeadingSpace(ws, s);
      LeadingAfterBlank(ws, pre, s, post);
      assert LeadingSpace(ws, t) == |pre| + a;
      StripVisibleStep(ws, pre, s, post, a);
      var rest := s[a..];
      assert t[LeadingSpace(ws, t)..] == rest + post;
      TrailingAfterBlank(ws, rest, post);
      assert Strip(ws, s) == rest[..|rest| - TrailingSpace(ws, rest)];
    }
  }

  lemma BlankConcat(ws: Whitespace, pre: string, s: string, post: string)
    requires IsBlank(ws, pre) && IsBlank(ws, s) && IsBlank(ws, post)
    ensures IsBlank(ws, pre + s + post)
  {
    var t := pre + s + post;
    forall i | 0 <= i < |t| ensures IsSpace(ws, t[i]) {
      if i < |pre| { assert t[i] == pre[i]; }
      else if i < |pre| + |s| { assert t[i] == s[i - |pre|]; }
      else { assert t[i] == post[i - |pre| - |s|]; }
    }
  }

  lemma StripVisibleStep(ws: Whitespace, pre: string, s: string, post: string, a: nat)
    requires a <= |s|
    ensures (pre + s + post)[|pre| + a..] == s[a..] + post
  {
  }

  lemma {:induction false} LeadingAfterBlank(ws: Whitespace, pre: string, s: string, post: string)
    requires IsBlank(ws, pre) && IsBlank(ws, post)
    ensures LeadingSpace(ws, pre + s + post) ==
            if IsBlank(ws, s) then |pre| + |s| + LeadingSpace(ws, post) else |pre| + LeadingSpace(ws, s)
  {
    if pre == [] {
      assert pre + s + post == s + post;
      LeadingInPrefix(ws, s, post);
    } else {
      assert (pre + s + post)[1..] == pre[1..] + s + post;
      LeadingAfterBlank(ws, pre[1..], s, post);
    }
  }

  lemma {:induction false} LeadingInPrefix(ws: Whitespace, s: string, post: string)
    requires IsBlank(ws, post)
    ensures LeadingSpace(ws, s + post) ==
            if IsBlank(ws, s) then |s| + LeadingSpace(ws, post) else LeadingSpace(ws, s)
  {
    if s == [] {
      assert s + post == post;
    } else if IsSpace(ws, s[0]) {
      assert (s + post)[1..] == s[1..] + post;
      LeadingInPrefix(ws, s[1..], post);
    }
  }

  lemma {:induction false} TrailingAfterBlank(ws: Whitespace, s: string, post: string)
    requires IsBlank(ws, post)
    ensures var t := s + post; t[..|t| - TrailingSpace(ws, t)] == s[..|s| - TrailingSpace(ws, s)]
  {
    if post == [] {
      assert s + post == s;
    } else {
      var t := s + post;
      assert t[..|t| - 1] == s + post[..|post| - 1];
      TrailingAfterBlank(ws, s, post[..|post| - 1]);
    }
  }

  /** Blank text after a string does not change its stripped form. */
  lemma StripTrailingPadding(ws: Whitespace, v: string, post: string)
    requires IsBlank(ws, post)
    ensures Strip(ws, v + post) == Strip(ws, v)
  {
    StripPadded(ws, "", v, post);
    assert "" + v + post == v + post;
  }

  /** Blank text before or after a string does not change its stripped form. */
  lemma StripEitherPadding(ws: Whitespace, pre: string, v: string, post: string)
    requires IsBlank(ws, pre) && IsBlank(ws, post)
    ensures Strip(ws, v + post) == Strip(ws, pre + v)
  {
    StripTrailingPadding(ws, v, post);
    assert Strip(ws, pre + v) == Strip(ws, v) by {
      StripPadded(ws, pre, v, "");
      assert pre + v + "" == pre + v;
    }
  }

  /** The leading run, with a space in front of it, is blank. */
  lemma LeadingIsBlank(ws: Whitespace, s: string)
    ensures IsBlank(ws, s[..LeadingSpace(ws, s)])
    ensures IsBlank(ws, " " + s[..LeadingSpace(ws, s)])
  {
    var p := s[..LeadingSpace(ws, s)];
    assert forall i :: 0 <= i < |p| ==> p[i] == s[i];
    assert forall i :: 1 <= i < |p| + 1 ==> (" " + p)[i] == p[i - 1];
  }

  /** The trailing run is blank. */
  lemma TrailingIsBlank(ws: Whitespace, s: string)
    ensures IsBlank(ws, s[|s| - TrailingSpace(ws, s)..])
  {
    var m := TrailingSpace(ws, s);
    var b := s[|s| - m..];
    assert forall i :: 0 <= i < |b| ==> b[i] == s[|s| - m + i];
  }

  /** A string is its two halves around any cut. */
  lemma SplitAt(s: string, k: nat)
    requires k <= |s|
    ensures s[..k] + s[k..] == s && "" + s[..k] + s[k..] == s
  {
  }

  /** A strip that finds nothing to remove at either end returns the argument. */
  lemma StripOfStripped(ws: Whitespace, s: string)
    ensures Strip(ws, Strip(ws, s)) == Strip(ws, s)
  {
    StripUnchanged(ws, Strip(ws, s));
  }

  /** Upper-casing of one ASCII letter; every other character is left alone. */
  function UpperChar(c: char): char {
    if 'a' <= c <= 'z' then (c as int - 32) as char else c
  }

  function LowerChar(c: char): char {
    if 'A' <= c <= 'Z' then (c as int + 32) as char else c
  }

  /** `str.upper()` restricted to ASCII letters. */
  function Upper(s: string): (r: string)
    ensures |r| == |s|
  {
    seq(|s|, i requires 0 <= i < |s| => UpperChar(s[i]))
  }

  /** `str.lower()` restricted to ASCII letters. */
  function Lower(s: string): (r: string)
    ensures |r| == |s|
  {
    seq(|s|, i requires 0 <= i < |s| => LowerChar(s[i]))
  }

  /** Upper-casing forgets the original case: the two spellings of a text map to one upper-case form. */
  lemma UpperForgetsCase(s: string)
    ensures Upper(Lower(s)) == Upper(s)
    ensures Upper(Upper(s)) == Upper(s)
  {
  }

  predicate StartsWith(s: string, prefix: string) {
    |prefix| <= |s| && s[..|prefix|] == prefix
  }

  /** Python's `pat in s` and JavaScript's substring containment. */
  predicate Contains(s: string, pat: string)
  {
    StartsWith(s, pat) || (|s| > 0 && Contains(s[1..], pat))
  }

  /** `pat` occurs in `s` starting at index `i`. */
  ghost predicate OccursAt(s: string, pat: string, i: int) {
    0 <= i <= |s| - |pat| && s[i..i + |pat|] == pat
  }

  /** The recursive containment test finds exactly the occurrences at some index. */
  lemma {:induction false} ContainsAt(s: string, pat: string)
    ensures Contains(s, pat) <==> exists i :: OccursAt(s, pat, i)
  {
    if StartsWith(s, pat) {
      assert OccursAt(s, pat, 0);
    } else if |s| > 0 {
      ContainsAt(s[1..], pat);
      if Contains(s[1..], pat) {
        var i :| OccursAt(s[1..], pat, i);
        assert s[i + 1..i + 1 + |pat|] == s[1..][i..i + |pat|];
        assert OccursAt(s, pat, i + 1);
      }
      if exists i :: OccursAt(s, pat, i) {
        var i :| OccursAt(s, pat, i);
        assert i != 0;
        assert OccursAt(s[1..], pat, i - 1);
      }
    }
  }

  /**
   * Number of words Python's `len(s.split())` reports: maximal runs of
   * non-whitespace characters. `afterSpace` says whether the previous
   * character was whitespace (or absent).
   */
  function WordsFrom(s: string, afterSpace: bool): nat
  {
    if |s| == 0 then 0
    else (if afterSpace && !IsSpace(Python, s[0]) then 1 else 0) + WordsFrom(s[1..], IsSpace(Python, s[0]))
  }

  function WordCount(s: string): nat {
    WordsFrom(s, true)
  }

  /** A blank sentence has no words, and a sentence with a visible character has at least one. */
  lemma {:induction false} WordCountZeroIffBlank(s: string, afterSpace: bool)
    ensures WordsFrom(s, afterSpace) == 0 ==> IsBlank(Python, s) || !afterSpace
    ensures afterSpace ==> (WordsFrom(s, afterSpace) == 0 <==> IsBlank(Python, s))
  {
    if |s| > 0 {
      WordCountZeroIffBlank(s[1..], IsSpace(Python, s[0]));
      if !afterSpace && IsSpace(Python, s[0]) && WordsFrom(s, afterSpace) == 0 {
        assert IsBlank(Python, s[1..]);
      }
    }
  }

  /** Value of one decimal digit. */
  function DigitValue(c: char): (d: nat)
    requires IsDigit(c)
    ensures d < 10
  {
    c as int - '0' as int
  }

  function DigitChar(d: nat): (c: char)
    requires d < 10
    ensures IsDigit(c) && DigitValue(c) == d
  {
    (d + '0' as int) as char
  }

  predicate AllDigits(s: string) {
    forall i :: 0 <= i < |s| ==> IsDigit(s[i])
  }

  /** Decimal value of a run of digits (JavaScript's `parseInt` on `\d+`). */
  function DigitsValue(s: string): nat
    requires AllDigits(s)
  {
    if |s| == 0 then 0 else 10 * DigitsValue(s[..|s| - 1]) + DigitValue(s[|s| - 1])
  }

  /** Decimal digits of a natural number, without leading zeros. */
  function ShowNat(n: nat): (r: string)
    ensures |r| > 0 && AllDigits(r)
    ensures r[0] != '0' || n == 0
  {
    if n < 10 then [DigitChar(n)] else ShowNat(n / 10) + [DigitChar(n % 10)]
  }

  /** Python's `str(n)` for an integer, with the minus sign of a negative value. */
  function ShowInt(n: int): (r: string)
    ensures |r| > 0
  {
    if n < 0 then "-" + ShowNat(-n) else ShowNat(n)
  }

  /** Parsing the decimal rendering of a natural number gives the number back. */
  lemma {:induction false} ParseShowNat(n: nat)
    ensures DigitsValue(ShowNat(n)) == n
  {
    if n >= 10 {
      ParseShowNat(n / 10);
      var r := ShowNat(n);
      assert r[..|r| - 1] == ShowNat(n / 10);
    }
  }
}
