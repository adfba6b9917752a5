/**
 * The few operations of Python's `str` type that the parsers and the bot
 * rely on, over `string` (a sequence of Unicode scalar values).
 */
module Text {
  import opened Wrappers

  /** The no-break space U+00A0, which both parsers turn into a plain space. */
  const NBSP: char := '\U{A0}'

  /** `c.isspace()`: the characters Python counts as whitespace, hence what `strip()` and `split()` remove. */
  predicate IsSpace(c: char) {
    || c == ' '
    || ('\t' <= c <= '\r')
    || ('\U{1C}' <= c <= '\U{1F}')
    || c == '\U{85}' || c == '\U{A0}' || c == '\U{1680}'
    || ('\U{2000}' <= c <= '\U{200A}')
    || c == '\U{2028}' || c == '\U{2029}' || c == '\U{202F}' || c == '\U{205F}' || c == '\U{3000}'
  }

  /** Neither end of `s` is whitespace. */
  predicate Trimmed(s: string) {
    s == [] || (!IsSpace(s[0]) && !IsSpace(s[|s| - 1]))
  }

  /** The first index at or after `i` that does not hold whitespace. */
  function SkipSpaces(s: string, i: nat): (r: nat)
    requires i <= |s|
    ensures i <= r <= |s|
    ensures forall k :: i <= k < r ==> IsSpace(s[k])
    ensures r < |s| ==> !IsSpace(s[r])
    decreases |s| - i
  {
    if i == |s| || !IsSpace(s[i]) then i else SkipSpaces(s, i + 1)
  }

  /** The smallest `r >= lo` such that `s[r..j]` is all whitespace. */
  function BackOverSpaces(s: string, lo: nat, j: nat): (r: nat)
    requires lo <= j <= |s|
    ensures lo <= r <= j
    ensures forall k :: r <= k < j ==> IsSpace(s[k])
    ensures r > lo ==> !IsSpace(s[r - 1])
    decreases j
  {
    if j == lo || !IsSpace(s[j - 1]) then j else BackOverSpaces(s, lo, j - 1)
  }

  /**
   * The window that `s.strip()` keeps: everything outside it is whitespace
   * and a non-empty window starts and ends with a non-whitespace character.
   */
  function StripBounds(s: string): (w: (nat, nat))
    ensures w.0 <= w.1 <= |s|
    ensures forall k :: 0 <= k < w.0 ==> IsSpace(s[k])
    ensures forall k :: w.1 <= k < |s| ==> IsSpace(s[k])
    ensures w.0 < w.1 ==> !IsSpace(s[w.0]) && !IsSpace(s[w.1 - 1])
  {
    var a := SkipSpaces(s, 0);
    (a, BackOverSpaces(s, a, |s|))
  }

  /** `s.strip()`. */
  function Strip(s: string): (r: string)
    ensures Trimmed(r)
    ensures |r| <= |s|
    ensures (forall k :: 0 <= k < |s| ==> IsSpace(s[k])) <==> r == []
    ensures PaddedAt(s, r, SkipSpaces(s, 0))
  {
    var w := StripBounds(s);
    assert PaddedAt(s, s[w.0..w.1], w.0);
    s[w.0..w.1]
  }

  /** `s` is `r` with only whitespace around it, `r` starting at index `i`. */
  predicate PaddedAt(s: string, r: string, i: nat) {
    && i + |r| <= |s| && s[i..i + |r|] == r
    && (forall k :: 0 <= k < i ==> IsSpace(s[k]))
    && (forall k :: i + |r| <= k < |s| ==> IsSpace(s[k]))
  }

  /** Stripping a string whose ends are not whitespace changes nothing. */
  lemma StripTrimmed(s: string)
    requires Trimmed(s)
    ensures Strip(s) == s
  {
    var w := StripBounds(s);
    if s != [] {
      assert w.0 == 0;
      assert w.1 == |s|;
    }
  }

  /** `s.replace("\xa0", " ")`. */
  function ReplaceNbsp(s: string): (r: string)
    ensures |r| == |s|
    ensures forall k :: 0 <= k < |s| ==> r[k] == if s[k] == NBSP then ' ' else s[k]
  {
    if s == [] then [] else [if s[0] == NBSP then ' ' else s[0]] + ReplaceNbsp(s[1..])
  }

  /**
   * `s.strip().replace("\xa0", " ")`, the clean-up both parsers apply to
   * free text: no no-break space is left and neither end is whitespace.
   */
  function Clean(s: string): (r: string)
    ensures NBSP !in r
    ensures Trimmed(r)
    ensures |r| == |Strip(s)|
    ensures forall k :: 0 <= k < |r| ==> r[k] == if Strip(s)[k] == NBSP then ' ' else Strip(s)[k]
  {
    var t := Strip(s);
    ReplaceNbspTrimmed(t);
    ReplaceNbsp(t)
  }

  /** Replacing the no-break spaces of a trimmed text leaves none, and the text stays trimmed. */
  lemma ReplaceNbspTrimmed(t: string)
    requires Trimmed(t)
    ensures NBSP !in ReplaceNbsp(t) && Trimmed(ReplaceNbsp(t))
  {
    var r := ReplaceNbsp(t);
    assert forall k :: 0 <= k < |r| ==> r[k] != NBSP;
  }

  /** Cleaning is idempotent. */
  lemma CleanIdempotent(s: string)
    ensures Clean(Clean(s)) == Clean(s)
  {
    var c := Clean(s);
    StripTrimmed(c);
    assert ReplaceNbsp(c) == c;
  }

  // ----- digits and integers -----

  predicate IsDigit(c: char) { '0' <= c <= '9' }

  predicate AllDigits(s: string) { forall k :: 0 <= k < |s| ==> IsDigit(s[k]) }

  function DigitChar(d: nat): (c: char)
    requires d < 10
    ensures IsDigit(c) && (c as int) - ('0' as int) == d
  {
    ('0' as int + d) as char
  }

  /** The value of a decimal digit string, as `int()` reads it; the empty string reads as 0. */
  function DigitsValue(s: string): nat
    requires AllDigits(s)
  {
    if s == [] then 0 else 10 * DigitsValue(s[..|s| - 1]) + ((s[|s| - 1] as int) - ('0' as int))
  }

  /** `str(n)` for a non-negative `n`: decimal digits without leading zeros, reading back as `n`. */
  function NatToString(n: nat): (s: string)
    ensures |s| > 0 && AllDigits(s)
    ensures DigitsValue(s) == n
    ensures s[0] == '0' ==> n == 0 && s == "0"
  {
    if n < 10 then [DigitChar(n)]
    else
      var p := NatToString(n / 10);
      var s := p + [DigitChar(n % 10)];
      assert s[..|s| - 1] == p;
      s
  }

  /** `str(i)` / f"{i}" for any integer. */
  function IntToString(i: int): (s: string)
    ensures |s| > 0
    ensures i >= 0 ==> s == NatToString(i)
    ensures i < 0 ==> s == "-" + NatToString(-i)
  {
    if i < 0 then "-" + NatToString(-i) else NatToString(i)
  }

  /**
   * `int(s)` on a string: surrounding whitespace, an optional sign and at
   * least one decimal digit; anything else raises ValueError (None here).
   */
  function ParseInt(s: string): (r: Option<int>)
    ensures r.Some? ==> Strip(s) != []
  {
    ParseStripped(Strip(s))
  }

  /** `int` once the surrounding whitespace is gone: an optional sign and at least one digit. */
  function ParseStripped(t: string): (r: Option<int>)
    ensures r.Some? ==> t != []
  {
    if t == [] then None
    else
      var neg := t[0] == '-';
      var digits := if t[0] == '-' || t[0] == '+' then t[1..] else t;
      if digits == [] || !AllDigits(digits) then None
      else
        var v: int := DigitsValue(digits);
        Some(if neg then -v else v)
  }

  /** `int(str(i)) == i`. */
  lemma ParseIntRoundTrip(i: int)
    ensures ParseInt(IntToString(i)) == Some(i)
  {
    var s := IntToString(i);
    var n := if i < 0 then -i else i;
    var d := NatToString(n);
    assert Trimmed(s) by {
      assert !IsSpace(s[0]);
      assert s[|s| - 1] == d[|d| - 1];
    }
    StripTrimmed(s);
    ParseStrippedRoundTrip(i);
  }

  /** The decimal text of `i` parses back to `i`. */
  lemma ParseStrippedRoundTrip(i: int)
    ensures ParseStripped(IntToString(i)) == Some(i)
  {
    var s := IntToString(i);
    var n := if i < 0 then -i else i;
    var d := NatToString(n);
    if i < 0 {
      assert s[0] == '-';
      assert s[1..] == d;
    } else {
      assert s == d && IsDigit(s[0]);
    }
  }

  // ----- substrings -----

  predicate StartsWith(s: string, prefix: string) {
    |prefix| <= |s| && s[..|prefix|] == prefix
  }

  predicate OccursAt(s: string, pat: string, i: nat) {
    i + |pat| <= |s| && s[i..i + |pat|] == pat
  }

  /** `pat in s`. */
  predicate Contains(s: string, pat: string) {
    exists i :: 0 <= i <= |s| && OccursAt(s, pat, i)
  }

  /**
   * The text after the last separator that a left-to-right, non-overlapping
   * `s.split(sep)` finds, or None when `sep` does not occur.
   */
  function AfterLastSeparator(s: string, sep: string): Option<string>
    requires |sep| > 0
    decreases |s|
  {
    if |s| < |sep| then None
    else if s[..|sep|] == sep then Some(AfterLastSeparator(s[|sep|..], sep).GetOr(s[|sep|..]))
    else AfterLastSeparator(s[1..], sep)
  }

  /** Without an occurrence of the separator there is no last separator. */
  lemma {:induction false} AfterLastSeparatorAbsent(s: string, sep: string)
    requires |sep| > 0 && !Contains(s, sep)
    ensures AfterLastSeparator(s, sep) == None
    decreases |s|
  {
    if |s| >= |sep| {
      assert !OccursAt(s, sep, 0);
      assert !Contains(s[1..], sep) by {
        forall i | 0 <= i <= |s[1..]| ensures !OccursAt(s[1..], sep, i) {
          assert !OccursAt(s, sep, i + 1);
          if i + |sep| <= |s[1..]| { assert s[1..][i..i + |sep|] == s[i + 1..i + 1 + |sep|]; }
        }
      }
      AfterLastSeparatorAbsent(s[1..], sep);
    }
  }

  /** A string that starts with the separator and has no other occurrence splits into the separator and the rest. */
  lemma LastPieceAfterSeparator(sep: string, rest: string)
    requires |sep| > 0 && !Contains(rest, sep)
    ensures LastPiece(sep + rest, sep) == rest
  {
    var s := sep + rest;
    AfterLastSeparatorAbsent(rest, sep);
    assert s[..|sep|] == sep;
    assert s[|sep|..] == rest;
  }

  /** `s.split(sep)[-1]`: the last piece, which is the whole string when `sep` does not occur. */
  function LastPiece(s: string, sep: string): string
    requires |sep| > 0
  {
    AfterLastSeparator(s, sep).GetOr(s)
  }

  /** The first index at or after `i` holding whitespace. */
  function SkipWord(s: string, i: nat): (r: nat)
    requires i <= |s|
    ensures i <= r <= |s|
    ensures forall k :: i <= k < r ==> !IsSpace(s[k])
    ensures r < |s| ==> IsSpace(s[r])
    decreases |s| - i
  {
    if i == |s| || IsSpace(s[i]) then i else SkipWord(s, i + 1)
  }

  /** `s.split()[0]`: the first whitespace-delimited word; None where Python raises IndexError. */
  function FirstWord(s: string): (r: Option<string>)
    ensures r.None? <==> forall k :: 0 <= k < |s| ==> IsSpace(s[k])
    ensures r.Some? ==> r.value != [] && forall k :: 0 <= k < |r.value| ==> !IsSpace(r.value[k])
    ensures r.Some? ==> LeadingWordAt(s, r.value, SkipSpaces(s, 0))
  {
    var w := StripBounds(s);
    if w.0 == w.1 then None
    else
      var t := s[w.0..w.1];
      var j := SkipWord(t, 0);
      assert s[w.0..w.0 + j] == t[..j];
      assert j < |t| ==> s[w.0 + j] == t[j];
      assert LeadingWordAt(s, t[..j], w.0);
      Some(t[..j])
  }

  /** `w` occurs at index `i` of `s` with only whitespace before it and whitespace, or the end, after it. */
  predicate LeadingWordAt(s: string, w: string, i: nat) {
    && i + |w| <= |s| && s[i..i + |w|] == w
    && (forall k :: 0 <= k < i ==> IsSpace(s[k]))
    && (i + |w| == |s| || IsSpace(s[i + |w|]))
  }

  /** The first word of a space followed by a word is that word. */
  lemma FirstWordAfterSpace(w: string)
    requires w != [] && forall k :: 0 <= k < |w| ==> !IsSpace(w[k])
    ensures FirstWord(" " + w) == Some(w)
  {
    var s := " " + w;
    assert s[0] == ' ' && s[1] == w[0];
    assert SkipSpaces(s, 1) == 1;
    assert SkipSpaces(s, 0) == 1;
    assert s[|s| - 1] == w[|w| - 1];
    assert BackOverSpaces(s, 1, |s|) == |s|;
    assert s[1..] == w;
    assert Strip(s) == w;
    assert SkipWord(w, 0) == |w|;
    assert w[..|w|] == w;
  }

  /** `s.replace(pat, "")`: every occurrence found left to right without overlap is deleted. */
  function RemoveAll(s: string, pat: string): (r: string)
    ensures |r| <= |s|
    decreases |s|
  {
    if pat == [] || |s| < |pat| then s
    else if s[..|pat|] == pat then RemoveAll(s[|pat|..], pat)
    else [s[0]] + RemoveAll(s[1..], pat)
  }

  /** Removing a pattern that does not occur leaves the string unchanged. */
  lemma {:induction false} RemoveAllAbsent(s: string, pat: string)
    requires !Contains(s, pat)
    ensures RemoveAll(s, pat) == s
    decreases |s|
  {
    if pat != [] && |s| >= |pat| {
      assert !OccursAt(s, pat, 0);
      assert !Contains(s[1..], pat) by {
        forall i | 0 <= i <= |s[1..]| ensures !OccursAt(s[1..], pat, i) {
          assert !OccursAt(s, pat, i + 1);
          if i + |pat| <= |s[1..]| { assert s[1..][i..i + |pat|] == s[i + 1..i + 1 + |pat|]; }
        }
      }
      RemoveAllAbsent(s[1..], pat);
    }
  }

  /**
   * Removing a pattern that occurs once, with no earlier occurrence starting
   * before it, leaves the text on either side of it.
   */
  lemma {:induction false} RemoveAllOnce(a: string, pat: string, b: string)
    requires pat != []
    requires forall i :: 0 <= i < |a| ==> !OccursAt(a + pat + b, pat, i)
    requires !Contains(b, pat)
    ensures RemoveAll(a + pat + b, pat) == a + b
    decreases |a|
  {
    var s := a + pat + b;
    if a == [] {
      assert s == pat + b;
      assert s[..|pat|] == pat && s[|pat|..] == b;
      RemoveAllAbsent(b, pat);
    } else {
      assert !OccursAt(s, pat, 0);
      var t := a[1..] + pat + b;
      assert s[1..] == t;
      forall i | 0 <= i < |a[1..]| ensures !OccursAt(t, pat, i) {
        OccursAtTail(s, pat, i);
      }
      RemoveAllOnce(a[1..], pat, b);
      assert [s[0]] + (a[1..] + b) == a + b;
    }
  }

  /** An occurrence in the tail is an occurrence one further on in the whole. */
  lemma OccursAtTail(s: string, pat: string, i: nat)
    requires s != []
    ensures OccursAt(s[1..], pat, i) <==> OccursAt(s, pat, i + 1)
  {
    if i + |pat| <= |s[1..]| {
      assert s[1..][i..i + |pat|] == s[i + 1..i + 1 + |pat|];
    }
  }

  /** `sep.join(parts)`. */
  function Join(parts: seq<string>, sep: string): string {
    if parts == [] then ""
    else if |parts| == 1 then parts[0]
    else Join(parts[..|parts| - 1], sep) + sep + parts[|parts| - 1]
  }

  /**
   * `c.isalnum()` for one character. Only ASCII letters and digits, the
   * Cyrillic letters U+0410 to U+044F, Ё and the Ukrainian letters Є, І, Ї
   * and Ґ (both cases) are modelled.
   */
  predicate IsAlnumChar(c: char) {
    || ('a' <= c <= 'z') || ('A' <= c <= 'Z') || IsDigit(c)
    || ('\U{410}' <= c <= '\U{44F}')
    || c == '\U{404}' || c == '\U{406}' || c == '\U{407}' || c == '\U{490}'
    || c == '\U{454}' || c == '\U{456}' || c == '\U{457}' || c == '\U{491}'
    || c == '\U{401}' || c == '\U{451}'
  }

  /** `s.isalnum()`: non-empty and made of alphanumeric characters only. */
  predicate IsAlnum(s: string) {
    |s| > 0 && forall k :: 0 <= k < |s| ==> IsAlnumChar(s[k])
  }
}
