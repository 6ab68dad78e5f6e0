/** The `java.lang.String` operations the source relies on, over `seq<char>`. */
module Strings {

  predicate StartsWith(s: string, prefix: string) {
    |prefix| <= |s| && s[..|prefix|] == prefix
  }

  predicate EndsWith(s: string, suffix: string) {
    |suffix| <= |s| && s[|s| - |suffix|..] == suffix
  }

  /** `pat` occurs in `s` starting at index `i`. */
  predicate OccursAt(s: string, pat: string, i: int) {
    0 <= i <= |s| - |pat| && s[i..i + |pat|] == pat
  }

  /** `s.contains(pat)`. */
  predicate Contains(s: string, pat: string) {
    exists i :: 0 <= i <= |s| && OccursAt(s, pat, i)
  }

  /** `s.replace(pat, rep)`: every occurrence of `pat`, scanning from the
      left and without overlaps, is replaced by `rep`. */
  function ReplaceAll(s: string, pat: string, rep: string): string
    requires pat != []
    decreases |s|
  {
    if |s| < |pat| then s
    else if s[..|pat|] == pat then rep + ReplaceAll(s[|pat|..], pat, rep)
    else [s[0]] + ReplaceAll(s[1..], pat, rep)
  }

  /** Without an occurrence of the pattern, `replace` changes nothing. */
  lemma {:induction false} ReplaceAllAbsent(s: string, pat: string, rep: string)
    requires pat != [] && !Contains(s, pat)
    ensures ReplaceAll(s, pat, rep) == s
    decreases |s|
  {
    if |s| >= |pat| {
      assert !OccursAt(s, pat, 0);
      if Contains(s[1..], pat) {
        var i :| 0 <= i <= |s[1..]| && OccursAt(s[1..], pat, i);
        assert s[1..][i..i + |pat|] == s[i + 1..i + 1 + |pat|];
        assert OccursAt(s, pat, i + 1);
      }
      ReplaceAllAbsent(s[1..], pat, rep);
    }
  }

  /** A pattern whose first character does not recur in it cannot straddle
      the boundary in front of a trailing copy of itself, so the trailing
      copy is replaced on its own. */
  lemma {:induction false} ReplaceAllTrailing(base: string, pat: string, rep: string)
    requires pat != []
    requires forall i :: 0 < i < |pat| ==> pat[i] != pat[0]
    ensures ReplaceAll(base + pat, pat, rep) == ReplaceAll(base, pat, rep) + rep
    decreases |base|
  {
    var s := base + pat;
    assert s[|base|] == pat[0];
    assert |base| < |pat| ==> s[..|pat|][|base|] == s[|base|];
    if base == [] {
      assert s[..|pat|] == pat && s[|pat|..] == [];
    } else if s[..|pat|] == pat {
      if |base| < |pat| {
        assert false;
      }
      assert base[..|pat|] == pat;
      assert s[|pat|..] == base[|pat|..] + pat;
      ReplaceAllTrailing(base[|pat|..], pat, rep);
    } else {
      assert s[1..] == base[1..] + pat;
      ReplaceAllTrailing(base[1..], pat, rep);
      if |base| >= |pat| {
        assert base[..|pat|] == s[..|pat|];
      }
    }
  }

  /** Decimal digit characters. */
  function DigitChar(d: nat): char
    requires d < 10
  {
    "0123456789"[d]
  }

  predicate IsDigit(ch: char) {
    '0' <= ch <= '9'
  }

  function DigitValue(ch: char): (d: nat)
    requires IsDigit(ch)
    ensures d < 10 && DigitChar(d) == ch
  {
    ch as int - '0' as int
  }

  /** The decimal text of a natural number, without leading zeros. */
  function NatToString(n: nat): (r: string)
    ensures |r| > 0 && forall i :: 0 <= i < |r| ==> IsDigit(r[i])
    decreases n
  {
    if n < 10 then [DigitChar(n)] else NatToString(n / 10) + [DigitChar(n % 10)]
  }

  /** `String.valueOf(int)` and `%d`: a minus sign before the digits of a
      negative number. */
  function IntToString(n: int): string {
    if n < 0 then "-" + NatToString(-n) else NatToString(n)
  }

  /** The value of a string of decimal digits. */
  function ParseNat(s: string): (r: nat)
    requires forall i :: 0 <= i < |s| ==> IsDigit(s[i])
    decreases |s|
  {
    if s == [] then 0 else ParseNat(s[..|s| - 1]) * 10 + DigitValue(s[|s| - 1])
  }

  /** Reading back the decimal text of a number gives the number. */
  lemma {:induction false} ParseNatToString(n: nat)
    ensures ParseNat(NatToString(n)) == n
    decreases n
  {
    var s := NatToString(n);
    if n >= 10 {
      ParseNatToString(n / 10);
      assert s[..|s| - 1] == NatToString(n / 10);
    }
  }

  /** Case folding as `equalsIgnoreCase` sees it when the other side is a
      lower-case ASCII word: Java compares `toUpperCase` and then
      `toLowerCase` of the two chars, so an ASCII capital matches its
      small letter, and four non-ASCII chars fold onto ASCII letters: the
      long s (U+017F) upper-cases to S, the dotless i (U+0131) to I, the
      dotted capital I (U+0130) lower-cases to i, and the Kelvin sign
      (U+212A) to k. */
  function FoldCase(ch: char): char {
    if 'A' <= ch <= 'Z' then (ch as int + 32) as char
    else if ch == '\U{017F}' then 's'
    else if ch == '\U{0131}' || ch == '\U{0130}' then 'i'
    else if ch == '\U{212A}' then 'k'
    else ch
  }

  /** `s.equalsIgnoreCase(word)` for a lower-case ASCII `word`. */
  predicate EqualsIgnoreCase(s: string, word: string) {
    |s| == |word| && forall i :: 0 <= i < |s| ==> FoldCase(s[i]) == word[i]
  }
}
