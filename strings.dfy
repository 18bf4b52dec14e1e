/**
 * The JavaScript string operations the portfolio code relies on, on `seq<char>`:
 * `indexOf`, `includes`, `endsWith`, `substring` (with its clamping and swapping of
 * indices), `replace` with a string pattern (first occurrence only), `replace` with a
 * one-character global regular expression, and the decimal rendering of a number in
 * a template literal; with them, the sequence facts the other modules share.
 */
module Strings {

  /** `pat` occurs in `s` starting at index `i`. */
  predicate OccursAt(s: string, pat: string, i: nat) {
    i + |pat| <= |s| && s[i..i + |pat|] == pat
  }

  /** Search for the first occurrence of `pat` at index `from` or later. */
  function IndexFrom(s: string, pat: string, from: nat): (r: int)
    requires from <= |s|
    decreases |s| - from
    ensures r == -1 || (from <= r <= |s| && OccursAt(s, pat, r))
    ensures r != -1 ==> forall j: nat :: from <= j < r ==> !OccursAt(s, pat, j)
    ensures r == -1 ==> forall j: nat :: from <= j ==> !OccursAt(s, pat, j)
  {
    if OccursAt(s, pat, from) then from
    else if from == |s| then -1
    else IndexFrom(s, pat, from + 1)
  }

  /** JavaScript `s.indexOf(pat)`: the first index at which `pat` occurs, or -1. */
  function IndexOf(s: string, pat: string): (r: int)
    ensures r == -1 || (0 <= r <= |s| && OccursAt(s, pat, r))
    ensures r != -1 ==> forall j: nat :: j < r ==> !OccursAt(s, pat, j)
    ensures r == -1 <==> forall j: nat :: !OccursAt(s, pat, j)
  {
    IndexFrom(s, pat, 0)
  }

  /** An occurrence with no earlier occurrence is the one `indexOf` finds. */
  lemma IndexOfIsFirst(s: string, pat: string, i: nat)
    requires OccursAt(s, pat, i)
    requires forall j: nat :: j < i ==> !OccursAt(s, pat, j)
    ensures IndexOf(s, pat) == i
  {
    assert IndexOf(s, pat) != -1;
  }

  /** JavaScript `s.includes(pat)`. */
  function Includes(s: string, pat: string): (b: bool)
    ensures b <==> exists j: nat :: OccursAt(s, pat, j)
  {
    IndexOf(s, pat) >= 0
  }

  /** A one-character pattern occurs exactly where that character is. */
  lemma OccursAtChar(s: string, c: char, j: nat)
    ensures OccursAt(s, [c], j) <==> j < |s| && s[j] == c
  {
    if j < |s| {
      assert s[j..j + 1] == [s[j]];
    }
  }

  /** `indexOf` of a one-character pattern finds the first index holding that character. */
  lemma IndexOfChar(s: string, c: char)
    ensures IndexOf(s, [c]) == -1 <==> c !in s
    ensures IndexOf(s, [c]) != -1 ==>
      var i := IndexOf(s, [c]); i < |s| && s[i] == c && c !in s[..i]
  {
    var i := IndexOf(s, [c]);
    if i == -1 {
      forall j | 0 <= j < |s| ensures s[j] != c {
        OccursAtChar(s, c, j);
      }
    } else {
      OccursAtChar(s, c, i);
      forall j | 0 <= j < i ensures s[..i][j] != c {
        OccursAtChar(s, c, j);
      }
    }
  }

  /** JavaScript `s.endsWith(suffix)`. */
  predicate EndsWith(s: string, suffix: string) {
    |suffix| <= |s| && s[|s| - |suffix|..] == suffix
  }

  function Min(a: int, b: int): int { if a <= b then a else b }
  function Max(a: int, b: int): int { if a <= b then b else a }

  /** An index argument of `substring`, clamped to [0, n]. */
  function ClampIndex(i: int, n: nat): (r: nat)
    ensures r <= n
    ensures 0 <= i <= n ==> r == i
    ensures i < 0 ==> r == 0
    ensures i > n ==> r == n
  {
    if i < 0 then 0 else if i > n then n else i
  }

  /**
   * JavaScript `s.substring(start, end)`: both indices are clamped to [0, |s|] and
   * swapped when the first exceeds the second.
   */
  function Substring(s: string, start: int, end: int): (r: string)
    ensures 0 <= start <= end <= |s| ==> r == s[start..end]
    ensures end <= 0 ==> r == s[..ClampIndex(start, |s|)]
    ensures |r| <= |s|
  {
    var a, b := ClampIndex(start, |s|), ClampIndex(end, |s|);
    s[Min(a, b)..Max(a, b)]
  }

  /** JavaScript `s.substring(start)`: the suffix from the clamped index. */
  function SubstringFrom(s: string, start: int): (r: string)
    ensures r == s[ClampIndex(start, |s|)..]
  {
    Substring(s, start, |s|)
  }

  /**
   * JavaScript `s.replace(pat, rep)` with a string pattern: only the FIRST
   * occurrence of `pat` is replaced; `s` is returned unchanged when there is none.
   */
  function ReplaceFirst(s: string, pat: string, rep: string): (r: string)
    ensures IndexOf(s, pat) == -1 ==> r == s
    ensures IndexOf(s, pat) != -1 ==>
      var i := IndexOf(s, pat);
      |r| == |s| - |pat| + |rep| && r[..i] == s[..i] && r[i..i + |rep|] == rep && r[i + |rep|..] == s[i + |pat|..]
  {
    var i := IndexOf(s, pat);
    if i == -1 then s else s[..i] + rep + s[i + |pat|..]
  }

  /**
   * When `pat` first occurs in `prefix + pat` at the very end, it also first occurs
   * there in `prefix + pat + rest`, so `replace` swaps exactly that occurrence.
   */
  lemma ReplaceFirstAt(prefix: string, pat: string, rest: string, rep: string)
    requires IndexOf(prefix + pat, pat) == |prefix|
    ensures IndexOf(prefix + pat + rest, pat) == |prefix|
    ensures ReplaceFirst(prefix + pat + rest, pat, rep) == prefix + rep + rest
  {
    var s := prefix + pat + rest;
    assert (prefix + pat) + rest == s;
    assert s[|prefix|..|prefix| + |pat|] == pat;
    forall j: nat | j < |prefix| ensures !OccursAt(s, pat, j) {
      assert !OccursAt(prefix + pat, pat, j);
      assert s[j..j + |pat|] == (prefix + pat)[j..j + |pat|];
    }
    IndexOfIsFirst(s, pat, |prefix|);
    assert s[..|prefix|] == prefix;
    assert s[|prefix| + |pat|..] == rest;
  }

  /** JavaScript `s.replace(/c/g, d)` for single characters `c` and `d`. */
  function ReplaceAllChar(s: string, c: char, d: char): (r: string)
    ensures |r| == |s|
    ensures forall k :: 0 <= k < |s| ==> r[k] == if s[k] == c then d else s[k]
  {
    seq(|s|, k requires 0 <= k < |s| => if s[k] == c then d else s[k])
  }

  /** The characters of a decimal numeral. */
  predicate IsDigits(s: string) {
    forall k :: 0 <= k < |s| ==> '0' <= s[k] <= '9'
  }

  function DigitChar(d: nat): (c: char)
    requires d < 10
    ensures '0' <= c <= '9' && c as int - '0' as int == d
  {
    ('0' as int + d) as char
  }

  /** The decimal rendering of a non-negative integer, as `${n}` in a template literal. */
  function NatToString(n: nat): (r: string)
    decreases n
    ensures |r| >= 1 && IsDigits(r)
    ensures |r| > 1 ==> r[0] != '0'
  {
    if n < 10 then [DigitChar(n)] else NatToString(n / 10) + [DigitChar(n % 10)]
  }

  /** The value of a decimal numeral; the inverse of NatToString. */
  function DigitsValue(s: string): nat
    requires IsDigits(s)
  {
    if s == [] then 0
    else DigitsValue(s[..|s| - 1]) * 10 + (s[|s| - 1] as int - '0' as int)
  }

  lemma {:induction false} DigitsValueOfNatToString(n: nat)
    decreases n
    ensures DigitsValue(NatToString(n)) == n
  {
    if n >= 10 {
      DigitsValueOfNatToString(n / 10);
      var s := NatToString(n);
      assert s[..|s| - 1] == NatToString(n / 10);
    }
  }

  /** Different numbers render differently. */
  lemma NatToStringInjective(m: nat, n: nat)
    requires NatToString(m) == NatToString(n)
    ensures m == n
  {
    DigitsValueOfNatToString(m);
    DigitsValueOfNatToString(n);
  }

  /** `s` is `pre`, then the decimal digits of `n` without leading zeros, then `post`. */
  predicate DecimalBetween(s: string, pre: string, n: nat, post: string) {
    && |pre| + |post| < |s|
    && s[..|pre|] == pre
    && s[|s| - |post|..] == post
    && IsDigits(s[|pre|..|s| - |post|])
    && DigitsValue(s[|pre|..|s| - |post|]) == n
    && (|s| - |pre| - |post| > 1 ==> s[|pre|] != '0')
  }

  /** A number placed in a template literal between two fixed parts reads back from it. */
  lemma DecimalBetweenOf(pre: string, n: nat, post: string)
    ensures DecimalBetween(pre + NatToString(n) + post, pre, n, post)
  {
    var s := pre + NatToString(n) + post;
    assert s[..|pre|] == pre;
    assert s[|s| - |post|..] == post;
    assert s[|pre|..|s| - |post|] == NatToString(n);
    DigitsValueOfNatToString(n);
  }

  /** The fixed parts around a numeral determine the number it stands for. */
  lemma DecimalBetweenUnique(s: string, pre: string, m: nat, n: nat, post: string)
    requires DecimalBetween(s, pre, m, post) && DecimalBetween(s, pre, n, post)
    ensures m == n
  {
  }

  /** Concatenation regroups freely. */
  lemma ConcatAssoc<T>(a: seq<T>, b: seq<T>, c: seq<T>)
    ensures a + b + c == a + (b + c)
  {
  }

  /** The last element of a non-empty sequence. */
  function Last<T>(s: seq<T>): T
    requires |s| > 0
  {
    s[|s| - 1]
  }

  /** Equal strings that share a prefix have equal remainders. */
  lemma CancelPrefix(p: string, a: string, b: string)
    requires p + a == p + b
    ensures a == b
  {
    assert a == (p + a)[|p|..];
    assert b == (p + b)[|p|..];
  }

  /** Equal strings that share a suffix have equal beginnings. */
  lemma CancelSuffix(a: string, b: string, q: string)
    requires a + q == b + q
    ensures a == b
  {
    assert a == (a + q)[..|a|];
    assert b == (b + q)[..|b|];
  }

  /** Where the separator of the longer split lands in the shorter split's tail. */
  lemma SeparatorPosition(a: string, da: string, b: string, db: string, c: char)
    requires a + [c] + da == b + [c] + db
    requires |b| < |a|
    ensures db[|a| - |b| - 1] == c
  {
    var x := a + [c] + da;
    assert x[|a|] == c;
    assert x[|a|] == db[|a| - |b| - 1];
  }

  /**
   * A string that ends with a separator character followed by a tail free of that
   * character splits there in only one way.
   */
  lemma SplitAtLastChar(a: string, da: string, b: string, db: string, c: char)
    requires c !in da && c !in db
    requires a + [c] + da == b + [c] + db
    ensures a == b && da == db
    decreases if |da| < |db| then 0 else 1
  {
    var x := a + [c] + da;
    if |da| < |db| {
      SeparatorPosition(a, da, b, db, c);
    } else if |da| == |db| {
      assert a == x[..|a|] && b == x[..|b|];
      assert da == x[|a| + 1..] && db == x[|b| + 1..];
    } else {
      SplitAtLastChar(b, db, a, da, c);
    }
  }
}
