/**
  The handful of Python `str` operations the context pipeline relies on:
  `isspace`, `strip`, `startswith`, `in`, ASCII `lower`, `join`, and the
  decimal rendering of a count.
 */
module Strings {
  import opened Wrappers

  /** Python's `str.isspace()`: the characters `\s` matches in a `str` pattern
      and the ones `str.strip()` removes. */
  predicate IsSpace(c: char) {
    var n := c as int;
    n == 32 || 9 <= n <= 13 || 28 <= n <= 31 || n == 0x85 || n == 0xA0 || n == 0x1680
    || 0x2000 <= n <= 0x200A || n == 0x2028 || n == 0x2029 || n == 0x202F || n == 0x205F
    || n == 0x3000
  }

  /** One of the two characters removed by `strip("'\"")`. */
  predicate IsQuote(c: char) {
    c == '\'' || c == '"'
  }

  /** Drops the leading characters that satisfy `drop`. */
  function TrimLeft(s: string, drop: char -> bool): (r: string)
    ensures |r| <= |s| && r == s[|s| - |r|..]
    ensures forall k :: 0 <= k < |s| - |r| ==> drop(s[k])
    ensures r == [] || !drop(r[0])
    decreases |s|
  {
    if |s| > 0 && drop(s[0]) then TrimLeft(s[1..], drop) else s
  }

  /** Drops the trailing characters that satisfy `drop`. */
  function TrimRight(s: string, drop: char -> bool): (r: string)
    ensures |r| <= |s| && r == s[..|r|]
    ensures forall k :: |r| <= k < |s| ==> drop(s[k])
    ensures r == [] || !drop(r[|r| - 1])
    decreases |s|
  {
    if |s| > 0 && drop(s[|s| - 1]) then TrimRight(s[..|s| - 1], drop) else s
  }

  /** `s.strip()` */
  function Strip(s: string): string {
    TrimRight(TrimLeft(s, IsSpace), IsSpace)
  }

  /** `s.strip("'\"")` */
  function StripQuotes(s: string): string {
    TrimRight(TrimLeft(s, IsQuote), IsQuote)
  }

  /** `s.startswith(p)` */
  predicate StartsWith(s: string, p: string) {
    |p| <= |s| && s[..|p|] == p
  }

  /** `p in s` for two strings. */
  predicate Contains(s: string, p: string)
    decreases |s|
  {
    StartsWith(s, p) || (|s| > 0 && Contains(s[1..], p))
  }

  /** An occurrence of `p` at index `i` makes `p in s` true. */
  lemma {:induction false} ContainsAt(s: string, p: string, i: nat)
    requires i + |p| <= |s| && s[i..i + |p|] == p
    ensures Contains(s, p)
    decreases i
  {
    if i > 0 {
      assert s[1..][i - 1..i - 1 + |p|] == s[i..i + |p|];
      ContainsAt(s[1..], p, i - 1);
    } else {
      assert s[..|p|] == p;
    }
  }

  /** An occurrence of `p` in a part of `t` is an occurrence in `t`. */
  lemma {:induction false} ContainsInfix(t: string, i: nat, j: nat, p: string)
    requires i <= j <= |t| && Contains(t[i..j], p)
    ensures Contains(t, p)
    decreases j - i
  {
    var s := t[i..j];
    if StartsWith(s, p) {
      assert t[i..i + |p|] == s[..|p|];
      ContainsAt(t, p, i);
    } else {
      assert s[1..] == t[i + 1..j];
      ContainsInfix(t, i + 1, j, p);
    }
  }

  /** An occurrence that makes `p in s` true. */
  lemma {:induction false} ContainsIndex(s: string, p: string) returns (k: nat)
    requires Contains(s, p)
    ensures k + |p| <= |s| && s[k..k + |p|] == p
    decreases |s|
  {
    if StartsWith(s, p) {
      k := 0;
    } else {
      var j := ContainsIndex(s[1..], p);
      k := j + 1;
      assert s[k..k + |p|] == s[1..][j..j + |p|];
    }
  }

  /** `p` occurs in `s` at index `k`. */
  predicate OccursAt(s: string, p: string, k: nat) {
    k + |p| <= |s| && s[k..k + |p|] == p
  }

  /** The first index at or after `i` where `p` occurs in `s`, or `|s|`. */
  function FindFrom(s: string, p: string, i: nat): (j: nat)
    requires |p| > 0 && i <= |s|
    ensures i <= j <= |s|
    ensures j < |s| ==> OccursAt(s, p, j)
    ensures forall k :: i <= k < j ==> !OccursAt(s, p, k)
    decreases |s| - i
  {
    if i == |s| then |s|
    else if OccursAt(s, p, i) then i
    else FindFrom(s, p, i + 1)
  }

  /** An occurrence in `q` is an occurrence in `a + q + z`, shifted by `|a|`. */
  lemma OccursInside(a: string, q: string, z: string, p: string, k: nat)
    requires OccursAt(q, p, k)
    ensures OccursAt(a + q + z, p, |a| + k)
  {
    assert (a + q + z)[|a| + k..|a| + k + |p|] == q[k..k + |p|];
  }

  /** When `q` does not hold `p`, and `z` is shorter than `p` and starts with
      a character `p` lacks, `p` does not occur in `a + q + z` after `a`. */
  lemma NoOccurrenceAfter(a: string, q: string, z: string, p: string)
    requires !Contains(q, p)
    requires 0 < |z| < |p| && z[0] !in p
    ensures forall k :: |a| <= k ==> !OccursAt(a + q + z, p, k)
  {
    var line := a + q + z;
    forall k | |a| <= k
      ensures !OccursAt(line, p, k)
    {
      if k + |p| <= |a| + |q| {
        assert q[k - |a|..k - |a| + |p|] == line[k..k + |p|];
        if OccursAt(line, p, k) {
          ContainsAt(q, p, k - |a|);
        }
      } else if k + |p| <= |line| {
        var m := |a| + |q| - k;
        assert line[|a| + |q|] == z[0];
        assert line[k..k + |p|][m] == z[0];
        assert line[k..k + |p|] != p;
      }
    }
  }

  /** `s.split(sep)[1]`: the text between the first and the second occurrence
      of `sep`, or after the first when there is no second; `None` where
      Python raises `IndexError`. */
  function SecondField(s: string, sep: string): Option<string>
    requires |sep| > 0
  {
    var a := FindFrom(s, sep, 0);
    if a == |s| then None else Some(s[a + |sep|..FindFrom(s, sep, a + |sep|)])
  }

  /** `p in s` is false when no two adjacent characters of `s` are the first
      two characters of `p`. */
  lemma {:induction false} PairAbsent(s: string, p: string)
    requires |p| >= 2
    requires forall k :: 0 <= k < |s| - 1 ==> s[k] != p[0] || s[k + 1] != p[1]
    ensures !Contains(s, p)
    decreases |s|
  {
    if |p| <= |s| {
      assert s[..|p|][0] == s[0] && s[..|p|][1] == s[1];
      assert p[0] == p[..|p|][0];
    }
    if |s| > 0 {
      PairAbsent(s[1..], p);
    }
  }

  /** Lower-cases the ASCII capitals only. */
  function LowerChar(c: char): char {
    if 'A' <= c <= 'Z' then (c as int + 32) as char else c
  }

  /** `s.lower()` restricted to ASCII capitals. */
  function Lower(s: string): string {
    seq(|s|, k requires 0 <= k < |s| => LowerChar(s[k]))
  }

  /** `sep.join(parts)` */
  function Join(parts: seq<string>, sep: string): string
    decreases |parts|
  {
    if |parts| == 0 then ""
    else if |parts| == 1 then parts[0]
    else parts[0] + sep + Join(parts[1..], sep)
  }

  /** `"".join(parts)` */
  function Concat(parts: seq<string>): string
    decreases |parts|
  {
    if parts == [] then "" else parts[0] + Concat(parts[1..])
  }

  lemma {:induction false} ConcatAppend(a: seq<string>, b: seq<string>)
    ensures Concat(a + b) == Concat(a) + Concat(b)
    decreases |a|
  {
    if a != [] {
      assert (a + b)[1..] == a[1..] + b;
      ConcatAppend(a[1..], b);
    } else {
      assert a + b == b;
    }
  }

  function DigitChar(d: nat): char
    requires d < 10
  {
    ('0' as int + d) as char
  }

  /** `str(n)` for a natural number. */
  function NatToString(n: nat): string
    decreases n
  {
    if n < 10 then [DigitChar(n)] else NatToString(n / 10) + [DigitChar(n % 10)]
  }
}
