/** The operations of Python's `str` that the data-access layer and the pages use:
    `find`, `replace(old, new, 1)`, `replace(old, new)`, `count`, `join` and `str(int)`. */
module Strings {

  /** True when `pat` occurs in `s` starting at index `i`. */
  predicate OccursAt(s: string, pat: string, i: nat)
  {
    i + |pat| <= |s| && forall j :: 0 <= j < |pat| ==> s[i + j] == pat[j]
  }

  /** True when no character of `s` is `c`. */
  predicate Lacks(s: string, c: char)
  {
    forall i :: 0 <= i < |s| ==> s[i] != c
  }

  /** The leftmost occurrence of `pat` in `s` at or after `from`, or -1. */
  function FindFrom(s: string, pat: string, from: nat): (r: int)
    ensures r == -1 || from <= r
    ensures r != -1 ==> r + |pat| <= |s|
    decreases |s| - from
  {
    if |s| < from + |pat| then -1
    else if OccursAt(s, pat, from) then from
    else FindFrom(s, pat, from + 1)
  }

  /** `s.find(pat)`: the index of the leftmost occurrence, or -1. */
  function Find(s: string, pat: string): int
  {
    FindFrom(s, pat, 0)
  }

  /** `s.replace(pat, rep, 1)`: the leftmost occurrence replaced, if any. */
  function ReplaceFirst(s: string, pat: string, rep: string): string
  {
    var k := Find(s, pat);
    if k < 0 then s else s[..k] + rep + s[k + |pat|..]
  }

  /** `s.replace(pat, rep)`: every occurrence replaced, scanning left to right
      without overlaps. */
  function ReplaceAll(s: string, pat: string, rep: string): string
    requires |pat| > 0
    decreases |s|
  {
    var k := Find(s, pat);
    if k < 0 then s else s[..k] + rep + ReplaceAll(s[k + |pat|..], pat, rep)
  }

  /** `s.count(pat)`: the number of non-overlapping occurrences. */
  function Count(s: string, pat: string): nat
    requires |pat| > 0
    decreases |s|
  {
    var k := Find(s, pat);
    if k < 0 then 0 else 1 + Count(s[k + |pat|..], pat)
  }

  /** `sep.join(parts)`. */
  function Join(parts: seq<string>, sep: string): string
  {
    if |parts| == 0 then ""
    else if |parts| == 1 then parts[0]
    else parts[0] + sep + Join(parts[1..], sep)
  }

  /** `[x] * n`. */
  function Repeat(x: string, n: nat): (r: seq<string>)
    ensures |r| == n && forall i :: 0 <= i < n ==> r[i] == x
  {
    if n == 0 then [] else [x] + Repeat(x, n - 1)
  }

  function DigitChar(d: nat): (c: char)
    requires d < 10
    ensures '0' <= c <= '9'
  {
    ((('0' as int) + d) as char)
  }

  /** `str(n)` for a non-negative integer: decimal digits, no leading zeros. */
  function NatToString(n: nat): (r: string)
    ensures |r| >= 1
    ensures forall i :: 0 <= i < |r| ==> '0' <= r[i] <= '9'
    ensures n >= 10 ==> |r| >= 2
    decreases n
  {
    if n < 10 then [DigitChar(n)] else NatToString(n / 10) + [DigitChar(n % 10)]
  }

  /** `str(i)` for any integer. */
  function IntToString(i: int): (r: string)
    ensures |r| >= 1
    ensures r[0] == '-' <==> i < 0
  {
    if i < 0 then "-" + NatToString(-i) else NatToString(i)
  }

  // ---------------------------------------------------------------------------
  // Facts about the operations above.

  /** `FindFrom` finds the leftmost occurrence at or after `from`, and -1 only when
      there is none. */
  lemma {:induction false} FindFromLeftmost(s: string, pat: string, from: nat)
    ensures FindFrom(s, pat, from) == -1 ==> forall j: nat :: from <= j ==> !OccursAt(s, pat, j)
    ensures FindFrom(s, pat, from) != -1 ==> OccursAt(s, pat, FindFrom(s, pat, from))
    ensures FindFrom(s, pat, from) != -1 ==> forall j: nat :: from <= j < FindFrom(s, pat, from) ==> !OccursAt(s, pat, j)
    decreases |s| - from
  {
    if |s| >= from + |pat| && !OccursAt(s, pat, from) {
      FindFromLeftmost(s, pat, from + 1);
    }
  }

  /** `Find` is determined by the occurrences of `pat`. */
  lemma FindIs(s: string, pat: string, r: int)
    requires r == -1 ==> forall j: nat :: !OccursAt(s, pat, j)
    requires r != -1 ==> 0 <= r && OccursAt(s, pat, r) && forall j: nat :: j < r ==> !OccursAt(s, pat, j)
    ensures Find(s, pat) == r
  {
    FindFromLeftmost(s, pat, 0);
  }

  /** A string without the pattern's first character does not contain the pattern. */
  lemma FindAbsent(s: string, pat: string)
    requires |pat| > 0 && Lacks(s, pat[0])
    ensures Find(s, pat) == -1
  {
    forall j: nat
      ensures !OccursAt(s, pat, j)
    {
      if j + |pat| <= |s| {
        assert s[j + 0] != pat[0];
      }
    }
    FindIs(s, pat, -1);
  }

  /** A string that starts with the pattern finds it at 0. */
  lemma FindPrefix(s: string, pat: string)
    requires |pat| <= |s| && s[..|pat|] == pat
    ensures Find(s, pat) == 0
  {
    forall j | 0 <= j < |pat|
      ensures s[0 + j] == pat[j]
    {
      assert s[..|pat|][j] == s[j];
    }
    assert OccursAt(s, pat, 0);
  }

  /** An occurrence in `v` is an occurrence in `u + v`, shifted by `|u|`. */
  lemma OccursShift(u: string, v: string, pat: string, k: nat)
    requires OccursAt(v, pat, k)
    ensures OccursAt(u + v, pat, |u| + k)
  {
    var s := u + v;
    forall j | 0 <= j < |pat|
      ensures s[|u| + k + j] == pat[j]
    {
      assert s[|u| + k + j] == v[k + j];
    }
  }

  /** A pattern right after a stretch that lacks its first character is found there. */
  lemma FindAfter(u: string, v: string, pat: string)
    requires |pat| > 0 && Lacks(u, pat[0]) && |pat| <= |v| && v[..|pat|] == pat
    ensures Find(u + v, pat) == |u|
  {
    var s := u + v;
    forall j: nat | j < |u|
      ensures !OccursAt(s, pat, j)
    {
      if j + |pat| <= |s| {
        assert s[j + 0] == u[j] != pat[0];
      }
    }
    FindPrefix(v, pat);
    FindFromLeftmost(v, pat, 0);
    OccursShift(u, v, pat, 0);
    FindIs(s, pat, |u|);
  }

  lemma LacksConcat(a: string, b: string, c: char)
    requires Lacks(a, c) && Lacks(b, c)
    ensures Lacks(a + b, c)
  {
    forall i | 0 <= i < |a + b|
      ensures (a + b)[i] != c
    {
      if i >= |a| {
        assert (a + b)[i] == b[i - |a|];
      }
    }
  }

  /** For a two-character pattern, no occurrence crosses the boundary between `a` and `b`. */
  predicate NoStraddle(a: string, b: string, pat: string)
    requires |pat| == 2
  {
    !(|a| > 0 && |b| > 0 && a[|a| - 1] == pat[0] && b[0] == pat[1])
  }

  lemma FindConcat(a: string, b: string, pat: string)
    requires |pat| == 2 && NoStraddle(a, b, pat)
    ensures Find(a, pat) >= 0 ==> Find(a + b, pat) == Find(a, pat)
    ensures Find(a, pat) < 0 && Find(b, pat) >= 0 ==> Find(a + b, pat) == |a| + Find(b, pat)
    ensures Find(a, pat) < 0 && Find(b, pat) < 0 ==> Find(a + b, pat) == -1
  {
    var k, m := Find(a, pat), Find(b, pat);
    if k >= 0 {
      FindConcatLeft(a, b, pat, k);
    } else if m >= 0 {
      FindConcatRight(a, b, pat, m);
    } else {
      FindConcatNone(a, b, pat);
    }
  }

  /** An occurrence of `pat` in `a + b` that starts inside `a` lies inside `a`, or
      straddles the boundary. */
  lemma OccursLeft(a: string, b: string, pat: string, j: nat)
    requires |pat| == 2 && NoStraddle(a, b, pat) && j < |a|
    ensures OccursAt(a + b, pat, j) ==> OccursAt(a, pat, j)
  {
    var ab := a + b;
    OccursTwo(ab, pat, j);
    OccursTwo(a, pat, j);
    if j + 2 <= |a| {
      assert ab[j] == a[j] && ab[j + 1] == a[j + 1];
    } else if j + 2 <= |ab| {
      assert ab[j] == a[|a| - 1] && ab[j + 1] == b[0];
    }
  }

  /** For a two-character pattern an occurrence is two matching characters. */
  lemma OccursTwo(s: string, pat: string, j: nat)
    requires |pat| == 2
    ensures OccursAt(s, pat, j) <==> j + 2 <= |s| && s[j] == pat[0] && s[j + 1] == pat[1]
  {
    if j + 2 <= |s| && s[j] == pat[0] && s[j + 1] == pat[1] {
      forall t | 0 <= t < 2
        ensures s[j + t] == pat[t]
      {
        if t == 1 {
          assert s[j + t] == s[j + 1];
        }
      }
    }
    if OccursAt(s, pat, j) {
      assert s[j + 0] == pat[0] && s[j + 1] == pat[1];
    }
  }

  lemma OccursRight(a: string, b: string, pat: string, j: nat)
    requires |pat| == 2 && |a| <= j
    ensures OccursAt(a + b, pat, j) <==> OccursAt(b, pat, j - |a|)
  {
    var ab := a + b;
    OccursTwo(ab, pat, j);
    OccursTwo(b, pat, j - |a|);
    if j + 2 <= |ab| {
      assert ab[j] == b[j - |a|] && ab[j + 1] == b[j - |a| + 1];
    }
  }

  lemma FindConcatLeft(a: string, b: string, pat: string, k: nat)
    requires |pat| == 2 && Find(a, pat) == k
    ensures Find(a + b, pat) == k
  {
    FindFromLeftmost(a, pat, 0);
    var ab := a + b;
    forall j: nat | j <= k
      ensures OccursAt(ab, pat, j) <==> OccursAt(a, pat, j)
    {
      OccursTwo(ab, pat, j);
      OccursTwo(a, pat, j);
      assert ab[j] == a[j] && ab[j + 1] == a[j + 1];
    }
    FindIs(ab, pat, k);
  }

  lemma FindConcatRight(a: string, b: string, pat: string, m: nat)
    requires |pat| == 2 && NoStraddle(a, b, pat) && Find(a, pat) < 0 && Find(b, pat) == m
    ensures Find(a + b, pat) == |a| + m
  {
    FindFromLeftmost(a, pat, 0);
    FindFromLeftmost(b, pat, 0);
    var ab := a + b;
    forall j: nat | j < |a| + m
      ensures !OccursAt(ab, pat, j)
    {
      if j < |a| {
        OccursLeft(a, b, pat, j);
      } else {
        OccursRight(a, b, pat, j);
      }
    }
    OccursRight(a, b, pat, |a| + m);
    FindIs(ab, pat, |a| + m);
  }

  lemma FindConcatNone(a: string, b: string, pat: string)
    requires |pat| == 2 && NoStraddle(a, b, pat) && Find(a, pat) < 0 && Find(b, pat) < 0
    ensures Find(a + b, pat) == -1
  {
    FindFromLeftmost(a, pat, 0);
    FindFromLeftmost(b, pat, 0);
    var ab := a + b;
    forall j: nat
      ensures !OccursAt(ab, pat, j)
    {
      if j < |a| {
        OccursLeft(a, b, pat, j);
      } else {
        OccursRight(a, b, pat, j);
      }
    }
    FindIs(ab, pat, -1);
  }

  /** `ReplaceFirst` at a known first occurrence. */
  lemma ReplaceFirstAt(s: string, pat: string, rep: string, k: nat)
    requires Find(s, pat) == k
    ensures ReplaceFirst(s, pat, rep) == s[..k] + rep + s[k + |pat|..]
  {
    ReplaceFirstUnfold(s, pat, rep);
  }

  lemma ReplaceFirstUnfold(s: string, pat: string, rep: string)
    requires Find(s, pat) >= 0
    ensures ReplaceFirst(s, pat, rep) == s[..Find(s, pat)] + rep + s[Find(s, pat) + |pat|..]
  {
  }

  /** Replacing the first occurrence in a text that starts with it. */
  lemma ReplaceFirstHead(x: string, pat: string, rep: string)
    requires |pat| > 0
    ensures ReplaceFirst(pat + x, pat, rep) == rep + x
  {
    var s := pat + x;
    FindPrefix(s, pat);
    ReplaceFirstAt(s, pat, rep, 0);
    assert s[..0] == [] && s[|pat|..] == x;
  }

  /** An occurrence at `j` means `Find` succeeds, at `j` or earlier. */
  lemma FindSome(s: string, pat: string, j: nat)
    requires OccursAt(s, pat, j)
    ensures 0 <= Find(s, pat) <= j
  {
    FindFromLeftmost(s, pat, 0);
  }

  lemma SliceBefore(a: string, b: string, k: nat)
    requires k + 2 <= |a|
    ensures (a + b)[..k] == a[..k]
    ensures (a + b)[k + 2..] == a[k + 2..] + b
  {
  }

  lemma RegroupLeft(y: string, x: string, front: string, back: string, tail: string, rep: string, b: string)
    requires y == front + rep + tail
    requires tail == back + b
    requires x == front + rep + back
    ensures y == x + b
  {
  }

  lemma ReplaceFirstConcat(a: string, b: string, pat: string, rep: string)
    requires |pat| == 2 && NoStraddle(a, b, pat)
    ensures ReplaceFirst(a + b, pat, rep) ==
              if Find(a, pat) >= 0 then ReplaceFirst(a, pat, rep) + b
              else a + ReplaceFirst(b, pat, rep)
  {
    FindConcat(a, b, pat);
    var k, m := Find(a, pat), Find(b, pat);
    if k >= 0 {
      ReplaceFirstLeft(a, b, k, pat, rep);
    } else if m >= 0 {
      ReplaceFirstRight(a, b, m, pat, rep);
    }
  }

  lemma ReplaceFirstLeft(a: string, b: string, k: nat, pat: string, rep: string)
    requires |pat| == 2 && Find(a, pat) == k && Find(a + b, pat) == k
    ensures ReplaceFirst(a + b, pat, rep) == ReplaceFirst(a, pat, rep) + b
  {
    var ab := a + b;
    ReplaceFirstAt(a, pat, rep, k);
    ReplaceFirstAt(ab, pat, rep, k);
    SliceBefore(a, b, k);
    RegroupLeft(ReplaceFirst(ab, pat, rep), ReplaceFirst(a, pat, rep), a[..k], a[k + 2..], ab[k + 2..], rep, b);
  }

  lemma ReplaceFirstRight(a: string, b: string, m: nat, pat: string, rep: string)
    requires |pat| == 2 && Find(b, pat) == m && Find(a + b, pat) == |a| + m
    ensures ReplaceFirst(a + b, pat, rep) == a + ReplaceFirst(b, pat, rep)
  {
    var ab := a + b;
    ReplaceFirstAt(b, pat, rep, m);
    ReplaceFirstAt(ab, pat, rep, |a| + m);
    SliceAt(a, b, m, |a| + m, 2);
    Regroup(ReplaceFirst(b, pat, rep), ReplaceFirst(ab, pat, rep), ab[..|a| + m], b[m + 2..], a, b[..m], rep);
  }

  /** The tail left after the first occurrence in `a` still ends like `a`, so it does
      not straddle the boundary with `b` either. */
  lemma NoStraddleTail(a: string, b: string, pat: string, k: nat)
    requires |pat| == 2 && NoStraddle(a, b, pat) && k + 2 <= |a|
    ensures (a + b)[k + 2..] == a[k + 2..] + b
    ensures NoStraddle(a[k + 2..], b, pat)
  {
    var rest := a[k + 2..];
    assert |rest| > 0 ==> rest[|rest| - 1] == a[|a| - 1];
  }

  lemma {:induction false} ReplaceAllConcat(a: string, b: string, pat: string, rep: string)
    requires |pat| == 2 && NoStraddle(a, b, pat)
    ensures ReplaceAll(a + b, pat, rep) == ReplaceAll(a, pat, rep) + ReplaceAll(b, pat, rep)
    decreases |a|
  {
    FindConcat(a, b, pat);
    var ab, k := a + b, Find(a, pat);
    if k >= 0 {
      var rest := a[k + 2..];
      NoStraddleTail(a, b, pat, k);
      assert ab[..k] == a[..k];
      calc {
        ReplaceAll(ab, pat, rep);
        ab[..k] + rep + ReplaceAll(ab[k + 2..], pat, rep);
        a[..k] + rep + ReplaceAll(rest + b, pat, rep);
        { ReplaceAllConcat(rest, b, pat, rep); }
        a[..k] + rep + (ReplaceAll(rest, pat, rep) + ReplaceAll(b, pat, rep));
        (a[..k] + rep + ReplaceAll(rest, pat, rep)) + ReplaceAll(b, pat, rep);
      }
    } else {
      ReplaceAllRight(a, b, pat, rep);
    }
  }

  /** With no occurrence in `a`, replacing in `a + b` only touches `b`. */
  lemma ReplaceAllRight(a: string, b: string, pat: string, rep: string)
    requires |pat| == 2 && Find(a, pat) < 0
    requires Find(b, pat) >= 0 ==> Find(a + b, pat) == |a| + Find(b, pat)
    requires Find(b, pat) < 0 ==> Find(a + b, pat) == -1
    ensures ReplaceAll(a + b, pat, rep) == a + ReplaceAll(b, pat, rep)
  {
    var m := Find(b, pat);
    if m >= 0 {
      ReplaceAllAfter(a, b, m, pat, rep);
    }
  }

  lemma ReplaceAllAfter(a: string, b: string, m: nat, pat: string, rep: string)
    requires |pat| == 2 && Find(b, pat) == m && Find(a + b, pat) == |a| + m
    ensures ReplaceAll(a + b, pat, rep) == a + ReplaceAll(b, pat, rep)
  {
    var ab := a + b;
    ReplaceAllUnfold(b, pat, rep);
    ReplaceAllUnfold(ab, pat, rep);
    SliceAt(a, b, Find(b, pat), Find(ab, pat), |pat|);
    Regroup(ReplaceAll(b, pat, rep), ReplaceAll(ab, pat, rep), ab[..Find(ab, pat)],
            ReplaceAll(b[Find(b, pat) + |pat|..], pat, rep), a, b[..Find(b, pat)], rep);
  }

  lemma Regroup(x: string, y: string, x1: string, rest: string, a: string, mid: string, rep: string)
    requires x == mid + rep + rest
    requires y == x1 + rep + rest
    requires x1 == a + mid
    ensures y == a + x
  {
  }

  lemma ReplaceAllUnfold(s: string, pat: string, rep: string)
    requires |pat| > 0 && Find(s, pat) >= 0
    ensures ReplaceAll(s, pat, rep) == s[..Find(s, pat)] + rep + ReplaceAll(s[Find(s, pat) + |pat|..], pat, rep)
  {
  }

  /** Cutting `a + b` around a stretch of length `n` that starts at `kb` in `b`. */
  lemma SliceAt(a: string, b: string, kb: int, kab: int, n: nat)
    requires 0 <= kb && kb + n <= |b| && kab == |a| + kb
    ensures (a + b)[..kab] == a + b[..kb]
    ensures (a + b)[kab + n..] == b[kb + n..]
  {
  }

  lemma {:induction false} CountConcat(a: string, b: string, pat: string)
    requires |pat| == 2 && NoStraddle(a, b, pat)
    ensures Count(a + b, pat) == Count(a, pat) + Count(b, pat)
    decreases |a|
  {
    FindConcat(a, b, pat);
    var k := Find(a, pat);
    if k >= 0 {
      NoStraddleTail(a, b, pat, k);
      CountConcat(a[k + 2..], b, pat);
    } else {
      var m := Find(b, pat);
      if m >= 0 {
        assert (a + b)[|a| + m + 2..] == b[m + 2..];
      }
    }
  }

  /** `str` is injective on non-negative integers. */
  lemma {:induction false} NatToStringInjective(a: nat, b: nat)
    requires NatToString(a) == NatToString(b)
    ensures a == b
    decreases a
  {
    var sa, sb := NatToString(a), NatToString(b);
    if a < 10 && b < 10 {
      assert (DigitChar(a) as int) == (sa[0] as int) == (DigitChar(b) as int);
    } else if a >= 10 && b >= 10 {
      assert sa[|sa| - 1] == DigitChar(a % 10);
      assert sb[|sb| - 1] == DigitChar(b % 10);
      assert (DigitChar(a % 10) as int) == (DigitChar(b % 10) as int);
      assert sa[..|sa| - 1] == NatToString(a / 10);
      assert sb[..|sb| - 1] == NatToString(b / 10);
      NatToStringInjective(a / 10, b / 10);
    }
  }

  /** `str` is injective on all integers. */
  lemma IntToStringInjective(a: int, b: int)
    requires IntToString(a) == IntToString(b)
    ensures a == b
  {
    var sa, sb := IntToString(a), IntToString(b);
    if a < 0 && b < 0 {
      assert sa[1..] == NatToString(-a);
      assert sb[1..] == NatToString(-b);
      NatToStringInjective(-a, -b);
    } else if a >= 0 && b >= 0 {
      NatToStringInjective(a, b);
    }
  }
}
