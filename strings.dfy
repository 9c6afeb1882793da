/** Sequence and string helpers shared by the other modules. */
module Strings {

  /** `p` occurs in `t` starting at index `i`. */
  predicate OccursAt(t: string, p: string, i: nat)
  {
    i + |p| <= |t| && t[i..i + |p|] == p
  }

  /** `p` occurs somewhere in `t`. */
  predicate Contains(t: string, p: string)
  {
    exists i: nat | i <= |t| :: OccursAt(t, p, i)
  }

  /** No character of `a` is a character of `b`. */
  predicate CharsDisjoint(a: string, b: string)
  {
    forall i :: 0 <= i < |a| ==> a[i] !in b
  }

  /** Lower-case letters, digits and dashes only. */
  predicate LowerText(t: string)
  {
    forall i :: 0 <= i < |t| ==> ('a' <= t[i] <= 'z') || ('0' <= t[i] <= '9') || t[i] == '-'
  }

  /** Upper-case letters and underscores only. */
  predicate UpperText(t: string)
  {
    forall i :: 0 <= i < |t| ==> ('A' <= t[i] <= 'Z') || t[i] == '_'
  }

  lemma LowerUpperDisjoint(a: string, b: string)
    requires LowerText(a) && UpperText(b)
    ensures CharsDisjoint(a, b)
  {
    forall i | 0 <= i < |a| ensures a[i] !in b {
      forall j | 0 <= j < |b| ensures b[j] != a[i] {
      }
    }
  }

  /** An occurrence inside `a + b` lies in `a`, lies in `b`, or covers the last character
      of `a` and the first character of `b`. */
  lemma OccursInConcat(a: string, b: string, p: string, i: nat)
    requires |p| > 0 && OccursAt(a + b, p, i)
    ensures || OccursAt(a, p, i)
            || (i >= |a| && OccursAt(b, p, i - |a|))
            || (i < |a| < i + |p| && a[|a| - 1] in p && b[0] in p)
  {
    var t := a + b;
    if i + |p| <= |a| {
      assert t[i..i + |p|] == a[i..i + |p|];
    } else if i >= |a| {
      assert t[i..i + |p|] == b[i - |a|..i - |a| + |p|];
    } else {
      assert p[|a| - 1 - i] == t[|a| - 1] == a[|a| - 1];
      assert p[|a| - i] == t[|a|] == b[0];
    }
  }

  /** An occurrence in `b` is an occurrence in `a + b`, shifted by `|a|`. */
  lemma OccursShift(a: string, b: string, p: string, i: nat)
    requires OccursAt(b, p, i)
    ensures OccursAt(a + b, p, |a| + i)
  {
    assert (a + b)[|a| + i..|a| + i + |p|] == b[i..i + |p|];
  }

  /** An occurrence in `a` is an occurrence in `a + b` at the same index. */
  lemma OccursExtend(a: string, b: string, p: string, i: nat)
    requires OccursAt(a, p, i)
    ensures OccursAt(a + b, p, i)
  {
    assert (a + b)[i..i + |p|] == a[i..i + |p|];
  }

  /** Occurrences in a suffix `s[m..]` are the occurrences in `s` from index `m` on. */
  lemma OccursInSuffix(s: string, m: nat, p: string, i: nat)
    requires m <= i && m <= |s|
    ensures OccursAt(s, p, i) <==> OccursAt(s[m..], p, i - m)
  {
    if i + |p| <= |s| {
      assert s[m..][i - m..i - m + |p|] == s[i..i + |p|];
    }
  }

  /** Occurrences in a prefix `s[..m]` are the occurrences in `s` that end by index `m`. */
  lemma OccursInPrefix(s: string, m: nat, p: string, i: nat)
    requires i + |p| <= m <= |s|
    ensures OccursAt(s, p, i) <==> OccursAt(s[..m], p, i)
  {
    assert s[..m][i..i + |p|] == s[i..i + |p|];
  }

  /** Dropping the first character shifts every later occurrence down by one. */
  lemma OccursInTail(s: string, p: string)
    requires s != []
    ensures forall j: nat :: 1 <= j ==> (OccursAt(s, p, j) <==> OccursAt(s[1..], p, j - 1))
  {
    forall j: nat | 1 <= j ensures OccursAt(s, p, j) <==> OccursAt(s[1..], p, j - 1) {
      OccursInSuffix(s, 1, p, j);
    }
  }

  /** Every character of an occurrence of `p` is a character of `p`. */
  lemma CharOfOccurrence(t: string, p: string, i: nat, m: int)
    ensures OccursAt(t, p, i) && i <= m < i + |p| ==> t[m] in p
  {
    if OccursAt(t, p, i) && i <= m < i + |p| {
      assert t[m] == t[i..i + |p|][m - i];
    }
  }

  /** A text lacking one of the characters of `p` does not contain `p`. */
  lemma MissingChar(t: string, p: string, k: nat)
    requires k < |p| && p[k] !in t
    ensures !Contains(t, p)
  {
    forall i: nat | i <= |t| ensures !OccursAt(t, p, i) {
      if i + |p| <= |t| {
        assert t[i..i + |p|][k] == t[i + k];
      }
    }
  }

  /** An occurrence of `p` inside an occurrence of `q` is an occurrence in `q`. */
  lemma OccursInside(t: string, q: string, i: nat, p: string, j: nat)
    ensures OccursAt(t, q, i) && OccursAt(t, p, j) && i <= j && j + |p| <= i + |q| ==>
      OccursAt(q, p, j - i)
  {
    if OccursAt(t, q, i) && OccursAt(t, p, j) && i <= j && j + |p| <= i + |q| {
      forall m | 0 <= m < |p| ensures q[j - i + m] == p[m] {
        assert q[j - i + m] == t[i..i + |q|][j - i + m] == t[j + m] == t[j..j + |p|][m];
      }
      assert q[j - i..j - i + |p|] == p;
    }
  }

  /** A common prefix cancels. */
  lemma AppendCancel(p: string, a: string, b: string)
    requires p + a == p + b
    ensures a == b
  {
    assert a == (p + a)[|p|..];
    assert b == (p + b)[|p|..];
  }

  /** A value missing from a sequence is missing from each of its slices. */
  lemma SliceLacks<T>(s: seq<T>, c: T, lo: nat, hi: nat)
    requires lo <= hi <= |s| && c !in s
    ensures c !in s[lo..hi]
  {
  }

  /** A prefix grows by the next element. */
  lemma PrefixExtend<T>(s: seq<T>, k: nat)
    requires k < |s|
    ensures s[..k] + [s[k]] == s[..k + 1]
  {
  }

  /** The first `n` characters, or all of `s` when it is shorter (JavaScript's `slice(0, n)`). */
  function Take(s: string, n: nat): (r: string)
    ensures |r| == if |s| < n then |s| else n
    ensures r <= s
  {
    if |s| < n then s else s[..n]
  }

  /** The last `n` characters, or all of `s` when it is shorter. */
  function TakeLast(s: string, n: nat): (r: string)
    ensures |r| == if |s| < n then |s| else n
    ensures s == s[..|s| - |r|] + r
  {
    if |s| < n then s else s[|s| - n..]
  }

  function DigitChar(d: nat): (c: char)
    requires d < 10
  {
    "0123456789"[d]
  }

  function DigitValue(c: char): nat
  {
    if '0' <= c <= '9' then (c as int - '0' as int) else 0
  }

  /** The decimal numeral of `n`, as JavaScript's template interpolation of an integer prints it. */
  function Decimal(n: nat): (r: string)
    ensures |r| >= 1
    ensures forall i :: 0 <= i < |r| ==> '0' <= r[i] <= '9'
    decreases n
  {
    if n < 10 then [DigitChar(n)] else Decimal(n / 10) + [DigitChar(n % 10)]
  }

  /** The value of a string of decimal digits. */
  function ParseDecimal(s: string): nat
  {
    if s == [] then 0 else 10 * ParseDecimal(s[..|s| - 1]) + DigitValue(s[|s| - 1])
  }

  /** Reading the numeral back gives the number, so distinct numbers have distinct numerals. */
  lemma {:induction false} DecimalRoundTrip(n: nat)
    ensures ParseDecimal(Decimal(n)) == n
    decreases n
  {
    if n >= 10 {
      var init := Decimal(n / 10);
      DecimalRoundTrip(n / 10);
      assert (init + [DigitChar(n % 10)])[..|init|] == init;
    }
  }
}
