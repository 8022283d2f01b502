/**
 * Generated parameter names: Python's f"{prefix}_{i}" for a non-negative
 * integer i, and the fact that different (prefix, i) give different names.
 */
module Naming {

  function DigitChar(d: nat): char
    requires d < 10
  {
    (48 + d) as char
  }

  predicate IsDigits(s: string)
  {
    forall k :: 0 <= k < |s| ==> '0' <= s[k] <= '9'
  }

  /** Decimal representation of n, as str(n) gives it (no leading zeros). */
  function NatToString(n: nat): (s: string)
    ensures |s| >= 1 && IsDigits(s)
    ensures n >= 10 <==> |s| >= 2
    decreases n
  {
    if n < 10 then [DigitChar(n)] else NatToString(n / 10) + [DigitChar(n % 10)]
  }

  lemma {:induction false} NatToStringInjective(a: nat, b: nat)
    requires NatToString(a) == NatToString(b)
    ensures a == b
    decreases a
  {
    var s := NatToString(a);
    if a >= 10 {
      assert b >= 10;
      var pa, pb := NatToString(a / 10), NatToString(b / 10);
      assert s == pa + [DigitChar(a % 10)] && s == pb + [DigitChar(b % 10)];
      assert DigitChar(a % 10) == s[|s| - 1] == DigitChar(b % 10);
      assert pa == s[..|s| - 1] == pb;
      NatToStringInjective(a / 10, b / 10);
    } else {
      assert b < 10;
      assert s[0] == DigitChar(a) && s[0] == DigitChar(b);
    }
  }

  /** f"{prefix}_{i}". */
  function Indexed(prefix: string, i: nat): string
  {
    prefix + "_" + NatToString(i)
  }

  /** Index of the last '_' in s, or -1 when there is none. */
  function LastSeparator(s: string): int
  {
    if s == [] then -1
    else if s[|s| - 1] == '_' then |s| - 1
    else LastSeparator(s[..|s| - 1])
  }

  lemma {:induction false} LastSeparatorBeforeDigits(p: string, d: string)
    requires IsDigits(d)
    ensures LastSeparator(p + "_" + d) == |p|
  {
    if d != [] {
      var init := d[..|d| - 1];
      assert (p + "_" + d)[..|p + "_" + d| - 1] == p + "_" + init;
      LastSeparatorBeforeDigits(p, init);
    }
  }

  /**
   * A generated name determines its prefix and its index: the separator is
   * the last '_' because the index is all digits.
   */
  lemma IndexedInjective(p: string, i: nat, q: string, j: nat)
    requires Indexed(p, i) == Indexed(q, j)
    ensures p == q && i == j
  {
    var s := Indexed(p, i);
    var di, dj := NatToString(i), NatToString(j);
    LastSeparatorBeforeDigits(p, di);
    LastSeparatorBeforeDigits(q, dj);
    assert p == s[..|p|] == q;
    assert di == s[|p| + 1..] == dj;
    NatToStringInjective(i, j);
  }

  /** ["prefix_0", ..., "prefix_{n-1}"]: `[f"{prefix}_{i}" for i in range(n)]`; empty when n <= 0. */
  function IndexedNames(prefix: string, n: int): (names: seq<string>)
    ensures |names| == if n < 0 then 0 else n
    ensures forall i :: 0 <= i < |names| ==> names[i] == Indexed(prefix, i)
  {
    if n <= 0 then [] else IndexedNames(prefix, n - 1) + [Indexed(prefix, n - 1)]
  }

  predicate Distinct(s: seq<string>)
  {
    forall i, j :: 0 <= i < j < |s| ==> s[i] != s[j]
  }

  /** The generated names never repeat. */
  lemma IndexedNamesDistinct(prefix: string, n: int)
    ensures Distinct(IndexedNames(prefix, n))
  {
    var names := IndexedNames(prefix, n);
    forall i, j | 0 <= i < j < |names| ensures names[i] != names[j] {
      if names[i] == names[j] {
        IndexedInjective(prefix, i, prefix, j);
      }
    }
  }
}
