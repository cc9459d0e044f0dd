/** The byte order of strings, strict weak orders, and in-place sorting. */
module Ordering {

  /** a < b in Go: byte by byte, a proper prefix first. */
  predicate Less(a: string, b: string) {
    b != [] && (a == [] || a[0] < b[0] || (a[0] == b[0] && Less(a[1..], b[1..])))
  }

  /** b is greater at the first place where the two differ, or goes on where a ends. */
  lemma {:induction false} LessExactly(a: string, b: string)
    ensures Less(a, b) <==>
              exists n :: 0 <= n <= |a| && n < |b| && a[..n] == b[..n] && (n < |a| ==> a[n] < b[n])
  {
    if a != [] && b != [] {
      LessExactly(a[1..], b[1..]);
      if a[0] == b[0] && Less(a, b) {
        var n :| 0 <= n <= |a[1..]| && n < |b[1..]| && a[1..][..n] == b[1..][..n] && (n < |a[1..]| ==> a[1..][n] < b[1..][n]);
        assert a[..n + 1] == [a[0]] + a[1..][..n] && b[..n + 1] == [b[0]] + b[1..][..n];
      }
      forall n | 0 < n <= |a| && n < |b| && a[..n] == b[..n] && (n < |a| ==> a[n] < b[n]) ensures Less(a, b) {
        assert a[0] == a[..n][0] == b[..n][0] == b[0];
        assert a[1..][..n - 1] == a[..n][1..] == b[..n][1..] == b[1..][..n - 1];
      }
      if a[0] < b[0] { assert a[..0] == b[..0]; }
    } else if b != [] {
      assert a[..0] == b[..0];
    }
  }

  lemma {:induction false} LessAsymmetric(a: string, b: string)
    requires Less(a, b)
    ensures !Less(b, a)
  {
    if a != [] && a[0] == b[0] { LessAsymmetric(a[1..], b[1..]); }
  }

  lemma {:induction false} LessNegativelyTransitive(a: string, b: string, c: string)
    requires !Less(a, b) && !Less(b, c)
    ensures !Less(a, c)
  {
    if a != [] && b != [] && c != [] && a[0] == b[0] == c[0] { LessNegativelyTransitive(a[1..], b[1..], c[1..]); }
  }

  lemma {:induction false} LessTotal(a: string, b: string)
    ensures Less(a, b) || Less(b, a) || a == b
  {
    if a != [] && b != [] && a[0] == b[0] {
      LessTotal(a[1..], b[1..]);
      assert a == [a[0]] + a[1..] && b == [b[0]] + b[1..];
    }
  }

  lemma LessTransitive(a: string, b: string, c: string)
    requires Less(a, b) && Less(b, c)
    ensures Less(a, c)
  {
    if !Less(a, c) {
      LessAsymmetric(b, c);
      LessNegativelyTransitive(a, c, b);
    }
  }

  // ---------- strict weak orders ----------

  /** Asymmetric, and not-less is transitive. */
  ghost predicate StrictWeakOrder<T(!new)>(less: (T, T) -> bool) {
    && (forall x, y :: less(x, y) ==> !less(y, x))
    && (forall x, y, z :: !less(x, y) && !less(y, z) ==> !less(x, z))
  }

  ghost predicate Sorted<T>(less: (T, T) -> bool, s: seq<T>) {
    forall i, k :: 0 <= i < k < |s| ==> !less(s[k], s[i])
  }

  /** t is what a correct, not necessarily stable, sort may make of s. */
  ghost predicate SortOf<T>(less: (T, T) -> bool, s: seq<T>, t: seq<T>) {
    Sorted(less, t) && multiset(t) == multiset(s)
  }

  // ---------- sorting in place ----------

  /** s[..n + 1] is sorted but for the element at k, which may belong further left. */
  ghost predicate SortedBut<T>(less: (T, T) -> bool, s: seq<T>, n: nat, k: nat)
    requires k <= n < |s|
  {
    forall i, j :: 0 <= i < j <= n && j != k ==> !less(s[j], s[i])
  }

  lemma SwapLeft<T(!new)>(less: (T, T) -> bool, s: seq<T>, n: nat, k: nat)
    requires StrictWeakOrder(less) && 0 < k <= n < |s| && SortedBut(less, s, n, k) && less(s[k], s[k - 1])
    ensures SortedBut(less, s[k := s[k - 1]][k - 1 := s[k]], n, k - 1)
  {}

  lemma InPlace<T(!new)>(less: (T, T) -> bool, s: seq<T>, n: nat, k: nat)
    requires StrictWeakOrder(less) && k <= n < |s| && SortedBut(less, s, n, k) && (k > 0 ==> !less(s[k], s[k - 1]))
    ensures Sorted(less, s[..n + 1])
  {
    forall i | 0 <= i < k ensures !less(s[k], s[i]) {
      if i < k - 1 { assert !less(s[k - 1], s[i]); }
    }
  }

  /** Moves a[n] to its place among the sorted elements before it. */
  method Insert<T(!new,==)>(a: array<T>, n: nat, less: (T, T) -> bool)
    requires n < a.Length && StrictWeakOrder(less) && Sorted(less, a[..n])
    modifies a
    ensures Sorted(less, a[..n + 1]) && multiset(a[..]) == multiset(old(a[..]))
  {
    var k: nat := n;
    assert SortedBut(less, a[..], n, k) by {
      forall i, j | 0 <= i < j <= n && j != k ensures !less(a[..][j], a[..][i]) { assert a[..n][j] == a[j]; }
    }
    while k > 0 && less(a[k], a[k - 1])
      invariant k <= n && SortedBut(less, a[..], n, k)
      invariant multiset(a[..]) == multiset(old(a[..]))
    {
      ghost var s := a[..];
      SwapLeft(less, s, n, k);
      a[k], a[k - 1] := a[k - 1], a[k];
      assert a[..] == s[k := s[k - 1]][k - 1 := s[k]];
      k := k - 1;
    }
    InPlace(less, a[..], n, k);
  }

  method SortSlice<T(!new,==)>(a: array<T>, less: (T, T) -> bool)
    requires StrictWeakOrder(less)
    modifies a
    ensures SortOf(less, old(a[..]), a[..])
  {
    var n := 0;
    while n < a.Length
      invariant n <= a.Length && Sorted(less, a[..n])
      invariant multiset(a[..]) == multiset(old(a[..]))
    {
      Insert(a, n, less);
      n := n + 1;
    }
    assert a[..n] == a[..];
  }
}
