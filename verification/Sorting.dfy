/** Sorting numbers in place. */
module Sorting {
  // The first i numbers of a are in order, and none after them is less.
  ghost predicate SortedUpTo(a: array<nat>, i: nat)
    reads a
  {
    forall k, m | 0 <= k < m < a.Length && k < i :: a[k] <= a[m]
  }

  method Swap(a: array<nat>, i: nat, j: nat)
    requires i < a.Length && j < a.Length
    modifies a
    ensures multiset(a[..]) == multiset(old(a[..]))
    ensures a[i] == old(a[j]) && a[j] == old(a[i]) && forall k | 0 <= k < a.Length && k != i && k != j :: a[k] == old(a[k])
  {
    a[i], a[j] := a[j], a[i];
  }

  // Swaps into position i whatever is less.
  method SelectLeast(a: array<nat>, i: nat)
    requires i < a.Length && SortedUpTo(a, i)
    modifies a
    ensures multiset(a[..]) == multiset(old(a[..])) && SortedUpTo(a, i + 1)
  {
    for j := i + 1 to a.Length
      invariant multiset(a[..]) == multiset(old(a[..])) && SortedUpTo(a, i)
      invariant forall k | i < k < j :: a[i] <= a[k]
    {
      if a[j] < a[i] {
        Swap(a, i, j);
      }
    }
  }

  /** Exchange sort: ascending, and the same numbers. */
  method SortInPlace(a: array<nat>)
    modifies a
    ensures multiset(a[..]) == multiset(old(a[..]))
    ensures forall i, j | 0 <= i < j < a.Length :: a[i] <= a[j]
  {
    for i := 0 to a.Length
      invariant multiset(a[..]) == multiset(old(a[..])) && SortedUpTo(a, i)
    {
      SelectLeast(a, i);
    }
  }

  // ---- Counting ----

  lemma Twice(s: seq<nat>, i: nat, j: nat)
    requires i < j < |s| && s[i] == s[j]
    ensures multiset(s)[s[i]] >= 2
  {
    assert s == s[..i] + [s[i]] + s[i + 1..j] + [s[j]] + s[j + 1..];
  }

  lemma {:induction false} Once(s: seq<nat>, x: nat)
    requires forall i, j | 0 <= i < j < |s| :: s[i] != s[j]
    ensures multiset(s)[x] <= 1
  {
    if s != [] {
      assert s == [s[0]] + s[1..];
      Once(s[1..], x);
      assert s[0] !in s[1..];
    }
  }
}
