/** Sorting and compacting a list so that equal sets give equal lists
    (cmd/ao-harness/bench_identity.go). */
module Canonical {
  import opened Sorting
  import opened Text

  /** Of two different values one is less: the order of strings, and of numbers. */
  ghost predicate TotalOrder<T(!new)>(less: (T, T) -> bool) {
    StrictWeakOrder(less) && forall x, y :: x != y ==> less(x, y) || less(y, x)
  }

  ghost predicate Increasing<T>(s: seq<T>, less: (T, T) -> bool) {
    forall i, j :: 0 <= i < j < |s| ==> less(s[i], s[j])
  }

  ghost predicate SameElements<T(!new)>(a: seq<T>, b: seq<T>) {
    forall x :: x in a <==> x in b
  }

  /** What canonicalising a list gives: its elements, each once, in order. */
  ghost predicate IsCanonical<T(!new)>(s: seq<T>, r: seq<T>, less: (T, T) -> bool) {
    Increasing(r, less) && SameElements(s, r)
  }

  /** slices.Compact on a sorted slice: keeps the first of each run of equal elements, moving
      the kept ones to the front. */
  method Compact<T(!new, ==)>(a: array<T>, less: (T, T) -> bool) returns (n: nat)
    requires TotalOrder(less) && Sorted(a[..], less)
    modifies a
    ensures n <= a.Length
    ensures IsCanonical(old(a[..]), a[..n], less)
  {
    ghost var s := a[..];
    n := 0;
    for i := 0 to a.Length
      invariant n <= i && a[i..] == s[i..]
      invariant n > 0 ==> i > 0 && a[n - 1] == s[i - 1]
      invariant i > 0 ==> n > 0
      invariant IsCanonical(s[..i], a[..n], less)
    {
      assert a[i] == a[i..][0] == s[i..][0] == s[i];
      assert s[..i + 1] == s[..i] + [s[i]];
      if n == 0 || a[i] != a[n - 1] {
        KeepNext(s, i, a[..n], less);
        a[n] := a[i];
        n := n + 1;
        assert a[..n] == a[..n - 1] + [s[i]];
      } else {
        DropNext(s, i, a[..n], less);
      }
    }
    assert s[..a.Length] == s;
  }

  lemma KeepNext<T(!new)>(s: seq<T>, i: nat, kept: seq<T>, less: (T, T) -> bool)
    requires TotalOrder(less) && Sorted(s, less) && i < |s|
    requires IsCanonical(s[..i], kept, less)
    requires kept != [] ==> i > 0 && kept[|kept| - 1] == s[i - 1] != s[i]
    ensures IsCanonical(s[..i + 1], kept + [s[i]], less)
  {
    assert s[..i + 1] == s[..i] + [s[i]];
    var next := kept + [s[i]];
    forall j, k | 0 <= j < k < |next| ensures less(next[j], next[k]) {
      if k == |kept| {
        assert less(kept[|kept| - 1], s[i]);
        assert j < |kept| - 1 ==> less(kept[j], kept[|kept| - 1]);
      }
    }
  }

  lemma DropNext<T(!new)>(s: seq<T>, i: nat, kept: seq<T>, less: (T, T) -> bool)
    requires i < |s| && IsCanonical(s[..i], kept, less) && kept != [] && kept[|kept| - 1] == s[i]
    ensures IsCanonical(s[..i + 1], kept, less)
  {
    assert s[..i + 1] == s[..i] + [s[i]];
    assert s[i] in kept;
  }

  /** Copies, sorts and compacts. */
  method Canonicalise<T(!new, ==, 0)>(s: seq<T>, less: (T, T) -> bool) returns (r: seq<T>)
    requires TotalOrder(less)
    ensures IsCanonical(s, r, less)
  {
    var a := new T[|s|](i requires 0 <= i < |s| => s[i]);
    assert a[..] == s;
    SortSlice(a, less);
    ghost var sorted := a[..];
    assert SameElements(s, sorted) by {
      forall x ensures x in s <==> x in sorted {
        assert x in multiset(s) <==> x in multiset(sorted);
      }
    }
    var n := Compact(a, less);
    r := a[..n];
  }

  lemma {:induction false} IncreasingUnique<T(!new)>(a: seq<T>, b: seq<T>, less: (T, T) -> bool)
    requires TotalOrder(less) && Increasing(a, less) && Increasing(b, less) && SameElements(a, b)
    ensures a == b
  {
    if a == [] {
      assert forall i :: 0 <= i < |b| ==> b[i] in a;
    } else {
      assert a[0] in b;
      assert b[0] in a;
      var i :| 0 <= i < |b| && b[i] == a[0];
      var j :| 0 <= j < |a| && a[j] == b[0];
      assert a[0] == b[0];
      TailsAgree(a, b, less);
      IncreasingUnique(a[1..], b[1..], less);
      assert a == [a[0]] + a[1..] && b == [b[0]] + b[1..];
    }
  }

  lemma TailsAgree<T(!new)>(a: seq<T>, b: seq<T>, less: (T, T) -> bool)
    requires TotalOrder(less) && Increasing(a, less) && Increasing(b, less) && SameElements(a, b)
    requires a != [] && b != [] && a[0] == b[0]
    ensures SameElements(a[1..], b[1..])
  {
    forall x ensures x in a[1..] <==> x in b[1..] {
      assert x in a <==> x == a[0] || x in a[1..];
      assert x in b <==> x == b[0] || x in b[1..];
      assert a[0] !in a[1..];
      assert b[0] !in b[1..];
    }
  }

  /** Two lists have one canonical form exactly when they hold the same elements, in whatever
      order and however often. */
  lemma CanonicalIff<T(!new)>(a: seq<T>, b: seq<T>, ra: seq<T>, rb: seq<T>, less: (T, T) -> bool)
    requires TotalOrder(less) && IsCanonical(a, ra, less) && IsCanonical(b, rb, less)
    ensures ra == rb <==> SameElements(a, b)
  {
    if SameElements(a, b) {
      IncreasingUnique(ra, rb, less);
    }
  }

  /** The monitor ids: strings, in byte order. */
  lemma MonitorIdsIff(a: seq<string>, b: seq<string>, ra: seq<string>, rb: seq<string>)
    requires IsCanonical(a, ra, Less) && IsCanonical(b, rb, Less)
    ensures ra == rb <==> SameElements(a, b)
  {
    LessIsStrictWeakOrder();
    CanonicalIff(a, b, ra, rb, Less);
  }

  /** The budgets: numbers. */
  lemma BudgetsIff(a: seq<real>, b: seq<real>, ra: seq<real>, rb: seq<real>)
    requires IsCanonical(a, ra, (x: real, y: real) => x < y) && IsCanonical(b, rb, (x: real, y: real) => x < y)
    ensures ra == rb <==> SameElements(a, b)
  {
    CanonicalIff(a, b, ra, rb, (x: real, y: real) => x < y);
  }
}
