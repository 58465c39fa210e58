/** Sorted permutations under a comparator, the contract of Go's sort package.

    Go's sort calls promise a permutation in comparator order and nothing about the
    algorithm, so the model states exactly that and every caller has to live with
    any such permutation. */
module Sorting {

  /** A comparator a sort may be given: irreflexive, transitive, and with a
      transitive "neither is less". */
  ghost predicate StrictWeakOrder<T(!new)>(less: (T, T) -> bool) {
    && (forall x :: !less(x, x))
    && (forall x, y, z :: less(x, y) && less(y, z) ==> less(x, z))
    && (forall x, y, z :: less(x, z) ==> less(x, y) || less(y, z))
  }

  /** No two different elements of the sequence tie. */
  ghost predicate TieFree<T>(s: seq<T>, less: (T, T) -> bool) {
    forall i, j :: 0 <= i < |s| && 0 <= j < |s| && !less(s[i], s[j]) && !less(s[j], s[i]) ==> s[i] == s[j]
  }

  ghost predicate Sorted<T>(s: seq<T>, less: (T, T) -> bool) {
    forall i, j :: 0 <= i < j < |s| ==> !less(s[j], s[i])
  }

  function Insert<T(!new)>(x: T, s: seq<T>, less: (T, T) -> bool): (r: seq<T>)
    ensures multiset(r) == multiset(s) + multiset{x}
  {
    if s == [] then [x]
    else
      assert s == [s[0]] + s[1..];
      if less(s[0], x) then [s[0]] + Insert(x, s[1..], less) else [x] + s
  }

  lemma InsertHas<T(!new)>(x: T, s: seq<T>, less: (T, T) -> bool, y: T)
    ensures y in Insert(x, s, less) <==> y == x || y in s
  {
    assert y in Insert(x, s, less) <==> y in multiset(Insert(x, s, less));
    assert y in s <==> y in multiset(s);
  }

  lemma PrependSorted<T(!new)>(x: T, s: seq<T>, less: (T, T) -> bool)
    requires Sorted(s, less) && forall y :: y in s ==> !less(y, x)
    ensures Sorted([x] + s, less)
  {
  }

  lemma {:induction false} InsertSorts<T(!new)>(x: T, s: seq<T>, less: (T, T) -> bool)
    requires StrictWeakOrder(less) && Sorted(s, less)
    ensures Sorted(Insert(x, s, less), less)
  {
    if s != [] {
      assert forall i :: 0 < i < |s| ==> !less(s[i], s[0]);
      if less(s[0], x) {
        var t := Insert(x, s[1..], less);
        InsertSorts(x, s[1..], less);
        forall y | y in t ensures !less(y, s[0]) {
          InsertHas(x, s[1..], less, y);
        }
        PrependSorted(s[0], t, less);
      } else {
        forall y | y in s ensures !less(y, x) {
          assert y == s[0] || !less(y, s[0]);
        }
        PrependSorted(x, s, less);
      }
    }
  }

  function SortedCopy<T(!new)>(s: seq<T>, less: (T, T) -> bool): (r: seq<T>)
    requires StrictWeakOrder(less)
    ensures Sorted(r, less)
    ensures multiset(r) == multiset(s)
  {
    if s == [] then [] else
      assert s == [s[0]] + s[1..];
      InsertSorts(s[0], SortedCopy(s[1..], less), less);
      Insert(s[0], SortedCopy(s[1..], less), less)
  }

  /** Sorts in place. Only what the contract says is known of the result. */
  method SortSlice<T(!new)>(a: array<T>, less: (T, T) -> bool)
    requires StrictWeakOrder(less)
    modifies a
    ensures Sorted(a[..], less)
    ensures multiset(a[..]) == multiset(old(a[..]))
  {
    var s := SortedCopy(a[..], less);
    assert |multiset(s)| == |s| && |multiset(a[..])| == a.Length;
    forall i | 0 <= i < a.Length {
      a[i] := s[i];
    }
    assert a[..] == s;
  }

  lemma HeadsAgree<T(!new)>(s: seq<T>, t: seq<T>, less: (T, T) -> bool)
    requires Sorted(s, less) && Sorted(t, less)
    requires multiset(s) == multiset(t)
    requires StrictWeakOrder(less) && TieFree(s, less)
    requires s != [] && t != []
    ensures s[0] == t[0]
  {
    assert t[0] in multiset(t) && s[0] in multiset(s);
    var i :| 0 <= i < |s| && s[i] == t[0];
    var j :| 0 <= j < |t| && t[j] == s[0];
    assert !less(s[i], s[0]);
    assert !less(t[j], t[0]);
  }

  lemma TailOf<T(!new)>(s: seq<T>, less: (T, T) -> bool)
    requires s != []
    ensures multiset(s) == multiset{s[0]} + multiset(s[1..])
    ensures Sorted(s, less) ==> Sorted(s[1..], less)
    ensures TieFree(s, less) ==> TieFree(s[1..], less)
  {
    assert s == [s[0]] + s[1..];
  }

  /** There is at most one sorted permutation of a tie-free sequence. */
  lemma {:induction false} SortedUnique<T(!new)>(s: seq<T>, t: seq<T>, less: (T, T) -> bool)
    requires Sorted(s, less) && Sorted(t, less)
    requires multiset(s) == multiset(t)
    requires StrictWeakOrder(less) && TieFree(s, less)
    ensures s == t
  {
    assert |multiset(s)| == |s| && |multiset(t)| == |t|;
    if s != [] {
      HeadsAgree(s, t, less);
      TailsShare(s, t);
      TailOf(s, less);
      TailOf(t, less);
      SortedUnique(s[1..], t[1..], less);
      assert s == [s[0]] + s[1..] && t == [t[0]] + t[1..];
    }
  }

  lemma TailsShare<T>(s: seq<T>, t: seq<T>)
    requires s != [] && t != [] && s[0] == t[0] && multiset(s) == multiset(t)
    ensures multiset(s[1..]) == multiset(t[1..])
  {
    assert s == [s[0]] + s[1..] && t == [t[0]] + t[1..];
    assert multiset(s[1..]) == multiset(s) - multiset{s[0]};
    assert multiset(t[1..]) == multiset(t) - multiset{t[0]};
  }

  /** Taking the last element off one permutation, and where it stands off the other. */
  lemma RestsPermute<T>(a: seq<T>, b: seq<T>) returns (i: nat)
    requires a != [] && multiset(a) == multiset(b)
    ensures |a| == |b| && i < |b| && b[i] == a[|a| - 1]
    ensures multiset(a[..|a| - 1]) == multiset(b[..i] + b[i + 1..])
  {
    var last := a[|a| - 1];
    assert |multiset(a)| == |a| && |multiset(b)| == |b|;
    assert last in multiset(b);
    i :| 0 <= i < |b| && b[i] == last;
    assert a == a[..|a| - 1] + [last];
    assert b == b[..i] + [last] + b[i + 1..];
    assert multiset(a[..|a| - 1]) == multiset(a) - multiset{last};
    assert multiset(b[..i] + b[i + 1..]) == multiset(b) - multiset{last};
  }
}
