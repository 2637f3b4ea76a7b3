/** In-place sorting by a caller's "less" function, as sort.Slice offers it: always a permutation, and
    sorted whenever `less` is a strict weak order on the elements. */
module SortSlice {

  ghost predicate Asymmetric<T(!new)>(less: (T, T) -> bool) {
    forall x, y :: less(x, y) ==> !less(y, x)
  }

  ghost predicate StrictWeakOrder<T(!new)>(less: (T, T) -> bool, s: seq<T>) {
    && (forall x | x in s :: !less(x, x))
    && (forall x, y, z | x in s && y in s && z in s :: less(x, y) && less(y, z) ==> less(x, z))
    && (forall x, y, z | x in s && y in s && z in s ::
          !less(x, y) && !less(y, x) && !less(y, z) && !less(z, y) ==> !less(x, z) && !less(z, x))
  }

  /** No later element is less than an earlier one. */
  ghost predicate Sorted<T>(less: (T, T) -> bool, s: seq<T>) {
    forall i, j | 0 <= i < j < |s| :: !less(s[j], s[i])
  }

  ghost predicate LocallySorted<T>(less: (T, T) -> bool, s: seq<T>) {
    forall k | 0 < k < |s| :: !less(s[k], s[k - 1])
  }

  lemma {:induction false} LocallySortedIsSorted<T(!new)>(less: (T, T) -> bool, s: seq<T>)
    requires LocallySorted(less, s) && StrictWeakOrder(less, s)
    ensures Sorted(less, s)
  {
    if |s| > 1 {
      var front := s[..|s| - 1];
      LocallySortedIsSorted(less, front);
      var x, y := s[|s| - 2], s[|s| - 1];
      forall i | 0 <= i < |s| - 1 ensures !less(y, s[i]) {
        assert s[i] in s && x in s && y in s;
        if i < |s| - 2 {
          assert !less(front[|s| - 2], front[i]);
        }
      }
      forall i, j | 0 <= i < j < |s| ensures !less(s[j], s[i]) {
        if j < |s| - 1 {
          assert !less(front[j], front[i]);
        }
      }
    }
  }

  lemma SameElements<T>(s: seq<T>, t: seq<T>)
    requires multiset(s) == multiset(t)
    ensures |s| == |t| && forall x :: x in s <==> x in t
  {
    assert forall x :: x in s <==> x in multiset(s);
    assert |multiset(s)| == |s| && |multiset(t)| == |t|;
  }

  lemma OrderOfPermutation<T(!new)>(less: (T, T) -> bool, s: seq<T>, t: seq<T>)
    requires multiset(s) == multiset(t) && StrictWeakOrder(less, s)
    ensures StrictWeakOrder(less, t)
  {
    SameElements(s, t);
  }

  method SwapDown<T>(a: array<T>, j: nat)
    requires 0 < j < a.Length
    modifies a
    ensures a[j] == old(a[j - 1]) && a[j - 1] == old(a[j])
    ensures forall k | 0 <= k < a.Length && k != j && k != j - 1 :: a[k] == old(a[k])
    ensures multiset(a[..]) == multiset(old(a[..]))
  {
    a[j], a[j - 1] := a[j - 1], a[j];
  }

  /** All neighbours up to `i` are in order, except perhaps `j` with the one before it. */
  ghost predicate SortedButAt<T>(a: array<T>, less: (T, T) -> bool, i: nat, j: nat)
    requires j <= i < a.Length
    reads a
  {
    && (forall k | 0 < k <= i && k != j :: !less(a[k], a[k - 1]))
    && (0 < j < i ==> !less(a[j + 1], a[j - 1]))
  }

  /** Sinks element `i` into the sorted prefix before it. */
  method Sink<T(!new)>(a: array<T>, i: nat, less: (T, T) -> bool)
    requires i < a.Length
    requires Asymmetric(less) ==> LocallySorted(less, a[..i])
    modifies a
    ensures multiset(a[..]) == multiset(old(a[..]))
    ensures Asymmetric(less) ==> LocallySorted(less, a[..i + 1])
  {
    var j := i;
    ghost var asymmetric := Asymmetric(less);
    while j > 0 && less(a[j], a[j - 1])
      invariant 0 <= j <= i
      invariant multiset(a[..]) == multiset(old(a[..]))
      invariant asymmetric ==> SortedButAt(a, less, i, j)
    {
      assert asymmetric ==> !less(a[j - 1], a[j]);
      SwapDown(a, j);
      j := j - 1;
    }
  }

  method InsertionSort<T(!new)>(a: array<T>, less: (T, T) -> bool)
    modifies a
    ensures multiset(a[..]) == multiset(old(a[..]))
    ensures Asymmetric(less) && StrictWeakOrder(less, old(a[..])) ==> Sorted(less, a[..])
  {
    var n := 0;
    while n < a.Length
      invariant 0 <= n <= a.Length
      invariant multiset(a[..]) == multiset(old(a[..]))
      invariant Asymmetric(less) ==> LocallySorted(less, a[..n])
    {
      Sink(a, n, less);
      n := n + 1;
    }
    assert a[..n] == a[..];
    if Asymmetric(less) && StrictWeakOrder(less, old(a[..])) {
      OrderOfPermutation(less, old(a[..]), a[..]);
      LocallySortedIsSorted(less, a[..]);
    }
  }

  /** The same on a value, for slices local to their function. */
  method SortedCopy<T(!new)>(s: seq<T>, less: (T, T) -> bool) returns (r: seq<T>)
    ensures multiset(r) == multiset(s)
    ensures Asymmetric(less) && StrictWeakOrder(less, s) ==> Sorted(less, r)
  {
    if s == [] {
      return [];
    }
    var a := new T[|s|](i requires 0 <= i < |s| => s[i]);
    assert a[..] == s;
    InsertionSort(a, less);
    r := a[..];
  }
}
