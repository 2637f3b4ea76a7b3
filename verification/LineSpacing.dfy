/** The grouping threshold: half the upper median of the distances between the page's baselines. */
module LineSpacing {
  import opened ContentStream
  import opened SortSlice
  import opened ReadingOrder

  // ----- The baselines that are compared -------------------------------------------------------------

  /** `k` tenths of a point and less than one more, counted away from zero. */
  predicate IsTenths(y: real, k: int) {
    if y >= 0.0 then k as real <= 10.0 * y < k as real + 1.0 else k as real - 1.0 < 10.0 * y <= k as real
  }

  ghost predicate SameTenth(a: real, b: real) {
    exists k :: IsTenths(a, k) && IsTenths(b, k)
  }

  ghost predicate FirstOfTenth(s: seq<Chunk>, i: nat)
    requires i < |s|
  {
    forall j | 0 <= j < i :: !SameTenth(s[j].y, s[i].y)
  }

  /** A chunk that comes first in its tenth of a point stands on `y`. */
  ghost predicate IsBaseline(s: seq<Chunk>, y: real) {
    exists i :: 0 <= i < |s| && s[i].y == y && FirstOfTenth(s, i)
  }

  /** All those ys, in ascending order. */
  ghost predicate Baselines(s: seq<Chunk>, ys: seq<real>) {
    && (forall i | 0 < i < |ys| :: ys[i - 1] < ys[i])
    && (forall y :: y in ys <==> IsBaseline(s, y))
  }

  lemma TenthsOfKey(c: Chunk, k: int)
    ensures IsTenths(c.y, k) <==> k == Key(c)
  {
    var t := c.y * 10.0;
    if c.y >= 0.0 {
      assert t >= 0.0 && Key(c) == t.Floor;
    } else {
      assert t < 0.0 && Key(c) == -((-t).Floor);
    }
  }

  lemma SameTenthSameKey(c: Chunk, d: Chunk)
    ensures SameTenth(c.y, d.y) <==> Key(c) == Key(d)
  {
    TenthsOfKey(c, Key(c));
    TenthsOfKey(d, Key(c));
    forall k ensures IsTenths(c.y, k) && IsTenths(d.y, k) ==> Key(c) == Key(d) {
      TenthsOfKey(c, k);
      TenthsOfKey(d, k);
    }
  }

  lemma FirstByKey(s: seq<Chunk>, i: nat)
    requires i < |s|
    ensures FirstOfTenth(s, i) <==> Key(s[i]) !in Keys(s[..i])
  {
    forall j | 0 <= j < i ensures SameTenth(s[j].y, s[i].y) <==> Key(s[j]) == Key(s[i]) {
      SameTenthSameKey(s[j], s[i]);
    }
    if Key(s[i]) in Keys(s[..i]) {
      var d :| d in s[..i] && Key(d) == Key(s[i]);
      var j :| 0 <= j < i && s[..i][j] == d;
      assert SameTenth(s[j].y, s[i].y);
    }
    forall j | 0 <= j < i ensures Key(s[j]) in Keys(s[..i]) {
      assert s[..i][j] in s[..i];
    }
  }

  lemma FirstInFront(s: seq<Chunk>, n: nat, i: nat)
    requires i < n <= |s|
    ensures FirstOfTenth(s[..n], i) <==> FirstOfTenth(s, i)
  {
    assert forall j | 0 <= j <= i :: s[..n][j] == s[j];
  }

  lemma OneMoreBaseline(s: seq<Chunk>, n: nat, y: real)
    requires |s| == n + 1
    ensures IsBaseline(s, y) <==> IsBaseline(s[..n], y) || (s[n].y == y && FirstOfTenth(s, n))
  {
    if IsBaseline(s, y) {
      var i :| 0 <= i < |s| && s[i].y == y && FirstOfTenth(s, i);
      if i < n {
        FirstInFront(s, n, i);
        assert s[..n][i] == s[i];
      }
    }
    if IsBaseline(s[..n], y) {
      var i :| 0 <= i < n && s[..n][i].y == y && FirstOfTenth(s[..n], i);
      FirstInFront(s, n, i);
      assert s[..n][i] == s[i];
    }
  }

  /** The code keeps just those ys. */
  lemma {:induction false} KeptAreFirst(s: seq<Chunk>, y: real)
    ensures y in DistinctYs(s) <==> IsBaseline(s, y)
    decreases |s|
  {
    if s != [] {
      var n := |s| - 1;
      KeptAreFirst(s[..n], y);
      FirstByKey(s, n);
      OneMoreBaseline(s, n, y);
    }
  }

  lemma {:induction false} DistinctYsComeFromChunks(s: seq<Chunk>, y: real) returns (c: Chunk)
    requires y in DistinctYs(s)
    ensures c in s && c.y == y
    decreases |s|
  {
    var front := s[..|s| - 1];
    c := s[|s| - 1];
    if y in DistinctYs(front) {
      c := DistinctYsComeFromChunks(front, y);
    }
  }

  lemma NewKeyNewY(front: seq<Chunk>, last: Chunk)
    requires Key(last) !in Keys(front)
    ensures last.y !in DistinctYs(front)
  {
    if last.y in DistinctYs(front) {
      var d := DistinctYsComeFromChunks(front, last.y);
    }
  }

  lemma {:induction false} DistinctYsCountOnce(s: seq<Chunk>, y: real)
    ensures multiset(DistinctYs(s))[y] <= 1
    decreases |s|
  {
    if s != [] {
      var front, last := s[..|s| - 1], s[|s| - 1];
      DistinctYsCountOnce(front, y);
      if Key(last) !in Keys(front) {
        NewKeyNewY(front, last);
        assert DistinctYs(s) == DistinctYs(front) + [last.y];
      }
    }
  }

  lemma RepeatCountsTwice(q: seq<real>, i: nat)
    requires 0 < i < |q| && q[i - 1] == q[i]
    ensures multiset(q)[q[i]] >= 2
  {
    assert q == q[..i] + q[i..];
    assert q[..i][i - 1] == q[i] && q[i..][0] == q[i];
  }

  lemma SortedOnceIsStrict(q: seq<real>, i: nat)
    requires Sorted(LESS_REAL, q) && 0 < i < |q| && multiset(q)[q[i]] <= 1
    ensures q[i - 1] < q[i]
  {
    assert !LESS_REAL(q[i], q[i - 1]);
    if q[i - 1] == q[i] {
      RepeatCountsTwice(q, i);
    }
  }

  lemma {:induction false} StrictCountsOnce(q: seq<real>, y: real)
    requires forall i | 0 < i < |q| :: q[i - 1] < q[i]
    ensures multiset(q)[y] == if y in q then 1 else 0
    ensures q != [] ==> forall x | x in q :: x <= q[|q| - 1]
    decreases |q|
  {
    if q != [] {
      var front, last := q[..|q| - 1], q[|q| - 1];
      assert q == front + [last];
      StrictCountsOnce(front, y);
      StrictCountsOnce(front, last);
    }
  }

  lemma {:induction false} StrictIsSorted(q: seq<real>)
    requires forall i | 0 < i < |q| :: q[i - 1] < q[i]
    ensures Sorted(LESS_REAL, q)
    decreases |q|
  {
    if q != [] {
      var front, last := q[..|q| - 1], q[|q| - 1];
      StrictIsSorted(front);
      StrictCountsOnce(q, last);
      forall i, j | 0 <= i < j < |q| ensures !LESS_REAL(q[j], q[i]) {
        if j == |q| - 1 {
          assert q[i] in q;
        } else {
          assert front[i] == q[i] && front[j] == q[j];
        }
      }
    }
  }

  lemma SortedKept(s: seq<Chunk>, ys: seq<real>)
    requires Baselines(s, ys)
    ensures ys == Ascending(DistinctYs(s))
  {
    var d := DistinctYs(s);
    forall y ensures multiset(ys)[y] == multiset(d)[y] {
      KeptAreFirst(s, y);
      DistinctYsCountOnce(s, y);
      StrictCountsOnce(ys, y);
    }
    assert multiset(ys) == multiset(d);
    StrictIsSorted(ys);
    AscendingSorts(d);
    SortedUnique(ys, Ascending(d));
  }

  /** Every page has its baselines. */
  lemma BaselinesExist(s: seq<Chunk>) returns (ys: seq<real>)
    ensures Baselines(s, ys)
  {
    var d := DistinctYs(s);
    ys := Ascending(d);
    AscendingSorts(d);
    SameElements(ys, d);
    forall i | 0 < i < |ys| ensures ys[i - 1] < ys[i] {
      DistinctYsCountOnce(s, ys[i]);
      SortedOnceIsStrict(ys, i);
    }
    forall y ensures y in ys <==> IsBaseline(s, y) {
      KeptAreFirst(s, y);
    }
  }

  // ----- Counting distances ------------------------------------------------------------------------------

  function Count(s: seq<real>, p: real -> bool): nat {
    if s == [] then 0 else (if p(s[0]) then 1 else 0) + Count(s[1..], p)
  }

  lemma {:induction false} CountAppend(a: seq<real>, b: seq<real>, p: real -> bool)
    ensures Count(a + b, p) == Count(a, p) + Count(b, p)
  {
    if a == [] {
      assert a + b == b;
    } else {
      CountAppend(a[1..], b, p);
      assert (a + b)[1..] == a[1..] + b;
    }
  }

  lemma {:induction false} CountInserted(r: real, s: seq<real>, p: real -> bool)
    ensures Count(InsertReal(r, s), p) == Count(s, p) + if p(r) then 1 else 0
  {
    if s == [] {
      assert [r][1..] == [];
    } else if r < s[0] {
      assert ([r] + s)[1..] == s;
    } else {
      CountInserted(r, s[1..], p);
      assert ([s[0]] + InsertReal(r, s[1..]))[1..] == InsertReal(r, s[1..]);
    }
  }

  lemma {:induction false} CountSorted(s: seq<real>, p: real -> bool)
    ensures Count(Ascending(s), p) == Count(s, p)
  {
    if s != [] {
      CountSorted(s[1..], p);
      CountInserted(s[0], Ascending(s[1..]), p);
    }
  }

  lemma {:induction false} CountBounds(s: seq<real>, p: real -> bool)
    ensures Count(s, p) <= |s|
    ensures (forall i | 0 <= i < |s| :: p(s[i])) ==> Count(s, p) == |s|
    ensures (forall i | 0 <= i < |s| :: !p(s[i])) ==> Count(s, p) == 0
  {
    if s != [] {
      CountBounds(s[1..], p);
      assert forall i | 0 <= i < |s| - 1 :: s[1..][i] == s[i + 1];
    }
  }

  /** In a sorted sequence at most k elements are below the one at k, and more than k are at most it. */
  lemma SortedCounts(s: seq<real>, k: nat)
    requires Sorted(LESS_REAL, s) && k < |s|
    ensures Count(s, (x: real) => x < s[k]) <= k < Count(s, (x: real) => x <= s[k])
  {
    var below, upTo := (x: real) => x < s[k], (x: real) => x <= s[k];
    assert s == s[..k] + s[k..] && s == s[..k + 1] + s[k + 1..];
    CountAppend(s[..k], s[k..], below);
    CountAppend(s[..k + 1], s[k + 1..], upTo);
    forall j | 0 <= j < |s[k..]| ensures !below(s[k..][j]) {
      assert j > 0 ==> !LESS_REAL(s[k + j], s[k]);
    }
    var head := s[..k + 1];
    forall j | 0 <= j < |head| ensures upTo(head[j]) {
      assert j < k ==> !LESS_REAL(s[k], s[j]);
    }
    CountBounds(s[..k], below);
    CountBounds(s[k..], below);
    CountBounds(head, upTo);
  }

  function Distance(ys: seq<real>, i: nat): real
    requires 0 < i < |ys|
  {
    ys[i] - ys[i - 1]
  }

  /** The distances of over half a point, by the index of their upper end, that satisfy `p`. */
  function Wide(ys: seq<real>, p: real -> bool): set<nat> {
    set i: nat | 0 < i < |ys| && Distance(ys, i) > 0.5 && p(Distance(ys, i))
  }

  lemma WideOneMore(ys: seq<real>, front: seq<real>, n: nat, p: real -> bool)
    requires 0 < n == |front| && |ys| == n + 1 && front == ys[..n]
    ensures n !in Wide(front, p)
    ensures Wide(ys, p) == Wide(front, p) + if Distance(ys, n) > 0.5 && p(Distance(ys, n)) then {n} else {}
  {
    assert forall i: nat | 0 < i < n :: Distance(front, i) == Distance(ys, i);
  }

  lemma GapsOneMore(ys: seq<real>, front: seq<real>, n: nat, p: real -> bool)
    requires 0 < n == |front| && |ys| == n + 1 && front == ys[..n] && ys[n - 1] < ys[n]
    ensures var g := Distance(ys, n);
            Count(Gaps(ys), p) == Count(Gaps(front), p) + if g > 0.5 && p(g) then 1 else 0
  {
    var g := Distance(ys, n);
    assert Gaps(ys) == Gaps(front) + if g > 0.5 then [g] else [];
    assert [g][1..] == [];
    CountAppend(Gaps(front), if g > 0.5 then [g] else [], p);
  }

  lemma {:induction false} WideCounts(ys: seq<real>, p: real -> bool)
    requires forall i | 0 < i < |ys| :: ys[i - 1] < ys[i]
    ensures |Wide(ys, p)| == Count(Gaps(ys), p)
    decreases |ys|
  {
    if |ys| < 2 {
      assert Wide(ys, p) == {};
    } else {
      var n := |ys| - 1;
      WideCounts(ys[..n], p);
      WideOneMore(ys, ys[..n], n, p);
      GapsOneMore(ys, ys[..n], n, p);
    }
  }

  // ----- The threshold -------------------------------------------------------------------------------------

  /** `m` is one of the distances of over half a point; at most half of them are smaller and more than half
      are at most it. */
  ghost predicate UpperMedian(ys: seq<real>, m: real) {
    var all := |Wide(ys, g => true)|;
    && (exists i :: 0 < i < |ys| && Distance(ys, i) == m > 0.5)
    && 2 * |Wide(ys, g => g < m)| <= all < 2 * |Wide(ys, g => g <= m)|
  }

  lemma WithinIsFewer(a: set<nat>, b: set<nat>)
    requires a <= b
    ensures |a| <= |b|
  {
    assert b == a + (b - a);
  }

  lemma UpperMedianUnique(ys: seq<real>, m: real, n: real)
    requires UpperMedian(ys, m) && UpperMedian(ys, n)
    ensures m == n
  {
    if m < n {
      WithinIsFewer(Wide(ys, g => g <= m), Wide(ys, g => g < n));
    } else if n < m {
      WithinIsFewer(Wide(ys, g => g <= n), Wide(ys, g => g < m));
    }
  }

  lemma {:induction false} GapsAreWide(ys: seq<real>, m: real)
    requires (forall i | 0 < i < |ys| :: ys[i - 1] < ys[i]) && m in Gaps(ys)
    ensures exists i :: 0 < i < |ys| && Distance(ys, i) == m > 0.5
    decreases |ys|
  {
    var n := |ys| - 1;
    if m in Gaps(ys[..n]) {
      GapsAreWide(ys[..n], m);
      var i :| 0 < i < n && Distance(ys[..n], i) == m > 0.5;
      assert Distance(ys, i) == m;
    } else {
      assert Distance(ys, n) == m;
    }
  }

  lemma MedianIsUpper(ys: seq<real>, m: real)
    requires forall i | 0 < i < |ys| :: ys[i - 1] < ys[i]
    requires Gaps(ys) != [] && |Ascending(Gaps(ys))| == |Gaps(ys)| && m == Ascending(Gaps(ys))[|Gaps(ys)| / 2]
    ensures UpperMedian(ys, m)
  {
    var gaps := Gaps(ys);
    var q, k := Ascending(gaps), |gaps| / 2;
    AscendingSorts(gaps);
    SameElements(q, gaps);
    assert m in q;
    GapsAreWide(ys, m);
    SortedCounts(q, k);
    CountSorted(gaps, x => x < m);
    CountSorted(gaps, x => x <= m);
    CountBounds(gaps, x => true);
    WideCounts(ys, x => x < m);
    WideCounts(ys, x => x <= m);
    WideCounts(ys, x => true);
  }

  lemma NoGapsNoneWide(s: seq<Chunk>, ys: seq<real>)
    requires ys == Ascending(DistinctYs(s)) && forall i | 0 < i < |ys| :: ys[i - 1] < ys[i]
    ensures Gaps(ys) == [] <==> Wide(ys, g => true) == {}
    ensures |s| < 2 ==> Gaps(ys) == []
  {
    WideCounts(ys, g => true);
    CountBounds(Gaps(ys), g => true);
    if |s| < 2 {
      assert s == [] || s[..0] == [];
      AscendingSorts(DistinctYs(s));
      SameElements(ys, DistinctYs(s));
    }
  }

  /** On every page: half the upper median of the distances of over half a point between neighbouring baselines,
      but at least 4; and 10 when there is no such distance. */
  lemma ThresholdIsHalfMedian(s: seq<Chunk>, ys: seq<real>)
    requires Baselines(s, ys)
    ensures Wide(ys, g => true) == {} ==> Threshold(s) == 10.0
    ensures Wide(ys, g => true) != {} ==> exists m :: UpperMedian(ys, m)
    ensures forall m | UpperMedian(ys, m) :: Threshold(s) == if m / 2.0 < 4.0 then 4.0 else m / 2.0
  {
    SortedKept(s, ys);
    NoGapsNoneWide(s, ys);
    var gaps := Gaps(ys);
    AscendingSorts(gaps);
    SameElements(Ascending(gaps), gaps);
    if gaps != [] {
      var n := Ascending(gaps)[|gaps| / 2];
      MedianIsUpper(ys, n);
      forall m | UpperMedian(ys, m) ensures m == n {
        UpperMedianUnique(ys, m, n);
      }
    } else {
      assert forall i: nat | 0 < i < |ys| :: Distance(ys, i) > 0.5 ==> i in Wide(ys, g => true);
    }
  }

  // ----- Evenly spaced baselines -----------------------------------------------------------------------------

  /** The chunks of `s` stand on the ys of `ys`, all of them used. */
  ghost predicate StandsOn(s: seq<Chunk>, ys: seq<real>) {
    && (forall c | c in s :: c.y in ys)
    && (forall y | y in ys :: exists c :: c in s && c.y == y)
  }

  /** Neighbours are exactly `g` apart. */
  predicate EvenlySpaced(ys: seq<real>, g: real) {
    forall i: nat | 0 < i < |ys| :: Distance(ys, i) == g
  }

  lemma {:induction false} FirstWithTenth(s: seq<Chunk>, c: Chunk) returns (i: nat)
    requires c in s
    ensures i < |s| && FirstOfTenth(s, i) && SameTenth(s[i].y, c.y)
    decreases |s|
  {
    var n := |s| - 1;
    if j: nat :| j < n && SameTenth(s[j].y, c.y) {
      assert s[..n][j] == s[j];
      i := FirstWithTenth(s[..n], s[j]);
      SameTenthSameKey(s[i], s[j]);
      SameTenthSameKey(s[j], c);
      SameTenthSameKey(s[i], c);
    } else {
      i := n;
      SameTenthSameKey(c, c);
      assert s[n] == c;
    }
  }

  lemma {:induction false} EvenSpread(ys: seq<real>, g: real, i: nat, j: nat)
    requires g > 0.5 && EvenlySpaced(ys, g) && i < j < |ys|
    ensures ys[j] - ys[i] > 0.5
    decreases j
  {
    assert Distance(ys, j) == g;
    if i + 1 < j {
      EvenSpread(ys, g, i, j - 1);
    }
  }

  lemma NearIsSame(ys: seq<real>, g: real, a: real, b: real)
    requires g > 0.5 && EvenlySpaced(ys, g) && a in ys && b in ys && SameTenth(a, b)
    ensures a == b
  {
    var p: nat :| p < |ys| && ys[p] == a;
    var r: nat :| r < |ys| && ys[r] == b;
    if p < r {
      EvenSpread(ys, g, p, r);
    } else if r < p {
      EvenSpread(ys, g, r, p);
    }
  }

  lemma EvenBaselines(s: seq<Chunk>, ys: seq<real>, g: real)
    requires g > 0.5 && EvenlySpaced(ys, g) && StandsOn(s, ys)
    ensures Baselines(s, ys)
  {
    forall i: nat | 0 < i < |ys| ensures ys[i - 1] < ys[i] {
      assert Distance(ys, i) == g;
    }
    forall y ensures y in ys <==> IsBaseline(s, y) {
      if y in ys {
        var c :| c in s && c.y == y;
        var i := FirstWithTenth(s, c);
        assert s[i] in s;
        NearIsSame(ys, g, s[i].y, y);
      }
    }
  }

  /** Lines that stand exactly g apart are cut at half of g, or at 4 if that is more. */
  lemma EvenThreshold(s: seq<Chunk>, ys: seq<real>, g: real)
    requires g > 0.5 && EvenlySpaced(ys, g) && StandsOn(s, ys) && |ys| >= 2
    ensures Threshold(s) == if g / 2.0 < 4.0 then 4.0 else g / 2.0
  {
    EvenBaselines(s, ys, g);
    ThresholdIsHalfMedian(s, ys);
    assert Distance(ys, 1) == g && 1 in Wide(ys, d => true);
    var m :| UpperMedian(ys, m);
    var i: nat :| 0 < i < |ys| && Distance(ys, i) == m > 0.5;
  }
}
