/** When a page really has lines, the extractor finds them: bands of chunks that are flatter than the sort
    tolerance and further apart than the grouping threshold come out as the printed lines. */
module BandRecovery {
  import opened ContentStream
  import opened SortSlice
  import opened ReadingOrder
  import opened Lines
  import opened LineSpacing
  import Sequences

  /** A distance along the page, counted in the direction of reading. */
  function Directed(r: real, dir: int): real {
    if dir == 1 then r else -r
  }

  lemma BeforeDownwards(c: Chunk, d: Chunk)
    ensures Before(c, d, 1) <==> if Abs(c.y - d.y) > 4.0 then c.y < d.y else c.x < d.x
  {
    assert 1 as real == 1.0;
  }

  lemma BeforeUpwards(c: Chunk, d: Chunk)
    ensures Before(c, d, -1) <==> if Abs(c.y - d.y) > 4.0 then d.y < c.y else c.x < d.x
  {
    assert -1 as real == -1.0;
  }

  lemma BeforeDirected(c: Chunk, d: Chunk, dir: int)
    requires dir == 1 || dir == -1
    ensures var dy := Directed(c.y - d.y, dir);
            Before(c, d, dir) <==> if Abs(dy) > 4.0 then dy < 0.0 else c.x < d.x
  {
    if dir == 1 {
      BeforeDownwards(c, d);
    } else {
      BeforeUpwards(c, d);
    }
  }

  /** How far `d` lies after `c`. */
  function Ahead(c: Chunk, d: Chunk, dir: int): real {
    Directed(d.y - c.y, dir)
  }

  /** The page's true lines in reading order: each at most 4 points high, any two more than `t` apart. */
  ghost predicate Bands(bands: seq<seq<Chunk>>, t: real, dir: int) {
    && (forall i | 0 <= i < |bands| :: bands[i] != [])
    && (forall i, c, d | 0 <= i < |bands| && c in bands[i] && d in bands[i] :: Abs(c.y - d.y) <= 4.0)
    && (forall i, j, c, d | 0 <= i < j < |bands| && c in bands[i] && d in bands[j] :: Ahead(c, d, dir) > t)
  }

  lemma {:induction false} InFlatten(bands: seq<seq<Chunk>>, c: Chunk)
    ensures c in Flatten(bands) <==> exists i :: 0 <= i < |bands| && c in bands[i]
    decreases |bands|
  {
    if bands != [] {
      var n := |bands| - 1;
      InFlatten(bands[..n], c);
      assert forall i | 0 <= i < n :: bands[..n][i] == bands[i];
    }
  }

  // ----- The comparator on banded pages ----------------------------------------------------------

  /** Between bands the comparator follows reading order, within a band it follows x. */
  lemma BeforeByBand(bands: seq<seq<Chunk>>, t: real, dir: int, c: Chunk, i: nat, d: Chunk, j: nat)
    requires (dir == 1 || dir == -1) && t >= 4.0 && Bands(bands, t, dir)
    requires i < |bands| && j < |bands| && c in bands[i] && d in bands[j]
    ensures Before(c, d, dir) <==> i < j || (i == j && c.x < d.x)
  {
    BeforeDirected(c, d, dir);
    if i < j {
      assert Ahead(c, d, dir) > t;
    } else if j < i {
      assert Ahead(d, c, dir) > t;
    } else {
      assert Abs(c.y - d.y) <= 4.0;
    }
  }

  lemma BandOf(bands: seq<seq<Chunk>>, s: seq<Chunk>, c: Chunk) returns (i: nat)
    requires multiset(s) == multiset(Flatten(bands)) && c in s
    ensures i < |bands| && c in bands[i]
  {
    SameElements(s, Flatten(bands));
    InFlatten(bands, c);
    i :| 0 <= i < |bands| && c in bands[i];
  }

  /** Whenever a chunk `b` is level with two that are not level with each other, x must tell it from one of
      them in reading order. */
  predicate Untangled(a: Chunk, b: Chunk, c: Chunk, dir: int) {
    Ahead(a, c, dir) > 4.0 && Abs(a.y - b.y) <= 4.0 && Abs(b.y - c.y) <= 4.0
    ==> a.x < b.x || b.x < c.x
  }

  ghost predicate AllUntangled(s: seq<Chunk>, dir: int) {
    forall a, b, c | a in s && b in s && c in s :: Untangled(a, b, c, dir)
  }

  lemma OrderUntangles(a: Chunk, b: Chunk, c: Chunk, dir: int, s: seq<Chunk>)
    requires (dir == 1 || dir == -1) && StrictWeakOrder(Comparator(dir), s) && a in s && b in s && c in s
    ensures Untangled(a, b, c, dir)
  {
    var less := Comparator(dir);
    BeforeDirected(a, b, dir);
    BeforeDirected(b, a, dir);
    BeforeDirected(b, c, dir);
    BeforeDirected(c, b, dir);
    BeforeDirected(a, c, dir);
    BeforeDirected(c, a, dir);
    assert less(a, c) && less(c, b) ==> less(a, b);
    assert less(b, a) && less(a, c) ==> less(b, c);
    assert !less(a, b) && !less(b, a) && !less(b, c) && !less(c, b) ==> !less(a, c) && !less(c, a);
  }

  lemma UntangledTransitive(x: Chunk, y: Chunk, z: Chunk, dir: int)
    requires dir == 1 || dir == -1
    requires Untangled(x, z, y, dir) && Untangled(y, x, z, dir) && Untangled(z, y, x, dir)
    ensures Before(x, y, dir) && Before(y, z, dir) ==> Before(x, z, dir)
  {
    BeforeDirected(x, y, dir);
    BeforeDirected(y, z, dir);
    BeforeDirected(x, z, dir);
  }

  lemma UntangledTies(x: Chunk, y: Chunk, z: Chunk, dir: int)
    requires (dir == 1 || dir == -1) && Untangled(x, y, z, dir) && Untangled(z, y, x, dir)
    requires !Before(x, y, dir) && !Before(y, x, dir) && !Before(y, z, dir) && !Before(z, y, dir)
    ensures !Before(x, z, dir)
  {
    BeforeDirected(x, y, dir);
    BeforeDirected(y, x, dir);
    BeforeDirected(y, z, dir);
    BeforeDirected(z, y, dir);
    BeforeDirected(x, z, dir);
  }

  /** When the sort is well defined: the comparator is a strict weak order on a page if and only if the page's
      chunks are untangled. */
  lemma ComparatorIsOrderExactly(dir: int, s: seq<Chunk>)
    requires dir == 1 || dir == -1
    ensures StrictWeakOrder(Comparator(dir), s) <==> AllUntangled(s, dir)
  {
    var less := Comparator(dir);
    if AllUntangled(s, dir) {
      forall x | x in s ensures !less(x, x) {
        BeforeDirected(x, x, dir);
      }
      forall x, y, z | x in s && y in s && z in s
        ensures less(x, y) && less(y, z) ==> less(x, z)
        ensures !less(x, y) && !less(y, x) && !less(y, z) && !less(z, y) ==> !less(x, z) && !less(z, x)
      {
        assert Untangled(x, z, y, dir) && Untangled(y, x, z, dir) && Untangled(z, y, x, dir) && Untangled(x, y, z, dir);
        UntangledTransitive(x, y, z, dir);
        if !less(x, y) && !less(y, x) && !less(y, z) && !less(z, y) {
          UntangledTies(x, y, z, dir);
          UntangledTies(z, y, x, dir);
        }
      }
    }
    if StrictWeakOrder(less, s) {
      forall a, b, c | a in s && b in s && c in s ensures Untangled(a, b, c, dir) {
        OrderUntangles(a, b, c, dir, s);
      }
    }
  }

  /** In a banded page, chunks level with each other share a band. */
  lemma LevelSharesBand(bands: seq<seq<Chunk>>, t: real, dir: int, c: Chunk, i: nat, d: Chunk, j: nat)
    requires (dir == 1 || dir == -1) && t >= 4.0 && Bands(bands, t, dir)
    requires i < |bands| && j < |bands| && c in bands[i] && d in bands[j]
    ensures i == j <==> Abs(c.y - d.y) <= 4.0
  {
    if i < j {
      assert Ahead(c, d, dir) > t;
    } else if j < i {
      assert Ahead(d, c, dir) > t;
    }
  }

  /** So it is one on a page whose chunks come in bands. */
  lemma ComparatorIsOrder(bands: seq<seq<Chunk>>, t: real, dir: int, s: seq<Chunk>)
    requires (dir == 1 || dir == -1) && t >= 4.0 && Bands(bands, t, dir)
    requires multiset(s) == multiset(Flatten(bands))
    ensures StrictWeakOrder(Comparator(dir), s)
  {
    forall a, b, c | a in s && b in s && c in s ensures Untangled(a, b, c, dir) {
      var i := BandOf(bands, s, a);
      var j := BandOf(bands, s, b);
      var k := BandOf(bands, s, c);
      LevelSharesBand(bands, t, dir, a, i, b, j);
      LevelSharesBand(bands, t, dir, b, j, c, k);
      LevelSharesBand(bands, t, dir, a, i, c, k);
    }
    ComparatorIsOrderExactly(dir, s);
  }

  // ----- Splitting the last band off a sorted page ---------------------------------------------------

  /** The number of leading chunks outside `last`. */
  function SplitPoint(s: seq<Chunk>, last: seq<Chunk>): (k: nat)
    ensures k <= |s|
    ensures forall i | 0 <= i < k :: s[i] !in last
    ensures k < |s| ==> s[k] in last
  {
    if s == [] || s[0] in last then 0 else 1 + SplitPoint(s[1..], last)
  }

  lemma NotBeforeEarlier(s: seq<Chunk>, dir: int, k: nat, j: nat)
    requires Sorted(Comparator(dir), s) && k < j < |s|
    ensures !Before(s[j], s[k], dir)
  {
    assert !Comparator(dir)(s[j], s[k]);
  }

  lemma OnlyLastAfterSplit(s: seq<Chunk>, bands: seq<seq<Chunk>>, t: real, dir: int, k: nat, j: nat, b: nat)
    requires (dir == 1 || dir == -1) && t >= 4.0 && bands != [] && Bands(bands, t, dir)
    requires Sorted(Comparator(dir), s)
    requires k < j < |s| && s[k] in bands[|bands| - 1]
    requires b < |bands| && s[j] in bands[b]
    ensures b == |bands| - 1
  {
    NotBeforeEarlier(s, dir, k, j);
    BeforeByBand(bands, t, dir, s[j], b, s[k], |bands| - 1);
  }

  lemma LastApartFromEarlier(bands: seq<seq<Chunk>>, t: real, dir: int, c: Chunk)
    requires (dir == 1 || dir == -1) && t >= 4.0 && bands != [] && Bands(bands, t, dir)
    requires c in bands[|bands| - 1]
    ensures c !in Flatten(bands[..|bands| - 1])
  {
    var n := |bands| - 1;
    InFlatten(bands[..n], c);
    if i: nat :| i < n && c in bands[..n][i] {
      BeforeByBand(bands, t, dir, c, i, c, n);
      BeforeByBand(bands, t, dir, c, n, c, i);
    }
  }

  lemma SplitMultisets(front: seq<Chunk>, tail: seq<Chunk>, earlier: seq<Chunk>, last: seq<Chunk>)
    requires multiset(front) + multiset(tail) == multiset(earlier) + multiset(last)
    requires forall c | c in front :: c !in last
    requires forall c | c in tail :: c in last
    requires forall c | c in last :: c !in earlier
    ensures multiset(front) == multiset(earlier) && multiset(tail) == multiset(last)
  {
    forall c ensures multiset(front)[c] == multiset(earlier)[c] && multiset(tail)[c] == multiset(last)[c] {
      var both := multiset(front) + multiset(tail);
      assert both[c] == multiset(front)[c] + multiset(tail)[c];
      assert both[c] == multiset(earlier)[c] + multiset(last)[c];
      if c in last {
        assert c !in front && c !in earlier;
      } else {
        assert c !in tail;
      }
    }
  }

  lemma TailInLast(s: seq<Chunk>, bands: seq<seq<Chunk>>, t: real, dir: int, k: nat, c: Chunk)
    requires (dir == 1 || dir == -1) && t >= 4.0 && bands != [] && Bands(bands, t, dir)
    requires Sorted(Comparator(dir), s) && multiset(s) == multiset(Flatten(bands))
    requires k == SplitPoint(s, bands[|bands| - 1]) && c in s[k..]
    ensures c in bands[|bands| - 1]
  {
    var j :| k <= j < |s| && s[j] == c;
    if k < j {
      var b := BandOf(bands, s, c);
      OnlyLastAfterSplit(s, bands, t, dir, k, j, b);
    }
  }

  lemma LastApart(bands: seq<seq<Chunk>>, t: real, dir: int, earlier: seq<Chunk>, last: seq<Chunk>)
    requires (dir == 1 || dir == -1) && t >= 4.0 && bands != [] && Bands(bands, t, dir)
    requires earlier == Flatten(bands[..|bands| - 1]) && last == bands[|bands| - 1]
    ensures forall c | c in last :: c !in earlier
  {
    forall c | c in last ensures c !in earlier {
      LastApartFromEarlier(bands, t, dir, c);
    }
  }

  lemma TailAllInLast(s: seq<Chunk>, bands: seq<seq<Chunk>>, t: real, dir: int, tail: seq<Chunk>, last: seq<Chunk>)
    requires (dir == 1 || dir == -1) && t >= 4.0 && bands != [] && Bands(bands, t, dir)
    requires Sorted(Comparator(dir), s) && multiset(s) == multiset(Flatten(bands))
    requires last == bands[|bands| - 1] && tail == s[SplitPoint(s, last)..]
    ensures forall c | c in tail :: c in last
  {
    forall c | c in tail ensures c in last {
      TailInLast(s, bands, t, dir, SplitPoint(s, last), c);
    }
  }

  lemma SuffixMultisets(s: seq<Chunk>, front: seq<Chunk>, tail: seq<Chunk>, earlier: seq<Chunk>, last: seq<Chunk>)
    requires multiset(s) == multiset(earlier + last)
    requires front == s[..SplitPoint(s, last)] && tail == s[SplitPoint(s, last)..]
    requires forall c | c in tail :: c in last
    requires forall c | c in last :: c !in earlier
    ensures s == front + tail
    ensures multiset(tail) == multiset(last) && multiset(front) == multiset(earlier)
  {
    assert s == front + tail;
    SplitMultisets(front, tail, earlier, last);
  }

  /** The page less its last band, and that band. */
  lemma SplitLast(s: seq<Chunk>, bands: seq<seq<Chunk>>, t: real, dir: int, earlier: seq<Chunk>, last: seq<Chunk>)
    returns (front: seq<Chunk>, tail: seq<Chunk>)
    requires (dir == 1 || dir == -1) && t >= 4.0 && bands != [] && Bands(bands, t, dir)
    requires Sorted(Comparator(dir), s) && multiset(s) == multiset(Flatten(bands))
    requires earlier == Flatten(bands[..|bands| - 1]) && last == bands[|bands| - 1]
    ensures s == front + tail && multiset(tail) == multiset(last) && multiset(front) == multiset(earlier)
  {
    front, tail := s[..SplitPoint(s, last)], s[SplitPoint(s, last)..];
    TailAllInLast(s, bands, t, dir, tail, last);
    LastApart(bands, t, dir, earlier, last);
    SuffixMultisets(s, front, tail, earlier, last);
  }

  lemma GroupSnoc(s: seq<Chunk>, c: Chunk, t: real)
    ensures Group(s + [c], t) == WithChunk(Group(s, t), c, t)
  {
    assert (s + [c])[..|s|] == s;
  }

  lemma TailOpens(lines: seq<Line>, c: Chunk, t: real)
    requires forall l | l in lines :: Abs(c.y - l.y) > t
    ensures WithChunk(lines, c, t) == lines + [Line(c.y, [c])]
  {
    if lines != [] {
      assert lines[|lines| - 1] in lines;
    }
  }

  lemma TailJoins(lines: seq<Line>, l: Line, c: Chunk, t: real)
    requires Abs(c.y - l.y) <= t
    ensures WithChunk(lines + [l], c, t) == lines + [Line(l.y, l.chunks + [c])]
  {
  }

  lemma {:induction false} GroupTail(front: seq<Chunk>, tail: seq<Chunk>, t: real)
    requires tail != []
    requires forall c, l | c in tail && l in Group(front, t) :: Abs(c.y - l.y) > t
    requires forall c | c in tail :: Abs(c.y - tail[0].y) <= t
    ensures Group(front + tail, t) == Group(front, t) + [Line(tail[0].y, tail)]
    decreases |tail|
  {
    var m := |tail| - 1;
    var body, c := tail[..m], tail[m];
    assert c in tail;
    Sequences.LastApart(front, tail);
    GroupSnoc(front + body, c, t);
    if m == 0 {
      assert front + body == front;
      TailOpens(Group(front, t), c, t);
    } else {
      GroupTail(front, body, t);
      TailJoins(Group(front, t), Line(tail[0].y, body), c, t);
      Sequences.LastApart([], tail);
      assert [] + body == body && [] + tail == tail;
    }
  }

  lemma AnchorsAreChunks(s: seq<Chunk>, t: real, l: Line) returns (c: Chunk)
    requires t >= 0.0 && l in Group(s, t)
    ensures c in s && c.y == l.y
  {
    GroupKeepsOrder(s, t);
    var lines := Group(s, t);
    var i :| 0 <= i < |lines| && lines[i] == l;
    assert Tight(lines[i], t);
    c :| c in l.chunks && c.y == l.y;
    InFlatten(ChunksOf(lines), c);
    assert c in ChunksOf(lines)[i];
  }

  lemma SubBands(bands: seq<seq<Chunk>>, t: real, dir: int)
    requires bands != [] && Bands(bands, t, dir)
    ensures Bands(bands[..|bands| - 1], t, dir)
  {
  }

  lemma SortedPrefix(s: seq<Chunk>, dir: int, front: seq<Chunk>)
    requires front <= s && Sorted(Comparator(dir), s)
    ensures Sorted(Comparator(dir), front)
  {
  }

  ghost predicate MatchesBands(lines: seq<Line>, bands: seq<seq<Chunk>>) {
    && |lines| == |bands|
    && forall i | 0 <= i < |bands| :: multiset(lines[i].chunks) == multiset(bands[i])
  }

  lemma TailApart(front: seq<Chunk>, tail: seq<Chunk>, bands: seq<seq<Chunk>>, t: real, dir: int)
    requires (dir == 1 || dir == -1) && t >= 4.0 && bands != [] && Bands(bands, t, dir)
    requires multiset(tail) == multiset(bands[|bands| - 1])
    requires multiset(front) == multiset(Flatten(bands[..|bands| - 1]))
    ensures tail != []
    ensures forall c, l | c in tail && l in Group(front, t) :: Abs(c.y - l.y) > t
    ensures forall c | c in tail :: Abs(c.y - tail[0].y) <= t
  {
    var n := |bands| - 1;
    SameElements(tail, bands[n]);
    assert tail[0] in tail;
    forall c, l | c in tail && l in Group(front, t) ensures Abs(c.y - l.y) > t {
      var d := AnchorsAreChunks(front, t, l);
      var i := BandOf(bands[..n], front, d);
      assert d in bands[i] && c in bands[n];
      assert Ahead(d, c, dir) > t;
    }
  }

  lemma MatchesSnoc(lines: seq<Line>, bands: seq<seq<Chunk>>, l: Line)
    requires bands != [] && MatchesBands(lines, bands[..|bands| - 1])
    requires multiset(l.chunks) == multiset(bands[|bands| - 1])
    ensures MatchesBands(lines + [l], bands)
  {
    forall i | 0 <= i < |lines| ensures multiset((lines + [l])[i].chunks) == multiset(bands[i]) {
      assert bands[..|bands| - 1][i] == bands[i];
    }
  }

  lemma LastBandIsLastLine(s: seq<Chunk>, front: seq<Chunk>, tail: seq<Chunk>, bands: seq<seq<Chunk>>, t: real,
                           dir: int)
    requires (dir == 1 || dir == -1) && t >= 4.0 && bands != [] && Bands(bands, t, dir)
    requires s == front + tail
    requires multiset(tail) == multiset(bands[|bands| - 1])
    requires multiset(front) == multiset(Flatten(bands[..|bands| - 1]))
    ensures tail != [] && Group(s, t) == Group(front, t) + [Line(tail[0].y, tail)]
  {
    TailApart(front, tail, bands, t, dir);
    GroupTail(front, tail, t);
  }

  /** A line more, for a band more. */
  lemma BandAfterBands(s: seq<Chunk>, front: seq<Chunk>, tail: seq<Chunk>, bands: seq<seq<Chunk>>, t: real, dir: int)
    requires (dir == 1 || dir == -1) && t >= 4.0 && bands != [] && Bands(bands, t, dir)
    requires s == front + tail && MatchesBands(Group(front, t), bands[..|bands| - 1])
    requires multiset(tail) == multiset(bands[|bands| - 1])
    requires multiset(front) == multiset(Flatten(bands[..|bands| - 1]))
    ensures MatchesBands(Group(s, t), bands)
  {
    LastBandIsLastLine(s, front, tail, bands, t, dir);
    MatchesSnoc(Group(front, t), bands, Line(tail[0].y, tail));
  }

  lemma {:induction false} GroupingFindsBands(s: seq<Chunk>, bands: seq<seq<Chunk>>, t: real, dir: int)
    requires (dir == 1 || dir == -1) && t >= 4.0 && Bands(bands, t, dir)
    requires Sorted(Comparator(dir), s) && multiset(s) == multiset(Flatten(bands))
    ensures MatchesBands(Group(s, t), bands)
    decreases |bands|
  {
    if bands == [] {
      SameElements(s, []);
    } else {
      var n := |bands| - 1;
      var front, tail := SplitLast(s, bands, t, dir, Flatten(bands[..n]), bands[n]);
      SubBands(bands, t, dir);
      SortedPrefix(s, dir, front);
      GroupingFindsBands(front, bands[..n], t, dir);
      BandAfterBands(s, front, tail, bands, t, dir);
    }
  }

  /** Reading order. If the page's chunks are exactly the chunks of `bands`, and the threshold the code
      computes separates them, the comparator is a strict weak order and the printed lines are the bands,
      one for one and in reading order, each from left to right. */
  lemma ReadingOrderRecovered(input: seq<Chunk>, dir: int, sorted: seq<Chunk>, t: real, lines: seq<Line>,
                              bands: seq<seq<Chunk>>)
    requires Arranged(input, dir, sorted, t, lines)
    requires multiset(input) == multiset(Flatten(bands)) && Bands(bands, t, dir)
    ensures StrictWeakOrder(Comparator(dir), input)
    ensures MatchesBands(lines, bands)
    ensures forall i, a, b | 0 <= i < |lines| && 0 <= a < b < |lines[i].chunks| ::
              lines[i].chunks[a].x <= lines[i].chunks[b].x
  {
    ThresholdAtLeastTolerance(sorted);
    ComparatorIsOrder(bands, t, dir, input);
    GroupingFindsBands(sorted, bands, t, dir);
    LeftToRight(Group(sorted, t), lines);
    forall i | 0 <= i < |bands| ensures multiset(lines[i].chunks) == multiset(bands[i]) {
      assert lines[i].y == Group(sorted, t)[i].y;
    }
  }

  // ----- Evenly set pages --------------------------------------------------------------------------------

  /** Neighbours are between g and 2g apart, for some g above the tolerance. */
  ghost predicate Spaced(ys: seq<real>, g: real, dir: int) {
    && g > 4.0
    && forall k | 0 < k < |ys| :: g <= Directed(ys[k] - ys[k - 1], dir) < 2.0 * g
  }

  /** Every band on one y, the bands evenly spaced. */
  ghost predicate EvenlySet(bands: seq<seq<Chunk>>, ys: seq<real>, g: real, dir: int) {
    && Spaced(ys, g, dir) && |ys| == |bands|
    && (forall i | 0 <= i < |bands| :: bands[i] != [])
    && (forall i, c | 0 <= i < |bands| && c in bands[i] :: c.y == ys[i])
  }

  lemma {:induction false} YsSpread(ys: seq<real>, g: real, dir: int, i: nat, j: nat)
    requires Spaced(ys, g, dir) && i < j < |ys|
    ensures Directed(ys[j] - ys[i], dir) >= g
    ensures j == i + 1 ==> Directed(ys[j] - ys[i], dir) < 2.0 * g
    decreases j
  {
    if j > i + 1 {
      YsSpread(ys, g, dir, i, j - 1);
      assert Directed(ys[j] - ys[j - 1], dir) >= g;
    }
  }

  /** Two of the page's ys that have none strictly between them are between g and 2g apart. */
  lemma NeighbouringYs(ys: seq<real>, g: real, dir: int, i: nat, j: nat)
    requires Spaced(ys, g, dir) && i < j < |ys|
    requires forall y | y in ys :: !(ys[i] < y < ys[j]) && !(ys[j] < y < ys[i])
    ensures g <= Abs(ys[j] - ys[i]) < 2.0 * g
  {
    YsSpread(ys, g, dir, i, j);
    if j > i + 1 {
      YsSpread(ys, g, dir, i, i + 1);
      YsSpread(ys, g, dir, i + 1, j);
      assert ys[i + 1] in ys;
    }
  }

  lemma SameBandY(ys: seq<real>, g: real, dir: int, a: real, b: real)
    requires Spaced(ys, g, dir) && a in ys && b in ys && SameTenth(a, b)
    ensures a == b
  {
    assert Abs(a - b) < 0.2;
    var p: nat :| p < |ys| && ys[p] == a;
    var r: nat :| r < |ys| && ys[r] == b;
    if p < r {
      YsSpread(ys, g, dir, p, r);
    } else if r < p {
      YsSpread(ys, g, dir, r, p);
    }
  }

  lemma BandYIsKept(s: seq<Chunk>, ys: seq<real>, g: real, dir: int, y: real)
    requires Spaced(ys, g, dir) && StandsOn(s, ys) && y in ys
    ensures y in DistinctYs(s)
  {
    var c :| c in s && c.y == y;
    var i := FirstWithTenth(s, c);
    KeptAreFirst(s, s[i].y);
    assert s[i] in s;
    SameBandY(ys, g, dir, s[i].y, y);
  }

  /** The ys that the threshold looks at, sorted: they are the page's ys, each once. */
  lemma SortedYsAreTheYs(s: seq<Chunk>, ys: seq<real>, g: real, dir: int)
    requires Spaced(ys, g, dir) && StandsOn(s, ys)
    ensures var q := Ascending(DistinctYs(s));
            && (forall y :: y in q <==> y in ys)
            && forall i | 0 < i < |q| :: q[i - 1] < q[i]
  {
    var d := DistinctYs(s);
    var q := Ascending(d);
    AscendingSorts(d);
    SameElements(q, d);
    forall y ensures y in d <==> y in ys {
      if y in d {
        var c := DistinctYsComeFromChunks(s, y);
      }
      if y in ys {
        BandYIsKept(s, ys, g, dir, y);
      }
    }
    forall i | 0 < i < |q| ensures q[i - 1] < q[i] {
      DistinctYsCountOnce(s, q[i]);
      SortedOnceIsStrict(q, i);
    }
  }

  lemma {:induction false} StrictlyUp(q: seq<real>, i: nat, j: nat)
    requires i < j < |q| && forall k | 0 < k < |q| :: q[k - 1] < q[k]
    ensures q[i] < q[j]
    decreases j
  {
    if i + 1 < j {
      StrictlyUp(q, i, j - 1);
    }
  }

  /** Every gap of the sorted ys is a gap between neighbouring bands. */
  lemma GapIsBandGap(q: seq<real>, ys: seq<real>, g: real, dir: int, i: nat)
    requires Spaced(ys, g, dir) && 0 < i < |q|
    requires forall y :: y in q <==> y in ys
    requires forall k | 0 < k < |q| :: q[k - 1] < q[k]
    ensures g <= q[i] - q[i - 1] < 2.0 * g
  {
    var a, b := q[i - 1], q[i];
    assert a in q && b in q;
    forall y | y in ys ensures !(a < y < b) {
      var k: nat :| k < |q| && q[k] == y;
      if k < i - 1 {
        StrictlyUp(q, k, i - 1);
      } else if k > i {
        StrictlyUp(q, i, k);
      }
    }
    var p: nat :| p < |ys| && ys[p] == a;
    var r: nat :| r < |ys| && ys[r] == b;
    if p < r {
      NeighbouringYs(ys, g, dir, p, r);
    } else {
      NeighbouringYs(ys, g, dir, r, p);
    }
  }

  lemma {:induction false} GapsFacts(q: seq<real>, g: real)
    requires g > 0.5
    requires forall i | 0 < i < |q| :: g <= q[i] - q[i - 1] < 2.0 * g
    ensures |Gaps(q)| == if |q| == 0 then 0 else |q| - 1
    ensures forall x | x in Gaps(q) :: g <= x < 2.0 * g
    decreases |q|
  {
    if |q| >= 2 {
      GapsFacts(q[..|q| - 1], g);
    }
  }

  lemma AtLeastTwo(ys: seq<real>, g: real, dir: int, q: seq<real>)
    requires Spaced(ys, g, dir) && |ys| >= 2 && forall y :: y in q <==> y in ys
    ensures |q| >= 2
  {
    YsSpread(ys, g, dir, 0, 1);
    assert ys[0] in q && ys[1] in q && ys[0] != ys[1];
    var a :| 0 <= a < |q| && q[a] == ys[0];
    var b :| 0 <= b < |q| && q[b] == ys[1];
  }

  lemma MedianBelow(gaps: seq<real>, bound: real)
    requires gaps != [] && forall x | x in gaps :: x < bound
    ensures |Ascending(gaps)| == |gaps| && Ascending(gaps)[|gaps| / 2] < bound
  {
    AscendingSorts(gaps);
    SameElements(gaps, Ascending(gaps));
    assert Ascending(gaps)[|gaps| / 2] in gaps;
  }

  lemma PageGaps(s: seq<Chunk>, ys: seq<real>, g: real, dir: int)
    requires Spaced(ys, g, dir) && |ys| >= 2 && StandsOn(s, ys)
    ensures var gaps := Gaps(Ascending(DistinctYs(s))); gaps != [] && forall x | x in gaps :: x < 2.0 * g
  {
    var q := Ascending(DistinctYs(s));
    SortedYsAreTheYs(s, ys, g, dir);
    forall i | 0 < i < |q| ensures g <= q[i] - q[i - 1] < 2.0 * g {
      GapIsBandGap(q, ys, g, dir, i);
    }
    GapsFacts(q, g);
    AtLeastTwo(ys, g, dir, q);
  }

  /** On an evenly set page of at least two bands the threshold is below the smallest gap. */
  lemma ThresholdBelowGap(s: seq<Chunk>, ys: seq<real>, g: real, dir: int)
    requires Spaced(ys, g, dir) && |ys| >= 2 && StandsOn(s, ys)
    ensures Threshold(s) < g
  {
    PageGaps(s, ys, g, dir);
    MedianBelow(Gaps(Ascending(DistinctYs(s))), 2.0 * g);
    TwoYsTwoChunks(s, ys, g, dir);
  }

  lemma TwoYsTwoChunks(s: seq<Chunk>, ys: seq<real>, g: real, dir: int)
    requires Spaced(ys, g, dir) && |ys| >= 2 && StandsOn(s, ys)
    ensures |s| >= 2
  {
    YsSpread(ys, g, dir, 0, 1);
    assert ys[0] in ys && ys[1] in ys;
    var c :| c in s && c.y == ys[0];
    var d :| d in s && d.y == ys[1];
    var a :| 0 <= a < |s| && s[a] == c;
    var b :| 0 <= b < |s| && s[b] == d;
  }

  lemma EvenPageStandsOn(s: seq<Chunk>, bands: seq<seq<Chunk>>, ys: seq<real>, g: real, dir: int)
    requires EvenlySet(bands, ys, g, dir) && multiset(s) == multiset(Flatten(bands))
    ensures StandsOn(s, ys)
  {
    SameElements(s, Flatten(bands));
    forall c | c in s ensures c.y in ys {
      var i := BandOf(bands, s, c);
      assert c.y == ys[i];
    }
    forall y | y in ys ensures exists c :: c in s && c.y == y {
      var i :| 0 <= i < |ys| && ys[i] == y;
      var c := bands[i][0];
      assert c in bands[i];
      InFlatten(bands, c);
      assert c in s && c.y == y;
    }
  }

  /** Evenly set pages meet the hypothesis of ReadingOrderRecovered, whatever order the sort leaves. */
  lemma EvenlySetIsBanded(sorted: seq<Chunk>, bands: seq<seq<Chunk>>, ys: seq<real>, g: real, dir: int)
    requires EvenlySet(bands, ys, g, dir) && multiset(sorted) == multiset(Flatten(bands))
    ensures Bands(bands, Threshold(sorted), dir)
  {
    EvenPageStandsOn(sorted, bands, ys, g, dir);
    if |ys| >= 2 {
      ThresholdBelowGap(sorted, ys, g, dir);
    }
    forall i, j, c, d | 0 <= i < j < |bands| && c in bands[i] && d in bands[j]
      ensures Ahead(c, d, dir) > Threshold(sorted)
    {
      YsSpread(ys, g, dir, i, j);
    }
  }

  /** A page set on evenly spaced baselines is read back line by line. */
  lemma EvenPageRecovered(input: seq<Chunk>, dir: int, sorted: seq<Chunk>, t: real, lines: seq<Line>,
                          bands: seq<seq<Chunk>>, ys: seq<real>, g: real)
    requires Arranged(input, dir, sorted, t, lines)
    requires multiset(input) == multiset(Flatten(bands)) && EvenlySet(bands, ys, g, dir)
    ensures MatchesBands(lines, bands)
    ensures forall i, a, b | 0 <= i < |lines| && 0 <= a < b < |lines[i].chunks| ::
              lines[i].chunks[a].x <= lines[i].chunks[b].x
  {
    EvenlySetIsBanded(sorted, bands, ys, g, dir);
    ReadingOrderRecovered(input, dir, sorted, t, lines, bands);
  }
}
