/** Reading-order reconstruction: sort with a tolerance, group into lines, print. */
module ReadingOrder {
  import opened ContentStream
  import opened SortSlice
  import Sequences

  // ----- Direction ---------------------------------------------------------------

  ghost predicate Extremes(chunks: seq<Chunk>, lo: real, hi: real) {
    && (forall c | c in chunks :: lo <= c.y <= hi)
    && (exists c :: c in chunks && c.y == lo)
    && (exists c :: c in chunks && c.y == hi)
  }

  /** 1 sorts by ascending y (y-down pages), -1 by descending y. */
  ghost predicate IsYDirection(chunks: seq<Chunk>, dir: int) {
    if chunks == [] then dir == 1
    else
      forall lo, hi | Extremes(chunks, lo, hi) ::
        dir == if lo == hi || (lo >= 0.0 && lo / (hi - lo) < 0.10) then 1 else -1
  }

  lemma OneMoreExtreme(was: seq<Chunk>, now: seq<Chunk>, c: Chunk, lo: real, hi: real)
    requires Extremes(was, lo, hi) && forall d :: d in now <==> d in was || d == c
    ensures Extremes(now, if c.y < lo then c.y else lo, if c.y > hi then c.y else hi)
  {
  }

  lemma ExtremesUnique(chunks: seq<Chunk>, a: real, b: real, c: real, d: real)
    requires Extremes(chunks, a, b) && Extremes(chunks, c, d)
    ensures a == c && b == d
  {
  }

  method YDirection(chunks: seq<Chunk>) returns (dir: int)
    ensures IsYDirection(chunks, dir)
    ensures dir == 1 || dir == -1
  {
    if |chunks| == 0 {
      return 1;
    }
    var yMin, yMax := chunks[0].y, chunks[0].y;
    for i := 0 to |chunks|
      invariant Extremes(chunks[..i] + [chunks[0]], yMin, yMax)
    {
      ghost var was := chunks[..i] + [chunks[0]];
      ghost var now := chunks[..i + 1] + [chunks[0]];
      assert chunks[..i + 1] == chunks[..i] + [chunks[i]];
      OneMoreExtreme(was, now, chunks[i], yMin, yMax);
      if chunks[i].y < yMin {
        yMin := chunks[i].y;
      }
      if chunks[i].y > yMax {
        yMax := chunks[i].y;
      }
    }
    assert Extremes(chunks, yMin, yMax) by {
      assert forall c :: c in chunks[..|chunks|] + [chunks[0]] <==> c in chunks;
    }
    forall lo, hi | Extremes(chunks, lo, hi) ensures lo == yMin && hi == yMax {
      ExtremesUnique(chunks, lo, hi, yMin, yMax);
    }
    var span := yMax - yMin;
    if span == 0.0 {
      return 1;
    }
    if yMin >= 0.0 && yMin / span < 0.10 {
      return 1;
    }
    return -1;
  }

  lemma YDirectionUnique(chunks: seq<Chunk>, d: int, e: int)
    requires IsYDirection(chunks, d) && IsYDirection(chunks, e)
    ensures d == e
  {
    if chunks != [] {
      var lo, hi := ExtremesExist(chunks);
    }
  }

  lemma {:induction false} ExtremesExist(chunks: seq<Chunk>) returns (lo: real, hi: real)
    requires chunks != []
    ensures Extremes(chunks, lo, hi)
  {
    var last := chunks[|chunks| - 1];
    lo, hi := last.y, last.y;
    if |chunks| > 1 {
      var front := chunks[..|chunks| - 1];
      var a, b := ExtremesExist(front);
      lo, hi := if a < lo then a else lo, if b > hi then b else hi;
      assert forall c :: c in chunks <==> c in front || c == last;
    }
  }

  /** What decides the direction, chunk by chunk: ascending when all stand at one height, or when none stands
      below zero and some chunk stands more than eleven times as high as another. */
  lemma DirectionOverChunks(chunks: seq<Chunk>, dir: int)
    requires IsYDirection(chunks, dir)
    ensures dir == 1 <==>
            || (forall c, d | c in chunks && d in chunks :: c.y == d.y)
            || ((forall c | c in chunks :: c.y >= 0.0) && exists c, d | c in chunks && d in chunks :: 11.0 * c.y < d.y)
    ensures dir == 1 || dir == -1
  {
    if chunks != [] {
      var lo, hi := ExtremesExist(chunks);
      var low :| low in chunks && low.y == lo;
      var high :| high in chunks && high.y == hi;
      if lo < hi {
        TenthOfSpan(lo, hi);
      }
    }
  }

  lemma LessTimes(a: real, b: real, s: real)
    requires s > 0.0
    ensures a < b <==> a * s < b * s
  {
  }

  lemma TenthOfSpan(lo: real, hi: real)
    requires lo < hi
    ensures lo / (hi - lo) < 0.10 <==> 11.0 * lo < hi
  {
    var span := hi - lo;
    var share := lo / span;
    assert share * span == lo;
    LessTimes(share, 0.10, span);
  }

  // ----- The tolerance comparator --------------------------------------------------

  function Abs(r: real): real {
    if r < 0.0 then -r else r
  }

  const TOLERANCE := 4.0

  predicate Before(c: Chunk, d: Chunk, dir: int) {
    var dy := (c.y - d.y) * (dir as real);
    if Abs(dy) > TOLERANCE then dy < 0.0 else c.x < d.x
  }

  function Comparator(dir: int): (Chunk, Chunk) -> bool {
    (c: Chunk, d: Chunk) => Before(c, d, dir)
  }

  const LEFT_OF: (Chunk, Chunk) -> bool := (c: Chunk, d: Chunk) => c.x < d.x
  const LESS_REAL: (real, real) -> bool := (a: real, b: real) => a < b

  lemma ComparatorAsymmetric(dir: int)
    ensures Asymmetric(Comparator(dir))
  {
    forall c: Chunk, d: Chunk | Before(c, d, dir) ensures !Before(d, c, dir) {
      assert (d.y - c.y) * (dir as real) == -((c.y - d.y) * (dir as real));
    }
  }

  /** Within tolerance the comparator falls back to x, so it can go round in circles. */
  lemma ComparatorCanCycle()
    ensures var a, b, c := Chunk(2.0, 0.0, "a"), Chunk(1.0, 3.0, "b"), Chunk(0.0, 6.0, "c");
            && IsYDirection([a, b, c], 1)
            && Before(a, c, 1) && Before(c, b, 1) && Before(b, a, 1) && !StrictWeakOrder(Comparator(1), [a, b, c])
  {
    var a, b, c := Chunk(2.0, 0.0, "a"), Chunk(1.0, 3.0, "b"), Chunk(0.0, 6.0, "c");
    var s := [a, b, c];
    assert a in s && b in s && c in s;
    forall lo, hi | Extremes(s, lo, hi) ensures lo == 0.0 && hi == 6.0 {
      assert Extremes(s, 0.0, 6.0);
      ExtremesUnique(s, lo, hi, 0.0, 6.0);
    }
    assert Comparator(1)(a, c) && Comparator(1)(c, b) && !Comparator(1)(a, b);
  }

  // ----- The grouping threshold ------------------------------------------------------

  /** Conversion to an integer drops the fraction, towards zero. */
  function Truncate(r: real): int {
    if r >= 0.0 then r.Floor else -((-r).Floor)
  }

  function Key(c: Chunk): int {
    Truncate(c.y * 10.0)
  }

  function Keys(chunks: seq<Chunk>): set<int> {
    set c | c in chunks :: Key(c)
  }

  /** The y of the first chunk met with each key. */
  function DistinctYs(chunks: seq<Chunk>): seq<real>
    decreases |chunks|
  {
    if chunks == [] then []
    else
      var front, c := chunks[..|chunks| - 1], chunks[|chunks| - 1];
      DistinctYs(front) + if Key(c) in Keys(front) then [] else [c.y]
  }

  function InsertReal(r: real, s: seq<real>): seq<real> {
    if s == [] then [r] else if r < s[0] then [r] + s else [s[0]] + InsertReal(r, s[1..])
  }

  function Ascending(s: seq<real>): seq<real> {
    if s == [] then [] else InsertReal(s[0], Ascending(s[1..]))
  }

  /** Distances between neighbours, those of at most half a point left out. */
  function Gaps(ys: seq<real>): seq<real>
    decreases |ys|
  {
    if |ys| < 2 then []
    else
      var g := Abs(ys[|ys| - 1] - ys[|ys| - 2]);
      Gaps(ys[..|ys| - 1]) + if g > 0.5 then [g] else []
  }

  function Threshold(chunks: seq<Chunk>): real {
    var gaps := Ascending(Gaps(Ascending(DistinctYs(chunks))));
    if |chunks| < 2 || gaps == [] then 10.0
    else if gaps[|gaps| / 2] * 0.5 < 4.0 then 4.0
    else gaps[|gaps| / 2] * 0.5
  }

  lemma {:induction false} InsertRealAdds(r: real, s: seq<real>)
    ensures multiset(InsertReal(r, s)) == multiset(s) + multiset{r}
  {
    if s != [] {
      assert s == [s[0]] + s[1..];
      if r >= s[0] {
        InsertRealAdds(r, s[1..]);
      }
    }
  }

  lemma Prepends(r: real, s: seq<real>)
    requires Sorted(LESS_REAL, s) && forall x | x in s :: r <= x
    ensures Sorted(LESS_REAL, [r] + s)
  {
    var t := [r] + s;
    forall i, j | 0 <= i < j < |t| ensures !LESS_REAL(t[j], t[i]) {
      assert t[j] == s[j - 1] && s[j - 1] in s;
      if i > 0 {
        assert t[i] == s[i - 1] && !LESS_REAL(s[j - 1], s[i - 1]);
      }
    }
  }

  lemma {:induction false} InsertRealSorts(r: real, s: seq<real>)
    requires Sorted(LESS_REAL, s)
    ensures Sorted(LESS_REAL, InsertReal(r, s))
  {
    if s != [] {
      SortedTail(s);
      if r < s[0] {
        Prepends(r, s);
      } else {
        var t := InsertReal(r, s[1..]);
        InsertRealSorts(r, s[1..]);
        InsertRealAdds(r, s[1..]);
        forall x | x in t ensures s[0] <= x {
          assert x in multiset(t);
        }
        Prepends(s[0], t);
      }
    }
  }

  lemma {:induction false} AscendingSorts(s: seq<real>)
    ensures Sorted(LESS_REAL, Ascending(s)) && multiset(Ascending(s)) == multiset(s)
  {
    if s != [] {
      AscendingSorts(s[1..]);
      InsertRealSorts(s[0], Ascending(s[1..]));
      InsertRealAdds(s[0], Ascending(s[1..]));
      assert s == [s[0]] + s[1..];
    }
  }

  lemma SortedTail(s: seq<real>)
    requires s != [] && Sorted(LESS_REAL, s)
    ensures Sorted(LESS_REAL, s[1..])
    ensures multiset(s[1..]) == multiset(s) - multiset{s[0]}
    ensures forall r | r in s :: s[0] <= r
  {
    assert s == [s[0]] + s[1..];
    forall i, j | 0 <= i < j < |s[1..]| ensures !LESS_REAL(s[1..][j], s[1..][i]) {
      assert !LESS_REAL(s[j + 1], s[i + 1]);
    }
    forall r | r in s ensures s[0] <= r {
      var i :| 0 <= i < |s| && s[i] == r;
      assert i > 0 ==> !LESS_REAL(s[i], s[0]);
    }
  }

  lemma SameHead(s: seq<real>, t: seq<real>)
    requires s != [] && t != [] && Sorted(LESS_REAL, s) && Sorted(LESS_REAL, t) && multiset(s) == multiset(t)
    ensures s[0] == t[0] && multiset(s[1..]) == multiset(t[1..])
    ensures Sorted(LESS_REAL, s[1..]) && Sorted(LESS_REAL, t[1..])
  {
    SameElements(s, t);
    SortedTail(s);
    SortedTail(t);
    assert s[0] in t && t[0] in s;
  }

  lemma {:induction false} SortedUnique(s: seq<real>, t: seq<real>)
    requires Sorted(LESS_REAL, s) && Sorted(LESS_REAL, t) && multiset(s) == multiset(t)
    ensures s == t
    decreases |s|
  {
    SameElements(s, t);
    if s != [] {
      SameHead(s, t);
      SortedUnique(s[1..], t[1..]);
      assert s == [s[0]] + s[1..] && t == [t[0]] + t[1..];
    }
  }

  method SortReals(s: seq<real>) returns (r: seq<real>)
    ensures r == Ascending(s)
  {
    r := SortedCopy(s, LESS_REAL);
    AscendingSorts(s);
    SortedUnique(r, Ascending(s));
  }

  lemma NextKey(s: seq<Chunk>, c: Chunk)
    ensures Keys(s + [c]) == Keys(s) + {Key(c)}
    ensures DistinctYs(s + [c]) == DistinctYs(s) + if Key(c) in Keys(s) then [] else [c.y]
  {
    assert (s + [c])[..|s|] == s;
    assert c in s + [c];
    forall d | d in s + [c] ensures Key(d) in Keys(s) + {Key(c)} {
      assert d in s || d == c;
    }
    forall d | d in s ensures Key(d) in Keys(s + [c]) {
      assert d in s + [c];
    }
  }

  method CollectYs(chunks: seq<Chunk>) returns (ys: seq<real>)
    ensures ys == DistinctYs(chunks)
  {
    ys := [];
    var seen: set<int> := {};
    for i := 0 to |chunks|
      invariant ys == DistinctYs(chunks[..i]) && seen == Keys(chunks[..i])
    {
      NextKey(chunks[..i], chunks[i]);
      Sequences.NextTaken(chunks, i);
      var k := Truncate(chunks[i].y * 10.0);
      if k !in seen {
        seen := seen + {k};
        ys := ys + [chunks[i].y];
      }
    }
    assert chunks[..|chunks|] == chunks;
  }

  method CollectGaps(ys: seq<real>) returns (gaps: seq<real>)
    ensures gaps == Gaps(ys)
  {
    gaps := [];
    if |ys| < 2 {
      return;
    }
    for i := 1 to |ys|
      invariant gaps == Gaps(ys[..i])
    {
      assert ys[..i + 1][..i] == ys[..i];
      var g := Abs(ys[i] - ys[i - 1]);
      if g > 0.5 {
        gaps := gaps + [g];
      }
    }
    assert ys[..|ys|] == ys;
  }

  method LineGroupThreshold(chunks: seq<Chunk>) returns (thresh: real)
    ensures thresh == Threshold(chunks)
  {
    if |chunks| < 2 {
      return 10.0;
    }
    var ys := CollectYs(chunks);
    ys := SortReals(ys);
    var gaps := CollectGaps(ys);
    if |ys| < 2 || |gaps| == 0 {
      assert Ascending([]) == [];
      return 10.0;
    }
    AscendingSorts(gaps);
    SameElements(gaps, Ascending(gaps));
    gaps := SortReals(gaps);
    var median := gaps[|gaps| / 2];
    thresh := median * 0.5;
    if thresh < 4.0 {
      thresh := 4.0;
    }
  }

  // ----- Lines ---------------------------------------------------------------------------

  datatype Line = Line(y: real, chunks: seq<Chunk>)

  /** A chunk starts a line of its own, or joins the last line. */
  function WithChunk(lines: seq<Line>, c: Chunk, t: real): seq<Line> {
    if lines == [] || Abs(c.y - lines[|lines| - 1].y) > t then lines + [Line(c.y, [c])]
    else
      var open := lines[|lines| - 1];
      lines[|lines| - 1 := Line(open.y, open.chunks + [c])]
  }

  /** Greedy grouping: a chunk joins the open line while it is within `t` of that line's first chunk. */
  function Group(s: seq<Chunk>, t: real): seq<Line>
    decreases |s|
  {
    if s == [] then [] else WithChunk(Group(s[..|s| - 1], t), s[|s| - 1], t)
  }

  method GroupLines(s: seq<Chunk>, t: real) returns (lines: seq<Line>)
    ensures lines == Group(s, t)
  {
    lines := [];
    for i := 0 to |s|
      invariant lines == Group(s[..i], t)
    {
      assert s[..i + 1][..i] == s[..i];
      var c := s[i];
      if |lines| == 0 || Abs(c.y - lines[|lines| - 1].y) > t {
        lines := lines + [Line(c.y, [c])];
      } else {
        var open := lines[|lines| - 1];
        lines := lines[|lines| - 1 := Line(open.y, open.chunks + [c])];
      }
    }
    assert s[..|s|] == s;
  }

  function Joined(chunks: seq<Chunk>): string
    decreases |chunks|
  {
    if chunks == [] then "" else Joined(chunks[..|chunks| - 1]) + chunks[|chunks| - 1].text
  }

  predicate SectionBreak(lines: seq<Line>, i: nat, t: real)
    requires 0 < i < |lines|
  {
    Abs(lines[i].y - lines[i - 1].y) > t * 3.0
  }

  function Separator(lines: seq<Line>, i: nat, t: real): string
    requires i < |lines|
  {
    if i == 0 then "" else if SectionBreak(lines, i, t) then "\n\n" else "\n"
  }

  function Render(lines: seq<Line>, t: real): string
    decreases |lines|
  {
    if lines == [] then ""
    else
      var n := |lines| - 1;
      Render(lines[..n], t) + Separator(lines, n, t) + Joined(lines[n].chunks)
  }

  /** Lines whose chunks have been put in order of x, everything else as in `before`. */
  ghost predicate LinesOrdered(before: seq<Line>, after: seq<Line>) {
    && |after| == |before|
    && forall i | 0 <= i < |before| ::
         && after[i].y == before[i].y
         && multiset(after[i].chunks) == multiset(before[i].chunks)
         && Sorted(LEFT_OF, after[i].chunks)
  }

  /** What the code does to a page: one sort, one threshold, one grouping, one sort per line. The order
      left by a sort among elements its comparator ties, or cycles on, is not fixed. */
  ghost predicate Arranged(input: seq<Chunk>, dir: int, sorted: seq<Chunk>, t: real, lines: seq<Line>) {
    && IsYDirection(input, dir) && (dir == 1 || dir == -1)
    && multiset(sorted) == multiset(input)
    && (StrictWeakOrder(Comparator(dir), input) ==> Sorted(Comparator(dir), sorted))
    && t == Threshold(sorted)
    && LinesOrdered(Group(sorted, t), lines)
  }

  method PrintSeparator(lines: seq<Line>, i: nat, t: real, dir: int) returns (sep: string)
    requires (dir == 1 || dir == -1) && i < |lines|
    ensures sep == Separator(lines, i, t)
  {
    sep := "";
    if i > 0 {
      var gap := Abs(lines[i].y - lines[i - 1].y) * (dir as real);
      if gap < 0.0 {
        gap := -gap;
      }
      if gap > t * 3.0 {
        sep := sep + "\n";
      }
      sep := sep + "\n";
    }
  }

  method JoinChunks(chunks: seq<Chunk>) returns (text: string)
    ensures text == Joined(chunks)
  {
    text := "";
    for j := 0 to |chunks|
      invariant text == Joined(chunks[..j])
    {
      assert chunks[..j + 1][..j] == chunks[..j];
      text := text + chunks[j].text;
    }
    assert chunks[..|chunks|] == chunks;
  }

  lemma OrderedOneMore(grouped: seq<Line>, lines: seq<Line>, l: Line)
    requires |lines| < |grouped| && LinesOrdered(grouped[..|lines|], lines)
    requires l.y == grouped[|lines|].y && multiset(l.chunks) == multiset(grouped[|lines|].chunks)
    requires Sorted(LEFT_OF, l.chunks)
    ensures LinesOrdered(grouped[..|lines| + 1], lines + [l])
  {
    var i, longer := |lines|, lines + [l];
    forall k | 0 <= k < i
      ensures longer[k].y == grouped[..i + 1][k].y
      ensures multiset(longer[k].chunks) == multiset(grouped[..i + 1][k].chunks)
      ensures Sorted(LEFT_OF, longer[k].chunks)
    {
      assert longer[k] == lines[k] && grouped[..i + 1][k] == grouped[..i][k];
    }
  }

  lemma RenderOneMore(grouped: seq<Line>, lines: seq<Line>, l: Line, t: real)
    requires |lines| < |grouped| && LinesOrdered(grouped[..|lines|], lines) && l.y == grouped[|lines|].y
    ensures Render(lines + [l], t) == Render(lines, t) + Separator(grouped, |lines|, t) + Joined(l.chunks)
  {
    var i, longer := |lines|, lines + [l];
    assert longer[..i] == lines;
    if i > 0 {
      assert longer[i - 1].y == grouped[..i][i - 1].y;
    }
    assert Separator(longer, i, t) == Separator(grouped, i, t);
  }

  method PrintLines(grouped: seq<Line>, t: real, dir: int) returns (result: string, lines: seq<Line>)
    requires dir == 1 || dir == -1
    ensures LinesOrdered(grouped, lines) && result == Render(lines, t)
  {
    result := "";
    lines := [];
    for i := 0 to |grouped|
      invariant |lines| == i
      invariant LinesOrdered(grouped[..i], lines)
      invariant result == Render(lines, t)
    {
      var sep := PrintSeparator(grouped, i, t, dir);
      var inOrder := SortedCopy(grouped[i].chunks, LEFT_OF);
      assert Asymmetric(LEFT_OF) && StrictWeakOrder(LEFT_OF, grouped[i].chunks);
      var text := JoinChunks(inOrder);
      OrderedOneMore(grouped, lines, Line(grouped[i].y, inOrder));
      RenderOneMore(grouped, lines, Line(grouped[i].y, inOrder), t);
      result := result + sep + text;
      lines := lines + [Line(grouped[i].y, inOrder)];
    }
    assert grouped[..|grouped|] == grouped;
  }

  /** The printed page, with the lines it prints. The caller's slice is left sorted. */
  method ChunksToText(chunks: array<Chunk>) returns (result: string)
    modifies chunks
    ensures chunks.Length == 0 ==> result == ""
    ensures chunks.Length > 0 ==>
              exists dir, t, lines :: Arranged(old(chunks[..]), dir, chunks[..], t, lines) && result == Render(lines, t)
  {
    if chunks.Length == 0 {
      return "";
    }
    var yDir := YDirection(chunks[..]);
    ComparatorAsymmetric(yDir);
    InsertionSort(chunks, Comparator(yDir));
    var lineThresh := LineGroupThreshold(chunks[..]);
    var grouped := GroupLines(chunks[..], lineThresh);
    var lines;
    result, lines := PrintLines(grouped, lineThresh, yDir);
    assert Arranged(old(chunks[..]), yDir, chunks[..], lineThresh, lines);
  }
}
