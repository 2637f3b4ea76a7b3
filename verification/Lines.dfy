/** What holds of the printed lines on every page, whether or not the comparator is an order. */
module Lines {
  import opened ContentStream
  import opened SortSlice
  import opened ReadingOrder
  import Sequences

  function Flatten(lines: seq<seq<Chunk>>): seq<Chunk>
    decreases |lines|
  {
    if lines == [] then [] else Flatten(lines[..|lines| - 1]) + lines[|lines| - 1]
  }

  function ChunksOf(lines: seq<Line>): seq<seq<Chunk>> {
    seq(|lines|, i requires 0 <= i < |lines| => lines[i].chunks)
  }

  lemma FlattenSnoc(lines: seq<seq<Chunk>>, l: seq<Chunk>)
    ensures Flatten(lines + [l]) == Flatten(lines) + l
  {
    assert (lines + [l])[..|lines|] == lines;
  }

  lemma {:induction false} FlattenPermuted(a: seq<seq<Chunk>>, b: seq<seq<Chunk>>)
    requires |a| == |b| && forall i | 0 <= i < |a| :: multiset(a[i]) == multiset(b[i])
    ensures multiset(Flatten(a)) == multiset(Flatten(b))
    decreases |a|
  {
    if a != [] {
      FlattenPermuted(a[..|a| - 1], b[..|b| - 1]);
    }
  }

  /** The line has chunks, one of them at its anchor, all of them within `t` of it. */
  ghost predicate Tight(l: Line, t: real) {
    && (exists c :: c in l.chunks && c.y == l.y)
    && (forall c | c in l.chunks :: Abs(c.y - l.y) <= t)
  }

  /** Every line is tight, and neighbouring anchors are further apart than `t`. */
  ghost predicate WellGrouped(lines: seq<Line>, t: real) {
    && (forall i | 0 <= i < |lines| :: Tight(lines[i], t))
    && (forall i | 0 < i < |lines| :: Abs(lines[i].y - lines[i - 1].y) > t)
  }

  /** The anchor is the first chunk's y. */
  predicate Anchored(lines: seq<Line>) {
    forall i | 0 <= i < |lines| :: lines[i].chunks != [] && lines[i].chunks[0].y == lines[i].y
  }

  lemma OpenGrouped(lines: seq<Line>, c: Chunk, t: real)
    requires t >= 0.0 && WellGrouped(lines, t)
    requires lines == [] || Abs(c.y - lines[|lines| - 1].y) > t
    ensures WellGrouped(lines + [Line(c.y, [c])], t)
  {
    assert c in [c];
  }

  lemma OpenFlat(lines: seq<Line>, c: Chunk)
    ensures Flatten(ChunksOf(lines + [Line(c.y, [c])])) == Flatten(ChunksOf(lines)) + [c]
  {
    assert ChunksOf(lines + [Line(c.y, [c])]) == ChunksOf(lines) + [[c]];
    FlattenSnoc(ChunksOf(lines), [c]);
  }

  lemma LongerIsTight(l: Line, c: Chunk, t: real)
    requires Tight(l, t) && Abs(c.y - l.y) <= t
    ensures Tight(Line(l.y, l.chunks + [c]), t)
  {
    var d :| d in l.chunks && d.y == l.y;
    assert d in l.chunks + [c];
  }

  lemma ExtendGrouped(lines: seq<Line>, c: Chunk, t: real)
    requires lines != [] && WellGrouped(lines, t) && Abs(c.y - lines[|lines| - 1].y) <= t
    ensures var open := lines[|lines| - 1];
            WellGrouped(lines[|lines| - 1 := Line(open.y, open.chunks + [c])], t)
  {
    LongerIsTight(lines[|lines| - 1], c, t);
  }

  lemma ExtendFlat(lines: seq<Line>, c: Chunk)
    requires lines != []
    ensures var open := lines[|lines| - 1];
            Flatten(ChunksOf(lines[|lines| - 1 := Line(open.y, open.chunks + [c])])) ==
            Flatten(ChunksOf(lines)) + [c]
  {
    var n := |lines| - 1;
    var open := lines[n];
    var before := ChunksOf(lines)[..n];
    assert ChunksOf(lines) == before + [open.chunks];
    assert ChunksOf(lines[n := Line(open.y, open.chunks + [c])]) == before + [open.chunks + [c]];
    FlattenSnoc(before, open.chunks);
    FlattenSnoc(before, open.chunks + [c]);
  }

  lemma ChunkKeepsOrder(lines: seq<Line>, c: Chunk, t: real)
    requires t >= 0.0 && WellGrouped(lines, t)
    ensures WellGrouped(WithChunk(lines, c, t), t)
    ensures Flatten(ChunksOf(WithChunk(lines, c, t))) == Flatten(ChunksOf(lines)) + [c]
  {
    if lines == [] || Abs(c.y - lines[|lines| - 1].y) > t {
      OpenGrouped(lines, c, t);
      OpenFlat(lines, c);
    } else {
      ExtendGrouped(lines, c, t);
      ExtendFlat(lines, c);
    }
  }

  /** The lines cut the sorted page as it stands: every chunk is within `t` of its line's anchor, and the next
      line's anchor is not. */
  lemma {:induction false} GroupKeepsOrder(s: seq<Chunk>, t: real)
    requires t >= 0.0
    ensures Flatten(ChunksOf(Group(s, t))) == s && WellGrouped(Group(s, t), t)
    decreases |s|
  {
    if s != [] {
      var front, c := s[..|s| - 1], s[|s| - 1];
      GroupKeepsOrder(front, t);
      OneMoreGrouped(Group(front, t), front, c, t, Group(s, t), s);
    }
  }

  lemma OneMoreGrouped(lines: seq<Line>, front: seq<Chunk>, c: Chunk, t: real, more: seq<Line>, s: seq<Chunk>)
    requires t >= 0.0 && WellGrouped(lines, t) && Flatten(ChunksOf(lines)) == front
    requires more == WithChunk(lines, c, t) && s == front + [c]
    ensures Flatten(ChunksOf(more)) == s && WellGrouped(more, t)
  {
    ChunkKeepsOrder(lines, c, t);
  }

  lemma ThresholdAtLeastTolerance(s: seq<Chunk>)
    ensures Threshold(s) >= 4.0
  {
  }

  /** A line's anchor is its first chunk. */
  lemma {:induction false} GroupAnchored(s: seq<Chunk>, t: real)
    ensures Anchored(Group(s, t))
    decreases |s|
  {
    if s != [] {
      GroupAnchored(s[..|s| - 1], t);
    }
  }

  lemma TightPermuted(l: Line, m: Line, t: real)
    requires Tight(l, t) && m.y == l.y && multiset(m.chunks) == multiset(l.chunks)
    ensures Tight(m, t)
  {
    SameElements(l.chunks, m.chunks);
    var c :| c in l.chunks && c.y == l.y;
    assert c in m.chunks;
  }

  lemma OrderedWellGrouped(grouped: seq<Line>, lines: seq<Line>, t: real)
    requires WellGrouped(grouped, t) && LinesOrdered(grouped, lines)
    ensures WellGrouped(lines, t)
  {
    forall i | 0 <= i < |lines| ensures Tight(lines[i], t) {
      TightPermuted(grouped[i], lines[i], t);
    }
    forall i | 0 < i < |lines| ensures Abs(lines[i].y - lines[i - 1].y) > t {
      assert lines[i].y == grouped[i].y && lines[i - 1].y == grouped[i - 1].y;
    }
  }

  lemma OrderedFlat(grouped: seq<Line>, lines: seq<Line>)
    requires LinesOrdered(grouped, lines)
    ensures multiset(Flatten(ChunksOf(lines))) == multiset(Flatten(ChunksOf(grouped)))
  {
    FlattenPermuted(ChunksOf(lines), ChunksOf(grouped));
  }

  lemma LeftToRight(grouped: seq<Line>, lines: seq<Line>)
    requires LinesOrdered(grouped, lines)
    ensures forall i, a, b | 0 <= i < |lines| && 0 <= a < b < |lines[i].chunks| ::
              lines[i].chunks[a].x <= lines[i].chunks[b].x
  {
    forall i, a, b | 0 <= i < |lines| && 0 <= a < b < |lines[i].chunks|
      ensures lines[i].chunks[a].x <= lines[i].chunks[b].x
    {
      assert lines[i].y == grouped[i].y && !LEFT_OF(lines[i].chunks[b], lines[i].chunks[a]);
    }
  }

  /** On every page: no chunk is lost, added or torn between lines; each line reads left to right and stays
      within the threshold of its anchor; neighbouring anchors are more than the threshold apart. */
  lemma ChunksConserved(input: seq<Chunk>, dir: int, sorted: seq<Chunk>, t: real, lines: seq<Line>)
    requires Arranged(input, dir, sorted, t, lines)
    ensures multiset(Flatten(ChunksOf(lines))) == multiset(input)
    ensures t >= 4.0
    ensures WellGrouped(lines, t)
    ensures forall i, a, b | 0 <= i < |lines| && 0 <= a < b < |lines[i].chunks| ::
              lines[i].chunks[a].x <= lines[i].chunks[b].x
  {
    var grouped := Group(sorted, t);
    ThresholdAtLeastTolerance(sorted);
    GroupKeepsOrder(sorted, t);
    OrderedFlat(grouped, lines);
    OrderedWellGrouped(grouped, lines, t);
    LeftToRight(grouped, lines);
  }

  // ----- What printing adds ------------------------------------------------------------------

  function WithoutNewlines(s: string): string
    decreases |s|
  {
    if s == "" then ""
    else WithoutNewlines(s[..|s| - 1]) + if s[|s| - 1] == '\n' then "" else [s[|s| - 1]]
  }

  function Newlines(s: string): nat
    ensures Newlines(s) + |WithoutNewlines(s)| == |s|
    decreases |s|
  {
    if s == "" then 0 else Newlines(s[..|s| - 1]) + if s[|s| - 1] == '\n' then 1 else 0
  }

  lemma {:induction false} WithoutNewlinesAppend(a: string, b: string)
    ensures WithoutNewlines(a + b) == WithoutNewlines(a) + WithoutNewlines(b)
    decreases |b|
  {
    if b == "" {
      assert a + b == a;
    } else {
      WithoutNewlinesAppend(a, b[..|b| - 1]);
      assert (a + b)[..|a + b| - 1] == a + b[..|b| - 1];
    }
  }

  /** Over three thresholds apart. */
  predicate Apart(l: Line, m: Line, t: real) {
    m.y - l.y > 3.0 * t || l.y - m.y > 3.0 * t
  }

  function SectionBreaks(lines: seq<Line>, t: real): nat
    decreases |lines|
  {
    if |lines| < 2 then 0
    else
      SectionBreaks(lines[..|lines| - 1], t) +
      if Apart(lines[|lines| - 2], lines[|lines| - 1], t) then 1 else 0
  }

  lemma JoinedSnoc(s: seq<Chunk>, c: Chunk)
    ensures Joined(s + [c]) == Joined(s) + c.text
  {
    assert (s + [c])[..|s|] == s;
  }

  lemma {:induction false} JoinedAppend(a: seq<Chunk>, b: seq<Chunk>)
    ensures Joined(a + b) == Joined(a) + Joined(b)
    decreases |b|
  {
    if b == [] {
      assert a + b == a;
    } else {
      var front, c := b[..|b| - 1], b[|b| - 1];
      JoinedAppend(a, front);
      Sequences.LastApart(a, b);
      JoinedSnoc(a + front, c);
      Sequences.Regrouped(Joined(a), Joined(front), c.text);
    }
  }

  lemma SeparatorNewlines(lines: seq<Line>, i: nat, t: real)
    requires i < |lines|
    ensures WithoutNewlines(Separator(lines, i, t)) == ""
    ensures |Separator(lines, i, t)| == if i == 0 then 0 else if Apart(lines[i - 1], lines[i], t) then 2 else 1
  {
    assert "\n\n"[..1] == "\n" && "\n"[..0] == "";
    assert WithoutNewlines("") == "" && WithoutNewlines("\n") == "" && WithoutNewlines("\n\n") == "";
  }

  lemma {:induction false} RenderKeepsText(lines: seq<Line>, t: real)
    ensures WithoutNewlines(Render(lines, t)) == WithoutNewlines(Joined(Flatten(ChunksOf(lines))))
    decreases |lines|
  {
    if lines != [] {
      var n := |lines| - 1;
      var front, text, sep := lines[..n], Joined(lines[n].chunks), Separator(lines, n, t);
      RenderKeepsText(front, t);
      FlattenLast(lines);
      SeparatorNewlines(lines, n, t);
      WithoutNewlinesAppend(Render(front, t) + sep, text);
      WithoutNewlinesAppend(Render(front, t), sep);
      WithoutNewlinesAppend(Joined(Flatten(ChunksOf(front))), text);
    }
  }

  lemma FlattenLast(lines: seq<Line>)
    requires lines != []
    ensures var n := |lines| - 1;
            Joined(Flatten(ChunksOf(lines))) == Joined(Flatten(ChunksOf(lines[..n]))) + Joined(lines[n].chunks)
  {
    var n := |lines| - 1;
    assert ChunksOf(lines) == ChunksOf(lines[..n]) + [lines[n].chunks];
    FlattenSnoc(ChunksOf(lines[..n]), lines[n].chunks);
    JoinedAppend(Flatten(ChunksOf(lines[..n])), lines[n].chunks);
  }

  lemma {:induction false} RenderLength(lines: seq<Line>, t: real)
    ensures |Render(lines, t)| == |Joined(Flatten(ChunksOf(lines)))| +
                                  (if lines == [] then 0 else |lines| - 1) + SectionBreaks(lines, t)
    decreases |lines|
  {
    if lines != [] {
      var n := |lines| - 1;
      RenderLength(lines[..n], t);
      FlattenLast(lines);
      SeparatorNewlines(lines, n, t);
    }
  }

  /** Printing adds newlines and nothing else: one between neighbouring lines and one more at each gap of
      over three thresholds. */
  lemma RenderAddsOnlyBreaks(lines: seq<Line>, t: real)
    ensures var all := Joined(Flatten(ChunksOf(lines)));
            && WithoutNewlines(Render(lines, t)) == WithoutNewlines(all)
            && Newlines(Render(lines, t)) ==
               Newlines(all) + (if lines == [] then 0 else |lines| - 1) + SectionBreaks(lines, t)
  {
    RenderKeepsText(lines, t);
    RenderLength(lines, t);
  }

  // ----- What is printed between two lines -----------------------------------------------------

  /** Two newlines between lines over three thresholds apart, otherwise one. */
  function Break(l: Line, m: Line, t: real): string {
    if Apart(l, m, t) then "\n\n" else "\n"
  }

  lemma SeparatorIsBreak(lines: seq<Line>, i: nat, t: real)
    requires 0 < i < |lines|
    ensures Separator(lines, i, t) == Break(lines[i - 1], lines[i], t)
  {
  }

  lemma RenderSnoc(lines: seq<Line>, l: Line, t: real)
    requires lines != []
    ensures Render(lines + [l], t) == Render(lines, t) + Break(lines[|lines| - 1], l, t) + Joined(l.chunks)
  {
    assert (lines + [l])[..|lines|] == lines;
    SeparatorIsBreak(lines + [l], |lines|, t);
  }

  lemma RenderOne(l: Line, t: real)
    ensures Render([l], t) == Joined(l.chunks)
  {
    assert [l][..0] == [] && Separator([l], 0, t) == "";
  }

  lemma FiveApart(a: string, b: string, c: string, d: string, e: string)
    ensures a + b + c + d + e == a + b + (c + d + e)
  {
  }

  lemma JoinOne(a: seq<Line>, l: Line, t: real)
    requires a != []
    ensures Render(a + [l], t) == Render(a, t) + Break(a[|a| - 1], l, t) + Render([l], t)
  {
    RenderOne(l, t);
    RenderSnoc(a, l, t);
  }

  lemma JoinOneMore(a: seq<Line>, front: seq<Line>, l: Line, t: real, between: string)
    requires a != [] && front != [] && Render(a + front, t) == Render(a, t) + between + Render(front, t)
    ensures Render(a + (front + [l]), t) == Render(a, t) + between + Render(front + [l], t)
  {
    var more := Break(front[|front| - 1], l, t);
    RenderSnoc(a + front, l, t);
    RenderSnoc(front, l, t);
    Sequences.Regrouped(a, front, [l]);
    FiveApart(Render(a, t), between, Render(front, t), more, Joined(l.chunks));
  }

  /** Between any two neighbouring lines stands one newline, or two when their anchors are over three thresholds
      apart. */
  lemma {:induction false} LinesJoin(a: seq<Line>, b: seq<Line>, t: real)
    requires a != [] && b != []
    ensures Render(a + b, t) == Render(a, t) + Break(a[|a| - 1], b[0], t) + Render(b, t)
    decreases |b|
  {
    var front, l := b[..|b| - 1], b[|b| - 1];
    assert b == front + [l];
    if front == [] {
      assert b == [l];
      JoinOne(a, l, t);
    } else {
      LinesJoin(a, front, t);
      JoinOneMore(a, front, l, t, Break(a[|a| - 1], b[0], t));
    }
  }

  /** A line by itself prints the texts of its chunks one after the other, and nothing between them. */
  lemma LinePrints(y: real, a: seq<Chunk>, c: Chunk, b: seq<Chunk>, t: real)
    ensures Render([Line(y, a + [c] + b)], t) == Render([Line(y, a)], t) + c.text + Render([Line(y, b)], t)
    ensures Render([Line(y, [])], t) == ""
  {
    RenderOne(Line(y, a + [c] + b), t);
    RenderOne(Line(y, a), t);
    RenderOne(Line(y, b), t);
    RenderOne(Line(y, []), t);
    JoinedSnoc(a, c);
    JoinedAppend(a + [c], b);
  }
}
