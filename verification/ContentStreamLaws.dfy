/** What content streams mean: transform equivariance, stack discipline, text positioning. */
module ContentStreamLaws {
  import opened Matrix
  import opened ContentStream

  lemma {:induction false} RunAppend(m: Machine, a: seq<Operation>, b: seq<Operation>, fonts: Fonts)
    ensures m.Run(a + b, fonts) == m.Run(a, fonts).Run(b, fonts)
    decreases |b|
  {
    if b == [] {
      assert a + b == a;
    } else {
      var b', o := b[..|b| - 1], b[|b| - 1];
      RunAppend(m, a, b', fonts);
      assert (a + b)[..|a + b| - 1] == a + b';
    }
  }

  lemma RunOne(m: Machine, o: Operation, fonts: Fonts)
    ensures m.Run([o], fonts) == m.Exec(o, fonts)
  {
    assert [o][..0] == [];
    assert m.Run([], fonts) == m;
  }

  lemma RunCons(m: Machine, o: Operation, ops: seq<Operation>, fonts: Fonts)
    ensures m.Run([o] + ops, fonts) == m.Exec(o, fonts).Run(ops, fonts)
  {
    RunOne(m, o, fonts);
    RunAppend(m, [o], ops, fonts);
  }

  // ----- Transform equivariance ----------------------------------------------

  predicate AffineMachine(m: Machine) {
    && m.ctm.Affine() && m.tm.Affine() && m.tlm.Affine()
    && forall i | 0 <= i < |m.ctmStack| :: m.ctmStack[i].Affine()
  }

  predicate MovedBy(a: seq<Chunk>, b: seq<Chunk>, n: Mat3) {
    |b| == |a| && forall i | 0 <= i < |a| :: b[i] == a[i].MovedBy(n)
  }

  /** `m2` is `m` with every matrix up to the page multiplied by `n` on the right. */
  ghost predicate Mirrors(m: Machine, m2: Machine, n: Mat3) {
    && m2.ctm == m.ctm.Times(n)
    && |m2.ctmStack| == |m.ctmStack|
    && (forall i | 0 <= i < |m.ctmStack| :: m2.ctmStack[i] == m.ctmStack[i].Times(n))
    && m2.tm == m.tm && m2.tlm == m.tlm && m2.enc == m.enc
    && MovedBy(m.chunks, m2.chunks, n)
  }

  lemma ShowMirrors(m: Machine, m2: Machine, n: Mat3, raw: string)
    requires AffineMachine(m) && Mirrors(m, m2, n)
    ensures AffineMachine(m.Show(raw)) && Mirrors(m.Show(raw), m2.Show(raw), n)
  {
    var trm := m.tm.Times(m.ctm);
    TimesAssociative(m.tm, m.ctm, n);
    AffineClosed(m.tm, m.ctm);
    PointFollows(trm, n);
    var p := PointAt(trm);
    assert Chunk(p.x, p.y, m.enc(raw)).Position() == p;
  }

  lemma {:induction false} ShowAllMirrors(m: Machine, m2: Machine, n: Mat3, items: seq<Operand>)
    requires AffineMachine(m) && Mirrors(m, m2, n)
    ensures AffineMachine(m.ShowAll(items)) && Mirrors(m.ShowAll(items), m2.ShowAll(items), n)
    decreases |items|
  {
    if items != [] {
      var front, e := items[..|items| - 1], items[|items| - 1];
      ShowAllMirrors(m, m2, n, front);
      if e.Text? {
        ShowMirrors(m.ShowAll(front), m2.ShowAll(front), n, e.s);
      }
    }
  }

  lemma MoveLineMirrors(m: Machine, m2: Machine, n: Mat3, tx: real, ty: real)
    requires AffineMachine(m) && Mirrors(m, m2, n)
    ensures AffineMachine(m.MoveLine(tx, ty)) && Mirrors(m.MoveLine(tx, ty), m2.MoveLine(tx, ty), n)
  {
    AffineClosed(Shift(tx, ty), m.tlm);
  }

  lemma TextMirrors(m: Machine, m2: Machine, n: Mat3, o: Operation, fonts: Fonts)
    requires AffineMachine(m) && Mirrors(m, m2, n) && o.op in {"Tj", "'", "\"", "TJ"}
    ensures AffineMachine(m.Exec(o, fonts)) && Mirrors(m.Exec(o, fonts), m2.Exec(o, fonts), n)
  {
    var args := o.args;
    if o.op == "Tj" && |args| == 1 {
      ShowMirrors(m, m2, n, args[0].RawString());
    } else if o.op == "TJ" && |args| == 1 {
      ShowAllMirrors(m, m2, n, args[0].Elements());
    } else if (o.op == "'" && |args| == 1) || (o.op == "\"" && |args| == 3) {
      MoveLineMirrors(m, m2, n, 0.0, -LEADING);
      ShowMirrors(m.MoveLine(0.0, -LEADING), m2.MoveLine(0.0, -LEADING), n, args[|args| - 1].RawString());
    }
  }

  lemma MoveMirrors(m: Machine, m2: Machine, n: Mat3, o: Operation, fonts: Fonts)
    requires AffineMachine(m) && Mirrors(m, m2, n) && o.op in {"cm", "Td", "TD", "T*"}
    ensures AffineMachine(m.Exec(o, fonts)) && Mirrors(m.Exec(o, fonts), m2.Exec(o, fonts), n)
  {
    var args := o.args;
    if o.op == "cm" && |args| == 6 {
      AffineClosed(MatrixOf(args), m.ctm);
      TimesAssociative(MatrixOf(args), m.ctm, n);
    } else if o.op in {"Td", "TD"} && |args| == 2 {
      MoveLineMirrors(m, m2, n, args[0].Float64(), args[1].Float64());
    } else if o.op == "T*" {
      MoveLineMirrors(m, m2, n, 0.0, -LEADING);
    }
  }

  lemma ExecMirrors(m: Machine, m2: Machine, n: Mat3, o: Operation, fonts: Fonts)
    requires AffineMachine(m) && Mirrors(m, m2, n)
    ensures AffineMachine(m.Exec(o, fonts)) && Mirrors(m.Exec(o, fonts), m2.Exec(o, fonts), n)
  {
    if o.op in {"cm", "Td", "TD", "T*"} {
      MoveMirrors(m, m2, n, o, fonts);
    } else if o.op in {"Tj", "'", "\"", "TJ"} {
      TextMirrors(m, m2, n, o, fonts);
    }
  }

  lemma {:induction false} RunMirrors(m: Machine, m2: Machine, n: Mat3, ops: seq<Operation>, fonts: Fonts)
    requires AffineMachine(m) && Mirrors(m, m2, n)
    ensures AffineMachine(m.Run(ops, fonts)) && Mirrors(m.Run(ops, fonts), m2.Run(ops, fonts), n)
    decreases |ops|
  {
    if ops != [] {
      var front := ops[..|ops| - 1];
      RunMirrors(m, m2, n, front, fonts);
      ExecMirrors(m.Run(front, fonts), m2.Run(front, fonts), n, ops[|ops| - 1], fonts);
    }
  }

  /** A stream under p * n shows the stream under p, every chunk moved by n. */
  lemma StreamEquivariant(ops: seq<Operation>, fonts: Fonts, p: Mat3, n: Mat3)
    requires p.Affine()
    ensures MovedBy(StreamChunks(ops, fonts, p), StreamChunks(ops, fonts, p.Times(n)), n)
  {
    RunMirrors(Start(p), Start(p.Times(n)), n, ops, fonts);
  }

  lemma {:induction false} CollectFirstEquivariant(res: Resources, k: nat, p: Mat3, n: Mat3)
    requires p.Affine() && k <= |res.xobjects|
    ensures MovedBy(CollectFirst(res, k, p), CollectFirst(res, k, p.Times(n)), n)
    decreases res, k
  {
    if k > 0 {
      var x := res.xobjects[k - 1];
      CollectFirstEquivariant(res, k - 1, p, n);
      if x.subtype == "Form" {
        CollectFirstEquivariant(x.resources, |x.resources.xobjects|, p, n);
        StreamEquivariant(x.stream, x.resources.fonts, p, n);
      }
    }
  }

  /** The whole XObject tree under p * n is the tree under p moved by n. */
  lemma TreeEquivariant(res: Resources, p: Mat3, n: Mat3)
    requires p.Affine()
    ensures MovedBy(Collected(res, p), Collected(res, p.Times(n)), n)
  {
    CollectFirstEquivariant(res, |res.xobjects|, p, n);
  }

  /** Where six numbers take a point, as in (x a + y c + e, x b + y d + f). */
  function Image(q: Point, a: real, b: real, c: real, d: real, e: real, f: real): Point {
    Point(q.x * a + q.y * c + e, q.x * b + q.y * d + f)
  }

  function ImageBy(q: Point, args: seq<Operand>): Point
    requires |args| == 6
  {
    Image(q, args[0].Float64(), args[1].Float64(), args[2].Float64(),
          args[3].Float64(), args[4].Float64(), args[5].Float64())
  }

  /** Where the CTM takes a point. */
  function OnPage(q: Point, ctm: Mat3): Point {
    Image(q, ctm.r0.c0, ctm.r0.c1, ctm.r1.c0, ctm.r1.c1, ctm.r2.c0, ctm.r2.c1)
  }

  lemma CmFirst(args: seq<Operand>, rest: seq<Operation>, fonts: Fonts, p: Mat3)
    requires |args| == 6
    ensures StreamChunks([Operation("cm", args)] + rest, fonts, p) == StreamChunks(rest, fonts, MatrixOf(args).Times(p))
  {
    RunCons(Start(p), Operation("cm", args), rest, fonts);
    assert Start(p).Exec(Operation("cm", args), fonts) == Start(MatrixOf(args).Times(p));
  }

  lemma UnitTerm(u: real, v: real, w: real)
    ensures u + v + 1.0 * w == u + v + w
  {
  }

  lemma PointOnPage(q: Point, p: Mat3)
    ensures q.MapBy(p) == OnPage(q, p)
  {
    UnitTerm(q.x * p.r0.c0, q.y * p.r1.c0, p.r2.c0);
    UnitTerm(q.x * p.r0.c1, q.y * p.r1.c1, p.r2.c1);
    var v := Row(q.x, q.y, 1.0).Through(p);
    assert v.c0 == q.x * p.r0.c0 + q.y * p.r1.c0 + 1.0 * p.r2.c0;
    assert v.c1 == q.x * p.r0.c1 + q.y * p.r1.c1 + 1.0 * p.r2.c1;
  }

  lemma MapsInNumbers(q: Point, args: seq<Operand>)
    requires |args| == 6
    ensures q.MapBy(MatrixOf(args)) == ImageBy(q, args)
  {
    PointOnPage(q, MatrixOf(args));
  }

  /** `cm` concatenates: what follows is placed by the six numbers first and by the old CTM after them
      (ISO 32000-1 section 8.3.4). */
  lemma CmConcatenates(args: seq<Operand>, rest: seq<Operation>, fonts: Fonts, p: Mat3)
    requires |args| == 6 && p.Affine()
    ensures var inner := StreamChunks(rest, fonts, IDENTITY);
            var placed := StreamChunks([Operation("cm", args)] + rest, fonts, p);
            && |placed| == |inner|
            && forall i | 0 <= i < |inner| ::
                 placed[i].text == inner[i].text &&
                 placed[i].Position() == OnPage(ImageBy(inner[i].Position(), args), p)
  {
    var m := MatrixOf(args);
    CmFirst(args, rest, fonts, p);
    IdentityNeutral(m.Times(p));
    StreamEquivariant(rest, fonts, IDENTITY, m.Times(p));
    var inner := StreamChunks(rest, fonts, IDENTITY);
    forall i | 0 <= i < |inner|
      ensures inner[i].Position().MapBy(m.Times(p)) == OnPage(ImageBy(inner[i].Position(), args), p)
    {
      MapByProduct(inner[i].Position(), m, p);
      MapsInNumbers(inner[i].Position(), args);
      PointOnPage(inner[i].Position().MapBy(m), p);
    }
  }

  // ----- Stack discipline ------------------------------------------------------

  /** Saves minus restores. */
  function Depth(ops: seq<Operation>): int
    decreases |ops|
  {
    if ops == [] then 0
    else
      var o := ops[|ops| - 1];
      Depth(ops[..|ops| - 1]) + if o.op == "q" then 1 else if o.op == "Q" then -1 else 0
  }

  /** No prefix restores more than it has saved. */
  predicate WellNested(ops: seq<Operation>) {
    forall i | 0 <= i <= |ops| :: Depth(ops[..i]) >= 0
  }

  lemma {:induction false} ShowAllFrame(m: Machine, items: seq<Operand>)
    ensures var f := m.ShowAll(items);
            && m.chunks <= f.chunks
            && f == m.(chunks := f.chunks)
    decreases |items|
  {
    if items != [] {
      ShowAllFrame(m, items[..|items| - 1]);
    }
  }

  lemma StackStep(m: Machine, o: Operation, fonts: Fonts)
    ensures var f := m.Exec(o, fonts);
            && m.chunks <= f.chunks
            && (o.op == "q" ==> f.ctmStack == m.ctmStack + [m.ctm])
            && (o.op == "Q" && m.ctmStack != [] ==> f.ctmStack == m.ctmStack[..|m.ctmStack| - 1])
            && (o.op != "q" && o.op != "Q" ==> f.ctmStack == m.ctmStack)
  {
    if o.op == "TJ" && |o.args| == 1 {
      ShowAllFrame(m, o.args[0].Elements());
    }
  }

  lemma {:induction false} StackGrows(m: Machine, ops: seq<Operation>, fonts: Fonts)
    requires WellNested(ops)
    ensures var f := m.Run(ops, fonts);
            && |f.ctmStack| == |m.ctmStack| + Depth(ops)
            && m.ctmStack <= f.ctmStack
            && m.chunks <= f.chunks
    decreases |ops|
  {
    if ops != [] {
      var front, o := ops[..|ops| - 1], ops[|ops| - 1];
      forall i | 0 <= i <= |front| ensures Depth(front[..i]) >= 0 {
        assert front[..i] == ops[..i];
      }
      StackGrows(m, front, fonts);
      assert ops[..|ops|] == ops;
      StackStep(m.Run(front, fonts), o, fonts);
    }
  }

  /** A well-nested q ... Q block gives back the CTM and the stack it found, and only adds chunks
      (ISO 32000-1 section 8.4.2). */
  lemma BlockRestores(m: Machine, save: Operation, body: seq<Operation>, restore: Operation, fonts: Fonts)
    requires save.op == "q" && restore.op == "Q"
    requires WellNested(body) && Depth(body) == 0
    ensures var f := m.Run([save] + body + [restore], fonts);
            f.ctm == m.ctm && f.ctmStack == m.ctmStack && m.chunks <= f.chunks
  {
    var s := m.Exec(save, fonts);
    RunCons(m, save, body, fonts);
    StackGrows(s, body, fonts);
    var f := s.Run(body, fonts);
    RunAppend(m, [save] + body, [restore], fonts);
    RunOne(f, restore, fonts);
    assert f.ctmStack == s.ctmStack;
    assert s.ctmStack[..|m.ctmStack|] == m.ctmStack;
  }

  /** The stream without the restores that have nothing to restore. */
  function Matched(ops: seq<Operation>): seq<Operation>
    decreases |ops|
  {
    if ops == [] then []
    else
      var front, o := Matched(ops[..|ops| - 1]), ops[|ops| - 1];
      if o.op == "Q" && Depth(front) <= 0 then front else front + [o]
  }

  lemma NestedSnoc(ops: seq<Operation>, o: Operation)
    requires WellNested(ops) && (o.op == "Q" ==> Depth(ops) > 0)
    ensures WellNested(ops + [o])
  {
    var more := ops + [o];
    assert ops[..|ops|] == ops && more[..|ops|] == ops && more[..|more|] == more;
    forall i | 0 <= i <= |more| ensures Depth(more[..i]) >= 0 {
      if i <= |ops| {
        assert more[..i] == ops[..i];
      }
    }
  }

  lemma {:induction false} MatchedRun(m: Machine, ops: seq<Operation>, fonts: Fonts)
    requires m.ctmStack == []
    ensures WellNested(Matched(ops)) && m.Run(Matched(ops), fonts) == m.Run(ops, fonts)
    decreases |ops|
  {
    if ops == [] {
      assert forall i | 0 <= i <= |ops| :: ops[..i] == [];
    } else {
      var front, o := Matched(ops[..|ops| - 1]), ops[|ops| - 1];
      MatchedRun(m, ops[..|ops| - 1], fonts);
      StackGrows(m, front, fonts);
      if o.op != "Q" || Depth(front) > 0 {
        NestedSnoc(front, o);
        assert (front + [o])[..|front|] == front;
      }
    }
  }

  /** Unmatched restores do not count: every stream shows just what it shows without them, and what is left
      of it is well nested. */
  lemma UnmatchedRestoresDropOut(ops: seq<Operation>, fonts: Fonts, p: Mat3)
    ensures WellNested(Matched(ops)) && StreamChunks(Matched(ops), fonts, p) == StreamChunks(ops, fonts, p)
  {
    MatchedRun(Start(p), ops, fonts);
  }

  // ----- Text positioning --------------------------------------------------------

  /** Operators that leave the CTM and its stack alone and do not set the text matrix outright. */
  predicate Relative(o: Operation) {
    o.op !in {"q", "Q", "cm", "BT", "Tm"}
  }

  predicate AllRelative(ops: seq<Operation>) {
    forall i | 0 <= i < |ops| :: Relative(ops[i])
  }

  /** The offset that one operator asks for. */
  function Offset(o: Operation): Point {
    if o.op in {"Td", "TD"} && |o.args| == 2 then Point(o.args[0].Float64(), o.args[1].Float64())
    else if o.op == "T*" || (o.op == "'" && |o.args| == 1) || (o.op == "\"" && |o.args| == 3) then Point(0.0, -12.0)
    else Point(0.0, 0.0)
  }

  function TotalOffset(ops: seq<Operation>): Point
    decreases |ops|
  {
    if ops == [] then Point(0.0, 0.0)
    else
      var p, q := TotalOffset(ops[..|ops| - 1]), Offset(ops[|ops| - 1]);
      Point(p.x + q.x, p.y + q.y)
  }

  lemma ZeroShift(m: Mat3)
    ensures Shift(0.0, 0.0).Times(m) == m
  {
    IdentityNeutral(m);
  }

  lemma RelativeStep(m: Machine, o: Operation, fonts: Fonts)
    requires m.tm == m.tlm && Relative(o)
    ensures var f, d := m.Exec(o, fonts), Offset(o);
            f.tm == f.tlm == Shift(d.x, d.y).Times(m.tlm) && f.ctm == m.ctm && f.ctmStack == m.ctmStack
  {
    ZeroShift(m.tlm);
    if o.op == "TJ" && |o.args| == 1 {
      ShowAllFrame(m, o.args[0].Elements());
    }
  }

  lemma {:induction false} RelativeRun(m: Machine, ops: seq<Operation>, fonts: Fonts)
    requires m.tm == m.tlm && AllRelative(ops)
    ensures var f := m.Run(ops, fonts);
            var t := TotalOffset(ops);
            && f.tm == f.tlm == Shift(t.x, t.y).Times(m.tlm)
            && f.ctm == m.ctm && f.ctmStack == m.ctmStack
    decreases |ops|
  {
    if ops == [] {
      ZeroShift(m.tlm);
    } else {
      var front, o := ops[..|ops| - 1], ops[|ops| - 1];
      RelativeRun(m, front, fonts);
      var f, t, d := m.Run(front, fonts), TotalOffset(front), Offset(o);
      ShiftsAdd(d.x, d.y, t.x, t.y, m.tlm);
      RelativeStep(f, o, fonts);
    }
  }

  /** Operators that set the text matrix outright. */
  predicate SetsTextMatrix(o: Operation) {
    o.op == "BT" || (o.op == "Tm" && |o.args| == 6)
  }

  /** Where such an operator takes the offset made since. */
  function FromThere(place: Operation, d: Point): Point
    requires SetsTextMatrix(place)
  {
    if place.op == "BT" then d else ImageBy(d, place.args)
  }

  lemma ShiftedOrigin(d: Point, t: Mat3, ctm: Mat3)
    requires t.Affine()
    ensures PointAt(Shift(d.x, d.y).Times(t).Times(ctm)) == d.MapBy(t).MapBy(ctm)
  {
    var s := Shift(d.x, d.y);
    AffineClosed(s, t);
    PointFollows(s.Times(t), ctm);
    PointFollows(s, t);
    assert PointAt(s) == d;
  }

  lemma PlacementSets(m: Machine, place: Operation, d: Point, fonts: Fonts) returns (s: Machine, t: Mat3)
    requires SetsTextMatrix(place)
    ensures s == m.Exec(place, fonts) && s.tm == s.tlm == t && s.ctm == m.ctm && t.Affine()
    ensures d.MapBy(t) == FromThere(place, d)
  {
    s := m.Exec(place, fonts);
    t := s.tm;
  }

  lemma PlacedRun(m: Machine, s: Machine, t: Mat3, ops: seq<Operation>, fonts: Fonts)
    requires s.tm == s.tlm == t && s.ctm == m.ctm && AllRelative(ops)
    ensures var f := s.Run(ops, fonts);
            var d := TotalOffset(ops);
            f.tm == Shift(d.x, d.y).Times(t) && f.ctm == m.ctm
  {
    RelativeRun(s, ops, fonts);
  }

  lemma ShowOne(m: Machine, d: Point, t: Mat3, raw: string, fonts: Fonts)
    requires t.Affine() && m.tm == Shift(d.x, d.y).Times(t)
    ensures var p := d.MapBy(t).MapBy(m.ctm);
            m.Run([Operation("Tj", [Text(raw)])], fonts).chunks ==
            m.chunks + if m.enc(raw) == "" then [] else [Chunk(p.x, p.y, m.enc(raw))]
  {
    RunOne(m, Operation("Tj", [Text(raw)]), fonts);
    ShiftedOrigin(d, t, m.ctm);
  }

  lemma PlacedShow(m: Machine, s: Machine, t: Mat3, place: Operation, ops: seq<Operation>, raw: string, fonts: Fonts)
    requires SetsTextMatrix(place) && AllRelative(ops)
    requires s.tm == s.tlm == t && s.ctm == m.ctm && t.Affine()
    requires TotalOffset(ops).MapBy(t) == FromThere(place, TotalOffset(ops))
    ensures var before := s.Run(ops, fonts);
            var at := OnPage(FromThere(place, TotalOffset(ops)), m.ctm);
            before.Run([Operation("Tj", [Text(raw)])], fonts).chunks ==
            before.chunks + if before.enc(raw) == "" then [] else [Chunk(at.x, at.y, before.enc(raw))]
  {
    PlacedRun(m, s, t, ops, fonts);
    ShowOne(s.Run(ops, fonts), TotalOffset(ops), t, raw, fonts);
    PointOnPage(FromThere(place, TotalOffset(ops)), m.ctm);
  }

  /** After BT or Tm and any run of relative operators, a string is shown at the summed offset taken through the
      numbers of the Tm and of the CTM, and not at all when it decodes to nothing (ISO 32000-1 section 9.4.2). */
  lemma TextPlacement(m: Machine, place: Operation, ops: seq<Operation>, raw: string, fonts: Fonts)
    requires SetsTextMatrix(place) && AllRelative(ops)
    ensures var before := m.Run([place] + ops, fonts);
            var at := OnPage(FromThere(place, TotalOffset(ops)), m.ctm);
            m.Run([place] + ops + [Operation("Tj", [Text(raw)])], fonts).chunks ==
            before.chunks + if before.enc(raw) == "" then [] else [Chunk(at.x, at.y, before.enc(raw))]
  {
    var s, t := PlacementSets(m, place, TotalOffset(ops), fonts);
    RunCons(m, place, ops, fonts);
    RunAppend(m, [place] + ops, [Operation("Tj", [Text(raw)])], fonts);
    PlacedShow(m, s, t, place, ops, raw, fonts);
  }
}
