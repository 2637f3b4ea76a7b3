/** The text operators in terms of each other and of the numbers they carry: what one operator shows, moves
    and leaves alone, from every state of the interpreter. */
module Operators {
  import opened Matrix
  import opened ContentStream
  import opened ContentStreamLaws
  import Sequences

  /** Equal effects from every state may be exchanged in the middle of any stream. */
  lemma Exchange(before: seq<Operation>, a: seq<Operation>, b: seq<Operation>, rest: seq<Operation>, fonts: Fonts,
                 p: Mat3)
    requires forall m: Machine :: m.Run(a, fonts) == m.Run(b, fonts)
    ensures StreamChunks(before + a + rest, fonts, p) == StreamChunks(before + b + rest, fonts, p)
  {
    RunAppend(Start(p), before, a, fonts);
    RunAppend(Start(p), before, b, fonts);
    RunAppend(Start(p), before + a, rest, fonts);
    RunAppend(Start(p), before + b, rest, fonts);
  }

  // ----- Showing strings ---------------------------------------------------------------------------

  /** One Tj for each string of an array, in order. */
  function Singles(items: seq<Operand>): seq<Operation>
    decreases |items|
  {
    if items == [] then []
    else
      var last := items[|items| - 1];
      Singles(items[..|items| - 1]) + if last.Text? then [Operation("Tj", [last])] else []
  }

  lemma {:induction false} SinglesShow(m: Machine, items: seq<Operand>, fonts: Fonts)
    ensures m.Run(Singles(items), fonts) == m.ShowAll(items)
    decreases |items|
  {
    if items != [] {
      var front, last := items[..|items| - 1], items[|items| - 1];
      SinglesShow(m, front, fonts);
      if last.Text? {
        RunAppend(m, Singles(front), [Operation("Tj", [last])], fonts);
        RunOne(m.Run(Singles(front), fonts), Operation("Tj", [last]), fonts);
      } else {
        assert Singles(items) == Singles(front);
      }
    }
  }

  /** TJ shows the strings of its array one after the other (ISO 32000-1 section 9.4.3, without its numbers). */
  lemma ArrayIsItsStrings(m: Machine, items: seq<Operand>, fonts: Fonts)
    ensures m.Run([Operation("TJ", [Array(items)])], fonts) == m.Run(Singles(items), fonts)
  {
    RunOne(m, Operation("TJ", [Array(items)]), fonts);
    SinglesShow(m, items, fonts);
  }

  lemma RunTwo(m: Machine, o: Operation, p: Operation, fonts: Fonts)
    ensures m.Run([o, p], fonts) == m.Exec(o, fonts).Exec(p, fonts)
  {
    assert [o, p] == [o] + [p];
    RunCons(m, o, [p], fonts);
    RunOne(m.Exec(o, fonts), p, fonts);
  }

  /** The quotes move to the next line and show their last operand. */
  lemma QuotesAreNextLineAndShow(m: Machine, a: Operand, b: Operand, v: Operand, fonts: Fonts)
    ensures m.Run([Operation("'", [v])], fonts) == m.Run([Operation("T*", []), Operation("Tj", [v])], fonts)
    ensures m.Run([Operation("\"", [a, b, v])], fonts) == m.Run([Operation("T*", []), Operation("Tj", [v])], fonts)
  {
    RunOne(m, Operation("'", [v]), fonts);
    RunOne(m, Operation("\"", [a, b, v]), fonts);
    RunTwo(m, Operation("T*", []), Operation("Tj", [v]), fonts);
  }

  /** Tj adds one chunk, or none when the text in the font in force is empty, at the origin of text space. */
  lemma ShowsOneChunk(m: Machine, raw: string, fonts: Fonts)
    requires m.tm.Affine()
    ensures var f := m.Run([Operation("Tj", [Text(raw)])], fonts);
            var at := OnPage(Point(m.tm.r2.c0, m.tm.r2.c1), m.ctm);
            f == m.(chunks := m.chunks + if m.enc(raw) == "" then [] else [Chunk(at.x, at.y, m.enc(raw))])
  {
    RunOne(m, Operation("Tj", [Text(raw)]), fonts);
    PointFollows(m.tm, m.ctm);
    PointOnPage(PointAt(m.tm), m.ctm);
    assert m.chunks + [] == m.chunks;
  }

  // ----- Fonts -----------------------------------------------------------------------------------------

  predicate SelectsFont(o: Operation) {
    o.op == "Tf" && |o.args| == 2
  }

  lemma {:induction false} FontStays(m: Machine, ops: seq<Operation>, fonts: Fonts)
    requires forall i | 0 <= i < |ops| :: !SelectsFont(ops[i])
    ensures m.Run(ops, fonts).enc == m.enc
    decreases |ops|
  {
    if ops != [] {
      var front, o := ops[..|ops| - 1], ops[|ops| - 1];
      FontStays(m, front, fonts);
      RunOne(m.Run(front, fonts), o, fonts);
      LeavesAlone(m.Run(front, fonts), o, fonts);
    }
  }

  /** Until another is selected, a string is decoded by the font last selected, or as it is when the form has no
      such font. */
  lemma FontInForce(m: Machine, name: string, size: Operand, ops: seq<Operation>, raw: string, fonts: Fonts)
    requires forall i | 0 <= i < |ops| :: !SelectsFont(ops[i])
    ensures m.Run([Operation("Tf", [Name(name), size])] + ops, fonts).enc(raw) ==
            if name in fonts then fonts[name](raw) else raw
  {
    var o := Operation("Tf", [Name(name), size]);
    RunCons(m, o, ops, fonts);
    FontStays(m.Exec(o, fonts), ops, fonts);
  }

  // ----- Operands and frames ---------------------------------------------------------------------------

  /** The operators with the number of operands each of them takes. */
  predicate Understood(o: Operation) {
    || o.op in {"q", "Q", "BT", "T*"}
    || (o.op in {"Tj", "'", "TJ"} && |o.args| == 1)
    || (o.op in {"Tf", "Td", "TD"} && |o.args| == 2)
    || (o.op == "\"" && |o.args| == 3)
    || (o.op in {"cm", "Tm"} && |o.args| == 6)
  }

  /** What each operator leaves alone; an unknown one, or one with another number of operands, everything. */
  lemma LeavesAlone(m: Machine, o: Operation, fonts: Fonts)
    ensures var f := m.Run([o], fonts);
            && (!Understood(o) ==> f == m)
            && (o.op !in {"Q", "cm"} ==> f.ctm == m.ctm)
            && (o.op !in {"q", "Q"} ==> f.ctmStack == m.ctmStack)
            && (o.op !in {"BT", "Tm", "Td", "TD", "T*", "'", "\""} ==> f.tm == m.tm && f.tlm == m.tlm)
            && (!SelectsFont(o) ==> f.enc == m.enc)
            && (o.op !in {"Tj", "TJ", "'", "\""} ==> f.chunks == m.chunks)
  {
    RunOne(m, o, fonts);
    if o.op == "TJ" && |o.args| == 1 {
      ShowAllFrame(m, o.args[0].Elements());
    }
  }

  function WithOperand(o: Operation, i: nat, v: Operand): Operation
    requires i < |o.args|
  {
    Operation(o.op, o.args[i := v])
  }

  lemma RunBoth(m: Machine, o: Operation, p: Operation, fonts: Fonts)
    requires m.Exec(o, fonts) == m.Exec(p, fonts)
    ensures m.Run([o], fonts) == m.Run([p], fonts)
  {
    RunOne(m, o, fonts);
    RunOne(m, p, fonts);
  }

  /** An operand of the wrong kind counts as the number 0, the empty string, the empty name or the empty array. */
  lemma WrongKindIsZero(m: Machine, o: Operation, i: nat, fonts: Fonts)
    requires i < |o.args|
    ensures o.op in {"cm", "Tm", "Td", "TD"} && !o.args[i].Number? ==>
              m.Run([o], fonts) == m.Run([WithOperand(o, i, Number(0.0))], fonts)
    ensures o.op in {"Tj", "'", "\""} && !o.args[i].Text? ==>
              m.Run([o], fonts) == m.Run([WithOperand(o, i, Text(""))], fonts)
    ensures o.op == "Tf" && !o.args[i].Name? ==> m.Run([o], fonts) == m.Run([WithOperand(o, i, Name(""))], fonts)
    ensures o.op == "TJ" && !o.args[i].Array? ==> m.Run([o], fonts) == m.Run([WithOperand(o, i, Array([]))], fonts)
  {
    if o.op in {"cm", "Tm", "Td", "TD"} && !o.args[i].Number? {
      RunBoth(m, o, WithOperand(o, i, Number(0.0)), fonts);
    } else if o.op in {"Tj", "'", "\""} && !o.args[i].Text? {
      RunBoth(m, o, WithOperand(o, i, Text("")), fonts);
    } else if o.op == "Tf" && !o.args[i].Name? {
      RunBoth(m, o, WithOperand(o, i, Name("")), fonts);
    } else if o.op == "TJ" && !o.args[i].Array? {
      RunBoth(m, o, WithOperand(o, i, Array([])), fonts);
    }
  }

  // ----- Positions in numbers ----------------------------------------------------------------------------

  /** T* moves down by 12, TD moves as Td does, and BT is the identity Tm. */
  lemma MovesAlike(m: Machine, x: Operand, y: Operand, args: seq<Operand>, fonts: Fonts)
    ensures m.Run([Operation("T*", args)], fonts) == m.Run([Operation("Td", [Number(0.0), Number(-12.0)])], fonts)
    ensures m.Run([Operation("TD", [x, y])], fonts) == m.Run([Operation("Td", [x, y])], fonts)
    ensures var one, zero := Number(1.0), Number(0.0);
            m.Run([Operation("BT", args)], fonts) == m.Run([Operation("Tm", [one, zero, zero, one, zero, zero])], fonts)
  {
    var one, zero := Number(1.0), Number(0.0);
    RunBoth(m, Operation("T*", args), Operation("Td", [Number(0.0), Number(-12.0)]), fonts);
    RunBoth(m, Operation("TD", [x, y]), Operation("Td", [x, y]), fonts);
    RunBoth(m, Operation("BT", args), Operation("Tm", [one, zero, zero, one, zero, zero]), fonts);
  }

  /** Two moves are one by the sums. */
  lemma MovesAdd(m: Machine, x1: real, y1: real, x2: real, y2: real, fonts: Fonts)
    ensures m.Run([Operation("Td", [Number(x1), Number(y1)]), Operation("Td", [Number(x2), Number(y2)])], fonts) ==
            m.Run([Operation("Td", [Number(x1 + x2), Number(y1 + y2)])], fonts)
  {
    RunTwo(m, Operation("Td", [Number(x1), Number(y1)]), Operation("Td", [Number(x2), Number(y2)]), fonts);
    RunOne(m, Operation("Td", [Number(x1 + x2), Number(y1 + y2)]), fonts);
    ShiftsAdd(x2, y2, x1, y1, m.tlm);
    assert x2 + x1 == x1 + x2 && y2 + y1 == y1 + y2;
  }

  /** A save and a restore leave everything as it was; a restore with nothing saved does too. */
  lemma SaveRestore(m: Machine, a: seq<Operand>, b: seq<Operand>, fonts: Fonts)
    ensures m.Run([Operation("q", a), Operation("Q", b)], fonts) == m
    ensures m.ctmStack == [] ==> m.Run([Operation("Q", b)], fonts) == m
  {
    RunTwo(m, Operation("q", a), Operation("Q", b), fonts);
    RunOne(m, Operation("Q", b), fonts);
    assert (m.ctmStack + [m.ctm])[..|m.ctmStack|] == m.ctmStack;
  }

  /** A stream starts as if a text object had just begun, and keeps strings as they are until it selects a font. */
  lemma StartsAtOrigin(ops: seq<Operation>, args: seq<Operand>, raw: string, fonts: Fonts, p: Mat3)
    ensures StreamChunks([Operation("BT", args)] + ops, fonts, p) == StreamChunks(ops, fonts, p)
    ensures (forall i | 0 <= i < |ops| :: !SelectsFont(ops[i])) ==> Start(p).Run(ops, fonts).enc(raw) == raw
  {
    RunCons(Start(p), Operation("BT", args), ops, fonts);
    if forall i | 0 <= i < |ops| :: !SelectsFont(ops[i]) {
      FontStays(Start(p), ops, fonts);
    }
  }

  lemma ConcatenatedMaps(q: Point, args: seq<Operand>, ctm: Mat3)
    requires |args| == 6
    ensures OnPage(q, MatrixOf(args).Times(ctm)) == OnPage(ImageBy(q, args), ctm)
  {
    var m := MatrixOf(args);
    MapByProduct(q, m, ctm);
    MapsInNumbers(q, args);
    PointOnPage(q.MapBy(m), ctm);
    PointOnPage(q, m.Times(ctm));
  }

  /** What follows a cm is mapped by its numbers and then as before, from any state on. */
  lemma CmMaps(m: Machine, args: seq<Operand>, q: Point, fonts: Fonts)
    requires |args| == 6
    ensures OnPage(q, m.Run([Operation("cm", args)], fonts).ctm) == OnPage(ImageBy(q, args), m.ctm)
  {
    RunOne(m, Operation("cm", args), fonts);
    ConcatenatedMaps(q, args, m.ctm);
  }

  lemma ThreeThen(m: Machine, a: Operation, b: Operation, c: Operation, ops: seq<Operation>, fonts: Fonts)
    ensures m.Run([a, b, c] + ops, fonts) == m.Run([a], fonts).Run([b], fonts).Run([c] + ops, fonts)
  {
    RunAppend(m.Run([a], fonts), [b], [c] + ops, fonts);
    RunAppend(m, [a], [b] + ([c] + ops), fonts);
    assert [a, b, c] + ops == [a] + ([b] + ([c] + ops));
  }

  lemma PlaceSelectsNone(place: Operation, ops: seq<Operation>)
    requires SetsTextMatrix(place) && forall i | 0 <= i < |ops| :: !SelectsFont(ops[i])
    ensures forall i | 0 <= i < |[place] + ops| :: !SelectsFont(([place] + ops)[i])
  {
  }

  lemma ChosenAndPlaced(m: Machine, name: string, size: Operand, place: Operation, ops: seq<Operation>, raw: string,
                        fonts: Fonts)
    requires SetsTextMatrix(place) && AllRelative(ops)
    requires forall i | 0 <= i < |ops| :: !SelectsFont(ops[i])
    ensures var n := m.Run([Operation("Tf", [Name(name), size])], fonts);
            var text := if name in fonts then fonts[name](raw) else raw;
            var at := OnPage(FromThere(place, TotalOffset(ops)), m.ctm);
            n.Run([place] + (ops + [Operation("Tj", [Text(raw)])]), fonts).chunks ==
            n.Run([place] + ops, fonts).chunks + if text == "" then [] else [Chunk(at.x, at.y, text)]
  {
    var b, tj := Operation("Tf", [Name(name), size]), [Operation("Tj", [Text(raw)])];
    LeavesAlone(m, b, fonts);
    TextPlacement(m.Run([b], fonts), place, ops, raw, fonts);
    assert [place] + (ops + tj) == [place] + ops + tj;
    PlaceSelectsNone(place, ops);
    FontInForce(m, name, size, [place] + ops, raw, fonts);
    RunAppend(m, [b], [place] + ops, fonts);
  }

  lemma AddedAtTheEnd(m: Machine, a: Operation, b: Operation, c: Operation, ops: seq<Operation>, last: seq<Operation>,
                      added: seq<Chunk>, fonts: Fonts)
    requires var n := m.Run([a], fonts).Run([b], fonts);
             n.Run([c] + (ops + last), fonts).chunks == n.Run([c] + ops, fonts).chunks + added
    ensures m.Run([a, b, c] + ops + last, fonts).chunks == m.Run([a, b, c] + ops, fonts).chunks + added
  {
    ThreeThen(m, a, b, c, ops, fonts);
    ThreeThen(m, a, b, c, ops + last, fonts);
    Sequences.Regrouped([a, b, c], ops, last);
  }

  lemma FromThePage(cm: seq<Operand>, q: Point, fonts: Fonts)
    requires |cm| == 6
    ensures OnPage(q, Start(IDENTITY).Run([Operation("cm", cm)], fonts).ctm) == ImageBy(q, cm)
  {
    CmMaps(Start(IDENTITY), cm, q, fonts);
  }

  /** From the page down: under a cm, in a chosen font, after BT or Tm and any run of relative operators, a string
      is shown at the summed offset taken through the numbers of the Tm and then through those of the cm. */
  lemma PlacedInNumbers(cm: seq<Operand>, name: string, size: Operand, place: Operation, ops: seq<Operation>,
                        raw: string, fonts: Fonts)
    requires |cm| == 6 && SetsTextMatrix(place) && AllRelative(ops)
    requires forall i | 0 <= i < |ops| :: !SelectsFont(ops[i])
    ensures var before := [Operation("cm", cm), Operation("Tf", [Name(name), size]), place] + ops;
            var text := if name in fonts then fonts[name](raw) else raw;
            var at := ImageBy(FromThere(place, TotalOffset(ops)), cm);
            StreamChunks(before + [Operation("Tj", [Text(raw)])], fonts, IDENTITY) ==
            StreamChunks(before, fonts, IDENTITY) + if text == "" then [] else [Chunk(at.x, at.y, text)]
  {
    var a, b, tj := Operation("cm", cm), Operation("Tf", [Name(name), size]), [Operation("Tj", [Text(raw)])];
    var at := ImageBy(FromThere(place, TotalOffset(ops)), cm);
    var text := if name in fonts then fonts[name](raw) else raw;
    FromThePage(cm, FromThere(place, TotalOffset(ops)), fonts);
    ChosenAndPlaced(Start(IDENTITY).Run([a], fonts), name, size, place, ops, raw, fonts);
    AddedAtTheEnd(Start(IDENTITY), a, b, place, ops, tj, if text == "" then [] else [Chunk(at.x, at.y, text)], fonts);
  }
}
