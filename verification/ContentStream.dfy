/** The content-stream interpreter and the walk over nested Form XObjects. */
module ContentStream {
  import opened Matrix

  datatype Operand =
    | Number(v: real)
    | Text(s: string)
    | Name(n: string)
    | Array(elems: seq<Operand>)
    | Other
  {
    /** Accessors give a zero value on the wrong kind, as the parser's do. */
    function Float64(): real {
      if Number? then v else 0.0
    }

    function RawString(): string {
      if Text? then s else ""
    }

    function NameOf(): string {
      if Name? then n else ""
    }

    function Elements(): seq<Operand> {
      if Array? then elems else []
    }
  }

  datatype Operation = Operation(op: string, args: seq<Operand>)

  type Decoder = string -> string
  type Fonts = map<string, Decoder>

  const PASSTHROUGH: Decoder := (raw: string) => raw

  datatype Chunk = Chunk(x: real, y: real, text: string) {
    function Position(): Point {
      Point(x, y)
    }

    function MovedBy(n: Mat3): Chunk {
      var p := Position().MapBy(n);
      Chunk(p.x, p.y, text)
    }
  }

  /** The variables captured by the operator callback. */
  datatype Machine = Machine(ctm: Mat3, ctmStack: seq<Mat3>, tm: Mat3, tlm: Mat3, enc: Decoder, chunks: seq<Chunk>) {
    function Show(raw: string): Machine {
      var decoded := enc(raw);
      if decoded == "" then this
      else
        var p := PointAt(tm.Times(ctm));
        this.(chunks := chunks + [Chunk(p.x, p.y, decoded)])
    }

    function ShowAll(items: seq<Operand>): Machine
      decreases |items|
    {
      if items == [] then this
      else
        var m, e := ShowAll(items[..|items| - 1]), items[|items| - 1];
        if e.Text? then m.Show(e.s) else m
    }

    function MoveLine(tx: real, ty: real): Machine {
      var t := Shift(tx, ty).Times(tlm);
      this.(tlm := t, tm := t)
    }

    function Exec(o: Operation, fonts: Fonts): Machine {
      var args := o.args;
      match o.op
      case "q" => this.(ctmStack := ctmStack + [ctm])
      case "Q" =>
        if |ctmStack| > 0
        then this.(ctm := ctmStack[|ctmStack| - 1], ctmStack := ctmStack[..|ctmStack| - 1])
        else this
      case "cm" => if |args| == 6 then this.(ctm := MatrixOf(args).Times(ctm)) else this
      case "BT" => this.(tm := IDENTITY, tlm := IDENTITY)
      case "Tf" =>
        if |args| == 2
        then this.(enc := if args[0].NameOf() in fonts then fonts[args[0].NameOf()] else PASSTHROUGH)
        else this
      case "Tm" => if |args| == 6 then this.(tm := MatrixOf(args), tlm := MatrixOf(args)) else this
      case "Td" => if |args| == 2 then MoveLine(args[0].Float64(), args[1].Float64()) else this
      case "TD" => if |args| == 2 then MoveLine(args[0].Float64(), args[1].Float64()) else this
      case "T*" => MoveLine(0.0, -LEADING)
      case "Tj" => if |args| == 1 then Show(args[0].RawString()) else this
      case "'" => if |args| == 1 then MoveLine(0.0, -LEADING).Show(args[0].RawString()) else this
      case "\"" => if |args| == 3 then MoveLine(0.0, -LEADING).Show(args[2].RawString()) else this
      case "TJ" => if |args| == 1 then ShowAll(args[0].Elements()) else this
      case _ => this
    }

    function Run(ops: seq<Operation>, fonts: Fonts): Machine
      decreases |ops|
    {
      if ops == [] then this else Run(ops[..|ops| - 1], fonts).Exec(ops[|ops| - 1], fonts)
    }
  }

  /** The fixed line leading, in points. */
  const LEADING := 12.0

  function MatrixOf(args: seq<Operand>): Mat3
    requires |args| == 6
  {
    NewMat(args[0].Float64(), args[1].Float64(), args[2].Float64(),
           args[3].Float64(), args[4].Float64(), args[5].Float64())
  }

  function Start(parentCTM: Mat3): Machine {
    Machine(parentCTM, [], IDENTITY, IDENTITY, PASSTHROUGH, [])
  }

  function StreamChunks(ops: seq<Operation>, fonts: Fonts, parentCTM: Mat3): seq<Chunk> {
    Start(parentCTM).Run(ops, fonts).chunks
  }

  class Interpreter {
    var ctm: Mat3
    var ctmStack: seq<Mat3>
    var tm: Mat3
    var tlm: Mat3
    var enc: Decoder
    var chunks: seq<Chunk>

    ghost function View(): Machine
      reads this
    {
      Machine(ctm, ctmStack, tm, tlm, enc, chunks)
    }

    constructor (parentCTM: Mat3)
      ensures View() == Start(parentCTM)
    {
      ctm, ctmStack := parentCTM, [];
      tm, tlm := IDENTITY, IDENTITY;
      enc := PASSTHROUGH;
      chunks := [];
    }

    method AddText(raw: string)
      modifies this`chunks
      ensures View() == old(View()).Show(raw)
    {
      var decoded := enc(raw);
      if decoded == "" {
        return;
      }
      var trm := Mul(IDENTITY, tm);
      IdentityNeutral(tm);
      trm := Mul(trm, ctm);
      var p := PointAt(trm);
      chunks := chunks + [Chunk(p.x, p.y, decoded)];
    }

    method NextLine(tx: real, ty: real)
      modifies this`tm, this`tlm
      ensures View() == old(View()).MoveLine(tx, ty)
    {
      tlm := Mul(Shift(tx, ty), tlm);
      tm := tlm;
    }

    method ShowArray(v: Operand)
      modifies this`chunks
      ensures View() == old(View()).ShowAll(v.Elements())
    {
      var items := v.Elements();
      for j := 0 to |items|
        invariant View() == old(View()).ShowAll(items[..j])
      {
        assert items[..j + 1][..j] == items[..j];
        if items[j].Text? {
          AddText(items[j].RawString());
        }
      }
      assert items[..|items|] == items;
    }

    method Do(o: Operation, fonts: Fonts)
      modifies this
      ensures View() == old(View()).Exec(o, fonts)
    {
      var args := o.args;
      match o.op {
        case "q" => ctmStack := ctmStack + [ctm];
        case "Q" =>
          if |ctmStack| > 0 {
            ctm := ctmStack[|ctmStack| - 1];
            ctmStack := ctmStack[..|ctmStack| - 1];
          }
        case "cm" =>
          if |args| == 6 {
            ctm := Mul(MatrixOf(args), ctm);
          }
        case "BT" => tm, tlm := IDENTITY, IDENTITY;
        case "Tf" =>
          if |args| == 2 {
            if args[0].NameOf() in fonts {
              enc := fonts[args[0].NameOf()];
            } else {
              enc := PASSTHROUGH;
            }
          }
        case "Tm" =>
          if |args| == 6 {
            tm := MatrixOf(args);
            tlm := tm;
          }
        case "Td" =>
          if |args| == 2 {
            NextLine(args[0].Float64(), args[1].Float64());
          }
        case "TD" =>
          if |args| == 2 {
            NextLine(args[0].Float64(), args[1].Float64());
          }
        case "T*" => NextLine(0.0, -LEADING);
        case "Tj" =>
          if |args| == 1 {
            AddText(args[0].RawString());
          }
        case "'" =>
          if |args| == 1 {
            NextLine(0.0, -LEADING);
            AddText(args[0].RawString());
          }
        case "\"" =>
          if |args| == 3 {
            NextLine(0.0, -LEADING);
            AddText(args[2].RawString());
          }
        case "TJ" =>
          if |args| == 1 {
            ShowArray(args[0]);
          }
        case _ =>
      }
    }
  }

  method InterpretForChunks(ops: seq<Operation>, fonts: Fonts, parentCTM: Mat3) returns (chunks: seq<Chunk>)
    ensures chunks == StreamChunks(ops, fonts, parentCTM)
  {
    var interpreter := new Interpreter(parentCTM);
    for i := 0 to |ops|
      invariant interpreter.View() == Start(parentCTM).Run(ops[..i], fonts)
    {
      interpreter.Do(ops[i], fonts);
      assert ops[..i + 1][..i] == ops[..i];
    }
    assert ops[..|ops|] == ops;
    chunks := interpreter.chunks;
  }

  // ----- Form XObjects ------------------------------------------------------

  datatype Resources = Resources(fonts: Fonts, xobjects: seq<XObject>)
  datatype XObject = XObject(subtype: string, resources: Resources, stream: seq<Operation>)

  /** The chunks of the first `n` XObjects, each nested tree before its own stream. */
  function CollectFirst(res: Resources, n: nat, parentCTM: Mat3): seq<Chunk>
    requires n <= |res.xobjects|
    decreases res, n
  {
    if n == 0 then []
    else
      var x := res.xobjects[n - 1];
      CollectFirst(res, n - 1, parentCTM) +
      if x.subtype != "Form" then []
      else
        CollectFirst(x.resources, |x.resources.xobjects|, parentCTM) +
        StreamChunks(x.stream, x.resources.fonts, parentCTM)
  }

  function Collected(res: Resources, parentCTM: Mat3): seq<Chunk> {
    CollectFirst(res, |res.xobjects|, parentCTM)
  }

  method CollectXObjectChunks(res: Resources, parentCTM: Mat3) returns (all: seq<Chunk>)
    ensures all == Collected(res, parentCTM)
    decreases res
  {
    all := [];
    for i := 0 to |res.xobjects|
      invariant all == CollectFirst(res, i, parentCTM)
    {
      var x := res.xobjects[i];
      if x.subtype == "Form" {
        var nested := CollectXObjectChunks(x.resources, parentCTM);
        all := all + nested;
        var chunks := InterpretForChunks(x.stream, x.resources.fonts, parentCTM);
        assert CollectFirst(res, i, parentCTM) + nested + chunks == CollectFirst(res, i, parentCTM) + (nested + chunks);
        all := all + chunks;
      }
    }
  }
}
