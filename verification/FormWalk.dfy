/** What the walk over nested Form XObjects visits: every form that a path of forms leads to, once, the nested
    forms before their holder and siblings in key order. */
module FormWalk {
  import opened Matrix
  import opened ContentStream
  import Sequences

  /** The way down to an XObject: at each level the index of its key. */
  type Way = seq<nat>

  /** The way leads through forms to a form. */
  predicate LeadsToForm(res: Resources, way: Way)
    decreases |way|
  {
    && way != [] && way[0] < |res.xobjects| && res.xobjects[way[0]].subtype == "Form"
    && (|way| > 1 ==> LeadsToForm(res.xobjects[way[0]].resources, way[1..]))
  }

  function FormAt(res: Resources, way: Way): XObject
    requires LeadsToForm(res, way)
    decreases |way|
  {
    var x := res.xobjects[way[0]];
    if |way| == 1 then x else FormAt(x.resources, way[1..])
  }

  /** The chunks of the form's own stream, with its own fonts, under the page's CTM. */
  function OwnChunks(res: Resources, way: Way, ctm: Mat3): seq<Chunk>
    requires LeadsToForm(res, way)
  {
    var x := FormAt(res, way);
    StreamChunks(x.stream, x.resources.fonts, ctm)
  }

  /** A form is visited after all that is nested in it; otherwise the smaller key decides. */
  predicate Earlier(a: Way, b: Way)
    decreases |a|
  {
    a != [] && (b == [] || a[0] < b[0] || (a[0] == b[0] && Earlier(a[1..], b[1..])))
  }

  /** All ways through the first `n` keys, each once, in the order of the visit. */
  ghost predicate IsVisit(res: Resources, n: nat, ways: seq<Way>) {
    && (forall way :: way in ways <==> LeadsToForm(res, way) && way[0] < n)
    && (forall i, j | 0 <= i < j < |ways| :: Earlier(ways[i], ways[j]))
  }

  predicate AllLead(res: Resources, ways: seq<Way>) {
    forall i | 0 <= i < |ways| :: LeadsToForm(res, ways[i])
  }

  function Chunks(res: Resources, ways: seq<Way>, ctm: Mat3): seq<Chunk>
    requires AllLead(res, ways)
    decreases |ways|
  {
    if ways == [] then []
    else Chunks(res, ways[..|ways| - 1], ctm) + OwnChunks(res, ways[|ways| - 1], ctm)
  }

  lemma {:induction false} ChunksAppend(res: Resources, a: seq<Way>, b: seq<Way>, ctm: Mat3)
    requires AllLead(res, a) && AllLead(res, b)
    ensures AllLead(res, a + b) && Chunks(res, a + b, ctm) == Chunks(res, a, ctm) + Chunks(res, b, ctm)
    decreases |b|
  {
    if b == [] {
      assert a + b == a;
    } else {
      var front, last := b[..|b| - 1], b[|b| - 1];
      ChunksAppend(res, a, front, ctm);
      assert (a + b)[..|a + b| - 1] == a + front;
      Sequences.Regrouped(Chunks(res, a, ctm), Chunks(res, front, ctm), OwnChunks(res, last, ctm));
    }
  }

  /** The same ways, seen from one level up. */
  function Under(k: nat, ways: seq<Way>): seq<Way> {
    seq(|ways|, i requires 0 <= i < |ways| => [k] + ways[i])
  }

  lemma OneLevelUp(res: Resources, k: nat, way: Way, ctm: Mat3)
    requires k < |res.xobjects| && res.xobjects[k].subtype == "Form" && LeadsToForm(res.xobjects[k].resources, way)
    ensures LeadsToForm(res, [k] + way)
    ensures OwnChunks(res, [k] + way, ctm) == OwnChunks(res.xobjects[k].resources, way, ctm)
  {
    assert ([k] + way)[1..] == way;
  }

  lemma {:induction false} ChunksUnder(res: Resources, k: nat, ways: seq<Way>, ctm: Mat3)
    requires k < |res.xobjects| && res.xobjects[k].subtype == "Form" && AllLead(res.xobjects[k].resources, ways)
    ensures AllLead(res, Under(k, ways))
    ensures Chunks(res, Under(k, ways), ctm) == Chunks(res.xobjects[k].resources, ways, ctm)
    decreases |ways|
  {
    forall i | 0 <= i < |ways| ensures LeadsToForm(res, Under(k, ways)[i]) {
      OneLevelUp(res, k, ways[i], ctm);
    }
    if ways != [] {
      var front := ways[..|ways| - 1];
      ChunksUnder(res, k, front, ctm);
      assert Under(k, ways)[..|ways| - 1] == Under(k, front);
      OneLevelUp(res, k, ways[|ways| - 1], ctm);
    }
  }

  lemma EarlierUnder(k: nat, a: Way, b: Way)
    ensures Earlier([k] + a, [k] + b) <==> Earlier(a, b)
  {
    assert ([k] + a)[1..] == a && ([k] + b)[1..] == b;
  }

  /** The visit of one more form: what is nested in it, then itself. */
  lemma OneMoreMembers(res: Resources, n: nat, before: seq<Way>, nested: seq<Way>, ways: seq<Way>, way: Way)
    requires n < |res.xobjects| && res.xobjects[n].subtype == "Form"
    requires IsVisit(res, n, before)
    requires IsVisit(res.xobjects[n].resources, |res.xobjects[n].resources.xobjects|, nested)
    requires ways == before + (Under(n, nested) + [[n]])
    ensures way in ways <==> LeadsToForm(res, way) && way[0] < n + 1
  {
    var inner := res.xobjects[n].resources;
    if way in Under(n, nested) {
      var i :| 0 <= i < |nested| && way == [n] + nested[i];
      assert nested[i] in nested;
      OneLevelUp(res, n, nested[i], IDENTITY);
    }
    if LeadsToForm(res, way) && way[0] == n && |way| > 1 {
      assert LeadsToForm(inner, way[1..]) && way[1..][0] < |inner.xobjects|;
      assert way[1..] in nested;
      var i :| 0 <= i < |nested| && nested[i] == way[1..];
      assert way == [n] + nested[i];
      assert Under(n, nested)[i] == way;
    }
    assert way in ways <==> way in before || way in Under(n, nested) || way == [n];
    assert LeadsToForm(res, way) && way[0] == n && |way| == 1 ==> way == [n];
  }

  lemma OneMoreInOrder(res: Resources, n: nat, before: seq<Way>, nested: seq<Way>, ways: seq<Way>, i: nat, j: nat)
    requires IsVisit(res, n, before) && n < |res.xobjects|
    requires IsVisit(res.xobjects[n].resources, |res.xobjects[n].resources.xobjects|, nested)
    requires ways == before + (Under(n, nested) + [[n]]) && i < j < |ways|
    ensures Earlier(ways[i], ways[j])
  {
    var b, m := |before|, |nested|;
    if i < b {
      assert ways[i] == before[i] && before[i] in before;
      if j < b {
        assert ways[j] == before[j];
      } else {
        assert ways[j][0] == n;
      }
    } else {
      assert ways[i] == [n] + nested[i - b] && nested[i - b] in nested;
      if j < b + m {
        assert ways[j] == [n] + nested[j - b];
        EarlierUnder(n, nested[i - b], nested[j - b]);
      } else {
        assert ways[j] == [n] + [];
        EarlierUnder(n, nested[i - b], []);
      }
    }
  }

  lemma OneMoreForm(res: Resources, n: nat, before: seq<Way>, nested: seq<Way>, ctm: Mat3) returns (ways: seq<Way>)
    requires n < |res.xobjects| && res.xobjects[n].subtype == "Form"
    requires IsVisit(res, n, before)
    requires IsVisit(res.xobjects[n].resources, |res.xobjects[n].resources.xobjects|, nested)
    requires AllLead(res, before) && AllLead(res.xobjects[n].resources, nested)
    ensures IsVisit(res, n + 1, ways) && AllLead(res, ways)
    ensures var x := res.xobjects[n];
            Chunks(res, ways, ctm) ==
            Chunks(res, before, ctm) +
            (Chunks(x.resources, nested, ctm) + StreamChunks(x.stream, x.resources.fonts, ctm))
  {
    ways := before + (Under(n, nested) + [[n]]);
    forall way ensures way in ways <==> LeadsToForm(res, way) && way[0] < n + 1 {
      OneMoreMembers(res, n, before, nested, ways, way);
    }
    forall i, j | 0 <= i < j < |ways| ensures Earlier(ways[i], ways[j]) {
      OneMoreInOrder(res, n, before, nested, ways, i, j);
    }
    OneMoreChunks(res, n, before, nested, ctm);
  }

  lemma OneMoreChunks(res: Resources, n: nat, before: seq<Way>, nested: seq<Way>, ctm: Mat3)
    requires n < |res.xobjects| && res.xobjects[n].subtype == "Form"
    requires AllLead(res, before) && AllLead(res.xobjects[n].resources, nested)
    ensures var x, ways := res.xobjects[n], before + (Under(n, nested) + [[n]]);
            && AllLead(res, ways)
            && Chunks(res, ways, ctm) ==
               Chunks(res, before, ctm) +
               (Chunks(x.resources, nested, ctm) + StreamChunks(x.stream, x.resources.fonts, ctm))
  {
    ChunksUnder(res, n, nested, ctm);
    assert LeadsToForm(res, [n]);
    assert [[n]][..0] == [];
    assert Chunks(res, [[n]], ctm) == [] + OwnChunks(res, [n], ctm);
    ChunksAppend(res, Under(n, nested), [[n]], ctm);
    ChunksAppend(res, before, Under(n, nested) + [[n]], ctm);
  }

  /** The chunks of the first `n` keys are those of the visit. */
  ghost predicate Collects(res: Resources, n: nat, ways: seq<Way>, ctm: Mat3)
    requires n <= |res.xobjects|
  {
    IsVisit(res, n, ways) && AllLead(res, ways) && CollectFirst(res, n, ctm) == Chunks(res, ways, ctm)
  }

  lemma CollectsNone(res: Resources, ctm: Mat3)
    ensures Collects(res, 0, [], ctm)
  {
  }

  lemma CollectsOther(res: Resources, n: nat, ways: seq<Way>, ctm: Mat3)
    requires n < |res.xobjects| && res.xobjects[n].subtype != "Form" && Collects(res, n, ways, ctm)
    ensures Collects(res, n + 1, ways, ctm)
  {
  }

  lemma CollectsForm(res: Resources, n: nat, before: seq<Way>, nested: seq<Way>, ctm: Mat3) returns (ways: seq<Way>)
    requires n < |res.xobjects| && res.xobjects[n].subtype == "Form" && Collects(res, n, before, ctm)
    requires var inner := res.xobjects[n].resources; Collects(inner, |inner.xobjects|, nested, ctm)
    ensures Collects(res, n + 1, ways, ctm)
  {
    ways := OneMoreForm(res, n, before, nested, ctm);
  }

  lemma {:induction false} VisitFirst(res: Resources, n: nat, ctm: Mat3) returns (ways: seq<Way>)
    requires n <= |res.xobjects|
    ensures Collects(res, n, ways, ctm)
    decreases res, n
  {
    if n == 0 {
      ways := [];
      CollectsNone(res, ctm);
    } else {
      var k, x := n - 1, res.xobjects[n - 1];
      var before := VisitFirst(res, k, ctm);
      if x.subtype == "Form" {
        var nested := VisitFirst(x.resources, |x.resources.xobjects|, ctm);
        ways := CollectsForm(res, k, before, nested, ctm);
      } else {
        ways := before;
        CollectsOther(res, k, before, ctm);
      }
    }
  }

  /** The text of a tree of forms is the text of every form that forms lead to, at any depth, each once, nested
      forms before their holder and siblings in key order, and nothing else. */
  lemma EveryFormOnce(res: Resources, ctm: Mat3) returns (ways: seq<Way>)
    ensures forall way :: way in ways <==> LeadsToForm(res, way)
    ensures forall i, j | 0 <= i < j < |ways| :: Earlier(ways[i], ways[j])
    ensures AllLead(res, ways) && Collected(res, ctm) == Chunks(res, ways, ctm)
  {
    ways := VisitFirst(res, |res.xobjects|, ctm);
  }

  /** Each form's own text is one stretch of it, and what is visited earlier stands before. */
  lemma StretchOfForm(res: Resources, ways: seq<Way>, i: nat, ctm: Mat3)
    requires AllLead(res, ways) && i < |ways|
    ensures AllLead(res, ways[..i]) && AllLead(res, ways[i + 1..])
    ensures Chunks(res, ways, ctm) ==
            Chunks(res, ways[..i], ctm) + OwnChunks(res, ways[i], ctm) + Chunks(res, ways[i + 1..], ctm)
  {
    var head, tail := ways[..i + 1], ways[i + 1..];
    assert head[..i] == ways[..i] && ways == head + tail;
    ChunksAppend(res, head, tail, ctm);
  }

  /** No way comes before itself, and of two the visit has one order: so there is one visit. */
  lemma {:induction false} EarlierIsStrict(a: Way, b: Way)
    ensures !(Earlier(a, b) && Earlier(b, a))
    ensures Earlier(a, b) || Earlier(b, a) || a == b
    decreases |a|
  {
    if a != [] && b != [] && a[0] == b[0] {
      EarlierIsStrict(a[1..], b[1..]);
      assert a == [a[0]] + a[1..] && b == [b[0]] + b[1..];
    }
  }

  /** What is nested in a form is visited before it. */
  lemma {:induction false} NestedEarlier(way: Way, deeper: Way)
    requires deeper != []
    ensures Earlier(way + deeper, way)
    decreases |way|
  {
    if way == [] {
      assert way + deeper == deeper;
    } else {
      NestedEarlier(way[1..], deeper);
      assert (way + deeper)[1..] == way[1..] + deeper;
    }
  }

  /** Siblings, with all that is nested in them, are visited in key order. */
  lemma {:induction false} SiblingsInKeyOrder(way: Way, k: nat, l: nat, a: Way, b: Way)
    requires k < l
    ensures Earlier(way + [k] + a, way + [l] + b)
    decreases |way|
  {
    if way != [] {
      SiblingsInKeyOrder(way[1..], k, l, a, b);
      assert (way + [k] + a)[1..] == way[1..] + [k] + a && (way + [l] + b)[1..] == way[1..] + [l] + b;
    }
  }
}
