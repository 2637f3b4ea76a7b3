/** The 3x3 row-vector matrices of the PDF text extractor (p' = p * M). */
module Matrix {

  datatype Row = Row(c0: real, c1: real, c2: real) {
    function At(j: nat): real
      requires j < 3
    {
      if j == 0 then c0 else if j == 1 then c1 else c2
    }

    /** This row vector multiplied by the matrix `m`. */
    function Through(m: Mat3): Row {
      Row(c0 * m.r0.c0 + c1 * m.r1.c0 + c2 * m.r2.c0,
          c0 * m.r0.c1 + c1 * m.r1.c1 + c2 * m.r2.c1,
          c0 * m.r0.c2 + c1 * m.r1.c2 + c2 * m.r2.c2)
    }
  }

  datatype Mat3 = Mat3(r0: Row, r1: Row, r2: Row) {
    function At(i: nat): Row
      requires i < 3
    {
      if i == 0 then r0 else if i == 1 then r1 else r2
    }

    function Column(j: nat): Row
      requires j < 3
    {
      Row(r0.At(j), r1.At(j), r2.At(j))
    }

    function Times(m: Mat3): Mat3 {
      Mat3(r0.Through(m), r1.Through(m), r2.Through(m))
    }

    /** The third column is (0, 0, 1), so that points are mapped to points. */
    predicate Affine() {
      r0.c2 == 0.0 && r1.c2 == 0.0 && r2.c2 == 1.0
    }
  }

  const IDENTITY := Mat3(Row(1.0, 0.0, 0.0), Row(0.0, 1.0, 0.0), Row(0.0, 0.0, 1.0))

  function NewMat(a: real, b: real, c: real, d: real, e: real, f: real): Mat3 {
    Mat3(Row(a, b, 0.0), Row(c, d, 0.0), Row(e, f, 1.0))
  }

  function Shift(tx: real, ty: real): Mat3 {
    NewMat(1.0, 0.0, 0.0, 1.0, tx, ty)
  }

  datatype Point = Point(x: real, y: real) {
    /** The point's image: (x, y, 1) taken through `m`, third coordinate dropped. */
    function MapBy(m: Mat3): Point {
      var v := Row(x, y, 1.0).Through(m);
      Point(v.c0, v.c1)
    }
  }

  function PointAt(m: Mat3): Point {
    Point(m.r2.c0, m.r2.c1)
  }

  /** The first `k` terms of the product of a row and a column. */
  ghost function PartialDot(r: Row, c: Row, k: nat): real
    requires k <= 3
  {
    if k == 0 then 0.0 else PartialDot(r, c, k - 1) + r.At(k - 1) * c.At(k - 1)
  }

  lemma PartialDotIsEntry(r: Row, y: Mat3, j: nat)
    requires j < 3
    ensures PartialDot(r, y.Column(j), 3) == r.Through(y).At(j)
  {
    var c := y.Column(j);
    assert PartialDot(r, c, 1) == r.c0 * c.c0;
    assert PartialDot(r, c, 2) == r.c0 * c.c0 + r.c1 * c.c1;
  }

  ghost predicate FilledUpTo(m: array2<real>, p: Mat3, i: nat, j: nat)
    requires m.Length0 == 3 && m.Length1 == 3
    reads m
  {
    forall a, b | 0 <= a < 3 && 0 <= b < 3 :: m[a, b] == if a < i || (a == i && b < j) then p.At(a).At(b) else 0.0
  }

  /** The innermost loop: accumulates one entry in place. */
  method AddTerms(m: array2<real>, r: Row, y: Mat3, i: nat, j: nat)
    requires m.Length0 == 3 && m.Length1 == 3 && i < 3 && j < 3 && m[i, j] == 0.0
    modifies m
    ensures m[i, j] == r.Through(y).At(j)
    ensures forall a, b | 0 <= a < 3 && 0 <= b < 3 && (a != i || b != j) :: m[a, b] == old(m[a, b])
  {
    for k := 0 to 3
      invariant m[i, j] == PartialDot(r, y.Column(j), k)
      invariant forall a, b | 0 <= a < 3 && 0 <= b < 3 && (a != i || b != j) :: m[a, b] == old(m[a, b])
    {
      m[i, j] := m[i, j] + r.At(k) * y.At(k).At(j);
    }
    PartialDotIsEntry(r, y, j);
  }

  /** The two outer loops over a zeroed result. */
  method Mul(x: Mat3, y: Mat3) returns (z: Mat3)
    ensures z == x.Times(y)
  {
    var m := new real[3, 3]((i, j) => 0.0);
    ghost var p := x.Times(y);
    for i := 0 to 3
      invariant FilledUpTo(m, p, i, 0)
    {
      for j := 0 to 3
        invariant FilledUpTo(m, p, i, j)
      {
        AddTerms(m, x.At(i), y, i, j);
      }
    }
    z := Mat3(Row(m[0, 0], m[0, 1], m[0, 2]), Row(m[1, 0], m[1, 1], m[1, 2]), Row(m[2, 0], m[2, 1], m[2, 2]));
    assert z.r0 == p.r0 && z.r1 == p.r1 && z.r2 == p.r2;
  }

  lemma Distribute(u: real, v: real, w: real, t: real)
    ensures (u + v + w) * t == u * t + v * t + w * t
  {
  }

  /** (a B) c == a (B c) for a row a, a 3x3 block B and a column c. */
  lemma Regroup(a: Row, b0: Row, b1: Row, b2: Row, c: Row, ab: Row, bc: Row)
    requires ab.c0 == a.c0 * b0.c0 + a.c1 * b1.c0 + a.c2 * b2.c0
    requires ab.c1 == a.c0 * b0.c1 + a.c1 * b1.c1 + a.c2 * b2.c1
    requires ab.c2 == a.c0 * b0.c2 + a.c1 * b1.c2 + a.c2 * b2.c2
    requires bc.c0 == b0.c0 * c.c0 + b0.c1 * c.c1 + b0.c2 * c.c2
    requires bc.c1 == b1.c0 * c.c0 + b1.c1 * c.c1 + b1.c2 * c.c2
    requires bc.c2 == b2.c0 * c.c0 + b2.c1 * c.c1 + b2.c2 * c.c2
    ensures ab.c0 * c.c0 + ab.c1 * c.c1 + ab.c2 * c.c2 == a.c0 * bc.c0 + a.c1 * bc.c1 + a.c2 * bc.c2
  {
    Distribute(a.c0 * b0.c0, a.c1 * b1.c0, a.c2 * b2.c0, c.c0);
    Distribute(a.c0 * b0.c1, a.c1 * b1.c1, a.c2 * b2.c1, c.c1);
    Distribute(a.c0 * b0.c2, a.c1 * b1.c2, a.c2 * b2.c2, c.c2);
    Distribute(b0.c0 * c.c0, b0.c1 * c.c1, b0.c2 * c.c2, a.c0);
    Distribute(b1.c0 * c.c0, b1.c1 * c.c1, b1.c2 * c.c2, a.c1);
    Distribute(b2.c0 * c.c0, b2.c1 * c.c1, b2.c2 * c.c2, a.c2);
  }

  lemma RowAssociative0(r: Row, y: Mat3, z: Mat3)
    ensures r.Through(y).Through(z).c0 == r.Through(y.Times(z)).c0
  {
    Regroup(r, y.r0, y.r1, y.r2, Row(z.r0.c0, z.r1.c0, z.r2.c0), r.Through(y),
            Row(y.r0.Through(z).c0, y.r1.Through(z).c0, y.r2.Through(z).c0));
  }

  lemma RowAssociative1(r: Row, y: Mat3, z: Mat3)
    ensures r.Through(y).Through(z).c1 == r.Through(y.Times(z)).c1
  {
    Regroup(r, y.r0, y.r1, y.r2, Row(z.r0.c1, z.r1.c1, z.r2.c1), r.Through(y),
            Row(y.r0.Through(z).c1, y.r1.Through(z).c1, y.r2.Through(z).c1));
  }

  lemma RowAssociative2(r: Row, y: Mat3, z: Mat3)
    ensures r.Through(y).Through(z).c2 == r.Through(y.Times(z)).c2
  {
    Regroup(r, y.r0, y.r1, y.r2, Row(z.r0.c2, z.r1.c2, z.r2.c2), r.Through(y),
            Row(y.r0.Through(z).c2, y.r1.Through(z).c2, y.r2.Through(z).c2));
  }

  lemma RowAssociative(r: Row, y: Mat3, z: Mat3)
    ensures r.Through(y).Through(z) == r.Through(y.Times(z))
  {
    RowAssociative0(r, y, z);
    RowAssociative1(r, y, z);
    RowAssociative2(r, y, z);
  }

  lemma TimesAssociative(x: Mat3, y: Mat3, z: Mat3)
    ensures x.Times(y).Times(z) == x.Times(y.Times(z))
  {
    RowAssociative(x.r0, y, z);
    RowAssociative(x.r1, y, z);
    RowAssociative(x.r2, y, z);
  }

  lemma IdentityNeutral(m: Mat3)
    ensures IDENTITY.Times(m) == m && m.Times(IDENTITY) == m
  {
  }

  lemma AffineClosed(x: Mat3, y: Mat3)
    requires x.Affine() && y.Affine()
    ensures x.Times(y).Affine()
  {
  }

  /** Translating twice is translating once by the sum. */
  lemma ShiftsAdd(x1: real, y1: real, x2: real, y2: real, m: Mat3)
    ensures Shift(x1, y1).Times(Shift(x2, y2).Times(m)) == Shift(x1 + x2, y1 + y2).Times(m)
  {
    TimesAssociative(Shift(x1, y1), Shift(x2, y2), m);
    assert Shift(x1, y1).Times(Shift(x2, y2)) == Shift(x1 + x2, y1 + y2);
  }

  /** Multiplying a placement on the right by `n` moves the placed point by `n`. */
  lemma PointFollows(m: Mat3, n: Mat3)
    requires m.Affine()
    ensures PointAt(m.Times(n)) == PointAt(m).MapBy(n)
  {
  }

  /** Mapping by a product is mapping by its factors in turn. */
  lemma MapByProduct(p: Point, m: Mat3, n: Mat3)
    requires m.Affine()
    ensures p.MapBy(m.Times(n)) == p.MapBy(m).MapBy(n)
  {
    RowAssociative(Row(p.x, p.y, 1.0), m, n);
    assert Row(p.x, p.y, 1.0).Through(m).c2 == 1.0;
  }
}
