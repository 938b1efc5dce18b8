/** 3×3 transformation matrices (src/common/mat.ts), row-major, over exact
 *  numbers: the renderer composes them by right-multiplication. */
module Mat {
  /** The nine entries, `mij` in row i and column j. */
  datatype Values = Values(
    m00: real, m01: real, m02: real,
    m10: real, m11: real, m12: real,
    m20: real, m21: real, m22: real)
  {
    /** The entries as the list `getList` returns, row by row. */
    function List(): (r: seq<real>)
      ensures |r| == 9
    {
      [m00, m01, m02, m10, m11, m12, m20, m21, m22]
    }
  }

  const IdentityValues := Values(1.0, 0.0, 0.0, 0.0, 1.0, 0.0, 0.0, 0.0, 1.0)

  /** Entry (i, j). */
  function At(a: Values, i: nat, j: nat): real
    requires i < 3 && j < 3
  {
    if i == 0 then (if j == 0 then a.m00 else if j == 1 then a.m01 else a.m02)
    else if i == 1 then (if j == 0 then a.m10 else if j == 1 then a.m11 else a.m12)
    else (if j == 0 then a.m20 else if j == 1 then a.m21 else a.m22)
  }

  /** Entry (i, j) of the row-major product: row i of `a` against column j
   *  of `b`. */
  function ProductEntry(a: Values, b: Values, i: nat, j: nat): real
    requires i < 3 && j < 3
  {
    At(a, i, 0) * At(b, 0, j) + At(a, i, 1) * At(b, 1, j) + At(a, i, 2) * At(b, 2, j)
  }

  /** `mat3Multiply`: every entry (i, j) is row i of `a` against column j
   *  of `b`. */
  function Multiply(a: Values, b: Values): (r: Values)
    ensures forall i, j | 0 <= i < 3 && 0 <= j < 3 :: At(r, i, j) == ProductEntry(a, b, i, j)
  {
    var p := Values(
      a.m00 * b.m00 + a.m01 * b.m10 + a.m02 * b.m20,
      a.m00 * b.m01 + a.m01 * b.m11 + a.m02 * b.m21,
      a.m00 * b.m02 + a.m01 * b.m12 + a.m02 * b.m22,
      a.m10 * b.m00 + a.m11 * b.m10 + a.m12 * b.m20,
      a.m10 * b.m01 + a.m11 * b.m11 + a.m12 * b.m21,
      a.m10 * b.m02 + a.m11 * b.m12 + a.m12 * b.m22,
      a.m20 * b.m00 + a.m21 * b.m10 + a.m22 * b.m20,
      a.m20 * b.m01 + a.m21 * b.m11 + a.m22 * b.m21,
      a.m20 * b.m02 + a.m21 * b.m12 + a.m22 * b.m22);
    assert At(p, 0, 0) == ProductEntry(a, b, 0, 0);
    assert At(p, 0, 1) == ProductEntry(a, b, 0, 1);
    assert At(p, 0, 2) == ProductEntry(a, b, 0, 2);
    assert At(p, 1, 0) == ProductEntry(a, b, 1, 0);
    assert At(p, 1, 1) == ProductEntry(a, b, 1, 1);
    assert At(p, 1, 2) == ProductEntry(a, b, 1, 2);
    assert At(p, 2, 0) == ProductEntry(a, b, 2, 0);
    assert At(p, 2, 1) == ProductEntry(a, b, 2, 1);
    assert At(p, 2, 2) == ProductEntry(a, b, 2, 2);
    p
  }

  /** The list is read row by row. */
  lemma {:induction false} ListIsRowMajor(a: Values, i: nat, j: nat)
    requires i < 3 && j < 3
    ensures a.List()[3 * i + j] == At(a, i, j)
  {
    assert j == 0 || j == 1 || j == 2;
  }

  function ScaleValues(v: (real, real)): Values
  {
    Values(v.0, 0.0, 0.0, 0.0, v.1, 0.0, 0.0, 0.0, 1.0)
  }

  function TranslateValues(v: (real, real)): Values
  {
    Values(1.0, 0.0, v.0, 0.0, 1.0, v.1, 0.0, 0.0, 1.0)
  }

  /** The matrix `createMat3` returns: its list, and the two operations, each
   *  of which builds a new matrix and leaves this one as it was. Both are
   *  written in the closed form of their product, which `ScaleIsProduct` and
   *  `TranslateIsProduct` show equal to `mat3Multiply` with the source's
   *  matrices. */
  datatype Mat3 = Mat3(values: Values)
  {
    function GetList(): seq<real> { values.List() }

    /** `scale(v)`: right-multiplication by diag(v0, v1, 1) scales the first
     *  two columns. */
    function Scale(v: (real, real)): Mat3
    {
      Mat3(Values(
        values.m00 * v.0, values.m01 * v.1, values.m02,
        values.m10 * v.0, values.m11 * v.1, values.m12,
        values.m20 * v.0, values.m21 * v.1, values.m22))
    }

    /** `translate(v)`: right-multiplication by a translation by (v0, v1)
     *  adds the first two columns, weighted by v, to the third. */
    function Translate(v: (real, real)): Mat3
    {
      Mat3(Values(
        values.m00, values.m01, values.m00 * v.0 + values.m01 * v.1 + values.m02,
        values.m10, values.m11, values.m10 * v.0 + values.m11 * v.1 + values.m12,
        values.m20, values.m21, values.m20 * v.0 + values.m21 * v.1 + values.m22))
    }
  }

  lemma {:induction false} ScaleIsProduct(m: Mat3, v: (real, real))
    ensures m.Scale(v).values == Multiply(m.values, ScaleValues(v))
  {
    Neutral(m.values);
  }

  lemma {:induction false} TranslateIsProduct(m: Mat3, v: (real, real))
    ensures m.Translate(v).values == Multiply(m.values, TranslateValues(v))
  {
    Neutral(m.values);
  }

  /** Multiplying any entry by one or by zero. */
  lemma {:induction false} Neutral(a: Values)
    ensures a.m00 * 1.0 == a.m00 && a.m01 * 1.0 == a.m01 && a.m02 * 1.0 == a.m02
    ensures a.m10 * 1.0 == a.m10 && a.m11 * 1.0 == a.m11 && a.m12 * 1.0 == a.m12
    ensures a.m20 * 1.0 == a.m20 && a.m21 * 1.0 == a.m21 && a.m22 * 1.0 == a.m22
    ensures a.m00 * 0.0 == a.m01 * 0.0 == a.m02 * 0.0 == 0.0
    ensures a.m10 * 0.0 == a.m11 * 0.0 == a.m12 * 0.0 == 0.0
    ensures a.m20 * 0.0 == a.m21 * 0.0 == a.m22 * 0.0 == 0.0
  {
  }

  /** `createMat3()` with its default argument. */
  const Identity := Mat3(IdentityValues)

  /** The identity is neutral on both sides. */
  lemma {:induction false} IdentityNeutral(a: Values)
    ensures Multiply(IdentityValues, a) == a && Multiply(a, IdentityValues) == a
  {
    Neutral(a);
  }

  /** Two translations add up. */
  lemma {:induction false} TranslateTwice(m: Mat3, u: (real, real), v: (real, real))
    ensures m.Translate(u).Translate(v) == m.Translate((u.0 + v.0, u.1 + v.1))
  {
    var a, b := m.values, m.Translate(u).values;
    TranslateRow(a.m00, a.m01, a.m02, b.m00, b.m01, b.m02, u, v);
    TranslateRow(a.m10, a.m11, a.m12, b.m10, b.m11, b.m12, u, v);
    TranslateRow(a.m20, a.m21, a.m22, b.m20, b.m21, b.m22, u, v);
  }

  /** One row of `TranslateTwice`: (x, y, z) translated by u is (p, q, r). */
  lemma {:induction false} TranslateRow(x: real, y: real, z: real, p: real, q: real, r: real, u: (real, real), v: (real, real))
    requires p == x && q == y && r == x * u.0 + y * u.1 + z
    ensures p * v.0 + q * v.1 + r == x * (u.0 + v.0) + y * (u.1 + v.1) + z
  {
    assert x * (u.0 + v.0) == x * u.0 + x * v.0;
    assert y * (u.1 + v.1) == y * u.1 + y * v.1;
  }

  /** Two scalings multiply. */
  lemma {:induction false} ScaleTwice(m: Mat3, u: (real, real), v: (real, real))
    ensures m.Scale(u).Scale(v) == m.Scale((u.0 * v.0, u.1 * v.1))
  {
    var a, b := m.values, m.Scale(u).values;
    ScaleEntry(a.m00, b.m00, u.0, v.0);
    ScaleEntry(a.m01, b.m01, u.1, v.1);
    ScaleEntry(a.m10, b.m10, u.0, v.0);
    ScaleEntry(a.m11, b.m11, u.1, v.1);
    ScaleEntry(a.m20, b.m20, u.0, v.0);
    ScaleEntry(a.m21, b.m21, u.1, v.1);
  }

  /** One entry of `ScaleTwice`: x scaled by p is y. */
  lemma {:induction false} ScaleEntry(x: real, y: real, p: real, q: real)
    requires y == x * p
    ensures y * q == x * (p * q)
  {
  }

  /** The matrices the matrix test expects of `createMat3()`. */
  lemma {:induction false} KnownIdentity()
    ensures Identity.GetList() == [1.0, 0.0, 0.0, 0.0, 1.0, 0.0, 0.0, 0.0, 1.0]
  {
  }

  /** ... of a translation, */
  lemma {:induction false} KnownTranslate()
    ensures Identity.Translate((1.0, 2.0)).GetList() == [1.0, 0.0, 1.0, 0.0, 1.0, 2.0, 0.0, 0.0, 1.0]
  {
    assert Identity.Translate((1.0, 2.0)).values == Values(1.0, 0.0, 1.0, 0.0, 1.0, 2.0, 0.0, 0.0, 1.0);
  }

  /** ... of a scaling, */
  lemma {:induction false} KnownScale()
    ensures Identity.Scale((2.0, 3.0)).GetList() == [2.0, 0.0, 0.0, 0.0, 3.0, 0.0, 0.0, 0.0, 1.0]
  {
    assert Identity.Scale((2.0, 3.0)).values == Values(2.0, 0.0, 0.0, 0.0, 3.0, 0.0, 0.0, 0.0, 1.0);
  }

  /** ... of a translation then a scaling, */
  lemma {:induction false} KnownTranslateScale()
    ensures Identity.Translate((1.0, 2.0)).Scale((2.0, 3.0)).GetList() == [2.0, 0.0, 1.0, 0.0, 3.0, 2.0, 0.0, 0.0, 1.0]
  {
    var t := Identity.Translate((1.0, 2.0));
    assert t.values == Values(1.0, 0.0, 1.0, 0.0, 1.0, 2.0, 0.0, 0.0, 1.0);
    assert t.Scale((2.0, 3.0)).values == Values(2.0, 0.0, 1.0, 0.0, 3.0, 2.0, 0.0, 0.0, 1.0);
  }

  /** ... and of a scaling then a translation. */
  lemma {:induction false} KnownScaleTranslate()
    ensures Identity.Scale((2.0, 3.0)).Translate((1.0, 2.0)).GetList() == [2.0, 0.0, 2.0, 0.0, 3.0, 6.0, 0.0, 0.0, 1.0]
  {
    var s := Identity.Scale((2.0, 3.0));
    assert s.values == Values(2.0, 0.0, 0.0, 0.0, 3.0, 0.0, 0.0, 0.0, 1.0);
    assert s.Translate((1.0, 2.0)).values == Values(2.0, 0.0, 2.0, 0.0, 3.0, 6.0, 0.0, 0.0, 1.0);
  }
}
