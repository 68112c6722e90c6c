/**
 * The 4x4 matrix of the engine (Engine/matrix.h).
 *
 * `Mat4` is the value held by a matrix, row-major: `m[i][j]` is `M[i][j]` of
 * the source. The struct itself is the class `Matrix`, whose fixed buffer
 * `float M[4][4]` is a 4x4 array; `Set` and both `operator*` overloads write
 * that buffer in place and return the matrix they were called on.
 * Entries are `float` in the source and `real` here.
 */
module Matrices {

  type Mat4 = m: seq<seq<real>> | |m| == 4 && forall i | 0 <= i < 4 :: |m[i]| == 4
    witness [[0.0, 0.0, 0.0, 0.0], [0.0, 0.0, 0.0, 0.0], [0.0, 0.0, 0.0, 0.0], [0.0, 0.0, 0.0, 0.0]]

  const Zero: Mat4 := [[0.0, 0.0, 0.0, 0.0], [0.0, 0.0, 0.0, 0.0], [0.0, 0.0, 0.0, 0.0], [0.0, 0.0, 0.0, 0.0]]

  /** Row i of a times column j of b. */
  function RowCol(a: Mat4, b: Mat4, i: nat, j: nat): real
    requires i < 4 && j < 4
  {
    a[i][0] * b[0][j] + a[i][1] * b[1][j] + a[i][2] * b[2][j] + a[i][3] * b[3][j]
  }

  /** The row-by-column product, as the mathematics defines it. */
  function Product(a: Mat4, b: Mat4): Mat4
  {
    seq(4, i requires 0 <= i < 4 => seq(4, j requires 0 <= j < 4 => RowCol(a, b, i, j)))
  }

  /** Every entry multiplied by a scalar. */
  function Scaled(a: Mat4, s: real): Mat4
  {
    seq(4, i requires 0 <= i < 4 => seq(4, j requires 0 <= j < 4 => a[i][j] * s))
  }

  /** The 16 entries in memory order, as `&M[0][0]` exposes them. */
  function Flatten(m: Mat4): (r: seq<real>)
    ensures |r| == 16
    ensures forall i, j :: 0 <= i < 4 && 0 <= j < 4 ==> r[4 * i + j] == m[i][j]
  {
    m[0] + m[1] + m[2] + m[3]
  }

  /** The value built from 16 entries given row by row. */
  function Rows(m00: real, m01: real, m02: real, m03: real,
                m10: real, m11: real, m12: real, m13: real,
                m20: real, m21: real, m22: real, m23: real,
                m30: real, m31: real, m32: real, m33: real): Mat4
  {
    [[m00, m01, m02, m03], [m10, m11, m12, m13], [m20, m21, m22, m23], [m30, m31, m32, m33]]
  }

  /** Entry (i, j) of a product of three matrices, summed over the two inner indices. */
  function TripleEntry(a: Mat4, b: Mat4, c: Mat4, i: nat, j: nat, k: nat): real
    requires i < 4 && j < 4 && k < 4
  {
    a[i][k] * (b[k][0] * c[0][j] + b[k][1] * c[1][j] + b[k][2] * c[2][j] + b[k][3] * c[3][j])
  }

  lemma ProductEntry(a: Mat4, b: Mat4, i: nat, j: nat)
    requires i < 4 && j < 4
    ensures Product(a, b)[i][j] == RowCol(a, b, i, j)
  {
  }

  lemma ScaledEntry(a: Mat4, s: real, i: nat, j: nat)
    requires i < 4 && j < 4
    ensures Scaled(a, s)[i][j] == a[i][j] * s
  {
  }

  /** Scaled written out entry by entry. */
  lemma ScaledRows(a: Mat4, s: real)
    ensures Scaled(a, s) == Rows(a[0][0] * s, a[0][1] * s, a[0][2] * s, a[0][3] * s,
                                 a[1][0] * s, a[1][1] * s, a[1][2] * s, a[1][3] * s,
                                 a[2][0] * s, a[2][1] * s, a[2][2] * s, a[2][3] * s,
                                 a[3][0] * s, a[3][1] * s, a[3][2] * s, a[3][3] * s)
  {
    var r := Rows(a[0][0] * s, a[0][1] * s, a[0][2] * s, a[0][3] * s,
                  a[1][0] * s, a[1][1] * s, a[1][2] * s, a[1][3] * s,
                  a[2][0] * s, a[2][1] * s, a[2][2] * s, a[2][3] * s,
                  a[3][0] * s, a[3][1] * s, a[3][2] * s, a[3][3] * s);
    forall i, j | 0 <= i < 4 && 0 <= j < 4
      ensures Scaled(a, s)[i][j] == r[i][j]
    {
      ScaledEntry(a, s, i, j);
    }
    EqualByEntries(Scaled(a, s), r);
  }

  /** Two matrix values with the same 16 entries are equal. */
  lemma EqualByEntries(x: Mat4, y: Mat4)
    requires forall i, j :: 0 <= i < 4 && 0 <= j < 4 ==> x[i][j] == y[i][j]
    ensures x == y
  {
    assert forall i | 0 <= i < 4 :: x[i] == y[i];
  }

  /** A value is rebuilt by Rows from its own entries. */
  lemma RowsOfEntries(m: Mat4)
    ensures Rows(m[0][0], m[0][1], m[0][2], m[0][3],
                 m[1][0], m[1][1], m[1][2], m[1][3],
                 m[2][0], m[2][1], m[2][2], m[2][3],
                 m[3][0], m[3][1], m[3][2], m[3][3]) == m
  {
    var r := Rows(m[0][0], m[0][1], m[0][2], m[0][3],
                  m[1][0], m[1][1], m[1][2], m[1][3],
                  m[2][0], m[2][1], m[2][2], m[2][3],
                  m[3][0], m[3][1], m[3][2], m[3][3]);
    EqualByEntries(r, m);
  }

  /** The product written out entry by entry, as operator* passes it to Set. */
  lemma ProductRows(a: Mat4, b: Mat4)
    ensures Product(a, b) == Rows(RowCol(a, b, 0, 0), RowCol(a, b, 0, 1), RowCol(a, b, 0, 2), RowCol(a, b, 0, 3),
                                  RowCol(a, b, 1, 0), RowCol(a, b, 1, 1), RowCol(a, b, 1, 2), RowCol(a, b, 1, 3),
                                  RowCol(a, b, 2, 0), RowCol(a, b, 2, 1), RowCol(a, b, 2, 2), RowCol(a, b, 2, 3),
                                  RowCol(a, b, 3, 0), RowCol(a, b, 3, 1), RowCol(a, b, 3, 2), RowCol(a, b, 3, 3))
  {
    var r := Rows(RowCol(a, b, 0, 0), RowCol(a, b, 0, 1), RowCol(a, b, 0, 2), RowCol(a, b, 0, 3),
                  RowCol(a, b, 1, 0), RowCol(a, b, 1, 1), RowCol(a, b, 1, 2), RowCol(a, b, 1, 3),
                  RowCol(a, b, 2, 0), RowCol(a, b, 2, 1), RowCol(a, b, 2, 2), RowCol(a, b, 2, 3),
                  RowCol(a, b, 3, 0), RowCol(a, b, 3, 1), RowCol(a, b, 3, 2), RowCol(a, b, 3, 3));
    EqualByEntries(Product(a, b), r);
  }

  /** Column m of (a b), scaled by c[m][j], spread over the four products it sums. */
  lemma LeftExpand(a: Mat4, b: Mat4, c: Mat4, i: nat, j: nat, m: nat)
    requires i < 4 && j < 4 && m < 4
    ensures RowCol(a, b, i, m) * c[m][j]
         == a[i][0] * b[0][m] * c[m][j] + a[i][1] * b[1][m] * c[m][j]
          + a[i][2] * b[2][m] * c[m][j] + a[i][3] * b[3][m] * c[m][j]
  {
    var x0, x1, x2, x3 := a[i][0] * b[0][m], a[i][1] * b[1][m], a[i][2] * b[2][m], a[i][3] * b[3][m];
    var z := c[m][j];
    assert (x0 + x1 + x2 + x3) * z == x0 * z + x1 * z + x2 * z + x3 * z;
  }

  /** Term k of a (b c), spread over the four products it sums. */
  lemma RightExpand(a: Mat4, b: Mat4, c: Mat4, i: nat, j: nat, k: nat)
    requires i < 4 && j < 4 && k < 4
    ensures TripleEntry(a, b, c, i, j, k)
         == a[i][k] * b[k][0] * c[0][j] + a[i][k] * b[k][1] * c[1][j]
          + a[i][k] * b[k][2] * c[2][j] + a[i][k] * b[k][3] * c[3][j]
  {
    var x := a[i][k];
    var y0, y1, y2, y3 := b[k][0] * c[0][j], b[k][1] * c[1][j], b[k][2] * c[2][j], b[k][3] * c[3][j];
    assert x * (y0 + y1 + y2 + y3) == x * y0 + x * y1 + x * y2 + x * y3;
    assert x * y0 == x * b[k][0] * c[0][j] && x * y1 == x * b[k][1] * c[1][j];
    assert x * y2 == x * b[k][2] * c[2][j] && x * y3 == x * b[k][3] * c[3][j];
  }

  /** Summing (a b) c over its middle column and summing a (b c) over its middle row give the same 16 products. */
  lemma RegroupSum(a: Mat4, b: Mat4, c: Mat4, i: nat, j: nat)
    requires i < 4 && j < 4
    ensures RowCol(a, b, i, 0) * c[0][j] + RowCol(a, b, i, 1) * c[1][j]
          + RowCol(a, b, i, 2) * c[2][j] + RowCol(a, b, i, 3) * c[3][j]
         == TripleEntry(a, b, c, i, j, 0) + TripleEntry(a, b, c, i, j, 1)
          + TripleEntry(a, b, c, i, j, 2) + TripleEntry(a, b, c, i, j, 3)
  {
    LeftExpand(a, b, c, i, j, 0);
    LeftExpand(a, b, c, i, j, 1);
    LeftExpand(a, b, c, i, j, 2);
    LeftExpand(a, b, c, i, j, 3);
    RightExpand(a, b, c, i, j, 0);
    RightExpand(a, b, c, i, j, 1);
    RightExpand(a, b, c, i, j, 2);
    RightExpand(a, b, c, i, j, 3);
  }

  /** Term k of a (b c) is a's entry (i, k) times entry (k, j) of b c. */
  lemma TripleEntryAt(a: Mat4, b: Mat4, c: Mat4, i: nat, j: nat, k: nat)
    requires i < 4 && j < 4 && k < 4
    ensures TripleEntry(a, b, c, i, j, k) == a[i][k] * Product(b, c)[k][j]
  {
    ProductEntry(b, c, k, j);
  }

  /** One entry of (a b) c equals the same entry of a (b c). */
  lemma ProductAssociativeAt(a: Mat4, b: Mat4, c: Mat4, i: nat, j: nat)
    requires i < 4 && j < 4
    ensures RowCol(Product(a, b), c, i, j) == RowCol(a, Product(b, c), i, j)
  {
    var ab, bc := Product(a, b), Product(b, c);
    forall k | 0 <= k < 4
      ensures ab[i][k] == RowCol(a, b, i, k)
    {
      ProductEntry(a, b, i, k);
    }
    RegroupSum(a, b, c, i, j);
    TripleEntryAt(a, b, c, i, j, 0);
    TripleEntryAt(a, b, c, i, j, 1);
    TripleEntryAt(a, b, c, i, j, 2);
    TripleEntryAt(a, b, c, i, j, 3);
  }

  /** The matrix product is associative, so a chain may be grouped either way. */
  lemma ProductAssociative(a: Mat4, b: Mat4, c: Mat4)
    ensures Product(Product(a, b), c) == Product(a, Product(b, c))
  {
    var l, r := Product(Product(a, b), c), Product(a, Product(b, c));
    forall i, j | 0 <= i < 4 && 0 <= j < 4
      ensures l[i][j] == r[i][j]
    {
      ProductAssociativeAt(a, b, c, i, j);
    }
    assert forall i | 0 <= i < 4 :: l[i] == r[i];
  }

  /**
   * The struct Matrix: a fixed 4x4 buffer of entries. The buffer never
   * changes identity; its contents are what the methods write.
   */
  class Matrix {
    const M: array2<real>

    ghost predicate Valid()
      reads this
    {
      M.Length0 == 4 && M.Length1 == 4
    }

    function Value(): (v: Mat4)
      requires Valid()
      reads this, M
      ensures forall i, j :: 0 <= i < 4 && 0 <= j < 4 ==> v[i][j] == M[i, j]
    {
      [[M[0, 0], M[0, 1], M[0, 2], M[0, 3]],
       [M[1, 0], M[1, 1], M[1, 2], M[1, 3]],
       [M[2, 0], M[2, 1], M[2, 2], M[2, 3]],
       [M[3, 0], M[3, 1], M[3, 2], M[3, 3]]]
    }

    /** `Matrix() = default`; a matrix of static storage duration, as the engine's globals are, starts as zero. */
    constructor ()
      ensures Valid() && fresh(M) && Value() == Zero
    {
      M := new real[4, 4]((i, j) => 0.0);
    }

    /** The 16-argument constructor, which calls Set. */
    constructor Of(m00: real, m01: real, m02: real, m03: real,
                   m10: real, m11: real, m12: real, m13: real,
                   m20: real, m21: real, m22: real, m23: real,
                   m30: real, m31: real, m32: real, m33: real)
      ensures Valid() && fresh(M)
      ensures Value() == Rows(m00, m01, m02, m03, m10, m11, m12, m13, m20, m21, m22, m23, m30, m31, m32, m33)
    {
      M := new real[4, 4];
      new;
      Set(m00, m01, m02, m03, m10, m11, m12, m13, m20, m21, m22, m23, m30, m31, m32, m33);
    }

    /** Set: argument m_ij is stored at M[i][j], for all 16 entries. */
    method Set(m00: real, m01: real, m02: real, m03: real,
               m10: real, m11: real, m12: real, m13: real,
               m20: real, m21: real, m22: real, m23: real,
               m30: real, m31: real, m32: real, m33: real)
      requires Valid()
      modifies M
      ensures Value() == Rows(m00, m01, m02, m03, m10, m11, m12, m13, m20, m21, m22, m23, m30, m31, m32, m33)
    {
      M[0, 0] := m00; M[0, 1] := m01; M[0, 2] := m02; M[0, 3] := m03;
      M[1, 0] := m10; M[1, 1] := m11; M[1, 2] := m12; M[1, 3] := m13;
      M[2, 0] := m20; M[2, 1] := m21; M[2, 2] := m22; M[2, 3] := m23;
      M[3, 0] := m30; M[3, 1] := m31; M[3, 2] := m32; M[3, 3] := m33;
    }

    /** The implicit copy assignment `*this = m`. */
    method Assign(m: Mat4)
      requires Valid()
      modifies M
      ensures Value() == m
    {
      Set(m[0][0], m[0][1], m[0][2], m[0][3],
          m[1][0], m[1][1], m[1][2], m[1][3],
          m[2][0], m[2][1], m[2][2], m[2][3],
          m[3][0], m[3][1], m[3][2], m[3][3]);
      RowsOfEntries(m);
    }

    /**
     * operator*(const Matrix&): all 16 sums are formed from the old entries
     * before Set writes them, so this matrix becomes the product of its old
     * value and the right operand, also when the right operand is this very
     * matrix (a * a is the true square). Returns this matrix.
     */
    method MulAssign(rhe: Matrix) returns (r: Matrix)
      requires Valid() && rhe.Valid()
      modifies M
      ensures r == this
      ensures Value() == Product(old(Value()), old(rhe.Value()))
      ensures rhe.M != M ==> rhe.Value() == old(rhe.Value())
    {
      // the 16 sums are all formed before Set writes anything
      var a, b := Value(), rhe.Value();
      var p00 := a[0][0] * b[0][0] + a[0][1] * b[1][0] + a[0][2] * b[2][0] + a[0][3] * b[3][0];
      var p01 := a[0][0] * b[0][1] + a[0][1] * b[1][1] + a[0][2] * b[2][1] + a[0][3] * b[3][1];
      var p02 := a[0][0] * b[0][2] + a[0][1] * b[1][2] + a[0][2] * b[2][2] + a[0][3] * b[3][2];
      var p03 := a[0][0] * b[0][3] + a[0][1] * b[1][3] + a[0][2] * b[2][3] + a[0][3] * b[3][3];

      var p10 := a[1][0] * b[0][0] + a[1][1] * b[1][0] + a[1][2] * b[2][0] + a[1][3] * b[3][0];
      var p11 := a[1][0] * b[0][1] + a[1][1] * b[1][1] + a[1][2] * b[2][1] + a[1][3] * b[3][1];
      var p12 := a[1][0] * b[0][2] + a[1][1] * b[1][2] + a[1][2] * b[2][2] + a[1][3] * b[3][2];
      var p13 := a[1][0] * b[0][3] + a[1][1] * b[1][3] + a[1][2] * b[2][3] + a[1][3] * b[3][3];

      var p20 := a[2][0] * b[0][0] + a[2][1] * b[1][0] + a[2][2] * b[2][0] + a[2][3] * b[3][0];
      var p21 := a[2][0] * b[0][1] + a[2][1] * b[1][1] + a[2][2] * b[2][1] + a[2][3] * b[3][1];
      var p22 := a[2][0] * b[0][2] + a[2][1] * b[1][2] + a[2][2] * b[2][2] + a[2][3] * b[3][2];
      var p23 := a[2][0] * b[0][3] + a[2][1] * b[1][3] + a[2][2] * b[2][3] + a[2][3] * b[3][3];

      var p30 := a[3][0] * b[0][0] + a[3][1] * b[1][0] + a[3][2] * b[2][0] + a[3][3] * b[3][0];
      var p31 := a[3][0] * b[0][1] + a[3][1] * b[1][1] + a[3][2] * b[2][1] + a[3][3] * b[3][1];
      var p32 := a[3][0] * b[0][2] + a[3][1] * b[1][2] + a[3][2] * b[2][2] + a[3][3] * b[3][2];
      var p33 := a[3][0] * b[0][3] + a[3][1] * b[1][3] + a[3][2] * b[2][3] + a[3][3] * b[3][3];

      assert p00 == RowCol(a, b, 0, 0) && p01 == RowCol(a, b, 0, 1) && p02 == RowCol(a, b, 0, 2) && p03 == RowCol(a, b, 0, 3);
      assert p10 == RowCol(a, b, 1, 0) && p11 == RowCol(a, b, 1, 1) && p12 == RowCol(a, b, 1, 2) && p13 == RowCol(a, b, 1, 3);
      assert p20 == RowCol(a, b, 2, 0) && p21 == RowCol(a, b, 2, 1) && p22 == RowCol(a, b, 2, 2) && p23 == RowCol(a, b, 2, 3);
      assert p30 == RowCol(a, b, 3, 0) && p31 == RowCol(a, b, 3, 1) && p32 == RowCol(a, b, 3, 2) && p33 == RowCol(a, b, 3, 3);
      ProductRows(a, b);
      Set(p00, p01, p02, p03, p10, p11, p12, p13, p20, p21, p22, p23, p30, p31, p32, p33);
      r := this;
    }

    /** operator*(float): every entry is scaled in place; returns this matrix. */
    method MulScalarAssign(scalar: real) returns (r: Matrix)
      requires Valid()
      modifies M
      ensures r == this
      ensures Value() == Scaled(old(Value()), scalar)
    {
      // each entry is scaled on its own, so reading them all first changes nothing
      var a := Value();
      ScaledRows(a, scalar);
      Set(a[0][0] * scalar, a[0][1] * scalar, a[0][2] * scalar, a[0][3] * scalar,
          a[1][0] * scalar, a[1][1] * scalar, a[1][2] * scalar, a[1][3] * scalar,
          a[2][0] * scalar, a[2][1] * scalar, a[2][2] * scalar, a[2][3] * scalar,
          a[3][0] * scalar, a[3][1] * scalar, a[3][2] * scalar, a[3][3] * scalar);
      r := this;
    }
  }
}
