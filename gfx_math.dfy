/**
 * The structural helpers of Engine/gfx_math.h: the matrix builders the
 * engine uses (identity, translation, scale, transpose) and the in-place
 * clamps. The trigonometric builders and the float numerics are not part of
 * this model.
 */
module GfxMath {
  import opened Vectors
  import opened Matrices

  /** mtxIdentity */
  function Identity(): (r: Mat4)
    ensures forall i, j :: 0 <= i < 4 && 0 <= j < 4 ==> r[i][j] == if i == j then 1.0 else 0.0
  {
    Rows(1.0, 0.0, 0.0, 0.0,
         0.0, 1.0, 0.0, 0.0,
         0.0, 0.0, 1.0, 0.0,
         0.0, 0.0, 0.0, 1.0)
  }

  /** mtxTranslate: the identity except that row 3, columns 0..2, hold the offset. */
  function Translate(offset: Vec3): (r: Mat4)
    ensures forall i, j :: 0 <= i < 3 && 0 <= j < 4 ==> r[i][j] == Identity()[i][j]
    ensures r[3] == [offset.X, offset.Y, offset.Z, 1.0]
  {
    Rows(1.0,      0.0,      0.0,      0.0,
         0.0,      1.0,      0.0,      0.0,
         0.0,      0.0,      1.0,      0.0,
         offset.X, offset.Y, offset.Z, 1.0)
  }

  /** mtxScale: diagonal, with the three factors and then 1. */
  function Scale(offset: Vec3): (r: Mat4)
    ensures forall i, j :: 0 <= i < 4 && 0 <= j < 4 && i != j ==> r[i][j] == 0.0
    ensures r[0][0] == offset.X && r[1][1] == offset.Y && r[2][2] == offset.Z && r[3][3] == 1.0
  {
    Rows(offset.X, 0.0,      0.0,      0.0,
         0.0,      offset.Y, 0.0,      0.0,
         0.0,      0.0,      offset.Z, 0.0,
         0.0,      0.0,      0.0,      1.0)
  }

  /** mtxTranspose: the 16-argument constructor fed column by column. */
  function Transpose(mtx: Mat4): (r: Mat4)
    ensures forall i, j :: 0 <= i < 4 && 0 <= j < 4 ==> r[i][j] == mtx[j][i]
  {
    Rows(mtx[0][0], mtx[1][0], mtx[2][0], mtx[3][0],
         mtx[0][1], mtx[1][1], mtx[2][1], mtx[3][1],
         mtx[0][2], mtx[1][2], mtx[2][2], mtx[3][2],
         mtx[0][3], mtx[1][3], mtx[2][3], mtx[3][3])
  }

  /** Transposing twice gives back the original. */
  lemma TransposeInvolutive(m: Mat4)
    ensures Transpose(Transpose(m)) == m
  {
    EqualByEntries(Transpose(Transpose(m)), m);
  }

  /** The identity and every scale matrix are diagonal, so they equal their own transposes. */
  lemma DiagonalBuildersAreSymmetric(offset: Vec3)
    ensures Transpose(Identity()) == Identity()
    ensures Transpose(Scale(offset)) == Scale(offset)
  {
    EqualByEntries(Transpose(Identity()), Identity());
    EqualByEntries(Transpose(Scale(offset)), Scale(offset));
  }

  /** A translation by a non-zero offset is not symmetric: the offset moves to column 3 when transposed. */
  lemma TranslateTranspose(offset: Vec3)
    ensures Transpose(Translate(offset))[0][3] == offset.X
    ensures Transpose(Translate(offset))[3][0] == 0.0
    ensures Transpose(Translate(offset)) == Translate(offset) <==> offset == Vec3(0.0, 0.0, 0.0)
  {
    var t, m := Transpose(Translate(offset)), Translate(offset);
    assert t[0][3] == offset.X && t[1][3] == offset.Y && t[2][3] == offset.Z;
    assert m[0][3] == 0.0 && m[1][3] == 0.0 && m[2][3] == 0.0;
    if offset == Vec3(0.0, 0.0, 0.0) {
      EqualByEntries(t, m);
    }
  }

  /** Multiplying by the identity on either side leaves a matrix unchanged. */
  lemma ProductIdentity(m: Mat4)
    ensures Product(m, Identity()) == m
    ensures Product(Identity(), m) == m
  {
    forall i, j | 0 <= i < 4 && 0 <= j < 4
      ensures Product(m, Identity())[i][j] == m[i][j] && Product(Identity(), m)[i][j] == m[i][j]
    {
      ProductEntry(m, Identity(), i, j);
      ProductEntry(Identity(), m, i, j);
    }
    EqualByEntries(Product(m, Identity()), m);
    EqualByEntries(Product(Identity(), m), m);
  }

  /** The transpose of a product is the product of the transposes in reverse order. */
  lemma TransposeOfProduct(a: Mat4, b: Mat4)
    ensures Transpose(Product(a, b)) == Product(Transpose(b), Transpose(a))
  {
    var l, r := Transpose(Product(a, b)), Product(Transpose(b), Transpose(a));
    forall i, j | 0 <= i < 4 && 0 <= j < 4
      ensures l[i][j] == r[i][j]
    {
      TransposeOfProductAt(a, b, i, j);
    }
    EqualByEntries(l, r);
  }

  /** One entry of TransposeOfProduct: the same four products, each with its factors swapped. */
  lemma TransposeOfProductAt(a: Mat4, b: Mat4, i: nat, j: nat)
    requires i < 4 && j < 4
    ensures Transpose(Product(a, b))[i][j] == Product(Transpose(b), Transpose(a))[i][j]
  {
    var ta, tb := Transpose(a), Transpose(b);
    ProductEntry(a, b, j, i);
    ProductEntry(tb, ta, i, j);
    assert tb[i][0] == b[0][i] && tb[i][1] == b[1][i] && tb[i][2] == b[2][i] && tb[i][3] == b[3][i];
    assert ta[0][j] == a[j][0] && ta[1][j] == a[j][1] && ta[2][j] == a[j][2] && ta[3][j] == a[j][3];
    assert RowCol(tb, ta, i, j) == b[0][i] * a[j][0] + b[1][i] * a[j][1] + b[2][i] * a[j][2] + b[3][i] * a[j][3];
  }

  /** The larger of two values: the reference meaning of ClampMin. */
  function Max(a: real, b: real): real { if a < b then b else a }

  /** The smaller of two values: the reference meaning of ClampMax. */
  function Min(a: real, b: real): real { if a < b then a else b }

  /**
   * The reference meaning of Clamp: the nearest point of [min, max], and,
   * when the range is empty, max (ClampMax has the last word).
   */
  function Clamped(value: real, min: real, max: real): real
  {
    if max < min then max
    else if value < min then min
    else if max < value then max
    else value
  }

  /** ClampMin: `value` is raised to `min` when below it. */
  method ClampMin(value: real, min: real) returns (v: real)
    ensures v >= min
    ensures value >= min ==> v == value
    ensures v == Max(value, min)
  {
    v := value;
    if v < min {
      v := min;
    }
  }

  /** ClampMax: `value` is lowered to `max` when above it. */
  method ClampMax(value: real, max: real) returns (v: real)
    ensures v <= max
    ensures value <= max ==> v == value
    ensures v == Min(value, max)
  {
    v := value;
    if v > max {
      v := max;
    }
  }

  /** Clamp: ClampMin, then ClampMax, on the same variable. */
  method Clamp(value: real, min: real, max: real) returns (v: real)
    ensures min <= max ==> min <= v <= max
    ensures min <= value <= max ==> v == value
    ensures max < min ==> v == max
    ensures v == Clamped(value, min, max)
  {
    v := ClampMin(value, min);
    v := ClampMax(v, max);
  }

  /** Clamping a clamped value changes nothing, whatever the bounds. */
  lemma ClampedIdempotent(value: real, min: real, max: real)
    ensures Clamped(Clamped(value, min, max), min, max) == Clamped(value, min, max)
  {
  }

  /** For every pair of bounds, Clamped is Max then Min: the composition Clamp performs. */
  lemma ClampedIsMinOfMax(value: real, min: real, max: real)
    ensures Clamped(value, min, max) == Min(Max(value, min), max)
  {
  }
}
