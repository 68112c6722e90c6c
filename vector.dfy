/**
 * Two- and three-component vectors of the engine (Engine/vector.h).
 *
 * The source has one struct per size whose `const` operators return new
 * values and whose assignment operators update the struct in place. Here the
 * values are the datatypes `Vec2` and `Vec3`, with the `const` operators as
 * member functions, and a variable of that type, which the in-place members
 * update, is the class `Vec2Var` or `Vec3Var`. Components are `float` in the
 * source and `real` here; rounding is not modelled.
 */
module Vectors {

  datatype Vec2 = Vec2(X: real, Y: real) {

    /** operator+: subtracting rhe again gives this vector back. */
    function Add(rhe: Vec2): (r: Vec2)
      ensures r.Sub(rhe) == this
    {
      Vec2(X + rhe.X, Y + rhe.Y)
    }

    /** operator-: the difference is what must be added to rhe to reach this vector. */
    function Sub(rhe: Vec2): (r: Vec2)
      ensures r.X + rhe.X == X && r.Y + rhe.Y == Y
    {
      Vec2(X - rhe.X, Y - rhe.Y)
    }

    /** operator*(vector): componentwise product; dividing by a vector with no zero component undoes it. */
    function Mul(rhe: Vec2): (r: Vec2)
      ensures rhe.X != 0.0 && rhe.Y != 0.0 ==> r.Div(rhe) == this
    {
      Vec2(X * rhe.X, Y * rhe.Y)
    }

    /** operator*(scalar): the componentwise product with the scalar in both components. */
    function MulScalar(scalar: real): (r: Vec2)
      ensures r == Mul(Vec2(scalar, scalar))
    {
      Vec2(X * scalar, Y * scalar)
    }

    /** operator/(vector): componentwise quotient; multiplying back by rhe gives this vector. */
    function Div(rhe: Vec2): (r: Vec2)
      requires rhe.X != 0.0 && rhe.Y != 0.0
      ensures r.X * rhe.X == X && r.Y * rhe.Y == Y
    {
      Vec2(X / rhe.X, Y / rhe.Y)
    }

    /** operator/(scalar): multiplying back by the scalar gives this vector. */
    function DivScalar(scalar: real): (r: Vec2)
      requires scalar != 0.0
      ensures r.MulScalar(scalar) == this
    {
      Vec2(X / scalar, Y / scalar)
    }

    /** operator==: exactly equality of the two values. */
    predicate Equal(rhe: Vec2)
      ensures Equal(rhe) <==> this == rhe
    {
      X == rhe.X && Y == rhe.Y
    }

    /** operator!=: exactly inequality of the two values. */
    predicate NotEqual(rhe: Vec2)
      ensures NotEqual(rhe) <==> this != rhe
    {
      !Equal(rhe)
    }
  }

  datatype Vec3 = Vec3(X: real, Y: real, Z: real) {

    /** operator+: subtracting rhe again gives this vector back. */
    function Add(rhe: Vec3): (r: Vec3)
      ensures r.Sub(rhe) == this
    {
      Vec3(X + rhe.X, Y + rhe.Y, Z + rhe.Z)
    }

    /** operator-: the difference is what must be added to rhe to reach this vector. */
    function Sub(rhe: Vec3): (r: Vec3)
      ensures r.X + rhe.X == X && r.Y + rhe.Y == Y && r.Z + rhe.Z == Z
    {
      Vec3(X - rhe.X, Y - rhe.Y, Z - rhe.Z)
    }

    /** operator*(vector): componentwise product; dividing by a vector with no zero component undoes it. */
    function Mul(rhe: Vec3): (r: Vec3)
      ensures rhe.X != 0.0 && rhe.Y != 0.0 && rhe.Z != 0.0 ==> r.Div(rhe) == this
    {
      Vec3(X * rhe.X, Y * rhe.Y, Z * rhe.Z)
    }

    /** operator*(scalar): the componentwise product with the scalar in every component. */
    function MulScalar(scalar: real): (r: Vec3)
      ensures r == Mul(Vec3(scalar, scalar, scalar))
    {
      Vec3(X * scalar, Y * scalar, Z * scalar)
    }

    /** operator/(vector): componentwise quotient; multiplying back by rhe gives this vector. */
    function Div(rhe: Vec3): (r: Vec3)
      requires rhe.X != 0.0 && rhe.Y != 0.0 && rhe.Z != 0.0
      ensures r.X * rhe.X == X && r.Y * rhe.Y == Y && r.Z * rhe.Z == Z
    {
      Vec3(X / rhe.X, Y / rhe.Y, Z / rhe.Z)
    }

    /** operator/(scalar): multiplying back by the scalar gives this vector. */
    function DivScalar(scalar: real): (r: Vec3)
      requires scalar != 0.0
      ensures r.MulScalar(scalar) == this
    {
      Vec3(X / scalar, Y / scalar, Z / scalar)
    }

    /** operator==: exactly equality of the two values. */
    predicate Equal(rhe: Vec3)
      ensures Equal(rhe) <==> this == rhe
    {
      X == rhe.X && Y == rhe.Y && Z == rhe.Z
    }

    /** operator!=: exactly inequality of the two values. */
    predicate NotEqual(rhe: Vec3)
      ensures NotEqual(rhe) <==> this != rhe
    {
      !Equal(rhe)
    }
  }

  /** The componentwise reading of operator== and operator!=. */
  lemma Vec2EqualityIsComponentwise(a: Vec2, b: Vec2)
    ensures a.Equal(b) <==> a == b
    ensures a.NotEqual(b) <==> a != b
  {
  }

  lemma Vec3EqualityIsComponentwise(a: Vec3, b: Vec3)
    ensures a.Equal(b) <==> a == b
    ensures a.NotEqual(b) <==> a != b
  {
  }

  /** Subtraction undoes addition and addition undoes subtraction. */
  lemma Vec2AddSubInverse(a: Vec2, b: Vec2)
    ensures a.Add(b).Sub(b) == a
    ensures a.Sub(b).Add(b) == a
    ensures a.Add(b) == b.Add(a)
  {
  }

  lemma Vec3AddSubInverse(a: Vec3, b: Vec3)
    ensures a.Add(b).Sub(b) == a
    ensures a.Sub(b).Add(b) == a
    ensures a.Add(b) == b.Add(a)
  {
  }

  /** Division by a vector with no zero component undoes multiplication by it, and vice versa. */
  lemma Vec2MulDivInverse(a: Vec2, b: Vec2, s: real)
    requires b.X != 0.0 && b.Y != 0.0 && s != 0.0
    ensures a.Mul(b).Div(b) == a && a.Div(b).Mul(b) == a
    ensures a.MulScalar(s).DivScalar(s) == a && a.DivScalar(s).MulScalar(s) == a
  {
    MulDivCancel(a.X, b.X);
    MulDivCancel(a.Y, b.Y);
    MulDivCancel(a.X, s);
    MulDivCancel(a.Y, s);
  }

  lemma Vec3MulDivInverse(a: Vec3, b: Vec3, s: real)
    requires b.X != 0.0 && b.Y != 0.0 && b.Z != 0.0 && s != 0.0
    ensures a.Mul(b).Div(b) == a && a.Div(b).Mul(b) == a
    ensures a.MulScalar(s).DivScalar(s) == a && a.DivScalar(s).MulScalar(s) == a
  {
    MulDivCancel(a.X, b.X);
    MulDivCancel(a.Y, b.Y);
    MulDivCancel(a.Z, b.Z);
    assert a.Mul(b).Div(b) == a;
    assert a.Div(b).Mul(b) == a;
    MulDivCancel(a.X, s);
    MulDivCancel(a.Y, s);
    MulDivCancel(a.Z, s);
  }

  lemma MulDivCancel(x: real, d: real)
    requires d != 0.0
    ensures (x * d) / d == x && (x / d) * d == x
  {
  }

  /** The scalar form of `*` is the vector form applied to the splatted scalar. */
  lemma ScalarFormsAgree(a: Vec2, b: Vec3, s: real)
    ensures a.MulScalar(s) == a.Mul(Vec2(s, s))
    ensures b.MulScalar(s) == b.Mul(Vec3(s, s, s))
    ensures s != 0.0 ==> a.DivScalar(s) == a.Div(Vec2(s, s)) && b.DivScalar(s) == b.Div(Vec3(s, s, s))
  {
  }

  /** A variable of type Vec2: the target of Set, operator= and the compound assignments. */
  class Vec2Var {
    var X: real
    var Y: real

    function Value(): Vec2
      reads this
    {
      Vec2(X, Y)
    }

    /** Vec2(): both components zero. */
    constructor ()
      ensures Value() == Vec2(0.0, 0.0)
    {
      X, Y := 0.0, 0.0;
    }

    /** Vec2(x, y), which calls Set. */
    constructor Of(x: real, y: real)
      ensures Value() == Vec2(x, y)
    {
      X, Y := x, y;
    }

    /** Vec2(scalar): every component is the scalar. */
    constructor Splat(scalar: real)
      ensures Value() == Vec2(scalar, scalar)
    {
      X, Y := scalar, scalar;
    }

    /** Vec2(const Vec2&), which goes through operator=. */
    constructor Copy(copy: Vec2)
      ensures Value() == copy && Value().Equal(copy)
    {
      X, Y := copy.X, copy.Y;
    }

    method Set(x: real, y: real)
      modifies this
      ensures Value() == Vec2(x, y)
    {
      X := x;
      Y := y;
    }

    /** operator=: overwrites both components and returns this variable. */
    method Assign(rhe: Vec2) returns (r: Vec2Var)
      modifies this
      ensures r == this && Value() == rhe
    {
      Set(rhe.X, rhe.Y);
      r := this;
    }

    /** operator+= leaves the variable equal to what operator+ returns. */
    method AddAssign(rhe: Vec2) returns (r: Vec2Var)
      modifies this
      ensures r == this && Value() == old(Value()).Add(rhe)
    {
      X := X + rhe.X;
      Y := Y + rhe.Y;
      r := this;
    }

    method SubAssign(rhe: Vec2) returns (r: Vec2Var)
      modifies this
      ensures r == this && Value() == old(Value()).Sub(rhe)
    {
      X := X - rhe.X;
      Y := Y - rhe.Y;
      r := this;
    }

    method MulAssign(rhe: Vec2) returns (r: Vec2Var)
      modifies this
      ensures r == this && Value() == old(Value()).Mul(rhe)
    {
      X := X * rhe.X;
      Y := Y * rhe.Y;
      r := this;
    }

    method MulScalarAssign(scalar: real) returns (r: Vec2Var)
      modifies this
      ensures r == this && Value() == old(Value()).MulScalar(scalar)
    {
      X := X * scalar;
      Y := Y * scalar;
      r := this;
    }

    method DivAssign(rhe: Vec2) returns (r: Vec2Var)
      requires rhe.X != 0.0 && rhe.Y != 0.0
      modifies this
      ensures r == this && Value() == old(Value()).Div(rhe)
    {
      X := X / rhe.X;
      Y := Y / rhe.Y;
      r := this;
    }

    method DivScalarAssign(scalar: real) returns (r: Vec2Var)
      requires scalar != 0.0
      modifies this
      ensures r == this && Value() == old(Value()).DivScalar(scalar)
    {
      X := X / scalar;
      Y := Y / scalar;
      r := this;
    }
  }

  /** A variable of type Vec3: the target of Set, operator= and the compound assignments. */
  class Vec3Var {
    var X: real
    var Y: real
    var Z: real

    function Value(): Vec3
      reads this
    {
      Vec3(X, Y, Z)
    }

    /** Vec3(): all components zero. */
    constructor ()
      ensures Value() == Vec3(0.0, 0.0, 0.0)
    {
      X, Y, Z := 0.0, 0.0, 0.0;
    }

    constructor Of(x: real, y: real, z: real)
      ensures Value() == Vec3(x, y, z)
    {
      X, Y, Z := x, y, z;
    }

    /** Vec3(scalar): every component is the scalar. */
    constructor Splat(scalar: real)
      ensures Value() == Vec3(scalar, scalar, scalar)
    {
      X, Y, Z := scalar, scalar, scalar;
    }

    constructor Copy(copy: Vec3)
      ensures Value() == copy && Value().Equal(copy)
    {
      X, Y, Z := copy.X, copy.Y, copy.Z;
    }

    method Set(x: real, y: real, z: real)
      modifies this
      ensures Value() == Vec3(x, y, z)
    {
      X := x;
      Y := y;
      Z := z;
    }

    method Assign(rhe: Vec3) returns (r: Vec3Var)
      modifies this
      ensures r == this && Value() == rhe
    {
      Set(rhe.X, rhe.Y, rhe.Z);
      r := this;
    }

    method AddAssign(rhe: Vec3) returns (r: Vec3Var)
      modifies this
      ensures r == this && Value() == old(Value()).Add(rhe)
    {
      X := X + rhe.X;
      Y := Y + rhe.Y;
      Z := Z + rhe.Z;
      r := this;
    }

    method SubAssign(rhe: Vec3) returns (r: Vec3Var)
      modifies this
      ensures r == this && Value() == old(Value()).Sub(rhe)
    {
      X := X - rhe.X;
      Y := Y - rhe.Y;
      Z := Z - rhe.Z;
      r := this;
    }

    method MulAssign(rhe: Vec3) returns (r: Vec3Var)
      modifies this
      ensures r == this && Value() == old(Value()).Mul(rhe)
    {
      X := X * rhe.X;
      Y := Y * rhe.Y;
      Z := Z * rhe.Z;
      r := this;
    }

    method MulScalarAssign(scalar: real) returns (r: Vec3Var)
      modifies this
      ensures r == this && Value() == old(Value()).MulScalar(scalar)
    {
      X := X * scalar;
      Y := Y * scalar;
      Z := Z * scalar;
      r := this;
    }

    method DivAssign(rhe: Vec3) returns (r: Vec3Var)
      requires rhe.X != 0.0 && rhe.Y != 0.0 && rhe.Z != 0.0
      modifies this
      ensures r == this && Value() == old(Value()).Div(rhe)
    {
      X := X / rhe.X;
      Y := Y / rhe.Y;
      Z := Z / rhe.Z;
      r := this;
    }

    method DivScalarAssign(scalar: real) returns (r: Vec3Var)
      requires scalar != 0.0
      modifies this
      ensures r == this && Value() == old(Value()).DivScalar(scalar)
    {
      X := X / scalar;
      Y := Y / scalar;
      Z := Z / scalar;
      r := this;
    }
  }
}
