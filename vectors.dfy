/** Fixed-size vectors of reals: the `vec<N>` value type and its helpers.

    A vector of dimension N is a `seq<real>` of length N; the named-field
    specialisations for N = 2, 3, 4 are the datatypes Vec2, Vec3, Vec4. */
module Vectors {

  type Vec = seq<real>

  // ---------------------------------------------------------------------
  // The named-field specialisations vec<2>, vec<3>, vec<4>
  // ---------------------------------------------------------------------

  datatype Vec2 = Vec2(x: real, y: real) {
    function Seq(): Vec { [x, y] }

    /** `operator[]`: the index must lie in [0, 2); 0 reads x, anything else y. */
    function Get(i: int): (r: real)
      requires 0 <= i < 2
      ensures r == Seq()[i]
    {
      if i == 0 then x else y
    }
  }

  datatype Vec3 = Vec3(x: real, y: real, z: real) {
    function Seq(): Vec { [x, y, z] }

    /** `operator[]`: the index must lie in [0, 3); 0, 1, 2 read x, y, z. */
    function Get(i: int): (r: real)
      requires 0 <= i < 3
      ensures r == Seq()[i]
    {
      if i == 0 then x else if i == 1 then y else z
    }
  }

  datatype Vec4 = Vec4(x: real, y: real, z: real, w: real) {
    function Seq(): Vec { [x, y, z, w] }

    /** `operator[]`: the index must lie in [0, 4); 0, 1, 2, 3 read x, y, z, w. */
    function Get(i: int): (r: real)
      requires 0 <= i < 4
      ensures r == Seq()[i]
    {
      if i == 0 then x else if i == 1 then y else if i == 2 then z else w
    }

    /** `xy()`: the two leading components, unchanged. */
    function XY(): (r: Vec2)
      ensures r.Seq() == Seq()[..2]
    {
      Vec2(x, y)
    }

    /** `xyz()`: the three leading components, unchanged. */
    function XYZ(): (r: Vec3)
      ensures r.Seq() == Seq()[..3]
    {
      Vec3(x, y, z)
    }
  }

  /** `std::min` and `std::max` on integers. */
  function Min(a: int, b: int): int { if a <= b then a else b }
  function Max(a: int, b: int): int { if a <= b then b else a }

  /** The generic `operator[]`: bounds-checked access to the data array. */
  function At(v: Vec, i: int): (r: real)
    requires 0 <= i < |v|
    ensures r == v[i]
  {
    v[i]
  }

  // ---------------------------------------------------------------------
  // Specification functions
  // ---------------------------------------------------------------------

  /** The dot product, accumulated from index 0 upwards as the loop does. */
  function Dot(a: Vec, b: Vec): real
    requires |a| == |b|
    decreases |a|
  {
    if |a| == 0 then 0.0 else Dot(a[..|a| - 1], b[..|b| - 1]) + a[|a| - 1] * b[|b| - 1]
  }

  function Add(a: Vec, b: Vec): Vec
    requires |a| == |b|
  {
    seq(|a|, i requires 0 <= i < |a| => a[i] + b[i])
  }

  function Sub(a: Vec, b: Vec): Vec
    requires |a| == |b|
  {
    seq(|a|, i requires 0 <= i < |a| => a[i] - b[i])
  }

  /** `v * s`. */
  function Scale(v: Vec, s: real): Vec
  {
    seq(|v|, i requires 0 <= i < |v| => v[i] * s)
  }

  /** `v / s`; division by zero is a caller error in the source. */
  function Div(v: Vec, s: real): Vec
    requires s != 0.0
  {
    seq(|v|, i requires 0 <= i < |v| => v[i] / s)
  }

  /** The 2 x 2 determinant p * s - q * r that each cross-product component is. */
  function Wedge(p: real, q: real, r: real, s: real): real
  {
    p * s - q * r
  }

  /** The right-handed cross product of two 3-vectors. */
  function Cross(a: Vec, b: Vec): (r: Vec)
    requires |a| == 3 && |b| == 3
    ensures |r| == 3
  {
    [Wedge(a[1], a[2], b[1], b[2]),
     Wedge(a[2], a[0], b[2], b[0]),
     Wedge(a[0], a[1], b[0], b[1])]
  }

  /** `len` is the Euclidean norm of v (`std::sqrt(v * v)`). The model has no
      square root, so norms enter as parameters that satisfy this predicate. */
  ghost predicate IsNorm(v: Vec, len: real)
  {
    len >= 0.0 && len * len == Dot(v, v)
  }

  /** `normalized(v)` is `v / norm(v)`; `len` stands for `norm(v)`. */
  function Normalized(v: Vec, len: real): (r: Vec)
    requires len > 0.0
    ensures |r| == |v|
    ensures forall i :: 0 <= i < |v| ==> r[i] * len == v[i]
  {
    Div(v, len)
  }

  // ---------------------------------------------------------------------
  // The operator loops of vector.h / vec.h
  // ---------------------------------------------------------------------

  /** `dot(lhs, rhs)` and vector-vector `operator*`: the accumulation loop. */
  method DotProduct(lhs: Vec, rhs: Vec) returns (result: real)
    requires |lhs| == |rhs|
    ensures result == Dot(lhs, rhs)
  {
    result := 0.0;
    var i := 0;
    while i < |lhs|
      invariant 0 <= i <= |lhs|
      invariant result == Dot(lhs[..i], rhs[..i])
    {
      assert lhs[..i + 1][..i] == lhs[..i];
      assert rhs[..i + 1][..i] == rhs[..i];
      result := result + lhs[i] * rhs[i];
      i := i + 1;
    }
    assert lhs[..|lhs|] == lhs && rhs[..|rhs|] == rhs;
  }

  /** `operator+`: updates a copy of lhs component by component. */
  method Plus(lhs: Vec, rhs: Vec) returns (ret: Vec)
    requires |lhs| == |rhs|
    ensures ret == Add(lhs, rhs)
  {
    ret := lhs;
    var i := 0;
    while i < |lhs|
      invariant 0 <= i <= |lhs| && |ret| == |lhs|
      invariant forall k :: 0 <= k < i ==> ret[k] == lhs[k] + rhs[k]
      invariant forall k :: i <= k < |lhs| ==> ret[k] == lhs[k]
    {
      ret := ret[i := ret[i] + rhs[i]];
      i := i + 1;
    }
  }

  /** `operator-`: updates a copy of lhs component by component. */
  method Minus(lhs: Vec, rhs: Vec) returns (ret: Vec)
    requires |lhs| == |rhs|
    ensures ret == Sub(lhs, rhs)
  {
    ret := lhs;
    var i := 0;
    while i < |lhs|
      invariant 0 <= i <= |lhs| && |ret| == |lhs|
      invariant forall k :: 0 <= k < i ==> ret[k] == lhs[k] - rhs[k]
      invariant forall k :: i <= k < |lhs| ==> ret[k] == lhs[k]
    {
      ret := ret[i := ret[i] - rhs[i]];
      i := i + 1;
    }
  }

  /** `operator*(vec, double)`: scales a copy of lhs component by component. */
  method Times(lhs: Vec, rhs: real) returns (ret: Vec)
    ensures ret == Scale(lhs, rhs)
  {
    ret := lhs;
    var i := 0;
    while i < |lhs|
      invariant 0 <= i <= |lhs| && |ret| == |lhs|
      invariant forall k :: 0 <= k < i ==> ret[k] == lhs[k] * rhs
      invariant forall k :: i <= k < |lhs| ==> ret[k] == lhs[k]
    {
      ret := ret[i := ret[i] * rhs];
      i := i + 1;
    }
    assert forall k :: 0 <= k < |lhs| ==> ret[k] == Scale(lhs, rhs)[k];
  }

  /** `operator*(double, vec)` forwards to `rhs * lhs`. */
  method TimesLeft(lhs: real, rhs: Vec) returns (ret: Vec)
    ensures ret == Scale(rhs, lhs)
    ensures forall k :: 0 <= k < |rhs| ==> ret[k] == lhs * rhs[k]
  {
    ret := Times(rhs, lhs);
  }

  /** `operator/`: divides a copy of lhs component by component. */
  method Divide(lhs: Vec, rhs: real) returns (ret: Vec)
    requires rhs != 0.0
    ensures ret == Div(lhs, rhs)
  {
    ret := lhs;
    var i := 0;
    while i < |lhs|
      invariant 0 <= i <= |lhs| && |ret| == |lhs|
      invariant forall k :: 0 <= k < i ==> ret[k] == lhs[k] / rhs
      invariant forall k :: i <= k < |lhs| ==> ret[k] == lhs[k]
    {
      ret := ret[i := ret[i] / rhs];
      i := i + 1;
    }
  }

  // ---------------------------------------------------------------------
  // Laws
  // ---------------------------------------------------------------------

  /** a + b == b + a. */
  lemma AddCommutative(a: Vec, b: Vec)
    requires |a| == |b|
    ensures Add(a, b) == Add(b, a)
  {
  }

  /** (a + b) - b == a. */
  lemma AddSubCancel(a: Vec, b: Vec)
    requires |a| == |b|
    ensures Sub(Add(a, b), b) == a
  {
  }

  /** The dot product is symmetric. */
  lemma {:induction false} DotSymmetric(a: Vec, b: Vec)
    requires |a| == |b|
    ensures Dot(a, b) == Dot(b, a)
    decreases |a|
  {
    if |a| > 0 {
      DotSymmetric(a[..|a| - 1], b[..|b| - 1]);
    }
  }

  /** Dividing the left argument by s divides the dot product by s. */
  lemma {:induction false} DotDivLeft(a: Vec, b: Vec, s: real)
    requires |a| == |b| && s != 0.0
    ensures Dot(Div(a, s), b) == Dot(a, b) / s
    decreases |a|
  {
    if |a| > 0 {
      var n := |a| - 1;
      assert Div(a, s)[..n] == Div(a[..n], s);
      DotDivLeft(a[..n], b[..n], s);
    }
  }

  /** Positive rescaling keeps orthogonality: if a . b == 0 then so is
      normalized(a) . normalized(b), whatever positive norms are used. */
  lemma NormalizedKeepsOrthogonal(a: Vec, b: Vec, la: real, lb: real)
    requires |a| == |b| && la > 0.0 && lb > 0.0 && Dot(a, b) == 0.0
    ensures Dot(Normalized(a, la), Normalized(b, lb)) == 0.0
  {
    var bn := Div(b, lb);
    DotSymmetric(b, a);
    DotDivLeft(b, a, lb);
    ZeroOver(Dot(b, a), lb);
    DotSymmetric(a, bn);
    DotDivLeft(a, bn, la);
    ZeroOver(Dot(a, bn), la);
  }

  lemma ZeroOver(z: real, d: real)
    requires z == 0.0 && d != 0.0
    ensures z / d == 0.0
  {
  }

  /** A normalised vector has unit length: norm(normalized(v))^2 == 1. */
  lemma NormalizedIsUnit(v: Vec, len: real)
    requires len > 0.0 && IsNorm(v, len)
    ensures Dot(Normalized(v, len), Normalized(v, len)) == 1.0
  {
    var u := Div(v, len);
    DotDivLeft(v, u, len);
    DotSymmetric(v, u);
    DotDivLeft(v, v, len);
    assert Dot(u, u) == (Dot(v, v) / len) / len;
    SquareOverTwice(Dot(v, v), len);
  }

  lemma SquareOverTwice(d: real, l: real)
    requires l > 0.0 && d == l * l
    ensures (d / l) / l == 1.0
  {
    assert d / l == l;
  }

  /** The dot product of two 2-vectors written out. */
  lemma Dot2(a: Vec, b: Vec)
    requires |a| == 2 && |b| == 2
    ensures Dot(a, b) == a[0] * b[0] + a[1] * b[1]
  {
    var a1, b1 := a[..1], b[..1];
    assert Dot(a1[..0], b1[..0]) == 0.0;
    assert Dot(a1, b1) == a[0] * b[0];
  }

  /** The dot product of two 3-vectors written out. */
  lemma Dot3(a: Vec, b: Vec)
    requires |a| == 3 && |b| == 3
    ensures Dot(a, b) == a[0] * b[0] + a[1] * b[1] + a[2] * b[2]
  {
    var a2, b2 := a[..2], b[..2];
    var a1, b1 := a2[..1], b2[..1];
    assert Dot(a1[..0], b1[..0]) == 0.0;
    assert Dot(a1, b1) == a[0] * b[0];
    assert Dot(a2, b2) == Dot(a1, b1) + a[1] * b[1];
    assert Dot(a, b) == Dot(a2, b2) + a[2] * b[2];
  }

  /** The dot product of two 4-vectors written out. */
  lemma Dot4(a: Vec, b: Vec)
    requires |a| == 4 && |b| == 4
    ensures Dot(a, b) == a[0] * b[0] + a[1] * b[1] + a[2] * b[2] + a[3] * b[3]
  {
    Dot3(a[..3], b[..3]);
  }

  /** The cross product is orthogonal to both of its arguments. */
  lemma CrossOrthogonal(a: Vec, b: Vec)
    requires |a| == 3 && |b| == 3
    ensures Dot(Cross(a, b), a) == 0.0
    ensures Dot(Cross(a, b), b) == 0.0
  {
    var c := Cross(a, b);
    TripleProductVanishes(a[0], a[1], a[2], b[0], b[1], b[2]);
    assert Dot(c, a) == 0.0 by { Dot3(c, a); }
    assert Dot(c, b) == 0.0 by { Dot3(c, b); }
  }

  /** x × y is orthogonal to x and to y, written out on components. */
  lemma TripleProductVanishes(x0: real, x1: real, x2: real, y0: real, y1: real, y2: real)
    ensures Wedge(x1, x2, y1, y2) * x0 + Wedge(x2, x0, y2, y0) * x1 + Wedge(x0, x1, y0, y1) * x2 == 0.0
    ensures Wedge(x1, x2, y1, y2) * y0 + Wedge(x2, x0, y2, y0) * y1 + Wedge(x0, x1, y0, y1) * y2 == 0.0
  {
  }

  /** cross(a, b) == -cross(b, a). */
  lemma CrossAntiCommutative(a: Vec, b: Vec)
    requires |a| == 3 && |b| == 3
    ensures Cross(a, b) == Scale(Cross(b, a), -1.0)
  {
  }

  /** Scaling distributes over the sum: (a + b) * s == a * s + b * s. */
  lemma ScaleDistributes(a: Vec, b: Vec, s: real)
    requires |a| == |b|
    ensures Scale(Add(a, b), s) == Add(Scale(a, s), Scale(b, s))
  {
    forall i | 0 <= i < |a|
      ensures Scale(Add(a, b), s)[i] == Add(Scale(a, s), Scale(b, s))[i]
    {
      assert (a[i] + b[i]) * s == a[i] * s + b[i] * s;
    }
  }
}
