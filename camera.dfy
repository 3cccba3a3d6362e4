/** The camera: three 4 x 4 matrices (model-view, perspective, viewport)
    and the setters that build each of them. */
module Cameras {
  import opened Vectors
  import opened Matrices

  // ---------------------------------------------------------------------
  // The matrices the setters build
  // ---------------------------------------------------------------------

  /** The matrix of `init_perspective(f)`: the identity with -1/f at (3, 2). */
  function PerspectiveMatrix(f: real): (p: Mat)
    requires f != 0.0
    ensures IsMat(p, 4, 4)
  {
    [[1.0, 0.0, 0.0, 0.0],
     [0.0, 1.0, 0.0, 0.0],
     [0.0, 0.0, 1.0, 0.0],
     [0.0, 0.0, -1.0 / f, 1.0]]
  }

  /** The matrix of `init_viewport(x, y, w, h)`: scale by half the size and
      move to the centre of the rectangle; z and w pass through. */
  function ViewportMatrix(x: int, y: int, w: int, h: int): (v: Mat)
    ensures IsMat(v, 4, 4)
  {
    [[w as real / 2.0, 0.0, 0.0, x as real + w as real / 2.0],
     [0.0, h as real / 2.0, 0.0, y as real + h as real / 2.0],
     [0.0, 0.0, 1.0, 0.0],
     [0.0, 0.0, 0.0, 1.0]]
  }

  /** The translation by -center. */
  function Translation(center: Vec): (t: Mat)
    requires |center| == 3
    ensures IsMat(t, 4, 4)
  {
    [[1.0, 0.0, 0.0, -center[0]],
     [0.0, 1.0, 0.0, -center[1]],
     [0.0, 0.0, 1.0, -center[2]],
     [0.0, 0.0, 0.0, 1.0]]
  }

  /** The rotation whose rows are the basis vectors l, m, n. */
  function Basis(l: Vec, m: Vec, n: Vec): (b: Mat)
    requires |l| == 3 && |m| == 3 && |n| == 3
    ensures IsMat(b, 4, 4)
  {
    [[l[0], l[1], l[2], 0.0],
     [m[0], m[1], m[2], 0.0],
     [n[0], n[1], n[2], 0.0],
     [0.0, 0.0, 0.0, 1.0]]
  }

  /** The norms that `lookat` takes of eye - center, cross(up, n) and
      cross(n, l); square roots are not computed here, so they are supplied
      and must square to the dot product of the vector with itself. */
  ghost predicate LookatNorms(eye: Vec, center: Vec, up: Vec, nLen: real, lLen: real, mLen: real)
    requires |eye| == 3 && |center| == 3 && |up| == 3
  {
    && nLen > 0.0 && IsNorm(Sub(eye, center), nLen)
    && lLen > 0.0 && IsNorm(Cross(up, ViewN(eye, center, nLen)), lLen)
    && mLen > 0.0 && IsNorm(Cross(ViewN(eye, center, nLen), ViewL(eye, center, up, nLen, lLen)), mLen)
  }

  /** n = normalized(eye - center). */
  function ViewN(eye: Vec, center: Vec, nLen: real): (n: Vec)
    requires |eye| == 3 && |center| == 3 && nLen > 0.0
    ensures |n| == 3
  {
    Normalized(Sub(eye, center), nLen)
  }

  /** l = normalized(cross(up, n)). */
  function ViewL(eye: Vec, center: Vec, up: Vec, nLen: real, lLen: real): (l: Vec)
    requires |eye| == 3 && |center| == 3 && |up| == 3 && nLen > 0.0 && lLen > 0.0
    ensures |l| == 3
  {
    Normalized(Cross(up, ViewN(eye, center, nLen)), lLen)
  }

  /** m = normalized(cross(n, l)). */
  function ViewM(eye: Vec, center: Vec, up: Vec, nLen: real, lLen: real, mLen: real): (m: Vec)
    requires |eye| == 3 && |center| == 3 && |up| == 3 && nLen > 0.0 && lLen > 0.0 && mLen > 0.0
    ensures |m| == 3
  {
    Normalized(Cross(ViewN(eye, center, nLen), ViewL(eye, center, up, nLen, lLen)), mLen)
  }

  /** The matrix of `lookat(eye, center, up)`: the basis rotation times the translation by -center. */
  function LookatMatrix(eye: Vec, center: Vec, up: Vec, nLen: real, lLen: real, mLen: real): (mv: Mat)
    requires |eye| == 3 && |center| == 3 && |up| == 3 && nLen > 0.0 && lLen > 0.0 && mLen > 0.0
    ensures IsMat(mv, 4, 4)
  {
    var n := ViewN(eye, center, nLen);
    var l := ViewL(eye, center, up, nLen, lLen);
    var m := ViewM(eye, center, up, nLen, lLen, mLen);
    MatMul(Basis(l, m, n), Translation(center), 4)
  }

  // ---------------------------------------------------------------------
  // The camera object
  // ---------------------------------------------------------------------

  class Camera {
    var modelView: Mat
    var perspective: Mat
    var viewport: Mat

    ghost predicate Valid()
      reads this
    {
      IsMat(modelView, 4, 4) && IsMat(perspective, 4, 4) && IsMat(viewport, 4, 4)
    }

    /** `Camera() = default`: every matrix is all zeros. */
    constructor ()
      ensures Valid()
      ensures modelView == Zero(4, 4) && perspective == Zero(4, 4) && viewport == Zero(4, 4)
    {
      modelView := Zero(4, 4);
      perspective := Zero(4, 4);
      viewport := Zero(4, 4);
    }

    /** `Camera(eye, center, up, focal)`: look-at and perspective are set, the viewport stays zero. */
    constructor Looking(eye: Vec, center: Vec, up: Vec, focal: real, nLen: real, lLen: real, mLen: real)
      requires |eye| == 3 && |center| == 3 && |up| == 3
      requires LookatNorms(eye, center, up, nLen, lLen, mLen)
      requires focal != 0.0
      ensures Valid()
      ensures modelView == LookatMatrix(eye, center, up, nLen, lLen, mLen)
      ensures perspective == PerspectiveMatrix(focal)
      ensures viewport == Zero(4, 4)
    {
      modelView := Zero(4, 4);
      perspective := Zero(4, 4);
      viewport := Zero(4, 4);
      new;
      Lookat(eye, center, up, nLen, lLen, mLen);
      InitPerspective(focal);
    }

    /** `model_view()`: the stored model-view matrix. */
    function ModelView(): (r: Mat)
      reads this
      requires Valid()
      ensures IsMat(r, 4, 4) && r == modelView
    {
      modelView
    }

    /** `perspective()`: the stored perspective matrix. */
    function Perspective(): (r: Mat)
      reads this
      requires Valid()
      ensures IsMat(r, 4, 4) && r == perspective
    {
      perspective
    }

    /** `viewport()`: the stored viewport matrix. */
    function Viewport(): (r: Mat)
      reads this
      requires Valid()
      ensures IsMat(r, 4, 4) && r == viewport
    {
      viewport
    }

    /** `lookat`: assigns the model-view matrix and nothing else. */
    method Lookat(eye: Vec, center: Vec, up: Vec, nLen: real, lLen: real, mLen: real)
      requires |eye| == 3 && |center| == 3 && |up| == 3
      requires LookatNorms(eye, center, up, nLen, lLen, mLen)
      requires Valid()
      modifies this`modelView
      ensures Valid()
      ensures modelView == LookatMatrix(eye, center, up, nLen, lLen, mLen)
    {
      var n := Normalized(Sub(eye, center), nLen);
      var l := Normalized(Cross(up, n), lLen);
      var m := Normalized(Cross(n, l), mLen);
      modelView := MatMul(Basis(l, m, n), Translation(center), 4);
    }

    /** `init_perspective`: assigns the perspective matrix and nothing else. */
    method InitPerspective(f: real)
      requires f != 0.0
      requires Valid()
      modifies this`perspective
      ensures Valid()
      ensures perspective == PerspectiveMatrix(f)
    {
      perspective := PerspectiveMatrix(f);
    }

    /** `init_viewport`: assigns the viewport matrix and nothing else. */
    method InitViewport(x: int, y: int, w: int, h: int)
      requires Valid()
      modifies this`viewport
      ensures Valid()
      ensures viewport == ViewportMatrix(x, y, w, h)
    {
      viewport := ViewportMatrix(x, y, w, h);
    }
  }

  // ---------------------------------------------------------------------
  // What the matrices mean
  // ---------------------------------------------------------------------

  /** The perspective matrix keeps x, y, z and replaces w by w - z/f; for a
      point (w = 1) the new w is 1 - z/f. */
  lemma PerspectiveDivisor(f: real, p: Vec)
    requires f != 0.0 && |p| == 4
    ensures MatVec(PerspectiveMatrix(f), p) == [p[0], p[1], p[2], p[3] - p[2] / f]
  {
    var q := PerspectiveMatrix(f);
    var r := MatVec(q, p);
    assert r[0] == p[0] by { Dot4(q[0], p); }
    assert r[1] == p[1] by { Dot4(q[1], p); }
    assert r[2] == p[2] by { Dot4(q[2], p); }
    assert r[3] == p[3] - p[2] / f by { Dot4(q[3], p); DivNegOne(p[2], f); }
  }

  lemma DivNegOne(z: real, f: real)
    requires f != 0.0
    ensures z * (-1.0 / f) == -(z / f)
  {
  }

  /** The viewport matrix sends the normalised device point (u, v, z, 1) to
      (x + w (u + 1) / 2, y + h (v + 1) / 2, z, 1). */
  lemma ViewportMaps(x: int, y: int, w: int, h: int, u: real, v: real, z: real)
    ensures MatVec(ViewportMatrix(x, y, w, h), [u, v, z, 1.0])
         == [x as real + w as real * (u + 1.0) / 2.0, y as real + h as real * (v + 1.0) / 2.0, z, 1.0]
  {
    var q := ViewportMatrix(x, y, w, h);
    var p := [u, v, z, 1.0];
    var r := MatVec(q, p);
    assert r[0] == x as real + w as real * (u + 1.0) / 2.0 by {
      Dot4(q[0], p);
      HalfScale(x as real, w as real, u);
    }
    assert r[1] == y as real + h as real * (v + 1.0) / 2.0 by {
      Dot4(q[1], p);
      HalfScale(y as real, h as real, v);
    }
    assert r[2] == z by { Dot4(q[2], p); }
    assert r[3] == 1.0 by { Dot4(q[3], p); }
  }

  lemma HalfScale(x: real, w: real, u: real)
    ensures w / 2.0 * u + (x + w / 2.0) == x + w * (u + 1.0) / 2.0
  {
  }

  /** The edges of normalised device space land on the edges of the
      viewport rectangle, and its origin on the rectangle's centre. */
  lemma ViewportCorners(x: int, y: int, w: int, h: int, z: real)
    ensures MatVec(ViewportMatrix(x, y, w, h), [-1.0, -1.0, z, 1.0]) == [x as real, y as real, z, 1.0]
    ensures MatVec(ViewportMatrix(x, y, w, h), [1.0, 1.0, z, 1.0]) == [x as real + w as real, y as real + h as real, z, 1.0]
    ensures MatVec(ViewportMatrix(x, y, w, h), [0.0, 0.0, z, 1.0])
         == [x as real + w as real / 2.0, y as real + h as real / 2.0, z, 1.0]
  {
    ViewportPoint(x, y, w, h, -1.0, -1.0, z, x as real, y as real);
    ViewportPoint(x, y, w, h, 1.0, 1.0, z, x as real + w as real, y as real + h as real);
    ViewportPoint(x, y, w, h, 0.0, 0.0, z, x as real + w as real / 2.0, y as real + h as real / 2.0);
  }

  /** ViewportMaps with the image coordinates named. */
  lemma ViewportPoint(x: int, y: int, w: int, h: int, u: real, v: real, z: real, px: real, py: real)
    requires px == x as real + w as real * (u + 1.0) / 2.0
    requires py == y as real + h as real * (v + 1.0) / 2.0
    ensures MatVec(ViewportMatrix(x, y, w, h), [u, v, z, 1.0]) == [px, py, z, 1.0]
  {
    ViewportMaps(x, y, w, h, u, v, z);
    var r := MatVec(ViewportMatrix(x, y, w, h), [u, v, z, 1.0]);
    assert r[0] == px && r[1] == py && r[2] == z && r[3] == 1.0;
  }

  /** Column j of the translation by -center: the unit vector e_j for j < 3, and (-center, 1) for j = 3. */
  lemma TranslationColumn(center: Vec, j: nat)
    requires |center| == 3 && j < 4
    ensures Column(Translation(center), j)
         == if j < 3 then [if j == 0 then 1.0 else 0.0, if j == 1 then 1.0 else 0.0, if j == 2 then 1.0 else 0.0, 0.0]
            else [-center[0], -center[1], -center[2], 1.0]
  {
  }

  /** (b, 0) against the unit vector e_j picks b[j]. */
  lemma RowTimesUnit(b: Vec, j: nat)
    requires |b| == 3 && j < 3
    ensures Dot(b + [0.0], [if j == 0 then 1.0 else 0.0, if j == 1 then 1.0 else 0.0, if j == 2 then 1.0 else 0.0, 0.0]) == b[j]
  {
    var col := [if j == 0 then 1.0 else 0.0, if j == 1 then 1.0 else 0.0, if j == 2 then 1.0 else 0.0, 0.0];
    var row := b + [0.0];
    assert row == [b[0], b[1], b[2], 0.0];
    Dot4(row, col);
  }

  /** (b, 0) against (-center, 1) is minus b . center. */
  lemma RowTimesOffset(b: Vec, center: Vec)
    requires |b| == 3 && |center| == 3
    ensures var col := [-center[0], -center[1], -center[2], 1.0]; Dot(b + [0.0], col) == -Dot(b, center)
  {
    var col := [-center[0], -center[1], -center[2], 1.0];
    var row := b + [0.0];
    assert row == [b[0], b[1], b[2], 0.0];
    Dot4(row, col);
    Dot3(b, center);
    NegatedDot3(b[0], b[1], b[2], center[0], center[1], center[2]);
  }

  lemma NegatedDot3(b0: real, b1: real, b2: real, c0: real, c1: real, c2: real)
    ensures b0 * -c0 + b1 * -c1 + b2 * -c2 + 0.0 * 1.0 == -(b0 * c0 + b1 * c1 + b2 * c2)
  {
  }

  /** A basis row (b, 0) times column j of the translation. */
  lemma BasisTimesTranslation(b: Vec, center: Vec, j: nat)
    requires |b| == 3 && |center| == 3 && j < 4
    ensures Dot(b + [0.0], Column(Translation(center), j)) == if j < 3 then b[j] else -Dot(b, center)
  {
    TranslationColumn(center, j);
    if j == 3 {
      RowTimesOffset(b, center);
    } else {
      RowTimesUnit(b, j);
    }
  }

  /** The look-at matrix written out: its upper-left 3 x 3 rows are l, m
      and n, its last column is minus their dot products with center, and its
      bottom row is (0, 0, 0, 1). */
  lemma LookatRows(l: Vec, m: Vec, n: Vec, center: Vec)
    requires |l| == 3 && |m| == 3 && |n| == 3 && |center| == 3
    ensures var p := MatMul(Basis(l, m, n), Translation(center), 4);
      && p[0] == [l[0], l[1], l[2], -Dot(l, center)]
      && p[1] == [m[0], m[1], m[2], -Dot(m, center)]
      && p[2] == [n[0], n[1], n[2], -Dot(n, center)]
      && p[3] == [0.0, 0.0, 0.0, 1.0]
  {
    var b := Basis(l, m, n);
    var p := MatMul(b, Translation(center), 4);
    assert b[0] == l + [0.0] && b[1] == m + [0.0] && b[2] == n + [0.0];
    ProductRow(p, b, center, 0, l);
    ProductRow(p, b, center, 1, m);
    ProductRow(p, b, center, 2, n);
    BottomRow(p, b, center);
  }

  /** A basis row (r, 0) of the product. */
  lemma ProductRow(p: Mat, b: Mat, center: Vec, i: nat, r: Vec)
    requires IsMat(b, 4, 4) && |center| == 3 && i < 4 && |r| == 3 && b[i] == r + [0.0]
    requires p == MatMul(b, Translation(center), 4)
    ensures p[i] == [r[0], r[1], r[2], -Dot(r, center)]
  {
    forall j | 0 <= j < 4
      ensures p[i][j] == [r[0], r[1], r[2], -Dot(r, center)][j]
    {
      BasisTimesTranslation(r, center, j);
    }
  }

  /** The bottom row (0, 0, 0, 1) of the product. */
  lemma BottomRow(p: Mat, b: Mat, center: Vec)
    requires IsMat(b, 4, 4) && |center| == 3 && b[3] == [0.0, 0.0, 0.0, 1.0]
    requires p == MatMul(b, Translation(center), 4)
    ensures p[3] == [0.0, 0.0, 0.0, 1.0]
  {
    forall j | 0 <= j < 4
      ensures p[3][j] == [0.0, 0.0, 0.0, 1.0][j]
    {
      var col := Column(Translation(center), j);
      TranslationColumn(center, j);
      Dot4(b[3], col);
    }
  }

  /** Whatever the basis, the model-view matrix sends the point `center` to the origin. */
  lemma LookatCenterToOrigin(eye: Vec, center: Vec, up: Vec, nLen: real, lLen: real, mLen: real)
    requires |eye| == 3 && |center| == 3 && |up| == 3 && nLen > 0.0 && lLen > 0.0 && mLen > 0.0
    ensures MatVec(LookatMatrix(eye, center, up, nLen, lLen, mLen), center + [1.0]) == [0.0, 0.0, 0.0, 1.0]
  {
    var n := ViewN(eye, center, nLen);
    var l := ViewL(eye, center, up, nLen, lLen);
    var m := ViewM(eye, center, up, nLen, lLen, mLen);
    var mv := LookatMatrix(eye, center, up, nLen, lLen, mLen);
    var p := center + [1.0];
    LookatRows(l, m, n, center);
    var r := MatVec(mv, p);
    assert r[0] == 0.0 by { RowSendsCenterToZero(l, center); }
    assert r[1] == 0.0 by { RowSendsCenterToZero(m, center); }
    assert r[2] == 0.0 by { RowSendsCenterToZero(n, center); }
    assert r[3] == 1.0 by { Dot4(mv[3], p); }
  }

  /** The row (b, -b . center) of the look-at matrix vanishes on (center, 1). */
  lemma RowSendsCenterToZero(b: Vec, center: Vec)
    requires |b| == 3 && |center| == 3
    ensures Dot([b[0], b[1], b[2], -Dot(b, center)], center + [1.0]) == 0.0
  {
    Dot4([b[0], b[1], b[2], -Dot(b, center)], center + [1.0]);
    Dot3(b, center);
  }

  /** The camera basis is orthogonal: cross(up, n) and cross(n, l) are
      orthogonal to n and to each other, and rescaling by a positive norm
      keeps that. With exact norms, n, l and m are unit vectors. */
  lemma LookatBasisOrthonormal(eye: Vec, center: Vec, up: Vec, nLen: real, lLen: real, mLen: real)
    requires |eye| == 3 && |center| == 3 && |up| == 3
    requires LookatNorms(eye, center, up, nLen, lLen, mLen)
    ensures var n, l, m := ViewN(eye, center, nLen), ViewL(eye, center, up, nLen, lLen), ViewM(eye, center, up, nLen, lLen, mLen);
      Dot(l, n) == 0.0 && Dot(m, n) == 0.0 && Dot(m, l) == 0.0
      && Dot(n, n) == 1.0 && Dot(l, l) == 1.0 && Dot(m, m) == 1.0
  {
    var d := Sub(eye, center);
    var n := ViewN(eye, center, nLen);
    var cl := Cross(up, n);
    var l := ViewL(eye, center, up, nLen, lLen);
    var cm := Cross(n, l);
    var m := ViewM(eye, center, up, nLen, lLen, mLen);
    CrossOrthogonal(up, n);
    assert Dot(cl, n) == 0.0;
    assert Dot(l, n) == 0.0 by {
      assert Normalized(n, 1.0) == n;
      NormalizedKeepsOrthogonal(cl, n, lLen, 1.0);
    }
    CrossOrthogonal(n, l);
    assert Dot(m, n) == 0.0 by {
      assert Normalized(n, 1.0) == n;
      NormalizedKeepsOrthogonal(cm, n, mLen, 1.0);
    }
    assert Dot(m, l) == 0.0 by {
      assert Normalized(l, 1.0) == l;
      NormalizedKeepsOrthogonal(cm, l, mLen, 1.0);
    }
    NormalizedIsUnit(d, nLen);
    NormalizedIsUnit(cl, lLen);
    NormalizedIsUnit(cm, mLen);
  }
}
