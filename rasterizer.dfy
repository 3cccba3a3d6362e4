/** The software rasterizer: the global depth and frame buffers, the "over"
    colour blend, and the rasterization of one clip-space triangle into the
    buffers through a fragment shader. */
module Rasterizer {
  import opened Vectors
  import opened Matrices
  import opened SmallMatrices

  // ---------------------------------------------------------------------
  // Colours
  // ---------------------------------------------------------------------

  type Byte = x: int | 0 <= x < 256

  /** A TGA colour: four bytes in the order blue, green, red, alpha. */
  type Color = c: seq<Byte> | |c| == 4 witness [0, 0, 0, 0]

  function Blue(c: Color): Byte { c[0] }
  function Green(c: Color): Byte { c[1] }
  function Red(c: Color): Byte { c[2] }
  function Alpha(c: Color): Byte { c[3] }


  /** One channel of the blend: `c1 * a + c2 * (1 - a)` cast to an unsigned
      byte, i.e. rounded down (the value is never negative). */
  function Mix(c1: Byte, c2: Byte, a: real): (r: Byte)
    requires 0.0 <= a <= 1.0
    ensures Min(c1, c2) <= r <= Max(c1, c2)
    ensures a == 1.0 ==> r == c1
    ensures a == 0.0 ==> r == c2
  {
    var v := c1 as real * a + c2 as real * (1.0 - a);
    ConvexBetween(c1 as real, c2 as real, a);
    FloorBetween(v, Min(c1, c2), Max(c1, c2));
    v.Floor
  }

  /** A convex combination lies between its two ends. */
  lemma ConvexBetween(x: real, y: real, a: real)
    requires 0.0 <= a <= 1.0
    ensures var v := x * a + y * (1.0 - a);
      (if x <= y then x else y) <= v <= (if x <= y then y else x)
    ensures a == 1.0 ==> x * a + y * (1.0 - a) == x
    ensures a == 0.0 ==> x * a + y * (1.0 - a) == y
  {
    var v := x * a + y * (1.0 - a);
    assert v - x == (y - x) * (1.0 - a);
    assert v - y == (x - y) * a;
    if x <= y {
      ProductNonNegative(y - x, 1.0 - a);
      ProductNonNegative(y - x, a);
    } else {
      ProductNonNegative(x - y, 1.0 - a);
      ProductNonNegative(x - y, a);
    }
  }

  lemma ProductNonNegative(p: real, q: real)
    requires p >= 0.0 && q >= 0.0
    ensures p * q >= 0.0
  {
  }

  /** Rounding down keeps a value between two integer bounds. */
  lemma FloorBetween(v: real, lo: int, hi: int)
    requires lo as real <= v <= hi as real
    ensures lo <= v.Floor <= hi
  {
  }

  /** `blend(c1, c2)`: c1 over c2 with c1's alpha; red goes to index 2,
      green to 1, blue to 0, and the result is opaque. */
  function Blend(c1: Color, c2: Color): (r: Color)
    ensures Alpha(r) == 255
    ensures Red(r) == Mix(Red(c1), Red(c2), Alpha(c1) as real / 255.0)
    ensures Green(r) == Mix(Green(c1), Green(c2), Alpha(c1) as real / 255.0)
    ensures Blue(r) == Mix(Blue(c1), Blue(c2), Alpha(c1) as real / 255.0)
  {
    var a := Alpha(c1) as real / 255.0;
    [Mix(Blue(c1), Blue(c2), a), Mix(Green(c1), Green(c2), a), Mix(Red(c1), Red(c2), a), 255]
  }

  /** Every colour channel of the blend lies between the two inputs; an
      opaque c1 comes through unchanged, a fully transparent one leaves c2. */
  lemma BlendChannels(c1: Color, c2: Color)
    ensures forall i :: 0 <= i < 3 ==> Min(c1[i], c2[i]) <= Blend(c1, c2)[i] <= Max(c1[i], c2[i])
    ensures Alpha(c1) == 255 ==> Blend(c1, c2)[..3] == c1[..3]
    ensures Alpha(c1) == 0 ==> Blend(c1, c2)[..3] == c2[..3]
  {
    var r := Blend(c1, c2);
    assert r[0] == Blue(r) && r[1] == Green(r) && r[2] == Red(r);
  }

  // ---------------------------------------------------------------------
  // Triangle setup
  // ---------------------------------------------------------------------

  /** Three clip-space vertices, each in front of the camera (w > 0). */
  predicate ClipTriangle(clip: seq<Vec>)
  {
    |clip| == 3 && forall i :: 0 <= i < 3 ==> |clip[i]| == 4 && clip[i][3] > 0.0
  }

  /** `ndc[i] = clip[i] / clip[i].w`. */
  function Ndc(clip: seq<Vec>): (ndc: seq<Vec>)
    requires ClipTriangle(clip)
    ensures |ndc| == 3 && forall i :: 0 <= i < 3 ==> |ndc[i]| == 4
    ensures forall i :: 0 <= i < 3 ==> ndc[i] == Div(clip[i], clip[i][3]) && ndc[i][3] == 1.0
  {
    var ndc := seq(3, i requires 0 <= i < 3 => Div(clip[i], clip[i][3]));
    DivSelf(clip[0][3]);
    DivSelf(clip[1][3]);
    DivSelf(clip[2][3]);
    assert forall i :: 0 <= i < 3 ==> ndc[i][3] == clip[i][3] / clip[i][3];
    ndc
  }

  lemma DivSelf(w: real)
    requires w != 0.0
    ensures w / w == 1.0
  {
  }

  /** `screen[i] = (viewport * ndc[i]).xy()`. */
  function Screen(ndc: seq<Vec>, viewport: Mat): (screen: seq<Vec>)
    requires |ndc| == 3 && forall i :: 0 <= i < 3 ==> |ndc[i]| == 4
    requires IsMat(viewport, 4, 4)
    ensures |screen| == 3 && forall i :: 0 <= i < 3 ==> |screen[i]| == 2
  {
    seq(3, i requires 0 <= i < 3 => MatVec(viewport, ndc[i])[..2])
  }

  /** The matrix ABC whose rows are (screen.x, screen.y, 1). */
  function Abc(screen: seq<Vec>): (abc: Mat)
    requires |screen| == 3 && forall i :: 0 <= i < 3 ==> |screen[i]| == 2
    ensures IsSquare(abc) && |abc| == 3
    ensures forall i :: 0 <= i < 3 ==> abc[i] == [screen[i][0], screen[i][1], 1.0]
  {
    seq(3, i requires 0 <= i < 3 => [screen[i][0], screen[i][1], 1.0])
  }

  /** What `rasterize` derives from its triangle before the pixel loops. */
  datatype Setup = Setup(w: Vec, ndcZ: Vec, screen: seq<Vec>, abc: Mat)

  predicate ValidSetup(s: Setup)
  {
    && |s.w| == 3 && |s.ndcZ| == 3
    && (forall i :: 0 <= i < 3 ==> s.w[i] > 0.0)
    && |s.screen| == 3 && (forall i :: 0 <= i < 3 ==> |s.screen[i]| == 2)
    && IsSquare(s.abc) && |s.abc| == 3
    && (forall i :: 0 <= i < 3 ==> s.abc[i] == [s.screen[i][0], s.screen[i][1], 1.0])
  }

  function TriangleSetup(clip: seq<Vec>, viewport: Mat): (s: Setup)
    requires ClipTriangle(clip) && IsMat(viewport, 4, 4)
    ensures ValidSetup(s)
  {
    var ndc := Ndc(clip);
    var screen := Screen(ndc, viewport);
    Setup([clip[0][3], clip[1][3], clip[2][3]], [ndc[0][2], ndc[1][2], ndc[2][2]], screen, Abc(screen))
  }

  /** A triangle whose screen-space determinant is below 1 (back-facing or
      smaller than a pixel) is culled. */
  predicate Culled(s: Setup)
    requires ValidSetup(s)
    ensures Culled(s) <==> Det3(s.abc) < 1.0
  {
    DetIs3(s.abc);
    Det(s.abc) < 1.0
  }

  /** A double converted to int: truncated toward zero. */
  function Trunc(r: real): (t: int)
    ensures r >= 0.0 ==> t == r.Floor
    ensures r < 0.0 ==> t == -((-r).Floor)
    ensures t as real <= r < t as real + 1.0 || t as real - 1.0 < r <= t as real
  {
    if r >= 0.0 then r.Floor else -((-r).Floor)
  }

  function Min3(a: real, b: real, c: real): (r: real)
    ensures r <= a && r <= b && r <= c && (r == a || r == b || r == c)
  {
    if a <= b && a <= c then a else if b <= c then b else c
  }

  function Max3(a: real, b: real, c: real): (r: real)
    ensures r >= a && r >= b && r >= c && (r == a || r == b || r == c)
  {
    if a >= b && a >= c then a else if b >= c then b else c
  }

  /** The pixel range of one screen axis (0 for x, 1 for y): from the
      truncated minimum, raised to 0, to the truncated maximum, lowered to
      size - 1. */
  function BoxLo(s: Setup, axis: nat): (lo: int)
    requires ValidSetup(s) && axis < 2
    ensures lo >= 0
    ensures var t0, t1, t2 := Trunc(s.screen[0][axis]), Trunc(s.screen[1][axis]), Trunc(s.screen[2][axis]);
      && lo <= Max(t0, 0) && lo <= Max(t1, 0) && lo <= Max(t2, 0)
      && (lo == Max(t0, 0) || lo == Max(t1, 0) || lo == Max(t2, 0))
  {
    var least := Min3(s.screen[0][axis], s.screen[1][axis], s.screen[2][axis]);
    TruncMonotone(least, s.screen[0][axis]);
    TruncMonotone(least, s.screen[1][axis]);
    TruncMonotone(least, s.screen[2][axis]);
    Max(Trunc(least), 0)
  }

  function BoxHi(s: Setup, axis: nat, size: int): (hi: int)
    requires ValidSetup(s) && axis < 2
    ensures hi <= size - 1
    ensures var t0, t1, t2 := Trunc(s.screen[0][axis]), Trunc(s.screen[1][axis]), Trunc(s.screen[2][axis]);
      && hi >= Min(t0, size - 1) && hi >= Min(t1, size - 1) && hi >= Min(t2, size - 1)
      && (hi == Min(t0, size - 1) || hi == Min(t1, size - 1) || hi == Min(t2, size - 1))
  {
    var greatest := Max3(s.screen[0][axis], s.screen[1][axis], s.screen[2][axis]);
    TruncMonotone(s.screen[0][axis], greatest);
    TruncMonotone(s.screen[1][axis], greatest);
    TruncMonotone(s.screen[2][axis], greatest);
    Min(Trunc(greatest), size - 1)
  }

  /** Truncation toward zero never reverses an order. */
  lemma TruncMonotone(a: real, b: real)
    requires a <= b
    ensures Trunc(a) <= Trunc(b)
  {
  }

  /** The pixels the loops visit: the clamped bounding box. */
  predicate InBox(s: Setup, width: int, height: int, x: int, y: int)
    requires ValidSetup(s)
  {
    BoxLo(s, 0) <= x <= BoxHi(s, 0, width) && BoxLo(s, 1) <= y <= BoxHi(s, 1, height)
  }

  // ---------------------------------------------------------------------
  // Barycentric weights
  // ---------------------------------------------------------------------

  /** `ABC.invert_transpose() * (x, y, 1)`: the screen-space barycentric weights. */
  function ScreenWeights(s: Setup, x: int, y: int): (bc: Vec)
    requires ValidSetup(s) && Det3(s.abc) != 0.0
    ensures |bc| == 3
  {
    MatVec(InvertTranspose3(s.abc), [x as real, y as real, 1.0])
  }

  /** Entry i of ABC.invert_transpose() * p: cofactor row i dotted with p, over the determinant. */
  lemma WeightEntry(m: Mat, p: Vec, i: nat)
    requires IsSquare(m) && |m| == 3 && Det3(m) != 0.0 && |p| == 3 && i < 3
    ensures MatVec(InvertTranspose3(m), p)[i]
         == Cofactor3(m, i, 0) / Det3(m) * p[0] + Cofactor3(m, i, 1) / Det3(m) * p[1] + Cofactor3(m, i, 2) / Det3(m) * p[2]
  {
    var it := InvertTranspose3(m);
    Dot3(it[i], p);
  }

  /** The cofactors of [[a, b, 1], [d, e, 1], [g, h, 1]]. */
  lemma AbcCofactors(m: Mat)
    requires IsSquare(m) && |m| == 3 && m[0][2] == 1.0 && m[1][2] == 1.0 && m[2][2] == 1.0
    ensures var a, b, d, e, g, h := m[0][0], m[0][1], m[1][0], m[1][1], m[2][0], m[2][1];
      && Det3(m) == a * (e - h) - b * (d - g) + (d * h - e * g)
      && Cofactor3(m, 0, 0) == e - h && Cofactor3(m, 0, 1) == g - d && Cofactor3(m, 0, 2) == d * h - e * g
      && Cofactor3(m, 1, 0) == h - b && Cofactor3(m, 1, 1) == a - g && Cofactor3(m, 1, 2) == b * g - a * h
      && Cofactor3(m, 2, 0) == b - e && Cofactor3(m, 2, 1) == d - a && Cofactor3(m, 2, 2) == a * e - b * d
  {
  }

  /** Weight i times the determinant is cofactor row i dotted with (x, y, 1). */
  lemma WeightTimesDet(c0: real, c1: real, c2: real, det: real, x: real, y: real, w: real)
    requires det != 0.0 && w == c0 / det * x + c1 / det * y + c2 / det * 1.0
    ensures w * det == c0 * x + c1 * y + c2
  {
  }

  /** Row i of the weights, cleared of the division by the determinant. */
  lemma WeightRow(m: Mat, x: real, y: real, i: nat)
    requires IsSquare(m) && |m| == 3 && Det3(m) != 0.0 && i < 3
    ensures MatVec(InvertTranspose3(m), [x, y, 1.0])[i] * Det3(m)
         == Cofactor3(m, i, 0) * x + Cofactor3(m, i, 1) * y + Cofactor3(m, i, 2)
  {
    var p := [x, y, 1.0];
    WeightEntry(m, p, i);
    WeightTimesDet(Cofactor3(m, i, 0), Cofactor3(m, i, 1), Cofactor3(m, i, 2), Det3(m), x, y,
      MatVec(InvertTranspose3(m), p)[i]);
  }

  /** Weights whose rows are the cofactor rows of an ABC matrix are barycentric. */
  lemma AbcWeights(m: Mat, x: real, y: real, w0: real, w1: real, w2: real)
    requires IsSquare(m) && |m| == 3 && m[0][2] == 1.0 && m[1][2] == 1.0 && m[2][2] == 1.0
    requires Det3(m) != 0.0
    requires w0 * Det3(m) == Cofactor3(m, 0, 0) * x + Cofactor3(m, 0, 1) * y + Cofactor3(m, 0, 2)
    requires w1 * Det3(m) == Cofactor3(m, 1, 0) * x + Cofactor3(m, 1, 1) * y + Cofactor3(m, 1, 2)
    requires w2 * Det3(m) == Cofactor3(m, 2, 0) * x + Cofactor3(m, 2, 1) * y + Cofactor3(m, 2, 2)
    ensures w0 + w1 + w2 == 1.0
    ensures w0 * m[0][0] + w1 * m[1][0] + w2 * m[2][0] == x
    ensures w0 * m[0][1] + w1 * m[1][1] + w2 * m[2][1] == y
  {
    AbcCofactors(m);
    BarycentricArithmetic(m[0][0], m[0][1], m[1][0], m[1][1], m[2][0], m[2][1], Det3(m), x, y, w0, w1, w2);
  }

  /** The screen weights sum to 1 and reproduce the pixel from the three
      screen vertices. */
  lemma ScreenWeightsBarycentric(s: Setup, x: int, y: int)
    requires ValidSetup(s) && Det3(s.abc) != 0.0
    ensures var bc := ScreenWeights(s, x, y);
      && bc[0] + bc[1] + bc[2] == 1.0
      && bc[0] * s.screen[0][0] + bc[1] * s.screen[1][0] + bc[2] * s.screen[2][0] == x as real
      && bc[0] * s.screen[0][1] + bc[1] * s.screen[1][1] + bc[2] * s.screen[2][1] == y as real
  {
    var m := s.abc;
    var bc := ScreenWeights(s, x, y);
    WeightRow(m, x as real, y as real, 0);
    WeightRow(m, x as real, y as real, 1);
    WeightRow(m, x as real, y as real, 2);
    assert m[0] == [s.screen[0][0], s.screen[0][1], 1.0];
    assert m[1] == [s.screen[1][0], s.screen[1][1], 1.0];
    assert m[2] == [s.screen[2][0], s.screen[2][1], 1.0];
    AbcWeights(m, x as real, y as real, bc[0], bc[1], bc[2]);
  }

  /** The weights of point (x, y) in the triangle (a, b), (d, e), (g, h),
      given as cofactor rows of [[a, b, 1], [d, e, 1], [g, h, 1]] dotted with
      (x, y, 1) over the determinant. */
  lemma BarycentricArithmetic(a: real, b: real, d: real, e: real, g: real, h: real, det: real,
                              x: real, y: real, w0: real, w1: real, w2: real)
    requires det != 0.0 && det == a * (e - h) - b * (d - g) + (d * h - e * g)
    requires w0 * det == (e - h) * x + (g - d) * y + (d * h - e * g)
    requires w1 * det == (h - b) * x + (a - g) * y + (b * g - a * h)
    requires w2 * det == (b - e) * x + (d - a) * y + (a * e - b * d)
    ensures w0 + w1 + w2 == 1.0
    ensures w0 * a + w1 * d + w2 * g == x
    ensures w0 * b + w1 * e + w2 * h == y
  {
    SumTimesDet(a, b, d, e, g, h, det, x, y, w0, w1, w2);
    XTimesDet(a, b, d, e, g, h, det, x, y, w0, w1, w2);
    YTimesDet(a, b, d, e, g, h, det, x, y, w0, w1, w2);
    Cancel(w0 + w1 + w2, 1.0, det);
    Cancel(w0 * a + w1 * d + w2 * g, x, det);
    Cancel(w0 * b + w1 * e + w2 * h, y, det);
  }

  lemma SumTimesDet(a: real, b: real, d: real, e: real, g: real, h: real, det: real,
                    x: real, y: real, w0: real, w1: real, w2: real)
    requires w0 * det == (e - h) * x + (g - d) * y + (d * h - e * g)
    requires w1 * det == (h - b) * x + (a - g) * y + (b * g - a * h)
    requires w2 * det == (b - e) * x + (d - a) * y + (a * e - b * d)
    ensures (w0 + w1 + w2) * det == a * (e - h) - b * (d - g) + (d * h - e * g)
  {
    assert (w0 + w1 + w2) * det == w0 * det + w1 * det + w2 * det;
  }

  lemma XTimesDet(a: real, b: real, d: real, e: real, g: real, h: real, det: real,
                    x: real, y: real, w0: real, w1: real, w2: real)
    requires w0 * det == (e - h) * x + (g - d) * y + (d * h - e * g)
    requires w1 * det == (h - b) * x + (a - g) * y + (b * g - a * h)
    requires w2 * det == (b - e) * x + (d - a) * y + (a * e - b * d)
    ensures (w0 * a + w1 * d + w2 * g) * det == x * (a * (e - h) - b * (d - g) + (d * h - e * g))
  {
    assert (w0 * a + w1 * d + w2 * g) * det == a * (w0 * det) + d * (w1 * det) + g * (w2 * det);
    assert a * (w0 * det) == a * ((e - h) * x + (g - d) * y + (d * h - e * g));
    assert d * (w1 * det) == d * ((h - b) * x + (a - g) * y + (b * g - a * h));
    assert g * (w2 * det) == g * ((b - e) * x + (d - a) * y + (a * e - b * d));
  }

  lemma YTimesDet(a: real, b: real, d: real, e: real, g: real, h: real, det: real,
                    x: real, y: real, w0: real, w1: real, w2: real)
    requires w0 * det == (e - h) * x + (g - d) * y + (d * h - e * g)
    requires w1 * det == (h - b) * x + (a - g) * y + (b * g - a * h)
    requires w2 * det == (b - e) * x + (d - a) * y + (a * e - b * d)
    ensures (w0 * b + w1 * e + w2 * h) * det == y * (a * (e - h) - b * (d - g) + (d * h - e * g))
  {
    assert (w0 * b + w1 * e + w2 * h) * det == b * (w0 * det) + e * (w1 * det) + h * (w2 * det);
    assert b * (w0 * det) == b * ((e - h) * x + (g - d) * y + (d * h - e * g));
    assert e * (w1 * det) == e * ((h - b) * x + (a - g) * y + (b * g - a * h));
    assert h * (w2 * det) == h * ((b - e) * x + (d - a) * y + (a * e - b * d));
  }

  lemma Cancel(v: real, t: real, det: real)
    requires det != 0.0 && v * det == t * det
    ensures v == t
  {
  }

  /** The perspective-correct weights: each screen weight divided by its
      vertex's clip w, then renormalised to sum to 1. */
  function ClipWeights(bc: Vec, w: Vec): (r: Vec)
    requires |bc| == 3 && |w| == 3
    requires forall i :: 0 <= i < 3 ==> bc[i] >= 0.0 && w[i] > 0.0
    requires bc[0] + bc[1] + bc[2] == 1.0
    ensures |r| == 3
    ensures forall i :: 0 <= i < 3 ==> r[i] >= 0.0
    ensures r[0] + r[1] + r[2] == 1.0
    ensures forall i :: 0 <= i < 3 ==> r[i] * (bc[0] / w[0] + bc[1] / w[1] + bc[2] / w[2]) == bc[i] / w[i]
  {
    var q := [bc[0] / w[0], bc[1] / w[1], bc[2] / w[2]];
    PositiveQuotientSum(bc[0], bc[1], bc[2], w[0], w[1], w[2]);
    var sum := q[0] + q[1] + q[2];
    NormalisedSum(q[0], q[1], q[2], sum);
    Div(q, sum)
  }

  /** With non-negative numerators summing to 1 and positive denominators,
      the quotients are non-negative and their sum is positive. */
  lemma PositiveQuotientSum(b0: real, b1: real, b2: real, w0: real, w1: real, w2: real)
    requires b0 >= 0.0 && b1 >= 0.0 && b2 >= 0.0 && b0 + b1 + b2 == 1.0
    requires w0 > 0.0 && w1 > 0.0 && w2 > 0.0
    ensures b0 / w0 >= 0.0 && b1 / w1 >= 0.0 && b2 / w2 >= 0.0
    ensures b0 / w0 + b1 / w1 + b2 / w2 > 0.0
  {
    if b0 > 0.0 {
      assert b0 / w0 > 0.0;
    } else if b1 > 0.0 {
      assert b1 / w1 > 0.0;
    } else {
      assert b2 / w2 > 0.0;
    }
  }

  /** Dividing non-negative parts by their positive sum gives non-negative parts that sum to 1. */
  lemma NormalisedSum(q0: real, q1: real, q2: real, sum: real)
    requires q0 >= 0.0 && q1 >= 0.0 && q2 >= 0.0 && sum == q0 + q1 + q2 && sum > 0.0
    ensures q0 / sum >= 0.0 && q1 / sum >= 0.0 && q2 / sum >= 0.0
    ensures q0 / sum + q1 / sum + q2 / sum == 1.0
    ensures (q0 / sum) * sum == q0 && (q1 / sum) * sum == q1 && (q2 / sum) * sum == q2
  {
  }

  // ---------------------------------------------------------------------
  // One pixel
  // ---------------------------------------------------------------------

  /** What a fragment shader returns: whether to discard, and the colour. */
  datatype Fragment = Fragment(discard: bool, color: Color)

  /** The contents of one pixel: its depth-buffer entry and its colour. */
  datatype Pixel = Pixel(depth: real, color: Color)

  /** A pixel inside the bounding box of a triangle that was not culled:
      skipped if a screen weight is negative, kept if its depth is not
      strictly nearer, kept if the shader discards, and otherwise given the
      new depth and the shader's colour, blended over the old one when
      translucent. */
  function ShadePixel(s: Setup, shader: Vec -> Fragment, x: int, y: int, p: Pixel): (r: Pixel)
    requires ValidSetup(s) && Det3(s.abc) != 0.0
    ensures r == p || (r.depth > p.depth && r.depth == Dot(ScreenWeights(s, x, y), s.ndcZ))
  {
    var bc := ScreenWeights(s, x, y);
    if bc[0] < 0.0 || bc[1] < 0.0 || bc[2] < 0.0 then p
    else
      var z := Dot(bc, s.ndcZ);
      if z <= p.depth then p
      else
        ScreenWeightsBarycentric(s, x, y);
        var frag := shader(ClipWeights(bc, s.w));
        if frag.discard then p
        else Pixel(z, if Alpha(frag.color) < 255 then Blend(frag.color, p.color) else frag.color)
  }

  /** The effect of `rasterize` on the pixel (x, y) of a width x height target. */
  function RasterizedPixel(s: Setup, shader: Vec -> Fragment, width: int, height: int, x: int, y: int, p: Pixel): Pixel
    requires ValidSetup(s)
  {
    if Culled(s) || !InBox(s, width, height, x, y) then p
    else
      DetIs3(s.abc);
      ShadePixel(s, shader, x, y, p)
  }

  /** Pixel (x, y) is covered by the triangle: it is not culled, lies in the
      clamped bounding box and has no negative screen weight. */
  predicate Covered(s: Setup, width: int, height: int, x: int, y: int)
    requires ValidSetup(s)
  {
    if Culled(s) || !InBox(s, width, height, x, y) then false
    else
      DetIs3(s.abc);
      var bc := ScreenWeights(s, x, y);
      bc[0] >= 0.0 && bc[1] >= 0.0 && bc[2] >= 0.0
  }

  /** The depth the triangle interpolates at pixel (x, y): the screen
      weights dotted with the three NDC depths. */
  function TriangleDepth(s: Setup, x: int, y: int): real
    requires ValidSetup(s) && !Culled(s)
  {
    DetIs3(s.abc);
    Dot(ScreenWeights(s, x, y), s.ndcZ)
  }

  // ---------------------------------------------------------------------
  // What rasterization promises, pixel by pixel
  // ---------------------------------------------------------------------

  /** A culled triangle changes no pixel, and neither does any triangle
      outside its clamped bounding box. */
  lemma CulledOrOutsideUnchanged(s: Setup, shader: Vec -> Fragment, width: int, height: int, x: int, y: int, p: Pixel)
    requires ValidSetup(s)
    requires Culled(s) || !InBox(s, width, height, x, y)
    ensures RasterizedPixel(s, shader, width, height, x, y, p) == p
  {
  }

  /** A pixel with a negative screen weight is skipped. */
  lemma NegativeWeightUnchanged(s: Setup, shader: Vec -> Fragment, x: int, y: int, p: Pixel)
    requires ValidSetup(s) && Det3(s.abc) != 0.0
    requires exists i :: 0 <= i < 3 && ScreenWeights(s, x, y)[i] < 0.0
    ensures ShadePixel(s, shader, x, y, p) == p
  {
  }

  /** Depth never decreases: the pixel either stays as it was, or takes a
      strictly nearer depth, namely the interpolated z of the triangle. */
  lemma DepthMonotone(s: Setup, shader: Vec -> Fragment, width: int, height: int, x: int, y: int, p: Pixel)
    requires ValidSetup(s)
    ensures var r := RasterizedPixel(s, shader, width, height, x, y, p);
      r.depth >= p.depth
      && (r == p || (!Culled(s) && InBox(s, width, height, x, y) && Det3(s.abc) != 0.0
                     && r.depth == Dot(ScreenWeights(s, x, y), s.ndcZ) && r.depth > p.depth))
  {
    if !Culled(s) {
      DetIs3(s.abc);
    }
  }

  /** A fragment that the shader discards writes nothing. */
  lemma DiscardWritesNothing(s: Setup, shader: Vec -> Fragment, x: int, y: int, p: Pixel)
    requires ValidSetup(s) && Det3(s.abc) != 0.0
    requires forall bar :: shader(bar).discard
    ensures ShadePixel(s, shader, x, y, p) == p
  {
  }

  /** A written pixel holds the shader's colour when it is opaque (alpha
      255), and that colour blended over the old one otherwise; either way
      the colour stored comes from the shader at the perspective-correct
      weights. */
  lemma WrittenColor(s: Setup, shader: Vec -> Fragment, x: int, y: int, p: Pixel)
    requires ValidSetup(s) && Det3(s.abc) != 0.0
    requires ShadePixel(s, shader, x, y, p) != p
    ensures var bc := ScreenWeights(s, x, y);
      && (forall i :: 0 <= i < 3 ==> bc[i] >= 0.0)
      && bc[0] + bc[1] + bc[2] == 1.0
      && var frag := shader(ClipWeights(bc, s.w));
         && !frag.discard
         && ShadePixel(s, shader, x, y, p).color
            == (if Alpha(frag.color) < 255 then Blend(frag.color, p.color) else frag.color)
  {
    ScreenWeightsBarycentric(s, x, y);
  }

  // ---------------------------------------------------------------------
  // The global render targets
  // ---------------------------------------------------------------------

  /** The depth-buffer index of pixel (x, y): x + y * width. */
  function Offset(x: int, y: int, width: int): int
  {
    x + y * width
  }

  /** Inside a width x height target pixel (x, y) has an index in [0, width * height). */
  lemma OffsetInRange(x: int, y: int, width: nat, height: nat)
    requires 0 <= x < width && 0 <= y < height
    ensures 0 <= Offset(x, y, width) < width * height
  {
    RowBelow(y, height - 1, width);
  }

  /** Every pixel of a width x height target has an index in [0, width * height). */
  predicate OffsetsFit(width: int, height: int, length: int)
  {
    forall x, y :: 0 <= x < width && 0 <= y < height ==> 0 <= Offset(x, y, width) < length
  }

  lemma AllOffsetsInRange(width: nat, height: nat)
    ensures OffsetsFit(width, height, width * height)
  {
    forall x, y | 0 <= x < width && 0 <= y < height
      ensures 0 <= Offset(x, y, width) < width * height
    {
      OffsetInRange(x, y, width, height);
    }
  }

  /** Two pixels of a target of the given width with the same index are the same pixel. */
  lemma OffsetInjective(x: int, y: int, x2: int, y2: int, width: nat)
    requires 0 <= x < width && 0 <= y && 0 <= x2 < width && 0 <= y2
    requires Offset(x, y, width) == Offset(x2, y2, width)
    ensures x == x2 && y == y2
  {
    if y < y2 {
      RowBelow(y, y2 - 1, width);
    } else if y2 < y {
      RowBelow(y2, y - 1, width);
    }
  }

  /** Row y ends before row y' + 1 begins when y <= y'. */
  lemma RowBelow(y: int, y2: int, width: nat)
    requires 0 <= y <= y2
    ensures y * width + width <= (y2 + 1) * width
  {
    var k := y2 - y;
    assert (y2 + 1) * width == y * width + width + k * width;
  }

  class GlGlobals {
    var frameBuffer: array2<Color>
    var zBuffer: array<real>

    /** The globals before `init`: an empty image and an empty depth buffer. */
    constructor ()
      ensures frameBuffer.Length0 == 0 && frameBuffer.Length1 == 0 && zBuffer.Length == 0
    {
      frameBuffer := new Color[0, 0];
      zBuffer := new real[0];
    }

    /** `Gl_Globals::init`: a width x height frame buffer filled with the
        clear colour and a width * height depth buffer filled with -1000. */
    method Init(width: nat, height: nat, clear: Color)
      modifies this
      ensures fresh(frameBuffer) && fresh(zBuffer)
      ensures frameBuffer.Length0 == width && frameBuffer.Length1 == height
      ensures zBuffer.Length == width * height
      ensures forall k :: 0 <= k < zBuffer.Length ==> zBuffer[k] == -1000.0
      ensures forall x, y :: 0 <= x < width && 0 <= y < height ==> frameBuffer[x, y] == clear
    {
      frameBuffer := new Color[width, height]((x, y) => clear);
      zBuffer := new real[width * height](_ => -1000.0);
    }

    /** `rasterize(clip, shader, framebuffer, viewport)`: every pixel of the
        target ends up as RasterizedPixel says, computed from its own old
        depth and colour; the depth entries are those of this object's depth
        buffer. The column loop runs sequentially here. */
    method Rasterize(clip: seq<Vec>, shader: Vec -> Fragment, framebuffer: array2<Color>, viewport: Mat)
      requires ClipTriangle(clip) && IsMat(viewport, 4, 4)
      requires zBuffer.Length == framebuffer.Length0 * framebuffer.Length1
      modifies zBuffer, framebuffer
      ensures OffsetsFit(framebuffer.Length0, framebuffer.Length1, zBuffer.Length)
      ensures forall x, y :: 0 <= x < framebuffer.Length0 && 0 <= y < framebuffer.Length1 ==>
        Pixel(zBuffer[Offset(x, y, framebuffer.Length0)], framebuffer[x, y])
          == RasterizedPixel(TriangleSetup(clip, viewport), shader, framebuffer.Length0, framebuffer.Length1, x, y,
                             Pixel(old(zBuffer[Offset(x, y, framebuffer.Length0)]), old(framebuffer[x, y])))
    {
      var width, height := framebuffer.Length0, framebuffer.Length1;
      var s := TriangleSetup(clip, viewport);
      AllOffsetsInRange(width, height);
      if Det(s.abc) < 1.0 {
        return;
      }
      DetIs3(s.abc);
      var x0, x1 := BoxLo(s, 0), BoxHi(s, 0, width);
      var y0, y1 := BoxLo(s, 1), BoxHi(s, 1, height);
      var x := x0;
      while x <= x1
        invariant x == x0 || x0 <= x <= x1 + 1
        invariant OffsetsFit(width, height, zBuffer.Length)
        invariant forall i, j :: 0 <= i < width && 0 <= j < height ==>
          Pixel(zBuffer[Offset(i, j, width)], framebuffer[i, j])
            == Done(s, shader, width, height, x, i, j,
                    Pixel(old(zBuffer[Offset(i, j, width)]), old(framebuffer[i, j])))
      {
        label before:
        ShadeColumn(s, shader, framebuffer, x);
        forall i, j | 0 <= i < width && 0 <= j < height
          ensures Pixel(zBuffer[Offset(i, j, width)], framebuffer[i, j])
            == Done(s, shader, width, height, x + 1, i, j,
                    Pixel(old(zBuffer[Offset(i, j, width)]), old(framebuffer[i, j])))
        {
          OffsetInRange(i, j, width, height);
          assert Pixel(zBuffer[Offset(i, j, width)], framebuffer[i, j])
            == ColumnDone(s, shader, width, height, x, height, i, j,
                          Pixel(old@before(zBuffer[Offset(i, j, width)]), old@before(framebuffer[i, j])));
        }
        x := x + 1;
      }
    }

    /** One pass of the column loop: the row loop over the bounding box at
        column x. Only the pixels of that column inside the box change. */
    method ShadeColumn(s: Setup, shader: Vec -> Fragment, framebuffer: array2<Color>, x: int)
      requires ValidSetup(s) && Det3(s.abc) != 0.0
      requires BoxLo(s, 0) <= x <= BoxHi(s, 0, framebuffer.Length0)
      requires zBuffer.Length == framebuffer.Length0 * framebuffer.Length1
      modifies zBuffer, framebuffer
      ensures forall i, j :: 0 <= i < framebuffer.Length0 && 0 <= j < framebuffer.Length1 ==>
        0 <= Offset(i, j, framebuffer.Length0) < zBuffer.Length
        && Pixel(zBuffer[Offset(i, j, framebuffer.Length0)], framebuffer[i, j])
          == ColumnDone(s, shader, framebuffer.Length0, framebuffer.Length1, x, framebuffer.Length1, i, j,
                        Pixel(old(zBuffer[Offset(i, j, framebuffer.Length0)]), old(framebuffer[i, j])))
    {
      var width, height := framebuffer.Length0, framebuffer.Length1;
      AllOffsetsInRange(width, height);
      var y0, y1 := BoxLo(s, 1), BoxHi(s, 1, height);
      var y := y0;
      while y <= y1
        invariant y == y0 || y0 <= y <= y1 + 1
        invariant forall i, j :: 0 <= i < width && 0 <= j < height ==>
          Pixel(zBuffer[Offset(i, j, width)], framebuffer[i, j])
            == ColumnDone(s, shader, width, height, x, y, i, j,
                          Pixel(old(zBuffer[Offset(i, j, width)]), old(framebuffer[i, j])))
      {
        label before:
        ShadeAt(s, shader, framebuffer, x, y);
        forall i, j | 0 <= i < width && 0 <= j < height
          ensures Pixel(zBuffer[Offset(i, j, width)], framebuffer[i, j])
            == ColumnDone(s, shader, width, height, x, y + 1, i, j,
                          Pixel(old(zBuffer[Offset(i, j, width)]), old(framebuffer[i, j])))
        {
          OffsetInRange(i, j, width, height);
          if i != x || j != y {
            if Offset(i, j, width) == Offset(x, y, width) {
              OffsetInjective(i, j, x, y, width);
            }
            assert zBuffer[Offset(i, j, width)] == old@before(zBuffer[Offset(i, j, width)]);
          }
        }
        y := y + 1;
      }
    }

    /** The body of the pixel loops for one pixel of the bounding box. */
    method ShadeAt(s: Setup, shader: Vec -> Fragment, framebuffer: array2<Color>, x: int, y: int)
      requires ValidSetup(s) && Det3(s.abc) != 0.0
      requires 0 <= x < framebuffer.Length0 && 0 <= y < framebuffer.Length1
      requires zBuffer.Length == framebuffer.Length0 * framebuffer.Length1
      modifies zBuffer, framebuffer
      ensures 0 <= Offset(x, y, framebuffer.Length0) < zBuffer.Length
      ensures Pixel(zBuffer[Offset(x, y, framebuffer.Length0)], framebuffer[x, y])
        == ShadePixel(s, shader, x, y, Pixel(old(zBuffer[Offset(x, y, framebuffer.Length0)]), old(framebuffer[x, y])))
      ensures forall k :: 0 <= k < zBuffer.Length && k != Offset(x, y, framebuffer.Length0) ==> zBuffer[k] == old(zBuffer[k])
      ensures forall i, j :: 0 <= i < framebuffer.Length0 && 0 <= j < framebuffer.Length1 && (i != x || j != y) ==>
        framebuffer[i, j] == old(framebuffer[i, j])
    {
      var width := framebuffer.Length0;
      OffsetInRange(x, y, width, framebuffer.Length1);
      var k := Offset(x, y, width);
      ghost var p := Pixel(zBuffer[k], framebuffer[x, y]);
      var bcScreen := ScreenWeights(s, x, y);
      if bcScreen[0] < 0.0 || bcScreen[1] < 0.0 || bcScreen[2] < 0.0 {
        assert ShadePixel(s, shader, x, y, p) == p;
        return;
      }
      ScreenWeightsBarycentric(s, x, y);
      var bcClip := ClipWeights(bcScreen, s.w);
      var z := Dot(bcScreen, s.ndcZ);
      if z <= zBuffer[k] {
        assert ShadePixel(s, shader, x, y, p) == p;
        return;
      }
      var frag := shader(bcClip);
      if frag.discard {
        assert ShadePixel(s, shader, x, y, p) == p;
        return;
      }
      zBuffer[k] := z;
      var color := frag.color;
      if Alpha(color) < 255 {
        var dst := framebuffer[x, y];
        color := Blend(color, dst);
      }
      framebuffer[x, y] := color;
      assert ShadePixel(s, shader, x, y, p) == Pixel(z, color);
    }
  }

  /** The state of pixel (i, j) once the column loop has reached column x:
      the pixels of the box in earlier columns are shaded, the others are as
      they were. */
  function Done(s: Setup, shader: Vec -> Fragment, width: int, height: int, x: int, i: int, j: int, p: Pixel): Pixel
    requires ValidSetup(s) && Det3(s.abc) != 0.0
  {
    if InBox(s, width, height, i, j) && i < x then ShadePixel(s, shader, i, j, p) else p
  }

  /** The state of pixel (i, j) once the row loop of column x has reached
      row y: the pixels of that column inside the box and before row y are
      shaded, the others are as they were. */
  function ColumnDone(s: Setup, shader: Vec -> Fragment, width: int, height: int, x: int, y: int, i: int, j: int, p: Pixel): Pixel
    requires ValidSetup(s) && Det3(s.abc) != 0.0
  {
    if InBox(s, width, height, i, j) && i == x && j < y then ShadePixel(s, shader, i, j, p) else p
  }
}
