/** Closed forms of the determinant and the cofactors for 2 x 2 and 3 x 3
    matrices, and the inverse round trip `M x invert(M) == identity` that the
    adjugate method promises for them. */
module SmallMatrices {
  import opened Vectors
  import opened Matrices

  // ---------------------------------------------------------------------
  // 2 x 2
  // ---------------------------------------------------------------------

  /** A 1 x 1 minor of a 2 x 2 matrix is the entry on the other row and column. */
  lemma Minor1(m: Mat, row: nat, col: nat)
    requires IsSquare(m) && |m| == 2 && row < 2 && col < 2
    ensures Det(Minor(m, row, col)) == m[1 - row][1 - col]
  {
    var s := Minor(m, row, col);
    assert s[0][0] == m[Skip(0, row)][Skip(0, col)];
  }

  /** All four cofactors of a 2 x 2 matrix. */
  lemma Cofactors2(m: Mat)
    requires IsSquare(m) && |m| == 2
    ensures Cofactor(m, 0, 0) == m[1][1] && Cofactor(m, 0, 1) == -m[1][0]
    ensures Cofactor(m, 1, 0) == -m[0][1] && Cofactor(m, 1, 1) == m[0][0]
  {
    Minor1(m, 0, 0); Minor1(m, 0, 1); Minor1(m, 1, 0); Minor1(m, 1, 1);
  }

  /** The 2 x 2 determinant. */
  lemma Det2(m: Mat)
    requires IsSquare(m) && |m| == 2
    ensures Det(m) == m[0][0] * m[1][1] - m[0][1] * m[1][0]
  {
    Cofactors2(m);
    assert Det(m) == Expansion(m, 2) == Expansion(m, 1) + m[0][1] * Cofactor(m, 0, 1);
    assert Expansion(m, 1) == m[0][0] * Cofactor(m, 0, 0);
  }

  /** Entry (r, c) of invert(m) is cofactor (c, r) divided by the determinant. */
  lemma InvertEntry(m: Mat, r: nat, c: nat)
    requires IsSquare(m) && |m| >= 2 && Det(m) != 0.0 && r < |m| && c < |m|
    ensures Invert(m)[r][c] == Cofactor(m, c, r) / Det(m)
  {
    DivisorIsDet(m);
    var it := InvertTranspose(m);
    assert it[c][r] == Cofactor(m, c, r) / Det(m);
  }

  /** Column c of invert(m), for a 3 x 3 m, holds cofactor row c over the determinant. */
  lemma InvertColumn(m: Mat, c: nat)
    requires IsSquare(m) && |m| >= 2 && Det(m) != 0.0 && c < |m|
    ensures forall k :: 0 <= k < |m| ==> Column(Invert(m), c)[k] == Cofactor(m, c, k) / Det(m)
  {
    forall k | 0 <= k < |m|
      ensures Column(Invert(m), c)[k] == Cofactor(m, c, k) / Det(m)
    {
      InvertEntry(m, k, c);
    }
  }

  /** Row r of m against a column holding cofactor row c over the determinant. */
  lemma RowTimesScaledCofactors2(m: Mat, col: Vec, r: nat, c: nat)
    requires IsSquare(m) && |m| == 2 && Det(m) != 0.0 && r < 2 && c < 2 && |col| == 2
    requires forall k :: 0 <= k < 2 ==> col[k] == Cofactor(m, c, k) / Det(m)
    ensures Dot(m[r], col) == if r == c then 1.0 else 0.0
  {
    var d := Det(m);
    Det2(m);
    Cofactors2(m);
    Dot2(m[r], col);
    var x0, x1 := m[r][0], m[r][1];
    var y0, y1 := Cofactor(m, c, 0), Cofactor(m, c, 1);
    Adjugate2Identity(m[0][0], m[0][1], m[1][0], m[1][1], d, r, c, x0, x1, y0, y1);
    DivideSum2(x0, x1, y0, y1, d);
  }

  /** One entry of M x invert(M) for a 2 x 2 M. */
  lemma RoundTripEntry2(m: Mat, r: nat, c: nat)
    requires IsSquare(m) && |m| == 2 && Det(m) != 0.0 && r < 2 && c < 2
    ensures Dot(m[r], Column(Invert(m), c)) == if r == c then 1.0 else 0.0
  {
    InvertColumn(m, c);
    RowTimesScaledCofactors2(m, Column(Invert(m), c), r, c);
  }

  /** For a non-singular 2 x 2 matrix, M x invert(M) is the identity. */
  lemma InvertRoundTrip2(m: Mat)
    requires IsSquare(m) && |m| == 2 && Det(m) != 0.0
    ensures MatMul(m, Invert(m), 2) == Identity(2)
  {
    var inv := Invert(m);
    forall r, c | 0 <= r < 2 && 0 <= c < 2
      ensures Dot(m[r], Column(inv, c)) == if r == c then 1.0 else 0.0
    {
      RoundTripEntry2(m, r, c);
    }
    ProductIsIdentity(m, inv, 2);
  }

  /** Row r of [[a, b], [e, f]] dotted with cofactor row c is d when r == c and 0 otherwise. */
  lemma Adjugate2Identity(a: real, b: real, e: real, f: real, d: real, r: nat, c: nat,
                          x0: real, x1: real, y0: real, y1: real)
    requires d == a * f - b * e && r < 2 && c < 2
    requires x0 == (if r == 0 then a else e) && x1 == (if r == 0 then b else f)
    requires y0 == (if c == 0 then f else -b) && y1 == (if c == 0 then -e else a)
    ensures x0 * y0 + x1 * y1 == (if r == c then d else 0.0)
  {
  }

  /** Dividing each term of a two-term sum by d; the sum d itself gives 1. */
  lemma DivideSum2(x0: real, x1: real, y0: real, y1: real, d: real)
    requires d != 0.0
    ensures x0 * (y0 / d) + x1 * (y1 / d) == (x0 * y0 + x1 * y1) / d
    ensures x0 * y0 + x1 * y1 == d ==> (x0 * y0 + x1 * y1) / d == 1.0
  {
  }

  // ---------------------------------------------------------------------
  // 3 x 3
  // ---------------------------------------------------------------------

  /** The lower and the higher of the two indices in {0, 1, 2} other than i. */
  function Lo(i: nat): nat { if i == 0 then 1 else 0 }
  function Hi(i: nat): nat { if i == 2 then 1 else 2 }

  /** The minor of a 3 x 3 matrix keeps rows Lo(i), Hi(i) and columns Lo(j), Hi(j). */
  lemma Minor3(m: Mat, i: nat, j: nat)
    requires IsSquare(m) && |m| == 3 && i < 3 && j < 3
    ensures Minor(m, i, j) == [[m[Lo(i)][Lo(j)], m[Lo(i)][Hi(j)]], [m[Hi(i)][Lo(j)], m[Hi(i)][Hi(j)]]]
  {
    var s := Minor(m, i, j);
    assert Skip(0, i) == Lo(i) && Skip(1, i) == Hi(i);
    assert Skip(0, j) == Lo(j) && Skip(1, j) == Hi(j);
    assert s[0] == [m[Lo(i)][Lo(j)], m[Lo(i)][Hi(j)]];
    assert s[1] == [m[Hi(i)][Lo(j)], m[Hi(i)][Hi(j)]];
  }

  /** The closed form of a 3 x 3 cofactor: the signed 2 x 2 determinant of the kept rows and columns. */
  function Cofactor3(m: Mat, i: nat, j: nat): real
    requires IsSquare(m) && |m| == 3 && i < 3 && j < 3
  {
    var d := m[Lo(i)][Lo(j)] * m[Hi(i)][Hi(j)] - m[Lo(i)][Hi(j)] * m[Hi(i)][Lo(j)];
    if (i + j) % 2 == 1 then -d else d
  }

  /** The closed form of the 3 x 3 determinant (rule of Sarrus, grouped by the first row). */
  function Det3(m: Mat): real
    requires IsSquare(m) && |m| == 3
  {
    m[0][0] * (m[1][1] * m[2][2] - m[1][2] * m[2][1])
      - m[0][1] * (m[1][0] * m[2][2] - m[1][2] * m[2][0])
      + m[0][2] * (m[1][0] * m[2][1] - m[1][1] * m[2][0])
  }

  /** The recursive cofactor agrees with its closed form. */
  lemma CofactorIs3(m: Mat, i: nat, j: nat)
    requires IsSquare(m) && |m| == 3 && i < 3 && j < 3
    ensures Cofactor(m, i, j) == Cofactor3(m, i, j)
  {
    var s := Minor(m, i, j);
    Minor3(m, i, j);
    var x, y, z, w := m[Lo(i)][Lo(j)], m[Lo(i)][Hi(j)], m[Hi(i)][Lo(j)], m[Hi(i)][Hi(j)];
    assert s == [[x, y], [z, w]];
    assert Det(s) == x * w - y * z by { Det2(s); }
    assert Cofactor(m, i, j) == Sign(i, j) * Det(s);
    if (i + j) % 2 == 1 {
      assert Sign(i, j) == -1.0;
    } else {
      assert Sign(i, j) == 1.0;
    }
  }

  /** The recursive determinant agrees with its closed form. */
  lemma DetIs3(m: Mat)
    requires IsSquare(m) && |m| == 3
    ensures Det(m) == Det3(m)
  {
    CofactorIs3(m, 0, 0);
    CofactorIs3(m, 0, 1);
    CofactorIs3(m, 0, 2);
    var c0, c1, c2 := Cofactor(m, 0, 0), Cofactor(m, 0, 1), Cofactor(m, 0, 2);
    assert Expansion(m, 1) == m[0][0] * c0;
    assert Expansion(m, 2) == m[0][0] * c0 + m[0][1] * c1;
    assert Det(m) == Expansion(m, 3) == m[0][0] * c0 + m[0][1] * c1 + m[0][2] * c2;
    assert c1 == -(m[1][0] * m[2][2] - m[1][2] * m[2][0]);
    NegateFactor(m[0][1], m[1][0] * m[2][2] - m[1][2] * m[2][0]);
  }

  lemma NegateFactor(x: real, y: real)
    ensures x * -y == -(x * y)
  {
  }

  /** Row (or column) r of a 3 x 3 matrix against the cofactors of row (or
      column) c sums to the determinant when r == c and to 0 otherwise: the
      Laplace expansion along any row or column, and the vanishing of alien
      cofactors. Written on the nine entries. */
  lemma Laplace3(a: real, b: real, c: real, d: real, e: real, f: real, g: real, h: real, k: real, det: real)
    requires det == a * (e * k - f * h) - b * (d * k - f * g) + c * (d * h - e * g)
    // rows against cofactor rows
    ensures a * (e * k - f * h) + b * (-(d * k - f * g)) + c * (d * h - e * g) == det
    ensures a * (-(b * k - c * h)) + b * (a * k - c * g) + c * (-(a * h - b * g)) == 0.0
    ensures a * (b * f - c * e) + b * (-(a * f - c * d)) + c * (a * e - b * d) == 0.0
    ensures d * (e * k - f * h) + e * (-(d * k - f * g)) + f * (d * h - e * g) == 0.0
    ensures d * (-(b * k - c * h)) + e * (a * k - c * g) + f * (-(a * h - b * g)) == det
    ensures d * (b * f - c * e) + e * (-(a * f - c * d)) + f * (a * e - b * d) == 0.0
    ensures g * (e * k - f * h) + h * (-(d * k - f * g)) + k * (d * h - e * g) == 0.0
    ensures g * (-(b * k - c * h)) + h * (a * k - c * g) + k * (-(a * h - b * g)) == 0.0
    ensures g * (b * f - c * e) + h * (-(a * f - c * d)) + k * (a * e - b * d) == det
    // columns against cofactor columns
    ensures a * (e * k - f * h) + d * (-(b * k - c * h)) + g * (b * f - c * e) == det
    ensures b * (e * k - f * h) + e * (-(b * k - c * h)) + h * (b * f - c * e) == 0.0
    ensures c * (e * k - f * h) + f * (-(b * k - c * h)) + k * (b * f - c * e) == 0.0
    ensures a * (-(d * k - f * g)) + d * (a * k - c * g) + g * (-(a * f - c * d)) == 0.0
    ensures b * (-(d * k - f * g)) + e * (a * k - c * g) + h * (-(a * f - c * d)) == det
    ensures c * (-(d * k - f * g)) + f * (a * k - c * g) + k * (-(a * f - c * d)) == 0.0
    ensures a * (d * h - e * g) + d * (-(a * h - b * g)) + g * (a * e - b * d) == 0.0
    ensures b * (d * h - e * g) + e * (-(a * h - b * g)) + h * (a * e - b * d) == 0.0
    ensures c * (d * h - e * g) + f * (-(a * h - b * g)) + k * (a * e - b * d) == det
  {
  }

  /** Row r of m against cofactor row c: the determinant on the diagonal, 0 off it. */
  lemma RowCofactorSum3(m: Mat, r: nat, c: nat)
    requires IsSquare(m) && |m| == 3 && r < 3 && c < 3
    ensures m[r][0] * Cofactor(m, c, 0) + m[r][1] * Cofactor(m, c, 1) + m[r][2] * Cofactor(m, c, 2)
         == (if r == c then Det(m) else 0.0)
  {
    DetIs3(m);
    CofactorIs3(m, c, 0);
    CofactorIs3(m, c, 1);
    CofactorIs3(m, c, 2);
    Laplace3(m[0][0], m[0][1], m[0][2], m[1][0], m[1][1], m[1][2], m[2][0], m[2][1], m[2][2], Det3(m));
    if c == 0 {
    } else if c == 1 {
    } else {
    }
  }

  /** Dividing each term of a three-term sum by d; the sum d itself gives 1. */
  lemma DivideSum3(x0: real, x1: real, x2: real, y0: real, y1: real, y2: real, d: real)
    requires d != 0.0
    ensures x0 * (y0 / d) + x1 * (y1 / d) + x2 * (y2 / d) == (x0 * y0 + x1 * y1 + x2 * y2) / d
    ensures x0 * y0 + x1 * y1 + x2 * y2 == d ==> (x0 * y0 + x1 * y1 + x2 * y2) / d == 1.0
  {
  }

  /** Row r of m against a column holding cofactor row c over the determinant. */
  lemma RowTimesScaledCofactors3(m: Mat, col: Vec, r: nat, c: nat)
    requires IsSquare(m) && |m| == 3 && Det(m) != 0.0 && r < 3 && c < 3 && |col| == 3
    requires forall k :: 0 <= k < 3 ==> col[k] == Cofactor(m, c, k) / Det(m)
    ensures Dot(m[r], col) == if r == c then 1.0 else 0.0
  {
    Dot3(m[r], col);
    var y0, y1, y2 := Cofactor(m, c, 0), Cofactor(m, c, 1), Cofactor(m, c, 2);
    RowCofactorSum3(m, r, c);
    DivideSum3(m[r][0], m[r][1], m[r][2], y0, y1, y2, Det(m));
  }

  /** One entry of M x invert(M) for a 3 x 3 M. */
  lemma RoundTripEntry3(m: Mat, r: nat, c: nat)
    requires IsSquare(m) && |m| == 3 && Det(m) != 0.0 && r < 3 && c < 3
    ensures Dot(m[r], Column(Invert(m), c)) == if r == c then 1.0 else 0.0
  {
    InvertColumn(m, c);
    RowTimesScaledCofactors3(m, Column(Invert(m), c), r, c);
  }

  /** A product whose entries are those of the identity is the identity. */
  lemma ProductIsIdentity(a: Mat, b: Mat, n: nat)
    requires IsMat(a, n, n) && IsMat(b, n, n)
    requires forall r, c :: 0 <= r < n && 0 <= c < n ==> Dot(a[r], Column(b, c)) == if r == c then 1.0 else 0.0
    ensures MatMul(a, b, n) == Identity(n)
  {
    var p := MatMul(a, b, n);
    forall r | 0 <= r < n
      ensures p[r] == Identity(n)[r]
    {
      assert forall c :: 0 <= c < n ==> p[r][c] == Identity(n)[r][c];
    }
  }

  /** For a non-singular 3 x 3 matrix, M x invert(M) is the identity. */
  lemma InvertRoundTrip3(m: Mat)
    requires IsSquare(m) && |m| == 3 && Det(m) != 0.0
    ensures MatMul(m, Invert(m), 3) == Identity(3)
  {
    var inv := Invert(m);
    forall r, c | 0 <= r < 3 && 0 <= c < 3
      ensures Dot(m[r], Column(inv, c)) == if r == c then 1.0 else 0.0
    {
      RoundTripEntry3(m, r, c);
    }
    ProductIsIdentity(m, inv, 3);
  }

  /** The closed form of invert_transpose() for a 3 x 3 matrix: every cofactor over the determinant. */
  function InvertTranspose3(m: Mat): (it: Mat)
    requires IsSquare(m) && |m| == 3 && Det3(m) != 0.0
    ensures IsSquare(it) && |it| == 3
  {
    seq(3, i requires 0 <= i < 3 => seq(3, j requires 0 <= j < 3 => Cofactor3(m, i, j) / Det3(m)))
  }

  /** The closed form agrees with the adjugate computation of invert_transpose(). */
  lemma InvertTransposeIs3(m: Mat)
    requires IsSquare(m) && |m| == 3 && Det(m) != 0.0
    ensures Det3(m) == Det(m)
    ensures InvertTranspose(m) == InvertTranspose3(m)
  {
    DetIs3(m);
    DivisorIsDet(m);
    var it := InvertTranspose(m);
    var it3 := InvertTranspose3(m);
    forall i, j | 0 <= i < 3 && 0 <= j < 3
      ensures it[i][j] == it3[i][j]
    {
      CofactorIs3(m, i, j);
    }
    assert forall i | 0 <= i < 3 :: it[i] == it3[i];
  }
}
