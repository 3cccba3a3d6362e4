/** Fixed-size matrices of reals: the `mat<R, C>` value type, its operators,
    the first-row Laplace determinant, cofactors and adjugate inversion.

    A matrix is a row-major `seq` of rows; `IsMat(m, r, c)` says it has r rows
    of c columns. Square-only operations require `IsSquare`. */
module Matrices {
  import opened Vectors

  type Mat = seq<seq<real>>

  predicate IsMat(m: Mat, r: nat, c: nat)
  {
    |m| == r && forall i :: 0 <= i < r ==> |m[i]| == c
  }

  predicate IsSquare(m: Mat)
  {
    IsMat(m, |m|, |m|)
  }

  /** `operator[]` on a matrix: the row idx, with 0 <= idx < nrows. */
  function RowAt(m: Mat, idx: int): (r: Vec)
    requires 0 <= idx < |m|
    ensures r == m[idx]
  {
    m[idx]
  }

  /** Column j of m. */
  function Column(m: Mat, j: nat): (col: Vec)
    requires forall i :: 0 <= i < |m| ==> j < |m[i]|
    ensures |col| == |m|
  {
    seq(|m|, i requires 0 <= i < |m| => m[i][j])
  }

  function Zero(r: nat, c: nat): (z: Mat)
    ensures IsMat(z, r, c)
  {
    seq(r, i => seq(c, j => 0.0))
  }

  function Identity(n: nat): (id: Mat)
    ensures IsSquare(id) && |id| == n
  {
    seq(n, i => seq(n, j => if i == j then 1.0 else 0.0))
  }

  // ---------------------------------------------------------------------
  // Specification functions for the operators
  // ---------------------------------------------------------------------

  function Transpose(m: Mat, c: nat): (t: Mat)
    requires IsMat(m, |m|, c)
    ensures IsMat(t, c, |m|)
  {
    seq(c, i requires 0 <= i < c => Column(m, i))
  }

  /** mat x vec: entry i is row i dotted with v. */
  function MatVec(m: Mat, v: Vec): (r: Vec)
    requires IsMat(m, |m|, |v|)
    ensures |r| == |m|
  {
    seq(|m|, i requires 0 <= i < |m| => Dot(m[i], v))
  }

  /** mat x mat: entry (i, j) is row i of a dotted with column j of b. */
  function MatMul(a: Mat, b: Mat, c: nat): (p: Mat)
    requires IsMat(a, |a|, |b|) && IsMat(b, |b|, c)
    ensures IsMat(p, |a|, c)
  {
    seq(|a|, i requires 0 <= i < |a| => seq(c, j requires 0 <= j < c => Dot(a[i], Column(b, j))))
  }

  /** vec x mat: v is read as a 1 x n matrix and row 0 of the product is returned. */
  function VecMat(v: Vec, m: Mat, c: nat): (r: Vec)
    requires IsMat(m, |v|, c)
  {
    MatMul([v], m, c)[0]
  }

  function MatAdd(a: Mat, b: Mat, c: nat): (s: Mat)
    requires IsMat(a, |a|, c) && IsMat(b, |a|, c)
    ensures IsMat(s, |a|, c)
  {
    seq(|a|, i requires 0 <= i < |a| => seq(c, j requires 0 <= j < c => a[i][j] + b[i][j]))
  }

  function MatSub(a: Mat, b: Mat, c: nat): (s: Mat)
    requires IsMat(a, |a|, c) && IsMat(b, |a|, c)
    ensures IsMat(s, |a|, c)
  {
    seq(|a|, i requires 0 <= i < |a| => seq(c, j requires 0 <= j < c => a[i][j] - b[i][j]))
  }

  /** mat * scalar, row by row. */
  function MatScale(m: Mat, s: real): (r: Mat)
    ensures |r| == |m|
  {
    seq(|m|, i requires 0 <= i < |m| => Scale(m[i], s))
  }

  /** mat / scalar, row by row. */
  function MatDiv(m: Mat, s: real): (r: Mat)
    requires s != 0.0
    ensures |r| == |m|
  {
    seq(|m|, i requires 0 <= i < |m| => Div(m[i], s))
  }

  // ---------------------------------------------------------------------
  // Minors, cofactors, determinant, inversion
  // ---------------------------------------------------------------------

  /** The index into the full matrix of index i of the minor that drops k;
      it is never k itself. */
  function Skip(i: nat, k: nat): (r: nat)
    ensures r != k
  {
    if i >= k then i + 1 else i
  }

  /** The (n-1) x (n-1) minor of `cofactor(row, col)`, built by index shift:
      entry (i, j) is `rows[i + (i >= row)][j + (j >= col)]`. */
  function Minor(m: Mat, row: nat, col: nat): (s: Mat)
    requires IsSquare(m) && row < |m| && col < |m|
    ensures IsSquare(s) && |s| == |m| - 1
  {
    var n := |m| - 1;
    seq(n, i requires 0 <= i < n => seq(n, j requires 0 <= j < n => m[Skip(i, row)][Skip(j, col)]))
  }

  /** The cofactor sign: -1 exactly when row + col is odd. */
  function Sign(row: nat, col: nat): real
  {
    if (row + col) % 2 == 1 then -1.0 else 1.0
  }

  /** The determinant by Laplace expansion along the first row; 1 x 1 is the entry. */
  function Det(m: Mat): real
    requires IsSquare(m) && |m| >= 1
    decreases |m|, 2
  {
    if |m| == 1 then m[0][0] else Expansion(m, |m|)
  }

  /** The partial sum of the expansion loop: the sum of m[0][i] * cofactor(0, i) for i < k. */
  function Expansion(m: Mat, k: nat): real
    requires IsSquare(m) && |m| >= 2 && k <= |m|
    decreases |m|, 1, k
  {
    if k == 0 then 0.0 else Expansion(m, k - 1) + m[0][k - 1] * Cofactor(m, 0, k - 1)
  }

  function Cofactor(m: Mat, row: nat, col: nat): real
    requires IsSquare(m) && |m| >= 2 && row < |m| && col < |m|
    decreases |m|, 0
  {
    Sign(row, col) * Det(Minor(m, row, col))
  }

  /** The matrix of all cofactors (the transpose of the adjugate). */
  function AdjugateTranspose(m: Mat): (adj: Mat)
    requires IsSquare(m) && |m| >= 2
    ensures IsSquare(adj) && |adj| == |m|
  {
    var n := |m|;
    seq(n, i requires 0 <= i < n => seq(n, j requires 0 <= j < n => Cofactor(m, i, j)))
  }

  /** `invert_transpose()`: the cofactor matrix divided by row 0 of itself
      dotted with row 0 of m (which is the determinant, see DivisorIsDet). */
  function InvertTranspose(m: Mat): (it: Mat)
    requires IsSquare(m) && |m| >= 2 && Det(m) != 0.0
    ensures IsSquare(it) && |it| == |m|
  {
    var adj := AdjugateTranspose(m);
    DivisorIsDet(m);
    var r := MatDiv(adj, Dot(adj[0], m[0]));
    assert forall i :: 0 <= i < |m| ==> |r[i]| == |m|;
    r
  }

  /** `invert()`: the transpose of invert_transpose(). */
  function Invert(m: Mat): (inv: Mat)
    requires IsSquare(m) && |m| >= 2 && Det(m) != 0.0
    ensures IsSquare(inv) && |inv| == |m|
  {
    Transpose(InvertTranspose(m), |m|)
  }

  // ---------------------------------------------------------------------
  // The loops of matrix.h / mat.h
  // ---------------------------------------------------------------------

  /** `transpose()`: result[i][j] = rows[j][i], filled row by row. */
  method Transposed(m: Mat, c: nat) returns (result: Mat)
    requires IsMat(m, |m|, c)
    ensures result == Transpose(m, c)
  {
    result := [];
    var i := 0;
    while i < c
      invariant 0 <= i <= c
      invariant result == Transpose(m, c)[..i]
    {
      var row: Vec := [];
      var j := 0;
      while j < |m|
        invariant 0 <= j <= |m|
        invariant row == Column(m, i)[..j]
      {
        row := row + [m[j][i]];
        j := j + 1;
      }
      assert row == Transpose(m, c)[i];
      result := result + [row];
      i := i + 1;
    }
  }

  /** mat x vec `operator*`: result[i] = lhs[i] * rhs. */
  method Apply(lhs: Mat, rhs: Vec) returns (result: Vec)
    requires IsMat(lhs, |lhs|, |rhs|)
    ensures result == MatVec(lhs, rhs)
  {
    result := [];
    var i := 0;
    while i < |lhs|
      invariant 0 <= i <= |lhs|
      invariant result == MatVec(lhs, rhs)[..i]
    {
      var d := DotProduct(lhs[i], rhs);
      result := result + [d];
      i := i + 1;
    }
  }

  /** mat x mat `operator*`: the triple loop with the running sum `value`. */
  method Product(lhs: Mat, rhs: Mat, c: nat) returns (result: Mat)
    requires IsMat(lhs, |lhs|, |rhs|) && IsMat(rhs, |rhs|, c)
    ensures result == MatMul(lhs, rhs, c)
  {
    result := [];
    var i := 0;
    while i < |lhs|
      invariant 0 <= i <= |lhs|
      invariant result == MatMul(lhs, rhs, c)[..i]
    {
      var row: Vec := [];
      var j := 0;
      while j < c
        invariant 0 <= j <= c
        invariant row == MatMul(lhs, rhs, c)[i][..j]
      {
        var col := Column(rhs, j);
        var value := 0.0;
        var k := 0;
        while k < |rhs|
          invariant 0 <= k <= |rhs|
          invariant value == Dot(lhs[i][..k], col[..k])
        {
          assert lhs[i][..k + 1][..k] == lhs[i][..k];
          assert col[..k + 1][..k] == col[..k];
          value := value + lhs[i][k] * rhs[k][j];
          k := k + 1;
        }
        assert lhs[i][..|rhs|] == lhs[i] && col[..|rhs|] == col;
        row := row + [value];
        j := j + 1;
      }
      assert row == MatMul(lhs, rhs, c)[i];
      result := result + [row];
      i := i + 1;
    }
  }

  /** mat * scalar `operator*`: result[i] = lhs[i] * val. */
  method ScaleRows(lhs: Mat, val: real) returns (result: Mat)
    ensures result == MatScale(lhs, val)
  {
    result := [];
    var i := 0;
    while i < |lhs|
      invariant 0 <= i <= |lhs|
      invariant result == MatScale(lhs, val)[..i]
    {
      var row := Times(lhs[i], val);
      result := result + [row];
      i := i + 1;
    }
  }

  /** mat / scalar `operator/`: result[i] = lhs[i] / val. */
  method DivideRows(lhs: Mat, val: real) returns (result: Mat)
    requires val != 0.0
    ensures result == MatDiv(lhs, val)
  {
    result := [];
    var i := 0;
    while i < |lhs|
      invariant 0 <= i <= |lhs|
      invariant result == MatDiv(lhs, val)[..i]
    {
      var row := Divide(lhs[i], val);
      result := result + [row];
      i := i + 1;
    }
  }

  /** mat + mat `operator+`: entry by entry. */
  method Sum(lhs: Mat, rhs: Mat, c: nat) returns (result: Mat)
    requires IsMat(lhs, |lhs|, c) && IsMat(rhs, |lhs|, c)
    ensures result == MatAdd(lhs, rhs, c)
  {
    result := [];
    var i := 0;
    while i < |lhs|
      invariant 0 <= i <= |lhs|
      invariant result == MatAdd(lhs, rhs, c)[..i]
    {
      var row: Vec := [];
      var j := 0;
      while j < c
        invariant 0 <= j <= c
        invariant row == MatAdd(lhs, rhs, c)[i][..j]
      {
        row := row + [lhs[i][j] + rhs[i][j]];
        j := j + 1;
      }
      assert row == MatAdd(lhs, rhs, c)[i];
      result := result + [row];
      i := i + 1;
    }
  }

  /** mat - mat `operator-`: entry by entry. */
  method Difference(lhs: Mat, rhs: Mat, c: nat) returns (result: Mat)
    requires IsMat(lhs, |lhs|, c) && IsMat(rhs, |lhs|, c)
    ensures result == MatSub(lhs, rhs, c)
  {
    result := [];
    var i := 0;
    while i < |lhs|
      invariant 0 <= i <= |lhs|
      invariant result == MatSub(lhs, rhs, c)[..i]
    {
      var row: Vec := [];
      var j := 0;
      while j < c
        invariant 0 <= j <= c
        invariant row == MatSub(lhs, rhs, c)[i][..j]
      {
        row := row + [lhs[i][j] - rhs[i][j]];
        j := j + 1;
      }
      assert row == MatSub(lhs, rhs, c)[i];
      result := result + [row];
      i := i + 1;
    }
  }

  /** mat.h `cofactor`: the minor is filled by skip loops whose counters si, sj
      advance only past rows and columns that are kept. */
  method SkipMinor(m: Mat, row: nat, col: nat) returns (submatrix: Mat)
    requires IsSquare(m) && |m| >= 2 && row < |m| && col < |m|
    ensures submatrix == Minor(m, row, col)
  {
    var n := |m|;
    submatrix := Zero(n - 1, n - 1);
    ghost var minor := Minor(m, row, col);
    var i, si := 0, 0;
    while i < n
      invariant 0 <= i <= n
      invariant si == (if i > row then i - 1 else i)
      invariant IsMat(submatrix, n - 1, n - 1)
      invariant forall a :: 0 <= a < si ==> submatrix[a] == minor[a]
    {
      if i == row {
        i := i + 1;
        continue;
      }
      assert Skip(si, row) == i;
      var j, sj := 0, 0;
      while j < n
        invariant 0 <= j <= n
        invariant sj == (if j > col then j - 1 else j)
        invariant IsMat(submatrix, n - 1, n - 1)
        invariant forall a :: 0 <= a < si ==> submatrix[a] == minor[a]
        invariant forall b :: 0 <= b < sj ==> submatrix[si][b] == minor[si][b]
      {
        if j == col {
          j := j + 1;
          continue;
        }
        assert Skip(sj, col) == j;
        submatrix := submatrix[si := submatrix[si][sj := m[i][j]]];
        sj := sj + 1;
        j := j + 1;
      }
      assert submatrix[si] == minor[si];
      si := si + 1;
      i := i + 1;
    }
  }

  /** `dt<N>::det`: the first-row expansion loop, with `dt<1>` as the base case. */
  method Determinant(m: Mat) returns (d: real)
    requires IsSquare(m) && |m| >= 1
    ensures d == Det(m)
    decreases |m|, 1
  {
    if |m| == 1 {
      return m[0][0];
    }
    d := 0.0;
    var i := 0;
    while i < |m|
      invariant 0 <= i <= |m|
      invariant d == Expansion(m, i)
    {
      var c := CofactorOf(m, 0, i);
      d := d + m[0][i] * c;
      i := i + 1;
    }
  }

  /** mat.h `cofactor(row, col)`: the skip-loop minor's determinant, signed
      +1 when row + col is even. */
  method CofactorOf(m: Mat, row: nat, col: nat) returns (c: real)
    requires IsSquare(m) && |m| >= 2 && row < |m| && col < |m|
    ensures c == Cofactor(m, row, col)
    decreases |m|, 0
  {
    var submatrix := SkipMinor(m, row, col);
    var d := Determinant(submatrix);
    var sign := if (row + col) % 2 == 0 then 1.0 else -1.0;
    c := sign * d;
  }

  /** `invert_transpose()`: fills the cofactor matrix, then divides it by
      row 0 of itself dotted with row 0 of m. */
  method InvertTransposed(m: Mat) returns (result: Mat)
    requires IsSquare(m) && |m| >= 2 && Det(m) != 0.0
    ensures result == InvertTranspose(m)
  {
    var n := |m|;
    var adjugate: Mat := [];
    var i := 0;
    while i < n
      invariant 0 <= i <= n
      invariant adjugate == AdjugateTranspose(m)[..i]
    {
      var row: Vec := [];
      var j := 0;
      while j < n
        invariant 0 <= j <= n
        invariant row == AdjugateTranspose(m)[i][..j]
      {
        var c := CofactorOf(m, i, j);
        row := row + [c];
        j := j + 1;
      }
      assert row == AdjugateTranspose(m)[i];
      adjugate := adjugate + [row];
      i := i + 1;
    }
    assert adjugate == AdjugateTranspose(m);
    var determinant := DotProduct(adjugate[0], m[0]);
    DivisorIsDet(m);
    result := DivideRows(adjugate, determinant);
  }

  // ---------------------------------------------------------------------
  // Laws
  // ---------------------------------------------------------------------

  /** transpose()[i][j] == m[j][i]. */
  lemma TransposeEntries(m: Mat, c: nat)
    requires IsMat(m, |m|, c)
    ensures forall i, j :: 0 <= i < c && 0 <= j < |m| ==> Transpose(m, c)[i][j] == m[j][i]
  {
  }

  /** Transposing twice gives back the matrix. */
  lemma TransposeInvolution(m: Mat, c: nat)
    requires IsMat(m, |m|, c)
    ensures Transpose(Transpose(m, c), |m|) == m
  {
    var t := Transpose(Transpose(m, c), |m|);
    forall i | 0 <= i < |m|
      ensures t[i] == m[i]
    {
      assert forall j :: 0 <= j < c ==> t[i][j] == m[i][j];
    }
  }

  /** The minor drops exactly row `row` and column `col`: each of its entries
      comes from a kept row and column, and every kept entry appears in it. */
  lemma MinorDropsRowAndColumn(m: Mat, row: nat, col: nat)
    requires IsSquare(m) && |m| >= 2 && row < |m| && col < |m|
    ensures forall i, j :: 0 <= i < |m| - 1 && 0 <= j < |m| - 1 ==>
      Minor(m, row, col)[i][j] == m[Skip(i, row)][Skip(j, col)]
    ensures forall i, j :: 0 <= i < |m| && 0 <= j < |m| && i != row && j != col ==>
      Minor(m, row, col)[if i > row then i - 1 else i][if j > col then j - 1 else j] == m[i][j]
  {
  }

  /** The divisor used by invert_transpose is exactly the determinant. */
  lemma DivisorIsDet(m: Mat)
    requires IsSquare(m) && |m| >= 2
    ensures Dot(AdjugateTranspose(m)[0], m[0]) == Det(m)
  {
    var adj := AdjugateTranspose(m);
    DotPrefixIsExpansion(m, adj[0], |m|);
    assert adj[0][..|m|] == adj[0] && m[0][..|m|] == m[0];
  }

  lemma {:induction false} DotPrefixIsExpansion(m: Mat, cof: Vec, k: nat)
    requires IsSquare(m) && |m| >= 2 && k <= |m|
    requires |cof| == |m| && forall j :: 0 <= j < |m| ==> cof[j] == Cofactor(m, 0, j)
    ensures Dot(cof[..k], m[0][..k]) == Expansion(m, k)
  {
    if k > 0 {
      assert cof[..k][..k - 1] == cof[..k - 1];
      assert m[0][..k][..k - 1] == m[0][..k - 1];
      DotPrefixIsExpansion(m, cof, k - 1);
    }
  }

  /** vec x mat: entry j is v dotted with column j. */
  lemma VecMatColumns(v: Vec, m: Mat, c: nat)
    requires IsMat(m, |v|, c)
    ensures |VecMat(v, m, c)| == c
    ensures forall j :: 0 <= j < c ==> VecMat(v, m, c)[j] == Dot(v, Column(m, j))
  {
  }
}
