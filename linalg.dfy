/**
 * Real vectors, matrices and finite sums: the pieces of NumPy arithmetic the
 * component-separation code uses (elementwise sums and products, np.dot,
 * einsum contractions), written out over Dafny's exact `real`.
 */
module LinAlg {

  type Vector = seq<real>
  type Matrix = seq<seq<real>>
  type Tensor3 = seq<seq<seq<real>>>

  /** Every row of m has length cols and there are rows rows. */
  predicate IsMatrix(m: Matrix, rows: nat, cols: nat) {
    |m| == rows && forall i :: 0 <= i < rows ==> |m[i]| == cols
  }

  /** A stack of `depth` matrices of shape rows x cols (a 3-D ndarray). */
  predicate IsTensor3(t: Tensor3, depth: nat, rows: nat, cols: nat) {
    |t| == depth && forall b :: 0 <= b < depth ==> IsMatrix(t[b], rows, cols)
  }

  function Sum(s: Vector): real {
    if |s| == 0 then 0.0 else s[0] + Sum(s[1..])
  }

  /** np.dot of two vectors of equal length. */
  function Dot(a: Vector, b: Vector): real
    requires |a| == |b|
  {
    if |a| == 0 then 0.0 else a[0] * b[0] + Dot(a[1..], b[1..])
  }

  function VecAdd(a: Vector, b: Vector): (r: Vector)
    requires |a| == |b|
    ensures |r| == |a| && forall i :: 0 <= i < |a| ==> r[i] == a[i] + b[i]
  {
    seq(|a|, i requires 0 <= i < |a| => a[i] + b[i])
  }

  function VecSub(a: Vector, b: Vector): (r: Vector)
    requires |a| == |b|
    ensures |r| == |a| && forall i :: 0 <= i < |a| ==> r[i] == a[i] - b[i]
  {
    seq(|a|, i requires 0 <= i < |a| => a[i] - b[i])
  }

  function Scale(c: real, a: Vector): (r: Vector)
    ensures |r| == |a| && forall i :: 0 <= i < |a| ==> r[i] == c * a[i]
  {
    seq(|a|, i requires 0 <= i < |a| => c * a[i])
  }

  /** np.dot(m, v) for a matrix with |v| columns. */
  function MatVec(m: Matrix, v: Vector): (r: Vector)
    requires forall i :: 0 <= i < |m| ==> |m[i]| == |v|
    ensures |r| == |m| && forall i :: 0 <= i < |m| ==> r[i] == Dot(m[i], v)
  {
    seq(|m|, i requires 0 <= i < |m| => Dot(m[i], v))
  }

  /** rows rows of cols entries each, for any element type. */
  predicate Rectangular<T>(m: seq<seq<T>>, rows: nat, cols: nat) {
    |m| == rows && forall i :: 0 <= i < rows ==> |m[i]| == cols
  }

  /** Concatenation of the rows of m (NumPy's C-order flatten). */
  function Flatten<T>(m: seq<seq<T>>): seq<T> {
    if |m| == 0 then [] else m[0] + Flatten(m[1..])
  }

  lemma {:induction false} FlattenAt<T>(m: seq<seq<T>>, rows: nat, cols: nat, b: nat, k: nat)
    requires Rectangular(m, rows, cols)
    requires b < rows && k < cols
    ensures |Flatten(m)| == rows * cols
    ensures b * cols + k < rows * cols && Flatten(m)[b * cols + k] == m[b][k]
  {
    if b == 0 {
      FlattenLength(m, rows, cols);
    } else {
      FlattenAt(m[1..], rows - 1, cols, b - 1, k);
      FlattenLength(m, rows, cols);
      assert b * cols + k == cols + ((b - 1) * cols + k);
    }
  }

  lemma {:induction false} FlattenLength<T>(m: seq<seq<T>>, rows: nat, cols: nat)
    requires Rectangular(m, rows, cols)
    ensures |Flatten(m)| == rows * cols
  {
    if rows > 0 {
      FlattenLength(m[1..], rows - 1, cols);
      assert rows * cols == cols + (rows - 1) * cols;
    }
  }

  /** Extensional equality of two matrices of the same shape. */
  lemma MatrixEq(a: Matrix, b: Matrix, rows: nat, cols: nat)
    requires IsMatrix(a, rows, cols) && IsMatrix(b, rows, cols)
    requires forall i, j :: 0 <= i < rows && 0 <= j < cols ==> a[i][j] == b[i][j]
    ensures a == b
  {
    forall i | 0 <= i < rows ensures a[i] == b[i] {
      assert forall j :: 0 <= j < cols ==> a[i][j] == b[i][j];
    }
  }

  /** Extensional equality of two stacks of matrices of the same shape. */
  lemma Tensor3Eq(a: Tensor3, b: Tensor3, depth: nat, rows: nat, cols: nat)
    requires IsTensor3(a, depth, rows, cols) && IsTensor3(b, depth, rows, cols)
    requires forall x, i, j :: 0 <= x < depth && 0 <= i < rows && 0 <= j < cols ==> a[x][i][j] == b[x][i][j]
    ensures a == b
  {
    forall x | 0 <= x < depth ensures a[x] == b[x] {
      MatrixEq(a[x], b[x], rows, cols);
    }
  }

  /** Summing zeros gives zero. */
  lemma {:induction false} SumOfZeros(s: Vector)
    requires forall i :: 0 <= i < |s| ==> s[i] == 0.0
    ensures Sum(s) == 0.0
  {
    if |s| > 0 {
      SumOfZeros(s[1..]);
    }
  }

  /** A constant factor comes out of a sum. */
  lemma {:induction false} SumScale(c: real, s: Vector)
    ensures Sum(Scale(c, s)) == c * Sum(s)
  {
    if |s| > 0 {
      SumScale(c, s[1..]);
      assert forall i :: 0 <= i < |s| - 1 ==> Scale(c, s)[1..][i] == Scale(c, s[1..])[i];
      assert Scale(c, s)[1..] == Scale(c, s[1..]);
    }
  }

  /** A weighted mean stays within the range of the values it averages. */
  lemma {:induction false} SumBounds(w: Vector, x: Vector, lo: real, hi: real)
    requires |w| == |x|
    requires forall i :: 0 <= i < |w| ==> w[i] >= 0.0 && lo <= x[i] <= hi
    ensures lo * Sum(w) <= Dot(w, x) <= hi * Sum(w)
  {
    if |w| > 0 {
      SumBounds(w[1..], x[1..], lo, hi);
      WeightedTermBounds(w[0], x[0], lo, hi, Sum(w[1..]), Dot(w[1..], x[1..]), Sum(w), Dot(w, x));
    } else {
      MulZero(lo);
      MulZero(hi);
    }
  }

  lemma MulZero(c: real)
    ensures c * 0.0 == 0.0
  {
  }

  /** One more weighted term keeps lo * (total weight) <= weighted sum <= hi * (total weight). */
  lemma WeightedTermBounds(a: real, y: real, lo: real, hi: real, s: real, d: real, total: real, dot: real)
    requires a >= 0.0 && lo <= y <= hi && lo * s <= d <= hi * s
    requires total == a + s && dot == a * y + d
    ensures lo * total <= dot <= hi * total
  {
    MulNonNegative(a, y - lo);
    MulNonNegative(a, hi - y);
  }

  lemma MulNonNegative(a: real, b: real)
    requires a >= 0.0 && b >= 0.0
    ensures a * b >= 0.0
  {
  }

  /** A sum of non-negative terms is non-negative. */
  lemma {:induction false} SumNonNegative(s: Vector)
    requires forall i :: 0 <= i < |s| ==> s[i] >= 0.0
    ensures Sum(s) >= 0.0
  {
    if |s| > 0 {
      SumNonNegative(s[1..]);
    }
  }

  /** np.dot distributes over a vector sum. */
  lemma {:induction false} DotAdd(w: Vector, a: Vector, b: Vector)
    requires |w| == |a| == |b|
    ensures Dot(w, VecAdd(a, b)) == Dot(w, a) + Dot(w, b)
  {
    if |w| > 0 {
      var v, v' := VecAdd(a, b), VecAdd(a[1..], b[1..]);
      assert forall i :: 0 <= i < |v'| ==> v[1..][i] == v'[i];
      assert v[1..] == v';
      DotAdd(w[1..], a[1..], b[1..]);
      var x, y, z := w[0], a[0], b[0];
      assert x * (y + z) == x * y + x * z;
    }
  }

  /** A constant factor comes out of np.dot. */
  lemma {:induction false} DotScale(w: Vector, a: Vector, c: real)
    requires |w| == |a|
    ensures Dot(w, Scale(c, a)) == c * Dot(w, a)
  {
    if |w| > 0 {
      var v, v' := Scale(c, a), Scale(c, a[1..]);
      assert forall i :: 0 <= i < |v'| ==> v[1..][i] == v'[i];
      assert v[1..] == v';
      DotScale(w[1..], a[1..], c);
      var x, y, rest := w[0], a[0], Dot(w[1..], a[1..]);
      assert x * (c * y) + c * rest == c * (x * y + rest);
    }
  }

  /** np.dot of two 2-vectors, written out. */
  lemma Dot2(a: Vector, b: Vector)
    requires |a| == 2 && |b| == 2
    ensures Dot(a, b) == a[0] * b[0] + a[1] * b[1]
  {
    var a1, b1 := a[1..], b[1..];
    assert a1[1..] == [] && b1[1..] == [];
    assert Dot(a1, b1) == a1[0] * b1[0] + Dot(a1[1..], b1[1..]);
  }
}
