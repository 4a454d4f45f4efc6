/**
 * Storage of symmetric frequency-pair matrices (bbpower/compsep.py).
 *
 * With n maps, the ncross = n(n+1)/2 unordered pairs (i <= j) are enumerated
 * row by row through the upper triangle, as np.triu_indices(n) does. A
 * symmetric matrix is kept either in full or as the vector of its upper
 * triangle in that order; `vector_indices` is the full n x n table of packed
 * positions.
 */
module Packing {
  import opened Wrappers
  import opened LinAlg

  /** ncross: the number of unordered pairs of n channels, diagonal included (n + (n - 1) + ... + 1). */
  function NCross(n: nat): nat {
    RowStart(n, n)
  }

  /** ncross == n (n + 1) / 2, the integer division `(nmaps * (nmaps + 1)) // 2`. */
  lemma NCrossClosedForm(n: nat)
    ensures NCross(n) == n * (n + 1) / 2
  {
    RowStartClosedForm(n, n);
  }

  /** Position of the first pair of row i in the row-major triangle enumeration. */
  function RowStart(n: nat, i: nat): nat
    requires i <= n
  {
    if i == 0 then 0 else RowStart(n, i - 1) + (n - (i - 1))
  }

  /** Pairs of the rows i, i+1, ..., n-1, row by row, left to right. */
  function TriuFrom(n: nat, i: nat): seq<(nat, nat)>
    requires i <= n
    decreases n - i
  {
    if i == n then [] else seq(n - i, d requires 0 <= d < n - i => (i, i + d)) + TriuFrom(n, i + 1)
  }

  /** np.triu_indices(n), as the sequence of (row, column) pairs it zips together. */
  function TriuIndices(n: nat): (t: seq<(nat, nat)>)
    ensures |t| == NCross(n)
  {
    TriuFromLength(n, 0);
    TriuFrom(n, 0)
  }

  /** Packed position of the pair (i, j), i <= j; it is below ncross. */
  function PairIndex(n: nat, i: nat, j: nat): (k: nat)
    requires i <= j < n
    ensures k < NCross(n)
  {
    RowStartMonotone(n, i + 1, n);
    RowStart(n, i) + (j - i)
  }

  /** Packed position of the unordered pair {i, j}: the entry vector_indices[i, j]. */
  function PairIndexSym(n: nat, i: nat, j: nat): nat
    requires i < n && j < n
  {
    if i <= j then PairIndex(n, i, j) else PairIndex(n, j, i)
  }

  lemma {:induction false} RowStartClosedForm(n: nat, i: nat)
    requires i <= n
    ensures 2 * RowStart(n, i) == i * (2 * n - i + 1)
  {
    if i > 0 {
      RowStartClosedForm(n, i - 1);
      assert 2 * RowStart(n, i) == (i - 1) * (2 * n - i + 2) + 2 * (n - i + 1);
    }
  }

  lemma {:induction false} RowStartMonotone(n: nat, i: nat, j: nat)
    requires i <= j <= n
    ensures RowStart(n, i) <= RowStart(n, j)
    ensures j < n ==> RowStart(n, i) + (n - i) <= RowStart(n, j) + (n - j) + (j - i) * n
    decreases j - i
  {
    if i < j {
      RowStartMonotone(n, i, j - 1);
    }
  }

  lemma {:induction false} TriuFromLength(n: nat, i: nat)
    requires i <= n
    ensures |TriuFrom(n, i)| == RowStart(n, n) - RowStart(n, i)
    decreases n - i
  {
    RowStartMonotone(n, i, n);
    if i < n {
      TriuFromLength(n, i + 1);
    }
  }

  lemma {:induction false} TriuFromAt(n: nat, i: nat, r: nat, c: nat)
    requires i <= r <= c < n
    ensures RowStart(n, i) <= RowStart(n, r)
    ensures RowStart(n, r) - RowStart(n, i) + (c - r) < |TriuFrom(n, i)|
    ensures TriuFrom(n, i)[RowStart(n, r) - RowStart(n, i) + (c - r)] == (r, c)
    decreases r - i
  {
    TriuFromLength(n, i);
    RowStartMonotone(n, i, r);
    RowStartMonotone(n, r + 1, n);
    var head := seq(n - i, d requires 0 <= d < n - i => (i, i + d));
    assert TriuFrom(n, i) == head + TriuFrom(n, i + 1);
    if r > i {
      TriuFromAt(n, i + 1, r, c);
      assert RowStart(n, i + 1) == RowStart(n, i) + (n - i);
    }
  }

  lemma {:induction false} TriuFromInverse(n: nat, i: nat, k: nat)
    requires i <= n
    requires k < |TriuFrom(n, i)|
    ensures i <= TriuFrom(n, i)[k].0 <= TriuFrom(n, i)[k].1 < n
    ensures RowStart(n, i) <= RowStart(n, TriuFrom(n, i)[k].0)
    ensures k == RowStart(n, TriuFrom(n, i)[k].0) - RowStart(n, i) + (TriuFrom(n, i)[k].1 - TriuFrom(n, i)[k].0)
    decreases n - i
  {
    var head := seq(n - i, d requires 0 <= d < n - i => (i, i + d));
    assert TriuFrom(n, i) == head + TriuFrom(n, i + 1);
    if k >= n - i {
      TriuFromInverse(n, i + 1, k - (n - i));
      RowStartMonotone(n, i + 1, TriuFrom(n, i)[k].0);
    }
  }

  /** There are exactly ncross = n(n+1)/2 upper-triangle pairs. */
  lemma TriuIndicesCount(n: nat)
    ensures |TriuIndices(n)| == NCross(n)
  {
  }

  /** Every pair i <= j sits at its packed position, and that position is below ncross. */
  lemma TriuIndicesAt(n: nat, i: nat, j: nat)
    requires i <= j < n
    ensures PairIndex(n, i, j) < NCross(n)
    ensures TriuIndices(n)[PairIndex(n, i, j)] == (i, j)
  {
    TriuIndicesCount(n);
    TriuFromAt(n, 0, i, j);
  }

  /** Every packed position holds a pair i <= j < n whose packed position it is. */
  lemma TriuIndicesInverse(n: nat, k: nat)
    requires k < NCross(n)
    ensures TriuIndices(n)[k].0 <= TriuIndices(n)[k].1 < n
    ensures PairIndex(n, TriuIndices(n)[k].0, TriuIndices(n)[k].1) == k
  {
    TriuIndicesCount(n);
    TriuFromInverse(n, 0, k);
  }

  /** The quantified forms of TriuIndicesAt and TriuIndicesInverse. */
  lemma TriuIndicesBijection(n: nat)
    ensures |TriuIndices(n)| == NCross(n)
    ensures forall i, j :: 0 <= i <= j < n ==>
              PairIndex(n, i, j) < NCross(n) && TriuIndices(n)[PairIndex(n, i, j)] == (i, j)
    ensures forall k :: 0 <= k < NCross(n) ==>
              TriuIndices(n)[k].0 <= TriuIndices(n)[k].1 < n &&
              PairIndex(n, TriuIndices(n)[k].0, TriuIndices(n)[k].1) == k
  {
    TriuIndicesCount(n);
    forall i, j | 0 <= i <= j < n
      ensures PairIndex(n, i, j) < NCross(n) && TriuIndices(n)[PairIndex(n, i, j)] == (i, j)
    {
      TriuIndicesAt(n, i, j);
    }
    forall k | 0 <= k < NCross(n)
      ensures TriuIndices(n)[k].0 <= TriuIndices(n)[k].1 < n
      ensures PairIndex(n, TriuIndices(n)[k].0, TriuIndices(n)[k].1) == k
    {
      TriuIndicesInverse(n, k);
    }
  }

  /** Two distinct upper-triangle pairs never share a packed position. */
  lemma PairIndexInjective(n: nat, i: nat, j: nat, i': nat, j': nat)
    requires i <= j < n && i' <= j' < n
    requires PairIndex(n, i, j) == PairIndex(n, i', j')
    ensures i == i' && j == j'
  {
    TriuIndicesAt(n, i, j);
    TriuIndicesAt(n, i', j');
  }

  predicate IsSymmetric(m: Matrix, n: nat) {
    IsMatrix(m, n, n) && forall i, j :: 0 <= i < n && 0 <= j < n ==> m[i][j] == m[j][i]
  }

  /**
   * matrix_to_vector on one n x n matrix: mat[index_ut[0], index_ut[1]], the
   * upper triangle read row by row.
   */
  function MatrixToVector(n: nat, m: Matrix): (v: Vector)
    requires IsMatrix(m, n, n)
    ensures |v| == NCross(n)
    ensures forall i, j :: 0 <= i <= j < n ==> v[PairIndex(n, i, j)] == m[i][j]
  {
    TriuIndicesBijection(n);
    seq(NCross(n), k requires 0 <= k < NCross(n) => m[TriuIndices(n)[k].0][TriuIndices(n)[k].1])
  }

  /** matrix_to_vector on a stack of matrices (the leading `...` axis of the NumPy index). */
  function StackToVectors(n: nat, ms: Tensor3): (vs: Matrix)
    requires forall b :: 0 <= b < |ms| ==> IsMatrix(ms[b], n, n)
    ensures IsMatrix(vs, |ms|, NCross(n))
    ensures forall b :: 0 <= b < |ms| ==> vs[b] == MatrixToVector(n, ms[b])
  {
    seq(|ms|, b requires 0 <= b < |ms| => MatrixToVector(n, ms[b]))
  }

  /** matrix_to_vector(ms).flatten(): the packed pairs of every matrix, matrix after matrix. */
  function PackStack(n: nat, ms: Tensor3): (v: Vector)
    requires forall b :: 0 <= b < |ms| ==> IsMatrix(ms[b], n, n)
    ensures |v| == |ms| * NCross(n)
  {
    var vs := StackToVectors(n, ms);
    FlattenLength(vs, |ms|, NCross(n));
    Flatten(vs)
  }

  /** Entry b * ncross + k of the packed stack is matrix b at the k-th packed pair (i, j). */
  lemma PackStackAt(n: nat, ms: Tensor3, b: nat, i: nat, j: nat, k: nat)
    requires forall b :: 0 <= b < |ms| ==> IsMatrix(ms[b], n, n)
    requires b < |ms| && i <= j < n && k == b * NCross(n) + PairIndex(n, i, j)
    ensures k < |PackStack(n, ms)| && PackStack(n, ms)[k] == ms[b][i][j]
  {
    var vs := StackToVectors(n, ms);
    FlattenAt(vs, |ms|, NCross(n), b, PairIndex(n, i, j));
  }

  /**
   * NumPy broadcasting of a 1-D value array onto the ncross packed slots: the
   * array must have ncross entries, or a single entry that fills every slot.
   */
  predicate Broadcastable(n: nat, len: nat) {
    len == NCross(n) || len == 1
  }

  function Broadcast(vec: Vector, k: nat): real
    requires |vec| == 1 || k < |vec|
  {
    if |vec| == 1 then vec[0] else vec[k]
  }

  /**
   * The symmetric matrix whose upper triangle holds the (broadcast) packed
   * values: the value vector_to_matrix produces from a 1-D input.
   */
  function Unpack(n: nat, vec: Vector): (m: Matrix)
    requires Broadcastable(n, |vec|)
    ensures IsMatrix(m, n, n)
  {
    TriuIndicesBijection(n);
    seq(n, i requires 0 <= i < n =>
      seq(n, j requires 0 <= j < n => Broadcast(vec, PairIndexSym(n, i, j))))
  }

  /** vector_to_matrix applied row by row to a 2-D input. */
  function UnpackStack(n: nat, rows: Matrix, cols: nat): (ms: Tensor3)
    requires IsMatrix(rows, |rows|, cols) && Broadcastable(n, cols)
    ensures IsTensor3(ms, |rows|, n, n)
  {
    seq(|rows|, b requires 0 <= b < |rows| => Unpack(n, rows[b]))
  }

  /** The unpacked matrix is symmetric and its diagonal holds the stored value, not twice it. */
  lemma UnpackSymmetric(n: nat, vec: Vector)
    requires Broadcastable(n, |vec|)
    ensures IsSymmetric(Unpack(n, vec), n)
    ensures |vec| == NCross(n) ==>
              forall i :: 0 <= i < n ==> Unpack(n, vec)[i][i] == vec[PairIndex(n, i, i)]
  {
  }

  /** Round trip one way: packing the unpacked vector gives the vector back. */
  lemma PackUnpack(n: nat, vec: Vector)
    requires |vec| == NCross(n)
    ensures MatrixToVector(n, Unpack(n, vec)) == vec
  {
    var v := MatrixToVector(n, Unpack(n, vec));
    TriuIndicesBijection(n);
    forall k | 0 <= k < NCross(n) ensures v[k] == vec[k] {
      var (i, j) := TriuIndices(n)[k];
      assert v[PairIndex(n, i, j)] == Unpack(n, vec)[i][j];
    }
  }

  /** Round trip the other way: a symmetric matrix is rebuilt from its upper triangle. */
  lemma UnpackPack(n: nat, m: Matrix)
    requires IsSymmetric(m, n)
    ensures |MatrixToVector(n, m)| == NCross(n)
    ensures Unpack(n, MatrixToVector(n, m)) == m
  {
    var v := MatrixToVector(n, m);
    var u := Unpack(n, v);
    forall i, j | 0 <= i < n && 0 <= j < n ensures u[i][j] == m[i][j] {
      UnpackPackAt(n, m, i, j);
    }
    MatrixEq(u, m, n, n);
  }

  lemma UnpackPackAt(n: nat, m: Matrix, i: nat, j: nat)
    requires IsSymmetric(m, n)
    requires i < n && j < n
    ensures Unpack(n, MatrixToVector(n, m))[i][j] == m[i][j]
  {
    var v := MatrixToVector(n, m);
    if n == 1 {
      assert PairIndex(n, 0, 0) == 0;
    }
    if i <= j {
      assert Unpack(n, v)[i][j] == v[PairIndex(n, i, j)];
    } else {
      assert Unpack(n, v)[i][j] == v[PairIndex(n, j, i)] == m[j][i];
    }
  }

  /** The array handed to vector_to_matrix: 1-D, 2-D (rows of `cols` entries) or of any other rank. */
  datatype NdArray = Rank1(vec: Vector) | Rank2(rows: Matrix, cols: nat) | OtherRank(ndim: nat)

  predicate WellShaped(x: NdArray) {
    match x
    case Rank1(_) => true
    case Rank2(rows, cols) => IsMatrix(rows, |rows|, cols)
    case OtherRank(d) => d != 1 && d != 2
  }

  /** What vector_to_matrix returns: one n x n matrix, or a stack of them. */
  datatype Unpacked = Single(mat: Matrix) | Stacked(mats: Tensor3)

  /**
   * ShapeMismatch is NumPy's broadcast failure in the index assignment;
   * NotOneOrTwoDimensional is the ValueError raised for other ranks.
   */
  datatype PackingError = ShapeMismatch | NotOneOrTwoDimensional

  /** Entry (i, j) of np.zeros after `mat[index_ut] = vec`: the upper triangle filled, the rest zero. */
  function UpperFilled(n: nat, vec: Vector, i: nat, j: nat): real
    requires Broadcastable(n, |vec|) && i < n && j < n
  {
    if i <= j then Broadcast(vec, PairIndex(n, i, j)) else 0.0
  }

  /** `m + m.T - np.diag(m.diagonal())` turns the filled upper triangle into the symmetric matrix. */
  lemma MirrorUpper(n: nat, vec: Vector, i: nat, j: nat)
    requires Broadcastable(n, |vec|) && i < n && j < n
    ensures UpperFilled(n, vec, i, j) + UpperFilled(n, vec, j, i)
              - (if i == j then UpperFilled(n, vec, i, i) else 0.0) == Unpack(n, vec)[i][j]
  {
  }

  /** vector_to_matrix on a 1-D input of broadcastable length. */
  method UnpackVector(n: nat, vec: Vector) returns (m: Matrix)
    requires Broadcastable(n, |vec|)
    ensures m == Unpack(n, vec)
  {
    var mat := new real[n, n]((i, j) => 0.0);
    var t := TriuIndices(n);
    TriuIndicesBijection(n);
    // store the packed entries in the upper triangle
    var k := 0;
    while k < |t|
      invariant 0 <= k <= |t|
      invariant forall i, j :: 0 <= i < n && 0 <= j < n ==>
                  mat[i, j] == (if i <= j && PairIndex(n, i, j) < k then UpperFilled(n, vec, i, j) else 0.0)
    {
      mat[t[k].0, t[k].1] := Broadcast(vec, k);
      k := k + 1;
    }
    // mirror the upper triangle into the lower one, keeping the diagonal once
    var sym := new real[n, n]((i, j) reads mat requires 0 <= i < n && 0 <= j < n =>
                 mat[i, j] + mat[j, i] - (if i == j then mat[i, i] else 0.0));
    m := seq(n, i requires 0 <= i < n reads sym => seq(n, j requires 0 <= j < n reads sym => sym[i, j]));
    forall i, j | 0 <= i < n && 0 <= j < n ensures m[i][j] == Unpack(n, vec)[i][j] {
      MirrorUpper(n, vec, i, j);
    }
    MatrixEq(m, Unpack(n, vec), n, n);
  }

  /** `mat[b][index_ut] = vec` on slice b of a stack: writes the upper triangle of that slice. */
  method FillUpperSlice(mat: array3<real>, b: nat, vec: Vector)
    requires b < mat.Length0 && Broadcastable(mat.Length1, |vec|) && mat.Length2 == mat.Length1
    modifies mat
    ensures forall x, i, j :: 0 <= x < mat.Length0 && 0 <= i < mat.Length1 && 0 <= j < mat.Length2 ==>
              mat[x, i, j] == if x == b && i <= j then UpperFilled(mat.Length1, vec, i, j) else old(mat[x, i, j])
  {
    var n := mat.Length1;
    var t := TriuIndices(n);
    TriuIndicesBijection(n);
    var k := 0;
    while k < |t|
      invariant 0 <= k <= |t|
      invariant forall x, i, j :: 0 <= x < mat.Length0 && 0 <= i < n && 0 <= j < n ==>
                  mat[x, i, j] == (if x == b && i <= j && PairIndex(n, i, j) < k
                                   then UpperFilled(n, vec, i, j) else old(mat[x, i, j]))
    {
      mat[b, t[k].0, t[k].1] := Broadcast(vec, k);
      k := k + 1;
    }
  }

  /** `mat[x] = m + m.T - np.diag(m.diagonal())` for the slice m = mat[x]. */
  method MirrorSlice(mat: array3<real>, x: nat)
    requires x < mat.Length0 && mat.Length2 == mat.Length1
    modifies mat
    ensures forall y, i, j :: 0 <= y < mat.Length0 && 0 <= i < mat.Length1 && 0 <= j < mat.Length2 ==>
              mat[y, i, j] == if y == x then old(mat[x, i, j] + mat[x, j, i] - (if i == j then mat[x, i, i] else 0.0))
                              else old(mat[y, i, j])
  {
    var n := mat.Length1;
    // the right-hand side is evaluated before the slice is overwritten, hence the copy
    var m := new real[n, n]((i, j) reads mat requires 0 <= i < n && 0 <= j < n => mat[x, i, j]);
    forall i, j | 0 <= i < n && 0 <= j < n {
      mat[x, i, j] := m[i, j] + m[j, i] - (if i == j then m[i, i] else 0.0);
    }
  }

  /** vector_to_matrix on a 2-D input whose rows have a broadcastable length. */
  method UnpackRows(n: nat, rows: Matrix, cols: nat) returns (ms: Tensor3)
    requires IsMatrix(rows, |rows|, cols) && Broadcastable(n, cols)
    ensures ms == UnpackStack(n, rows, cols)
  {
    var depth := |rows|;
    var mat := new real[depth, n, n]((b, i, j) => 0.0);
    // store each row of packed entries in the upper triangle of its slice
    var b := 0;
    while b < depth
      invariant 0 <= b <= depth
      invariant forall x, i, j :: 0 <= x < depth && 0 <= i < n && 0 <= j < n ==>
                  mat[x, i, j] == (if x < b then UpperFilled(n, rows[x], i, j) else 0.0)
    {
      FillUpperSlice(mat, b, rows[b]);
      b := b + 1;
    }
    // mirror each slice in turn, keeping its diagonal once
    var x := 0;
    while x < depth
      invariant 0 <= x <= depth
      invariant forall y, i, j :: 0 <= y < depth && 0 <= i < n && 0 <= j < n ==>
                  mat[y, i, j] == (if y < x then Unpack(n, rows[y])[i][j] else UpperFilled(n, rows[y], i, j))
    {
      MirrorSlice(mat, x);
      forall i, j | 0 <= i < n && 0 <= j < n ensures mat[x, i, j] == Unpack(n, rows[x])[i][j] {
        MirrorUpper(n, rows[x], i, j);
      }
      x := x + 1;
    }
    ms := seq(depth, y requires 0 <= y < depth reads mat =>
            seq(n, i requires 0 <= i < n reads mat =>
              seq(n, j requires 0 <= j < n reads mat => mat[y, i, j])));
    Tensor3Eq(ms, UnpackStack(n, rows, cols), depth, n, n);
  }

  /**
   * vector_to_matrix: a 1-D packed vector becomes one symmetric matrix, a 2-D
   * array one symmetric matrix per row; any other rank is a ValueError.
   */
  method VectorToMatrix(n: nat, x: NdArray) returns (r: Result<Unpacked, PackingError>)
    requires WellShaped(x)
    ensures x.OtherRank? ==> r == Err(NotOneOrTwoDimensional)
    ensures x.Rank1? ==> r == if Broadcastable(n, |x.vec|) then Ok(Single(Unpack(n, x.vec))) else Err(ShapeMismatch)
    ensures x.Rank2? ==> r == if Broadcastable(n, x.cols) then Ok(Stacked(UnpackStack(n, x.rows, x.cols)))
                              else Err(ShapeMismatch)
  {
    match x
    case Rank1(vec) =>
      if !Broadcastable(n, |vec|) {
        return Err(ShapeMismatch);
      }
      var m := UnpackVector(n, vec);
      r := Ok(Single(m));
    case Rank2(rows, cols) =>
      if !Broadcastable(n, cols) {
        return Err(ShapeMismatch);
      }
      var ms := UnpackRows(n, rows, cols);
      r := Ok(Stacked(ms));
    case OtherRank(_) =>
      r := Err(NotOneOrTwoDimensional);
  }

  /**
   * vector_indices = vector_to_matrix(np.arange(ncross)).astype(int): the
   * symmetric table of packed positions.
   */
  method VectorIndices(n: nat) returns (vi: seq<seq<int>>)
    ensures |vi| == n && forall i :: 0 <= i < n ==> |vi[i]| == n
    ensures forall i, j :: 0 <= i < n && 0 <= j < n ==> vi[i][j] == PairIndexSym(n, i, j)
  {
    var arange := seq(NCross(n), k requires 0 <= k < NCross(n) => k as real);
    var r := VectorToMatrix(n, Rank1(arange));
    if n == 1 {
      assert PairIndex(n, 0, 0) == 0;
    }
    var m: Matrix := r.value.mat;
    vi := seq(n, i requires 0 <= i < n => seq(n, j requires 0 <= j < n => m[i][j].Floor));
  }

  /**
   * The table is symmetric and its upper triangle lists 0, ..., ncross-1, each
   * exactly once: every packed position k is hit by exactly one pair i <= j.
   */
  lemma VectorIndicesEnumerate(n: nat, k: nat)
    requires k < NCross(n)
    ensures exists i, j :: 0 <= i <= j < n && PairIndexSym(n, i, j) == k
    ensures forall i, j, i', j' ::
              (0 <= i <= j < n && 0 <= i' <= j' < n && PairIndexSym(n, i, j) == k && PairIndexSym(n, i', j') == k)
              ==> i == i' && j == j'
    ensures forall i, j :: 0 <= i < n && 0 <= j < n ==> PairIndexSym(n, i, j) == PairIndexSym(n, j, i)
  {
    TriuIndicesInverse(n, k);
    var (i, j) := TriuIndices(n)[k];
    assert PairIndexSym(n, i, j) == k;
    forall i, j, i', j' | 0 <= i <= j < n && 0 <= i' <= j' < n &&
              PairIndexSym(n, i, j) == k && PairIndexSym(n, i', j') == k
      ensures i == i' && j == j'
    {
      PairIndexInjective(n, i, j, i', j');
    }
  }
}
