/**
 * The Gaussian likelihood of BBCompSep: the residual `chi_sq_dx` (data minus
 * model, packed pair by pair and flattened bin-major) and `lnprob`, which
 * returns -inf on a non-finite prior before building any parameters and
 * otherwise adds -1/2 dx^T invcov dx to the prior.
 */
module Likelihood {
  import opened LinAlg
  import opened Packing
  import opened SaccSetup
  import opened ForwardModel

  /** A float as far as np.isfinite and `-np.inf` are concerned. */
  datatype ExtReal = Finite(v: real) | NegInf | PosInf | NaN

  /** Entrywise difference of two stacks of matrices of the same shape. */
  function Residual(a: Tensor3, m: Tensor3, depth: nat, rows: nat, cols: nat): (d: Tensor3)
    requires IsTensor3(a, depth, rows, cols) && IsTensor3(m, depth, rows, cols)
    ensures IsTensor3(d, depth, rows, cols)
    ensures forall b, i, j :: 0 <= b < depth && 0 <= i < rows && 0 <= j < cols ==> d[b][i][j] == a[b][i][j] - m[b][i][j]
  {
    seq(depth, b requires 0 <= b < depth =>
      seq(rows, i requires 0 <= i < rows =>
        seq(cols, j requires 0 <= j < cols => a[b][i][j] - m[b][i][j])))
  }

  /** The data and the model are both n_bpws x nmaps x nmaps. */
  predicate Comparable(st: Setup, sky: Sky) {
    && ModelReady(st, |sky.cmbBbr|) && SkyFits(sky, st.nmaps)
    && IsTensor3(st.bbdata, st.nBpws, st.nmaps, st.nmaps)
  }

  /** chi_sq_dx: matrix_to_vector(bbdata - model).flatten(), n_bpws * ncross entries. */
  function ChiSqDx(st: Setup, sky: Sky): (dx: Vector)
    requires Comparable(st, sky)
    ensures |dx| == st.nBpws * NCross(st.nmaps)
  {
    var n, nb := st.nmaps, st.nBpws;
    PackStack(n, Residual(st.bbdata, ModelTensor(st, sky), nb, n, n))
  }

  /**
   * Position k = b * ncross + PairIndex(i, j) of the residual holds data minus
   * model of bin b at the pair (i, j), i <= j.
   */
  lemma ChiSqDxAt(st: Setup, sky: Sky, b: nat, i: nat, j: nat, k: nat)
    requires Comparable(st, sky) && b < st.nBpws && i <= j < st.nmaps
    requires k == b * NCross(st.nmaps) + PairIndex(st.nmaps, i, j)
    ensures k < |ChiSqDx(st, sky)|
    ensures ChiSqDx(st, sky)[k] == st.bbdata[b][i][j] - ModelTensor(st, sky)[b][i][j]
  {
    ResidualPackedAt(st.bbdata, ModelTensor(st, sky), st.nBpws, st.nmaps, b, i, j, k);
  }

  lemma ResidualPackedAt(data: Tensor3, model: Tensor3, nb: nat, n: nat, b: nat, i: nat, j: nat, k: nat)
    requires IsTensor3(data, nb, n, n) && IsTensor3(model, nb, n, n) && b < nb && i <= j < n
    requires k == b * NCross(n) + PairIndex(n, i, j)
    ensures k < |PackStack(n, Residual(data, model, nb, n, n))|
    ensures PackStack(n, Residual(data, model, nb, n, n))[k] == data[b][i][j] - model[b][i][j]
  {
    PackStackAt(n, Residual(data, model, nb, n, n), b, i, j, k);
  }

  /** When the data equal the model the residual is all zeros. */
  lemma ChiSqDxOfExactFit(st: Setup, sky: Sky)
    requires Comparable(st, sky) && st.bbdata == ModelTensor(st, sky)
    ensures forall k :: 0 <= k < |ChiSqDx(st, sky)| ==> ChiSqDx(st, sky)[k] == 0.0
  {
    var n, nb, nc := st.nmaps, st.nBpws, NCross(st.nmaps);
    var dx := ChiSqDx(st, sky);
    forall k | 0 <= k < |dx| ensures dx[k] == 0.0 {
      var b, x := Decompose(k, nb, nc);
      TriuIndicesInverse(n, x);
      var p := TriuIndices(n)[x];
      ChiSqDxAt(st, sky, b, p.0, p.1, k);
    }
  }

  /**
   * np.einsum('i, ij, j', dx, invcov, dx). A zero residual gives zero, and
   * QuadFormIsEinsum spells it out as the double sum over i and j.
   */
  function QuadForm(dx: Vector, invcov: Matrix): (q: real)
    requires IsMatrix(invcov, |dx|, |dx|)
    ensures (forall k :: 0 <= k < |dx| ==> dx[k] == 0.0) ==> q == 0.0
  {
    var mv := MatVec(invcov, dx);
    if forall k :: 0 <= k < |dx| ==> dx[k] == 0.0 then
      DotOfZero(dx, mv);
      Dot(dx, mv)
    else
      Dot(dx, mv)
  }

  /** The sum over i of dx[i] times the sum over j of invcov[i, j] * dx[j]. */
  function Einsum(dx: Vector, invcov: Matrix): real
    requires IsMatrix(invcov, |dx|, |dx|)
  {
    Sum(seq(|dx|, i requires 0 <= i < |dx| => dx[i] * Sum(Products(invcov[i], dx))))
  }

  /** The quadratic form is the double sum einsum('i, ij, j') names. */
  lemma QuadFormIsEinsum(dx: Vector, invcov: Matrix)
    requires IsMatrix(invcov, |dx|, |dx|)
    ensures QuadForm(dx, invcov) == Einsum(dx, invcov)
  {
    var mv := MatVec(invcov, dx);
    DotAsSum(dx, mv);
    var rows := seq(|dx|, i requires 0 <= i < |dx| => dx[i] * Sum(Products(invcov[i], dx)));
    forall i | 0 <= i < |dx|
      ensures Products(dx, mv)[i] == rows[i]
    {
      DotAsSum(invcov[i], dx);
    }
    assert Products(dx, mv) == rows;
  }

  /** The elementwise products a[i] * b[i]. */
  function Products(a: Vector, b: Vector): (r: Vector)
    requires |a| == |b|
    ensures |r| == |a| && forall i :: 0 <= i < |a| ==> r[i] == a[i] * b[i]
  {
    seq(|a|, i requires 0 <= i < |a| => a[i] * b[i])
  }

  /** np.dot is the sum of the elementwise products. */
  lemma {:induction false} DotAsSum(a: Vector, b: Vector)
    requires |a| == |b|
    ensures Dot(a, b) == Sum(Products(a, b))
  {
    if |a| > 0 {
      DotAsSum(a[1..], b[1..]);
      var p, p' := Products(a, b), Products(a[1..], b[1..]);
      assert forall i :: 0 <= i < |p'| ==> p[1..][i] == p'[i];
      assert p[1..] == p';
    }
  }

  lemma {:induction false} DotOfZero(a: Vector, b: Vector)
    requires |a| == |b| && forall k :: 0 <= k < |a| ==> a[k] == 0.0
    ensures Dot(a, b) == 0.0
  {
    if |a| > 0 {
      DotOfZero(a[1..], b[1..]);
    }
  }

  /** No residual makes the quadratic form negative. */
  ghost predicate PositiveSemidefinite(m: Matrix, size: nat) {
    IsMatrix(m, size, size) && forall x: Vector :: |x| == size ==> QuadForm(x, m) >= 0.0
  }

  /**
   * The inputs of lnprob: the prior and parameter builder of the parameter
   * manager, the H&L residual (not modelled), the stored setup and invcov.
   */
  datatype Posterior = Posterior(
    lnprior: seq<real> -> ExtReal,
    buildParams: seq<real> -> Sky,
    handlDx: Sky -> Vector,
    st: Setup,
    invcov: Matrix)

  /** dx for the built parameters fits invcov, on either likelihood branch. */
  predicate Evaluable(post: Posterior, par: seq<real>) {
    var sky := post.buildParams(par);
    var size := post.st.nBpws * NCross(post.st.nmaps);
    && Comparable(post.st, sky)
    && IsMatrix(post.invcov, size, size)
    && (post.st.useHandl ==> |post.handlDx(sky)| == size)
  }

  /** The residual of the branch the setup chose. */
  function Dx(post: Posterior, par: seq<real>): (dx: Vector)
    requires Evaluable(post, par)
    ensures |dx| == |post.invcov|
  {
    var sky := post.buildParams(par);
    if post.st.useHandl then post.handlDx(sky)
    else ChiSqDx(post.st, sky)
  }

  /** lnprob(par). */
  function LnProb(post: Posterior, par: seq<real>): (r: ExtReal)
    requires post.lnprior(par).Finite? ==> Evaluable(post, par)
    ensures !post.lnprior(par).Finite? <==> r == NegInf
  {
    var prior := post.lnprior(par);
    if !prior.Finite? then NegInf
    else
      var dx := Dx(post, par);
      var like := -0.5 * QuadForm(dx, post.invcov);
      Finite(prior.v + like)
  }

  /**
   * A non-finite prior decides the result before the parameters are built:
   * whatever the builder, the residual and invcov, lnprob is -inf.
   */
  lemma NonFinitePriorShortCircuits(post: Posterior, post': Posterior, par: seq<real>)
    requires post'.lnprior == post.lnprior && !post.lnprior(par).Finite?
    ensures LnProb(post, par) == LnProb(post', par) == NegInf
  {
  }

  /** Under the chi-square branch, a model that reproduces the data scores exactly its prior. */
  lemma ExactFitScoresPrior(post: Posterior, par: seq<real>)
    requires post.lnprior(par).Finite? && Evaluable(post, par) && !post.st.useHandl
    requires post.st.bbdata == ModelTensor(post.st, post.buildParams(par))
    ensures LnProb(post, par) == post.lnprior(par)
  {
    var sky := post.buildParams(par);
    ChiSqDxOfExactFit(post.st, sky);
  }

  /** With a positive semidefinite invcov the likelihood term never exceeds zero. */
  lemma LnProbAtMostPrior(post: Posterior, par: seq<real>)
    requires post.lnprior(par).Finite? && Evaluable(post, par)
    requires PositiveSemidefinite(post.invcov, |post.invcov|)
    ensures LnProb(post, par).Finite? && LnProb(post, par).v <= post.lnprior(par).v
  {
    var dx := Dx(post, par);
    QuadFormNonNegative(dx, post.invcov);
    var q := QuadForm(dx, post.invcov);
    assert LnProb(post, par) == Finite(post.lnprior(par).v + -0.5 * q);
  }

  lemma QuadFormNonNegative(dx: Vector, invcov: Matrix)
    requires PositiveSemidefinite(invcov, |dx|)
    ensures QuadForm(dx, invcov) >= 0.0
  {
  }
}
