/**
 * `BBCompSep.parse_sacc_file`: reading the coadded SACC file into the
 * arrays the likelihood works on.
 *
 * The SACC contents come in as plain sequences: the tracers (one per
 * frequency channel, with frequencies `z` and response `Nz`), the bandpower
 * windows, the sorted list of spectra (channel pair, ell centres, indices of
 * their data points), the mean vector and the covariance matrix. For the
 * H&L likelihood the mean vectors of the noise and fiducial files come in
 * too. The setup builds one Bandpass per channel with trapezoid weights,
 * checks the sizes, and scatters the windows, the means and the covariance
 * into arrays indexed by (bandpower, channel pair).
 */
module SaccSetup {
  import opened Wrappers
  import opened LinAlg
  import opened Packing
  import opened Bandpasses

  /** A SACC tracer: the frequencies `z` of one channel and its response `Nz`. */
  datatype Tracer = Tracer(z: Vector, nz: Vector)

  /** A bandpower window: the multipoles it is sampled at and its weights there. */
  datatype BinWindow = BinWindow(ls: seq<int>, w: Vector)

  /** An entry of `sortTracers()`: the two channels, the ell centres and the indices of the data points. */
  datatype Spectrum = Spectrum(t1: nat, t2: nat, ells: Vector, ndx: seq<nat>)

  /** The BB part of a SACC file (after `cullType`). */
  datatype Sacc = Sacc(tracers: seq<Tracer>, windows: seq<BinWindow>, order: seq<Spectrum>,
                       mean: Vector, covariance: Matrix)

  /** What the stage reads: the coadded file, the noise and fiducial means, and the likelihood type. */
  datatype SetupInputs = SetupInputs(coadded: Sacc, noiseMean: Vector, fiducialMean: Vector, likelihoodType: string)

  /** The ways the setup can fail, in the order the code meets them. */
  datatype SetupError =
    | TooFewFrequencies(tracer: nat)
    | NoWindows
    | NoSpectra
    | MeanSizeMismatch
    | EllSamplingMismatch(entry: nat)

  /** Everything the setup stores on the stage. */
  datatype Setup = Setup(
    useHandl: bool,
    nmaps: nat,
    ncross: nat,
    bpwL: seq<int>,
    nBpws: nat,
    windows: Tensor3,
    vectorIndices: seq<seq<int>>,
    bbdata: Tensor3,
    bbnoise: Option<Tensor3>,
    bbfiducial: Option<Tensor3>,
    bbcovar: Matrix)

  predicate UsesHandl(inp: SetupInputs) {
    inp.likelihoodType == "h&l"
  }

  /**
   * What the SACC format guarantees and the code relies on without checking:
   * channel numbers and data indices are in range, each spectrum has one index
   * per ell centre, every window has a weight per multipole of the first
   * window's grid, the covariance is square, and each tracer's response has a
   * value per frequency.
   */
  predicate WellFormed(s: Sacc) {
    && (forall e :: 0 <= e < |s.order| ==>
          s.order[e].t1 < |s.tracers| && s.order[e].t2 < |s.tracers| && |s.order[e].ndx| == |s.order[e].ells|)
    && (forall e, b :: 0 <= e < |s.order| && 0 <= b < |s.order[e].ndx| ==>
          s.order[e].ndx[b] < |s.windows| && s.order[e].ndx[b] < |s.mean|)
    && (forall i :: 0 <= i < |s.windows| ==> |s.windows[i].w| == |s.windows[0].ls|)
    && IsMatrix(s.covariance, |s.mean|, |s.mean|)
    && (forall i :: 0 <= i < |s.tracers| ==> |s.tracers[i].nz| == |s.tracers[i].z|)
  }

  // ---------------------------------------------------------------------
  // Trapezoid weights of a bandpass
  // ---------------------------------------------------------------------

  /** The weight of sample i: half the distance between its neighbours inside, the adjacent interval at the ends. */
  function TrapezoidAt(nu: Vector, i: nat): real
    requires 2 <= |nu| && i < |nu|
  {
    if i == |nu| - 1 then nu[i] - nu[i - 1]
    else if i == 0 then nu[1] - nu[0]
    else 0.5 * (nu[i + 1] - nu[i - 1])
  }

  function Trapezoid(nu: Vector): (dnu: Vector)
    requires 2 <= |nu|
    ensures |dnu| == |nu|
  {
    seq(|nu|, i requires 0 <= i < |nu| => TrapezoidAt(nu, i))
  }

  /** The `dnu` array of the bandpass loop; None where indexing `nu[1]` fails. */
  method TrapezoidWeights(nu: Vector) returns (dnu: Option<Vector>)
    ensures dnu.None? <==> |nu| < 2
    ensures dnu.Some? ==> dnu.value == Trapezoid(nu)
  {
    if |nu| < 2 {
      return None;
    }
    var n := |nu|;
    var a := new real[n](_ => 0.0);
    forall i | 1 <= i < n - 1 {
      a[i] := 0.5 * (nu[i + 1] - nu[i - 1]);
    }
    a[0] := nu[1] - nu[0];
    a[n - 1] := nu[n - 1] - nu[n - 2];
    assert forall i :: 0 <= i < n ==> a[i] == TrapezoidAt(nu, i);
    return Some(a[..]);
  }

  /** Strictly increasing frequencies give positive weights. */
  lemma TrapezoidPositive(nu: Vector)
    requires 2 <= |nu|
    requires forall i :: 0 <= i < |nu| - 1 ==> nu[i] < nu[i + 1]
    ensures forall i :: 0 <= i < |nu| ==> Trapezoid(nu)[i] > 0.0
  {
    forall i | 0 <= i < |nu| ensures Trapezoid(nu)[i] > 0.0 {
      if 0 < i < |nu| - 1 {
        assert nu[i - 1] < nu[i] && nu[i] < nu[i + 1];
      }
    }
  }

  /**
   * The interior weights telescope: the weights add up to the width of the
   * band plus half of each end interval (the end samples get a whole
   * interval rather than the half the trapezoid rule gives them).
   */
  lemma TrapezoidTotal(nu: Vector)
    requires 2 <= |nu|
    ensures Sum(Trapezoid(nu)) ==
              (nu[|nu| - 1] - nu[0]) + 0.5 * (nu[1] - nu[0]) + 0.5 * (nu[|nu| - 1] - nu[|nu| - 2])
  {
    var n := |nu|;
    var t := Trapezoid(nu);
    TrapezoidPrefix(nu, n - 1);
    SumSnoc(t);
    assert t[..n - 1] == t[..|t| - 1];
  }

  /** The first k weights (1 <= k < |nu|) add up to the first interval plus half of the telescoped middle. */
  lemma {:induction false} TrapezoidPrefix(nu: Vector, k: nat)
    requires 2 <= |nu| && 1 <= k <= |nu| - 1
    ensures Sum(Trapezoid(nu)[..k]) == (nu[1] - nu[0]) + 0.5 * ((nu[k] + nu[k - 1]) - (nu[1] + nu[0]))
  {
    var t := Trapezoid(nu);
    if k == 1 {
      assert t[..1][1..] == [];
    } else {
      TrapezoidPrefix(nu, k - 1);
      SumSnoc(t[..k]);
      assert t[..k][..k - 1] == t[..k - 1];
      assert t[k - 1] == 0.5 * (nu[k] - nu[k - 2]);
    }
  }

  /** A sum splits off its last term. */
  lemma {:induction false} SumSnoc(s: Vector)
    requires |s| > 0
    ensures Sum(s) == Sum(s[..|s| - 1]) + s[|s| - 1]
  {
    if |s| > 1 {
      SumSnoc(s[1..]);
      assert s[1..][..|s| - 2] == s[..|s| - 1][1..];
    }
  }

  // ---------------------------------------------------------------------
  // The bandpass loop
  // ---------------------------------------------------------------------

  /** Every tracer has at least the two frequencies the trapezoid weights index. */
  predicate AllSampled(tracers: seq<Tracer>) {
    forall i :: 0 <= i < |tracers| ==> 2 <= |tracers[i].z|
  }

  /**
   * No tracer's CMB-weighted response sums to zero, so each nu_mean is a
   * number (the code would store nan or inf there; the model does not
   * represent those).
   */
  predicate Weighable(tracers: seq<Tracer>, prim: Primitives) {
    forall i :: 0 <= i < |tracers| ==> Normalisable(tracers[i], prim)
  }

  /** A sampled tracer's CMB-weighted response with trapezoid weights has a non-zero sum. */
  predicate Normalisable(t: Tracer, prim: Primitives) {
    2 <= |t.z| && |t.nz| == |t.z| ==> Sum(CmbWeight(t.z, Product(t.nz, Trapezoid(t.z)), prim.cmb)) != 0.0
  }

  /** bp is `Bandpass(t.z, dnu, t.Nz, number, config)` with the trapezoid weights of t. */
  ghost predicate BuiltFrom(bp: Bandpass, t: Tracer, number: nat, cfg: SystematicsConfig, prim: Primitives)
    reads bp
  {
    2 <= |t.z| && bp.Constructed(t.z, Trapezoid(t.z), t.nz, number, cfg, prim)
  }

  /** `Bandpass(t.z, dnu, t.Nz, number, config)`. */
  method MakeBandpass(t: Tracer, dnu: Vector, number: nat, cfg: SystematicsConfig, prim: Primitives)
    returns (bp: Bandpass)
    requires 2 <= |t.z| && |t.nz| == |t.z| && dnu == Trapezoid(t.z) && Normalisable(t, prim)
    ensures fresh(bp) && BuiltFrom(bp, t, number, cfg, prim)
  {
    bp := new Bandpass(t.z, dnu, t.nz, number, cfg, prim);
  }

  /** Each of bpss is built from the tracer at its position. */
  ghost predicate AllBuilt(bpss: seq<Bandpass>, tracers: seq<Tracer>, cfg: SystematicsConfig, prim: Primitives)
    reads bpss
  {
    |bpss| <= |tracers| && forall j :: 0 <= j < |bpss| ==> BuiltFrom(bpss[j], tracers[j], j + 1, cfg, prim)
  }

  /** The loop over the tracers: one Bandpass per channel, numbered from 1. */
  method CollectBandpasses(tracers: seq<Tracer>, cfg: SystematicsConfig, prim: Primitives)
    returns (r: Result<seq<Bandpass>, SetupError>)
    requires forall i :: 0 <= i < |tracers| ==> |tracers[i].nz| == |tracers[i].z|
    requires Weighable(tracers, prim)
    ensures r.Ok? <==> AllSampled(tracers)
    ensures r.Err? ==> && r.error.TooFewFrequencies?
                       && r.error.tracer < |tracers| && |tracers[r.error.tracer].z| < 2
                       && forall i :: 0 <= i < r.error.tracer ==> 2 <= |tracers[i].z|
    ensures r.Ok? ==> |r.value| == |tracers|
    ensures r.Ok? ==> forall i :: 0 <= i < |tracers| ==> BuiltFrom(r.value[i], tracers[i], i + 1, cfg, prim)
  {
    var bpss: seq<Bandpass> := [];
    var i := 0;
    while i < |tracers|
      invariant 0 <= i <= |tracers| && |bpss| == i
      invariant forall j :: 0 <= j < i ==> 2 <= |tracers[j].z|
      invariant AllBuilt(bpss, tracers, cfg, prim)
    {
      var t := tracers[i];
      var dnu := TrapezoidWeights(t.z);
      if dnu.None? {
        assert |tracers[i].z| < 2;
        return Err(TooFewFrequencies(i));
      }
      bpss := AppendBandpass(bpss, tracers, dnu.value, cfg, prim);
      i := i + 1;
    }
    return Ok(bpss);
  }

  /** One pass of the loop body once the weights exist: the next channel's Bandpass goes on the end. */
  method AppendBandpass(bpss: seq<Bandpass>, tracers: seq<Tracer>, dnu: Vector, cfg: SystematicsConfig, prim: Primitives)
    returns (bpss': seq<Bandpass>)
    requires |bpss| < |tracers| && 2 <= |tracers[|bpss|].z| && |tracers[|bpss|].nz| == |tracers[|bpss|].z|
    requires dnu == Trapezoid(tracers[|bpss|].z) && Normalisable(tracers[|bpss|], prim)
    requires AllBuilt(bpss, tracers, cfg, prim)
    ensures |bpss'| == |bpss| + 1 && AllBuilt(bpss', tracers, cfg, prim)
  {
    var bp := MakeBandpass(tracers[|bpss|], dnu, |bpss| + 1, cfg, prim);
    AllBuiltSnoc(bpss, bp, tracers, cfg, prim);
    bpss' := bpss + [bp];
  }

  lemma AllBuiltSnoc(bpss: seq<Bandpass>, bp: Bandpass, tracers: seq<Tracer>, cfg: SystematicsConfig, prim: Primitives)
    requires AllBuilt(bpss, tracers, cfg, prim) && |bpss| < |tracers|
    requires BuiltFrom(bp, tracers[|bpss|], |bpss| + 1, cfg, prim)
    ensures AllBuilt(bpss + [bp], tracers, cfg, prim)
  {
    var bpss' := bpss + [bp];
    forall j | 0 <= j < |bpss'| ensures BuiltFrom(bpss'[j], tracers[j], j + 1, cfg, prim) {
      if j < |bpss| {
        assert bpss'[j] == bpss[j];
      }
    }
  }

  // ---------------------------------------------------------------------
  // The ell mask `ls > 1` of the first window
  // ---------------------------------------------------------------------

  /** How many multipoles survive the mask `ls > 1`. */
  function Kept(ls: seq<int>): nat {
    if |ls| == 0 then 0 else (if ls[0] > 1 then 1 else 0) + Kept(ls[1..])
  }

  /** Boolean-mask indexing `xs[ls > 1]`, order kept. */
  function Select<T>(xs: seq<T>, ls: seq<int>): (r: seq<T>)
    requires |xs| == |ls|
    ensures |r| == Kept(ls)
  {
    if |ls| == 0 then [] else (if ls[0] > 1 then [xs[0]] else []) + Select(xs[1..], ls[1..])
  }

  /** `bpw_l` holds exactly the multipoles of the grid above 1. */
  lemma {:induction false} SelectMembers(ls: seq<int>)
    ensures forall l :: l in Select(ls, ls) <==> l in ls && l > 1
  {
    if |ls| > 0 {
      SelectMembers(ls[1..]);
      assert ls == [ls[0]] + ls[1..];
    }
  }

  /** The i-th mask survivor is the entry at the position of the i-th multipole above 1. */
  lemma {:induction false} SelectAligned<T>(xs: seq<T>, ys: seq<T>, ls: seq<int>, i: nat)
    requires |xs| == |ls| && |ys| == |ls| && i < Kept(ls)
    ensures exists p :: 0 <= p < |ls| && ls[p] > 1 && Select(xs, ls)[i] == xs[p] && Select(ys, ls)[i] == ys[p]
  {
    if ls[0] > 1 && i == 0 {
      assert ls[0] > 1 && Select(xs, ls)[0] == xs[0] && Select(ys, ls)[0] == ys[0];
    } else {
      var j := if ls[0] > 1 then i - 1 else i;
      SelectAligned(xs[1..], ys[1..], ls[1..], j);
      var p :| 0 <= p < |ls| - 1 && ls[1..][p] > 1 && Select(xs[1..], ls[1..])[j] == xs[1..][p]
               && Select(ys[1..], ls[1..])[j] == ys[1..][p];
      assert ls[p + 1] > 1 && Select(xs, ls)[i] == xs[p + 1] && Select(ys, ls)[i] == ys[p + 1];
    }
  }

  function EllGrid(s: Sacc): seq<int>
    requires |s.windows| > 0
  {
    s.windows[0].ls
  }

  /** `windows[i].w[mask_w]`: a window's weights at the kept multipoles. */
  function MaskedWindow(s: Sacc, i: nat): (w: Vector)
    requires WellFormed(s) && 0 < |s.windows| && i < |s.windows|
    ensures |w| == Kept(EllGrid(s))
  {
    Select(s.windows[i].w, EllGrid(s))
  }

  // ---------------------------------------------------------------------
  // Scattering spectra into channel-pair slots: the last entry wins
  // ---------------------------------------------------------------------

  /** `vector_indices[t1, t2]` of entry e. */
  function Slot(s: Sacc, e: nat): nat
    requires WellFormed(s) && e < |s.order|
  {
    PairIndexSym(|s.tracers|, s.order[e].t1, s.order[e].t2)
  }

  /** The latest of the first k entries writing into slot x, if any. */
  function LastWith(s: Sacc, k: nat, x: nat): (r: Option<nat>)
    requires WellFormed(s) && k <= |s.order|
    ensures r.Some? ==> r.value < k && Slot(s, r.value) == x
    ensures r.Some? ==> forall e :: r.value < e < k ==> Slot(s, e) != x
    ensures r.None? <==> forall e :: 0 <= e < k ==> Slot(s, e) != x
  {
    if k == 0 then None
    else if Slot(s, k - 1) == x then Some(k - 1)
    else LastWith(s, k - 1, x)
  }

  /** Every spectrum is sampled at nb ell centres. */
  predicate SameSampling(s: Sacc, nb: nat) {
    forall e :: 0 <= e < |s.order| ==> |s.order[e].ells| == nb
  }

  /** Well-formed and evenly sampled: the state the scatter loop runs in. */
  predicate Scatterable(s: Sacc, nb: nat) {
    WellFormed(s) && 0 < |s.windows| && SameSampling(s, nb)
  }

  /** `self.windows` after the first k entries: slot x, bandpower b holds the masked window of that bandpower. */
  function WindowTable(s: Sacc, nb: nat, k: nat): (t: Tensor3)
    requires Scatterable(s, nb) && k <= |s.order|
    ensures IsTensor3(t, NCross(|s.tracers|), nb, Kept(EllGrid(s)))
  {
    var nc, len := NCross(|s.tracers|), Kept(EllGrid(s));
    seq(nc, x requires 0 <= x < nc =>
      seq(nb, b requires 0 <= b < nb =>
        match LastWith(s, k, x)
        case Some(e) => MaskedWindow(s, s.order[e].ndx[b])
        case None => seq(len, _ => 0.0)))
  }

  /** `v2d` after the first k entries, read from the mean vector `means`. */
  function DataTable(s: Sacc, nb: nat, means: Vector, k: nat): (t: Matrix)
    requires Scatterable(s, nb) && k <= |s.order| && |means| == |s.mean|
    ensures IsMatrix(t, nb, NCross(|s.tracers|))
  {
    var nc := NCross(|s.tracers|);
    seq(nb, b requires 0 <= b < nb =>
      seq(nc, x requires 0 <= x < nc =>
        match LastWith(s, k, x)
        case Some(e) => means[s.order[e].ndx[b]]
        case None => 0.0))
  }

  /** `cv2d[b, x, b2, x2]` once the first k entries have written their rows of blocks. */
  function CovEntry(s: Sacc, nb: nat, k: nat, b: nat, x: nat, b2: nat, x2: nat): real
    requires Scatterable(s, nb) && k <= |s.order| && b < nb && b2 < nb
  {
    match LastWith(s, k, x)
    case None => 0.0
    case Some(e) =>
      match LastWith(s, |s.order|, x2)
      case None => 0.0
      case Some(e2) => s.covariance[s.order[e].ndx[b]][s.order[e2].ndx[b2]]
  }

  /** `cv2d` as a value: n_bpws x ncross x n_bpws x ncross. */
  type Tensor4 = seq<seq<seq<seq<real>>>>

  /** t has shape nb x nc x nb x nc. */
  predicate Blocked(t: Tensor4, nb: nat, nc: nat) {
    Rectangular(t, nb, nc) && forall b, x :: 0 <= b < nb && 0 <= x < nc ==> IsMatrix(t[b][x], nb, nc)
  }

  /** `cv2d` once every entry has written its row of blocks. */
  function CovBlocks(s: Sacc, nb: nat): (t: Tensor4)
    requires Scatterable(s, nb)
    ensures Blocked(t, nb, NCross(|s.tracers|))
  {
    var nc := NCross(|s.tracers|);
    seq(nb, b requires 0 <= b < nb =>
      seq(nc, x requires 0 <= x < nc =>
        seq(nb, b2 requires 0 <= b2 < nb =>
          seq(nc, x2 requires 0 <= x2 < nc => CovEntry(s, nb, |s.order|, b, x, b2, x2)))))
  }

  /** `reshape([nb * nc, nb * nc])` in C order: row b * nc + x is block row (b, x) flattened. */
  function Reshape4(t: Tensor4, nb: nat, nc: nat): Matrix
    requires Blocked(t, nb, nc)
  {
    Flatten(seq(nb, b requires 0 <= b < nb => seq(nc, x requires 0 <= x < nc => Flatten(t[b][x]))))
  }

  /** The side of bbcovar: n_bpws * ncross. */
  function CovSize(nb: nat, nc: nat): nat {
    nb * nc
  }

  /** `bbcovar`: the reshaped `cv2d`. */
  function CovTable(s: Sacc, nb: nat): Matrix
    requires Scatterable(s, nb)
  {
    Reshape4(CovBlocks(s, nb), nb, NCross(|s.tracers|))
  }

  /** Reshape4 puts t[b][x][b2][x2] at row b * nc + x, column b2 * nc + x2. */
  lemma Reshape4At(t: Tensor4, nb: nat, nc: nat, b: nat, x: nat, b2: nat, x2: nat, row: nat, col: nat)
    requires Blocked(t, nb, nc) && b < nb && x < nc && b2 < nb && x2 < nc
    requires row == b * nc + x && col == b2 * nc + x2
    ensures |Reshape4(t, nb, nc)| == CovSize(nb, nc) && row < CovSize(nb, nc) && col < CovSize(nb, nc)
    ensures |Reshape4(t, nb, nc)[row]| == CovSize(nb, nc)
    ensures Reshape4(t, nb, nc)[row][col] == t[b][x][b2][x2]
  {
    var rows := seq(nb, b requires 0 <= b < nb => seq(nc, x requires 0 <= x < nc => Flatten(t[b][x])));
    FlattenAt(rows, nb, nc, b, x);
    FlattenAt(t[b][x], nb, nc, b2, x2);
  }

  /** Reshape4 gives a square matrix of side nb * nc. */
  lemma Reshape4Shape(t: Tensor4, nb: nat, nc: nat)
    requires Blocked(t, nb, nc)
    ensures IsMatrix(Reshape4(t, nb, nc), CovSize(nb, nc), CovSize(nb, nc))
  {
    var rows := seq(nb, b requires 0 <= b < nb => seq(nc, x requires 0 <= x < nc => Flatten(t[b][x])));
    FlattenLength(rows, nb, nc);
    forall i | 0 <= i < CovSize(nb, nc) ensures |Reshape4(t, nb, nc)[i]| == CovSize(nb, nc) {
      var b, x := Decompose(i, nb, nc);
      Reshape4At(t, nb, nc, b, x, 0, 0, i, 0);
    }
  }

  /** Every position below nb * nc is b * nc + x for a bandpower b and a slot x. */
  lemma Decompose(i: nat, nb: nat, nc: nat) returns (b: nat, x: nat)
    requires i < CovSize(nb, nc)
    ensures b < nb && x < nc && i == b * nc + x
  {
    assert nc != 0;
    b, x := i / nc, i % nc;
    MulLess(nc, b, nb);
  }

  lemma MulLess(c: nat, a: nat, b: nat)
    requires c * a < c * b
    ensures a < b
  {
  }

  // ---------------------------------------------------------------------
  // In-place writes of the scatter loop
  // ---------------------------------------------------------------------

  /** `windows[x, b, :] = rows[b]` for every bandpower b. */
  method WriteWindows(a: array3<real>, x: nat, rows: Matrix)
    requires x < a.Length0 && IsMatrix(rows, a.Length1, a.Length2)
    modifies a
    ensures Contents3(a) == old(Contents3(a))[x := rows]
  {
    ghost var before := Contents3(a);
    forall b, l | 0 <= b < a.Length1 && 0 <= l < a.Length2 {
      a[x, b, l] := rows[b][l];
    }
    Tensor3Eq(Contents3(a), before[x := rows], a.Length0, a.Length1, a.Length2);
  }

  /** `v2d[:, x] = col`. */
  method WriteColumn(a: array2<real>, x: nat, col: Vector)
    requires x < a.Length1 && |col| == a.Length0
    modifies a
    ensures Rows(a) == WithColumn(old(Rows(a)), x, col)
  {
    ghost var before := Rows(a);
    forall b | 0 <= b < a.Length0 {
      a[b, x] := col[b];
    }
    MatrixEq(Rows(a), WithColumn(before, x, col), a.Length0, a.Length1);
  }

  /** m with column x replaced by col. */
  function WithColumn(m: Matrix, x: nat, col: Vector): (r: Matrix)
    requires |col| == |m|
    ensures |r| == |m| && forall b :: 0 <= b < |m| ==> |r[b]| == |m[b]|
    ensures forall b, y :: 0 <= b < |m| && 0 <= y < |m[b]| ==> r[b][y] == if y == x then col[b] else m[b][y]
  {
    seq(|m|, b requires 0 <= b < |m| => seq(|m[b]|, y requires 0 <= y < |m[b]| => if y == x then col[b] else m[b][y]))
  }


  /** `cv2d[:, x, :, x2] = block`. */
  method WriteCovBlock(a: array4<real>, x: nat, x2: nat, block: Matrix)
    requires x < a.Length1 && x2 < a.Length3 && IsMatrix(block, a.Length0, a.Length2)
    modifies a
    ensures forall b, y, b2, y2 :: 0 <= b < a.Length0 && 0 <= y < a.Length1 && 0 <= b2 < a.Length2 && 0 <= y2 < a.Length3 ==>
              a[b, y, b2, y2] == if y == x && y2 == x2 then block[b][b2] else old(a[b, y, b2, y2])
  {
    forall b, b2 | 0 <= b < a.Length0 && 0 <= b2 < a.Length2 {
      a[b, x, b2, x2] := block[b][b2];
    }
  }

  /** `v[ndx]` for entry e. */
  function Gathered(s: Sacc, nb: nat, means: Vector, e: nat): (col: Vector)
    requires Scatterable(s, nb) && e < |s.order| && |means| == |s.mean|
    ensures |col| == nb
  {
    seq(nb, b requires 0 <= b < nb => means[s.order[e].ndx[b]])
  }

  /** `cv[ndx, :][:, ndxb]` for entries e and e2. */
  function CovBlock(s: Sacc, nb: nat, e: nat, e2: nat): (block: Matrix)
    requires Scatterable(s, nb) && e < |s.order| && e2 < |s.order|
    ensures IsMatrix(block, nb, nb)
  {
    seq(nb, b requires 0 <= b < nb =>
      seq(nb, b2 requires 0 <= b2 < nb => s.covariance[s.order[e].ndx[b]][s.order[e2].ndx[b2]]))
  }

  /** The inner loop over `self.order`: entry e writes its row of covariance blocks into slot x. */
  method WriteCovRow(a: array4<real>, s: Sacc, nb: nat, e: nat)
    requires Scatterable(s, nb) && e < |s.order|
    requires a.Length0 == nb && a.Length1 == NCross(|s.tracers|)
    requires a.Length2 == nb && a.Length3 == NCross(|s.tracers|)
    modifies a
    ensures forall b, y, b2, y2 :: 0 <= b < nb && 0 <= y < a.Length1 && 0 <= b2 < nb && 0 <= y2 < a.Length3 ==>
              a[b, y, b2, y2] ==
                if y == Slot(s, e) && LastWith(s, |s.order|, y2).Some?
                then s.covariance[s.order[e].ndx[b]][s.order[LastWith(s, |s.order|, y2).value].ndx[b2]]
                else old(a[b, y, b2, y2])
  {
    var x := Slot(s, e);
    var k := 0;
    while k < |s.order|
      invariant 0 <= k <= |s.order|
      invariant forall b, y, b2, y2 :: 0 <= b < nb && 0 <= y < a.Length1 && 0 <= b2 < nb && 0 <= y2 < a.Length3 ==>
                  a[b, y, b2, y2] ==
                    if y == x && LastWith(s, k, y2).Some?
                    then s.covariance[s.order[e].ndx[b]][s.order[LastWith(s, k, y2).value].ndx[b2]]
                    else old(a[b, y, b2, y2])
    {
      WriteCovBlock(a, x, Slot(s, k), CovBlock(s, nb, e, k));
      k := k + 1;
    }
  }

  // ---------------------------------------------------------------------
  // The setup after the bandpasses
  // ---------------------------------------------------------------------

  /** `n_bpws`: the number of ell centres of the first spectrum. */
  function NBpws(s: Sacc): nat
    requires 0 < |s.order|
  {
    |s.order[0].ells|
  }

  /** Every check of the setup passes: there is a window and a spectrum, the mean vector has n_bpws * ncross entries, and every spectrum has n_bpws ell centres. */
  predicate Accepted(s: Sacc) {
    && 0 < |s.windows|
    && 0 < |s.order|
    && |s.mean| == NBpws(s) * NCross(|s.tracers|)
    && SameSampling(s, NBpws(s))
  }

  /** The noise and fiducial means are read with the coadded file's indices. */
  predicate HandlInputsFit(inp: SetupInputs) {
    UsesHandl(inp) ==> |inp.noiseMean| == |inp.coadded.mean| && |inp.fiducialMean| == |inp.coadded.mean|
  }

  /** What the stage holds after a successful setup. */
  predicate Describes(inp: SetupInputs, st: Setup)
    requires WellFormed(inp.coadded) && Accepted(inp.coadded) && HandlInputsFit(inp)
  {
    var s := inp.coadded;
    var n, nb := |s.tracers|, NBpws(s);
    var nc := NCross(n);
    && st.useHandl == UsesHandl(inp)
    && st.nmaps == n && st.ncross == nc && st.nBpws == nb
    && st.bpwL == Select(EllGrid(s), EllGrid(s))
    && st.windows == WindowTable(s, nb, |s.order|)
    && |st.vectorIndices| == n
    && (forall i :: 0 <= i < n ==> |st.vectorIndices[i]| == n)
    && (forall i, j :: 0 <= i < n && 0 <= j < n ==> st.vectorIndices[i][j] == PairIndexSym(n, i, j))
    && st.bbdata == UnpackStack(n, DataTable(s, nb, s.mean, |s.order|), nc)
    && st.bbnoise == (if UsesHandl(inp) then Some(UnpackStack(n, DataTable(s, nb, inp.noiseMean, |s.order|), nc)) else None)
    && st.bbfiducial == (if UsesHandl(inp) then Some(UnpackStack(n, DataTable(s, nb, inp.fiducialMean, |s.order|), nc)) else None)
    && st.bbcovar == CovTable(s, nb)
  }

  /**
   * The part of `parse_sacc_file` after the bandpass loop: the ell mask, the
   * size checks and the scatter of windows, means and covariance.
   */
  method ParseSpectra(inp: SetupInputs) returns (r: Result<Setup, SetupError>)
    requires WellFormed(inp.coadded) && HandlInputsFit(inp)
    ensures |inp.coadded.windows| == 0 ==> r == Err(NoWindows)
    ensures 0 < |inp.coadded.windows| && |inp.coadded.order| == 0 ==> r == Err(NoSpectra)
    ensures (0 < |inp.coadded.windows| && 0 < |inp.coadded.order| &&
             |inp.coadded.mean| != NBpws(inp.coadded) * NCross(|inp.coadded.tracers|)) ==> r == Err(MeanSizeMismatch)
    ensures r.Err? && r.error.EllSamplingMismatch? ==>
              && 0 < |inp.coadded.order|
              && r.error.entry < |inp.coadded.order|
              && |inp.coadded.order[r.error.entry].ells| != NBpws(inp.coadded)
              && forall e :: 0 <= e < r.error.entry ==> |inp.coadded.order[e].ells| == NBpws(inp.coadded)
    ensures r.Ok? <==> Accepted(inp.coadded)
    ensures r.Ok? ==> Accepted(inp.coadded) && Describes(inp, r.value)
    ensures r.Err? ==> !r.error.TooFewFrequencies?
  {
    var s := inp.coadded;
    if |s.windows| == 0 {
      return Err(NoWindows);
    }
    if |s.order| == 0 {
      return Err(NoSpectra);
    }
    var nb := NBpws(s);
    if |s.mean| != nb * NCross(|s.tracers|) {
      return Err(MeanSizeMismatch);
    }
    // every spectrum is sampled at the same ells
    var e := 0;
    while e < |s.order|
      invariant 0 <= e <= |s.order|
      invariant forall e' :: 0 <= e' < e ==> |s.order[e'].ells| == nb
    {
      if |s.order[e].ells| != nb {
        return Err(EllSamplingMismatch(e));
      }
      e := e + 1;
    }
    var st := Scatter(inp);
    return Ok(st);
  }

  /** The arrays of an accepted file, built in place and handed back as values. */
  method Scatter(inp: SetupInputs) returns (st: Setup)
    requires WellFormed(inp.coadded) && Accepted(inp.coadded) && HandlInputsFit(inp)
    ensures Describes(inp, st)
  {
    var nb := NBpws(inp.coadded);
    var win, v2d, noi, fid, cv := Allocate(inp, nb);
    var vi := VectorIndices(|inp.coadded.tracers|);
    ScatterLoop(inp, nb, vi, win, v2d, noi, fid, cv);
    st := Assemble(inp, vi, win, v2d, noi, fid, cv);
  }

  /** The np.zeros buffers of the scatter. */
  method Allocate(inp: SetupInputs, nb: nat)
      returns (win: array3<real>, v2d: array2<real>, noi: array2<real>, fid: array2<real>, cv: array4<real>)
    requires Scatterable(inp.coadded, nb) && HandlInputsFit(inp)
    ensures fresh(win) && fresh(v2d) && fresh(noi) && fresh(fid) && fresh(cv)
    ensures Shaped(inp.coadded, nb, win, v2d, noi, fid, cv)
    ensures Snapshot(win, v2d, noi, fid, cv) == Expected(inp, nb, 0)
  {
    var s := inp.coadded;
    var nc := NCross(|s.tracers|);
    var len := Kept(EllGrid(s));
    win := new real[nc, nb, len]((x, b, l) => 0.0);
    v2d := new real[nb, nc]((b, x) => 0.0);
    // only filled, and only read, for the H&L likelihood
    noi := new real[nb, nc]((b, x) => 0.0);
    fid := new real[nb, nc]((b, x) => 0.0);
    cv := new real[nb, nc, nb, nc]((b, x, b2, x2) => 0.0);
    StartEmpty(inp, nb, win, v2d, noi, fid, cv);
  }

  /** The filled arrays of the scatter, read back into the stored setup. */
  method Assemble(inp: SetupInputs, vi: seq<seq<int>>,
                  win: array3<real>, v2d: array2<real>, noi: array2<real>, fid: array2<real>, cv: array4<real>)
      returns (st: Setup)
    requires WellFormed(inp.coadded) && Accepted(inp.coadded) && HandlInputsFit(inp)
    requires IndexesPairs(vi, |inp.coadded.tracers|) && Shaped(inp.coadded, NBpws(inp.coadded), win, v2d, noi, fid, cv)
    requires Snapshot(win, v2d, noi, fid, cv) == Expected(inp, NBpws(inp.coadded), |inp.coadded.order|)
    ensures Describes(inp, st)
  {
    var s := inp.coadded;
    var useHandl := UsesHandl(inp);
    var n, nb := |s.tracers|, NBpws(s);
    var nc := NCross(n);
    var bpwL := Select(EllGrid(s), EllGrid(s));
    var bbdata := UnpackRows(n, Rows(v2d), nc);
    var bbnoise, bbfiducial := None, None;
    if useHandl {
      var noiseData := UnpackRows(n, Rows(noi), nc);
      var fiducialData := UnpackRows(n, Rows(fid), nc);
      bbnoise, bbfiducial := Some(noiseData), Some(fiducialData);
    }
    CovBlocksComplete(s, nb);
    st := Setup(useHandl, n, nc, bpwL, nb, Contents3(win), vi, bbdata, bbnoise, bbfiducial,
                Reshape4(Contents4(cv), nb, nc));
  }

  /** `self.vector_indices`: entry [i, j] is the packed position of the pair (i, j). */
  predicate IndexesPairs(vi: seq<seq<int>>, n: nat) {
    && |vi| == n && (forall i :: 0 <= i < n ==> |vi[i]| == n)
    && forall i, j :: 0 <= i < n && 0 <= j < n ==> vi[i][j] == PairIndexSym(n, i, j)
  }

  /** The shapes np.zeros gives the five arrays of the scatter. */
  predicate Shaped(s: Sacc, nb: nat, win: array3<real>, v2d: array2<real>, noi: array2<real>, fid: array2<real>, cv: array4<real>) {
    var nc := NCross(|s.tracers|);
    && 0 < |s.windows|
    && (win.Length0, win.Length1, win.Length2) == (nc, nb, Kept(EllGrid(s)))
    && (v2d.Length0, v2d.Length1, noi.Length0, noi.Length1, fid.Length0, fid.Length1) == (nb, nc, nb, nc, nb, nc)
    && (cv.Length0, cv.Length1, cv.Length2, cv.Length3) == (nb, nc, nb, nc)
    && v2d != noi && v2d != fid && noi != fid
  }

  /** The five arrays of the scatter as values: windows, v2d, noise, fiducial and cv2d. */
  datatype Buffers = Buffers(windows: Tensor3, v2d: Matrix, noise: Matrix, fiducial: Matrix, cov: Tensor4)

  /** The current contents of the five arrays. */
  function Snapshot(win: array3<real>, v2d: array2<real>, noi: array2<real>, fid: array2<real>, cv: array4<real>): Buffers
    requires cv.Length0 == cv.Length2 && cv.Length1 == cv.Length3
    reads win, v2d, noi, fid, cv
  {
    Buffers(Contents3(win), Rows(v2d), Rows(noi), Rows(fid), Contents4(cv))
  }

  /** What the five arrays hold after the first k entries; without H&L the noise and fiducial arrays keep their zeros. */
  function Expected(inp: SetupInputs, nb: nat, k: nat): Buffers
    requires Scatterable(inp.coadded, nb) && HandlInputsFit(inp) && k <= |inp.coadded.order|
  {
    var s := inp.coadded;
    var zeros := Zeros(nb, NCross(|s.tracers|));
    Buffers(WindowTable(s, nb, k), DataTable(s, nb, s.mean, k),
            if UsesHandl(inp) then DataTable(s, nb, inp.noiseMean, k) else zeros,
            if UsesHandl(inp) then DataTable(s, nb, inp.fiducialMean, k) else zeros,
            CovBlocksAt(s, nb, k))
  }

  /** np.zeros((rows, cols)). */
  function Zeros(rows: nat, cols: nat): (m: Matrix)
    ensures IsMatrix(m, rows, cols) && forall i, j :: 0 <= i < rows && 0 <= j < cols ==> m[i][j] == 0.0
  {
    seq(rows, i requires 0 <= i < rows => seq(cols, j requires 0 <= j < cols => 0.0))
  }

  /** `cv2d` once the first k entries have written their rows of blocks. */
  function CovBlocksAt(s: Sacc, nb: nat, k: nat): (t: Tensor4)
    requires Scatterable(s, nb) && k <= |s.order|
    ensures Blocked(t, nb, NCross(|s.tracers|))
    ensures forall b, x, b2, x2 :: 0 <= b < nb && 0 <= x < NCross(|s.tracers|) && 0 <= b2 < nb && 0 <= x2 < NCross(|s.tracers|) ==>
              t[b][x][b2][x2] == CovEntry(s, nb, k, b, x, b2, x2)
  {
    var nc := NCross(|s.tracers|);
    seq(nb, b requires 0 <= b < nb =>
      seq(nc, x requires 0 <= x < nc =>
        seq(nb, b2 requires 0 <= b2 < nb =>
          seq(nc, x2 requires 0 <= x2 < nc => CovEntry(s, nb, k, b, x, b2, x2)))))
  }

  /** After the last entry the blocks are the finished `cv2d`. */
  lemma CovBlocksComplete(s: Sacc, nb: nat)
    requires Scatterable(s, nb)
    ensures CovBlocksAt(s, nb, |s.order|) == CovBlocks(s, nb)
  {
    BlocksEq(CovBlocksAt(s, nb, |s.order|), CovBlocks(s, nb), nb, NCross(|s.tracers|));
  }

  /** `cv2d` after the first k entries of the order. */
  predicate CovHolds(cv: array4<real>, s: Sacc, nb: nat, k: nat)
    requires Scatterable(s, nb) && k <= |s.order|
    reads cv
  {
    && cv.Length0 == nb && cv.Length1 == NCross(|s.tracers|) && cv.Length2 == nb && cv.Length3 == NCross(|s.tracers|)
    && forall b, x, b2, x2 :: 0 <= b < nb && 0 <= x < cv.Length1 && 0 <= b2 < nb && 0 <= x2 < cv.Length3 ==>
         cv[b, x, b2, x2] == CovEntry(s, nb, k, b, x, b2, x2)
  }

  /** The contents of a 3-D array. */
  function Contents3(a: array3<real>): (t: Tensor3)
    reads a
    ensures IsTensor3(t, a.Length0, a.Length1, a.Length2)
    ensures forall x, b, l :: 0 <= x < a.Length0 && 0 <= b < a.Length1 && 0 <= l < a.Length2 ==> t[x][b][l] == a[x, b, l]
  {
    seq(a.Length0, x requires 0 <= x < a.Length0 reads a =>
      seq(a.Length1, b requires 0 <= b < a.Length1 reads a =>
        seq(a.Length2, l requires 0 <= l < a.Length2 reads a => a[x, b, l])))
  }

  /** An array np.zeros left alone is still the zero matrix. */
  lemma ZerosKept(a: array2<real>, rows: nat, cols: nat)
    requires a.Length0 == rows && a.Length1 == cols
    requires forall b, x :: 0 <= b < rows && 0 <= x < cols ==> a[b, x] == 0.0
    ensures Rows(a) == Zeros(rows, cols)
  {
    MatrixEq(Rows(a), Zeros(rows, cols), rows, cols);
  }

  /** The zeros of np.zeros are the tables before any entry is written. */
  lemma StartEmpty(inp: SetupInputs, nb: nat,
                   win: array3<real>, v2d: array2<real>, noi: array2<real>, fid: array2<real>, cv: array4<real>)
    requires Scatterable(inp.coadded, nb) && HandlInputsFit(inp) && Shaped(inp.coadded, nb, win, v2d, noi, fid, cv)
    requires forall x, b, l :: 0 <= x < win.Length0 && 0 <= b < nb && 0 <= l < win.Length2 ==> win[x, b, l] == 0.0
    requires forall b, x :: 0 <= b < nb && 0 <= x < v2d.Length1 ==> v2d[b, x] == 0.0 && noi[b, x] == 0.0 && fid[b, x] == 0.0
    requires forall b, x, b2, x2 :: 0 <= b < nb && 0 <= x < cv.Length1 && 0 <= b2 < nb && 0 <= x2 < cv.Length3 ==>
               cv[b, x, b2, x2] == 0.0
    ensures Snapshot(win, v2d, noi, fid, cv) == Expected(inp, nb, 0)
  {
    var s, nc := inp.coadded, NCross(|inp.coadded.tracers|);
    Tensor3Eq(Contents3(win), WindowTable(s, nb, 0), nc, nb, win.Length2);
    MatrixEq(Rows(v2d), DataTable(s, nb, s.mean, 0), nb, nc);
    if UsesHandl(inp) {
      MatrixEq(Rows(noi), DataTable(s, nb, inp.noiseMean, 0), nb, nc);
      MatrixEq(Rows(fid), DataTable(s, nb, inp.fiducialMean, 0), nb, nc);
    } else {
      ZerosKept(noi, nb, nc);
      ZerosKept(fid, nb, nc);
    }
    BlocksEq(Contents4(cv), CovBlocksAt(s, nb, 0), nb, nc);
  }

  /** The loop over `self.order`, writing windows, means and covariance blocks in place. */
  method ScatterLoop(inp: SetupInputs, nb: nat, vi: seq<seq<int>>,
                     win: array3<real>, v2d: array2<real>, noi: array2<real>, fid: array2<real>, cv: array4<real>)
    requires Scatterable(inp.coadded, nb) && HandlInputsFit(inp)
    requires IndexesPairs(vi, |inp.coadded.tracers|) && Shaped(inp.coadded, nb, win, v2d, noi, fid, cv)
    requires Snapshot(win, v2d, noi, fid, cv) == Expected(inp, nb, 0)
    modifies win, v2d, noi, fid, cv
    ensures Snapshot(win, v2d, noi, fid, cv) == Expected(inp, nb, |inp.coadded.order|)
  {
    var k := 0;
    while k < |inp.coadded.order|
      invariant 0 <= k <= |inp.coadded.order|
      invariant Snapshot(win, v2d, noi, fid, cv) == Expected(inp, nb, k)
    {
      ScatterEntry(inp, nb, vi, win, v2d, noi, fid, cv, k);
      k := k + 1;
    }
  }

  /** One pass of the loop: entry k writes its windows, its means and its row of covariance blocks. */
  method ScatterEntry(inp: SetupInputs, nb: nat, vi: seq<seq<int>>,
                      win: array3<real>, v2d: array2<real>, noi: array2<real>, fid: array2<real>, cv: array4<real>, k: nat)
    requires Scatterable(inp.coadded, nb) && HandlInputsFit(inp) && k < |inp.coadded.order|
    requires IndexesPairs(vi, |inp.coadded.tracers|) && Shaped(inp.coadded, nb, win, v2d, noi, fid, cv)
    requires Snapshot(win, v2d, noi, fid, cv) == Expected(inp, nb, k)
    modifies win, v2d, noi, fid, cv
    ensures Snapshot(win, v2d, noi, fid, cv) == Expected(inp, nb, k + 1)
  {
    var s := inp.coadded;
    var x: nat := vi[s.order[k].t1][s.order[k].t2];
    assert x == Slot(s, k);
    StepWindows(win, s, nb, k);
    StepColumn(v2d, s, nb, s.mean, k);
    if UsesHandl(inp) {
      StepColumn(noi, s, nb, inp.noiseMean, k);
      StepColumn(fid, s, nb, inp.fiducialMean, k);
    }
    StepCov(cv, s, nb, k);
  }

  /** `self.windows[vector_indices[t1, t2], b, :] = windows[i].w[mask_w]` for the bandpowers of entry k. */
  method StepWindows(win: array3<real>, s: Sacc, nb: nat, k: nat)
    requires Scatterable(s, nb) && k < |s.order|
    requires win.Length0 == NCross(|s.tracers|) && win.Length1 == nb && win.Length2 == Kept(EllGrid(s))
    requires Contents3(win) == WindowTable(s, nb, k)
    modifies win
    ensures Contents3(win) == WindowTable(s, nb, k + 1)
  {
    WriteWindows(win, Slot(s, k), WindowRows(s, nb, k));
    WindowTableStep(s, nb, k);
  }

  /** `v2d[:, vector_indices[t1, t2]] = means[ndx]` for entry k. */
  method StepColumn(a: array2<real>, s: Sacc, nb: nat, means: Vector, k: nat)
    requires Scatterable(s, nb) && k < |s.order| && |means| == |s.mean|
    requires a.Length0 == nb && a.Length1 == NCross(|s.tracers|)
    requires Rows(a) == DataTable(s, nb, means, k)
    modifies a
    ensures Rows(a) == DataTable(s, nb, means, k + 1)
  {
    WriteColumn(a, Slot(s, k), Gathered(s, nb, means, k));
    DataTableStep(s, nb, means, k);
  }

  /** The inner loop for entry k: `cv2d[:, x, :, x2] = cv[ndx, :][:, ndxb]` for every entry of the order. */
  method StepCov(cv: array4<real>, s: Sacc, nb: nat, k: nat)
    requires Scatterable(s, nb) && k < |s.order|
    requires cv.Length0 == nb && cv.Length1 == NCross(|s.tracers|) && cv.Length2 == nb && cv.Length3 == NCross(|s.tracers|)
    requires Contents4(cv) == CovBlocksAt(s, nb, k)
    modifies cv
    ensures Contents4(cv) == CovBlocksAt(s, nb, k + 1)
  {
    assert CovHolds(cv, s, nb, k);
    WriteCovRow(cv, s, nb, k);
    CovEntryStep(s, nb, k);
    BlocksEq(Contents4(cv), CovBlocksAt(s, nb, k + 1), nb, NCross(|s.tracers|));
  }

  /** Entry k overwrites the windows of its slot and leaves the other slots as they were. */
  lemma WindowTableStep(s: Sacc, nb: nat, k: nat)
    requires Scatterable(s, nb) && k < |s.order|
    ensures Slot(s, k) < NCross(|s.tracers|)
    ensures WindowTable(s, nb, k + 1) == WindowTable(s, nb, k)[Slot(s, k) := WindowRows(s, nb, k)]
  {
    var nc, len := NCross(|s.tracers|), Kept(EllGrid(s));
    var before, after := WindowTable(s, nb, k), WindowTable(s, nb, k + 1);
    var rows := WindowRows(s, nb, k);
    forall x, b, l | 0 <= x < nc && 0 <= b < nb && 0 <= l < len
      ensures after[x][b][l] == before[Slot(s, k) := rows][x][b][l]
    {
      LastWithStep(s, k, x);
    }
    Tensor3Eq(after, before[Slot(s, k) := rows], nc, nb, len);
  }

  /** The masked windows of entry k, one per bandpower. */
  function WindowRows(s: Sacc, nb: nat, k: nat): (rows: Matrix)
    requires Scatterable(s, nb) && k < |s.order|
    ensures IsMatrix(rows, nb, Kept(EllGrid(s)))
    ensures forall b :: 0 <= b < nb ==> rows[b] == MaskedWindow(s, s.order[k].ndx[b])
  {
    seq(nb, b requires 0 <= b < nb => MaskedWindow(s, s.order[k].ndx[b]))
  }

  /** One more entry: it becomes the last writer of its own slot and changes no other. */
  lemma LastWithStep(s: Sacc, k: nat, x: nat)
    requires WellFormed(s) && k < |s.order|
    ensures LastWith(s, k + 1, x) == if Slot(s, k) == x then Some(k) else LastWith(s, k, x)
  {
  }

  /** Entry k overwrites the column of its slot and leaves the other columns as they were. */
  lemma DataTableStep(s: Sacc, nb: nat, means: Vector, k: nat)
    requires Scatterable(s, nb) && k < |s.order| && |means| == |s.mean|
    ensures DataTable(s, nb, means, k + 1) == WithColumn(DataTable(s, nb, means, k), Slot(s, k), Gathered(s, nb, means, k))
  {
    forall b, x | 0 <= b < nb && 0 <= x < NCross(|s.tracers|)
      ensures DataTable(s, nb, means, k + 1)[b][x] ==
                if x == Slot(s, k) then Gathered(s, nb, means, k)[b] else DataTable(s, nb, means, k)[b][x]
    {
      LastWithStep(s, k, x);
      if x == Slot(s, k) {
        assert LastWith(s, k + 1, x) == Some(k);
      } else {
        assert LastWith(s, k + 1, x) == LastWith(s, k, x);
      }
    }
    MatrixEq(DataTable(s, nb, means, k + 1), WithColumn(DataTable(s, nb, means, k), Slot(s, k), Gathered(s, nb, means, k)),
             nb, NCross(|s.tracers|));
  }

  /** Entry k overwrites the row of blocks of its slot and leaves the other rows as they were. */
  lemma CovEntryStep(s: Sacc, nb: nat, k: nat)
    requires Scatterable(s, nb) && k < |s.order|
    ensures forall b, x, b2, x2 :: 0 <= b < nb && 0 <= b2 < nb ==>
              CovEntry(s, nb, k + 1, b, x, b2, x2) ==
                if x == Slot(s, k) && LastWith(s, |s.order|, x2).Some?
                then s.covariance[s.order[k].ndx[b]][s.order[LastWith(s, |s.order|, x2).value].ndx[b2]]
                else if x == Slot(s, k) then 0.0
                else CovEntry(s, nb, k, b, x, b2, x2)
  {
    var k' := k + 1;
    forall b, x, b2, x2 | 0 <= b < nb && 0 <= b2 < nb
      ensures CovEntry(s, nb, k', b, x, b2, x2) ==
                if x == Slot(s, k) && LastWith(s, |s.order|, x2).Some?
                then s.covariance[s.order[k].ndx[b]][s.order[LastWith(s, |s.order|, x2).value].ndx[b2]]
                else if x == Slot(s, k) then 0.0
                else CovEntry(s, nb, k, b, x, b2, x2)
    {
      LastWithStep(s, k, x);
    }
  }

  /** The contents of a 2-D array as rows. */
  function Rows(a: array2<real>): (m: Matrix)
    reads a
    ensures IsMatrix(m, a.Length0, a.Length1)
    ensures forall i, j :: 0 <= i < a.Length0 && 0 <= j < a.Length1 ==> m[i][j] == a[i, j]
  {
    seq(a.Length0, i requires 0 <= i < a.Length0 reads a =>
      seq(a.Length1, j requires 0 <= j < a.Length1 reads a => a[i, j]))
  }

  /** The contents of a 4-D array. */
  function Contents4(a: array4<real>): (t: Tensor4)
    reads a
    requires a.Length0 == a.Length2 && a.Length1 == a.Length3
    ensures Blocked(t, a.Length0, a.Length1)
    ensures forall b, x, b2, x2 :: 0 <= b < a.Length0 && 0 <= x < a.Length1 && 0 <= b2 < a.Length2 && 0 <= x2 < a.Length3 ==>
              t[b][x][b2][x2] == a[b, x, b2, x2]
  {
    seq(a.Length0, b requires 0 <= b < a.Length0 reads a =>
      seq(a.Length1, x requires 0 <= x < a.Length1 reads a =>
        seq(a.Length2, b2 requires 0 <= b2 < a.Length2 reads a =>
          seq(a.Length3, x2 requires 0 <= x2 < a.Length3 reads a => a[b, x, b2, x2]))))
  }

  /** Extensional equality of two block tables of the same shape. */
  lemma BlocksEq(t: Tensor4, u: Tensor4, nb: nat, nc: nat)
    requires Blocked(t, nb, nc) && Blocked(u, nb, nc)
    requires forall b, x, b2, x2 :: 0 <= b < nb && 0 <= x < nc && 0 <= b2 < nb && 0 <= x2 < nc ==>
               t[b][x][b2][x2] == u[b][x][b2][x2]
    ensures t == u
  {
    forall b | 0 <= b < nb ensures t[b] == u[b] {
      forall x | 0 <= x < nc ensures t[b][x] == u[b][x] {
        MatrixEq(t[b][x], u[b][x], nb, nc);
      }
    }
  }

  // ---------------------------------------------------------------------
  // What the scattered arrays hold
  // ---------------------------------------------------------------------

  /** No two spectra of the order are for the same channel pair. */
  predicate DistinctPairs(s: Sacc)
    requires WellFormed(s)
  {
    forall e, e' :: 0 <= e < e' < |s.order| ==> Slot(s, e) != Slot(s, e')
  }

  /** With distinct pairs, each entry is the last (and only) writer of its own slot. */
  lemma LastWriterIsOwn(s: Sacc, e: nat)
    requires WellFormed(s) && DistinctPairs(s) && e < |s.order|
    ensures LastWith(s, |s.order|, Slot(s, e)) == Some(e)
  {
    var r := LastWith(s, |s.order|, Slot(s, e));
    assert r.Some?;
    assert r.value >= e;
    assert r.value <= e;
  }

  /** Spectrum e's data point for bandpower b sits in column vector_indices[t1, t2] of v2d. */
  lemma DataLandsInSlot(s: Sacc, nb: nat, means: Vector, e: nat, b: nat)
    requires Scatterable(s, nb) && DistinctPairs(s) && |means| == |s.mean|
    requires e < |s.order| && b < nb
    ensures DataTable(s, nb, means, |s.order|)[b][Slot(s, e)] == means[s.order[e].ndx[b]]
  {
    LastWriterIsOwn(s, e);
  }

  /** Spectrum e's window for bandpower b sits at windows[vector_indices[t1, t2], b]. */
  lemma WindowLandsInSlot(s: Sacc, nb: nat, e: nat, b: nat)
    requires Scatterable(s, nb) && DistinctPairs(s)
    requires e < |s.order| && b < nb
    ensures WindowTable(s, nb, |s.order|)[Slot(s, e)][b] == MaskedWindow(s, s.order[e].ndx[b])
  {
    LastWriterIsOwn(s, e);
  }

  /**
   * The covariance of spectra e and e2 at bandpowers b and b2 sits at row
   * b * ncross + slot(e), column b2 * ncross + slot(e2) of bbcovar.
   */
  lemma CovLandsInBlock(s: Sacc, nb: nat, e: nat, b: nat, e2: nat, b2: nat, row: nat, col: nat)
    requires Scatterable(s, nb) && DistinctPairs(s)
    requires e < |s.order| && b < nb && e2 < |s.order| && b2 < nb
    requires row == b * NCross(|s.tracers|) + Slot(s, e) && col == b2 * NCross(|s.tracers|) + Slot(s, e2)
    ensures IsMatrix(CovTable(s, nb), CovSize(nb, NCross(|s.tracers|)), CovSize(nb, NCross(|s.tracers|)))
    ensures row < CovSize(nb, NCross(|s.tracers|)) && col < CovSize(nb, NCross(|s.tracers|))
    ensures CovTable(s, nb)[row][col] == s.covariance[s.order[e].ndx[b]][s.order[e2].ndx[b2]]
  {
    var nc, t := NCross(|s.tracers|), CovBlocks(s, nb);
    Reshape4Shape(t, nb, nc);
    Reshape4At(t, nb, nc, b, Slot(s, e), b2, Slot(s, e2), row, col);
    BlockOfOwnSlots(s, nb, e, b, e2, b2);
  }

  /** In cv2d, the block of the slots of e and e2 holds their covariance. */
  lemma BlockOfOwnSlots(s: Sacc, nb: nat, e: nat, b: nat, e2: nat, b2: nat)
    requires Scatterable(s, nb) && DistinctPairs(s)
    requires e < |s.order| && b < nb && e2 < |s.order| && b2 < nb
    ensures Slot(s, e) < NCross(|s.tracers|) && Slot(s, e2) < NCross(|s.tracers|)
    ensures CovBlocks(s, nb)[b][Slot(s, e)][b2][Slot(s, e2)] == s.covariance[s.order[e].ndx[b]][s.order[e2].ndx[b2]]
  {
    LastWriterIsOwn(s, e);
    LastWriterIsOwn(s, e2);
  }

  /** A slot no spectrum writes keeps the zeros of np.zeros in the windows and in the data column. */
  lemma UncoveredSlotIsZero(s: Sacc, nb: nat, means: Vector, x: nat, b: nat)
    requires Scatterable(s, nb) && |means| == |s.mean|
    requires x < NCross(|s.tracers|) && b < nb
    requires forall e :: 0 <= e < |s.order| ==> Slot(s, e) != x
    ensures forall l :: 0 <= l < Kept(EllGrid(s)) ==> WindowTable(s, nb, |s.order|)[x][b][l] == 0.0
    ensures DataTable(s, nb, means, |s.order|)[b][x] == 0.0
  {
  }

  /** ... and its row and column of bbcovar, at position b * ncross + x, are all zeros. */
  lemma UncoveredCovIsZero(s: Sacc, nb: nat, x: nat, b: nat, row: nat)
    requires Scatterable(s, nb)
    requires x < NCross(|s.tracers|) && b < nb && row == b * NCross(|s.tracers|) + x
    requires forall e :: 0 <= e < |s.order| ==> Slot(s, e) != x
    ensures IsMatrix(CovTable(s, nb), CovSize(nb, NCross(|s.tracers|)), CovSize(nb, NCross(|s.tracers|)))
    ensures row < CovSize(nb, NCross(|s.tracers|))
    ensures forall c :: 0 <= c < CovSize(nb, NCross(|s.tracers|)) ==> CovTable(s, nb)[row][c] == 0.0 && CovTable(s, nb)[c][row] == 0.0
  {
    var nc, t := NCross(|s.tracers|), CovBlocks(s, nb);
    Reshape4Shape(t, nb, nc);
    Reshape4At(t, nb, nc, b, x, b, x, row, row);
    forall c | 0 <= c < CovSize(nb, nc) ensures CovTable(s, nb)[row][c] == 0.0 && CovTable(s, nb)[c][row] == 0.0 {
      var b2, x2 := Decompose(c, nb, nc);
      Reshape4At(t, nb, nc, b, x, b2, x2, row, c);
      Reshape4At(t, nb, nc, b2, x2, b, x, c, row);
    }
  }

  /** A symmetric covariance stays symmetric through the scatter and the reshape. */
  lemma CovTableSymmetric(s: Sacc, nb: nat)
    requires Scatterable(s, nb) && IsSymmetric(s.covariance, |s.mean|)
    ensures IsSymmetric(CovTable(s, nb), CovSize(nb, NCross(|s.tracers|)))
  {
    var nc := NCross(|s.tracers|);
    var t := CovBlocks(s, nb);
    Reshape4Shape(t, nb, nc);
    forall i, j | 0 <= i < CovSize(nb, nc) && 0 <= j < CovSize(nb, nc) ensures CovTable(s, nb)[i][j] == CovTable(s, nb)[j][i] {
      var b, x := Decompose(i, nb, nc);
      var b2, x2 := Decompose(j, nb, nc);
      Reshape4At(t, nb, nc, b, x, b2, x2, i, j);
      Reshape4At(t, nb, nc, b2, x2, b, x, j, i);
    }
  }

  /**
   * After a successful setup, bbdata[b] holds spectrum e's data point for
   * bandpower b at [t1, t2] and, mirrored, at [t2, t1].
   */
  lemma SetupDataMatrix(inp: SetupInputs, st: Setup, e: nat, b: nat)
    requires WellFormed(inp.coadded) && Accepted(inp.coadded) && HandlInputsFit(inp)
    requires Describes(inp, st) && DistinctPairs(inp.coadded)
    requires e < |inp.coadded.order| && b < NBpws(inp.coadded)
    ensures IsTensor3(st.bbdata, NBpws(inp.coadded), |inp.coadded.tracers|, |inp.coadded.tracers|)
    ensures st.bbdata[b][inp.coadded.order[e].t1][inp.coadded.order[e].t2] == inp.coadded.mean[inp.coadded.order[e].ndx[b]]
    ensures st.bbdata[b][inp.coadded.order[e].t2][inp.coadded.order[e].t1] == inp.coadded.mean[inp.coadded.order[e].ndx[b]]
  {
    var s := inp.coadded;
    var n, nb := |s.tracers|, NBpws(s);
    var rows := DataTable(s, nb, s.mean, |s.order|);
    DataLandsInSlot(s, nb, s.mean, e, b);
    var t1, t2 := s.order[e].t1, s.order[e].t2;
    assert st.bbdata[b] == Unpack(n, rows[b]);
    assert PairIndexSym(n, t2, t1) == PairIndexSym(n, t1, t2) == Slot(s, e);
  }

  // ---------------------------------------------------------------------
  // parse_sacc_file
  // ---------------------------------------------------------------------

  /**
   * `parse_sacc_file` after loading: the bandpasses first (a tracer with
   * fewer than two frequencies stops everything), then the checks and the
   * scatter of `ParseSpectra`.
   */
  method ParseSaccFile(inp: SetupInputs, cfg: SystematicsConfig, prim: Primitives)
    returns (r: Result<Setup, SetupError>, bpss: seq<Bandpass>)
    requires WellFormed(inp.coadded) && HandlInputsFit(inp) && Weighable(inp.coadded.tracers, prim)
    ensures !AllSampled(inp.coadded.tracers) ==> r.Err? && r.error.TooFewFrequencies?
    ensures r.Err? && r.error.TooFewFrequencies? ==>
              && r.error.tracer < |inp.coadded.tracers| && |inp.coadded.tracers[r.error.tracer].z| < 2
              && forall i :: 0 <= i < r.error.tracer ==> 2 <= |inp.coadded.tracers[i].z|
    ensures AllSampled(inp.coadded.tracers) ==> (r.Ok? <==> Accepted(inp.coadded))
    ensures AllSampled(inp.coadded.tracers) ==> |bpss| == |inp.coadded.tracers|
    ensures AllSampled(inp.coadded.tracers) ==>
              forall i :: 0 <= i < |bpss| ==>
                BuiltFrom(bpss[i], inp.coadded.tracers[i], i + 1, cfg, prim)
    ensures r.Ok? ==> Accepted(inp.coadded) && Describes(inp, r.value)
  {
    var collected := CollectBandpasses(inp.coadded.tracers, cfg, prim);
    if collected.Err? {
      return Err(collected.error), [];
    }
    bpss := collected.value;
    r := ParseSpectra(inp);
  }
}
