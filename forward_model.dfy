/**
 * The forward model of BBCompSep.model: the CMB B-mode spectrum
 * r * C_ell^tensor + C_ell^lensing, plus, for every channel pair t1 <= t2,
 * each foreground component's auto term and its epsilon-weighted cross terms
 * with other components, passed through the pair's bandpower window and
 * written to both (t1, t2) and (t2, t1) of an n_bpws x nmaps x nmaps array.
 *
 * The foreground model is given as values: per component, its integrated SED
 * scaling in every channel, its power spectrum at the multipoles of the
 * windows, and the (partner, epsilon) pairs of its cross terms.
 */
module ForwardModel {
  import opened LinAlg
  import opened Packing
  import opened SaccSetup

  /** One entry of a component's `names_x_dict`: the partner component and the value of its epsilon. */
  datatype Cross = Cross(partner: nat, epsilon: real)

  /** One foreground component: fg_scaling[component][t], fg_p_spectra[component] and its cross terms. */
  datatype Component = Component(scaling: Vector, spectrum: Vector, crosses: seq<Cross>)

  /**
   * Everything `model` reads besides the setup: r_tensor, the lensing-free
   * tensor and the lensing templates, the components, and the square root.
   */
  datatype Sky = Sky(rTensor: real, cmbBbr: Vector, cmbLensing: Vector, components: seq<Component>, sqrt: real -> real)

  /** A component has a scaling per channel, a spectrum per multipole and only known partners. */
  predicate ComponentFits(comp: Component, n: nat, nl: nat, ncomp: nat) {
    && |comp.scaling| == n && |comp.spectrum| == nl
    && forall x :: 0 <= x < |comp.crosses| ==> comp.crosses[x].partner < ncomp
  }

  /** The sky is sampled at the multipoles of the templates and covers n channels. */
  predicate SkyFits(sky: Sky, n: nat) {
    && |sky.cmbLensing| == |sky.cmbBbr|
    && forall c :: 0 <= c < |sky.components| ==>
         ComponentFits(sky.components[c], n, |sky.cmbBbr|, |sky.components|)
  }

  /** The setup's windows are ncross x n_bpws x nl and vector_indices is the pair table. */
  predicate ModelReady(st: Setup, nl: nat) {
    && st.ncross == NCross(st.nmaps)
    && IsTensor3(st.windows, st.ncross, st.nBpws, nl)
    && |st.vectorIndices| == st.nmaps
    && (forall i :: 0 <= i < st.nmaps ==> |st.vectorIndices[i]| == st.nmaps)
    && forall i, j :: 0 <= i < st.nmaps && 0 <= j < st.nmaps ==>
         st.vectorIndices[i][j] == PairIndexSym(st.nmaps, i, j)
  }

  // ---------------------------------------------------------------------
  // The terms of one pair's spectrum
  // ---------------------------------------------------------------------

  /** cmb_bmodes = r_tensor * cmb_bbr + cmb_bblensing. */
  function CmbTerm(sky: Sky): (c: Vector)
    requires |sky.cmbLensing| == |sky.cmbBbr|
    ensures |c| == |sky.cmbBbr|
  {
    VecAdd(Scale(sky.rTensor, sky.cmbBbr), sky.cmbLensing)
  }

  /** fg_scaling[c][t1] * fg_scaling[c][t2] * fg_p_spectra[c]. */
  function AutoTerm(sky: Sky, n: nat, c: nat, t1: nat, t2: nat): (v: Vector)
    requires SkyFits(sky, n) && c < |sky.components| && t1 < n && t2 < n
    ensures |v| == |sky.cmbBbr|
  {
    var comp := sky.components[c];
    Scale(comp.scaling[t1] * comp.scaling[t2], comp.spectrum)
  }

  /** sqrt(fg_p_spectra[c] * fg_p_spectra[c2]), multipole by multipole. */
  function CrossSpectrum(sqrt: real -> real, p: Vector, q: Vector): (v: Vector)
    requires |p| == |q|
    ensures |v| == |p|
  {
    seq(|p|, l requires 0 <= l < |p| => sqrt(p[l] * q[l]))
  }

  /**
   * epsilon * (s_c[t1] s_c2[t2] + s_c2[t1] s_c[t2]) * cross_spectrum for the
   * x-th cross entry of component c.
   */
  function CrossTerm(sky: Sky, n: nat, c: nat, x: nat, t1: nat, t2: nat): (v: Vector)
    requires SkyFits(sky, n) && c < |sky.components| && x < |sky.components[c].crosses| && t1 < n && t2 < n
    ensures |v| == |sky.cmbBbr|
  {
    var comp := sky.components[c];
    var e := comp.crosses[x];
    var other := sky.components[e.partner];
    var crossScaling := comp.scaling[t1] * other.scaling[t2] + other.scaling[t1] * comp.scaling[t2];
    Scale(e.epsilon * crossScaling, CrossSpectrum(sky.sqrt, comp.spectrum, other.spectrum))
  }

  /** acc after `model +=` of the first k cross terms of component c. */
  function AddCrosses(sky: Sky, n: nat, c: nat, acc: Vector, t1: nat, t2: nat, k: nat): (v: Vector)
    requires SkyFits(sky, n) && c < |sky.components| && t1 < n && t2 < n
    requires |acc| == |sky.cmbBbr| && k <= |sky.components[c].crosses|
    ensures |v| == |sky.cmbBbr|
    decreases k
  {
    if k == 0 then acc
    else VecAdd(AddCrosses(sky, n, c, acc, t1, t2, k - 1), CrossTerm(sky, n, c, k - 1, t1, t2))
  }

  /** acc after the first k components have added their auto term and then their cross terms. */
  function AddComponents(sky: Sky, n: nat, acc: Vector, t1: nat, t2: nat, k: nat): (v: Vector)
    requires SkyFits(sky, n) && t1 < n && t2 < n
    requires |acc| == |sky.cmbBbr| && k <= |sky.components|
    ensures |v| == |sky.cmbBbr|
    decreases k
  {
    if k == 0 then acc
    else
      var before := AddComponents(sky, n, acc, t1, t2, k - 1);
      AddCrosses(sky, n, k - 1, VecAdd(before, AutoTerm(sky, n, k - 1, t1, t2)),
                 t1, t2, |sky.components[k - 1].crosses|)
  }

  /** The spectrum `model` holds for the pair (t1, t2) before the window is applied. */
  function PairSpectrum(sky: Sky, n: nat, t1: nat, t2: nat): (v: Vector)
    requires SkyFits(sky, n) && t1 < n && t2 < n
    ensures |v| == |sky.cmbBbr|
  {
    AddComponents(sky, n, CmbTerm(sky), t1, t2, |sky.components|)
  }

  // ---------------------------------------------------------------------
  // The model tensor
  // ---------------------------------------------------------------------

  /** cls_array_list[b, t1, t2]: row b of the pair's window applied to the pair's spectrum. */
  function Entry(st: Setup, sky: Sky, b: nat, t1: nat, t2: nat): real
    requires ModelReady(st, |sky.cmbBbr|) && SkyFits(sky, st.nmaps)
    requires b < st.nBpws && t1 < st.nmaps && t2 < st.nmaps
  {
    Dot(st.windows[PairIndexSym(st.nmaps, t1, t2)][b], PairSpectrum(sky, st.nmaps, t1, t2))
  }

  function ModelTensor(st: Setup, sky: Sky): (t: Tensor3)
    requires ModelReady(st, |sky.cmbBbr|) && SkyFits(sky, st.nmaps)
    ensures IsTensor3(t, st.nBpws, st.nmaps, st.nmaps)
  {
    var nb, n := st.nBpws, st.nmaps;
    seq(nb, b requires 0 <= b < nb =>
      seq(n, i requires 0 <= i < n =>
        seq(n, j requires 0 <= j < n => Entry(st, sky, b, i, j))))
  }

  /** The pair (i, j) has been written once the loops have passed (t1, t2). */
  predicate Done(i: nat, j: nat, t1: nat, t2: nat) {
    i < t1 || j < t1 || (i == t1 && j < t2) || (j == t1 && i < t2)
  }

  ghost predicate FilledUpTo(a: array3<real>, st: Setup, sky: Sky, t1: nat, t2: nat)
    reads a
    requires ModelReady(st, |sky.cmbBbr|) && SkyFits(sky, st.nmaps)
  {
    && a.Length0 == st.nBpws && a.Length1 == st.nmaps && a.Length2 == st.nmaps
    && forall b, i, j :: 0 <= b < st.nBpws && 0 <= i < st.nmaps && 0 <= j < st.nmaps && Done(i, j, t1, t2) ==>
         a[b, i, j] == Entry(st, sky, b, i, j)
  }

  /**
   * `model`: accumulate each pair's spectrum, apply its window, store it at
   * (t1, t2) and mirror it to (t2, t1).
   */
  method Model(st: Setup, sky: Sky) returns (cls: Tensor3)
    requires ModelReady(st, |sky.cmbBbr|) && SkyFits(sky, st.nmaps)
    ensures cls == ModelTensor(st, sky)
  {
    var nb, n := st.nBpws, st.nmaps;
    var a := new real[nb, n, n]((_, _, _) => 0.0);
    var t1 := 0;
    while t1 < n
      invariant 0 <= t1 <= n
      invariant FilledUpTo(a, st, sky, t1, t1)
    {
      var t2 := t1;
      while t2 < n
        invariant t1 <= t2 <= n
        invariant FilledUpTo(a, st, sky, t1, t2)
      {
        StorePair(a, st, sky, t1, t2);
        t2 := t2 + 1;
      }
      assert FilledUpTo(a, st, sky, t1 + 1, t1 + 1) by {
        forall i, j | 0 <= i < n && 0 <= j < n && Done(i, j, t1 + 1, t1 + 1) ensures Done(i, j, t1, n) { }
      }
      t1 := t1 + 1;
    }
    cls := Contents3(a);
    assert forall i, j :: 0 <= i < n && 0 <= j < n ==> Done(i, j, n, n);
    Tensor3Eq(cls, ModelTensor(st, sky), nb, n, n);
  }

  /** One pass of the inner loop body: the pair's window applied to its spectrum, stored twice. */
  method StorePair(a: array3<real>, st: Setup, sky: Sky, t1: nat, t2: nat)
    requires ModelReady(st, |sky.cmbBbr|) && SkyFits(sky, st.nmaps)
    requires t1 <= t2 < st.nmaps && FilledUpTo(a, st, sky, t1, t2)
    modifies a
    ensures FilledUpTo(a, st, sky, t1, t2 + 1)
  {
    var n := st.nmaps;
    var windows := st.windows[st.vectorIndices[t1][t2]];
    var model := PairModel(sky, n, t1, t2);
    var out := MatVec(windows, model);
    PairSpectrumSymmetric(sky, n, t1, t2);
    assert forall b :: 0 <= b < st.nBpws ==> out[b] == Entry(st, sky, b, t1, t2) == Entry(st, sky, b, t2, t1);
    WritePair(a, t1, t2, out);
  }

  /** cls_array_list[:, t1, t2] = model, and cls_array_list[:, t2, t1] = model when t1 != t2. */
  method WritePair(a: array3<real>, t1: nat, t2: nat, out: Vector)
    requires t1 < a.Length1 && t2 < a.Length2 && t2 < a.Length1 && t1 < a.Length2 && |out| == a.Length0
    modifies a
    ensures forall b, i, j :: 0 <= b < a.Length0 && 0 <= i < a.Length1 && 0 <= j < a.Length2 ==>
              a[b, i, j] == if (i == t1 && j == t2) || (i == t2 && j == t1) then out[b] else old(a[b, i, j])
  {
    forall b | 0 <= b < a.Length0 {
      a[b, t1, t2] := out[b];
    }
    if t1 != t2 {
      forall b | 0 <= b < a.Length0 {
        a[b, t2, t1] := out[b];
      }
    }
  }

  /** The loops over the components and their cross entries for one pair. */
  method PairModel(sky: Sky, n: nat, t1: nat, t2: nat) returns (model: Vector)
    requires SkyFits(sky, n) && t1 < n && t2 < n
    ensures model == PairSpectrum(sky, n, t1, t2)
  {
    model := CmbTerm(sky);
    var c := 0;
    while c < |sky.components|
      invariant 0 <= c <= |sky.components|
      invariant model == AddComponents(sky, n, CmbTerm(sky), t1, t2, c)
    {
      model := AddComponent(sky, n, c, t1, t2, model);
      c := c + 1;
    }
  }

  /** One pass of the loop over the components: the auto term of component c, then its cross terms. */
  method AddComponent(sky: Sky, n: nat, c: nat, t1: nat, t2: nat, acc: Vector) returns (model: Vector)
    requires SkyFits(sky, n) && c < |sky.components| && t1 < n && t2 < n
    requires acc == AddComponents(sky, n, CmbTerm(sky), t1, t2, c)
    ensures model == AddComponents(sky, n, CmbTerm(sky), t1, t2, c + 1)
  {
    var start := VecAdd(acc, AutoTerm(sky, n, c, t1, t2));
    assert AddComponents(sky, n, CmbTerm(sky), t1, t2, c + 1) ==
           AddCrosses(sky, n, c, start, t1, t2, |sky.components[c].crosses|);
    model := AddCrossTerms(sky, n, c, t1, t2, start);
  }

  /** The loop over the cross entries of component c, from the running sum start. */
  method AddCrossTerms(sky: Sky, n: nat, c: nat, t1: nat, t2: nat, start: Vector) returns (model: Vector)
    requires SkyFits(sky, n) && c < |sky.components| && t1 < n && t2 < n && |start| == |sky.cmbBbr|
    ensures model == AddCrosses(sky, n, c, start, t1, t2, |sky.components[c].crosses|)
  {
    model := start;
    var x := 0;
    while x < |sky.components[c].crosses|
      invariant 0 <= x <= |sky.components[c].crosses|
      invariant model == AddCrosses(sky, n, c, start, t1, t2, x)
    {
      model := VecAdd(model, CrossTerm(sky, n, c, x, t1, t2));
      x := x + 1;
    }
  }

  // ---------------------------------------------------------------------
  // Properties
  // ---------------------------------------------------------------------

  lemma {:induction false} AddCrossesSymmetric(sky: Sky, n: nat, c: nat, acc: Vector, t1: nat, t2: nat, k: nat)
    requires SkyFits(sky, n) && c < |sky.components| && t1 < n && t2 < n
    requires |acc| == |sky.cmbBbr| && k <= |sky.components[c].crosses|
    ensures AddCrosses(sky, n, c, acc, t1, t2, k) == AddCrosses(sky, n, c, acc, t2, t1, k)
  {
    if k > 0 {
      AddCrossesSymmetric(sky, n, c, acc, t1, t2, k - 1);
      var comp := sky.components[c];
      var other := sky.components[comp.crosses[k - 1].partner];
      var p, q, r, s := comp.scaling[t1], other.scaling[t2], other.scaling[t1], comp.scaling[t2];
      assert p * q + r * s == s * r + q * p;
      assert CrossTerm(sky, n, c, k - 1, t1, t2) == CrossTerm(sky, n, c, k - 1, t2, t1);
    }
  }

  lemma {:induction false} AddComponentsSymmetric(sky: Sky, n: nat, acc: Vector, t1: nat, t2: nat, k: nat)
    requires SkyFits(sky, n) && t1 < n && t2 < n
    requires |acc| == |sky.cmbBbr| && k <= |sky.components|
    ensures AddComponents(sky, n, acc, t1, t2, k) == AddComponents(sky, n, acc, t2, t1, k)
  {
    if k > 0 {
      AddComponentsSymmetric(sky, n, acc, t1, t2, k - 1);
      var comp := sky.components[k - 1];
      var p, q := comp.scaling[t1], comp.scaling[t2];
      assert p * q == q * p;
      assert AutoTerm(sky, n, k - 1, t1, t2) == AutoTerm(sky, n, k - 1, t2, t1);
      var start := VecAdd(AddComponents(sky, n, acc, t1, t2, k - 1), AutoTerm(sky, n, k - 1, t1, t2));
      AddCrossesSymmetric(sky, n, k - 1, start, t1, t2, |comp.crosses|);
    }
  }

  /** Every term is symmetric in the two channels, so the pair spectrum is too. */
  lemma PairSpectrumSymmetric(sky: Sky, n: nat, t1: nat, t2: nat)
    requires SkyFits(sky, n) && t1 < n && t2 < n
    ensures PairSpectrum(sky, n, t1, t2) == PairSpectrum(sky, n, t2, t1)
  {
    AddComponentsSymmetric(sky, n, CmbTerm(sky), t1, t2, |sky.components|);
  }

  /** The model is symmetric in its last two axes. */
  lemma ModelSymmetric(st: Setup, sky: Sky)
    requires ModelReady(st, |sky.cmbBbr|) && SkyFits(sky, st.nmaps)
    ensures forall b, i, j :: 0 <= b < st.nBpws && 0 <= i < st.nmaps && 0 <= j < st.nmaps ==>
              ModelTensor(st, sky)[b][i][j] == ModelTensor(st, sky)[b][j][i]
  {
    forall b, i, j | 0 <= b < st.nBpws && 0 <= i < st.nmaps && 0 <= j < st.nmaps
      ensures ModelTensor(st, sky)[b][i][j] == ModelTensor(st, sky)[b][j][i]
    {
      PairSpectrumSymmetric(sky, st.nmaps, i, j);
    }
  }

  /** Every component's SED scaling is zero in every channel. */
  predicate ForegroundFree(sky: Sky) {
    forall c, t :: 0 <= c < |sky.components| && 0 <= t < |sky.components[c].scaling| ==>
      sky.components[c].scaling[t] == 0.0
  }

  lemma {:induction false} AddCrossesOfZero(sky: Sky, n: nat, c: nat, acc: Vector, t1: nat, t2: nat, k: nat)
    requires SkyFits(sky, n) && c < |sky.components| && t1 < n && t2 < n
    requires |acc| == |sky.cmbBbr| && k <= |sky.components[c].crosses|
    requires ForegroundFree(sky)
    ensures AddCrosses(sky, n, c, acc, t1, t2, k) == acc
  {
    if k > 0 {
      AddCrossesOfZero(sky, n, c, acc, t1, t2, k - 1);
      var comp := sky.components[c];
      var other := sky.components[comp.crosses[k - 1].partner];
      assert comp.scaling[t1] == 0.0 && comp.scaling[t2] == 0.0;
      assert other.scaling[t1] == 0.0 && other.scaling[t2] == 0.0;
      var v := VecAdd(acc, CrossTerm(sky, n, c, k - 1, t1, t2));
      assert forall l :: 0 <= l < |acc| ==> v[l] == acc[l];
    }
  }

  lemma {:induction false} AddComponentsOfZero(sky: Sky, n: nat, acc: Vector, t1: nat, t2: nat, k: nat)
    requires SkyFits(sky, n) && t1 < n && t2 < n
    requires |acc| == |sky.cmbBbr| && k <= |sky.components|
    requires ForegroundFree(sky)
    ensures AddComponents(sky, n, acc, t1, t2, k) == acc
  {
    if k > 0 {
      AddComponentsOfZero(sky, n, acc, t1, t2, k - 1);
      var comp := sky.components[k - 1];
      assert comp.scaling[t1] == 0.0 && comp.scaling[t2] == 0.0;
      var v := VecAdd(acc, AutoTerm(sky, n, k - 1, t1, t2));
      assert forall l :: 0 <= l < |acc| ==> v[l] == acc[l];
      AddCrossesOfZero(sky, n, k - 1, v, t1, t2, |comp.crosses|);
    }
  }

  /** One entry of a foreground-free model: the window applied to the CMB term, split by linearity. */
  lemma ForegroundFreeEntry(st: Setup, sky: Sky, b: nat, i: nat, j: nat)
    requires ModelReady(st, |sky.cmbBbr|) && SkyFits(sky, st.nmaps)
    requires ForegroundFree(sky)
    requires b < st.nBpws && i < st.nmaps && j < st.nmaps
    ensures Entry(st, sky, b, i, j) == Dot(st.windows[PairIndexSym(st.nmaps, i, j)][b], CmbTerm(sky))
    ensures Entry(st, sky, b, i, j) ==
              sky.rTensor * Dot(st.windows[PairIndexSym(st.nmaps, i, j)][b], sky.cmbBbr)
              + Dot(st.windows[PairIndexSym(st.nmaps, i, j)][b], sky.cmbLensing)
  {
    var w := st.windows[PairIndexSym(st.nmaps, i, j)][b];
    ForegroundFreeSpectrum(sky, st.nmaps, i, j);
    assert Entry(st, sky, b, i, j) == Dot(w, CmbTerm(sky));
    WindowedCmb(w, sky);
  }

  /** Without foreground scalings a pair's spectrum is the CMB term. */
  lemma ForegroundFreeSpectrum(sky: Sky, n: nat, t1: nat, t2: nat)
    requires SkyFits(sky, n) && t1 < n && t2 < n && ForegroundFree(sky)
    ensures PairSpectrum(sky, n, t1, t2) == CmbTerm(sky)
  {
    AddComponentsOfZero(sky, n, CmbTerm(sky), t1, t2, |sky.components|);
  }

  /** A window applied to the CMB term is linear in r. */
  lemma WindowedCmb(w: Vector, sky: Sky)
    requires |sky.cmbLensing| == |sky.cmbBbr| == |w|
    ensures Dot(w, CmbTerm(sky)) == sky.rTensor * Dot(w, sky.cmbBbr) + Dot(w, sky.cmbLensing)
  {
    DotAdd(w, Scale(sky.rTensor, sky.cmbBbr), sky.cmbLensing);
    DotScale(w, sky.cmbBbr, sky.rTensor);
  }

  /**
   * With every foreground scaling zero the model is the window applied to
   * the CMB term alone, r * (W . C^tensor) + W . C^lensing.
   */
  lemma ForegroundFreeModel(st: Setup, sky: Sky)
    requires ModelReady(st, |sky.cmbBbr|) && SkyFits(sky, st.nmaps)
    requires ForegroundFree(sky)
    ensures forall b, i, j :: 0 <= b < st.nBpws && 0 <= i < st.nmaps && 0 <= j < st.nmaps ==>
              ModelTensor(st, sky)[b][i][j] == Dot(st.windows[PairIndexSym(st.nmaps, i, j)][b], CmbTerm(sky))
    ensures forall b, i, j :: 0 <= b < st.nBpws && 0 <= i < st.nmaps && 0 <= j < st.nmaps ==>
              ModelTensor(st, sky)[b][i][j] ==
                sky.rTensor * Dot(st.windows[PairIndexSym(st.nmaps, i, j)][b], sky.cmbBbr)
                + Dot(st.windows[PairIndexSym(st.nmaps, i, j)][b], sky.cmbLensing)
  {
    var t := ModelTensor(st, sky);
    forall b, i, j | 0 <= b < st.nBpws && 0 <= i < st.nmaps && 0 <= j < st.nmaps
      ensures t[b][i][j] == Dot(st.windows[PairIndexSym(st.nmaps, i, j)][b], CmbTerm(sky))
      ensures t[b][i][j] ==
                sky.rTensor * Dot(st.windows[PairIndexSym(st.nmaps, i, j)][b], sky.cmbBbr)
                + Dot(st.windows[PairIndexSym(st.nmaps, i, j)][b], sky.cmbLensing)
    {
      ForegroundFreeEntry(st, sky, b, i, j);
    }
  }
}
