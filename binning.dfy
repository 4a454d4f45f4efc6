/**
 * The custom-bins branch of `binning_definition` in the map-based C_ell
 * estimation stage: the multipole, weight and bandpower-label arrays handed
 * to NaMaster. Labels 0, 1, 2, ... are written over consecutive slices of
 * nlb + 1 multipoles starting at lmin, for as long as the end of the next
 * slice stays below lmax; every other multipole keeps the label -1.
 */
module ClBinning {
  import opened Wrappers

  /** The arrays ells, weights and bpws, and the final value of the loop counter i. */
  datatype Binning = Binning(ells: seq<int>, weights: seq<real>, bpws: seq<int>, nbins: nat)

  /** `1.0 / nlb` with nlb == 0. */
  datatype BinningError = ZeroBinWidth

  /** The loop guard for counter value i: (nlb + 1) * (i + 1) + lmin < lmax. */
  predicate Continues(nlb: nat, lmin: int, lmax: int, i: nat) {
    (nlb + 1) * (i + 1) + lmin < lmax
  }

  /** Where a Python slice bound x lands in a sequence of length len (negative bounds count from the end). */
  function SliceIndex(x: int, len: nat): (k: nat)
    ensures k <= len
    ensures 0 <= x <= len ==> k == x
  {
    if x < 0 then (if x + len < 0 then 0 else x + len)
    else if x > len then len
    else x
  }

  /** `a[lo:hi] = v`. */
  function SliceAssign(a: seq<int>, lo: int, hi: int, v: int): (r: seq<int>)
    ensures |r| == |a|
  {
    seq(|a|, k requires 0 <= k < |a| =>
      if SliceIndex(lo, |a|) <= k < SliceIndex(hi, |a|) then v else a[k])
  }

  /** bpws after i passes of the loop body over an array of len entries all -1. */
  function Labels(len: nat, nlb: nat, lmin: int, i: nat): (b: seq<int>)
    ensures |b| == len
  {
    if i == 0 then seq(len, _ => -1)
    else SliceAssign(Labels(len, nlb, lmin, i - 1), (nlb + 1) * (i - 1) + lmin, (nlb + 1) * i + lmin, i - 1)
  }

  /**
   * binning_definition(nside, lmin, lmax, nlb, custom_bins=True), up to the
   * NmtBin call. nlb == 0 makes the weight 1.0 / nlb a division by zero.
   */
  method CustomBins(nside: nat, lmin: int, lmax: int, nlb: nat) returns (r: Result<Binning, BinningError>)
    ensures r.Err? <==> nlb == 0
    ensures r.Ok? ==> |r.value.ells| == 3 * nside && |r.value.weights| == 3 * nside
    ensures r.Ok? ==> forall k :: 0 <= k < 3 * nside ==> r.value.ells[k] == k
    ensures r.Ok? ==> forall k :: 0 <= k < 3 * nside ==> r.value.weights[k] == 1.0 / (nlb as real)
    ensures r.Ok? ==> r.value.bpws == Labels(3 * nside, nlb, lmin, r.value.nbins)
    ensures r.Ok? ==> forall k: nat :: Continues(nlb, lmin, lmax, k) <==> k < r.value.nbins
  {
    var len := 3 * nside;
    var ells := seq(len, k requires 0 <= k < len => k);
    if nlb == 0 {
      return Err(ZeroBinWidth);
    }
    var weights := seq(len, _ => 1.0 / (nlb as real));
    var bpws := new int[len](_ => -1);
    assert bpws[..] == Labels(len, nlb, lmin, 0);
    var i: nat := 0;
    while Continues(nlb, lmin, lmax, i)
      invariant bpws[..] == Labels(len, nlb, lmin, i)
      invariant forall k: nat :: k < i ==> Continues(nlb, lmin, lmax, k)
      decreases lmax - (nlb + 1) * i - lmin
    {
      ghost var before := bpws[..];
      var lo, hi := SliceIndex((nlb + 1) * i + lmin, len), SliceIndex((nlb + 1) * (i + 1) + lmin, len);
      forall k | lo <= k < hi {
        bpws[k] := i;
      }
      assert bpws[..] == SliceAssign(before, (nlb + 1) * i + lmin, (nlb + 1) * (i + 1) + lmin, i);
      i := i + 1;
    }
    GuardStaysFalse(nlb, lmin, lmax, i);
    return Ok(Binning(ells, weights, bpws[..], i));
  }

  /** Once the guard fails it fails for every larger counter value. */
  lemma GuardStaysFalse(nlb: nat, lmin: int, lmax: int, i: nat)
    requires !Continues(nlb, lmin, lmax, i)
    ensures forall k: nat :: k >= i ==> !Continues(nlb, lmin, lmax, k)
  {
    forall k: nat | k >= i ensures !Continues(nlb, lmin, lmax, k) {
      MulMonotone(nlb + 1, i + 1, k + 1);
    }
  }

  lemma MulMonotone(w: nat, a: nat, b: nat)
    requires a <= b
    ensures w * a <= w * b
  {
  }

  /** x / w == q exactly when w * q <= x < w * (q + 1). */
  lemma DivBetween(x: int, w: int, q: int)
    requires w > 0 && w * q <= x < w * (q + 1)
    ensures x / w == q
  {
    var d, m := x / w, x % w;
    assert x == w * d + m && 0 <= m < w;
    MulMonotoneInt(w, q + 1, d);
    MulMonotoneInt(w, d + 1, q);
  }

  lemma MulMonotoneInt(w: int, a: int, b: int)
    requires w > 0
    ensures a <= b ==> w * a <= w * b
  {
    assert w * b - w * a == w * (b - a);
  }

  /** With lmin >= 0, i passes label multipole l by (l - lmin) / (nlb + 1) inside [lmin, (nlb + 1) i + lmin) and -1 elsewhere. */
  lemma {:induction false} LabelsClosedForm(len: nat, nlb: nat, lmin: int, i: nat, l: nat)
    requires 0 <= lmin && l < len
    ensures Labels(len, nlb, lmin, i)[l] ==
              if lmin <= l < (nlb + 1) * i + lmin then (l - lmin) / (nlb + 1) else -1
  {
    if i > 0 {
      var w := nlb + 1;
      LabelsClosedForm(len, nlb, lmin, i - 1, l);
      PassBounds(w, i, lmin);
      var lo, hi := w * (i - 1) + lmin, w * i + lmin;
      SliceAssignAt(Labels(len, nlb, lmin, i - 1), lo, hi, i - 1, l);
      if lo <= l < hi {
        DivBetween(l - lmin, w, i - 1);
      }
    }
  }

  /** Pass i of the loop covers [w (i - 1) + lmin, w i + lmin), a slice of w multipoles at or above lmin. */
  lemma PassBounds(w: nat, i: nat, lmin: int)
    requires w > 0 && i > 0
    ensures lmin <= w * (i - 1) + lmin && w * i + lmin == w * (i - 1) + lmin + w
  {
    var p := w * (i - 1);
    assert w * i == p + w;
  }

  /** With non-negative bounds, the slice assignment changes exactly the entries in [lo, hi). */
  lemma SliceAssignAt(a: seq<int>, lo: int, hi: int, v: int, l: nat)
    requires 0 <= lo <= hi && l < |a|
    ensures SliceAssign(a, lo, hi, v)[l] == if lo <= l < hi then v else a[l]
  {
    var s, e := SliceIndex(lo, |a|), SliceIndex(hi, |a|);
    assert s <= l < e <==> lo <= l < hi;
  }

  /** Multipoles below lmin keep the label -1. */
  lemma BelowLminUnlabelled(len: nat, nlb: nat, lmin: int, i: nat, l: nat)
    requires 0 <= lmin && l < len && l < lmin
    ensures Labels(len, nlb, lmin, i)[l] == -1
  {
    LabelsClosedForm(len, nlb, lmin, i, l);
  }

  /** After the loop, every multipole at or above lmax - 1 keeps the label -1. */
  lemma TopUnlabelled(len: nat, nlb: nat, lmin: int, lmax: int, nbins: nat, l: nat)
    requires 0 <= lmin && l < len && l >= lmax - 1
    requires forall k: nat :: Continues(nlb, lmin, lmax, k) <==> k < nbins
    ensures Labels(len, nlb, lmin, nbins)[l] == -1
  {
    LabelsClosedForm(len, nlb, lmin, nbins, l);
    if nbins > 0 {
      assert Continues(nlb, lmin, lmax, nbins - 1);
    }
  }

  /** Pass v labels exactly the multipoles of [(nlb + 1) v + lmin, (nlb + 1) (v + 1) + lmin). */
  lemma BinIsSlice(len: nat, nlb: nat, lmin: int, i: nat, v: nat, l: nat)
    requires 0 <= lmin && l < len && v < i
    ensures Labels(len, nlb, lmin, i)[l] == v <==> (nlb + 1) * v + lmin <= l < (nlb + 1) * (v + 1) + lmin
  {
    LabelsClosedForm(len, nlb, lmin, i, l);
    MulMonotone(nlb + 1, v + 1, i);
    QuotientIs(l - lmin, nlb + 1, v);
  }

  /** x / w == v exactly when x lies in [w v, w (v + 1)). */
  lemma QuotientIs(x: int, w: int, v: nat)
    requires w > 0
    ensures x / w == v <==> w * v <= x < w * (v + 1)
  {
    var q, m := x / w, x % w;
    assert x == w * q + m && 0 <= m < w;
    assert w * (q + 1) == w * q + w;
    if w * v <= x < w * (v + 1) {
      DivBetween(x, w, v);
    }
  }

  /** Labels never decrease with the multipole inside the labelled range. */
  lemma LabelsMonotone(len: nat, nlb: nat, lmin: int, i: nat, l: nat, l': nat)
    requires 0 <= lmin && lmin <= l <= l' < len && l' < (nlb + 1) * i + lmin
    ensures 0 <= Labels(len, nlb, lmin, i)[l] <= Labels(len, nlb, lmin, i)[l']
  {
    LabelsClosedForm(len, nlb, lmin, i, l);
    LabelsClosedForm(len, nlb, lmin, i, l');
    DivMonotone(l - lmin, l' - lmin, nlb + 1);
  }

  lemma DivMonotone(x: int, y: int, w: int)
    requires 0 <= x <= y && w > 0
    ensures 0 <= x / w <= y / w
  {
    var q, q' := x / w, y / w;
    assert x == w * q + x % w && y == w * q' + y % w;
    if q' < q {
      MulMonotoneInt(w, q' + 1, q);
    }
  }

  /** The labels start at 0 at lmin and go up by at most one from each multipole to the next. */
  lemma LabelsConsecutive(len: nat, nlb: nat, lmin: int, i: nat, l: nat)
    requires 0 <= lmin && lmin <= l && l + 1 < len && l + 1 < (nlb + 1) * i + lmin
    ensures Labels(len, nlb, lmin, i)[lmin] == 0
    ensures Labels(len, nlb, lmin, i)[l + 1] - Labels(len, nlb, lmin, i)[l] <= 1
  {
    var w := nlb + 1;
    LabelsClosedForm(len, nlb, lmin, i, lmin);
    LabelsClosedForm(len, nlb, lmin, i, l);
    LabelsClosedForm(len, nlb, lmin, i, l + 1);
    DivBetween(0, w, 0);
    QuotientStep(l - lmin, w);
  }

  /** Adding one to a non-negative numerator raises the quotient by at most one. */
  lemma QuotientStep(x: int, w: int)
    requires x >= 0 && w > 0
    ensures (x + 1) / w - x / w <= 1
  {
    var q, m := x / w, x % w;
    assert x == w * q + m && 0 <= m < w;
    assert w * (q + 1) == w * q + w && w * (q + 2) == w * q + 2 * w;
    if m + 1 == w {
      DivBetween(x + 1, w, q + 1);
    } else {
      DivBetween(x + 1, w, q);
    }
  }
}
