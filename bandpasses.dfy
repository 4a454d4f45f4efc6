/**
 * Frequency channels and their bandpass systematics (bbpower/bandpasses.py).
 *
 * A Bandpass holds one channel's frequency samples and quadrature-weighted
 * response, its CMB-weighted mean frequency, and the flags and parameter names
 * of the systematics (frequency shift, gain, polarisation angle, linear phase
 * "dphi1") configured for it. convolve_sed integrates an SED through the
 * channel; get_rotation_matrix and rotate_cells apply the angle systematic.
 *
 * Transcendental pieces the source takes from NumPy and fgbuster (the CMB
 * K_RJ SED, sqrt, cos, sin, pi) are not computed here: they are passed in as
 * uninterpreted values in a Primitives bundle.
 */
module Bandpasses {
  import opened Wrappers
  import opened LinAlg

  datatype Complex = Complex(re: real, im: real)

  const CZero := Complex(0.0, 0.0)
  const COne := Complex(1.0, 0.0)

  function CAdd(a: Complex, b: Complex): Complex {
    Complex(a.re + b.re, a.im + b.im)
  }

  function CMul(a: Complex, b: Complex): Complex {
    Complex(a.re * b.re - a.im * b.im, a.re * b.im + a.im * b.re)
  }

  function CScale(c: real, a: Complex): Complex {
    Complex(c * a.re, c * a.im)
  }

  /** |b|^2. */
  function NormSq(b: Complex): real {
    b.re * b.re + b.im * b.im
  }

  /** Complex division a / b: the q with q * b = a. */
  function CDiv(a: Complex, b: Complex): (q: Complex)
    requires NormSq(b) != 0.0
    ensures CMul(q, b) == a
  {
    var d := NormSq(b);
    var q := Complex((a.re * b.re + a.im * b.im) / d, (a.im * b.re - a.re * b.im) / d);
    DivisionIdentity(a, b, d, q);
    q
  }

  lemma DivisionIdentity(a: Complex, b: Complex, d: real, q: Complex)
    requires d == b.re * b.re + b.im * b.im && d != 0.0
    requires q.re * d == a.re * b.re + a.im * b.im && q.im * d == a.im * b.re - a.re * b.im
    ensures CMul(q, b) == a
  {
    var p := CMul(q, b);
    calc {
      p.re * d;
      (q.re * b.re - q.im * b.im) * d;
      (q.re * d) * b.re - (q.im * d) * b.im;
      (a.re * b.re + a.im * b.im) * b.re - (a.im * b.re - a.re * b.im) * b.im;
      a.re * d;
    }
    calc {
      p.im * d;
      (q.re * b.im + q.im * b.re) * d;
      (q.re * d) * b.im + (q.im * d) * b.re;
      (a.re * b.re + a.im * b.im) * b.im + (a.im * b.re - a.re * b.im) * b.re;
      a.im * d;
    }
    CancelNonZero(d, p.re, a.re);
    CancelNonZero(d, p.im, a.im);
  }

  lemma CancelNonZero(d: real, x: real, y: real)
    requires d != 0.0 && x * d == y * d
    ensures x == y
  {
    assert (x - y) * d == 0.0;
  }

  lemma SquarePos(x: real)
    requires x != 0.0
    ensures x * x > 0.0
  {
    if x < 0.0 {
      assert x * x == (-x) * (-x);
    }
  }

  function CSum(s: seq<Complex>): Complex {
    if |s| == 0 then CZero else CAdd(s[0], CSum(s[1..]))
  }

  /** A sum of complex numbers with no imaginary part has no imaginary part. */
  lemma {:induction false} CSumOfReals(s: seq<Complex>)
    requires forall i :: 0 <= i < |s| ==> s[i].im == 0.0
    ensures CSum(s).im == 0.0
  {
    if |s| > 0 {
      CSumOfReals(s[1..]);
    }
  }

  /** The uninterpreted numerics: fgbuster's CMB('K_RJ') SED, np.sqrt, np.cos, np.sin and np.pi. */
  datatype Primitives = Primitives(cmb: real -> real, sqrt: real -> real, cos: real -> real, sin: real -> real, pi: real)

  function Identity2(): Matrix {
    [[1.0, 0.0], [0.0, 1.0]]
  }

  /** The matrix [[c, s], [-s, c]] used both for angle rotations and for complex phases. */
  function RotationLike(c: real, s: real): Matrix {
    [[c, s], [-s, c]]
  }

  function Transpose2(m: Matrix): Matrix
    requires IsMatrix(m, 2, 2)
  {
    [[m[0][0], m[1][0]], [m[0][1], m[1][1]]]
  }

  function MatMul2(a: Matrix, b: Matrix): Matrix
    requires IsMatrix(a, 2, 2) && IsMatrix(b, 2, 2)
  {
    [[a[0][0] * b[0][0] + a[0][1] * b[1][0], a[0][0] * b[0][1] + a[0][1] * b[1][1]],
     [a[1][0] * b[0][0] + a[1][1] * b[1][0], a[1][0] * b[0][1] + a[1][1] * b[1][1]]]
  }

  /** [[c, s], [-s, c]] with c^2 + s^2 = 1 is orthogonal: its transpose undoes it. */
  lemma RotationOrthogonal(c: real, s: real)
    requires c * c + s * s == 1.0
    ensures MatMul2(Transpose2(RotationLike(c, s)), RotationLike(c, s)) == Identity2()
    ensures MatMul2(RotationLike(c, s), Transpose2(RotationLike(c, s))) == Identity2()
  {
    var r := RotationLike(c, s);
    var p := MatMul2(Transpose2(r), r);
    var q := MatMul2(r, Transpose2(r));
    assert p[0][0] == c * c + (-s) * (-s) == 1.0;
    assert p[0][1] == c * s + (-s) * c == 0.0;
    assert p[1][0] == s * c + c * (-s) == 0.0;
    assert p[1][1] == s * s + c * c == 1.0;
    assert q[0][0] == c * c + s * s == 1.0;
    assert q[0][1] == c * (-s) + s * c == 0.0;
    assert q[1][0] == (-s) * c + c * s == 0.0;
    assert q[1][1] == (-s) * (-s) + c * c == 1.0;
    MatrixEq(p, Identity2(), 2, 2);
    MatrixEq(q, Identity2(), 2, 2);
  }

  /** One entry of a channel's `parameters` block: the parameter's name and its kind p[0]. */
  datatype SysParam = SysParam(name: string, kind: string)

  /**
   * config['systematics']['bandpasses']['bandpass_<k>'] for one channel: the
   * phase_nu file name and the parameters block, None where the key is missing.
   * A null phase_nu is written as the empty string (both are falsy).
   */
  datatype ChannelConfig = ChannelConfig(phaseNu: Option<string>, parameters: Option<seq<SysParam>>)

  /**
   * The systematics configuration, keyed by channel number k (the field name
   * 'bandpass_%d' % k is injective in k), and the contents of each phase file:
   * phi(nu) in radians, interpolated with zero outside the table.
   */
  datatype SystematicsConfig = SystematicsConfig(channels: map<nat, ChannelConfig>, phaseTable: string -> real -> real)

  /** The `phase_nu` lookup; None stands for the KeyError branch. */
  function PhaseFile(cfg: SystematicsConfig, k: nat): Option<string> {
    if k in cfg.channels then cfg.channels[k].phaseNu else None
  }

  /** `if fname:` */
  predicate HasPhase(cfg: SystematicsConfig, k: nat) {
    PhaseFile(cfg, k).Some? && PhaseFile(cfg, k).value != ""
  }

  /** The `parameters` lookup; a missing key gives the empty dict. */
  function ChannelParams(cfg: SystematicsConfig, k: nat): seq<SysParam> {
    if k in cfg.channels && cfg.channels[k].parameters.Some? then cfg.channels[k].parameters.value else []
  }

  /** The name recorded for `kind` after the loop over d.items(): the last entry of that kind wins. */
  function LastNamed(d: seq<SysParam>, kind: string): Option<string> {
    if |d| == 0 then None
    else if d[|d| - 1].kind == kind then Some(d[|d| - 1].name)
    else LastNamed(d[..|d| - 1], kind)
  }

  /**
   * LastNamed picks the name of the last entry of the kind, and is None exactly
   * when no entry has that kind.
   */
  lemma {:induction false} LastNamedIsLast(d: seq<SysParam>, kind: string)
    ensures LastNamed(d, kind).None? <==> forall i :: 0 <= i < |d| ==> d[i].kind != kind
    ensures LastNamed(d, kind).Some? ==>
              exists i :: 0 <= i < |d| && d[i] == SysParam(LastNamed(d, kind).value, kind) &&
                          forall j :: i < j < |d| ==> d[j].kind != kind
  {
    if |d| > 0 && d[|d| - 1].kind != kind {
      var p := d[..|d| - 1];
      LastNamedIsLast(p, kind);
      if LastNamed(p, kind).Some? {
        var i :| 0 <= i < |p| && p[i] == SysParam(LastNamed(p, kind).value, kind) &&
                 forall j :: i < j < |p| ==> p[j].kind != kind;
        assert d[i] == p[i];
      }
      assert forall i :: 0 <= i < |p| ==> d[i] == p[i];
    }
  }

  /** Removing an entry of another kind does not change the name recorded for `kind`. */
  lemma {:induction false} LastNamedIgnoresOtherKinds(d: seq<SysParam>, i: nat, kind: string)
    requires i < |d| && d[i].kind != kind
    ensures LastNamed(d[..i] + d[i + 1..], kind) == LastNamed(d, kind)
  {
    var e := d[..i] + d[i + 1..];
    if i == |d| - 1 {
      assert e == d[..|d| - 1];
    } else {
      var p := d[..|d| - 1];
      assert e[..|e| - 1] == p[..i] + p[i + 1..];
      assert e[|e| - 1] == d[|d| - 1];
      if d[|d| - 1].kind != kind {
        LastNamedIgnoresOtherKinds(p, i, kind);
      }
    }
  }

  /** Without a parameters block no systematic is bound: every do_* flag is false and every name_* is None. */
  lemma NoParametersBlock(bp: Bandpass, nu: Vector, dnu: Vector, bnu: Vector, k: nat, cfg: SystematicsConfig, prim: Primitives)
    requires bp.Constructed(nu, dnu, bnu, k, cfg, prim)
    requires k !in cfg.channels || cfg.channels[k].parameters.None?
    ensures !bp.doShift && !bp.doGain && !bp.doAngle && !bp.doDphi1
    ensures bp.nameShift.None? && bp.nameGain.None? && bp.nameAngle.None? && bp.nameDphi1.None?
  {
    assert ChannelParams(cfg, k) == [];
  }

  /**
   * is_complex as written in __init__: None when the attribute is never
   * assigned. The KeyError branch sets False, a truthy phase file sets True,
   * a present but falsy phase_nu sets nothing; every dphi1 entry sets True.
   */
  function IsComplexAsWritten(cfg: SystematicsConfig, k: nat): (w: Option<bool>)
    ensures HasPhase(cfg, k) ==> w == Some(true)
    ensures PhaseFile(cfg, k).None? ==> w.Some?
  {
    if LastNamed(ChannelParams(cfg, k), "dphi1").Some? then Some(true)
    else match PhaseFile(cfg, k)
         case None => Some(false)
         case Some(f) => if f != "" then Some(true) else None
  }

  /**
   * is_complex stays unassigned exactly for a channel whose phase_nu is present
   * but falsy (the empty string, which also stands for a null entry) and whose
   * parameters block binds no dphi1 entry.
   */
  lemma FalsyPhaseLeavesIsComplexUnset(cfg: SystematicsConfig, k: nat)
    ensures IsComplexAsWritten(cfg, k) == None <==>
              PhaseFile(cfg, k) == Some("") &&
              forall i :: 0 <= i < |ChannelParams(cfg, k)| ==> ChannelParams(cfg, k)[i].kind != "dphi1"
  {
    LastNamedIsLast(ChannelParams(cfg, k), "dphi1");
  }

  /**
   * is_complex with every branch assigning it: true exactly when a phase file
   * is applied or a dphi1 parameter is bound. It agrees with the source
   * wherever the source assigns the attribute.
   */
  function IsComplexFor(cfg: SystematicsConfig, k: nat): (c: bool)
    ensures IsComplexAsWritten(cfg, k).Some? ==> IsComplexAsWritten(cfg, k) == Some(c)
    ensures !HasPhase(cfg, k) && (forall i :: 0 <= i < |ChannelParams(cfg, k)| ==> ChannelParams(cfg, k)[i].kind != "dphi1")
            ==> !c
    ensures LastNamed(ChannelParams(cfg, k), "dphi1").Some? ==> c
    ensures HasPhase(cfg, k) ==> c
  {
    LastNamedIsLast(ChannelParams(cfg, k), "dphi1");
    HasPhase(cfg, k) || LastNamed(ChannelParams(cfg, k), "dphi1").Some?
  }

  /** bnu * dnu, elementwise. */
  function Product(a: Vector, b: Vector): (r: Vector)
    requires |a| == |b|
    ensures |r| == |a| && forall i :: 0 <= i < |a| ==> r[i] == a[i] * b[i]
  {
    seq(|a|, i requires 0 <= i < |a| => a[i] * b[i])
  }

  /** The CMB-weighted response cmb(nu) * w * nu^2 at each sample. */
  function CmbWeight(nu: Vector, w: Vector, cmb: real -> real): (r: Vector)
    requires |w| == |nu|
    ensures |r| == |nu|
  {
    seq(|nu|, i requires 0 <= i < |nu| => cmb(nu[i]) * w[i] * (nu[i] * nu[i]))
  }

  /**
   * nu_mean: the first moment of frequency under the CMB-weighted response.
   * When the weights are non-negative it lies within the sampled frequencies.
   */
  function NuMean(nu: Vector, w: Vector, cmb: real -> real): (m: real)
    requires |w| == |nu| && Sum(CmbWeight(nu, w, cmb)) != 0.0
    ensures m * Sum(CmbWeight(nu, w, cmb)) == Dot(CmbWeight(nu, w, cmb), nu)
  {
    var c := CmbWeight(nu, w, cmb);
    Dot(c, nu) / Sum(c)
  }

  /** With a non-negative CMB-weighted response, nu_mean lies within the sampled frequencies. */
  lemma NuMeanWithinBand(nu: Vector, w: Vector, cmb: real -> real, lo: real, hi: real)
    requires |w| == |nu| && Sum(CmbWeight(nu, w, cmb)) != 0.0
    requires forall i :: 0 <= i < |nu| ==> CmbWeight(nu, w, cmb)[i] >= 0.0 && lo <= nu[i] <= hi
    ensures lo <= NuMean(nu, w, cmb) <= hi
  {
    var c := CmbWeight(nu, w, cmb);
    SumBounds(c, nu, lo, hi);
    SumNonNegative(c);
    QuotientBounds(Dot(c, nu), Sum(c), lo, hi);
  }

  lemma QuotientBounds(t: real, d: real, lo: real, hi: real)
    requires d > 0.0 && lo * d <= t <= hi * d
    ensures lo <= t / d <= hi
  {
    var q := t / d;
    assert q * d == t;
  }

  /** The rotation and scale returned by convolve_sed. */
  datatype Convolved = Convolved(scale: real, rot: Matrix)

  class Bandpass {
    var number: nat
    var nu: Vector
    var bnuDnu: seq<Complex>
    var nuMean: real
    var isComplex: bool
    var doShift: bool
    var nameShift: Option<string>
    var doGain: bool
    var nameGain: Option<string>
    var doAngle: bool
    var nameAngle: Option<string>
    var doDphi1: bool
    var nameDphi1: Option<string>

    /** The flags agree with the recorded names, and only a complex channel has complex weights. */
    ghost predicate Valid()
      reads this
    {
      && |bnuDnu| == |nu|
      && (doShift <==> nameShift.Some?)
      && (doGain <==> nameGain.Some?)
      && (doAngle <==> nameAngle.Some?)
      && (doDphi1 <==> nameDphi1.Some?)
      && (doDphi1 ==> isComplex)
      && (!isComplex ==> forall i :: 0 <= i < |bnuDnu| ==> bnuDnu[i].im == 0.0)
    }

    /** The state in which Bandpass(nu, dnu, bnu, bp_number, config) leaves the object. */
    ghost predicate Constructed(nu: Vector, dnu: Vector, bnu: Vector, bpNumber: nat, cfg: SystematicsConfig, prim: Primitives)
      reads this
    {
      && |dnu| == |nu| && |bnu| == |nu|
      && Sum(CmbWeight(nu, Product(bnu, dnu), prim.cmb)) != 0.0
      && Valid()
      && number == bpNumber && this.nu == nu
      && nuMean == NuMean(nu, Product(bnu, dnu), prim.cmb)
      && |bnuDnu| == |nu|
      && (forall i :: 0 <= i < |nu| ==>
            bnuDnu[i] == if HasPhase(cfg, bpNumber)
                         then CMul(Complex(bnu[i] * dnu[i], 0.0), PhaseFactor(cfg, bpNumber, prim, nu[i]))
                         else Complex(bnu[i] * dnu[i], 0.0))
      && nameShift == LastNamed(ChannelParams(cfg, bpNumber), "shift")
      && nameGain == LastNamed(ChannelParams(cfg, bpNumber), "gain")
      && nameAngle == LastNamed(ChannelParams(cfg, bpNumber), "angle")
      && nameDphi1 == LastNamed(ChannelParams(cfg, bpNumber), "dphi1")
      && isComplex == IsComplexFor(cfg, bpNumber)
    }

    /**
     * Bandpass(nu, dnu, bnu, bp_number, config): the weighted response and
     * nu_mean, the optional phase file folded into the weights as
     * exp(2 i phi(nu)), then the loop over the channel's parameters block.
     */
    constructor (nu: Vector, dnu: Vector, bnu: Vector, bpNumber: nat, cfg: SystematicsConfig, prim: Primitives)
      requires |dnu| == |nu| && |bnu| == |nu|
      requires Sum(CmbWeight(nu, Product(bnu, dnu), prim.cmb)) != 0.0
      ensures Valid()
      ensures number == bpNumber && this.nu == nu
      ensures nuMean == NuMean(nu, Product(bnu, dnu), prim.cmb)
      ensures |bnuDnu| == |nu|
      ensures forall i :: 0 <= i < |nu| ==>
                bnuDnu[i] == if HasPhase(cfg, bpNumber)
                             then CMul(Complex(bnu[i] * dnu[i], 0.0), PhaseFactor(cfg, bpNumber, prim, nu[i]))
                             else Complex(bnu[i] * dnu[i], 0.0)
      ensures nameShift == LastNamed(ChannelParams(cfg, bpNumber), "shift")
      ensures nameGain == LastNamed(ChannelParams(cfg, bpNumber), "gain")
      ensures nameAngle == LastNamed(ChannelParams(cfg, bpNumber), "angle")
      ensures nameDphi1 == LastNamed(ChannelParams(cfg, bpNumber), "dphi1")
      ensures isComplex == IsComplexFor(cfg, bpNumber)
      ensures Constructed(nu, dnu, bnu, bpNumber, cfg, prim)
    {
      var w := Product(bnu, dnu);
      var weights := seq(|nu|, i requires 0 <= i < |nu| => Complex(w[i], 0.0));
      // a missing phase_nu key leaves the channel real
      // (so does a present but falsy one here: see IsComplexAsWritten)
      var complex := false;
      var fname := PhaseFile(cfg, bpNumber);
      if fname.Some? && fname.value != "" {
        weights := seq(|nu|, i requires 0 <= i < |nu| => CMul(weights[i], PhaseFactor(cfg, bpNumber, prim, nu[i])));
        complex := true;
      }
      var shift, gain, angle, dphi1 := false, false, false, false;
      var shiftName, gainName, angleName, dphi1Name: Option<string> := None, None, None, None;
      var d := ChannelParams(cfg, bpNumber);
      var k := 0;
      while k < |d|
        invariant 0 <= k <= |d|
        invariant shiftName == LastNamed(d[..k], "shift") && (shift <==> shiftName.Some?)
        invariant gainName == LastNamed(d[..k], "gain") && (gain <==> gainName.Some?)
        invariant angleName == LastNamed(d[..k], "angle") && (angle <==> angleName.Some?)
        invariant dphi1Name == LastNamed(d[..k], "dphi1") && (dphi1 <==> dphi1Name.Some?)
        invariant complex == (HasPhase(cfg, bpNumber) || dphi1)
      {
        var p := d[k];
        assert d[..k + 1][..k] == d[..k] && d[..k + 1][k] == p;
        if p.kind == "shift" {
          shift, shiftName := true, Some(p.name);
        }
        if p.kind == "gain" {
          gain, gainName := true, Some(p.name);
        }
        if p.kind == "angle" {
          angle, angleName := true, Some(p.name);
        }
        if p.kind == "dphi1" {
          dphi1, dphi1Name := true, Some(p.name);
          complex := true;
        }
        k := k + 1;
      }
      assert d[..|d|] == d;
      number := bpNumber;
      this.nu := nu;
      bnuDnu := weights;
      nuMean := NuMean(nu, w, prim.cmb);
      isComplex := complex;
      doShift, nameShift := shift, shiftName;
      doGain, nameGain := gain, gainName;
      doAngle, nameAngle := angle, angleName;
      doDphi1, nameDphi1 := dphi1, dphi1Name;
    }

    /** Every systematics parameter bound to this channel has a value in params. */
    ghost predicate BoundIn(params: map<string, real>)
      reads this
    {
      && (nameShift.Some? ==> nameShift.value in params)
      && (nameGain.Some? ==> nameGain.value in params)
      && (nameAngle.Some? ==> nameAngle.value in params)
      && (nameDphi1.Some? ==> nameDphi1.value in params)
    }

    /**
     * nu_prime = nu + dnu: without a shift the samples stay put; with one,
     * every sample moves by the same params[name_shift] * nu_mean.
     */
    function NuPrime(params: map<string, real>): (np: Vector)
      reads this
      requires Valid() && BoundIn(params)
      ensures |np| == |nu|
      ensures !doShift ==> np == nu
      ensures doShift ==> forall i :: 0 <= i < |nu| ==> np[i] - nu[i] == params[nameShift.value] * nuMean
    {
      Shifted(nu, if doShift then params[nameShift.value] * nuMean else 0.0)
    }

    /**
     * dphi1_phase: exp(2 i dphi1 (pi/180) (nu - nu_mean) / nu_mean) per sample
     * when a dphi1 parameter is bound, else 1.
     */
    function Dphi1Phase(params: map<string, real>, prim: Primitives): (ph: seq<Complex>)
      reads this
      requires Valid() && BoundIn(params) && (doDphi1 ==> nuMean != 0.0)
      ensures |ph| == |nu|
      ensures !doDphi1 ==> forall i :: 0 <= i < |nu| ==> ph[i] == COne
      ensures doDphi1 ==> forall i :: 0 <= i < |nu| ==> ph[i] == LinearPhase(params[nameDphi1.value], nu[i], nuMean, prim)
    {
      var ns, mean := nu, nuMean;
      if doDphi1 then
        var dphi1 := params[nameDphi1.value];
        seq(|ns|, i requires 0 <= i < |ns| => LinearPhase(dphi1, ns[i], mean, prim))
      else
        seq(|ns|, i requires 0 <= i < |ns| => COne)
    }

    /** cmb_norm: the CMB reference integral at the (possibly shifted) samples. */
    function CmbNorm(params: map<string, real>, prim: Primitives): (z: Complex)
      reads this
      requires Valid() && BoundIn(params)
      ensures !isComplex ==> z.im == 0.0
    {
      var z := Quadrature(prim.cmb, NuPrime(params), bnuDnu);
      if isComplex then z else QuadratureOfReals(prim.cmb, NuPrime(params), bnuDnu); z
    }

    /** The divisions convolve_sed performs: by cmb_norm, by nu_mean (for dphi1) and, on the complex path, by |conv_sed|. */
    ghost predicate Convolvable(sed: real -> real, params: map<string, real>, prim: Primitives)
      reads this
    {
      && Valid() && BoundIn(params)
      && (doDphi1 ==> nuMean != 0.0)
      && NormSq(CmbNorm(params, prim)) != 0.0
      && (isComplex ==> Modulus(GainedConvolution(sed, params, prim), prim) != 0.0)
    }

    /** conv_sed before the gain: the SED integral over the CMB reference integral. */
    function RawConvolution(sed: real -> real, params: map<string, real>, prim: Primitives): Complex
      reads this
      requires Valid() && BoundIn(params) && (doDphi1 ==> nuMean != 0.0) && NormSq(CmbNorm(params, prim)) != 0.0
    {
      var weights := PhaseWeighted(bnuDnu, Dphi1Phase(params, prim));
      CDiv(Quadrature(sed, NuPrime(params), weights), CmbNorm(params, prim))
    }

    /** conv_sed after `if self.do_gain: conv_sed *= params[self.name_gain]`. */
    function GainedConvolution(sed: real -> real, params: map<string, real>, prim: Primitives): (g: Complex)
      reads this
      requires Valid() && BoundIn(params) && (doDphi1 ==> nuMean != 0.0) && NormSq(CmbNorm(params, prim)) != 0.0
      ensures !isComplex ==> g.im == 0.0
    {
      var raw := RawConvolution(sed, params, prim);
      var g := if doGain then CScale(params[nameGain.value], raw) else raw;
      if isComplex then g else RealChannelIsReal(sed, params, prim); g
    }

    /**
     * convolve_sed(sed, params). A real channel returns its real convolution,
     * which has no imaginary part, and the 2x2 identity; a complex channel
     * returns mod = |conv_sed| and [[cs, sn], [-sn, cs]] with
     * mod * (cs, sn) = conv_sed.
     */
    function ConvolveSed(sed: real -> real, params: map<string, real>, prim: Primitives): (r: Convolved)
      reads this
      requires Convolvable(sed, params, prim)
      ensures !isComplex ==>
                GainedConvolution(sed, params, prim).im == 0.0 &&
                r == Convolved(GainedConvolution(sed, params, prim).re, Identity2())
      ensures isComplex ==> IsPolarForm(GainedConvolution(sed, params, prim), r, prim)
    {
      var conv := GainedConvolution(sed, params, prim);
      if isComplex then
        var mod := Modulus(conv, prim);
        PolarFormOfQuotient(conv, mod, prim);
        Convolved(mod, RotationLike(conv.re / mod, conv.im / mod))
      else
        Convolved(conv.re, Identity2())
    }

    /** Without a phase file or dphi1, conv_sed before the gain is real. */
    lemma RealChannelIsReal(sed: real -> real, params: map<string, real>, prim: Primitives)
      requires Valid() && BoundIn(params) && NormSq(CmbNorm(params, prim)) != 0.0 && !isComplex
      ensures RawConvolution(sed, params, prim).im == 0.0
    {
      var ph := Dphi1Phase(params, prim);
      var np := NuPrime(params);
      PhaseWeightedByOne(bnuDnu, ph);
      QuadratureOfReals(sed, np, bnuDnu);
      RealQuotient(Quadrature(sed, np, bnuDnu), CmbNorm(params, prim));
    }

    /**
     * With no systematics, convolve_sed integrates at the unshifted samples,
     * divides by the CMB reference integral there and returns the identity.
     */
    lemma ConvolveSedPlain(sed: real -> real, params: map<string, real>, prim: Primitives)
      requires Convolvable(sed, params, prim)
      requires !doShift && !doGain && !isComplex
      ensures ConvolveSed(sed, params, prim) ==
                Convolved(CDiv(Quadrature(sed, nu, bnuDnu), Quadrature(prim.cmb, nu, bnuDnu)).re, Identity2())
    {
      PhaseWeightedByOne(bnuDnu, Dphi1Phase(params, prim));
    }

    /**
     * A distortion-free channel convolving the CMB reference SED itself
     * returns scale 1: the normalisation convention is self-consistent.
     */
    lemma ConvolveCmbIsUnity(params: map<string, real>, prim: Primitives)
      requires Convolvable(prim.cmb, params, prim)
      requires !doShift && !doGain && !isComplex
      ensures ConvolveSed(prim.cmb, params, prim) == Convolved(1.0, Identity2())
    {
      ConvolveSedPlain(prim.cmb, params, prim);
      var z := Quadrature(prim.cmb, nu, bnuDnu);
      QuadratureOfReals(prim.cmb, nu, bnuDnu);
      SelfQuotient(z);
    }

    /**
     * Gain multiplies the result: on a real channel the scale is
     * params[name_gain] times the scale without gain.
     */
    lemma GainScalesRealChannel(sed: real -> real, params: map<string, real>, prim: Primitives)
      requires Convolvable(sed, params, prim) && !isComplex && doGain
      ensures ConvolveSed(sed, params, prim).scale == params[nameGain.value] * RawConvolution(sed, params, prim).re
    {
    }

    /**
     * On the complex path, when the modulus returned squares back to
     * |conv_sed|^2 (prim.sqrt is exact there), cs^2 + sn^2 = 1 and the
     * returned matrix is orthogonal.
     */
    lemma ComplexPathIsRotation(sed: real -> real, params: map<string, real>, prim: Primitives)
      requires Convolvable(sed, params, prim) && isComplex
      requires ExactModulus(GainedConvolution(sed, params, prim), ConvolveSed(sed, params, prim))
      ensures IsUnitRotation(ConvolveSed(sed, params, prim).rot)
    {
      PolarFormIsRotation(GainedConvolution(sed, params, prim), ConvolveSed(sed, params, prim), prim);
    }

    /** get_rotation_matrix: rotation by twice the bound angle (degrees), else the identity. */
    function RotationMatrix(params: map<string, real>, prim: Primitives): (m: Matrix)
      reads this
      requires Valid() && BoundIn(params)
      ensures IsMatrix(m, 2, 2)
      ensures !doAngle ==> m == Identity2()
      ensures doAngle ==> m == AngleRotation(params[nameAngle.value], prim)
    {
      if doAngle then AngleRotation(params[nameAngle.value], prim) else Identity2()
    }
  }

  /** 2 * phi for an angle of deg degrees, phi = deg * pi / 180. */
  function DoubledAngle(deg: real, prim: Primitives): real {
    2.0 * (deg * prim.pi / 180.0)
  }

  /** [[cos 2phi, sin 2phi], [-sin 2phi, cos 2phi]] for an angle of deg degrees. */
  function AngleRotation(deg: real, prim: Primitives): Matrix {
    RotationLike(prim.cos(DoubledAngle(deg, prim)), prim.sin(DoubledAngle(deg, prim)))
  }

  /** The supplied cos and sin satisfy cos^2 + sin^2 = 1 at x. */
  predicate UnitAt(prim: Primitives, x: real) {
    prim.cos(x) * prim.cos(x) + prim.sin(x) * prim.sin(x) == 1.0
  }

  /** The phase factor exp(2 i phi(nu)) from the channel's phase file. */
  function PhaseFactor(cfg: SystematicsConfig, k: nat, prim: Primitives, nu: real): Complex
    requires HasPhase(cfg, k)
  {
    var phi := cfg.phaseTable(PhaseFile(cfg, k).value);
    Complex(prim.cos(2.0 * phi(nu)), prim.sin(2.0 * phi(nu)))
  }

  /** exp(2 i dphi1 (pi/180) (nu - nu_mean) / nu_mean). */
  function LinearPhase(dphi1: real, nu: real, nuMean: real, prim: Primitives): Complex
    requires nuMean != 0.0
  {
    var normed := dphi1 * prim.pi / 180.0 * (nu - nuMean) / nuMean;
    Complex(prim.cos(2.0 * normed), prim.sin(2.0 * normed))
  }

  /** Every sample moved by the same offset. */
  function Shifted(nu: Vector, offset: real): (r: Vector)
    ensures |r| == |nu| && forall i :: 0 <= i < |nu| ==> r[i] - nu[i] == offset
    ensures offset == 0.0 ==> r == nu
  {
    seq(|nu|, i requires 0 <= i < |nu| => nu[i] + offset)
  }

  /** bnu_dnu * dphi1_phase, elementwise. */
  function PhaseWeighted(w: seq<Complex>, ph: seq<Complex>): (r: seq<Complex>)
    requires |w| == |ph|
    ensures |r| == |w| && forall i :: 0 <= i < |w| ==> r[i] == CMul(w[i], ph[i])
  {
    seq(|w|, i requires 0 <= i < |w| => CMul(w[i], ph[i]))
  }

  /** A phase of 1 everywhere leaves the weights as they are. */
  lemma PhaseWeightedByOne(w: seq<Complex>, ph: seq<Complex>)
    requires |w| == |ph| && forall i :: 0 <= i < |ph| ==> ph[i] == COne
    ensures PhaseWeighted(w, ph) == w
  {
    var r := PhaseWeighted(w, ph);
    forall i | 0 <= i < |w| ensures r[i] == w[i] {
      assert r[i] == CMul(w[i], COne);
    }
  }

  /** np.sum(f(nu) * w * nu**2) over the samples. */
  function Quadrature(f: real -> real, nu: Vector, w: seq<Complex>): Complex
    requires |w| == |nu|
  {
    CSum(seq(|nu|, i requires 0 <= i < |nu| => Integrand(f, nu[i], w[i])))
  }

  /** One term f(nu) * w * nu^2 of the quadrature. */
  function Integrand(f: real -> real, nu: real, w: Complex): (t: Complex)
    ensures w.im == 0.0 ==> t.im == 0.0
  {
    CScale(f(nu) * (nu * nu), w)
  }

  lemma QuadratureOfReals(f: real -> real, nu: Vector, w: seq<Complex>)
    requires |w| == |nu| && forall i :: 0 <= i < |w| ==> w[i].im == 0.0
    ensures Quadrature(f, nu, w).im == 0.0
  {
    CSumOfReals(seq(|nu|, i requires 0 <= i < |nu| => Integrand(f, nu[i], w[i])));
  }

  /** A quotient of two reals, as complex numbers, is real. */
  lemma RealQuotient(a: Complex, b: Complex)
    requires a.im == 0.0 && b.im == 0.0 && NormSq(b) != 0.0
    ensures CDiv(a, b).im == 0.0
  {
    assert a.im * b.re - a.re * b.im == 0.0;
  }

  /** z / z == 1. */
  lemma SelfQuotient(z: Complex)
    requires NormSq(z) != 0.0 && z.im == 0.0
    ensures CDiv(z, z) == COne
  {
    var q := CDiv(z, z);
    RealQuotient(z, z);
    assert CMul(q, z) == z;
    assert q.re * z.re == z.re;
  }

  /** abs(z) = sqrt(re^2 + im^2). */
  function Modulus(z: Complex, prim: Primitives): real {
    prim.sqrt(z.re * z.re + z.im * z.im)
  }

  /** r is mod = |z| with the matrix [[cs, sn], [-sn, cs]] and mod * (cs, sn) = z. */
  predicate IsPolarForm(z: Complex, r: Convolved, prim: Primitives) {
    && r.scale == Modulus(z, prim)
    && IsMatrix(r.rot, 2, 2)
    && r.rot == RotationLike(r.rot[0][0], r.rot[0][1])
    && r.scale * r.rot[0][0] == z.re
    && r.scale * r.rot[0][1] == z.im
  }

  /** The scale returned squares back to |z|^2. */
  predicate ExactModulus(z: Complex, r: Convolved) {
    r.scale * r.scale == z.re * z.re + z.im * z.im
  }

  /** [[c, s], [-s, c]] with c^2 + s^2 = 1, which its transpose inverts. */
  predicate IsUnitRotation(m: Matrix) {
    && IsMatrix(m, 2, 2)
    && m == RotationLike(m[0][0], m[0][1])
    && m[0][0] * m[0][0] + m[0][1] * m[0][1] == 1.0
    && MatMul2(Transpose2(m), m) == Identity2()
  }

  /** When the modulus squares to |z|^2, the matrix of a polar form is a rotation. */
  lemma PolarFormIsRotation(z: Complex, r: Convolved, prim: Primitives)
    requires IsPolarForm(z, r, prim) && r.scale != 0.0 && ExactModulus(z, r)
    ensures IsUnitRotation(r.rot)
  {
    UnitCircle(r.scale, z.re, z.im, r.rot[0][0], r.rot[0][1]);
    RotationOrthogonal(r.rot[0][0], r.rot[0][1]);
  }


  lemma PolarFormOfQuotient(z: Complex, mod: real, prim: Primitives)
    requires mod == Modulus(z, prim) && mod != 0.0
    ensures IsPolarForm(z, Convolved(mod, RotationLike(z.re / mod, z.im / mod)), prim)
  {
  }

  /** If m^2 = x^2 + y^2 with m != 0 and m * (cs, sn) = (x, y), then cs^2 + sn^2 = 1. */
  lemma UnitCircle(m: real, x: real, y: real, cs: real, sn: real)
    requires m * m == x * x + y * y && m != 0.0
    requires m * cs == x && m * sn == y
    ensures cs * cs + sn * sn == 1.0
  {
    calc {
      (m * m) * (cs * cs + sn * sn);
      (m * cs) * (m * cs) + (m * sn) * (m * sn);
      x * x + y * y;
      m * m;
    }
    CancelSquare(m, cs * cs + sn * sn);
  }

  lemma CancelSquare(m: real, z: real)
    requires m != 0.0 && (m * m) * z == m * m
    ensures z == 1.0
  {
    SquarePos(m);
    assert (m * m) * (z - 1.0) == 0.0;
  }

  /** np.einsum('ijk,lk', cls, mat1): out[i][j][l] = sum_k cls[i][j][k] * mat1[l][k]. */
  function ContractLast(cls: Tensor3, mat1: Matrix, inner: nat): (out: Tensor3)
    requires forall i, j :: 0 <= i < |cls| && 0 <= j < |cls[i]| ==> |cls[i][j]| == inner
    requires forall l :: 0 <= l < |mat1| ==> |mat1[l]| == inner
    ensures |out| == |cls|
    ensures forall i :: 0 <= i < |cls| ==> |out[i]| == |cls[i]|
    ensures forall i, j :: 0 <= i < |cls| && 0 <= j < |cls[i]| ==> |out[i][j]| == |mat1|
    ensures forall i, j, l :: 0 <= i < |cls| && 0 <= j < |cls[i]| && 0 <= l < |mat1| ==>
              out[i][j][l] == Dot(cls[i][j], mat1[l])
  {
    seq(|cls|, i requires 0 <= i < |cls| =>
      seq(|cls[i]|, j requires 0 <= j < |cls[i]| =>
        seq(|mat1|, l requires 0 <= l < |mat1| => Dot(cls[i][j], mat1[l]))))
  }

  /** The column l of matrix m with `rows` rows. */
  function Column(m: Matrix, rows: nat, l: nat): (c: Vector)
    requires |m| == rows && forall k :: 0 <= k < rows ==> l < |m[k]|
    ensures |c| == rows && forall k :: 0 <= k < rows ==> c[k] == m[k][l]
  {
    seq(rows, k requires 0 <= k < rows => m[k][l])
  }

  /** np.einsum('jk,ikl', mat2, cls): out[i][j][l] = sum_k mat2[j][k] * cls[i][k][l]. */
  function ContractMiddle(mat2: Matrix, cls: Tensor3, inner: nat, cols: nat): (out: Tensor3)
    requires forall j :: 0 <= j < |mat2| ==> |mat2[j]| == inner
    requires IsTensor3(cls, |cls|, inner, cols)
    ensures IsTensor3(out, |cls|, |mat2|, cols)
    ensures forall i, j, l :: 0 <= i < |cls| && 0 <= j < |mat2| && 0 <= l < cols ==>
              out[i][j][l] == Dot(mat2[j], Column(cls[i], inner, l))
  {
    seq(|cls|, i requires 0 <= i < |cls| =>
      seq(|mat2|, j requires 0 <= j < |mat2| =>
        seq(cols, l requires 0 <= l < cols => Dot(mat2[j], Column(cls[i], inner, l)))))
  }

  /**
   * sum_k sum_m mat2[j][k] cls[i][k][m] mat1[l][m], written out for 2x2
   * blocks: the (j, l) entry of mat2 . cls[i] . mat1^T.
   */
  function Sandwich(mat1: Matrix, mat2: Matrix, c: Matrix, j: nat, l: nat): real
    requires IsMatrix(mat1, 2, 2) && IsMatrix(mat2, 2, 2) && IsMatrix(c, 2, 2) && j < 2 && l < 2
  {
    mat2[j][0] * (c[0][0] * mat1[l][0] + c[0][1] * mat1[l][1]) +
    mat2[j][1] * (c[1][0] * mat1[l][0] + c[1][1] * mat1[l][1])
  }

  /**
   * rotate_cells_mat(mat1, mat2, cls) for band powers cls of shape (bins, 2, 2):
   * every bin becomes mat2 . cls[i] . mat1^T, so the last axis is rotated by
   * mat1 and the middle axis by mat2.
   */
  function RotateCellsMat(mat1: Matrix, mat2: Matrix, cls: Tensor3): (out: Tensor3)
    requires IsMatrix(mat1, 2, 2) && IsMatrix(mat2, 2, 2) && IsTensor3(cls, |cls|, 2, 2)
    ensures IsTensor3(out, |cls|, 2, 2)
    ensures forall i, j, l :: 0 <= i < |cls| && 0 <= j < 2 && 0 <= l < 2 ==>
              out[i][j][l] == Sandwich(mat1, mat2, cls[i], j, l)
  {
    var out := ContractMiddle(mat2, ContractLast(cls, mat1, 2), 2, 2);
    forall i, j, l | 0 <= i < |cls| && 0 <= j < 2 && 0 <= l < 2
      ensures out[i][j][l] == Sandwich(mat1, mat2, cls[i], j, l)
    {
      RotateEntry(mat1, mat2, cls, i, j, l);
    }
    out
  }

  lemma RotateEntry(mat1: Matrix, mat2: Matrix, cls: Tensor3, i: nat, j: nat, l: nat)
    requires IsMatrix(mat1, 2, 2) && IsMatrix(mat2, 2, 2) && IsTensor3(cls, |cls|, 2, 2)
    requires i < |cls| && j < 2 && l < 2
    ensures ContractMiddle(mat2, ContractLast(cls, mat1, 2), 2, 2)[i][j][l] == Sandwich(mat1, mat2, cls[i], j, l)
  {
    var once := ContractLast(cls, mat1, 2);
    var col := Column(once[i], 2, l);
    Dot2(mat2[j], col);
    Dot2(cls[i][0], mat1[l]);
    Dot2(cls[i][1], mat1[l]);
  }

  /** Identity matrices on both axes leave the band powers unchanged. */
  lemma RotateByIdentity(cls: Tensor3)
    requires IsTensor3(cls, |cls|, 2, 2)
    ensures RotateCellsMat(Identity2(), Identity2(), cls) == cls
  {
    var out := RotateCellsMat(Identity2(), Identity2(), cls);
    Tensor3Eq(out, cls, |cls|, 2, 2);
  }

  /** rotate_cells(bp1, bp2, cls, params): rotate by each channel's angle matrix. */
  function RotateCells(bp1: Bandpass, bp2: Bandpass, cls: Tensor3, params: map<string, real>, prim: Primitives): (out: Tensor3)
    reads bp1, bp2
    requires bp1.Valid() && bp1.BoundIn(params) && bp2.Valid() && bp2.BoundIn(params)
    requires IsTensor3(cls, |cls|, 2, 2)
    ensures IsTensor3(out, |cls|, 2, 2)
    ensures forall i, j, l :: 0 <= i < |cls| && 0 <= j < 2 && 0 <= l < 2 ==>
              out[i][j][l] == Sandwich(bp1.RotationMatrix(params, prim), bp2.RotationMatrix(params, prim), cls[i], j, l)
  {
    RotateCellsMat(bp1.RotationMatrix(params, prim), bp2.RotationMatrix(params, prim), cls)
  }

  /**
   * The matrix get_rotation_matrix returns is orthogonal whenever the supplied
   * cos and sin satisfy cos^2 + sin^2 = 1 at the doubled angle.
   */
  lemma RotationMatrixOrthogonal(bp: Bandpass, params: map<string, real>, prim: Primitives)
    requires bp.Valid() && bp.BoundIn(params)
    requires bp.doAngle ==> UnitAt(prim, DoubledAngle(params[bp.nameAngle.value], prim))
    ensures var m := bp.RotationMatrix(params, prim);
            MatMul2(Transpose2(m), m) == Identity2() && MatMul2(m, Transpose2(m)) == Identity2()
  {
    if bp.doAngle {
      var x := DoubledAngle(params[bp.nameAngle.value], prim);
      RotationOrthogonal(prim.cos(x), prim.sin(x));
    } else {
      MatrixEq(MatMul2(Transpose2(Identity2()), Identity2()), Identity2(), 2, 2);
    }
  }

  /** Two channels without an angle parameter leave the band powers unchanged. */
  lemma RotateCellsWithoutAngles(bp1: Bandpass, bp2: Bandpass, cls: Tensor3, params: map<string, real>, prim: Primitives)
    requires bp1.Valid() && bp1.BoundIn(params) && bp2.Valid() && bp2.BoundIn(params)
    requires IsTensor3(cls, |cls|, 2, 2)
    requires !bp1.doAngle && !bp2.doAngle
    ensures RotateCells(bp1, bp2, cls, params, prim) == cls
  {
    RotateByIdentity(cls);
  }

  /**
   * Rotating both channels by [[c, s], [-s, c]] with c^2 + s^2 = 1 keeps the
   * trace of every bin (the sum EE + BB of the 2x2 block).
   */
  lemma RotationKeepsTrace(c: real, s: real, cls: Tensor3, i: nat)
    requires c * c + s * s == 1.0 && IsTensor3(cls, |cls|, 2, 2) && i < |cls|
    ensures var out := RotateCellsMat(RotationLike(c, s), RotationLike(c, s), cls);
            out[i][0][0] + out[i][1][1] == cls[i][0][0] + cls[i][1][1]
  {
    var out := RotateCellsMat(RotationLike(c, s), RotationLike(c, s), cls);
    var m := RotationLike(c, s);
    var b := cls[i];
    assert out[i][0][0] == Sandwich(m, m, b, 0, 0);
    assert out[i][1][1] == Sandwich(m, m, b, 1, 1);
    calc {
      out[i][0][0] + out[i][1][1];
      c * (b[0][0] * c + b[0][1] * s) + s * (b[1][0] * c + b[1][1] * s) +
      ((-s) * (b[0][0] * (-s) + b[0][1] * c) + c * (b[1][0] * (-s) + b[1][1] * c));
      (c * c + s * s) * b[0][0] + (c * c + s * s) * b[1][1];
    }
  }
}
