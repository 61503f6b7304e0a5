/** The data shaping around the Gaussian fits of `fitter.py`: which part of the
    bead crop each fitter samples, the layout of the initial-guess vector, the
    covariance matrix rebuilt from the optimum, its principal components and
    the index-by-index mapping of optimum and standard errors into a record.
    The least-squares solver, the estimator, `np.sqrt`, `np.linalg.eigvals` and
    `fwhm` are foreign and enter as parameters. */
module Fitting {
  import opened Wrappers
  import opened Volumes

  /** `Calibrated1DImage`. */
  datatype Calibrated1D = Calibrated1D(data: seq<real>, spacing: seq<real>)

  /** `Calibrated2DImage`: rows of the slice. */
  datatype Calibrated2D = Calibrated2D(data: seq<seq<real>>, spacing: seq<real>)

  /** `Calibrated3DImage`: one spacing per axis (Z, Y, X). */
  datatype Calibrated3D = Calibrated3D(data: Grid3<real>, spacing: seq<real>) {
    predicate Valid() { data.Valid() && |spacing| == 3 }
  }

  /** The errors `curve_fit` raises besides RuntimeError: a TypeError when there
      are more parameters than data points, a ValueError on non-finite data. */
  datatype SolverRejection = TypeError(message: string) | ValueError(message: string)

  datatype FitError =
    | IndexError               // the crop has no centre row, column or plane
    | RuntimeError(message: string)  // the solver's own error, re-raised
    | UnboundOptimum           // ZYX: the handler reads `optimal_params` before it is bound
    | Rejected(rejection: SolverRejection)  // not caught by `except RuntimeError`, so passed through

  /** What `curve_fit` yields: the optimum and its covariance, a RuntimeError
      when it does not converge, or another error it raises. */
  datatype FitOutcome =
    | Converged(optimal: seq<real>, covariance: seq<seq<real>>)
    | NotConverged(message: string)
    | Raised(rejection: SolverRejection)

  /** A NumPy float as far as the fitters need it: a real number, or the NaN
      that `np.sqrt` gives for a negative argument. */
  datatype Float = Finite(value: real) | NaN

  /** `curve_fit` returns one optimal value per entry of p0 and an n-by-n covariance. */
  predicate ShapedLike(o: FitOutcome, n: nat)
  {
    o.Converged? ==> |o.optimal| == n && IsSquare(o.covariance, n)
  }

  predicate IsSquare(m: seq<seq<real>>, n: nat)
  {
    |m| == n && forall i :: 0 <= i < n ==> |m[i]| == n
  }

  predicate Symmetric(m: seq<seq<real>>)
    requires IsSquare(m, |m|)
  {
    forall i, j :: 0 <= i < |m| && 0 <= j < |m| ==> m[i][j] == m[j][i]
  }

  /** The foreign numerics: `np.sqrt` on non-negative reals, `np.linalg.eigvals`
      and `utils.fwhm` on real numbers. */
  datatype Numerics = Numerics(sqrt: real -> real, eigvals: seq<seq<real>> -> seq<real>, fwhm: real -> real)

  /** `eigvals` of an n-by-n matrix has n entries. */
  ghost predicate EigvalsShaped(num: Numerics)
  {
    forall m :: |num.eigvals(m)| == |m|
  }

  function Abs(x: real): real { if x < 0.0 then -x else x }

  // ---------------------------------------------------------------- samples

  /** `ZFitter._get_z_sample`: the Z column through the centre pixel
      `data[:, H // 2, W // 2]`, with spacing `(spacing[0],)`. */
  function ZSampleOf(image: Calibrated3D): (r: Result<Calibrated1D, FitError>)
    requires image.Valid()
    ensures r.Failure? <==> image.data.height == 0 || image.data.width == 0
    ensures r.Failure? ==> r.error == IndexError
    ensures r.Success? ==>
      var h, w := image.data.height / 2, image.data.width / 2;
      h < image.data.height && w < image.data.width
      && |r.value.data| == image.data.Depth()
      && (forall z :: 0 <= z < image.data.Depth() ==> r.value.data[z] == image.data.planes[z][h][w])
      && r.value.spacing == [image.spacing[0]]
  {
    if image.data.height == 0 || image.data.width == 0 then Failure(IndexError)
    else
      Success(Calibrated1D(image.data.Column(image.data.height / 2, image.data.width / 2), [image.spacing[0]]))
  }

  /** `YXFitter._get_yx_sample`: the central plane `data[D // 2]`, with spacing
      `spacing[1:]`. */
  function YXSampleOf(image: Calibrated3D): (r: Result<Calibrated2D, FitError>)
    requires image.Valid()
    ensures r.Failure? <==> image.data.Depth() == 0
    ensures r.Failure? ==> r.error == IndexError
    ensures r.Success? ==>
      image.data.Depth() / 2 < image.data.Depth()
      && r.value.data == image.data.planes[image.data.Depth() / 2]
      && |r.value.data| == image.data.height
      && r.value.spacing == [image.spacing[1], image.spacing[2]]
  {
    if image.data.Depth() == 0 then Failure(IndexError)
    else Success(Calibrated2D(image.data.planes[image.data.Depth() / 2], image.spacing[1..]))
  }

  // ---------------------------------------------------------------- estimates and initial guesses

  /** The estimator's answers that `ZFitter` reads (`get_centroid_abs` for the centroid). */
  datatype ZEstimate = ZEstimate(background: real, amplitude: real, centroidAbs: real, sigma: real)

  /** The estimator's answers that `YXFitter` reads. */
  datatype YXEstimate = YXEstimate(background: real, amplitude: real, cy: real, cx: real,
                                   sigmaY: real, sigmaX: real)

  /** The estimator's answers that `ZYXFitter` reads. */
  datatype ZYXEstimate = ZYXEstimate(background: real, amplitude: real, cz: real, cy: real, cx: real,
                                     sigmaZ: real, sigmaY: real, sigmaX: real)

  /** The Z initial guess `[bg, amp, mu, sigma]`. */
  function ZGuess(e: ZEstimate): seq<real>
  {
    [e.background, e.amplitude, e.centroidAbs, e.sigma]
  }

  /** The YX initial guess `[bg, amp, cy, cx, sy^2, 0, sx^2]`. */
  function YXGuess(e: YXEstimate): seq<real>
  {
    [e.background, e.amplitude, e.cy, e.cx, e.sigmaY * e.sigmaY, 0.0, e.sigmaX * e.sigmaX]
  }

  /** The ZYX initial guess: squared sigmas at 5, 8, 10 and zero cross terms at 6, 7, 9. */
  function ZYXGuess(e: ZYXEstimate): seq<real>
  {
    [e.background, e.amplitude, e.cz, e.cy, e.cx,
     e.sigmaZ * e.sigmaZ, 0.0, 0.0, e.sigmaY * e.sigmaY, 0.0, e.sigmaX * e.sigmaX]
  }

  // ---------------------------------------------------------------- covariance and principal components

  /** The 2x2 covariance matrix of the YX optimum. */
  function YXCovariance(p: seq<real>): (m: seq<seq<real>>)
    requires |p| == 7
    ensures IsSquare(m, 2) && Symmetric(m)
    ensures m[0][0] == p[4] && m[0][1] == p[5] && m[1][1] == p[6]
  {
    [[p[4], p[5]],
     [p[5], p[6]]]
  }

  /** The 3x3 covariance matrix of the ZYX optimum. */
  function ZYXCovariance(p: seq<real>): (m: seq<seq<real>>)
    requires |p| == 11
    ensures IsSquare(m, 3) && Symmetric(m)
    ensures m[0][0] == p[5] && m[0][1] == p[6] && m[0][2] == p[7]
    ensures m[1][1] == p[8] && m[1][2] == p[9] && m[2][2] == p[10]
  {
    [[p[5], p[6], p[7]],
     [p[6], p[8], p[9]],
     [p[7], p[9], p[10]]]
  }

  /** The YX matrix reads indices 4 to 6 of the optimum and nothing else. */
  lemma YXCovarianceReadsItsIndices(p: seq<real>, q: seq<real>)
    requires |p| == 7 && |q| == 7
    ensures YXCovariance(p) == YXCovariance(q) <==> p[4..7] == q[4..7]
  {
    if YXCovariance(p) == YXCovariance(q) {
      assert p[4] == q[4] && p[5] == q[5] && p[6] == q[6];
      assert p[4..7] == [p[4], p[5], p[6]];
      assert q[4..7] == [q[4], q[5], q[6]];
    } else {
      assert p[4..7][0] == p[4] && p[4..7][1] == p[5] && p[4..7][2] == p[6];
      assert q[4..7][0] == q[4] && q[4..7][1] == q[5] && q[4..7][2] == q[6];
    }
  }

  /** The ZYX matrix reads indices 5 to 10 of the optimum and nothing else. */
  lemma ZYXCovarianceReadsItsIndices(p: seq<real>, q: seq<real>)
    requires |p| == 11 && |q| == 11
    ensures ZYXCovariance(p) == ZYXCovariance(q) <==> p[5..11] == q[5..11]
  {
    if ZYXCovariance(p) == ZYXCovariance(q) {
      assert p[5] == q[5] && p[6] == q[6] && p[7] == q[7] && p[8] == q[8] && p[9] == q[9] && p[10] == q[10];
      assert p[5..11] == [p[5], p[6], p[7], p[8], p[9], p[10]];
      assert q[5..11] == [q[5], q[6], q[7], q[8], q[9], q[10]];
    } else {
      forall k | 5 <= k < 11 ensures p[k] == p[5..11][k - 5] && q[k] == q[5..11][k - 5] { }
    }
  }

  /** Fitting back the initial guess gives a diagonal covariance of squared sigmas. */
  lemma GuessCovarianceIsDiagonal(yx: YXEstimate, zyx: ZYXEstimate)
    ensures YXCovariance(YXGuess(yx)) ==
      [[yx.sigmaY * yx.sigmaY, 0.0], [0.0, yx.sigmaX * yx.sigmaX]]
    ensures ZYXCovariance(ZYXGuess(zyx)) ==
      [[zyx.sigmaZ * zyx.sigmaZ, 0.0, 0.0],
       [0.0, zyx.sigmaY * zyx.sigmaY, 0.0],
       [0.0, 0.0, zyx.sigmaX * zyx.sigmaX]]
  {
    var g := YXGuess(yx);
    assert g[4] == yx.sigmaY * yx.sigmaY && g[5] == 0.0 && g[6] == yx.sigmaX * yx.sigmaX;
    var h := ZYXGuess(zyx);
    assert h[5] == zyx.sigmaZ * zyx.sigmaZ && h[6] == 0.0 && h[7] == 0.0;
    assert h[8] == zyx.sigmaY * zyx.sigmaY && h[9] == 0.0 && h[10] == zyx.sigmaX * zyx.sigmaX;
  }

  /** NumPy's sort order: real numbers by value, NaN after every number. */
  predicate FloatLe(a: Float, b: Float)
  {
    b.NaN? || (a.Finite? && a.value <= b.value)
  }

  predicate SortedAscending(s: seq<Float>)
  {
    forall i, j :: 0 <= i <= j < |s| ==> FloatLe(s[i], s[j])
  }

  predicate SortedDescending(s: seq<Float>)
  {
    forall i, j :: 0 <= i <= j < |s| ==> FloatLe(s[j], s[i])
  }

  /** Insert `x` into an ascending list. */
  function Insert(x: Float, s: seq<Float>): (r: seq<Float>)
    requires SortedAscending(s)
    ensures SortedAscending(r)
    ensures multiset(r) == multiset(s) + multiset{x}
    ensures |r| == |s| + 1
  {
    if |s| == 0 then [x]
    else if FloatLe(x, s[0]) then [x] + s
    else
      var rest := Insert(x, s[1..]);
      assert s == [s[0]] + s[1..];
      LowerBoundSurvives(s[0], x, s[1..], rest);
      [s[0]] + rest
  }

  /** A bound below every element of `s` and below `x` stays below every
      element of any rearrangement of them. */
  lemma LowerBoundSurvives(bound: Float, x: Float, s: seq<Float>, r: seq<Float>)
    requires FloatLe(bound, x)
    requires forall k :: 0 <= k < |s| ==> FloatLe(bound, s[k])
    requires multiset(r) == multiset(s) + multiset{x}
    ensures forall k :: 0 <= k < |r| ==> FloatLe(bound, r[k])
  {
    forall k | 0 <= k < |r|
      ensures FloatLe(bound, r[k])
    {
      assert r[k] in multiset(r);
      if r[k] != x {
        assert r[k] in multiset(s);
        assert r[k] in s;
      }
    }
  }

  /** `np.sort`: ascending with NaN last, a permutation of its input. */
  function Sort(s: seq<Float>): (r: seq<Float>)
    ensures SortedAscending(r)
    ensures multiset(r) == multiset(s)
  {
    if |s| == 0 then []
    else
      assert s == [s[0]] + s[1..];
      Insert(s[0], Sort(s[1..]))
  }

  /** `[::-1]`. */
  function Reverse(s: seq<Float>): (r: seq<Float>)
    ensures |r| == |s|
    ensures forall i :: 0 <= i < |s| ==> r[i] == s[|s| - 1 - i]
    ensures multiset(r) == multiset(s)
  {
    if |s| == 0 then []
    else
      assert s == s[..|s| - 1] + [s[|s| - 1]];
      [s[|s| - 1]] + Reverse(s[..|s| - 1])
  }

  /** `np.abs(np.sqrt(x))` for one value: NaN below zero. */
  function AbsSqrtOf(x: real, sqrt: real -> real): (r: Float)
    ensures r.NaN? <==> x < 0.0
    ensures r.Finite? ==> r.value == Abs(sqrt(x)) && 0.0 <= r.value
  {
    if x < 0.0 then NaN else Finite(Abs(sqrt(x)))
  }

  /** `np.abs(np.sqrt(values))`. */
  function AbsSqrt(values: seq<real>, sqrt: real -> real): (r: seq<Float>)
    ensures |r| == |values|
    ensures forall i :: 0 <= i < |values| ==> (r[i].NaN? <==> values[i] < 0.0)
    ensures forall i :: 0 <= i < |values| && r[i].Finite? ==> r[i].value == Abs(sqrt(values[i])) && 0.0 <= r[i].value
  {
    seq(|values|, i requires 0 <= i < |values| => AbsSqrtOf(values[i], sqrt))
  }

  /** `_get_principal_components`: the absolute square roots of the eigenvalues,
      sorted ascending and reversed, so non-increasing with any NaN first. A
      NaN stands for a negative eigenvalue. */
  function PrincipalComponents(cov: seq<seq<real>>, num: Numerics): (pc: seq<Float>)
    requires EigvalsShaped(num)
    ensures |pc| == |cov|
    ensures SortedDescending(pc)
    ensures forall i :: 0 <= i < |pc| && pc[i].Finite? ==> 0.0 <= pc[i].value
    ensures multiset(pc) == multiset(AbsSqrt(num.eigvals(cov), num.sqrt))
  {
    var values := AbsSqrt(num.eigvals(cov), num.sqrt);
    var pc := Reverse(Sort(values));
    NonNegativeSurvives(pc, values);
    pc
  }

  /** A reordering keeps every finite value non-negative. */
  lemma NonNegativeSurvives(a: seq<Float>, b: seq<Float>)
    requires multiset(a) == multiset(b)
    requires forall i :: 0 <= i < |b| && b[i].Finite? ==> 0.0 <= b[i].value
    ensures forall i :: 0 <= i < |a| && a[i].Finite? ==> 0.0 <= a[i].value
  {
    forall i | 0 <= i < |a| && a[i].Finite?
      ensures 0.0 <= a[i].value
    {
      assert a[i] in multiset(b);
    }
  }

  /** The principal components hold a NaN exactly when an eigenvalue is
      negative, and then the first component is NaN. */
  lemma NaNComponentsComeFirst(cov: seq<seq<real>>, num: Numerics)
    requires EigvalsShaped(num)
    ensures var pc := PrincipalComponents(cov, num);
      var eig := num.eigvals(cov);
      ((exists i :: 0 <= i < |pc| && pc[i].NaN?) <==> (exists k :: 0 <= k < |eig| && eig[k] < 0.0))
      && ((exists k :: 0 <= k < |eig| && eig[k] < 0.0) ==> pc[0].NaN?)
  {
    var pc := PrincipalComponents(cov, num);
    var eig := num.eigvals(cov);
    var values := AbsSqrt(eig, num.sqrt);
    if exists i :: 0 <= i < |pc| && pc[i].NaN? {
      var i :| 0 <= i < |pc| && pc[i].NaN?;
      assert pc[i] in multiset(values);
      var k :| 0 <= k < |values| && values[k] == pc[i];
      assert eig[k] < 0.0;
    }
    if exists k :: 0 <= k < |eig| && eig[k] < 0.0 {
      var k :| 0 <= k < |eig| && eig[k] < 0.0;
      assert values[k] in multiset(pc);
      var i :| 0 <= i < |pc| && pc[i] == values[k];
      assert FloatLe(pc[i], pc[0]);
    }
  }

  /** `np.abs(np.sqrt(np.diag(covariance)))`: one standard error per fitted
      parameter, aligned with it; NaN for a negative variance. */
  function StandardErrors(cov: seq<seq<real>>, sqrt: real -> real): (e: seq<Float>)
    requires IsSquare(cov, |cov|)
    ensures |e| == |cov|
    ensures forall i :: 0 <= i < |cov| ==> (e[i].NaN? <==> cov[i][i] < 0.0)
    ensures forall i :: 0 <= i < |cov| && e[i].Finite? ==> 0.0 <= e[i].value && e[i].value == Abs(sqrt(cov[i][i]))
  {
    seq(|cov|, i requires 0 <= i < |cov| => AbsSqrtOf(cov[i][i], sqrt))
  }

  /** `fwhm` of a NumPy float: arithmetic on the sigma, so NaN stays NaN. */
  function FwhmOf(sigma: Float, fwhm: real -> real): Float
  {
    match sigma
    case NaN => NaN
    case Finite(v) => Finite(fwhm(v))
  }

  // ---------------------------------------------------------------- records

  datatype ZFitRecord = ZFitRecord(
    zBg: real, zAmp: real, zMu: real, zSigma: real, zFwhm: real,
    zBgSde: Float, zAmpSde: Float, zMuSde: Float, zSigmaSde: Float)

  datatype YXFitRecord = YXFitRecord(
    yxBg: real, yxAmp: real, yMu: real, xMu: real, yxCyy: real, yxCyx: real, yxCxx: real,
    yFwhm: Float, xFwhm: Float, yxPc1Fwhm: Float, yxPc2Fwhm: Float,
    yxBgSde: Float, yxAmpSde: Float, yMuSde: Float, xMuSde: Float,
    yxCyySde: Float, yxCyxSde: Float, yxCxxSde: Float)

  datatype ZYXFitRecord = ZYXFitRecord(
    zyxBg: real, zyxAmp: real, zyxZMu: real, zyxYMu: real, zyxXMu: real,
    zyxCzz: real, zyxCzy: real, zyxCzx: real, zyxCyy: real, zyxCyx: real, zyxCxx: real,
    zyxZFwhm: Float, zyxYFwhm: Float, zyxXFwhm: Float,
    zyxPc1Fwhm: Float, zyxPc2Fwhm: Float, zyxPc3Fwhm: Float,
    zyxBgSde: Float, zyxAmpSde: Float, zyxZMuSde: Float, zyxYMuSde: Float, zyxXMuSde: Float,
    zyxCzzSde: Float, zyxCzySde: Float, zyxCzxSde: Float, zyxCyySde: Float, zyxCyxSde: Float, zyxCxxSde: Float)

  /** The parameter fields of a record in the order of the parameter vector. */
  function ZParameters(r: ZFitRecord): seq<real> { [r.zBg, r.zAmp, r.zMu, r.zSigma] }
  function ZErrors(r: ZFitRecord): seq<Float> { [r.zBgSde, r.zAmpSde, r.zMuSde, r.zSigmaSde] }

  function YXParameters(r: YXFitRecord): seq<real>
  {
    [r.yxBg, r.yxAmp, r.yMu, r.xMu, r.yxCyy, r.yxCyx, r.yxCxx]
  }

  function YXErrors(r: YXFitRecord): seq<Float>
  {
    [r.yxBgSde, r.yxAmpSde, r.yMuSde, r.xMuSde, r.yxCyySde, r.yxCyxSde, r.yxCxxSde]
  }

  function ZYXParameters(r: ZYXFitRecord): seq<real>
  {
    [r.zyxBg, r.zyxAmp, r.zyxZMu, r.zyxYMu, r.zyxXMu,
     r.zyxCzz, r.zyxCzy, r.zyxCzx, r.zyxCyy, r.zyxCyx, r.zyxCxx]
  }

  function ZYXErrors(r: ZYXFitRecord): seq<Float>
  {
    [r.zyxBgSde, r.zyxAmpSde, r.zyxZMuSde, r.zyxYMuSde, r.zyxXMuSde,
     r.zyxCzzSde, r.zyxCzySde, r.zyxCzxSde, r.zyxCyySde, r.zyxCyxSde, r.zyxCxxSde]
  }

  /** `ZFitter.fit` once the solver has converged. */
  function ZRecordOf(p: seq<real>, err: seq<Float>, num: Numerics): ZFitRecord
    requires |p| == 4 && |err| == 4
  {
    ZFitRecord(p[0], p[1], p[2], Abs(p[3]), num.fwhm(Abs(p[3])),
               err[0], err[1], err[2], err[3])
  }

  /** `YXFitter.fit` once the solver has converged; `yx_cxx_sde` reads `error[5]`. */
  function YXRecordOf(p: seq<real>, err: seq<Float>, pc: seq<Float>, num: Numerics): YXFitRecord
    requires |p| == 7 && |err| == 7 && |pc| == 2
  {
    YXFitRecord(p[0], p[1], p[2], p[3], p[4], p[5], p[6],
                FwhmOf(AbsSqrtOf(p[4], num.sqrt), num.fwhm), FwhmOf(AbsSqrtOf(p[6], num.sqrt), num.fwhm),
                FwhmOf(pc[0], num.fwhm), FwhmOf(pc[1], num.fwhm),
                err[0], err[1], err[2], err[3], err[4], err[5], err[5])
  }

  /** `ZYXFitter.fit` once the solver has converged. */
  function ZYXRecordOf(p: seq<real>, err: seq<Float>, pc: seq<Float>, num: Numerics): ZYXFitRecord
    requires |p| == 11 && |err| == 11 && |pc| == 3
  {
    ZYXFitRecord(p[0], p[1], p[2], p[3], p[4], p[5], p[6], p[7], p[8], p[9], p[10],
                 FwhmOf(AbsSqrtOf(p[5], num.sqrt), num.fwhm), FwhmOf(AbsSqrtOf(p[8], num.sqrt), num.fwhm),
                 FwhmOf(AbsSqrtOf(p[10], num.sqrt), num.fwhm),
                 FwhmOf(pc[0], num.fwhm), FwhmOf(pc[1], num.fwhm), FwhmOf(pc[2], num.fwhm),
                 err[0], err[1], err[2], err[3], err[4], err[5], err[6], err[7], err[8], err[9], err[10])
  }

  /** What `ZFitter.fit` returns for a solver outcome: the solver's RuntimeError
      re-raised as it is, any other solver error passed through, or the record
      of the optimum. */
  function ZFitResult(outcome: FitOutcome, num: Numerics): Result<ZFitRecord, FitError>
    requires ShapedLike(outcome, 4)
  {
    match outcome
    case NotConverged(message) => Failure(RuntimeError(message))
    case Raised(rejection) => Failure(Rejected(rejection))
    case Converged(p, cov) => Success(ZRecordOf(p, StandardErrors(cov, num.sqrt), num))
  }

  /** What `YXFitter.fit` returns for a solver outcome. */
  function YXFitResult(outcome: FitOutcome, num: Numerics): Result<YXFitRecord, FitError>
    requires ShapedLike(outcome, 7) && EigvalsShaped(num)
  {
    match outcome
    case NotConverged(message) => Failure(RuntimeError(message))
    case Raised(rejection) => Failure(Rejected(rejection))
    case Converged(p, cov) =>
      Success(YXRecordOf(p, StandardErrors(cov, num.sqrt), PrincipalComponents(YXCovariance(p), num), num))
  }

  /** What `ZYXFitter.fit` returns for a solver outcome: on a RuntimeError the
      handler fails before it can re-raise, so the error is not the solver's;
      any other solver error skips the handler and is passed through. */
  function ZYXFitResult(outcome: FitOutcome, num: Numerics): Result<ZYXFitRecord, FitError>
    requires ShapedLike(outcome, 11) && EigvalsShaped(num)
  {
    match outcome
    case NotConverged(_) => Failure(UnboundOptimum)
    case Raised(rejection) => Failure(Rejected(rejection))
    case Converged(p, cov) =>
      Success(ZYXRecordOf(p, StandardErrors(cov, num.sqrt), PrincipalComponents(ZYXCovariance(p), num), num))
  }

  /** A Z fit either re-raises the solver's error or, field by field, gives the
      optimum and its standard errors; the sigma is the absolute fitted value
      and the FWHM is taken of it; a standard error is NaN exactly for a
      negative variance and otherwise >= 0. */
  lemma ZFitRecordFields(outcome: FitOutcome, num: Numerics)
    requires ShapedLike(outcome, 4)
    ensures outcome.NotConverged? ==> ZFitResult(outcome, num) == Failure(RuntimeError(outcome.message))
    ensures outcome.Raised? ==> ZFitResult(outcome, num) == Failure(Rejected(outcome.rejection))
    ensures outcome.Converged? ==>
      var r := ZFitResult(outcome, num).value;
      var p := outcome.optimal;
      ZParameters(r) == p[..3] + [Abs(p[3])]
      && ZErrors(r) == StandardErrors(outcome.covariance, num.sqrt)
      && r.zSigma >= 0.0 && r.zFwhm == num.fwhm(r.zSigma)
      && (forall k :: 0 <= k < 4 ==> (ZErrors(r)[k].NaN? <==> outcome.covariance[k][k] < 0.0))
      && (forall k :: 0 <= k < 4 && ZErrors(r)[k].Finite? ==> ZErrors(r)[k].value >= 0.0)
  {
  }

  /** A YX fit maps the optimum index by index, but both `yx_cyx_sde` and
      `yx_cxx_sde` take `error[5]`: the last standard error is never read. The
      axis FWHMs are NaN exactly for a negative variance, and a negative
      eigenvalue makes the first principal-component FWHM NaN. */
  lemma YXFitRecordFields(outcome: FitOutcome, num: Numerics)
    requires ShapedLike(outcome, 7) && EigvalsShaped(num)
    ensures outcome.NotConverged? ==> YXFitResult(outcome, num) == Failure(RuntimeError(outcome.message))
    ensures outcome.Raised? ==> YXFitResult(outcome, num) == Failure(Rejected(outcome.rejection))
    ensures outcome.Converged? ==>
      var r := YXFitResult(outcome, num).value;
      var e := StandardErrors(outcome.covariance, num.sqrt);
      var p := outcome.optimal;
      var pc := PrincipalComponents(YXCovariance(p), num);
      YXParameters(r) == p
      && YXErrors(r) == e[..6] + [e[5]]
      && r.yxCxxSde == r.yxCyxSde
      && (r.yFwhm.NaN? <==> p[4] < 0.0) && (r.xFwhm.NaN? <==> p[6] < 0.0)
      && r.yxPc1Fwhm == FwhmOf(pc[0], num.fwhm) && r.yxPc2Fwhm == FwhmOf(pc[1], num.fwhm)
      && ((exists k :: 0 <= k < 2 && num.eigvals(YXCovariance(p))[k] < 0.0) ==> r.yxPc1Fwhm.NaN?)
  {
    if outcome.Converged? {
      NaNComponentsComeFirst(YXCovariance(outcome.optimal), num);
    }
  }

  /** The YX record does not depend on the seventh standard error. */
  lemma YXRecordIgnoresLastError(p: seq<real>, err: seq<Float>, err': seq<Float>, pc: seq<Float>, num: Numerics)
    requires |p| == 7 && |err| == 7 && |err'| == 7 && |pc| == 2
    requires err[..6] == err'[..6]
    ensures YXRecordOf(p, err, pc, num) == YXRecordOf(p, err', pc, num)
  {
    assert forall k :: 0 <= k < 6 ==> err[k] == err[..6][k] && err'[k] == err'[..6][k];
  }

  /** A ZYX fit maps both vectors index by index; on a RuntimeError it fails,
      but not with the solver's error, and any other solver error is passed
      through. A standard error is NaN exactly for a negative variance. */
  lemma ZYXFitRecordFields(outcome: FitOutcome, num: Numerics)
    requires ShapedLike(outcome, 11) && EigvalsShaped(num)
    ensures outcome.NotConverged? ==> ZYXFitResult(outcome, num) == Failure(UnboundOptimum)
    ensures outcome.Raised? ==> ZYXFitResult(outcome, num) == Failure(Rejected(outcome.rejection))
    ensures outcome.Converged? ==>
      var r := ZYXFitResult(outcome, num).value;
      var p := outcome.optimal;
      ZYXParameters(r) == p
      && ZYXErrors(r) == StandardErrors(outcome.covariance, num.sqrt)
      && (forall k :: 0 <= k < 11 ==> (ZYXErrors(r)[k].NaN? <==> outcome.covariance[k][k] < 0.0))
      && (forall k :: 0 <= k < 11 && ZYXErrors(r)[k].Finite? ==> ZYXErrors(r)[k].value >= 0.0)
      && (r.zyxZFwhm.NaN? <==> p[5] < 0.0) && (r.zyxYFwhm.NaN? <==> p[8] < 0.0) && (r.zyxXFwhm.NaN? <==> p[10] < 0.0)
      && ((exists k :: 0 <= k < 3 && num.eigvals(ZYXCovariance(p))[k] < 0.0) ==> r.zyxPc1Fwhm.NaN?)
  {
    if outcome.Converged? {
      NaNComponentsComeFirst(ZYXCovariance(outcome.optimal), num);
    }
  }

  /** The guess layout and the record mapping agree: a solver that returned the
      initial guess unchanged would report the estimates in the matching fields. */
  lemma GuessLayoutMatchesRecord(z: ZEstimate, yx: YXEstimate, zyx: ZYXEstimate,
                                 err4: seq<Float>, err7: seq<Float>, err11: seq<Float>,
                                 pc2: seq<Float>, pc3: seq<Float>, num: Numerics)
    requires |err4| == 4 && |err7| == 7 && |err11| == 11 && |pc2| == 2 && |pc3| == 3
    ensures var r := ZRecordOf(ZGuess(z), err4, num);
      r.zBg == z.background && r.zAmp == z.amplitude && r.zMu == z.centroidAbs && r.zSigma == Abs(z.sigma)
    ensures var r := YXRecordOf(YXGuess(yx), err7, pc2, num);
      r.yxBg == yx.background && r.yxAmp == yx.amplitude && r.yMu == yx.cy && r.xMu == yx.cx
      && r.yxCyy == yx.sigmaY * yx.sigmaY && r.yxCyx == 0.0 && r.yxCxx == yx.sigmaX * yx.sigmaX
    ensures var r := ZYXRecordOf(ZYXGuess(zyx), err11, pc3, num);
      r.zyxBg == zyx.background && r.zyxAmp == zyx.amplitude
      && r.zyxZMu == zyx.cz && r.zyxYMu == zyx.cy && r.zyxXMu == zyx.cx
      && r.zyxCzz == zyx.sigmaZ * zyx.sigmaZ && r.zyxCyy == zyx.sigmaY * zyx.sigmaY
      && r.zyxCxx == zyx.sigmaX * zyx.sigmaX
      && r.zyxCzy == 0.0 && r.zyxCzx == 0.0 && r.zyxCyx == 0.0
  {
  }

  // ---------------------------------------------------------------- the fitters

  /** `ZFitter`: the crop, its Z sample and the estimator built on that sample. */
  datatype ZFitter = ZFitter(image: Calibrated3D, sample: Calibrated1D, estimate: ZEstimate) {

    /** `fit`: the solver is called on the Z sample with the Z guess. */
    function Fit(solve: (Calibrated1D, seq<real>) -> FitOutcome, num: Numerics): (r: Result<ZFitRecord, FitError>)
      requires ShapedLike(solve(sample, ZGuess(estimate)), 4)
      ensures r.Failure? <==> !solve(sample, ZGuess(estimate)).Converged?
      ensures solve(sample, ZGuess(estimate)).NotConverged? ==>
        r == Failure(RuntimeError(solve(sample, ZGuess(estimate)).message))
      ensures solve(sample, ZGuess(estimate)).Raised? ==>
        r == Failure(Rejected(solve(sample, ZGuess(estimate)).rejection))
    {
      ZFitResult(solve(sample, ZGuess(estimate)), num)
    }
  }

  /** `ZFitter.__init__`, which samples the crop (and can fail doing so). */
  function NewZFitter(image: Calibrated3D, estimator: Calibrated1D -> ZEstimate): (r: Result<ZFitter, FitError>)
    requires image.Valid()
    ensures r.Failure? <==> ZSampleOf(image).Failure?
    ensures r.Success? ==>
      r.value.image == image && ZSampleOf(image) == Success(r.value.sample)
      && r.value.estimate == estimator(r.value.sample)
  {
    match ZSampleOf(image)
    case Failure(e) => Failure(e)
    case Success(sample) => Success(ZFitter(image, sample, estimator(sample)))
  }

  /** `YXFitter`: the crop, its central plane and the estimator built on it. */
  datatype YXFitter = YXFitter(image: Calibrated3D, sample: Calibrated2D, estimate: YXEstimate) {

    /** `fit`: the solver is called on the YX sample with the YX guess. */
    function Fit(solve: (Calibrated2D, seq<real>) -> FitOutcome, num: Numerics): (r: Result<YXFitRecord, FitError>)
      requires ShapedLike(solve(sample, YXGuess(estimate)), 7) && EigvalsShaped(num)
      ensures r.Failure? <==> !solve(sample, YXGuess(estimate)).Converged?
      ensures solve(sample, YXGuess(estimate)).NotConverged? ==>
        r == Failure(RuntimeError(solve(sample, YXGuess(estimate)).message))
      ensures solve(sample, YXGuess(estimate)).Raised? ==>
        r == Failure(Rejected(solve(sample, YXGuess(estimate)).rejection))
    {
      YXFitResult(solve(sample, YXGuess(estimate)), num)
    }
  }

  /** `YXFitter.__init__`. */
  function NewYXFitter(image: Calibrated3D, estimator: Calibrated2D -> YXEstimate): (r: Result<YXFitter, FitError>)
    requires image.Valid()
    ensures r.Failure? <==> YXSampleOf(image).Failure?
    ensures r.Success? ==>
      r.value.image == image && YXSampleOf(image) == Success(r.value.sample)
      && r.value.estimate == estimator(r.value.sample)
  {
    match YXSampleOf(image)
    case Failure(e) => Failure(e)
    case Success(sample) => Success(YXFitter(image, sample, estimator(sample)))
  }

  /** `ZYXFitter`: the whole crop is the sample. Its `_debug` flag is cleared
      after the first successful fit that plotted the comparison. */
  class ZYXFitter {
    const image: Calibrated3D
    const estimate: ZYXEstimate
    var debug: bool

    constructor (image: Calibrated3D, estimator: Calibrated3D -> ZYXEstimate)
      ensures this.image == image && estimate == estimator(image) && !debug
    {
      this.image := image;
      estimate := estimator(image);
      debug := false;
    }

    method Fit(solve: (Calibrated3D, seq<real>) -> FitOutcome, num: Numerics)
      returns (r: Result<ZYXFitRecord, FitError>)
      requires ShapedLike(solve(image, ZYXGuess(estimate)), 11) && EigvalsShaped(num)
      modifies this
      ensures r == ZYXFitResult(solve(image, ZYXGuess(estimate)), num)
      ensures debug == (old(debug) && r.Failure?)
    {
      var p0 := ZYXGuess(estimate);
      var outcome := solve(image, p0);
      if outcome.NotConverged? {
        return Failure(UnboundOptimum);
      }
      if outcome.Raised? {
        return Failure(Rejected(outcome.rejection));
      }
      if debug {
        debug := false;
      }
      r := ZYXFitResult(outcome, num);
    }
  }
}
