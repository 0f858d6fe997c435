/** `GaussianMixture` itself: its configuration, `init_params`, the in-place
    `_enforce_covariance_type`, and the EM driver `forward`, which flattens the
    middle dimensions, initialises, runs `n_iter` E-step/M-step rounds and
    reshapes the responsibilities back. */
module Mixture {
  import opened Tensors
  import opened Covariance
  import opened Expectation
  import opened Maximization

  datatype Option<T> = None | Some(value: T)

  /** A covariance argument: the full (B, K, F, F) form or the diagonal-only (B, K, F) form. */
  datatype CovarianceArg = Full(matrices: Tensor4) | Diagonal(variances: Tensor3)

  /** A dense tensor of any rank: its shape and its entries in row-major order. */
  datatype FlatTensor = FlatTensor(shape: seq<nat>, elems: seq<real>)

  /** The dictionary `forward` returns. */
  datatype MixtureResult = MixtureResult(
    resp: FlatTensor, logProb: FlatTensor, means: Tensor3, covariance: Tensor4, prior: Mat)

  function Product(dims: seq<nat>): nat {
    if |dims| == 0 then 1 else dims[0] * Product(dims[1..])
  }

  lemma {:induction false} ProductAppend(a: seq<nat>, b: seq<nat>)
    ensures Product(a + b) == Product(a) * Product(b)
  {
    if |a| == 0 {
      assert a + b == b;
    } else {
      calc {
        Product(a + b);
        { assert (a + b)[1..] == a[1..] + b; }
        a[0] * Product(a[1..] + b);
        { ProductAppend(a[1..], b); }
        a[0] * (Product(a[1..]) * Product(b));
        (a[0] * Product(a[1..])) * Product(b);
      }
    }
  }

  /** The middle dimensions of a shape, flattened into the sample axis. */
  function Middle(shape: seq<nat>): seq<nat>
    requires |shape| >= 2
  {
    shape[1..|shape| - 1]
  }

  /** A shape (B, ..., F) is the product B · (product of the middle) · F. */
  lemma ShapeProduct(shape: seq<nat>)
    requires |shape| >= 2
    ensures Product(shape) == shape[0] * Product(Middle(shape)) * shape[|shape| - 1]
    ensures Product(shape[..|shape| - 1]) == shape[0] * Product(Middle(shape))
  {
    ShapeProductAll(shape);
    ShapeProductLead(shape);
  }

  lemma ShapeProductAll(shape: seq<nat>)
    requires |shape| >= 2
    ensures Product(shape) == shape[0] * Product(Middle(shape)) * shape[|shape| - 1]
  {
    var first, mid, last := shape[0], Middle(shape), shape[|shape| - 1];
    assert shape[1..] == mid + [last];
    var rest := Product(shape[1..]);
    assert rest == Product(mid) * last by {
      ProductAppend(mid, [last]);
      ProductSingle(last);
    }
    ProductUnfold(shape);
    Associate(first, Product(mid), last);
  }

  lemma ShapeProductLead(shape: seq<nat>)
    requires |shape| >= 2
    ensures Product(shape[..|shape| - 1]) == shape[0] * Product(Middle(shape))
  {
    var lead := shape[..|shape| - 1];
    assert lead[1..] == Middle(shape);
    ProductUnfold(lead);
  }

  lemma ProductUnfold(dims: seq<nat>)
    requires |dims| > 0
    ensures Product(dims) == dims[0] * Product(dims[1..])
  {
  }

  lemma ProductSingle(x: nat)
    ensures Product([x]) == x
  {
    assert [x][1..] == [];
  }

  lemma Associate(a: nat, b: nat, c: nat)
    ensures a * (b * c) == a * b * c
  {
  }

  /** Input data: at least a batch and a feature axis, entries matching the
      shape, and no empty batch, sample or feature axis (`view` with -1 refuses
      a tensor without entries). */
  predicate WellFormedData(t: FlatTensor) {
    && |t.shape| >= 2
    && |t.elems| == Product(t.shape)
    && t.shape[0] >= 1
    && Product(Middle(t.shape)) >= 1
    && t.shape[|t.shape| - 1] >= 1
  }

  /** The data viewed as (B, S, F), S the product of the middle dimensions. */
  function View3(t: FlatTensor): (X: Tensor3)
    requires WellFormedData(t)
    ensures IsTensor3(X, t.shape[0], Product(Middle(t.shape)), t.shape[|t.shape| - 1])
    ensures Dim1(X) == Product(Middle(t.shape)) && Dim2(X) == t.shape[|t.shape| - 1]
  {
    var nb, ns, nf := t.shape[0], Product(Middle(t.shape)), t.shape[|t.shape| - 1];
    ShapeProduct(t.shape);
    var rows := Chunk(t.elems, nb * ns, nf);
    ChunkShape(rows, nb, ns, nf);
    DimsOfShape(Chunk(rows, nb, ns), nb, ns, nf);
    Chunk(rows, nb, ns)
  }

  /** Rows of length nf chunked into nb groups of ns form a (nb, ns, nf) tensor. */
  lemma ChunkShape(rows: Mat, nb: nat, ns: nat, nf: nat)
    requires |rows| == nb * ns
    requires forall i | 0 <= i < |rows| :: |rows[i]| == nf
    ensures IsTensor3(Chunk(rows, nb, ns), nb, ns, nf)
  {
    forall b, s | 0 <= b < nb && 0 <= s < ns ensures |Chunk(rows, nb, ns)[b][s]| == nf {
      ChunkIndex(rows, nb, ns, b, s);
    }
  }

  /** Flattening the sample axis of x keeps each row's length. */
  lemma {:induction false} ConcatRows(x: Tensor3, nk: nat)
    requires forall b, s | 0 <= b < |x| && 0 <= s < |x[b]| :: |x[b][s]| == nk
    ensures forall i | 0 <= i < |Concat(x)| :: |Concat(x)[i]| == nk
  {
    if |x| > 0 {
      ConcatRows(x[1..], nk);
      assert Concat(x) == x[0] + Concat(x[1..]);
    }
  }

  /** Flattening the (B, S, F) view gives back the caller's entries in their order. */
  lemma View3RoundTrip(t: FlatTensor)
    requires WellFormedData(t)
    ensures Concat(Concat(View3(t))) == t.elems
  {
    var nb, ns, nf := t.shape[0], Product(Middle(t.shape)), t.shape[|t.shape| - 1];
    ShapeProduct(t.shape);
    var rows := Chunk(t.elems, nb * ns, nf);
    ConcatChunk(rows, nb, ns);
    ConcatChunk(t.elems, nb * ns, nf);
  }

  /** x of shape (B, S, K) viewed back under the caller's leading shape with
      K as the last axis: the same entries in row-major order. */
  function Unview(shape: seq<nat>, x: Tensor3, nk: nat): (r: FlatTensor)
    requires |shape| >= 2
    requires IsTensor3(x, shape[0], Product(Middle(shape)), nk)
    ensures |r.elems| == Product(r.shape)
    ensures r.shape == shape[..|shape| - 1] + [nk]
  {
    var nb, ns := shape[0], Product(Middle(shape));
    var rows := Concat(x);
    ConcatLength(x, ns);
    ConcatRows(x, nk);
    ConcatLength(rows, nk);
    ShapeProduct(shape);
    ProductAppend(shape[..|shape| - 1], [nk]);
    assert Product([nk]) == nk * Product([]);
    FlatTensor(shape[..|shape| - 1] + [nk], Concat(rows))
  }

  /** Viewing the flattened output with the flattened shape again gives back x. */
  lemma UnviewRoundTrip(shape: seq<nat>, x: Tensor3, nk: nat)
    requires |shape| >= 2
    requires IsTensor3(x, shape[0], Product(Middle(shape)), nk)
    ensures var nb, ns := shape[0], Product(Middle(shape));
      |Unview(shape, x, nk).elems| == nb * ns * nk
      && Chunk(Chunk(Unview(shape, x, nk).elems, nb * ns, nk), nb, ns) == x
  {
    var nb, ns := shape[0], Product(Middle(shape));
    var rows := Concat(x);
    ChunkConcat(x, ns);
    ConcatRows(x, nk);
    ChunkConcat(rows, nk);
  }

  /** Data of shape (B, S, F) with at least one batch element and one sample. */
  predicate DataShape(X: Tensor3) {
    IsTensor3(X, |X|, Dim1(X), Dim2(X)) && |X| >= 1 && Dim1(X) >= 1
  }

  /** Supplied means have shape (B, K, F); otherwise there is at least one
      component (the gathered rows cannot be viewed as (B, 0, -1)) and the draws
      are a (B, K) table of sample indices in [0, S). */
  predicate MeansArgFits(X: Tensor3, nk: nat, means: Option<Tensor3>, draws: seq<seq<int>>) {
    match means
    case Some(given) => IsTensor3(given, |X|, nk, Dim2(X))
    case None =>
      && nk >= 1
      && |draws| == |X|
      && (forall b | 0 <= b < |X| :: |draws[b]| == nk)
      && (forall b, k | 0 <= b < |X| && 0 <= k < nk :: 0 <= draws[b][k] < Dim1(X))
  }

  /** A supplied covariance has shape (B, K, F, F) or (B, K, F). */
  predicate CovarianceArgFits(X: Tensor3, nk: nat, covariance: Option<CovarianceArg>) {
    match covariance
    case None => true
    case Some(Full(c)) => IsTensor4(c, |X|, nk, Dim2(X))
    case Some(Diagonal(v)) => IsTensor3(v, |X|, nk, Dim2(X))
  }

  /** What `init_params` needs of its arguments, given K components. */
  predicate InitInputs(X: Tensor3, nk: nat, means: Option<Tensor3>, covariance: Option<CovarianceArg>, draws: seq<seq<int>>) {
    DataShape(X) && MeansArgFits(X, nk, means, draws) && CovarianceArgFits(X, nk, covariance)
  }

  /** The initial means: the supplied ones, or for each batch element b the
      data rows X[b][draws[b][k]] of that same batch element (repeats allowed). */
  function InitialMeans(X: Tensor3, nk: nat, means: Option<Tensor3>, draws: seq<seq<int>>): (m: Tensor3)
    requires DataShape(X) && MeansArgFits(X, nk, means, draws)
    ensures IsTensor3(m, |X|, nk, Dim2(X))
  {
    match means
    case Some(given) => given
    case None =>
      seq(|X|, b requires 0 <= b < |X| => seq(nk, k requires 0 <= k < nk => X[b][draws[b][k]]))
  }

  /** The variances broadcast along a new last axis of length F: row i of matrix (b, k) repeats c[b][k][i]. */
  function Expand(c: Tensor3, nf: nat): (r: Tensor4)
    ensures |r| == |c|
    ensures forall b | 0 <= b < |c| :: |r[b]| == |c[b]|
    ensures forall b, k | 0 <= b < |c| && 0 <= k < |c[b]| :: |r[b][k]| == |c[b][k]|
    ensures forall b, k, i, j | 0 <= b < |c| && 0 <= k < |c[b]| && 0 <= i < |c[b][k]| && 0 <= j < nf ::
      |r[b][k][i]| == nf && r[b][k][i][j] == c[b][k][i]
  {
    seq(|c|, b requires 0 <= b < |c| =>
      seq(|c[b]|, k requires 0 <= k < |c[b]| =>
        seq(|c[b][k]|, i requires 0 <= i < |c[b][k]| => seq(nf, _ => c[b][k][i]))))
  }

  /** A (B, K, F) tensor filled with covariance_init. */
  function Filled(nb: nat, nk: nat, nf: nat, value: real): (r: Tensor3)
    ensures IsTensor3(r, nb, nk, nf)
    ensures forall b, k, f | 0 <= b < nb && 0 <= k < nk && 0 <= f < nf :: r[b][k][f] == value
  {
    seq(nb, _ => seq(nk, _ => seq(nf, _ => value)))
  }

  /** The covariance of `init_params` up to the diagonal mask: the supplied 4-D
      tensor, or the 3-D one (supplied, or filled with covariance_init) expanded. */
  function RawInitialCovariance(X: Tensor3, nk: nat, covarianceInit: real, covariance: Option<CovarianceArg>): (r: Tensor4)
    requires CovarianceArgFits(X, nk, covariance)
    ensures IsTensor4(r, |X|, nk, Dim2(X))
  {
    match covariance
    case None => Expand(Filled(|X|, nk, Dim2(X), covarianceInit), Dim2(X))
    case Some(Diagonal(v)) => Expand(v, Dim2(X))
    case Some(Full(c)) => c
  }

  /** The covariance `init_params` returns: masked to the diagonal, then constrained. */
  function InitialCovariance(ctype: string, X: Tensor3, nk: nat, covarianceInit: real, covariance: Option<CovarianceArg>): (r: Tensor4)
    requires CovarianceArgFits(X, nk, covariance)
    ensures IsTensor4(r, |X|, nk, Dim2(X))
  {
    var masked := MapMats(DiagMask, RawInitialCovariance(X, nk, covarianceInit, covariance));
    MapDiagMaskShape(RawInitialCovariance(X, nk, covarianceInit, covariance), |X|, nk, Dim2(X));
    EnforceShape(ctype, masked, |X|, nk, Dim2(X));
    Enforce(ctype, masked)
  }

  /** Every default initial mean is one of the samples of its own batch element. */
  lemma InitialMeansAreSamples(X: Tensor3, nk: nat, draws: seq<seq<int>>, b: nat, k: nat)
    requires DataShape(X) && MeansArgFits(X, nk, None, draws)
    requires b < |X| && k < nk
    ensures exists s | 0 <= s < Dim1(X) :: InitialMeans(X, nk, None, draws)[b][k] == X[b][s]
  {
    var s := draws[b][k];
    assert InitialMeans(X, nk, None, draws)[b][k] == X[b][s];
  }

  /** The diagonal `init_params` starts from: the supplied variances, the
      diagonal of a supplied full matrix, or covariance_init. */
  function InitialVariance(X: Tensor3, nk: nat, covarianceInit: real, covariance: Option<CovarianceArg>,
                           b: nat, k: nat, i: nat): real
    requires CovarianceArgFits(X, nk, covariance)
    requires b < |X| && k < nk && i < Dim2(X)
  {
    match covariance
    case None => covarianceInit
    case Some(Diagonal(v)) => v[b][k][i]
    case Some(Full(c)) => c[b][k][i][i]
  }

  /** After the mask, before the constraint, the initial covariance is diagonal
      whatever form was supplied: a full matrix loses its off-diagonal entries. */
  lemma MaskedInitialCovariance(X: Tensor3, nk: nat, covarianceInit: real, covariance: Option<CovarianceArg>,
                                b: nat, k: nat, i: nat, j: nat)
    requires CovarianceArgFits(X, nk, covariance)
    requires b < |X| && k < nk && i < Dim2(X) && j < Dim2(X)
    ensures var masked := MapMats(DiagMask, RawInitialCovariance(X, nk, covarianceInit, covariance));
      && |masked[b][k]| == Dim2(X) && |masked[b][k][i]| == Dim2(X)
      && masked[b][k][i][j] == if i == j then InitialVariance(X, nk, covarianceInit, covariance, b, k, i) else 0.0
  {
    var raw := RawInitialCovariance(X, nk, covarianceInit, covariance);
    assert MapMats(DiagMask, raw)[b][k] == DiagMask(raw[b][k]);
  }

  /** Under 'diag' and under 'full' the initial covariance is exactly that
      diagonal matrix (by default covariance_init times the identity). */
  lemma InitialCovarianceDiagonal(ctype: string, X: Tensor3, nk: nat, covarianceInit: real,
                                  covariance: Option<CovarianceArg>, b: nat, k: nat, i: nat, j: nat)
    requires ctype == "diag" || ctype == "full"
    requires CovarianceArgFits(X, nk, covariance)
    requires b < |X| && k < nk && i < Dim2(X) && j < Dim2(X)
    ensures InitialCovariance(ctype, X, nk, covarianceInit, covariance)[b][k][i][j]
      == if i == j then InitialVariance(X, nk, covarianceInit, covariance, b, k, i) else 0.0
  {
    var raw := RawInitialCovariance(X, nk, covarianceInit, covariance);
    var masked := MapMats(DiagMask, raw);
    MapDiagMaskShape(raw, |X|, nk, Dim2(X));
    MaskedInitialCovariance(X, nk, covarianceInit, covariance, b, k, i, j);
    if ctype == "diag" {
      EnforceDiag(masked, |X|, nk, Dim2(X));
      MaskedInitialCovariance(X, nk, covarianceInit, covariance, b, k, i, i);
    } else {
      EnforceFull(masked);
    }
  }

  /** The mean of all entries of v times the f-by-f identity is v / f. */
  lemma MatMeanScaledIdentity(m: Mat, nf: nat, v: real)
    requires IsMat(m, nf, nf) && nf >= 1
    requires forall i, j | 0 <= i < nf && 0 <= j < nf :: m[i][j] == if i == j then v else 0.0
    ensures MatMean(m) == v / nf as real
  {
    var colMeans := seq(nf, j requires 0 <= j < nf => Mean(Column(m, j)));
    forall j | 0 <= j < nf ensures colMeans[j] == v / nf as real {
      SumOneHot(Column(m, j), j);
    }
    MeanConst(colMeans, v / nf as real);
  }

  /** Under 'spherical' the default initial variance is covariance_init / F,
      not covariance_init: the mean is taken over all F·F entries after the mask. */
  lemma InitialCovarianceSpherical(X: Tensor3, nk: nat, covarianceInit: real, b: nat, k: nat, i: nat, j: nat)
    requires b < |X| && k < nk && i < Dim2(X) && j < Dim2(X)
    ensures InitialCovariance("spherical", X, nk, covarianceInit, None)[b][k][i][j]
      == if i == j then covarianceInit / Dim2(X) as real else 0.0
  {
    var nf := Dim2(X);
    var raw := RawInitialCovariance(X, nk, covarianceInit, None);
    var masked := MapMats(DiagMask, raw);
    MapDiagMaskShape(raw, |X|, nk, nf);
    EnforceSpherical(masked, |X|, nk, nf);
    forall i', j' | 0 <= i' < nf && 0 <= j' < nf
      ensures masked[b][k][i'][j'] == if i' == j' then covarianceInit else 0.0
    {
      MaskedInitialCovariance(X, nk, covarianceInit, None, b, k, i', j');
    }
    MatMeanScaledIdentity(masked[b][k], nf, covarianceInit);
  }

  /** The shapes every E-step/M-step round needs and keeps. */
  predicate RoundInputs(X: Tensor3, p: Params) {
    EStepShapes(X, p.means, p.covariance) && |X| >= 1 && Dim1(X) >= 1
  }

  /** The parameters after n E-step/M-step rounds from init. */
  function Rounds(d: Density, ctype: string, reg: real, X: Tensor3, init: Params, n: nat): (p: Params)
    requires RoundInputs(X, init)
    ensures RoundInputs(X, p) && Dim1(p.means) == Dim1(init.means)
  {
    if n == 0 then init else Round(d, ctype, reg, X, Rounds(d, ctype, reg, X, init, n - 1))
  }

  /** One loop body of `forward`: the E-step, then the M-step on its responsibilities. */
  function Round(d: Density, ctype: string, reg: real, X: Tensor3, p: Params): (next: Params)
    requires RoundInputs(X, p)
    ensures RoundInputs(X, next) && Dim1(next.means) == Dim1(p.means)
    ensures MStepInputs(X, EStep(d, X, p.means, p.covariance).resp)
  {
    var e := EStep(d, X, p.means, p.covariance);
    DimsOfShape(e.resp, |X|, Dim1(X), Dim1(p.means));
    var next := MStep(ctype, reg, X, e.resp);
    DimsOfShape(next.means, |X|, Dim1(p.means), Dim2(X));
    next
  }

  /** With a single component a round sets each batch element's mean to the
      plain average of its samples and its prior to the number of samples. */
  lemma SingleComponentRound(d: Density, ctype: string, reg: real, X: Tensor3, p: Params, b: nat, f: nat)
    requires RoundInputs(X, p) && Dim1(p.means) == 1
    requires b < |X| && f < Dim2(X)
    ensures Round(d, ctype, reg, X, p).means[b][0][f] == Mean(Column(X[b], f))
    ensures Round(d, ctype, reg, X, p).prior[b][0] == Dim1(X) as real
  {
    var e := EStep(d, X, p.means, p.covariance);
    DimsOfShape(e.resp, |X|, Dim1(X), 1);
    forall s | 0 <= s < Dim1(X) ensures e.resp[b][s][0] == 1.0 {
      EStepSingleComponent(d, X, p.means, p.covariance, b, s);
    }
    MStepSingleComponent(ctype, reg, X, e.resp, b, f);
  }

  /** The prior a round returns sums, per batch element, to the number of
      samples: it counts samples softly and is never divided by that number. */
  lemma RoundPriorSumsToSamples(d: Density, ctype: string, reg: real, X: Tensor3, p: Params, b: nat)
    requires RoundInputs(X, p) && Dim1(p.means) >= 1 && b < |X|
    ensures Sum(Round(d, ctype, reg, X, p).prior[b]) == Dim1(X) as real
  {
    var e := EStep(d, X, p.means, p.covariance);
    DimsOfShape(e.resp, |X|, Dim1(X), Dim1(p.means));
    PriorSumsToSamples(X, e.resp, b);
  }

  /** Under 'diag', after any positive number of rounds every covariance matrix
      is diagonal with entries at least reg_covar. */
  lemma RoundsDiag(d: Density, reg: real, X: Tensor3, init: Params, n: nat, b: nat, k: nat, i: nat, j: nat)
    requires RoundInputs(X, init) && n >= 1
    requires b < |X| && k < Dim1(init.means) && i < Dim2(X) && j < Dim2(X)
    ensures var c := Rounds(d, "diag", reg, X, init, n).covariance;
      && (i != j ==> c[b][k][i][j] == 0.0)
      && (i == j ==> c[b][k][i][i] >= reg)
  {
    var prev := Rounds(d, "diag", reg, X, init, n - 1);
    var e := EStep(d, X, prev.means, prev.covariance);
    DimsOfShape(e.resp, |X|, Dim1(X), Dim1(prev.means));
    MStepDiag(reg, X, e.resp, b, k, i, j);
  }

  /** The Gaussian mixture module with its configuration. */
  class GaussianMixture {
    const nComponents: nat
    /** The number of EM rounds: always 5, whatever the constructor is given. */
    const nIter: nat := 5
    const covarianceType: string
    const covarianceInit: real
    const regCovar: real

    /** Stores the configuration; the `nIter` argument is accepted and ignored,
        and `covarianceInit` defaults to 1.0. */
    constructor (nComponents: nat, nIter: nat := 5, covarianceType: string := "diag",
                 covarianceInit: real := 1.0, regCovar: real := 0.0001)
      ensures this.nComponents == nComponents && this.covarianceType == covarianceType
      ensures this.covarianceInit == covarianceInit && this.regCovar == regCovar
      ensures this.nIter == 5
    {
      this.nComponents := nComponents;
      this.covarianceType := covarianceType;
      this.covarianceInit := covarianceInit;
      this.regCovar := regCovar;
    }

    /** `_enforce_covariance_type` on a (B, K) grid of matrices, updated in place. */
    method EnforceCovarianceType(cov: array2<Mat>)
      modifies cov
      ensures Grid(cov) == Enforce(covarianceType, old(Grid(cov)))
    {
      ghost var c0 := Grid(cov);
      if Contains(covarianceType, SphericalKey) {
        MapInPlace(cov, FillMean);
        MapInPlace(cov, DiagMask);
        SphericalInTwoPasses(c0);
      }
      ghost var c1 := Grid(cov);
      if Contains(covarianceType, DiagKey) {
        MapInPlace(cov, DiagMask);
      }
      ghost var c2 := Grid(cov);
      if Contains(covarianceType, TiedKey) {
        TieInPlace(cov);
      }
    }

    /** `init_params(X, means, covariance)`, with the integers `random_` would
        draw passed in as draws. */
    method InitParams(X: Tensor3, means: Option<Tensor3>, covariance: Option<CovarianceArg>, draws: seq<seq<int>>)
      returns (m: Tensor3, c: Tensor4)
      requires InitInputs(X, nComponents, means, covariance, draws)
      ensures m == InitialMeans(X, nComponents, means, draws)
      ensures c == InitialCovariance(covarianceType, X, nComponents, covarianceInit, covariance)
    {
      var nb, nk := |X|, nComponents;
      if means.None? {
        m := SampleMeans(X, draws);
      } else {
        m := means.value;
      }
      var raw := RawInitialCovariance(X, nk, covarianceInit, covariance);
      // mask to the diagonal, then apply the constraint in place
      var grid := new Mat[nb, nk]((b, k) requires 0 <= b < nb && 0 <= k < nk => DiagMask(raw[b][k]));
      GridMatches(grid, MapMats(DiagMask, raw));
      EnforceCovarianceType(grid);
      c := Grid(grid);
    }

    /** The means drawn from the data: for each batch element b, the rows of
        b at the drawn sample indices, gathered from the flattened data after
        offsetting each index by b * S. */
    method SampleMeans(X: Tensor3, draws: seq<seq<int>>) returns (m: Tensor3)
      requires DataShape(X) && MeansArgFits(X, nComponents, None, draws)
      ensures m == InitialMeans(X, nComponents, None, draws)
    {
      var nb, ns, nk := |X|, Dim1(X), nComponents;
      // a (B, K) table of random sample indices in [0, S)
      var sampled := new int[nb, nk]((b, k) requires 0 <= b < nb && 0 <= k < nk => draws[b][k]);
      // offset row b by b * S so the indices address the flattened rows
      for b := 0 to nb
        invariant forall i, j | 0 <= i < nb && 0 <= j < nk ::
          sampled[i, j] == if i < b then draws[i][j] + i * ns else draws[i][j]
      {
        for k := 0 to nk
          invariant forall i, j | 0 <= i < nb && 0 <= j < nk ::
            sampled[i, j] == if i < b || (i == b && j < k) then draws[i][j] + i * ns else draws[i][j]
        {
          sampled[b, k] := sampled[b, k] + b * ns;
        }
      }
      // gather those rows of the (B * S, F) view, grouped back into (B, K, F)
      var rows := Concat(X);
      m := [];
      for b := 0 to nb
        invariant |m| == b
        invariant forall i | 0 <= i < b :: m[i] == InitialMeans(X, nk, None, draws)[i]
        invariant forall i, j | 0 <= i < nb && 0 <= j < nk :: sampled[i, j] == draws[i][j] + i * ns
      {
        var row := [];
        for k := 0 to nk
          invariant |row| == k
          invariant forall i, j | 0 <= i < nb && 0 <= j < nk :: sampled[i, j] == draws[i][j] + i * ns
          invariant forall j | 0 <= j < k :: row[j] == X[b][draws[b][j]]
        {
          ConcatIndex(X, ns, b, draws[b][k]);
          row := row + [rows[sampled[b, k]]];
        }
        m := m + [row];
      }
    }

    /** `forward(data, means, covariance)`: exactly nIter rounds. The returned
        resp and log_prob come from the last E-step, which saw the parameters
        from before the last M-step; means, covariance and prior come from that
        last M-step, computed from the returned resp. */
    method Forward(d: Density, data: FlatTensor, means: Option<Tensor3>, covariance: Option<CovarianceArg>,
                   draws: seq<seq<int>>)
      returns (result: MixtureResult)
      requires WellFormedData(data)
      requires InitInputs(View3(data), nComponents, means, covariance, draws)
      ensures var X := View3(data);
        var init := Params(InitialMeans(X, nComponents, means, draws),
                           InitialCovariance(covarianceType, X, nComponents, covarianceInit, covariance), []);
        var before := Rounds(d, covarianceType, regCovar, X, init, nIter - 1);
        var e := EStep(d, X, before.means, before.covariance);
        && Params(result.means, result.covariance, result.prior) == Rounds(d, covarianceType, regCovar, X, init, nIter)
        && MStepInputs(X, e.resp)
        && Params(result.means, result.covariance, result.prior) == MStep(covarianceType, regCovar, X, e.resp)
        && result.resp == Unview(data.shape, e.resp, nComponents)
        && result.logProb == Unview(data.shape, e.logProb, nComponents)
    {
      var X := View3(data);
      var m, c := InitParams(X, means, covariance, draws);
      var init := Params(m, c, []);
      assert RoundInputs(X, init);
      var e, p := RunRounds(d, X, init, nIter);
      result := MixtureResult(Unview(data.shape, e.resp, nComponents), Unview(data.shape, e.logProb, nComponents),
                              p.means, p.covariance, p.prior);
    }

    /** The loop of `forward`: n rounds of E-step then M-step from init,
        returning the last E-step's result and the last M-step's parameters.
        The last round is taken out of the loop so that its E-step result
        is the one returned. */
    method RunRounds(d: Density, X: Tensor3, init: Params, n: nat) returns (e: EStepResult, p: Params)
      requires RoundInputs(X, init) && n >= 1
      ensures p == Rounds(d, covarianceType, regCovar, X, init, n)
      ensures var before := Rounds(d, covarianceType, regCovar, X, init, n - 1);
        e == EStep(d, X, before.means, before.covariance)
      ensures MStepInputs(X, e.resp) && p == MStep(covarianceType, regCovar, X, e.resp)
    {
      p := init;
      for i := 0 to n - 1
        invariant p == Rounds(d, covarianceType, regCovar, X, init, i)
      {
        e, p := Step(d, X, p);
      }
      e, p := Step(d, X, p);
    }

    /** One round of the loop: the E-step on the current parameters, then
        the M-step on its responsibilities. */
    method Step(d: Density, X: Tensor3, p: Params) returns (e: EStepResult, next: Params)
      requires RoundInputs(X, p)
      ensures e == EStep(d, X, p.means, p.covariance)
      ensures MStepInputs(X, e.resp) && next == MStep(covarianceType, regCovar, X, e.resp)
      ensures next == Round(d, covarianceType, regCovar, X, p)
    {
      e := EStep(d, X, p.means, p.covariance);
      next := MStep(covarianceType, regCovar, X, e.resp);
    }
  }

  /** A module built with only the component count takes the declared
      defaults: 'diag', covariance_init 1.0 (not the 0.1 its documentation
      names), reg_covar 1e-4, and five rounds. */
  method DefaultMixture(nComponents: nat) returns (g: GaussianMixture)
    ensures g.nComponents == nComponents && g.covarianceType == "diag"
    ensures g.covarianceInit == 1.0 && g.regCovar == 0.0001 && g.nIter == 5
  {
    g := new GaussianMixture(nComponents);
  }

  /** The (B, K) grid of matrices held in a. */
  function Grid(a: array2<Mat>): (g: Tensor4)
    reads a
    ensures |g| == a.Length0 && forall b | 0 <= b < a.Length0 :: |g[b]| == a.Length1
  {
    seq(a.Length0, b requires 0 <= b < a.Length0 reads a =>
      seq(a.Length1, k requires 0 <= k < a.Length1 reads a => a[b, k]))
  }

  /** An array holding t, entry by entry, is t. */
  lemma GridMatches(a: array2<Mat>, t: Tensor4)
    requires |t| == a.Length0
    requires forall b | 0 <= b < |t| :: |t[b]| == a.Length1
    requires forall b, k | 0 <= b < a.Length0 && 0 <= k < a.Length1 :: a[b, k] == t[b][k]
    ensures Grid(a) == t
  {
    forall b | 0 <= b < |t| ensures Grid(a)[b] == t[b] {
      assert forall k | 0 <= k < a.Length1 :: Grid(a)[b][k] == t[b][k];
    }
  }

  /** The spherical branch's two passes, mean-fill then mask, make `Spherical`. */
  lemma SphericalInTwoPasses(c: Tensor4)
    ensures MapMats(DiagMask, MapMats(FillMean, c)) == MapMats(Spherical, c)
  {
    var filled := MapMats(FillMean, c);
    var lhs, rhs := MapMats(DiagMask, filled), MapMats(Spherical, c);
    forall b | 0 <= b < |c| ensures lhs[b] == rhs[b] {
      forall k | 0 <= k < |c[b]| ensures lhs[b][k] == rhs[b][k] {
        assert filled[b][k] == FillMean(c[b][k]);
      }
    }
  }

  /** Replaces every matrix m of the grid by f(m), in place. */
  method MapInPlace(a: array2<Mat>, f: Mat -> Mat)
    modifies a
    ensures Grid(a) == MapMats(f, old(Grid(a)))
  {
    ghost var g := Grid(a);
    for b := 0 to a.Length0
      invariant forall i, j | 0 <= i < a.Length0 && 0 <= j < a.Length1 ::
        a[i, j] == if i < b then f(g[i][j]) else g[i][j]
    {
      for k := 0 to a.Length1
        invariant forall i, j | 0 <= i < a.Length0 && 0 <= j < a.Length1 ::
          a[i, j] == if i < b || (i == b && j < k) then f(g[i][j]) else g[i][j]
      {
        a[b, k] := f(a[b, k]);
      }
    }
    GridMatches(a, MapMats(f, g));
  }

  /** Overwrites every component with its batch element's component mean, in place:
      every batch element's mean is taken before its slots are overwritten. */
  method TieInPlace(a: array2<Mat>)
    modifies a
    ensures Grid(a) == TiedAll(old(Grid(a)))
  {
    ghost var g := Grid(a);
    for b := 0 to a.Length0
      invariant forall i, j | 0 <= i < a.Length0 && 0 <= j < a.Length1 ::
        a[i, j] == if i < b then ComponentMean(g[i]) else g[i][j]
    {
      var row := Grid(a)[b];
      assert row == g[b] by {
        assert forall j | 0 <= j < a.Length1 :: row[j] == g[b][j];
      }
      var mean := ComponentMean(row);
      for k := 0 to a.Length1
        invariant forall i, j | 0 <= i < a.Length0 && 0 <= j < a.Length1 ::
          a[i, j] == if i < b || (i == b && j < k) then ComponentMean(g[i]) else g[i][j]
      {
        a[b, k] := mean;
      }
    }
    GridMatches(a, TiedAll(g));
  }
}
