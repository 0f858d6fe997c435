/** The M-step of `GaussianMixture._m_step`: responsibility-weighted means, the
    covariance built from `diff * resp` (hence weighted by resp squared), clamped
    to `reg_covar` and constrained, and the unnormalised prior. */
module Maximization {
  import opened Tensors
  import opened Covariance

  /** Means (B, K, F), covariance (B, K, F, F) and prior (B, K) of the mixture. */
  datatype Params = Params(means: Tensor3, covariance: Tensor4, prior: Mat)

  /** `_bottom` for component k of one batch element: Σ_s resp[s][k]. */
  function SoftCount(resp: Mat, k: nat): real {
    Sum(Column(resp, k))
  }

  /** `_top` for component k and feature f of one batch element: Σ_s resp[s][k]·x[s][f]. */
  function WeightedSum(x: Mat, resp: Mat, k: nat, f: nat): real {
    Sum(WeightedColumn(x, resp, k, f))
  }

  function WeightedColumn(x: Mat, resp: Mat, k: nat, f: nat): (v: Vec)
    ensures |v| == |x|
  {
    seq(|x|, s requires 0 <= s < |x| => At(resp, s, k) * At(x, s, f))
  }

  /** Entry (s, i) of the centred data scaled by resp, for component k with mean mu. */
  function Diff(x: Mat, resp: Mat, mu: Vec, k: nat, s: nat, i: nat): real {
    (At(x, s, i) - Get(mu, i)) * At(resp, s, k)
  }

  /** Entry (i, j) of the F-by-F product of the scaled centred data with itself, for component k. */
  function DiffProduct(x: Mat, resp: Mat, mu: Vec, k: nat, i: nat, j: nat): real {
    Sum(seq(|x|, s requires 0 <= s < |x| => Diff(x, resp, mu, k, s, i) * Diff(x, resp, mu, k, s, j)))
  }

  /** The terms r_sk²·(x_si − μ_i)·(x_sj − μ_j) the covariance entry (i, j) sums. */
  function SquaredWeightTerms(x: Mat, resp: Mat, mu: Vec, k: nat, i: nat, j: nat): (v: Vec)
    ensures |v| == |x|
  {
    seq(|x|, s requires 0 <= s < |x| =>
      At(resp, s, k) * At(resp, s, k) * (At(x, s, i) - Get(mu, i)) * (At(x, s, j) - Get(mu, j)))
  }

  /** X of shape (B, S, F) with S >= 1, and positive responsibilities of shape (B, S, K). */
  predicate MStepInputs(X: Tensor3, resp: Tensor3) {
    && IsTensor3(X, |X|, Dim1(X), Dim2(X))
    && IsTensor3(resp, |X|, Dim1(X), Dim2(resp))
    && |X| >= 1 && Dim1(X) >= 1
    && forall b, s, k | 0 <= b < |X| && 0 <= s < Dim1(X) && 0 <= k < Dim2(resp) :: resp[b][s][k] > 0.0
  }

  /** With S >= 1 positive responsibilities, no soft count is zero. */
  lemma SoftCountsPositive(X: Tensor3, resp: Tensor3)
    requires MStepInputs(X, resp)
    ensures forall b, k | 0 <= b < |X| && 0 <= k < Dim2(resp) :: SoftCount(resp[b], k) > 0.0
  {
    forall b, k | 0 <= b < |X| && 0 <= k < Dim2(resp) ensures SoftCount(resp[b], k) > 0.0 {
      SumPositive(Column(resp[b], k));
    }
  }

  /** The means: `_top` divided by `_bottom`, shape (B, K, F). */
  function Means(X: Tensor3, resp: Tensor3): (m: Tensor3)
    requires MStepInputs(X, resp)
    ensures IsTensor3(m, |X|, Dim2(resp), Dim2(X))
  {
    SoftCountsPositive(X, resp);
    seq(|X|, b requires 0 <= b < |X| =>
      seq(Dim2(resp), k requires 0 <= k < Dim2(resp) =>
        seq(Dim2(X), f requires 0 <= f < Dim2(X) =>
          WeightedSum(X[b], resp[b], k, f) / SoftCount(resp[b], k))))
  }

  /** The covariance before the constraint: that product divided by `_bottom`, clamped below at reg. */
  function ClampedCovariance(reg: real, X: Tensor3, resp: Tensor3): (c: Tensor4)
    requires MStepInputs(X, resp)
    ensures IsTensor4(c, |X|, Dim2(resp), Dim2(X))
  {
    var means := Means(X, resp);
    SoftCountsPositive(X, resp);
    seq(|X|, b requires 0 <= b < |X| =>
      seq(Dim2(resp), k requires 0 <= k < Dim2(resp) =>
        seq(Dim2(X), i requires 0 <= i < Dim2(X) =>
          seq(Dim2(X), j requires 0 <= j < Dim2(X) =>
            Max(reg, DiffProduct(X[b], resp[b], means[b][k], k, i, j) / SoftCount(resp[b], k))))))
  }

  /** The soft counts `_bottom`, shape (B, K). */
  function Prior(X: Tensor3, resp: Tensor3): (p: Mat)
    requires MStepInputs(X, resp)
    ensures IsMat(p, |X|, Dim2(resp))
    ensures forall b, k | 0 <= b < |X| && 0 <= k < Dim2(resp) :: p[b][k] > 0.0
  {
    SoftCountsPositive(X, resp);
    seq(|X|, b requires 0 <= b < |X| =>
      seq(Dim2(resp), k requires 0 <= k < Dim2(resp) => SoftCount(resp[b], k)))
  }

  /** The prior is not normalised: when every sample's responsibilities sum
      to 1, a batch element's prior entries sum to its number of samples. */
  lemma PriorSumsToSamples(X: Tensor3, resp: Tensor3, b: nat)
    requires MStepInputs(X, resp) && b < |X|
    requires forall s | 0 <= s < Dim1(X) :: Sum(resp[b][s]) == 1.0
    ensures Sum(Prior(X, resp)[b]) == Dim1(X) as real
  {
    var r := resp[b];
    assert Prior(X, resp)[b] == ColumnSums(r, Dim2(resp));
    SumByColumnsOrRows(r, Dim2(resp));
    SumConst(RowSums(r), 1.0);
  }

  /** `_m_step(X, resp)` under covariance type ctype and floor reg. */
  function MStep(ctype: string, reg: real, X: Tensor3, resp: Tensor3): (p: Params)
    requires MStepInputs(X, resp)
    ensures IsTensor3(p.means, |X|, Dim2(resp), Dim2(X))
    ensures IsTensor4(p.covariance, |X|, Dim2(resp), Dim2(X))
    ensures IsMat(p.prior, |X|, Dim2(resp))
    ensures forall b, k | 0 <= b < |X| && 0 <= k < Dim2(resp) :: p.prior[b][k] > 0.0
  {
    var covariance := ClampedCovariance(reg, X, resp);
    EnforceShape(ctype, covariance, |X|, Dim2(resp), Dim2(X));
    Params(Means(X, resp), Enforce(ctype, covariance), Prior(X, resp))
  }

  /** Every entry of the clamped covariance is at least reg. */
  lemma ClampedFloor(reg: real, X: Tensor3, resp: Tensor3)
    requires MStepInputs(X, resp)
    ensures forall b, k, i, j | 0 <= b < |X| && 0 <= k < Dim2(resp) && 0 <= i < Dim2(X) && 0 <= j < Dim2(X) ::
      ClampedCovariance(reg, X, resp)[b][k][i][j] >= reg
  {
  }

  /** Each mean is a convex combination of the data rows of its batch element,
      so it lies within the range those rows span. */
  lemma MeanWithinDataRange(X: Tensor3, resp: Tensor3, b: nat, k: nat, f: nat, lo: real, hi: real)
    requires MStepInputs(X, resp)
    requires b < |X| && k < Dim2(resp) && f < Dim2(X)
    requires forall s | 0 <= s < Dim1(X) :: lo <= X[b][s][f] <= hi
    ensures lo <= Means(X, resp)[b][k][f] <= hi
  {
    var w := Column(resp[b], k);
    var x := Column(X[b], f);
    var wx := WeightedColumn(X[b], resp[b], k, f);
    WeightedLowerBound(w, x, wx, lo);
    WeightedUpperBound(w, x, wx, hi);
    SoftCountsPositive(X, resp);
    assert Sum(w) == SoftCount(resp[b], k) > 0.0;
    DivLowerBound(Sum(wx), Sum(w), lo);
    DivUpperBound(Sum(wx), Sum(w), hi);
  }

  /** With one component whose responsibilities are all 1, the mean is the
      sample mean of the batch element and the prior is the sample count. */
  lemma MStepSingleComponent(ctype: string, reg: real, X: Tensor3, resp: Tensor3, b: nat, f: nat)
    requires MStepInputs(X, resp) && Dim2(resp) == 1
    requires b < |X| && f < Dim2(X)
    requires forall s | 0 <= s < Dim1(X) :: resp[b][s][0] == 1.0
    ensures MStep(ctype, reg, X, resp).prior[b][0] == Dim1(X) as real
    ensures MStep(ctype, reg, X, resp).means[b][0][f] == Mean(Column(X[b], f))
  {
    var w := Column(resp[b], 0);
    var x := Column(X[b], f);
    var wx := WeightedColumn(X[b], resp[b], 0, f);
    SumConst(w, 1.0);
    forall s | 0 <= s < |wx| ensures wx[s] == 1.0 * x[s] { }
    SumScaled(wx, x, 1.0);
    assert |x| == |w| == Dim1(X) >= 1;
    SoftCountsPositive(X, resp);
    assert Means(X, resp)[b][0][f] == WeightedSum(X[b], resp[b], 0, f) / SoftCount(resp[b], 0);
  }

  /** Entry (i, j) of the clamped covariance of component k in batch element b. */
  lemma ClampedEntry(reg: real, X: Tensor3, resp: Tensor3, b: nat, k: nat, i: nat, j: nat)
    requires MStepInputs(X, resp)
    requires b < |X| && k < Dim2(resp) && i < Dim2(X) && j < Dim2(X)
    ensures SoftCount(resp[b], k) > 0.0
    ensures ClampedCovariance(reg, X, resp)[b][k][i][j]
      == Max(reg, DiffProduct(X[b], resp[b], Means(X, resp)[b][k], k, i, j) / SoftCount(resp[b], k))
  {
    SoftCountsPositive(X, resp);
  }

  /** The deviation product sums r²·(x_i − μ_i)·(x_j − μ_j) over the samples. */
  lemma {:induction false} DiffProductSquaredWeights(x: Mat, r: Mat, mu: Vec, k: nat, i: nat, j: nat)
    ensures DiffProduct(x, r, mu, k, i, j) == Sum(SquaredWeightTerms(x, r, mu, k, i, j))
  {
    var products := seq(|x|, s requires 0 <= s < |x| => Diff(x, r, mu, k, s, i) * Diff(x, r, mu, k, s, j));
    var terms := SquaredWeightTerms(x, r, mu, k, i, j);
    forall s | 0 <= s < |x| ensures products[s] == 1.0 * terms[s] {
      var di, dj, w := At(x, s, i) - Get(mu, i), At(x, s, j) - Get(mu, j), At(r, s, k);
      assert products[s] == (di * w) * (dj * w);
      assert terms[s] == w * w * di * dj;
      SquaredWeight(di, dj, w);
    }
    SumScaled(products, terms, 1.0);
  }

  lemma SquaredWeight(di: real, dj: real, w: real)
    ensures (di * w) * (dj * w) == 1.0 * (w * w * di * dj)
  {
  }

  /** The deviation product is symmetric in i and j. */
  lemma {:induction false} DiffProductSymmetric(x: Mat, r: Mat, mu: Vec, k: nat, i: nat, j: nat)
    ensures DiffProduct(x, r, mu, k, i, j) == DiffProduct(x, r, mu, k, j, i)
  {
    var pij := seq(|x|, s requires 0 <= s < |x| => Diff(x, r, mu, k, s, i) * Diff(x, r, mu, k, s, j));
    var pji := seq(|x|, s requires 0 <= s < |x| => Diff(x, r, mu, k, s, j) * Diff(x, r, mu, k, s, i));
    forall s | 0 <= s < |x| ensures pij[s] == 1.0 * pji[s] { }
    SumScaled(pij, pji, 1.0);
  }

  /** Covariance entry (i, j) of component k before the constraint is
      max(reg, Σ_s r_sk²·(x_si − μ_ki)·(x_sj − μ_kj) / Σ_s r_sk): the weights enter
      squared because `diff` is multiplied by resp before the product. */
  lemma CovarianceSquaredWeights(reg: real, X: Tensor3, resp: Tensor3, b: nat, k: nat, i: nat, j: nat)
    requires MStepInputs(X, resp)
    requires b < |X| && k < Dim2(resp) && i < Dim2(X) && j < Dim2(X)
    ensures SoftCount(resp[b], k) > 0.0
    ensures ClampedCovariance(reg, X, resp)[b][k][i][j]
      == Max(reg, Sum(SquaredWeightTerms(X[b], resp[b], Means(X, resp)[b][k], k, i, j)) / SoftCount(resp[b], k))
  {
    ClampedEntry(reg, X, resp, b, k, i, j);
    DiffProductSquaredWeights(X[b], resp[b], Means(X, resp)[b][k], k, i, j);
  }

  /** The covariance before the constraint is symmetric. */
  lemma ClampedSymmetric(reg: real, X: Tensor3, resp: Tensor3, b: nat, k: nat, i: nat, j: nat)
    requires MStepInputs(X, resp)
    requires b < |X| && k < Dim2(resp) && i < Dim2(X) && j < Dim2(X)
    ensures ClampedCovariance(reg, X, resp)[b][k][i][j] == ClampedCovariance(reg, X, resp)[b][k][j][i]
  {
    ClampedEntry(reg, X, resp, b, k, i, j);
    ClampedEntry(reg, X, resp, b, k, j, i);
    DiffProductSymmetric(X[b], resp[b], Means(X, resp)[b][k], k, i, j);
  }

  /** 'diag': off-diagonal covariance entries are exactly 0, diagonal entries
      keep their clamped value and so are at least reg. */
  lemma MStepDiag(reg: real, X: Tensor3, resp: Tensor3, b: nat, k: nat, i: nat, j: nat)
    requires MStepInputs(X, resp)
    requires b < |X| && k < Dim2(resp) && i < Dim2(X) && j < Dim2(X)
    ensures var c := MStep("diag", reg, X, resp).covariance;
      && (i != j ==> c[b][k][i][j] == 0.0)
      && (i == j ==> c[b][k][i][j] == ClampedCovariance(reg, X, resp)[b][k][i][i] >= reg)
  {
    EnforceDiag(ClampedCovariance(reg, X, resp), |X|, Dim2(resp), Dim2(X));
  }

  /** 'spherical': each component has one variance, the mean of all its clamped
      entries, on every diagonal entry; it is at least reg; off-diagonals are 0. */
  lemma MStepSpherical(reg: real, X: Tensor3, resp: Tensor3, b: nat, k: nat)
    requires MStepInputs(X, resp) && Dim2(X) >= 1
    requires b < |X| && k < Dim2(resp)
    ensures var c := MStep("spherical", reg, X, resp).covariance[b][k];
      && c[0][0] == MatMean(ClampedCovariance(reg, X, resp)[b][k])
      && c[0][0] >= reg
      && forall i, j | 0 <= i < Dim2(X) && 0 <= j < Dim2(X) :: c[i][j] == if i == j then c[0][0] else 0.0
  {
    var clamped := ClampedCovariance(reg, X, resp);
    EnforceSpherical(clamped, |X|, Dim2(resp), Dim2(X));
    MatMeanLowerBound(clamped[b][k], Dim2(X), reg);
  }

  /** 'tied': all components of a batch element share one matrix, the
      component-wise mean of the clamped matrices, whose entries are at least reg. */
  lemma MStepTied(reg: real, X: Tensor3, resp: Tensor3, b: nat, k: nat)
    requires MStepInputs(X, resp)
    requires b < |X| && k < Dim2(resp)
    ensures var c := MStep("tied", reg, X, resp).covariance;
      && c[b][k] == c[b][0] == ComponentMean(ClampedCovariance(reg, X, resp)[b])
      && forall i, j | 0 <= i < Dim2(X) && 0 <= j < Dim2(X) :: c[b][k][i][j] >= reg
  {
    var clamped := ClampedCovariance(reg, X, resp);
    var c := MStep("tied", reg, X, resp).covariance;
    assert c == Enforce("tied", clamped);
    EnforceTied(clamped, |X|, Dim2(resp), Dim2(X));
    assert c[b][k] == c[b][0] == ComponentMean(clamped[b]);
    ClampedFloor(reg, X, resp);
    ComponentMeanLowerBound(clamped[b], Dim2(resp), Dim2(X), reg);
  }

  /** 'full' (or any string naming no constraint): the covariance is the clamped
      one, so every entry, off-diagonal ones included, is at least reg. */
  lemma MStepFull(reg: real, X: Tensor3, resp: Tensor3)
    requires MStepInputs(X, resp)
    ensures MStep("full", reg, X, resp).covariance == ClampedCovariance(reg, X, resp)
    ensures forall b, k, i, j | 0 <= b < |X| && 0 <= k < Dim2(resp) && 0 <= i < Dim2(X) && 0 <= j < Dim2(X) ::
      MStep("full", reg, X, resp).covariance[b][k][i][j] >= reg
  {
    EnforceFull(ClampedCovariance(reg, X, resp));
  }
}
