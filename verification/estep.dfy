/** The E-step of `GaussianMixture._e_step`: per-sample log-densities under each
    component, turned into responsibilities by exponentiating, adding 1e-8 and an L1
    normalisation across the component axis. */
module Expectation {
  import opened Tensors

  type NonNegReal = x: real | x >= 0.0

  /** The foreign parts of the E-step. `logProb(x, mean, cov)` stands for
      the log-density of x under the multivariate normal with that mean and
      covariance matrix and is not interpreted; `exp` stands for the tensor
      exponential, known only to be non-negative
      (in floating point it underflows to 0, which is what the 1e-8 is for). */
  datatype Density = Density(logProb: (Vec, Vec, Mat) -> real, exp: real -> NonNegReal)

  /** Added to every probability before normalising. */
  const Epsilon: real := 0.00000001

  /** The `eps` of `nn.functional.normalize`: the norm is never taken below it. */
  const NormFloor: real := 0.000000000001

  datatype EStepResult = EStepResult(resp: Tensor3, logProb: Tensor3)

  /** Σ_i |v_i|. */
  function L1Norm(v: Vec): real {
    if |v| == 0 then 0.0 else Abs(v[0]) + L1Norm(v[1..])
  }

  function DivideBy(v: Vec, n: real): (r: Vec)
    requires n != 0.0
    ensures |r| == |v|
  {
    seq(|v|, i requires 0 <= i < |v| => v[i] / n)
  }

  lemma SumDivideBy(v: Vec, n: real)
    requires n != 0.0
    ensures Sum(DivideBy(v, n)) == Sum(v) / n
  {
    SumScaled(DivideBy(v, n), v, 1.0 / n);
  }

  lemma DivSelf(x: real)
    requires x != 0.0
    ensures x / x == 1.0
  {
  }

  lemma DivPositive(a: real, n: real)
    requires a > 0.0 && n > 0.0
    ensures a / n > 0.0
  {
  }

  lemma {:induction false} L1NormOfNonNegative(v: Vec)
    requires forall i | 0 <= i < |v| :: v[i] >= 0.0
    ensures L1Norm(v) == Sum(v)
  {
    if |v| > 0 {
      L1NormOfNonNegative(v[1..]);
    }
  }

  /** On a vector whose entries are at least Epsilon the 1e-12 floor never
      applies: the divisor is the plain sum, and the result is a distribution. */
  lemma NormalizeFacts(v: Vec, n: real)
    requires n == Max(L1Norm(v), NormFloor)
    ensures n > 0.0
    ensures |v| > 0 && (forall i | 0 <= i < |v| :: v[i] >= Epsilon) ==>
      && n == Sum(v)
      && Sum(DivideBy(v, n)) == 1.0
      && forall i | 0 <= i < |v| :: DivideBy(v, n)[i] > 0.0
  {
    if |v| > 0 && (forall i | 0 <= i < |v| :: v[i] >= Epsilon) {
      L1NormOfNonNegative(v);
      SumLowerBound(v, Epsilon);
      assert Sum(v) >= Epsilon by {
        assert |v| as real >= 1.0;
      }
      assert n == Sum(v);
      SumDivideBy(v, n);
      DivSelf(n);
      forall i | 0 <= i < |v| ensures DivideBy(v, n)[i] > 0.0 {
        DivPositive(v[i], n);
      }
    }
  }

  /** L1 normalisation along the last axis: v / max(‖v‖₁, 1e-12). */
  function NormalizeL1(v: Vec): (r: Vec)
    ensures |r| == |v|
    ensures |v| > 0 && (forall i | 0 <= i < |v| :: v[i] >= Epsilon) ==>
      && Sum(v) > 0.0
      && Sum(r) == 1.0
      && forall i | 0 <= i < |v| :: r[i] > 0.0 && r[i] == v[i] / Sum(v)
  {
    var n := Max(L1Norm(v), NormFloor);
    NormalizeFacts(v, n);
    DivideBy(v, n)
  }

  /** `log_prob` of one sample x under each component (means mus, covariances covs). */
  function LogProbRow(d: Density, x: Vec, mus: Mat, covs: seq<Mat>): (r: Vec)
    requires |covs| == |mus|
    ensures |r| == |mus|
  {
    seq(|mus|, k requires 0 <= k < |mus| => d.logProb(x, mus[k], covs[k]))
  }

  /** The probabilities of one sample: the exponential of each log-density plus 1e-8. */
  function ProbRow(d: Density, lp: Vec): (p: Vec)
    ensures |p| == |lp|
    ensures forall k | 0 <= k < |lp| :: p[k] == d.exp(lp[k]) + Epsilon && p[k] >= Epsilon
  {
    seq(|lp|, k requires 0 <= k < |lp| => d.exp(lp[k]) + Epsilon)
  }

  /** X has shape (B, S, F), means (B, K, F) and covariance (B, K, F, F). */
  predicate EStepShapes(X: Tensor3, means: Tensor3, covariance: Tensor4) {
    && IsTensor3(X, |X|, Dim1(X), Dim2(X))
    && IsTensor3(means, |X|, Dim1(means), Dim2(X))
    && IsTensor4(covariance, |X|, Dim1(means), Dim2(X))
  }

  /** `_e_step(X, means, covariance)`: responsibilities and raw log-densities,
      both of shape (B, S, K). Every responsibility is positive and, when there
      is at least one component, every sample's responsibilities sum to 1. */
  function EStep(d: Density, X: Tensor3, means: Tensor3, covariance: Tensor4): (e: EStepResult)
    requires EStepShapes(X, means, covariance)
    ensures IsTensor3(e.logProb, |X|, Dim1(X), Dim1(means))
    ensures IsTensor3(e.resp, |X|, Dim1(X), Dim1(means))
    ensures forall b, s, k | 0 <= b < |X| && 0 <= s < Dim1(X) && 0 <= k < Dim1(means) ::
      e.resp[b][s][k] > 0.0
    ensures Dim1(means) >= 1 ==>
      forall b, s | 0 <= b < |X| && 0 <= s < Dim1(X) :: Sum(e.resp[b][s]) == 1.0
  {
    var logProb := seq(|X|, b requires 0 <= b < |X| =>
      seq(|X[b]|, s requires 0 <= s < |X[b]| => LogProbRow(d, X[b][s], means[b], covariance[b])));
    var resp := seq(|X|, b requires 0 <= b < |X| =>
      seq(|X[b]|, s requires 0 <= s < |X[b]| => NormalizeL1(ProbRow(d, logProb[b][s]))));
    EStepResult(resp, logProb)
  }

  /** The returned `log_prob` is the raw log-density, and each responsibility is
      `exp(log_prob) + 1e-8` divided by that sum over the components. */
  lemma EStepRespFromLogProb(d: Density, X: Tensor3, means: Tensor3, covariance: Tensor4, b: nat, s: nat, k: nat)
    requires EStepShapes(X, means, covariance)
    requires b < |X| && s < Dim1(X) && k < Dim1(means)
    ensures var e := EStep(d, X, means, covariance);
      && e.logProb[b][s][k] == d.logProb(X[b][s], means[b][k], covariance[b][k])
      && Sum(ProbRow(d, e.logProb[b][s])) > 0.0
      && e.resp[b][s][k] == (d.exp(e.logProb[b][s][k]) + Epsilon) / Sum(ProbRow(d, e.logProb[b][s]))
  {
  }

  /** With a single component every responsibility is exactly 1. */
  lemma {:induction false} EStepSingleComponent(d: Density, X: Tensor3, means: Tensor3, covariance: Tensor4, b: nat, s: nat)
    requires EStepShapes(X, means, covariance)
    requires Dim1(means) == 1
    requires b < |X| && s < Dim1(X)
    ensures EStep(d, X, means, covariance).resp[b][s] == [1.0]
  {
    var e := EStep(d, X, means, covariance);
    var row := e.resp[b][s];
    assert |row| == 1;
    assert Sum(row) == row[0] + Sum(row[1..]);
  }
}
