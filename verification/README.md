# GaussianMixture: a Dafny model of nussl's differentiable EM layer

nussl's `GaussianMixture` (`nussl/ml/unfold/gaussian_mixture.py`) is a PyTorch module. It fits a
batch of Gaussian mixture models, one per batch element, with a fixed number of
expectation-maximisation rounds:

- `forward` flattens every dimension between the batch and the feature axis into one sample
  axis.
- `init_params` picks initial means and covariances.
- `forward` then alternates the E-step and the M-step. The E-step gives the responsibilities of
  each component for each sample. The M-step gives the means, covariances and priors weighted by
  those responsibilities.
- `forward` returns the responsibilities and log-densities, reshaped back to the caller's
  leading shape, along with the final parameters.
- After every update, and at initialisation, `_enforce_covariance_type` constrains the
  covariance to the configured structure: spherical, diagonal, tied or full.

The project is split into five modules:

- `Tensors` (`tensors.dfy`): dense tensors as nested sequences of reals. It also defines sums
  and means, and the row-major flatten (`Concat`) and split (`Chunk`) that stand for `view`.
- `Covariance` (`covariance.dfy`): Python's substring test on the type string, and `Enforce`,
  the value-level meaning of `_enforce_covariance_type`.
- `Expectation` (`estep.dfy`): `_e_step`. The multivariate normal log-density and `torch.exp`
  are parameters of a `Density` value.
- `Maximization` (`mstep.dfy`): `_m_step`.
- `Mixture` (`mixture.dfy`): the `GaussianMixture` class itself. Its configuration is held as
  `const` fields. Its methods are:
  - `EnforceCovarianceType`, which updates a grid of matrices in place;
  - `InitParams`, whose default means come from `SampleMeans`, with the buffer of sampled
    indices shifted by `b·S`;
  - `Forward` and its loop, `RunRounds`, whose body is `Step`. `RunRounds` takes the last
    round out of the loop so that its E-step result can be returned; the sequence of steps is
    unchanged.

  Each method is proved against the specification functions `Enforce`, `InitialMeans`,
  `InitialCovariance` and `Rounds`.

Behaviour of the code that the model keeps on purpose:

- **The iteration count is fixed.** The constructor accepts `n_iter` but always stores 5
  (`gaussian_mixture.py:38`). `forward` therefore runs exactly five rounds.
- **The `covariance_init` default differs from its docstring.** The default is 1.0 (line 7),
  although the docstring says 0.1 (line 32).
- **The type tests are cascading substring tests**, not an exclusive choice.
  - A name that contains both `"diag"` and `"tied"` gets both constraints (`EnforceCascades`).
  - A name with none of the three keys, `"full"` included, leaves the covariance unchanged.
  - No name is rejected.
- **At initialisation the covariance is always masked to its diagonal**, even under `"full"`
  (lines 157-160). A supplied full matrix therefore loses its off-diagonal entries
  (`InitialCovarianceDiagonal`).
- **Under `"spherical"` the default initial variance is `covariance_init / F`.** The mean is
  taken over all F·F entries after masking (`InitialCovarianceSpherical`).
- **The M-step covariance weighs each deviation product by r², not r**, and divides by Σ r
  (`CovarianceSquaredWeights`). Each entry is then clamped from below at `reg_covar`. Under
  `"diag"` and `"spherical"` the masking comes after the clamp, so the off-diagonal entries are
  0, not at least `reg_covar` (`MStepDiag`, `MStepSpherical`).
- **The prior is the unnormalised soft count.** Its entries sum to the number of samples
  (`PriorSumsToSamples`, `RoundPriorSumsToSamples`).
- **`forward` returns two different updates.** Its `resp` and `log_prob` come from the last
  E-step, which saw the parameters of the previous round. Its means, covariance and prior come
  from the M-step that followed (`Forward`).

## Model

| member | source | states |
|---|---|---|
| Mixture.GaussianMixture.constructor | nussl/ml/unfold/gaussian_mixture.py:6-41 | stores n_components, covariance_type, covariance_init and reg_covar as given, with defaults "diag", 1.0 and 1e-4; the iteration count is 5 whatever n_iter is passed |
| Mixture.DefaultMixture | nussl/ml/unfold/gaussian_mixture.py:6-7 | a module built from the component count alone has type "diag", covariance_init 1.0 (the docstring at line 32 says 0.1), reg_covar 1e-4 and five rounds |
| Covariance.Contains | nussl/ml/unfold/gaussian_mixture.py:110-121 | Python's `in` on the type string: the empty key is in every string, and a key that is in the string is no longer than it |
| Covariance.ContainsIffOccurs | nussl/ml/unfold/gaussian_mixture.py:110-121 | the recursive `Contains` holds exactly when the key occurs at some position of the type string, i.e. it is Python's `in` on strings |
| Covariance.DispatchOfDocumentedNames | nussl/ml/unfold/gaussian_mixture.py:110-121 | "spherical", "diag" and "tied" each fire only their own test; "full" fires none |
| Covariance.Enforce | nussl/ml/unfold/gaussian_mixture.py:105-125 | the three independent tests in order: spherical fill-and-mask, then the diagonal mask, then the component mean; it keeps the (B, K) grid of matrices |
| Covariance.EnforceCascades | nussl/ml/unfold/gaussian_mixture.py:110-124 | the tests are independent: "diag_tied" masks to the diagonal and then ties the components |
| Covariance.EnforceShape | nussl/ml/unfold/gaussian_mixture.py:105-125 | every type string keeps the (B, K, F, F) shape |
| Covariance.SphericalEntries | nussl/ml/unfold/gaussian_mixture.py:110-116 | the spherical constraint on one matrix puts the mean of all its F·F entries on the diagonal and 0 elsewhere |
| Covariance.EnforceSpherical | nussl/ml/unfold/gaussian_mixture.py:110-116 | under "spherical", entry (i, j) of every matrix is its all-entry mean when i = j and 0 otherwise |
| Covariance.MatMeanLowerBound | nussl/ml/unfold/gaussian_mixture.py:111-115 | the all-entry mean of a matrix whose entries are at least a is at least a |
| Covariance.MatMeanAllEntries | nussl/ml/unfold/gaussian_mixture.py:111-115 | the mean over rows then over columns of a square F×F matrix equals the sum of all its entries divided by F·F |
| Covariance.EnforceDiag | nussl/ml/unfold/gaussian_mixture.py:118-119 | under "diag", each matrix keeps its diagonal and its off-diagonal entries become 0 |
| Covariance.DiagMaskEntries | nussl/ml/unfold/gaussian_mixture.py:118-119 | multiplying by the diagonal mask keeps each diagonal entry and zeroes every other entry |
| Covariance.ComponentMeanTotal | nussl/ml/unfold/gaussian_mixture.py:121-124 | K times entry (i, j) of the mean over the K components is the total of their (i, j) entries |
| Covariance.ComponentMeanLowerBound | nussl/ml/unfold/gaussian_mixture.py:121-124 | the mean over components keeps any common lower bound of their entries |
| Covariance.EnforceTied | nussl/ml/unfold/gaussian_mixture.py:121-124 | under "tied", every component of a batch element holds the same matrix, the mean over that element's components |
| Covariance.EnforceUnrecognised | nussl/ml/unfold/gaussian_mixture.py:105-125 | a type string containing none of the three keys leaves the covariance unchanged |
| Covariance.EnforceFull | nussl/ml/unfold/gaussian_mixture.py:105-125 | "full" leaves the covariance unchanged |
| Mixture.SphericalInTwoPasses | nussl/ml/unfold/gaussian_mixture.py:110-116 | filling every matrix with its mean and then masking, in two passes, is the spherical constraint |
| Mixture.MapInPlace | nussl/ml/unfold/gaussian_mixture.py:110-119 | an in-place pass over the (B, K) grid leaves exactly the matrix-wise image of the old grid |
| Mixture.TieInPlace | nussl/ml/unfold/gaussian_mixture.py:121-124 | the in-place slice write leaves each batch element's slots holding the mean of its old components |
| Mixture.GaussianMixture.EnforceCovarianceType | nussl/ml/unfold/gaussian_mixture.py:105-125 | updating the grid in place leaves exactly `Enforce(covarianceType, old grid)` |
| Expectation.ProbRow | nussl/ml/unfold/gaussian_mixture.py:101 | each probability is exp(log_prob) + 1e-8, so at least 1e-8 |
| Expectation.NormalizeFacts | nussl/ml/unfold/gaussian_mixture.py:102 | the normalising divisor is positive; on entries of at least 1e-8 the 1e-12 floor never applies, the divisor is the sum, and the result sums to 1 with positive entries |
| Expectation.NormalizeL1 | nussl/ml/unfold/gaussian_mixture.py:102 | L1 normalisation keeps the length; on entries of at least 1e-8 it divides each by the sum, giving positive entries that sum to 1 |
| Expectation.EStep | nussl/ml/unfold/gaussian_mixture.py:79-103 | resp and log_prob have shape (B, S, K); every responsibility is positive; with K ≥ 1 each sample's responsibilities sum to 1 |
| Expectation.EStepRespFromLogProb | nussl/ml/unfold/gaussian_mixture.py:97-102 | the returned log_prob is the component's log-density of the sample, and each responsibility is (exp(log_prob) + 1e-8) over the sample's positive total |
| Expectation.EStepSingleComponent | nussl/ml/unfold/gaussian_mixture.py:101-102 | with one component every responsibility is exactly 1 |
| Maximization.SoftCountsPositive | nussl/ml/unfold/gaussian_mixture.py:61 | with positive responsibilities and at least one sample, every `_bottom` soft count is positive, so the divisions are defined |
| Maximization.Means | nussl/ml/unfold/gaussian_mixture.py:60-62 | the means `_top / _bottom`: for each (b, k, f), Σ_s r·x over Σ_s r, shaped (B, K, F) |
| Maximization.MeanWithinDataRange | nussl/ml/unfold/gaussian_mixture.py:60-62 | each new mean is a convex combination: it lies within the range of its batch element's data in that feature |
| Maximization.Prior | nussl/ml/unfold/gaussian_mixture.py:73-74 | the prior has shape (B, K) and is positive |
| Maximization.PriorSumsToSamples | nussl/ml/unfold/gaussian_mixture.py:61-74 | when every sample's responsibilities sum to 1, a batch element's prior entries sum to its number of samples: the prior is not normalised |
| Maximization.MStep | nussl/ml/unfold/gaussian_mixture.py:45-76 | means (B, K, F), covariance (B, K, F, F) and a positive (B, K) prior |
| Maximization.ClampedCovariance | nussl/ml/unfold/gaussian_mixture.py:66-70 | the deviation product of the resp-scaled differences divided by `_bottom` and clamped below at reg_covar, shaped (B, K, F, F) |
| Maximization.ClampedFloor | nussl/ml/unfold/gaussian_mixture.py:70 | every clamped covariance entry is at least reg_covar |
| Maximization.DiffProductSquaredWeights | nussl/ml/unfold/gaussian_mixture.py:66-68 | the (i, j) deviation product is Σ_s r²·(x_i − μ_i)(x_j − μ_j): each sample enters with its responsibility squared |
| Maximization.DiffProductSymmetric | nussl/ml/unfold/gaussian_mixture.py:66-68 | the deviation product is the same for (i, j) and (j, i) |
| Maximization.CovarianceSquaredWeights | nussl/ml/unfold/gaussian_mixture.py:66-70 | entry (i, j) is max(reg_covar, Σ_s r²·(x_i − μ_i)(x_j − μ_j) / Σ_s r) |
| Maximization.ClampedSymmetric | nussl/ml/unfold/gaussian_mixture.py:66-70 | the clamped covariance is symmetric |
| Maximization.MStepDiag | nussl/ml/unfold/gaussian_mixture.py:66-71 | under "diag" the new covariance is 0 off the diagonal and the clamped value, at least reg_covar, on it |
| Maximization.MStepSpherical | nussl/ml/unfold/gaussian_mixture.py:66-71 | under "spherical" each new matrix is one variance, the all-entry mean of the clamped matrix and at least reg_covar, on the diagonal, and 0 elsewhere |
| Maximization.MStepTied | nussl/ml/unfold/gaussian_mixture.py:66-71 | under "tied" every component gets the same matrix, the mean of the clamped matrices, with entries at least reg_covar |
| Maximization.MStepFull | nussl/ml/unfold/gaussian_mixture.py:66-71 | under "full" the new covariance is the clamped one, every entry at least reg_covar |
| Maximization.MStepSingleComponent | nussl/ml/unfold/gaussian_mixture.py:59-74 | with one component of responsibility 1, the prior is the sample count and the mean is the plain average of the samples |
| Tensors.Chunk | nussl/ml/unfold/gaussian_mixture.py:183 | splitting count·n entries into count rows of n entries each, as the view to (B, S, F) does |
| Tensors.ConcatLength | nussl/ml/unfold/gaussian_mixture.py:145-147 | flattening count rows of n entries gives count·n entries, the row-major flatten behind `view(-1, F)` |
| Tensors.ConcatIndex | nussl/ml/unfold/gaussian_mixture.py:145-147 | row i, entry j of the rows sits at flat index i·n + j of the flattened view |
| Tensors.ConcatChunk | nussl/ml/unfold/gaussian_mixture.py:183 | flattening a split undoes it |
| Tensors.ChunkConcat | nussl/ml/unfold/gaussian_mixture.py:191-192 | splitting a flattening of equal-length rows undoes it |
| Mixture.ShapeProduct | nussl/ml/unfold/gaussian_mixture.py:183 | the entry count of shape (B, …, F) is B · (product of the middle) · F, and that of shape[:-1] is B · (product of the middle) |
| Mixture.View3 | nussl/ml/unfold/gaussian_mixture.py:182-183 | the view has shape (B, S, F) with S the product of the middle dimensions |
| Mixture.View3RoundTrip | nussl/ml/unfold/gaussian_mixture.py:183 | the view keeps every entry in its row-major order |
| Mixture.Unview | nussl/ml/unfold/gaussian_mixture.py:191-192 | the output has shape shape[:-1] + (K,) and as many entries as that shape holds |
| Mixture.UnviewRoundTrip | nussl/ml/unfold/gaussian_mixture.py:191-192 | viewing the output as (B, S, K) again gives back the (B, S, K) tensor |
| Mixture.InitialMeans | nussl/ml/unfold/gaussian_mixture.py:139-147 | the initial means have shape (B, K, F) |
| Mixture.InitialMeansAreSamples | nussl/ml/unfold/gaussian_mixture.py:139-147 | each default initial mean is one of the samples of its own batch element |
| Mixture.Filled | nussl/ml/unfold/gaussian_mixture.py:149-152 | the default (B, K, F) variances: every entry is covariance_init |
| Mixture.Expand | nussl/ml/unfold/gaussian_mixture.py:154-155 | the variances broadcast along a new last axis: entry (b, k, i, j) is variance (b, k, i) for every j < F |
| Mixture.RawInitialCovariance | nussl/ml/unfold/gaussian_mixture.py:149-155 | the supplied or filled covariance, expanded to (B, K, F, F) |
| Mixture.MaskedInitialCovariance | nussl/ml/unfold/gaussian_mixture.py:149-160 | after the mask the initial covariance is diagonal, carrying covariance_init, the supplied variances, or the diagonal of the supplied matrix |
| Mixture.InitialCovariance | nussl/ml/unfold/gaussian_mixture.py:149-162 | the initial covariance has shape (B, K, F, F) |
| Mixture.InitialCovarianceDiagonal | nussl/ml/unfold/gaussian_mixture.py:149-162 | under "diag" and "full" the initial covariance is exactly that diagonal matrix, so a supplied full matrix loses its off-diagonal entries |
| Mixture.InitialCovarianceSpherical | nussl/ml/unfold/gaussian_mixture.py:149-162 | under "spherical" the default initial variance on the diagonal is covariance_init / F |
| Mixture.GaussianMixture.SampleMeans | nussl/ml/unfold/gaussian_mixture.py:139-147 | shifting each drawn index by b·S in an integer buffer and gathering from the flattened rows gives `InitialMeans`: row draws[b][k] of batch element b |
| Mixture.GaussianMixture.InitParams | nussl/ml/unfold/gaussian_mixture.py:127-164 | the index-shifting gather gives `InitialMeans` (row draws[b][k] of batch element b) and the in-place constraint gives `InitialCovariance` |
| Mixture.Round | nussl/ml/unfold/gaussian_mixture.py:187-188 | one E-step then M-step keeps the shapes and the component count, and the responsibilities it passes on are valid M-step input |
| Mixture.Rounds | nussl/ml/unfold/gaussian_mixture.py:186-188 | any number of rounds keeps the shapes and the component count |
| Mixture.SingleComponentRound | nussl/ml/unfold/gaussian_mixture.py:187-188 | with one component a round sets each mean to the plain sample average and each prior to the sample count |
| Mixture.RoundPriorSumsToSamples | nussl/ml/unfold/gaussian_mixture.py:187-188 | after a round with K ≥ 1, each batch element's prior sums to its sample count |
| Mixture.RoundsDiag | nussl/ml/unfold/gaussian_mixture.py:186-188 | under "diag", after any positive number of rounds every covariance is diagonal with diagonal at least reg_covar |
| Mixture.GaussianMixture.RunRounds | nussl/ml/unfold/gaussian_mixture.py:186-188 | the loop yields `Rounds(n)` and the E-step result of `Rounds(n − 1)`, and the returned parameters are the M-step of the returned responsibilities |
| Mixture.GaussianMixture.Forward | nussl/ml/unfold/gaussian_mixture.py:166-196 | the parameters are those after nIter = 5 rounds from `init_params`; they are the M-step of the returned resp; resp and log_prob come from the E-step before it, reshaped to shape[:-1] + (K,) |

## Left out

- The multivariate normal log-density is a parameter of `Density`. This covers the Cholesky factorisation inside `torch.distributions.MultivariateNormal` and its failure on a matrix that is not positive definite. Only its results are modelled.
- `torch.exp` is also a parameter of `Density`, known only to be non-negative.
- Floating-point rounding, overflow and NaN are not modelled: arithmetic is on exact reals.
  - `Tensors.Mean` of an empty sequence is 0, not NaN. It is only used on non-empty sequences here.
- `Maximization.MStep` requires at least one sample and positive responsibilities. The code divides by the soft count with no guard, which would give infinities or NaN at zero. The E-step always supplies positive responsibilities, so every round satisfies this requirement.
- The random draws of `random_(0, S)` are a parameter (`draws`) of `InitParams` and `Forward`. The generator itself is not part of this model.
- nn.Module machinery is not part of this model: autograd, devices, dtypes, `super().__init__()` and registration.
- Memory layout is not part of this model: strides, contiguity, and whether `view`, `expand` or an in-place write on an expanded tensor is accepted. `view` is modelled as a row-major flatten and split.
- Tensor shapes that do not fit (`view` and broadcasting errors) are excluded by the preconditions `WellFormedData` and `InitInputs`, rather than modelled as errors.
- Mixture.GaussianMixture.SampleMeans: requires at least one component. With none, the code raises when it views the gathered rows as (B, 0, -1) (lines 145-147); that error is excluded by the precondition, not modelled.
- Mixture.GaussianMixture.InitParams: requires at least one component when no means are supplied, for the same reason as SampleMeans; the error is not modelled.
- The prior has shape (B, 1, K, 1) in the code. It is modelled as a (B, K) matrix with the same entries.
- The `means.squeeze(1)` and `unsqueeze(1)`/`squeeze(1)` reshapes in `_m_step` carry no data, so they appear only as the shapes of the results.
- Mixture.GaussianMixture.Forward: the data tensor must have at least one batch element, one sample and one feature, and without supplied means there must be at least one component. `forward` on a tensor without entries, and the error raised for zero components, are not modelled.
- `nussl/separation/benchmark/wiener_filter.py` and the rest of nussl are not part of this model.
