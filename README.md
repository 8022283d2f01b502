# nessai-models in Dafny

A verified model of the exact logic in nessai-models. This is a collection of
toy likelihoods and priors used to test the nessai nested sampler. The model
covers both packages:

- `nessai_models`: the current package.
- `nessaimodels`: the legacy package.

What is modelled:

- The n-dimensional base class: parameter names `x_0 … x_{n-1}`, checking of
  the bounds argument, the uniform log-prior, and the two unit-hypercube
  transforms.
- `compute_gaussian_ln_evidence` and the Gaussian constructor's decision table
  (defaults, normalisation, evidence).
- The half-Gaussian lower-bound check.
- The Pyramid and Rosenbrock likelihoods, with their bounds and their unique
  maxima.
- `MixtureOfDistributions`:
  - generating the names;
  - validating the keyword arguments;
  - filling default bounds into the caller's dictionary in place;
  - its sum-of-densities likelihood.
- The keyword arguments `SlabSpike` hands to its parent.
- The signal-plus-noise models, with their residual-sum likelihood and its
  maximum.
- The legacy Gaussian, Rosenbrock and Gaussian-mixture models, with their
  loop-based inclusive log-priors.

Conventions:

- Numbers are Dafny `real`.
- Every transcendental function and library density is a field of a `Lib`
  record of function values (`ln`, `sin`, `pi`, `logAddExp`, the scipy
  logpdfs). The proofs therefore hold for any implementation of them.
- `np.log(0) = -inf` is the `ExtReal` value `NegInf`.
- A batch of samples is a sequence of rows. Each row maps a parameter name to
  a real.
- A Python `dict` whose insertion order matters is a sequence of
  `(key, value)` pairs, with `Keys`, `Lookup` and `Assign`.
- Exceptions are the `Failure` branch of a `Result`. The error is a
  `ValueError`, `TypeError` or `KeyError`.
- Random draws (truth, noise, data) are function parameters: the i-th deviate
  is `unit(i)`, `noise(i)` or `draw(i)`.
- The `in_bounds` predicate of the nessai framework is a parameter of
  `UniformLogPrior`.

Where the descriptive documentation and the code disagree, the model follows
the code:

- The signal likelihood subtracts `log(2 pi sigma^2)` per point. A Gaussian
  log-density would subtract half of that. The model follows
  nessai_models/signals.py:71; tests/test_signals.py:22-33 agrees with it.
- The legacy `GaussianMixture.log_likelihood` sums each component over the
  whole dataset. It then combines the two totals with a single `logaddexp`,
  not once per datum (nessaimodels/gaussianmixture.py:70-76).
- Errors are the Python exception classes the code raises.

Module layout:

| file | module | source |
|---|---|---|
| `wrappers.dfy` | `Wrappers` | `Option`, `Result`, `Error`, ordered dicts |
| `numerics.dfy` | `Numerics` | `ExtReal`, `Lib`, sums, Gaussian residual sums |
| `naming.dfy` | `Naming` | `f"{prefix}_{i}"` names and their injectivity |
| `base.dfy` | `Base` | nessai_models/base.py |
| `gaussian.dfy` | `GaussianModel` | nessai_models/gaussian.py, nessaimodels/gaussian.py |
| `halfgaussian.dfy` | `HalfGaussianModel` | nessai_models/halfgaussian.py |
| `pyramid.dfy` | `PyramidModel` | nessai_models/pyramid.py |
| `rosenbrock.dfy` | `RosenbrockModel` | nessai_models/rosenbrock.py |
| `mixture_setup.dfy` | `MixtureSetup` | nessai_models/mixture.py, the constructor as a function |
| `mixture.dfy` | `MixtureModel` | nessai_models/mixture.py, the class and its loops |
| `slabspike.dfy` | `SlabSpikeModel` | nessai_models/slabspike.py |
| `signals.dfy` | `Signals` | nessai_models/signals.py |
| `legacy.dfy` | `Legacy` | nessaimodels/rosenbrock.py, nessaimodels/gaussianmixture.py |

## Model

| member | source | states |
|---|---|---|
| Base.NDimensionalInit | nessai_models/base.py:37-45 | success exactly for a length-2 sequence; a non-sequence raises TypeError and any other length ValueError; on success the names are `x_0 … x_{dims-1}` and every name has the same `[lo, hi]` pair |
| Base.NDimensionalInitNames | nessai_models/base.py:37-41 | the generated names are pairwise distinct, there are `max(dims, 0)` of them, and every one has bounds |
| Base.UniformLogPrior | nessai_models/base.py:66-69 | one value per sample; an in-bounds sample gets `-Σ log(hi - lo)` and an out-of-bounds one gets `-inf` |
| Base.SharedWidths | nessai_models/base.py:41 | with one shared interval, the sum of log widths is `n · log(hi - lo)` |
| Base.ToUnit | nessai_models/base.py:86-89 | the forward map `(x - lo)/(hi - lo)` sends a value within a proper range `[lo, hi]` into `[0, 1]` |
| Base.FromUnit | nessai_models/base.py:107-110 | the inverse map `(hi - lo)·u + lo` sends a value in `[0, 1]` into `[lo, hi]` |
| Base.ToUnitEnds | nessai_models/base.py:86-89 | the forward map sends `lo` to 0 and `hi` to 1 |
| Base.UnitRoundTrip | nessai_models/base.py:84-111 | on one value, the two maps are inverse to each other in both orders whenever `hi ≠ lo` |
| Base.ToUnitHypercube | nessai_models/base.py:84-90 | the loop over names returns a copy of the batch in which each named column is rescaled and every other column is unchanged |
| Base.FromUnitHypercube | nessai_models/base.py:105-111 | the loop over names returns a copy of the batch in which each named column is mapped back and every other column is unchanged |
| Base.HypercubeRoundTrip | nessai_models/base.py:84-111 | `from_unit(to_unit(row)) == row` and `to_unit(from_unit(row)) == row` whenever no range is degenerate |
| Base.ToUnitRowEnds | nessai_models/base.py:84-90 | on a whole row, a column at its lower bound maps to 0 and one at its upper bound maps to 1 |
| Base.AccumulateMarginals | nessai_models/halfgaussian.py:38-41 | the `log_l += logpdf(x[n])` loop gives, per sample, the sum of the per-name log-densities, in names order |
| Base.MarginalSumConstant | nessaimodels/gaussian.py:67-70 | when every named column holds the same value `v`, the accumulated sum is `n · logpdf(v)` |
| GaussianModel.Max | nessai_models/gaussian.py:35 | the maximum of a non-empty vector is attained and bounds every element |
| GaussianModel.Min | nessai_models/gaussian.py:35 | the minimum of a non-empty vector is attained and bounds every element |
| GaussianModel.Ptp | nessai_models/gaussian.py:35 | `np.ptp` is non-negative, bounds every pairwise difference, and on a non-empty input equals the difference of two of its entries |
| GaussianModel.PtpPair | nessai_models/gaussian.py:35 | the peak-to-peak of `[a, b]` is `|b - a|` and does not depend on the order |
| GaussianModel.ComputeGaussianLnEvidence | nessai_models/gaussian.py:14-43 | 1-d bounds succeed iff `dims` is given (and the array is non-empty), with value `-dims · log(ptp)`; 2-d bounds raise when a truthy `dims` differs from the row count, and otherwise give `-Σ_rows log(ptp(row))`; every failure is a ValueError |
| GaussianModel.OneDEvidence | nessai_models/gaussian.py:30-35 | the 1-d branch: ValueError without `dims`, otherwise `-dims · log(ptp)` |
| GaussianModel.TwoDEvidence | nessai_models/gaussian.py:36-42 | the 2-d branch: the `dims` check (None and 0 skip it), otherwise `-Σ_rows log(ptp(row))` |
| GaussianModel.EvidenceOfPair | nessai_models/gaussian.py:35 | for a pair `[a, b]` the evidence is `-dims · log|b - a|`, the same for `[b, a]` |
| GaussianModel.EvidenceRowSwap | nessai_models/gaussian.py:42 | swapping the two ends of any row of 2-d bounds does not change the evidence or its failure |
| GaussianModel.EvidenceOneDMatchesTwoD | nessai_models/gaussian.py:30-42 | `n` copies of the row `[a, b]` give the same evidence as the 1-d pair `[a, b]` with `dims = n` |
| GaussianModel.EvidenceIsLogPriorDensity | nessai_models/gaussian.py:35 | the evidence of shared bounds is exactly the log-prior of an in-bounds sample, `-Σ log widths` (tests/test_gaussian.py asserts the `[-10, 10]` case) |
| GaussianModel.Identity | nessai_models/gaussian.py:87 | `np.eye(n)`: an `n × n` matrix with 1 on the diagonal and 0 elsewhere |
| GaussianModel.MeanOf | nessai_models/gaussian.py:79-84 | an omitted mean is the zero vector, a scalar `m` is `m` in every dimension, and a vector is kept |
| GaussianModel.CovOf | nessai_models/gaussian.py:86-89 | an omitted covariance is the identity, and a matrix is kept |
| GaussianModel.Gaussian.constructor | nessai_models/gaussian.py:76-104 | with mean and cov both omitted, `ln_evidence` is the evidence of the bounds and `normalise` is kept; otherwise `ln_evidence` is None, `normalise` is forced off, the normalising constant stays 0, and a warning is recorded exactly when normalisation was requested |
| GaussianModel.Gaussian.LogLikelihood | nessai_models/gaussian.py:106-109 | per sample, the multivariate-normal logpdf of the sample's view minus `ln_evidence` when normalising, otherwise minus 0 |
| GaussianModel.NewGaussian | nessai_models/gaussian.py:68-76 | construction fails exactly when the base bounds check fails, with the same error; otherwise a fresh, valid model holds the checked names and bounds, the given or default mean and covariance, the unit-Gaussian log-evidence only when both mean and covariance are defaulted, `normalise` only in that case, and a warning flag when normalisation was asked for otherwise |
| GaussianModel.DefaultGaussianEvidence | nessai_models/gaussian.py:70-71 | the defaults (2 dimensions, `[-10, 10]`) pass the bounds check, and the evidence is `-2 · log 20` |
| GaussianModel.LegacyGaussian.constructor | nessaimodels/gaussian.py:57-63 | the legacy constructor always sets `ln_evidence` from the bounds and the dimension count |
| GaussianModel.LegacyGaussian.LogLikelihood | nessaimodels/gaussian.py:65-70 | the accumulation loop gives, per sample, the sum of the standard-normal log-density of each named column |
| HalfGaussianModel.HalfGaussianSetup | nessai_models/halfgaussian.py:31-33 | succeeds iff the base check passes and the lower bound is 0 (or there are no dimensions); otherwise it raises the base error, or ValueError |
| HalfGaussianModel.DefaultHalfGaussian | nessai_models/halfgaussian.py:26-31 | the defaults (2 dimensions, `[0, 10]`) pass the lower-bound check |
| HalfGaussianModel.HalfGaussian.constructor | nessai_models/halfgaussian.py:31-34 | a valid construction sets `ln_evidence` to the evidence of the bounds |
| HalfGaussianModel.HalfGaussian.LogLikelihood | nessai_models/halfgaussian.py:36-41 | starting from 0, the loop adds one halfnorm log-density per name, in names order |
| HalfGaussianModel.NewHalfGaussian | nessai_models/halfgaussian.py:26-34 | construction fails exactly when the setup raises, with the same error; otherwise a fresh, valid model holds the setup's names and bounds and the log-evidence computed for its first range and dimension |
| PyramidModel.AbsSum | nessai_models/pyramid.py:43 | `Σ|x_i|` is non-negative, and it is zero exactly at the origin |
| PyramidModel.Pyramid | nessai_models/pyramid.py:43 | the log-likelihood `-Σ|x_i|` of one point is at most 0 |
| PyramidModel.PyramidMaximum | nessai_models/pyramid.py:43 | `-Σ|x_i| ≤ 0`, with equality iff every coordinate is 0 |
| PyramidModel.PyramidAtOrigin | tests/test_pyramid.py:11-17 | the value at the origin is exactly 0, in any dimension |
| PyramidModel.PyramidReflection | nessai_models/pyramid.py:43 | negating any coordinate leaves the value unchanged |
| PyramidModel.PyramidLogLikelihood | nessai_models/pyramid.py:43 | one value per sample; each is ≤ 0, and equals 0 iff every named column is 0 |
| RosenbrockModel.RosenTerm | nessai_models/rosenbrock.py:38-39 | each coupled term `100(b - a²)² + (1 - a)²` is non-negative |
| RosenbrockModel.RosenTermMinimum | nessai_models/rosenbrock.py:38-39 | a coupled term is zero only at `a = b = 1` |
| RosenbrockModel.Rosen | nessai_models/rosenbrock.py:37-41 | the coupled sum over consecutive coordinates is non-negative, so the log-likelihood is at most 0 |
| RosenbrockModel.RosenAtOnes | nessai_models/rosenbrock.py:37-41 | the coupled sum is 0 at all-ones |
| RosenbrockModel.RosenZeroOnlyAtOnes | nessai_models/rosenbrock.py:37-41 | for 2 or more dimensions, a zero sum forces every coordinate to be 1 |
| RosenbrockModel.RosenOneDimension | nessai_models/rosenbrock.py:37-41 | with fewer than 2 coordinates the sum is empty, so it is 0 |
| RosenbrockModel.RosenbrockLogLikelihood | nessai_models/rosenbrock.py:33-41 | one value per sample, each ≤ 0 |
| RosenbrockModel.RosenbrockMaximum | nessai_models/rosenbrock.py:37-41 | for 2 or more dimensions a sample's value is 0 iff every named column is 1 |
| RosenbrockModel.DefaultRosenbrock | nessai_models/rosenbrock.py:26-31 | the defaults give the names `x_0, x_1`, each with bounds `[-5, 5]` |
| MixtureSetup.DefaultRange | nessai_models/mixture.py:40-45 | the bounds table has an entry exactly for the four known families, and every entry is a proper range |
| MixtureSetup.FamilyOf | nessai_models/mixture.py:58-73 | the base mapping has a density exactly for the four known family names |
| MixtureSetup.Lower | nessai_models/mixture.py:82 | `str.lower` keeps the length and lowers each ASCII letter |
| MixtureSetup.LowerIdempotent | nessai_models/mixture.py:82 | lowering twice is the same as lowering once |
| MixtureSetup.KnownLower | nessai_models/mixture.py:82 | a known family name is already lower case |
| MixtureSetup.Freeze | nessai_models/mixture.py:59-72 | freezing a scipy distribution can raise only TypeError |
| MixtureSetup.FreezeArguments | nessai_models/mixture.py:59-72 | a freeze succeeds iff every keyword is a parameter of the family, no keyword repeats a positional argument, and gamma gets its shape `a`; the frozen object holds the family and exactly the positional and keyword values |
| MixtureSetup.BuildBaseMapping | nessai_models/mixture.py:58-73 | building the four frozen densities can raise only TypeError |
| MixtureSetup.BaseMappingFamilies | nessai_models/mixture.py:58-73 | each family's density has its own family; uniform sits at `loc = -5`, `scale = ptp([-5, 5]) = 10`; gamma always has a shape; every caller keyword reaches its family |
| MixtureSetup.BaseMappingDefault | nessai_models/mixture.py:56-73 | with no keyword arguments the base mapping is the default one (gamma with `a = 1.99`) |
| MixtureSetup.FamilyName | nessai_models/mixture.py:58-73 | each family has a key that maps back to it |
| MixtureSetup.Block | nessai_models/mixture.py:80-81 | a family with count `n` contributes the iterations `(family, 0) … (family, n-1)`, and none for `n ≤ 0` |
| MixtureSetup.TaskNames | nessai_models/mixture.py:81 | the name of each iteration is `dist + "_" + str(i)` |
| MixtureSetup.Step | nessai_models/mixture.py:81-84 | one loop iteration can raise only KeyError |
| MixtureSetup.Fill | nessai_models/mixture.py:79-84 | the nested loops can raise only KeyError |
| MixtureSetup.MixtureInit | nessai_models/mixture.py:40-87 | a keyword argument for an unknown family raises ValueError before anything is written; ValueError arises for no other reason; a TypeError from scipy also leaves the tables untouched |
| MixtureSetup.TasksAppend | nessai_models/mixture.py:79-80 | the outer loop over one more family appends that family's block |
| MixtureSetup.FillAppend | nessai_models/mixture.py:79-84 | one more iteration runs only if no exception was raised before it |
| MixtureSetup.FillStops | nessai_models/mixture.py:79-84 | after the first exception nothing more is written |
| MixtureSetup.FillStopsAt | nessai_models/mixture.py:79-84 | the same, for a given prefix of the iterations |
| MixtureSetup.TasksPrefix | nessai_models/mixture.py:79-80 | the iterations of the first `k` families are a prefix of all iterations |
| MixtureSetup.TasksMembers | nessai_models/mixture.py:79-80 | every iteration `(d, i)` comes from a family `d` with `i < n_d` |
| MixtureSetup.TaskNamesDistinct | nessai_models/mixture.py:79-81 | distinct family keys give pairwise distinct names |
| MixtureSetup.TaskNamesAreBlocks | nessai_models/mixture.py:79-81 | the names, in loop order, are the contiguous blocks `family_0 … family_{n-1}` in the dict's order |
| MixtureSetup.FillMapping | nessai_models/mixture.py:79-86 | after a run without exception, the mapping's keys are exactly the generated names, and each name maps to the density of its lower-cased family |
| MixtureSetup.FillBounds | nessai_models/mixture.py:83-84 | after a run without exception, each generated name keeps its supplied bound or gets its family default; every other key is unchanged |
| MixtureSetup.SuppliedBoundsKept | nessai_models/mixture.py:83-84 | a caller-supplied bound is never overwritten |
| MixtureSetup.FillSucceeds | nessai_models/mixture.py:79-84 | if every family is known to both tables, no exception is raised |
| MixtureSetup.UnknownFamilyFails | nessai_models/mixture.py:82 | any iteration for a family without a density raises |
| MixtureSetup.MixtureInitTables | nessai_models/mixture.py:75-87 | a successful construction has these properties: the names are the contiguous family blocks and are distinct; supplied bounds are kept; no other key is added; every name has a bound, and it is the expected one |
| MixtureSetup.DefaultTasks | nessai_models/mixture.py:47-48 | the default families give two iterations each, gaussian, uniform, gamma in order |
| MixtureSetup.DefaultTaskNames | nessai_models/mixture.py:47-81 | the default names are `gaussian_0, gaussian_1, uniform_0, uniform_1, gamma_0, gamma_1` |
| MixtureSetup.DefaultFill | nessai_models/mixture.py:40-84 | the default loops succeed with those six names, `gamma_1` bounded by `[0, 10]` and `uniform_0` mapped to the uniform on `[-5, 5]` |
| MixtureSetup.DefaultMixture | nessai_models/mixture.py:40-87 | the default construction succeeds with those names and tables |
| MixtureModel.BoundsDict.constructor | nessai_models/mixture.py:76-77 | a new dictionary holds the given entries |
| MixtureModel.MixtureOfDistributions.constructor | nessai_models/mixture.py:86-92 | the names are the keys of the mapping, and the bounds object is the one given |
| MixtureModel.MixtureOfDistributions.LogLikelihood | nessai_models/mixture.py:94-121 | raises ValueError when there are no names (nothing to stack); otherwise one value per sample, the sum over names of the name's density at its column |
| MixtureModel.NewMixture | nessai_models/mixture.py:40-92 | the constructor's loops produce exactly `MixtureInit`'s outcome, including the entries written into the caller's dictionary before an exception; on success the model keeps that very dictionary (or a fresh one when none was given), and `map_fn` defaults to the builtin map |
| MixtureModel.FillAll | nessai_models/mixture.py:79-84 | the outer loop ends in the state `Fill` describes, stopping at the first exception |
| MixtureModel.FillBlock | nessai_models/mixture.py:80-84 | the inner loop over `range(n)` ends in the state `Fill` describes, stopping at the first exception |
| MixtureModel.BlockStops | nessai_models/mixture.py:80-84 | an exception part-way through a block ends the whole block |
| MixtureModel.BuiltLogLikelihood | nessai_models/mixture.py:79-121 | for a constructed model, the log-likelihood succeeds iff some iteration ran; its value is the sum, over the loop's iterations in order, of each family's density at its name's column |
| MixtureModel.DefaultMixtureModel | nessai_models/mixture.py:47-92 | a default model has the six default names, the caller's empty dictionary holds their ranges, and `map_fn` is the builtin map |
| SlabSpikeModel.Zeros | nessai_models/slabspike.py:8 | `np.zeros(n)` |
| SlabSpikeModel.ScaledIdentity | nessai_models/slabspike.py:10 | `diag(ones(n) · scale)`: `scale` on the diagonal and 0 elsewhere |
| SlabSpikeModel.SlabSpikeArguments | nessai_models/slabspike.py:6-15 | a caller's `config` is passed through untouched; without one, a negative `dims` raises ValueError, and otherwise `config` is appended with the default while every other keyword and `dims` are forwarded unchanged |
| SlabSpikeModel.DefaultConfigShape | nessai_models/slabspike.py:8-14 | the default config has exactly two components sharing one zero mean of length `dims`; the slab's covariance is the identity and the spike's is `spike_scale` on the diagonal |
| SlabSpikeModel.DefaultSlabSpike | nessai_models/slabspike.py:6 | the defaults `dims = 3` and `spike_scale = 1e-3` succeed and insert the default config |
| Signals.SignalNames | nessai_models/signals.py:92-129 | the line has the two names `m, c` and the sinusoid the four names `amp, phase, f, offset`, none repeated |
| Signals.DefaultBounds | nessai_models/signals.py:92-136 | the default bounds have one entry per parameter of the signal, no key twice; the line's keys are in names order; every range starts at -1 or 0 |
| Signals.Signal | nessai_models/signals.py:109-150 | the line is its intercept `c` at `x = 0` or when the slope is 0; the sinusoid is its offset when the amplitude is 0 |
| Signals.Fits | nessai_models/signals.py:109-150 | the signal on the grid: `m·x + c`, or `amp·sin(2π f x + phase) + offset`, at each grid point |
| Signals.Linspace | nessai_models/signals.py:53 | `np.linspace(start, end, n)`: ValueError for negative `n`; otherwise `n` points, evenly spaced, starting at `start` and (for `n ≥ 2`) ending at `end` |
| Signals.DrawTruth | nessai_models/signals.py:44-45 | a truth drawn from the bounds has one value per bound, in the dict's order, scaled to its range |
| Signals.DrawnTruthInBounds | nessai_models/signals.py:45 | with deviates in `[0, 1)`, each drawn truth lies in its range |
| Signals.ResolveTruth | nessai_models/signals.py:44-50 | a given truth whose key list is not exactly the names, order included, raises ValueError; otherwise the model keeps it unchanged, or a drawn one |
| Signals.BindsHasParameters | nessai_models/signals.py:54-55 | a truth that binds `signal_model`'s keywords supplies every parameter |
| Signals.SignalInit | nessai_models/signals.py:32-146 | construction succeeds exactly when the truth check passes, `n_points ≥ 0`, and the truth binds the signal; the state holds the names, the bounds (the class defaults when omitted), the truth, sigma, the grid, and `data = signal(truth) + sigma · noise` |
| Signals.Noisy | nessai_models/signals.py:54-56 | the data are the signal plus `sigma` times the noise, point by point |
| Signals.NoiselessData | nessai_models/signals.py:54-56 | zero noise gives data equal to the signal |
| Signals.SignalLogLikelihood | nessai_models/signals.py:66-74 | the log-likelihood at parameters `p`, summed over the grid, never exceeds `-n_points · log(2π σ²)` |
| Signals.SignalLogLikelihoodMaximum | nessai_models/signals.py:69-73 | the log-likelihood equals `-n_points · log(2π σ²)` iff the data are the signal at the given parameters |
| Signals.SignalModel.constructor | nessai_models/signals.py:42-56 | the fields hold the constructed state |
| Signals.SignalModel.LogLikelihood | nessai_models/signals.py:66-74 | one value per sample, the residual sum at that sample's parameters |
| Signals.LogLikelihoodAtMost | nessai_models/signals.py:69-73 | every sample's log-likelihood is at most `-n_points · log(2π σ²)` |
| Signals.Params | nessai_models/signals.py:68 | `{n: x[n] for n in names}` holds every parameter, each from its column |
| Signals.NewSignalModel | nessai_models/signals.py:32-56 | construction fails exactly when `SignalInit` does, with its error; otherwise a fresh, valid model holds the signal kind and `sigma`, and exactly the names, bounds, truth, grid and data `SignalInit` computed |
| Signals.NoiselessMaximum | tests/test_signals.py:22-33 | without noise, the data sit at the maximum `-n · log(2π σ²)` at the parameters that generated them |
| Signals.ZeroNoiseMaximum | tests/test_signals.py:22-33 | with zero noise, the constructed model's log-likelihood at its truth is `-n_points · log(2π σ²)` |
| Legacy.InclusivePrior | nessaimodels/rosenbrock.py:20-27 | the prior accumulated over the visited names is `-inf` exactly when some visited column is outside its bounds (both ends inclusive) |
| Legacy.InclusivePriorValue | nessaimodels/rosenbrock.py:22-27 | the accumulated prior is `-Σ log widths` when every named column is within its bounds (both ends inclusive), otherwise `-inf` |
| Legacy.InclusivePriorIsUniform | nessaimodels/rosenbrock.py:20-27 | the loop-based prior agrees with the uniform log-prior under an inclusive `in_bounds` |
| Legacy.InclusiveLogPrior | nessaimodels/rosenbrock.py:20-27 | the accumulation loop yields one value per sample, that sample's inclusive prior |
| Legacy.LegacyRosenbrock.constructor | nessaimodels/rosenbrock.py:16-18 | the names are `x_0 … x_{n-1}`, and every name, and no other key, has the same bounds pair |
| Legacy.LegacyRosenbrock.LogPrior | nessaimodels/rosenbrock.py:20-27 | one inclusive prior value per sample |
| Legacy.LegacyRosenbrock.LogLikelihood | nessaimodels/rosenbrock.py:29-37 | one value per sample, each ≤ 0 |
| Legacy.FirstPeakCount | nessaimodels/gaussianmixture.py:46-47 | `n1 = int(0.2 · n)` is the floor of `0.2 · n`, and at most `n` |
| Legacy.LegacyGaussianMixture.constructor | nessaimodels/gaussianmixture.py:26-52 | the fixed names, bounds and truth; `n` data points, the first `n1` from the first peak's draws and the remaining `n - n1` from the second's |
| Legacy.LegacyGaussianMixture.LogPrior | nessaimodels/gaussianmixture.py:54-64 | one inclusive prior value per sample |
| Legacy.Branch | nessaimodels/gaussianmixture.py:71-74 | one peak's log-likelihood summed over the whole dataset is at most `n · (log w - log σ)` |
| Legacy.BranchBound | nessaimodels/gaussianmixture.py:70-74 | a peak's total equals `n · (log w - log σ)` iff every datum is at the peak's mean |
| Legacy.LegacyGaussianMixture.LogLikelihood | nessaimodels/gaussianmixture.py:66-76 | one `logaddexp` of the two whole-dataset peak totals, weights `w` and `1 - w`, each bounded as Legacy.Branch states |
| Legacy.MixtureTable | nessaimodels/gaussianmixture.py:27-42 | every name has a proper range, and the truth lies within it |

## Left out

- Floating point: arithmetic is exact over the reals. There is no rounding, overflow, NaN or `np.errstate`.
- `ln`, `sin`, `pi`, `logaddexp` and the scipy logpdfs are uninterpreted fields of `Lib`. Nothing is assumed about them, so, for example, `log` of a non-positive width is just some real.
- scipy's own validation beyond argument binding is not modelled (for example, a negative scale giving NaN).
- Randomness: truth sampling, noise and data draws are function parameters.
- The nessai framework (`Model`, `in_bounds`, `lower_bounds`, `upper_bounds`, `unstructured_view`, `live_points_to_array`, `new_point`) is not part of this model. The model supplies these:
  - `in_bounds` is a parameter;
  - lower and upper bounds come from the bounds table;
  - `self.dims` is the number of names.
- `map_fn` is a sequential, in-order map. The concurrency of a caller's thread pool is not modelled.
- `warnings.warn` is a boolean field, `warned`.
- MixtureSetup.Freeze: when several argument problems apply at once, the model does not distinguish which TypeError message scipy would print.
- MixtureSetup.Lower: lowers ASCII letters only.
- MixtureSetup.Step: a distribution name with upper-case letters is looked up lower-cased in the base mapping but unchanged in the bounds table, so without a supplied bound it raises KeyError. The model follows the code here and does not correct it.
- The `SlabSpike` parent class, nessai_models/gaussianmixture.py, is not part of this model. Only the arguments `SlabSpike` forwards to it are modelled.
- nessaimodels/base.py is not part of this model. The legacy Gaussian reuses the current base's bounds check.
- Legacy.LegacyGaussianMixture.LogLikelihood is modelled for one point. It requires both sigmas to be non-zero, where numpy would return inf. Since `logaddexp` is uninterpreted, its contract names the two peak totals, whose bounds are carried by Legacy.Branch and Legacy.BranchBound.
- Base.NDimensionalInit: strings and nested or 2-d bounds are not modelled. A string is a Sequence in Python: one whose length is not 2 raises ValueError there, and one of length 2 reaches `np.asarray`. A two-row list or 2-d array passes the length check and is stored as a 2-d array. `BoundsArg` has a flat list of numbers or a value that is neither a Sequence nor an ndarray.
- Base.ToUnitHypercube: requires every range to be non-degenerate (`hi ≠ lo`). With `hi == lo` numpy divides by zero and yields inf or NaN with a warning.
- Signals.SignalLogLikelihood, Signals.SignalModel.LogLikelihood and Signals.LogLikelihoodAtMost require `sigma ≠ 0`; numpy would return inf or NaN.
- Legacy.LegacyRosenbrock.LogLikelihood states only the bound `≤ 0`. The exact value and the maximum are proved once, on RosenbrockModel, whose coupled sum it uses.
- Brewer, Eggbox, the uncoupled Rosenbrock, the examples, the sampler integration tests and the package re-exports are not modelled: they are numerics only, or absent from the sources.
