/**
 * Signal-plus-Gaussian-noise models (nessai_models/signals.py): a linear and
 * a sinusoidal signal sampled on an even grid, with data equal to the signal
 * at the true parameters plus scaled noise.
 */
module Signals {
  import opened Wrappers
  import opened Numerics
  import opened Base

  /** Exception messages. */
  const NegativeSamples: string := "Number of samples must be non-negative."
  const TruthMismatch: string := "Keys in truth dictionary do not match names"
  const BadSignalArguments: string := "signal_model() got an unexpected or missing keyword argument"

  /** Parameter names. */
  const SlopeKey: string := "m"
  const InterceptKey: string := "c"
  const AmpKey: string := "amp"
  const PhaseKey: string := "phase"
  const FrequencyKey: string := "f"
  const OffsetKey: string := "offset"

  datatype SignalKind = Linear | Sinusoidal

  /** The parameter names of each signal, in order: two for the line, four for the sinusoid, none repeated. */
  function SignalNames(kind: SignalKind): (r: seq<string>)
    ensures |r| == (if kind.Linear? then 2 else 4)
    ensures forall i, j :: 0 <= i < j < |r| ==> r[i] != r[j]
  {
    match kind
    case Linear => [SlopeKey, InterceptKey]
    case Sinusoidal => [AmpKey, PhaseKey, FrequencyKey, OffsetKey]
  }

  /**
   * The prior bounds used when none are given, in the dict's order: one entry
   * per parameter of the signal, the line's in names order, the sinusoid's
   * with frequency before phase. Every range starts at -1 or 0.
   */
  function DefaultBounds(lib: Lib, kind: SignalKind): (r: seq<(string, Interval)>)
    ensures |r| == |SignalNames(kind)|
    ensures forall i :: 0 <= i < |r| ==> r[i].0 in SignalNames(kind)
    ensures forall i, j :: 0 <= i < j < |r| ==> r[i].0 != r[j].0
    ensures kind.Linear? ==> Keys(r) == SignalNames(kind)
    ensures forall i :: 0 <= i < |r| ==> r[i].1.lo in {-1.0, 0.0}
  {
    match kind
    case Linear => [(SlopeKey, Interval(-1.0, 1.0)), (InterceptKey, Interval(-1.0, 1.0))]
    case Sinusoidal =>
      [(AmpKey, Interval(0.0, 1.0)), (FrequencyKey, Interval(0.0, 5.0)),
       (PhaseKey, Interval(0.0, 2.0 * lib.pi)), (OffsetKey, Interval(0.0, 5.0))]
  }

  predicate HasParameters(kind: SignalKind, p: map<string, real>)
  {
    forall n :: n in SignalNames(kind) ==> n in p
  }

  /** signal_model at one grid point: `m t + c`, or `amp sin(2 pi f t + phase) + offset`. */
  function Signal(lib: Lib, kind: SignalKind, p: map<string, real>, t: real): (y: real)
    requires HasParameters(kind, p)
    ensures kind.Linear? && t == 0.0 ==> y == p[InterceptKey]
    ensures kind.Linear? && p[SlopeKey] == 0.0 ==> y == p[InterceptKey]
    ensures kind.Sinusoidal? && p[AmpKey] == 0.0 ==> y == p[OffsetKey]
  {
    match kind
    case Linear => p[SlopeKey] * t + p[InterceptKey]
    case Sinusoidal => p[AmpKey] * lib.sin(2.0 * lib.pi * p[FrequencyKey] * t + p[PhaseKey]) + p[OffsetKey]
  }

  /** The signal on the whole grid. */
  function Fits(lib: Lib, kind: SignalKind, p: map<string, real>, xs: seq<real>): (f: seq<real>)
    requires HasParameters(kind, p)
    ensures |f| == |xs|
    ensures forall k :: 0 <= k < |xs| ==> f[k] == Signal(lib, kind, p, xs[k])
  {
    seq(|xs|, k requires 0 <= k < |xs| => Signal(lib, kind, p, xs[k]))
  }

  /** np.linspace(start, end, n): n evenly spaced points from start to end, both included. */
  function Linspace(start: real, end: real, n: int): (r: Result<seq<real>, Error>)
    ensures r.Failure? <==> n < 0
    ensures r.Failure? ==> r.error.ValueError?
    ensures r.Success? ==> |r.value| == n
    ensures r.Success? && n >= 1 ==> r.value[0] == start
    ensures r.Success? && n >= 2 ==> r.value[n - 1] == end
    ensures r.Success? && n >= 2 ==>
      forall k :: 0 <= k < n - 1 ==> r.value[k + 1] - r.value[k] == (end - start) / (n - 1) as real
  {
    if n < 0 then Failure(ValueError(NegativeSamples))
    else if n == 1 then Success([start])
    else
      var step := if n == 0 then 0.0 else (end - start) / (n - 1) as real;
      var xs := seq(n, k => start + k as real * step);
      assert n >= 2 ==> xs[n - 1] == end by {
        if n >= 2 {
          assert (n - 1) as real * ((end - start) / (n - 1) as real) == end - start;
        }
      }
      Success(xs)
  }

  /** The `truth` argument: omitted (then drawn from the prior), or an ordered dict. */
  datatype TruthArg = NoTruth | GivenTruth(t: seq<(string, real)>)

  /**
   * `{k: np.random.uniform(*v) for k, v in bounds.items()}`: `unit(k)` is the
   * k-th uniform deviate on [0, 1), scaled to the k-th range.
   */
  function DrawTruth(bounds: seq<(string, Interval)>, unit: nat -> real): (t: seq<(string, real)>)
    ensures |t| == |bounds|
    ensures forall k :: 0 <= k < |bounds| ==> t[k].0 == bounds[k].0
    ensures forall k :: 0 <= k < |bounds| ==>
      t[k].1 == bounds[k].1.lo + (bounds[k].1.hi - bounds[k].1.lo) * unit(k)
  {
    seq(|bounds|, k requires 0 <= k < |bounds| =>
      (bounds[k].0, bounds[k].1.lo + (bounds[k].1.hi - bounds[k].1.lo) * unit(k)))
  }

  /** With deviates in [0, 1), every drawn value lies in its range. */
  lemma DrawnTruthInBounds(bounds: seq<(string, Interval)>, unit: nat -> real, k: nat)
    requires k < |bounds| && bounds[k].1.lo <= bounds[k].1.hi
    requires 0.0 <= unit(k) < 1.0
    ensures bounds[k].1.lo <= DrawTruth(bounds, unit)[k].1 <= bounds[k].1.hi
  {
    ScaledDeviate(bounds[k].1.lo, bounds[k].1.hi, unit(k));
  }

  lemma ScaledDeviate(lo: real, hi: real, u: real)
    requires lo <= hi && 0.0 <= u < 1.0
    ensures lo <= lo + (hi - lo) * u <= hi
  {
    var w := hi - lo;
    MulNonNegative(w, u);
    MulNonNegative(w, 1.0 - u);
    assert w * (1.0 - u) == w - w * u;
  }

  lemma MulNonNegative(a: real, b: real)
    requires a >= 0.0 && b >= 0.0
    ensures a * b >= 0.0
  {
  }

  /** Everything GaussianNoisePlusSignal.__init__ stores. */
  datatype SignalState = SignalState(
    names: seq<string>,
    bounds: seq<(string, Interval)>,
    truth: seq<(string, real)>,
    sigma: real,
    xs: seq<real>,
    data: seq<real>)

  /** The keyword call `signal_model(**truth)` binds exactly when the keys are the signal's parameters. */
  predicate BindsParameters(kind: SignalKind, truth: seq<(string, real)>)
  {
    && (forall n :: n in Keys(truth) ==> n in SignalNames(kind))
    && (forall n :: n in SignalNames(kind) ==> n in Keys(truth))
  }

  /**
   * The truth the model keeps: drawn from the bounds when omitted; a given
   * truth must list exactly the parameter names, in order.
   */
  function ResolveTruth(kind: SignalKind, truth: TruthArg, bounds: seq<(string, Interval)>, unit: nat -> real)
    : (r: Result<seq<(string, real)>, Error>)
    ensures r.Failure? <==> truth.GivenTruth? && Keys(truth.t) != SignalNames(kind)
    ensures r.Failure? ==> r.error.ValueError?
    ensures r.Success? && truth.GivenTruth? ==> r.value == truth.t
    ensures r.Success? && truth.NoTruth? ==> r.value == DrawTruth(bounds, unit)
  {
    match truth
    case NoTruth => Success(DrawTruth(bounds, unit))
    case GivenTruth(t) =>
      if Keys(t) != SignalNames(kind) then Failure(ValueError(TruthMismatch))
      else Success(t)
  }

  /** A truth that binds the signal's keywords supplies every parameter. */
  lemma BindsHasParameters(kind: SignalKind, truth: seq<(string, real)>)
    requires BindsParameters(kind, truth)
    ensures HasParameters(kind, AsMap(truth))
  {
  }

  /**
   * The constructor of LinearSignal or SinusoidalSignal, down to
   * GaussianNoisePlusSignal.__init__. `noise(k)` is the k-th standard normal
   * deviate and `unit` the deviates for drawing a missing truth.
   */
  function SignalInit(lib: Lib, kind: SignalKind, truth: TruthArg, sigma: real,
                      bounds: Option<seq<(string, Interval)>>, nPoints: int, start: real, end: real,
                      unit: nat -> real, noise: nat -> real): (r: Result<SignalState, Error>)
    ensures r.Success? <==>
      && ResolveTruth(kind, truth, BoundsOrDefault(lib, kind, bounds), unit).Success?
      && nPoints >= 0
      && BindsParameters(kind, ResolveTruth(kind, truth, BoundsOrDefault(lib, kind, bounds), unit).value)
    ensures r.Success? ==>
      && r.value.names == SignalNames(kind)
      && r.value.bounds == BoundsOrDefault(lib, kind, bounds)
      && r.value.truth == ResolveTruth(kind, truth, r.value.bounds, unit).value
      && r.value.sigma == sigma
      && r.value.xs == Linspace(start, end, nPoints).value
      && |r.value.data| == nPoints
      && HasParameters(kind, AsMap(r.value.truth))
      && r.value.data == Noisy(Fits(lib, kind, AsMap(r.value.truth), r.value.xs), sigma, noise)
  {
    var b := BoundsOrDefault(lib, kind, bounds);
    var tr :- ResolveTruth(kind, truth, b, unit);
    var xs :- Linspace(start, end, nPoints);
    if !BindsParameters(kind, tr) then
      Failure(TypeError(BadSignalArguments))
    else
      BindsHasParameters(kind, tr);
      Success(SignalState(SignalNames(kind), b, tr, sigma, xs, Noisy(Fits(lib, kind, AsMap(tr), xs), sigma, noise)))
  }

  function BoundsOrDefault(lib: Lib, kind: SignalKind, bounds: Option<seq<(string, Interval)>>): seq<(string, Interval)>
  {
    if bounds.Some? then bounds.value else DefaultBounds(lib, kind)
  }

  /** `signal + sigma * randn(n_points, 1)`. */
  function Noisy(fits: seq<real>, sigma: real, noise: nat -> real): (d: seq<real>)
    ensures |d| == |fits|
    ensures forall k :: 0 <= k < |fits| ==> d[k] == fits[k] + sigma * noise(k)
  {
    seq(|fits|, k requires 0 <= k < |fits| => fits[k] + sigma * noise(k))
  }

  /** Without noise the data are the signal itself. */
  lemma NoiselessData(fits: seq<real>, sigma: real, noise: nat -> real)
    requires forall k :: 0 <= k < |fits| ==> noise(k) == 0.0
    ensures Noisy(fits, sigma, noise) == fits
  {
  }

  /**
   * log_likelihood at parameters p: over the grid,
   * sum of -0.5 ((d - f) / sigma)^2 - log(2 pi sigma^2).
   */
  function SignalLogLikelihood(lib: Lib, kind: SignalKind, sigma: real, xs: seq<real>, data: seq<real>,
                               p: map<string, real>): (r: real)
    requires sigma != 0.0 && |xs| == |data| && HasParameters(kind, p)
    ensures r <= -(|data| as real) * NoiseNorm(lib, sigma)
  {
    ResidualMaximum(data, Fits(lib, kind, p, xs), NoiseNorm(lib, sigma), sigma);
    ResidualSum(data, Fits(lib, kind, p, xs), -NoiseNorm(lib, sigma), sigma)
  }

  /** log(2 pi sigma^2). */
  function NoiseNorm(lib: Lib, sigma: real): (c: real)
  {
    lib.ln(2.0 * lib.pi * Sq(sigma))
  }

  /**
   * The log-likelihood reaches its bound -n log(2 pi sigma^2) exactly when
   * the data coincide with the signal at p.
   */
  lemma SignalLogLikelihoodMaximum(lib: Lib, kind: SignalKind, sigma: real, xs: seq<real>, data: seq<real>,
                                   p: map<string, real>)
    requires sigma != 0.0 && |xs| == |data| && HasParameters(kind, p)
    ensures SignalLogLikelihood(lib, kind, sigma, xs, data, p) == -(|data| as real) * NoiseNorm(lib, sigma)
        <==> data == Fits(lib, kind, p, xs)
  {
    ResidualMaximum(data, Fits(lib, kind, p, xs), NoiseNorm(lib, sigma), sigma);
  }

  class SignalModel {
    const lib: Lib
    const kind: SignalKind
    var names: seq<string>
    var bounds: seq<(string, Interval)>
    var truth: seq<(string, real)>
    var sigma: real
    var xs: seq<real>
    var data: seq<real>

    predicate Valid()
      reads this
    {
      names == SignalNames(kind) && |xs| == |data|
    }

    constructor (lib: Lib, kind: SignalKind, s: SignalState)
      requires s.names == SignalNames(kind) && |s.xs| == |s.data|
      ensures this.lib == lib && this.kind == kind
      ensures names == s.names && bounds == s.bounds && truth == s.truth
      ensures sigma == s.sigma && xs == s.xs && data == s.data
      ensures Valid()
    {
      this.lib := lib;
      this.kind := kind;
      names := s.names;
      bounds := s.bounds;
      truth := s.truth;
      sigma := s.sigma;
      xs := s.xs;
      data := s.data;
    }

    /** GaussianNoisePlusSignal.log_likelihood: one value per sample, from that sample's parameters. */
    function LogLikelihood(x: Batch): (r: seq<real>)
      reads this
      requires Valid() && sigma != 0.0 && BatchHas(names, x)
      ensures |r| == |x|
      ensures forall j :: 0 <= j < |x| ==> r[j] == SignalLogLikelihood(lib, kind, sigma, xs, data, Params(kind, x[j]))
    {
      var k, sg, g, d := kind, sigma, xs, data;
      seq(|x|, j requires 0 <= j < |x| => SignalLogLikelihood(lib, k, sg, g, d, Params(k, x[j])))
    }
  }

  /** Every sample's log-likelihood is at most -n_points log(2 pi sigma^2). */
  lemma LogLikelihoodAtMost(m: SignalModel, x: Batch, j: nat)
    requires m.Valid() && m.sigma != 0.0 && BatchHas(m.names, x) && j < |x|
    ensures m.LogLikelihood(x)[j] <= -(|m.data| as real) * NoiseNorm(m.lib, m.sigma)
  {
    SignalLogLikelihoodMaximum(m.lib, m.kind, m.sigma, m.xs, m.data, Params(m.kind, x[j]));
  }

  /** `{n: x[n] for n in names}`: a sample's parameters, passed to signal_model by keyword. */
  function Params(kind: SignalKind, row: Row): (p: map<string, real>)
    requires RowHas(SignalNames(kind), row)
    ensures HasParameters(kind, p)
    ensures forall n :: n in SignalNames(kind) ==> p[n] == row[n]
  {
    map n | n in SignalNames(kind) :: row[n]
  }

  /** LinearSignal(...) and SinusoidalSignal(...): build the model, or raise. */
  method NewSignalModel(lib: Lib, kind: SignalKind, truth: TruthArg, sigma: real,
                        bounds: Option<seq<(string, Interval)>>, nPoints: int, start: real, end: real,
                        unit: nat -> real, noise: nat -> real) returns (r: Result<SignalModel, Error>)
    ensures var s := SignalInit(lib, kind, truth, sigma, bounds, nPoints, start, end, unit, noise);
      && (r.Failure? <==> s.Failure?)
      && (r.Failure? ==> r.error == s.error)
      && (r.Success? ==> fresh(r.value) && r.value.Valid())
      && (r.Success? ==>
            && r.value.lib == lib && r.value.kind == kind
            && r.value.names == s.value.names && r.value.bounds == s.value.bounds
            && r.value.truth == s.value.truth && r.value.sigma == sigma
            && r.value.xs == s.value.xs && r.value.data == s.value.data)
  {
    var s := SignalInit(lib, kind, truth, sigma, bounds, nPoints, start, end, unit, noise);
    if s.Failure? {
      return Failure(s.error);
    }
    var m := new SignalModel(lib, kind, s.value);
    return Success(m);
  }

  /** Data without noise sit at the maximum of the log-likelihood at the parameters that generated them. */
  lemma NoiselessMaximum(lib: Lib, kind: SignalKind, sigma: real, xs: seq<real>, data: seq<real>,
                          p: map<string, real>, noise: nat -> real)
    requires sigma != 0.0 && HasParameters(kind, p)
    requires forall k :: noise(k) == 0.0
    requires data == Noisy(Fits(lib, kind, p, xs), sigma, noise)
    ensures |data| == |xs|
    ensures SignalLogLikelihood(lib, kind, sigma, xs, data, p) == -(|xs| as real) * NoiseNorm(lib, sigma)
  {
    var fits := Fits(lib, kind, p, xs);
    NoiselessData(fits, sigma, noise);
    SignalLogLikelihoodMaximum(lib, kind, sigma, xs, fits, p);
  }

  /**
   * With zero noise the data are the signal at the truth, and the
   * log-likelihood at the truth is -n_points log(2 pi sigma^2).
   */
  lemma ZeroNoiseMaximum(lib: Lib, kind: SignalKind, truth: TruthArg, sigma: real,
                         bounds: Option<seq<(string, Interval)>>, nPoints: int, start: real, end: real,
                         unit: nat -> real, noise: nat -> real, s: SignalState)
    requires sigma != 0.0
    requires forall k :: noise(k) == 0.0
    requires SignalInit(lib, kind, truth, sigma, bounds, nPoints, start, end, unit, noise).Success?
    requires SignalInit(lib, kind, truth, sigma, bounds, nPoints, start, end, unit, noise).value == s
    ensures |s.xs| == nPoints
    ensures SignalLogLikelihood(lib, kind, sigma, s.xs, s.data, AsMap(s.truth)) == -(|s.xs| as real) * NoiseNorm(lib, sigma)
  {
    NoiselessMaximum(lib, kind, sigma, s.xs, s.data, AsMap(s.truth), noise);
  }

}
