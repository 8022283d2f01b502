/**
 * The legacy package nessaimodels: the loop-based uniform log-prior with
 * inclusive bounds, the Rosenbrock model and the two-peak Gaussian mixture.
 * (The legacy unit Gaussian lives with the Gaussian model.)
 */
module Legacy {
  import opened Numerics
  import opened Base
  import opened RosenbrockModel

  // ---------------------------------------------------------------------------
  // log_prior: `log_p = zeros; for n in names: log_p += log(lo <= x[n] <= hi); log_p -= log(hi - lo)`

  /**
   * The log-prior of one sample after the names in `names` have been visited:
   * -inf exactly when some visited column lies outside its range (ends included).
   */
  function InclusivePrior(lib: Lib, names: seq<string>, bounds: map<string, Interval>, row: Row): (r: ExtReal)
    requires Bounded(names, bounds) && RowHas(names, row)
    ensures r.NegInf? <==> !InRange(names, bounds, row)
  {
    if names == [] then Fin(0.0)
    else
      var init, n := names[..|names| - 1], names[|names| - 1];
      assert forall k :: k in names <==> k in init || k == n;
      var iv := bounds[n];
      var before := InclusivePrior(lib, init, bounds, row);
      Minus(Plus(before, LogIndicator(iv.lo <= row[n] <= iv.hi)), lib.ln(iv.hi - iv.lo))
  }

  /** The loop gives -sum of log-widths to a sample inside every range (ends included), and -inf otherwise. */
  lemma {:induction false} InclusivePriorValue(lib: Lib, names: seq<string>, bounds: map<string, Interval>, row: Row)
    requires Bounded(names, bounds) && RowHas(names, row)
    ensures InclusivePrior(lib, names, bounds, row)
         == if InRange(names, bounds, row) then Fin(-SumLnWidths(lib, names, bounds)) else NegInf
  {
    if names != [] {
      var init, n := names[..|names| - 1], names[|names| - 1];
      assert forall k :: k in init ==> k in names;
      InclusivePriorValue(lib, init, bounds, row);
      assert InRange(names, bounds, row) <==> InRange(init, bounds, row) && bounds[n].lo <= row[n] <= bounds[n].hi by {
        assert forall k :: k in names ==> k in init || k == n;
      }
    }
  }

  /** The legacy loop agrees, sample by sample, with the uniform prior of the main package under an inclusive in-bounds test. */
  lemma InclusivePriorIsUniform(lib: Lib, names: seq<string>, bounds: map<string, Interval>, x: Batch, j: nat)
    requires Bounded(names, bounds) && BatchHas(names, x) && j < |x|
    ensures InclusivePrior(lib, names, bounds, x[j])
         == UniformLogPrior(lib, InBoundsInclusive(names, bounds), names, bounds, x)[j]
  {
    InclusivePriorValue(lib, names, bounds, x[j]);
  }

  /** The log_prior loop of the legacy Rosenbrock and Gaussian-mixture models. */
  method InclusiveLogPrior(lib: Lib, names: seq<string>, bounds: map<string, Interval>, x: Batch)
    returns (logP: seq<ExtReal>)
    requires Bounded(names, bounds) && BatchHas(names, x)
    ensures |logP| == |x|
    ensures forall j :: 0 <= j < |x| ==> logP[j] == InclusivePrior(lib, names, bounds, x[j])
  {
    logP := seq(|x|, _ => Fin(0.0));
    for i := 0 to |names|
      invariant |logP| == |x|
      invariant forall j :: 0 <= j < |x| ==> logP[j] == InclusivePrior(lib, names[..i], bounds, x[j])
    {
      var n := names[i];
      var iv := bounds[n];
      logP := seq(|x|, j requires 0 <= j < |x| => Plus(logP[j], LogIndicator(iv.lo <= x[j][n] <= iv.hi)));
      logP := seq(|x|, j requires 0 <= j < |x| => Minus(logP[j], lib.ln(iv.hi - iv.lo)));
      assert names[..i + 1][..i] == names[..i];
    }
    assert names[..|names|] == names;
  }

  // ---------------------------------------------------------------------------
  // Rosenbrock (nessaimodels/rosenbrock.py)

  class LegacyRosenbrock {
    const lib: Lib
    var names: seq<string>
    var bounds: map<string, Interval>

    /** Rosenbrock.__init__: names x_0 .. x_{n-1}, each with the given pair; nothing is validated. */
    constructor (lib: Lib, n: int, lo: real, hi: real)
      ensures this.lib == lib
      ensures names == XNames(n)
      ensures forall p :: p in names ==> p in bounds && bounds[p] == Interval(lo, hi)
      ensures forall p :: p in bounds ==> p in names
    {
      this.lib := lib;
      names := XNames(n);
      bounds := map p | p in XNames(n) :: Interval(lo, hi);
    }

    /** Rosenbrock.log_prior: one value per sample, as the inclusive-bounds loop computes it. */
    method LogPrior(x: Batch) returns (logP: seq<ExtReal>)
      requires Bounded(names, bounds) && BatchHas(names, x)
      ensures |logP| == |x|
      ensures forall j :: 0 <= j < |x| ==> logP[j] == InclusivePrior(lib, names, bounds, x[j])
    {
      logP := InclusiveLogPrior(lib, names, bounds, x);
    }

    /** Rosenbrock.log_likelihood: the same coupled sum as the main package. */
    function LogLikelihood(x: Batch): (r: seq<real>)
      reads this
      requires BatchHas(names, x)
      ensures |r| == |x|
      ensures forall j :: 0 <= j < |x| ==> r[j] <= 0.0
    {
      RosenbrockLogLikelihood(names, x)
    }
  }

  // ---------------------------------------------------------------------------
  // GaussianMixture (nessaimodels/gaussianmixture.py)

  const MixtureNames: seq<string> := ["mu1", "sigma1", "mu2", "sigma2", "weight"]

  const MixtureBounds: map<string, Interval> := map[
    "mu1" := Interval(-3.0, 3.0),
    "sigma1" := Interval(0.01, 1.0),
    "mu2" := Interval(-3.0, 3.0),
    "sigma2" := Interval(0.01, 1.0),
    "weight" := Interval(0.0, 1.0)]

  const MixtureTruth: map<string, real> := map[
    "mu1" := 0.5, "sigma1" := 0.5, "mu2" := -1.5, "sigma2" := 0.03, "weight" := 0.2]

  /** `n1 = int(weight * n)`: the number of data points drawn from the first peak. */
  function FirstPeakCount(n: nat): (n1: nat)
    ensures n1 <= n
    ensures n1 as real <= 0.2 * n as real < n1 as real + 1.0
  {
    (0.2 * n as real).Floor
  }

  /** n copies of v: the mean each datum is compared with. */
  function Repeat(n: nat, v: real): (r: seq<real>)
    ensures |r| == n && forall i :: 0 <= i < n ==> r[i] == v
  {
    seq(n, _ => v)
  }

  /** The log-likelihood of all data under one peak: sum over the data of log w - log sigma - 0.5 ((d - mu) / sigma)^2. */
  function Branch(lib: Lib, w: real, mu: real, sigma: real, data: seq<real>): (r: real)
    requires sigma != 0.0
    ensures r <= |data| as real * (lib.ln(w) - lib.ln(sigma))
  {
    ResidualSumBound(Zip(data, Repeat(|data|, mu)), lib.ln(w) - lib.ln(sigma), sigma);
    ResidualSum(data, Repeat(|data|, mu), lib.ln(w) - lib.ln(sigma), sigma)
  }

  /** A branch reaches its upper bound exactly when every datum is at the mean. */
  lemma BranchBound(lib: Lib, w: real, mu: real, sigma: real, data: seq<real>)
    requires sigma != 0.0
    ensures Branch(lib, w, mu, sigma, data) == |data| as real * (lib.ln(w) - lib.ln(sigma))
        <==> forall i :: 0 <= i < |data| ==> data[i] == mu
  {
    var pairs := Zip(data, Repeat(|data|, mu));
    ResidualSumBound(pairs, lib.ln(w) - lib.ln(sigma), sigma);
  }

  predicate HasMixtureParameters(x: Row)
  {
    forall n :: n in MixtureNames ==> n in x
  }

  class LegacyGaussianMixture {
    const lib: Lib
    var names: seq<string>
    var bounds: map<string, Interval>
    var truth: map<string, real>
    var data: seq<real>

    /**
     * GaussianMixture.__init__: the fixed table and truth, then n data points,
     * the first n1 drawn from the first peak and the other n - n1 from the
     * second. `draw1(i)` and `draw2(i)` stand for the i-th random draw.
     */
    constructor (lib: Lib, n: nat, draw1: nat -> real, draw2: nat -> real)
      ensures this.lib == lib
      ensures names == MixtureNames && bounds == MixtureBounds && truth == MixtureTruth
      ensures |data| == n
      ensures forall i :: 0 <= i < FirstPeakCount(n) ==> data[i] == draw1(i)
      ensures forall i :: FirstPeakCount(n) <= i < n ==> data[i] == draw2(i - FirstPeakCount(n))
    {
      this.lib := lib;
      names := MixtureNames;
      bounds := MixtureBounds;
      truth := MixtureTruth;
      var n1 := FirstPeakCount(n);
      var n2 := n - n1;
      data := seq(n1, (i: nat) => draw1(i)) + seq(n2, (i: nat) => draw2(i));
    }

    /** GaussianMixture.log_prior: the inclusive-bounds loop over the five parameters. */
    method LogPrior(x: Batch) returns (logP: seq<ExtReal>)
      requires Bounded(names, bounds) && BatchHas(names, x)
      ensures |logP| == |x|
      ensures forall j :: 0 <= j < |x| ==> logP[j] == InclusivePrior(lib, names, bounds, x[j])
    {
      logP := InclusiveLogPrior(lib, names, bounds, x);
    }

    /**
     * GaussianMixture.log_likelihood of one point: each peak's log-likelihood
     * is summed over the whole dataset, and the two totals are combined by a
     * single logaddexp.
     */
    function LogLikelihood(x: Row): (r: real)
      reads this
      requires HasMixtureParameters(x)
      requires x["sigma1"] != 0.0 && x["sigma2"] != 0.0
      ensures r == lib.logAddExp(Branch(lib, x["weight"], x["mu1"], x["sigma1"], data),
                                 Branch(lib, 1.0 - x["weight"], x["mu2"], x["sigma2"], data))
    {
      var w := x["weight"];
      var l1 := Branch(lib, w, x["mu1"], x["sigma1"], data);
      var l2 := Branch(lib, 1.0 - w, x["mu2"], x["sigma2"], data);
      lib.logAddExp(l1, l2)
    }
  }

  /** Every default bound of the legacy mixture is a proper range, the truth lies inside it. */
  lemma MixtureTable()
    ensures Bounded(MixtureNames, MixtureBounds)
    ensures forall n :: n in MixtureNames ==> MixtureBounds[n].lo < MixtureBounds[n].hi
    ensures forall n :: n in MixtureNames ==> n in MixtureTruth
    ensures InRange(MixtureNames, MixtureBounds, MixtureTruth)
  {
  }
}
