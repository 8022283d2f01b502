/**
 * The unit-Gaussian evidence and the n-dimensional Gaussian model
 * (nessai_models/gaussian.py), with the legacy unit Gaussian of
 * nessaimodels/gaussian.py, whose evidence function is the same code.
 */
module GaussianModel {
  import opened Wrappers
  import opened Numerics
  import opened Base
  import Naming

  // ---------------------------------------------------------------------------
  // np.ptp

  function Max(v: seq<real>): (m: real)
    requires |v| > 0
    ensures forall i :: 0 <= i < |v| ==> v[i] <= m
    ensures exists i :: 0 <= i < |v| && v[i] == m
  {
    if |v| == 1 then v[0]
    else
      var m := Max(v[..|v| - 1]);
      assert forall i :: 0 <= i < |v| - 1 ==> v[..|v| - 1][i] == v[i];
      if v[|v| - 1] > m then v[|v| - 1] else m
  }

  function Min(v: seq<real>): (m: real)
    requires |v| > 0
    ensures forall i :: 0 <= i < |v| ==> m <= v[i]
    ensures exists i :: 0 <= i < |v| && v[i] == m
  {
    if |v| == 1 then v[0]
    else
      var m := Min(v[..|v| - 1]);
      assert forall i :: 0 <= i < |v| - 1 ==> v[..|v| - 1][i] == v[i];
      if v[|v| - 1] < m then v[|v| - 1] else m
  }

  /** Peak to peak: max minus min; the empty case never reaches it (numpy raises first). */
  function Ptp(v: seq<real>): (r: real)
    ensures r >= 0.0
    ensures |v| > 0 ==> forall i, k :: 0 <= i < |v| && 0 <= k < |v| ==> v[i] - v[k] <= r
    ensures |v| > 0 ==> exists i, k :: 0 <= i < |v| && 0 <= k < |v| && v[i] - v[k] == r
  {
    if |v| == 0 then 0.0 else Max(v) - Min(v)
  }

  /** For a pair, the peak to peak is the distance between the two values, whatever their order. */
  lemma PtpPair(a: real, b: real)
    ensures Ptp([a, b]) == Abs(b - a)
    ensures Ptp([a, b]) == Ptp([b, a])
  {
  }

  // ---------------------------------------------------------------------------
  // compute_gaussian_ln_evidence

  /** The messages of the ValueErrors numpy and the function raise. */
  const DimsRequired: string := "dims must be specified if bounds is 1-dimensional"
  const ZeroSize: string := "zero-size array to reduction operation maximum which has no identity"
  const Ragged: string := "setting an array element with a sequence."
  const DimsMismatch: string := "When providing 2-d bounds and dims, dims must match the first dimension of bounds."

  /** A bounds array as numpy sees it: one dimension, or a list of rows. */
  datatype BoundsArray = OneD(values: seq<real>) | TwoD(rows: seq<seq<real>>)

  /** Every row has the same length, so the rows form a 2-d array. */
  predicate Rectangular(rows: seq<seq<real>>)
  {
    forall i :: 0 <= i < |rows| ==> |rows[i]| == |rows[0]|
  }

  function LnPtp(lib: Lib): seq<real> -> real
  {
    row => lib.ln(Ptp(row))
  }

  /**
   * compute_gaussian_ln_evidence: the log-evidence of a unit Gaussian under a
   * uniform prior, minus the summed log-widths of the prior ranges. `dims`
   * of None or 0 is falsy and skips the 2-d shape check.
   */
  function ComputeGaussianLnEvidence(lib: Lib, bounds: BoundsArray, dims: Option<int>): (r: Result<real, Error>)
    ensures bounds.OneD? ==>
      (r.Success? <==> dims.Some? && |bounds.values| > 0)
    ensures bounds.OneD? && dims.Some? && |bounds.values| > 0 ==>
      r.value == -(dims.value as real) * lib.ln(Ptp(bounds.values))
    ensures bounds.TwoD? && Rectangular(bounds.rows) && dims.Some? && dims.value != 0 && |bounds.rows| != dims.value
      ==> r.Failure?
    ensures bounds.TwoD? ==> (r.Success? <==>
      && Rectangular(bounds.rows)
      && (dims.None? || dims.value == 0 || |bounds.rows| == dims.value)
      && (|bounds.rows| == 0 || |bounds.rows[0]| > 0))
    ensures r.Success? && bounds.TwoD? ==> r.value == -SumOf(bounds.rows, LnPtp(lib))
    ensures r.Failure? ==> r.error.ValueError?
  {
    match bounds
    case OneD(values) => OneDEvidence(lib, values, dims)
    case TwoD(rows) => TwoDEvidence(lib, rows, dims)
  }

  function OneDEvidence(lib: Lib, values: seq<real>, dims: Option<int>): (r: Result<real, Error>)
    ensures r.Success? <==> dims.Some? && |values| > 0
    ensures r.Success? ==> r.value == -(dims.value as real) * lib.ln(Ptp(values))
    ensures r.Failure? ==> r.error.ValueError?
  {
    if dims.None? then
      Failure(ValueError(DimsRequired))
    else if |values| == 0 then
      Failure(ValueError(ZeroSize))
    else
      Success(-(dims.value as real) * lib.ln(Ptp(values)))
  }

  /** numpy accepts 2-d bounds: a rectangular array, matching a truthy dims, with non-empty rows. */
  predicate TwoDAccepted(rows: seq<seq<real>>, dims: Option<int>)
  {
    && Rectangular(rows)
    && (dims.None? || dims.value == 0 || |rows| == dims.value)
    && (|rows| == 0 || |rows[0]| > 0)
  }

  function TwoDEvidence(lib: Lib, rows: seq<seq<real>>, dims: Option<int>): (r: Result<real, Error>)
    ensures r.Success? <==> TwoDAccepted(rows, dims)
    ensures r.Success? ==> r.value == -SumOf(rows, LnPtp(lib))
    ensures r.Failure? ==> r.error.ValueError?
  {
    if !Rectangular(rows) then
      Failure(ValueError(Ragged))
    else if dims.Some? && dims.value != 0 && |rows| != dims.value then
      Failure(ValueError(DimsMismatch))
    else if |rows| > 0 && |rows[0]| == 0 then
      Failure(ValueError(ZeroSize))
    else
      Success(-SumOf(rows, LnPtp(lib)))
  }

  /** 1-d bounds `[a, b]`: minus dims times the log of the prior width, whatever the order of a and b. */
  lemma EvidenceOfPair(lib: Lib, a: real, b: real, dims: int)
    ensures var r := ComputeGaussianLnEvidence(lib, OneD([a, b]), Some(dims));
      r.Success? && r.value == -(dims as real) * lib.ln(Abs(b - a))
    ensures ComputeGaussianLnEvidence(lib, OneD([a, b]), Some(dims))
         == ComputeGaussianLnEvidence(lib, OneD([b, a]), Some(dims))
  {
    PtpPair(a, b);
    var v, w := [a, b], [b, a];
    var r, r2 := ComputeGaussianLnEvidence(lib, OneD(v), Some(dims)), ComputeGaussianLnEvidence(lib, OneD(w), Some(dims));
    assert r.Success? && r.value == -(dims as real) * lib.ln(Ptp(v));
    assert r2.Success? && r2.value == -(dims as real) * lib.ln(Ptp(w));
    assert r.value == r2.value;
  }

  /** Reversing the pair in any row of 2-d bounds leaves the evidence unchanged. */
  lemma EvidenceRowSwap(lib: Lib, rows: seq<seq<real>>, k: nat, dims: Option<int>)
    requires k < |rows| && |rows[k]| == 2
    ensures var swapped := rows[k := [rows[k][1], rows[k][0]]];
      ComputeGaussianLnEvidence(lib, TwoD(rows), dims) == ComputeGaussianLnEvidence(lib, TwoD(swapped), dims)
  {
    var swapped := rows[k := [rows[k][1], rows[k][0]]];
    PtpPair(rows[k][0], rows[k][1]);
    assert [rows[k][0], rows[k][1]] == rows[k];
    forall i | 0 <= i < |rows|
      ensures LnPtp(lib)(rows[i]) == LnPtp(lib)(swapped[i])
    {
    }
    SumOfCongruent(rows, LnPtp(lib), swapped, LnPtp(lib));
    assert Rectangular(rows) <==> Rectangular(swapped) by {
      assert forall i :: 0 <= i < |rows| ==> |rows[i]| == |swapped[i]|;
    }
  }

  /** n copies of the row `[a, b]` as 2-d bounds give the same evidence as the 1-d pair with dims n. */
  lemma EvidenceOneDMatchesTwoD(lib: Lib, a: real, b: real, n: nat)
    ensures ComputeGaussianLnEvidence(lib, TwoD(seq(n, _ => [a, b])), Some(n))
         == ComputeGaussianLnEvidence(lib, OneD([a, b]), Some(n))
  {
    var rows := seq(n, _ => [a, b]);
    var v := [a, b];
    var c := lib.ln(Ptp(v));
    assert forall i :: 0 <= i < |rows| ==> rows[i] == v;
    assert Rectangular(rows);
    assert |rows| == 0 || |rows[0]| > 0;
    forall i | 0 <= i < |rows|
      ensures LnPtp(lib)(rows[i]) == c
    {
    }
    SumOfConstant(rows, LnPtp(lib), c);
    var r1 := TwoDEvidence(lib, rows, Some(n));
    var r2 := OneDEvidence(lib, v, Some(n));
    assert r1.Success?;
    assert r1.value == -(n as real * c);
    assert r2.Success?;
    assert r2.value == -(n as real) * c;
  }

  /**
   * For the bounds shared by an n-dimensional model with lo <= hi, the
   * evidence is the log of the uniform prior density: the value log_prior
   * gives every in-bounds sample (minus n log 20 for the default [-10, 10]).
   */
  lemma EvidenceIsLogPriorDensity(lib: Lib, s: Setup, lo: real, hi: real)
    requires lo <= hi && SharedBounds(s, Interval(lo, hi))
    ensures var r := ComputeGaussianLnEvidence(lib, OneD([lo, hi]), Some(|s.names|));
      r.Success? && r.value == -SumLnWidths(lib, s.names, s.bounds)
  {
    SharedWidths(lib, s, Interval(lo, hi));
    EvidenceOfPair(lib, lo, hi, |s.names|);
    assert Abs(hi - lo) == hi - lo;
  }

  // ---------------------------------------------------------------------------
  // Gaussian

  /** The `mean` argument: omitted, a number, or a vector. */
  datatype MeanArg = NoMean | ScalarMean(m: real) | VectorMean(v: seq<real>)

  /** The `cov` argument: omitted, or a matrix. */
  datatype CovArg = NoCov | MatrixCov(m: seq<seq<real>>)

  function Identity(n: nat): (id: seq<seq<real>>)
    ensures |id| == n
    ensures forall i :: 0 <= i < n ==> |id[i]| == n
    ensures forall i, k :: 0 <= i < n && 0 <= k < n ==> id[i][k] == (if i == k then 1.0 else 0.0)
  {
    seq(n, i => seq(n, k => if i == k then 1.0 else 0.0))
  }

  /** The mean vector the model uses for a given argument in `dims` dimensions. */
  function MeanOf(mean: MeanArg, dims: nat): (v: seq<real>)
    ensures mean.NoMean? ==> |v| == dims && forall i :: 0 <= i < dims ==> v[i] == 0.0
    ensures mean.ScalarMean? ==> |v| == dims && forall i :: 0 <= i < dims ==> v[i] == mean.m
    ensures mean.VectorMean? ==> v == mean.v
  {
    match mean
    case NoMean => seq(dims, _ => 0.0)
    case ScalarMean(m) => seq(dims, _ => m)
    case VectorMean(v) => v
  }

  function CovOf(cov: CovArg, dims: nat): (m: seq<seq<real>>)
    ensures cov.NoCov? ==> m == Identity(dims)
    ensures cov.MatrixCov? ==> m == cov.m
  {
    match cov
    case NoCov => Identity(dims)
    case MatrixCov(m) => m
  }

  /**
   * Gaussian with a uniform prior. When neither mean nor covariance is given
   * it is a unit Gaussian with a known evidence, and `normalise` subtracts
   * that evidence so that the normalised model has log-evidence 0.
   */
  class Gaussian {
    const lib: Lib
    var names: seq<string>
    var bounds: map<string, Interval>
    var mean: seq<real>
    var cov: seq<seq<real>>
    var normalise: bool
    var normConst: real
    var lnEvidence: Option<real>
    /** Whether "Cannot normalise non-unit Gaussian" was warned. */
    var warned: bool

    /** The normalising constant is the evidence exactly when normalisation is on, and 0 otherwise. */
    predicate Valid()
      reads this
    {
      && Bounded(names, bounds)
      && (normalise ==> lnEvidence.Some? && normConst == lnEvidence.value)
      && (!normalise ==> normConst == 0.0)
    }

    /**
     * Gaussian.__init__ once NDimensionalModel.__init__ has accepted the
     * bounds pair `[lo, hi]`; `self.dims` is the number of names.
     */
    constructor (lib: Lib, dims: int, lo: real, hi: real, mean: MeanArg, cov: CovArg, normalise: bool)
      ensures var s := NDimensionalInit(dims, SequenceArg([lo, hi])).value;
        names == s.names && bounds == s.bounds
      ensures this.lib == lib
      ensures this.mean == MeanOf(mean, |names|) && this.cov == CovOf(cov, |names|)
      ensures mean.NoMean? && cov.NoCov? ==>
        && lnEvidence == ComputeGaussianLnEvidence(lib, OneD([lo, hi]), Some(|names|)).ToOption()
        && this.normalise == normalise
        && !warned
      ensures !(mean.NoMean? && cov.NoCov?) ==>
        lnEvidence.None? && !this.normalise && normConst == 0.0 && warned == normalise
      ensures Valid()
    {
      var s := NDimensionalInit(dims, SequenceArg([lo, hi])).value;
      NDimensionalInitNames(dims, SequenceArg([lo, hi]));
      this.lib := lib;
      names := s.names;
      bounds := s.bounds;
      var n := |s.names|;
      normConst := 0.0;
      this.mean := MeanOf(mean, n);
      this.cov := CovOf(cov, n);
      this.normalise := normalise;
      warned := false;
      if mean.NoMean? && cov.NoCov? {
        var z := ComputeGaussianLnEvidence(lib, OneD([lo, hi]), Some(n));
        lnEvidence := z.ToOption();
        if normalise {
          normConst := z.value;
        }
      } else {
        lnEvidence := None;
        if normalise {
          warned := true;
          this.normalise := false;
        }
      }
    }

    /** Gaussian.log_likelihood: the multivariate normal log-density of each sample, minus the normalising constant. */
    function LogLikelihood(x: Batch): (r: seq<real>)
      reads this
      requires Valid() && BatchHas(names, x)
      ensures |r| == |x|
      ensures forall j :: 0 <= j < |x| ==>
        r[j] == lib.mvnLogPdf(mean, cov, View(names, x[j])) - (if normalise then lnEvidence.value else 0.0)
    {
      var m, c, ns, k := mean, cov, names, normConst;
      seq(|x|, j requires 0 <= j < |x| => lib.mvnLogPdf(m, c, View(ns, x[j])) - k)
    }
  }

  /**
   * The public constructor: NDimensionalModel.__init__ may reject the bounds
   * argument, in which case no model is built.
   */
  method NewGaussian(lib: Lib, dims: int, bounds: BoundsArg, mean: MeanArg, cov: CovArg, normalise: bool)
    returns (r: Result<Gaussian, Error>)
    ensures r.Failure? <==> NDimensionalInit(dims, bounds).Failure?
    ensures r.Failure? ==> r.error == NDimensionalInit(dims, bounds).error
    ensures r.Success? ==> fresh(r.value) && r.value.Valid()
    ensures r.Success? ==>
      var s, g, unit := NDimensionalInit(dims, bounds).value, r.value, mean.NoMean? && cov.NoCov?;
      && g.lib == lib && g.names == s.names && g.bounds == s.bounds
      && g.mean == MeanOf(mean, |g.names|) && g.cov == CovOf(cov, |g.names|)
      && g.lnEvidence == (if unit then ComputeGaussianLnEvidence(lib, OneD(bounds.items), Some(|g.names|)).ToOption() else None)
      && g.normalise == (normalise && unit)
      && g.warned == (normalise && !unit)
  {
    var s := NDimensionalInit(dims, bounds);
    if s.Failure? {
      return Failure(s.error);
    }
    assert bounds.items == [bounds.items[0], bounds.items[1]];
    var g := new Gaussian(lib, dims, bounds.items[0], bounds.items[1], mean, cov, normalise);
    return Success(g);
  }

  /** The default unit Gaussian: two dimensions on [-10, 10], evidence -2 log 20. */
  lemma DefaultGaussianEvidence(lib: Lib)
    ensures NDimensionalInit(2, SequenceArg([-10.0, 10.0])).Success?
    ensures var r := ComputeGaussianLnEvidence(lib, OneD([-10.0, 10.0]), Some(2));
      r.Success? && r.value == -2.0 * lib.ln(20.0)
  {
    EvidenceOfPair(lib, -10.0, 10.0, 2);
  }

  // ---------------------------------------------------------------------------
  // Legacy unit Gaussian (nessaimodels/gaussian.py)

  /** The legacy unit Gaussian: always a unit Gaussian, its evidence always computed. */
  class LegacyGaussian {
    const lib: Lib
    var names: seq<string>
    var bounds: map<string, Interval>
    var lnEvidence: real

    constructor (lib: Lib, dims: int, lo: real, hi: real)
      ensures var s := NDimensionalInit(dims, SequenceArg([lo, hi])).value;
        names == s.names && bounds == s.bounds
      ensures this.lib == lib
      ensures ComputeGaussianLnEvidence(lib, OneD([lo, hi]), Some(|names|)) == Success(lnEvidence)
    {
      var s := NDimensionalInit(dims, SequenceArg([lo, hi])).value;
      this.lib := lib;
      names := s.names;
      bounds := s.bounds;
      lnEvidence := ComputeGaussianLnEvidence(lib, OneD([lo, hi]), Some(|s.names|)).value;
    }

    /** Gaussian.log_likelihood: per sample, the sum of the standard-normal log-density of each named column. */
    method LogLikelihood(x: Batch) returns (logL: seq<real>)
      requires BatchHas(names, x)
      ensures |logL| == |x|
      ensures forall j :: 0 <= j < |x| ==> logL[j] == MarginalSum(lib.normLogPdf, names, x[j])
    {
      logL := AccumulateMarginals(lib.normLogPdf, names, x);
    }
  }
}
