/** The n-dimensional half-Gaussian (nessai_models/halfgaussian.py). */
module HalfGaussianModel {
  import opened Wrappers
  import opened Numerics
  import opened Base
  import opened GaussianModel

  /** Exception messages. */
  const NonZeroLower: string := "Lower bounds must all be zero!"

  /**
   * HalfGaussian.__init__ before the evidence: NDimensionalModel.__init__,
   * then every lower bound must be 0. With no dimensions there are no lower
   * bounds and the check passes.
   */
  function HalfGaussianSetup(dims: int, bounds: BoundsArg): (r: Result<Setup, Error>)
    ensures r.Success? <==>
      && NDimensionalInit(dims, bounds).Success?
      && (dims <= 0 || bounds.items[0] == 0.0)
    ensures NDimensionalInit(dims, bounds).Failure? ==> r == NDimensionalInit(dims, bounds)
    ensures r.Success? ==> r == NDimensionalInit(dims, bounds)
    ensures r.Success? ==> forall n :: n in r.value.names ==> n in r.value.bounds && r.value.bounds[n].lo == 0.0
  {
    var s :- NDimensionalInit(dims, bounds);
    NDimensionalInitNames(dims, bounds);
    if forall n :: n in s.names ==> s.bounds[n].lo == 0.0 then
      Success(s)
    else
      assert s.names[0] in s.names;
      Failure(ValueError(NonZeroLower))
  }

  /** The default arguments, two dimensions on [0, 10], pass the check. */
  lemma DefaultHalfGaussian()
    ensures HalfGaussianSetup(2, SequenceArg([0.0, 10.0])).Success?
  {
  }

  class HalfGaussian {
    const lib: Lib
    var names: seq<string>
    var bounds: map<string, Interval>
    var lnEvidence: real

    /** HalfGaussian.__init__ once the set-up has passed its checks. */
    constructor (lib: Lib, dims: int, lo: real, hi: real)
      requires HalfGaussianSetup(dims, SequenceArg([lo, hi])).Success?
      ensures var s := HalfGaussianSetup(dims, SequenceArg([lo, hi])).value;
        names == s.names && bounds == s.bounds
      ensures this.lib == lib
      ensures ComputeGaussianLnEvidence(lib, OneD([lo, hi]), Some(|names|)) == Success(lnEvidence)
    {
      var s := HalfGaussianSetup(dims, SequenceArg([lo, hi])).value;
      this.lib := lib;
      names := s.names;
      bounds := s.bounds;
      lnEvidence := ComputeGaussianLnEvidence(lib, OneD([lo, hi]), Some(|s.names|)).value;
    }

    /** HalfGaussian.log_likelihood: per sample, the sum of the half-normal log-density of each named column. */
    method LogLikelihood(x: Batch) returns (logL: seq<real>)
      requires BatchHas(names, x)
      ensures |logL| == |x|
      ensures forall j :: 0 <= j < |x| ==> logL[j] == MarginalSum(lib.halfNormLogPdf, names, x[j])
    {
      logL := AccumulateMarginals(lib.halfNormLogPdf, names, x);
    }
  }

  /** The public constructor: either of the two checks may reject the arguments. */
  method NewHalfGaussian(lib: Lib, dims: int, bounds: BoundsArg) returns (r: Result<HalfGaussian, Error>)
    ensures r.Failure? <==> HalfGaussianSetup(dims, bounds).Failure?
    ensures r.Failure? ==> r.error == HalfGaussianSetup(dims, bounds).error
    ensures r.Success? ==> fresh(r.value)
    ensures r.Success? ==>
      && r.value.lib == lib
      && r.value.names == HalfGaussianSetup(dims, bounds).value.names
      && r.value.bounds == HalfGaussianSetup(dims, bounds).value.bounds
      && ComputeGaussianLnEvidence(lib, OneD(bounds.items), Some(|r.value.names|)) == Success(r.value.lnEvidence)
  {
    var s := HalfGaussianSetup(dims, bounds);
    if s.Failure? {
      return Failure(s.error);
    }
    assert bounds.items == [bounds.items[0], bounds.items[1]];
    var h := new HalfGaussian(lib, dims, bounds.items[0], bounds.items[1]);
    return Success(h);
  }
}
