/**
 * `SlabSpike`: a two-component Gaussian mixture whose components share a
 * zero mean, one with unit covariance (the slab) and one with a small
 * diagonal covariance (the spike). Only the arguments it hands to its parent
 * class are modelled; the parent, nessai_models/gaussianmixture.py, is not
 * part of this model.
 */
module SlabSpikeModel {
  import opened Wrappers
  import GaussianModel

  /** Exception messages. */
  const NegativeDimensions: string := "negative dimensions are not allowed"

  /** One mixture component of the `config` argument. */
  datatype Component = Component(mean: seq<real>, cov: seq<seq<real>>)

  /** A keyword argument forwarded to the parent: `dims`, a `config` list, or anything else. */
  datatype Arg = IntArg(i: int) | ConfigArg(components: seq<Component>) | OtherArg

  /** The parent call `super().__init__(dims=dims, **kwargs)`. */
  datatype Forwarded = Forwarded(dims: int, kwargs: seq<(string, Arg)>)

  const DefaultDims: int := 3
  const DefaultSpikeScale: real := 0.001

  /** `np.zeros(n)`. */
  function Zeros(n: nat): (v: seq<real>)
    ensures |v| == n && forall i :: 0 <= i < n ==> v[i] == 0.0
  {
    seq(n, _ => 0.0)
  }

  /** `np.diag(np.ones(n) * scale)`. */
  function ScaledIdentity(n: nat, scale: real): (m: seq<seq<real>>)
    ensures |m| == n
    ensures forall i :: 0 <= i < n ==> |m[i]| == n
    ensures forall i, k :: 0 <= i < n && 0 <= k < n ==> m[i][k] == (if i == k then scale else 0.0)
  {
    seq(n, i => seq(n, k => if i == k then 1.0 * scale else 0.0))
  }

  /** The slab and the spike, sharing one zero mean. */
  function DefaultConfig(dims: nat, spikeScale: real): seq<Component>
  {
    var mu := Zeros(dims);
    [Component(mu, GaussianModel.Identity(dims)), Component(mu, ScaledIdentity(dims, spikeScale))]
  }

  /**
   * The keyword arguments `SlabSpike.__init__` passes on. Without a
   * caller's `config` it inserts the default one, and `np.zeros` rejects a
   * negative `dims` before anything is inserted. Python binds `dims` and
   * `spike_scale` to their own parameters, so they never reach `kwargs`.
   */
  method SlabSpikeArguments(dims: int, spikeScale: real, kwargs: seq<(string, Arg)>)
    returns (r: Result<Forwarded, Error>)
    requires "dims" !in Keys(kwargs) && "spike_scale" !in Keys(kwargs)
    ensures "config" in Keys(kwargs) ==> r == Success(Forwarded(dims, kwargs))
    ensures "config" !in Keys(kwargs) && dims < 0 ==>
      r == Failure(ValueError(NegativeDimensions))
    ensures "config" !in Keys(kwargs) && dims >= 0 ==>
      && r.Success?
      && r.value.dims == dims
      && Keys(r.value.kwargs) == Keys(kwargs) + ["config"]
      && Lookup(r.value.kwargs, "config") == Some(ConfigArg(DefaultConfig(dims, spikeScale)))
      && (forall k :: k != "config" ==> Lookup(r.value.kwargs, k) == Lookup(kwargs, k))
  {
    var forwarded := kwargs;
    if "config" !in Keys(forwarded) {
      if dims < 0 {
        return Failure(ValueError(NegativeDimensions));
      }
      forwarded := Assign(forwarded, "config", ConfigArg(DefaultConfig(dims, spikeScale)));
      AssignKeys(kwargs, "config", ConfigArg(DefaultConfig(dims, spikeScale)));
      forall k ensures Lookup(forwarded, k) == if k == "config" then Some(ConfigArg(DefaultConfig(dims, spikeScale))) else Lookup(kwargs, k) {
        AssignLookup(kwargs, "config", ConfigArg(DefaultConfig(dims, spikeScale)), k);
      }
    }
    return Success(Forwarded(dims, forwarded));
  }

  /**
   * The default configuration has exactly two components with the same
   * zero mean of length dims; the slab's covariance is the identity and the
   * spike's is spike_scale on the diagonal.
   */
  lemma DefaultConfigShape(dims: nat, spikeScale: real)
    ensures var c := DefaultConfig(dims, spikeScale);
      && |c| == 2
      && c[0].mean == c[1].mean
      && |c[0].mean| == dims && (forall i :: 0 <= i < dims ==> c[0].mean[i] == 0.0)
      && |c[0].cov| == dims && |c[1].cov| == dims
      && (forall i, k :: 0 <= i < dims && 0 <= k < dims ==>
            |c[0].cov[i]| == dims && c[0].cov[i][k] == (if i == k then 1.0 else 0.0))
      && (forall i, k :: 0 <= i < dims && 0 <= k < dims ==>
            |c[1].cov[i]| == dims && c[1].cov[i][k] == (if i == k then spikeScale else 0.0))
  {
  }

  /** With every default, three parameters and a spike of width 0.001. */
  method DefaultSlabSpike() returns (r: Result<Forwarded, Error>)
    ensures r.Success? && r.value.dims == 3
    ensures Lookup(r.value.kwargs, "config") == Some(ConfigArg(DefaultConfig(3, 0.001)))
  {
    r := SlabSpikeArguments(DefaultDims, DefaultSpikeScale, []);
  }
}
