/**
 * The shared bounds/prior core (nessai_models/base.py): parameter naming and
 * bounds for n-dimensional models, the uniform log-prior, and the affine maps
 * to and from the unit hypercube. The mixin's methods are written here as a
 * stateless utility that every model calls with its own names and bounds.
 */
module Base {
  import opened Wrappers
  import opened Numerics
  import Naming

  /** Exception messages. */
  const BadLength: string := "bounds must have length 2."
  const BadBoundsType: string := "Invalid type for `bounds` argument."

  /** A prior range `[lo, hi]`. */
  datatype Interval = Interval(lo: real, hi: real)

  /** One sample of a batch: a value per column (parameters and auxiliary fields). */
  type Row = map<string, real>

  /** A batch of samples (a structured array, row by row). */
  type Batch = seq<Row>

  predicate RowHas(names: seq<string>, row: Row)
  {
    forall n :: n in names ==> n in row
  }

  /** Every parameter is a column of every sample. */
  predicate BatchHas(names: seq<string>, x: Batch)
  {
    forall j :: 0 <= j < |x| ==> RowHas(names, x[j])
  }

  predicate Bounded(names: seq<string>, bounds: map<string, Interval>)
  {
    forall n :: n in names ==> n in bounds
  }

  /** No parameter has an empty range (the hypercube maps divide by hi - lo). */
  predicate NonDegenerate(names: seq<string>, bounds: map<string, Interval>)
    requires Bounded(names, bounds)
  {
    forall n :: n in names ==> bounds[n].hi != bounds[n].lo
  }

  /**
   * The Python value passed as `bounds`: a list, tuple or 1-d array of
   * numbers, or a value that is neither a Sequence nor an ndarray (a number,
   * None, a dict, a set). Strings and nested or 2-d bounds are not modelled.
   */
  datatype BoundsArg = SequenceArg(items: seq<real>) | NonSequenceArg

  /** What NDimensionalModel.__init__ stores: `names` and `bounds`. */
  datatype Setup = Setup(names: seq<string>, bounds: map<string, Interval>)

  /** `[f'x_{i}' for i in range(dims)]`. */
  function XNames(dims: int): seq<string>
  {
    Naming.IndexedNames("x", dims)
  }

  /** Every name of `names` has the range `iv`, and nothing else has a range. */
  predicate SharedBounds(s: Setup, iv: Interval)
  {
    && (forall n :: n in s.bounds ==> n in s.names)
    && (forall n :: n in s.names ==> n in s.bounds && s.bounds[n] == iv)
  }

  /** NDimensionalModel.__init__: names x_0 .. x_{dims-1}, all sharing one length-2 bounds pair. */
  function NDimensionalInit(dims: int, bounds: BoundsArg): (r: Result<Setup, Error>)
    ensures r.Success? <==> bounds.SequenceArg? && |bounds.items| == 2
    ensures bounds.NonSequenceArg? ==> r.Failure? && r.error.TypeError?
    ensures bounds.SequenceArg? && |bounds.items| != 2 ==> r.Failure? && r.error.ValueError?
    ensures r.Success? ==>
      && r.value.names == XNames(dims)
      && SharedBounds(r.value, Interval(bounds.items[0], bounds.items[1]))
  {
    var names := XNames(dims);
    match bounds
    case SequenceArg(items) =>
      if |items| == 2 then
        var iv := Interval(items[0], items[1]);
        Success(Setup(names, map n | n in names :: iv))
      else
        Failure(ValueError(BadLength))
    case NonSequenceArg =>
      Failure(TypeError(BadBoundsType))
  }

  /** A successful set-up has distinct names, each with exactly one range. */
  lemma NDimensionalInitNames(dims: int, bounds: BoundsArg)
    requires NDimensionalInit(dims, bounds).Success?
    ensures var s := NDimensionalInit(dims, bounds).value;
      && Naming.Distinct(s.names)
      && |s.names| == (if dims < 0 then 0 else dims)
      && Bounded(s.names, s.bounds)
  {
    Naming.IndexedNamesDistinct("x", dims);
  }

  // ---------------------------------------------------------------------------
  // UniformPriorMixin.log_prior

  /** log(hi - lo) of one parameter. */
  function LnWidth(lib: Lib, bounds: map<string, Interval>, n: string): (w: real)
  {
    if n in bounds then lib.ln(bounds[n].hi - bounds[n].lo) else 0.0
  }

  /** `np.sum(np.log(self.upper_bounds - self.lower_bounds))`. */
  function SumLnWidths(lib: Lib, names: seq<string>, bounds: map<string, Interval>): real
  {
    SumOf(names, LnWidths(lib, bounds))
  }

  function LnWidths(lib: Lib, bounds: map<string, Interval>): string -> real
  {
    n => LnWidth(lib, bounds, n)
  }

  /**
   * UniformPriorMixin.log_prior: `log(in_bounds(x)) - sum(log(upper - lower))`.
   * The in-bounds test belongs to the sampling framework; it is called once,
   * on the whole batch, and answers one boolean per sample.
   */
  function UniformLogPrior(lib: Lib, inBounds: Batch -> seq<bool>, names: seq<string>,
                           bounds: map<string, Interval>, x: Batch): (r: seq<ExtReal>)
    requires |inBounds(x)| == |x|
    ensures |r| == |x|
    ensures forall j :: 0 <= j < |x| && inBounds(x)[j] ==> r[j] == Fin(-SumLnWidths(lib, names, bounds))
    ensures forall j :: 0 <= j < |x| && !inBounds(x)[j] ==> r[j] == NegInf
  {
    var ok := inBounds(x);
    var total := SumLnWidths(lib, names, bounds);
    seq(|x|, j requires 0 <= j < |x| => Minus(LogIndicator(ok[j]), total))
  }

  /** The framework's in-bounds test: every parameter within its range, both ends included. */
  function InBoundsInclusive(names: seq<string>, bounds: map<string, Interval>): Batch -> seq<bool>
  {
    x => seq(|x|, j requires 0 <= j < |x| => InRange(names, bounds, x[j]))
  }

  predicate InRange(names: seq<string>, bounds: map<string, Interval>, row: Row)
  {
    forall n :: n in names ==> n in bounds && n in row && bounds[n].lo <= row[n] <= bounds[n].hi
  }

  /** The unstructured view of a sample: its parameter values in names order. */
  function View(names: seq<string>, row: Row): (v: seq<real>)
    requires RowHas(names, row)
    ensures |v| == |names|
    ensures forall i :: 0 <= i < |names| ==> v[i] == row[names[i]]
  {
    seq(|names|, i requires 0 <= i < |names| => row[names[i]])
  }

  /** With every parameter on the same range, the summed log-widths are dims * log(width). */
  lemma SharedWidths(lib: Lib, s: Setup, iv: Interval)
    requires SharedBounds(s, iv)
    ensures SumLnWidths(lib, s.names, s.bounds) == |s.names| as real * lib.ln(iv.hi - iv.lo)
  {
    var c := lib.ln(iv.hi - iv.lo);
    forall i | 0 <= i < |s.names|
      ensures LnWidths(lib, s.bounds)(s.names[i]) == c
    {
    }
    SumOfConstant(s.names, LnWidths(lib, s.bounds), c);
  }

  // ---------------------------------------------------------------------------
  // UniformPriorMixin.to_unit_hypercube / from_unit_hypercube

  /** `(x - lower) / (upper - lower)`: a value within a proper range lands in [0, 1]. */
  function ToUnit(iv: Interval, v: real): (u: real)
    requires iv.hi != iv.lo
    ensures iv.lo < iv.hi && iv.lo <= v <= iv.hi ==> 0.0 <= u <= 1.0
  {
    var w := iv.hi - iv.lo;
    assert iv.lo < iv.hi && iv.lo <= v <= iv.hi ==> 0.0 <= (v - iv.lo) / w <= 1.0 by {
      if iv.lo < iv.hi && iv.lo <= v <= iv.hi {
        assert (v - iv.lo) / w <= w / w;
      }
    }
    (v - iv.lo) / w
  }

  /** `(upper - lower) * x + lower`: a value in [0, 1] lands within the range. */
  function FromUnit(iv: Interval, u: real): (v: real)
    ensures iv.lo <= iv.hi && 0.0 <= u <= 1.0 ==> iv.lo <= v <= iv.hi
  {
    assert iv.lo <= iv.hi && 0.0 <= u <= 1.0 ==> (iv.hi - iv.lo) * u <= iv.hi - iv.lo by {
      if iv.lo <= iv.hi && 0.0 <= u <= 1.0 {
        assert (iv.hi - iv.lo) * u <= (iv.hi - iv.lo) * 1.0;
      }
    }
    (iv.hi - iv.lo) * u + iv.lo
  }

  /** The affine map sends the lower bound to 0 and the upper bound to 1. */
  lemma ToUnitEnds(iv: Interval)
    requires iv.hi != iv.lo
    ensures ToUnit(iv, iv.lo) == 0.0 && ToUnit(iv, iv.hi) == 1.0
  {
    var w := iv.hi - iv.lo;
    assert ToUnit(iv, iv.lo) == 0.0 / w == 0.0;
    assert ToUnit(iv, iv.hi) == w / w;
    DivSelf(w);
  }

  /** The two affine maps are inverse to each other over the reals. */
  lemma UnitRoundTrip(iv: Interval, v: real)
    requires iv.hi != iv.lo
    ensures FromUnit(iv, ToUnit(iv, v)) == v
    ensures ToUnit(iv, FromUnit(iv, v)) == v
  {
    var w := iv.hi - iv.lo;
    assert w * ((v - iv.lo) / w) == v - iv.lo;
    assert (w * v + iv.lo - iv.lo) / w == v;
  }

  /** A sample after the columns in `done` have been rescaled to the unit hypercube. */
  function ToUnitRowOn(done: seq<string>, bounds: map<string, Interval>, row: Row): Row
    requires Bounded(done, bounds) && NonDegenerate(done, bounds)
  {
    map k | k in row :: if k in done then ToUnit(bounds[k], row[k]) else row[k]
  }

  /** A sample after the columns in `done` have been mapped back from the unit hypercube. */
  function FromUnitRowOn(done: seq<string>, bounds: map<string, Interval>, row: Row): Row
    requires Bounded(done, bounds)
  {
    map k | k in row :: if k in done then FromUnit(bounds[k], row[k]) else row[k]
  }

  /**
   * UniformPriorMixin.to_unit_hypercube: copy the batch, then overwrite each
   * parameter column with its rescaled values; other columns are copied.
   */
  method ToUnitHypercube(names: seq<string>, bounds: map<string, Interval>, x: Batch) returns (out: Batch)
    requires Bounded(names, bounds) && NonDegenerate(names, bounds) && BatchHas(names, x)
    ensures |out| == |x|
    ensures forall j :: 0 <= j < |x| ==> out[j] == ToUnitRowOn(names, bounds, x[j])
    ensures forall j :: 0 <= j < |x| ==> out[j].Keys == x[j].Keys
    ensures forall j, n :: 0 <= j < |x| && n in names ==> out[j][n] == ToUnit(bounds[n], x[j][n])
    ensures forall j, k :: 0 <= j < |x| && k in x[j] && k !in names ==> out[j][k] == x[j][k]
  {
    out := x;
    for i := 0 to |names|
      invariant |out| == |x|
      invariant forall j :: 0 <= j < |x| ==> out[j] == ToUnitRowOn(names[..i], bounds, x[j])
    {
      var n := names[i];
      var iv := bounds[n];
      out := seq(|out|, j requires 0 <= j < |out| => out[j][n := ToUnit(iv, x[j][n])]);
      assert names[..i + 1] == names[..i] + [n];
    }
    assert names[..|names|] == names;
  }

  /** UniformPriorMixin.from_unit_hypercube: the inverse rescaling, column by column. */
  method FromUnitHypercube(names: seq<string>, bounds: map<string, Interval>, x: Batch) returns (out: Batch)
    requires Bounded(names, bounds) && BatchHas(names, x)
    ensures |out| == |x|
    ensures forall j :: 0 <= j < |x| ==> out[j] == FromUnitRowOn(names, bounds, x[j])
    ensures forall j :: 0 <= j < |x| ==> out[j].Keys == x[j].Keys
    ensures forall j, n :: 0 <= j < |x| && n in names ==> out[j][n] == FromUnit(bounds[n], x[j][n])
    ensures forall j, k :: 0 <= j < |x| && k in x[j] && k !in names ==> out[j][k] == x[j][k]
  {
    out := x;
    for i := 0 to |names|
      invariant |out| == |x|
      invariant forall j :: 0 <= j < |x| ==> out[j] == FromUnitRowOn(names[..i], bounds, x[j])
    {
      var n := names[i];
      var iv := bounds[n];
      out := seq(|out|, j requires 0 <= j < |out| => out[j][n := FromUnit(iv, x[j][n])]);
      assert names[..i + 1] == names[..i] + [n];
    }
    assert names[..|names|] == names;
  }

  /** from_unit_hypercube undoes to_unit_hypercube, and the other way round. */
  lemma HypercubeRoundTrip(names: seq<string>, bounds: map<string, Interval>, row: Row)
    requires Bounded(names, bounds) && NonDegenerate(names, bounds)
    ensures FromUnitRowOn(names, bounds, ToUnitRowOn(names, bounds, row)) == row
    ensures ToUnitRowOn(names, bounds, FromUnitRowOn(names, bounds, row)) == row
  {
    forall k | k in row && k in names {
      UnitRoundTrip(bounds[k], row[k]);
    }
  }

  /** to_unit_hypercube sends every parameter's lower bound to 0 and upper bound to 1. */
  lemma ToUnitRowEnds(names: seq<string>, bounds: map<string, Interval>, row: Row, n: string)
    requires Bounded(names, bounds) && NonDegenerate(names, bounds)
    requires n in names && n in row
    ensures row[n] == bounds[n].lo ==> ToUnitRowOn(names, bounds, row)[n] == 0.0
    ensures row[n] == bounds[n].hi ==> ToUnitRowOn(names, bounds, row)[n] == 1.0
  {
    ToUnitEnds(bounds[n]);
  }

  // ---------------------------------------------------------------------------
  // Per-name accumulation `log_l = zeros(x.size); for n in names: log_l += f(x[n])`

  /** The marginal log-density of one sample: the sum over names, in order, of `logpdf` at that column. */
  function MarginalSum(logpdf: real -> real, names: seq<string>, row: Row): real
  {
    SumOf(names, AtColumn(logpdf, row))
  }

  function AtColumn(logpdf: real -> real, row: Row): string -> real
  {
    n => if n in row then logpdf(row[n]) else 0.0
  }

  /**
   * The accumulation loop shared by the half-Gaussian and the legacy unit
   * Gaussian: every sample starts at 0 and receives one term per name.
   */
  method AccumulateMarginals(logpdf: real -> real, names: seq<string>, x: Batch) returns (logL: seq<real>)
    requires BatchHas(names, x)
    ensures |logL| == |x|
    ensures forall j :: 0 <= j < |x| ==> logL[j] == MarginalSum(logpdf, names, x[j])
  {
    logL := seq(|x|, j => 0.0);
    for i := 0 to |names|
      invariant |logL| == |x|
      invariant forall j :: 0 <= j < |x| ==> logL[j] == MarginalSum(logpdf, names[..i], x[j])
    {
      var n := names[i];
      logL := seq(|x|, j requires 0 <= j < |x| => logL[j] + logpdf(x[j][n]));
      assert names[..i + 1][..i] == names[..i];
    }
    assert names[..|names|] == names;
  }

  /** When every column holds the same value, the marginal sum is dims times one term. */
  lemma MarginalSumConstant(logpdf: real -> real, names: seq<string>, row: Row, v: real)
    requires RowHas(names, row)
    requires forall n :: n in names ==> row[n] == v
    ensures MarginalSum(logpdf, names, row) == |names| as real * logpdf(v)
  {
    forall i | 0 <= i < |names|
      ensures AtColumn(logpdf, row)(names[i]) == logpdf(v)
    {
    }
    SumOfConstant(names, AtColumn(logpdf, row), logpdf(v));
  }
}
