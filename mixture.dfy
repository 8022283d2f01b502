/**
 * `MixtureOfDistributions`: a likelihood that is a product of independent
 * one-dimensional scipy densities, one per generated parameter name.
 */
module MixtureModel {
  import opened Wrappers
  import opened Numerics
  import opened Base
  import opened MixtureSetup
  import Naming

  /** Exception messages. */
  const NothingToStack: string := "need at least one array to concatenate"

  /** A caller's `bounds` dictionary: the constructor writes into it and keeps it as `self.bounds`. */
  class BoundsDict {
    var entries: seq<(string, Interval)>

    constructor (entries: seq<(string, Interval)>)
      ensures this.entries == entries
    {
      this.entries := entries;
    }
  }

  /**
   * `map_fn`: the builtin `map` or one the caller supplies. Either is taken
   * to apply the function to each name, in order.
   */
  datatype MapFn = BuiltinMap | CallerMap

  /** `mapping[name](x[name])`, the log-density of one parameter at its column. */
  function ColumnLogPdf(lib: Lib, mapping: seq<(string, Frozen)>, row: Row): string -> real
  {
    (name: string) =>
      match Lookup(mapping, name)
      case Some(z) => if name in row then lib.frozenLogPdf(z, row[name]) else 0.0
      case None => 0.0
  }

  /** The same log-density, addressed by the loop iteration that created the name. */
  function TaskLogPdf(lib: Lib, base: BaseMapping, row: Row): Task -> real
  {
    (t: Task) =>
      match FamilyOf(Lower(t.0))
      case Some(f) => if Name(t) in row then lib.frozenLogPdf(base.At(f), row[Name(t)]) else 0.0
      case None => 0.0
  }

  class MixtureOfDistributions {
    const lib: Lib
    var names: seq<string>
    var mapping: seq<(string, Frozen)>
    var bounds: BoundsDict
    var mapFn: MapFn

    /** The field assignments at the end of `__init__`: the names are the mapping's keys. */
    constructor (lib: Lib, mapping: seq<(string, Frozen)>, bounds: BoundsDict, mapFn: MapFn)
      ensures this.lib == lib && this.mapping == mapping && this.bounds == bounds && this.mapFn == mapFn
      ensures names == Keys(mapping)
    {
      this.lib := lib;
      this.mapping := mapping;
      this.names := Keys(mapping);
      this.bounds := bounds;
      this.mapFn := mapFn;
    }

    /**
     * Stacks one row of log-densities per name and sums them: with no names
     * numpy's vstack has nothing to stack and raises ValueError.
     */
    function LogLikelihood(x: Batch): (r: Result<seq<real>, Error>)
      reads this
      requires BatchHas(names, x)
      ensures r.Failure? <==> names == []
      ensures r.Failure? ==> r.error == ValueError(NothingToStack)
      ensures r.Success? ==> |r.value| == |x|
      ensures r.Success? ==> forall j :: 0 <= j < |x| ==> r.value[j] == SumOf(names, ColumnLogPdf(lib, mapping, x[j]))
    {
      var ns, mp := names, mapping;
      var density := (row: Row) => ColumnLogPdf(lib, mp, row);
      if ns == [] then Failure(ValueError(NothingToStack))
      else Success(seq(|x|, j requires 0 <= j < |x| => SumOf(ns, density(x[j]))))
    }
  }

  /**
   * `MixtureOfDistributions(distributions, bounds, distributions_kwargs, map_fn)`.
   * The nested loops fill the mapping and write the missing default ranges
   * into the caller's dictionary in place; the result and that dictionary
   * are exactly what `MixtureInit` describes, including the entries written
   * before an exception.
   */
  method NewMixture(lib: Lib, distributions: Option<seq<(string, int)>>, bounds: BoundsDict?,
                    kw: DistKwargs, mapFn: Option<MapFn>)
    returns (r: Result<MixtureOfDistributions, Error>)
    modifies bounds
    ensures var p := MixtureInit(distributions, if bounds == null then [] else old(bounds.entries), kw);
      && (r.Failure? <==> p.error.Some?)
      && (r.Failure? ==> r.error == p.error.value)
      && (bounds != null ==> bounds.entries == p.tables.bounds)
      && (r.Success? ==>
            && r.value.lib == lib
            && r.value.names == Keys(p.tables.mapping)
            && r.value.mapping == p.tables.mapping
            && r.value.bounds.entries == p.tables.bounds
            && r.value.mapFn == if mapFn.Some? then mapFn.value else BuiltinMap)
    ensures r.Success? && bounds != null ==> r.value.bounds == bounds
    ensures r.Success? && bounds == null ==> fresh(r.value.bounds)
    ensures r.Success? ==> fresh(r.value)
  {
    var b0 := if bounds == null then [] else bounds.entries;
    if UnknownKwargs(kw) {
      return Failure(ValueError(UnknownDistributions));
    }
    var baseResult := BuildBaseMapping(kw);
    if baseResult.Failure? {
      return Failure(baseResult.error);
    }
    var base := baseResult.value;
    var dists := DistributionsOrDefault(distributions);
    ghost var tb0 := Tables([], b0);
    assert MixtureInit(distributions, b0, kw) == Fill(base, Tasks(dists), tb0);
    var target := bounds;
    if target == null {
      target := new BoundsDict([]);
    }
    var mapping, error := FillAll(base, dists, tb0, target);
    if error.Some? {
      return Failure(error.value);
    }
    var model := new MixtureOfDistributions(lib, mapping, target, if mapFn.Some? then mapFn.value else BuiltinMap);
    return Success(model);
  }

  /** The outer loop `for dist, n in distributions.items()`, stopping at the first exception. */
  method FillAll(base: BaseMapping, dists: seq<(string, int)>, ghost tb0: Tables, target: BoundsDict)
    returns (mapping: seq<(string, Frozen)>, error: Option<Error>)
    requires tb0 == Tables([], target.entries)
    modifies target
    ensures Fill(base, Tasks(dists), tb0) == Progress(Tables(mapping, target.entries), error)
  {
    mapping := [];
    for k := 0 to |dists|
      invariant Fill(base, Tasks(dists[..k]), tb0) == Progress(Tables(mapping, target.entries), None)
    {
      TasksAppend(dists[..k], dists[k]);
      assert dists[..k] + [dists[k]] == dists[..k + 1];
      mapping, error := FillBlock(base, Tasks(dists[..k]), dists[k].0, dists[k].1, tb0, mapping, target);
      if error.Some? {
        TasksPrefix(dists, k + 1);
        FillStops(base, Tasks(dists), |Tasks(dists[..k + 1])|, tb0);
        return;
      }
    }
    assert dists[..|dists|] == dists;
    error := None;
  }

  /**
   * The inner loop `for i in range(n)` for one distribution, continuing the
   * run over the earlier tasks `done`; it stops at the first exception.
   */
  method FillBlock(base: BaseMapping, ghost done: seq<Task>, dist: string, n: int, ghost tb0: Tables,
                   mapping0: seq<(string, Frozen)>, target: BoundsDict)
    returns (mapping: seq<(string, Frozen)>, error: Option<Error>)
    requires Fill(base, done, tb0) == Progress(Tables(mapping0, target.entries), None)
    modifies target
    ensures Fill(base, done + Block(dist, n), tb0) == Progress(Tables(mapping, target.entries), error)
  {
    mapping := mapping0;
    assert done + Block(dist, 0) == done;
    var count := if n < 0 then 0 else n;
    assert Block(dist, count) == Block(dist, n);
    for i := 0 to count
      invariant Fill(base, done + Block(dist, i), tb0) == Progress(Tables(mapping, target.entries), None)
    {
      FillAppend(base, done + Block(dist, i), (dist, i), tb0);
      BlockGrow(dist, i);
      assert done + Block(dist, i) + [(dist, i)] == done + (Block(dist, i) + [(dist, i)]);
      var name := Naming.Indexed(dist, i);
      var family := FamilyOf(Lower(dist));
      if family.None? {
        BlockStops(base, done, dist, n, i + 1, tb0);
        return mapping, Some(KeyError(Lower(dist)));
      }
      mapping := Assign(mapping, name, base.At(family.value));
      if Lookup(target.entries, name).None? {
        var range := DefaultRange(dist);
        if range.None? {
          BlockStops(base, done, dist, n, i + 1, tb0);
          return mapping, Some(KeyError(dist));
        }
        target.entries := Assign(target.entries, name, range.value);
      }
    }
    error := None;
  }

  /** An exception part-way through a block ends the run over the whole block. */
  lemma BlockStops(base: BaseMapping, done: seq<Task>, dist: string, n: int, i: nat, tb: Tables)
    requires i <= n
    requires Fill(base, done + Block(dist, i), tb).error.Some?
    ensures Fill(base, done + Block(dist, n), tb) == Fill(base, done + Block(dist, i), tb)
  {
    var ts, pre := done + Block(dist, n), done + Block(dist, i);
    BlockPrefix(dist, n, i);
    PrefixOfAppend(done, Block(dist, n), i);
    assert ts[..|pre|] == pre;
    FillStopsAt(base, ts, pre, tb);
  }

  /**
   * The log-likelihood of a constructed mixture is the sum, over the loop's
   * iterations in order, of the family density of each generated name at its
   * column.
   */
  lemma BuiltLogLikelihood(m: MixtureOfDistributions, distributions: Option<seq<(string, int)>>,
                           bounds: seq<(string, Interval)>, kw: DistKwargs, x: Batch, j: nat)
    requires DistinctKeys(DistributionsOrDefault(distributions))
    requires MixtureInit(distributions, bounds, kw).error.None?
    requires m.mapping == MixtureInit(distributions, bounds, kw).tables.mapping
    requires m.names == Keys(m.mapping)
    requires BatchHas(m.names, x) && j < |x|
    ensures m.LogLikelihood(x).Success? <==> |Tasks(DistributionsOrDefault(distributions))| > 0
    ensures m.LogLikelihood(x).Success? ==>
      m.LogLikelihood(x).value[j]
        == SumOf(Tasks(DistributionsOrDefault(distributions)), TaskLogPdf(m.lib, BuildBaseMapping(kw).value, x[j]))
  {
    var dists := DistributionsOrDefault(distributions);
    var ts := Tasks(dists);
    var base := BuildBaseMapping(kw).value;
    var tb0 := Tables([], bounds);
    assert MixtureInit(distributions, bounds, kw) == Fill(base, ts, tb0);
    TaskNamesDistinct(dists);
    FillMapping(base, ts, tb0);
    assert m.names == TaskNames(ts);
    SumOfCongruent(m.names, ColumnLogPdf(m.lib, m.mapping, x[j]), ts, TaskLogPdf(m.lib, base, x[j]));
  }

  /** A default model: six parameters, and the caller's empty dictionary now holds their ranges. */
  method DefaultMixtureModel(lib: Lib) returns (m: MixtureOfDistributions, bounds: BoundsDict)
    ensures m.names == ["gaussian_0", "gaussian_1", "uniform_0", "uniform_1", "gamma_0", "gamma_1"]
    ensures m.bounds == bounds && Lookup(bounds.entries, "gamma_1") == Some(Interval(0.0, 10.0))
    ensures m.mapFn == BuiltinMap
  {
    bounds := new BoundsDict([]);
    DefaultMixture();
    var r := NewMixture(lib, None, bounds, [], None);
    m := r.value;
  }
}
