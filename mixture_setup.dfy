/**
 * What `MixtureOfDistributions.__init__` computes, stated on values: the
 * distribution families, their default prior ranges, the frozen scipy
 * distributions built from the keyword arguments, and the fill of the
 * name-to-distribution and name-to-bounds dictionaries.
 */
module MixtureSetup {
  import opened Wrappers
  import opened Numerics
  import opened Base
  import Naming

  /** Exception messages. */
  const UnexpectedKeyword: string := "got an unexpected keyword argument"
  const MultipleValues: string := "got multiple values for argument"
  const MissingShape: string := "missing 1 required positional argument: 'a'"
  const UnknownDistributions: string := "distribution_kwargs contains unknown distributions"

  /** The four distribution names. */
  const GaussianKey: string := "gaussian"
  const UniformKey: string := "uniform"
  const GammaKey: string := "gamma"
  const HalfNormKey: string := "halfnorm"

  /** The keys of `bounds_mapping`. */
  const KnownDistributions: set<string> := {GaussianKey, UniformKey, GammaKey, HalfNormKey}

  /** `bounds_mapping[dist]`: looked up by the key exactly as written. */
  function DefaultRange(dist: string): (r: Option<Interval>)
    ensures r.Some? <==> dist in KnownDistributions
    ensures r.Some? ==> r.value.lo < r.value.hi
  {
    if dist == GaussianKey then Some(Interval(-10.0, 10.0))
    else if dist == UniformKey then Some(Interval(-5.0, 5.0))
    else if dist == GammaKey then Some(Interval(0.0, 10.0))
    else if dist == HalfNormKey then Some(Interval(0.0, 10.0))
    else None
  }

  /** The keys of `base_mapping` and the scipy family each one freezes. */
  function FamilyOf(key: string): (r: Option<Family>)
    ensures r.Some? <==> key in KnownDistributions
  {
    if key == GaussianKey then Some(Norm)
    else if key == UniformKey then Some(Uniform)
    else if key == GammaKey then Some(Gamma)
    else if key == HalfNormKey then Some(HalfNorm)
    else None
  }

  /** `str.lower` on ASCII letters. */
  function LowerChar(c: char): char
  {
    if 'A' <= c <= 'Z' then (c as int + 32) as char else c
  }

  function Lower(s: string): (r: string)
    ensures |r| == |s|
    ensures forall i :: 0 <= i < |s| ==> r[i] == LowerChar(s[i])
  {
    seq(|s|, i requires 0 <= i < |s| => LowerChar(s[i]))
  }

  /** A name without capitals is its own lower case. */
  lemma LowerFixed(s: string)
    requires forall i :: 0 <= i < |s| ==> !('A' <= s[i] <= 'Z')
    ensures Lower(s) == s
  {
  }

  /** The four distribution names are already lower case. */
  lemma KnownLower(d: string)
    requires d in KnownDistributions
    ensures Lower(d) == d
  {
    if d == "gaussian" {
      LowerFixed("gaussian");
    } else if d == "uniform" {
      LowerFixed("uniform");
    } else if d == "gamma" {
      LowerFixed("gamma");
    } else {
      LowerFixed("halfnorm");
    }
  }

  /** Lowering twice is lowering once. */
  lemma LowerIdempotent(s: string)
    ensures Lower(Lower(s)) == Lower(s)
  {
    var l := Lower(s);
    forall i | 0 <= i < |l| ensures Lower(l)[i] == l[i] {
      assert !('A' <= l[i] <= 'Z');
    }
  }

  type Kwargs = map<string, real>

  /** `distributions_kwargs`: distribution name to keyword arguments, in insertion order. */
  type DistKwargs = seq<(string, Kwargs)>

  /** The parameters scipy's argument parser accepts for each family. */
  function Parameters(f: Family): set<string>
  {
    if f == Gamma then {"a", "loc", "scale"} else {"loc", "scale"}
  }

  /**
   * `stats.<family>(*positional, **kw)`: scipy binds the arguments when the
   * distribution is frozen and raises TypeError for an unknown keyword, for
   * a keyword already given positionally, and for gamma's missing shape `a`.
   */
  function Freeze(f: Family, positional: Kwargs, kw: Kwargs): (r: Result<Frozen, Error>)
    ensures r.Failure? ==> r.error.TypeError?
  {
    if !(kw.Keys <= Parameters(f)) then Failure(TypeError(UnexpectedKeyword))
    else if !(kw.Keys !! positional.Keys) then Failure(TypeError(MultipleValues))
    else if f == Gamma && "a" !in positional.Keys + kw.Keys then
      Failure(TypeError(MissingShape))
    else Success(Frozen(f, positional + kw))
  }

  /** The frozen distribution keeps every argument it was given, and fails only with TypeError. */
  lemma FreezeArguments(f: Family, positional: Kwargs, kw: Kwargs)
    ensures Freeze(f, positional, kw).Success?
        <==> kw.Keys <= Parameters(f) && kw.Keys !! positional.Keys
             && (f == Gamma ==> "a" in positional.Keys + kw.Keys)
    ensures Freeze(f, positional, kw).Failure? ==> Freeze(f, positional, kw).error.TypeError?
    ensures Freeze(f, positional, kw).Success? ==>
      var z := Freeze(f, positional, kw).value;
      && z.family == f
      && (forall k :: k in kw ==> k in z.kwargs && z.kwargs[k] == kw[k])
      && (forall k :: k in positional ==> k in z.kwargs && z.kwargs[k] == positional[k])
      && z.kwargs.Keys == positional.Keys + kw.Keys
  {
  }

  /** `base_mapping`: one frozen distribution per family. */
  datatype BaseMapping = BaseMapping(gaussian: Frozen, uniform: Frozen, gamma: Frozen, halfnorm: Frozen)
  {
    function At(f: Family): Frozen
    {
      match f
      case Norm => gaussian
      case Uniform => uniform
      case Gamma => gamma
      case HalfNorm => halfnorm
    }
  }

  /** `distributions_kwargs.get(key, default)`. */
  function KwargsFor(kw: DistKwargs, key: string, default: Kwargs): Kwargs
  {
    match Lookup(kw, key)
    case Some(v) => v
    case None => default
  }

  /** `set(distributions_kwargs).difference(bounds_mapping)` is not empty. */
  predicate UnknownKwargs(kw: DistKwargs)
  {
    exists k :: k in Keys(kw) && k !in KnownDistributions
  }

  /**
   * The uniform distribution is placed on the default uniform range:
   * loc is its lower end and scale its width (`np.ptp`).
   */
  const UniformPlacement: Kwargs := map["loc" := -5.0, "scale" := 5.0 - -5.0]

  /** Gamma's shape when no keyword arguments are given for it. */
  const DefaultGammaKwargs: Kwargs := map["a" := 1.99]

  /** `base_mapping`, built in the order gaussian, uniform, gamma, halfnorm. */
  function BuildBaseMapping(kw: DistKwargs): (r: Result<BaseMapping, Error>)
    ensures r.Failure? ==> r.error.TypeError?
  {
    var g :- Freeze(Norm, map[], KwargsFor(kw, GaussianKey, map[]));
    var u :- Freeze(Uniform, UniformPlacement, KwargsFor(kw, UniformKey, map[]));
    var a :- Freeze(Gamma, map[], KwargsFor(kw, GammaKey, DefaultGammaKwargs));
    var h :- Freeze(HalfNorm, map[], KwargsFor(kw, HalfNormKey, map[]));
    Success(BaseMapping(g, u, a, h))
  }

  /** Without keyword arguments every family is frozen with scipy's defaults, gamma with a = 1.99. */
  const DefaultBase: BaseMapping := BaseMapping(
    Frozen(Norm, map[]), Frozen(Uniform, UniformPlacement),
    Frozen(Gamma, DefaultGammaKwargs), Frozen(HalfNorm, map[]))

  /**
   * Each family's entry of the base mapping is a distribution of that family
   * carrying the caller's keywords, and uniform always sits on [-5, 5].
   */
  lemma BaseMappingFamilies(kw: DistKwargs)
    requires BuildBaseMapping(kw).Success?
    ensures var b := BuildBaseMapping(kw).value;
      && (forall f: Family :: b.At(f).family == f)
      && b.uniform.kwargs["loc"] == -5.0 && b.uniform.kwargs["scale"] == 10.0
      && "a" in b.gamma.kwargs
      && (forall f: Family, k :: k in KwargsFor(kw, FamilyName(f), map[]) ==>
            k in b.At(f).kwargs && b.At(f).kwargs[k] == KwargsFor(kw, FamilyName(f), map[])[k])
  {
    var g := Freeze(Norm, map[], KwargsFor(kw, GaussianKey, map[]));
    var u := Freeze(Uniform, UniformPlacement, KwargsFor(kw, UniformKey, map[]));
    var a := Freeze(Gamma, map[], KwargsFor(kw, GammaKey, DefaultGammaKwargs));
    var h := Freeze(HalfNorm, map[], KwargsFor(kw, HalfNormKey, map[]));
    assert g.Success? && u.Success? && a.Success? && h.Success?;
    var b := BaseMapping(g.value, u.value, a.value, h.value);
    assert BuildBaseMapping(kw).value == b;
    FreezeArguments(Norm, map[], KwargsFor(kw, GaussianKey, map[]));
    FreezeArguments(Uniform, UniformPlacement, KwargsFor(kw, UniformKey, map[]));
    FreezeArguments(Gamma, map[], KwargsFor(kw, GammaKey, DefaultGammaKwargs));
    FreezeArguments(HalfNorm, map[], KwargsFor(kw, HalfNormKey, map[]));
    forall f: Family, k | k in KwargsFor(kw, FamilyName(f), map[])
      ensures k in b.At(f).kwargs && b.At(f).kwargs[k] == KwargsFor(kw, FamilyName(f), map[])[k]
    {
    }
  }

  /** Without keyword arguments the base mapping is the default one. */
  lemma BaseMappingDefault()
    ensures BuildBaseMapping([]) == Success(DefaultBase)
  {
    var none: Kwargs := map[];
    assert none + none == none;
    assert UniformPlacement + none == UniformPlacement;
    assert none + DefaultGammaKwargs == DefaultGammaKwargs;
    assert KwargsFor([], GammaKey, DefaultGammaKwargs) == DefaultGammaKwargs;
  }

  /** The key of `base_mapping` that freezes family f. */
  function FamilyName(f: Family): (s: string)
    ensures FamilyOf(s) == Some(f)
  {
    match f
    case Norm => GaussianKey
    case Uniform => UniformKey
    case Gamma => GammaKey
    case HalfNorm => HalfNormKey
  }

  /** One iteration of the inner loop: distribution name and index. */
  type Task = (string, nat)

  /** The name the loop gives a task: `dist + f"_{i}"`. */
  function Name(t: Task): string
  {
    Naming.Indexed(t.0, t.1)
  }

  /** The inner loop over `range(n)`. */
  function Block(dist: string, n: int): (b: seq<Task>)
    ensures |b| == if n < 0 then 0 else n
    ensures forall i :: 0 <= i < |b| ==> b[i] == (dist, i)
  {
    seq(if n < 0 then 0 else n, (i: nat) => (dist, i))
  }

  /** `range(i + 1)` is `range(i)` followed by i. */
  lemma BlockGrow(dist: string, i: nat)
    ensures Block(dist, i + 1) == Block(dist, i) + [(dist, i)]
  {
  }

  /** A prefix reaching into the second part of a concatenation. */
  lemma PrefixOfAppend<T>(a: seq<T>, b: seq<T>, i: nat)
    requires i <= |b|
    ensures (a + b)[..|a| + i] == a + b[..i]
  {
  }

  /** The first i iterations of `range(n)` are `range(i)`. */
  lemma BlockPrefix(dist: string, n: int, i: nat)
    requires i <= n
    ensures Block(dist, n)[..i] == Block(dist, i)
  {
  }

  /** Every iteration of the nested loops, in order. */
  function Tasks(dists: seq<(string, int)>): seq<Task>
  {
    if dists == [] then []
    else Tasks(dists[..|dists| - 1]) + Block(dists[|dists| - 1].0, dists[|dists| - 1].1)
  }

  function TaskNames(ts: seq<Task>): (names: seq<string>)
    ensures |names| == |ts|
    ensures forall i :: 0 <= i < |ts| ==> names[i] == Name(ts[i])
  {
    seq(|ts|, i requires 0 <= i < |ts| => Name(ts[i]))
  }

  /** The names of all tasks but the last, then the last one's. */
  lemma TaskNamesSplit(ts: seq<Task>)
    requires ts != []
    ensures TaskNames(ts) == TaskNames(ts[..|ts| - 1]) + [Name(ts[|ts| - 1])]
    ensures TaskNames(ts[..|ts| - 1]) == TaskNames(ts)[..|ts| - 1]
  {
  }

  /** The two dictionaries the loop fills: `self.mapping` and the caller's `bounds`. */
  datatype Tables = Tables(mapping: seq<(string, Frozen)>, bounds: seq<(string, Interval)>)

  /** The dictionaries after some iterations, and the exception that stopped the loop, if any. */
  datatype Progress = Progress(tables: Tables, error: Option<Error>)

  /**
   * One iteration: the family is looked up by the lower-cased distribution
   * name, the default range by the name as written, and only for a name the
   * bounds do not hold yet.
   */
  function Step(base: BaseMapping, t: Task, tb: Tables): (p: Progress)
    ensures p.error.Some? ==> p.error.value.KeyError?
  {
    var name := Name(t);
    match FamilyOf(Lower(t.0))
    case None => Progress(tb, Some(KeyError(Lower(t.0))))
    case Some(f) =>
      var mapping := Assign(tb.mapping, name, base.At(f));
      if Lookup(tb.bounds, name).Some? then Progress(Tables(mapping, tb.bounds), None)
      else match DefaultRange(t.0)
        case None => Progress(Tables(mapping, tb.bounds), Some(KeyError(t.0)))
        case Some(iv) => Progress(Tables(mapping, Assign(tb.bounds, name, iv)), None)
  }

  /** The loop over the tasks; the first exception leaves the dictionaries as they were then. */
  function Fill(base: BaseMapping, ts: seq<Task>, tb: Tables): (p: Progress)
    ensures p.error.Some? ==> p.error.value.KeyError?
  {
    if ts == [] then Progress(tb, None)
    else
      var p := Fill(base, ts[..|ts| - 1], tb);
      if p.error.Some? then p else Step(base, ts[|ts| - 1], p.tables)
  }

  const DefaultDistributions: seq<(string, int)> := [("gaussian", 2), ("uniform", 2), ("gamma", 2)]

  function DistributionsOrDefault(distributions: Option<seq<(string, int)>>): seq<(string, int)>
  {
    if distributions.Some? then distributions.value else DefaultDistributions
  }

  /**
   * The whole of `__init__` up to the names: the unknown-keyword check, the
   * base mapping, then the loop. The caller's bounds dictionary is mutated in
   * place, so an exception raised in the loop leaves the entries written
   * before it.
   */
  function MixtureInit(distributions: Option<seq<(string, int)>>, bounds: seq<(string, Interval)>,
                       kw: DistKwargs): (p: Progress)
    ensures UnknownKwargs(kw) ==>
      p == Progress(Tables([], bounds), Some(ValueError(UnknownDistributions)))
    ensures p.error.Some? && p.error.value.ValueError? <==> UnknownKwargs(kw)
    ensures p.error.Some? && p.error.value.TypeError? ==> p.tables == Tables([], bounds)
  {
    if UnknownKwargs(kw) then
      Progress(Tables([], bounds), Some(ValueError(UnknownDistributions)))
    else
      match BuildBaseMapping(kw)
      case Failure(e) => Progress(Tables([], bounds), Some(e))
      case Success(base) => Fill(base, Tasks(DistributionsOrDefault(distributions)), Tables([], bounds))
  }

  // ---------------------------------------------------------------------
  // The nested loops, one task at a time

  lemma TasksAppend(dists: seq<(string, int)>, d: (string, int))
    ensures Tasks(dists + [d]) == Tasks(dists) + Block(d.0, d.1)
  {
    assert (dists + [d])[..|dists|] == dists;
  }

  /** Running the loop over more tasks starts with the run over fewer. */
  lemma FillAppend(base: BaseMapping, ts: seq<Task>, t: Task, tb: Tables)
    ensures Fill(base, ts + [t], tb) ==
      var p := Fill(base, ts, tb);
      if p.error.Some? then p else Step(base, t, p.tables)
  {
    assert (ts + [t])[..|ts|] == ts;
  }

  /** Once an exception is raised the remaining tasks change nothing. */
  lemma {:induction false} FillStops(base: BaseMapping, ts: seq<Task>, k: nat, tb: Tables)
    requires k <= |ts|
    requires Fill(base, ts[..k], tb).error.Some?
    ensures Fill(base, ts, tb) == Fill(base, ts[..k], tb)
  {
    if k < |ts| {
      assert ts[..|ts| - 1][..k] == ts[..k];
      FillStops(base, ts[..|ts| - 1], k, tb);
    } else {
      assert ts[..k] == ts;
    }
  }

  /** FillStops, for a prefix given as a sequence. */
  lemma FillStopsAt(base: BaseMapping, ts: seq<Task>, pre: seq<Task>, tb: Tables)
    requires |pre| <= |ts| && ts[..|pre|] == pre
    requires Fill(base, pre, tb).error.Some?
    ensures Fill(base, ts, tb) == Fill(base, pre, tb)
  {
    FillStops(base, ts, |pre|, tb);
  }

  /** The tasks of the first k distributions come first. */
  lemma {:induction false} TasksPrefix(dists: seq<(string, int)>, k: nat)
    requires k <= |dists|
    ensures |Tasks(dists[..k])| <= |Tasks(dists)|
    ensures Tasks(dists)[..|Tasks(dists[..k])|] == Tasks(dists[..k])
  {
    if k < |dists| {
      TasksPrefix(dists[..|dists| - 1], k);
      assert dists[..|dists| - 1][..k] == dists[..k];
    } else {
      assert dists[..k] == dists;
    }
  }

  /** Every task names one of the distributions with an index below its count. */
  lemma {:induction false} TasksMembers(dists: seq<(string, int)>)
    ensures forall i :: 0 <= i < |Tasks(dists)| ==>
      exists k :: 0 <= k < |dists| && Tasks(dists)[i].0 == dists[k].0 && Tasks(dists)[i].1 < dists[k].1
  {
    if dists != [] {
      var init := dists[..|dists| - 1];
      TasksMembers(init);
      var a, b := Tasks(init), Block(dists[|dists| - 1].0, dists[|dists| - 1].1);
      assert Tasks(dists) == a + b;
      forall i | 0 <= i < |Tasks(dists)|
        ensures exists k :: 0 <= k < |dists| && Tasks(dists)[i].0 == dists[k].0 && Tasks(dists)[i].1 < dists[k].1
      {
        if i < |a| {
          var k :| 0 <= k < |init| && a[i].0 == init[k].0 && a[i].1 < init[k].1;
          assert Tasks(dists)[i] == a[i] && init[k] == dists[k];
        } else {
          var k := |dists| - 1;
          assert Tasks(dists)[i] == b[i - |a|] == (dists[k].0, i - |a|);
          assert 0 <= k < |dists| && Tasks(dists)[i].0 == dists[k].0 && Tasks(dists)[i].1 < dists[k].1;
        }
      }
    } else {
      assert Tasks(dists) == [];
    }
  }

  /** Distinct distribution names give distinct loop names. */
  lemma {:induction false} TaskNamesDistinct(dists: seq<(string, int)>)
    requires DistinctKeys(dists)
    ensures Naming.Distinct(TaskNames(Tasks(dists)))
  {
    if dists != [] {
      var init, last := dists[..|dists| - 1], dists[|dists| - 1];
      TaskNamesDistinct(init);
      TasksMembers(init);
      var a, b := Tasks(init), Block(last.0, last.1);
      var ts := Tasks(dists);
      assert ts == a + b;
      forall i, j | 0 <= i < j < |ts| ensures Name(ts[i]) != Name(ts[j]) {
        assert ts[i] != ts[j] by {
          if j < |a| {
            assert TaskNames(a)[i] != TaskNames(a)[j];
            assert ts[i] == a[i] && ts[j] == a[j];
          } else if i >= |a| {
            assert ts[i] == b[i - |a|] && ts[j] == b[j - |a|];
          } else {
            var k :| 0 <= k < |init| && a[i].0 == init[k].0 && a[i].1 < init[k].1;
            assert ts[i] == a[i] && ts[j] == b[j - |a|];
            assert dists[k].0 != dists[|dists| - 1].0;
          }
        }
        if Name(ts[i]) == Name(ts[j]) {
          Naming.IndexedInjective(ts[i].0, ts[i].1, ts[j].0, ts[j].1);
        }
      }
    }
  }

  // ---------------------------------------------------------------------
  // What a completed loop leaves in the two dictionaries

  /** The range a task's name ends up with: the caller's, else the default. */
  function Expected(bounds: seq<(string, Interval)>, t: Task): Option<Interval>
  {
    if Lookup(bounds, Name(t)).Some? then Lookup(bounds, Name(t)) else DefaultRange(t.0)
  }

  /**
   * After a loop that raised nothing, the mapping's keys are the task names in
   * loop order and each maps to the frozen distribution of its family.
   */
  lemma {:induction false} FillMapping(base: BaseMapping, ts: seq<Task>, tb: Tables)
    requires tb.mapping == []
    requires Naming.Distinct(TaskNames(ts))
    requires Fill(base, ts, tb).error.None?
    ensures Keys(Fill(base, ts, tb).tables.mapping) == TaskNames(ts)
    ensures forall i :: 0 <= i < |ts| ==>
      && FamilyOf(Lower(ts[i].0)).Some?
      && Lookup(Fill(base, ts, tb).tables.mapping, Name(ts[i])) == Some(base.At(FamilyOf(Lower(ts[i].0)).value))
  {
    if ts != [] {
      var init, t := ts[..|ts| - 1], ts[|ts| - 1];
      var p := Fill(base, init, tb);
      TaskNamesSplit(ts);
      FillMapping(base, init, tb);
      var f := FamilyOf(Lower(t.0)).value;
      var m := p.tables.mapping;
      assert Fill(base, ts, tb).tables.mapping == Assign(m, Name(t), base.At(f));
      assert Name(t) !in Keys(m) by {
        assert TaskNames(ts)[|init|] == Name(t);
      }
      AssignKeys(m, Name(t), base.At(f));
      forall i | 0 <= i < |ts|
        ensures FamilyOf(Lower(ts[i].0)).Some?
        ensures Lookup(Fill(base, ts, tb).tables.mapping, Name(ts[i])) == Some(base.At(FamilyOf(Lower(ts[i].0)).value))
      {
        AssignLookup(m, Name(t), base.At(f), Name(ts[i]));
        if i < |init| {
          assert ts[i] == init[i];
          assert TaskNames(ts)[i] != TaskNames(ts)[|init|];
        }
      }
    }
  }

  /**
   * After a loop that raised nothing, every task name has the caller's range
   * when the caller gave one and the default range otherwise; no other entry
   * of the caller's dictionary changes.
   */
  lemma {:induction false} FillBounds(base: BaseMapping, ts: seq<Task>, tb: Tables)
    requires Naming.Distinct(TaskNames(ts))
    requires Fill(base, ts, tb).error.None?
    ensures forall i :: 0 <= i < |ts| ==>
      && Expected(tb.bounds, ts[i]).Some?
      && Lookup(Fill(base, ts, tb).tables.bounds, Name(ts[i])) == Expected(tb.bounds, ts[i])
    ensures forall k :: k !in TaskNames(ts) ==> Lookup(Fill(base, ts, tb).tables.bounds, k) == Lookup(tb.bounds, k)
  {
    if ts != [] {
      var init, t := ts[..|ts| - 1], ts[|ts| - 1];
      var p := Fill(base, init, tb);
      TaskNamesSplit(ts);
      FillBounds(base, init, tb);
      var b := p.tables.bounds;
      var b' := Fill(base, ts, tb).tables.bounds;
      assert Name(t) !in TaskNames(init) by {
        assert TaskNames(ts)[|init|] == Name(t);
      }
      assert Lookup(b, Name(t)) == Lookup(tb.bounds, Name(t));
      if Lookup(b, Name(t)).None? {
        AssignLookup(b, Name(t), DefaultRange(t.0).value, Name(t));
      }
      forall i | 0 <= i < |init|
        ensures Expected(tb.bounds, ts[i]).Some?
        ensures Lookup(b', Name(ts[i])) == Expected(tb.bounds, ts[i])
      {
        assert ts[i] == init[i];
        assert TaskNames(ts)[i] != TaskNames(ts)[|init|];
        if Lookup(b, Name(t)).None? {
          AssignLookup(b, Name(t), DefaultRange(t.0).value, Name(ts[i]));
        }
      }
      forall k | k !in TaskNames(ts) ensures Lookup(b', k) == Lookup(tb.bounds, k) {
        assert k != Name(t) by {
          assert TaskNames(ts)[|init|] == Name(t);
        }
        assert k !in TaskNames(init);
        if Lookup(b, Name(t)).None? {
          AssignLookup(b, Name(t), DefaultRange(t.0).value, k);
        }
      }
    }
  }

  /** The caller's ranges are never overwritten. */
  lemma SuppliedBoundsKept(base: BaseMapping, ts: seq<Task>, tb: Tables, k: string)
    requires Naming.Distinct(TaskNames(ts))
    requires Fill(base, ts, tb).error.None?
    requires Lookup(tb.bounds, k).Some?
    ensures Lookup(Fill(base, ts, tb).tables.bounds, k) == Lookup(tb.bounds, k)
  {
    FillBounds(base, ts, tb);
    if k in TaskNames(ts) {
      var i :| 0 <= i < |ts| && TaskNames(ts)[i] == k;
      assert Expected(tb.bounds, ts[i]) == Lookup(tb.bounds, k);
    }
  }

  /** The loop raises nothing when every family is known and every missing range has a default. */
  lemma {:induction false} FillSucceeds(base: BaseMapping, ts: seq<Task>, tb: Tables)
    requires forall i :: 0 <= i < |ts| ==> FamilyOf(Lower(ts[i].0)).Some? && DefaultRange(ts[i].0).Some?
    ensures Fill(base, ts, tb).error.None?
  {
    if ts != [] {
      FillSucceeds(base, ts[..|ts| - 1], tb);
    }
  }

  /**
   * The loop raises KeyError when a distribution is not one of the four
   * families, even after lower-casing.
   */
  lemma UnknownFamilyFails(base: BaseMapping, ts: seq<Task>, tb: Tables, i: nat)
    requires i < |ts|
    requires FamilyOf(Lower(ts[i].0)).None?
    ensures Fill(base, ts, tb).error.Some?
  {
    var pre := ts[..i] + [ts[i]];
    FillAppend(base, ts[..i], ts[i], tb);
    assert ts[..|pre|] == pre;
    FillStopsAt(base, ts, pre, tb);
  }

  /** The names each distribution contributes, block after block: `family_0 … family_{n-1}`. */
  function NameBlocks(dists: seq<(string, int)>): seq<string>
  {
    if dists == [] then []
    else NameBlocks(dists[..|dists| - 1]) + Naming.IndexedNames(dists[|dists| - 1].0, dists[|dists| - 1].1)
  }

  /** The loop visits the names distribution by distribution, each block contiguous. */
  lemma {:induction false} TaskNamesAreBlocks(dists: seq<(string, int)>)
    ensures TaskNames(Tasks(dists)) == NameBlocks(dists)
  {
    if dists == [] {
      assert Tasks(dists) == [];
    } else {
      var init, last := dists[..|dists| - 1], dists[|dists| - 1];
      TaskNamesAreBlocks(init);
      var a, b := Tasks(init), Block(last.0, last.1);
      assert Tasks(dists) == a + b;
      assert TaskNames(b) == Naming.IndexedNames(last.0, last.1);
      assert TaskNames(a + b) == TaskNames(a) + TaskNames(b);
    }
  }

  /**
   * A completed `__init__`: the names are the blocks of the distributions in
   * order and never repeat, each maps to its family's frozen distribution,
   * each has the caller's range or else its family default, and the
   * caller's other entries are untouched.
   */
  lemma MixtureInitTables(distributions: Option<seq<(string, int)>>, bounds: seq<(string, Interval)>,
                          kw: DistKwargs)
    requires DistinctKeys(DistributionsOrDefault(distributions))
    requires MixtureInit(distributions, bounds, kw).error.None?
    ensures var tb := MixtureInit(distributions, bounds, kw).tables;
      && Keys(tb.mapping) == NameBlocks(DistributionsOrDefault(distributions))
      && Naming.Distinct(Keys(tb.mapping))
      && (forall k :: Lookup(bounds, k).Some? ==> Lookup(tb.bounds, k) == Lookup(bounds, k))
      && (forall k :: k !in Keys(tb.mapping) ==> Lookup(tb.bounds, k) == Lookup(bounds, k))
      && (forall k :: k in Keys(tb.mapping) ==> Lookup(tb.bounds, k).Some?)
    ensures var ts := Tasks(DistributionsOrDefault(distributions));
      forall i :: 0 <= i < |ts| ==>
        Lookup(MixtureInit(distributions, bounds, kw).tables.bounds, Name(ts[i])) == Expected(bounds, ts[i])
  {
    var dists := DistributionsOrDefault(distributions);
    var ts := Tasks(dists);
    var base := BuildBaseMapping(kw).value;
    var tb0 := Tables([], bounds);
    assert MixtureInit(distributions, bounds, kw) == Fill(base, ts, tb0);
    TaskNamesDistinct(dists);
    TaskNamesAreBlocks(dists);
    FillMapping(base, ts, tb0);
    FillBounds(base, ts, tb0);
    forall k | Lookup(bounds, k).Some?
      ensures Lookup(Fill(base, ts, tb0).tables.bounds, k) == Lookup(bounds, k)
    {
      SuppliedBoundsKept(base, ts, tb0, k);
    }
    forall k | k in TaskNames(ts) ensures Lookup(Fill(base, ts, tb0).tables.bounds, k).Some? {
      var i :| 0 <= i < |ts| && TaskNames(ts)[i] == k;
    }
  }

  /** The default distributions give two tasks each. */
  lemma DefaultTasks()
    ensures Tasks(DefaultDistributions)
      == [("gaussian", 0), ("gaussian", 1), ("uniform", 0), ("uniform", 1), ("gamma", 0), ("gamma", 1)]
  {
    var g, u, m := ("gaussian", 2), ("uniform", 2), ("gamma", 2);
    TasksAppend([], g);
    TasksAppend([g], u);
    TasksAppend([g, u], m);
    assert [] + [g] == [g] && [g] + [u] == [g, u] && [g, u] + [m] == DefaultDistributions;
    assert Block("gaussian", 2) == [("gaussian", 0), ("gaussian", 1)];
    assert Block("uniform", 2) == [("uniform", 0), ("uniform", 1)];
    assert Block("gamma", 2) == [("gamma", 0), ("gamma", 1)];
  }

  lemma DefaultTaskNames()
    ensures TaskNames(Tasks(DefaultDistributions))
      == ["gaussian_0", "gaussian_1", "uniform_0", "uniform_1", "gamma_0", "gamma_1"]
  {
    DefaultTasks();
    assert Naming.NatToString(0) == "0" && Naming.NatToString(1) == "1";
    var names := TaskNames(Tasks(DefaultDistributions));
    assert names[0] == Naming.Indexed("gaussian", 0) == "gaussian_0";
    assert names[1] == Naming.Indexed("gaussian", 1) == "gaussian_1";
    assert names[2] == Naming.Indexed("uniform", 0) == "uniform_0";
    assert names[3] == Naming.Indexed("uniform", 1) == "uniform_1";
    assert names[4] == Naming.Indexed("gamma", 0) == "gamma_0";
    assert names[5] == Naming.Indexed("gamma", 1) == "gamma_1";
  }

  /** The loop over the default tasks, with the default base mapping and no bounds given. */
  lemma DefaultFill()
    ensures Fill(DefaultBase, Tasks(DefaultDistributions), Tables([], [])).error.None?
    ensures Keys(Fill(DefaultBase, Tasks(DefaultDistributions), Tables([], [])).tables.mapping)
      == ["gaussian_0", "gaussian_1", "uniform_0", "uniform_1", "gamma_0", "gamma_1"]
    ensures Lookup(Fill(DefaultBase, Tasks(DefaultDistributions), Tables([], [])).tables.bounds, "gamma_1")
      == Some(Interval(0.0, 10.0))
    ensures Lookup(Fill(DefaultBase, Tasks(DefaultDistributions), Tables([], [])).tables.mapping, "uniform_0")
      == Some(Frozen(Uniform, UniformPlacement))
  {
    var ts := Tasks(DefaultDistributions);
    var tb := Tables([], []);
    DefaultTasks();
    DefaultTaskNames();
    forall i | 0 <= i < |ts| ensures FamilyOf(Lower(ts[i].0)).Some? && DefaultRange(ts[i].0).Some? {
      KnownLower(ts[i].0);
    }
    FillSucceeds(DefaultBase, ts, tb);
    TaskNamesDistinct(DefaultDistributions);
    FillMapping(DefaultBase, ts, tb);
    FillBounds(DefaultBase, ts, tb);
    assert Name(ts[5]) == "gamma_1" && Name(ts[2]) == "uniform_0";
  }

  /**
   * With no arguments the model has two gaussian, two uniform and two gamma
   * parameters, each with its family's default range.
   */
  lemma DefaultMixture()
    ensures MixtureInit(None, [], []).error.None?
    ensures Keys(MixtureInit(None, [], []).tables.mapping)
      == ["gaussian_0", "gaussian_1", "uniform_0", "uniform_1", "gamma_0", "gamma_1"]
    ensures Lookup(MixtureInit(None, [], []).tables.bounds, "gamma_1") == Some(Interval(0.0, 10.0))
    ensures Lookup(MixtureInit(None, [], []).tables.mapping, "uniform_0") == Some(Frozen(Uniform, UniformPlacement))
  {
    BaseMappingDefault();
    assert !UnknownKwargs([]);
    assert MixtureInit(None, [], []) == Fill(DefaultBase, Tasks(DefaultDistributions), Tables([], []));
    DefaultFill();
  }
}
