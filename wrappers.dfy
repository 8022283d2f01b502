/** Option and Result, and the exceptions the models raise. */
module Wrappers {

  datatype Option<+T> = None | Some(value: T)

  datatype Result<+T, +E> = Success(value: T) | Failure(error: E) {
    predicate IsFailure() { Failure? }

    function PropagateFailure<U>(): Result<U, E>
      requires Failure?
    {
      Failure(error)
    }

    function Extract(): T
      requires Success?
    {
      value
    }

    function ToOption(): Option<T>
    {
      if Success? then Some(value) else None
    }
  }

  /** The Python exceptions raised by the models, with their messages. */
  datatype Error =
    | ValueError(message: string)
    | TypeError(message: string)
    | KeyError(key: string)

  /** Keys of an ordered dictionary, kept as a sequence of pairs. */
  function Keys<V>(d: seq<(string, V)>): (ks: seq<string>)
    ensures |ks| == |d|
    ensures forall i :: 0 <= i < |d| ==> ks[i] == d[i].0
  {
    if d == [] then [] else Keys(d[..|d| - 1]) + [d[|d| - 1].0]
  }

  /** A Python dict never holds a key twice. */
  predicate DistinctKeys<V>(d: seq<(string, V)>)
  {
    forall i, j :: 0 <= i < j < |d| ==> d[i].0 != d[j].0
  }

  /** Lookup in an ordered dictionary whose keys are distinct. */
  function Lookup<V>(d: seq<(string, V)>, k: string): Option<V>
  {
    if d == [] then None
    else if d[|d| - 1].0 == k then Some(d[|d| - 1].1)
    else Lookup(d[..|d| - 1], k)
  }

  /** The ordered dictionary as an unordered map. */
  function AsMap<V>(d: seq<(string, V)>): (m: map<string, V>)
    ensures forall k :: k in m <==> k in Keys(d)
  {
    if d == [] then map[] else AsMap(d[..|d| - 1])[d[|d| - 1].0 := d[|d| - 1].1]
  }

  /** Appending an entry appends its key. */
  lemma KeysAppend<V>(d: seq<(string, V)>, e: (string, V))
    ensures Keys(d + [e]) == Keys(d) + [e.0]
  {
    assert (d + [e])[..|d|] == d;
  }

  /** A key is present exactly when looking it up finds a value. */
  lemma {:induction false} LookupKeys<V>(d: seq<(string, V)>, k: string)
    ensures Lookup(d, k).Some? <==> k in Keys(d)
  {
    if d != [] {
      LookupKeys(d[..|d| - 1], k);
      KeysAppend(d[..|d| - 1], d[|d| - 1]);
      assert d[..|d| - 1] + [d[|d| - 1]] == d;
    }
  }

  /** Looking up in a dict with one more entry at the end. */
  lemma LookupAppend<V>(d: seq<(string, V)>, e: (string, V), k: string)
    ensures Lookup(d + [e], k) == if e.0 == k then Some(e.1) else Lookup(d, k)
  {
    assert (d + [e])[..|d|] == d;
  }

  /**
   * `d[k] = v` on a dict: a new key goes at the end, an existing key keeps
   * its place and takes the new value (AssignKeys, AssignLookup).
   */
  function Assign<V>(d: seq<(string, V)>, k: string, v: V): seq<(string, V)>
  {
    if k !in Keys(d) then d + [(k, v)]
    else if d[|d| - 1].0 == k then d[..|d| - 1] + [(k, v)]
    else Assign(d[..|d| - 1], k, v) + [d[|d| - 1]]
  }

  lemma {:induction false} AssignKeys<V>(d: seq<(string, V)>, k: string, v: V)
    ensures Keys(Assign(d, k, v)) == if k in Keys(d) then Keys(d) else Keys(d) + [k]
  {
    if k !in Keys(d) {
      KeysAppend(d, (k, v));
    } else {
      var init, last := d[..|d| - 1], d[|d| - 1];
      KeysAppend(init, last);
      assert init + [last] == d;
      if last.0 == k {
        KeysAppend(init, (k, v));
      } else {
        AssignKeys(init, k, v);
        KeysAppend(Assign(init, k, v), last);
      }
    }
  }

  lemma {:induction false} AssignLookup<V>(d: seq<(string, V)>, k: string, v: V, k': string)
    ensures Lookup(Assign(d, k, v), k') == if k' == k then Some(v) else Lookup(d, k')
  {
    if k !in Keys(d) {
      LookupAppend(d, (k, v), k');
    } else {
      var init, last := d[..|d| - 1], d[|d| - 1];
      LookupAppend(init, last, k');
      assert init + [last] == d;
      if last.0 == k {
        LookupAppend(init, (k, v), k');
      } else {
        KeysAppend(init, last);
        AssignLookup(init, k, v, k');
        LookupAppend(Assign(init, k, v), last, k');
      }
    }
  }
}
