/** The n-dimensional pyramid likelihood (nessai_models/pyramid.py). */
module PyramidModel {
  import opened Numerics
  import opened Base

  /** The pyramid log-likelihood of one point: minus the sum of absolute coordinates. */
  function Pyramid(v: seq<real>): (r: real)
    ensures r <= 0.0
  {
    AbsSum(v);
    -SumOf(v, Abs)
  }

  lemma {:induction false} AbsSum(v: seq<real>)
    ensures SumOf(v, Abs) >= 0.0
    ensures SumOf(v, Abs) == 0.0 <==> forall i :: 0 <= i < |v| ==> v[i] == 0.0
  {
    if |v| > 0 {
      var init := v[..|v| - 1];
      AbsSum(init);
      assert forall i :: 0 <= i < |init| ==> init[i] == v[i];
    }
  }

  /** The log-likelihood never exceeds 0, and reaches it exactly at the origin. */
  lemma PyramidMaximum(v: seq<real>)
    ensures Pyramid(v) <= 0.0
    ensures Pyramid(v) == 0.0 <==> forall i :: 0 <= i < |v| ==> v[i] == 0.0
  {
    AbsSum(v);
  }

  /** The origin, in any number of dimensions, has log-likelihood 0. */
  lemma PyramidAtOrigin(dims: nat)
    ensures Pyramid(seq(dims, _ => 0.0)) == 0.0
  {
    PyramidMaximum(seq(dims, _ => 0.0));
  }

  /** Negating one coordinate leaves the log-likelihood unchanged. */
  lemma PyramidReflection(v: seq<real>, k: nat)
    requires k < |v|
    ensures Pyramid(v[k := -v[k]]) == Pyramid(v)
  {
    SumOfCongruent(v, Abs, v[k := -v[k]], Abs);
  }

  /** Pyramid.log_likelihood: one value per sample, from its parameters in names order. */
  function PyramidLogLikelihood(names: seq<string>, x: Batch): (r: seq<real>)
    requires BatchHas(names, x)
    ensures |r| == |x|
    ensures forall j :: 0 <= j < |x| ==> r[j] <= 0.0
    ensures forall j :: 0 <= j < |x| ==>
      (r[j] == 0.0 <==> forall n :: n in names ==> x[j][n] == 0.0)
  {
    var r := seq(|x|, j requires 0 <= j < |x| => Pyramid(View(names, x[j])));
    forall j | 0 <= j < |x|
      ensures r[j] <= 0.0
      ensures r[j] == 0.0 <==> forall n :: n in names ==> x[j][n] == 0.0
    {
      var v := View(names, x[j]);
      PyramidMaximum(v);
      if forall i :: 0 <= i < |v| ==> v[i] == 0.0 {
        forall n | n in names
          ensures x[j][n] == 0.0
        {
          var i :| 0 <= i < |names| && names[i] == n;
          assert v[i] == x[j][n];
        }
      }
    }
    r
  }
}
