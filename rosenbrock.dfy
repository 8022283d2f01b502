/** The coupled n-dimensional Rosenbrock likelihood (nessai_models/rosenbrock.py). */
module RosenbrockModel {
  import opened Wrappers
  import opened Numerics
  import opened Base
  import Naming

  /** One summand `100 (b - a^2)^2 + (1 - a)^2` for consecutive coordinates a, b. */
  function RosenTerm(a: real, b: real): (r: real)
    ensures r >= 0.0
  {
    SqNonNegative(b - Sq(a));
    SqNonNegative(1.0 - a);
    100.0 * Sq(b - Sq(a)) + Sq(1.0 - a)
  }

  /** A summand vanishes only at a = b = 1. */
  lemma RosenTermMinimum(a: real, b: real)
    ensures RosenTerm(a, b) == 0.0 ==> a == 1.0 && b == 1.0
  {
    SqNonNegative(b - Sq(a));
    SqNonNegative(1.0 - a);
    SqZero(b - Sq(a));
    SqZero(1.0 - a);
  }

  /**
   * The Rosenbrock function of one point: the sum over consecutive pairs of
   * coordinates. It is never negative, so the log-likelihood `-Rosen(v)` is at most 0.
   */
  function Rosen(v: seq<real>): (r: real)
    ensures r >= 0.0
  {
    if |v| < 2 then 0.0 else RosenTerm(v[0], v[1]) + Rosen(v[1..])
  }

  /** At the point with every coordinate 1 the log-likelihood is 0. */
  lemma {:induction false} RosenAtOnes(v: seq<real>)
    requires forall i :: 0 <= i < |v| ==> v[i] == 1.0
    ensures Rosen(v) == 0.0
  {
    if |v| >= 2 {
      RosenAtOnes(v[1..]);
    }
  }

  /** In two or more dimensions, the all-ones point is the only one where the log-likelihood is 0. */
  lemma {:induction false} RosenZeroOnlyAtOnes(v: seq<real>)
    requires |v| >= 2 && Rosen(v) == 0.0
    ensures forall i :: 0 <= i < |v| ==> v[i] == 1.0
  {
    RosenTermMinimum(v[0], v[1]);
    if |v| > 2 {
      RosenZeroOnlyAtOnes(v[1..]);
      assert forall i :: 1 <= i < |v| ==> v[i] == v[1..][i - 1];
    }
  }

  /** With fewer than two coordinates the sum is empty. */
  lemma RosenOneDimension(v: seq<real>)
    requires |v| < 2
    ensures Rosen(v) == 0.0
  {
  }

  /** Rosenbrock.log_likelihood: one value per sample, from its parameters in names order. */
  function RosenbrockLogLikelihood(names: seq<string>, x: Batch): (r: seq<real>)
    requires BatchHas(names, x)
    ensures |r| == |x|
    ensures forall j :: 0 <= j < |x| ==> r[j] <= 0.0
  {
    seq(|x|, j requires 0 <= j < |x| => -Rosen(View(names, x[j])))
  }

  /** The per-sample value of the log-likelihood is 0 exactly at the all-ones point (two or more dimensions). */
  lemma RosenbrockMaximum(names: seq<string>, x: Batch, j: nat)
    requires BatchHas(names, x) && j < |x| && |names| >= 2
    ensures RosenbrockLogLikelihood(names, x)[j] == 0.0 <==> forall n :: n in names ==> x[j][n] == 1.0
  {
    var v := View(names, x[j]);
    if forall n :: n in names ==> x[j][n] == 1.0 {
      RosenAtOnes(v);
    }
    if Rosen(v) == 0.0 {
      RosenZeroOnlyAtOnes(v);
      forall n | n in names
        ensures x[j][n] == 1.0
      {
        var i :| 0 <= i < |names| && names[i] == n;
        assert v[i] == x[j][n];
      }
    }
  }

  /** The default Rosenbrock: parameters x_0 and x_1, both on [-5, 5]. */
  lemma DefaultRosenbrock()
    ensures var r := NDimensionalInit(2, SequenceArg([-5.0, 5.0]));
      && r.Success?
      && r.value.names == ["x_0", "x_1"]
      && r.value.bounds == map["x_0" := Interval(-5.0, 5.0), "x_1" := Interval(-5.0, 5.0)]
  {
    var names := XNames(2);
    assert Naming.NatToString(0) == "0" && Naming.NatToString(1) == "1";
    assert Naming.Indexed("x", 0) == "x_0" && Naming.Indexed("x", 1) == "x_1";
    assert names == ["x_0", "x_1"];
  }
}
