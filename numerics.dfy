/**
 * Real-number vocabulary shared by the models: the extended reals needed for
 * log(0), the library of transcendental functions and densities (passed in as
 * function values, so nothing is assumed about them), and finite sums.
 */
module Numerics {

  /** A value of np.log: a real, or -inf for log(0). */
  datatype ExtReal = NegInf | Fin(v: real)

  /** np.log of a boolean indicator: log(True) == 0.0 and log(False) == -inf. */
  function LogIndicator(b: bool): (r: ExtReal)
    ensures r.Fin? <==> b
    ensures r.Fin? ==> r.v == 0.0
  {
    if b then Fin(0.0) else NegInf
  }

  /** `a - c` for a finite c: -inf stays -inf. */
  function Minus(a: ExtReal, c: real): ExtReal
  {
    match a
    case NegInf => NegInf
    case Fin(v) => Fin(v - c)
  }

  /** `a + b` on log values: -inf absorbs. */
  function Plus(a: ExtReal, b: ExtReal): ExtReal
  {
    if a.NegInf? || b.NegInf? then NegInf else Fin(a.v + b.v)
  }

  /** The families of scipy.stats distributions used by the mixture model. */
  datatype Family = Norm | Uniform | Gamma | HalfNorm

  /** A frozen scipy distribution: a family and its keyword arguments. */
  datatype Frozen = Frozen(family: Family, kwargs: map<string, real>)

  /**
   * numpy and scipy functions the models call. None of them is given a
   * definition: every result of the model is stated in terms of them.
   */
  datatype Lib = Lib(
    ln: real -> real,                                       // np.log on a positive real
    sin: real -> real,                                      // np.sin
    pi: real,                                               // np.pi
    logAddExp: (real, real) -> real,                        // np.logaddexp
    normLogPdf: real -> real,                               // scipy.stats.norm.logpdf
    halfNormLogPdf: real -> real,                           // scipy.stats.halfnorm.logpdf
    mvnLogPdf: (seq<real>, seq<seq<real>>, seq<real>) -> real, // multivariate_normal(mean, cov).logpdf
    frozenLogPdf: (Frozen, real) -> real                    // a frozen distribution's logpdf
  )

  function Sq(x: real): real { x * x }

  lemma SqNonNegative(x: real)
    ensures Sq(x) >= 0.0
  {
  }

  lemma DivSelf(x: real)
    requires x != 0.0
    ensures x / x == 1.0
  {
  }

  lemma SqZero(x: real)
    ensures Sq(x) == 0.0 ==> x == 0.0
  {
    if x != 0.0 {
      assert Sq(x) / x == x;
    }
  }

  function Abs(x: real): real { if x < 0.0 then -x else x }

  /** Left-to-right sum of f over s, as a loop `acc += f(e)` computes it. */
  function SumOf<T>(s: seq<T>, f: T -> real): real
  {
    if s == [] then 0.0 else SumOf(s[..|s| - 1], f) + f(s[|s| - 1])
  }

  /** Every term at most zero: the sum is at most zero, and it is zero only when every term is. */
  lemma {:induction false} SumOfNonPositive<T>(s: seq<T>, f: T -> real)
    requires forall i :: 0 <= i < |s| ==> f(s[i]) <= 0.0
    ensures SumOf(s, f) <= 0.0
    ensures SumOf(s, f) == 0.0 <==> forall i :: 0 <= i < |s| ==> f(s[i]) == 0.0
  {
    if s != [] {
      var init := s[..|s| - 1];
      assert forall i :: 0 <= i < |init| ==> init[i] == s[i];
      SumOfNonPositive(init, f);
      if SumOf(s, f) == 0.0 {
        forall i | 0 <= i < |s| ensures f(s[i]) == 0.0 {
          if i < |init| { assert init[i] == s[i]; }
        }
      }
    }
  }

  /** A sum of |s| copies of c. */
  lemma {:induction false} SumOfConstant<T>(s: seq<T>, f: T -> real, c: real)
    requires forall i :: 0 <= i < |s| ==> f(s[i]) == c
    ensures SumOf(s, f) == |s| as real * c
  {
    if s != [] {
      var init := s[..|s| - 1];
      assert forall i :: 0 <= i < |init| ==> init[i] == s[i];
      SumOfConstant(init, f, c);
      calc {
        SumOf(s, f);
        |init| as real * c + c;
        (|init| as real + 1.0) * c;
      }
    }
  }

  /** Sums of pointwise equal terms are equal. */
  lemma {:induction false} SumOfCongruent<T, U>(s: seq<T>, f: T -> real, t: seq<U>, g: U -> real)
    requires |s| == |t|
    requires forall i :: 0 <= i < |s| ==> f(s[i]) == g(t[i])
    ensures SumOf(s, f) == SumOf(t, g)
  {
    if s != [] {
      var si, ti := s[..|s| - 1], t[..|t| - 1];
      assert forall i :: 0 <= i < |si| ==> si[i] == s[i] && ti[i] == t[i];
      SumOfCongruent(si, f, ti, g);
    }
  }

  /** A sum splits over concatenation. */
  lemma {:induction false} SumOfAppend<T>(s: seq<T>, t: seq<T>, f: T -> real)
    ensures SumOf(s + t, f) == SumOf(s, f) + SumOf(t, f)
  {
    if t == [] {
      assert s + t == s;
    } else {
      var ti := t[..|t| - 1];
      assert (s + t)[..|s + t| - 1] == s + ti;
      SumOfAppend(s, ti, f);
    }
  }

  // ---------------------------------------------------------------------------
  // Gaussian residual sums `sum_j [c - 0.5 ((d_j - f_j) / s)^2]`

  /** Pairs the i-th element of a with the i-th element of b. */
  function Zip(a: seq<real>, b: seq<real>): (z: seq<(real, real)>)
    requires |a| == |b|
    ensures |z| == |a|
    ensures forall i :: 0 <= i < |a| ==> z[i] == (a[i], b[i])
  {
    seq(|a|, i requires 0 <= i < |a| => (a[i], b[i]))
  }

  /** The Gaussian log-density term of one (datum, model) pair with normalisation c and scale s. */
  function ResidualTerm(c: real, s: real): ((real, real)) -> real
    requires s != 0.0
  {
    (p: (real, real)) => c - 0.5 * Sq((p.0 - p.1) / s)
  }

  /** A scaled squared residual is never negative, and vanishes exactly when datum and model agree. */
  lemma ResidualZero(d: real, f: real, s: real)
    requires s != 0.0
    ensures Sq((d - f) / s) >= 0.0
    ensures Sq((d - f) / s) == 0.0 <==> d == f
  {
    SqNonNegative((d - f) / s);
    SqZero((d - f) / s);
    if (d - f) / s == 0.0 {
      assert d - f == ((d - f) / s) * s;
    }
  }

  /**
   * The residual sum is at most n c (the value with every residual zero),
   * and reaches it exactly when every datum equals its model value.
   */
  lemma {:induction false} ResidualSumBound(pairs: seq<(real, real)>, c: real, s: real)
    requires s != 0.0
    ensures SumOf(pairs, ResidualTerm(c, s)) <= |pairs| as real * c
    ensures SumOf(pairs, ResidualTerm(c, s)) == |pairs| as real * c
        <==> forall i :: 0 <= i < |pairs| ==> pairs[i].0 == pairs[i].1
  {
    if pairs != [] {
      var init, last := pairs[..|pairs| - 1], pairs[|pairs| - 1];
      assert forall i :: 0 <= i < |init| ==> init[i] == pairs[i];
      ResidualSumBound(init, c, s);
      ResidualZero(last.0, last.1, s);
      assert |pairs| as real * c == |init| as real * c + c;
      if SumOf(pairs, ResidualTerm(c, s)) == |pairs| as real * c {
        forall i | 0 <= i < |pairs|
          ensures pairs[i].0 == pairs[i].1
        {
          if i < |init| { assert init[i] == pairs[i]; }
        }
      }
    }
  }

  /**
   * The Gaussian log-likelihood of data around a reference sequence with
   * scale s and per-point normalisation c: `sum_j [c - 0.5 ((d_j - r_j) / s)^2]`.
   */
  function ResidualSum(data: seq<real>, ref: seq<real>, c: real, s: real): real
    requires s != 0.0 && |data| == |ref|
  {
    SumOf(Zip(data, ref), ResidualTerm(c, s))
  }

  /**
   * With normalisation -norm the residual sum is at most -n norm, and reaches
   * it exactly when the data equal the reference.
   */
  lemma ResidualMaximum(data: seq<real>, ref: seq<real>, norm: real, s: real)
    requires s != 0.0 && |data| == |ref|
    ensures ResidualSum(data, ref, -norm, s) <= -(|data| as real) * norm
    ensures ResidualSum(data, ref, -norm, s) == -(|data| as real) * norm <==> data == ref
  {
    var pairs := Zip(data, ref);
    ResidualSumBound(pairs, -norm, s);
    NegatedProduct(|data| as real, norm);
    if forall i :: 0 <= i < |pairs| ==> pairs[i].0 == pairs[i].1 {
      assert forall i :: 0 <= i < |data| ==> data[i] == pairs[i].0 == pairs[i].1 == ref[i];
    }
  }

  lemma NegatedProduct(a: real, b: real)
    ensures a * -b == -a * b
  {
  }
}
