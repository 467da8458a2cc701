/** The two reductions `QBC.predict` applies across committee members: numpy's
    `np.mean` and the population standard deviation `np.std` (ddof = 0), over
    exact reals. The square root is a parameter characterised by `IsSqrt`. */
module Statistics {

  function Sum(s: seq<real>): real {
    if s == [] then 0.0 else s[0] + Sum(s[1..])
  }

  /** Arithmetic mean (`np.mean`). */
  function Mean(s: seq<real>): real
    requires |s| > 0
  {
    Sum(s) / |s| as real
  }

  function Sq(x: real): real {
    x * x
  }

  /** Sum of the squared distances of the elements of `s` from `c`. */
  function SquaredDeviation(s: seq<real>, c: real): real {
    if s == [] then 0.0 else Sq(s[0] - c) + SquaredDeviation(s[1..], c)
  }

  /** Population variance: the mean squared distance from the mean. */
  function PopVariance(s: seq<real>): real
    requires |s| > 0
  {
    SquaredDeviation(s, Mean(s)) / |s| as real
  }

  /** `sqrt` is the non-negative square root on the non-negative reals. */
  ghost predicate IsSqrt(sqrt: real -> real) {
    forall v :: 0.0 <= v ==> 0.0 <= sqrt(v) && Sq(sqrt(v)) == v
  }

  /** Population standard deviation (`np.std`), given a square root. */
  function PopStd(s: seq<real>, sqrt: real -> real): (d: real)
    requires |s| > 0 && IsSqrt(sqrt)
    ensures 0.0 <= d && Sq(d) == PopVariance(s)
  {
    VarianceNonNegative(s);
    sqrt(PopVariance(s))
  }

  /** Every element between lo and hi puts the sum between |s|·lo and |s|·hi. */
  lemma {:induction false} SumBounds(s: seq<real>, lo: real, hi: real)
    requires forall i :: 0 <= i < |s| ==> lo <= s[i] <= hi
    ensures |s| as real * lo <= Sum(s) <= |s| as real * hi
  {
    if s != [] {
      SumBounds(s[1..], lo, hi);
    }
  }

  /** The mean lies between any lower and any upper bound of the elements. */
  lemma MeanBounds(s: seq<real>, lo: real, hi: real)
    requires |s| > 0
    requires forall i :: 0 <= i < |s| ==> lo <= s[i] <= hi
    ensures lo <= Mean(s) <= hi
  {
    SumBounds(s, lo, hi);
    var n := |s| as real;
    assert Mean(s) * n == Sum(s);
  }

  /** Non-negative elements have a non-negative mean. */
  lemma MeanNonNegative(s: seq<real>)
    requires |s| > 0 && forall i :: 0 <= i < |s| ==> 0.0 <= s[i]
    ensures 0.0 <= Mean(s)
  {
    SumNonNegative(s);
    var n := |s| as real;
    assert Mean(s) * n == Sum(s);
  }

  lemma {:induction false} SumNonNegative(s: seq<real>)
    requires forall i :: 0 <= i < |s| ==> 0.0 <= s[i]
    ensures 0.0 <= Sum(s)
  {
    if s != [] {
      SumNonNegative(s[1..]);
    }
  }

  /** Negating every element negates the sum. */
  lemma {:induction false} SumNegated(s: seq<real>, t: seq<real>)
    requires |s| == |t| && forall i :: 0 <= i < |s| ==> t[i] == -s[i]
    ensures Sum(t) == -Sum(s)
  {
    if s != [] {
      SumNegated(s[1..], t[1..]);
    }
  }

  /** Negating every element negates the mean. */
  lemma MeanNegated(s: seq<real>, t: seq<real>)
    requires |s| > 0 && |s| == |t| && forall i :: 0 <= i < |s| ==> t[i] == -s[i]
    ensures Mean(t) == -Mean(s)
  {
    SumNegated(s, t);
  }

  /** A sequence all of whose elements equal c sums to |s|·c. */
  lemma {:induction false} SumConstant(s: seq<real>, c: real)
    requires forall i :: 0 <= i < |s| ==> s[i] == c
    ensures Sum(s) == |s| as real * c
  {
    if s != [] {
      SumConstant(s[1..], c);
    }
  }

  /** A real square is non-negative, and positive unless the number is zero. */
  lemma Square(d: real)
    ensures 0.0 <= Sq(d)
    ensures d != 0.0 ==> 0.0 < Sq(d)
  {
    if d > 0.0 {
      calc { Sq(d); == d * d; > 0.0; }
    } else if d < 0.0 {
      calc { Sq(d); == (-d) * (-d); > 0.0; }
    }
  }

  lemma {:induction false} SquaredDeviationNonNegative(s: seq<real>, c: real)
    ensures 0.0 <= SquaredDeviation(s, c)
  {
    if s != [] {
      SquaredDeviationNonNegative(s[1..], c);
      Square(s[0] - c);
    }
  }

  /** Every element equal to c leaves no squared deviation from c. */
  lemma {:induction false} SquaredDeviationOfConstant(s: seq<real>, c: real)
    requires forall i :: 0 <= i < |s| ==> s[i] == c
    ensures SquaredDeviation(s, c) == 0.0
  {
    if s != [] {
      SquaredDeviationOfConstant(s[1..], c);
      assert s[0] - c == 0.0;
    }
  }

  /** One element other than c makes the squared deviation from c positive. */
  lemma {:induction false} SquaredDeviationPositive(s: seq<real>, c: real, k: nat)
    requires k < |s| && s[k] != c
    ensures 0.0 < SquaredDeviation(s, c)
  {
    SquaredDeviationNonNegative(s[1..], c);
    Square(s[0] - c);
    if k > 0 {
      SquaredDeviationPositive(s[1..], c, k - 1);
    }
  }

  /** The squared deviation from c vanishes exactly when every element is c. */
  lemma SquaredDeviationZero(s: seq<real>, c: real)
    ensures SquaredDeviation(s, c) == 0.0 <==> forall i :: 0 <= i < |s| ==> s[i] == c
  {
    if forall i :: 0 <= i < |s| ==> s[i] == c {
      SquaredDeviationOfConstant(s, c);
    } else {
      var k :| 0 <= k < |s| && s[k] != c;
      SquaredDeviationPositive(s, c, k);
    }
  }

  lemma VarianceNonNegative(s: seq<real>)
    requires |s| > 0
    ensures 0.0 <= PopVariance(s)
  {
    SquaredDeviationNonNegative(s, Mean(s));
  }

  /** The committee disagrees nowhere exactly when the spread is zero: the
      population variance is zero if and only if all elements are equal. */
  lemma VarianceZeroIffConstant(s: seq<real>)
    requires |s| > 0
    ensures PopVariance(s) == 0.0 <==> forall i :: 0 <= i < |s| ==> s[i] == s[0]
  {
    var m := Mean(s);
    SquaredDeviationZero(s, m);
    if forall i :: 0 <= i < |s| ==> s[i] == s[0] {
      SumConstant(s, s[0]);
      assert m == s[0];
    }
  }

  /** The standard deviation is zero exactly when all elements are equal. */
  lemma StdZeroIffConstant(s: seq<real>, sqrt: real -> real)
    requires |s| > 0 && IsSqrt(sqrt)
    ensures PopStd(s, sqrt) == 0.0 <==> forall i :: 0 <= i < |s| ==> s[i] == s[0]
  {
    VarianceZeroIffConstant(s);
    Square(PopStd(s, sqrt));
  }

  /** A single value has no spread. */
  lemma SingletonNoSpread(s: seq<real>, sqrt: real -> real)
    requires |s| == 1 && IsSqrt(sqrt)
    ensures Mean(s) == s[0] && PopVariance(s) == 0.0 && PopStd(s, sqrt) == 0.0
  {
    VarianceZeroIffConstant(s);
    assert Sum(s) == s[0] + Sum(s[1..]);
    Square(PopStd(s, sqrt));
  }
}
