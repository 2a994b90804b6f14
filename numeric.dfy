/**
 * Real-number stand-ins for the f64 routines the indicators use: sums and
 * means over windows, absolute value, the `fold(f64::MIN, f64::max)` extrema,
 * `f64::round` and integer powers.  Every f64 is modelled as the exact real it
 * denotes; the finite f64 values are exactly the reals of magnitude at most
 * `F64Max`.
 */
module Numeric {

  /** The largest finite f64, (2 - 2^-52) * 2^1023, written out exactly. */
  const F64Max: real := 179769313486231570814527423731704356798070567525844996598917476803157260780028538760589558632766878171540458953514382464234321326889464182768467546703537516986049910576551282076245490090389328944075868508455133942304583236903222948165808559332123348274797826204144723168738177180919299881250404026184124858368.0

  /** `f64::MIN`, the most negative finite f64. */
  const F64Min: real := -F64Max

  predicate Finite(x: real) { F64Min <= x <= F64Max }

  predicate AllFinite(xs: seq<real>) { forall i :: 0 <= i < |xs| ==> Finite(xs[i]) }

  function Abs(x: real): real { if x < 0.0 then -x else x }

  /** `f64::max` and `f64::min` on non-NaN operands. */
  function Max(a: real, b: real): real { if a >= b then a else b }

  function Min(a: real, b: real): real { if a <= b then a else b }

  /** `usize::max`. */
  function MaxNat(a: nat, b: nat): (m: nat)
    ensures m >= a && m >= b && (m == a || m == b)
  {
    if a >= b then a else b
  }

  function Sum(xs: seq<real>): real
  {
    if |xs| == 0 then 0.0 else xs[0] + Sum(xs[1..])
  }

  lemma {:induction false} SumAppend(a: seq<real>, b: seq<real>)
    ensures Sum(a + b) == Sum(a) + Sum(b)
  {
    if |a| > 0 {
      assert (a + b)[1..] == a[1..] + b;
      SumAppend(a[1..], b);
    } else {
      assert a + b == b;
    }
  }

  lemma SumSnoc(a: seq<real>, x: real)
    ensures Sum(a + [x]) == Sum(a) + x
  {
    SumAppend(a, [x]);
  }

  /** The arithmetic mean of a non-empty window. */
  function Mean(xs: seq<real>): real
    requires |xs| > 0
  {
    Sum(xs) / (|xs| as real)
  }

  function SumSq(xs: seq<real>): real
  {
    if |xs| == 0 then 0.0 else xs[0] * xs[0] + SumSq(xs[1..])
  }

  lemma {:induction false} SumSqAppend(a: seq<real>, b: seq<real>)
    ensures SumSq(a + b) == SumSq(a) + SumSq(b)
  {
    if |a| > 0 {
      assert (a + b)[1..] == a[1..] + b;
      SumSqAppend(a[1..], b);
    } else {
      assert a + b == b;
    }
  }

  /** Every element of the window lies in [lo, hi]. */
  predicate Within(xs: seq<real>, lo: real, hi: real) { forall i :: 0 <= i < |xs| ==> lo <= xs[i] <= hi }

  lemma {:induction false} SumWithin(xs: seq<real>, lo: real, hi: real)
    requires Within(xs, lo, hi)
    ensures (|xs| as real) * lo <= Sum(xs) <= (|xs| as real) * hi
  {
    if |xs| > 0 {
      assert Within(xs[1..], lo, hi) by {
        forall i | 0 <= i < |xs[1..]| ensures lo <= xs[1..][i] <= hi {
          assert xs[1..][i] == xs[i + 1];
        }
      }
      SumWithin(xs[1..], lo, hi);
      assert lo <= xs[0] <= hi;
    }
  }

  /** The mean of a window whose elements lie in [lo, hi] lies there too. */
  lemma MeanWithin(xs: seq<real>, lo: real, hi: real)
    requires |xs| > 0 && Within(xs, lo, hi)
    ensures lo <= Mean(xs) <= hi
  {
    SumWithin(xs, lo, hi);
    var n := |xs| as real;
    assert Mean(xs) * n == Sum(xs);
    if Mean(xs) < lo {
      MulNonNegative(lo - Mean(xs), n);
    }
    if Mean(xs) > hi {
      MulNonNegative(Mean(xs) - hi, n);
    }
  }

  /** A point of a non-degenerate interval sits at a fraction in [0, 1] of it. */
  lemma FractionWithin(lo: real, hi: real, x: real)
    requires lo <= x <= hi && hi - lo != 0.0
    ensures 0.0 <= (x - lo) / (hi - lo) <= 1.0
  {
    var d := hi - lo;
    var q := (x - lo) / d;
    assert d > 0.0 && q * d == x - lo;
    if q < 0.0 {
      MulNonNegative(-q, d);
    }
    if q > 1.0 {
      MulNonNegative(q - 1.0, d);
    }
  }

  /** The sum of squared deviations of a window from `c`. */
  function SqDev(xs: seq<real>, c: real): real
  {
    if |xs| == 0 then 0.0 else (xs[0] - c) * (xs[0] - c) + SqDev(xs[1..], c)
  }

  lemma SquareNonNegative(d: real)
    ensures d * d >= 0.0
  {
    if d < 0.0 {
      assert d * d == (-d) * (-d);
    }
  }

  lemma MulNonNegative(a: real, b: real)
    requires a >= 0.0 && b >= 0.0
    ensures a * b >= 0.0
  {
  }

  lemma {:induction false} SqDevNonNegative(xs: seq<real>, c: real)
    ensures SqDev(xs, c) >= 0.0
  {
    if |xs| > 0 {
      SqDevNonNegative(xs[1..], c);
      SquareNonNegative(xs[0] - c);
    }
  }

  lemma {:induction false} SqDevExpand(xs: seq<real>, c: real)
    ensures SqDev(xs, c) == SumSq(xs) - 2.0 * c * Sum(xs) + (|xs| as real) * c * c
  {
    if |xs| > 0 {
      SqDevExpand(xs[1..], c);
    }
  }

  /** About the mean, the squared deviations add up to SumSq - n * mean^2. */
  lemma SqDevAboutMean(xs: seq<real>)
    requires |xs| > 0
    ensures SqDev(xs, Mean(xs)) == SumSq(xs) - (|xs| as real) * Mean(xs) * Mean(xs)
  {
    var n := |xs| as real;
    var m := Mean(xs);
    SqDevExpand(xs, m);
    assert Sum(xs) == n * m;
  }

  /** The sum of absolute deviations of a window from `c`. */
  function AbsDev(xs: seq<real>, c: real): real
  {
    if |xs| == 0 then 0.0 else Abs(xs[0] - c) + AbsDev(xs[1..], c)
  }

  lemma {:induction false} AbsDevNonNegative(xs: seq<real>, c: real)
    ensures AbsDev(xs, c) >= 0.0
  {
    if |xs| > 0 {
      AbsDevNonNegative(xs[1..], c);
    }
  }

  /** The mean absolute deviation of a non-empty window from its mean. */
  function MeanAbsDev(xs: seq<real>): real
    requires |xs| > 0
  {
    AbsDev(xs, Mean(xs)) / (|xs| as real)
  }

  /** Every element of the window equals `c`. */
  predicate Constant(xs: seq<real>, c: real) { forall i :: 0 <= i < |xs| ==> xs[i] == c }

  lemma {:induction false} ConstantWindow(xs: seq<real>, c: real)
    requires Constant(xs, c)
    ensures Sum(xs) == (|xs| as real) * c && SqDev(xs, c) == 0.0 && AbsDev(xs, c) == 0.0
  {
    if |xs| > 0 {
      ConstantWindow(xs[1..], c);
    }
  }

  /** A constant window has that constant as mean and no deviation. */
  lemma ConstantMean(xs: seq<real>, c: real)
    requires |xs| > 0 && Constant(xs, c)
    ensures Mean(xs) == c && MeanAbsDev(xs) == 0.0
  {
    ConstantWindow(xs, c);
    assert Mean(xs) == c;
  }

  /** The last `min(n, period)` elements of a sequence: a bounded window over a stream. */
  function Window<T>(xs: seq<T>, period: nat): (w: seq<T>)
    ensures |w| == if |xs| < period then |xs| else period
  {
    if |xs| < period then xs else xs[|xs| - period..]
  }

  /** A non-empty sequence is its front followed by its last element. */
  lemma SplitLast<T>(xs: seq<T>)
    requires |xs| > 0
    ensures xs[..|xs| - 1] + [xs[|xs| - 1]] == xs
  {
  }

  /** One more element: appended, and the oldest dropped once the window is full. */
  function Slide<T>(w: seq<T>, x: T, period: nat): seq<T>
    requires period > 0
  {
    if |w| < period then w + [x] else w[1..] + [x]
  }

  /** Sliding a constant value into a window of that constant keeps it constant. */
  lemma ConstantSlide(w: seq<real>, x: real, period: nat)
    requires period > 0 && Constant(w, x)
    ensures Constant(Slide(w, x, period), x)
  {
    var r := Slide(w, x, period);
    forall i | 0 <= i < |r| ensures r[i] == x {
      if i < |r| - 1 {
        if |w| < period {
          assert r[i] == w[i];
        } else {
          assert r[i] == w[i + 1];
        }
      }
    }
  }

  /** Appends `x`, then drops the oldest element once the sequence exceeds `period`. */
  function PushBounded<T>(w: seq<T>, x: T, period: nat): (r: seq<T>)
    ensures |w| <= period ==> |r| <= period || period == 0
    ensures period > 0 ==> |r| > 0 && r[|r| - 1] == x
  {
    var pushed := w + [x];
    if |pushed| > period then pushed[1..] else pushed
  }

  /** Within its bound, pushing is sliding. */
  lemma PushBoundedSlides<T>(w: seq<T>, x: T, period: nat)
    requires 0 < period && |w| <= period
    ensures PushBounded(w, x, period) == Slide(w, x, period)
  {
  }

  lemma SlideWindow<T>(xs: seq<T>, x: T, period: nat)
    requires period > 0
    ensures Slide(Window(xs, period), x, period) == Window(xs + [x], period)
  {
    if |xs| >= period {
      assert (xs + [x])[|xs| + 1 - period..] == xs[|xs| - period..][1..] + [x];
    }
  }

  /** `xs.iter().fold(acc, f64::max)`. */
  function FoldMax(acc: real, xs: seq<real>): real
    decreases |xs|
  {
    if |xs| == 0 then acc else FoldMax(Max(acc, xs[0]), xs[1..])
  }

  /** `xs.iter().fold(acc, f64::min)`. */
  function FoldMin(acc: real, xs: seq<real>): real
    decreases |xs|
  {
    if |xs| == 0 then acc else FoldMin(Min(acc, xs[0]), xs[1..])
  }

  /** The maximum fold bounds the seed and every element, and is one of them. */
  lemma {:induction false} FoldMaxIsMax(acc: real, xs: seq<real>)
    ensures FoldMax(acc, xs) >= acc
    ensures forall i :: 0 <= i < |xs| ==> FoldMax(acc, xs) >= xs[i]
    ensures FoldMax(acc, xs) == acc || exists i :: 0 <= i < |xs| && FoldMax(acc, xs) == xs[i]
    decreases |xs|
  {
    if |xs| > 0 {
      FoldMaxIsMax(Max(acc, xs[0]), xs[1..]);
      var r := FoldMax(acc, xs);
      if r != acc && r != xs[0] {
        var j :| 0 <= j < |xs[1..]| && r == xs[1..][j];
        assert r == xs[j + 1];
      }
      forall i | 0 <= i < |xs| ensures r >= xs[i] {
        if i > 0 { assert xs[i] == xs[1..][i - 1]; }
      }
    }
  }

  /** The minimum fold is bounded by the seed and every element, and is one of them. */
  lemma {:induction false} FoldMinIsMin(acc: real, xs: seq<real>)
    ensures FoldMin(acc, xs) <= acc
    ensures forall i :: 0 <= i < |xs| ==> FoldMin(acc, xs) <= xs[i]
    ensures FoldMin(acc, xs) == acc || exists i :: 0 <= i < |xs| && FoldMin(acc, xs) == xs[i]
    decreases |xs|
  {
    if |xs| > 0 {
      FoldMinIsMin(Min(acc, xs[0]), xs[1..]);
      var r := FoldMin(acc, xs);
      if r != acc && r != xs[0] {
        var j :| 0 <= j < |xs[1..]| && r == xs[1..][j];
        assert r == xs[j + 1];
      }
      forall i | 0 <= i < |xs| ensures r <= xs[i] {
        if i > 0 { assert xs[i] == xs[1..][i - 1]; }
      }
    }
  }

  /**
   * Seeded with f64::MIN (f64::MAX), the fold of a non-empty window of finite
   * values is an element of the window: the seed never wins.
   */
  lemma HighestInWindow(xs: seq<real>)
    requires |xs| > 0 && AllFinite(xs)
    ensures exists i :: 0 <= i < |xs| && FoldMax(F64Min, xs) == xs[i]
    ensures forall i :: 0 <= i < |xs| ==> FoldMax(F64Min, xs) >= xs[i]
  {
    FoldMaxIsMax(F64Min, xs);
    if FoldMax(F64Min, xs) == F64Min {
      assert Finite(xs[0]);
      assert xs[0] >= F64Min;
      assert FoldMax(F64Min, xs) == xs[0];
    }
  }

  lemma LowestInWindow(xs: seq<real>)
    requires |xs| > 0 && AllFinite(xs)
    ensures exists i :: 0 <= i < |xs| && FoldMin(F64Max, xs) == xs[i]
    ensures forall i :: 0 <= i < |xs| ==> FoldMin(F64Max, xs) <= xs[i]
  {
    FoldMinIsMin(F64Max, xs);
    if FoldMin(F64Max, xs) == F64Max {
      assert Finite(xs[0]);
      assert FoldMin(F64Max, xs) == xs[0];
    }
  }

  /** `f64::round`: to the nearest integer, halves away from zero. */
  function Round(x: real): (r: int)
    ensures Abs(x - r as real) <= 0.5
    ensures Abs(x - r as real) < 0.5 || Abs(r as real) > Abs(x)
    ensures x >= 0.0 ==> r >= 0
    ensures x <= 0.0 ==> r <= 0
  {
    if x >= 0.0 then (x + 0.5).Floor else -((-x + 0.5).Floor)
  }

  /** Halves go away from zero on both sides. */
  lemma RoundHalves()
    ensures Round(2.5) == 3 && Round(-2.5) == -3 && Round(0.5) == 1 && Round(-0.5) == -1
    ensures Round(2.4) == 2 && Round(-2.6) == -3
  {
  }

  /** `b.powf(n as f64)` for a natural exponent. */
  function Pow(b: real, n: nat): real
  {
    if n == 0 then 1.0 else b * Pow(b, n - 1)
  }

  lemma {:induction false} PowAtLeastOne(b: real, n: nat)
    requires b >= 1.0
    ensures Pow(b, n) >= 1.0
  {
    if n > 0 {
      PowAtLeastOne(b, n - 1);
    }
  }
}
