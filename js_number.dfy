/** The JavaScript number operations the core relies on, stated over `real`.
    IEEE-754 rounding is not modelled: `Math.round`, `toFixed(2)` and the
    clamps are exact on reals, and `Math.exp`/`Math.sqrt` are parameters that
    satisfy only their sign facts (`IsExp`, `IsSqrt`). */
module JsNumber {

  /** `Math.round(x)`: the nearest integer, halves rounded towards +infinity. */
  function MathRound(x: real): (n: int)
    ensures n as real <= x + 0.5 < n as real + 1.0
  {
    (x + 0.5).Floor
  }

  /** `Math.round(x * 100) / 100`. */
  function Round2(x: real): (r: real)
    ensures x - 0.005 < r <= x + 0.005
  {
    MathRound(x * 100.0) as real / 100.0
  }

  /** `parseFloat(x.toFixed(2))`: two decimals, halves rounded away from zero. */
  function ToFixed2(x: real): (r: real)
    ensures x - 0.005 <= r <= x + 0.005
    ensures x >= 0.0 ==> r == Round2(x)
  {
    if x < 0.0 then -Round2(-x) else Round2(x)
  }

  /** A value already on the two-decimal grid is left alone by `Round2`. */
  lemma Round2Idempotent(x: real)
    ensures Round2(Round2(x)) == Round2(x)
  {
    var n := MathRound(x * 100.0);
    assert Round2(x) * 100.0 == n as real;
    assert MathRound(n as real) == n;
  }

  function Min(a: real, b: real): real { if a <= b then a else b }

  function Max(a: real, b: real): real { if a >= b then a else b }

  /** `Math.abs`. */
  function Abs(x: real): (y: real)
    ensures y >= 0.0 && (y == x || y == -x)
  {
    if x >= 0.0 then x else -x
  }

  /** `Math.max(lo, Math.min(hi, x))`, the clamp idiom of the source. */
  function Clamp(lo: real, hi: real, x: real): (r: real)
    ensures r >= lo
    ensures lo <= hi ==> r <= hi
    ensures lo <= x <= hi ==> r == x
    ensures x < lo ==> r == lo
    ensures lo <= hi && x > hi ==> r == hi
  {
    Max(lo, Min(hi, x))
  }

  /** Clamping keeps the order of its arguments. */
  lemma ClampMonotone(lo: real, hi: real, x: real, y: real)
    requires x <= y
    ensures Clamp(lo, hi, x) <= Clamp(lo, hi, y)
  {
  }

  /** The only facts about `Math.exp` the model relies on. */
  ghost predicate IsExp(exp: real -> real) {
    forall x: real :: exp(x) > 0.0
  }

  /** The only facts about `Math.sqrt` the model relies on. */
  ghost predicate IsSqrt(sqrt: real -> real) {
    forall x: real :: x >= 0.0 ==> sqrt(x) >= 0.0 && (x > 0.0 ==> sqrt(x) > 0.0)
  }

  /** `xs.reduce((a, b) => a + b, 0)`, folded from the left. */
  function Sum(xs: seq<real>): real {
    if |xs| == 0 then 0.0 else Sum(xs[..|xs| - 1]) + xs[|xs| - 1]
  }

  lemma {:induction false} SumAppend(xs: seq<real>, ys: seq<real>)
    ensures Sum(xs + ys) == Sum(xs) + Sum(ys)
  {
    if |ys| == 0 {
      assert xs + ys == xs;
    } else {
      assert (xs + ys)[..|xs + ys| - 1] == xs + ys[..|ys| - 1];
      SumAppend(xs, ys[..|ys| - 1]);
    }
  }

  /** Sum of a sequence every element of which equals `c`. */
  lemma {:induction false} SumConstant(xs: seq<real>, c: real)
    requires forall i :: 0 <= i < |xs| ==> xs[i] == c
    ensures Sum(xs) == |xs| as real * c
  {
    if |xs| > 0 {
      SumConstant(xs[..|xs| - 1], c);
    }
  }

  lemma {:induction false} SumNonNegative(xs: seq<real>)
    requires forall i :: 0 <= i < |xs| ==> xs[i] >= 0.0
    ensures Sum(xs) >= 0.0
  {
    if |xs| > 0 {
      SumNonNegative(xs[..|xs| - 1]);
    }
  }

  lemma {:induction false} SumPositive(xs: seq<real>)
    requires |xs| > 0
    requires forall i :: 0 <= i < |xs| ==> xs[i] > 0.0
    ensures Sum(xs) > 0.0
  {
    if |xs| > 1 {
      SumPositive(xs[..|xs| - 1]);
    }
  }

  /** Dividing every element by `d` divides the sum by `d`. */
  lemma {:induction false} SumScaled(xs: seq<real>, ys: seq<real>, d: real)
    requires d != 0.0 && |ys| == |xs|
    requires forall i :: 0 <= i < |xs| ==> ys[i] == xs[i] / d
    ensures Sum(ys) == Sum(xs) / d
  {
    if |xs| > 0 {
      SumScaled(xs[..|xs| - 1], ys[..|ys| - 1], d);
    }
  }

  /** Scaling by a positive factor keeps the order. */
  lemma ScaleMonotone(b1: real, b2: real, k: real)
    requires b2 <= b1 && k > 0.0
    ensures b2 * k <= b1 * k
  {
    assert (b1 - b2) * k >= 0.0;
  }

  /** Division facts the solver misses in large contexts. */
  lemma DivideFacts(n: real, c: real)
    requires n != 0.0
    ensures n / n == 1.0 && (n * c) / n == c && 0.0 / n == 0.0
  {
  }

  /** A part of a positive whole is a fraction in [0, 1]. */
  lemma FractionBounds(part: real, whole: real)
    requires 0.0 <= part <= whole && whole > 0.0
    ensures 0.0 <= part / whole <= 1.0
  {
    AverageBounds(part, whole, 0.0, 1.0);
  }

  /** A total between `n * lo` and `n * hi` averages to between `lo` and
      `hi`. */
  lemma AverageBounds(total: real, n: real, lo: real, hi: real)
    requires n > 0.0 && n * lo <= total <= n * hi
    ensures lo <= total / n <= hi
  {
    var a := total / n;
    assert a * n == total;
    NonNegativeFactor(a - lo, n);
    NonNegativeFactor(hi - a, n);
  }

  /** A product with a positive factor that is not negative has a factor
      that is not negative. */
  lemma NonNegativeFactor(x: real, n: real)
    requires n > 0.0 && x * n >= 0.0
    ensures x >= 0.0
  {
    var inv := 1.0 / n;
    assert inv > 0.0 && n * inv == 1.0;
    assert (x * n) * inv == x * (n * inv);
    assert (x * n) * inv >= 0.0;
  }

  /** `xs.reduce((a, b) => a + b, 0) / xs.length`. */
  function Mean(xs: seq<real>): real
    requires |xs| > 0
  {
    Sum(xs) / |xs| as real
  }

  /** `Math.pow(x, 2)`. */
  function Square(x: real): (y: real)
    ensures y >= 0.0
  {
    if x >= 0.0 then x * x else (-x) * (-x)
  }

  function SquaredDeviations(xs: seq<real>, mean: real): (sq: seq<real>)
    ensures |sq| == |xs|
    ensures forall i :: 0 <= i < |xs| ==> sq[i] == Square(xs[i] - mean)
  {
    seq(|xs|, i requires 0 <= i < |xs| => Square(xs[i] - mean))
  }

  /** Values within [lo, hi] sum to between `|xs| * lo` and `|xs| * hi`. */
  lemma {:induction false} SumBounds(xs: seq<real>, lo: real, hi: real)
    requires forall i :: 0 <= i < |xs| ==> lo <= xs[i] <= hi
    ensures |xs| as real * lo <= Sum(xs) <= |xs| as real * hi
  {
    if |xs| > 0 {
      SumBounds(xs[..|xs| - 1], lo, hi);
    }
  }
}
