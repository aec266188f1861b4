/** The mathematics behind the single-feature linear regressor, over exact reals:
    the line f(x) = w*x + b, the residual sums its loops accumulate, the halved
    mean squared error, its gradient, the exceptions raised on unusable data, and
    the iterated gradient-descent step with the trace of costs it records. */
module Regression {

  /** The exceptions the Python loops raise on training data they cannot use. */
  datatype Exception = ZeroDivisionError | IndexError

  datatype Option<+T> = None | Some(value: T)

  /** A returned value, or the exception raised instead of returning. */
  datatype Result<+T> = Ok(value: T) | Raised(exception: Exception)

  /** The line with slope `w` and intercept `b`, evaluated at `x`. */
  function Predict(w: real, b: real, x: real): real
  {
    w * x + b
  }

  /** Both loops run over the indices of `x` and read `y` at the same index, then
      divide by `|x|`: no example means a division by zero, fewer targets than
      inputs an index out of range, and surplus targets are never read. */
  function Fault(x: seq<real>, y: seq<real>): (e: Option<Exception>)
    ensures e.None? <==> 1 <= |x| <= |y|
    ensures e == Some(ZeroDivisionError) <==> |x| == 0
  {
    if |x| == 0 then Some(ZeroDivisionError)
    else if |y| < |x| then Some(IndexError)
    else None
  }

  /** Data on which cost and gradient return a value. */
  predicate Admissible(x: seq<real>, y: seq<real>)
  {
    1 <= |x| <= |y|
  }

  /** The signed error of the line at example `i`. */
  function Residual(x: seq<real>, y: seq<real>, w: real, b: real, i: nat): real
    requires i < |x| && i < |y|
  {
    Predict(w, b, x[i]) - y[i]
  }

  /** Every example lies on the line. */
  predicate PerfectFit(x: seq<real>, y: seq<real>, w: real, b: real)
    requires |x| <= |y|
  {
    forall i :: 0 <= i < |x| ==> Predict(w, b, x[i]) == y[i]
  }

  function Square(r: real): real
  {
    r * r
  }

  // Sign facts about products, stated on a two-argument product so that the
  // solver reasons about each sign case separately.
  function Product(a: real, b: real): real
  {
    a * b
  }

  lemma PositiveProduct(a: real, b: real)
    requires a > 0.0 && b > 0.0
    ensures Product(a, b) > 0.0
  {
  }

  lemma NegativeProduct(a: real, b: real)
    requires a < 0.0 && b < 0.0
    ensures Product(a, b) > 0.0
  {
  }

  /** A square is positive unless its root is zero. */
  lemma SquarePositive(r: real)
    requires r != 0.0
    ensures Square(r) > 0.0
  {
    if r > 0.0 {
      PositiveProduct(r, r);
    } else {
      NegativeProduct(r, r);
    }
  }

  lemma SquareNonNegative(r: real)
    ensures Square(r) >= 0.0
  {
    if r != 0.0 {
      SquarePositive(r);
    }
  }

  /** Sum of the squared residuals of the first `n` examples. */
  function SquaredErrorSum(x: seq<real>, y: seq<real>, w: real, b: real, n: nat): (s: real)
    requires n <= |x| && n <= |y|
    ensures s >= 0.0
  {
    if n == 0 then 0.0
    else
      SquareNonNegative(Residual(x, y, w, b, n - 1));
      SquaredErrorSum(x, y, w, b, n - 1) + Square(Residual(x, y, w, b, n - 1))
  }

  /** Sum of residual times input over the first `n` examples. */
  function WeightedErrorSum(x: seq<real>, y: seq<real>, w: real, b: real, n: nat): real
    requires n <= |x| && n <= |y|
  {
    if n == 0 then 0.0
    else WeightedErrorSum(x, y, w, b, n - 1) + Residual(x, y, w, b, n - 1) * x[n - 1]
  }

  /** Sum of the residuals of the first `n` examples. */
  function ErrorSum(x: seq<real>, y: seq<real>, w: real, b: real, n: nat): real
    requires n <= |x| && n <= |y|
  {
    if n == 0 then 0.0
    else ErrorSum(x, y, w, b, n - 1) + Residual(x, y, w, b, n - 1)
  }

  /** Half the mean squared error of the line (w, b) over the examples. */
  function Cost(x: seq<real>, y: seq<real>, w: real, b: real): (c: real)
    requires Admissible(x, y)
    ensures c >= 0.0
  {
    (1.0 / (2.0 * |x| as real)) * SquaredErrorSum(x, y, w, b, |x|)
  }

  /** The partial derivatives (dw, db) of the cost at (w, b). */
  function Gradient(x: seq<real>, y: seq<real>, w: real, b: real): (real, real)
    requires Admissible(x, y)
  {
    (WeightedErrorSum(x, y, w, b, |x|) / |x| as real, ErrorSum(x, y, w, b, |x|) / |x| as real)
  }

  /** One descent step: both partial derivatives taken at the same point `p`,
      then both parameters moved against them by the learning rate. */
  function Step(x: seq<real>, y: seq<real>, alpha: real, p: (real, real)): (real, real)
    requires Admissible(x, y)
  {
    (p.0 - alpha * Gradient(x, y, p.0, p.1).0, p.1 - alpha * Gradient(x, y, p.0, p.1).1)
  }

  /** The parameters after `k` descent steps from `p`. */
  function Descend(x: seq<real>, y: seq<real>, alpha: real, p: (real, real), k: nat): (real, real)
    requires Admissible(x, y)
  {
    if k == 0 then p else Step(x, y, alpha, Descend(x, y, alpha, p, k - 1))
  }

  /** The costs recorded by `k` descent steps from `p`, one per step, each at the
      parameters that step committed. */
  function CostTrace(x: seq<real>, y: seq<real>, alpha: real, p: (real, real), k: nat): (t: seq<real>)
    requires Admissible(x, y)
    ensures |t| == k
  {
    if k == 0 then []
    else
      var q := Descend(x, y, alpha, p, k);
      CostTrace(x, y, alpha, p, k - 1) + [Cost(x, y, q.0, q.1)]
  }

  // ---------------------------------------------------------------------------
  // Cost

  /** The squared-error sum of a prefix vanishes exactly when every residual in it does. */
  lemma {:induction false} SquaredErrorSumZero(x: seq<real>, y: seq<real>, w: real, b: real, n: nat)
    requires n <= |x| && n <= |y|
    ensures SquaredErrorSum(x, y, w, b, n) == 0.0 <==> forall i :: 0 <= i < n ==> Residual(x, y, w, b, i) == 0.0
  {
    if n > 0 {
      SquaredErrorSumZero(x, y, w, b, n - 1);
      var e := Residual(x, y, w, b, n - 1);
      if e != 0.0 {
        SquarePositive(e);
      }
    }
  }

  /** The cost is zero if and only if the line passes through every example. */
  lemma CostZeroIffPerfectFit(x: seq<real>, y: seq<real>, w: real, b: real)
    requires Admissible(x, y)
    ensures Cost(x, y, w, b) == 0.0 <==> PerfectFit(x, y, w, b)
  {
    SquaredErrorSumZero(x, y, w, b, |x|);
    var s := SquaredErrorSum(x, y, w, b, |x|);
    var k := 1.0 / (2.0 * |x| as real);
    assert k > 0.0;
    assert Cost(x, y, w, b) == k * s;
    assert k * s == 0.0 <==> s == 0.0;
    forall i | 0 <= i < |x|
      ensures Predict(w, b, x[i]) == y[i] <==> Residual(x, y, w, b, i) == 0.0
    {
    }
  }

  // ---------------------------------------------------------------------------
  // Gradient

  /** Residual sums of a prefix on which the line is exact are zero. */
  lemma {:induction false} SumsVanishOnExactPrefix(x: seq<real>, y: seq<real>, w: real, b: real, n: nat)
    requires n <= |x| && n <= |y|
    requires forall i :: 0 <= i < n ==> Predict(w, b, x[i]) == y[i]
    ensures WeightedErrorSum(x, y, w, b, n) == 0.0
    ensures ErrorSum(x, y, w, b, n) == 0.0
  {
    if n > 0 {
      SumsVanishOnExactPrefix(x, y, w, b, n - 1);
      assert Residual(x, y, w, b, n - 1) == 0.0;
    }
  }

  /** At a perfect fit both partial derivatives are zero. */
  lemma GradientZeroAtPerfectFit(x: seq<real>, y: seq<real>, w: real, b: real)
    requires Admissible(x, y)
    requires PerfectFit(x, y, w, b)
    ensures Gradient(x, y, w, b) == (0.0, 0.0)
  {
    SumsVanishOnExactPrefix(x, y, w, b, |x|);
  }

  /** The gradient of the line through the origin with slope 0 on y = x at x = [1, 2, 3]. */
  lemma GradientExample()
    ensures Gradient([1.0, 2.0, 3.0], [1.0, 2.0, 3.0], 0.0, 0.0) == (-14.0 / 3.0, -2.0)
  {
    var x := [1.0, 2.0, 3.0];
    assert WeightedErrorSum(x, x, 0.0, 0.0, 1) == -1.0;
    assert WeightedErrorSum(x, x, 0.0, 0.0, 2) == -5.0;
    assert WeightedErrorSum(x, x, 0.0, 0.0, 3) == -14.0;
    assert ErrorSum(x, x, 0.0, 0.0, 3) == -6.0;
  }

  // ---------------------------------------------------------------------------
  // Surplus targets

  /** The residual sums of a prefix read only the targets at its indices. */
  lemma {:induction false} SquaredErrorSumReadsPrefix(x: seq<real>, y: seq<real>, y': seq<real>, w: real, b: real, n: nat)
    requires n <= |x| && n <= |y| && n <= |y'|
    requires forall i :: 0 <= i < n ==> y[i] == y'[i]
    ensures SquaredErrorSum(x, y, w, b, n) == SquaredErrorSum(x, y', w, b, n)
  {
    if n > 0 {
      SquaredErrorSumReadsPrefix(x, y, y', w, b, n - 1);
      assert Residual(x, y, w, b, n - 1) == Residual(x, y', w, b, n - 1);
    }
  }

  lemma {:induction false} WeightedErrorSumReadsPrefix(x: seq<real>, y: seq<real>, y': seq<real>, w: real, b: real, n: nat)
    requires n <= |x| && n <= |y| && n <= |y'|
    requires forall i :: 0 <= i < n ==> y[i] == y'[i]
    ensures WeightedErrorSum(x, y, w, b, n) == WeightedErrorSum(x, y', w, b, n)
  {
    if n > 0 {
      WeightedErrorSumReadsPrefix(x, y, y', w, b, n - 1);
      assert Residual(x, y, w, b, n - 1) == Residual(x, y', w, b, n - 1);
    }
  }

  lemma {:induction false} ErrorSumReadsPrefix(x: seq<real>, y: seq<real>, y': seq<real>, w: real, b: real, n: nat)
    requires n <= |x| && n <= |y| && n <= |y'|
    requires forall i :: 0 <= i < n ==> y[i] == y'[i]
    ensures ErrorSum(x, y, w, b, n) == ErrorSum(x, y', w, b, n)
  {
    if n > 0 {
      ErrorSumReadsPrefix(x, y, y', w, b, n - 1);
      assert Residual(x, y, w, b, n - 1) == Residual(x, y', w, b, n - 1);
    }
  }

  /** Targets beyond the number of inputs are ignored: cost and gradient are those
      of the targets truncated to the length of the inputs. */
  lemma SurplusTargetsIgnored(x: seq<real>, y: seq<real>, w: real, b: real)
    requires Admissible(x, y)
    ensures Admissible(x, y[..|x|])
    ensures Cost(x, y, w, b) == Cost(x, y[..|x|], w, b)
    ensures Gradient(x, y, w, b) == Gradient(x, y[..|x|], w, b)
  {
    SquaredErrorSumReadsPrefix(x, y, y[..|x|], w, b, |x|);
    WeightedErrorSumReadsPrefix(x, y, y[..|x|], w, b, |x|);
    ErrorSumReadsPrefix(x, y, y[..|x|], w, b, |x|);
  }

  // ---------------------------------------------------------------------------
  // Gradient descent

  /** Moving each parameter against the gradient taken at (w, b) is the step from (w, b). */
  lemma StepFromGradient(x: seq<real>, y: seq<real>, alpha: real, w: real, b: real, dw: real, db: real, w': real, b': real)
    requires Admissible(x, y)
    requires (dw, db) == Gradient(x, y, w, b)
    requires w' == w - alpha * dw && b' == b - alpha * db
    ensures Step(x, y, alpha, (w, b)) == (w', b')
  {
    var q := Step(x, y, alpha, (w, b));
    assert q.0 == w';
    assert q.1 == b';
  }

  /** Entry `j` of the trace is the cost at the parameters committed by step `j + 1`. */
  lemma {:induction false} CostTraceAt(x: seq<real>, y: seq<real>, alpha: real, p: (real, real), k: nat, j: nat)
    requires Admissible(x, y)
    requires j < k
    ensures var q := Descend(x, y, alpha, p, j + 1);
            CostTrace(x, y, alpha, p, k)[j] == Cost(x, y, q.0, q.1)
  {
    if j < k - 1 {
      CostTraceAt(x, y, alpha, p, k - 1, j);
    }
  }

  /** Descending `j` steps and then `k` more is descending `j + k` steps. */
  lemma {:induction false} DescendCompose(x: seq<real>, y: seq<real>, alpha: real, p: (real, real), j: nat, k: nat)
    requires Admissible(x, y)
    ensures Descend(x, y, alpha, p, j + k) == Descend(x, y, alpha, Descend(x, y, alpha, p, j), k)
  {
    if k > 0 {
      DescendCompose(x, y, alpha, p, j, k - 1);
    }
  }

  /** The trace of `j + k` steps is the trace of the first `j` followed by the trace
      of `k` steps resumed from where those left off. */
  lemma {:induction false} CostTraceCompose(x: seq<real>, y: seq<real>, alpha: real, p: (real, real), j: nat, k: nat)
    requires Admissible(x, y)
    ensures CostTrace(x, y, alpha, p, j + k)
         == CostTrace(x, y, alpha, p, j) + CostTrace(x, y, alpha, Descend(x, y, alpha, p, j), k)
  {
    if k > 0 {
      CostTraceCompose(x, y, alpha, p, j, k - 1);
      DescendCompose(x, y, alpha, p, j, k);
    }
  }

  /** A perfect fit is a fixed point of descent: the parameters never move and every
      recorded cost is zero, whatever the learning rate. */
  lemma {:induction false} PerfectFitIsFixedPoint(x: seq<real>, y: seq<real>, alpha: real, w: real, b: real, k: nat)
    requires Admissible(x, y)
    requires PerfectFit(x, y, w, b)
    ensures Descend(x, y, alpha, (w, b), k) == (w, b)
    ensures forall j :: 0 <= j < k ==> CostTrace(x, y, alpha, (w, b), k)[j] == 0.0
  {
    if k > 0 {
      PerfectFitIsFixedPoint(x, y, alpha, w, b, k - 1);
      GradientZeroAtPerfectFit(x, y, w, b);
      CostZeroIffPerfectFit(x, y, w, b);
    }
  }
}
