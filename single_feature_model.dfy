/** The stateful regressor: two trainable parameters, the last evaluated cost and
    the append-only trace of costs, with prediction, cost, gradient and the
    gradient-descent loop proved against the functions of module Regression. */
module SingleFeature {
  import opened Regression

  /** The last evaluated cost: infinite until the first evaluation. */
  datatype CostValue = Infinity | Finite(value: real)

  /** Iterations a loop `for i in range(n)` runs: none when `n` is negative. */
  function Steps(n: int): nat
  {
    if n < 0 then 0 else n
  }

  class SingleFeatureModel {
    var w: real
    var b: real
    var cost: CostValue
    var costHistory: seq<real>
    const alpha: real
    const iterations: int

    /** Every evaluated cost, the stored one and each one in the trace, is a
        halved mean of squares and so never negative. */
    predicate Valid()
      reads this
    {
      && (cost.Finite? ==> cost.value >= 0.0)
      && forall k :: 0 <= k < |costHistory| ==> costHistory[k] >= 0.0
    }

    /** A fresh regressor on the line y = 0 with no cost evaluated yet. */
    constructor (alpha: real, iterations: int)
      ensures w == 0.0 && b == 0.0
      ensures cost == Infinity && costHistory == []
      ensures this.alpha == alpha && this.iterations == iterations
      ensures Valid()
    {
      this.alpha := alpha;
      this.iterations := iterations;
      w := 0.0;
      b := 0.0;
      cost := Infinity;
      costHistory := [];
    }

    /** The prediction of the current line at a single input. */
    function PredictOne(x: real): (f: real)
      reads this
      ensures f == w * x + b
    {
      Predict(w, b, x)
    }

    /** The prediction of the current line at every input, filled into a zeroed buffer. */
    method PredictMany(x: seq<real>) returns (f: seq<real>)
      ensures |f| == |x|
      ensures forall i :: 0 <= i < |x| ==> f[i] == PredictOne(x[i])
    {
      var m := |x|;
      var fwb := new real[m](_ => 0.0);
      for i := 0 to m
        invariant forall k :: 0 <= k < i ==> fwb[k] == PredictOne(x[k])
      {
        fwb[i] := Predict(w, b, x[i]);
      }
      f := fwb[..];
    }

    /** Half the mean squared error of the current line, also stored in `cost`. */
    method ComputeCost(x: seq<real>, y: seq<real>) returns (r: Result<real>)
      requires Valid()
      modifies this`cost
      ensures Valid()
      ensures Fault(x, y).Some? ==> r == Raised(Fault(x, y).value) && cost == old(cost)
      ensures Fault(x, y).None? ==> r == Ok(Cost(x, y, w, b)) && cost == Finite(r.value)
    {
      var m := |x|;
      var costSum := 0.0;
      for i := 0 to m
        invariant i <= |y|
        invariant costSum == SquaredErrorSum(x, y, w, b, i)
      {
        if i >= |y| {
          return Raised(IndexError);
        }
        var fwb := Predict(w, b, x[i]);
        var c := Square(fwb - y[i]);
        costSum := costSum + c;
      }
      if m == 0 {
        return Raised(ZeroDivisionError);
      }
      assert costSum == SquaredErrorSum(x, y, w, b, |x|);
      var totalCost := (1.0 / (2.0 * m as real)) * costSum;
      assert totalCost == Cost(x, y, w, b);
      cost := Finite(totalCost);
      r := Ok(totalCost);
    }

    /** The gradient (dw, db) of the cost at the given parameters; reads no field. */
    method ComputeGradient(x: seq<real>, y: seq<real>, w: real, b: real) returns (r: Result<(real, real)>)
      ensures Fault(x, y).Some? ==> r == Raised(Fault(x, y).value)
      ensures Fault(x, y).None? ==> r == Ok(Gradient(x, y, w, b))
    {
      var n := |x|;
      var dw := 0.0;
      var db := 0.0;
      for i := 0 to n
        invariant i <= |y|
        invariant dw == WeightedErrorSum(x, y, w, b, i)
        invariant db == ErrorSum(x, y, w, b, i)
      {
        if i >= |y| {
          return Raised(IndexError);
        }
        var fwb := Predict(w, b, x[i]);
        var dwI := (fwb - y[i]) * x[i];
        var dbI := fwb - y[i];
        dw := dw + dwI;
        db := db + dbI;
      }
      if n == 0 {
        return Raised(ZeroDivisionError);
      }
      dw := dw / n as real;
      db := db / n as real;
      r := Ok((dw, db));
    }

    /** One pass of the training loop from the snapshot (w0, b0): the gradient there,
        the step against it, the commit of the new parameters to the fields, and the
        cost at them appended to the trace. Returns the new parameters. */
    method DescentStep(x: seq<real>, y: seq<real>, w0: real, b0: real) returns (r: Result<(real, real)>)
      requires Valid()
      modifies this`w, this`b, this`cost, this`costHistory
      ensures Valid()
      ensures Fault(x, y).Some? ==>
        r == Raised(Fault(x, y).value) && w == old(w) && b == old(b) && cost == old(cost) && costHistory == old(costHistory)
      ensures Fault(x, y).None? ==>
        && r == Ok(Step(x, y, alpha, (w0, b0)))
        && (w, b) == r.value
        && cost == Finite(Cost(x, y, w, b))
        && costHistory == old(costHistory) + [Cost(x, y, w, b)]
    {
      var g := ComputeGradient(x, y, w0, b0);
      if g.Raised? {
        return Raised(g.exception);
      }
      var dw, db := g.value.0, g.value.1;
      var w' := w0 - alpha * dw;
      var b' := b0 - alpha * db;
      StepFromGradient(x, y, alpha, w0, b0, dw, db, w', b');
      w := w';
      b := b';
      var c := ComputeCost(x, y);
      costHistory := costHistory + [c.value];
      r := Ok((w', b'));
    }

    /** Runs the configured number of descent steps from the current parameters,
        committing each step's parameters and appending the cost there to the trace. */
    method GradientDescent(x: seq<real>, y: seq<real>) returns (r: Result<(real, real)>)
      requires Valid()
      modifies this`w, this`b, this`cost, this`costHistory
      ensures Valid()
      ensures Steps(iterations) == 0 ==>
        r == Ok((old(w), old(b))) && w == old(w) && b == old(b) && cost == old(cost) && costHistory == old(costHistory)
      ensures Steps(iterations) > 0 && Fault(x, y).Some? ==>
        r == Raised(Fault(x, y).value) && w == old(w) && b == old(b) && cost == old(cost) && costHistory == old(costHistory)
      ensures Steps(iterations) > 0 && Fault(x, y).None? ==>
        && (w, b) == Descend(x, y, alpha, (old(w), old(b)), Steps(iterations))
        && r == Ok((w, b))
        && costHistory == old(costHistory) + CostTrace(x, y, alpha, (old(w), old(b)), Steps(iterations))
        && cost == Finite(Cost(x, y, w, b))
    {
      var w', b' := w, b;
      ghost var start := (w, b);
      ghost var history := costHistory;
      for i := 0 to Steps(iterations)
        invariant Valid()
        invariant w == w' && b == b'
        invariant i == 0 ==> (w', b') == start && cost == old(cost) && costHistory == history
        invariant i > 0 ==>
          && Fault(x, y).None?
          && (w', b') == Descend(x, y, alpha, start, i)
          && costHistory == history + CostTrace(x, y, alpha, start, i)
          && cost == Finite(Cost(x, y, w, b))
      {
        var s := DescentStep(x, y, w', b');
        if s.Raised? {
          return Raised(s.exception);
        }
        w', b' := s.value.0, s.value.1;
      }
      r := Ok((w', b'));
    }
  }
}
