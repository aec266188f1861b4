# Single-feature linear regression, modelled in Dafny

This project models `Single_Feature_Model`, a univariate linear regressor trained by
batch gradient descent. The regressor holds a weight `w` and a bias `b`, the last
evaluated cost, and a history of costs. It offers four operations:

- prediction `w*x + b`, for one input or for each input of a sequence;
- the cost: half the mean squared error of the current line over `(x, y)`, which is also stored in the cost field;
- the gradient `(dw, db)` of that cost at explicitly passed parameters;
- the training loop. It runs `iterations` descent steps from the current parameters. Each step commits the new parameters and appends the cost there to the history.

Arithmetic is over Dafny's exact `real`, so the model states the algebra the code
computes, not its floating-point rounding.

Two modules:

- `regression.dfy`, module `Regression`. The mathematics as functions:
  - `Predict`, `Residual` and the three residual sums the loops accumulate (`SquaredErrorSum`, `WeightedErrorSum`, `ErrorSum`);
  - `Cost` and `Gradient`;
  - `Fault`, the exception the loops raise on unusable data;
  - `Step`, `Descend` and `CostTrace` for the training loop.
  
  It also holds the lemmas about these functions.
- `single_feature_model.dfy`, module `SingleFeature`. Class `SingleFeatureModel` has the
  fields `w`, `b`, `cost` and `costHistory`, and the constants `alpha` and `iterations`.
  Its methods follow the code's loops statement by statement. One pass of the training
  loop is the helper method `DescentStep`. Each method is proved against the functions
  of `Regression`, so the lemmas there carry over to it.

Error behaviour is the code's own:

- A training set with no examples makes the final division raise `ZeroDivisionError`.
- The code has no length check. Fewer targets than inputs makes the loop raise `IndexError` when it reads `y` past its end, and surplus targets are never read (`SurplusTargetsIgnored`).
- The code does not check the learning rate. A negative iteration count runs zero steps, as `range` does.
- The training loop raises only if it runs at least one step. It raises in the first gradient computation, before any field changes. With zero steps it returns the current parameters even on empty data.
- The history is appended to, not reset, so after training it holds the old entries followed by exactly `iterations` new ones.

## Model

| member | source | states |
|---|---|---|
| `SingleFeature.SingleFeatureModel.constructor` | models/single_feature_model.py:8-15 | Parameters start at 0.0, the cost at infinity ("not yet evaluated"), the history empty; `alpha` and `iterations` are as given; the cost invariant `Valid` holds |
| `SingleFeature.SingleFeatureModel.PredictOne` | models/single_feature_model.py:33-43 | Scalar prediction: `w*x + b` at the current fields; reads the fields and changes none |
| `SingleFeature.SingleFeatureModel.PredictMany` | models/single_feature_model.py:17-31 | Array prediction: a result exactly as long as `x` whose entry `i` is the scalar prediction at `x[i]`; changes no field |
| `SingleFeature.SingleFeatureModel.ComputeCost` | models/single_feature_model.py:45-64 | On usable data returns `Cost(x, y, w, b)`, half the mean squared error at the current fields, and stores it in `cost`; on no examples raises `ZeroDivisionError` and on too few targets `IndexError`, leaving `cost` as it was; never touches `w`, `b` or the history; keeps every stored cost non-negative |
| `SingleFeature.SingleFeatureModel.ComputeGradient` | models/single_feature_model.py:66-93 | Returns `Gradient(x, y, w, b)` for the passed `w`, `b`: the averages of `err_i * x_i` and of `err_i`; the same two exceptions under the same conditions; reads and changes no field |
| `SingleFeature.SingleFeatureModel.GradientDescent` | models/single_feature_model.py:95-118 | With zero steps (including a negative count) returns the current `(w, b)` and changes nothing; with steps on unusable data raises the data's exception and changes nothing; otherwise the fields end at `Descend` of the old parameters (each step takes both partial derivatives at the same snapshot), the history is the old history followed by `CostTrace` (one entry per step), the stored cost is the cost at the final parameters, the result is the final `(w, b)`, and all costs stay non-negative |
| `SingleFeature.SingleFeatureModel.DescentStep` | models/single_feature_model.py:108-115 | One pass of the training loop from the snapshot `(w0, b0)`: on usable data returns `Step` of the snapshot, commits it to `w` and `b`, stores the cost there and appends that cost to the history; on unusable data raises the data's exception and changes nothing; all costs stay non-negative |
| `SingleFeature.Steps` | models/single_feature_model.py:107 | Defines the number of passes of `range(self.iterations)`: the count itself, or none when it is negative |
| `Regression.Predict` | models/single_feature_model.py:41 | Defines the line `w*x + b`, the one formula behind both predictions and the `f_wb` of the cost and gradient loops |
| `Regression.WeightedErrorSum` | models/single_feature_model.py:82-87 | Defines the `dw` accumulator after `n` passes: the sum of residual times input over the first `n` examples |
| `Regression.ErrorSum` | models/single_feature_model.py:82-88 | Defines the `db` accumulator after `n` passes: the sum of the residuals of the first `n` examples |
| `Regression.Gradient` | models/single_feature_model.py:90-93 | Defines the returned pair: both accumulators over all examples, each divided by the number of examples |
| `Regression.Step` | models/single_feature_model.py:108-111 | Defines one update: both partial derivatives taken at the same snapshot, each parameter moved against its own by the learning rate |
| `Regression.StepFromGradient` | models/single_feature_model.py:108-111 | Subtracting `alpha` times a gradient computed at `(w, b)` from `w` and `b` gives exactly `Step` from `(w, b)` |
| `Regression.Descend` | models/single_feature_model.py:107-114 | Defines the parameters after `k` passes of the loop: `Step` applied `k` times to the starting snapshot |
| `Regression.Fault` | models/single_feature_model.py:77-91 | The data raise nothing exactly when there is at least one example and no fewer targets than inputs; the exception is `ZeroDivisionError` exactly when there is no example |
| `Regression.SquaredErrorSum` | models/single_feature_model.py:55-59 | The accumulated sum of squared errors is never negative |
| `Regression.Cost` | models/single_feature_model.py:61 | The cost is never negative |
| `Regression.SquaredErrorSumZero` | models/single_feature_model.py:55-59 | The sum of squared errors over a prefix is zero if and only if every residual in it is zero |
| `Regression.CostZeroIffPerfectFit` | models/single_feature_model.py:54-61 | The cost is zero if and only if `w*x[i] + b == y[i]` for every example |
| `Regression.SumsVanishOnExactPrefix` | models/single_feature_model.py:82-88 | Both gradient accumulators are zero over a prefix on which the line is exact |
| `Regression.GradientZeroAtPerfectFit` | models/single_feature_model.py:77-93 | At a perfect fit the gradient is `(0, 0)` |
| `Regression.GradientExample` | models/single_feature_model.py:77-93 | For `x = y = [1, 2, 3]` at `w = b = 0` the gradient is `(-14/3, -2)` |
| `Regression.SquaredErrorSumReadsPrefix` | models/single_feature_model.py:56-58 | The cost accumulator reads only the targets at the indices of `x` |
| `Regression.WeightedErrorSumReadsPrefix` | models/single_feature_model.py:82-87 | The `dw` accumulator reads only the targets at the indices of `x` |
| `Regression.ErrorSumReadsPrefix` | models/single_feature_model.py:82-88 | The `db` accumulator reads only the targets at the indices of `x` |
| `Regression.SurplusTargetsIgnored` | models/single_feature_model.py:54-61 | Cost and gradient on targets longer than the inputs equal those on the targets cut to the inputs' length |
| `Regression.CostTrace` | models/single_feature_model.py:107-115 | The training loop records exactly one cost per step |
| `Regression.CostTraceAt` | models/single_feature_model.py:107-115 | History entry `j` of a run is the cost at the parameters committed in step `j + 1` |
| `Regression.DescendCompose` | models/single_feature_model.py:104-114 | Running `j` steps and then `k` more from where they stopped gives the parameters of `j + k` steps |
| `Regression.CostTraceCompose` | models/single_feature_model.py:104-115 | The costs of `j + k` steps are the costs of the first `j` followed by those of `k` steps resumed from there |
| `Regression.PerfectFitIsFixedPoint` | models/single_feature_model.py:107-114 | From a perfect fit, descent never moves the parameters, whatever the learning rate, and every recorded cost is zero |

## Left out

- Floating point: rounding, overflow, infinities other than the initial cost, and NaN are not modelled; arithmetic is exact over `real`.
- Convergence: the claims that the cost decreases and that training reaches a given line depend on floating point and on the learning rate, and are not stated.
- numpy and matplotlib: arrays are `seq<real>`; the array prediction fills a zeroed Dafny array and returns its contents as a sequence. The plotting import is unused by the core.
- The base class `models.model.Model` is not part of this model; `alpha` and `iterations` are taken as constants set by the constructor.
- The fields are class attributes in the code, shared by every instance that has not assigned them; the model gives each instance its own fields.
- The conversion of the history to a numpy array at the end of training (line 117) is not modelled: the history stays an append-only sequence. In the code, a second training call on the same instance would then fail on `append`. `CostTraceCompose` describes the sequence a resumed run would build.
- The two `compute_model_output` definitions share one name in the code, and the second replaces the first. The model keeps both, under the names `PredictOne` and `PredictMany`.
- Inputs that are not one-dimensional arrays of numbers, and the exceptions numpy would raise for them, are not modelled.
