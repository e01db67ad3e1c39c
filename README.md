# Fully connected Gaussian DAG and the truncated exponential family

This project models two parts of the AMIDST probabilistic-modelling toolbox in Dafny and proves properties of them.

1. **The multivariate Gaussian model** (`MultivariateGaussianDistribution`). `buildDAG` connects the variable list fully. Each variable gets every later variable of the list as a parent. `isValidConfiguration` accepts the model only when every variable is REAL. Module `MultivariateGaussian` holds both, in `multivariate_gaussian.dfy`. `BuildDAG` is a method with two nested loops that append to the parent lists of a fresh `DAG` object. It is proved equal to the specification `FullyConnected(n)`. Lemmas then show what that structure is:
   - each parent list is exactly the later positions, in increasing order;
   - no variable is its own parent;
   - the last variable has no parents;
   - every link points to a later position, so no path returns to where it started;
   - there are n(n-1)/2 links in all.

   `IsValidConfiguration` models the stream `map`/`reduce(...).get()`. It fails when the variable list is empty.
2. **The truncated exponential distribution in exponential-family form** (`EF_TruncatedExponential`). Module `ExponentialFamily` holds it, in `truncated_exponential.dfy`. The class `TruncatedExponential` keeps its natural and moment parameters in two length-1 `array<real>` fields. Its methods are specified by the state they leave behind:
   - the two constructors set the natural parameter to 0.1 or to `initialDelta`, then resynchronise the moment;
   - `UpdateMomentFromNaturalParameters` writes only the moment;
   - `RandomInitialization` sets the parameter, resynchronises the moment and returns the same object;
   - `DeepCopy` returns fresh storage with equal contents, bound to the source's variable;
   - the two unsupported operations always fail.

   The closed forms of the log-normalizer and the inverse CDF are named by datatypes. The branch functions state which form applies for which range of `delta`: above 100, in (0, 100], or at most 0.

`Math.exp` and `Math.log` are left uninterpreted. They are fields of a `MathLib` value (module `FloatingPoint`, `floating_point.dfy`) that the operations take as a parameter. Double division is modelled by `Divide`. It is exact real division when the divisor is not zero. For a zero divisor, where Java yields an infinity or NaN, it returns an uninterpreted value that depends on the dividend only. So the moment formula is total and needs no extra precondition, but it is finite where Java's is not (see "## Left out"). Variables (`variables.dfy`) are an identifier and a state-space tag, so two variables of the same type are distinct values. The multivariate model identifies a variable by its position in the variable list. Parent lists hold positions in the variable list. `wrappers.dfy` has the `Option`, `Result` and `Outcome` types that stand for `Optional` and for thrown exceptions.

Two behaviours of the code are modelled as written:
- At `delta = 0` the moment formula divides by zero, and `updateMomentFromNaturalParameters` has no guard (EF_TruncatedExponential.java:118). So `UpdateMomentFromNaturalParameters` has no precondition.
- `deepCopy` ignores its `variable` argument and binds the copy to `this.var` (EF_TruncatedExponential.java:86). `DeepCopy` states exactly that.

## Model

| member | source | states |
|---|---|---|
| `MultivariateGaussian.MultivariateGaussianDistribution.BuildDAG` | latent-variable-models/src/main/java/eu/amidst/latentvariablemodels/staticmodels/MultivariateGaussianDistribution.java:52-65 | the model's DAG is a freshly allocated one whose parent lists are exactly `FullyConnected(n)` for the n variables, so only the loop's links exist |
| `MultivariateGaussian.DAG.constructor` | latent-variable-models/src/main/java/eu/amidst/latentvariablemodels/staticmodels/MultivariateGaussianDistribution.java:54 | a new DAG over n variables has n parent lists, all empty |
| `MultivariateGaussian.DAG.AddParent` | latent-variable-models/src/main/java/eu/amidst/latentvariablemodels/staticmodels/MultivariateGaussianDistribution.java:62 | adding a link appends the parent to the child's list and leaves every other list unchanged |
| `MultivariateGaussian.ParentsOf` | latent-variable-models/src/main/java/eu/amidst/latentvariablemodels/staticmodels/MultivariateGaussianDistribution.java:59-63 | position p is a parent of i exactly when i < p < n, and the list is strictly increasing |
| `MultivariateGaussian.NoSelfLoops` | latent-variable-models/src/main/java/eu/amidst/latentvariablemodels/staticmodels/MultivariateGaussianDistribution.java:60 | no variable of the built DAG is among its own parents |
| `MultivariateGaussian.LastHasNoParents` | latent-variable-models/src/main/java/eu/amidst/latentvariablemodels/staticmodels/MultivariateGaussianDistribution.java:59 | the last variable, and so a lone variable, has an empty parent list |
| `MultivariateGaussian.DownwardPathAscends` | latent-variable-models/src/main/java/eu/amidst/latentvariablemodels/staticmodels/MultivariateGaussianDistribution.java:59-63 | in a DAG whose links all point to later positions, every path of one or more links ends at a later position than it starts |
| `MultivariateGaussian.FullyConnectedIsAcyclic` | latent-variable-models/src/main/java/eu/amidst/latentvariablemodels/staticmodels/MultivariateGaussianDistribution.java:59-63 | every link of the built DAG points to a later position, and no path of one or more links returns to its start |
| `MultivariateGaussian.PrefixLinkCount` | latent-variable-models/src/main/java/eu/amidst/latentvariablemodels/staticmodels/MultivariateGaussianDistribution.java:59-64 | the first m parent lists of the fully connected DAG over n variables carry m(2n-m-1)/2 links between them |
| `MultivariateGaussian.FullyConnectedLinkCount` | latent-variable-models/src/main/java/eu/amidst/latentvariablemodels/staticmodels/MultivariateGaussianDistribution.java:59-64 | the built DAG over n variables has n(n-1)/2 links |
| `MultivariateGaussian.ReduceAnd` | latent-variable-models/src/main/java/eu/amidst/latentvariablemodels/staticmodels/MultivariateGaussianDistribution.java:79-81 | the conjunction reduction is empty exactly on an empty stream, and otherwise true iff every element is true |
| `MultivariateGaussian.MultivariateGaussianDistribution.IsValidConfiguration` | latent-variable-models/src/main/java/eu/amidst/latentvariablemodels/staticmodels/MultivariateGaussianDistribution.java:76-87 | fails (no element to `get`) exactly when there are no variables; otherwise true iff every variable's state-space type is REAL; it reads the variable list and changes nothing |
| `MultivariateGaussian.MultivariateGaussianDistribution.constructor` | latent-variable-models/src/main/java/eu/amidst/latentvariablemodels/staticmodels/MultivariateGaussianDistribution.java:40-43 | the model holds the given variable list and no DAG yet |
| `FloatingPoint.Divide` | core/src/main/java/eu/amidst/core/exponentialfamily/EF_TruncatedExponential.java:118 | the double quotient is the exact quotient whenever the divisor is not zero |
| `ExponentialFamily.TruncatedExponential.constructor` | core/src/main/java/eu/amidst/core/exponentialfamily/EF_TruncatedExponential.java:33-42 | fresh length-1 vectors, natural parameter 0.1, moment resynchronised from it, bound to the given variable with no parents |
| `ExponentialFamily.TruncatedExponential.WithDelta` | core/src/main/java/eu/amidst/core/exponentialfamily/EF_TruncatedExponential.java:50-59 | fresh length-1 vectors, natural parameter `initialDelta`, moment resynchronised from it, bound to the given variable with no parents |
| `ExponentialFamily.TruncatedExponential.SetNaturalParameters` | core/src/main/java/eu/amidst/core/exponentialfamily/EF_TruncatedExponential.java:41 | the given vector becomes the natural parameters, unchanged, and the moment is recomputed from it |
| `ExponentialFamily.TruncatedExponential.UpdateMomentFromNaturalParameters` | core/src/main/java/eu/amidst/core/exponentialfamily/EF_TruncatedExponential.java:116-120 | moment[0] becomes the moment formula of natural[0]; the natural parameters are unchanged and nothing else is written |
| `ExponentialFamily.TruncatedExponential.UpdateNaturalFromMomentParameters` | core/src/main/java/eu/amidst/core/exponentialfamily/EF_TruncatedExponential.java:110-112 | always fails with an unsupported-operation error, "Not Implemented", and changes no state |
| `ExponentialFamily.TruncatedExponential.ToUnivariateDistribution` | core/src/main/java/eu/amidst/core/exponentialfamily/EF_TruncatedExponential.java:105-107 | always fails with an unsupported-operation error and changes no state |
| `ExponentialFamily.TruncatedExponential.RandomInitialization` | core/src/main/java/eu/amidst/core/exponentialfamily/EF_TruncatedExponential.java:93-102 | natural[0] becomes the Gaussian draw times the integer draw, the moment is consistent with it, the vectors keep their storage, and the result is the object itself |
| `ExponentialFamily.TruncatedExponential.DeepCopy` | core/src/main/java/eu/amidst/core/exponentialfamily/EF_TruncatedExponential.java:85-90 | a fresh object with fresh vectors equal to the source's, bound to the source's variable rather than the argument |
| `ExponentialFamily.CopyVector` | core/src/main/java/eu/amidst/core/exponentialfamily/EF_TruncatedExponential.java:87-88 | the destination vector ends equal, element by element, to the source vector |
| `ExponentialFamily.CreateZeroVector` | core/src/main/java/eu/amidst/core/exponentialfamily/EF_TruncatedExponential.java:146-148 | a fresh zero-filled vector of length 1 |
| `ExponentialFamily.SizeOfSufficientStatistics` | core/src/main/java/eu/amidst/core/exponentialfamily/EF_TruncatedExponential.java:122-125 | the family has exactly one sufficient statistic, so every parameter and statistic vector has length 1 |
| `ExponentialFamily.GetSufficientStatistics` | core/src/main/java/eu/amidst/core/exponentialfamily/EF_TruncatedExponential.java:68-72 | the statistics of `val` form a vector of length `SizeOfSufficientStatistics()` = 1 whose element 0 is `val` |
| `ExponentialFamily.SufficientStatisticsInjective` | core/src/main/java/eu/amidst/core/exponentialfamily/EF_TruncatedExponential.java:68-72 | two observations have the same sufficient statistics iff they are equal |
| `ExponentialFamily.CreateInitSufficientStatistics` | core/src/main/java/eu/amidst/core/exponentialfamily/EF_TruncatedExponential.java:151-155 | the initial statistics are the vector [0.1], the statistics of the observation 0.1 |
| `ExponentialFamily.ComputeLogBaseMeasure` | core/src/main/java/eu/amidst/core/exponentialfamily/EF_TruncatedExponential.java:62-65 | the log base measure is 0 for every value |
| `ExponentialFamily.LogNormalizerBranch` | core/src/main/java/eu/amidst/core/exponentialfamily/EF_TruncatedExponential.java:132-138 | the asymptote applies iff delta > 100, the positive form iff 0 < delta <= 100, the negative form iff delta <= 0 (including delta = 0) |
| `ExponentialFamily.TruncatedExponential.ComputeLogNormalizer` | core/src/main/java/eu/amidst/core/exponentialfamily/EF_TruncatedExponential.java:128-143 | on each range of the current natural parameter the log-normalizer is that range's closed form |
| `ExponentialFamily.InverseCdfBranch` | core/src/main/java/eu/amidst/core/exponentialfamily/EF_TruncatedExponential.java:165-169 | the large-delta form applies iff delta > 100, the general form iff delta <= 100 |
| `ExponentialFamily.TruncatedExponential.InverserCumulativeDistribution` | core/src/main/java/eu/amidst/core/exponentialfamily/EF_TruncatedExponential.java:163-170 | on each range of the current natural parameter the inverse CDF is that range's closed form |

## Left out

- UpdateMomentFromNaturalParameters: at `delta = 0` the two divisions by zero of the dividend 1 get the same uninterpreted value and cancel. If `exp(0) = 1`, the model's moment is then 0.0, where Java's `1.0/(1-Math.exp(-0.0)) - 1/0.0` is Infinity minus Infinity, a NaN (+Infinity at -0.0, which `randomInitialization` reaches with a negative Gaussian draw and an integer draw of 0). The model does not represent non-finite doubles.
- ComputeLogNormalizer: at `delta = 0` (the negative form) Java's `Math.log(0) - Math.log(-0.0)` is negative Infinity minus negative Infinity, a NaN. In the model `log` is a total function on reals, so if `exp(0) = 1` the two terms cancel to 0.0.
- InverserCumulativeDistribution: at `delta = 0` Java's quotient is 0/0, a NaN. In the model it is the uninterpreted zero-divisor value of the dividend, a real number.
- The values of `Math.exp`, `Math.log` and `Math.pow`, and double rounding. `exp` and `log` are uninterpreted. Arithmetic other than division by zero is exact real arithmetic. A quotient by zero is an uninterpreted value, not an infinity or NaN. So the model proves nothing numeric: not the value of the moment formula, not continuity of the log-normalizer, not monotonicity of the moment.
- `cumulativeDistribution` and `gradientInverserCumulativeDistribution` (EF_TruncatedExponential.java:158-181): they are numeric formulas only. The gradient's `delta > 100` test is the same threshold as `InverseCdfBranch`.
- `FixNumericalInstability`: it is modelled as the empty method it is, so it has no contract.
- `java.util.Random` in `randomInitialization`: the Gaussian draw and the `nextInt(100)` draw are method parameters. The second is required to lie in [0, 100), as `nextInt(100)` promises.
- The base classes `EF_TruncatedUnivariateDistribution`, `EF_UnivariateDistribution` and `Model`, and the `Vector`, `ArrayVector`, `DAG`, `ParentSet`, `Variables` and `Variable` classes are not part of this model. Where the modelled code calls them, the model states the behaviour directly:
  - `setNaturalParameters` installs the vector, then calls `updateMomentFromNaturalParameters`;
  - `Vector.copy` copies elements;
  - `DAG(vars)` starts with empty parent sets;
  - `addParent` appends.
- In the multivariate model, variables are identified by their position in the variable list, and a variable's `id` is not read. The parent lists hold positions, not `Variable` objects.
- `getExpectedParameters` is modelled as the reader `Moment()`. `createZeroNaturalParameters`, `createZeroMomentParameters` and `createZeroSufficientStatistics` are modelled as `CreateZeroVector` and `ZeroVector`.
- The `Model` superclass constructor that builds the variable list from `Attributes`, and its `WrongConfigurationException`: they are not in the modelled files. The model's constructor takes the variable list directly.
- `System.err.println` in `isValidConfiguration`, and `main` (data generation, learning and printing): console output and a driver.
- `InferenceAlgorithmForDBN`: an interface without an implementation.
- `DataFileWriter`: file output.
- `BayesianNetworkLoader`: object deserialisation and a third-party engine bridge.
