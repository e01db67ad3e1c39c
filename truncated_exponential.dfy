/** The truncated exponential distribution on [0, 1] as a member of the exponential family:
    one natural parameter `delta`, one moment parameter, and the identity as sufficient
    statistic. */
module ExponentialFamily {
  import opened Wrappers
  import opened Variables
  import opened FloatingPoint

  /** `UnsupportedOperationException` with its message. */
  datatype Error = UnsupportedOperation(message: string)

  /** Natural parameter a new distribution starts from. */
  const DefaultDelta: real := 0.1
  /** Value of the initial sufficient statistics. */
  const InitStatistic: real := 0.1
  /** Above this `delta` the log-normalizer and the inverse CDF use their large-delta form. */
  const LargeDeltaThreshold: real := 100.0

  // ---------------------------------------------------------------------------------
  // Vectors and sufficient statistics
  // ---------------------------------------------------------------------------------

  /** The family has one sufficient statistic, so every parameter vector has length 1. */
  function SizeOfSufficientStatistics(): (r: nat)
    ensures r == 1
  {
    1
  }

  /** The contents of a new vector of the family's size (`new ArrayVector(1)`). */
  function ZeroVector(): seq<real>
  {
    seq(SizeOfSufficientStatistics(), _ => 0.0)
  }

  /** `createZeroVector`: a new zero-filled parameter vector. */
  method CreateZeroVector() returns (v: array<real>)
    ensures fresh(v) && v[..] == ZeroVector()
    ensures v.Length == SizeOfSufficientStatistics()
  {
    v := new real[SizeOfSufficientStatistics()](_ => 0.0);
  }

  /** `Vector.copy`: overwrites `dst` with the elements of `src`. */
  method CopyVector(dst: array<real>, src: array<real>)
    requires dst.Length == src.Length && dst != src
    modifies dst
    ensures dst[..] == src[..]
  {
    for k := 0 to dst.Length
      invariant dst[..k] == src[..k]
    {
      dst[k] := src[k];
    }
  }

  /** The sufficient statistics of one observation: the observation itself. */
  function GetSufficientStatistics(val: real): (s: seq<real>)
    ensures |s| == SizeOfSufficientStatistics()
    ensures s[0] == val
  {
    ZeroVector()[0 := val]
  }

  /** Distinct observations have distinct sufficient statistics. */
  lemma SufficientStatisticsInjective(x: real, y: real)
    ensures GetSufficientStatistics(x) == GetSufficientStatistics(y) <==> x == y
  {
    if GetSufficientStatistics(x) == GetSufficientStatistics(y) {
      assert GetSufficientStatistics(x)[0] == GetSufficientStatistics(y)[0];
    }
  }

  /** The initial sufficient statistics: those of the observation 0.1. */
  function CreateInitSufficientStatistics(): (s: seq<real>)
    ensures s == GetSufficientStatistics(InitStatistic)
    ensures |s| == SizeOfSufficientStatistics() && s[0] == InitStatistic
  {
    ZeroVector()[0 := InitStatistic]
  }

  /** The base measure contributes nothing, whatever the value. */
  function ComputeLogBaseMeasure(val: real): (r: real)
    ensures r == 0.0
  {
    0.0
  }

  // ---------------------------------------------------------------------------------
  // Closed forms and the branch that selects them
  // ---------------------------------------------------------------------------------

  /** The moment parameter the natural parameter `delta` determines:
      1 / (1 - e^-delta) - 1 / delta, evaluated as doubles with no guard for delta = 0. */
  function MomentFromNatural(lib: MathLib, delta: real): real
  {
    Divide(lib, 1.0, 1.0 - lib.exp(-delta)) - Divide(lib, 1.0, delta)
  }

  /** The three closed forms of the log-normalizer. */
  datatype LogNormalizerForm =
    | Asymptote     // delta - log delta
    | PositiveForm  // log(e^delta - 1) - log delta
    | NegativeForm  // log(1 - e^delta) - log(-delta)

  /** Which closed form the log-normalizer uses for `delta`; delta = 0 takes the negative one. */
  function LogNormalizerBranch(delta: real): (f: LogNormalizerForm)
    ensures f == Asymptote <==> delta > LargeDeltaThreshold
    ensures f == PositiveForm <==> 0.0 < delta <= LargeDeltaThreshold
    ensures f == NegativeForm <==> delta <= 0.0
  {
    if delta > LargeDeltaThreshold then Asymptote
    else if delta > 0.0 then PositiveForm
    else NegativeForm
  }

  function LogNormalizerValue(lib: MathLib, f: LogNormalizerForm, delta: real): real
  {
    match f
    case Asymptote => delta - lib.log(delta)
    case PositiveForm => lib.log(lib.exp(delta) - 1.0) - lib.log(delta)
    case NegativeForm => lib.log(1.0 - lib.exp(delta)) - lib.log(-delta)
  }

  /** The two closed forms of the inverse CDF. */
  datatype InverseCdfForm =
    | LargeDeltaForm  // log(u) / delta + 1
    | GeneralForm     // log(1 + u (e^delta - 1)) / delta

  /** Which closed form the inverse CDF uses for `delta`. */
  function InverseCdfBranch(delta: real): (f: InverseCdfForm)
    ensures f == LargeDeltaForm <==> delta > LargeDeltaThreshold
    ensures f == GeneralForm <==> delta <= LargeDeltaThreshold
  {
    if delta > LargeDeltaThreshold then LargeDeltaForm else GeneralForm
  }

  function InverseCdfValue(lib: MathLib, f: InverseCdfForm, delta: real, uniform: real): real
  {
    match f
    case LargeDeltaForm => Divide(lib, lib.log(uniform), delta) + 1.0
    case GeneralForm => Divide(lib, lib.log(1.0 + uniform * (lib.exp(delta) - 1.0)), delta)
  }

  // ---------------------------------------------------------------------------------
  // The distribution object
  // ---------------------------------------------------------------------------------

  class TruncatedExponential {
    /** The variable the distribution is bound to. */
    const variable: Variable
    /** The conditioning variables: none for this family. */
    const parents: seq<Variable>
    var naturalParameters: array<real>
    var momentParameters: array<real>

    /** Both parameter vectors have the family's length and separate storage. */
    ghost predicate Valid()
      reads this
    {
      && naturalParameters.Length == SizeOfSufficientStatistics()
      && momentParameters.Length == SizeOfSufficientStatistics()
      && naturalParameters != momentParameters
    }

    /** The natural parameter. */
    function Delta(): real
      reads this, naturalParameters
      requires Valid()
    {
      naturalParameters[0]
    }

    /** The moment parameter (`getExpectedParameters().get(0)`). */
    function Moment(): real
      reads this, momentParameters
      requires Valid()
    {
      momentParameters[0]
    }

    /** The new distribution has natural parameter 0.1 and the moment that goes with it. */
    constructor (variable: Variable, lib: MathLib)
      ensures Valid() && fresh(naturalParameters) && fresh(momentParameters)
      ensures this.variable == variable && parents == []
      ensures Delta() == DefaultDelta
      ensures Moment() == MomentFromNatural(lib, DefaultDelta)
    {
      this.variable := variable;
      parents := [];
      var natural := CreateZeroVector();
      var moment := CreateZeroVector();
      natural[0] := DefaultDelta;
      naturalParameters := natural;
      momentParameters := moment;
      new;
      SetNaturalParameters(natural, lib);
    }

    /** The new distribution has natural parameter `initialDelta` and the moment that goes
        with it. */
    constructor WithDelta(variable: Variable, initialDelta: real, lib: MathLib)
      ensures Valid() && fresh(naturalParameters) && fresh(momentParameters)
      ensures this.variable == variable && parents == []
      ensures Delta() == initialDelta
      ensures Moment() == MomentFromNatural(lib, initialDelta)
    {
      this.variable := variable;
      parents := [];
      var natural := CreateZeroVector();
      var moment := CreateZeroVector();
      natural[0] := initialDelta;
      naturalParameters := natural;
      momentParameters := moment;
      new;
      SetNaturalParameters(natural, lib);
    }

    /** The inherited setter: installs the natural-parameter vector, then resynchronises the
        moment from it. */
    method SetNaturalParameters(parameters: array<real>, lib: MathLib)
      requires Valid()
      requires parameters.Length == SizeOfSufficientStatistics() && parameters != momentParameters
      modifies this, momentParameters
      ensures Valid() && naturalParameters == parameters && momentParameters == old(momentParameters)
      ensures unchanged(parameters)
      ensures Moment() == MomentFromNatural(lib, parameters[0])
    {
      naturalParameters := parameters;
      UpdateMomentFromNaturalParameters(lib);
    }

    /** Recomputes the moment from the natural parameter; the natural parameter is kept. */
    method UpdateMomentFromNaturalParameters(lib: MathLib)
      requires Valid()
      modifies momentParameters
      ensures Valid() && unchanged(naturalParameters)
      ensures Moment() == MomentFromNatural(lib, Delta())
    {
      var delta := naturalParameters[0];
      var val := Divide(lib, 1.0, 1.0 - lib.exp(-delta)) - Divide(lib, 1.0, delta);
      momentParameters[0] := val;
    }

    /** The inverse map has no closed form for this family: it always throws. */
    method UpdateNaturalFromMomentParameters() returns (r: Outcome<Error>)
      ensures r == Fail(UnsupportedOperation("Not Implemented"))
    {
      r := Fail(UnsupportedOperation("Not Implemented"));
    }

    /** There is no standalone distribution object for this family: it always throws. */
    method ToUnivariateDistribution() returns (r: Outcome<Error>)
      ensures r == Fail(UnsupportedOperation("TruncatedExponential is not included yet in the Distributions package."))
    {
      r := Fail(UnsupportedOperation("TruncatedExponential is not included yet in the Distributions package."));
    }

    /** No parameter value needs clamping for this family. */
    method FixNumericalInstability()
    {
    }

    /** Sets the natural parameter to the product of a standard Gaussian draw and a uniform
        integer draw from [0, 100), then resynchronises the moment; returns this object. */
    method RandomInitialization(gaussian: real, uniformInt: int, lib: MathLib)
      returns (self: TruncatedExponential)
      requires Valid() && 0 <= uniformInt < 100
      modifies naturalParameters, momentParameters
      ensures self == this && Valid()
      ensures Delta() == gaussian * uniformInt as real
      ensures Moment() == MomentFromNatural(lib, Delta())
    {
      var randomDelta := gaussian * uniformInt as real;
      naturalParameters[0] := randomDelta;
      FixNumericalInstability();
      UpdateMomentFromNaturalParameters(lib);
      self := this;
    }

    /** A fresh distribution with value copies of both vectors. It is bound to this object's
        variable: the `variable` argument is not used. */
    method DeepCopy(variable: Variable, lib: MathLib) returns (copy: TruncatedExponential)
      requires Valid()
      ensures fresh(copy) && fresh(copy.naturalParameters) && fresh(copy.momentParameters)
      ensures copy.Valid() && copy.variable == this.variable && copy.parents == []
      ensures copy.naturalParameters[..] == naturalParameters[..]
      ensures copy.momentParameters[..] == momentParameters[..]
    {
      copy := new TruncatedExponential(this.variable, lib);
      CopyVector(copy.naturalParameters, naturalParameters);
      CopyVector(copy.momentParameters, momentParameters);
    }

    /** The log-normalizer of the current natural parameter, by the closed form its branch
        selects. */
    function ComputeLogNormalizer(lib: MathLib): (r: real)
      reads this, naturalParameters
      requires Valid()
      ensures Delta() > LargeDeltaThreshold ==> r == Delta() - lib.log(Delta())
      ensures 0.0 < Delta() <= LargeDeltaThreshold ==>
                r == lib.log(lib.exp(Delta()) - 1.0) - lib.log(Delta())
      ensures Delta() <= 0.0 ==> r == lib.log(1.0 - lib.exp(Delta())) - lib.log(-Delta())
    {
      var delta := naturalParameters[0];
      LogNormalizerValue(lib, LogNormalizerBranch(delta), delta)
    }

    /** The inverse CDF at `uniform`, by the closed form its branch selects. */
    function InverserCumulativeDistribution(lib: MathLib, uniform: real): (r: real)
      reads this, naturalParameters
      requires Valid()
      ensures Delta() > LargeDeltaThreshold ==> r == Divide(lib, lib.log(uniform), Delta()) + 1.0
      ensures Delta() <= LargeDeltaThreshold ==>
                r == Divide(lib, lib.log(1.0 + uniform * (lib.exp(Delta()) - 1.0)), Delta())
    {
      var delta := naturalParameters[0];
      InverseCdfValue(lib, InverseCdfBranch(delta), delta, uniform)
    }
  }
}
