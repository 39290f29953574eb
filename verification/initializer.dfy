/** The strategy selector that decides with what values a trainable tensor is
    initialized. The tensor itself and the random generator belong to the
    backend; this model stops at the request handed to the backend: the shape
    and either a constant fill or a distribution to draw from. */
module Initializers {
  import opened Wrappers
  import opened Roots

  /** One initialization strategy, carrying only its own scalar parameters.
      `fanOutOnly` makes Kaiming read the fan out instead of the fan in. */
  datatype Initializer =
    | Constant(value: real)
    | Ones
    | Zeros
    | Uniform(min: real, max: real)
    | Normal(mean: real, std: real)
    | KaimingUniform(gain: real, fanOutOnly: bool)
    | KaimingNormal(gain: real, fanOutOnly: bool)
    | XavierUniform(gain: real)
    | XavierNormal(gain: real)
  {
    predicate IsKaiming() {
      KaimingUniform? || KaimingNormal?
    }

    predicate IsXavier() {
      XavierUniform? || XavierNormal?
    }
  }

  /** Dimension sizes of the requested tensor; only forwarded to the backend. */
  type Shape = seq<nat>

  /** What the backend is asked to fill the tensor with. */
  datatype DistSpec =
    | Fill(value: real)
    | UniformDist(low: real, high: real)
    | NormalDist(mean: real, std: real)

  /** A request to the backend: a tensor of `shape` whose elements follow `dist`. */
  datatype TensorRequest = TensorRequest(shape: Shape, dist: DistSpec)

  /** The two layer statistics a fan-based formula can read. */
  datatype Fan = FanIn | FanOut

  /** The two fan-based families; each fails with its own message. */
  datatype Scheme = Kaiming | Xavier

  /** The fail-fast error: `scheme` needed `fan` and the caller did not supply it. */
  datatype FanError = MissingFan(scheme: Scheme, fan: Fan)

  /** The fan Kaiming reads: the fan out when `fanOutOnly`, else the fan in. */
  function SelectedFan(fanOutOnly: bool): Fan {
    if fanOutOnly then FanOut else FanIn
  }

  /** The value supplied for `fan`, if any. */
  function FanValue(fan: Fan, fanIn: Option<nat>, fanOut: Option<nat>): Option<nat> {
    match fan
    case FanIn => fanIn
    case FanOut => fanOut
  }

  /** Whether a strategy's formula reads `fan`, stated per strategy without
      the formulas: Kaiming reads its selected fan, Xavier reads both. */
  predicate Needs(init: Initializer, fan: Fan) {
    if init.IsKaiming() then fan == SelectedFan(init.fanOutOnly)
    else init.IsXavier()
  }

  /** Whether the caller supplied `fan`. */
  predicate Supplied(fan: Fan, fanIn: Option<nat>, fanOut: Option<nat>) {
    FanValue(fan, fanIn, fanOut).Some?
  }

  /** Every fan the strategy reads was supplied. */
  predicate NeedsMet(init: Initializer, fanIn: Option<nat>, fanOut: Option<nat>) {
    && (Needs(init, FanIn) ==> Supplied(FanIn, fanIn, fanOut))
    && (Needs(init, FanOut) ==> Supplied(FanOut, fanIn, fanOut))
  }

  /** The divisions the formulas perform are by non-zero numbers: the
      selected Kaiming fan is not 0, and the Xavier fans do not sum to 0.
      The source does not guard these (it would produce an infinite or NaN
      parameter); strategies without a formula need nothing. */
  predicate FansUsable(init: Initializer, fanIn: Option<nat>, fanOut: Option<nat>) {
    if init.IsKaiming() then KaimingFanUsable(init.fanOutOnly, fanIn, fanOut)
    else if init.IsXavier() then XavierFansUsable(fanIn, fanOut)
    else true
  }

  predicate KaimingFanUsable(fanOutOnly: bool, fanIn: Option<nat>, fanOut: Option<nat>) {
    FanValue(SelectedFan(fanOutOnly), fanIn, fanOut) != Some(0)
  }

  predicate XavierFansUsable(fanIn: Option<nat>, fanOut: Option<nat>) {
    fanIn.Some? && fanOut.Some? ==> 0 < fanIn.value + fanOut.value
  }

  /** Kaiming's standard deviation before the gain, 1/Sqrt(sqrt, fan) of the
      selected fan; fails when that fan is missing, whatever the other one.
      Its square is the subject of `KaimingStdFormula`. */
  function KaimingStd(fanOutOnly: bool, fanIn: Option<nat>, fanOut: Option<nat>, sqrt: real -> real)
    : (r: Result<real, FanError>)
    requires IsSqrt(sqrt)
    requires KaimingFanUsable(fanOutOnly, fanIn, fanOut)
    ensures r.Failure? <==> !Supplied(SelectedFan(fanOutOnly), fanIn, fanOut)
    ensures r.Failure? ==> r.error == MissingFan(Kaiming, SelectedFan(fanOutOnly))
    ensures r.Success? ==> 0.0 < r.value
  {
    var fan :- FanValue(SelectedFan(fanOutOnly), fanIn, fanOut).ToResult(MissingFan(Kaiming, SelectedFan(fanOutOnly)));
    SqrtPositive(sqrt, fan as real);
    Success(1.0 / Sqrt(sqrt, fan as real))
  }

  /** Xavier's standard deviation before the gain, Sqrt(sqrt, 2/(fan_in+fan_out));
      the fan in is checked first, so it is the one reported when both are
      missing. Its square is the subject of `XavierStdFormula`. */
  function XavierStd(fanIn: Option<nat>, fanOut: Option<nat>, sqrt: real -> real): (r: Result<real, FanError>)
    requires IsSqrt(sqrt)
    requires XavierFansUsable(fanIn, fanOut)
    ensures r.Success? <==> fanIn.Some? && fanOut.Some?
    ensures r.Failure? ==> r.error == MissingFan(Xavier, if fanIn.None? then FanIn else FanOut)
    ensures r.Success? ==> 0.0 < r.value
  {
    var fanIn :- fanIn.ToResult(MissingFan(Xavier, FanIn));
    var fanOut :- fanOut.ToResult(MissingFan(Xavier, FanOut));
    var q := 2.0 / (fanIn + fanOut) as real;
    SqrtPositive(sqrt, q);
    Success(Sqrt(sqrt, q))
  }

  /** Resolves `init` with the optional fans into a request for a tensor of
      `shape`. It succeeds exactly when every fan the strategy needs was
      supplied, forwards the shape untouched, and otherwise names a missing
      fan of the right family. */
  function InitWith(init: Initializer, shape: Shape, fanIn: Option<nat>, fanOut: Option<nat>, sqrt: real -> real)
    : (r: Result<TensorRequest, FanError>)
    requires IsSqrt(sqrt)
    requires FansUsable(init, fanIn, fanOut)
    ensures r.Success? <==> NeedsMet(init, fanIn, fanOut)
    ensures r.Success? ==> r.value.shape == shape
    ensures r.Failure? ==> Needs(init, r.error.fan) && !Supplied(r.error.fan, fanIn, fanOut)
    ensures r.Failure? ==> (r.error.scheme == Kaiming <==> init.IsKaiming())
    ensures r.Failure? && init.IsXavier() ==> r.error.fan == (if fanIn.None? then FanIn else FanOut)
  {
    match init
    case Constant(value) => Success(TensorRequest(shape, Fill(value)))
    case Ones => Success(TensorRequest(shape, Fill(1.0)))
    case Zeros => Success(TensorRequest(shape, Fill(0.0)))
    case Uniform(min, max) => Success(TensorRequest(shape, UniformDist(min, max)))
    case Normal(mean, std) => Success(TensorRequest(shape, NormalDist(mean, std)))
    case KaimingUniform(gain, fanOutOnly) =>
      var std :- KaimingStd(fanOutOnly, fanIn, fanOut, sqrt);
      var a := Sqrt(sqrt, 3.0) * gain * std;
      Success(TensorRequest(shape, UniformDist(-a, a)))
    case KaimingNormal(gain, fanOutOnly) =>
      var std :- KaimingStd(fanOutOnly, fanIn, fanOut, sqrt);
      Success(TensorRequest(shape, NormalDist(0.0, gain * std)))
    case XavierUniform(gain) =>
      var std :- XavierStd(fanIn, fanOut, sqrt);
      var a := Sqrt(sqrt, 3.0) * gain * std;
      Success(TensorRequest(shape, UniformDist(-a, a)))
    case XavierNormal(gain) =>
      var std :- XavierStd(fanIn, fanOut, sqrt);
      Success(TensorRequest(shape, NormalDist(0.0, gain * std)))
  }

  /** Resolves `init` without fan statistics: the same as `InitWith` with both
      fans absent, so it succeeds exactly for the strategies that need no fan. */
  function Init(init: Initializer, shape: Shape, sqrt: real -> real): (r: Result<TensorRequest, FanError>)
    requires IsSqrt(sqrt)
    ensures r == InitWith(init, shape, None, None, sqrt)
    ensures r.Success? <==> !init.IsKaiming() && !init.IsXavier()
    ensures r.Failure? ==> r.error.fan == (if init.IsKaiming() then SelectedFan(init.fanOutOnly) else FanIn)
  {
    InitWith(init, shape, None, None, sqrt)
  }
}
