# Initializer strategy selector

A Dafny model of the parameter initializer of the burn deep-learning framework
(`burn-core/src/nn/initializer.rs`). An `Initializer` is one of nine strategies:
Constant, Ones, Zeros, Uniform, Normal, KaimingUniform, KaimingNormal,
XavierUniform and XavierNormal. `init_with(shape, fan_in, fan_out)` turns a
strategy and the optional fan statistics of a layer into a request to the
tensor backend. The request is either "fill the shape with a constant" or
"draw every element from Uniform(low, high) / Normal(mean, std)". Kaiming and
Xavier derive their parameters from the fans and panic when a fan they need is
missing. `init(shape)` is `init_with(shape, None, None)`.

Layout:

- `wrappers.dfy`, module `Wrappers`: `Option` and `Result`, with `:-` support.
- `roots.dfy`, module `Roots`: the square root. Dafny's reals have none, and the
  source calls `libm::sqrt`, a foreign function. So every operation takes the
  root function as a parameter `sqrt: real -> real`. The predicate `IsSqrt`
  requires it to return the non-negative root of every non-negative real, and
  nothing else is assumed about it. `Sqrt(sqrt, x)` is the one way it is applied.
- `initializer.dfy`, module `Initializers`: the data model and the operations.
  - `Initializer` is the strategy enum.
  - `DistSpec` is `Fill | UniformDist | NormalDist`.
  - `TensorRequest` is a shape plus a `DistSpec`.
  - `FanError = MissingFan(scheme, fan)` replaces the panic and names the
    family (Kaiming or Xavier) and the missing fan.
  - `KaimingStd`, `XavierStd`, `InitWith` and `Init` model the source functions
    of the same names. The helpers `uniform_draw` and `normal_draw`
    (initializer.rs:147-163) only wrap their parameters in a backend
    distribution, so `InitWith` builds the `UniformDist`/`NormalDist` request
    in their place.
  - `Needs`/`Supplied`/`NeedsMet` say, per strategy and without the formulas,
    which fans a strategy reads. `InitWith` is proved to succeed exactly when
    they were all supplied.
- `initializer_facts.dfy`, module `InitializerFacts`: the properties.
  - `Mean` and `Variance` of a `DistSpec` are the independent reference for
    the formulas: Kaiming is meant to give variance gain²/fan, and Xavier
    2·gain²/(fan_in+fan_out). The source's normal-version tests compare the
    sample mean and variance of the drawn tensor with these values, to within
    0.1. Its uniform-version tests only check that every draw lies in the
    interval [-k, k].
  - `KaimingReferenceDist` and `XavierReferenceDist` write the expected
    distributions the way the source's tests compute them, e.g. the bound
    k = `gain * sqrt(3 / fan_in)`. `KaimingReference` and `XavierReference`
    prove that the request uses exactly that bound or std.

The model follows the code's branches. Kaiming selects `fan_out` when
`fan_out_only`, else `fan_in`, and fails only when that fan is absent.
Xavier tests `fan_in` first and `fan_out` second, so with both absent the
reported fan is the fan in. The uniform versions request the interval
[-a, a] with a = sqrt(3)·gain·std. The normal versions request
Normal(0, gain·std). The source computes a negative bound when the gain is
negative, and the model does not guard against this either.

The model is pure: a strategy value is never changed by a call, and the same
call always yields the same request. The shape only passes through to the
backend. This is proved in `ShapeOnlyForwarded`.

## Model

| member | source | states |
|---|---|---|
| Initializers.InitWith | burn-core/src/nn/initializer.rs:88-117 | succeeds exactly when every fan the strategy reads (per `Needs`) was supplied; the request keeps the caller's shape; a failure names a fan the strategy reads and the caller left out, under the right family (Kaiming or Xavier); a failing Xavier call names the fan in whenever it is absent, else the fan out |
| Initializers.Init | burn-core/src/nn/initializer.rs:76-78 | is `InitWith` with both fans absent; succeeds exactly for the five strategies without fan formulas; a failure names the fan in, or the fan out for a Kaiming strategy with `fan_out_only` |
| Initializers.KaimingStd | burn-core/src/nn/initializer.rs:120-132 | fails exactly when the selected fan (fan out if `fan_out_only`, else fan in) is absent, with a Kaiming error naming that fan; otherwise the std is positive |
| Initializers.XavierStd | burn-core/src/nn/initializer.rs:134-144 | succeeds exactly when both fans are present; when the fan in is absent the fan in is reported, otherwise the fan out; the std is positive |
| InitializerFacts.KaimingStdFormula | burn-core/src/nn/initializer.rs:126-131 | the Kaiming std is the root of 1/fan for the selected fan, so std² = 1/fan |
| InitializerFacts.XavierStdFormula | burn-core/src/nn/initializer.rs:134-143 | the Xavier std is the root of 2/(fan_in+fan_out), so std² = 2/(fan_in+fan_out) |
| InitializerFacts.FillStrategies | burn-core/src/nn/initializer.rs:96-98 | Constant, Ones and Zeros never fail and fill with their value, 1 and 0, whatever fans are given |
| InitializerFacts.ExplicitDistributions | burn-core/src/nn/initializer.rs:147-163 | Uniform{min,max} and Normal{mean,std} never fail, whatever fans are given; the min, max or mean, std they pass at :99-100 through `uniform_draw`/`normal_draw` reach the backend distribution unchanged |
| InitializerFacts.KaimingReadsOnlySelectedFan | burn-core/src/nn/initializer.rs:126-129 | a Kaiming call fails exactly when its selected fan is absent, and changing the other fan (its presence or its value) does not change the result |
| InitializerFacts.XavierNeedsBothFans | burn-core/src/nn/initializer.rs:135-142 | a Xavier call fails exactly when the fan in or the fan out is absent |
| InitializerFacts.ShapeOnlyForwarded | burn-core/src/nn/initializer.rs:94-117 | two calls that differ only in the shape both succeed or both fail; on failure they give the same error, and on success they request the same distribution |
| InitializerFacts.FanBasedCentred | burn-core/src/nn/initializer.rs:101-116 | a successful Kaiming or Xavier request has mean 0: the uniform versions use a symmetric interval (low = -high), the normal versions mean 0 |
| InitializerFacts.KaimingRequest | burn-core/src/nn/initializer.rs:101-108 | when the selected fan is present, Kaiming requests Uniform(-a, a) with a = sqrt(3)·gain·std, or Normal(0, gain·std), for the std `KaimingStd` returns |
| InitializerFacts.XavierRequest | burn-core/src/nn/initializer.rs:109-116 | with both fans present, Xavier requests Uniform(-a, a) with a = sqrt(3)·gain·std, or Normal(0, gain·std), for the std `XavierStd` returns |
| InitializerFacts.KaimingVariance | burn-core/src/nn/initializer.rs:101-108 | both Kaiming versions request a distribution of variance gain²/fan for the selected fan |
| InitializerFacts.XavierVariance | burn-core/src/nn/initializer.rs:109-116 | both Xavier versions request a distribution of variance 2·gain²/(fan_in+fan_out) |
| InitializerFacts.KaimingReference | burn-core/src/nn/initializer.rs:101-108 | Kaiming requests exactly the bound gain·sqrt(3/fan) (uniform) or the std gain·sqrt(1/fan) (normal), the formulas the source's tests use |
| InitializerFacts.XavierReference | burn-core/src/nn/initializer.rs:109-116 | Xavier requests exactly the bound gain·sqrt(6/(fan_in+fan_out)) (uniform) or the std gain·sqrt(2/(fan_in+fan_out)) (normal) |
| InitializerFacts.KaimingUniformTest | burn-core/src/nn/initializer.rs:250-264 | gain 2 with fan in 5 gives a 6x5 matrix the interval Uniform(-k, k) with k = 2·sqrt(3/5) |
| InitializerFacts.KaimingUniformBiasAndFanOutTests | burn-core/src/nn/initializer.rs:283-314 | gain 2 with fan in 5 gives a bias of length 3 the bound k = 2·sqrt(3/5); with `fan_out_only` and only fan out 6, a 6x5 matrix gets k = 2·sqrt(3/6) |
| InitializerFacts.KaimingNormalTest | burn-core/src/nn/initializer.rs:266-281 | gain 2 with fan in 1000 gives Normal(0, 2·sqrt(1/1000)), of variance 4/1000 |
| InitializerFacts.XavierUniformTest | burn-core/src/nn/initializer.rs:331-345 | gain 2 with fans 5 and 6 gives Uniform(-b, b) with b = 2·sqrt(6/11) |
| InitializerFacts.XavierNormalTest | burn-core/src/nn/initializer.rs:347-362 | gain 2 with fans 1000 and 10 gives Normal(0, 2·sqrt(2/1010)), of variance 8/1010 |
| InitializerFacts.KaimingMissingFanTest | burn-core/src/nn/initializer.rs:316-329 | `init` on KaimingUniform without `fan_out_only` fails, naming the fan in |
| InitializerFacts.XavierMissingFanTest | burn-core/src/nn/initializer.rs:364-372 | `init` on XavierUniform fails, naming the fan in |
| InitializerFacts.ExplicitStrategyTests | burn-core/src/nn/initializer.rs:191-248 | `init` on Uniform(0,1), Normal(0,1), Constant 5, Zeros and Ones yields the matching fill or distribution for the tests' shapes |

## Left out

- Tensor construction (`Tensor::full/ones/zeros/random`), the `Into<Shape<D>>` conversion, the rank `D` and the backend type: these belong to the tensor library. The model stops at the `TensorRequest` handed to it. Ones and Zeros are modelled as fills with 1 and 0.
- Random number generation and seeding. The source's statistical tests check sample means, variances and ranges, which depend on the random draws. The model instead proves the mean and variance of the requested distribution.
- f64 rounding and the exact results of `libm::sqrt`. The model uses `real`, and `sqrt` is any function that returns exact non-negative roots.
- Initializers.InitWith: requires the fans its formula divides by to be non-zero (`FansUsable`). The source does not guard this case: a zero selected Kaiming fan, or Xavier fans that sum to zero, produce an infinite or NaN parameter.
- Initializers.KaimingStd: requires the selected fan, when present, to be non-zero, for the same reason.
- Initializers.XavierStd: requires fan_in + fan_out to be non-zero when both are present, for the same reason.
- `usize` overflow of `fan_in + fan_out`: fans are unbounded naturals here.
- The panic message texts, and the `Config`, `Debug` and `PartialEq` derives. The error keeps only the family and the missing fan.
