/** Properties of the strategy selector that relate several calls, and the
    statistical meaning of the requests it produces. */
module InitializerFacts {
  import opened Wrappers
  import opened Roots
  import opened Initializers

  /** Mean of the values the backend is asked to produce. */
  function Mean(d: DistSpec): real {
    match d
    case Fill(v) => v
    case UniformDist(low, high) => (low + high) / 2.0
    case NormalDist(mean, _) => mean
  }

  /** Variance of the values the backend is asked to produce; a uniform
      distribution on [low, high] has variance (high - low)^2 / 12. */
  function Variance(d: DistSpec): real {
    match d
    case Fill(_) => 0.0
    case UniformDist(low, high) => (high - low) * (high - low) / 12.0
    case NormalDist(_, std) => std * std
  }

  /** Constant, Ones and Zeros fill with their value, 1 or 0, and never
      fail, whatever fans are supplied. */
  lemma FillStrategies(init: Initializer, shape: Shape, fanIn: Option<nat>, fanOut: Option<nat>, sqrt: real -> real)
    requires IsSqrt(sqrt)
    requires init.Constant? || init.Ones? || init.Zeros?
    ensures InitWith(init, shape, fanIn, fanOut, sqrt)
         == Success(TensorRequest(shape, Fill(if init.Constant? then init.value else if init.Ones? then 1.0 else 0.0)))
  {
  }

  /** Uniform and Normal pass their own parameters to the backend unchanged,
      never fail, and ignore the fans: the uniform and normal draw helpers
      request exactly the distribution they are given. */
  lemma ExplicitDistributions(init: Initializer, shape: Shape, fanIn: Option<nat>, fanOut: Option<nat>, sqrt: real -> real)
    requires IsSqrt(sqrt)
    requires init.Uniform? || init.Normal?
    ensures InitWith(init, shape, fanIn, fanOut, sqrt)
         == Success(TensorRequest(shape, if init.Uniform? then UniformDist(init.min, init.max)
                                         else NormalDist(init.mean, init.std)))
  {
  }

  /** Kaiming fails exactly when its selected fan is absent; the other fan's
      presence or value changes nothing. */
  lemma KaimingReadsOnlySelectedFan(init: Initializer, shape: Shape,
                                    fanIn: Option<nat>, fanOut: Option<nat>,
                                    fanIn': Option<nat>, fanOut': Option<nat>, sqrt: real -> real)
    requires IsSqrt(sqrt)
    requires init.IsKaiming()
    requires FansUsable(init, fanIn, fanOut)
    requires FanValue(SelectedFan(init.fanOutOnly), fanIn, fanOut) == FanValue(SelectedFan(init.fanOutOnly), fanIn', fanOut')
    ensures FansUsable(init, fanIn', fanOut')
    ensures InitWith(init, shape, fanIn, fanOut, sqrt) == InitWith(init, shape, fanIn', fanOut', sqrt)
    ensures InitWith(init, shape, fanIn, fanOut, sqrt).Failure?
        <==> FanValue(SelectedFan(init.fanOutOnly), fanIn, fanOut).None?
  {
    assert KaimingStd(init.fanOutOnly, fanIn, fanOut, sqrt) == KaimingStd(init.fanOutOnly, fanIn', fanOut', sqrt);
    var r, r' := InitWith(init, shape, fanIn, fanOut, sqrt), InitWith(init, shape, fanIn', fanOut', sqrt);
    if r.Success? {
      KaimingRequest(init, shape, fanIn, fanOut, sqrt);
      KaimingRequest(init, shape, fanIn', fanOut', sqrt);
    }
  }

  /** Xavier fails exactly when the fan in or the fan out is absent. */
  lemma XavierNeedsBothFans(init: Initializer, shape: Shape, fanIn: Option<nat>, fanOut: Option<nat>, sqrt: real -> real)
    requires IsSqrt(sqrt)
    requires init.IsXavier()
    requires FansUsable(init, fanIn, fanOut)
    ensures InitWith(init, shape, fanIn, fanOut, sqrt).Failure? <==> fanIn.None? || fanOut.None?
  {
  }

  /** The shape never influences the outcome: two calls that differ only in
      the shape fail alike or request the same distribution. */
  lemma ShapeOnlyForwarded(init: Initializer, shape: Shape, shape': Shape,
                           fanIn: Option<nat>, fanOut: Option<nat>, sqrt: real -> real)
    requires IsSqrt(sqrt)
    requires FansUsable(init, fanIn, fanOut)
    ensures var r, r' := InitWith(init, shape, fanIn, fanOut, sqrt), InitWith(init, shape', fanIn, fanOut, sqrt);
            r.Success? == r'.Success?
            && (r.Failure? ==> r.error == r'.error)
            && (r.Success? ==> r.value.dist == r'.value.dist)
  {
  }

  /** The fan-based strategies are centred at zero: the uniform ones draw
      from a symmetric interval [-a, a], the normal ones from a normal of mean 0. */
  lemma FanBasedCentred(init: Initializer, shape: Shape, fanIn: Option<nat>, fanOut: Option<nat>, sqrt: real -> real)
    requires IsSqrt(sqrt)
    requires init.IsKaiming() || init.IsXavier()
    requires FansUsable(init, fanIn, fanOut)
    requires InitWith(init, shape, fanIn, fanOut, sqrt).Success?
    ensures var d := InitWith(init, shape, fanIn, fanOut, sqrt).value.dist;
            Mean(d) == 0.0
            && (init.KaimingUniform? || init.XavierUniform? ==> d.UniformDist? && d.low == -d.high)
            && (init.KaimingNormal? || init.XavierNormal? ==> d.NormalDist? && d.mean == 0.0)
  {
  }

  /** The request a fan-based strategy makes once its std is known: the
      uniform versions draw from [-a, a] with a = Sqrt(sqrt, 3)*gain*std, the normal
      versions from a normal of mean 0 and std gain*std. */
  function ScaledDist(uniform: bool, gain: real, std: real, sqrt: real -> real): DistSpec {
    var a := Sqrt(sqrt, 3.0) * gain * std;
    if uniform then UniformDist(-a, a) else NormalDist(0.0, gain * std)
  }

  /** Both versions of a fan-based request have variance (gain*std)^2: the
      uniform bound's variance a^2/3 matches the normal one's. */
  lemma ScaledVariance(uniform: bool, gain: real, std: real, sqrt: real -> real)
    requires IsSqrt(sqrt)
    ensures Variance(ScaledDist(uniform, gain, std, sqrt)) == gain * gain * (std * std)
  {
    SqrtSpec(sqrt, 3.0);
    var r3 := Sqrt(sqrt, 3.0);
    var a := r3 * gain * std;
    assert (a - -a) * (a - -a) == 4.0 * (a * a);
    assert a * a == (r3 * r3) * ((gain * std) * (gain * std));
    assert (gain * std) * (gain * std) == gain * gain * (std * std);
  }

  /** With a std that is the root of q, both versions have variance gain^2 * q. */
  lemma ScaledVarianceOfRoot(uniform: bool, gain: real, q: real, sqrt: real -> real)
    requires IsSqrt(sqrt)
    requires 0.0 <= q
    ensures Variance(ScaledDist(uniform, gain, Sqrt(sqrt, q), sqrt)) == gain * gain * q
  {
    var std := Sqrt(sqrt, q);
    ScaledVariance(uniform, gain, std, sqrt);
    SqrtSpec(sqrt, q);
  }

  /** With a std that is the root of q, the uniform bound Sqrt(sqrt, 3)*gain*std
      is gain times the root of q3 = 3q. */
  lemma ScaledDistOfRoot(uniform: bool, gain: real, q: real, q3: real, sqrt: real -> real)
    requires IsSqrt(sqrt)
    requires 0.0 <= q && q3 == 3.0 * q
    ensures ScaledDist(uniform, gain, Sqrt(sqrt, q), sqrt)
            == if uniform then UniformDist(-(gain * Sqrt(sqrt, q3)), gain * Sqrt(sqrt, q3)) else NormalDist(0.0, gain * Sqrt(sqrt, q))
  {
    SqrtProduct(sqrt, 3.0, q);
    var r3, rq := Sqrt(sqrt, 3.0), Sqrt(sqrt, q);
    assert r3 * gain * rq == gain * (r3 * rq);
    var b := gain * Sqrt(sqrt, q3);
    if uniform {
      assert ScaledDist(uniform, gain, rq, sqrt).high == r3 * gain * rq;
      assert r3 * rq == Sqrt(sqrt, q3);
      assert gain * (r3 * rq) == b;
      assert ScaledDist(uniform, gain, rq, sqrt) == UniformDist(-b, b);
    } else {
      assert ScaledDist(uniform, gain, rq, sqrt) == NormalDist(0.0, gain * rq);
    }
  }

  /** A successful Kaiming call requests the scaled distribution of its std. */
  lemma KaimingRequest(init: Initializer, shape: Shape, fanIn: Option<nat>, fanOut: Option<nat>, sqrt: real -> real)
    requires IsSqrt(sqrt)
    requires init.IsKaiming()
    requires FansUsable(init, fanIn, fanOut)
    requires FanValue(SelectedFan(init.fanOutOnly), fanIn, fanOut).Some?
    ensures KaimingStd(init.fanOutOnly, fanIn, fanOut, sqrt).Success?
    ensures InitWith(init, shape, fanIn, fanOut, sqrt)
         == Success(TensorRequest(shape, ScaledDist(init.KaimingUniform?, init.gain,
                                                    KaimingStd(init.fanOutOnly, fanIn, fanOut, sqrt).value, sqrt)))
  {
    if init.KaimingUniform? {
      KaimingUniformRequest(init, shape, fanIn, fanOut, sqrt);
    } else {
      KaimingNormalRequest(init, shape, fanIn, fanOut, sqrt);
    }
  }

  /** The uniform half of `KaimingRequest`. */
  lemma KaimingUniformRequest(init: Initializer, shape: Shape, fanIn: Option<nat>, fanOut: Option<nat>, sqrt: real -> real)
    requires IsSqrt(sqrt)
    requires init.KaimingUniform?
    requires FansUsable(init, fanIn, fanOut)
    requires FanValue(SelectedFan(init.fanOutOnly), fanIn, fanOut).Some?
    ensures KaimingStd(init.fanOutOnly, fanIn, fanOut, sqrt).Success?
    ensures InitWith(init, shape, fanIn, fanOut, sqrt)
         == Success(TensorRequest(shape, ScaledDist(true, init.gain, KaimingStd(init.fanOutOnly, fanIn, fanOut, sqrt).value, sqrt)))
  {
    var std := KaimingStd(init.fanOutOnly, fanIn, fanOut, sqrt).value;
    var r := InitWith(init, shape, fanIn, fanOut, sqrt);
    var a := Sqrt(sqrt, 3.0) * init.gain * std;
    assert r.Success? && r.value.shape == shape;
    assert r.value.dist.UniformDist? && r.value.dist.low == -a && r.value.dist.high == a;
    assert r == Success(TensorRequest(shape, UniformDist(-a, a)));
    assert ScaledDist(true, init.gain, std, sqrt) == UniformDist(-a, a);
  }

  /** The normal half of `KaimingRequest`. */
  lemma KaimingNormalRequest(init: Initializer, shape: Shape, fanIn: Option<nat>, fanOut: Option<nat>, sqrt: real -> real)
    requires IsSqrt(sqrt)
    requires init.KaimingNormal?
    requires FansUsable(init, fanIn, fanOut)
    requires FanValue(SelectedFan(init.fanOutOnly), fanIn, fanOut).Some?
    ensures KaimingStd(init.fanOutOnly, fanIn, fanOut, sqrt).Success?
    ensures InitWith(init, shape, fanIn, fanOut, sqrt)
         == Success(TensorRequest(shape, ScaledDist(false, init.gain, KaimingStd(init.fanOutOnly, fanIn, fanOut, sqrt).value, sqrt)))
  {
    var std := KaimingStd(init.fanOutOnly, fanIn, fanOut, sqrt).value;
    var r := InitWith(init, shape, fanIn, fanOut, sqrt);
    assert r.Success? && r.value.shape == shape;
    assert r.value.dist.NormalDist? && r.value.dist.mean == 0.0 && r.value.dist.std == init.gain * std;
    assert r == Success(TensorRequest(shape, NormalDist(0.0, init.gain * std)));
    assert ScaledDist(false, init.gain, std, sqrt) == NormalDist(0.0, init.gain * std);
  }

  /** A successful Xavier call requests the scaled distribution of its std. */
  lemma XavierRequest(init: Initializer, shape: Shape, fanIn: nat, fanOut: nat, sqrt: real -> real)
    requires IsSqrt(sqrt)
    requires init.IsXavier()
    requires 0 < fanIn + fanOut
    ensures InitWith(init, shape, Some(fanIn), Some(fanOut), sqrt)
         == Success(TensorRequest(shape, ScaledDist(init.XavierUniform?, init.gain,
                                                    XavierStd(Some(fanIn), Some(fanOut), sqrt).value, sqrt)))
  {
    var std := XavierStd(Some(fanIn), Some(fanOut), sqrt).value;
    var r := InitWith(init, shape, Some(fanIn), Some(fanOut), sqrt);
    var d := ScaledDist(init.XavierUniform?, init.gain, std, sqrt);
    assert r.Success? && r.value.shape == shape;
    if init.XavierUniform? {
      assert r.value.dist.UniformDist? && r.value.dist.low == d.low && r.value.dist.high == d.high;
    } else {
      assert r.value.dist.NormalDist? && r.value.dist.mean == d.mean && r.value.dist.std == d.std;
    }
  }

  /** Kaiming scales the variance to gain^2 / fan, for the selected fan, in
      both its uniform and its normal version. */
  lemma KaimingVariance(init: Initializer, shape: Shape, fanIn: Option<nat>, fanOut: Option<nat>, fan: nat,
                        sqrt: real -> real)
    requires IsSqrt(sqrt)
    requires init.IsKaiming()
    requires FanValue(SelectedFan(init.fanOutOnly), fanIn, fanOut) == Some(fan)
    requires 0 < fan
    ensures FansUsable(init, fanIn, fanOut)
    ensures var r := InitWith(init, shape, fanIn, fanOut, sqrt);
            r.Success? && Variance(r.value.dist) == init.gain * init.gain / fan as real
  {
    var q := 1.0 / fan as real;
    var r := InitWith(init, shape, fanIn, fanOut, sqrt);
    assert r == Success(TensorRequest(shape, ScaledDist(init.KaimingUniform?, init.gain, Sqrt(sqrt, q), sqrt))) by {
      KaimingRequest(init, shape, fanIn, fanOut, sqrt);
      KaimingStdFormula(init.fanOutOnly, fanIn, fanOut, fan, sqrt);
    }
    assert Variance(r.value.dist) == init.gain * init.gain * q by {
      ScaledVarianceOfRoot(init.KaimingUniform?, init.gain, q, sqrt);
    }
    assert init.gain * init.gain * q == init.gain * init.gain / fan as real;
  }

  /** Xavier scales the variance to 2 * gain^2 / (fan_in + fan_out), in both
      its uniform and its normal version. */
  lemma XavierVariance(init: Initializer, shape: Shape, fanIn: nat, fanOut: nat, sqrt: real -> real)
    requires IsSqrt(sqrt)
    requires init.IsXavier()
    requires 0 < fanIn + fanOut
    ensures FansUsable(init, Some(fanIn), Some(fanOut))
    ensures var r := InitWith(init, shape, Some(fanIn), Some(fanOut), sqrt);
            r.Success? && Variance(r.value.dist) == 2.0 * init.gain * init.gain / (fanIn + fanOut) as real
  {
    var q := 2.0 / (fanIn + fanOut) as real;
    var r := InitWith(init, shape, Some(fanIn), Some(fanOut), sqrt);
    assert r == Success(TensorRequest(shape, ScaledDist(init.XavierUniform?, init.gain, Sqrt(sqrt, q), sqrt))) by {
      XavierRequest(init, shape, fanIn, fanOut, sqrt);
      XavierStdFormula(fanIn, fanOut, sqrt);
    }
    assert Variance(r.value.dist) == init.gain * init.gain * q by {
      ScaledVarianceOfRoot(init.XavierUniform?, init.gain, q, sqrt);
    }
    assert init.gain * init.gain * q == 2.0 * init.gain * init.gain / (fanIn + fanOut) as real;
  }

  /** Kaiming's std before the gain is the root of 1/fan for the selected
      fan: its square is 1/fan. */
  lemma KaimingStdFormula(fanOutOnly: bool, fanIn: Option<nat>, fanOut: Option<nat>, fan: nat, sqrt: real -> real)
    requires IsSqrt(sqrt)
    requires FanValue(SelectedFan(fanOutOnly), fanIn, fanOut) == Some(fan)
    requires 0 < fan
    ensures KaimingStd(fanOutOnly, fanIn, fanOut, sqrt) == Success(Sqrt(sqrt, 1.0 / fan as real))
    ensures var std := KaimingStd(fanOutOnly, fanIn, fanOut, sqrt).value;
            std * std == 1.0 / fan as real
  {
    var s := Sqrt(sqrt, fan as real);
    SqrtPositive(sqrt, fan as real);
    var std := KaimingStd(fanOutOnly, fanIn, fanOut, sqrt).value;
    assert std == 1.0 / s;
    assert std * std == 1.0 / (s * s);
    SqrtSpec(sqrt, 1.0 / fan as real);
    RootUnique(std, Sqrt(sqrt, 1.0 / fan as real));
  }

  /** Xavier's std before the gain is the root of 2/(fan_in+fan_out): its
      square is 2/(fan_in+fan_out). */
  lemma XavierStdFormula(fanIn: nat, fanOut: nat, sqrt: real -> real)
    requires IsSqrt(sqrt)
    requires 0 < fanIn + fanOut
    ensures XavierStd(Some(fanIn), Some(fanOut), sqrt) == Success(Sqrt(sqrt, 2.0 / (fanIn + fanOut) as real))
    ensures var std := XavierStd(Some(fanIn), Some(fanOut), sqrt).value;
            std * std == 2.0 / (fanIn + fanOut) as real
  {
    SqrtSpec(sqrt, 2.0 / (fanIn + fanOut) as real);
  }

  /** The distribution the source's Kaiming tests expect, written the way
      they compute it: bound gain*Sqrt(sqrt, 3/fan), or std gain*Sqrt(sqrt, 1/fan). */
  function KaimingReferenceDist(uniform: bool, gain: real, fan: nat, sqrt: real -> real): DistSpec
    requires 0 < fan
  {
    var b := gain * Sqrt(sqrt, 3.0 / fan as real);
    if uniform then UniformDist(-b, b) else NormalDist(0.0, gain * Sqrt(sqrt, 1.0 / fan as real))
  }

  /** Scaling the root of 1/fan gives the reference distribution. */
  lemma KaimingDistIsReference(uniform: bool, gain: real, fan: nat, sqrt: real -> real)
    requires IsSqrt(sqrt)
    requires 0 < fan
    ensures ScaledDist(uniform, gain, Sqrt(sqrt, 1.0 / fan as real), sqrt) == KaimingReferenceDist(uniform, gain, fan, sqrt)
  {
    var q, q3 := 1.0 / fan as real, 3.0 / fan as real;
    assert q3 == 3.0 * q;
    ScaledDistOfRoot(uniform, gain, q, q3, sqrt);
  }

  /** Kaiming requests what the source's tests compute independently: the
      bound gain*Sqrt(sqrt, 3/fan) for the uniform version and the std
      gain*Sqrt(sqrt, 1/fan) for the normal one, for the selected fan. */
  lemma KaimingReference(init: Initializer, shape: Shape, fanIn: Option<nat>, fanOut: Option<nat>, fan: nat,
                         sqrt: real -> real)
    requires IsSqrt(sqrt)
    requires init.IsKaiming()
    requires FanValue(SelectedFan(init.fanOutOnly), fanIn, fanOut) == Some(fan)
    requires 0 < fan
    ensures FansUsable(init, fanIn, fanOut)
    ensures InitWith(init, shape, fanIn, fanOut, sqrt)
            == Success(TensorRequest(shape, KaimingReferenceDist(init.KaimingUniform?, init.gain, fan, sqrt)))
  {
    KaimingRequest(init, shape, fanIn, fanOut, sqrt);
    KaimingStdFormula(init.fanOutOnly, fanIn, fanOut, fan, sqrt);
    KaimingDistIsReference(init.KaimingUniform?, init.gain, fan, sqrt);
  }

  /** The distribution the source's Xavier tests expect, written the way
      they compute it: bound gain*Sqrt(sqrt, 6/(fan_in+fan_out)), or std
      gain*Sqrt(sqrt, 2/(fan_in+fan_out)). */
  function XavierReferenceDist(uniform: bool, gain: real, fanIn: nat, fanOut: nat, sqrt: real -> real): DistSpec
    requires 0 < fanIn + fanOut
  {
    var b := gain * Sqrt(sqrt, 6.0 / (fanIn + fanOut) as real);
    if uniform then UniformDist(-b, b) else NormalDist(0.0, gain * Sqrt(sqrt, 2.0 / (fanIn + fanOut) as real))
  }

  /** Scaling the root of 2/(fan_in+fan_out) gives the reference distribution. */
  lemma XavierDistIsReference(uniform: bool, gain: real, fanIn: nat, fanOut: nat, sqrt: real -> real)
    requires IsSqrt(sqrt)
    requires 0 < fanIn + fanOut
    ensures ScaledDist(uniform, gain, Sqrt(sqrt, 2.0 / (fanIn + fanOut) as real), sqrt)
            == XavierReferenceDist(uniform, gain, fanIn, fanOut, sqrt)
  {
    var q, q3 := 2.0 / (fanIn + fanOut) as real, 6.0 / (fanIn + fanOut) as real;
    assert q3 == 3.0 * q;
    ScaledDistOfRoot(uniform, gain, q, q3, sqrt);
  }

  /** Xavier requests what the source's tests compute independently: the
      bound gain*Sqrt(sqrt, 6/(fan_in+fan_out)) for the uniform version and the std
      gain*Sqrt(sqrt, 2/(fan_in+fan_out)) for the normal one. */
  lemma XavierReference(init: Initializer, shape: Shape, fanIn: nat, fanOut: nat, sqrt: real -> real)
    requires IsSqrt(sqrt)
    requires init.IsXavier()
    requires 0 < fanIn + fanOut
    ensures FansUsable(init, Some(fanIn), Some(fanOut))
    ensures InitWith(init, shape, Some(fanIn), Some(fanOut), sqrt)
            == Success(TensorRequest(shape, XavierReferenceDist(init.XavierUniform?, init.gain, fanIn, fanOut, sqrt)))
  {
    XavierRequest(init, shape, fanIn, fanOut, sqrt);
    XavierStdFormula(fanIn, fanOut, sqrt);
    XavierDistIsReference(init.XavierUniform?, init.gain, fanIn, fanOut, sqrt);
  }

  /** The source's first uniform Kaiming test: with gain 2 and fan in 5 (fan
      out not given) a 6x5 matrix gets the bound 2*Sqrt(sqrt, 3/5). */
  lemma KaimingUniformTest(sqrt: real -> real)
    requires IsSqrt(sqrt)
    ensures var k := 2.0 * Sqrt(sqrt, 3.0 / 5.0);
            InitWith(KaimingUniform(2.0, false), [6, 5], Some(5), None, sqrt)
            == Success(TensorRequest([6, 5], UniformDist(-k, k)))
  {
    KaimingReference(KaimingUniform(2.0, false), [6, 5], Some(5), None, 5, sqrt);
  }

  /** The source's bias and fan-out uniform Kaiming tests: with gain 2 and
      fan in 5 a bias vector of length 3 gets the bound 2*Sqrt(sqrt, 3/5);
      with the fan out only (6) a 6x5 matrix gets 2*Sqrt(sqrt, 3/6). */
  lemma KaimingUniformBiasAndFanOutTests(sqrt: real -> real)
    requires IsSqrt(sqrt)
    ensures var k := 2.0 * Sqrt(sqrt, 3.0 / 5.0);
            InitWith(KaimingUniform(2.0, false), [3], Some(5), None, sqrt)
            == Success(TensorRequest([3], UniformDist(-k, k)))
    ensures var k := 2.0 * Sqrt(sqrt, 3.0 / 6.0);
            InitWith(KaimingUniform(2.0, true), [6, 5], None, Some(6), sqrt)
            == Success(TensorRequest([6, 5], UniformDist(-k, k)))
  {
    KaimingReference(KaimingUniform(2.0, false), [3], Some(5), None, 5, sqrt);
    KaimingReference(KaimingUniform(2.0, true), [6, 5], None, Some(6), 6, sqrt);
  }

  /** The source's normal Kaiming test: gain 2 and fan in 1000 give mean 0
      and variance (2*Sqrt(sqrt, 1/1000))^2 = 4/1000. */
  lemma KaimingNormalTest(sqrt: real -> real)
    requires IsSqrt(sqrt)
    ensures var r := InitWith(KaimingNormal(2.0, false), [10, 1000], Some(1000), None, sqrt);
            && r == Success(TensorRequest([10, 1000], NormalDist(0.0, 2.0 * Sqrt(sqrt, 1.0 / 1000.0))))
            && Variance(r.value.dist) == 4.0 / 1000.0
  {
    KaimingReference(KaimingNormal(2.0, false), [10, 1000], Some(1000), None, 1000, sqrt);
    KaimingVariance(KaimingNormal(2.0, false), [10, 1000], Some(1000), None, 1000, sqrt);
  }

  /** The source's uniform Xavier test: gain 2 with fans 5 and 6 gives the
      bound 2*sqrt(6/11). */
  lemma XavierUniformTest(sqrt: real -> real)
    requires IsSqrt(sqrt)
    ensures var bound := 2.0 * Sqrt(sqrt, 6.0 / 11.0);
            InitWith(XavierUniform(2.0), [6, 5], Some(5), Some(6), sqrt)
            == Success(TensorRequest([6, 5], UniformDist(-bound, bound)))
  {
    XavierReference(XavierUniform(2.0), [6, 5], 5, 6, sqrt);
  }

  /** The source's normal Xavier test: gain 2 with fans 1000 and 10 gives
      mean 0 and variance (2*sqrt(2/1010))^2 = 8/1010. */
  lemma XavierNormalTest(sqrt: real -> real)
    requires IsSqrt(sqrt)
    ensures var r := InitWith(XavierNormal(2.0), [10, 1000], Some(1000), Some(10), sqrt);
            && r == Success(TensorRequest([10, 1000], NormalDist(0.0, 2.0 * Sqrt(sqrt, 2.0 / 1010.0))))
            && Variance(r.value.dist) == 8.0 / 1010.0
  {
    XavierReference(XavierNormal(2.0), [10, 1000], 1000, 10, sqrt);
    XavierVariance(XavierNormal(2.0), [10, 1000], 1000, 10, sqrt);
  }

  /** The source's test that expects a panic from `init` on a uniform
      Kaiming strategy reading the fan in: the call fails naming the fan in. */
  lemma KaimingMissingFanTest(sqrt: real -> real)
    requires IsSqrt(sqrt)
    ensures Init(KaimingUniform(2.0, false), [6, 5], sqrt) == Failure(MissingFan(Kaiming, FanIn))
  {
  }

  /** The source's test that expects a panic from `init` on a uniform Xavier
      strategy: both fans are missing and the fan in is the one reported. */
  lemma XavierMissingFanTest(sqrt: real -> real)
    requires IsSqrt(sqrt)
    ensures Init(XavierUniform(2.0), [6, 5], sqrt) == Failure(MissingFan(Xavier, FanIn))
  {
  }

  /** The source's tests of the strategies without fans: Uniform(0, 1),
      Normal(0, 1), Constant 5, Zeros and Ones resolve through `init` alone. */
  lemma ExplicitStrategyTests(sqrt: real -> real)
    requires IsSqrt(sqrt)
    ensures Init(Uniform(0.0, 1.0), [2, 2, 2, 2], sqrt) == Success(TensorRequest([2, 2, 2, 2], UniformDist(0.0, 1.0)))
    ensures Init(Normal(0.0, 1.0), [1000], sqrt) == Success(TensorRequest([1000], NormalDist(0.0, 1.0)))
    ensures Init(Constant(5.0), [2, 2, 2, 2], sqrt) == Success(TensorRequest([2, 2, 2, 2], Fill(5.0)))
    ensures Init(Zeros, [2, 2, 2, 2], sqrt) == Success(TensorRequest([2, 2, 2, 2], Fill(0.0)))
    ensures Init(Ones, [2, 2, 2, 2], sqrt) == Success(TensorRequest([2, 2, 2, 2], Fill(1.0)))
  {
  }
}
