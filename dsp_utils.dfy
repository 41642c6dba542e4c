/**
  Stateless helpers of the ducker's signal path: level conversion, range
  mapping, clipping, one-pole coefficients, the RBJ "Audio EQ Cookbook"
  low-pass and high-pass biquad recipes, and the envelope curve shapes.

  Samples are `real`s. The C library's transcendental functions are not
  defined here; they are handed in as the fields of a `Math` value, and
  `Math.Sound()` lists the only facts about them that the proofs use.
 */
module DSPUtils {

  /** Single-precision pi as written in the C++ literal, read as an exact decimal. */
  const Pi: real := 3.14159265358979323846

  /** The Butterworth Q the sidechain filters are always designed with. */
  const ButterworthQ: real := 0.707

  /** The dB value reported for silence (and for any non-positive level). */
  const SilenceDb: real := -100.0

  /**
    The transcendental functions the source takes from <cmath>:
    `pow(10, y)`, `log10`, `exp`, `sin`, `cos` and `sqrt`.
   */
  datatype Math = Math(
    log10: real -> real,
    pow: (real, real) -> real,
    exp: real -> real,
    sin: real -> real,
    cos: real -> real,
    sqrt: real -> real)
  {
    /**
      The facts about these functions that the model assumes. The endpoint
      facts for cos are stated at the decimal `Pi`, the constant the source
      uses, and stand for those of the true functions at the true pi.
     */
    ghost predicate Sound() {
      // 10^y is positive, at most 1 for y <= 0, and inverse to log10
      && (forall y :: 0.0 < pow(10.0, y))
      && (forall y :: y <= 0.0 ==> pow(10.0, y) <= 1.0)
      && (forall x :: 0.0 < x ==> pow(10.0, log10(x)) == x)
      && (forall y :: log10(pow(10.0, y)) == y)
      // e^x lies strictly between 0 and 1 for negative x
      && (forall x :: x < 0.0 ==> 0.0 < exp(x) < 1.0)
      // sine is bounded
      && (forall x :: -1.0 <= sin(x) <= 1.0)
      // square root: endpoints of [0, 1] and monotonicity
      && sqrt(0.0) == 0.0 && sqrt(1.0) == 1.0
      && (forall x, y :: 0.0 <= x <= y ==> 0.0 <= sqrt(x) <= sqrt(y))
      // cosine: endpoints of [0, pi] and monotone decrease between them
      && cos(0.0) == 1.0 && cos(Pi) == -1.0
      && (forall x, y :: 0.0 <= x <= y <= Pi ==> cos(y) <= cos(x))
    }
  }

  function Abs(x: real): (r: real)
    ensures 0.0 <= r && (r == x || r == -x)
  {
    if x < 0.0 then -x else x
  }

  function Max(a: real, b: real): (r: real)
    ensures a <= r && b <= r && (r == a || r == b)
  {
    if a < b then b else a
  }

  /** `static_cast<int>` of a floating-point value: truncation toward zero (integer overflow is not modelled). */
  function Trunc(x: real): (n: int)
    ensures 0.0 <= x ==> 0 <= n && n as real <= x < n as real + 1.0
    ensures x < 0.0 ==> n <= 0 && n as real - 1.0 < x <= n as real
  {
    if 0.0 <= x then x.Floor else -((-x).Floor)
  }

  /** Truncation toward zero is monotone. */
  lemma TruncMonotone(x: real, y: real)
    requires x <= y
    ensures Trunc(x) <= Trunc(y)
  {
  }

  /** A duration in milliseconds as a count of samples, `static_cast<int>(ms * 0.001f * sampleRate)`; never negative for non-negative inputs. */
  function MsToSamples(ms: real, sampleRate: real): (n: int)
    ensures 0.0 <= ms && 0.0 <= sampleRate ==> 0 <= n
  {
    var x := ms * 0.001 * sampleRate;
    assert 0.0 <= ms && 0.0 <= sampleRate ==> 0.0 <= x by {
      if 0.0 <= ms && 0.0 <= sampleRate { NonNegativeProduct(ms * 0.001, sampleRate); }
    }
    Trunc(x)
  }

  lemma NonNegativeProduct(a: real, b: real)
    requires 0.0 <= a && 0.0 <= b
    ensures 0.0 <= a * b
  {
  }

  /** 20·log10(x) for a positive level, otherwise the -100 dB floor (never minus infinity). */
  function LinearToDecibels(m: Math, linear: real): (r: real)
    ensures linear <= 0.0 ==> r == SilenceDb
  {
    if linear > 0.0 then 20.0 * m.log10(linear) else SilenceDb
  }

  /** 10^(dB/20). */
  function DecibelsToLinear(m: Math, dB: real): real {
    m.pow(10.0, dB / 20.0)
  }

  /** A level from dB is positive, and at most 1 (no gain) for non-positive dB. */
  lemma DecibelsToLinearBounds(m: Math, dB: real)
    requires m.Sound()
    ensures 0.0 < DecibelsToLinear(m, dB)
    ensures dB <= 0.0 ==> DecibelsToLinear(m, dB) <= 1.0
  {
  }

  /** Converting a positive level to dB and back gives the level again. */
  lemma LevelRoundTrip(m: Math, linear: real)
    requires m.Sound() && 0.0 < linear
    ensures DecibelsToLinear(m, LinearToDecibels(m, linear)) == linear
  {
    assert 20.0 * m.log10(linear) / 20.0 == m.log10(linear);
  }

  /** Converting dB to a level and back gives the dB value again. */
  lemma DecibelRoundTrip(m: Math, dB: real)
    requires m.Sound()
    ensures LinearToDecibels(m, DecibelsToLinear(m, dB)) == dB
  {
    assert m.log10(m.pow(10.0, dB / 20.0)) == dB / 20.0;
  }

  /** Affine remap of [inMin, inMax] onto [outMin, outMax]; the source divides by inMax - inMin unguarded. */
  function MapRange(value: real, inMin: real, inMax: real, outMin: real, outMax: real): (r: real)
    requires inMax != inMin
    ensures value == inMin ==> r == outMin
    ensures value == inMax ==> r == outMax
  {
    DivCancelRight(outMax - outMin, inMax - inMin);
    outMin + (outMax - outMin) * (value - inMin) / (inMax - inMin)
  }

  lemma MulDivAssoc(k: real, x: real, d: real)
    requires d != 0.0
    ensures k * x / d == k * (x / d)
  {
  }

  lemma DivCancelRight(t: real, k: real)
    requires k != 0.0
    ensures (t * k) / k == t
  {
  }

  lemma DivCancel(k: real, t: real)
    requires k != 0.0
    ensures (k * t) / k == t
  {
  }

  lemma MulDivCancel(k: real, x: real)
    requires k != 0.0
    ensures k * (x / k) == x
  {
  }

  /** Mapping back with the ranges swapped undoes a remap (when the target range is not a point). */
  lemma MapRangeInverse(value: real, inMin: real, inMax: real, outMin: real, outMax: real)
    requires inMax != inMin && outMax != outMin
    ensures MapRange(MapRange(value, inMin, inMax, outMin, outMax), outMin, outMax, inMin, inMax) == value
  {
    var d, e, u := inMax - inMin, outMax - outMin, value - inMin;
    var t := u / d;
    var r := MapRange(value, inMin, inMax, outMin, outMax);
    MulDivAssoc(e, u, d);
    assert r - outMin == e * t;
    var back := MapRange(r, outMin, outMax, inMin, inMax);
    MulDivAssoc(d, r - outMin, e);
    DivCancel(e, t);
    assert (r - outMin) / e == t;
    MulDivCancel(d, u);
    assert back == inMin + d * t;
  }

  /** std::clamp(sample, -threshold, threshold); std::clamp needs its lower bound not above its upper bound. */
  function HardClip(sample: real, threshold: real := 1.0): (r: real)
    requires 0.0 <= threshold
    ensures -threshold <= r <= threshold
    ensures -threshold <= sample <= threshold ==> r == sample
    ensures sample < -threshold ==> r == -threshold
    ensures threshold < sample ==> r == threshold
  {
    if sample < -threshold then -threshold
    else if threshold < sample then threshold
    else sample
  }

  /**
    One-pole smoothing coefficient 1 - e^(-1 / (sampleRate·timeMs·0.001)),
    or 1 (instant response) when the time is not positive.
   */
  function CalculateCoefficient(m: Math, sampleRate: real, timeMs: real): (r: real)
    requires timeMs <= 0.0 || sampleRate != 0.0
    ensures timeMs <= 0.0 ==> r == 1.0
  {
    if timeMs <= 0.0 then 1.0
    else
      var samples := sampleRate * timeMs * 0.001;
      1.0 - m.exp(-1.0 / samples)
  }

  /** At a positive rate every coefficient lies in (0, 1]: a positive time gives 1 - e^x for some negative x. */
  lemma CoefficientInUnit(m: Math, sampleRate: real, timeMs: real)
    requires m.Sound() && 0.0 < sampleRate
    ensures 0.0 < CalculateCoefficient(m, sampleRate, timeMs) <= 1.0
  {
    if 0.0 < timeMs {
      PositiveProduct(sampleRate, timeMs * 0.001);
      assert 0.0 < sampleRate * timeMs * 0.001;
    }
  }

  lemma PositiveProduct(a: real, b: real)
    requires 0.0 < a && 0.0 < b
    ensures 0.0 < a * b
  {
  }

  /** Normalised direct-form-I biquad coefficients (a0 divided out); the default is the identity filter. */
  datatype BiquadCoeffs = BiquadCoeffs(b0: real, b1: real, b2: real, a1: real, a2: real)

  const IdentityCoeffs: BiquadCoeffs := BiquadCoeffs(1.0, 0.0, 0.0, 0.0, 0.0)

  /**
    The cookbook high-pass recipe for given cos(w0) and alpha, divided by a0 = 1 + alpha.
    Its zeros sit at DC (the taps sum to 0) and it has unity gain at Nyquist.
   */
  function HighPassRecipe(cosw0: real, alpha: real): (c: BiquadCoeffs)
    requires 1.0 + alpha != 0.0
    ensures c.b1 == -2.0 * c.b0 && c.b2 == c.b0
    ensures c.b0 + c.b1 + c.b2 == 0.0
    ensures c.b0 - c.b1 + c.b2 == 1.0 - c.a1 + c.a2
  {
    var a0 := 1.0 + alpha;
    BiquadCoeffs(
      ((1.0 + cosw0) / 2.0) / a0,
      (-(1.0 + cosw0)) / a0,
      ((1.0 + cosw0) / 2.0) / a0,
      (-2.0 * cosw0) / a0,
      (1.0 - alpha) / a0)
  }

  /**
    The cookbook low-pass recipe for given cos(w0) and alpha, divided by a0 = 1 + alpha.
    It has unity gain at DC and its zeros sit at Nyquist.
   */
  function LowPassRecipe(cosw0: real, alpha: real): (c: BiquadCoeffs)
    requires 1.0 + alpha != 0.0
    ensures c.b1 == 2.0 * c.b0 && c.b2 == c.b0
    ensures c.b0 + c.b1 + c.b2 == 1.0 + c.a1 + c.a2
    ensures c.b0 - c.b1 + c.b2 == 0.0
  {
    var a0 := 1.0 + alpha;
    BiquadCoeffs(
      ((1.0 - cosw0) / 2.0) / a0,
      (1.0 - cosw0) / a0,
      ((1.0 - cosw0) / 2.0) / a0,
      (-2.0 * cosw0) / a0,
      (1.0 - alpha) / a0)
  }

  /** The two recipes share their poles: a1 and a2 agree. */
  lemma RecipesSharePoles(cosw0: real, alpha: real)
    requires 1.0 + alpha != 0.0
    ensures HighPassRecipe(cosw0, alpha).a1 == LowPassRecipe(cosw0, alpha).a1
    ensures HighPassRecipe(cosw0, alpha).a2 == LowPassRecipe(cosw0, alpha).a2
  {
  }

  /** The angular frequency w0 = 2·pi·freq / sampleRate of the recipes. */
  function Omega(sampleRate: real, freq: real): real
    requires sampleRate != 0.0
  {
    2.0 * Pi * freq / sampleRate
  }

  /** alpha = sin(w0) / (2q) of the recipes. */
  function Alpha(m: Math, sampleRate: real, freq: real, q: real): real
    requires sampleRate != 0.0 && q != 0.0
  {
    m.sin(Omega(sampleRate, freq)) / (2.0 * q)
  }

  /** With sine bounded and the Butterworth Q, a0 = 1 + alpha is positive, so the recipes are defined. */
  lemma ButterworthNormaliserPositive(m: Math, sampleRate: real, freq: real)
    requires m.Sound() && sampleRate != 0.0
    ensures 0.0 < 1.0 + Alpha(m, sampleRate, freq, ButterworthQ)
  {
    var s := m.sin(Omega(sampleRate, freq));
    assert -1.0 <= s;
    assert -1.0 / (2.0 * ButterworthQ) <= s / (2.0 * ButterworthQ);
  }

  function CalcHighPass(m: Math, sampleRate: real, freq: real, q: real := ButterworthQ): (c: BiquadCoeffs)
    requires sampleRate != 0.0 && q != 0.0 && 1.0 + Alpha(m, sampleRate, freq, q) != 0.0
    ensures c.b1 == -2.0 * c.b0 && c.b2 == c.b0
    ensures c.b0 + c.b1 + c.b2 == 0.0
  {
    HighPassRecipe(m.cos(Omega(sampleRate, freq)), Alpha(m, sampleRate, freq, q))
  }

  function CalcLowPass(m: Math, sampleRate: real, freq: real, q: real := ButterworthQ): (c: BiquadCoeffs)
    requires sampleRate != 0.0 && q != 0.0 && 1.0 + Alpha(m, sampleRate, freq, q) != 0.0
    ensures c.b1 == 2.0 * c.b0 && c.b2 == c.b0
    ensures c.b0 + c.b1 + c.b2 == 1.0 + c.a1 + c.a2
  {
    LowPassRecipe(m.cos(Omega(sampleRate, freq)), Alpha(m, sampleRate, freq, q))
  }

  /** At equal rate and frequency the designed high-pass and low-pass have the same a1 and a2. */
  lemma DesignsSharePoles(m: Math, sampleRate: real, freq: real, q: real)
    requires sampleRate != 0.0 && q != 0.0 && 1.0 + Alpha(m, sampleRate, freq, q) != 0.0
    ensures CalcHighPass(m, sampleRate, freq, q).a1 == CalcLowPass(m, sampleRate, freq, q).a1
    ensures CalcHighPass(m, sampleRate, freq, q).a2 == CalcLowPass(m, sampleRate, freq, q).a2
  {
    RecipesSharePoles(m.cos(Omega(sampleRate, freq)), Alpha(m, sampleRate, freq, q));
  }

  /**
    The curve shape is the underlying integer of the C++ enum class, so a cast
    from any integer is a shape; only 0..3 have names.
   */
  newtype CurveShape = int

  const Linear: CurveShape := 0
  const Exponential: CurveShape := 1
  const Logarithmic: CurveShape := 2
  const SCurve: CurveShape := 3

  predicate IsNamedShape(shape: CurveShape) {
    shape == Linear || shape == Exponential || shape == Logarithmic || shape == SCurve
  }

  /** Identity, square, square root or raised cosine; an unnamed shape leaves the value unchanged. */
  function ApplyCurveShape(m: Math, value: real, shape: CurveShape): (r: real)
    ensures !IsNamedShape(shape) ==> r == value
  {
    if shape == Linear then value
    else if shape == Exponential then value * value
    else if shape == Logarithmic then m.sqrt(value)
    else if shape == SCurve then 0.5 * (1.0 - m.cos(value * Pi))
    else value
  }

  /** Every shape maps [0, 1] into [0, 1] and keeps both end points. */
  lemma CurveShapeInUnit(m: Math, value: real, shape: CurveShape)
    requires m.Sound() && 0.0 <= value <= 1.0
    ensures 0.0 <= ApplyCurveShape(m, value, shape) <= 1.0
    ensures value == 0.0 ==> ApplyCurveShape(m, value, shape) == 0.0
    ensures value == 1.0 ==> ApplyCurveShape(m, value, shape) == 1.0
  {
    if shape == Exponential {
      ProductInUnit(value, value);
    } else if shape == SCurve {
      CosineOnHalfTurn(m, value);
      if value == 1.0 {
        assert m.cos(value * Pi) == -1.0;
      }
    }
  }

  lemma ProductInUnit(a: real, b: real)
    requires 0.0 <= a <= 1.0 && 0.0 <= b <= 1.0
    ensures 0.0 <= a * b <= b
  {
  }

  lemma ScaleMonotone(k: real, a: real, b: real)
    requires 0.0 <= k && a <= b
    ensures k * a <= k * b
  {
  }

  lemma SquareMonotone(v: real, w: real)
    requires 0.0 <= v <= w
    ensures v * v <= w * w
  {
    ScaleMonotone(v, v, w);
    ScaleMonotone(w, v, w);
  }

  /** For value in [0, 1] the angle value·pi lies in [0, pi], where cosine runs from 1 down to -1. */
  lemma CosineOnHalfTurn(m: Math, value: real)
    requires m.Sound() && 0.0 <= value <= 1.0
    ensures 0.0 <= value * Pi <= Pi
    ensures -1.0 <= m.cos(value * Pi) <= 1.0
  {
    ProductInUnit(value, Pi / 4.0);
    assert value * Pi == 4.0 * (value * (Pi / 4.0));
    assert m.cos(Pi) <= m.cos(value * Pi) <= m.cos(0.0);
  }

  /** Every shape, named or not, is monotone non-decreasing on [0, 1]. */
  lemma CurveShapeMonotone(m: Math, shape: CurveShape, v: real, w: real)
    requires m.Sound() && 0.0 <= v <= w <= 1.0
    ensures ApplyCurveShape(m, v, shape) <= ApplyCurveShape(m, w, shape)
  {
    if shape == Exponential {
      SquareMonotone(v, w);
    } else if shape == SCurve {
      CosineOnHalfTurn(m, v);
      CosineOnHalfTurn(m, w);
      assert v * Pi <= w * Pi;
      assert m.cos(w * Pi) <= m.cos(v * Pi);
    }
  }
}
