/**
 * Resampling to 16 kHz (src-tauri/src/transcription.rs:192-256) in exact arithmetic.
 *
 * Sine, cosine and pi are parameters: nothing proved here depends on their values, only on
 * the kernel not summing to zero, by which the code divides.
 */
module Resampler {
  const TARGET: nat := 16000
  const TAPS: nat := 63
  const HALF: nat := 31

  datatype Trig = Trig(sin: real -> real, cos: real -> real, pi: real)

  type PositivePi = t: Trig | t.pi > 0.0 witness Trig(x => 0.0, x => 0.0, 1.0)

  function Sin(t: PositivePi, y: real): real { t.sin(y) }

  function Cos(t: PositivePi, y: real): real { t.cos(y) }

  // ------------------------------------------------------------ the low-pass filter

  function SincAngle(t: PositivePi, cutoff: real, n: int): real { 2.0 * cutoff * t.pi * n as real }

  function PiTimes(t: PositivePi, n: int): (r: real)
    ensures n != 0 ==> r != 0.0
  {
    t.pi * n as real
  }

  function Sinc(t: PositivePi, cutoff: real, n: int): real {
    if n == 0 then 2.0 * cutoff else Sin(t, SincAngle(t, cutoff, n)) / PiTimes(t, n)
  }

  /** The angle of tap `i` when the window is `turns` half-turns long. */
  function Angle(t: PositivePi, turns: real, i: nat): real { turns * t.pi * i as real / 62.0 }

  function Blackman(t: PositivePi, i: nat): real {
    0.42 - 0.5 * Cos(t, Angle(t, 2.0, i)) + 0.08 * Cos(t, Angle(t, 4.0, i))
  }

  function Tap(t: PositivePi, cutoff: real, i: nat): real { Sinc(t, cutoff, i - HALF) * Blackman(t, i) }

  function RawKernel(t: PositivePi, cutoff: real): seq<real> { seq(TAPS, i requires 0 <= i => Tap(t, cutoff, i)) }

  /** The sum of the first `n` values. */
  function Sum(k: seq<real>, n: nat): real
    requires n <= |k|
  {
    if n == 0 then 0.0 else Sum(k, n - 1) + k[n - 1]
  }

  function Normalised(k: seq<real>): seq<real>
    requires Sum(k, |k|) != 0.0
  {
    seq(|k|, j requires 0 <= j < |k| => k[j] / Sum(k, |k|))
  }

  /** What tap `j` contributes at `i`: zero outside the signal. */
  function Contribution(x: seq<real>, k: seq<real>, i: nat, j: nat): real
    requires j < |k|
  {
    if 0 <= i + j - HALF < |x| then x[i + j - HALF] * k[j] else 0.0
  }

  function Convolved(x: seq<real>, k: seq<real>, i: nat, n: nat): real
    requires n <= |k|
  {
    if n == 0 then 0.0 else Convolved(x, k, i, n - 1) + Contribution(x, k, i, n - 1)
  }

  function Filtered(x: seq<real>, k: seq<real>): seq<real> { seq(|x|, i requires 0 <= i => Convolved(x, k, i, |k|)) }

  lemma KernelOf(t: PositivePi, cutoff: real, k: seq<real>)
    requires |k| == TAPS && forall j :: 0 <= j < TAPS ==> k[j] == RawKernel(t, cutoff)[j]
    ensures k == RawKernel(t, cutoff)
  {
  }

  method Kernel(t: PositivePi, cutoff: real) returns (k: seq<real>)
    ensures k == RawKernel(t, cutoff)
  {
    ghost var raw := RawKernel(t, cutoff);
    var kernel := new real[TAPS](_ => 0.0);
    for i := 0 to TAPS
      invariant forall j :: 0 <= j < i ==> kernel[j] == raw[j]
    {
      kernel[i] := Tap(t, cutoff, i);
    }
    k := kernel[..];
    KernelOf(t, cutoff, k);
  }

  method LowPassFilter(t: PositivePi, samples: seq<real>, cutoff: real) returns (r: seq<real>)
    requires Sum(RawKernel(t, cutoff), TAPS) != 0.0
    ensures r == Filtered(samples, Normalised(RawKernel(t, cutoff)))
  {
    var k := Kernel(t, cutoff);
    return Filtered(samples, Normalised(k));
  }

  // ------------------------------------------------------------ the resampler

  function Ratio(fromRate: nat): real { fromRate as real / 16000.0 }

  /** Where output `i` lies in the input, rounded down. */
  function Index(fromRate: nat, i: nat): nat
  {
    assert i as real * Ratio(fromRate) >= 0.0;
    (i as real * Ratio(fromRate)).Floor
  }

  function Fraction(fromRate: nat, i: nat): real { i as real * Ratio(fromRate) - Index(fromRate, i) as real }

  function GetOr(x: seq<real>, i: nat, default: real): real { if i < |x| then x[i] else default }

  function Blend(a: real, b: real, frac: real): real { a + (b - a) * frac }

  function Interpolated(x: seq<real>, fromRate: nat, i: nat): real {
    var a := GetOr(x, Index(fromRate, i), 0.0);
    var b := GetOr(x, Index(fromRate, i) + 1, a);
    Blend(a, b, Fraction(fromRate, i))
  }

  function OutputLength(n: nat, fromRate: nat): nat
    requires fromRate > 0
  {
    assert n as real / Ratio(fromRate) >= 0.0;
    (n as real / Ratio(fromRate)).Floor
  }

  function Cutoff(fromRate: nat): real
    requires fromRate > 0
  {
    16000.0 / (2.0 * fromRate as real)
  }

  /** The signal that is interpolated: filtered when the rate goes down. */
  function Prepared(t: PositivePi, x: seq<real>, fromRate: nat): seq<real>
    requires fromRate > TARGET ==> Sum(RawKernel(t, Cutoff(fromRate)), TAPS) != 0.0
  {
    if fromRate > TARGET then Filtered(x, Normalised(RawKernel(t, Cutoff(fromRate)))) else x
  }

  /** `resample_to_16k`. */
  function Resampled(t: PositivePi, x: seq<real>, fromRate: nat): seq<real>
    requires fromRate > TARGET ==> Sum(RawKernel(t, Cutoff(fromRate)), TAPS) != 0.0
  {
    if fromRate == 0 || fromRate == TARGET then x
    else
      var f := Prepared(t, x, fromRate);
      seq(OutputLength(|f|, fromRate), i requires 0 <= i => Interpolated(f, fromRate, i))
  }

  // ------------------------------------------------------------ length and range

  lemma FloorOfQuotient(a: nat, b: nat)
    requires b > 0
    ensures (a as real / b as real).Floor == a / b
  {
    var q, r := a / b, a % b;
    assert a == q * b + r;
    assert a as real == q as real * b as real + r as real;
    assert a as real / b as real == q as real + r as real / b as real;
    assert 0.0 <= r as real / b as real < 1.0;
  }

  /** The output has floor(n * 16000 / rate) samples. */
  lemma LengthIsExact(t: PositivePi, x: seq<real>, fromRate: nat)
    requires fromRate > 0
    requires fromRate > TARGET ==> Sum(RawKernel(t, Cutoff(fromRate)), TAPS) != 0.0
    ensures |Resampled(t, x, fromRate)| == |x| * 16000 / fromRate
  {
    var n := |x|;
    if fromRate != TARGET {
      var r := fromRate as real;
      assert n as real / (r / 16000.0) == n as real * 16000.0 / r;
      assert n as real * 16000.0 == (n * 16000) as real;
      FloorOfQuotient(n * 16000, fromRate);
    }
  }

  /** Every index is inside the signal, so the default of zero is never used. */
  lemma IndexInRange(n: nat, fromRate: nat, i: nat)
    requires fromRate > 0 && i < OutputLength(n, fromRate)
    ensures Index(fromRate, i) < n && 0.0 <= Fraction(fromRate, i) < 1.0
  {
    var ratio := Ratio(fromRate);
    var q := n as real / ratio;
    assert i as real < q && q * ratio == n as real;
    TimesPositive(i as real, q, ratio);
  }

  lemma TimesPositive(a: real, b: real, c: real)
    requires a < b && c > 0.0
    ensures a * c < b * c
  {
  }

  lemma ProductSign(a: real, b: real)
    requires b >= 0.0
    ensures a >= 0.0 ==> a * b >= 0.0
    ensures a <= 0.0 ==> a * b <= 0.0
  {
  }

  lemma PartOf(d: real, frac: real) returns (part: real)
    requires 0.0 <= frac < 1.0
    ensures part == d * frac
    ensures d >= 0.0 ==> 0.0 <= part <= d
    ensures d <= 0.0 ==> d <= part <= 0.0
  {
    part := d * frac;
    var rest := d * (1.0 - frac);
    ProductSign(d, frac);
    ProductSign(d, 1.0 - frac);
    assert rest == d - part;
  }

  lemma BlendIsBetween(a: real, b: real, frac: real)
    requires 0.0 <= frac < 1.0
    ensures a <= Blend(a, b, frac) <= b || b <= Blend(a, b, frac) <= a
  {
    var part := PartOf(b - a, frac);
    assert Blend(a, b, frac) == a + part;
  }

  lemma InterpolationIsConvex(f: seq<real>, fromRate: nat, i: nat)
    requires fromRate > 0 && i < OutputLength(|f|, fromRate)
    ensures var m := Index(fromRate, i);
            m < |f| &&
            var a, b := f[m], f[if m + 1 < |f| then m + 1 else m];
            && (a <= Interpolated(f, fromRate, i) <= b || b <= Interpolated(f, fromRate, i) <= a)
            && Interpolated(f, fromRate, i) == Blend(a, b, Fraction(fromRate, i))
  {
    var m := Index(fromRate, i);
    IndexInRange(|f|, fromRate, i);
    BlendIsBetween(f[m], f[if m + 1 < |f| then m + 1 else m], Fraction(fromRate, i));
  }

  /** Each output lies between two adjacent samples of the interpolated signal. */
  lemma OutputsAreConvex(t: PositivePi, x: seq<real>, fromRate: nat, i: nat)
    requires fromRate > 0 && fromRate != TARGET
    requires fromRate > TARGET ==> Sum(RawKernel(t, Cutoff(fromRate)), TAPS) != 0.0
    requires i < |Resampled(t, x, fromRate)|
    ensures var f, m, y := Prepared(t, x, fromRate), Index(fromRate, i), Resampled(t, x, fromRate)[i];
            |f| == |x| && m < |f| &&
            var a, b := f[m], f[if m + 1 < |f| then m + 1 else m];
            (a <= y <= b || b <= y <= a) && y == Blend(a, b, Fraction(fromRate, i))
  {
    InterpolationIsConvex(Prepared(t, x, fromRate), fromRate, i);
  }

  // ------------------------------------------------------------ constant signals

  lemma {:induction false} SumScales(k: seq<real>, k': seq<real>, s: real, n: nat)
    requires n <= |k| == |k'| && s != 0.0 && forall j :: 0 <= j < |k| ==> k'[j] == k[j] / s
    ensures Sum(k', n) == Sum(k, n) / s
  {
    if n > 0 {
      SumScales(k, k', s, n - 1);
      assert Sum(k, n - 1) / s + k[n - 1] / s == (Sum(k, n - 1) + k[n - 1]) / s;
    }
  }

  lemma NormalisedSumsToOne(k: seq<real>)
    requires Sum(k, |k|) != 0.0
    ensures Sum(Normalised(k), |k|) == 1.0
  {
    var s := Sum(k, |k|);
    SumScales(k, Normalised(k), s, |k|);
    assert s / s == 1.0;
  }

  predicate Constant(x: seq<real>, c: real) { forall i :: 0 <= i < |x| ==> x[i] == c }

  lemma {:induction false} ConstantConvolves(x: seq<real>, k: seq<real>, c: real, i: nat, n: nat)
    requires Constant(x, c) && |k| == TAPS && n <= TAPS && HALF <= i && i + HALF < |x|
    ensures Convolved(x, k, i, n) == c * Sum(k, n)
  {
    if n > 0 {
      ConstantConvolves(x, k, c, i, n - 1);
      assert c * (Sum(k, n - 1) + k[n - 1]) == c * Sum(k, n - 1) + c * k[n - 1];
    }
  }

  /** A constant passes the normalised filter unchanged, 31 samples away from both ends. */
  lemma ConstantPassesFilter(x: seq<real>, k: seq<real>, c: real, i: nat)
    requires |k| == TAPS && Sum(k, TAPS) != 0.0 && Constant(x, c) && HALF <= i && i + HALF < |x|
    ensures Filtered(x, Normalised(k))[i] == c
  {
    NormalisedSumsToOne(k);
    ConstantConvolves(x, Normalised(k), c, i, TAPS);
  }

  lemma ConstantIsInterpolated(f: seq<real>, fromRate: nat, c: real, i: nat)
    requires fromRate > 0 && i < OutputLength(|f|, fromRate)
    requires Index(fromRate, i) < |f| ==> f[Index(fromRate, i)] == c
    requires Index(fromRate, i) + 1 < |f| ==> f[Index(fromRate, i) + 1] == c
    ensures Interpolated(f, fromRate, i) == c
  {
    InterpolationIsConvex(f, fromRate, i);
  }

  lemma FilteredConstantIsInterpolated(x: seq<real>, k: seq<real>, fromRate: nat, c: real, i: nat)
    requires fromRate > 0 && i < OutputLength(|x|, fromRate) && Constant(x, c) && |k| == TAPS && Sum(k, TAPS) != 0.0
    requires HALF <= Index(fromRate, i) && Index(fromRate, i) + 1 + HALF < |x|
    ensures Interpolated(Filtered(x, Normalised(k)), fromRate, i) == c
  {
    var m := Index(fromRate, i);
    ConstantPassesFilter(x, k, c, m);
    ConstantPassesFilter(x, k, c, m + 1);
    ConstantIsInterpolated(Filtered(x, Normalised(k)), fromRate, c, i);
  }

  /** So a constant is resampled to itself, up to the edges of the filter. */
  lemma ConstantIsResampled(t: PositivePi, x: seq<real>, fromRate: nat, c: real, i: nat)
    requires fromRate > 0 && Constant(x, c)
    requires fromRate > TARGET ==> Sum(RawKernel(t, Cutoff(fromRate)), TAPS) != 0.0
    requires i < |Resampled(t, x, fromRate)|
    requires fromRate > TARGET ==> HALF <= Index(fromRate, i) && Index(fromRate, i) + 1 + HALF < |x|
    ensures Resampled(t, x, fromRate)[i] == c
  {
    if fromRate > TARGET {
      FilteredConstantIsInterpolated(x, RawKernel(t, Cutoff(fromRate)), fromRate, c, i);
    } else if fromRate < TARGET {
      ConstantIsInterpolated(x, fromRate, c, i);
    }
  }

  // ------------------------------------------------------------ linearity

  /** `z` is the mix of `x` and `y` with weights `a` and `b`. */
  predicate Mix(z: seq<real>, x: seq<real>, y: seq<real>, a: real, b: real) {
    |x| == |y| == |z| && forall i :: 0 <= i < |z| ==> z[i] == Mixed(x[i], y[i], a, b)
  }

  function Mixed(p: real, q: real, a: real, b: real): real { a * p + b * q }

  lemma MixedAdds(p: real, q: real, p': real, q': real, a: real, b: real)
    ensures Mixed(p + p', q + q', a, b) == Mixed(p, q, a, b) + Mixed(p', q', a, b)
  {
  }

  lemma MixedScales(p: real, q: real, a: real, b: real, k: real)
    ensures Mixed(p * k, q * k, a, b) == Mixed(p, q, a, b) * k
  {
    assert a * (p * k) == a * p * k && b * (q * k) == b * q * k;
  }

  lemma MixedBlends(p: real, p': real, q: real, q': real, a: real, b: real, frac: real)
    ensures Blend(Mixed(p, q, a, b), Mixed(p', q', a, b), frac) == Mixed(Blend(p, p', frac), Blend(q, q', frac), a, b)
  {
    var d, e := p' - p, q' - q;
    MixedAdds(p, q, d, e, a, b);
    MixedScales(d, e, a, b, frac);
    MixedAdds(p, q, d * frac, e * frac, a, b);
  }

  lemma {:induction false} ConvolutionIsLinear(
    z: seq<real>, x: seq<real>, y: seq<real>, a: real, b: real, k: seq<real>, i: nat, n: nat)
    requires Mix(z, x, y, a, b) && n <= |k|
    ensures Convolved(z, k, i, n) == Mixed(Convolved(x, k, i, n), Convolved(y, k, i, n), a, b)
  {
    if n > 0 {
      ConvolutionIsLinear(z, x, y, a, b, k, i, n - 1);
      var j := i + (n - 1) - HALF;
      if 0 <= j < |z| {
        MixedScales(x[j], y[j], a, b, k[n - 1]);
      }
      MixedAdds(Convolved(x, k, i, n - 1), Convolved(y, k, i, n - 1),
                Contribution(x, k, i, n - 1), Contribution(y, k, i, n - 1), a, b);
    }
  }

  lemma FilterIsLinear(z: seq<real>, x: seq<real>, y: seq<real>, a: real, b: real, k: seq<real>)
    requires Mix(z, x, y, a, b)
    ensures Mix(Filtered(z, k), Filtered(x, k), Filtered(y, k), a, b)
  {
    forall i | 0 <= i < |z| ensures Filtered(z, k)[i] == Mixed(Filtered(x, k)[i], Filtered(y, k)[i], a, b) {
      ConvolutionIsLinear(z, x, y, a, b, k, i, |k|);
    }
  }

  lemma InterpolationIsLinear(z: seq<real>, x: seq<real>, y: seq<real>, a: real, b: real, fromRate: nat, i: nat)
    requires Mix(z, x, y, a, b) && fromRate > 0 && i < OutputLength(|z|, fromRate)
    ensures Interpolated(z, fromRate, i) == Mixed(Interpolated(x, fromRate, i), Interpolated(y, fromRate, i), a, b)
  {
    var m := Index(fromRate, i);
    IndexInRange(|z|, fromRate, i);
    var m' := if m + 1 < |z| then m + 1 else m;
    MixedBlends(x[m], x[m'], y[m], y[m'], a, b, Fraction(fromRate, i));
  }

  /** Resampling a mix of two signals gives the mix of the resampled signals. */
  lemma ResamplingIsLinear(t: PositivePi, z: seq<real>, x: seq<real>, y: seq<real>, a: real, b: real, fromRate: nat)
    requires Mix(z, x, y, a, b)
    requires fromRate > TARGET ==> Sum(RawKernel(t, Cutoff(fromRate)), TAPS) != 0.0
    ensures Mix(Resampled(t, z, fromRate), Resampled(t, x, fromRate), Resampled(t, y, fromRate), a, b)
  {
    if fromRate != 0 && fromRate != TARGET {
      var f, g, h := Prepared(t, z, fromRate), Prepared(t, x, fromRate), Prepared(t, y, fromRate);
      PreparationIsLinear(t, z, x, y, a, b, fromRate);
      forall i | 0 <= i < OutputLength(|f|, fromRate)
        ensures Interpolated(f, fromRate, i) == Mixed(Interpolated(g, fromRate, i), Interpolated(h, fromRate, i), a, b)
      {
        InterpolationIsLinear(f, g, h, a, b, fromRate, i);
      }
    }
  }

  lemma PreparationIsLinear(t: PositivePi, z: seq<real>, x: seq<real>, y: seq<real>, a: real, b: real, fromRate: nat)
    requires Mix(z, x, y, a, b)
    requires fromRate > TARGET ==> Sum(RawKernel(t, Cutoff(fromRate)), TAPS) != 0.0
    ensures Mix(Prepared(t, z, fromRate), Prepared(t, x, fromRate), Prepared(t, y, fromRate), a, b)
  {
    if fromRate > TARGET {
      FilterIsLinear(z, x, y, a, b, Normalised(RawKernel(t, Cutoff(fromRate))));
    }
  }

  // ------------------------------------------------------------ upsampling keeps the samples

  /** From a rate that divides 16000 by `m`, every m-th output is an input sample. */
  lemma UpsamplingKeepsSamples(t: PositivePi, x: seq<real>, fromRate: nat, m: nat, i: nat)
    requires m * fromRate == TARGET && i < |x|
    ensures i * m < |Resampled(t, x, fromRate)| && Resampled(t, x, fromRate)[i * m] == x[i]
  {
    assert fromRate > 0 && m > 0 && fromRate <= TARGET;
    if fromRate == TARGET {
      assert m == 1;
    } else {
      LengthIsExact(t, x, fromRate);
      LengthOfMultiple(|x|, fromRate, m);
      assert i * m < |x| * m;
      IndexOfMultiple(fromRate, m, i);
    }
  }

  lemma LengthOfMultiple(n: nat, fromRate: nat, m: nat)
    requires m * fromRate == TARGET && fromRate > 0
    ensures n * 16000 / fromRate == n * m
  {
    assert n * 16000 == n * m * fromRate;
    assert n * m * fromRate / fromRate == n * m;
  }

  lemma IndexOfMultiple(fromRate: nat, m: nat, i: nat)
    requires m * fromRate == TARGET
    ensures Index(fromRate, i * m) == i && Fraction(fromRate, i * m) == 0.0
  {
    assert m as real * fromRate as real == 16000.0;
    assert (i * m) as real == i as real * m as real;
    assert i as real * m as real * (fromRate as real / 16000.0) == i as real * (m as real * fromRate as real / 16000.0);
  }
}
