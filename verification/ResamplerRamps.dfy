/**
 * What the resampler does to a ramp (src-tauri/src/transcription.rs:192-257): position in
 * time is kept, by the interpolation and by the symmetry of the filter.  Also the response
 * of the filter to one sample, and the ends and the centre of its kernel.
 */
module ResamplerRamps {
  import opened Resampler

  /** The value of a ramp at a point in time. */
  function At(a: real, b: real, time: real): real { a + b * time }

  predicate Ramp(x: seq<real>, a: real, b: real) { forall i :: 0 <= i < |x| ==> x[i] == At(a, b, i as real) }

  // ------------------------------------------------------------ interpolating a ramp

  lemma BlendOnRamp(a: real, b: real, m: real, frac: real)
    ensures Blend(At(a, b, m), At(a, b, m + 1.0), frac) == At(a, b, m + frac)
  {
    var start, d := b * m, b * frac;
    assert b * (m + 1.0) == start + b;
    assert b * (m + frac) == start + d;
    assert (At(a, b, m + 1.0) - At(a, b, m)) * frac == d;
  }

  /** Sample `m` is on the ramp. */
  predicate RampAt(f: seq<real>, a: real, b: real, m: nat) { m < |f| && f[m] == At(a, b, m as real) }

  /** Between two samples of a ramp lies the ramp. */
  lemma RampIsInterpolated(f: seq<real>, fromRate: nat, m: nat, a: real, b: real, i: nat)
    requires RampAt(f, a, b, m) && RampAt(f, a, b, m + 1) && m == Index(fromRate, i)
    ensures Interpolated(f, fromRate, i) == At(a, b, i as real * Ratio(fromRate))
  {
    BlendOnRamp(a, b, m as real, Fraction(fromRate, i));
  }

  // ------------------------------------------------------------ a symmetric kernel

  predicate Symmetric(k: seq<real>) {
    |k| == TAPS && forall j {:trigger k[j]} :: 0 <= j < TAPS ==> k[TAPS - 1 - j] == k[j]
  }

  /** The first moment of the first `n` taps about the centre. */
  function Moment(k: seq<real>, n: nat): real
    requires n <= |k|
  {
    if n == 0 then 0.0 else Moment(k, n - 1) + (n - 1 - HALF) as real * k[n - 1]
  }

  lemma {:induction false} MomentMirrors(k: seq<real>, n: nat)
    requires Symmetric(k) && n <= TAPS
    ensures Moment(k, n) == Moment(k, TAPS - n) - Moment(k, TAPS)
  {
    if n > 0 {
      MomentMirrors(k, n - 1);
      var j := n - 1;
      var p, q := (j - HALF) as real, (TAPS - 1 - j - HALF) as real;
      assert k[TAPS - 1 - j] == k[j];
      assert q == -p && q * k[j] == -(p * k[j]);
      assert Moment(k, TAPS - j) == Moment(k, TAPS - n) + q * k[TAPS - 1 - j];
    }
  }

  lemma MomentVanishes(k: seq<real>)
    requires Symmetric(k)
    ensures Moment(k, TAPS) == 0.0
  {
    MomentMirrors(k, TAPS);
  }

  function Times(p: real, q: real): real { p * q }

  lemma TimesAdds(p: real, q: real, r: real)
    ensures Times(p, q + r) == Times(p, q) + Times(p, r)
  {
  }

  lemma RampTerm(a: real, b: real, i: real, d: real, tap: real)
    ensures At(a, b, i + d) * tap == Times(At(a, b, i), tap) + Times(b, d * tap)
  {
    var y := At(a, b, i);
    assert At(a, b, i + d) == y + b * d;
    assert (y + b * d) * tap == y * tap + b * d * tap;
  }

  /** What the first `n` taps give at `i` of a ramp. */
  function OnRamp(k: seq<real>, a: real, b: real, i: nat, n: nat): real
    requires n <= |k|
  {
    if n == 0 then 0.0 else OnRamp(k, a, b, i, n - 1) + At(a, b, i as real + (n - 1 - HALF) as real) * k[n - 1]
  }

  lemma {:induction false} RampSums(k: seq<real>, a: real, b: real, i: nat, n: nat)
    requires n <= |k|
    ensures OnRamp(k, a, b, i, n) == Times(At(a, b, i as real), Sum(k, n)) + Times(b, Moment(k, n))
  {
    if n > 0 {
      var d, tap := (n - 1 - HALF) as real, k[n - 1];
      RampSums(k, a, b, i, n - 1);
      RampTerm(a, b, i as real, d, tap);
      TimesAdds(At(a, b, i as real), Sum(k, n - 1), tap);
      TimesAdds(b, Moment(k, n - 1), d * tap);
    }
  }

  lemma {:induction false} RampConvolves(x: seq<real>, k: seq<real>, a: real, b: real, i: nat, n: nat)
    requires Ramp(x, a, b) && |k| == TAPS && n <= TAPS && HALF <= i && i + HALF < |x|
    ensures Convolved(x, k, i, n) == OnRamp(k, a, b, i, n)
  {
    if n > 0 {
      RampConvolves(x, k, a, b, i, n - 1);
      RampContributes(x, k, a, b, i, n - 1);
    }
  }

  lemma RampContributes(x: seq<real>, k: seq<real>, a: real, b: real, i: nat, n: nat)
    requires Ramp(x, a, b) && |k| == TAPS && n < TAPS && HALF <= i && i + HALF < |x|
    ensures Contribution(x, k, i, n) == At(a, b, i as real + (n - HALF) as real) * k[n]
  {
    var j := i + n - HALF;
    assert j as real == i as real + (n - HALF) as real;
    assert x[j] == At(a, b, j as real);
  }

  lemma NormalisedIsSymmetric(k: seq<real>)
    requires Symmetric(k) && Sum(k, TAPS) != 0.0
    ensures Symmetric(Normalised(k))
  {
    forall j | 0 <= j < TAPS ensures Normalised(k)[TAPS - 1 - j] == Normalised(k)[j] {
      assert k[TAPS - 1 - j] == k[j];
    }
  }

  /** A ramp passes a symmetric filter unchanged, 31 samples away from both ends. */
  lemma RampPassesFilter(x: seq<real>, k: seq<real>, a: real, b: real, i: nat)
    requires Symmetric(k) && Sum(k, TAPS) != 0.0 && Ramp(x, a, b) && HALF <= i && i + HALF < |x|
    ensures Filtered(x, Normalised(k))[i] == x[i]
  {
    NormalisedSumsToOne(k);
    NormalisedIsSymmetric(k);
    MomentVanishes(Normalised(k));
    RampConvolves(x, Normalised(k), a, b, i, TAPS);
    RampSums(Normalised(k), a, b, i, TAPS);
  }

  // ------------------------------------------------------------ the kernel of the code

  /** What the kernel takes from trigonometry at `y`. */
  predicate Reflects(t: PositivePi, y: real) {
    && Sin(t, -y) == -Sin(t, y)
    && Cos(t, 2.0 * t.pi - y) == Cos(t, y) && Cos(t, 4.0 * t.pi - y) == Cos(t, y)
  }

  ghost predicate Circular(t: PositivePi) { forall y: real :: Reflects(t, y) }

  lemma QuotientOfNegatives(p: real, q: real)
    requires q != 0.0
    ensures (-p) / (-q) == p / q
  {
    assert (-p) == (p / q) * (-q);
  }

  lemma SincIsEven(t: PositivePi, cutoff: real, n: int)
    requires Circular(t)
    ensures Sinc(t, cutoff, -n) == Sinc(t, cutoff, n)
  {
    if n != 0 {
      var y := SincAngle(t, cutoff, n);
      assert SincAngle(t, cutoff, -n) == -y && PiTimes(t, -n) == -PiTimes(t, n);
      assert Reflects(t, y);
      QuotientOfNegatives(Sin(t, y), PiTimes(t, n));
    }
  }

  lemma AngleMirrors(t: PositivePi, turns: real, i: nat)
    requires i < TAPS
    ensures Angle(t, turns, TAPS - 1 - i) == turns * t.pi - Angle(t, turns, i)
  {
    var w := turns * t.pi;
    assert (TAPS - 1 - i) as real == 62.0 - i as real;
    assert w * (62.0 - i as real) == w * 62.0 - w * i as real;
  }

  lemma BlackmanMirrors(t: PositivePi, i: nat)
    requires Circular(t) && i < TAPS
    ensures Blackman(t, TAPS - 1 - i) == Blackman(t, i)
  {
    AngleMirrors(t, 2.0, i);
    AngleMirrors(t, 4.0, i);
    assert Reflects(t, Angle(t, 2.0, i)) && Reflects(t, Angle(t, 4.0, i));
  }

  /** The kernel is symmetric. */
  lemma KernelIsSymmetric(t: PositivePi, cutoff: real)
    requires Circular(t)
    ensures Symmetric(RawKernel(t, cutoff))
  {
    var k := RawKernel(t, cutoff);
    forall j | 0 <= j < TAPS ensures k[TAPS - 1 - j] == k[j] {
      BlackmanMirrors(t, j);
      SincIsEven(t, cutoff, j - HALF);
      assert TAPS - 1 - j - HALF == -(j - HALF);
    }
  }

  /** Its ends are zero, and its centre is the whole pass band. */
  lemma EndsAndCentre(t: PositivePi, cutoff: real)
    requires Circular(t) && Cos(t, 0.0) == 1.0 && Cos(t, t.pi) == -1.0
    ensures var k := RawKernel(t, cutoff); k[0] == 0.0 && k[TAPS - 1] == 0.0 && k[HALF] == 2.0 * cutoff
  {
    KernelIsSymmetric(t, cutoff);
    var k := RawKernel(t, cutoff);
    assert k[TAPS - 1 - 0] == k[0];
    assert Angle(t, 2.0, 0) == 0.0 && Angle(t, 4.0, 0) == 0.0;
    assert Angle(t, 2.0, HALF) == t.pi && Angle(t, 4.0, HALF) == 2.0 * t.pi;
    assert Reflects(t, 0.0) && 2.0 * t.pi - 0.0 == 2.0 * t.pi;
    assert Blackman(t, 0) == 0.0;
    assert Blackman(t, HALF) == 1.0;
  }

  // ------------------------------------------------------------ resampling a ramp

  /** When output `i` is played, counted in input samples. */
  function Time(fromRate: nat, i: nat): real { (i * fromRate) as real / 16000.0 }

  /** Output `i`, if there is one, is `y`. */
  predicate OutputAt(t: PositivePi, x: seq<real>, fromRate: nat, i: nat, y: real)
    requires fromRate > TARGET ==> Sum(RawKernel(t, Cutoff(fromRate)), TAPS) != 0.0
  {
    i < |Resampled(t, x, fromRate)| ==> Resampled(t, x, fromRate)[i] == y
  }

  /**
   * A ramp is resampled to the same ramp at the new rate: output `i` is its value at time
   * i * rate / 16000, up to the edges of the filter, or before the last sample without one.
   */
  lemma RampIsResampled(t: PositivePi, x: seq<real>, fromRate: nat, a: real, b: real, i: nat)
    requires fromRate > 0 && fromRate != TARGET && Ramp(x, a, b) && Circular(t)
    requires fromRate > TARGET ==> Sum(RawKernel(t, Cutoff(fromRate)), TAPS) != 0.0
    requires Index(fromRate, i) + 1 < |x|
    requires fromRate > TARGET ==> HALF <= Index(fromRate, i) && Index(fromRate, i) + 1 + HALF < |x|
    ensures OutputAt(t, x, fromRate, i, At(a, b, Time(fromRate, i)))
  {
    RampIsPrepared(t, x, fromRate, a, b, Index(fromRate, i));
    RampIsPrepared(t, x, fromRate, a, b, Index(fromRate, i) + 1);
    OutputIsOnRamp(t, x, fromRate, Index(fromRate, i), a, b, i);
  }

  lemma OutputIsOnRamp(t: PositivePi, x: seq<real>, fromRate: nat, m: nat, a: real, b: real, i: nat)
    requires fromRate > 0 && fromRate != TARGET && m == Index(fromRate, i)
    requires fromRate > TARGET ==> Sum(RawKernel(t, Cutoff(fromRate)), TAPS) != 0.0
    ensures RampAt(Prepared(t, x, fromRate), a, b, m) && RampAt(Prepared(t, x, fromRate), a, b, m + 1) ==>
              OutputAt(t, x, fromRate, i, At(a, b, Time(fromRate, i)))
  {
    var f := Prepared(t, x, fromRate);
    if RampAt(f, a, b, m) && RampAt(f, a, b, m + 1) {
      RampIsInterpolated(f, fromRate, m, a, b, i);
      TimeOf(fromRate, i);
    }
  }

  lemma TimeOf(fromRate: nat, i: nat)
    ensures i as real * Ratio(fromRate) == Time(fromRate, i)
  {
    assert (i * fromRate) as real == i as real * fromRate as real;
  }

  lemma RampIsPrepared(t: PositivePi, x: seq<real>, fromRate: nat, a: real, b: real, m: nat)
    requires Ramp(x, a, b) && Circular(t) && m < |x|
    requires fromRate > TARGET ==>
               Sum(RawKernel(t, Cutoff(fromRate)), TAPS) != 0.0 && HALF <= m && m + HALF < |x|
    ensures RampAt(Prepared(t, x, fromRate), a, b, m)
  {
    if fromRate > TARGET {
      KernelIsSymmetric(t, Cutoff(fromRate));
      RampPassesFilter(x, RawKernel(t, Cutoff(fromRate)), a, b, m);
    }
  }

  /** Without a filter, an output at or after the last sample holds it. */
  lemma LastSampleIsHeld(t: PositivePi, x: seq<real>, fromRate: nat, i: nat)
    requires 0 < fromRate < TARGET && i < |Resampled(t, x, fromRate)| && (|x| - 1) * TARGET <= i * fromRate
    ensures Resampled(t, x, fromRate)[i] == x[|x| - 1]
  {
    IndexInRange(|x|, fromRate, i);
    TimeOf(fromRate, i);
    assert (i * fromRate) as real >= ((|x| - 1) * 16000) as real;
    assert Index(fromRate, i) == |x| - 1;
    InterpolationIsConvex(x, fromRate, i);
  }

  /** Audio at the target rate, and audio without a rate, is left as it is. */
  lemma LeftAlone(t: PositivePi, x: seq<real>)
    ensures Resampled(t, x, 0) == x && Resampled(t, x, TARGET) == x
  {
  }

  // ------------------------------------------------------------ one sample

  /** A signal that is zero except at `p`. */
  function Impulse(n: nat, p: nat): seq<real> { seq(n, i => if i == p then 1.0 else 0.0) }

  lemma {:induction false} ImpulseConvolves(n: nat, p: nat, k: seq<real>, i: nat, m: nat)
    requires p < n && i < n && m <= |k|
    ensures Convolved(Impulse(n, p), k, i, m) == if 0 <= p + HALF - i < m then k[p + HALF - i] else 0.0
  {
    if m > 0 {
      ImpulseConvolves(n, p, k, i, m - 1);
    }
  }

  /** The filter answers one sample with its kernel, centred on that sample. */
  lemma ImpulseGivesTheKernel(n: nat, p: nat, k: seq<real>, i: nat)
    requires p < n && i < n && Symmetric(k)
    ensures Filtered(Impulse(n, p), k)[i] == if i <= p + HALF && p <= i + HALF then k[i - p + HALF] else 0.0
  {
    ImpulseConvolves(n, p, k, i, TAPS);
    if i <= p + HALF && p <= i + HALF {
      assert k[TAPS - 1 - (i - p + HALF)] == k[i - p + HALF];
    }
  }

  // ------------------------------------------------------------ rates that are multiples of 16000

  /** `j` half-turns. */
  function HalfTurns(t: PositivePi, j: int): real { t.pi * j as real }

  predicate SineVanishes(t: PositivePi, j: int) { Sin(t, HalfTurns(t, j)) == 0.0 }

  ghost predicate Periodic(t: PositivePi) { forall j: int :: SineVanishes(t, j) }

  lemma AngleOfMultiple(t: PositivePi, fromRate: nat, m: nat, j: int, at: int)
    requires fromRate == m * TARGET && m > 0 && at == m * j
    ensures SincAngle(t, Cutoff(fromRate), at) == HalfTurns(t, j)
  {
    var c, n := Cutoff(fromRate), m as real;
    assert fromRate as real == n * 16000.0;
    assert 2.0 * c * n == 1.0 by {
      assert c == 16000.0 / (2.0 * (n * 16000.0));
    }
    assert at as real == n * j as real;
    assert 2.0 * c * t.pi * (n * j as real) == 2.0 * c * n * (t.pi * j as real);
  }

  /** From a multiple of 16000 by `m`, every m-th tap but the centre is zero. */
  lemma TapVanishes(t: PositivePi, fromRate: nat, m: nat, j: int, at: int)
    requires fromRate == m * TARGET && m > 0 && Periodic(t) && j != 0 && at == m * j && 0 <= HALF + at < TAPS
    ensures RawKernel(t, Cutoff(fromRate))[HALF + at] == 0.0
  {
    AngleOfMultiple(t, fromRate, m, j, at);
    SineAt(t, j, SincAngle(t, Cutoff(fromRate), at));
    NotZero(m, j);
    SincVanishes(t, Cutoff(fromRate), at);
  }

  lemma NotZero(m: int, j: int)
    requires m != 0 && j != 0
    ensures m * j != 0
  {
  }

  lemma SineAt(t: PositivePi, j: int, angle: real)
    requires Periodic(t) && angle == HalfTurns(t, j)
    ensures Sin(t, angle) == 0.0
  {
    assert SineVanishes(t, j);
  }

  lemma SincVanishes(t: PositivePi, cutoff: real, n: int)
    requires n != 0 && Sin(t, SincAngle(t, cutoff, n)) == 0.0
    ensures Sinc(t, cutoff, n) == 0.0
  {
    ZeroOver(PiTimes(t, n));
  }

  lemma ZeroOver(d: real)
    requires d != 0.0
    ensures 0.0 / d == 0.0
  {
  }

  lemma NormalisedZero(k: seq<real>, j: nat)
    requires Sum(k, |k|) != 0.0 && j < |k| && k[j] == 0.0
    ensures Normalised(k)[j] == 0.0
  {
    ZeroOver(Sum(k, |k|));
  }

  /** What the filter gives at position `i * m` of one sample at position `q * m`. */
  lemma AtKeptPosition(t: PositivePi, n: nat, fromRate: nat, m: nat, q: nat, i: nat)
    requires fromRate == m * TARGET && m > 1 && Sum(RawKernel(t, Cutoff(fromRate)), TAPS) != 0.0
    requires Periodic(t) && q * m < n && i * m < n
    ensures var k := Normalised(RawKernel(t, Cutoff(fromRate)));
            Filtered(Impulse(n, q * m), k)[i * m] == if i == q then k[HALF] else 0.0
  {
    var raw := RawKernel(t, Cutoff(fromRate));
    ImpulseConvolves(n, q * m, Normalised(raw), i * m, TAPS);
    ShiftIsMultiple(m, q, i);
    var at := m * (q - i);
    if i != q && 0 <= HALF + at < TAPS {
      TapVanishes(t, fromRate, m, q - i, at);
      NormalisedZero(raw, HALF + at);
    }
  }

  lemma IndexOfDecimation(fromRate: nat, m: nat, i: nat)
    requires fromRate == m * TARGET
    ensures Index(fromRate, i) == i * m && Fraction(fromRate, i) == 0.0
  {
    assert fromRate as real == m as real * 16000.0;
    assert Ratio(fromRate) == m as real;
    assert (i * m) as real == i as real * m as real;
  }

  lemma BlendAtStart(a: real, b: real)
    ensures Blend(a, b, 0.0) == a
  {
  }

  lemma KeptOutput(t: PositivePi, x: seq<real>, fromRate: nat, m: nat, i: nat)
    requires fromRate == m * TARGET && m > 1 && Sum(RawKernel(t, Cutoff(fromRate)), TAPS) != 0.0
    requires i * m < |x|
    ensures OutputAt(t, x, fromRate, i, Filtered(x, Normalised(RawKernel(t, Cutoff(fromRate))))[i * m])
  {
    var f := Prepared(t, x, fromRate);
    IndexOfDecimation(fromRate, m, i);
    BlendAtStart(f[i * m], GetOr(f, i * m + 1, f[i * m]));
    assert Interpolated(f, fromRate, i) == f[i * m];
  }

  lemma ShiftIsMultiple(m: nat, q: nat, i: nat)
    ensures q * m + HALF - i * m == HALF + m * (q - i)
  {
  }

  /**
   * The cutoff is the half of the new rate: from a multiple of 16000 by `m`, one sample at a
   * kept position reaches only its own output.
   */
  lemma KeptSampleStaysAlone(t: PositivePi, n: nat, fromRate: nat, m: nat, q: nat, i: nat)
    requires fromRate == m * TARGET && m > 1 && Sum(RawKernel(t, Cutoff(fromRate)), TAPS) != 0.0
    requires Periodic(t) && q * m < n && i * m < n
    ensures var k := Normalised(RawKernel(t, Cutoff(fromRate)));
            OutputAt(t, Impulse(n, q * m), fromRate, i, if i == q then k[HALF] else 0.0)
  {
    KeptOutput(t, Impulse(n, q * m), fromRate, m, i);
    AtKeptPosition(t, n, fromRate, m, q, i);
  }
}
