/**
 * The microphone recorder (src-tauri/src/audio.rs:11-108): the callback mixes interleaved
 * frames down to mono and appends them to the buffer that `drain` and `stop` empty.
 * Arithmetic is exact.
 */
module Recorder {
  import opened Prelude

  function Total(frame: seq<real>): real {
    if frame == [] then 0.0 else Total(frame[..|frame| - 1]) + frame[|frame| - 1]
  }

  function Mean(frame: seq<real>, channels: nat): real
    requires channels > 0
  {
    Total(frame) / channels as real
  }

  /** One value a frame; a last, incomplete frame is still divided by the channel count. */
  function Downmix(data: seq<real>, channels: nat): seq<real>
    requires channels > 0
  {
    if channels == 1 then data
    else if |data| == 0 then []
    else if |data| < channels then [Mean(data, channels)]
    else [Mean(data[..channels], channels)] + Downmix(data[channels..], channels)
  }

  /** `n` whole frames. */
  predicate ExactFrames(data: seq<real>, channels: nat, n: nat) { |data| == n * channels }

  lemma TakeAndDrop(a: seq<real>, b: seq<real>, n: nat)
    requires n <= |a|
    ensures (a + b)[..n] == a[..n] && (a + b)[n..] == a[n..] + b
  {
  }

  lemma OneFrameMore(a: seq<real>, b: seq<real>, channels: nat)
    requires 1 < channels <= |a|
    requires Downmix(a[channels..] + b, channels) == Downmix(a[channels..], channels) + Downmix(b, channels)
    ensures Downmix(a + b, channels) == Downmix(a, channels) + Downmix(b, channels)
  {
    TakeAndDrop(a, b, channels);
    FirstFrame(a + b, channels);
    FirstFrame(a, channels);
    Assoc([Mean(a[..channels], channels)], Downmix(a[channels..], channels), Downmix(b, channels));
  }

  lemma FirstFrame(data: seq<real>, channels: nat)
    requires 1 < channels <= |data|
    ensures Downmix(data, channels) == [Mean(data[..channels], channels)] + Downmix(data[channels..], channels)
  {
  }

  lemma OneFrameLess(a: seq<real>, channels: nat, n: nat)
    requires n > 0 && ExactFrames(a, channels, n)
    ensures |a| >= channels && ExactFrames(a[channels..], channels, n - 1)
  {
    assert n * channels == (n - 1) * channels + channels;
  }

  /** Callbacks that deliver whole frames can be cut anywhere between frames. */
  lemma {:induction false} DownmixAppends(a: seq<real>, b: seq<real>, channels: nat, n: nat)
    requires channels > 0 && ExactFrames(a, channels, n)
    ensures Downmix(a + b, channels) == Downmix(a, channels) + Downmix(b, channels)
    decreases n
  {
    if n == 0 {
      assert a == [] && a + b == b;
    } else if channels > 1 {
      OneFrameLess(a, channels, n);
      DownmixAppends(a[channels..], b, channels, n - 1);
      OneFrameMore(a, b, channels);
    }
  }

  function Repeated(x: real, n: nat): seq<real> { seq(n, _ => x) }

  /** The mono signal `x` played on every channel. */
  function Spread(x: seq<real>, channels: nat): seq<real> {
    if x == [] then [] else Repeated(x[0], channels) + Spread(x[1..], channels)
  }

  lemma {:induction false} TotalOfRepeated(x: real, n: nat)
    ensures Total(Repeated(x, n)) == n as real * x
  {
    if n > 0 {
      TotalOfRepeated(x, n - 1);
      assert Repeated(x, n)[..n - 1] == Repeated(x, n - 1);
      var m := (n - 1) as real;
      assert n as real == m + 1.0;
      assert (m + 1.0) * x == m * x + x;
    }
  }

  lemma Average(x: real, n: nat)
    requires n > 0
    ensures Mean(Repeated(x, n), n) == x
  {
    TotalOfRepeated(x, n);
    var m := n as real;
    assert m * x / m == x;
  }

  /** Mixing down undoes playing a mono signal on every channel. */
  lemma {:induction false} DownmixUndoesSpread(x: seq<real>, channels: nat)
    requires channels > 0
    ensures Downmix(Spread(x, channels), channels) == x
    decreases |x|
  {
    if x != [] {
      DownmixUndoesSpread(x[1..], channels);
      OneFrameOfSpread(x, channels);
    }
  }

  lemma OneFrameOfSpread(x: seq<real>, channels: nat)
    requires channels > 0 && x != [] && Downmix(Spread(x[1..], channels), channels) == x[1..]
    ensures Downmix(Spread(x, channels), channels) == x
  {
    var frame, rest := Repeated(x[0], channels), Spread(x[1..], channels);
    assert Spread(x, channels) == frame + rest;
    if channels == 1 {
      assert frame == [x[0]];
    } else {
      TakeAndDrop(frame, rest, channels);
      assert frame[..channels] == frame && frame[channels..] + rest == rest;
      FirstFrame(frame + rest, channels);
      Average(x[0], channels);
    }
  }

  // ------------------------------------------------------------ what each sample counts for

  lemma {:induction false} TotalMoves(frame: seq<real>, c: nat, x: real)
    requires c < |frame|
    ensures Total(frame[c := x]) == Total(frame) + (x - frame[c])
  {
    var last := |frame| - 1;
    if c == last {
      assert frame[c := x][..last] == frame[..last];
    } else {
      TotalMoves(frame[..last], c, x);
      assert frame[c := x][..last] == frame[..last][c := x];
    }
  }

  /** Every channel has the same weight in the mean. */
  lemma MeanMoves(frame: seq<real>, channels: nat, c: nat, x: real)
    requires channels > 0 && c < |frame|
    ensures Mean(frame[c := x], channels) == Mean(frame, channels) + Share(x - frame[c], channels)
  {
    TotalMoves(frame, c, x);
    var t, d, n := Total(frame), x - frame[c], channels as real;
    assert (t + d) / n == t / n + d / n;
  }

  /** One value a frame, counting an incomplete last one. */
  lemma {:induction false} OneValueAFrame(data: seq<real>, channels: nat)
    requires channels > 0
    ensures |Downmix(data, channels)| == (|data| + channels - 1) / channels
    decreases |data|
  {
    if channels > 1 {
      if |data| >= channels {
        OneValueAFrame(data[channels..], channels);
        OneFrameFewer(|data|, channels);
      } else if |data| > 0 {
        QuotientIs(|data| + channels - 1, channels, 1);
      } else {
        QuotientIs(channels - 1, channels, 0);
      }
    }
  }

  lemma QuotientIs(n: int, d: nat, q: int)
    requires d > 0 && q * d <= n < q * d + d
    ensures n / d == q
  {
    var r := n / d - q;
    assert n == (n / d) * d + n % d;
    assert r * d == (n / d) * d - q * d;
    MultipleIsFar(r, d);
  }

  lemma MultipleIsFar(r: int, d: int)
    requires d > 0
    ensures r >= 1 ==> r * d >= d
    ensures r <= -1 ==> r * d <= -d
  {
    if r >= 1 {
      assert r * d == (r - 1) * d + d;
    } else {
      assert r * d == (r + 1) * d - d;
    }
  }

  lemma OneMore(n: int, d: nat)
    requires d > 0
    ensures (n + d) / d == n / d + 1
  {
    var q := n / d;
    assert n == q * d + n % d;
    assert (q + 1) * d == q * d + d;
    QuotientIs(n + d, d, q + 1);
  }

  lemma OneFrameFewer(n: nat, channels: nat)
    requires 0 < channels <= n
    ensures n / channels == (n - channels) / channels + 1
    ensures (n + channels - 1) / channels == (n - 1) / channels + 1
  {
    OneMore(n - channels, channels);
    OneMore(n - 1, channels);
  }

  /** The frame that sample `p` belongs to. */
  function FrameOf(p: nat, channels: nat): nat
    requires channels > 0
  {
    if p < channels then 0 else FrameOf(p - channels, channels) + 1
  }

  lemma {:induction false} FrameIsQuotient(p: nat, channels: nat)
    requires channels > 0
    ensures FrameOf(p, channels) == p / channels
    decreases p
  {
    if p < channels {
      QuotientIs(p, channels, 0);
    } else {
      FrameIsQuotient(p - channels, channels);
      OneFrameFewer(p, channels);
    }
  }

  lemma {:induction false} FramesOfMono(p: nat)
    ensures FrameOf(p, 1) == p
  {
    if p > 0 {
      FramesOfMono(p - 1);
    }
  }

  function Share(d: real, channels: nat): real
    requires channels > 0
  {
    d / channels as real
  }

  lemma {:induction false} SampleMovesItsFrame(data: seq<real>, channels: nat, p: nat, x: real)
    requires channels > 0 && p < |data|
    ensures Moved(Downmix(data, channels), Downmix(data[p := x], channels), FrameOf(p, channels),
                  Share(x - data[p], channels))
    decreases |data|
  {
    if channels == 1 {
      FramesOfMono(p);
      assert Share(x - data[p], 1) == x - data[p];
    } else if |data| < channels {
      MeanMoves(data, channels, p, x);
    } else if p < channels {
      FirstFrameMoves(data, channels, p, x);
    } else {
      SampleMovesItsFrame(data[channels..], channels, p - channels, x);
      LaterFrameMoves(data, channels, p, x);
    }
  }

  /**
   * A sample moves the value of its own frame, by its share of one channel, and no other
   * value, in whole and incomplete frames alike.
   */
  lemma EachSampleMovesItsFrame(data: seq<real>, channels: nat, p: nat, x: real)
    requires channels > 0 && p < |data|
    ensures Moved(Downmix(data, channels), Downmix(data[p := x], channels), p / channels,
                  (x - data[p]) / channels as real)
  {
    SampleMovesItsFrame(data, channels, p, x);
    FrameIsQuotient(p, channels);
  }

  /** `b` is `a` with the value at `q` raised by `d`. */
  predicate Moved(a: seq<real>, b: seq<real>, q: nat, d: real) { q < |a| && b == a[q := a[q] + d] }

  lemma FirstFrameMoves(data: seq<real>, channels: nat, p: nat, x: real)
    requires 1 < channels <= |data| && p < channels
    ensures Moved(Downmix(data, channels), Downmix(data[p := x], channels), 0, Share(x - data[p], channels))
  {
    var moved := data[p := x];
    FirstFrame(data, channels);
    FirstFrame(moved, channels);
    assert moved[..channels] == data[..channels][p := x] && moved[channels..] == data[channels..];
    MeanMoves(data[..channels], channels, p, x);
  }

  lemma LaterFrameMoves(data: seq<real>, channels: nat, p: nat, x: real)
    requires 1 < channels <= p < |data|
    requires var rest, q := data[channels..], p - channels;
             Moved(Downmix(rest, channels), Downmix(rest[q := x], channels), FrameOf(q, channels),
                   Share(x - data[p], channels))
    ensures Moved(Downmix(data, channels), Downmix(data[p := x], channels), FrameOf(p, channels),
                  Share(x - data[p], channels))
  {
    var moved := data[p := x];
    FirstFrame(data, channels);
    FirstFrame(moved, channels);
    assert moved[..channels] == data[..channels] && moved[channels..] == data[channels..][p - channels := x];
  }

  lemma {:induction false} TotalOfSilence(frame: seq<real>)
    requires forall i :: 0 <= i < |frame| ==> frame[i] == 0.0
    ensures Total(frame) == 0.0
  {
    if frame != [] {
      TotalOfSilence(frame[..|frame| - 1]);
    }
  }

  /** Silence stays silence; with the law above this determines every value. */
  lemma {:induction false} SilenceStaysSilent(data: seq<real>, channels: nat, k: nat)
    requires channels > 0 && k < |Downmix(data, channels)|
    requires forall i :: 0 <= i < |data| ==> data[i] == 0.0
    ensures Downmix(data, channels)[k] == 0.0
    decreases |data|
  {
    if channels > 1 {
      if |data| < channels {
        TotalOfSilence(data);
      } else {
        TotalOfSilence(data[..channels]);
        if k > 0 {
          SilenceStaysSilent(data[channels..], channels, k - 1);
        }
      }
    }
  }

  // ------------------------------------------------------------ operations on values

  /** `stream` is the channel count of the running stream. */
  datatype Rec = Rec(buffer: seq<real>, rate: nat, stream: Option<nat>)

  const NEW := Rec([], 16000, None)

  /** The first half of `start`: the device is opened and its rate stored. */
  function Opened(r: Rec, rate: nat): Rec { r.(rate := rate) }

  /** The second half: the stream plays. */
  function Playing(r: Rec, channels: nat): Rec { r.(stream := Some(channels)) }

  /** A callback of the running stream; without one there are no callbacks. */
  function Heard(r: Rec, data: seq<real>): Rec {
    if r.stream.Some? && r.stream.value > 0 then r.(buffer := r.buffer + Downmix(data, r.stream.value)) else r
  }

  /** What `drain` leaves; it hands out the buffer. */
  function Drained(r: Rec): Rec { r.(buffer := []) }

  function Stopped(r: Rec): Rec { r.(stream := None, buffer := []) }

  // ------------------------------------------------------------ the object

  class AudioRecorder {
    var buffer: seq<real>
    var nativeSampleRate: nat
    var stream: Option<nat>

    function View(): Rec
      reads this
    {
      Rec(buffer, nativeSampleRate, stream)
    }

    constructor ()
      ensures View() == NEW
    {
      buffer, nativeSampleRate, stream := [], 16000, None;
    }

    /** `plays` is false when the device refuses; the rate is stored before that is known. */
    method Start(device: Option<(nat, nat)>, plays: bool) returns (ok: bool)
      modifies this
      ensures ok <==> device.Some? && plays
      ensures View() == if device.None? then old(View())
                        else if !plays then Opened(old(View()), device.value.0)
                        else Playing(Opened(old(View()), device.value.0), device.value.1)
    {
      if device.None? {
        return false;
      }
      nativeSampleRate := device.value.0;
      if !plays {
        return false;
      }
      stream := Some(device.value.1);
      return true;
    }

    /** The callback of a stream with this many channels. */
    method PushMono(data: seq<real>, channels: nat)
      requires channels > 0
      modifies this`buffer
      ensures stream == Some(channels) ==> View() == Heard(old(View()), data)
      ensures buffer == old(buffer) + Downmix(data, channels)
    {
      var mono := data;
      if channels != 1 {
        mono := MixDown(data, channels);
      }
      buffer := buffer + mono;
    }

    method Drain() returns (taken: seq<real>)
      modifies this`buffer
      ensures taken == old(buffer) && View() == Drained(old(View()))
    {
      taken := buffer;
      buffer := [];
    }

    method Stop()
      modifies this
      ensures View() == Stopped(old(View()))
    {
      stream := None;
      buffer := [];
    }
  }

  /** One value for each chunk of `channels` samples. */
  method MixDown(data: seq<real>, channels: nat) returns (mono: seq<real>)
    requires channels > 1
    ensures mono == Downmix(data, channels)
  {
    mono := [];
    var from := 0;
    while from < |data|
      invariant 0 <= from <= |data| && Downmix(data, channels) == mono + Downmix(data[from..], channels)
      decreases |data| - from
    {
      var to := if from + channels <= |data| then from + channels else |data|;
      NextFrame(data, from, to, channels);
      Assoc(mono, [Mean(data[from..to], channels)], Downmix(data[to..], channels));
      mono := mono + [Mean(data[from..to], channels)];
      from := to;
    }
    NoFrame(data, mono, channels);
  }

  lemma NoFrame(data: seq<real>, mono: seq<real>, channels: nat)
    requires channels > 1
    ensures mono + Downmix(data[|data|..], channels) == mono
  {
    assert data[|data|..] == [];
  }

  lemma NextFrame(data: seq<real>, from: nat, to: nat, channels: nat)
    requires from < to <= |data| && channels > 1
    requires to == if from + channels <= |data| then from + channels else |data|
    ensures Downmix(data[from..], channels) == [Mean(data[from..to], channels)] + Downmix(data[to..], channels)
  {
    var rest := data[from..];
    if from + channels <= |data| {
      assert rest[..channels] == data[from..to] && rest[channels..] == data[to..];
    } else {
      assert rest == data[from..to] && data[to..] == [];
    }
  }
}
