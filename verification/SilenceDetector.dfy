/**
 * The streaming silence detector of the dictation pipeline
 * (src-tauri/src/transcription.rs:17-107).
 *
 * Pushing and flushing are given twice: as functions on the value `Vad`, and as methods
 * of the class `Detector`, which update the fields in place and are proved equal
 * to the functions.  The root-mean-square test on a frame is the uninterpreted predicate
 * `silent`.
 */
module SilenceDetector {
  import opened Prelude

  datatype Params = Params(
    silent: seq<real> -> bool,   // rms(frame) < threshold
    framesNeeded: nat,           // silence_frames_needed
    minSpeech: nat,              // min_chunk_samples
    maxSamples: nat,             // max_chunk_samples
    frame: nat)                  // frame_size
  {
    predicate Valid() { frame > 0 && maxSamples > 0 }
  }

  datatype Vad = Vad(buffer: seq<real>, silentFrames: nat, cursor: nat, speech: nat)

  const EMPTY := Vad([], 0, 0, 0)

  /** What a call returns, and the detector it leaves behind. */
  datatype Outcome = Outcome(chunk: Option<seq<real>>, next: Vad)

  // ---------------------------------------------------------------- the incremental code

  function Analyse(p: Params, v: Vad): Vad
    requires v.cursor + p.frame <= |v.buffer|
  {
    var cursor := v.cursor + p.frame;
    if p.silent(v.buffer[v.cursor..cursor])
    then v.(silentFrames := v.silentFrames + 1, cursor := cursor)
    else v.(silentFrames := 0, speech := v.speech + p.frame, cursor := cursor)
  }

  predicate AtBoundary(p: Params, v: Vad) {
    v.silentFrames >= p.framesNeeded && v.speech >= p.minSpeech
  }

  function Scan(p: Params, v: Vad): Outcome
    requires p.frame > 0
    decreases |v.buffer| - v.cursor
  {
    if v.cursor + p.frame <= |v.buffer| then
      var w := Analyse(p, v);
      if AtBoundary(p, w) then Outcome(Some(w.buffer), EMPTY) else Scan(p, w)
    else
      Outcome(None, v)
  }

  function AfterPush(p: Params, v: Vad, samples: seq<real>): Outcome
    requires p.Valid()
  {
    var w := v.(buffer := v.buffer + samples);
    if |w.buffer| >= p.maxSamples then Outcome(Some(w.buffer), EMPTY) else Scan(p, w)
  }

  function AfterFlush(p: Params, v: Vad): Outcome {
    Outcome(if v.speech >= p.minSpeech then Some(v.buffer) else None, EMPTY)
  }

  /** The stop handlers' idiom: push the last samples, and flush if that gave no chunk. */
  function AfterStop(p: Params, v: Vad, samples: seq<real>): Outcome
    requires p.Valid()
  {
    var o := AfterPush(p, v, samples);
    if o.chunk.Some? then o else AfterFlush(p, o.next)
  }

  // ------------------------------------------- a direct computation on the whole buffer

  /** `c` is a whole number of frames. */
  predicate WholeFrames(frame: nat, c: nat) {
    c == 0 || (0 < frame <= c && WholeFrames(frame, c - frame))
  }

  function LoudFrames(p: Params, buffer: seq<real>, c: nat): nat
    requires c <= |buffer|
  {
    if p.frame == 0 || c < p.frame then 0
    else LoudFrames(p, buffer, c - p.frame) + (if p.silent(buffer[c - p.frame..c]) then 0 else 1)
  }

  /** The samples in the loud frames before `c`. */
  function LoudSamples(p: Params, buffer: seq<real>, c: nat): nat
    requires c <= |buffer|
  {
    if p.frame == 0 || c < p.frame then 0
    else LoudSamples(p, buffer, c - p.frame) + (if p.silent(buffer[c - p.frame..c]) then 0 else p.frame)
  }

  lemma {:induction false} LoudSamplesIsFrameSizeTimesLoudFrames(p: Params, buffer: seq<real>, c: nat)
    requires c <= |buffer|
    ensures LoudSamples(p, buffer, c) == p.frame * LoudFrames(p, buffer, c)
  {
    if p.frame != 0 && c >= p.frame {
      LoudSamplesIsFrameSizeTimesLoudFrames(p, buffer, c - p.frame);
      var n := LoudFrames(p, buffer, c - p.frame);
      assert p.frame * (n + 1) == p.frame * n + p.frame;
    }
  }

  function TrailingSilence(p: Params, buffer: seq<real>, c: nat): nat
    requires c <= |buffer|
  {
    if p.frame == 0 || c < p.frame || !p.silent(buffer[c - p.frame..c]) then 0
    else TrailingSilence(p, buffer, c - p.frame) + 1
  }

  /** An utterance ends at `c`: enough speech before it and enough silence just before it. */
  predicate UtteranceEnd(p: Params, buffer: seq<real>, c: nat)
    requires c <= |buffer|
  {
    && TrailingSilence(p, buffer, c) >= p.framesNeeded
    && LoudSamples(p, buffer, c) >= p.minSpeech
  }

  /** The counters are what a direct computation on the analysed part of the buffer gives. */
  predicate Counted(p: Params, v: Vad) {
    && v.cursor <= |v.buffer|
    && WholeFrames(p.frame, v.cursor)
    && v.speech == LoudSamples(p, v.buffer, v.cursor)
    && v.silentFrames == TrailingSilence(p, v.buffer, v.cursor)
    && NoEndUpTo(p, v.buffer, v.cursor)
  }

  predicate NoEndUpTo(p: Params, buffer: seq<real>, c: nat)
    requires c <= |buffer|
  {
    forall e :: 0 < e <= c && WholeFrames(p.frame, e) ==> !UtteranceEnd(p, buffer, e)
  }

  /** What holds of the detector between calls. */
  predicate Settled(p: Params, v: Vad) {
    && Counted(p, v)
    && |v.buffer| < p.maxSamples
    && |v.buffer| - v.cursor < p.frame
  }

  lemma {:induction false} AppendKeepsCounts(p: Params, buffer: seq<real>, more: seq<real>, c: nat)
    requires c <= |buffer|
    ensures LoudSamples(p, buffer + more, c) == LoudSamples(p, buffer, c)
    ensures TrailingSilence(p, buffer + more, c) == TrailingSilence(p, buffer, c)
  {
    if p.frame != 0 && c >= p.frame {
      AppendKeepsCounts(p, buffer, more, c - p.frame);
      assert (buffer + more)[c - p.frame..c] == buffer[c - p.frame..c];
    }
  }

  lemma AppendKeepsCounted(p: Params, v: Vad, more: seq<real>)
    requires Counted(p, v)
    ensures Counted(p, v.(buffer := v.buffer + more))
  {
    AppendKeepsCounts(p, v.buffer, more, v.cursor);
    forall e | 0 < e <= v.cursor && WholeFrames(p.frame, e)
      ensures !UtteranceEnd(p, v.buffer + more, e)
    {
      AppendKeepsCounts(p, v.buffer, more, e);
    }
  }

  /** Two whole numbers of frames differ by at least a frame. */
  lemma {:induction false} FramesApart(frame: nat, a: nat, b: nat)
    requires WholeFrames(frame, a) && WholeFrames(frame, b) && a < b
    ensures a + frame <= b
    decreases a
  {
    if a != 0 {
      FramesApart(frame, a - frame, b - frame);
    }
  }

  lemma AnalyseCounts(p: Params, v: Vad)
    requires p.frame > 0 && Counted(p, v) && v.cursor + p.frame <= |v.buffer|
    ensures var w := Analyse(p, v);
            && w.buffer == v.buffer && w.cursor == v.cursor + p.frame
            && WholeFrames(p.frame, w.cursor)
            && w.speech == LoudSamples(p, w.buffer, w.cursor)
            && w.silentFrames == TrailingSilence(p, w.buffer, w.cursor)
            && (AtBoundary(p, w) <==> UtteranceEnd(p, w.buffer, w.cursor))
            && (!AtBoundary(p, w) ==> Counted(p, w))
  {
    var w := Analyse(p, v);
    forall e | 0 < e <= w.cursor && WholeFrames(p.frame, e) && !AtBoundary(p, w)
      ensures !UtteranceEnd(p, w.buffer, e)
    {
      if v.cursor < e < w.cursor {
        FramesApart(p.frame, v.cursor, e);
      }
    }
  }

  /**
   * The scan returns a chunk exactly when the direct computation finds an utterance end
   * in the buffer; otherwise it stops with correct counters less than a frame from the end.
   */
  lemma {:induction false} ScanIsExact(p: Params, v: Vad)
    requires p.frame > 0 && Counted(p, v)
    ensures var o := Scan(p, v);
            && (o.chunk.Some? <==>
                  exists e :: 0 < e <= |v.buffer| && WholeFrames(p.frame, e) && UtteranceEnd(p, v.buffer, e))
            && (o.chunk.Some? ==> o == Outcome(Some(v.buffer), EMPTY))
            && (o.chunk.None? ==>
                  Counted(p, o.next) && o.next.buffer == v.buffer && |v.buffer| - o.next.cursor < p.frame)
    decreases |v.buffer| - v.cursor
  {
    if v.cursor + p.frame <= |v.buffer| {
      var w := Analyse(p, v);
      AnalyseCounts(p, v);
      if !AtBoundary(p, w) {
        ScanIsExact(p, w);
      }
    } else {
      forall e | 0 < e <= |v.buffer| && WholeFrames(p.frame, e)
        ensures !UtteranceEnd(p, v.buffer, e)
      {
        if v.cursor < e {
          FramesApart(p.frame, v.cursor, e);
        }
      }
    }
  }

  /**
   * A push decides as a detector without any incremental state would: it returns the whole
   * buffer exactly when the buffer is full or an utterance ends somewhere in it.
   */
  lemma PushIsExact(p: Params, v: Vad, samples: seq<real>)
    requires p.Valid() && Settled(p, v)
    ensures var o, all := AfterPush(p, v, samples), v.buffer + samples;
            && (o.chunk.Some? <==>
                 || |all| >= p.maxSamples
                 || exists e :: 0 < e <= |all| && WholeFrames(p.frame, e) && UtteranceEnd(p, all, e))
            && (o.chunk.Some? ==> o == Outcome(Some(all), EMPTY))
            && (o.chunk.None? ==> o.next.buffer == all)
            && Settled(p, o.next)
  {
    AppendKeepsCounted(p, v, samples);
    ScanIsExact(p, v.(buffer := v.buffer + samples));
  }

  // ------------------------------------------------------------ push granularity

  lemma {:induction false} ScanContinues(p: Params, v: Vad, more: seq<real>)
    requires p.frame > 0 && v.cursor <= |v.buffer| && Scan(p, v).chunk.None?
    ensures var w := Scan(p, v).next;
            Scan(p, v.(buffer := v.buffer + more)) == Scan(p, w.(buffer := w.buffer + more))
    decreases |v.buffer| - v.cursor
  {
    if v.cursor + p.frame <= |v.buffer| {
      var w := Analyse(p, v);
      var c := v.cursor + p.frame;
      assert (v.buffer + more)[v.cursor..c] == v.buffer[v.cursor..c];
      assert Analyse(p, v.(buffer := v.buffer + more)) == w.(buffer := w.buffer + more);
      ScanContinues(p, w, more);
    }
  }

  lemma {:induction false} ScanKeepsBuffer(p: Params, v: Vad)
    requires p.frame > 0
    ensures Scan(p, v).chunk.None? ==> Scan(p, v).next.buffer == v.buffer
    decreases |v.buffer| - v.cursor
  {
    if v.cursor + p.frame <= |v.buffer| && !AtBoundary(p, Analyse(p, v)) {
      ScanKeepsBuffer(p, Analyse(p, v));
    }
  }

  /** How the samples are cut into pushes does not matter while no chunk is emitted. */
  lemma PushGranularity(p: Params, v: Vad, a: seq<real>, b: seq<real>)
    requires p.Valid() && v.cursor <= |v.buffer| && AfterPush(p, v, a).chunk.None?
    ensures AfterPush(p, AfterPush(p, v, a).next, b) == AfterPush(p, v, a + b)
  {
    var va := v.(buffer := v.buffer + a);
    ScanContinues(p, va, b);
    ScanKeepsBuffer(p, va);
    assert v.buffer + a + b == v.buffer + (a + b);
  }

  function PushAll(p: Params, v: Vad, pieces: seq<seq<real>>): Outcome
    requires p.Valid()
  {
    if pieces == [] then Outcome(None, v)
    else
      var o := PushAll(p, v, pieces[..|pieces| - 1]);
      if o.chunk.Some? then o else AfterPush(p, o.next, pieces[|pieces| - 1])
  }

  /** Any number of pushes, all but the last giving nothing, act as one push of everything. */
  lemma {:induction false} AnyCutIsOnePush(p: Params, v: Vad, pieces: seq<seq<real>>)
    requires p.Valid() && Settled(p, v) && pieces != []
    requires PushAll(p, v, pieces[..|pieces| - 1]).chunk.None?
    ensures PushAll(p, v, pieces) == AfterPush(p, v, Flatten(pieces))
  {
    var init, last := pieces[..|pieces| - 1], pieces[|pieces| - 1];
    if init == [] {
      assert Flatten(pieces) == last;
    } else {
      AnyCutIsOnePush(p, v, init);
      PushGranularity(p, v, Flatten(init), last);
    }
  }

  // ------------------------------------------------------------ whole runs

  datatype Op = DoPush(samples: seq<real>) | DoFlush

  datatype Kind = Forced | Silence | Flushed | Discarded

  /** A piece of audio that left the detector; `input` is the length of the push that caused it. */
  datatype Exit = Exit(kind: Kind, data: seq<real>, input: nat)

  datatype Trace = Trace(v: Vad, exits: seq<Exit>)

  function Step(p: Params, v: Vad, op: Op): (Vad, seq<Exit>)
    requires p.Valid()
  {
    match op
    case DoPush(a) =>
      var o := AfterPush(p, v, a);
      var kind := if |v.buffer| + |a| >= p.maxSamples then Forced else Silence;
      (o.next, if o.chunk.Some? then [Exit(kind, o.chunk.value, |a|)] else [])
    case DoFlush =>
      var o := AfterFlush(p, v);
      (o.next, [if o.chunk.Some? then Exit(Flushed, o.chunk.value, 0) else Exit(Discarded, v.buffer, 0)])
  }

  function Run(p: Params, ops: seq<Op>): Trace
    requires p.Valid()
  {
    if ops == [] then Trace(EMPTY, [])
    else
      var t := Run(p, ops[..|ops| - 1]);
      var (v, out) := Step(p, t.v, ops[|ops| - 1]);
      Trace(v, t.exits + out)
  }

  function Input(ops: seq<Op>): seq<real> {
    if ops == [] then []
    else
      var op := ops[|ops| - 1];
      Input(ops[..|ops| - 1]) + (if op.DoPush? then op.samples else [])
  }

  function Output(exits: seq<Exit>): seq<real> {
    if exits == [] then [] else Output(exits[..|exits| - 1]) + exits[|exits| - 1].data
  }

  /** `data` holds at least `minSpeech` samples of loud frames. */
  predicate EnoughSpeech(p: Params, data: seq<real>) {
    exists c :: 0 <= c <= |data| && WholeFrames(p.frame, c) && LoudSamples(p, data, c) >= p.minSpeech
  }

  predicate GoodExit(p: Params, e: Exit) {
    && |e.data| < p.maxSamples + e.input
    && (e.kind == Forced <==> |e.data| >= p.maxSamples)
    && (e.kind in {Silence, Flushed} ==> EnoughSpeech(p, e.data))
  }

  lemma StepIsGood(p: Params, v: Vad, op: Op)
    requires p.Valid() && Settled(p, v)
    ensures var (w, out) := Step(p, v, op);
            && Settled(p, w)
            && Output(out) + w.buffer == v.buffer + (if op.DoPush? then op.samples else [])
            && (forall e :: e in out ==> GoodExit(p, e))
            && |out| <= 1
  {
    match op
    case DoPush(a) =>
      PushIsExact(p, v, a);
      var all := v.buffer + a;
      var (w, out) := Step(p, v, op);
      if out != [] {
        assert out[..0] == [] && Output(out) == Output(out[..0]) + all;
        if |all| < p.maxSamples {
          var e :| 0 < e <= |all| && WholeFrames(p.frame, e) && UtteranceEnd(p, all, e);
          assert EnoughSpeech(p, all);
        }
      }
    case DoFlush =>
      var (w, out) := Step(p, v, op);
      assert out[..0] == [] && Output(out) == Output(out[..0]) + v.buffer;
      assert v.speech >= p.minSpeech ==> EnoughSpeech(p, v.buffer);
  }

  lemma {:induction false} OutputAppend(a: seq<Exit>, b: seq<Exit>)
    requires |b| <= 1
    ensures Output(a + b) == Output(a) + Output(b)
  {
    if b == [] {
      assert a + b == a;
    } else {
      assert (a + b)[..|a|] == a && b[..0] == [];
    }
  }

  lemma ConservesOneMore(
    exits: seq<Exit>, buffer: seq<real>, input: seq<real>, out: seq<Exit>, buffer': seq<real>, a: seq<real>)
    requires |out| <= 1 && Output(exits) + buffer == input && Output(out) + buffer' == buffer + a
    ensures Output(exits + out) + buffer' == input + a
  {
    OutputAppend(exits, out);
    Assoc(Output(exits), Output(out), buffer');
    Assoc(Output(exits), buffer, a);
  }

  /**
   * Over every run: nothing is lost, repeated or reordered, the counters are right, the
   * buffer stays below its limit, and every chunk obeys the size and speech limits.
   */
  lemma {:induction false} RunConserves(p: Params, ops: seq<Op>)
    requires p.Valid()
    ensures var t := Run(p, ops);
            && Output(t.exits) + t.v.buffer == Input(ops)
            && Settled(p, t.v)
            && forall e :: e in t.exits ==> GoodExit(p, e)
  {
    if ops != [] {
      var init, op := ops[..|ops| - 1], ops[|ops| - 1];
      RunConserves(p, init);
      var t := Run(p, init);
      StepIsGood(p, t.v, op);
      var (w, out) := Step(p, t.v, op);
      ConservesOneMore(t.exits, t.v.buffer, Input(init), out, w.buffer, if op.DoPush? then op.samples else []);
    }
  }

  /** The stop idiom leaves the detector empty, and loses audio only when speech was short. */
  lemma StopIdiomEmpties(p: Params, v: Vad, samples: seq<real>)
    requires p.Valid() && Settled(p, v)
    ensures var o, all := AfterStop(p, v, samples), v.buffer + samples;
            && o.next == EMPTY
            && (o.chunk.Some? ==> o.chunk.value == all)
            && (o.chunk.None? ==>
                  && |all| < p.maxSamples
                  && forall c :: 0 <= c <= |all| && WholeFrames(p.frame, c) ==> LoudSamples(p, all, c) < p.minSpeech)
  {
    PushIsExact(p, v, samples);
    var o := AfterPush(p, v, samples);
    if o.chunk.None? && o.next.speech < p.minSpeech {
      forall c | 0 <= c <= |o.next.buffer| && WholeFrames(p.frame, c)
        ensures LoudSamples(p, o.next.buffer, c) < p.minSpeech
      {
        if o.next.cursor < c {
          FramesApart(p.frame, o.next.cursor, c);
        }
        LoudSamplesGrow(p, o.next.buffer, c, o.next.cursor);
      }
    }
  }

  lemma {:induction false} LoudSamplesGrow(p: Params, buffer: seq<real>, c: nat, d: nat)
    requires p.frame > 0 && c <= d <= |buffer| && WholeFrames(p.frame, c) && WholeFrames(p.frame, d)
    ensures LoudSamples(p, buffer, c) <= LoudSamples(p, buffer, d)
    decreases d
  {
    if c < d {
      FramesApart(p.frame, c, d);
      LoudSamplesGrow(p, buffer, c, d - p.frame);
    }
  }

  // ------------------------------------------------------------ the object

  class Detector {
    const p: Params
    var buffer: seq<real>
    var silentFrames: nat
    var cursor: nat
    var speech: nat

    function View(): Vad
      reads this
    {
      Vad(buffer, silentFrames, cursor, speech)
    }

    /** `SilenceDetector::new`; the caller's rates and durations do not overflow u32. */
    constructor (sampleRate: nat, silent: seq<real> -> bool, silenceMs: nat, minChunkMs: nat, maxChunkMs: nat)
      requires sampleRate * 20 < 0x1_0000_0000
      requires sampleRate * minChunkMs < 0x1_0000_0000 && sampleRate * maxChunkMs < 0x1_0000_0000
      ensures p == Params(silent, silenceMs / 20, sampleRate * minChunkMs / 1000,
                          sampleRate * maxChunkMs / 1000, sampleRate * 20 / 1000)
      ensures View() == EMPTY
      ensures sampleRate >= 50 && maxChunkMs >= 20 ==> p.Valid() && Settled(p, View())
    {
      p := Params(silent, silenceMs / 20, sampleRate * minChunkMs / 1000,
                  sampleRate * maxChunkMs / 1000, sampleRate * 20 / 1000);
      buffer, silentFrames, cursor, speech := [], 0, 0, 0;
      new;
      if sampleRate >= 50 && maxChunkMs >= 20 {
        assert sampleRate * maxChunkMs >= 50 * maxChunkMs >= 1000;
      }
    }

    method TakeBuffer() returns (taken: seq<real>)
      modifies this
      ensures taken == old(buffer) && View() == EMPTY
    {
      silentFrames, cursor, speech := 0, 0, 0;
      taken := buffer;
      buffer := [];
    }

    method Push(samples: seq<real>) returns (chunk: Option<seq<real>>)
      requires p.Valid()
      modifies this
      ensures Outcome(chunk, View()) == AfterPush(p, old(View()), samples)
    {
      buffer := buffer + samples;
      if |buffer| >= p.maxSamples {
        var taken := TakeBuffer();
        return Some(taken);
      }
      while cursor + p.frame <= |buffer|
        invariant buffer == old(buffer) + samples
        invariant Scan(p, View()) == Scan(p, old(View()).(buffer := buffer))
        decreases |buffer| - cursor
      {
        ghost var before := View();
        if p.silent(buffer[cursor..cursor + p.frame]) {
          silentFrames := silentFrames + 1;
        } else {
          silentFrames := 0;
          speech := speech + p.frame;
        }
        cursor := cursor + p.frame;
        assert View() == Analyse(p, before);
        if silentFrames >= p.framesNeeded && speech >= p.minSpeech {
          var taken := TakeBuffer();
          return Some(taken);
        }
      }
      return None;
    }

    method Flush() returns (chunk: Option<seq<real>>)
      modifies this
      ensures Outcome(chunk, View()) == AfterFlush(p, old(View()))
    {
      if speech >= p.minSpeech {
        var taken := TakeBuffer();
        return Some(taken);
      }
      buffer, cursor, speech, silentFrames := [], 0, 0, 0;
      return None;
    }
  }
}
