/**
 * The dictation protocol of src-tauri/src/lib.rs: the audio callback, the 20 ms poll
 * thread and the start/stop handlers of the in-app button and the global shortcut, over
 * the recorder (src-tauri/src/audio.rs) and the dictation state.
 *
 * It is a state machine: one action per critical section or per effect another thread can
 * observe.  Handlers are serialised with each other (src-tauri/src/audio.rs:19-26); the
 * poll thread and the callback interleave with them and with each other at every action.
 */
module Dictation {
  import opened Prelude
  import opened SilenceDetector
  import opened Recorder

  datatype Source = Hotkey | InApp

  /** An item of the worker channel; `delivered` is false for one dropped on a failed send. */
  datatype Send = Send(chunk: seq<real>, rate: nat, inApp: bool, delivered: bool)

  datatype Lock = Free | ByPoll | ByHandler

  datatype Handler =
    | HIdle
    | HChecked(src: Source, sawRecording: bool)                        // read is_recording, lock released
    | HOpened(src: Source, channels: nat)                              // device queried, rate stored
    | HStarted(src: Source, rate: nat)                                 // stream playing
    | HLocked(src: Source)                                             // stop: dictation lock held
    | HDrained(src: Source, samples: seq<real>, rate: nat)             // stop: recorder drained
    | HReleased(src: Source, chunk: Option<seq<real>>, rate: nat)      // stop: flags cleared, lock released
    | HClosed(src: Source, chunk: Option<seq<real>>, rate: nat)        // stop: stream dropped, buffer cleared

  datatype Poll = PIdle | PLocked | PDrained(samples: seq<real>, rate: nat)

  /** History of one session: who started it, at what rate, and where its audio went. */
  datatype Session = Session(
    src: Source, rate: nat, captured: seq<real>, from: nat, discarded: seq<real>, tail: seq<real>)

  datatype Ended = Ended(session: Session, to: nat, endedBy: Source)

  datatype State = State(
    rec: Rec,                                                          // AudioRecorder
    lock: Lock, det: Vad, params: Params, isRecording: bool, inApp: bool, // DictationState
    channel: seq<Send>,                                                // everything ever offered to the worker
    handler: Handler, poll: Poll,
    live: Option<Session>, ended: seq<Ended>)                          // history

  datatype Action =
    | Callback(data: seq<real>)           // push_mono, interleaved samples
    | PollLock                            // lib.rs 567-568
    | PollDrain                           // lib.rs 569-573
    | PollPush(room: bool)                // lib.rs 574-579
    | Press(src: Source)                  // lib.rs 82 / 188
    | OpenDevice(rate: nat, channels: nat) // audio.rs 40-47
    | OpenFails                           // audio.rs 40-81
    | PlayStream                          // audio.rs 50-82
    | BeginSession                        // lib.rs 91-95 / 202-206
    | StopLock                            // lib.rs 100-106 / 211-217
    | StopDrain                           // lib.rs 107-110 / 218-221
    | StopFlush                           // lib.rs 111-115 / 222-231
    | StopRecorder                        // lib.rs 116 / 235, audio.rs 88-91
    | StopSend(room: bool)                // lib.rs 119-133 / 240-254

  /** `SilenceDetector::new(native_rate, 0.01, 300, 300, 10000)`. */
  function ParamsFor(silent: seq<real> -> bool, rate: nat): Params {
    Params(silent, 300 / 20, rate * 300 / 1000, rate * 10000 / 1000, rate * 20 / 1000)
  }

  function Init(silent: seq<real> -> bool): State {
    State(NEW, Free, EMPTY,
          Params(silent, 300 / 20, 44100 * 500 / 1000, 44100 * 10000 / 1000, 44100 * 20 / 1000),
          false, false, [], HIdle, PIdle, None, [])
  }

  /** The rest of a poll tick, once the detector has answered `o`. */
  function Pushed(s: State, o: Outcome, room: bool): State
    requires s.poll.PDrained?
  {
    s.(det := o.next, lock := Free, poll := PIdle,
       channel := if o.chunk.Some? then s.channel + [Send(o.chunk.value, s.poll.rate, s.inApp, room)] else s.channel)
  }

  /** The end of a stop handler's locked part, once push-or-flush has answered `o`. */
  function Released(s: State, o: Outcome): State
    requires s.handler.HDrained? && s.live.Some?
  {
    var lost := if o.chunk.Some? then [] else s.det.buffer + s.handler.samples;
    s.(det := o.next, isRecording := false, lock := Free,
       handler := HReleased(s.handler.src, o.chunk, s.handler.rate),
       live := Some(s.live.value.(discarded := lost)))
  }

  /** The final blocking send of a stop handler, after which the session is over. */
  function SentLast(s: State, room: bool): State
    requires s.handler.HClosed? && s.live.Some?
  {
    var channel := if s.handler.chunk.Some?
                   then s.channel + [Send(s.handler.chunk.value, s.handler.rate, s.handler.src.InApp?, room)]
                   else s.channel;
    s.(channel := channel, handler := HIdle, live := None,
       ended := s.ended + [Ended(s.live.value, |channel|, s.handler.src)])
  }

  /** One action; an action that is not enabled leaves the state as it is. */
  function Do(silent: seq<real> -> bool, s: State, a: Action): State {
    match a
    case Callback(data) =>
      if s.rec.stream.Some? && s.rec.stream.value > 0 && s.live.Some? then
        var live := s.live.value;
        s.(rec := Heard(s.rec, data),
           live := Some(live.(captured := live.captured + Downmix(data, s.rec.stream.value))))
      else s
    case PollLock =>
      if s.poll.PIdle? && s.lock.Free? && s.isRecording then s.(lock := ByPoll, poll := PLocked) else s
    case PollDrain =>
      if s.poll.PLocked? then
        if s.rec.buffer == [] then s.(lock := Free, poll := PIdle)
        else s.(rec := Drained(s.rec), poll := PDrained(s.rec.buffer, s.rec.rate))
      else s
    case PollPush(room) =>
      if s.poll.PDrained? && s.params.Valid() then
        Pushed(s, AfterPush(s.params, s.det, s.poll.samples), room)
      else s
    case Press(src) =>
      if s.handler.HIdle? && s.lock.Free? then s.(handler := HChecked(src, s.isRecording)) else s
    case OpenDevice(rate, channels) =>
      if s.handler.HChecked? && !s.handler.sawRecording && channels > 0 && 50 <= rate && rate * 10000 < 0x1_0000_0000
      then s.(handler := HOpened(s.handler.src, channels), rec := Opened(s.rec, rate)) else s
    case OpenFails =>
      if (s.handler.HChecked? && !s.handler.sawRecording) || s.handler.HOpened? then s.(handler := HIdle) else s
    case PlayStream =>
      if s.handler.HOpened? then
        s.(handler := HStarted(s.handler.src, s.rec.rate), rec := Playing(s.rec, s.handler.channels),
           live := Some(Session(s.handler.src, s.rec.rate, [], |s.channel|, [], [])))
      else s
    case BeginSession =>
      if s.handler.HStarted? && s.lock.Free? then
        s.(handler := HIdle, det := EMPTY, params := ParamsFor(silent, s.handler.rate),
           isRecording := true, inApp := s.handler.src.InApp?)
      else s
    case StopLock =>
      if s.handler.HChecked? && s.handler.sawRecording && s.lock.Free? then
        if s.inApp != s.handler.src.InApp? then s.(handler := HIdle)
        else s.(lock := ByHandler, handler := HLocked(s.handler.src))
      else s
    case StopDrain =>
      if s.handler.HLocked?
      then s.(rec := Drained(s.rec), handler := HDrained(s.handler.src, s.rec.buffer, s.rec.rate)) else s
    case StopFlush =>
      if s.handler.HDrained? && s.params.Valid() && s.live.Some? then
        Released(s, AfterStop(s.params, s.det, s.handler.samples))
      else s
    case StopRecorder =>
      if s.handler.HReleased? && s.live.Some? then
        s.(rec := Stopped(s.rec), handler := HClosed(s.handler.src, s.handler.chunk, s.handler.rate),
           live := Some(s.live.value.(tail := s.rec.buffer)))
      else s
    case StopSend(room) =>
      if s.handler.HClosed? && s.live.Some? then
        SentLast(s, room)
      else s
  }

  function Run(silent: seq<real> -> bool, actions: seq<Action>): State {
    if actions == [] then Init(silent)
    else Do(silent, Run(silent, actions[..|actions| - 1]), actions[|actions| - 1])
  }

  // ------------------------------------------------------------ what is kept

  function Audio(sends: seq<Send>): seq<real> {
    if sends == [] then [] else Audio(sends[..|sends| - 1]) + sends[|sends| - 1].chunk
  }

  lemma AudioSnoc(channel: seq<Send>, from: nat, x: Send)
    requires from <= |channel|
    ensures Audio((channel + [x])[from..]) == Audio(channel[from..]) + x.chunk
  {
    var t := channel[from..];
    assert (channel + [x])[from..] == t + [x] && (t + [x])[..|t|] == t;
  }

  predicate Labelled(sends: seq<Send>, session: Session) {
    forall x :: x in sends ==> x.rate == session.rate && x.inApp == session.src.InApp?
  }

  /** Audio is discarded only when all of it holds too little speech for a chunk. */
  predicate TooShort(p: Params, data: seq<real>) {
    && |data| < p.maxSamples
    && forall c :: 0 <= c <= |data| && WholeFrames(p.frame, c) ==> LoudSamples(p, data, c) < p.minSpeech
  }

  /** The account of a finished session: every captured sample, in order, exactly once. */
  predicate Accounted(silent: seq<real> -> bool, channel: seq<Send>, e: Ended) {
    var s := e.session;
    && s.from <= e.to <= |channel|
    && s.captured == Audio(channel[s.from..e.to]) + s.discarded + s.tail
    && Labelled(channel[s.from..e.to], s)
    && (s.discarded != [] ==> TooShort(ParamsFor(silent, s.rate), s.discarded))
    && e.endedBy == s.src
  }

  function EndBefore(ended: seq<Ended>, i: nat): nat
    requires i <= |ended|
  {
    if i == 0 then 0 else ended[i - 1].to
  }

  /** Finished sessions divide the channel among them: none shares an item with another. */
  predicate Tiled(ended: seq<Ended>, channel: seq<Send>, upTo: nat) {
    && (forall i :: 0 <= i < |ended| ==> ended[i].session.from == EndBefore(ended, i))
    && upTo == EndBefore(ended, |ended|)
    && upTo <= |channel|
  }

  predicate Threads(s: State) {
    && (s.lock == ByPoll <==> !s.poll.PIdle?)
    && (s.lock == ByHandler <==> s.handler.HLocked? || s.handler.HDrained?)
    && (!s.poll.PIdle? ==> s.isRecording)
    && (s.handler.HChecked? ==> s.handler.sawRecording == s.isRecording)
    && (s.handler.HLocked? || s.handler.HDrained? ==> s.isRecording)
    && (s.handler.HOpened? || s.handler.HStarted? || s.handler.HReleased? || s.handler.HClosed? ==> !s.isRecording)
    && (s.live.Some? <==> s.isRecording || s.handler.HStarted? || s.handler.HReleased? || s.handler.HClosed?)
    && (s.rec.stream.Some? <==> s.live.Some? && !s.handler.HClosed?) && (s.rec.stream.Some? ==> s.rec.stream.value > 0)
    && (s.handler.HOpened? ==> s.handler.channels > 0)
    && (s.handler.HOpened? ==> 50 <= s.rec.rate && s.rec.rate * 10000 < 0x1_0000_0000)
  }

  /** Samples taken from the recorder but not yet pushed. */
  function InFlight(s: State): seq<real> {
    if s.poll.PDrained? then s.poll.samples
    else if s.handler.HDrained? then s.handler.samples
    else []
  }

  /** Audio of the live session that has left the recorder but not reached the channel. */
  function Held(s: State): seq<real> {
    if s.isRecording then s.det.buffer + InFlight(s)
    else if (s.handler.HReleased? || s.handler.HClosed?) && s.handler.chunk.Some? then s.handler.chunk.value
    else []
  }

  /** Where the audio captured so far is. */
  predicate AllAudio(channel: seq<Send>, held: seq<real>, l: Session, buffer: seq<real>)
    requires l.from <= |channel|
  {
    l.captured == Audio(channel[l.from..]) + held + l.discarded + l.tail + buffer
  }

  ghost predicate LiveSession(silent: seq<real> -> bool, s: State)
    requires s.live.Some?
  {
    var l := s.live.value;
    && l.from <= |s.channel| && Labelled(s.channel[l.from..], l)
    && 50 <= l.rate == s.rec.rate && l.rate * 10000 < 0x1_0000_0000
    && AllAudio(s.channel, Held(s), l, s.rec.buffer)
    && (!s.handler.HIdle? && !s.handler.HChecked? ==> s.handler.src == l.src)
    && (s.handler.HStarted? || s.handler.HDrained? || s.handler.HReleased? || s.handler.HClosed? ==>
        s.handler.rate == l.rate)
    && (s.poll.PDrained? ==> s.poll.rate == l.rate)
    && (s.isRecording ==>
          && s.inApp == l.src.InApp? && s.params == ParamsFor(silent, l.rate)
          && s.params.Valid() && Settled(s.params, s.det))
    && (s.isRecording || s.handler.HStarted? ==> l.discarded == [])
    && (!s.handler.HClosed? ==> l.tail == [])
    && (s.handler.HClosed? ==> s.rec.buffer == [])
    && ((s.handler.HReleased? || s.handler.HClosed?) && s.handler.chunk.Some? ==> l.discarded == [])
    && (l.discarded != [] ==> TooShort(ParamsFor(silent, l.rate), l.discarded))
  }

  ghost predicate Inv(silent: seq<real> -> bool, s: State) {
    && Threads(s)
    && (forall e :: e in s.ended ==> Accounted(silent, s.channel, e))
    && Tiled(s.ended, s.channel, if s.live.Some? then s.live.value.from else |s.channel|)
    && (if s.live.Some? then LiveSession(silent, s) else s.rec.buffer == [])
  }

  lemma ParamsForValid(silent: seq<real> -> bool, rate: nat)
    requires rate >= 50
    ensures ParamsFor(silent, rate).Valid() && Settled(ParamsFor(silent, rate), EMPTY)
  {
  }

  lemma ChannelGrows(silent: seq<real> -> bool, channel: seq<Send>, x: Send, e: Ended)
    requires Accounted(silent, channel, e)
    ensures Accounted(silent, channel + [x], e)
  {
    assert (channel + [x])[e.session.from..e.to] == channel[e.session.from..e.to];
  }

  /** What was held becomes the last item of the channel. */
  lemma HeldIsSent(channel: seq<Send>, x: Send, l: Session, buffer: seq<real>)
    requires l.from <= |channel| && AllAudio(channel, x.chunk, l, buffer)
    ensures AllAudio(channel + [x], [], l, buffer)
  {
    AudioSnoc(channel, l.from, x);
    var sent := Audio(channel[l.from..]);
    assert (sent + x.chunk) + [] == sent + x.chunk;
  }

  lemma LabelledGrows(channel: seq<Send>, x: Send, l: Session)
    requires l.from <= |channel| && Labelled(channel[l.from..], l) && x.rate == l.rate && x.inApp == l.src.InApp?
    ensures Labelled((channel + [x])[l.from..], l)
  {
    assert (channel + [x])[l.from..] == channel[l.from..] + [x];
  }

  lemma PushedKeeps(silent: seq<real> -> bool, s: State, o: Outcome, room: bool)
    requires Inv(silent, s) && s.poll.PDrained? && Settled(s.params, o.next)
    requires if o.chunk.Some? then o == Outcome(Some(s.det.buffer + s.poll.samples), EMPTY)
             else o.next.buffer == s.det.buffer + s.poll.samples
    ensures Inv(silent, Pushed(s, o, room))
  {
    var l := s.live.value;
    var all := s.det.buffer + s.poll.samples;
    assert all + [] == all && Held(s) == all && EMPTY.buffer + [] == [];
    if o.chunk.Some? {
      var x := Send(all, s.poll.rate, s.inApp, room);
      HeldIsSent(s.channel, x, l, s.rec.buffer);
      LabelledGrows(s.channel, x, l);
      forall e | e in s.ended ensures Accounted(silent, s.channel + [x], e) { ChannelGrows(silent, s.channel, x, e); }
    }
  }

  lemma PollPushKeeps(silent: seq<real> -> bool, s: State, room: bool)
    requires Inv(silent, s)
    ensures Inv(silent, Do(silent, s, PollPush(room)))
  {
    if s.poll.PDrained? && s.params.Valid() {
      PushIsExact(s.params, s.det, s.poll.samples);
      PushedKeeps(silent, s, AfterPush(s.params, s.det, s.poll.samples), room);
    }
  }

  lemma HeldIsDiscarded(channel: seq<Send>, held: seq<real>, l: Session, buffer: seq<real>)
    requires l.from <= |channel| && AllAudio(channel, held, l, buffer) && l.discarded == []
    ensures AllAudio(channel, [], l.(discarded := held), buffer)
  {
    assert Audio(channel[l.from..]) + held + [] == Audio(channel[l.from..]) + [] + held;
  }

  lemma ReleasedKeeps(silent: seq<real> -> bool, s: State, o: Outcome)
    requires Inv(silent, s) && s.handler.HDrained? && s.live.Some? && o.next == EMPTY
    requires var all := s.det.buffer + s.handler.samples;
             if o.chunk.Some? then o.chunk.value == all else TooShort(s.params, all)
    ensures Inv(silent, Released(s, o))
  {
    HeldIsDiscarded(s.channel, s.det.buffer + s.handler.samples, s.live.value, s.rec.buffer);
  }

  lemma StopFlushKeeps(silent: seq<real> -> bool, s: State)
    requires Inv(silent, s)
    ensures Inv(silent, Do(silent, s, StopFlush))
  {
    if s.handler.HDrained? && s.params.Valid() && s.live.Some? {
      StopIdiomEmpties(s.params, s.det, s.handler.samples);
      ReleasedKeeps(silent, s, AfterStop(s.params, s.det, s.handler.samples));
    }
  }

  lemma ClosedAccount(channel: seq<Send>, l: Session)
    requires l.from <= |channel| && AllAudio(channel, [], l, [])
    ensures l.captured == Audio(channel[l.from..|channel|]) + l.discarded + l.tail
  {
    assert channel[l.from..|channel|] == channel[l.from..];
    assert Audio(channel[l.from..]) + [] == Audio(channel[l.from..]);
  }

  lemma LastSessionAccounted(silent: seq<real> -> bool, s: State, room: bool)
    requires s.handler.HClosed? && s.live.Some? && LiveSession(silent, s) && !s.isRecording
    ensures var t := SentLast(s, room); Accounted(silent, t.channel, Ended(s.live.value, |t.channel|, s.handler.src))
  {
    var l, t := s.live.value, SentLast(s, room);
    if s.handler.chunk.Some? {
      var x := Send(s.handler.chunk.value, s.handler.rate, s.handler.src.InApp?, room);
      HeldIsSent(s.channel, x, l, []);
      LabelledGrows(s.channel, x, l);
    }
    ClosedAccount(t.channel, l);
    assert t.channel[l.from..|t.channel|] == t.channel[l.from..];
  }

  lemma EarlierStayAccounted(silent: seq<real> -> bool, s: State, room: bool)
    requires s.handler.HClosed? && s.live.Some? && forall e :: e in s.ended ==> Accounted(silent, s.channel, e)
    ensures forall e :: e in s.ended ==> Accounted(silent, SentLast(s, room).channel, e)
  {
    if s.handler.chunk.Some? {
      var x := Send(s.handler.chunk.value, s.handler.rate, s.handler.src.InApp?, room);
      forall e | e in s.ended ensures Accounted(silent, s.channel + [x], e) { ChannelGrows(silent, s.channel, x, e); }
    }
  }

  lemma StillTiled(ended: seq<Ended>, channel: seq<Send>, upTo: nat, e: Ended, channel': seq<Send>)
    requires Tiled(ended, channel, upTo) && e.session.from == upTo && e.to == |channel'|
    ensures Tiled(ended + [e], channel', |channel'|)
  {
    forall i | 0 <= i < |ended + [e]| ensures (ended + [e])[i].session.from == EndBefore(ended + [e], i) {
      assert EndBefore(ended + [e], i) == EndBefore(ended, i);
    }
  }

  lemma SentLastKeeps(silent: seq<real> -> bool, s: State, room: bool)
    requires Inv(silent, s) && s.handler.HClosed? && s.live.Some?
    ensures Inv(silent, SentLast(s, room))
  {
    var t := SentLast(s, room);
    LastSessionAccounted(silent, s, room);
    EarlierStayAccounted(silent, s, room);
    StillTiled(s.ended, s.channel, s.live.value.from, Ended(s.live.value, |t.channel|, s.handler.src), t.channel);
  }

  lemma StopSendKeeps(silent: seq<real> -> bool, s: State, room: bool)
    requires Inv(silent, s)
    ensures Inv(silent, Do(silent, s, StopSend(room)))
  {
    if s.handler.HClosed? && s.live.Some? {
      SentLastKeeps(silent, s, room);
      assert Do(silent, s, StopSend(room)) == SentLast(s, room);
    }
  }

  lemma MoreIsCaptured(channel: seq<Send>, held: seq<real>, l: Session, buffer: seq<real>, more: seq<real>)
    requires l.from <= |channel| && AllAudio(channel, held, l, buffer)
    ensures AllAudio(channel, held, l.(captured := l.captured + more), buffer + more)
  {
    Assoc(Audio(channel[l.from..]) + held + l.discarded + l.tail, buffer, more);
  }

  lemma CallbackKeeps(silent: seq<real> -> bool, s: State, data: seq<real>)
    requires Inv(silent, s)
    ensures Inv(silent, Do(silent, s, Callback(data)))
  {
    if s.rec.stream.Some? && s.rec.stream.value > 0 && s.live.Some? {
      MoreIsCaptured(s.channel, Held(s), s.live.value, s.rec.buffer, Downmix(data, s.rec.stream.value));
    }
  }

  lemma BufferIsHeld(channel: seq<Send>, held: seq<real>, l: Session, buffer: seq<real>)
    requires l.from <= |channel| && AllAudio(channel, held + [], l, buffer) && l.discarded == l.tail == []
    ensures AllAudio(channel, held + buffer, l, [])
  {
    var sent := Audio(channel[l.from..]);
    assert sent + (held + []) + [] + [] + buffer == sent + (held + buffer) + [] + [] + [];
  }

  lemma DrainKeeps(silent: seq<real> -> bool, s: State, a: Action)
    requires Inv(silent, s) && (a.PollDrain? || a.StopDrain?)
    ensures Inv(silent, Do(silent, s, a))
  {
    if s.live.Some? && Held(s) == s.det.buffer + [] && s.live.value.discarded == s.live.value.tail == [] {
      BufferIsHeld(s.channel, s.det.buffer, s.live.value, s.rec.buffer);
    }
  }

  lemma RecorderKeeps(silent: seq<real> -> bool, s: State)
    requires Inv(silent, s)
    ensures Inv(silent, Do(silent, s, StopRecorder))
  {
    if s.handler.HReleased? && s.live.Some? {
      var l := s.live.value;
      var sent := Audio(s.channel[l.from..]);
      assert sent + Held(s) + l.discarded + [] + s.rec.buffer == sent + Held(s) + l.discarded + s.rec.buffer + [];
    }
  }

  lemma PlayKeeps(silent: seq<real> -> bool, s: State)
    requires Inv(silent, s)
    ensures Inv(silent, Do(silent, s, PlayStream))
  {
    assert s.channel[|s.channel|..] == [];
  }

  lemma BeginKeeps(silent: seq<real> -> bool, s: State)
    requires Inv(silent, s)
    ensures Inv(silent, Do(silent, s, BeginSession))
  {
    if s.handler.HStarted? {
      ParamsForValid(silent, s.handler.rate);
    }
  }

  lemma ControlKeeps(silent: seq<real> -> bool, s: State, a: Action)
    requires Inv(silent, s)
    requires a.PollLock? || a.Press? || a.OpenDevice? || a.OpenFails? || a.StopLock?
    ensures Inv(silent, Do(silent, s, a))
  {
  }

  lemma StepKeeps(silent: seq<real> -> bool, s: State, a: Action)
    requires Inv(silent, s)
    ensures Inv(silent, Do(silent, s, a))
  {
    match a
    case Callback(data) => CallbackKeeps(silent, s, data);
    case PollPush(room) => PollPushKeeps(silent, s, room);
    case StopFlush => StopFlushKeeps(silent, s);
    case StopSend(room) => StopSendKeeps(silent, s, room);
    case PollDrain => DrainKeeps(silent, s, a);
    case StopDrain => DrainKeeps(silent, s, a);
    case StopRecorder => RecorderKeeps(silent, s);
    case PlayStream => PlayKeeps(silent, s);
    case BeginSession => BeginKeeps(silent, s);
    case _ => ControlKeeps(silent, s, a);
  }

  lemma {:induction false} EveryRunKeeps(silent: seq<real> -> bool, actions: seq<Action>)
    ensures Inv(silent, Run(silent, actions))
  {
    if actions != [] {
      EveryRunKeeps(silent, actions[..|actions| - 1]);
      StepKeeps(silent, Run(silent, actions[..|actions| - 1]), actions[|actions| - 1]);
    }
  }

  /**
   * In every interleaving, every finished session is accounted for sample by sample, the
   * sessions share no channel item, and between sessions nothing is left behind.
   */
  lemma EverySampleIsAccountedFor(silent: seq<real> -> bool, actions: seq<Action>)
    ensures var s := Run(silent, actions);
            && (forall e :: e in s.ended ==> Accounted(silent, s.channel, e))
            && Tiled(s.ended, s.channel, if s.live.Some? then s.live.value.from else |s.channel|)
            && (s.live.None? ==> s.rec.buffer == [] && !s.isRecording && InFlight(s) == [])
  {
    EveryRunKeeps(silent, actions);
  }

  /**
   * While a session is recording, what was captured so far is, in order, what was offered
   * to the worker, what the detector holds, what was drained but not pushed, and what is
   * still in the recorder.
   */
  lemma NothingLostMidSession(silent: seq<real> -> bool, actions: seq<Action>)
    ensures var s := Run(silent, actions);
            s.isRecording ==>
              && s.live.Some? && s.live.value.from <= |s.channel|
              && s.live.value.captured == Audio(s.channel[s.live.value.from..]) + s.det.buffer + InFlight(s) +
                  s.rec.buffer
              && Labelled(s.channel[s.live.value.from..], s.live.value)
  {
    EveryRunKeeps(silent, actions);
    var s := Run(silent, actions);
    if s.isRecording {
      var sent := Audio(s.channel[s.live.value.from..]);
      DropEmpties(sent + (s.det.buffer + InFlight(s)), s.rec.buffer);
      Assoc(sent, s.det.buffer, InFlight(s));
    }
  }
}
