/**
 * What the steps of the dictation protocol achieve: a start records, a poll tick moves what
 * the recorder holds, a stop ends the session and sends the rest, and a press of the other
 * source does nothing.
 */
module DictationProgress {
  import opened Prelude
  import opened SilenceDetector
  import opened Recorder
  import opened Dictation

  // ------------------------------------------------------------ callbacks

  /** Any number of callbacks. */
  function Callbacks(silent: seq<real> -> bool, s: State, datas: seq<seq<real>>): State {
    if datas == [] then s
    else Do(silent, Callbacks(silent, s, datas[..|datas| - 1]), Callback(datas[|datas| - 1]))
  }

  /** What the callbacks bring, mixed down. */
  function Brought(datas: seq<seq<real>>, channels: nat): seq<real>
    requires channels > 0
  {
    if datas == [] then [] else Brought(datas[..|datas| - 1], channels) + Downmix(datas[|datas| - 1], channels)
  }

  /** A stream is playing for a session. */
  predicate Hears(s: State) { s.live.Some? && s.rec.stream.Some? && s.rec.stream.value > 0 }

  /** Callbacks only fill the recorder, in order, and are what the session captures. */
  lemma {:induction false} CallbacksFillTheRecorder(silent: seq<real> -> bool, s: State, datas: seq<seq<real>>)
    requires Hears(s)
    ensures var more := Brought(datas, s.rec.stream.value);
            Callbacks(silent, s, datas)
            == s.(rec := s.rec.(buffer := s.rec.buffer + more),
                  live := Some(s.live.value.(captured := s.live.value.captured + more)))
  {
    if datas == [] {
      assert s.rec.buffer + [] == s.rec.buffer && s.live.value.captured + [] == s.live.value.captured;
    } else {
      var init, data := datas[..|datas| - 1], datas[|datas| - 1];
      var more, last := Brought(init, s.rec.stream.value), Downmix(data, s.rec.stream.value);
      CallbacksFillTheRecorder(silent, s, init);
      Assoc(s.rec.buffer, more, last);
      Assoc(s.live.value.captured, more, last);
    }
  }

  // ------------------------------------------------------------ a poll tick

  /** The tick after its lock is taken, with callbacks between draining and pushing. */
  function Tick(silent: seq<real> -> bool, s: State, datas: seq<seq<real>>, room: bool): State {
    Do(silent, Callbacks(silent, Do(silent, s, PollDrain), datas), PollPush(room))
  }

  /** The poll thread gets in just when it is idle, nobody is in, and a session records. */
  lemma TickBegins(silent: seq<real> -> bool, s: State)
    requires s.poll.PIdle? && s.lock.Free?
    ensures Do(silent, s, PollLock) == if s.isRecording then s.(lock := ByPoll, poll := PLocked) else s
  {
  }

  /** All that has left the recorder in this session: sent or dropped, or held by the detector. */
  function PassedOn(s: State): seq<real>
    requires s.live.Some? && s.live.value.from <= |s.channel|
  {
    Audio(s.channel[s.live.value.from..]) + s.det.buffer
  }

  predicate ReadyToTick(silent: seq<real> -> bool, s: State) {
    s.poll.PLocked? && s.live.Some? && s.live.value.from <= |s.channel|
  }

  lemma DrainTakesAll(silent: seq<real> -> bool, s: State)
    requires Inv(silent, s) && s.poll.PLocked?
    ensures Hears(s)
    ensures var t := Do(silent, s, PollDrain);
            t == if s.rec.buffer == [] then s.(lock := Lock.Free, poll := PIdle)
                 else s.(rec := s.rec.(buffer := []), poll := PDrained(s.rec.buffer, s.rec.rate))
  {
  }

  lemma PushPassesOn(silent: seq<real> -> bool, s: State, room: bool)
    requires s.poll.PDrained? && s.params.Valid() && Settled(s.params, s.det)
    requires s.live.Some? && s.live.value.from <= |s.channel|
    ensures var t := Do(silent, s, PollPush(room));
            && t.poll.PIdle? && t.lock.Free? && t.rec == s.rec && t.live == s.live && t.isRecording == s.isRecording
            && PassedOn(t) == PassedOn(s) + s.poll.samples
  {
    var all := s.det.buffer + s.poll.samples;
    PushIsExact(s.params, s.det, s.poll.samples);
    var o := AfterPush(s.params, s.det, s.poll.samples);
    var t := Do(silent, s, PollPush(room));
    assert t == Pushed(s, o, room);
    var sent := Audio(s.channel[s.live.value.from..]);
    Assoc(sent, s.det.buffer, s.poll.samples);
    if o.chunk.Some? {
      AudioSnoc(s.channel, s.live.value.from, Send(all, s.poll.rate, s.inApp, room));
      assert (sent + all) + [] == sent + all;
    }
  }

  /** The state after draining and the callbacks that follow. */
  lemma DrainedAndFilled(silent: seq<real> -> bool, s: State, datas: seq<seq<real>>)
    requires Inv(silent, s) && s.poll.PLocked?
    ensures Hears(s)
    ensures var e, more := Callbacks(silent, Do(silent, s, PollDrain), datas), Brought(datas, s.rec.stream.value);
            && e.rec.buffer == more && e.channel == s.channel && e.det == s.det && e.params == s.params
            && e.isRecording == s.isRecording && e.live.Some? && e.live.value.from == s.live.value.from
            && (if s.rec.buffer == [] then e.poll.PIdle? && e.lock.Free?
                else e.poll.PDrained? && e.poll.samples == s.rec.buffer)
  {
    DrainTakesAll(silent, s);
    CallbacksFillTheRecorder(silent, Do(silent, s, PollDrain), datas);
    var more := Brought(datas, s.rec.stream.value);
    assert [] + more == more;
  }

  /**
   * A tick moves exactly what the recorder held when the poll thread got in: it is added, in
   * order, to what was passed on; the recorder then holds exactly what callbacks brought
   * meanwhile; and the lock is free again.
   */
  lemma TickMovesTheAudio(silent: seq<real> -> bool, s: State, datas: seq<seq<real>>, room: bool)
    requires Inv(silent, s) && s.poll.PLocked?
    ensures Hears(s) && s.live.value.from <= |s.channel|
    ensures var t, b := Tick(silent, s, datas, room), s.rec.buffer;
            && t.poll.PIdle? && t.lock.Free? && t.isRecording == s.isRecording
            && t.live.Some? && t.live.value.from == s.live.value.from <= |t.channel|
            && PassedOn(t) == PassedOn(s) + b
            && t.rec.buffer == Brought(datas, s.rec.stream.value)
  {
    DrainedAndFilled(silent, s, datas);
    var e := Callbacks(silent, Do(silent, s, PollDrain), datas);
    if s.rec.buffer == [] {
      assert Tick(silent, s, datas, room) == e;
      assert PassedOn(s) + [] == PassedOn(s);
    } else {
      PushPassesOn(silent, e, room);
    }
  }

  /** And if an utterance ends in what the detector then has, this tick offers it to the worker. */
  lemma TickSendsUtterances(silent: seq<real> -> bool, s: State, datas: seq<seq<real>>, room: bool)
    requires Inv(silent, s) && s.poll.PLocked? && s.rec.buffer != []
    requires var all := s.det.buffer + s.rec.buffer;
             |all| >= s.params.maxSamples
             || exists e :: 0 < e <= |all| && WholeFrames(s.params.frame, e) && UtteranceEnd(s.params, all, e)
    ensures var t := Tick(silent, s, datas, room);
            && t.channel == s.channel + [Send(s.det.buffer + s.rec.buffer, s.live.value.rate, s.inApp, room)]
            && t.det == EMPTY
  {
    DrainTakesAll(silent, s);
    var d := Do(silent, s, PollDrain);
    CallbacksFillTheRecorder(silent, d, datas);
    PushIsExact(s.params, s.det, s.rec.buffer);
  }

  // ------------------------------------------------------------ starting

  /** `n` is the number of whole samples in so many milliseconds. */
  predicate Lasts(n: nat, rate: nat, ms: nat) { n * 1000 <= rate * ms < n * 1000 + 1000 }

  /**
   * What the limits of a session are in time: frames of 20 ms, an utterance ends after 300 ms
   * of silence with at least 300 ms of speech, and the buffer is full at ten seconds.
   */
  lemma LimitsInTime(silent: seq<real> -> bool, rate: nat)
    requires 50 <= rate && rate * 10000 < 0x1_0000_0000
    ensures var p := ParamsFor(silent, rate);
            && p.Valid() && p.silent == silent
            && Lasts(p.frame, rate, 20) && p.framesNeeded * 20 == 300
            && Lasts(p.minSpeech, rate, 300) && Lasts(p.maxSamples, rate, 10000)
  {
  }

  /** The whole start handler. */
  function Start(silent: seq<real> -> bool, s: State, src: Source, rate: nat, channels: nat): State {
    Do(silent, Do(silent, Do(silent, Do(silent, s, Press(src)), OpenDevice(rate, channels)), PlayStream), BeginSession)
  }

  /** From rest, pressing starts a session of that source, at the rate of the device. */
  lemma StartRecords(silent: seq<real> -> bool, s: State, src: Source, rate: nat, channels: nat)
    requires Inv(silent, s) && s.handler.HIdle? && s.lock.Free? && !s.isRecording
    requires 50 <= rate && rate * 10000 < 0x1_0000_0000 && channels > 0
    ensures var t := Start(silent, s, src, rate, channels);
            && t.isRecording && t.inApp == src.InApp? && t.handler.HIdle? && t.lock.Free?
            && t.rec == Rec([], rate, Some(channels)) && t.det == EMPTY && t.params == ParamsFor(silent, rate)
            && t.live == Some(Session(src, rate, [], |s.channel|, [], []))
            && t.channel == s.channel && t.ended == s.ended
  {
    var a := Do(silent, s, Press(src));
    assert a == s.(handler := HChecked(src, false)) && s.rec.buffer == [];
    var b := Do(silent, a, OpenDevice(rate, channels));
    assert b == a.(handler := HOpened(src, channels), rec := s.rec.(rate := rate));
  }

  /** When the device fails, before or after its rate is known, nothing is started. */
  lemma FailedStartRecordsNothing(silent: seq<real> -> bool, s: State, src: Source, rate: nat, channels: nat)
    requires Inv(silent, s) && s.handler.HIdle? && s.lock.Free? && !s.isRecording
    requires 50 <= rate && rate * 10000 < 0x1_0000_0000 && channels > 0
    ensures Do(silent, Do(silent, s, Press(src)), OpenFails) == s
    ensures var t := Do(silent, Do(silent, Do(silent, s, Press(src)), OpenDevice(rate, channels)), OpenFails);
            t == s.(rec := s.rec.(rate := rate))
  {
  }

  // ------------------------------------------------------------ stopping

  /** The stop handler up to where the dictation lock is released. */
  function StopLocked(silent: seq<real> -> bool, s: State, src: Source): State {
    Do(silent, Do(silent, Do(silent, Do(silent, s, Press(src)), StopLock), StopDrain), StopFlush)
  }

  predicate ReadyToStop(s: State, src: Source) {
    s.handler.HIdle? && s.lock.Free? && s.isRecording && s.inApp == src.InApp?
  }

  lemma StopDrainsAndFlushes(silent: seq<real> -> bool, s: State, src: Source)
    requires Inv(silent, s) && ReadyToStop(s, src)
    ensures s.live.Some? && s.params.Valid()
    ensures var o := AfterStop(s.params, s.det, s.rec.buffer);
            StopLocked(silent, s, src)
            == s.(rec := s.rec.(buffer := []), det := o.next, isRecording := false,
                  handler := HReleased(src, o.chunk, s.rec.rate),
                  live := Some(s.live.value.(discarded := if o.chunk.Some? then [] else s.det.buffer + s.rec.buffer)))
  {
    var a := Do(silent, s, Press(src));
    var b := Do(silent, a, StopLock);
    assert a == s.(handler := HChecked(src, true));
    assert b == s.(lock := ByHandler, handler := HLocked(src));
    assert Do(silent, b, StopDrain)
        == s.(lock := ByHandler, rec := s.rec.(buffer := []), handler := HDrained(src, s.rec.buffer, s.rec.rate));
  }

  /** The rest of the stop handler. */
  function StopReleased(silent: seq<real> -> bool, s: State, room: bool): State {
    Do(silent, Do(silent, s, StopRecorder), StopSend(room))
  }

  lemma ReleasedIsEnded(silent: seq<real> -> bool, u: State, room: bool)
    requires u.handler.HReleased? && u.live.Some?
    ensures var t, h := StopReleased(silent, u, room), u.handler;
            && t.rec == u.rec.(buffer := [], stream := None) && t.handler.HIdle? && t.live.None? && t.lock == u.lock
            && t.det == u.det && t.isRecording == u.isRecording
            && |t.ended| == |u.ended| + 1 && t.ended[..|u.ended|] == u.ended && t.ended[|u.ended|].endedBy == h.src
            && t.channel == if h.chunk.Some?
                            then u.channel + [Send(h.chunk.value, h.rate, h.src.InApp?, room)] else u.channel
  {
    var v := Do(silent, u, StopRecorder);
    assert v == u.(rec := Stopped(u.rec), handler := HClosed(u.handler.src, u.handler.chunk, u.handler.rate),
                   live := Some(u.live.value.(tail := u.rec.buffer)));
    assert Do(silent, v, StopSend(room)) == SentLast(v, room);
  }

  /**
   * A stop by the source that started the session ends it: everything the detector and the
   * recorder held is sent as one last chunk, waiting for room, unless it holds too little
   * speech; the stream is gone, the buffers are empty, and the session is on record.
   */
  lemma StopEndsTheSession(silent: seq<real> -> bool, s: State, src: Source, room: bool)
    requires Inv(silent, s) && ReadyToStop(s, src)
    ensures s.live.Some? && s.params.Valid()
    ensures var t, all := StopReleased(silent, StopLocked(silent, s, src), room), s.det.buffer + s.rec.buffer;
            && !t.isRecording && t.handler.HIdle? && t.lock.Free? && t.live.None? && t.det == EMPTY
            && t.rec == Rec([], s.rec.rate, None)
            && |t.ended| == |s.ended| + 1 && t.ended[..|s.ended|] == s.ended && t.ended[|s.ended|].endedBy == src
            && t.channel == (if AfterStop(s.params, s.det, s.rec.buffer).chunk.Some?
                             then s.channel + [Send(all, s.rec.rate, src.InApp?, room)] else s.channel)
            && (AfterStop(s.params, s.det, s.rec.buffer).chunk.None? ==> TooShort(s.params, all))
  {
    StopDrainsAndFlushes(silent, s, src);
    StopIdiomEmpties(s.params, s.det, s.rec.buffer);
    ReleasedIsEnded(silent, StopLocked(silent, s, src), room);
  }

  /** A press of the other source while a session records changes nothing. */
  lemma OtherSourceIsIgnored(silent: seq<real> -> bool, s: State, src: Source)
    requires s.handler.HIdle? && s.lock.Free? && s.isRecording && s.inApp != src.InApp?
    ensures Do(silent, Do(silent, s, Press(src)), StopLock) == s
  {
  }

  // ------------------------------------------------------------ what a session captured

  /** What the callbacks of a run brought since a stream was last started. */
  function BroughtIn(silent: seq<real> -> bool, actions: seq<Action>): seq<real> {
    if actions == [] then []
    else
      var init, a := actions[..|actions| - 1], actions[|actions| - 1];
      var s := Dictation.Run(silent, init);
      if a.Callback? && s.rec.stream.Some? && s.rec.stream.value > 0
      then BroughtIn(silent, init) + Downmix(a.data, s.rec.stream.value)
      else if a.PlayStream? && s.handler.HOpened? then []
      else BroughtIn(silent, init)
  }

  predicate CapturedIs(s: State, brought: seq<real>) { s.live.Some? ==> s.live.value.captured == brought }

  lemma StepCaptures(silent: seq<real> -> bool, s: State, a: Action, brought: seq<real>)
    requires Threads(s) && CapturedIs(s, brought)
    ensures CapturedIs(Do(silent, s, a),
              if a.Callback? && s.rec.stream.Some? && s.rec.stream.value > 0
              then brought + Downmix(a.data, s.rec.stream.value)
              else if a.PlayStream? && s.handler.HOpened? then [] else brought)
  {
  }

  /** In every run, a session has captured exactly what the callbacks of its stream brought. */
  lemma {:induction false} EveryCallbackIsCaptured(silent: seq<real> -> bool, actions: seq<Action>)
    ensures CapturedIs(Dictation.Run(silent, actions), BroughtIn(silent, actions))
  {
    if actions != [] {
      var init, a := actions[..|actions| - 1], actions[|actions| - 1];
      EveryCallbackIsCaptured(silent, init);
      EveryRunKeeps(silent, init);
      StepCaptures(silent, Dictation.Run(silent, init), a, BroughtIn(silent, init));
    }
  }
}
