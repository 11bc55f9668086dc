/**
 * What the commands of the meeting lifecycle achieve when no statement fails, and what is
 * left when one does.
 */
module MeetingProgress {
  import opened Prelude
  import opened VoiceDb
  import opened Meeting

  // ------------------------------------------------------------ starting and stopping

  /** `meeting_start` up to its end. */
  function Start(s: State, id: nat, title: string, now: int): State
    requires Enabled(s, StartBegin(id)) && id !in s.db.sessions
  {
    var t := Do(s, StartBegin(id));
    var u := Do(t, StartInsert(title, now, NoFault));
    Do(u, StartSet)
  }

  /** A start makes the new session the active one, and records it. */
  lemma StartRecords(s: State, id: nat, title: string, now: int)
    requires Inv(s) && s.guard == Free && s.active == None && id !in s.used
    ensures var t := Start(s, id, title, now);
            && t.active == Some(id) && t.guard == Free
            && t.db == s.db.(sessions := s.db.sessions[id := Session(title, Recording, now, None)])
            && t.threads == s.threads && t.deletes == s.deletes
  {
  }

  /** While a meeting is active, or a command holds the mutex, no other can start. */
  lemma OneAtATime(s: State, id: nat)
    requires s.active.Some? || s.guard != Free
    ensures !Enabled(s, StartBegin(id))
  {
  }

  /** A start whose insertion fails leaves nothing behind. */
  lemma FailedStartLeavesNothing(s: State, id: nat, title: string, now: int, fault: Fault)
    requires Enabled(s, StartBegin(id)) && fault != NoFault
    ensures Do(Do(s, StartBegin(id)), StartInsert(title, now, fault)) == s.(used := s.used + {id})
  {
  }

  /** `meeting_stop` up to its end. */
  function Stop(s: State, endedAt: int, duration: int): State
    requires Enabled(s, StopTake)
  {
    var t := Do(s, StopTake);
    var u := Do(t, StopFinish(endedAt, duration, NoFault));
    Do(u, StopSpawn)
  }

  /** A stop leaves no active meeting, its session processing, and a thread for it. */
  lemma StopProcesses(s: State, id: nat, endedAt: int, duration: int)
    requires Inv(s) && s.guard == Free && s.active == Some(id)
    ensures id in s.db.sessions
    ensures var t := Stop(s, endedAt, duration);
            && t.active == None && t.guard == Free && t.threads == s.threads[s.next := id]
            && t.db == s.db.(sessions := s.db.sessions[id :=
                         s.db.sessions[id].(status := Processing, ended := Some((endedAt, duration)))])
  {
  }

  /** A stop whose write fails leaves the session recording, with nothing working on it. */
  lemma FailedStopStrands(s: State, id: nat, endedAt: int, duration: int, fault: Fault)
    requires Inv(s) && s.guard == Free && s.active == Some(id) && fault != NoFault
    ensures var t := Do(Do(s, StopTake), StopFinish(endedAt, duration, fault));
            && t.active == None && t.guard == Free && t.db == s.db && t.threads == s.threads
            && id in t.stranded && id in t.db.sessions && t.db.sessions[id].status == Recording
  {
  }

  // ------------------------------------------------------------ transcribing

  /** What a thread inserts: segments of its session. */
  function Transcribe(s: State, thread: nat, segments: seq<Segment>): State
    requires thread in s.threads
  {
    if segments == [] then s
    else
      var t, x := Transcribe(s, thread, segments[..|segments| - 1]), segments[|segments| - 1];
      if thread in t.threads then Do(t, ThreadInsert(thread, x.id, x.text, x.startMs, x.endMs, NoFault)) else t
  }

  predicate FreshIds(t: Tables, segments: seq<Segment>) {
    && (forall i, j :: 0 <= i < j < |segments| ==> segments[i].id != segments[j].id)
    && forall i, x :: 0 <= i < |segments| && x in t.segments ==> x.id != segments[i].id
  }

  lemma EntriesAppend(a: seq<Segment>, x: Segment)
    ensures Entries(a + [x]) == Entries(a) + [Entry(x.session, x.text)]
  {
  }

  /**
   * Without faults, a thread's segments are all stored, in order and after what was there,
   * each with its full-text row, however many there are.
   */
  lemma {:induction false} TranscriptIsStored(s: State, thread: nat, segments: seq<Segment>)
    requires thread in s.threads && s.threads[thread] in s.db.sessions && FreshIds(s.db, segments)
    requires forall i :: 0 <= i < |segments| ==> segments[i].session == s.threads[thread]
    ensures Transcribe(s, thread, segments)
         == s.(db := s.db.(segments := s.db.segments + segments, fts := s.db.fts + Entries(segments)))
  {
    if segments == [] {
      assert s.db.segments + [] == s.db.segments && Entries([]) == [] && s.db.fts + [] == s.db.fts;
    } else {
      var init, x := segments[..|segments| - 1], segments[|segments| - 1];
      assert segments == init + [x];
      TranscriptIsStored(s, thread, init);
      var t := Transcribe(s, thread, init);
      NextIsStored(s.db, t.db, init, x);
      EntriesAppend(init, x);
      Assoc(s.db.segments, init, [x]);
      Assoc(s.db.fts, Entries(init), [Entry(x.session, x.text)]);
    }
  }

  lemma NextIsStored(s: Tables, t: Tables, init: seq<Segment>, x: Segment)
    requires x.session in s.sessions && t.sessions == s.sessions && t.segments == s.segments + init
    requires FreshIds(s, init + [x])
    ensures VoiceDb.Inserted(t, x, NoFault)
         == Ok(t.(segments := t.segments + [x], fts := t.fts + [Entry(x.session, x.text)]))
  {
    forall y | y in t.segments ensures y.id != x.id {
      assert (init + [x])[|init|] == x;
      if y !in s.segments {
        var i :| 0 <= i < |init| && init[i] == y;
        assert (init + [x])[i] == y;
      }
    }
    InsertsExactly(t, x, NoFault);
  }

  /** The end of a thread closes its session, and only that. */
  lemma ThreadCloses(s: State, thread: nat, success: bool)
    requires Inv(s) && thread in s.threads && s.threads[thread] in s.db.sessions
    ensures var t, id := Do(s, ThreadEnd(thread, success, NoFault)), s.threads[thread];
            && t.threads == s.threads - {thread}
            && t.db == s.db.(sessions := s.db.sessions[id :=
                         s.db.sessions[id].(status := if success then Complete else Error)])
  {
  }

  // ------------------------------------------------------------ deleting and notes

  /** A session that is not the active one is deleted with everything that belongs to it. */
  lemma DeleteDeletes(s: State, id: nat)
    requires Inv(s) && s.guard == Free && s.active != Some(id)
    ensures var t := Do(Do(s, DeleteCheck(id)), DeleteRun(s.next, NoFault));
            && t.db.sessions == s.db.sessions - {id} && id !in t.db.notes && id in t.deleted
            && (forall x :: x in t.db.segments <==> x in s.db.segments && x.session != id)
            && (forall e :: e in t.db.fts ==> e.session != id)
            && t.deletes == s.deletes && t.active == s.active && t.threads == s.threads
  {
    var u := Do(s, DeleteCheck(id));
    assert u.deletes == s.deletes[s.next := id] && s.next !in s.deletes;
    DeleteKeeps(u.db, id, NoFault);
    assert u.deletes - {s.next} == s.deletes;
  }

  /** The active session cannot be deleted. */
  lemma ActiveIsNotDeleted(s: State, id: nat)
    requires s.guard == Free && s.active == Some(id)
    ensures Do(s, DeleteCheck(id)) == s
  {
  }

  /** Notes are stored for a session that exists, and refused for one that does not. */
  lemma NotesAreStored(s: State, id: nat, text: string)
    ensures Do(s, SaveNotes(id, text, NoFault))
         == if id in s.db.sessions then s.(db := s.db.(notes := s.db.notes[id := text])) else s
  {
  }

  // ------------------------------------------------------------ a whole meeting

  /** The state in which a start from rest leaves the system. */
  function AfterStart(s: State, id: nat, title: string, now: int): State {
    s.(db := s.db.(sessions := s.db.sessions[id := Session(title, Recording, now, None)]),
       active := Some(id), used := s.used + {id})
  }

  /** The state after the stop. */
  function AfterStop(s: State, id: nat, title: string, now: int, endedAt: int, duration: int): State {
    s.(db := s.db.(sessions := s.db.sessions[id := Session(title, Processing, now, Some((endedAt, duration)))]),
       threads := s.threads[s.next := id], next := s.next + 1, used := s.used + {id})
  }

  lemma Overwritten(m: map<nat, Session>, id: nat, first: Session, last: Session)
    ensures m[id := first][id := last] == m[id := last]
  {
  }

  lemma MeetingStarts(s: State, id: nat, title: string, now: int)
    requires Inv(s) && s.guard == Free && s.active == None && id !in s.used
    ensures Start(s, id, title, now) == AfterStart(s, id, title, now)
    ensures Inv(AfterStart(s, id, title, now))
  {
    StartRecords(s, id, title, now);
    var t := Do(s, StartBegin(id));
    var u := Do(t, StartInsert(title, now, NoFault));
    StepKeeps(s, StartBegin(id));
    StepKeeps(t, StartInsert(title, now, NoFault));
    StepKeeps(u, StartSet);
  }

  lemma MeetingStops(s: State, id: nat, title: string, now: int, endedAt: int, duration: int)
    requires Inv(AfterStart(s, id, title, now)) && s.guard == Free && s.active == None
    ensures Stop(AfterStart(s, id, title, now), endedAt, duration)
         == AfterStop(s, id, title, now, endedAt, duration)
  {
    Overwritten(s.db.sessions, id, Session(title, Recording, now, None),
                Session(title, Processing, now, Some((endedAt, duration))));
  }

  lemma MeetingEnds(s: State, t: State, id: nat, title: string, now: int, endedAt: int, duration: int)
    requires s.next !in s.threads
    requires var b := AfterStop(s, id, title, now, endedAt, duration);
             t == b.(db := t.db) && t.db.sessions == b.db.sessions
    ensures s.next in t.threads
    ensures var d := Do(t, ThreadEnd(s.next, true, NoFault));
            && d.db == t.db.(sessions :=
                         s.db.sessions[id := Session(title, Complete, now, Some((endedAt, duration)))])
            && d.active == s.active && d.guard == s.guard && d.threads == s.threads
  {
    Overwritten(s.db.sessions, id, Session(title, Processing, now, Some((endedAt, duration))),
                Session(title, Complete, now, Some((endedAt, duration))));
    assert s.threads[s.next := id] - {s.next} == s.threads;
  }

  /** `start`, `stop`, the segments and the end of the thread, one after the other. */
  function Whole(s: State, id: nat, title: string, now: int, endedAt: int, duration: int, segments: seq<Segment>)
    : Option<State>
    requires Enabled(s, StartBegin(id)) && id !in s.db.sessions
  {
    var a := Start(s, id, title, now);
    if !Enabled(a, StopTake) then None
    else
      var b := Stop(a, endedAt, duration);
      if s.next !in b.threads then None
      else
        var c := Transcribe(b, s.next, segments);
        if s.next !in c.threads then None else Some(Do(c, ThreadEnd(s.next, true, NoFault)))
  }

  /**
   * From rest: start, stop, transcribe and end without faults, and the meeting is complete
   * in the store, with exactly its segments, its end and its duration, and nothing active.
   */
  lemma WholeMeeting(s: State, id: nat, title: string, now: int, endedAt: int, duration: int, segments: seq<Segment>)
    requires Inv(s) && s.guard == Free && s.active == None && id !in s.used && FreshIds(s.db, segments)
    requires forall i :: 0 <= i < |segments| ==> segments[i].session == id
    ensures var r := Whole(s, id, title, now, endedAt, duration, segments);
            && r.Some?
            && r.value.db == Tables(s.db.sessions[id := Session(title, Complete, now, Some((endedAt, duration)))],
                                    s.db.segments + segments, s.db.fts + Entries(segments), s.db.notes)
            && r.value.active == None && r.value.guard == Free && r.value.threads == s.threads
  {
    MeetingStarts(s, id, title, now);
    MeetingStops(s, id, title, now, endedAt, duration);
    var b := AfterStop(s, id, title, now, endedAt, duration);
    TranscriptIsStored(b, s.next, segments);
    MeetingEnds(s, Transcribe(b, s.next, segments), id, title, now, endedAt, duration);
  }
}
