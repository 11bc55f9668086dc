/**
 * The meeting lifecycle (src-tauri/src/meeting.rs:68-133, 164-185, 202-231, 277-287) as the
 * interleaved steps of the start, stop and delete commands, the transcription threads, and
 * restarts of the process.
 *
 * The mutex on the active meeting is held throughout a start or a stop (`Guard`), but only
 * for the check of a delete: the deletion itself runs later, without it.
 */
module Meeting {
  import opened Prelude
  import opened VoiceDb

  /** Who holds the mutex, and how far it got. */
  datatype Guard = Free | Starting(id: nat) | Inserted(id: nat) | Stopping(id: nat) | Stopped(id: nat)

  /**
   * `threads` and `deletes` map each transcription thread and each checked delete to its
   * session.  `used`, `deleted` and `stranded` are history: ids ever seen, ids deleted, and
   * sessions whose closing write failed or was cut off by a restart.
   */
  datatype State = State(
    db: Tables, active: Option<nat>, guard: Guard, threads: map<nat, nat>, deletes: map<nat, nat>, next: nat,
    used: set<nat>, deleted: set<nat>, stranded: set<nat>)

  const INIT := State(VoiceDb.EMPTY, None, Free, map[], map[], 0, {}, {}, {})

  datatype Action =
    | StartBegin(id: nat)
    | StartInsert(title: string, now: int, fault: Fault)
    | StartSet
    | StopTake
    | StopFinish(endedAt: int, duration: int, fault: Fault)
    | StopSpawn
    | DeleteCheck(id: nat)
    | DeleteRun(request: nat, fault: Fault)
    | ThreadInsert(thread: nat, segment: nat, text: string, startMs: int, endMs: int, fault: Fault)
    | ThreadEnd(thread: nat, success: bool, fault: Fault)
    | SaveNotes(id: nat, text: string, fault: Fault)
    | Restart(listed: seq<nat>, failing: set<nat>)

  /** A new session id is fresh: not in the store and not in any pending request. */
  predicate Enabled(s: State, a: Action) {
    match a
    case StartBegin(id) => s.guard == Free && s.active == None && id !in s.used
    case StartInsert(_, _, _) => s.guard.Starting?
    case StartSet => s.guard.Inserted?
    case StopTake => s.guard == Free && s.active.Some?
    case StopFinish(_, _, _) => s.guard.Stopping?
    case StopSpawn => s.guard.Stopped?
    case DeleteCheck(_) => s.guard == Free
    case DeleteRun(request, _) => request in s.deletes
    case ThreadInsert(thread, _, _, _, _, _) => thread in s.threads
    case ThreadEnd(thread, _, _) => thread in s.threads
    case SaveNotes(_, _, _) => true
    case Restart(listed, _) => Listing(s.db, listed)
  }

  // ------------------------------------------------------------ the commands

  function DoStart(s: State, a: Action): State
    requires (a.StartBegin? || a.StartInsert? || a.StartSet?) && Enabled(s, a)
  {
    match a
    case StartBegin(id) => s.(guard := Starting(id), used := s.used + {id})
    case StartInsert(title, now, fault) =>
      var r := Created(s.db, s.guard.id, title, now, fault);
      s.(db := Kept(s.db, r), guard := if r.Ok? then Inserted(s.guard.id) else Free)
    case StartSet => s.(active := Some(s.guard.id), guard := Free)
  }

  function DoStop(s: State, a: Action): State
    requires (a.StopTake? || a.StopFinish? || a.StopSpawn?) && Enabled(s, a)
  {
    match a
    case StopTake => s.(active := None, guard := Stopping(s.active.value))
    case StopFinish(endedAt, duration, fault) =>
      var r := Finished(s.db, s.guard.id, endedAt, duration, fault);
      s.(db := Kept(s.db, r),
         guard := if r.Ok? then Stopped(s.guard.id) else Free,
         stranded := if r.Ok? then s.stranded else s.stranded + {s.guard.id})
    case StopSpawn => s.(threads := s.threads[s.next := s.guard.id], next := s.next + 1, guard := Free)
  }

  /** `meeting_delete`: refused for the active session, otherwise executed later. */
  function DoDelete(s: State, a: Action): State
    requires (a.DeleteCheck? || a.DeleteRun?) && Enabled(s, a)
  {
    match a
    case DeleteCheck(id) =>
      if s.active == Some(id) then s
      else s.(deletes := s.deletes[s.next := id], next := s.next + 1, used := s.used + {id})
    case DeleteRun(request, fault) =>
      var r := Deleted(s.db, s.deletes[request], fault);
      s.(db := Kept(s.db, r), deletes := s.deletes - {request},
         deleted := if r.Ok? then s.deleted + {s.deletes[request]} else s.deleted)
  }

  /** `transcribe_meeting_audio`: any number of insertions, then one closing write. */
  function DoThread(s: State, a: Action): State
    requires (a.ThreadInsert? || a.ThreadEnd?) && Enabled(s, a)
  {
    match a
    case ThreadInsert(thread, segment, text, startMs, endMs, fault) =>
      s.(db := Kept(s.db, VoiceDb.Inserted(s.db, Segment(segment, s.threads[thread], text, startMs, endMs), fault)))
    case ThreadEnd(thread, success, fault) =>
      var id := s.threads[thread];
      var r := WithStatus(s.db, id, if success then Complete else Error, fault);
      s.(db := Kept(s.db, r), threads := s.threads - {thread},
         stranded := if r.Ok? then s.stranded else s.stranded + {id})
  }

  function UnfinishedIds(t: Tables): set<nat> { set id | id in t.sessions && Unfinished(t.sessions[id].status) }

  /** The process ends, anywhere, and the next one sweeps what it finds listed. */
  function DoRestart(s: State, listed: seq<nat>, failing: set<nat>): State {
    var db := Swept(s.db, listed, failing);
    s.(db := db, active := None, guard := Free, threads := map[], deletes := map[],
       stranded := s.stranded + UnfinishedIds(db))
  }

  function Do(s: State, a: Action): State
    requires Enabled(s, a)
  {
    if a.StartBegin? || a.StartInsert? || a.StartSet? then DoStart(s, a)
    else if a.StopTake? || a.StopFinish? || a.StopSpawn? then DoStop(s, a)
    else if a.DeleteCheck? || a.DeleteRun? then DoDelete(s, a)
    else if a.ThreadInsert? || a.ThreadEnd? then DoThread(s, a)
    else if a.SaveNotes? then s.(db := Kept(s.db, WithNotes(s.db, a.id, a.text, a.fault)))
    else DoRestart(s, a.listed, a.failing)
  }

  /** Steps that are not enabled do nothing. */
  function Run(actions: seq<Action>): State {
    if actions == [] then INIT
    else
      var s, a := Run(actions[..|actions| - 1]), actions[|actions| - 1];
      if Enabled(s, a) then Do(s, a) else s
  }

  // ------------------------------------------------------------ what every step keeps

  /** The session that is being started, recorded or stopped. */
  function Held(s: State): Option<nat> {
    if s.active.Some? then s.active else if s.guard.Free? then None else Some(s.guard.id)
  }

  predicate IdsOk(s: State) {
    && s.db.sessions.Keys <= s.used && s.deleted <= s.used
    && (forall k :: k in s.threads ==> k < s.next && s.threads[k] in s.used)
    && (forall k :: k in s.deletes ==> k < s.next && s.deletes[k] in s.used)
    && s.deleted !! s.db.sessions.Keys
  }

  /** The held session is nobody else's. */
  predicate HeldOk(s: State) {
    && (s.active.Some? ==> s.guard.Free?)
    && (Held(s).Some? ==>
          var h := Held(s).value;
          && h in s.used && h !in s.deleted
          && (forall k :: k in s.threads ==> s.threads[k] != h)
          && (forall k :: k in s.deletes ==> s.deletes[k] != h)
          && (if s.guard.Starting? then h !in s.db.sessions
              else h in s.db.sessions && s.db.sessions[h].status == if s.guard.Stopped? then Processing else Recording))
  }

  /** Each thread has its own session, which is processing for as long as it exists. */
  predicate ThreadsOk(s: State) {
    && (forall k, m :: k in s.threads && m in s.threads && k != m ==> s.threads[k] != s.threads[m])
    && forall k :: k in s.threads && s.threads[k] in s.db.sessions ==> s.db.sessions[s.threads[k]].status == Processing
  }

  predicate HasThread(s: State, id: nat) { exists k :: k in s.threads && s.threads[k] == id }

  /** Every unfinished session is worked on, or was stranded. */
  predicate WorkOk(s: State) {
    forall id :: id in s.db.sessions && Unfinished(s.db.sessions[id].status) ==>
      Held(s) == Some(id) || HasThread(s, id) || id in s.stranded
  }

  predicate Inv(s: State) { Consistent(s.db) && IdsOk(s) && HeldOk(s) && ThreadsOk(s) && WorkOk(s) }

  /**
   * The status changes that one step can make, and to which session: a stop turns recording
   * into processing, the end of a thread turns processing into complete or error, and a
   * restart turns what is unfinished into error.  Nothing else changes a status.
   */
  predicate Moves(s: State, a: Action, id: nat, before: Status, after: Status) {
    || before == after
    || (a.StopFinish? && s.guard == Stopping(id) && before == Recording && after == Processing)
    || (a.ThreadEnd? && a.thread in s.threads && s.threads[a.thread] == id && before == Processing
        && after == if a.success then Complete else Error)
    || (a.Restart? && id in a.listed && id !in a.failing && Unfinished(before) && after == Error)
  }

  /** A new row is the one being started, and is recording. */
  predicate Appears(s: State, a: Action, id: nat, status: Status) {
    a.StartInsert? && s.guard == Starting(id) && status == Recording
  }

  /** Statuses change only as allowed; ids that are used and gone stay away. */
  predicate Follows(s: State, a: Action, t: State) {
    && s.used <= t.used && s.deleted <= t.deleted
    && (forall id :: id in s.db.sessions && id in t.db.sessions ==>
          Moves(s, a, id, s.db.sessions[id].status, t.db.sessions[id].status))
    && (forall id :: id in t.db.sessions && id !in s.db.sessions ==> Appears(s, a, id, t.db.sessions[id].status))
    && (forall id :: t.guard == Starting(id) && s.guard != Starting(id) ==> id !in s.used)
  }

  lemma StartKeeps(s: State, a: Action)
    requires Inv(s) && (a.StartBegin? || a.StartInsert? || a.StartSet?) && Enabled(s, a)
    ensures Inv(DoStart(s, a)) && Follows(s, a, DoStart(s, a))
  {
    if a.StartInsert? {
      OthersKeep(s.db, s.guard.id, a.title, "", Recording, a.now, 0, a.fault);
    }
  }

  lemma FinishKeeps(s: State, a: Action)
    requires Inv(s) && (a.StopTake? || a.StopFinish?) && Enabled(s, a)
    ensures Inv(DoStop(s, a)) && Follows(s, a, DoStop(s, a))
  {
    if a.StopFinish? {
      OthersKeep(s.db, s.guard.id, "", "", Recording, a.endedAt, a.duration, a.fault);
    }
  }

  lemma SpawnKeeps(s: State, a: Action)
    requires Inv(s) && a.StopSpawn? && Enabled(s, a)
    ensures Inv(DoStop(s, a)) && Follows(s, a, DoStop(s, a))
  {
    var t := DoStop(s, a);
    assert t.threads[s.next] == s.guard.id;
    forall k | k in s.threads ensures HasThread(t, s.threads[k]) { assert t.threads[k] == s.threads[k]; }
  }

  lemma CheckKeeps(s: State, a: Action)
    requires Inv(s) && a.DeleteCheck? && Enabled(s, a)
    ensures Inv(DoDelete(s, a)) && Follows(s, a, DoDelete(s, a))
  {
  }

  lemma DeletionKeeps(s: State, a: Action)
    requires Inv(s) && a.DeleteRun? && Enabled(s, a)
    ensures Inv(DoDelete(s, a)) && Follows(s, a, DoDelete(s, a))
  {
    DeleteKeeps(s.db, s.deletes[a.request], a.fault);
  }

  lemma InsertionKeeps(s: State, a: Action)
    requires Inv(s) && a.ThreadInsert? && Enabled(s, a)
    ensures Inv(DoThread(s, a)) && Follows(s, a, DoThread(s, a))
  {
    InsertKeeps(s.db, Segment(a.segment, s.threads[a.thread], a.text, a.startMs, a.endMs), a.fault);
  }

  lemma EndingKeepsWork(s: State, a: Action)
    requires Inv(s) && a.ThreadEnd? && Enabled(s, a)
    ensures WorkOk(DoThread(s, a))
  {
    var id, t := s.threads[a.thread], DoThread(s, a);
    forall x | HasThread(s, x) && x != id ensures HasThread(t, x) {
      var k :| k in s.threads && s.threads[k] == x;
      assert t.threads[k] == x;
    }
  }

  lemma EndingKeepsThreads(s: State, a: Action)
    requires Inv(s) && a.ThreadEnd? && Enabled(s, a)
    ensures ThreadsOk(DoThread(s, a))
  {
  }

  lemma EndingKeepsIds(s: State, a: Action)
    requires Inv(s) && a.ThreadEnd? && Enabled(s, a)
    ensures IdsOk(DoThread(s, a)) && HeldOk(DoThread(s, a))
  {
  }

  lemma EndingFollows(s: State, a: Action)
    requires Inv(s) && a.ThreadEnd? && Enabled(s, a)
    ensures Follows(s, a, DoThread(s, a))
  {
  }

  lemma EndingKeeps(s: State, a: Action)
    requires Inv(s) && a.ThreadEnd? && Enabled(s, a)
    ensures Inv(DoThread(s, a)) && Follows(s, a, DoThread(s, a))
  {
    OthersKeep(s.db, s.threads[a.thread], "", "", if a.success then Complete else Error, 0, 0, a.fault);
    EndingKeepsWork(s, a);
    EndingKeepsThreads(s, a);
    EndingKeepsIds(s, a);
    EndingFollows(s, a);
  }

  lemma RestartKeeps(s: State, listed: seq<nat>, failing: set<nat>)
    requires Inv(s) && Listing(s.db, listed)
    ensures Inv(DoRestart(s, listed, failing)) && Follows(s, Restart(listed, failing), DoRestart(s, listed, failing))
  {
    SweepIsExact(s.db, listed, failing);
  }

  lemma NotesKeep(s: State, a: Action)
    requires Inv(s) && a.SaveNotes?
    ensures Inv(Do(s, a)) && Follows(s, a, Do(s, a))
  {
    OthersKeep(s.db, a.id, "", a.text, Recording, 0, 0, a.fault);
  }

  lemma StepKeeps(s: State, a: Action)
    requires Inv(s) && Enabled(s, a)
    ensures Inv(Do(s, a)) && Follows(s, a, Do(s, a))
  {
    if a.StartBegin? || a.StartInsert? || a.StartSet? { StartKeeps(s, a); }
    else if a.StopTake? || a.StopFinish? { FinishKeeps(s, a); }
    else if a.StopSpawn? { SpawnKeeps(s, a); }
    else if a.DeleteCheck? { CheckKeeps(s, a); }
    else if a.DeleteRun? { DeletionKeeps(s, a); }
    else if a.ThreadInsert? { InsertionKeeps(s, a); }
    else if a.ThreadEnd? { EndingKeeps(s, a); }
    else if a.SaveNotes? { NotesKeep(s, a); }
    else { RestartKeeps(s, a.listed, a.failing); }
  }

  // ------------------------------------------------------------ whole runs

  lemma {:induction false} EveryRunKeeps(actions: seq<Action>)
    ensures Inv(Run(actions))
  {
    if actions != [] {
      var s, a := Run(actions[..|actions| - 1]), actions[|actions| - 1];
      EveryRunKeeps(actions[..|actions| - 1]);
      if Enabled(s, a) {
        StepKeeps(s, a);
      }
    }
  }

  /** In every reachable state the full-text index is that of the segments, and no row is orphaned. */
  lemma SearchIndexInStep(actions: seq<Action>)
    ensures var t := Run(actions).db;
            && multiset(t.fts) == multiset(Entries(t.segments))
            && (forall x :: x in t.segments ==> x.session in t.sessions)
            && (forall e :: e in t.fts ==> e.session in t.sessions)
            && t.notes.Keys <= t.sessions.Keys
  {
    EveryRunKeeps(actions);
    var t := Run(actions).db;
    forall x | x in t.segments ensures x.session in t.sessions {
      var i :| 0 <= i < |t.segments| && t.segments[i] == x;
    }
  }

  /** The one active meeting has its row, in status recording, and nothing else works on it. */
  lemma ActiveIsRecording(actions: seq<Action>)
    ensures var s := Run(actions);
            s.active.Some? ==>
              && s.active.value in s.db.sessions && s.db.sessions[s.active.value].status == Recording
              && !HasThread(s, s.active.value) && s.active.value !in s.deletes.Values
  {
    EveryRunKeeps(actions);
  }

  /** A session that is neither complete nor in error is worked on, or was stranded. */
  lemma UnfinishedIsWorkedOn(actions: seq<Action>, id: nat)
    requires id in Run(actions).db.sessions && Unfinished(Run(actions).db.sessions[id].status)
    ensures Held(Run(actions)) == Some(id) || HasThread(Run(actions), id) || id in Run(actions).stranded
  {
    EveryRunKeeps(actions);
  }

  /** What several moves can make of a status. */
  predicate Forward(before: Status, after: Status) {
    match before
    case Recording => true
    case Processing => after != Recording
    case Complete => after == Complete
    case Error => after == Error
  }

  /**
   * Later in the run: `id` either has a status reached by moving forward, or is gone; and
   * once gone, it never comes back.
   */
  predicate Later(s: State, t: State, id: nat) {
    && (id in s.deleted ==> id in t.deleted)
    && (Present(s, id) ==> Present(t, id) || Gone(t, id))
    && (Present(s, id) && Present(t, id) ==> Forward(s.db.sessions[id].status, t.db.sessions[id].status))
    && (Gone(s, id) ==> Gone(t, id))
  }

  predicate Present(s: State, id: nat) { id in s.db.sessions }

  predicate Gone(s: State, id: nat) { id in s.used && id !in s.db.sessions && s.guard != Starting(id) }

  lemma FollowingIsLater(s: State, a: Action, t: State, id: nat)
    requires IdsOk(s) && HeldOk(s) && HeldOk(t) && Follows(s, a, t)
    ensures Later(s, t, id)
  {
  }

  lemma StepIsLater(s: State, a: Action, id: nat)
    requires Inv(s) && Enabled(s, a)
    ensures Later(s, Do(s, a), id)
  {
    StepKeeps(s, a);
    FollowingIsLater(s, a, Do(s, a), id);
  }

  lemma LaterTransitive(s: State, t: State, u: State, id: nat)
    requires Later(s, t, id) && Later(t, u, id)
    ensures Later(s, u, id)
  {
  }

  lemma {:induction false} HistoryOnlyMovesForward(actions: seq<Action>, more: seq<Action>, id: nat)
    ensures Later(Run(actions), Run(actions + more), id)
    decreases |more|
  {
    if more == [] {
      assert actions + more == actions;
    } else {
      var init, a := more[..|more| - 1], more[|more| - 1];
      assert (actions + more)[..|actions + more| - 1] == actions + init;
      HistoryOnlyMovesForward(actions, init, id);
      EveryRunKeeps(actions + init);
      if Enabled(Run(actions + init), a) {
        StepIsLater(Run(actions + init), a, id);
        LaterTransitive(Run(actions), Run(actions + init), Run(actions + more), id);
      }
    }
  }

  /** After the first `n` actions, session `id` had this status. */
  predicate Was(actions: seq<Action>, n: nat, id: nat, status: Status) {
    n <= |actions| && Present(Run(actions[..n]), id) && Run(actions[..n]).db.sessions[id].status == status
  }

  lemma WasEarlier(actions: seq<Action>, n: nat, id: nat, status: Status)
    requires actions != [] && Was(actions[..|actions| - 1], n, id, status)
    ensures Was(actions, n, id, status) && n < |actions|
  {
    assert actions[..|actions| - 1][..n] == actions[..n];
  }

  /** The session was recording, and later processing, after earlier parts of the run. */
  ghost predicate WasProcessed(actions: seq<Action>, id: nat) {
    exists i: nat, j: nat :: i < j && Was(actions, i, id, Recording) && Was(actions, j, id, Processing)
  }

  ghost predicate WasRecorded(actions: seq<Action>, id: nat) { exists i: nat :: Was(actions, i, id, Recording) }

  lemma EarlierIsKept(actions: seq<Action>, id: nat)
    requires actions != []
    ensures WasRecorded(actions[..|actions| - 1], id) ==> WasRecorded(actions, id)
    ensures WasProcessed(actions[..|actions| - 1], id) ==> WasProcessed(actions, id)
  {
    var init := actions[..|actions| - 1];
    if WasRecorded(init, id) {
      var i: nat :| Was(init, i, id, Recording);
      WasEarlier(actions, i, id, Recording);
    }
    if WasProcessed(init, id) {
      var i: nat, j: nat :| i < j && Was(init, i, id, Recording) && Was(init, j, id, Processing);
      WasEarlier(actions, i, id, Recording);
      WasEarlier(actions, j, id, Processing);
    }
  }

  /** A session that has just become processing was recording before. */
  lemma NowProcessing(actions: seq<Action>, id: nat)
    requires actions != [] && WasRecorded(actions[..|actions| - 1], id)
    requires Present(Run(actions), id) && Run(actions).db.sessions[id].status == Processing
    ensures WasProcessed(actions, id)
  {
    var i: nat :| Was(actions[..|actions| - 1], i, id, Recording);
    WasEarlier(actions, i, id, Recording);
    assert actions[..|actions|] == actions;
    assert Was(actions, |actions|, id, Processing);
  }

  /**
   * No status is skipped: every session was recording first, and one that is processing or
   * complete was recording and then processing, in this order.
   */
  lemma {:induction false} NoStatusIsSkipped(actions: seq<Action>, id: nat)
    requires Present(Run(actions), id)
    ensures WasRecorded(actions, id)
    ensures Run(actions).db.sessions[id].status in {Processing, Complete} ==> WasProcessed(actions, id)
  {
    if actions != [] {
      var init, a := actions[..|actions| - 1], actions[|actions| - 1];
      var s, t := Run(init), Run(actions);
      EveryRunKeeps(init);
      if Enabled(s, a) {
        StepKeeps(s, a);
      }
      if Present(s, id) {
        NoStatusIsSkipped(init, id);
        EarlierIsKept(actions, id);
        if t.db.sessions[id].status == Processing {
          NowProcessing(actions, id);
        }
      } else {
        assert actions[..|actions|] == actions;
        assert Was(actions, |actions|, id, Recording);
      }
    }
  }

  /** Complete and error are final, and a deleted session never reappears. */
  lemma FinalStaysAndDeletedStaysAway(actions: seq<Action>, more: seq<Action>, id: nat)
    ensures var s, t := Run(actions), Run(actions + more);
            && (Present(s, id) && !Unfinished(s.db.sessions[id].status) && Present(t, id) ==>
                  t.db.sessions[id].status == s.db.sessions[id].status)
            && (id in s.deleted ==> !Present(t, id))
  {
    HistoryOnlyMovesForward(actions, more, id);
    EveryRunKeeps(actions + more);
  }

  /** A thread whose session was deleted writes nothing any more. */
  lemma LateThreadWritesNothing(s: State, a: Action)
    requires (a.ThreadInsert? || a.ThreadEnd?) && Enabled(s, a) && !Present(s, s.threads[a.thread])
    ensures DoThread(s, a).db == s.db
  {
  }
}
