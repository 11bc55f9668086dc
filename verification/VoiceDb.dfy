/**
 * The meeting store (src-tauri/src/voice_db.rs:88-234, src-tauri/src/lib.rs:583-594).
 *
 * SQLite is modelled by what the code relies on: foreign keys are enforced and cascade,
 * a statement either takes effect or fails, and a transaction that fails anywhere leaves
 * the tables as they were.  Ids are numbers.
 */
module VoiceDb {
  import opened Prelude

  datatype Status = Recording | Processing | Complete | Error

  datatype Session = Session(title: string, status: Status, startedAt: int, ended: Option<(int, int)>)

  datatype Segment = Segment(id: nat, session: nat, text: string, startMs: int, endMs: int)

  datatype Entry = Entry(session: nat, text: string)

  /** `voice_sessions`, `transcript_segments`, `voice_fts` and `session_notes`. */
  datatype Tables = Tables(
    sessions: map<nat, Session>, segments: seq<Segment>, fts: seq<Entry>, notes: map<nat, string>)

  /** The statement of a call that fails, if any. */
  datatype Fault = NoFault | AtBegin | AtFirst | AtSecond | AtCommit

  datatype DbError = Failed(at: Fault) | DuplicateKey | ForeignKey

  const EMPTY := Tables(map[], [], [], map[])

  // ------------------------------------------------------------ operations on values

  function WithoutSegments(segments: seq<Segment>, session: nat): seq<Segment> {
    if segments == [] then []
    else
      var last := segments[|segments| - 1];
      WithoutSegments(segments[..|segments| - 1], session) + if last.session == session then [] else [last]
  }

  function WithoutEntries(fts: seq<Entry>, session: nat): seq<Entry> {
    if fts == [] then []
    else
      var last := fts[|fts| - 1];
      WithoutEntries(fts[..|fts| - 1], session) + if last.session == session then [] else [last]
  }

  /** `create_session`. */
  function Created(t: Tables, id: nat, title: string, now: int, fault: Fault): Result<Tables, DbError> {
    if fault != NoFault then Err(Failed(fault))
    else if id in t.sessions then Err(DuplicateKey)
    else Ok(t.(sessions := t.sessions[id := Session(title, Recording, now, None)]))
  }

  /** The schema's ON DELETE CASCADE: child rows go with the session row. */
  function Cascaded(t: Tables, id: nat): Tables {
    if id !in t.sessions then t
    else t.(sessions := t.sessions - {id}, segments := WithoutSegments(t.segments, id), notes := t.notes - {id})
  }

  /** `delete_session`: one transaction over the full-text rows and the session row. */
  function Deleted(t: Tables, id: nat, fault: Fault): Result<Tables, DbError> {
    if fault != NoFault then Err(Failed(fault))
    else Ok(Cascaded(t.(fts := WithoutEntries(t.fts, id)), id))
  }

  /** `update_session_status`; an absent row is not an error. */
  function WithStatus(t: Tables, id: nat, status: Status, fault: Fault): Result<Tables, DbError> {
    if fault != NoFault then Err(Failed(fault))
    else Ok(if id in t.sessions then t.(sessions := t.sessions[id := t.sessions[id].(status := status)]) else t)
  }

  /** `finish_session`. */
  function Finished(t: Tables, id: nat, endedAt: int, duration: int, fault: Fault): Result<Tables, DbError> {
    if fault != NoFault then Err(Failed(fault))
    else Ok(if id in t.sessions
            then
              var row := t.sessions[id].(status := Processing, ended := Some((endedAt, duration)));
              t.(sessions := t.sessions[id := row])
            else t)
  }

  /** `insert_segment`: one transaction over the segment row and its full-text row. */
  function Inserted(t: Tables, segment: Segment, fault: Fault): Result<Tables, DbError> {
    if fault == AtBegin || fault == AtFirst then Err(Failed(fault))
    else if exists i :: 0 <= i < |t.segments| && t.segments[i].id == segment.id then Err(DuplicateKey)
    else if segment.session !in t.sessions then Err(ForeignKey)
    else if fault != NoFault then Err(Failed(fault))
    else Ok(t.(segments := t.segments + [segment], fts := t.fts + [Entry(segment.session, segment.text)]))
  }

  /** `upsert_notes`. */
  function WithNotes(t: Tables, session: nat, notes: string, fault: Fault): Result<Tables, DbError> {
    if fault != NoFault then Err(Failed(fault))
    else if session !in t.sessions then Err(ForeignKey)
    else Ok(t.(notes := t.notes[session := notes]))
  }

  function Kept(t: Tables, r: Result<Tables, DbError>): Tables { if r.Ok? then r.value else t }

  // ------------------------------------------------------------ consistency

  function Entries(segments: seq<Segment>): seq<Entry> {
    seq(|segments|, i requires 0 <= i < |segments| => Entry(segments[i].session, segments[i].text))
  }

  /** The full-text rows are those of the segments, and every child row has its session. */
  predicate Consistent(t: Tables) {
    && t.fts == Entries(t.segments)
    && (forall i :: 0 <= i < |t.segments| ==> t.segments[i].session in t.sessions)
    && t.notes.Keys <= t.sessions.Keys
  }

  lemma {:induction false} DeletingCommutes(segments: seq<Segment>, session: nat)
    ensures WithoutEntries(Entries(segments), session) == Entries(WithoutSegments(segments, session))
    ensures forall x :: x in WithoutSegments(segments, session) <==> x in segments && x.session != session
  {
    if segments != [] {
      var init, last := segments[..|segments| - 1], segments[|segments| - 1];
      assert segments == init + [last];
      DeletingCommutes(init, session);
      assert Entries(segments) == Entries(init) + [Entry(last.session, last.text)];
      assert Entries(WithoutSegments(init, session) + [last])
          == Entries(WithoutSegments(init, session)) + [Entry(last.session, last.text)];
    }
  }

  lemma {:induction false} NothingToDelete(segments: seq<Segment>, session: nat)
    requires forall x :: x in segments ==> x.session != session
    ensures WithoutSegments(segments, session) == segments
  {
    if segments != [] {
      var init, last := segments[..|segments| - 1], segments[|segments| - 1];
      assert last in segments && forall x :: x in init ==> x in segments;
      NothingToDelete(init, session);
      assert segments == init + [last];
    }
  }

  /** In a consistent store, deleting removes the rows of the session from all four tables. */
  lemma DeletedIs(t: Tables, id: nat)
    requires Consistent(t)
    ensures var left := WithoutSegments(t.segments, id);
            Deleted(t, id, NoFault) == Ok(Tables(t.sessions - {id}, left, Entries(left), t.notes - {id}))
  {
    DeletingCommutes(t.segments, id);
    if id !in t.sessions {
      NothingToDelete(t.segments, id);
      assert t.sessions - {id} == t.sessions && t.notes - {id} == t.notes;
    }
  }

  lemma LeftoversConsistent(t: Tables, id: nat, left: seq<Segment>)
    requires Consistent(t) && forall x :: x in left <==> x in t.segments && x.session != id
    ensures Consistent(Tables(t.sessions - {id}, left, Entries(left), t.notes - {id}))
    ensures forall e :: e in Entries(left) ==> e.session != id
  {
    forall i | 0 <= i < |left| ensures left[i].session in t.sessions - {id} {
      assert left[i] in left;
    }
  }

  /** Deleting keeps consistency, and leaves no row of the session in any table. */
  lemma DeleteKeeps(t: Tables, id: nat, fault: Fault)
    requires Consistent(t)
    ensures var u := Kept(t, Deleted(t, id, fault));
            && Consistent(u)
            && (fault == NoFault ==>
                  && u.sessions == t.sessions - {id} && id !in u.notes
                  && (forall x :: x in u.segments <==> x in t.segments && x.session != id)
                  && (forall e :: e in u.fts ==> e.session != id))
            && (fault != NoFault ==> u == t)
  {
    DeletedIs(t, id);
    DeletingCommutes(t.segments, id);
    LeftoversConsistent(t, id, WithoutSegments(t.segments, id));
  }

  /** Inserting adds one row to both tables or to neither. */
  lemma InsertKeeps(t: Tables, segment: Segment, fault: Fault)
    requires Consistent(t)
    ensures var u := Kept(t, Inserted(t, segment, fault));
            && Consistent(u) && u.sessions == t.sessions
            && multiset(u.fts) == multiset(Entries(u.segments))
            && (u == t || (u.segments == t.segments + [segment] && segment.session in t.sessions))
  {
    assert Entries(t.segments + [segment]) == Entries(t.segments) + [Entry(segment.session, segment.text)];
  }

  /**
   * Exactly when a segment is stored: no statement fails, no stored segment has its id, and
   * its session exists.  Then it and its full-text row come last; otherwise nothing changes.
   */
  lemma InsertsExactly(t: Tables, segment: Segment, fault: Fault)
    ensures var r := Inserted(t, segment, fault);
            && (r.Ok? <==> && fault == NoFault && segment.session in t.sessions
                           && forall x :: x in t.segments ==> x.id != segment.id)
            && Kept(t, r) == if r.Ok?
                             then Tables(t.sessions, t.segments + [segment],
                                         t.fts + [Entry(segment.session, segment.text)], t.notes)
                             else t
  {
    if forall x :: x in t.segments ==> x.id != segment.id {
      assert forall i :: 0 <= i < |t.segments| ==> t.segments[i] in t.segments;
    } else {
      var x :| x in t.segments && x.id == segment.id;
      var i :| 0 <= i < |t.segments| && t.segments[i] == x;
    }
  }

  /** What the other writes do to each row, and when they fail. */
  lemma WritesExactly(t: Tables, id: nat, title: string, notes: string, status: Status, a: int, b: int, fault: Fault)
    ensures Created(t, id, title, a, fault).Ok? <==> fault == NoFault && id !in t.sessions
    ensures Created(t, id, title, a, fault).Ok? ==>
              var u := Created(t, id, title, a, fault).value;
              && u == t.(sessions := u.sessions) && u.sessions.Keys == t.sessions.Keys + {id}
              && u.sessions[id] == Session(title, Recording, a, None)
              && forall x :: x in t.sessions ==> u.sessions[x] == t.sessions[x]
    ensures WithStatus(t, id, status, fault).Ok? <==> fault == NoFault
    ensures Finished(t, id, a, b, fault).Ok? <==> fault == NoFault
    ensures fault == NoFault ==>
              var u, v := WithStatus(t, id, status, fault).value, Finished(t, id, a, b, fault).value;
              && u == t.(sessions := u.sessions) && u.sessions.Keys == t.sessions.Keys
              && v == t.(sessions := v.sessions) && v.sessions.Keys == t.sessions.Keys
              && forall x :: x in t.sessions ==>
                   var row := t.sessions[x];
                   && u.sessions[x] == row.(status := if x == id then status else row.status)
                   && v.sessions[x] == Session(row.title, if x == id then Processing else row.status, row.startedAt,
                                               if x == id then Some((a, b)) else row.ended)
    ensures WithNotes(t, id, notes, fault).Ok? <==> fault == NoFault && id in t.sessions
    ensures WithNotes(t, id, notes, fault).Ok? ==>
              var u := WithNotes(t, id, notes, fault).value;
              && u == t.(notes := u.notes) && u.notes.Keys == t.notes.Keys + {id} && u.notes[id] == notes
              && forall x :: x in t.notes && x != id ==> u.notes[x] == t.notes[x]
  {
  }

  lemma OthersKeep(t: Tables, id: nat, title: string, notes: string, status: Status, a: int, b: int, fault: Fault)
    requires Consistent(t)
    ensures Consistent(Kept(t, Created(t, id, title, a, fault)))
    ensures Consistent(Kept(t, WithStatus(t, id, status, fault)))
    ensures Consistent(Kept(t, Finished(t, id, a, b, fault)))
    ensures Consistent(Kept(t, WithNotes(t, id, notes, fault)))
  {
  }

  // ------------------------------------------------------------ the start-up sweep

  const LIST_LIMIT := 200

  /** What `list_sessions` can return: the newest rows, at most 200 of them. */
  predicate Listing(t: Tables, listed: seq<nat>) {
    && |listed| <= LIST_LIMIT
    && (forall i :: 0 <= i < |listed| ==> listed[i] in t.sessions)
    && (forall i, j :: 0 <= i < j < |listed| ==>
          listed[i] != listed[j] && t.sessions[listed[i]].startedAt >= t.sessions[listed[j]].startedAt)
    && forall id :: id in t.sessions && id !in listed ==>
         && |listed| == LIST_LIMIT
         && forall i :: 0 <= i < |listed| ==> t.sessions[listed[i]].startedAt >= t.sessions[id].startedAt
  }

  predicate Unfinished(s: Status) { s == Recording || s == Processing }

  /** The sweep over the listed rows; the status writes in `failing` fail. */
  function Swept(t: Tables, listed: seq<nat>, failing: set<nat>): Tables {
    if listed == [] then t
    else
      var u, id := Swept(t, listed[..|listed| - 1], failing), listed[|listed| - 1];
      if id in t.sessions && Unfinished(t.sessions[id].status)
      then Kept(u, WithStatus(u, id, Error, if id in failing then AtFirst else NoFault)) else u
  }

  /** The sweep closes exactly the listed unfinished sessions whose write does not fail. */
  lemma {:induction false} SweepIsExact(t: Tables, listed: seq<nat>, failing: set<nat>)
    ensures var u := Swept(t, listed, failing);
            && u == t.(sessions := u.sessions) && u.sessions.Keys == t.sessions.Keys
            && forall id {:trigger u.sessions[id]} :: id in t.sessions ==>
                 u.sessions[id] == if id in listed && id !in failing && Unfinished(t.sessions[id].status)
                                   then t.sessions[id].(status := Error) else t.sessions[id]
  {
    if listed != [] {
      SweepIsExact(t, listed[..|listed| - 1], failing);
      assert listed == listed[..|listed| - 1] + [listed[|listed| - 1]];
    }
  }

  /** With at most 200 sessions and no failing write, no session is left unfinished. */
  lemma SweepFinishesSmallStores(t: Tables, listed: seq<nat>)
    requires Listing(t, listed) && |t.sessions| <= LIST_LIMIT
    ensures Swept(t, listed, {}).sessions.Keys == t.sessions.Keys
    ensures forall id :: id in Swept(t, listed, {}).sessions ==> !Unfinished(Swept(t, listed, {}).sessions[id].status)
  {
    SweepIsExact(t, listed, {});
    forall id | id in t.sessions ensures id in listed {
      if id !in listed {
        DistinctCount(listed, t.sessions.Keys - {id});
      }
    }
  }

  lemma {:induction false} DistinctCount(xs: seq<nat>, ys: set<nat>)
    requires forall i, j :: 0 <= i < j < |xs| ==> xs[i] != xs[j]
    requires forall i :: 0 <= i < |xs| ==> xs[i] in ys
    ensures |xs| <= |ys|
  {
    if xs != [] {
      DistinctCount(xs[..|xs| - 1], ys - {xs[|xs| - 1]});
    }
  }

  // ------------------------------------------------------------ the connection

  class Connection {
    var sessions: map<nat, Session>
    var segments: seq<Segment>
    var fts: seq<Entry>
    var notes: map<nat, string>

    function View(): Tables
      reads this
    {
      Tables(sessions, segments, fts, notes)
    }

    constructor ()
      ensures View() == EMPTY && Consistent(View())
    {
      sessions, segments, fts, notes := map[], [], [], map[];
    }

    method CreateSession(id: nat, title: string, now: int, fault: Fault) returns (error: Option<DbError>)
      modifies this
      ensures match Created(old(View()), id, title, now, fault)
              case Ok(t) => error == None && View() == t
              case Err(e) => error == Some(e) && View() == old(View())
    {
      if fault != NoFault {
        return Some(Failed(fault));
      }
      if id in sessions {
        return Some(DuplicateKey);
      }
      sessions := sessions[id := Session(title, Recording, now, None)];
      return None;
    }

    /** The transaction's changes become visible when it commits. */
    method DeleteSession(id: nat, fault: Fault) returns (error: Option<DbError>)
      modifies this
      ensures match Deleted(old(View()), id, fault)
              case Ok(t) => error == None && View() == t
              case Err(e) => error == Some(e) && View() == old(View())
    {
      if fault == AtBegin {
        return Some(Failed(fault));
      }
      var txFts, txSessions, txSegments, txNotes := fts, sessions, segments, notes;
      if fault == AtFirst {
        return Some(Failed(fault));
      }
      txFts := RemoveEntries(txFts, id);
      if fault == AtSecond {
        return Some(Failed(fault));
      }
      if id in txSessions {
        txSessions, txNotes := txSessions - {id}, txNotes - {id};
        txSegments := RemoveSegments(txSegments, id);
      }
      if fault == AtCommit {
        return Some(Failed(fault));
      }
      fts, sessions, segments, notes := txFts, txSessions, txSegments, txNotes;
      return None;
    }

    method RemoveEntries(rows: seq<Entry>, id: nat) returns (left: seq<Entry>)
      ensures left == WithoutEntries(rows, id)
    {
      left := [];
      for i := 0 to |rows|
        invariant left == WithoutEntries(rows[..i], id)
      {
        assert rows[..i + 1][..i] == rows[..i];
        if rows[i].session != id {
          left := left + [rows[i]];
        }
      }
      assert rows[..|rows|] == rows;
    }

    method RemoveSegments(rows: seq<Segment>, id: nat) returns (left: seq<Segment>)
      ensures left == WithoutSegments(rows, id)
    {
      left := [];
      for i := 0 to |rows|
        invariant left == WithoutSegments(rows[..i], id)
      {
        assert rows[..i + 1][..i] == rows[..i];
        if rows[i].session != id {
          left := left + [rows[i]];
        }
      }
      assert rows[..|rows|] == rows;
    }

    method UpdateSessionStatus(id: nat, status: Status, fault: Fault) returns (error: Option<DbError>)
      modifies this
      ensures match WithStatus(old(View()), id, status, fault)
              case Ok(t) => error == None && View() == t
              case Err(e) => error == Some(e) && View() == old(View())
    {
      if fault != NoFault {
        return Some(Failed(fault));
      }
      if id in sessions {
        sessions := sessions[id := sessions[id].(status := status)];
      }
      return None;
    }

    method FinishSession(id: nat, endedAt: int, duration: int, fault: Fault) returns (error: Option<DbError>)
      modifies this
      ensures match Finished(old(View()), id, endedAt, duration, fault)
              case Ok(t) => error == None && View() == t
              case Err(e) => error == Some(e) && View() == old(View())
    {
      if fault != NoFault {
        return Some(Failed(fault));
      }
      if id in sessions {
        sessions := sessions[id := sessions[id].(status := Processing, ended := Some((endedAt, duration)))];
      }
      return None;
    }

    method InsertSegment(segment: Segment, fault: Fault) returns (error: Option<DbError>)
      modifies this
      ensures match Inserted(old(View()), segment, fault)
              case Ok(t) => error == None && View() == t
              case Err(e) => error == Some(e) && View() == old(View())
    {
      if fault == AtBegin {
        return Some(Failed(fault));
      }
      var txSegments, txFts := segments, fts;
      if fault == AtFirst {
        return Some(Failed(fault));
      }
      if exists i :: 0 <= i < |txSegments| && txSegments[i].id == segment.id {
        return Some(DuplicateKey);
      }
      if segment.session !in sessions {
        return Some(ForeignKey);
      }
      txSegments := txSegments + [segment];
      if fault == AtSecond {
        return Some(Failed(fault));
      }
      txFts := txFts + [Entry(segment.session, segment.text)];
      if fault == AtCommit {
        return Some(Failed(fault));
      }
      segments, fts := txSegments, txFts;
      return None;
    }

    /** The sweep of lib.rs over what `list_sessions` returned. */
    method Sweep(listed: seq<nat>, failing: set<nat>)
      modifies this
      ensures View() == Swept(old(View()), listed, failing)
    {
      ghost var t := View();
      var rows := sessions;
      for i := 0 to |listed|
        invariant View() == Swept(t, listed[..i], failing)
      {
        assert listed[..i + 1][..i] == listed[..i];
        if listed[i] in rows && (rows[listed[i]].status == Recording || rows[listed[i]].status == Processing) {
          var _ := UpdateSessionStatus(listed[i], Error, if listed[i] in failing then AtFirst else NoFault);
        }
      }
      assert listed[..|listed|] == listed;
    }
  }
}
