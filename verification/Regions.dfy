/**
 * The region tree of the runtime (patches/asupersync/src/runtime/state.rs and
 * record/region.rs): closing regions, completing tasks, resolving leaked obligations, and
 * the upward cascade by which a closed region lets its parent close.
 *
 * Ids of regions, tasks and obligations are numbers in order of creation, never reused, so
 * a child's id is larger than its parent's.
 */
module Regions {
  import opened Prelude

  datatype Phase = Open | Closing | Draining | Finalizing

  datatype Finalizer = Sync | Async

  /** `finalizers` is a stack, top last. */
  datatype Region = Region(
    parent: Option<nat>, children: seq<nat>, tasks: seq<nat>, phase: Phase,
    finalizers: seq<Finalizer>, maxChildren: Option<nat>)

  datatype TaskState = Live | Done(cancelled: bool)

  datatype Task = Task(owner: nat, state: TaskState)

  /** A pending obligation: its holder is a task, and it keeps its region from closing. */
  datatype Obligation = Obligation(holder: nat, region: nat)

  datatype Response = Panic | Log | Silent | Recover

  /** What a leak leads to, and what instead once the leak count reaches a threshold. */
  datatype Policy = Policy(response: Response, escalation: Option<(nat, Response)>)

  /** `panicked` is set when handling a leak panicked; the call in progress ends there. */
  datatype Table = Table(
    regions: map<nat, Region>, tasks: map<nat, Task>, obligations: map<nat, Obligation>,
    nextRegion: nat, nextTask: nat, nextObligation: nat,
    policy: Policy, leaks: nat, panicked: bool)

  const U64_MAX: nat := 0xFFFF_FFFF_FFFF_FFFF

  /** `retain(|y| y != x)`. */
  function Without(xs: seq<nat>, x: nat): seq<nat> {
    if xs == [] then []
    else Without(xs[..|xs| - 1], x) + if xs[|xs| - 1] == x then [] else [xs[|xs| - 1]]
  }

  lemma {:induction false} WithoutMembers(xs: seq<nat>, x: nat)
    ensures forall y :: y in Without(xs, x) <==> y in xs && y != x
    ensures x !in xs ==> Without(xs, x) == xs
    ensures Distinct(xs) ==> Distinct(Without(xs, x))
  {
    if xs != [] {
      var init, last := xs[..|xs| - 1], xs[|xs| - 1];
      assert xs == init + [last];
      WithoutMembers(init, x);
      assert Distinct(xs) ==> last !in init && Distinct(init);
    }
  }

  // ------------------------------------------------------------ finalizers

  /** `run_sync_finalizers`, with an async finalizer put back. */
  function RunSync(finalizers: seq<Finalizer>): seq<Finalizer> {
    if finalizers == [] || finalizers[|finalizers| - 1] == Async then finalizers
    else RunSync(finalizers[..|finalizers| - 1])
  }

  lemma {:induction false} RunSyncStopsAtAsync(finalizers: seq<Finalizer>)
    ensures RunSync(finalizers) == [] <==> Async !in finalizers
    ensures Async in finalizers <==> Async in RunSync(finalizers)
  {
    if finalizers != [] && finalizers[|finalizers| - 1] != Async {
      RunSyncStopsAtAsync(finalizers[..|finalizers| - 1]);
      assert finalizers == finalizers[..|finalizers| - 1] + [finalizers[|finalizers| - 1]];
    }
  }

  // ------------------------------------------------------------ one region

  function Put(s: Table, id: nat, r: Region): Table { s.(regions := s.regions[id := r]) }

  /** The region leaves the table and its parent's child list. */
  function Removed(s: Table, id: nat): Table
    requires id in s.regions
  {
    var parent := s.regions[id].parent;
    var t := if parent.Some? && parent.value in s.regions then
               var p := s.regions[parent.value];
               Put(s, parent.value, p.(children := Without(p.children, id)))
             else s;
    t.(regions := t.regions - {id})
  }

  predicate Idle(r: Region) { r.children == [] && r.tasks == [] }

  predicate Pending(s: Table, id: nat) { exists o :: o in s.obligations && s.obligations[o].region == id }

  function FinalizersRun(s: Table, id: nat): Table
    requires id in s.regions
  {
    Put(s, id, s.regions[id].(finalizers := RunSync(s.regions[id].finalizers)))
  }

  /** `begin_finalize`. */
  function Begun(s: Table, id: nat): Table
    requires id in s.regions
  {
    Put(s, id, s.regions[id].(phase := Finalizing))
  }

  /** `can_region_complete_close`. */
  predicate CanClose(s: Table, id: nat) {
    && id in s.regions && s.regions[id].phase == Finalizing && s.regions[id].finalizers == []
    && Idle(s.regions[id]) && !Pending(s, id)
  }

  /** What advancing a region in Closing or Draining does. */
  function Drained(s: Table, id: nat): (Table, Option<nat>)
    requires id in s.regions
  {
    var r := s.regions[id];
    if Idle(r) then (Begun(s, id), Some(id))
    else if r.children != [] && r.phase == Closing then (Put(s, id, r.(phase := Draining)), None)
    else (s, None)
  }

  /** The last part of advancing a region in Finalizing. */
  function ClosedIfPossible(s: Table, id: nat): (Table, Option<nat>) {
    if CanClose(s, id) then (Removed(s, id), s.regions[id].parent) else (s, None)
  }

  // ------------------------------------------------------------ advancing while leaks are handled

  /**
   * One turn of the loop in `advance_region_state` while leaks are being handled, and the
   * region to go on with: leaks that are found then are left for later.
   */
  function InnerTurn(s: Table, id: nat): (Table, Option<nat>) {
    if id !in s.regions || s.regions[id].phase == Open then (s, None)
    else if s.regions[id].phase != Finalizing then Drained(s, id)
    else ClosedIfPossible(FinalizersRun(s, id), id)
  }

  /** `advance_region_state` while leaks are being handled. */
  function InnerAdvance(s: Table, id: nat): (t: Table)
    ensures t.regions.Keys <= s.regions.Keys
    decreases |s.regions|, id in s.regions && s.regions[id].phase != Finalizing
  {
    var (t, next) := InnerTurn(s, id);
    assert t.regions.Keys <= s.regions.Keys;
    if next.None? then t else
      InnerTurnDescends(s, id);
      InnerAdvance(t, next.value)
  }

  lemma InnerTurnDescends(s: Table, id: nat)
    requires InnerTurn(s, id).1.Some?
    ensures Descends(s, InnerTurn(s, id).0, id, InnerTurn(s, id).1.value)
  {
    assert FinalizersRun(s, id).regions.Keys == Begun(s, id).regions.Keys == s.regions.Keys;
    SameSize(s, FinalizersRun(s, id));
    SameSize(s, Begun(s, id));
    RemovedIsSmaller(FinalizersRun(s, id), id);
  }

  /** A turn that goes on has removed a region, or has moved its region to Finalizing. */
  predicate Descends(s: Table, t: Table, id: nat, next: nat) {
    || |t.regions| < |s.regions|
    || (|t.regions| == |s.regions| && next == id && id in t.regions && id in s.regions
        && s.regions[id].phase != Finalizing && t.regions[id].phase == Finalizing)
  }

  lemma SameSize(s: Table, t: Table)
    requires s.regions.Keys == t.regions.Keys
    ensures |s.regions| == |t.regions|
  {
    assert |s.regions.Keys| == |t.regions.Keys|;
  }

  lemma SubsetSize(a: set<nat>, b: set<nat>)
    requires a <= b
    ensures |a| <= |b|
  {
    assert b == a + (b - a);
  }

  lemma RemovedIsSmaller(t: Table, id: nat)
    requires id in t.regions
    ensures |Removed(t, id).regions| < |t.regions|
    ensures Removed(t, id).regions.Keys == t.regions.Keys - {id}
  {
    assert Removed(t, id).regions.Keys == t.regions.Keys - {id};
    assert |Removed(t, id).regions.Keys| == |t.regions.Keys| - 1;
  }

  // ------------------------------------------------------------ leaked obligations

  /** The pending obligations below `n` that `wanted` picks, in order. */
  function Picked(obligations: map<nat, Obligation>, wanted: Obligation -> bool, n: nat): seq<nat> {
    if n == 0 then []
    else Picked(obligations, wanted, n - 1)
         + if n - 1 in obligations && wanted(obligations[n - 1]) then [n - 1] else []
  }

  lemma {:induction false} PickedMembers(obligations: map<nat, Obligation>, wanted: Obligation -> bool, n: nat)
    ensures forall o :: o in Picked(obligations, wanted, n) <==> o < n && o in obligations && wanted(obligations[o])
  {
    if n > 0 {
      PickedMembers(obligations, wanted, n - 1);
    }
  }

  function OfRegion(s: Table, id: nat): seq<nat> {
    Picked(s.obligations, (o: Obligation) => o.region == id, s.nextObligation)
  }

  function HeldBy(s: Table, task: nat): seq<nat> {
    Picked(s.obligations, (o: Obligation) => o.holder == task, s.nextObligation)
  }

  function Resolved(s: Table, o: nat): Table { s.(obligations := s.obligations - {o}) }

  /** `mark_obligation_leaked` or `abort_obligation` on each, while leaks are being handled. */
  function ResolveAll(s: Table, os: seq<nat>): (t: Table)
    ensures t.regions.Keys <= s.regions.Keys
  {
    if os == [] then s
    else
      var t, o := ResolveAll(s, os[..|os| - 1]), os[|os| - 1];
      if o in t.obligations then InnerAdvance(Resolved(t, o), t.obligations[o].region) else t
  }

  function Effective(policy: Policy, leaks: nat): Response {
    if policy.escalation.Some? && leaks >= policy.escalation.value.0 then policy.escalation.value.1 else policy.response
  }

  function Counted(s: Table, os: seq<nat>): Table {
    s.(leaks := if s.leaks + |os| <= U64_MAX then s.leaks + |os| else U64_MAX)
  }

  /** `handle_obligation_leaks`: every policy resolves the leaks; one of them then panics. */
  function LeaksHandled(s: Table, os: seq<nat>): (t: Table)
    ensures t.regions.Keys <= s.regions.Keys
  {
    if os == [] then s
    else
      var counted := Counted(s, os);
      var t := ResolveAll(counted, os);
      if Effective(s.policy, counted.leaks) == Panic then t.(panicked := true) else t
  }

  // ------------------------------------------------------------ advancing

  /** Every task that the region lists has ended. */
  predicate TasksDone(s: Table, id: nat)
    requires id in s.regions
  {
    forall x :: x in s.regions[id].tasks ==> x in s.tasks && s.tasks[x].state.Done?
  }

  /** The region's finalizers ran, and its leaks are handled if no finalizer and no task is left. */
  function Finalized(s: Table, id: nat): (t: Table)
    requires id in s.regions
    ensures t.regions.Keys <= s.regions.Keys
  {
    var t := FinalizersRun(s, id);
    if t.regions[id].finalizers == [] && TasksDone(t, id) then LeaksHandled(t, OfRegion(t, id)) else t
  }

  /** One turn of the loop in `advance_region_state`, and the region to go on with. */
  function Turn(s: Table, id: nat): (Table, Option<nat>) {
    if id !in s.regions || s.regions[id].phase == Open then (s, None)
    else if s.regions[id].phase != Finalizing then Drained(s, id)
    else
      var t := Finalized(s, id);
      if t.panicked then (t, None) else ClosedIfPossible(t, id)
  }

  lemma TurnDescends(s: Table, id: nat)
    requires Turn(s, id).1.Some?
    ensures Descends(s, Turn(s, id).0, id, Turn(s, id).1.value)
  {
    SameSize(s, Begun(s, id));
    var t := Finalized(s, id);
    if t.regions.Keys <= s.regions.Keys {
      SubsetSize(t.regions.Keys, s.regions.Keys);
    }
    if id in t.regions {
      RemovedIsSmaller(t, id);
    }
  }

  /** `advance_region_state`. */
  function Advance(s: Table, id: nat): (t: Table)
    ensures t.regions.Keys <= s.regions.Keys
    decreases |s.regions|, id in s.regions && s.regions[id].phase != Finalizing
  {
    if s.panicked then s
    else
      var (t, next) := Turn(s, id);
      assert t.regions.Keys <= s.regions.Keys;
      if next.None? then t else
        TurnDescends(s, id);
        Advance(t, next.value)
  }

  // ------------------------------------------------------------ completing a task

  /** `TaskRecord::complete`: the first outcome stays. */
  function Ended(s: Table, task: nat, cancelled: bool): Table {
    if task in s.tasks && s.tasks[task].state.Live?
    then s.(tasks := s.tasks[task := s.tasks[task].(state := Done(cancelled))])
    else s
  }

  /** `abort_obligation` on each. */
  function AbortAll(s: Table, os: seq<nat>): Table {
    if os == [] then s
    else
      var t, o := AbortAll(s, os[..|os| - 1]), os[|os| - 1];
      if t.panicked || o !in t.obligations then t else Advance(Resolved(t, o), t.obligations[o].region)
  }

  function TaskRemoved(s: Table, task: nat, owner: nat): Table {
    var t := s.(tasks := s.tasks - {task});
    if owner in t.regions
    then Put(t, owner, t.regions[owner].(tasks := Without(t.regions[owner].tasks, task)))
    else t
  }

  /** The first half of `task_completed`: what the task still held is resolved. */
  function Released(s: Table, task: nat): Table
    requires task in s.tasks
  {
    var t := if s.tasks[task].state == Done(true) then s else LeaksHandled(s, HeldBy(s, task));
    if t.panicked then t else AbortAll(t, HeldBy(t, task))
  }

  /** `task_completed`. */
  function Completed(s: Table, task: nat): Table {
    if s.panicked || task !in s.tasks then s
    else
      var t, owner := Released(s, task), s.tasks[task].owner;
      if t.panicked then t else Advance(TaskRemoved(t, task, owner), owner)
  }

  // ------------------------------------------------------------ well-formed tables

  /** Parent and child lists agree about `id`, and it owns the tasks it lists. */
  predicate RegionOk(s: Table, id: nat)
    requires id in s.regions
  {
    var r := s.regions[id];
    && id < s.nextRegion
    && (r.parent.Some? ==>
          r.parent.value < id && r.parent.value in s.regions && id in s.regions[r.parent.value].children)
    && Distinct(r.children)
    && (forall c :: c in r.children ==> c in s.regions && s.regions[c].parent == Some(id))
    && forall t :: t in r.tasks ==> t in s.tasks && s.tasks[t].owner == id
  }

  predicate TaskOk(s: Table, t: nat)
    requires t in s.tasks
  {
    t < s.nextTask && s.tasks[t].owner in s.regions && t in s.regions[s.tasks[t].owner].tasks
  }

  predicate ObligationOk(s: Table, o: nat)
    requires o in s.obligations
  {
    o < s.nextObligation && s.obligations[o].holder < s.nextTask && s.obligations[o].region in s.regions
  }

  /**
   * Parents and children agree, tasks and the regions that own them, and obligations and
   * their regions.  The triggers keep the verifier from following chains of parents.
   */
  predicate Forest(s: Table) {
    && (forall id {:trigger RegionOk(s, id)} :: id in s.regions ==> RegionOk(s, id))
    && (forall t {:trigger TaskOk(s, t)} :: t in s.tasks ==> TaskOk(s, t))
    && forall o {:trigger ObligationOk(s, o)} :: o in s.obligations ==> ObligationOk(s, o)
  }

  lemma NextIsFresh(s: Table)
    requires Forest(s)
    ensures s.nextRegion !in s.regions && s.nextTask !in s.tasks && s.nextObligation !in s.obligations
    ensures forall id :: id in s.regions ==> id < s.nextRegion && s.nextRegion !in s.regions[id].children
    ensures forall t :: t in s.tasks ==> s.tasks[t].owner < s.nextRegion
    ensures forall o :: o in s.obligations ==>
              s.obligations[o].region < s.nextRegion && s.obligations[o].holder < s.nextTask
  {
    forall id | id in s.regions ensures id < s.nextRegion { assert RegionOk(s, id); }
    forall id, c | id in s.regions && c in s.regions[id].children ensures c in s.regions { assert RegionOk(s, id); }
    forall t | t in s.tasks ensures t < s.nextTask && s.tasks[t].owner in s.regions { assert TaskOk(s, t); }
    forall o | o in s.obligations
      ensures o < s.nextObligation && s.obligations[o].region in s.regions && s.obligations[o].holder < s.nextTask
    {
      assert ObligationOk(s, o);
    }
  }

  /** An async finalizer, which only a scheduler could run, keeps the region from closing. */
  predicate Blocked(r: Region) { Async in r.finalizers }

  /** Advancing the region would close it. */
  predicate Closable(s: Table, id: nat) {
    id in s.regions && s.regions[id].phase != Open && Idle(s.regions[id]) && !Blocked(s.regions[id])
  }

  // ------------------------------------------------------------ above and below

  /** How far `x` lies below `r`, following parents; None when it does not. */
  function Under(s: Table, r: nat, x: nat): Option<nat>
    requires Forest(s)
    decreases x
  {
    if x !in s.regions then None
    else if x == r then Some(0)
    else if s.regions[x].parent.None? then None
    else
      assert RegionOk(s, x);
      var d := Under(s, r, s.regions[x].parent.value);
      if d.Some? then Some(d.value + 1) else None
  }

  lemma {:induction false} UnderIsLater(s: Table, r: nat, x: nat)
    requires Forest(s) && Under(s, r, x).Some?
    ensures r <= x && r in s.regions && x in s.regions
    decreases x
  {
    assert RegionOk(s, x);
    if x != r {
      UnderIsLater(s, r, s.regions[x].parent.value);
    }
  }

  /** Regions only leave, and the others keep their parents. */
  ghost predicate SameParents(s: Table, t: Table) {
    forall id {:trigger id in t.regions} :: id in t.regions ==>
        id in s.regions && t.regions[id].parent == s.regions[id].parent
  }

  lemma {:induction false} UnderStays(s: Table, t: Table, a: nat, b: nat)
    requires Forest(s) && Forest(t) && SameParents(s, t) && b in t.regions
    ensures Under(t, a, b) == Under(s, a, b)
    decreases b
  {
    assert RegionOk(t, b);
    if b != a && t.regions[b].parent.Some? {
      UnderStays(s, t, a, t.regions[b].parent.value);
    }
  }
}
