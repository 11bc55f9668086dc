/**
 * What advancing a region does to the tree around it: nothing outside the tree of a root
 * changes, only regions that can close leave, and what is left to close afterwards are at
 * most ancestors, which a deepest-first pass comes to later.
 */
module RegionClosing {
  import opened Prelude
  import opened Regions

  // ------------------------------------------------------------ the tree of a root

  predicate UnderRoot(s: Table, root: nat, id: nat)
    requires id in s.regions
  {
    id >= root ==>
      && s.regions[id].parent.Some?
      && (id > root ==> s.regions[id].parent.value >= root)
      && (id == root ==>
            s.regions[id].parent.value in s.regions && s.regions[s.regions[id].parent.value].phase == Open)
  }

  /** All regions from `root` on form one tree below `root`, whose own parent stays open. */
  predicate Subtree(s: Table, root: nat) {
    forall id {:trigger UnderRoot(s, root, id)} :: id in s.regions ==> UnderRoot(s, root, id)
  }

  /** A task of the tree holds obligations of the tree only. */
  predicate HeldIn(s: Table, root: nat, o: nat)
    requires o in s.obligations
  {
    var holder := s.obligations[o].holder;
    s.obligations[o].region < root && holder in s.tasks ==> s.tasks[holder].owner < root
  }

  predicate HeldInside(s: Table, root: nat) {
    forall o {:trigger HeldIn(s, root, o)} :: o in s.obligations ==> HeldIn(s, root, o)
  }

  predicate Rooted(s: Table, root: nat) { Forest(s) && Subtree(s, root) && HeldInside(s, root) }

  predicate Same(r: Region, r': Region) {
    && r'.parent == r.parent && (Blocked(r') <==> Blocked(r)) && (r.finalizers == [] ==> r'.finalizers == [])
    && (r.phase == Open <==> r'.phase == Open) && (r.phase == Finalizing ==> r'.phase == Finalizing)
    && (r'.phase == Closing ==> r.phase == Closing && r'.finalizers == r.finalizers) && (Idle(r) ==> Idle(r'))
  }

  function ParentsView(s: Table, t: Table, root: nat, id: nat): Region
    requires id in s.regions
  {
    if root in s.regions && root !in t.regions
    then s.regions[id].(children := Without(s.regions[id].children, root))
    else s.regions[id]
  }

  predicate RegionKept(s: Table, t: Table, root: nat, id: nat) {
    && (id in t.regions ==> id in s.regions && Same(s.regions[id], t.regions[id]))
    && (id in s.regions && (id < root || Blocked(s.regions[id])) ==> id in t.regions)
    && (id in s.regions && id < root ==> t.regions[id] == ParentsView(s, t, root, id))
  }

  predicate TaskKept(s: Table, t: Table, root: nat, x: nat) {
    && (x in t.tasks ==> x in s.tasks && t.tasks[x].owner == s.tasks[x].owner)
    && (x in s.tasks && s.tasks[x].owner < root ==> x in t.tasks && t.tasks[x] == s.tasks[x])
  }

  predicate ObligationKept(s: Table, t: Table, root: nat, o: nat) {
    && (o in t.obligations ==> o in s.obligations && t.obligations[o] == s.obligations[o])
    && (o in s.obligations && s.obligations[o].region < root ==> o in t.obligations)
  }

  predicate SameCounters(s: Table, t: Table) {
    && t.nextRegion == s.nextRegion && t.nextTask == s.nextTask && t.nextObligation == s.nextObligation
    && t.policy == s.policy
  }

  /**
   * What closing regions of the tree may change: nothing outside the tree, except that
   * `root` leaves its parent's child list when it is removed; the regions that remain keep
   * parent and blockage; blocked ones remain; tasks and obligations only leave.
   */
  ghost predicate Shrunk(s: Table, t: Table, root: nat) {
    && SameCounters(s, t)
    && (forall id: nat {:trigger RegionKept(s, t, root, id)} :: RegionKept(s, t, root, id))
    && (forall x {:trigger TaskKept(s, t, root, x)} :: TaskKept(s, t, root, x))
    && forall o {:trigger ObligationKept(s, t, root, o)} :: ObligationKept(s, t, root, o)
  }

  lemma ShrunkTransitive(s: Table, t: Table, u: Table, root: nat)
    requires Shrunk(s, t, root) && Shrunk(t, u, root)
    ensures Shrunk(s, u, root)
  {
    forall id ensures RegionKept(s, u, root, id) {
      assert RegionKept(s, t, root, id) && RegionKept(t, u, root, id);
      assert RegionKept(s, t, root, root) && RegionKept(t, u, root, root);
    }
    forall x ensures TaskKept(s, u, root, x) { assert TaskKept(s, t, root, x) && TaskKept(t, u, root, x); }
    forall o ensures ObligationKept(s, u, root, o) {
      assert ObligationKept(s, t, root, o) && ObligationKept(t, u, root, o);
    }
  }

  lemma ShrunkReflexive(s: Table, root: nat)
    ensures Shrunk(s, s, root)
  {
  }

  lemma RootedStays(s: Table, t: Table, root: nat)
    requires Rooted(s, root) && Forest(t) && Shrunk(s, t, root)
    ensures Rooted(t, root)
  {
    forall id | id in t.regions ensures UnderRoot(t, root, id) {
      assert RegionKept(s, t, root, id) && UnderRoot(s, root, id) && RegionOk(s, id);
      if id == root {
        assert RegionKept(s, t, root, s.regions[id].parent.value);
      }
    }
    forall o | o in t.obligations ensures HeldIn(t, root, o) {
      assert ObligationKept(s, t, root, o) && HeldIn(s, root, o) && TaskKept(s, t, root, s.obligations[o].holder);
    }
  }

  lemma ParentsStay(s: Table, t: Table, root: nat)
    requires Shrunk(s, t, root)
    ensures SameParents(s, t)
  {
    forall id | id in t.regions ensures id in s.regions && t.regions[id].parent == s.regions[id].parent {
      assert RegionKept(s, t, root, id);
    }
  }

  // ------------------------------------------------------------ single changes

  /** Only phases, finalizers and limits of regions differ. */
  ghost predicate SameLinks(s: Table, t: Table) {
    && t == s.(regions := t.regions) && t.regions.Keys == s.regions.Keys
    && forall id {:trigger t.regions[id]} :: id in s.regions ==>
         && t.regions[id].parent == s.regions[id].parent
         && t.regions[id].children == s.regions[id].children && t.regions[id].tasks == s.regions[id].tasks
  }

  lemma SameLinksKeepForest(s: Table, t: Table)
    requires Forest(s) && SameLinks(s, t)
    ensures Forest(t)
  {
    forall q | q in t.regions ensures RegionOk(t, q) { assert RegionOk(s, q); }
    forall x | x in t.tasks ensures TaskOk(t, x) { assert TaskOk(s, x); }
    forall o | o in t.obligations ensures ObligationOk(t, o) { assert ObligationOk(s, o); }
  }

  lemma SameLinksKeepRooted(s: Table, t: Table, root: nat)
    requires Rooted(s, root) && SameLinks(s, t)
    requires forall id {:trigger t.regions[id]} :: id in s.regions && id < root ==> t.regions[id] == s.regions[id]
    ensures Rooted(t, root)
  {
    SameLinksKeepForest(s, t);
    forall q | q in t.regions ensures UnderRoot(t, root, q) { assert UnderRoot(s, root, q) && RegionOk(s, q); }
    forall o | o in t.obligations ensures HeldIn(t, root, o) { assert HeldIn(s, root, o); }
  }

  /** Phase and finalizers of one region of the tree change. */
  lemma TweakShrinks(s: Table, id: nat, r: Region, root: nat)
    requires Forest(s) && id in s.regions && id >= root && Same(s.regions[id], r)
    requires r.children == s.regions[id].children && r.tasks == s.regions[id].tasks
    ensures Forest(Put(s, id, r)) && Shrunk(s, Put(s, id, r), root)
  {
    SameLinksKeepForest(s, Put(s, id, r));
  }

  lemma RemovedKeepsRegion(s: Table, id: nat, q: nat)
    requires Forest(s) && id in s.regions && Idle(s.regions[id]) && q in s.regions && q != id
    ensures RegionOk(Removed(s, id), q)
  {
    assert RegionOk(s, id) && RegionOk(s, q);
    if s.regions[id].parent.Some? {
      assert RegionOk(s, s.regions[id].parent.value);
      WithoutMembers(s.regions[s.regions[id].parent.value].children, id);
    }
  }

  lemma RemovedKeepsForest(s: Table, id: nat)
    requires Forest(s) && CanClose(s, id)
    ensures Forest(Removed(s, id))
  {
    var t := Removed(s, id);
    forall q | q in t.regions ensures RegionOk(t, q) { RemovedKeepsRegion(s, id, q); }
    forall x | x in t.tasks ensures TaskOk(t, x) { assert TaskOk(s, x); }
    forall o | o in t.obligations ensures ObligationOk(t, o) { assert ObligationOk(s, o); }
  }

  lemma RemovedShrinks(s: Table, id: nat, root: nat)
    requires Rooted(s, root) && id >= root && CanClose(s, id)
    ensures Forest(Removed(s, id)) && Shrunk(s, Removed(s, id), root)
  {
    RemovedKeepsForest(s, id);
    var t := Removed(s, id);
    assert UnderRoot(s, root, id) && RegionOk(s, id);
    forall q ensures RegionKept(s, t, root, q) {
      if q in s.regions {
        assert RegionOk(s, q);
        WithoutMembers(s.regions[q].children, root);
      }
    }
  }

  lemma ResolvedShrinks(s: Table, o: nat, root: nat)
    requires Forest(s) && o in s.obligations && s.obligations[o].region >= root
    ensures Forest(Resolved(s, o)) && Shrunk(s, Resolved(s, o), root)
  {
    var t := Resolved(s, o);
    forall q | q in t.regions ensures RegionOk(t, q) { assert RegionOk(s, q); }
    forall x | x in t.tasks ensures TaskOk(t, x) { assert TaskOk(s, x); }
    forall q | q in t.obligations ensures ObligationOk(t, q) { assert ObligationOk(s, q); }
  }

  /** The leak counter and the panic flag play no part in the tree. */
  lemma FlagsShrink(s: Table, leaks: nat, panicked: bool, root: nat)
    requires Forest(s)
    ensures var t := s.(leaks := leaks, panicked := panicked); Forest(t) && Shrunk(s, t, root)
  {
    var t := s.(leaks := leaks, panicked := panicked);
    forall q | q in t.regions ensures RegionOk(t, q) { assert RegionOk(s, q); }
    forall x | x in t.tasks ensures TaskOk(t, x) { assert TaskOk(s, x); }
    forall o | o in t.obligations ensures ObligationOk(t, o) { assert ObligationOk(s, o); }
  }

  // ------------------------------------------------------------ one turn

  /** Task table and task lists stay as they are. */
  predicate TasksStay(s: Table, t: Table) {
    t.tasks == s.tasks
    && forall id :: id in t.regions ==> id in s.regions && t.regions[id].tasks == s.regions[id].tasks
  }

  /** A region of the tree, or the open one above it. */
  predicate InReach(s: Table, root: nat, id: nat) { id >= root || (id in s.regions && s.regions[id].phase == Open) }

  /** Only the region to go on with can have become closable. */
  ghost predicate Settles(s: Table, t: Table, next: Option<nat>) {
    forall q: nat {:trigger Closable(t, q)} :: Closable(t, q) ==> Closable(s, q) || next == Some(q)
  }

  /** The region to go on with is the region itself, or its parent. */
  predicate GoesUp(s: Table, root: nat, id: nat, t: Table, next: Option<nat>) {
    next.Some? ==>
      && InReach(t, root, next.value) && id in s.regions
      && (next.value == id || s.regions[id].parent == next)
  }

  lemma DrainedSettles(s: Table, id: nat, root: nat)
    requires Rooted(s, root) && id >= root && id in s.regions
    requires s.regions[id].phase == Closing || s.regions[id].phase == Draining
    ensures var (t, next) := Drained(s, id);
            && Forest(t) && Shrunk(s, t, root) && TasksStay(s, t) && t.obligations == s.obligations
            && Settles(s, t, next) && GoesUp(s, root, id, t, next) && (next.None? ==> !Closable(t, id))
  {
    TweakShrinks(s, id, s.regions[id].(phase := if Idle(s.regions[id]) then Finalizing else Draining), root);
  }

  lemma FinalizersShrink(s: Table, id: nat, root: nat)
    requires Rooted(s, root) && id >= root && id in s.regions && s.regions[id].phase == Finalizing
    ensures var t := FinalizersRun(s, id);
            && Rooted(t, root) && Shrunk(s, t, root) && TasksStay(s, t) && t.obligations == s.obligations
            && Settles(s, t, None)
            && (t.regions[id].finalizers == [] <==> !Blocked(t.regions[id]))
  {
    var t := FinalizersRun(s, id);
    RunSyncStopsAtAsync(s.regions[id].finalizers);
    TweakShrinks(s, id, t.regions[id], root);
    RootedStays(s, t, root);
  }

  lemma CloseSettles(s: Table, id: nat, root: nat)
    requires Rooted(s, root) && id >= root
    ensures var (t, next) := ClosedIfPossible(s, id);
            && Forest(t) && Shrunk(s, t, root) && TasksStay(s, t) && t.obligations == s.obligations
            && Settles(s, t, next) && GoesUp(s, root, id, t, next)
            && (next.Some? ==> next.value != id && id !in t.regions)
            && (CanClose(s, id) ==> !Closable(t, id))
  {
    ShrunkReflexive(s, root);
    if CanClose(s, id) {
      RemovedShrinks(s, id, root);
      assert UnderRoot(s, root, id) && RegionOk(s, id);
    }
  }

  // ------------------------------------------------------------ advancing while leaks are handled

  lemma InnerTurnSettles(s: Table, id: nat, root: nat)
    requires Rooted(s, root) && InReach(s, root, id)
    ensures var (t, next) := InnerTurn(s, id);
            && Forest(t) && Shrunk(s, t, root) && TasksStay(s, t) && t.obligations == s.obligations
            && Settles(s, t, next) && GoesUp(s, root, id, t, next)
  {
    ShrunkReflexive(s, root);
    if id in s.regions && s.regions[id].phase != Open {
      if s.regions[id].phase == Finalizing {
        var t := FinalizersRun(s, id);
        FinalizersShrink(s, id, root);
        CloseSettles(t, id, root);
        ShrunkTransitive(s, t, ClosedIfPossible(t, id).0, root);
      } else {
        DrainedSettles(s, id, root);
      }
    }
  }

  /** Whatever has become closable lies above `id`, or is `id`. */
  ghost predicate SettlesUpTo(s: Table, t: Table, id: nat)
    requires Forest(s)
  {
    forall q: nat {:trigger Closable(t, q)} :: Closable(t, q) ==> Closable(s, q) || Under(s, q, id).Some?
  }

  lemma StepsUp(s: Table, t: Table, u: Table, root: nat, id: nat, next: nat)
    requires Forest(s) && Forest(t) && Shrunk(s, t, root) && Settles(s, t, Some(next)) && id in s.regions
    requires next == id || s.regions[id].parent == Some(next)
    requires SettlesUpTo(t, u, next)
    ensures SettlesUpTo(s, u, id)
  {
    ParentsStay(s, t, root);
    forall q | Closable(u, q) ensures Closable(s, q) || Under(s, q, id).Some? {
      if !Closable(t, q) {
        UnderIsLater(t, q, next);
        UnderStays(s, t, q, next);
      }
      assert RegionOk(s, id);
      assert q == next ==> Under(s, next, next) == Some(0);
    }
  }

  lemma {:induction false} InnerAdvanceSettles(s: Table, id: nat, root: nat)
    requires Rooted(s, root) && InReach(s, root, id)
    ensures var t := InnerAdvance(s, id);
            && Forest(t) && Shrunk(s, t, root) && TasksStay(s, t) && t.obligations == s.obligations
            && SettlesUpTo(s, t, id)
    decreases |s.regions|, id in s.regions && s.regions[id].phase != Finalizing
  {
    var (t, next) := InnerTurn(s, id);
    InnerTurnSettles(s, id, root);
    RootedStays(s, t, root);
    if next.Some? {
      var u := InnerAdvance(t, next.value);
      InnerTurnDescends(s, id);
      InnerAdvanceSettles(t, next.value, root);
      ShrunkTransitive(s, t, u, root);
      StepsUp(s, t, u, root, id, next.value);
    }
  }

  // ------------------------------------------------------------ leaks

  /** The obligations left are those not in the list. */
  predicate Discharged(s: Table, t: Table, os: seq<nat>) { t.obligations == s.obligations - set o | o in os }

  /** The obligations listed are obligations of the tree. */
  predicate InTree(s: Table, os: seq<nat>, root: nat) {
    forall o :: o in os && o in s.obligations ==> s.obligations[o].region >= root
  }

  lemma DischargeMore(s: Table, t: Table, os: seq<nat>, o: nat)
    requires Discharged(s, t, os)
    ensures Discharged(s, Resolved(t, o), os + [o]) && (o !in t.obligations ==> Discharged(s, t, os + [o]))
  {
    assert (set x | x in os + [o]) == (set x | x in os) + {o};
  }

  lemma {:induction false} ResolveAllShrinks(s: Table, os: seq<nat>, root: nat)
    requires Rooted(s, root) && InTree(s, os, root)
    ensures var t := ResolveAll(s, os);
            Rooted(t, root) && Shrunk(s, t, root) && TasksStay(s, t) && Discharged(s, t, os)
  {
    if os == [] {
      ShrunkReflexive(s, root);
    } else {
      var init, o := os[..|os| - 1], os[|os| - 1];
      assert os == init + [o];
      var t := ResolveAll(s, init);
      ResolveAllShrinks(s, init, root);
      DischargeMore(s, t, init, o);
      if o in t.obligations {
        var u, id := Resolved(t, o), t.obligations[o].region;
        ResolvedShrinks(t, o, root);
        RootedStays(t, u, root);
        InnerAdvanceSettles(u, id, root);
        RootedStays(u, InnerAdvance(u, id), root);
        ShrunkTransitive(s, t, u, root);
        ShrunkTransitive(s, u, InnerAdvance(u, id), root);
      }
    }
  }

  /** All listed obligations are of region `id`. */
  predicate AllOf(s: Table, os: seq<nat>, id: nat) {
    forall o :: o in os && o in s.obligations ==> s.obligations[o].region == id
  }

  lemma SettlesOn(s: Table, t: Table, u: Table, root: nat, id: nat)
    requires Forest(s) && Forest(t) && Shrunk(s, t, root) && SettlesUpTo(s, t, id) && SettlesUpTo(t, u, id)
    ensures SettlesUpTo(s, u, id)
  {
    ParentsStay(s, t, root);
    forall q: nat | Closable(u, q) ensures Closable(s, q) || Under(s, q, id).Some? {
      if !Closable(t, q) {
        UnderIsLater(t, q, id);
        UnderStays(s, t, q, id);
      }
    }
  }

  lemma {:induction false} ResolveAllSettles(s: Table, os: seq<nat>, root: nat, id: nat)
    requires Rooted(s, root) && InTree(s, os, root) && AllOf(s, os, id)
    ensures SettlesUpTo(s, ResolveAll(s, os), id)
  {
    if os != [] {
      var init, o := os[..|os| - 1], os[|os| - 1];
      var t := ResolveAll(s, init);
      ResolveAllSettles(s, init, root, id);
      ResolveAllShrinks(s, init, root);
      if o in t.obligations {
        assert o in os && t.obligations[o].region == id;
        var u := Resolved(t, o);
        ResolvedShrinks(t, o, root);
        RootedStays(t, u, root);
        InnerAdvanceSettles(u, id, root);
        assert SettlesUpTo(t, u, id);
        SettlesOn(t, u, InnerAdvance(u, id), root, id);
        SettlesOn(s, t, InnerAdvance(u, id), root, id);
      }
    }
  }

  lemma LeaksShrink(s: Table, os: seq<nat>, root: nat)
    requires Rooted(s, root) && InTree(s, os, root)
    ensures var t := LeaksHandled(s, os);
            && Rooted(t, root) && Shrunk(s, t, root) && TasksStay(s, t) && Discharged(s, t, os)
            && (t.panicked ==> s.panicked || MayPanic(s.policy))
  {
    ShrunkReflexive(s, root);
    if os != [] {
      var counted := Counted(s, os);
      FlagsShrink(s, counted.leaks, s.panicked, root);
      RootedStays(s, counted, root);
      ResolveAllShrinks(counted, os, root);
      ResolveAllKeepsFlag(counted, os);
      var t := ResolveAll(counted, os);
      ShrunkTransitive(s, counted, t, root);
      FlagsShrink(t, t.leaks, true, root);
      ShrunkTransitive(s, t, t.(panicked := true), root);
      RootedStays(t, t.(panicked := true), root);
    }
  }

  lemma {:induction false} ResolveAllKeepsFlag(s: Table, os: seq<nat>)
    ensures ResolveAll(s, os).panicked == s.panicked
  {
    if os != [] {
      var t, o := ResolveAll(s, os[..|os| - 1]), os[|os| - 1];
      ResolveAllKeepsFlag(s, os[..|os| - 1]);
      if o in t.obligations {
        InnerAdvanceKeepsFlag(Resolved(t, o), t.obligations[o].region);
      }
    }
  }

  lemma {:induction false} InnerAdvanceKeepsFlag(s: Table, id: nat)
    ensures InnerAdvance(s, id).panicked == s.panicked
    decreases |s.regions|, id in s.regions && s.regions[id].phase != Finalizing
  {
    var (t, next) := InnerTurn(s, id);
    if next.Some? {
      InnerTurnDescends(s, id);
      InnerAdvanceKeepsFlag(t, next.value);
    }
  }

  /** Some leak count leads to a panic. */
  predicate MayPanic(policy: Policy) {
    policy.response == Panic || (policy.escalation.Some? && policy.escalation.value.1 == Panic)
  }

  // ------------------------------------------------------------ advancing

  lemma OfRegionMembers(s: Table, id: nat)
    requires Forest(s)
    ensures forall o :: o in OfRegion(s, id) <==> o in s.obligations && s.obligations[o].region == id
  {
    PickedMembers(s.obligations, (o: Obligation) => o.region == id, s.nextObligation);
    forall o | o in s.obligations ensures o < s.nextObligation { assert ObligationOk(s, o); }
  }

  lemma HeldByMembers(s: Table, task: nat)
    requires Forest(s)
    ensures forall o :: o in HeldBy(s, task) <==> o in s.obligations && s.obligations[o].holder == task
  {
    PickedMembers(s.obligations, (o: Obligation) => o.holder == task, s.nextObligation);
    forall o | o in s.obligations ensures o < s.nextObligation { assert ObligationOk(s, o); }
  }

  /** What is kept by handling the leaks of one region. */
  lemma RegionLeaks(s: Table, id: nat, root: nat)
    requires Rooted(s, root) && id >= root
    ensures var t := LeaksHandled(s, OfRegion(s, id));
            && Rooted(t, root) && Shrunk(s, t, root) && TasksStay(s, t) && SettlesUpTo(s, t, id)
            && !Pending(t, id)
            && (t.panicked ==> s.panicked || MayPanic(s.policy))
  {
    var os := OfRegion(s, id);
    OfRegionMembers(s, id);
    LeaksShrink(s, os, root);
    if os != [] {
      var counted := Counted(s, os);
      FlagsShrink(s, counted.leaks, s.panicked, root);
      RootedStays(s, counted, root);
      ResolveAllSettles(counted, os, root, id);
      ParentsStay(s, counted, root);
      var t := ResolveAll(counted, os);
      forall q: nat | Closable(t, q) && !Closable(s, q) ensures Under(s, q, id).Some? {
        assert !Closable(counted, q);
        UnderIsLater(counted, q, id);
        UnderStays(s, counted, q, id);
      }
    }
  }

  /** After finalizers and leaks, only an async finalizer or a task keeps an idle region. */
  lemma FinalizedSettles(s: Table, id: nat, root: nat)
    requires Rooted(s, root) && id >= root && id in s.regions && s.regions[id].phase == Finalizing
    ensures var t := Finalized(s, id);
            && Rooted(t, root) && Shrunk(s, t, root) && TasksStay(s, t) && SettlesUpTo(s, t, id)
            && (t.panicked ==> s.panicked || MayPanic(s.policy))
            && (!t.panicked && Closable(t, id) ==> CanClose(t, id))
  {
    var f := FinalizersRun(s, id);
    FinalizersShrink(s, id, root);
    if f.regions[id].finalizers == [] && TasksDone(f, id) {
      RegionLeaks(f, id, root);
      ShrunkTransitive(s, f, Finalized(s, id), root);
      assert SettlesUpTo(s, f, id);
      SettlesOn(s, f, Finalized(s, id), root, id);
      assert RegionKept(f, Finalized(s, id), root, id);
    }
  }

  /** The turn is over: the region can not close now. */
  lemma TurnSettles(s: Table, id: nat, root: nat)
    requires Rooted(s, root) && InReach(s, root, id)
    ensures var (t, next) := Turn(s, id);
            && Forest(t) && Shrunk(s, t, root) && TasksStay(s, t) && SettlesUpTo(s, t, id)
            && GoesUp(s, root, id, t, next)
            && (t.panicked ==> s.panicked || MayPanic(s.policy))
            && (!t.panicked && (next.None? || next.value != id) ==> !Closable(t, id))
  {
    ShrunkReflexive(s, root);
    if id in s.regions && s.regions[id].phase != Open {
      assert Under(s, id, id) == Some(0);
      if s.regions[id].phase == Finalizing {
        FinalizingTurnSettles(s, id, root);
      } else {
        DrainedSettles(s, id, root);
      }
    }
  }

  lemma FinalizingTurnSettles(s: Table, id: nat, root: nat)
    requires Rooted(s, root) && id >= root && id in s.regions && s.regions[id].phase == Finalizing
    ensures var (t, next) := Turn(s, id);
            && Forest(t) && Shrunk(s, t, root) && TasksStay(s, t) && SettlesUpTo(s, t, id)
            && GoesUp(s, root, id, t, next) && (next.Some? ==> next.value != id)
            && (t.panicked ==> s.panicked || MayPanic(s.policy))
            && (!t.panicked ==> !Closable(t, id))
  {
    var f := Finalized(s, id);
    FinalizedSettles(s, id, root);
    if !f.panicked {
      var (t, next) := ClosedIfPossible(f, id);
      CloseSettles(f, id, root);
      ShrunkTransitive(s, f, t, root);
      if next.Some? {
        assert RegionKept(s, f, root, id) && RegionOk(s, id);
        ClosingUp(s, f, t, id, next.value);
      }
    }
  }

  lemma ClosingUp(s: Table, f: Table, t: Table, id: nat, next: nat)
    requires Forest(s) && SettlesUpTo(s, f, id) && Settles(f, t, Some(next))
    requires id in s.regions && s.regions[id].parent == Some(next)
    ensures SettlesUpTo(s, t, id)
  {
    assert RegionOk(s, id) && Under(s, next, next) == Some(0) && Under(s, next, id).Some?;
  }

  lemma UpTheChain(s: Table, t: Table, u: Table, root: nat, id: nat, next: nat)
    requires Forest(s) && Forest(t) && Shrunk(s, t, root) && SettlesUpTo(s, t, id) && id in s.regions
    requires next == id || s.regions[id].parent == Some(next)
    requires SettlesUpTo(t, u, next)
    ensures SettlesUpTo(s, u, id)
    ensures next != id && !Closable(t, id) ==> !Closable(u, id)
  {
    ParentsStay(s, t, root);
    assert RegionOk(s, id);
    forall q: nat | Closable(u, q) && !Closable(t, q) ensures Under(s, q, next).Some? {
      UnderIsLater(t, q, next);
      UnderStays(s, t, q, next);
    }
    if next != id && Closable(u, id) && !Closable(t, id) {
      UnderIsLater(s, id, next);
    }
  }

  /**
   * Advancing a region of the tree keeps the forest and touches nothing outside the tree.
   * Unless a leak panics, the region itself cannot close afterwards, and whatever else has
   * become closable is an ancestor of it.
   */
  lemma {:induction false} AdvanceSettles(s: Table, id: nat, root: nat)
    requires Rooted(s, root) && InReach(s, root, id)
    ensures var t := Advance(s, id);
            && Rooted(t, root) && Shrunk(s, t, root) && TasksStay(s, t) && SettlesUpTo(s, t, id)
            && (t.panicked ==> s.panicked || MayPanic(s.policy))
            && (!t.panicked ==> !Closable(t, id))
    decreases |s.regions|, id in s.regions && s.regions[id].phase != Finalizing
  {
    ShrunkReflexive(s, root);
    if !s.panicked {
      var (t, next) := Turn(s, id);
      TurnSettles(s, id, root);
      RootedStays(s, t, root);
      if next.Some? {
        var u := Advance(t, next.value);
        TurnDescends(s, id);
        AdvanceSettles(t, next.value, root);
        ShrunkTransitive(s, t, u, root);
        UpTheChain(s, t, u, root, id, next.value);
      }
    }
  }

  // ------------------------------------------------------------ completing a task

  lemma {:induction false} AbortAllShrinks(s: Table, os: seq<nat>, root: nat)
    requires Rooted(s, root) && InTree(s, os, root)
    ensures var t := AbortAll(s, os);
            && Rooted(t, root) && Shrunk(s, t, root) && TasksStay(s, t)
            && (t.panicked ==> s.panicked || MayPanic(s.policy))
  {
    ShrunkReflexive(s, root);
    if os != [] {
      var t, o := AbortAll(s, os[..|os| - 1]), os[|os| - 1];
      AbortAllShrinks(s, os[..|os| - 1], root);
      if !t.panicked && o in t.obligations {
        assert ObligationKept(s, t, root, o) && o in os;
        var u, id := Resolved(t, o), t.obligations[o].region;
        ResolvedShrinks(t, o, root);
        RootedStays(t, u, root);
        AdvanceSettles(u, id, root);
        ShrunkTransitive(s, t, u, root);
        ShrunkTransitive(s, u, Advance(u, id), root);
      }
    }
  }

  lemma HeldByIsInTree(s: Table, task: nat, root: nat)
    requires Rooted(s, root) && task in s.tasks && s.tasks[task].owner >= root
    ensures InTree(s, HeldBy(s, task), root)
  {
    HeldByMembers(s, task);
    forall o | o in HeldBy(s, task) ensures s.obligations[o].region >= root { assert HeldIn(s, root, o); }
  }

  lemma ReleasedShrinks(s: Table, task: nat, root: nat)
    requires Rooted(s, root) && task in s.tasks && s.tasks[task].owner >= root
    ensures var t := Released(s, task);
            && Rooted(t, root) && Shrunk(s, t, root) && TasksStay(s, t)
            && (t.panicked ==> s.panicked || MayPanic(s.policy))
  {
    HeldByIsInTree(s, task, root);
    LeaksShrink(s, HeldBy(s, task), root);
    ShrunkReflexive(s, root);
    var t := if s.tasks[task].state == Done(true) then s else LeaksHandled(s, HeldBy(s, task));
    if !t.panicked {
      HeldByIsInTree(t, task, root);
      AbortAllShrinks(t, HeldBy(t, task), root);
      ShrunkTransitive(s, t, Released(s, task), root);
    }
  }

  lemma EndedShrinks(s: Table, task: nat, cancelled: bool, root: nat)
    requires Rooted(s, root) && (task in s.tasks ==> s.tasks[task].owner >= root)
    ensures Rooted(Ended(s, task, cancelled), root) && Shrunk(s, Ended(s, task, cancelled), root)
  {
    var t := Ended(s, task, cancelled);
    forall q | q in t.regions ensures RegionOk(t, q) { assert RegionOk(s, q); }
    forall x | x in t.tasks ensures TaskOk(t, x) { assert TaskOk(s, x); }
    forall o | o in t.obligations ensures ObligationOk(t, o) { assert ObligationOk(s, o); }
    RootedStays(s, t, root);
  }

  lemma TaskRemovedShrinks(s: Table, task: nat, root: nat)
    requires Rooted(s, root) && task in s.tasks && s.tasks[task].owner >= root
    ensures var t := TaskRemoved(s, task, s.tasks[task].owner); Rooted(t, root) && Shrunk(s, t, root)
  {
    var owner := s.tasks[task].owner;
    var t := TaskRemoved(s, task, owner);
    assert TaskOk(s, task);
    WithoutMembers(s.regions[owner].tasks, task);
    forall q | q in t.regions ensures RegionOk(t, q) { assert RegionOk(s, q); }
    forall x | x in t.tasks ensures TaskOk(t, x) { assert TaskOk(s, x); }
    forall o | o in t.obligations ensures ObligationOk(t, o) { assert ObligationOk(s, o); }
    RootedStays(s, t, root);
  }

  /** Completing a task of the tree removes it and changes nothing outside the tree. */
  lemma CompletedShrinks(s: Table, task: nat, root: nat)
    requires Rooted(s, root) && (task in s.tasks ==> s.tasks[task].owner >= root)
    ensures var t := Completed(s, task);
            && Rooted(t, root) && Shrunk(s, t, root)
            && (!t.panicked ==> t.tasks.Keys == s.tasks.Keys - {task})
            && (t.panicked ==> s.panicked || MayPanic(s.policy))
  {
    ShrunkReflexive(s, root);
    if !s.panicked && task in s.tasks {
      var t, owner := Released(s, task), s.tasks[task].owner;
      ReleasedShrinks(s, task, root);
      if !t.panicked {
        var u := TaskRemoved(t, task, owner);
        TaskRemovedShrinks(t, task, root);
        AdvanceSettles(u, owner, root);
        ShrunkTransitive(s, t, u, root);
        ShrunkTransitive(s, u, Advance(u, owner), root);
      }
    }
  }
}
