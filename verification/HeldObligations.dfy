/**
 * Obligations that are held properly never leak: while the holder of an obligation is a
 * task at or below the obligation's region, that region is not idle, so it does not get to
 * where leaks are looked for; and a task that ends cancelled has its obligations aborted.
 * So cleaning up does not panic, whatever the policy on leaks is.
 */
module HeldObligations {
  import opened Prelude
  import opened Regions
  import opened RegionClosing
  import opened RegionWalk
  import opened AppCleanup

  /** The holder is a task at or below the region, which is not finalizing. */
  predicate HeldBelow(s: Table, holder: nat, region: nat)
    requires Forest(s)
  {
    && holder in s.tasks && s.tasks[holder].state != Done(false)
    && Under(s, region, s.tasks[holder].owner).Some?
    && region in s.regions && s.regions[region].phase != Finalizing
  }

  predicate GuardedAt(s: Table, o: nat)
    requires Forest(s) && o in s.obligations
  {
    HeldBelow(s, s.obligations[o].holder, s.obligations[o].region)
  }

  /** Every obligation of the tree is held properly. */
  predicate Guarded(s: Table, root: nat)
    requires Forest(s)
  {
    forall o {:trigger GuardedAt(s, o)} :: o in s.obligations && s.obligations[o].region >= root ==> GuardedAt(s, o)
  }

  /** The region of an obligation that is held properly has a child or a task. */
  lemma GuardedIsBusy(s: Table, o: nat)
    requires Forest(s) && o in s.obligations && GuardedAt(s, o)
    ensures !Idle(s.regions[s.obligations[o].region])
  {
    var holder, region := s.obligations[o].holder, s.obligations[o].region;
    var owner := s.tasks[holder].owner;
    assert TaskOk(s, holder);
    if owner != region {
      var c := ThroughChild(s, region, owner);
    }
  }

  /** A finalizing region has no obligation to leak. */
  lemma NothingLeaks(s: Table, id: nat, root: nat)
    requires Forest(s) && Guarded(s, root) && id >= root && id in s.regions && s.regions[id].phase == Finalizing
    ensures OfRegion(s, id) == []
  {
    OfRegionMembers(s, id);
    var os := OfRegion(s, id);
    assert forall o :: o in s.obligations && s.obligations[o].region == id ==> GuardedAt(s, o);
    FirstIsIn(os);
  }

  lemma FirstIsIn(os: seq<nat>)
    ensures os == [] || os[0] in os
  {
  }

  // ------------------------------------------------------------ advancing

  /** Nothing begins to finalize but what was idle. */
  ghost predicate OnlyIdleFinalize(s: Table, t: Table) {
    forall q :: q in t.regions && t.regions[q].phase == Finalizing ==>
      q in s.regions && (s.regions[q].phase == Finalizing || Idle(s.regions[q]))
  }

  /** Obligations stay or leave, tasks stay, and only idle regions begin to finalize. */
  ghost predicate Carries(s: Table, t: Table) {
    && SameParents(s, t) && t.tasks == s.tasks
    && (forall o :: o in t.obligations ==> o in s.obligations && t.obligations[o] == s.obligations[o])
    && OnlyIdleFinalize(s, t)
  }

  lemma CarriedIsGuarded(s: Table, t: Table, root: nat)
    requires Forest(s) && Forest(t) && Guarded(s, root) && Carries(s, t)
    ensures Guarded(t, root)
  {
    forall o | o in t.obligations && t.obligations[o].region >= root ensures GuardedAt(t, o) {
      assert GuardedAt(s, o) && ObligationOk(t, o);
      var holder, region := s.obligations[o].holder, s.obligations[o].region;
      assert TaskOk(t, holder);
      UnderStays(s, t, region, t.tasks[holder].owner);
      GuardedIsBusy(s, o);
    }
  }

  lemma DrainedOnlyIdle(s: Table, id: nat)
    requires id in s.regions
    ensures var t := Drained(s, id).0; OnlyIdleFinalize(s, t) && t.panicked == s.panicked
  {
  }

  lemma ClosedOnlyIdle(s: Table, id: nat)
    ensures var t := ClosedIfPossible(s, id).0; OnlyIdleFinalize(s, t) && t.panicked == s.panicked
  {
  }

  lemma FinalizersOnlyIdle(s: Table, t: Table, id: nat)
    requires id in s.regions && OnlyIdleFinalize(FinalizersRun(s, id), t)
    ensures OnlyIdleFinalize(s, t)
  {
  }

  /** A turn leaks nothing. */
  lemma TurnLeaksNothing(s: Table, id: nat, root: nat)
    requires Rooted(s, root) && InReach(s, root, id) && Guarded(s, root)
    ensures var t := Turn(s, id).0;
            OnlyIdleFinalize(s, t) && t.obligations == s.obligations && t.panicked == s.panicked
  {
    if id in s.regions && s.regions[id].phase == Finalizing {
      var f := FinalizersRun(s, id);
      assert OfRegion(f, id) == OfRegion(s, id);
      NothingLeaks(s, id, root);
      assert Finalized(s, id) == f;
      ClosedOnlyIdle(f, id);
      FinalizersOnlyIdle(s, Turn(s, id).0, id);
    } else if id in s.regions && s.regions[id].phase != Open {
      DrainedOnlyIdle(s, id);
    }
  }

  lemma TurnStaysGuarded(s: Table, id: nat, root: nat)
    requires Rooted(s, root) && InReach(s, root, id) && Guarded(s, root)
    ensures var t := Turn(s, id).0;
            && Rooted(t, root) && Shrunk(s, t, root) && t.tasks == s.tasks
            && Guarded(t, root) && t.obligations == s.obligations && t.panicked == s.panicked
  {
    var t := Turn(s, id).0;
    TurnSettles(s, id, root);
    RootedStays(s, t, root);
    ParentsStay(s, t, root);
    TurnLeaksNothing(s, id, root);
    CarriedIsGuarded(s, t, root);
  }

  lemma {:induction false} AdvanceStaysGuarded(s: Table, id: nat, root: nat)
    requires Rooted(s, root) && InReach(s, root, id) && Guarded(s, root)
    ensures var t := Advance(s, id);
            && Rooted(t, root) && Shrunk(s, t, root) && t.tasks == s.tasks
            && Guarded(t, root) && t.obligations == s.obligations && t.panicked == s.panicked
    decreases |s.regions|, id in s.regions && s.regions[id].phase != Finalizing
  {
    ShrunkReflexive(s, root);
    if !s.panicked {
      var (t, next) := Turn(s, id);
      TurnSettles(s, id, root);
      TurnStaysGuarded(s, id, root);
      if next.Some? {
        TurnDescends(s, id);
        AdvanceStaysGuarded(t, next.value, root);
        ShrunkTransitive(s, t, Advance(t, next.value), root);
      }
    }
  }

  // ------------------------------------------------------------ resolving and completing

  lemma ResolvedStaysGuarded(s: Table, o: nat, root: nat)
    requires Rooted(s, root) && Guarded(s, root) && o in s.obligations && s.obligations[o].region >= root
    ensures Rooted(Resolved(s, o), root) && Shrunk(s, Resolved(s, o), root) && Guarded(Resolved(s, o), root)
  {
    ResolvedShrinks(s, o, root);
    RootedStays(s, Resolved(s, o), root);
    CarriedIsGuarded(s, Resolved(s, o), root);
  }

  lemma {:induction false} AbortAllStaysGuarded(s: Table, os: seq<nat>, root: nat)
    requires Rooted(s, root) && Guarded(s, root) && InTree(s, os, root) && !s.panicked
    ensures var t := AbortAll(s, os);
            && Rooted(t, root) && Shrunk(s, t, root) && t.tasks == s.tasks
            && Guarded(t, root) && Discharged(s, t, os) && !t.panicked
  {
    ShrunkReflexive(s, root);
    if os != [] {
      var init, o := os[..|os| - 1], os[|os| - 1];
      assert os == init + [o];
      var t := AbortAll(s, init);
      AbortAllStaysGuarded(s, init, root);
      DischargeMore(s, t, init, o);
      if o in t.obligations {
        assert ObligationKept(s, t, root, o);
        var u, id := Resolved(t, o), t.obligations[o].region;
        ResolvedStaysGuarded(t, o, root);
        AdvanceStaysGuarded(u, id, root);
        ShrunkTransitive(s, t, u, root);
        ShrunkTransitive(s, u, Advance(u, id), root);
      }
    }
  }

  /** Nothing of the tree is held by the task. */
  predicate HoldsNothing(s: Table, task: nat) { forall o :: o in s.obligations ==> s.obligations[o].holder != task }

  /** The first half of `task_completed`, for a task that was cancelled or holds nothing. */
  lemma ReleasedStaysGuarded(s: Table, task: nat, root: nat)
    requires Rooted(s, root) && Guarded(s, root) && !s.panicked && task in s.tasks && s.tasks[task].owner >= root
    requires s.tasks[task].state == Done(true) || HoldsNothing(s, task)
    ensures var t := Released(s, task);
            && Rooted(t, root) && Shrunk(s, t, root) && t.tasks == s.tasks
            && Guarded(t, root) && HoldsNothing(t, task) && !t.panicked
  {
    HeldByMembers(s, task);
    HeldByIsInTree(s, task, root);
    FirstIsIn(HeldBy(s, task));
    AbortAllStaysGuarded(s, HeldBy(s, task), root);
  }

  lemma TaskRemovedStaysGuarded(s: Table, task: nat, root: nat)
    requires Rooted(s, root) && Guarded(s, root) && task in s.tasks && s.tasks[task].owner >= root
    requires HoldsNothing(s, task)
    ensures var t := TaskRemoved(s, task, s.tasks[task].owner);
            Rooted(t, root) && Shrunk(s, t, root) && Guarded(t, root)
  {
    var t := TaskRemoved(s, task, s.tasks[task].owner);
    TaskRemovedShrinks(s, task, root);
    ParentsStay(s, t, root);
    forall o | o in t.obligations && t.obligations[o].region >= root ensures GuardedAt(t, o) {
      assert GuardedAt(s, o);
      var owner := s.tasks[s.obligations[o].holder].owner;
      assert TaskOk(s, s.obligations[o].holder);
      UnderStays(s, t, s.obligations[o].region, owner);
    }
  }

  /** Completing a task that was cancelled, or holds nothing, leaks nothing. */
  lemma CompletedStaysGuarded(s: Table, task: nat, root: nat)
    requires Rooted(s, root) && Guarded(s, root) && !s.panicked
    requires task in s.tasks ==>
               s.tasks[task].owner >= root && (s.tasks[task].state == Done(true) || HoldsNothing(s, task))
    ensures var t := Completed(s, task); Rooted(t, root) && Guarded(t, root) && !t.panicked
  {
    if task in s.tasks {
      var t, owner := Released(s, task), s.tasks[task].owner;
      ReleasedStaysGuarded(s, task, root);
      TaskRemovedStaysGuarded(t, task, root);
      AdvanceStaysGuarded(TaskRemoved(t, task, owner), owner, root);
    }
  }

  /** Ending a task cancelled, or one that holds nothing in whatever way; the first end counts. */
  lemma EndedStaysGuarded(s: Table, task: nat, cancelled: bool, root: nat)
    requires Rooted(s, root) && Guarded(s, root) && (task in s.tasks ==> s.tasks[task].owner >= root)
    requires cancelled || HoldsNothing(s, task) || (task in s.tasks && s.tasks[task].state.Done?)
    ensures var t := Ended(s, task, cancelled);
            && Rooted(t, root) && Guarded(t, root)
            && (task in t.tasks ==> t.tasks[task].state == Done(true) || HoldsNothing(t, task))
  {
    var t := Ended(s, task, cancelled);
    EndedShrinks(s, task, cancelled, root);
    forall o | o in t.obligations && t.obligations[o].region >= root ensures GuardedAt(t, o) {
      assert GuardedAt(s, o);
      UnderStays(s, t, s.obligations[o].region, s.tasks[s.obligations[o].holder].owner);
    }
    forall o | o in s.obligations && task in s.tasks && s.tasks[task].state == Done(false)
      ensures s.obligations[o].holder != task
    {
      assert HeldIn(s, root, o);
      if s.obligations[o].region >= root { assert GuardedAt(s, o); }
    }
  }

  // ------------------------------------------------------------ cleaning up

  lemma {:induction false} DropAllStaysGuarded(s: Table, tasks: seq<nat>, root: nat)
    requires Rooted(s, root) && Guarded(s, root) && !s.panicked && OwnedLater(s, tasks, root)
    ensures var t := DropAll(s, tasks); Rooted(t, root) && Guarded(t, root) && !t.panicked
  {
    if tasks != [] {
      var init, last := tasks[..|tasks| - 1], tasks[|tasks| - 1];
      var t := DropAll(s, init);
      DropAllStaysGuarded(s, init, root);
      DropAllShrinks(s, init, root);
      assert TaskKept(s, t, root, last) && last in tasks;
      EndedStaysGuarded(t, last, true, root);
      CompletedStaysGuarded(Ended(t, last, true), last, root);
    }
  }

  lemma {:induction false} AdvanceIdleStaysGuarded(s: Table, nodes: seq<Node>, root: nat)
    requires Rooted(s, root) && Guarded(s, root) && !s.panicked && AllLater(nodes, root)
    ensures var t := AdvanceIdle(s, nodes); Rooted(t, root) && Guarded(t, root) && !t.panicked
  {
    if nodes != [] {
      AdvanceIdleStaysGuarded(s, nodes[..|nodes| - 1], root);
      AdvanceStaysGuarded(AdvanceIdle(s, nodes[..|nodes| - 1]), nodes[|nodes| - 1].id, root);
    }
  }

  lemma {:induction false} AdvanceAllStaysGuarded(s: Table, nodes: seq<Node>, root: nat)
    requires Rooted(s, root) && Guarded(s, root) && !s.panicked && AllLater(nodes, root)
    ensures var t := AdvanceAll(s, nodes); Rooted(t, root) && Guarded(t, root) && !t.panicked
  {
    if nodes != [] {
      AdvanceAllStaysGuarded(s, nodes[..|nodes| - 1], root);
      AdvanceStaysGuarded(AdvanceAll(s, nodes[..|nodes| - 1]), nodes[|nodes| - 1].id, root);
    }
  }

  lemma CancelledStaysGuarded(s: Table, root: nat, id: nat)
    requires Rooted(s, root) && Guarded(s, root) && !s.panicked && id >= root
    ensures var t := Cancelled(s, id); Rooted(t, root) && Guarded(t, root) && !t.panicked
  {
    var nodes, c := ShallowestFirst(Tree(s, id)), Closed(s, id);
    TreeIsLater(s, root, id);
    CancelledKeeps(s, root, id);
    CloseAllOnlyCloses(s, nodes);
    CarriedIsGuarded(s, c, root);
    AdvanceIdleStaysGuarded(c, nodes, root);
  }

  lemma EmptiedStaysGuarded(s: Table, root: nat)
    requires Rooted(s, root) && Guarded(s, root) && !s.panicked
    ensures var t := Emptied(s, root); Rooted(t, root) && Guarded(t, root) && !t.panicked
  {
    var tasks := TasksOf(s, Tree(s, root));
    forall x | x in s.tasks ensures x in tasks <==> s.tasks[x].owner >= root { TreeTasks(s, root, x); }
    DropAllStaysGuarded(s, tasks, root);
  }

  lemma {:induction false} SweptStaysGuarded(s: Table, root: nat, previous: nat)
    requires Rooted(s, root) && Guarded(s, root) && !s.panicked && |s.regions| <= previous
    ensures !Swept(s, root, previous).panicked
    decreases previous
  {
    if root in s.regions && |s.regions| != previous {
      PassSettles(s, root);
      ShrunkIsNoLarger(s, Pass(s, root), root);
      TreeIsLater(s, root, root);
      AdvanceAllStaysGuarded(s, DeepestFirst(Tree(s, root)), root);
      SweptStaysGuarded(Pass(s, root), root, |s.regions|);
    }
  }

  /**
   * Under every policy, the one that panics on every leak included: cleaning up a tree
   * whose obligations are all held properly never panics.
   */
  lemma CleanupNeverPanics(s: Table, root: nat)
    requires Rooted(s, root) && |s.regions| < USIZE_MAX && !s.panicked && Guarded(s, root)
    ensures !CleanedUp(s, root).panicked
  {
    EmptiedIsNoLarger(s, root);
    CancelledStaysGuarded(s, root, root);
    EmptiedStaysGuarded(Cancelled(s, root), root);
    SweptStaysGuarded(Emptied(Cancelled(s, root), root), root, USIZE_MAX);
  }
}
