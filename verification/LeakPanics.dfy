/**
 * Cleaning up under the policy that panics on every leak: an obligation of the tree whose
 * holder no longer exists can only leave as a leak, so it makes the clean-up panic, unless
 * an async finalizer keeps its region; one that is held properly never does.
 */
module LeakPanics {
  import opened Prelude
  import opened Regions
  import opened RegionClosing
  import opened RegionWalk
  import opened AppCleanup
  import opened HeldObligations
  import opened AppStart

  predicate AlwaysPanics(policy: Policy) { policy.response == Panic && policy.escalation.None? }

  lemma HandlingPanics(s: Table, os: seq<nat>)
    requires AlwaysPanics(s.policy)
    ensures os != [] ==> LeaksHandled(s, os).panicked
  {
  }

  lemma FinalizedKeepsObligations(s: Table, id: nat)
    requires AlwaysPanics(s.policy) && id in s.regions
    ensures var t := Finalized(s, id);
            !t.panicked ==> t.obligations == s.obligations && t.policy == s.policy
  {
    HandlingPanics(FinalizersRun(s, id), OfRegion(FinalizersRun(s, id), id));
  }

  lemma {:induction false} AdvanceKeepsObligations(s: Table, id: nat)
    requires AlwaysPanics(s.policy)
    ensures var t := Advance(s, id);
            !t.panicked ==> t.obligations == s.obligations && t.policy == s.policy
    decreases |s.regions|, id in s.regions && s.regions[id].phase != Finalizing
  {
    if !s.panicked {
      var (t, next) := Turn(s, id);
      if id in s.regions {
        FinalizedKeepsObligations(s, id);
      }
      if next.Some? {
        TurnDescends(s, id);
        AdvanceKeepsObligations(t, next.value);
      }
    }
  }

  /** Obligations that no task in `gone` holds are kept, unless there was a panic. */
  ghost predicate OthersHeld(s: Table, t: Table, gone: set<nat>) {
    !t.panicked ==>
      && t.policy == s.policy && !s.panicked
      && forall o {:trigger o in t.obligations} {:trigger s.obligations[o]} ::
           o in s.obligations && s.obligations[o].holder !in gone ==>
               o in t.obligations && t.obligations[o] == s.obligations[o]
  }

  lemma HeldTransitive(s: Table, t: Table, u: Table, gone: set<nat>, more: set<nat>)
    requires OthersHeld(s, t, gone) && OthersHeld(t, u, more)
    ensures OthersHeld(s, u, gone + more)
  {
  }

  lemma {:induction false} AbortKeepsOthers(s: Table, os: seq<nat>, task: nat)
    requires AlwaysPanics(s.policy) && !s.panicked
    requires forall o :: o in os && o in s.obligations ==> s.obligations[o].holder == task
    ensures OthersHeld(s, AbortAll(s, os), {task})
    ensures forall o :: o in AbortAll(s, os).obligations ==> o in s.obligations || AbortAll(s, os).panicked
  {
    if os != [] {
      var t, o := AbortAll(s, os[..|os| - 1]), os[|os| - 1];
      AbortKeepsOthers(s, os[..|os| - 1], task);
      if !t.panicked && o in t.obligations {
        assert o in os;
        AdvanceKeepsObligations(Resolved(t, o), t.obligations[o].region);
      }
    }
  }

  lemma CompletedKeepsOthers(s: Table, task: nat)
    requires AlwaysPanics(s.policy) && !s.panicked
    ensures OthersHeld(s, Completed(s, task), {task})
  {
    if task in s.tasks {
      PickedMembers(s.obligations, (o: Obligation) => o.holder == task, s.nextObligation);
      HandlingPanics(s, HeldBy(s, task));
      if !Released(s, task).panicked {
        AbortKeepsOthers(s, HeldBy(s, task), task);
        AdvanceKeepsObligations(TaskRemoved(Released(s, task), task, s.tasks[task].owner), s.tasks[task].owner);
      }
    }
  }

  lemma {:induction false} DropAllKeepsOthers(s: Table, tasks: seq<nat>)
    requires AlwaysPanics(s.policy) && !s.panicked
    ensures OthersHeld(s, DropAll(s, tasks), set x | x in tasks)
  {
    if tasks != [] {
      var init, last := tasks[..|tasks| - 1], tasks[|tasks| - 1];
      assert tasks == init + [last];
      var t := DropAll(s, init);
      DropAllKeepsOthers(s, init);
      if !t.panicked {
        CompletedKeepsOthers(Ended(t, last, true), last);
        HeldTransitive(s, t, DropAll(s, tasks), set x | x in init, {last});
        assert (set x | x in tasks) == (set x | x in init) + {last};
      }
    }
  }

  lemma {:induction false} CloseAllKeepsObligations(s: Table, nodes: seq<Node>)
    ensures CloseAll(s, nodes).obligations == s.obligations && CloseAll(s, nodes).policy == s.policy
    ensures CloseAll(s, nodes).panicked == s.panicked
  {
    if nodes != [] {
      CloseAllKeepsObligations(s, nodes[..|nodes| - 1]);
    }
  }

  lemma {:induction false} AdvanceIdleKeepsObligations(s: Table, nodes: seq<Node>)
    requires AlwaysPanics(s.policy) && !s.panicked
    ensures var t := AdvanceIdle(s, nodes); !t.panicked ==> t.obligations == s.obligations && t.policy == s.policy
  {
    if nodes != [] {
      var t := AdvanceIdle(s, nodes[..|nodes| - 1]);
      AdvanceIdleKeepsObligations(s, nodes[..|nodes| - 1]);
      if !t.panicked {
        AdvanceKeepsObligations(t, nodes[|nodes| - 1].id);
      } else {
        assert Advance(t, nodes[|nodes| - 1].id) == t;
      }
    }
  }

  lemma {:induction false} AdvanceAllKeepsObligations(s: Table, nodes: seq<Node>)
    requires AlwaysPanics(s.policy) && !s.panicked
    ensures var t := AdvanceAll(s, nodes); !t.panicked ==> t.obligations == s.obligations && t.policy == s.policy
  {
    if nodes != [] {
      var t := AdvanceAll(s, nodes[..|nodes| - 1]);
      AdvanceAllKeepsObligations(s, nodes[..|nodes| - 1]);
      if !t.panicked {
        AdvanceKeepsObligations(t, nodes[|nodes| - 1].id);
      }
    }
  }

  lemma {:induction false} SweptKeepsObligations(s: Table, root: nat, previous: nat)
    requires Rooted(s, root) && |s.regions| <= previous && AlwaysPanics(s.policy) && !s.panicked
    ensures var t := Swept(s, root, previous); !t.panicked ==> t.obligations == s.obligations
    decreases previous
  {
    if root in s.regions && |s.regions| != previous {
      PassSettles(s, root);
      ShrunkIsNoLarger(s, Pass(s, root), root);
      AdvanceAllKeepsObligations(s, DeepestFirst(Tree(s, root)));
      if !Pass(s, root).panicked {
        SweptKeepsObligations(Pass(s, root), root, |s.regions|);
      }
    }
  }

  /** Without a panic, every obligation is kept whose holder is not among the tasks. */
  lemma CleanupKeepsOrphans(s: Table, root: nat, o: nat)
    requires Rooted(s, root) && |s.regions| < USIZE_MAX && !s.panicked && AlwaysPanics(s.policy)
    requires o in s.obligations && s.obligations[o].holder !in s.tasks && !CleanedUp(s, root).panicked
    ensures o in CleanedUp(s, root).obligations && CleanedUp(s, root).obligations[o] == s.obligations[o]
  {
    var nodes := ShallowestFirst(Tree(s, root));
    CancelledKeeps(s, root, root);
    EmptiedIsNoLarger(s, root);
    CloseAllKeepsObligations(s, nodes);
    AdvanceIdleKeepsObligations(Closed(s, root), nodes);
    var d := Cancelled(s, root);
    var e := Emptied(d, root);
    var tasks := TasksOf(d, Tree(d, root));
    assert !e.panicked && !d.panicked by { PanicsStay(s, root); }
    DropAllKeepsOthers(d, tasks);
    assert s.obligations[o].holder !in tasks by { OnlyTasksAreDropped(d, root, s.obligations[o].holder); }
    SweptKeepsObligations(e, root, USIZE_MAX);
  }

  lemma OnlyTasksAreDropped(d: Table, root: nat, x: nat)
    requires Forest(d)
    ensures x in TasksOf(d, Tree(d, root)) ==> x in d.tasks
  {
    TasksOfMembers(d, Tree(d, root), x);
    if x in TasksOf(d, Tree(d, root)) {
      var n :| n in Tree(d, root) && n.id in d.regions && x in d.regions[n.id].tasks;
      assert RegionOk(d, n.id);
    }
  }

  lemma SweepingStaysPanicked(s: Table, root: nat, previous: nat)
    requires Rooted(s, root) && |s.regions| <= previous
    ensures s.panicked ==> Swept(s, root, previous).panicked
  {
  }

  lemma {:induction false} DroppingStaysPanicked(s: Table, tasks: seq<nat>)
    requires s.panicked
    ensures DropAll(s, tasks) == s
  {
    if tasks != [] {
      DroppingStaysPanicked(s, tasks[..|tasks| - 1]);
    }
  }

  /** Once panicked, the clean-up does nothing more. */
  lemma PanicsStay(s: Table, root: nat)
    requires Rooted(s, root) && |s.regions| < USIZE_MAX && !s.panicked && !CleanedUp(s, root).panicked
    ensures Rooted(Cancelled(s, root), root) && !Cancelled(s, root).panicked &&
        !Emptied(Cancelled(s, root), root).panicked
  {
    EmptiedIsNoLarger(s, root);
    var d := Cancelled(s, root);
    if d.panicked {
      DroppingStaysPanicked(d, TasksOf(d, Tree(d, root)));
    }
    SweepingStaysPanicked(Emptied(d, root), root, USIZE_MAX);
  }

  /** The holder of the obligation is no task any more. */
  predicate Orphan(s: Table, o: nat)
    requires o in s.obligations
  {
    s.obligations[o].holder !in s.tasks
  }

  /**
   * Under the policy that panics on every leak, an obligation of the tree without a holder
   * makes the clean-up panic, if nothing at or below its region waits for an async finalizer.
   */
  lemma OrphanPanics(s: Table, root: nat, o: nat)
    requires Rooted(s, root) && |s.regions| < USIZE_MAX && !s.panicked && AlwaysPanics(s.policy)
    requires o in s.obligations && s.obligations[o].region >= root && Orphan(s, o)
    requires !Stuck(s, s.obligations[o].region)
    ensures CleanedUp(s, root).panicked
  {
    var t := CleanedUp(s, root);
    CleanupIsExact(s, root);
    RegionsOfObligations(s);
    RegionsOfObligations(t);
    if !t.panicked {
      CleanupKeepsOrphans(s, root, o);
    }
  }

  /** Some obligation of the tree has no holder. */
  predicate AnyOrphan(s: Table, root: nat) {
    exists o :: o in s.obligations && s.obligations[o].region >= root && Orphan(s, o)
  }

  /**
   * When every obligation of the tree is either held properly, or an orphan of a region that
   * is free to close, then under that policy the clean-up panics if and only if there is an
   * orphan.
   */
  lemma PanicsExactly(s: Table, root: nat)
    requires Rooted(s, root) && |s.regions| < USIZE_MAX && !s.panicked && AlwaysPanics(s.policy)
    requires forall o :: o in s.obligations && s.obligations[o].region >= root ==>
               GuardedAt(s, o) || (Orphan(s, o) && !Stuck(s, s.obligations[o].region))
    ensures CleanedUp(s, root).panicked <==> AnyOrphan(s, root)
  {
    if AnyOrphan(s, root) {
      var o :| o in s.obligations && s.obligations[o].region >= root && Orphan(s, o);
      assert !GuardedAt(s, o);
      OrphanPanics(s, root, o);
    } else {
      assert Guarded(s, root);
      CleanupNeverPanics(s, root);
    }
  }

  lemma RegionsOfObligations(t: Table)
    requires Forest(t)
    ensures forall o :: o in t.obligations ==> t.obligations[o].region in t.regions
  {
    forall o | o in t.obligations ensures t.obligations[o].region in t.regions { assert ObligationOk(t, o); }
  }

  // ------------------------------------------------------------ a start that panics

  lemma OnlyAnObligation(s: Table, parent: nat, holder: nat)
    requires Forest(s) && WithChild(s, parent).Ok? && !s.panicked && holder < s.nextTask
    ensures var c, root := WithChild(s, parent).value, s.nextRegion;
            AfterSetUp(s, parent, [Reserve(root, holder)]) == Reserved(c, root, holder)
  {
    var xs := [Reserve(s.nextRegion, holder)];
    CreatedKeeps(s, parent);
    assert xs[..0] == [] && SetUp(WithChild(s, parent).value, s.nextRegion, []) == WithChild(s, parent).value;
  }

  lemma FreshRootIsFree(s: Table, parent: nat, u: Table)
    requires Forest(s) && WithChild(s, parent).Ok? && Forest(u) && u.regions == WithChild(s, parent).value.regions
    ensures !Stuck(u, s.nextRegion)
  {
    NextIsFresh(s);
    forall b | b in u.regions && Under(u, s.nextRegion, b).Some? ensures !Blocked(u.regions[b]) {
      UnderIsLater(u, s.nextRegion, b);
    }
  }

  /**
   * A single obligation for a task that is gone is enough: under the policy that panics on
   * every leak, the failed start panics.
   */
  lemma ReservedForNobodyPanics(s: Table, parent: nat, holder: nat)
    requires Forest(s) && |s.regions| + 2 < USIZE_MAX && !s.panicked && AlwaysPanics(s.policy)
    requires WithChild(s, parent).Ok? && holder < s.nextTask && holder !in s.tasks
    ensures Started(s, parent, [Reserve(s.nextRegion, holder)], true).1 == Panicked
  {
    var xs, root, c := [Reserve(s.nextRegion, holder)], s.nextRegion, WithChild(s, parent).value;
    CreatedKeeps(s, parent);
    OnlyAnObligation(s, parent, holder);
    var u := AfterSetUp(s, parent, xs);
    SetUpKeeps(c, root, xs);
    FreshRootIsFree(s, parent, u);
    assert u.obligations[c.nextObligation] == Obligation(holder, root) && Orphan(u, c.nextObligation);
    OrphanPanics(u, root, c.nextObligation);
  }
}
