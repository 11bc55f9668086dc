/**
 * When leaks are counted, when they escalate, and what the phases of a closing region are:
 * laws of patches/asupersync/src/runtime/state.rs:1144-1245, 1651-1866 and 1930-2395.
 */
module LeakAccounts {
  import opened Prelude
  import opened Regions
  import opened RegionClosing
  import opened RegionWalk
  import opened AppCleanup

  // ------------------------------------------------------------ counting and escalating

  lemma {:induction false} InnerAdvanceCountsNothing(s: Table, id: nat)
    ensures InnerAdvance(s, id).leaks == s.leaks && InnerAdvance(s, id).policy == s.policy
    decreases |s.regions|, id in s.regions && s.regions[id].phase != Finalizing
  {
    var (t, next) := InnerTurn(s, id);
    if next.Some? {
      InnerTurnDescends(s, id);
      InnerAdvanceCountsNothing(t, next.value);
    }
  }

  lemma {:induction false} ResolvingCountsNothing(s: Table, os: seq<nat>)
    ensures ResolveAll(s, os).leaks == s.leaks && ResolveAll(s, os).policy == s.policy
  {
    if os != [] {
      var t, o := ResolveAll(s, os[..|os| - 1]), os[|os| - 1];
      ResolvingCountsNothing(s, os[..|os| - 1]);
      if o in t.obligations {
        InnerAdvanceCountsNothing(Resolved(t, o), t.obligations[o].region);
      }
    }
  }

  /** Handling leaks counts each of them once, up to saturation, and no others. */
  lemma LeaksAreCounted(s: Table, os: seq<nat>)
    ensures LeaksHandled(s, os).leaks == if os == [] || s.leaks + |os| <= U64_MAX then s.leaks + |os| else U64_MAX
  {
    if os != [] {
      ResolvingCountsNothing(Counted(s, os), os);
    }
  }

  /**
   * Escalation starts with the leak that reaches the threshold: a policy that only logs
   * until then panics from that one on, and one that relents then panics up to that one.
   */
  lemma EscalationIsExact(s: Table, os: seq<nat>, threshold: nat)
    requires os != [] && !s.panicked && s.leaks + |os| <= U64_MAX
    ensures s.policy == Policy(Log, Some((threshold, Panic))) ==>
              (LeaksHandled(s, os).panicked <==> s.leaks + |os| >= threshold)
    ensures s.policy == Policy(Panic, Some((threshold, Log))) ==>
              (LeaksHandled(s, os).panicked <==> s.leaks + |os| < threshold)
    ensures s.policy == Policy(Panic, None) ==> LeaksHandled(s, os).panicked
    ensures s.policy.response != Panic && s.policy.escalation.None? ==> !LeaksHandled(s, os).panicked
  {
    ResolveAllKeepsFlag(Counted(s, os), os);
  }

  // ------------------------------------------------------------ tasks that end uncancelled

  /**
   * A task that ends otherwise than cancelled leaks what it still holds: that is counted,
   * and under the policy that panics on every leak it panics.
   */
  lemma UncancelledTaskLeaks(s: Table, task: nat)
    requires Forest(s) && !s.panicked && task in s.tasks && s.tasks[task].state != Done(true)
    requires s.policy == Policy(Panic, None) && exists o :: o in s.obligations && s.obligations[o].holder == task
    ensures Completed(s, task).panicked
    ensures s.leaks + |HeldBy(s, task)| <= U64_MAX ==> Completed(s, task).leaks == s.leaks + |HeldBy(s, task)|
  {
    HeldByMembers(s, task);
    var o :| o in s.obligations && s.obligations[o].holder == task;
    assert o in HeldBy(s, task);
    LeaksAreCounted(s, HeldBy(s, task));
  }

  // ------------------------------------------------------------ phases

  /** A closing region with children waits for them, draining. */
  lemma ClosingWithChildrenDrains(s: Table, id: nat)
    requires !s.panicked && id in s.regions && s.regions[id].children != []
    requires s.regions[id].phase == Closing || s.regions[id].phase == Draining
    ensures Advance(s, id) == Put(s, id, s.regions[id].(phase := Draining))
  {
    assert s.regions[id].phase == Draining ==> Put(s, id, s.regions[id].(phase := Draining)) == s;
  }

  /** A closing region that only tasks keep open waits as it is. */
  lemma ClosingWithTasksWaits(s: Table, id: nat)
    requires !s.panicked && id in s.regions && s.regions[id].children == [] && s.regions[id].tasks != []
    requires s.regions[id].phase == Closing || s.regions[id].phase == Draining
    ensures Advance(s, id) == s
  {
  }

  /** A closing region without children or tasks does not stay in Closing. */
  lemma IdleLeavesClosing(s: Table, id: nat, root: nat)
    requires Rooted(s, root) && id >= root && id in s.regions && s.regions[id].phase == Closing && Idle(s.regions[id])
    requires !s.panicked
    ensures var t := Advance(s, id); id in t.regions ==> t.regions[id].phase == Finalizing
  {
    var b := Begun(s, id);
    TurnSettles(s, id, root);
    RootedStays(s, b, root);
    AdvanceSettles(b, id, root);
    TurnDescends(s, id);
    assert Advance(s, id) == Advance(b, id);
    assert RegionKept(b, Advance(b, id), root, id);
  }

  lemma LoneTree(s: Table, root: nat)
    requires Forest(s) && root in s.regions && s.regions[root].children == []
    ensures Tree(s, root) == [Node(root, 0)] && ShallowestFirst(Tree(s, root)) == [Node(root, 0)]
  {
    var n := Node(root, 0);
    assert [n][..0] == [] && ChildNodes(s, n) == [] && [] + ChildNodes(s, n) == [];
    assert Walk(s, [n], 0) == [n];
    assert Height([n]) == 1 && Level([n], 0) == [n];
    assert Ascending([n], 0) == [] && Ascending([n], 1) == [] + [n];
  }

  /**
   * A cancel closes nothing by itself: an open region without children, tasks and finalizers
   * is Closing afterwards, and still there.
   */
  lemma CancelOnlyBegins(s: Table, root: nat)
    requires Forest(s) && !s.panicked && root in s.regions && s.regions[root].phase == Open
    requires Idle(s.regions[root]) && s.regions[root].finalizers == []
    ensures Cancelled(s, root) == Put(s, root, s.regions[root].(phase := Closing))
  {
    LoneTree(s, root);
    var nodes := [Node(root, 0)];
    assert nodes[..0] == [];
    assert CloseAll(s, []) == s && Closed(s, root) == WithPhase(s, root);
    var c := WithPhase(s, root);
    assert AdvanceIdle(c, []) == c && AdvanceIdle(c, nodes) == AdvanceIfFinalizing(c, root);
  }

  /** The region waits in Closing with a finalizer it could run. */
  predicate Waits(s: Table, id: nat) {
    id in s.regions && s.regions[id].phase == Closing && Idle(s.regions[id]) && s.regions[id].finalizers != []
  }

  lemma {:induction false} NoneWaits(s: Table, nodes: seq<Node>, root: nat, id: nat)
    requires Rooted(s, root) && AllLater(nodes, root) && Has(nodes, id) && id in s.regions && Idle(s.regions[id])
    ensures var t := AdvanceIdle(s, nodes); !t.panicked ==> !Waits(t, id)
  {
    var init, last := nodes[..|nodes| - 1], nodes[|nodes| - 1];
    var u := AdvanceIdle(s, init);
    HasSnoc(nodes, id);
    AdvanceIdleShrinks(s, init, root);
    assert RegionKept(s, u, root, id);
    AdvanceSettles(u, last.id, root);
    if !u.panicked {
      if last.id == id && Waits(u, id) {
        IdleLeavesClosing(u, id, root);
      } else {
        if last.id != id {
          NoneWaits(s, init, root, id);
        }
        StaysNotWaiting(u, Advance(u, last.id), root, id);
      }
    }
  }

  lemma StaysNotWaiting(s: Table, t: Table, root: nat, id: nat)
    requires Shrunk(s, t, root) && !Waits(s, id) && (id in s.regions ==> Idle(s.regions[id]))
    ensures !Waits(t, id)
  {
    assert RegionKept(s, t, root, id);
  }

  /**
   * After `cancel_request` on the root, unless a leak panicked, no region of the tree that had
   * no children and no tasks is left in Closing with a finalizer to run.
   */
  lemma CancelRunsFinalizers(s: Table, root: nat, id: nat)
    requires Rooted(s, root) && !s.panicked && id in s.regions && id >= root && Idle(s.regions[id])
    ensures var t := Cancelled(s, root); !t.panicked ==> !Waits(t, id)
  {
    var nodes := ShallowestFirst(Tree(s, root));
    TreeCovers(s, root);
    TreeIsLater(s, root, root);
    CloseAllOnlyCloses(s, nodes);
    CancelledKeeps(s, root, root);
    NoneWaits(Closed(s, root), nodes, root, id);
  }
}
