/**
 * Cancelling a region tree (patches/asupersync/src/runtime/state.rs:1651-1866) and
 * cleaning up after a failed start (patches/asupersync/src/app.rs:90-129).
 */
module AppCleanup {
  import opened Prelude
  import opened Regions
  import opened RegionClosing
  import opened RegionWalk

  // ------------------------------------------------------------ operations on values

  /** `begin_close`. */
  function WithPhase(s: Table, id: nat): Table {
    if id in s.regions && s.regions[id].phase == Open then Put(s, id, s.regions[id].(phase := Closing)) else s
  }

  /** First pass of `cancel_request`: every collected region begins to close. */
  function CloseAll(s: Table, nodes: seq<Node>): Table {
    if nodes == [] then s else WithPhase(CloseAll(s, nodes[..|nodes| - 1]), nodes[|nodes| - 1].id)
  }

  function AdvanceIfFinalizing(s: Table, id: nat): Table {
    if id in s.regions && Idle(s.regions[id]) && s.regions[id].finalizers != [] then Advance(s, id) else s
  }

  /** Last pass of `cancel_request`: idle regions with finalizers are advanced at once. */
  function AdvanceIdle(s: Table, nodes: seq<Node>): Table {
    if nodes == [] then s else AdvanceIfFinalizing(AdvanceIdle(s, nodes[..|nodes| - 1]), nodes[|nodes| - 1].id)
  }

  function Closed(s: Table, root: nat): Table
    requires Forest(s)
  {
    CloseAll(s, ShallowestFirst(Tree(s, root)))
  }

  /** `cancel_request`. */
  function Cancelled(s: Table, root: nat): Table
    requires Forest(s)
  {
    if s.panicked then s else AdvanceIdle(Closed(s, root), ShallowestFirst(Tree(s, root)))
  }

  /** The tasks listed by the visited regions. */
  function TasksOf(s: Table, nodes: seq<Node>): seq<nat> {
    if nodes == [] then []
    else
      var id := nodes[|nodes| - 1].id;
      TasksOf(s, nodes[..|nodes| - 1]) + if id in s.regions then s.regions[id].tasks else []
  }

  /** A start-up task ends cancelled, and is completed. */
  function Dropped(s: Table, task: nat): Table {
    if s.panicked then s else Completed(Ended(s, task, true), task)
  }

  function DropAll(s: Table, tasks: seq<nat>): Table {
    if tasks == [] then s else Dropped(DropAll(s, tasks[..|tasks| - 1]), tasks[|tasks| - 1])
  }

  /** The tasks registered during start-up are completed. */
  function Emptied(s: Table, root: nat): Table
    requires Forest(s)
  {
    DropAll(s, TasksOf(s, Tree(s, root)))
  }

  function AdvanceAll(s: Table, nodes: seq<Node>): Table {
    if nodes == [] then s else Advance(AdvanceAll(s, nodes[..|nodes| - 1]), nodes[|nodes| - 1].id)
  }

  /** One turn of the closing loop. */
  function Pass(s: Table, root: nat): Table
    requires Forest(s)
  {
    AdvanceAll(s, DeepestFirst(Tree(s, root)))
  }

  // ------------------------------------------------------------ the regions of the tree

  /** The regions from `root` on are exactly the tree of `root`. */
  lemma {:induction false} LaterIsUnder(s: Table, root: nat, id: nat)
    requires Forest(s) && Subtree(s, root) && id in s.regions && id >= root
    ensures Under(s, root, id).Some?
    decreases id
  {
    assert UnderRoot(s, root, id) && RegionOk(s, id);
    if id != root {
      LaterIsUnder(s, root, s.regions[id].parent.value);
    }
  }

  predicate Has(nodes: seq<Node>, id: nat) { exists n :: n in nodes && n.id == id }

  predicate AllLater(nodes: seq<Node>, root: nat) { forall n :: n in nodes ==> n.id >= root }

  predicate Covers(s: Table, nodes: seq<Node>, root: nat) {
    forall id :: id in s.regions && id >= root ==> Has(nodes, id)
  }

  /** The walk from a region inside the tree stays inside. */
  lemma TreeIsLater(s: Table, root: nat, id: nat)
    requires Forest(s) && id >= root
    ensures AllLater(Tree(s, id), root) && AllLater(ShallowestFirst(Tree(s, id)), root)
    ensures AllLater(DeepestFirst(Tree(s, id)), root)
  {
    var nodes := Tree(s, id);
    TreeIsExact(s, id);
    forall n | n in nodes ensures n.id >= root { UnderIsLater(s, id, n.id); }
    forall n | n in DeepestFirst(nodes) ensures n in nodes { DescendingMembers(nodes, Height(nodes), n); }
    forall n | n in ShallowestFirst(nodes) ensures n in nodes { AscendingMembers(nodes, Height(nodes), n); }
  }

  lemma TreeCovers(s: Table, root: nat)
    requires Forest(s) && Subtree(s, root)
    ensures Covers(s, Tree(s, root), root) && Covers(s, ShallowestFirst(Tree(s, root)), root)
    ensures Covers(s, DeepestFirst(Tree(s, root)), root)
  {
    var nodes := Tree(s, root);
    TreeIsExact(s, root);
    HeightBounds(nodes);
    forall id | id in s.regions && id >= root
      ensures Has(nodes, id) && Has(ShallowestFirst(nodes), id) && Has(DeepestFirst(nodes), id)
    {
      LaterIsUnder(s, root, id);
      var n := Node(id, Under(s, root, id).value);
      assert n in nodes;
      DescendingMembers(nodes, Height(nodes), n);
      AscendingMembers(nodes, Height(nodes), n);
    }
  }

  // ------------------------------------------------------------ cancelling

  lemma HasSnoc(nodes: seq<Node>, id: nat)
    requires nodes != []
    ensures Has(nodes, id) <==> Has(nodes[..|nodes| - 1], id) || nodes[|nodes| - 1].id == id
  {
    assert nodes == nodes[..|nodes| - 1] + [nodes[|nodes| - 1]];
  }

  /** What the first pass makes of one region. */
  function ClosedRegion(s: Table, nodes: seq<Node>, id: nat): Region
    requires id in s.regions
  {
    if s.regions[id].phase == Open && Has(nodes, id) then s.regions[id].(phase := Closing) else s.regions[id]
  }

  lemma {:induction false} CloseAllOnlyCloses(s: Table, nodes: seq<Node>)
    ensures var t := CloseAll(s, nodes);
            && t == s.(regions := t.regions) && t.regions.Keys == s.regions.Keys
            && forall id {:trigger ClosedRegion(s, nodes, id)} {:trigger t.regions[id]} :: id in s.regions ==>
                 t.regions[id] == ClosedRegion(s, nodes, id)
  {
    if nodes != [] {
      var init, last := nodes[..|nodes| - 1], nodes[|nodes| - 1];
      CloseAllOnlyCloses(s, init);
      var t, u := CloseAll(s, init), CloseAll(s, nodes);
      forall id | id in s.regions ensures u.regions[id] == ClosedRegion(s, nodes, id) {
        HasSnoc(nodes, id);
        assert t.regions[id] == ClosedRegion(s, init, id);
      }
    }
  }

  /** Every region of the tree has begun to close. */
  ghost predicate NoneOpen(s: Table, root: nat) {
    forall id {:trigger id in s.regions} :: id in s.regions && id >= root ==> s.regions[id].phase != Open
  }

  /** Only phases of the tree differ. */
  ghost predicate OnlyPhases(s: Table, t: Table, root: nat) {
    && t == s.(regions := t.regions) && t.regions.Keys == s.regions.Keys
    && forall id {:trigger t.regions[id]} :: id in s.regions ==>
         t.regions[id] == if id >= root then s.regions[id].(phase := t.regions[id].phase) else s.regions[id]
  }

  lemma OnlyPhasesKeeps(s: Table, t: Table, root: nat)
    requires Rooted(s, root) && OnlyPhases(s, t, root)
    ensures Rooted(t, root)
  {
    SameLinksKeepRooted(s, t, root);
  }

  lemma {:induction false} AdvanceIdleShrinks(s: Table, nodes: seq<Node>, root: nat)
    requires Rooted(s, root) && AllLater(nodes, root)
    ensures var t := AdvanceIdle(s, nodes);
            && Rooted(t, root) && Shrunk(s, t, root) && t.tasks == s.tasks
            && (t.panicked ==> s.panicked || MayPanic(s.policy))
  {
    if nodes == [] {
      ShrunkReflexive(s, root);
    } else {
      var t, id := AdvanceIdle(s, nodes[..|nodes| - 1]), nodes[|nodes| - 1].id;
      AdvanceIdleShrinks(s, nodes[..|nodes| - 1], root);
      AdvanceSettles(t, id, root);
      ShrunkTransitive(s, t, Advance(t, id), root);
    }
  }

  /**
   * `cancel_request` on a region of the tree, seen from the state in which its regions
   * have begun to close.
   */
  lemma CancelledKeeps(s: Table, root: nat, id: nat)
    requires Rooted(s, root) && id >= root && !s.panicked
    ensures var c, t := Closed(s, id), Cancelled(s, id);
            && Rooted(c, root) && OnlyPhases(s, c, root)
            && Rooted(t, root) && Shrunk(c, t, root) && t.tasks == s.tasks
            && (t.panicked ==> MayPanic(s.policy))
  {
    var nodes := ShallowestFirst(Tree(s, id));
    TreeIsLater(s, root, id);
    CloseAllOnlyCloses(s, nodes);
    OnlyPhasesKeeps(s, Closed(s, id), root);
    AdvanceIdleShrinks(Closed(s, id), nodes, root);
  }

  /** Cancelling the root starts the close of every region of the tree. */
  lemma RootClosed(s: Table, root: nat)
    requires Rooted(s, root)
    ensures NoneOpen(Closed(s, root), root)
  {
    CloseAllOnlyCloses(s, ShallowestFirst(Tree(s, root)));
    TreeCovers(s, root);
  }

  lemma ShrunkStaysClosing(s: Table, t: Table, root: nat)
    requires Shrunk(s, t, root) && NoneOpen(s, root)
    ensures NoneOpen(t, root)
  {
    forall id | id in t.regions && id >= root ensures t.regions[id].phase != Open { assert RegionKept(s, t, root, id); }
  }

  // ------------------------------------------------------------ completing the tasks

  predicate OwnedLater(s: Table, tasks: seq<nat>, root: nat) {
    forall x :: x in tasks && x in s.tasks ==> s.tasks[x].owner >= root
  }

  lemma DroppedShrinks(s: Table, task: nat, root: nat)
    requires Rooted(s, root) && (task in s.tasks ==> s.tasks[task].owner >= root)
    ensures var t := Dropped(s, task);
            && Rooted(t, root) && Shrunk(s, t, root)
            && (!t.panicked ==> t.tasks.Keys == s.tasks.Keys - {task})
            && (t.panicked ==> s.panicked || MayPanic(s.policy))
  {
    ShrunkReflexive(s, root);
    if !s.panicked {
      var e := Ended(s, task, true);
      EndedShrinks(s, task, true, root);
      CompletedShrinks(e, task, root);
      ShrunkTransitive(s, e, Completed(e, task), root);
    }
  }

  lemma {:induction false} DropAllShrinks(s: Table, tasks: seq<nat>, root: nat)
    requires Rooted(s, root) && OwnedLater(s, tasks, root)
    ensures var t := DropAll(s, tasks);
            && Rooted(t, root) && Shrunk(s, t, root)
            && (!t.panicked ==> t.tasks.Keys == s.tasks.Keys - set x | x in tasks)
            && (t.panicked ==> s.panicked || MayPanic(s.policy))
  {
    if tasks == [] {
      ShrunkReflexive(s, root);
    } else {
      var init, last := tasks[..|tasks| - 1], tasks[|tasks| - 1];
      assert tasks == init + [last];
      var t := DropAll(s, init);
      DropAllShrinks(s, init, root);
      assert TaskKept(s, t, root, last);
      DroppedShrinks(t, last, root);
      ShrunkTransitive(s, t, Dropped(t, last), root);
      assert (set x | x in tasks) == (set x | x in init) + {last};
    }
  }

  lemma {:induction false} TasksOfMembers(s: Table, nodes: seq<Node>, x: nat)
    ensures x in TasksOf(s, nodes) <==> exists n :: n in nodes && n.id in s.regions && x in s.regions[n.id].tasks
  {
    if nodes != [] {
      TasksOfMembers(s, nodes[..|nodes| - 1], x);
      assert nodes == nodes[..|nodes| - 1] + [nodes[|nodes| - 1]];
    }
  }

  lemma TreeTasks(s: Table, root: nat, x: nat)
    requires Rooted(s, root) && x in s.tasks
    ensures x in TasksOf(s, Tree(s, root)) <==> s.tasks[x].owner >= root
  {
    var nodes := Tree(s, root);
    TreeIsLater(s, root, root);
    TreeCovers(s, root);
    assert TaskOk(s, x);
    assert s.tasks[x].owner >= root ==> Has(nodes, s.tasks[x].owner);
    TasksOfMembers(s, nodes, x);
    if x in TasksOf(s, nodes) {
      var n :| n in nodes && n.id in s.regions && x in s.regions[n.id].tasks;
      assert RegionOk(s, n.id);
    }
  }

  /** No task of the tree is left. */
  predicate NoneInside(s: Table, root: nat) { forall x :: x in s.tasks ==> s.tasks[x].owner < root }

  lemma EmptiedKeeps(s: Table, root: nat)
    requires Rooted(s, root)
    ensures var t := Emptied(s, root);
            && Rooted(t, root) && Shrunk(s, t, root)
            && (!t.panicked ==> NoneInside(t, root))
            && (t.panicked ==> s.panicked || MayPanic(s.policy))
  {
    var tasks := TasksOf(s, Tree(s, root));
    forall x | x in s.tasks ensures x in tasks <==> s.tasks[x].owner >= root { TreeTasks(s, root, x); }
    DropAllShrinks(s, tasks, root);
    var t := Emptied(s, root);
    forall x | x in t.tasks && !t.panicked ensures t.tasks[x].owner < root {
      assert TaskKept(s, t, root, x) && x !in tasks;
    }
  }

  // ------------------------------------------------------------ closing

  /** Nothing from `root` on is left that advancing would close. */
  ghost predicate AllSettled(s: Table, root: nat) {
    forall q: nat {:trigger Closable(s, q)} :: q >= root ==> !Closable(s, q)
  }

  /** The regions advanced so far stay settled: only ancestors of the next one can stir. */
  lemma NextSettles(s: Table, u: Table, nodes: seq<Node>, root: nat)
    requires Forest(s) && Rooted(u, root) && Shrunk(s, u, root) && nodes != [] && AllLater(nodes, root)
    requires BelowFirst(s, nodes)
    requires forall n :: n in nodes[..|nodes| - 1] ==> !Closable(u, n.id)
    ensures var t := Advance(u, nodes[|nodes| - 1].id);
            !t.panicked ==> forall n :: n in nodes ==> !Closable(t, n.id)
  {
    var last := nodes[|nodes| - 1];
    var t := Advance(u, last.id);
    AdvanceSettles(u, last.id, root);
    ParentsStay(s, u, root);
    forall n | n in nodes && !t.panicked ensures !Closable(t, n.id) {
      var i :| 0 <= i < |nodes| && nodes[i] == n;
      if i < |nodes| - 1 {
        assert nodes[..|nodes| - 1][i] == n;
        if Under(u, n.id, last.id).Some? {
          UnderIsLater(u, n.id, last.id);
          UnderStays(s, u, n.id, last.id);
        }
      }
    }
  }

  lemma {:induction false} AdvanceAllSettles(s: Table, nodes: seq<Node>, root: nat)
    requires Rooted(s, root) && AllLater(nodes, root) && BelowFirst(s, nodes)
    ensures var t := AdvanceAll(s, nodes);
            && Rooted(t, root) && Shrunk(s, t, root) && t.tasks == s.tasks
            && (!t.panicked ==> forall n :: n in nodes ==> !Closable(t, n.id))
            && (t.panicked ==> s.panicked || MayPanic(s.policy))
  {
    if nodes == [] {
      ShrunkReflexive(s, root);
    } else {
      var init, last := nodes[..|nodes| - 1], nodes[|nodes| - 1];
      var u := AdvanceAll(s, init);
      AdvanceAllSettles(s, init, root);
      AdvanceSettles(u, last.id, root);
      ShrunkTransitive(s, u, Advance(u, last.id), root);
      if !u.panicked {
        NextSettles(s, u, nodes, root);
      }
    }
  }

  /** One deepest-first pass leaves no region of the tree that could still close. */
  lemma PassSettles(s: Table, root: nat)
    requires Rooted(s, root)
    ensures var t := Pass(s, root);
            && Rooted(t, root) && Shrunk(s, t, root) && t.tasks == s.tasks
            && (!t.panicked ==> AllSettled(t, root))
            && (t.panicked ==> s.panicked || MayPanic(s.policy))
  {
    var nodes := DeepestFirst(Tree(s, root));
    TreeIsLater(s, root, root);
    TreeCovers(s, root);
    DescendantsComeFirst(s, root);
    AdvanceAllSettles(s, nodes, root);
    var t := Pass(s, root);
    forall q: nat | q >= root && !t.panicked ensures !Closable(t, q) {
      assert RegionKept(s, t, root, q);
      if q in s.regions {
        assert Has(nodes, q);
      }
    }
  }

  lemma ShrunkIsNoLarger(s: Table, t: Table, root: nat)
    requires Shrunk(s, t, root)
    ensures |t.regions| <= |s.regions|
  {
    var a, b := t.regions.Keys, s.regions.Keys;
    forall id | id in a ensures id in b { assert RegionKept(s, t, root, id); }
    SubsetSize(a, b);
  }

  /** The closing loop: passes until the root is gone or a pass removed nothing. */
  function Swept(s: Table, root: nat, previous: nat): Table
    requires Rooted(s, root) && |s.regions| <= previous
    decreases previous
  {
    if s.panicked || root !in s.regions || |s.regions| == previous then s
    else
      PassSettles(s, root);
      ShrunkIsNoLarger(s, Pass(s, root), root);
      Swept(Pass(s, root), root, |s.regions|)
  }

  lemma {:induction false} SweptSettles(s: Table, root: nat, previous: nat)
    requires Rooted(s, root) && |s.regions| <= previous
    requires |s.regions| < previous || AllSettled(s, root)
    ensures var t := Swept(s, root, previous);
            && Rooted(t, root) && Shrunk(s, t, root) && t.tasks == s.tasks
            && (!t.panicked && root in t.regions ==> AllSettled(t, root))
            && (t.panicked ==> s.panicked || MayPanic(s.policy))
    decreases previous
  {
    if s.panicked || root !in s.regions || |s.regions| == previous {
      ShrunkReflexive(s, root);
    } else {
      var t := Pass(s, root);
      PassSettles(s, root);
      ShrunkIsNoLarger(s, t, root);
      if t.panicked {
        assert Swept(s, root, previous) == t;
        ShrunkReflexive(t, root);
      } else {
        SweptSettles(t, root, |s.regions|);
      }
      ShrunkTransitive(s, t, Swept(s, root, previous), root);
    }
  }

  // ------------------------------------------------------------ the whole cleanup

  lemma EmptiedIsNoLarger(s: Table, root: nat)
    requires Rooted(s, root) && !s.panicked
    ensures Rooted(Cancelled(s, root), root)
    ensures var e := Emptied(Cancelled(s, root), root); Rooted(e, root) && |e.regions| <= |s.regions|
  {
    CancelledKeeps(s, root, root);
    ShrunkIsNoLarger(Closed(s, root), Cancelled(s, root), root);
    EmptiedKeeps(Cancelled(s, root), root);
    ShrunkIsNoLarger(Cancelled(s, root), Emptied(Cancelled(s, root), root), root);
    SameSize(s, Closed(s, root));
  }

  /** `cleanup_failed_start`; the arena holds fewer than `usize::MAX` regions. */
  function CleanedUp(s: Table, root: nat): Table
    requires Rooted(s, root) && |s.regions| < USIZE_MAX && !s.panicked
  {
    EmptiedIsNoLarger(s, root);
    Swept(Emptied(Cancelled(s, root), root), root, USIZE_MAX)
  }

  lemma CleanedUpSettles(s: Table, root: nat)
    requires Rooted(s, root) && |s.regions| < USIZE_MAX && !s.panicked
    ensures var c, t := Closed(s, root), CleanedUp(s, root);
            && OnlyPhases(s, c, root) && Shrunk(c, t, root) && Rooted(t, root) && NoneOpen(t, root)
            && (!t.panicked ==> NoneInside(t, root) && (root in t.regions ==> AllSettled(t, root)))
            && (t.panicked ==> MayPanic(s.policy))
  {
    var c := Closed(s, root);
    CancelledKeeps(s, root, root);
    var d := Cancelled(s, root);
    var e, t := Emptied(d, root), CleanedUp(s, root);
    EmptiedKeeps(d, root);
    EmptiedIsNoLarger(s, root);
    SweptSettles(e, root, USIZE_MAX);
    ShrunkTransitive(c, d, e, root);
    ShrunkTransitive(c, e, t, root);
    RootClosed(s, root);
    ShrunkStaysClosing(c, t, root);
  }

  /** Some region at or below `id` waits for an async finalizer. */
  ghost predicate Stuck(s: Table, id: nat)
    requires Forest(s)
  {
    exists b {:trigger Under(s, id, b)} :: b in s.regions && Blocked(s.regions[b]) && Under(s, id, b).Some?
  }

  /** In a settled, closing tree without tasks, every region has a blocked one below it. */
  lemma {:induction false} LeftoversAreStuck(t: Table, root: nat, id: nat)
    requires Rooted(t, root) && NoneOpen(t, root) && AllSettled(t, root) && NoneInside(t, root)
    requires id in t.regions && id >= root
    ensures Stuck(t, id)
    decreases t.nextRegion - id
  {
    assert RegionOk(t, id) && !Closable(t, id);
    var r := t.regions[id];
    if r.tasks != [] {
      assert r.tasks[0] in r.tasks;
    }
    if Blocked(r) {
      assert Under(t, id, id) == Some(0);
    } else {
      var c := r.children[0];
      assert c in r.children && RegionOk(t, c);
      LeftoversAreStuck(t, root, c);
      var b :| b in t.regions && Blocked(t.regions[b]) && Under(t, c, b).Some?;
      ChildStepsUp(t, id, c, b);
    }
  }

  /** Regions only leave; the rest keep parent and blockage, and blocked ones do not leave. */
  ghost predicate Remnant(s: Table, t: Table) {
    && SameParents(s, t)
    && forall id {:trigger id in t.regions} :: id in s.regions ==>
         if id in t.regions then Blocked(t.regions[id]) <==> Blocked(s.regions[id]) else !Blocked(s.regions[id])
  }

  lemma CleanedUpIsRemnant(s: Table, c: Table, t: Table, root: nat)
    requires OnlyPhases(s, c, root) && Shrunk(c, t, root)
    ensures Remnant(s, t)
  {
    forall id | id in t.regions ensures id in s.regions && t.regions[id].parent == s.regions[id].parent {
      assert RegionKept(c, t, root, id);
    }
    forall id | id in s.regions
      ensures if id in t.regions then Blocked(t.regions[id]) <==> Blocked(s.regions[id]) else !Blocked(s.regions[id])
    {
      assert RegionKept(c, t, root, id);
    }
  }

  lemma StuckInRemnant(s: Table, t: Table, id: nat)
    requires Forest(s) && Forest(t) && Remnant(s, t)
    ensures Stuck(t, id) <==> Stuck(s, id)
    ensures Stuck(t, id) ==> id in t.regions
  {
    if Stuck(t, id) {
      var b :| b in t.regions && Blocked(t.regions[b]) && Under(t, id, b).Some?;
      UnderStays(s, t, id, b);
      UnderIsLater(t, id, b);
      assert b in s.regions;
    }
    if Stuck(s, id) {
      var b :| b in s.regions && Blocked(s.regions[b]) && Under(s, id, b).Some?;
      assert b in t.regions;
      UnderStays(s, t, id, b);
    }
  }

  /**
   * What cleaning up leaves, for every tree in whatever phases, unless a leak panics: no
   * task of the tree, and of its regions exactly those that have a region at or below them
   * with an async finalizer.  A panic needs a policy that asks for one.
   */
  lemma CleanupIsExact(s: Table, root: nat)
    requires Rooted(s, root) && |s.regions| < USIZE_MAX && !s.panicked
    ensures var t := CleanedUp(s, root);
            && (t.panicked ==> MayPanic(s.policy))
            && (!t.panicked ==>
                  && NoneInside(t, root)
                  && (forall id :: id in s.regions && id >= root ==> (id in t.regions <==> Stuck(s, id))))
            && Forest(t) && Remnant(s, t)
  {
    var c, t := Closed(s, root), CleanedUp(s, root);
    CleanedUpSettles(s, root);
    CleanedUpIsRemnant(s, c, t, root);
    forall id | id in s.regions && id >= root && !t.panicked ensures id in t.regions <==> Stuck(s, id) {
      StuckInRemnant(s, t, id);
      if id in t.regions {
        LaterIsUnder(t, root, id);
        UnderIsLater(t, root, id);
        LeftoversAreStuck(t, root, id);
      }
    }
  }
}
