/**
 * The runtime state as the object that app.rs and runtime/state.rs update in place.  Every
 * method is proved equal to its function on tables, so that what is proved about those
 * functions holds of the loops and of the re-entrant calls here.
 *
 * A panic is the field `panicked`: once it is set, the call in progress does nothing more.
 */
module Runtime {
  import opened Prelude
  import opened Regions
  import opened RegionClosing
  import opened RegionWalk
  import opened AppCleanup
  import opened AppStart

  /** `advance_region_state`, with leaks being handled or not. */
  function Advanced(s: Table, id: nat, handling: bool): Table {
    if handling then InnerAdvance(s, id) else Advance(s, id)
  }

  function Turned(s: Table, id: nat, handling: bool): (Table, Option<nat>) {
    if handling then InnerTurn(s, id) else Turn(s, id)
  }

  lemma TurnedDescends(s: Table, id: nat, handling: bool)
    requires Turned(s, id, handling).1.Some?
    ensures Descends(s, Turned(s, id, handling).0, id, Turned(s, id, handling).1.value)
  {
    if handling { InnerTurnDescends(s, id); } else { TurnDescends(s, id); }
  }

  class RuntimeState {
    const policy: Policy
    var regions: map<nat, Region>
    var tasks: map<nat, Task>
    var obligations: map<nat, Obligation>
    var nextRegion: nat
    var nextTask: nat
    var nextObligation: nat
    var leakCount: nat
    var panicked: bool
    var handlingLeaks: bool

    function View(): Table
      reads this
    {
      Table(regions, tasks, obligations, nextRegion, nextTask, nextObligation, policy, leakCount, panicked)
    }

    function Rank(): nat
      reads this
    {
      if handlingLeaks then 0 else 1
    }

    method AdvanceRegionState(initial: nat)
      requires handlingLeaks ==> !panicked
      modifies this
      ensures View() == Advanced(old(View()), initial, old(handlingLeaks)) && handlingLeaks == old(handlingLeaks)
      ensures handlingLeaks ==> !panicked
      decreases Rank(), 3
    {
      if panicked {
        return;
      }
      var current: Option<nat> := Some(initial);
      while current.Some?
        invariant handlingLeaks == old(handlingLeaks) && (current.Some? || handlingLeaks ==> !panicked)
        invariant Advanced(old(View()), initial, handlingLeaks)
               == if current.Some? then Advanced(View(), current.value, handlingLeaks) else View()
        decreases if current.Some? then 1 else 0, |regions|,
                  current.Some? && current.value in regions && regions[current.value].phase != Finalizing
      {
        if Turned(View(), current.value, handlingLeaks).1.Some? {
          TurnedDescends(View(), current.value, handlingLeaks);
        }
        current := AdvanceOnce(current.value);
      }
    }

    /** The body of that loop: the region to go on with, if any. */
    method AdvanceOnce(id: nat) returns (next: Option<nat>)
      requires !panicked
      modifies this
      ensures (View(), next) == Turned(old(View()), id, old(handlingLeaks)) && handlingLeaks == old(handlingLeaks)
      ensures next.Some? || handlingLeaks ==> !panicked
      decreases Rank(), 2
    {
      if id !in regions || regions[id].phase == Open {
        return None;
      }
      if regions[id].phase != Finalizing {
        next := Drain(id);
        return;
      }
      var left := RunSyncFinalizers(regions[id].finalizers);
      regions := regions[id := regions[id].(finalizers := left)];
      assert View() == FinalizersRun(old(View()), id);
      if left != [] {
        return None;
      }
      if TasksDone(View(), id) {
        var leaks := CollectLeaks((o: Obligation) => o.region == id);
        HandleObligationLeaks(leaks);
        if panicked {
          return None;
        }
      }
      if !CanClose(View(), id) {
        return None;
      }
      next := regions[id].parent;
      if next.Some? && next.value in regions {
        var p := regions[next.value];
        regions := regions[next.value := p.(children := Without(p.children, id))];
      }
      regions := regions - {id};
    }

    /** Closing and Draining: on to Finalizing once children and tasks are gone. */
    method Drain(id: nat) returns (next: Option<nat>)
      requires id in regions
      modifies this`regions
      ensures (View(), next) == Drained(old(View()), id)
    {
      var r := regions[id];
      if Idle(r) {
        regions := regions[id := r.(phase := Finalizing)];
        return Some(id);
      }
      if r.children != [] && r.phase == Closing {
        regions := regions[id := r.(phase := Draining)];
      }
      return None;
    }

    /** Pops sync finalizers until the stack is empty or an async one is on top. */
    method RunSyncFinalizers(finalizers: seq<Finalizer>) returns (left: seq<Finalizer>)
      ensures left == RunSync(finalizers)
    {
      left := finalizers;
      while left != [] && left[|left| - 1] != Async
        invariant RunSync(left) == RunSync(finalizers)
        decreases |left|
      {
        left := left[..|left| - 1];
      }
    }

    method CollectLeaks(wanted: Obligation -> bool) returns (leaks: seq<nat>)
      ensures leaks == Picked(obligations, wanted, nextObligation)
    {
      leaks := [];
      for o := 0 to nextObligation
        invariant leaks == Picked(obligations, wanted, o)
      {
        if o in obligations && wanted(obligations[o]) {
          leaks := leaks + [o];
        }
      }
    }

    /** A call that arrives while leaks are being handled leaves them for later. */
    method HandleObligationLeaks(leaks: seq<nat>)
      requires !panicked
      modifies this
      ensures handlingLeaks == old(handlingLeaks)
      ensures View() == if handlingLeaks then old(View()) else LeaksHandled(old(View()), leaks)
      decreases Rank(), 1
    {
      if leaks == [] || handlingLeaks {
        return;
      }
      handlingLeaks := true;
      leakCount := if leakCount + |leaks| <= U64_MAX then leakCount + |leaks| else U64_MAX;
      var response := Effective(policy, leakCount);
      ghost var counted := View();
      for i := 0 to |leaks|
        invariant handlingLeaks && !panicked && View() == ResolveAll(counted, leaks[..i])
      {
        assert leaks[..i + 1][..i] == leaks[..i];
        ResolveObligation(leaks[i]);
      }
      assert leaks[..|leaks|] == leaks;
      handlingLeaks := false;
      if response == Panic {
        panicked := true;
      }
    }

    /** `mark_obligation_leaked` and `abort_obligation`, which differ in what they record. */
    method ResolveObligation(o: nat)
      requires !panicked
      modifies this
      ensures handlingLeaks == old(handlingLeaks) && (handlingLeaks ==> !panicked)
      ensures View() == if o in old(obligations)
                        then Advanced(Resolved(old(View()), o), old(obligations)[o].region, old(handlingLeaks))
                        else old(View())
      decreases Rank(), 4
    {
      if o in obligations {
        var id := obligations[o].region;
        obligations := obligations - {o};
        AdvanceRegionState(id);
      }
    }

    /** The unfinished obligations of a task are aborted. */
    method AbortObligations(task: nat)
      requires !panicked && !handlingLeaks
      modifies this
      ensures !handlingLeaks && View() == AbortAll(old(View()), HeldBy(old(View()), task))
    {
      ghost var s := View();
      var orphaned := CollectLeaks((o: Obligation) => o.holder == task);
      for i := 0 to |orphaned|
        invariant !handlingLeaks && View() == AbortAll(s, orphaned[..i])
      {
        assert orphaned[..i + 1][..i] == orphaned[..i];
        if !panicked {
          ResolveObligation(orphaned[i]);
        }
      }
      assert orphaned[..|orphaned|] == orphaned;
    }

    method TaskCompleted(task: nat)
      requires !handlingLeaks
      modifies this
      ensures !handlingLeaks && View() == Completed(old(View()), task)
    {
      if panicked || task !in tasks {
        return;
      }
      var owner := tasks[task].owner;
      if tasks[task].state != Done(true) {
        var leaks := CollectLeaks((o: Obligation) => o.holder == task);
        HandleObligationLeaks(leaks);
      }
      if !panicked {
        AbortObligations(task);
      }
      assert View() == Released(old(View()), task);
      if panicked {
        return;
      }
      tasks := tasks - {task};
      if owner in regions {
        regions := regions[owner := regions[owner].(tasks := Without(regions[owner].tasks, task))];
      }
      AdvanceRegionState(owner);
    }

    method CollectRegionTree(root: nat) returns (nodes: seq<Node>)
      requires Forest(View())
      ensures nodes == Tree(View(), root)
    {
      nodes := [];
      var pending := [Node(root, 0)];
      while pending != []
        invariant nodes + Walk(View(), pending, 0) == Tree(View(), root)
        decreases |Walk(View(), pending, 0)|, |pending|
      {
        WalkTurn(View(), pending);
        var top := pending[|pending| - 1];
        pending := pending[..|pending| - 1];
        if top.id !in regions {
          continue;
        }
        nodes := nodes + [top];
        pending := PushChildren(pending, top);
      }
    }

    method PushChildren(pending: seq<Node>, n: Node) returns (grown: seq<Node>)
      requires n.id in regions
      ensures grown == pending + ChildNodes(View(), n)
    {
      grown := pending;
      var children := regions[n.id].children;
      for i := 0 to |children|
        invariant grown == pending + ChildNodes(View(), n)[..i]
      {
        grown := grown + [Node(children[i], n.depth + 1)];
      }
    }

    method CancelRequest(root: nat)
      requires Forest(View()) && !handlingLeaks
      modifies this
      ensures !handlingLeaks && View() == Cancelled(old(View()), root)
    {
      if panicked {
        return;
      }
      var tree := CollectRegionTree(root);
      var nodes := ShallowestFirst(tree);
      ghost var s := View();
      for i := 0 to |nodes|
        invariant !handlingLeaks && View() == CloseAll(s, nodes[..i])
      {
        assert nodes[..i + 1][..i] == nodes[..i];
        var id := nodes[i].id;
        if id in regions && regions[id].phase == Open {
          regions := regions[id := regions[id].(phase := Closing)];
        }
      }
      assert nodes[..|nodes|] == nodes;
      ghost var c := View();
      for i := 0 to |nodes|
        invariant !handlingLeaks && View() == AdvanceIdle(c, nodes[..i])
      {
        assert nodes[..i + 1][..i] == nodes[..i];
        var id := nodes[i].id;
        if id in regions && Idle(regions[id]) && regions[id].finalizers != [] {
          AdvanceRegionState(id);
        }
      }
    }

    /** Completes, as cancelled, every task that start-up registered in the tree. */
    method CompleteStartupTasks(root: nat)
      requires Forest(View()) && !handlingLeaks
      modifies this
      ensures !handlingLeaks && View() == Emptied(old(View()), root)
    {
      ghost var s := View();
      var nodes := CollectRegionTree(root);
      var startup: seq<nat> := [];
      for i := 0 to |nodes|
        invariant View() == s && startup == TasksOf(s, nodes[..i])
      {
        assert nodes[..i + 1][..i] == nodes[..i];
        startup := startup + if nodes[i].id in regions then regions[nodes[i].id].tasks else [];
      }
      assert nodes[..|nodes|] == nodes;
      for i := 0 to |startup|
        invariant !handlingLeaks && View() == DropAll(s, startup[..i])
      {
        assert startup[..i + 1][..i] == startup[..i];
        DropTask(startup[i]);
      }
      assert startup[..|startup|] == startup;
    }

    method DropTask(task: nat)
      requires !handlingLeaks
      modifies this
      ensures !handlingLeaks && View() == Dropped(old(View()), task)
    {
      if panicked {
        return;
      }
      if task in tasks && tasks[task].state.Live? {
        tasks := tasks[task := tasks[task].(state := Done(true))];
      }
      assert View() == Ended(old(View()), task, true);
      TaskCompleted(task);
    }

    method CleanupFailedStart(root: nat)
      requires Rooted(View(), root) && |regions| < USIZE_MAX && !panicked && !handlingLeaks
      modifies this
      ensures !handlingLeaks && View() == CleanedUp(old(View()), root)
    {
      EmptiedIsNoLarger(View(), root);
      CancelRequest(root);
      CompleteStartupTasks(root);
      var previous := USIZE_MAX;
      while !panicked && root in regions
        invariant !handlingLeaks && Rooted(View(), root) && |regions| <= previous
        invariant Swept(View(), root, previous) == CleanedUp(old(View()), root)
        decreases previous
      {
        var current := |regions|;
        if current == previous {
          break;
        }
        previous := current;
        PassSettles(View(), root);
        ShrunkIsNoLarger(View(), Pass(View(), root), root);
        OnePass(root);
      }
    }

    /** Advances every region of the tree, deepest first. */
    method OnePass(root: nat)
      requires Forest(View()) && !handlingLeaks
      modifies this
      ensures !handlingLeaks && View() == Pass(old(View()), root)
    {
      ghost var s := View();
      var tree := CollectRegionTree(root);
      var order := DeepestFirst(tree);
      for i := 0 to |order|
        invariant !handlingLeaks && View() == AdvanceAll(s, order[..i])
      {
        assert order[..i + 1][..i] == order[..i];
        AdvanceRegionState(order[i].id);
      }
      assert order[..|order|] == order;
    }

    method CreateChildRegion(parent: nat) returns (r: Result<nat, RegionCreateError>)
      modifies this
      ensures handlingLeaks == old(handlingLeaks)
      ensures match WithChild(old(View()), parent)
              case Ok(t) => r == Ok(old(nextRegion)) && View() == t
              case Err(e) => r == Err(e) && View() == old(View())
    {
      if parent !in regions {
        return Err(ParentNotFound(parent));
      }
      var p := regions[parent];
      if p.phase != Open {
        return Err(ParentClosed(parent));
      }
      if p.maxChildren.Some? && |p.children| >= p.maxChildren.value {
        return Err(ParentAtCapacity(parent, p.maxChildren.value, |p.children|));
      }
      var id := nextRegion;
      regions := regions[parent := p.(children := p.children + [id])];
      regions := regions[id := Region(Some(parent), [], [], Open, [], None)];
      nextRegion := nextRegion + 1;
      return Ok(id);
    }

    /** One step of the supervisor or of a child that it starts. */
    method SetUpStep(root: nat, x: Setup)
      requires Forest(View()) && !handlingLeaks
      modifies this
      ensures !handlingLeaks && View() == Apply(old(View()), root, x)
    {
      if panicked {
        return;
      }
      if x.Finish? {
        if x.task in tasks && tasks[x.task].owner >= root {
          if tasks[x.task].state.Live? {
            tasks := tasks[x.task := tasks[x.task].(state := Done(x.cancelled))];
          }
          assert View() == Ended(old(View()), x.task, x.cancelled);
          TaskCompleted(x.task);
        }
        return;
      }
      if x.Resolve? {
        if x.obligation in obligations && obligations[x.obligation].region >= root {
          ResolveObligation(x.obligation);
        }
        return;
      }
      if x.region < root || x.region !in regions {
        return;
      }
      if x.NewRegion? {
        var _ := CreateChildRegion(x.region);
      } else if x.Cancel? {
        CancelRequest(x.region);
      } else if x.AdvanceRegion? {
        AdvanceRegionState(x.region);
      } else {
        Register(x);
      }
    }

    /** A task, a finalizer or an obligation is registered, if the region admits it. */
    method Register(x: Setup)
      requires (x.NewTask? || x.AddFinalizer? || x.Reserve?) && x.region in regions && !panicked && Forest(View())
      modifies this
      ensures handlingLeaks == old(handlingLeaks) && View() == Apply(old(View()), x.region, x)
    {
      var r := regions[x.region];
      if x.NewTask? && AcceptsWork(r) {
        regions := regions[x.region := r.(tasks := r.tasks + [nextTask])];
        tasks := tasks[nextTask := Task(x.region, Live)];
        nextTask := nextTask + 1;
      } else if x.AddFinalizer? && r.phase == Open {
        regions := regions[x.region := r.(finalizers := r.finalizers + [x.f])];
      } else if x.Reserve? && AcceptsWork(r) && x.holder < nextTask {
        obligations := obligations[nextObligation := Obligation(x.holder, x.region)];
        nextObligation := nextObligation + 1;
      }
    }

    method Spawn(root: nat, xs: seq<Setup>)
      requires Rooted(View(), root) && root < nextRegion && !handlingLeaks
      modifies this
      ensures !handlingLeaks && View() == SetUp(old(View()), root, xs)
    {
      ghost var s := View();
      for i := 0 to |xs|
        invariant !handlingLeaks && View() == SetUp(s, root, xs[..i])
      {
        assert xs[..i + 1][..i] == xs[..i];
        SetUpStep(root, xs[i]);
      }
      assert xs[..|xs|] == xs;
    }

    /** The set-up `xs` stands for what the supervisor and the children's start functions do. */
    method Start(parent: nat, xs: seq<Setup>, fails: bool) returns (r: StartResult)
      requires Forest(View()) && |regions| + |xs| + 1 < USIZE_MAX && !panicked && !handlingLeaks
      modifies this
      ensures (View(), r) == Started(old(View()), parent, xs, fails)
    {
      var created := CreateChildRegion(parent);
      if created.Err? {
        return RegionCreate(created.error);
      }
      var root := created.value;
      CreatedKeeps(old(View()), parent);
      SetUpKeeps(View(), root, xs);
      Spawn(root, xs);
      if panicked {
        return Panicked;
      }
      if !fails {
        return Running(root);
      }
      CleanupFailedStart(root);
      return if panicked then Panicked else SpawnFailed;
    }
  }
}
