/**
 * Starting an application when nothing fails (patches/asupersync/src/app.rs:148-193): the
 * tree that the supervisor built is there, alive, and everything else is as it was.
 */
module StartSuccess {
  import opened Prelude
  import opened Regions
  import opened RegionClosing
  import opened RegionWalk
  import opened AppCleanup
  import opened AppStart

  /** A start that does not fail hands out the root, with the tree as the set-up left it. */
  lemma SuccessRunsTheApp(s: Table, parent: nat, xs: seq<Setup>)
    requires Forest(s) && |s.regions| + |xs| + 1 < USIZE_MAX && !s.panicked
    requires WithChild(s, parent).Ok? && !AfterSetUp(s, parent, xs).panicked
    ensures Started(s, parent, xs, false) == (AfterSetUp(s, parent, xs), Running(s.nextRegion))
  {
    CreatedKeeps(s, parent);
    SetUpKeeps(WithChild(s, parent).value, s.nextRegion, xs);
  }

  /** Exactly when a child is admitted: its parent exists, is open, and has room; or which is not so. */
  lemma ChildAdmittedExactly(s: Table, parent: nat)
    ensures WithChild(s, parent).Ok? <==>
              && parent in s.regions && s.regions[parent].phase == Open
              && match s.regions[parent].maxChildren
                 case None => true
                 case Some(limit) => |s.regions[parent].children| < limit
    ensures match WithChild(s, parent)
            case Err(ParentNotFound(id)) => id == parent && id !in s.regions
            case Err(ParentClosed(id)) => id == parent && id in s.regions && s.regions[id].phase != Open
            case Err(ParentAtCapacity(id, limit, live)) =>
              && id == parent && id in s.regions && s.regions[id].maxChildren == Some(limit)
              && live == |s.regions[id].children| && live >= limit
            case Ok(t) => t.nextRegion == s.nextRegion + 1
  {
  }

  /**
   * Exactly when a region of the tree takes what: tasks and obligations unless it is closing
   * or draining, finalizers only while it is open.
   */
  lemma WorkAdmittedExactly(s: Table, root: nat, id: nat, holder: nat, f: Finalizer)
    requires Forest(s) && !s.panicked && id >= root && id in s.regions && holder < s.nextTask
    ensures s.nextTask in Apply(s, root, NewTask(id)).tasks <==>
              s.regions[id].phase != Closing && s.regions[id].phase != Draining
    ensures s.nextObligation in Apply(s, root, Reserve(id, holder)).obligations <==>
              s.regions[id].phase != Closing && s.regions[id].phase != Draining
    ensures Apply(s, root, AddFinalizer(id, f)).regions[id].finalizers
         == if s.regions[id].phase == Open then s.regions[id].finalizers + [f] else s.regions[id].finalizers
  {
    NextIsFresh(s);
  }

  // ------------------------------------------------------------ building

  predicate Builds(x: Setup) { x.NewRegion? || x.NewTask? || x.AddFinalizer? || x.Reserve? }

  predicate OnlyBuilds(xs: seq<Setup>) { forall x :: x in xs ==> Builds(x) }

  /** The step names a region that is in the tree by then, and a task that was issued. */
  predicate Names(t: Table, root: nat, x: Setup)
    requires Builds(x)
  {
    x.region >= root && x.region in t.regions && (x.Reserve? ==> x.holder < t.nextTask)
  }

  /** How many such steps of one kind the set-up has. */
  function Count(c: Table, root: nat, xs: seq<Setup>, kind: Setup -> bool): nat
    requires Rooted(c, root) && root < c.nextRegion && OnlyBuilds(xs)
  {
    if xs == [] then 0
    else
      var init, x := xs[..|xs| - 1], xs[|xs| - 1];
      Count(c, root, init, kind) + if kind(x) && Names(SetUp(c, root, init), root, x) then 1 else 0
  }

  /** Regions were only added, all of them open. */
  ghost predicate RegionsBuilt(c: Table, t: Table, root: nat) {
    && c.nextRegion <= t.nextRegion
    && (forall id :: id in t.regions && id >= root ==> t.regions[id].phase == Open && t.regions[id].maxChildren == None)
    && (forall id :: id in c.regions ==> id in t.regions && (id < root ==> t.regions[id] == c.regions[id]))
    && (forall id :: c.nextRegion <= id < t.nextRegion ==> id in t.regions)
  }

  /** Tasks were only added, all of them live and in the tree. */
  ghost predicate TasksBuilt(c: Table, t: Table, root: nat) {
    && c.nextTask <= t.nextTask
    && (forall x :: x in c.tasks ==> x in t.tasks && t.tasks[x] == c.tasks[x])
    && (forall x :: c.nextTask <= x < t.nextTask ==>
          x in t.tasks && t.tasks[x].state == Live && t.tasks[x].owner >= root)
  }

  ghost predicate ObligationsBuilt(c: Table, t: Table, root: nat) {
    && c.nextObligation <= t.nextObligation
    && (forall o :: o in c.obligations ==> o in t.obligations && t.obligations[o] == c.obligations[o])
    && (forall o :: c.nextObligation <= o < t.nextObligation ==> o in t.obligations && t.obligations[o].region >= root)
  }

  /** Regions, tasks and obligations were only added to `c`, and what was added is alive. */
  ghost predicate Built(c: Table, t: Table, root: nat) {
    && !t.panicked && t.leaks == c.leaks
    && RegionsBuilt(c, t, root) && TasksBuilt(c, t, root) && ObligationsBuilt(c, t, root)
  }

  /** What one step adds. */
  lemma StepAdds(c: Table, t: Table, root: nat, x: Setup)
    requires Forest(t) && Builds(x) && Built(c, t, root)
    ensures var u := Apply(t, root, x);
            if !Names(t, root, x) then u == t
            else
              match x
              case NewRegion(id) =>
                && u.nextRegion == t.nextRegion + 1 && u.nextTask == t.nextTask && u.nextObligation == t.nextObligation
                && t.nextRegion in u.regions && u.regions[t.nextRegion].parent == Some(id)
                && u.regions[t.nextRegion].phase == Open && Idle(u.regions[t.nextRegion])
                && id in u.regions && u.regions[id].children == t.regions[id].children + [t.nextRegion]
              case NewTask(id) =>
                && u.nextTask == t.nextTask + 1 && u.nextRegion == t.nextRegion && u.nextObligation == t.nextObligation
                && t.nextTask in u.tasks && u.tasks[t.nextTask] == Task(id, Live)
                && id in u.regions && u.regions[id].tasks == t.regions[id].tasks + [t.nextTask]
              case AddFinalizer(id, f) =>
                && u.nextTask == t.nextTask && u.nextRegion == t.nextRegion && u.nextObligation == t.nextObligation
                && id in u.regions && u.regions[id].finalizers == t.regions[id].finalizers + [f]
              case Reserve(id, holder) =>
                && u.nextObligation == t.nextObligation + 1 && u.nextRegion == t.nextRegion && u.nextTask == t.nextTask
                && t.nextObligation in u.obligations && u.obligations[t.nextObligation] == Obligation(holder, id)
              case _ => false
  {
    NextIsFresh(t);
  }

  lemma RegionsStayBuilt(c: Table, t: Table, root: nat, x: Setup)
    requires Forest(c) && Forest(t) && Builds(x) && !t.panicked && RegionsBuilt(c, t, root) && root < c.nextRegion
    ensures RegionsBuilt(c, Apply(t, root, x), root)
  {
    NextIsFresh(c);
    NextIsFresh(t);
  }

  lemma TasksStayBuilt(c: Table, t: Table, root: nat, x: Setup)
    requires Forest(c) && Forest(t) && Builds(x) && !t.panicked && TasksBuilt(c, t, root)
    ensures TasksBuilt(c, Apply(t, root, x), root)
  {
    NextIsFresh(t);
  }

  lemma ObligationsStayBuilt(c: Table, t: Table, root: nat, x: Setup)
    requires Forest(c) && Forest(t) && Builds(x) && !t.panicked && ObligationsBuilt(c, t, root)
    ensures ObligationsBuilt(c, Apply(t, root, x), root)
  {
    NextIsFresh(t);
  }

  lemma StepStaysBuilt(c: Table, t: Table, root: nat, x: Setup)
    requires Forest(c) && Forest(t) && Builds(x) && Built(c, t, root) && root < c.nextRegion
    ensures Built(c, Apply(t, root, x), root)
  {
    RegionsStayBuilt(c, t, root, x);
    TasksStayBuilt(c, t, root, x);
    ObligationsStayBuilt(c, t, root, x);
  }

  lemma FreshIsBuilt(c: Table, root: nat)
    requires Forest(c) && !c.panicked
    requires forall id :: id in c.regions && id >= root ==>
               c.regions[id].phase == Open && c.regions[id].maxChildren == None
    ensures Built(c, c, root)
  {
  }

  /** A set-up that only builds adds exactly what its steps say. */
  lemma {:induction false} SetUpBuilds(c: Table, root: nat, xs: seq<Setup>)
    requires Rooted(c, root) && root < c.nextRegion && OnlyBuilds(xs) && Built(c, c, root)
    ensures var u := SetUp(c, root, xs);
            && Built(c, u, root)
            && u.nextRegion == c.nextRegion + Count(c, root, xs, (x: Setup) => x.NewRegion?)
            && u.nextTask == c.nextTask + Count(c, root, xs, (x: Setup) => x.NewTask?)
            && u.nextObligation == c.nextObligation + Count(c, root, xs, (x: Setup) => x.Reserve?)
  {
    if xs != [] {
      var init, x := xs[..|xs| - 1], xs[|xs| - 1];
      SetUpBuilds(c, root, init);
      assert x in xs;
      StepAdds(c, SetUp(c, root, init), root, x);
      StepStaysBuilt(c, SetUp(c, root, init), root, x);
    }
  }

  lemma CreatedIsBuilt(s: Table, parent: nat)
    requires Forest(s) && WithChild(s, parent).Ok? && !s.panicked
    ensures var c, root := WithChild(s, parent).value, s.nextRegion;
            && Built(c, c, root)
            && c.regions[root] == Region(Some(parent), [], [], Open, [], None)
            && c.regions[parent].children == s.regions[parent].children + [root]
  {
    CreatedKeeps(s, parent);
    NextIsFresh(s);
  }

  /** A region from before: the parent has the new root as its last child. */
  function WithRootBelow(s: Table, parent: nat, id: nat): Region
    requires id in s.regions
  {
    if id == parent then s.regions[id].(children := s.regions[id].children + [s.nextRegion]) else s.regions[id]
  }

  lemma OldRegionsKept(s: Table, parent: nat, t: Table)
    requires Forest(s) && WithChild(s, parent).Ok? && RegionsBuilt(WithChild(s, parent).value, t, s.nextRegion)
    ensures forall id :: id in s.regions ==> id in t.regions && t.regions[id] == WithRootBelow(s, parent, id)
  {
    NextIsFresh(s);
    forall id | id in s.regions ensures id in t.regions && t.regions[id] == WithRootBelow(s, parent, id) {
      assert id in WithChild(s, parent).value.regions;
    }
  }

  lemma RootStaysChild(s: Table, parent: nat, t: Table)
    requires Forest(s) && WithChild(s, parent).Ok? && RegionsBuilt(WithChild(s, parent).value, t, s.nextRegion)
    requires Forest(t)
    ensures s.nextRegion in t.regions && t.regions[s.nextRegion].phase == Open
    ensures t.regions[s.nextRegion].parent == Some(parent)
  {
    var root := s.nextRegion;
    OldRegionsKept(s, parent, t);
    assert root in WithChild(s, parent).value.regions;
    var children := t.regions[parent].children;
    assert children[|children| - 1] == root && RegionOk(t, parent);
  }

  /**
   * For every set-up that only builds: the start answers with the new root, which is in the
   * table, open and in its parent's child list; every region, task and obligation that the
   * steps asked for is there, the tasks live; and regions, tasks and obligations from before
   * are as they were, but that the parent has one child more.
   */
  lemma SuccessfulStart(s: Table, parent: nat, xs: seq<Setup>)
    requires Forest(s) && |s.regions| + |xs| + 1 < USIZE_MAX && !s.panicked
    requires WithChild(s, parent).Ok? && OnlyBuilds(xs)
    ensures var root, (t, r) := s.nextRegion, Started(s, parent, xs, false);
            && r == Running(root)
            && root in t.regions && t.regions[root].phase == Open && t.regions[root].parent == Some(parent)
            && (forall id :: id in s.regions ==> id in t.regions && t.regions[id] == WithRootBelow(s, parent, id))
            && TasksBuilt(s, t, root) && ObligationsBuilt(s, t, root)
  {
    var c, root := WithChild(s, parent).value, s.nextRegion;
    CreatedKeeps(s, parent);
    CreatedIsBuilt(s, parent);
    SetUpBuilds(c, root, xs);
    SuccessRunsTheApp(s, parent, xs);
    OldRegionsKept(s, parent, SetUp(c, root, xs));
    RootStaysChild(s, parent, SetUp(c, root, xs));
  }
}
