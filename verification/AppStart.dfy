/**
 * Starting an application (patches/asupersync/src/app.rs:148-184): a root region is
 * created, the supervisor sets things up inside it, and when that fails everything is
 * cleaned up.
 */
module AppStart {
  import opened Prelude
  import opened Regions
  import opened RegionClosing
  import opened RegionWalk
  import opened AppCleanup
  import opened HeldObligations

  datatype RegionCreateError =
    | ParentNotFound(id: nat)
    | ParentClosed(id: nat)
    | ParentAtCapacity(id: nat, limit: nat, live: nat)

  /** `create_child_region`: the state with the child in it; the child gets the next id. */
  function WithChild(s: Table, parent: nat): Result<Table, RegionCreateError> {
    if parent !in s.regions then Err(ParentNotFound(parent))
    else
      var p := s.regions[parent];
      if p.phase != Open then Err(ParentClosed(parent))
      else if p.maxChildren.Some? && |p.children| >= p.maxChildren.value then
        Err(ParentAtCapacity(parent, p.maxChildren.value, |p.children|))
      else
        var child := Region(Some(parent), [], [], Open, [], None);
        var t := Put(s, parent, p.(children := p.children + [s.nextRegion]));
        Ok(Put(t, s.nextRegion, child).(nextRegion := s.nextRegion + 1))
  }

  /**
   * What the supervisor and the children it starts may do inside the app's tree.  A
   * supervisor whose required child fails ends with `Cancel` and `AdvanceRegion` of its
   * own region (patches/asupersync/src/supervision.rs:1458-1472).
   */
  datatype Setup =
    | NewRegion(region: nat)
    | NewTask(region: nat)
    | AddFinalizer(region: nat, f: Finalizer)
    | Reserve(region: nat, holder: nat)
    | Cancel(region: nat)
    | AdvanceRegion(region: nat)
    | Finish(task: nat, cancelled: bool)
    | Resolve(obligation: nat)

  /** `can_accept_work`. */
  predicate AcceptsWork(r: Region) { r.phase == Open || r.phase == Finalizing }

  function TaskAdded(s: Table, id: nat): Table
    requires id in s.regions
  {
    Put(s, id, s.regions[id].(tasks := s.regions[id].tasks + [s.nextTask]))
      .(tasks := s.tasks[s.nextTask := Task(id, Live)], nextTask := s.nextTask + 1)
  }

  function FinalizerAdded(s: Table, id: nat, f: Finalizer): Table
    requires id in s.regions
  {
    Put(s, id, s.regions[id].(finalizers := s.regions[id].finalizers + [f]))
  }

  function Reserved(s: Table, id: nat, holder: nat): Table {
    s.(obligations := s.obligations[s.nextObligation := Obligation(holder, id)], nextObligation := s.nextObligation + 1)
  }

  /** A step inside the tree; one that is refused, or outside the tree, changes nothing. */
  function Apply(s: Table, root: nat, x: Setup): Table
    requires Forest(s)
  {
    if s.panicked then s
    else
      match x
      case Finish(task, cancelled) =>
        if task in s.tasks && s.tasks[task].owner >= root then Completed(Ended(s, task, cancelled), task) else s
      case Resolve(o) =>
        if o in s.obligations && s.obligations[o].region >= root
        then Advance(Resolved(s, o), s.obligations[o].region) else s
      case _ =>
        var id := x.region;
        if id < root || id !in s.regions then s
        else
          match x
          case NewRegion(_) => var t := WithChild(s, id); if t.Ok? then t.value else s
          case NewTask(_) => if AcceptsWork(s.regions[id]) then TaskAdded(s, id) else s
          case AddFinalizer(_, f) => if s.regions[id].phase == Open then FinalizerAdded(s, id, f) else s
          case Reserve(_, holder) =>
            if AcceptsWork(s.regions[id]) && holder < s.nextTask then Reserved(s, id, holder) else s
          case Cancel(_) => Cancelled(s, id)
          case AdvanceRegion(_) => Advance(s, id)
          case _ => s
  }

  // ------------------------------------------------------------ outside the tree

  predicate OuterRegion(s: Table, t: Table, root: nat, id: nat) {
    id < root ==>
      && (id in s.regions <==> id in t.regions)
      && (id in s.regions ==> t.regions[id] == ParentsView(s, t, root, id))
  }

  predicate OuterTask(s: Table, t: Table, root: nat, x: nat) {
    && (x in s.tasks && s.tasks[x].owner < root ==> x in t.tasks && t.tasks[x] == s.tasks[x])
    && (x in t.tasks && t.tasks[x].owner < root ==> x in s.tasks && s.tasks[x].owner < root)
  }

  predicate OuterObligation(s: Table, t: Table, root: nat, o: nat) {
    && (o in s.obligations && s.obligations[o].region < root ==>
        o in t.obligations && t.obligations[o] == s.obligations[o])
    && (o in t.obligations && t.obligations[o].region < root ==> o in s.obligations && s.obligations[o].region < root)
  }

  /** Everything outside the tree is the same, but that a removed root leaves its parent's child list. */
  ghost predicate OutsideKept(s: Table, t: Table, root: nat) {
    && root < s.nextRegion <= t.nextRegion && t.policy == s.policy
    && (root in t.regions ==> root in s.regions)
    && (forall id: nat {:trigger OuterRegion(s, t, root, id)} :: OuterRegion(s, t, root, id))
    && (forall x: nat {:trigger OuterTask(s, t, root, x)} :: OuterTask(s, t, root, x))
    && forall o: nat {:trigger OuterObligation(s, t, root, o)} :: OuterObligation(s, t, root, o)
  }

  lemma OutsideTransitive(s: Table, t: Table, u: Table, root: nat)
    requires OutsideKept(s, t, root) && OutsideKept(t, u, root)
    ensures OutsideKept(s, u, root)
  {
    forall id ensures OuterRegion(s, u, root, id) {
      assert OuterRegion(s, t, root, id) && OuterRegion(t, u, root, id);
    }
    forall x ensures OuterTask(s, u, root, x) { assert OuterTask(s, t, root, x) && OuterTask(t, u, root, x); }
    forall o ensures OuterObligation(s, u, root, o) {
      assert OuterObligation(s, t, root, o) && OuterObligation(t, u, root, o);
    }
  }

  lemma ShrunkKeepsOutside(s: Table, t: Table, root: nat)
    requires Shrunk(s, t, root) && root < s.nextRegion
    ensures OutsideKept(s, t, root)
  {
    assert RegionKept(s, t, root, root);
    forall id: nat ensures OuterRegion(s, t, root, id) { assert RegionKept(s, t, root, id); }
    forall x ensures OuterTask(s, t, root, x) { assert TaskKept(s, t, root, x); }
    forall o ensures OuterObligation(s, t, root, o) { assert ObligationKept(s, t, root, o); }
  }

  // ------------------------------------------------------------ the steps of a set-up

  lemma WithChildKeepsForest(s: Table, parent: nat)
    requires Forest(s) && WithChild(s, parent).Ok?
    ensures Forest(WithChild(s, parent).value)
  {
    var t := WithChild(s, parent).value;
    NextIsFresh(s);
    assert RegionOk(s, parent);
    forall q | q in t.regions ensures RegionOk(t, q) {
      if q != s.nextRegion { assert RegionOk(s, q); }
    }
    forall x | x in t.tasks ensures TaskOk(t, x) { assert TaskOk(s, x); }
    forall o | o in t.obligations ensures ObligationOk(t, o) { assert ObligationOk(s, o); }
  }

  lemma NewRegionKeeps(s: Table, root: nat, id: nat)
    requires Rooted(s, root) && id >= root && root < s.nextRegion && WithChild(s, id).Ok?
    ensures var t := WithChild(s, id).value;
            Rooted(t, root) && OutsideKept(s, t, root) && |t.regions| <= |s.regions| + 1
  {
    var t := WithChild(s, id).value;
    NextIsFresh(s);
    WithChildKeepsForest(s, id);
    forall q | q in t.regions ensures UnderRoot(t, root, q) {
      if q in s.regions { assert UnderRoot(s, root, q) && RegionOk(s, q); }
    }
    forall o | o in t.obligations ensures HeldIn(t, root, o) { assert HeldIn(s, root, o); }
    assert t.regions.Keys == s.regions.Keys + {s.nextRegion};
  }

  lemma NewTaskKeepsForest(s: Table, id: nat)
    requires Forest(s) && id in s.regions
    ensures Forest(TaskAdded(s, id))
  {
    var t := TaskAdded(s, id);
    NextIsFresh(s);
    forall q | q in t.regions ensures RegionOk(t, q) { assert RegionOk(s, q); }
    forall x | x in t.tasks ensures TaskOk(t, x) { if x != s.nextTask { assert TaskOk(s, x); } }
    forall o | o in t.obligations ensures ObligationOk(t, o) { assert ObligationOk(s, o); }
  }

  lemma NewTaskKeeps(s: Table, root: nat, id: nat)
    requires Rooted(s, root) && id >= root && root < s.nextRegion && id in s.regions
    ensures Rooted(TaskAdded(s, id), root) && OutsideKept(s, TaskAdded(s, id), root)
  {
    var t := TaskAdded(s, id);
    NextIsFresh(s);
    NewTaskKeepsForest(s, id);
    forall q | q in t.regions ensures UnderRoot(t, root, q) { assert UnderRoot(s, root, q); }
    forall o | o in t.obligations ensures HeldIn(t, root, o) { assert ObligationOk(s, o) && HeldIn(s, root, o); }
  }

  lemma FinalizerKeeps(s: Table, root: nat, id: nat, f: Finalizer)
    requires Rooted(s, root) && id >= root && root < s.nextRegion && id in s.regions
    ensures Rooted(FinalizerAdded(s, id, f), root) && OutsideKept(s, FinalizerAdded(s, id, f), root)
  {
    SameLinksKeepRooted(s, FinalizerAdded(s, id, f), root);
  }

  lemma ReserveKeepsForest(s: Table, id: nat, holder: nat)
    requires Forest(s) && id in s.regions && holder < s.nextTask
    ensures Forest(Reserved(s, id, holder))
  {
    var t := Reserved(s, id, holder);
    forall q | q in t.regions ensures RegionOk(t, q) { assert RegionOk(s, q); }
    forall x | x in t.tasks ensures TaskOk(t, x) { assert TaskOk(s, x); }
    forall o | o in t.obligations ensures ObligationOk(t, o) { if o != s.nextObligation { assert ObligationOk(s, o); } }
  }

  lemma ReserveKeeps(s: Table, root: nat, id: nat, holder: nat)
    requires Rooted(s, root) && id >= root && root < s.nextRegion && id in s.regions && holder < s.nextTask
    ensures Rooted(Reserved(s, id, holder), root) && OutsideKept(s, Reserved(s, id, holder), root)
  {
    var t := Reserved(s, id, holder);
    NextIsFresh(s);
    ReserveKeepsForest(s, id, holder);
    forall q | q in t.regions ensures UnderRoot(t, root, q) { assert UnderRoot(s, root, q); }
    forall o | o in t.obligations ensures HeldIn(t, root, o) { if o != s.nextObligation { assert HeldIn(s, root, o); } }
  }

  lemma CancelKeeps(s: Table, root: nat, id: nat)
    requires Rooted(s, root) && id >= root && root < s.nextRegion && !s.panicked
    ensures var t := Cancelled(s, id);
            && Rooted(t, root) && OutsideKept(s, t, root) && |t.regions| <= |s.regions|
            && (t.panicked ==> MayPanic(s.policy))
  {
    var c, t := Closed(s, id), Cancelled(s, id);
    CancelledKeeps(s, root, id);
    assert OutsideKept(s, c, root);
    ShrunkKeepsOutside(c, t, root);
    OutsideTransitive(s, c, t, root);
    SameSize(s, c);
    ShrunkIsNoLarger(c, t, root);
  }

  /** What every step keeps. */
  ghost predicate StepOk(s: Table, t: Table, root: nat) {
    && Rooted(t, root) && OutsideKept(s, t, root) && |t.regions| <= |s.regions| + 1
    && (t.panicked ==> s.panicked || MayPanic(s.policy))
  }

  lemma UnchangedIsOk(s: Table, root: nat)
    requires Rooted(s, root) && root < s.nextRegion
    ensures StepOk(s, s, root)
  {
  }

  lemma ShrinkingIsOk(s: Table, t: Table, root: nat)
    requires Rooted(s, root) && root < s.nextRegion && Rooted(t, root) && Shrunk(s, t, root)
    requires t.panicked ==> s.panicked || MayPanic(s.policy)
    ensures StepOk(s, t, root)
  {
    ShrunkKeepsOutside(s, t, root);
    ShrunkIsNoLarger(s, t, root);
  }

  lemma FinishIsOk(s: Table, root: nat, x: Setup)
    requires Rooted(s, root) && root < s.nextRegion && x.Finish?
    ensures StepOk(s, Apply(s, root, x), root)
  {
    UnchangedIsOk(s, root);
    if !s.panicked && x.task in s.tasks && s.tasks[x.task].owner >= root {
      var e := Ended(s, x.task, x.cancelled);
      EndedShrinks(s, x.task, x.cancelled, root);
      CompletedShrinks(e, x.task, root);
      ShrunkTransitive(s, e, Completed(e, x.task), root);
      ShrinkingIsOk(s, Completed(e, x.task), root);
    }
  }

  /** An obligation is committed or aborted. */
  lemma ResolveIsOk(s: Table, root: nat, x: Setup)
    requires Rooted(s, root) && root < s.nextRegion && x.Resolve?
    ensures StepOk(s, Apply(s, root, x), root)
  {
    UnchangedIsOk(s, root);
    var o := x.obligation;
    if !s.panicked && o in s.obligations && s.obligations[o].region >= root {
      var u, id := Resolved(s, o), s.obligations[o].region;
      ResolvedShrinks(s, o, root);
      RootedStays(s, u, root);
      AdvanceSettles(u, id, root);
      ShrunkTransitive(s, u, Advance(u, id), root);
      ShrinkingIsOk(s, Advance(u, id), root);
    }
  }

  lemma ApplyIsOk(s: Table, root: nat, x: Setup)
    requires Rooted(s, root) && root < s.nextRegion
    ensures StepOk(s, Apply(s, root, x), root)
  {
    UnchangedIsOk(s, root);
    if x.Finish? {
      FinishIsOk(s, root, x);
    } else if x.Resolve? {
      ResolveIsOk(s, root, x);
    } else if !s.panicked && x.region >= root && x.region in s.regions {
      match x
      case NewRegion(id) => if WithChild(s, id).Ok? { NewRegionKeeps(s, root, id); }
      case NewTask(id) => NewTaskKeeps(s, root, id); SameSize(s, TaskAdded(s, id));
      case AddFinalizer(id, f) => FinalizerKeeps(s, root, id, f); SameSize(s, FinalizerAdded(s, id, f));
      case Reserve(id, holder) => if holder < s.nextTask { ReserveKeeps(s, root, id, holder); }
      case Cancel(id) => CancelKeeps(s, root, id);
      case AdvanceRegion(id) => AdvanceSettles(s, id, root); ShrinkingIsOk(s, Advance(s, id), root);
    }
  }

  function SetUp(s: Table, root: nat, xs: seq<Setup>): (t: Table)
    requires Rooted(s, root) && root < s.nextRegion
    ensures Rooted(t, root) && root < t.nextRegion
  {
    if xs == [] then s
    else
      var t := SetUp(s, root, xs[..|xs| - 1]);
      ApplyIsOk(t, root, xs[|xs| - 1]);
      Apply(t, root, xs[|xs| - 1])
  }

  lemma {:induction false} SetUpKeeps(s: Table, root: nat, xs: seq<Setup>)
    requires Rooted(s, root) && root < s.nextRegion && !s.panicked
    ensures var t := SetUp(s, root, xs);
            && OutsideKept(s, t, root) && |t.regions| <= |s.regions| + |xs|
            && (t.panicked ==> MayPanic(s.policy))
  {
    UnchangedIsOk(s, root);
    if xs != [] {
      var t := SetUp(s, root, xs[..|xs| - 1]);
      SetUpKeeps(s, root, xs[..|xs| - 1]);
      ApplyIsOk(t, root, xs[|xs| - 1]);
      OutsideTransitive(s, t, SetUp(s, root, xs), root);
    }
  }

  // ------------------------------------------------------------ starting

  lemma CreatedKeeps(s: Table, parent: nat)
    requires Forest(s) && WithChild(s, parent).Ok?
    ensures var t, root := WithChild(s, parent).value, s.nextRegion;
            && Rooted(t, root) && root !in s.regions && root in t.regions && root < t.nextRegion
            && |t.regions| == |s.regions| + 1 && t.panicked == s.panicked && t.policy == s.policy
  {
    var t, root := WithChild(s, parent).value, s.nextRegion;
    WithChildKeepsForest(s, parent);
    NextIsFresh(s);
    forall q | q in t.regions ensures UnderRoot(t, root, q) {
      assert RegionOk(t, q) && RegionOk(s, parent);
    }
    forall o | o in t.obligations ensures HeldIn(t, root, o) { assert ObligationOk(s, o); }
    assert t.regions.Keys == s.regions.Keys + {root};
    assert |t.regions.Keys| == |s.regions.Keys| + 1;
  }

  datatype StartResult = Running(root: nat) | RegionCreate(error: RegionCreateError) | SpawnFailed | Panicked

  /** `start`, when the supervisor sets up `xs` and then succeeds or fails. */
  function Started(s: Table, parent: nat, xs: seq<Setup>, fails: bool): (Table, StartResult)
    requires Forest(s) && |s.regions| + |xs| + 1 < USIZE_MAX && !s.panicked
  {
    var created, root := WithChild(s, parent), s.nextRegion;
    if created.Err? then (s, RegionCreate(created.error))
    else
      CreatedKeeps(s, parent);
      SetUpKeeps(created.value, root, xs);
      var u := SetUp(created.value, root, xs);
      if u.panicked then (u, Panicked)
      else if !fails then (u, Running(root))
      else
        var t := CleanedUp(u, root);
        (t, if t.panicked then Panicked else SpawnFailed)
  }

  /** No region of the app's tree waits for an async finalizer. */
  predicate NoneBlocked(s: Table, root: nat) {
    forall id :: id in s.regions && id >= root ==> !Blocked(s.regions[id])
  }

  function AfterSetUp(s: Table, parent: nat, xs: seq<Setup>): (u: Table)
    requires Forest(s) && WithChild(s, parent).Ok?
    ensures Rooted(u, s.nextRegion) && s.nextRegion < u.nextRegion
  {
    CreatedKeeps(s, parent);
    SetUp(WithChild(s, parent).value, s.nextRegion, xs)
  }

  // ------------------------------------------------------------ back to the state before

  lemma WithoutLast(xs: seq<nat>, x: nat)
    requires x !in xs
    ensures Without(xs + [x], x) == xs
  {
    WithoutMembers(xs, x);
    assert (xs + [x])[..|xs|] == xs;
  }

  lemma OldRegionRemains(s: Table, parent: nat, t: Table, id: nat)
    requires Forest(s) && WithChild(s, parent).Ok? && id in s.regions
    requires OutsideKept(WithChild(s, parent).value, t, s.nextRegion)
    ensures id in t.regions
    ensures t.regions[id] == if id != parent || s.nextRegion !in t.regions then s.regions[id]
                             else WithChild(s, parent).value.regions[id]
  {
    var c, root := WithChild(s, parent).value, s.nextRegion;
    NextIsFresh(s);
    assert OuterRegion(c, t, root, id);
    WithoutMembers(s.regions[id].children, root);
    WithoutLast(s.regions[id].children, root);
  }

  /** The tasks and obligations from before are all there, unchanged. */
  lemma OldWorkRemains(s: Table, parent: nat, t: Table)
    requires Forest(s) && WithChild(s, parent).Ok? && OutsideKept(WithChild(s, parent).value, t, s.nextRegion)
    ensures forall x :: x in s.tasks ==> x in t.tasks && t.tasks[x] == s.tasks[x]
    ensures forall o :: o in s.obligations ==> o in t.obligations && t.obligations[o] == s.obligations[o]
    ensures forall x :: x in t.tasks && t.tasks[x].owner < s.nextRegion ==> x in s.tasks
    ensures forall o :: o in t.obligations && t.obligations[o].region < s.nextRegion ==> o in s.obligations
  {
    var c, root := WithChild(s, parent).value, s.nextRegion;
    NextIsFresh(s);
    forall x: nat
      ensures x in s.tasks ==> x in t.tasks && t.tasks[x] == s.tasks[x]
      ensures x in t.tasks && t.tasks[x].owner < root ==> x in s.tasks
    {
      assert OuterTask(c, t, root, x);
    }
    forall o: nat
      ensures o in s.obligations ==> o in t.obligations && t.obligations[o] == s.obligations[o]
      ensures o in t.obligations && t.obligations[o].region < root ==> o in s.obligations
    {
      assert OuterObligation(c, t, root, o);
    }
  }

  /** With nothing left of the tree, the tables are those from before. */
  lemma NothingLeft(s: Table, parent: nat, t: Table)
    requires Forest(s) && Forest(t) && WithChild(s, parent).Ok?
    requires OutsideKept(WithChild(s, parent).value, t, s.nextRegion)
    requires forall id :: id in t.regions ==> id < s.nextRegion
    ensures t.regions == s.regions && t.obligations == s.obligations
  {
    var c, root := WithChild(s, parent).value, s.nextRegion;
    NextIsFresh(s);
    OldWorkRemains(s, parent, t);
    forall id | id in t.regions ensures id in s.regions { assert OuterRegion(c, t, root, id); }
    forall id | id in s.regions ensures id in t.regions && t.regions[id] == s.regions[id] {
      OldRegionRemains(s, parent, t, id);
    }
    forall o | o in t.obligations ensures t.obligations[o].region < root { assert ObligationOk(t, o); }
  }

  lemma CleanupKeepsOutside(u: Table, root: nat)
    requires Rooted(u, root) && root < u.nextRegion && |u.regions| < USIZE_MAX && !u.panicked
    ensures OutsideKept(u, CleanedUp(u, root), root)
  {
    var c, t := Closed(u, root), CleanedUp(u, root);
    CleanedUpSettles(u, root);
    assert OutsideKept(u, c, root);
    ShrunkKeepsOutside(c, t, root);
    OutsideTransitive(u, c, t, root);
  }

  /** Exactly when the tree goes: no region of it waits for an async finalizer. */
  lemma TreeGoesExactly(u: Table, root: nat)
    requires Rooted(u, root) && root < u.nextRegion && |u.regions| < USIZE_MAX && !u.panicked
    requires !CleanedUp(u, root).panicked
    ensures (forall id :: id in CleanedUp(u, root).regions ==> id < root) <==> NoneBlocked(u, root)
  {
    var t := CleanedUp(u, root);
    CleanupIsExact(u, root);
    if NoneBlocked(u, root) {
      forall id | id in t.regions && id >= root ensures false {
        var b :| b in u.regions && Blocked(u.regions[b]) && Under(u, id, b).Some?;
        UnderIsLater(u, id, b);
      }
    } else {
      var b :| b in u.regions && b >= root && Blocked(u.regions[b]);
      assert Under(u, b, b) == Some(0) && Stuck(u, b);
    }
  }

  /**
   * For every set-up that fails, whatever it created, cancelled, advanced or completed:
   * unless a leak panics, the tasks are those from before `start`, the regions from before
   * are untouched up to the parent's child list, and the region table is restored exactly
   * if and only if no region of the tree waits for an async finalizer; the obligations
   * then are restored as well.  A panic needs a policy that asks for one; and whatever the
   * policy is, there is none in the clean-up when the obligations of the tree are held by
   * tasks at or below their regions.
   */
  lemma FailedStartRestores(s: Table, parent: nat, xs: seq<Setup>)
    requires Forest(s) && |s.regions| + |xs| + 1 < USIZE_MAX && !s.panicked
    ensures var (t, r) := Started(s, parent, xs, true);
            if WithChild(s, parent).Err? then t == s && r == RegionCreate(WithChild(s, parent).error)
            else
              && (forall id :: id in s.regions ==> id in t.regions && (id != parent ==> t.regions[id] == s.regions[id]))
              && (r == SpawnFailed || (r == Panicked && MayPanic(s.policy)))
              && (var u := AfterSetUp(s, parent, xs);
                  !u.panicked && Guarded(u, s.nextRegion) ==> r == SpawnFailed)
              && (r == SpawnFailed ==>
                    && t.tasks == s.tasks
                    && (t.regions == s.regions <==> NoneBlocked(AfterSetUp(s, parent, xs), s.nextRegion))
                    && (t.regions == s.regions ==> t.obligations == s.obligations))
  {
    var created, root := WithChild(s, parent), s.nextRegion;
    if created.Ok? {
      var c := created.value;
      CreatedKeeps(s, parent);
      SetUpKeeps(c, root, xs);
      var u := SetUp(c, root, xs);
      if u.panicked {
        forall id | id in s.regions ensures id in u.regions && (id != parent ==> u.regions[id] == s.regions[id]) {
          OldRegionRemains(s, parent, u, id);
        }
      } else {
        var t := CleanedUp(u, root);
        CleanupIsExact(u, root);
        CleanupKeepsOutside(u, root);
        OutsideTransitive(c, u, t, root);
        forall id | id in s.regions ensures id in t.regions && (id != parent ==> t.regions[id] == s.regions[id]) {
          OldRegionRemains(s, parent, t, id);
        }
        if Guarded(u, root) {
          CleanupNeverPanics(u, root);
        }
        if !t.panicked {
          FailedStartIsUndone(s, parent, u, t);
        }
      }
    }
  }

  lemma TasksAreBack(s: Table, parent: nat, t: Table)
    requires Forest(s) && WithChild(s, parent).Ok? && OutsideKept(WithChild(s, parent).value, t, s.nextRegion)
    requires NoneInside(t, s.nextRegion)
    ensures t.tasks == s.tasks
  {
    OldWorkRemains(s, parent, t);
  }

  lemma FailedStartIsUndone(s: Table, parent: nat, u: Table, t: Table)
    requires Forest(s) && WithChild(s, parent).Ok? && OutsideKept(WithChild(s, parent).value, t, s.nextRegion)
    requires Rooted(u, s.nextRegion) && s.nextRegion < u.nextRegion && |u.regions| < USIZE_MAX && !u.panicked
    requires t == CleanedUp(u, s.nextRegion) && !t.panicked
    ensures t.tasks == s.tasks
    ensures t.regions == s.regions <==> NoneBlocked(u, s.nextRegion)
    ensures t.regions == s.regions ==> t.obligations == s.obligations
  {
    NextIsFresh(s);
    CleanupIsExact(u, s.nextRegion);
    TasksAreBack(s, parent, t);
    TreeGoesExactly(u, s.nextRegion);
    if forall id :: id in t.regions ==> id < s.nextRegion {
      NothingLeft(s, parent, t);
    }
  }

  // ------------------------------------------------------------ set-ups without async finalizers

  predicate NoAsync(xs: seq<Setup>) { forall x :: x in xs && x.AddFinalizer? ==> x.f == Sync }

  lemma ShrunkBlocksNone(s: Table, t: Table, root: nat)
    requires Shrunk(s, t, root) && NoneBlocked(s, root)
    ensures NoneBlocked(t, root)
  {
    forall id | id in t.regions && id >= root ensures !Blocked(t.regions[id]) { assert RegionKept(s, t, root, id); }
  }

  lemma StepBlocksNone(s: Table, root: nat, x: Setup)
    requires Rooted(s, root) && root < s.nextRegion && NoneBlocked(s, root) && (x.AddFinalizer? ==> x.f == Sync)
    ensures NoneBlocked(Apply(s, root, x), root)
  {
    if !s.panicked {
      match x
      case Finish(task, cancelled) =>
        if task in s.tasks && s.tasks[task].owner >= root {
          EndedShrinks(s, task, cancelled, root);
          CompletedShrinks(Ended(s, task, cancelled), task, root);
          ShrunkBlocksNone(Ended(s, task, cancelled), Completed(Ended(s, task, cancelled), task), root);
        }
      case Resolve(o) =>
        if o in s.obligations && s.obligations[o].region >= root {
          ResolvedShrinks(s, o, root);
          RootedStays(s, Resolved(s, o), root);
          AdvanceSettles(Resolved(s, o), s.obligations[o].region, root);
          ShrunkBlocksNone(Resolved(s, o), Advance(Resolved(s, o), s.obligations[o].region), root);
        }
      case Cancel(id) =>
        if id >= root && id in s.regions {
          CancelledKeeps(s, root, id);
          ShrunkBlocksNone(Closed(s, id), Cancelled(s, id), root);
        }
      case AdvanceRegion(id) =>
        if id >= root && id in s.regions {
          AdvanceSettles(s, id, root);
          ShrunkBlocksNone(s, Advance(s, id), root);
        }
      case _ =>
    }
  }

  lemma {:induction false} SetUpBlocksNone(s: Table, root: nat, xs: seq<Setup>)
    requires Rooted(s, root) && root < s.nextRegion && NoneBlocked(s, root) && NoAsync(xs)
    ensures NoneBlocked(SetUp(s, root, xs), root)
  {
    if xs != [] {
      var init := xs[..|xs| - 1];
      SetUpBlocksNone(s, root, init);
      StepBlocksNone(SetUp(s, root, init), root, xs[|xs| - 1]);
    }
  }

  /**
   * In the caller's terms: a set-up that registers no async finalizer, however it failed,
   * leaves regions, tasks and obligations as they were before `start`, under every policy
   * that does not panic.
   */
  lemma FailedStartWithoutAsync(s: Table, parent: nat, xs: seq<Setup>)
    requires Forest(s) && |s.regions| + |xs| + 1 < USIZE_MAX && !s.panicked
    requires NoAsync(xs) && !MayPanic(s.policy)
    ensures var (t, _) := Started(s, parent, xs, true);
            t.regions == s.regions && t.tasks == s.tasks && t.obligations == s.obligations
  {
    FailedStartRestores(s, parent, xs);
    if WithChild(s, parent).Ok? {
      CreatedKeeps(s, parent);
      NextIsFresh(s);
      SetUpBlocksNone(WithChild(s, parent).value, s.nextRegion, xs);
    }
  }

  lemma OnlyAFinalizer(s: Table, parent: nat)
    requires Forest(s) && WithChild(s, parent).Ok? && !s.panicked
    ensures var c, root := WithChild(s, parent).value, s.nextRegion;
            root in c.regions && AfterSetUp(s, parent, [AddFinalizer(root, Async)]) == FinalizerAdded(c, root, Async)
  {
    var xs := [AddFinalizer(s.nextRegion, Async)];
    CreatedKeeps(s, parent);
    assert xs[..0] == [] && SetUp(WithChild(s, parent).value, s.nextRegion, []) == WithChild(s, parent).value;
  }

  /** A single async finalizer on the root is enough to leave the app's region behind. */
  lemma AsyncFinalizerStays(s: Table, parent: nat)
    requires Forest(s) && |s.regions| + 2 < USIZE_MAX && !s.panicked
    requires WithChild(s, parent).Ok? && !MayPanic(s.policy)
    ensures var (t, r) := Started(s, parent, [AddFinalizer(s.nextRegion, Async)], true);
            r == SpawnFailed && s.nextRegion !in s.regions && s.nextRegion in t.regions && t.regions != s.regions
  {
    var xs, root := [AddFinalizer(s.nextRegion, Async)], s.nextRegion;
    FailedStartRestores(s, parent, xs);
    CreatedKeeps(s, parent);
    OnlyAFinalizer(s, parent);
    var u := AfterSetUp(s, parent, xs);
    SetUpKeeps(WithChild(s, parent).value, root, xs);
    assert Under(u, root, root) == Some(0) && Stuck(u, root);
    CleanupIsExact(u, root);
  }
}
