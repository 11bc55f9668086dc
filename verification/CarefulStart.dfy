/**
 * A failed start in the caller's terms: as long as obligations are reserved for tasks that
 * work at or below their region, and no task ends with an obligation in hand except by
 * being cancelled, nothing leaks, neither during the set-up nor in the clean-up.
 */
module CarefulStart {
  import opened Prelude
  import opened Regions
  import opened RegionClosing
  import opened RegionWalk
  import opened AppCleanup
  import opened HeldObligations
  import opened AppStart

  /**
   * A step that takes effect reserves only for a task at or below the region, and ends a
   * live task that holds something only as cancelled.
   */
  predicate Careful(s: Table, root: nat, x: Setup)
    requires Forest(s)
  {
    Apply(s, root, x) != s ==>
      match x
      case Reserve(region, holder) => HeldBelow(s, holder, region)
      case Finish(task, cancelled) =>
        cancelled || HoldsNothing(s, task) || (task in s.tasks && s.tasks[task].state.Done?)
      case _ => true
  }

  ghost predicate AllCareful(s: Table, root: nat, xs: seq<Setup>)
    requires Rooted(s, root) && root < s.nextRegion
  {
    xs != [] ==>
      && AllCareful(s, root, xs[..|xs| - 1])
      && Careful(SetUp(s, root, xs[..|xs| - 1]), root, xs[|xs| - 1])
  }

  /** Regions and tasks are added, and the rest stays. */
  ghost predicate Extends(s: Table, t: Table) {
    && SameParents(t, s)
    && (forall x :: x in s.tasks ==> x in t.tasks && t.tasks[x] == s.tasks[x])
    && (forall id :: id in s.regions ==> t.regions[id].phase == s.regions[id].phase)
    && t.obligations == s.obligations
  }

  lemma ExtendedIsGuarded(s: Table, t: Table, root: nat)
    requires Forest(s) && Forest(t) && Guarded(s, root)
    requires forall id :: id in s.regions ==> id in t.regions
    requires Extends(s, t)
    ensures Guarded(t, root)
  {
    forall o | o in t.obligations && t.obligations[o].region >= root ensures GuardedAt(t, o) {
      assert GuardedAt(s, o);
      var holder, region := s.obligations[o].holder, s.obligations[o].region;
      UnderIsLater(s, region, s.tasks[holder].owner);
      UnderStays(t, s, region, s.tasks[holder].owner);
    }
  }

  lemma AddingExtends(s: Table, root: nat, x: Setup)
    requires Forest(s) && (x.NewRegion? || x.NewTask? || x.AddFinalizer?)
    ensures var t := Apply(s, root, x);
            (forall id :: id in s.regions ==> id in t.regions) && Extends(s, t) && t.panicked == s.panicked
  {
    NextIsFresh(s);
  }

  lemma AddingStaysGuarded(s: Table, root: nat, x: Setup)
    requires Rooted(s, root) && root < s.nextRegion && Guarded(s, root) && !s.panicked
    requires x.NewRegion? || x.NewTask? || x.AddFinalizer?
    ensures var t := Apply(s, root, x); Rooted(t, root) && Guarded(t, root) && !t.panicked
  {
    ApplyIsOk(s, root, x);
    AddingExtends(s, root, x);
    ExtendedIsGuarded(s, Apply(s, root, x), root);
  }

  lemma ReserveStaysGuarded(s: Table, root: nat, id: nat, holder: nat)
    requires Rooted(s, root) && root < s.nextRegion && Guarded(s, root) && id >= root
    requires HeldBelow(s, holder, id) && holder < s.nextTask
    ensures var t := Reserved(s, id, holder); Rooted(t, root) && Guarded(t, root)
  {
    var t := Reserved(s, id, holder);
    ReserveKeeps(s, root, id, holder);
    NextIsFresh(s);
    forall o | o in t.obligations && t.obligations[o].region >= root ensures GuardedAt(t, o) {
      assert o != s.nextObligation ==> GuardedAt(s, o);
      var owner := t.tasks[t.obligations[o].holder].owner;
      UnderIsLater(s, t.obligations[o].region, owner);
      UnderStays(s, t, t.obligations[o].region, owner);
    }
  }

  lemma FinishStaysGuarded(s: Table, root: nat, x: Setup)
    requires Rooted(s, root) && root < s.nextRegion && Guarded(s, root) && !s.panicked
    requires x.Finish? && x.task in s.tasks && s.tasks[x.task].owner >= root
    requires x.cancelled || HoldsNothing(s, x.task) || s.tasks[x.task].state.Done?
    ensures var t := Apply(s, root, x); Rooted(t, root) && Guarded(t, root) && !t.panicked
  {
    EndedStaysGuarded(s, x.task, x.cancelled, root);
    CompletedStaysGuarded(Ended(s, x.task, x.cancelled), x.task, root);
  }

  /** A careful step keeps every obligation held properly, and does not panic. */
  lemma StepStaysGuarded(s: Table, root: nat, x: Setup)
    requires Rooted(s, root) && root < s.nextRegion && Guarded(s, root) && !s.panicked && Careful(s, root, x)
    ensures var t := Apply(s, root, x); Rooted(t, root) && Guarded(t, root) && !t.panicked
  {
    if Apply(s, root, x) != s {
      match x
      case Finish(task, cancelled) => FinishStaysGuarded(s, root, x);
      case Resolve(o) =>
        ResolvedStaysGuarded(s, o, root);
        AdvanceStaysGuarded(Resolved(s, o), s.obligations[o].region, root);
      case Reserve(id, holder) => ReserveStaysGuarded(s, root, id, holder);
      case Cancel(id) => CancelledStaysGuarded(s, root, id);
      case AdvanceRegion(id) => AdvanceStaysGuarded(s, id, root);
      case _ => AddingStaysGuarded(s, root, x);
    }
  }

  lemma {:induction false} SetUpStaysGuarded(s: Table, root: nat, xs: seq<Setup>)
    requires Rooted(s, root) && root < s.nextRegion && Guarded(s, root) && !s.panicked && AllCareful(s, root, xs)
    ensures var t := SetUp(s, root, xs); Guarded(t, root) && !t.panicked
  {
    if xs != [] {
      SetUpStaysGuarded(s, root, xs[..|xs| - 1]);
      StepStaysGuarded(SetUp(s, root, xs[..|xs| - 1]), root, xs[|xs| - 1]);
    }
  }

  /** The set-up is careful from the new root on. */
  ghost predicate CarefulFrom(s: Table, parent: nat, xs: seq<Setup>)
    requires Forest(s) && WithChild(s, parent).Ok?
  {
    CreatedKeeps(s, parent);
    AllCareful(WithChild(s, parent).value, s.nextRegion, xs)
  }

  /** In the new tree nothing is reserved yet. */
  lemma CreatedIsGuarded(s: Table, parent: nat)
    requires Forest(s) && WithChild(s, parent).Ok?
    ensures Forest(WithChild(s, parent).value) && Guarded(WithChild(s, parent).value, s.nextRegion)
  {
    CreatedKeeps(s, parent);
    NextIsFresh(s);
  }

  /**
   * Under every policy on leaks, the one that panics on each of them included: a careful
   * set-up does not panic, and neither does cleaning up after it; and if moreover it
   * registers no async finalizer, then regions, tasks and obligations are in the end what
   * they were before `start`.
   */
  lemma CarefulStartIsUndone(s: Table, parent: nat, xs: seq<Setup>)
    requires Forest(s) && |s.regions| + |xs| + 1 < USIZE_MAX && !s.panicked
    requires WithChild(s, parent).Ok? && CarefulFrom(s, parent, xs)
    ensures var (t, r) := Started(s, parent, xs, true);
            && r == SpawnFailed && t.tasks == s.tasks
            && (NoAsync(xs) ==> t.regions == s.regions && t.obligations == s.obligations)
  {
    var c, root := WithChild(s, parent).value, s.nextRegion;
    CreatedKeeps(s, parent);
    CreatedIsGuarded(s, parent);
    SetUpStaysGuarded(c, root, xs);
    FailedStartRestores(s, parent, xs);
    NextIsFresh(s);
    if NoAsync(xs) {
      SetUpBlocksNone(c, root, xs);
    }
  }

  /** A set-up that reserves no obligation is careful, whatever else it does. */
  lemma {:induction false} NoReserveIsCareful(s: Table, root: nat, xs: seq<Setup>)
    requires Rooted(s, root) && root < s.nextRegion && NoneReserved(s, root)
    requires forall x :: x in xs ==> !x.Reserve?
    ensures AllCareful(s, root, xs) && NoneReserved(SetUp(s, root, xs), root)
  {
    if xs != [] {
      var init, x := xs[..|xs| - 1], xs[|xs| - 1];
      var t := SetUp(s, root, init);
      NoReserveIsCareful(s, root, init);
      StepReservesNothing(t, root, x);
      NothingHeldInside(t, root);
    }
  }

  /** No obligation of the tree is pending. */
  predicate NoneReserved(s: Table, root: nat) { forall o :: o in s.obligations ==> s.obligations[o].region < root }

  lemma NothingHeldInside(s: Table, root: nat)
    requires Rooted(s, root) && NoneReserved(s, root)
    ensures forall x :: x in s.tasks && s.tasks[x].owner >= root ==> HoldsNothing(s, x)
  {
    forall x, o | x in s.tasks && s.tasks[x].owner >= root && o in s.obligations ensures s.obligations[o].holder != x {
      assert HeldIn(s, root, o);
    }
  }

  lemma FinishReservesNothing(s: Table, root: nat, x: Setup)
    requires Rooted(s, root) && NoneReserved(s, root) && x.Finish?
    ensures NoneReserved(Apply(s, root, x), root)
  {
    if !s.panicked && x.task in s.tasks && s.tasks[x.task].owner >= root {
      EndedShrinks(s, x.task, x.cancelled, root);
      CompletedShrinks(Ended(s, x.task, x.cancelled), x.task, root);
      ShrunkReservesNothing(Ended(s, x.task, x.cancelled), Apply(s, root, x), root);
    }
  }

  lemma ClosingReservesNothing(s: Table, root: nat, x: Setup)
    requires Rooted(s, root) && NoneReserved(s, root) && (x.Cancel? || x.AdvanceRegion?)
    ensures NoneReserved(Apply(s, root, x), root)
  {
    if !s.panicked && x.region >= root && x.region in s.regions {
      if x.Cancel? {
        CancelledKeeps(s, root, x.region);
        ShrunkReservesNothing(Closed(s, x.region), Apply(s, root, x), root);
      } else {
        AdvanceSettles(s, x.region, root);
        ShrunkReservesNothing(s, Apply(s, root, x), root);
      }
    }
  }

  lemma StepReservesNothing(s: Table, root: nat, x: Setup)
    requires Rooted(s, root) && root < s.nextRegion && NoneReserved(s, root) && !x.Reserve?
    ensures NoneReserved(Apply(s, root, x), root)
  {
    if x.Finish? {
      FinishReservesNothing(s, root, x);
    } else if x.Cancel? || x.AdvanceRegion? {
      ClosingReservesNothing(s, root, x);
    } else if x.Resolve? {
      assert Apply(s, root, x) == s;
    } else {
      AddingExtends(s, root, x);
    }
  }

  lemma ShrunkReservesNothing(s: Table, t: Table, root: nat)
    requires Shrunk(s, t, root) && NoneReserved(s, root)
    ensures NoneReserved(t, root)
  {
    forall o | o in t.obligations ensures t.obligations[o].region < root { assert ObligationKept(s, t, root, o); }
  }
}
