/**
 * No region is left waiting when it could close: whatever ends or is resolved, the regions
 * that nothing keeps any more are closed by the call itself
 * (patches/asupersync/src/runtime/state.rs:1144-1481, 1930-2011 and 2264-2395).
 */
module ClosingProgress {
  import opened Prelude
  import opened Regions
  import opened RegionClosing
  import opened RegionWalk
  import opened AppCleanup
  import opened AppStart

  /** No region but possibly `id` could close at once. */
  ghost predicate OnlyCandidate(s: Table, id: nat) {
    forall x {:trigger CanClose(s, x)} :: CanClose(s, x) ==> x == id
  }

  /** No region could close at once. */
  ghost predicate NoneCanClose(s: Table) { forall x {:trigger CanClose(s, x)} :: !CanClose(s, x) }

  /** In `t`, region `x` is no nearer to its close than in `s`. */
  predicate NoNearer(s: Table, t: Table, x: nat) {
    && (forall o :: o in s.obligations && s.obligations[o].region == x ==>
          o in t.obligations && t.obligations[o] == s.obligations[o])
    && (x in t.regions && t.regions[x].phase == Finalizing ==>
          && x in s.regions && s.regions[x].phase == Finalizing
          && (t.regions[x].finalizers == [] ==> s.regions[x].finalizers == [])
          && (Idle(t.regions[x]) ==> Idle(s.regions[x])))
  }

  lemma NoNearerCloses(s: Table, t: Table, x: nat)
    requires NoNearer(s, t, x)
    ensures CanClose(t, x) ==> CanClose(s, x)
  {
    if Pending(s, x) {
      var o :| o in s.obligations && s.obligations[o].region == x;
      assert o in t.obligations && t.obligations[o].region == x;
    }
  }

  lemma OnlyOneNearer(s: Table, t: Table, id: nat)
    requires OnlyCandidate(s, id) && forall x {:trigger NoNearer(s, t, x)} :: x != id ==> NoNearer(s, t, x)
    ensures OnlyCandidate(t, id)
  {
    forall x | x != id ensures CanClose(t, x) ==> CanClose(s, x) {
      assert NoNearer(s, t, x);
      NoNearerCloses(s, t, x);
    }
  }

  lemma NoneNearer(s: Table, t: Table)
    requires NoneCanClose(s) && forall x {:trigger NoNearer(s, t, x)} :: NoNearer(s, t, x)
    ensures NoneCanClose(t)
  {
    forall x ensures CanClose(t, x) ==> CanClose(s, x) {
      assert NoNearer(s, t, x);
      NoNearerCloses(s, t, x);
    }
  }

  // ------------------------------------------------------------ single changes

  lemma FinalizersMakeOneCandidate(s: Table, id: nat)
    requires OnlyCandidate(s, id) && id in s.regions
    ensures OnlyCandidate(FinalizersRun(s, id), id) && OnlyCandidate(Begun(s, id), id)
  {
    OnlyOneNearer(s, FinalizersRun(s, id), id);
    OnlyOneNearer(s, Begun(s, id), id);
  }

  lemma RemovalMakesOneCandidate(s: Table, id: nat)
    requires OnlyCandidate(s, id) && id in s.regions
    ensures match s.regions[id].parent
            case Some(p) => OnlyCandidate(Removed(s, id), p)
            case None => NoneCanClose(Removed(s, id))
  {
    var t, parent := Removed(s, id), s.regions[id].parent;
    forall x: nat ensures CanClose(t, x) ==> parent == Some(x) {
      if parent != Some(x) {
        NoNearerCloses(s, t, x);
      }
    }
  }

  lemma DrainingClosesNothing(s: Table, id: nat)
    requires OnlyCandidate(s, id) && id in s.regions && s.regions[id].phase != Finalizing
    ensures match Drained(s, id).1
            case Some(next) => next == id && OnlyCandidate(Drained(s, id).0, id)
            case None => NoneCanClose(Drained(s, id).0)
  {
    FinalizersMakeOneCandidate(s, id);
    if Drained(s, id).1 == None {
      assert NoneCanClose(s);
      NoneNearer(s, Drained(s, id).0);
    }
  }

  lemma ClosingMovesOn(s: Table, id: nat)
    requires OnlyCandidate(s, id)
    ensures match ClosedIfPossible(s, id).1
            case Some(next) => OnlyCandidate(ClosedIfPossible(s, id).0, next)
            case None => NoneCanClose(ClosedIfPossible(s, id).0)
  {
    if CanClose(s, id) {
      RemovalMakesOneCandidate(s, id);
    }
  }

  lemma ResolvedMakesOneCandidate(s: Table, o: nat)
    requires NoneCanClose(s) && o in s.obligations
    ensures OnlyCandidate(Resolved(s, o), s.obligations[o].region)
  {
    OnlyOneNearer(s, Resolved(s, o), s.obligations[o].region);
  }

  // ------------------------------------------------------------ advancing

  lemma {:induction false} InnerAdvanceClosesAll(s: Table, id: nat)
    requires OnlyCandidate(s, id)
    ensures NoneCanClose(InnerAdvance(s, id))
    decreases |s.regions|, id in s.regions && s.regions[id].phase != Finalizing
  {
    var (t, next) := InnerTurn(s, id);
    if id in s.regions && s.regions[id].phase != Open {
      if s.regions[id].phase != Finalizing {
        DrainingClosesNothing(s, id);
      } else {
        FinalizersMakeOneCandidate(s, id);
        ClosingMovesOn(FinalizersRun(s, id), id);
      }
    }
    if next.Some? {
      InnerTurnDescends(s, id);
      InnerAdvanceClosesAll(t, next.value);
    }
  }

  lemma {:induction false} ResolvingClosesAll(s: Table, os: seq<nat>)
    requires NoneCanClose(s)
    ensures NoneCanClose(ResolveAll(s, os))
  {
    if os != [] {
      ResolvingClosesAll(s, os[..|os| - 1]);
      var t, o := ResolveAll(s, os[..|os| - 1]), os[|os| - 1];
      if o in t.obligations {
        ResolvedMakesOneCandidate(t, o);
        InnerAdvanceClosesAll(Resolved(t, o), t.obligations[o].region);
      }
    }
  }

  /** Handling leaks closes every region that only waited for them. */
  lemma LeaksLetRegionsClose(s: Table, os: seq<nat>)
    requires NoneCanClose(s)
    ensures NoneCanClose(LeaksHandled(s, os))
  {
    SameCandidates(s, Counted(s, os));
    ResolvingClosesAll(Counted(s, os), os);
    var t := ResolveAll(Counted(s, os), os);
    SameCandidates(t, t.(panicked := true));
  }

  lemma SameCandidates(s: Table, t: Table)
    requires t.regions == s.regions && t.obligations == s.obligations
    ensures forall x {:trigger CanClose(t, x)} {:trigger CanClose(s, x)} :: CanClose(t, x) <==> CanClose(s, x)
  {
    forall x ensures CanClose(t, x) <==> CanClose(s, x) { assert Pending(t, x) <==> Pending(s, x); }
  }

  lemma FinalizedMakesOneCandidate(s: Table, id: nat)
    requires OnlyCandidate(s, id) && id in s.regions
    ensures OnlyCandidate(Finalized(s, id), id)
  {
    FinalizersMakeOneCandidate(s, id);
    var t := FinalizersRun(s, id);
    if OfRegion(t, id) != [] {
      PickedMembers(t.obligations, (o: Obligation) => o.region == id, t.nextObligation);
      assert OfRegion(t, id)[0] in OfRegion(t, id);
      assert Pending(t, id) && NoneCanClose(t);
      LeaksLetRegionsClose(t, OfRegion(t, id));
    }
  }

  lemma TurnMovesOn(s: Table, id: nat)
    requires OnlyCandidate(s, id)
    ensures match Turn(s, id).1
            case Some(next) => OnlyCandidate(Turn(s, id).0, next)
            case None => Turn(s, id).0.panicked || NoneCanClose(Turn(s, id).0)
  {
    if id in s.regions && s.regions[id].phase != Open {
      if s.regions[id].phase != Finalizing {
        DrainingClosesNothing(s, id);
      } else {
        FinalizedMakesOneCandidate(s, id);
        ClosingMovesOn(Finalized(s, id), id);
      }
    }
  }

  /** Advancing the one region that could close leaves none that could, all the way up. */
  lemma {:induction false} AdvanceClosesAll(s: Table, id: nat)
    requires OnlyCandidate(s, id)
    ensures Advance(s, id).panicked || NoneCanClose(Advance(s, id))
    decreases |s.regions|, id in s.regions && s.regions[id].phase != Finalizing
  {
    if !s.panicked {
      TurnMovesOn(s, id);
      var (t, next) := Turn(s, id);
      if next.Some? {
        TurnDescends(s, id);
        AdvanceClosesAll(t, next.value);
      }
    }
  }

  // ------------------------------------------------------------ completing a task

  lemma {:induction false} AbortingClosesAll(s: Table, os: seq<nat>)
    requires s.panicked || NoneCanClose(s)
    ensures AbortAll(s, os).panicked || NoneCanClose(AbortAll(s, os))
  {
    if os != [] {
      AbortingClosesAll(s, os[..|os| - 1]);
      var t, o := AbortAll(s, os[..|os| - 1]), os[|os| - 1];
      if !t.panicked && o in t.obligations {
        ResolvedMakesOneCandidate(t, o);
        AdvanceClosesAll(Resolved(t, o), t.obligations[o].region);
      }
    }
  }

  lemma TaskRemovedMakesOneCandidate(s: Table, task: nat, owner: nat)
    requires NoneCanClose(s)
    ensures OnlyCandidate(TaskRemoved(s, task, owner), owner)
  {
    OnlyOneNearer(s, TaskRemoved(s, task, owner), owner);
  }

  /** When a task has ended, every region that only waited for it, or for what it held, is gone. */
  lemma CompletingClosesAll(s: Table, task: nat)
    requires NoneCanClose(s)
    ensures Completed(s, task).panicked || NoneCanClose(Completed(s, task))
  {
    if !s.panicked && task in s.tasks {
      LeaksLetRegionsClose(s, HeldBy(s, task));
      var t := if s.tasks[task].state == Done(true) then s else LeaksHandled(s, HeldBy(s, task));
      AbortingClosesAll(t, HeldBy(t, task));
      var u, owner := Released(s, task), s.tasks[task].owner;
      if !u.panicked {
        TaskRemovedMakesOneCandidate(u, task, owner);
        AdvanceClosesAll(TaskRemoved(u, task, owner), owner);
      }
    }
  }

  // ------------------------------------------------------------ every step of an application

  lemma {:induction false} CancellingClosesAll(s: Table, nodes: seq<Node>)
    requires NoneCanClose(s)
    ensures AdvanceIdle(s, nodes).panicked || NoneCanClose(AdvanceIdle(s, nodes))
  {
    if nodes != [] {
      CancellingClosesAll(s, nodes[..|nodes| - 1]);
      var t, id := AdvanceIdle(s, nodes[..|nodes| - 1]), nodes[|nodes| - 1].id;
      if !t.panicked {
        AdvanceClosesAll(t, id);
      }
    }
  }

  lemma ClosingStartsNothing(s: Table, root: nat)
    requires Forest(s) && NoneCanClose(s)
    ensures NoneCanClose(Closed(s, root))
  {
    var nodes := ShallowestFirst(Tree(s, root));
    var t := Closed(s, root);
    CloseAllOnlyCloses(s, nodes);
    forall x ensures NoNearer(s, t, x) {
      if x in s.regions {
        assert t.regions[x] == ClosedRegion(s, nodes, x);
      }
    }
    NoneNearer(s, t);
  }

  lemma CancelClosesAll(s: Table, root: nat)
    requires Forest(s) && NoneCanClose(s)
    ensures Cancelled(s, root).panicked || NoneCanClose(Cancelled(s, root))
  {
    ClosingStartsNothing(s, root);
    CancellingClosesAll(Closed(s, root), ShallowestFirst(Tree(s, root)));
  }

  lemma AddingStep(s: Table, root: nat, x: Setup)
    requires Forest(s) && NoneCanClose(s) && (x.NewRegion? || x.NewTask? || x.AddFinalizer? || x.Reserve?)
    ensures NoneCanClose(Apply(s, root, x))
  {
    NextIsFresh(s);
    NoneNearer(s, Apply(s, root, x));
  }

  /**
   * No step of an application leaves a region that could close: not creating, not cancelling,
   * not ending a task, not resolving an obligation; unless a leak panics in it.
   */
  lemma NothingIsLeftToClose(s: Table, root: nat, x: Setup)
    requires Forest(s) && (s.panicked || NoneCanClose(s))
    ensures Apply(s, root, x).panicked || NoneCanClose(Apply(s, root, x))
  {
    if !s.panicked {
      match x
      case Finish(task, cancelled) =>
        SameCandidates(s, Ended(s, task, cancelled));
        CompletingClosesAll(Ended(s, task, cancelled), task);
      case Resolve(o) =>
        if o in s.obligations {
          ResolvedMakesOneCandidate(s, o);
          AdvanceClosesAll(Resolved(s, o), s.obligations[o].region);
        }
      case Cancel(id) => CancelClosesAll(s, id);
      case AdvanceRegion(id) => AdvanceClosesAll(s, id);
      case _ => AddingStep(s, root, x);
    }
  }

  /** So it is in every state that a set-up reaches, from any state in which it was so. */
  lemma {:induction false} SetUpLeavesNothingToClose(s: Table, root: nat, xs: seq<Setup>)
    requires Rooted(s, root) && root < s.nextRegion && NoneCanClose(s)
    ensures SetUp(s, root, xs).panicked || NoneCanClose(SetUp(s, root, xs))
  {
    if xs != [] {
      SetUpLeavesNothingToClose(s, root, xs[..|xs| - 1]);
      NothingIsLeftToClose(SetUp(s, root, xs[..|xs| - 1]), root, xs[|xs| - 1]);
    }
  }
}
