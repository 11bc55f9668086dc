/**
 * What makes the actor of `Actor` start, serve, stop and restart: each law ties what happens
 * to what callers and the supervisor did.
 */
module ActorProgress {
  import opened Prelude
  import opened Actor

  // ------------------------------------------------------------ verdicts

  /** The panics so far that the supervisor answered with Restart. */
  function Restarts<M(==)>(capacity: nat, mask: nat, actions: seq<Action<M>>): nat {
    if actions == [] then 0
    else
      var init, a := actions[..|actions| - 1], actions[|actions| - 1];
      var restarts := Run(capacity, mask, init).pc.Panicked? && a == Task(Supervise(Restart));
      Restarts(capacity, mask, init) + if restarts then 1 else 0
  }

  predicate Counted<M>(s: State<M>, restarts: nat) {
    && restarts == |s.past.earlier| + (if s.pc.Restarting? then 1 else 0)
    && s.past.factoryCalls == 1 + |s.past.earlier| && s.past.restarts == restarts
  }

  lemma StepCounts<M>(s: State<M>, a: Action<M>, restarts: nat)
    requires Counted(s, restarts)
    ensures Counted(Do(s, a), restarts + if s.pc.Panicked? && a == Task(Supervise(Restart)) then 1 else 0)
  {
    if a.Task? && a.act.Advance? {
      NextKeepsHistory(s);
    }
  }

  lemma NextKeepsHistory<M>(s: State<M>)
    ensures Next(s).past.earlier == s.past.earlier && Next(s).past.factoryCalls == s.past.factoryCalls
    ensures Next(s).past.restarts == s.past.restarts
    ensures Next(s).pc.Restarting? <==> s.pc.Restarting?
    ensures Next(s).pc.Panicked? <==> s.pc.Panicked?
  {
  }

  /**
   * Over every run, the incarnations after the first are as many as the panics answered with
   * Restart, but for one that is still waiting for the factory; and the factory was called
   * once for each incarnation.
   */
  lemma {:induction false} EachRestartMakesOne<M>(capacity: nat, mask: nat, actions: seq<Action<M>>)
    ensures Counted(Run(capacity, mask, actions), Restarts(capacity, mask, actions))
  {
    if actions != [] {
      var init, a := actions[..|actions| - 1], actions[|actions| - 1];
      EachRestartMakesOne(capacity, mask, init);
      StepCounts(Run(capacity, mask, init), a, Restarts(capacity, mask, init));
    }
  }

  predicate Ended<M>(s: State<M>) { Done(s.pc) && s.pc.how.Crashed? }

  lemma EndedStays<M>(s: State<M>, a: Action<M>)
    requires Ended(s)
    ensures var t := Do(s, a);
            && Ended(t) && t.past.earlier == s.past.earlier && t.past.now == s.past.now
            && t.past.factoryCalls == s.past.factoryCalls
  {
  }

  function DoAll<M>(s: State<M>, actions: seq<Action<M>>): State<M> {
    if actions == [] then s else Do(DoAll(s, actions[..|actions| - 1]), actions[|actions| - 1])
  }

  lemma {:induction false} EndedForGood<M>(s: State<M>, more: seq<Action<M>>)
    requires Ended(s)
    ensures var t := DoAll(s, more);
            && Ended(t) && t.past.earlier == s.past.earlier && t.past.now == s.past.now
            && t.past.factoryCalls == s.past.factoryCalls
  {
    if more != [] {
      EndedForGood(s, more[..|more| - 1]);
      EndedStays(DoAll(s, more[..|more| - 1]), more[|more| - 1]);
    }
  }

  /**
   * A panic that the supervisor answers with Stop or Escalate ends the actor as crashed, for
   * every continuation: nothing more is delivered and no factory is called.
   */
  lemma StopVerdictIsFinal<M>(s: State<M>, v: Verdict, more: seq<Action<M>>)
    requires s.pc.Panicked? && v != Restart
    ensures var t := DoAll(Do(s, Task(Supervise(v))), more);
            && Done(t.pc) && t.pc.how == Crashed
            && Incarnations(t.past) == Incarnations(s.past) && t.past.factoryCalls == s.past.factoryCalls
  {
    EndedForGood(Do(s, Task(Supervise(v))), more);
  }

  /** A longer run goes on from where the shorter one ended. */
  lemma {:induction false} RunGoesOn<M>(capacity: nat, mask: nat, actions: seq<Action<M>>, more: seq<Action<M>>)
    ensures Run(capacity, mask, actions + more) == DoAll(Run(capacity, mask, actions), more)
    decreases |more|
  {
    if more == [] {
      assert actions + more == actions;
    } else {
      RunGoesOn(capacity, mask, actions, more[..|more| - 1]);
      assert (actions + more)[..|actions + more| - 1] == actions + more[..|more| - 1];
    }
  }

  /** Answered with Restart, a fresh incarnation starts from state Created with the mailbox as it is. */
  lemma RestartVerdictStartsOver<M>(s: State<M>)
    requires s.pc.Panicked?
    ensures var t := DoAll(s, [Task(Supervise(Restart)), Task(CallFactory)]);
            && t.pc == Entering && t.cell == Created && t.box == s.box && t.mask == s.mask && t.cancel == s.cancel
            && t.past.earlier == s.past.earlier + [s.past.now] && t.past.now == Incarnation(Fresh, [])
  {
    Two(s, Task(Supervise(Restart)), Task(CallFactory));
  }

  lemma DoneLast<M>(s: State<M>, init: seq<Action<M>>, a: Action<M>)
    ensures DoAll(s, init + [a]) == Do(DoAll(s, init), a)
  {
    assert (init + [a])[..|init|] == init;
  }

  lemma Two<M>(s: State<M>, a: Action<M>, b: Action<M>)
    ensures DoAll(s, [a, b]) == Do(Do(s, a), b)
  {
    DoneLast(s, [], a);
    DoneLast(s, [a], b);
    assert [] + [a] == [a] && [a] + [b] == [a, b];
  }

  lemma Three<M>(s: State<M>, a: Action<M>, b: Action<M>, c: Action<M>)
    ensures DoAll(s, [a, b, c]) == Do(Do(Do(s, a), b), c)
  {
    Two(s, a, b);
    DoneLast(s, [a, b], c);
    assert [a, b] + [c] == [a, b, c];
  }

  // ------------------------------------------------------------ starting

  /** A new incarnation runs on_start and is then in its loop, Running unless it was stopped before. */
  lemma StartsServing<M>(s: State<M>)
    requires s.pc == Entering && s.past.now == Incarnation(Fresh, [])
    ensures var t := DoAll(Next(Next(s)), [Task(Advance), Task(Return)]);
            s.cell != Stopping ==>
              t == s.(pc := CheckCancel, cell := Running, past := t.past) && t.past.now.stage == Serving
    ensures var t := DoAll(Next(s), [Task(Advance), Task(Return)]);
            s.cell == Stopping ==> t == s.(pc := CheckCancel, past := t.past) && t.past.now.stage == Serving
  {
    Two(Next(Next(s)), Task(Advance), Task(Return));
    Two(Next(s), Task(Advance), Task(Return));
  }

  // ------------------------------------------------------------ serving

  /** One round of the loop: check, poll, and the handler returns. */
  function Round<M>(s: State<M>): State<M> { DoAll(s, [Task(Advance), Task(Advance), Task(Return)]) }

  function Rounds<M>(s: State<M>, n: nat): State<M> { if n == 0 then s else Round(Rounds(s, n - 1)) }

  lemma RoundServes<M>(s: State<M>)
    requires s.pc.CheckCancel? && !s.cancel && s.box.queue != []
    ensures var t := Round(s);
            && t.pc.CheckCancel? && t.cancel == s.cancel && t.cell == s.cell && t.mask == s.mask
            && t.past.now.handled == s.past.now.handled + [s.box.queue[0]]
            && t.box == s.box.(queue := s.box.queue[1..])
            && (s.past.now.stage == Serving ==> t.past.now.stage == Serving)
  {
    Three(s, Task(Advance), Task(Advance), Task(Return));
  }

  /** Left alone, the loop hands the queued messages to the actor one by one, in order. */
  lemma {:induction false} RoundsServeInOrder<M>(s: State<M>, n: nat)
    requires s.pc.CheckCancel? && !s.cancel && n <= |s.box.queue|
    ensures var t := Rounds(s, n);
            && t.pc.CheckCancel? && !t.cancel && t.cell == s.cell && t.mask == s.mask
            && t.past.now.handled == s.past.now.handled + s.box.queue[..n]
            && t.box == s.box.(queue := s.box.queue[n..])
            && (s.past.now.stage == Serving ==> t.past.now.stage == Serving)
  {
    if n > 0 {
      RoundsServeInOrder(s, n - 1);
      var t := Rounds(s, n - 1);
      RoundServes(t);
      assert t.box.queue[0] == s.box.queue[n - 1];
      assert s.box.queue[..n] == s.box.queue[..n - 1] + [s.box.queue[n - 1]];
      Assoc(s.past.now.handled, s.box.queue[..n - 1], [s.box.queue[n - 1]]);
    }
  }

  /** A caller with a place in the mailbox delivers; without one, it is not accepted. */
  lemma SendIsAccepted<M>(s: State<M>, m: M)
    requires s.box.senders > 0 && !s.box.closed
    ensures var t := DoAll(s, [Env(Reserve), Env(Commit(m))]);
            |s.box.queue| + s.box.reserved < s.box.capacity ==>
              && t.box == s.box.(queue := s.box.queue + [m]) && t.past.accepted == s.past.accepted + [m]
    ensures |s.box.queue| + s.box.reserved >= s.box.capacity ==> Do(s, Env(Reserve)) == s
  {
    Two(s, Env(Reserve), Env(Commit(m)));
  }

  /** A place that is given back unused leaves no trace. */
  lemma UnusedPlaceIsFree<M>(s: State<M>)
    requires s.box.senders > 0 && !s.box.closed && |s.box.queue| + s.box.reserved < s.box.capacity
    ensures DoAll(s, [Env(Reserve), Env(CancelReserve)]) == s
    ensures Do(s, Env(Reserve)) != s
  {
    Two(s, Env(Reserve), Env(CancelReserve));
  }

  lemma StaysClosed<M>(s: State<M>, a: Action<M>)
    requires s.box.closed
    ensures var t := Do(s, a);
            t.box.closed && t.past.accepted == s.past.accepted && t.box.reserved <= s.box.reserved
  {
  }

  /** Once closed, a mailbox stays closed, hands out no place and accepts nothing. */
  lemma {:induction false} ClosedTakesNothing<M>(s: State<M>, more: seq<Action<M>>)
    requires s.box.closed
    ensures var t := DoAll(s, more);
            t.box.closed && t.past.accepted == s.past.accepted && t.box.reserved <= s.box.reserved
  {
    if more != [] {
      ClosedTakesNothing(s, more[..|more| - 1]);
      StaysClosed(DoAll(s, more[..|more| - 1]), more[|more| - 1]);
    }
  }

  /**
   * While another sender is left, a dropped one changes nothing for the actor and its
   * senders; the last one ends the loop once the mailbox is empty.
   */
  lemma LastSenderEndsTheLoop<M>(s: State<M>, m: M)
    requires s.pc.Polling? && !s.cancel && s.cell != Stopping && !s.box.closed && s.box.reserved == 0
    requires s.box.queue == [] && s.box.capacity > 0
    ensures var t := Do(s, Env(DropSender));
            && (s.box.senders == 1 ==> Next(t).pc.LeavingLoop?)
            && (s.box.senders > 1 ==>
                  && Next(Next(t)) == t
                  && DoAll(t, [Env(Reserve), Env(Commit(m))]).past.accepted == s.past.accepted + [m])
  {
    if s.box.senders > 1 {
      SendIsAccepted(Do(s, Env(DropSender)), m);
    }
  }

  /** Nobody stops, aborts, cancels, leaves or crashes. */
  predicate Undisturbed<M(==)>(actions: seq<Action<M>>) { forall a :: a in actions ==> !Disturbs(a) }

  predicate Disturbs<M(==)>(a: Action<M>) {
    a == Env(HandleStop) || a == Env(HandleAbort) || a == Env(CancelRegion) || a == Env(DropSender) || a == Task(Panic)
  }

  predicate InService<M>(s: State<M>) {
    && !s.cancel && s.cell != Stopping && s.box.senders > 0 && !s.box.closed
    && s.past.earlier == [] && s.past.dropped == [] && s.past.left == []
    && (s.pc.Entering? || s.pc.MarkRunning? || s.pc.AtStart? || s.pc.InStart? || s.pc.CheckCancel? || s.pc.Polling?
        || s.pc.PolledPending? || s.pc == InHandle(false))
  }

  lemma ServiceGoesOn<M>(s: State<M>, a: Action<M>)
    requires InService(s) && !Disturbs(a)
    ensures InService(Do(s, a))
  {
  }

  /**
   * An actor that nobody stops, cancels or leaves stays in its loop for ever, and whatever it
   * accepted is handled or still queued.
   */
  lemma {:induction false} ServesUntilDisturbed<M>(capacity: nat, mask: nat, actions: seq<Action<M>>)
    requires Undisturbed(actions)
    ensures var s := Run(capacity, mask, actions);
            InService(s) && s.past.accepted == s.past.now.handled + s.box.queue
  {
    var s := Run(capacity, mask, actions);
    if actions != [] {
      ServesUntilDisturbed(capacity, mask, actions[..|actions| - 1]);
      assert actions[|actions| - 1] in actions;
      ServiceGoesOn(Run(capacity, mask, actions[..|actions| - 1]), actions[|actions| - 1]);
    }
    EveryRunKeeps(capacity, mask, actions);
    assert Deliveries(s.past.earlier) == [];
    NothingButHandled(s.past.now.handled, s.box.queue);
  }

  lemma NothingButHandled<M>(handled: seq<M>, queue: seq<M>)
    ensures [] + handled + [] + [] + queue == handled + queue
  {
  }

  // ------------------------------------------------------------ leaving

  /** Cancellation has been seen at the head of the loop, or later. */
  predicate OnItsWayOut<M>(s: State<M>) {
    s.cancel &&
    match s.pc
    case CheckCancel => true
    case LeavingLoop => true
    case Deciding => true
    case ClosingMailbox(aborted) => aborted
    case Draining(aborted) => aborted
    case Masking => true
    case InStop => true
    case Panicked => true
    case Restarting => true
    case Finished(_) => true
    case Retired(_) => true
    case Gone(_) => true
    case _ => false
  }

  lemma WayOutGoesOn<M>(s: State<M>, a: Action<M>)
    requires OnItsWayOut(s) && a != Task(CallFactory)
    ensures OnItsWayOut(Do(s, a)) && Do(s, a).past.now.handled == s.past.now.handled
    ensures Do(s, a).past.earlier == s.past.earlier
  {
  }

  /** Once the loop has seen the cancellation, this incarnation is given nothing more. */
  lemma {:induction false} CancelledIsGivenNothing<M>(s: State<M>, more: seq<Action<M>>)
    requires OnItsWayOut(s) && Task(CallFactory) !in more
    ensures var t := DoAll(s, more);
            OnItsWayOut(t) && t.past.now.handled == s.past.now.handled && t.past.earlier == s.past.earlier
  {
    if more != [] {
      CancelledIsGivenNothing(s, more[..|more| - 1]);
      WayOutGoesOn(DoAll(s, more[..|more| - 1]), more[|more| - 1]);
    }
  }

  /** An abort at the head of the loop, or a cancelled region, ends all delivery to this incarnation. */
  lemma AbortEndsDelivery<M>(s: State<M>, a: Action<M>, more: seq<Action<M>>)
    requires s.pc.CheckCancel? && (a == Env(HandleAbort) || a == Env(CancelRegion)) && Task(CallFactory) !in more
    ensures var t := DoAll(Do(s, a), more);
            && t.past.now.handled == s.past.now.handled && t.past.earlier == s.past.earlier
            && (a == Env(HandleAbort) ==> Do(s, a).cell == Stopping) && Do(s, a).box == s.box
  {
    CancelledIsGivenNothing(Do(s, a), more);
  }

  /** A cancellation that arrives while the loop is polling ends it, unless it is masked. */
  lemma CancelReachesThePoll<M>(s: State<M>)
    requires s.pc.Polling? && s.cancel
    ensures s.mask == 0 ==> Next(s) == s.(pc := LeavingLoop)
    ensures s.mask > 0 && s.box.queue != [] ==>
              var t := Next(s);
              && t.pc == InHandle(false) && t.box.queue == s.box.queue[1..]
              && t.past.now.handled == s.past.now.handled + [s.box.queue[0]]
  {
  }

  /** From the end of its loop until it has ended, an actor says Stopping. */
  predicate SaysStopping<M(==)>(s: State<M>) {
    (s.pc.Deciding? || s.pc.ClosingMailbox? || s.pc.Draining? || s.pc == InHandle(true) || s.pc.Masking? || s.pc.InStop?
     || s.pc == Finished(Completed)) ==> s.cell == Stopping
  }

  lemma StaysStopping<M>(s: State<M>, a: Action<M>)
    requires SaysStopping(s)
    ensures SaysStopping(Do(s, a))
  {
  }

  lemma {:induction false} WindingDownIsStopping<M>(capacity: nat, mask: nat, actions: seq<Action<M>>)
    ensures SaysStopping(Run(capacity, mask, actions))
  {
    if actions != [] {
      var init := actions[..|actions| - 1];
      WindingDownIsStopping(capacity, mask, init);
      StaysStopping(Run(capacity, mask, init), actions[|actions| - 1]);
    }
  }

  function Steps<M>(s: State<M>, n: nat): State<M> { if n == 0 then s else Next(Steps(s, n - 1)) }

  /** From the drained mailbox to the end: on_stop, the mask back, Stopped. */
  lemma EndsStopped<M>(s: State<M>)
    requires s.pc.Draining? && s.box.queue == [] && s.past.now.stage == Serving
    ensures var t := DoAll(Next(Next(s)), [Task(Return), Task(Retire)]);
            && t.pc == Retired(Completed) && t.cell == ActorState.Stopped && t.mask == s.mask && t.box == s.box
            && t.past.now.stage == Over
            && t.past.now.handled == s.past.now.handled && t.past.dropped == s.past.dropped
  {
    Two(Next(Next(s)), Task(Return), Task(Retire));
  }

  /** A stopped actor with nothing queued leaves its loop and drains nothing. */
  lemma StopIsNoticed<M>(s: State<M>)
    requires s.pc.Polling? && !s.cancel && s.cell == Stopping && s.box.queue == []
    ensures var n := if s.box.senders == 0 || s.box.closed then 1 else 2;
            Steps(s, n).pc.LeavingLoop? && Steps(s, n + 3).pc == Draining(false)
            && Steps(s, n + 3).box == s.box.(closed := true) && Steps(s, n + 3).past.now == s.past.now
            && Steps(s, n + 3).mask == s.mask
  {
    var n := if s.box.senders == 0 || s.box.closed then 1 else 2;
    assert Steps(s, 1) == Next(s) && Steps(s, 2) == Next(Next(s));
    var t := Steps(s, n);
    assert Steps(s, n + 1) == Next(t) && Steps(s, n + 2) == Next(Next(t)) && Steps(s, n + 3) == Next(Next(Next(t)));
  }

  /** From `stop` at the head of the loop to the end, with nobody else acting. */
  function Stopped<M>(s: State<M>): State<M> {
    var served := Rounds(Do(s, Env(HandleStop)), |s.box.queue|);
    var drained := Steps(Next(served), if s.box.senders == 0 || s.box.closed then 4 else 5);
    DoAll(Next(Next(drained)), [Task(Return), Task(Retire)])
  }

  /**
   * A graceful stop: everything that is queued is handled, in order, the mailbox is closed,
   * on_stop runs, and the actor ends as completed, in state Stopped.
   */
  lemma StopIsGraceful<M>(s: State<M>)
    requires s.pc.CheckCancel? && !s.cancel && s.past.now.stage == Serving
    ensures var t := Stopped(s);
            && t.pc == Retired(Completed) && t.cell == ActorState.Stopped && t.mask == s.mask
            && t.past.now == Incarnation(Over, s.past.now.handled + s.box.queue)
            && t.box == s.box.(queue := [], closed := true)
  {
    var a, n := Do(s, Env(HandleStop)), |s.box.queue|;
    RoundsServeInOrder(a, n);
    assert s.box.queue[..n] == s.box.queue && s.box.queue[n..] == [];
    var p := Next(Rounds(a, n));
    StopIsNoticed(p);
    EndsStopped(Steps(p, if s.box.senders == 0 || s.box.closed then 4 else 5));
  }

  /** What is queued when a stopped actor leaves its loop is handed to it, in order. */
  function Drains<M>(s: State<M>, n: nat): State<M> {
    if n == 0 then s else DoAll(Drains(s, n - 1), [Task(Advance), Task(Return)])
  }

  lemma DrainServes<M>(s: State<M>)
    requires s.pc == Draining(false) && s.box.queue != []
    ensures var t := DoAll(s, [Task(Advance), Task(Return)]);
            && t.pc == Draining(false) && t.mask == s.mask
            && t.past.now.handled == s.past.now.handled + [s.box.queue[0]] && t.box.queue == s.box.queue[1..]
  {
    Two(s, Task(Advance), Task(Return));
  }

  lemma {:induction false} DrainServesInOrder<M>(s: State<M>, n: nat)
    requires s.pc == Draining(false) && n <= |s.box.queue|
    ensures var t := Drains(s, n);
            && t.pc == Draining(false) && t.mask == s.mask
            && t.past.now.handled == s.past.now.handled + s.box.queue[..n] && t.box.queue == s.box.queue[n..]
  {
    if n > 0 {
      DrainServesInOrder(s, n - 1);
      var t := Drains(s, n - 1);
      DrainServes(t);
      assert t.box.queue[0] == s.box.queue[n - 1];
      assert s.box.queue[..n] == s.box.queue[..n - 1] + [s.box.queue[n - 1]];
      Assoc(s.past.now.handled, s.box.queue[..n - 1], [s.box.queue[n - 1]]);
    }
  }
}
