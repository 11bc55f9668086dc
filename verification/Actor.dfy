/**
 * The actor runtime of patches/asupersync/src/actor.rs: one actor task over a bounded
 * mailbox, with senders, stop and abort callers running beside it, and the supervised
 * restart loop around it.
 *
 * It is a state machine whose actions are single effects another thread can observe; the
 * program counter `Pc` names the line the actor task is at.  An unsupervised actor is one
 * whose supervisor always answers Stop.
 */
module Actor {
  import opened Prelude

  datatype ActorState = Created | Running | Stopping | Stopped

  /** How the actor task ended: the loop returned, or a panic was not followed by a restart. */
  datatype Ending = Completed | Crashed

  datatype Pc<M> =
    | Entering                          // 710: state not yet loaded
    | MarkRunning                       // 711: about to store Running
    | AtStart                           // 719: on_start not called yet
    | InStart                           // 719: on_start running
    | CheckCancel                       // 724
    | Polling                           // 730
    | PolledPending                     // 731: mailbox was empty, state not yet loaded
    | InHandle(draining: bool)          // 742 or 777: handle running
    | LeavingLoop                       // 761
    | Deciding                          // 763
    | ClosingMailbox(aborted: bool)     // 770
    | Draining(aborted: bool)           // 773 or 776
    | Masking                           // 792
    | InStop                            // 794: on_stop running
    | Panicked                          // 1081
    | Restarting                        // 1101-1111: state reset, backing off
    | Finished(how: Ending)             // loop result known, 891-901 or 1011
    | Retired(how: Ending)              // 902 or 1012 done
    | Gone(how: Ending)                 // mailbox receiver dropped

  /** A call from the runtime into the actor's code. */
  datatype Event<M> = OnStart | Deliver(m: M) | OnStop

  /** A monitor on those calls; `Broken` once a hook or a delivery comes out of order. */
  datatype Stage = Fresh | Serving | Over | Broken

  /** One incarnation as the monitor saw it: its stage, and the messages given to `handle`. */
  datatype Incarnation<M> = Incarnation(stage: Stage, handled: seq<M>)

  datatype Verdict = Restart | Stop | Escalate

  /** The bounded channel: queued messages plus reserved slots never exceed its capacity. */
  datatype Mailbox<M> = Mailbox(queue: seq<M>, reserved: nat, capacity: nat, closed: bool, senders: nat)

  /** What has happened so far; `base` is the mask depth at the start. */
  datatype History<M> = History(
    accepted: seq<M>, dropped: seq<M>, left: seq<M>,
    earlier: seq<Incarnation<M>>, now: Incarnation<M>,     // the replaced incarnations, and this one
    factoryCalls: nat, restarts: nat, sawCancel: bool, base: nat)

  datatype State<M> = State(
    box: Mailbox<M>, cell: ActorState, cancel: bool, mask: nat, pc: Pc<M>, past: History<M>)

  /** Effects of senders, of `stop` and `abort` callers, and of the enclosing region. */
  datatype Outside<M> =
    | Reserve | CancelReserve | Commit(m: M) | AddSender | DropSender
    | HandleStop | HandleAbort | CancelRegion

  /** Effects of the actor task; `Return` and `Panic` end the user code that is running. */
  datatype Inside = Advance | Return | Panic | Supervise(v: Verdict) | CallFactory | Retire | DropMailbox

  datatype Action<M> = Env(out: Outside<M>) | Task(act: Inside)

  function Init<M>(capacity: nat, mask: nat): State<M> {
    State(Mailbox([], 0, capacity, false, 1), Created, false, mask, Entering,
          History([], [], [], [], Incarnation(Fresh, []), 1, 0, false, mask))
  }

  function After<M>(stage: Stage, e: Event<M>): Stage {
    if stage == Fresh && e.OnStart? then Serving
    else if stage == Serving && e.Deliver? then Serving
    else if stage == Serving && e.OnStop? then Over
    else Broken
  }

  function Note<M>(h: History<M>, e: Event<M>): History<M> {
    h.(now := Incarnation(After(h.now.stage, e), if e.Deliver? then h.now.handled + [e.m] else h.now.handled))
  }

  /** The next queued message is handed to the actor. */
  function Receive<M>(s: State<M>, draining: bool): State<M>
    requires s.box.queue != []
  {
    s.(box := s.box.(queue := s.box.queue[1..]), pc := InHandle(draining),
       past := Note(s.past, Deliver(s.box.queue[0])))
  }

  /** The next queued message is dropped by an aborted actor. */
  function Discard<M>(s: State<M>): State<M>
    requires s.box.queue != []
  {
    s.(box := s.box.(queue := s.box.queue[1..]), past := s.past.(dropped := s.past.dropped + [s.box.queue[0]]))
  }

  /** The actor task's own next effect, where it has exactly one. */
  function Next<M>(s: State<M>): State<M> {
    match s.pc
    case Entering => s.(pc := if s.cell != Stopping then MarkRunning else AtStart)
    case MarkRunning => s.(cell := Running, pc := AtStart)
    case AtStart => s.(pc := InStart, past := Note(s.past, OnStart))
    case CheckCancel => s.(pc := if s.cancel then LeavingLoop else Polling)
    case Polling =>
      if s.cancel && s.mask == 0 then s.(pc := LeavingLoop)
      else if s.box.queue != [] then Receive(s, false)
      else if s.box.senders == 0 || s.box.closed then s.(pc := LeavingLoop)
      else s.(pc := PolledPending)
    case PolledPending => s.(pc := if s.cell == Stopping then LeavingLoop else Polling)
    case LeavingLoop => s.(cell := Stopping, pc := Deciding)
    case Deciding => s.(pc := ClosingMailbox(s.cancel), past := s.past.(sawCancel := s.past.sawCancel || s.cancel))
    case ClosingMailbox(aborted) => s.(box := s.box.(closed := true), pc := Draining(aborted))
    case Draining(aborted) =>
      if s.box.queue == [] then s.(pc := Masking)
      else if aborted then Discard(s)
      else Receive(s, true)
    case Masking => s.(mask := s.mask + 1, pc := InStop, past := Note(s.past, OnStop))
    case _ => s
  }

  /** The guard of lines 687-694: runs when on_stop returns and when it panics. */
  function Unmask(mask: nat): nat { if mask == 0 then 0 else mask - 1 }

  function DoOutside<M>(s: State<M>, a: Outside<M>): State<M> {
    var b := s.box;
    match a
    case Reserve =>
      if !b.closed && b.senders > 0 && |b.queue| + b.reserved < b.capacity
      then s.(box := b.(reserved := b.reserved + 1)) else s
    case CancelReserve => if b.reserved > 0 then s.(box := b.(reserved := b.reserved - 1)) else s
    case Commit(m) =>
      if b.reserved == 0 then s
      else if b.closed then s.(box := b.(reserved := b.reserved - 1))
      else s.(box := b.(reserved := b.reserved - 1, queue := b.queue + [m]),
              past := s.past.(accepted := s.past.accepted + [m]))
    case AddSender => if b.senders > 0 then s.(box := b.(senders := b.senders + 1)) else s
    case DropSender =>
      if b.senders > 1 || (b.senders == 1 && b.reserved == 0)
      then s.(box := b.(senders := b.senders - 1)) else s
    case HandleStop => s.(cell := Stopping)
    case HandleAbort => s.(cell := Stopping, cancel := true)
    case CancelRegion => s.(cancel := true)
  }

  function DoInside<M>(s: State<M>, a: Inside): State<M> {
    match a
    case Advance => Next(s)
    case Return =>
      (match s.pc
       case InStart => s.(pc := CheckCancel)
       case InHandle(draining) => s.(pc := if draining then Draining(false) else CheckCancel)
       case InStop => s.(mask := Unmask(s.mask), pc := Finished(Completed))
       case _ => s)
    case Panic =>
      (match s.pc
       case InStart => s.(pc := Panicked)
       case InHandle(_) => s.(pc := Panicked)
       case InStop => s.(mask := Unmask(s.mask), pc := Panicked)
       case _ => s)
    case Supervise(v) =>
      if !s.pc.Panicked? then s
      else if v == Restart then s.(cell := Created, pc := Restarting, past := s.past.(restarts := s.past.restarts + 1))
      else s.(pc := Finished(Crashed))
    case CallFactory =>
      if s.pc.Restarting? then
        s.(pc := Entering,
           past := s.past.(factoryCalls := s.past.factoryCalls + 1,
                           earlier := s.past.earlier + [s.past.now], now := Incarnation(Fresh, [])))
      else s
    case Retire => if s.pc.Finished? then s.(cell := Stopped, pc := Retired(s.pc.how)) else s
    case DropMailbox =>
      if s.pc.Retired? then
        s.(box := s.box.(closed := true, queue := []), pc := Gone(s.pc.how), past := s.past.(left := s.box.queue))
      else s
  }

  /** One action; an action that is not enabled leaves the state as it is. */
  function Do<M>(s: State<M>, a: Action<M>): State<M> {
    match a
    case Env(out) => DoOutside(s, out)
    case Task(act) => DoInside(s, act)
  }

  function Run<M>(capacity: nat, mask: nat, actions: seq<Action<M>>): State<M> {
    if actions == [] then Init(capacity, mask)
    else Do(Run(capacity, mask, actions[..|actions| - 1]), actions[|actions| - 1])
  }

  // ------------------------------------------------------------ reading the history

  /** The deliveries of a sequence of incarnations, one after the other. */
  function Deliveries<M>(incarnations: seq<Incarnation<M>>): seq<M> {
    if incarnations == [] then []
    else Deliveries(incarnations[..|incarnations| - 1]) + incarnations[|incarnations| - 1].handled
  }

  function Incarnations<M>(h: History<M>): seq<Incarnation<M>> { h.earlier + [h.now] }

  /** Everything any incarnation was given so far. */
  function Delivered<M>(h: History<M>): seq<M> { Deliveries(h.earlier) + h.now.handled }

  lemma DeliveredIsAll<M>(h: History<M>)
    ensures Deliveries(Incarnations(h)) == Delivered(h)
  {
    assert Incarnations(h)[..|h.earlier|] == h.earlier;
  }

  // ------------------------------------------------------------ what every action keeps

  /** Accepted messages are, in order: delivered, dropped by an abort, left, still queued. */
  predicate Conserved<M(==)>(s: State<M>) {
    s.past.accepted == Delivered(s.past) + s.past.dropped + s.past.left + s.box.queue
  }

  predicate MailboxOk<M(==)>(s: State<M>) {
    && (s.past.left != [] ==> s.pc == Gone(Crashed))
    && (s.past.dropped != [] ==> s.past.sawCancel && s.box.closed && (s.box.queue == [] || s.pc == Draining(true)))
    && (s.past.sawCancel ==> s.cancel)
    && (s.pc.Draining? || s.pc == InHandle(true) || s.pc.Masking? || s.pc.InStop? || s.pc.Gone? ==> s.box.closed)
    && (s.pc.Masking? || s.pc.InStop? || s.pc.Gone? ==> s.box.queue == [])
    && ((s.pc.Finished? || s.pc.Retired?) && s.pc.how.Completed? ==> s.box.closed && s.box.queue == [])
    && ((s.pc.ClosingMailbox? || s.pc.Draining?) && s.pc.aborted ==> s.past.sawCancel)
    && (s.box.closed || |s.box.queue| + s.box.reserved <= s.box.capacity)
  }

  predicate StageOk<M>(pc: Pc<M>, stage: Stage) {
    if pc.Entering? || pc.MarkRunning? || pc.AtStart? then stage == Fresh
    else if pc.InStop? then stage == Over
    else if pc.Panicked? || pc.Restarting? || (Done(pc) && pc.how.Crashed?) then stage == Serving || stage == Over
    else if Done(pc) then stage == Over
    else stage == Serving
  }

  predicate Done<M>(pc: Pc<M>) { pc.Finished? || pc.Retired? || pc.Gone? }

  predicate HooksOk<M>(s: State<M>) {
    && StageOk(s.pc, s.past.now.stage)
    && forall i :: 0 <= i < |s.past.earlier| ==> s.past.earlier[i].stage == Serving || s.past.earlier[i].stage == Over
  }

  predicate CountsOk<M>(s: State<M>) {
    && s.past.factoryCalls == |s.past.earlier| + 1
    && |s.past.earlier| + (if s.pc.Restarting? then 1 else 0) == s.past.restarts
    && s.mask == s.past.base + (if s.pc.InStop? then 1 else 0)
  }

  /** Everything but the message account. */
  predicate Control<M(==)>(s: State<M>) { MailboxOk(s) && HooksOk(s) && CountsOk(s) }

  predicate Inv<M(==)>(s: State<M>) { Conserved(s) && Control(s) }

  // ------------------------------------------------------------ the message account

  /** The message at the head of the queue moves to the end of what was delivered. */
  lemma HeadMoves<M>(before: seq<M>, m: M, rest: seq<M>)
    ensures before + [] + [] + ([m] + rest) == (before + [m]) + [] + [] + rest
  {
  }

  lemma ReceiveConserves<M>(s: State<M>, draining: bool)
    requires Conserved(s) && s.box.queue != [] && s.past.dropped == s.past.left == []
    ensures Conserved(Receive(s, draining))
  {
    var m, t := s.box.queue[0], Receive(s, draining);
    assert s.box.queue == [m] + t.box.queue;
    assert Delivered(t.past) == Delivered(s.past) + [m];
    HeadMoves(Delivered(s.past), m, t.box.queue);
  }

  lemma DiscardConserves<M>(s: State<M>)
    requires Conserved(s) && s.box.queue != [] && s.past.left == []
    ensures Conserved(Discard(s))
  {
    var d, q := Delivered(s.past), s.box.queue;
    assert q == [q[0]] + q[1..];
    assert d + s.past.dropped + [] + q == d + (s.past.dropped + [q[0]]) + [] + q[1..];
  }

  lemma HookConserves<M>(s: State<M>, e: Event<M>)
    requires Conserved(s) && !e.Deliver?
    ensures Conserved(s.(past := Note(s.past, e)))
  {
    assert Delivered(Note(s.past, e)) == Delivered(s.past);
  }

  lemma AdvanceConserves<M>(s: State<M>)
    requires Conserved(s) && MailboxOk(s)
    ensures Conserved(Next(s))
  {
    if s.pc.AtStart? {
      HookConserves(s, OnStart);
    } else if s.pc.Masking? {
      HookConserves(s, OnStop);
    } else if s.box.queue != [] && s.pc.Polling? && !(s.cancel && s.mask == 0) {
      ReceiveConserves(s, false);
    } else if s.box.queue != [] && s.pc.Draining? && s.pc.aborted {
      DiscardConserves(s);
    } else if s.box.queue != [] && s.pc.Draining? {
      ReceiveConserves(s, true);
    } else {
      assert Next(s).past == s.past.(sawCancel := Next(s).past.sawCancel) && Next(s).box.queue == s.box.queue;
    }
  }

  lemma FactoryConserves<M>(s: State<M>)
    requires Conserved(s)
    ensures Conserved(DoInside(s, CallFactory))
  {
    if s.pc.Restarting? {
      var t := DoInside(s, CallFactory);
      DeliveredIsAll(s.past);
      assert Delivered(t.past) == Deliveries(Incarnations(s.past)) + [] == Delivered(s.past);
    }
  }

  lemma InsideConserves<M>(s: State<M>, a: Inside)
    requires Conserved(s) && MailboxOk(s)
    ensures Conserved(DoInside(s, a))
  {
    if a.Advance? {
      AdvanceConserves(s);
    } else if a.CallFactory? {
      FactoryConserves(s);
    } else if a.DropMailbox? {
      SwapEmpty(Delivered(s.past) + s.past.dropped, s.box.queue);
    }
  }

  lemma OutsideConserves<M>(s: State<M>, a: Outside<M>)
    requires Conserved(s)
    ensures Conserved(DoOutside(s, a))
  {
    if a.Commit? && !s.box.closed {
      Assoc(Delivered(s.past) + s.past.dropped + s.past.left, s.box.queue, [a.m]);
    }
  }

  // ------------------------------------------------------------ control

  lemma BeforeLoopKeeps<M>(s: State<M>)
    requires Control(s) && (s.pc.Entering? || s.pc.MarkRunning? || s.pc.AtStart?)
    ensures Control(Next(s))
  {
  }

  lemma ReceiveKeeps<M>(s: State<M>, draining: bool)
    requires Control(s) && s.box.queue != [] && s.pc == (if draining then Draining(false) else Polling)
    ensures Control(Receive(s, draining))
  {
  }

  lemma DiscardKeeps<M>(s: State<M>)
    requires Control(s) && s.box.queue != [] && s.pc == Draining(true)
    ensures Control(Discard(s))
  {
  }

  lemma LoopKeeps<M>(s: State<M>)
    requires Control(s) && (s.pc.CheckCancel? || s.pc.Polling? || s.pc.PolledPending?)
    ensures Control(Next(s))
  {
    if s.pc.Polling? && s.box.queue != [] && !(s.cancel && s.mask == 0) {
      ReceiveKeeps(s, false);
    }
  }

  lemma LeavingKeeps<M>(s: State<M>)
    requires Control(s) && (s.pc.LeavingLoop? || s.pc.Deciding? || s.pc.ClosingMailbox?)
    ensures Control(Next(s))
  {
  }

  lemma DrainKeeps<M>(s: State<M>)
    requires Control(s) && s.pc.Draining?
    ensures Control(Next(s))
  {
    if s.box.queue != [] && s.pc.aborted {
      DiscardKeeps(s);
    } else if s.box.queue != [] {
      ReceiveKeeps(s, true);
    }
  }

  lemma MaskingKeeps<M>(s: State<M>)
    requires Control(s) && s.pc.Masking?
    ensures Control(Next(s))
  {
  }

  lemma AdvanceKeeps<M>(s: State<M>)
    requires Control(s)
    ensures Control(Next(s))
  {
    if s.pc.Entering? || s.pc.MarkRunning? || s.pc.AtStart? { BeforeLoopKeeps(s); }
    else if s.pc.CheckCancel? || s.pc.Polling? || s.pc.PolledPending? { LoopKeeps(s); }
    else if s.pc.LeavingLoop? || s.pc.Deciding? || s.pc.ClosingMailbox? { LeavingKeeps(s); }
    else if s.pc.Draining? { DrainKeeps(s); }
    else if s.pc.Masking? { MaskingKeeps(s); }
    else { assert Next(s) == s; }
  }

  lemma UserCodeKeeps<M>(s: State<M>, a: Inside)
    requires Control(s) && (a.Return? || a.Panic?)
    ensures Control(DoInside(s, a))
  {
  }

  lemma EndingKeeps<M>(s: State<M>, a: Inside)
    requires Control(s) && (a.Supervise? || a.CallFactory? || a.Retire? || a.DropMailbox?)
    ensures Control(DoInside(s, a))
  {
  }

  lemma InsideKeeps<M>(s: State<M>, a: Inside)
    requires Control(s)
    ensures Control(DoInside(s, a))
  {
    if a.Advance? { AdvanceKeeps(s); }
    else if a.Return? || a.Panic? { UserCodeKeeps(s, a); }
    else { EndingKeeps(s, a); }
  }

  lemma OutsideKeeps<M>(s: State<M>, a: Outside<M>)
    requires Control(s)
    ensures Control(DoOutside(s, a))
  {
  }

  lemma StepKeeps<M>(s: State<M>, a: Action<M>)
    requires Inv(s)
    ensures Inv(Do(s, a))
  {
    match a
    case Env(out) => OutsideKeeps(s, out); OutsideConserves(s, out);
    case Task(act) => InsideKeeps(s, act); InsideConserves(s, act);
  }

  lemma BaseIsFixed<M>(s: State<M>, a: Action<M>)
    ensures Do(s, a).past.base == s.past.base
  {
  }

  lemma {:induction false} EveryRunKeeps<M>(capacity: nat, mask: nat, actions: seq<Action<M>>)
    ensures Inv(Run(capacity, mask, actions))
    ensures Run(capacity, mask, actions).past.base == mask
  {
    if actions != [] {
      EveryRunKeeps(capacity, mask, actions[..|actions| - 1]);
      StepKeeps(Run(capacity, mask, actions[..|actions| - 1]), actions[|actions| - 1]);
      BaseIsFixed(Run(capacity, mask, actions[..|actions| - 1]), actions[|actions| - 1]);
    }
  }

  // ------------------------------------------------------------ the theorems

  /**
   * Across any number of restarts: what was accepted is what the incarnations were given,
   * in FIFO order, then what an abort dropped, then what was left behind, then what is
   * still queued; the factory ran once plus once per restart.
   */
  lemma SupervisedConservation<M>(capacity: nat, mask: nat, actions: seq<Action<M>>)
    ensures var s := Run(capacity, mask, actions);
            && s.past.accepted == Deliveries(Incarnations(s.past)) + s.past.dropped + s.past.left + s.box.queue
            && (s.past.dropped != [] ==> s.past.sawCancel)
            && (s.past.left != [] ==> s.pc == Gone(Crashed))
            && (s.pc.Gone? ==> s.box.queue == [])
            && (!s.pc.Restarting? ==> s.past.factoryCalls == 1 + s.past.restarts == |Incarnations(s.past)|)
            && s.mask == mask + (if s.pc.InStop? then 1 else 0)
            && forall inc :: inc in Incarnations(s.past) ==> inc.stage != Broken
  {
    EveryRunKeeps(capacity, mask, actions);
    DeliveredIsAll(Run(capacity, mask, actions).past);
  }

  lemma PrefixDistinct<M>(d: seq<M>, rest: seq<M>)
    requires Distinct(d + rest)
    ensures Distinct(d)
  {
    forall i, j | 0 <= i < j < |d| ensures d[i] != d[j] {
      assert (d + rest)[i] == d[i] && (d + rest)[j] == d[j];
    }
  }

  lemma {:induction false} InDeliveries<M>(incarnations: seq<Incarnation<M>>, i: nat, k: nat) returns (x: nat)
    requires i < |incarnations| && k < |incarnations[i].handled|
    ensures x < |Deliveries(incarnations)| && Deliveries(incarnations)[x] == incarnations[i].handled[k]
    decreases |incarnations|
  {
    var n := |incarnations| - 1;
    if i < n {
      x := InDeliveries(incarnations[..n], i, k);
    } else {
      x := |Deliveries(incarnations[..n])| + k;
    }
  }

  /** Deliveries of different incarnations sit at different places of the whole. */
  lemma {:induction false} HandledApart<M>(incarnations: seq<Incarnation<M>>, i: nat, j: nat, m: M)
    requires i < j < |incarnations| && Distinct(Deliveries(incarnations)) && m in incarnations[i].handled
    ensures m !in incarnations[j].handled
    decreases |incarnations|
  {
    var n := |incarnations| - 1;
    var init, d := incarnations[..n], Deliveries(incarnations);
    var last := incarnations[n].handled;
    assert d == Deliveries(init) + last;
    if j < n {
      PrefixDistinct(Deliveries(init), last);
      HandledApart(init, i, j, m);
    } else {
      var k :| 0 <= k < |init[i].handled| && init[i].handled[k] == m;
      var x := InDeliveries(init, i, k);
      forall l | 0 <= l < |last| ensures last[l] != m {
        assert d[x] != d[|Deliveries(init)| + l];
      }
    }
  }

  /**
   * No message is given to two incarnations: in particular the one whose handling
   * panicked is not given to the incarnation started because of it.
   */
  lemma NeverRedelivered<M>(capacity: nat, mask: nat, actions: seq<Action<M>>, i: nat, j: nat, m: M)
    requires var past := Run(capacity, mask, actions).past;
             Distinct(past.accepted) && i < j < |Incarnations(past)| && m in Incarnations(past)[i].handled
    ensures m !in Incarnations(Run(capacity, mask, actions).past)[j].handled
  {
    var s := Run(capacity, mask, actions);
    SupervisedConservation(capacity, mask, actions);
    AcceptedOnce(s.past.accepted, Incarnations(s.past), s.past.dropped, s.past.left, s.box.queue);
    HandledApart(Incarnations(s.past), i, j, m);
  }

  lemma AcceptedOnce<M>(accepted: seq<M>, logs: seq<Incarnation<M>>, dropped: seq<M>, left: seq<M>, queue: seq<M>)
    requires Distinct(accepted) && accepted == Deliveries(logs) + dropped + left + queue
    ensures Distinct(Deliveries(logs))
  {
    assert accepted == Deliveries(logs) + (dropped + left + queue);
    PrefixDistinct(Deliveries(logs), dropped + left + queue);
  }

  predicate Crashless<M(==)>(actions: seq<Action<M>>) { Task(Panic) !in actions }

  predicate Uncancelled<M(==)>(actions: seq<Action<M>>) {
    Env(HandleAbort) !in actions && Env(CancelRegion) !in actions
  }

  predicate FirstLife<M>(s: State<M>) {
    |s.past.earlier| == 0 && !s.pc.Panicked? && !s.pc.Restarting? && (Done(s.pc) ==> s.pc.how.Completed?)
  }

  lemma {:induction false} CrashlessHasOneIncarnation<M>(capacity: nat, mask: nat, actions: seq<Action<M>>)
    requires Crashless(actions)
    ensures FirstLife(Run(capacity, mask, actions))
  {
    if actions != [] {
      CrashlessHasOneIncarnation(capacity, mask, actions[..|actions| - 1]);
      FirstLifeGoesOn(Run(capacity, mask, actions[..|actions| - 1]), actions[|actions| - 1]);
    }
  }

  lemma FirstLifeGoesOn<M>(s: State<M>, a: Action<M>)
    requires FirstLife(s) && a != Task(Panic)
    ensures FirstLife(Do(s, a))
  {
    match a
    case Env(out) => assert DoOutside(s, out).pc == s.pc && DoOutside(s, out).past.earlier == s.past.earlier;
    case Task(act) =>
      if act.Advance? {
        assert Next(s).past.earlier == s.past.earlier && (Done(Next(s).pc) ==> Next(s) == s);
      }
  }

  lemma {:induction false} UncancelledNeverSees<M>(capacity: nat, mask: nat, actions: seq<Action<M>>)
    requires Uncancelled(actions)
    ensures var s := Run(capacity, mask, actions); !s.cancel && !s.past.sawCancel
  {
    if actions != [] {
      UncancelledNeverSees(capacity, mask, actions[..|actions| - 1]);
      StaysUncancelled(Run(capacity, mask, actions[..|actions| - 1]), actions[|actions| - 1]);
    }
  }

  lemma StaysUncancelled<M>(s: State<M>, a: Action<M>)
    requires !s.cancel && !s.past.sawCancel && a != Env(HandleAbort) && a != Env(CancelRegion)
    ensures !Do(s, a).cancel && !Do(s, a).past.sawCancel
  {
  }

  lemma DoneIsAccounted<M>(s: State<M>)
    requires Inv(s) && FirstLife(s) && Done(s.pc)
    ensures s.past.now.stage == Over && s.past.accepted == s.past.now.handled + s.past.dropped
  {
    assert Deliveries(s.past.earlier) == [] && s.past.left == [] && s.box.queue == [];
  }

  /**
   * One run without panics that has ended: on_start once before all handling, on_stop once
   * after it; accepted is handled then dropped; nothing is dropped unless cancellation was
   * seen when the loop was left; the mask depth is what it was.
   */
  lemma CleanRun<M>(capacity: nat, mask: nat, actions: seq<Action<M>>)
    requires Crashless(actions) && Done(Run(capacity, mask, actions).pc)
    ensures var s := Run(capacity, mask, actions);
            && s.past.earlier == []
            && s.past.now.stage == Over
            && s.past.accepted == s.past.now.handled + s.past.dropped
            && (s.past.dropped != [] ==> s.past.sawCancel)
            && (Uncancelled(actions) ==> s.past.dropped == [])
            && s.mask == mask
  {
    EveryRunKeeps(capacity, mask, actions);
    CrashlessHasOneIncarnation(capacity, mask, actions);
    if Uncancelled(actions) {
      UncancelledNeverSees(capacity, mask, actions);
    }
    DoneIsAccounted(Run(capacity, mask, actions));
  }
}
