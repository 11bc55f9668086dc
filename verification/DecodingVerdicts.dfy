/**
 * What a decoding attempt means for the block, from the solver's answer to the pipeline's;
 * which symbols are taken at all; and what is true of buffers and K values in every run.
 */
module DecodingVerdicts {
  import opened Prelude
  import opened BlockLayout
  import opened RaptorQ
  import opened DecodingPipeline
  import opened DecodingRuns
  import opened RoundTrip

  // ------------------------------------------------------------ one attempt

  /** Enough symbols of a planned block are buffered for an attempt. */
  predicate Tried(s: Pipe, list: Listing, sbn: nat) {
    && s.plans.Some? && sbn < |s.plans.value| && s.plans.value[sbn].k > 0
    && |list(OfBlock(s.symbols, sbn))| >= s.plans.value[sbn].k
  }

  /** Some received source symbol claims a place the block does not have. */
  predicate SourceTooHigh(s: Pipe, list: Listing, sbn: nat)
    requires Tried(s, list, sbn)
  {
    exists x :: x in list(OfBlock(s.symbols, sbn)) && x.kind.Source? && x.id.esi >= s.plans.value[sbn].k
  }

  /** What the solver says to the system of the buffered symbols. */
  function Solver(c: Config, lib: Library, s: Pipe, list: Listing, sbn: nat): Result<seq<seq<byte>>, SolveError>
    requires Tried(s, list, sbn)
  {
    var symbols, k := list(OfBlock(s.symbols, sbn)), s.plans.value[sbn].k;
    var d := lib(ObjectOf(symbols), sbn, k, c.symbolSize);
    d.solve(System(d, symbols, k, c.symbolSize))
  }

  /** The attempt finds the block's data wrong: its metadata, or the size of its symbols. */
  predicate FindsFault(c: Config, lib: Library, s: Pipe, list: Listing, sbn: nat) {
    Tried(s, list, sbn) &&
    (SourceTooHigh(s, list, sbn)
     || match Solver(c, lib, s, list, sbn)
        case Err(ArityMismatch) => true
        case Err(ColumnOutOfRange) => true
        case Err(WrongSymbolSize(_, _)) => true
        case _ => false)
  }

  lemma TriedIsDecoded(c: Config, lib: Library, list: Listing, s: Pipe, sbn: nat)
    requires Inv(c, s) && Tried(s, list, sbn)
    ensures PlanInForce(s, sbn) == Some(s.plans.value[sbn]) && s.plans.value[sbn].sbn == sbn
    ensures SourceInRange(list(OfBlock(s.symbols, sbn)), s.plans.value[sbn].k) <==> !SourceTooHigh(s, list, sbn)
  {
    PlanIsFound(c, s, sbn);
    var symbols, k := list(OfBlock(s.symbols, sbn)), s.plans.value[sbn].k;
    if SourceTooHigh(s, list, sbn) {
      var x :| x in symbols && x.kind.Source? && x.id.esi >= k;
      var i :| 0 <= i < |symbols| && symbols[i] == x;
    }
    assert forall i :: 0 <= i < |symbols| ==> symbols[i] in symbols;
  }

  /**
   * From the solver's answer to the pipeline's: too few symbols and singular or corrupt
   * systems leave the state alone, so that more symbols may help; bad metadata and bad sizes
   * fail the block; an answer completes it.
   */
  lemma AttemptFollowsSolver(c: Config, lib: Library, list: Listing, s: Pipe, sbn: nat)
    requires Inv(c, s) && Tried(s, list, sbn)
    ensures var (t, answer) := AfterTry(c, lib, list, s, sbn);
            if SourceTooHigh(s, list, sbn)
            then t == Mark(s, sbn, Failed) && answer == Some(Rejected(InvalidMetadata))
            else
              match Solver(c, lib, s, list, sbn)
              case Err(TooFewSymbols(_, _)) => t == s && answer == Some(Rejected(InsufficientRank))
              case Err(SingularMatrix) => t == s && answer == Some(Rejected(InconsistentEquations))
              case Err(CorruptOutput) => t == s && answer == Some(Rejected(InconsistentEquations))
              case Err(ArityMismatch) => t == Mark(s, sbn, Failed) && answer == Some(Rejected(InvalidMetadata))
              case Err(ColumnOutOfRange) => t == Mark(s, sbn, Failed) && answer == Some(Rejected(InvalidMetadata))
              case Err(WrongSymbolSize(_, _)) =>
                t == Mark(s, sbn, Failed) && answer == Some(Rejected(RejectReason.SymbolSizeMismatch))
              case Ok(_) => sbn in t.completed && answer.Some? && answer.value.BlockComplete?
  {
    TriedIsDecoded(c, lib, list, s, sbn);
  }

  /** Without enough symbols of a planned block nothing is attempted. */
  lemma NotTried(c: Config, lib: Library, list: Listing, s: Pipe, sbn: nat)
    requires Inv(c, s) && !Tried(s, list, sbn)
    ensures AfterTry(c, lib, list, s, sbn) == (s, None)
  {
    if s.plans.Some? {
      PlansAreChained(c, s);
      PlanForFinds(s.plans.value, sbn, 0);
    }
  }

  // ------------------------------------------------------------ failed blocks

  function StateOf(s: Pipe, sbn: nat): Option<BlockState> {
    if sbn in s.blocks then Some(s.blocks[sbn].state) else None
  }

  /** A feed that stores a symbol, with the threshold reported, leaves Failed just for a fault. */
  lemma StoringFails(c: Config, lib: Library, s: Pipe, sym: Symbol, ch: Chance)
    requires Inv(c, s) && Stores(c, s, sym, ch)
    ensures var t, sbn := AfterFeed(c, lib, s, sym, ch).0, sym.id.sbn;
            StateOf(t, sbn) == Some(Failed) <==>
              if ch.threshold then FindsFault(c, lib, BeforeTry(Opened(s, sym), sym), ch.list, sbn)
              else StateOf(s, sbn) == Some(Failed)
  {
    var u, sbn := BeforeTry(Opened(s, sym), sym), sym.id.sbn;
    TryStartsOk(c, s, sym, ch);
    if ch.threshold {
      assert sbn in u.blocks && u.blocks[sbn].state == Decoding;
      AttemptFails(c, lib, ch.list, u, sbn);
      TryShape(c, lib, ch.list, u, sbn);
    }
  }

  lemma AttemptFails(c: Config, lib: Library, list: Listing, s: Pipe, sbn: nat)
    requires Inv(c, s) && sbn in s.blocks && s.blocks[sbn].state == Decoding
    ensures StateOf(AfterTry(c, lib, list, s, sbn).0, sbn) == Some(Failed) <==> FindsFault(c, lib, s, list, sbn)
  {
    if Tried(s, list, sbn) {
      AttemptFollowsSolver(c, lib, list, s, sbn);
    } else {
      NotTried(c, lib, list, s, sbn);
    }
  }

  lemma StoringLeavesOthers(s: Pipe, sym: Symbol, t: Pipe, answer: Answer, sbn: nat)
    requires InsertOutcome(s, sym, t, answer) && sbn != sym.id.sbn
    ensures StateOf(t, sbn) == StateOf(s, sbn)
  {
  }

  /** Every other call leaves a block Failed just when it was. */
  lemma OthersKeepFailure(c: Config, lib: Library, s: Pipe, e: Event, sbn: nat)
    requires Inv(c, s) && Possible(e)
    requires e.Feed? ==> e.sym.id.sbn != sbn || !Stores(c, s, e.sym, e.ch)
    ensures StateOf(Step(c, lib, s, e), sbn) == Some(Failed) <==> StateOf(s, sbn) == Some(Failed)
  {
    if e.Feed? {
      AfterFeedOutcome(c, lib, s, e.sym, e.ch);
      if Stores(c, s, e.sym, e.ch) {
        var (t, answer) := AfterFeed(c, lib, s, e.sym, e.ch);
        StoringLeavesOthers(Opened(s, e.sym), e.sym, t, answer, sbn);
      }
    }
  }

  /** A symbol of the block is stored and the threshold is reported: an attempt is due. */
  predicate AttemptDue(c: Config, s: Pipe, e: Event, sbn: nat) {
    e.Feed? && e.sym.id.sbn == sbn && Stores(c, s, e.sym, e.ch) && e.ch.threshold
  }

  /** When an attempt on the block was due for the last time, it found a fault. */
  predicate LastFoundFault(c: Config, lib: Library, events: seq<Event>, sbn: nat) {
    events != [] &&
    var init, e := events[..|events| - 1], events[|events| - 1];
    var s := Run(c, lib, init);
    if AttemptDue(c, s, e, sbn) then FindsFault(c, lib, BeforeTry(Opened(s, e.sym), e.sym), e.ch.list, sbn)
    else LastFoundFault(c, lib, init, sbn)
  }

  /**
   * Over every run a block is Failed if and only if the last attempt that was due on it
   * found a fault: a source symbol beyond its K, or one of the solver's three answers for
   * malformed input.
   */
  lemma {:induction false} FailedExactly(c: Config, lib: Library, events: seq<Event>, sbn: nat)
    requires AllPossible(events)
    ensures StateOf(Run(c, lib, events), sbn) == Some(Failed) <==> LastFoundFault(c, lib, events, sbn)
  {
    if events != [] {
      var init, e := events[..|events| - 1], events[|events| - 1];
      var s := Run(c, lib, init);
      FailedExactly(c, lib, init, sbn);
      EveryRunKeeps(c, lib, init);
      assert Possible(e);
      if e.Feed? && e.sym.id.sbn == sbn && Stores(c, s, e.sym, e.ch) {
        StoringFails(c, lib, s, e.sym, e.ch);
      } else {
        OthersKeepFailure(c, lib, s, e, sbn);
      }
    }
  }

  /**
   * A fault is not remembered beyond that: on a Failed block, a later attempt that meets a
   * singular system leaves it Decoding, although nothing has completed it.
   */
  lemma FaultIsForgotten(c: Config, lib: Library, s: Pipe, sym: Symbol, ch: Chance)
    requires Inv(c, s) && Stores(c, s, sym, ch) && ch.threshold
    requires var u := BeforeTry(Opened(s, sym), sym);
             Tried(u, ch.list, sym.id.sbn) && !SourceTooHigh(u, ch.list, sym.id.sbn)
             && Solver(c, lib, u, ch.list, sym.id.sbn) == Err(SingularMatrix)
    ensures StateOf(AfterFeed(c, lib, s, sym, ch).0, sym.id.sbn) == Some(Decoding)
    ensures AfterFeed(c, lib, s, sym, ch).1 == Rejected(InconsistentEquations)
  {
    var u := BeforeTry(Opened(s, sym), sym);
    TryStartsOk(c, s, sym, ch);
    assert u.blocks[sym.id.sbn].state == Decoding;
    AttemptFollowsSolver(c, lib, ch.list, u, sym.id.sbn);
  }

  /** A code whose solver calls one equation malformed, and more of them dependent. */
  function Fickle(k: nat): Decoder {
    Decoder(k, k, [], esi => ([0], [1]),
            eqs => if |eqs| == 1 then Err(ArityMismatch) else Err(SingularMatrix))
  }

  const REPAIR_A := Symbol(SymbolId(7, 0, 5), [9], Repair)

  const REPAIR_B := Symbol(SymbolId(7, 0, 6), [9], Repair)

  /** One block of one symbol, and two repair symbols for it. */
  ghost function ForgettingRun(): seq<Event> {
    var ch := Chance(true, true, AnyListing());
    [SetParams(OneBlock(1)), Feed(REPAIR_A, ch), Feed(REPAIR_B, ch)]
  }

  /** With that code, `n` buffered repair symbols make a system of `n` equations. */
  lemma FickleSolver(lib: Library, list: Listing, u: Pipe, n: nat)
    requires lib == ((objectId, sbn, k, size) => Fickle(k)) && Lists(list)
    requires u.plans == Some([Plan(0, 0, 1, 1)]) && n > 0
    requires |OfBlock(u.symbols, 0)| == n
    requires forall id :: id in u.symbols ==> u.symbols[id].id == id && u.symbols[id].kind == Repair
    ensures Tried(u, list, 0) && !SourceTooHigh(u, list, 0)
    ensures Solver(WIDE, lib, u, list, 0) == if n == 1 then Err(ArityMismatch) else Err(SingularMatrix)
  {
    var buffered := OfBlock(u.symbols, 0);
    assert Listed(list, buffered);
    var symbols := list(buffered);
    forall x | x in symbols ensures x.kind == Repair {
      assert buffered[x.id] == x;
    }
    assert |System(Fickle(1), symbols, 1, 1)| == n;
  }

  /** The first repair symbol fails the block. */
  lemma FirstFails(lib: Library, s: Pipe, ch: Chance)
    requires lib == ((objectId, sbn, k, size) => Fickle(k)) && Lists(ch.list) && ch.threshold && Inv(WIDE, s)
    requires s == Configure(EMPTY.(objectId := Some(7), objectSize := Some(1), plans := Some([Plan(0, 0, 1, 1)])))
    ensures AfterFeed(WIDE, lib, s, REPAIR_A, ch).0 == Mark(BeforeTry(Opened(s, REPAIR_A), REPAIR_A), 0, Failed)
  {
    var u := BeforeTry(Opened(s, REPAIR_A), REPAIR_A);
    TryStartsOk(WIDE, s, REPAIR_A, ch);
    assert u.symbols == map[REPAIR_A.id := REPAIR_A] == OfBlock(u.symbols, 0);
    FickleSolver(lib, ch.list, u, 1);
    AttemptFollowsSolver(WIDE, lib, ch.list, u, 0);
  }

  /** The second one sets it back to Decoding. */
  lemma SecondForgets(lib: Library, s: Pipe, ch: Chance)
    requires lib == ((objectId, sbn, k, size) => Fickle(k)) && Lists(ch.list) && ch.threshold && Inv(WIDE, s)
    requires s.symbols == map[REPAIR_A.id := REPAIR_A] && s.plans == Some([Plan(0, 0, 1, 1)])
    requires s.completed == {} && s.objectId == Some(7)
    ensures var t := AfterFeed(WIDE, lib, s, REPAIR_B, ch).0; StateOf(t, 0) == Some(Decoding) && t.completed == {}
  {
    var u := BeforeTry(Opened(s, REPAIR_B), REPAIR_B);
    var both := map[REPAIR_A.id := REPAIR_A, REPAIR_B.id := REPAIR_B];
    assert u.symbols == both == OfBlock(u.symbols, 0);
    assert both.Keys == {REPAIR_A.id, REPAIR_B.id} && |both.Keys| == 2;
    FickleSolver(lib, ch.list, u, 2);
    TryStartsOk(WIDE, s, REPAIR_B, ch);
    AttemptFollowsSolver(WIDE, lib, ch.list, u, 0);
    FaultIsForgotten(WIDE, lib, s, REPAIR_B, ch);
  }

  /** A run in which a block is Failed, and Decoding after one more symbol, and never completed. */
  lemma FaultIsForgottenInARun(lib: Library)
    requires lib == ((objectId, sbn, k, size) => Fickle(k))
    ensures AllPossible(ForgettingRun())
    ensures StateOf(Run(WIDE, lib, ForgettingRun()[..2]), 0) == Some(Failed)
    ensures StateOf(Run(WIDE, lib, ForgettingRun()), 0) == Some(Decoding)
    ensures Run(WIDE, lib, ForgettingRun()).completed == {}
  {
    var events := ForgettingRun();
    RunOfThree(WIDE, lib, events);
    RunOfTwo(WIDE, lib, events[..2]);
    EveryRunKeeps(WIDE, lib, events[..2]);
    RunOfOne(WIDE, lib, events[..1]);
    EveryRunKeeps(WIDE, lib, events[..1]);
    ForgettingSteps(lib, events[1].ch);
  }

  lemma RunOfOne(c: Config, lib: Library, events: seq<Event>)
    requires |events| == 1
    ensures Run(c, lib, events) == Step(c, lib, EMPTY, events[0])
  {
    assert events[..0] == [];
  }

  lemma RunOfTwo(c: Config, lib: Library, events: seq<Event>)
    requires |events| == 2
    ensures Run(c, lib, events) == Step(c, lib, Step(c, lib, EMPTY, events[0]), events[1])
  {
    RunOfOne(c, lib, events[..1]);
  }

  lemma ForgettingSteps(lib: Library, ch: Chance)
    requires lib == ((objectId, sbn, k, size) => Fickle(k)) && Lists(ch.list) && ch.threshold
    ensures var s := Step(WIDE, lib, EMPTY, SetParams(OneBlock(1)));
            Inv(WIDE, s) ==>
              var t := Step(WIDE, lib, s, Feed(REPAIR_A, ch));
              && StateOf(t, 0) == Some(Failed)
              && (Inv(WIDE, t) ==>
                    var u := Step(WIDE, lib, t, Feed(REPAIR_B, ch));
                    StateOf(u, 0) == Some(Decoding) && u.completed == {})
  {
    OneByteDeclared(lib);
    var s := Step(WIDE, lib, EMPTY, SetParams(OneBlock(1)));
    if Inv(WIDE, s) {
      FirstFails(lib, s, ch);
      var t := Step(WIDE, lib, s, Feed(REPAIR_A, ch));
      if Inv(WIDE, t) {
        SecondForgets(lib, t, ch);
      }
    }
  }

  // ------------------------------------------------------------ which symbols are taken

  /** The symbol is in the buffer now, or was used up in completing its block. */
  predicate Taken(s: Pipe, t: Pipe, sym: Symbol) {
    sym.id !in s.symbols
    && (if sym.id.sbn in t.completed then sym.id.sbn !in s.completed
        else sym.id in t.symbols && t.symbols[sym.id] == sym)
  }

  /** Exactly which symbols `feed` takes. */
  lemma TakenExactly(c: Config, lib: Library, s: Pipe, sym: Symbol, ch: Chance)
    requires Inv(c, s)
    ensures Taken(s, AfterFeed(c, lib, s, sym, ch).0, sym) <==>
              && (c.verifyAuth ==> ch.authentic)
              && |sym.data| == c.symbolSize
              && (s.objectId == None || s.objectId == Some(sym.id.objectId))
              && sym.id.sbn !in s.completed
              && sym.id !in s.symbols
              && (c.maxBuffered == 0 || |OfBlock(s.symbols, sym.id.sbn)| < c.maxBuffered)
  {
    AfterFeedOutcome(c, lib, s, sym, ch);
    var (t, answer) := AfterFeed(c, lib, s, sym, ch);
    if Stores(c, s, sym, ch) {
      TryStartsOk(c, s, sym, ch);
    }
  }

  /** The event that brought this symbol in passed the check of its tag, if there is one. */
  predicate BroughtBy(c: Config, e: Event, sym: Symbol) {
    e.Feed? && e.sym == sym && (c.verifyAuth ==> e.ch.authentic) && |sym.data| == c.symbolSize
  }

  lemma StepBrings(c: Config, lib: Library, s: Pipe, e: Event, id: SymbolId)
    requires id in Step(c, lib, s, e).symbols
    ensures (id in s.symbols && Step(c, lib, s, e).symbols[id] == s.symbols[id])
         || BroughtBy(c, e, Step(c, lib, s, e).symbols[id])
  {
    if e.Feed? {
      AfterFeedOutcome(c, lib, s, e.sym, e.ch);
      var (t, answer) := AfterFeed(c, lib, s, e.sym, e.ch);
      OutcomeKeepsPlans(c, s, e.sym, e.ch, t, answer);
    }
  }

  /** In every reachable state, every buffered symbol was fed, with a good tag if tags are checked. */
  lemma {:induction false} OnlyAuthenticSymbols(c: Config, lib: Library, events: seq<Event>, id: SymbolId)
    requires id in Run(c, lib, events).symbols
    ensures exists e :: e in events && BroughtBy(c, e, Run(c, lib, events).symbols[id])
  {
    var init, e := events[..|events| - 1], events[|events| - 1];
    var s, t := Run(c, lib, init), Run(c, lib, events);
    StepBrings(c, lib, s, e, id);
    if id in s.symbols && t.symbols[id] == s.symbols[id] {
      OnlyAuthenticSymbols(c, lib, init, id);
      var e' :| e' in init && BroughtBy(c, e', s.symbols[id]);
      assert e' in events;
    } else {
      assert e in events;
    }
  }

  // ------------------------------------------------------------ the buffer limit

  predicate WithinLimit(c: Config, s: Pipe, sbn: nat) {
    c.maxBuffered == 0 || |OfBlock(s.symbols, sbn)| <= c.maxBuffered
  }

  lemma OfBlockOfOther(symbols: Buffer, sym: Symbol, sbn: nat)
    requires sbn != sym.id.sbn
    ensures OfBlock(symbols[sym.id := sym], sbn) == OfBlock(symbols, sbn)
    ensures OfBlock(NotOfBlock(symbols[sym.id := sym], sym.id.sbn), sbn) == OfBlock(symbols, sbn)
  {
  }

  lemma CompletedIsEmpty(symbols: Buffer, sbn: nat)
    ensures |OfBlock(NotOfBlock(symbols, sbn), sbn)| == 0
  {
    assert OfBlock(NotOfBlock(symbols, sbn), sbn) == map[];
  }

  lemma StoringStaysWithin(c: Config, s: Pipe, sym: Symbol, t: Pipe, sbn: nat)
    requires WithinLimit(c, s, sbn) && sym.id !in s.symbols
    requires c.maxBuffered == 0 || |OfBlock(s.symbols, sym.id.sbn)| < c.maxBuffered
    requires t.symbols == s.symbols[sym.id := sym]
          || t.symbols == NotOfBlock(s.symbols[sym.id := sym], sym.id.sbn)
    ensures WithinLimit(c, t, sbn)
  {
    OneMoreOfBlock(s.symbols, sym);
    CompletedIsEmpty(s.symbols[sym.id := sym], sym.id.sbn);
    if sbn != sym.id.sbn {
      OfBlockOfOther(s.symbols, sym, sbn);
    }
  }

  lemma StepStaysWithin(c: Config, lib: Library, s: Pipe, e: Event, sbn: nat)
    requires WithinLimit(c, s, sbn)
    ensures WithinLimit(c, Step(c, lib, s, e), sbn)
  {
    if e.Feed? {
      AfterFeedOutcome(c, lib, s, e.sym, e.ch);
      if Stores(c, s, e.sym, e.ch) {
        StoringStaysWithin(c, s, e.sym, AfterFeed(c, lib, s, e.sym, e.ch).0, sbn);
      }
    }
  }

  /** No block ever has more symbols buffered than the limit allows. */
  lemma {:induction false} BufferStaysWithinLimit(c: Config, lib: Library, events: seq<Event>, sbn: nat)
    ensures WithinLimit(c, Run(c, lib, events), sbn)
  {
    if events == [] {
      assert OfBlock(EMPTY.symbols, sbn) == map[];
    } else {
      BufferStaysWithinLimit(c, lib, events[..|events| - 1], sbn);
      StepStaysWithin(c, lib, Run(c, lib, events[..|events| - 1]), events[|events| - 1], sbn);
    }
  }

  // ------------------------------------------------------------ what the answers say

  /** Answers to a symbol that is not taken. */
  predicate TurnsAway(a: Answer) {
    a in {Duplicate, Rejected(MemoryLimitReached), Rejected(BlockAlreadyDecoded), Rejected(WrongObjectId),
          Rejected(AuthenticationFailed), Rejected(RejectReason.SymbolSizeMismatch)}
  }

  /**
   * Over every run, what is said to a symbol that is turned away is true: a duplicate was fed
   * before, a full block holds exactly as many as the limit, a decoded block has its bytes,
   * and with a wrong object every buffered symbol belongs to another one.
   */
  lemma AnswersAreTrue(c: Config, lib: Library, events: seq<Event>, sym: Symbol, ch: Chance)
    requires AllPossible(events)
    ensures var s := Run(c, lib, events);
            var (t, answer) := AfterFeed(c, lib, s, sym, ch);
            && (!Taken(s, t, sym) ==> TurnsAway(answer))
            && (answer == Duplicate ==>
                  exists e :: e in events && e.Feed? && e.sym.id == sym.id && (c.verifyAuth ==> e.ch.authentic))
            && (answer == Rejected(MemoryLimitReached) ==>
                  c.maxBuffered > 0 && |OfBlock(s.symbols, sym.id.sbn)| == c.maxBuffered)
            && (answer == Rejected(BlockAlreadyDecoded) ==>
                  sym.id.sbn in s.blocks && s.blocks[sym.id.sbn].decoded.Some?)
            && (answer == Rejected(WrongObjectId) ==>
                  s.objectId.Some? && forall id :: id in s.symbols ==> id.objectId != sym.id.objectId)
            && (answer == Rejected(AuthenticationFailed) ==> c.verifyAuth && !ch.authentic)
  {
    var s := Run(c, lib, events);
    EveryRunKeeps(c, lib, events);
    BufferStaysWithinLimit(c, lib, events, sym.id.sbn);
    if sym.id in s.symbols {
      OnlyAuthenticSymbols(c, lib, events, sym.id);
      assert s.symbols[sym.id].id == sym.id;
    }
    TurnedAwayOnlyIfNotTaken(c, lib, s, sym, ch);
    AnswerTells(c, lib, s, sym, ch);
  }

  lemma TurnedAwayOnlyIfNotTaken(c: Config, lib: Library, s: Pipe, sym: Symbol, ch: Chance)
    requires Inv(c, s)
    ensures !Taken(s, AfterFeed(c, lib, s, sym, ch).0, sym) ==> TurnsAway(AfterFeed(c, lib, s, sym, ch).1)
  {
    TakenExactly(c, lib, s, sym, ch);
  }

  /** What an answer says about the state it was given in. */
  lemma AnswerTells(c: Config, lib: Library, s: Pipe, sym: Symbol, ch: Chance)
    requires Inv(c, s)
    ensures var (answer, sbn) := (AfterFeed(c, lib, s, sym, ch).1, sym.id.sbn);
            && (answer == Duplicate ==> sym.id in s.symbols)
            && (answer == Rejected(MemoryLimitReached) ==>
                  c.maxBuffered > 0 && |OfBlock(s.symbols, sbn)| >= c.maxBuffered)
            && (answer == Rejected(BlockAlreadyDecoded) ==> sbn in s.blocks && s.blocks[sbn].decoded.Some?)
            && (answer == Rejected(WrongObjectId) ==>
                  s.objectId.Some? && forall id :: id in s.symbols ==> id.objectId != sym.id.objectId)
            && (answer == Rejected(AuthenticationFailed) ==> c.verifyAuth && !ch.authentic)
  {
    if Stores(c, s, sym, ch) {
      AfterFeedOutcome(c, lib, s, sym, ch);
    }
  }

  predicate HasBytes(blocks: map<nat, Block>, sbn: nat) { sbn in blocks && blocks[sbn].decoded.Some? }

  /** Block `i` of the plans is the first without bytes. */
  predicate FirstMissing(blocks: map<nat, Block>, plans: seq<Plan>, i: nat) {
    && i < |plans| && !HasBytes(blocks, plans[i].sbn)
    && forall j :: 0 <= j < i ==> HasBytes(blocks, plans[j].sbn)
  }

  lemma {:induction false} GatherNamesFirst(blocks: map<nat, Block>, plans: seq<Plan>)
    ensures match Gather(blocks, plans)
            case Ok(_) => forall j :: 0 <= j < |plans| ==> HasBytes(blocks, plans[j].sbn)
            case Err(sbn) => exists i: nat :: FirstMissing(blocks, plans, i) && plans[i].sbn == sbn
  {
    if plans != [] {
      var init := plans[..|plans| - 1];
      GatherNamesFirst(blocks, init);
      if Gather(blocks, init).Err? {
        var i: nat :| FirstMissing(blocks, init, i) && init[i].sbn == Gather(blocks, init).error;
        assert FirstMissing(blocks, plans, i);
      } else if Gather(blocks, plans).Err? {
        assert forall j :: 0 <= j < |init| ==> init[j] == plans[j];
        assert FirstMissing(blocks, plans, |init|);
      }
    }
  }

  /** When a complete pipeline has no answer, the error names the first planned block without bytes. */
  lemma MissingBlockIsNamed(c: Config, s: Pipe)
    requires IsComplete(s) && IntoData(c, s).Err?
    ensures exists i: nat :: FirstMissing(s.blocks, s.plans.value, i)
                        && IntoData(c, s) == Err(InconsistentMetadata(s.plans.value[i].sbn))
  {
    GatherNamesFirst(s.blocks, s.plans.value);
  }

  // ------------------------------------------------------------ the K the symbol set works with

  /** Every planned block has its K, as far as it fits a u16. */
  predicate KnowsK(s: Pipe) {
    && (s.plans.None? ==> s.blockK == map[])
    && (s.plans.Some? ==>
          forall i :: 0 <= i < |s.plans.value| ==>
            i in s.blockK && s.blockK[i] == if s.plans.value[i].k <= U16_MAX then s.plans.value[i].k else U16_MAX)
  }

  lemma {:induction false} ConfiguringReaches(blockK: map<nat, nat>, plans: seq<Plan>, i: nat)
    requires (forall j :: 0 <= j < |plans| ==> plans[j].sbn == j) && i < |plans|
    ensures var m := ConfiguredK(blockK, plans);
            i in m && m[i] == if plans[i].k <= U16_MAX then plans[i].k else U16_MAX
  {
    if i < |plans| - 1 {
      ConfiguringReaches(blockK, plans[..|plans| - 1], i);
    }
  }

  lemma ConfiguredKnowsK(c: Config, s: Pipe)
    requires PlansOk(c, s) && s.plans.Some?
    ensures KnowsK(Configure(s))
  {
    PlansAreChained(c, s);
    forall i | 0 <= i < |s.plans.value|
      ensures i in Configure(s).blockK
      ensures Configure(s).blockK[i] == if s.plans.value[i].k <= U16_MAX then s.plans.value[i].k else U16_MAX
    {
      ConfiguringReaches(s.blockK, s.plans.value, i);
    }
  }

  lemma FeedKnowsK(c: Config, lib: Library, s: Pipe, sym: Symbol, ch: Chance)
    requires Inv(c, s) && KnowsK(s)
    ensures KnowsK(AfterFeed(c, lib, s, sym, ch).0)
  {
    var (t, answer) := AfterFeed(c, lib, s, sym, ch);
    AfterFeedOutcome(c, lib, s, sym, ch);
    OutcomeKeepsPlans(c, s, sym, ch, t, answer);
    assert t.blockK == s.blockK || t.blockK == Configure(s).blockK;
    if s.plans.Some? {
      ConfiguredKnowsK(c, s);
    }
  }

  /** In every reachable state the symbol set knows the K of every planned block. */
  lemma {:induction false} EveryBlockHasItsK(c: Config, lib: Library, events: seq<Event>)
    requires AllPossible(events)
    ensures KnowsK(Run(c, lib, events))
  {
    if events != [] {
      var init, e := events[..|events| - 1], events[|events| - 1];
      var s := Run(c, lib, init);
      EveryBlockHasItsK(c, lib, init);
      EveryRunKeeps(c, lib, init);
      assert Possible(e);
      match e
      case Feed(sym, ch) => FeedKnowsK(c, lib, s, sym, ch);
      case SetParams(params) => ParamsKnowK(c, lib, s, params);
    }
  }

  /** The total that is reported asks for each block what `feed` reports as needed for it. */
  lemma TotalAsksForEachBlock(c: Config, lib: Library, events: seq<Event>, i: nat)
    requires AllPossible(events) && Run(c, lib, events).plans.Some? && i < |Run(c, lib, events).plans.value|
    ensures var s := Run(c, lib, events);
            i in s.blockK
            && PlanNeeds(s.plans.value[i], c.overhead, c.minOverhead)
               == RequiredSymbols(s.blockK[i], c.overhead, c.minOverhead)
  {
    EveryBlockHasItsK(c, lib, events);
  }

  lemma ParamsKnowK(c: Config, lib: Library, s: Pipe, params: ObjectParams)
    requires Inv(c, s) && KnowsK(s) && params.objectSize <= USIZE_MAX
    ensures KnowsK(Step(c, lib, s, SetParams(params)))
  {
    if AfterParams(c, s, params).Ok? {
      var plans := Layout(params.objectSize, params.symbolSize, c.maxBlockSize).value;
      var u := s.(objectId := Some(params.objectId), objectSize := Some(params.objectSize), plans := Some(plans));
      ConfiguredKnowsK(c, u);
    }
  }

  // ------------------------------------------------------------ parameters and answers

  /** Exactly which object parameters are accepted, and what they set. */
  lemma ParamsAcceptedExactly(c: Config, s: Pipe, params: ObjectParams)
    requires params.objectSize <= USIZE_MAX
    ensures AfterParams(c, s, params).Ok? <==>
              && params.symbolSize == c.symbolSize
              && (s.objectId == None || s.objectId == Some(params.objectId))
              && (params.objectSize == 0 ||
                    (params.symbolSize > 0 && c.maxBlockSize > 0
                     && CeilDiv(params.objectSize, c.maxBlockSize) <= 256))
              && (if params.objectSize == 0
                  then params.sourceBlocks == 1 || (params.sourceBlocks == 0 && params.symbolsPerBlock == 0)
                  else && params.sourceBlocks == CeilDiv(params.objectSize, c.maxBlockSize)
                       && params.symbolsPerBlock == CeilDiv(Min(c.maxBlockSize, params.objectSize), params.symbolSize))
    ensures AfterParams(c, s, params).Err? ==>
              AfterParams(c, s, params).error == if params.symbolSize != c.symbolSize
                                                 then DecodingError.SymbolSizeMismatch(c.symbolSize, params.symbolSize)
                                                 else InconsistentMetadata(0)
    ensures AfterParams(c, s, params).Ok? ==>
              var t := AfterParams(c, s, params).value;
              && t.objectId == Some(params.objectId) && t.objectSize == Some(params.objectSize) && t.plans.Some?
              && t.symbols == s.symbols && t.blocks == s.blocks && t.completed == s.completed
              && t.accepted == s.accepted
  {
    if params.objectSize > 0 {
      LayoutFailsExactly(params.objectSize, params.symbolSize, c.maxBlockSize);
    }
    if Layout(params.objectSize, params.symbolSize, c.maxBlockSize).Ok? {
      ValidLayoutExactly(params, c.maxBlockSize);
      var plans := Layout(params.objectSize, params.symbolSize, c.maxBlockSize).value;
      if params.objectSize > 0 {
        CeilDivCovers(params.objectSize, c.maxBlockSize);
        assert plans == Blocks(params.objectSize, params.symbolSize, c.maxBlockSize);
        assert |plans| == CeilDiv(params.objectSize, c.maxBlockSize) > 0;
        assert plans[0] == BlockAt(params.objectSize, params.symbolSize, c.maxBlockSize, 0);
      }
    }
  }

  /** An unfinished pipeline reports what it took, and what the whole layout needs. */
  lemma UnfinishedReports(c: Config, s: Pipe, retired: nat)
    requires s.plans.Some? && !IsComplete(s) && Balanced(s, retired)
    ensures var needs := ExactSum(s.plans.value, c.overhead, c.minOverhead);
            IntoData(c, s) == Err(InsufficientSymbols(Min(USIZE_MAX, |s.symbols| + retired), Min(USIZE_MAX, needs)))
  {
    SumSaturatesExactly(s.plans.value, c.overhead, c.minOverhead);
  }
}
