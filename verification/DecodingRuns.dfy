/**
 * What holds over whole runs of the decoding pipeline: for every sequence of
 * `set_object_params` and `feed` calls, with every choice the code leaves open.
 */
module DecodingRuns {
  import opened Prelude
  import opened BlockLayout
  import opened RaptorQ
  import opened DecodingPipeline

  datatype Event = SetParams(params: ObjectParams) | Feed(sym: Symbol, ch: Chance)

  function Step(c: Config, lib: Library, s: Pipe, e: Event): Pipe {
    match e
    case SetParams(params) =>
      var r := AfterParams(c, s, params);
      if r.Ok? then r.value else s
    case Feed(sym, ch) => AfterFeed(c, lib, s, sym, ch).0
  }

  function Run(c: Config, lib: Library, events: seq<Event>): Pipe {
    if events == [] then EMPTY
    else Step(c, lib, Run(c, lib, events[..|events| - 1]), events[|events| - 1])
  }

  /** Object sizes are usize values, and hash maps list their values once. */
  ghost predicate Possible(e: Event) {
    match e
    case SetParams(params) => params.objectSize <= USIZE_MAX
    case Feed(_, ch) => Lists(ch.list)
  }

  ghost predicate AllPossible(events: seq<Event>) { forall e :: e in events ==> Possible(e) }

  // ------------------------------------------------------------ every reachable state

  predicate BufferOk(c: Config, s: Pipe) {
    forall id :: id in s.symbols ==>
      && s.symbols[id].id == id && |s.symbols[id].data| == c.symbolSize
      && s.objectId == Some(id.objectId)
      && id.sbn in s.blocks && id.sbn !in s.completed
  }

  /** The completed set, the Decoded states and the blocks holding bytes are the same blocks. */
  predicate BlocksOk(s: Pipe) {
    && s.completed <= s.blocks.Keys
    && forall sbn :: sbn in s.blocks ==>
         && (sbn in s.completed <==> s.blocks[sbn].state == Decoded)
         && (sbn in s.completed <==> s.blocks[sbn].decoded.Some?)
  }

  predicate PlansOk(c: Config, s: Pipe) {
    && (s.plans.Some? <==> s.objectSize.Some?)
    && (s.plans.Some? ==>
          && s.objectId.Some? && s.objectSize.value <= USIZE_MAX
          && Layout(s.objectSize.value, c.symbolSize, c.maxBlockSize) == Ok(s.plans.value))
  }

  predicate Inv(c: Config, s: Pipe) { BufferOk(c, s) && BlocksOk(s) && PlansOk(c, s) }

  /** Nothing but the named block and the buffer may differ; completed blocks stay as they are. */
  predicate Frame(s: Pipe, t: Pipe) {
    && s.completed <= t.completed
    && (forall sbn :: sbn in s.completed ==> sbn in s.blocks && sbn in t.blocks && t.blocks[sbn] == s.blocks[sbn])
    && (s.objectId.Some? ==> t.objectId == s.objectId)
  }

  lemma FrameIsTransitive(s: Pipe, t: Pipe, u: Pipe)
    requires Frame(s, t) && Frame(t, u)
    ensures Frame(s, u)
  {
  }

  /** The three ways `try_decode_block` can leave the state. */
  lemma TryShape(c: Config, lib: Library, list: Listing, s: Pipe, sbn: nat)
    ensures var (t, answer) := AfterTry(c, lib, list, s, sbn);
            if answer.Some? && answer.value.BlockComplete?
            then answer.value.sbn == sbn && t == Complete(s, sbn, answer.value.data)
            else t == s || t == Mark(s, sbn, Failed)
  {
  }

  lemma MarkKeeps(c: Config, s: Pipe, sbn: nat, state: BlockState)
    requires Inv(c, s) && sbn !in s.completed && state != BlockState.Decoded
    ensures Inv(c, Mark(s, sbn, state)) && Frame(s, Mark(s, sbn, state))
  {
  }

  lemma CompleteKeeps(c: Config, s: Pipe, sbn: nat, data: seq<byte>)
    requires Inv(c, s) && sbn in s.blocks && sbn !in s.completed
    ensures Inv(c, Complete(s, sbn, data)) && Frame(s, Complete(s, sbn, data))
  {
  }

  lemma InsertKeeps(c: Config, s: Pipe, sym: Symbol)
    requires Inv(c, s) && |sym.data| == c.symbolSize && s.objectId == Some(sym.id.objectId)
    requires sym.id.sbn in s.blocks && sym.id.sbn !in s.completed
    ensures Inv(c, Inserted(s, sym)) && Frame(s, Inserted(s, sym))
  {
  }

  /** The state `try_decode_block` runs in. */
  function BeforeTry(s: Pipe, sym: Symbol): Pipe { Mark(Inserted(s, sym), sym.id.sbn, Decoding) }

  lemma MarkTwice(s: Pipe, sbn: nat, state: BlockState, state': BlockState)
    ensures Mark(Mark(s, sbn, state), sbn, state') == Mark(s, sbn, state')
  {
    if sbn in s.blocks {
      var block := s.blocks[sbn];
      assert s.blocks[sbn := block.(state := state)][sbn := block.(state := state')] ==
          s.blocks[sbn := block.(state := state')];
    }
  }

  /**
   * How `feed` ends once a symbol is stored: the symbol's block is completed, or only the
   * state of that block may have changed.
   */
  ghost predicate InsertOutcome(s: Pipe, sym: Symbol, u: Pipe, answer: Answer) {
    if answer.BlockComplete?
    then answer.sbn == sym.id.sbn && u == Complete(BeforeTry(s, sym), sym.id.sbn, answer.data)
    else u == Inserted(s, sym)
         || exists state :: state != BlockState.Decoded && u == Mark(Inserted(s, sym), sym.id.sbn, state)
  }

  lemma AfterInsertOutcome(c: Config, lib: Library, s: Pipe, sym: Symbol, ch: Chance)
    ensures var (u, answer) := AfterInsert(c, lib, s, sym, ch);
            && InsertOutcome(s, sym, u, answer)
            && (answer.BlockComplete? ==> AfterTry(c, lib, ch.list, BeforeTry(s, sym), sym.id.sbn) == (u, Some(answer)))
  {
    var (u, answer) := AfterInsert(c, lib, s, sym, ch);
    var t, sbn := Inserted(s, sym), sym.id.sbn;
    if ch.threshold {
      TryShape(c, lib, ch.list, BeforeTry(s, sym), sbn);
      MarkTwice(t, sbn, Decoding, Failed);
      MarkTwice(t, sbn, Decoding, Collecting);
    }
    assert answer.BlockComplete? || u == t || u == Mark(t, sbn, Failed) || u == Mark(t, sbn, Decoding) ||
        u == Mark(t, sbn, Collecting);
  }

  /** `feed` stores the symbol. */
  predicate Stores(c: Config, s: Pipe, sym: Symbol, ch: Chance) {
    && Refusal(c, s, sym, ch.authentic).None?
    && sym.id.sbn !in s.completed && sym.id !in s.symbols
    && (c.maxBuffered == 0 || |OfBlock(s.symbols, sym.id.sbn)| < c.maxBuffered)
  }

  /** How `feed` ends: the symbol was stored, or at most the id was latched and an entry made. */
  ghost predicate FeedOutcome(c: Config, s: Pipe, sym: Symbol, ch: Chance, t: Pipe, answer: Answer) {
    if Stores(c, s, sym, ch) then InsertOutcome(Opened(s, sym), sym, t, answer)
    else
      && !answer.BlockComplete?
      && (t == s || (Refusal(c, s, sym, ch.authentic).None?
                     && (t == Opened(s, sym)
                         || (t == s.(objectId := Some(sym.id.objectId)) && sym.id.sbn in s.completed))))
  }

  lemma AfterFeedOutcome(c: Config, lib: Library, s: Pipe, sym: Symbol, ch: Chance)
    ensures var (t, answer) := AfterFeed(c, lib, s, sym, ch);
            && FeedOutcome(c, s, sym, ch, t, answer)
            && (answer.BlockComplete? ==>
                  && Stores(c, s, sym, ch)
                  && AfterTry(c, lib, ch.list, BeforeTry(Opened(s, sym), sym), sym.id.sbn) == (t, Some(answer)))
  {
    AfterInsertOutcome(c, lib, Opened(s, sym), sym, ch);
  }

  lemma InsertOutcomeKeeps(c: Config, s: Pipe, sym: Symbol, u: Pipe, answer: Answer)
    requires Inv(c, s) && |sym.data| == c.symbolSize && s.objectId == Some(sym.id.objectId)
    requires sym.id.sbn in s.blocks && sym.id.sbn !in s.completed && InsertOutcome(s, sym, u, answer)
    ensures Inv(c, u) && Frame(s, u)
  {
    var t, sbn := Inserted(s, sym), sym.id.sbn;
    InsertKeeps(c, s, sym);
    if answer.BlockComplete? {
      var v := BeforeTry(s, sym);
      MarkKeeps(c, t, sbn, Decoding);
      CompleteKeeps(c, v, sbn, answer.data);
      FrameIsTransitive(s, t, v);
      FrameIsTransitive(s, v, u);
    } else if u != t {
      var state :| state != BlockState.Decoded && u == Mark(t, sbn, state);
      MarkKeeps(c, t, sbn, state);
      FrameIsTransitive(s, t, u);
    }
  }

  lemma OpenedKeeps(c: Config, s: Pipe, sym: Symbol)
    requires Inv(c, s) && (s.objectId.Some? ==> s.objectId.value == sym.id.objectId)
    ensures sym.id.sbn !in s.completed ==> Inv(c, Opened(s, sym)) && Frame(s, Opened(s, sym))
    ensures Inv(c, s.(objectId := Some(sym.id.objectId))) && Frame(s, s.(objectId := Some(sym.id.objectId)))
  {
  }

  lemma FeedOutcomeKeeps(c: Config, s: Pipe, sym: Symbol, ch: Chance, t: Pipe, answer: Answer)
    requires Inv(c, s) && FeedOutcome(c, s, sym, ch, t, answer)
    ensures Inv(c, t) && Frame(s, t)
  {
    if Refusal(c, s, sym, ch.authentic).None? {
      OpenedKeeps(c, s, sym);
      if Stores(c, s, sym, ch) {
        InsertOutcomeKeeps(c, Opened(s, sym), sym, t, answer);
        FrameIsTransitive(s, Opened(s, sym), t);
      } else if sym.id.sbn in s.completed && t == Opened(s, sym) {
        assert t == s.(objectId := Some(sym.id.objectId));
      }
    }
  }

  lemma StepKeeps(c: Config, lib: Library, s: Pipe, e: Event)
    requires Inv(c, s) && Possible(e)
    ensures Inv(c, Step(c, lib, s, e)) && Frame(s, Step(c, lib, s, e))
  {
    if e.Feed? {
      AfterFeedOutcome(c, lib, s, e.sym, e.ch);
      var (t, answer) := AfterFeed(c, lib, s, e.sym, e.ch);
      FeedOutcomeKeeps(c, s, e.sym, e.ch, t, answer);
    }
  }

  lemma {:induction false} EveryRunKeeps(c: Config, lib: Library, events: seq<Event>)
    requires AllPossible(events)
    ensures Inv(c, Run(c, lib, events))
  {
    if events != [] {
      EveryRunKeeps(c, lib, events[..|events| - 1]);
      StepKeeps(c, lib, Run(c, lib, events[..|events| - 1]), events[|events| - 1]);
    }
  }

  /** Once a block is completed its bytes never change, and the object id is set at most once. */
  lemma {:induction false} DecodedBytesNeverChange(c: Config, lib: Library, events: seq<Event>, more: seq<Event>)
    requires AllPossible(events + more)
    ensures Frame(Run(c, lib, events), Run(c, lib, events + more))
    decreases |more|
  {
    assert forall e :: e in events ==> e in events + more;
    EveryRunKeeps(c, lib, events);
    if more == [] {
      assert events + more == events;
    } else {
      var init, last := more[..|more| - 1], more[|more| - 1];
      assert events + more == (events + init) + [last];
      assert (events + more)[..|events + more| - 1] == events + init;
      assert forall e :: e in events + init ==> e in events + more;
      DecodedBytesNeverChange(c, lib, events, init);
      EveryRunKeeps(c, lib, events + init);
      StepKeeps(c, lib, Run(c, lib, events + init), last);
      FrameIsTransitive(Run(c, lib, events), Run(c, lib, events + init), Run(c, lib, events + more));
    }
  }

  // ------------------------------------------------------------ symbol accounting

  lemma {:induction false} SizeSplits(symbols: Buffer, sbn: nat)
    ensures |OfBlock(symbols, sbn)| + |NotOfBlock(symbols, sbn)| == |symbols|
  {
    var a, b := OfBlock(symbols, sbn), NotOfBlock(symbols, sbn);
    assert a.Keys !! b.Keys && a.Keys + b.Keys == symbols.Keys;
    assert |a.Keys + b.Keys| == |a.Keys| + |b.Keys|;
  }

  /** The buffered symbols that a `feed` retires by completing their block. */
  function RetiredBy(s: Pipe, sym: Symbol, answer: Answer): nat {
    if answer.BlockComplete? then |OfBlock(s.symbols[sym.id := sym], sym.id.sbn)| else 0
  }

  function Retires(c: Config, lib: Library, s: Pipe, e: Event): nat {
    if e.Feed? then RetiredBy(s, e.sym, AfterFeed(c, lib, s, e.sym, e.ch).1) else 0
  }

  function Retired(c: Config, lib: Library, events: seq<Event>): nat {
    if events == [] then 0
    else
      var init, e := events[..|events| - 1], events[|events| - 1];
      Retired(c, lib, init) + Retires(c, lib, Run(c, lib, init), e)
  }

  lemma FeedCounts(c: Config, s: Pipe, sym: Symbol, ch: Chance, t: Pipe, answer: Answer)
    requires FeedOutcome(c, s, sym, ch, t, answer)
    ensures if Stores(c, s, sym, ch)
            then t.accepted == SatAdd(s.accepted, 1) && |t.symbols| + RetiredBy(s, sym, answer) == |s.symbols| + 1
            else t.accepted == s.accepted && t.symbols == s.symbols && RetiredBy(s, sym, answer) == 0
  {
    SizeSplits(s.symbols[sym.id := sym], sym.id.sbn);
  }

  /** The accepted total is the buffered plus the retired symbols, up to saturation. */
  predicate Balanced(s: Pipe, retired: nat) { s.accepted == Min(USIZE_MAX, |s.symbols| + retired) }

  lemma StepBalances(c: Config, lib: Library, s: Pipe, e: Event, retired: nat)
    requires Balanced(s, retired)
    ensures Balanced(Step(c, lib, s, e), retired + Retires(c, lib, s, e))
  {
    if e.Feed? {
      AfterFeedOutcome(c, lib, s, e.sym, e.ch);
      var (t, answer) := AfterFeed(c, lib, s, e.sym, e.ch);
      FeedCounts(c, s, e.sym, e.ch, t, answer);
    }
  }

  /** Over every run, no accepted symbol is lost track of. */
  lemma {:induction false} SymbolsAccountedFor(c: Config, lib: Library, events: seq<Event>)
    ensures Balanced(Run(c, lib, events), Retired(c, lib, events))
  {
    if events != [] {
      var init, e := events[..|events| - 1], events[|events| - 1];
      SymbolsAccountedFor(c, lib, init);
      StepBalances(c, lib, Run(c, lib, init), e, Retired(c, lib, init));
    }
  }

  /**
   * One object id in a whole run: symbols buffered at any two times belong to the same
   * object, and so does every layout that is accepted in between or afterwards.
   */
  lemma OneObjectId(c: Config, lib: Library, events: seq<Event>, more: seq<Event>, id: SymbolId)
    requires AllPossible(events + more) && id in Run(c, lib, events).symbols
    ensures forall id' :: id' in Run(c, lib, events + more).symbols ==> id'.objectId == id.objectId
    ensures forall params :: AfterParams(c, Run(c, lib, events + more), params).Ok? ==> params.objectId == id.objectId
  {
    assert forall e :: e in events ==> e in events + more;
    EveryRunKeeps(c, lib, events);
    EveryRunKeeps(c, lib, events + more);
    DecodedBytesNeverChange(c, lib, events, more);
  }

  // ------------------------------------------------------------ what an answer tells

  /** The state of the block after a decoding attempt that gave this answer. */
  predicate AttemptLeft(answer: Option<Answer>, state: BlockState) {
    match answer
    case None => state == Decoding
    case Some(Rejected(InsufficientRank)) => state == Decoding
    case Some(Rejected(InconsistentEquations)) => state == Decoding
    case Some(Rejected(InvalidMetadata)) => state == Failed
    case Some(Rejected(SymbolSizeMismatch)) => state == Failed
    case Some(BlockComplete(_, _)) => state == BlockState.Decoded
    case Some(_) => false
  }

  lemma TryTells(c: Config, lib: Library, list: Listing, s: Pipe, sbn: nat)
    requires sbn in s.blocks && s.blocks[sbn].state == Decoding
    ensures var (t, answer) := AfterTry(c, lib, list, s, sbn);
            && sbn in t.blocks && AttemptLeft(answer, t.blocks[sbn].state)
            && (answer.Some? && answer.value.BlockComplete? ==> |OfBlock(t.symbols, sbn)| == 0)
  {
    assert |OfBlock(NotOfBlock(s.symbols, sbn), sbn)| == 0 by {
      assert OfBlock(NotOfBlock(s.symbols, sbn), sbn) == map[];
    }
  }

  lemma OneMoreOfBlock(symbols: Buffer, sym: Symbol)
    requires sym.id !in symbols
    ensures |OfBlock(symbols[sym.id := sym], sym.id.sbn)| == |OfBlock(symbols, sym.id.sbn)| + 1
  {
    var a, b := OfBlock(symbols[sym.id := sym], sym.id.sbn), OfBlock(symbols, sym.id.sbn);
    assert a.Keys == b.Keys + {sym.id} && sym.id !in b.Keys;
    assert |a.Keys| == |b.Keys| + 1;
  }

  /**
   * What a caller learns from storing a symbol: Accepted reports the block's true count;
   * a block that cannot be solved yet, or not consistently, rests in Decoding, because
   * `feed` returns before the state is reset; bad metadata fails the block for good.
   */
  lemma StoringTells(c: Config, lib: Library, s: Pipe, sym: Symbol, ch: Chance)
    requires sym.id !in s.symbols && sym.id.sbn in s.blocks && s.blocks[sym.id.sbn].state != BlockState.Decoded
    ensures var (t, answer), sbn := AfterInsert(c, lib, s, sym, ch), sym.id.sbn;
            && sbn in t.blocks
            && match answer
               case Accepted(received, needed) =>
                 && received == |OfBlock(t.symbols, sbn)| == |OfBlock(s.symbols, sbn)| + 1
                 && needed == (if sbn in s.blockK then RequiredSymbols(s.blockK[sbn], c.overhead, c.minOverhead) else 0)
                 && (t.blocks[sbn].state == Collecting || (t.blocks[sbn].state == Failed && !ch.threshold))
               case BlockComplete(b, data) =>
                 b == sbn && |OfBlock(t.symbols, sbn)| == 0 && t.blocks[sbn] == Block(BlockState.Decoded, Some(data))
               case Duplicate => false
               case Rejected(reason) => ch.threshold && AttemptLeft(Some(answer), t.blocks[sbn].state)
  {
    var sbn := sym.id.sbn;
    OneMoreOfBlock(s.symbols, sym);
    var t := Inserted(s, sym);
    assert t.symbols == s.symbols[sym.id := sym] && t.blocks == s.blocks;
    if ch.threshold {
      assert BeforeTry(s, sym).blocks[sbn].state == Decoding && BeforeTry(s, sym).symbols == t.symbols;
      TryTells(c, lib, ch.list, BeforeTry(s, sym), sbn);
      TryShape(c, lib, ch.list, BeforeTry(s, sym), sbn);
    }
  }

  // ------------------------------------------------------------ a fixed layout

  /** Every layout that takes effect is for an object of `size` bytes. */
  ghost predicate FixedLayout(c: Config, lib: Library, events: seq<Event>, size: nat) {
    events != [] ==>
      var init, e := events[..|events| - 1], events[|events| - 1];
      && FixedLayout(c, lib, init, size)
      && (e.SetParams? && AfterParams(c, Run(c, lib, init), e.params).Ok? ==> e.params.objectSize == size)
  }

  ghost predicate SoundLibrary(lib: Library, size: nat) {
    forall objectId, sbn, k :: k > 0 ==> Sound(lib(objectId, sbn, k, size), k, size)
  }

  /** Completed blocks are planned and hold exactly their planned number of bytes. */
  predicate FullBlocks(s: Pipe, size: nat) {
    && (s.objectSize.Some? ==> s.objectSize.value == size)
    && forall sbn :: sbn in s.completed ==>
         && s.plans.Some? && sbn < |s.plans.value|
         && sbn in s.blocks && s.blocks[sbn].decoded.Some? && |s.blocks[sbn].decoded.value| == s.plans.value[sbn].len
  }

  lemma {:induction false} PlanForFinds(plans: seq<Plan>, sbn: nat, from: nat)
    requires forall i :: 0 <= i < |plans| ==> plans[i].sbn == from + i
    ensures PlanFor(plans, sbn) == if from <= sbn < from + |plans| then Some(plans[sbn - from]) else None
    decreases |plans|
  {
    if plans != [] {
      PlanForFinds(plans[1..], sbn, from + 1);
    }
  }

  lemma {:induction false} JoinLength(symbols: seq<Symbol>, size: nat)
    requires forall i :: 0 <= i < |symbols| ==> |symbols[i].data| == size
    ensures |Join(symbols)| == |symbols| * size
  {
    if symbols != [] {
      JoinLength(symbols[..|symbols| - 1], size);
      assert |symbols| * size == (|symbols| - 1) * size + size;
    }
  }

  /** What a completed block was decoded from. */
  lemma CompletionMeans(c: Config, lib: Library, list: Listing, s: Pipe, sbn: nat)
    requires Inv(c, s) && Lists(list) && AfterTry(c, lib, list, s, sbn).1.Some?
    requires AfterTry(c, lib, list, s, sbn).1.value.BlockComplete?
    ensures s.plans.Some? && sbn < |s.plans.value|
    ensures var plan, symbols := s.plans.value[sbn], list(OfBlock(s.symbols, sbn));
            && plan.sbn == sbn && plan.k > 0 && symbols != []
            && s.objectId == Some(ObjectOf(symbols))
            && (forall x :: x in symbols ==> x.id in s.symbols && s.symbols[x.id] == x && x.id.sbn == sbn)
            && RaptorQ.Decoded(plan, symbols, c.symbolSize, lib).Ok?
            && AfterTry(c, lib, list, s, sbn).1.value.data
               == Truncate(Join(RaptorQ.Decoded(plan, symbols, c.symbolSize, lib).value), plan.len)
  {
    PlansAreChained(c, s);
    PlanForFinds(s.plans.value, sbn, 0);
    var m := OfBlock(s.symbols, sbn);
    assert Listed(list, m);
    var symbols := list(m);
    assert symbols[0] in symbols;
  }

  lemma CompletedBlockIsFull(c: Config, lib: Library, list: Listing, s: Pipe, sbn: nat)
    requires Inv(c, s) && Lists(list) && SoundLibrary(lib, c.symbolSize)
    requires AfterTry(c, lib, list, s, sbn).1.Some? && AfterTry(c, lib, list, s, sbn).1.value.BlockComplete?
    ensures s.plans.Some? && sbn < |s.plans.value|
    ensures |AfterTry(c, lib, list, s, sbn).1.value.data| == s.plans.value[sbn].len
  {
    CompletionMeans(c, lib, list, s, sbn);
    LayoutTiles(s.objectSize.value, c.symbolSize, c.maxBlockSize);
    var plan, symbols := s.plans.value[sbn], list(OfBlock(s.symbols, sbn));
    DecodingKeepsSources(plan, symbols, c.symbolSize, lib);
    JoinLength(RaptorQ.Decoded(plan, symbols, c.symbolSize, lib).value, c.symbolSize);
  }

  /** The state in which a block was completed still satisfies the invariants. */
  lemma TryStartsOk(c: Config, s: Pipe, sym: Symbol, ch: Chance)
    requires Inv(c, s) && Stores(c, s, sym, ch)
    ensures var u := BeforeTry(Opened(s, sym), sym);
            && Inv(c, u) && sym.id.sbn in u.blocks
            && u.plans == s.plans && u.objectSize == s.objectSize
            && u.completed == s.completed && u.symbols == s.symbols[sym.id := sym]
  {
    OpenedKeeps(c, s, sym);
    InsertKeeps(c, Opened(s, sym), sym);
    MarkKeeps(c, Inserted(Opened(s, sym), sym), sym.id.sbn, Decoding);
  }

  lemma InsertOutcomeKeepsPlans(s: Pipe, sym: Symbol, u: Pipe, answer: Answer)
    requires InsertOutcome(s, sym, u, answer) && sym.id.sbn in s.blocks
    ensures u.plans == s.plans && u.objectSize == s.objectSize
    ensures u.completed == if answer.BlockComplete? then s.completed + {sym.id.sbn} else s.completed
    ensures answer.BlockComplete? ==> sym.id.sbn in u.blocks && u.blocks[sym.id.sbn].decoded == Some(answer.data)
    ensures forall id :: id in u.symbols ==> (id in s.symbols && u.symbols[id] == s.symbols[id]) || u.symbols[id] == sym
  {
  }

  lemma OutcomeKeepsPlans(c: Config, s: Pipe, sym: Symbol, ch: Chance, t: Pipe, answer: Answer)
    requires FeedOutcome(c, s, sym, ch, t, answer)
    ensures t.plans == s.plans && t.objectSize == s.objectSize
    ensures t.completed == if answer.BlockComplete? then s.completed + {sym.id.sbn} else s.completed
    ensures answer.BlockComplete? ==> sym.id.sbn in t.blocks && t.blocks[sym.id.sbn].decoded == Some(answer.data)
    ensures forall id :: id in t.symbols ==>
              || (id in s.symbols && t.symbols[id] == s.symbols[id])
              || (Stores(c, s, sym, ch) && t.symbols[id] == sym)
  {
    if Stores(c, s, sym, ch) {
      InsertOutcomeKeepsPlans(Opened(s, sym), sym, t, answer);
    }
  }

  lemma FeedKeepsFull(c: Config, lib: Library, s: Pipe, sym: Symbol, ch: Chance, size: nat)
    requires Inv(c, s) && FullBlocks(s, size) && Lists(ch.list) && SoundLibrary(lib, c.symbolSize)
    ensures FullBlocks(AfterFeed(c, lib, s, sym, ch).0, size)
  {
    AfterFeedOutcome(c, lib, s, sym, ch);
    var (t, answer) := AfterFeed(c, lib, s, sym, ch);
    FeedOutcomeKeeps(c, s, sym, ch, t, answer);
    OutcomeKeepsPlans(c, s, sym, ch, t, answer);
    if answer.BlockComplete? {
      TryStartsOk(c, s, sym, ch);
      CompletedBlockIsFull(c, lib, ch.list, BeforeTry(Opened(s, sym), sym), sym.id.sbn);
    }
  }

  lemma {:induction false} FixedLayoutRun(c: Config, lib: Library, events: seq<Event>, size: nat)
    requires AllPossible(events) && FixedLayout(c, lib, events, size) && SoundLibrary(lib, c.symbolSize)
    ensures FullBlocks(Run(c, lib, events), size)
  {
    if events != [] {
      FixedLayoutRun(c, lib, events[..|events| - 1], size);
      EveryRunKeeps(c, lib, events[..|events| - 1]);
      var s, e := Run(c, lib, events[..|events| - 1]), events[|events| - 1];
      assert Possible(e);
      if e.Feed? {
        FeedKeepsFull(c, lib, s, e.sym, e.ch, size);
      }
    }
  }

  function Below(n: nat): set<nat> { if n == 0 then {} else Below(n - 1) + {n - 1} }

  lemma {:induction false} BelowIsBelow(n: nat)
    ensures |Below(n)| == n && forall i :: i in Below(n) <==> 0 <= i < n
  {
    if n > 0 {
      BelowIsBelow(n - 1);
    }
  }

  /** A set of numbers below `n` with `n` members has them all. */
  lemma FullCountMeansAll(xs: set<nat>, n: nat)
    requires |xs| == n && forall x :: x in xs ==> x < n
    ensures xs == Below(n)
  {
    BelowIsBelow(n);
    assert xs <= Below(n);
    assert Below(n) == xs + (Below(n) - xs);
    assert |Below(n)| == |xs| + |Below(n) - xs|;
  }

  /** Where a plan has to start: where the one before it ends. */
  function StartAt(plans: seq<Plan>, i: nat): nat
    requires i <= |plans|
  {
    if i == 0 then 0 else plans[i - 1].End()
  }

  predicate StartsRight(plans: seq<Plan>, i: nat)
    requires i < |plans|
  {
    plans[i].start == StartAt(plans, i)
  }

  /** The part of `Tiles` that reassembly relies on. */
  predicate Chained(plans: seq<Plan>, size: nat) {
    && (forall i :: 0 <= i < |plans| ==> plans[i].sbn == i)
    && (forall i {:trigger StartsRight(plans, i)} :: 0 <= i < |plans| ==> StartsRight(plans, i))
    && size == StartAt(plans, |plans|)
  }

  lemma PlansAreChained(c: Config, s: Pipe)
    requires PlansOk(c, s) && s.plans.Some?
    ensures Chained(s.plans.value, s.objectSize.value)
  {
    LayoutTiles(s.objectSize.value, c.symbolSize, c.maxBlockSize);
  }

  /** Every planned block holds its planned number of bytes. */
  predicate Filled(blocks: map<nat, Block>, plans: seq<Plan>) {
    forall i :: 0 <= i < |plans| ==> i in blocks && blocks[i].decoded.Some? && |blocks[i].decoded.value| == plans[i].len
  }

  lemma {:induction false} GatherAll(blocks: map<nat, Block>, plans: seq<Plan>, size: nat, n: nat)
    requires n <= |plans| && Chained(plans, size) && Filled(blocks, plans)
    ensures var r := Gather(blocks, plans[..n]);
            r.Ok? && |r.value| == StartAt(plans, n)
  {
    if n > 0 {
      GatherAll(blocks, plans, size, n - 1);
      assert plans[..n][..n - 1] == plans[..n - 1] && StartsRight(plans, n - 1);
      assert plans[n - 1].sbn == n - 1 && |blocks[n - 1].decoded.value| == plans[n - 1].len;
    }
  }

  lemma FullCountFills(s: Pipe, size: nat)
    requires FullBlocks(s, size) && IsComplete(s)
    ensures s.completed == Below(|s.plans.value|) && Filled(s.blocks, s.plans.value)
  {
    FullCountMeansAll(s.completed, |s.plans.value|);
    BelowIsBelow(|s.plans.value|);
    forall i | 0 <= i < |s.plans.value| ensures i in s.completed {
      assert i in Below(|s.plans.value|);
    }
  }

  lemma FullCountGathers(s: Pipe, size: nat)
    requires FullBlocks(s, size) && IsComplete(s) && Chained(s.plans.value, size)
    ensures Gather(s.blocks, s.plans.value).Ok? && |Gather(s.blocks, s.plans.value).value| == size
  {
    var plans := s.plans.value;
    FullCountFills(s, size);
    GatherAll(s.blocks, plans, size, |plans|);
    assert plans[..|plans|] == plans;
  }

  /**
   * For a fixed layout, completeness, which is only a comparison of two counts, means that
   * every planned block is there, and the object comes out with exactly its size.
   */
  lemma CompleteMeansEveryBlock(c: Config, lib: Library, events: seq<Event>, size: nat)
    requires AllPossible(events) && FixedLayout(c, lib, events, size) && SoundLibrary(lib, c.symbolSize)
    requires IsComplete(Run(c, lib, events))
    ensures var s := Run(c, lib, events);
            && s.completed == Below(|s.plans.value|)
            && IntoData(c, s).Ok? && |IntoData(c, s).value| == size
  {
    EveryRunKeeps(c, lib, events);
    FixedLayoutRun(c, lib, events, size);
    PlansAreChained(c, Run(c, lib, events));
    FullCountFills(Run(c, lib, events), size);
    FullCountGathers(Run(c, lib, events), size);
  }
}
