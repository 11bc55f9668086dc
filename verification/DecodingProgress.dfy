/**
 * Progress of the decoding pipeline: once all K source symbols of a block are buffered and
 * the threshold is reported, the block is completed, provided the solver answers systems
 * that have exactly one solution.
 */
module DecodingProgress {
  import opened Prelude
  import opened BlockLayout
  import opened RaptorQ
  import opened DecodingPipeline
  import opened DecodingRuns
  import opened RoundTrip

  /** The solver of every block answers, and the code of every block is systematic. */
  ghost predicate AnsweringLibrary(lib: Library, size: nat) {
    forall objectId, sbn, k :: k > 0 ==>
      Answers(lib(objectId, sbn, k, size), size) && Systematic(lib(objectId, sbn, k, size), size)
  }

  /** Source symbol `j` of a block is buffered. */
  predicate Buffered(symbols: Buffer, objectId: nat, sbn: nat, j: nat) {
    SymbolId(objectId, sbn, j) in symbols && symbols[SymbolId(objectId, sbn, j)].kind.Source?
  }

  predicate AllBuffered(symbols: Buffer, objectId: nat, sbn: nat, k: nat) {
    forall j :: 0 <= j < k ==> Buffered(symbols, objectId, sbn, j)
  }

  lemma BufferedIsListed(list: Listing, c: Config, s: Pipe, objectId: nat, sbn: nat, j: nat)
    requires Lists(list) && BufferOk(c, s) && Buffered(s.symbols, objectId, sbn, j)
    ensures HasSource(list(OfBlock(s.symbols, sbn)), j)
  {
    var m := OfBlock(s.symbols, sbn);
    assert Listed(list, m);
    var x := s.symbols[SymbolId(objectId, sbn, j)];
    assert x.id in m && m[x.id] == x;
    assert x in list(m);
  }

  lemma ListedAreOfTheBlock(list: Listing, c: Config, s: Pipe, sbn: nat)
    requires Lists(list) && BufferOk(c, s)
    ensures forall x :: x in list(OfBlock(s.symbols, sbn)) ==>
        x.id in s.symbols && s.symbols[x.id] == x && x.id.sbn == sbn
  {
    assert Listed(list, OfBlock(s.symbols, sbn));
  }

  /** What the solver is given is determined, so it answers. */
  lemma SourcesDecode(c: Config, lib: Library, o: Object, list: Listing, s: Pipe, plan: Plan)
    requires Encodes(c, lib, o) && AnsweringLibrary(lib, c.symbolSize) && Lists(list) && BufferOk(c, s)
    requires OwnPlan(c, lib, o, plan) && plan.k > 0 && AllBuffered(s.symbols, o.id, plan.sbn, plan.k)
    requires forall id :: id in s.symbols ==> SymbolOf(c, lib, o, s.symbols[id])
    ensures var symbols := list(OfBlock(s.symbols, plan.sbn));
            |symbols| >= plan.k && RaptorQ.Decoded(plan, symbols, c.symbolSize, lib).Ok?
  {
    var symbols := list(OfBlock(s.symbols, plan.sbn));
    forall j | 0 <= j < plan.k ensures HasSource(symbols, j) { BufferedIsListed(list, c, s, o.id, plan.sbn, j); }
    EnoughSources(symbols, plan.k);
    ListedAreOfTheBlock(list, c, s, plan.sbn);
    assert symbols[0] in symbols;
    assert SymbolOf(c, lib, o, symbols[0]) && ObjectOf(symbols) == o.id;
    assert forall x :: x in symbols ==> SymbolOf(c, lib, o, x);
    AllSourcesDecode(plan, symbols, c.symbolSize, lib, o.mids[plan.sbn]);
  }

  lemma OwnPlanHasSymbols(c: Config, lib: Library, o: Object, plan: Plan)
    requires Encodes(c, lib, o) && OwnPlan(c, lib, o, plan)
    ensures plan.k > 0
  {
    LayoutTiles(|o.bytes|, c.symbolSize, c.maxBlockSize);
    assert PlansOf(c, lib, o)[plan.sbn] == plan && plan.len > 0;
    assert plan.k == 0 ==> plan.k * c.symbolSize == 0;
  }

  lemma TryCompletes(c: Config, lib: Library, o: Object, list: Listing, s: Pipe, sbn: nat)
    requires Encodes(c, lib, o) && AnsweringLibrary(lib, c.symbolSize) && Lists(list) && Inv(c, s)
    requires s.plans == Some(PlansOf(c, lib, o)) && sbn < |PlansOf(c, lib, o)|
    requires AllBuffered(s.symbols, o.id, sbn, PlansOf(c, lib, o)[sbn].k)
    requires forall id :: id in s.symbols ==> SymbolOf(c, lib, o, s.symbols[id])
    ensures AfterTry(c, lib, list, s, sbn).1.Some? && AfterTry(c, lib, list, s, sbn).1.value.BlockComplete?
  {
    PlanIsFound(c, s, sbn);
    var plan := s.plans.value[sbn];
    OwnPlanHasSymbols(c, lib, o, plan);
    SourcesDecode(c, lib, o, list, s, plan);
  }

  lemma StoringCompletes(c: Config, lib: Library, s: Pipe, sym: Symbol, ch: Chance)
    requires Stores(c, s, sym, ch) && ch.threshold
    requires var r := AfterTry(c, lib, ch.list, BeforeTry(Opened(s, sym), sym), sym.id.sbn).1;
             r.Some? && r.value.BlockComplete?
    ensures AfterFeed(c, lib, s, sym, ch).1.BlockComplete?
  {
  }

  /**
   * In every run that stores only symbols of the object, under its own layout: the feed
   * that brings in the last of a block's source symbols, with the threshold reported,
   * completes the block and returns its slice of the object, whatever repair symbols are
   * buffered beside them.
   */
  lemma LastSourceCompletesTheBlock(c: Config, lib: Library, o: Object, events: seq<Event>, sym: Symbol, ch: Chance)
    requires Encodes(c, lib, o) && ExactLibrary(lib, c.symbolSize) && AnsweringLibrary(lib, c.symbolSize)
    requires AllPossible(events) && StoresOnly(c, lib, o, events) && Lists(ch.list) && SymbolOf(c, lib, o, sym)
    requires var s := Run(c, lib, events);
             && s.plans == Some(PlansOf(c, lib, o)) && Stores(c, s, sym, ch) && ch.threshold
             && AllBuffered(s.symbols[sym.id := sym], o.id, sym.id.sbn, PlansOf(c, lib, o)[sym.id.sbn].k)
    ensures var (t, answer) := AfterFeed(c, lib, Run(c, lib, events), sym, ch);
            var plan := PlansOf(c, lib, o)[sym.id.sbn];
            && plan.End() <= |o.bytes|
            && answer == BlockComplete(sym.id.sbn, o.bytes[plan.start..plan.End()]) && sym.id.sbn in t.completed
  {
    var s := Run(c, lib, events);
    EveryRunKeeps(c, lib, events);
    EveryRunIsFaithful(c, lib, o, events);
    var u := BeforeTry(Opened(s, sym), sym);
    TryStartsOk(c, s, sym, ch);
    TryCompletes(c, lib, o, ch.list, u, sym.id.sbn);
    StoringCompletes(c, lib, s, sym, ch);
    CompletionUsesThePlan(c, lib, s, sym, ch);
    CompletedFrom(c, lib, s, sym, ch);
    CompletedBlockIsASlice(c, lib, o, ch.list, u, sym.id.sbn);
  }
}
