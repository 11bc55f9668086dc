/**
 * The end-to-end law of the decoding pipeline: encode an object, deliver any selection of
 * its symbols in any order with any repetition, and a complete pipeline gives the object
 * back.  Nothing is known about which layouts or symbols come first.
 */
module RoundTrip {
  import opened Prelude
  import opened BlockLayout
  import opened RaptorQ
  import opened DecodingPipeline
  import opened DecodingRuns

  /** An object and, for each of its blocks, the intermediate symbols that encode it. */
  datatype Object = Object(id: nat, bytes: seq<byte>, mids: seq<seq<seq<byte>>>)

  /** Byte `p` of a block, zero past its end. */
  function ByteAt(bytes: seq<byte>, plan: Plan, p: nat): byte {
    if p < plan.len && plan.start + p < |bytes| then bytes[plan.start + p] else 0
  }

  function Piece(bytes: seq<byte>, plan: Plan, size: nat, from: nat): seq<byte> {
    seq(size, b requires 0 <= b => ByteAt(bytes, plan, from + b))
  }

  /** Source symbol `j` of a block: its slice of the object, zero-padded to a whole symbol. */
  function SourceSymbol(bytes: seq<byte>, plan: Plan, size: nat, j: nat): seq<byte> {
    Piece(bytes, plan, size, j * size)
  }

  ghost predicate EncodesBlock(d: Decoder, bytes: seq<byte>, plan: Plan, size: nat, mid: seq<seq<byte>>) {
    CodeWord(d, mid, plan.k, size) && forall j :: 0 <= j < plan.k ==> mid[j] == SourceSymbol(bytes, plan, size, j)
  }

  ghost predicate Encodes(c: Config, lib: Library, o: Object) {
    && |o.bytes| <= USIZE_MAX
    && Layout(|o.bytes|, c.symbolSize, c.maxBlockSize).Ok?
    && var plans := Layout(|o.bytes|, c.symbolSize, c.maxBlockSize).value;
       && |o.mids| == |plans|
       && forall i :: 0 <= i < |plans| ==>
            EncodesBlock(lib(o.id, i, plans[i].k, c.symbolSize), o.bytes, plans[i], c.symbolSize, o.mids[i])
  }

  /** The layout of the object. */
  function PlansOf(c: Config, lib: Library, o: Object): seq<Plan>
    requires Encodes(c, lib, o)
  {
    Layout(|o.bytes|, c.symbolSize, c.maxBlockSize).value
  }

  /** A source or repair symbol of the object. */
  ghost predicate SymbolOf(c: Config, lib: Library, o: Object, s: Symbol)
    requires Encodes(c, lib, o)
  {
    var plans := PlansOf(c, lib, o);
    s.id.objectId == o.id && s.id.sbn < |plans| &&
    var d, k := lib(o.id, s.id.sbn, plans[s.id.sbn].k, c.symbolSize), plans[s.id.sbn].k;
    && EncodesBlock(d, o.bytes, plans[s.id.sbn], c.symbolSize, o.mids[s.id.sbn])
    && EncodedBy(d, o.mids[s.id.sbn], k, c.symbolSize, s)
  }

  ghost predicate ExactLibrary(lib: Library, size: nat) {
    forall objectId, sbn, k :: k > 0 ==> Exact(lib(objectId, sbn, k, size), k, size)
  }

  // ------------------------------------------------------------ one block

  lemma PieceFollows(bytes: seq<byte>, plan: Plan, size: nat, from: nat)
    ensures Piece(bytes, plan, from, 0) + Piece(bytes, plan, size, from) == Piece(bytes, plan, from + size, 0)
  {
  }

  lemma {:induction false} JoinSources(symbols: seq<Symbol>, bytes: seq<byte>, plan: Plan, size: nat)
    requires forall j :: 0 <= j < |symbols| ==> symbols[j].data == SourceSymbol(bytes, plan, size, j)
    ensures Join(symbols) == Piece(bytes, plan, |symbols| * size, 0)
  {
    if symbols != [] {
      var n := |symbols| - 1;
      JoinSources(symbols[..n], bytes, plan, size);
      assert |symbols| * size == n * size + size;
      PieceFollows(bytes, plan, size, n * size);
    }
  }

  lemma PieceStart(bytes: seq<byte>, plan: Plan, total: nat)
    requires plan.End() <= |bytes| && plan.len <= total
    ensures Truncate(Piece(bytes, plan, total, 0), plan.len) == bytes[plan.start..plan.End()]
  {
    var piece, slice := Piece(bytes, plan, total, 0), bytes[plan.start..plan.End()];
    forall p | 0 <= p < plan.len ensures piece[p] == slice[p] {
      assert piece[p] == ByteAt(bytes, plan, 0 + p);
    }
    assert piece[..plan.len] == slice;
  }

  lemma BlockComesBack(symbols: seq<Symbol>, bytes: seq<byte>, plan: Plan, size: nat)
    requires plan.End() <= |bytes| && |symbols| == plan.k && plan.len <= plan.k * size
    requires forall j :: 0 <= j < |symbols| ==> symbols[j].data == SourceSymbol(bytes, plan, size, j)
    ensures Truncate(Join(symbols), plan.len) == bytes[plan.start..plan.End()]
  {
    JoinSources(symbols, bytes, plan, size);
    PieceStart(bytes, plan, plan.k * size);
  }

  lemma EndsInside(plans: seq<Plan>, size: nat, i: nat)
    requires Chained(plans, size) && i < |plans|
    ensures plans[i].End() <= size
    decreases |plans| - i
  {
    if i + 1 < |plans| {
      assert StartsRight(plans, i + 1);
      EndsInside(plans, size, i + 1);
    }
  }

  // ------------------------------------------------------------ every reachable state

  /** The plan is that of one of the object's blocks. */
  predicate OwnPlan(c: Config, lib: Library, o: Object, p: Plan)
    requires Encodes(c, lib, o)
  {
    p.sbn < |PlansOf(c, lib, o)| && PlansOf(c, lib, o)[p.sbn] == p
  }

  lemma OwnPlanFits(c: Config, lib: Library, o: Object, p: Plan)
    requires Encodes(c, lib, o) && OwnPlan(c, lib, o, p)
    ensures p.End() <= |o.bytes| && p.len <= p.k * c.symbolSize
  {
    LayoutTiles(|o.bytes|, c.symbolSize, c.maxBlockSize);
    assert Chained(PlansOf(c, lib, o), |o.bytes|);
    EndsInside(PlansOf(c, lib, o), |o.bytes|, p.sbn);
  }

  /** The plan under which a block was completed, if it was. */
  function UsedPlan(c: Config, lib: Library, events: seq<Event>, sbn: nat): Option<Plan> {
    if events == [] then None
    else
      var init, e := events[..|events| - 1], events[|events| - 1];
      if CompletesNow(c, lib, Run(c, lib, init), e, sbn) then PlanInForce(Run(c, lib, init), sbn)
      else UsedPlan(c, lib, init, sbn)
  }

  predicate CompletesNow(c: Config, lib: Library, s: Pipe, e: Event, sbn: nat) {
    e.Feed? && var answer := AfterFeed(c, lib, s, e.sym, e.ch).1; answer.BlockComplete? && answer.sbn == sbn
  }

  function PlanInForce(s: Pipe, sbn: nat): Option<Plan> { if s.plans.Some? then PlanFor(s.plans.value, sbn) else None }

  lemma PlanIsFound(c: Config, s: Pipe, sbn: nat)
    requires PlansOk(c, s) && s.plans.Some? && sbn < |s.plans.value|
    ensures PlanInForce(s, sbn) == Some(s.plans.value[sbn]) && s.plans.value[sbn].sbn == sbn
  {
    PlansAreChained(c, s);
    PlanForFinds(s.plans.value, sbn, 0);
  }

  /** Block `sbn` was decoded under plan `used`: if that is the object's own, it holds its slice. */
  ghost predicate SliceIfOwn(c: Config, lib: Library, o: Object, s: Pipe, sbn: nat, used: Option<Plan>)
    requires Encodes(c, lib, o)
  {
    && used.Some? && used.value.sbn == sbn && sbn in s.blocks
    && (OwnPlan(c, lib, o, used.value) ==>
          && used.value.End() <= |o.bytes|
          && s.blocks[sbn].decoded == Some(o.bytes[used.value.start..used.value.End()]))
  }

  ghost predicate Faithful(c: Config, lib: Library, o: Object, s: Pipe, events: seq<Event>)
    requires Encodes(c, lib, o)
  {
    && (forall id :: id in s.symbols ==> SymbolOf(c, lib, o, s.symbols[id]))
    && forall sbn :: sbn in s.completed ==> SliceIfOwn(c, lib, o, s, sbn, UsedPlan(c, lib, events, sbn))
  }

  /** Every symbol that is stored is one of the object's; what is refused may be anything. */
  ghost predicate StoresOnly(c: Config, lib: Library, o: Object, events: seq<Event>)
    requires Encodes(c, lib, o)
  {
    events != [] ==>
      var init, e := events[..|events| - 1], events[|events| - 1];
      && StoresOnly(c, lib, o, init)
      && (e.Feed? && Stores(c, Run(c, lib, init), e.sym, e.ch) ==> SymbolOf(c, lib, o, e.sym))
  }

  /** Decoding symbols of one block of the object gives that block's slice. */
  lemma DecodedIsASlice(c: Config, lib: Library, o: Object, symbols: seq<Symbol>, plan: Plan)
    requires Encodes(c, lib, o) && ExactLibrary(lib, c.symbolSize) && OwnPlan(c, lib, o, plan) && plan.k > 0
    requires symbols != [] && forall x :: x in symbols ==> SymbolOf(c, lib, o, x) && x.id.sbn == plan.sbn
    requires RaptorQ.Decoded(plan, symbols, c.symbolSize, lib).Ok?
    ensures plan.End() <= |o.bytes|
    ensures Truncate(Join(RaptorQ.Decoded(plan, symbols, c.symbolSize, lib).value), plan.len)
         == o.bytes[plan.start..plan.End()]
  {
    OwnPlanFits(c, lib, o, plan);
    assert symbols[0] in symbols;
    assert SymbolOf(c, lib, o, symbols[0]) && ObjectOf(symbols) == o.id;
    assert Exact(lib(o.id, plan.sbn, plan.k, c.symbolSize), plan.k, c.symbolSize);
    DecodingInvertsEncoding(plan, symbols, c.symbolSize, lib, o.mids[plan.sbn]);
    BlockComesBack(RaptorQ.Decoded(plan, symbols, c.symbolSize, lib).value, o.bytes, plan, c.symbolSize);
  }

  /** A block completed under the object's own plan holds its part of the object. */
  lemma CompletedBlockIsASlice(c: Config, lib: Library, o: Object, list: Listing, s: Pipe, sbn: nat)
    requires Encodes(c, lib, o) && ExactLibrary(lib, c.symbolSize) && Lists(list) && Inv(c, s)
    requires forall id :: id in s.symbols ==> SymbolOf(c, lib, o, s.symbols[id])
    requires AfterTry(c, lib, list, s, sbn).1.Some? && AfterTry(c, lib, list, s, sbn).1.value.BlockComplete?
    ensures PlanInForce(s, sbn).Some? && PlanInForce(s, sbn).value.sbn == sbn
    ensures var plan := PlanInForce(s, sbn).value;
            OwnPlan(c, lib, o, plan) ==>
              && plan.End() <= |o.bytes|
              && AfterTry(c, lib, list, s, sbn).1.value.data == o.bytes[plan.start..plan.End()]
  {
    CompletionMeans(c, lib, list, s, sbn);
    PlanIsFound(c, s, sbn);
    var plan := s.plans.value[sbn];
    if OwnPlan(c, lib, o, plan) {
      DecodedIsASlice(c, lib, o, list(OfBlock(s.symbols, sbn)), plan);
    }
  }

  /** A feed that completes a block stored the symbol and tried in a state like this. */
  lemma CompletedFrom(c: Config, lib: Library, s: Pipe, sym: Symbol, ch: Chance)
    requires Inv(c, s) && AfterFeed(c, lib, s, sym, ch).1.BlockComplete?
    ensures Stores(c, s, sym, ch)
    ensures var u := BeforeTry(Opened(s, sym), sym);
            && Inv(c, u) && u.plans == s.plans && u.symbols == s.symbols[sym.id := sym]
            && AfterTry(c, lib, ch.list, u, sym.id.sbn).1 == Some(AfterFeed(c, lib, s, sym, ch).1)
  {
    AfterFeedOutcome(c, lib, s, sym, ch);
    TryStartsOk(c, s, sym, ch);
  }

  lemma CompletionIsFaithful(c: Config, lib: Library, o: Object, s: Pipe, sym: Symbol, ch: Chance)
    requires Encodes(c, lib, o) && ExactLibrary(lib, c.symbolSize) && Lists(ch.list) && Inv(c, s)
    requires forall id :: id in s.symbols ==> SymbolOf(c, lib, o, s.symbols[id])
    requires Stores(c, s, sym, ch) ==> SymbolOf(c, lib, o, sym)
    requires AfterFeed(c, lib, s, sym, ch).1.BlockComplete?
    ensures SliceIfOwn(c, lib, o, AfterFeed(c, lib, s, sym, ch).0, sym.id.sbn, PlanInForce(s, sym.id.sbn))
  {
    var (t, answer) := AfterFeed(c, lib, s, sym, ch);
    CompletedFrom(c, lib, s, sym, ch);
    CompletedBlockIsASlice(c, lib, o, ch.list, BeforeTry(Opened(s, sym), sym), sym.id.sbn);
    BytesAreKept(c, lib, s, sym, ch);
  }

  lemma BytesAreKept(c: Config, lib: Library, s: Pipe, sym: Symbol, ch: Chance)
    requires AfterFeed(c, lib, s, sym, ch).1.BlockComplete?
    ensures var (t, answer) := AfterFeed(c, lib, s, sym, ch);
            sym.id.sbn in t.blocks && t.blocks[sym.id.sbn].decoded == Some(answer.data)
  {
    AfterFeedOutcome(c, lib, s, sym, ch);
    var (t, answer) := AfterFeed(c, lib, s, sym, ch);
    OutcomeKeepsPlans(c, s, sym, ch, t, answer);
  }

  lemma FeedKeepsSymbols(c: Config, lib: Library, o: Object, s: Pipe, sym: Symbol, ch: Chance)
    requires Encodes(c, lib, o) && forall id :: id in s.symbols ==> SymbolOf(c, lib, o, s.symbols[id])
    requires Stores(c, s, sym, ch) ==> SymbolOf(c, lib, o, sym)
    ensures var t := AfterFeed(c, lib, s, sym, ch).0;
            forall id :: id in t.symbols ==> SymbolOf(c, lib, o, t.symbols[id])
  {
    var (t, answer) := AfterFeed(c, lib, s, sym, ch);
    AfterFeedOutcome(c, lib, s, sym, ch);
    OutcomeKeepsPlans(c, s, sym, ch, t, answer);
  }

  /** A block completed earlier stays as it is, and so does the plan it was completed under. */
  lemma EarlierBlocksStay(c: Config, lib: Library, o: Object, events: seq<Event>, sbn: nat)
    requires Encodes(c, lib, o) && events != [] && AllPossible(events)
    requires var init := events[..|events| - 1];
             && Inv(c, Run(c, lib, init)) && sbn in Run(c, lib, init).completed
             && SliceIfOwn(c, lib, o, Run(c, lib, init), sbn, UsedPlan(c, lib, init, sbn))
    ensures SliceIfOwn(c, lib, o, Run(c, lib, events), sbn, UsedPlan(c, lib, events, sbn))
  {
    var s, e := Run(c, lib, events[..|events| - 1]), events[|events| - 1];
    StepKeeps(c, lib, s, e);
    if e.Feed? {
      AfterFeedOutcome(c, lib, s, e.sym, e.ch);
    }
  }

  lemma {:induction false} EveryRunIsFaithful(c: Config, lib: Library, o: Object, events: seq<Event>)
    requires Encodes(c, lib, o) && ExactLibrary(lib, c.symbolSize)
    requires AllPossible(events) && StoresOnly(c, lib, o, events)
    ensures Faithful(c, lib, o, Run(c, lib, events), events)
  {
    if events != [] {
      var init, e := events[..|events| - 1], events[|events| - 1];
      var s, t := Run(c, lib, init), Run(c, lib, events);
      EveryRunIsFaithful(c, lib, o, init);
      EveryRunKeeps(c, lib, init);
      assert Possible(e);
      if e.Feed? {
        FeedKeepsSymbols(c, lib, o, s, e.sym, e.ch);
        AfterFeedOutcome(c, lib, s, e.sym, e.ch);
        OutcomeKeepsPlans(c, s, e.sym, e.ch, t, AfterFeed(c, lib, s, e.sym, e.ch).1);
      }
      forall sbn | sbn in t.completed ensures SliceIfOwn(c, lib, o, t, sbn, UsedPlan(c, lib, events, sbn)) {
        if sbn in s.completed {
          EarlierBlocksStay(c, lib, o, events, sbn);
        } else {
          CompletionIsFaithful(c, lib, o, s, e.sym, e.ch);
        }
      }
    }
  }

  // ------------------------------------------------------------ the round trip

  lemma GatherOneMore(blocks: map<nat, Block>, plans: seq<Plan>, n: nat, before: seq<byte>, data: seq<byte>)
    requires 0 < n <= |plans| && Gather(blocks, plans[..n - 1]) == Ok(before)
    requires plans[n - 1].sbn in blocks && blocks[plans[n - 1].sbn].decoded == Some(data)
    ensures Gather(blocks, plans[..n]) == Ok(before + data)
  {
    assert plans[..n][..n - 1] == plans[..n - 1];
  }

  lemma PrefixGrows(bytes: seq<byte>, from: nat, to: nat)
    requires from <= to <= |bytes|
    ensures bytes[..from] + bytes[from..to] == bytes[..to]
  {
  }

  /** Every planned block holds its slice of the object. */
  predicate Slices(o: Object, blocks: map<nat, Block>, plans: seq<Plan>) {
    forall i :: 0 <= i < |plans| ==>
      && plans[i].End() <= |o.bytes| && i in blocks
      && blocks[i].decoded == Some(o.bytes[plans[i].start..plans[i].End()])
  }

  lemma {:induction false} GatherSlices(o: Object, blocks: map<nat, Block>, plans: seq<Plan>, n: nat)
    requires Chained(plans, |o.bytes|) && Slices(o, blocks, plans) && n <= |plans|
    ensures StartAt(plans, n) <= |o.bytes| && Gather(blocks, plans[..n]) == Ok(o.bytes[..StartAt(plans, n)])
  {
    if n > 0 {
      var plan := plans[n - 1];
      assert StartsRight(plans, n - 1);
      GatherSlices(o, blocks, plans, n - 1);
      PrefixGrows(o.bytes, plan.start, plan.End());
      GatherOneMore(blocks, plans, n, o.bytes[..plan.start], o.bytes[plan.start..plan.End()]);
    }
  }

  lemma AllGathered(o: Object, blocks: map<nat, Block>, plans: seq<Plan>)
    requires Chained(plans, |o.bytes|) && Slices(o, blocks, plans)
    ensures Gather(blocks, plans) == Ok(o.bytes)
  {
    GatherSlices(o, blocks, plans, |plans|);
    assert plans[..|plans|] == plans && o.bytes[..|o.bytes|] == o.bytes;
  }

  lemma SlicesGiveTheObject(c: Config, o: Object, s: Pipe)
    requires s.plans.Some? && Chained(s.plans.value, |o.bytes|) && Slices(o, s.blocks, s.plans.value)
    requires IsComplete(s) && s.objectSize == Some(|o.bytes|)
    ensures IntoData(c, s) == Ok(o.bytes)
  {
    AllGathered(o, s.blocks, s.plans.value);
  }

  lemma OwnSlices(c: Config, lib: Library, o: Object, events: seq<Event>)
    requires Encodes(c, lib, o) && Faithful(c, lib, o, Run(c, lib, events), events)
    requires Run(c, lib, events).plans == Some(PlansOf(c, lib, o)) && Chained(PlansOf(c, lib, o), |o.bytes|)
    requires forall i :: 0 <= i < |PlansOf(c, lib, o)| ==>
               i in Run(c, lib, events).completed && UsedPlan(c, lib, events, i) == Some(PlansOf(c, lib, o)[i])
    ensures Slices(o, Run(c, lib, events).blocks, PlansOf(c, lib, o))
  {
    var s, plans := Run(c, lib, events), PlansOf(c, lib, o);
    forall i | 0 <= i < |plans|
      ensures plans[i].End() <= |o.bytes| && i in s.blocks
      ensures s.blocks[i].decoded == Some(o.bytes[plans[i].start..plans[i].End()])
    {
      assert SliceIfOwn(c, lib, o, s, i, UsedPlan(c, lib, events, i));
    }
  }

  /**
   * Layouts may come and go, and anything may be refused: if the layout in the end is the
   * object's and each of its blocks was decoded under the plan it has now, then `into_data`
   * returns exactly the object.
   */
  lemma BlocksUnderTheirPlans(c: Config, lib: Library, o: Object, events: seq<Event>)
    requires Encodes(c, lib, o) && ExactLibrary(lib, c.symbolSize)
    requires AllPossible(events) && StoresOnly(c, lib, o, events)
    requires var s := Run(c, lib, events);
             && s.objectSize == Some(|o.bytes|) && IsComplete(s)
             && forall i :: 0 <= i < |s.plans.value| ==>
                  i in s.completed && UsedPlan(c, lib, events, i) == Some(s.plans.value[i])
    ensures IntoData(c, Run(c, lib, events)) == Ok(o.bytes)
  {
    var s := Run(c, lib, events);
    EveryRunIsFaithful(c, lib, o, events);
    EveryRunKeeps(c, lib, events);
    PlansAreChained(c, s);
    OwnSlices(c, lib, o, events);
    SlicesGiveTheObject(c, o, s);
  }

  /** With one size, every completed block was decoded under the plan it has now. */
  lemma {:induction false} PlansNeverChange(c: Config, lib: Library, events: seq<Event>, size: nat)
    requires AllPossible(events) && FixedLayout(c, lib, events, size)
    ensures var s := Run(c, lib, events);
            && (s.objectSize.Some? ==> s.objectSize.value == size)
            && forall i :: i in s.completed ==>
                 s.plans.Some? && i < |s.plans.value| && UsedPlan(c, lib, events, i) == Some(s.plans.value[i])
  {
    if events != [] {
      var init, e := events[..|events| - 1], events[|events| - 1];
      PlansNeverChange(c, lib, init, size);
      EveryRunKeeps(c, lib, init);
      EveryRunKeeps(c, lib, events);
      assert Possible(e);
      if e.Feed? {
        CompletionUsesThePlan(c, lib, Run(c, lib, init), e.sym, e.ch);
      }
    }
  }

  lemma CompletedIsPlanned(c: Config, lib: Library, s: Pipe, sym: Symbol, ch: Chance)
    requires Inv(c, s) && Lists(ch.list) && AfterFeed(c, lib, s, sym, ch).1.BlockComplete?
    ensures sym.id.sbn !in s.completed
    ensures s.plans.Some? && sym.id.sbn < |s.plans.value|
    ensures PlanInForce(s, sym.id.sbn) == Some(s.plans.value[sym.id.sbn])
  {
    CompletedFrom(c, lib, s, sym, ch);
    CompletionMeans(c, lib, ch.list, BeforeTry(Opened(s, sym), sym), sym.id.sbn);
    PlanIsFound(c, s, sym.id.sbn);
  }

  /** A feed keeps the layout, and completes at most the symbol's block, under its plan. */
  lemma CompletionUsesThePlan(c: Config, lib: Library, s: Pipe, sym: Symbol, ch: Chance)
    requires Inv(c, s) && Lists(ch.list)
    ensures var (t, answer), sbn := AfterFeed(c, lib, s, sym, ch), sym.id.sbn;
            && t.plans == s.plans && t.objectSize == s.objectSize
            && (if answer.BlockComplete?
                then && answer.sbn == sbn && sbn !in s.completed && t.completed == s.completed + {sbn}
                     && s.plans.Some? && sbn < |s.plans.value| && PlanInForce(s, sbn) == Some(s.plans.value[sbn])
                else t.completed == s.completed)
  {
    var (t, answer) := AfterFeed(c, lib, s, sym, ch);
    AfterFeedOutcome(c, lib, s, sym, ch);
    OutcomeKeepsPlans(c, s, sym, ch, t, answer);
    if answer.BlockComplete? {
      CompletedIsPlanned(c, lib, s, sym, ch);
    }
  }

  /**
   * For every encoding of every object, and every run in which only its symbols are stored
   * and only its size takes effect, in any order, selection, repetition and mix of source
   * and repair: whenever the pipeline reports completion, `into_data` returns exactly the
   * object.
   */
  lemma CompleteGivesTheObjectBack(c: Config, lib: Library, o: Object, events: seq<Event>)
    requires Encodes(c, lib, o) && ExactLibrary(lib, c.symbolSize) && AllPossible(events)
    requires StoresOnly(c, lib, o, events) && FixedLayout(c, lib, events, |o.bytes|)
    requires IsComplete(Run(c, lib, events))
    ensures IntoData(c, Run(c, lib, events)) == Ok(o.bytes)
  {
    var s := Run(c, lib, events);
    EveryRunKeeps(c, lib, events);
    PlansNeverChange(c, lib, events, |o.bytes|);
    FullCountMeansAll(s.completed, |s.plans.value|);
    BelowIsBelow(|s.plans.value|);
    forall i | 0 <= i < |s.plans.value| ensures i in s.completed { assert i in Below(|s.plans.value|); }
    BlocksUnderTheirPlans(c, lib, o, events);
  }

  // ------------------------------------------------------------ without a fixed layout

  lemma {:induction false} GatherExactly(s: Pipe, n: nat)
    requires BlocksOk(s) && s.plans.Some? && n <= |s.plans.value|
    requires forall i :: 0 <= i < |s.plans.value| ==> s.plans.value[i].sbn == i
    ensures Gather(s.blocks, s.plans.value[..n]).Ok? <==> forall i :: 0 <= i < n ==> i in s.completed
  {
    if n > 0 {
      GatherExactly(s, n - 1);
      assert s.plans.value[..n][..n - 1] == s.plans.value[..n - 1];
    }
  }

  /** A set with `n` members that has all numbers below `n` has no others. */
  lemma AllAndCountIsBelow(xs: set<nat>, n: nat)
    ensures xs == Below(n) <==> |xs| == n && forall i :: 0 <= i < n ==> i in xs
  {
    BelowIsBelow(n);
    if |xs| == n && forall i :: 0 <= i < n ==> i in xs {
      assert xs == Below(n) + (xs - Below(n));
      assert |xs| == |Below(n)| + |xs - Below(n)|;
    }
  }

  /**
   * When layouts may change, completion is only a count.  This is exactly when `into_data`
   * gives an answer at all in a reachable state: a layout is set, and the completed blocks
   * are the planned ones.
   */
  lemma IntoDataSucceedsExactly(c: Config, lib: Library, events: seq<Event>)
    requires AllPossible(events)
    ensures var s := Run(c, lib, events);
            IntoData(c, s).Ok? <==> s.plans.Some? && s.completed == Below(|s.plans.value|)
  {
    var s := Run(c, lib, events);
    EveryRunKeeps(c, lib, events);
    if s.plans.Some? {
      PlansAreChained(c, s);
      GatherExactly(s, |s.plans.value|);
      assert s.plans.value[..|s.plans.value|] == s.plans.value;
      AllAndCountIsBelow(s.completed, |s.plans.value|);
    }
  }

  /** The bytes held by the planned blocks. */
  function HeldBytes(blocks: map<nat, Block>, plans: seq<Plan>): nat {
    if plans == [] then 0
    else
      var sbn := plans[|plans| - 1].sbn;
      HeldBytes(blocks, plans[..|plans| - 1])
      + if sbn in blocks && blocks[sbn].decoded.Some? then |blocks[sbn].decoded.value| else 0
  }

  lemma {:induction false} GatherLength(blocks: map<nat, Block>, plans: seq<Plan>)
    requires Gather(blocks, plans).Ok?
    ensures |Gather(blocks, plans).value| == HeldBytes(blocks, plans)
  {
    if plans != [] {
      GatherLength(blocks, plans[..|plans| - 1]);
    }
  }

  lemma LengthOfAnswer(c: Config, s: Pipe)
    requires IntoData(c, s).Ok?
    ensures s.plans.Some? && |IntoData(c, s).value|
         == if s.objectSize.Some? then Min(s.objectSize.value, HeldBytes(s.blocks, s.plans.value))
            else HeldBytes(s.blocks, s.plans.value)
  {
    GatherLength(s.blocks, s.plans.value);
  }

  /**
   * And this is exactly when the answer has the declared size: the completed blocks are the
   * planned ones, and hold enough bytes between them.  A block completed under a smaller
   * layout still counts, so the answer can come up short.
   */
  lemma WholeObjectExactly(c: Config, lib: Library, events: seq<Event>)
    requires AllPossible(events)
    ensures var s := Run(c, lib, events);
            IntoData(c, s).Ok? && s.objectSize == Some(|IntoData(c, s).value|) <==>
              && s.plans.Some? && s.objectSize.Some? && s.completed == Below(|s.plans.value|)
              && s.objectSize.value <= HeldBytes(s.blocks, s.plans.value)
  {
    var s := Run(c, lib, events);
    EveryRunKeeps(c, lib, events);
    IntoDataSucceedsExactly(c, lib, events);
    if IntoData(c, s).Ok? {
      LengthOfAnswer(c, s);
    }
  }

  /** One-byte blocks with a code that has no redundancy and no padding. */
  const TINY := Config(1, 1, Finite(1.0), 0, 0, false)

  function CopyOut(k: nat, eqs: seq<Equation>): Result<seq<seq<byte>>, SolveError> {
    if k == 1 && |eqs| == 1 && eqs[0] == Identity(0, eqs[0].data) && |eqs[0].data| == 1 then Ok([eqs[0].data])
    else Err(SingularMatrix)
  }

  function Tiny(k: nat): Decoder { Decoder(k, k, [], esi => ([esi], [1]), eqs => CopyOut(k, eqs)) }

  lemma TinyIsExact(k: nat)
    ensures Exact(Tiny(k), k, 1)
  {
    var d := Tiny(k);
    forall eqs: seq<Equation>, mid: seq<seq<byte>> | d.solve(eqs).Ok? && Shaped(mid, d.l, 1)
      ensures AllHold(eqs, mid, 1) <==> mid == d.solve(eqs).value
    {
      IdentityHolds(0, eqs[0].data, mid, 1);
      assert AllHold(eqs, mid, 1) <==> Holds(eqs[0], mid, 1);
      assert mid == [mid[0]];
    }
    assert forall eqs :: d.solve(eqs).Ok? ==> Shaped(d.solve(eqs).value, d.l, 1);
  }

  lemma TinyLibraryIsExact(lib: Library)
    requires lib == ((objectId, sbn, k, size) => Tiny(k))
    ensures ExactLibrary(lib, 1)
  {
    forall k ensures Exact(Tiny(k), k, 1) { TinyIsExact(k); }
  }

  function OneByteBlocks(n: nat): ObjectParams { ObjectParams(7, n, 1, n, 1) }

  function Declared(n: nat): seq<Plan> { seq(n, i requires 0 <= i < n => Plan(i, i, 1, 1)) }

  lemma TinyLayout(n: nat)
    requires 0 < n <= 256
    ensures Layout(n, 1, 1) == Ok(Declared(n)) && ValidateLayout(OneByteBlocks(n), Declared(n)).None?
  {
    assert Layout(n, 1, 1) == Ok(Blocks(n, 1, 1));
    assert Blocks(n, 1, 1) == Declared(n);
    ValidLayoutExactly(OneByteBlocks(n), 1);
  }

  ghost function ListOf(m: Buffer): seq<Symbol> {
    if m == map[] then []
    else
      var id :| id in m;
      [m[id]] + ListOf(m - {id})
  }

  lemma {:induction false} ListOfLists(m: Buffer)
    requires forall id :: id in m ==> m[id].id == id
    ensures |ListOf(m)| == |m| && forall s :: s in ListOf(m) <==> s.id in m && m[s.id] == s
  {
    if m != map[] {
      var id :| id in m && ListOf(m) == [m[id]] + ListOf(m - {id});
      ListOfLists(m - {id});
      assert |m.Keys| == |(m - {id}).Keys| + 1 by { assert (m - {id}).Keys == m.Keys - {id}; }
    }
  }

  ghost function AnyListing(): (list: Listing)
    ensures Lists(list)
  {
    var list: Listing := m => ListOf(m);
    assert Lists(list) by {
      forall m: Buffer ensures Listed(list, m) {
        if forall id :: id in m ==> m[id].id == id { ListOfLists(m); }
      }
    }
    list
  }

  const SECOND := Symbol(SymbolId(7, 1, 0), [9], Source)

  /** Two blocks are declared, the second arrives, then one block is declared. */
  ghost function ShrinkingRun(): seq<Event> {
    [SetParams(OneByteBlocks(2)), Feed(SECOND, Chance(true, true, AnyListing())), SetParams(OneByteBlocks(1))]
  }

  lemma TwoBlocksDeclared(lib: Library)
    ensures Step(TINY, lib, EMPTY, SetParams(OneByteBlocks(2)))
         == Configure(EMPTY.(objectId := Some(7), objectSize := Some(2), plans := Some(Declared(2))))
  {
    TinyLayout(2);
    assert AfterParams(TINY, EMPTY, OneByteBlocks(2)).Ok?;
  }

  lemma OneBlockDeclared(lib: Library, s: Pipe)
    requires s.objectId == Some(7) && s.completed == {1}
    ensures var t := Step(TINY, lib, s, SetParams(OneByteBlocks(1)));
            t.completed == {1} && t.plans == Some(Declared(1))
  {
    TinyLayout(1);
    assert AfterParams(TINY, s, OneByteBlocks(1)).Ok?;
  }

  lemma SecondBlockCompletes(lib: Library, list: Listing, s: Pipe)
    requires lib == ((objectId, sbn, k, size) => Tiny(k)) && Lists(list)
    requires s == Configure(EMPTY.(objectId := Some(7), objectSize := Some(2), plans := Some(Declared(2))))
    ensures AfterFeed(TINY, lib, s, SECOND, Chance(true, true, list)).0.completed == {1}
    ensures AfterFeed(TINY, lib, s, SECOND, Chance(true, true, list)).0.objectId == Some(7)
  {
    var u := BeforeTry(Opened(s, SECOND), SECOND);
    assert u.symbols == map[SECOND.id := SECOND] == OfBlock(u.symbols, 1);
    assert Listed(list, u.symbols);
    var symbols := list(u.symbols);
    assert |symbols| == 1 && symbols[0] in symbols;
    assert symbols == [SECOND];
    PlanForFinds(Declared(2), 1, 0);
    var eqs := System(Tiny(1), symbols, 1, 1);
    assert eqs == [Identity(0, [9])];
  }

  /** Blocks of two bytes, with the same code. */
  const WIDE := TINY.(maxBlockSize := 2)

  const FIRST := Symbol(SymbolId(7, 0, 0), [9], Source)

  function OneBlock(n: nat): ObjectParams { ObjectParams(7, n, 1, 1, n) }

  lemma WideLayout(n: nat)
    requires n == 1 || n == 2
    ensures Layout(n, 1, 2) == Ok([Plan(0, 0, n, n)]) && ValidateLayout(OneBlock(n), [Plan(0, 0, n, n)]).None?
  {
    assert Layout(n, 1, 2) == Ok(Blocks(n, 1, 2));
    assert Blocks(n, 1, 2) == [Plan(0, 0, n, n)];
    ValidLayoutExactly(OneBlock(n), 2);
  }

  /** One byte is declared and arrives; then two bytes are declared. */
  ghost function GrowingRun(): seq<Event> {
    [SetParams(OneBlock(1)), Feed(FIRST, Chance(true, true, AnyListing())), SetParams(OneBlock(2))]
  }

  lemma OneByteDeclared(lib: Library)
    ensures Step(WIDE, lib, EMPTY, SetParams(OneBlock(1)))
         == Configure(EMPTY.(objectId := Some(7), objectSize := Some(1), plans := Some([Plan(0, 0, 1, 1)])))
  {
    WideLayout(1);
    assert AfterParams(WIDE, EMPTY, OneBlock(1)).Ok?;
  }

  lemma FirstIsDecoded(lib: Library)
    requires lib == ((objectId, sbn, k, size) => Tiny(k))
    ensures RaptorQ.Decoded(Plan(0, 0, 1, 1), [FIRST], 1, lib) == Ok([FIRST]) && Join([FIRST]) == [9]
  {
    assert System(Tiny(1), [FIRST], 1, 1) == [Identity(0, [9])];
    assert Label(7, 0, [[9]], 1) == [FIRST];
    assert [FIRST][..0] == [] && Join([FIRST]) == [] + [9];
  }

  lemma FirstIsTried(lib: Library, list: Listing, u: Pipe)
    requires lib == ((objectId, sbn, k, size) => Tiny(k)) && Lists(list)
    requires u.symbols == map[FIRST.id := FIRST] && u.plans == Some([Plan(0, 0, 1, 1)])
    ensures AfterTry(WIDE, lib, list, u, 0) == (Complete(u, 0, [9]), Some(BlockComplete(0, [9])))
  {
    assert OfBlock(u.symbols, 0) == u.symbols;
    assert Listed(list, u.symbols);
    var symbols := list(u.symbols);
    assert |symbols| == 1 && symbols[0] in symbols;
    assert symbols == [FIRST];
    PlanForFinds([Plan(0, 0, 1, 1)], 0, 0);
    FirstIsDecoded(lib);
  }

  lemma FirstBlockCompletes(lib: Library, list: Listing, s: Pipe)
    requires lib == ((objectId, sbn, k, size) => Tiny(k)) && Lists(list)
    requires s == Configure(EMPTY.(objectId := Some(7), objectSize := Some(1), plans := Some([Plan(0, 0, 1, 1)])))
    ensures var t := AfterFeed(WIDE, lib, s, FIRST, Chance(true, true, list)).0;
            && t.completed == {0} && t.objectId == Some(7)
            && t.blocks == map[0 := Block(BlockState.Decoded, Some([9]))]
  {
    var u := BeforeTry(Opened(s, FIRST), FIRST);
    assert u.symbols == map[FIRST.id := FIRST];
    FirstIsTried(lib, list, u);
  }

  lemma TwoBytesDeclared(lib: Library, s: Pipe)
    requires s.objectId == Some(7)
    ensures var t := Step(WIDE, lib, s, SetParams(OneBlock(2)));
            && t.completed == s.completed && t.blocks == s.blocks
            && t.objectSize == Some(2) && t.plans == Some([Plan(0, 0, 2, 2)])
  {
    WideLayout(2);
    assert AfterParams(WIDE, s, OneBlock(2)).Ok?;
  }

  /** So a growing layout can make `into_data` return fewer bytes than were declared. */
  lemma AnswerCanComeUpShort(lib: Library)
    requires lib == ((objectId, sbn, k, size) => Tiny(k))
    ensures ExactLibrary(lib, WIDE.symbolSize) && AllPossible(GrowingRun())
    ensures var s := Run(WIDE, lib, GrowingRun());
            IsComplete(s) && s.completed == Below(1) && s.objectSize == Some(2) && IntoData(WIDE, s) == Ok([9])
  {
    TinyLibraryIsExact(lib);
    RunOfThree(WIDE, lib, GrowingRun());
    var s := Step(WIDE, lib, EMPTY, SetParams(OneBlock(1)));
    OneByteDeclared(lib);
    FirstBlockCompletes(lib, GrowingRun()[1].ch.list, s);
    TwoBytesDeclared(lib, Step(WIDE, lib, s, GrowingRun()[1]));
    ShortAnswer(Run(WIDE, lib, GrowingRun()));
  }

  lemma RunOfThree(c: Config, lib: Library, events: seq<Event>)
    requires |events| == 3
    ensures Run(c, lib, events) == Step(c, lib, Step(c, lib, Step(c, lib, EMPTY, events[0]), events[1]), events[2])
  {
    assert events[..2][..1] == events[..1] && events[..1][..0] == [];
    assert Run(c, lib, []) == EMPTY && Run(c, lib, events[..1]) == Step(c, lib, EMPTY, events[0]);
    assert Run(c, lib, events[..2]) == Step(c, lib, Run(c, lib, events[..1]), events[1]);
  }

  lemma ShortAnswer(s: Pipe)
    requires s.completed == {0} && s.blocks == map[0 := Block(BlockState.Decoded, Some([9]))]
    requires s.objectSize == Some(2) && s.plans == Some([Plan(0, 0, 2, 2)])
    ensures IsComplete(s) && s.completed == Below(1) && IntoData(WIDE, s) == Ok([9])
  {
    BelowIsBelow(1);
    assert s.plans.value[..0] == [];
    var nine: seq<byte> := [9];
    assert Gather(s.blocks, []) == Ok([]) && [] + nine == nine;
    assert Gather(s.blocks, s.plans.value) == Ok(nine) && Truncate(nine, 2) == nine;
  }

  /**
   * So a changing layout can make a pipeline report completion and yet fail to give the
   * object: the condition above cannot be weakened to `is_complete`.
   */
  lemma CompletionIsOnlyACount(lib: Library)
    requires lib == ((objectId, sbn, k, size) => Tiny(k))
    ensures ExactLibrary(lib, TINY.symbolSize) && AllPossible(ShrinkingRun())
    ensures IsComplete(Run(TINY, lib, ShrinkingRun())) && IntoData(TINY, Run(TINY, lib, ShrinkingRun())).Err?
  {
    TinyLibraryIsExact(lib);
    RunOfThree(TINY, lib, ShrinkingRun());
    var s := Step(TINY, lib, EMPTY, SetParams(OneByteBlocks(2)));
    TwoBlocksDeclared(lib);
    SecondBlockCompletes(lib, ShrinkingRun()[1].ch.list, s);
    OneBlockDeclared(lib, Step(TINY, lib, s, ShrinkingRun()[1]));
    IntoDataSucceedsExactly(TINY, lib, ShrinkingRun());
    BelowIsBelow(1);
  }
}
