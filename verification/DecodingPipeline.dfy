/**
 * The RaptorQ decoding pipeline (patches/asupersync/src/decoding.rs:220-578): symbols
 * arrive in any order, blocks are decoded as they become decodable, and the object is
 * reassembled.
 *
 * Every operation is a function on the value `Pipe` and a method of the class
 * `Pipeline` proved equal to it.  Three things the code does not determine are
 * arguments of `Feed`: whether authentication succeeds, whether the symbol set reports
 * its threshold as reached, and the order in which the set's hash map is listed.
 */
module DecodingPipeline {
  import opened Prelude
  import opened BlockLayout
  import opened RaptorQ

  datatype Config = Config(
    symbolSize: nat, maxBlockSize: nat, overhead: F64, minOverhead: nat, maxBuffered: nat, verifyAuth: bool)

  datatype BlockState = Collecting | Decoding | Decoded | Failed

  datatype Block = Block(state: BlockState, decoded: Option<seq<byte>>)

  datatype RejectReason =
    | WrongObjectId | AuthenticationFailed | SymbolSizeMismatch | BlockAlreadyDecoded
    | InsufficientRank | InconsistentEquations | InvalidMetadata | MemoryLimitReached

  datatype Answer =
    | Accepted(received: nat, needed: nat)
    | BlockComplete(sbn: nat, data: seq<byte>)
    | Duplicate
    | Rejected(reason: RejectReason)

  type Buffer = map<SymbolId, Symbol>

  /** `blockK` holds the K values given to the symbol set by `set_block_k`. */
  datatype Pipe = Pipe(
    symbols: Buffer, accepted: nat, blocks: map<nat, Block>, completed: set<nat>,
    objectId: Option<nat>, objectSize: Option<nat>, plans: Option<seq<Plan>>, blockK: map<nat, nat>)

  const EMPTY := Pipe(map[], 0, map[], {}, None, None, None, map[])

  /** The listing order of a hash map. */
  type Listing = Buffer -> seq<Symbol>

  /** A listing gives every buffered symbol once. */
  ghost predicate Lists(list: Listing) {
    forall m: Buffer :: Listed(list, m)
  }

  ghost predicate Listed(list: Listing, m: Buffer) {
    (forall id :: id in m ==> m[id].id == id) ==>
      |list(m)| == |m| && forall s :: s in list(m) <==> s.id in m && m[s.id] == s
  }

  /** What one call of `feed` cannot determine by itself. */
  datatype Chance = Chance(authentic: bool, threshold: bool, list: Listing)

  // ------------------------------------------------------------ operations on values

  function OfBlock(symbols: Buffer, sbn: nat): Buffer { map id | id in symbols && id.sbn == sbn :: symbols[id] }

  function NotOfBlock(symbols: Buffer, sbn: nat): Buffer { map id | id in symbols && id.sbn != sbn :: symbols[id] }

  function ConfiguredK(blockK: map<nat, nat>, plans: seq<Plan>): map<nat, nat> {
    if plans == [] then blockK
    else
      var last := plans[|plans| - 1];
      ConfiguredK(blockK, plans[..|plans| - 1])[last.sbn := Min(last.k, U16_MAX)]
  }

  function Configure(s: Pipe): Pipe {
    if s.plans.None? then s else s.(blockK := ConfiguredK(s.blockK, s.plans.value))
  }

  /** `set_object_params`: the error, or the new state. */
  function AfterParams(c: Config, s: Pipe, params: ObjectParams): Result<Pipe, DecodingError> {
    if params.symbolSize != c.symbolSize then Err(DecodingError.SymbolSizeMismatch(c.symbolSize, params.symbolSize))
    else if s.objectId.Some? && s.objectId.value != params.objectId then Err(InconsistentMetadata(0))
    else
      match Layout(params.objectSize, params.symbolSize, c.maxBlockSize)
      case Err(e) => Err(e)
      case Ok(plans) =>
        var invalid := ValidateLayout(params, plans);
        if invalid.Some? then Err(invalid.value)
        else Ok(Configure(s.(objectId := Some(params.objectId), objectSize := Some(params.objectSize),
                             plans := Some(plans))))
  }

  /** The first plan with this block number. */
  function PlanFor(plans: seq<Plan>, sbn: nat): Option<Plan> {
    if plans == [] then None
    else if plans[0].sbn == sbn then Some(plans[0])
    else PlanFor(plans[1..], sbn)
  }

  function Join(symbols: seq<Symbol>): seq<byte> {
    if symbols == [] then [] else Join(symbols[..|symbols| - 1]) + symbols[|symbols| - 1].data
  }

  function Truncate(data: seq<byte>, n: nat): seq<byte> { if |data| <= n then data else data[..n] }

  function Mark(s: Pipe, sbn: nat, state: BlockState): Pipe {
    if sbn in s.blocks then s.(blocks := s.blocks[sbn := s.blocks[sbn].(state := state)]) else s
  }

  /** The block is decoded: keep its bytes, forget its symbols. */
  function Complete(s: Pipe, sbn: nat, data: seq<byte>): Pipe {
    s.(blocks := if sbn in s.blocks then s.blocks[sbn := Block(Decoded, Some(data))] else s.blocks,
       completed := s.completed + {sbn},
       symbols := NotOfBlock(s.symbols, sbn))
  }

  /** `try_decode_block`. */
  function AfterTry(c: Config, lib: Library, list: Listing, s: Pipe, sbn: nat): (Pipe, Option<Answer>) {
    var plan := if s.plans.Some? then PlanFor(s.plans.value, sbn) else None;
    if plan.None? || plan.value.k == 0 then (s, None)
    else
      var symbols := list(OfBlock(s.symbols, sbn));
      if |symbols| < plan.value.k then (s, None)
      else
        match RaptorQ.Decoded(plan.value, symbols, c.symbolSize, lib)
        case Ok(decoded) =>
          var data := Truncate(Join(decoded), plan.value.len);
          (Complete(s, sbn, data), Some(BlockComplete(sbn, data)))
        case Err(InsufficientSymbols(_, _)) => (s, Some(Rejected(InsufficientRank)))
        case Err(MatrixInversionFailed) => (s, Some(Rejected(InconsistentEquations)))
        case Err(InconsistentMetadata(_)) => (Mark(s, sbn, Failed), Some(Rejected(InvalidMetadata)))
        case Err(SymbolSizeMismatch(_, _)) => (Mark(s, sbn, Failed), Some(Rejected(RejectReason.SymbolSizeMismatch)))
  }

  /** The symbol identity checks of `feed`; None means the symbol goes on to the symbol set. */
  function Refusal(c: Config, s: Pipe, sym: Symbol, authentic: bool): Option<RejectReason> {
    if c.verifyAuth && !authentic then Some(AuthenticationFailed)
    else if |sym.data| != c.symbolSize then Some(RejectReason.SymbolSizeMismatch)
    else if s.objectId.Some? && s.objectId.value != sym.id.objectId then Some(WrongObjectId)
    else None
  }

  /** The object id is latched and the block entry exists. */
  function Opened(s: Pipe, sym: Symbol): Pipe {
    s.(objectId := Some(sym.id.objectId),
       blocks := if sym.id.sbn in s.blocks then s.blocks else s.blocks[sym.id.sbn := Block(Collecting, None)])
  }

  function Inserted(s: Pipe, sym: Symbol): Pipe {
    var t := s.(symbols := s.symbols[sym.id := sym], accepted := SatAdd(s.accepted, 1));
    if sym.id.sbn in s.blockK then t else Configure(t)
  }

  /** Back to Collecting unless the block is Decoded or Failed. */
  function Settled(s: Pipe, sbn: nat): Pipe {
    if sbn in s.blocks && (s.blocks[sbn].state == Decoded || s.blocks[sbn].state == Failed) then s
    else Mark(s, sbn, Collecting)
  }

  /** The rest of `feed` once the symbol is in the set. */
  function AfterInsert(c: Config, lib: Library, s: Pipe, sym: Symbol, ch: Chance): (Pipe, Answer) {
    var sbn := sym.id.sbn;
    var t := Inserted(s, sym);
    var needed := if sbn in s.blockK then RequiredSymbols(s.blockK[sbn], c.overhead, c.minOverhead) else 0;
    var (u, answer) := if ch.threshold then AfterTry(c, lib, ch.list, Mark(t, sbn, Decoding), sbn) else (t, None);
    if answer.Some? then (u, answer.value)
    else (Settled(u, sbn), Accepted(|OfBlock(t.symbols, sbn)|, needed))
  }

  /** `feed`. */
  function AfterFeed(c: Config, lib: Library, s: Pipe, sym: Symbol, ch: Chance): (Pipe, Answer) {
    var sbn := sym.id.sbn;
    var refusal := Refusal(c, s, sym, ch.authentic);
    if refusal.Some? then (s, Rejected(refusal.value))
    else if sbn in s.completed then (s.(objectId := Some(sym.id.objectId)), Rejected(BlockAlreadyDecoded))
    else
      var t := Opened(s, sym);
      if sym.id in t.symbols then (t, Duplicate)
      else if c.maxBuffered != 0 && |OfBlock(t.symbols, sbn)| >= c.maxBuffered then (t, Rejected(MemoryLimitReached))
      else AfterInsert(c, lib, t, sym, ch)
  }

  predicate IsComplete(s: Pipe) { s.plans.Some? && |s.completed| == |s.plans.value| }

  /** The bytes of the planned blocks in order; the block number of the first that is missing. */
  function Gather(blocks: map<nat, Block>, plans: seq<Plan>): Result<seq<byte>, nat> {
    if plans == [] then Ok([])
    else
      var before, sbn := Gather(blocks, plans[..|plans| - 1]), plans[|plans| - 1].sbn;
      if before.Err? then before
      else if sbn in blocks && blocks[sbn].decoded.Some? then Ok(before.value + blocks[sbn].decoded.value)
      else Err(sbn)
  }

  /** `into_data`. */
  function IntoData(c: Config, s: Pipe): Result<seq<byte>, DecodingError> {
    if s.plans.None? then Err(InconsistentMetadata(0))
    else if !IsComplete(s) then
      Err(InsufficientSymbols(s.accepted, SumRequired(s.plans.value, c.overhead, c.minOverhead)))
    else
      match Gather(s.blocks, s.plans.value)
      case Err(sbn) => Err(InconsistentMetadata(sbn))
      case Ok(data) => Ok(if s.objectSize.Some? then Truncate(data, s.objectSize.value) else data)
  }

  // ------------------------------------------------------------ the object

  class Pipeline {
    const c: Config
    const lib: Library
    var symbols: Buffer
    var accepted: nat
    var blocks: map<nat, Block>
    var completed: set<nat>
    var objectId: Option<nat>
    var objectSize: Option<nat>
    var plans: Option<seq<Plan>>
    var blockK: map<nat, nat>

    function View(): Pipe
      reads this
    {
      Pipe(symbols, accepted, blocks, completed, objectId, objectSize, plans, blockK)
    }

    constructor (c: Config, lib: Library)
      ensures this.c == c && this.lib == lib && View() == EMPTY
    {
      this.c, this.lib := c, lib;
      symbols, accepted, blocks, completed := map[], 0, map[], {};
      objectId, objectSize, plans, blockK := None, None, None, map[];
    }

    method ConfigureBlockK()
      modifies this
      ensures View() == Configure(old(View()))
    {
      if plans.Some? {
        var ps := plans.value;
        for i := 0 to |ps|
          invariant View() == old(View()).(blockK := ConfiguredK(old(blockK), ps[..i]))
        {
          assert ps[..i + 1][..i] == ps[..i];
          blockK := blockK[ps[i].sbn := Min(ps[i].k, U16_MAX)];
        }
        assert ps[..|ps|] == ps;
      }
    }

    method SetObjectParams(params: ObjectParams) returns (error: Option<DecodingError>)
      requires params.objectSize <= USIZE_MAX
      modifies this
      ensures match AfterParams(c, old(View()), params)
              case Ok(s) => error == None && View() == s
              case Err(e) => error == Some(e) && View() == old(View())
    {
      if params.symbolSize != c.symbolSize {
        return Some(DecodingError.SymbolSizeMismatch(c.symbolSize, params.symbolSize));
      }
      if objectId.Some? && objectId.value != params.objectId {
        return Some(InconsistentMetadata(0));
      }
      var planned := PlanBlocks(params.objectSize, params.symbolSize, c.maxBlockSize);
      if planned.Err? {
        return Some(planned.error);
      }
      var invalid := ValidateLayout(params, planned.value);
      if invalid.Some? {
        return invalid;
      }
      objectId := Some(params.objectId);
      objectSize := Some(params.objectSize);
      plans := Some(planned.value);
      ConfigureBlockK();
      return None;
    }

    method TryDecodeBlock(sbn: nat, list: Listing) returns (answer: Option<Answer>)
      modifies this
      ensures (View(), answer) == AfterTry(c, lib, list, old(View()), sbn)
    {
      var plan := if plans.Some? then PlanFor(plans.value, sbn) else None;
      if plan.None? || plan.value.k == 0 {
        return None;
      }
      var listed := list(OfBlock(symbols, sbn));
      if |listed| < plan.value.k {
        return None;
      }
      var decoded := DecodeBlock(plan.value, listed, c.symbolSize, lib);
      match decoded
      case Err(InsufficientSymbols(_, _)) => return Some(Rejected(InsufficientRank));
      case Err(MatrixInversionFailed) => return Some(Rejected(InconsistentEquations));
      case Err(InconsistentMetadata(_)) =>
        if sbn in blocks { blocks := blocks[sbn := blocks[sbn].(state := Failed)]; }
        return Some(Rejected(InvalidMetadata));
      case Err(SymbolSizeMismatch(_, _)) =>
        if sbn in blocks { blocks := blocks[sbn := blocks[sbn].(state := Failed)]; }
        return Some(Rejected(RejectReason.SymbolSizeMismatch));
      case Ok(parts) =>
        var data: seq<byte> := [];
        for i := 0 to |parts|
          invariant data == Join(parts[..i])
        {
          assert parts[..i + 1][..i] == parts[..i];
          data := data + parts[i].data;
        }
        assert parts[..|parts|] == parts;
        data := Truncate(data, plan.value.len);
        if sbn in blocks { blocks := blocks[sbn := Block(Decoded, Some(data))]; }
        completed := completed + {sbn};
        symbols := NotOfBlock(symbols, sbn);
        return Some(BlockComplete(sbn, data));
    }

    method Feed(sym: Symbol, ch: Chance) returns (answer: Answer)
      modifies this
      ensures (View(), answer) == AfterFeed(c, lib, old(View()), sym, ch)
    {
      if c.verifyAuth && !ch.authentic {
        return Rejected(AuthenticationFailed);
      }
      if |sym.data| != c.symbolSize {
        return Rejected(RejectReason.SymbolSizeMismatch);
      }
      if objectId.Some? {
        if objectId.value != sym.id.objectId {
          return Rejected(WrongObjectId);
        }
      } else {
        objectId := Some(sym.id.objectId);
      }
      var sbn := sym.id.sbn;
      if sbn in completed {
        return Rejected(BlockAlreadyDecoded);
      }
      if sbn !in blocks {
        blocks := blocks[sbn := Block(Collecting, None)];
      }
      assert View() == Opened(old(View()), sym);
      if sym.id in symbols {
        return Duplicate;
      }
      if c.maxBuffered != 0 && |OfBlock(symbols, sbn)| >= c.maxBuffered {
        return Rejected(MemoryLimitReached);
      }
      answer := Store(sym, ch);
    }

    method Store(sym: Symbol, ch: Chance) returns (answer: Answer)
      modifies this
      ensures (View(), answer) == AfterInsert(c, lib, old(View()), sym, ch)
    {
      var sbn := sym.id.sbn;
      symbols := symbols[sym.id := sym];
      accepted := SatAdd(accepted, 1);
      var needed := if sbn in blockK then RequiredSymbols(blockK[sbn], c.overhead, c.minOverhead) else 0;
      if sbn !in blockK {
        ConfigureBlockK();
      }
      var received := |OfBlock(symbols, sbn)|;
      assert View() == Inserted(old(View()), sym);
      if ch.threshold {
        if sbn in blocks { blocks := blocks[sbn := blocks[sbn].(state := Decoding)]; }
        var result := TryDecodeBlock(sbn, ch.list);
        if result.Some? {
          return result.value;
        }
      }
      if sbn in blocks && blocks[sbn].state != Decoded && blocks[sbn].state != Failed {
        blocks := blocks[sbn := blocks[sbn].(state := Collecting)];
      }
      return Accepted(received, needed);
    }

    method Finish() returns (r: Result<seq<byte>, DecodingError>)
      ensures r == IntoData(c, View())
    {
      if plans.None? {
        return Err(InconsistentMetadata(0));
      }
      if |completed| != |plans.value| {
        return Err(InsufficientSymbols(accepted, SumRequired(plans.value, c.overhead, c.minOverhead)));
      }
      var output: seq<byte> := [];
      for i := 0 to |plans.value|
        invariant Gather(blocks, plans.value[..i]) == Ok(output)
      {
        assert plans.value[..i + 1][..i] == plans.value[..i];
        var sbn := plans.value[i].sbn;
        if sbn !in blocks || blocks[sbn].decoded.None? {
          GatherStops(blocks, plans.value, i + 1);
          return Err(InconsistentMetadata(sbn));
        }
        output := output + blocks[sbn].decoded.value;
      }
      assert plans.value[..|plans.value|] == plans.value;
      return Ok(if objectSize.Some? then Truncate(output, objectSize.value) else output);
    }
  }

  lemma {:induction false} GatherStops(blocks: map<nat, Block>, plans: seq<Plan>, n: nat)
    requires n <= |plans| && Gather(blocks, plans[..n]).Err?
    ensures Gather(blocks, plans) == Gather(blocks, plans[..n])
    decreases |plans| - n
  {
    if n == |plans| {
      assert plans[..n] == plans;
    } else {
      assert plans[..n + 1][..n] == plans[..n];
      GatherStops(blocks, plans, n + 1);
    }
  }
}
