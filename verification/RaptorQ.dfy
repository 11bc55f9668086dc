/**
 * Decoding one source block: `decode_block` of patches/asupersync/src/decoding.rs:716-852.
 *
 * The linear solver `InactivationDecoder` and the code tables it is built from are
 * parameters (`Library`).  All that is assumed of the solver is in `Sound` and `Exact`:
 * an answer satisfies every equation it was given, and is the only one that does.
 */
module RaptorQ {
  import opened Prelude
  import opened BlockLayout

  type byte = bv8

  // ------------------------------------------------------------ GF(256), polynomial 0x11D

  function Xtime(a: byte): byte {
    if a & 0x80 == 0 then a << 1 else (a << 1) ^ 0x1D
  }

  /** Shift-and-add product of the low `bits` bits of `a` with `b`. */
  function MulBits(a: byte, b: byte, bits: nat): byte
    decreases bits
  {
    if bits == 0 then 0
    else (if a & 1 == 0 then 0 else b) ^ MulBits(a >> 1, Xtime(b), bits - 1)
  }

  function Mul(a: byte, b: byte): byte { MulBits(a, b, 8) }

  lemma {:induction false} ZeroMulBits(b: byte, bits: nat)
    ensures MulBits(0, b, bits) == 0
    decreases bits
  {
    if bits > 0 {
      ZeroMulBits(Xtime(b), bits - 1);
    }
  }

  lemma OneMul(b: byte)
    ensures Mul(1, b) == b
  {
    ZeroMulBits(Xtime(b), 7);
    assert (1 as byte) >> 1 == 0;
  }

  // ------------------------------------------------------------ equations

  /** `ReceivedSymbol`: the sum of `coefficients[j] * intermediate[columns[j]]` is `data`. */
  datatype Equation = Equation(columns: seq<nat>, coefficients: seq<byte>, data: seq<byte>)

  /** Intermediate symbols: `l` columns of `size` bytes. */
  predicate Shaped(mid: seq<seq<byte>>, l: nat, size: nat) {
    |mid| == l && forall i :: 0 <= i < l ==> |mid[i]| == size
  }

  /** Byte `b` of the left side of an equation, over its first `n` terms. */
  function Row(eq: Equation, mid: seq<seq<byte>>, size: nat, b: nat, n: nat): byte
    requires Shaped(mid, |mid|, size) && b < size
    requires n <= |eq.columns| == |eq.coefficients| && forall c :: c in eq.columns ==> c < |mid|
  {
    if n == 0 then 0
    else
      assert eq.columns[n - 1] in eq.columns;
      Row(eq, mid, size, b, n - 1) ^ Mul(eq.coefficients[n - 1], mid[eq.columns[n - 1]][b])
  }

  predicate Holds(eq: Equation, mid: seq<seq<byte>>, size: nat)
    requires Shaped(mid, |mid|, size)
  {
    && |eq.columns| == |eq.coefficients|
    && (forall c :: c in eq.columns ==> c < |mid|)
    && |eq.data| == size
    && forall b :: 0 <= b < size ==> Row(eq, mid, size, b, |eq.columns|) == eq.data[b]
  }

  predicate AllHold(eqs: seq<Equation>, mid: seq<seq<byte>>, size: nat)
    requires Shaped(mid, |mid|, size)
  {
    forall i :: 0 <= i < |eqs| ==> Holds(eqs[i], mid, size)
  }

  /** The equation that says column `c` is `data`. */
  function Identity(c: nat, data: seq<byte>): Equation { Equation([c], [1], data) }

  lemma IdentityHolds(c: nat, data: seq<byte>, mid: seq<seq<byte>>, size: nat)
    requires Shaped(mid, |mid|, size)
    ensures Holds(Identity(c, data), mid, size) <==> c < |mid| && mid[c] == data
  {
    var eq := Identity(c, data);
    if c < |mid| && |data| == size {
      forall b | 0 <= b < size ensures Row(eq, mid, size, b, 1) == mid[c][b] {
        OneMul(mid[c][b]);
        assert Row(eq, mid, size, b, 0) == 0;
      }
      assert Holds(eq, mid, size) ==> forall b :: 0 <= b < size ==> Row(eq, mid, size, b, 1) == data[b];
    }
    assert c in eq.columns;
  }

  // ------------------------------------------------------------ the solver and its contract

  datatype SolveError =
    | TooFewSymbols(received: nat, required: nat)
    | SingularMatrix
    | WrongSymbolSize(expected: nat, actual: nat)
    | ArityMismatch
    | ColumnOutOfRange
    | CorruptOutput

  /** What `InactivationDecoder::new(k, symbol_size, seed)` provides for one block. */
  datatype Decoder = Decoder(
    kPrime: nat, l: nat,
    constraints: seq<Equation>,
    repair: nat -> (seq<nat>, seq<byte>),
    solve: seq<Equation> -> Result<seq<seq<byte>>, SolveError>)

  /** Object id, block number, K and symbol size to the decoder for that block. */
  type Library = (nat, nat, nat, nat) -> Decoder

  ghost predicate Sound(d: Decoder, k: nat, size: nat) {
    && k <= d.kPrime <= d.l
    && forall eqs :: d.solve(eqs).Ok? ==>
         Shaped(d.solve(eqs).value, d.l, size) && AllHold(eqs, d.solve(eqs).value, size)
  }

  ghost predicate Exact(d: Decoder, k: nat, size: nat) {
    && Sound(d, k, size)
    && forall eqs, other: seq<seq<byte>> :: d.solve(eqs).Ok? && Shaped(other, d.l, size) && AllHold(eqs, other, size)
         ==> other == d.solve(eqs).value
  }

  // ------------------------------------------------------------ decode_block

  datatype SymbolId = SymbolId(objectId: nat, sbn: nat, esi: nat)

  datatype SymbolKind = Source | Repair

  datatype Symbol = Symbol(id: SymbolId, data: seq<byte>, kind: SymbolKind)

  const NIL_OBJECT: nat := 0

  function ObjectOf(symbols: seq<Symbol>): nat {
    if symbols == [] then NIL_OBJECT else symbols[0].id.objectId
  }

  function RowFor(d: Decoder, s: Symbol): Equation {
    if s.kind.Source? then Identity(s.id.esi, s.data)
    else
      var (columns, coefficients) := d.repair(s.id.esi);
      Equation(columns, coefficients, s.data)
  }

  function Zeros(size: nat): seq<byte> { seq(size, _ => 0) }

  /** Constraint rows, a row per received symbol, and a zero row for each of K .. K'. */
  function System(d: Decoder, symbols: seq<Symbol>, k: nat, size: nat): seq<Equation> {
    d.constraints
    + seq(|symbols|, i requires 0 <= i < |symbols| => RowFor(d, symbols[i]))
    + (if k < d.kPrime then seq(d.kPrime - k, i requires 0 <= i => Identity(k + i, Zeros(size))) else [])
  }

  function MapError(sbn: nat, e: SolveError): DecodingError {
    match e
    case TooFewSymbols(received, required) => InsufficientSymbols(received, required)
    case SingularMatrix => MatrixInversionFailed
    case WrongSymbolSize(expected, actual) => SymbolSizeMismatch(Min(expected, U16_MAX), actual)
    case ArityMismatch => InconsistentMetadata(sbn)
    case ColumnOutOfRange => InconsistentMetadata(sbn)
    case CorruptOutput => MatrixInversionFailed
  }

  predicate SourceInRange(symbols: seq<Symbol>, k: nat) {
    forall i :: 0 <= i < |symbols| && symbols[i].kind.Source? ==> symbols[i].id.esi < k
  }

  /** The first K intermediate symbols, labelled with their ESIs. */
  function Label(objectId: nat, sbn: nat, mid: seq<seq<byte>>, k: nat): seq<Symbol> {
    seq(Min(k, |mid|), i requires 0 <= i < |mid| => Symbol(SymbolId(objectId, sbn, i), mid[i], Source))
  }

  function Decoded(plan: Plan, symbols: seq<Symbol>, size: nat, lib: Library): Result<seq<Symbol>, DecodingError> {
    var objectId := ObjectOf(symbols);
    var d := lib(objectId, plan.sbn, plan.k, size);
    if |symbols| < plan.k then Err(InsufficientSymbols(|symbols|, plan.k))
    else if !SourceInRange(symbols, plan.k) then Err(InconsistentMetadata(plan.sbn))
    else
      match d.solve(System(d, symbols, plan.k, size))
      case Err(e) => Err(MapError(plan.sbn, e))
      case Ok(mid) => Ok(Label(objectId, plan.sbn, mid, plan.k))
  }

  method DecodeBlock(plan: Plan, symbols: seq<Symbol>, size: nat, lib: Library)
    returns (r: Result<seq<Symbol>, DecodingError>)
    ensures r == Decoded(plan, symbols, size, lib)
  {
    var k := plan.k;
    if |symbols| < k {
      return Err(InsufficientSymbols(|symbols|, k));
    }
    var objectId := ObjectOf(symbols);
    var d := lib(objectId, plan.sbn, k, size);
    var received := d.constraints;
    for n := 0 to |symbols|
      invariant SourceInRange(symbols[..n], k)
      invariant received == d.constraints + seq(n, i requires 0 <= i < n => RowFor(d, symbols[i]))
    {
      var s := symbols[n];
      if s.kind.Source? {
        if s.id.esi >= k {
          return Err(InconsistentMetadata(plan.sbn));
        }
        received := received + [Identity(s.id.esi, s.data)];
      } else {
        var (columns, coefficients) := d.repair(s.id.esi);
        received := received + [Equation(columns, coefficients, s.data)];
      }
      assert forall i :: 0 <= i < n ==> symbols[..n][i] == symbols[i];
    }
    assert symbols[..|symbols|] == symbols;
    ghost var rows := received;
    var esi := k;
    while esi < d.kPrime
      invariant k <= esi && (esi <= d.kPrime || esi == k)
      invariant received == rows + seq(esi - k, i requires 0 <= i => Identity(k + i, Zeros(size)))
    {
      received := received + [Identity(esi, Zeros(size))];
      esi := esi + 1;
    }
    assert received == System(d, symbols, k, size);
    var answer := d.solve(received);
    if answer.Err? {
      return Err(MapError(plan.sbn, answer.error));
    }
    var source := answer.value[..Min(k, |answer.value|)];
    var decoded: seq<Symbol> := [];
    for esi' := 0 to |source|
      invariant decoded == Label(objectId, plan.sbn, answer.value, k)[..esi']
    {
      decoded := decoded + [Symbol(SymbolId(objectId, plan.sbn, esi'), source[esi'], Source)];
    }
    assert decoded == Label(objectId, plan.sbn, answer.value, k);
    return Ok(decoded);
  }

  // ------------------------------------------------------------ what decoding guarantees

  lemma SystemHasRow(d: Decoder, symbols: seq<Symbol>, k: nat, size: nat, i: nat)
    requires i < |symbols|
    ensures var eqs := System(d, symbols, k, size);
            |d.constraints| + i < |eqs| && eqs[|d.constraints| + i] == RowFor(d, symbols[i])
  {
  }

  /**
   * For every solver whose answers satisfy the equations: decoding returns exactly K
   * symbols of the right size, one per ESI, with every received source symbol unchanged at
   * its own ESI, whatever repair symbols are mixed in; and every source ESI was below K.
   */
  lemma DecodingKeepsSources(plan: Plan, symbols: seq<Symbol>, size: nat, lib: Library)
    requires Sound(lib(ObjectOf(symbols), plan.sbn, plan.k, size), plan.k, size)
    requires Decoded(plan, symbols, size, lib).Ok?
    ensures var r := Decoded(plan, symbols, size, lib).value;
            && |r| == plan.k
            && (forall i :: 0 <= i < |r| ==>
                  && r[i].id == SymbolId(ObjectOf(symbols), plan.sbn, i)
                  && r[i].kind == Source && |r[i].data| == size)
            && (forall s :: s in symbols && s.kind.Source? ==> s.id.esi < plan.k && r[s.id.esi].data == s.data)
  {
    var d := lib(ObjectOf(symbols), plan.sbn, plan.k, size);
    var eqs := System(d, symbols, plan.k, size);
    var mid := d.solve(eqs).value;
    forall s | s in symbols && s.kind.Source? ensures s.id.esi < plan.k && mid[s.id.esi] == s.data {
      var i :| 0 <= i < |symbols| && symbols[i] == s;
      SystemHasRow(d, symbols, plan.k, size, i);
      IdentityHolds(s.id.esi, s.data, mid, size);
    }
  }

  /** With all K source symbols present, the output is those symbols in ESI order. */
  lemma AllSourcesComeOutInOrder(plan: Plan, symbols: seq<Symbol>, size: nat, lib: Library, source: seq<Symbol>)
    requires Sound(lib(ObjectOf(symbols), plan.sbn, plan.k, size), plan.k, size)
    requires Decoded(plan, symbols, size, lib).Ok?
    requires |source| == plan.k && forall i :: 0 <= i < plan.k ==>
               source[i] in symbols && source[i].kind.Source? &&
                   source[i].id == SymbolId(ObjectOf(symbols), plan.sbn, i)
    ensures Decoded(plan, symbols, size, lib).value == source
  {
    DecodingKeepsSources(plan, symbols, size, lib);
    var r := Decoded(plan, symbols, size, lib).value;
    forall i | 0 <= i < plan.k ensures r[i] == source[i] {
      assert r[source[i].id.esi].data == source[i].data;
    }
  }

  /** `s` is what encoding the intermediate symbols `mid` gives at its ESI. */
  predicate EncodedBy(d: Decoder, mid: seq<seq<byte>>, k: nat, size: nat, s: Symbol)
    requires Shaped(mid, |mid|, size)
  {
    (s.kind.Source? ==> s.id.esi < k) && Holds(RowFor(d, s), mid, size)
  }

  /** `mid` are intermediate symbols of the code: constraints hold and padding is zero. */
  predicate CodeWord(d: Decoder, mid: seq<seq<byte>>, k: nat, size: nat) {
    && Shaped(mid, d.l, size)
    && k <= d.kPrime <= d.l
    && AllHold(d.constraints, mid, size)
    && forall i :: k <= i < d.kPrime ==> mid[i] == Zeros(size)
  }

  /** The intermediate symbols solve the system built from symbols that encode them. */
  lemma CodeWordSolves(d: Decoder, symbols: seq<Symbol>, k: nat, size: nat, mid: seq<seq<byte>>)
    requires CodeWord(d, mid, k, size) && forall s :: s in symbols ==> EncodedBy(d, mid, k, size, s)
    ensures AllHold(System(d, symbols, k, size), mid, size)
  {
    var eqs := System(d, symbols, k, size);
    forall i | 0 <= i < |eqs| ensures Holds(eqs[i], mid, size) {
      var j := i - |d.constraints|;
      if 0 <= j < |symbols| {
        assert symbols[j] in symbols && eqs[i] == RowFor(d, symbols[j]);
      } else if |symbols| <= j {
        var c := k + (j - |symbols|);
        assert eqs[i] == Identity(c, Zeros(size));
        IdentityHolds(c, Zeros(size), mid, size);
      }
    }
  }

  /**
   * When every received symbol encodes the same intermediate symbols, a successful decode
   * returns the first K of those, whichever symbols were received and in whichever order.
   */
  lemma DecodingInvertsEncoding(plan: Plan, symbols: seq<Symbol>, size: nat, lib: Library, mid: seq<seq<byte>>)
    requires Exact(lib(ObjectOf(symbols), plan.sbn, plan.k, size), plan.k, size)
    requires CodeWord(lib(ObjectOf(symbols), plan.sbn, plan.k, size), mid, plan.k, size)
    requires forall s :: s in symbols ==>
               EncodedBy(lib(ObjectOf(symbols), plan.sbn, plan.k, size), mid, plan.k, size, s)
    requires Decoded(plan, symbols, size, lib).Ok?
    ensures Decoded(plan, symbols, size, lib).value == Label(ObjectOf(symbols), plan.sbn, mid, plan.k)
  {
    CodeWordSolves(lib(ObjectOf(symbols), plan.sbn, plan.k, size), symbols, plan.k, size, mid);
  }

  // ------------------------------------------------------------ when decoding succeeds

  ghost predicate Solves(d: Decoder, eqs: seq<Equation>, mid: seq<seq<byte>>, size: nat) {
    Shaped(mid, d.l, size) && AllHold(eqs, mid, size)
  }

  /** `mid` is the only solution. */
  ghost predicate Determined(d: Decoder, eqs: seq<Equation>, mid: seq<seq<byte>>, size: nat) {
    Solves(d, eqs, mid, size) && forall other {:trigger Solves(d, eqs, other, size)} ::
        Solves(d, eqs, other, size) ==> other == mid
  }

  /** The solver answers whenever the system has exactly one solution. */
  ghost predicate Answers(d: Decoder, size: nat) {
    forall eqs, mid {:trigger Determined(d, eqs, mid, size)} :: Determined(d, eqs, mid, size) ==> d.solve(eqs).Ok?
  }

  /** The first K' columns determine the others through the constraints. */
  ghost predicate Systematic(d: Decoder, size: nat) {
    forall mid, other {:trigger Solves(d, d.constraints, mid, size), Solves(d, d.constraints, other, size)} ::
      Solves(d, d.constraints, mid, size) && Solves(d, d.constraints, other, size)
      && (forall i :: 0 <= i < d.kPrime && i < |mid| && i < |other| ==> mid[i] == other[i])
      ==> other == mid
  }

  predicate HasSource(symbols: seq<Symbol>, j: nat) { exists s :: s in symbols && s.kind.Source? && s.id.esi == j }

  lemma OtherAgrees(
    d: Decoder, symbols: seq<Symbol>, k: nat, size: nat, mid: seq<seq<byte>>, other: seq<seq<byte>>, i: nat)
    requires CodeWord(d, mid, k, size) && forall s :: s in symbols ==> EncodedBy(d, mid, k, size, s)
    requires Solves(d, System(d, symbols, k, size), other, size)
    requires i < d.kPrime && (i < k ==> HasSource(symbols, i))
    ensures mid[i] == other[i]
  {
    var eqs := System(d, symbols, k, size);
    if i < k {
      var s :| s in symbols && s.kind.Source? && s.id.esi == i;
      var j :| 0 <= j < |symbols| && symbols[j] == s;
      SystemHasRow(d, symbols, k, size, j);
      IdentityHolds(i, s.data, mid, size);
      IdentityHolds(i, s.data, other, size);
    } else {
      var j := |d.constraints| + |symbols| + (i - k);
      assert eqs[j] == Identity(i, Zeros(size));
      IdentityHolds(i, Zeros(size), other, size);
    }
  }

  lemma ConstraintsSolved(d: Decoder, symbols: seq<Symbol>, k: nat, size: nat, other: seq<seq<byte>>)
    requires Solves(d, System(d, symbols, k, size), other, size)
    ensures Solves(d, d.constraints, other, size)
  {
    var eqs := System(d, symbols, k, size);
    forall i | 0 <= i < |d.constraints| ensures Holds(d.constraints[i], other, size) {
      assert eqs[i] == d.constraints[i];
    }
  }

  /** All K source symbols, with the padding and the constraints, determine everything. */
  lemma SourcesDetermine(d: Decoder, symbols: seq<Symbol>, k: nat, size: nat, mid: seq<seq<byte>>)
    requires CodeWord(d, mid, k, size) && Systematic(d, size)
    requires forall s :: s in symbols ==> EncodedBy(d, mid, k, size, s)
    requires forall j :: 0 <= j < k ==> HasSource(symbols, j)
    ensures Determined(d, System(d, symbols, k, size), mid, size)
  {
    var eqs := System(d, symbols, k, size);
    CodeWordSolves(d, symbols, k, size, mid);
    assert Solves(d, d.constraints, mid, size);
    forall other | Solves(d, eqs, other, size) ensures other == mid {
      ConstraintsSolved(d, symbols, k, size, other);
      forall i | 0 <= i < d.kPrime ensures mid[i] == other[i] { OtherAgrees(d, symbols, k, size, mid, other, i); }
    }
  }

  function Esis(symbols: seq<Symbol>): set<nat> { set s | s in symbols :: s.id.esi }

  lemma {:induction false} EsisAreNoMore(symbols: seq<Symbol>)
    ensures |Esis(symbols)| <= |symbols|
  {
    if symbols != [] {
      var init, last := symbols[..|symbols| - 1], symbols[|symbols| - 1];
      assert symbols == init + [last];
      EsisAreNoMore(init);
      assert Esis(symbols) == Esis(init) + {last.id.esi};
    }
  }

  /** K different source symbols are at least K symbols. */
  lemma {:induction false} EnoughSources(symbols: seq<Symbol>, k: nat)
    requires forall j :: 0 <= j < k ==> HasSource(symbols, j)
    ensures |symbols| >= k
  {
    EsisAreNoMore(symbols);
    forall j | 0 <= j < k ensures j in Esis(symbols) {
      assert HasSource(symbols, j);
      var s :| s in symbols && s.kind.Source? && s.id.esi == j;
      assert s.id.esi in Esis(symbols);
    }
    FirstAreMembers(Esis(symbols), k);
  }

  lemma {:induction false} FirstAreMembers(xs: set<nat>, k: nat)
    requires forall j :: 0 <= j < k ==> j in xs
    ensures |xs| >= k
    decreases k
  {
    if k > 0 {
      FirstAreMembers(xs - {k - 1}, k - 1);
    }
  }

  /** With all K source symbols and a solver that answers determined systems, decoding succeeds. */
  lemma AllSourcesDecode(plan: Plan, symbols: seq<Symbol>, size: nat, lib: Library, mid: seq<seq<byte>>)
    requires var d := lib(ObjectOf(symbols), plan.sbn, plan.k, size);
             && CodeWord(d, mid, plan.k, size) && Systematic(d, size) && Answers(d, size)
             && forall s :: s in symbols ==> EncodedBy(d, mid, plan.k, size, s)
    requires forall j :: 0 <= j < plan.k ==> HasSource(symbols, j)
    ensures Decoded(plan, symbols, size, lib).Ok?
  {
    var d := lib(ObjectOf(symbols), plan.sbn, plan.k, size);
    SourcesDetermine(d, symbols, plan.k, size, mid);
    EnoughSources(symbols, plan.k);
    assert forall i :: 0 <= i < |symbols| ==> symbols[i] in symbols;
  }
}
