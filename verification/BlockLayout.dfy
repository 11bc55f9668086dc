/**
 * Block layout and symbol thresholds of the RaptorQ decoding pipeline
 * (patches/asupersync/src/decoding.rs:580-714).  Integers are 64-bit `usize` values; where
 * the code saturates or wraps, so does the model.
 */
module BlockLayout {
  import opened Prelude

  const U16_MAX: nat := 0xFFFF

  datatype DecodingError =
    | InsufficientSymbols(received: nat, needed: nat)
    | MatrixInversionFailed
    | InconsistentMetadata(sbn: nat)
    | SymbolSizeMismatch(expected: nat, actual: nat)

  /** `sbn` is a u8; the block is bytes `start .. start + len`, cut into `k` source symbols. */
  datatype Plan = Plan(sbn: nat, start: nat, len: nat, k: nat) {
    function End(): nat { start + len }
  }

  datatype ObjectParams = ObjectParams(
    objectId: nat, objectSize: nat, symbolSize: nat, sourceBlocks: nat, symbolsPerBlock: nat)

  function Min(a: nat, b: nat): nat { if a <= b then a else b }

  function Max(a: nat, b: nat): nat { if a >= b then a else b }

  function SatAdd(a: nat, b: nat): nat { Min(a + b, USIZE_MAX) }

  function SatMul(a: nat, b: nat): nat { Min(a * b, USIZE_MAX) }

  function CeilDiv(a: nat, b: nat): nat
    requires b > 0
  {
    if a % b == 0 then a / b else a / b + 1
  }

  lemma MulGap(a: nat, b: nat, n: nat)
    ensures a < b ==> a * n + n <= b * n
  {
    if a < b {
      var d := b - a - 1;
      assert d * n >= 0;
      assert b * n == (a + 1 + d) * n == a * n + n + d * n;
    }
  }

  /** `CeilDiv(a, b)` is the least number of pieces of size `b` that cover `a`. */
  lemma CeilDivCovers(a: nat, b: nat)
    requires b > 0
    ensures a <= CeilDiv(a, b) * b < a + b
  {
    assert a == a / b * b + a % b;
    assert (a / b + 1) * b == a / b * b + b;
  }

  lemma CeilDivUnique(a: nat, b: nat, c: nat)
    requires b > 0 && a <= c * b < a + b
    ensures CeilDiv(a, b) == c
  {
    var d := CeilDiv(a, b);
    CeilDivCovers(a, b);
    MulGap(c, d, b);
    MulGap(d, c, b);
  }

  lemma CeilDivMonotone(a: nat, a': nat, b: nat)
    requires b > 0 && a <= a'
    ensures CeilDiv(a, b) <= CeilDiv(a', b)
  {
    var c, c' := CeilDiv(a, b), CeilDiv(a', b);
    CeilDivCovers(a, b);
    CeilDivCovers(a', b);
    MulGap(c', c, b);
  }

  // ------------------------------------------------------------ the layout

  /** Block `i` of an object: the closed form of what the planning loop produces. */
  function BlockAt(objectSize: nat, symbolSize: nat, maxBlockSize: nat, i: nat): Plan
    requires symbolSize > 0 && i * maxBlockSize <= objectSize
  {
    var len := Min(maxBlockSize, objectSize - i * maxBlockSize);
    Plan(i, i * maxBlockSize, len, CeilDiv(len, symbolSize))
  }

  lemma StartsInside(objectSize: nat, maxBlockSize: nat, i: nat)
    requires maxBlockSize > 0 && i < CeilDiv(objectSize, maxBlockSize)
    ensures i * maxBlockSize < objectSize
  {
    CeilDivCovers(objectSize, maxBlockSize);
    MulGap(i, CeilDiv(objectSize, maxBlockSize), maxBlockSize);
  }

  function Blocks(objectSize: nat, symbolSize: nat, maxBlockSize: nat): seq<Plan>
    requires symbolSize > 0 && maxBlockSize > 0
  {
    seq(CeilDiv(objectSize, maxBlockSize), i requires 0 <= i < CeilDiv(objectSize, maxBlockSize) =>
      StartsInside(objectSize, maxBlockSize, i);
      BlockAt(objectSize, symbolSize, maxBlockSize, i))
  }

  function Layout(objectSize: nat, symbolSize: nat, maxBlockSize: nat): Result<seq<Plan>, DecodingError> {
    if objectSize == 0 then Ok([])
    else if symbolSize == 0 then Err(InconsistentMetadata(0))
    else if objectSize > SatMul(maxBlockSize, 256) then Err(InconsistentMetadata(0))
    else Ok(Blocks(objectSize, symbolSize, maxBlockSize))
  }

  /** At most 256 blocks pass the size limit, even where the limit saturates. */
  lemma AtMost256Blocks(objectSize: nat, maxBlockSize: nat)
    requires maxBlockSize > 0 && objectSize <= USIZE_MAX && objectSize <= SatMul(maxBlockSize, 256)
    ensures CeilDiv(objectSize, maxBlockSize) <= 256
  {
    CeilDivCovers(objectSize, maxBlockSize);
    MulGap(256, CeilDiv(objectSize, maxBlockSize), maxBlockSize);
  }

  /** Where block `i` starts, where it ends, and whether another follows. */
  lemma BlockStep(objectSize: nat, maxBlockSize: nat, i: nat)
    requires maxBlockSize > 0 && i < CeilDiv(objectSize, maxBlockSize)
    ensures i * maxBlockSize < objectSize
    ensures i * maxBlockSize + Min(maxBlockSize, objectSize - i * maxBlockSize) ==
        Min((i + 1) * maxBlockSize, objectSize)
    ensures (i + 1) * maxBlockSize < objectSize ==> i + 1 < CeilDiv(objectSize, maxBlockSize)
  {
    StartsInside(objectSize, maxBlockSize, i);
    assert (i + 1) * maxBlockSize == i * maxBlockSize + maxBlockSize;
    CeilDivCovers(objectSize, maxBlockSize);
  }

  /** `plan_blocks`: the loop over `offset` and the wrapping u8 `sbn`. */
  method PlanBlocks(objectSize: nat, symbolSize: nat, maxBlockSize: nat) returns (r: Result<seq<Plan>, DecodingError>)
    requires objectSize <= USIZE_MAX
    ensures r == Layout(objectSize, symbolSize, maxBlockSize)
  {
    if objectSize == 0 {
      return Ok([]);
    }
    if symbolSize == 0 {
      return Err(InconsistentMetadata(0));
    }
    var maxTotal := SatMul(maxBlockSize, 256);
    if objectSize > maxTotal {
      return Err(InconsistentMetadata(0));
    }
    var blocks: seq<Plan> := [];
    var offset, sbn := 0, 0;
    ghost var n := CeilDiv(objectSize, maxBlockSize);
    ghost var all := Blocks(objectSize, symbolSize, maxBlockSize);
    AtMost256Blocks(objectSize, maxBlockSize);
    CeilDivCovers(objectSize, maxBlockSize);
    while offset < objectSize
      invariant |blocks| <= n && forall j :: 0 <= j < |blocks| ==> blocks[j] == all[j]
      invariant offset == Min(|blocks| * maxBlockSize, objectSize)
      invariant offset < objectSize ==> |blocks| < n
      invariant sbn == |blocks| % 256
      decreases objectSize - offset
    {
      ghost var i := |blocks|;
      BlockStep(objectSize, maxBlockSize, i);
      var len := Min(maxBlockSize, objectSize - offset);
      var k := CeilDiv(len, symbolSize);
      assert Plan(sbn, offset, len, k) == all[i];
      blocks := blocks + [Plan(sbn, offset, len, k)];
      offset := offset + len;
      sbn := (sbn + 1) % 256;
    }
    if |blocks| < n {
      StartsInside(objectSize, maxBlockSize, |blocks|);
    }
    assert blocks == all;
    return Ok(blocks);
  }

  /** Blocks that tile an object: no gap, no overlap, distinct consecutive numbers below 256. */
  predicate Tiles(plans: seq<Plan>, objectSize: nat, symbolSize: nat, maxBlockSize: nat) {
    && |plans| <= 256
    && (forall i :: 0 <= i < |plans| ==>
          && plans[i].sbn == i
          && plans[i].start == (if i == 0 then 0 else plans[i - 1].End())
          && 0 < plans[i].len <= maxBlockSize
          && (i < |plans| - 1 ==> plans[i].len == maxBlockSize)
          && plans[i].len <= plans[i].k * symbolSize < plans[i].len + symbolSize)
    && objectSize == (if plans == [] then 0 else plans[|plans| - 1].End())
  }

  /** Whenever planning succeeds, the blocks tile the object. */
  lemma LayoutTiles(objectSize: nat, symbolSize: nat, maxBlockSize: nat)
    requires objectSize <= USIZE_MAX && Layout(objectSize, symbolSize, maxBlockSize).Ok?
    ensures Tiles(Layout(objectSize, symbolSize, maxBlockSize).value, objectSize, symbolSize, maxBlockSize)
  {
    if objectSize > 0 {
      var plans := Blocks(objectSize, symbolSize, maxBlockSize);
      AtMost256Blocks(objectSize, maxBlockSize);
      CeilDivCovers(objectSize, maxBlockSize);
      forall i | 0 <= i < |plans|
        ensures plans[i].start == (if i == 0 then 0 else plans[i - 1].End())
        ensures 0 < plans[i].len <= maxBlockSize && (i < |plans| - 1 ==> plans[i].len == maxBlockSize)
        ensures plans[i].len <= plans[i].k * symbolSize < plans[i].len + symbolSize
        ensures i == |plans| - 1 ==> plans[i].End() == objectSize
      {
        StartsInside(objectSize, maxBlockSize, i);
        CeilDivCovers(plans[i].len, symbolSize);
        assert (i + 1) * maxBlockSize == i * maxBlockSize + maxBlockSize;
        if i > 0 {
          assert (i - 1) * maxBlockSize + maxBlockSize == i * maxBlockSize;
        }
        if i < |plans| - 1 {
          StartsInside(objectSize, maxBlockSize, i + 1);
        }
      }
    }
  }

  /** Planning fails exactly on a zero symbol size or an object that needs more than 256 blocks. */
  lemma LayoutFailsExactly(objectSize: nat, symbolSize: nat, maxBlockSize: nat)
    requires 0 < objectSize <= USIZE_MAX
    ensures Layout(objectSize, symbolSize, maxBlockSize).Err?
       <==> symbolSize == 0 || maxBlockSize == 0 || CeilDiv(objectSize, maxBlockSize) > 256
  {
    if maxBlockSize > 0 {
      CeilDivCovers(objectSize, maxBlockSize);
      if objectSize <= SatMul(maxBlockSize, 256) {
        AtMost256Blocks(objectSize, maxBlockSize);
      } else {
        MulGap(CeilDiv(objectSize, maxBlockSize), 256, maxBlockSize);
      }
    }
  }

  // ------------------------------------------------------------ declared metadata

  function MaxK(plans: seq<Plan>): nat {
    if plans == [] then 0 else Max(MaxK(plans[..|plans| - 1]), plans[|plans| - 1].k)
  }

  /** `validate_object_params_layout`. */
  function ValidateLayout(params: ObjectParams, plans: seq<Plan>): Option<DecodingError> {
    if plans == [] then
      if params.sourceBlocks == 0 && params.symbolsPerBlock == 0 then None
      else if params.sourceBlocks == 1 then None
      else Some(InconsistentMetadata(0))
    else if params.sourceBlocks != |plans| then Some(InconsistentMetadata(0))
    else if params.symbolsPerBlock != MaxK(plans) then Some(InconsistentMetadata(0))
    else None
  }

  lemma {:induction false} FirstBlockHasMaxK(plans: seq<Plan>, n: nat)
    requires 0 < n <= |plans| && forall i :: 0 <= i < n ==> plans[i].k <= plans[0].k
    ensures MaxK(plans[..n]) == plans[0].k
  {
    assert plans[..n][..n - 1] == plans[..n - 1];
    if n > 1 {
      FirstBlockHasMaxK(plans, n - 1);
    }
  }

  /** For a planned object, the declared K has to be that of the first block, not a total. */
  lemma ValidLayoutExactly(params: ObjectParams, maxBlockSize: nat)
    requires params.objectSize <= USIZE_MAX && Layout(params.objectSize, params.symbolSize, maxBlockSize).Ok?
    ensures var plans := Layout(params.objectSize, params.symbolSize, maxBlockSize).value;
            ValidateLayout(params, plans).None? <==>
              if plans == [] then params.sourceBlocks == 1 || (params.sourceBlocks == 0 && params.symbolsPerBlock == 0)
              else params.sourceBlocks == |plans| && params.symbolsPerBlock == plans[0].k
  {
    var plans := Layout(params.objectSize, params.symbolSize, maxBlockSize).value;
    LayoutTiles(params.objectSize, params.symbolSize, maxBlockSize);
    if plans != [] {
      forall i | 0 <= i < |plans| ensures plans[i].k <= plans[0].k {
        CeilDivUnique(plans[i].len, params.symbolSize, plans[i].k);
        CeilDivUnique(plans[0].len, params.symbolSize, plans[0].k);
        CeilDivMonotone(plans[i].len, plans[0].len, params.symbolSize);
      }
      FirstBlockHasMaxK(plans, |plans|);
      assert plans[..|plans|] == plans;
    }
  }

  // ------------------------------------------------------------ symbol thresholds

  /** An f64 overhead factor; finite values in exact arithmetic. */
  datatype F64 = NaN | Infinity(negative: bool) | Finite(value: real)

  function Ceil(x: real): int { -((-x).Floor) }

  /** `k` times `x`, by repeated addition so that the solver only meets linear arithmetic. */
  function Times(k: nat, x: real): real {
    if k == 0 then 0.0 else Times(k - 1, x) + x
  }

  lemma {:induction false} TimesIsProduct(k: nat, x: real)
    ensures Times(k, x) == k as real * x
  {
    if k > 0 {
      TimesIsProduct(k - 1, x);
      var n := (k - 1) as real;
      assert k as real == n + 1.0;
      assert (n + 1.0) * x == n * x + x;
    }
  }

  /** `f64::from(k) * overhead`, for a positive `k`. */
  function Scale(k: nat, overhead: F64): F64 {
    if overhead.Finite? then Finite(Times(k, overhead.value)) else overhead
  }

  /** The target that is rounded up is K times the overhead, whatever the overhead is. */
  lemma ScaleIsProduct(k: nat, overhead: F64)
    ensures overhead.Finite? ==> Scale(k, overhead) == Finite(k as real * overhead.value)
    ensures !overhead.Finite? ==> Scale(k, overhead) == overhead
  {
    if overhead.Finite? {
      TimesIsProduct(k, overhead.value);
    }
  }

  /** `required_symbols`; `k` is a u16. */
  function RequiredSymbols(k: nat, overhead: F64, minOverhead: nat): nat {
    if k == 0 then 0 else Threshold(SatAdd(k, minOverhead), Scale(k, overhead))
  }

  /** The rounded-up target, cast to usize with saturation, but never below the minimum. */
  function Threshold(minimum: nat, target: F64): nat {
    match target
    case NaN => minimum
    case Infinity(negative) => if negative then minimum else USIZE_MAX
    case Finite(x) => if Ceil(x) < 0 then minimum else Max(Min(Ceil(x), USIZE_MAX), minimum)
  }

  /** The floor of K plus the minimum overhead holds for every overhead factor whatever. */
  lemma RequiredAtLeastMinimum(k: nat, overhead: F64, minOverhead: nat)
    requires 0 < k <= U16_MAX
    ensures Min(k + minOverhead, USIZE_MAX) <= RequiredSymbols(k, overhead, minOverhead) <= USIZE_MAX
  {
  }

  /** The number of symbols `n` is enough: at least K and the minimum overhead, and K times the factor. */
  predicate Enough(k: nat, overhead: real, minOverhead: nat, n: nat) {
    n >= k + minOverhead && n as real >= k as real * overhead
  }

  /**
   * For a finite overhead the threshold is the least number of symbols that is enough, as
   * long as that fits a usize; infinite overheads ask for all there can be, or for the
   * minimum, and NaN for the minimum.
   */
  lemma RequiredIsLeast(k: nat, overhead: F64, minOverhead: nat)
    requires 0 < k <= U16_MAX
    ensures var n := RequiredSymbols(k, overhead, minOverhead);
            match overhead
            case Finite(x) =>
              && (n < USIZE_MAX ==> Enough(k, x, minOverhead, n))
              && (forall m: nat :: Enough(k, x, minOverhead, m) ==> n <= m)
            case Infinity(negative) => n == if negative then Min(k + minOverhead, USIZE_MAX) else USIZE_MAX
            case NaN => n == Min(k + minOverhead, USIZE_MAX)
  {
    if overhead.Finite? {
      TimesIsProduct(k, overhead.value);
      var x := k as real * overhead.value;
      CeilIsLeast(x, 0);
      forall m: nat | Enough(k, overhead.value, minOverhead, m)
        ensures RequiredSymbols(k, overhead, minOverhead) <= m
      {
        CeilIsLeast(x, m);
      }
    }
  }

  lemma CeilIsLeast(x: real, m: int)
    ensures Ceil(x) as real >= x && (m as real >= x ==> m >= Ceil(x))
  {
  }

  lemma ThresholdMonotone(m: nat, m': nat, x: real, x': real)
    requires m <= m' && (x <= x' || x <= 0.0)
    ensures Threshold(m, Finite(x)) <= Threshold(m', Finite(x'))
  {
  }

  lemma {:induction false} TimesMonotone(k: nat, k': nat, x: real, x': real)
    requires k <= k' && x <= x'
    ensures Times(k, x) <= Times(k', x') || Times(k, x) <= 0.0
    ensures x >= 0.0 ==> 0.0 <= Times(k, x) <= Times(k', x')
    ensures x <= 0.0 ==> Times(k, x) <= 0.0
    decreases k'
  {
    if k' > 0 {
      TimesMonotone(if k == 0 then 0 else k - 1, k' - 1, x, x');
    }
  }

  /** `required_symbols` is monotone in each of its finite arguments. */
  lemma RequiredMonotone(k: nat, k': nat, x: real, x': real, m: nat, m': nat)
    requires k <= k' && x <= x' && m <= m'
    ensures RequiredSymbols(k, Finite(x), m) <= RequiredSymbols(k', Finite(x'), m')
  {
    TimesMonotone(k, k', x, x');
    ThresholdMonotone(SatAdd(k, m), SatAdd(k', m'), Times(k, x), Times(k', x'));
  }

  function PlanNeeds(plan: Plan, overhead: F64, minOverhead: nat): nat {
    RequiredSymbols(Min(plan.k, U16_MAX), overhead, minOverhead)
  }

  /** `sum_required_symbols`: a fold from the left with a saturating addition. */
  function SumRequired(plans: seq<Plan>, overhead: F64, minOverhead: nat): nat {
    if plans == [] then 0
    else SatAdd(SumRequired(plans[..|plans| - 1], overhead, minOverhead),
        PlanNeeds(plans[|plans| - 1], overhead, minOverhead))
  }

  function ExactSum(plans: seq<Plan>, overhead: F64, minOverhead: nat): nat {
    if plans == [] then 0
    else ExactSum(plans[..|plans| - 1], overhead, minOverhead) + PlanNeeds(plans[|plans| - 1], overhead, minOverhead)
  }

  lemma {:induction false} SumSaturatesExactly(plans: seq<Plan>, overhead: F64, minOverhead: nat)
    ensures SumRequired(plans, overhead, minOverhead) == Min(USIZE_MAX, ExactSum(plans, overhead, minOverhead))
  {
    if plans != [] {
      SumSaturatesExactly(plans[..|plans| - 1], overhead, minOverhead);
    }
  }

  lemma {:induction false} ExactSumWithout(plans: seq<Plan>, i: nat, overhead: F64, minOverhead: nat)
    requires i < |plans|
    ensures ExactSum(plans, overhead, minOverhead)
         == ExactSum(plans[..i] + plans[i + 1..], overhead, minOverhead) + PlanNeeds(plans[i], overhead, minOverhead)
  {
    var n := |plans| - 1;
    if i == n {
      assert plans[..i] + plans[i + 1..] == plans[..n];
    } else {
      ExactSumWithout(plans[..n], i, overhead, minOverhead);
      var rest := plans[..i] + plans[i + 1..];
      assert rest[..|rest| - 1] == plans[..n][..i] + plans[..n][i + 1..];
    }
  }

  /** The saturating total does not depend on the order in which blocks are visited. */
  lemma {:induction false} SumIgnoresOrder(plans: seq<Plan>, plans': seq<Plan>, overhead: F64, minOverhead: nat)
    requires multiset(plans) == multiset(plans')
    ensures SumRequired(plans, overhead, minOverhead) == SumRequired(plans', overhead, minOverhead)
  {
    SumSaturatesExactly(plans, overhead, minOverhead);
    SumSaturatesExactly(plans', overhead, minOverhead);
    ExactSumIgnoresOrder(plans, plans', overhead, minOverhead);
  }

  lemma MultisetSplits(plans: seq<Plan>, i: nat)
    requires i < |plans|
    ensures multiset(plans) == multiset(plans[..i] + plans[i + 1..]) + multiset{plans[i]}
  {
    assert plans == (plans[..i] + [plans[i]]) + plans[i + 1..];
  }

  lemma MultisetCancels(a: multiset<Plan>, b: multiset<Plan>, x: Plan)
    requires a + multiset{x} == b + multiset{x}
    ensures a == b
  {
    assert a == a + multiset{x} - multiset{x};
    assert b == b + multiset{x} - multiset{x};
  }

  lemma MultisetWithout(plans: seq<Plan>, plans': seq<Plan>, init: seq<Plan>, last: Plan, i: nat)
    requires multiset(plans) == multiset(plans') && plans == init + [last] && i < |plans'| && plans'[i] == last
    ensures multiset(init) == multiset(plans'[..i] + plans'[i + 1..])
  {
    MultisetSplits(plans', i);
    MultisetCancels(multiset(init), multiset(plans'[..i] + plans'[i + 1..]), last);
  }

  lemma {:induction false} ExactSumIgnoresOrder(plans: seq<Plan>, plans': seq<Plan>, overhead: F64, minOverhead: nat)
    requires multiset(plans) == multiset(plans')
    ensures ExactSum(plans, overhead, minOverhead) == ExactSum(plans', overhead, minOverhead)
    decreases |plans|
  {
    assert |plans| == |multiset(plans)| == |multiset(plans')| == |plans'|;
    if plans != [] {
      var init, last := plans[..|plans| - 1], plans[|plans| - 1];
      assert plans == init + [last] && plans[|plans| - 1] in multiset(plans');
      var i :| 0 <= i < |plans'| && plans'[i] == last;
      var rest := plans'[..i] + plans'[i + 1..];
      MultisetWithout(plans, plans', init, last, i);
      ExactSumWithout(plans', i, overhead, minOverhead);
      ExactSumIgnoresOrder(init, rest, overhead, minOverhead);
    }
  }
}
