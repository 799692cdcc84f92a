/** Transaction sizing and miner-fee policy. */
module FeeRates {
  import opened Wrappers
  import opened Rounding

  const VB_TX_OVERHEAD: nat := 11
  const VB_INPUT_P2WPKH: nat := 68
  const VB_INPUT_P2TR_KEYPATH: nat := 58
  const VB_INPUT_P2SH_P2WPKH: nat := 91
  const VB_INPUT_VAULT: nat := 100
  const SCRIPT_BYTES_P2TR: nat := 34
  const DISCOVERY_SCRIPT_BYTES: nat := 75
  const ABSOLUTE_FLOOR_SAT_PER_VB: nat := 1
  const ABSOLUTE_CEILING_SAT_PER_VB: nat := 500

  datatype SpendKind = P2wpkh | P2tr | P2shP2wpkh
  datatype Operation = Deploy | BackingBuy | Redeem | Transfer

  /** What a build knows about its transaction apart from the funding inputs. */
  datatype Shape = Shape(
    fundingKind: SpendKind, tokenInputs: nat, tokenKind: SpendKind,
    walletScriptBytes: nat, ordinalsScriptBytes: nat, feeScriptBytes: nat,
    recipientCarriers: nat, discovery: bool)

  function OpReturnScriptBytes(op: Operation): nat {
    match op
    case Deploy => 50
    case BackingBuy => 47
    case Redeem => 56
    case Transfer => 75
  }

  function InputVbytes(kind: SpendKind): (v: nat)
    ensures v >= 58
  {
    match kind
    case P2wpkh => VB_INPUT_P2WPKH
    case P2tr => VB_INPUT_P2TR_KEYPATH
    case P2shP2wpkh => VB_INPUT_P2SH_P2WPKH
  }

  function OutputVbytes(scriptBytes: nat): nat {
    9 + scriptBytes
  }

  function OutputsVbytes(outputs: seq<nat>): nat {
    if outputs == [] then 0
    else OutputsVbytes(outputs[..|outputs| - 1]) + OutputVbytes(outputs[|outputs| - 1])
  }

  /** Virtual size before any funding input is added. */
  function BaseVsize(op: Operation, s: Shape): nat {
    var wallet, carrier := s.walletScriptBytes, s.ordinalsScriptBytes;
    var outputs := match op
      case Deploy => 9 * 3 + SCRIPT_BYTES_P2TR + 2 * wallet
      case BackingBuy => 9 * 5 + 2 * SCRIPT_BYTES_P2TR + carrier + s.feeScriptBytes + wallet
                         + (if s.discovery then 9 + DISCOVERY_SCRIPT_BYTES else 0)
      case Redeem => 9 * 5 + SCRIPT_BYTES_P2TR + 2 * wallet + s.feeScriptBytes + carrier
      case Transfer => s.recipientCarriers * (9 + carrier) + 9 * 2 + carrier + wallet;
    VB_TX_OVERHEAD + 9 + OpReturnScriptBytes(op) + outputs
    + (if op == BackingBuy || op == Redeem then VB_INPUT_VAULT else 0)
    + s.tokenInputs * InputVbytes(s.tokenKind)
  }

  /** The size is linear in the number of funding inputs. */
  function Vsize(op: Operation, s: Shape, fundingInputs: nat): nat {
    BaseVsize(op, s) + fundingInputs * InputVbytes(s.fundingKind)
  }

  /** Input counts by kind, as the sizing code tallies them. */
  class Tallies {
    var p2wpkhInputs: nat
    var p2trInputs: nat
    var p2shP2wpkhInputs: nat

    constructor ()
      ensures Size() == 0
    {
      p2wpkhInputs, p2trInputs, p2shP2wpkhInputs := 0, 0, 0;
    }

    function Size(): nat
      reads this
    {
      p2wpkhInputs * VB_INPUT_P2WPKH + p2trInputs * VB_INPUT_P2TR_KEYPATH + p2shP2wpkhInputs * VB_INPUT_P2SH_P2WPKH
    }

    method Tally(count: nat, kind: SpendKind)
      modifies this
      ensures Size() == old(Size()) + count * InputVbytes(kind)
    {
      if count == 0 {
        return;
      }
      match kind
      case P2tr => p2trInputs := p2trInputs + count;
      case P2shP2wpkh => p2shP2wpkhInputs := p2shP2wpkhInputs + count;
      case P2wpkh => p2wpkhInputs := p2wpkhInputs + count;
    }
  }

  lemma OutputsSnoc(outputs: seq<nat>, n: nat)
    ensures OutputsVbytes(outputs + [n]) == OutputsVbytes(outputs) + OutputVbytes(n)
  {
    assert (outputs + [n])[..|outputs|] == outputs;
  }

  /** The sizing code lists every output and tallies every input; its answer is the linear size. */
  method EstimateOperationVsize(op: Operation, s: Shape, fundingInputs: nat) returns (vsize: nat)
    ensures vsize == Vsize(op, s, fundingInputs)
  {
    var wallet, carrier := s.walletScriptBytes, s.ordinalsScriptBytes;
    var outputs: seq<nat> := [];
    OutputsSnoc(outputs, OpReturnScriptBytes(op));
    outputs := outputs + [OpReturnScriptBytes(op)];
    match op {
      case Deploy =>
        SumThree(SCRIPT_BYTES_P2TR, wallet, wallet);
        outputs := PushAll(outputs, [SCRIPT_BYTES_P2TR, wallet, wallet]);
      case BackingBuy =>
        SumFive(SCRIPT_BYTES_P2TR, carrier, s.feeScriptBytes, SCRIPT_BYTES_P2TR, wallet);
        outputs := PushAll(outputs, [SCRIPT_BYTES_P2TR, carrier, s.feeScriptBytes, SCRIPT_BYTES_P2TR, wallet]);
        if s.discovery {
          OutputsSnoc(outputs, DISCOVERY_SCRIPT_BYTES);
          outputs := outputs + [DISCOVERY_SCRIPT_BYTES];
        }
      case Redeem =>
        SumFive(SCRIPT_BYTES_P2TR, wallet, s.feeScriptBytes, carrier, wallet);
        outputs := PushAll(outputs, [SCRIPT_BYTES_P2TR, wallet, s.feeScriptBytes, carrier, wallet]);
      case Transfer =>
        var start := OutputsVbytes(outputs);
        for i := 0 to s.recipientCarriers
          invariant OutputsVbytes(outputs) == start + i * OutputVbytes(carrier)
        {
          OutputsSnoc(outputs, carrier);
          outputs := outputs + [carrier];
        }
        SumTwo(carrier, wallet);
        outputs := PushAll(outputs, [carrier, wallet]);
    }
    var inputs := new Tallies();
    inputs.Tally(fundingInputs, s.fundingKind);
    inputs.Tally(s.tokenInputs, s.tokenKind);
    var vault := if op == BackingBuy || op == Redeem then VB_INPUT_VAULT else 0;
    vsize := VB_TX_OVERHEAD + vault + inputs.Size() + OutputsVbytes(outputs);
  }

  /** The output scripts of a build, in order, each by its length: the envelope, the operation's own
      outputs and the change. */
  function ScriptsOf(op: Operation, s: Shape): seq<nat> {
    var w, c, vault := s.walletScriptBytes, s.ordinalsScriptBytes, SCRIPT_BYTES_P2TR;
    match op
    case Deploy => [50, vault, w, w]
    case BackingBuy => [47, vault, c, s.feeScriptBytes, vault, w] + if s.discovery then [75] else []
    case Redeem => [56, vault, w, s.feeScriptBytes, c, w]
    case Transfer => [75] + seq(s.recipientCarriers, _ => c) + [c, w]
  }

  lemma {:induction false} OutputsAppend(a: seq<nat>, b: seq<nat>)
    ensures OutputsVbytes(a + b) == OutputsVbytes(a) + OutputsVbytes(b)
    decreases |b|
  {
    if b == [] {
      assert a + b == a;
    } else {
      OutputsAppend(a, b[..|b| - 1]);
      assert (a + b)[..|a + b| - 1] == a + b[..|b| - 1];
    }
  }

  lemma {:induction false} SameScripts(n: nat, c: nat)
    ensures OutputsVbytes(seq(n, _ => c)) == n * (9 + c)
  {
    if n > 0 {
      SameScripts(n - 1, c);
      assert seq(n, _ => c)[..n - 1] == seq(n - 1, _ => c);
      assert n * (9 + c) == (n - 1) * (9 + c) + (9 + c);
    }
  }

  lemma ListBytes(xs: seq<nat>)
    ensures OutputsVbytes(xs) == SumBytes(xs)
  {
    if xs != [] {
      OutputsAppend([xs[0]], xs[1..]);
      assert [xs[0]] + xs[1..] == xs;
      assert [xs[0]][..0] == [];
      ListBytes(xs[1..]);
    }
  }

  /** The size is that of a transaction with these outputs, a vault input where a vault moves, and the
      token and funding inputs. */
  lemma VsizeIsTheTransaction(op: Operation, s: Shape, fundingInputs: nat)
    ensures Vsize(op, s, fundingInputs)
            == 11 + (if op == BackingBuy || op == Redeem then 100 else 0)
               + fundingInputs * InputVbytes(s.fundingKind) + s.tokenInputs * InputVbytes(s.tokenKind)
               + OutputsVbytes(ScriptsOf(op, s))
  {
    var w, c, vault := s.walletScriptBytes, s.ordinalsScriptBytes, SCRIPT_BYTES_P2TR;
    hide OutputsVbytes;
    ListBytes([75]);
    assert [75][1..] == [];
    match op
    case Deploy =>
      ListBytes([50, vault, w, w]);
      SumThree(vault, w, w);
      assert [50, vault, w, w][1..] == [vault, w, w];
    case BackingBuy =>
      var outs := [47, vault, c, s.feeScriptBytes, vault, w];
      ListBytes(outs);
      SumFive(vault, c, s.feeScriptBytes, vault, w);
      assert outs[1..] == [vault, c, s.feeScriptBytes, vault, w];
      OutputsAppend(outs, [75]);
      assert outs + [] == outs;
    case Redeem =>
      var outs := [56, vault, w, s.feeScriptBytes, c, w];
      ListBytes(outs);
      SumFive(vault, w, s.feeScriptBytes, c, w);
      assert outs[1..] == [vault, w, s.feeScriptBytes, c, w];
    case Transfer =>
      ListBytes([c, w]);
      SumTwo(c, w);
      SameScripts(s.recipientCarriers, c);
      OutputsAppend([75], seq(s.recipientCarriers, _ => c));
      OutputsAppend([75] + seq(s.recipientCarriers, _ => c), [c, w]);
  }

  /** A native, a Taproot and a nested input take 68, 58 and 91 vbytes; with one native input, a 22-byte
      wallet and fee script and a 34-byte token script the four builds have these sizes. */
  lemma StandardSizes()
    ensures InputVbytes(P2wpkh) == 68 && InputVbytes(P2tr) == 58 && InputVbytes(P2shP2wpkh) == 91
    ensures var s := Shape(P2wpkh, 1, P2tr, 22, 34, 22, 1, true);
            && Vsize(Deploy, s.(tokenInputs := 0), 1) == 243
            && Vsize(BackingBuy, s.(tokenInputs := 0, discovery := false), 1) == 426
            && Vsize(BackingBuy, s.(tokenInputs := 0), 1) == 510
            && Vsize(Redeem, s, 1) == 481
            && Vsize(Transfer, s, 1) == 338
  {
  }

  function SumBytes(xs: seq<nat>): nat {
    if xs == [] then 0 else OutputVbytes(xs[0]) + SumBytes(xs[1..])
  }

  lemma SumTwo(a: nat, b: nat)
    ensures SumBytes([a, b]) == 18 + a + b
  {
    assert [b][1..] == [];
    assert SumBytes([b]) == 9 + b;
    assert [a, b][1..] == [b];
  }

  lemma SumThree(a: nat, b: nat, c: nat)
    ensures SumBytes([a, b, c]) == 27 + a + b + c
  {
    SumTwo(b, c);
    assert [a, b, c][1..] == [b, c];
  }

  lemma SumFive(a: nat, b: nat, c: nat, d: nat, e: nat)
    ensures SumBytes([a, b, c, d, e]) == 45 + a + b + c + d + e
  {
    SumThree(c, d, e);
    assert [b, c, d, e][1..] == [c, d, e];
    assert [a, b, c, d, e][1..] == [b, c, d, e];
  }

  method PushAll(outputs: seq<nat>, more: seq<nat>) returns (r: seq<nat>)
    ensures r == outputs + more
    ensures OutputsVbytes(r) == OutputsVbytes(outputs) + SumBytes(more)
  {
    r := outputs;
    for i := 0 to |more|
      invariant r == outputs + more[..i]
      invariant OutputsVbytes(r) + SumBytes(more[i..]) == OutputsVbytes(outputs) + SumBytes(more)
    {
      OutputsSnoc(r, more[i]);
      r := r + [more[i]];
    }
  }

  // ── Fee resolution ───────────────────────────────────────────────────────

  datatype FeeError = TooLow | TooHigh

  /** Either a rate or an amount in sats. */
  datatype FeeChoice = Rate(satPerVb: int) | Explicit(sats: int)

  datatype FeePolicy = FeePolicy(choice: FeeChoice, floor: int, ceiling: int, maxMinerFeeSats: int)

  datatype MinerFee = MinerFee(sats: int, vsize: nat, satPerVb: int)

  function ResolveMinerFee(p: FeePolicy, size: nat): Result<MinerFee, FeeError> {
    var vsize := if size < 1 then 1 else size;
    if p.choice.Rate? && p.choice.satPerVb <= 0 then Err(TooLow)
    else
      var sats := match p.choice case Rate(r) => r * vsize case Explicit(e) => e;
      var effective := TruncDiv(sats, vsize);
      if effective < p.floor then Err(TooLow)
      else if effective > p.ceiling then Err(TooHigh)
      else if sats > p.maxMinerFeeSats then Err(TooHigh)
      else Ok(MinerFee(sats, vsize, effective))
  }

  /** A fee is accepted exactly when its whole-sat rate is within floor and ceiling and its amount within
      the cap: an explicit amount as it is, a positive rate times the size. */
  lemma ResolvesExactly(p: FeePolicy, vsize: nat)
    requires vsize >= 1 && p.floor >= 1
    ensures ResolveMinerFee(p, vsize).Ok? <==>
              match p.choice
              case Rate(rate) => p.floor <= rate <= p.ceiling && rate * vsize <= p.maxMinerFeeSats
              case Explicit(sats) =>
                sats >= 0 && p.floor <= sats / vsize <= p.ceiling && sats <= p.maxMinerFeeSats
    ensures ResolveMinerFee(p, vsize).Ok? ==>
              var fee := ResolveMinerFee(p, vsize).value;
              && fee.vsize == vsize && fee.satPerVb == fee.sats / vsize
              && fee.sats == match p.choice case Rate(rate) => rate * vsize case Explicit(sats) => sats
    ensures ResolveMinerFee(p, vsize) == Err(TooLow) <==>
              match p.choice
              case Rate(rate) => rate < p.floor
              case Explicit(sats) => sats < 0 || sats / vsize < p.floor
  {
    if p.choice.Rate? && p.choice.satPerVb > 0 {
      RateOfMultiple(p.choice.satPerVb, vsize);
      assert p.choice.satPerVb * vsize >= 0;
    }
  }

  lemma RateOfMultiple(rate: int, v: nat)
    requires v > 0 && rate > 0
    ensures TruncDiv(rate * v, v) == rate
  {
    assert rate * v >= 0;
    assert (rate * v) / v == rate;
  }

  lemma TruncDivAntitone(a: int, v: nat, w: nat)
    requires 0 < v <= w && a >= 0
    ensures TruncDiv(a, w) <= TruncDiv(a, v)
  {
    var x, y := a / v, a / w;
    if x < y {
      assert a < (x + 1) * v;
      assert y * w <= a;
      assert (x + 1) * v <= y * v by { Mono(x + 1, y, v); }
      assert y * v <= y * w by { Mono(v, w, y); }
    }
  }

  lemma Mono(a: int, b: int, d: nat)
    requires a <= b
    ensures a * d <= b * d && d * a <= d * b
  {
  }

  /** Once a price was acceptable at some size, a refusal at a larger size is final:
      every size above is refused too. */
  lemma RefusalPersists(p: FeePolicy, small: nat, v: nat, w: nat)
    requires 1 <= small <= v <= w && p.floor >= 1
    requires ResolveMinerFee(p, small).Ok? && ResolveMinerFee(p, v).Err?
    ensures ResolveMinerFee(p, w).Err?
  {
    match p.choice
    case Rate(r) =>
      RateOfMultiple(r, small);
      RateOfMultiple(r, v);
      RateOfMultiple(r, w);
      Mono(v, w, r);
    case Explicit(e) =>
      if e >= 0 {
        TruncDivAntitone(e, small, v);
        TruncDivAntitone(e, v, w);
      }
  }

  /** A rate is judged alike at every size except for the absolute cap. */
  lemma RateRefusedSmallIsRefusedLarge(p: FeePolicy, v: nat, w: nat)
    requires 1 <= v <= w && p.choice.Rate?
    requires ResolveMinerFee(p, v).Err?
    ensures ResolveMinerFee(p, w).Err?
  {
    if p.choice.satPerVb > 0 {
      RateOfMultiple(p.choice.satPerVb, v);
      RateOfMultiple(p.choice.satPerVb, w);
      Mono(v, w, p.choice.satPerVb);
    }
  }

  // ── Rate tiers ───────────────────────────────────────────────────────────

  const FALLBACK_SAT_PER_VB: seq<int> := [2, 5, 10]

  /** Tier i before it is compared with the one below: the estimate, or its fallback, raised to the
      floor and then lowered to the ceiling. */
  function Clamped(floor: int, estimates: seq<Option<int>>, i: nat): int
    requires i < |estimates| == 3
  {
    var rate := if estimates[i].None? then FALLBACK_SAT_PER_VB[i] else estimates[i].value;
    var raised := if rate < floor then floor else rate;
    if raised > ABSOLUTE_CEILING_SAT_PER_VB then ABSOLUTE_CEILING_SAT_PER_VB else raised
  }

  /** No tier is cheaper than a slower one. */
  function Tier(floor: int, estimates: seq<Option<int>>, i: nat): int
    requires i < |estimates| == 3
  {
    var rate := Clamped(floor, estimates, i);
    if i == 0 then (if rate < 0 then 0 else rate)
    else if rate < Tier(floor, estimates, i - 1) then Tier(floor, estimates, i - 1) else rate
  }

  /** A tier is the dearest of its own rate and those of the slower tiers. A rate is the node's estimate, or
      2, 5 and 10 sats where there is none, not under the floor and never over 500. */
  lemma {:induction false} TierIs(floor: int, estimates: seq<Option<int>>, i: nat)
    requires i < |estimates| == 3 && floor >= ABSOLUTE_FLOOR_SAT_PER_VB
    ensures var wanted := match estimates[i]
              case Some(rate) => rate
              case None => if i == 0 then 2 else if i == 1 then 5 else 10;
            Clamped(floor, estimates, i)
            == if wanted > 500 || floor > 500 then 500 else if wanted < floor then floor else wanted
    ensures forall j :: 0 <= j <= i ==> Tier(floor, estimates, i) >= Clamped(floor, estimates, j)
    ensures exists j :: 0 <= j <= i && Tier(floor, estimates, i) == Clamped(floor, estimates, j)
    decreases i
  {
    if i == 0 {
      assert Tier(floor, estimates, 0) == Clamped(floor, estimates, 0);
    } else {
      TierIs(floor, estimates, i - 1);
      var j :| 0 <= j <= i - 1 && Tier(floor, estimates, i - 1) == Clamped(floor, estimates, j);
      assert Tier(floor, estimates, i) == Clamped(floor, estimates, i)
             || Tier(floor, estimates, i) == Clamped(floor, estimates, j);
    }
  }

  lemma {:induction false} TierBounds(floor: int, estimates: seq<Option<int>>, i: nat)
    requires i < |estimates| == 3 && floor >= ABSOLUTE_FLOOR_SAT_PER_VB
    ensures Tier(floor, estimates, i) <= ABSOLUTE_CEILING_SAT_PER_VB
    ensures i > 0 ==> Tier(floor, estimates, i - 1) <= Tier(floor, estimates, i)
    ensures floor <= Tier(floor, estimates, i) <==> floor <= ABSOLUTE_CEILING_SAT_PER_VB
  {
    if i > 0 {
      TierBounds(floor, estimates, i - 1);
    }
  }

  /** All three at once: rising, under the ceiling, and above the floor exactly when the floor is
      not above the ceiling. */
  lemma TiersAreClamped(floor: int, estimates: seq<Option<int>>, tiers: seq<int>)
    requires |estimates| == 3 && floor >= ABSOLUTE_FLOOR_SAT_PER_VB
    requires |tiers| == 3 && forall i :: 0 <= i < 3 ==> tiers[i] == Tier(floor, estimates, i)
    ensures tiers[0] <= tiers[1] <= tiers[2]
    ensures forall i :: 0 <= i < 3 ==> tiers[i] <= ABSOLUTE_CEILING_SAT_PER_VB
    ensures (forall i :: 0 <= i < 3 ==> floor <= tiers[i]) <==> floor <= ABSOLUTE_CEILING_SAT_PER_VB
  {
    TierBounds(floor, estimates, 0);
    TierBounds(floor, estimates, 1);
    TierBounds(floor, estimates, 2);
    hide Tier;
    assert floor <= tiers[0] ==> floor <= ABSOLUTE_CEILING_SAT_PER_VB;
  }

  lemma TierStep(floor: int, estimates: seq<Option<int>>, i: nat)
    requires i < |estimates| == 3
    ensures var previous := if i == 0 then 0 else Tier(floor, estimates, i - 1);
            Tier(floor, estimates, i)
            == if Clamped(floor, estimates, i) < previous then previous else Clamped(floor, estimates, i)
  {
  }

  /** A node that relays nothing under 600 sats a vbyte leaves every tier under its floor. */
  lemma FloorAboveCeilingWitness(estimates: seq<Option<int>>, i: nat)
    requires i < |estimates| == 3
    ensures Tier(600, estimates, i) == ABSOLUTE_CEILING_SAT_PER_VB < 600
  {
    if i > 0 {
      FloorAboveCeilingWitness(estimates, i - 1);
    }
  }

  /** The three tiers in order eco, standard, priority; None is a node without an estimate. */
  method LoadFeeRates(mempoolFloor: Option<int>, estimates: seq<Option<int>>)
    returns (floor: int, tiers: seq<int>, estimated: bool)
    requires |estimates| == 3
    ensures floor == if mempoolFloor.Some? && mempoolFloor.value > ABSOLUTE_FLOOR_SAT_PER_VB then mempoolFloor.value
                     else ABSOLUTE_FLOOR_SAT_PER_VB
    ensures |tiers| == 3 && forall i :: 0 <= i < 3 ==> tiers[i] == Tier(floor, estimates, i)
    ensures floor >= ABSOLUTE_FLOOR_SAT_PER_VB && (mempoolFloor.Some? ==> floor >= mempoolFloor.value)
    ensures |tiers| == 3 && tiers[0] <= tiers[1] <= tiers[2]
    ensures forall i :: 0 <= i < 3 ==> tiers[i] <= ABSOLUTE_CEILING_SAT_PER_VB
    // The promised clamp into [floor, ceiling] holds exactly when the node's floor is not above the ceiling.
    ensures (forall i :: 0 <= i < 3 ==> floor <= tiers[i]) <==> floor <= ABSOLUTE_CEILING_SAT_PER_VB
    ensures estimated <==> exists i :: 0 <= i < 3 && estimates[i].None?
  {
    hide Tier;
    var raw := if mempoolFloor.Some? then mempoolFloor.value else ABSOLUTE_FLOOR_SAT_PER_VB;
    floor := if raw > ABSOLUTE_FLOOR_SAT_PER_VB then raw else ABSOLUTE_FLOOR_SAT_PER_VB;
    estimated := false;
    tiers := [];
    var previous := 0;
    for i := 0 to 3
      invariant |tiers| == i
      invariant forall k :: 0 <= k < i ==> tiers[k] == Tier(floor, estimates, k)
      invariant previous == if i == 0 then 0 else Tier(floor, estimates, i - 1)
      invariant estimated <==> exists k :: 0 <= k < i && estimates[k].None?
    {
      TierStep(floor, estimates, i);
      var rate: int;
      if estimates[i].None? {
        estimated := true;
        rate := FALLBACK_SAT_PER_VB[i];
      } else {
        rate := estimates[i].value;
      }
      if rate < floor { rate := floor; }
      if rate > ABSOLUTE_CEILING_SAT_PER_VB { rate := ABSOLUTE_CEILING_SAT_PER_VB; }
      if rate < previous { rate := previous; }
      previous := rate;
      tiers := tiers + [rate];
    }
    TiersAreClamped(floor, estimates, tiers);
  }
}
