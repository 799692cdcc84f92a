/** Token-UTXO accounting: which transfers and redemptions conserve tokens. */
module TokenUtxo {
  import opened Wrappers
  import opened Bytes
  import opened Scripts
  import opened Constants

  type Script = Buffer

  datatype Allocation = Allocation(vout: nat, amount: int)
  datatype TxOutput = TxOutput(script: Script, value: int)

  datatype Reason =
    | NoTokenInput
    | InvalidInputAmount
    | ZeroAllocations
    | ZeroAmount
    | AllocationVoutOutOfRange
    | AllocationToOpReturn
    | DuplicateVout
    | AmountOverflow
    | Inflation
    | BurnOrInconsistentChange
    | RedeemExceedsOwnership

  function SumInts(xs: seq<int>): int {
    if xs == [] then 0 else SumInts(xs[..|xs| - 1]) + xs[|xs| - 1]
  }

  function SumAllocations(allocations: seq<Allocation>): int {
    if allocations == [] then 0
    else SumAllocations(allocations[..|allocations| - 1]) + allocations[|allocations| - 1].amount
  }

  predicate Positive(xs: seq<int>) {
    forall i :: 0 <= i < |xs| ==> xs[i] > 0
  }

  /** Every allocation pays a positive amount to its own spendable output. */
  predicate WellPlaced(allocations: seq<Allocation>, outputs: seq<TxOutput>) {
    && (forall i :: 0 <= i < |allocations| ==>
          && allocations[i].amount > 0
          && allocations[i].vout < |outputs|
          && !IsOpReturn(outputs[allocations[i].vout].script))
    && (forall i, j :: 0 <= i < j < |allocations| ==> allocations[i].vout != allocations[j].vout)
  }

  /** Token conservation for a transfer. */
  predicate TransferConserves(inputs: seq<int>, allocations: seq<Allocation>, outputs: seq<TxOutput>) {
    && inputs != [] && Positive(inputs)
    && allocations != [] && WellPlaced(allocations, outputs)
    && SumAllocations(allocations) == SumInts(inputs) <= U64_MAX
  }

  /** Token conservation for a redemption: redeemed plus handed back is what the inputs held. */
  predicate RedeemConserves(inputs: seq<int>, redeemAmount: int, change: seq<Allocation>, outputs: seq<TxOutput>) {
    && inputs != [] && Positive(inputs) && redeemAmount > 0
    && WellPlaced(change, outputs)
    && redeemAmount + SumAllocations(change) == SumInts(inputs)
  }

  lemma {:induction false} SumAllocationsMono(allocations: seq<Allocation>, i: nat)
    requires i <= |allocations|
    requires forall k :: 0 <= k < |allocations| ==> allocations[k].amount > 0
    ensures 0 <= SumAllocations(allocations[..i]) <= SumAllocations(allocations)
    decreases |allocations|
  {
    if i == |allocations| {
      assert allocations[..i] == allocations;
      if i > 0 {
        SumAllocationsMono(allocations[..i - 1], 0);
        SumAllocationsMono(allocations[..i - 1], i - 1);
      }
    } else {
      var init := allocations[..|allocations| - 1];
      assert allocations[..i] == init[..i];
      SumAllocationsMono(init, i);
    }
  }

  function Vouts(allocations: seq<Allocation>, n: nat): set<nat>
    requires n <= |allocations|
  {
    set i | 0 <= i < n :: allocations[i].vout
  }

  /** One more allocation is well placed exactly when it passes the four checks. */
  lemma WellPlacedStep(allocations: seq<Allocation>, outputs: seq<TxOutput>, k: nat)
    requires k < |allocations|
    ensures var a := allocations[k];
            WellPlaced(allocations[..k + 1], outputs) <==>
            && WellPlaced(allocations[..k], outputs)
            && a.amount > 0 && a.vout < |outputs| && !IsOpReturn(outputs[a.vout].script)
            && a.vout !in Vouts(allocations, k)
    ensures Vouts(allocations, k + 1) == Vouts(allocations, k) + {allocations[k].vout}
    ensures WellPlaced(allocations, outputs) ==> WellPlaced(allocations[..k + 1], outputs)
    ensures allocations[..k + 1][..k] == allocations[..k]
  {
    hide IsOpReturn;
    var init, more := allocations[..k], allocations[..k + 1];
    assert forall i :: 0 <= i < k ==> init[i] == allocations[i] == more[i];
    assert more[k] == allocations[k];
  }

  lemma NothingPlaced(outputs: seq<TxOutput>)
    ensures WellPlaced([], outputs) && forall allocations :: Vouts(allocations, 0) == {}
  {
  }

  lemma PlacedAmountsArePositive(allocations: seq<Allocation>, outputs: seq<TxOutput>)
    requires WellPlaced(allocations, outputs)
    ensures forall k :: 0 <= k < |allocations| ==> allocations[k].amount > 0
  {
  }

  /** A transfer is accepted exactly when it conserves tokens: every input positive, every
      allocation well placed, and the totals equal and within 64 bits. */
  method ValidateTokenTransfer(inputs: seq<int>, allocations: seq<Allocation>, outputs: seq<TxOutput>)
    returns (r: Result<int, Reason>)
    ensures r.Ok? <==> TransferConserves(inputs, allocations, outputs)
    ensures r.Ok? ==> r.value == 0
    ensures r == Err(NoTokenInput) <==> inputs == []
    ensures r == Err(InvalidInputAmount) <==> inputs != [] && !Positive(inputs)
    ensures r == Err(ZeroAllocations) <==> inputs != [] && Positive(inputs) && allocations == []
    ensures r == Err(Inflation) <==>
              && inputs != [] && Positive(inputs) && allocations != [] && WellPlaced(allocations, outputs)
              && SumInts(inputs) < SumAllocations(allocations) <= U64_MAX
  {
    hide WellPlaced, Vouts, IsOpReturn;
    if |inputs| == 0 {
      return Err(NoTokenInput);
    }
    var inputTotal := 0;
    for k := 0 to |inputs|
      invariant inputTotal == SumInts(inputs[..k])
      invariant forall i :: 0 <= i < k ==> inputs[i] > 0
    {
      if inputs[k] <= 0 {
        return Err(InvalidInputAmount);
      }
      assert inputs[..k + 1][..k] == inputs[..k];
      inputTotal := inputTotal + inputs[k];
    }
    assert inputs[..|inputs|] == inputs;
    if |allocations| == 0 {
      return Err(ZeroAllocations);
    }
    NothingPlaced(outputs);
    var seen: set<nat> := {};
    var outputTotal := 0;
    for k := 0 to |allocations|
      invariant outputTotal == SumAllocations(allocations[..k]) <= U64_MAX
      invariant WellPlaced(allocations[..k], outputs)
      invariant seen == Vouts(allocations, k)
    {
      var alloc := allocations[k];
      WellPlacedStep(allocations, outputs, k);
      if alloc.amount <= 0 {
        return Err(ZeroAmount);
      }
      if alloc.vout >= |outputs| {
        return Err(AllocationVoutOutOfRange);
      }
      if IsOpReturn(outputs[alloc.vout].script) {
        return Err(AllocationToOpReturn);
      }
      if alloc.vout in seen {
        return Err(DuplicateVout);
      }
      seen := seen + {alloc.vout};
      outputTotal := outputTotal + alloc.amount;
      assert outputTotal == SumAllocations(allocations[..k + 1]);
      if outputTotal > U64_MAX {
        if WellPlaced(allocations, outputs) {
          PlacedAmountsArePositive(allocations, outputs);
          SumAllocationsMono(allocations, k + 1);
        }
        return Err(AmountOverflow);
      }
    }
    assert allocations[..|allocations|] == allocations;
    if outputTotal > inputTotal {
      return Err(Inflation);
    }
    if outputTotal != inputTotal {
      return Err(BurnOrInconsistentChange);
    }
    r := Ok(0);
  }

  /** A redemption is accepted exactly when what is redeemed plus what is handed back
      equals what the inputs held. */
  method ValidateRedeemTokenAccounting(inputs: seq<int>, redeemAmount: int, change: seq<Allocation>,
                                       outputs: seq<TxOutput>)
    returns (r: Result<int, Reason>)
    ensures r.Ok? <==> RedeemConserves(inputs, redeemAmount, change, outputs)
    ensures r.Ok? ==> r.value == SumAllocations(change)
    ensures r == Err(NoTokenInput) <==> inputs == []
    ensures r == Err(InvalidInputAmount) <==> inputs != [] && !Positive(inputs)
    ensures r == Err(RedeemExceedsOwnership) <==>
              inputs != [] && Positive(inputs) && redeemAmount > 0 && redeemAmount > SumInts(inputs)
  {
    hide WellPlaced, Vouts, IsOpReturn;
    if |inputs| == 0 {
      return Err(NoTokenInput);
    }
    var inputTotal := 0;
    for k := 0 to |inputs|
      invariant inputTotal == SumInts(inputs[..k])
      invariant forall i :: 0 <= i < k ==> inputs[i] > 0
    {
      if inputs[k] <= 0 {
        return Err(InvalidInputAmount);
      }
      assert inputs[..k + 1][..k] == inputs[..k];
      inputTotal := inputTotal + inputs[k];
    }
    assert inputs[..|inputs|] == inputs;
    if redeemAmount <= 0 {
      return Err(ZeroAmount);
    }
    if redeemAmount > inputTotal {
      if WellPlaced(change, outputs) {
        PlacedAmountsArePositive(change, outputs);
        SumAllocationsMono(change, 0);
      }
      return Err(RedeemExceedsOwnership);
    }
    NothingPlaced(outputs);
    var seen: set<nat> := {};
    var changeTotal := 0;
    for k := 0 to |change|
      invariant changeTotal == SumAllocations(change[..k])
      invariant WellPlaced(change[..k], outputs)
      invariant seen == Vouts(change, k)
    {
      var alloc := change[k];
      WellPlacedStep(change, outputs, k);
      if alloc.amount <= 0 {
        return Err(ZeroAmount);
      }
      if alloc.vout >= |outputs| {
        return Err(AllocationVoutOutOfRange);
      }
      if IsOpReturn(outputs[alloc.vout].script) {
        return Err(AllocationToOpReturn);
      }
      if alloc.vout in seen {
        return Err(DuplicateVout);
      }
      seen := seen + {alloc.vout};
      changeTotal := changeTotal + alloc.amount;
    }
    assert change[..|change|] == change;
    if redeemAmount + changeTotal != inputTotal {
      return Err(BurnOrInconsistentChange);
    }
    r := Ok(changeTotal);
  }
}
