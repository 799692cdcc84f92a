/** The unsigned-transaction builder: value and size accounting around explicit protocol
    outputs and one change output. */
module Psbt {
  import opened Wrappers
  import opened Bytes
  import opened Scripts

  const MAX_MONEY_SATS: nat := 2_100_000_000_000_000
  const MAX_OP_RETURN_PAYLOAD: nat := 80

  // ── Scripts and sizes ────────────────────────────────────────────────────

  function InputVsize(s: Buffer): nat {
    if IsP2TR(s) then 58 else if IsP2WPKH(s) then 68 else 148
  }

  function OutputVsize(s: Buffer): nat {
    8 + 1 + |s|
  }

  function LittleEndian(b: Buffer): nat {
    if b == [] then 0 else b[0] as int + 0x100 * LittleEndian(b[1..])
  }

  /** Where the first push of an OP_RETURN script starts and how long it says it is. */
  function PushHeader(s: Buffer): (int, int)
    requires |s| >= 2
  {
    if s[1] == 0x4c then (3, if |s| < 3 then -1 else s[2])
    else if s[1] == 0x4d then (4, if |s| < 4 then -1 else LittleEndian(s[2..4]))
    else if s[1] == 0x4e then (6, if |s| < 6 then -1 else LittleEndian(s[2..6]))
    else (2, s[1])
  }

  /** The first push, when it is there in full. */
  function OpReturnPayload(s: Buffer): Option<Buffer> {
    if |s| < 2 || s[0] != 0x6a then None
    else
      var (offset, len) := PushHeader(s);
      if len < 0 || offset + len > |s| then None else Some(s[offset..offset + len])
  }

  // ── Parameters ───────────────────────────────────────────────────────────

  datatype OutPoint = OutPoint(txid: string, vout: nat)
  datatype Utxo = Utxo(outpoint: OutPoint, script: Buffer, valueSats: int, tapInternalKey: Option<Buffer>)

  /** A raw script, or an address that the network's decoder may refuse. */
  datatype Destination = Raw(script: Buffer) | Address(decoded: Option<Buffer>)
  datatype Output = Output(dest: Destination, valueSats: int)

  datatype Params = Params(
    inputs: seq<Utxo>,
    outputs: seq<Output>,
    changeAddress: Option<Buffer>,
    feeRateSatVb: int,
    maxFeeRateSatVb: int,
    maxMinerFeeSats: int)

  function ScriptOf(d: Destination): Option<Buffer> {
    match d
    case Raw(script) => Some(script)
    case Address(decoded) => decoded
  }

  datatype TxOut = TxOut(script: Buffer, valueSats: int)
  datatype Built = Built(inputs: seq<OutPoint>, outputs: seq<TxOut>, feeSats: int, changeSats: int)

  datatype Error =
    | NoInputs
    | FeeRateNotPositive
    | FeeRateTooHigh
    | InputValueOutOfRange
    | DuplicateInput
    | MissingInternalKey
    | BadInternalKey
    | UnsupportedInput
    | OutputValueOutOfRange
    | BadAddress
    | PayloadTooLong
    | TwoOpReturns
    | InsufficientInputs
    | AccountingMismatch
    | NegativeFee
    | FeeTooHigh

  // ── What the builder accepts ─────────────────────────────────────────────

  function TotalIn(inputs: seq<Utxo>): int {
    if inputs == [] then 0 else TotalIn(inputs[..|inputs| - 1]) + inputs[|inputs| - 1].valueSats
  }

  function TotalOut(outputs: seq<TxOut>): int {
    if outputs == [] then 0 else TotalOut(outputs[..|outputs| - 1]) + outputs[|outputs| - 1].valueSats
  }

  function InputsVsize(inputs: seq<Utxo>): nat {
    if inputs == [] then 0 else InputsVsize(inputs[..|inputs| - 1]) + InputVsize(inputs[|inputs| - 1].script)
  }

  function OutputsVsize(outputs: seq<TxOut>): nat {
    if outputs == [] then 0 else OutputsVsize(outputs[..|outputs| - 1]) + OutputVsize(outputs[|outputs| - 1].script)
  }

  function OpReturns(outputs: seq<TxOut>): nat {
    if outputs == [] then 0
    else OpReturns(outputs[..|outputs| - 1]) + if IsOpReturn(outputs[|outputs| - 1].script) then 1 else 0
  }

  predicate InRange(sats: int) {
    0 <= sats <= MAX_MONEY_SATS
  }

  /** Signable: P2WPKH, or P2TR with its 32-byte internal key. */
  predicate IsSignable(u: Utxo) {
    || IsP2WPKH(u.script)
    || (IsP2TR(u.script) && u.tapInternalKey.Some? && |u.tapInternalKey.value| == 32)
  }

  predicate DistinctOutpoints(inputs: seq<Utxo>) {
    forall i, j :: 0 <= i < j < |inputs| ==> inputs[i].outpoint != inputs[j].outpoint
  }

  predicate GoodInputs(inputs: seq<Utxo>) {
    && DistinctOutpoints(inputs)
    && forall i :: 0 <= i < |inputs| ==> InRange(inputs[i].valueSats) && IsSignable(inputs[i])
  }

  predicate GoodOutput(o: Output) {
    && InRange(o.valueSats)
    && ScriptOf(o.dest).Some?
    && var script := ScriptOf(o.dest).value;
       IsOpReturn(script) && OpReturnPayload(script).Some? ==> |OpReturnPayload(script).value| <= MAX_OP_RETURN_PAYLOAD
  }

  predicate AllGood(outputs: seq<Output>) {
    forall i :: 0 <= i < |outputs| ==> GoodOutput(outputs[i])
  }

  function Resolved(outputs: seq<Output>): seq<TxOut>
    requires AllGood(outputs)
  {
    seq(|outputs|, i requires 0 <= i < |outputs| => TxOut(ScriptOf(outputs[i].dest).value, outputs[i].valueSats))
  }

  /** Overhead, inputs, the segwit marker, protocol outputs, and the change output whether or
      not it ends up in the transaction. */
  function EstimatedVsize(inputs: seq<Utxo>, outputs: seq<TxOut>, changeScript: Buffer): nat {
    10 + InputsVsize(inputs) + 2 + OutputsVsize(outputs) + OutputVsize(changeScript)
  }

  function EstimatedFee(p: Params, changeScript: Buffer): int
    requires AllGood(p.outputs)
  {
    EstimatedVsize(p.inputs, Resolved(p.outputs), changeScript) * p.feeRateSatVb
  }

  /** What is left after protocol outputs and the estimated fee. */
  function Remainder(p: Params, changeScript: Buffer): int
    requires AllGood(p.outputs)
  {
    TotalIn(p.inputs) - TotalOut(Resolved(p.outputs)) - EstimatedFee(p, changeScript)
  }

  /** A remainder below dust goes to the miner. */
  function FoldedDust(p: Params, changeScript: Buffer): int
    requires AllGood(p.outputs)
  {
    if Remainder(p, changeScript) < DustThreshold(changeScript) then Remainder(p, changeScript) else 0
  }

  predicate Buildable(p: Params) {
    && p.inputs != []
    && 0 < p.feeRateSatVb <= p.maxFeeRateSatVb
    && GoodInputs(p.inputs)
    && AllGood(p.outputs)
    && OpReturns(Resolved(p.outputs)) <= 1
    && p.changeAddress.Some?
    && Remainder(p, p.changeAddress.value) >= 0
    && EstimatedFee(p, p.changeAddress.value) + FoldedDust(p, p.changeAddress.value) <= p.maxMinerFeeSats
  }

  // ── The transaction under construction ───────────────────────────────────

  class Transaction {
    var inputs: seq<OutPoint>
    var outputs: seq<TxOut>

    constructor ()
      ensures inputs == [] && outputs == []
    {
      inputs, outputs := [], [];
    }

    method AddInput(o: OutPoint)
      modifies this`inputs
      ensures inputs == old(inputs) + [o]
    {
      inputs := inputs + [o];
    }

    method AddOutput(o: TxOut)
      modifies this`outputs
      ensures outputs == old(outputs) + [o]
    {
      outputs := outputs + [o];
    }

    method OutputTotal() returns (total: int)
      ensures total == TotalOut(outputs)
    {
      total := 0;
      for i := 0 to |outputs|
        invariant total == TotalOut(outputs[..i])
      {
        assert outputs[..i + 1][..i] == outputs[..i];
        total := total + outputs[i].valueSats;
      }
      assert outputs[..|outputs|] == outputs;
    }
  }

  function OutpointsOf(inputs: seq<Utxo>): (r: seq<OutPoint>)
    ensures |r| == |inputs| && forall i :: 0 <= i < |inputs| ==> r[i] == inputs[i].outpoint
  {
    seq(|inputs|, i requires 0 <= i < |inputs| => inputs[i].outpoint)
  }

  function OutpointSet(inputs: seq<Utxo>, n: nat): set<OutPoint>
    requires n <= |inputs|
  {
    set i | 0 <= i < n :: inputs[i].outpoint
  }

  lemma GoodInputsStep(inputs: seq<Utxo>, i: nat)
    requires i < |inputs|
    ensures GoodInputs(inputs[..i + 1]) <==>
            && GoodInputs(inputs[..i])
            && InRange(inputs[i].valueSats) && IsSignable(inputs[i])
            && inputs[i].outpoint !in OutpointSet(inputs, i)
    ensures OutpointSet(inputs, i + 1) == OutpointSet(inputs, i) + {inputs[i].outpoint}
    ensures GoodInputs(inputs) ==> GoodInputs(inputs[..i + 1])
  {
    hide IsSignable;
    var init, more := inputs[..i], inputs[..i + 1];
    assert forall k :: 0 <= k < i ==> init[k] == inputs[k] == more[k];
    assert more[i] == inputs[i];
  }

  lemma NoInputsAreGood()
    ensures GoodInputs([])
    ensures forall inputs :: OutpointSet(inputs, 0) == {}
  {
  }

  method AddInputs(tx: Transaction, inputs: seq<Utxo>)
    returns (error: Option<Error>, totalIn: int, vsize: nat, hasWitness: bool)
    modifies tx`inputs
    ensures error != Some(AccountingMismatch) && error != Some(NegativeFee)
    ensures error.None? <==> GoodInputs(inputs)
    ensures error.None? ==>
              && tx.inputs == old(tx.inputs) + OutpointsOf(inputs)
              && totalIn == TotalIn(inputs) && vsize == 10 + InputsVsize(inputs) && (hasWitness <==> inputs != [])
  {
    hide GoodInputs, OutpointSet;
    totalIn, vsize, hasWitness := 0, 10, false;
    NoInputsAreGood();
    var seen: set<OutPoint> := {};
    for i := 0 to |inputs|
      invariant GoodInputs(inputs[..i])
      invariant seen == OutpointSet(inputs, i)
      invariant tx.inputs == old(tx.inputs) + OutpointsOf(inputs[..i])
      invariant totalIn == TotalIn(inputs[..i]) && vsize == 10 + InputsVsize(inputs[..i]) && (hasWitness <==> i > 0)
    {
      var u := inputs[i];
      assert inputs[..i + 1][..i] == inputs[..i];
      GoodInputsStep(inputs, i);
      if u.valueSats < 0 || u.valueSats > MAX_MONEY_SATS {
        return Some(InputValueOutOfRange), totalIn, vsize, hasWitness;
      }
      if u.outpoint in seen {
        return Some(DuplicateInput), totalIn, vsize, hasWitness;
      }
      seen := seen + {u.outpoint};
      totalIn := totalIn + u.valueSats;
      if IsP2WPKH(u.script) {
        hasWitness := true;
        vsize := vsize + InputVsize(u.script);
        tx.AddInput(u.outpoint);
      } else if IsP2TR(u.script) {
        hasWitness := true;
        vsize := vsize + InputVsize(u.script);
        if u.tapInternalKey.None? {
          return Some(MissingInternalKey), totalIn, vsize, hasWitness;
        }
        if |u.tapInternalKey.value| != 32 {
          return Some(BadInternalKey), totalIn, vsize, hasWitness;
        }
        tx.AddInput(u.outpoint);
      } else {
        return Some(UnsupportedInput), totalIn, vsize, hasWitness;
      }
    }
    assert inputs[..|inputs|] == inputs;
    error := None;
  }

  method AddOutputs(tx: Transaction, outputs: seq<Output>)
    returns (error: Option<Error>, total: int, vsize: nat, opReturns: nat)
    modifies tx`outputs
    ensures error != Some(AccountingMismatch) && error != Some(NegativeFee)
    ensures error.None? <==> AllGood(outputs)
    ensures error.None? ==>
              && tx.outputs == old(tx.outputs) + Resolved(outputs)
              && total == TotalOut(Resolved(outputs))
              && vsize == OutputsVsize(Resolved(outputs))
              && opReturns == OpReturns(Resolved(outputs))
  {
    total, vsize, opReturns := 0, 0, 0;
    for i := 0 to |outputs|
      invariant AllGood(outputs[..i])
      invariant tx.outputs == old(tx.outputs) + Resolved(outputs[..i])
      invariant total == TotalOut(Resolved(outputs[..i]))
      invariant vsize == OutputsVsize(Resolved(outputs[..i]))
      invariant opReturns == OpReturns(Resolved(outputs[..i]))
    {
      hide OpReturnPayload;
      var o := outputs[i];
      assert outputs[..i + 1][i] == o;
      if o.valueSats < 0 || o.valueSats > MAX_MONEY_SATS {
        return Some(OutputValueOutOfRange), total, vsize, opReturns;
      }
      var resolved := ScriptOf(o.dest);
      if resolved.None? {
        return Some(BadAddress), total, vsize, opReturns;
      }
      var script := resolved.value;
      if IsOpReturn(script) {
        opReturns := opReturns + 1;
        var payload := OpReturnPayload(script);
        if payload.Some? && |payload.value| > MAX_OP_RETURN_PAYLOAD {
          return Some(PayloadTooLong), total, vsize, opReturns;
        }
      }
      total := total + o.valueSats;
      vsize := vsize + OutputVsize(script);
      tx.AddOutput(TxOut(script, o.valueSats));
      assert Resolved(outputs[..i + 1])[..i] == Resolved(outputs[..i]);
      assert Resolved(outputs[..i + 1])[i] == TxOut(script, o.valueSats);
      assert Resolved(outputs[..i + 1]) == Resolved(outputs[..i]) + [TxOut(script, o.valueSats)];
    }
    assert outputs[..|outputs|] == outputs;
    error := None;
  }

  /** Builds exactly the buildable parameters. The two consistency checks on the way out never
      fail: the tracked total is the transaction's, and the fee is not negative. */
  method BuildUnsignedPsbt(p: Params) returns (r: Result<Built, Error>)
    ensures r.Ok? <==> Buildable(p)
    ensures r.Ok? ==> Accounted(p, r.value)
    ensures r != Err(AccountingMismatch) && r != Err(NegativeFee)
  {
    hide DustThreshold, GoodInputs, AllGood, TotalIn, TotalOut, OutputsVsize, InputsVsize, OpReturns;
    if |p.inputs| == 0 {
      return Err(NoInputs);
    }
    if p.feeRateSatVb <= 0 {
      return Err(FeeRateNotPositive);
    }
    if p.feeRateSatVb > p.maxFeeRateSatVb {
      return Err(FeeRateTooHigh);
    }
    var tx := new Transaction();
    var error, totalIn, vsize, hasWitness := AddInputs(tx, p.inputs);
    if error.Some? {
      return Err(error.value);
    }
    if hasWitness {
      vsize := vsize + 2;
    }
    var outError, totalProtocolOut, outVsize, opReturnCount := AddOutputs(tx, p.outputs);
    if outError.Some? {
      return Err(outError.value);
    }
    assert tx.inputs == OutpointsOf(p.inputs) && tx.outputs == Resolved(p.outputs);
    vsize := vsize + outVsize;
    var trackedOutTotal := totalProtocolOut;
    if opReturnCount > 1 {
      return Err(TwoOpReturns);
    }
    if p.changeAddress.None? {
      return Err(BadAddress);
    }
    var changeScript := p.changeAddress.value;
    vsize := vsize + OutputVsize(changeScript);
    var estFee := vsize * p.feeRateSatVb;
    var changeSats := totalIn - totalProtocolOut - estFee;
    if changeSats < 0 {
      return Err(InsufficientInputs);
    }
    if changeSats >= DustThreshold(changeScript) {
      tx.AddOutput(TxOut(changeScript, changeSats));
      trackedOutTotal := trackedOutTotal + changeSats;
      TotalOfAppended(Resolved(p.outputs), TxOut(changeScript, changeSats));
    } else {
      changeSats := 0;
    }
    assert estFee > 0 by { PositiveProduct(vsize, p.feeRateSatVb); }
    var txOutTotal := tx.OutputTotal();
    if trackedOutTotal != txOutTotal {
      return Err(AccountingMismatch);
    }
    var actualFee := totalIn - txOutTotal;
    if actualFee < 0 {
      return Err(NegativeFee);
    }
    if actualFee > p.maxMinerFeeSats {
      return Err(FeeTooHigh);
    }
    r := Ok(Built(tx.inputs, tx.outputs, actualFee, changeSats));
  }

  lemma PositiveProduct(a: int, b: int)
    requires a > 0 && b > 0
    ensures a * b > 0
  {
  }

  lemma TotalOfAppended(outputs: seq<TxOut>, o: TxOut)
    ensures TotalOut(outputs + [o]) == TotalOut(outputs) + o.valueSats
  {
    assert (outputs + [o])[..|outputs|] == outputs;
  }

  // ── What a built transaction guarantees ──────────────────────────────────

  /** Value is conserved; no outpoint is spent twice; the protocol outputs come first, then at
      most one change output, which is not dust; and the fee is the estimate plus less than one
      dust of folded change, within the cap. */
  ghost predicate Accounted(p: Params, b: Built)
    requires Buildable(p)
  {
    var changeScript := p.changeAddress.value;
    var outs, dust, estimate := Resolved(p.outputs), DustThreshold(changeScript), EstimatedFee(p, changeScript);
    && b.inputs == OutpointsOf(p.inputs)
    && TotalIn(p.inputs) == TotalOut(b.outputs) + b.feeSats
    && (|| (&& b.outputs == outs && b.changeSats == 0
            && estimate <= b.feeSats < estimate + dust)
        || (&& b.outputs == outs + [TxOut(changeScript, b.changeSats)] && b.changeSats >= dust
            && b.feeSats == estimate))
    && b.feeSats <= p.maxMinerFeeSats
  }

  lemma {:induction false} OpReturnCount(outputs: seq<TxOut>, i: nat, j: nat)
    requires i < j < |outputs| && IsOpReturn(outputs[i].script) && IsOpReturn(outputs[j].script)
    ensures OpReturns(outputs) >= 2
  {
    var n := |outputs| - 1;
    if j < n {
      OpReturnCount(outputs[..n], i, j);
    } else {
      OneOpReturn(outputs[..n], i);
    }
  }

  lemma {:induction false} OneOpReturn(outputs: seq<TxOut>, i: nat)
    requires i < |outputs| && IsOpReturn(outputs[i].script)
    ensures OpReturns(outputs) >= 1
  {
    if i < |outputs| - 1 {
      OneOpReturn(outputs[..|outputs| - 1], i);
    }
  }

  /** The guarantees spelled out: conservation over every output actually present, distinct
      inputs, at most one OP_RETURN among the protocol outputs, change zero or at least dust, and
      the fee between rate times size and that plus dust. */
  lemma BuiltIsSafe(p: Params, b: Built)
    requires Buildable(p) && Accounted(p, b)
    ensures var changeScript := p.changeAddress.value;
            var floor := p.feeRateSatVb * EstimatedVsize(p.inputs, Resolved(p.outputs), changeScript);
            && TotalIn(p.inputs) == TotalOut(Resolved(p.outputs)) + b.changeSats + b.feeSats
            && (b.changeSats == 0 || b.changeSats >= DustThreshold(changeScript))
            && floor <= b.feeSats
            && (b.feeSats < floor + DustThreshold(changeScript) || b.feeSats == floor)
            && b.feeSats <= p.maxMinerFeeSats
    ensures forall i, j :: 0 <= i < j < |b.inputs| ==> b.inputs[i] != b.inputs[j]
    ensures forall i, j :: 0 <= i < j < |p.outputs| && IsOpReturn(b.outputs[i].script) ==>
            !IsOpReturn(b.outputs[j].script)
  {
    hide DustThreshold, TotalIn, EstimatedVsize, OpReturnPayload, TotalOut, OpReturns;
    var changeScript := p.changeAddress.value;
    var outs := Resolved(p.outputs);
    assert |b.outputs| >= |outs| && forall i :: 0 <= i < |outs| ==> b.outputs[i] == outs[i];
    if b.outputs != outs {
      TotalOfAppended(outs, TxOut(changeScript, b.changeSats));
    }
    forall i, j | 0 <= i < j < |p.outputs| && IsOpReturn(b.outputs[i].script)
      ensures !IsOpReturn(b.outputs[j].script)
    {
      if IsOpReturn(b.outputs[j].script) {
        OpReturnCount(outs, i, j);
      }
    }
  }

  // ── What is built ────────────────────────────────────────────────────────

  /** How many inputs spend Taproot outputs. */
  function TaprootInputs(inputs: seq<Utxo>): (n: nat)
    ensures n <= |inputs|
  {
    if inputs == [] then 0
    else TaprootInputs(inputs[..|inputs| - 1]) + if IsP2TR(inputs[|inputs| - 1].script) then 1 else 0
  }

  function ScriptBytes(outputs: seq<TxOut>): nat {
    if outputs == [] then 0 else ScriptBytes(outputs[..|outputs| - 1]) + |outputs[|outputs| - 1].script|
  }

  lemma {:induction false} SizeOfInputs(inputs: seq<Utxo>)
    requires forall i :: 0 <= i < |inputs| ==> IsSignable(inputs[i])
    ensures InputsVsize(inputs) == 68 * |inputs| - 10 * TaprootInputs(inputs)
    decreases |inputs|
  {
    if inputs != [] {
      SizeOfInputs(inputs[..|inputs| - 1]);
    }
  }

  lemma {:induction false} SizeOfOutputs(outputs: seq<TxOut>)
    ensures OutputsVsize(outputs) == 9 * |outputs| + ScriptBytes(outputs)
    decreases |outputs|
  {
    if outputs != [] {
      SizeOfOutputs(outputs[..|outputs| - 1]);
    }
  }

  /** What a built transaction is: the inputs and the outputs asked for, in order, and then a change output
      exactly when what is left after outputs and priced fee is at least dust; else the miner gets it. */
  lemma BuiltInOrder(p: Params, b: Built)
    requires Buildable(p) && Accounted(p, b)
    ensures |b.inputs| == |p.inputs| && forall i :: 0 <= i < |p.inputs| ==> b.inputs[i] == p.inputs[i].outpoint
    ensures var outs, change := Resolved(p.outputs), p.changeAddress.value;
            var fee := EstimatedVsize(p.inputs, outs, change) * p.feeRateSatVb;
            var left := TotalIn(p.inputs) - TotalOut(outs) - fee;
            && |outs| == |p.outputs| && |b.outputs| == |outs| + (if left >= DustThreshold(change) then 1 else 0)
            && (forall i :: 0 <= i < |outs| ==>
                  && b.outputs[i].valueSats == p.outputs[i].valueSats
                  && Some(b.outputs[i].script) == ScriptOf(p.outputs[i].dest))
            && (if left >= DustThreshold(change) then
                  b.outputs[|outs|] == TxOut(change, left) && b.changeSats == left && b.feeSats == fee
                else b.changeSats == 0 && b.feeSats == fee + left)
  {
    hide DustThreshold, TotalIn, TotalOut, EstimatedVsize, OpReturnPayload, GoodInputs, OpReturns;
    var outs, change := Resolved(p.outputs), p.changeAddress.value;
    assert forall i :: 0 <= i < |outs| ==> b.outputs[i] == outs[i];
    if b.outputs != outs {
      TotalOfAppended(outs, TxOut(change, b.changeSats));
    }
  }

  /** The size a build is priced at: 58 vbytes for a Taproot input and 68 for a native one, nine bytes
      and its script for each output and the change, and twelve for the rest. */
  lemma EstimateIs(inputs: seq<Utxo>, outputs: seq<TxOut>, changeScript: Buffer)
    requires GoodInputs(inputs)
    ensures EstimatedVsize(inputs, outputs, changeScript)
            == 12 + 58 * TaprootInputs(inputs) + 68 * (|inputs| - TaprootInputs(inputs))
               + 9 * (|outputs| + 1) + ScriptBytes(outputs) + |changeScript|
  {
    SizeOfInputs(inputs);
    SizeOfOutputs(outputs);
  }

  lemma {:induction false} NoOpReturns(outputs: seq<TxOut>)
    ensures OpReturns(outputs) == 0 <==> forall i :: 0 <= i < |outputs| ==> !IsOpReturn(outputs[i].script)
    decreases |outputs|
  {
    if outputs != [] {
      NoOpReturns(outputs[..|outputs| - 1]);
    }
  }

  lemma {:induction false} AtMostOneOpReturn(outputs: seq<TxOut>)
    ensures OpReturns(outputs) <= 1 <==>
              forall i, j :: 0 <= i < j < |outputs| && IsOpReturn(outputs[i].script) ==> !IsOpReturn(outputs[j].script)
    decreases |outputs|
  {
    if outputs != [] {
      var init := outputs[..|outputs| - 1];
      AtMostOneOpReturn(init);
      NoOpReturns(init);
      assert forall i :: 0 <= i < |init| ==> init[i] == outputs[i];
    }
  }

  /** Sats in [0, 21 million coins]. */
  predicate IsMoney(sats: int) {
    0 <= sats <= 2_100_000_000_000_000
  }

  /** A build succeeds exactly for some inputs, a rate within its bounds, distinct inputs of P2WPKH or of
      P2TR with a 32-byte key, amounts in range, outputs that decode with short first pushes, at most
      one OP_RETURN, and inputs that cover the outputs and a fee within the cap. */
  lemma BuildsExactly(p: Params)
    ensures Buildable(p) <==>
              && |p.inputs| > 0 && p.feeRateSatVb > 0 && p.feeRateSatVb <= p.maxFeeRateSatVb
              && (forall i, j :: 0 <= i < j < |p.inputs| ==> p.inputs[i].outpoint != p.inputs[j].outpoint)
              && (forall i :: 0 <= i < |p.inputs| ==>
                    var u := p.inputs[i];
                    && IsMoney(u.valueSats)
                    && (IsP2WPKH(u.script)
                        || (IsP2TR(u.script) && u.tapInternalKey.Some? && |u.tapInternalKey.value| == 32)))
              && (forall i :: 0 <= i < |p.outputs| ==>
                    && IsMoney(p.outputs[i].valueSats)
                    && ScriptOf(p.outputs[i].dest).Some?
                    && (IsOpReturn(ScriptOf(p.outputs[i].dest).value) ==>
                          var payload := OpReturnPayload(ScriptOf(p.outputs[i].dest).value);
                          payload.None? || |payload.value| <= 80))
              && AllGood(p.outputs)
              && (forall i, j :: 0 <= i < j < |p.outputs| && IsOpReturn(ScriptOf(p.outputs[i].dest).value) ==>
                    !IsOpReturn(ScriptOf(p.outputs[j].dest).value))
              && p.changeAddress.Some?
              && var change, outs := p.changeAddress.value, Resolved(p.outputs);
                 var fee := EstimatedVsize(p.inputs, outs, change) * p.feeRateSatVb;
                 var left := TotalIn(p.inputs) - TotalOut(outs) - fee;
                 && left >= 0
                 && fee + (if left < DustThreshold(change) then left else 0) <= p.maxMinerFeeSats
  {
    hide DustThreshold, EstimatedVsize, OpReturnPayload, TotalIn, TotalOut, IsP2WPKH, IsP2TR;
    if AllGood(p.outputs) {
      AtMostOneOpReturn(Resolved(p.outputs));
      assert forall i :: 0 <= i < |p.outputs| ==> Resolved(p.outputs)[i].script == ScriptOf(p.outputs[i].dest).value;
    }
  }

  // ── The OP_RETURN limit ──────────────────────────────────────────────────

  /** The first push is declared in full and every byte of it is there. */
  predicate FirstPushIsComplete(s: Buffer) {
    && |s| >= 2
    && PushHeader(s).1 >= 0
    && PushHeader(s).0 + PushHeader(s).1 <= |s|
  }

  /** An OP_RETURN output is accepted exactly when its first push is missing or incomplete, or
      holds at most 80 bytes; what follows the push does not matter. */
  lemma OpReturnAcceptedExactly(s: Buffer, valueSats: int)
    requires IsOpReturn(s) && InRange(valueSats)
    ensures GoodOutput(Output(Raw(s), valueSats)) <==>
            FirstPushIsComplete(s) ==> PushHeader(s).1 <= MAX_OP_RETURN_PAYLOAD
  {
    hide LittleEndian;
  }

  /** A script that is one complete push is limited as documented. */
  lemma WholePushIsLimited(s: Buffer, valueSats: int)
    requires IsOpReturn(s) && InRange(valueSats)
    requires FirstPushIsComplete(s) && PushHeader(s).0 + PushHeader(s).1 == |s|
    ensures GoodOutput(Output(Raw(s), valueSats)) <==> |s| - PushHeader(s).0 <= MAX_OP_RETURN_PAYLOAD
  {
    OpReturnAcceptedExactly(s, valueSats);
  }

  /** With more than 80 bytes after the opcode and the push header, a script passes exactly when
      its first push is short or runs past the end. */
  lemma LongScriptAcceptedExactly(s: Buffer, valueSats: int)
    requires IsOpReturn(s) && InRange(valueSats)
    requires |s| >= 2 && |s| - PushHeader(s).0 > MAX_OP_RETURN_PAYLOAD
    ensures GoodOutput(Output(Raw(s), valueSats)) <==>
            PushHeader(s).1 <= MAX_OP_RETURN_PAYLOAD || PushHeader(s).1 > |s| - PushHeader(s).0
  {
    OpReturnAcceptedExactly(s, valueSats);
  }

  function FromLittleEndian(v: nat, width: nat): (b: Buffer)
    ensures |b| == width
  {
    if width == 0 then [] else [v % 0x100] + FromLittleEndian(v / 0x100, width - 1)
  }

  lemma {:induction false} LittleEndianReads(v: nat, width: nat)
    requires v < Pow256(width)
    ensures LittleEndian(FromLittleEndian(v, width)) == v
  {
    if width > 0 {
      LittleEndianReads(v / 0x100, width - 1);
      assert FromLittleEndian(v, width)[1..] == FromLittleEndian(v / 0x100, width - 1);
    }
  }

  /** One push as the script compiler writes it: an opcode for the empty buffer and for a byte that
      has one, otherwise the shortest length prefix. Data beyond four length bytes throws. */
  function Push(data: Buffer): Option<Buffer> {
    if data == [] then Some([0x00])
    else if |data| == 1 && 1 <= data[0] <= 16 then Some([0x50 + data[0]])
    else if data == [0x81] then Some([0x4f])
    else if |data| < 0x4c then Some([|data|] + data)
    else if |data| < 0x100 then Some([0x4c, |data|] + data)
    else if |data| < 0x1_0000 then Some([0x4d] + FromLittleEndian(|data|, 2) + data)
    else if |data| < 0x1_0000_0000 then Some([0x4e] + FromLittleEndian(|data|, 4) + data)
    else None
  }

  function OpReturnScriptData(data: Buffer): Option<Buffer> {
    var push :- Push(data);
    Some([0x6a] + push)
  }

  /** A length prefix of its own bytes reads back, and the script ends with the push. */
  lemma WidePushReads(data: Buffer, opcode: Byte, width: nat)
    requires (opcode == 0x4d && width == 2 && |data| < 0x1_0000)
             || (opcode == 0x4e && width == 4 && |data| < 0x1_0000_0000)
    ensures var s := [0x6a] + ([opcode] + FromLittleEndian(|data|, width) + data);
            PushHeader(s) == (2 + width, |data|) && |s| == 2 + width + |data|
  {
    var s := [0x6a] + ([opcode] + FromLittleEndian(|data|, width) + data);
    assert s[1] == opcode;
    assert s[2..2 + width] == FromLittleEndian(|data|, width);
    assert Pow256(2) == 0x1_0000 && Pow256(3) == 0x100_0000 && Pow256(4) == 0x1_0000_0000;
    LittleEndianReads(|data|, width);
  }

  /** So every payload of the protocol's own script builder is held to 80 bytes. */
  lemma OwnPayloadIsLimited(data: Buffer, valueSats: int)
    requires InRange(valueSats)
    ensures OpReturnScriptData(data).Some? <==> |data| < 0x1_0000_0000
    ensures OpReturnScriptData(data).Some? ==>
              (GoodOutput(Output(Raw(OpReturnScriptData(data).value), valueSats)) <==> |data| <= MAX_OP_RETURN_PAYLOAD)
  {
    hide LittleEndian, FromLittleEndian, GoodOutput;
    if OpReturnScriptData(data).Some? {
      var s := OpReturnScriptData(data).value;
      assert s[0] == 0x6a;
      if |data| >= 0x1_0000 {
        WidePushReads(data, 0x4e, 4);
      } else if |data| >= 0x100 {
        WidePushReads(data, 0x4d, 2);
      }
      OpReturnAcceptedExactly(s, valueSats);
    }
  }

  /** Two ways past the limit: any number of bytes behind a one-byte push, */
  lemma LongOpReturnIsAccepted(rest: Buffer)
    ensures GoodOutput(Output(Raw([0x6a, 0x01, 0x00] + rest), 0))
  {
    var script: Buffer := [0x6a, 0x01, 0x00] + rest;
    assert script[0] == 0x6a && script[1] == 0x01;
    OpReturnAcceptedExactly(script, 0);
  }

  /** and up to 254 bytes under a header that declares one more than is there. */
  lemma IncompletePushIsAccepted(rest: Buffer)
    requires |rest| < 255
    ensures GoodOutput(Output(Raw([0x6a, 0x4c, 0xff] + rest), 0))
  {
    var script: Buffer := [0x6a, 0x4c, 0xff] + rest;
    assert script[0] == 0x6a && script[1] == 0x4c && script[2] == 0xff;
    OpReturnAcceptedExactly(script, 0);
  }
}
