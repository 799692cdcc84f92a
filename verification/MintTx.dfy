/** The V1 mint transaction: a builder that lays out the canonical PSBT, and a validator that
    re-derives everything from the previous state and trusts nothing in the PSBT. */
module MintTx {
  import opened Wrappers
  import opened Constants
  import opened Bytes
  import opened Scripts
  import opened Rounding
  import Backing
  import V1 = CoveV1

  const TOKEN_COMMITMENT_SATS: nat := 1_000
  const MAX_FEE_SATS: nat := 50_000
  const PRIMARY_MINT_FEE_BPS: nat := 100
  const COVE_STATE_VERSION: int := 1
  const MAX_STATE_STAGE: int := 20

  // ── States and scripts ───────────────────────────────────────────────────

  datatype Phase = PublicMint | Graduated | Liquidity

  datatype State = State(
    version: int,
    tokenId: string,
    phase: Phase,
    publicSupplyAtoms: int,
    reserveSats: int,
    curveStage: int)

  type Key = Buffer

  /** The output script commits to the state and the internal key; every other script is bytes. */
  datatype Script = StateScript(state: State, key: Key) | Plain(bytes: Buffer)

  predicate IsTokenIdHex(id: string) {
    |id| == 64 && forall i :: 0 <= i < 64 ==> IsLowerHex(id[i])
  }

  predicate IsZeroId(id: string) {
    |id| == 64 && forall i :: 0 <= i < 64 ==> id[i] == '0'
  }

  /** The 51-byte encoding refuses anything else; its stage is one of twenty. */
  predicate Serializable(s: State) {
    && s.version == COVE_STATE_VERSION
    && IsTokenIdHex(s.tokenId)
    && 0 <= s.publicSupplyAtoms <= U64_MAX
    && 0 <= s.reserveSats <= U64_MAX
    && 1 <= s.curveStage <= MAX_STATE_STAGE
  }

  /** Q(state): throws when the state has no encoding. */
  function StateOutputScript(s: State, key: Key): Option<Script> {
    if Serializable(s) then Some(StateScript(s, key)) else None
  }

  /** P2TR or P2WPKH. A state script is P2TR. */
  predicate IsWellFormedCommitment(script: Script) {
    match script
    case StateScript(_, _) => true
    case Plain(b) => IsP2TR(b) || IsP2WPKH(b)
  }

  // ── The transition ───────────────────────────────────────────────────────

  datatype CovenantError = ZeroMint | SubtokenMint | Overmint | EconomicDust
  datatype Minted = Minted(next: State, contribution: int)

  function ApplyMint(prev: State, amount: int): Result<Minted, CovenantError> {
    var nextSupply := prev.publicSupplyAtoms + amount;
    if amount <= 0 then Err(ZeroMint)
    else if amount % ATOMS_PER_TOKEN != 0 then Err(SubtokenMint)
    else if nextSupply > PUBLIC_SUPPLY_ATOMS then Err(Overmint)
    else
      match Backing.GrossBuy(TruncDiv(prev.publicSupplyAtoms, ATOMS_PER_TOKEN), amount / ATOMS_PER_TOKEN)
      case Err(e) => Err(if e == Backing.BackingError.EconomicDust then EconomicDust else Overmint)
      case Ok(gross) =>
        Ok(Minted(prev.(publicSupplyAtoms := nextSupply,
                        reserveSats := prev.reserveSats + gross,
                        curveStage := V1.StageForSupply(nextSupply / ATOMS_PER_TOKEN)),
                  gross))
  }

  function PlatformFee(contribution: int): nat {
    CeilDiv(contribution * PRIMARY_MINT_FEE_BPS, 10_000)
  }

  /** One percent of what the mint moves, rounded up. */
  lemma PlatformFeeIsOnePercent(contribution: int)
    ensures contribution > 0 ==> 100 * (PlatformFee(contribution) - 1) < contribution <= 100 * PlatformFee(contribution)
    ensures contribution <= 0 ==> PlatformFee(contribution) == 0
  {
  }

  // ── Transactions ─────────────────────────────────────────────────────────

  datatype Network = Mainnet | Signet | Regtest | Testnet
  datatype NetworkParams = BitcoinParams | TestnetParams | RegtestParams

  function ParamsFor(n: Network): NetworkParams {
    match n
    case Mainnet => BitcoinParams
    case Signet => TestnetParams
    case Testnet => TestnetParams
    case Regtest => RegtestParams
  }

  datatype Prevout = Prevout(script: Script, valueSats: int)
  datatype TxIn = TxIn(txid: string, vout: nat, prevout: Option<Prevout>)
  datatype TxOut = TxOut(script: Script, valueSats: int)
  datatype Tx = Tx(network: NetworkParams, inputs: seq<TxIn>, outputs: seq<TxOut>)

  class Psbt {
    const network: NetworkParams
    var inputs: seq<TxIn>
    var outputs: seq<TxOut>

    constructor (network: NetworkParams)
      ensures Contents() == Tx(network, [], [])
    {
      this.network := network;
      inputs, outputs := [], [];
    }

    function Contents(): Tx
      reads this
    {
      Tx(network, inputs, outputs)
    }

    method AddInput(input: TxIn)
      modifies this
      ensures Contents() == old(Contents()).(inputs := old(inputs) + [input])
    {
      inputs := inputs + [input];
    }

    method AddOutput(output: TxOut)
      modifies this
      ensures Contents() == old(Contents()).(outputs := old(outputs) + [output])
    {
      outputs := outputs + [output];
    }
  }

  datatype Intent = Intent(prevState: State, amountAtoms: int, recipientCommitment: Script, platformFeeScript: Script)

  predicate HasPrevouts(inputs: seq<TxIn>) {
    forall i :: 0 <= i < |inputs| ==> inputs[i].prevout.Some?
  }

  /** The indices of the inputs that spend the state script, in order. */
  function StateInputs(inputs: seq<TxIn>, script: Script): (indices: seq<nat>)
    requires HasPrevouts(inputs)
  {
    if inputs == [] then []
    else
      var n := |inputs| - 1;
      StateInputs(inputs[..n], script) + (if inputs[n].prevout.value.script == script then [n] else [])
  }

  function TotalIn(inputs: seq<TxIn>): int
    requires HasPrevouts(inputs)
  {
    if inputs == [] then 0 else TotalIn(inputs[..|inputs| - 1]) + inputs[|inputs| - 1].prevout.value.valueSats
  }

  function TotalOut(outputs: seq<TxOut>): int {
    if outputs == [] then 0 else TotalOut(outputs[..|outputs| - 1]) + outputs[|outputs| - 1].valueSats
  }

  // ── What acceptance means ────────────────────────────────────────────────

  datatype Reason =
    | MainnetNotActivated
    | WrongNetwork
    | InvalidStateVersion
    | InvalidTokenId
    | SupplyOutOfRange
    | SupplyNotAtomic
    | CurveStageMismatch
    | ReserveNegative
    | PhaseNotPublicMint
    | InvalidTransition
    | RecipientMalformed
    | PlatformFeeMalformed
    | StateInputNotFound
    | MultipleStateInputs
    | StateInputWrongValue
    | NoBuyerInput
    | OutputLayoutIncomplete
    | SuccessorScriptMismatch
    | ReserveContributionMismatch
    | RecipientOutputMismatch
    | PlatformFeeMismatch
    | ExtraUnauthorizedOutput
    | FeeOutOfRange
    | CurvePaymentMismatch

  datatype Thrown = StateNotSerializable | InputMissing | AmountOverflow
  datatype Decision = Accepted | Rejected(reason: Reason) | Throws(error: Thrown)

  function ValidateStateInvariants(s: State): Option<Reason> {
    if s.version != COVE_STATE_VERSION then Some(InvalidStateVersion)
    else if !IsTokenIdHex(s.tokenId) || IsZeroId(s.tokenId) then Some(InvalidTokenId)
    else if s.publicSupplyAtoms < 0 || s.publicSupplyAtoms > PUBLIC_SUPPLY_ATOMS then Some(SupplyOutOfRange)
    else if s.publicSupplyAtoms % ATOMS_PER_TOKEN != 0 then Some(SupplyNotAtomic)
    else if s.curveStage != V1.StageForSupply(s.publicSupplyAtoms / ATOMS_PER_TOKEN) then Some(CurveStageMismatch)
    else if s.reserveSats < 0 then Some(ReserveNegative)
    else if s.phase != PublicMint then Some(PhaseNotPublicMint)
    else None
  }

  /** Everything that does not depend on the PSBT: the state may be minted from, the amount is
      a legal mint, both states have an encoding and both destinations are templates. */
  predicate IntentIsGood(intent: Intent) {
    && ValidateStateInvariants(intent.prevState).None?
    && Serializable(intent.prevState)
    && ApplyMint(intent.prevState, intent.amountAtoms).Ok?
    && Serializable(ApplyMint(intent.prevState, intent.amountAtoms).value.next)
    && IsWellFormedCommitment(intent.recipientCommitment)
    && IsWellFormedCommitment(intent.platformFeeScript)
  }

  /** Exactly one input spends Q(previous), it carries reserve plus anchor, and the rest of the
      inputs bring positive funds. */
  ghost predicate InputsAreGood(inputs: seq<TxIn>, key: Key, intent: Intent) {
    && HasPrevouts(inputs)
    && TotalIn(inputs) > intent.prevState.reserveSats + RESERVE_ANCHOR_SATS
    && exists k :: 0 <= k < |inputs| && IsTheStateInput(inputs, k, StateScript(intent.prevState, key))
                   && inputs[k].prevout.value.valueSats == intent.prevState.reserveSats + RESERVE_ANCHOR_SATS
  }

  predicate IsTheStateInput(inputs: seq<TxIn>, k: nat, script: Script)
    requires HasPrevouts(inputs)
  {
    && k < |inputs|
    && forall i :: 0 <= i < |inputs| ==> (inputs[i].prevout.value.script == script <==> i == k)
  }

  /** Successor, token commitment and fee in this order, then at most one change output of any
      script. */
  predicate OutputsAreCanonical(outputs: seq<TxOut>, key: Key, intent: Intent, m: Minted) {
    && 3 <= |outputs| <= 4
    && outputs[0] == TxOut(StateScript(m.next, key),
                           intent.prevState.reserveSats + RESERVE_ANCHOR_SATS + m.contribution)
    && outputs[1] == TxOut(intent.recipientCommitment, TOKEN_COMMITMENT_SATS)
    && outputs[2] == TxOut(intent.platformFeeScript, PlatformFee(m.contribution))
  }

  ghost predicate Acceptable(tx: Tx, key: Key, intent: Intent, network: Network) {
    && network != Mainnet
    && tx.network == ParamsFor(network)
    && IntentIsGood(intent)
    && InputsAreGood(tx.inputs, key, intent)
    && OutputsAreCanonical(tx.outputs, key, intent, ApplyMint(intent.prevState, intent.amountAtoms).value)
    && 0 <= TotalIn(tx.inputs) - TotalOut(tx.outputs) <= MAX_FEE_SATS
    && TotalIn(tx.inputs) <= U64_MAX
    && 0 <= TotalOut(tx.outputs)
  }

  /** A destination is a P2WPKH or a P2TR script; a state script is one. */
  lemma DestinationsAre(script: Script)
    ensures IsWellFormedCommitment(script) <==>
              match script
              case StateScript(_, _) => true
              case Plain(b) => (|b| == 22 && b[..2] == [0x00, 0x14]) || (|b| == 34 && b[..2] == [0x51, 0x20])
  {
    if script.Plain? {
      DustOfTemplates(script.bytes);
    }
  }

  /** A state may be minted from exactly when its version, token, supply, stage and phase are legal. */
  lemma MintableExactly(s: State)
    ensures ValidateStateInvariants(s).None? <==>
              && s.version == 1 && IsTokenIdHex(s.tokenId) && (exists i :: 0 <= i < 64 && s.tokenId[i] != '0')
              && 0 <= s.publicSupplyAtoms <= 21_000_000 * ATOMS_PER_TOKEN && s.publicSupplyAtoms % ATOMS_PER_TOKEN == 0
              && s.curveStage == V1.StageForSupply(s.publicSupplyAtoms / ATOMS_PER_TOKEN)
              && s.reserveSats >= 0 && s.phase == PublicMint
    ensures match ValidateStateInvariants(s)
            case Some(InvalidStateVersion) => s.version != 1
            case Some(InvalidTokenId) => !IsTokenIdHex(s.tokenId) || forall i :: 0 <= i < 64 ==> s.tokenId[i] == '0'
            case Some(SupplyOutOfRange) => s.publicSupplyAtoms < 0 || s.publicSupplyAtoms > PUBLIC_SUPPLY_ATOMS
            case Some(SupplyNotAtomic) => s.publicSupplyAtoms % ATOMS_PER_TOKEN != 0
            case Some(CurveStageMismatch) => s.curveStage != V1.StageForSupply(s.publicSupplyAtoms / ATOMS_PER_TOKEN)
            case Some(ReserveNegative) => s.reserveSats < 0
            case Some(PhaseNotPublicMint) => s.phase != PublicMint
            case Some(_) => false
            case None => true
  {
    hide V1.StageForSupply;
  }

  /** A legal mint is a positive whole number of tokens that are left, worth at least a sat; its successor
      differs in supply, reserve and stage only, and the reserve moves by the R-difference. */
  lemma MintIsLegalExactly(s: State, amount: int)
    requires ValidateStateInvariants(s).None?
    ensures ApplyMint(s, amount).Ok? <==>
              && amount > 0 && amount % ATOMS_PER_TOKEN == 0 && s.publicSupplyAtoms + amount <= PUBLIC_SUPPLY_ATOMS
              && Backing.Reserve((s.publicSupplyAtoms + amount) / ATOMS_PER_TOKEN)
                 > Backing.Reserve(s.publicSupplyAtoms / ATOMS_PER_TOKEN)
    ensures ApplyMint(s, amount).Ok? ==>
              var m, supply := ApplyMint(s, amount).value, s.publicSupplyAtoms + amount;
              && m.contribution
                 == Backing.Reserve(supply / ATOMS_PER_TOKEN) - Backing.Reserve(s.publicSupplyAtoms / ATOMS_PER_TOKEN)
              && m.next == State(s.version, s.tokenId, s.phase, supply, s.reserveSats + m.contribution,
                                 V1.StageForSupply(supply / ATOMS_PER_TOKEN))
  {
    hide Backing.Reserve, V1.StageForSupply, IsTokenIdHex, IsZeroId;
    if amount % ATOMS_PER_TOKEN == 0 {
      WholeTokensAdd(s.publicSupplyAtoms, amount);
    }
  }

  lemma WholeTokensAdd(a: int, b: int)
    requires a % ATOMS_PER_TOKEN == 0 && b % ATOMS_PER_TOKEN == 0
    ensures (a + b) / ATOMS_PER_TOKEN == a / ATOMS_PER_TOKEN + b / ATOMS_PER_TOKEN
  {
  }

  /** What the validator accepts, in full: never mainnet; the transaction's network; one input alone that
      spends the state script, with reserve and anchor; the successor with the R-difference, the 1,000-sat
      commitment and one percent, in this order, and one output more at most; a fee of at most 50,000. */
  lemma AcceptedExactly(tx: Tx, key: Key, intent: Intent, network: Network)
    ensures Acceptable(tx, key, intent, network) <==>
              var prev := intent.prevState;
              && network != Mainnet && tx.network == (if network == Regtest then RegtestParams else TestnetParams)
              && IntentIsGood(intent)
              && HasPrevouts(tx.inputs)
              && (exists k :: 0 <= k < |tx.inputs|
                    && tx.inputs[k].prevout == Some(Prevout(StateScript(prev, key), prev.reserveSats + 10_000))
                    && forall i :: 0 <= i < |tx.inputs| && i != k ==>
                         tx.inputs[i].prevout.value.script != StateScript(prev, key))
              && TotalIn(tx.inputs) > prev.reserveSats + 10_000
              && (|tx.outputs| == 3 || |tx.outputs| == 4)
              && var m := ApplyMint(prev, intent.amountAtoms).value;
                 && tx.outputs[0].script == StateScript(m.next, key)
                 && tx.outputs[0].valueSats == prev.reserveSats + 10_000 + m.contribution
                 && tx.outputs[1] == TxOut(intent.recipientCommitment, 1_000)
                 && tx.outputs[2] == TxOut(intent.platformFeeScript, PlatformFee(m.contribution))
                 && TotalOut(tx.outputs) <= TotalIn(tx.inputs) <= TotalOut(tx.outputs) + 50_000
                 && TotalIn(tx.inputs) <= U64_MAX && 0 <= TotalOut(tx.outputs)
  {
    hide IntentIsGood, ApplyMint, TotalIn, TotalOut, PlatformFee;
    assert IntentIsGood(intent) ==> ApplyMint(intent.prevState, intent.amountAtoms).Ok? by { GoodIntentMints(intent); }
    var script, value := StateScript(intent.prevState, key), intent.prevState.reserveSats + RESERVE_ANCHOR_SATS;
    if HasPrevouts(tx.inputs) {
      if k :| 0 <= k < |tx.inputs| && tx.inputs[k].prevout == Some(Prevout(script, value))
              && forall i :: 0 <= i < |tx.inputs| && i != k ==> tx.inputs[i].prevout.value.script != script {
        assert IsTheStateInput(tx.inputs, k, script);
      }
      if k :| 0 <= k < |tx.inputs| && IsTheStateInput(tx.inputs, k, script)
              && tx.inputs[k].prevout.value.valueSats == value {
        assert tx.inputs[k].prevout == Some(Prevout(script, value));
      }
    }
  }

  lemma GoodIntentMints(intent: Intent)
    ensures IntentIsGood(intent) ==> ApplyMint(intent.prevState, intent.amountAtoms).Ok?
  {
    hide ApplyMint, ValidateStateInvariants;
  }

  // ── Scanning inputs ──────────────────────────────────────────────────────

  lemma {:induction false} StateInputsFound(inputs: seq<TxIn>, script: Script)
    requires HasPrevouts(inputs)
    ensures forall i: nat :: i in StateInputs(inputs, script) <==>
            i < |inputs| && inputs[i].prevout.value.script == script
  {
    if inputs != [] {
      var n := |inputs| - 1;
      StateInputsFound(inputs[..n], script);
      assert forall i: nat :: i < n ==> inputs[..n][i] == inputs[i];
    }
  }

  lemma {:induction false} NoneFound(inputs: seq<TxIn>, script: Script)
    requires HasPrevouts(inputs) && forall i :: 0 <= i < |inputs| ==> inputs[i].prevout.value.script != script
    ensures StateInputs(inputs, script) == []
  {
    if inputs != [] {
      NoneFound(inputs[..|inputs| - 1], script);
    }
  }

  lemma {:induction false} FoundAlone(inputs: seq<TxIn>, script: Script, k: nat)
    requires HasPrevouts(inputs) && IsTheStateInput(inputs, k, script)
    ensures StateInputs(inputs, script) == [k]
  {
    var n := |inputs| - 1;
    var init := inputs[..n];
    assert forall i :: 0 <= i < n ==> init[i] == inputs[i];
    if k < n {
      FoundAlone(init, script, k);
    } else {
      NoneFound(init, script);
    }
  }

  lemma OneStateInput(inputs: seq<TxIn>, script: Script)
    requires HasPrevouts(inputs)
    ensures |StateInputs(inputs, script)| == 1 ==> IsTheStateInput(inputs, StateInputs(inputs, script)[0], script)
    ensures forall k: nat :: IsTheStateInput(inputs, k, script) ==> StateInputs(inputs, script) == [k]
  {
    hide StateInputs;
    var found := StateInputs(inputs, script);
    StateInputsFound(inputs, script);
    if |found| == 1 {
      assert found[0] in found;
      assert forall i: nat :: i in found <==> i == found[0];
    }
    forall k: nat | IsTheStateInput(inputs, k, script)
      ensures found == [k]
    {
      FoundAlone(inputs, script, k);
    }
  }

  /** What the reduce over all inputs but one adds up to. */
  function BuyerTotal(inputs: seq<TxIn>, skip: int): int
    requires HasPrevouts(inputs)
  {
    if inputs == [] then 0
    else
      var n := |inputs| - 1;
      BuyerTotal(inputs[..n], skip) + (if n == skip then 0 else inputs[n].prevout.value.valueSats)
  }

  lemma {:induction false} BuyerTotalIsTheRest(inputs: seq<TxIn>, skip: int)
    requires HasPrevouts(inputs)
    ensures BuyerTotal(inputs, skip)
            == TotalIn(inputs) - (if 0 <= skip < |inputs| then inputs[skip].prevout.value.valueSats else 0)
  {
    if inputs != [] {
      BuyerTotalIsTheRest(inputs[..|inputs| - 1], skip);
    }
  }

  lemma TotalOfFew(outputs: seq<TxOut>)
    ensures |outputs| == 2 ==> TotalOut(outputs) == outputs[0].valueSats + outputs[1].valueSats
    ensures |outputs| == 3 ==> TotalOut(outputs) == outputs[0].valueSats + outputs[1].valueSats + outputs[2].valueSats
    ensures |outputs| == 4 ==>
              TotalOut(outputs)
              == outputs[0].valueSats + outputs[1].valueSats + outputs[2].valueSats + outputs[3].valueSats
  {
    if 2 <= |outputs| <= 4 {
      assert TotalOut(outputs[..1]) == outputs[0].valueSats;
      assert outputs[..2][..1] == outputs[..1];
      if |outputs| >= 3 {
        assert outputs[..3][..2] == outputs[..2];
      }
      assert outputs[..|outputs|] == outputs;
    }
  }

  /** A legal mint always moves at least one sat, so the fee output is always present. */
  lemma FeeIsAlwaysDue(prev: State, amount: int)
    requires ApplyMint(prev, amount).Ok?
    ensures ApplyMint(prev, amount).value.contribution >= 1
    ensures PlatformFee(ApplyMint(prev, amount).value.contribution) >= 1
  {
    hide Backing.Reserve;
  }

  // ── The validator ────────────────────────────────────────────────────────

  /** Prevouts in order, and which of them are the state script. */
  method ResolveInputs(inputs: seq<TxIn>, stateScript: Script) returns (resolved: bool, indices: seq<nat>)
    ensures resolved <==> HasPrevouts(inputs)
    ensures resolved ==> indices == StateInputs(inputs, stateScript)
  {
    indices := [];
    for i := 0 to |inputs|
      invariant HasPrevouts(inputs[..i])
      invariant indices == StateInputs(inputs[..i], stateScript)
    {
      if inputs[i].prevout.None? {
        return false, indices;
      }
      assert inputs[..i + 1][..i] == inputs[..i];
      if inputs[i].prevout.value.script == stateScript {
        indices := indices + [i];
      }
    }
    assert inputs[..|inputs|] == inputs;
    resolved := true;
  }

  method SumBuyerInputs(inputs: seq<TxIn>, stateIndex: int) returns (sum: int)
    requires HasPrevouts(inputs)
    ensures sum == TotalIn(inputs) - (if 0 <= stateIndex < |inputs| then inputs[stateIndex].prevout.value.valueSats
                                      else 0)
  {
    sum := 0;
    for i := 0 to |inputs|
      invariant sum == BuyerTotal(inputs[..i], stateIndex)
    {
      assert inputs[..i + 1][..i] == inputs[..i];
      if i != stateIndex {
        sum := sum + inputs[i].prevout.value.valueSats;
      }
    }
    assert inputs[..|inputs|] == inputs;
    BuyerTotalIsTheRest(inputs, stateIndex);
  }

  /** Network, state, amount and destinations; the successor when they pass. */
  method CheckIntent(psbt: Psbt, intent: Intent, network: Network) returns (stop: Option<Decision>, m: Minted)
    ensures stop != Some(Accepted) && stop != Some(Rejected(CurvePaymentMismatch))
    ensures stop.None? <==>
            && network != Mainnet
            && psbt.network == ParamsFor(network)
            && ValidateStateInvariants(intent.prevState).None?
            && ApplyMint(intent.prevState, intent.amountAtoms).Ok?
            && IsWellFormedCommitment(intent.recipientCommitment)
            && IsWellFormedCommitment(intent.platformFeeScript)
    ensures stop.None? ==> Ok(m) == ApplyMint(intent.prevState, intent.amountAtoms)
  {
    hide Backing.GrossBuy;
    m := Minted(intent.prevState, 0);
    if network == Mainnet {
      return Some(Rejected(MainnetNotActivated)), m;
    }
    if psbt.network != ParamsFor(network) {
      return Some(Rejected(WrongNetwork)), m;
    }
    var inv := ValidateStateInvariants(intent.prevState);
    if inv.Some? {
      return Some(Rejected(inv.value)), m;
    }
    var canonical := ApplyMint(intent.prevState, intent.amountAtoms);
    if canonical.Err? {
      return Some(Rejected(InvalidTransition)), m;
    }
    m := canonical.value;
    FeeIsAlwaysDue(intent.prevState, intent.amountAtoms);
    if !IsWellFormedCommitment(intent.recipientCommitment) {
      return Some(Rejected(RecipientMalformed)), m;
    }
    if PlatformFee(m.contribution) > 0 && !IsWellFormedCommitment(intent.platformFeeScript) {
      return Some(Rejected(PlatformFeeMalformed)), m;
    }
    stop := None;
  }

  /** The state input and the sums of the two sides. */
  method CheckInputs(psbt: Psbt, key: Key, prevState: State)
    returns (stop: Option<Decision>, prevValue: int, buyerInputSats: int)
    ensures stop != Some(Accepted) && stop != Some(Rejected(CurvePaymentMismatch))
    ensures stop.None? <==>
            && Serializable(prevState)
            && HasPrevouts(psbt.inputs)
            && TotalIn(psbt.inputs) > prevState.reserveSats + RESERVE_ANCHOR_SATS
            && exists k :: 0 <= k < |psbt.inputs| && IsTheStateInput(psbt.inputs, k, StateScript(prevState, key))
                           && psbt.inputs[k].prevout.value.valueSats == prevState.reserveSats + RESERVE_ANCHOR_SATS
    ensures stop.None? ==>
              && prevValue == prevState.reserveSats + RESERVE_ANCHOR_SATS
              && prevValue + buyerInputSats == TotalIn(psbt.inputs)
  {
    prevValue, buyerInputSats := 0, 0;
    var script := StateOutputScript(prevState, key);
    if script.None? {
      return Some(Throws(StateNotSerializable)), prevValue, buyerInputSats;
    }
    var resolved, indices := ResolveInputs(psbt.inputs, script.value);
    if !resolved {
      return Some(Throws(InputMissing)), prevValue, buyerInputSats;
    }
    OneStateInput(psbt.inputs, script.value);
    if |indices| == 0 {
      return Some(Rejected(StateInputNotFound)), prevValue, buyerInputSats;
    }
    if |indices| > 1 {
      return Some(Rejected(MultipleStateInputs)), prevValue, buyerInputSats;
    }
    var k := indices[0];
    prevValue := psbt.inputs[k].prevout.value.valueSats;
    if prevValue != prevState.reserveSats + RESERVE_ANCHOR_SATS {
      return Some(Rejected(StateInputWrongValue)), prevValue, buyerInputSats;
    }
    buyerInputSats := SumBuyerInputs(psbt.inputs, k);
    if buyerInputSats <= 0 {
      return Some(Rejected(NoBuyerInput)), prevValue, buyerInputSats;
    }
    stop := None;
  }

  /** Verify a proposed mint against the canonical transition. */
  method ValidateMintTx(psbt: Psbt, key: Key, intent: Intent, network: Network) returns (decision: Decision)
    ensures decision == Accepted <==> Acceptable(psbt.Contents(), key, intent, network)
    ensures decision != Rejected(CurvePaymentMismatch)
  {
    hide Backing.GrossBuy, ValidateStateInvariants, ApplyMint, IsWellFormedCommitment, Serializable;
    var stop, m := CheckIntent(psbt, intent, network);
    if stop.Some? {
      return stop.value;
    }
    var prevValue, buyerInputSats;
    stop, prevValue, buyerInputSats := CheckInputs(psbt, key, intent.prevState);
    if stop.Some? {
      return stop.value;
    }
    var platformFeeSats := PlatformFee(m.contribution);
    FeeIsAlwaysDue(intent.prevState, intent.amountAtoms);
    var outs := psbt.outputs;
    TotalOfFew(outs);
    if |outs| < 2 {
      return Rejected(OutputLayoutIncomplete);
    }
    var successorScript := StateOutputScript(m.next, key);
    if successorScript.None? {
      return Throws(StateNotSerializable);
    }
    if outs[0].script != successorScript.value {
      return Rejected(SuccessorScriptMismatch);
    }
    var successorValue := outs[0].valueSats;
    if successorValue != prevValue + m.contribution {
      return Rejected(ReserveContributionMismatch);
    }
    var recipientValue := outs[1].valueSats;
    if outs[1].script != intent.recipientCommitment || recipientValue != TOKEN_COMMITMENT_SATS {
      return Rejected(RecipientOutputMismatch);
    }
    var cursor := 2;
    var platValue := 0;
    if platformFeeSats > 0 {
      if cursor >= |outs| {
        return Rejected(OutputLayoutIncomplete);
      }
      if outs[cursor].script != intent.platformFeeScript || outs[cursor].valueSats != platformFeeSats {
        return Rejected(PlatformFeeMismatch);
      }
      platValue := platformFeeSats;
      cursor := cursor + 1;
    }
    var changeValue := 0;
    if cursor < |outs| {
      changeValue := outs[cursor].valueSats;
      cursor := cursor + 1;
    }
    if cursor != |outs| {
      return Rejected(ExtraUnauthorizedOutput);
    }
    var totalIn := prevValue + buyerInputSats;
    var totalOut := successorValue + recipientValue + platValue + changeValue;
    var minerFeeSats := totalIn - totalOut;
    if minerFeeSats < 0 || minerFeeSats > MAX_FEE_SATS {
      return Rejected(FeeOutOfRange);
    }
    var expectedChange := buyerInputSats - m.contribution - TOKEN_COMMITMENT_SATS - platValue - minerFeeSats;
    if changeValue != expectedChange {
      return Rejected(CurvePaymentMismatch);
    }
    if totalIn < 0 || totalIn > U64_MAX || totalOut < 0 || totalOut > U64_MAX {
      return Throws(AmountOverflow);
    }
    decision := Accepted;
  }

  // ── The builder ──────────────────────────────────────────────────────────

  datatype Funding = Funding(txid: string, vout: nat, script: Script, valueSats: int)

  datatype BuildParams = BuildParams(
    key: Key,
    intent: Intent,
    stateInput: Funding,
    buyerInputs: seq<Funding>,
    buyerChangeScript: Script,
    minerFeeSats: int,
    network: Network)

  datatype Analysis = Analysis(
    stateInputIndex: int,
    next: State,
    contribution: int,
    platformFeeSats: nat,
    minerFeeSats: int,
    buyerInputSats: int,
    buyerChangeSats: int)

  datatype BuildError = NotAMint(error: CovenantError) | NoEncoding | InsufficientFunds

  function AsInput(f: Funding): TxIn {
    TxIn(f.txid, f.vout, Some(Prevout(f.script, f.valueSats)))
  }

  function AsInputs(fs: seq<Funding>): (r: seq<TxIn>)
    ensures |r| == |fs| && HasPrevouts(r)
    ensures forall i :: 0 <= i < |fs| ==> r[i] == AsInput(fs[i])
  {
    seq(|fs|, i requires 0 <= i < |fs| => AsInput(fs[i]))
  }

  function FundingTotal(fs: seq<Funding>): int {
    if fs == [] then 0 else FundingTotal(fs[..|fs| - 1]) + fs[|fs| - 1].valueSats
  }

  lemma {:induction false} FundingIsInput(fs: seq<Funding>)
    ensures TotalIn(AsInputs(fs)) == FundingTotal(fs)
  {
    if fs != [] {
      var n := |fs| - 1;
      FundingIsInput(fs[..n]);
      assert AsInputs(fs)[..n] == AsInputs(fs[..n]);
    }
  }

  /** What is left for the buyer. */
  function Change(p: BuildParams, contribution: int): int {
    FundingTotal(p.buyerInputs) - contribution - TOKEN_COMMITMENT_SATS - PlatformFee(contribution) - p.minerFeeSats
  }

  /** State input first, then the buyer's; canonical outputs, then change if there is any. */
  ghost predicate IsCanonicalMint(tx: Tx, p: BuildParams, m: Minted) {
    && tx.network == ParamsFor(p.network)
    && tx.inputs == AsInputs([p.stateInput] + p.buyerInputs)
    && tx.outputs == [TxOut(StateScript(m.next, p.key), p.stateInput.valueSats + m.contribution),
                      TxOut(p.intent.recipientCommitment, TOKEN_COMMITMENT_SATS),
                      TxOut(p.intent.platformFeeScript, PlatformFee(m.contribution))]
                     + if Change(p, m.contribution) > 0 then [TxOut(p.buyerChangeScript, Change(p, m.contribution))]
                       else []
  }

  /** A transaction is built when the amount is a legal mint, both states have an encoding and
      the buyer's inputs cover it. Nothing else about the state or the inputs is looked at. */
  predicate Buildable(p: BuildParams) {
    var m := ApplyMint(p.intent.prevState, p.intent.amountAtoms);
    && m.Ok?
    && Serializable(m.value.next)
    && Serializable(p.intent.prevState)
    && Change(p, m.value.contribution) >= 0
  }

  /** A mint can be built exactly when it is legal, both states fit the encoding, and the buyer's inputs cover
      what it moves, the 1,000-sat commitment, the fee and the miner. */
  lemma BuildsExactly(p: BuildParams)
    ensures Buildable(p) <==>
              && ApplyMint(p.intent.prevState, p.intent.amountAtoms).Ok?
              && var m := ApplyMint(p.intent.prevState, p.intent.amountAtoms).value;
                 && (forall s :: s in [p.intent.prevState, m.next] ==>
                       && s.version == 1 && IsTokenIdHex(s.tokenId) && 1 <= s.curveStage <= 20
                       && 0 <= s.publicSupplyAtoms <= U64_MAX && 0 <= s.reserveSats <= U64_MAX)
                 && FundingTotal(p.buyerInputs) >= m.contribution + 1_000 + PlatformFee(m.contribution) + p.minerFeeSats
  {
    hide ApplyMint, PlatformFee, FundingTotal, IsTokenIdHex;
    var m := ApplyMint(p.intent.prevState, p.intent.amountAtoms);
    if m.Ok? {
      var both := [p.intent.prevState, m.value.next];
      assert both[0] in both && both[1] in both;
    }
  }

  /** The record of a PSBT that has at least its three canonical outputs; no policy is applied. */
  method ComputeMintAnalysis(psbt: Psbt, key: Key, intent: Intent) returns (analysis: Option<Analysis>)
    requires HasPrevouts(psbt.inputs) && |psbt.outputs| >= 3
    ensures analysis.Some? <==> ApplyMint(intent.prevState, intent.amountAtoms).Ok? && Serializable(intent.prevState)
    ensures analysis.Some? ==>
              var a, script := analysis.value, StateScript(intent.prevState, key);
              var found := StateInputs(psbt.inputs, script);
              && a.stateInputIndex == (if found == [] then -1 else found[|found| - 1])
              && Ok(Minted(a.next, a.contribution)) == ApplyMint(intent.prevState, intent.amountAtoms)
              && a.platformFeeSats == PlatformFee(a.contribution)
              && a.buyerChangeSats == (if |psbt.outputs| > 3 then psbt.outputs[3].valueSats else 0)
              && (a.stateInputIndex >= 0 ==> a.buyerInputSats == BuyerTotal(psbt.inputs, a.stateInputIndex))
              && (a.stateInputIndex >= 0 && |psbt.outputs| <= 4 ==>
                    a.minerFeeSats == TotalIn(psbt.inputs) - TotalOut(psbt.outputs))
  {
    hide Backing.GrossBuy, Serializable, V1.StageForSupply;
    var canonical := ApplyMint(intent.prevState, intent.amountAtoms);
    if canonical.Err? {
      return None;
    }
    FeeIsAlwaysDue(intent.prevState, intent.amountAtoms);
    var script := StateOutputScript(intent.prevState, key);
    if script.None? {
      return None;
    }
    var contribution := canonical.value.contribution;
    var stateInputIndex, prevValue := -1, 0;
    for i := 0 to |psbt.inputs|
      invariant var found := StateInputs(psbt.inputs[..i], script.value);
                && stateInputIndex == (if found == [] then -1 else found[|found| - 1])
                && (found != [] ==>
                      stateInputIndex < i && prevValue == psbt.inputs[stateInputIndex].prevout.value.valueSats)
    {
      assert psbt.inputs[..i + 1][..i] == psbt.inputs[..i];
      if psbt.inputs[i].prevout.value.script == script.value {
        stateInputIndex, prevValue := i, psbt.inputs[i].prevout.value.valueSats;
      }
    }
    assert psbt.inputs[..|psbt.inputs|] == psbt.inputs;
    var buyerInputSats := SumBuyerInputs(psbt.inputs, stateInputIndex);
    BuyerTotalIsTheRest(psbt.inputs, stateInputIndex);
    TotalOfFew(psbt.outputs);
    var changeValue := if |psbt.outputs| > 3 then psbt.outputs[3].valueSats else 0;
    var totalOut := psbt.outputs[0].valueSats + psbt.outputs[1].valueSats + psbt.outputs[2].valueSats + changeValue;
    analysis := Some(Analysis(stateInputIndex, canonical.value.next, contribution, PlatformFee(contribution),
                              prevValue + buyerInputSats - totalOut, buyerInputSats, changeValue));
  }

  method AddBuyerInputs(psbt: Psbt, buyerInputs: seq<Funding>)
    modifies psbt
    ensures psbt.Contents() == old(psbt.Contents()).(inputs := old(psbt.inputs) + AsInputs(buyerInputs))
  {
    for i := 0 to |buyerInputs|
      invariant psbt.Contents() == old(psbt.Contents()).(inputs := old(psbt.inputs) + AsInputs(buyerInputs[..i]))
    {
      psbt.AddInput(AsInput(buyerInputs[i]));
    }
    assert buyerInputs[..|buyerInputs|] == buyerInputs;
  }

  method SumFunding(buyerInputs: seq<Funding>) returns (total: int)
    ensures total == FundingTotal(buyerInputs)
  {
    total := 0;
    for i := 0 to |buyerInputs|
      invariant total == FundingTotal(buyerInputs[..i])
    {
      assert buyerInputs[..i + 1][..i] == buyerInputs[..i];
      total := total + buyerInputs[i].valueSats;
    }
    assert buyerInputs[..|buyerInputs|] == buyerInputs;
  }

  /** Lay out the canonical PSBT for an intent, before anyone judges it. */
  method BuildMintPsbt(p: BuildParams) returns (psbt: Psbt, built: Result<Analysis, BuildError>)
    ensures fresh(psbt)
    ensures built.Ok? <==> Buildable(p)
    ensures built.Ok? ==>
              && IsCanonicalMint(psbt.Contents(), p, ApplyMint(p.intent.prevState, p.intent.amountAtoms).value)
              && built.value.buyerChangeSats == Change(p, built.value.contribution)
              && (p.stateInput.script == StateScript(p.intent.prevState, p.key) ==>
                  built.value.minerFeeSats == p.minerFeeSats)
  {
    hide ApplyMint, Serializable, FundingTotal, StateInputs, TotalIn, TotalOut;
    psbt := new Psbt(ParamsFor(p.network));
    var canonical := ApplyMint(p.intent.prevState, p.intent.amountAtoms);
    if canonical.Err? {
      return psbt, Err(NotAMint(canonical.error));
    }
    var m := canonical.value;
    var platformFeeSats := PlatformFee(m.contribution);
    FeeIsAlwaysDue(p.intent.prevState, p.intent.amountAtoms);
    psbt.AddInput(AsInput(p.stateInput));
    AddBuyerInputs(psbt, p.buyerInputs);
    assert psbt.inputs == AsInputs([p.stateInput] + p.buyerInputs);
    var successor := StateOutputScript(m.next, p.key);
    if successor.None? {
      return psbt, Err(NoEncoding);
    }
    psbt.AddOutput(TxOut(successor.value, p.stateInput.valueSats + m.contribution));
    psbt.AddOutput(TxOut(p.intent.recipientCommitment, TOKEN_COMMITMENT_SATS));
    if platformFeeSats > 0 {
      psbt.AddOutput(TxOut(p.intent.platformFeeScript, platformFeeSats));
    }
    var totalBuyerIn := SumFunding(p.buyerInputs);
    var changeValue := totalBuyerIn - m.contribution - TOKEN_COMMITMENT_SATS - platformFeeSats - p.minerFeeSats;
    if changeValue < 0 {
      return psbt, Err(InsufficientFunds);
    }
    if changeValue > 0 {
      psbt.AddOutput(TxOut(p.buyerChangeScript, changeValue));
    }
    assert IsCanonicalMint(psbt.Contents(), p, m);
    var analysis := ComputeMintAnalysis(psbt, p.key, p.intent);
    if analysis.None? {
      return psbt, Err(NoEncoding);
    }
    BuiltTotals(psbt.Contents(), p, m);
    StateInputsFound(psbt.inputs, StateScript(p.intent.prevState, p.key));
    assert psbt.inputs[0] == AsInput(p.stateInput);
    built := Ok(analysis.value);
  }

  lemma BuiltTotals(tx: Tx, p: BuildParams, m: Minted)
    requires IsCanonicalMint(tx, p, m) && Change(p, m.contribution) >= 0
    ensures TotalIn(tx.inputs) == p.stateInput.valueSats + FundingTotal(p.buyerInputs)
    ensures TotalOut(tx.outputs) == TotalIn(tx.inputs) - p.minerFeeSats
  {
    TotalOfFew(tx.outputs);
    FundingIsInput([p.stateInput] + p.buyerInputs);
    FundingAppend([p.stateInput], p.buyerInputs);
  }

  /** What a built mint spends: the named state input first, then the buyer's in the order given. */
  lemma BuiltSpends(tx: Tx, p: BuildParams, m: Minted)
    requires IsCanonicalMint(tx, p, m)
    ensures tx.network == if p.network == Mainnet then BitcoinParams
                          else if p.network == Regtest then RegtestParams else TestnetParams
    ensures |tx.inputs| == |p.buyerInputs| + 1
    ensures tx.inputs[0]
            == TxIn(p.stateInput.txid, p.stateInput.vout, Some(Prevout(p.stateInput.script, p.stateInput.valueSats)))
    ensures forall k :: 1 <= k <= |p.buyerInputs| ==>
              var f := p.buyerInputs[k - 1];
              tx.inputs[k] == TxIn(f.txid, f.vout, Some(Prevout(f.script, f.valueSats)))
  {
    hide PlatformFee, FundingTotal, AsInputs;
    InputsInOrder(p.stateInput, p.buyerInputs);
  }

  /** What a built mint pays: successor, commitment and fee, and what the buyer does not owe goes back to the
      buyer's change script, which leaves the miner what was asked. */
  lemma BuiltPays(tx: Tx, p: BuildParams, m: Minted)
    requires IsCanonicalMint(tx, p, m) && Change(p, m.contribution) >= 0
    ensures var owed := m.contribution + 1_000 + PlatformFee(m.contribution) + p.minerFeeSats;
            var change := FundingTotal(p.buyerInputs) - owed;
            && |tx.outputs| == (if change > 0 then 4 else 3)
            && tx.outputs[0] == TxOut(StateScript(m.next, p.key), p.stateInput.valueSats + m.contribution)
            && tx.outputs[1] == TxOut(p.intent.recipientCommitment, 1_000)
            && tx.outputs[2] == TxOut(p.intent.platformFeeScript, PlatformFee(m.contribution))
            && (change > 0 ==> tx.outputs[3] == TxOut(p.buyerChangeScript, change))
            && TotalOut(tx.outputs) == p.stateInput.valueSats + FundingTotal(p.buyerInputs) - p.minerFeeSats
  {
    hide PlatformFee, TotalIn, TotalOut, FundingTotal;
    BuiltTotals(tx, p, m);
  }

  lemma InputsInOrder(first: Funding, rest: seq<Funding>)
    ensures var inputs := AsInputs([first] + rest);
            && |inputs| == |rest| + 1
            && inputs[0] == AsInput(first)
            && forall k :: 1 <= k <= |rest| ==> inputs[k] == AsInput(rest[k - 1])
  {
    hide AsInput;
    var all := [first] + rest;
    forall k | 1 <= k <= |rest|
      ensures AsInputs(all)[k] == AsInput(rest[k - 1])
    {
      assert all[k] == rest[k - 1];
    }
  }

  lemma {:induction false} FundingAppend(a: seq<Funding>, b: seq<Funding>)
    ensures FundingTotal(a + b) == FundingTotal(a) + FundingTotal(b)
  {
    if b == [] {
      assert a + b == a;
    } else {
      var n := |b| - 1;
      FundingAppend(a, b[..n]);
      assert (a + b)[..|a| + n] == a + b[..n];
    }
  }

  // ── Builder and validator ────────────────────────────────────────────────

  /** Input k, and no other, spends Q(previous), and it carries reserve plus anchor. Input 0 is
      the one the caller names; the others are the buyer's. */
  predicate SpendsStateAt(p: BuildParams, k: nat) {
    var all := [p.stateInput] + p.buyerInputs;
    && k < |all|
    && all[k].valueSats == p.intent.prevState.reserveSats + RESERVE_ANCHOR_SATS
    && forall i :: 0 <= i < |all| ==> (all[i].script == StateScript(p.intent.prevState, p.key) <==> i == k)
  }

  /** What a caller of the builder controls, checked before the call. */
  ghost predicate GoodRequest(p: BuildParams) {
    && p.network != Mainnet
    && ValidateStateInvariants(p.intent.prevState).None?
    && IsWellFormedCommitment(p.intent.recipientCommitment)
    && IsWellFormedCommitment(p.intent.platformFeeScript)
    && p.stateInput.valueSats == p.intent.prevState.reserveSats + RESERVE_ANCHOR_SATS
    && (exists k :: 0 <= k <= |p.buyerInputs| && SpendsStateAt(p, k))
    && FundingTotal(p.buyerInputs) > 0
    && 0 <= p.minerFeeSats <= MAX_FEE_SATS
    && p.stateInput.valueSats + FundingTotal(p.buyerInputs) <= U64_MAX
  }

  lemma BuiltInputs(tx: Tx, p: BuildParams, m: Minted, k: nat)
    requires IsCanonicalMint(tx, p, m) && k < |tx.inputs|
    ensures SpendsStateAt(p, k) <==>
            && IsTheStateInput(tx.inputs, k, StateScript(p.intent.prevState, p.key))
            && tx.inputs[k].prevout.value.valueSats == p.intent.prevState.reserveSats + RESERVE_ANCHOR_SATS
  {
    var all := [p.stateInput] + p.buyerInputs;
    assert forall i :: 0 <= i < |all| ==> tx.inputs[i].prevout == Some(Prevout(all[i].script, all[i].valueSats));
  }

  /** What the builder makes is accepted exactly for a good request, whatever inputs the caller
      hands it. */
  lemma BuiltIsAcceptedExactly(tx: Tx, p: BuildParams)
    requires Buildable(p)
    requires IsCanonicalMint(tx, p, ApplyMint(p.intent.prevState, p.intent.amountAtoms).value)
    ensures Acceptable(tx, p.key, p.intent, p.network) <==> GoodRequest(p)
  {
    hide Serializable, ApplyMint, ValidateStateInvariants, FundingTotal, TotalIn, TotalOut, IsWellFormedCommitment;
    hide SpendsStateAt, IsTheStateInput;
    var m := ApplyMint(p.intent.prevState, p.intent.amountAtoms).value;
    FeeIsAlwaysDue(p.intent.prevState, p.intent.amountAtoms);
    BuiltTotals(tx, p, m);
    TotalOfFew(tx.outputs);
    forall k: nat | k < |tx.inputs|
      ensures SpendsStateAt(p, k) <==>
              && IsTheStateInput(tx.inputs, k, StateScript(p.intent.prevState, p.key))
              && tx.inputs[k].prevout.value.valueSats == p.intent.prevState.reserveSats + RESERVE_ANCHOR_SATS
    {
      BuiltInputs(tx, p, m, k);
    }
    if GoodRequest(p) {
      GoodReserve(p.intent.prevState);
    }
  }

  /** When the named state input spends Q(previous), the buyer's inputs must all be other coins. */
  lemma NamedStateInput(p: BuildParams)
    requires p.stateInput.script == StateScript(p.intent.prevState, p.key)
    requires p.stateInput.valueSats == p.intent.prevState.reserveSats + RESERVE_ANCHOR_SATS
    ensures (exists k :: 0 <= k <= |p.buyerInputs| && SpendsStateAt(p, k)) <==>
            forall i :: 0 <= i < |p.buyerInputs| ==> p.buyerInputs[i].script != p.stateInput.script
  {
    var all := [p.stateInput] + p.buyerInputs;
    assert all[0] == p.stateInput;
    if k :| 0 <= k <= |p.buyerInputs| && SpendsStateAt(p, k) {
      assert k == 0;
      forall i | 0 <= i < |p.buyerInputs|
        ensures p.buyerInputs[i].script != p.stateInput.script
      {
        assert all[i + 1] == p.buyerInputs[i];
      }
    }
    if forall i :: 0 <= i < |p.buyerInputs| ==> p.buyerInputs[i].script != p.stateInput.script {
      forall i | 0 < i < |all|
        ensures all[i].script != p.stateInput.script
      {
        assert all[i] == p.buyerInputs[i - 1];
      }
      assert SpendsStateAt(p, 0);
    }
  }

  /** When it does not, exactly one of the buyer's inputs must, with the state's full value; the
      named coin, which has the same value, then pays as the buyer's. */
  lemma ForeignStateInput(p: BuildParams)
    requires p.stateInput.script != StateScript(p.intent.prevState, p.key)
    ensures (exists k :: 0 <= k <= |p.buyerInputs| && SpendsStateAt(p, k)) <==>
            exists b :: 0 <= b < |p.buyerInputs|
                        && p.buyerInputs[b].valueSats == p.intent.prevState.reserveSats + RESERVE_ANCHOR_SATS
                        && forall i :: 0 <= i < |p.buyerInputs| ==>
                             (p.buyerInputs[i].script == StateScript(p.intent.prevState, p.key) <==> i == b)
  {
    var script := StateScript(p.intent.prevState, p.key);
    var all := [p.stateInput] + p.buyerInputs;
    assert all[0] == p.stateInput;
    if k :| 0 <= k <= |p.buyerInputs| && SpendsStateAt(p, k) {
      assert k != 0;
      forall i | 0 <= i < |p.buyerInputs|
        ensures p.buyerInputs[i].script == script <==> i == k - 1
      {
        assert all[i + 1] == p.buyerInputs[i];
      }
      assert p.buyerInputs[k - 1] == all[k];
    }
    if b :| 0 <= b < |p.buyerInputs|
            && p.buyerInputs[b].valueSats == p.intent.prevState.reserveSats + RESERVE_ANCHOR_SATS
            && forall i :: 0 <= i < |p.buyerInputs| ==> (p.buyerInputs[i].script == script <==> i == b) {
      forall i | 0 <= i < |all|
        ensures all[i].script == script <==> i == b + 1
      {
        if i > 0 {
          assert all[i] == p.buyerInputs[i - 1];
        }
      }
      assert SpendsStateAt(p, b + 1);
    }
  }

  /** Naming a coin of equal value as the state input, and listing the state UTXO among the
      buyer's inputs, is still a good request. */
  lemma SwappedStateInputIsGood(p: BuildParams, coin: Funding)
    requires GoodRequest(p) && p.buyerInputs == [coin]
    requires p.stateInput.script == StateScript(p.intent.prevState, p.key)
    requires coin.valueSats == p.stateInput.valueSats
    ensures GoodRequest(p.(stateInput := coin, buyerInputs := [p.stateInput]))
  {
    hide ValidateStateInvariants, IsWellFormedCommitment, SpendsStateAt;
    var q := p.(stateInput := coin, buyerInputs := [p.stateInput]);
    NamedStateInput(p);
    assert p.buyerInputs[0] == coin;
    ForeignStateInput(q);
    assert q.buyerInputs[0] == p.stateInput;
    assert [coin][..0] == [] && [p.stateInput][..0] == [];
  }

  lemma GoodReserve(s: State)
    requires ValidateStateInvariants(s).None?
    ensures s.reserveSats >= 0
  {
  }

  /** What acceptance buys: one state input, the successor worth the previous state plus the
      reserve difference, and every sat accounted for by the outputs and a capped fee. */
  lemma AcceptanceConserves(tx: Tx, key: Key, intent: Intent, network: Network)
    requires Acceptable(tx, key, intent, network)
    ensures var prev := intent.prevState;
            var s, q := prev.publicSupplyAtoms / ATOMS_PER_TOKEN, intent.amountAtoms / ATOMS_PER_TOKEN;
            var delta := Backing.Reserve(s + q) - Backing.Reserve(s);
            && HasPrevouts(tx.inputs)
            && |StateInputs(tx.inputs, StateScript(prev, key))| == 1
            && delta >= 1
            && (forall k :: 0 <= k < |tx.inputs| && tx.inputs[k].prevout.value.script == StateScript(prev, key) ==>
                  tx.outputs[0].valueSats == tx.inputs[k].prevout.value.valueSats + delta)
            && tx.outputs[0].script.state.publicSupplyAtoms == prev.publicSupplyAtoms + intent.amountAtoms
            && tx.outputs[0].script.state.reserveSats == prev.reserveSats + delta
            && TotalOut(tx.outputs) <= TotalIn(tx.inputs) <= TotalOut(tx.outputs) + MAX_FEE_SATS
  {
    hide Backing.Reserve, V1.StageForSupply;
    var script := StateScript(intent.prevState, key);
    var k :| 0 <= k < |tx.inputs| && IsTheStateInput(tx.inputs, k, script)
             && tx.inputs[k].prevout.value.valueSats == intent.prevState.reserveSats + RESERVE_ANCHOR_SATS;
    OneStateInput(tx.inputs, script);
  }

  /** The state encoding has room for twenty stages and the curve has 210 stairs: a state that
      passes every invariant can be minted from, on any network, only while the supply after
      the mint is below 2,000,000 tokens. */
  lemma EncodingEndsAtStageTwenty(intent: Intent)
    requires ValidateStateInvariants(intent.prevState).None?
    requires ApplyMint(intent.prevState, intent.amountAtoms).Ok?
    requires ApplyMint(intent.prevState, intent.amountAtoms).value.next.reserveSats <= U64_MAX
    ensures Serializable(intent.prevState)
            && Serializable(ApplyMint(intent.prevState, intent.amountAtoms).value.next) <==>
            intent.prevState.publicSupplyAtoms + intent.amountAtoms < 2_000_000 * ATOMS_PER_TOKEN
  {
    hide Backing.Reserve, IsTokenIdHex;
    var before, after := intent.prevState.publicSupplyAtoms, intent.prevState.publicSupplyAtoms + intent.amountAtoms;
    StageBelow(before / ATOMS_PER_TOKEN);
    StageBelow(after / ATOMS_PER_TOKEN);
    assert after < 2_000_000 * ATOMS_PER_TOKEN <==> after / ATOMS_PER_TOKEN < 2_000_000;
    assert before / ATOMS_PER_TOKEN <= after / ATOMS_PER_TOKEN;
  }

  /** A state with a single lot left below the limit, backed as the curve says. */
  const LAST_ENCODABLE := State(COVE_STATE_VERSION, seq(64, _ => '1'), PublicMint, 1_999_000 * ATOMS_PER_TOKEN,
                                Backing.Reserve(1_999_000), MAX_STATE_STAGE)

  /** It passes every invariant and has an encoding, and minting one more lot from it is legal, but
      the successor has no encoding: no request for that mint can be built, on any network. */
  lemma NoMintPastStageTwenty(p: BuildParams)
    requires p.intent.prevState == LAST_ENCODABLE && p.intent.amountAtoms == 1_000 * ATOMS_PER_TOKEN
    ensures ValidateStateInvariants(LAST_ENCODABLE).None? && Serializable(LAST_ENCODABLE)
    ensures var m := ApplyMint(LAST_ENCODABLE, 1_000 * ATOMS_PER_TOKEN);
            m.Ok? && m.value.contribution > 0 && !Serializable(m.value.next)
    ensures !Buildable(p)
  {
    hide Backing.Reserve, Backing.GrossBuy;
    assert LAST_ENCODABLE.tokenId[0] == '1';
    Backing.ReserveMono(1_999_000, PUBLIC_SUPPLY);
    Backing.WholeSupply();
    Backing.GrossOfLots(1_999_000, 1_000);
    StageBelow(1_999_000);
    StageBelow(2_000_000);
  }

  lemma StageBelow(tokens: nat)
    ensures 1 <= V1.StageForSupply(tokens)
    ensures V1.StageForSupply(tokens) <= MAX_STATE_STAGE <==> tokens < 2_000_000
  {
  }
}
