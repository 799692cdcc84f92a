/** Simplicity witness constructors: the successor and the gross a caller claims
    are compared with the recomputed transition, never used. */
module Witness {
  import opened Wrappers
  import opened Constants
  import opened Curve
  import opened Fee
  import opened TransitionV2

  datatype WitnessError =
    | NegativeAtoms
    | SubtokenAtoms
    | Covenant(error: TransitionV2.Error)
    | Unserializable
    | NextStateMismatch
    | GrossMismatch

  /** The fixed 51-byte layout; policy version and stage are written into one byte each. */
  datatype StateBytes = StateBytes(
    stateVersion: int, policyByte: int, tokenId: string, supplyU64: int, backingU64: int, stageByte: int)

  /** The state hash is taken over these bytes and treated as injective on them. */
  function SerializeState(s: State): Option<StateBytes> {
    if s.stateVersion != STATE_VERSION || !ValidTokenId(s.tokenId) then None
    else if s.issuedSupplyAtoms < 0 || s.issuedSupplyAtoms > PUBLIC_SUPPLY_ATOMS then None
    else if s.backingSats < 0 || s.backingSats > U64_MAX then None
    else Some(StateBytes(s.stateVersion, s.policyVersion % 256, s.tokenId,
                         s.issuedSupplyAtoms, s.backingSats, s.curveStage % 256))
  }

  function AtomsToTokensExact(atoms: int): Result<int, WitnessError> {
    if atoms < 0 then Err(NegativeAtoms)
    else if atoms % ATOMS_PER_TOKEN != 0 then Err(SubtokenAtoms)
    else Ok(atoms / ATOMS_PER_TOKEN)
  }

  /** For a mint `flow` is the contribution, for a redemption the payout. */
  datatype SupplyWitness = SupplyWitness(
    amount: int, prevSupply: int, nextSupply: int, prevReserve: int, nextReserve: int, flow: int)

  function BuildWitness(prev: State, claimed: State, op: Op, claimedGross: int): Result<SupplyWitness, WitnessError> {
    var amount :- AtomsToTokensExact(op.amount);
    var canonical := Apply(prev, op);
    if canonical.Err? then Err(Covenant(canonical.error))
    else
      var next := canonical.value.next;
      if SerializeState(claimed).None? || SerializeState(next).None? then Err(Unserializable)
      else if SerializeState(claimed) != SerializeState(next) then Err(NextStateMismatch)
      else if claimedGross != canonical.value.grossSats then Err(GrossMismatch)
      else
        var prevSupply :- AtomsToTokensExact(prev.issuedSupplyAtoms);
        var nextSupply :- AtomsToTokensExact(next.issuedSupplyAtoms);
        Ok(SupplyWitness(amount, prevSupply, nextSupply, prev.backingSats, next.backingSats, canonical.value.grossSats))
  }

  /** The claimed successor agrees with the canonical one, reading policy version
      and stage modulo 256. */
  predicate SameBytes(claimed: State, next: State) {
    && claimed.stateVersion == next.stateVersion
    && claimed.policyVersion % 256 == next.policyVersion % 256
    && claimed.tokenId == next.tokenId
    && claimed.issuedSupplyAtoms == next.issuedSupplyAtoms
    && claimed.backingSats == next.backingSats
    && claimed.curveStage % 256 == next.curveStage % 256
  }

  lemma ReserveFitsU64(supplyAtoms: int)
    requires 0 <= supplyAtoms <= PUBLIC_SUPPLY_ATOMS
    ensures ReserveAt(supplyAtoms) <= U64_MAX
  {
    hide Backing.Reserve;
    Backing.ReserveMono(supplyAtoms / ATOMS_PER_TOKEN, PUBLIC_SUPPLY);
    Backing.WholeSupply();
  }

  lemma ValidSerializes(s: State)
    requires ValidState(s)
    ensures SerializeState(s).Some?
  {
    hide ReserveAt, ValidTokenId, ImpliedStage, ValidateState;
    ValidFacts(s);
    ReserveFitsU64(s.issuedSupplyAtoms);
    assert s.stateVersion == STATE_VERSION by { Version(s); }
  }

  lemma Version(s: State)
    requires ValidState(s)
    ensures s.stateVersion == STATE_VERSION
  {
    hide ReserveAt, ValidTokenId, ImpliedStage, Backing.Reserve;
  }

  /** A witness is built exactly for an accepted transition whose successor bytes and
      gross were claimed correctly, and it satisfies next = previous ± amount on the
      supply side and on the reserve side. */
  lemma WitnessIsTheTransition(prev: State, claimed: State, op: Op, claimedGross: int)
    ensures BuildWitness(prev, claimed, op, claimedGross).Ok? <==>
              Apply(prev, op).Ok? && SameBytes(claimed, Apply(prev, op).value.next)
              && claimedGross == Apply(prev, op).value.grossSats
    ensures BuildWitness(prev, claimed, op, claimedGross).Ok? ==>
              var w := BuildWitness(prev, claimed, op, claimedGross).value;
              && w.amount > 0 && w.flow > 0
              && w.amount * ATOMS_PER_TOKEN == op.amount
              && w.prevSupply * ATOMS_PER_TOKEN == prev.issuedSupplyAtoms
              && w.nextSupply * ATOMS_PER_TOKEN == Apply(prev, op).value.next.issuedSupplyAtoms
              && w.prevReserve == prev.backingSats && w.nextReserve == Apply(prev, op).value.next.backingSats
              && w.flow == claimedGross
              && (op.Mint? ==> w.nextSupply == w.prevSupply + w.amount && w.nextReserve == w.prevReserve + w.flow)
              && (op.Redeem? ==> w.nextSupply == w.prevSupply - w.amount && w.nextReserve == w.prevReserve - w.flow)
  {
    hide ReserveAt, ValidTokenId, ImpliedStage, ValidateState, ApplyMint, ApplyRedeem;
    if Apply(prev, op).Ok? {
      var next := Apply(prev, op).value.next;
      StepKeepsValid(prev, op);
      ValidFacts(prev);
      ValidFacts(next);
      AmountIsLots(prev, op);
      AtomsToLots(op.amount);
      AtomsToLots(prev.issuedSupplyAtoms);
      AtomsToLots(next.issuedSupplyAtoms);
      ValidSerializes(next);
    }
  }

  /** Why a witness is refused, each reason exactly when it applies first. */
  lemma RefusedExactly(prev: State, claimed: State, op: Op, claimedGross: int)
    ensures var r := BuildWitness(prev, claimed, op, claimedGross);
            && (r == Err(NegativeAtoms) <==> op.amount < 0)
            && (r == Err(SubtokenAtoms) <==> op.amount >= 0 && op.amount % ATOMS_PER_TOKEN != 0)
            && (r.Err? && r.error.Covenant? <==>
                  op.amount >= 0 && op.amount % ATOMS_PER_TOKEN == 0 && Apply(prev, op).Err?)
            && (r.Err? && r.error.Covenant? ==> r.error.error == Apply(prev, op).error)
            && (Apply(prev, op).Ok? ==>
                  && (r == Err(Unserializable) <==> SerializeState(claimed).None?)
                  && (r == Err(NextStateMismatch) <==>
                        SerializeState(claimed).Some? && !SameBytes(claimed, Apply(prev, op).value.next))
                  && (r == Err(GrossMismatch) <==>
                        SameBytes(claimed, Apply(prev, op).value.next)
                        && claimedGross != Apply(prev, op).value.grossSats))
  {
    hide ReserveAt, ValidTokenId, ImpliedStage, ValidateState, ApplyMint, ApplyRedeem;
    if Apply(prev, op).Ok? {
      var next := Apply(prev, op).value.next;
      StepKeepsValid(prev, op);
      ValidFacts(prev);
      ValidFacts(next);
      AmountIsLots(prev, op);
      AtomsToLots(op.amount);
      AtomsToLots(prev.issuedSupplyAtoms);
      AtomsToLots(next.issuedSupplyAtoms);
      ValidSerializes(next);
    }
  }

  /** A state has an encoding exactly when its version, token, supply and backing are legal. */
  lemma SerializesExactly(s: State)
    ensures SerializeState(s).Some? <==>
              && s.stateVersion == 2 && ValidTokenId(s.tokenId)
              && 0 <= s.issuedSupplyAtoms <= PUBLIC_SUPPLY_ATOMS && 0 <= s.backingSats <= U64_MAX
  {
  }

  lemma AmountIsLots(prev: State, op: Op)
    requires Apply(prev, op).Ok?
    ensures op.amount > 0 && op.amount % LOT_ATOMS == 0
  {
    hide ReserveAt, ValidTokenId, ImpliedStage, ValidateState, ApplyMint, ApplyRedeem;
    MintAccepted(prev, op.amount);
    RedeemAccepted(prev, op.amount);
  }

  /** The successor check does not pin the state object down: a claimed stage or policy
      version off by 256 hashes to the same bytes and is accepted. */
  lemma OffBy256IsAccepted(prev: State, op: Op)
    requires Apply(prev, op).Ok?
    ensures var next := Apply(prev, op).value.next;
            var claimed := next.(curveStage := next.curveStage + 256);
            claimed != next && !ValidState(claimed)
            && BuildWitness(prev, claimed, op, Apply(prev, op).value.grossSats).Ok?
  {
    hide ReserveAt, ValidTokenId, ApplyMint, ApplyRedeem, ImpliedStage, BuildWitness, ValidateState;
    var next := Apply(prev, op).value.next;
    StepKeepsValid(prev, op);
    WrongStage(next);
    WitnessIsTheTransition(prev, next.(curveStage := next.curveStage + 256), op, Apply(prev, op).value.grossSats);
  }

  lemma WrongStage(s: State)
    requires ValidState(s)
    ensures !ValidState(s.(curveStage := s.curveStage + 256))
  {
    hide Backing.Reserve, ValidTokenId, ImpliedStage;
  }
}
