/** Production state transitions: mint and redeem recompute the reserve from the
    successor supply and never take a backing value from the caller. */
module TransitionV2 {
  import opened Wrappers
  import opened Bytes
  import opened Constants
  import opened Rounding
  import opened Curve
  import opened Backing
  import opened Fee

  const COVE_POLICY_V3: int := 3
  const STATE_VERSION: int := 2

  datatype State = State(
    stateVersion: int,
    policyVersion: int,
    tokenId: string,
    issuedSupplyAtoms: int,
    backingSats: int,
    curveStage: int)

  datatype Error =
    | BadStateVersion
    | BadPolicyVersion
    | InvalidTokenId
    | SupplyOutOfRange
    | SupplyNotAtomic
    | SupplyNotLots
    | CurveStageMismatch
    | BackingMismatch
    | ZeroAmount
    | SubtokenAmount
    | NotWholeLots
    | Overmint
    | RedeemExceedsSupply
    | EconomicDust

  datatype Step = Step(next: State, grossSats: int)

  /** 64 lower-case hex digits, not all zero. */
  predicate ValidTokenId(id: string) {
    && |id| == 64
    && (forall i :: 0 <= i < |id| ==> IsLowerHex(id[i]))
    && (exists i :: 0 <= i < |id| && id[i] != '0')
  }

  /** One-based stage of the next token, clamped to the last stage when sold out. */
  function ImpliedStage(supplyAtoms: nat): nat {
    var supply := supplyAtoms / ATOMS_PER_TOKEN;
    if supply >= PUBLIC_SUPPLY then STAGE_COUNT
    else
      var stage := supply / TOKENS_PER_STAGE + 1;
      if stage < STAGE_COUNT then stage else STAGE_COUNT
  }

  /** The checks of validateStateV2 in order; None means the state is accepted. */
  function ValidateState(s: State): Option<Error> {
    if s.stateVersion != STATE_VERSION then Some(BadStateVersion)
    else if s.policyVersion != COVE_POLICY_V3 then Some(BadPolicyVersion)
    else if !ValidTokenId(s.tokenId) then Some(InvalidTokenId)
    else if s.issuedSupplyAtoms < 0 || s.issuedSupplyAtoms > PUBLIC_SUPPLY_ATOMS then Some(SupplyOutOfRange)
    else if s.issuedSupplyAtoms % ATOMS_PER_TOKEN != 0 then Some(SupplyNotAtomic)
    else if s.issuedSupplyAtoms % LOT_ATOMS != 0 then Some(SupplyNotLots)
    else if s.curveStage != ImpliedStage(s.issuedSupplyAtoms) then Some(CurveStageMismatch)
    else if s.backingSats != Reserve(s.issuedSupplyAtoms / ATOMS_PER_TOKEN) then Some(BackingMismatch)
    else None
  }

  predicate ValidState(s: State) {
    ValidateState(s).None?
  }

  /** R at a supply given in atoms. */
  function ReserveAt(supplyAtoms: int): nat
    requires 0 <= supplyAtoms <= PUBLIC_SUPPLY_ATOMS
  {
    Reserve(supplyAtoms / ATOMS_PER_TOKEN)
  }

  function S0State(tokenId: string): State {
    State(STATE_VERSION, COVE_POLICY_V3, tokenId, 0, 0, ImpliedStage(0))
  }

  function AtSupply(s: State, supplyAtoms: int): State
    requires 0 <= supplyAtoms <= PUBLIC_SUPPLY_ATOMS
  {
    s.(issuedSupplyAtoms := supplyAtoms, backingSats := ReserveAt(supplyAtoms), curveStage := ImpliedStage(supplyAtoms))
  }

  function ApplyMint(prev: State, amountAtoms: int): Result<Step, Error> {
    var bad := ValidateState(prev);
    if bad.Some? then Err(bad.value)
    else if amountAtoms <= 0 then Err(ZeroAmount)
    else if amountAtoms % ATOMS_PER_TOKEN != 0 then Err(SubtokenAmount)
    else if amountAtoms % LOT_ATOMS != 0 then Err(NotWholeLots)
    else
      var nextSupply := prev.issuedSupplyAtoms + amountAtoms;
      if nextSupply > PUBLIC_SUPPLY_ATOMS then Err(Overmint)
      else
        var gross := ReserveAt(nextSupply) - ReserveAt(prev.issuedSupplyAtoms);
        if gross < 1 then Err(Error.EconomicDust) else Ok(Step(AtSupply(prev, nextSupply), gross))
  }

  function ApplyRedeem(prev: State, amountAtoms: int): Result<Step, Error> {
    var bad := ValidateState(prev);
    if bad.Some? then Err(bad.value)
    else if amountAtoms <= 0 then Err(ZeroAmount)
    else if amountAtoms % ATOMS_PER_TOKEN != 0 then Err(SubtokenAmount)
    else if amountAtoms % LOT_ATOMS != 0 then Err(NotWholeLots)
    else if amountAtoms > prev.issuedSupplyAtoms then Err(RedeemExceedsSupply)
    else
      var nextSupply := prev.issuedSupplyAtoms - amountAtoms;
      var gross := ReserveAt(prev.issuedSupplyAtoms) - ReserveAt(nextSupply);
      if gross < 1 then Err(Error.EconomicDust) else Ok(Step(AtSupply(prev, nextSupply), gross))
  }

  /** The stage of a supply: stage k sells the k-th hundred thousand tokens, and a sold-out supply is
      on the last. */
  lemma StageOfSupply(supplyAtoms: nat)
    requires supplyAtoms <= PUBLIC_SUPPLY_ATOMS
    ensures var stage := ImpliedStage(supplyAtoms);
            && 1 <= stage <= STAGE_COUNT
            && (supplyAtoms < PUBLIC_SUPPLY_ATOMS ==>
                  (stage - 1) * 100_000 * ATOMS_PER_TOKEN <= supplyAtoms < stage * 100_000 * ATOMS_PER_TOKEN)
            && (supplyAtoms == PUBLIC_SUPPLY_ATOMS ==> stage == STAGE_COUNT)
  {
  }

  /** A state is valid exactly when every derived field is what its token and supply make it. */
  lemma ValidExactly(s: State)
    ensures ValidState(s) <==>
              && s.stateVersion == 2 && s.policyVersion == 3 && ValidTokenId(s.tokenId)
              && 0 <= s.issuedSupplyAtoms <= PUBLIC_SUPPLY_ATOMS && s.issuedSupplyAtoms % LOT_ATOMS == 0
              && s.curveStage == ImpliedStage(s.issuedSupplyAtoms) && s.backingSats == ReserveAt(s.issuedSupplyAtoms)
  {
    hide ImpliedStage, Reserve, ValidTokenId;
    if s.issuedSupplyAtoms % LOT_ATOMS == 0 {
      LotsAreTokens(s.issuedSupplyAtoms);
    }
  }

  lemma LotsAreTokens(atoms: int)
    requires atoms % LOT_ATOMS == 0
    ensures atoms % ATOMS_PER_TOKEN == 0
  {
  }

  /** From a valid state the reason for refusing an amount is the first that applies. */
  lemma RefusedExactly(prev: State, amountAtoms: int)
    requires ValidState(prev)
    ensures var m, r := ApplyMint(prev, amountAtoms), ApplyRedeem(prev, amountAtoms);
            var positive := amountAtoms > 0;
            var tokens, lots := amountAtoms % ATOMS_PER_TOKEN == 0, amountAtoms % LOT_ATOMS == 0;
            && (m == Err(ZeroAmount) <==> !positive) && (r == Err(ZeroAmount) <==> !positive)
            && (m == Err(SubtokenAmount) <==> positive && !tokens)
            && (r == Err(SubtokenAmount) <==> positive && !tokens)
            && (m == Err(NotWholeLots) <==> positive && tokens && !lots)
            && (r == Err(NotWholeLots) <==> positive && tokens && !lots)
            && (m == Err(Overmint) <==>
                  positive && tokens && lots && prev.issuedSupplyAtoms + amountAtoms > PUBLIC_SUPPLY_ATOMS)
            && (r == Err(RedeemExceedsSupply) <==> positive && tokens && lots && amountAtoms > prev.issuedSupplyAtoms)
  {
    hide ReserveAt, Reserve, ValidTokenId, ImpliedStage;
  }

  /** The reason for refusing a state is true of it. */
  lemma StateReasonIsTrue(s: State)
    ensures match ValidateState(s)
            case None => true
            case Some(BadStateVersion) => s.stateVersion != 2
            case Some(BadPolicyVersion) => s.policyVersion != 3
            case Some(InvalidTokenId) => !ValidTokenId(s.tokenId)
            case Some(SupplyOutOfRange) => s.issuedSupplyAtoms < 0 || s.issuedSupplyAtoms > PUBLIC_SUPPLY_ATOMS
            case Some(SupplyNotAtomic) => s.issuedSupplyAtoms % ATOMS_PER_TOKEN != 0
            case Some(SupplyNotLots) => s.issuedSupplyAtoms % LOT_ATOMS != 0
            case Some(CurveStageMismatch) =>
              s.issuedSupplyAtoms >= 0 && s.curveStage != ImpliedStage(s.issuedSupplyAtoms)
            case Some(BackingMismatch) =>
              0 <= s.issuedSupplyAtoms <= PUBLIC_SUPPLY_ATOMS && s.backingSats != ReserveAt(s.issuedSupplyAtoms)
            case Some(_) => false
  {
    hide ImpliedStage, Reserve, ValidTokenId;
  }

  // ── One step ─────────────────────────────────────────────────────────────

  lemma AtomsToLots(atoms: int)
    requires 0 <= atoms && atoms % LOT_ATOMS == 0
    ensures atoms % ATOMS_PER_TOKEN == 0
    ensures WholeLots(atoms / ATOMS_PER_TOKEN)
    ensures atoms == atoms / ATOMS_PER_TOKEN * ATOMS_PER_TOKEN
    ensures atoms / ATOMS_PER_TOKEN / LOT_TOKENS == atoms / LOT_ATOMS
    ensures atoms > 0 ==> atoms / ATOMS_PER_TOKEN >= LOT_TOKENS
  {
  }

  lemma AtomSums(a: int, b: int)
    requires a % LOT_ATOMS == 0 && b % LOT_ATOMS == 0
    ensures (a + b) % LOT_ATOMS == 0 && (a - b) % LOT_ATOMS == 0
    ensures 0 <= a && 0 <= b ==> (a + b) / ATOMS_PER_TOKEN == a / ATOMS_PER_TOKEN + b / ATOMS_PER_TOKEN
  {
    var x, y := a / LOT_ATOMS, b / LOT_ATOMS;
    assert a == x * LOT_ATOMS && b == y * LOT_ATOMS;
    assert a + b == (x + y) * LOT_ATOMS && a - b == (x - y) * LOT_ATOMS;
  }

  /** Minting whole lots inside the cap moves the reserve by at least 27 sats. */
  lemma LotsMoveTheReserve(supplyAtoms: int, amountAtoms: int)
    requires 0 <= supplyAtoms && 0 < amountAtoms && supplyAtoms + amountAtoms <= PUBLIC_SUPPLY_ATOMS
    requires supplyAtoms % LOT_ATOMS == 0 && amountAtoms % LOT_ATOMS == 0
    ensures ReserveAt(supplyAtoms + amountAtoms) - ReserveAt(supplyAtoms) >= LOT_BASE_SATS
    ensures GrossBuy(supplyAtoms / ATOMS_PER_TOKEN, amountAtoms / ATOMS_PER_TOKEN)
            == Ok(ReserveAt(supplyAtoms + amountAtoms) - ReserveAt(supplyAtoms))
  {
    hide Reserve, WholeLots, LotsCost;
    AtomsToLots(supplyAtoms);
    AtomsToLots(amountAtoms);
    AtomSums(supplyAtoms, amountAtoms);
    GrossOfLots(supplyAtoms / ATOMS_PER_TOKEN, amountAtoms / ATOMS_PER_TOKEN);
  }

  /** A mint is accepted exactly when the state is valid and whole lots fit under
      the cap; the dust refusal is never reached. */
  lemma MintAccepted(prev: State, amountAtoms: int)
    ensures ApplyMint(prev, amountAtoms).Ok? <==>
              ValidState(prev) && amountAtoms > 0 && amountAtoms % LOT_ATOMS == 0
              && prev.issuedSupplyAtoms + amountAtoms <= PUBLIC_SUPPLY_ATOMS
    ensures ApplyMint(prev, amountAtoms) != Err(Error.EconomicDust)
    ensures ApplyMint(prev, amountAtoms).Ok? ==>
              ApplyMint(prev, amountAtoms).value == Step(AtSupply(prev, prev.issuedSupplyAtoms + amountAtoms),
                ReserveAt(prev.issuedSupplyAtoms + amountAtoms) - ReserveAt(prev.issuedSupplyAtoms))
  {
    hide ReserveAt, Reserve, ValidTokenId, ImpliedStage;
    if ValidState(prev) && amountAtoms > 0 && amountAtoms % LOT_ATOMS == 0 {
      AtomsToLots(amountAtoms);
      if prev.issuedSupplyAtoms + amountAtoms <= PUBLIC_SUPPLY_ATOMS {
        LotsMoveTheReserve(prev.issuedSupplyAtoms, amountAtoms);
      }
    }
  }

  lemma RedeemAccepted(prev: State, amountAtoms: int)
    ensures ApplyRedeem(prev, amountAtoms).Ok? <==>
              ValidState(prev) && amountAtoms > 0 && amountAtoms % LOT_ATOMS == 0
              && amountAtoms <= prev.issuedSupplyAtoms
    ensures ApplyRedeem(prev, amountAtoms) != Err(Error.EconomicDust)
    ensures ApplyRedeem(prev, amountAtoms).Ok? ==>
              ApplyRedeem(prev, amountAtoms).value == Step(AtSupply(prev, prev.issuedSupplyAtoms - amountAtoms),
                ReserveAt(prev.issuedSupplyAtoms) - ReserveAt(prev.issuedSupplyAtoms - amountAtoms))
  {
    hide ReserveAt, Reserve, ValidTokenId, ImpliedStage;
    if ValidState(prev) && amountAtoms > 0 && amountAtoms % LOT_ATOMS == 0 {
      AtomsToLots(amountAtoms);
      if amountAtoms <= prev.issuedSupplyAtoms {
        AtomSums(prev.issuedSupplyAtoms, amountAtoms);
        LotsMoveTheReserve(prev.issuedSupplyAtoms - amountAtoms, amountAtoms);
      }
    }
  }

  /** Moving a valid state to another whole-lot supply gives a valid state. */
  lemma AtSupplyIsValid(s: State, supplyAtoms: int)
    requires ValidState(s)
    requires 0 <= supplyAtoms <= PUBLIC_SUPPLY_ATOMS && supplyAtoms % LOT_ATOMS == 0
    ensures ValidState(AtSupply(s, supplyAtoms))
  {
    hide Reserve, ValidTokenId, ImpliedStage;
    AtomsToLots(supplyAtoms);
  }

  lemma S0IsValid(tokenId: string)
    requires ValidTokenId(tokenId)
    ensures ValidState(S0State(tokenId))
  {
    hide ValidTokenId;
    assert ReserveAt(0) == 0 by { WalkEmpty(0); }
  }

  /** A valid state is determined by its token and its supply. */
  lemma ValidStateDetermined(s: State, t: State)
    requires ValidState(s) && ValidState(t)
    requires s.tokenId == t.tokenId && s.issuedSupplyAtoms == t.issuedSupplyAtoms
    ensures s == t
  {
    hide Reserve, ValidTokenId, ImpliedStage;
  }

  /** Redeeming exactly what was minted restores the state and pays back exactly the gross. */
  lemma MintThenRedeem(prev: State, amountAtoms: int)
    requires ApplyMint(prev, amountAtoms).Ok?
    ensures var m := ApplyMint(prev, amountAtoms).value;
            ApplyRedeem(m.next, amountAtoms) == Ok(Step(prev, m.grossSats))
  {
    hide Reserve, ValidTokenId, ImpliedStage, ApplyMint, ApplyRedeem, ValidateState;
    MintAccepted(prev, amountAtoms);
    var next := ApplyMint(prev, amountAtoms).value.next;
    ValidFacts(prev);
    AtomSums(prev.issuedSupplyAtoms, amountAtoms);
    AtSupplyIsValid(prev, prev.issuedSupplyAtoms + amountAtoms);
    RedeemAccepted(next, amountAtoms);
    AtSupplyIsValid(next, prev.issuedSupplyAtoms);
    ValidStateDetermined(prev, AtSupply(next, prev.issuedSupplyAtoms));
  }

  lemma ValidFacts(s: State)
    requires ValidState(s)
    ensures 0 <= s.issuedSupplyAtoms <= PUBLIC_SUPPLY_ATOMS && s.issuedSupplyAtoms % LOT_ATOMS == 0
    ensures s.backingSats == ReserveAt(s.issuedSupplyAtoms)
    ensures ValidTokenId(s.tokenId)
  {
    hide Reserve, ValidTokenId, ImpliedStage;
  }

  // ── Runs ─────────────────────────────────────────────────────────────────

  datatype Op = Mint(amount: int) | Redeem(amount: int)

  function Apply(s: State, op: Op): Result<Step, Error> {
    match op
    case Mint(a) => ApplyMint(s, a)
    case Redeem(a) => ApplyRedeem(s, a)
  }

  /** The signed supply change of an operation. */
  function Delta(op: Op): int {
    match op
    case Mint(a) => a
    case Redeem(a) => -a
  }

  function NetAmount(ops: seq<Op>): int {
    if ops == [] then 0 else Delta(ops[0]) + NetAmount(ops[1..])
  }

  /** Apply the operations in order, stopping at the first refusal; the gross is
      what buyers paid in less what the vault paid out. */
  function Run(s: State, ops: seq<Op>): Result<Step, Error>
    decreases |ops|
  {
    if ops == [] then Ok(Step(s, 0))
    else
      var first :- Apply(s, ops[0]);
      var rest :- Run(first.next, ops[1..]);
      var paid := if ops[0].Mint? then first.grossSats else -first.grossSats;
      Ok(Step(rest.next, paid + rest.grossSats))
  }

  lemma StepKeepsValid(s: State, op: Op)
    requires Apply(s, op).Ok?
    ensures var r := Apply(s, op).value;
            && ValidState(s) && ValidState(r.next)
            && r.next.tokenId == s.tokenId
            && r.next.issuedSupplyAtoms == s.issuedSupplyAtoms + Delta(op)
            && (if op.Mint? then r.grossSats else -r.grossSats) == r.next.backingSats - s.backingSats
            && r.grossSats >= 1
  {
    hide Reserve, ValidTokenId, ImpliedStage, ApplyMint, ApplyRedeem, ValidateState;
    if op.Mint? {
      MintAccepted(s, op.amount);
      ValidFacts(s);
      AtomSums(s.issuedSupplyAtoms, op.amount);
      AtSupplyIsValid(s, s.issuedSupplyAtoms + op.amount);
      LotsMoveTheReserve(s.issuedSupplyAtoms, op.amount);
    } else {
      RedeemAccepted(s, op.amount);
      ValidFacts(s);
      AtomSums(s.issuedSupplyAtoms, op.amount);
      AtSupplyIsValid(s, s.issuedSupplyAtoms - op.amount);
      LotsMoveTheReserve(s.issuedSupplyAtoms - op.amount, op.amount);
    }
  }

  /** Every accepted run keeps the state valid, and its net gross telescopes to R(end) - R(start). */
  lemma {:induction false} RunTelescopes(s: State, ops: seq<Op>)
    requires ValidState(s) && Run(s, ops).Ok?
    ensures var r := Run(s, ops).value;
            && ValidState(r.next)
            && r.next.tokenId == s.tokenId
            && r.next.issuedSupplyAtoms == s.issuedSupplyAtoms + NetAmount(ops)
            && r.grossSats == r.next.backingSats - s.backingSats
    decreases |ops|
  {
    if ops != [] {
      hide Reserve, ValidateState, Apply;
      StepKeepsValid(s, ops[0]);
      RunTelescopes(Apply(s, ops[0]).value.next, ops[1..]);
    }
  }

  /** Two accepted runs from one state with the same net amount end in the identical state, at the same net price. */
  lemma SameNetSameState(s: State, a: seq<Op>, b: seq<Op>)
    requires ValidState(s) && Run(s, a).Ok? && Run(s, b).Ok?
    requires NetAmount(a) == NetAmount(b)
    ensures Run(s, a) == Run(s, b)
  {
    hide Run, ValidateState;
    RunTelescopes(s, a);
    RunTelescopes(s, b);
    ValidStateDetermined(Run(s, a).value.next, Run(s, b).value.next);
  }

  /** The vault is always solvent: at every point of every run all issued supply can be
      redeemed in one step, for exactly the backing held. */
  lemma AllSupplyRedeemable(tokenId: string, ops: seq<Op>)
    requires ValidTokenId(tokenId) && Run(S0State(tokenId), ops).Ok?
    ensures var end := Run(S0State(tokenId), ops).value;
            end.grossSats == end.next.backingSats >= 0 &&
            (end.next.issuedSupplyAtoms > 0 ==>
               ApplyRedeem(end.next, end.next.issuedSupplyAtoms) == Ok(Step(S0State(tokenId), end.next.backingSats)))
  {
    hide Run, ValidTokenId, ApplyRedeem, ValidateState;
    S0IsValid(tokenId);
    RunTelescopes(S0State(tokenId), ops);
    var s := Run(S0State(tokenId), ops).value.next;
    ValidFacts(s);
    ValidFacts(S0State(tokenId));
    if s.issuedSupplyAtoms > 0 {
      RedeemAccepted(s, s.issuedSupplyAtoms);
      AtSupplyIsValid(s, 0);
      ValidStateDetermined(AtSupply(s, 0), S0State(tokenId));
    }
  }

  // ── Splitting a mint ─────────────────────────────────────────────────────

  datatype MintFees = MintFees(bps: nat, flatPerMint: nat, perLot: nat, creatorBps: nat)

  /** What a buyer pays for one accepted mint: curve price, protocol fee and creator share. */
  function BuyerTotal(gross: nat, amountAtoms: nat, f: MintFees): nat {
    gross + MintFeeSats(gross, amountAtoms, f.bps, f.flatPerMint, f.perLot) + CreatorFeeSats(gross, f.creatorBps)
  }

  function Mints(parts: seq<nat>): seq<Op> {
    seq(|parts|, i requires 0 <= i < |parts| => Mint(parts[i]))
  }

  /** The buyer's outlay over a run of mints. */
  function Outlay(s: State, parts: seq<nat>, f: MintFees): nat
    requires Run(s, Mints(parts)).Ok?
    decreases |parts|
  {
    if parts == [] then 0
    else
      MintsTail(parts);
      var first := ApplyMint(s, parts[0]).value;
      BuyerTotal(first.grossSats, parts[0], f) + Outlay(first.next, parts[1..], f)
  }

  lemma MintsTail(parts: seq<nat>)
    requires parts != []
    ensures Mints(parts)[0] == Mint(parts[0])
    ensures Mints(parts)[1..] == Mints(parts[1..])
  {
  }

  /** The first mint of an accepted run, and the run that is left. */
  lemma FirstMint(s: State, parts: seq<nat>)
    requires parts != [] && Run(s, Mints(parts)).Ok?
    ensures ApplyMint(s, parts[0]).Ok?
    ensures var first := ApplyMint(s, parts[0]).value;
            && Run(first.next, Mints(parts[1..])).Ok?
            && Run(s, Mints(parts)).value
               == Step(Run(first.next, Mints(parts[1..])).value.next,
                       first.grossSats + Run(first.next, Mints(parts[1..])).value.grossSats)
  {
    hide ApplyMint, ApplyRedeem;
    MintsTail(parts);
  }

  lemma {:induction false} NetOfMints(parts: seq<nat>)
    ensures NetAmount(Mints(parts)) == Sum(parts)
    decreases |parts|
  {
    if parts != [] {
      MintsTail(parts);
      NetOfMints(parts[1..]);
    }
  }

  lemma TwoMintsCostMore(g1: nat, a1: nat, g2: nat, a2: nat, f: MintFees)
    requires g1 > 0 && g2 > 0
    requires a1 % LOT_ATOMS == 0 && a2 % LOT_ATOMS == 0
    ensures BuyerTotal(g1 + g2, a1 + a2, f) + f.flatPerMint <= BuyerTotal(g1, a1, f) + BuyerTotal(g2, a2, f)
  {
    hide FeeOf;
    var l1, l2 := a1 / LOT_ATOMS, a2 / LOT_ATOMS;
    assert (a1 + a2) / LOT_ATOMS == l1 + l2;
    assert f.perLot * (l1 + l2) == f.perLot * l1 + f.perLot * l2;
    assert f.perLot * l1 >= 0 && f.perLot * l2 >= 0 by { MulMono(0, l1, f.perLot); MulMono(0, l2, f.perLot); }
    FeeSubadditive(g1, g2, f.bps, f.flatPerMint, f.perLot * l1, f.perLot * l2, 0);
    FeeSubadditive(g1, g2, f.creatorBps, 0, 0, 0, CREATOR_MIN_SATS);
  }

  lemma {:induction false} LotsInParts(s: State, parts: seq<nat>)
    requires ValidState(s) && Run(s, Mints(parts)).Ok?
    ensures Sum(parts) % LOT_ATOMS == 0
    ensures parts != [] ==> Sum(parts) > 0
    decreases |parts|
  {
    if parts != [] {
      assert Sum(parts) == parts[0] + Sum(parts[1..]);
      hide Reserve, ValidState, ApplyMint, Mints, Run;
      FirstMint(s, parts);
      MintAccepted(s, parts[0]);
      StepKeepsValid(s, Mint(parts[0]));
      LotsInParts(ApplyMint(s, parts[0]).value.next, parts[1..]);
      AtomSums(parts[0], Sum(parts[1..]));
    }
  }

  /** Cutting a mint into k accepted mints leaves the curve price unchanged and never
      lowers the buyer's total: it adds at least the flat charge k - 1 times. */
  lemma {:induction false} SplittingNeverPays(s: State, parts: seq<nat>, f: MintFees)
    requires ValidState(s) && parts != [] && Run(s, Mints(parts)).Ok?
    ensures ApplyMint(s, Sum(parts)).Ok?
    ensures ApplyMint(s, Sum(parts)).value == Run(s, Mints(parts)).value
    ensures BuyerTotal(ApplyMint(s, Sum(parts)).value.grossSats, Sum(parts), f) + f.flatPerMint * (|parts| - 1)
            <= Outlay(s, parts, f)
    decreases |parts|
  {
    hide Reserve, ValidateState, ApplyMint, BuyerTotal, Mints, Run;
    FirstMint(s, parts);
    WholeMint(s, parts);
    var first := ApplyMint(s, parts[0]).value;
    var rest := parts[1..];
    StepKeepsValid(s, Mint(parts[0]));
    if rest == [] {
      assert Sum(rest) == 0 && Sum(parts) == parts[0];
      assert f.flatPerMint * 0 == 0;
    } else {
      SplittingNeverPays(first.next, rest, f);
      StepKeepsValid(first.next, Mint(Sum(rest)));
      MintAccepted(s, parts[0]);
      LotsInParts(first.next, rest);
      var tail := ApplyMint(first.next, Sum(rest)).value;
      assert tail == Run(first.next, Mints(rest)).value;
      TwoMintsCostMore(first.grossSats, parts[0], tail.grossSats, Sum(rest), f);
      assert f.flatPerMint * (|parts| - 1) == f.flatPerMint + f.flatPerMint * (|rest| - 1);
    }
  }

  lemma WholeMint(s: State, parts: seq<nat>)
    requires ValidState(s) && parts != [] && Run(s, Mints(parts)).Ok?
    ensures ApplyMint(s, Sum(parts)).Ok?
    ensures ApplyMint(s, Sum(parts)).value == Run(s, Mints(parts)).value
  {
    hide Reserve, ValidateState, ApplyMint, Run, Mints, Sum, NetAmount;
    RunTelescopes(s, Mints(parts));
    NetOfMints(parts);
    LotsInParts(s, parts);
    var end := Run(s, Mints(parts)).value.next;
    ValidFacts(end);
    MintAccepted(s, Sum(parts));
    StepKeepsValid(s, Mint(Sum(parts)));
    ValidStateDetermined(end, ApplyMint(s, Sum(parts)).value.next);
  }
}
