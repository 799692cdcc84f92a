/** Walking the vault forward through transitions that are broadcast but not mined. */
module PendingWalk {
  import opened Wrappers
  import opened Constants
  import opened TransitionV2
  import opened Fee

  const MAX_PENDING_BACKING_CHAIN: nat := 24
  const BACKING_SUCCESSOR_VOUT: nat := 1

  datatype Row = Row(state: State, txid: string, vout: nat, script: seq<nat>, valueSats: int)

  datatype Envelope = MintEnvelope(amount: int) | RedeemEnvelope(amount: int) | OtherEnvelope

  datatype TxOut = TxOut(script: seq<nat>, value: int)

  /** A transaction; no envelope is an output 0 that does not decode. */
  datatype Tx = Tx(id: string, envelope: Option<Envelope>, outs: seq<TxOut>)

  /** What the node hands over for a txid it knows. */
  datatype RawTx = Undecodable | Decoded(tx: Tx)

  /** What the database and the node answer during one walk. */
  datatype World = World(spendOf: (string, nat) -> Option<string>, raw: string -> Option<RawTx>)

  datatype WalkError = NotATransaction | Refused(error: Error)

  datatype Next = Moved(row: Row) | Stop | Throws(error: WalkError)

  predicate At(row: Row, outpoint: (string, nat)) {
    row.txid == outpoint.0 && row.vout == outpoint.1
  }

  /** The vault operation a transaction claims, if any. */
  function ClaimedOp(tx: Tx): Option<Op> {
    if tx.envelope.None? then None
    else match tx.envelope.value
      case MintEnvelope(a) => Some(Mint(a))
      case RedeemEnvelope(a) => Some(Redeem(a))
      case OtherEnvelope => None
  }

  /** What is known of the broadcast spend of this vault output, if it is known at all. */
  function SpendOf(w: World, tip: Row): Option<RawTx> {
    var txid := w.spendOf(tip.txid, tip.vout);
    if txid.None? then None else w.raw(txid.value)
  }

  /** The transaction spending this vault output, when there is one that claims a vault operation. */
  function SpendClaim(w: World, tip: Row): Option<(Tx, Op)> {
    match SpendOf(w, tip)
    case Some(Decoded(tx)) => if ClaimedOp(tx).None? then None else Some((tx, ClaimedOp(tx).value))
    case _ => None
  }

  /** One step of the walk. */
  function Step(w: World, tip: Row): Next {
    var claim := SpendClaim(w, tip);
    if SpendOf(w, tip) == Some(Undecodable) then Throws(NotATransaction)
    else if claim.None? then Stop
    else
      var (tx, op) := claim.value;
      var applied := Apply(tip.state, op);
      if applied.Err? then Throws(Refused(applied.error))
      else
        var next := applied.value.next;
        var expected := RESERVE_ANCHOR_SATS + next.backingSats;
        if |tx.outs| <= BACKING_SUCCESSOR_VOUT || tx.outs[BACKING_SUCCESSOR_VOUT].value != expected then Stop
        else Moved(Row(next, tx.id, BACKING_SUCCESSOR_VOUT, tx.outs[BACKING_SUCCESSOR_VOUT].script, expected))
  }

  function Walk(w: World, tip: Row, stopAt: Option<(string, nat)>, fuel: nat): Result<Row, WalkError>
    decreases fuel
  {
    if fuel == 0 || (stopAt.Some? && At(tip, stopAt.value)) then Ok(tip)
    else match Step(w, tip)
      case Stop => Ok(tip)
      case Throws(e) => Err(e)
      case Moved(row) => Walk(w, row, stopAt, fuel - 1)
  }

  method FollowPendingBacking(w: World, confirmed: Row, stopAt: Option<(string, nat)>)
    returns (r: Result<Row, WalkError>)
    ensures r == Walk(w, confirmed, stopAt, 24)
  {
    hide TransitionV2.ApplyMint, TransitionV2.ApplyRedeem;
    var tip := confirmed;
    for depth := 0 to MAX_PENDING_BACKING_CHAIN
      invariant Walk(w, confirmed, stopAt, MAX_PENDING_BACKING_CHAIN)
                == Walk(w, tip, stopAt, MAX_PENDING_BACKING_CHAIN - depth)
    {
      if stopAt.Some? && At(tip, stopAt.value) {
        return Ok(tip);
      }
      var next := w.spendOf(tip.txid, tip.vout);
      if next.None? {
        return Ok(tip);
      }
      var raw := w.raw(next.value);
      if raw.None? {
        return Ok(tip);
      }
      if raw.value.Undecodable? {
        return Err(NotATransaction);
      }
      var tx := raw.value.tx;
      if tx.envelope.None? {
        return Ok(tip);
      }
      var applied: Result<TransitionV2.Step, Error>;
      match tx.envelope.value {
        case MintEnvelope(amount) => applied := ApplyMint(tip.state, amount);
        case RedeemEnvelope(amount) => applied := ApplyRedeem(tip.state, amount);
        case OtherEnvelope => return Ok(tip);
      }
      if applied.Err? {
        return Err(Refused(applied.error));
      }
      var nextState := applied.value.next;
      var expected := RESERVE_ANCHOR_SATS + nextState.backingSats;
      if |tx.outs| <= BACKING_SUCCESSOR_VOUT || tx.outs[BACKING_SUCCESSOR_VOUT].value != expected {
        return Ok(tip);
      }
      tip := Row(nextState, tx.id, BACKING_SUCCESSOR_VOUT, tx.outs[BACKING_SUCCESSOR_VOUT].script, expected);
    }
    r := Ok(tip);
  }

  /** A row whose state is valid and whose output carries the anchor plus R(supply). */
  predicate Sound(row: Row) {
    && ValidState(row.state)
    && row.valueSats == RESERVE_ANCHOR_SATS + ReserveAt(row.state.issuedSupplyAtoms)
  }

  lemma StepSound(w: World, tip: Row)
    requires Sound(tip) && Step(w, tip).Moved?
    ensures Sound(Step(w, tip).row) && Step(w, tip).row.state.tokenId == tip.state.tokenId
  {
    hide ValidateState, ReserveAt, Apply;
    var (_, op) := SpendClaim(w, tip).value;
    StepKeepsValid(tip.state, op);
    ValidFacts(Step(w, tip).row.state);
  }

  /** Whatever transactions it meets, a walk that returns gives a sound row of the same token,
      reached from the confirmed state by at most `fuel` accepted mints and redemptions. */
  lemma {:induction false} WalkIsCanonical(w: World, tip: Row, stopAt: Option<(string, nat)>, fuel: nat)
    returns (ops: seq<Op>)
    requires Sound(tip) && Walk(w, tip, stopAt, fuel).Ok?
    ensures var row := Walk(w, tip, stopAt, fuel).value;
            && Sound(row) && row.state.tokenId == tip.state.tokenId
            && |ops| <= fuel
            && Run(tip.state, ops).Ok? && Run(tip.state, ops).value.next == row.state
            && (ops != [] ==> row.vout == BACKING_SUCCESSOR_VOUT)
            && (ops == [] ==> row == tip)
    decreases fuel
  {
    hide ValidateState, ReserveAt, Apply;
    ops := [];
    if fuel > 0 && !(stopAt.Some? && At(tip, stopAt.value)) && Step(w, tip).Moved? {
      var (_, op) := SpendClaim(w, tip).value;
      var row := Step(w, tip).row;
      StepSound(w, tip);
      var rest := WalkIsCanonical(w, row, stopAt, fuel - 1);
      ops := [op] + rest;
      assert ops[1..] == rest;
    }
  }

  // ── What a step follows ──────────────────────────────────────────────────

  /** The node's transaction for the spend of this vault output that the database reports. */
  ghost predicate IsSpend(w: World, tip: Row, tx: Tx) {
    && w.spendOf(tip.txid, tip.vout).Some?
    && w.raw(w.spendOf(tip.txid, tip.vout).value) == Some(Decoded(tx))
  }

  /** What the transition makes of the amount a transaction claims; None for no vault operation. */
  function Claimed(s: State, tx: Tx): Option<Result<TransitionV2.Step, Error>> {
    match tx.envelope
    case Some(MintEnvelope(amount)) => Some(ApplyMint(s, amount))
    case Some(RedeemEnvelope(amount)) => Some(ApplyRedeem(s, amount))
    case _ => None
  }

  /** The transaction's output 1 holds the anchor and the successor's backing. */
  predicate HoldsSuccessor(s: State, tx: Tx) {
    && Claimed(s, tx).Some? && Claimed(s, tx).value.Ok?
    && |tx.outs| > 1 && tx.outs[1].value == 10_000 + Claimed(s, tx).value.value.next.backingSats
  }

  /** The walk moves exactly over a transaction that spends this vault, claims an acceptable operation
      and holds its successor, to that transaction's output 1. */
  lemma MovesExactly(w: World, tip: Row)
    ensures Step(w, tip).Moved? <==> exists tx :: IsSpend(w, tip, tx) && HoldsSuccessor(tip.state, tx)
    ensures forall tx :: Step(w, tip).Moved? && IsSpend(w, tip, tx) ==>
              && HoldsSuccessor(tip.state, tx)
              && Step(w, tip).row
                 == Row(Claimed(tip.state, tx).value.value.next, tx.id, 1, tx.outs[1].script, tx.outs[1].value)
  {
    hide ApplyMint, ApplyRedeem;
    if SpendOf(w, tip).Some? && SpendOf(w, tip).value.Decoded? {
      var tx := SpendOf(w, tip).value.tx;
      assert IsSpend(w, tip, tx);
      assert ClaimedOp(tx).Some? ==> Claimed(tip.state, tx) == Some(Apply(tip.state, ClaimedOp(tx).value));
    }
  }

  /** It stops exactly when the database reports no spend or the node does not know it, when it is no
      vault operation, and when an acceptable one does not hold its successor. */
  lemma StopsExactly(w: World, tip: Row)
    ensures Step(w, tip).Stop? <==>
              || w.spendOf(tip.txid, tip.vout).None?
              || w.raw(w.spendOf(tip.txid, tip.vout).value).None?
              || exists tx :: IsSpend(w, tip, tx)
                              && (Claimed(tip.state, tx).None?
                                  || (Claimed(tip.state, tx).value.Ok? && !HoldsSuccessor(tip.state, tx)))
  {
    hide ApplyMint, ApplyRedeem;
    if SpendOf(w, tip).Some? && SpendOf(w, tip).value.Decoded? {
      var tx := SpendOf(w, tip).value.tx;
      assert IsSpend(w, tip, tx);
      assert ClaimedOp(tx).Some? ==> Claimed(tip.state, tx) == Some(Apply(tip.state, ClaimedOp(tx).value));
    }
  }

  /** One row is output 1 of the transaction reported as spending the other, in its successor state. */
  ghost predicate Follows(w: World, row: Row, next: Row) {
    exists tx ::
      && IsSpend(w, row, tx) && HoldsSuccessor(row.state, tx)
      && next == Row(Claimed(row.state, tx).value.value.next, tx.id, 1, tx.outs[1].script, tx.outs[1].value)
  }

  lemma MovedFollows(w: World, tip: Row)
    ensures Step(w, tip).Moved? ==> Follows(w, tip, Step(w, tip).row)
  {
    hide Step, HoldsSuccessor, Claimed;
    MovesExactly(w, tip);
  }

  /** A walk that returns has followed a chain of spends, each of the output before, and ends at the
      requested outpoint, at its depth, or where nothing follows. */
  lemma {:induction false} WalkIsAChain(w: World, tip: Row, stopAt: Option<(string, nat)>, fuel: nat)
    returns (rows: seq<Row>)
    requires Walk(w, tip, stopAt, fuel).Ok?
    ensures 0 < |rows| <= fuel + 1 && rows[0] == tip && rows[|rows| - 1] == Walk(w, tip, stopAt, fuel).value
    ensures forall k :: 0 <= k < |rows| - 1 ==>
              Follows(w, rows[k], rows[k + 1]) && !(stopAt.Some? && At(rows[k], stopAt.value))
    ensures var last := rows[|rows| - 1];
            || (stopAt.Some? && At(last, stopAt.value)) || |rows| == fuel + 1 || forall next :: !Follows(w, last, next)
    decreases fuel
  {
    hide Step, Follows;
    rows := [tip];
    if fuel > 0 && !(stopAt.Some? && At(tip, stopAt.value)) {
      if Step(w, tip).Moved? {
        MovedFollows(w, tip);
        var rest := WalkIsAChain(w, Step(w, tip).row, stopAt, fuel - 1);
        rows := [tip] + rest;
      } else {
        forall next
          ensures !Follows(w, tip, next)
        {
          NothingFollows(w, tip, next);
        }
      }
    }
  }

  lemma NothingFollows(w: World, tip: Row, next: Row)
    ensures !Step(w, tip).Moved? ==> !Follows(w, tip, next)
  {
    hide Step, HoldsSuccessor, Claimed;
    MovesExactly(w, tip);
  }

  // ── Where the walk stops ─────────────────────────────────────────────────

  /** The row after `n` steps without a requested stop, if the walk gets that far. */
  function TipAfter(w: World, tip: Row, n: nat): Option<Row>
    decreases n
  {
    if n == 0 then Some(tip)
    else match Step(w, tip)
      case Moved(row) => TipAfter(w, row, n - 1)
      case _ => None
  }

  /** When the walk passes through the requested outpoint within its depth, it stops
      at the first row there. */
  lemma {:induction false} StopsAtRequested(w: World, tip: Row, outpoint: (string, nat), fuel: nat, n: nat)
    requires n <= fuel && TipAfter(w, tip, n).Some? && At(TipAfter(w, tip, n).value, outpoint)
    requires forall m :: 0 <= m < n ==> TipAfter(w, tip, m).Some? && !At(TipAfter(w, tip, m).value, outpoint)
    ensures Walk(w, tip, Some(outpoint), fuel) == Ok(TipAfter(w, tip, n).value)
    decreases n
  {
    hide Step;
    if n > 0 {
      assert !At(TipAfter(w, tip, 0).value, outpoint);
      var row := Step(w, tip).row;
      forall m | 0 <= m < n - 1
        ensures TipAfter(w, row, m).Some? && !At(TipAfter(w, row, m).value, outpoint)
      {
        assert TipAfter(w, row, m) == TipAfter(w, tip, m + 1);
      }
      StopsAtRequested(w, row, outpoint, fuel - 1, n - 1);
    }
  }

  /** When it never passes there, asking for the outpoint changes nothing. */
  lemma {:induction false} UnmetStopIsIgnored(w: World, tip: Row, outpoint: (string, nat), fuel: nat)
    requires forall m :: 0 <= m < fuel && TipAfter(w, tip, m).Some? ==> !At(TipAfter(w, tip, m).value, outpoint)
    ensures Walk(w, tip, Some(outpoint), fuel) == Walk(w, tip, None, fuel)
    decreases fuel
  {
    hide Step;
    if fuel > 0 {
      assert !At(TipAfter(w, tip, 0).value, outpoint);
      if Step(w, tip).Moved? {
        var row := Step(w, tip).row;
        forall m | 0 <= m < fuel - 1 && TipAfter(w, row, m).Some?
          ensures !At(TipAfter(w, row, m).value, outpoint)
        {
          assert TipAfter(w, row, m) == TipAfter(w, tip, m + 1);
        }
        UnmetStopIsIgnored(w, row, outpoint, fuel - 1);
      }
    }
  }

  // ── When the walk does not return ────────────────────────────────────────

  /** Amounts the transition accepts from this state. */
  predicate AcceptableAmount(s: State, op: Op) {
    && op.amount > 0 && op.amount % LOT_ATOMS == 0
    && (op.Mint? ==> s.issuedSupplyAtoms + op.amount <= PUBLIC_SUPPLY_ATOMS)
    && (op.Redeem? ==> op.amount <= s.issuedSupplyAtoms)
  }

  /** The spend of this vault output is not a transaction, or claims an amount the transition
      refuses. */
  predicate MeetsBadSpend(w: World, tip: Row) {
    || SpendOf(w, tip) == Some(Undecodable)
    || (SpendClaim(w, tip).Some? && !AcceptableAmount(tip.state, SpendClaim(w, tip).value.1))
  }

  /** The walk is documented to stop at anything that does not line up. It throws instead
      exactly when the spend is not a transaction or claims a mint or redemption of an amount the
      transition refuses. */
  lemma StepThrowsExactly(w: World, tip: Row)
    requires ValidState(tip.state)
    ensures Step(w, tip).Throws? <==> MeetsBadSpend(w, tip)
  {
    hide ValidateState, ApplyMint, ApplyRedeem;
    if SpendClaim(w, tip).Some? {
      var op := SpendClaim(w, tip).value.1;
      MintAccepted(tip.state, op.amount);
      RedeemAccepted(tip.state, op.amount);
    }
  }

  /** The walk throws exactly when one of its steps does. */
  lemma {:induction false} WalkThrowsAtAStep(w: World, tip: Row, stopAt: Option<(string, nat)>, fuel: nat)
    ensures Walk(w, tip, stopAt, fuel).Err? <==>
              exists n :: 0 <= n < fuel && ThrowsAt(w, tip, stopAt, n)
    decreases fuel
  {
    hide Step;
    if fuel > 0 {
      if stopAt.Some? && At(tip, stopAt.value) {
        forall n | 0 <= n < fuel
          ensures !ThrowsAt(w, tip, stopAt, n)
        {
          assert TipAfter(w, tip, 0) == Some(tip);
        }
      } else if Step(w, tip).Moved? {
        var row := Step(w, tip).row;
        WalkThrowsAtAStep(w, row, stopAt, fuel - 1);
        forall n | 0 <= n < fuel - 1
          ensures ThrowsAt(w, row, stopAt, n) <==> ThrowsAt(w, tip, stopAt, n + 1)
        {
          ThrowsShift(w, tip, stopAt, n);
        }
        if n :| 0 <= n < fuel && ThrowsAt(w, tip, stopAt, n) {
          assert n > 0;
          assert ThrowsAt(w, row, stopAt, n - 1);
        }
        if n :| 0 <= n < fuel - 1 && ThrowsAt(w, row, stopAt, n) {
          assert ThrowsAt(w, tip, stopAt, n + 1);
        }
      } else {
        if Step(w, tip).Throws? {
          assert ThrowsAt(w, tip, stopAt, 0);
        }
        if n :| 0 <= n < fuel && ThrowsAt(w, tip, stopAt, n) {
          assert n == 0;
        }
      }
    }
  }

  ghost predicate ThrowsAt(w: World, tip: Row, stopAt: Option<(string, nat)>, n: nat) {
    && TipAfter(w, tip, n).Some?
    && Step(w, TipAfter(w, tip, n).value).Throws?
    && (stopAt.Some? ==>
          forall m :: 0 <= m <= n ==> TipAfter(w, tip, m).Some? && !At(TipAfter(w, tip, m).value, stopAt.value))
  }

  lemma ThrowsShift(w: World, tip: Row, stopAt: Option<(string, nat)>, n: nat)
    requires Step(w, tip).Moved? && !(stopAt.Some? && At(tip, stopAt.value))
    ensures ThrowsAt(w, Step(w, tip).row, stopAt, n) <==> ThrowsAt(w, tip, stopAt, n + 1)
  {
    hide Step;
    var row := Step(w, tip).row;
    assert forall m: nat :: TipAfter(w, row, m) == TipAfter(w, tip, m + 1);
    if ThrowsAt(w, row, stopAt, n) && stopAt.Some? {
      forall m | 0 <= m <= n + 1
        ensures TipAfter(w, tip, m).Some? && !At(TipAfter(w, tip, m).value, stopAt.value)
      {
        if m > 0 {
          assert TipAfter(w, tip, m) == TipAfter(w, row, m - 1);
        }
      }
    }
    if ThrowsAt(w, tip, stopAt, n + 1) && stopAt.Some? {
      forall m | 0 <= m <= n
        ensures TipAfter(w, row, m).Some? && !At(TipAfter(w, row, m).value, stopAt.value)
      {
        assert TipAfter(w, row, m) == TipAfter(w, tip, m + 1);
      }
    }
  }

  lemma {:induction false} TipIsSound(w: World, tip: Row, n: nat)
    requires Sound(tip) && TipAfter(w, tip, n).Some?
    ensures Sound(TipAfter(w, tip, n).value)
    decreases n
  {
    hide Step, Sound;
    if n > 0 {
      StepSound(w, tip);
      TipIsSound(w, Step(w, tip).row, n - 1);
    }
  }

  /** After n steps, none of which started at the requested outpoint, the walk faces a bad spend
      without having arrived there. */
  ghost predicate FacesBadSpend(w: World, tip: Row, stopAt: Option<(string, nat)>, n: nat) {
    && TipAfter(w, tip, n).Some?
    && MeetsBadSpend(w, TipAfter(w, tip, n).value)
    && (stopAt.Some? ==>
          forall m :: 0 <= m <= n ==> TipAfter(w, tip, m).Some? && !At(TipAfter(w, tip, m).value, stopAt.value))
  }

  /** From a sound row the walk throws exactly when, within its depth and before the requested
      outpoint, it faces a spend that is no transaction or claims a refused amount. */
  lemma WalkThrowsExactly(w: World, tip: Row, stopAt: Option<(string, nat)>, fuel: nat)
    requires Sound(tip)
    ensures Walk(w, tip, stopAt, fuel).Err? <==> exists n :: 0 <= n < fuel && FacesBadSpend(w, tip, stopAt, n)
  {
    hide Step, MeetsBadSpend;
    WalkThrowsAtAStep(w, tip, stopAt, fuel);
    forall n | 0 <= n < fuel
      ensures ThrowsAt(w, tip, stopAt, n) <==> FacesBadSpend(w, tip, stopAt, n)
    {
      if TipAfter(w, tip, n).Some? {
        TipIsSound(w, tip, n);
        StepThrowsExactly(w, TipAfter(w, tip, n).value);
      }
    }
  }

  /** A pending transaction that spends the vault and claims a mint of one atom. */
  const ONE_ATOM_MINT := World((_, _) => Some("pending"), _ => Some(Decoded(Tx("pending", Some(MintEnvelope(1)), []))))

  /** Against it no quote is answered, whatever the confirmed state is. */
  lemma OneAtomMintThrows(tip: Row)
    ensures Walk(ONE_ATOM_MINT, tip, None, MAX_PENDING_BACKING_CHAIN).Err?
  {
    hide ApplyMint;
    MintAccepted(tip.state, 1);
    assert SpendClaim(ONE_ATOM_MINT, tip) == Some((Tx("pending", Some(MintEnvelope(1)), []), Mint(1)));
  }
}
