/** What the ledger holds, read from the transactions: who gains and loses what by each of them, and
    every balance as the sum of what the recorded operations moved. */
module CoveHistory {
  import opened Wrappers
  import opened Constants
  import opened CoveV1
  import opened Indexer
  import Store
  import Worker

  // ── One operation ────────────────────────────────────────────────────────

  /** A deployment is accepted exactly for a free well-formed ticker and a supported actor. */
  lemma DeployAcceptedExactly(rules: Rules, s: State, op: Op)
    requires op.Deploy?
    ensures Refusal(rules, s, op).None? <==>
              && ValidTicker(op.ticker) && op.ticker !in s.tickerIndex
              && rules.supported(op.actor) && rules.outputs(op, rules.launchFeeSats).None?
  {
  }

  /** A mint is accepted exactly for a known token at the claimed supply, a positive whole number of
      tokens that are left, supported scripts and a price that is high enough and paid. */
  lemma MintAcceptedExactly(rules: Rules, s: State, op: Op)
    requires op.Mint?
    ensures Refusal(rules, s, op).None? <==>
              && ResolveToken(s, op.ticker).Some?
              && var id := ResolveToken(s, op.ticker).value;
                 var supply := s.tokens[id].supplyAtoms;
                 && op.supplyBefore == supply
                 && op.amount > 0 && op.amount % ATOMS_PER_TOKEN == 0 && supply + op.amount <= PUBLIC_SUPPLY_ATOMS
                 && rules.supported(op.actor) && op.recipient.Some? && rules.supported(op.recipient.value)
                 && var cost := rules.curveCost(supply / ATOMS_PER_TOKEN, op.amount / ATOMS_PER_TOKEN);
                    cost >= rules.minContributionSats && rules.outputs(op, cost + rules.fee(cost)).None?
  {
    if op.amount % ATOMS_PER_TOKEN == 0 && ResolveToken(s, op.ticker).Some? {
      LeftExactly(op.amount, s.tokens[ResolveToken(s, op.ticker).value].supplyAtoms);
    }
  }

  lemma LeftExactly(amount: int, supply: int)
    requires amount % ATOMS_PER_TOKEN == 0
    ensures amount / ATOMS_PER_TOKEN <= (PUBLIC_SUPPLY_ATOMS - supply) / ATOMS_PER_TOKEN <==>
              supply + amount <= PUBLIC_SUPPLY_ATOMS
  {
  }

  /** A transfer is accepted exactly for a known token, a positive amount the actor holds, and two
      different supported scripts. */
  lemma TransferAcceptedExactly(rules: Rules, s: State, op: Op)
    requires op.Transfer?
    ensures Refusal(rules, s, op).None? <==>
              && ResolveToken(s, op.ticker).Some?
              && 0 < op.amount <= Available(s, op.actor, ResolveToken(s, op.ticker).value)
              && rules.supported(op.actor) && op.recipient.Some? && rules.supported(op.recipient.value)
              && op.recipient.value != op.actor && rules.outputs(op, 0).None?
  {
  }

  /** What an operation adds to what `owner` holds of the token it names. */
  function Gain(op: Op, owner: string): int {
    match op
    case Deploy(_, _, _) => 0
    case Mint(_, _, recipient, _, amount, _) => if recipient == Some(owner) then amount else 0
    case Transfer(_, actor, recipient, _, amount) =>
      (if recipient == Some(owner) then amount else 0) - (if actor == owner then amount else 0)
  }

  /** An accepted mint credits its recipient and an accepted transfer moves tokens from its actor to
      its recipient; nobody else's balance of any token changes, and a deployment changes none. */
  lemma BalancesAfter(rules: Rules, s: State, op: Op, owner: string, id: string)
    requires Refusal(rules, s, op).None?
    ensures Available(Apply(rules, s, op), owner, id)
            == Available(s, owner, id)
               + (if !op.Deploy? && ResolveToken(s, op.ticker) == Some(id) then Gain(op, owner) else 0)
  {
  }

  /** The other tables after an accepted operation. */
  lemma TablesAfter(rules: Rules, s: State, op: Op)
    requires Refusal(rules, s, op).None?
    ensures var after := Apply(rules, s, op);
            match op
            case Deploy(txid, actor, ticker) =>
              && after.tokens == s.tokens[txid := Token(ticker, actor, 0, 1)]
              && after.tickerIndex == s.tickerIndex[ticker := txid]
              && after.reserveSats == s.reserveSats && after.treasurySats == s.treasurySats + rules.launchFeeSats
            case Mint(_, _, _, ticker, amount, before) =>
              var id := s.tickerIndex[ticker];
              var cost := rules.curveCost(before / ATOMS_PER_TOKEN, amount / ATOMS_PER_TOKEN);
              && after.tickerIndex == s.tickerIndex && after.tokens.Keys == s.tokens.Keys
              && (forall t :: t in s.tokens && t != id ==> after.tokens[t] == s.tokens[t])
              && after.tokens[id] == Token(s.tokens[id].ticker, s.tokens[id].creator, before + amount,
                                           StageForSupply((before + amount) / ATOMS_PER_TOKEN))
              && after.reserveSats == s.reserveSats + cost && after.treasurySats == s.treasurySats + rules.fee(cost)
            case Transfer(_, _, _, _, _) =>
              && after.tokens == s.tokens && after.tickerIndex == s.tickerIndex
              && after.reserveSats == s.reserveSats && after.treasurySats == s.treasurySats
  {
    hide StageForSupply;
  }

  /** The stage of a supply in display tokens: each is `TOKENS_PER_STAGE` long, and the last one has no end. */
  lemma StageOfSupply(tokens: nat)
    ensures 1 <= StageForSupply(tokens) <= STAGE_COUNT
    ensures (StageForSupply(tokens) - 1) * TOKENS_PER_STAGE <= tokens
    ensures StageForSupply(tokens) < STAGE_COUNT ==> tokens < StageForSupply(tokens) * TOKENS_PER_STAGE
  {
  }

  /** The reason given for a refusal is true of the operation. */
  lemma ReasonsAreTrue(rules: Rules, s: State, op: Op)
    requires Refusal(rules, s, op).Some?
    ensures var reason := Refusal(rules, s, op).value;
            var id := if op.ticker in s.tickerIndex then s.tickerIndex[op.ticker] else "";
            var known := op.ticker != "" && op.ticker in s.tickerIndex && id in s.tokens;
            || (reason == "INVALID_TICKER" && op.Deploy? && !ValidTicker(op.ticker))
            || (reason == "TICKER_TAKEN" && op.Deploy? && op.ticker in s.tickerIndex)
            || (reason == "UNKNOWN_DEPLOYMENT" && !op.Deploy? && !known)
            || (reason == "STALE_SUPPLY" && op.Mint? && known && op.supplyBefore != s.tokens[id].supplyAtoms)
            || (reason == "ZERO_AMOUNT" && !op.Deploy? && op.amount <= 0)
            || (reason == "SUBTOKEN_MINT_UNSUPPORTED" && op.Mint? && op.amount % ATOMS_PER_TOKEN != 0)
            || (reason == "UNSUPPORTED_ACTOR_SCRIPT" && !rules.supported(op.actor))
            || (reason == "INVALID_RECIPIENT" && !op.Deploy?
                && (op.recipient.None? || !rules.supported(op.recipient.value)))
            || (reason == "OVERMINT" && op.Mint? && known && s.tokens[id].supplyAtoms + op.amount > PUBLIC_SUPPLY_ATOMS)
            || (reason == "BELOW_MIN_CONTRIBUTION" && op.Mint? && known
                && rules.curveCost(s.tokens[id].supplyAtoms / ATOMS_PER_TOKEN, op.amount / ATOMS_PER_TOKEN)
                   < rules.minContributionSats)
            || (reason == "SELF_TRANSFER" && op.Transfer? && op.recipient == Some(op.actor))
            || (reason == "INSUFFICIENT_AVAILABLE_TOKENS" && op.Transfer? && Available(s, op.actor, id) < op.amount)
            || exists sats :: rules.outputs(op, sats) == Some(reason)
  {
    if op.Mint? && ResolveToken(s, op.ticker).Some? && op.amount % ATOMS_PER_TOKEN == 0 {
      LeftExactly(op.amount, s.tokens[ResolveToken(s, op.ticker).value].supplyAtoms);
    }
  }

  // ── One transaction ──────────────────────────────────────────────────────

  predicate Carries(tx: Tx, k: int) {
    0 <= k < |tx.outputs| && tx.outputs[k].cove.Some?
  }

  /** The only envelope of the transaction, and it is at output 0. */
  predicate OnlyAtZero(tx: Tx) {
    Carries(tx, 0) && forall k :: 0 < k < |tx.outputs| ==> !Carries(tx, k)
  }

  /** The operation a transaction states: input 0's script acts, output 1's script receives. */
  function Stated(tx: Tx): Option<Op> {
    if !Carries(tx, 0) || tx.outputs[0].cove.value.Err? || tx.actor.None? || tx.actor.value == "" then None
    else
      var to := if |tx.outputs| > 1 then Some(tx.outputs[1].script) else None;
      Some(match tx.outputs[0].cove.value.value
           case DeployEnvelope(ticker) => Deploy(tx.txid, tx.actor.value, ticker)
           case MintEnvelope(ticker, amount, before) => Mint(tx.txid, tx.actor.value, to, ticker, amount, before)
           case TransferEnvelope(ticker, amount) => Transfer(tx.txid, tx.actor.value, to, ticker, amount))
  }

  lemma {:induction false} OneCarrier(outputs: seq<Output>)
    ensures |CoveOutputs(outputs)| == 0 <==> forall k :: 0 <= k < |outputs| ==> outputs[k].cove.None?
    ensures |CoveOutputs(outputs)| > 1 <==>
              exists i, j :: 0 <= i < j < |outputs| && outputs[i].cove.Some? && outputs[j].cove.Some?
    decreases |outputs|
  {
    if outputs != [] {
      var n := |outputs| - 1;
      OneCarrier(outputs[..n]);
      CoveOutputsAreCarriers(outputs[..n]);
      assert forall k :: 0 <= k < n ==> outputs[..n][k] == outputs[k];
      if |CoveOutputs(outputs[..n])| > 0 {
        assert CoveOutputs(outputs[..n])[0] in CoveOutputs(outputs[..n]);
      }
    }
  }

  lemma CandidateCarries(tx: Tx)
    ensures IsCandidate(tx) <==> exists k :: Carries(tx, k)
    ensures IsCandidate(tx) && |CoveOutputs(tx.outputs)| == 1 ==>
              && Carries(tx, CoveOutputs(tx.outputs)[0])
              && forall k :: Carries(tx, k) ==> k == CoveOutputs(tx.outputs)[0]
    ensures |CoveOutputs(tx.outputs)| > 1 <==> exists i, j :: i < j && Carries(tx, i) && Carries(tx, j)
  {
    OneCarrier(tx.outputs);
    CoveOutputsAreCarriers(tx.outputs);
    var found := CoveOutputs(tx.outputs);
    if found != [] {
      assert found[0] in found;
      assert Carries(tx, found[0]);
    }
    if |found| == 1 {
      assert found[0] in found;
      forall k | Carries(tx, k)
        ensures k == found[0]
      {
        var n: nat := k;
        assert n in found;
      }
    }
    if i, j :| i < j && Carries(tx, i) && Carries(tx, j) {
      assert 0 <= i < j < |tx.outputs| && tx.outputs[i].cove.Some? && tx.outputs[j].cove.Some?;
    }
    if |found| > 1 {
      var i, j :| 0 <= i < j < |tx.outputs| && tx.outputs[i].cove.Some? && tx.outputs[j].cove.Some?;
      assert Carries(tx, i) && Carries(tx, j);
    }
  }

  /** Why a candidate met for the first time is classified as it is, and what it does. */
  lemma VerdictExactly(rules: Rules, s: State, tx: Tx)
    requires IsCandidate(tx)
    ensures var v, two := Judge(rules, s, tx), exists i, j :: i < j && Carries(tx, i) && Carries(tx, j);
            var valid := OnlyAtZero(tx) && Stated(tx).Some? && Refusal(rules, s, Stated(tx).value).None?;
            && (v.classification == ValidCove <==> valid)
            && v.next == (if valid then Apply(rules, s, Stated(tx).value) else s)
            && (v.classification == MultipleCoveOperations <==> two)
            && (v.classification == MalformedCove <==> OnlyAtZero(tx) && tx.outputs[0].cove.value.Err?)
            && v.operation == (if OnlyAtZero(tx) && tx.outputs[0].cove.value.Ok?
                               then Some(match tx.outputs[0].cove.value.value
                                         case DeployEnvelope(_) => DEPLOY
                                         case MintEnvelope(_, _, _) => MINT
                                         case TransferEnvelope(_, _) => TRANSFER)
                               else None)
            && v.reason == if valid then None
                           else if two then Some("MULTIPLE_COVE_OPERATIONS")
                           else if !OnlyAtZero(tx) then Some("WRONG_VOUT")
                           else if tx.outputs[0].cove.value.Err? then Some(tx.outputs[0].cove.value.error)
                           else if Stated(tx).None? then Some("MISSING_INPUT0_PREVOUT")
                           else Refusal(rules, s, Stated(tx).value)
  {
    hide Refusal, Apply, CoveOutputs;
    CandidateCarries(tx);
    if OnlyAtZero(tx) {
      assert !exists i, j :: i < j && Carries(tx, i) && Carries(tx, j);
    }
  }

  /** A transaction is applied exactly when its txid is new, its only envelope is at output 0, and
      the operation it states is not refused. */
  predicate Applied(rules: Rules, x: Index, tx: Tx) {
    tx.txid !in x.seen && OnlyAtZero(tx) && Stated(tx).Some? && Refusal(rules, x.state, Stated(tx).value).None?
  }

  /** What one transaction leaves in the index. */
  lemma TxAfter(rules: Rules, x: Index, height: int, i: nat, tx: Tx)
    ensures var after, candidate := AddTx(rules, x, height, i, tx), exists k :: Carries(tx, k);
            && after.state == (if Applied(rules, x, tx) then Apply(rules, x.state, Stated(tx).value) else x.state)
            && after.seen == x.seen + (if candidate then {tx.txid} else {})
            && after.processedTxs == x.processedTxs + 1 && after.processedBlocks == x.processedBlocks
            && after.candidates == x.candidates + (if candidate then 1 else 0)
            && after.validOps == x.validOps + (if Applied(rules, x, tx) then 1 else 0)
            && after.invalidOps == x.invalidOps + (if candidate && !Applied(rules, x, tx) then 1 else 0)
            && (if candidate then
                  && |after.events| == |x.events| + 1 && after.events[..|x.events|] == x.events
                  && var e := after.events[|x.events|];
                     && e.height == height && e.txIndex == i && e.txid == tx.txid
                     && (e.classification == ValidCove <==> Applied(rules, x, tx))
                     && (tx.txid in x.seen ==> e.reason == Some("REPLAY") && e.operation.None?)
                else after.events == x.events)
  {
    hide Refusal, Apply, Judge, CoveOutputs;
    CandidateCarries(tx);
    if IsCandidate(tx) {
      VerdictExactly(rules, x.state, tx);
    } else {
      assert !Carries(tx, 0);
    }
  }

  function TxCount(blocks: seq<Block>): nat {
    if blocks == [] then 0 else TxCount(blocks[..|blocks| - 1]) + |blocks[|blocks| - 1]|
  }

  lemma {:induction false} TxsCounted(rules: Rules, x: Index, height: int, txs: Block, n: nat)
    requires n <= |txs|
    ensures var after := AddTxs(rules, x, height, txs, n);
            && after.processedTxs == x.processedTxs + n && after.processedBlocks == x.processedBlocks
            && after.lastHeight == x.lastHeight
  {
    hide Judge, IsCandidate;
    if n > 0 {
      TxsCounted(rules, x, height, txs, n - 1);
    }
  }

  /** The counters of a fold are those of the chain, and its last height is the chain's. */
  lemma {:induction false} FoldCounts(rules: Rules, genesis: int, blocks: seq<Block>)
    ensures var x := Fold(rules, genesis, blocks);
            && x.processedBlocks == |blocks| && x.processedTxs == TxCount(blocks)
            && x.lastHeight == if blocks == [] then None else Some(genesis + |blocks| - 1)
    decreases |blocks|
  {
    hide AddTxs;
    if blocks != [] {
      var n := |blocks| - 1;
      FoldCounts(rules, genesis, blocks[..n]);
      TxsCounted(rules, Opened(Fold(rules, genesis, blocks[..n]), genesis + n), genesis + n, blocks[n], |blocks[n]|);
    }
  }

  /** A block is refused exactly below activation and out of sequence. */
  lemma BlockRefusedExactly(genesis: int, x: Index, height: int)
    ensures HeightError(genesis, x, height) == Some(BelowGenesis) <==> height < genesis
    ensures HeightError(genesis, x, height) == Some(NonContiguous) <==>
              height >= genesis && x.lastHeight.Some? && height - 1 != x.lastHeight.value
    ensures HeightError(genesis, x, height) != Some(InvariantViolated)
  {
  }

  // ── The event log ────────────────────────────────────────────────────────

  /** The event names a transaction of the chain. */
  predicate Placed(genesis: int, blocks: seq<Block>, e: Event) {
    && 0 <= e.height - genesis < |blocks|
    && e.txIndex < |blocks[e.height - genesis]|
    && blocks[e.height - genesis][e.txIndex].txid == e.txid
  }

  /** What a transaction, once applied, adds to what `owner` holds under a ticker. */
  function Moved(tx: Tx, owner: string, ticker: string): int {
    if Stated(tx).Some? && !Stated(tx).value.Deploy? && Stated(tx).value.ticker == ticker
    then Gain(Stated(tx).value, owner) else 0
  }

  /** What the valid events of a log add up to. */
  function LogSum(genesis: int, blocks: seq<Block>, events: seq<Event>, owner: string, ticker: string): int
    requires forall e :: e in events ==> Placed(genesis, blocks, e)
  {
    if events == [] then 0
    else
      var e := events[|events| - 1];
      assert Placed(genesis, blocks, e) by { assert e in events; }
      LogSum(genesis, blocks, events[..|events| - 1], owner, ticker)
      + if e.classification == ValidCove then Moved(blocks[e.height - genesis][e.txIndex], owner, ticker) else 0
  }

  /** What `owner` holds of the token of a ticker. */
  function HeldOf(s: State, owner: string, ticker: string): int {
    if ticker in s.tickerIndex then Available(s, owner, s.tickerIndex[ticker]) else 0
  }

  lemma OpMoves(rules: Rules, s: State, op: Op, seen: set<string>, owner: string, ticker: string)
    requires Refusal(rules, s, op).None? && Sound(s, seen) && op.txid !in seen
    ensures HeldOf(Apply(rules, s, op), owner, ticker)
            == HeldOf(s, owner, ticker) + (if !op.Deploy? && op.ticker == ticker then Gain(op, owner) else 0)
  {
    var after := Apply(rules, s, op);
    TablesAfter(rules, s, op);
    if ticker in after.tickerIndex {
      BalancesAfter(rules, s, op, owner, after.tickerIndex[ticker]);
    }
    if op.Deploy? && ticker == op.ticker {
      assert Account(owner, op.txid) !in s.balances;
    }
    hide Conserved, Gain, StageForSupply;
  }

  ghost predicate LogHolds(genesis: int, blocks: seq<Block>, x: Index, owner: string, ticker: string) {
    && (forall e :: e in x.events ==> Placed(genesis, blocks, e))
    && HeldOf(x.state, owner, ticker) == LogSum(genesis, blocks, x.events, owner, ticker)
  }

  lemma LogSnoc(genesis: int, blocks: seq<Block>, events: seq<Event>, e: Event, owner: string, ticker: string)
    requires Placed(genesis, blocks, e) && forall d :: d in events ==> Placed(genesis, blocks, d)
    ensures forall d :: d in events + [e] ==> Placed(genesis, blocks, d)
    ensures LogSum(genesis, blocks, events + [e], owner, ticker)
            == LogSum(genesis, blocks, events, owner, ticker)
               + if e.classification == ValidCove
                 then Moved(blocks[e.height - genesis][e.txIndex], owner, ticker) else 0
  {
    assert (events + [e])[..|events|] == events;
  }

  lemma TxMoves(rules: Rules, x: Index, height: int, i: nat, tx: Tx, owner: string, ticker: string)
    requires Kept(x)
    ensures HeldOf(AddTx(rules, x, height, i, tx).state, owner, ticker)
            == HeldOf(x.state, owner, ticker) + if Applied(rules, x, tx) then Moved(tx, owner, ticker) else 0
  {
    hide Refusal, Apply, Sound, AddTx, Gain, HeldOf;
    TxAfter(rules, x, height, i, tx);
    if Applied(rules, x, tx) {
      OpMoves(rules, x.state, Stated(tx).value, x.seen, owner, ticker);
    }
  }

  lemma TxKeepsLog(rules: Rules, genesis: int, blocks: seq<Block>, x: Index, height: int, i: nat,
                   owner: string, ticker: string)
    requires Kept(x) && LogHolds(genesis, blocks, x, owner, ticker)
    requires 0 <= height - genesis < |blocks| && i < |blocks[height - genesis]|
    ensures LogHolds(genesis, blocks, AddTx(rules, x, height, i, blocks[height - genesis][i]), owner, ticker)
  {
    hide Kept, Applied, AddTx, HeldOf, Moved;
    var tx := blocks[height - genesis][i];
    var after := AddTx(rules, x, height, i, tx);
    TxAfter(rules, x, height, i, tx);
    TxMoves(rules, x, height, i, tx, owner, ticker);
    if exists k :: Carries(tx, k) {
      var e := after.events[|x.events|];
      assert after.events == x.events + [e];
      LogSnoc(genesis, blocks, x.events, e, owner, ticker);
    } else {
      NothingCarriedNothingApplied(rules, x, tx);
    }
  }

  lemma NothingCarriedNothingApplied(rules: Rules, x: Index, tx: Tx)
    requires !exists k :: Carries(tx, k)
    ensures !Applied(rules, x, tx)
  {
    hide Refusal;
    assert !Carries(tx, 0);
  }

  lemma {:induction false} TxsKeepLog(rules: Rules, genesis: int, blocks: seq<Block>, x: Index, height: int, n: nat,
                                      owner: string, ticker: string)
    requires Kept(x) && LogHolds(genesis, blocks, x, owner, ticker)
    requires 0 <= height - genesis < |blocks| && n <= |blocks[height - genesis]|
    ensures LogHolds(genesis, blocks, AddTxs(rules, x, height, blocks[height - genesis], n), owner, ticker)
  {
    hide Kept, LogHolds, AddTx;
    var txs := blocks[height - genesis];
    if n > 0 {
      TxsKeepLog(rules, genesis, blocks, x, height, n - 1, owner, ticker);
      AddTxsKeeps(rules, x, height, txs, n - 1);
      TxKeepsLog(rules, genesis, blocks, AddTxs(rules, x, height, txs, n - 1), height, n - 1, owner, ticker);
    }
  }

  /** On any chain, what anyone holds of a token is what the valid operations of the event log minted
      and transferred to them, less what they sent. */
  lemma {:induction false} BalancesAreTheLog(rules: Rules, genesis: int, blocks: seq<Block>, n: nat,
                                             owner: string, ticker: string)
    requires n <= |blocks|
    ensures var x := Fold(rules, genesis, blocks[..n]);
            && (forall e :: e in x.events ==> Placed(genesis, blocks, e))
            && HeldOf(x.state, owner, ticker) == LogSum(genesis, blocks, x.events, owner, ticker)
  {
    hide Kept, AddTxs;
    if n == 0 {
      assert blocks[..0] == [];
    } else {
      BalancesAreTheLog(rules, genesis, blocks, n - 1, owner, ticker);
      var x := Fold(rules, genesis, blocks[..n - 1]);
      assert blocks[..n][..n - 1] == blocks[..n - 1];
      FoldKeeps(rules, genesis, blocks[..n - 1]);
      var y := Opened(x, genesis + n - 1);
      OpenedIsKept(x, genesis + n - 1);
      TxsKeepLog(rules, genesis, blocks, y, genesis + n - 1, |blocks[n - 1]|, owner, ticker);
    }
  }

  lemma OpenedIsKept(x: Index, height: int)
    requires Kept(x)
    ensures Kept(Opened(x, height))
  {
  }

  /** So is every stored balance, after any history of restarts, polls, reorganisations and deaths
      that ends with a completed poll. */
  lemma StoredBalancesAreTheLog(rules: Rules, genesis: int, inputs: seq<Worker.Input>, owner: string, id: string)
    requires Worker.AllAdmissible(genesis, inputs) && Worker.EndsWithCompletedPoll(rules, genesis, inputs)
    requires id in Worker.Run(rules, genesis, inputs).tables.tokens
    ensures var t, blocks := Worker.Run(rules, genesis, inputs).tables, inputs[|inputs| - 1].chain.blocks;
            var log := Fold(rules, genesis, blocks).events;
            && (forall e :: e in log ==> Placed(genesis, blocks, e))
            && (if Account(owner, id) in t.balances then t.balances[Account(owner, id)] else 0)
               == LogSum(genesis, blocks, log, owner, t.tokens[id].ticker)
  {
    hide Worker.Run, Fold, Worker.CleanCheckpoints, Worker.CleanBlocks, LogSum, Worker.PollOnce;
    var c := inputs[|inputs| - 1].chain;
    Worker.CompletedPollIsCleanFold(rules, genesis, inputs);
    Worker.HashDeterminesTheChain(c, |c.blocks|);
    assert c.blocks[..|c.blocks|] == c.blocks;
    FoldKeeps(rules, genesis, c.blocks);
    var x := Fold(rules, genesis, c.blocks);
    assert TokenConserved(x.state, id);
    BalancesAreTheLog(rules, genesis, c.blocks, |c.blocks|, owner, x.state.tokens[id].ticker);
  }
}
