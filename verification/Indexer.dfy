/** The indexer: a fold of the V1 ledger over blocks, with a replay set and counters. */
module Indexer {
  import opened Wrappers
  import opened CoveV1

  datatype Envelope =
    | DeployEnvelope(ticker: string)
    | MintEnvelope(ticker: string, amount: int, supplyBefore: int)
    | TransferEnvelope(ticker: string, amount: int)

  datatype Kind = DEPLOY | MINT | TRANSFER

  /** `cove` is what the payload of a canonical OP_RETURN with the Cove magic decodes to, and
      None for every other output. */
  datatype Output = Output(script: string, cove: Option<Result<Envelope, string>>)

  /** `actor` is the script that input 0 spends, once resolved. */
  datatype Tx = Tx(txid: string, actor: Option<string>, outputs: seq<Output>)
  type Block = seq<Tx>

  datatype Classification = MalformedCove | ValidCove | InvalidCove | MultipleCoveOperations

  datatype Event = Event(
    height: int,
    txIndex: nat,
    txid: string,
    operation: Option<Kind>,
    classification: Classification,
    reason: Option<string>)

  /** Everything the indexer object holds. */
  datatype Index = Index(
    state: State,
    events: seq<Event>,
    seen: set<string>,
    lastHeight: Option<int>,
    processedBlocks: nat,
    processedTxs: nat,
    candidates: nat,
    validOps: nat,
    invalidOps: nat)

  const FRESH := Index(EMPTY_STATE, [], {}, None, 0, 0, 0, 0, 0)

  datatype BlockError = BelowGenesis | NonContiguous | InvariantViolated

  // ── The fold as functions ────────────────────────────────────────────────

  /** The positions of the outputs that carry a Cove envelope. */
  function CoveOutputs(outputs: seq<Output>): seq<nat> {
    if outputs == [] then []
    else
      var n := |outputs| - 1;
      CoveOutputs(outputs[..n]) + (if outputs[n].cove.Some? then [n] else [])
  }

  lemma {:induction false} CoveOutputsAreCarriers(outputs: seq<Output>)
    ensures forall k: nat :: k in CoveOutputs(outputs) <==> k < |outputs| && outputs[k].cove.Some?
  {
    if outputs != [] {
      var n := |outputs| - 1;
      CoveOutputsAreCarriers(outputs[..n]);
      assert forall k: nat :: k < n ==> outputs[..n][k] == outputs[k];
    }
  }

  predicate IsCandidate(tx: Tx) {
    CoveOutputs(tx.outputs) != []
  }

  function KindOf(e: Envelope): Kind {
    match e
    case DeployEnvelope(_) => DEPLOY
    case MintEnvelope(_, _, _) => MINT
    case TransferEnvelope(_, _) => TRANSFER
  }

  /** The ledger operation of a transaction whose actor is known. */
  function OpOf(tx: Tx, actor: string, e: Envelope): Op {
    var recipient := if |tx.outputs| > 1 then Some(tx.outputs[1].script) else None;
    match e
    case DeployEnvelope(ticker) => Deploy(tx.txid, actor, ticker)
    case MintEnvelope(ticker, amount, supplyBefore) => Mint(tx.txid, actor, recipient, ticker, amount, supplyBefore)
    case TransferEnvelope(ticker, amount) => Transfer(tx.txid, actor, recipient, ticker, amount)
  }

  datatype Verdict = Verdict(operation: Option<Kind>, classification: Classification, reason: Option<string>,
                             next: State)

  /** What a candidate does to the ledger the first time its txid is met. */
  function Judge(rules: Rules, s: State, tx: Tx): Verdict
    requires IsCandidate(tx)
  {
    var outs := CoveOutputs(tx.outputs);
    if |outs| > 1 then Verdict(None, MultipleCoveOperations, Some("MULTIPLE_COVE_OPERATIONS"), s)
    else if outs[0] != 0 then Verdict(None, InvalidCove, Some("WRONG_VOUT"), s)
    else
      CoveOutputsAreCarriers(tx.outputs);
      assert 0 in outs;
      match tx.outputs[0].cove.value
      case Err(reason) => Verdict(None, MalformedCove, Some(reason), s)
      case Ok(e) =>
        if tx.actor.None? || tx.actor.value == "" then
          Verdict(Some(KindOf(e)), InvalidCove, Some("MISSING_INPUT0_PREVOUT"), s)
        else
          var op := OpOf(tx, tx.actor.value, e);
          var refusal := Refusal(rules, s, op);
          if refusal.Some? then Verdict(Some(KindOf(e)), InvalidCove, refusal, s)
          else Verdict(Some(KindOf(e)), ValidCove, None, Apply(rules, s, op))
  }

  function Record(x: Index, height: int, i: nat, txid: string, v: Verdict): Index {
    x.(state := v.next,
       events := x.events + [Event(height, i, txid, v.operation, v.classification, v.reason)],
       seen := x.seen + {txid},
       candidates := x.candidates + 1,
       validOps := x.validOps + if v.classification == ValidCove then 1 else 0,
       invalidOps := x.invalidOps + if v.classification == ValidCove then 0 else 1)
  }

  /** A txid already met is recorded as a replay and does nothing else. */
  function AddTx(rules: Rules, before: Index, height: int, i: nat, tx: Tx): Index {
    var x := before.(processedTxs := before.processedTxs + 1);
    if !IsCandidate(tx) then x
    else if tx.txid in x.seen then Record(x, height, i, tx.txid, Verdict(None, InvalidCove, Some("REPLAY"), x.state))
    else Record(x, height, i, tx.txid, Judge(rules, x.state, tx))
  }

  /** The first `n` transactions of a block, in order. */
  function AddTxs(rules: Rules, x: Index, height: int, txs: Block, n: nat): Index
    requires n <= |txs|
  {
    if n == 0 then x else AddTx(rules, AddTxs(rules, x, height, txs, n - 1), height, n - 1, txs[n - 1])
  }

  function Opened(x: Index, height: int): Index {
    x.(lastHeight := Some(height), processedBlocks := x.processedBlocks + 1)
  }

  function AddBlock(rules: Rules, x: Index, height: int, txs: Block): Index {
    AddTxs(rules, Opened(x, height), height, txs, |txs|)
  }

  /** The clean fold of blocks `genesis`, `genesis + 1`, … */
  function Fold(rules: Rules, genesis: int, blocks: seq<Block>): Index {
    if blocks == [] then FRESH
    else AddBlock(rules, Fold(rules, genesis, blocks[..|blocks| - 1]), genesis + |blocks| - 1, blocks[|blocks| - 1])
  }

  function HeightError(genesis: int, x: Index, height: int): Option<BlockError> {
    if height < genesis then Some(BelowGenesis)
    else if x.lastHeight.Some? && height != x.lastHeight.value + 1 then Some(NonContiguous)
    else None
  }

  // ── The object ───────────────────────────────────────────────────────────

  class CoveIndexer {
    const rules: Rules
    const genesis: int
    var state: State
    var events: seq<Event>
    var seenTxids: set<string>
    var lastHeight: Option<int>
    var processedBlocks: nat
    var processedTxs: nat
    var coveCandidateTxs: nat
    var validOps: nat
    var invalidOps: nat

    constructor (rules: Rules, genesis: int)
      ensures this.rules == rules && this.genesis == genesis && Contents() == FRESH
    {
      this.rules, this.genesis := rules, genesis;
      state, events, seenTxids, lastHeight := EMPTY_STATE, [], {}, None;
      processedBlocks, processedTxs, coveCandidateTxs, validOps, invalidOps := 0, 0, 0, 0, 0;
    }

    function Contents(): Index
      reads this
    {
      Index(state, events, seenTxids, lastHeight, processedBlocks, processedTxs, coveCandidateTxs, validOps, invalidOps)
    }

    static method FindCoveOutputs(outputs: seq<Output>) returns (found: seq<nat>)
      ensures found == CoveOutputs(outputs)
    {
      found := [];
      for k := 0 to |outputs|
        invariant found == CoveOutputs(outputs[..k])
      {
        assert outputs[..k + 1][..k] == outputs[..k];
        if outputs[k].cove.Some? {
          found := found + [k];
        }
      }
      assert outputs[..|outputs|] == outputs;
    }

    method NoteEvent(height: int, i: nat, txid: string, operation: Option<Kind>, classification: Classification,
                     reason: Option<string>)
      modifies this`events
      ensures events == old(events) + [Event(height, i, txid, operation, classification, reason)]
    {
      events := events + [Event(height, i, txid, operation, classification, reason)];
    }

    method ProcessTx(height: int, i: nat, tx: Tx)
      modifies this
      ensures Contents() == AddTx(rules, old(Contents()), height, i, tx)
    {
      hide Refusal, Apply, CoveOutputs;
      processedTxs := processedTxs + 1;
      var found := FindCoveOutputs(tx.outputs);
      if |found| == 0 {
        return;
      }
      coveCandidateTxs := coveCandidateTxs + 1;
      if tx.txid in seenTxids {
        invalidOps := invalidOps + 1;
        NoteEvent(height, i, tx.txid, None, InvalidCove, Some("REPLAY"));
        assert seenTxids + {tx.txid} == seenTxids;
        return;
      }
      seenTxids := seenTxids + {tx.txid};
      if |found| > 1 {
        invalidOps := invalidOps + 1;
        NoteEvent(height, i, tx.txid, None, MultipleCoveOperations, Some("MULTIPLE_COVE_OPERATIONS"));
        return;
      }
      if found[0] != 0 {
        invalidOps := invalidOps + 1;
        NoteEvent(height, i, tx.txid, None, InvalidCove, Some("WRONG_VOUT"));
        return;
      }
      CoveOutputsAreCarriers(tx.outputs);
      assert 0 in found;
      var decoded := tx.outputs[0].cove.value;
      if decoded.Err? {
        invalidOps := invalidOps + 1;
        NoteEvent(height, i, tx.txid, None, MalformedCove, Some(decoded.error));
        return;
      }
      var kind := Some(KindOf(decoded.value));
      if tx.actor.None? || tx.actor.value == "" {
        invalidOps := invalidOps + 1;
        NoteEvent(height, i, tx.txid, kind, InvalidCove, Some("MISSING_INPUT0_PREVOUT"));
        return;
      }
      var op := OpOf(tx, tx.actor.value, decoded.value);
      var refusal := Refusal(rules, state, op);
      if refusal.None? {
        state := Apply(rules, state, op);
        validOps := validOps + 1;
      } else {
        invalidOps := invalidOps + 1;
      }
      NoteEvent(height, i, tx.txid, kind, if refusal.None? then ValidCove else InvalidCove, refusal);
    }

    method ProcessBlock(height: int, txs: Block) returns (error: Option<BlockError>)
      modifies this
      ensures HeightError(genesis, old(Contents()), height).Some? ==>
                error == HeightError(genesis, old(Contents()), height) && Contents() == old(Contents())
      ensures HeightError(genesis, old(Contents()), height).None? ==>
                && Contents() == AddBlock(rules, old(Contents()), height, txs)
                && (error.None? <==> Conserved(state))
    {
      if height < genesis {
        return Some(BelowGenesis);
      }
      if lastHeight.Some? && height != lastHeight.value + 1 {
        return Some(NonContiguous);
      }
      lastHeight := Some(height);
      processedBlocks := processedBlocks + 1;
      for i := 0 to |txs|
        invariant Contents() == AddTxs(rules, Opened(old(Contents()), height), height, txs, i)
      {
        ProcessTx(height, i, txs[i]);
      }
      var holds := AssertCoveInvariants(state);
      error := if holds then None else Some(InvariantViolated);
    }
  }

  // ── What every fold keeps ────────────────────────────────────────────────

  function Recorded(events: seq<Event>): set<string> {
    set e | e in events :: e.txid
  }

  /** The ledger is sound, the replay set is exactly the recorded txids, and every candidate
      was counted once, as valid or as invalid. */
  ghost predicate Kept(x: Index) {
    && Sound(x.state, x.seen)
    && x.seen == Recorded(x.events)
    && x.candidates == |x.events| == x.validOps + x.invalidOps
    && x.candidates <= x.processedTxs
  }

  lemma RecordKeeps(x: Index, height: int, i: nat, txid: string, v: Verdict)
    requires Kept(x) && x.candidates < x.processedTxs
    requires Sound(v.next, x.seen + {txid})
    ensures Kept(Record(x, height, i, txid, v))
  {
    hide Sound;
    var after := Record(x, height, i, txid, v);
    assert after.events[|x.events|].txid == txid;
    assert forall e :: e in after.events <==> e in x.events || e == after.events[|x.events|];
    assert Recorded(after.events) == Recorded(x.events) + {txid};
  }

  lemma JudgeKeeps(rules: Rules, s: State, tx: Tx, seen: set<string>)
    requires IsCandidate(tx) && Sound(s, seen) && tx.txid !in seen
    ensures Sound(Judge(rules, s, tx).next, seen + {tx.txid})
    ensures IdentitiesKept(s, Judge(rules, s, tx).next)
  {
    hide Refusal, Apply, Conserved;
    var v := Judge(rules, s, tx);
    if v.classification == ValidCove {
      CoveOutputsAreCarriers(tx.outputs);
      assert CoveOutputs(tx.outputs)[0] in CoveOutputs(tx.outputs);
      ApplyKeeps(rules, s, OpOf(tx, tx.actor.value, tx.outputs[0].cove.value.value), seen);
    }
  }

  lemma AddTxKeeps(rules: Rules, x: Index, height: int, i: nat, tx: Tx)
    requires Kept(x)
    ensures var after := AddTx(rules, x, height, i, tx);
            && Kept(after)
            && IdentitiesKept(x.state, after.state)
            && after.lastHeight == x.lastHeight
  {
    hide Sound, Judge, Recorded;
    var counted := x.(processedTxs := x.processedTxs + 1);
    if IsCandidate(tx) {
      if tx.txid in x.seen {
        assert x.seen + {tx.txid} == x.seen;
        RecordKeeps(counted, height, i, tx.txid, Verdict(None, InvalidCove, Some("REPLAY"), x.state));
      } else {
        JudgeKeeps(rules, x.state, tx, x.seen);
        RecordKeeps(counted, height, i, tx.txid, Judge(rules, x.state, tx));
      }
    }
  }

  lemma {:induction false} AddTxsKeeps(rules: Rules, x: Index, height: int, txs: Block, n: nat)
    requires n <= |txs| && Kept(x)
    ensures var after := AddTxs(rules, x, height, txs, n);
            && Kept(after)
            && IdentitiesKept(x.state, after.state)
            && after.lastHeight == x.lastHeight
  {
    hide Kept, AddTx;
    if n > 0 {
      AddTxsKeeps(rules, x, height, txs, n - 1);
      AddTxKeeps(rules, AddTxs(rules, x, height, txs, n - 1), height, n - 1, txs[n - 1]);
    }
  }

  /** The per-block assertion never throws, whatever the block holds, and no block changes the
      identity of a token. */
  lemma AddBlockKeeps(rules: Rules, x: Index, height: int, txs: Block)
    requires Kept(x)
    ensures var after := AddBlock(rules, x, height, txs);
            && Kept(after)
            && Conserved(after.state)
            && IdentitiesKept(x.state, after.state)
            && after.lastHeight == Some(height)
  {
    hide AddTxs, Conserved;
    AddTxsKeeps(rules, Opened(x, height), height, txs, |txs|);
  }

  lemma FreshIsKept()
    ensures Kept(FRESH) && Conserved(FRESH.state)
  {
  }

  /** Over any chain the ledger conserves every token and the counters add up. */
  lemma {:induction false} FoldKeeps(rules: Rules, genesis: int, blocks: seq<Block>)
    ensures var x := Fold(rules, genesis, blocks);
            && Kept(x)
            && Conserved(x.state)
            && x.lastHeight == (if blocks == [] then None else Some(genesis + |blocks| - 1))
  {
    hide AddBlock, Kept, Conserved;
    if blocks == [] {
      FreshIsKept();
    } else {
      var n := |blocks| - 1;
      FoldKeeps(rules, genesis, blocks[..n]);
      AddBlockKeeps(rules, Fold(rules, genesis, blocks[..n]), genesis + n, blocks[n]);
    }
  }

  // ── An index that remembers a different history ──────────────────────────

  /** Two records of one txid at different heights. */
  ghost predicate Clash(events: seq<Event>) {
    exists i, j :: 0 <= i < |events| && 0 <= j < |events| &&
                   events[i].txid == events[j].txid && events[i].height != events[j].height
  }

  function Txids(txs: Block, n: nat): set<string>
    requires n <= |txs|
  {
    set i | 0 <= i < n :: txs[i].txid
  }

  /** `events` extends `earlier` with records at `height` of the block's first n transactions. */
  ghost predicate Extends(events: seq<Event>, earlier: seq<Event>, height: int, txs: Block, n: nat)
    requires n <= |txs|
  {
    && |earlier| <= |events|
    && events[..|earlier|] == earlier
    && forall i :: |earlier| <= i < |events| ==> events[i].height == height && events[i].txid in Txids(txs, n)
  }

  lemma AddTxExtends(rules: Rules, x: Index, earlier: seq<Event>, height: int, txs: Block, n: nat)
    requires n < |txs| && Extends(x.events, earlier, height, txs, n)
    ensures var after := AddTx(rules, x, height, n, txs[n]);
            && Extends(after.events, earlier, height, txs, n + 1)
            && x.events <= after.events
            && x.seen <= after.seen <= x.seen + {txs[n].txid}
  {
    hide Judge, IsCandidate;
    assert Txids(txs, n) <= Txids(txs, n + 1) && txs[n].txid in Txids(txs, n + 1);
  }

  lemma {:induction false} AddTxsExtends(rules: Rules, x: Index, height: int, txs: Block, n: nat)
    requires n <= |txs|
    ensures var after := AddTxs(rules, x, height, txs, n);
            && Extends(after.events, x.events, height, txs, n)
            && x.seen <= after.seen <= x.seen + Txids(txs, n)
  {
    hide AddTx;
    if n > 0 {
      AddTxsExtends(rules, x, height, txs, n - 1);
      AddTxExtends(rules, AddTxs(rules, x, height, txs, n - 1), x.events, height, txs, n - 1);
      assert Txids(txs, n) == Txids(txs, n - 1) + {txs[n - 1].txid};
    }
  }

  lemma ClashPersists(events: seq<Event>, more: seq<Event>)
    requires events <= more && Clash(events)
    ensures Clash(more)
  {
    var i, j :| 0 <= i < |events| && 0 <= j < |events| &&
                events[i].txid == events[j].txid && events[i].height != events[j].height;
    assert more[i] == events[i] && more[j] == events[j];
  }

  predicate DistinctTxids(txs: Block) {
    forall i, j :: 0 <= i < j < |txs| ==> txs[i].txid != txs[j].txid
  }

  /** One transaction met by an index x that may remember txids the clean index y does not:
      the ledgers stay equal unless x now holds a clash. */
  lemma SameTxOrClash(rules: Rules, x: Index, y: Index, earlier: seq<Event>, height: int, txs: Block, n: nat)
    requires n < |txs| && DistinctTxids(txs)
    requires Kept(x) && x.state == y.state && txs[n].txid !in y.seen
    requires Extends(x.events, earlier, height, txs, n)
    requires forall e :: e in earlier ==> e.height < height
    ensures var x', y' := AddTx(rules, x, height, n, txs[n]), AddTx(rules, y, height, n, txs[n]);
            Clash(x'.events) || x'.state == y'.state
  {
    hide Judge, Sound, IsCandidate;
    var tx := txs[n];
    if IsCandidate(tx) && tx.txid in x.seen {
      var e :| e in x.events && e.txid == tx.txid;
      var i :| 0 <= i < |x.events| && x.events[i] == e;
      if i >= |earlier| {
        assert false;
      }
      assert x.events[i] == earlier[i];
      var after := AddTx(rules, x, height, n, tx).events;
      assert after[i] == e && after[|x.events|].height == height && after[|x.events|].txid == tx.txid;
      assert Clash(after);
    }
  }

  lemma {:induction false} SameBlockOrClash(rules: Rules, x: Index, y: Index, height: int, txs: Block, n: nat)
    requires n <= |txs| && DistinctTxids(txs)
    requires Kept(x) && x.state == y.state && y.seen !! Txids(txs, |txs|)
    requires forall e :: e in x.events ==> e.height < height
    ensures var x', y' := AddTxs(rules, x, height, txs, n), AddTxs(rules, y, height, txs, n);
            Clash(x'.events) || x'.state == y'.state
  {
    hide Kept, Clash, AddTx;
    if n > 0 {
      var x1, y1 := AddTxs(rules, x, height, txs, n - 1), AddTxs(rules, y, height, txs, n - 1);
      SameBlockOrClash(rules, x, y, height, txs, n - 1);
      AddTxsKeeps(rules, x, height, txs, n - 1);
      AddTxsExtends(rules, x, height, txs, n - 1);
      AddTxsExtends(rules, y, height, txs, n - 1);
      AddTxExtends(rules, x1, x.events, height, txs, n - 1);
      var x2 := AddTx(rules, x1, height, n - 1, txs[n - 1]);
      if Clash(x1.events) {
        ClashPersists(x1.events, x2.events);
      } else {
        assert txs[n - 1].txid in Txids(txs, |txs|) && txs[n - 1].txid !in Txids(txs, n - 1);
        SameTxOrClash(rules, x1, y1, x.events, height, txs, n - 1);
      }
    }
  }

  // ── Chains whose txids are unique ────────────────────────────────────────

  ghost predicate UniqueTxids(blocks: seq<Block>) {
    && (forall i :: 0 <= i < |blocks| ==> DistinctTxids(blocks[i]))
    && (forall i, j :: 0 <= i < j < |blocks| ==> Txids(blocks[i], |blocks[i]|) !! Txids(blocks[j], |blocks[j]|))
  }

  /** A clean fold has only met the txids of its own blocks. */
  lemma {:induction false} FoldSeen(rules: Rules, genesis: int, blocks: seq<Block>)
    ensures forall t :: t in Fold(rules, genesis, blocks).seen ==>
              exists i :: 0 <= i < |blocks| && t in Txids(blocks[i], |blocks[i]|)
    ensures forall e :: e in Fold(rules, genesis, blocks).events ==> e.height < genesis + |blocks|
  {
    hide Txids, AddTxs;
    if blocks != [] {
      var n := |blocks| - 1;
      FoldSeen(rules, genesis, blocks[..n]);
      var x := Fold(rules, genesis, blocks[..n]);
      AddTxsExtends(rules, Opened(x, genesis + n), genesis + n, blocks[n], |blocks[n]|);
      var after := Fold(rules, genesis, blocks);
      forall t | t in after.seen
        ensures exists i :: 0 <= i < |blocks| && t in Txids(blocks[i], |blocks[i]|)
      {
        if t in x.seen {
          var i :| 0 <= i < n && t in Txids(blocks[..n][i], |blocks[..n][i]|);
          assert blocks[..n][i] == blocks[i];
        }
      }
      forall e | e in after.events
        ensures e.height < genesis + |blocks|
      {
        var i :| 0 <= i < |after.events| && after.events[i] == e;
        assert i < |x.events| ==> e == x.events[i] && e in x.events;
      }
    }
  }

  /** On the next block of a chain with unique txids, the clean fold meets no replay. */
  lemma NextBlockIsNew(rules: Rules, genesis: int, blocks: seq<Block>)
    requires blocks != [] && UniqueTxids(blocks)
    ensures var n := |blocks| - 1;
            Fold(rules, genesis, blocks[..n]).seen !! Txids(blocks[n], |blocks[n]|)
  {
    hide Fold, Txids;
    var n := |blocks| - 1;
    FoldSeen(rules, genesis, blocks[..n]);
    forall t | t in Fold(rules, genesis, blocks[..n]).seen
      ensures t !in Txids(blocks[n], |blocks[n]|)
    {
      var i :| 0 <= i < n && t in Txids(blocks[..n][i], |blocks[..n][i]|);
      assert blocks[..n][i] == blocks[i];
    }
  }

  /** An index whose ledger agrees with the clean fold either stays in agreement over the next
      block or holds two records of one txid at different heights. */
  lemma AgreesOrClashes(rules: Rules, genesis: int, x: Index, blocks: seq<Block>)
    requires blocks != [] && UniqueTxids(blocks)
    requires Kept(x) && x.state == Fold(rules, genesis, blocks[..|blocks| - 1]).state
    requires forall e :: e in x.events ==> e.height < genesis + |blocks| - 1
    ensures var after := AddBlock(rules, x, genesis + |blocks| - 1, blocks[|blocks| - 1]);
            Clash(after.events) || after.state == Fold(rules, genesis, blocks).state
  {
    hide Clash, Sound, Txids, AddTxs, Recorded, UniqueTxids;
    var n := |blocks| - 1;
    var y := Fold(rules, genesis, blocks[..n]);
    NextBlockIsNew(rules, genesis, blocks);
    assert DistinctTxids(blocks[n]) by { LastIsDistinct(blocks); }
    assert Fold(rules, genesis, blocks) == AddBlock(rules, y, genesis + n, blocks[n]);
    hide Fold;
    SameBlockOrClash(rules, Opened(x, genesis + n), Opened(y, genesis + n), genesis + n, blocks[n], |blocks[n]|);
  }

  lemma LastIsDistinct(blocks: seq<Block>)
    requires blocks != [] && UniqueTxids(blocks)
    ensures DistinctTxids(blocks[|blocks| - 1])
  {
    hide Txids;
  }
}
