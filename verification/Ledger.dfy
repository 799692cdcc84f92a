/** Runs of accepted operations over many tokens. The chain view checks membership,
    the validators check sums and the transitions check supply; together they
    conserve tokens. */
module Ledger {
  import opened Wrappers
  import opened Constants
  import opened TokenUtxo
  import TransitionV2
  import opened ChainView

  type State = TransitionV2.State

  /** One decoded transaction. `ins` are its real input outpoints. */
  datatype LedgerOp =
    | Deploy(txid: string, meta: TokenMeta)
    | Mint(txid: string, tokenId: string, amount: int, recipientVout: nat, script: Script)
    | Transfer(txid: string, tokenId: string, ins: seq<OutPoint>, allocations: seq<Allocation>, outputs: seq<TxOutput>)
    | Redeem(txid: string, tokenId: string, ins: seq<OutPoint>, amount: int, change: seq<Allocation>,
             outputs: seq<TxOutput>)

  const EMPTY_VIEW := View(map[], map[], map[])

  /** Vault outputs always sit at index 1. */
  function VaultOutPoint(txid: string): OutPoint {
    OutPoint(txid, 1)
  }

  /** The carriers an allocation list creates in transaction `txid`. */
  function Allocated(txid: string, allocations: seq<Allocation>, outputs: seq<TxOutput>): seq<Output> {
    seq(|allocations|, i requires 0 <= i < |allocations| =>
      var a := allocations[i];
      Output(OutPoint(txid, a.vout), if a.vout < |outputs| then outputs[a.vout].script else [], a.amount))
  }

  /** The view after an operation, or None when a validator, a transition or the view refuses it. */
  function Accept(v: View, op: LedgerOp): Option<View> {
    match op
    case Deploy(txid, meta) =>
      if meta.tokenId in v.tokens || !TransitionV2.ValidTokenId(meta.tokenId) then None
      else Some(View(v.tokens[meta.tokenId := meta], v.carriers,
                     v.backing[meta.tokenId := Vault(TransitionV2.S0State(meta.tokenId), VaultOutPoint(txid))]))
    case Mint(txid, tokenId, amount, recipientVout, script) =>
      if tokenId !in v.tokens || tokenId !in v.backing then None
      else
        var step := TransitionV2.ApplyMint(v.backing[tokenId].state, amount);
        if step.Err? then None
        else Some(View(v.tokens, Create(v.carriers, tokenId, [Output(OutPoint(txid, recipientVout), script, amount)]),
                       v.backing[tokenId := Vault(step.value.next, VaultOutPoint(txid))]))
    case Transfer(txid, tokenId, ins, allocations, outputs) =>
      var inputs := Resolve(v.carriers, ins);
      if tokenId !in v.tokens || !TransferConserves(Amounts(inputs), allocations, outputs) then None
      else
        var s := Spend(v.carriers, tokenId, Outpoints(inputs));
        if s.error.Some? then None
        else Some(View(v.tokens, Create(s.left, tokenId, Allocated(txid, allocations, outputs)), v.backing))
    case Redeem(txid, tokenId, ins, amount, change, outputs) =>
      var inputs := Resolve(v.carriers, ins);
      if tokenId !in v.tokens || tokenId !in v.backing then None
      else if !RedeemConserves(Amounts(inputs), amount, change, outputs) then None
      else
        var step := TransitionV2.ApplyRedeem(v.backing[tokenId].state, amount);
        var s := Spend(v.carriers, tokenId, Outpoints(inputs));
        if step.Err? || s.error.Some? then None
        else Some(View(v.tokens, Create(s.left, tokenId, Allocated(txid, change, outputs)),
                       v.backing[tokenId := Vault(step.value.next, VaultOutPoint(txid))]))
  }

  /** Drives the view through one operation: resolve the real inputs, validate, then update. */
  method AcceptOp(view: CoveChainView, op: LedgerOp) returns (accepted: bool)
    requires view.Valid()
    modifies view
    ensures view.Valid()
    ensures accepted <==> Accept(old(view.Contents()), op).Some?
    ensures accepted ==> Some(view.Contents()) == Accept(old(view.Contents()), op)
  {
    match op
    case Deploy(txid, meta) =>
      if !TransitionV2.ValidTokenId(meta.tokenId) {
        return false;
      }
      var error := view.Deploy(meta, VaultOutPoint(txid), TransitionV2.S0State(meta.tokenId));
      accepted := error.None?;
    case Mint(txid, tokenId, amount, recipientVout, script) =>
      if tokenId !in view.tokens {
        return false;
      }
      var vault := view.backing[tokenId];
      var step := TransitionV2.ApplyMint(vault.state, amount);
      if step.Err? {
        return false;
      }
      var error := view.Mint(tokenId, step.value.next, vault.outpoint, VaultOutPoint(txid),
                             Output(OutPoint(txid, recipientVout), script, amount));
      accepted := error.None?;
    case Transfer(txid, tokenId, ins, allocations, outputs) =>
      var inputs := view.ResolveTokenInputs(ins);
      var verdict := ValidateTokenTransfer(Amounts(inputs), allocations, outputs);
      if verdict.Err? {
        return false;
      }
      var error := view.Transfer(tokenId, Outpoints(inputs), Allocated(txid, allocations, outputs));
      accepted := error.None?;
    case Redeem(txid, tokenId, ins, amount, change, outputs) =>
      if tokenId !in view.tokens {
        return false;
      }
      var inputs := view.ResolveTokenInputs(ins);
      var verdict := ValidateRedeemTokenAccounting(Amounts(inputs), amount, change, outputs);
      var vault := view.backing[tokenId];
      var step := TransitionV2.ApplyRedeem(vault.state, amount);
      if verdict.Err? || step.Err? {
        return false;
      }
      var error := view.Redeem(tokenId, step.value.next, vault.outpoint, VaultOutPoint(txid),
                               Outpoints(inputs), Allocated(txid, change, outputs));
      accepted := error.None?;
  }

  // ── The invariant ────────────────────────────────────────────────────────

  /** The supply monitor: unspent carriers sum to the issued supply. */
  ghost predicate SupplyMonitor(v: View, tokenId: string)
    requires tokenId in v.backing
  {
    Total(v.carriers, tokenId) == v.backing[tokenId].state.issuedSupplyAtoms
  }

  /** The backing monitor: the state is valid, so its backing is R(supply). */
  predicate BackingMonitor(v: View, tokenId: string)
    requires tokenId in v.backing
  {
    TransitionV2.ValidState(v.backing[tokenId].state) && v.backing[tokenId].state.tokenId == tokenId
  }

  predicate DistinctVaults(v: View) {
    forall s, t :: s in v.backing && t in v.backing && s != t ==> v.backing[s].outpoint != v.backing[t].outpoint
  }

  predicate WellFormedCarriers(v: View) {
    forall o :: o in v.carriers ==>
      v.carriers[o].outpoint == o && v.carriers[o].tokenId in v.tokens && v.carriers[o].amountAtoms > 0
  }

  ghost predicate Inv(v: View) {
    && v.tokens.Keys == v.backing.Keys
    && (forall t :: t in v.backing ==> SupplyMonitor(v, t) && BackingMonitor(v, t))
    && DistinctVaults(v)
    && WellFormedCarriers(v)
  }

  /** Every recorded output belongs to one of these transactions. */
  predicate From(v: View, txids: set<string>) {
    && (forall o :: o in v.carriers ==> o.txid in txids)
    && (forall t :: t in v.backing ==> v.backing[t].outpoint.txid in txids)
  }

  // ── Totals under spending and creating ───────────────────────────────────

  function AmountsAt(carriers: map<OutPoint, Carrier>, spent: seq<OutPoint>): seq<int>
    requires forall i :: 0 <= i < |spent| ==> spent[i] in carriers
  {
    seq(|spent|, i requires 0 <= i < |spent| => carriers[spent[i]].amountAtoms)
  }

  lemma {:induction false} SpendTotal(carriers: map<OutPoint, Carrier>, tokenId: string, spent: seq<OutPoint>,
                                      t: string)
    requires Spend(carriers, tokenId, spent).error.None?
    ensures forall i :: 0 <= i < |spent| ==> spent[i] in carriers
    ensures Total(Spend(carriers, tokenId, spent).left, t)
            == Total(carriers, t) - (if t == tokenId then SumInts(AmountsAt(carriers, spent)) else 0)
    decreases |spent|
  {
    if spent != [] {
      var init, o := spent[..|spent| - 1], spent[|spent| - 1];
      var before := Spend(carriers, tokenId, init);
      SpendTotal(carriers, tokenId, init, t);
      SpendOnlyRemoves(carriers, tokenId, init);
      assert spent == init + [o];
      TotalRemove(before.left, o, t);
      assert AmountsAt(carriers, spent)[..|spent| - 1] == AmountsAt(carriers, init);
    }
  }

  /** New carriers at distinct outpoints that were not in use. */
  predicate FreshOutputs(carriers: map<OutPoint, Carrier>, created: seq<Output>) {
    && (forall i :: 0 <= i < |created| ==> created[i].outpoint !in carriers)
    && (forall i, j :: 0 <= i < j < |created| ==> created[i].outpoint != created[j].outpoint)
  }

  function OutputAmounts(created: seq<Output>): seq<int> {
    seq(|created|, i requires 0 <= i < |created| => created[i].amountAtoms)
  }

  lemma SumSnoc(xs: seq<int>)
    requires xs != []
    ensures SumInts(xs) == SumInts(xs[..|xs| - 1]) + xs[|xs| - 1]
  {
  }

  lemma FreshInit(carriers: map<OutPoint, Carrier>, created: seq<Output>)
    requires created != [] && FreshOutputs(carriers, created)
    ensures FreshOutputs(carriers, created[..|created| - 1])
  {
  }

  lemma CreateSnoc(carriers: map<OutPoint, Carrier>, tokenId: string, created: seq<Output>)
    requires created != []
    ensures var c := created[|created| - 1];
            Create(carriers, tokenId, created)
            == Create(carriers, tokenId, created[..|created| - 1])
                 [c.outpoint := Carrier(c.outpoint, tokenId, c.amountAtoms, c.script)]
  {
  }

  lemma {:induction false} CreateTotal(carriers: map<OutPoint, Carrier>, tokenId: string, created: seq<Output>,
                                       t: string)
    requires FreshOutputs(carriers, created)
    ensures Total(Create(carriers, tokenId, created), t)
            == Total(carriers, t) + (if t == tokenId then SumInts(OutputAmounts(created)) else 0)
    decreases |created|
  {
    if created == [] {
      assert OutputAmounts(created) == [] && SumInts([]) == 0;
    } else {
      var init, c := created[..|created| - 1], created[|created| - 1];
      FreshInit(carriers, created);
      CreateSnoc(carriers, tokenId, created);
      hide Total, SumInts, Create;
      CreateTotal(carriers, tokenId, init, t);
      CreateKeys(carriers, tokenId, init);
      SumSnoc(OutputAmounts(created));
      assert c.outpoint !in Create(carriers, tokenId, init);
      hide FreshOutputs;
      TotalInsert(Create(carriers, tokenId, init), c.outpoint, Carrier(c.outpoint, tokenId, c.amountAtoms, c.script),
                  t);
      assert OutputAmounts(created)[..|created| - 1] == OutputAmounts(init);
    }
  }

  /** Creating adds exactly the listed outpoints, each held by `tokenId`. */
  lemma {:induction false} CreateKeys(carriers: map<OutPoint, Carrier>, tokenId: string, created: seq<Output>)
    ensures var m := Create(carriers, tokenId, created);
            && (forall o :: o in carriers ==> o in m)
            && (forall o :: o in m ==> o in carriers || exists i :: 0 <= i < |created| && created[i].outpoint == o)
            && (forall o :: o in m ==>
                  (o in carriers && m[o] == carriers[o])
                  || exists i :: 0 <= i < |created| && created[i].outpoint == o
                       && m[o] == Carrier(o, tokenId, created[i].amountAtoms, created[i].script))
    decreases |created|
  {
    if created != [] {
      var init := created[..|created| - 1];
      CreateKeys(carriers, tokenId, init);
      assert forall i :: 0 <= i < |init| ==> init[i] == created[i];
    }
  }

  /** A carrier read from the table it is keyed in. */
  predicate Canonical(carriers: map<OutPoint, Carrier>, c: Carrier) {
    c.outpoint in carriers && carriers[c.outpoint] == c
  }

  /** Resolved inputs are unspent carriers of the view. */
  lemma {:induction false} ResolveIsCanonical(carriers: map<OutPoint, Carrier>, ins: seq<OutPoint>)
    requires forall o :: o in carriers ==> carriers[o].outpoint == o
    ensures forall c :: c in Resolve(carriers, ins) ==> Canonical(carriers, c)
    decreases |ins|
  {
    if ins != [] {
      ResolveIsCanonical(carriers, ins[..|ins| - 1]);
    }
  }

  lemma ResolvedAmounts(carriers: map<OutPoint, Carrier>, ins: seq<OutPoint>)
    requires forall o :: o in carriers ==> carriers[o].outpoint == o
    ensures var r := Resolve(carriers, ins);
            && (forall i :: 0 <= i < |r| ==> Outpoints(r)[i] in carriers)
            && AmountsAt(carriers, Outpoints(r)) == Amounts(r)
  {
    ResolveIsCanonical(carriers, ins);
    var r := Resolve(carriers, ins);
    assert forall i :: 0 <= i < |r| ==> Canonical(carriers, r[i]);
  }

  lemma {:induction false} AllocatedAmounts(txid: string, allocations: seq<Allocation>, outputs: seq<TxOutput>)
    ensures SumInts(OutputAmounts(Allocated(txid, allocations, outputs))) == SumAllocations(allocations)
    decreases |allocations|
  {
    var all := Allocated(txid, allocations, outputs);
    if allocations != [] {
      var init := allocations[..|allocations| - 1];
      AllocatedAmounts(txid, init, outputs);
      assert OutputAmounts(all)[..|all| - 1] == OutputAmounts(Allocated(txid, init, outputs));
    }
  }

  /** Spending resolved carriers of one token and creating well-placed ones in a new
      transaction changes only that token's total, by exactly the difference. */
  lemma SwapTotals(v: View, txids: set<string>, txid: string, tokenId: string, ins: seq<OutPoint>,
                   allocations: seq<Allocation>, outputs: seq<TxOutput>)
    requires WellFormedCarriers(v) && From(v, txids) && txid !in txids && tokenId in v.tokens
    requires WellPlaced(allocations, outputs)
    requires Spend(v.carriers, tokenId, Outpoints(Resolve(v.carriers, ins))).error.None?
    ensures var inputs := Resolve(v.carriers, ins);
            var after := Create(Spend(v.carriers, tokenId, Outpoints(inputs)).left, tokenId,
                                Allocated(txid, allocations, outputs));
            && (forall t :: Total(after, t) == Total(v.carriers, t)
                  + (if t == tokenId then SumAllocations(allocations) - SumInts(Amounts(inputs)) else 0))
            && (forall o :: o in after ==>
                  after[o].outpoint == o && after[o].tokenId in v.tokens && after[o].amountAtoms > 0)
            && (forall o :: o in after ==> o.txid in txids + {txid})
  {
    var inputs := Resolve(v.carriers, ins);
    var left := Spend(v.carriers, tokenId, Outpoints(inputs)).left;
    var created := Allocated(txid, allocations, outputs);
    SpendOnlyRemoves(v.carriers, tokenId, Outpoints(inputs));
    CreateKeys(left, tokenId, created);
    forall t
      ensures Total(Create(left, tokenId, created), t) == Total(v.carriers, t)
                + (if t == tokenId then SumAllocations(allocations) - SumInts(Amounts(inputs)) else 0)
    {
      ResolvedAmounts(v.carriers, ins);
      SpendTotal(v.carriers, tokenId, Outpoints(inputs), t);
      CreateTotal(left, tokenId, created, t);
      AllocatedAmounts(txid, allocations, outputs);
    }
  }

  // ── Every step keeps the invariant ───────────────────────────────────────

  lemma DeployKeeps(v: View, txids: set<string>, op: LedgerOp)
    requires Inv(v) && From(v, txids) && op.Deploy? && op.txid !in txids && Accept(v, op).Some?
    ensures Inv(Accept(v, op).value) && From(Accept(v, op).value, txids + {op.txid})
  {
    hide TransitionV2.ValidTokenId, TransitionV2.ValidateState, Total;
    var id := op.meta.tokenId;
    TransitionV2.S0IsValid(id);
    NoCarriersOfUnknown(v.carriers, id, v.tokens.Keys);
  }

  lemma {:induction false} NoCarriersOfUnknown(carriers: map<OutPoint, Carrier>, tokenId: string, known: set<string>)
    requires tokenId !in known && forall o :: o in carriers ==> carriers[o].tokenId in known
    ensures Total(carriers, tokenId) == 0
    decreases |carriers|
  {
    if carriers != map[] {
      var o :| o in carriers.Keys;
      TotalRemove(carriers, o, tokenId);
      NoCarriersOfUnknown(carriers - {o}, tokenId, known);
    }
  }

  lemma MintCarriers(v: View, txids: set<string>, op: LedgerOp)
    requires Inv(v) && From(v, txids) && op.Mint? && Accept(v, op).Some?
    ensures WellFormedCarriers(Accept(v, op).value)
    ensures forall o :: o in Accept(v, op).value.carriers ==> o.txid in txids + {op.txid}
  {
    hide TransitionV2.ApplyMint, TransitionV2.AtSupply, Create, SupplyMonitor, BackingMonitor, DistinctVaults;
    TransitionV2.MintAccepted(v.backing[op.tokenId].state, op.amount);
    CreateKeys(v.carriers, op.tokenId, [Output(OutPoint(op.txid, op.recipientVout), op.script, op.amount)]);
  }

  /** A vault moving to an outpoint of a new transaction keeps vaults apart. */
  lemma VaultMoves(v: View, txids: set<string>, tokenId: string, vault: Vault, txid: string)
    requires DistinctVaults(v) && From(v, txids) && txid !in txids && vault.outpoint.txid == txid
    ensures var backing := v.backing[tokenId := vault];
            && DistinctVaults(v.(backing := backing))
            && forall t :: t in backing ==> backing[t].outpoint.txid in txids + {txid}
  {
  }

  lemma MintMonitors(v: View, txids: set<string>, op: LedgerOp, t: string)
    requires Inv(v) && From(v, txids) && op.Mint? && op.txid !in txids && Accept(v, op).Some? && t in v.backing
    ensures SupplyMonitor(Accept(v, op).value, t) && BackingMonitor(Accept(v, op).value, t)
  {
    hide TransitionV2.ValidTokenId, TransitionV2.ValidateState, TransitionV2.ApplyMint, TransitionV2.AtSupply;
    hide Total, Create, SumInts;
    var state := v.backing[op.tokenId].state;
    TransitionV2.StepKeepsValid(state, TransitionV2.Mint(op.amount));
    TransitionV2.MintAccepted(state, op.amount);
    var created := [Output(OutPoint(op.txid, op.recipientVout), op.script, op.amount)];
    OneOutput(created);
    assert SupplyMonitor(v, t) && BackingMonitor(v, t);
    CreateTotal(v.carriers, op.tokenId, created, t);
  }

  lemma MintKeeps(v: View, txids: set<string>, op: LedgerOp)
    requires Inv(v) && From(v, txids) && op.Mint? && op.txid !in txids && Accept(v, op).Some?
    ensures Inv(Accept(v, op).value) && From(Accept(v, op).value, txids + {op.txid})
  {
    hide TransitionV2.ValidTokenId, TransitionV2.ValidateState, TransitionV2.ApplyMint, TransitionV2.AtSupply;
    hide Total, Create, SumInts, SupplyMonitor, BackingMonitor;
    var state := v.backing[op.tokenId].state;
    TransitionV2.StepKeepsValid(state, TransitionV2.Mint(op.amount));
    TransitionV2.MintAccepted(state, op.amount);
    forall t | t in v.backing
      ensures SupplyMonitor(Accept(v, op).value, t) && BackingMonitor(Accept(v, op).value, t)
    {
      MintMonitors(v, txids, op, t);
    }
    MintCarriers(v, txids, op);
    var after := Accept(v, op).value;
    hide WellFormedCarriers;
    VaultMoves(v, txids, op.tokenId, after.backing[op.tokenId], op.txid);
    assert after.backing == v.backing[op.tokenId := after.backing[op.tokenId]];
  }

  lemma OneOutput(created: seq<Output>)
    requires |created| == 1
    ensures SumInts(OutputAmounts(created)) == created[0].amountAtoms
  {
    var xs := OutputAmounts(created);
    assert xs[..0] == [];
  }

  lemma TransferKeeps(v: View, txids: set<string>, op: LedgerOp)
    requires Inv(v) && From(v, txids) && op.Transfer? && op.txid !in txids && Accept(v, op).Some?
    ensures Inv(Accept(v, op).value) && From(Accept(v, op).value, txids + {op.txid})
  {
    hide TransitionV2.ValidateState, Total, Create, Spend, Resolve, Allocated, WellPlaced;
    SwapTotals(v, txids, op.txid, op.tokenId, op.ins, op.allocations, op.outputs);
    forall t | t in v.backing
      ensures SupplyMonitor(Accept(v, op).value, t) && BackingMonitor(Accept(v, op).value, t)
    {
      assert SupplyMonitor(v, t) && BackingMonitor(v, t);
    }
  }

  lemma RedeemTables(v: View, txids: set<string>, op: LedgerOp)
    requires Inv(v) && From(v, txids) && op.Redeem? && op.txid !in txids && Accept(v, op).Some?
    ensures var after := Accept(v, op).value;
            && (forall t :: t in v.backing ==> SupplyMonitor(after, t))
            && WellFormedCarriers(after)
            && forall o :: o in after.carriers ==> o.txid in txids + {op.txid}
  {
    hide TransitionV2.ValidTokenId, TransitionV2.ValidateState, TransitionV2.ApplyRedeem, DistinctVaults;
    hide Total, Create, Spend, Resolve, Allocated, WellPlaced;
    TransitionV2.StepKeepsValid(v.backing[op.tokenId].state, TransitionV2.Redeem(op.amount));
    SwapTotals(v, txids, op.txid, op.tokenId, op.ins, op.change, op.outputs);
    forall t | t in v.backing
      ensures SupplyMonitor(Accept(v, op).value, t)
    {
      assert SupplyMonitor(v, t);
    }
  }

  lemma RedeemKeeps(v: View, txids: set<string>, op: LedgerOp)
    requires Inv(v) && From(v, txids) && op.Redeem? && op.txid !in txids && Accept(v, op).Some?
    ensures Inv(Accept(v, op).value) && From(Accept(v, op).value, txids + {op.txid})
  {
    hide TransitionV2.ValidTokenId, TransitionV2.ValidateState, TransitionV2.ApplyRedeem;
    hide Total, Create, Spend, Resolve, Allocated, RedeemConserves, SupplyMonitor, WellFormedCarriers;
    RedeemTables(v, txids, op);
    TransitionV2.StepKeepsValid(v.backing[op.tokenId].state, TransitionV2.Redeem(op.amount));
    var after := Accept(v, op).value;
    VaultMoves(v, txids, op.tokenId, after.backing[op.tokenId], op.txid);
    forall t | t in v.backing
      ensures BackingMonitor(after, t)
    {
      assert BackingMonitor(v, t);
    }
  }

  lemma StepKeeps(v: View, txids: set<string>, op: LedgerOp)
    requires Inv(v) && From(v, txids) && op.txid !in txids && Accept(v, op).Some?
    ensures Inv(Accept(v, op).value) && From(Accept(v, op).value, txids + {op.txid})
  {
    match op
    case Deploy(_, _) => DeployKeeps(v, txids, op);
    case Mint(_, _, _, _, _) => MintKeeps(v, txids, op);
    case Transfer(_, _, _, _, _) => TransferKeeps(v, txids, op);
    case Redeem(_, _, _, _, _, _) => RedeemKeeps(v, txids, op);
  }

  // ── Runs ─────────────────────────────────────────────────────────────────

  function Run(v: View, ops: seq<LedgerOp>): Option<View>
    decreases |ops|
  {
    if ops == [] then Some(v)
    else
      var next := Accept(v, ops[0]);
      if next.None? then None else Run(next.value, ops[1..])
  }

  /** A transaction id never repeats. */
  predicate DistinctTxids(ops: seq<LedgerOp>) {
    forall i, j :: 0 <= i < j < |ops| ==> ops[i].txid != ops[j].txid
  }

  lemma {:induction false} RunKeeps(v: View, txids: set<string>, ops: seq<LedgerOp>)
    requires Inv(v) && From(v, txids) && DistinctTxids(ops) && Run(v, ops).Some?
    requires forall i :: 0 <= i < |ops| ==> ops[i].txid !in txids
    ensures Inv(Run(v, ops).value)
    decreases |ops|
  {
    hide Inv, Accept, From;
    if ops != [] {
      StepKeeps(v, txids, ops[0]);
      RunKeeps(Accept(v, ops[0]).value, txids + {ops[0].txid}, ops[1..]);
    }
  }

  /** In every accepted run over any number of tokens, each token's unspent carriers sum
      to its issued supply and its backing is R(supply). */
  lemma TokensAreConserved(ops: seq<LedgerOp>, tokenId: string)
    requires DistinctTxids(ops) && Run(EMPTY_VIEW, ops).Some?
    ensures var v := Run(EMPTY_VIEW, ops).value;
            && (tokenId in v.tokens <==> tokenId in v.backing)
            && (tokenId in v.backing ==>
                  && Total(v.carriers, tokenId) == v.backing[tokenId].state.issuedSupplyAtoms
                  && TransitionV2.ValidState(v.backing[tokenId].state)
                  && 0 <= v.backing[tokenId].state.issuedSupplyAtoms <= PUBLIC_SUPPLY_ATOMS
                  && v.backing[tokenId].state.backingSats
                      == TransitionV2.ReserveAt(v.backing[tokenId].state.issuedSupplyAtoms))
            && (tokenId !in v.tokens ==> Total(v.carriers, tokenId) == 0)
  {
    hide TransitionV2.ValidateState, Run;
    RunKeeps(EMPTY_VIEW, {}, ops);
    var v := Run(EMPTY_VIEW, ops).value;
    if tokenId in v.backing {
      assert SupplyMonitor(v, tokenId) && BackingMonitor(v, tokenId);
      TransitionV2.ValidFacts(v.backing[tokenId].state);
    } else {
      NoCarriersOfUnknown(v.carriers, tokenId, v.tokens.Keys);
    }
  }

  /** The view holds what some run of accepted operations with distinct txids left. */
  ghost predicate Reached(view: CoveChainView, ops: seq<LedgerOp>)
    reads view
  {
    DistinctTxids(ops) && Run(EMPTY_VIEW, ops) == Some(view.Contents())
  }

  lemma ReachedIsSound(view: CoveChainView, ops: seq<LedgerOp>)
    requires Reached(view, ops)
    ensures Inv(view.Contents())
  {
    hide Inv, Run;
    EmptyIsSound();
    RunKeeps(EMPTY_VIEW, {}, ops);
  }

  lemma EmptyIsSound()
    ensures Inv(EMPTY_VIEW) && From(EMPTY_VIEW, {})
  {
  }

  /** After any run, looking a vault up by its current outpoint gives that token's current state. */
  method LookUpVault(view: CoveChainView, tokenId: string, ghost ops: seq<LedgerOp>) returns (r: Option<State>)
    requires Reached(view, ops) && tokenId in view.backing
    ensures r == Some(view.backing[tokenId].state)
  {
    hide Run;
    ReachedIsSound(view, ops);
    r := view.GetBackingStateByOutpoint(view.backing[tokenId].outpoint);
  }

  /** After any run, the derived balance of a token is its issued supply. */
  method IssuedSupply(view: CoveChainView, tokenId: string, ghost ops: seq<LedgerOp>) returns (total: int)
    requires Reached(view, ops) && tokenId in view.backing
    ensures total == view.backing[tokenId].state.issuedSupplyAtoms
  {
    hide Run, Total;
    ReachedIsSound(view, ops);
    assert SupplyMonitor(view.Contents(), tokenId);
    total := view.BalanceOf(tokenId);
  }

  // ── Replay ───────────────────────────────────────────────────────────────

  /** What the replay loop carries: the rebuilt view, and the token and state it saw last. */
  datatype Replayed = Replayed(view: View, tokenId: Option<string>, state: Option<State>)

  /** Replay one transaction. Unlike acceptance it runs no token validator, and it takes
      the token and the previous state from its own variables. */
  function ReplayOne(r: Replayed, op: LedgerOp): Option<Replayed> {
    var v := r.view;
    match op
    case Deploy(txid, meta) =>
      if meta.tokenId in v.tokens then None
      else
        var s0 := TransitionV2.S0State(meta.tokenId);
        Some(Replayed(View(v.tokens[meta.tokenId := meta], v.carriers,
                           v.backing[meta.tokenId := Vault(s0, VaultOutPoint(txid))]), Some(meta.tokenId), Some(s0)))
    case Mint(txid, _, amount, recipientVout, script) =>
      if r.tokenId.None? || r.state.None? then None
      else
        var id := r.tokenId.value;
        var step := TransitionV2.ApplyMint(r.state.value, amount);
        if step.Err? || id !in v.tokens || id !in v.backing then None
        else
          var carriers := Create(v.carriers, id, [Output(OutPoint(txid, recipientVout), script, amount)]);
          var backing := v.backing[id := Vault(step.value.next, VaultOutPoint(txid))];
          Some(Replayed(View(v.tokens, carriers, backing), r.tokenId, Some(step.value.next)))
    case Transfer(txid, _, ins, allocations, outputs) =>
      if r.tokenId.None? || r.tokenId.value !in v.tokens then None
      else
        var id := r.tokenId.value;
        var s := Spend(v.carriers, id, Outpoints(Resolve(v.carriers, ins)));
        if s.error.Some? then None
        else Some(r.(view := View(v.tokens, Create(s.left, id, Allocated(txid, allocations, outputs)), v.backing)))
    case Redeem(txid, _, ins, amount, change, outputs) =>
      if r.tokenId.None? || r.state.None? then None
      else
        var id := r.tokenId.value;
        var step := TransitionV2.ApplyRedeem(r.state.value, amount);
        if step.Err? || id !in v.tokens || id !in v.backing then None
        else
          var s := Spend(v.carriers, id, Outpoints(Resolve(v.carriers, ins)));
          if s.error.Some? then None
          else
            var backing := v.backing[id := Vault(step.value.next, VaultOutPoint(txid))];
            Some(Replayed(View(v.tokens, Create(s.left, id, Allocated(txid, change, outputs)), backing),
                          r.tokenId, Some(step.value.next)))
  }

  function Replay(r: Replayed, ops: seq<LedgerOp>): Option<Replayed>
    decreases |ops|
  {
    if ops == [] then Some(r)
    else
      var init := Replay(r, ops[..|ops| - 1]);
      if init.None? then None else ReplayOne(init.value, ops[|ops| - 1])
  }

  const REPLAY_START := Replayed(EMPTY_VIEW, None, None)

  lemma {:induction false} ReplayStops(r: Replayed, ops: seq<LedgerOp>, k: nat)
    requires k <= |ops| && Replay(r, ops[..k]).None?
    ensures Replay(r, ops).None?
    decreases |ops|
  {
    if k == |ops| {
      assert ops[..k] == ops;
    } else {
      assert ops[..|ops| - 1][..k] == ops[..k];
      ReplayStops(r, ops[..|ops| - 1], k);
    }
  }

  /** The loop body: apply one transaction to the view, or stop the replay. */
  method ReplayStep(view: CoveChainView, tokenId: Option<string>, state: Option<State>, op: LedgerOp)
    returns (stop: bool, nextId: Option<string>, nextState: Option<State>)
    requires view.Valid() && (tokenId.Some? ==> tokenId.value in view.tokens)
    modifies view
    ensures view.Valid() && (nextId.Some? ==> nextId.value in view.tokens)
    ensures stop <==> ReplayOne(old(Replayed(view.Contents(), tokenId, state)), op).None?
    ensures !stop ==> ReplayOne(old(Replayed(view.Contents(), tokenId, state)), op)
                      == Some(Replayed(view.Contents(), nextId, nextState))
  {
    hide TransitionV2.ApplyMint, TransitionV2.ApplyRedeem, TransitionV2.ValidTokenId, Create, Spend, Resolve, Allocated;
    nextId, nextState := tokenId, state;
    var error: Option<ViewError> := None;
    match op {
      case Deploy(txid, meta) =>
        var s0 := TransitionV2.S0State(meta.tokenId);
        error := view.Deploy(meta, VaultOutPoint(txid), s0);
        nextId, nextState := Some(meta.tokenId), Some(s0);
      case Mint(txid, _, amount, recipientVout, script) =>
        if tokenId.None? || state.None? {
          return true, tokenId, state;
        }
        var step := TransitionV2.ApplyMint(state.value, amount);
        if step.Err? {
          return true, tokenId, state;
        }
        error := view.Mint(tokenId.value, step.value.next, view.backing[tokenId.value].outpoint, VaultOutPoint(txid),
                           Output(OutPoint(txid, recipientVout), script, amount));
        nextState := Some(step.value.next);
      case Transfer(txid, _, ins, allocations, outputs) =>
        if tokenId.None? {
          return true, tokenId, state;
        }
        var spent := view.ResolveTokenInputs(ins);
        error := view.Transfer(tokenId.value, Outpoints(spent), Allocated(txid, allocations, outputs));
      case Redeem(txid, _, ins, amount, change, outputs) =>
        if tokenId.None? || state.None? {
          return true, tokenId, state;
        }
        var step := TransitionV2.ApplyRedeem(state.value, amount);
        if step.Err? {
          return true, tokenId, state;
        }
        var spent := view.ResolveTokenInputs(ins);
        error := view.Redeem(tokenId.value, step.value.next, view.backing[tokenId.value].outpoint, VaultOutPoint(txid),
                             Outpoints(spent), Allocated(txid, change, outputs));
        nextState := Some(step.value.next);
    }
    stop := error.Some?;
  }

  /** The replay loop: rebuild a fresh view and a final state from the transactions alone. */
  method ReplayChain(ops: seq<LedgerOp>) returns (view: CoveChainView, state: Option<State>, ok: bool)
    ensures fresh(view)
    ensures ok <==> Replay(REPLAY_START, ops).Some? && Replay(REPLAY_START, ops).value.state.Some?
    ensures ok ==> view.Contents() == Replay(REPLAY_START, ops).value.view
                   && state == Replay(REPLAY_START, ops).value.state
  {
    hide ReplayOne;
    view := new CoveChainView();
    state, ok := None, false;
    var tokenId: Option<string> := None;
    for k := 0 to |ops|
      invariant fresh(view) && view.Valid()
      invariant tokenId.Some? ==> tokenId.value in view.tokens
      invariant Replay(REPLAY_START, ops[..k]) == Some(Replayed(view.Contents(), tokenId, state))
    {
      assert ops[..k + 1][..k] == ops[..k];
      var stop;
      stop, tokenId, state := ReplayStep(view, tokenId, state, ops[k]);
      if stop {
        ReplayStops(REPLAY_START, ops, k + 1);
        state := None;
        return;
      }
    }
    assert ops[..|ops|] == ops;
    ok := state.Some?;
  }

  /** The history of one token: its deployment, then operations on it alone. */
  predicate SingleToken(ops: seq<LedgerOp>) {
    && ops != [] && ops[0].Deploy?
    && (forall i :: 1 <= i < |ops| ==> !ops[i].Deploy? && ops[i].tokenId == ops[0].meta.tokenId)
  }

  lemma {:induction false} RunSnoc(v: View, ops: seq<LedgerOp>)
    requires ops != []
    ensures Run(v, ops) == var init := Run(v, ops[..|ops| - 1]);
                           if init.None? then None else Accept(init.value, ops[|ops| - 1])
    decreases |ops|
  {
    var last := ops[|ops| - 1];
    if |ops| == 1 {
      assert ops[..0] == [] && ops[1..] == [];
    } else {
      var next := Accept(v, ops[0]);
      assert ops[..|ops| - 1][1..] == ops[1..][..|ops| - 2];
      if next.Some? {
        RunSnoc(next.value, ops[1..]);
      }
    }
  }

  /** Replaying an accepted single-token history rebuilds the accepted view, and the state
      carried by the loop is that token's current vault state. */
  lemma {:induction false} ReplayRebuilds(ops: seq<LedgerOp>)
    requires SingleToken(ops) && Run(EMPTY_VIEW, ops).Some?
    ensures var v, id := Run(EMPTY_VIEW, ops).value, ops[0].meta.tokenId;
            && id in v.tokens && id in v.backing
            && Replay(REPLAY_START, ops) == Some(Replayed(v, Some(id), Some(v.backing[id].state)))
    decreases |ops|
  {
    hide TransitionV2.ApplyMint, TransitionV2.ApplyRedeem, Run;
    RunSnoc(EMPTY_VIEW, ops);
    var init := ops[..|ops| - 1];
    if |ops| == 1 {
      assert init == [];
      RunEmpty(EMPTY_VIEW);
      assert Replay(REPLAY_START, []) == Some(REPLAY_START);
    } else {
      ReplayRebuilds(init);
    }
  }

  lemma RunEmpty(v: View)
    ensures Run(v, []) == Some(v)
  {
  }
}
