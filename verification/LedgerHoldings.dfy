/** What an accepted operation leaves at each outpoint: which carriers are gone, which are new and
    what they hold, and which operations are accepted. */
module LedgerHoldings {
  import opened Wrappers
  import opened Constants
  import opened TokenUtxo
  import TransitionV2
  import opened ChainView
  import opened Ledger

  // ── Inputs ───────────────────────────────────────────────────────────────

  /** The carriers a transaction spends are those recorded at its input outpoints. */
  lemma {:induction false} ResolvedExactly(carriers: map<OutPoint, Carrier>, ins: seq<OutPoint>)
    requires forall o :: o in carriers ==> carriers[o].outpoint == o
    ensures forall o :: o in Outpoints(Resolve(carriers, ins)) <==> o in ins && o in carriers
    decreases |ins|
  {
    if ins != [] {
      var init, o := ins[..|ins| - 1], ins[|ins| - 1];
      ResolvedExactly(carriers, init);
      assert ins == init + [o];
      var rest := Resolve(carriers, init);
      if o in carriers {
        assert Outpoints(Resolve(carriers, ins)) == Outpoints(rest) + [o];
      } else {
        assert Resolve(carriers, ins) == rest;
      }
    }
  }

  /** A known outpoint is listed once. */
  predicate KnownOnce(carriers: map<OutPoint, Carrier>, ins: seq<OutPoint>) {
    forall i, j :: 0 <= i < j < |ins| && ins[i] in carriers ==> ins[i] != ins[j]
  }

  predicate Distinct(spent: seq<OutPoint>) {
    forall i, j :: 0 <= i < j < |spent| ==> spent[i] != spent[j]
  }

  lemma {:induction false} ResolvedDistinct(carriers: map<OutPoint, Carrier>, ins: seq<OutPoint>)
    requires forall o :: o in carriers ==> carriers[o].outpoint == o
    ensures Distinct(Outpoints(Resolve(carriers, ins))) <==> KnownOnce(carriers, ins)
    decreases |ins|
  {
    if ins != [] {
      var init, o := ins[..|ins| - 1], ins[|ins| - 1];
      ResolvedDistinct(carriers, init);
      ResolvedExactly(carriers, init);
      assert ins == init + [o];
      var rest := Outpoints(Resolve(carriers, init));
      if o in carriers {
        assert Outpoints(Resolve(carriers, ins)) == rest + [o];
        OneMoreDistinct(rest, o);
        OneMoreKnownOnce(carriers, init, o);
      } else {
        assert Outpoints(Resolve(carriers, ins)) == rest;
        OneMoreKnownOnce(carriers, init, o);
      }
    }
  }

  lemma OneMoreDistinct(spent: seq<OutPoint>, o: OutPoint)
    ensures Distinct(spent + [o]) <==> Distinct(spent) && o !in spent
  {
    if Distinct(spent + [o]) {
      assert forall i :: 0 <= i < |spent| ==> (spent + [o])[i] == spent[i];
      assert (spent + [o])[|spent|] == o;
    }
  }

  lemma OneMoreKnownOnce(carriers: map<OutPoint, Carrier>, ins: seq<OutPoint>, o: OutPoint)
    ensures KnownOnce(carriers, ins + [o]) <==> KnownOnce(carriers, ins) && (o in carriers ==> o !in ins)
  {
    if KnownOnce(carriers, ins + [o]) {
      assert forall i :: 0 <= i < |ins| ==> (ins + [o])[i] == ins[i];
      assert (ins + [o])[|ins|] == o;
    }
  }

  /** Spending succeeds exactly for distinct carriers of the token, and removes exactly those. */
  lemma {:induction false} SpendsExactly(carriers: map<OutPoint, Carrier>, tokenId: string, spent: seq<OutPoint>)
    ensures var s := Spend(carriers, tokenId, spent);
            && (s.error.None? <==>
                  Distinct(spent) && forall o :: o in spent ==> o in carriers && carriers[o].tokenId == tokenId)
            && (s.error.None? ==> s.left == carriers - (set o | o in spent))
    decreases |spent|
  {
    if spent != [] {
      var init, o := spent[..|spent| - 1], spent[|spent| - 1];
      SpendsExactly(carriers, tokenId, init);
      assert spent == init + [o];
      assert (set x | x in spent) == (set x | x in init) + {o};
      OneMoreDistinct(init, o);
      hide Distinct;
      SpendOnlyRemoves(carriers, tokenId, init);
    }
  }

  // ── Outputs ──────────────────────────────────────────────────────────────

  /** Recording outputs at distinct outpoints leaves each of them there and every other carrier alone. */
  lemma {:induction false} CreatesExactly(carriers: map<OutPoint, Carrier>, tokenId: string, created: seq<Output>)
    requires forall i, j :: 0 <= i < j < |created| ==> created[i].outpoint != created[j].outpoint
    ensures var m := Create(carriers, tokenId, created);
            && (forall i :: 0 <= i < |created| ==>
                  && created[i].outpoint in m
                  && m[created[i].outpoint]
                     == Carrier(created[i].outpoint, tokenId, created[i].amountAtoms, created[i].script))
            && (forall o :: (forall i :: 0 <= i < |created| ==> created[i].outpoint != o) ==>
                  (o in m <==> o in carriers) && (o in carriers ==> m[o] == carriers[o]))
    decreases |created|
  {
    if created != [] {
      var init := created[..|created| - 1];
      CreatesExactly(carriers, tokenId, init);
      assert forall i :: 0 <= i < |init| ==> init[i] == created[i];
    }
  }

  /** What a transfer or redemption by transaction `txid` leaves at an outpoint. */
  ghost predicate LeftAt(v: View, carriers: map<OutPoint, Carrier>, txid: string, tokenId: string, ins: seq<OutPoint>,
                         allocations: seq<Allocation>, outputs: seq<TxOutput>, o: OutPoint)
  {
    && (o.txid == txid ==>
          (o in carriers <==> exists i :: 0 <= i < |allocations| && allocations[i].vout == o.vout))
    && (forall i :: 0 <= i < |allocations| && o == OutPoint(txid, allocations[i].vout) ==>
          && o in carriers && o.vout < |outputs|
          && carriers[o] == Carrier(o, tokenId, allocations[i].amount, outputs[o.vout].script))
    && (o.txid != txid && o in ins ==> o !in carriers)
    && (o.txid != txid && o !in ins ==>
          (o in carriers <==> o in v.carriers) && (o in carriers ==> carriers[o] == v.carriers[o]))
  }

  lemma SwappedExactly(v: View, txids: set<string>, txid: string, tokenId: string, ins: seq<OutPoint>,
                       allocations: seq<Allocation>, outputs: seq<TxOutput>, o: OutPoint)
    requires WellFormedCarriers(v) && From(v, txids) && txid !in txids && WellPlaced(allocations, outputs)
    requires Spend(v.carriers, tokenId, Outpoints(Resolve(v.carriers, ins))).error.None?
    ensures var left := Spend(v.carriers, tokenId, Outpoints(Resolve(v.carriers, ins))).left;
            LeftAt(v, Create(left, tokenId, Allocated(txid, allocations, outputs)), txid, tokenId, ins, allocations,
                   outputs, o)
  {
    hide Spend, Create, Resolve;
    var spent, created := Outpoints(Resolve(v.carriers, ins)), Allocated(txid, allocations, outputs);
    ResolvedExactly(v.carriers, ins);
    SpendsExactly(v.carriers, tokenId, spent);
    var left := Spend(v.carriers, tokenId, spent).left;
    forall i | 0 <= i < |allocations|
      ensures created[i]
              == Output(OutPoint(txid, allocations[i].vout), outputs[allocations[i].vout].script, allocations[i].amount)
    {
    }
    CreatesExactly(left, tokenId, created);
    forall i | 0 <= i < |allocations| && o == OutPoint(txid, allocations[i].vout)
      ensures o == created[i].outpoint
    {
    }
  }

  /** After an accepted transfer each allocation is at its own output with its own amount, the carriers
      at the inputs are gone, and every other carrier, every vault and every token is as before. */
  lemma TransferLeaves(v: View, txids: set<string>, op: LedgerOp, o: OutPoint)
    requires WellFormedCarriers(v) && From(v, txids) && op.Transfer? && op.txid !in txids && Accept(v, op).Some?
    ensures var after := Accept(v, op).value;
            && after.tokens == v.tokens && after.backing == v.backing
            && LeftAt(v, after.carriers, op.txid, op.tokenId, op.ins, op.allocations, op.outputs, o)
  {
    hide LeftAt, Spend, Create, Resolve, Allocated, WellPlaced;
    SwappedExactly(v, txids, op.txid, op.tokenId, op.ins, op.allocations, op.outputs, o);
  }

  /** After an accepted redemption the change is at its outputs and the vault has moved on. */
  lemma RedeemLeaves(v: View, txids: set<string>, op: LedgerOp, o: OutPoint)
    requires WellFormedCarriers(v) && From(v, txids) && op.Redeem? && op.txid !in txids && Accept(v, op).Some?
    ensures op.tokenId in v.backing
    ensures var after, state := Accept(v, op).value, v.backing[op.tokenId].state;
            && after.tokens == v.tokens
            && TransitionV2.ApplyRedeem(state, op.amount).Ok?
            && after.backing == v.backing[op.tokenId := Vault(TransitionV2.ApplyRedeem(state, op.amount).value.next,
                                                              OutPoint(op.txid, 1))]
            && LeftAt(v, after.carriers, op.txid, op.tokenId, op.ins, op.change, op.outputs, o)
  {
    hide LeftAt, Spend, Create, Resolve, Allocated, WellPlaced, TransitionV2.ApplyRedeem;
    SwappedExactly(v, txids, op.txid, op.tokenId, op.ins, op.change, op.outputs, o);
  }

  /** After an accepted mint the recipient's output carries the amount and the vault has moved on. */
  lemma MintLeaves(v: View, op: LedgerOp)
    requires op.Mint? && Accept(v, op).Some?
    ensures op.tokenId in v.backing
    ensures var after, state := Accept(v, op).value, v.backing[op.tokenId].state;
            var o := OutPoint(op.txid, op.recipientVout);
            && after.tokens == v.tokens
            && TransitionV2.ApplyMint(state, op.amount).Ok?
            && after.backing == v.backing[op.tokenId := Vault(TransitionV2.ApplyMint(state, op.amount).value.next,
                                                              OutPoint(op.txid, 1))]
            && after.carriers == v.carriers[o := Carrier(o, op.tokenId, op.amount, op.script)]
  {
    hide TransitionV2.ApplyMint;
    var created := [Output(OutPoint(op.txid, op.recipientVout), op.script, op.amount)];
    assert created[..0] == [] && Create(v.carriers, op.tokenId, []) == v.carriers;
    assert Create(v.carriers, op.tokenId, created)
           == v.carriers[created[0].outpoint := Carrier(created[0].outpoint, op.tokenId, op.amount, op.script)];
  }

  /** After an accepted deployment the token has an empty vault at output 1. */
  lemma DeployLeaves(v: View, op: LedgerOp)
    requires op.Deploy? && Accept(v, op).Some?
    ensures var after, id := Accept(v, op).value, op.meta.tokenId;
            && after.tokens == v.tokens[id := op.meta] && after.carriers == v.carriers
            && (forall t :: t in after.backing <==> t == id || t in v.backing)
            && (forall t :: t in v.backing && t != id ==> after.backing[t] == v.backing[t])
            && after.backing[id].outpoint == OutPoint(op.txid, 1)
            && after.backing[id].state.tokenId == id && after.backing[id].state.issuedSupplyAtoms == 0
            && after.backing[id].state.backingSats == 0 && after.backing[id].state.curveStage == 1
  {
  }

  // ── What is accepted ─────────────────────────────────────────────────────

  /** Known inputs are carriers of this token, each listed once. */
  predicate OwnInputs(v: View, tokenId: string, ins: seq<OutPoint>) {
    && (forall o :: o in ins && o in v.carriers ==> v.carriers[o].tokenId == tokenId)
    && (forall i, j :: 0 <= i < j < |ins| && ins[i] in v.carriers ==> ins[i] != ins[j])
  }

  /** and there is one. */
  ghost predicate GoodInputs(v: View, tokenId: string, ins: seq<OutPoint>) {
    OwnInputs(v, tokenId, ins) && exists o :: o in ins && o in v.carriers
  }

  /** Each allocation gives a positive amount to its own output, which is there and can be spent. */
  predicate GoodAllocations(allocations: seq<Allocation>, outputs: seq<TxOutput>) {
    forall i :: 0 <= i < |allocations| ==>
      && allocations[i].amount > 0
      && allocations[i].vout < |outputs|
      && (|outputs[allocations[i].vout].script| == 0 || outputs[allocations[i].vout].script[0] != 0x6a)
      && forall j :: 0 <= j < i ==> allocations[j].vout != allocations[i].vout
  }

  /** What the inputs hold, summed in input order. */
  function InputTotal(carriers: map<OutPoint, Carrier>, ins: seq<OutPoint>): int {
    if ins == [] then 0
    else
      InputTotal(carriers, ins[..|ins| - 1])
      + if ins[|ins| - 1] in carriers then carriers[ins[|ins| - 1]].amountAtoms else 0
  }

  lemma {:induction false} ResolvedTotal(carriers: map<OutPoint, Carrier>, ins: seq<OutPoint>)
    ensures SumInts(Amounts(Resolve(carriers, ins))) == InputTotal(carriers, ins)
    decreases |ins|
  {
    if ins != [] {
      var init, o := ins[..|ins| - 1], ins[|ins| - 1];
      ResolvedTotal(carriers, init);
      var rest := Resolve(carriers, init);
      if o in carriers {
        var xs := Amounts(Resolve(carriers, ins));
        assert xs[..|xs| - 1] == Amounts(rest);
      } else {
        assert Resolve(carriers, ins) == rest;
      }
    } else {
      assert Amounts(Resolve(carriers, ins)) == [];
    }
  }

  lemma WellPlacedExactly(allocations: seq<Allocation>, outputs: seq<TxOutput>)
    ensures WellPlaced(allocations, outputs) <==> GoodAllocations(allocations, outputs)
  {
  }

  lemma InputsSpendExactly(v: View, tokenId: string, ins: seq<OutPoint>)
    requires WellFormedCarriers(v)
    ensures var inputs := Resolve(v.carriers, ins);
            && (inputs != [] && Spend(v.carriers, tokenId, Outpoints(inputs)).error.None? <==>
                GoodInputs(v, tokenId, ins))
            && Positive(Amounts(inputs))
  {
    hide Spend, Resolve;
    var inputs := Resolve(v.carriers, ins);
    ResolvedExactly(v.carriers, ins);
    ResolvedDistinct(v.carriers, ins);
    SpendsExactly(v.carriers, tokenId, Outpoints(inputs));
    ResolveIsCanonical(v.carriers, ins);
    assert inputs != [] ==> Outpoints(inputs)[0] in Outpoints(inputs);
    assert forall i :: 0 <= i < |inputs| ==> Canonical(v.carriers, inputs[i]);
  }

  /** A transfer is accepted exactly when its token is known, its inputs are good, and its allocations
      are good and hand on exactly what the inputs hold, within 64 bits. */
  lemma TransferAcceptedExactly(v: View, op: LedgerOp)
    requires op.Transfer? && WellFormedCarriers(v)
    ensures Accept(v, op).Some? <==>
              && op.tokenId in v.tokens && GoodInputs(v, op.tokenId, op.ins)
              && op.allocations != [] && GoodAllocations(op.allocations, op.outputs)
              && SumAllocations(op.allocations) == InputTotal(v.carriers, op.ins) <= U64_MAX
  {
    hide WellPlaced, GoodAllocations, GoodInputs, Spend, Resolve, Create, InputTotal, WellFormedCarriers;
    WellPlacedExactly(op.allocations, op.outputs);
    InputsSpendExactly(v, op.tokenId, op.ins);
    ResolvedTotal(v.carriers, op.ins);
  }

  /** A redemption is accepted exactly when its token has a vault, its inputs are good, its change is
      good and hands back what is not redeemed, and the transition accepts the amount. */
  lemma RedeemAcceptedExactly(v: View, op: LedgerOp)
    requires op.Redeem? && WellFormedCarriers(v)
    ensures Accept(v, op).Some? <==>
              && op.tokenId in v.tokens && op.tokenId in v.backing && GoodInputs(v, op.tokenId, op.ins)
              && GoodAllocations(op.change, op.outputs) && op.amount > 0
              && op.amount + SumAllocations(op.change) == InputTotal(v.carriers, op.ins)
              && TransitionV2.ApplyRedeem(v.backing[op.tokenId].state, op.amount).Ok?
  {
    hide WellPlaced, GoodAllocations, GoodInputs, Spend, Resolve, Create, InputTotal, WellFormedCarriers;
    hide TransitionV2.ApplyRedeem;
    WellPlacedExactly(op.change, op.outputs);
    InputsSpendExactly(v, op.tokenId, op.ins);
    ResolvedTotal(v.carriers, op.ins);
  }

  /** A mint is accepted exactly when its token has a vault and the transition accepts the amount; a
      deployment exactly for a new token with a legal id. */
  lemma OtherwiseAcceptedExactly(v: View, op: LedgerOp)
    ensures op.Mint? ==>
              (Accept(v, op).Some? <==>
               && op.tokenId in v.tokens && op.tokenId in v.backing
               && TransitionV2.ApplyMint(v.backing[op.tokenId].state, op.amount).Ok?)
    ensures op.Deploy? ==>
              (Accept(v, op).Some? <==>
               op.meta.tokenId !in v.tokens && TransitionV2.ValidTokenId(op.meta.tokenId))
  {
    hide TransitionV2.ApplyMint, TransitionV2.ValidTokenId;
  }

  /** The replay stops exactly at a known deployment, at an operation before any deployment, at an
      amount the transition refuses, and at inputs that repeat or belong to another token. */
  lemma ReplayStopsExactly(r: Replayed, op: LedgerOp)
    requires WellFormedCarriers(r.view) && (r.tokenId.Some? <==> r.state.Some?)
    requires r.tokenId.Some? ==> r.tokenId.value in r.view.tokens && r.tokenId.value in r.view.backing
    ensures ReplayOne(r, op).None? <==>
              match op
              case Deploy(_, meta) => meta.tokenId in r.view.tokens
              case Mint(_, _, amount, _, _) => r.state.None? || TransitionV2.ApplyMint(r.state.value, amount).Err?
              case Transfer(_, _, ins, _, _) => r.tokenId.None? || !OwnInputs(r.view, r.tokenId.value, ins)
              case Redeem(_, _, ins, amount, _, _) =>
                || r.state.None? || TransitionV2.ApplyRedeem(r.state.value, amount).Err?
                || !OwnInputs(r.view, r.tokenId.value, ins)
  {
    hide TransitionV2.ApplyMint, TransitionV2.ApplyRedeem, Spend, Resolve, Create, OwnInputs;
    if (op.Transfer? || op.Redeem?) && r.tokenId.Some? {
      OwnInputsSpend(r.view, r.tokenId.value, op.ins);
    }
  }

  lemma OwnInputsSpend(v: View, tokenId: string, ins: seq<OutPoint>)
    requires WellFormedCarriers(v)
    ensures Spend(v.carriers, tokenId, Outpoints(Resolve(v.carriers, ins))).error.None? <==> OwnInputs(v, tokenId, ins)
  {
    hide Spend, Resolve;
    ResolvedExactly(v.carriers, ins);
    ResolvedDistinct(v.carriers, ins);
    SpendsExactly(v.carriers, tokenId, Outpoints(Resolve(v.carriers, ins)));
  }
}
