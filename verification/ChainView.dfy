/** The in-memory chain view: which carriers are unspent and which output is each
    token's vault. */
module ChainView {
  import opened Wrappers
  import opened TokenUtxo
  import opened TransitionV2

  datatype OutPoint = OutPoint(txid: string, vout: nat)
  datatype Carrier = Carrier(outpoint: OutPoint, tokenId: string, amountAtoms: int, script: Script)
  datatype TokenMeta = TokenMeta(tokenId: string, ticker: string, deployTxid: string)
  datatype Vault = Vault(state: State, outpoint: OutPoint)

  /** The three tables as one value. */
  datatype View = View(
    tokens: map<string, TokenMeta>,
    carriers: map<OutPoint, Carrier>,
    backing: map<string, Vault>)

  datatype ViewError =
    | DuplicateDeploy
    | TokenNotFound
    | StaleBackingOutpoint
    | InputNotCanonical
    | MixedTokenInput

  datatype Output = Output(outpoint: OutPoint, script: Script, amountAtoms: int)

  datatype Spending = Spending(left: map<OutPoint, Carrier>, error: Option<ViewError>)

  /** Delete the spent carriers one by one; a refusal leaves the earlier deletions in place. */
  function Spend(carriers: map<OutPoint, Carrier>, tokenId: string, spent: seq<OutPoint>): Spending {
    if spent == [] then Spending(carriers, None)
    else
      var before := Spend(carriers, tokenId, spent[..|spent| - 1]);
      var o := spent[|spent| - 1];
      if before.error.Some? then before
      else if o !in before.left then Spending(before.left, Some(InputNotCanonical))
      else if before.left[o].tokenId != tokenId then Spending(before.left, Some(MixedTokenInput))
      else Spending(before.left - {o}, None)
  }

  /** Record the created carriers, later entries overwriting earlier ones. */
  function Create(carriers: map<OutPoint, Carrier>, tokenId: string, created: seq<Output>): map<OutPoint, Carrier> {
    if created == [] then carriers
    else
      var c := created[|created| - 1];
      Create(carriers, tokenId, created[..|created| - 1])
        [c.outpoint := Carrier(c.outpoint, tokenId, c.amountAtoms, c.script)]
  }

  lemma {:induction false} SpendStopsAtError(carriers: map<OutPoint, Carrier>, tokenId: string, spent: seq<OutPoint>,
                                             k: nat)
    requires k <= |spent| && Spend(carriers, tokenId, spent[..k]).error.Some?
    ensures Spend(carriers, tokenId, spent) == Spend(carriers, tokenId, spent[..k])
    decreases |spent|
  {
    if k == |spent| {
      assert spent[..k] == spent;
    } else {
      var init := spent[..|spent| - 1];
      assert init[..k] == spent[..k];
      SpendStopsAtError(carriers, tokenId, init, k);
    }
  }

  /** Whatever happens, spending only removes entries, and never one of another token. */
  lemma {:induction false} SpendOnlyRemoves(carriers: map<OutPoint, Carrier>, tokenId: string, spent: seq<OutPoint>)
    ensures var left := Spend(carriers, tokenId, spent).left;
            && left.Keys <= carriers.Keys
            && (forall o :: o in left ==> left[o] == carriers[o])
            && (forall o :: o in carriers && o !in left ==> carriers[o].tokenId == tokenId)
    decreases |spent|
  {
    if spent != [] {
      SpendOnlyRemoves(carriers, tokenId, spent[..|spent| - 1]);
    }
  }

  class CoveChainView {
    var tokens: map<string, TokenMeta>
    var tokenUtxos: map<OutPoint, Carrier>
    var backing: map<string, Vault>

    constructor ()
      ensures Contents() == View(map[], map[], map[])
    {
      tokens, tokenUtxos, backing := map[], map[], map[];
    }

    function Contents(): View
      reads this
    {
      View(tokens, tokenUtxos, backing)
    }

    /** The vault table has a row for every known token. */
    ghost predicate Valid()
      reads this
    {
      tokens.Keys == backing.Keys
    }

    method Deploy(meta: TokenMeta, backingOutpoint: OutPoint, s0: State) returns (error: Option<ViewError>)
      requires Valid()
      modifies this
      ensures Valid()
      ensures error == if meta.tokenId in old(tokens) then Some(DuplicateDeploy) else None
      ensures error.Some? ==> Contents() == old(Contents())
      ensures error.None? ==>
                Contents() == View(old(tokens)[meta.tokenId := meta], old(tokenUtxos),
                                   old(backing)[meta.tokenId := Vault(s0, backingOutpoint)])
    {
      if meta.tokenId in tokens {
        return Some(DuplicateDeploy);
      }
      tokens := tokens[meta.tokenId := meta];
      backing := backing[meta.tokenId := Vault(s0, backingOutpoint)];
      error := None;
    }

    method Mint(tokenId: string, nextState: State, prevBacking: OutPoint, nextBacking: OutPoint, recipient: Output)
      returns (error: Option<ViewError>)
      requires Valid()
      modifies this
      ensures Valid()
      ensures error == if tokenId !in old(tokens) then Some(TokenNotFound)
                       else if old(backing)[tokenId].outpoint != prevBacking then Some(StaleBackingOutpoint)
                       else None
      ensures error.Some? ==> Contents() == old(Contents())
      ensures error.None? ==>
                Contents() == View(old(tokens), Create(old(tokenUtxos), tokenId, [recipient]),
                                   old(backing)[tokenId := Vault(nextState, nextBacking)])
    {
      if tokenId !in tokens {
        return Some(TokenNotFound);
      }
      if backing[tokenId].outpoint != prevBacking {
        return Some(StaleBackingOutpoint);
      }
      backing := backing[tokenId := Vault(nextState, nextBacking)];
      assert Create(tokenUtxos, tokenId, []) == tokenUtxos;
      assert [recipient][..0] == [];
      tokenUtxos := tokenUtxos[recipient.outpoint := Carrier(recipient.outpoint, tokenId, recipient.amountAtoms,
                                                             recipient.script)];
      error := None;
    }

    /** The spending loop shared by transfers and redemptions. */
    method SpendAll(tokenId: string, spent: seq<OutPoint>) returns (error: Option<ViewError>)
      modifies this`tokenUtxos
      ensures var s := Spend(old(tokenUtxos), tokenId, spent); tokenUtxos == s.left && error == s.error
    {
      for k := 0 to |spent|
        invariant Spend(old(tokenUtxos), tokenId, spent[..k]) == Spending(tokenUtxos, None)
      {
        assert spent[..k + 1][..k] == spent[..k];
        if spent[k] !in tokenUtxos {
          SpendStopsAtError(old(tokenUtxos), tokenId, spent, k + 1);
          return Some(InputNotCanonical);
        }
        if tokenUtxos[spent[k]].tokenId != tokenId {
          SpendStopsAtError(old(tokenUtxos), tokenId, spent, k + 1);
          return Some(MixedTokenInput);
        }
        tokenUtxos := tokenUtxos - {spent[k]};
      }
      assert spent[..|spent|] == spent;
      error := None;
    }

    method CreateAll(tokenId: string, created: seq<Output>)
      modifies this`tokenUtxos
      ensures tokenUtxos == Create(old(tokenUtxos), tokenId, created)
    {
      for k := 0 to |created|
        invariant tokenUtxos == Create(old(tokenUtxos), tokenId, created[..k])
      {
        var c := created[k];
        assert created[..k + 1][..k] == created[..k];
        tokenUtxos := tokenUtxos[c.outpoint := Carrier(c.outpoint, tokenId, c.amountAtoms, c.script)];
      }
      assert created[..|created|] == created;
    }

    method Transfer(tokenId: string, spent: seq<OutPoint>, created: seq<Output>) returns (error: Option<ViewError>)
      requires Valid()
      modifies this
      ensures Valid() && tokens == old(tokens) && backing == old(backing)
      ensures tokenId !in old(tokens) ==> error == Some(TokenNotFound) && tokenUtxos == old(tokenUtxos)
      ensures tokenId in old(tokens) ==>
                var s := Spend(old(tokenUtxos), tokenId, spent);
                error == s.error &&
                tokenUtxos == if s.error.Some? then s.left else Create(s.left, tokenId, created)
    {
      if tokenId !in tokens {
        return Some(TokenNotFound);
      }
      error := SpendAll(tokenId, spent);
      if error.None? {
        CreateAll(tokenId, created);
      }
    }

    /** A refused token input leaves the vault row already moved to the successor. */
    method Redeem(tokenId: string, nextState: State, prevBacking: OutPoint, nextBacking: OutPoint,
                  spent: seq<OutPoint>, change: seq<Output>) returns (error: Option<ViewError>)
      requires Valid()
      modifies this
      ensures Valid() && tokens == old(tokens)
      ensures tokenId !in old(tokens) ==> error == Some(TokenNotFound) && Contents() == old(Contents())
      ensures tokenId in old(tokens) && old(backing)[tokenId].outpoint != prevBacking ==>
                error == Some(StaleBackingOutpoint) && Contents() == old(Contents())
      ensures tokenId in old(tokens) && old(backing)[tokenId].outpoint == prevBacking ==>
                var s := Spend(old(tokenUtxos), tokenId, spent);
                && error == s.error
                && backing == old(backing)[tokenId := Vault(nextState, nextBacking)]
                && tokenUtxos == if s.error.Some? then s.left else Create(s.left, tokenId, change)
    {
      if tokenId !in tokens {
        return Some(TokenNotFound);
      }
      if backing[tokenId].outpoint != prevBacking {
        return Some(StaleBackingOutpoint);
      }
      backing := backing[tokenId := Vault(nextState, nextBacking)];
      error := SpendAll(tokenId, spent);
      if error.None? {
        CreateAll(tokenId, change);
      }
    }

    /** The first vault row found at an outpoint, in whatever order the rows come. */
    method GetBackingStateByOutpoint(o: OutPoint) returns (r: Option<State>)
      ensures r.None? ==> forall t :: t in backing ==> backing[t].outpoint != o
      ensures r.Some? ==> exists t :: t in backing && backing[t].outpoint == o && backing[t].state == r.value
    {
      var left := backing.Keys;
      while left != {}
        invariant left <= backing.Keys
        invariant forall t :: t in backing && t !in left ==> backing[t].outpoint != o
        decreases left
      {
        var t :| t in left;
        if backing[t].outpoint == o {
          return Some(backing[t].state);
        }
        left := left - {t};
      }
      r := None;
    }

    /** The carriers a transaction really spends, read from its input outpoints. */
    method ResolveTokenInputs(ins: seq<OutPoint>) returns (r: seq<Carrier>)
      ensures r == Resolve(tokenUtxos, ins)
    {
      r := [];
      for k := 0 to |ins|
        invariant r == Resolve(tokenUtxos, ins[..k])
      {
        assert ins[..k + 1][..k] == ins[..k];
        if ins[k] in tokenUtxos {
          r := r + [tokenUtxos[ins[k]]];
        }
      }
      assert ins[..|ins|] == ins;
    }

    method BalanceOf(tokenId: string) returns (total: int)
      ensures total == Total(tokenUtxos, tokenId)
    {
      total := 0;
      var rest := tokenUtxos;
      while rest != map[]
        invariant total + Total(rest, tokenId) == Total(tokenUtxos, tokenId)
        decreases |rest|
      {
        var o :| o in rest.Keys;
        TotalRemove(rest, o, tokenId);
        if rest[o].tokenId == tokenId {
          total := total + rest[o].amountAtoms;
        }
        rest := rest - {o};
      }
    }
  }

  function Resolve(carriers: map<OutPoint, Carrier>, ins: seq<OutPoint>): seq<Carrier> {
    if ins == [] then []
    else
      var o := ins[|ins| - 1];
      Resolve(carriers, ins[..|ins| - 1]) + (if o in carriers then [carriers[o]] else [])
  }

  // ── Totals ───────────────────────────────────────────────────────────────

  function Share(c: Carrier, tokenId: string): int {
    if c.tokenId == tokenId then c.amountAtoms else 0
  }

  /** Atoms of one token over a set of carriers. */
  ghost function Total(carriers: map<OutPoint, Carrier>, tokenId: string): int
    decreases |carriers|
  {
    if carriers == map[] then 0
    else
      var o :| o in carriers.Keys;
      Share(carriers[o], tokenId) + Total(carriers - {o}, tokenId)
  }

  /** The total does not depend on the order carriers are counted in. */
  lemma {:induction false} TotalRemove(carriers: map<OutPoint, Carrier>, o: OutPoint, tokenId: string)
    requires o in carriers
    ensures Total(carriers, tokenId) == Share(carriers[o], tokenId) + Total(carriers - {o}, tokenId)
    decreases |carriers|
  {
    var first :| first in carriers.Keys
      && Total(carriers, tokenId) == Share(carriers[first], tokenId) + Total(carriers - {first}, tokenId);
    if first != o {
      TotalRemove(carriers - {first}, o, tokenId);
      TotalRemove(carriers - {o}, first, tokenId);
      assert carriers - {first} - {o} == carriers - {o} - {first};
    }
  }

  lemma TotalInsert(carriers: map<OutPoint, Carrier>, o: OutPoint, c: Carrier, tokenId: string)
    requires o !in carriers
    ensures Total(carriers[o := c], tokenId) == Total(carriers, tokenId) + Share(c, tokenId)
  {
    TotalRemove(carriers[o := c], o, tokenId);
    assert carriers[o := c] - {o} == carriers;
  }

  function Amounts(cs: seq<Carrier>): seq<int> {
    seq(|cs|, i requires 0 <= i < |cs| => cs[i].amountAtoms)
  }

  function Outpoints(cs: seq<Carrier>): seq<OutPoint> {
    seq(|cs|, i requires 0 <= i < |cs| => cs[i].outpoint)
  }
}
