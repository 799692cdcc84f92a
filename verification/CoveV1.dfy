/** The V1 ledger that the indexer folds: deploy, mint and transfer over account balances. */
module CoveV1 {
  import opened Wrappers
  import opened Constants

  datatype Token = Token(ticker: string, creator: string, supplyAtoms: int, stage: int)
  datatype Account = Account(owner: string, tokenId: string)

  /** `tokens` is keyed by deployment id, the txid of the deploy. */
  datatype State = State(
    tokens: map<string, Token>,
    tickerIndex: map<string, string>,
    balances: map<Account, int>,
    reserveSats: int,
    treasurySats: int)

  const EMPTY_STATE := State(map[], map[], map[], 0, 0)

  datatype Op =
    | Deploy(txid: string, actor: string, ticker: string)
    | Mint(txid: string, actor: string, recipient: Option<string>, ticker: string, amount: int, supplyBefore: int)
    | Transfer(txid: string, actor: string, recipient: Option<string>, ticker: string, amount: int)

  /** What the ledger takes from the curve and the transaction layout: the script templates,
      the curve price of a mint in display tokens, its fee, and the checks of the outputs
      against the sats due. */
  datatype Rules = Rules(
    supported: string -> bool,
    curveCost: (int, int) -> nat,
    fee: nat -> nat,
    outputs: (Op, nat) -> Option<string>,
    launchFeeSats: nat,
    minContributionSats: nat)

  predicate ValidTicker(ticker: string) {
    |ticker| == 4 && forall i :: 0 <= i < 4 ==> 'A' <= ticker[i] <= 'Z' || '0' <= ticker[i] <= '9'
  }

  function StageForSupply(tokens: int): int {
    if tokens >= PUBLIC_SUPPLY then STAGE_COUNT
    else if tokens / TOKENS_PER_STAGE + 1 <= STAGE_COUNT then tokens / TOKENS_PER_STAGE + 1 else STAGE_COUNT
  }

  function ResolveToken(s: State, ticker: string): Option<string> {
    if ticker != "" && ticker in s.tickerIndex && s.tickerIndex[ticker] in s.tokens
    then Some(s.tickerIndex[ticker]) else None
  }

  function Available(s: State, owner: string, tokenId: string): int {
    if Account(owner, tokenId) in s.balances then s.balances[Account(owner, tokenId)] else 0
  }

  function MintCost(rules: Rules, s: State, tokenId: string, amount: int): nat
    requires tokenId in s.tokens
  {
    rules.curveCost(s.tokens[tokenId].supplyAtoms / ATOMS_PER_TOKEN, amount / ATOMS_PER_TOKEN)
  }

  /** The reason an operation is refused, or None. */
  function Refusal(rules: Rules, s: State, op: Op): Option<string> {
    match op
    case Deploy(_, actor, ticker) =>
      if !ValidTicker(ticker) then Some("INVALID_TICKER")
      else if ticker in s.tickerIndex then Some("TICKER_TAKEN")
      else if !rules.supported(actor) then Some("UNSUPPORTED_ACTOR_SCRIPT")
      else rules.outputs(op, rules.launchFeeSats)
    case Mint(_, actor, recipient, ticker, amount, supplyBefore) =>
      (match ResolveToken(s, ticker)
       case None => Some("UNKNOWN_DEPLOYMENT")
       case Some(id) =>
         var supply := s.tokens[id].supplyAtoms;
         if supplyBefore != supply then Some("STALE_SUPPLY")
         else if amount <= 0 then Some("ZERO_AMOUNT")
         else if amount % ATOMS_PER_TOKEN != 0 then Some("SUBTOKEN_MINT_UNSUPPORTED")
         else if !rules.supported(actor) then Some("UNSUPPORTED_ACTOR_SCRIPT")
         else if recipient.None? || !rules.supported(recipient.value) then Some("INVALID_RECIPIENT")
         else if amount / ATOMS_PER_TOKEN > (PUBLIC_SUPPLY_ATOMS - supply) / ATOMS_PER_TOKEN then Some("OVERMINT")
         else
           var cost := MintCost(rules, s, id, amount);
           if cost < rules.minContributionSats then Some("BELOW_MIN_CONTRIBUTION")
           else rules.outputs(op, cost + rules.fee(cost)))
    case Transfer(_, actor, recipient, ticker, amount) =>
      (match ResolveToken(s, ticker)
       case None => Some("UNKNOWN_DEPLOYMENT")
       case Some(id) =>
         if amount <= 0 then Some("ZERO_AMOUNT")
         else if !rules.supported(actor) then Some("UNSUPPORTED_ACTOR_SCRIPT")
         else if recipient.None? || !rules.supported(recipient.value) then Some("INVALID_RECIPIENT")
         else if recipient.value == actor then Some("SELF_TRANSFER")
         else if Available(s, actor, id) < amount then Some("INSUFFICIENT_AVAILABLE_TOKENS")
         else rules.outputs(op, 0))
  }

  function Credit(balances: map<Account, int>, a: Account, amount: int): map<Account, int> {
    balances[a := (if a in balances then balances[a] else 0) + amount]
  }

  /** Zero balances are pruned, so equal holdings have one representation. */
  function Debit(balances: map<Account, int>, a: Account, amount: int): map<Account, int>
    requires a in balances
  {
    if balances[a] == amount then balances - {a} else balances[a := balances[a] - amount]
  }

  /** The state after an operation that was not refused. */
  function Apply(rules: Rules, s: State, op: Op): State
    requires Refusal(rules, s, op).None?
  {
    match op
    case Deploy(txid, actor, ticker) =>
      s.(tokens := s.tokens[txid := Token(ticker, actor, 0, 1)],
         tickerIndex := s.tickerIndex[ticker := txid],
         treasurySats := s.treasurySats + rules.launchFeeSats)
    case Mint(_, _, recipient, ticker, amount, _) =>
      var id := ResolveToken(s, ticker).value;
      var cost := MintCost(rules, s, id, amount);
      var supply := s.tokens[id].supplyAtoms + amount;
      s.(tokens := s.tokens[id := s.tokens[id].(supplyAtoms := supply,
                                                stage := StageForSupply(supply / ATOMS_PER_TOKEN))],
         balances := Credit(s.balances, Account(recipient.value, id), amount),
         reserveSats := s.reserveSats + cost,
         treasurySats := s.treasurySats + rules.fee(cost))
    case Transfer(_, actor, recipient, ticker, amount) =>
      var id := ResolveToken(s, ticker).value;
      s.(balances := Credit(Debit(s.balances, Account(actor, id), amount), Account(recipient.value, id), amount))
  }

  // ── Sums over the balance table ──────────────────────────────────────────

  ghost function Held(balances: map<Account, int>, tokenId: string): int
    decreases |balances|
  {
    if balances == map[] then 0
    else
      var a :| a in balances;
      (if a.tokenId == tokenId then balances[a] else 0) + Held(balances - {a}, tokenId)
  }

  /** The sum does not depend on the order the rows are visited in. */
  lemma {:induction false} HeldRemove(balances: map<Account, int>, a: Account, tokenId: string)
    requires a in balances
    ensures Held(balances, tokenId)
            == (if a.tokenId == tokenId then balances[a] else 0) + Held(balances - {a}, tokenId)
    decreases |balances|
  {
    var b :| b in balances && Held(balances, tokenId)
                              == (if b.tokenId == tokenId then balances[b] else 0) + Held(balances - {b}, tokenId);
    if a != b {
      HeldRemove(balances - {b}, a, tokenId);
      HeldRemove(balances - {a}, b, tokenId);
      assert balances - {a} - {b} == balances - {b} - {a};
    }
  }

  lemma HeldPut(balances: map<Account, int>, a: Account, x: int, tokenId: string)
    ensures Held(balances[a := x], tokenId)
            == Held(balances, tokenId)
               + (if a.tokenId == tokenId then x - (if a in balances then balances[a] else 0) else 0)
  {
    var after := balances[a := x];
    HeldRemove(after, a, tokenId);
    if a in balances {
      HeldRemove(balances, a, tokenId);
      assert after - {a} == balances - {a};
    } else {
      assert after - {a} == balances;
    }
  }

  lemma {:induction false} HeldByNobody(balances: map<Account, int>, tokenId: string)
    requires forall a :: a in balances ==> a.tokenId != tokenId
    ensures Held(balances, tokenId) == 0
    decreases |balances|
  {
    if balances != map[] {
      var a :| a in balances;
      HeldRemove(balances, a, tokenId);
      HeldByNobody(balances - {a}, tokenId);
    }
  }

  // ── What the indexer asserts after every block ───────────────────────────

  /** One token passes the per-block assertion. */
  ghost predicate TokenConserved(s: State, id: string)
    requires id in s.tokens
  {
    && 0 <= s.tokens[id].supplyAtoms <= PUBLIC_SUPPLY_ATOMS
    && s.tokens[id].ticker in s.tickerIndex && s.tickerIndex[s.tokens[id].ticker] == id
    && (forall a :: a in s.balances && a.tokenId == id ==> 0 <= s.balances[a])
    && Held(s.balances, id) == s.tokens[id].supplyAtoms
  }

  ghost predicate Conserved(s: State) {
    forall id :: id in s.tokens ==> TokenConserved(s, id)
  }

  /** The nested loops of the assertion: any failing token makes it throw. */
  method AssertCoveInvariants(s: State) returns (holds: bool)
    ensures holds <==> Conserved(s)
  {
    var ids := s.tokens.Keys;
    while ids != {}
      invariant ids <= s.tokens.Keys
      invariant forall id :: id in s.tokens && id !in ids ==> TokenConserved(s, id)
    {
      var id :| id in ids;
      var token := s.tokens[id];
      if token.supplyAtoms < 0 || token.supplyAtoms > PUBLIC_SUPPLY_ATOMS {
        return false;
      }
      if token.ticker !in s.tickerIndex || s.tickerIndex[token.ticker] != id {
        return false;
      }
      var sum, left := 0, s.balances;
      while left != map[]
        invariant left.Keys <= s.balances.Keys && forall a :: a in left ==> left[a] == s.balances[a]
        invariant forall a :: a in s.balances && a !in left && a.tokenId == id ==> 0 <= s.balances[a]
        invariant sum + Held(left, id) == Held(s.balances, id)
        decreases |left|
      {
        var a :| a in left;
        if a.tokenId == id {
          if left[a] < 0 {
            return false;
          }
          sum := sum + left[a];
        }
        HeldRemove(left, a, id);
        assert |(left - {a}).Keys| == |left.Keys - {a}|;
        left := left - {a};
      }
      if sum != token.supplyAtoms {
        return false;
      }
      ids := ids - {id};
    }
    holds := true;
  }

  // ── Every operation keeps the assertion true ─────────────────────────────

  /** Conservation, together with what it rests on: every ticker and every balance belongs to
      a deployed token, no zero balance is stored, and every deployment id is a processed txid. */
  ghost predicate Sound(s: State, seen: set<string>) {
    && Conserved(s)
    && (forall t :: t in s.tickerIndex ==> s.tickerIndex[t] in s.tokens && s.tokens[s.tickerIndex[t]].ticker == t)
    && (forall a :: a in s.balances ==> a.tokenId in s.tokens && 0 < s.balances[a])
    && s.tokens.Keys <= seen
  }

  lemma DeployKeeps(rules: Rules, s: State, op: Op, seen: set<string>)
    requires op.Deploy? && Refusal(rules, s, op).None? && Sound(s, seen) && op.txid !in seen
    ensures Sound(Apply(rules, s, op), seen + {op.txid})
  {
    var after := Apply(rules, s, op);
    HeldByNobody(s.balances, op.txid);
    forall id | id in after.tokens
      ensures TokenConserved(after, id)
    {
      if id != op.txid {
        assert TokenConserved(s, id);
      }
    }
  }

  lemma MintConserves(rules: Rules, s: State, op: Op, k: string)
    requires op.Mint? && Refusal(rules, s, op).None?
    requires k in s.tokens && TokenConserved(s, k)
    ensures TokenConserved(Apply(rules, s, op), k)
  {
    hide Held, StageForSupply;
    var after := Apply(rules, s, op);
    var a := Account(op.recipient.value, ResolveToken(s, op.ticker).value);
    HeldPut(s.balances, a, after.balances[a], k);
  }

  lemma MintKeeps(rules: Rules, s: State, op: Op, seen: set<string>)
    requires op.Mint? && Refusal(rules, s, op).None? && Sound(s, seen)
    ensures Sound(Apply(rules, s, op), seen)
  {
    hide Held, TokenConserved, StageForSupply;
    var after := Apply(rules, s, op);
    assert after.tokens.Keys == s.tokens.Keys;
    forall k | k in after.tokens
      ensures TokenConserved(after, k)
    {
      MintConserves(rules, s, op, k);
    }
  }

  lemma DebitHeld(balances: map<Account, int>, a: Account, amount: int, tokenId: string)
    requires a in balances
    ensures Held(Debit(balances, a, amount), tokenId)
            == Held(balances, tokenId) - (if a.tokenId == tokenId then amount else 0)
  {
    if balances[a] == amount {
      HeldRemove(balances, a, tokenId);
    } else {
      HeldPut(balances, a, balances[a] - amount, tokenId);
    }
  }

  lemma TransferConserves(rules: Rules, s: State, op: Op, k: string)
    requires op.Transfer? && Refusal(rules, s, op).None?
    requires k in s.tokens && TokenConserved(s, k)
    ensures TokenConserved(Apply(rules, s, op), k)
  {
    hide Held;
    var after := Apply(rules, s, op);
    var id := ResolveToken(s, op.ticker).value;
    var from, to := Account(op.actor, id), Account(op.recipient.value, id);
    DebitHeld(s.balances, from, op.amount, k);
    HeldPut(Debit(s.balances, from, op.amount), to, after.balances[to], k);
  }

  lemma TransferKeeps(rules: Rules, s: State, op: Op, seen: set<string>)
    requires op.Transfer? && Refusal(rules, s, op).None? && Sound(s, seen)
    ensures Sound(Apply(rules, s, op), seen)
  {
    hide Held, TokenConserved;
    var after := Apply(rules, s, op);
    forall k | k in after.tokens
      ensures TokenConserved(after, k)
    {
      TransferConserves(rules, s, op, k);
    }
  }

  /** A step keeps the ledger sound, and never changes the ticker or creator of a token it
      already had: only the replay guard keeps a second deploy from reusing an id. */
  lemma ApplyKeeps(rules: Rules, s: State, op: Op, seen: set<string>)
    requires Refusal(rules, s, op).None? && Sound(s, seen) && op.txid !in seen
    ensures var after := Apply(rules, s, op);
            && Sound(after, seen + {op.txid})
            && IdentitiesKept(s, after)
  {
    match op
    case Deploy(_, _, _) => DeployKeeps(rules, s, op, seen);
    case Mint(_, _, _, _, _, _) => MintKeeps(rules, s, op, seen);
    case Transfer(_, _, _, _, _) => TransferKeeps(rules, s, op, seen);
  }

  /** Tokens are never dropped and keep their ticker and creator. */
  ghost predicate IdentitiesKept(before: State, after: State) {
    forall id :: id in before.tokens ==>
      && id in after.tokens
      && after.tokens[id].ticker == before.tokens[id].ticker
      && after.tokens[id].creator == before.tokens[id].creator
  }
}
