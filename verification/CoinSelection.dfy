/** Funding a build: largest coins first, skipping coins that hold assets, with a fee
    that depends on how many coins are picked. */
module CoinSelection {
  import opened Wrappers
  import opened Rounding
  import opened Sorting
  import opened FeeRates

  datatype Coin = Coin(txid: string, vout: nat, valueSats: nat, script: string, confirmations: int)

  /** What the ordinals indexer says of a coin. */
  datatype Held = Clean | Holds | Unavailable

  datatype Request = Request(
    op: Operation, shape: Shape, targetSats: int, policy: FeePolicy, walletScript: string,
    isTokenCarrier: Coin -> bool, assetsAt: Coin -> Held)

  datatype Error =
    | FundingInputInvalid
    | FundingInputIsToken
    | FundingCheckUnavailable
    | Miner(fee: FeeError)
    | InsufficientBtc

  datatype Selection = Selection(inputs: seq<Coin>, fee: MinerFee)

  function PriceAt(r: Request, fundingInputs: nat): Result<MinerFee, FeeError> {
    ResolveMinerFee(r.policy, Vsize(r.op, r.shape, fundingInputs))
  }

  /** A vault transition may only be funded by confirmed coins. */
  predicate Usable(r: Request, c: Coin) {
    (r.op == BackingBuy || r.op == Redeem) ==> c.confirmations >= 1
  }

  function UsableOf(r: Request, coins: seq<Coin>): seq<Coin> {
    if coins == [] then []
    else
      var rest := UsableOf(r, coins[..|coins| - 1]);
      if Usable(r, coins[|coins| - 1]) then rest + [coins[|coins| - 1]] else rest
  }

  /** Larger value first, then txid, then output index. */
  predicate Before(a: Coin, b: Coin) {
    if a.valueSats != b.valueSats then a.valueSats > b.valueSats
    else if a.txid != b.txid then LexLe(a.txid, b.txid)
    else a.vout <= b.vout
  }

  /** Dearer coins come first, then smaller txids, then smaller output indices. */
  lemma BeforeIs(a: Coin, b: Coin)
    ensures a.valueSats > b.valueSats ==> Before(a, b) && !Before(b, a)
    ensures a.valueSats == b.valueSats && a.txid != b.txid ==> (Before(a, b) <==> LexLe(a.txid, b.txid))
    ensures a.valueSats == b.valueSats && a.txid == b.txid ==> (Before(a, b) <==> a.vout <= b.vout)
  {
  }

  lemma BeforePreorder()
    ensures Preorder(Before)
  {
    LexPreorder();
    forall a: Coin, b: Coin
      ensures Before(a, b) || Before(b, a)
    {
      LexTotal(a.txid, b.txid);
    }
    forall a: Coin, b: Coin, c: Coin | Before(a, b) && Before(b, c)
      ensures Before(a, c)
    {
      if LexLe(a.txid, b.txid) && LexLe(b.txid, c.txid) {
        LexTransitive(a.txid, b.txid, c.txid);
      }
      LexTotal(a.txid, b.txid);
      LexTotal(b.txid, c.txid);
    }
  }

  /** One coin per outpoint. */
  predicate DistinctOutpoints(coins: seq<Coin>) {
    forall a, b :: a in coins && b in coins && a.txid == b.txid && a.vout == b.vout ==> a == b
  }

  /** The order the candidates are offered in does not change the order they are tried in. */
  lemma PickOrderIsDeterministic(xs: seq<Coin>, ys: seq<Coin>)
    requires multiset(xs) == multiset(ys) && DistinctOutpoints(xs)
    ensures Sort(xs, Before) == Sort(ys, Before)
  {
    BeforePreorder();
    forall a, b | a in xs && b in xs && Before(a, b) && Before(b, a)
      ensures a == b
    {
      LexTotal(a.txid, b.txid);
    }
    SortIgnoresOrder(xs, ys, Before);
  }

  function SumSats(coins: seq<Coin>): nat {
    if coins == [] then 0 else SumSats(coins[..|coins| - 1]) + coins[|coins| - 1].valueSats
  }

  predicate AllClean(r: Request, coins: seq<Coin>) {
    forall c :: c in coins ==> r.assetsAt(c) == Clean
  }

  /** A subset of the usable coins that holds no assets. */
  predicate AssetFree(r: Request, usable: seq<Coin>, s: seq<Coin>) {
    multiset(s) <= multiset(usable) && AllClean(r, s)
  }

  /** These coins cover the target and the fee of a transaction with exactly that many of them. */
  predicate Pays(r: Request, s: seq<Coin>) {
    PriceAt(r, |s|).Ok? && SumSats(s) >= r.targetSats + PriceAt(r, |s|).value.sats
  }

  // ── Largest-first is optimal ─────────────────────────────────────────────

  lemma {:induction false} SumSplit(a: seq<Coin>, b: seq<Coin>)
    ensures SumSats(a + b) == SumSats(a) + SumSats(b)
    decreases |b|
  {
    if b == [] {
      assert a + b == a;
    } else {
      var init := b[..|b| - 1];
      SumSplit(a, init);
      assert (a + b)[..|a + b| - 1] == a + init;
    }
  }

  lemma SumOne(c: Coin)
    ensures SumSats([c]) == c.valueSats
  {
    assert [c][..0] == [];
  }

  function RemoveAt<T>(s: seq<T>, i: nat): seq<T>
    requires i < |s|
  {
    s[..i] + s[i + 1..]
  }

  lemma SumRemove(s: seq<Coin>, i: nat)
    requires i < |s|
    ensures SumSats(s) == s[i].valueSats + SumSats(RemoveAt(s, i))
  {
    hide SumSats;
    SumSplit(s[..i], [s[i]]);
    SumSplit(s[..i] + [s[i]], s[i + 1..]);
    SumOne(s[i]);
    SumSplit(s[..i], s[i + 1..]);
    assert s == s[..i] + [s[i]] + s[i + 1..];
  }

  lemma RemoveMultiset<T>(s: seq<T>, i: nat)
    requires i < |s|
    ensures multiset(RemoveAt(s, i)) == multiset(s) - multiset{s[i]}
  {
    assert s == s[..i] + ([s[i]] + s[i + 1..]);
    assert multiset(s) == multiset(s[..i]) + (multiset{s[i]} + multiset(s[i + 1..]));
  }

  /** Any k coins out of a largest-first list are worth at most its first k. */
  lemma {:induction false} TopIsMost(l: seq<Coin>, s: seq<Coin>)
    requires Sorted(l, Before) && multiset(s) <= multiset(l)
    ensures |s| <= |l| && SumSats(s) <= SumSats(l[..|s|])
    decreases |s|
  {
    hide SumSats, Before;
    SubsetSize(multiset(s), multiset(l));
    if s == [] {
      assert l[..0] == s;
    } else {
      var i := DropOne(l, s);
      TopIsMost(l[1..], RemoveAt(s, i));
      SumRemove(s, i);
      HeadIsLargest(l, s[i]);
      assert l[..|s|] == [l[0]] + l[1..][..|s| - 1];
      SumSplit([l[0]], l[1..][..|s| - 1]);
      SumOne(l[0]);
    }
  }

  /** Take the largest coin out of the subset if it is there, or any coin if it is not:
      the rest is a subset of the rest. */
  lemma DropOne(l: seq<Coin>, s: seq<Coin>) returns (i: nat)
    requires multiset(s) <= multiset(l) && s != []
    ensures l != [] && i < |s| && s[i] in multiset(l)
    ensures multiset(RemoveAt(s, i)) <= multiset(l[1..])
  {
    assert s[0] in multiset(s);
    i := if l[0] in s then IndexOf(s, l[0]) else 0;
    assert s[i] in multiset(s);
    RemoveMultiset(s, i);
    MultisetTail(l);
    var t := RemoveAt(s, i);
    forall c
      ensures multiset(t)[c] <= multiset(l[1..])[c]
    {
      assert multiset(s)[c] <= multiset(l)[c];
      if c == l[0] && l[0] !in s {
        assert c !in multiset(s);
      }
    }
  }

  lemma SubsetSize<T>(a: multiset<T>, b: multiset<T>)
    requires a <= b
    ensures |a| <= |b|
  {
    assert b == a + (b - a);
  }

  ghost function IndexOf<T>(s: seq<T>, x: T): (i: nat)
    requires x in s
    ensures i < |s| && s[i] == x
  {
    var i :| 0 <= i < |s| && s[i] == x;
    i
  }

  lemma HeadIsLargest(l: seq<Coin>, c: Coin)
    requires Sorted(l, Before) && c in multiset(l)
    ensures l[0].valueSats >= c.valueSats
  {
    var k :| 0 <= k < |l| && l[k] == c;
    if k > 0 {
      assert Before(l[0], l[k]);
    }
  }

  // ── The picking loop ─────────────────────────────────────────────────────

  /** What has been ruled out: coins dropped from `left` all hold assets. */
  ghost predicate OnlyHoldersDropped(r: Request, usable: seq<Coin>, left: seq<Coin>) {
    forall c :: r.assetsAt(c) == Clean ==> multiset(left)[c] == multiset(usable)[c]
  }

  lemma AssetFreeSurvives(r: Request, usable: seq<Coin>, left: seq<Coin>, s: seq<Coin>)
    requires OnlyHoldersDropped(r, usable, left) && AssetFree(r, usable, s)
    ensures multiset(s) <= multiset(left)
  {
    forall c
      ensures multiset(s)[c] <= multiset(left)[c]
    {
      if c in multiset(s) {
        assert c in s;
      }
    }
  }

  /** When no prefix up to `k` pays, no asset-free subset of at most `k` coins pays. */
  lemma ShortSubsetsFail(r: Request, usable: seq<Coin>, left: seq<Coin>, k: nat, s: seq<Coin>)
    requires OnlyHoldersDropped(r, usable, left) && Sorted(left, Before) && AssetFree(r, usable, s)
    requires |s| <= k
    requires forall m :: 0 <= m <= k && m <= |left| ==> !Pays(r, left[..m])
    ensures !Pays(r, s)
  {
    AssetFreeSurvives(r, usable, left, s);
    TopIsMost(left, s);
  }

  lemma VsizeMono(r: Request, a: nat, b: nat)
    requires a <= b
    ensures 1 <= Vsize(r.op, r.shape, a) <= Vsize(r.op, r.shape, b)
  {
    Mono(a, b, InputVbytes(r.shape.fundingKind));
  }

  /** A price refused part-way can never be paid with more coins either. */
  lemma RefusedMidway(r: Request, v: nat, w: nat)
    requires r.policy.floor >= 1 && v <= w
    requires PriceAt(r, 0).Ok? && PriceAt(r, v).Err?
    ensures PriceAt(r, w).Err?
  {
    VsizeMono(r, 0, v);
    VsizeMono(r, v, w);
    RefusalPersists(r.policy, Vsize(r.op, r.shape, 0), Vsize(r.op, r.shape, v), Vsize(r.op, r.shape, w));
  }

  /** The answer is optimal over all asset-free subsets of the usable coins. */
  ghost predicate Optimal(r: Request, usable: seq<Coin>, res: Result<Selection, Error>) {
    match res
    case Ok(sel) =>
      && PriceAt(r, 0).Ok?
      && AssetFree(r, usable, sel.inputs)
      && Pays(r, sel.inputs) && sel.fee == PriceAt(r, |sel.inputs|).value
      && (forall s :: AssetFree(r, usable, s) && Pays(r, s) ==> |s| >= |sel.inputs|)
    case Err(InsufficientBtc) =>
      forall s :: AssetFree(r, usable, s) ==> !Pays(r, s)
    case Err(Miner(_)) =>
      PriceAt(r, 0).Ok? ==> forall s :: AssetFree(r, usable, s) ==> !Pays(r, s)
    case Err(FundingCheckUnavailable) => exists c :: c in usable && r.assetsAt(c) == Unavailable
    case Err(_) => false
  }

  /** The selection is in order, and every asset-free coin left behind comes after all of it. */
  ghost predicate LargestFirst(r: Request, usable: seq<Coin>, s: seq<Coin>) {
    && Sorted(s, Before)
    && forall c, k :: c in multiset(usable) - multiset(s) && r.assetsAt(c) == Clean && 0 <= k < |s| ==> Before(s[k], c)
  }

  lemma PrefixIsLargestFirst(r: Request, usable: seq<Coin>, sorted: seq<Coin>, n: nat)
    requires Sorted(sorted, Before) && OnlyHoldersDropped(r, usable, sorted) && n <= |sorted|
    ensures LargestFirst(r, usable, sorted[..n])
  {
    hide Before;
    assert sorted == sorted[..n] + sorted[n..];
    forall c, k | c in multiset(usable) - multiset(sorted[..n]) && r.assetsAt(c) == Clean && 0 <= k < n
      ensures Before(sorted[..n][k], c)
    {
      assert multiset(sorted)[c] == multiset(usable)[c];
      assert c in multiset(sorted[n..]);
      var j :| n <= j < |sorted| && sorted[j] == c;
      assert Before(sorted[k], sorted[j]);
    }
  }

  /** Ask about the picked coins in order; the first that is not clean decides. */
  method FirstNotClean(r: Request, chosen: seq<Coin>) returns (i: nat)
    ensures i <= |chosen|
    ensures forall k :: 0 <= k < i ==> r.assetsAt(chosen[k]) == Clean
    ensures i < |chosen| ==> r.assetsAt(chosen[i]) != Clean
  {
    i := 0;
    while i < |chosen| && r.assetsAt(chosen[i]) == Clean
      invariant i <= |chosen|
      invariant forall k :: 0 <= k < i ==> r.assetsAt(chosen[k]) == Clean
    {
      i := i + 1;
    }
  }

  /** Grow the prefix until it pays. */
  method GrowPrefix(r: Request, sorted: seq<Coin>) returns (n: nat, refused: Option<FeeError>)
    requires !Pays(r, [])
    ensures refused.None? ==> n <= |sorted| + 1 && (n <= |sorted| ==> n > 0 && Pays(r, sorted[..n]))
    ensures refused.None? ==> forall m :: 0 <= m < n && m <= |sorted| ==>
            !Pays(r, sorted[..m]) && (m > 0 ==> PriceAt(r, m).Ok?)
    ensures refused.Some? ==> 0 < n <= |sorted| && PriceAt(r, n) == Err(refused.value)
    ensures refused.Some? ==> forall m :: 0 <= m < n ==> !Pays(r, sorted[..m])
  {
    hide PriceAt;
    var sum := 0;
    assert sorted[..0] == [];
    for k := 0 to |sorted|
      invariant sum == SumSats(sorted[..k])
      invariant forall m :: 0 <= m <= k ==> !Pays(r, sorted[..m]) && (m > 0 ==> PriceAt(r, m).Ok?)
    {
      assert sorted[..k + 1][..k] == sorted[..k];
      sum := sum + sorted[k].valueSats;
      var priced := PriceAt(r, k + 1);
      if priced.Err? {
        return k + 1, Some(priced.error);
      }
      if sum >= r.targetSats + priced.value.sats {
        return k + 1, None;
      }
    }
    n, refused := |sorted| + 1, None;
  }

  lemma MidwayRefusal(r: Request, usable: seq<Coin>, sorted: seq<Coin>, n: nat)
    requires r.policy.floor >= 1 && PriceAt(r, 0).Ok?
    requires Sorted(sorted, Before) && OnlyHoldersDropped(r, usable, sorted)
    requires 0 < n <= |sorted| && PriceAt(r, n).Err?
    requires forall m :: 0 <= m < n ==> !Pays(r, sorted[..m])
    ensures forall s :: AssetFree(r, usable, s) ==> !Pays(r, s)
  {
    hide PriceAt, OnlyHoldersDropped, AssetFree;
    forall s | AssetFree(r, usable, s)
      ensures !Pays(r, s)
    {
      if |s| < n {
        ShortSubsetsFail(r, usable, sorted, n - 1, s);
      } else {
        RefusedMidway(r, n, |s|);
      }
    }
  }

  lemma NoPrefixPays(r: Request, usable: seq<Coin>, sorted: seq<Coin>)
    requires Sorted(sorted, Before) && OnlyHoldersDropped(r, usable, sorted)
    requires forall m :: 0 <= m <= |sorted| ==> !Pays(r, sorted[..m])
    ensures forall s :: AssetFree(r, usable, s) ==> !Pays(r, s)
  {
    hide PriceAt, OnlyHoldersDropped, AssetFree;
    forall s | AssetFree(r, usable, s)
      ensures !Pays(r, s)
    {
      AssetFreeSurvives(r, usable, sorted, s);
      TopIsMost(sorted, s);
    }
  }

  lemma ShortestPrefixIsOptimal(r: Request, usable: seq<Coin>, sorted: seq<Coin>, n: nat)
    requires Sorted(sorted, Before) && OnlyHoldersDropped(r, usable, sorted)
    requires multiset(sorted) <= multiset(usable) && PriceAt(r, 0).Ok?
    requires 0 < n <= |sorted| && Pays(r, sorted[..n])
    requires forall m :: 0 <= m < n ==> !Pays(r, sorted[..m])
    requires forall k :: 0 <= k < n ==> r.assetsAt(sorted[k]) == Clean
    ensures Optimal(r, usable, Ok(Selection(sorted[..n], PriceAt(r, n).value)))
  {
    hide PriceAt, OnlyHoldersDropped;
    assert sorted == sorted[..n] + sorted[n..];
    assert multiset(sorted[..n]) <= multiset(sorted);
    forall s | AssetFree(r, usable, s) && Pays(r, s)
      ensures |s| >= n
    {
      if |s| < n {
        ShortSubsetsFail(r, usable, sorted, n - 1, s);
      }
    }
  }

  /** Dropping a coin that holds assets keeps every asset-free subset available. */
  lemma DropHolder(r: Request, usable: seq<Coin>, sorted: seq<Coin>, i: nat)
    requires i < |sorted| && r.assetsAt(sorted[i]) != Clean
    requires Sorted(sorted, Before) && OnlyHoldersDropped(r, usable, sorted)
    requires multiset(sorted) <= multiset(usable)
    ensures Sorted(RemoveAt(sorted, i), Before) && OnlyHoldersDropped(r, usable, RemoveAt(sorted, i))
    ensures multiset(RemoveAt(sorted, i)) <= multiset(usable)
  {
    RemoveMultiset(sorted, i);
    RemoveSorted(sorted, i);
  }

  /** The restart loop: pick, ask about the picked coins, drop a holder and pick again. */
  method Pick(r: Request, usable: seq<Coin>, sorted0: seq<Coin>) returns (res: Result<Selection, Error>)
    requires r.policy.floor >= 1
    requires Sorted(sorted0, Before) && multiset(sorted0) == multiset(usable)
    requires PriceAt(r, 0).Ok? && r.targetSats + PriceAt(r, 0).value.sats > 0
    ensures Optimal(r, usable, res)
    ensures res.Ok? ==> LargestFirst(r, usable, res.value.inputs)
  {
    hide OnlyHoldersDropped, AssetFree, LargestFirst;
    var sorted := sorted0;
    assert OnlyHoldersDropped(r, usable, sorted) by { NothingDropped(r, usable, sorted); }
    assert !Pays(r, []);
    hide PriceAt, Pays;
    while true
      invariant Sorted(sorted, Before)
      invariant OnlyHoldersDropped(r, usable, sorted)
      invariant multiset(sorted) <= multiset(usable)
      decreases |sorted|
    {
      var n, refused := GrowPrefix(r, sorted);
      if refused.Some? {
        MidwayRefusal(r, usable, sorted, n);
        return Err(Miner(refused.value));
      }
      if n > |sorted| {
        NoPrefixPays(r, usable, sorted);
        var shortfall := PriceAt(r, if |sorted| == 0 then 1 else |sorted|);
        return if shortfall.Err? then Err(Miner(shortfall.error)) else Err(InsufficientBtc);
      }
      var i := FirstNotClean(r, sorted[..n]);
      if i == n {
        ShortestPrefixIsOptimal(r, usable, sorted, n);
        PrefixIsLargestFirst(r, usable, sorted, n);
        return Ok(Selection(sorted[..n], PriceAt(r, n).value));
      }
      if r.assetsAt(sorted[i]) == Unavailable {
        assert sorted[i] in multiset(sorted);
        assert sorted[i] in usable;
        return Err(FundingCheckUnavailable);
      }
      DropHolder(r, usable, sorted, i);
      sorted := RemoveAt(sorted, i);
    }
  }

  lemma NothingDropped(r: Request, usable: seq<Coin>, sorted: seq<Coin>)
    requires multiset(sorted) == multiset(usable)
    ensures OnlyHoldersDropped(r, usable, sorted)
  {
  }

  lemma RemoveSorted(s: seq<Coin>, i: nat)
    requires i < |s| && Sorted(s, Before)
    ensures Sorted(RemoveAt(s, i), Before)
  {
    var t := RemoveAt(s, i);
    forall a, b | 0 <= a < b < |t|
      ensures Before(t[a], t[b])
    {
      var a', b' := if a < i then a else a + 1, if b < i then b else b + 1;
      assert t[a] == s[a'] && t[b] == s[b'];
    }
  }

  lemma {:induction false} UsableIsFilter(r: Request, coins: seq<Coin>)
    ensures forall c :: multiset(UsableOf(r, coins))[c] == if Usable(r, c) then multiset(coins)[c] else 0
    decreases |coins|
  {
    if coins != [] {
      UsableIsFilter(r, coins[..|coins| - 1]);
      assert coins == coins[..|coins| - 1] + [coins[|coins| - 1]];
    }
  }

  /** How a request over these candidates may be answered once none of them is refused up front. */
  ghost predicate Answers(r: Request, candidates: seq<Coin>, res: Result<Selection, Error>) {
    && r.policy.floor >= 1
    && (forall c :: c in candidates ==> c.script == r.walletScript && !r.isTokenCarrier(c))
    && Optimal(r, UsableOf(r, candidates), res)
  }

  /** A coin may fund a build exactly when it is confirmed or the build moves no vault. */
  lemma UsableExactly(r: Request, candidates: seq<Coin>, c: Coin)
    ensures c in UsableOf(r, candidates) <==>
              c in candidates && (c.confirmations >= 1 || r.op == Deploy || r.op == Transfer)
  {
    UsableIsFilter(r, candidates);
    assert c in UsableOf(r, candidates) <==> c in multiset(UsableOf(r, candidates));
    assert c in candidates <==> c in multiset(candidates);
  }

  /** An answer pays the target and the fee of a transaction of its own size: the rate times that size or the
      explicit amount. Fewer asset-free coins do not pay theirs. */
  lemma AnswerIsFunded(r: Request, candidates: seq<Coin>, res: Result<Selection, Error>, s: seq<Coin>)
    requires res.Ok? && Answers(r, candidates, res)
    ensures var sel := res.value;
            var vsize := Vsize(r.op, r.shape, |sel.inputs|);
            && sel.fee.vsize == vsize
            && sel.fee.sats == (match r.policy.choice case Rate(rate) => rate * vsize case Explicit(sats) => sats)
            && SumSats(sel.inputs) >= r.targetSats + sel.fee.sats && sel.fee.sats <= r.policy.maxMinerFeeSats
            && (AssetFree(r, UsableOf(r, candidates), s) && |s| < |sel.inputs| && PriceAt(r, |s|).Ok? ==>
                  SumSats(s) < r.targetSats + PriceAt(r, |s|).value.sats)
  {
    hide SumSats, BaseVsize, UsableOf, AssetFree;
    assert Vsize(r.op, r.shape, |res.value.inputs|) >= 1 by { SizeIsPositive(r, |res.value.inputs|); }
    ResolvesExactly(r.policy, Vsize(r.op, r.shape, |res.value.inputs|));
  }

  lemma SizeIsPositive(r: Request, n: nat)
    ensures Vsize(r.op, r.shape, n) >= 1
  {
    var fixed := BaseVsize(r.op, r.shape);
    assert n * InputVbytes(r.shape.fundingKind) >= 0;
  }

  /** Funding a build. Apart from the up-front refusals of foreign coins and token
      carriers, the answer is optimal over all asset-free subsets of the usable coins. */
  method ResolveFundingAndFee(r: Request, candidates: seq<Coin>) returns (res: Result<Selection, Error>)
    requires r.policy.floor >= 1
    ensures res == Err(FundingInputInvalid) <==> exists c :: c in candidates && c.script != r.walletScript
    ensures res == Err(FundingInputIsToken) <==>
              && (forall c :: c in candidates ==> c.script == r.walletScript)
              && exists c :: c in candidates && r.isTokenCarrier(c)
    ensures (forall c :: c in candidates ==> c.script == r.walletScript && !r.isTokenCarrier(c)) ==>
              Optimal(r, UsableOf(r, candidates), res)
    ensures res.Ok? ==> Answers(r, candidates, res) && LargestFirst(r, UsableOf(r, candidates), res.value.inputs)
  {
    for k := 0 to |candidates|
      invariant forall i :: 0 <= i < k ==> candidates[i].script == r.walletScript
    {
      if candidates[k].script != r.walletScript {
        return Err(FundingInputInvalid);
      }
    }
    for k := 0 to |candidates|
      invariant forall i :: 0 <= i < k ==> !r.isTokenCarrier(candidates[i])
    {
      if r.isTokenCarrier(candidates[k]) {
        return Err(FundingInputIsToken);
      }
    }
    var usable := UsableOf(r, candidates);
    var noFunding := PriceAt(r, 0);
    if noFunding.Err? {
      return Err(Miner(noFunding.error));
    }
    if r.targetSats + noFunding.value.sats <= 0 {
      assert Sorted([], Before);
      return Ok(Selection([], noFunding.value));
    }
    BeforePreorder();
    SortKeeps(usable, Before);
    SortSorts(usable, Before);
    res := Pick(r, usable, Sort(usable, Before));
  }

  // ── Repeated candidates ──────────────────────────────────────────────────

  predicate SameOutpoint(a: Coin, b: Coin) {
    a.txid == b.txid && a.vout == b.vout
  }

  /** No outpoint is listed twice. */
  predicate NoRepeats(coins: seq<Coin>) {
    forall i, j :: 0 <= i < j < |coins| ==> !SameOutpoint(coins[i], coins[j])
  }

  /** Another element, or another copy of this one, sits at another place. */
  lemma AnotherPlace<T>(xs: seq<T>, a: nat, x: T) returns (b: nat)
    requires a < |xs| && x in multiset(xs) - multiset{xs[a]}
    ensures b < |xs| && b != a && xs[b] == x
  {
    RemoveMultiset(xs, a);
    var rest := RemoveAt(xs, a);
    assert x in multiset(rest);
    var k :| 0 <= k < |rest| && rest[k] == x;
    b := if k < a then k else k + 1;
  }

  lemma RemainsAfter<T>(xs: seq<T>, i: nat, j: nat)
    requires i < j < |xs|
    ensures xs[j] in multiset(xs) - multiset{xs[i]}
  {
    RemoveMultiset(xs, i);
    assert RemoveAt(xs, i)[j - 1] == xs[j];
  }

  /** Two places of a selection come from two places of the list it was made from. */
  lemma TwoPlaces(coins: seq<Coin>, s: seq<Coin>, i: nat, j: nat) returns (a: nat, b: nat)
    requires multiset(s) <= multiset(coins) && i < j < |s|
    ensures a < |coins| && b < |coins| && a != b && coins[a] == s[i] && coins[b] == s[j]
  {
    hide RemoveAt;
    assert s[i] in multiset(coins);
    a :| 0 <= a < |coins| && coins[a] == s[i];
    RemainsAfter(s, i, j);
    b := AnotherPlace(coins, a, s[j]);
  }

  lemma SelectedFromCandidates(r: Request, candidates: seq<Coin>, s: seq<Coin>)
    requires AssetFree(r, UsableOf(r, candidates), s)
    ensures multiset(s) <= multiset(candidates)
  {
    UsableIsFilter(r, candidates);
    assert multiset(UsableOf(r, candidates)) <= multiset(candidates);
  }

  /** When no candidate is listed twice, nothing is spent twice. */
  lemma SelectionSpendsOnce(r: Request, candidates: seq<Coin>, res: Result<Selection, Error>)
    requires NoRepeats(candidates) && Optimal(r, UsableOf(r, candidates), res) && res.Ok?
    ensures NoRepeats(res.value.inputs)
  {
    var s := res.value.inputs;
    SelectedFromCandidates(r, candidates, s);
    forall i, j | 0 <= i < j < |s|
      ensures !SameOutpoint(s[i], s[j])
    {
      var a, b := TwoPlaces(candidates, s, i, j);
    }
  }

  lemma PriceMono(r: Request, v: nat, w: nat)
    requires v <= w && PriceAt(r, v).Ok? && PriceAt(r, w).Ok?
    ensures PriceAt(r, v).value.sats <= PriceAt(r, w).value.sats
  {
    hide Vsize;
    VsizeMono(r, v, w);
    if r.policy.choice.Rate? {
      Mono(Vsize(r.op, r.shape, v), Vsize(r.op, r.shape, w), r.policy.choice.satPerVb);
    }
  }

  /** A coin worth nothing is never selected: without it the selection would pay with fewer. */
  lemma NoWorthlessInput(r: Request, candidates: seq<Coin>, res: Result<Selection, Error>, k: nat)
    requires Answers(r, candidates, res) && res.Ok? && k < |res.value.inputs|
    ensures res.value.inputs[k].valueSats > 0
  {
    hide PriceAt, UsableOf;
    var s := res.value.inputs;
    var t := RemoveAt(s, k);
    if s[k].valueSats == 0 {
      RemoveMultiset(s, k);
      SumRemove(s, k);
      assert forall c :: c in t ==> c in s;
      if PriceAt(r, |t|).Err? {
        RefusedMidway(r, |t|, |s|);
      }
      PriceMono(r, |t|, |s|);
    }
  }

  /** Only coins worth nothing are listed twice. */
  predicate RepeatsAreWorthless(coins: seq<Coin>) {
    forall i, j :: 0 <= i < j < |coins| && SameOutpoint(coins[i], coins[j]) ==> coins[i].valueSats == 0
  }

  /** Every lookup of an outpoint is answered with the same value. */
  predicate OneValueEach(coins: seq<Coin>) {
    forall a, b :: a in coins && b in coins && SameOutpoint(a, b) ==> a.valueSats == b.valueSats
  }

  predicate OneScript(coins: seq<Coin>) {
    forall a, b :: a in coins && b in coins ==> a.script == b.script
  }

  lemma WorthlessRepeatsAreHarmless(r: Request, candidates: seq<Coin>, res: Result<Selection, Error>)
    requires RepeatsAreWorthless(candidates) && Answers(r, candidates, res) && res.Ok?
    ensures NoRepeats(res.value.inputs)
  {
    hide PriceAt, UsableOf, Pays;
    var s := res.value.inputs;
    SelectedFromCandidates(r, candidates, s);
    forall i, j | 0 <= i < j < |s|
      ensures !SameOutpoint(s[i], s[j])
    {
      var a, b := TwoPlaces(candidates, s, i, j);
      NoWorthlessInput(r, candidates, res, i);
      NoWorthlessInput(r, candidates, res, j);
    }
  }

  /** A transfer that two inputs worth as much as this coin just pay, when no other outpoint is
      free of assets. */
  function PayableByTwo(c: Coin): Request {
    Request(Transfer, Shape(P2wpkh, 0, P2wpkh, 22, 22, 22, 0, false), 2 * c.valueSats - 293,
            FeePolicy(Explicit(293), 1, ABSOLUTE_CEILING_SAT_PER_VB, 293), c.script,
            _ => false, (x: Coin) => if SameOutpoint(x, c) then Clean else Holds)
  }

  lemma PricesOfPayableByTwo(c: Coin)
    ensures PriceAt(PayableByTwo(c), 0).Ok? && PriceAt(PayableByTwo(c), 0).value.sats == 293
    ensures PriceAt(PayableByTwo(c), 1).Ok? && PriceAt(PayableByTwo(c), 1).value.sats == 293
    ensures PriceAt(PayableByTwo(c), 2).Ok? && PriceAt(PayableByTwo(c), 2).value.sats == 293
  {
    var r := PayableByTwo(c);
    assert Vsize(r.op, r.shape, 0) == 157 && Vsize(r.op, r.shape, 1) == 225 && Vsize(r.op, r.shape, 2) == 293;
  }

  lemma PairIsAssetFree(candidates: seq<Coin>, i: nat, j: nat)
    requires i < j < |candidates| && SameOutpoint(candidates[i], candidates[j])
    ensures var r := PayableByTwo(candidates[i]);
            AssetFree(r, UsableOf(r, candidates), [candidates[i], candidates[j]])
  {
    hide UsableOf;
    UsableIsFilter(PayableByTwo(candidates[i]), candidates);
    RemainsAfter(candidates, i, j);
    assert multiset([candidates[i], candidates[j]]) == multiset{candidates[i]} + multiset{candidates[j]};
  }

  lemma PairPays(c: Coin, d: Coin)
    requires c.valueSats == d.valueSats
    ensures Pays(PayableByTwo(c), [c, d])
  {
    hide PriceAt, SumSats;
    PricesOfPayableByTwo(c);
    SumSplit([c], [d]);
    SumOne(c);
    SumOne(d);
    assert [c] + [d] == [c, d];
  }

  lemma OnlyTwoPay(candidates: seq<Coin>, c: Coin, s: seq<Coin>)
    requires OneValueEach(candidates) && c in candidates && c.valueSats > 0
    requires AssetFree(PayableByTwo(c), UsableOf(PayableByTwo(c), candidates), s) && Pays(PayableByTwo(c), s)
    ensures |s| >= 2 && SameOutpoint(s[0], s[1])
  {
    hide PriceAt, UsableOf, SumSats;
    SelectedFromCandidates(PayableByTwo(c), candidates, s);
    PricesOfPayableByTwo(c);
    forall x | x in s
      ensures SameOutpoint(x, c) && x.valueSats == c.valueSats
    {
      assert PayableByTwo(c).assetsAt(x) == Clean;
      assert x in multiset(candidates);
    }
    assert |s| == 0 || |s| == 1 ==> |s| * c.valueSats <= c.valueSats;
    SumOfEqual(s, c.valueSats);
    assert s[0] in s && s[1] in s;
  }

  lemma {:induction false} SumOfEqual(s: seq<Coin>, v: nat)
    requires forall x :: x in s ==> x.valueSats == v
    ensures SumSats(s) == |s| * v
  {
    if s != [] {
      SumOfEqual(s[..|s| - 1], v);
    }
  }

  /** Each answer to it spends the outpoint twice, and there is one. */
  lemma RepeatIsSpentTwice(candidates: seq<Coin>, i: nat, j: nat, res: Result<Selection, Error>)
    requires OneValueEach(candidates) && OneScript(candidates)
    requires i < j < |candidates| && SameOutpoint(candidates[i], candidates[j]) && candidates[i].valueSats > 0
    ensures var r := PayableByTwo(candidates[i]);
            && (Answers(r, candidates, res) ==> res.Ok? && !NoRepeats(res.value.inputs))
            && PriceAt(r, 2).Ok?
            && Answers(r, candidates, Ok(Selection([candidates[i], candidates[j]], PriceAt(r, 2).value)))
  {
    hide PriceAt, UsableOf, AssetFree, Pays;
    var c := candidates[i];
    var r := PayableByTwo(c);
    PairIsAssetFree(candidates, i, j);
    PairPays(c, candidates[j]);
    PricesOfPayableByTwo(c);
    assert r.policy.floor >= 1;
    forall s | AssetFree(r, UsableOf(r, candidates), s) && Pays(r, s)
      ensures |s| >= 2 && SameOutpoint(s[0], s[1])
    {
      OnlyTwoPay(candidates, c, s);
    }
  }

  /** Candidates are not deduplicated. Nothing is spent twice, whatever the request, exactly when
      only worthless coins are listed twice or the candidates are refused for their scripts. */
  lemma SelectionSpendsOnceExactly(candidates: seq<Coin>)
    requires OneValueEach(candidates)
    ensures (forall r, res :: Answers(r, candidates, res) && res.Ok? ==> NoRepeats(res.value.inputs))
            <==> RepeatsAreWorthless(candidates) || !OneScript(candidates)
  {
    hide Optimal, NoRepeats, UsableOf;
    if RepeatsAreWorthless(candidates) || !OneScript(candidates) {
      forall r, res | Answers(r, candidates, res) && res.Ok?
        ensures NoRepeats(res.value.inputs)
      {
        assert OneScript(candidates);
        WorthlessRepeatsAreHarmless(r, candidates, res);
      }
    } else {
      var i: nat, j: nat :| i < j < |candidates| && SameOutpoint(candidates[i], candidates[j])
          && candidates[i].valueSats > 0;
      var r := PayableByTwo(candidates[i]);
      PricesOfPayableByTwo(candidates[i]);
      var res: Result<Selection, Error> := Ok(Selection([candidates[i], candidates[j]], PriceAt(r, 2).value));
      RepeatIsSpentTwice(candidates, i, j, res);
    }
  }

  /** Candidates are not deduplicated: a coin listed twice, too small alone, is selected twice. */
  lemma RepeatedCandidateCountsTwice(r: Request, c: Coin, res: Result<Selection, Error>)
    requires Usable(r, c) && r.assetsAt(c) == Clean && PriceAt(r, 0).Ok?
    requires !Pays(r, []) && !Pays(r, [c]) && Pays(r, [c, c])
    requires Optimal(r, UsableOf(r, [c, c]), res)
    ensures res.Ok? && res.value.inputs == [c, c]
  {
    hide PriceAt, Usable;
    var usable := UsableOf(r, [c, c]);
    assert [c, c][..1] == [c] && [c][..0] == [];
    assert UsableOf(r, [c]) == [c];
    assert usable == [c, c];
    assert AssetFree(r, usable, [c, c]);
    if res.Ok? {
      var inputs := res.value.inputs;
      SubsetSize(multiset(inputs), multiset(usable));
      forall k | 0 <= k < |inputs|
        ensures inputs[k] == c
      {
        assert inputs[k] in multiset(usable);
      }
      assert inputs == [] || inputs == [c] || inputs == [c, c];
    }
  }

  /** One coin of 6,000 sats listed twice funds a transfer of 10,000 sats. */
  lemma RepeatedCandidateWitness(r: Request, c: Coin, res: Result<Selection, Error>)
    requires r.op == Transfer && r.shape == Shape(P2wpkh, 0, P2wpkh, 22, 22, 22, 0, false)
    requires r.policy == FeePolicy(Explicit(1_000), 1, ABSOLUTE_CEILING_SAT_PER_VB, 200_000) && r.targetSats == 10_000
    requires c.valueSats == 6_000 && r.assetsAt(c) == Clean
    requires Optimal(r, UsableOf(r, [c, c]), res)
    ensures res.Ok? && res.value.inputs == [c, c]
  {
    hide Optimal, UsableOf;
    assert Vsize(r.op, r.shape, 0) == 157 && Vsize(r.op, r.shape, 1) == 225 && Vsize(r.op, r.shape, 2) == 293;
    assert [c, c][..1] == [c] && [c][..0] == [];
    RepeatedCandidateCountsTwice(r, c, res);
  }

  // ── The refusal at zero inputs ───────────────────────────────────────────

  /** A fee refused at zero funding inputs could have been paid with more of them only
      when it is an explicit amount above the ceiling rate of the coinless size. */
  lemma ZeroInputRefusal(r: Request, k: nat)
    requires r.policy.floor >= 1
    requires PriceAt(r, 0).Err? && PriceAt(r, k).Ok?
    ensures r.policy.choice.Explicit?
    ensures TruncDiv(r.policy.choice.sats, Vsize(r.op, r.shape, 0)) > r.policy.ceiling
  {
    hide Vsize;
    VsizeMono(r, 0, k);
    if r.policy.choice.Rate? {
      RateRefusedSmallIsRefusedLarge(r.policy, Vsize(r.op, r.shape, 0), Vsize(r.op, r.shape, k));
    } else if r.policy.choice.sats >= 0 {
      TruncDivAntitone(r.policy.choice.sats, Vsize(r.op, r.shape, 0), Vsize(r.op, r.shape, k));
    }
  }

  /** The fewest funding inputs at which an amount is no longer above the ceiling rate. */
  function LeastInputs(r: Request, sats: nat, ceiling: nat): nat {
    CeilDiv(sats / (ceiling + 1) + 1 - BaseVsize(r.op, r.shape), InputVbytes(r.shape.fundingKind))
  }

  lemma RateUnderCeiling(sats: nat, ceiling: nat, v: nat)
    requires v > 0
    ensures sats / v <= ceiling <==> v >= sats / (ceiling + 1) + 1
  {
    var c, q, n := ceiling + 1, sats / v, sats / (ceiling + 1);
    DivBounds(sats, v);
    DivBounds(sats, c);
    if v >= n + 1 {
      MulMono(n + 1, v, c);
      if q >= c {
        MulMono(c, q, v);
      }
    } else {
      MulMono(v, n, c);
      if q < c {
        MulMono(q + 1, c, v);
      }
    }
  }

  /** From that count on, and not before, the size is large enough. */
  lemma LeastInputsIs(r: Request, sats: nat, ceiling: nat, k: nat)
    ensures Vsize(r.op, r.shape, k) > 0
    ensures sats / Vsize(r.op, r.shape, k) <= ceiling <==> k >= LeastInputs(r, sats, ceiling)
  {
    hide BaseVsize;
    var per, base := InputVbytes(r.shape.fundingKind), BaseVsize(r.op, r.shape);
    var short := sats / (ceiling + 1) + 1 - base;
    var n := LeastInputs(r, sats, ceiling);
    BaseIsPositive(r);
    RateUnderCeiling(sats, ceiling, Vsize(r.op, r.shape, k));
    if k >= n {
      MulMono(n, k, per);
    } else {
      MulMono(k, n - 1, per);
    }
  }

  lemma BaseIsPositive(r: Request)
    ensures BaseVsize(r.op, r.shape) > 0
  {
    MulMono(0, r.shape.tokenInputs, InputVbytes(r.shape.tokenKind));
    if r.op == Transfer {
      MulMono(0, r.shape.recipientCarriers, 9 + r.shape.ordinalsScriptBytes);
    }
  }

  /** A fee refused at zero funding inputs is payable with some number of them exactly when it is
      an explicit amount within the cap that, at the first size it is not above the ceiling, is
      not yet under the floor. Such a build is refused before any coin is looked at. */
  lemma ZeroInputRefusalExactly(r: Request)
    requires r.policy.floor >= 1 && PriceAt(r, 0).Err?
    ensures (exists k: nat :: PriceAt(r, k).Ok?) <==>
            match r.policy.choice
            case Rate(_) => false
            case Explicit(sats) =>
              && r.policy.ceiling >= 0
              && 0 <= sats <= r.policy.maxMinerFeeSats
              && sats / Vsize(r.op, r.shape, LeastInputs(r, sats, r.policy.ceiling)) >= r.policy.floor
  {
    match r.policy.choice
    case Rate(_) =>
      hide Vsize;
      forall k: nat
        ensures PriceAt(r, k).Err?
      {
        VsizeMono(r, 0, k);
        RateRefusedSmallIsRefusedLarge(r.policy, Vsize(r.op, r.shape, 0), Vsize(r.op, r.shape, k));
      }
    case Explicit(sats) =>
      hide Vsize, LeastInputs, PriceAt;
      if sats >= 0 && r.policy.ceiling >= 0 {
        var n := LeastInputs(r, sats, r.policy.ceiling);
        VsizeMono(r, 0, n);
        ExplicitPrice(r, sats, n);
        forall k: nat | PriceAt(r, k).Ok?
          ensures sats <= r.policy.maxMinerFeeSats && sats / Vsize(r.op, r.shape, n) >= r.policy.floor
        {
          ExplicitPrice(r, sats, k);
        }
      } else {
        forall k: nat
          ensures PriceAt(r, k).Err?
        {
          NeverPayable(r, sats, k);
        }
      }
  }

  lemma NeverPayable(r: Request, sats: int, k: nat)
    requires r.policy.choice == Explicit(sats) && r.policy.floor >= 1 && (sats < 0 || r.policy.ceiling < 0)
    ensures PriceAt(r, k).Err?
  {
    hide Vsize;
    VsizeMono(r, 0, k);
  }

  /** An explicit amount is payable with k inputs exactly when k reaches the ceiling's count and
      neither the cap nor the floor refuses it; more inputs only bring it nearer to the floor. */
  lemma ExplicitPrice(r: Request, sats: nat, k: nat)
    requires r.policy.choice == Explicit(sats) && r.policy.floor >= 1 && r.policy.ceiling >= 0
    ensures var n := LeastInputs(r, sats, r.policy.ceiling);
            && (PriceAt(r, k).Ok? <==>
                k >= n && sats <= r.policy.maxMinerFeeSats && sats / Vsize(r.op, r.shape, k) >= r.policy.floor)
            && (k >= n ==> sats / Vsize(r.op, r.shape, k) <= sats / Vsize(r.op, r.shape, n))
  {
    hide LeastInputs, Vsize;
    var n := LeastInputs(r, sats, r.policy.ceiling);
    LeastInputsIs(r, sats, r.policy.ceiling, k);
    VsizeMono(r, 0, k);
    if k >= n {
      VsizeMono(r, n, k);
      TruncDivAntitone(sats, Vsize(r.op, r.shape, n), Vsize(r.op, r.shape, k));
    }
  }

  /** Such an amount exists: 100,000 sats is refused for the coinless transfer and
      acceptable for the same transfer with five coins. */
  lemma ZeroInputRefusalWitness(r: Request)
    requires r.op == Transfer && r.shape == Shape(P2wpkh, 0, P2wpkh, 22, 22, 22, 0, false)
    requires r.policy == FeePolicy(Explicit(100_000), 1, ABSOLUTE_CEILING_SAT_PER_VB, 200_000)
    ensures PriceAt(r, 0) == Err(TooHigh) && PriceAt(r, 5).Ok?
  {
    assert Vsize(r.op, r.shape, 0) == 157;
    assert Vsize(r.op, r.shape, 5) == 497;
  }

  // ── Token carriers ───────────────────────────────────────────────────────

  /** A choice among `mine` that holds at least `amount`. */
  predicate Covers(mine: seq<Coin>, amount: nat, s: seq<Coin>) {
    multiset(s) <= multiset(mine) && SumSats(s) >= amount
  }

  lemma PrefixCovers(mine: seq<Coin>, sorted: seq<Coin>, amount: nat, n: nat)
    requires multiset(sorted) == multiset(mine) && n <= |sorted| && SumSats(sorted[..n]) >= amount
    ensures Covers(mine, amount, sorted[..n])
  {
    assert sorted == sorted[..n] + sorted[n..];
  }

  lemma ShorterDoNotCover(mine: seq<Coin>, sorted: seq<Coin>, amount: nat, n: nat, s: seq<Coin>)
    requires multiset(sorted) == multiset(mine) && Sorted(sorted, Before) && n <= |sorted|
    requires forall m :: 0 <= m < n ==> SumSats(sorted[..m]) < amount
    requires Covers(mine, amount, s)
    ensures n <= |s| <= |sorted| && SumSats(sorted[..|s|]) >= amount
  {
    hide SumSats, Before;
    TopIsMost(sorted, s);
  }

  lemma RestComesAfter(mine: seq<Coin>, sorted: seq<Coin>, n: nat)
    requires multiset(sorted) == multiset(mine) && Sorted(sorted, Before) && n <= |sorted|
    ensures forall c, k :: c in multiset(mine) - multiset(sorted[..n]) && 0 <= k < n ==>
              sorted[k].valueSats > c.valueSats || (sorted[k].valueSats == c.valueSats && LexLe(sorted[k].txid, c.txid))
  {
    assert sorted == sorted[..n] + sorted[n..];
    forall c, k | c in multiset(mine) - multiset(sorted[..n]) && 0 <= k < n
      ensures sorted[k].valueSats > c.valueSats || (sorted[k].valueSats == c.valueSats && LexLe(sorted[k].txid, c.txid))
    {
      assert c in multiset(sorted[n..]);
      var j :| n <= j < |sorted| && sorted[j] == c;
      assert Before(sorted[k], sorted[j]);
      LexTotal(c.txid, c.txid);
    }
  }

  /** Take coins from the front until they hold the amount or the cap is reached. */
  method TakeUntil(sorted: seq<Coin>, amount: nat, cap: nat) returns (n: nat, running: nat)
    ensures n <= |sorted| && n <= cap && running == SumSats(sorted[..n])
    ensures forall m :: 0 <= m < n ==> SumSats(sorted[..m]) < amount
    ensures running >= amount || n == |sorted| || n == cap
  {
    n, running := 0, 0;
    assert sorted[..0] == [];
    while n < |sorted| && running < amount && n < cap
      invariant 0 <= n <= |sorted| && n <= cap
      invariant running == SumSats(sorted[..n])
      invariant forall m :: 0 <= m < n ==> SumSats(sorted[..m]) < amount
    {
      assert sorted[..n + 1][..n] == sorted[..n];
      running := running + sorted[n].valueSats;
      n := n + 1;
    }
  }

  /** Redemptions and transfers pick carriers largest first, at most `cap` of them;
      here a coin's value is its token amount. The pick uses the fewest carriers, and it
      fails exactly when no choice of at most `cap` carriers holds the amount. */
  method PickCarriers(mine: seq<Coin>, amount: nat, cap: nat) returns (picked: Option<seq<Coin>>)
    ensures picked.Some? ==> Covers(mine, amount, picked.value) && |picked.value| <= cap
    ensures picked.Some? ==> forall s :: Covers(mine, amount, s) ==> |s| >= |picked.value|
    ensures picked.None? ==> forall s :: Covers(mine, amount, s) ==> |s| > cap
    ensures picked.Some? ==> forall c, k :: c in multiset(mine) - multiset(picked.value) && 0 <= k < |picked.value| ==>
              var p := picked.value[k];
              p.valueSats > c.valueSats || (p.valueSats == c.valueSats && LexLe(p.txid, c.txid))
  {
    hide Before, Sort, SumSats, Covers;
    BeforePreorder();
    SortKeeps(mine, Before);
    SortSorts(mine, Before);
    var sorted := Sort(mine, Before);
    var n, running := TakeUntil(sorted, amount, cap);
    forall s | Covers(mine, amount, s)
      ensures n <= |s| <= |sorted| && SumSats(sorted[..|s|]) >= amount
    {
      ShorterDoNotCover(mine, sorted, amount, n, s);
    }
    if running < amount {
      return None;
    }
    PrefixCovers(mine, sorted, amount, n);
    RestComesAfter(mine, sorted, n);
    picked := Some(sorted[..n]);
  }
}
