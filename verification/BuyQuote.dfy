/** Quoting a mint for a budget: two binary searches over the cost of whole lots. */
module BuyQuote {
  import opened Wrappers
  import opened Constants
  import opened Rounding
  import opened Curve
  import opened Backing
  import opened Fee
  import TransitionV2

  /** What the quote depends on: the vault's supply, the buyer's budget, the fee
      schedule and the per-mint limits. */
  datatype Context = Context(
    supplyTokens: nat, budgetSats: int, feeBps: nat, feeFlatSats: nat,
    maxMintAtoms: nat, maxGrossSats: Option<int>, minGrossSats: int)

  predicate ValidContext(c: Context) {
    c.supplyTokens <= PUBLIC_SUPPLY && WholeLots(c.supplyTokens)
  }

  datatype LimitedBy = Budget | PerMintLimit | Supply

  datatype Cost = Cost(gross: nat, fee: nat, creator: nat, total: nat)

  datatype Quoted = Quoted(
    amountAtoms: nat, grossSats: nat, feeSats: nat, creatorFeeSats: nat, totalSats: nat,
    limitedBy: LimitedBy, minSpendSats: Option<nat>)

  function RemainingLots(c: Context): (n: nat)
    requires ValidContext(c)
    ensures n * LOT_TOKENS == PUBLIC_SUPPLY - c.supplyTokens
  {
    (PUBLIC_SUPPLY - c.supplyTokens) / LOT_TOKENS
  }

  function PerMintLots(c: Context): nat {
    c.maxMintAtoms / ATOMS_PER_TOKEN / LOT_TOKENS
  }

  /** Curve price of the next `lots` lots, lot by lot. */
  function GrossOf(c: Context, lots: nat): nat {
    LotsCost(c.supplyTokens / LOT_TOKENS, lots)
  }

  function CostOf(c: Context, lots: nat): Cost {
    var gross := GrossOf(c, lots);
    var fee := FeeOf(gross, c.feeBps, c.feeFlatSats + BUY_FEE_LOT_SATS * lots, 0);
    var creator := CreatorFeeSats(gross, CREATOR_FEE_BPS);
    Cost(gross, fee, creator, gross + fee + creator + TOKEN_CARRIER_SATS)
  }

  predicate Fits(c: Context, lots: nat) {
    CostOf(c, lots).total <= c.budgetSats && (c.maxGrossSats.None? || CostOf(c, lots).gross <= c.maxGrossSats.value)
  }

  /** Reference: the largest fitting lot count not above `hi`, by scanning down. */
  function LargestFit(c: Context, hi: nat): nat {
    if hi == 0 || Fits(c, hi) then hi else LargestFit(c, hi - 1)
  }

  /** Reference: the fewest lots from `lo` up to `hi` that meet the minimum, by scanning up. */
  function FewestAbove(c: Context, lo: nat, hi: nat): Option<nat>
    decreases hi - lo
  {
    if lo > hi then None
    else if CostOf(c, lo).gross >= c.minGrossSats then Some(lo)
    else FewestAbove(c, lo + 1, hi)
  }

  function MinSpend(c: Context): Option<nat>
    requires ValidContext(c)
  {
    var lots := FewestAbove(c, 1, RemainingLots(c));
    if lots.None? then None else Some(CostOf(c, lots.value).total)
  }

  function Nothing(c: Context): Quoted
    requires ValidContext(c)
  {
    Quoted(0, 0, 0, 0, 0, Budget, MinSpend(c))
  }

  function LotCap(c: Context): (n: nat)
    requires ValidContext(c)
    ensures n <= RemainingLots(c) && n <= PerMintLots(c)
  {
    Min(RemainingLots(c), PerMintLots(c))
  }

  /** Which limit stopped a quote of `lots` lots, named in this order. */
  function LimitOf(c: Context, lots: nat): LimitedBy
    requires ValidContext(c)
  {
    if lots == RemainingLots(c) then Supply
    else if lots == PerMintLots(c) || CostOf(c, lots + 1).total <= c.budgetSats then PerMintLimit
    else Budget
  }

  /** The quote by linear scans. */
  function Quote(c: Context): Quoted
    requires ValidContext(c)
  {
    var lots := LargestFit(c, LotCap(c));
    var cost := CostOf(c, lots);
    if lots == 0 || cost.gross < c.minGrossSats then Nothing(c)
    else Quoted(lots * LOT_ATOMS, cost.gross, cost.fee, cost.creator, cost.total, LimitOf(c, lots), MinSpend(c))
  }

  // ── Monotonicity ─────────────────────────────────────────────────────────

  lemma CostMono(c: Context, a: nat, b: nat)
    requires 0 < a < b
    ensures 0 < CostOf(c, a).gross < CostOf(c, b).gross
    ensures CostOf(c, a).total < CostOf(c, b).total
  {
    hide LotsCost, FeeOf;
    var lot := c.supplyTokens / LOT_TOKENS;
    LotsCostSplit(lot, a, b - a);
    LotsCostBounds(lot, a);
    LotsCostBounds(lot + a, b - a);
    FeeMono(GrossOf(c, a), GrossOf(c, b), c.feeBps, c.feeFlatSats + BUY_FEE_LOT_SATS * a,
            c.feeFlatSats + BUY_FEE_LOT_SATS * b, 0);
    FeeMono(GrossOf(c, a), GrossOf(c, b), CREATOR_FEE_BPS, 0, 0, CREATOR_MIN_SATS);
  }

  lemma FitsDown(c: Context, a: nat, b: nat)
    requires 0 < a <= b && Fits(c, b)
    ensures Fits(c, a)
  {
    hide CostOf;
    if a < b {
      CostMono(c, a, b);
    }
  }

  lemma {:induction false} LargestFitIs(c: Context, hi: nat, n: nat)
    requires n <= hi && (n == 0 || Fits(c, n))
    requires forall m :: n < m <= hi ==> !Fits(c, m)
    ensures LargestFit(c, hi) == n
    decreases hi
  {
    if hi > n {
      LargestFitIs(c, hi - 1, n);
    }
  }

  lemma {:induction false} LargestFitMax(c: Context, hi: nat)
    ensures LargestFit(c, hi) <= hi
    ensures LargestFit(c, hi) == 0 || Fits(c, LargestFit(c, hi))
    ensures forall m :: LargestFit(c, hi) < m <= hi ==> !Fits(c, m)
    decreases hi
  {
    hide Fits;
    if hi > 0 && !Fits(c, hi) {
      LargestFitMax(c, hi - 1);
    }
  }

  lemma {:induction false} FewestAboveIs(c: Context, lo: nat, hi: nat, n: nat)
    requires lo <= n <= hi && CostOf(c, n).gross >= c.minGrossSats
    requires forall m :: lo <= m < n ==> CostOf(c, m).gross < c.minGrossSats
    ensures FewestAbove(c, lo, hi) == Some(n)
    decreases n - lo
  {
    hide CostOf;
    if lo < n {
      FewestAboveIs(c, lo + 1, hi, n);
    }
  }

  lemma {:induction false} FewestAboveLeast(c: Context, lo: nat, hi: nat)
    ensures match FewestAbove(c, lo, hi)
            case Some(n) => lo <= n <= hi && CostOf(c, n).gross >= c.minGrossSats
                            && forall m :: lo <= m < n ==> CostOf(c, m).gross < c.minGrossSats
            case None => forall m :: lo <= m <= hi ==> CostOf(c, m).gross < c.minGrossSats
    decreases hi - lo
  {
    hide CostOf;
    if lo <= hi && CostOf(c, lo).gross < c.minGrossSats {
      FewestAboveLeast(c, lo + 1, hi);
    }
  }

  // ── The quoting code ─────────────────────────────────────────────────────

  /** costOf as the service computes it: reserve difference, both fees and the carrier. */
  method PriceLots(c: Context, lots: nat) returns (cost: Cost)
    requires ValidContext(c) && 0 < lots <= RemainingLots(c)
    ensures cost == CostOf(c, lots)
  {
    hide LotsCost, Reserve, FeeOf, WholeLots;
    var n := lots * LOT_TOKENS;
    LotMultiple(lots);
    GrossOfLots(c.supplyTokens, n);
    assert n / LOT_TOKENS == lots;
    var gross := GrossBuy(c.supplyTokens, n);
    assert n * ATOMS_PER_TOKEN / LOT_ATOMS == lots;
    var fee := MintFeeSats(gross.value, n * ATOMS_PER_TOKEN, c.feeBps, c.feeFlatSats, BUY_FEE_LOT_SATS);
    var creator := CreatorFeeSats(gross.value, CREATOR_FEE_BPS);
    cost := Cost(gross.value, fee, creator, gross.value + fee + creator + TOKEN_CARRIER_SATS);
  }

  /** The first search: the most lots that fit the budget and the per-mint limits. */
  method MostLots(c: Context, cap: nat) returns (loLots: nat)
    requires ValidContext(c) && cap == LotCap(c)
    ensures loLots == LargestFit(c, cap)
  {
    hide CostOf;
    loLots := 0;
    var hiLots := cap;
    while loLots < hiLots
      invariant 0 <= loLots <= hiLots <= cap
      invariant loLots == 0 || Fits(c, loLots)
      invariant forall m :: hiLots < m <= cap ==> !Fits(c, m)
      decreases hiLots - loLots
    {
      var mid := (loLots + hiLots + 1) / 2;
      var cost := PriceLots(c, mid);
      if cost.total <= c.budgetSats && (c.maxGrossSats.None? || cost.gross <= c.maxGrossSats.value) {
        loLots := mid;
      } else {
        forall m | mid <= m <= cap
          ensures !Fits(c, m)
        {
          if Fits(c, m) {
            FitsDown(c, mid, m);
          }
        }
        hiLots := mid - 1;
      }
    }
    LargestFitIs(c, cap, loLots);
  }

  /** The second search: what the fewest lots that meet the minimum cost. */
  method CheapestMint(c: Context, remainingLots: nat) returns (minSpend: Option<nat>)
    requires ValidContext(c) && remainingLots == RemainingLots(c)
    ensures minSpend == MinSpend(c)
  {
    hide CostOf, RemainingLots;
    minSpend := None;
    FewestAboveLeast(c, 1, remainingLots);
    if remainingLots > 0 {
      var a, b := 1, remainingLots;
      while a < b
        invariant 1 <= a <= b <= remainingLots
        invariant forall m :: 1 <= m < a ==> CostOf(c, m).gross < c.minGrossSats
        invariant b == remainingLots || CostOf(c, b).gross >= c.minGrossSats
        decreases b - a
      {
        var m := (a + b) / 2;
        var cost := PriceLots(c, m);
        if cost.gross >= c.minGrossSats {
          b := m;
        } else {
          forall k | 1 <= k <= m
            ensures CostOf(c, k).gross < c.minGrossSats
          {
            if k < m {
              CostMono(c, k, m);
            }
          }
          a := m + 1;
        }
      }
      var cost := PriceLots(c, a);
      if cost.gross >= c.minGrossSats {
        FewestAboveIs(c, 1, remainingLots, a);
        minSpend := Some(cost.total);
      }
    }
  }

  /** The two binary searches and the choice between the limits give the quote that linear
      scans define. */
  method QuoteBuyForSats(c: Context) returns (q: Quoted)
    requires ValidContext(c)
    ensures q == Quote(c)
  {
    hide CostOf, PerMintLots, RemainingLots, LargestFit, MinSpend, Fits;
    var perMintLots := PerMintLots(c);
    var remainingLots := RemainingLots(c);
    var cap := if remainingLots < perMintLots then remainingLots else perMintLots;
    var loLots := MostLots(c, cap);
    LargestFitBound(c, cap);
    var minSpend := CheapestMint(c, remainingLots);
    if loLots == 0 {
      return Quoted(0, 0, 0, 0, 0, Budget, minSpend);
    }
    var cost := PriceLots(c, loLots);
    if cost.gross < c.minGrossSats {
      return Quoted(0, 0, 0, 0, 0, Budget, minSpend);
    }
    var nextWithinBudget := false;
    if loLots < remainingLots {
      var next := PriceLots(c, loLots + 1);
      nextWithinBudget := next.total <= c.budgetSats;
    }
    var limitedBy := if loLots == remainingLots then Supply
                     else if loLots == perMintLots || nextWithinBudget then PerMintLimit
                     else Budget;
    q := Quoted(loLots * LOT_ATOMS, cost.gross, cost.fee, cost.creator, cost.total, limitedBy, minSpend);
  }

  lemma {:induction false} LargestFitBound(c: Context, hi: nat)
    ensures LargestFit(c, hi) <= hi
  {
    hide Fits;
    if hi > 0 {
      LargestFitBound(c, hi - 1);
    }
  }

  // ── What the quote means ─────────────────────────────────────────────────

  function QuotedLots(q: Quoted): nat {
    q.amountAtoms / LOT_ATOMS
  }

  lemma LotsRoundTrip(lots: nat)
    ensures lots * LOT_ATOMS / LOT_ATOMS == lots
  {
  }

  /** A lot count every limit allows. */
  predicate Allowed(c: Context, lots: nat)
    requires ValidContext(c)
  {
    0 < lots <= RemainingLots(c) && lots <= PerMintLots(c) && Fits(c, lots)
  }

  /** The quoted amount is the largest allowed lot count, at its exact cost; nothing is
      quoted exactly when no allowed lot count meets the minimum. */
  lemma QuoteIsLargest(c: Context)
    requires ValidContext(c)
    ensures var q := Quote(c);
            q.amountAtoms > 0 ==>
              && q.amountAtoms == QuotedLots(q) * LOT_ATOMS
              && Allowed(c, QuotedLots(q))
              && (forall m: nat :: Allowed(c, m) ==> m <= QuotedLots(q))
              && CostOf(c, QuotedLots(q)) == Cost(q.grossSats, q.feeSats, q.creatorFeeSats, q.totalSats)
              && q.grossSats >= c.minGrossSats
    ensures Quote(c).amountAtoms == 0 <==>
              forall m: nat :: Allowed(c, m) ==> CostOf(c, m).gross < c.minGrossSats
    ensures Quote(c).amountAtoms == 0 ==>
              var q := Quote(c); q.grossSats == 0 && q.feeSats == 0 && q.creatorFeeSats == 0 && q.totalSats == 0
  {
    hide CostOf, RemainingLots, PerMintLots;
    var cap := LotCap(c);
    var n := LargestFit(c, cap);
    LargestFitMax(c, cap);
    forall m: nat | Allowed(c, m)
      ensures m <= n && (m < n ==> CostOf(c, m).gross < CostOf(c, n).gross)
    {
      if m < n {
        CostMono(c, m, n);
      }
    }
    if n > 0 {
      assert Allowed(c, n);
      LotsRoundTrip(n);
    }
  }

  /** The named limit really blocks the next lot. */
  lemma LimitBlocksNextLot(c: Context)
    requires ValidContext(c) && Quote(c).amountAtoms > 0
    ensures var q := Quote(c);
            var lots := QuotedLots(q);
            match q.limitedBy
            case Supply => lots == RemainingLots(c)
            case PerMintLimit =>
              lots < RemainingLots(c) &&
              (lots + 1 > PerMintLots(c)
               || (c.maxGrossSats.Some? && CostOf(c, lots + 1).gross > c.maxGrossSats.value))
            case Budget =>
              lots < RemainingLots(c) && lots < PerMintLots(c) && CostOf(c, lots + 1).total > c.budgetSats
  {
    hide CostOf, RemainingLots, PerMintLots;
    var cap := LotCap(c);
    var n := LargestFit(c, cap);
    LargestFitMax(c, cap);
    LotsRoundTrip(n);
    if n < cap {
      assert !Fits(c, n + 1);
    }
  }

  /** Something is quoted exactly when the caps admit the minimum mint and the budget
      reaches minSpendSats. */
  lemma NonEmptyExactlyAtMinSpend(c: Context)
    requires ValidContext(c)
    ensures Quote(c).minSpendSats.None? <==>
              forall m :: 0 < m <= RemainingLots(c) ==> CostOf(c, m).gross < c.minGrossSats
    ensures Quote(c).amountAtoms > 0 <==>
              var least := FewestAbove(c, 1, RemainingLots(c));
              && least.Some?
              && least.value <= PerMintLots(c)
              && (c.maxGrossSats.None? || CostOf(c, least.value).gross <= c.maxGrossSats.value)
              && c.budgetSats >= Quote(c).minSpendSats.value
  {
    hide CostOf, RemainingLots, PerMintLots;
    var least := FewestAbove(c, 1, RemainingLots(c));
    FewestAboveLeast(c, 1, RemainingLots(c));
    QuoteIsLargest(c);
    var q := Quote(c);
    if q.amountAtoms > 0 {
      var n := QuotedLots(q);
      assert least.Some? && least.value <= n;
      FitsDown(c, least.value, n);
    }
    if least.Some? && least.value <= PerMintLots(c) && Fits(c, least.value) {
      assert Allowed(c, least.value);
    }
  }

  /** An empty quote always blames the budget. No budget whatever would have helped
      exactly when the curve or the per-mint caps do not admit the minimum mint. */
  lemma EmptyQuoteBlamesBudget(c: Context)
    requires ValidContext(c) && Quote(c).amountAtoms == 0
    ensures Quote(c).limitedBy == Budget
    ensures (forall budget: int :: Quote(c.(budgetSats := budget)).amountAtoms == 0) <==>
              var least := FewestAbove(c, 1, RemainingLots(c));
              || least.None?
              || least.value > PerMintLots(c)
              || (c.maxGrossSats.Some? && CostOf(c, least.value).gross > c.maxGrossSats.value)
  {
    hide CostOf, RemainingLots, PerMintLots, Quote;
    assert Quote(c).limitedBy == Budget by { EmptyShape(c); }
    var least := FewestAbove(c, 1, RemainingLots(c));
    forall budget: int
      ensures var d := c.(budgetSats := budget);
              && FewestAbove(d, 1, RemainingLots(d)) == least
              && PerMintLots(d) == PerMintLots(c)
              && (Quote(d).amountAtoms > 0 ==>
                    && least.Some? && least.value <= PerMintLots(c)
                    && (c.maxGrossSats.None? || CostOf(c, least.value).gross <= c.maxGrossSats.value))
    {
      var d := c.(budgetSats := budget);
      SameLimits(c, budget);
      ScanIgnoresBudget(c, budget, 1, RemainingLots(c));
      NonEmptyExactlyAtMinSpend(d);
      if least.Some? {
        CostIgnoresBudget(c, budget, least.value);
      }
    }
    if least.Some? {
      var enough := CostOf(c, least.value).total;
      var d := c.(budgetSats := enough);
      CostIgnoresBudget(c, enough, least.value);
      SameLimits(c, enough);
      ScanIgnoresBudget(c, enough, 1, RemainingLots(c));
      NonEmptyExactlyAtMinSpend(d);
      SpendIs(d);
    }
  }

  /** Nothing left to mint, and a buyer with a whole bitcoin. */
  const SOLD_OUT := Context(PUBLIC_SUPPLY, 100_000_000, 750, 5_000, PUBLIC_SUPPLY_ATOMS, None, 1)

  /** The budget is blamed although no budget buys anything. */
  lemma SoldOutBlamesBudget(budget: int)
    ensures ValidContext(SOLD_OUT) && Quote(SOLD_OUT) == Quoted(0, 0, 0, 0, 0, Budget, None)
    ensures Quote(SOLD_OUT.(budgetSats := budget)).amountAtoms == 0
  {
    hide CostOf;
    assert RemainingLots(SOLD_OUT) == 0 && FewestAbove(SOLD_OUT, 1, 0).None?;
    assert RemainingLots(SOLD_OUT.(budgetSats := budget)) == 0;
  }

  lemma EmptyShape(c: Context)
    requires ValidContext(c) && Quote(c).amountAtoms == 0
    ensures Quote(c) == Nothing(c)
  {
    hide CostOf, RemainingLots, PerMintLots;
  }

  lemma SpendIs(c: Context)
    requires ValidContext(c)
    ensures Quote(c).minSpendSats == MinSpend(c)
  {
    hide CostOf, RemainingLots, PerMintLots, LargestFit;
  }

  lemma SameLimits(c: Context, budget: int)
    requires ValidContext(c)
    ensures var d := c.(budgetSats := budget);
            ValidContext(d) && RemainingLots(d) == RemainingLots(c) && PerMintLots(d) == PerMintLots(c)
  {
  }

  lemma CostIgnoresBudget(c: Context, budget: int, lots: nat)
    ensures CostOf(c.(budgetSats := budget), lots) == CostOf(c, lots)
  {
    hide LotsCost, FeeOf;
  }

  lemma {:induction false} ScanIgnoresBudget(c: Context, budget: int, lo: nat, hi: nat)
    ensures FewestAbove(c.(budgetSats := budget), lo, hi) == FewestAbove(c, lo, hi)
    decreases hi - lo
  {
    hide CostOf;
    if lo <= hi {
      CostIgnoresBudget(c, budget, lo);
      ScanIgnoresBudget(c, budget, lo + 1, hi);
    }
  }

  /** The context the service builds from a valid vault state. */
  function ContextOf(s: TransitionV2.State, budget: int, bps: nat, flat: nat,
                     maxMintAtoms: nat, maxGross: Option<int>, minGross: int): (c: Context)
    requires TransitionV2.ValidState(s)
    ensures ValidContext(c)
  {
    TransitionV2.ValidFacts(s);
    TransitionV2.AtomsToLots(s.issuedSupplyAtoms);
    Context(s.issuedSupplyAtoms / ATOMS_PER_TOKEN, budget, bps, flat, maxMintAtoms, maxGross, minGross)
  }

  /** The quoted amount can be minted: the transition accepts it at exactly the quoted gross. */
  lemma QuotedAmountIsMintable(s: TransitionV2.State, budget: int, bps: nat, flat: nat,
                               maxMintAtoms: nat, maxGross: Option<int>, minGross: int)
    requires TransitionV2.ValidState(s)
    requires Quote(ContextOf(s, budget, bps, flat, maxMintAtoms, maxGross, minGross)).amountAtoms > 0
    ensures var q := Quote(ContextOf(s, budget, bps, flat, maxMintAtoms, maxGross, minGross));
            && TransitionV2.ApplyMint(s, q.amountAtoms).Ok?
            && TransitionV2.ApplyMint(s, q.amountAtoms).value.grossSats == q.grossSats
            && q.amountAtoms <= maxMintAtoms && q.totalSats <= budget
  {
    hide LotsCost, FeeOf, Reserve, TransitionV2.ApplyMint, TransitionV2.ValidateState, TransitionV2.ReserveAt, Quote,
         WholeLots;
    var c := ContextOf(s, budget, bps, flat, maxMintAtoms, maxGross, minGross);
    QuoteIsLargest(c);
    var atoms := Quote(c).amountAtoms;
    var lots := QuotedLots(Quote(c));
    TransitionV2.ValidFacts(s);
    TransitionV2.AtomsToLots(s.issuedSupplyAtoms);
    TransitionV2.AtomsToLots(atoms);
    assert atoms == lots * LOT_ATOMS;
    assert s.issuedSupplyAtoms + atoms <= PUBLIC_SUPPLY_ATOMS;
    TransitionV2.MintAccepted(s, atoms);
    TransitionV2.LotsMoveTheReserve(s.issuedSupplyAtoms, atoms);
    GrossOfLots(c.supplyTokens, atoms / ATOMS_PER_TOKEN);
  }

  /** The limits in atoms: so many whole lots are left, and so many fit the per-mint cap. */
  lemma LimitsAre(c: Context)
    requires ValidContext(c)
    ensures RemainingLots(c) * 1_000 == 21_000_000 - c.supplyTokens
    ensures PerMintLots(c) * LOT_ATOMS <= c.maxMintAtoms < (PerMintLots(c) + 1) * LOT_ATOMS
  {
  }

  // ── What the buyer pays ──────────────────────────────────────────────────

  /** Curve price, protocol fee, creator share and carrier of an accepted mint of whole lots. */
  ghost predicate IsOutlay(s: TransitionV2.State, atoms: int, bps: nat, flat: nat, cost: Cost) {
    && atoms > 0
    && TransitionV2.ApplyMint(s, atoms).Ok?
    && cost.gross == TransitionV2.ApplyMint(s, atoms).value.grossSats
    && cost.fee == flat + 10 * (atoms / LOT_ATOMS) + CeilDiv(cost.gross * bps, 10_000)
    && cost.creator == (if CeilDiv(cost.gross, 2) < 546 then 546 else CeilDiv(cost.gross, 2))
    && cost.total == cost.gross + cost.fee + cost.creator + 1_000
    && cost.total
       == TransitionV2.BuyerTotal(cost.gross, atoms, TransitionV2.MintFees(bps, flat, 10, 5_000)) + TOKEN_CARRIER_SATS
  }

  lemma HalfIsHalf(gross: nat)
    ensures CeilDiv(gross * 5_000, 10_000) == CeilDiv(gross, 2)
  {
  }

  lemma LotsLeft(s: TransitionV2.State, c: Context, lots: nat)
    requires TransitionV2.ValidState(s) && c.supplyTokens == s.issuedSupplyAtoms / ATOMS_PER_TOKEN && ValidContext(c)
    ensures lots <= RemainingLots(c) <==> s.issuedSupplyAtoms + lots * LOT_ATOMS <= PUBLIC_SUPPLY_ATOMS
  {
    hide TransitionV2.ValidState, WholeLots, TransitionV2.ReserveAt, TransitionV2.ValidTokenId;
    TransitionV2.ValidFacts(s);
    TransitionV2.AtomsToLots(s.issuedSupplyAtoms);
    LotsFit(c.supplyTokens, RemainingLots(c), lots);
  }

  lemma LotsFit(tokens: nat, left: nat, lots: nat)
    requires left * LOT_TOKENS == PUBLIC_SUPPLY - tokens
    ensures lots <= left <==> tokens * ATOMS_PER_TOKEN + lots * LOT_ATOMS <= PUBLIC_SUPPLY_ATOMS
  {
  }

  lemma MintOfLots(s: TransitionV2.State, c: Context, lots: nat)
    requires TransitionV2.ValidState(s) && c.supplyTokens == s.issuedSupplyAtoms / ATOMS_PER_TOKEN
    requires ValidContext(c) && 0 < lots <= RemainingLots(c)
    ensures var m := TransitionV2.ApplyMint(s, lots * LOT_ATOMS);
            m.Ok? && m.value.grossSats == GrossOf(c, lots) > 0
    ensures lots * LOT_ATOMS > 0 && lots * LOT_ATOMS / LOT_ATOMS == lots
  {
    hide LotsCost, Reserve, TransitionV2.ApplyMint, TransitionV2.ValidState, TransitionV2.ReserveAt, RemainingLots;
    var atoms := lots * LOT_ATOMS;
    LotsLeft(s, c, lots);
    TransitionV2.ValidFacts(s);
    TransitionV2.AtomsToLots(s.issuedSupplyAtoms);
    TransitionV2.AtomsToLots(atoms);
    LotsRoundTrip(lots);
    TransitionV2.MintAccepted(s, atoms);
    TransitionV2.LotsMoveTheReserve(s.issuedSupplyAtoms, atoms);
    GrossOfLots(c.supplyTokens, atoms / ATOMS_PER_TOKEN);
  }

  /** The price of each lot count is the outlay of that mint. */
  lemma CostIsOutlay(s: TransitionV2.State, c: Context, lots: nat)
    requires TransitionV2.ValidState(s) && c.supplyTokens == s.issuedSupplyAtoms / ATOMS_PER_TOKEN
    requires ValidContext(c) && 0 < lots <= RemainingLots(c)
    ensures IsOutlay(s, lots * LOT_ATOMS, c.feeBps, c.feeFlatSats, CostOf(c, lots))
  {
    hide TransitionV2.ApplyMint, TransitionV2.ValidState, FeeOf, GrossOf, RemainingLots;
    var gross := GrossOf(c, lots);
    MintOfLots(s, c, lots);
    FeeAsCeil(gross, c.feeBps, c.feeFlatSats + 10 * lots, 0);
    FeeAsCeil(gross, 5_000, 0, 546);
    HalfIsHalf(gross);
  }

  /** A non-empty quote names the outlay of a mint the transition accepts, part by part; the reported
      minimum spend is the outlay of the smallest mint whose price reaches the minimum, and there is
      none exactly when no mint reaches it. */
  lemma QuoteIsOutlay(s: TransitionV2.State, budget: int, bps: nat, flat: nat,
                      maxMintAtoms: nat, maxGross: Option<int>, minGross: int)
    requires TransitionV2.ValidState(s)
    ensures var q := Quote(ContextOf(s, budget, bps, flat, maxMintAtoms, maxGross, minGross));
            && (q.amountAtoms > 0 ==>
                  IsOutlay(s, q.amountAtoms, bps, flat, Cost(q.grossSats, q.feeSats, q.creatorFeeSats, q.totalSats)))
            && (q.minSpendSats.Some? ==> exists lots: nat, cost ::
                  && IsOutlay(s, lots * LOT_ATOMS, bps, flat, cost)
                  && cost.total == q.minSpendSats.value && cost.gross >= minGross
                  && Unreached(s, lots, minGross))
            && (q.minSpendSats.None? ==> Unreached(s, PUBLIC_SUPPLY / LOT_TOKENS + 1, minGross))
  {
    hide TransitionV2.ApplyMint, TransitionV2.ValidateState, CostOf, Quote, RemainingLots, IsOutlay, Unreached;
    var c := ContextOf(s, budget, bps, flat, maxMintAtoms, maxGross, minGross);
    QuoteIsLargest(c);
    var q := Quote(c);
    if q.amountAtoms > 0 {
      CostIsOutlay(s, c, QuotedLots(q));
    }
    SpendIs(c);
    FewestAboveLeast(c, 1, RemainingLots(c));
    var least := FewestAbove(c, 1, RemainingLots(c));
    if least.Some? {
      CostIsOutlay(s, c, least.value);
      BelowIsUnreached(s, c, least.value);
    } else {
      BelowIsUnreached(s, c, PUBLIC_SUPPLY / LOT_TOKENS + 1);
    }
  }

  /** No accepted mint of fewer lots has a price that reaches the minimum. */
  ghost predicate Unreached(s: TransitionV2.State, lots: nat, minGross: int) {
    forall m: nat :: m < lots && TransitionV2.ApplyMint(s, m * LOT_ATOMS).Ok? ==>
      TransitionV2.ApplyMint(s, m * LOT_ATOMS).value.grossSats < minGross
  }

  lemma BelowIsUnreached(s: TransitionV2.State, c: Context, lots: nat)
    requires TransitionV2.ValidState(s) && c.supplyTokens == s.issuedSupplyAtoms / ATOMS_PER_TOKEN && ValidContext(c)
    requires forall m :: 0 < m < lots && m <= RemainingLots(c) ==> CostOf(c, m).gross < c.minGrossSats
    ensures Unreached(s, lots, c.minGrossSats)
  {
    hide TransitionV2.ApplyMint, TransitionV2.ValidState, CostOf, RemainingLots;
    forall m: nat | m < lots && TransitionV2.ApplyMint(s, m * LOT_ATOMS).Ok?
      ensures TransitionV2.ApplyMint(s, m * LOT_ATOMS).value.grossSats < c.minGrossSats
    {
      TransitionV2.MintAccepted(s, m * LOT_ATOMS);
      LotsLeft(s, c, m);
      CostIsOutlay(s, c, m);
    }
  }
}
