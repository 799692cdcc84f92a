/** The backing reserve R(s): the staircase priced from zero. Buys and
    redemptions are forward and reverse differences of this one function. */
module Backing {
  import opened Wrappers
  import opened Constants
  import opened Rounding
  import opened Curve

  datatype BackingError =
    | InvalidSupply
    | PublicCapExceeded
    | InvalidAmount
    | InsufficientTokenBalance
    | EconomicDust

  function Reserve(supply: nat): nat
    requires supply <= PUBLIC_SUPPLY
  {
    StairCost(0, supply)
  }

  function RequiredBackingSats(supply: int): Result<nat, BackingError> {
    if supply < 0 then Err(InvalidSupply)
    else if supply > PUBLIC_SUPPLY then Err(PublicCapExceeded)
    else Ok(Reserve(supply))
  }

  function GrossBuy(supply: int, amount: int): Result<int, BackingError> {
    if supply < 0 then Err(InvalidSupply)
    else if supply > PUBLIC_SUPPLY then Err(PublicCapExceeded)
    else if amount <= 0 then Err(InvalidAmount)
    else if supply + amount > PUBLIC_SUPPLY then Err(PublicCapExceeded)
    else
      var gross := RequiredBackingSats(supply + amount).value - RequiredBackingSats(supply).value;
      if gross < 1 then Err(EconomicDust) else Ok(gross)
  }

  function GrossRedeem(supply: int, amount: int): Result<int, BackingError> {
    if supply < 0 then Err(InvalidSupply)
    else if supply > PUBLIC_SUPPLY then Err(PublicCapExceeded)
    else if amount <= 0 then Err(InvalidAmount)
    else if amount > supply then Err(InsufficientTokenBalance)
    else
      var gross := RequiredBackingSats(supply).value - RequiredBackingSats(supply - amount).value;
      if gross < 1 then Err(EconomicDust) else Ok(gross)
  }

  /** A movement is priced exactly for a legal supply and a positive amount that fits, when it moves at
      least a sat, and then at the reserve difference; each refusal names the first rule broken. */
  lemma GrossExactly(supply: int, amount: int)
    ensures var r := GrossBuy(supply, amount);
            && (r == Err(InvalidSupply) <==> supply < 0)
            && (r == Err(InvalidAmount) <==> 0 <= supply <= PUBLIC_SUPPLY && amount <= 0)
            && (r == Err(PublicCapExceeded) <==>
                  supply > PUBLIC_SUPPLY || (0 <= supply && 0 < amount && supply + amount > PUBLIC_SUPPLY))
            && (0 <= supply && 0 < amount && supply + amount <= PUBLIC_SUPPLY ==>
                  r == if Reserve(supply + amount) > Reserve(supply)
                       then Ok(Reserve(supply + amount) - Reserve(supply)) else Err(EconomicDust))
    ensures var r := GrossRedeem(supply, amount);
            && (r == Err(InvalidSupply) <==> supply < 0)
            && (r == Err(PublicCapExceeded) <==> supply > PUBLIC_SUPPLY)
            && (r == Err(InvalidAmount) <==> 0 <= supply <= PUBLIC_SUPPLY && amount <= 0)
            && (r == Err(InsufficientTokenBalance) <==> 0 <= supply <= PUBLIC_SUPPLY && amount > supply && amount > 0)
            && (0 < amount <= supply <= PUBLIC_SUPPLY ==>
                  r == if Reserve(supply) > Reserve(supply - amount)
                       then Ok(Reserve(supply) - Reserve(supply - amount)) else Err(EconomicDust))
  {
    hide Reserve;
  }

  /** The reserve is the exact price integral, rounded up once. */
  lemma ReserveIsRoundedIntegral(supply: nat)
    requires supply <= PUBLIC_SUPPLY
    ensures Reserve(supply) == CeilDiv(Area(0, supply), PRICE_UNIT)
  {
    StairFromBoundary(0, supply);
  }

  /** A fresh walk charges the reserve difference or one sat more; on whole lots, exactly the difference. */
  lemma FreshWalkAgainstReserve(supply: nat, amount: nat)
    requires supply + amount <= PUBLIC_SUPPLY
    ensures Reserve(supply + amount) - Reserve(supply) <= StairCost(supply, amount)
            <= Reserve(supply + amount) - Reserve(supply) + 1
    ensures WholeLots(supply) && WholeLots(amount) ==>
              StairCost(supply, amount) == Reserve(supply + amount) - Reserve(supply)
  {
    hide StairCost, WholeLots;
    StairSplit(0, supply, amount);
    if WholeLots(supply) && WholeLots(amount) {
      ZeroIsLots();
      LotSplitIsExact(0, supply, amount);
    }
  }

  lemma ZeroIsLots()
    ensures WholeLots(0)
  {
  }

  lemma ReserveMono(a: nat, b: nat)
    requires a <= b <= PUBLIC_SUPPLY
    ensures Reserve(a) <= Reserve(b)
  {
    hide Area;
    WalkEmpty(0);
    ReserveIsRoundedIntegral(a);
    ReserveIsRoundedIntegral(b);
    AreaSplit(0, a, b - a);
    CeilDivMono(Area(0, a), Area(0, b), PRICE_UNIT);
  }

  /** Redeeming what was just bought is priced identically, dust refusals included. */
  lemma BuyThenRedeem(supply: nat, amount: nat)
    requires 0 < amount && supply + amount <= PUBLIC_SUPPLY
    ensures GrossRedeem(supply + amount, amount) == GrossBuy(supply, amount)
  {
    hide StairCost;
  }

  /** Lots priced one after another. */
  function LotsCost(lot: nat, count: nat): nat
    decreases count
  {
    if count == 0 then 0 else LotPrice(lot) + LotsCost(lot + 1, count - 1)
  }

  lemma {:induction false} LotsCostBounds(lot: nat, count: nat)
    ensures LotsCost(lot, count) >= LOT_BASE_SATS * count
    decreases count
  {
    if count > 0 {
      LotsCostBounds(lot + 1, count - 1);
    }
  }

  lemma {:induction false} StairCostOfLots(lot: nat, count: nat)
    requires (lot + count) * LOT_TOKENS <= PUBLIC_SUPPLY
    ensures StairCost(lot * LOT_TOKENS, count * LOT_TOKENS) == LotsCost(lot, count)
    decreases count
  {
    hide StairCost, WholeLots, LotPrice;
    WalkEmpty(lot * LOT_TOKENS);
    if count > 0 {
      LotMultiple(lot);
      LotMultiple(1);
      LotMultiple(count - 1);
      OneLot(lot);
      StairCostOfLots(lot + 1, count - 1);
      LotSplitIsExact(lot * LOT_TOKENS, LOT_TOKENS, (count - 1) * LOT_TOKENS);
      assert LOT_TOKENS + (count - 1) * LOT_TOKENS == count * LOT_TOKENS;
    }
  }

  lemma LotMultiple(k: int)
    ensures WholeLots(k * LOT_TOKENS)
  {
  }

  lemma LotQuotient(n: nat)
    requires WholeLots(n)
    ensures n == (n / LOT_TOKENS) * LOT_TOKENS
  {
  }

  /** A purchase of whole lots is the sum of its lot prices, so it is never dust. */
  lemma GrossOfLots(supply: nat, amount: nat)
    requires supply + amount <= PUBLIC_SUPPLY && 0 < amount
    requires WholeLots(supply) && WholeLots(amount)
    ensures GrossBuy(supply, amount) == Ok(LotsCost(supply / LOT_TOKENS, amount / LOT_TOKENS))
    ensures LotsCost(supply / LOT_TOKENS, amount / LOT_TOKENS) >= LOT_BASE_SATS
  {
    hide StairCost, Reserve;
    var lot, count := supply / LOT_TOKENS, amount / LOT_TOKENS;
    LotQuotient(supply);
    LotQuotient(amount);
    assert count >= 1;
    hide WholeLots;
    FreshWalkAgainstReserve(supply, amount);
    StairCostOfLots(lot, count);
    LotsCostBounds(lot, count);
    assert lot * LOT_TOKENS == supply && count * LOT_TOKENS == amount;
  }

  lemma {:induction false} LotsCostSplit(lot: nat, a: nat, b: nat)
    ensures LotsCost(lot, a + b) == LotsCost(lot, a) + LotsCost(lot + a, b)
    decreases a
  {
    hide LotPrice;
    if a > 0 {
      LotsCostSplit(lot + 1, a - 1, b);
      assert a + b - 1 == (a - 1) + b;
    }
  }

  /** The reserve at the foot of stair k has a closed form. */
  lemma {:induction false} ReserveAtStair(k: nat)
    requires k <= STAGE_COUNT
    ensures Area(0, k * TOKENS_PER_STAGE) == 1350 * k * (k + 1) * PRICE_UNIT
    ensures Reserve(k * TOKENS_PER_STAGE) == 1350 * k * (k + 1)
  {
    hide Area, StairCost;
    WalkEmpty(0);
    if k > 0 {
      var s := (k - 1) * TOKENS_PER_STAGE;
      ReserveAtStair(k - 1);
      AreaSplit(0, s, TOKENS_PER_STAGE);
      StageUnique(s, k - 1);
      AreaInStair(s, TOKENS_PER_STAGE);
      assert 1350 * (k - 1) * k + 2700 * k == 1350 * k * (k + 1);
    }
    ReserveIsRoundedIntegral(k * TOKENS_PER_STAGE);
    CeilDivExact(1350 * k * (k + 1), 0, PRICE_UNIT);
  }

  /** The whole supply costs 59,818,500 sats. */
  lemma WholeSupply()
    ensures Reserve(PUBLIC_SUPPLY) == 59_818_500
  {
    ReserveAtStair(STAGE_COUNT);
  }
}
