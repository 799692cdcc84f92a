/** The four bonding-curve candidates. The live one is a staircase of 210 even
    stairs, priced stair by stair with a round-up in each; the other three are
    closed forms rounded up once per smooth segment. */
module Curve {
  import opened Wrappers
  import opened Constants
  import opened Rounding

  const PRICE_UNIT: nat := 1_000_000
  const LOT_BASE_SATS: nat := 27
  const LOT_STEP_SATS: nat := 27

  datatype CurveError = BeyondSupply

  function Min(a: int, b: int): int { if a < b then a else b }

  // ── Staircase ────────────────────────────────────────────────────────────

  /** Sats per million tokens on a zero-based stair. */
  function StagePrice(stage: nat): (p: nat)
    ensures p % 1000 == 0 && p >= 27_000
  {
    (LOT_BASE_SATS + LOT_STEP_SATS * stage) * (PRICE_UNIT / LOT_TOKENS)
  }

  function StageAt(supply: nat): (stage: nat)
    ensures stage < STAGE_COUNT
    ensures supply < PUBLIC_SUPPLY ==> stage * TOKENS_PER_STAGE <= supply < (stage + 1) * TOKENS_PER_STAGE
  {
    if supply >= PUBLIC_SUPPLY then STAGE_COUNT - 1 else supply / TOKENS_PER_STAGE
  }

  /** Tokens left on the stair that sells the next token. */
  function RoomAt(supply: nat): (room: nat)
    requires supply < PUBLIC_SUPPLY
    ensures 0 < room <= TOKENS_PER_STAGE && supply + room <= PUBLIC_SUPPLY
    ensures (supply + room) % TOKENS_PER_STAGE == 0
  {
    (StageAt(supply) + 1) * TOKENS_PER_STAGE - supply
  }

  function PriceAt(supply: nat): nat {
    StagePrice(StageAt(supply))
  }

  /** The price integral: the price summed token by token, in millionths of a sat. */
  function Area(supply: nat, amount: nat): nat
    decreases amount
  {
    if amount == 0 then 0 else PriceAt(supply) + Area(supply + 1, amount - 1)
  }

  function ChunkCost(supply: nat, chunk: nat): nat {
    CeilDiv(Area(supply, chunk), PRICE_UNIT)
  }

  /** What the staircase charges for `amount` tokens from `supply`: the price
      integral over each stair touched, rounded up stair by stair. */
  function StairCost(supply: nat, amount: nat): nat
    requires supply + amount <= PUBLIC_SUPPLY
    decreases amount
  {
    if amount == 0 then 0
    else
      var chunk := Min(amount, RoomAt(supply));
      ChunkCost(supply, chunk) + StairCost(supply + chunk, amount - chunk)
  }

  /** The pricing loop. It refuses exactly the purchases that run past the public supply. */
  method StairCostToBuy(supply: nat, amount: int) returns (r: Result<nat, CurveError>)
    ensures r.Err? <==> amount > 0 && supply + amount > PUBLIC_SUPPLY
    ensures r.Ok? ==> r.value == if amount <= 0 then 0 else StairCost(supply, amount)
  {
    hide Area, CeilDiv;
    var remaining, s, cost := amount, supply, 0;
    while remaining > 0
      invariant supply <= s && s + remaining == supply + amount
      invariant amount >= 0 ==> remaining >= 0
      invariant amount > 0 && supply + amount <= PUBLIC_SUPPLY ==>
                  cost + StairCost(s, remaining) == StairCost(supply, amount)
      invariant cost >= 0 && (amount <= 0 ==> cost == 0)
      invariant s <= PUBLIC_SUPPLY || s == supply
      decreases remaining
    {
      var stage := StageAt(s);
      var stageEnd := (stage + 1) * TOKENS_PER_STAGE;
      var inStage := stageEnd - s;
      var chunk := if remaining < inStage then remaining else inStage;
      if chunk <= 0 {
        assert s >= PUBLIC_SUPPLY;
        return Err(BeyondSupply);
      }
      cost := cost + CeilDiv(chunk * StagePrice(stage), PRICE_UNIT);
      if s < PUBLIC_SUPPLY {
        AreaInStair(s, chunk);
        if s + remaining <= PUBLIC_SUPPLY {
          StairStep(s, remaining, chunk);
        }
      }
      s := s + chunk;
      remaining := remaining - chunk;
    }
    r := Ok(cost);
  }

  // ── The walk against the price integral ──────────────────────────────────

  lemma {:induction false} AreaSplit(supply: nat, a: nat, b: nat)
    ensures Area(supply, a + b) == Area(supply, a) + Area(supply + a, b)
    decreases a
  {
    hide PriceAt;
    if a > 0 {
      AreaSplit(supply + 1, a - 1, b);
      assert a + b - 1 == (a - 1) + b;
    }
  }

  lemma WalkEmpty(supply: nat)
    ensures Area(supply, 0) == 0
    ensures supply <= PUBLIC_SUPPLY ==> StairCost(supply, 0) == 0
  {
  }

  lemma SameStair(supply: nat, k: nat)
    requires supply < PUBLIC_SUPPLY && k < RoomAt(supply)
    ensures StageAt(supply + k) == StageAt(supply)
    ensures RoomAt(supply + k) == RoomAt(supply) - k
  {
    StageUnique(supply + k, StageAt(supply));
  }

  lemma StageUnique(supply: nat, stage: nat)
    requires stage * TOKENS_PER_STAGE <= supply < (stage + 1) * TOKENS_PER_STAGE
    requires supply < PUBLIC_SUPPLY
    ensures StageAt(supply) == stage
  {
  }

  lemma {:induction false} AreaInStair(supply: nat, chunk: nat)
    requires supply < PUBLIC_SUPPLY && chunk <= RoomAt(supply)
    ensures Area(supply, chunk) == chunk * PriceAt(supply)
    decreases chunk
  {
    if chunk == 0 {
    } else if chunk == 1 {
      assert Area(supply + 1, 0) == 0;
    } else {
      SameStair(supply, 1);
      AreaInStair(supply + 1, chunk - 1);
      assert chunk * PriceAt(supply) == PriceAt(supply) + (chunk - 1) * PriceAt(supply);
    }
  }

  /** A chunk made of whole lots costs a whole number of sats. */
  lemma LotsAreExact(chunk: nat, stage: nat)
    requires chunk % LOT_TOKENS == 0
    ensures chunk * StagePrice(stage) == (chunk / LOT_TOKENS * (LOT_BASE_SATS + LOT_STEP_SATS * stage)) * PRICE_UNIT
  {
    LotProduct(chunk / LOT_TOKENS, LOT_BASE_SATS + LOT_STEP_SATS * stage);
  }

  lemma LotProduct(lots: nat, lotPrice: nat)
    ensures (lots * 1000) * (lotPrice * 1000) == (lots * lotPrice) * 1_000_000
  {
  }

  /** What whole lots cost on the stair at `supply`, with nothing rounded. */
  function ExactChunk(supply: nat, chunk: nat): nat {
    chunk / LOT_TOKENS * (LOT_BASE_SATS + LOT_STEP_SATS * StageAt(supply))
  }

  lemma ChunkOfLots(supply: nat, chunk: nat)
    requires supply < PUBLIC_SUPPLY && chunk <= RoomAt(supply) && WholeLots(chunk)
    ensures ChunkCost(supply, chunk) == ExactChunk(supply, chunk)
    ensures Area(supply, chunk) == ExactChunk(supply, chunk) * PRICE_UNIT
  {
    AreaInStair(supply, chunk);
    LotsAreExact(chunk, StageAt(supply));
    CeilDivExact(ExactChunk(supply, chunk), 0, PRICE_UNIT);
  }

  /** One turn of the walk. */
  lemma StairStep(supply: nat, amount: nat, chunk: nat)
    requires supply + amount <= PUBLIC_SUPPLY && 0 < amount
    requires chunk == Min(amount, RoomAt(supply))
    ensures StairCost(supply, amount) == ChunkCost(supply, chunk) + StairCost(supply + chunk, amount - chunk)
  {
    hide Area, CeilDiv, PriceAt;
  }

  /** From the foot of a stair the walk is exactly the price integral, rounded up once. */
  lemma {:induction false} StairFromBoundary(supply: nat, amount: nat)
    requires supply + amount <= PUBLIC_SUPPLY
    requires supply % TOKENS_PER_STAGE == 0
    ensures StairCost(supply, amount) == CeilDiv(Area(supply, amount), PRICE_UNIT)
    decreases amount
  {
    hide Area, CeilDiv, PriceAt;
    WalkEmpty(supply + amount);
    if amount == 0 {
    } else if amount <= RoomAt(supply) {
      StairStep(supply, amount, amount);
    } else {
      var room := RoomAt(supply);
      StairStep(supply, amount, room);
      StairFromBoundary(supply + room, amount - room);
      AreaSplit(supply, room, amount - room);
      BoundaryRoom(supply);
      ChunkOfLots(supply, room);
      CeilDivExact(ExactChunk(supply, room), Area(supply + room, amount - room), PRICE_UNIT);
    }
  }

  lemma BoundaryRoom(supply: nat)
    requires supply < PUBLIC_SUPPLY
    ensures WholeLots(supply) ==> WholeLots(RoomAt(supply))
    ensures supply % TOKENS_PER_STAGE == 0 ==> RoomAt(supply) == TOKENS_PER_STAGE && WholeLots(RoomAt(supply))
  {
  }

  /** The price integral from an arbitrary supply, cut where the current stair ends. */
  function HeadArea(supply: nat, amount: nat): nat
    requires supply + amount <= PUBLIC_SUPPLY && supply < PUBLIC_SUPPLY
  {
    Area(supply, Min(amount, RoomAt(supply)))
  }

  function TailArea(supply: nat, amount: nat): nat
    requires supply + amount <= PUBLIC_SUPPLY && supply < PUBLIC_SUPPLY
  {
    var head := Min(amount, RoomAt(supply));
    Area(supply + head, amount - head)
  }

  lemma StairIsHeadPlusTail(supply: nat, amount: nat)
    requires supply + amount <= PUBLIC_SUPPLY && supply < PUBLIC_SUPPLY
    ensures Area(supply, amount) == HeadArea(supply, amount) + TailArea(supply, amount)
    ensures StairCost(supply, amount)
            == CeilDiv(HeadArea(supply, amount), PRICE_UNIT) + CeilDiv(TailArea(supply, amount), PRICE_UNIT)
  {
    hide Area, CeilDiv, StairCost, RoomAt, StageAt, ChunkCost;
    var head := Min(amount, RoomAt(supply));
    AreaSplit(supply, head, amount - head);
    if amount == 0 {
      WalkEmpty(supply);
    } else {
      StairStep(supply, amount, head);
      ChunkIsCeil(supply, head);
      if head < amount {
        StairFromBoundary(supply + head, amount - head);
      } else {
        WalkEmpty(supply + amount);
      }
    }
  }

  lemma ChunkIsCeil(supply: nat, chunk: nat)
    ensures ChunkCost(supply, chunk) == CeilDiv(Area(supply, chunk), PRICE_UNIT)
  {
  }

  /** The documented contract of costToBuy (the exact integral, rounded up once)
      fails by one sat exactly when the purchase crosses a stair edge and the
      fractions left on both sides of that edge would have fitted in one sat. */
  lemma FreshWalkOvercharges(supply: nat, amount: nat)
    requires supply + amount <= PUBLIC_SUPPLY && supply < PUBLIC_SUPPLY
    ensures CeilDiv(Area(supply, amount), PRICE_UNIT) <= StairCost(supply, amount)
            <= CeilDiv(Area(supply, amount), PRICE_UNIT) + 1
    ensures StairCost(supply, amount) == CeilDiv(Area(supply, amount), PRICE_UNIT) + 1
            <==> var h, t := HeadArea(supply, amount) % PRICE_UNIT, TailArea(supply, amount) % PRICE_UNIT;
                 h > 0 && t > 0 && h + t <= PRICE_UNIT
  {
    StairIsHeadPlusTail(supply, amount);
    CeilDivSplit(HeadArea(supply, amount), TailArea(supply, amount), PRICE_UNIT);
    CeilDivSplitLoses(HeadArea(supply, amount), TailArea(supply, amount), PRICE_UNIT);
  }

  /** The smallest such purchase: two tokens across the first stair edge. */
  lemma FreshWalkOverchargesWitness(supply: nat)
    requires supply == TOKENS_PER_STAGE - 1
    ensures StairCost(supply, 2) == 2
    ensures CeilDiv(Area(supply, 2), PRICE_UNIT) == 1
  {
    OneToken(supply, 0);
    OneToken(supply + 1, 1);
    CeilDivUnique(27_000, PRICE_UNIT, 1);
    CeilDivUnique(54_000, PRICE_UNIT, 1);
    CeilDivUnique(81_000, PRICE_UNIT, 1);
    hide Area, CeilDiv, StairCost, RoomAt, StageAt, PriceAt;
    AreaSplit(supply, 1, 1);
    StairStep(supply, 2, 1);
    StairStep(supply + 1, 1, 1);
    WalkEmpty(supply + 2);
  }

  lemma OneToken(supply: nat, stage: nat)
    requires supply < PUBLIC_SUPPLY && stage * TOKENS_PER_STAGE <= supply < (stage + 1) * TOKENS_PER_STAGE
    ensures Area(supply, 1) == StagePrice(stage)
    ensures RoomAt(supply) == (stage + 1) * TOKENS_PER_STAGE - supply
  {
    hide Area;
    StageUnique(supply, stage);
    AreaInStair(supply, 1);
  }

  // ── The three closed-form curves ─────────────────────────────────────────

  const P0: nat := 500
  const P1: nat := 150_000
  const RAMP: nat := P1 - P0
  const KINK: nat := PUBLIC_SUPPLY / 2
  const SEG0_START: nat := 500
  const SEG0_END: nat := 20_000
  const SEG1_START: nat := 20_000
  const SEG1_END: nat := 150_000

  /** Twice-the-integral numerator of a linear price: start at `base`, rise `rise` over `len`. */
  function RampNumerator(base: nat, rise: nat, len: nat, s: nat, n: nat): nat {
    base * n * 2 * len + rise * (n * n + 2 * s * n)
  }

  function LinearCost(s: nat, n: nat): nat {
    CeilDiv(RampNumerator(P0, RAMP, PUBLIC_SUPPLY, s, n), 2 * PUBLIC_SUPPLY * PRICE_UNIT)
  }

  function CubicNumerator(s: nat, n: nat): int {
    P0 * n * 3 * PUBLIC_SUPPLY * PUBLIC_SUPPLY + RAMP * ((s + n) * (s + n) * (s + n) - s * s * s)
  }

  function QuadraticCost(s: nat, n: nat): nat {
    CeilDiv(CubicNumerator(s, n), 3 * PUBLIC_SUPPLY * PUBLIC_SUPPLY * PRICE_UNIT)
  }

  function TwoSegmentCost(supply: nat, amount: nat): nat {
    var end := supply + amount;
    var s0, e0 := Min(supply, KINK), Min(end, KINK);
    var low := if e0 > s0
               then CeilDiv(RampNumerator(SEG0_START, SEG0_END - SEG0_START, KINK, s0, e0 - s0), 2 * KINK * PRICE_UNIT)
               else 0;
    if end > KINK then
      var s1 := if supply < KINK then KINK else supply;
      low + CeilDiv(RampNumerator(SEG1_START, SEG1_END - SEG1_START, PUBLIC_SUPPLY - KINK, s1 - KINK, end - s1),
                    2 * (PUBLIC_SUPPLY - KINK) * PRICE_UNIT)
    else low
  }

  datatype CurveId = Stairs210 | LinearRamp | Quadratic | TwoSegmentLinear

  /** Only the staircase refuses to price past the public supply. */
  predicate Priceable(c: CurveId, supply: nat, amount: nat) {
    c.Stairs210? ==> supply + amount <= PUBLIC_SUPPLY
  }

  function CostToBuy(c: CurveId, supply: nat, amount: nat): nat
    requires Priceable(c, supply, amount)
  {
    match c
    case Stairs210 => StairCost(supply, amount)
    case LinearRamp => LinearCost(supply, amount)
    case Quadratic => QuadraticCost(supply, amount)
    case TwoSegmentLinear => TwoSegmentCost(supply, amount)
  }

  /** The area under a line that rises by `rise` over `len`, token by token: each token at its
      midpoint price, in units of 1 / (2 len). */
  function RampArea(base: nat, rise: nat, len: nat, s: nat, n: nat): nat
    decreases n
  {
    if n == 0 then 0 else base * (2 * len) + rise * (2 * s + 1) + RampArea(base, rise, len, s + 1, n - 1)
  }

  /** The numerator of the closed form is that area. */
  lemma {:induction false} RampIsArea(base: nat, rise: nat, len: nat, s: nat, n: nat)
    ensures RampNumerator(base, rise, len, s, n) == RampArea(base, rise, len, s, n)
    decreases n
  {
    if n == 0 {
      assert base * 0 * 2 * len == 0;
    } else {
      RampNumeratorSplit(base, rise, len, s, 1, n - 1);
      RampIsArea(base, rise, len, s + 1, n - 1);
      assert base * 1 * 2 * len == base * (2 * len);
      assert 1 * 1 + 2 * s * 1 == 2 * s + 1;
    }
  }

  /** The area under the square, token by token, in units of 1 / (3 S²). */
  function SquareArea(s: nat, n: nat): nat
    decreases n
  {
    if n == 0 then 0
    else
      var unit := 3 * PUBLIC_SUPPLY * PUBLIC_SUPPLY;
      500 * unit + 149_500 * (3 * s * s + 3 * s + 1) + SquareArea(s + 1, n - 1)
  }

  lemma {:induction false} CubicIsArea(s: nat, n: nat)
    ensures CubicNumerator(s, n) == SquareArea(s, n)
    decreases n
  {
    if n == 0 {
      assert s + 0 == s;
    } else {
      CubicNumeratorSplit(s, 1, n - 1);
      CubeOfNext(s);
      hide CubicNumerator;
      CubicIsArea(s + 1, n - 1);
    }
  }

  lemma CubeOfNext(s: nat)
    ensures CubicNumerator(s, 1) == 500 * (3 * PUBLIC_SUPPLY * PUBLIC_SUPPLY) + 149_500 * (3 * s * s + 3 * s + 1)
  {
    var square := s * s;
    assert (s + 1) * (s + 1) == square + 2 * s + 1;
    assert (square + 2 * s + 1) * (s + 1) == square * s + 3 * square + 3 * s + 1;
    assert 3 * s * s == 3 * square;
  }

  /** What the three closed forms charge: the area under their price from 500 to 150,000 sats a million,
      rounded up once, and on the two-segment curve once on each side of the kink at 20,000. */
  lemma ClosedFormsAreAreas(s: nat, n: nat)
    ensures CostToBuy(LinearRamp, s, n)
            == CeilDiv(RampArea(500, 149_500, 21_000_000, s, n), 2 * 21_000_000 * 1_000_000)
    ensures CostToBuy(Quadratic, s, n) == CeilDiv(SquareArea(s, n), 3 * 21_000_000 * 21_000_000 * 1_000_000)
    ensures var half := 10_500_000;
            var end := s + n;
            CostToBuy(TwoSegmentLinear, s, n) ==
            (if s < half then CeilDiv(RampArea(500, 19_500, half, s, Min(end, half) - s), 2 * half * 1_000_000) else 0)
            + (if end > half
               then CeilDiv(RampArea(20_000, 130_000, half, if s < half then 0 else s - half,
                                     if s < half then end - half else n), 2 * half * 1_000_000)
               else 0)
  {
    hide CeilDiv, RampNumerator, RampArea, SquareArea, CubicNumerator;
    RampIsArea(500, 149_500, 21_000_000, s, n);
    CubicIsArea(s, n);
    var half := 10_500_000;
    var end := s + n;
    if s < half {
      RampIsArea(500, 19_500, half, s, Min(end, half) - s);
      NothingCostsNothing(s);
    }
    if end > half {
      RampIsArea(20_000, 130_000, half, if s < half then 0 else s - half, if s < half then end - half else n);
    }
  }

  lemma NothingCostsNothing(s: nat)
    ensures CeilDiv(RampArea(500, 19_500, 10_500_000, s, 0), 2 * 10_500_000 * 1_000_000) == 0
  {
  }

  lemma RampNumeratorSplit(base: nat, rise: nat, len: nat, s: nat, a: nat, b: nat)
    ensures RampNumerator(base, rise, len, s, a + b)
            == RampNumerator(base, rise, len, s, a) + RampNumerator(base, rise, len, s + a, b)
  {
    var u, v := a * a + 2 * s * a, b * b + 2 * (s + a) * b;
    assert (a + b) * (a + b) + 2 * s * (a + b) == u + v;
    assert rise * (u + v) == rise * u + rise * v;
    assert base * (a + b) * 2 * len == base * a * 2 * len + base * b * 2 * len;
  }

  lemma CubicNumeratorSplit(s: nat, a: nat, b: nat)
    ensures CubicNumerator(s, a + b) == CubicNumerator(s, a) + CubicNumerator(s + a, b)
    ensures CubicNumerator(s, a) >= 0
  {
    var x, y, z := s * s * s, (s + a) * (s + a) * (s + a), (s + a + b) * (s + a + b) * (s + a + b);
    assert s + (a + b) == s + a + b;
    CubeMono(s, s + a);
  }

  lemma CubeMono(x: nat, y: nat)
    requires x <= y
    ensures x * x * x <= y * y * y
  {
    assert x * x <= y * y by { MulMono(x, y, x); MulMono(x, y, y); }
    MulMono(x * x, y * y, x);
    assert y * y * x <= y * y * y by { MulMono(x, y, y * y); }
  }

  // ── Splitting one purchase ───────────────────────────────────────────────

  lemma {:induction false} StairSplit(s: nat, a: nat, b: nat)
    requires s + a + b <= PUBLIC_SUPPLY
    ensures StairCost(s, a + b) <= StairCost(s, a) + StairCost(s + a, b) <= StairCost(s, a + b) + 1
    decreases a
  {
    hide Area, CeilDiv, StairCost, RoomAt, StageAt, ChunkCost;
    WalkEmpty(s);
    WalkEmpty(s + a);
    if a == 0 || b == 0 {
      assert a + 0 == a && 0 + b == b;
    } else {
      var room := RoomAt(s);
      if a >= room {
        StairStep(s, a, room);
        StairStep(s, a + b, room);
        StairSplit(s + room, a - room, b);
        assert s + room + (a - room) == s + a;
        assert (a - room) + b == a + b - room;
      } else {
        SplitInsideStair(s, a, b);
      }
    }
  }

  lemma SplitInsideStair(s: nat, a: nat, b: nat)
    requires s + a + b <= PUBLIC_SUPPLY
    requires 0 < b && s < PUBLIC_SUPPLY && 0 < a < RoomAt(s)
    ensures StairCost(s, a + b) <= StairCost(s, a) + StairCost(s + a, b) <= StairCost(s, a + b) + 1
  {
    hide Area, CeilDiv, StairCost, RoomAt, StageAt, ChunkCost;
    SameStair(s, a);
    var second := Min(b, RoomAt(s) - a);
    WalkEmpty(s + a);
    StairStep(s, a, a);
    StairStep(s, a + b, a + second);
    StairStep(s + a, b, second);
    assert s + (a + second) == s + a + second && a + b - (a + second) == b - second;
    ChunkIsCeil(s, a);
    ChunkIsCeil(s + a, second);
    ChunkIsCeil(s, a + second);
    AreaSplit(s, a, second);
    CeilDivSplit(Area(s, a), Area(s + a, second), PRICE_UNIT);
  }

  lemma TwoSegmentSplit(s: nat, a: nat, b: nat)
    ensures TwoSegmentCost(s, a + b) <= TwoSegmentCost(s, a) + TwoSegmentCost(s + a, b) <= TwoSegmentCost(s, a + b) + 1
  {
    hide CeilDiv, RampNumerator;
    var m := s + a;
    if m <= KINK {
      var e := Min(m + b, KINK);
      LowSegmentSplit(Min(s, KINK), m - Min(s, KINK), e - m);
    } else {
      var s1 := if s < KINK then KINK else s;
      HighSegmentSplit(s1 - KINK, m - s1, b);
    }
  }

  lemma LowSegmentSplit(s: nat, a: nat, b: nat)
    ensures var d := 2 * KINK * PRICE_UNIT;
            var whole := CeilDiv(RampNumerator(SEG0_START, SEG0_END - SEG0_START, KINK, s, a + b), d);
            whole <= CeilDiv(RampNumerator(SEG0_START, SEG0_END - SEG0_START, KINK, s, a), d)
                     + CeilDiv(RampNumerator(SEG0_START, SEG0_END - SEG0_START, KINK, s + a, b), d) <= whole + 1
  {
    RampNumeratorSplit(SEG0_START, SEG0_END - SEG0_START, KINK, s, a, b);
    CeilDivSplit(RampNumerator(SEG0_START, SEG0_END - SEG0_START, KINK, s, a),
                 RampNumerator(SEG0_START, SEG0_END - SEG0_START, KINK, s + a, b), 2 * KINK * PRICE_UNIT);
  }

  lemma HighSegmentSplit(s: nat, a: nat, b: nat)
    ensures var len := PUBLIC_SUPPLY - KINK;
            var d := 2 * len * PRICE_UNIT;
            var whole := CeilDiv(RampNumerator(SEG1_START, SEG1_END - SEG1_START, len, s, a + b), d);
            whole <= CeilDiv(RampNumerator(SEG1_START, SEG1_END - SEG1_START, len, s, a), d)
                     + CeilDiv(RampNumerator(SEG1_START, SEG1_END - SEG1_START, len, s + a, b), d) <= whole + 1
  {
    var len := PUBLIC_SUPPLY - KINK;
    RampNumeratorSplit(SEG1_START, SEG1_END - SEG1_START, len, s, a, b);
    CeilDivSplit(RampNumerator(SEG1_START, SEG1_END - SEG1_START, len, s, a),
                 RampNumerator(SEG1_START, SEG1_END - SEG1_START, len, s + a, b), 2 * len * PRICE_UNIT);
  }

  /** Cutting one purchase in two never makes it cheaper and adds at most one sat, on every curve. */
  lemma SplitInTwo(c: CurveId, s: nat, a: nat, b: nat)
    requires Priceable(c, s, a + b)
    ensures CostToBuy(c, s, a + b) <= CostToBuy(c, s, a) + CostToBuy(c, s + a, b) <= CostToBuy(c, s, a + b) + 1
  {
    match c
    case Stairs210 => StairSplit(s, a, b);
    case LinearRamp =>
      RampNumeratorSplit(P0, RAMP, PUBLIC_SUPPLY, s, a, b);
      CeilDivSplit(RampNumerator(P0, RAMP, PUBLIC_SUPPLY, s, a), RampNumerator(P0, RAMP, PUBLIC_SUPPLY, s + a, b),
                   2 * PUBLIC_SUPPLY * PRICE_UNIT);
    case Quadratic =>
      CubicNumeratorSplit(s, a, b);
      CubicNumeratorSplit(s + a, b, 0);
      CeilDivSplit(CubicNumerator(s, a), CubicNumerator(s + a, b), 3 * PUBLIC_SUPPLY * PUBLIC_SUPPLY * PRICE_UNIT);
    case TwoSegmentLinear => TwoSegmentSplit(s, a, b);
  }

  function Sum(parts: seq<nat>): nat {
    if parts == [] then 0 else parts[0] + Sum(parts[1..])
  }

  /** Buying the parts one after another, each priced from where the last one ended. */
  function SplitCost(c: CurveId, s: nat, parts: seq<nat>): nat
    requires Priceable(c, s, Sum(parts))
    decreases |parts|
  {
    if parts == [] then 0
    else CostToBuy(c, s, parts[0]) + SplitCost(c, s + parts[0], parts[1..])
  }

  /** k consecutive parts cost between the single price and the single price plus k - 1 sats. */
  lemma {:induction false} SplitDrift(c: CurveId, s: nat, parts: seq<nat>)
    requires |parts| > 0
    requires Priceable(c, s, Sum(parts))
    ensures CostToBuy(c, s, Sum(parts)) <= SplitCost(c, s, parts) <= CostToBuy(c, s, Sum(parts)) + |parts| - 1
    decreases |parts|
  {
    hide CostToBuy;
    var rest := parts[1..];
    if rest == [] {
      assert Sum(rest) == 0 && SplitCost(c, s + parts[0], rest) == 0;
    } else {
      SplitDrift(c, s + parts[0], rest);
      SplitInTwo(c, s, parts[0], Sum(rest));
    }
  }

  // ── Whole lots ───────────────────────────────────────────────────────────

  predicate WholeLots(n: int) {
    n % LOT_TOKENS == 0
  }

  lemma {:induction false} AreaOfLots(supply: nat, amount: nat)
    requires supply + amount <= PUBLIC_SUPPLY
    requires WholeLots(supply) && WholeLots(amount)
    ensures Area(supply, amount) == StairCost(supply, amount) * PRICE_UNIT
    decreases amount
  {
    hide Area, CeilDiv, StairCost, RoomAt, StageAt, ChunkCost, WholeLots, ExactChunk;
    WalkEmpty(supply);
    if amount > 0 {
      var chunk := Min(amount, RoomAt(supply));
      BoundaryRoom(supply);
      LotSums(supply, chunk, 0);
      LotSums(amount, chunk, 0);
      StairStep(supply, amount, chunk);
      AreaOfLots(supply + chunk, amount - chunk);
      AreaSplit(supply, chunk, amount - chunk);
      ChunkOfLots(supply, chunk);
    }
  }

  /** On whole lots nothing is ever rounded, so splitting changes nothing. */
  lemma LotSplitIsExact(s: nat, a: nat, b: nat)
    requires s + a + b <= PUBLIC_SUPPLY
    requires WholeLots(s) && WholeLots(a) && WholeLots(b)
    ensures StairCost(s, a + b) == StairCost(s, a) + StairCost(s + a, b)
  {
    hide Area, StairCost, WholeLots;
    LotSums(s, a, b);
    AreaOfLots(s, a);
    AreaOfLots(s + a, b);
    AreaOfLots(s, a + b);
    AreaSplit(s, a, b);
  }

  lemma LotSums(s: int, a: int, b: int)
    requires WholeLots(s) && WholeLots(a) && WholeLots(b)
    ensures WholeLots(s + a) && WholeLots(a + b) && WholeLots(s - a)
  {
  }

  /** Price of the lot that starts at lot number `lot`. */
  function LotPrice(lot: nat): nat {
    LOT_BASE_SATS + LOT_STEP_SATS * (lot / 100)
  }

  lemma OneLot(lot: nat)
    requires (lot + 1) * LOT_TOKENS <= PUBLIC_SUPPLY
    ensures StairCost(lot * LOT_TOKENS, LOT_TOKENS) == LotPrice(lot)
  {
    var s := lot * LOT_TOKENS;
    assert s / TOKENS_PER_STAGE == lot / 100;
    BoundaryRoom(s);
    assert RoomAt(s) >= LOT_TOKENS;
    StairStep(s, LOT_TOKENS, LOT_TOKENS);
    ChunkOfLots(s, LOT_TOKENS);
  }
}
