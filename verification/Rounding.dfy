/** Ceiling division, the only rounding the curve uses, and the truncating division of the
    fee and supply arithmetic. */
module Rounding {

  /** Non-positive numerators cost nothing; otherwise the least r with n <= r * d. */
  function CeilDiv(n: int, d: int): (r: nat)
    requires d > 0
    ensures n <= 0 ==> r == 0
    ensures n > 0 ==> (r - 1) * d < n <= r * d
  {
    if n <= 0 then 0
    else
      var q := (n + d - 1) / d;
      assert q * d <= n + d - 1 < q * d + d by { DivBounds(n + d - 1, d); }
      assert (q - 1) * d == q * d - d;
      assert q >= 0 by { if q < 0 { MulMono(q, -1, d); } }
      q
  }

  lemma DivBounds(n: int, d: int)
    requires d > 0
    ensures (n / d) * d <= n < (n / d) * d + d
  {
  }

  lemma MulMono(a: int, b: int, d: int)
    requires a <= b && d >= 0
    ensures a * d <= b * d
  {
  }

  /** The bounds determine the quotient. */
  lemma CeilDivUnique(n: int, d: int, r: int)
    requires d > 0 && n > 0
    requires (r - 1) * d < n <= r * d
    ensures r == CeilDiv(n, d)
  {
    var c := CeilDiv(n, d);
    if r < c {
      MulMono(r, c - 1, d);
    } else if c < r {
      MulMono(c, r - 1, d);
    }
  }

  lemma CeilDivMono(a: int, b: int, d: int)
    requires d > 0 && a <= b
    ensures CeilDiv(a, d) <= CeilDiv(b, d)
  {
    var x, y := CeilDiv(a, d), CeilDiv(b, d);
    if a > 0 && y < x {
      MulMono(y, x - 1, d);
    }
  }

  /** A part that is a whole number of units is carried out of the rounding exactly. */
  lemma CeilDivExact(k: nat, b: nat, d: int)
    requires d > 0
    ensures CeilDiv(k * d + b, d) == k + CeilDiv(b, d)
  {
    assert k * d >= 0 by { MulMono(0, k, d); }
    if b > 0 {
      var y := CeilDiv(b, d);
      assert (k + y - 1) * d == k * d + (y - 1) * d;
      assert (k + y) * d == k * d + y * d;
      CeilDivUnique(k * d + b, d, k + y);
    } else if k > 0 {
      assert (k - 1) * d == k * d - d;
      assert k * d > 0 by { MulMono(1, k, d); }
      CeilDivUnique(k * d, d, k);
    }
  }

  /** Rounding two parts separately costs at most one unit more than rounding the whole. */
  lemma CeilDivSplit(a: nat, b: nat, d: int)
    requires d > 0
    ensures CeilDiv(a + b, d) <= CeilDiv(a, d) + CeilDiv(b, d) <= CeilDiv(a + b, d) + 1
  {
    hide CeilDiv;
    DivMod(a, d);
    DivMod(b, d);
    QuotientsCarryOut(a / d, a % d, b / d, b % d, d);
  }

  /** Exactly when splitting loses a unit: both parts leave a remainder, and together they fit in one. */
  lemma CeilDivSplitLoses(a: nat, b: nat, d: int)
    requires d > 0
    ensures CeilDiv(a, d) + CeilDiv(b, d) == CeilDiv(a + b, d) + 1
            <==> a % d > 0 && b % d > 0 && a % d + b % d <= d
  {
    hide CeilDiv;
    var qa, ra, qb, rb := a / d, a % d, b / d, b % d;
    DivMod(a, d);
    DivMod(b, d);
    QuotientsCarryOut(qa, ra, qb, rb, d);
  }

  lemma DivMod(a: nat, d: int)
    requires d > 0
    ensures a / d >= 0 && 0 <= a % d < d && a == (a / d) * d + a % d
  {
  }

  /** Whole units leave the rounding; what is left rounds to at most two units. */
  lemma QuotientsCarryOut(qa: nat, ra: nat, qb: nat, rb: nat, d: int)
    requires ra < d && rb < d
    ensures CeilDiv(qa * d + ra, d) == qa + if ra == 0 then 0 else 1
    ensures CeilDiv(qb * d + rb, d) == qb + if rb == 0 then 0 else 1
    ensures CeilDiv(qa * d + ra + (qb * d + rb), d)
            == qa + qb + if ra + rb == 0 then 0 else if ra + rb <= d then 1 else 2
  {
    hide CeilDiv;
    CeilDivExact(qa, ra, d);
    CeilDivExact(qb, rb, d);
    assert qa * d + ra + (qb * d + rb) == (qa + qb) * d + (ra + rb);
    CeilDivExact(qa + qb, ra + rb, d);
    SmallCeil(ra, d);
    SmallCeil(rb, d);
    SmallCeil(ra + rb, d);
  }

  lemma SmallCeil(r: nat, d: int)
    requires d > 0 && r <= 2 * d
    ensures CeilDiv(r, d) == if r == 0 then 0 else if r <= d then 1 else 2
  {
    if 0 < r <= d {
      CeilDivUnique(r, d, 1);
    } else if r > d {
      CeilDivUnique(r, d, 2);
    }
  }

  /** Integer division rounding toward zero. */
  function TruncDiv(a: int, b: int): int
    requires b > 0
  {
    if a >= 0 then a / b else -((-a) / b)
  }
}
