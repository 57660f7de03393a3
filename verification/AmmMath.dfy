/** The arithmetic of the constant-product exchange: `Permill` rounding, quotes in both directions, and
    the integer square root. Amounts are unbounded integers with explicit conversions back to `u128`. */
module AmmMath {
  import opened Base

  const MILLION: nat := 1_000_000

  // ---------- rounding ----------

  function Mul(x: nat, y: nat): nat {
    x * y
  }

  /** A product divided and rounded down, through an unbounded intermediate. */
  function MulDiv(x: nat, y: nat, d: nat): nat
    requires d > 0
  {
    (x * y) / d
  }

  /** `Permill::mul_ceil`. */
  function MulCeil(parts: nat, x: nat): nat {
    CeilDiv(x * parts, MILLION)
  }

  /** `Permill::saturating_reciprocal_mul_ceil`; dividing by zero parts is outside its domain. */
  function ReciprocalMulCeil(parts: nat, x: nat): nat
    requires parts > 0
  {
    Min(CeilDiv(x * MILLION, parts), U128_MAX)
  }

  /** The truncated square root of a big integer, counted down from a bound. */
  function SqrtBelow(n: nat, bound: nat): nat {
    if bound * bound <= n || bound == 0 then bound else SqrtBelow(n, bound - 1)
  }

  function Sqrt(n: nat): nat {
    SqrtBelow(n, n)
  }

  lemma {:induction false} SqrtBelowBounds(n: nat, bound: nat)
    requires n < (bound + 1) * (bound + 1)
    ensures var r := SqrtBelow(n, bound); r * r <= n < (r + 1) * (r + 1)
  {
    if bound > 0 && bound * bound > n {
      SqrtBelowBounds(n, bound - 1);
    }
  }

  lemma SqrtBounds(n: nat)
    ensures Sqrt(n) * Sqrt(n) <= n < (Sqrt(n) + 1) * (Sqrt(n) + 1)
  {
    assert (n + 1) * (n + 1) == n * n + 2 * n + 1;
    SqrtBelowBounds(n, n);
  }

  // ---------- quotes ----------

  /** What a net input buys at the given reserves. */
  function Bought(net: nat, reserveIn: nat, reserveOut: nat): Result<nat> {
    if reserveIn + net == 0 then Err(Underflow) else ToU128(MulDiv(net, reserveOut, reserveIn + net), Overflow)
  }

  function GetAmountOut(fee: nat, amountIn: nat, reserveIn: nat, reserveOut: nat): Result<nat> {
    var net :- CheckedSub(amountIn, MulCeil(fee, amountIn), Underflow);
    Bought(net, reserveIn, reserveOut)
  }

  function GetAmountIn(fee: nat, amountOut: nat, reserveIn: nat, reserveOut: nat): Result<nat>
    requires fee < MILLION
  {
    if amountOut >= reserveOut then Err(InsufficientSupplyOut) else
      var net :- ToU128(MulDiv(reserveIn, amountOut, reserveOut - amountOut), Overflow);
      ToU128(ReciprocalMulCeil(MILLION - fee, net) + 1, Overflow)
  }

  function Quote(baseAmount: nat, basePool: nat, quotePool: nat): Result<nat> {
    if basePool == 0 then Err(Overflow) else ToU128(MulDiv(baseAmount, quotePool, basePool), Overflow)
  }

  // ---------- facts about rounding ----------

  lemma DivBounds(a: nat, b: nat)
    requires b > 0
    ensures b * (a / b) <= a < b * (a / b) + b
  {
  }

  lemma MulMonotone(c: nat, x: nat, y: nat)
    requires x <= y
    ensures c * x <= c * y
  {
  }

  lemma CeilBounds(a: nat, b: nat)
    requires b > 0
    ensures a <= b * CeilDiv(a, b) < a + b
  {
    DivBounds(a + b - 1, b);
  }

  /** A quotient rounded up is the least number whose multiple reaches the dividend. */
  lemma CeilLeast(a: nat, b: nat, x: nat)
    requires b > 0
    ensures CeilDiv(a, b) <= x <==> a <= b * x
  {
    var c := CeilDiv(a, b);
    CeilBounds(a, b);
    if x < c {
      MulMonotone(b, x, c - 1);
    } else {
      MulMonotone(b, c, x);
    }
  }

  /** A quotient rounded down is the greatest number whose multiple stays within the dividend. */
  lemma FloorGreatest(a: nat, b: nat, x: nat)
    requires b > 0
    ensures x <= a / b <==> b * x <= a
  {
    DivBounds(a, b);
    if x <= a / b {
      MulMonotone(b, x, a / b);
    } else {
      MulMonotone(b, a / b + 1, x);
    }
  }

  /** Taking the fee off rounds the remainder down. */
  function Net(fee: nat, x: nat): nat
    requires fee <= MILLION
  {
    x * (MILLION - fee) / MILLION
  }

  lemma NetIsRemainder(fee: nat, x: nat)
    requires fee <= MILLION
    ensures MulCeil(fee, x) <= x && x - MulCeil(fee, x) == Net(fee, x)
  {
    var c := MulCeil(fee, x);
    CeilBounds(x * fee, MILLION);
    assert x * fee <= x * MILLION;
    assert x * (MILLION - fee) == x * MILLION - x * fee;
    CeilLeast(x * fee, MILLION, x);
    DivBounds(x * (MILLION - fee), MILLION);
  }

  // ---------- the two quotes against each other ----------

  /** A trade never empties the other side. */
  lemma OutBelowReserve(net: nat, reserveIn: nat, reserveOut: nat)
    requires reserveIn > 0
    ensures net * reserveOut / (reserveIn + net) <= reserveOut
    ensures reserveOut > 0 ==> net * reserveOut / (reserveIn + net) < reserveOut
  {
    assert net * reserveOut + reserveIn * reserveOut == (reserveIn + net) * reserveOut;
    if reserveOut > 0 {
      assert reserveIn * reserveOut > 0;
    }
    FloorGreatest(net * reserveOut, reserveIn + net, reserveOut);
    FloorGreatest(net * reserveOut, reserveIn + net, reserveOut + 1);
  }

  lemma CrossTerms(net: nat, wanted: nat, reserveIn: nat, reserveOut: nat)
    requires wanted <= reserveOut
    ensures (reserveIn + net) * wanted <= net * reserveOut <==> reserveIn * wanted <= (reserveOut - wanted) * net
  {
    assert (reserveIn + net) * wanted == reserveIn * wanted + net * wanted;
    assert (reserveOut - wanted) * net == net * reserveOut - net * wanted;
  }

  /** What it takes to buy at least `wanted`: a net input of `wanted * reserveIn / (reserveOut - wanted)`,
      rounded up. */
  lemma OutReaches(fee: nat, x: nat, wanted: nat, reserveIn: nat, reserveOut: nat)
    requires fee <= MILLION && reserveIn > 0 && wanted < reserveOut <= U128_MAX
    ensures GetAmountOut(fee, x, reserveIn, reserveOut).Ok?
    ensures GetAmountOut(fee, x, reserveIn, reserveOut).value >= wanted
            <==> Net(fee, x) >= CeilDiv(reserveIn * wanted, reserveOut - wanted)
  {
    NetIsRemainder(fee, x);
    var net := Net(fee, x);
    OutBelowReserve(net, reserveIn, reserveOut);
    FloorGreatest(net * reserveOut, reserveIn + net, wanted);
    CeilLeast(reserveIn * wanted, reserveOut - wanted, net);
    CrossTerms(net, wanted, reserveIn, reserveOut);
  }

  /** The least input that buys at least `wanted`. */
  function LeastIn(fee: nat, wanted: nat, reserveIn: nat, reserveOut: nat): nat
    requires fee < MILLION && wanted < reserveOut
  {
    CeilDiv(CeilDiv(reserveIn * wanted, reserveOut - wanted) * MILLION, MILLION - fee)
  }

  lemma LeastInIsLeast(fee: nat, wanted: nat, reserveIn: nat, reserveOut: nat, x: nat)
    requires fee < MILLION && reserveIn > 0 && wanted < reserveOut <= U128_MAX
    ensures GetAmountOut(fee, x, reserveIn, reserveOut).Ok?
    ensures GetAmountOut(fee, x, reserveIn, reserveOut).value >= wanted
            <==> LeastIn(fee, wanted, reserveIn, reserveOut) <= x
  {
    OutReaches(fee, x, wanted, reserveIn, reserveOut);
    var need := CeilDiv(reserveIn * wanted, reserveOut - wanted);
    FloorGreatest(x * (MILLION - fee), MILLION, need);
    CeilLeast(need * MILLION, MILLION - fee, x);
    assert x * (MILLION - fee) == (MILLION - fee) * x && MILLION * need == need * MILLION;
  }

  /** Rounding the net input down instead of up costs at most one unit of net input. */
  lemma FloorThenCeil(a: nat, b: nat)
    requires b > 0
    ensures a % b == 0 ==> CeilDiv(a, b) == a / b
    ensures a % b != 0 ==> CeilDiv(a, b) == a / b + 1
  {
    CeilLeast(a, b, a / b);
    CeilLeast(a, b, a / b + 1);
    DivBounds(a, b);
    assert a == b * (a / b) + a % b;
  }

  /** One more unit of net input costs one or two more units of input when the fee is at most a half. */
  lemma CeilStep(n: nat, g: nat)
    requires MILLION <= 2 * g && g <= MILLION
    ensures CeilDiv(n * MILLION, g) + 1 <= CeilDiv((n + 1) * MILLION, g) <= CeilDiv(n * MILLION, g) + 2
  {
    var c := CeilDiv(n * MILLION, g);
    CeilBounds(n * MILLION, g);
    assert (n + 1) * MILLION == n * MILLION + MILLION;
    CeilLeast((n + 1) * MILLION, g, c + 2);
    CeilLeast((n + 1) * MILLION, g, c);
    assert g * (c + 2) == g * c + 2 * g;
  }

  /** `get_amount_in` is within one unit, either way, of the least input that buys the wanted amount. */
  lemma AmountInWithinOne(fee: nat, wanted: nat, reserveIn: nat, reserveOut: nat)
    requires 2 * fee <= MILLION && reserveIn > 0 && wanted < reserveOut <= U128_MAX
    requires GetAmountIn(fee, wanted, reserveIn, reserveOut).Ok?
    ensures var asked := GetAmountIn(fee, wanted, reserveIn, reserveOut).value;
            var least := LeastIn(fee, wanted, reserveIn, reserveOut);
            -1 <= asked - least <= 1
  {
    var net := reserveIn * wanted / (reserveOut - wanted);
    FloorThenCeil(reserveIn * wanted, reserveOut - wanted);
    CeilStep(net, MILLION - fee);
  }

  /** Exactly when the asked input falls one short: the net input was rounded, and that unit of net input
      is worth two units of input. */
  lemma AmountInSuffices(fee: nat, wanted: nat, reserveIn: nat, reserveOut: nat)
    requires 2 * fee <= MILLION && reserveIn > 0 && wanted < reserveOut <= U128_MAX
    requires GetAmountIn(fee, wanted, reserveIn, reserveOut).Ok?
    ensures var asked := GetAmountIn(fee, wanted, reserveIn, reserveOut).value;
            var net := reserveIn * wanted / (reserveOut - wanted);
            && GetAmountOut(fee, asked, reserveIn, reserveOut).Ok?
            && (GetAmountOut(fee, asked, reserveIn, reserveOut).value >= wanted <==>
                || reserveIn * wanted % (reserveOut - wanted) == 0
                || CeilDiv((net + 1) * MILLION, MILLION - fee) <= CeilDiv(net * MILLION, MILLION - fee) + 1)
  {
    var asked := GetAmountIn(fee, wanted, reserveIn, reserveOut).value;
    LeastInIsLeast(fee, wanted, reserveIn, reserveOut, asked);
    FloorThenCeil(reserveIn * wanted, reserveOut - wanted);
  }

  /** With a fee of 0.25% and reserves of 1000 and 10000, asking for 2855 quotes 401, which buys 2852. */
  lemma AmountInCanFallShort()
    ensures GetAmountIn(2500, 2855, 1000, 10000) == Ok(401)
    ensures GetAmountOut(2500, 401, 1000, 10000) == Ok(2852)
  {
    assert 1000 * 2855 / (10000 - 2855) == 399;
    assert CeilDiv(399 * MILLION, MILLION - 2500) == 400;
    assert MulCeil(2500, 401) == 2;
    assert 399 * 10000 / (1000 + 399) == 2852;
  }
}
