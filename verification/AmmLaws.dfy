/** Laws of single operations on one pool, over reserves `b` and `q` and liquidity supply `s`. */
module AmmLaws {
  import opened Base
  import opened Assets
  import opened AmmMath
  import opened Amm

  // ---------- swaps ----------

  /** A swap raises the product of the reserves by at least the fee's share of the new reserve. */
  lemma SwapGrowsProduct(fee: nat, amountIn: nat, reserveIn: nat, reserveOut: nat)
    requires fee <= MILLION && reserveIn > 0 && GetAmountOut(fee, amountIn, reserveIn, reserveOut).Ok?
    ensures var out := GetAmountOut(fee, amountIn, reserveIn, reserveOut).value;
            && out <= reserveOut
            && (reserveOut > 0 ==> out < reserveOut)
            && (reserveIn + amountIn) * (reserveOut - out)
               >= reserveIn * reserveOut + MulCeil(fee, amountIn) * (reserveOut - out)
  {
    var net := Net(fee, amountIn);
    NetIsRemainder(fee, amountIn);
    OutBelowReserve(net, reserveIn, reserveOut);
    var out := net * reserveOut / (reserveIn + net);
    DivBounds(net * reserveOut, reserveIn + net);
    ProductSplit(reserveIn, net, MulCeil(fee, amountIn), reserveOut, out);
  }

  lemma ProductSplit(r: nat, net: nat, fees: nat, o: nat, out: nat)
    requires (r + net) * out <= net * o && out <= o
    ensures (r + net + fees) * (o - out) >= r * o + fees * (o - out)
  {
    assert (r + net + fees) * (o - out) == (r + net) * o - (r + net) * out + fees * (o - out);
    assert (r + net) * o == r * o + net * o;
  }

  lemma FeeIsPositive(fee: nat, x: nat)
    requires fee > 0 && x > 0
    ensures MulCeil(fee, x) > 0
  {
    CeilBounds(x * fee, MILLION);
    assert x * fee > 0;
  }

  lemma PositiveProduct(x: nat, y: nat)
    requires x > 0 && y > 0
    ensures x * y > 0
  {
  }

  // ---------- liquidity ----------

  /** No liquidity token loses backing in either asset. */
  predicate SharesKept(b: nat, q: nat, s: nat, b': nat, q': nat, s': nat) {
    b' * s >= b * s' && q' * s >= q * s'
  }

  lemma AddKeepsShares(pool: Pool, supply: nat, base: nat, quote: nat, minLiquidity: nat)
    requires supply > 0 && LiquidityFor(pool, supply, base, quote, minLiquidity).Ok?
    ensures SharesKept(pool.base, pool.quote, supply, pool.base + base, pool.quote + quote,
                       supply + LiquidityFor(pool, supply, base, quote, minLiquidity).value)
  {
    var liquidity := LiquidityFor(pool, supply, base, quote, minLiquidity).value;
    BoughtShares(pool.base, base, supply, liquidity);
    BoughtShares(pool.quote, quote, supply, liquidity);
  }

  lemma BoughtShares(reserve: nat, amount: nat, supply: nat, liquidity: nat)
    requires reserve > 0 && liquidity <= amount * supply / reserve
    ensures (reserve + amount) * supply >= reserve * (supply + liquidity)
  {
    FloorGreatest(amount * supply, reserve, liquidity);
    assert (reserve + amount) * supply == reserve * supply + amount * supply;
    assert reserve * (supply + liquidity) == reserve * supply + reserve * liquidity;
  }

  /** Redeeming part of the supply pays at most its part of a reserve, and never the whole reserve. */
  lemma SoldShares(reserve: nat, supply: nat, liquidity: nat)
    requires supply > 0 && liquidity <= supply
    ensures var amount := liquidity * reserve / supply;
            && amount <= reserve
            && (reserve - amount) * supply >= reserve * (supply - liquidity)
            && (liquidity < supply && reserve > 0 ==> amount < reserve)
  {
    var amount := liquidity * reserve / supply;
    DivBounds(liquidity * reserve, supply);
    MulMonotone(reserve, liquidity, supply);
    FloorGreatest(liquidity * reserve, supply, reserve);
    FloorGreatest(liquidity * reserve, supply, reserve + 1);
    assert supply * (reserve + 1) == supply * reserve + supply;
    assert (reserve - amount) * supply == reserve * supply - supply * amount;
    assert reserve * (supply - liquidity) == reserve * supply - liquidity * reserve;
    if liquidity < supply && reserve > 0 {
      PositiveProduct(reserve, supply - liquidity);
    }
  }

  /** The value of the pool per token pair, `b * q / s^2`, does not fall; cross-multiplied. */
  predicate ValueKept(b: nat, q: nat, s: nat, b': nat, q': nat, s': nat) {
    (b' * q') * (s * s) >= (b * q) * (s' * s')
  }

  lemma SharesKeepValue(b: nat, q: nat, s: nat, b': nat, q': nat, s': nat)
    requires SharesKept(b, q, s, b', q', s')
    ensures ValueKept(b, q, s, b', q', s')
  {
    assert (b' * s) * (q' * s) >= (b * s') * (q * s') by {
      MulMonotone(b' * s, q * s', q' * s);
      MulMonotone(q * s', b * s', b' * s);
    }
    Rearrange(b', q', s);
    Rearrange(b, q, s');
  }

  lemma Rearrange(b: nat, q: nat, s: nat)
    ensures (b * s) * (q * s) == (b * q) * (s * s)
  {
  }

  lemma ValueKeptTransitive(b: nat, q: nat, s: nat, b1: nat, q1: nat, s1: nat, b2: nat, q2: nat, s2: nat)
    requires s > 0 && s1 > 0
    requires ValueKept(b, q, s, b1, q1, s1) && ValueKept(b1, q1, s1, b2, q2, s2)
    ensures ValueKept(b, q, s, b2, q2, s2)
  {
    CrossChain(b * q, s * s, b1 * q1, s1 * s1, b2 * q2, s2 * s2);
  }

  lemma CrossChain(k: nat, d: nat, k1: nat, d1: nat, k2: nat, d2: nat)
    requires d > 0 && d1 > 0 && k1 * d >= k * d1 && k2 * d1 >= k1 * d2
    ensures k2 * d >= k * d2
  {
    assert (k2 * d1) * d >= (k1 * d2) * d by { MulMonotone(d, k1 * d2, k2 * d1); }
    assert (k1 * d) * d2 >= (k * d1) * d2 by { MulMonotone(d2, k * d1, k1 * d); }
    assert (k2 * d) * d1 >= (k * d2) * d1;
    if k2 * d < k * d2 {
      StrictScale(k2 * d, k * d2, d1);
    }
  }

  lemma StrictScale(x: nat, y: nat, d: nat)
    requires x < y && d > 0
    ensures x * d < y * d
  {
  }

  /** A supply within the root of the product stays within it while the value per token does not fall. */
  lemma SupplyWithinRoot(b: nat, q: nat, s: nat, b': nat, q': nat, s': nat)
    requires s > 0 && s * s <= b * q && ValueKept(b, q, s, b', q', s')
    ensures s' * s' <= b' * q'
  {
    MulMonotone(s' * s', s * s, b * q);
    if b' * q' < s' * s' {
      PositiveProduct(s, s);
      StrictScale(b' * q', s' * s', s * s);
    }
  }

  // ---------- protocol fee ----------

  /** The minted fee is at most the agreed part, `1 / (scalar + 1)`, of the growth of the root:
      measured in shares after minting, `fee / (supply + fee) <= growth / (root * (scalar + 1))`. */
  lemma FeeBoundedByGrowth(rootK: nat, rootKLast: nat, supply: nat, protocolFee: nat)
    requires rootK > rootKLast && 0 < protocolFee <= MILLION
    requires FeeForGrowth(rootK, rootKLast, supply, protocolFee).Ok?
    ensures var fee := FeeForGrowth(rootK, rootKLast, supply, protocolFee).value;
            fee * rootK * (MILLION / protocolFee) <= (supply + fee) * (rootK - rootKLast)
  {
    var fee := FeeForGrowth(rootK, rootKLast, supply, protocolFee).value;
    var scalar := MILLION / protocolFee - 1;
    DivBounds((rootK - rootKLast) * supply, rootK * scalar + rootKLast);
    GrowthTerms(fee, rootK, rootKLast, scalar, supply);
  }

  lemma GrowthTerms(fee: nat, rootK: nat, rootKLast: nat, scalar: nat, supply: nat)
    requires rootK > rootKLast
    requires (rootK * scalar + rootKLast) * fee <= (rootK - rootKLast) * supply
    ensures fee * rootK * (scalar + 1) <= (supply + fee) * (rootK - rootKLast)
  {
    assert fee * rootK * (scalar + 1) == (rootK * scalar + rootKLast) * fee + fee * (rootK - rootKLast);
    assert (supply + fee) * (rootK - rootKLast) == (rootK - rootKLast) * supply + fee * (rootK - rootKLast);
  }

  /** Measured from a snapshot that covers the supply, the fee cannot push the supply over the root. */
  lemma FeeKeepsRoot(rootK: nat, rootKLast: nat, supply: nat, protocolFee: nat)
    requires rootK > rootKLast && 0 < protocolFee <= MILLION && 0 < supply <= rootKLast
    requires FeeForGrowth(rootK, rootKLast, supply, protocolFee).Ok?
    ensures supply + FeeForGrowth(rootK, rootKLast, supply, protocolFee).value <= rootK
  {
    var fee := FeeForGrowth(rootK, rootKLast, supply, protocolFee).value;
    var scalar := MILLION / protocolFee - 1;
    var d := rootK * scalar + rootKLast;
    DivBounds((rootK - rootKLast) * supply, d);
    if supply + fee > rootK {
      RootTerms(rootK, rootKLast, supply, fee, scalar);
    }
  }

  lemma RootTerms(rootK: nat, rootKLast: nat, supply: nat, fee: nat, scalar: nat)
    requires 0 < supply <= rootKLast < rootK < supply + fee
    ensures (rootK * scalar + rootKLast) * fee > (rootK - rootKLast) * supply
  {
    var d, growth := rootK * scalar + rootKLast, rootK - rootKLast;
    MulMonotone(rootKLast, growth + 1, fee);
    assert rootKLast * (growth + 1) == growth * rootKLast + rootKLast;
    MulMonotone(growth, supply, rootKLast);
    assert rootKLast * fee > growth * supply;
    MulMonotone(fee, rootKLast, d);
    assert fee * d == d * fee && fee * rootKLast == rootKLast * fee;
  }

  /** The fee does not lower the root per liquidity token below its value at the snapshot. */
  lemma FeeKeepsRootPerToken(rootK: nat, rootKLast: nat, supply: nat, protocolFee: nat)
    requires rootK > rootKLast && 0 < protocolFee <= MILLION
    requires FeeForGrowth(rootK, rootKLast, supply, protocolFee).Ok?
    ensures (supply + FeeForGrowth(rootK, rootKLast, supply, protocolFee).value) * rootKLast <= supply * rootK
  {
    var fee := FeeForGrowth(rootK, rootKLast, supply, protocolFee).value;
    var scalar := MILLION / protocolFee - 1;
    DivBounds((rootK - rootKLast) * supply, rootK * scalar + rootKLast);
    MulMonotone(fee, rootKLast, rootK * scalar + rootKLast);
    assert (rootK - rootKLast) * supply == supply * rootK - supply * rootKLast;
  }

  // ---------- what rounding leaves on the table: nothing more than a unit ----------

  /** The liquidity bought is the greatest that dilutes neither reserve. */
  lemma BuysGreatest(pool: Pool, supply: nat, base: nat, quote: nat, minLiquidity: nat, x: nat)
    requires supply > 0 && LiquidityFor(pool, supply, base, quote, minLiquidity).Ok?
    ensures x <= LiquidityFor(pool, supply, base, quote, minLiquidity).value
            <==> pool.base * x <= base * supply && pool.quote * x <= quote * supply
  {
    FloorGreatest(base * supply, pool.base, x);
    FloorGreatest(quote * supply, pool.quote, x);
  }

  /** What removing liquidity pays of a reserve is the greatest amount within its share. */
  lemma SellsGreatest(feeOn: bool, l0: Ledger, who: UserId, key: Pair, pool: Pool, liquidity: nat, x: nat)
    requires DoRemoveLiquidity(feeOn, l0, who, key, pool, liquidity).Ok?
    ensures var supply, p := l0.Issued(pool.lpToken), DoRemoveLiquidity(feeOn, l0, who, key, pool, liquidity).value.0;
            && (x <= pool.base - p.base <==> supply * x <= liquidity * pool.base)
            && (x <= pool.quote - p.quote <==> supply * x <= liquidity * pool.quote)
  {
    hide DoRemoveLiquidity, MulDiv;
    RemovedShares(feeOn, l0, who, key, pool, liquidity);
    var supply := l0.Issued(pool.lpToken);
    ShareGreatest(liquidity, pool.base, supply, x);
    ShareGreatest(liquidity, pool.quote, supply, x);
  }

  lemma RemovedShares(feeOn: bool, l0: Ledger, who: UserId, key: Pair, pool: Pool, liquidity: nat)
    requires DoRemoveLiquidity(feeOn, l0, who, key, pool, liquidity).Ok?
    ensures var supply, p := l0.Issued(pool.lpToken), DoRemoveLiquidity(feeOn, l0, who, key, pool, liquidity).value.0;
            && supply > 0
            && pool.base - p.base == MulDiv(liquidity, pool.base, supply)
            && pool.quote - p.quote == MulDiv(liquidity, pool.quote, supply)
  {
    hide Ledger.Burn, Ledger.Transfer, MulDiv;
  }

  lemma ShareGreatest(liquidity: nat, reserve: nat, supply: nat, x: nat)
    requires supply > 0
    ensures x <= MulDiv(liquidity, reserve, supply) <==> supply * x <= liquidity * reserve
  {
    FloorGreatest(liquidity * reserve, supply, x);
  }

  /** The fee minted is the greatest within the agreed part of the growth. */
  lemma FeeIsGreatest(rootK: nat, rootKLast: nat, supply: nat, protocolFee: nat, x: nat)
    requires rootK > rootKLast && 0 < protocolFee <= MILLION
    requires FeeForGrowth(rootK, rootKLast, supply, protocolFee).Ok?
    ensures var scalar := MILLION / protocolFee - 1;
            x <= FeeForGrowth(rootK, rootKLast, supply, protocolFee).value
            <==> (rootK * scalar + rootKLast) * x <= (rootK - rootKLast) * supply
  {
    FloorGreatest((rootK - rootKLast) * supply, rootK * (MILLION / protocolFee - 1) + rootKLast, x);
  }

  /** The ideal amounts use up one of the desired amounts, and of the other the greatest part that the ratio of
      the reserves allows; so they never exceed what is desired. */
  lemma IdealAmountsFit(pool: Pool, base: nat, quote: nat)
    requires pool.base > 0 && pool.quote > 0 && GetIdealAmounts(pool, base, quote).Ok?
    ensures var (b, q) := GetIdealAmounts(pool, base, quote).value;
            && b <= base && q <= quote
            && ((b == base && q * pool.base <= b * pool.quote < (q + 1) * pool.base)
                || (q == quote && b * pool.quote <= q * pool.base < (b + 1) * pool.quote))
  {
    hide MulDiv;
    Proportion(base, pool.base, pool.quote);
    Proportion(quote, pool.quote, pool.base);
    if MulDiv(base, pool.quote, pool.base) > quote {
      SmallerSide(base, quote, pool.base, pool.quote);
    }
  }

  lemma Proportion(x: nat, from: nat, to: nat)
    requires from > 0
    ensures MulDiv(x, to, from) * from <= x * to < (MulDiv(x, to, from) + 1) * from
  {
    DivBounds(x * to, from);
  }

  lemma SmallerSide(base: nat, quote: nat, basePool: nat, quotePool: nat)
    requires basePool > 0 && quotePool > 0 && MulDiv(base, quotePool, basePool) > quote
    ensures MulDiv(quote, basePool, quotePool) <= base
  {
    FloorGreatest(base * quotePool, basePool, quote + 1);
    assert basePool * (quote + 1) == quote * basePool + basePool;
    FloorGreatest(quote * basePool, quotePool, base + 1);
    assert quotePool * (base + 1) == base * quotePool + quotePool;
  }
}
