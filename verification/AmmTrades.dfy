/** Trades over several calls: runs of swaps, a swap and its reverse, adding and removing liquidity at once,
    and quoting a path against trading along it. */
module AmmTrades {
  import opened Base
  import opened Assets
  import opened AmmMath
  import opened AmmLaws
  import opened Amm
  import opened AmmEffects
  import opened AmmRuns
  import opened AmmValue

  // ---------- runs of swaps ----------

  predicate OnlySwaps(ops: seq<Op>) {
    forall i :: 0 <= i < |ops| ==> ops[i].Swap?
  }

  /** How many calls of a run trade on the pool of a pair. */
  function Trades(s: State, ops: seq<Op>, key: Pair): nat
    requires s.cfg.lpFee > 0
    decreases ops
  {
    if ops == [] then 0 else
      assert Step(s, ops[0]).cfg == s.cfg by { StepKeepsConfig(s, ops[0]); }
      (if Touches(s, ops[0], key, Trade) then 1 else 0) + Trades(Step(s, ops[0]), ops[1..], key)
  }

  lemma SwapStep(s: State, op: Op, key: Pair)
    requires AmmInv(s) && key in s.pools && op.Swap?
    ensures key in Step(s, op).pools && AmmInv(Step(s, op))
    ensures Touches(s, op, key, Trade) ==> Step(s, op).pools[key].K() > s.pools[key].K()
    ensures !Touches(s, op, key, Trade) ==> Step(s, op).pools[key] == s.pools[key]
  {
    hide Call, Target, Backed, MintProtocolFee, SharesKept, Sqrt, Mul;
    PoolsPersist(s, op, key);
    StepAtPool(s, op, key);
  }

  /** Every trade of a run of swaps raises the product, so both reserves cannot end at or below their start. */
  lemma {:induction false} SwapsGrow(s: State, ops: seq<Op>, key: Pair)
    requires AmmInv(s) && key in s.pools && OnlySwaps(ops)
    ensures key in Run(s, ops).pools
    ensures Run(s, ops).pools[key].K() >= s.pools[key].K() + Trades(s, ops, key)
    ensures Trades(s, ops, key) > 0
            ==> Run(s, ops).pools[key].base > s.pools[key].base || Run(s, ops).pools[key].quote > s.pools[key].quote
    decreases ops
  {
    hide Step, Touches, Mul;
    if ops != [] {
      StepKeepsConfig(s, ops[0]);
      SwapStep(s, ops[0], key);
      SwapsGrow(Step(s, ops[0]), ops[1..], key);
    }
    var p, p' := s.pools[key], Run(s, ops).pools[key];
    if p'.base <= p.base && p'.quote <= p.quote {
      ProductMonotone(p'.base, p'.quote, p.base, p.quote);
    }
  }

  lemma ProductMonotone(x: nat, y: nat, x': nat, y': nat)
    requires x <= x' && y <= y'
    ensures Mul(x, y) <= Mul(x', y')
  {
    MulMonotone(x, y, y');
    MulMonotone(y', x, x');
  }

  /** Swapping and straight back, by anyone, pays out strictly less than was paid in. */
  lemma SwapBackLoses(s: State, who: UserId, a: Asset, b: Asset, amountIn: nat, other: UserId)
    requires AmmInv(s) && Amm.Swap(s, who, a, b, amountIn).Ok?
    requires var (t, out) := Amm.Swap(s, who, a, b, amountIn).value;
             t.cfg.lpFee > 0 && Amm.Swap(t, other, b, a, out).Ok?
    ensures var (t, out) := Amm.Swap(s, who, a, b, amountIn).value;
            Amm.Swap(t, other, b, a, out).value.1 < amountIn
  {
    hide Amm.Swap, Backed, GetAmountOut, Mul, Ledger.Transfer;
    SwapUnfolds(s, who, a, b, amountIn);
    SwapEffect(s, who, a, b, amountIn);
    var (t, out) := Amm.Swap(s, who, a, b, amountIn).value;
    SwapUnfolds(t, other, b, a, out);
    SwapEffect(t, other, b, a, out);
    var (u, back) := Amm.Swap(t, other, b, a, out).value;
    var key := SortAssets(a, b).value.1;
    if back >= amountIn {
      ProductMonotone(u.pools[key].base, u.pools[key].quote, s.pools[key].base, s.pools[key].quote);
    }
  }

  // ---------- adding and removing at once ----------

  lemma ReturnsNoMore(reserve: nat, amount: nat, supply: nat, liquidity: nat)
    requires supply > 0 && reserve * liquidity <= amount * supply
    ensures MulDiv(liquidity, reserve + amount, supply + liquidity) <= amount
  {
    assert (supply + liquidity) * (amount + 1) > liquidity * (reserve + amount) by {
      assert (supply + liquidity) * (amount + 1) == amount * supply + liquidity * amount + supply + liquidity;
      assert liquidity * (reserve + amount) == reserve * liquidity + liquidity * amount;
    }
    FloorGreatest(liquidity * (reserve + amount), supply + liquidity, amount + 1);
  }

  /** Right after liquidity has moved, settling the fee mints nothing. */
  lemma NothingToSettle(s: State, t: State, key: Pair)
    requires key in s.pools && MintProtocolFee(s, s.pools[key]).Ok? && key in t.pools
    requires LiquidityMoved(s, t, key, t.pools[key].base, t.pools[key].quote)
    ensures MintProtocolFee(t, t.pools[key]).Ok? && MintProtocolFee(t, t.pools[key]).value.1 == t.ledger
    ensures MintProtocolFee(t, t.pools[key]).value.0.base == t.pools[key].base
    ensures MintProtocolFee(t, t.pools[key]).value.0.quote == t.pools[key].quote
    ensures MintProtocolFee(t, t.pools[key]).value.0.lpToken == t.pools[key].lpToken
  {
    hide Sqrt, SharesKept;
  }

  /** Removing at once the liquidity just bought, by anyone, pays out no more of either asset than was paid in. */
  lemma AddThenRemove(s: State, who: UserId, key: Pair, base: nat, quote: nat, t: State,
                      other: UserId, liquidity: nat, u: State)
    requires AmmInv(s) && key in s.pools && AddIdeal(s, who, key, base, quote) == Ok(t)
    requires MintProtocolFee(s, s.pools[key]).Ok? && key in t.pools
    requires Supply(t, key) == SettledSupply(s, key) + liquidity
    requires RemoveAt(t, other, key, liquidity) == Ok(u)
    ensures t.pools[key].base == s.pools[key].base + base && t.pools[key].quote == s.pools[key].quote + quote
    ensures key in u.pools
    ensures t.pools[key].base - u.pools[key].base <= base && t.pools[key].quote - u.pools[key].quote <= quote
  {
    hide AddIdeal, RemoveAt, MintProtocolFee, DoRemoveLiquidity, MulDiv, LiquidityMoved, Backed;
    AddEffect(s, who, key, base, quote);
    LiquidityReserves(s, t, key, s.pools[key].base + base, s.pools[key].quote + quote);
    NothingToSettle(s, t, key);
    RemoveUnfolds(t, other, key, liquidity);
    var (pool, l) := MintProtocolFee(t, t.pools[key]).value;
    RemoveShape(t.FeeOn(), l, other, key, pool, liquidity);
    BoughtBelow(s, t, key, base, quote, liquidity);
    ReturnsNoMore(s.pools[key].base, base, SettledSupply(s, key), liquidity);
    ReturnsNoMore(s.pools[key].quote, quote, SettledSupply(s, key), liquidity);
  }

  /** The same for the two calls: adding and then removing the liquidity just bought leaves the pool with no
      less of either asset than it had. */
  lemma LiquidityRoundTrip(s: State, who: UserId, a: Asset, b: Asset, desiredA: nat, desiredB: nat,
                           minimumA: nat, minimumB: nat, t: State, other: UserId, liquidity: nat, u: State)
    requires AmmInv(s) && Amm.AddLiquidity(s, who, a, b, desiredA, desiredB, minimumA, minimumB) == Ok(t)
    requires a != b
    requires var key := SortAssets(a, b).value.1;
             && key in s.pools && key in t.pools && MintProtocolFee(s, s.pools[key]).Ok?
             && Supply(t, key) == SettledSupply(s, key) + liquidity
    requires Amm.RemoveLiquidity(t, other, b, a, liquidity) == Ok(u)
    ensures var key := SortAssets(a, b).value.1;
            key in u.pools && u.pools[key].base >= s.pools[key].base && u.pools[key].quote >= s.pools[key].quote
  {
    hide AddIdeal, RemoveAt, MintProtocolFee, GetIdealAmounts, Backed;
    var (inverted, key) := SortAssets(a, b).value;
    var ideal := GetIdealAmounts(s.pools[key], if inverted then desiredB else desiredA,
                                 if inverted then desiredA else desiredB).value;
    AddThenRemove(s, who, key, ideal.0, ideal.1, t, other, liquidity, u);
  }

  /** The guard of `add_liquidity` against ideal amounts above the desired ones never fires. */
  lemma NeverInsufficientIn(s: State, who: UserId, a: Asset, b: Asset, desiredA: nat, desiredB: nat,
                            minimumA: nat, minimumB: nat)
    requires AmmInv(s) && a != b && SortAssets(a, b).value.1 in s.pools
    ensures var (inverted, key) := SortAssets(a, b).value;
            var (base, quote) := if inverted then (desiredB, desiredA) else (desiredA, desiredB);
            GetIdealAmounts(s.pools[key], base, quote).Ok? ==>
              var ideal := GetIdealAmounts(s.pools[key], base, quote).value;
              && ideal.0 <= base && ideal.1 <= quote
              && (Amm.AddLiquidity(s, who, a, b, desiredA, desiredB, minimumA, minimumB) == Err(NotAnIdealPrice)
                  || Amm.AddLiquidity(s, who, a, b, desiredA, desiredB, minimumA, minimumB)
                     == AddIdeal(s, who, key, ideal.0, ideal.1))
  {
    hide AddIdeal, GetIdealAmounts, Backed;
    var (inverted, key) := SortAssets(a, b).value;
    var (base, quote) := if inverted then (desiredB, desiredA) else (desiredA, desiredB);
    assert PoolOk(s, key);
    if GetIdealAmounts(s.pools[key], base, quote).Ok? {
      IdealAmountsFit(s.pools[key], base, quote);
    }
  }

  lemma BoughtBelow(s: State, t: State, key: Pair, base: nat, quote: nat, liquidity: nat)
    requires AmmInv(s) && key in s.pools && MintProtocolFee(s, s.pools[key]).Ok? && key in t.pools
    requires LiquidityMoved(s, t, key, s.pools[key].base + base, s.pools[key].quote + quote)
    requires Supply(t, key) == SettledSupply(s, key) + liquidity
    ensures SettledSupply(s, key) > 0
    ensures s.pools[key].base * liquidity <= base * SettledSupply(s, key)
    ensures s.pools[key].quote * liquidity <= quote * SettledSupply(s, key)
  {
    hide MintProtocolFee, Backed;
    SupplyPositive(s, key);
    BoughtTerms(s.pools[key].base, base, SettledSupply(s, key), Supply(t, key));
    BoughtTerms(s.pools[key].quote, quote, SettledSupply(s, key), Supply(t, key));
  }

  lemma BoughtTerms(reserve: nat, amount: nat, supply: nat, supply': nat)
    requires supply' >= supply && (reserve + amount) * supply >= reserve * supply'
    ensures reserve * (supply' - supply) <= amount * supply
  {
  }

  // ---------- quoting ----------

  function HopKey(path: seq<Asset>, i: nat): Pair
    requires i + 1 < |path| && path[i] != path[i + 1]
  {
    SortAssets(path[i], path[i + 1]).value.1
  }

  /** No two hops of the path use the same pool. */
  predicate DistinctHops(path: seq<Asset>) {
    && (forall i :: 0 <= i < |path| - 1 ==> path[i] != path[i + 1])
    && (forall i, j :: 0 <= i < j < |path| - 1 ==> HopKey(path, i) != HopKey(path, j))
  }

  /** Trading along a path, each hop with what the hop before it paid out. */
  function SwapAlong(s: State, who: UserId, amountIn: nat, path: seq<Asset>): (r: Result<(State, seq<nat>)>)
    requires path != [] && s.cfg.lpFee > 0
    ensures r.Ok? ==> |r.value.1| == |path| && r.value.0.cfg == s.cfg
  {
    if |path| == 1 then Ok((s, [amountIn])) else
      var before :- SwapAlong(s, who, amountIn, path[..|path| - 1]);
      var hop :- Amm.Swap(before.0, who, path[|path| - 2], path[|path| - 1], before.1[|before.1| - 1]);
      Ok((hop.0, before.1 + [hop.1]))
  }

  predicate UsesPool(path: seq<Asset>, key: Pair) {
    exists i :: 0 <= i < |path| - 1 && path[i] != path[i + 1] && HopKey(path, i) == key
  }

  /** Trading along a path whose hops use different pools pays out, hop by hop, exactly what was quoted
      before the first trade, and leaves every other pool alone. */
  lemma {:induction false} QuoteRefinesTrade(s: State, who: UserId, amountIn: nat, path: seq<Asset>)
    requires path != [] && s.cfg.lpFee > 0 && DistinctHops(path) && SwapAlong(s, who, amountIn, path).Ok?
    ensures GetAmountsOut(s, amountIn, path) == Ok(SwapAlong(s, who, amountIn, path).value.1)
    ensures SwapAlong(s, who, amountIn, path).value.0.pools.Keys == s.pools.Keys
    ensures forall key :: key in s.pools && !UsesPool(path, key)
              ==> SwapAlong(s, who, amountIn, path).value.0.pools[key] == s.pools[key]
    decreases |path|
  {
    hide Amm.Swap, GetAmountOut, Ledger.Transfer;
    if |path| > 1 {
      var front, n := path[..|path| - 1], |path|;
      FrontHops(path);
      QuoteRefinesTrade(s, who, amountIn, front);
      var before := SwapAlong(s, who, amountIn, front).value;
      SwapUnfolds(before.0, who, path[n - 2], path[n - 1], before.1[n - 2]);
      var key := HopKey(path, n - 2);
      assert before.0.pools[key] == s.pools[key];
    }
  }

  lemma FrontHops(path: seq<Asset>)
    requires |path| > 1 && DistinctHops(path)
    ensures DistinctHops(path[..|path| - 1])
    ensures !UsesPool(path[..|path| - 1], HopKey(path, |path| - 2))
    ensures UsesPool(path, HopKey(path, |path| - 2))
    ensures forall key :: UsesPool(path[..|path| - 1], key) ==> UsesPool(path, key)
  {
    var front := path[..|path| - 1];
    assert forall i :: 0 <= i < |front| - 1 ==> HopKey(front, i) == HopKey(path, i);
  }
}
