/** The exchange as an object that executes the calls of `Amm` on its storage. */
module AmmPallet {
  import opened Base
  import opened Assets
  import opened AmmMath
  import opened Amm
  import opened AmmRuns
  import opened AmmExits
  import opened AmmEffects
  import opened AmmQuotes

  class Pallet {
    var pools: map<Pair, Pool>
    var ledger: Ledger
    var protocolFee: nat
    var feeReceiver: Option<Account>
    const cfg: Config

    function View(): State
      reads this
    {
      State(pools, ledger, protocolFee, feeReceiver, cfg)
    }

    /** Every pool is sound and the pallet account covers all reserves; every call keeps it. */
    ghost predicate Valid()
      reads this
    {
      Healthy(View())
    }

    constructor (ledger: Ledger, cfg: Config)
      requires ValidConfig(cfg) && Backed(ledger)
      ensures Valid() && View() == State(map[], ledger, 0, None, cfg)
    {
      this.pools, this.ledger, this.protocolFee, this.feeReceiver, this.cfg := map[], ledger, 0, None, cfg;
      new;
      StartsHealthy(View());
    }

    method UpdateProtocolFee(fee: nat)
      requires Valid() && fee <= MILLION
      modifies this`protocolFee
      ensures Valid() && View() == old(View()).(protocolFee := fee)
    {
      StepKeepsHealthy(View(), Op.UpdateProtocolFee(fee));
      hide Healthy;
      protocolFee := fee;
    }

    method UpdateProtocolFeeReceiver(receiver: Account)
      requires Valid()
      modifies this`feeReceiver
      ensures Valid() && View() == old(View()).(feeReceiver := Some(receiver))
    {
      StepKeepsHealthy(View(), Op.UpdateProtocolFeeReceiver(receiver));
      hide Healthy;
      feeReceiver := Some(receiver);
    }

    /** Works on a copy of the pool, as the storage closure of the caller does. */
    method DoMintProtocolFee(pool: Pool) returns (r: Result<Pool>)
      modifies this`ledger
      ensures match MintProtocolFee(old(View()), pool)
              case Ok((p, l)) => r == Ok(p) && ledger == l
              case Err(e) => r == Err(e) && ledger == old(ledger)
    {
      if protocolFee == 0 || feeReceiver.None? {
        if pool.KLast() != 0 {
          return Ok(pool.(baseLast := 0, quoteLast := 0));
        }
        return Ok(pool);
      }
      var rootK, rootKLast := Sqrt(pool.K()), Sqrt(pool.KLast());
      if rootK <= rootKLast {
        return Ok(pool);
      }
      var fees :- FeeForGrowth(rootK, rootKLast, ledger.Issued(pool.lpToken), protocolFee);
      ledger :- ledger.Mint(pool.lpToken, feeReceiver.value, fees);
      return Ok(pool);
    }

    method DoAdd(who: UserId, key: Pair, pool0: Pool, base: nat, quote: nat) returns (r: Result<Pool>)
      modifies this`ledger
      ensures match DoAddLiquidity(cfg.minLiquidity, View().FeeOn(), old(ledger), who, key, pool0, base, quote)
              case Ok((p, l)) => r == Ok(p) && ledger == l
              case Err(e) => r == Err(e) && ledger == old(ledger)
    {
      hide LiquidityFor, Ledger.Transfer, Ledger.Mint;
      var pool, l, supply := pool0, ledger, ledger.Issued(pool0.lpToken);
      if supply == 0 {
        l :- l.Mint(pool.lpToken, AmmLock, cfg.minLiquidity);
      }
      var liquidity :- LiquidityFor(pool, supply, base, quote, cfg.minLiquidity);
      if pool.base + base > U128_MAX || pool.quote + quote > U128_MAX {
        return Err(Overflow);
      }
      pool := pool.(base := pool.base + base);
      pool := pool.(quote := pool.quote + quote);
      l :- l.Mint(pool.lpToken, User(who), liquidity);
      l :- l.Transfer(key.0, User(who), AmmPot, base);
      l :- l.Transfer(key.1, User(who), AmmPot, quote);
      if protocolFee != 0 && feeReceiver.Some? {
        pool := pool.(baseLast := pool.base, quoteLast := pool.quote);
      }
      ledger := l;
      return Ok(pool);
    }

    method DoRemove(who: UserId, key: Pair, pool0: Pool, liquidity: nat) returns (r: Result<Pool>)
      modifies this`ledger
      ensures match DoRemoveLiquidity(View().FeeOn(), old(ledger), who, key, pool0, liquidity)
              case Ok((p, l)) => r == Ok(p) && ledger == l
              case Err(e) => r == Err(e) && ledger == old(ledger)
    {
      hide LiquidityFor, Ledger.Transfer, Ledger.Mint;
      var pool, l, supply := pool0, ledger, ledger.Issued(pool0.lpToken);
      if supply == 0 {
        return Err(ConversionToU128Failed);
      }
      var base :- ToU128(liquidity * pool.base / supply, Underflow);
      var quote :- ToU128(liquidity * pool.quote / supply, Underflow);
      if pool.base < base || pool.quote < quote {
        return Err(InsufficientLiquidity);
      }
      pool := pool.(base := pool.base - base);
      pool := pool.(quote := pool.quote - quote);
      l :- l.Burn(pool.lpToken, User(who), liquidity);
      l :- l.Transfer(key.0, AmmPot, User(who), base);
      l :- l.Transfer(key.1, AmmPot, User(who), quote);
      if protocolFee != 0 && feeReceiver.Some? {
        pool := pool.(baseLast := pool.base, quoteLast := pool.quote);
      }
      ledger := l;
      return Ok(pool);
    }

    method CreatePool(a: Asset, b: Asset, amountA: nat, amountB: nat, receiver: UserId, lpToken: Asset)
      returns (r: Result<()>)
      requires Valid()
      modifies this`pools, this`ledger
      ensures Valid()
      ensures Executes(r, old(View()), View(), Amm.CreatePool(old(View()), a, b, amountA, amountB, receiver, lpToken))
    {
      StepKeepsHealthy(View(), Op.CreatePool(a, b, amountA, amountB, receiver, lpToken));
      hide Healthy, DoAddLiquidity;
      var sorted :- SortAssets(a, b);
      var key, base, quote := sorted.1, amountA, amountB;
      if sorted.0 {
        base, quote := amountB, amountA;
      }
      if key in pools {
        return Err(PoolAlreadyExists);
      }
      if ledger.Issued(lpToken) != 0 {
        return Err(LpTokenAlreadyExists);
      }
      var pool :- DoAdd(receiver, key, Pool(0, 0, 0, 0, lpToken), base, quote);
      pools := pools[key := pool];
      return Ok(());
    }

    method AddIdealAmounts(who: UserId, key: Pair, base: nat, quote: nat) returns (r: Result<()>)
      requires key in pools
      modifies this`pools, this`ledger
      ensures Executes(r, old(View()), View(), AddIdeal(old(View()), who, key, base, quote))
    {
      hide MintProtocolFee, DoAddLiquidity;
      var ledger0 := ledger;
      var charged :- DoMintProtocolFee(pools[key]);
      var added := DoAdd(who, key, charged, base, quote);
      if added.Err? {
        ledger := ledger0;
        return Err(added.error);
      }
      pools := pools[key := added.value];
      return Ok(());
    }

    method AddLiquidity(who: UserId, a: Asset, b: Asset, desiredA: nat, desiredB: nat, minimumA: nat, minimumB: nat)
      returns (r: Result<()>)
      requires Valid()
      modifies this`pools, this`ledger
      ensures Valid()
      ensures Executes(r, old(View()), View(),
                       Amm.AddLiquidity(old(View()), who, a, b, desiredA, desiredB, minimumA, minimumB))
    {
      StepKeepsHealthy(View(), Op.AddLiquidity(a, b, who, desiredA, desiredB, minimumA, minimumB));
      hide Healthy, AddIdeal;
      var sorted :- SortAssets(a, b);
      var key, base, quote, minBase, minQuote := sorted.1, desiredA, desiredB, minimumA, minimumB;
      if sorted.0 {
        base, quote, minBase, minQuote := desiredB, desiredA, minimumB, minimumA;
      }
      if key !in pools {
        return Err(PoolDoesNotExist);
      }
      var ideal :- GetIdealAmounts(pools[key], base, quote);
      if !(ideal.0 <= base && ideal.1 <= quote) {
        return Err(InsufficientAmountIn);
      }
      if !(ideal.0 >= minBase && ideal.1 >= minQuote) {
        return Err(NotAnIdealPrice);
      }
      r := AddIdealAmounts(who, key, ideal.0, ideal.1);
    }

    method RemoveLiquidity(who: UserId, a: Asset, b: Asset, liquidity: nat) returns (r: Result<()>)
      requires Valid()
      modifies this`pools, this`ledger
      ensures Valid()
      ensures Executes(r, old(View()), View(), Amm.RemoveLiquidity(old(View()), who, a, b, liquidity))
    {
      StepKeepsHealthy(View(), Op.RemoveLiquidity(a, b, who, liquidity));
      hide Healthy, DoRemoveLiquidity, MintProtocolFee;
      var sorted :- SortAssets(a, b);
      var key := sorted.1;
      if key !in pools {
        return Err(PoolDoesNotExist);
      }
      var ledger0 := ledger;
      var charged :- DoMintProtocolFee(pools[key]);
      var removed := DoRemove(who, key, charged, liquidity);
      if removed.Err? {
        ledger := ledger0;
        return Err(removed.error);
      }
      pools := pools[key := removed.value];
      return Ok(());
    }

    /** `do_swap`. */
    method DoSwap(who: UserId, assetIn: Asset, assetOut: Asset, amountIn: nat) returns (r: Result<nat>)
      requires cfg.lpFee > 0
      modifies this`pools, this`ledger
      ensures match Amm.Swap(old(View()), who, assetIn, assetOut, amountIn)
              case Ok((s, out)) => r == Ok(out) && View() == s
              case Err(e) => r == Err(e) && View() == old(View())
    {
      hide Ledger.Transfer, GetAmountOut;
      var sorted :- SortAssets(assetIn, assetOut);
      var inverted, key := sorted.0, sorted.1;
      if key !in pools {
        return Err(PoolDoesNotExist);
      }
      var pool := pools[key];
      var supplyIn, supplyOut := pool.base, pool.quote;
      if inverted {
        supplyIn, supplyOut := pool.quote, pool.base;
      }
      if amountIn < ReciprocalMulCeil(cfg.lpFee, 1) {
        return Err(InsufficientAmountIn);
      }
      if supplyOut == 0 {
        return Err(InsufficientAmountOut);
      }
      var amountOut :- GetAmountOut(cfg.lpFee, amountIn, supplyIn, supplyOut);
      var newIn :- ToU128(supplyIn + amountIn, Overflow);
      var newOut :- CheckedSub(supplyOut, amountOut, Underflow);
      if inverted {
        pool := pool.(quote := newIn);
        pool := pool.(base := newOut);
      } else {
        pool := pool.(base := newIn);
        pool := pool.(quote := newOut);
      }
      var l :- ledger.Transfer(assetIn, User(who), AmmPot, amountIn);
      ledger :- l.Transfer(assetOut, AmmPot, User(who), amountOut);
      pools := pools[key := pool];
      return Ok(amountOut);
    }

    method Swap(who: UserId, assetIn: Asset, assetOut: Asset, amountIn: nat) returns (r: Result<nat>)
      requires Valid()
      modifies this`pools, this`ledger
      ensures Valid()
      ensures match Amm.Swap(old(View()), who, assetIn, assetOut, amountIn)
              case Ok((s, out)) => r == Ok(out) && View() == s
              case Err(e) => r == Err(e) && View() == old(View())
    {
      StepKeepsHealthy(View(), Op.Swap(assetIn, assetOut, who, amountIn));
      hide Healthy, Amm.Swap;
      r := DoSwap(who, assetIn, assetOut, amountIn);
    }

    /** Fills the vector of outputs front to back. */
    method GetAmountsOut(amountIn: nat, path: seq<Asset>) returns (r: Result<seq<nat>>)
      requires path != []
      ensures r == Amm.GetAmountsOut(View(), amountIn, path)
    {
      var amounts := [amountIn];
      assert path[..1] == [path[0]];
      for i := 0 to |path| - 1
        invariant Amm.GetAmountsOut(View(), amountIn, path[..i + 1]) == Ok(amounts)
      {
        assert path[..i + 2][..i + 1] == path[..i + 1];
        FailsFrom(View(), amountIn, path, i + 2);
        var reserves :- GetReserves(View(), path[i], path[i + 1]);
        var out :- GetAmountOut(cfg.lpFee, amounts[i], reserves.0, reserves.1);
        amounts := amounts + [out];
      }
      assert path[..|path|] == path;
      return Ok(amounts);
    }

    /** Fills the vector of inputs back to front. */
    method GetAmountsIn(amountOut: nat, path: seq<Asset>) returns (r: Result<seq<nat>>)
      requires path != [] && cfg.lpFee < MILLION
      ensures r == Amm.GetAmountsIn(View(), amountOut, path)
      ensures r.Ok? ==> ChainedBack(View(), amountOut, path, r.value)
      ensures r.Ok? && AmmInv(View()) && 2 * cfg.lpFee <= MILLION ==> NearLeast(View(), path, r.value)
    {
      hide ChainedBack, AmmInv, NearLeast, GetReserves, GetAmountIn;
      ReverseQuoteExists(View(), amountOut, path);
      if AmmInv(View()) && 2 * cfg.lpFee <= MILLION && Amm.GetAmountsIn(View(), amountOut, path).Ok? {
        ReverseQuoteNear(View(), amountOut, path);
      }
      var amounts := [amountOut];
      for i := |path| - 1 downto 0
        invariant Amm.GetAmountsIn(View(), amountOut, path[i..]) == Ok(amounts)
      {
        assert path[i..][1..] == path[i + 1..];
        FailsBack(View(), amountOut, path, i);
        var reserves :- GetReserves(View(), path[i], path[i + 1]);
        var needed :- GetAmountIn(cfg.lpFee, amounts[0], reserves.0, reserves.1);
        amounts := [needed] + amounts;
      }
      return Ok(amounts);
    }
  }

  /** A quote that fails on a prefix fails on the path with the same error. */
  lemma {:induction false} FailsFrom(s: State, amountIn: nat, path: seq<Asset>, n: nat)
    requires 1 <= n <= |path|
    ensures Amm.GetAmountsOut(s, amountIn, path[..n]).Err? ==>
              Amm.GetAmountsOut(s, amountIn, path) == Amm.GetAmountsOut(s, amountIn, path[..n])
    decreases |path| - n
  {
    if n == |path| {
      assert path[..n] == path;
    } else {
      FailsFrom(s, amountIn, path, n + 1);
      assert path[..n + 1][..n] == path[..n];
    }
  }

  lemma {:induction false} FailsBack(s: State, amountOut: nat, path: seq<Asset>, n: nat)
    requires n < |path| && s.cfg.lpFee < MILLION
    ensures Amm.GetAmountsIn(s, amountOut, path[n..]).Err? ==>
              Amm.GetAmountsIn(s, amountOut, path) == Amm.GetAmountsIn(s, amountOut, path[n..])
  {
    if n == 0 {
      assert path[n..] == path;
    } else {
      FailsBack(s, amountOut, path, n - 1);
      assert path[n - 1..][1..] == path[n..];
    }
  }
}
