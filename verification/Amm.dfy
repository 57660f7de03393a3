/** The constant-product exchange: pools of two assets, liquidity tokens, protocol fee and swaps, as
    functions on the whole state. Each call is all or nothing. */
module Amm {
  import opened Base
  import opened Assets
  import opened AmmMath

  datatype Pool = Pool(base: nat, quote: nat, baseLast: nat, quoteLast: nat, lpToken: Asset) {
    predicate IsEmpty() {
      base == 0 && quote == 0
    }

    /** The product of the reserves, and of the reserves at the last snapshot for the protocol fee. */
    function K(): nat {
      Mul(base, quote)
    }

    function KLast(): nat {
      Mul(baseLast, quoteLast)
    }
  }

  datatype Config = Config(lpFee: nat, minLiquidity: nat)

  /** The fee is a proper fraction (its reciprocal is taken both of it and of its complement), and some
      liquidity is locked at creation. */
  predicate ValidConfig(cfg: Config) {
    0 < cfg.lpFee < MILLION && cfg.minLiquidity > 0
  }

  type Pair = (Asset, Asset)

  datatype State = State(
    pools: map<Pair, Pool>,
    ledger: Ledger,
    protocolFee: nat,
    feeReceiver: Option<Account>,
    cfg: Config) {

    predicate FeeOn() {
      protocolFee != 0 && feeReceiver.Some?
    }

    function Put(key: Pair, pool: Pool, l: Ledger): State {
      this.(pools := pools[key := pool], ledger := l)
    }
  }

  /** The pool of a pair is stored under the greater asset first. */
  function SortAssets(a: Asset, b: Asset): Result<(bool, Pair)> {
    if a > b then Ok((false, (a, b)))
    else if a < b then Ok((true, (b, a)))
    else Err(IdenticalAssets)
  }

  function GetIdealAmounts(pool: Pool, base: nat, quote: nat): Result<(nat, nat)> {
    if pool.IsEmpty() then Ok((base, quote)) else
      var idealQuote :- Quote(base, pool.base, pool.quote);
      if idealQuote <= quote then Ok((base, idealQuote)) else
        var idealBase :- Quote(quote, pool.quote, pool.base);
        Ok((idealBase, quote))
  }

  // ---------- protocol fee ----------

  /** The liquidity tokens to mint when the root of the product has grown from `rootKLast` to `rootK`. */
  function FeeForGrowth(rootK: nat, rootKLast: nat, supply: nat, protocolFee: nat): Result<nat>
    requires rootK > rootKLast && protocolFee > 0
  {
    var scalar :- CheckedSub(MILLION / protocolFee, 1, Underflow);
    var denominator: nat := rootK * scalar + rootKLast;
    if denominator == 0 then Err(Underflow) else ToU128(MulDiv(rootK - rootKLast, supply, denominator), Overflow)
  }

  /** Switched off, the fee forgets its snapshot; switched on, it mints what is due. */
  function MintProtocolFee(s: State, pool: Pool): Result<(Pool, Ledger)> {
    if !s.FeeOn() then Ok((if pool.KLast() == 0 then pool else pool.(baseLast := 0, quoteLast := 0), s.ledger)) else
      var rootK, rootKLast := Sqrt(pool.K()), Sqrt(pool.KLast());
      if rootK <= rootKLast then Ok((pool, s.ledger)) else
        var fees :- FeeForGrowth(rootK, rootKLast, s.ledger.Issued(pool.lpToken), s.protocolFee);
        var l :- s.ledger.Mint(pool.lpToken, s.feeReceiver.value, fees);
        Ok((pool, l))
  }

  function Snapshot(feeOn: bool, pool: Pool): Pool {
    if feeOn then pool.(baseLast := pool.base, quoteLast := pool.quote) else pool
  }

  // ---------- liquidity ----------

  /** The liquidity tokens bought by a pair of amounts, given the current supply. */
  function LiquidityFor(pool: Pool, supply: nat, base: nat, quote: nat, minLiquidity: nat): Result<nat> {
    if supply == 0 then
      var root :- CheckedSub(Sqrt(Mul(base, quote)), minLiquidity, ConversionToU128Failed);
      ToU128(root, Underflow)
    else if pool.base == 0 || pool.quote == 0 then Err(ConversionToU128Failed)
    else
      var byBase :- ToU128(MulDiv(base, supply, pool.base), Underflow);
      var byQuote :- ToU128(MulDiv(quote, supply, pool.quote), Underflow);
      Ok(Min(byBase, byQuote))
  }

  function DoAddLiquidity(minLiquidity: nat, feeOn: bool, l0: Ledger, who: UserId, key: Pair, pool: Pool,
                          base: nat, quote: nat)
    : Result<(Pool, Ledger)>
  {
    var supply := l0.Issued(pool.lpToken);
    var l1 :- if supply == 0 then l0.Mint(pool.lpToken, AmmLock, minLiquidity) else Ok(l0);
    var liquidity :- LiquidityFor(pool, supply, base, quote, minLiquidity);
    var newBase :- ToU128(pool.base + base, Overflow);
    var newQuote :- ToU128(pool.quote + quote, Overflow);
    var l2 :- l1.Mint(pool.lpToken, User(who), liquidity);
    var l3 :- l2.Transfer(key.0, User(who), AmmPot, base);
    var l4 :- l3.Transfer(key.1, User(who), AmmPot, quote);
    Ok((Snapshot(feeOn, pool.(base := newBase, quote := newQuote)), l4))
  }

  function DoRemoveLiquidity(feeOn: bool, l0: Ledger, who: UserId, key: Pair, pool: Pool, liquidity: nat)
    : Result<(Pool, Ledger)>
  {
    var supply := l0.Issued(pool.lpToken);
    if supply == 0 then Err(ConversionToU128Failed) else
      var base :- ToU128(MulDiv(liquidity, pool.base, supply), Underflow);
      var quote :- ToU128(MulDiv(liquidity, pool.quote, supply), Underflow);
      var newBase :- CheckedSub(pool.base, base, InsufficientLiquidity);
      var newQuote :- CheckedSub(pool.quote, quote, InsufficientLiquidity);
      var l1 :- l0.Burn(pool.lpToken, User(who), liquidity);
      var l2 :- l1.Transfer(key.0, AmmPot, User(who), base);
      var l3 :- l2.Transfer(key.1, AmmPot, User(who), quote);
      Ok((Snapshot(feeOn, pool.(base := newBase, quote := newQuote)), l3))
  }

  // ---------- calls ----------

  /** `create_pool` once the pair is sorted. */
  function CreateAt(s: State, key: Pair, base: nat, quote: nat, receiver: UserId, lpToken: Asset): Result<State> {
    if key in s.pools then Err(PoolAlreadyExists)
    else if s.ledger.Issued(lpToken) != 0 then Err(LpTokenAlreadyExists) else
      var added :- DoAddLiquidity(s.cfg.minLiquidity, s.FeeOn(), s.ledger, receiver, key,
                                  Pool(0, 0, 0, 0, lpToken), base, quote);
      Ok(s.Put(key, added.0, added.1))
  }

  function CreatePool(s: State, a: Asset, b: Asset, amountA: nat, amountB: nat, receiver: UserId, lpToken: Asset)
    : Result<State>
  {
    var sorted :- SortAssets(a, b);
    if sorted.0 then CreateAt(s, sorted.1, amountB, amountA, receiver, lpToken)
    else CreateAt(s, sorted.1, amountA, amountB, receiver, lpToken)
  }

  /** The part of `add_liquidity` after the ideal amounts are known: settle the fee, then add. */
  function AddIdeal(s: State, who: UserId, key: Pair, base: nat, quote: nat): Result<State>
    requires key in s.pools
  {
    var fee :- MintProtocolFee(s, s.pools[key]);
    var added :- DoAddLiquidity(s.cfg.minLiquidity, s.FeeOn(), fee.1, who, key, fee.0, base, quote);
    Ok(s.Put(key, added.0, added.1))
  }

  function AddLiquidity(s: State, who: UserId, a: Asset, b: Asset,
                        desiredA: nat, desiredB: nat, minimumA: nat, minimumB: nat): Result<State>
  {
    var sorted :- SortAssets(a, b);
    var (inverted, key) := sorted;
    var (base, quote) := if inverted then (desiredB, desiredA) else (desiredA, desiredB);
    var (minBase, minQuote) := if inverted then (minimumB, minimumA) else (minimumA, minimumB);
    if key !in s.pools then Err(PoolDoesNotExist) else
      var ideal :- GetIdealAmounts(s.pools[key], base, quote);
      if ideal.0 > base || ideal.1 > quote then Err(InsufficientAmountIn)
      else if ideal.0 < minBase || ideal.1 < minQuote then Err(NotAnIdealPrice)
      else AddIdeal(s, who, key, ideal.0, ideal.1)
  }

  /** `remove_liquidity` once the pair is sorted. */
  function RemoveAt(s: State, who: UserId, key: Pair, liquidity: nat): Result<State> {
    if key !in s.pools then Err(PoolDoesNotExist) else
      var fee :- MintProtocolFee(s, s.pools[key]);
      var removed :- DoRemoveLiquidity(s.FeeOn(), fee.1, who, key, fee.0, liquidity);
      Ok(s.Put(key, removed.0, removed.1))
  }

  function RemoveLiquidity(s: State, who: UserId, a: Asset, b: Asset, liquidity: nat): Result<State> {
    var sorted :- SortAssets(a, b);
    RemoveAt(s, who, sorted.1, liquidity)
  }

  /** The two sides of a pool, the side paid in first. */
  function Sides(pool: Pool, inverted: bool): (nat, nat) {
    if inverted then (pool.quote, pool.base) else (pool.base, pool.quote)
  }

  function WithSides(pool: Pool, inverted: bool, sideIn: nat, sideOut: nat): Pool {
    if inverted then pool.(quote := sideIn, base := sideOut) else pool.(base := sideIn, quote := sideOut)
  }

  /** The new state and the amount paid out. */
  function Swap(s: State, who: UserId, assetIn: Asset, assetOut: Asset, amountIn: nat): Result<(State, nat)>
    requires s.cfg.lpFee > 0
  {
    var sorted :- SortAssets(assetIn, assetOut);
    var (inverted, key) := sorted;
    if key !in s.pools then Err(PoolDoesNotExist) else
      var (supplyIn, supplyOut) := Sides(s.pools[key], inverted);
      if amountIn < ReciprocalMulCeil(s.cfg.lpFee, 1) then Err(InsufficientAmountIn)
      else if supplyOut == 0 then Err(InsufficientAmountOut) else
        var amountOut :- GetAmountOut(s.cfg.lpFee, amountIn, supplyIn, supplyOut);
        var newIn :- ToU128(supplyIn + amountIn, Overflow);
        var newOut :- CheckedSub(supplyOut, amountOut, Underflow);
        var l1 :- s.ledger.Transfer(assetIn, User(who), AmmPot, amountIn);
        var l2 :- l1.Transfer(assetOut, AmmPot, User(who), amountOut);
        Ok((s.Put(key, WithSides(s.pools[key], inverted, newIn, newOut), l2), amountOut))
  }

  /** The reserves of a pair, in the order asked for. */
  function GetReserves(s: State, assetIn: Asset, assetOut: Asset): Result<(nat, nat)> {
    var sorted :- SortAssets(assetIn, assetOut);
    if sorted.1 !in s.pools then Err(PoolDoesNotExist) else Ok(Sides(s.pools[sorted.1], sorted.0))
  }

  /** The amount at every asset of a path when `amountIn` is traded along it, at the current reserves. */
  function GetAmountsOut(s: State, amountIn: nat, path: seq<Asset>): (r: Result<seq<nat>>)
    requires path != []
    ensures r.Ok? ==> |r.value| == |path|
  {
    if |path| == 1 then Ok([amountIn]) else
      var before :- GetAmountsOut(s, amountIn, path[..|path| - 1]);
      var reserves :- GetReserves(s, path[|path| - 2], path[|path| - 1]);
      var out :- GetAmountOut(s.cfg.lpFee, before[|before| - 1], reserves.0, reserves.1);
      Ok(before + [out])
  }

  /** The amount needed at every asset of a path to end with `amountOut`, at the current reserves. */
  function GetAmountsIn(s: State, amountOut: nat, path: seq<Asset>): (r: Result<seq<nat>>)
    requires path != [] && s.cfg.lpFee < MILLION
    ensures r.Ok? ==> |r.value| == |path|
  {
    if |path| == 1 then Ok([amountOut]) else
      var after :- GetAmountsIn(s, amountOut, path[1..]);
      var reserves :- GetReserves(s, path[0], path[1]);
      var needed :- GetAmountIn(s.cfg.lpFee, after[0], reserves.0, reserves.1);
      Ok([needed] + after)
  }
}
