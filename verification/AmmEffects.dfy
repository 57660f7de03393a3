/** What each call of the exchange does to the pools, the supply of liquidity tokens and the pallet account,
    and the invariant every call keeps. */
module AmmEffects {
  import opened Base
  import opened Sums
  import opened Assets
  import opened AmmMath
  import opened AmmLaws
  import opened Amm

  // ---------- what each part of a call does ----------

  ghost predicate OnlyIssued(l: Ledger, n: Ledger, a: Asset) {
    forall b: Asset :: b != a ==> n.Issued(b) == l.Issued(b)
  }

  ghost predicate PotMoved(l: Ledger, n: Ledger, key: Pair, base: int, quote: int) {
    forall a: Asset :: n.Balance(a, AmmPot) ==
      l.Balance(a, AmmPot) + (if a == key.0 then base else 0) + (if a == key.1 then quote else 0)
  }

  ghost predicate LockKept(l: Ledger, n: Ledger) {
    forall a: Asset :: n.Balance(a, AmmLock) >= l.Balance(a, AmmLock)
  }

  /** Among the users only one is concerned: by so many shares, and by so much of the two assets of a pair. */
  ghost predicate UsersMoved(l: Ledger, n: Ledger, who: UserId, lp: Asset, shares: int,
                             key: Pair, base: int, quote: int) {
    forall a: Asset, u: UserId :: n.Balance(a, User(u)) == l.Balance(a, User(u))
      + (if u == who && a == lp then shares else 0)
      + (if u == who && a == key.0 then base else 0) + (if u == who && a == key.1 then quote else 0)
  }

  lemma UsersMovedTwice(l: Ledger, m: Ledger, n: Ledger, who: UserId, lp: Asset, shares: int,
                        key: Pair, base: int, quote: int)
    requires UsersMoved(l, m, who, lp, shares, (lp, lp), 0, 0) && UsersMoved(m, n, who, key.0, 0, key, base, quote)
    ensures UsersMoved(l, n, who, lp, shares, key, base, quote)
  {
  }

  /** Paying both assets of a pair into the pot. */
  lemma PaidIn(l: Ledger, who: UserId, key: Pair, base: nat, quote: nat)
    requires key.0 != key.1 && Backed(l)
    requires l.Transfer(key.0, User(who), AmmPot, base).Ok?
    requires l.Transfer(key.0, User(who), AmmPot, base).value.Transfer(key.1, User(who), AmmPot, quote).Ok?
    ensures var n := l.Transfer(key.0, User(who), AmmPot, base).value.Transfer(key.1, User(who), AmmPot, quote).value;
            && n.issuance == l.issuance && PotMoved(l, n, key, base, quote) && Backed(n)
            && UsersMoved(l, n, who, key.0, 0, key, 0 - base, 0 - quote)
            && forall a: Asset :: n.Balance(a, AmmLock) == l.Balance(a, AmmLock)
  {
    hide Sum, Holdings;
    TransferBacked(l, key.0, User(who), AmmPot, base);
    TransferBacked(l.Transfer(key.0, User(who), AmmPot, base).value, key.1, User(who), AmmPot, quote);
  }

  /** Minting bought shares, and the locked ones first if there are none yet. */
  lemma SharesMinted(l0: Ledger, lp: Asset, who: UserId, minLiquidity: nat, liquidity: nat)
    requires Backed(l0) && (l0.Issued(lp) == 0 ==> l0.Mint(lp, AmmLock, minLiquidity).Ok?)
    requires var l1 := if l0.Issued(lp) == 0 then l0.Mint(lp, AmmLock, minLiquidity).value else l0;
             l1.Mint(lp, User(who), liquidity).Ok?
    ensures var l1 := if l0.Issued(lp) == 0 then l0.Mint(lp, AmmLock, minLiquidity).value else l0;
            var l2 := l1.Mint(lp, User(who), liquidity).value;
            && l2.Issued(lp) == l0.Issued(lp) + (if l0.Issued(lp) == 0 then minLiquidity else 0) + liquidity
            && OnlyIssued(l0, l2, lp) && LockKept(l0, l2) && Backed(l2)
            && (l0.Issued(lp) == 0 ==> l2.Balance(lp, AmmLock) >= minLiquidity)
            && UsersMoved(l0, l2, who, lp, liquidity, (lp, lp), 0, 0)
            && forall a: Asset :: l2.Balance(a, AmmPot) == l0.Balance(a, AmmPot)
  {
    hide Sum, Holdings;
    if l0.Issued(lp) == 0 {
      MintBacked(l0, lp, AmmLock, minLiquidity);
      MintBacked(l0.Mint(lp, AmmLock, minLiquidity).value, lp, User(who), liquidity);
    } else {
      MintBacked(l0, lp, User(who), liquidity);
    }
  }

  /** Paying both assets of a pair out of the pot. */
  lemma PaidOut(l: Ledger, who: UserId, key: Pair, base: nat, quote: nat)
    requires key.0 != key.1 && Backed(l)
    requires l.Transfer(key.0, AmmPot, User(who), base).Ok?
    requires l.Transfer(key.0, AmmPot, User(who), base).value.Transfer(key.1, AmmPot, User(who), quote).Ok?
    ensures var n := l.Transfer(key.0, AmmPot, User(who), base).value.Transfer(key.1, AmmPot, User(who), quote).value;
            && n.issuance == l.issuance && PotMoved(l, n, key, 0 - base, 0 - quote) && Backed(n)
            && UsersMoved(l, n, who, key.0, 0, key, base, quote)
            && LockKept(l, n)
  {
    hide Backed, Ledger.Transfer;
    TransferBacked(l, key.0, AmmPot, User(who), base);
    TransferBacked(l.Transfer(key.0, AmmPot, User(who), base).value, key.1, AmmPot, User(who), quote);
  }

  lemma SharesBurnt(l: Ledger, lp: Asset, who: UserId, liquidity: nat)
    requires Backed(l) && l.Burn(lp, User(who), liquidity).Ok?
    ensures var n := l.Burn(lp, User(who), liquidity).value;
            && n.Issued(lp) == l.Issued(lp) - liquidity && liquidity <= l.Balance(lp, User(who))
            && OnlyIssued(l, n, lp) && LockKept(l, n) && Backed(n)
            && UsersMoved(l, n, who, lp, 0 - liquidity, (lp, lp), 0, 0)
            && forall a: Asset :: n.Balance(a, AmmPot) == l.Balance(a, AmmPot)
  {
    hide Backed, Ledger.Burn;
    BurnBacked(l, lp, User(who), liquidity);
  }

  /** Shares minted and then both assets paid, put together. */
  lemma MintedAndPaid(l: Ledger, m: Ledger, n: Ledger, lp: Asset, key: Pair, base: int, quote: int)
    requires OnlyIssued(l, m, lp) && LockKept(l, m) && (forall a: Asset :: m.Balance(a, AmmPot) == l.Balance(a, AmmPot))
    requires n.issuance == m.issuance && PotMoved(m, n, key, base, quote)
    requires forall a: Asset :: n.Balance(a, AmmLock) == m.Balance(a, AmmLock)
    ensures n.Issued(lp) == m.Issued(lp) && OnlyIssued(l, n, lp) && LockKept(l, n) && PotMoved(l, n, key, base, quote)
    ensures n.Balance(lp, AmmLock) == m.Balance(lp, AmmLock)
  {
  }

  lemma AddShape(minLiquidity: nat, feeOn: bool, l0: Ledger, who: UserId, key: Pair, pool: Pool, base: nat, quote: nat)
    requires DoAddLiquidity(minLiquidity, feeOn, l0, who, key, pool, base, quote).Ok?
    requires key.0 != key.1 && Backed(l0)
    ensures var supply := l0.Issued(pool.lpToken);
            var (p, l) := DoAddLiquidity(minLiquidity, feeOn, l0, who, key, pool, base, quote).value;
            && LiquidityFor(pool, supply, base, quote, minLiquidity).Ok?
            && p == Snapshot(feeOn, pool.(base := pool.base + base, quote := pool.quote + quote))
            && l.Issued(pool.lpToken) == supply + (if supply == 0 then minLiquidity else 0)
                                         + LiquidityFor(pool, supply, base, quote, minLiquidity).value
            && OnlyIssued(l0, l, pool.lpToken)
            && PotMoved(l0, l, key, base, quote)
            && LockKept(l0, l)
            && (supply == 0 ==> l.Balance(pool.lpToken, AmmLock) >= minLiquidity)
            && Backed(l)
            && UsersMoved(l0, l, who, pool.lpToken, LiquidityFor(pool, supply, base, quote, minLiquidity).value,
                          key, 0 - base, 0 - quote)
            && pool.base + base <= U128_MAX && pool.quote + quote <= U128_MAX
  {
    hide Sqrt, LiquidityFor, Backed, UsersMoved, PotMoved, LockKept, OnlyIssued, Ledger.Mint, Ledger.Transfer;
    var supply := l0.Issued(pool.lpToken);
    var l1 := if supply == 0 then l0.Mint(pool.lpToken, AmmLock, minLiquidity).value else l0;
    var liquidity := LiquidityFor(pool, supply, base, quote, minLiquidity).value;
    var l2 := l1.Mint(pool.lpToken, User(who), liquidity).value;
    SharesMinted(l0, pool.lpToken, who, minLiquidity, liquidity);
    PaidIn(l2, who, key, base, quote);
    var l4 := l2.Transfer(key.0, User(who), AmmPot, base).value.Transfer(key.1, User(who), AmmPot, quote).value;
    UsersMovedTwice(l0, l2, l4, who, pool.lpToken, liquidity, key, 0 - base, 0 - quote);
    MintedAndPaid(l0, l2, l4, pool.lpToken, key, base, quote);
  }

  lemma RemoveShape(feeOn: bool, l0: Ledger, who: UserId, key: Pair, pool: Pool, liquidity: nat)
    requires DoRemoveLiquidity(feeOn, l0, who, key, pool, liquidity).Ok?
    requires key.0 != key.1 && Backed(l0)
    ensures var supply := l0.Issued(pool.lpToken);
            var (p, l) := DoRemoveLiquidity(feeOn, l0, who, key, pool, liquidity).value;
            && supply > 0 && liquidity <= l0.Balance(pool.lpToken, User(who))
            && var base, quote := MulDiv(liquidity, pool.base, supply), MulDiv(liquidity, pool.quote, supply);
               && base <= pool.base && quote <= pool.quote
               && p == Snapshot(feeOn, pool.(base := pool.base - base, quote := pool.quote - quote))
               && l.Issued(pool.lpToken) == supply - liquidity
               && OnlyIssued(l0, l, pool.lpToken)
               && PotMoved(l0, l, key, 0 - base, 0 - quote)
               && LockKept(l0, l)
               && Backed(l)
               && UsersMoved(l0, l, who, pool.lpToken, 0 - liquidity, key, base, quote)
  {
    hide Backed, UsersMoved, Ledger.Burn, Ledger.Transfer, MulDiv;
    var supply := l0.Issued(pool.lpToken);
    var base, quote := MulDiv(liquidity, pool.base, supply), MulDiv(liquidity, pool.quote, supply);
    var l1 := l0.Burn(pool.lpToken, User(who), liquidity).value;
    SharesBurnt(l0, pool.lpToken, who, liquidity);
    PaidOut(l1, who, key, base, quote);
    var l3 := l1.Transfer(key.0, AmmPot, User(who), base).value.Transfer(key.1, AmmPot, User(who), quote).value;
    UsersMovedTwice(l0, l1, l3, who, pool.lpToken, 0 - liquidity, key, base, quote);
  }

  lemma FeeShape(s: State, pool: Pool)
    requires MintProtocolFee(s, pool).Ok? && Backed(s.ledger)
    ensures var (p, l) := MintProtocolFee(s, pool).value;
            && p == pool.(baseLast := p.baseLast, quoteLast := p.quoteLast)
            && (!s.FeeOn() ==> p.KLast() == 0 && l == s.ledger)
            && (s.FeeOn() ==> p == pool)
            && l.Issued(pool.lpToken) >= s.ledger.Issued(pool.lpToken)
            && OnlyIssued(s.ledger, l, pool.lpToken)
            && (forall a: Asset :: l.Balance(a, AmmPot) >= s.ledger.Balance(a, AmmPot))
            && LockKept(s.ledger, l)
            && Backed(l)
            && (forall a: Asset, u: UserId :: l.Balance(a, User(u)) == s.ledger.Balance(a, User(u))
                  + (if a == pool.lpToken && s.feeReceiver == Some(User(u))
                     then l.Issued(pool.lpToken) - s.ledger.Issued(pool.lpToken) else 0))
  {
    hide Sum, Holdings, FeeForGrowth, Sqrt;
    if s.FeeOn() && Sqrt(pool.K()) > Sqrt(pool.KLast()) {
      var fees := FeeForGrowth(Sqrt(pool.K()), Sqrt(pool.KLast()),
                               s.ledger.Issued(pool.lpToken), s.protocolFee).value;
      MintBacked(s.ledger, pool.lpToken, s.feeReceiver.value, fees);
    }
  }

  // ---------- the invariant of the pools ----------

  function Supply(s: State, key: Pair): nat
    requires key in s.pools
  {
    s.ledger.Issued(s.pools[key].lpToken)
  }

  ghost predicate PoolOk(s: State, key: Pair)
    requires key in s.pools
  {
    && key.0 > key.1
    && 0 < s.pools[key].base <= U128_MAX && 0 < s.pools[key].quote <= U128_MAX
    && s.cfg.minLiquidity <= s.ledger.Balance(s.pools[key].lpToken, AmmLock)
  }

  ghost predicate AmmInv(s: State) {
    && ValidConfig(s.cfg)
    && s.protocolFee <= MILLION
    && Backed(s.ledger)
    && (forall key :: key in s.pools ==> PoolOk(s, key))
    && (forall k, m :: k in s.pools && m in s.pools && k != m ==> s.pools[k].lpToken != s.pools[m].lpToken)
  }

  lemma SupplyPositive(s: State, key: Pair)
    requires AmmInv(s) && key in s.pools
    ensures Supply(s, key) >= s.cfg.minLiquidity > 0
  {
    TwoHolders(s.ledger, s.pools[key].lpToken, AmmLock, AmmPot);
  }

  /** A successful call replaces the pool of one pair and touches the supply of no other. */
  ghost predicate Replaces(s: State, t: State, key: Pair) {
    && key in t.pools
    && t == s.Put(key, t.pools[key], t.ledger)
    && (key in s.pools ==> t.pools[key].lpToken == s.pools[key].lpToken)
    && OnlyIssued(s.ledger, t.ledger, t.pools[key].lpToken)
  }

  lemma ReplaceKeepsInv(s: State, t: State, key: Pair)
    requires AmmInv(s) && Replaces(s, t, key) && LockKept(s.ledger, t.ledger) && Backed(t.ledger)
    requires key.0 > key.1 && 0 < t.pools[key].base <= U128_MAX && 0 < t.pools[key].quote <= U128_MAX
    requires s.cfg.minLiquidity <= t.ledger.Balance(t.pools[key].lpToken, AmmLock)
    requires key !in s.pools ==> forall k :: k in s.pools ==> s.pools[k].lpToken != t.pools[key].lpToken
    ensures AmmInv(t)
    ensures forall k :: k in s.pools && k != key ==> t.pools[k] == s.pools[k] && Supply(t, k) == Supply(s, k)
  {
    hide Sum, Holdings;
  }

  /** The supply once the protocol fee is settled, before liquidity moves. */
  function SettledSupply(s: State, key: Pair): nat
    requires key in s.pools && MintProtocolFee(s, s.pools[key]).Ok?
  {
    MintProtocolFee(s, s.pools[key]).value.1.Issued(s.pools[key].lpToken)
  }

  ghost predicate PotGained(l: Ledger, n: Ledger, key: Pair, base: int, quote: int) {
    forall a: Asset :: n.Balance(a, AmmPot) >=
      l.Balance(a, AmmPot) + (if a == key.0 then base else 0) + (if a == key.1 then quote else 0)
  }

  /** What adding or removing liquidity does to a pool: reserves `base` and `quote` after it. */
  ghost predicate LiquidityMoved(s: State, t: State, key: Pair, base: nat, quote: nat)
    requires key in s.pools && MintProtocolFee(s, s.pools[key]).Ok?
  {
    && Replaces(s, t, key)
    && t.pools[key].base == base && t.pools[key].quote == quote
    && (s.FeeOn() ==> t.pools[key].baseLast == base && t.pools[key].quoteLast == quote)
    && (!s.FeeOn() ==> t.pools[key].KLast() == 0)
    && Supply(s, key) <= SettledSupply(s, key)
    && (!s.FeeOn() ==> SettledSupply(s, key) == Supply(s, key))
    && SharesKept(s.pools[key].base, s.pools[key].quote, SettledSupply(s, key), base, quote, Supply(t, key))
    && PotGained(s.ledger, t.ledger, key, base - s.pools[key].base, quote - s.pools[key].quote)
  }

  lemma CreateUnfolds(s: State, key: Pair, base: nat, quote: nat, receiver: UserId, lpToken: Asset)
    requires CreateAt(s, key, base, quote, receiver, lpToken).Ok?
    ensures key !in s.pools && s.ledger.Issued(lpToken) == 0
    ensures var added := DoAddLiquidity(s.cfg.minLiquidity, s.FeeOn(), s.ledger, receiver, key,
                                        Pool(0, 0, 0, 0, lpToken), base, quote);
            && added.Ok?
            && CreateAt(s, key, base, quote, receiver, lpToken).value == s.Put(key, added.value.0, added.value.1)
  {
    hide DoAddLiquidity;
  }

  /** A new pool: its supply is the root of its product. */
  lemma CreateEffect(s: State, key: Pair, base: nat, quote: nat, receiver: UserId, lpToken: Asset)
    requires AmmInv(s) && key.0 > key.1 && CreateAt(s, key, base, quote, receiver, lpToken).Ok?
    ensures var t := CreateAt(s, key, base, quote, receiver, lpToken).value;
            && key !in s.pools && Replaces(s, t, key) && AmmInv(t)
            && t.pools[key] == Snapshot(s.FeeOn(), Pool(base, quote, 0, 0, lpToken))
            && Supply(t, key) == Sqrt(Mul(base, quote))
            && PotMoved(s.ledger, t.ledger, key, base, quote)
            && UsersMoved(s.ledger, t.ledger, receiver, lpToken, Supply(t, key) - s.cfg.minLiquidity,
                          key, 0 - base, 0 - quote)
  {
    hide Sum, Holdings, Sqrt, DoAddLiquidity, CreateAt, Backed;
    CreateUnfolds(s, key, base, quote, receiver, lpToken);
    var t := CreateAt(s, key, base, quote, receiver, lpToken).value;
    AddShape(s.cfg.minLiquidity, s.FeeOn(), s.ledger, receiver, key, Pool(0, 0, 0, 0, lpToken), base, quote);
    assert base > 0 && quote > 0 by {
      SqrtBounds(Mul(base, quote));
      PositiveProduct(Sqrt(Mul(base, quote)), Sqrt(Mul(base, quote)));
    }
    forall k | k in s.pools
      ensures s.pools[k].lpToken != lpToken
    {
      SupplyPositive(s, k);
    }
    ReplaceKeepsInv(s, t, key);
  }

  /** Settling the fee and then moving liquidity, put together. */
  lemma Assemble(s: State, t: State, key: Pair, fl: Ledger, base: nat, quote: nat)
    requires AmmInv(s) && key in s.pools && MintProtocolFee(s, s.pools[key]).Ok?
    requires fl == MintProtocolFee(s, s.pools[key]).value.1
    requires 0 < base <= U128_MAX && 0 < quote <= U128_MAX
    requires var p := MintProtocolFee(s, s.pools[key]).value.0;
             t == s.Put(key, Snapshot(s.FeeOn(), p.(base := base, quote := quote)), t.ledger)
    requires OnlyIssued(fl, t.ledger, s.pools[key].lpToken) && LockKept(fl, t.ledger) && Backed(t.ledger)
    requires PotMoved(fl, t.ledger, key, base - s.pools[key].base, quote - s.pools[key].quote)
    requires SharesKept(s.pools[key].base, s.pools[key].quote, fl.Issued(s.pools[key].lpToken), base, quote,
                        t.ledger.Issued(s.pools[key].lpToken))
    ensures AmmInv(t) && LiquidityMoved(s, t, key, base, quote)
  {
    hide Sum, Holdings, SharesKept, Backed;
    FeeShape(s, s.pools[key]);
    hide MintProtocolFee;
    assert Replaces(s, t, key);
    assert PoolOk(s, key);
    ReplaceKeepsInv(s, t, key);
  }

  lemma AddUnfolds(s: State, who: UserId, key: Pair, base: nat, quote: nat)
    requires key in s.pools && AddIdeal(s, who, key, base, quote).Ok?
    ensures MintProtocolFee(s, s.pools[key]).Ok?
    ensures var (pool, l) := MintProtocolFee(s, s.pools[key]).value;
            var added := DoAddLiquidity(s.cfg.minLiquidity, s.FeeOn(), l, who, key, pool, base, quote);
            added.Ok? && AddIdeal(s, who, key, base, quote).value == s.Put(key, added.value.0, added.value.1)
  {
    hide MintProtocolFee, DoAddLiquidity;
  }

  lemma AddEffect(s: State, who: UserId, key: Pair, base: nat, quote: nat)
    requires AmmInv(s) && key in s.pools && AddIdeal(s, who, key, base, quote).Ok?
    ensures MintProtocolFee(s, s.pools[key]).Ok?
    ensures var t := AddIdeal(s, who, key, base, quote).value;
            && AmmInv(t) && LiquidityMoved(s, t, key, s.pools[key].base + base, s.pools[key].quote + quote)
            && UsersMoved(MintProtocolFee(s, s.pools[key]).value.1, t.ledger, who, s.pools[key].lpToken,
                          Supply(t, key) - SettledSupply(s, key), key, 0 - base, 0 - quote)
  {
    hide Sum, Holdings, LiquidityFor, SharesKept, MintProtocolFee, DoAddLiquidity, AddIdeal, LiquidityMoved, Backed;
    AddUnfolds(s, who, key, base, quote);
    var t := AddIdeal(s, who, key, base, quote).value;
    var (pool, l) := MintProtocolFee(s, s.pools[key]).value;
    FeeShape(s, s.pools[key]);
    SupplyPositive(s, key);
    AddShape(s.cfg.minLiquidity, s.FeeOn(), l, who, key, pool, base, quote);
    AddKeepsShares(pool, l.Issued(pool.lpToken), base, quote, s.cfg.minLiquidity);
    Assemble(s, t, key, l, pool.base + base, pool.quote + quote);
  }

  lemma RemoveKeepsShares(pool: Pool, supply: nat, liquidity: nat)
    requires liquidity < supply && pool.base > 0 && pool.quote > 0
    ensures MulDiv(liquidity, pool.base, supply) < pool.base && MulDiv(liquidity, pool.quote, supply) < pool.quote
    ensures SharesKept(pool.base, pool.quote, supply, pool.base - MulDiv(liquidity, pool.base, supply),
                       pool.quote - MulDiv(liquidity, pool.quote, supply), supply - liquidity)
  {
    SoldShares(pool.base, supply, liquidity);
    SoldShares(pool.quote, supply, liquidity);
  }

  lemma RemoveUnfolds(s: State, who: UserId, key: Pair, liquidity: nat)
    requires RemoveAt(s, who, key, liquidity).Ok?
    ensures key in s.pools && MintProtocolFee(s, s.pools[key]).Ok?
    ensures var (pool, l) := MintProtocolFee(s, s.pools[key]).value;
            var removed := DoRemoveLiquidity(s.FeeOn(), l, who, key, pool, liquidity);
            removed.Ok? && RemoveAt(s, who, key, liquidity).value == s.Put(key, removed.value.0, removed.value.1)
  {
    hide MintProtocolFee, DoRemoveLiquidity;
  }

  lemma RemoveEffect(s: State, who: UserId, key: Pair, liquidity: nat)
    requires AmmInv(s) && key in s.pools && RemoveAt(s, who, key, liquidity).Ok?
    ensures MintProtocolFee(s, s.pools[key]).Ok?
    ensures var t := RemoveAt(s, who, key, liquidity).value;
            && key in t.pools
            && AmmInv(t) && LiquidityMoved(s, t, key, t.pools[key].base, t.pools[key].quote)
            && Supply(t, key) == SettledSupply(s, key) - liquidity
            && UsersMoved(MintProtocolFee(s, s.pools[key]).value.1, t.ledger, who, s.pools[key].lpToken, 0 - liquidity,
                          key, s.pools[key].base - t.pools[key].base, s.pools[key].quote - t.pools[key].quote)
  {
    hide Sum, Holdings, SharesKept, MintProtocolFee, DoRemoveLiquidity, RemoveAt, LiquidityMoved, Backed, MulDiv;
    RemoveUnfolds(s, who, key, liquidity);
    var t := RemoveAt(s, who, key, liquidity).value;
    var (pool, l) := MintProtocolFee(s, s.pools[key]).value;
    FeeShape(s, s.pools[key]);
    RemoveShape(s.FeeOn(), l, who, key, pool, liquidity);
    var supply := l.Issued(pool.lpToken);
    assert liquidity < supply by {
      TwoHolders(l, pool.lpToken, User(who), AmmLock);
    }
    RemoveKeepsShares(pool, supply, liquidity);
    Assemble(s, t, key, l, t.pools[key].base, t.pools[key].quote);
  }

  // ---------- swaps ----------

  /** A swap changes the two reserves and nothing else of its pool, and strictly raises their product. */
  ghost predicate Traded(s: State, t: State, key: Pair)
    requires key in s.pools
  {
    && Replaces(s, t, key)
    && t.pools[key] == s.pools[key].(base := t.pools[key].base, quote := t.pools[key].quote)
    && t.ledger.issuance == s.ledger.issuance
    && t.pools[key].K() > s.pools[key].K()
    && PotMoved(s.ledger, t.ledger, key, t.pools[key].base - s.pools[key].base,
                t.pools[key].quote - s.pools[key].quote)
  }

  lemma SidesProduct(pool: Pool, inverted: bool, sideIn: nat, sideOut: nat)
    ensures WithSides(pool, inverted, sideIn, sideOut).K() == sideIn * sideOut
    ensures Sides(pool, inverted).0 * Sides(pool, inverted).1 == pool.K()
  {
  }

  lemma SwapReserves(fee: nat, amountIn: nat, reserveIn: nat, reserveOut: nat)
    requires 0 < fee < MILLION && reserveIn > 0 && reserveOut > 0
    requires amountIn >= ReciprocalMulCeil(fee, 1) && GetAmountOut(fee, amountIn, reserveIn, reserveOut).Ok?
    ensures var out := GetAmountOut(fee, amountIn, reserveIn, reserveOut).value;
            out < reserveOut && (reserveIn + amountIn) * (reserveOut - out) > reserveIn * reserveOut
  {
    hide GetAmountOut, MulCeil;
    assert amountIn > 0 by {
      CeilBounds(MILLION, fee);
    }
    hide ReciprocalMulCeil;
    FeeIsPositive(fee, amountIn);
    SwapGrowsProduct(fee, amountIn, reserveIn, reserveOut);
    var out := GetAmountOut(fee, amountIn, reserveIn, reserveOut).value;
    PositiveProduct(MulCeil(fee, amountIn), reserveOut - out);
  }

  lemma SwapUnfolds(s: State, who: UserId, a: Asset, b: Asset, amountIn: nat)
    requires s.cfg.lpFee > 0 && Amm.Swap(s, who, a, b, amountIn).Ok?
    ensures a != b
    ensures var (inverted, key) := SortAssets(a, b).value;
            && key in s.pools && amountIn >= ReciprocalMulCeil(s.cfg.lpFee, 1)
            && var (sideIn, sideOut) := Sides(s.pools[key], inverted);
               var (t, out) := Amm.Swap(s, who, a, b, amountIn).value;
               && GetAmountOut(s.cfg.lpFee, amountIn, sideIn, sideOut) == Ok(out)
               && out <= sideOut && sideIn + amountIn <= U128_MAX
               && s.ledger.Transfer(a, User(who), AmmPot, amountIn).Ok?
               && var l := s.ledger.Transfer(a, User(who), AmmPot, amountIn).value;
                  && l.Transfer(b, AmmPot, User(who), out).Ok?
                  && t == s.Put(key, WithSides(s.pools[key], inverted, sideIn + amountIn, sideOut - out),
                                l.Transfer(b, AmmPot, User(who), out).value)
  {
    hide GetAmountOut, Ledger.Transfer;
  }

  /** One asset into the pot, the other out of it. */
  lemma Exchanged(l: Ledger, who: UserId, a: Asset, b: Asset, paid: nat, out: nat)
    requires a != b && Backed(l) && l.Transfer(a, User(who), AmmPot, paid).Ok?
    requires l.Transfer(a, User(who), AmmPot, paid).value.Transfer(b, AmmPot, User(who), out).Ok?
    ensures var n := l.Transfer(a, User(who), AmmPot, paid).value.Transfer(b, AmmPot, User(who), out).value;
            && n.issuance == l.issuance && Backed(n) && LockKept(l, n)
            && PotMoved(l, n, (a, b), paid, 0 - out) && PotMoved(l, n, (b, a), 0 - out, paid)
            && UsersMoved(l, n, who, a, 0, (a, b), 0 - paid, out)
  {
    hide Backed, Ledger.Transfer;
    TransferBacked(l, a, User(who), AmmPot, paid);
    TransferBacked(l.Transfer(a, User(who), AmmPot, paid).value, b, AmmPot, User(who), out);
  }

  /** The new reserves and the money that moved with them, put together. */
  lemma TradeAssembles(s: State, t: State, a: Asset, b: Asset, paid: nat, out: nat)
    requires AmmInv(s) && a != b && SortAssets(a, b).value.1 in s.pools
    requires var (inverted, key) := SortAssets(a, b).value;
             var (sideIn, sideOut) := Sides(s.pools[key], inverted);
             && sideIn + paid <= U128_MAX && out < sideOut
             && t == s.Put(key, WithSides(s.pools[key], inverted, sideIn + paid, sideOut - out), t.ledger)
             && (sideIn + paid) * (sideOut - out) > sideIn * sideOut
    requires t.ledger.issuance == s.ledger.issuance && Backed(t.ledger) && LockKept(s.ledger, t.ledger)
    requires PotMoved(s.ledger, t.ledger, (a, b), paid, 0 - out) && PotMoved(s.ledger, t.ledger, (b, a), 0 - out, paid)
    ensures AmmInv(t) && Traded(s, t, SortAssets(a, b).value.1)
  {
    hide Backed, PotMoved, Mul;
    var (inverted, key) := SortAssets(a, b).value;
    var (sideIn, sideOut) := Sides(s.pools[key], inverted);
    SidesProduct(s.pools[key], inverted, sideIn + paid, sideOut - out);
    assert PoolOk(s, key);
    ReplaceKeepsInv(s, t, key);
  }

  lemma SwapTrades(s: State, who: UserId, a: Asset, b: Asset, amountIn: nat)
    requires AmmInv(s) && Amm.Swap(s, who, a, b, amountIn).Ok?
    ensures a != b && SortAssets(a, b).value.1 in s.pools
    ensures var t := Amm.Swap(s, who, a, b, amountIn).value.0;
            AmmInv(t) && Traded(s, t, SortAssets(a, b).value.1)
  {
    hide Amm.Swap, Backed, UsersMoved, GetAmountOut, ReciprocalMulCeil, Mul, Ledger.Transfer, PotMoved, LockKept, Traded;
    SwapUnfolds(s, who, a, b, amountIn);
    var (inverted, key) := SortAssets(a, b).value;
    var (sideIn, sideOut) := Sides(s.pools[key], inverted);
    var (t, out) := Amm.Swap(s, who, a, b, amountIn).value;
    assert PoolOk(s, key);
    SwapReserves(s.cfg.lpFee, amountIn, sideIn, sideOut);
    Exchanged(s.ledger, who, a, b, amountIn, out);
    hide AmmInv;
    TradeAssembles(s, t, a, b, amountIn, out);
  }

  lemma SwapPays(s: State, who: UserId, a: Asset, b: Asset, amountIn: nat)
    requires AmmInv(s) && Amm.Swap(s, who, a, b, amountIn).Ok?
    ensures var (t, out) := Amm.Swap(s, who, a, b, amountIn).value;
            UsersMoved(s.ledger, t.ledger, who, a, 0, (a, b), 0 - amountIn, out)
  {
    hide Amm.Swap, Backed, UsersMoved, GetAmountOut, ReciprocalMulCeil, Mul, Ledger.Transfer, PotMoved;
    SwapUnfolds(s, who, a, b, amountIn);
    Exchanged(s.ledger, who, a, b, amountIn, Amm.Swap(s, who, a, b, amountIn).value.1);
  }

  /** A swap trades on its pool, and only the caller gives and gets. */
  lemma SwapEffect(s: State, who: UserId, a: Asset, b: Asset, amountIn: nat)
    requires AmmInv(s) && Amm.Swap(s, who, a, b, amountIn).Ok?
    ensures a != b && SortAssets(a, b).value.1 in s.pools
    ensures var (t, out) := Amm.Swap(s, who, a, b, amountIn).value;
            && AmmInv(t) && Traded(s, t, SortAssets(a, b).value.1)
            && UsersMoved(s.ledger, t.ledger, who, a, 0, (a, b), 0 - amountIn, out)
  {
    hide Amm.Swap, AmmInv, Traded, UsersMoved;
    InvFee(s);
    SwapTrades(s, who, a, b, amountIn);
    SwapPays(s, who, a, b, amountIn);
  }

  lemma InvFee(s: State)
    requires AmmInv(s)
    ensures s.cfg.lpFee > 0
  {
  }
}
