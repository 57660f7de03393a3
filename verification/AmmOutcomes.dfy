/** When the calls of the exchange succeed, exactly, and at which amounts: creating a pool, adding liquidity between its
    minimum and desired amounts, swapping, and setting the protocol fee. */
module AmmOutcomes {
  import opened Base
  import opened Assets
  import opened AmmMath
  import opened AmmLaws
  import opened Amm
  import opened AmmEffects
  import opened AmmRuns
  import opened AmmValue
  import opened AmmExits
  import opened AmmQuotes

  // ---------- adding liquidity ----------

  /** What is taken of the desired amounts `x` and `y` at the reserves `rx` and `ry`: all of `x` with its counter value
      rounded down, if `y` covers that; otherwise all of `y` with its counter value rounded down. */
  predicate Ideal(x: nat, y: nat, rx: nat, ry: nat, px: nat, py: nat) {
    if x * ry < (y + 1) * rx then px == x && py * rx <= x * ry < (py + 1) * rx
    else py == y && px * ry <= y * rx < (px + 1) * ry
  }

  lemma FloorIsOne(n: nat, d: nat, p: nat, q: nat)
    requires p * d <= n < (p + 1) * d && q * d <= n < (q + 1) * d
    ensures p == q
  {
    assert d > 0;
    FloorGreatest(n, d, p);
    FloorGreatest(n, d, p + 1);
    FloorGreatest(n, d, q);
    FloorGreatest(n, d, q + 1);
  }

  lemma CoversCounterValue(x: nat, y: nat, rx: nat, ry: nat)
    requires rx > 0
    ensures MulDiv(x, ry, rx) <= y <==> x * ry < (y + 1) * rx
  {
    FloorGreatest(x * ry, rx, y + 1);
    assert rx * (y + 1) == (y + 1) * rx;
  }

  lemma IdealRule(pool: Pool, base: nat, quote: nat)
    requires pool.base > 0 && pool.quote > 0 && base <= U128_MAX
    ensures GetIdealAmounts(pool, base, quote).Ok? <==> base * pool.quote < (U128_MAX + 1) * pool.base
    ensures GetIdealAmounts(pool, base, quote).Ok? ==>
              var (b, q) := GetIdealAmounts(pool, base, quote).value;
              b <= base && q <= quote && Ideal(base, quote, pool.base, pool.quote, b, q)
  {
    hide MulDiv;
    CoversCounterValue(base, quote, pool.base, pool.quote);
    CoversCounterValue(base, U128_MAX, pool.base, pool.quote);
    Proportion(base, pool.base, pool.quote);
    Proportion(quote, pool.quote, pool.base);
    if MulDiv(base, pool.quote, pool.base) > quote {
      SmallerSide(base, quote, pool.base, pool.quote);
    }
  }

  lemma IdealIsOne(x: nat, y: nat, rx: nat, ry: nat, px: nat, py: nat, qx: nat, qy: nat)
    requires Ideal(x, y, rx, ry, px, py) && Ideal(x, y, rx, ry, qx, qy)
    ensures px == qx && py == qy
  {
    if x * ry < (y + 1) * rx {
      FloorIsOne(x * ry, rx, py, qy);
    } else {
      FloorIsOne(y * rx, ry, px, qx);
    }
  }

  /** The same for two assets in either order; a pool puts the greater asset first. */
  predicate IdealFor(s: State, a: Asset, b: Asset, desiredA: nat, desiredB: nat, paidA: nat, paidB: nat)
    requires HasPool(s, a, b)
  {
    if a > b then Ideal(desiredA, desiredB, ReserveIn(s, a, b), ReserveOut(s, a, b), paidA, paidB)
    else Ideal(desiredB, desiredA, ReserveOut(s, a, b), ReserveIn(s, a, b), paidB, paidA)
  }

  /** The counter value of the first desired amount is a machine integer. */
  predicate Quotable(s: State, a: Asset, b: Asset, desiredA: nat, desiredB: nat)
    requires HasPool(s, a, b)
  {
    if a > b then desiredA * ReserveOut(s, a, b) < (U128_MAX + 1) * ReserveIn(s, a, b)
    else desiredB * ReserveIn(s, a, b) < (U128_MAX + 1) * ReserveOut(s, a, b)
  }

  /** `add_liquidity` up to the point where it pays: the amounts it would pay, as stored. */
  lemma AddCases(s: State, op: Op, paidA: nat, paidB: nat)
    requires AmmInv(s) && op.AddLiquidity? && HasPool(s, op.a, op.b)
    requires op.desiredA <= U128_MAX && op.desiredB <= U128_MAX
    requires IdealFor(s, op.a, op.b, op.desiredA, op.desiredB, paidA, paidB)
    ensures !Quotable(s, op.a, op.b, op.desiredA, op.desiredB) ==> Call(s, op) == Err(Overflow)
    ensures Quotable(s, op.a, op.b, op.desiredA, op.desiredB) ==>
              && paidA <= op.desiredA && paidB <= op.desiredB
              && Call(s, op) == if paidA < op.minimumA || paidB < op.minimumB then Err(NotAnIdealPrice)
                                else if op.a > op.b then AddIdeal(s, op.who, (op.a, op.b), paidA, paidB)
                                else AddIdeal(s, op.who, (op.b, op.a), paidB, paidA)
  {
    hide AddIdeal, GetIdealAmounts, Backed, Ideal;
    var (inverted, key) := SortAssets(op.a, op.b).value;
    var (base, quote) := if inverted then (op.desiredB, op.desiredA) else (op.desiredA, op.desiredB);
    var pool := s.pools[key];
    assert PoolOk(s, key);
    IdealRule(pool, base, quote);
    IdealOverflow(pool, base, quote);
    if GetIdealAmounts(pool, base, quote).Ok? {
      var (b, q) := GetIdealAmounts(pool, base, quote).value;
      IdealIsOne(base, quote, pool.base, pool.quote, b, q,
                 if inverted then paidB else paidA, if inverted then paidA else paidB);
    }
  }

  lemma IdealOverflow(pool: Pool, base: nat, quote: nat)
    ensures GetIdealAmounts(pool, base, quote).Err? ==> GetIdealAmounts(pool, base, quote) == Err(Overflow)
  {
  }

  lemma IdealExists(s: State, op: Op) returns (paidA: nat, paidB: nat)
    requires AmmInv(s) && op.AddLiquidity? && Call(s, op).Ok? && op.desiredA <= U128_MAX && op.desiredB <= U128_MAX
    ensures HasPool(s, op.a, op.b) && Quotable(s, op.a, op.b, op.desiredA, op.desiredB)
    ensures IdealFor(s, op.a, op.b, op.desiredA, op.desiredB, paidA, paidB)
  {
    hide AddIdeal, GetIdealAmounts, Backed, Ideal;
    var (inverted, key) := SortAssets(op.a, op.b).value;
    var (base, quote) := if inverted then (op.desiredB, op.desiredA) else (op.desiredA, op.desiredB);
    assert PoolOk(s, key);
    IdealRule(s.pools[key], base, quote);
    var (b, q) := GetIdealAmounts(s.pools[key], base, quote).value;
    paidA, paidB := if inverted then q else b, if inverted then b else q;
  }

  /** What adding liquidity takes: of each asset, in whichever order they are named, at least the minimum and at most the
      desired amount, of one of them all that is desired, and of the other its counter value. */
  lemma AddTerms(s: State, op: Op)
    requires AmmInv(s) && op.AddLiquidity? && Call(s, op).Ok? && op.desiredA <= U128_MAX && op.desiredB <= U128_MAX
    ensures HasPool(s, op.a, op.b) && HasPool(Step(s, op), op.a, op.b)
    ensures var t := Step(s, op);
            var paidA := ReserveIn(t, op.a, op.b) - ReserveIn(s, op.a, op.b);
            var paidB := ReserveOut(t, op.a, op.b) - ReserveOut(s, op.a, op.b);
            && op.minimumA <= paidA <= op.desiredA && op.minimumB <= paidB <= op.desiredB
            && 0 <= paidA && 0 <= paidB && (paidA == op.desiredA || paidB == op.desiredB)
            && IdealFor(s, op.a, op.b, op.desiredA, op.desiredB, paidA, paidB)
  {
    hide Call, Step, AmmInv, AddIdeal, HasPool, ReserveIn, ReserveOut, IdealFor, Quotable;
    var paidA, paidB := IdealExists(s, op);
    AddCases(s, op, paidA, paidB);
    IdealTakesOne(s, op.a, op.b, op.desiredA, op.desiredB, paidA, paidB);
    AddReserves(s, op, paidA, paidB);
  }

  lemma IdealTakesOne(s: State, a: Asset, b: Asset, desiredA: nat, desiredB: nat, paidA: nat, paidB: nat)
    requires HasPool(s, a, b) && IdealFor(s, a, b, desiredA, desiredB, paidA, paidB)
    ensures paidA == desiredA || paidB == desiredB
  {
  }

  lemma AddReserves(s: State, op: Op, paidA: nat, paidB: nat)
    requires AmmInv(s) && op.AddLiquidity? && Call(s, op).Ok? && HasPool(s, op.a, op.b)
    requires Call(s, op) == if op.a > op.b then AddIdeal(s, op.who, (op.a, op.b), paidA, paidB)
                            else AddIdeal(s, op.who, (op.b, op.a), paidB, paidA)
    ensures HasPool(Step(s, op), op.a, op.b)
    ensures ReserveIn(Step(s, op), op.a, op.b) == ReserveIn(s, op.a, op.b) + paidA
    ensures ReserveOut(Step(s, op), op.a, op.b) == ReserveOut(s, op.a, op.b) + paidB
  {
    hide AddIdeal, AmmInv, MintProtocolFee, Call, UsersMoved, SharesKept, PotGained, OnlyIssued;
    if op.a > op.b {
      AddEffect(s, op.who, (op.a, op.b), paidA, paidB);
    } else {
      AddEffect(s, op.who, (op.b, op.a), paidB, paidA);
    }
  }

  /** The price is refused exactly if the ideal amount of one of the assets is below the minimum asked for it. */
  lemma AddRefused(s: State, op: Op, paidA: nat, paidB: nat)
    requires AmmInv(s) && op.AddLiquidity? && HasPool(s, op.a, op.b)
    requires op.desiredA <= U128_MAX && op.desiredB <= U128_MAX
    requires IdealFor(s, op.a, op.b, op.desiredA, op.desiredB, paidA, paidB)
    ensures Call(s, op) == Err(NotAnIdealPrice) <==>
              && Quotable(s, op.a, op.b, op.desiredA, op.desiredB)
              && (paidA < op.minimumA || paidB < op.minimumB)
  {
    AddCases(s, op, paidA, paidB);
    hide Call, AmmInv, IdealFor, Quotable;
    AddNeverPrices(s, op.who, if op.a > op.b then (op.a, op.b) else (op.b, op.a),
                   if op.a > op.b then paidA else paidB, if op.a > op.b then paidB else paidA);
  }

  lemma AddNeverPrices(s: State, who: UserId, key: Pair, base: nat, quote: nat)
    requires key in s.pools
    ensures AddIdeal(s, who, key, base, quote) != Err(NotAnIdealPrice)
  {
    hide Sqrt, MulDiv, Mul;
  }

  // ---------- creating ----------

  lemma ProductFits(x: nat, y: nat)
    requires x <= U128_MAX && y <= U128_MAX
    ensures Sqrt(Mul(x, y)) <= U128_MAX
  {
    hide Sqrt;
    MulMonotone(x, y, U128_MAX);
    MulMonotone(U128_MAX, x, U128_MAX);
    RootReaches(U128_MAX + 1, Mul(x, y));
  }

  lemma DoCreateSucceeds(s: State, key: Pair, base: nat, quote: nat, receiver: UserId, lpToken: Asset)
    requires key.0 != key.1 && lpToken != key.0 && lpToken != key.1 && s.ledger.Issued(lpToken) == 0
    ensures DoAddLiquidity(s.cfg.minLiquidity, s.FeeOn(), s.ledger, receiver, key,
                           Pool(0, 0, 0, 0, lpToken), base, quote).Ok?
            <==>
            && s.cfg.minLiquidity <= Sqrt(Mul(base, quote)) && base <= U128_MAX && quote <= U128_MAX
            && base <= s.ledger.Balance(key.0, User(receiver)) && quote <= s.ledger.Balance(key.1, User(receiver))
  {
    hide Sqrt, Ledger.Mint, Ledger.Transfer, Mul;
    if base <= U128_MAX && quote <= U128_MAX {
      ProductFits(base, quote);
    }
  }

  lemma CreateAtSucceeds(s: State, key: Pair, base: nat, quote: nat, receiver: UserId, lpToken: Asset)
    requires key.0 != key.1 && lpToken != key.0 && lpToken != key.1
    ensures CreateAt(s, key, base, quote, receiver, lpToken).Ok? <==>
              && key !in s.pools && s.ledger.Issued(lpToken) == 0
              && s.cfg.minLiquidity <= Sqrt(Mul(base, quote)) && base <= U128_MAX && quote <= U128_MAX
              && base <= s.ledger.Balance(key.0, User(receiver)) && quote <= s.ledger.Balance(key.1, User(receiver))
  {
    hide DoAddLiquidity, Sqrt, Mul;
    if s.ledger.Issued(lpToken) == 0 {
      DoCreateSucceeds(s, key, base, quote, receiver, lpToken);
    }
  }

  /** A pool can be created exactly for two different assets without one, a liquidity token not issued yet, and amounts
      that the receiver owns, that are machine integers, and whose product makes up the square of the liquidity to be
      locked; each asset has then the amount given for it as its reserve. */
  lemma CreateSucceeds(s: State, op: Op)
    requires AmmInv(s) && op.CreatePool? && op.lpToken != op.a && op.lpToken != op.b
    ensures Call(s, op).Ok? <==>
              && op.a != op.b && !HasPool(s, op.a, op.b) && s.ledger.Issued(op.lpToken) == 0
              && s.cfg.minLiquidity * s.cfg.minLiquidity <= op.amountA * op.amountB
              && op.amountA <= Min(s.ledger.Balance(op.a, User(op.receiver)), U128_MAX)
              && op.amountB <= Min(s.ledger.Balance(op.b, User(op.receiver)), U128_MAX)
    ensures Call(s, op).Ok? ==>
              && HasPool(Step(s, op), op.a, op.b)
              && ReserveIn(Step(s, op), op.a, op.b) == op.amountA && ReserveOut(Step(s, op), op.a, op.b) == op.amountB
  {
    hide CreateAt, Sqrt, AmmInv, UsersMoved, PotMoved, OnlyIssued;
    InvFee(s);
    RootReaches(s.cfg.minLiquidity, Mul(op.amountA, op.amountB));
    assert Mul(op.amountA, op.amountB) == Mul(op.amountB, op.amountA);
    if op.a > op.b {
      CreateAtSucceeds(s, (op.a, op.b), op.amountA, op.amountB, op.receiver, op.lpToken);
      if Call(s, op).Ok? {
        CreateEffect(s, (op.a, op.b), op.amountA, op.amountB, op.receiver, op.lpToken);
      }
    } else if op.a < op.b {
      CreateAtSucceeds(s, (op.b, op.a), op.amountB, op.amountA, op.receiver, op.lpToken);
      if Call(s, op).Ok? {
        CreateEffect(s, (op.b, op.a), op.amountB, op.amountA, op.receiver, op.lpToken);
      }
    }
  }

  // ---------- swapping ----------

  lemma QuoteExists(fee: nat, amountIn: nat, reserveIn: nat, reserveOut: nat)
    requires 0 < fee < MILLION && reserveIn > 0 && 0 < reserveOut <= U128_MAX
    ensures GetAmountOut(fee, amountIn, reserveIn, reserveOut).Ok?
    ensures GetAmountOut(fee, amountIn, reserveIn, reserveOut).value <= reserveOut
  {
    MulMonotone(amountIn, fee, MILLION);
    CeilLeast(amountIn * fee, MILLION, amountIn);
    var net: nat := amountIn - MulCeil(fee, amountIn);
    FloorGreatest(net * reserveOut, reserveIn + net, reserveOut + 1);
    MulMonotone(reserveOut, net, reserveIn + net);
    assert (reserveIn + net) * (reserveOut + 1) == reserveOut * (reserveIn + net) + (reserveIn + net);
  }

  lemma FeeIsWhole(fee: nat, amountIn: nat)
    requires 0 < fee < MILLION
    ensures amountIn >= ReciprocalMulCeil(fee, 1) <==> MILLION <= fee * amountIn
  {
    CeilLeast(MILLION, fee, amountIn);
    CeilLeast(MILLION, fee, MILLION);
    assert MILLION <= fee * MILLION;
  }

  /** A swap succeeds exactly if the assets have a pool, the fee on the amount is worth at least a unit, the amount is
      the caller's, and the reserve can take it. */
  lemma SwapSucceeds(s: State, who: UserId, a: Asset, b: Asset, amountIn: nat)
    requires Healthy(s)
    ensures s.cfg.lpFee > 0
    ensures Amm.Swap(s, who, a, b, amountIn).Ok? <==>
              && HasPool(s, a, b) && MILLION <= s.cfg.lpFee * amountIn
              && amountIn <= s.ledger.Balance(a, User(who)) && ReserveIn(s, a, b) + amountIn <= U128_MAX
  {
    hide GetAmountOut, ReciprocalMulCeil, Ledger.Transfer, InCustody, Backed;
    FeeIsWhole(s.cfg.lpFee, amountIn);
    if HasPool(s, a, b) {
      var key := SortAssets(a, b).value.1;
      assert PoolOk(s, key);
      ReserveInPot(s, key, b);
      QuoteExists(s.cfg.lpFee, amountIn, ReserveIn(s, a, b), ReserveOut(s, a, b));
    }
  }

  // ---------- the protocol fee ----------

  /** Fee and receiver are what the last call that set them said; a fee above the whole is refused. */
  lemma StepSettings(s: State, op: Op)
    requires AmmInv(s)
    ensures s.cfg.lpFee > 0
    ensures var t := Step(s, op);
            && t.protocolFee == (if op.UpdateProtocolFee? && op.fee <= MILLION then op.fee else s.protocolFee)
            && t.feeReceiver == (if op.UpdateProtocolFeeReceiver? then Some(op.account) else s.feeReceiver)
            && (t.FeeOn() <==> t.protocolFee > 0 && t.feeReceiver.Some?)
  {
    hide DoAddLiquidity, DoRemoveLiquidity, MintProtocolFee, GetIdealAmounts, GetAmountOut, Ledger.Transfer, Sqrt;
    hide ReciprocalMulCeil, WithSides, Backed;
  }

  // ---------- one hop ----------

  /** There is an input to ask for exactly if the reserve is more than what is wanted, and the input and the part of it
      left after the fee are machine integers. */
  lemma AmountInExists(fee: nat, wanted: nat, reserveIn: nat, reserveOut: nat)
    requires fee < MILLION
    ensures GetAmountIn(fee, wanted, reserveIn, reserveOut).Ok? <==>
              && wanted < reserveOut
              && var net := reserveIn * wanted / (reserveOut - wanted);
                 net <= U128_MAX && net * MILLION <= (MILLION - fee) * (U128_MAX - 1)
    ensures GetAmountIn(fee, wanted, reserveIn, reserveOut) == Err(InsufficientSupplyOut) <==> wanted >= reserveOut
  {
    if wanted < reserveOut {
      var net := reserveIn * wanted / (reserveOut - wanted);
      CeilLeast(net * MILLION, MILLION - fee, U128_MAX - 1);
    }
  }

  /** Over a single hop the asked input brings the wanted amount exactly if the hop suffices. */
  lemma OneHop(s: State, amountOut: nat, a: Asset, b: Asset)
    requires AmmInv(s) && 2 * s.cfg.lpFee <= MILLION && GetAmountsIn(s, amountOut, [a, b]).Ok?
    ensures var r := GetAmountsIn(s, amountOut, [a, b]).value;
            && HopPays(s, [a, b], 0, amountOut) && GetAmountsOut(s, r[0], [a, b]).Ok?
            && (GetAmountsOut(s, r[0], [a, b]).value[1] >= amountOut <==> HopSuffices(s, [a, b], 0, amountOut))
  {
    hide AmmInv, GetAmountsIn, GetAmountOut, LeastIn, HopSuffices, GetReserves;
    var path := [a, b];
    var r := GetAmountsIn(s, amountOut, path).value;
    ReverseQuote(s, amountOut, path, 0);
    SufficesIsEnough(s, amountOut, path, 0);
    assert path[..|path| - 1] == [a];
    ForwardHop(s, r[0], path, amountOut);
  }
}
