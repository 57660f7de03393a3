/** Runs from an exchange without pools: one whose pool a settlement pushes over the root, one whose pool is frozen, and
    one whose reverse quote falls short. */
module AmmInputs {
  import opened Base
  import opened Assets
  import opened AmmMath
  import opened AmmLaws
  import opened Amm
  import opened AmmEffects
  import opened AmmRuns
  import opened AmmValue
  import opened AmmExits
  import opened AmmQuotes
  import opened AmmOutcomes

  const PAIR: Pair := (2, 1)
  const LP: Asset := 9

  lemma RootOf2010()
    ensures Mul(2010, 2010) == 4040100 && Sqrt(4040100) == 2010
  {
    hide Sqrt;
    RootReaches(2010, 4040100);
    RootReaches(2011, 4040100);
  }

  /** A chain without pools, where user 0 owns 2010 of each of the two assets. */
  lemma NoPools() returns (s: State)
    ensures s.pools == map[] && s.cfg == Config(3000, 1000) && !s.FeeOn() && Healthy(s) && s.ledger.Issued(LP) == 0
    ensures s.ledger.Balance(2, User(0)) == 2010 && s.ledger.Balance(1, User(0)) == 2010
  {
    hide Backed, Spare;
    var l := EmptyLedger();
    l := Minted(l, 2, User(0), 2010);
    l := Minted(l, 1, User(0), 2010);
    s := State(map[], l, 0, None, Config(3000, 1000));
    StartsHealthy(s);
  }

  lemma AddWorks(l: Ledger)
    requires l.Issued(LP) == 0 && l.Balance(2, User(0)) == 2010 && l.Balance(1, User(0)) == 2010
    ensures DoAddLiquidity(1000, false, l, 0, PAIR, Pool(0, 0, 0, 0, LP), 2010, 2010).Ok?
  {
    hide Sqrt, Ledger.Mint, Ledger.Transfer;
    RootOf2010();
    var l1 := l.Mint(LP, AmmLock, 1000).value;
    assert LiquidityFor(Pool(0, 0, 0, 0, LP), 0, 2010, 2010, 1000) == Ok(1010);
    hide LiquidityFor;
    var l2 := l1.Mint(LP, User(0), 1010).value;
    var l3 := l2.Transfer(2, User(0), AmmPot, 2010).value;
  }

  /** The fee receiver is set, and the fee; the pool was created before. */
  function Opening(fee: nat): seq<Op> {
    [CreatePool(2, 1, 2010, 2010, 0, LP), UpdateProtocolFeeReceiver(User(5)), UpdateProtocolFee(fee)]
  }

  lemma ThreeSteps(s: State, a: Op, b: Op, c: Op, rest: seq<Op>)
    requires AmmInv(s)
    ensures var s1 := Step(s, a);
            && AmmInv(s1) && AmmInv(Step(s1, b)) && AmmInv(Step(Step(s1, b), c))
            && Run(s, [a, b, c] + rest) == Run(Step(Step(s1, b), c), rest)
  {
    hide Step, AmmInv;
    InvFee(s);
    Keeps(s, a);
    var s1 := Step(s, a);
    Keeps(s1, b);
    var s2 := Step(s1, b);
    Keeps(s2, c);
    var ops := [a, b, c] + rest;
    assert ops[0] == a && ops[1..] == [b, c] + rest;
    assert ([b, c] + rest)[0] == b && ([b, c] + rest)[1..] == [c] + rest;
    assert ([c] + rest)[0] == c && ([c] + rest)[1..] == rest;
    assert Run(s, ops) == Run(s1, [b, c] + rest);
    assert Run(s1, [b, c] + rest) == Run(s2, [c] + rest);
  }

  lemma Keeps(s: State, op: Op)
    requires AmmInv(s)
    ensures s.cfg.lpFee > 0 && AmmInv(Step(s, op)) && Step(s, op).cfg == s.cfg
  {
    hide Step;
    StepPerforms(s, op);
    StepKeepsConfig(s, op);
  }

  /** A pool created while the fee was off, without a snapshot, and the fee switched on since. */
  ghost predicate Charged(s: State, fee: nat) {
    && s.pools == map[PAIR := Pool(2010, 2010, 0, 0, LP)] && s.ledger.Issued(LP) == 2010
    && s.protocolFee == fee && s.FeeOn() && s.ledger.Balance(LP, User(0)) == 1010
  }

  lemma Opens(s: State, fee: nat)
    requires s.pools == map[] && s.cfg == Config(3000, 1000) && !s.FeeOn() && Healthy(s) && s.ledger.Issued(LP) == 0
    requires s.ledger.Balance(2, User(0)) == 2010 && s.ledger.Balance(1, User(0)) == 2010
    requires s.ledger.Balance(LP, User(0)) == 0
    requires 0 < fee <= MILLION
    ensures var s1 := Step(s, Opening(fee)[0]);
            s1.cfg == s.cfg && Step(s1, Opening(fee)[1]).cfg == s.cfg
            && Charged(Step(Step(s1, Opening(fee)[1]), Opening(fee)[2]), fee)
  {
    hide Sqrt, Backed, Spare, DoAddLiquidity;
    AddWorks(s.ledger);
    assert CreateAt(s, PAIR, 2010, 2010, 0, LP).Ok?;
    hide CreateAt;
    CreateEffect(s, PAIR, 2010, 2010, 0, LP);
    RootOf2010();
    var t := Step(s, Opening(fee)[0]);
    assert t.pools == map[PAIR := Pool(2010, 2010, 0, 0, LP)];
    hide AmmInv;
  }

  /** The pool at work after the opening, on a chain whose books are in order. */
  lemma OpensHealthy(fee: nat) returns (s: State, t: State)
    requires 0 < fee <= MILLION
    ensures s.pools == map[] && Healthy(s) && s.cfg.lpFee > 0
    ensures Charged(t, fee) && Healthy(t) && t.cfg.lpFee > 0
    ensures forall rest: seq<Op> :: Run(s, Opening(fee) + rest) == Run(t, rest)
  {
    hide Healthy, Step, Spare;
    s := NoPools();
    HealthyInv(s);
    NoneYet(s);
    Opens(s, fee);
    hide AmmInv;
    ThreeSteps(s, Opening(fee)[0], Opening(fee)[1], Opening(fee)[2], []);
    InvFee(s);
    StepKeepsHealthy(s, Opening(fee)[0]);
    var s1 := Step(s, Opening(fee)[0]);
    StepKeepsHealthy(s1, Opening(fee)[1]);
    var s2 := Step(s1, Opening(fee)[1]);
    StepKeepsHealthy(s2, Opening(fee)[2]);
    t := Step(s2, Opening(fee)[2]);
    HealthyInv(t);
    InvFee(t);
    forall rest: seq<Op>
      ensures Run(s, Opening(fee) + rest) == Run(t, rest)
    {
      ThreeSteps(s, Opening(fee)[0], Opening(fee)[1], Opening(fee)[2], rest);
      assert [Opening(fee)[0], Opening(fee)[1], Opening(fee)[2]] == Opening(fee);
    }
  }

  lemma HealthyInv(s: State)
    requires Healthy(s)
    ensures AmmInv(s)
  {
  }

  lemma NoneYet(s: State)
    requires AmmInv(s) && s.ledger.Issued(LP) == 0
    ensures s.ledger.Balance(LP, User(0)) == 0
  {
    TwoHolders(s.ledger, LP, User(0), AmmLock);
  }

  // ---------- over the root ----------

  lemma SettlingOf(s: State)
    requires AmmInv(s) && Charged(s, 30000)
    ensures MintProtocolFee(s, s.pools[PAIR]).Ok? && SettledSupply(s, PAIR) == 2072
  {
    hide Sqrt, Backed, MintProtocolFee, AmmInv;
    RootOf2010();
    RootOfZero(0);
    assert s.pools[PAIR].K() == 4040100 && s.pools[PAIR].KLast() == 0;
    assert Due(2010, 0, 2010, 30000) == 62;
    hide Due;
    SettlingSucceeds(s, PAIR);
  }

  lemma Overshoots(s: State)
    requires Healthy(s) && Charged(s, 30000)
    ensures s.cfg.lpFee > 0 && Sqrt(s.pools[PAIR].K()) == 2010 && WithinRoot(s, PAIR) && !SettlesWithin(s, PAIR)
    ensures var t := Step(s, RemoveLiquidity(2, 1, 0, 0));
            PAIR in t.pools && Supply(t, PAIR) == 2072 && t.pools[PAIR].K() == 4040100 && !WithinRoot(t, PAIR)
  {
    hide Sqrt, Backed, MintProtocolFee, DoRemoveLiquidity, MulDiv, RemoveAt, Spare, Settles, SharesKept;
    RootOf2010();
    assert s.pools[PAIR].K() == 4040100;
    SettlingOf(s);
    SettlingSucceeds(s, PAIR);
    SettledWithinRoot(s, PAIR);
    RemoveSucceeds(s, 0, 2, 1, 0);
    assert SortAssets(2, 1) == Ok((false, PAIR));
    RemoveEffect(s, 0, PAIR, 0);
    NothingOut(s);
  }

  lemma NothingOut(s: State)
    requires AmmInv(s) && PAIR in s.pools && RemoveAt(s, 0, PAIR, 0).Ok?
    ensures var t := RemoveAt(s, 0, PAIR, 0).value;
            PAIR in t.pools && t.pools[PAIR].base == s.pools[PAIR].base && t.pools[PAIR].quote == s.pools[PAIR].quote
  {
    hide MintProtocolFee, DoRemoveLiquidity, RemoveAt, MulDiv, Backed;
    RemoveUnfolds(s, 0, PAIR, 0);
    FeeShape(s, s.pools[PAIR]);
    var (pool, l) := MintProtocolFee(s, s.pools[PAIR]).value;
    assert PoolOk(s, PAIR);
    RemoveShape(s.FeeOn(), l, 0, PAIR, pool, 0);
    NothingShared(pool.base, l.Issued(pool.lpToken));
    NothingShared(pool.quote, l.Issued(pool.lpToken));
  }

  lemma NothingShared(reserve: nat, supply: nat)
    requires supply > 0
    ensures MulDiv(0, reserve, supply) == 0
  {
  }

  /** A pool is created while the fee is off, with the supply 2010 that is its root; then 3 percent are charged.
      Settling mints 62, so that removing nothing at all leaves 2072 over 2010. */
  lemma SettlementOvershoots() returns (s: State)
    ensures s.pools == map[] && Healthy(s) && s.cfg.lpFee > 0
    ensures var t := Run(s, Opening(30000));
            && PAIR in t.pools && Supply(t, PAIR) == 2010 && Sqrt(t.pools[PAIR].K()) == 2010 && WithinRoot(t, PAIR)
    ensures var t := Run(s, Opening(30000) + [RemoveLiquidity(2, 1, 0, 0)]);
            && PAIR in t.pools && Supply(t, PAIR) == 2072 && Sqrt(t.pools[PAIR].K()) == 2010 && !WithinRoot(t, PAIR)
  {
    hide Sqrt, Healthy, Step, WithinRoot, SettlesWithin;
    RootOf2010();
    var t;
    s, t := OpensHealthy(30000);
    Overshoots(t);
    assert Opening(30000) + [] == Opening(30000);
    assert Run(s, Opening(30000) + []) == Run(t, []);
    var op := RemoveLiquidity(2, 1, 0, 0);
    assert Run(s, Opening(30000) + [op]) == Run(t, [op]);
    OneStep(t, op);
  }

  lemma OneStep(s: State, op: Op)
    requires s.cfg.lpFee > 0
    ensures Run(s, [op]) == Step(s, op)
  {
    hide Step;
    StepKeepsConfig(s, op);
    assert [op][1..] == [];
  }

  // ---------- frozen ----------

  /** The same pool charged 60 percent: user 0, who holds 1010 of its 2010 liquidity tokens, can take out none of
      them, whatever is called before, unless the fee is lowered. */
  lemma GetsFrozen() returns (s: State)
    ensures s.pools == map[] && Healthy(s) && s.cfg.lpFee > 0
    ensures var t := Run(s, Opening(600000));
            && t.cfg.lpFee > 0 && AmmInv(t) && PAIR in t.pools && Frozen(t, PAIR) && t.ledger.Balance(LP, User(0)) == 1010
            && forall ops: seq<Op>, n: nat :: NoneThaws(ops) ==> CannotRemove(t, ops, n)
  {
    hide Healthy, Step, Call, NoneThaws, Run, CannotRemove;
    var t;
    s, t := OpensHealthy(600000);
    assert Opening(600000) + [] == Opening(600000);
    RunNone(t);
    assert Run(s, Opening(600000) + []) == Run(t, []);
    HealthyInv(t);
    hide AmmInv;
    forall ops: seq<Op>, n: nat | NoneThaws(ops)
      ensures CannotRemove(t, ops, n)
    {
      FrozenOut(t, ops, n);
    }
  }

  ghost predicate CannotRemove(s: State, ops: seq<Op>, n: nat)
    requires s.cfg.lpFee > 0
  {
    Run(s, ops).cfg.lpFee > 0 && Call(Run(s, ops), RemoveLiquidity(2, 1, 0, n)).Err?
  }

  lemma FrozenOut(s: State, ops: seq<Op>, n: nat)
    requires AmmInv(s) && PAIR in s.pools && Frozen(s, PAIR) && NoneThaws(ops)
    ensures CannotRemove(s, ops, n)
  {
    hide Run, Call, NoneThaws;
    RunStaysFrozen(s, ops, PAIR);
    assert Target(RemoveLiquidity(2, 1, 0, n)) == Some(PAIR);
  }

  lemma RunNone(s: State)
    requires s.cfg.lpFee > 0
    ensures Run(s, []) == s
  {
  }

  // ---------- short ----------

  /** A chain without pools at a fee of a quarter percent, where user 0 owns 1000 of one asset and 10000 of the other. */
  lemma NoPoolsYet() returns (s: State)
    ensures s.pools == map[] && s.cfg == Config(2500, 1000) && Healthy(s) && s.ledger.Issued(LP) == 0
    ensures s.ledger.Balance(2, User(0)) == 1000 && s.ledger.Balance(1, User(0)) == 10000
  {
    hide Backed, Spare;
    var l := EmptyLedger();
    l := Minted(l, 2, User(0), 1000);
    l := Minted(l, 1, User(0), 10000);
    s := State(map[], l, 0, None, Config(2500, 1000));
    StartsHealthy(s);
  }

  /** A quote over a single hop is the quote of its pool, in either direction. */
  lemma OverOneHop(s: State, a: Asset, b: Asset, amountIn: nat, amountOut: nat)
    requires s.cfg.lpFee < MILLION && HasPool(s, a, b)
    ensures GetAmountIn(s.cfg.lpFee, amountOut, ReserveIn(s, a, b), ReserveOut(s, a, b)) == Ok(amountIn) ==>
              GetAmountsIn(s, amountOut, [a, b]) == Ok([amountIn, amountOut])
    ensures GetAmountOut(s.cfg.lpFee, amountIn, ReserveIn(s, a, b), ReserveOut(s, a, b)) == Ok(amountOut) ==>
              GetAmountsOut(s, amountIn, [a, b]) == Ok([amountIn, amountOut])
  {
    hide GetReserves, GetAmountIn, GetAmountOut;
    ReservesAre(s, a, b);
    var path := [a, b];
    assert path[1..] == [b] && path[..1] == [a];
    assert GetAmountsIn(s, amountOut, [b]) == Ok([amountOut]);
    assert GetAmountsOut(s, amountIn, [a]) == Ok([amountIn]);
    assert [amountIn] + [amountOut] == [amountIn, amountOut];
  }

  lemma ShortByThree()
    ensures GetAmountIn(2500, 2855, 1000, 10000) == Ok(401) && GetAmountOut(2500, 401, 1000, 10000) == Ok(2852)
  {
  }

  /** The reverse quote of 2855 against reserves of 1000 and 10000 asks for 401, and 401 brings 2852. */
  lemma QuoteFallsShort() returns (s: State)
    ensures s.pools == map[] && Healthy(s) && s.cfg.lpFee > 0
    ensures var t := Run(s, [CreatePool(2, 1, 1000, 10000, 0, LP)]);
            && t.cfg.lpFee < MILLION && GetAmountsIn(t, 2855, [2, 1]) == Ok([401, 2855])
            && GetAmountsOut(t, 401, [2, 1]) == Ok([401, 2852])
  {
    hide Healthy, Step, Call, Run, GetAmountsIn, GetAmountsOut, GetAmountIn, GetAmountOut;
    s := NoPoolsYet();
    HealthyInv(s);
    hide AmmInv;
    var op := CreatePool(2, 1, 1000, 10000, 0, LP);
    CreateSucceeds(s, op);
    Keeps(s, op);
    OneStep(s, op);
    ShortByThree();
    OverOneHop(Step(s, op), 2, 1, 401, 2855);
    OverOneHop(Step(s, op), 2, 1, 401, 2852);
  }
}
