/** When a liquidity holder can leave: the exact conditions under which settling the fee and removing liquidity
    succeed, and the pools that are frozen until the fee is lowered. */
module AmmExits {
  import opened Base
  import opened Sums
  import opened Assets
  import opened AmmMath
  import opened AmmLaws
  import opened Amm
  import opened AmmEffects
  import opened AmmRuns
  import opened AmmValue

  // ---------- settling ----------

  /** More than half of the growth is charged, and there is no snapshot to measure it from. */
  predicate Frozen(s: State, key: Pair)
    requires key in s.pools
  {
    s.FeeOn() && s.pools[key].KLast() == 0 && 2 * s.protocolFee > MILLION
  }

  /** The number of parts the growth is divided into, less one. */
  function Scalar(protocolFee: nat): (r: nat)
    requires 0 < protocolFee <= MILLION
    ensures r == MILLION / protocolFee - 1
    ensures r == 0 <==> 2 * protocolFee > MILLION
  {
    FloorGreatest(MILLION, protocolFee, 1);
    FloorGreatest(MILLION, protocolFee, 2);
    MILLION / protocolFee - 1
  }

  /** The fee that is due, as a number of any size; none on a frozen pool. */
  function Due(rootK: nat, rootKLast: nat, supply: nat, protocolFee: nat): nat
    requires rootK > rootKLast && 0 < protocolFee <= MILLION
  {
    var parts := Mul(rootK, Scalar(protocolFee)) + rootKLast;
    if parts == 0 then 0 else MulDiv(rootK - rootKLast, supply, parts)
  }

  lemma GrowthSucceeds(rootK: nat, rootKLast: nat, supply: nat, protocolFee: nat)
    requires rootK > rootKLast && 0 < protocolFee <= MILLION
    ensures FeeForGrowth(rootK, rootKLast, supply, protocolFee)
            == if rootKLast == 0 && 2 * protocolFee > MILLION then Err(Underflow)
               else ToU128(Due(rootK, rootKLast, supply, protocolFee), Overflow)
  {
    hide MulDiv;
    if Scalar(protocolFee) > 0 {
      PositiveProduct(rootK, Scalar(protocolFee));
    }
  }

  lemma RootOfZero(n: nat)
    ensures Sqrt(n) == 0 <==> n == 0
  {
    hide Sqrt;
    RootReaches(1, n);
  }

  /** The fee is on and the root of the product has grown since the snapshot. */
  predicate Grown(s: State, key: Pair)
    requires key in s.pools
  {
    s.FeeOn() && Sqrt(s.pools[key].K()) > Sqrt(s.pools[key].KLast())
  }

  /** The liquidity tokens that settling mints. */
  function DueNow(s: State, key: Pair): nat
    requires key in s.pools && s.protocolFee <= MILLION
  {
    if Grown(s, key)
    then Due(Sqrt(s.pools[key].K()), Sqrt(s.pools[key].KLast()), s.ledger.Issued(s.pools[key].lpToken), s.protocolFee)
    else 0
  }

  /** The pool is not frozen, and its supply has room for what is due. */
  predicate Settles(s: State, key: Pair)
    requires key in s.pools && s.protocolFee <= MILLION
  {
    !Frozen(s, key) && (Grown(s, key) ==> s.ledger.Issued(s.pools[key].lpToken) + DueNow(s, key) <= U128_MAX)
  }

  /** Settling fails exactly on a frozen pool, or where the supply would outgrow the machine integers. */
  lemma SettlingSucceeds(s: State, key: Pair)
    requires AmmInv(s) && key in s.pools
    ensures Frozen(s, key) ==> MintProtocolFee(s, s.pools[key]) == Err(Underflow)
    ensures MintProtocolFee(s, s.pools[key]).Ok? <==> Settles(s, key)
    ensures MintProtocolFee(s, s.pools[key]).Ok? ==> SettledSupply(s, key) == Supply(s, key) + DueNow(s, key)
  {
    hide Sqrt, Backed, FeeForGrowth, Due, Ledger.Mint;
    RootPositive(s, key);
    var rootK, rootKLast := Sqrt(s.pools[key].K()), Sqrt(s.pools[key].KLast());
    RootOfZero(s.pools[key].KLast());
    if s.FeeOn() && rootK > rootKLast {
      GrowthSucceeds(rootK, rootKLast, Supply(s, key), s.protocolFee);
    }
  }

  // ---------- leaving ----------

  /** The account covers the reserves of all pools. */
  ghost predicate InCustody(s: State) {
    forall a: Asset :: Spare(s, a) >= 0
  }

  /** What the pallet promises between calls. */
  ghost predicate Healthy(s: State) {
    AmmInv(s) && InCustody(s)
  }

  lemma StepKeepsHealthy(s: State, op: Op)
    requires Healthy(s)
    ensures s.cfg.lpFee > 0 && Healthy(Step(s, op))
  {
    hide Step, Backed, Spare;
    StepPerforms(s, op);
    forall a: Asset
      ensures Spare(Step(s, op), a) >= 0
    {
      StepKeepsCustody(s, op, a);
    }
  }

  lemma StartsHealthy(s: State)
    requires s.pools == map[] && ValidConfig(s.cfg) && s.protocolFee <= MILLION && Backed(s.ledger)
    ensures Healthy(s)
  {
    forall a: Asset
      ensures Spare(s, a) >= 0
    {
      assert Reserves(s, a) == map[];
    }
  }

  lemma ReserveInPot(s: State, key: Pair, a: Asset)
    requires InCustody(s) && key in s.pools
    ensures (if key.0 == a then s.pools[key].base else 0) + (if key.1 == a then s.pools[key].quote else 0)
            <= s.ledger.Balance(a, AmmPot)
  {
    hide Sum;
    assert Spare(s, a) >= 0;
    SumAtLeast(Reserves(s, a), key);
  }

  lemma BurnSucceeds(l: Ledger, a: Asset, w: Account, amount: nat)
    requires Backed(l) && w != AmmLock
    ensures l.Burn(a, w, amount).Ok? <==> amount <= l.Balance(a, w)
  {
    TwoHolders(l, a, w, AmmLock);
  }

  /** Once the fee is settled, removing succeeds exactly within the caller's liquidity tokens. */
  lemma DoRemoveSucceeds(feeOn: bool, l0: Ledger, who: UserId, key: Pair, pool: Pool, liquidity: nat)
    requires Backed(l0) && l0.Issued(pool.lpToken) > 0 && key.0 != key.1
    requires pool.base <= U128_MAX && pool.quote <= U128_MAX
    requires pool.base <= l0.Balance(key.0, AmmPot) && pool.quote <= l0.Balance(key.1, AmmPot)
    ensures DoRemoveLiquidity(feeOn, l0, who, key, pool, liquidity).Ok?
            <==> liquidity <= l0.Balance(pool.lpToken, User(who))
  {
    hide Backed, MulDiv, Ledger.Burn, Ledger.Transfer;
    var supply := l0.Issued(pool.lpToken);
    BurnSucceeds(l0, pool.lpToken, User(who), liquidity);
    WithinSupply(l0, pool.lpToken, who);
    if liquidity <= l0.Balance(pool.lpToken, User(who)) {
      SharesWithin(pool.base, supply, liquidity);
      SharesWithin(pool.quote, supply, liquidity);
    }
  }

  lemma WithinSupply(l: Ledger, a: Asset, who: UserId)
    requires Backed(l)
    ensures l.Balance(a, User(who)) <= l.Issued(a)
  {
    TwoHolders(l, a, User(who), AmmLock);
  }

  lemma SharesWithin(reserve: nat, supply: nat, liquidity: nat)
    requires 0 < supply && liquidity <= supply
    ensures MulDiv(liquidity, reserve, supply) <= reserve
  {
    SoldShares(reserve, supply, liquidity);
  }

  /** What settling gives a user: the fee, if the user receives it. */
  function FeeShare(s: State, key: Pair, who: UserId): nat
    requires key in s.pools && s.protocolFee <= MILLION
  {
    if s.feeReceiver == Some(User(who)) then DueNow(s, key) else 0
  }

  /** Anyone can take out any part of the liquidity they hold, exactly as long as the pool is not frozen and the fee
      that is due fits. */
  lemma RemoveSucceeds(s: State, who: UserId, a: Asset, b: Asset, liquidity: nat)
    requires AmmInv(s) && InCustody(s)
    ensures Amm.RemoveLiquidity(s, who, a, b, liquidity).Ok? <==>
              && a != b && SortAssets(a, b).value.1 in s.pools
              && var key := SortAssets(a, b).value.1;
                 && Settles(s, key)
                 && liquidity <= s.ledger.Balance(s.pools[key].lpToken, User(who)) + FeeShare(s, key, who)
  {
    hide DoRemoveLiquidity, MintProtocolFee, Backed, Spare, DueNow, Settles, Frozen;
    if a != b && SortAssets(a, b).value.1 in s.pools {
      var key := SortAssets(a, b).value.1;
      SettlingSucceeds(s, key);
      if MintProtocolFee(s, s.pools[key]).Ok? {
        FeeShape(s, s.pools[key]);
        SupplyPositive(s, key);
        ReserveInPot(s, key, key.0);
        ReserveInPot(s, key, key.1);
        assert PoolOk(s, key);
        var (pool, l) := MintProtocolFee(s, s.pools[key]).value;
        DoRemoveSucceeds(s.FeeOn(), l, who, key, pool, liquidity);
      }
    }
  }

  // ---------- frozen pools ----------

  /** On a frozen pool nobody can remove liquidity or add any. */
  lemma FrozenPool(s: State, op: Op, key: Pair)
    requires AmmInv(s) && key in s.pools && Frozen(s, key)
    requires (op.AddLiquidity? || op.RemoveLiquidity?) && Target(op) == Some(key)
    ensures Call(s, op).Err?
    ensures op.RemoveLiquidity? ==> Call(s, op) == Err(Underflow)
  {
    hide DoRemoveLiquidity, DoAddLiquidity, MintProtocolFee, Backed, Frozen, GetIdealAmounts, Settles;
    SettlingSucceeds(s, key);
  }

  /** The call brings the fee down to at most half of the growth. */
  predicate Thaws(op: Op) {
    op.UpdateProtocolFee? && 2 * op.fee <= MILLION
  }

  lemma TradeKeepsFrozen(s: State, t: State, key: Pair, target: Pair)
    requires key in s.pools && Frozen(s, key) && target in s.pools && Traded(s, t, target)
    ensures key in t.pools && Frozen(t, key)
  {
  }

  lemma ReplaceKeepsFrozen(s: State, t: State, key: Pair, target: Pair)
    requires key in s.pools && Frozen(s, key) && target != key && Replaces(s, t, target)
    ensures key in t.pools && Frozen(t, key)
  {
  }

  lemma SettingKeepsFrozen(s: State, op: Op, key: Pair)
    requires s.cfg.lpFee > 0 && key in s.pools && Frozen(s, key)
    requires op.UpdateProtocolFee? || op.UpdateProtocolFeeReceiver? || op.Transfer?
    ensures key in Step(s, op).pools && (Frozen(Step(s, op), key) <==> !Thaws(op))
  {
    hide Ledger.Transfer, Mul;
  }

  /** A frozen pool is thawed exactly by a call that lowers the fee, whatever else is called. */
  lemma StaysFrozen(s: State, op: Op, key: Pair)
    requires AmmInv(s) && key in s.pools && Frozen(s, key)
    ensures key in Step(s, op).pools && (Frozen(Step(s, op), key) <==> !Thaws(op))
  {
    if op.UpdateProtocolFee? || op.UpdateProtocolFeeReceiver? || op.Transfer? {
      SettingKeepsFrozen(s, op, key);
    } else {
      hide Call, Frozen, AmmInv, Traded, Replaces, LiquidityMoved, Target;
      InvFee(s);
      if Call(s, op).Ok? {
        if (op.AddLiquidity? || op.RemoveLiquidity?) && Target(op) == Some(key) {
          FrozenPool(s, op, key);
        } else {
          WorksElsewhere(s, op, key);
        }
      }
    }
  }

  lemma WorksElsewhere(s: State, op: Op, key: Pair)
    requires AmmInv(s) && key in s.pools && Frozen(s, key) && Call(s, op).Ok?
    requires op.CreatePool? || op.Swap? || ((op.AddLiquidity? || op.RemoveLiquidity?) && Target(op) != Some(key))
    ensures key in Step(s, op).pools && Frozen(Step(s, op), key)
  {
    StepPerforms(s, op);
    EffectNamed(s, op);
    hide Call, Step, Frozen, AmmInv, Traded, Replaces, LiquidityMoved, Target, EffectOf, Sqrt;
    InvFee(s);
    var t, target := Step(s, op), Target(op).value;
    if op.Swap? {
      TradeKeepsFrozen(s, t, key, target);
    } else {
      PerformsGains(s, t, target, EffectOf(s, op));
      ReplaceKeepsFrozen(s, t, key, target);
    }
  }

  lemma EffectNamed(s: State, op: Op)
    requires AmmInv(s) && Call(s, op).Ok? && (op.CreatePool? || op.Swap? || op.AddLiquidity? || op.RemoveLiquidity?)
    ensures Target(op).Some?
    ensures EffectOf(s, op) == if op.CreatePool? then Created else if op.Swap? then Trade else Liquidity
  {
    hide CreateAt, AddIdeal, RemoveAt, Amm.Swap, GetIdealAmounts;
    hide AmmInv;
    StepTarget(s, op);
  }

  lemma StepTarget(s: State, op: Op)
    requires AmmInv(s) && Call(s, op).Ok? && (op.CreatePool? || op.Swap? || op.AddLiquidity? || op.RemoveLiquidity?)
    ensures Target(op).Some?
  {
    hide CreateAt, AddIdeal, RemoveAt, Amm.Swap, LiquidityMoved, Traded, Sqrt, MintProtocolFee, Backed;
    StepPerforms(s, op);
  }

  predicate NoneThaws(ops: seq<Op>) {
    forall i :: 0 <= i < |ops| ==> !Thaws(ops[i])
  }

  /** Over any run that does not lower the fee a frozen pool stays frozen: trades go on, and nobody gets out. */
  lemma {:induction false} RunStaysFrozen(s: State, ops: seq<Op>, key: Pair)
    requires AmmInv(s) && key in s.pools && Frozen(s, key) && NoneThaws(ops)
    ensures var t := Run(s, ops);
            && key in t.pools && Frozen(t, key) && t.cfg.lpFee > 0
            && forall op: Op ::
                 (op.AddLiquidity? || op.RemoveLiquidity?) && Target(op) == Some(key) ==> Call(t, op).Err?
    decreases ops
  {
    hide Step, Frozen, Call, Target, Thaws;
    if ops == [] {
      forall op: Op | (op.AddLiquidity? || op.RemoveLiquidity?) && Target(op) == Some(key)
        ensures Call(s, op).Err?
      {
        FrozenPool(s, op, key);
      }
    } else {
      StaysFrozen(s, ops[0], key);
      StepPerforms(s, ops[0]);
      StepKeepsConfig(s, ops[0]);
      RunStaysFrozen(Step(s, ops[0]), ops[1..], key);
    }
  }
}
