/** What holds of the farming pallet after any run of its calls: each pool promises no more than was
    dispatched to it, the pots shared by all pools hold exactly what the pools owe, and so every
    payout is covered. */
module FarmingRuns {
  import opened Base
  import opened Sums
  import opened Assets
  import opened FarmingPool
  import opened Farming

  datatype Op =
    | NextBlock
    | Create(k: PoolKey, coolDown: nat)
    | SetPoolStatus(k: PoolKey, active: bool)
    | SetCoolDown(k: PoolKey, coolDown: nat)
    | ResetUnlockHeight(k: PoolKey)
    | Deposit(k: PoolKey, who: UserId, amount: nat)
    | Withdraw(k: PoolKey, who: UserId, amount: nat)
    | Redeem(k: PoolKey, who: UserId)
    | ClaimReward(k: PoolKey, who: UserId)
    | DispatchReward(k: PoolKey, payer: UserId, amount: nat, duration: nat)
    | Transfer(asset: Asset, from: UserId, to: Account, amount: nat)

  function Call(s: State, op: Op): Result<State> {
    match op
    case NextBlock => Ok(s.(now := s.now + 1))
    case Create(k, coolDown) => Farming.Create(s, k, coolDown)
    case SetPoolStatus(k, active) => Farming.SetPoolStatus(s, k, active)
    case SetCoolDown(k, coolDown) => Farming.SetCoolDown(s, k, coolDown)
    case ResetUnlockHeight(k) => Farming.ResetUnlockHeight(s, k)
    case Deposit(k, who, amount) => Farming.Deposit(s, who, k, amount)
    case Withdraw(k, who, amount) => Farming.Withdraw(s, who, k, amount)
    case Redeem(k, who) => Farming.Redeem(s, who, k)
    case ClaimReward(k, who) => Farming.ClaimReward(s, who, k)
    case DispatchReward(k, payer, amount, duration) => Farming.DispatchReward(s, k, payer, amount, duration)
    case Transfer(asset, from, to, amount) =>
      var l :- s.ledger.Transfer(asset, User(from), to, amount);
      Ok(s.(ledger := l))
  }

  function Step(s: State, op: Op): State {
    if Call(s, op).Ok? then Call(s, op).value else s
  }

  function Run(s: State, ops: seq<Op>): State {
    if ops == [] then s else Step(Run(s, ops[..|ops| - 1]), ops[|ops| - 1])
  }

  function Fresh(ledger: Ledger, now: nat, cfg: Config): State {
    State(map[], ledger, now, cfg)
  }

  // ---------- what the pools owe ----------

  /** What pool `k` keeps in the pot of asset `a`: stakes and locked stakes, rewards not yet claimed. */
  ghost function Due(k: PoolKey, f: Farm, a: Asset): int {
    (if k.asset == a then Staked(f) else 0) + (if k.reward == a then Unclaimed(f) else 0)
  }

  ghost function Dues(s: State, a: Asset): map<PoolKey, int> {
    map k | k in s.farms :: Due(k, s.farms[k], a)
  }

  /** The part of a pot that no pool has a claim on. */
  ghost function Spare(s: State, a: Asset): int {
    s.ledger.Balance(a, FarmingPot(a)) - Sum(Dues(s, a))
  }

  ghost predicate Sound(s: State) {
    forall k :: k in s.farms ==> FarmInv(s.farms[k], s.now)
  }

  lemma PutDues(s: State, k: PoolKey, f: Farm, a: Asset)
    ensures Sum(Dues(s.Put(k, f), a)) ==
            Sum(Dues(s, a)) - (if k in s.farms then Due(k, s.farms[k], a) else 0) + Due(k, f, a)
  {
    hide Sum;
    assert Dues(s.Put(k, f), a) == Dues(s, a)[k := Due(k, f, a)];
    SumUpdate(Dues(s, a), k, Due(k, f, a));
  }

  /** Every pool keeps its invariant, and no pot's spare part moves. */
  ghost predicate Keeps(s: State, t: State) {
    Sound(t) && forall a: Asset :: Spare(t, a) == Spare(s, a)
  }

  /** A call that replaces one farm and moves tokens between a user and the pots keeps every pot's
      spare if the farm's dues move with the pot. */
  lemma PutKeeps(s: State, k: PoolKey, f: Farm, l: Ledger, staked: int, reward: int)
    requires Sound(s) && FarmInv(f, s.now) && k in s.farms
    requires Staked(f) == Staked(s.farms[k]) + staked && Unclaimed(f) == Unclaimed(s.farms[k]) + reward
    requires forall a: Asset :: l.Balance(a, FarmingPot(a)) == s.ledger.Balance(a, FarmingPot(a))
                                + (if a == k.asset then staked else 0) + (if a == k.reward then reward else 0)
    ensures Keeps(s, s.Put(k, f).(ledger := l))
  {
    hide Sum;
    forall a: Asset
      ensures Spare(s.Put(k, f).(ledger := l), a) == Spare(s, a)
    {
      PutDues(s, k, f, a);
      assert Dues(s.Put(k, f).(ledger := l), a) == Dues(s.Put(k, f), a);
    }
  }

  // ---------- every call keeps them ----------

  lemma DepositKeeps(s: State, who: UserId, k: PoolKey, amount: nat)
    requires Sound(s) && Farming.Deposit(s, who, k, amount).Ok?
    ensures Keeps(s, Farming.Deposit(s, who, k, amount).value)
  {
    hide Sum;
    var t := Farming.Deposit(s, who, k, amount).value;
    var f := UpdateReward(s.farms[k], Some(who), s.now).value;
    assert t == s.Put(k, t.farms[k]).(ledger := t.ledger);
    SettleKeeps(s.farms[k], who, s.now);
    AddDepositKeeps(f, who, amount, s.now);
    PutKeeps(s, k, t.farms[k], t.ledger, amount, 0);
  }

  lemma WithdrawKeeps(s: State, who: UserId, k: PoolKey, amount: nat)
    requires Sound(s) && Farming.Withdraw(s, who, k, amount).Ok?
    ensures Keeps(s, Farming.Withdraw(s, who, k, amount).value)
  {
    hide Sum;
    var t := Farming.Withdraw(s, who, k, amount).value;
    var f := UpdateReward(s.farms[k], Some(who), s.now).value;
    var (g, out) := TakeDeposit(f, who, amount, s.now, s.cfg.maxLockItems).value;
    assert t == s.Put(k, g).(ledger := t.ledger);
    SettleKeeps(s.farms[k], who, s.now);
    TakeDepositKeeps(f, who, amount, s.now, s.cfg.maxLockItems);
    PutKeeps(s, k, g, t.ledger, 0 - out, 0);
  }

  lemma RedeemKeeps(s: State, who: UserId, k: PoolKey)
    requires Sound(s) && Farming.Redeem(s, who, k).Ok?
    ensures Keeps(s, Farming.Redeem(s, who, k).value)
  {
    hide Sum;
    var t := Farming.Redeem(s, who, k).value;
    var (g, out) := TakeMatured(s.farms[k], who, s.now).value;
    assert t == s.Put(k, g).(ledger := t.ledger);
    TakeMaturedKeeps(s.farms[k], who, s.now);
    PutKeeps(s, k, g, t.ledger, 0 - out, 0);
  }

  lemma ClaimRewardKeeps(s: State, who: UserId, k: PoolKey)
    requires Sound(s) && Farming.ClaimReward(s, who, k).Ok?
    ensures Keeps(s, Farming.ClaimReward(s, who, k).value)
  {
    hide Sum, UpdateReward, Ledger.Transfer;
    var t := Farming.ClaimReward(s, who, k).value;
    var f := UpdateReward(s.farms[k], Some(who), s.now).value;
    var (g, out) := TakeReward(f, who);
    assert t == s.Put(k, g).(ledger := t.ledger);
    SettleKeeps(s.farms[k], who, s.now);
    TakeRewardKeeps(f, who, s.now);
    PutKeeps(s, k, g, t.ledger, 0, 0 - out);
  }

  lemma DispatchRewardKeeps(s: State, k: PoolKey, payer: UserId, amount: nat, duration: nat)
    requires Sound(s) && Farming.DispatchReward(s, k, payer, amount, duration).Ok?
    ensures Keeps(s, Farming.DispatchReward(s, k, payer, amount, duration).value)
  {
    hide Sum;
    var t := Farming.DispatchReward(s, k, payer, amount, duration).value;
    var f := UpdateReward(s.farms[k], None, s.now).value;
    assert t == s.Put(k, t.farms[k]).(ledger := t.ledger);
    PoolUpdateKeeps(s.farms[k], s.now);
    assert Locked(f) == Locked(s.farms[k]);
    FundKeeps(f, amount, duration, s.now);
    PutKeeps(s, k, t.farms[k], t.ledger, 0, amount);
  }

  /** A toggle of the pool's settings touches nothing that the books depend on. */
  lemma SettingKeeps(s: State, k: PoolKey, pool: PoolInfo)
    requires Sound(s) && k in s.farms
    requires pool == s.farms[k].pool.(isActive := pool.isActive, coolDown := pool.coolDown,
                                      unlockHeight := pool.unlockHeight)
    ensures Keeps(s, s.Put(k, s.farms[k].(pool := pool)))
  {
    hide Sum;
    var f := s.farms[k];
    var g := f.(pool := pool);
    assert Deposits(g) == Deposits(f) && Claims(g) == Claims(f) && Locked(g) == Locked(f);
    PutKeeps(s, k, g, s.ledger, 0, 0);
    assert s.Put(k, g) == s.Put(k, g).(ledger := s.ledger);
  }

  lemma CreateKeeps(s: State, k: PoolKey, coolDown: nat)
    requires Sound(s) && Farming.Create(s, k, coolDown).Ok?
    ensures Keeps(s, Farming.Create(s, k, coolDown).value)
  {
    hide Sum;
    var f := Farm(NEW_POOL.(coolDown := coolDown), map[], 0, 0);
    NewFarmInv(f.pool, s.now);
    forall a: Asset
      ensures Spare(s.Put(k, f), a) == Spare(s, a)
    {
      PutDues(s, k, f, a);
    }
  }

  lemma NextBlockKeeps(s: State)
    requires Sound(s)
    ensures Keeps(s, s.(now := s.now + 1))
  {
    hide Sum;
    forall a: Asset
      ensures Spare(s.(now := s.now + 1), a) == Spare(s, a)
    {
      assert Dues(s.(now := s.now + 1), a) == Dues(s, a);
    }
  }

  /** What a plain payment of a user gives to the pot of an asset. */
  function Gift(s: State, op: Op, a: Asset): nat {
    if op.Transfer? && Call(s, op).Ok? && op.asset == a && op.to == FarmingPot(a) then op.amount else 0
  }

  function Gifts(s: State, ops: seq<Op>, a: Asset): nat {
    if ops == [] then 0
    else Gifts(s, ops[..|ops| - 1], a) + Gift(Run(s, ops[..|ops| - 1]), ops[|ops| - 1], a)
  }

  /** Every pool keeps its invariant, and the spare part of a pot grows only by gifts. */
  lemma StepKeeps(s: State, op: Op)
    requires Sound(s)
    ensures Sound(Step(s, op)) && forall a: Asset :: Spare(Step(s, op), a) == Spare(s, a) + Gift(s, op, a)
  {
    if op.Transfer? {
      hide Sum, Ledger.Transfer;
      forall a: Asset
        ensures Spare(Step(s, op), a) == Spare(s, a) + Gift(s, op, a)
      {
        assert Dues(Step(s, op), a) == Dues(s, a);
      }
    } else {
      CallKeeps(s, op);
    }
  }

  lemma CallKeeps(s: State, op: Op)
    requires Sound(s) && !op.Transfer?
    ensures Keeps(s, Step(s, op))
  {
    hide Sum;
    if Call(s, op).Ok? {
      match op
      case NextBlock => NextBlockKeeps(s);
      case Create(k, coolDown) => CreateKeeps(s, k, coolDown);
      case SetPoolStatus(k, _) => SettingKeeps(s, k, Call(s, op).value.farms[k].pool);
      case SetCoolDown(k, _) => SettingKeeps(s, k, Call(s, op).value.farms[k].pool);
      case ResetUnlockHeight(k) => SettingKeeps(s, k, Call(s, op).value.farms[k].pool);
      case Deposit(k, who, amount) => DepositKeeps(s, who, k, amount);
      case Withdraw(k, who, amount) => WithdrawKeeps(s, who, k, amount);
      case Redeem(k, who) => RedeemKeeps(s, who, k);
      case ClaimReward(k, who) => ClaimRewardKeeps(s, who, k);
      case DispatchReward(k, payer, amount, duration) => DispatchRewardKeeps(s, k, payer, amount, duration);
    }
  }

  // ---------- over whole runs ----------

  /** After any run of calls each pool has promised no more than was dispatched to it, its total is the
      sum of its deposits, and each pot has moved exactly with what the pools owe and what was given to it. */
  lemma {:induction false} RunKeeps(s: State, ops: seq<Op>)
    requires Sound(s)
    ensures Sound(Run(s, ops)) && forall a: Asset :: Spare(Run(s, ops), a) == Spare(s, a) + Gifts(s, ops, a)
  {
    hide Spare, FarmInv, Gift, Step;
    if ops != [] {
      RunKeeps(s, ops[..|ops| - 1]);
      StepKeeps(Run(s, ops[..|ops| - 1]), ops[|ops| - 1]);
    }
  }

  /** Spelled out for one pool. */
  lemma NeverOverpromised(ledger: Ledger, now: nat, cfg: Config, ops: seq<Op>, k: PoolKey)
    requires k in Run(Fresh(ledger, now, cfg), ops).farms
    ensures var f := Run(Fresh(ledger, now, cfg), ops).farms[k];
            && SHARE * f.claimed + Sum(Claims(f))
               + SHARE * f.pool.rewardRate * (f.pool.periodFinish - f.pool.lastUpdate) <= SHARE * f.dispatched
            && f.pool.totalDeposited == Sum(Deposits(f))
  {
    hide Sum;
    RunKeeps(Fresh(ledger, now, cfg), ops);
  }

  lemma DuesNonNegative(s: State, a: Asset)
    requires Sound(s)
    ensures forall k :: k in s.farms ==> Due(k, s.farms[k], a) >= 0
  {
    hide Sum;
    forall k | k in s.farms
      ensures Due(k, s.farms[k], a) >= 0
    {
      SumNonNegative(Locked(s.farms[k]));
      RewardCovered(s.farms[k], 0, s.now);
    }
  }

  /** In a state whose pots are not overdrawn, a pot covers what any one pool owes from it. */
  lemma PotCovers(s: State, k: PoolKey, a: Asset)
    requires Sound(s) && k in s.farms && Spare(s, a) >= 0
    ensures Due(k, s.farms[k], a) <= s.ledger.Balance(a, FarmingPot(a))
  {
    hide Sum;
    DuesNonNegative(s, a);
    SumAtLeast(Dues(s, a), k);
  }

  ghost predicate Covered(s: State) {
    Sound(s) && forall a: Asset :: Spare(s, a) >= 0
  }

  lemma StepKeepsCovered(s: State, op: Op)
    requires Covered(s)
    ensures Covered(Step(s, op))
  {
    hide Step, Spare, FarmInv, Gift;
    StepKeeps(s, op);
  }

  lemma FreshCovered(ledger: Ledger, now: nat, cfg: Config)
    ensures Covered(Fresh(ledger, now, cfg))
  {
    var s := Fresh(ledger, now, cfg);
    forall a: Asset
      ensures Spare(s, a) >= 0
    {
      assert Dues(s, a) == map[];
    }
  }

  lemma RunCovered(ledger: Ledger, now: nat, cfg: Config, ops: seq<Op>)
    ensures Covered(Run(Fresh(ledger, now, cfg), ops))
  {
    hide Run, Spare, Sound, Gifts;
    FreshCovered(ledger, now, cfg);
    RunKeeps(Fresh(ledger, now, cfg), ops);
  }

  /** The pot pays every settled reward. */
  lemma ClaimCovered(s: State, who: UserId, k: PoolKey)
    requires Covered(s) && k in s.farms
    ensures Farming.ClaimReward(s, who, k).Ok? <==> UpdateReward(s.farms[k], Some(who), s.now).Ok?
  {
    hide Sum;
    if UpdateReward(s.farms[k], Some(who), s.now).Ok? {
      var f := UpdateReward(s.farms[k], Some(who), s.now).value;
      SettleKeeps(s.farms[k], who, s.now);
      PotCovers(s, k, k.reward);
      RewardCovered(f, who, s.now);
      SumNonNegative(Locked(s.farms[k]));
    }
  }

  lemma {:induction false} MaturedWithin(items: seq<LockItem>, coolDown: nat, now: nat)
    ensures Matured(items, coolDown, now) <= LockedTotal(items)
  {
    LockedSplit(items, coolDown, now);
  }

  /** The pot pays every matured item. */
  lemma RedeemCovered(s: State, who: UserId, k: PoolKey)
    requires Covered(s) && k in s.farms
    ensures Farming.Redeem(s, who, k).Ok? <==> TakeMatured(s.farms[k], who, s.now).Ok?
  {
    hide Sum;
    var f := s.farms[k];
    MaturedWithin(f.Position(who).locked, f.pool.coolDown, s.now);
    PotCovers(s, k, k.asset);
    RewardCovered(f, who, s.now);
    if who in f.positions {
      SumAtLeast(Locked(f), who);
    } else {
      SumNonNegative(Locked(f));
    }
  }

  /** The pot pays every withdrawal of at most the deposit. */
  lemma WithdrawCovered(s: State, who: UserId, k: PoolKey, amount: nat)
    requires Covered(s) && k in s.farms && 0 < amount <= s.farms[k].Position(who).deposit
    ensures Farming.Withdraw(s, who, k, amount).Ok? <==>
            && UpdateReward(s.farms[k], Some(who), s.now).Ok?
            && s.farms[k].pool.unlockHeight <= s.now
            && (s.farms[k].pool.coolDown == 0 || |s.farms[k].Position(who).locked| < s.cfg.maxLockItems)
  {
    hide Sum;
    var f0 := s.farms[k];
    if UpdateReward(f0, Some(who), s.now).Ok? {
      var f := UpdateReward(f0, Some(who), s.now).value;
      var q := SettledShape(f0, who, s.now);
      assert f.Position(who) == q && f.pool.totalDeposited == f0.pool.totalDeposited;
      PotCovers(s, k, k.asset);
      RewardCovered(f0, who, s.now);
      SumNonNegative(Locked(f0));
      SumAtLeast(Deposits(f0), who);
    }
  }

  lemma PayoutsCovered(s: State, who: UserId, k: PoolKey, amount: nat)
    requires Covered(s)
    ensures Farming.ClaimReward(s, who, k) != Err(FundsUnavailable)
    ensures Farming.Redeem(s, who, k) != Err(FundsUnavailable)
    ensures Farming.Withdraw(s, who, k, amount) != Err(FundsUnavailable)
  {
    hide Covered, Ledger.Transfer;
    if k in s.farms {
      ClaimCovered(s, who, k);
      RedeemCovered(s, who, k);
      if 0 < amount <= s.farms[k].Position(who).deposit {
        WithdrawCovered(s, who, k, amount);
      }
    }
  }

  /** After any run, no claim, redemption or withdrawal can fail for lack of funds in the shared pots. */
  lemma EveryPayoutIsCovered(ledger: Ledger, now: nat, cfg: Config, ops: seq<Op>, who: UserId, k: PoolKey, amount: nat)
    ensures var s := Run(Fresh(ledger, now, cfg), ops);
            && Farming.ClaimReward(s, who, k) != Err(FundsUnavailable)
            && Farming.Redeem(s, who, k) != Err(FundsUnavailable)
            && Farming.Withdraw(s, who, k, amount) != Err(FundsUnavailable)
  {
    hide *;
    RunCovered(ledger, now, cfg, ops);
    PayoutsCovered(Run(Fresh(ledger, now, cfg), ops), who, k, amount);
  }
}
