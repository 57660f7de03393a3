/** The clocks of the farming pallet, in block numbers: when a locked item can be redeemed, when a pool can be withdrawn
    from, what its settings are, and the limits that hold in every reachable state. */
module FarmingLocks {
  import opened Base
  import opened Sums
  import opened Assets
  import opened FarmingPool
  import opened Farming
  import opened FarmingRuns
  import opened FarmingExits

  // ---------- which items leave ----------

  /** An item stays through a redemption exactly before its block plus the cool-down, or the last block number if
      that is earlier; all its copies alike. */
  lemma {:induction false} ItemsSplit(items: seq<LockItem>, coolDown: nat, now: nat, i: LockItem)
    ensures multiset(Retained(items, coolDown, now))[i]
            == if now >= Min(i.block + coolDown, U32_MAX) then 0 else multiset(items)[i]
  {
    if items != [] {
      var n := |items| - 1;
      ItemsSplit(items[..n], coolDown, now, i);
      assert items == items[..n] + [items[n]];
    }
  }

  /** Items that stay together stay in their order. */
  lemma {:induction false} OrderKept(items: seq<LockItem>, coolDown: nat, now: nat)
    requires forall i :: 0 <= i < |items| ==> now < Min(items[i].block + coolDown, U32_MAX)
    ensures Retained(items, coolDown, now) == items && Matured(items, coolDown, now) == 0
  {
    if items != [] {
      var n := |items| - 1;
      OrderKept(items[..n], coolDown, now);
      assert items == items[..n] + [items[n]];
    }
  }

  lemma {:induction false} MaturedAtLeast(items: seq<LockItem>, coolDown: nat, now: nat, i: nat)
    requires i < |items| && now >= Min(items[i].block + coolDown, U32_MAX)
    ensures items[i].amount <= Matured(items, coolDown, now)
  {
    if i < |items| - 1 {
      MaturedAtLeast(items[..|items| - 1], coolDown, now, i);
    }
  }

  function LockedOf(s: State, k: PoolKey, who: UserId): seq<LockItem>
    requires k in s.farms
  {
    s.farms[k].Position(who).locked
  }

  /** Exactly the items whose time has come have left, the others are there as often as before, and the difference is
      paid to the user. */
  ghost predicate ItemsLeave(s: State, t: State, k: PoolKey, who: UserId) {
    && k in s.farms && k in t.farms
    && (forall i: LockItem :: multiset(LockedOf(t, k, who))[i]
          == if s.now >= Min(i.block + s.farms[k].pool.coolDown, U32_MAX) then 0
             else multiset(LockedOf(s, k, who))[i])
    && t.ledger.Balance(k.asset, User(who))
       == s.ledger.Balance(k.asset, User(who)) + LockedTotal(LockedOf(s, k, who)) - LockedTotal(LockedOf(t, k, who))
  }

  lemma RedeemShape(s: State, who: UserId, k: PoolKey)
    requires Farming.Redeem(s, who, k).Ok?
    ensures var t := Farming.Redeem(s, who, k).value;
            && k in s.farms && k in t.farms && t.farms[k].pool == s.farms[k].pool
            && LockedOf(t, k, who) == Retained(LockedOf(s, k, who), s.farms[k].pool.coolDown, s.now)
            && t.ledger.Balance(k.asset, User(who)) == s.ledger.Balance(k.asset, User(who))
                 + Matured(LockedOf(s, k, who), s.farms[k].pool.coolDown, s.now)
  {
    hide Matured, Retained, Ledger.Transfer;
  }

  /** What a redemption does, item by item: those whose time has come leave, and what they amount to is paid. */
  lemma RedeemPays(s: State, who: UserId, k: PoolKey)
    requires Farming.Redeem(s, who, k).Ok?
    ensures var t := Farming.Redeem(s, who, k).value;
            && k in s.farms && k in t.farms
            && ItemsLeave(s, t, k, who)
            && (forall i | 0 <= i < |LockedOf(s, k, who)| ::
                  s.now >= Min(LockedOf(s, k, who)[i].block + s.farms[k].pool.coolDown, U32_MAX) ==>
                    t.ledger.Balance(k.asset, User(who))
                    >= s.ledger.Balance(k.asset, User(who)) + LockedOf(s, k, who)[i].amount)
            && t.farms[k].pool == s.farms[k].pool
  {
    hide Matured, Retained, LockedTotal, Farming.Redeem;
    RedeemShape(s, who, k);
    var p := s.farms[k].Position(who);
    LockedSplit(p.locked, s.farms[k].pool.coolDown, s.now);
    forall i: LockItem
      ensures multiset(Retained(p.locked, s.farms[k].pool.coolDown, s.now))[i]
              == if s.now >= Min(i.block + s.farms[k].pool.coolDown, U32_MAX) then 0 else multiset(p.locked)[i]
    {
      ItemsSplit(p.locked, s.farms[k].pool.coolDown, s.now, i);
    }
    forall i | 0 <= i < |p.locked| && s.now >= Min(p.locked[i].block + s.farms[k].pool.coolDown, U32_MAX)
      ensures p.locked[i].amount <= Matured(p.locked, s.farms[k].pool.coolDown, s.now)
    {
      MaturedAtLeast(p.locked, s.farms[k].pool.coolDown, s.now, i);
    }
  }

  /** What a withdrawal does: without a cool-down it pays at once, otherwise it locks the amount with the block. */
  lemma WithdrawLocks(s: State, who: UserId, k: PoolKey, amount: nat)
    requires Farming.Withdraw(s, who, k, amount).Ok?
    ensures var t := Farming.Withdraw(s, who, k, amount).value;
            && k in s.farms && k in t.farms && t.now == s.now
            && t.farms[k].Position(who).deposit == s.farms[k].Position(who).deposit - amount
            && LockedOf(t, k, who) == LockedOf(s, k, who)
                 + (if s.farms[k].pool.coolDown == 0 then [] else [LockItem(amount, s.now)])
            && t.ledger.Balance(k.asset, User(who)) == s.ledger.Balance(k.asset, User(who))
                 + (if s.farms[k].pool.coolDown == 0 then amount else 0)
  {
    hide Ledger.Transfer, PoolInfo.RewardPerShare;
  }

  // ---------- the items of a user over a run ----------

  predicate RedeemsNot(ops: seq<Op>, k: PoolKey, who: UserId) {
    forall i :: 0 <= i < |ops| ==> ops[i] != Op.Redeem(k, who)
  }

  lemma SettledItems(f: Farm, who: Option<UserId>, now: nat, u: UserId)
    requires UpdateReward(f, who, now).Ok?
    ensures UpdateReward(f, who, now).value.Position(u).locked == f.Position(u).locked
  {
  }

  /** The calls that settle first. */
  lemma SettlingLocks(s: State, op: Op, k: PoolKey, who: UserId)
    requires k in s.farms && Call(s, op).Ok?
    requires op.Deposit? || op.ClaimReward? || op.DispatchReward?
    ensures k in Step(s, op).farms && LockedOf(Step(s, op), k, who) == LockedOf(s, k, who)
  {
    hide UpdateReward, Ledger.Transfer, NewRate;
    match op
    case Deposit(_, w, _) => SettledItems(s.farms[op.k], Some(w), s.now, who);
    case ClaimReward(_, w) => SettledItems(s.farms[op.k], Some(w), s.now, who);
    case DispatchReward(_, _, _, _) => SettledItems(s.farms[op.k], None, s.now, who);
  }

  lemma WithdrawingLocks(s: State, op: Op, k: PoolKey, who: UserId)
    requires k in s.farms && Call(s, op).Ok? && op.Withdraw?
    ensures k in Step(s, op).farms && LockedOf(s, k, who) <= LockedOf(Step(s, op), k, who)
    ensures op.k != k || op.who != who ==> LockedOf(Step(s, op), k, who) == LockedOf(s, k, who)
  {
    hide UpdateReward, Ledger.Transfer;
    SettledItems(s.farms[op.k], Some(op.who), s.now, who);
  }

  lemma QuietLocks(s: State, op: Op, k: PoolKey, who: UserId)
    requires k in s.farms && Call(s, op).Ok? && op != Op.Redeem(k, who)
    requires !op.Deposit? && !op.Withdraw? && !op.ClaimReward? && !op.DispatchReward?
    ensures k in Step(s, op).farms && LockedOf(Step(s, op), k, who) == LockedOf(s, k, who)
  {
    hide Ledger.Transfer, Matured, Retained;
  }

  /** Only the user's own withdrawals add items, at the end, and only the user's own redemption takes any away. */
  lemma StepLocks(s: State, op: Op, k: PoolKey, who: UserId)
    requires k in s.farms && op != Op.Redeem(k, who)
    ensures k in Step(s, op).farms
    ensures LockedOf(s, k, who) <= LockedOf(Step(s, op), k, who)
    ensures !op.Withdraw? || op.k != k || op.who != who ==> LockedOf(Step(s, op), k, who) == LockedOf(s, k, who)
  {
    hide Call, LockedOf;
    if Call(s, op).Ok? {
      hide Step;
      if op.Deposit? || op.ClaimReward? || op.DispatchReward? {
        SettlingLocks(s, op, k, who);
      } else if op.Withdraw? {
        WithdrawingLocks(s, op, k, who);
      } else {
        QuietLocks(s, op, k, who);
      }
    }
  }

  lemma {:induction false} RunLocks(s: State, ops: seq<Op>, k: PoolKey, who: UserId)
    requires k in s.farms && RedeemsNot(ops, k, who)
    ensures k in Run(s, ops).farms && LockedOf(s, k, who) <= LockedOf(Run(s, ops), k, who)
  {
    hide Step;
    if ops != [] {
      RunLocks(s, ops[..|ops| - 1], k, who);
      StepLocks(Run(s, ops[..|ops| - 1]), ops[|ops| - 1], k, who);
    }
  }

  /** The cool-down, from the withdrawal to the redemption. Whatever happens in between, short of a redemption by the
      same user, the withdrawn amount stays locked, and a redemption at block n lets it go exactly when n has
      reached the block of the withdrawal plus the cool-down then in force, and pays it. */
  lemma CoolsDown(s: State, who: UserId, k: PoolKey, amount: nat, ops: seq<Op>)
    requires Liquid(s) && Farming.Withdraw(s, who, k, amount).Ok? && s.farms[k].pool.coolDown > 0 && RedeemsNot(ops, k, who)
    ensures var t := Run(Farming.Withdraw(s, who, k, amount).value, ops);
            var item := LockItem(amount, s.now);
            && k in t.farms && item in LockedOf(t, k, who)
            && Farming.Redeem(t, who, k).Ok?
            && var u := Farming.Redeem(t, who, k).value;
               && k in u.farms
               && (item in LockedOf(u, k, who) <==> t.now < Min(s.now + t.farms[k].pool.coolDown, U32_MAX))
               && multiset(LockedOf(u, k, who))[item] in {0, multiset(LockedOf(t, k, who))[item]}
               && u.ledger.Balance(k.asset, User(who)) == t.ledger.Balance(k.asset, User(who))
                    + LockedTotal(LockedOf(t, k, who)) - LockedTotal(LockedOf(u, k, who))
               && (t.now >= Min(s.now + t.farms[k].pool.coolDown, U32_MAX) ==>
                     u.ledger.Balance(k.asset, User(who)) >= t.ledger.Balance(k.asset, User(who)) + amount)
  {
    hide Liquid, Farming.Withdraw, Farming.Redeem, Run, LockedTotal;
    WithdrawLocks(s, who, k, amount);
    var w := Farming.Withdraw(s, who, k, amount).value;
    var item := LockItem(amount, s.now);
    assert LockedOf(w, k, who)[|LockedOf(w, k, who)| - 1] == item;
    assert w == Step(s, Op.Withdraw(k, who, amount));
    StepKeepsLiquid(s, Op.Withdraw(k, who, amount));
    RunLocks(w, ops, k, who);
    RunKeepsLiquid(w, ops);
    var t := Run(w, ops);
    assert LockedOf(t, k, who)[|LockedOf(w, k, who)| - 1] == item;
    RedeemPayable(t, who, k);
    RedeemPays(t, who, k);
    var u := Farming.Redeem(t, who, k).value;
    assert item in LockedOf(u, k, who) <==> multiset(LockedOf(u, k, who))[item] > 0;
    assert item in LockedOf(t, k, who) <==> multiset(LockedOf(t, k, who))[item] > 0;
  }

  // ---------- settings ----------

  predicate SameSettings(p: PoolInfo, q: PoolInfo) {
    q.isActive == p.isActive && q.coolDown == p.coolDown && q.unlockHeight == p.unlockHeight
  }

  lemma SettledSettings(f: Farm, who: Option<UserId>, now: nat)
    requires UpdateReward(f, who, now).Ok?
    ensures SameSettings(f.pool, UpdateReward(f, who, now).value.pool)
  {
  }

  lemma MoneySettings(s: State, op: Op, k: PoolKey)
    requires k in s.farms && Call(s, op).Ok?
    requires op.Deposit? || op.Withdraw? || op.ClaimReward? || op.DispatchReward? || op.Redeem?
    ensures k in Step(s, op).farms && SameSettings(s.farms[k].pool, Step(s, op).farms[k].pool)
  {
    hide UpdateReward, Ledger.Transfer, NewRate, Matured, Retained;
    match op
    case Deposit(_, w, _) => SettledSettings(s.farms[op.k], Some(w), s.now);
    case Withdraw(_, w, _) => SettledSettings(s.farms[op.k], Some(w), s.now);
    case ClaimReward(_, w) => SettledSettings(s.farms[op.k], Some(w), s.now);
    case DispatchReward(_, _, _, _) => SettledSettings(s.farms[op.k], None, s.now);
    case Redeem(_, _) =>
  }

  /** What each call makes of the settings of a pool, over all calls: they change only by their own calls, and to what
      those say. */
  lemma StepSettings(s: State, op: Op, k: PoolKey)
    requires k in s.farms
    ensures k in Step(s, op).farms
    ensures var before, after := s.farms[k].pool, Step(s, op).farms[k].pool;
            && after.isActive == (if op.SetPoolStatus? && op.k == k then op.active else before.isActive)
            && after.coolDown == (if op.SetCoolDown? && op.k == k && op.coolDown <= s.cfg.maxCoolDown
                                  then op.coolDown else before.coolDown)
            && after.unlockHeight == (if op == Op.ResetUnlockHeight(k) && before.unlockHeight < s.now
                                         && s.now + k.lockDuration <= U32_MAX
                                      then s.now + k.lockDuration else before.unlockHeight)
  {
    if op.Deposit? || op.Withdraw? || op.ClaimReward? || op.DispatchReward? || op.Redeem? {
      hide Call;
      if Call(s, op).Ok? {
        hide Step;
        MoneySettings(s, op, k);
      }
    } else {
      hide Ledger.Transfer;
    }
  }

  /** When the calls that set them succeed. */
  lemma SettingSucceeds(s: State, k: PoolKey, active: bool, coolDown: nat)
    ensures Call(s, Op.SetPoolStatus(k, active)).Ok? <==> k in s.farms && s.farms[k].pool.isActive != active
    ensures Call(s, Op.SetCoolDown(k, coolDown)).Ok?
            <==> k in s.farms && coolDown <= s.cfg.maxCoolDown && s.farms[k].pool.coolDown != coolDown
    ensures Call(s, Op.ResetUnlockHeight(k)).Ok?
            <==> k in s.farms && s.farms[k].pool.unlockHeight < s.now && s.now + k.lockDuration <= U32_MAX
    ensures Call(s, Op.Create(k, coolDown)).Ok?
            <==> k !in s.farms && k.lockDuration <= s.cfg.maxLockDuration && coolDown <= s.cfg.maxCoolDown
  {
  }

  /** A new pool takes no deposit before it is made active, has nothing streaming, and the cool-down it was given. */
  lemma NewPoolIsClosed(s: State, k: PoolKey, coolDown: nat, who: UserId, amount: nat)
    requires Call(s, Op.Create(k, coolDown)).Ok?
    ensures var t := Step(s, Op.Create(k, coolDown));
            && k in t.farms && Call(t, Op.Deposit(k, who, amount)).Err?
            && t.farms[k].pool.coolDown == coolDown && t.farms[k].pool.rewardRate == 0 && t.farms[k].pool.unlockHeight == 0
            && t.farms.Keys == s.farms.Keys + {k} && t.ledger == s.ledger
  {
    hide Ledger.Transfer;
  }

  // ---------- limits ----------

  /** Durations and the number of lock items are within what the configuration allows. */
  ghost predicate FarmWithinLimits(k: PoolKey, f: Farm, cfg: Config) {
    && k.lockDuration <= cfg.maxLockDuration && f.pool.coolDown <= cfg.maxCoolDown
    && forall w :: w in f.positions ==> |f.positions[w].locked| <= cfg.maxLockItems
  }

  ghost predicate WithinLimits(s: State) {
    forall k :: k in s.farms ==> FarmWithinLimits(k, s.farms[k], s.cfg)
  }

  lemma {:induction false} FewerRetained(items: seq<LockItem>, coolDown: nat, now: nat)
    ensures |Retained(items, coolDown, now)| <= |items|
  {
    if items != [] {
      FewerRetained(items[..|items| - 1], coolDown, now);
    }
  }

  lemma SettledLimits(k: PoolKey, f: Farm, who: Option<UserId>, now: nat, cfg: Config)
    requires FarmWithinLimits(k, f, cfg) && UpdateReward(f, who, now).Ok?
    ensures FarmWithinLimits(k, UpdateReward(f, who, now).value, cfg)
  {
    hide PoolInfo.RewardPerShare;
  }

  /** The farm that a call works on. */
  lemma CallLimits(s: State, op: Op)
    requires Call(s, op).Ok? && !op.NextBlock? && !op.Transfer? && !op.Create?
    requires op.k in s.farms && FarmWithinLimits(op.k, s.farms[op.k], s.cfg)
    ensures op.k in Step(s, op).farms && FarmWithinLimits(op.k, Step(s, op).farms[op.k], s.cfg)
  {
    hide UpdateReward, Ledger.Transfer, NewRate, Matured, Retained;
    var f := s.farms[op.k];
    match op
    case Deposit(k, who, _) => SettledLimits(k, f, Some(who), s.now, s.cfg);
    case Withdraw(k, who, _) => SettledLimits(k, f, Some(who), s.now, s.cfg);
    case ClaimReward(k, who) => SettledLimits(k, f, Some(who), s.now, s.cfg);
    case DispatchReward(k, _, _, _) => SettledLimits(k, f, None, s.now, s.cfg);
    case Redeem(_, who) => FewerRetained(f.Position(who).locked, f.pool.coolDown, s.now);
    case _ =>
  }

  lemma OneFarm(s: State, op: Op)
    requires Call(s, op).Ok? && !op.NextBlock? && !op.Transfer?
    ensures var t := Step(s, op);
            && op.k in t.farms && t.farms == s.farms[op.k := t.farms[op.k]] && t.cfg == s.cfg
            && (!op.Create? ==> op.k in s.farms)
  {
    hide UpdateReward, AddDeposit, TakeDeposit, TakeReward, TakeMatured, Fund, Ledger.Transfer;
  }

  lemma StepKeepsLimits(s: State, op: Op)
    requires WithinLimits(s)
    ensures WithinLimits(Step(s, op)) && Step(s, op).cfg == s.cfg
  {
    if Call(s, op).Err? || op.NextBlock? || op.Transfer? {
      hide Ledger.Transfer, FarmWithinLimits;
    } else if op.Create? {
    } else {
      hide Step, Call, FarmWithinLimits;
      OneFarm(s, op);
      CallLimits(s, op);
    }
  }

  /** In every reachable state every pool has its durations within the limits, and no position more lock items than
      allowed. */
  lemma {:induction false} RunKeepsLimits(s: State, ops: seq<Op>)
    requires WithinLimits(s)
    ensures WithinLimits(Run(s, ops)) && Run(s, ops).cfg == s.cfg
  {
    hide Step, WithinLimits;
    if ops != [] {
      RunKeepsLimits(s, ops[..|ops| - 1]);
      StepKeepsLimits(Run(s, ops[..|ops| - 1]), ops[|ops| - 1]);
    }
  }

  // ---------- the lock of a pool ----------

  lemma Earlier(s: State, op: Op)
    ensures s.now <= Step(s, op).now
  {
    hide UpdateReward, AddDeposit, TakeDeposit, TakeReward, TakeMatured, Fund, Ledger.Transfer;
  }

  lemma {:induction false} LockHolds(s: State, ops: seq<Op>, k: PoolKey)
    requires k in s.farms && Run(s, ops).now <= s.farms[k].pool.unlockHeight
    ensures k in Run(s, ops).farms && Run(s, ops).farms[k].pool.unlockHeight == s.farms[k].pool.unlockHeight
  {
    hide Step;
    if ops != [] {
      var before, op := Run(s, ops[..|ops| - 1]), ops[|ops| - 1];
      Earlier(before, op);
      LockHolds(s, ops[..|ops| - 1], k);
      StepSettings(before, op, k);
    }
  }

  lemma LockedOut(s: State, who: UserId, k: PoolKey, amount: nat)
    requires k in s.farms && s.now < s.farms[k].pool.unlockHeight
    ensures Farming.Withdraw(s, who, k, amount).Err?
  {
    hide TakeDeposit, Ledger.Transfer, PoolInfo.RewardPerShare, Settled;
  }

  /** After the unlock height is reset at block b nobody can withdraw before block b plus the lock duration of the pool,
      whatever is called in between: the height cannot be moved while it lies ahead. */
  lemma LockedUntil(s: State, k: PoolKey, ops: seq<Op>, who: UserId, amount: nat)
    requires Call(s, Op.ResetUnlockHeight(k)).Ok?
    requires var t := Run(Step(s, Op.ResetUnlockHeight(k)), ops); t.now < s.now + k.lockDuration
    ensures var t := Run(Step(s, Op.ResetUnlockHeight(k)), ops);
            && k in t.farms && t.farms[k].pool.unlockHeight == s.now + k.lockDuration
            && Call(t, Op.Withdraw(k, who, amount)).Err?
  {
    var r := Step(s, Op.ResetUnlockHeight(k));
    SettingSucceeds(s, k, true, 0);
    StepSettings(s, Op.ResetUnlockHeight(k), k);
    hide Step, Farming.Withdraw, Run;
    LockHolds(r, ops, k);
    LockedOut(Run(r, ops), who, k, amount);
  }
}
