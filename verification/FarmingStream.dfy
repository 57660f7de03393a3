/** What is dispatched is promised: the other side of solvency. Along any run the promise of a pool falls short of what
    was dispatched to it only by what the roundings lose and by what streams while nobody has a deposit. */
module FarmingStream {
  import opened Base
  import opened Sums
  import opened Assets
  import opened FarmingPool
  import opened Farming
  import opened FarmingRuns
  import opened FarmingExits

  /** Dispatched and not promised to anyone, in units of 1/SHARE. */
  ghost function Slack(f: Farm): int {
    SHARE * f.dispatched - Promised(f)
  }

  // ---------- the rate ----------

  /** The new rate spreads what was left of the running period and the new amount over the duration, rounded down. */
  lemma DispatchRate(s: State, k: PoolKey, payer: UserId, amount: nat, duration: nat)
    requires Farming.DispatchReward(s, k, payer, amount, duration).Ok?
    ensures var t := Farming.DispatchReward(s, k, payer, amount, duration).value;
            && k in s.farms && k in t.farms
            && var before, after := s.farms[k].pool, t.farms[k].pool;
               var left := Max(0, before.periodFinish - s.now);
               && after.rewardRate * duration <= left * before.rewardRate + amount < (after.rewardRate + 1) * duration
               && after.periodFinish == s.now + duration && after.lastUpdate == s.now && after.rewardDuration == duration
  {
    hide Ledger.Transfer, PoolInfo.RewardPerShare;
    var t := Farming.DispatchReward(s, k, payer, amount, duration).value;
    var left := Max(0, s.farms[k].pool.periodFinish - s.now);
    FloorBounds(left * s.farms[k].pool.rewardRate + amount, duration);
    Commuted(duration, t.farms[k].pool.rewardRate);
  }

  lemma Commuted(x: nat, y: nat)
    ensures x * y == y * x && x * y + x == (y + 1) * x
  {
  }

  // ---------- what each part loses ----------

  /** What an update of the index loses: less than one unit of 1/SHARE per token, or all that streamed to nobody. */
  function UpdateLoss(pool: PoolInfo, now: nat): nat {
    if pool.totalDeposited > 0 then pool.totalDeposited else Blocks(pool, now) * pool.rewardRate * SHARE
  }

  lemma UpdateSlack(f: Farm, now: nat)
    requires FarmInv(f, now) && f.pool.Updated(now).Ok?
    ensures Slack(f.(pool := f.pool.Updated(now).value)) <= Slack(f) + UpdateLoss(f.pool, now)
  {
    hide Sum, Promised;
    UpdatePromised(f, now);
    IndexStep(f.pool, now);
    var next := f.pool.Updated(now).value;
    assert next.lastUpdate - f.pool.lastUpdate == Blocks(f.pool, now);
    Expanded(next.perShareStored - f.pool.perShareStored, f.pool.totalDeposited);
  }

  lemma Expanded(add: int, total: nat)
    ensures (add + 1) * total == add * total + total
  {
  }

  lemma ReplacePromised(f: Farm, who: UserId, q: UserPosition, total: nat)
    ensures var g := f.(pool := f.pool.(totalDeposited := total)).With(who, q);
            Promised(g) == Promised(f) - Claim(f.Position(who), f.pool.perShareStored) + Claim(q, f.pool.perShareStored)
  {
    hide Sum, Claim;
    var g := f.(pool := f.pool.(totalDeposited := total));
    assert Claims(g) == Claims(f);
    WithClaims(g, who, q);
  }

  lemma SamePool(f: Farm)
    ensures f.(pool := f.pool.(totalDeposited := f.pool.totalDeposited)) == f
  {
  }

  lemma SettleSlack(f: Farm, who: Option<UserId>, now: nat)
    requires FarmInv(f, now) && UpdateReward(f, who, now).Ok?
    ensures Slack(UpdateReward(f, who, now).value)
            <= Slack(f) + UpdateLoss(f.pool, now) + (if who.Some? then SHARE else 0)
  {
    hide Sum, Promised, UpdateLoss;
    UpdateSlack(f, now);
    var h := f.(pool := f.pool.Updated(now).value);
    if who.Some? {
      var q := SettledShape(f, who.value, now);
      SettleLoses(h.Position(who.value), q, h.pool.perShareStored);
      ReplacePromised(h, who.value, q, h.pool.totalDeposited);
      SamePool(h);
    }
  }

  lemma DepositSlack(s: State, who: UserId, k: PoolKey, amount: nat)
    requires Sound(s) && Farming.Deposit(s, who, k, amount).Ok?
    ensures Slack(Farming.Deposit(s, who, k, amount).value.farms[k])
            <= Slack(s.farms[k]) + UpdateLoss(s.farms[k].pool, s.now) + SHARE
  {
    hide Sum, Promised, UpdateLoss, UpdateReward, Ledger.Transfer, Claim;
    var f := UpdateReward(s.farms[k], Some(who), s.now).value;
    SettleSlack(s.farms[k], Some(who), s.now);
    SettleKeeps(s.farms[k], who, s.now);
    var p := f.Position(who);
    var q := p.(deposit := p.deposit + amount);
    UnpaidNothing(p, q, f.pool.perShareStored);
    ReplacePromised(f, who, q, f.pool.totalDeposited + amount);
  }

  lemma WithdrawSlack(s: State, who: UserId, k: PoolKey, amount: nat)
    requires Sound(s) && Farming.Withdraw(s, who, k, amount).Ok?
    ensures Slack(Farming.Withdraw(s, who, k, amount).value.farms[k])
            <= Slack(s.farms[k]) + UpdateLoss(s.farms[k].pool, s.now) + SHARE
  {
    hide Sum, Promised, UpdateLoss, UpdateReward, Ledger.Transfer, Claim, TakeDeposit;
    var f := UpdateReward(s.farms[k], Some(who), s.now).value;
    SettleSlack(s.farms[k], Some(who), s.now);
    SettleKeeps(s.farms[k], who, s.now);
    var q := TakeDepositShape(f, who, amount, s.now, s.cfg.maxLockItems);
    UnpaidNothing(f.Position(who), q, f.pool.perShareStored);
    ReplacePromised(f, who, q, f.pool.totalDeposited - amount);
  }

  lemma ClaimSlack(s: State, who: UserId, k: PoolKey)
    requires Sound(s) && Farming.ClaimReward(s, who, k).Ok?
    ensures Slack(Farming.ClaimReward(s, who, k).value.farms[k])
            <= Slack(s.farms[k]) + UpdateLoss(s.farms[k].pool, s.now) + SHARE
  {
    hide Sum, Promised, UpdateLoss, UpdateReward, Ledger.Transfer, Deposits, Locked;
    var f := UpdateReward(s.farms[k], Some(who), s.now).value;
    SettleSlack(s.farms[k], Some(who), s.now);
    TakeRewardPromises(f, who);
  }

  /** A dispatch loses less than one token per block of its duration. */
  lemma FundSlack(f: Farm, amount: nat, duration: nat, now: nat)
    requires FarmInv(f, now) && f.pool.lastUpdate == f.pool.LastRewardBlockApplicable(now)
    requires duration > 0 && Fund(f, amount, duration, now).Ok?
    ensures Slack(f) <= Slack(Fund(f, amount, duration, now).value) < Slack(f) + SHARE * duration
  {
    hide Sum;
    var g := Fund(f, amount, duration, now).value;
    assert Claims(g) == Claims(f);
    var left := f.pool.periodFinish - f.pool.lastUpdate;
    FloorBounds(left * f.pool.rewardRate + amount, duration);
    ScaledStream(duration, g.pool.rewardRate, left, f.pool.rewardRate, amount);
  }

  lemma ScaledStream(duration: nat, rate: nat, left: nat, oldRate: nat, amount: nat)
    requires duration * rate <= left * oldRate + amount < duration * rate + duration
    ensures 0 <= SHARE * oldRate * left + SHARE * amount - SHARE * rate * duration < SHARE * duration
  {
    assert SHARE * oldRate * left == SHARE * (left * oldRate);
    assert SHARE * rate * duration == SHARE * (duration * rate);
  }

  lemma DispatchSlack(s: State, k: PoolKey, payer: UserId, amount: nat, duration: nat)
    requires Sound(s) && Farming.DispatchReward(s, k, payer, amount, duration).Ok?
    ensures Slack(Farming.DispatchReward(s, k, payer, amount, duration).value.farms[k])
            <= Slack(s.farms[k]) + UpdateLoss(s.farms[k].pool, s.now) + SHARE * duration
  {
    hide Sum, Slack, UpdateLoss, UpdateReward, Fund, Ledger.Transfer;
    var f := UpdateReward(s.farms[k], None, s.now).value;
    SettleSlack(s.farms[k], None, s.now);
    UpdatedFarm(s.farms[k], s.now);
    FundSlack(f, amount, duration, s.now);
  }

  // ---------- over runs ----------

  /** The most that a step can lose of what was dispatched to a pool, in units of 1/SHARE. */
  function Loss(s: State, op: Op, k: PoolKey): nat {
    if k !in s.farms || Call(s, op).Err? then 0 else
      match op
      case Deposit(x, _, _) => if x == k then UpdateLoss(s.farms[k].pool, s.now) + SHARE else 0
      case Withdraw(x, _, _) => if x == k then UpdateLoss(s.farms[k].pool, s.now) + SHARE else 0
      case ClaimReward(x, _) => if x == k then UpdateLoss(s.farms[k].pool, s.now) + SHARE else 0
      case DispatchReward(x, _, _, duration) =>
        if x == k then UpdateLoss(s.farms[k].pool, s.now) + SHARE * duration else 0
      case _ => 0
  }

  /** Calls that neither move the index nor dispatch leave the promise alone. */
  lemma OtherSlack(s: State, op: Op, k: PoolKey)
    requires k in s.farms && Call(s, op).Ok?
    requires op.NextBlock? || op.Transfer? || op.k != k
             || op.SetPoolStatus? || op.SetCoolDown? || op.ResetUnlockHeight? || op.Redeem? || op.Create?
    ensures k in Step(s, op).farms && Slack(Step(s, op).farms[k]) == Slack(s.farms[k])
  {
    hide Sum, UpdateReward, AddDeposit, TakeDeposit, TakeReward, Fund, Matured, Retained, Ledger.Transfer;
    if !op.NextBlock? && !op.Transfer? && op.k == k {
      if op.Redeem? {
        var f := s.farms[k];
        var p := f.Position(op.who);
        ReplacePromised(f, op.who, p.(locked := Retained(p.locked, f.pool.coolDown, s.now)), f.pool.totalDeposited);
        SamePool(f);
      } else {
        assert Claims(Step(s, op).farms[k]) == Claims(s.farms[k]);
      }
    }
  }

  lemma StepSlack(s: State, op: Op, k: PoolKey)
    requires Sound(s) && k in s.farms
    ensures k in Step(s, op).farms && Slack(Step(s, op).farms[k]) <= Slack(s.farms[k]) + Loss(s, op, k)
  {
    hide Slack, UpdateLoss, Farming.Deposit, Farming.Withdraw, Farming.ClaimReward, Farming.DispatchReward, FarmInv;
    if Call(s, op).Ok? {
      StaysThere(s, op, k);
      if op.NextBlock? || op.Transfer? || op.k != k {
        OtherSlack(s, op, k);
      } else {
        match op
        case Deposit(_, who, amount) => DepositSlack(s, who, k, amount);
        case Withdraw(_, who, amount) => WithdrawSlack(s, who, k, amount);
        case ClaimReward(_, who) => ClaimSlack(s, who, k);
        case DispatchReward(_, payer, amount, duration) => DispatchSlack(s, k, payer, amount, duration);
        case _ => OtherSlack(s, op, k);
      }
    }
  }

  lemma StaysThere(s: State, op: Op, k: PoolKey)
    requires k in s.farms
    ensures k in Step(s, op).farms
  {
    hide UpdateReward, AddDeposit, TakeDeposit, TakeMatured, TakeReward, Fund, Ledger.Transfer;
  }

  function Losses(s: State, ops: seq<Op>, k: PoolKey): nat {
    if ops == [] then 0
    else Losses(s, ops[..|ops| - 1], k) + Loss(Run(s, ops[..|ops| - 1]), ops[|ops| - 1], k)
  }

  lemma NewSlack(s: State, op: Op, k: PoolKey)
    requires k !in s.farms && k in Step(s, op).farms
    ensures Slack(Step(s, op).farms[k]) == 0
  {
    var f := Step(s, op).farms[k];
    assert op.Create? && f.positions == map[] && f.dispatched == 0 && f.claimed == 0 && f.pool.rewardRate == 0;
    assert Claims(f) == map[];
  }

  /** Nothing dispatched is forgotten. After any run, what a pool has paid, owes and still streams is at most what was
      dispatched to it, and falls short of that by no more than one unit of 10^-12 per deposited token for every
      update of the index, one token for every settlement, one token per block of every dispatch, and what
      streamed while there was no deposit. */
  lemma {:induction false} NothingForgotten(s: State, ops: seq<Op>, k: PoolKey)
    requires Sound(s) && k !in s.farms
    ensures k in Run(s, ops).farms ==> 0 <= Slack(Run(s, ops).farms[k]) <= Losses(s, ops, k)
  {
    hide Step, Slack, FarmInv, Spare, Gift, Loss;
    RunKeeps(s, ops);
    if k in Run(s, ops).farms {
      SlackIsNot(Run(s, ops).farms[k], Run(s, ops).now);
      var before, op := Run(s, ops[..|ops| - 1]), ops[|ops| - 1];
      NothingForgotten(s, ops[..|ops| - 1], k);
      RunKeeps(s, ops[..|ops| - 1]);
      if k in before.farms {
        StepSlack(before, op, k);
      } else {
        NewSlack(before, op, k);
      }
    }
  }

  lemma SlackIsNot(f: Farm, now: nat)
    requires FarmInv(f, now)
    ensures Slack(f) >= 0
  {
  }
}
