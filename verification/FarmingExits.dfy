/** When a stake or a reward can be taken out: the exact conditions under which the farming calls succeed, and the
    pools whose index can move no further and so hold every stake in them for good. */
module FarmingExits {
  import opened Base
  import opened Sums
  import opened Assets
  import opened FarmingPool
  import opened Farming
  import opened FarmingRuns

  // ---------- settling ----------

  /** The blocks that the index has not seen yet. */
  function Blocks(pool: PoolInfo, now: nat): nat {
    Max(0, Min(now, pool.periodFinish) - pool.lastUpdate)
  }

  /** The next value of the index does not fit 128 bits. */
  predicate Stuck(pool: PoolInfo, now: nat) {
    && pool.totalDeposited > 0
    && pool.perShareStored + Blocks(pool, now) * pool.rewardRate * SHARE / pool.totalDeposited > U128_MAX
  }

  lemma IndexMoves(pool: PoolInfo, now: nat)
    requires pool.perShareStored <= U128_MAX
    ensures pool.Updated(now).Ok? <==> !Stuck(pool, now)
    ensures pool.Updated(now).Err? ==> pool.Updated(now).error == Overflow
  {
    NonNegativeProduct(Blocks(pool, now) * pool.rewardRate, SHARE);
  }

  lemma EarnedWithin(p: UserPosition, index: nat, unclaimed: nat)
    requires p.paid <= index && Claim(p, index) <= SHARE * unclaimed
    ensures p.deposit * (index - p.paid) / SHARE + p.reward <= unclaimed
  {
    NonNegativeProduct(p.deposit, index - p.paid);
    FloorBounds(p.deposit * (index - p.paid), SHARE);
  }

  /** Settling fails exactly where the index is stuck: what a position earns always fits. */
  lemma SettlingSucceeds(f: Farm, who: Option<UserId>, now: nat)
    requires FarmInv(f, now) && Unclaimed(f) <= U128_MAX
    ensures UpdateReward(f, who, now).Ok? <==> !Stuck(f.pool, now)
    ensures UpdateReward(f, who, now).Err? ==> UpdateReward(f, who, now).error == Overflow
  {
    hide Sum, Stuck;
    IndexMoves(f.pool, now);
    if f.pool.Updated(now).Ok? && who.Some? {
      var g := f.(pool := f.pool.Updated(now).value);
      PoolUpdateKeeps(f, now);
      SecondReadIsStored(f.pool, now);
      ClaimWithin(g, who.value, now);
      EarnedWithin(g.Position(who.value), g.pool.perShareStored, Unclaimed(g));
    }
  }

  // ---------- what the pots hold fits the machine integers ----------

  /** What the pallet promises between calls: every pool is solvent, every pot covers what is owed from it, and
      every balance fits. */
  ghost predicate Liquid(s: State) {
    Covered(s) && Fits(s.ledger)
  }

  lemma LedgerFits(s: State, op: Op)
    requires Fits(s.ledger)
    ensures Fits(Step(s, op).ledger)
  {
    hide Fits, Ledger.Transfer, UpdateReward, AddDeposit, TakeDeposit, TakeMatured, TakeReward, Fund;
    if Call(s, op).Ok? {
      match op
      case Deposit(k, who, amount) => TransferFits(s.ledger, k.asset, User(who), FarmingPot(k.asset), amount);
      case Withdraw(k, who, amount) =>
        var f := UpdateReward(s.farms[k], Some(who), s.now).value;
        var out := TakeDeposit(f, who, amount, s.now, s.cfg.maxLockItems).value.1;
        TransferFits(s.ledger, k.asset, FarmingPot(k.asset), User(who), out);
      case Redeem(k, who) =>
        var out := TakeMatured(s.farms[k], who, s.now).value.1;
        TransferFits(s.ledger, k.asset, FarmingPot(k.asset), User(who), out);
      case ClaimReward(k, who) =>
        var out := TakeReward(UpdateReward(s.farms[k], Some(who), s.now).value, who).1;
        TransferFits(s.ledger, k.reward, FarmingPot(k.reward), User(who), out);
      case DispatchReward(k, payer, amount, _) =>
        TransferFits(s.ledger, k.reward, User(payer), FarmingPot(k.reward), amount);
      case Transfer(asset, from, to, amount) => TransferFits(s.ledger, asset, User(from), to, amount);
      case _ =>
    }
  }

  lemma StepKeepsLiquid(s: State, op: Op)
    requires Liquid(s)
    ensures Liquid(Step(s, op))
  {
    hide Step, Covered, Fits;
    StepKeepsCovered(s, op);
    LedgerFits(s, op);
  }

  lemma {:induction false} RunKeepsLiquid(s: State, ops: seq<Op>)
    requires Liquid(s)
    ensures Liquid(Run(s, ops))
  {
    hide Step, Liquid;
    if ops != [] {
      RunKeepsLiquid(s, ops[..|ops| - 1]);
      StepKeepsLiquid(Run(s, ops[..|ops| - 1]), ops[|ops| - 1]);
    }
  }

  lemma StartsLiquid(ledger: Ledger, now: nat, cfg: Config)
    requires Fits(ledger)
    ensures Liquid(Fresh(ledger, now, cfg))
  {
    hide Covered;
    FreshCovered(ledger, now, cfg);
  }

  lemma FarmWithin(s: State, k: PoolKey)
    requires Liquid(s) && k in s.farms
    ensures var f := s.farms[k];
            && FarmInv(f, s.now) && Unclaimed(f) >= 0 && Sum(Locked(f)) >= 0
            && Staked(f) <= s.ledger.Balance(k.asset, FarmingPot(k.asset)) <= U128_MAX
            && Unclaimed(f) <= s.ledger.Balance(k.reward, FarmingPot(k.reward)) <= U128_MAX
  {
    hide Sum, Spare, Fits;
    PotCovers(s, k, k.asset);
    PotCovers(s, k, k.reward);
    RewardCovered(s.farms[k], 0, s.now);
    SumNonNegative(Locked(s.farms[k]));
    BalanceFits(s.ledger, k.asset, FarmingPot(k.asset), AmmPot);
    BalanceFits(s.ledger, k.reward, FarmingPot(k.reward), AmmPot);
  }

  // ---------- when the calls succeed ----------

  /** A claim fails exactly on a stuck pool. */
  lemma ClaimPayable(s: State, who: UserId, k: PoolKey)
    requires Liquid(s) && k in s.farms
    ensures Farming.ClaimReward(s, who, k).Ok? <==> !Stuck(s.farms[k].pool, s.now)
  {
    hide Sum, Stuck, Farming.ClaimReward, UpdateReward;
    FarmWithin(s, k);
    SettlingSucceeds(s.farms[k], Some(who), s.now);
    ClaimCovered(s, who, k);
  }

  lemma MaturedFits(f: Farm, who: UserId, now: nat)
    requires FarmInv(f, now) && Staked(f) <= U128_MAX
    ensures TakeMatured(f, who, now).Ok?
  {
    hide Sum, Matured;
    MaturedWithin(f.Position(who).locked, f.pool.coolDown, now);
    SumNonNegative(Locked(f));
    if who in f.positions {
      SumAtLeast(Locked(f), who);
    }
  }

  /** Redeeming always succeeds, on a stuck pool too. */
  lemma RedeemPayable(s: State, who: UserId, k: PoolKey)
    requires Liquid(s) && k in s.farms
    ensures Farming.Redeem(s, who, k).Ok?
  {
    hide Sum, Farming.Redeem, TakeMatured;
    FarmWithin(s, k);
    MaturedFits(s.farms[k], who, s.now);
    RedeemCovered(s, who, k);
  }

  /** A withdrawal fails exactly for nothing or more than the deposit, on a stuck pool, before the unlock height, or for
      want of room for a lock item. */
  lemma WithdrawPayable(s: State, who: UserId, k: PoolKey, amount: nat)
    requires Liquid(s) && k in s.farms
    ensures Farming.Withdraw(s, who, k, amount).Ok? <==>
            && 0 < amount <= s.farms[k].Position(who).deposit
            && !Stuck(s.farms[k].pool, s.now)
            && s.farms[k].pool.unlockHeight <= s.now
            && (s.farms[k].pool.coolDown == 0 || |s.farms[k].Position(who).locked| < s.cfg.maxLockItems)
  {
    if 0 < amount <= s.farms[k].Position(who).deposit {
      hide Sum, Stuck, Farming.Withdraw, UpdateReward;
      FarmWithin(s, k);
      SettlingSucceeds(s.farms[k], Some(who), s.now);
      WithdrawCovered(s, who, k, amount);
    } else {
      hide Liquid;
    }
  }

  /** Together: no payout fails for lack of funds, a claim fails only on a stuck pool, redeeming never. */
  lemma PayoutsExact(s: State, who: UserId, k: PoolKey, amount: nat)
    requires Liquid(s)
    ensures Farming.ClaimReward(s, who, k).Ok? <==> k in s.farms && !Stuck(s.farms[k].pool, s.now)
    ensures Farming.Redeem(s, who, k).Ok? <==> k in s.farms
    ensures Farming.ClaimReward(s, who, k) != Err(FundsUnavailable)
    ensures Farming.Withdraw(s, who, k, amount) != Err(FundsUnavailable)
  {
    hide Stuck, Covered, Fits, UpdateReward, TakeMatured, Ledger.Transfer, TakeDeposit;
    PayoutsCovered(s, who, k, amount);
    if k in s.farms {
      ClaimPayable(s, who, k);
      RedeemPayable(s, who, k);
    }
  }

  lemma DepositFits(f: Farm, who: UserId, amount: nat, now: nat)
    requires FarmInv(f, now) && f.pool.totalDeposited + amount <= U128_MAX
    ensures AddDeposit(f, who, amount).Ok?
  {
    hide Sum;
    if who in f.positions {
      SumAtLeast(Deposits(f), who);
    }
  }

  /** A deposit of something the caller owns fails exactly on a stuck or an inactive pool. */
  lemma DepositPayable(s: State, who: UserId, k: PoolKey, amount: nat)
    requires Liquid(s) && k in s.farms
    ensures Farming.Deposit(s, who, k, amount).Ok? <==>
            && 0 < amount <= s.ledger.Balance(k.asset, User(who))
            && !Stuck(s.farms[k].pool, s.now) && s.farms[k].pool.isActive
  {
    hide Sum, Stuck, UpdateReward, AddDeposit, Ledger.Transfer;
    FarmWithin(s, k);
    SettlingSucceeds(s.farms[k], Some(who), s.now);
    if UpdateReward(s.farms[k], Some(who), s.now).Ok? {
      var f := UpdateReward(s.farms[k], Some(who), s.now).value;
      SettleKeeps(s.farms[k], who, s.now);
      SettledPool(s.farms[k], Some(who), s.now);
      if amount <= s.ledger.Balance(k.asset, User(who)) {
        BalanceFits(s.ledger, k.asset, FarmingPot(k.asset), User(who));
        DepositFits(f, who, amount, s.now);
      }
    }
  }

  /** Settling touches only the index of the pool. */
  lemma SettledPool(f: Farm, who: Option<UserId>, now: nat)
    requires UpdateReward(f, who, now).Ok?
    ensures var g := UpdateReward(f, who, now).value;
            && f.pool.Updated(now) == Ok(g.pool)
            && g.pool == f.pool.(perShareStored := g.pool.perShareStored, lastUpdate := g.pool.lastUpdate)
            && g.dispatched == f.dispatched && g.claimed == f.claimed
  {
  }

  lemma Unscaled(rate: nat, left: nat, unclaimed: nat)
    requires SHARE * rate * left <= SHARE * unclaimed
    ensures left * rate <= unclaimed
  {
  }

  lemma RateFits(f: Farm, amount: nat, duration: nat, now: nat)
    requires FarmInv(f, now) && f.pool.lastUpdate == f.pool.LastRewardBlockApplicable(now)
    requires duration > 0 && 0 <= Unclaimed(f) && Unclaimed(f) + amount <= U128_MAX
    ensures NewRate(f.pool, amount, duration, now).Ok?
  {
    hide Sum;
    if now < f.pool.periodFinish {
      ClaimWithin(f, 0, now);
      Unscaled(f.pool.rewardRate, f.pool.periodFinish - now, Unclaimed(f));
    }
  }

  /** A dispatch of something the payer owns fails exactly for no duration, one past the last block number, or on a
      stuck pool: what is still to stream never overflows. */
  lemma DispatchPayable(s: State, k: PoolKey, payer: UserId, amount: nat, duration: nat)
    requires Liquid(s) && k in s.farms
    ensures Farming.DispatchReward(s, k, payer, amount, duration).Ok? <==>
            && amount <= s.ledger.Balance(k.reward, User(payer))
            && 0 < duration <= U32_MAX - s.now && !Stuck(s.farms[k].pool, s.now)
  {
    hide Sum, Stuck, UpdateReward, NewRate, Ledger.Transfer;
    FarmWithin(s, k);
    SettlingSucceeds(s.farms[k], None, s.now);
    if duration > 0 && UpdateReward(s.farms[k], None, s.now).Ok? {
      var f := UpdateReward(s.farms[k], None, s.now).value;
      UpdatedFarm(s.farms[k], s.now);
      if amount <= s.ledger.Balance(k.reward, User(payer)) {
        BalanceFits(s.ledger, k.reward, FarmingPot(k.reward), User(payer));
        RateFits(f, amount, duration, s.now);
      }
    }
  }

  lemma UpdatedFarm(f: Farm, now: nat)
    requires FarmInv(f, now) && UpdateReward(f, None, now).Ok?
    ensures var g := UpdateReward(f, None, now).value;
            && FarmInv(g, now) && Unclaimed(g) == Unclaimed(f)
            && g.pool.lastUpdate == g.pool.LastRewardBlockApplicable(now)
  {
    hide Sum;
    PoolUpdateKeeps(f, now);
  }

  // ---------- a stuck pool ----------

  /** What a stuck pool holds for a user cannot move, except for items that are locked already. */
  ghost predicate Held(s: State, t: State, k: PoolKey) {
    && k in s.farms && k in t.farms && Stuck(t.farms[k].pool, t.now)
    && forall w: UserId :: t.farms[k].Position(w) == s.farms[k].Position(w).(locked := t.farms[k].Position(w).locked)
  }

  /** On a stuck pool no call that settles succeeds, whoever calls it. */
  lemma StuckFails(s: State, op: Op, k: PoolKey)
    requires k in s.farms && FarmInv(s.farms[k], s.now) && Stuck(s.farms[k].pool, s.now)
    requires (op.Deposit? || op.Withdraw? || op.ClaimReward? || op.DispatchReward?) && op.k == k
    ensures Call(s, op).Err?
  {
    hide Stuck, Sum, AddDeposit, TakeDeposit, TakeReward, Fund, Settled;
    IndexMoves(s.farms[k].pool, s.now);
  }

  lemma StuckLater(pool: PoolInfo, now: nat)
    requires Stuck(pool, now)
    ensures Stuck(pool, now + 1)
  {
    var x, y := Blocks(pool, now), Blocks(pool, now + 1);
    MoreBlocks(x, y, pool.rewardRate, pool.totalDeposited);
  }

  lemma MoreBlocks(x: nat, y: nat, rate: nat, total: nat)
    requires x <= y && total > 0
    ensures x * rate * SHARE / total <= y * rate * SHARE / total
  {
    var a, b := x * rate * SHARE, y * rate * SHARE;
    assert a <= b by {
      NonNegativeProduct((y - x) * rate, SHARE);
      NonNegativeProduct(y - x, rate);
    }
    FloorBounds(a, total);
    FloorBounds(b, total);
    QuotientsOrdered(a / total, b / total, total, a, b);
  }

  lemma QuotientsOrdered(p: nat, q: nat, total: nat, a: nat, b: nat)
    requires total * p <= a <= b < total * q + total
    ensures p <= q
  {
    if p > q {
      NonNegativeProduct(total, p - q - 1);
    }
  }

  lemma StuckStep(s: State, op: Op, k: PoolKey)
    requires k in s.farms && FarmInv(s.farms[k], s.now) && Stuck(s.farms[k].pool, s.now)
    ensures Held(s, Step(s, op), k)
  {
    hide Stuck, FarmInv, UpdateReward, AddDeposit, TakeDeposit, TakeReward, Fund, Matured, Retained, Ledger.Transfer;
    if Call(s, op).Err? {
    } else if op.NextBlock? {
      StuckLater(s.farms[k].pool, s.now);
    } else if op.Transfer? {
    } else if op.k != k {
      assert Step(s, op).farms[k] == s.farms[k];
    } else {
      StuckCall(s, op, k);
    }
  }

  lemma StuckCall(s: State, op: Op, k: PoolKey)
    requires k in s.farms && FarmInv(s.farms[k], s.now) && Stuck(s.farms[k].pool, s.now)
    requires Call(s, op).Ok? && !op.NextBlock? && !op.Transfer? && op.k == k
    ensures Held(s, Step(s, op), k)
  {
    hide FarmInv, UpdateReward, AddDeposit, TakeDeposit, TakeReward, Fund, Matured, Retained, Ledger.Transfer;
    if op.Deposit? || op.Withdraw? || op.ClaimReward? || op.DispatchReward? {
      StuckFails(s, op, k);
    }
  }

  /** A stuck pool stays stuck, whatever is called: over any run every deposit in it and every reward stays where it
      is, and nobody can deposit, withdraw, claim or dispatch. */
  lemma {:induction false} StuckForGood(s: State, ops: seq<Op>, k: PoolKey)
    requires Sound(s) && k in s.farms && Stuck(s.farms[k].pool, s.now)
    ensures Held(s, Run(s, ops), k)
    ensures forall op: Op ::
              (op.Deposit? || op.Withdraw? || op.ClaimReward? || op.DispatchReward?) && op.k == k ==>
                Call(Run(s, ops), op).Err?
  {
    hide Step, Call, FarmInv, Stuck, Spare, Gift;
    if ops != [] {
      var before := Run(s, ops[..|ops| - 1]);
      StuckForGood(s, ops[..|ops| - 1], k);
      RunKeeps(s, ops[..|ops| - 1]);
      StuckStep(before, ops[|ops| - 1], k);
    }
    RunKeeps(s, ops);
    forall op: Op | (op.Deposit? || op.Withdraw? || op.ClaimReward? || op.DispatchReward?) && op.k == k
      ensures Call(Run(s, ops), op).Err?
    {
      StuckFails(Run(s, ops), op, k);
    }
  }

  // ---------- a pool that gets stuck ----------

  const KEY := PoolKey(0, 1, 0)
  const DISPATCHED: nat := 1_000_000_000_000_000_000_000_000_000

  lemma RunMore(s: State, ops: seq<Op>, op: Op)
    ensures Run(s, ops + [op]) == Step(Run(s, ops), op)
  {
    assert (ops + [op])[..|ops|] == ops;
  }

  lemma DepositShape(s: State, who: UserId, k: PoolKey, amount: nat)
    requires Farming.Deposit(s, who, k, amount).Ok?
    ensures var t := Farming.Deposit(s, who, k, amount).value;
            && k in s.farms && k in t.farms && t.now == s.now
            && s.farms[k].pool.Updated(s.now).Ok?
            && t.farms[k].pool == s.farms[k].pool.Updated(s.now).value.(
                 totalDeposited := s.farms[k].pool.totalDeposited + amount)
            && t.farms[k].Position(who).deposit == s.farms[k].Position(who).deposit + amount
            && Moved(s.ledger, t.ledger, k.asset, User(who), FarmingPot(k.asset), amount)
  {
    hide Ledger.Transfer, PoolInfo.RewardPerShare;
  }

  ghost predicate NewPool(s: State) {
    s.now == 0 && KEY in s.farms && s.farms[KEY] == Farm(NEW_POOL.(isActive := s.farms[KEY].pool.isActive), map[], 0, 0)
  }

  lemma Opened(s: State)
    requires s.now == 0 && KEY !in s.farms
    ensures var t := Step(s, Create(KEY, 0));
            var u := Step(t, SetPoolStatus(KEY, true));
            NewPool(u) && u.farms[KEY].pool.isActive && u.ledger == s.ledger
  {
    var t := Step(s, Create(KEY, 0));
    assert t.farms[KEY] == Farm(NEW_POOL, map[], 0, 0) && t.ledger == s.ledger;
  }

  /** One unit staked by user 1, and nothing dispatched yet. */
  ghost predicate OneStaked(s: State) {
    && s.now == 0 && KEY in s.farms
    && s.farms[KEY].pool == NEW_POOL.(isActive := true, totalDeposited := 1)
    && s.farms[KEY].Position(1).deposit == 1
  }

  lemma StakesOne(s: State)
    requires Liquid(s) && NewPool(s) && s.farms[KEY].pool.isActive && s.ledger.Balance(0, User(1)) == 1
    ensures var t := Step(s, Deposit(KEY, 1, 1));
            OneStaked(t) && forall w: Account :: t.ledger.Balance(1, w) == s.ledger.Balance(1, w)
  {
    hide Liquid, Farming.Deposit;
    DepositPayable(s, 1, KEY, 1);
    DepositShape(s, 1, KEY, 1);
    assert s.farms[KEY].pool.Updated(0) == Ok(s.farms[KEY].pool);
  }

  lemma DispatchShape(s: State, k: PoolKey, payer: UserId, amount: nat, duration: nat)
    requires Farming.DispatchReward(s, k, payer, amount, duration).Ok?
    ensures var t := Farming.DispatchReward(s, k, payer, amount, duration).value;
            && k in s.farms && k in t.farms && t.now == s.now && duration > 0
            && s.farms[k].pool.Updated(s.now).Ok?
            && var pool := s.farms[k].pool.Updated(s.now).value;
               && NewRate(pool, amount, duration, s.now) == Ok(t.farms[k].pool.rewardRate)
               && t.farms[k].pool == pool.(rewardDuration := duration, periodFinish := s.now + duration,
                                           rewardRate := t.farms[k].pool.rewardRate, lastUpdate := s.now)
               && t.farms[k].positions == s.farms[k].positions
  {
    hide Ledger.Transfer, PoolInfo.RewardPerShare, NewRate;
  }

  lemma DispatchesTooMuch(s: State)
    requires Liquid(s) && OneStaked(s) && s.ledger.Balance(1, User(2)) == DISPATCHED
    ensures var t := Step(Step(s, DispatchReward(KEY, 2, DISPATCHED, 1)), NextBlock);
            KEY in t.farms && t.farms[KEY].Position(1).deposit == 1 && Stuck(t.farms[KEY].pool, t.now)
  {
    hide Liquid, Farming.DispatchReward;
    DispatchPayable(s, KEY, 2, DISPATCHED, 1);
    assert s.farms[KEY].pool.Updated(0) == Ok(s.farms[KEY].pool);
    DispatchShape(s, KEY, 2, DISPATCHED, 1);
    var t := Step(s, DispatchReward(KEY, 2, DISPATCHED, 1));
    assert t.farms[KEY].pool.rewardRate == DISPATCHED && Blocks(t.farms[KEY].pool, 1) == 1;
  }

  function StuckOps(): seq<Op> {
    [Create(KEY, 0), SetPoolStatus(KEY, true), Deposit(KEY, 1, 1), DispatchReward(KEY, 2, DISPATCHED, 1), NextBlock]
  }

  lemma FiveSteps(s: State, a: Op, b: Op, c: Op, d: Op, e: Op)
    ensures Run(s, [a, b, c]) == Step(Step(Step(s, a), b), c)
    ensures Run(s, [a, b, c, d, e]) == Step(Step(Run(s, [a, b, c]), d), e)
  {
    hide Step;
    RunMore(s, [], a);
    assert [] + [a] == [a] && Run(s, []) == s;
    RunMore(s, [a], b);
    RunMore(s, [a, b], c);
    RunMore(s, [a, b, c], d);
    RunMore(s, [a, b, c, d], e);
    assert [a] + [b] == [a, b] && [a, b] + [c] == [a, b, c];
    assert [a, b, c] + [d] == [a, b, c, d] && [a, b, c, d] + [e] == [a, b, c, d, e];
  }

  /** One unit is staked and 10^27 are dispatched over one block: the index would move by 10^39. From then on the
      unit cannot be withdrawn, whatever happens. */
  lemma GetsStuck() returns (s: State)
    ensures Liquid(s) && s.farms == map[]
    ensures var t := Run(s, StuckOps());
            && KEY in t.farms && t.farms[KEY].Position(1).deposit == 1
            && forall more: seq<Op> ::
                 && KEY in Run(t, more).farms && Run(t, more).farms[KEY].Position(1).deposit == 1
                 && Call(Run(t, more), Op.Withdraw(KEY, 1, 1)).Err?
  {
    hide Fits, Covered, Sound, Stuck, Step, Liquid;
    var l := EmptyLedger();
    l := Minted(l, 0, User(1), 1);
    l := Minted(l, 1, User(2), DISPATCHED);
    s := Fresh(l, 0, Config(0, 0, 0));
    StartsLiquid(l, 0, s.cfg);
    hide Call, Run, Fresh;
    FiveSteps(s, Create(KEY, 0), SetPoolStatus(KEY, true), Deposit(KEY, 1, 1),
              DispatchReward(KEY, 2, DISPATCHED, 1), NextBlock);
    StepKeepsLiquid(s, Create(KEY, 0));
    var s2 := Step(Step(s, Create(KEY, 0)), SetPoolStatus(KEY, true));
    StepKeepsLiquid(Step(s, Create(KEY, 0)), SetPoolStatus(KEY, true));
    Opened(s);
    StakesOne(s2);
    StepKeepsLiquid(s2, Deposit(KEY, 1, 1));
    DispatchesTooMuch(Step(s2, Deposit(KEY, 1, 1)));
    RunKeepsLiquid(s, StuckOps());
    StaysIn(Run(s, StuckOps()));
  }

  lemma StaysIn(t: State)
    requires Liquid(t) && KEY in t.farms && t.farms[KEY].Position(1).deposit == 1 && Stuck(t.farms[KEY].pool, t.now)
    ensures forall more: seq<Op> ::
              && KEY in Run(t, more).farms && Run(t, more).farms[KEY].Position(1).deposit == 1
              && Call(Run(t, more), Op.Withdraw(KEY, 1, 1)).Err?
  {
    hide Call, Run, FarmInv, Stuck, Spare;
    forall more: seq<Op>
      ensures && KEY in Run(t, more).farms && Run(t, more).farms[KEY].Position(1).deposit == 1
              && Call(Run(t, more), Op.Withdraw(KEY, 1, 1)).Err?
    {
      StuckForGood(t, more, KEY);
    }
  }
}
