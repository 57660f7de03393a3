/** The farming pallet as an object that executes the calls of `Farming` on its storage. */
module FarmingPallet {
  import opened Base
  import opened Assets
  import opened FarmingPool
  import opened Farming
  import opened FarmingRuns
  import opened FarmingExits
  import opened FarmingStream
  import opened FarmingLocks

  /** The loop of `redeem`: what has matured is added up, the other items are kept in their order. */
  method SplitItems(items: seq<LockItem>, coolDown: nat, now: nat) returns (total: nat, kept: seq<LockItem>)
    ensures total == Matured(items, coolDown, now) && kept == Retained(items, coolDown, now)
    ensures LockedTotal(items) == total + LockedTotal(kept)
    ensures forall i: LockItem :: multiset(kept)[i]
              == if now >= Min(i.block + coolDown, U32_MAX) then 0 else multiset(items)[i]
  {
    total, kept := 0, [];
    for i := 0 to |items|
      invariant total == Matured(items[..i], coolDown, now)
      invariant kept == Retained(items[..i], coolDown, now)
    {
      assert items[..i + 1][..i] == items[..i];
      if now >= Min(items[i].block + coolDown, U32_MAX) {
        total := total + items[i].amount;
      } else {
        kept := kept + [items[i]];
      }
    }
    assert items[..|items|] == items;
    LockedSplit(items, coolDown, now);
    forall i: LockItem
      ensures multiset(kept)[i] == if now >= Min(i.block + coolDown, U32_MAX) then 0 else multiset(items)[i]
    {
      ItemsSplit(items, coolDown, now, i);
    }
  }

  lemma SettlingKeepsDeposit(f: Farm, who: UserId, now: nat)
    requires UpdateReward(f, Some(who), now).Ok?
    ensures UpdateReward(f, Some(who), now).value.Position(who).deposit == f.Position(who).deposit
  {
  }

  class Pallet {
    var farms: map<PoolKey, Farm>
    var ledger: Ledger
    var now: nat
    const cfg: Config

    function View(): State
      reads this
    {
      State(farms, ledger, now, cfg)
    }

    /** Every pool is solvent, every shared account covers what all its pools owe, and every balance fits; every call
        keeps it. */
    ghost predicate Valid()
      reads this
    {
      Liquid(View())
    }

    constructor (ledger: Ledger, cfg: Config)
      requires Fits(ledger)
      ensures Valid() && View() == State(map[], ledger, 0, cfg)
    {
      this.farms, this.ledger, this.now, this.cfg := map[], ledger, 0, cfg;
      new;
      StartsLiquid(ledger, 0, cfg);
    }

    /** The next block begins. */
    method OnBlock()
      requires Valid()
      modifies this`now
      ensures Valid() && View() == old(View()).(now := old(now) + 1)
    {
      hide Liquid;
      StepKeepsLiquid(View(), NextBlock);
      now := now + 1;
    }

    method SetPool(k: PoolKey, pool: PoolInfo)
      requires k in farms
      modifies this`farms
      ensures farms == old(farms)[k := old(farms[k]).(pool := pool)]
    {
      farms := farms[k := farms[k].(pool := pool)];
    }

    method SetPosition(k: PoolKey, who: UserId, p: UserPosition)
      requires k in farms
      modifies this`farms
      ensures farms == old(farms)[k := old(farms[k]).With(who, p)]
    {
      farms := farms[k := farms[k].With(who, p)];
    }

    /** `update_reward`: first the pool's index, then the position of the given user. */
    method Settle(who: Option<UserId>, k: PoolKey) returns (r: Result<()>)
      requires k in farms
      modifies this`farms
      ensures match UpdateReward(old(farms[k]), who, now)
              case Ok(f) => r.Ok? && farms == old(farms)[k := f]
              case Err(e) => r == Err(e) && farms == old(farms)
    {
      var p := if who.Some? then farms[k].Position(who.value) else NEW_POSITION;
      var pool :- farms[k].pool.Updated(now);
      if who.Some? {
        var index :- pool.RewardPerShare(now);
        var diff :- CheckedSub(index, p.paid, Overflow);
        var earned :- ToU128(p.deposit * diff / SHARE + p.reward, Overflow);
        SetPool(k, pool);
        SetPosition(k, who.value, p.(reward := earned, paid := pool.perShareStored));
      } else {
        SetPool(k, pool);
      }
      return Ok(());
    }

    method Create(k: PoolKey, coolDown: nat) returns (r: Result<()>)
      requires Valid()
      modifies this`farms
      ensures Valid() && Executes(r, old(View()), View(), Farming.Create(old(View()), k, coolDown))
    {
      hide Liquid;
      StepKeepsLiquid(View(), Op.Create(k, coolDown));
      if k in farms {
        return Err(PoolAlreadyExists);
      }
      if k.lockDuration > cfg.maxLockDuration {
        return Err(ExcessMaxLockDuration);
      }
      if coolDown > cfg.maxCoolDown {
        return Err(ExcessMaxCoolDownDuration);
      }
      farms := farms[k := Farm(NEW_POOL.(coolDown := coolDown), map[], 0, 0)];
      return Ok(());
    }

    method SetPoolStatus(k: PoolKey, active: bool) returns (r: Result<()>)
      requires Valid()
      modifies this`farms
      ensures Valid() && Executes(r, old(View()), View(), Farming.SetPoolStatus(old(View()), k, active))
    {
      hide Liquid;
      StepKeepsLiquid(View(), Op.SetPoolStatus(k, active));
      if k !in farms {
        return Err(PoolDoesNotExist);
      }
      if farms[k].pool.isActive == active {
        return Err(PoolInStatus);
      }
      SetPool(k, farms[k].pool.(isActive := active));
      return Ok(());
    }

    method SetPoolCoolDown(k: PoolKey, coolDown: nat) returns (r: Result<()>)
      requires Valid()
      modifies this`farms
      ensures Valid() && Executes(r, old(View()), View(), Farming.SetCoolDown(old(View()), k, coolDown))
    {
      hide Liquid;
      StepKeepsLiquid(View(), SetCoolDown(k, coolDown));
      if coolDown > cfg.maxCoolDown {
        return Err(ExcessMaxCoolDownDuration);
      }
      if k !in farms {
        return Err(PoolDoesNotExist);
      }
      if farms[k].pool.coolDown == coolDown {
        return Err(PoolIsInTargetCoolDownDuration);
      }
      SetPool(k, farms[k].pool.(coolDown := coolDown));
      return Ok(());
    }

    method ResetPoolUnlockHeight(k: PoolKey) returns (r: Result<()>)
      requires Valid()
      modifies this`farms
      ensures Valid() && Executes(r, old(View()), View(), Farming.ResetUnlockHeight(old(View()), k))
    {
      hide Liquid;
      StepKeepsLiquid(View(), ResetUnlockHeight(k));
      if k !in farms {
        return Err(PoolDoesNotExist);
      }
      if farms[k].pool.unlockHeight >= now {
        return Err(PoolUnderLock);
      }
      if now + k.lockDuration > U32_MAX {
        return Err(Trap);
      }
      SetPool(k, farms[k].pool.(unlockHeight := now + k.lockDuration));
      return Ok(());
    }

    /** A deposit once the reward is settled. */
    method PutDeposit(who: UserId, k: PoolKey, amount: nat) returns (r: Result<()>)
      requires k in farms
      modifies this`farms, this`ledger
      ensures match old(ledger).Transfer(k.asset, User(who), FarmingPot(k.asset), amount)
              case Err(e) => r == Err(e) && View() == old(View())
              case Ok(l) =>
                match AddDeposit(old(farms[k]), who, amount)
                case Err(e) => r == Err(e) && View() == old(View())
                case Ok(f) => r.Ok? && farms == old(farms)[k := f] && ledger == l
    {
      hide Ledger.Transfer;
      var pool, p := farms[k].pool, farms[k].Position(who);
      var l :- ledger.Transfer(k.asset, User(who), FarmingPot(k.asset), amount);
      if pool.totalDeposited + amount > U128_MAX || p.deposit + amount > U128_MAX {
        return Err(Overflow);
      }
      ledger := l;
      SetPool(k, pool.(totalDeposited := pool.totalDeposited + amount));
      SetPosition(k, who, p.(deposit := p.deposit + amount));
      return Ok(());
    }

    method Deposit(who: UserId, k: PoolKey, amount: nat) returns (r: Result<()>)
      requires Valid()
      modifies this`farms, this`ledger
      ensures Valid() && Executes(r, old(View()), View(), Farming.Deposit(old(View()), who, k, amount))
    {
      hide Liquid, UpdateReward, AddDeposit, Ledger.Transfer;
      StepKeepsLiquid(View(), Op.Deposit(k, who, amount));
      if k !in farms {
        return Err(PoolDoesNotExist);
      }
      if amount == 0 {
        return Err(NotAValidAmount);
      }
      var farms0 := farms;
      r := Settle(Some(who), k);
      if r.Err? {
        return;
      }
      if farms[k].pool.isActive {
        r := PutDeposit(who, k, amount);
      } else {
        r := Err(PoolIsNotActive);
      }
      if r.Err? {
        farms := farms0;
      } else {
        assert farms == farms0[k := farms[k]];
      }
    }

    /** A withdrawal once the reward is settled: paid at once, or locked for the cool-down. */
    method TakeOut(who: UserId, k: PoolKey, amount: nat) returns (r: Result<()>)
      requires k in farms && amount <= farms[k].Position(who).deposit
      modifies this`farms, this`ledger
      ensures match TakeDeposit(old(farms[k]), who, amount, now, cfg.maxLockItems)
              case Err(e) => r == Err(e) && View() == old(View())
              case Ok((f, out)) =>
                match old(ledger).Transfer(k.asset, FarmingPot(k.asset), User(who), out)
                case Err(e) => r == Err(e) && View() == old(View())
                case Ok(l) => r.Ok? && farms == old(farms)[k := f] && ledger == l
    {
      var pool, p := farms[k].pool, farms[k].Position(who);
      if pool.totalDeposited < amount {
        return Err(Overflow);
      }
      if pool.coolDown == 0 {
        ledger :- ledger.Transfer(k.asset, FarmingPot(k.asset), User(who), amount);
        p := p.(deposit := p.deposit - amount);
      } else {
        if |p.locked| >= cfg.maxLockItems {
          return Err(ExcessMaxUserLockItemsCount);
        }
        p := p.(deposit := p.deposit - amount, locked := p.locked + [LockItem(amount, now)]);
      }
      SetPool(k, pool.(totalDeposited := pool.totalDeposited - amount));
      SetPosition(k, who, p);
      return Ok(());
    }

    method Withdraw(who: UserId, k: PoolKey, amount: nat) returns (r: Result<()>)
      requires Valid()
      modifies this`farms, this`ledger
      ensures Valid() && Executes(r, old(View()), View(), Farming.Withdraw(old(View()), who, k, amount))
      ensures r != Err(FundsUnavailable)
    {
      hide Liquid, Stuck, TakeDeposit, Ledger.Transfer, UpdateReward, Farming.ClaimReward, Farming.Redeem;
      StepKeepsLiquid(View(), Op.Withdraw(k, who, amount));
      if k !in farms {
        return Err(PoolDoesNotExist);
      }
      if amount == 0 {
        return Err(NotAValidAmount);
      }
      if farms[k].Position(who).deposit < amount {
        return Err(DepositBalanceLow);
      }
      var farms0 := farms;
      r := Settle(Some(who), k);
      if r.Ok? {
        SettlingKeepsDeposit(farms0[k], who, now);
        if now < farms[k].pool.unlockHeight {
          r := Err(PoolUnderLock);
        } else {
          r := TakeOut(who, k, amount);
        }
        if r.Err? {
          farms := farms0;
        } else {
          assert farms == farms0[k := farms[k]];
        }
      }
      PayoutsExact(old(View()), who, k, amount);
    }

    method Redeem(who: UserId, k: PoolKey) returns (r: Result<()>)
      requires Valid()
      modifies this`farms, this`ledger
      ensures Valid() && Executes(r, old(View()), View(), Farming.Redeem(old(View()), who, k))
      ensures r.Ok? <==> old(k in farms)
      ensures r.Ok? ==> ItemsLeave(old(View()), View(), k, who)
    {
      hide Liquid, Stuck, Matured, Retained, ItemsLeave, Ledger.Transfer, Farming.Withdraw, Farming.ClaimReward;
      StepKeepsLiquid(View(), Op.Redeem(k, who));
      if k !in farms {
        return Err(PoolDoesNotExist);
      }
      var p, coolDown := farms[k].Position(who), farms[k].pool.coolDown;
      var total, kept := SplitItems(p.locked, coolDown, now);
      var moved := ledger.Transfer(k.asset, FarmingPot(k.asset), User(who), total);
      if total > U128_MAX {
        r := Err(Overflow);
      } else if moved.Ok? {
        ledger := moved.value;
        SetPosition(k, who, p.(locked := kept));
        r := Ok(());
      } else {
        r := Err(moved.error);
      }
      PayoutsExact(old(View()), who, k, 0);
      if r.Ok? {
        RedeemPays(old(View()), who, k);
      }
    }

    method ClaimReward(who: UserId, k: PoolKey) returns (r: Result<()>)
      requires Valid()
      modifies this`farms, this`ledger
      ensures Valid() && Executes(r, old(View()), View(), Farming.ClaimReward(old(View()), who, k))
      ensures r.Ok? <==> old(k in farms && !Stuck(farms[k].pool, now))
      ensures r != Err(FundsUnavailable)
    {
      hide Liquid, Stuck, UpdateReward, Ledger.Transfer, Farming.Withdraw, Farming.Redeem;
      StepKeepsLiquid(View(), Op.ClaimReward(k, who));
      if k !in farms {
        return Err(PoolDoesNotExist);
      }
      var farms0 := farms;
      r := Settle(Some(who), k);
      if r.Ok? {
        var p := farms[k].Position(who);
        var moved := ledger.Transfer(k.reward, FarmingPot(k.reward), User(who), p.reward);
        if moved.Ok? {
          ledger := moved.value;
          SetPosition(k, who, p.(reward := 0));
          farms := farms[k := farms[k].(claimed := farms[k].claimed + p.reward)];
          assert farms == farms0[k := farms[k]];
        } else {
          farms := farms0;
          r := Err(moved.error);
        }
      }
      PayoutsExact(old(View()), who, k, 0);
    }

    method RewardRate(pool: PoolInfo, amount: nat, duration: nat) returns (rate: Result<nat>)
      requires duration > 0
      ensures rate == NewRate(pool, amount, duration, now)
      ensures rate.Ok? ==>
                var whole := Max(0, pool.periodFinish - now) * pool.rewardRate + amount;
                duration * rate.value <= whole < duration * rate.value + duration
    {
      var total := amount;
      if now < pool.periodFinish {
        var remaining := pool.periodFinish - now;
        var leftOver :- ToU128(remaining * pool.rewardRate, Overflow);
        total :- ToU128(leftOver + amount, Overflow);
      }
      FloorBounds(total, duration);
      return Ok(total / duration);
    }

    method DispatchReward(k: PoolKey, payer: UserId, amount: nat, duration: nat) returns (r: Result<()>)
      requires Valid()
      modifies this`farms, this`ledger
      ensures Valid() && Executes(r, old(View()), View(), Farming.DispatchReward(old(View()), k, payer, amount, duration))
      ensures r.Ok? ==>
                && old(k in farms) && k in farms
                && var before, rate := old(farms[k].pool), farms[k].pool.rewardRate;
                   var whole := Max(0, before.periodFinish - now) * before.rewardRate + amount;
                   rate * duration <= whole < (rate + 1) * duration
    {
      hide Liquid, UpdateReward, Ledger.Transfer;
      StepKeepsLiquid(View(), Op.DispatchReward(k, payer, amount, duration));
      if k !in farms {
        return Err(PoolDoesNotExist);
      }
      if duration == 0 {
        return Err(NotAValidDuration);
      }
      var farms0 := farms;
      r := Settle(None, k);
      if r.Err? {
        return;
      }
      var pool := farms[k].pool;
      var rate := RewardRate(pool, amount, duration);
      var moved := ledger.Transfer(k.reward, User(payer), FarmingPot(k.reward), amount);
      if rate.Err? {
        r := Err(rate.error);
      } else if now + duration > U32_MAX {
        r := Err(Overflow);
      } else if moved.Err? {
        r := Err(moved.error);
      } else {
        ledger := moved.value;
        SetPool(k, pool.(rewardDuration := duration, periodFinish := now + duration,
                         rewardRate := rate.value, lastUpdate := now));
        farms := farms[k := farms[k].(dispatched := farms[k].dispatched + amount)];
        assert farms == farms0[k := farms[k]];
        r := Ok(());
        DispatchRate(old(View()), k, payer, amount, duration);
        return;
      }
      farms := farms0;
    }
  }
}
