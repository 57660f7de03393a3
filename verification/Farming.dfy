/** The farming pallet: its calls as functions on the whole state. Each call is all or nothing. */
module Farming {
  import opened Base
  import opened Assets
  import opened FarmingPool

  datatype PoolKey = PoolKey(asset: Asset, reward: Asset, lockDuration: nat)

  datatype Config = Config(maxLockItems: nat, maxLockDuration: nat, maxCoolDown: nat)

  datatype State = State(farms: map<PoolKey, Farm>, ledger: Ledger, now: nat, cfg: Config) {
    function Put(k: PoolKey, f: Farm): State {
      this.(farms := farms[k := f])
    }
  }

  // ---------- calls ----------

  function Create(s: State, k: PoolKey, coolDown: nat): Result<State> {
    if k in s.farms then Err(PoolAlreadyExists)
    else if k.lockDuration > s.cfg.maxLockDuration then Err(ExcessMaxLockDuration)
    else if coolDown > s.cfg.maxCoolDown then Err(ExcessMaxCoolDownDuration)
    else Ok(s.Put(k, Farm(NEW_POOL.(coolDown := coolDown), map[], 0, 0)))
  }

  function SetPoolStatus(s: State, k: PoolKey, active: bool): Result<State> {
    if k !in s.farms then Err(PoolDoesNotExist)
    else if s.farms[k].pool.isActive == active then Err(PoolInStatus)
    else Ok(s.Put(k, s.farms[k].(pool := s.farms[k].pool.(isActive := active))))
  }

  function SetCoolDown(s: State, k: PoolKey, coolDown: nat): Result<State> {
    if coolDown > s.cfg.maxCoolDown then Err(ExcessMaxCoolDownDuration)
    else if k !in s.farms then Err(PoolDoesNotExist)
    else if s.farms[k].pool.coolDown == coolDown then Err(PoolIsInTargetCoolDownDuration)
    else Ok(s.Put(k, s.farms[k].(pool := s.farms[k].pool.(coolDown := coolDown))))
  }

  function ResetUnlockHeight(s: State, k: PoolKey): Result<State> {
    if k !in s.farms then Err(PoolDoesNotExist)
    else if s.farms[k].pool.unlockHeight >= s.now then Err(PoolUnderLock)
    else if s.now + k.lockDuration > U32_MAX then Err(Trap)
    else Ok(s.Put(k, s.farms[k].(pool := s.farms[k].pool.(unlockHeight := s.now + k.lockDuration))))
  }

  function Deposit(s: State, who: UserId, k: PoolKey, amount: nat): Result<State> {
    if k !in s.farms then Err(PoolDoesNotExist)
    else if amount == 0 then Err(NotAValidAmount) else
      var f :- UpdateReward(s.farms[k], Some(who), s.now);
      if !f.pool.isActive then Err(PoolIsNotActive) else
        var l :- s.ledger.Transfer(k.asset, User(who), FarmingPot(k.asset), amount);
        var g :- AddDeposit(f, who, amount);
        Ok(s.Put(k, g).(ledger := l))
  }

  function Withdraw(s: State, who: UserId, k: PoolKey, amount: nat): Result<State> {
    if k !in s.farms then Err(PoolDoesNotExist)
    else if amount == 0 then Err(NotAValidAmount)
    else if s.farms[k].Position(who).deposit < amount then Err(DepositBalanceLow) else
      var f :- UpdateReward(s.farms[k], Some(who), s.now);
      if s.now < f.pool.unlockHeight then Err(PoolUnderLock) else
        var taken :- TakeDeposit(f, who, amount, s.now, s.cfg.maxLockItems);
        var l :- s.ledger.Transfer(k.asset, FarmingPot(k.asset), User(who), taken.1);
        Ok(s.Put(k, taken.0).(ledger := l))
  }

  function Redeem(s: State, who: UserId, k: PoolKey): Result<State> {
    if k !in s.farms then Err(PoolDoesNotExist) else
      var taken :- TakeMatured(s.farms[k], who, s.now);
      var l :- s.ledger.Transfer(k.asset, FarmingPot(k.asset), User(who), taken.1);
      Ok(s.Put(k, taken.0).(ledger := l))
  }

  function ClaimReward(s: State, who: UserId, k: PoolKey): Result<State> {
    if k !in s.farms then Err(PoolDoesNotExist) else
      var f :- UpdateReward(s.farms[k], Some(who), s.now);
      var (g, amount) := TakeReward(f, who);
      var l :- s.ledger.Transfer(k.reward, FarmingPot(k.reward), User(who), amount);
      Ok(s.Put(k, g).(ledger := l))
  }

  function DispatchReward(s: State, k: PoolKey, payer: UserId, amount: nat, duration: nat): Result<State> {
    if k !in s.farms then Err(PoolDoesNotExist)
    else if duration == 0 then Err(NotAValidDuration) else
      var f :- UpdateReward(s.farms[k], None, s.now);
      var g :- Fund(f, amount, duration, s.now);
      var l :- s.ledger.Transfer(k.reward, User(payer), FarmingPot(k.reward), amount);
      Ok(s.Put(k, g).(ledger := l))
  }
}
