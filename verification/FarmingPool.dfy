/** One farming pool: the reward-per-share index, the positions that settle against it, and the
    books (reward dispatched and claimed so far) that its solvency is stated over. */
module FarmingPool {
  import opened Base
  import opened Sums

  // `amount_per_share`: the fixed-point scale of the index
  const SHARE: nat := 1_000_000_000_000

  datatype PoolInfo = PoolInfo(
    isActive: bool,
    totalDeposited: nat,
    unlockHeight: nat,
    coolDown: nat,
    rewardDuration: nat,
    periodFinish: nat,
    lastUpdate: nat,
    rewardRate: nat,
    perShareStored: nat) {

    function LastRewardBlockApplicable(now: nat): nat {
      if now > periodFinish then periodFinish else now
    }

    function RewardPerShare(now: nat): Result<nat> {
      if totalDeposited == 0 then Ok(perShareStored) else
        var last := LastRewardBlockApplicable(now);
        var blocks := if last > lastUpdate then last - lastUpdate else 0;
        var add :- ToU128(blocks * rewardRate * SHARE / totalDeposited, Overflow);
        ToU128(perShareStored + add, Overflow)
    }

    function Updated(now: nat): Result<PoolInfo> {
      var index :- RewardPerShare(now);
      Ok(this.(perShareStored := index, lastUpdate := LastRewardBlockApplicable(now)))
    }
  }

  const NEW_POOL := PoolInfo(false, 0, 0, 0, 0, 0, 0, 0, 0)

  datatype LockItem = LockItem(amount: nat, block: nat)

  datatype UserPosition = UserPosition(deposit: nat, locked: seq<LockItem>, reward: nat, paid: nat)

  const NEW_POSITION := UserPosition(0, [], 0, 0)

  /** A pool with the positions stored under its key. `dispatched` and `claimed` are the totals of
      the amounts reported by its `RewardAdded` and `RewardPaid` events. */
  datatype Farm = Farm(pool: PoolInfo, positions: map<UserId, UserPosition>, dispatched: nat, claimed: nat) {
    function Position(who: UserId): UserPosition {
      if who in positions then positions[who] else NEW_POSITION
    }

    function With(who: UserId, p: UserPosition): Farm {
      this.(positions := positions[who := p])
    }
  }

  // ---------- the parts of the calls that touch one pool ----------

  function Settled(pool: PoolInfo, p: UserPosition, now: nat): Result<UserPosition> {
    var index :- pool.RewardPerShare(now);
    var diff :- CheckedSub(index, p.paid, Overflow);
    var earned :- ToU128(p.deposit * diff / SHARE + p.reward, Overflow);
    Ok(p.(reward := earned, paid := pool.perShareStored))
  }

  function UpdateReward(f: Farm, who: Option<UserId>, now: nat): Result<Farm> {
    var pool :- f.pool.Updated(now);
    if who.None? then Ok(f.(pool := pool)) else
      var p :- Settled(pool, f.Position(who.value), now);
      Ok(f.(pool := pool).With(who.value, p))
  }

  function AddDeposit(f: Farm, who: UserId, amount: nat): Result<Farm> {
    var p := f.Position(who);
    var total :- ToU128(f.pool.totalDeposited + amount, Overflow);
    var deposit :- ToU128(p.deposit + amount, Overflow);
    Ok(f.(pool := f.pool.(totalDeposited := total)).With(who, p.(deposit := deposit)))
  }

  /** Without a cool-down the amount leaves at once (`paid == amount`), otherwise it is locked. */
  function TakeDeposit(f: Farm, who: UserId, amount: nat, now: nat, maxItems: nat): Result<(Farm, nat)> {
    var p := f.Position(who);
    var total :- CheckedSub(f.pool.totalDeposited, amount, Overflow);
    var deposit :- CheckedSub(p.deposit, amount, Overflow);
    var g := f.(pool := f.pool.(totalDeposited := total));
    if f.pool.coolDown == 0 then Ok((g.With(who, p.(deposit := deposit)), amount))
    else if |p.locked| >= maxItems then Err(ExcessMaxUserLockItemsCount)
    else Ok((g.With(who, p.(deposit := deposit, locked := p.locked + [LockItem(amount, now)])), 0))
  }

  predicate IsMature(i: LockItem, coolDown: nat, now: nat) {
    now >= Min(i.block + coolDown, U32_MAX)
  }

  function Matured(items: seq<LockItem>, coolDown: nat, now: nat): nat {
    if items == [] then 0 else
      Matured(items[..|items| - 1], coolDown, now) +
      if IsMature(items[|items| - 1], coolDown, now) then items[|items| - 1].amount else 0
  }

  function Retained(items: seq<LockItem>, coolDown: nat, now: nat): seq<LockItem> {
    if items == [] then [] else
      Retained(items[..|items| - 1], coolDown, now) +
      if IsMature(items[|items| - 1], coolDown, now) then [] else [items[|items| - 1]]
  }

  function TakeMatured(f: Farm, who: UserId, now: nat): Result<(Farm, nat)> {
    var p := f.Position(who);
    var amount :- ToU128(Matured(p.locked, f.pool.coolDown, now), Overflow);
    Ok((f.With(who, p.(locked := Retained(p.locked, f.pool.coolDown, now))), amount))
  }

  function TakeReward(f: Farm, who: UserId): (Farm, nat) {
    var p := f.Position(who);
    (f.With(who, p.(reward := 0)).(claimed := f.claimed + p.reward), p.reward)
  }

  /** A dispatch folds what the current period still has to stream into the new period. */
  function NewRate(pool: PoolInfo, amount: nat, duration: nat, now: nat): Result<nat>
    requires duration > 0
  {
    if now >= pool.periodFinish then Ok(amount / duration) else
      var leftOver :- ToU128((pool.periodFinish - now) * pool.rewardRate, Overflow);
      var total :- ToU128(leftOver + amount, Overflow);
      Ok(total / duration)
  }

  function Fund(f: Farm, amount: nat, duration: nat, now: nat): Result<Farm>
    requires duration > 0
  {
    var rate :- NewRate(f.pool, amount, duration, now);
    if now + duration > U32_MAX then Err(Overflow) else
      Ok(f.(dispatched := f.dispatched + amount,
            pool := f.pool.(rewardDuration := duration, periodFinish := now + duration,
                            rewardRate := rate, lastUpdate := now)))
  }

  // ---------- what a pool owes ----------

  ghost function Deposits(f: Farm): map<UserId, int> {
    map w | w in f.positions :: f.positions[w].deposit
  }

  function LockedTotal(items: seq<LockItem>): nat {
    if items == [] then 0 else LockedTotal(items[..|items| - 1]) + items[|items| - 1].amount
  }

  ghost function Locked(f: Farm): map<UserId, int> {
    map w | w in f.positions :: LockedTotal(f.positions[w].locked)
  }

  /** What the pool holds of the staking asset, and of the reward asset. */
  ghost function Staked(f: Farm): int {
    f.pool.totalDeposited + Sum(Locked(f))
  }

  function Unclaimed(f: Farm): int {
    f.dispatched - f.claimed
  }

  /** A position's claim on the reward pot, in units of 1/SHARE. */
  ghost function Claim(p: UserPosition, index: nat): int {
    SHARE * p.reward + p.deposit * (index - p.paid)
  }

  ghost function Claims(f: Farm): map<UserId, int> {
    map w | w in f.positions :: Claim(f.positions[w], f.pool.perShareStored)
  }

  /** Everything promised so far, in units of 1/SHARE: paid out, owed to positions, still streaming. */
  ghost function Promised(f: Farm): int {
    SHARE * f.claimed + Sum(Claims(f)) + SHARE * f.pool.rewardRate * (f.pool.periodFinish - f.pool.lastUpdate)
  }

  ghost predicate FarmInv(f: Farm, now: nat) {
    && f.pool.lastUpdate <= now
    && f.pool.lastUpdate <= f.pool.periodFinish
    && f.pool.perShareStored <= U128_MAX
    && f.pool.totalDeposited == Sum(Deposits(f))
    && (forall w :: w in f.positions ==> f.positions[w].paid <= f.pool.perShareStored)
    && Promised(f) <= SHARE * f.dispatched
  }

  // ---------- every part keeps the invariant ----------

  lemma WithDeposits(f: Farm, who: UserId, p: UserPosition)
    ensures Sum(Deposits(f.With(who, p))) == Sum(Deposits(f)) - f.Position(who).deposit + p.deposit
  {
    hide Sum;
    assert Deposits(f.With(who, p)) == Deposits(f)[who := p.deposit];
    SumUpdate(Deposits(f), who, p.deposit);
  }

  lemma WithLocked(f: Farm, who: UserId, p: UserPosition)
    ensures Sum(Locked(f.With(who, p))) ==
            Sum(Locked(f)) - LockedTotal(f.Position(who).locked) + LockedTotal(p.locked)
  {
    hide Sum;
    assert Locked(f.With(who, p)) == Locked(f)[who := LockedTotal(p.locked)];
    SumUpdate(Locked(f), who, LockedTotal(p.locked));
  }

  lemma WithClaims(f: Farm, who: UserId, p: UserPosition)
    ensures Sum(Claims(f.With(who, p))) ==
            Sum(Claims(f)) - Claim(f.Position(who), f.pool.perShareStored) + Claim(p, f.pool.perShareStored)
  {
    hide Sum;
    assert Claim(NEW_POSITION, f.pool.perShareStored) == 0;
    hide Claim;
    assert Claims(f.With(who, p)) == Claims(f)[who := Claim(p, f.pool.perShareStored)];
    SumUpdate(Claims(f), who, Claim(p, f.pool.perShareStored));
  }

  /** Replacing one position moves each sum by that position's difference. */
  lemma WithSums(f: Farm, who: UserId, p: UserPosition)
    ensures Sum(Deposits(f.With(who, p))) == Sum(Deposits(f)) - f.Position(who).deposit + p.deposit
    ensures Sum(Locked(f.With(who, p))) ==
            Sum(Locked(f)) - LockedTotal(f.Position(who).locked) + LockedTotal(p.locked)
    ensures Sum(Claims(f.With(who, p))) ==
            Sum(Claims(f)) - Claim(f.Position(who), f.pool.perShareStored) + Claim(p, f.pool.perShareStored)
  {
    hide Sum, Deposits, Locked, Claims, Claim, LockedTotal;
    WithDeposits(f, who, p);
    WithLocked(f, who, p);
    WithClaims(f, who, p);
  }

  /** Replacing one position, with the pool's total following its deposit, keeps the invariant as
      long as the position's claim does not grow. */
  lemma ReplaceKeeps(f: Farm, who: UserId, q: UserPosition, total: nat, now: nat)
    requires FarmInv(f, now)
    requires q.paid <= f.pool.perShareStored
    requires total == f.pool.totalDeposited - f.Position(who).deposit + q.deposit
    requires Claim(q, f.pool.perShareStored) <= Claim(f.Position(who), f.pool.perShareStored)
    ensures var g := f.(pool := f.pool.(totalDeposited := total)).With(who, q);
            && FarmInv(g, now)
            && Sum(Locked(g)) == Sum(Locked(f)) - LockedTotal(f.Position(who).locked) + LockedTotal(q.locked)
  {
    hide Sum;
    var g := f.(pool := f.pool.(totalDeposited := total));
    assert Deposits(g) == Deposits(f) && Claims(g) == Claims(f) && Locked(g) == Locked(f);
    WithSums(g, who, q);
  }

  lemma FloorBounds(a: nat, b: nat)
    requires b > 0
    ensures b * (a / b) <= a < b * (a / b) + b
  {
  }

  /** One step of the index, against the reward that streamed in the same blocks. */
  lemma IndexStep(pool: PoolInfo, now: nat)
    requires pool.lastUpdate <= now && pool.lastUpdate <= pool.periodFinish && pool.Updated(now).Ok?
    ensures var next := pool.Updated(now).value;
            var blocks := next.lastUpdate - pool.lastUpdate;
            var add := next.perShareStored - pool.perShareStored;
            && 0 <= blocks && 0 <= add
            && next.perShareStored <= Max(pool.perShareStored, U128_MAX)
            && add * pool.totalDeposited <= blocks * pool.rewardRate * SHARE
            && (pool.totalDeposited > 0 ==> blocks * pool.rewardRate * SHARE < (add + 1) * pool.totalDeposited)
  {
    var next := pool.Updated(now).value;
    var streamed := (next.lastUpdate - pool.lastUpdate) * pool.rewardRate * SHARE;
    if pool.totalDeposited > 0 {
      FloorBounds(streamed, pool.totalDeposited);
    }
  }

  lemma ClaimGrows(p: UserPosition, index: nat, add: nat)
    ensures Claim(p, index + add) == Claim(p, index) + add * p.deposit
  {
  }

  /** Moving the index forward turns streamed reward into claims: what was promised moves by the difference. */
  lemma UpdatePromised(f: Farm, now: nat)
    requires FarmInv(f, now) && f.pool.Updated(now).Ok?
    ensures var g := f.(pool := f.pool.Updated(now).value);
            var blocks := g.pool.lastUpdate - f.pool.lastUpdate;
            var add := g.pool.perShareStored - f.pool.perShareStored;
            && Deposits(g) == Deposits(f)
            && Promised(g) == Promised(f) + add * f.pool.totalDeposited - blocks * f.pool.rewardRate * SHARE
  {
    hide Sum;
    var g := f.(pool := f.pool.Updated(now).value);
    var blocks := g.pool.lastUpdate - f.pool.lastUpdate;
    var add := g.pool.perShareStored - f.pool.perShareStored;
    IndexStep(f.pool, now);
    assert Deposits(g) == Deposits(f);
    forall w | w in f.positions
      ensures Claims(g)[w] == Claims(f)[w] + add * Deposits(f)[w]
    {
      ClaimGrows(f.positions[w], f.pool.perShareStored, add);
    }
    SumLinear(Claims(f), add, Deposits(f), Claims(g));
    StreamSplit(f.pool.rewardRate, f.pool.periodFinish - f.pool.lastUpdate, blocks);
  }

  /** So it does not grow. */
  lemma PoolUpdateKeeps(f: Farm, now: nat)
    requires FarmInv(f, now) && f.pool.Updated(now).Ok?
    ensures FarmInv(f.(pool := f.pool.Updated(now).value), now)
    ensures f.pool.perShareStored <= f.pool.Updated(now).value.perShareStored
  {
    hide Sum, Promised, Deposits;
    IndexStep(f.pool, now);
    UpdatePromised(f, now);
  }

  lemma StreamSplit(rate: nat, left: int, blocks: int)
    ensures SHARE * rate * left == SHARE * rate * (left - blocks) + blocks * rate * SHARE
  {
  }

  /** A second read of the index in the same block sees the stored value. */
  lemma SecondReadIsStored(pool: PoolInfo, now: nat)
    requires pool.lastUpdate <= now && pool.lastUpdate <= pool.periodFinish
    requires pool.Updated(now).Ok? && pool.perShareStored <= U128_MAX
    ensures pool.Updated(now).value.RewardPerShare(now) == Ok(pool.Updated(now).value.perShareStored)
  {
    var p := pool.Updated(now).value;
    assert p.LastRewardBlockApplicable(now) == p.lastUpdate;
    if p.totalDeposited != 0 {
      assert 0 * p.rewardRate * SHARE / p.totalDeposited == 0;
    }
  }

  /** Settling moves the pool's index and replaces the caller's position, nothing else. */
  lemma SettledShape(f: Farm, who: UserId, now: nat) returns (q: UserPosition)
    requires f.pool.lastUpdate <= now && f.pool.lastUpdate <= f.pool.periodFinish
    requires f.pool.perShareStored <= U128_MAX && UpdateReward(f, Some(who), now).Ok?
    ensures f.pool.Updated(now).Ok?
    ensures var h := f.(pool := f.pool.Updated(now).value);
            var p, index := h.Position(who), h.pool.perShareStored;
            && UpdateReward(f, Some(who), now).value == h.With(who, q)
            && p.paid <= index
            && q == p.(reward := p.deposit * (index - p.paid) / SHARE + p.reward, paid := index)
  {
    var h := f.(pool := f.pool.Updated(now).value);
    SecondReadIsStored(f.pool, now);
    q := Settled(h.pool, h.Position(who), now).value;
  }

  lemma SettleLoses(p: UserPosition, q: UserPosition, index: nat)
    requires p.paid <= index
    requires q == p.(reward := p.deposit * (index - p.paid) / SHARE + p.reward, paid := index)
    ensures Claim(p, index) - SHARE < Claim(q, index) <= Claim(p, index)
  {
    FloorBounds(p.deposit * (index - p.paid), SHARE);
    assert p.deposit * (index - index) == 0;
  }

  /** Settling credits the whole part of what the index owes and forgets the fraction. */
  lemma SettleKeeps(f: Farm, who: UserId, now: nat)
    requires FarmInv(f, now) && UpdateReward(f, Some(who), now).Ok?
    ensures var g := UpdateReward(f, Some(who), now).value;
            && FarmInv(g, now)
            && g.Position(who).paid == g.pool.perShareStored
            && Staked(g) == Staked(f) && Unclaimed(g) == Unclaimed(f)
  {
    hide Sum;
    var h := f.(pool := f.pool.Updated(now).value);
    var q := SettledShape(f, who, now);
    PoolUpdateKeeps(f, now);
    SettleLoses(h.Position(who), q, h.pool.perShareStored);
    ReplaceKeeps(h, who, q, h.pool.totalDeposited, now);
    assert Locked(h) == Locked(f);
  }

  /** A position that has just settled claims exactly its credited reward. */
  lemma UnpaidNothing(p: UserPosition, q: UserPosition, index: nat)
    requires p.paid == q.paid == index && p.reward == q.reward
    ensures Claim(p, index) == Claim(q, index) == SHARE * p.reward
  {
  }

  lemma AddDepositKeeps(f: Farm, who: UserId, amount: nat, now: nat)
    requires FarmInv(f, now) && f.Position(who).paid == f.pool.perShareStored
    requires AddDeposit(f, who, amount).Ok?
    ensures var g := AddDeposit(f, who, amount).value;
            FarmInv(g, now) && Staked(g) == Staked(f) + amount && Unclaimed(g) == Unclaimed(f)
  {
    hide Sum;
    var p := f.Position(who);
    var q := p.(deposit := p.deposit + amount);
    var g := f.(pool := f.pool.(totalDeposited := f.pool.totalDeposited + amount)).With(who, q);
    assert AddDeposit(f, who, amount).value == g;
    UnpaidNothing(p, q, f.pool.perShareStored);
    ReplaceKeeps(f, who, q, f.pool.totalDeposited + amount, now);
  }

  lemma TakeDepositShape(f: Farm, who: UserId, amount: nat, now: nat, maxItems: nat) returns (q: UserPosition)
    requires TakeDeposit(f, who, amount, now, maxItems).Ok?
    ensures amount <= f.pool.totalDeposited && amount <= f.Position(who).deposit
    ensures var (g, out) := TakeDeposit(f, who, amount, now, maxItems).value;
            && g == f.(pool := f.pool.(totalDeposited := f.pool.totalDeposited - amount)).With(who, q)
            && q == f.Position(who).(deposit := f.Position(who).deposit - amount, locked := q.locked)
            && out + LockedTotal(q.locked) == LockedTotal(f.Position(who).locked) + amount
  {
    var p := f.Position(who);
    q := TakeDeposit(f, who, amount, now, maxItems).value.0.positions[who];
    assert (p.locked + [LockItem(amount, now)])[..|p.locked|] == p.locked;
  }

  lemma TakeDepositKeeps(f: Farm, who: UserId, amount: nat, now: nat, maxItems: nat)
    requires FarmInv(f, now) && f.Position(who).paid == f.pool.perShareStored
    requires TakeDeposit(f, who, amount, now, maxItems).Ok?
    ensures var (g, out) := TakeDeposit(f, who, amount, now, maxItems).value;
            FarmInv(g, now) && Staked(g) == Staked(f) - out && Unclaimed(g) == Unclaimed(f)
  {
    hide Sum;
    var q := TakeDepositShape(f, who, amount, now, maxItems);
    UnpaidNothing(f.Position(who), q, f.pool.perShareStored);
    ReplaceKeeps(f, who, q, f.pool.totalDeposited - amount, now);
  }

  /** Redeeming splits the locked items: what matured leaves, what did not stays. */
  lemma {:induction false} LockedSplit(items: seq<LockItem>, coolDown: nat, now: nat)
    ensures LockedTotal(items) == Matured(items, coolDown, now) + LockedTotal(Retained(items, coolDown, now))
    ensures forall i :: i in Retained(items, coolDown, now) <==> i in items && now < Min(i.block + coolDown, U32_MAX)
  {
    if items != [] {
      var n := |items| - 1;
      LockedSplit(items[..n], coolDown, now);
      var kept := Retained(items[..n], coolDown, now);
      assert items == items[..n] + [items[n]];
      if !IsMature(items[n], coolDown, now) {
        assert Retained(items, coolDown, now) == kept + [items[n]];
        assert (kept + [items[n]])[..|kept|] == kept;
      } else {
        assert Retained(items, coolDown, now) == kept;
      }
    }
  }

  lemma TakeMaturedKeeps(f: Farm, who: UserId, now: nat)
    requires FarmInv(f, now) && TakeMatured(f, who, now).Ok?
    ensures var (g, out) := TakeMatured(f, who, now).value;
            FarmInv(g, now) && Staked(g) == Staked(f) - out && Unclaimed(g) == Unclaimed(f)
  {
    hide Sum, Matured, Retained, LockedTotal, Deposits, Claims, Locked;
    var p := f.Position(who);
    var q := p.(locked := Retained(p.locked, f.pool.coolDown, now));
    LockedSplit(p.locked, f.pool.coolDown, now);
    ReplaceKeeps(f, who, q, f.pool.totalDeposited, now);
  }

  lemma ClaimedApart(f: Farm, claimed: nat)
    ensures var g := f.(claimed := claimed);
            Deposits(g) == Deposits(f) && Claims(g) == Claims(f) && Locked(g) == Locked(f)
  {
  }

  /** Claiming moves the reward from what is owed to what is claimed. */
  lemma TakeRewardPromises(f: Farm, who: UserId)
    ensures var (g, out) := TakeReward(f, who);
            && Promised(g) == Promised(f) && Sum(Deposits(g)) == Sum(Deposits(f)) && Sum(Locked(g)) == Sum(Locked(f))
  {
    var p := f.Position(who);
    var q := p.(reward := 0);
    assert Claim(q, f.pool.perShareStored) == Claim(p, f.pool.perShareStored) - SHARE * p.reward;
    hide Sum, Deposits, Claims, Locked, Claim, LockedTotal;
    ClaimedApart(f.With(who, q), f.claimed + p.reward);
    WithSums(f, who, q);
    Distribute(SHARE, f.claimed, p.reward);
  }

  lemma TakeRewardKeeps(f: Farm, who: UserId, now: nat)
    requires FarmInv(f, now)
    ensures var (g, out) := TakeReward(f, who);
            FarmInv(g, now) && Staked(g) == Staked(f) && Unclaimed(g) == Unclaimed(f) - out
  {
    hide Sum, Deposits, Locked, Promised;
    TakeRewardPromises(f, who);
  }

  lemma FundKeeps(f: Farm, amount: nat, duration: nat, now: nat)
    requires FarmInv(f, now) && f.pool.lastUpdate == f.pool.LastRewardBlockApplicable(now)
    requires duration > 0 && Fund(f, amount, duration, now).Ok?
    ensures var g := Fund(f, amount, duration, now).value;
            && FarmInv(g, now) && Staked(g) == Staked(f) && Unclaimed(g) == Unclaimed(f) + amount
            && var left := f.pool.periodFinish - f.pool.lastUpdate;
               duration * g.pool.rewardRate <= left * f.pool.rewardRate + amount < duration * g.pool.rewardRate + duration
  {
    hide Sum;
    var g := Fund(f, amount, duration, now).value;
    assert Claims(g) == Claims(f) && Deposits(g) == Deposits(f) && Locked(g) == Locked(f);
    var left := f.pool.periodFinish - f.pool.lastUpdate;
    FloorBounds(left * f.pool.rewardRate + amount, duration);
    assert duration * g.pool.rewardRate <= left * f.pool.rewardRate + amount;
    ScaleStream(duration, g.pool.rewardRate, left, f.pool.rewardRate, amount);
  }

  lemma ScaleStream(duration: nat, rate: nat, left: nat, oldRate: nat, amount: nat)
    requires duration * rate <= left * oldRate + amount
    ensures SHARE * rate * duration <= SHARE * oldRate * left + SHARE * amount
  {
  }

  lemma NonNegativeProduct(a: int, b: int)
    requires a >= 0 && b >= 0
    ensures a * b >= 0
  {
  }

  /** No position can claim more than was dispatched and not yet claimed, nor is more than that still to stream. */
  lemma ClaimWithin(f: Farm, who: UserId, now: nat)
    requires FarmInv(f, now)
    ensures 0 <= Claim(f.Position(who), f.pool.perShareStored) <= SHARE * Unclaimed(f)
    ensures SHARE * f.pool.rewardRate * (f.pool.periodFinish - f.pool.lastUpdate) <= SHARE * Unclaimed(f)
  {
    hide Sum;
    forall w | w in f.positions
      ensures Claims(f)[w] >= SHARE * f.positions[w].reward
    {
      NonNegativeProduct(f.positions[w].deposit, f.pool.perShareStored - f.positions[w].paid);
    }
    NonNegativeProduct(SHARE * f.pool.rewardRate, f.pool.periodFinish - f.pool.lastUpdate);
    SumNonNegative(Claims(f));
    if who in f.positions {
      SumAtLeast(Claims(f), who);
    }
  }

  lemma RewardCovered(f: Farm, who: UserId, now: nat)
    requires FarmInv(f, now)
    ensures f.claimed + f.Position(who).reward <= f.dispatched
  {
    hide Sum;
    ClaimWithin(f, who, now);
    var p := f.Position(who);
    if who in f.positions {
      NonNegativeProduct(p.deposit, f.pool.perShareStored - p.paid);
    }
  }

  lemma NewFarmInv(pool: PoolInfo, now: nat)
    requires pool == NEW_POOL.(coolDown := pool.coolDown)
    ensures FarmInv(Farm(pool, map[], 0, 0), now)
    ensures Sum(Locked(Farm(pool, map[], 0, 0))) == 0
  {
    var f := Farm(pool, map[], 0, 0);
    assert Deposits(f) == map[] && Claims(f) == map[] && Locked(f) == map[];
  }
}
