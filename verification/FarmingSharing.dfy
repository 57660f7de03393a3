/** The reward index against plain pro-rata sharing. Block by block, a pool that streams `rate` should
    give each position its part `rate * deposit / total`. The pallet never computes that sum: it moves
    an index with one floor division per pool update and credits with another per settlement. Here both
    are followed side by side along any run, for one pool and one user. */
module FarmingSharing {
  import opened Base
  import opened Sums
  import opened Assets
  import opened FarmingPool
  import opened Farming
  import opened FarmingRuns

  /** The exact share of one block. */
  ghost function BlockShare(f: Farm, u: UserId, now: nat): real {
    if f.pool.totalDeposited > 0 && now < f.pool.periodFinish
    then (f.pool.rewardRate * f.Position(u).deposit) as real / f.pool.totalDeposited as real
    else 0.0
  }

  /** What an observer of pool `k` and user `u` records along a run: the exact shares of the blocks so
      far, what the user's balance grew by in claims, the user's deposit summed over the pool's updates, and the
      number of the user's settlements. */
  datatype Audit = Audit(s: State, ideal: real, received: int, updates: nat, settlements: nat)

  predicate Updates(op: Op, k: PoolKey) {
    (op.Deposit? || op.Withdraw? || op.ClaimReward? || op.DispatchReward?) && op.k == k
  }

  predicate Settles(op: Op, k: PoolKey, u: UserId) {
    (op.Deposit? || op.Withdraw? || op.ClaimReward?) && op.k == k && op.who == u
  }

  /** What the ledger shows a user to have gained of an asset. */
  function Gained(s: State, t: State, a: Asset, u: UserId): int {
    t.ledger.Balance(a, User(u)) - s.ledger.Balance(a, User(u))
  }

  ghost function Observe(a: Audit, op: Op, k: PoolKey, u: UserId): Audit {
    var call := Call(a.s, op);
    if call.Err? then a
    else if k !in a.s.farms then a.(s := call.value)
    else
      var f := a.s.farms[k];
      Audit(call.value,
            a.ideal + (if op.NextBlock? then BlockShare(f, u, a.s.now) else 0.0),
            a.received + (if op == ClaimReward(k, u) then Gained(a.s, call.value, k.reward, u) else 0),
            a.updates + (if Updates(op, k) then f.Position(u).deposit else 0),
            a.settlements + (if Settles(op, k, u) then 1 else 0))
  }

  ghost function ObserveRun(s: State, ops: seq<Op>, k: PoolKey, u: UserId): Audit {
    if ops == [] then Audit(s, 0.0, 0, 0, 0)
    else Observe(ObserveRun(s, ops[..|ops| - 1], k, u), ops[|ops| - 1], k, u)
  }

  // ---------- the difference between the two ----------

  /** The exact share of the blocks that the index has not seen yet. */
  ghost function Unseen(f: Farm, u: UserId, now: nat): real
    requires f.pool.lastUpdate <= f.pool.LastRewardBlockApplicable(now)
  {
    if f.pool.totalDeposited > 0
    then ((f.pool.LastRewardBlockApplicable(now) - f.pool.lastUpdate) * f.pool.rewardRate * f.Position(u).deposit) as real
         / f.pool.totalDeposited as real
    else 0.0
  }

  /** What the pallet has credited or owes by its index, in units of 1/SHARE. */
  ghost function Credited(f: Farm, u: UserId, received: int): int {
    SHARE * received + Claim(f.Position(u), f.pool.perShareStored)
  }

  ghost predicate Within(f: Farm, u: UserId, a: Audit)
    requires f.pool.lastUpdate <= f.pool.LastRewardBlockApplicable(a.s.now)
  {
    var gap := SHARE as real * (a.ideal - Unseen(f, u, a.s.now)) - Credited(f, u, a.received) as real;
    && 0.0 <= gap
    && gap <= (a.updates + SHARE * a.settlements) as real
    && (a.settlements > 0 ==> gap < (a.updates + SHARE * a.settlements) as real)
  }

  ghost predicate AuditInv(a: Audit, k: PoolKey, u: UserId) {
    && Sound(a.s)
    && (k !in a.s.farms ==> a == Audit(a.s, 0.0, 0, 0, 0))
    && (k in a.s.farms ==> Within(a.s.farms[k], u, a))
  }

  // ---------- arithmetic of one step ----------

  /** The real quotient of a product whose integer quotient is known to one unit. */
  lemma FloorLoss(x: nat, add: nat, total: nat, deposit: nat)
    requires total > 0 && add * total <= x < (add + 1) * total
    ensures 0.0 <= (x * deposit) as real / total as real - (add * deposit) as real <= deposit as real
  {
    assert (add * total) * deposit <= x * deposit <= ((add + 1) * total) * deposit;
    assert (add * total) * deposit == (add * deposit) * total;
    assert ((add + 1) * total) * deposit == (add * deposit + deposit) * total;
    QuotientBetween(x * deposit, add * deposit, add * deposit + deposit, total);
  }

  lemma QuotientBetween(n: int, lo: int, hi: int, d: nat)
    requires d > 0 && lo * d <= n <= hi * d
    ensures lo as real <= n as real / d as real <= hi as real
  {
    assert (lo * d) as real == lo as real * d as real;
    assert (hi * d) as real == hi as real * d as real;
    assert n as real / d as real * d as real == n as real;
  }

  lemma ScaleQuotient(n: nat, d: nat)
    requires d > 0
    ensures (SHARE * n) as real / d as real == SHARE as real * (n as real / d as real)
  {
  }

  lemma UnseenLoss(blocks: nat, rate: nat, deposit: nat, total: nat, add: nat)
    requires total > 0 && add * total <= blocks * rate * SHARE < (add + 1) * total
    ensures 0.0 <= SHARE as real * ((blocks * rate * deposit) as real / total as real) - (add * deposit) as real
                <= deposit as real
  {
    FloorLoss(blocks * rate * SHARE, add, total, deposit);
    assert (blocks * rate * SHARE) * deposit == SHARE * (blocks * rate * deposit);
    ScaleQuotient(blocks * rate * deposit, total);
  }

  lemma NoDeposit(f: Farm, u: UserId, now: nat)
    requires FarmInv(f, now) && f.pool.totalDeposited == 0
    ensures f.Position(u).deposit == 0
  {
    hide Sum;
    if u in f.positions {
      SumAtLeast(Deposits(f), u);
    }
  }

  lemma NothingUnseen(f: Farm, u: UserId, now: nat)
    requires f.pool.lastUpdate == f.pool.LastRewardBlockApplicable(now)
    ensures Unseen(f, u, now) == 0.0
  {
    assert 0 * f.pool.rewardRate * f.Position(u).deposit == 0;
  }

  /** Updating the pool turns unseen shares into index, losing less than one unit of 1/SHARE per token. */
  lemma UpdateAccounts(f: Farm, u: UserId, now: nat)
    requires FarmInv(f, now) && f.pool.Updated(now).Ok?
    ensures var g := f.(pool := f.pool.Updated(now).value);
            && Unseen(g, u, now) == 0.0
            && 0.0 <= SHARE as real * Unseen(f, u, now) - (Credited(g, u, 0) - Credited(f, u, 0)) as real
                   <= f.Position(u).deposit as real
  {
    hide Sum;
    var g := f.(pool := f.pool.Updated(now).value);
    var add := g.pool.perShareStored - f.pool.perShareStored;
    IndexStep(f.pool, now);
    ClaimGrows(f.Position(u), f.pool.perShareStored, add);
    assert Credited(g, u, 0) - Credited(f, u, 0) == add * f.Position(u).deposit;
    NothingUnseen(g, u, now);
    if f.pool.totalDeposited > 0 {
      UnseenLoss(g.pool.lastUpdate - f.pool.lastUpdate, f.pool.rewardRate, f.Position(u).deposit,
                 f.pool.totalDeposited, add);
    } else {
      NoDeposit(f, u, now);
    }
  }

  // ---------- every call ----------

  /** From farm `f` to farm `h` in one block, with `received` paid out to the user: all shares are seen,
      and the credit falls short of them by at most one index unit per token, and one token more if the
      user settled. */
  ghost predicate Accounts(f: Farm, h: Farm, u: UserId, now: nat, received: int, settles: bool)
    requires f.pool.lastUpdate <= f.pool.LastRewardBlockApplicable(now)
  {
    && h.pool.lastUpdate == h.pool.LastRewardBlockApplicable(now)
    && var loss := SHARE as real * Unseen(f, u, now) - (Credited(h, u, received) - Credited(f, u, 0)) as real;
       && 0.0 <= loss
       && (settles ==> loss < (f.Position(u).deposit + SHARE) as real)
       && (!settles ==> loss <= f.Position(u).deposit as real)
  }

  lemma SettleAccounts(f: Farm, who: Option<UserId>, u: UserId, now: nat)
    requires FarmInv(f, now) && UpdateReward(f, who, now).Ok?
    ensures var g := UpdateReward(f, who, now).value;
            && Accounts(f, g, u, now, 0, who == Some(u))
            && (who == Some(u) ==> g.Position(u).paid == g.pool.perShareStored)
  {
    hide Sum;
    var h := f.(pool := f.pool.Updated(now).value);
    UpdateAccounts(f, u, now);
    if who.Some? {
      var q := SettledShape(f, who.value, now);
      SettleLoses(h.Position(who.value), q, h.pool.perShareStored);
    }
  }

  /** What follows the settlement in the same call does not touch the user's credit. */
  lemma AfterSettlement(f: Farm, g: Farm, h: Farm, u: UserId, now: nat, received: int, settles: bool)
    requires f.pool.lastUpdate <= f.pool.LastRewardBlockApplicable(now)
    requires Accounts(f, g, u, now, 0, settles)
    requires h.pool.lastUpdate == h.pool.LastRewardBlockApplicable(now)
    requires Credited(h, u, received) == Credited(g, u, 0)
    ensures Accounts(f, h, u, now, received, settles)
  {
  }

  lemma DepositAccounts(s: State, who: UserId, k: PoolKey, amount: nat, u: UserId)
    requires Sound(s) && Farming.Deposit(s, who, k, amount).Ok?
    ensures Accounts(s.farms[k], Farming.Deposit(s, who, k, amount).value.farms[k], u, s.now, 0, who == u)
  {
    hide Sum;
    var f := s.farms[k];
    var g := UpdateReward(f, Some(who), s.now).value;
    var h := AddDeposit(g, who, amount).value;
    SettleAccounts(f, Some(who), u, s.now);
    if who == u {
      UnpaidNothing(g.Position(u), h.Position(u), g.pool.perShareStored);
    }
    AfterSettlement(f, g, h, u, s.now, 0, who == u);
  }

  lemma WithdrawAccounts(s: State, who: UserId, k: PoolKey, amount: nat, u: UserId)
    requires Sound(s) && Farming.Withdraw(s, who, k, amount).Ok?
    ensures Accounts(s.farms[k], Farming.Withdraw(s, who, k, amount).value.farms[k], u, s.now, 0, who == u)
  {
    hide Sum;
    var f := s.farms[k];
    var g := UpdateReward(f, Some(who), s.now).value;
    var h := TakeDeposit(g, who, amount, s.now, s.cfg.maxLockItems).value.0;
    SettleAccounts(f, Some(who), u, s.now);
    var q := TakeDepositShape(g, who, amount, s.now, s.cfg.maxLockItems);
    if who == u {
      UnpaidNothing(g.Position(u), q, g.pool.perShareStored);
    }
    AfterSettlement(f, g, h, u, s.now, 0, who == u);
  }

  lemma ClaimGains(s: State, who: UserId, k: PoolKey)
    requires Farming.ClaimReward(s, who, k).Ok?
    ensures Gained(s, Farming.ClaimReward(s, who, k).value, k.reward, who)
            == UpdateReward(s.farms[k], Some(who), s.now).value.Position(who).reward
  {
    hide UpdateReward, Ledger.Transfer;
  }

  lemma ClaimAccounts(s: State, who: UserId, k: PoolKey, u: UserId)
    requires Sound(s) && Farming.ClaimReward(s, who, k).Ok?
    ensures Accounts(s.farms[k], Farming.ClaimReward(s, who, k).value.farms[k], u, s.now,
                     if who == u then Gained(s, Farming.ClaimReward(s, who, k).value, k.reward, u) else 0, who == u)
  {
    hide Sum, Ledger.Transfer, UpdateReward, Gained;
    ClaimGains(s, who, k);
    var f := s.farms[k];
    var g := UpdateReward(f, Some(who), s.now).value;
    var h := TakeReward(g, who).0;
    SettleAccounts(f, Some(who), u, s.now);
    var received := if who == u then g.Position(u).reward else 0;
    assert Credited(h, u, received) == Credited(g, u, 0);
    AfterSettlement(f, g, h, u, s.now, received, who == u);
  }

  lemma DispatchAccounts(s: State, k: PoolKey, payer: UserId, amount: nat, duration: nat, u: UserId)
    requires Sound(s) && Farming.DispatchReward(s, k, payer, amount, duration).Ok?
    ensures Accounts(s.farms[k], Farming.DispatchReward(s, k, payer, amount, duration).value.farms[k], u, s.now, 0, false)
  {
    hide Sum;
    var f := s.farms[k];
    var g := UpdateReward(f, None, s.now).value;
    SettleAccounts(f, None, u, s.now);
    AfterSettlement(f, g, Fund(g, amount, duration, s.now).value, u, s.now, 0, false);
  }

  /** One more block adds exactly its share to what the index has not seen. */
  lemma BlockAccounts(f: Farm, u: UserId, now: nat)
    requires f.pool.lastUpdate <= now && f.pool.lastUpdate <= f.pool.periodFinish
    ensures Unseen(f, u, now + 1) == Unseen(f, u, now) + BlockShare(f, u, now)
  {
    if f.pool.totalDeposited > 0 && now < f.pool.periodFinish {
      OneMoreBlock(now - f.pool.lastUpdate, f.pool.rewardRate, f.Position(u).deposit, f.pool.totalDeposited);
    }
  }

  lemma OneMoreBlock(blocks: nat, rate: nat, deposit: nat, total: nat)
    requires total > 0
    ensures ((blocks + 1) * rate * deposit) as real / total as real
            == (blocks * rate * deposit) as real / total as real + (rate * deposit) as real / total as real
  {
    assert (blocks + 1) * rate * deposit == blocks * rate * deposit + rate * deposit;
    AddQuotients(blocks * rate * deposit, rate * deposit, total);
  }

  lemma AddQuotients(m: nat, n: nat, d: nat)
    requires d > 0
    ensures (m + n) as real / d as real == m as real / d as real + n as real / d as real
  {
  }

  lemma WithinAfterUpdate(f: Farm, h: Farm, u: UserId, a: Audit, b: Audit, received: int, settles: bool)
    requires f.pool.lastUpdate <= f.pool.LastRewardBlockApplicable(a.s.now) && Within(f, u, a)
    requires Accounts(f, h, u, a.s.now, received, settles)
    requires b.s.now == a.s.now && b.ideal == a.ideal && b.received == a.received + received
    requires b.updates == a.updates + f.Position(u).deposit
    requires b.settlements == a.settlements + (if settles then 1 else 0)
    ensures Within(h, u, b)
  {
    NothingUnseen(h, u, a.s.now);
    assert Credited(h, u, b.received) == Credited(h, u, received) + SHARE * a.received;
    assert Credited(f, u, a.received) == Credited(f, u, 0) + SHARE * a.received;
  }

  /** A call that leaves the pool's stream and the user's credit alone changes nothing. */
  lemma WithinUntouched(f: Farm, h: Farm, u: UserId, a: Audit, b: Audit)
    requires f.pool.lastUpdate <= f.pool.LastRewardBlockApplicable(a.s.now) && Within(f, u, a)
    requires h.pool == f.pool.(isActive := h.pool.isActive, coolDown := h.pool.coolDown, unlockHeight := h.pool.unlockHeight)
    requires h.Position(u) == f.Position(u).(locked := h.Position(u).locked)
    requires b == a.(s := b.s) && b.s.now == a.s.now
    ensures Within(h, u, b)
  {
  }

  lemma UpdatingKeeps(a: Audit, op: Op, k: PoolKey, u: UserId)
    requires AuditInv(a, k, u) && Call(a.s, op).Ok? && k in a.s.farms && Updates(op, k)
    ensures k in Call(a.s, op).value.farms
    ensures var h := Call(a.s, op).value.farms[k];
            && h.pool.lastUpdate <= h.pool.LastRewardBlockApplicable(Call(a.s, op).value.now)
            && Within(h, u, Observe(a, op, k, u))
  {
    hide UpdateReward, AddDeposit, TakeDeposit, TakeReward, Fund, Claim;
    hide Sum;
    var f, h, b := a.s.farms[k], Call(a.s, op).value.farms[k], Observe(a, op, k, u);
    match op
    case Deposit(_, who, amount) =>
      DepositAccounts(a.s, who, k, amount, u);
      WithinAfterUpdate(f, h, u, a, b, 0, who == u);
    case Withdraw(_, who, amount) =>
      WithdrawAccounts(a.s, who, k, amount, u);
      WithinAfterUpdate(f, h, u, a, b, 0, who == u);
    case ClaimReward(_, who) =>
      ClaimAccounts(a.s, who, k, u);
      WithinAfterUpdate(f, h, u, a, b, b.received - a.received, who == u);
    case DispatchReward(_, payer, amount, duration) =>
      DispatchAccounts(a.s, k, payer, amount, duration, u);
      WithinAfterUpdate(f, h, u, a, b, 0, false);
  }

  /** A call that does not update pool `k` leaves its stream, and every position's credit in it. */
  lemma OtherCalls(s: State, op: Op, k: PoolKey, u: UserId)
    requires Call(s, op).Ok? && k in s.farms && !Updates(op, k) && !op.NextBlock?
    ensures k in Call(s, op).value.farms && Call(s, op).value.now == s.now
    ensures var f, h := s.farms[k], Call(s, op).value.farms[k];
            && h.pool == f.pool.(isActive := h.pool.isActive, coolDown := h.pool.coolDown,
                                 unlockHeight := h.pool.unlockHeight)
            && h.Position(u) == f.Position(u).(locked := h.Position(u).locked)
  {
    if op.Transfer? {
    } else if op.k == k {
      match op
      case Redeem(_, _) =>
      case SetPoolStatus(_, _) =>
      case SetCoolDown(_, _) =>
      case ResetUnlockHeight(_) =>
      case Create(_, _) =>
    } else {
      assert Call(s, op).value.farms[k] == s.farms[k];
    }
  }

  lemma ObserveKeeps(a: Audit, op: Op, k: PoolKey, u: UserId)
    requires AuditInv(a, k, u) && Call(a.s, op).Ok? && k in a.s.farms
    ensures AuditInv(Observe(a, op, k, u), k, u) && k in Observe(a, op, k, u).s.farms
  {
    hide Sum;
    StepKeeps(a.s, op);
    if op.NextBlock? {
      BlockAccounts(a.s.farms[k], u, a.s.now);
    } else if Updates(op, k) {
      UpdatingKeeps(a, op, k, u);
    } else {
      OtherCalls(a.s, op, k, u);
      WithinUntouched(a.s.farms[k], Call(a.s, op).value.farms[k], u, a, Observe(a, op, k, u));
    }
  }

  lemma NewPoolWithin(s: State, op: Op, k: PoolKey, u: UserId)
    requires Call(s, op).Ok? && k !in s.farms && k in Call(s, op).value.farms
    ensures var t := Call(s, op).value;
            && t.farms[k].pool.lastUpdate <= t.farms[k].pool.LastRewardBlockApplicable(t.now)
            && Within(t.farms[k], u, Audit(t, 0.0, 0, 0, 0))
  {
    var t := Call(s, op).value;
    assert op.Create? && t.farms[k].Position(u) == NEW_POSITION;
    assert Claim(NEW_POSITION, t.farms[k].pool.perShareStored) == 0;
  }

  lemma {:induction false} RunWithin(s: State, ops: seq<Op>, k: PoolKey, u: UserId)
    requires Sound(s) && k !in s.farms
    ensures AuditInv(ObserveRun(s, ops, k, u), k, u)
    ensures ObserveRun(s, ops, k, u).s == Run(s, ops)
  {
    hide Sum;
    if ops != [] {
      var n := |ops| - 1;
      RunWithin(s, ops[..n], k, u);
      var a := ObserveRun(s, ops[..n], k, u);
      StepKeeps(a.s, ops[n]);
      if Call(a.s, ops[n]).Ok? {
        if k in a.s.farms {
          ObserveKeeps(a, ops[n], k, u);
        } else if k in Call(a.s, ops[n]).value.farms {
          NewPoolWithin(a.s, ops[n], k, u);
        }
      }
    }
  }

  /** The index agrees with plain sharing. After any run that ends in a settlement of the user, what the
      user was credited (received or waiting as `reward`) is never above the exact sum of the shares, and
      below it by less than the sum over pool updates of `deposit / SHARE` plus one per settlement. */
  lemma IndexAgreesWithSharing(s: State, ops: seq<Op>, op: Op, k: PoolKey, u: UserId)
    requires Sound(s) && k !in s.farms && k in Run(s, ops).farms
    requires Settles(op, k, u) && Call(Run(s, ops), op).Ok?
    ensures var a := ObserveRun(s, ops + [op], k, u);
            && a.s == Run(s, ops + [op])
            && k in a.s.farms
            && var credited := a.received + a.s.farms[k].Position(u).reward;
               && credited as real <= a.ideal
               && a.ideal < credited as real + a.updates as real / SHARE as real + a.settlements as real
  {
    hide Sum;
    var all := ops + [op];
    assert all[..|ops|] == ops && all[|ops|] == op;
    RunWithin(s, ops, k, u);
    RunWithin(s, all, k, u);
    var a := ObserveRun(s, all, k, u);
    var f := a.s.farms[k];
    SettledInFull(Run(s, ops), op, k, u);
    NothingUnseen(f, u, a.s.now);
    assert Credited(f, u, a.received) == SHARE * (a.received + f.Position(u).reward);
    Unscale(a.ideal, a.received + f.Position(u).reward, a.updates, a.settlements);
  }

  lemma Unscale(ideal: real, credited: int, updates: nat, settlements: nat)
    requires 0.0 <= SHARE as real * ideal - (SHARE * credited) as real < (updates + SHARE * settlements) as real
    ensures credited as real <= ideal < credited as real + updates as real / SHARE as real + settlements as real
  {
  }

  /** After a settling call the user's index is the pool's, and no block is left unseen. */
  lemma SettledInFull(s: State, op: Op, k: PoolKey, u: UserId)
    requires Sound(s) && k in s.farms && Settles(op, k, u) && Call(s, op).Ok?
    ensures var f := Call(s, op).value.farms[k];
            && f.pool.lastUpdate == f.pool.LastRewardBlockApplicable(Call(s, op).value.now)
            && Claim(f.Position(u), f.pool.perShareStored) == SHARE * f.Position(u).reward
  {
    hide Sum, UpdateReward, Ledger.Transfer;
    SettleAccounts(s.farms[k], Some(u), u, s.now);
    var g := UpdateReward(s.farms[k], Some(u), s.now).value;
    var h := Call(s, op).value.farms[k];
    assert h.Position(u).paid == g.Position(u).paid && h.pool.perShareStored == g.pool.perShareStored;
    UnpaidNothing(h.Position(u), h.Position(u), h.pool.perShareStored);
  }
}
