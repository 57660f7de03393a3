/** Who is paid by the farming pallet: what a user holds of an asset, staked and locked parts included, moves only by
    rewards claimed, rewards dispatched and plain payments. */
module FarmingOwners {
  import opened Base
  import opened Sums
  import opened Assets
  import opened FarmingPool
  import opened Farming
  import opened FarmingRuns

  /** What a user has in a pool: the deposit and what is locked after a withdrawal. */
  function Stake(f: Farm, u: UserId): nat {
    f.Position(u).deposit + LockedTotal(f.Position(u).locked)
  }

  ghost function Stakes(s: State, u: UserId, d: Asset): map<PoolKey, int> {
    map k | k in s.farms :: if k.asset == d then Stake(s.farms[k], u) else 0
  }

  /** All a user owns of an asset, in hand and in pools. */
  ghost function Owned(s: State, u: UserId, d: Asset): int {
    s.ledger.Balance(d, User(u)) + Sum(Stakes(s, u, d))
  }

  /** What the pool's books say the user claimed in one step. */
  function Rewarded(s: State, op: Op, u: UserId, d: Asset): int {
    if op.ClaimReward? && Call(s, op).Ok? && op.who == u && op.k.reward == d
       && op.k in s.farms && op.k in Step(s, op).farms
    then Step(s, op).farms[op.k].claimed - s.farms[op.k].claimed else 0
  }

  function Dispatched(s: State, op: Op, u: UserId, d: Asset): nat {
    if op.DispatchReward? && Call(s, op).Ok? && op.payer == u && op.k.reward == d then op.amount else 0
  }

  /** What plain payments bring a user, less what they take. */
  function Paid(s: State, op: Op, u: UserId, d: Asset): int {
    if op.Transfer? && Call(s, op).Ok? && op.asset == d
    then (if op.to == User(u) then op.amount else 0) - (if op.from == u then op.amount else 0) else 0
  }

  function Moves(s: State, op: Op, u: UserId, d: Asset): int {
    Rewarded(s, op, u, d) - Dispatched(s, op, u, d) + Paid(s, op, u, d)
  }

  // ---------- one step ----------

  lemma PutStakes(s: State, k: PoolKey, f: Farm, l: Ledger, u: UserId, d: Asset)
    requires k in s.farms
    ensures Sum(Stakes(s.Put(k, f).(ledger := l), u, d))
            == Sum(Stakes(s, u, d)) + (if k.asset == d then Stake(f, u) - Stake(s.farms[k], u) else 0)
  {
    hide Sum, Stake;
    var v := if k.asset == d then Stake(f, u) else 0;
    assert Stakes(s.Put(k, f).(ledger := l), u, d) == Stakes(s, u, d)[k := v];
    SumUpdate(Stakes(s, u, d), k, v);
  }

  /** One farm replaced, and one user's stake in it moved by what the user gave or received of the staked asset. */
  lemma PutOwned(s: State, k: PoolKey, f: Farm, l: Ledger, u: UserId, d: Asset, moved: int)
    requires k in s.farms
    requires l.Balance(d, User(u)) + (if k.asset == d then Stake(f, u) - Stake(s.farms[k], u) else 0)
             == s.ledger.Balance(d, User(u)) + moved
    ensures Owned(s.Put(k, f).(ledger := l), u, d) == Owned(s, u, d) + moved
  {
    hide Sum, Stake, Stakes;
    PutStakes(s, k, f, l, u, d);
  }

  lemma SettledStake(f: Farm, who: Option<UserId>, now: nat, u: UserId)
    requires UpdateReward(f, who, now).Ok?
    ensures Stake(UpdateReward(f, who, now).value, u) == Stake(f, u)
  {
  }

  lemma DepositOwned(s: State, who: UserId, k: PoolKey, amount: nat, u: UserId, d: Asset)
    requires Farming.Deposit(s, who, k, amount).Ok?
    ensures Owned(Farming.Deposit(s, who, k, amount).value, u, d) == Owned(s, u, d)
  {
    hide Owned, UpdateReward, Ledger.Transfer;
    var t := Farming.Deposit(s, who, k, amount).value;
    SettledStake(s.farms[k], Some(who), s.now, u);
    assert t == s.Put(k, t.farms[k]).(ledger := t.ledger);
    PutOwned(s, k, t.farms[k], t.ledger, u, d, 0);
  }

  lemma WithdrawOwned(s: State, who: UserId, k: PoolKey, amount: nat, u: UserId, d: Asset)
    requires Farming.Withdraw(s, who, k, amount).Ok?
    ensures Owned(Farming.Withdraw(s, who, k, amount).value, u, d) == Owned(s, u, d)
  {
    hide Owned, UpdateReward, Ledger.Transfer, TakeDeposit;
    var f := UpdateReward(s.farms[k], Some(who), s.now).value;
    var (g, out) := TakeDeposit(f, who, amount, s.now, s.cfg.maxLockItems).value;
    var t := Farming.Withdraw(s, who, k, amount).value;
    SettledStake(s.farms[k], Some(who), s.now, u);
    var q := TakeDepositShape(f, who, amount, s.now, s.cfg.maxLockItems);
    assert t == s.Put(k, g).(ledger := t.ledger);
    PutOwned(s, k, g, t.ledger, u, d, 0);
  }

  lemma RedeemOwned(s: State, who: UserId, k: PoolKey, u: UserId, d: Asset)
    requires Farming.Redeem(s, who, k).Ok?
    ensures Owned(Farming.Redeem(s, who, k).value, u, d) == Owned(s, u, d)
  {
    hide Owned, Ledger.Transfer, Matured, Retained, LockedTotal;
    var (g, out) := TakeMatured(s.farms[k], who, s.now).value;
    var t := Farming.Redeem(s, who, k).value;
    LockedSplit(s.farms[k].Position(who).locked, s.farms[k].pool.coolDown, s.now);
    assert t == s.Put(k, g).(ledger := t.ledger);
    PutOwned(s, k, g, t.ledger, u, d, 0);
  }

  lemma ClaimOwned(s: State, who: UserId, k: PoolKey, u: UserId, d: Asset)
    requires Farming.ClaimReward(s, who, k).Ok?
    ensures Owned(Farming.ClaimReward(s, who, k).value, u, d)
            == Owned(s, u, d) + Rewarded(s, FarmingRuns.ClaimReward(k, who), u, d)
  {
    hide Owned, Ledger.Transfer, UpdateReward;
    var f := UpdateReward(s.farms[k], Some(who), s.now).value;
    var (g, out) := TakeReward(f, who);
    var t := Farming.ClaimReward(s, who, k).value;
    SettledStake(s.farms[k], Some(who), s.now, u);
    SettledBooks(s.farms[k], Some(who), s.now);
    assert t == s.Put(k, g).(ledger := t.ledger);
    PutOwned(s, k, g, t.ledger, u, d, Rewarded(s, FarmingRuns.ClaimReward(k, who), u, d));
  }

  lemma SettledBooks(f: Farm, who: Option<UserId>, now: nat)
    requires UpdateReward(f, who, now).Ok?
    ensures UpdateReward(f, who, now).value.claimed == f.claimed
  {
  }

  lemma DispatchOwned(s: State, k: PoolKey, payer: UserId, amount: nat, duration: nat, u: UserId, d: Asset)
    requires Farming.DispatchReward(s, k, payer, amount, duration).Ok?
    ensures Owned(Farming.DispatchReward(s, k, payer, amount, duration).value, u, d)
            == Owned(s, u, d) - (if payer == u && k.reward == d then amount else 0)
  {
    hide Owned, Ledger.Transfer, UpdateReward, NewRate;
    var t := Farming.DispatchReward(s, k, payer, amount, duration).value;
    SettledStake(s.farms[k], None, s.now, u);
    assert t == s.Put(k, t.farms[k]).(ledger := t.ledger);
    PutOwned(s, k, t.farms[k], t.ledger, u, d, 0 - if payer == u && k.reward == d then amount else 0);
  }

  /** A new pool has no positions. */
  lemma CreateOwned(s: State, k: PoolKey, coolDown: nat, u: UserId, d: Asset)
    requires Farming.Create(s, k, coolDown).Ok?
    ensures Owned(Farming.Create(s, k, coolDown).value, u, d) == Owned(s, u, d)
  {
    hide Sum;
    assert Stakes(Farming.Create(s, k, coolDown).value, u, d) == Stakes(s, u, d)[k := 0];
    SumUpdate(Stakes(s, u, d), k, 0);
  }

  lemma SameStakes(s: State, t: State, u: UserId, d: Asset)
    requires t.ledger == s.ledger && t.farms.Keys == s.farms.Keys
    requires forall k :: k in t.farms ==> t.farms[k].positions == s.farms[k].positions
    ensures Owned(t, u, d) == Owned(s, u, d)
  {
    hide Sum;
    assert Stakes(t, u, d) == Stakes(s, u, d);
  }

  lemma SettingOwned(s: State, op: Op, u: UserId, d: Asset)
    requires op.NextBlock? || op.SetPoolStatus? || op.SetCoolDown? || op.ResetUnlockHeight?
    ensures Owned(Step(s, op), u, d) == Owned(s, u, d)
  {
    hide Owned;
    SameStakes(s, Step(s, op), u, d);
  }

  lemma PaymentOwned(s: State, asset: Asset, from: UserId, to: Account, amount: nat, u: UserId, d: Asset)
    requires s.ledger.Transfer(asset, User(from), to, amount).Ok?
    ensures var op := Transfer(asset, from, to, amount); Owned(Step(s, op), u, d) == Owned(s, u, d) + Paid(s, op, u, d)
  {
    hide Sum, Ledger.Transfer, Stake;
    assert Stakes(Step(s, Transfer(asset, from, to, amount)), u, d) == Stakes(s, u, d);
  }

  /** What a user owns of an asset moves in one step exactly by a reward the user claims, a reward the user dispatches,
      or a payment. */
  lemma StepOwned(s: State, op: Op, u: UserId, d: Asset)
    ensures Owned(Step(s, op), u, d) == Owned(s, u, d) + Moves(s, op, u, d)
  {
    hide Owned, Farming.Deposit, Farming.Withdraw, Farming.Redeem, Farming.ClaimReward, Farming.DispatchReward;
    if Call(s, op).Ok? {
      match op
      case Create(k, coolDown) => CreateOwned(s, k, coolDown, u, d);
      case Deposit(k, who, amount) => DepositOwned(s, who, k, amount, u, d);
      case Withdraw(k, who, amount) => WithdrawOwned(s, who, k, amount, u, d);
      case Redeem(k, who) => RedeemOwned(s, who, k, u, d);
      case ClaimReward(k, who) => ClaimOwned(s, who, k, u, d);
      case DispatchReward(k, payer, amount, duration) => DispatchOwned(s, k, payer, amount, duration, u, d);
      case Transfer(asset, from, to, amount) => PaymentOwned(s, asset, from, to, amount, u, d);
      case _ => SettingOwned(s, op, u, d);
    }
  }

  // ---------- over runs ----------

  function AllMoves(s: State, ops: seq<Op>, u: UserId, d: Asset): int {
    if ops == [] then 0
    else AllMoves(s, ops[..|ops| - 1], u, d) + Moves(Run(s, ops[..|ops| - 1]), ops[|ops| - 1], u, d)
  }

  /** Over any run from any state, what a user owns of an asset, in hand, staked and locked, is what it was, plus the
      rewards the user claimed, less the rewards the user dispatched, plus and less plain payments. Whoever calls
      what, stakes go back to whom they came from and rewards to whom they were credited. */
  lemma {:induction false} RunOwned(s: State, ops: seq<Op>, u: UserId, d: Asset)
    ensures Owned(Run(s, ops), u, d) == Owned(s, u, d) + AllMoves(s, ops, u, d)
  {
    hide Owned, Moves, Step;
    if ops != [] {
      RunOwned(s, ops[..|ops| - 1], u, d);
      StepOwned(Run(s, ops[..|ops| - 1]), ops[|ops| - 1], u, d);
    }
  }
}
