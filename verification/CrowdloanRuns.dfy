/** What holds of the crowdloans after any run of calls and notifications, in any order and repeated at will:
    conservation of the relay token, of the pot and of the ctokens, totals in step with the child storages,
    and the cap. */
module CrowdloanRuns {
  import opened Base
  import opened Sums
  import opened Assets
  import opened Crowdloans
  import opened CrowdloanEffects

  datatype Op =
    | CreateVault(para: ParaId, ctoken: Asset, lease: Lease, strategy: Strategy, cap: nat, endBlock: nat)
    | UpdateVault(para: ParaId, newCap: Option<nat>, newEnd: Option<nat>, newStrategy: Option<Strategy>)
    | Open(para: ParaId)
    | Close(para: ParaId)
    | Reopen(para: ParaId)
    | AuctionSucceeded(para: ParaId)
    | AuctionFailed(para: ParaId)
    | SlotExpired(para: ParaId)
    | Contribute(who: UserId, para: ParaId, amount: nat, code: Code)
    | MigratePending(para: ParaId, order: seq<UserId>)
    | Notification(id: QueryId, executed: bool)
    | Refund(key: VaultKey, contributed: seq<UserId>, flying: seq<UserId>, pending: seq<UserId>)
    | RefundFor(key: VaultKey, who: UserId, kind: Kind, amount: nat)
    | Dissolve(key: VaultKey)
    | Claim(key: VaultKey, who: UserId, force: bool)
    | WithdrawFor(key: VaultKey, who: UserId)
    | Redeem(key: VaultKey, who: UserId, amount: nat)
    | SetVrf(flag: bool)
    | UpdateProxy
    | RelayBlock(number: nat)
    | Transfer(asset: Asset, from: UserId, to: Account, amount: nat)

  /** A list that is not the iteration order of its child storage stands for no call. */
  function Call(s: State, op: Op): Result<State> {
    match op
    case CreateVault(para, ctoken, lease, strategy, cap, end) =>
      Crowdloans.CreateVault(s, para, ctoken, lease, strategy, cap, end)
    case UpdateVault(para, cap, end, strategy) => Crowdloans.UpdateVault(s, para, cap, end, strategy)
    case Open(para) => Turn(s, para, Pending, Contributing)
    case Close(para) => Turn(s, para, Contributing, Closed)
    case Reopen(para) => Turn(s, para, Closed, Contributing)
    case AuctionSucceeded(para) => Turn(s, para, Closed, Succeeded)
    case AuctionFailed(para) => AskBack(s, para, Closed, Failed)
    case SlotExpired(para) => AskBack(s, para, Succeeded, Expired)
    case Contribute(who, para, amount, code) => Crowdloans.Contribute(s, who, para, amount, code)
    case MigratePending(para, order) =>
      var k :- s.Current(para);
      if !Enumerates(order, s.entries, s.vaults[k].trie, InPending) then Err(InvalidParams) else
        var migrated :- Crowdloans.MigratePending(s, para, order);
        Ok(migrated.0)
    case Notification(id, executed) => Notify(s, id, executed)
    case Refund(k, contributed, flying, pending) =>
      if k in s.vaults && !EnumeratesAll(s, k, contributed, flying, pending) then Err(InvalidParams) else
        var refunded :- Crowdloans.Refund(s, k, AllItems(contributed, flying, pending));
        Ok(refunded.0)
    case RefundFor(k, who, kind, amount) => Crowdloans.RefundFor(s, k, who, kind, amount)
    case Dissolve(k) => Crowdloans.Dissolve(s, k)
    case Claim(k, who, force) => Crowdloans.Claim(s, k, who, force)
    case WithdrawFor(k, who) => Crowdloans.WithdrawFor(s, k, who)
    case Redeem(k, who, amount) => Crowdloans.Redeem(s, k, who, amount)
    case SetVrf(flag) => Ok(s.(isVrf := flag))
    case UpdateProxy => Ok(s.(hasProxy := true))
    case RelayBlock(number) => Ok(s.(relayNow := number))
    case Transfer(asset, from, to, amount) =>
      var l :- s.ledger.Transfer(asset, User(from), to, amount);
      Ok(s.(ledger := l))
  }

  predicate EnumeratesAll(s: State, k: VaultKey, contributed: seq<UserId>, flying: seq<UserId>, pending: seq<UserId>)
    requires k in s.vaults
  {
    && Enumerates(contributed, s.entries, s.vaults[k].trie, InContributed)
    && Enumerates(flying, s.entries, s.vaults[k].trie, InFlying)
    && Enumerates(pending, s.entries, s.vaults[k].trie, InPending)
  }

  function Step(s: State, op: Op): State {
    if Call(s, op).Ok? then Call(s, op).value else s
  }

  function Run(s: State, ops: seq<Op>): State
    decreases ops
  {
    if ops == [] then s else Run(Step(s, ops[0]), ops[1..])
  }

  // ---------- one step ----------

  /** The vault a call works on. */
  function Target(s: State, op: Op): Option<VaultKey> {
    match op
    case CreateVault(para, _, lease, _, _, _) => Some(VaultKey(para, lease))
    case Notification(id, _) => if id in s.requests then Some(s.requests[id].key) else None
    case SetVrf(_) => None
    case UpdateProxy => None
    case RelayBlock(_) => None
    case Transfer(_, _, _, _) => None
    case Refund(k, _, _, _) => Some(k)
    case RefundFor(k, _, _, _) => Some(k)
    case Dissolve(k) => Some(k)
    case Claim(k, _, _) => Some(k)
    case WithdrawFor(k, _) => Some(k)
    case Redeem(k, _, _) => Some(k)
    case _ => if s.Current(op.para).Ok? then Some(s.Current(op.para).value) else None
  }

  /** What a plain payment of a user gives to the pot. */
  function Gift(s: State, op: Op): nat {
    if op.Transfer? && Call(s, op).Ok? && op.asset == s.cfg.relay && op.to == CrowdloanPot then op.amount else 0
  }

  /** The books are untouched, no money is made, and the pot may have been given something. */
  ghost predicate Idle(s: State, t: State, gift: nat) {
    && t.vaults == s.vaults && t.entries == s.entries && t.ledger.issuance == s.ledger.issuance
    && t.ctokens == s.ctokens && t.nextTrie == s.nextTrie && t.cfg == s.cfg && t.leases == s.leases
    && Pot(t) == Pot(s) + gift
  }

  ghost predicate Created(s: State, t: State, k: VaultKey) {
    && k !in s.vaults && k in t.vaults
    && t.vaults == s.vaults[k := t.vaults[k]]
    && t.vaults[k].Total() == 0 && t.vaults[k].trie == s.nextTrie && t.nextTrie == s.nextTrie + 1
    && t.ctokens == s.ctokens[k.lease := t.vaults[k].ctoken]
    && (k.lease in s.ctokens ==> s.ctokens[k.lease] == t.vaults[k].ctoken)
    && t.entries == s.entries && t.ledger == s.ledger && t.cfg == s.cfg
    && t.leases == s.leases[k.para := k.lease]
  }

  ghost predicate Dissolved(s: State, t: State, k: VaultKey) {
    && k in s.vaults && t.vaults == s.vaults - {k}
    && s.vaults[k].Total() == 0 && !HasEntries(s.entries, s.vaults[k].trie)
    && t.entries == s.entries && t.ledger == s.ledger
    && t.ctokens == s.ctokens && t.nextTrie == s.nextTrie && t.cfg == s.cfg
    && t.leases == (if k.para in s.leases && s.leases[k.para] == k.lease then s.leases - {k.para} else s.leases)
  }

  ghost predicate Effect(s: State, t: State, k: VaultKey, create: bool, gift: nat) {
    if create then Created(s, t, k)
    else Idle(s, t, gift) || (gift == 0 && (Balanced(s, t, k) || Dissolved(s, t, k)))
  }

  ghost predicate CTokensAgree(s: State) {
    forall k :: k in s.vaults ==> k.lease in s.ctokens && s.ctokens[k.lease] == s.vaults[k].ctoken
  }

  lemma CreateStep(s: State, op: Op)
    requires (op.CreateVault? || op.Dissolve?) && Call(s, op).Ok?
    ensures Target(s, op).Some? && Effect(s, Step(s, op), Target(s, op).value, op.CreateVault?, 0)
  {
    hide HeldSum, HasEntries, Balanced, Idle;
    var k := Target(s, op).value;
    if op.CreateVault? {
      assert Created(s, Step(s, op), k);
    } else {
      assert Dissolved(s, Step(s, op), k);
    }
  }

  lemma VaultStep(s: State, op: Op)
    requires op.UpdateVault? || op.Open? || op.Close? || op.Reopen? || op.AuctionSucceeded?
             || op.AuctionFailed? || op.SlotExpired?
    requires Call(s, op).Ok?
    ensures Target(s, op).Some? && Effect(s, Step(s, op), Target(s, op).value, false, 0)
  {
    hide HeldSum, Send, Balanced, Dissolved;
    var k := Target(s, op).value;
    if op.AuctionFailed? || op.SlotExpired? {
      SendIdle(s, Withdrawal(k, s.vaults[k].contributed, if op.AuctionFailed? then Failed else Expired));
    } else {
      PutBalanced(s, k, Step(s, op).vaults[k]);
    }
  }

  lemma PutBalanced(s: State, k: VaultKey, v: Vault)
    requires k in s.vaults && v.trie == s.vaults[k].trie && v.ctoken == s.vaults[k].ctoken
    requires forall kind: Kind :: v.Of(kind) == s.vaults[k].Of(kind)
    ensures Balanced(s, s.Put(k, v), k)
  {
    hide HeldSum;
    assert v.Of(InPending) == s.vaults[k].pending && v.Of(InFlying) == s.vaults[k].flying;
    assert v.Of(InContributed) == s.vaults[k].contributed;
  }

  lemma SendIdle(s: State, request: Request)
    ensures Idle(s, Send(s, request), 0)
  {
  }

  lemma BatchStep(s: State, op: Op)
    requires (op.MigratePending? || op.Refund?) && Call(s, op).Ok?
    ensures Target(s, op).Some? && Balanced(s, Step(s, op), Target(s, op).value)
  {
    hide Enumerates, EnumeratesAll, Balanced, MigrateEach, RefundEach, AllItems;
    var k := Target(s, op).value;
    match op
    case MigratePending(_, order) =>
      MigrateEachBalanced(s, k, order[..Min(|order|, s.cfg.migrateLimit)]);
    case Refund(_, c, f, p) =>
      var items := AllItems(c, f, p);
      RefundEachBalanced(s, k, items[..Min(|items|, s.cfg.removeLimit)]);
  }

  lemma NotificationStep(s: State, op: Op)
    requires op.Notification? && Call(s, op).Ok?
    ensures Target(s, op).None? ==> Step(s, op) == s
    ensures Target(s, op).Some? ==> Effect(s, Step(s, op), Target(s, op).value, false, 0)
  {
    if op.id in s.requests {
      RequestedVault(s, op.id, op.executed);
      hide Notify, Balanced;
      NotifyBalanced(s, op.id, op.executed);
    }
  }

  lemma RequestedVault(s: State, id: QueryId, executed: bool)
    requires Notify(s, id, executed).Ok? && id in s.requests
    ensures s.requests[id].key in s.vaults || (s.requests[id].Withdrawal? && !executed)
  {
    hide Migrate, Update;
  }

  lemma ClaimStep(s: State, op: Op)
    requires CTokensAgree(s) && (op.Claim? || op.WithdrawFor? || op.Redeem?) && Call(s, op).Ok?
    ensures Target(s, op) == Some(op.key) && Balanced(s, Step(s, op), op.key)
  {
    hide Balanced, Ledger.Mint, Ledger.Burn;
    match op
    case Claim(k, who, force) => ClaimBalanced(s, k, who, force);
    case WithdrawFor(k, who) => WithdrawForBalanced(s, k, who);
    case Redeem(k, who, amount) => RedeemBalanced(s, k, who, amount);
  }

  lemma ContributeStep(s: State, op: Op)
    requires (op.Contribute? || op.RefundFor?) && Call(s, op).Ok?
    ensures Target(s, op).Some? && Balanced(s, Step(s, op), Target(s, op).value)
  {
    hide Balanced, Crowdloans.Contribute, RefundOne;
    match op
    case Contribute(who, para, amount, code) => ContributeBalanced(s, who, para, amount, code);
    case RefundFor(k, who, kind, amount) => RefundOneBalanced(s, k, who, kind, amount);
  }

  lemma PaymentStep(s: State, asset: Asset, from: UserId, to: Account, amount: nat)
    ensures var op := Transfer(asset, from, to, amount); Idle(s, Step(s, op), Gift(s, op))
  {
    hide Ledger.Transfer;
    var moved := s.ledger.Transfer(asset, User(from), to, amount);
    var op := Transfer(asset, from, to, amount);
    if moved.Ok? {
      assert Call(s, op) == Ok(s.(ledger := moved.value));
    } else {
      assert Call(s, op).Err?;
    }
    hide Call;
  }

  lemma IdleStep(s: State, op: Op)
    requires op.SetVrf? || op.UpdateProxy? || op.RelayBlock? || op.Transfer?
    ensures Idle(s, Step(s, op), Gift(s, op))
  {
    match op
    case Transfer(asset, from, to, amount) => hide Idle, Step, Gift; PaymentStep(s, asset, from, to, amount);
    case SetVrf(_) =>
    case UpdateProxy =>
    case RelayBlock(_) =>
  }

  lemma FailedStep(s: State, op: Op)
    requires Call(s, op).Err?
    ensures Idle(s, Step(s, op), Gift(s, op))
  {
    hide Call;
  }

  lemma NoGift(s: State, op: Op)
    requires !op.Transfer?
    ensures Gift(s, op) == 0
  {
  }

  /** Every step leaves the books alone, creates or dissolves an empty vault, or moves money, vault total and
      child storage together. */
  lemma StepEffect(s: State, op: Op)
    requires CTokensAgree(s)
    ensures Effect(s, Step(s, op), At(s, op), op.CreateVault? && Call(s, op).Ok?, Gift(s, op))
  {
    hide Call, Step, Target, Gift, Balanced, Created, Dissolved, Idle, CTokensAgree;
    if Call(s, op).Err? {
      FailedStep(s, op);
    } else if op.SetVrf? || op.UpdateProxy? || op.RelayBlock? || op.Transfer? {
      IdleStep(s, op);
    } else {
      NoGift(s, op);
      if op.Contribute? || op.RefundFor? {
        ContributeStep(s, op);
      } else if op.MigratePending? || op.Refund? {
        BatchStep(s, op);
      } else if op.Claim? || op.WithdrawFor? || op.Redeem? {
        ClaimStep(s, op);
      } else if op.Notification? {
        NotificationStep(s, op);
        if Target(s, op).None? {
          Unmoved(s);
        }
      } else if op.CreateVault? || op.Dissolve? {
        CreateStep(s, op);
      } else {
        VaultStep(s, op);
      }
    }
  }

  lemma Unmoved(s: State)
    ensures Idle(s, s, 0)
  {
  }

  /** The target, or any key for a call without one. */
  function At(s: State, op: Op): VaultKey {
    if Target(s, op).Some? then Target(s, op).value else VaultKey(0, (0, 0))
  }

  // ---------- the invariant ----------

  /** Tries are numbered apart: no two vaults share one, and the next one is empty. */
  ghost predicate TriesApart(s: State) {
    && (forall k :: k in s.vaults ==> s.vaults[k].trie < s.nextTrie)
    && (forall e :: e in s.entries ==> e.trie < s.nextTrie)
    && (forall k, m :: k in s.vaults && m in s.vaults && k != m ==> s.vaults[k].trie != s.vaults[m].trie)
  }

  /** The totals of every vault are the sums of its child storages. */
  ghost predicate InStep(s: State) {
    forall k :: k in s.vaults ==> Ahead(s, k, InPending) == 0 && Ahead(s, k, InFlying) == 0
  }

  ghost predicate CrowdInv(s: State) {
    TriesApart(s) && CTokensAgree(s) && InStep(s)
  }

  lemma NoEntries(entries: Entries, trie: nat, kind: Kind)
    requires forall e :: e in entries ==> e.trie != trie
    ensures HeldSum(entries, trie, kind) == 0
  {
    assert Held(entries, trie, kind) == map[];
  }

  lemma IdleKeepsInv(s: State, t: State, gift: nat)
    requires CrowdInv(s) && Idle(s, t, gift)
    ensures CrowdInv(t)
  {
    hide HeldSum;
  }

  lemma CreatedKeepsInv(s: State, t: State, k: VaultKey)
    requires CrowdInv(s) && Created(s, t, k)
    ensures CrowdInv(t) && forall kind :: Ahead(t, k, kind) == 0
  {
    hide HeldSum;
    forall kind
      ensures HeldSum(t.entries, s.nextTrie, kind) == 0
    {
      NoEntries(t.entries, s.nextTrie, kind);
    }
  }

  lemma DissolvedKeepsInv(s: State, t: State, k: VaultKey)
    requires CrowdInv(s) && Dissolved(s, t, k)
    ensures CrowdInv(t)
  {
    hide HeldSum;
  }

  /** Distinct tries: what happens at one vault does not reach another. */
  lemma OthersKept(s: State, t: State, k: VaultKey, m: VaultKey, kind: Kind)
    requires TriesApart(s) && OnlyVault(s, t, k) && m in s.vaults && m != k
    ensures t.vaults[m] == s.vaults[m] && Ahead(t, m, kind) == Ahead(s, m, kind)
  {
    hide HeldSum;
  }

  lemma BalancedKeepsInv(s: State, t: State, k: VaultKey)
    requires CrowdInv(s) && Balanced(s, t, k)
    ensures CrowdInv(t)
  {
    hide HeldSum;
    forall m | m in t.vaults
      ensures Ahead(t, m, InPending) == 0 && Ahead(t, m, InFlying) == 0
    {
      if m != k {
        OthersKept(s, t, k, m, InPending);
        OthersKept(s, t, k, m, InFlying);
      }
    }
  }

  lemma StepKeepsInv(s: State, op: Op)
    requires CrowdInv(s)
    ensures CrowdInv(Step(s, op)) && Step(s, op).cfg == s.cfg
  {
    hide Step, Call, At, HeldSum, Gift;
    StepEffect(s, op);
    var t, k := Step(s, op), At(s, op);
    if Idle(s, t, Gift(s, op)) {
      IdleKeepsInv(s, t, Gift(s, op));
    } else if Balanced(s, t, k) {
      BalancedKeepsInv(s, t, k);
    } else if Created(s, t, k) {
      CreatedKeepsInv(s, t, k);
    } else {
      DissolvedKeepsInv(s, t, k);
    }
  }

  /** In every reachable state, pending and flying of every vault are the sums of their child storages. */
  lemma {:induction false} RunKeepsInv(s: State, ops: seq<Op>)
    requires CrowdInv(s)
    ensures CrowdInv(Run(s, ops)) && Run(s, ops).cfg == s.cfg
    decreases ops
  {
    hide Step, CrowdInv;
    if ops != [] {
      StepKeepsInv(s, ops[0]);
      RunKeepsInv(Step(s, ops[0]), ops[1..]);
    }
  }

  // ---------- conservation ----------

  ghost function Contributions(s: State): map<VaultKey, int> {
    map k | k in s.vaults :: s.vaults[k].contributed
  }

  ghost function Waitings(s: State): map<VaultKey, int> {
    map k | k in s.vaults :: Waiting(s.vaults[k])
  }

  /** What is contributed to vaults with this ctoken but claimed from their storages. */
  ghost function Unclaimed(s: State, c: Asset): map<VaultKey, int> {
    map k | k in s.vaults && s.vaults[k].ctoken == c :: Ahead(s, k, InContributed)
  }

  /** The relay token on both chains: issued here, and contributed there. */
  ghost function RelayTotal(s: State): int {
    s.ledger.Issued(s.cfg.relay) + Sum(Contributions(s))
  }

  ghost function PotSpare(s: State): int {
    Pot(s) - Sum(Waitings(s))
  }

  /** An asset's issuance, with the contributions if it is the relay token, less what its ctokens stand for. */
  ghost function AssetSpare(s: State, c: Asset): int {
    s.ledger.Issued(c) + (if c == s.cfg.relay then Sum(Contributions(s)) else 0) - Sum(Unclaimed(s, c))
  }

  lemma IdleConserves(s: State, t: State, gift: nat, c: Asset)
    requires Idle(s, t, gift)
    ensures PotSpare(t) == PotSpare(s) + gift && AssetSpare(t, c) == AssetSpare(s, c)
  {
    hide Sum, HeldSum;
    assert Contributions(t) == Contributions(s) && Waitings(t) == Waitings(s);
    assert Unclaimed(t, c) == Unclaimed(s, c);
  }

  lemma ContributionsPut(s: State, t: State, k: VaultKey)
    requires k in t.vaults && t.vaults == s.vaults[k := t.vaults[k]]
    ensures Sum(Contributions(t)) == Sum(Contributions(s))
              + t.vaults[k].contributed - (if k in s.vaults then s.vaults[k].contributed else 0)
  {
    hide Sum;
    assert Contributions(t) == Contributions(s)[k := t.vaults[k].contributed];
    SumUpdate(Contributions(s), k, t.vaults[k].contributed);
  }

  lemma WaitingsPut(s: State, t: State, k: VaultKey)
    requires k in t.vaults && t.vaults == s.vaults[k := t.vaults[k]]
    ensures Sum(Waitings(t)) == Sum(Waitings(s))
              + Waiting(t.vaults[k]) - (if k in s.vaults then Waiting(s.vaults[k]) else 0)
  {
    hide Sum;
    assert Waitings(t) == Waitings(s)[k := Waiting(t.vaults[k])];
    SumUpdate(Waitings(s), k, Waiting(t.vaults[k]));
  }

  lemma UnclaimedPut(s: State, t: State, k: VaultKey, c: Asset)
    requires k in t.vaults && t.vaults == s.vaults[k := t.vaults[k]]
    requires k in s.vaults ==> s.vaults[k].ctoken == t.vaults[k].ctoken
    requires forall m :: m in s.vaults && m != k ==> Ahead(t, m, InContributed) == Ahead(s, m, InContributed)
    ensures Sum(Unclaimed(t, c)) == Sum(Unclaimed(s, c))
              + (if t.vaults[k].ctoken != c then 0
                 else Ahead(t, k, InContributed) - (if k in s.vaults then Ahead(s, k, InContributed) else 0))
  {
    hide Sum, Ahead;
    if t.vaults[k].ctoken == c {
      assert Unclaimed(t, c) == Unclaimed(s, c)[k := Ahead(t, k, InContributed)];
      SumUpdate(Unclaimed(s, c), k, Ahead(t, k, InContributed));
    } else {
      assert Unclaimed(t, c) == Unclaimed(s, c);
    }
  }

  lemma CreatedConserves(s: State, t: State, k: VaultKey, c: Asset)
    requires CrowdInv(s) && Created(s, t, k)
    ensures PotSpare(t) == PotSpare(s) && AssetSpare(t, c) == AssetSpare(s, c)
  {
    hide Sum, HeldSum, Contributions, Waitings, Unclaimed;
    CreatedKeepsInv(s, t, k);
    ContributionsPut(s, t, k);
    WaitingsPut(s, t, k);
    UnclaimedPut(s, t, k, c);
  }

  lemma DissolvedConserves(s: State, t: State, k: VaultKey, c: Asset)
    requires CrowdInv(s) && Dissolved(s, t, k)
    ensures PotSpare(t) == PotSpare(s) && AssetSpare(t, c) == AssetSpare(s, c)
  {
    hide Sum, HeldSum, Contributions, Waitings, Unclaimed;
    NoEntries(s.entries, s.vaults[k].trie, InContributed);
    assert s.vaults == t.vaults[k := s.vaults[k]];
    ContributionsPut(t, s, k);
    WaitingsPut(t, s, k);
    UnclaimedPut(t, s, k, c);
  }

  lemma BalancedConserves(s: State, t: State, k: VaultKey, c: Asset)
    requires CrowdInv(s) && Balanced(s, t, k)
    ensures PotSpare(t) == PotSpare(s) && AssetSpare(t, c) == AssetSpare(s, c)
  {
    hide Sum, HeldSum, Contributions, Waitings, Unclaimed, InStep;
    ContributionsPut(s, t, k);
    WaitingsPut(s, t, k);
    forall m | m in s.vaults && m != k
      ensures Ahead(t, m, InContributed) == Ahead(s, m, InContributed)
    {
      OthersKept(s, t, k, m, InContributed);
    }
    UnclaimedPut(s, t, k, c);
    assert Accounted(t, k, c) == Accounted(s, k, c);
  }

  /** The conservation laws for one step of any call. */
  lemma StepConserves(s: State, op: Op, c: Asset)
    requires CrowdInv(s)
    ensures PotSpare(Step(s, op)) == PotSpare(s) + Gift(s, op)
    ensures AssetSpare(Step(s, op), c) == AssetSpare(s, c)
  {
    hide Step, Call, At, Balanced, Idle, Created, Dissolved, PotSpare, AssetSpare, CrowdInv;
    InvAgrees(s);
    StepEffect(s, op);
    var t, k := Step(s, op), At(s, op);
    if Idle(s, t, Gift(s, op)) {
      IdleConserves(s, t, Gift(s, op), c);
    } else if Balanced(s, t, k) {
      BalancedConserves(s, t, k, c);
    } else if Created(s, t, k) {
      CreatedConserves(s, t, k, c);
    } else {
      DissolvedConserves(s, t, k, c);
    }
  }

  lemma InvAgrees(s: State)
    requires CrowdInv(s)
    ensures CTokensAgree(s)
  {
  }

  function Gifts(s: State, ops: seq<Op>): nat
    decreases ops
  {
    if ops == [] then 0 else Gift(s, ops[0]) + Gifts(Step(s, ops[0]), ops[1..])
  }

  /** Whatever is called and notified, in whatever order and however often, and whatever the ctokens are: the
      pot less what is pending or flying moves only by gifts, and for every asset its issuance, with the
      contributions if it is the relay token, less what its vaults hold beyond their entries, stays what it
      was. */
  lemma {:induction false} RunConserves(s: State, ops: seq<Op>, c: Asset)
    requires CrowdInv(s)
    ensures PotSpare(Run(s, ops)) == PotSpare(s) + Gifts(s, ops)
    ensures AssetSpare(Run(s, ops), c) == AssetSpare(s, c)
    decreases ops
  {
    hide Step, CrowdInv, PotSpare, AssetSpare, Gift;
    if ops != [] {
      StepConserves(s, ops[0], c);
      StepKeepsInv(s, ops[0]);
      RunConserves(Step(s, ops[0]), ops[1..], c);
    }
  }
}
