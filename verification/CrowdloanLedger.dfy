/** The crowdloan calls on the ledger: issuance stays the sum of all balances. */
module CrowdloanLedger {
  import opened Base
  import opened Assets
  import opened Crowdloans
  import opened CrowdloanEffects
  import opened CrowdloanRuns

  lemma UpdateLedger(s: State, k: VaultKey, who: UserId, amount: nat, code: Option<Code>, add: bool, kind: Kind)
    requires k in s.vaults && Update(s, k, who, amount, code, add, kind).Ok?
    ensures Update(s, k, who, amount, code, add, kind).value.0.ledger == s.ledger
  {
  }

  lemma MigrateLedger(s: State, k: VaultKey, who: UserId, amount: nat, from: Kind, to: Kind)
    requires k in s.vaults && Migrate(s, k, who, amount, from, to).Ok?
    ensures Migrate(s, k, who, amount, from, to).value.ledger == s.ledger
  {
    hide Update;
    UpdateLedger(s, k, who, amount, None, false, from);
    var taken := Update(s, k, who, amount, None, false, from).value;
    UpdateEffect(s, k, who, amount, None, false, from);
    UpdateLedger(taken.0, k, who, amount, Some(taken.1), true, to);
  }

  lemma {:induction false} MigrateEachLedger(s: State, k: VaultKey, order: seq<UserId>)
    requires k in s.vaults && MigrateEach(s, k, order).Ok?
    ensures MigrateEach(s, k, order).value.ledger == s.ledger
    decreases |order|
  {
    hide Migrate;
    if order != [] {
      var before := MigrateEach(s, k, order[..|order| - 1]).value;
      MigrateEachLedger(s, k, order[..|order| - 1]);
      var who := order[|order| - 1];
      var amount := AmountAt(before.entries, EntryKey(before.vaults[k].trie, InPending, who));
      MigrateLedger(before, k, who, amount, InPending, InFlying);
    }
  }

  lemma RefundOneBacked(s: State, k: VaultKey, who: UserId, kind: Kind, amount: nat)
    requires k in s.vaults && Backed(s.ledger) && RefundOne(s, k, who, kind, amount).Ok?
    ensures Backed(RefundOne(s, k, who, kind, amount).value.ledger)
  {
    hide Backed, Update, Ledger.Mint, Ledger.Transfer;
    if kind == InContributed {
      MintBacked(s.ledger, s.cfg.relay, User(who), amount);
      UpdateLedger(s.(ledger := s.ledger.Mint(s.cfg.relay, User(who), amount).value), k, who, amount, None, false, kind);
    } else {
      TransferBacked(s.ledger, s.cfg.relay, CrowdloanPot, User(who), amount);
      UpdateLedger(s.(ledger := s.ledger.Transfer(s.cfg.relay, CrowdloanPot, User(who), amount).value),
                   k, who, amount, None, false, kind);
    }
  }

  lemma {:induction false} RefundEachBacked(s: State, k: VaultKey, items: seq<Item>)
    requires k in s.vaults && Backed(s.ledger) && RefundEach(s, k, items).Ok?
    ensures Backed(RefundEach(s, k, items).value.ledger)
    decreases |items|
  {
    hide Backed, RefundOne;
    if items != [] {
      var before := RefundEach(s, k, items[..|items| - 1]).value;
      RefundEachBacked(s, k, items[..|items| - 1]);
      var (kind, who) := items[|items| - 1];
      RefundOneBacked(before, k, who, kind, AmountAt(before.entries, EntryKey(before.vaults[k].trie, kind, who)));
    }
  }

  lemma BatchBacked(s: State, op: Op)
    requires (op.MigratePending? || op.Refund?) && Call(s, op).Ok? && Backed(s.ledger)
    ensures Backed(Step(s, op).ledger)
  {
    hide Enumerates, EnumeratesAll, MigrateEach, RefundEach, AllItems, Backed;
    var k := At(s, op);
    match op
    case MigratePending(_, order) =>
      MigrateEachLedger(s, k, order[..Min(|order|, s.cfg.migrateLimit)]);
    case Refund(_, c, f, p) =>
      var items := AllItems(c, f, p);
      RefundEachBacked(s, k, items[..Min(|items|, s.cfg.removeLimit)]);
  }

  lemma ContributeBacked(s: State, op: Op)
    requires op.Contribute? && Call(s, op).Ok? && Backed(s.ledger)
    ensures Backed(Step(s, op).ledger)
  {
    hide Backed, Update, Ledger.Transfer;
    var k := s.Current(op.para).value;
    var l := s.ledger.Transfer(s.cfg.relay, User(op.who), CrowdloanPot, op.amount).value;
    TransferBacked(s.ledger, s.cfg.relay, User(op.who), CrowdloanPot, op.amount);
    UpdateLedger(s.(ledger := l), k, op.who, op.amount, Some(op.code), true,
                 if s.vaults[k].phase == Contributing then InFlying else InPending);
  }

  lemma NotifyBacked(s: State, id: QueryId, executed: bool)
    requires Notify(s, id, executed).Ok? && Backed(s.ledger)
    ensures Backed(Notify(s, id, executed).value.ledger)
  {
    hide Backed, Update, Migrate, Ledger.Burn, Ledger.Transfer;
    if id in s.requests && s.requests[id].Contribution? {
      var Contribution(k, who, amount, _) := s.requests[id];
      if executed {
        BurnBacked(s.ledger, s.cfg.relay, CrowdloanPot, amount);
        MigrateLedger(s.(ledger := s.ledger.Burn(s.cfg.relay, CrowdloanPot, amount).value),
                      k, who, amount, InFlying, InContributed);
      } else {
        TransferBacked(s.ledger, s.cfg.relay, CrowdloanPot, User(who), amount);
        UpdateLedger(s.(ledger := s.ledger.Transfer(s.cfg.relay, CrowdloanPot, User(who), amount).value),
                     k, who, amount, None, false, InFlying);
      }
    }
  }

  lemma ClaimsBacked(s: State, op: Op)
    requires (op.Claim? || op.WithdrawFor? || op.Redeem?) && Call(s, op).Ok? && Backed(s.ledger)
    ensures Backed(Step(s, op).ledger)
  {
    hide Backed, Ledger.Mint, Ledger.Burn;
    match op
    case Claim(k, who, _) =>
      MintBacked(s.ledger, s.ctokens[k.lease], User(who),
                 AmountAt(s.entries, EntryKey(s.vaults[k].trie, InContributed, who)));
    case WithdrawFor(k, who) =>
      MintBacked(s.ledger, s.cfg.relay, User(who),
                 AmountAt(s.entries, EntryKey(s.vaults[k].trie, InContributed, who)));
    case Redeem(k, who, amount) =>
      BurnBacked(s.ledger, s.ctokens[k.lease], User(who), amount);
      MintBacked(s.ledger.Burn(s.ctokens[k.lease], User(who), amount).value, s.cfg.relay, User(who), amount);
  }

  lemma OthersBacked(s: State, op: Op)
    requires Call(s, op).Ok? && Backed(s.ledger)
    requires !op.Contribute? && !op.MigratePending? && !op.Refund? && !op.RefundFor? && !op.Notification?
    requires !op.Claim? && !op.WithdrawFor? && !op.Redeem?
    ensures Backed(Step(s, op).ledger)
  {
    hide Backed, HasEntries, Ledger.Transfer, State.Current;
    if op.Transfer? {
      TransferBacked(s.ledger, op.asset, User(op.from), op.to, op.amount);
    }
  }

  lemma StepKeepsBacked(s: State, op: Op)
    requires Backed(s.ledger)
    ensures Backed(Step(s, op).ledger)
  {
    hide Backed, RefundOne, Notify, Call;
    if Call(s, op).Ok? {
      if op.Contribute? {
        ContributeBacked(s, op);
      } else if op.MigratePending? || op.Refund? {
        BatchBacked(s, op);
      } else if op.RefundFor? {
        RefundForBacked(s, op);
      } else if op.Notification? {
        NotificationBacked(s, op);
      } else if op.Claim? || op.WithdrawFor? || op.Redeem? {
        ClaimsBacked(s, op);
      } else {
        OthersBacked(s, op);
      }
    }
  }

  lemma RefundForBacked(s: State, op: Op)
    requires op.RefundFor? && Call(s, op).Ok? && Backed(s.ledger)
    ensures Backed(Step(s, op).ledger)
  {
    hide Backed, RefundOne;
    RefundOneBacked(s, op.key, op.who, op.kind, op.amount);
  }

  lemma NotificationBacked(s: State, op: Op)
    requires op.Notification? && Call(s, op).Ok? && Backed(s.ledger)
    ensures Backed(Step(s, op).ledger)
  {
    hide Backed, Notify;
    NotifyBacked(s, op.id, op.executed);
  }

  /** Over any run the issuance of every asset stays the sum of its balances. */
  lemma {:induction false} RunKeepsBacked(s: State, ops: seq<Op>)
    requires Backed(s.ledger)
    ensures Backed(Run(s, ops).ledger)
    decreases ops
  {
    hide Step, Backed;
    if ops != [] {
      StepKeepsBacked(s, ops[0]);
      RunKeepsBacked(Step(s, ops[0]), ops[1..]);
    }
  }
}
