/** No entry and no request is ever about nothing. */
module CrowdloanAmounts {
  import opened Base
  import opened Assets
  import opened Crowdloans
  import opened CrowdloanEffects
  import opened CrowdloanRuns
  import opened CrowdloanBatches

  ghost predicate EntriesPositive(entries: Entries) {
    forall e :: e in entries ==> entries[e].amount > 0
  }

  ghost predicate RequestsPositive(requests: map<QueryId, Request>) {
    forall id :: id in requests && requests[id].Contribution? ==> requests[id].amount > 0
  }

  ghost predicate Positive(s: State) {
    EntriesPositive(s.entries) && RequestsPositive(s.requests)
  }

  lemma UpdatePositive(s: State, k: VaultKey, who: UserId, amount: nat, code: Option<Code>, add: bool, kind: Kind)
    requires Positive(s) && k in s.vaults && Update(s, k, who, amount, code, add, kind).Ok?
    ensures var t := Update(s, k, who, amount, code, add, kind).value.0;
            Positive(t) && k in t.vaults && t.requests == s.requests
  {
  }

  lemma MigratePositive(s: State, k: VaultKey, who: UserId, amount: nat, from: Kind, to: Kind)
    requires Positive(s) && k in s.vaults && Migrate(s, k, who, amount, from, to).Ok?
    ensures Positive(Migrate(s, k, who, amount, from, to).value)
  {
    hide Update, Positive;
    var taken := Update(s, k, who, amount, None, false, from).value;
    UpdatePositive(s, k, who, amount, None, false, from);
    UpdatePositive(taken.0, k, who, amount, Some(taken.1), true, to);
  }

  lemma MigrateOnePositive(s: State, k: VaultKey, who: UserId)
    requires Positive(s) && k in s.vaults && MigrateOne(s, k, who).Ok?
    requires EntryKey(s.vaults[k].trie, InPending, who) in s.entries
    ensures Positive(MigrateOne(s, k, who).value)
  {
    hide Migrate;
    MigratePositive(s, k, who, AmountAt(s.entries, EntryKey(s.vaults[k].trie, InPending, who)), InPending, InFlying);
  }

  lemma {:induction false} MigrateEachPositive(s: State, k: VaultKey, order: seq<UserId>, i: nat)
    requires Positive(s) && k in s.vaults && i <= |order| && Enumerates(order, s.entries, s.vaults[k].trie, InPending)
    requires MigrateEach(s, k, order[..i]).Ok?
    ensures Positive(MigrateEach(s, k, order[..i]).value)
    decreases i
  {
    if i > 0 {
      var front, who := order[..i - 1], order[i - 1];
      assert order[..i][..i - 1] == front && order[..i][i - 1] == who;
      hide MigrateOne, Positive;
      MigrateEachPositive(s, k, order, i - 1);
      MigrateEachMoves(s, k, order, i - 1);
      var before := MigrateEach(s, k, front).value;
      StillPending(s.entries, before.entries, s.vaults[k].trie, order, i - 1);
      MigrateOnePositive(before, k, who);
    }
  }

  lemma StillPending(before: Entries, after: Entries, trie: nat, order: seq<UserId>, i: nat)
    requires i < |order| && Enumerates(order, before, trie, InPending) && Flown(before, after, trie, order[..i])
    ensures EntryKey(trie, InPending, order[i]) in after
  {
    assert order[i] !in order[..i];
  }

  lemma RefundOnePositive(s: State, k: VaultKey, who: UserId, kind: Kind, amount: nat)
    requires Positive(s) && k in s.vaults && RefundOne(s, k, who, kind, amount).Ok?
    ensures Positive(RefundOne(s, k, who, kind, amount).value)
  {
    hide Update, Ledger.Mint, Ledger.Transfer;
    var l := if kind == InContributed then s.ledger.Mint(s.cfg.relay, User(who), amount).value
             else s.ledger.Transfer(s.cfg.relay, CrowdloanPot, User(who), amount).value;
    UpdatePositive(s.(ledger := l), k, who, amount, None, false, kind);
  }

  lemma {:induction false} RefundEachPositive(s: State, k: VaultKey, items: seq<Item>)
    requires Positive(s) && k in s.vaults && RefundEach(s, k, items).Ok?
    ensures Positive(RefundEach(s, k, items).value)
    decreases |items|
  {
    hide RefundOne, Positive;
    if items != [] {
      var before := RefundEach(s, k, items[..|items| - 1]).value;
      RefundEachPositive(s, k, items[..|items| - 1]);
      var (kind, who) := items[|items| - 1];
      RefundOnePositive(before, k, who, kind, AmountAt(before.entries, EntryKey(before.vaults[k].trie, kind, who)));
    }
  }

  lemma BatchPositive(s: State, op: Op)
    requires Positive(s) && (op.MigratePending? || op.Refund?) && Call(s, op).Ok?
    ensures Positive(Step(s, op))
  {
    hide Enumerates, EnumeratesAll, Positive, MigrateEach, RefundEach, AllItems;
    var k := At(s, op);
    match op
    case MigratePending(_, order) =>
      MigrateEachPositive(s, k, order, Min(|order|, s.cfg.migrateLimit));
    case Refund(_, c, f, p) =>
      var items := AllItems(c, f, p);
      RefundEachPositive(s, k, items[..Min(|items|, s.cfg.removeLimit)]);
  }

  lemma ContributePositive(s: State, op: Op)
    requires Positive(s) && op.Contribute? && Call(s, op).Ok?
    ensures Positive(Step(s, op))
  {
    hide Update, Ledger.Transfer;
    var k := s.Current(op.para).value;
    var l := s.ledger.Transfer(s.cfg.relay, User(op.who), CrowdloanPot, op.amount).value;
    UpdatePositive(s.(ledger := l), k, op.who, op.amount, Some(op.code), true,
                   if s.vaults[k].phase == Contributing then InFlying else InPending);
  }

  lemma NotifyPositive(s: State, id: QueryId, executed: bool)
    requires Positive(s) && Notify(s, id, executed).Ok?
    ensures Positive(Notify(s, id, executed).value)
  {
    hide Update, Migrate, Ledger.Burn, Ledger.Transfer;
    if id in s.requests && s.requests[id].Contribution? {
      var Contribution(k, who, amount, _) := s.requests[id];
      if executed {
        MigratePositive(s.(ledger := s.ledger.Burn(s.cfg.relay, CrowdloanPot, amount).value),
                        k, who, amount, InFlying, InContributed);
      } else {
        UpdatePositive(s.(ledger := s.ledger.Transfer(s.cfg.relay, CrowdloanPot, User(who), amount).value),
                       k, who, amount, None, false, InFlying);
      }
    }
  }

  lemma OthersPositive(s: State, op: Op)
    requires Positive(s) && Call(s, op).Ok?
    requires !op.Contribute? && !op.MigratePending? && !op.Refund? && !op.RefundFor? && !op.Notification?
    ensures Positive(Step(s, op))
  {
    hide HasEntries, Ledger.Transfer, Ledger.Mint, Ledger.Burn, State.Current;
  }

  lemma StepKeepsPositive(s: State, op: Op)
    requires Positive(s)
    ensures Positive(Step(s, op))
  {
    hide Positive, Call;
    if Call(s, op).Ok? {
      if op.Contribute? {
        ContributePositive(s, op);
      } else if op.MigratePending? || op.Refund? {
        BatchPositive(s, op);
      } else if op.RefundFor? {
        RefundForPositive(s, op);
      } else if op.Notification? {
        NotificationPositive(s, op);
      } else {
        OthersPositive(s, op);
      }
    }
  }

  lemma RefundForPositive(s: State, op: Op)
    requires Positive(s) && op.RefundFor? && Call(s, op).Ok?
    ensures Positive(Step(s, op))
  {
    hide Positive, RefundOne;
    RefundOnePositive(s, op.key, op.who, op.kind, op.amount);
  }

  lemma NotificationPositive(s: State, op: Op)
    requires Positive(s) && op.Notification? && Call(s, op).Ok?
    ensures Positive(Step(s, op))
  {
    hide Positive, Notify;
    NotifyPositive(s, op.id, op.executed);
  }

  /** In every reachable state every entry holds something and every contribution request asks for something. */
  lemma {:induction false} RunKeepsPositive(s: State, ops: seq<Op>)
    requires Positive(s)
    ensures Positive(Run(s, ops))
    decreases ops
  {
    hide Step, Positive;
    if ops != [] {
      StepKeepsPositive(s, ops[0]);
      RunKeepsPositive(Step(s, ops[0]), ops[1..]);
    }
  }
}
