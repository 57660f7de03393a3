/** The life of a vault: which calls move its phase, and that an ended vault stays ended. */
module CrowdloanPhases {
  import opened Base
  import opened Assets
  import opened Crowdloans
  import opened CrowdloanEffects
  import opened CrowdloanRuns
  import opened CrowdloanCaps
  import opened CrowdloanBatches

  /** The admissible moves of a vault's phase. */
  predicate Moves(s: State, op: Op, k: VaultKey, from: Phase, to: Phase) {
    match op
    case Open(_) => from == Pending && to == Contributing
    case Close(_) => from == Contributing && to == Closed
    case Reopen(_) => from == Closed && to == Contributing
    case AuctionSucceeded(_) => from == Closed && to == Succeeded
    case Notification(id, executed) =>
      executed && id in s.requests && s.requests[id].Withdrawal? && s.requests[id].key == k && s.requests[id].target == to
    case _ => false
  }

  ghost predicate PhaseKept(s: State, t: State, k: VaultKey, op: Op)
    requires k in s.vaults && k in t.vaults
  {
    t.vaults[k].phase == s.vaults[k].phase || Moves(s, op, k, s.vaults[k].phase, t.vaults[k].phase)
  }

  lemma BatchPhase(s: State, op: Op)
    requires (op.MigratePending? || op.Refund?) && Call(s, op).Ok?
    ensures At(s, op) in s.vaults && At(s, op) in Step(s, op).vaults && PhaseKept(s, Step(s, op), At(s, op), op)
  {
    hide Enumerates, EnumeratesAll, Balanced, MigrateEach, RefundEach, AllItems;
    var k := At(s, op);
    match op
    case MigratePending(_, order) =>
      MigrateEachBalanced(s, k, order[..Min(|order|, s.cfg.migrateLimit)]);
    case Refund(_, c, f, p) =>
      var items := AllItems(c, f, p);
      RefundEachBalanced(s, k, items[..Min(|items|, s.cfg.removeLimit)]);
  }

  lemma NotificationPhase(s: State, op: Op)
    requires op.Notification? && Call(s, op).Ok? && At(s, op) in s.vaults
    ensures At(s, op) in Step(s, op).vaults && PhaseKept(s, Step(s, op), At(s, op), op)
  {
    if op.id in s.requests {
      RequestedVault(s, op.id, op.executed);
      hide Notify, Ahead, HeldSum;
      NotifyBalanced(s, op.id, op.executed);
    }
  }

  lemma SimplePhase(s: State, op: Op)
    requires At(s, op) in s.vaults && Call(s, op).Ok?
    requires op.UpdateVault? || op.Open? || op.Close? || op.Reopen? || op.AuctionSucceeded? || op.AuctionFailed?
             || op.SlotExpired? || op.Claim? || op.WithdrawFor? || op.Redeem?
    ensures At(s, op) in Step(s, op).vaults && PhaseKept(s, Step(s, op), At(s, op), op)
  {
    hide Ledger.Mint, Ledger.Burn;
  }

  lemma PaymentPhase(s: State, op: Op)
    requires (op.Contribute? || op.RefundFor?) && Call(s, op).Ok?
    requires At(s, op) in s.vaults && At(s, op) in Step(s, op).vaults
    ensures PhaseKept(s, Step(s, op), At(s, op), op)
  {
    hide Crowdloans.Contribute, RefundOne, Balanced, Moved, Changed;
    match op
    case Contribute(who, para, amount, code) => ContributeBalanced(s, who, para, amount, code);
    case RefundFor(k, who, kind, amount) => RefundOneBalanced(s, k, who, kind, amount);
  }

  lemma QuietPhase(s: State, op: Op)
    requires op.CreateVault? || op.Dissolve? || op.SetVrf? || op.UpdateProxy? || op.RelayBlock? || op.Transfer?
    requires At(s, op) in s.vaults && At(s, op) in Step(s, op).vaults
    ensures PhaseKept(s, Step(s, op), At(s, op), op)
  {
    hide HasEntries, Ledger.Transfer, Moved;
  }

  lemma StepPhase(s: State, op: Op)
    requires CTokensAgree(s) && At(s, op) in s.vaults && At(s, op) in Step(s, op).vaults && Call(s, op).Ok?
    ensures PhaseKept(s, Step(s, op), At(s, op), op)
  {
    hide Call, Step, At, PhaseKept, CTokensAgree;
    if op.Contribute? || op.RefundFor? {
      PaymentPhase(s, op);
    } else if op.MigratePending? || op.Refund? {
      BatchPhase(s, op);
    } else if op.Notification? {
      NotificationPhase(s, op);
    } else if op.CreateVault? || op.Dissolve? || op.SetVrf? || op.UpdateProxy? || op.RelayBlock? || op.Transfer? {
      QuietPhase(s, op);
    } else {
      SimplePhase(s, op);
    }
  }

  /** Whatever changes the phase of a vault is one of the admissible moves of that vault. */
  lemma PhaseMoves(s: State, op: Op, k: VaultKey)
    requires CTokensAgree(s) && k in s.vaults && k in Step(s, op).vaults
    requires Step(s, op).vaults[k].phase != s.vaults[k].phase
    ensures k == At(s, op) && Moves(s, op, k, s.vaults[k].phase, Step(s, op).vaults[k].phase)
  {
    hide Step, Call;
    if k != At(s, op) || Call(s, op).Err? {
      OtherVaults(s, op, k);
    } else {
      StepPhase(s, op);
    }
  }

  // ---------- ended vaults ----------

  predicate Ended(phase: Phase) {
    phase == Failed || phase == Expired
  }

  /** The relay chain is only ever asked for money back towards an end. */
  ghost predicate AsksForEnd(requests: map<QueryId, Request>) {
    forall id :: id in requests && requests[id].Withdrawal? ==> Ended(requests[id].target)
  }

  lemma {:induction false} MigrateEachAsks(s: State, k: VaultKey, order: seq<UserId>)
    requires k in s.vaults && MigrateEach(s, k, order).Ok? && AsksForEnd(s.requests)
    ensures AsksForEnd(MigrateEach(s, k, order).value.requests)
    decreases |order|
  {
    hide MigrateOne;
    if order != [] {
      MigrateEachAsks(s, k, order[..|order| - 1]);
      MigrateOneMoves(MigrateEach(s, k, order[..|order| - 1]).value, k, order[|order| - 1]);
    }
  }

  lemma {:induction false} RefundEachAsks(s: State, k: VaultKey, items: seq<Item>)
    requires k in s.vaults && RefundEach(s, k, items).Ok?
    ensures RefundEach(s, k, items).value.requests == s.requests
    decreases |items|
  {
    hide RefundOne;
    if items != [] {
      RefundEachAsks(s, k, items[..|items| - 1]);
      var before := RefundEach(s, k, items[..|items| - 1]).value;
      var (kind, who) := items[|items| - 1];
      RefundOneAsks(before, k, who, kind, AmountAt(before.entries, EntryKey(before.vaults[k].trie, kind, who)));
    }
  }

  lemma BatchAsks(s: State, op: Op)
    requires (op.MigratePending? || op.Refund?) && Call(s, op).Ok? && AsksForEnd(s.requests)
    ensures AsksForEnd(Step(s, op).requests)
  {
    hide Enumerates, EnumeratesAll, MigrateEach, RefundEach, AllItems, AsksForEnd;
    var k := At(s, op);
    match op
    case MigratePending(_, order) =>
      MigrateEachAsks(s, k, order[..Min(|order|, s.cfg.migrateLimit)]);
    case Refund(_, c, f, p) =>
      var items := AllItems(c, f, p);
      RefundEachAsks(s, k, items[..Min(|items|, s.cfg.removeLimit)]);
  }

  lemma NotificationAsks(s: State, op: Op)
    requires op.Notification? && Call(s, op).Ok? && AsksForEnd(s.requests)
    ensures AsksForEnd(Step(s, op).requests)
  {
    if op.id in s.requests {
      RequestedVault(s, op.id, op.executed);
      hide Notify, Ahead, HeldSum;
      NotifyBalanced(s, op.id, op.executed);
    }
  }

  lemma ContributeAsks(s: State, op: Op)
    requires op.Contribute? && Call(s, op).Ok? && AsksForEnd(s.requests)
    ensures AsksForEnd(Step(s, op).requests)
  {
    hide Update, Ledger.Transfer;
    var k := s.Current(op.para).value;
    var l := s.ledger.Transfer(s.cfg.relay, User(op.who), CrowdloanPot, op.amount).value;
    var kind := if s.vaults[k].phase == Contributing then InFlying else InPending;
    UpdateKeepsRequests(s.(ledger := l), k, op.who, op.amount, Some(op.code), true, kind);
  }

  lemma UpdateKeepsRequests(s: State, k: VaultKey, who: UserId, amount: nat, code: Option<Code>, add: bool, kind: Kind)
    requires k in s.vaults && Update(s, k, who, amount, code, add, kind).Ok?
    ensures Update(s, k, who, amount, code, add, kind).value.0.requests == s.requests
  {
  }

  lemma RefundOneAsks(s: State, k: VaultKey, who: UserId, kind: Kind, amount: nat)
    requires k in s.vaults && RefundOne(s, k, who, kind, amount).Ok?
    ensures RefundOne(s, k, who, kind, amount).value.requests == s.requests
  {
    hide Update, Ledger.Mint, Ledger.Transfer;
    var l := if kind == InContributed then s.ledger.Mint(s.cfg.relay, User(who), amount).value
             else s.ledger.Transfer(s.cfg.relay, CrowdloanPot, User(who), amount).value;
    UpdateKeepsRequests(s.(ledger := l), k, who, amount, None, false, kind);
  }

  lemma RefundForAsks(s: State, op: Op)
    requires op.RefundFor? && Call(s, op).Ok?
    ensures Step(s, op).requests == s.requests
  {
    hide RefundOne;
    RefundOneAsks(s, op.key, op.who, op.kind, op.amount);
  }

  lemma SimpleAsks(s: State, op: Op)
    requires AsksForEnd(s.requests) && Call(s, op).Ok?
    requires !op.Contribute? && !op.RefundFor? && !op.MigratePending? && !op.Refund? && !op.Notification?
    ensures AsksForEnd(Step(s, op).requests)
  {
    hide AmountAt, HasEntries, Ledger.Mint, Ledger.Burn, Ledger.Transfer, State.Current, Changed, Moved;
  }

  lemma StepAsks(s: State, op: Op)
    requires AsksForEnd(s.requests)
    ensures AsksForEnd(Step(s, op).requests)
  {
    hide Call, AsksForEnd;
    if Call(s, op).Ok? {
      if op.MigratePending? || op.Refund? {
        BatchAsks(s, op);
      } else if op.Notification? {
        NotificationAsks(s, op);
      } else if op.Contribute? {
        ContributeAsks(s, op);
      } else if op.RefundFor? {
        RefundForAsks(s, op);
      } else {
        SimpleAsks(s, op);
      }
    }
  }

  /** The vault is there all along. */
  predicate Stays(s: State, ops: seq<Op>, k: VaultKey)
    decreases ops
  {
    k in s.vaults && (ops != [] ==> Stays(Step(s, ops[0]), ops[1..], k))
  }

  /** Over any run, with notifications repeated or late: a vault that has failed or expired never takes
      contributions again; it can only turn from one end to the other until it is dissolved. */
  lemma {:induction false} EndedStaysEnded(s: State, ops: seq<Op>, k: VaultKey)
    requires CrowdInv(s) && AsksForEnd(s.requests) && Stays(s, ops, k) && Ended(s.vaults[k].phase)
    ensures k in Run(s, ops).vaults && Ended(Run(s, ops).vaults[k].phase)
    decreases ops
  {
    hide Step, InStep, TriesApart;
    if ops != [] {
      StepAsks(s, ops[0]);
      StepKeepsInv(s, ops[0]);
      if Step(s, ops[0]).vaults[k].phase != s.vaults[k].phase {
        PhaseMoves(s, ops[0], k);
      }
      EndedStaysEnded(Step(s, ops[0]), ops[1..], k);
    }
  }
}
