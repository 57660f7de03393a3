/** Out of which vaults relay tokens are minted, and when; and that a parachain has one vault at a time. */
module CrowdloanPayouts {
  import opened Base
  import opened Assets
  import opened Crowdloans
  import opened CrowdloanEffects
  import opened CrowdloanRuns
  import opened CrowdloanClaims
  import opened CrowdloanCaps
  import opened CrowdloanBatches
  import opened CrowdloanProgress
  import opened CrowdloanPhases

  // ---------- what a vault has contributed ----------

  /** What a notification confirms for a vault. */
  function ConfirmedBy(s: State, op: Op, k: VaultKey): nat {
    if op.Notification? && op.executed && op.id in s.requests && Call(s, op).Ok? then
      match s.requests[op.id]
      case Contribution(key, _, amount, _) => if key == k then amount else 0
      case Withdrawal(_, _, _) => 0
    else 0
  }

  /** The batch a refund works off. */
  function Batch(s: State, op: Op): seq<Item>
    requires op.Refund?
  {
    var items := AllItems(op.contributed, op.flying, op.pending);
    items[..Min(|items|, s.cfg.removeLimit)]
  }

  /** What a call pays back out of what a vault has contributed: a refund of a batch while the vault is closed or has
      failed, a single refund while it is closed, a withdrawal once it has failed, and ctokens once it has expired.
      Nothing is paid in any other phase. */
  function PaidBack(s: State, op: Op, k: VaultKey): nat
    requires k in s.vaults
  {
    var v := s.vaults[k];
    if Call(s, op).Err? then 0 else
      match op
      case Refund(key, _, _, _) =>
        if key == k && v.phase in {Closed, Failed} then MintedBack(s.entries, v.trie, Batch(s, op)) else 0
      case RefundFor(key, _, kind, amount) =>
        if key == k && kind == InContributed && v.phase == Closed then amount else 0
      case WithdrawFor(key, who) =>
        if key == k && v.phase == Failed then AmountAt(s.entries, EntryKey(v.trie, InContributed, who)) else 0
      case Redeem(key, _, amount) =>
        if key == k && v.phase == Expired then amount else 0
      case _ => 0
  }

  ghost predicate Contributed(s: State, t: State, k: VaultKey, confirmed: nat, paid: nat)
    requires k in s.vaults && k in t.vaults
  {
    t.vaults[k].contributed == s.vaults[k].contributed + confirmed - paid
  }

  lemma {:induction false} RefundEachContributed(s: State, k: VaultKey, items: seq<Item>, i: nat)
    requires k in s.vaults && i <= |items| && EnumeratesItems(items, s.entries, s.vaults[k].trie)
    requires RefundEach(s, k, items[..i]).Ok?
    ensures Contributed(s, RefundEach(s, k, items[..i]).value, k, 0, MintedBack(s.entries, s.vaults[k].trie, items[..i]))
    decreases i
  {
    hide RefundOne, EnumeratesItems;
    if i > 0 {
      var trie, front, item := s.vaults[k].trie, items[..i - 1], items[i - 1];
      assert items[..i][..i - 1] == front && items[..i][i - 1] == item;
      RefundEachContributed(s, k, items, i - 1);
      var before := RefundEach(s, k, front).value;
      RefundEachRemoves(s, k, items, i - 1);
      NextKept(items[i - 1..], before.entries, s.entries, trie);
      RefundOneContributed(before, k, item.1, item.0, AmountAt(before.entries, KeyOf(trie, item)));
    }
  }

  lemma MigrateOneContributed(s: State, k: VaultKey, who: UserId)
    requires k in s.vaults && MigrateOne(s, k, who).Ok?
    ensures k in MigrateOne(s, k, who).value.vaults && Contributed(s, MigrateOne(s, k, who).value, k, 0, 0)
  {
    hide SetEntry;
  }

  lemma {:induction false} MigrateEachContributed(s: State, k: VaultKey, order: seq<UserId>)
    requires k in s.vaults && MigrateEach(s, k, order).Ok?
    ensures Contributed(s, MigrateEach(s, k, order).value, k, 0, 0)
    decreases |order|
  {
    hide MigrateOne;
    if order != [] {
      MigrateEachContributed(s, k, order[..|order| - 1]);
      MigrateOneContributed(MigrateEach(s, k, order[..|order| - 1]).value, k, order[|order| - 1]);
    }
  }

  lemma BatchContributed(s: State, op: Op)
    requires (op.MigratePending? || op.Refund?) && Call(s, op).Ok?
    ensures At(s, op) in s.vaults && At(s, op) in Step(s, op).vaults
    ensures Contributed(s, Step(s, op), At(s, op), 0, PaidBack(s, op, At(s, op)))
  {
    hide Enumerates, EnumeratesAll, MigrateEach, RefundEach, AllItems, EnumeratesItems, MintedBack;
    var k := At(s, op);
    match op
    case MigratePending(_, order) =>
      MigrateEachContributed(s, k, order[..Min(|order|, s.cfg.migrateLimit)]);
    case Refund(_, c, f, p) =>
      var items := AllItems(c, f, p);
      AllItemsEnumerate(s, k, c, f, p);
      RefundEachContributed(s, k, items, Min(|items|, s.cfg.removeLimit));
  }

  lemma ConfirmContributed(s: State, k: VaultKey, who: UserId, amount: nat)
    requires Confirm(s, k, who, amount).Ok?
    ensures k in s.vaults && k in Confirm(s, k, who, amount).value.vaults
    ensures Contributed(s, Confirm(s, k, who, amount).value, k, amount, 0)
  {
    hide SetEntry, Ledger.Burn;
  }

  lemma RefuseContributed(s: State, k: VaultKey, who: UserId, amount: nat)
    requires Refuse(s, k, who, amount).Ok?
    ensures k in s.vaults && k in Refuse(s, k, who, amount).value.vaults
    ensures Contributed(s, Refuse(s, k, who, amount).value, k, 0, 0)
  {
    hide SetEntry, Ledger.Transfer;
  }

  lemma NotificationContributed(s: State, op: Op)
    requires op.Notification? && Call(s, op).Ok? && At(s, op) in s.vaults && At(s, op) in Step(s, op).vaults
    ensures Contributed(s, Step(s, op), At(s, op), ConfirmedBy(s, op, At(s, op)), 0)
  {
    hide Confirm, Refuse;
    if op.id in s.requests && s.requests[op.id].Contribution? {
      var request := s.requests[op.id];
      if op.executed {
        ConfirmContributed(s, request.key, request.who, request.amount);
      } else {
        RefuseContributed(s, request.key, request.who, request.amount);
      }
    }
  }

  lemma ContributeContributed(s: State, op: Op)
    requires op.Contribute? && Call(s, op).Ok?
    ensures At(s, op) in s.vaults && At(s, op) in Step(s, op).vaults && Contributed(s, Step(s, op), At(s, op), 0, 0)
  {
    hide Update, Ledger.Transfer, HeldSum;
    var k := s.Current(op.para).value;
    var l := s.ledger.Transfer(s.cfg.relay, User(op.who), CrowdloanPot, op.amount).value;
    var kind := if s.vaults[k].phase == Contributing then InFlying else InPending;
    UpdateEffect(s.(ledger := l), k, op.who, op.amount, Some(op.code), true, kind);
  }

  lemma RefundForContributed(s: State, op: Op)
    requires op.RefundFor? && Call(s, op).Ok?
    ensures At(s, op) in s.vaults && At(s, op) in Step(s, op).vaults
    ensures Contributed(s, Step(s, op), At(s, op), 0, PaidBack(s, op, At(s, op)))
  {
    hide RefundOne, Balanced;
    RefundOneContributed(s, op.key, op.who, op.kind, op.amount);
    RefundOneBalanced(s, op.key, op.who, op.kind, op.amount);
    BalancedThere(s, Step(s, op), op.key);
  }

  lemma ClaimContributed(s: State, op: Op)
    requires (op.Claim? || op.WithdrawFor? || op.Redeem?) && Call(s, op).Ok?
    ensures At(s, op) in s.vaults && At(s, op) in Step(s, op).vaults
    ensures Contributed(s, Step(s, op), At(s, op), 0, PaidBack(s, op, At(s, op)))
  {
    hide Ledger.Mint, Ledger.Burn, Changed, Moved, AmountAt;
  }

  lemma OtherContributed(s: State, op: Op)
    requires op.UpdateVault? || op.Open? || op.Close? || op.Reopen? || op.AuctionSucceeded? || op.AuctionFailed?
             || op.SlotExpired? || op.CreateVault? || op.Dissolve? || op.SetVrf? || op.UpdateProxy? || op.RelayBlock?
             || op.Transfer?
    requires Call(s, op).Ok? && At(s, op) in s.vaults && At(s, op) in Step(s, op).vaults
    ensures Contributed(s, Step(s, op), At(s, op), 0, 0)
  {
    hide HasEntries, Ledger.Transfer, Moved;
  }

  lemma Unpaid(s: State, op: Op, k: VaultKey)
    requires k in s.vaults
    ensures k != At(s, op) || Call(s, op).Err? ==> ConfirmedBy(s, op, k) == 0 && PaidBack(s, op, k) == 0
    ensures !op.Notification? ==> ConfirmedBy(s, op, k) == 0
    ensures !op.Refund? && !op.RefundFor? && !op.WithdrawFor? && !op.Redeem? ==> PaidBack(s, op, k) == 0
  {
    hide Call, MintedBack, Batch;
  }

  lemma StepAt(s: State, op: Op)
    requires Call(s, op).Ok? && At(s, op) in s.vaults && At(s, op) in Step(s, op).vaults
    ensures Contributed(s, Step(s, op), At(s, op), ConfirmedBy(s, op, At(s, op)), PaidBack(s, op, At(s, op)))
  {
    hide Call, Step, At, ConfirmedBy, PaidBack, Contributed;
    Unpaid(s, op, At(s, op));
    if op.MigratePending? || op.Refund? {
      BatchContributed(s, op);
    } else if op.Notification? {
      NotificationContributed(s, op);
    } else if op.Contribute? {
      ContributeContributed(s, op);
    } else if op.RefundFor? {
      RefundForContributed(s, op);
    } else if op.Claim? || op.WithdrawFor? || op.Redeem? {
      ClaimContributed(s, op);
    } else {
      OtherContributed(s, op);
    }
  }

  /** One step: what a vault has contributed grows by what is confirmed, and falls by what is paid back in a phase that
      allows it. */
  lemma StepContributed(s: State, op: Op, k: VaultKey)
    requires CTokensAgree(s) && k in s.vaults && k in Step(s, op).vaults
    ensures Contributed(s, Step(s, op), k, ConfirmedBy(s, op, k), PaidBack(s, op, k))
  {
    hide Call, Step, ConfirmedBy, PaidBack;
    Unpaid(s, op, k);
    if k != At(s, op) || Call(s, op).Err? {
      OtherVaults(s, op, k);
    } else {
      StepAt(s, op);
    }
  }

  function Confirmed(s: State, ops: seq<Op>, k: VaultKey): nat
    decreases ops
  {
    if ops == [] then 0 else ConfirmedBy(s, ops[0], k) + Confirmed(Step(s, ops[0]), ops[1..], k)
  }

  function PaidOut(s: State, ops: seq<Op>, k: VaultKey): nat
    requires Stays(s, ops, k)
    decreases ops
  {
    if ops == [] then 0 else PaidBack(s, ops[0], k) + PaidOut(Step(s, ops[0]), ops[1..], k)
  }

  /** Over any run: what a vault has contributed is what was confirmed for it, less what was refunded while it was closed
      or had failed, withdrawn once it had failed, and redeemed once it had expired. */
  lemma {:induction false} RunContributed(s: State, ops: seq<Op>, k: VaultKey)
    requires CrowdInv(s) && Stays(s, ops, k)
    ensures k in Run(s, ops).vaults
    ensures Contributed(s, Run(s, ops), k, Confirmed(s, ops, k), PaidOut(s, ops, k))
    decreases ops
  {
    hide Step, ConfirmedBy, PaidBack, InStep, TriesApart;
    if ops != [] {
      StepKeepsInv(s, ops[0]);
      StepContributed(s, ops[0], k);
      RunContributed(Step(s, ops[0]), ops[1..], k);
    }
  }

  /** Every call of a run finds the vault in one of these phases. */
  predicate StaysIn(s: State, ops: seq<Op>, k: VaultKey, phases: set<Phase>)
    decreases ops
  {
    && k in s.vaults
    && (ops != [] ==> s.vaults[k].phase in phases && StaysIn(Step(s, ops[0]), ops[1..], k, phases))
  }

  lemma {:induction false} RunningPays(s: State, ops: seq<Op>, k: VaultKey)
    requires StaysIn(s, ops, k, {Pending, Contributing, Succeeded})
    ensures Stays(s, ops, k) && PaidOut(s, ops, k) == 0
    decreases ops
  {
    hide Step, Call, MintedBack, Batch;
    if ops != [] {
      RunningPays(Step(s, ops[0]), ops[1..], k);
    }
  }

  /** While a vault is pending, contributing or succeeded, whatever is called, nothing that it has contributed is paid
      out. */
  lemma KeptWhileRunning(s: State, ops: seq<Op>, k: VaultKey)
    requires CrowdInv(s) && StaysIn(s, ops, k, {Pending, Contributing, Succeeded})
    ensures k in Run(s, ops).vaults
    ensures Run(s, ops).vaults[k].contributed == s.vaults[k].contributed + Confirmed(s, ops, k)
  {
    hide Run, Confirmed, PaidOut, CrowdInv;
    RunningPays(s, ops, k);
    RunContributed(s, ops, k);
  }

  // ---------- the relay token ----------

  function MintedBy(s: State, op: Op): nat {
    if At(s, op) in s.vaults then PaidBack(s, op, At(s, op)) else 0
  }

  function BurntBy(s: State, op: Op): nat {
    if At(s, op) in s.vaults then ConfirmedBy(s, op, At(s, op)) else 0
  }

  lemma EffectIssued(s: State, t: State, k: VaultKey, create: bool, gift: nat, confirmed: nat, paid: nat)
    requires Effect(s, t, k, create, gift) && CTokensAgree(s) && NoRelayCTokens(s)
    requires k in s.vaults && k in t.vaults ==> Contributed(s, t, k, confirmed, paid)
    requires !(k in s.vaults && k in t.vaults) ==> confirmed == 0 && paid == 0
    ensures t.ledger.Issued(s.cfg.relay) == s.ledger.Issued(s.cfg.relay) + paid - confirmed
  {
    hide HeldSum, HasEntries;
    if !create && !Idle(s, t, gift) && Balanced(s, t, k) {
      assert Accounted(t, k, s.cfg.relay) == Accounted(s, k, s.cfg.relay);
    }
  }

  lemma GoneUnpaid(s: State, op: Op)
    requires At(s, op) in s.vaults && At(s, op) !in Step(s, op).vaults
    ensures ConfirmedBy(s, op, At(s, op)) == 0 && PaidBack(s, op, At(s, op)) == 0
  {
    hide Call, ConfirmedBy, PaidBack, Contributed, At;
    Unpaid(s, op, At(s, op));
    if Call(s, op).Ok? {
      hide Step;
      if op.Refund? {
        BatchContributed(s, op);
      } else if op.Notification? {
        NotificationPhase(s, op);
      } else if op.RefundFor? {
        RefundForContributed(s, op);
      } else if op.WithdrawFor? || op.Redeem? {
        ClaimContributed(s, op);
      }
    }
  }

  lemma BalancedThere(s: State, t: State, k: VaultKey)
    requires Balanced(s, t, k)
    ensures k in t.vaults
  {
  }

  /** One step: relay tokens are minted exactly by what is paid back out of a vault in a phase that allows it, and burnt
      exactly by what is confirmed. */
  lemma StepIssued(s: State, op: Op)
    requires CrowdInv(s) && NoRelayCTokens(s)
    ensures Step(s, op).ledger.Issued(s.cfg.relay) == s.ledger.Issued(s.cfg.relay) + MintedBy(s, op) - BurntBy(s, op)
  {
    hide Step, Call, At, Effect, PaidBack, ConfirmedBy, Contributed, Gift, TriesApart, InStep;
    var k, t := At(s, op), Step(s, op);
    StepEffect(s, op);
    if k in s.vaults && k in t.vaults {
      StepContributed(s, op, k);
    } else if k in s.vaults {
      GoneUnpaid(s, op);
    }
    EffectIssued(s, t, k, op.CreateVault? && Call(s, op).Ok?, Gift(s, op), BurntBy(s, op), MintedBy(s, op));
  }

  function Minted(s: State, ops: seq<Op>): nat
    decreases ops
  {
    if ops == [] then 0 else MintedBy(s, ops[0]) + Minted(Step(s, ops[0]), ops[1..])
  }

  function Burnt(s: State, ops: seq<Op>): nat
    decreases ops
  {
    if ops == [] then 0 else BurntBy(s, ops[0]) + Burnt(Step(s, ops[0]), ops[1..])
  }

  /** Over any run: every relay token minted was paid back out of a vault that was closed, had failed or had expired, and
      for ctokens only out of one that had expired. */
  lemma {:induction false} RunIssued(s: State, ops: seq<Op>)
    requires CrowdInv(s) && NoRelayCTokens(s) && RelayIsNoCToken(ops, s.cfg.relay)
    ensures Run(s, ops).ledger.Issued(s.cfg.relay) == s.ledger.Issued(s.cfg.relay) + Minted(s, ops) - Burnt(s, ops)
    decreases ops
  {
    hide Step, MintedBy, BurntBy, CrowdInv, NoRelayCTokens;
    if ops != [] {
      StepIssued(s, ops[0]);
      StepKeepsInv(s, ops[0]);
      StepKeepsNoRelay(s, ops[0]);
      SameRelay(s, ops[0]);
      RunIssued(Step(s, ops[0]), ops[1..]);
    }
  }

  lemma SameRelay(s: State, op: Op)
    requires CrowdInv(s)
    ensures Step(s, op).cfg == s.cfg
  {
    hide Step, Call, Gift, At, InStep, TriesApart;
    StepEffect(s, op);
    EffectKeepsCfg(s, Step(s, op), At(s, op), op.CreateVault? && Call(s, op).Ok?, Gift(s, op));
  }

  lemma EffectKeepsCfg(s: State, t: State, k: VaultKey, create: bool, gift: nat)
    requires Effect(s, t, k, create, gift)
    ensures t.cfg == s.cfg
  {
    hide HeldSum, HasEntries;
  }

  // ---------- one vault at a time ----------

  predicate Live(s: State, k: VaultKey) {
    k in s.vaults && !Ended(s.vaults[k].phase)
  }

  /** Every vault that has not ended is the current one of its parachain. */
  ghost predicate OneLive(s: State) {
    forall k :: Live(s, k) ==> k.para in s.leases && s.leases[k.para] == k.lease
  }

  lemma CreationWaits(s: State, op: Op, k: VaultKey)
    requires op.CreateVault? && Call(s, op).Ok? && OneLive(s) && k in s.vaults && k.para == op.para
    ensures Ended(s.vaults[k].phase)
  {
  }

  lemma EffectLive(s: State, t: State, k: VaultKey, create: bool, gift: nat, m: VaultKey)
    requires Effect(s, t, k, create, gift) && m in t.vaults
    requires m in s.vaults ==> m.para in s.leases && s.leases[m.para] == m.lease
    requires create && m.para == k.para ==> m == k
    ensures m.para in t.leases && t.leases[m.para] == m.lease
  {
    hide HeldSum, Accounted, Ahead, HasEntries;
  }

  lemma LiveBefore(s: State, op: Op, k: VaultKey)
    requires CrowdInv(s) && AsksForEnd(s.requests) && k in s.vaults && k in Step(s, op).vaults
    requires !Ended(Step(s, op).vaults[k].phase)
    ensures !Ended(s.vaults[k].phase)
  {
    hide Step, Call, InStep, TriesApart;
    if Step(s, op).vaults[k].phase != s.vaults[k].phase {
      PhaseMoves(s, op, k);
    }
  }

  lemma StepKeepsOneLive(s: State, op: Op)
    requires CrowdInv(s) && AsksForEnd(s.requests) && OneLive(s)
    ensures OneLive(Step(s, op))
  {
    hide Step, Call, At, Effect, Gift, InStep, TriesApart, AsksForEnd;
    var t, create := Step(s, op), op.CreateVault? && Call(s, op).Ok?;
    StepEffect(s, op);
    forall k | Live(t, k)
      ensures k.para in t.leases && t.leases[k.para] == k.lease
    {
      if k in s.vaults {
        LiveBefore(s, op, k);
        if create && k.para == op.para {
          CreationWaits(s, op, k);
        }
      }
      if create {
        CreatesAt(s, op);
      }
      if k !in s.vaults && k != At(s, op) {
        OtherVaults(s, op, k);
      }
      EffectLive(s, t, At(s, op), create, Gift(s, op), k);
    }
  }

  lemma CreatesAt(s: State, op: Op)
    requires op.CreateVault?
    ensures At(s, op) == VaultKey(op.para, op.lease)
  {
  }

  /** In every reachable state a parachain has at most one vault that has not failed or expired, and it is the current
      one. */
  lemma {:induction false} RunKeepsOneLive(s: State, ops: seq<Op>, k: VaultKey, m: VaultKey)
    requires CrowdInv(s) && AsksForEnd(s.requests) && OneLive(s)
    ensures OneLive(Run(s, ops))
    ensures var t := Run(s, ops);
            Live(t, k) && Live(t, m) && k.para == m.para ==> k == m && t.Current(k.para) == Ok(k)
    decreases ops
  {
    hide Step, CrowdInv, AsksForEnd;
    if ops != [] {
      hide OneLive;
      StepKeepsOneLive(s, ops[0]);
      StepKeepsInv(s, ops[0]);
      StepAsks(s, ops[0]);
      RunKeepsOneLive(Step(s, ops[0]), ops[1..], k, m);
    }
  }
}
