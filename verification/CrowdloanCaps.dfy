/** A vault's total over a run: it grows only by contributions, and stays within its cap. */
module CrowdloanCaps {
  import opened Base
  import opened Assets
  import opened Crowdloans
  import opened CrowdloanEffects
  import opened CrowdloanRuns

  /** How a step treats the total and the cap of the vault it works on. */
  ghost predicate TotalKept(s: State, t: State, k: VaultKey, op: Op)
    requires k in s.vaults && k in t.vaults
  {
    var v, v' := s.vaults[k], t.vaults[k];
    if op.Contribute? then
      s.Current(op.para) == Ok(k) && v'.Total() == v.Total() + op.amount <= v.cap == v'.cap
    else if op.UpdateVault? then
      && s.Current(op.para) == Ok(k) && v'.Total() == v.Total()
      && v'.cap == (if op.newCap.Some? then op.newCap.value else v.cap)
    else if op.MigratePending? || (op.Notification? && op.executed) then v'.Total() == v.Total() && v'.cap == v.cap
    else v'.Total() <= v.Total() && v'.cap == v.cap
  }

  lemma BatchTotals(s: State, op: Op)
    requires (op.MigratePending? || op.Refund?) && Call(s, op).Ok?
    ensures At(s, op) in s.vaults && At(s, op) in Step(s, op).vaults && TotalKept(s, Step(s, op), At(s, op), op)
  {
    hide Enumerates, EnumeratesAll, Balanced, MigrateEach, RefundEach, AllItems;
    var k := At(s, op);
    match op
    case MigratePending(_, order) =>
      MigrateEachBalanced(s, k, order[..Min(|order|, s.cfg.migrateLimit)]);
    case Refund(_, c, f, p) =>
      var items := AllItems(c, f, p);
      RefundEachBalanced(s, k, items[..Min(|items|, s.cfg.removeLimit)]);
  }

  lemma NotificationTotals(s: State, op: Op)
    requires op.Notification? && Call(s, op).Ok? && At(s, op) in s.vaults
    ensures At(s, op) in Step(s, op).vaults && TotalKept(s, Step(s, op), At(s, op), op)
  {
    if op.id in s.requests {
      RequestedVault(s, op.id, op.executed);
      hide Notify, Ahead, HeldSum;
      NotifyBalanced(s, op.id, op.executed);
    }
  }

  lemma PhaseTotals(s: State, op: Op)
    requires op.UpdateVault? || op.Open? || op.Close? || op.Reopen? || op.AuctionSucceeded?
             || op.AuctionFailed? || op.SlotExpired?
    requires At(s, op) in s.vaults && Call(s, op).Ok?
    ensures At(s, op) in Step(s, op).vaults && TotalKept(s, Step(s, op), At(s, op), op)
  {
  }

  lemma ClaimTotals(s: State, op: Op)
    requires (op.Claim? || op.WithdrawFor? || op.Redeem?) && At(s, op) in s.vaults && Call(s, op).Ok?
    ensures At(s, op) in Step(s, op).vaults && TotalKept(s, Step(s, op), At(s, op), op)
  {
    hide Ledger.Mint, Ledger.Burn, Changed, Moved, AmountAt;
  }

  lemma PaymentTotals(s: State, op: Op)
    requires (op.Contribute? || op.RefundFor?) && Call(s, op).Ok?
    requires At(s, op) in s.vaults && At(s, op) in Step(s, op).vaults
    ensures TotalKept(s, Step(s, op), At(s, op), op)
  {
    hide Crowdloans.Contribute, RefundOne, Balanced, Moved, Changed;
    match op
    case Contribute(who, para, amount, code) => ContributeBalanced(s, who, para, amount, code);
    case RefundFor(k, who, kind, amount) => RefundOneBalanced(s, k, who, kind, amount);
  }

  lemma QuietTotals(s: State, op: Op)
    requires op.CreateVault? || op.Dissolve? || op.SetVrf? || op.UpdateProxy? || op.RelayBlock? || op.Transfer?
    requires At(s, op) in s.vaults && At(s, op) in Step(s, op).vaults
    ensures TotalKept(s, Step(s, op), At(s, op), op)
  {
    hide HasEntries, Ledger.Transfer, Moved;
  }

  lemma StepTotals(s: State, op: Op)
    requires CTokensAgree(s) && At(s, op) in s.vaults && At(s, op) in Step(s, op).vaults && Call(s, op).Ok?
    ensures TotalKept(s, Step(s, op), At(s, op), op)
  {
    hide Call, Step, At, TotalKept, CTokensAgree;
    if op.Contribute? || op.RefundFor? {
      PaymentTotals(s, op);
    } else if op.MigratePending? || op.Refund? {
      BatchTotals(s, op);
    } else if op.Notification? {
      NotificationTotals(s, op);
    } else if op.Claim? || op.WithdrawFor? || op.Redeem? {
      ClaimTotals(s, op);
    } else if op.CreateVault? || op.Dissolve? || op.SetVrf? || op.UpdateProxy? || op.RelayBlock? || op.Transfer? {
      QuietTotals(s, op);
    } else {
      PhaseTotals(s, op);
    }
  }

  lemma EffectLeaves(s: State, t: State, k: VaultKey, create: bool, gift: nat, m: VaultKey)
    requires Effect(s, t, k, create, gift) && m in t.vaults && m != k
    ensures m in s.vaults && t.vaults[m] == s.vaults[m]
  {
    hide HeldSum, Accounted, Ahead;
  }

  /** A vault that is not the target of a step is left alone. */
  lemma OtherVaults(s: State, op: Op, k: VaultKey)
    requires CTokensAgree(s) && k in Step(s, op).vaults && (k != At(s, op) || Call(s, op).Err?)
    ensures k in s.vaults && Step(s, op).vaults[k] == s.vaults[k]
  {
    if Call(s, op).Ok? {
      hide Step, Call, At, Gift, Effect;
      StepEffect(s, op);
      EffectLeaves(s, Step(s, op), At(s, op), op.CreateVault?, Gift(s, op), k);
    }
  }

  /** Only a contribution raises the total of a vault, by its amount and within the cap. */
  lemma GrowsOnlyByContribution(s: State, op: Op, k: VaultKey)
    requires CTokensAgree(s) && k in s.vaults && k in Step(s, op).vaults
    requires Step(s, op).vaults[k].Total() > s.vaults[k].Total()
    ensures op.Contribute? && s.Current(op.para) == Ok(k)
    ensures Step(s, op).vaults[k].Total() == s.vaults[k].Total() + op.amount <= s.vaults[k].cap
  {
    hide Step, Call;
    if k != At(s, op) || Call(s, op).Err? {
      OtherVaults(s, op, k);
    } else {
      StepTotals(s, op);
    }
  }

  ghost predicate WithinCap(s: State) {
    forall k :: k in s.vaults ==> s.vaults[k].Total() <= s.vaults[k].cap
  }

  /** The call does not set a cap below the vault's total. */
  predicate CapReaches(s: State, op: Op) {
    op.UpdateVault? && op.newCap.Some? && s.Current(op.para).Ok?
    ==> s.vaults[s.Current(op.para).value].Total() <= op.newCap.value
  }

  lemma StepWithinCap(s: State, op: Op)
    requires CTokensAgree(s) && WithinCap(s) && CapReaches(s, op)
    ensures WithinCap(Step(s, op))
  {
    hide Step, Call, HeldSum, CTokensAgree, Gift;
    var t := Step(s, op);
    forall k | k in t.vaults
      ensures t.vaults[k].Total() <= t.vaults[k].cap
    {
      if k != At(s, op) || Call(s, op).Err? {
        OtherVaults(s, op, k);
      } else if k in s.vaults {
        StepTotals(s, op);
      } else {
        StepEffect(s, op);
      }
    }
  }

  /** Lowering a cap breaks the bound exactly when the new cap is below the total. */
  lemma LoweringTheCap(s: State, op: Op)
    requires CTokensAgree(s) && WithinCap(s) && op.UpdateVault? && Call(s, op).Ok?
    ensures WithinCap(Step(s, op)) <==> CapReaches(s, op)
  {
    if CapReaches(s, op) {
      StepWithinCap(s, op);
    } else {
      var k := s.Current(op.para).value;
      assert Step(s, op).vaults[k].Total() == s.vaults[k].Total();
    }
  }

  predicate CapsReach(s: State, ops: seq<Op>)
    decreases ops
  {
    ops != [] ==> CapReaches(s, ops[0]) && CapsReach(Step(s, ops[0]), ops[1..])
  }

  /** Every vault stays within its cap over any run that never sets a cap below a total. */
  lemma {:induction false} RunWithinCap(s: State, ops: seq<Op>)
    requires CrowdInv(s) && WithinCap(s) && CapsReach(s, ops)
    ensures WithinCap(Run(s, ops))
    decreases ops
  {
    hide Step, CapReaches, WithinCap, InStep, TriesApart;
    if ops != [] {
      StepWithinCap(s, ops[0]);
      StepKeepsInv(s, ops[0]);
      RunWithinCap(Step(s, ops[0]), ops[1..]);
    }
  }

  /** No call lowers a cap. */
  predicate CapsOnlyRaised(s: State, ops: seq<Op>)
    decreases ops
  {
    ops != [] ==>
      && (ops[0].UpdateVault? && ops[0].newCap.Some? && s.Current(ops[0].para).Ok?
          ==> s.vaults[s.Current(ops[0].para).value].cap <= ops[0].newCap.value)
      && CapsOnlyRaised(Step(s, ops[0]), ops[1..])
  }

  lemma {:induction false} RaisedCapsReach(s: State, ops: seq<Op>)
    requires CrowdInv(s) && WithinCap(s) && CapsOnlyRaised(s, ops)
    ensures CapsReach(s, ops)
    decreases ops
  {
    hide Step, InStep, TriesApart;
    if ops != [] {
      StepWithinCap(s, ops[0]);
      StepKeepsInv(s, ops[0]);
      RaisedCapsReach(Step(s, ops[0]), ops[1..]);
    }
  }
}
