/** What is claimed as ctokens and redeemed again, tallied along runs against what vaults hold beyond their entries,
    and the relay token on both chains. */
module CrowdloanClaims {
  import opened Base
  import opened Sums
  import opened Assets
  import opened Crowdloans
  import opened CrowdloanEffects
  import opened CrowdloanRuns

  /** What one step does to the claims on the vault it works on: a claim adds to them, redeeming takes from them,
      nothing else moves them. */
  ghost predicate ClaimsMove(s: State, t: State, k: VaultKey, op: Op)
    requires k in s.vaults && k in t.vaults
  {
    Ahead(t, k, InContributed) == Ahead(s, k, InContributed)
      + (if op.Claim? then AmountAt(s.entries, EntryKey(s.vaults[k].trie, InContributed, op.who)) else 0)
      - (if op.Redeem? then op.amount else 0)
  }

  lemma BatchClaims(s: State, op: Op)
    requires (op.MigratePending? || op.Refund?) && Call(s, op).Ok?
    ensures At(s, op) in s.vaults && At(s, op) in Step(s, op).vaults && ClaimsMove(s, Step(s, op), At(s, op), op)
  {
    hide Enumerates, EnumeratesAll, Balanced, MigrateEach, RefundEach, AllItems, Ahead;
    var k := At(s, op);
    match op
    case MigratePending(_, order) =>
      MigrateEachBalanced(s, k, order[..Min(|order|, s.cfg.migrateLimit)]);
    case Refund(_, c, f, p) =>
      var items := AllItems(c, f, p);
      RefundEachBalanced(s, k, items[..Min(|items|, s.cfg.removeLimit)]);
  }

  lemma NotificationClaims(s: State, op: Op)
    requires op.Notification? && Call(s, op).Ok? && At(s, op) in s.vaults
    ensures At(s, op) in Step(s, op).vaults && ClaimsMove(s, Step(s, op), At(s, op), op)
  {
    if op.id in s.requests {
      RequestedVault(s, op.id, op.executed);
      hide Notify, HeldSum;
      NotifyBalanced(s, op.id, op.executed);
    }
  }

  lemma ClaimClaims(s: State, op: Op)
    requires (op.Claim? || op.WithdrawFor? || op.Redeem?) && Call(s, op).Ok? && At(s, op) in s.vaults
    ensures At(s, op) in Step(s, op).vaults && ClaimsMove(s, Step(s, op), At(s, op), op)
  {
    hide HeldSum, Ledger.Mint, Ledger.Burn;
    if op.Claim? || op.WithdrawFor? {
      var e := EntryKey(s.vaults[op.key].trie, InContributed, op.who);
      EntryGone(s.entries, e);
      SetEntryHeld(s.entries, e, 0, "");
    }
  }

  lemma OtherClaims(s: State, op: Op)
    requires op.UpdateVault? || op.Open? || op.Close? || op.Reopen? || op.AuctionSucceeded? || op.AuctionFailed?
             || op.SlotExpired? || op.CreateVault? || op.Dissolve? || op.SetVrf? || op.UpdateProxy? || op.RelayBlock?
             || op.Transfer?
    requires At(s, op) in s.vaults && At(s, op) in Step(s, op).vaults && Call(s, op).Ok?
    ensures ClaimsMove(s, Step(s, op), At(s, op), op)
  {
    hide HeldSum, HasEntries, Ledger.Transfer;
  }

  lemma StepClaims(s: State, op: Op)
    requires At(s, op) in s.vaults && At(s, op) in Step(s, op).vaults && Call(s, op).Ok?
    ensures ClaimsMove(s, Step(s, op), At(s, op), op)
  {
    if op.Contribute? {
      hide Crowdloans.Contribute, Balanced, Ahead;
      ContributeBalanced(s, op.who, op.para, op.amount, op.code);
    } else if op.RefundFor? {
      hide RefundOne, Balanced, Ahead;
      RefundOneBalanced(s, op.key, op.who, op.kind, op.amount);
    } else {
      hide Call, ClaimsMove;
      if op.MigratePending? || op.Refund? {
        BatchClaims(s, op);
      } else if op.Notification? {
        NotificationClaims(s, op);
      } else if op.Claim? || op.WithdrawFor? || op.Redeem? {
        ClaimClaims(s, op);
      } else {
        OtherClaims(s, op);
      }
    }
  }

  lemma OtherClaimsKept(s: State, op: Op, m: VaultKey)
    requires CrowdInv(s) && m in Step(s, op).vaults && m in s.vaults && (m != At(s, op) || Call(s, op).Err?)
    ensures Ahead(Step(s, op), m, InContributed) == Ahead(s, m, InContributed)
  {
    if Call(s, op).Ok? {
      hide Step, Call, At, Gift, Effect, Ahead, InStep;
      StepEffect(s, op);
      EffectElsewhere(s, Step(s, op), At(s, op), op.CreateVault?, Gift(s, op), m);
    }
  }

  lemma EffectElsewhere(s: State, t: State, k: VaultKey, create: bool, gift: nat, m: VaultKey)
    requires TriesApart(s) && Effect(s, t, k, create, gift) && m in s.vaults && m in t.vaults && m != k
    ensures Ahead(t, m, InContributed) == Ahead(s, m, InContributed)
  {
    hide HeldSum;
    if OnlyVault(s, t, k) {
      OthersKept(s, t, k, m, InContributed);
    }
  }

  lemma NewVaultClaims(s: State, op: Op)
    requires CrowdInv(s) && At(s, op) in Step(s, op).vaults && At(s, op) !in s.vaults
    ensures Ahead(Step(s, op), At(s, op), InContributed) == 0
  {
    hide Step, Call, At, HeldSum, Gift;
    StepEffect(s, op);
    CreatedKeepsInv(s, Step(s, op), At(s, op));
  }

  // ---------- the tally of one asset ----------

  /** What a step turns from entries into ctokens that are the given asset. */
  function ClaimedBy(s: State, op: Op, c: Asset): nat {
    if op.Claim? && Call(s, op).Ok? && op.key in s.vaults && op.key.lease in s.ctokens && s.ctokens[op.key.lease] == c
    then AmountAt(s.entries, EntryKey(s.vaults[op.key].trie, InContributed, op.who)) else 0
  }

  /** What a step turns from ctokens that are the given asset into relay tokens. */
  function RedeemedBy(s: State, op: Op, c: Asset): nat {
    if op.Redeem? && Call(s, op).Ok? && op.key.lease in s.ctokens && s.ctokens[op.key.lease] == c then op.amount else 0
  }

  lemma IdleTally(s: State, t: State, gift: nat, c: Asset)
    requires Idle(s, t, gift)
    ensures Sum(Unclaimed(t, c)) == Sum(Unclaimed(s, c))
  {
    hide Sum, HeldSum;
    assert Unclaimed(t, c) == Unclaimed(s, c);
  }

  lemma CreatedTally(s: State, t: State, k: VaultKey, c: Asset)
    requires CrowdInv(s) && Created(s, t, k)
    ensures Sum(Unclaimed(t, c)) == Sum(Unclaimed(s, c))
  {
    hide Sum, HeldSum, Unclaimed;
    CreatedKeepsInv(s, t, k);
    UnclaimedPut(s, t, k, c);
  }

  lemma DissolvedTally(s: State, t: State, k: VaultKey, c: Asset)
    requires CrowdInv(s) && Dissolved(s, t, k)
    ensures Sum(Unclaimed(t, c)) == Sum(Unclaimed(s, c))
  {
    hide Sum, HeldSum, Unclaimed;
    NoEntries(s.entries, s.vaults[k].trie, InContributed);
    assert s.vaults == t.vaults[k := s.vaults[k]];
    UnclaimedPut(t, s, k, c);
  }

  lemma BalancedTally(s: State, t: State, k: VaultKey, c: Asset)
    requires CrowdInv(s) && Balanced(s, t, k)
    ensures Sum(Unclaimed(t, c)) == Sum(Unclaimed(s, c))
              + (if s.vaults[k].ctoken == c then Ahead(t, k, InContributed) - Ahead(s, k, InContributed) else 0)
  {
    hide Sum, HeldSum, Unclaimed, InStep;
    forall m | m in s.vaults && m != k
      ensures Ahead(t, m, InContributed) == Ahead(s, m, InContributed)
    {
      OthersKept(s, t, k, m, InContributed);
    }
    UnclaimedPut(s, t, k, c);
  }

  /** The call of a claim or a redemption works on the vault it names, which stays. */
  lemma TurningVault(s: State, op: Op)
    requires (op.Claim? || op.Redeem?) && Call(s, op).Ok?
    ensures At(s, op) == op.key && op.key in s.vaults && op.key in Step(s, op).vaults && op.key.lease in s.ctokens
  {
    hide Ledger.Mint, Ledger.Burn;
  }

  lemma TurningTally(s: State, op: Op, c: Asset)
    requires CrowdInv(s) && (op.Claim? || op.Redeem?) && Call(s, op).Ok?
    ensures Sum(Unclaimed(Step(s, op), c)) == Sum(Unclaimed(s, c)) + ClaimedBy(s, op, c) - RedeemedBy(s, op, c)
  {
    TurningVault(s, op);
    InvAgrees(s);
    assert s.ctokens[op.key.lease] == s.vaults[op.key].ctoken;
    hide Step, Call, Target, Ahead, CrowdInv, CTokensAgree, Balanced, Unclaimed, Sum;
    StepClaims(s, op);
    ClaimStep(s, op);
    BalancedTally(s, Step(s, op), op.key, c);
  }

  lemma OtherTally(s: State, op: Op, c: Asset)
    requires CrowdInv(s) && ((!op.Claim? && !op.Redeem?) || Call(s, op).Err?)
    ensures Sum(Unclaimed(Step(s, op), c)) == Sum(Unclaimed(s, c))
  {
    hide Step, Call, At, Balanced, Idle, Created, Dissolved, CrowdInv, Sum, Unclaimed, Gift, Ahead;
    if Call(s, op).Err? {
      FailedStep(s, op);
      IdleTally(s, Step(s, op), Gift(s, op), c);
    } else {
      InvAgrees(s);
      StepEffect(s, op);
      var t, k := Step(s, op), At(s, op);
      if Idle(s, t, Gift(s, op)) {
        IdleTally(s, t, Gift(s, op), c);
      } else if Balanced(s, t, k) {
        BalancedTally(s, t, k, c);
        BalancedAt(s, t, k);
        StepClaims(s, op);
      } else if Created(s, t, k) {
        CreatedTally(s, t, k, c);
      } else {
        DissolvedTally(s, t, k, c);
      }
    }
  }

  lemma BalancedAt(s: State, t: State, k: VaultKey)
    requires Balanced(s, t, k)
    ensures k in s.vaults && k in t.vaults
  {
  }

  lemma StepTally(s: State, op: Op, c: Asset)
    requires CrowdInv(s)
    ensures Sum(Unclaimed(Step(s, op), c)) == Sum(Unclaimed(s, c)) + ClaimedBy(s, op, c) - RedeemedBy(s, op, c)
  {
    hide Step, Call, CrowdInv, Unclaimed, Sum;
    if (op.Claim? || op.Redeem?) && Call(s, op).Ok? {
      TurningTally(s, op, c);
    } else {
      OtherTally(s, op, c);
    }
  }

  function Claimed(s: State, ops: seq<Op>, c: Asset): nat
    decreases ops
  {
    if ops == [] then 0 else ClaimedBy(s, ops[0], c) + Claimed(Step(s, ops[0]), ops[1..], c)
  }

  function Redeemed(s: State, ops: seq<Op>, c: Asset): nat
    decreases ops
  {
    if ops == [] then 0 else RedeemedBy(s, ops[0], c) + Redeemed(Step(s, ops[0]), ops[1..], c)
  }

  /** Over any run, for every asset, the relay token included: what its vaults hold beyond their entries grows by what
      is claimed as this asset and shrinks by what of it is redeemed. */
  lemma {:induction false} RunTally(s: State, ops: seq<Op>, c: Asset)
    requires CrowdInv(s)
    ensures Sum(Unclaimed(Run(s, ops), c)) == Sum(Unclaimed(s, c)) + Claimed(s, ops, c) - Redeemed(s, ops, c)
    decreases ops
  {
    hide Step, CrowdInv, Unclaimed, Sum, ClaimedBy, RedeemedBy;
    if ops != [] {
      StepTally(s, ops[0], c);
      StepKeepsInv(s, ops[0]);
      RunTally(Step(s, ops[0]), ops[1..], c);
    }
  }

  /** From a chain without vaults, for every asset: what is contributed to the vaults with this ctoken is what their
      storages hold plus what was claimed and not redeemed, and that many tokens have been issued beyond what was
      there, less the contributions if it is the relay token. */
  lemma CTokensFromGenesis(s: State, ops: seq<Op>, c: Asset)
    requires s.vaults == map[] && s.entries == map[]
    ensures var t, out := Run(s, ops), Claimed(s, ops, c) - Redeemed(s, ops, c);
            && CrowdInv(t)
            && Sum(Unclaimed(t, c)) == out
            && t.ledger.Issued(c) + (if c == s.cfg.relay then Sum(Contributions(t)) else 0) == s.ledger.Issued(c) + out
  {
    hide Run, Claimed, Redeemed;
    assert Unclaimed(s, c) == map[] && Contributions(s) == map[];
    RunConserves(s, ops, c);
    RunTally(s, ops, c);
    RunKeepsInv(s, ops);
  }

  // ---------- the relay token on both chains ----------

  /** The relay token on both chains together moves by what is claimed as relay tokens less what of that is redeemed,
      so it is conserved exactly when the two are equal. */
  lemma RelayConservedExactly(s: State, ops: seq<Op>)
    requires CrowdInv(s)
    ensures var t, relay := Run(s, ops), s.cfg.relay;
            && t.cfg.relay == relay
            && RelayTotal(t) == RelayTotal(s) + Claimed(s, ops, relay) - Redeemed(s, ops, relay)
            && (RelayTotal(t) == RelayTotal(s) <==> Claimed(s, ops, relay) == Redeemed(s, ops, relay))
  {
    hide Run, Sum, Contributions, Unclaimed, CrowdInv, Claimed, Redeemed;
    RunConserves(s, ops, s.cfg.relay);
    RunTally(s, ops, s.cfg.relay);
    RunKeepsInv(s, ops);
  }

  ghost predicate NoRelayCTokens(s: State) {
    forall lease :: lease in s.ctokens ==> s.ctokens[lease] != s.cfg.relay
  }

  /** The relay token is never made the ctoken of a lease. */
  predicate RelayIsNoCToken(ops: seq<Op>, relay: Asset) {
    forall i :: 0 <= i < |ops| && ops[i].CreateVault? ==> ops[i].ctoken != relay
  }

  lemma StepKeepsNoRelay(s: State, op: Op)
    requires CrowdInv(s) && NoRelayCTokens(s) && (op.CreateVault? ==> op.ctoken != s.cfg.relay)
    ensures NoRelayCTokens(Step(s, op))
  {
    if op.CreateVault? {
    } else {
      hide Step, Call, Gift, Effect;
      StepEffect(s, op);
      EffectKeepsCTokens(s, Step(s, op), At(s, op), Gift(s, op));
    }
  }

  lemma EffectKeepsCTokens(s: State, t: State, k: VaultKey, gift: nat)
    requires Effect(s, t, k, false, gift)
    ensures t.ctokens == s.ctokens && t.cfg == s.cfg
  {
    hide HeldSum;
  }

  lemma {:induction false} RunKeepsNoRelay(s: State, ops: seq<Op>)
    requires CrowdInv(s) && NoRelayCTokens(s) && RelayIsNoCToken(ops, s.cfg.relay)
    ensures NoRelayCTokens(Run(s, ops))
    decreases ops
  {
    hide Step, CrowdInv, NoRelayCTokens;
    if ops != [] {
      StepKeepsInv(s, ops[0]);
      StepKeepsNoRelay(s, ops[0]);
      RunKeepsNoRelay(Step(s, ops[0]), ops[1..]);
    }
  }

  lemma NothingUnclaimed(s: State)
    requires CrowdInv(s) && NoRelayCTokens(s)
    ensures Sum(Unclaimed(s, s.cfg.relay)) == 0
  {
    assert Unclaimed(s, s.cfg.relay) == map[];
  }

  /** In particular it is conserved by every run in which the relay token is never made a ctoken. */
  lemma RelayConserved(s: State, ops: seq<Op>)
    requires CrowdInv(s) && NoRelayCTokens(s) && RelayIsNoCToken(ops, s.cfg.relay)
    ensures RelayTotal(Run(s, ops)) == RelayTotal(s)
  {
    hide Run, Sum, Unclaimed, Contributions, CrowdInv, NoRelayCTokens, Claimed, Redeemed;
    RelayConservedExactly(s, ops);
    RunTally(s, ops, s.cfg.relay);
    RunKeepsInv(s, ops);
    RunKeepsNoRelay(s, ops);
    NothingUnclaimed(s);
    NothingUnclaimed(Run(s, ops));
  }

  // ---------- the relay token as a ctoken ----------

  /** Claiming relay tokens adds them to the total. */
  lemma ClaimMoves(s: State, k: VaultKey, who: UserId, force: bool)
    requires Crowdloans.Claim(s, k, who, force).Ok?
    ensures RelayTotal(Crowdloans.Claim(s, k, who, force).value) == RelayTotal(s)
              + (if s.ctokens[k.lease] == s.cfg.relay
                 then AmountAt(s.entries, EntryKey(s.vaults[k].trie, InContributed, who)) else 0)
  {
    hide Sum, Contributions, Ledger.Mint;
    ContributionsPut(s, Crowdloans.Claim(s, k, who, force).value, k);
  }

  /** Redeeming them takes them off again. */
  lemma RedeemMoves(s: State, k: VaultKey, who: UserId, amount: nat)
    requires Crowdloans.Redeem(s, k, who, amount).Ok?
    ensures RelayTotal(Crowdloans.Redeem(s, k, who, amount).value) == RelayTotal(s)
              - (if s.ctokens[k.lease] == s.cfg.relay then amount else 0)
  {
    hide Sum, Contributions, Ledger.Mint, Ledger.Burn;
    ContributionsPut(s, Crowdloans.Redeem(s, k, who, amount).value, k);
  }
}
