/** When the calls on crowdloan vaults succeed, exactly, and what they make of a vault's terms, its phase and the codes
    of its contributors. */
module CrowdloanOutcomes {
  import opened Base
  import opened Assets
  import opened Crowdloans
  import opened CrowdloanEffects
  import opened CrowdloanRuns
  import opened CrowdloanBatches
  import opened CrowdloanProgress

  // ---------- claims ----------

  /** The lease has a ctoken, the vault exists and has expired, and the amount is within what the caller holds of the
      ctoken and what the vault has contributed. */
  predicate Redeemable(s: State, k: VaultKey, who: UserId, amount: nat) {
    && k.lease in s.ctokens && k in s.vaults && s.vaults[k].phase == Expired
    && amount <= s.ledger.Balance(s.ctokens[k.lease], User(who))
    && amount <= s.vaults[k].contributed
  }

  /** Redeeming succeeds exactly then. */
  lemma RedeemSucceeds(s: State, k: VaultKey, who: UserId, amount: nat)
    ensures Crowdloans.Redeem(s, k, who, amount).Ok? ==> Redeemable(s, k, who, amount)
    ensures Funded(s) && Redeemable(s, k, who, amount) ==> Crowdloans.Redeem(s, k, who, amount).Ok?
  {
    hide Ledger.Mint, Ledger.Burn, Funded;
    if Funded(s) && k in s.vaults && k.lease in s.ctokens {
      VaultWithin(s, k);
      FundedBacked(s);
      Owned(s.ledger, s.ctokens[k.lease], who);
    }
  }

  lemma Owned(l: Ledger, a: Asset, who: UserId)
    requires Backed(l)
    ensures l.Balance(a, User(who)) <= l.Issued(a)
  {
    TwoHolders(l, a, User(who), CrowdloanPot);
  }

  /** The lease has a ctoken, the vault exists and has succeeded (or the call is forced), the caller has contributed, and
      the ctokens can still be issued. */
  predicate Claimable(s: State, k: VaultKey, who: UserId, force: bool) {
    && k.lease in s.ctokens && k in s.vaults && (force || s.vaults[k].phase == Succeeded)
    && var amount := AmountAt(s.entries, EntryKey(s.vaults[k].trie, InContributed, who));
       0 < amount && s.ledger.Issued(s.ctokens[k.lease]) + amount <= U128_MAX
  }

  /** Claiming succeeds exactly then. */
  lemma ClaimSucceeds(s: State, k: VaultKey, who: UserId, force: bool)
    ensures Crowdloans.Claim(s, k, who, force).Ok? <==> Claimable(s, k, who, force)
  {
    hide Ledger.Mint;
  }

  /** Withdrawing succeeds exactly if the vault exists and has failed, and its contributions cover the caller's. */
  lemma WithdrawForSucceeds(s: State, k: VaultKey, who: UserId)
    requires Funded(s)
    ensures Crowdloans.WithdrawFor(s, k, who).Ok? <==>
              && k in s.vaults && s.vaults[k].phase == Failed
              && 0 < AmountAt(s.entries, EntryKey(s.vaults[k].trie, InContributed, who)) <= s.vaults[k].contributed
  {
    hide Funded;
    if k in s.vaults && s.vaults[k].phase == Failed {
      WithdrawSucceeds(s, k, who);
    }
  }

  // ---------- contributing ----------

  /** The parachain has a current vault that takes contributions, its end block is not past, no draw is in progress, the
      amount is at least the minimum, something, owned by the caller and within the cap, and a proxy is set where one
      is needed. */
  predicate Acceptable(s: State, who: UserId, para: ParaId, amount: nat) {
    && s.Current(para).Ok?
    && var v := s.vaults[s.Current(para).value];
       && (v.phase == Pending || (v.phase == Contributing && (v.strategy == XcmProxy ==> s.hasProxy)))
       && s.relayNow <= v.endBlock && !s.isVrf
       && 0 < amount && s.cfg.minContribution <= amount <= s.ledger.Balance(s.cfg.relay, User(who))
       && v.Total() + amount <= Min(v.cap, U128_MAX)
  }

  /** Contributing succeeds exactly then. */
  lemma ContributeSucceeds(s: State, who: UserId, para: ParaId, amount: nat, code: Code)
    requires CrowdInv(s)
    ensures Crowdloans.Contribute(s, who, para, amount, code).Ok? <==> Acceptable(s, who, para, amount)
  {
    hide Update, Ledger.Transfer, CrowdInv, State.Current;
    if s.Current(para).Ok? {
      CurrentIsThere(s, para);
      var k := s.Current(para).value;
      var v := s.vaults[k];
      EntriesWithinTotal(s, k, who);
      if amount <= s.ledger.Balance(s.cfg.relay, User(who)) {
        var l := s.ledger.Transfer(s.cfg.relay, User(who), CrowdloanPot, amount).value;
        UpdateSucceeds(s.(ledger := l), k, who, amount, Some(code), true, InFlying);
        UpdateSucceeds(s.(ledger := l), k, who, amount, Some(code), true, InPending);
      }
    }
  }

  lemma CurrentIsThere(s: State, para: ParaId)
    requires s.Current(para).Ok?
    ensures s.Current(para).value in s.vaults && s.Current(para).value.para == para
  {
  }

  lemma EntriesWithinTotal(s: State, k: VaultKey, who: UserId)
    requires CrowdInv(s) && k in s.vaults
    ensures AmountAt(s.entries, EntryKey(s.vaults[k].trie, InPending, who)) <= s.vaults[k].pending
    ensures AmountAt(s.entries, EntryKey(s.vaults[k].trie, InFlying, who)) <= s.vaults[k].flying
  {
    hide HeldSum, TriesApart, CTokensAgree;
    EntryWithin(s.entries, EntryKey(s.vaults[k].trie, InPending, who));
    EntryWithin(s.entries, EntryKey(s.vaults[k].trie, InFlying, who));
    assert Ahead(s, k, InPending) == 0 && Ahead(s, k, InFlying) == 0;
  }

  /** A contribution is added to the caller's entry under the code given last: to the flying ones with a request to the
      relay chain while the vault is contributing, to the pending ones without one before. */
  lemma ContributeStores(s: State, who: UserId, para: ParaId, amount: nat, code: Code)
    requires Crowdloans.Contribute(s, who, para, amount, code).Ok?
    ensures var t, k := Crowdloans.Contribute(s, who, para, amount, code).value, s.Current(para).value;
            var now := s.vaults[k].phase == Contributing;
            var e := EntryKey(s.vaults[k].trie, if now then InFlying else InPending, who);
            && t.entries == s.entries[e := Entry(AmountAt(s.entries, e) + amount, code)]
            && t.requests == (if now then s.requests[s.nextQuery := Contribution(k, who, amount, code)] else s.requests)
            && t.nextQuery == s.nextQuery + (if now then 1 else 0)
  {
    hide Ledger.Transfer;
  }

  /** What a contributor is entered with first stays with the money: a pending entry takes its code along when it is
      migrated, and a flying one when it is confirmed. */
  lemma MigrateTakesCode(s: State, k: VaultKey, who: UserId, amount: nat, from: Kind, to: Kind)
    requires k in s.vaults && from != to && amount > 0 && Migrate(s, k, who, amount, from, to).Ok?
    ensures var t, trie := Migrate(s, k, who, amount, from, to).value, s.vaults[k].trie;
            var f, e := EntryKey(trie, from, who), EntryKey(trie, to, who);
            && e in t.entries && t.entries[e] == Entry(AmountAt(s.entries, e) + amount, CodeAt(s.entries, f))
            && (f in t.entries ==> t.entries[f] == Entry(AmountAt(s.entries, f) - amount, CodeAt(s.entries, f)))
  {
  }

  // ---------- batches and refunds ----------

  /** Migrating succeeds exactly if the parachain has a current vault that takes contributions, no draw is in progress,
      and a proxy is set where one is needed and there is something to migrate. */
  lemma MigrateSucceeds(s: State, para: ParaId, order: seq<UserId>)
    requires CrowdInv(s)
    requires s.Current(para).Ok? ==> Waiting(s.vaults[s.Current(para).value]) <= U128_MAX
    ensures Crowdloans.MigratePending(s, para, order).Ok? <==>
              && s.Current(para).Ok? && !s.isVrf
              && var v := s.vaults[s.Current(para).value];
                 && v.phase in {Contributing, Pending}
                 && (order == [] || s.cfg.migrateLimit == 0 || v.strategy == Xcm || s.hasProxy)
  {
    hide MigrateEach, CrowdInv;
    if s.Current(para).Ok? {
      var n: nat := Min(|order|, s.cfg.migrateLimit);
      MigrateEachSucceeds(s, s.Current(para).value, order[..n]);
    }
  }

  /** Refunding a batch succeeds exactly if the vault exists, is closed or has failed, and its contributions cover the
      contributed entries of the batch. */
  lemma RefundSucceedsExactly(s: State, k: VaultKey, c: seq<UserId>, f: seq<UserId>, p: seq<UserId>)
    requires Funded(s) && (k in s.vaults ==> EnumeratesAll(s, k, c, f, p))
    ensures var items := AllItems(c, f, p);
            Crowdloans.Refund(s, k, items).Ok? <==>
              && k in s.vaults && s.vaults[k].phase in {Closed, Failed}
              && MintedBack(s.entries, s.vaults[k].trie, items[..Min(|items|, s.cfg.removeLimit)]) <= s.vaults[k].contributed
  {
    hide RefundEach, Funded, EnumeratesAll, AllItems, MintedBack;
    if k in s.vaults {
      var items := AllItems(c, f, p);
      AllItemsEnumerate(s, k, c, f, p);
      RefundEachSucceeds(s, k, items, Min(|items|, s.cfg.removeLimit));
    }
  }

  /** A single refund succeeds exactly if the vault exists and is closed, and the amount is within the entry, and within
      the vault's contributions if it is taken from those. */
  lemma RefundForSucceeds(s: State, k: VaultKey, who: UserId, kind: Kind, amount: nat)
    requires Funded(s)
    ensures Crowdloans.RefundFor(s, k, who, kind, amount).Ok? <==>
              && k in s.vaults && s.vaults[k].phase == Closed
              && amount <= AmountAt(s.entries, EntryKey(s.vaults[k].trie, kind, who))
              && (kind == InContributed ==> amount <= s.vaults[k].contributed)
    ensures k in s.vaults && s.vaults[k].phase == Closed
            && amount > AmountAt(s.entries, EntryKey(s.vaults[k].trie, kind, who))
            ==> Crowdloans.RefundFor(s, k, who, kind, amount) == Err(InsufficientContribution)
  {
    hide Funded, Update, Ledger.Mint, Ledger.Transfer, Changed, Moved, CrowdInv, Backed;
    if k in s.vaults {
      VaultWithin(s, k);
      FundedBacked(s);
      EntriesWithinTotal(s, k, who);
      var minted, paid := s.ledger.Mint(s.cfg.relay, User(who), amount),
                          s.ledger.Transfer(s.cfg.relay, CrowdloanPot, User(who), amount);
      if kind == InContributed && minted.Ok? {
        UpdateSucceeds(s.(ledger := minted.value), k, who, amount, None, false, kind);
      } else if kind != InContributed && paid.Ok? {
        UpdateSucceeds(s.(ledger := paid.value), k, who, amount, None, false, kind);
      }
    }
  }

  /** A vault can be dissolved exactly if it is closed or has ended, and has neither entries nor contributions left. */
  lemma DissolveSucceeds(s: State, k: VaultKey)
    requires CrowdInv(s)
    ensures Crowdloans.Dissolve(s, k).Ok? <==>
              && k in s.vaults && s.vaults[k].phase in {Closed, Failed, Expired}
              && !HasEntries(s.entries, s.vaults[k].trie) && s.vaults[k].contributed == 0
  {
    hide HeldSum, TriesApart, CTokensAgree;
    if k in s.vaults && !HasEntries(s.entries, s.vaults[k].trie) {
      NoEntries(s.entries, s.vaults[k].trie, InPending);
      NoEntries(s.entries, s.vaults[k].trie, InFlying);
      assert Ahead(s, k, InPending) == 0 && Ahead(s, k, InFlying) == 0;
    }
  }

  // ---------- terms and phases ----------

  /** A vault can be created exactly for a positive cap, a lease in order, the lease's ctoken if it has one, a key not
      taken, no current vault that has not ended, an end block not past, and a number for its storage; it is then
      the current vault of its parachain, pending, empty, and on the terms given. */
  lemma CreateSucceeds(s: State, op: Op)
    requires op.CreateVault?
    ensures var k := VaultKey(op.para, op.lease);
            && (Call(s, op).Ok? <==>
                  && op.cap > 0 && op.lease.0 <= op.lease.1
                  && (op.lease in s.ctokens ==> s.ctokens[op.lease] == op.ctoken)
                  && k !in s.vaults
                  && (s.Current(op.para).Ok? ==> s.vaults[s.Current(op.para).value].phase in {Failed, Expired})
                  && s.relayNow <= op.endBlock && s.nextTrie < U32_MAX)
            && (Call(s, op).Ok? ==>
                  && Step(s, op).Current(op.para) == Ok(k)
                  && var v := Step(s, op).vaults[k];
                     && v.phase == Pending && v.Total() == 0
                     && v.ctoken == op.ctoken && v.strategy == op.strategy && v.cap == op.cap && v.endBlock == op.endBlock)
  {
  }

  /** The terms of a vault are changed exactly by updates that keep the cap positive and the end block ahead, and those
      change only what they are given. */
  lemma UpdateSucceedsAndSets(s: State, op: Op)
    requires op.UpdateVault?
    ensures Call(s, op).Ok? <==>
              && s.Current(op.para).Ok? && op.newCap != Some(0)
              && (op.newEnd.Some? ==> s.relayNow <= op.newEnd.value)
    ensures Call(s, op).Ok? ==>
              var k := s.Current(op.para).value;
              var v, w := s.vaults[k], Step(s, op).vaults[k];
              && w.cap == (if op.newCap.Some? then op.newCap.value else v.cap)
              && w.endBlock == (if op.newEnd.Some? then op.newEnd.value else v.endBlock)
              && w.strategy == (if op.newStrategy.Some? then op.newStrategy.value else v.strategy)
              && w.phase == v.phase && w.Total() == v.Total()
  {
  }

  /** The phase a call needs and the one it leads to. */
  function Passage(op: Op): Option<(Phase, Phase)> {
    match op
    case Open(_) => Some((Pending, Contributing))
    case Close(_) => Some((Contributing, Closed))
    case Reopen(_) => Some((Closed, Contributing))
    case AuctionSucceeded(_) => Some((Closed, Succeeded))
    case _ => None
  }

  /** Opening, closing, reopening and a won auction succeed exactly in the phase they need, and lead to the next one at
      once. */
  lemma PassageSucceeds(s: State, op: Op)
    requires Passage(op).Some?
    ensures Call(s, op).Ok? <==>
              s.Current(op.para).Ok? && s.vaults[s.Current(op.para).value].phase == Passage(op).value.0
    ensures Call(s, op).Ok? ==>
              var k := s.Current(op.para).value;
              Step(s, op).vaults == s.vaults[k := s.vaults[k].(phase := Passage(op).value.1)]
  {
  }

  /** A lost auction and an expired slot only ask for the money back, for all that is contributed, and exactly in the
      phase they need; the phase turns when the relay chain confirms. */
  lemma AskSucceeds(s: State, op: Op)
    requires op.AuctionFailed? || op.SlotExpired?
    ensures Call(s, op).Ok? <==>
              && s.Current(op.para).Ok?
              && s.vaults[s.Current(op.para).value].phase == (if op.AuctionFailed? then Closed else Succeeded)
    ensures Call(s, op).Ok? ==>
              var k, t := s.Current(op.para).value, Step(s, op);
              && t.vaults == s.vaults && t.nextQuery == s.nextQuery + 1
              && t.requests == s.requests[s.nextQuery :=
                   Withdrawal(k, s.vaults[k].contributed, if op.AuctionFailed? then Failed else Expired)]
  {
  }

  /** The answer to a withdrawal turns the vault exactly if it is positive, and is then forgotten; a negative one leaves
      everything as it is. */
  lemma WithdrawalAnswered(s: State, id: QueryId, executed: bool)
    requires id in s.requests && s.requests[id].Withdrawal?
    ensures var k := s.requests[id].key;
            && (Notify(s, id, executed).Ok? <==> !executed || k in s.vaults)
            && (!executed ==> Notify(s, id, executed) == Ok(s))
            && (executed && k in s.vaults ==>
                  var t := Notify(s, id, executed).value;
                  && t.vaults == s.vaults[k := s.vaults[k].(phase := s.requests[id].target)]
                  && t.requests == s.requests - {id} && t.entries == s.entries && t.ledger == s.ledger)
  {
  }

  /** The draw, the proxy and the relay block are what the last call that sets them said. */
  lemma StepFlags(s: State, op: Op)
    ensures var t := Step(s, op);
            && t.isVrf == (if op.SetVrf? then op.flag else s.isVrf)
            && t.hasProxy == (s.hasProxy || op.UpdateProxy?)
            && t.relayNow == (if op.RelayBlock? then op.number else s.relayNow)
  {
    hide Step, Call;
    if op.MigratePending? || op.Refund? {
      BatchFlags(s, op);
    } else if op.Notification? || op.Contribute? || op.RefundFor? {
      MoneyFlags(s, op);
    } else {
      OtherFlags(s, op);
    }
  }

  ghost predicate SameFlags(s: State, t: State) {
    t.isVrf == s.isVrf && t.hasProxy == s.hasProxy && t.relayNow == s.relayNow
  }

  lemma UpdateFlags(s: State, k: VaultKey, who: UserId, amount: nat, code: Option<Code>, add: bool, kind: Kind)
    requires k in s.vaults && Update(s, k, who, amount, code, add, kind).Ok?
    ensures var t := Update(s, k, who, amount, code, add, kind).value.0;
            SameFlags(s, t) && k in t.vaults
  {
  }

  lemma MigrateFlags(s: State, k: VaultKey, who: UserId, amount: nat, from: Kind, to: Kind)
    requires k in s.vaults && Migrate(s, k, who, amount, from, to).Ok?
    ensures SameFlags(s, Migrate(s, k, who, amount, from, to).value)
  {
    hide Update;
    UpdateFlags(s, k, who, amount, None, false, from);
    var taken := Update(s, k, who, amount, None, false, from).value;
    UpdateFlags(taken.0, k, who, amount, Some(taken.1), true, to);
  }

  lemma RefundOneFlags(s: State, k: VaultKey, who: UserId, kind: Kind, amount: nat)
    requires k in s.vaults && RefundOne(s, k, who, kind, amount).Ok?
    ensures SameFlags(s, RefundOne(s, k, who, kind, amount).value)
  {
    hide Ledger.Mint, Ledger.Transfer, SetEntry;
  }

  lemma {:induction false} MigrateEachFlags(s: State, k: VaultKey, order: seq<UserId>)
    requires k in s.vaults && MigrateEach(s, k, order).Ok?
    ensures SameFlags(s, MigrateEach(s, k, order).value)
    decreases |order|
  {
    if order != [] {
      hide Migrate;
      var before, who := MigrateEach(s, k, order[..|order| - 1]).value, order[|order| - 1];
      MigrateEachFlags(s, k, order[..|order| - 1]);
      MigrateFlags(before, k, who, AmountAt(before.entries, EntryKey(before.vaults[k].trie, InPending, who)),
                   InPending, InFlying);
    }
  }

  lemma {:induction false} RefundEachFlags(s: State, k: VaultKey, items: seq<Item>)
    requires k in s.vaults && RefundEach(s, k, items).Ok?
    ensures SameFlags(s, RefundEach(s, k, items).value)
    decreases |items|
  {
    if items != [] {
      hide RefundOne;
      var before := RefundEach(s, k, items[..|items| - 1]).value;
      var (kind, who) := items[|items| - 1];
      RefundEachFlags(s, k, items[..|items| - 1]);
      RefundOneFlags(before, k, who, kind, AmountAt(before.entries, EntryKey(before.vaults[k].trie, kind, who)));
    }
  }

  lemma BatchFlags(s: State, op: Op)
    requires op.MigratePending? || op.Refund?
    ensures SameFlags(s, Step(s, op))
  {
    hide Enumerates, EnumeratesAll, MigrateEach, RefundEach, AllItems;
    if Call(s, op).Ok? {
      var k := At(s, op);
      match op
      case MigratePending(_, order) =>
        MigrateEachFlags(s, k, order[..Min(|order|, s.cfg.migrateLimit)]);
      case Refund(_, c, f, p) =>
        var items := AllItems(c, f, p);
        RefundEachFlags(s, k, items[..Min(|items|, s.cfg.removeLimit)]);
    }
  }

  lemma ConfirmFlags(s: State, k: VaultKey, who: UserId, amount: nat)
    requires Confirm(s, k, who, amount).Ok?
    ensures SameFlags(s, Confirm(s, k, who, amount).value)
  {
    hide Migrate, Ledger.Burn;
    var l := s.ledger.Burn(s.cfg.relay, CrowdloanPot, amount).value;
    MigrateFlags(s.(ledger := l), k, who, amount, InFlying, InContributed);
  }

  lemma RefuseFlags(s: State, k: VaultKey, who: UserId, amount: nat)
    requires Refuse(s, k, who, amount).Ok?
    ensures SameFlags(s, Refuse(s, k, who, amount).value)
  {
    hide Update, Ledger.Transfer;
    var l := s.ledger.Transfer(s.cfg.relay, CrowdloanPot, User(who), amount).value;
    UpdateFlags(s.(ledger := l), k, who, amount, None, false, InFlying);
  }

  lemma ContributeFlags(s: State, op: Op)
    requires op.Contribute? && Call(s, op).Ok?
    ensures SameFlags(s, Step(s, op))
  {
    hide Update, Ledger.Transfer;
    var k := s.Current(op.para).value;
    var l := s.ledger.Transfer(s.cfg.relay, User(op.who), CrowdloanPot, op.amount).value;
    var kind := if s.vaults[k].phase == Contributing then InFlying else InPending;
    UpdateFlags(s.(ledger := l), k, op.who, op.amount, Some(op.code), true, kind);
  }

  lemma MoneyFlags(s: State, op: Op)
    requires op.Notification? || op.Contribute? || op.RefundFor?
    ensures SameFlags(s, Step(s, op))
  {
    hide Confirm, Refuse, RefundOne, Crowdloans.Contribute;
    if Call(s, op).Ok? {
      if op.Contribute? {
        ContributeFlags(s, op);
      } else if op.RefundFor? {
        RefundOneFlags(s, op.key, op.who, op.kind, op.amount);
      } else if op.id in s.requests && s.requests[op.id].Contribution? {
        var request := s.requests[op.id];
        if op.executed {
          ConfirmFlags(s, request.key, request.who, request.amount);
        } else {
          RefuseFlags(s, request.key, request.who, request.amount);
        }
      }
    }
  }

  lemma OtherFlags(s: State, op: Op)
    requires !op.MigratePending? && !op.Refund? && !op.Notification? && !op.Contribute? && !op.RefundFor?
    ensures var t := Step(s, op);
            && t.isVrf == (if op.SetVrf? then op.flag else s.isVrf)
            && t.hasProxy == (s.hasProxy || op.UpdateProxy?)
            && t.relayNow == (if op.RelayBlock? then op.number else s.relayNow)
  {
    hide AmountAt, HasEntries, Ledger.Mint, Ledger.Burn, Ledger.Transfer, State.Current, Changed, Moved;
  }
}
