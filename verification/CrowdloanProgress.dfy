/** When the batched loops succeed, and that refunding call after call empties a vault. */
module CrowdloanProgress {
  import opened Base
  import opened Sums
  import opened Assets
  import opened Crowdloans
  import opened CrowdloanEffects
  import opened CrowdloanRuns
  import opened CrowdloanClaims
  import opened CrowdloanLedger
  import opened CrowdloanCaps
  import opened CrowdloanBatches

  // ---------- parts of sums ----------

  lemma EntryWithin(entries: Entries, e: EntryKey)
    ensures AmountAt(entries, e) <= HeldSum(entries, e.trie, e.kind)
  {
    var held := Held(entries, e.trie, e.kind);
    hide Sum;
    if e in held {
      SumAtLeast(held, e);
    } else {
      SumNonNegative(held);
    }
  }

  /** The money covers the books: issuance is the sum of the balances, the pot covers what waits in vaults, and
      what could be minted back fits the machine integers. */
  ghost predicate Funded(s: State) {
    CrowdInv(s) && Backed(s.ledger) && PotSpare(s) >= 0 && RelayTotal(s) <= U128_MAX
  }

  lemma VaultWithin(s: State, k: VaultKey)
    requires Funded(s) && k in s.vaults
    ensures Waiting(s.vaults[k]) <= Pot(s) <= s.ledger.Issued(s.cfg.relay)
    ensures s.ledger.Issued(s.cfg.relay) + s.vaults[k].contributed <= U128_MAX
  {
    hide Sum, CrowdInv, Backed;
    assert k in Waitings(s) && k in Contributions(s);
    SumAtLeast(Waitings(s), k);
    SumAtLeast(Contributions(s), k);
    TwoHolders(s.ledger, s.cfg.relay, CrowdloanPot, BridgePot);
  }

  /** A step that leaves the claims on its vault alone leaves the relay token on both chains together alone. */
  lemma SteadyFunded(s: State, t: State, k: VaultKey)
    requires Funded(s) && Balanced(s, t, k) && Steady(s, t, k) && Backed(t.ledger)
    ensures Funded(t)
  {
    hide CrowdInv, Backed, Sum, Contributions, PotSpare, Ahead;
    BalancedKeepsInv(s, t, k);
    BalancedConserves(s, t, k, 0);
    assert Accounted(t, k, s.cfg.relay) == Accounted(s, k, s.cfg.relay);
    ContributionsPut(s, t, k);
  }

  lemma BalancedKeepsRegistry(s: State, t: State, k: VaultKey)
    requires Balanced(s, t, k)
    ensures t.ctokens == s.ctokens && t.cfg == s.cfg
  {
  }

  // ---------- refunding ----------

  /** What the contributed entries among the items amount to. */
  function MintedBack(entries: Entries, trie: nat, items: seq<Item>): nat {
    if items == [] then 0 else
      var item := items[|items| - 1];
      MintedBack(entries, trie, items[..|items| - 1])
      + (if item.0 == InContributed then AmountAt(entries, KeyOf(trie, item)) else 0)
  }

  /** Paying back a whole entry fails only for want of contributions to take it from. */
  lemma RefundOneSucceeds(s: State, k: VaultKey, who: UserId, kind: Kind)
    requires Funded(s) && k in s.vaults
    ensures var amount := AmountAt(s.entries, EntryKey(s.vaults[k].trie, kind, who));
            RefundOne(s, k, who, kind, amount).Ok? <==> kind != InContributed || amount <= s.vaults[k].contributed
  {
    hide HeldSum, PotSpare, RelayTotal, Backed, TriesApart, CTokensAgree;
    var e := EntryKey(s.vaults[k].trie, kind, who);
    EntryWithin(s.entries, e);
    VaultWithin(s, k);
    assert kind != InContributed ==> Ahead(s, k, kind) == 0;
  }

  lemma RefundOneContributed(s: State, k: VaultKey, who: UserId, kind: Kind, amount: nat)
    requires k in s.vaults && RefundOne(s, k, who, kind, amount).Ok?
    ensures RefundOne(s, k, who, kind, amount).value.vaults[k].contributed
            == s.vaults[k].contributed - (if kind == InContributed then amount else 0)
  {
    hide Update, Ledger.Mint, Ledger.Transfer;
    var l := if kind == InContributed then s.ledger.Mint(s.cfg.relay, User(who), amount).value
             else s.ledger.Transfer(s.cfg.relay, CrowdloanPot, User(who), amount).value;
    UpdateEffect(s.(ledger := l), k, who, amount, None, false, kind);
  }

  /** Refunding a list of distinct entries succeeds exactly when the vault's contributions cover the contributed
      ones among them; redeeming the ctokens of one vault at another can leave them short. */
  lemma {:induction false} RefundEachSucceeds(s: State, k: VaultKey, items: seq<Item>, i: nat)
    requires Funded(s) && k in s.vaults && i <= |items| && EnumeratesItems(items, s.entries, s.vaults[k].trie)
    ensures RefundEach(s, k, items[..i]).Ok?
            <==> MintedBack(s.entries, s.vaults[k].trie, items[..i]) <= s.vaults[k].contributed
    ensures RefundEach(s, k, items[..i]).Ok? ==>
              var t := RefundEach(s, k, items[..i]).value;
              && Funded(t)
              && t.vaults[k].contributed
                 == s.vaults[k].contributed - MintedBack(s.entries, s.vaults[k].trie, items[..i])
    decreases i
  {
    hide RefundOne, Funded, EnumeratesItems, Balanced, Steady, Backed;
    if i > 0 {
      var trie, front, item := s.vaults[k].trie, items[..i - 1], items[i - 1];
      assert items[..i][..i - 1] == front && items[..i][i - 1] == item;
      RefundEachSucceeds(s, k, items, i - 1);
      if RefundEach(s, k, front).Ok? {
        var before := RefundEach(s, k, front).value;
        RefundEachRemoves(s, k, items, i - 1);
        NextKept(items[i - 1..], before.entries, s.entries, trie);
        var amount := AmountAt(before.entries, KeyOf(trie, item));
        RefundOneSucceeds(before, k, item.1, item.0);
        if RefundOne(before, k, item.1, item.0, amount).Ok? {
          RefundOneBalanced(before, k, item.1, item.0, amount);
          RefundOneContributed(before, k, item.1, item.0, amount);
          FundedBacked(before);
          RefundOneBacked(before, k, item.1, item.0, amount);
          SteadyFunded(before, RefundOne(before, k, item.1, item.0, amount).value, k);
        }
      }
    }
  }

  lemma FundedBacked(s: State)
    requires Funded(s)
    ensures CrowdInv(s) && Backed(s.ledger)
  {
  }

  lemma NextKept(items: seq<Item>, after: Entries, before: Entries, trie: nat)
    requires items != [] && EnumeratesItems(items, after, trie)
    requires forall e :: e in after ==> e in before && after[e] == before[e]
    ensures AmountAt(after, KeyOf(trie, items[0])) == AmountAt(before, KeyOf(trie, items[0]))
  {
  }

  predicate DistinctItems(items: seq<Item>) {
    forall i, j :: 0 <= i < j < |items| ==> items[i] != items[j]
  }

  lemma {:induction false} MintedFrame(entries: Entries, trie: nat, items: seq<Item>, item: Item)
    requires item !in items
    ensures MintedBack(entries - {KeyOf(trie, item)}, trie, items) == MintedBack(entries, trie, items)
    decreases |items|
  {
    if items != [] {
      MintedFrame(entries, trie, items[..|items| - 1], item);
      assert items[|items| - 1] in items;
    }
  }

  lemma {:induction false} MintedWithin(entries: Entries, trie: nat, items: seq<Item>)
    requires DistinctItems(items)
    ensures MintedBack(entries, trie, items) <= HeldSum(entries, trie, InContributed)
    decreases |items|
  {
    hide HeldSum;
    if items == [] {
      EntryWithin(entries, EntryKey(trie, InContributed, 0));
    } else {
      var front, item := items[..|items| - 1], items[|items| - 1];
      assert item !in front;
      if item.0 == InContributed {
        var e := KeyOf(trie, item);
        MintedFrame(entries, trie, front, item);
        MintedWithin(entries - {e}, trie, front);
        EntryGone(entries, e);
        SetEntryHeld(entries, e, 0, "");
      } else {
        MintedWithin(entries, trie, front);
      }
    }
  }

  /** A vault that holds at least what its contributed entries claim can always be refunded. */
  lemma RefundSucceeds(s: State, k: VaultKey, c: seq<UserId>, f: seq<UserId>, p: seq<UserId>)
    requires Funded(s) && k in s.vaults && s.vaults[k].phase in {Closed, Failed}
    requires EnumeratesAll(s, k, c, f, p) && Ahead(s, k, InContributed) >= 0
    ensures Crowdloans.Refund(s, k, AllItems(c, f, p)).Ok?
  {
    hide RefundEach, HeldSum, Funded, EnumeratesAll;
    var items := AllItems(c, f, p);
    var n: nat := Min(|items|, s.cfg.removeLimit);
    AllItemsEnumerate(s, k, c, f, p);
    RefundEachSucceeds(s, k, items, n);
    MintedWithin(s.entries, s.vaults[k].trie, items[..n]);
  }

  // ---------- how many calls it takes ----------

  ghost function EntryCount(s: State, k: VaultKey): nat
    requires k in s.vaults
  {
    |(set e | e in s.entries && e.trie == s.vaults[k].trie)|
  }

  lemma {:induction false} ItemsCount(items: seq<Item>, entries: Entries, trie: nat)
    requires EnumeratesItems(items, entries, trie)
    ensures |items| == |(set e | e in entries && e.trie == trie)|
    decreases |items|
  {
    var all := set e | e in entries && e.trie == trie;
    if items == [] {
      assert all == {};
    } else {
      var e := KeyOf(trie, items[0]);
      RestOfItems(items, entries, trie);
      ItemsCount(items[1..], entries - {e}, trie);
      assert (set x | x in entries - {e} && x.trie == trie) == all - {e};
    }
  }

  /** Calling `refund` again and again; fails if one of the calls does. */
  function RefundAgain(s: State, k: VaultKey, orders: seq<(seq<UserId>, seq<UserId>, seq<UserId>)>): Result<State>
    decreases orders
  {
    if orders == [] then Ok(s) else
      var t :- Call(s, CrowdloanRuns.Refund(k, orders[0].0, orders[0].1, orders[0].2));
      RefundAgain(t, k, orders[1..])
  }

  lemma RefundCallCounts(s: State, k: VaultKey, c: seq<UserId>, f: seq<UserId>, p: seq<UserId>)
    requires k in s.vaults && Call(s, CrowdloanRuns.Refund(k, c, f, p)).Ok?
    ensures var t := Call(s, CrowdloanRuns.Refund(k, c, f, p)).value;
            && k in t.vaults && t.cfg == s.cfg
            && EntryCount(t, k) == Max(0, EntryCount(s, k) - s.cfg.removeLimit)
  {
    hide EnumeratesAll, AllItems, RefundEach, EnumeratesItems, Balanced;
    RefundRemoves(s, k, c, f, p);
    AllItemsEnumerate(s, k, c, f, p);
    var items := AllItems(c, f, p);
    var removed: nat := Min(|items|, s.cfg.removeLimit);
    var t := Call(s, CrowdloanRuns.Refund(k, c, f, p)).value;
    ItemsCount(items, s.entries, s.vaults[k].trie);
    ItemsCount(items[removed..], t.entries, s.vaults[k].trie);
    RefundEachBalanced(s, k, items[..removed]);
    BalancedKeepsRegistry(s, t, k);
  }

  lemma {:induction false} RefundAgainCounts(s: State, k: VaultKey,
                                             orders: seq<(seq<UserId>, seq<UserId>, seq<UserId>)>)
    requires k in s.vaults && RefundAgain(s, k, orders).Ok?
    ensures var t := RefundAgain(s, k, orders).value;
            k in t.vaults && EntryCount(t, k) == Max(0, EntryCount(s, k) - |orders| * s.cfg.removeLimit)
    decreases |orders|
  {
    hide Call, EntryCount;
    if orders != [] {
      RefundCallCounts(s, k, orders[0].0, orders[0].1, orders[0].2);
      var t := Call(s, CrowdloanRuns.Refund(k, orders[0].0, orders[0].1, orders[0].2)).value;
      RefundAgainCounts(t, k, orders[1..]);
      OneFewer(|orders|, s.cfg.removeLimit);
    }
  }

  /** All three storages are empty exactly once there have been as many calls as the number of entries divided
      by the limit, rounded up. */
  lemma RefundAgainEmpties(s: State, k: VaultKey, orders: seq<(seq<UserId>, seq<UserId>, seq<UserId>)>)
    requires k in s.vaults && RefundAgain(s, k, orders).Ok? && s.cfg.removeLimit > 0
    ensures var t := RefundAgain(s, k, orders).value;
            k in t.vaults && (EntryCount(t, k) == 0 <==> |orders| >= CeilDiv(EntryCount(s, k), s.cfg.removeLimit))
  {
    hide RefundAgain, EntryCount, CeilDiv;
    RefundAgainCounts(s, k, orders);
    CallsNeeded(EntryCount(s, k), s.cfg.removeLimit, |orders|);
  }

  // ---------- migrating ----------

  lemma UpdateApart(s: State, k: VaultKey, who: UserId, amount: nat, kind: Kind, other: Kind)
    requires k in s.vaults && other != kind && Update(s, k, who, amount, None, false, kind).Ok?
    ensures var t := Update(s, k, who, amount, None, false, kind).value.0;
            && k in t.vaults && t.vaults[k].trie == s.vaults[k].trie
            && t.vaults[k].strategy == s.vaults[k].strategy && t.hasProxy == s.hasProxy
            && t.vaults[k].Of(other) == s.vaults[k].Of(other)
            && AmountAt(t.entries, EntryKey(t.vaults[k].trie, other, who))
               == AmountAt(s.entries, EntryKey(s.vaults[k].trie, other, who))
  {
  }

  /** An update succeeds exactly when both the vault total and the user's entry can take it. */
  lemma UpdateSucceeds(s: State, k: VaultKey, who: UserId, amount: nat, code: Option<Code>, add: bool, kind: Kind)
    requires k in s.vaults
    ensures Update(s, k, who, amount, code, add, kind).Ok? <==>
              var total, own := s.vaults[k].Of(kind), AmountAt(s.entries, EntryKey(s.vaults[k].trie, kind, who));
              if add then total + amount <= U128_MAX && own + amount <= U128_MAX else amount <= total && amount <= own
    ensures Update(s, k, who, amount, code, add, kind).Ok? && add ==>
              var t := Update(s, k, who, amount, code, add, kind).value.0;
              k in t.vaults && t.vaults[k].strategy == s.vaults[k].strategy && t.hasProxy == s.hasProxy
  {
  }

  /** Migrating a pending entry fails only where a proxy is needed and none is set. */
  lemma MigrateOneSucceeds(s: State, k: VaultKey, who: UserId)
    requires CrowdInv(s) && k in s.vaults && Waiting(s.vaults[k]) <= U128_MAX
    ensures MigrateOne(s, k, who).Ok? <==> s.vaults[k].strategy == Xcm || s.hasProxy
  {
    hide HeldSum, TriesApart, CTokensAgree, Update;
    var trie := s.vaults[k].trie;
    var amount := AmountAt(s.entries, EntryKey(trie, InPending, who));
    EntryWithin(s.entries, EntryKey(trie, InPending, who));
    EntryWithin(s.entries, EntryKey(trie, InFlying, who));
    assert Ahead(s, k, InPending) == 0 && Ahead(s, k, InFlying) == 0;
    UpdateSucceeds(s, k, who, amount, None, false, InPending);
    UpdateApart(s, k, who, amount, InPending, InFlying);
    var taken := Update(s, k, who, amount, None, false, InPending).value;
    UpdateSucceeds(taken.0, k, who, amount, Some(taken.1), true, InFlying);
  }

  lemma MigrateOneKeeps(s: State, k: VaultKey, who: UserId)
    requires k in s.vaults && MigrateOne(s, k, who).Ok?
    ensures var t := MigrateOne(s, k, who).value;
            && k in t.vaults && t.vaults[k].strategy == s.vaults[k].strategy && t.hasProxy == s.hasProxy
            && Waiting(t.vaults[k]) == Waiting(s.vaults[k])
  {
    hide SetEntry;
  }

  /** `migrate_pending` succeeds for any number of entries unless a proxy is needed and none is set. */
  lemma {:induction false} MigrateEachSucceeds(s: State, k: VaultKey, order: seq<UserId>)
    requires CrowdInv(s) && k in s.vaults && Waiting(s.vaults[k]) <= U128_MAX
    ensures MigrateEach(s, k, order).Ok? <==> order == [] || s.vaults[k].strategy == Xcm || s.hasProxy
    ensures MigrateEach(s, k, order).Ok? ==>
              var t := MigrateEach(s, k, order).value;
              && CrowdInv(t) && t.vaults[k].strategy == s.vaults[k].strategy && t.hasProxy == s.hasProxy
              && Waiting(t.vaults[k]) == Waiting(s.vaults[k])
    decreases |order|
  {
    hide MigrateOne, CrowdInv, Waiting, Balanced;
    if order != [] {
      var front, who := order[..|order| - 1], order[|order| - 1];
      MigrateEachSucceeds(s, k, front);
      if MigrateEach(s, k, front).Ok? {
        var before := MigrateEach(s, k, front).value;
        MigrateOneSucceeds(before, k, who);
        if MigrateOne(before, k, who).Ok? {
          MigrateOneKeeps(before, k, who);
          MigrateOneBalanced(before, k, who);
          BalancedKeepsInv(before, MigrateOne(before, k, who).value, k);
        }
      }
    }
  }

  // ---------- over runs ----------

  /** A funded chain stays funded exactly as long as the relay tokens claimed and not redeemed leave room in the
      machine integers. */
  lemma RunFundedExactly(s: State, ops: seq<Op>)
    requires Funded(s)
    ensures Funded(Run(s, ops)) <==>
              RelayTotal(s) + Claimed(s, ops, s.cfg.relay) - Redeemed(s, ops, s.cfg.relay) <= U128_MAX
  {
    hide Run, PotSpare, RelayTotal, CrowdInv, Backed, Claimed, Redeemed;
    RunConserves(s, ops, 0);
    RelayConservedExactly(s, ops);
    RunKeepsInv(s, ops);
    RunKeepsBacked(s, ops);
  }

  /** A funded chain stays funded, whatever is called and notified, while the relay token is no ctoken. */
  lemma RunKeepsFunded(s: State, ops: seq<Op>)
    requires Funded(s) && NoRelayCTokens(s) && RelayIsNoCToken(ops, s.cfg.relay)
    ensures Funded(Run(s, ops)) && NoRelayCTokens(Run(s, ops))
  {
    hide Run, PotSpare, RelayTotal, CrowdInv, NoRelayCTokens, Backed;
    RunConserves(s, ops, 0);
    RelayConserved(s, ops);
    RunKeepsInv(s, ops);
    RunKeepsNoRelay(s, ops);
    RunKeepsBacked(s, ops);
  }

  /** Redeeming takes from the vault's contributions without touching its storages, so ctokens claimed at another
      vault of the same lease leave it short exactly when they exceed what was claimed here. */
  lemma RedeemLeaves(s: State, k: VaultKey, who: UserId, amount: nat)
    requires Crowdloans.Redeem(s, k, who, amount).Ok?
    ensures var t := Crowdloans.Redeem(s, k, who, amount).value;
            && k in t.vaults && t.entries == s.entries
            && Ahead(t, k, InContributed) == Ahead(s, k, InContributed) - amount
            && (Ahead(t, k, InContributed) >= 0 <==> amount <= Ahead(s, k, InContributed))
  {
    hide HeldSum;
  }

  /** After a failure an entry is paid out exactly as long as the vault's contributions cover it. */
  lemma WithdrawSucceeds(s: State, k: VaultKey, who: UserId)
    requires Funded(s) && k in s.vaults && s.vaults[k].phase == Failed
    ensures var amount := AmountAt(s.entries, EntryKey(s.vaults[k].trie, InContributed, who));
            && (Crowdloans.WithdrawFor(s, k, who).Ok? <==> 0 < amount <= s.vaults[k].contributed)
            && (amount > s.vaults[k].contributed ==> Crowdloans.WithdrawFor(s, k, who) == Err(Underflow))
  {
    hide Funded, Ledger.Mint;
    VaultWithin(s, k);
  }

  /** Every vault holds at least what its contributed entries claim. */
  ghost predicate Refundable(s: State) {
    forall k :: k in s.vaults ==> Ahead(s, k, InContributed) >= 0
  }

  /** Ctokens are redeemed only where they were claimed. */
  ghost predicate RedeemsHere(s: State, op: Op) {
    op.Redeem? && Call(s, op).Ok? && op.key in s.vaults ==> op.amount <= Ahead(s, op.key, InContributed)
  }

  lemma StepKeepsRefundable(s: State, op: Op)
    requires CrowdInv(s) && Refundable(s) && RedeemsHere(s, op)
    ensures Refundable(Step(s, op))
  {
    hide Step, Call, Ahead;
    var t := Step(s, op);
    forall k | k in t.vaults
      ensures Ahead(t, k, InContributed) >= 0
    {
      if k != At(s, op) || Call(s, op).Err? {
        OtherVaults(s, op, k);
        OtherClaimsKept(s, op, k);
      } else if k in s.vaults {
        StepClaims(s, op);
      } else {
        NewVaultClaims(s, op);
      }
    }
  }

  ghost predicate AllRedeemHere(s: State, ops: seq<Op>)
    decreases ops
  {
    ops != [] ==> RedeemsHere(s, ops[0]) && AllRedeemHere(Step(s, ops[0]), ops[1..])
  }

  lemma {:induction false} RunKeepsRefundable(s: State, ops: seq<Op>)
    requires CrowdInv(s) && Refundable(s) && AllRedeemHere(s, ops)
    ensures Refundable(Run(s, ops))
    decreases ops
  {
    hide Step, CrowdInv, Refundable, RedeemsHere;
    if ops != [] {
      StepKeepsRefundable(s, ops[0]);
      StepKeepsInv(s, ops[0]);
      RunKeepsRefundable(Step(s, ops[0]), ops[1..]);
    }
  }

  /** Over any run that redeems ctokens where they were claimed, every refund at a closed or failed vault succeeds. */
  lemma RunCanRefund(s: State, ops: seq<Op>, k: VaultKey, c: seq<UserId>, f: seq<UserId>, p: seq<UserId>)
    requires Funded(s) && NoRelayCTokens(s) && RelayIsNoCToken(ops, s.cfg.relay)
    requires Refundable(s) && AllRedeemHere(s, ops)
    requires var t := Run(s, ops);
             k in t.vaults && t.vaults[k].phase in {Closed, Failed} && EnumeratesAll(t, k, c, f, p)
    ensures Crowdloans.Refund(Run(s, ops), k, AllItems(c, f, p)).Ok?
  {
    hide Run, Crowdloans.Refund, EnumeratesAll, NoRelayCTokens, AllRedeemHere, AllItems, Ahead;
    FundedBacked(s);
    RunKeepsFunded(s, ops);
    RunKeepsRefundable(s, ops);
    hide Funded;
    RefundSucceeds(Run(s, ops), k, c, f, p);
  }

  // ---------- enough refunds exist ----------

  /** The entries of a child storage can be listed. */
  lemma {:induction false} Listing(entries: Entries, trie: nat, kind: Kind) returns (order: seq<UserId>)
    ensures Enumerates(order, entries, trie, kind)
    decreases Count(entries, trie, kind)
  {
    var all := set e | e in entries && e.trie == trie && e.kind == kind;
    if all == {} {
      order := [];
      assert forall e :: e in entries && e.trie == trie && e.kind == kind ==> e in all;
    } else {
      var e :| e in all;
      assert (set x | x in entries - {e} && x.trie == trie && x.kind == kind) == all - {e};
      var rest := Listing(entries - {e}, trie, kind);
      order := [e.who] + rest;
      Listed(rest, entries, e);
    }
  }

  lemma Listed(rest: seq<UserId>, entries: Entries, e: EntryKey)
    requires e in entries && Enumerates(rest, entries - {e}, e.trie, e.kind)
    ensures Enumerates([e.who] + rest, entries, e.trie, e.kind)
  {
    var order := [e.who] + rest;
    assert forall i :: 0 < i < |order| ==> order[i] == rest[i - 1];
    forall x | x in entries && x.trie == e.trie && x.kind == e.kind
      ensures x.who in order
    {
      if x != e {
        assert x in entries - {e};
      } else {
        assert order[0] == e.who;
      }
    }
  }

  type Orders = (seq<UserId>, seq<UserId>, seq<UserId>)

  lemma RefundCallKeeps(s: State, k: VaultKey, o: Orders)
    requires Funded(s) && k in s.vaults && Call(s, CrowdloanRuns.Refund(k, o.0, o.1, o.2)).Ok?
    ensures var t := Call(s, CrowdloanRuns.Refund(k, o.0, o.1, o.2)).value;
            Funded(t) && k in t.vaults && Steady(s, t, k) && t.cfg == s.cfg
  {
    hide Funded, Balanced, Steady, EnumeratesAll, AllItems, RefundEach, Backed;
    var items := AllItems(o.0, o.1, o.2);
    var n := Min(|items|, s.cfg.removeLimit);
    FundedBacked(s);
    RefundEachBalanced(s, k, items[..n]);
    RefundEachBacked(s, k, items[..n]);
    var t := RefundEach(s, k, items[..n]).value;
    SteadyFunded(s, t, k);
    BalancedKeepsRegistry(s, t, k);
  }

  /** Any number of refund calls in a row succeeds. */
  lemma {:induction false} RefundCallsExist(s: State, k: VaultKey, m: nat) returns (orders: seq<Orders>)
    requires Funded(s) && k in s.vaults && s.vaults[k].phase in {Closed, Failed} && Ahead(s, k, InContributed) >= 0
    ensures |orders| == m && RefundAgain(s, k, orders).Ok?
    decreases m
  {
    hide Funded, Call, EnumeratesAll, Ahead;
    if m == 0 {
      orders := [];
    } else {
      var trie := s.vaults[k].trie;
      var c := Listing(s.entries, trie, InContributed);
      var f := Listing(s.entries, trie, InFlying);
      var p := Listing(s.entries, trie, InPending);
      ListedRefund(s, k, (c, f, p));
      RefundCallKeeps(s, k, (c, f, p));
      var t := Call(s, CrowdloanRuns.Refund(k, c, f, p)).value;
      var rest := RefundCallsExist(t, k, m - 1);
      orders := [(c, f, p)] + rest;
      assert orders[1..] == rest;
    }
  }

  lemma ListedRefund(s: State, k: VaultKey, o: Orders)
    requires Funded(s) && k in s.vaults && s.vaults[k].phase in {Closed, Failed} && Ahead(s, k, InContributed) >= 0
    requires var trie := s.vaults[k].trie;
             && Enumerates(o.0, s.entries, trie, InContributed) && Enumerates(o.1, s.entries, trie, InFlying)
             && Enumerates(o.2, s.entries, trie, InPending)
    ensures Call(s, CrowdloanRuns.Refund(k, o.0, o.1, o.2)).Ok?
  {
    hide Funded, Enumerates, Ahead, Crowdloans.Refund, AllItems;
    RefundSucceeds(s, k, o.0, o.1, o.2);
  }

  /** A closed or failed vault that holds what its entries claim is emptied by its number of entries divided by the
      limit, rounded up, many calls, all of which succeed. */
  lemma RefundEmpties(s: State, k: VaultKey) returns (orders: seq<Orders>)
    requires Funded(s) && k in s.vaults && s.vaults[k].phase in {Closed, Failed} && Ahead(s, k, InContributed) >= 0
    requires s.cfg.removeLimit > 0
    ensures |orders| == CeilDiv(EntryCount(s, k), s.cfg.removeLimit) && RefundAgain(s, k, orders).Ok?
    ensures var t := RefundAgain(s, k, orders).value; k in t.vaults && EntryCount(t, k) == 0
  {
    hide Funded, Ahead, RefundAgain, EntryCount, CeilDiv;
    orders := RefundCallsExist(s, k, CeilDiv(EntryCount(s, k), s.cfg.removeLimit));
    RefundAgainEmpties(s, k, orders);
  }

  // ---------- enough migrations exist ----------

  /** The vault accepts migrations and can send them. */
  predicate CanMigrate(s: State, para: ParaId, k: VaultKey) {
    && s.Current(para) == Ok(k) && s.vaults[k].phase in {Contributing, Pending} && !s.isVrf
    && (s.vaults[k].strategy == Xcm || s.hasProxy) && Waiting(s.vaults[k]) <= U128_MAX
  }

  lemma {:induction false} MigrateEachStays(s: State, k: VaultKey, order: seq<UserId>)
    requires k in s.vaults && MigrateEach(s, k, order).Ok?
    ensures MigrateEach(s, k, order).value.isVrf == s.isVrf
    decreases |order|
  {
    hide SetEntry, AmountAt;
    if order != [] {
      MigrateEachStays(s, k, order[..|order| - 1]);
    }
  }

  lemma MigrateCallKeeps(s: State, para: ParaId, k: VaultKey, order: seq<UserId>)
    requires CrowdInv(s) && CanMigrate(s, para, k) && Enumerates(order, s.entries, s.vaults[k].trie, InPending)
    ensures Call(s, CrowdloanRuns.MigratePending(para, order)).Ok?
    ensures var t := Call(s, CrowdloanRuns.MigratePending(para, order)).value; CrowdInv(t) && CanMigrate(t, para, k)
  {
    hide Enumerates, MigrateEach, CrowdInv, Balanced, Waiting, Ahead;
    var n := Min(|order|, s.cfg.migrateLimit);
    MigrateEachSucceeds(s, k, order[..n]);
    MigrateEachStays(s, k, order[..n]);
    MigrateEachBalanced(s, k, order[..n]);
    BalancedCurrent(s, MigrateEach(s, k, order[..n]).value, k, para);
  }

  /** Any number of migration calls in a row succeeds. */
  lemma {:induction false} MigrateCallsExist(s: State, para: ParaId, k: VaultKey, m: nat)
    returns (orders: seq<seq<UserId>>)
    requires CrowdInv(s) && CanMigrate(s, para, k)
    ensures |orders| == m && MigrateAgain(s, para, orders).Ok?
    decreases m
  {
    if m == 0 {
      orders := [];
    } else {
      hide CrowdInv, Call, CanMigrate;
      InPlace(s, para, k);
      var order := Listing(s.entries, s.vaults[k].trie, InPending);
      MigrateCallKeeps(s, para, k, order);
      var rest := MigrateCallsExist(Call(s, CrowdloanRuns.MigratePending(para, order)).value, para, k, m - 1);
      orders := [order] + rest;
      assert orders[1..] == rest;
    }
  }

  lemma InPlace(s: State, para: ParaId, k: VaultKey)
    requires CanMigrate(s, para, k)
    ensures k in s.vaults && s.Current(para) == Ok(k)
  {
  }

  /** So the pending storage is emptied by its size divided by the limit, rounded up, many calls, all of which
      succeed. */
  lemma MigrateEmpties(s: State, para: ParaId, k: VaultKey) returns (orders: seq<seq<UserId>>)
    requires CrowdInv(s) && CanMigrate(s, para, k) && s.cfg.migrateLimit > 0
    ensures |orders| == CeilDiv(PendingCount(s, k), s.cfg.migrateLimit) && MigrateAgain(s, para, orders).Ok?
    ensures var t := MigrateAgain(s, para, orders).value; t.Current(para) == Ok(k) && PendingCount(t, k) == 0
  {
    hide CrowdInv, MigrateAgain, PendingCount, CeilDiv;
    orders := MigrateCallsExist(s, para, k, CeilDiv(PendingCount(s, k), s.cfg.migrateLimit));
    MigrateAgainEmpties(s, para, orders, k);
  }
}
