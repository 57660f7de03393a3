/** What each part of a crowdloan call does to one vault, its child storages and the money behind them. */
module CrowdloanEffects {
  import opened Base
  import opened Sums
  import opened Assets
  import opened Crowdloans

  // ---------- sums of the child storages ----------

  ghost function Held(entries: Entries, trie: nat, kind: Kind): map<EntryKey, int> {
    map e | e in entries && e.trie == trie && e.kind == kind :: entries[e].amount
  }

  ghost function HeldSum(entries: Entries, trie: nat, kind: Kind): int {
    Sum(Held(entries, trie, kind))
  }

  lemma SetEntryHeld(entries: Entries, e: EntryKey, amount: nat, code: Code)
    ensures HeldSum(SetEntry(entries, e, amount, code), e.trie, e.kind)
            == HeldSum(entries, e.trie, e.kind) + amount - AmountAt(entries, e)
    ensures forall trie: nat, kind :: (trie, kind) != (e.trie, e.kind) ==>
              HeldSum(SetEntry(entries, e, amount, code), trie, kind) == HeldSum(entries, trie, kind)
  {
    hide Sum;
    var after := SetEntry(entries, e, amount, code);
    var held := Held(entries, e.trie, e.kind);
    if amount == 0 {
      assert Held(after, e.trie, e.kind) == held - {e};
      if e in held {
        SumRemove(held, e);
      } else {
        assert held - {e} == held;
      }
    } else {
      assert Held(after, e.trie, e.kind) == held[e := amount];
      SumUpdate(held, e, amount);
    }
    forall trie: nat, kind | (trie, kind) != (e.trie, e.kind)
      ensures HeldSum(after, trie, kind) == HeldSum(entries, trie, kind)
    {
      assert Held(after, trie, kind) == Held(entries, trie, kind);
    }
  }

  // ---------- the balance of one vault ----------

  /** Only the vault at `k` and child storages of its trie differ. */
  ghost predicate OnlyVault(s: State, t: State, k: VaultKey) {
    && k in s.vaults && k in t.vaults
    && t.vaults == s.vaults[k := t.vaults[k]]
    && t.vaults[k].trie == s.vaults[k].trie && t.vaults[k].ctoken == s.vaults[k].ctoken
    && t.ctokens == s.ctokens && t.nextTrie == s.nextTrie && t.cfg == s.cfg && t.leases == s.leases
    && (forall e :: e in t.entries && e !in s.entries ==> e.trie == s.vaults[k].trie)
    && (forall trie: nat, kind ::
          trie != s.vaults[k].trie ==> HeldSum(t.entries, trie, kind) == HeldSum(s.entries, trie, kind))
  }

  /** How far the vault total of one kind is ahead of its child storage. */
  ghost function Ahead(s: State, k: VaultKey, kind: Kind): int
    requires k in s.vaults
  {
    s.vaults[k].Of(kind) - HeldSum(s.entries, s.vaults[k].trie, kind)
  }

  function Pot(s: State): int {
    s.ledger.Balance(s.cfg.relay, CrowdloanPot)
  }

  function Waiting(v: Vault): int {
    v.pending + v.flying
  }

  /** The issuance of an asset, together with what the vault has contributed of the relay token, less what its
      ctokens stand for. */
  ghost function Accounted(s: State, k: VaultKey, d: Asset): int
    requires k in s.vaults
  {
    s.ledger.Issued(d)
    + (if d == s.cfg.relay then s.vaults[k].contributed else 0)
    - (if d == s.vaults[k].ctoken then Ahead(s, k, InContributed) else 0)
  }

  /** Money, vault totals and child storages move together: pending and flying with their storages, the pot with
      pending plus flying, the relay token against what is contributed, and the vault's ctoken, whichever it
      is, with what is contributed but no longer in the storage. */
  ghost predicate Balanced(s: State, t: State, k: VaultKey) {
    && OnlyVault(s, t, k)
    && Ahead(t, k, InPending) == Ahead(s, k, InPending)
    && Ahead(t, k, InFlying) == Ahead(s, k, InFlying)
    && Pot(t) - Waiting(t.vaults[k]) == Pot(s) - Waiting(s.vaults[k])
    && forall d: Asset :: Accounted(t, k, d) == Accounted(s, k, d)
  }

  /** What governance sets and the life of the vault decides, as against its totals. */
  predicate SameTerms(v: Vault, w: Vault) {
    w.cap == v.cap && w.phase == v.phase && w.strategy == v.strategy && w.endBlock == v.endBlock
  }

  /** Neither the terms of the vault nor the claims on it have moved. */
  ghost predicate Steady(s: State, t: State, k: VaultKey)
    requires k in s.vaults && k in t.vaults
  {
    SameTerms(s.vaults[k], t.vaults[k]) && Ahead(t, k, InContributed) == Ahead(s, k, InContributed)
  }

  lemma BalancedTwice(s: State, t: State, u: State, k: VaultKey)
    requires Balanced(s, t, k) && Balanced(t, u, k)
    ensures Balanced(s, u, k)
  {
    hide HeldSum;
  }

  // ---------- updates of one entry ----------

  /** What an update does: one vault total, one child storage, the same amount. */
  lemma UpdateEffect(s: State, k: VaultKey, who: UserId, amount: nat, code: Option<Code>, add: bool, kind: Kind)
    requires k in s.vaults && Update(s, k, who, amount, code, add, kind).Ok?
    ensures var t := Update(s, k, who, amount, code, add, kind).value.0;
            && OnlyVault(s, t, k)
            && t == s.(vaults := t.vaults, entries := t.entries)
            && t.vaults[k] == s.vaults[k].With(kind, t.vaults[k].Of(kind))
            && t.vaults[k].Of(kind) == s.vaults[k].Of(kind) + (if add then amount else 0 - amount)
            && (forall x :: Ahead(t, k, x) == Ahead(s, k, x))
  {
    hide HeldSum;
    var e := EntryKey(s.vaults[k].trie, kind, who);
    var own := Adjusted(AmountAt(s.entries, e), amount, add).value;
    var t := Update(s, k, who, amount, code, add, kind).value.0;
    SetEntryHeld(s.entries, e, own, Update(s, k, who, amount, code, add, kind).value.1);
  }

  lemma MigrateEffect(s: State, k: VaultKey, who: UserId, amount: nat, from: Kind, to: Kind)
    requires k in s.vaults && from != to && Migrate(s, k, who, amount, from, to).Ok?
    ensures var t := Migrate(s, k, who, amount, from, to).value;
            && OnlyVault(s, t, k)
            && t == s.(vaults := t.vaults, entries := t.entries)
            && t.vaults[k] == s.vaults[k].With(from, t.vaults[k].Of(from)).With(to, t.vaults[k].Of(to))
            && t.vaults[k].Of(from) == s.vaults[k].Of(from) - amount
            && t.vaults[k].Of(to) == s.vaults[k].Of(to) + amount
            && (forall x :: Ahead(t, k, x) == Ahead(s, k, x))
  {
    hide HeldSum, Update;
    var taken := Update(s, k, who, amount, None, false, from).value;
    UpdateEffect(s, k, who, amount, None, false, from);
    UpdateEffect(taken.0, k, who, amount, Some(taken.1), true, to);
  }

  // ---------- calls on one vault ----------

  lemma LedgerBalanced(s: State, l: Ledger, t: State, k: VaultKey)
    requires OnlyVault(s.(ledger := l), t, k) && t.ledger == l
    requires forall x :: Ahead(t, k, x) == Ahead(s.(ledger := l), k, x)
    requires l.Balance(s.cfg.relay, CrowdloanPot) - Waiting(t.vaults[k]) == Pot(s) - Waiting(s.vaults[k])
    requires l.Issued(s.cfg.relay) + t.vaults[k].contributed == s.ledger.Issued(s.cfg.relay) + s.vaults[k].contributed
    requires forall d: Asset :: d != s.cfg.relay ==> l.Issued(d) == s.ledger.Issued(d)
    ensures Balanced(s, t, k)
  {
    hide HeldSum;
    assert forall x :: Ahead(s.(ledger := l), k, x) == Ahead(s, k, x);
  }

  lemma ConfirmBalanced(s: State, k: VaultKey, who: UserId, amount: nat)
    requires Confirm(s, k, who, amount).Ok?
    ensures Balanced(s, Confirm(s, k, who, amount).value, k)
    ensures Confirm(s, k, who, amount).value.vaults[k].Total() == s.vaults[k].Total()
    ensures Steady(s, Confirm(s, k, who, amount).value, k)
  {
    hide HeldSum, Migrate;
    var l := s.ledger.Burn(s.cfg.relay, CrowdloanPot, amount).value;
    MigrateEffect(s.(ledger := l), k, who, amount, InFlying, InContributed);
    LedgerBalanced(s, l, Confirm(s, k, who, amount).value, k);
  }

  lemma RefuseBalanced(s: State, k: VaultKey, who: UserId, amount: nat)
    requires Refuse(s, k, who, amount).Ok?
    ensures Balanced(s, Refuse(s, k, who, amount).value, k)
    ensures Refuse(s, k, who, amount).value.vaults[k].Total() <= s.vaults[k].Total()
    ensures Steady(s, Refuse(s, k, who, amount).value, k)
    ensures Moved(s.ledger, Refuse(s, k, who, amount).value.ledger, s.cfg.relay, CrowdloanPot, User(who), amount)
  {
    hide HeldSum, Update;
    var l := s.ledger.Transfer(s.cfg.relay, CrowdloanPot, User(who), amount).value;
    UpdateEffect(s.(ledger := l), k, who, amount, None, false, InFlying);
    LedgerBalanced(s, l, Refuse(s, k, who, amount).value, k);
  }

  lemma RefundOneBalanced(s: State, k: VaultKey, who: UserId, kind: Kind, amount: nat)
    requires k in s.vaults && RefundOne(s, k, who, kind, amount).Ok?
    ensures Balanced(s, RefundOne(s, k, who, kind, amount).value, k)
    ensures RefundOne(s, k, who, kind, amount).value.vaults[k].Total() <= s.vaults[k].Total()
    ensures Steady(s, RefundOne(s, k, who, kind, amount).value, k)
    ensures var l := RefundOne(s, k, who, kind, amount).value.ledger;
            if kind == InContributed then Changed(s.ledger, l, s.cfg.relay, User(who), amount, amount)
            else Moved(s.ledger, l, s.cfg.relay, CrowdloanPot, User(who), amount)
  {
    hide HeldSum, Update;
    var l := if kind == InContributed then s.ledger.Mint(s.cfg.relay, User(who), amount).value
             else s.ledger.Transfer(s.cfg.relay, CrowdloanPot, User(who), amount).value;
    UpdateEffect(s.(ledger := l), k, who, amount, None, false, kind);
    LedgerBalanced(s, l, RefundOne(s, k, who, kind, amount).value, k);
  }

  lemma SendBalanced(s: State, request: Request, k: VaultKey)
    requires k in s.vaults
    ensures Balanced(s, Send(s, request), k)
  {
    hide HeldSum;
  }

  lemma MigrateOneBalanced(s: State, k: VaultKey, who: UserId)
    requires k in s.vaults && MigrateOne(s, k, who).Ok?
    ensures Balanced(s, MigrateOne(s, k, who).value, k)
    ensures MigrateOne(s, k, who).value.vaults[k].Total() == s.vaults[k].Total()
    ensures Steady(s, MigrateOne(s, k, who).value, k)
  {
    hide HeldSum, Migrate, Send;
    var e := EntryKey(s.vaults[k].trie, InPending, who);
    var amount := AmountAt(s.entries, e);
    var t := Migrate(s, k, who, amount, InPending, InFlying).value;
    MigrateEffect(s, k, who, amount, InPending, InFlying);
    LedgerBalanced(s, s.ledger, t, k);
    var request := Contribution(k, who, amount, CodeAt(s.entries, e));
    SendBalanced(t, request, k);
    BalancedTwice(s, t, Send(t, request), k);
    SendKeepsVaults(t, request);
  }

  lemma SendKeepsVaults(s: State, request: Request)
    ensures Send(s, request).vaults == s.vaults && Send(s, request).entries == s.entries
  {
  }

  // ---------- batches ----------

  lemma {:induction false} MigrateEachBalanced(s: State, k: VaultKey, order: seq<UserId>)
    requires k in s.vaults && MigrateEach(s, k, order).Ok?
    ensures Balanced(s, MigrateEach(s, k, order).value, k)
    ensures MigrateEach(s, k, order).value.vaults[k].Total() == s.vaults[k].Total()
    ensures Steady(s, MigrateEach(s, k, order).value, k)
    decreases |order|
  {
    hide HeldSum, MigrateOne, Balanced;
    if order == [] {
      Unchanged(s, k);
    } else {
      var before := MigrateEach(s, k, order[..|order| - 1]).value;
      MigrateEachBalanced(s, k, order[..|order| - 1]);
      MigrateOneBalanced(before, k, order[|order| - 1]);
      BalancedTwice(s, before, MigrateEach(s, k, order).value, k);
    }
  }

  lemma Unchanged(s: State, k: VaultKey)
    requires k in s.vaults
    ensures Balanced(s, s, k)
  {
    hide HeldSum;
  }

  lemma {:induction false} RefundEachBalanced(s: State, k: VaultKey, items: seq<Item>)
    requires k in s.vaults && RefundEach(s, k, items).Ok?
    ensures Balanced(s, RefundEach(s, k, items).value, k)
    ensures RefundEach(s, k, items).value.vaults[k].Total() <= s.vaults[k].Total()
    ensures Steady(s, RefundEach(s, k, items).value, k)
    decreases |items|
  {
    hide HeldSum, RefundOne, Balanced;
    if items == [] {
      Unchanged(s, k);
    } else {
      var before := RefundEach(s, k, items[..|items| - 1]).value;
      RefundEachBalanced(s, k, items[..|items| - 1]);
      var (kind, who) := items[|items| - 1];
      RefundOneBalanced(before, k, who, kind, AmountAt(before.entries, EntryKey(before.vaults[k].trie, kind, who)));
      BalancedTwice(s, before, RefundEach(s, k, items).value, k);
    }
  }

  // ---------- contributions and claims ----------

  lemma ContributeBalanced(s: State, who: UserId, para: ParaId, amount: nat, code: Code)
    requires Contribute(s, who, para, amount, code).Ok?
    ensures s.Current(para).Ok?
    ensures var t, k := Contribute(s, who, para, amount, code).value, s.Current(para).value;
            && Balanced(s, t, k)
            && t.vaults[k].Total() == s.vaults[k].Total() + amount <= s.vaults[k].cap
            && Steady(s, t, k)
  {
    hide HeldSum, Update, Send, Balanced;
    var k := s.Current(para).value;
    var v := s.vaults[k];
    var l := s.ledger.Transfer(s.cfg.relay, User(who), CrowdloanPot, amount).value;
    var kind := if v.phase == Contributing then InFlying else InPending;
    UpdateEffect(s.(ledger := l), k, who, amount, Some(code), true, kind);
    var t := Update(s.(ledger := l), k, who, amount, Some(code), true, kind).value.0;
    LedgerBalanced(s, l, t, k);
    assert Ahead(t, k, InContributed) == Ahead(s.(ledger := l), k, InContributed) == Ahead(s, k, InContributed);
    var request := Contribution(k, who, amount, code);
    SendBalanced(t, request, k);
    BalancedTwice(s, t, Send(t, request), k);
    SendKeepsVaults(t, request);
    assert Ahead(Send(t, request), k, InContributed) == Ahead(t, k, InContributed);
  }

  lemma EntryGone(entries: Entries, e: EntryKey)
    ensures entries - {e} == SetEntry(entries, e, 0, "")
  {
  }

  /** Claiming turns an entry into as many ctokens. */
  lemma ClaimBalanced(s: State, k: VaultKey, who: UserId, force: bool)
    requires Claim(s, k, who, force).Ok? && s.ctokens[k.lease] == s.vaults[k].ctoken
    ensures Balanced(s, Claim(s, k, who, force).value, k)
    ensures Claim(s, k, who, force).value.vaults == s.vaults
    ensures var e := EntryKey(s.vaults[k].trie, InContributed, who);
            && Claim(s, k, who, force).value.entries == s.entries - {e}
            && Changed(s.ledger, Claim(s, k, who, force).value.ledger, s.vaults[k].ctoken, User(who),
                       AmountAt(s.entries, e), AmountAt(s.entries, e))
  {
    hide HeldSum;
    var e := EntryKey(s.vaults[k].trie, InContributed, who);
    EntryGone(s.entries, e);
    SetEntryHeld(s.entries, e, 0, "");
  }

  lemma WithdrawForBalanced(s: State, k: VaultKey, who: UserId)
    requires WithdrawFor(s, k, who).Ok?
    ensures Balanced(s, WithdrawFor(s, k, who).value, k)
    ensures WithdrawFor(s, k, who).value.vaults[k].Total() <= s.vaults[k].Total()
    ensures Steady(s, WithdrawFor(s, k, who).value, k)
    ensures var e := EntryKey(s.vaults[k].trie, InContributed, who);
            && WithdrawFor(s, k, who).value.entries == s.entries - {e}
            && Changed(s.ledger, WithdrawFor(s, k, who).value.ledger, s.cfg.relay, User(who),
                       AmountAt(s.entries, e), AmountAt(s.entries, e))
  {
    hide HeldSum;
    var e := EntryKey(s.vaults[k].trie, InContributed, who);
    EntryGone(s.entries, e);
    SetEntryHeld(s.entries, e, 0, "");
  }

  /** One account gives an amount of one asset and gets as much of another; no other balance differs. */
  ghost predicate Swapped(l: Ledger, n: Ledger, given: Asset, got: Asset, w: Account, amount: nat) {
    forall d: Asset, v: Account :: n.Balance(d, v) == l.Balance(d, v)
      + (if v == w && d == got then amount else 0) - (if v == w && d == given then amount else 0)
  }

  lemma BurnThenMint(l: Ledger, given: Asset, got: Asset, w: Account, amount: nat)
    requires l.Burn(given, w, amount).Ok? && l.Burn(given, w, amount).value.Mint(got, w, amount).Ok?
    ensures var n := l.Burn(given, w, amount).value.Mint(got, w, amount).value;
            && Swapped(l, n, given, got, w, amount)
            && forall d: Asset :: n.Issued(d) == l.Issued(d)
                 + (if d == got then amount else 0) - (if d == given then amount else 0)
  {
    hide Ledger.Mint, Ledger.Burn;
  }

  lemma RedeemBalanced(s: State, k: VaultKey, who: UserId, amount: nat)
    requires Redeem(s, k, who, amount).Ok? && s.ctokens[k.lease] == s.vaults[k].ctoken
    ensures s.vaults[k].phase == Expired && Balanced(s, Redeem(s, k, who, amount).value, k)
    ensures Redeem(s, k, who, amount).value.vaults[k].Total() <= s.vaults[k].Total()
    ensures SameTerms(s.vaults[k], Redeem(s, k, who, amount).value.vaults[k])
    ensures Redeem(s, k, who, amount).value.entries == s.entries
    ensures Swapped(s.ledger, Redeem(s, k, who, amount).value.ledger, s.vaults[k].ctoken, s.cfg.relay, User(who), amount)
  {
    hide HeldSum, Ledger.Mint, Ledger.Burn, Changed;
    BurnThenMint(s.ledger, s.ctokens[k.lease], s.cfg.relay, User(who), amount);
  }

  lemma NotifyBalanced(s: State, id: QueryId, executed: bool)
    requires Notify(s, id, executed).Ok? && id in s.requests
    requires s.requests[id].key in s.vaults || (s.requests[id].Withdrawal? && !executed)
    ensures var t, k := Notify(s, id, executed).value, s.requests[id].key;
            && (k in s.vaults ==> Balanced(s, t, k) && t.vaults[k].Total() <= s.vaults[k].Total())
            && (k in s.vaults ==>
                  if s.requests[id].Withdrawal? && executed
                  then t.vaults[k] == s.vaults[k].(phase := s.requests[id].target) && t.entries == s.entries
                  else Steady(s, t, k))
            && (k in s.vaults && executed ==> t.vaults[k].Total() == s.vaults[k].Total())
            && (k !in s.vaults ==> t == s)
            && (executed ==> t.requests == s.requests - {id})
            && (!executed ==> t.requests == s.requests)
  {
    hide HeldSum, Confirm, Refuse;
    match s.requests[id]
    case Contribution(k, who, amount, _) =>
      if executed {
        ConfirmBalanced(s, k, who, amount);
        ConfirmRequests(s, k, who, amount);
      } else {
        RefuseBalanced(s, k, who, amount);
        RefuseRequests(s, k, who, amount);
      }
    case Withdrawal(k, _, target) =>
  }

  lemma ConfirmRequests(s: State, k: VaultKey, who: UserId, amount: nat)
    requires Confirm(s, k, who, amount).Ok?
    ensures Confirm(s, k, who, amount).value.requests == s.requests
  {
    hide Update;
    var l := s.ledger.Burn(s.cfg.relay, CrowdloanPot, amount).value;
    MigrateEffect(s.(ledger := l), k, who, amount, InFlying, InContributed);
  }

  lemma RefuseRequests(s: State, k: VaultKey, who: UserId, amount: nat)
    requires Refuse(s, k, who, amount).Ok?
    ensures Refuse(s, k, who, amount).value.requests == s.requests
  {
    var l := s.ledger.Transfer(s.cfg.relay, CrowdloanPot, User(who), amount).value;
    UpdateEffect(s.(ledger := l), k, who, amount, None, false, InFlying);
  }
}
