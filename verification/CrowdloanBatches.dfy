/** The batched loops: what one call of `migrate_pending` and `refund` moves, what it reports, and how many
    calls it takes. */
module CrowdloanBatches {
  import opened Base
  import opened Assets
  import opened Crowdloans
  import opened CrowdloanEffects
  import opened CrowdloanRuns

  // ---------- counting entries ----------

  ghost function Count(entries: Entries, trie: nat, kind: Kind): nat {
    |(set e | e in entries && e.trie == trie && e.kind == kind)|
  }

  lemma FrontEnumerates(order: seq<UserId>, entries: Entries, trie: nat, kind: Kind)
    requires order != [] && Enumerates(order, entries, trie, kind)
    ensures Enumerates(order[..|order| - 1], entries - {EntryKey(trie, kind, order[|order| - 1])}, trie, kind)
  {
    var front, last := order[..|order| - 1], order[|order| - 1];
    forall e | e in entries && e.trie == trie && e.kind == kind && e.who != last
      ensures e.who in front
    {
      var i :| 0 <= i < |order| && order[i] == e.who;
      assert front[i] == e.who;
    }
  }

  lemma {:induction false} EnumerationCounts(order: seq<UserId>, entries: Entries, trie: nat, kind: Kind)
    requires Enumerates(order, entries, trie, kind)
    ensures |order| == Count(entries, trie, kind)
    decreases |order|
  {
    var all := set e | e in entries && e.trie == trie && e.kind == kind;
    if order == [] {
      assert all == {};
    } else {
      var e := EntryKey(trie, kind, order[|order| - 1]);
      FrontEnumerates(order, entries, trie, kind);
      EnumerationCounts(order[..|order| - 1], entries - {e}, trie, kind);
      assert (set x | x in entries - {e} && x.trie == trie && x.kind == kind) == all - {e};
    }
  }

  // ---------- migrating ----------

  /** One turn moves one entry from pending to flying, with its whole amount, and sends one request for it. */
  lemma MigrateOneMoves(s: State, k: VaultKey, who: UserId)
    requires k in s.vaults && MigrateOne(s, k, who).Ok?
    ensures var t, trie := MigrateOne(s, k, who).value, s.vaults[k].trie;
            var p, f := EntryKey(trie, InPending, who), EntryKey(trie, InFlying, who);
            && k in t.vaults && t.vaults[k].trie == trie
            && p !in t.entries
            && AmountAt(t.entries, f) == AmountAt(s.entries, f) + AmountAt(s.entries, p)
            && (forall e :: e != p && e != f ==> (e in t.entries <==> e in s.entries))
            && (forall e :: e != p && e != f && e in s.entries ==> t.entries[e] == s.entries[e])
            && t.requests == s.requests[s.nextQuery :=
                 Contribution(k, who, AmountAt(s.entries, p), CodeAt(s.entries, p))]
            && t.nextQuery == s.nextQuery + 1
  {
  }

  /** The users of `done`, and no others, have had their pending amount moved to flying. */
  ghost predicate Flown(before: Entries, after: Entries, trie: nat, done: seq<UserId>) {
    forall w: UserId ::
      var p, f := EntryKey(trie, InPending, w), EntryKey(trie, InFlying, w);
      if w in done
      then p !in after && AmountAt(after, f) == AmountAt(before, f) + AmountAt(before, p)
      else && (p in after <==> p in before) && AmountAt(after, p) == AmountAt(before, p)
           && AmountAt(after, f) == AmountAt(before, f)
  }

  lemma FlownMore(s: State, b: State, k: VaultKey, trie: nat, done: seq<UserId>, who: UserId)
    requires k in b.vaults && b.vaults[k].trie == trie && Flown(s.entries, b.entries, trie, done) && who !in done
    requires MigrateOne(b, k, who).Ok?
    ensures Flown(s.entries, MigrateOne(b, k, who).value.entries, trie, done + [who])
  {
    hide MigrateOne;
    MigrateOneMoves(b, k, who);
  }

  lemma {:induction false} MigrateEachMoves(s: State, k: VaultKey, order: seq<UserId>, i: nat)
    requires k in s.vaults && i <= |order| && Enumerates(order, s.entries, s.vaults[k].trie, InPending)
    requires MigrateEach(s, k, order[..i]).Ok?
    ensures var t := MigrateEach(s, k, order[..i]).value;
            && t.vaults[k].trie == s.vaults[k].trie
            && Flown(s.entries, t.entries, s.vaults[k].trie, order[..i])
            && t.nextQuery == s.nextQuery + i
    decreases i
  {
    hide MigrateOne, Flown;
    if i == 0 {
      NoneFlown(s.entries, s.vaults[k].trie);
    } else {
      var front, who := order[..i - 1], order[i - 1];
      assert order[..i][..i - 1] == front && order[..i] == front + [who];
      MigrateEachMoves(s, k, order, i - 1);
      var before := MigrateEach(s, k, front).value;
      FlownMore(s, before, k, s.vaults[k].trie, front, who);
      MigrateOneMoves(before, k, who);
    }
  }

  lemma NoneFlown(entries: Entries, trie: nat)
    ensures Flown(entries, entries, trie, [])
  {
  }

  lemma RestEnumerated(before: Entries, after: Entries, trie: nat, order: seq<UserId>, i: nat)
    requires i <= |order| && Enumerates(order, before, trie, InPending) && Flown(before, after, trie, order[..i])
    ensures Enumerates(order[i..], after, trie, InPending)
  {
    var rest := order[i..];
    forall j | 0 <= j < |rest|
      ensures EntryKey(trie, InPending, rest[j]) in after
    {
      assert rest[j] == order[i + j] && rest[j] !in order[..i];
    }
    forall e | e in after && e.trie == trie && e.kind == InPending
      ensures e.who in rest
    {
      assert e == EntryKey(trie, InPending, e.who);
      assert e.who !in order[..i];
    }
  }

  /** One call of `migrate_pending` moves the first entries up to the limit, each whole, to flying, sends one
      request for each, leaves the rest, and reports that all was migrated exactly when none is left. */
  lemma MigratePendingMoves(s: State, para: ParaId, order: seq<UserId>, k: VaultKey)
    requires s.Current(para) == Ok(k) && Enumerates(order, s.entries, s.vaults[k].trie, InPending)
    requires Crowdloans.MigratePending(s, para, order).Ok?
    ensures var (t, all) := Crowdloans.MigratePending(s, para, order).value;
            var trie, n := s.vaults[k].trie, Count(s.entries, s.vaults[k].trie, InPending);
            var moved: nat := Min(n, s.cfg.migrateLimit);
            && t.Current(para) == Ok(k) && t.vaults[k].trie == trie && t.cfg == s.cfg
            && moved <= |order|
            && Flown(s.entries, t.entries, trie, order[..moved])
            && t.nextQuery == s.nextQuery + moved
            && Count(t.entries, trie, InPending) == n - moved
            && (all <==> Count(t.entries, trie, InPending) == 0)
  {
    hide Flown, Enumerates, Count, MigrateEach, Balanced;
    var (t, all) := Crowdloans.MigratePending(s, para, order).value;
    EnumerationCounts(order, s.entries, s.vaults[k].trie, InPending);
    var moved: nat := Min(|order|, s.cfg.migrateLimit);
    MigrateEachMoves(s, k, order, moved);
    MigrateEachBalanced(s, k, order[..moved]);
    BalancedCurrent(s, t, k, para);
    RestEnumerated(s.entries, t.entries, s.vaults[k].trie, order, moved);
    EnumerationCounts(order[moved..], t.entries, s.vaults[k].trie, InPending);
  }

  lemma BalancedCurrent(s: State, t: State, k: VaultKey, para: ParaId)
    requires Balanced(s, t, k)
    ensures t.Current(para) == s.Current(para) && t.cfg == s.cfg
  {
  }

  /** Calling `migrate_pending` again and again; fails if one of the calls does. */
  function MigrateAgain(s: State, para: ParaId, orders: seq<seq<UserId>>): Result<State>
    decreases orders
  {
    if orders == [] then Ok(s) else
      var t :- Call(s, CrowdloanRuns.MigratePending(para, orders[0]));
      MigrateAgain(t, para, orders[1..])
  }

  ghost function PendingCount(s: State, k: VaultKey): nat
    requires k in s.vaults
  {
    Count(s.entries, s.vaults[k].trie, InPending)
  }

  lemma MigrateCallCounts(s: State, para: ParaId, order: seq<UserId>, k: VaultKey)
    requires s.Current(para) == Ok(k) && Call(s, CrowdloanRuns.MigratePending(para, order)).Ok?
    ensures var t := Call(s, CrowdloanRuns.MigratePending(para, order)).value;
            && t.Current(para) == Ok(k) && t.cfg == s.cfg
            && PendingCount(t, k) == Max(0, PendingCount(s, k) - s.cfg.migrateLimit)
  {
    hide Enumerates, Count, Crowdloans.MigratePending, Flown;
    MigratePendingMoves(s, para, order, k);
  }

  lemma {:induction false} MigrateAgainCounts(s: State, para: ParaId, orders: seq<seq<UserId>>, k: VaultKey)
    requires s.Current(para) == Ok(k) && MigrateAgain(s, para, orders).Ok?
    ensures var t := MigrateAgain(s, para, orders).value;
            && t.Current(para) == Ok(k)
            && PendingCount(t, k) == Max(0, PendingCount(s, k) - |orders| * s.cfg.migrateLimit)
    decreases |orders|
  {
    hide Call, PendingCount;
    if orders != [] {
      MigrateCallCounts(s, para, orders[0], k);
      var t := Call(s, CrowdloanRuns.MigratePending(para, orders[0])).value;
      MigrateAgainCounts(t, para, orders[1..], k);
      OneFewer(|orders|, s.cfg.migrateLimit);
    }
  }

  /** Each call takes off the limit, so the pending storage is empty exactly once there have been as many
      calls as its size divided by the limit, rounded up. */
  lemma MigrateAgainEmpties(s: State, para: ParaId, orders: seq<seq<UserId>>, k: VaultKey)
    requires s.Current(para) == Ok(k) && MigrateAgain(s, para, orders).Ok? && s.cfg.migrateLimit > 0
    ensures var t := MigrateAgain(s, para, orders).value;
            && t.Current(para) == Ok(k)
            && (PendingCount(t, k) == 0 <==> |orders| >= CeilDiv(PendingCount(s, k), s.cfg.migrateLimit))
  {
    hide MigrateAgain, PendingCount, CeilDiv;
    MigrateAgainCounts(s, para, orders, k);
    CallsNeeded(PendingCount(s, k), s.cfg.migrateLimit, |orders|);
  }

  lemma OneFewer(m: nat, limit: nat)
    requires m > 0
    ensures m * limit == (m - 1) * limit + limit
  {
  }

  lemma CallsNeeded(n: nat, limit: nat, m: nat)
    requires limit > 0
    ensures m >= CeilDiv(n, limit) <==> n <= m * limit
  {
    var q := CeilDiv(n, limit);
    assert limit * q >= n && limit * q < n + limit by {
      assert n + limit - 1 == limit * q + (n + limit - 1) % limit;
    }
    if m >= q {
      assert m * limit >= q * limit;
    } else {
      assert (m + 1) * limit <= q * limit;
    }
  }

  // ---------- refunding ----------

  function KeyOf(trie: nat, item: Item): EntryKey {
    EntryKey(trie, item.0, item.1)
  }

  /** All entries of a trie, each once. */
  ghost predicate EnumeratesItems(items: seq<Item>, entries: Entries, trie: nat) {
    && (forall i, j :: 0 <= i < j < |items| ==> items[i] != items[j])
    && (forall i :: 0 <= i < |items| ==> KeyOf(trie, items[i]) in entries)
    && (forall e :: e in entries && e.trie == trie ==> (e.kind, e.who) in items)
  }

  lemma AllItemsEnumerate(s: State, k: VaultKey, c: seq<UserId>, f: seq<UserId>, p: seq<UserId>)
    requires k in s.vaults && EnumeratesAll(s, k, c, f, p)
    ensures EnumeratesItems(AllItems(c, f, p), s.entries, s.vaults[k].trie)
  {
    var items := AllItems(c, f, p);
    forall e | e in s.entries && e.trie == s.vaults[k].trie
      ensures (e.kind, e.who) in items
    {
      match e.kind
      case InContributed =>
        var i :| 0 <= i < |c| && c[i] == e.who;
        assert items[i] == (InContributed, e.who);
      case InFlying =>
        var i :| 0 <= i < |f| && f[i] == e.who;
        assert items[|c| + i] == (InFlying, e.who);
      case InPending =>
        var i :| 0 <= i < |p| && p[i] == e.who;
        assert items[|c| + |f| + i] == (InPending, e.who);
    }
  }

  /** One turn pays a whole entry back and removes it. */
  lemma RefundOneRemoves(s: State, k: VaultKey, item: Item)
    requires k in s.vaults
    requires var trie := s.vaults[k].trie;
             RefundOne(s, k, item.1, item.0, AmountAt(s.entries, KeyOf(trie, item))).Ok?
    ensures var trie := s.vaults[k].trie;
            var t := RefundOne(s, k, item.1, item.0, AmountAt(s.entries, KeyOf(trie, item))).value;
            && k in t.vaults && t.vaults[k].trie == trie
            && t.entries == s.entries - {KeyOf(trie, item)}
            && t.cfg == s.cfg
  {
    hide Ledger.Mint, Ledger.Transfer;
  }

  lemma {:induction false} RefundEachRemoves(s: State, k: VaultKey, items: seq<Item>, i: nat)
    requires k in s.vaults && i <= |items| && EnumeratesItems(items, s.entries, s.vaults[k].trie)
    requires RefundEach(s, k, items[..i]).Ok?
    ensures var t := RefundEach(s, k, items[..i]).value;
            && t.vaults[k].trie == s.vaults[k].trie
            && EnumeratesItems(items[i..], t.entries, s.vaults[k].trie)
            && (forall e :: e in t.entries ==> e in s.entries && t.entries[e] == s.entries[e])
            && (forall e :: e in s.entries && e.trie != s.vaults[k].trie ==> e in t.entries)
    decreases i
  {
    if i > 0 {
      var front, item := items[..i - 1], items[i - 1];
      assert items[..i][..i - 1] == front;
      RefundEachRemoves(s, k, items, i - 1);
      hide RefundOne;
      var before := RefundEach(s, k, front).value;
      RefundOneRemoves(before, k, item);
      RestOfItems(items[i - 1..], before.entries, s.vaults[k].trie);
      assert items[i - 1..][1..] == items[i..];
    }
  }

  lemma RestOfItems(items: seq<Item>, entries: Entries, trie: nat)
    requires items != [] && EnumeratesItems(items, entries, trie)
    ensures EnumeratesItems(items[1..], entries - {KeyOf(trie, items[0])}, trie)
  {
    var e0 := KeyOf(trie, items[0]);
    forall i | 0 <= i < |items| - 1
      ensures KeyOf(trie, items[1..][i]) in entries - {e0}
    {
      assert items[1..][i] == items[i + 1] != items[0];
    }
    forall e | e in entries - {e0} && e.trie == trie
      ensures (e.kind, e.who) in items[1..]
    {
      var j :| 0 <= j < |items| && items[j] == (e.kind, e.who);
      assert j > 0;
      assert items[1..][j - 1] == items[j];
    }
  }

  /** One call of `refund` pays back and removes the first entries up to the limit, contributed ones first, then
      flying, then pending, leaves the others as they were, and reports completion exactly when no entry of
      the vault is left. */
  lemma RefundRemoves(s: State, k: VaultKey, c: seq<UserId>, f: seq<UserId>, p: seq<UserId>)
    requires k in s.vaults && EnumeratesAll(s, k, c, f, p) && Crowdloans.Refund(s, k, AllItems(c, f, p)).Ok?
    ensures var (t, all) := Crowdloans.Refund(s, k, AllItems(c, f, p)).value;
            var trie, items := s.vaults[k].trie, AllItems(c, f, p);
            var removed: nat := Min(|items|, s.cfg.removeLimit);
            && k in t.vaults && t.vaults[k].trie == trie
            && |items| == |c| + |f| + |p|
            && EnumeratesItems(items[removed..], t.entries, trie)
            && (forall e :: e in t.entries ==> e in s.entries && t.entries[e] == s.entries[e])
            && (forall e :: e in s.entries && e.trie != trie ==> e in t.entries)
            && (all <==> !HasEntries(t.entries, trie))
  {
    hide EnumeratesAll, RefundEach;
    var items := AllItems(c, f, p);
    var removed: nat := Min(|items|, s.cfg.removeLimit);
    AllItemsEnumerate(s, k, c, f, p);
    RefundEachRemoves(s, k, items, removed);
    var (t, all) := Crowdloans.Refund(s, k, items).value;
    if all {
    } else {
      assert KeyOf(s.vaults[k].trie, items[removed..][0]) in t.entries;
    }
  }
}
