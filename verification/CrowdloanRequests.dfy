/** Requests to the relay chain against the flying contributions they are about: nothing flies that was not
    requested, and nothing is requested that does not fly unless it was refused or refunded. */
module CrowdloanRequests {
  import opened Base
  import opened Sums
  import opened Assets
  import opened Crowdloans
  import opened CrowdloanEffects
  import opened CrowdloanRuns

  type Requests = map<QueryId, Request>

  predicate Concerns(request: Request, k: VaultKey, w: UserId) {
    request.Contribution? && request.key == k && request.who == w
  }

  ghost function About(requests: Requests, k: VaultKey, w: UserId): map<QueryId, int> {
    map id | id in requests && Concerns(requests[id], k, w) :: requests[id].amount
  }

  /** What the outstanding requests of a user at a vault amount to. */
  ghost function Outstanding(requests: Requests, k: VaultKey, w: UserId): int {
    Sum(About(requests, k, w))
  }

  /** What a user has flying at a vault. */
  function FlyingOf(s: State, k: VaultKey, w: UserId): int {
    if k in s.vaults then AmountAt(s.entries, EntryKey(s.vaults[k].trie, InFlying, w)) else 0
  }

  /** Flying beyond what outstanding requests ask for. */
  ghost function Stranded(s: State, k: VaultKey, w: UserId): int {
    FlyingOf(s, k, w) - Outstanding(s.requests, k, w)
  }

  ghost predicate FreshIds(s: State) {
    forall id :: id in s.requests ==> id < s.nextQuery
  }

  /** Nobody has more flying than requested. */
  ghost predicate NothingStranded(s: State) {
    FreshIds(s) && forall k, w: UserId :: Stranded(s, k, w) <= 0
  }

  /** Everybody has flying exactly what is requested. */
  ghost predicate Matched(s: State) {
    FreshIds(s) && forall k, w: UserId :: Stranded(s, k, w) == 0
  }

  // ---------- how the tally moves ----------

  lemma AddRequest(requests: Requests, id: QueryId, request: Request, k: VaultKey, w: UserId)
    requires id !in requests
    ensures Outstanding(requests[id := request], k, w)
            == Outstanding(requests, k, w) + (if Concerns(request, k, w) then request.amount else 0)
  {
    hide Sum;
    var about := About(requests, k, w);
    if Concerns(request, k, w) {
      assert About(requests[id := request], k, w) == about[id := request.amount];
      SumUpdate(about, id, request.amount);
    } else {
      assert About(requests[id := request], k, w) == about;
    }
  }

  lemma DropRequest(requests: Requests, id: QueryId, k: VaultKey, w: UserId)
    requires id in requests
    ensures Outstanding(requests - {id}, k, w)
            == Outstanding(requests, k, w) - (if Concerns(requests[id], k, w) then requests[id].amount else 0)
  {
    hide Sum;
    var about := About(requests, k, w);
    assert About(requests - {id}, k, w) == about - {id};
    if Concerns(requests[id], k, w) {
      SumRemove(about, id);
    } else {
      assert about - {id} == about;
    }
  }

  /** What flies differs by `delta` at one user of one vault. */
  ghost predicate Flies(s: State, t: State, k: VaultKey, who: UserId, delta: int) {
    && TriesApart(t)
    && forall m, w: UserId :: FlyingOf(t, m, w) == FlyingOf(s, m, w) + (if m == k && w == who then delta else 0)
  }

  /** What an update does to single entries. */
  lemma UpdateEntries(s: State, k: VaultKey, who: UserId, amount: nat, code: Option<Code>, add: bool, kind: Kind)
    requires k in s.vaults && Update(s, k, who, amount, code, add, kind).Ok?
    ensures var t, e := Update(s, k, who, amount, code, add, kind).value.0, EntryKey(s.vaults[k].trie, kind, who);
            && t.requests == s.requests && t.nextQuery == s.nextQuery && t.nextTrie == s.nextTrie
            && t.vaults.Keys == s.vaults.Keys && (forall m :: m in s.vaults ==> t.vaults[m].trie == s.vaults[m].trie)
            && AmountAt(t.entries, e) == AmountAt(s.entries, e) + (if add then amount else 0 - amount)
            && (forall x :: x != e ==> AmountAt(t.entries, x) == AmountAt(s.entries, x))
            && (forall x :: x in t.entries ==> x == e || x in s.entries)
  {
    hide SetEntry, AmountAt;
    var e := EntryKey(s.vaults[k].trie, kind, who);
    EntrySet(s.entries, e, Adjusted(AmountAt(s.entries, e), amount, add).value,
             Update(s, k, who, amount, code, add, kind).value.1);
  }

  lemma EntrySet(entries: Entries, e: EntryKey, amount: nat, code: Code)
    ensures AmountAt(SetEntry(entries, e, amount, code), e) == amount
    ensures forall x :: x != e ==> AmountAt(SetEntry(entries, e, amount, code), x) == AmountAt(entries, x)
    ensures forall x :: x in SetEntry(entries, e, amount, code) ==> x == e || x in entries
  {
  }

  lemma UpdateFlies(s: State, k: VaultKey, who: UserId, amount: nat, code: Option<Code>, add: bool, kind: Kind)
    requires TriesApart(s) && k in s.vaults && Update(s, k, who, amount, code, add, kind).Ok?
    ensures var t := Update(s, k, who, amount, code, add, kind).value.0;
            && Flies(s, t, k, who, if kind != InFlying then 0 else if add then amount else 0 - amount)
            && t.requests == s.requests && t.nextQuery == s.nextQuery && k in t.vaults
  {
    hide Update, AmountAt;
    UpdateEntries(s, k, who, amount, code, add, kind);
    var t := Update(s, k, who, amount, code, add, kind).value.0;
    forall m, w: UserId | !(m == k && w == who && kind == InFlying)
      ensures FlyingOf(t, m, w) == FlyingOf(s, m, w)
    {
      if m in s.vaults {
        assert EntryKey(s.vaults[m].trie, InFlying, w) != EntryKey(s.vaults[k].trie, kind, who);
      }
    }
  }

  lemma MigrateFlies(s: State, k: VaultKey, who: UserId, amount: nat, from: Kind, to: Kind)
    requires TriesApart(s) && k in s.vaults && from != to && Migrate(s, k, who, amount, from, to).Ok?
    ensures var t := Migrate(s, k, who, amount, from, to).value;
            && Flies(s, t, k, who, if to == InFlying then amount else if from == InFlying then 0 - amount else 0)
            && t.requests == s.requests && t.nextQuery == s.nextQuery
  {
    hide Update, TriesApart, FlyingOf;
    var taken := Update(s, k, who, amount, None, false, from).value;
    UpdateFlies(s, k, who, amount, None, false, from);
    UpdateFlies(taken.0, k, who, amount, Some(taken.1), true, to);
  }

  /** Nothing becomes stranded; if `exact`, nothing changes between what flies and what is requested. */
  ghost predicate Tallied(s: State, t: State, exact: bool) {
    && TriesApart(t) && FreshIds(t)
    && forall m, w: UserId ::
         Stranded(t, m, w) <= Stranded(s, m, w) && (exact ==> Stranded(t, m, w) == Stranded(s, m, w))
  }

  lemma TalliedTwice(s: State, t: State, u: State, first: bool, second: bool)
    requires Tallied(s, t, first) && Tallied(t, u, second)
    ensures Tallied(s, u, first && second)
  {
    hide Stranded, TriesApart, FreshIds;
  }

  lemma FliesTallied(s: State, t: State, k: VaultKey, who: UserId, delta: int)
    requires Flies(s, t, k, who, delta) && delta <= 0 && FreshIds(s)
    requires t.requests == s.requests && t.nextQuery == s.nextQuery
    ensures Tallied(s, t, delta == 0)
  {
    hide Outstanding, TriesApart, FlyingOf;
  }

  /** A contribution flies together with its request, which overwrites no other. */
  lemma FlownAndSent(s: State, t: State, k: VaultKey, who: UserId, amount: nat, code: Code)
    requires Flies(s, t, k, who, amount) && FreshIds(s) && t.requests == s.requests && t.nextQuery == s.nextQuery
    ensures Tallied(s, Send(t, Contribution(k, who, amount, code)), true)
  {
    hide Outstanding, TriesApart;
    var request := Contribution(k, who, amount, code);
    var u := Send(t, request);
    forall m, w: UserId
      ensures Stranded(u, m, w) == Stranded(s, m, w)
    {
      AddRequest(s.requests, s.nextQuery, request, m, w);
      assert FlyingOf(u, m, w) == FlyingOf(t, m, w);
    }
    SentApart(t, request);
  }

  lemma SentApart(s: State, request: Request)
    requires TriesApart(s)
    ensures TriesApart(Send(s, request))
  {
  }

  lemma LedgerApart(s: State, l: Ledger, t: State, k: VaultKey, who: UserId, delta: int)
    requires Flies(s.(ledger := l), t, k, who, delta)
    ensures Flies(s, t, k, who, delta)
  {
    hide TriesApart;
    forall m, w: UserId
      ensures FlyingOf(s.(ledger := l), m, w) == FlyingOf(s, m, w)
    {
    }
  }

  // ---------- the calls ----------

  lemma MigrateOneTallied(s: State, k: VaultKey, who: UserId)
    requires TriesApart(s) && FreshIds(s) && k in s.vaults && MigrateOne(s, k, who).Ok?
    ensures Tallied(s, MigrateOne(s, k, who).value, true)
  {
    hide Migrate, Send, Tallied, TriesApart, FreshIds, Flies;
    var e := EntryKey(s.vaults[k].trie, InPending, who);
    var amount := AmountAt(s.entries, e);
    MigrateFlies(s, k, who, amount, InPending, InFlying);
    FlownAndSent(s, Migrate(s, k, who, amount, InPending, InFlying).value, k, who, amount, CodeAt(s.entries, e));
  }

  lemma {:induction false} MigrateEachTallied(s: State, k: VaultKey, order: seq<UserId>)
    requires TriesApart(s) && FreshIds(s) && k in s.vaults && MigrateEach(s, k, order).Ok?
    ensures Tallied(s, MigrateEach(s, k, order).value, true)
    decreases |order|
  {
    hide MigrateOne, Stranded;
    if order != [] {
      var before := MigrateEach(s, k, order[..|order| - 1]).value;
      MigrateEachTallied(s, k, order[..|order| - 1]);
      MigrateOneTallied(before, k, order[|order| - 1]);
      TalliedTwice(s, before, MigrateEach(s, k, order).value, true, true);
    }
  }

  lemma RefundOneTallied(s: State, k: VaultKey, who: UserId, kind: Kind, amount: nat)
    requires TriesApart(s) && FreshIds(s) && k in s.vaults && RefundOne(s, k, who, kind, amount).Ok?
    ensures Tallied(s, RefundOne(s, k, who, kind, amount).value, kind != InFlying)
  {
    hide Update, Ledger.Mint, Ledger.Transfer, Stranded, FlyingOf;
    var l := if kind == InContributed then s.ledger.Mint(s.cfg.relay, User(who), amount).value
             else s.ledger.Transfer(s.cfg.relay, CrowdloanPot, User(who), amount).value;
    UpdateFlies(s.(ledger := l), k, who, amount, None, false, kind);
    var t := RefundOne(s, k, who, kind, amount).value;
    LedgerApart(s, l, t, k, who, if kind == InFlying then 0 - amount else 0);
    FliesTallied(s, t, k, who, if kind == InFlying then 0 - amount else 0);
  }

  predicate NoneFlying(items: seq<Item>) {
    forall i :: 0 <= i < |items| ==> items[i].0 != InFlying
  }

  lemma {:induction false} RefundEachTallied(s: State, k: VaultKey, items: seq<Item>)
    requires TriesApart(s) && FreshIds(s) && k in s.vaults && RefundEach(s, k, items).Ok?
    ensures Tallied(s, RefundEach(s, k, items).value, NoneFlying(items))
    decreases |items|
  {
    hide RefundOne, Stranded;
    if items != [] {
      var front := items[..|items| - 1];
      var before := RefundEach(s, k, front).value;
      RefundEachTallied(s, k, front);
      var (kind, who) := items[|items| - 1];
      RefundOneTallied(before, k, who, kind, AmountAt(before.entries, EntryKey(before.vaults[k].trie, kind, who)));
      TalliedTwice(s, before, RefundEach(s, k, items).value, NoneFlying(front), kind != InFlying);
    }
  }

  lemma ContributeTallied(s: State, who: UserId, para: ParaId, amount: nat, code: Code)
    requires TriesApart(s) && FreshIds(s) && Crowdloans.Contribute(s, who, para, amount, code).Ok?
    ensures Tallied(s, Crowdloans.Contribute(s, who, para, amount, code).value, true)
  {
    hide Update, Tallied, Ledger.Transfer, Send, Flies;
    var k := s.Current(para).value;
    var l := s.ledger.Transfer(s.cfg.relay, User(who), CrowdloanPot, amount).value;
    var flying := s.vaults[k].phase == Contributing;
    var kind := if flying then InFlying else InPending;
    var t := Update(s.(ledger := l), k, who, amount, Some(code), true, kind).value.0;
    UpdateFlies(s.(ledger := l), k, who, amount, Some(code), true, kind);
    LedgerApart(s, l, t, k, who, if flying then amount else 0);
    if flying {
      FlownAndSent(s, t, k, who, amount, code);
    } else {
      FliesTallied(s, t, k, who, 0);
    }
  }

  /** A confirmation takes as much from flying as the request it removes asked for. */
  lemma ConfirmTallied(s: State, id: QueryId)
    requires TriesApart(s) && FreshIds(s) && id in s.requests && s.requests[id].Contribution? && Notify(s, id, true).Ok?
    ensures Tallied(s, Notify(s, id, true).value, true)
  {
    hide Migrate, Outstanding, Ledger.Burn, TriesApart;
    var Contribution(k, who, amount, _) := s.requests[id];
    var l := s.ledger.Burn(s.cfg.relay, CrowdloanPot, amount).value;
    var t := Migrate(s.(ledger := l), k, who, amount, InFlying, InContributed).value;
    LedgerTries(s, l);
    MigrateFlies(s.(ledger := l), k, who, amount, InFlying, InContributed);
    LedgerApart(s, l, t, k, who, 0 - amount);
    var u := Notify(s, id, true).value;
    assert u == t.(requests := t.requests - {id});
    forall m, w: UserId
      ensures Stranded(u, m, w) == Stranded(s, m, w)
    {
      DropRequest(s.requests, id, m, w);
      assert FlyingOf(u, m, w) == FlyingOf(t, m, w);
    }
    RequestsTries(t, u.requests);
  }

  lemma LedgerTries(s: State, l: Ledger)
    requires TriesApart(s)
    ensures TriesApart(s.(ledger := l))
  {
  }

  lemma RequestsTries(s: State, requests: Requests)
    requires TriesApart(s)
    ensures TriesApart(s.(requests := requests))
  {
  }

  lemma RefuseTallied(s: State, id: QueryId)
    requires TriesApart(s) && FreshIds(s) && id in s.requests && s.requests[id].Contribution? && Notify(s, id, false).Ok?
    ensures Tallied(s, Notify(s, id, false).value, false)
  {
    hide Update, Ledger.Transfer, Stranded, FlyingOf;
    var Contribution(k, who, amount, _) := s.requests[id];
    var l := s.ledger.Transfer(s.cfg.relay, CrowdloanPot, User(who), amount).value;
    var t := Update(s.(ledger := l), k, who, amount, None, false, InFlying).value.0;
    UpdateFlies(s.(ledger := l), k, who, amount, None, false, InFlying);
    LedgerApart(s, l, t, k, who, 0 - amount);
    FliesTallied(s, t, k, who, 0 - amount);
  }

  lemma WithdrawalTallied(s: State, id: QueryId, executed: bool)
    requires TriesApart(s) && FreshIds(s) && id in s.requests && s.requests[id].Withdrawal? && Notify(s, id, executed).Ok?
    ensures Tallied(s, Notify(s, id, executed).value, true)
  {
    hide Outstanding;
    var t := Notify(s, id, executed).value;
    forall m, w: UserId
      ensures Stranded(t, m, w) == Stranded(s, m, w)
    {
      DropRequest(s.requests, id, m, w);
      assert FlyingOf(t, m, w) == FlyingOf(s, m, w);
    }
  }

  /** A step that touches neither what flies nor the requests. */
  lemma QuietTallied(s: State, t: State)
    requires TriesApart(t) && FreshIds(s) && t.requests == s.requests && t.nextQuery == s.nextQuery
    requires forall m, w: UserId :: FlyingOf(t, m, w) == FlyingOf(s, m, w)
    ensures Tallied(s, t, true)
  {
    hide Outstanding, TriesApart, FlyingOf;
  }

  lemma AskTallied(s: State, request: Request)
    requires TriesApart(s) && FreshIds(s) && request.Withdrawal?
    ensures Tallied(s, Send(s, request), true)
  {
    hide Outstanding;
    var t := Send(s, request);
    forall m, w: UserId
      ensures Stranded(t, m, w) == Stranded(s, m, w)
    {
      AddRequest(s.requests, s.nextQuery, request, m, w);
      assert FlyingOf(t, m, w) == FlyingOf(s, m, w);
    }
  }

  // ---------- the steps ----------

  lemma PhaseIsQuiet(s: State, op: Op)
    requires Call(s, op).Ok?
    requires op.UpdateVault? || op.Open? || op.Close? || op.Reopen? || op.AuctionSucceeded?
    ensures var t := Step(s, op);
            && t.requests == s.requests && t.nextQuery == s.nextQuery && t.entries == s.entries
            && t.vaults.Keys == s.vaults.Keys && forall m :: m in t.vaults ==> t.vaults[m].trie == s.vaults[m].trie
  {
  }

  lemma MoneyIsQuiet(s: State, op: Op)
    requires Call(s, op).Ok?
    requires op.Redeem? || op.SetVrf? || op.UpdateProxy? || op.RelayBlock? || op.Transfer?
    ensures var t := Step(s, op);
            && t.requests == s.requests && t.nextQuery == s.nextQuery && t.entries == s.entries
            && t.vaults.Keys == s.vaults.Keys && forall m :: m in t.vaults ==> t.vaults[m].trie == s.vaults[m].trie
  {
    hide Ledger.Mint, Ledger.Burn, Ledger.Transfer, Changed, Moved;
  }

  lemma ClaimIsQuiet(s: State, op: Op)
    requires Call(s, op).Ok? && (op.Claim? || op.WithdrawFor?)
    ensures var t := Step(s, op);
            && t.requests == s.requests && t.nextQuery == s.nextQuery
            && t.vaults.Keys == s.vaults.Keys && (forall m :: m in t.vaults ==> t.vaults[m].trie == s.vaults[m].trie)
            && forall e: EntryKey :: e.kind == InFlying ==> AmountAt(t.entries, e) == AmountAt(s.entries, e)
  {
    hide Ledger.Mint;
  }

  /** A new vault, and one that is dissolved, have nothing flying. */
  lemma VaultIsQuiet(s: State, op: Op)
    requires CrowdInv(s) && Call(s, op).Ok? && (op.CreateVault? || op.Dissolve?)
    ensures var t := Step(s, op);
            && t.requests == s.requests && t.nextQuery == s.nextQuery
            && forall m, w: UserId :: FlyingOf(t, m, w) == FlyingOf(s, m, w)
  {
    hide HeldSum;
    var t := Step(s, op);
    forall m, w: UserId
      ensures FlyingOf(t, m, w) == FlyingOf(s, m, w)
    {
      assert op.CreateVault? ==> EntryKey(s.nextTrie, InFlying, w) !in s.entries;
    }
  }

  lemma QuietStep(s: State, op: Op)
    requires CrowdInv(s) && FreshIds(s) && Call(s, op).Ok?
    requires op.CreateVault? || op.UpdateVault? || op.Open? || op.Close? || op.Reopen? || op.AuctionSucceeded?
             || op.Dissolve? || op.Claim? || op.WithdrawFor? || op.Redeem? || op.SetVrf? || op.UpdateProxy?
             || op.RelayBlock? || op.Transfer?
    ensures Tallied(s, Step(s, op), true)
  {
    hide Call, Step, Tallied, AmountAt, CrowdInv;
    if op.Claim? || op.WithdrawFor? {
      ClaimIsQuiet(s, op);
    } else if op.CreateVault? || op.Dissolve? {
      VaultIsQuiet(s, op);
    } else if op.Redeem? || op.SetVrf? || op.UpdateProxy? || op.RelayBlock? || op.Transfer? {
      MoneyIsQuiet(s, op);
    } else {
      PhaseIsQuiet(s, op);
    }
    StepKeepsInv(s, op);
    InvTries(Step(s, op));
    QuietTallied(s, Step(s, op));
  }

  lemma InvTries(s: State)
    requires CrowdInv(s)
    ensures TriesApart(s)
  {
  }

  lemma BatchTallied(s: State, op: Op)
    requires TriesApart(s) && FreshIds(s) && (op.MigratePending? || op.Refund?) && Call(s, op).Ok?
    ensures Tallied(s, Step(s, op), KeepsFlying(s, op))
  {
    hide Enumerates, EnumeratesAll, Tallied, MigrateEach, RefundEach, AllItems, TriesApart, FreshIds;
    var k := At(s, op);
    match op
    case MigratePending(_, order) =>
      MigrateEachTallied(s, k, order[..Min(|order|, s.cfg.migrateLimit)]);
    case Refund(_, c, f, p) =>
      var items := AllItems(c, f, p);
      var n := Min(|items|, s.cfg.removeLimit);
      RefundEachTallied(s, k, items[..n]);
      if f == [] {
        NoFlyingItems(c, p, n);
      } else {
        TalliedLoosely(s, Step(s, op), NoneFlying(items[..n]));
      }
  }

  lemma NoFlyingItems(c: seq<UserId>, p: seq<UserId>, n: nat)
    requires n <= |AllItems(c, [], p)|
    ensures NoneFlying(AllItems(c, [], p)[..n])
  {
  }

  lemma TalliedLoosely(s: State, t: State, exact: bool)
    requires Tallied(s, t, exact)
    ensures Tallied(s, t, false)
  {
    hide Stranded, TriesApart, FreshIds;
  }

  /** The call neither refuses a contribution nor refunds a flying one. */
  predicate KeepsFlying(s: State, op: Op) {
    match op
    case Notification(id, executed) => executed || id !in s.requests || s.requests[id].Withdrawal?
    case Refund(_, _, flying, _) => flying == []
    case RefundFor(_, _, kind, _) => kind != InFlying
    case _ => true
  }

  lemma NotificationTallied(s: State, op: Op)
    requires TriesApart(s) && FreshIds(s) && op.Notification? && Call(s, op).Ok?
    ensures Tallied(s, Step(s, op), KeepsFlying(s, op))
  {
    if op.id !in s.requests {
    } else {
      hide Notify, Tallied, TriesApart, FreshIds;
      if s.requests[op.id].Withdrawal? {
        WithdrawalTallied(s, op.id, op.executed);
      } else if op.executed {
        ConfirmTallied(s, op.id);
      } else {
        RefuseTallied(s, op.id);
      }
    }
  }

  lemma AskStep(s: State, op: Op)
    requires TriesApart(s) && FreshIds(s) && (op.AuctionFailed? || op.SlotExpired?) && Call(s, op).Ok?
    ensures Tallied(s, Step(s, op), true)
  {
    hide Send, Tallied, TriesApart, FreshIds;
    var k := At(s, op);
    AskTallied(s, Withdrawal(k, s.vaults[k].contributed, if op.AuctionFailed? then Failed else Expired));
  }

  lemma ContributeStep(s: State, op: Op)
    requires TriesApart(s) && FreshIds(s) && op.Contribute? && Call(s, op).Ok?
    ensures Tallied(s, Step(s, op), true)
  {
    hide Crowdloans.Contribute, Tallied, TriesApart, FreshIds;
    ContributeTallied(s, op.who, op.para, op.amount, op.code);
  }

  lemma RefundForStep(s: State, op: Op)
    requires TriesApart(s) && FreshIds(s) && op.RefundFor? && Call(s, op).Ok?
    ensures Tallied(s, Step(s, op), KeepsFlying(s, op))
  {
    hide RefundOne, Tallied, TriesApart, FreshIds;
    RefundOneTallied(s, op.key, op.who, op.kind, op.amount);
  }

  /** No step strands anything, and one that neither refuses nor refunds what flies leaves the tally as it is. */
  lemma StepTallied(s: State, op: Op)
    requires CrowdInv(s) && FreshIds(s)
    ensures Tallied(s, Step(s, op), KeepsFlying(s, op))
  {
    InvTries(s);
    hide Call, CrowdInv, TriesApart, FreshIds;
    if Call(s, op).Err? {
    } else {
      hide Tallied;
      if op.Contribute? {
        ContributeStep(s, op);
      } else if op.MigratePending? || op.Refund? {
        BatchTallied(s, op);
      } else if op.RefundFor? {
        RefundForStep(s, op);
      } else if op.Notification? {
        NotificationTallied(s, op);
      } else if op.AuctionFailed? || op.SlotExpired? {
        AskStep(s, op);
      } else {
        QuietStep(s, op);
      }
    }
  }

  lemma StepStrandsNothing(s: State, op: Op)
    requires CrowdInv(s) && NothingStranded(s)
    ensures NothingStranded(Step(s, op))
    ensures Matched(s) && KeepsFlying(s, op) ==> Matched(Step(s, op))
  {
    hide Step, Stranded, CrowdInv, KeepsFlying;
    StepTallied(s, op);
  }

  /** In every reachable state, under every interleaving and repetition: what a user has flying at a vault is at
      most what the outstanding requests for that user and vault ask for. */
  lemma {:induction false} RunStrandsNothing(s: State, ops: seq<Op>)
    requires CrowdInv(s) && NothingStranded(s)
    ensures NothingStranded(Run(s, ops))
    decreases ops
  {
    hide Step, CrowdInv, NothingStranded, Matched;
    if ops != [] {
      StepStrandsNothing(s, ops[0]);
      StepKeepsInv(s, ops[0]);
      RunStrandsNothing(Step(s, ops[0]), ops[1..]);
    }
  }

  predicate AllKeepFlying(s: State, ops: seq<Op>)
    decreases ops
  {
    ops != [] ==> KeepsFlying(s, ops[0]) && AllKeepFlying(Step(s, ops[0]), ops[1..])
  }

  /** Over runs without refusals and refunds of flying contributions, it is exactly that. */
  lemma {:induction false} RunMatches(s: State, ops: seq<Op>)
    requires CrowdInv(s) && Matched(s) && AllKeepFlying(s, ops)
    ensures Matched(Run(s, ops))
    decreases ops
  {
    hide Step, CrowdInv, Stranded, KeepsFlying;
    if ops != [] {
      StepStrandsNothing(s, ops[0]);
      StepKeepsInv(s, ops[0]);
      RunMatches(Step(s, ops[0]), ops[1..]);
    }
  }

  /** Someone with money flying has an outstanding request; whether it can land is another matter. */
  lemma FlyingHasRequest(s: State, k: VaultKey, w: UserId)
    requires NothingStranded(s) && FlyingOf(s, k, w) > 0
    ensures exists id :: id in s.requests && Concerns(s.requests[id], k, w)
  {
    assert Stranded(s, k, w) <= 0;
    var about := About(s.requests, k, w);
    assert about != map[];
    var id := Pick(about);
    assert id in s.requests && Concerns(s.requests[id], k, w);
  }
}
