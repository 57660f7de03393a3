/** Who is paid by the crowdloans: what a user has of an asset, with the entries of the user counted as relay tokens,
    moves only by plain payments and by turning entries into ctokens and ctokens into relay tokens. */
module CrowdloanOwners {
  import opened Base
  import opened Sums
  import opened Assets
  import opened Crowdloans
  import opened CrowdloanEffects
  import opened CrowdloanRuns
  import opened CrowdloanClaims

  ghost function OwnEntries(entries: Entries, u: UserId): map<EntryKey, int> {
    map e | e in entries && e.who == u :: entries[e].amount
  }

  /** What a user has in all child storages of all vaults. */
  ghost function Own(entries: Entries, u: UserId): int {
    Sum(OwnEntries(entries, u))
  }

  ghost function Wealth(s: State, u: UserId, d: Asset): int {
    s.ledger.Balance(d, User(u)) + (if d == s.cfg.relay then Own(s.entries, u) else 0)
  }

  // ---------- entries ----------

  lemma SetEntryOwn(entries: Entries, e: EntryKey, amount: nat, code: Code, u: UserId)
    ensures Own(SetEntry(entries, e, amount, code), u)
            == Own(entries, u) + (if e.who == u then amount - AmountAt(entries, e) else 0)
  {
    hide Sum;
    var own := OwnEntries(entries, u);
    var after := OwnEntries(SetEntry(entries, e, amount, code), u);
    if e.who != u {
      assert after == own;
    } else if amount == 0 {
      assert after == own - {e};
      if e in own {
        SumRemove(own, e);
      } else {
        assert own - {e} == own;
      }
    } else {
      assert after == own[e := amount];
      SumUpdate(own, e, amount);
    }
  }

  lemma EntryGoneOwn(entries: Entries, e: EntryKey, u: UserId)
    ensures Own(entries - {e}, u) == Own(entries, u) - (if e.who == u then AmountAt(entries, e) else 0)
  {
    hide Own;
    EntryGone(entries, e);
    SetEntryOwn(entries, e, 0, "", u);
  }

  lemma UpdateOwn(s: State, k: VaultKey, who: UserId, amount: nat, code: Option<Code>, add: bool, kind: Kind, u: UserId)
    requires k in s.vaults && Update(s, k, who, amount, code, add, kind).Ok?
    ensures var t := Update(s, k, who, amount, code, add, kind).value.0;
            && t.ledger == s.ledger && t.cfg == s.cfg && k in t.vaults
            && Own(t.entries, u) == Own(s.entries, u)
                 + (if who != u then 0 else if add then amount else 0 - amount)
  {
    hide Own, SetEntry;
    var e := EntryKey(s.vaults[k].trie, kind, who);
    SetEntryOwn(s.entries, e, Adjusted(AmountAt(s.entries, e), amount, add).value,
                Update(s, k, who, amount, code, add, kind).value.1, u);
  }

  lemma MigrateOwn(s: State, k: VaultKey, who: UserId, amount: nat, from: Kind, to: Kind, u: UserId)
    requires k in s.vaults && Migrate(s, k, who, amount, from, to).Ok?
    ensures var t := Migrate(s, k, who, amount, from, to).value;
            t.ledger == s.ledger && t.cfg == s.cfg && k in t.vaults && Own(t.entries, u) == Own(s.entries, u)
  {
    hide Own, Update;
    var taken := Update(s, k, who, amount, None, false, from).value;
    UpdateOwn(s, k, who, amount, None, false, from, u);
    UpdateOwn(taken.0, k, who, amount, Some(taken.1), true, to, u);
  }

  // ---------- parts of calls ----------

  ghost predicate SameWealth(s: State, t: State, u: UserId, d: Asset) {
    t.cfg == s.cfg && Wealth(t, u, d) == Wealth(s, u, d)
  }

  lemma ConfirmWealth(s: State, k: VaultKey, who: UserId, amount: nat, u: UserId, d: Asset)
    requires Confirm(s, k, who, amount).Ok?
    ensures SameWealth(s, Confirm(s, k, who, amount).value, u, d)
  {
    hide Own, Migrate, Ledger.Burn;
    MigrateOwn(s.(ledger := s.ledger.Burn(s.cfg.relay, CrowdloanPot, amount).value),
               k, who, amount, InFlying, InContributed, u);
  }

  /** A refused contributor, and nobody else, is paid what leaves their entry. */
  lemma RefuseWealth(s: State, k: VaultKey, who: UserId, amount: nat, u: UserId, d: Asset)
    requires Refuse(s, k, who, amount).Ok?
    ensures SameWealth(s, Refuse(s, k, who, amount).value, u, d)
  {
    hide Own, Update, Ledger.Transfer;
    var l := s.ledger.Transfer(s.cfg.relay, CrowdloanPot, User(who), amount).value;
    UpdateOwn(s.(ledger := l), k, who, amount, None, false, InFlying, u);
  }

  lemma RefundOneWealth(s: State, k: VaultKey, who: UserId, kind: Kind, amount: nat, u: UserId, d: Asset)
    requires k in s.vaults && RefundOne(s, k, who, kind, amount).Ok?
    ensures SameWealth(s, RefundOne(s, k, who, kind, amount).value, u, d)
  {
    hide Own, Update, Ledger.Transfer, Ledger.Mint;
    var l := if kind == InContributed then s.ledger.Mint(s.cfg.relay, User(who), amount).value
             else s.ledger.Transfer(s.cfg.relay, CrowdloanPot, User(who), amount).value;
    UpdateOwn(s.(ledger := l), k, who, amount, None, false, kind, u);
  }

  lemma {:induction false} RefundEachWealth(s: State, k: VaultKey, items: seq<Item>, u: UserId, d: Asset)
    requires k in s.vaults && RefundEach(s, k, items).Ok?
    ensures SameWealth(s, RefundEach(s, k, items).value, u, d)
    decreases |items|
  {
    hide RefundOne, Wealth;
    if items != [] {
      var before := RefundEach(s, k, items[..|items| - 1]).value;
      RefundEachWealth(s, k, items[..|items| - 1], u, d);
      var (kind, who) := items[|items| - 1];
      RefundOneWealth(before, k, who, kind, AmountAt(before.entries, EntryKey(before.vaults[k].trie, kind, who)), u, d);
    }
  }

  lemma MigrateOneWealth(s: State, k: VaultKey, who: UserId, u: UserId, d: Asset)
    requires k in s.vaults && MigrateOne(s, k, who).Ok?
    ensures SameWealth(s, MigrateOne(s, k, who).value, u, d)
  {
    hide Own, Migrate;
    var amount := AmountAt(s.entries, EntryKey(s.vaults[k].trie, InPending, who));
    MigrateOwn(s, k, who, amount, InPending, InFlying, u);
  }

  lemma {:induction false} MigrateEachWealth(s: State, k: VaultKey, order: seq<UserId>, u: UserId, d: Asset)
    requires k in s.vaults && MigrateEach(s, k, order).Ok?
    ensures SameWealth(s, MigrateEach(s, k, order).value, u, d)
    decreases |order|
  {
    hide MigrateOne, Wealth;
    if order != [] {
      MigrateEachWealth(s, k, order[..|order| - 1], u, d);
      MigrateOneWealth(MigrateEach(s, k, order[..|order| - 1]).value, k, order[|order| - 1], u, d);
    }
  }

  lemma ContributeWealth(s: State, who: UserId, para: ParaId, amount: nat, code: Code, u: UserId, d: Asset)
    requires Crowdloans.Contribute(s, who, para, amount, code).Ok?
    ensures SameWealth(s, Crowdloans.Contribute(s, who, para, amount, code).value, u, d)
  {
    hide Own, Update, Ledger.Transfer;
    var k := s.Current(para).value;
    var l := s.ledger.Transfer(s.cfg.relay, User(who), CrowdloanPot, amount).value;
    UpdateOwn(s.(ledger := l), k, who, amount, Some(code), true,
              if s.vaults[k].phase == Contributing then InFlying else InPending, u);
  }

  // ---------- claims ----------

  /** What an exchange of so much of one asset for another does to one of the two. */
  function Exchanged(given: Asset, got: Asset, amount: nat, d: Asset): int {
    (if d == got then amount else 0) - (if d == given then amount else 0)
  }

  /** What a claim or a redemption turns for a user: a claim entries, which count as relay tokens, into ctokens, a
      redemption ctokens into relay tokens. */
  function Turned(s: State, op: Op, u: UserId, d: Asset): int {
    if Call(s, op).Err? || !(op.Claim? || op.Redeem?) || op.who != u then 0
    else if op.key !in s.vaults || op.key.lease !in s.ctokens then 0
    else
      var ctoken := s.ctokens[op.key.lease];
      if op.Claim?
      then Exchanged(s.cfg.relay, ctoken, AmountAt(s.entries, EntryKey(s.vaults[op.key].trie, InContributed, u)), d)
      else Exchanged(ctoken, s.cfg.relay, op.amount, d)
  }

  lemma ClaimWealth(s: State, k: VaultKey, who: UserId, force: bool, u: UserId, d: Asset)
    requires Crowdloans.Claim(s, k, who, force).Ok?
    ensures var t := Crowdloans.Claim(s, k, who, force).value;
            t.cfg == s.cfg && Wealth(t, u, d) == Wealth(s, u, d) + Turned(s, CrowdloanRuns.Claim(k, who, force), u, d)
  {
    hide Own, Ledger.Mint;
    EntryGoneOwn(s.entries, EntryKey(s.vaults[k].trie, InContributed, who), u);
  }

  lemma WithdrawForWealth(s: State, k: VaultKey, who: UserId, u: UserId, d: Asset)
    requires Crowdloans.WithdrawFor(s, k, who).Ok?
    ensures SameWealth(s, Crowdloans.WithdrawFor(s, k, who).value, u, d)
  {
    hide Own, Ledger.Mint;
    EntryGoneOwn(s.entries, EntryKey(s.vaults[k].trie, InContributed, who), u);
  }

  lemma RedeemWealth(s: State, k: VaultKey, who: UserId, amount: nat, u: UserId, d: Asset)
    requires Crowdloans.Redeem(s, k, who, amount).Ok?
    ensures var t := Crowdloans.Redeem(s, k, who, amount).value;
            t.cfg == s.cfg && Wealth(t, u, d) == Wealth(s, u, d) + Turned(s, CrowdloanRuns.Redeem(k, who, amount), u, d)
  {
    hide Own, Ledger.Mint, Ledger.Burn;
  }

  // ---------- one step ----------

  /** What plain payments bring a user, less what they take. */
  function Paid(s: State, op: Op, u: UserId, d: Asset): int {
    if op.Transfer? && Call(s, op).Ok? && op.asset == d
    then (if op.to == User(u) then op.amount else 0) - (if op.from == u then op.amount else 0) else 0
  }

  lemma PaymentWealth(s: State, op: Op, u: UserId, d: Asset)
    requires op.Transfer? && Call(s, op).Ok?
    ensures Step(s, op).cfg == s.cfg && Wealth(Step(s, op), u, d) == Wealth(s, u, d) + Paid(s, op, u, d)
  {
    hide Own, Ledger.Transfer;
  }

  lemma NotifyWealth(s: State, id: QueryId, executed: bool, u: UserId, d: Asset)
    requires Notify(s, id, executed).Ok?
    ensures SameWealth(s, Notify(s, id, executed).value, u, d)
  {
    hide Own, Confirm, Refuse;
    if id in s.requests && s.requests[id].Contribution? {
      var Contribution(k, who, amount, _) := s.requests[id];
      if executed {
        ConfirmWealth(s, k, who, amount, u, d);
      } else {
        RefuseWealth(s, k, who, amount, u, d);
      }
    }
  }

  lemma BatchWealth(s: State, op: Op, u: UserId, d: Asset)
    requires (op.MigratePending? || op.Refund?) && Call(s, op).Ok?
    ensures SameWealth(s, Step(s, op), u, d)
  {
    hide Enumerates, EnumeratesAll, MigrateEach, RefundEach, AllItems, Wealth;
    var k := At(s, op);
    match op
    case MigratePending(_, order) => MigrateEachWealth(s, k, order[..Min(|order|, s.cfg.migrateLimit)], u, d);
    case Refund(_, c, f, p) =>
      var items := AllItems(c, f, p);
      RefundEachWealth(s, k, items[..Min(|items|, s.cfg.removeLimit)], u, d);
  }

  lemma MoneyWealth(s: State, op: Op, u: UserId, d: Asset)
    requires (op.Contribute? || op.RefundFor? || op.Notification? || op.WithdrawFor?) && Call(s, op).Ok?
    ensures SameWealth(s, Step(s, op), u, d)
  {
    hide Crowdloans.Contribute, RefundOne, Notify, Crowdloans.WithdrawFor, Wealth;
    match op
    case Contribute(who, para, amount, code) => ContributeWealth(s, who, para, amount, code, u, d);
    case RefundFor(k, who, kind, amount) => RefundOneWealth(s, k, who, kind, amount, u, d);
    case Notification(id, executed) => NotifyWealth(s, id, executed, u, d);
    case WithdrawFor(k, who) => WithdrawForWealth(s, k, who, u, d);
  }

  lemma QuietWealth(s: State, op: Op, u: UserId, d: Asset)
    requires op.CreateVault? || op.UpdateVault? || op.Open? || op.Close? || op.Reopen? || op.AuctionSucceeded?
             || op.AuctionFailed? || op.SlotExpired? || op.Dissolve? || op.SetVrf? || op.UpdateProxy? || op.RelayBlock?
    ensures SameWealth(s, Step(s, op), u, d)
  {
    hide Own, HasEntries, State.Current, Ledger.Balance;
  }

  lemma TurningWealth(s: State, op: Op, u: UserId, d: Asset)
    requires (op.Claim? || op.Redeem?) && Call(s, op).Ok?
    ensures Step(s, op).cfg == s.cfg && Wealth(Step(s, op), u, d) == Wealth(s, u, d) + Turned(s, op, u, d)
  {
    hide Wealth, Turned, Crowdloans.Claim, Crowdloans.Redeem;
    match op
    case Claim(k, who, force) => ClaimWealth(s, k, who, force, u, d);
    case Redeem(k, who, amount) => RedeemWealth(s, k, who, amount, u, d);
  }

  lemma Unturned(s: State, op: Op, u: UserId, d: Asset)
    ensures (!op.Claim? && !op.Redeem?) || Call(s, op).Err? ==> Turned(s, op, u, d) == 0
    ensures !op.Transfer? || Call(s, op).Err? ==> Paid(s, op, u, d) == 0
  {
  }

  /** In one step of any call, what a user has of an asset moves only by a payment or by what the user turns. */
  lemma StepWealth(s: State, op: Op, u: UserId, d: Asset)
    ensures Step(s, op).cfg == s.cfg
    ensures Wealth(Step(s, op), u, d) == Wealth(s, u, d) + Paid(s, op, u, d) + Turned(s, op, u, d)
  {
    hide Call, Wealth, Paid, Turned;
    Unturned(s, op, u, d);
    if Call(s, op).Err? {
    } else {
      hide Step;
      if op.Claim? || op.Redeem? {
        TurningWealth(s, op, u, d);
      } else if op.Transfer? {
        PaymentWealth(s, op, u, d);
      } else if op.MigratePending? || op.Refund? {
        BatchWealth(s, op, u, d);
      } else if op.Contribute? || op.RefundFor? || op.Notification? || op.WithdrawFor? {
        MoneyWealth(s, op, u, d);
      } else {
        QuietWealth(s, op, u, d);
      }
    }
  }

  // ---------- over runs ----------

  function AllPaid(s: State, ops: seq<Op>, u: UserId, d: Asset): int
    decreases ops
  {
    if ops == [] then 0 else Paid(s, ops[0], u, d) + AllPaid(Step(s, ops[0]), ops[1..], u, d)
  }

  function AllTurned(s: State, ops: seq<Op>, u: UserId, d: Asset): int
    decreases ops
  {
    if ops == [] then 0 else Turned(s, ops[0], u, d) + AllTurned(Step(s, ops[0]), ops[1..], u, d)
  }

  /** Over any run from any state, for every user and every asset: what the user has, with entries counted as relay
      tokens, moves only by plain payments and by what the user turned. So every contribution, refused, refunded
      or withdrawn, in whatever order and however often, goes back to whom it came from. */
  lemma {:induction false} RunWealth(s: State, ops: seq<Op>, u: UserId, d: Asset)
    ensures Wealth(Run(s, ops), u, d) == Wealth(s, u, d) + AllPaid(s, ops, u, d) + AllTurned(s, ops, u, d)
    decreases ops
  {
    hide Step, Wealth, Paid, Turned;
    if ops != [] {
      StepWealth(s, ops[0], u, d);
      RunWealth(Step(s, ops[0]), ops[1..], u, d);
    }
  }

  // ---------- all that a user has ----------

  ghost function Parts(s: State, u: UserId, assets: set<Asset>): map<Asset, int> {
    map d | d in assets :: Wealth(s, u, d)
  }

  /** The relay tokens of a user, the entries, and the balances of all the ctokens. */
  ghost function Estate(s: State, u: UserId, assets: set<Asset>): int {
    Sum(Parts(s, u, assets))
  }

  /** The relay token and every ctoken are among the assets. */
  ghost predicate Encloses(assets: set<Asset>, s: State) {
    s.cfg.relay in assets && forall lease :: lease in s.ctokens ==> s.ctokens[lease] in assets
  }

  predicate CreatesWithin(ops: seq<Op>, assets: set<Asset>) {
    forall i :: 0 <= i < |ops| && ops[i].CreateVault? ==> ops[i].ctoken in assets
  }

  function PaidAny(s: State, op: Op, u: UserId, assets: set<Asset>): int {
    if op.Transfer? && op.asset in assets then Paid(s, op, u, op.asset) else 0
  }

  function AllPaidAny(s: State, ops: seq<Op>, u: UserId, assets: set<Asset>): int
    decreases ops
  {
    if ops == [] then 0 else PaidAny(s, ops[0], u, assets) + AllPaidAny(Step(s, ops[0]), ops[1..], u, assets)
  }

  /** Parts that move at two assets only. */
  lemma PartsMove(s: State, t: State, u: UserId, assets: set<Asset>, x: Asset, n: int, y: Asset, m: int)
    requires forall d: Asset :: Wealth(t, u, d) == Wealth(s, u, d) + (if d == x then n else 0) + (if d == y then m else 0)
    ensures Estate(t, u, assets) == Estate(s, u, assets) + (if x in assets then n else 0) + (if y in assets then m else 0)
  {
    hide Sum, Wealth;
    var a, b := Parts(s, u, assets), Point(assets, x, n);
    var c: map<Asset, int> := map d | d in assets :: Wealth(s, u, d) + (if d == x then n else 0);
    SumLinear(a, 1, b, c);
    SumLinear(c, 1, Point(assets, y, m), Parts(t, u, assets));
    SumPoint(assets, x, n);
    SumPoint(assets, y, m);
  }

  lemma StepEstate(s: State, op: Op, u: UserId, assets: set<Asset>)
    requires Encloses(assets, s)
    ensures Estate(Step(s, op), u, assets) == Estate(s, u, assets) + PaidAny(s, op, u, assets)
  {
    hide Step, Call, Wealth, Estate;
    forall d: Asset
      ensures Wealth(Step(s, op), u, d) == Wealth(s, u, d) + Paid(s, op, u, d) + Turned(s, op, u, d)
    {
      StepWealth(s, op, u, d);
    }
    var t := Step(s, op);
    if op.Transfer? {
      PartsMove(s, t, u, assets, op.asset, Paid(s, op, u, op.asset), 0, 0);
    } else if (op.Claim? || op.Redeem?) && Call(s, op).Ok? && op.who == u
              && op.key in s.vaults && op.key.lease in s.ctokens {
      var ctoken := s.ctokens[op.key.lease];
      var n: int := if op.Claim? then AmountAt(s.entries, EntryKey(s.vaults[op.key].trie, InContributed, u))
                    else 0 - op.amount;
      PartsMove(s, t, u, assets, ctoken, n, s.cfg.relay, 0 - n);
    } else {
      PartsMove(s, t, u, assets, 0, 0, 0, 0);
    }
  }

  lemma StepEncloses(s: State, op: Op, assets: set<Asset>)
    requires CrowdInv(s) && Encloses(assets, s) && (op.CreateVault? ==> op.ctoken in assets)
    ensures Encloses(assets, Step(s, op))
  {
    if op.CreateVault? {
    } else {
      hide Step, Call, Gift, Effect;
      StepEffect(s, op);
      EffectKeepsCTokens(s, Step(s, op), At(s, op), Gift(s, op));
    }
  }

  /** Relay balance, own entries and ctoken balances of a user together move only by plain payments, over any run,
      also with repeated refusals, and also if the relay token is itself a ctoken. */
  lemma {:induction false} RunEstate(s: State, ops: seq<Op>, u: UserId, assets: set<Asset>)
    requires CrowdInv(s) && Encloses(assets, s) && CreatesWithin(ops, assets)
    ensures Estate(Run(s, ops), u, assets) == Estate(s, u, assets) + AllPaidAny(s, ops, u, assets)
    decreases ops
  {
    hide Step, CrowdInv, Encloses, Estate, PaidAny;
    if ops != [] {
      StepEstate(s, ops[0], u, assets);
      StepKeepsInv(s, ops[0]);
      StepEncloses(s, ops[0], assets);
      RunEstate(Step(s, ops[0]), ops[1..], u, assets);
    }
  }
}
