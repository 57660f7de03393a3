/** Requests that are refused once and then left alone: everyone else's request can still land. */
module CrowdloanRefusals {
  import opened Base
  import opened Assets
  import opened Crowdloans
  import opened CrowdloanEffects
  import opened CrowdloanRuns
  import opened CrowdloanClaims
  import opened CrowdloanProgress
  import opened CrowdloanRequests
  import opened CrowdloanAmounts
  import opened CrowdloanLanding

  type Ids = set<QueryId>

  // ---------- which requests a step touches ----------

  /** Known requests stay as they are, but for one that is notified as executed; new ones get new ids. */
  ghost predicate RequestsMove(s: State, t: State, op: Op) {
    && s.nextQuery <= t.nextQuery
    && (forall id :: id in s.requests && id < s.nextQuery && !(op.Notification? && op.executed && op.id == id) ==>
          id in t.requests && t.requests[id] == s.requests[id])
    && (forall id :: id in t.requests && id < s.nextQuery ==> id in s.requests)
  }

  /** Requests are only added, under new ids. */
  ghost predicate RequestsGrow(s: State, t: State) {
    && s.nextQuery <= t.nextQuery
    && (forall id :: id in s.requests && id < s.nextQuery ==> id in t.requests && t.requests[id] == s.requests[id])
    && (forall id :: id in t.requests && id < s.nextQuery ==> id in s.requests)
  }

  lemma UpdateRequests(s: State, k: VaultKey, who: UserId, amount: nat, code: Option<Code>, add: bool, kind: Kind)
    requires k in s.vaults && Update(s, k, who, amount, code, add, kind).Ok?
    ensures var t := Update(s, k, who, amount, code, add, kind).value.0;
            t.requests == s.requests && t.nextQuery == s.nextQuery && k in t.vaults
  {
    hide SetEntry;
  }

  lemma MigrateRequests(s: State, k: VaultKey, who: UserId, amount: nat, from: Kind, to: Kind)
    requires k in s.vaults && Migrate(s, k, who, amount, from, to).Ok?
    ensures var t := Migrate(s, k, who, amount, from, to).value;
            t.requests == s.requests && t.nextQuery == s.nextQuery
  {
    hide Update;
    var taken := Update(s, k, who, amount, None, false, from).value;
    UpdateRequests(s, k, who, amount, None, false, from);
    UpdateRequests(taken.0, k, who, amount, Some(taken.1), true, to);
  }

  lemma {:induction false} MigrateEachRequests(s: State, k: VaultKey, order: seq<UserId>)
    requires k in s.vaults && MigrateEach(s, k, order).Ok?
    ensures RequestsGrow(s, MigrateEach(s, k, order).value)
    decreases |order|
  {
    hide Migrate;
    if order != [] {
      var before, who := MigrateEach(s, k, order[..|order| - 1]).value, order[|order| - 1];
      MigrateEachRequests(s, k, order[..|order| - 1]);
      var amount := AmountAt(before.entries, EntryKey(before.vaults[k].trie, InPending, who));
      MigrateRequests(before, k, who, amount, InPending, InFlying);
    }
  }

  lemma RefundOneRequests(s: State, k: VaultKey, who: UserId, kind: Kind, amount: nat)
    requires k in s.vaults && RefundOne(s, k, who, kind, amount).Ok?
    ensures var t := RefundOne(s, k, who, kind, amount).value; t.requests == s.requests && t.nextQuery == s.nextQuery
  {
    hide Update, Ledger.Mint, Ledger.Transfer;
    var l := if kind == InContributed then s.ledger.Mint(s.cfg.relay, User(who), amount).value
             else s.ledger.Transfer(s.cfg.relay, CrowdloanPot, User(who), amount).value;
    UpdateRequests(s.(ledger := l), k, who, amount, None, false, kind);
  }

  lemma {:induction false} RefundEachRequests(s: State, k: VaultKey, items: seq<Item>)
    requires k in s.vaults && RefundEach(s, k, items).Ok?
    ensures var t := RefundEach(s, k, items).value; t.requests == s.requests && t.nextQuery == s.nextQuery
    decreases |items|
  {
    hide RefundOne;
    if items != [] {
      var before := RefundEach(s, k, items[..|items| - 1]).value;
      RefundEachRequests(s, k, items[..|items| - 1]);
      var (kind, who) := items[|items| - 1];
      RefundOneRequests(before, k, who, kind, AmountAt(before.entries, EntryKey(before.vaults[k].trie, kind, who)));
    }
  }

  lemma BatchRequests(s: State, op: Op)
    requires (op.MigratePending? || op.Refund?) && Call(s, op).Ok?
    ensures RequestsMove(s, Step(s, op), op)
  {
    hide Enumerates, EnumeratesAll, MigrateEach, RefundEach, AllItems;
    var k := At(s, op);
    match op
    case MigratePending(_, order) => MigrateEachRequests(s, k, order[..Min(|order|, s.cfg.migrateLimit)]);
    case Refund(_, c, f, p) =>
      var items := AllItems(c, f, p);
      RefundEachRequests(s, k, items[..Min(|items|, s.cfg.removeLimit)]);
  }

  lemma ContributeRequests(s: State, op: Op)
    requires (op.Contribute? || op.RefundFor?) && Call(s, op).Ok?
    ensures RequestsMove(s, Step(s, op), op)
  {
    hide Update, RefundOne, Ledger.Transfer;
    match op
    case Contribute(who, para, amount, code) =>
      var k := s.Current(para).value;
      var l := s.ledger.Transfer(s.cfg.relay, User(who), CrowdloanPot, amount).value;
      UpdateRequests(s.(ledger := l), k, who, amount, Some(code), true,
                     if s.vaults[k].phase == Contributing then InFlying else InPending);
    case RefundFor(k, who, kind, amount) => RefundOneRequests(s, k, who, kind, amount);
  }

  lemma NotificationRequests(s: State, op: Op)
    requires op.Notification? && Call(s, op).Ok?
    ensures RequestsMove(s, Step(s, op), op)
  {
    hide Update, Migrate, Ledger.Burn, Ledger.Transfer, Changed, Moved;
    if op.id in s.requests && s.requests[op.id].Contribution? {
      var Contribution(k, who, amount, _) := s.requests[op.id];
      if op.executed {
        var l := s.ledger.Burn(s.cfg.relay, CrowdloanPot, amount).value;
        MigrateRequests(s.(ledger := l), k, who, amount, InFlying, InContributed);
      } else {
        var l := s.ledger.Transfer(s.cfg.relay, CrowdloanPot, User(who), amount).value;
        UpdateRequests(s.(ledger := l), k, who, amount, None, false, InFlying);
      }
    }
  }

  lemma ClaimRequests(s: State, op: Op)
    requires op.Claim? || op.WithdrawFor? || op.Redeem? || op.Transfer? || op.SetVrf? || op.UpdateProxy? || op.RelayBlock?
    ensures var t := Step(s, op); t.requests == s.requests && t.nextQuery == s.nextQuery
  {
    hide Ledger.Mint, Ledger.Burn, Ledger.Transfer, Changed, Moved;
  }

  lemma VaultRequests(s: State, op: Op)
    requires op.CreateVault? || op.UpdateVault? || op.Open? || op.Close? || op.Reopen? || op.AuctionSucceeded?
             || op.Dissolve?
    ensures var t := Step(s, op); t.requests == s.requests && t.nextQuery == s.nextQuery
  {
    hide HasEntries, State.Current;
  }

  lemma AskRequests(s: State, op: Op)
    requires op.AuctionFailed? || op.SlotExpired?
    ensures RequestsGrow(s, Step(s, op))
  {
    hide Send;
    if Call(s, op).Ok? {
      var k := s.Current(op.para).value;
      SendRequests(s, Withdrawal(k, s.vaults[k].contributed, if op.AuctionFailed? then Failed else Expired));
    }
  }

  lemma SendRequests(s: State, request: Request)
    ensures RequestsGrow(s, Send(s, request))
  {
  }

  lemma OtherRequests(s: State, op: Op)
    requires !op.MigratePending? && !op.Refund? && !op.Contribute? && !op.RefundFor? && !op.Notification?
    ensures RequestsMove(s, Step(s, op), op)
  {
    hide Step;
    if op.AuctionFailed? || op.SlotExpired? {
      AskRequests(s, op);
    } else if op.Claim? || op.WithdrawFor? || op.Redeem? || op.Transfer?
              || op.SetVrf? || op.UpdateProxy? || op.RelayBlock? {
      ClaimRequests(s, op);
    } else {
      VaultRequests(s, op);
    }
  }

  lemma StepRequests(s: State, op: Op)
    ensures RequestsMove(s, Step(s, op), op)
  {
    hide Call;
    if Call(s, op).Ok? {
      hide RequestsMove, Step;
      if op.MigratePending? || op.Refund? {
        BatchRequests(s, op);
      } else if op.Contribute? || op.RefundFor? {
        ContributeRequests(s, op);
      } else if op.Notification? {
        NotificationRequests(s, op);
      } else {
        OtherRequests(s, op);
      }
    }
  }

  // ---------- refused and unrefused requests ----------

  ghost function Part(requests: Requests, refused: Ids): Requests {
    map id | id in requests && id in refused :: requests[id]
  }

  lemma {:induction false} Split(requests: Requests, refused: Ids, k: VaultKey, w: UserId)
    ensures Outstanding(requests, k, w)
            == Outstanding(requests - refused, k, w) + Outstanding(Part(requests, refused), k, w)
    decreases refused
  {
    if refused == {} {
      assert requests - refused == requests;
      assert About(Part(requests, refused), k, w) == map[];
    } else {
      hide Outstanding;
      var id :| id in refused;
      var others := refused - {id};
      Split(requests, others, k, w);
      if id in requests {
        assert requests - refused == (requests - others) - {id};
        assert Part(requests, refused) == Part(requests, others)[id := requests[id]];
        DropRequest(requests - others, id, k, w);
        AddRequest(Part(requests, others), id, requests[id], k, w);
      } else {
        assert requests - refused == requests - others && Part(requests, refused) == Part(requests, others);
      }
    }
  }

  /** Everybody has flying exactly what the requests not yet refused ask for. */
  ghost predicate Aligned(s: State, refused: Ids) {
    && FreshIds(s) && (forall id :: id in refused ==> id < s.nextQuery)
    && forall k, w: UserId :: FlyingOf(s, k, w) == Outstanding(s.requests - refused, k, w)
  }

  predicate Refuses(s: State, op: Op) {
    && op.Notification? && !op.executed && Call(s, op).Ok?
    && op.id in s.requests && s.requests[op.id].Contribution?
  }

  function RefusedAfter(s: State, refused: Ids, op: Op): Ids {
    if Refuses(s, op) then refused + {op.id} else refused
  }

  /** A request that was refused is not notified again, and nothing flying is refunded. */
  predicate Once(s: State, refused: Ids, op: Op) {
    match op
    case Notification(id, _) => id !in refused || Call(s, op).Err?
    case Refund(_, _, flying, _) => flying == []
    case RefundFor(_, _, kind, _) => kind != InFlying
    case _ => true
  }

  lemma RefusalAligned(s: State, refused: Ids, id: QueryId)
    requires TriesApart(s) && Aligned(s, refused) && id !in refused && Refuses(s, Notification(id, false))
    ensures Aligned(Step(s, Notification(id, false)), refused + {id})
  {
    hide Update, Ledger.Transfer, Outstanding, FlyingOf;
    var Contribution(k, who, amount, _) := s.requests[id];
    var l := s.ledger.Transfer(s.cfg.relay, CrowdloanPot, User(who), amount).value;
    var t := Step(s, Notification(id, false));
    UpdateFlies(s.(ledger := l), k, who, amount, None, false, InFlying);
    LedgerApart(s, l, t, k, who, 0 - amount);
    assert s.requests - (refused + {id}) == (s.requests - refused) - {id};
    forall m, w: UserId
      ensures FlyingOf(t, m, w) == Outstanding(t.requests - (refused + {id}), m, w)
    {
      DropRequest(s.requests - refused, id, m, w);
    }
  }

  /** A step that leaves the tally and the refused requests alone. */
  lemma TalliedAligned(s: State, t: State, refused: Ids)
    requires Aligned(s, refused) && Tallied(s, t, true) && s.nextQuery <= t.nextQuery
    requires Part(t.requests, refused) == Part(s.requests, refused)
    ensures Aligned(t, refused)
  {
    hide Outstanding, FlyingOf, TriesApart;
    forall k, w: UserId
      ensures FlyingOf(t, k, w) == Outstanding(t.requests - refused, k, w)
    {
      Split(s.requests, refused, k, w);
      Split(t.requests, refused, k, w);
      assert Stranded(t, k, w) == Stranded(s, k, w);
    }
  }

  lemma PartKept(s: State, t: State, op: Op, refused: Ids)
    requires RequestsMove(s, t, op) && (forall id :: id in refused ==> id < s.nextQuery)
    requires op.Notification? && op.executed ==> op.id !in refused
    ensures Part(t.requests, refused) == Part(s.requests, refused)
  {
  }

  lemma StepAligned(s: State, refused: Ids, op: Op)
    requires CrowdInv(s) && Aligned(s, refused) && Once(s, refused, op)
    ensures Aligned(Step(s, op), RefusedAfter(s, refused, op))
  {
    InvTries(s);
    hide CrowdInv, TriesApart, Outstanding, FlyingOf, RequestsMove, Call;
    if Call(s, op).Err? {
    } else if Refuses(s, op) {
      hide Step, Aligned;
      RefusalAligned(s, refused, op.id);
    } else {
      hide Step, Tallied;
      StepTallied(s, op);
      StepRequests(s, op);
      PartKept(s, Step(s, op), op, refused);
      Later(s, op);
      TalliedAligned(s, Step(s, op), refused);
    }
  }

  lemma Later(s: State, op: Op)
    ensures s.nextQuery <= Step(s, op).nextQuery
  {
    hide Step, Call;
    StepRequests(s, op);
  }

  // ---------- over runs ----------

  function RefusedIn(s: State, refused: Ids, ops: seq<Op>): Ids
    decreases ops
  {
    if ops == [] then refused else RefusedIn(Step(s, ops[0]), RefusedAfter(s, refused, ops[0]), ops[1..])
  }

  predicate AllOnce(s: State, refused: Ids, ops: seq<Op>)
    decreases ops
  {
    ops != [] ==> Once(s, refused, ops[0]) && AllOnce(Step(s, ops[0]), RefusedAfter(s, refused, ops[0]), ops[1..])
  }

  /** Over any run in which no refused request is notified again and nothing flying is refunded, everybody has flying
      exactly what their unrefused requests ask for. */
  lemma {:induction false} RunAligned(s: State, refused: Ids, ops: seq<Op>)
    requires CrowdInv(s) && Aligned(s, refused) && AllOnce(s, refused, ops)
    ensures Aligned(Run(s, ops), RefusedIn(s, refused, ops))
    decreases ops
  {
    hide Step, CrowdInv, Aligned, Once, RefusedAfter;
    if ops != [] {
      StepAligned(s, refused, ops[0]);
      StepKeepsInv(s, ops[0]);
      RunAligned(Step(s, ops[0]), RefusedAfter(s, refused, ops[0]), ops[1..]);
    }
  }

  /** Where everything unrefused flies, every unrefused request can be confirmed, and can be refused. */
  lemma AlignedLands(s: State, refused: Ids, id: QueryId, executed: bool)
    requires Funded(s) && Refundable(s) && Aligned(s, refused) && Positive(s)
    requires id in s.requests && s.requests[id].Contribution? && id !in refused
    ensures Notify(s, id, executed).Ok?
  {
    hide Funded, Refundable, Notify, Outstanding, EntriesPositive;
    Lands(s, id, executed);
    RequestWithin(s.requests - refused, id);
    assert FlyingOf(s, s.requests[id].key, s.requests[id].who)
           == Outstanding(s.requests - refused, s.requests[id].key, s.requests[id].who);
  }

  /** So in every run in which no refused request is notified again, nothing flying is refunded, and ctokens are
      redeemed where they were claimed, every outstanding request that was not refused can land either way. */
  lemma RunLands(s: State, refused: Ids, ops: seq<Op>, id: QueryId, executed: bool)
    requires Funded(s) && NoRelayCTokens(s) && RelayIsNoCToken(ops, s.cfg.relay)
    requires Refundable(s) && AllRedeemHere(s, ops) && Positive(s)
    requires Aligned(s, refused) && AllOnce(s, refused, ops)
    requires var t := Run(s, ops);
             id in t.requests && t.requests[id].Contribution? && id !in RefusedIn(s, refused, ops)
    ensures Notify(Run(s, ops), id, executed).Ok?
  {
    FundedBacked(s);
    hide Run, Funded, NoRelayCTokens, Refundable, AllRedeemHere, Aligned, AllOnce, RefusedIn, Positive, Notify;
    RunKeepsFunded(s, ops);
    RunKeepsRefundable(s, ops);
    RunAligned(s, refused, ops);
    RunKeepsPositive(s, ops);
    AlignedLands(Run(s, ops), RefusedIn(s, refused, ops), id, executed);
  }
}
