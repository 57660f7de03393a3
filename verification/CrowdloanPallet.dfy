/** The crowdloans pallet as an object that executes the calls of `Crowdloans` on its storage. */
module CrowdloanPallet {
  import opened Base
  import opened Assets
  import opened Crowdloans
  import opened CrowdloanRuns
  import opened CrowdloanLanding
  import opened CrowdloanProgress
  import opened CrowdloanOutcomes

  /** The checks of `contribute` on the current vault. */
  function Contributable(s: State, k: VaultKey, amount: nat): Result<()>
    requires k in s.vaults
  {
    var v := s.vaults[k];
    if amount == 0 then Err(InvalidParams)
    else if s.relayNow > v.endBlock then Err(EndBlockExceeded)
    else if v.phase !in {Contributing, Pending} then Err(IncorrectVaultPhase)
    else if amount < s.cfg.minContribution then Err(InsufficientContribution)
    else if s.isVrf then Err(VrfDelayInProgress) else
      var total :- ToU128(v.Total(), Overflow);
      var after :- ToU128(total + amount, Overflow);
      if after > v.cap then Err(CapExceeded) else Ok(())
  }

  function Taken(s: State, k: VaultKey, who: UserId, amount: nat, code: Code, kind: Kind): (r: Result<State>)
    requires k in s.vaults
    ensures r.Ok? ==> k in r.value.vaults
  {
    var l :- s.ledger.Transfer(s.cfg.relay, User(who), CrowdloanPot, amount);
    var updated :- Update(s.(ledger := l), k, who, amount, Some(code), true, kind);
    Ok(updated.0)
  }

  /** What `contribute` does once its checks have passed. */
  function Booked(s: State, k: VaultKey, who: UserId, amount: nat, code: Code): Result<State>
    requires k in s.vaults
  {
    if s.vaults[k].phase != Contributing then Taken(s, k, who, amount, code, InPending) else
      var taken :- Taken(s, k, who, amount, code, InFlying);
      SendContribution(taken, k, who, amount, code)
  }

  lemma ContributeUnfolds(s: State, who: UserId, para: ParaId, amount: nat, code: Code)
    ensures s.Current(para).Err? ==> Crowdloans.Contribute(s, who, para, amount, code) == Err(s.Current(para).error)
    ensures s.Current(para).Ok? ==>
              var k := s.Current(para).value;
              Crowdloans.Contribute(s, who, para, amount, code)
              == if Contributable(s, k, amount).Err? then Err(Contributable(s, k, amount).error)
                 else Booked(s, k, who, amount, code)
  {
    hide Update, SendContribution, Ledger.Transfer;
  }

  class Pallet {
    var vaults: map<VaultKey, Vault>
    var entries: Entries
    var requests: map<QueryId, Request>
    var ctokens: map<Lease, Asset>
    var leases: map<ParaId, Lease>
    var nextTrie: nat
    var nextQuery: QueryId
    var isVrf: bool
    var hasProxy: bool
    var relayNow: nat
    var ledger: Ledger
    const cfg: Config

    function View(): State
      reads this
    {
      State(vaults, entries, requests, ctokens, leases, nextTrie, nextQuery, isVrf, hasProxy, relayNow, ledger, cfg)
    }

    /** Totals are the sums of their storages and nobody has more flying than is requested; every call keeps it. */
    ghost predicate Valid()
      reads this
    {
      Orderly(View())
    }

    constructor (ledger: Ledger, cfg: Config)
      ensures Valid() && View() == State(map[], map[], map[], map[], map[], 0, 0, false, false, 0, ledger, cfg)
    {
      vaults, entries, requests, ctokens, leases := map[], map[], map[], map[], map[];
      nextTrie, nextQuery, isVrf, hasProxy, relayNow := 0, 0, false, false, 0;
      this.ledger, this.cfg := ledger, cfg;
      new;
      StartsOrderly(View());
    }

    /** What the transactional layer does when a call fails half way. */
    method RollBack(to: State)
      requires to.ctokens == ctokens && to.leases == leases && to.nextTrie == nextTrie && to.isVrf == isVrf
      requires to.hasProxy == hasProxy && to.relayNow == relayNow && to.cfg == cfg
      modifies this`vaults, this`entries, this`requests, this`nextQuery, this`ledger
      ensures View() == to
    {
      vaults, entries, requests, nextQuery, ledger := to.vaults, to.entries, to.requests, to.nextQuery, to.ledger;
    }

    // ---------- helpers ----------

    /** `do_update_contribution`. */
    method DoUpdateContribution(k: VaultKey, who: UserId, amount: nat, code: Option<Code>, add: bool, kind: Kind)
      returns (r: Result<Code>)
      requires k in vaults
      modifies this`vaults, this`entries
      ensures match Update(old(View()), k, who, amount, code, add, kind)
              case Ok((s, c)) => r == Ok(c) && View() == s
              case Err(e) => r == Err(e) && View() == old(View())
      ensures k in vaults
    {
      var vault := vaults[k];
      var e := EntryKey(vault.trie, kind, who);
      var newCode := if code.Some? then code.value else CodeAt(entries, e);
      var total :- Adjusted(vault.Of(kind), amount, add);
      var contribution :- Adjusted(AmountAt(entries, e), amount, add);
      if contribution == 0 {
        entries := entries - {e};
      } else {
        entries := entries[e := Entry(contribution, newCode)];
      }
      vaults := vaults[k := vault.With(kind, total)];
      return Ok(newCode);
    }

    /** `do_migrate_contribution`. */
    method DoMigrateContribution(k: VaultKey, who: UserId, amount: nat, from: Kind, to: Kind) returns (r: Result<()>)
      requires k in vaults
      modifies this`vaults, this`entries
      ensures Executes(r, old(View()), View(), Migrate(old(View()), k, who, amount, from, to))
      ensures k in vaults
    {
      var vaults0, entries0 := vaults, entries;
      var code :- DoUpdateContribution(k, who, amount, None, false, from);
      var moved := DoUpdateContribution(k, who, amount, Some(code), true, to);
      if moved.Err? {
        vaults, entries := vaults0, entries0;
        return Err(moved.error);
      }
      return Ok(());
    }

    method SendRequest(request: Request)
      modifies this`requests, this`nextQuery
      ensures View() == Send(old(View()), request)
    {
      requests := requests[nextQuery := request];
      nextQuery := nextQuery + 1;
    }

    /** `do_contribute`. */
    method DoContribute(k: VaultKey, who: UserId, amount: nat, code: Code) returns (r: Result<()>)
      requires k in vaults
      modifies this`requests, this`nextQuery
      ensures Executes(r, old(View()), View(), SendContribution(old(View()), k, who, amount, code))
    {
      if vaults[k].strategy == XcmProxy && !hasProxy {
        return Err(EmptyProxyAddress);
      }
      SendRequest(Contribution(k, who, amount, code));
      return Ok(());
    }

    /** `do_refund_for`. */
    method DoRefundFor(k: VaultKey, who: UserId, kind: Kind, amount: nat) returns (r: Result<()>)
      requires k in vaults
      modifies this`vaults, this`entries, this`ledger
      ensures Executes(r, old(View()), View(), RefundOne(old(View()), k, who, kind, amount))
      ensures k in vaults
    {
      var ledger0 := ledger;
      if kind == InContributed {
        ledger :- ledger.Mint(cfg.relay, User(who), amount);
      } else {
        ledger :- ledger.Transfer(cfg.relay, CrowdloanPot, User(who), amount);
      }
      var updated := DoUpdateContribution(k, who, amount, None, false, kind);
      if updated.Err? {
        ledger := ledger0;
        return Err(updated.error);
      }
      return Ok(());
    }

    // ---------- vaults ----------

    /** The checks of `create_vault`, in order. */
    method MayCreate(para: ParaId, ctoken: Asset, lease: Lease, cap: nat, endBlock: nat) returns (r: Result<()>)
      ensures r.Ok? <==> Crowdloans.CreateVault(View(), para, ctoken, lease, Xcm, cap, endBlock).Ok?
      ensures r.Err? ==> forall strategy ::
                Crowdloans.CreateVault(View(), para, ctoken, lease, strategy, cap, endBlock) == Err(r.error)
    {
      if cap == 0 {
        return Err(InvalidCap);
      }
      if lease.0 > lease.1 {
        return Err(LastPeriodBeforeFirstPeriod);
      }
      if lease in ctokens && ctokens[lease] != ctoken {
        return Err(InvalidCToken);
      }
      if VaultKey(para, lease) in vaults {
        return Err(VaultAlreadyExists);
      }
      var current := View().Current(para);
      if current.Ok? && vaults[current.value].phase != Failed && vaults[current.value].phase != Expired {
        return Err(VaultNotEnded);
      }
      if relayNow > endBlock {
        return Err(EndBlockExceeded);
      }
      if nextTrie + 1 > U32_MAX {
        return Err(Overflow);
      }
      return Ok(());
    }

    method InsertVault(para: ParaId, ctoken: Asset, lease: Lease, strategy: Strategy, cap: nat, endBlock: nat)
      returns (r: Result<()>)
      modifies this`vaults, this`nextTrie, this`ctokens, this`leases
      ensures Executes(r, old(View()), View(),
                       Crowdloans.CreateVault(old(View()), para, ctoken, lease, strategy, cap, endBlock))
    {
      var _ :- MayCreate(para, ctoken, lease, cap, endBlock);
      vaults := vaults[VaultKey(para, lease) := Vault(ctoken, Pending, 0, 0, 0, strategy, cap, endBlock, nextTrie)];
      nextTrie := nextTrie + 1;
      ctokens := ctokens[lease := ctoken];
      leases := leases[para := lease];
      return Ok(());
    }

    method CreateVault(para: ParaId, ctoken: Asset, lease: Lease, strategy: Strategy, cap: nat, endBlock: nat)
      returns (r: Result<()>)
      requires Valid()
      modifies this`vaults, this`nextTrie, this`ctokens, this`leases
      ensures Valid()
      ensures Executes(r, old(View()), View(),
                       Crowdloans.CreateVault(old(View()), para, ctoken, lease, strategy, cap, endBlock))
    {
      hide Orderly, Crowdloans.CreateVault;
      StepKeepsOrderly(View(), Op.CreateVault(para, ctoken, lease, strategy, cap, endBlock));
      r := InsertVault(para, ctoken, lease, strategy, cap, endBlock);
    }

    method UpdateVault(para: ParaId, cap: Option<nat>, endBlock: Option<nat>, strategy: Option<Strategy>)
      returns (r: Result<()>)
      requires Valid()
      modifies this`vaults
      ensures Valid()
      ensures Executes(r, old(View()), View(), Crowdloans.UpdateVault(old(View()), para, cap, endBlock, strategy))
    {
      hide Orderly;
      StepKeepsOrderly(View(), Op.UpdateVault(para, cap, endBlock, strategy));
      var k :- View().Current(para);
      var vault := vaults[k];
      if cap.Some? {
        if cap.value == 0 {
          return Err(InvalidCap);
        }
        vault := vault.(cap := cap.value);
      }
      if endBlock.Some? {
        if relayNow > endBlock.value {
          return Err(EndBlockExceeded);
        }
        vault := vault.(endBlock := endBlock.value);
      }
      if strategy.Some? {
        vault := vault.(strategy := strategy.value);
      }
      vaults := vaults[k := vault];
      return Ok(());
    }

    /** `try_mutate_vault` with a change of phase. */
    method ChangePhase(para: ParaId, from: Phase, to: Phase) returns (r: Result<()>)
      modifies this`vaults
      ensures Executes(r, old(View()), View(), Turn(old(View()), para, from, to))
    {
      var k :- View().Current(para);
      if vaults[k].phase != from {
        return Err(IncorrectVaultPhase);
      }
      vaults := vaults[k := vaults[k].(phase := to)];
      return Ok(());
    }

    /** `try_mutate_vault` with `do_withdraw`. */
    method DoWithdraw(para: ParaId, from: Phase, target: Phase) returns (r: Result<()>)
      modifies this`requests, this`nextQuery
      ensures Executes(r, old(View()), View(), AskBack(old(View()), para, from, target))
    {
      var k :- View().Current(para);
      if vaults[k].phase != from {
        return Err(IncorrectVaultPhase);
      }
      SendRequest(Withdrawal(k, vaults[k].contributed, target));
      return Ok(());
    }

    method Open(para: ParaId) returns (r: Result<()>)
      requires Valid()
      modifies this`vaults
      ensures Valid() && Executes(r, old(View()), View(), Turn(old(View()), para, Pending, Contributing))
    {
      hide Orderly, Turn;
      StepKeepsOrderly(View(), Op.Open(para));
      r := ChangePhase(para, Pending, Contributing);
    }

    method Close(para: ParaId) returns (r: Result<()>)
      requires Valid()
      modifies this`vaults
      ensures Valid() && Executes(r, old(View()), View(), Turn(old(View()), para, Contributing, Closed))
    {
      hide Orderly, Turn;
      StepKeepsOrderly(View(), Op.Close(para));
      r := ChangePhase(para, Contributing, Closed);
    }

    method Reopen(para: ParaId) returns (r: Result<()>)
      requires Valid()
      modifies this`vaults
      ensures Valid() && Executes(r, old(View()), View(), Turn(old(View()), para, Closed, Contributing))
    {
      hide Orderly, Turn;
      StepKeepsOrderly(View(), Op.Reopen(para));
      r := ChangePhase(para, Closed, Contributing);
    }

    method AuctionSucceeded(para: ParaId) returns (r: Result<()>)
      requires Valid()
      modifies this`vaults
      ensures Valid() && Executes(r, old(View()), View(), Turn(old(View()), para, Closed, Succeeded))
    {
      hide Orderly, Turn;
      StepKeepsOrderly(View(), Op.AuctionSucceeded(para));
      r := ChangePhase(para, Closed, Succeeded);
    }

    method AuctionFailed(para: ParaId) returns (r: Result<()>)
      requires Valid()
      modifies this`requests, this`nextQuery
      ensures Valid() && Executes(r, old(View()), View(), AskBack(old(View()), para, Closed, Failed))
    {
      hide Orderly, AskBack;
      StepKeepsOrderly(View(), Op.AuctionFailed(para));
      r := DoWithdraw(para, Closed, Failed);
    }

    method SlotExpired(para: ParaId) returns (r: Result<()>)
      requires Valid()
      modifies this`requests, this`nextQuery
      ensures Valid() && Executes(r, old(View()), View(), AskBack(old(View()), para, Succeeded, Expired))
    {
      hide Orderly, AskBack;
      StepKeepsOrderly(View(), Op.SlotExpired(para));
      r := DoWithdraw(para, Succeeded, Expired);
    }

    method RemoveVault(k: VaultKey) returns (r: Result<()>)
      modifies this`vaults, this`leases
      ensures Executes(r, old(View()), View(), Crowdloans.Dissolve(old(View()), k))
    {
      hide HasEntries;
      if k !in vaults {
        return Err(VaultDoesNotExist);
      }
      var vault := vaults[k];
      if vault.phase != Closed && vault.phase != Failed && vault.phase != Expired {
        return Err(IncorrectVaultPhase);
      }
      if HasEntries(entries, vault.trie) {
        return Err(NotReadyToDissolve);
      }
      var total :- ToU128(vault.Total(), Overflow);
      if total != 0 {
        return Err(NotReadyToDissolve);
      }
      vaults := vaults - {k};
      if k.para in leases && leases[k.para] == k.lease {
        leases := leases - {k.para};
      }
      return Ok(());
    }

    method DissolveVault(k: VaultKey) returns (r: Result<()>)
      requires Valid()
      modifies this`vaults, this`leases
      ensures Valid()
      ensures Executes(r, old(View()), View(), Crowdloans.Dissolve(old(View()), k))
    {
      hide Orderly, Crowdloans.Dissolve;
      StepKeepsOrderly(View(), Op.Dissolve(k));
      r := RemoveVault(k);
    }

    // ---------- contributions ----------

    /** The money of a contribution goes to the pot, its entry to a storage. */
    method TakeContribution(k: VaultKey, who: UserId, amount: nat, code: Code, kind: Kind) returns (r: Result<()>)
      requires k in vaults
      modifies this`vaults, this`entries, this`ledger
      ensures Executes(r, old(View()), View(), Taken(old(View()), k, who, amount, code, kind))
      ensures k in vaults
    {
      hide Ledger.Transfer, Update;
      var ledger0 := ledger;
      ledger :- ledger.Transfer(cfg.relay, User(who), CrowdloanPot, amount);
      var updated := DoUpdateContribution(k, who, amount, Some(code), true, kind);
      if updated.Err? {
        ledger := ledger0;
        return Err(updated.error);
      }
      return Ok(());
    }

    /** Its entry goes to the storage the phase says, and a request is sent if it flies at once. */
    method PutContribution(k: VaultKey, who: UserId, amount: nat, code: Code) returns (r: Result<()>)
      requires k in vaults
      modifies this`vaults, this`entries, this`requests, this`nextQuery, this`ledger
      ensures Executes(r, old(View()), View(), Booked(old(View()), k, who, amount, code))
    {
      hide Taken, SendContribution;
      var before := View();
      if vaults[k].phase == Contributing {
        var _ :- TakeContribution(k, who, amount, code, InFlying);
        r := DoContribute(k, who, amount, code);
        if r.Err? {
          RollBack(before);
        }
      } else {
        r := TakeContribution(k, who, amount, code, InPending);
      }
    }

    /** The checks of `contribute`, in order. */
    method MayContribute(k: VaultKey, amount: nat) returns (r: Result<()>)
      requires k in vaults
      ensures r == Contributable(View(), k, amount)
    {
      var vault := vaults[k];
      if amount == 0 {
        return Err(InvalidParams);
      }
      if relayNow > vault.endBlock {
        return Err(EndBlockExceeded);
      }
      if vault.phase != Contributing && vault.phase != Pending {
        return Err(IncorrectVaultPhase);
      }
      if amount < cfg.minContribution {
        return Err(InsufficientContribution);
      }
      if isVrf {
        return Err(VrfDelayInProgress);
      }
      var total :- ToU128(vault.Total(), Overflow);
      var after :- ToU128(total + amount, Overflow);
      return if after > vault.cap then Err(CapExceeded) else Ok(());
    }

    method DoContribution(who: UserId, para: ParaId, amount: nat, code: Code) returns (r: Result<()>)
      modifies this`vaults, this`entries, this`requests, this`nextQuery, this`ledger
      ensures Executes(r, old(View()), View(), Crowdloans.Contribute(old(View()), who, para, amount, code))
    {
      hide Booked, Contributable;
      ContributeUnfolds(View(), who, para, amount, code);
      hide Crowdloans.Contribute;
      var k :- View().Current(para);
      var _ :- MayContribute(k, amount);
      r := PutContribution(k, who, amount, code);
    }

    method Contribute(who: UserId, para: ParaId, amount: nat, code: Code) returns (r: Result<()>)
      requires Valid()
      modifies this`vaults, this`entries, this`requests, this`nextQuery, this`ledger
      ensures Valid()
      ensures Executes(r, old(View()), View(), Crowdloans.Contribute(old(View()), who, para, amount, code))
      ensures r.Ok? <==> Acceptable(old(View()), who, para, amount)
    {
      hide Orderly, Crowdloans.Contribute, Acceptable, CrowdInv;
      OrderlyIsInv(View());
      ContributeSucceeds(View(), who, para, amount, code);
      StepKeepsOrderly(View(), Op.Contribute(who, para, amount, code));
      r := DoContribution(who, para, amount, code);
    }

    /** One turn of the loop of `migrate_pending`. */
    method MigrateNext(k: VaultKey, who: UserId) returns (r: Result<()>)
      requires k in vaults
      modifies this`vaults, this`entries, this`requests, this`nextQuery
      ensures Executes(r, old(View()), View(), MigrateOne(old(View()), k, who))
      ensures k in vaults
    {
      hide Migrate;
      var vaults0, entries0 := vaults, entries;
      var e := EntryKey(vaults[k].trie, InPending, who);
      var amount, code := AmountAt(entries, e), CodeAt(entries, e);
      var _ :- DoMigrateContribution(k, who, amount, InPending, InFlying);
      r := DoContribute(k, who, amount, code);
      if r.Err? {
        vaults, entries := vaults0, entries0;
      }
    }

    /** The loop of `migrate_pending`. */
    method MigrateAll(para: ParaId, order: seq<UserId>) returns (r: Result<bool>)
      modifies this`vaults, this`entries, this`requests, this`nextQuery, this`ledger
      ensures match Crowdloans.MigratePending(old(View()), para, order)
              case Ok((s, all)) => r == Ok(all) && View() == s
              case Err(e) => r == Err(e) && View() == old(View())
    {
      hide MigrateOne;
      var before := View();
      var k :- before.Current(para);
      if vaults[k].phase != Pending && vaults[k].phase != Contributing {
        return Err(IncorrectVaultPhase);
      }
      if isVrf {
        return Err(VrfDelayInProgress);
      }
      var migrated, allMigrated := 0, true;
      while migrated < |order|
        invariant migrated <= |order| && migrated <= cfg.migrateLimit && allMigrated
        invariant k in vaults && MigrateEach(before, k, order[..migrated]) == Ok(View())
        decreases |order| - migrated
      {
        if migrated >= cfg.migrateLimit {
          allMigrated := false;
          break;
        }
        assert order[..migrated + 1][..migrated] == order[..migrated];
        var turn := MigrateNext(k, order[migrated]);
        if turn.Err? {
          FailsEarly(before, k, order, migrated + 1, Min(|order|, cfg.migrateLimit));
          RollBack(before);
          return Err(turn.error);
        }
        migrated := migrated + 1;
      }
      return Ok(allMigrated);
    }

    /** `migrate_pending`; the order is that of the iterator over the pending storage. */
    method MigratePending(para: ParaId, order: seq<UserId>) returns (r: Result<bool>)
      requires Valid()
      requires View().Current(para).Ok? ==>
                 Enumerates(order, entries, vaults[View().Current(para).value].trie, InPending)
      modifies this`vaults, this`entries, this`requests, this`nextQuery, this`ledger
      ensures Valid()
      ensures match Crowdloans.MigratePending(old(View()), para, order)
              case Ok((s, all)) => r == Ok(all) && View() == s
              case Err(e) => r == Err(e) && View() == old(View())
    {
      hide Orderly, Enumerates, MigrateEach;
      StepKeepsOrderly(View(), Op.MigratePending(para, order));
      r := MigrateAll(para, order);
    }

    /** The loop of `refund`. */
    method RefundAll(k: VaultKey, items: seq<Item>) returns (r: Result<bool>)
      modifies this`vaults, this`entries, this`requests, this`nextQuery, this`ledger
      ensures match Crowdloans.Refund(old(View()), k, items)
              case Ok((s, all)) => r == Ok(all) && View() == s
              case Err(e) => r == Err(e) && View() == old(View())
    {
      hide RefundOne;
      var before := View();
      if k !in vaults {
        return Err(VaultDoesNotExist);
      }
      if vaults[k].phase != Closed && vaults[k].phase != Failed {
        return Err(IncorrectVaultPhase);
      }
      var refunded, allRefunded := 0, true;
      while refunded < |items|
        invariant refunded <= |items| && refunded <= cfg.removeLimit && allRefunded
        invariant k in vaults && RefundEach(before, k, items[..refunded]) == Ok(View())
        decreases |items| - refunded
      {
        if refunded >= cfg.removeLimit {
          allRefunded := false;
          break;
        }
        assert items[..refunded + 1][..refunded] == items[..refunded];
        var (kind, who) := items[refunded];
        var turn := DoRefundFor(k, who, kind, AmountAt(entries, EntryKey(vaults[k].trie, kind, who)));
        if turn.Err? {
          RefundFailsEarly(before, k, items, refunded + 1, Min(|items|, cfg.removeLimit));
          RollBack(before);
          return Err(turn.error);
        }
        refunded := refunded + 1;
      }
      return Ok(allRefunded);
    }

    /** `refund`; the lists are the orders of the iterators over the three storages. */
    method Refund(k: VaultKey, contributed: seq<UserId>, flying: seq<UserId>, pending: seq<UserId>)
      returns (r: Result<bool>)
      requires Valid()
      requires k in vaults ==> && Enumerates(contributed, entries, vaults[k].trie, InContributed)
                               && Enumerates(flying, entries, vaults[k].trie, InFlying)
                               && Enumerates(pending, entries, vaults[k].trie, InPending)
      modifies this`vaults, this`entries, this`requests, this`nextQuery, this`ledger
      ensures Valid()
      ensures match Crowdloans.Refund(old(View()), k, AllItems(contributed, flying, pending))
              case Ok((s, all)) => r == Ok(all) && View() == s
              case Err(e) => r == Err(e) && View() == old(View())
    {
      hide Orderly, Enumerates, AllItems, Crowdloans.Refund;
      StepKeepsOrderly(View(), Op.Refund(k, contributed, flying, pending));
      r := RefundAll(k, AllItems(contributed, flying, pending));
    }

    method RefundFor(k: VaultKey, who: UserId, kind: Kind, amount: nat) returns (r: Result<()>)
      requires Valid()
      modifies this`vaults, this`entries, this`ledger
      ensures Valid()
      ensures Executes(r, old(View()), View(), Crowdloans.RefundFor(old(View()), k, who, kind, amount))
    {
      hide Orderly, RefundOne;
      StepKeepsOrderly(View(), Op.RefundFor(k, who, kind, amount));
      if k !in vaults {
        return Err(VaultDoesNotExist);
      }
      if vaults[k].phase != Closed {
        return Err(IncorrectVaultPhase);
      }
      if AmountAt(entries, EntryKey(vaults[k].trie, kind, who)) < amount {
        return Err(InsufficientContribution);
      }
      r := DoRefundFor(k, who, kind, amount);
    }

    // ---------- notifications ----------

    method DoConfirm(k: VaultKey, who: UserId, amount: nat) returns (r: Result<()>)
      modifies this`vaults, this`entries, this`ledger
      ensures Executes(r, old(View()), View(), Confirm(old(View()), k, who, amount))
    {
      hide Ledger.Burn, Migrate;
      if k !in vaults {
        return Err(VaultDoesNotExist);
      }
      var ledger0 := ledger;
      ledger :- ledger.Burn(cfg.relay, CrowdloanPot, amount);
      r := DoMigrateContribution(k, who, amount, InFlying, InContributed);
      if r.Err? {
        ledger := ledger0;
      }
    }

    method DoRefuse(k: VaultKey, who: UserId, amount: nat) returns (r: Result<()>)
      modifies this`vaults, this`entries, this`ledger
      ensures Executes(r, old(View()), View(), Refuse(old(View()), k, who, amount))
    {
      hide Ledger.Transfer, Update;
      if k !in vaults {
        return Err(VaultDoesNotExist);
      }
      var ledger0 := ledger;
      ledger :- ledger.Transfer(cfg.relay, CrowdloanPot, User(who), amount);
      var updated := DoUpdateContribution(k, who, amount, None, false, InFlying);
      if updated.Err? {
        ledger := ledger0;
        return Err(updated.error);
      }
      return Ok(());
    }

    method SettleRequest(id: QueryId, executed: bool) returns (r: Result<()>)
      modifies this`vaults, this`entries, this`requests, this`ledger
      ensures Executes(r, old(View()), View(), Notify(old(View()), id, executed))
    {
      hide Confirm, Refuse;
      if id !in requests {
        return Ok(());
      }
      match requests[id] {
        case Contribution(k, who, amount, _) =>
          if executed {
            r := DoConfirm(k, who, amount);
          } else {
            r := DoRefuse(k, who, amount);
          }
          if r.Err? {
            return;
          }
        case Withdrawal(k, _, target) =>
          if executed {
            if k !in vaults {
              return Err(VaultDoesNotExist);
            }
            vaults := vaults[k := vaults[k].(phase := target)];
          }
      }
      if executed {
        requests := requests - {id};
      }
      return Ok(());
    }

    method NotificationReceived(id: QueryId, executed: bool) returns (r: Result<()>)
      requires Valid()
      modifies this`vaults, this`entries, this`requests, this`ledger
      ensures Valid()
      ensures Executes(r, old(View()), View(), Notify(old(View()), id, executed))
    {
      hide Orderly, Notify;
      StepKeepsOrderly(View(), Notification(id, executed));
      r := SettleRequest(id, executed);
    }

    // ---------- claims ----------

    /** `do_claim_for`. */
    method DoClaimFor(k: VaultKey, who: UserId, force: bool) returns (r: Result<()>)
      modifies this`entries, this`ledger
      ensures Executes(r, old(View()), View(), Crowdloans.Claim(old(View()), k, who, force))
    {
      hide Ledger.Mint;
      if k.lease !in ctokens {
        return Err(CTokenDoesNotExist);
      }
      if k !in vaults {
        return Err(VaultDoesNotExist);
      }
      if !force && vaults[k].phase != Succeeded {
        return Err(IncorrectVaultPhase);
      }
      var e := EntryKey(vaults[k].trie, InContributed, who);
      var amount := AmountAt(entries, e);
      if amount == 0 {
        return Err(NoContributions);
      }
      ledger :- ledger.Mint(ctokens[k.lease], User(who), amount);
      entries := entries - {e};
      return Ok(());
    }

    method ClaimFor(k: VaultKey, who: UserId, force: bool) returns (r: Result<()>)
      requires Valid()
      modifies this`entries, this`ledger
      ensures Valid()
      ensures Executes(r, old(View()), View(), Crowdloans.Claim(old(View()), k, who, force))
      ensures r.Ok? <==> Claimable(old(View()), k, who, force)
    {
      hide Orderly, Crowdloans.Claim, Claimable;
      ClaimSucceeds(View(), k, who, force);
      StepKeepsOrderly(View(), Op.Claim(k, who, force));
      r := DoClaimFor(k, who, force);
    }

    /** `do_withdraw_for`. */
    method DoWithdrawFor(k: VaultKey, who: UserId) returns (r: Result<()>)
      modifies this`vaults, this`entries, this`ledger
      ensures Executes(r, old(View()), View(), Crowdloans.WithdrawFor(old(View()), k, who))
    {
      hide Ledger.Mint;
      if k !in vaults {
        return Err(VaultDoesNotExist);
      }
      if vaults[k].phase != Failed {
        return Err(IncorrectVaultPhase);
      }
      var e := EntryKey(vaults[k].trie, InContributed, who);
      var amount := AmountAt(entries, e);
      if amount == 0 {
        return Err(NoContributions);
      }
      var contributed :- CheckedSub(vaults[k].contributed, amount, Underflow);
      ledger :- ledger.Mint(cfg.relay, User(who), amount);
      entries := entries - {e};
      vaults := vaults[k := vaults[k].(contributed := contributed)];
      return Ok(());
    }

    method WithdrawFor(k: VaultKey, who: UserId) returns (r: Result<()>)
      requires Valid()
      modifies this`vaults, this`entries, this`ledger
      ensures Valid()
      ensures Executes(r, old(View()), View(), Crowdloans.WithdrawFor(old(View()), k, who))
    {
      hide Orderly, Crowdloans.WithdrawFor;
      StepKeepsOrderly(View(), Op.WithdrawFor(k, who));
      r := DoWithdrawFor(k, who);
    }

    /** `do_redeem`. */
    method DoRedeem(k: VaultKey, who: UserId, amount: nat) returns (r: Result<()>)
      modifies this`vaults, this`ledger
      ensures Executes(r, old(View()), View(), Crowdloans.Redeem(old(View()), k, who, amount))
      ensures r.Ok? ==> Redeemable(old(View()), k, who, amount)
    {
      hide Ledger.Mint, Ledger.Burn;
      if k.lease !in ctokens {
        return Err(CTokenDoesNotExist);
      }
      if k !in vaults {
        return Err(VaultDoesNotExist);
      }
      if vaults[k].phase != Expired {
        return Err(IncorrectVaultPhase);
      }
      if ledger.Balance(ctokens[k.lease], User(who)) < amount {
        return Err(InsufficientBalance);
      }
      var contributed :- CheckedSub(vaults[k].contributed, amount, Underflow);
      var burnt :- ledger.Burn(ctokens[k.lease], User(who), amount);
      ledger :- burnt.Mint(cfg.relay, User(who), amount);
      vaults := vaults[k := vaults[k].(contributed := contributed)];
      return Ok(());
    }

    method Redeem(k: VaultKey, who: UserId, amount: nat) returns (r: Result<()>)
      requires Valid()
      modifies this`vaults, this`ledger
      ensures Valid()
      ensures Executes(r, old(View()), View(), Crowdloans.Redeem(old(View()), k, who, amount))
      ensures r.Ok? ==> Redeemable(old(View()), k, who, amount)
      ensures Funded(old(View())) && Redeemable(old(View()), k, who, amount) ==> r.Ok?
    {
      hide Orderly, Crowdloans.Redeem, Funded, Redeemable;
      RedeemSucceeds(View(), k, who, amount);
      StepKeepsOrderly(View(), Op.Redeem(k, who, amount));
      r := DoRedeem(k, who, amount);
    }
  }

  /** A batch that fails at one turn fails with that error however much longer it was to run. */
  lemma {:induction false} FailsEarly(s: State, k: VaultKey, order: seq<UserId>, i: nat, n: nat)
    requires k in s.vaults && i <= n <= |order| && MigrateEach(s, k, order[..i]).Err?
    ensures MigrateEach(s, k, order[..n]) == MigrateEach(s, k, order[..i])
    decreases n
  {
    hide MigrateOne;
    if i < n {
      assert order[..n][..n - 1] == order[..n - 1];
      FailsEarly(s, k, order, i, n - 1);
    }
  }

  lemma {:induction false} RefundFailsEarly(s: State, k: VaultKey, items: seq<Item>, i: nat, n: nat)
    requires k in s.vaults && i <= n <= |items| && RefundEach(s, k, items[..i]).Err?
    ensures RefundEach(s, k, items[..n]) == RefundEach(s, k, items[..i])
    decreases n
  {
    hide RefundOne;
    if i < n {
      assert items[..n][..n - 1] == items[..n - 1];
      RefundFailsEarly(s, k, items, i, n - 1);
    }
  }
}
