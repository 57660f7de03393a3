/** Crowdloan vaults: contributions gathered here, sent to the relay chain, and confirmed or refused later by
    notifications. Each call is a function on the whole state and is all or nothing. */
module Crowdloans {
  import opened Base
  import opened Assets

  type ParaId = nat
  type QueryId = nat
  type Lease = (nat, nat)
  type Code = string

  datatype Phase = Pending | Contributing | Closed | Failed | Succeeded | Expired

  datatype Strategy = Xcm | XcmProxy

  /** The three child storages of a vault. */
  datatype Kind = InPending | InFlying | InContributed

  datatype VaultKey = VaultKey(para: ParaId, lease: Lease)

  datatype Vault = Vault(
    ctoken: Asset, phase: Phase, contributed: nat, pending: nat, flying: nat,
    strategy: Strategy, cap: nat, endBlock: nat, trie: nat) {

    function Total(): nat {
      contributed + flying + pending
    }

    function Of(kind: Kind): nat {
      match kind
      case InPending => pending
      case InFlying => flying
      case InContributed => contributed
    }

    function With(kind: Kind, n: nat): Vault {
      match kind
      case InPending => this.(pending := n)
      case InFlying => this.(flying := n)
      case InContributed => this.(contributed := n)
    }
  }

  datatype EntryKey = EntryKey(trie: nat, kind: Kind, who: UserId)
  datatype Entry = Entry(amount: nat, code: Code)
  type Entries = map<EntryKey, Entry>

  datatype Request =
    | Contribution(key: VaultKey, who: UserId, amount: nat, code: Code)
    | Withdrawal(key: VaultKey, amount: nat, target: Phase)

  datatype Config = Config(relay: Asset, minContribution: nat, migrateLimit: nat, removeLimit: nat)

  datatype State = State(
    vaults: map<VaultKey, Vault>,
    entries: Entries,
    requests: map<QueryId, Request>,
    ctokens: map<Lease, Asset>,
    leases: map<ParaId, Lease>,
    nextTrie: nat,
    nextQuery: QueryId,
    isVrf: bool,
    hasProxy: bool,
    relayNow: nat,
    ledger: Ledger,
    cfg: Config) {

    function Current(para: ParaId): Result<VaultKey> {
      if para in leases && VaultKey(para, leases[para]) in vaults
      then Ok(VaultKey(para, leases[para]))
      else Err(VaultDoesNotExist)
    }

    function Put(k: VaultKey, v: Vault): State {
      this.(vaults := vaults[k := v])
    }
  }

  // ---------- child storages ----------

  function AmountAt(entries: Entries, e: EntryKey): nat {
    if e in entries then entries[e].amount else 0
  }

  function CodeAt(entries: Entries, e: EntryKey): Code {
    if e in entries then entries[e].code else ""
  }

  /** An entry of zero is removed. */
  function SetEntry(entries: Entries, e: EntryKey, amount: nat, code: Code): Entries {
    if amount == 0 then entries - {e} else entries[e := Entry(amount, code)]
  }

  function Adjusted(n: nat, amount: nat, add: bool): Result<nat> {
    if add then ToU128(n + amount, Overflow) else CheckedSub(n, amount, Underflow)
  }

  /** `do_update_contribution`: the vault total and the user's entry of one kind move together. */
  function Update(s: State, k: VaultKey, who: UserId, amount: nat, code: Option<Code>, add: bool, kind: Kind)
    : Result<(State, Code)>
    requires k in s.vaults
  {
    var v := s.vaults[k];
    var e := EntryKey(v.trie, kind, who);
    var newCode := if code.Some? then code.value else CodeAt(s.entries, e);
    var total :- Adjusted(v.Of(kind), amount, add);
    var own :- Adjusted(AmountAt(s.entries, e), amount, add);
    Ok((s.Put(k, v.With(kind, total)).(entries := SetEntry(s.entries, e, own, newCode)), newCode))
  }

  /** `do_migrate_contribution`: an amount leaves one child storage and enters another. */
  function Migrate(s: State, k: VaultKey, who: UserId, amount: nat, from: Kind, to: Kind): Result<State>
    requires k in s.vaults
  {
    var taken :- Update(s, k, who, amount, None, false, from);
    var given :- Update(taken.0, k, who, amount, Some(taken.1), true, to);
    Ok(given.0)
  }

  // ---------- requests to the relay chain ----------

  /** Every message sent gets a query id of its own. */
  function Send(s: State, request: Request): State {
    s.(requests := s.requests[s.nextQuery := request], nextQuery := s.nextQuery + 1)
  }

  function SendContribution(s: State, k: VaultKey, who: UserId, amount: nat, code: Code): Result<State>
    requires k in s.vaults
  {
    if s.vaults[k].strategy == XcmProxy && !s.hasProxy then Err(EmptyProxyAddress)
    else Ok(Send(s, Contribution(k, who, amount, code)))
  }

  // ---------- vaults ----------

  function CreateVault(s: State, para: ParaId, ctoken: Asset, lease: Lease, strategy: Strategy, cap: nat, endBlock: nat)
    : Result<State>
  {
    var k := VaultKey(para, lease);
    if cap == 0 then Err(InvalidCap)
    else if lease.0 > lease.1 then Err(LastPeriodBeforeFirstPeriod)
    else if lease in s.ctokens && s.ctokens[lease] != ctoken then Err(InvalidCToken)
    else if k in s.vaults then Err(VaultAlreadyExists)
    else if s.Current(para).Ok? && s.vaults[s.Current(para).value].phase !in {Failed, Expired} then Err(VaultNotEnded)
    else if s.relayNow > endBlock then Err(EndBlockExceeded)
    else if s.nextTrie + 1 > U32_MAX then Err(Overflow)
    else Ok(s.Put(k, Vault(ctoken, Pending, 0, 0, 0, strategy, cap, endBlock, s.nextTrie)).(
              nextTrie := s.nextTrie + 1, ctokens := s.ctokens[lease := ctoken], leases := s.leases[para := lease]))
  }

  function UpdateVault(s: State, para: ParaId, cap: Option<nat>, endBlock: Option<nat>, strategy: Option<Strategy>)
    : Result<State>
  {
    var k :- s.Current(para);
    if cap == Some(0) then Err(InvalidCap)
    else if endBlock.Some? && s.relayNow > endBlock.value then Err(EndBlockExceeded) else
      var v := s.vaults[k];
      Ok(s.Put(k, v.(cap := if cap.Some? then cap.value else v.cap,
                     endBlock := if endBlock.Some? then endBlock.value else v.endBlock,
                     strategy := if strategy.Some? then strategy.value else v.strategy)))
  }

  /** `open`, `close`, `reopen` and `auction_succeeded`: from one phase to another. */
  function Turn(s: State, para: ParaId, from: Phase, to: Phase): Result<State> {
    var k :- s.Current(para);
    if s.vaults[k].phase != from then Err(IncorrectVaultPhase) else Ok(s.Put(k, s.vaults[k].(phase := to)))
  }

  /** `auction_failed` and `slot_expired`: ask the relay chain for the money back. */
  function AskBack(s: State, para: ParaId, from: Phase, target: Phase): Result<State> {
    var k :- s.Current(para);
    if s.vaults[k].phase != from then Err(IncorrectVaultPhase)
    else Ok(Send(s, Withdrawal(k, s.vaults[k].contributed, target)))
  }

  function Contribute(s: State, who: UserId, para: ParaId, amount: nat, code: Code): Result<State> {
    var k :- s.Current(para);
    var v := s.vaults[k];
    if amount == 0 then Err(InvalidParams)
    else if s.relayNow > v.endBlock then Err(EndBlockExceeded)
    else if v.phase !in {Contributing, Pending} then Err(IncorrectVaultPhase)
    else if amount < s.cfg.minContribution then Err(InsufficientContribution)
    else if s.isVrf then Err(VrfDelayInProgress) else
      var total :- ToU128(v.Total(), Overflow);
      var after :- ToU128(total + amount, Overflow);
      if after > v.cap then Err(CapExceeded) else
        var l :- s.ledger.Transfer(s.cfg.relay, User(who), CrowdloanPot, amount);
        if v.phase == Contributing then
          var updated :- Update(s.(ledger := l), k, who, amount, Some(code), true, InFlying);
          SendContribution(updated.0, k, who, amount, code)
        else
          var updated :- Update(s.(ledger := l), k, who, amount, Some(code), true, InPending);
          Ok(updated.0)
  }

  // ---------- batches ----------

  /** The users with an entry in one child storage, each once, in the order its iterator visits them. */
  predicate Enumerates(order: seq<UserId>, entries: Entries, trie: nat, kind: Kind) {
    && (forall i, j :: 0 <= i < j < |order| ==> order[i] != order[j])
    && (forall i :: 0 <= i < |order| ==> EntryKey(trie, kind, order[i]) in entries)
    && (forall e :: e in entries && e.trie == trie && e.kind == kind ==> e.who in order)
  }

  /** One turn of the loop of `migrate_pending`. */
  function MigrateOne(s: State, k: VaultKey, who: UserId): Result<State>
    requires k in s.vaults
  {
    var e := EntryKey(s.vaults[k].trie, InPending, who);
    var moved :- Migrate(s, k, who, AmountAt(s.entries, e), InPending, InFlying);
    SendContribution(moved, k, who, AmountAt(s.entries, e), CodeAt(s.entries, e))
  }

  function MigrateEach(s: State, k: VaultKey, order: seq<UserId>): (r: Result<State>)
    requires k in s.vaults
    ensures r.Ok? ==> k in r.value.vaults
  {
    if order == [] then Ok(s) else
      var before :- MigrateEach(s, k, order[..|order| - 1]);
      MigrateOne(before, k, order[|order| - 1])
  }

  /** The new state, and whether the call reports that all was migrated. */
  function MigratePending(s: State, para: ParaId, order: seq<UserId>): Result<(State, bool)> {
    var k :- s.Current(para);
    if s.vaults[k].phase !in {Contributing, Pending} then Err(IncorrectVaultPhase)
    else if s.isVrf then Err(VrfDelayInProgress) else
      var n: nat := Min(|order|, s.cfg.migrateLimit);
      var t :- MigrateEach(s, k, order[..n]);
      Ok((t, n == |order|))
  }

  /** `do_refund_for`: money is minted back for what had left, and paid from the pot for what had not. */
  function RefundOne(s: State, k: VaultKey, who: UserId, kind: Kind, amount: nat): Result<State>
    requires k in s.vaults
  {
    var l :- if kind == InContributed then s.ledger.Mint(s.cfg.relay, User(who), amount)
             else s.ledger.Transfer(s.cfg.relay, CrowdloanPot, User(who), amount);
    var updated :- Update(s.(ledger := l), k, who, amount, None, false, kind);
    Ok(updated.0)
  }

  type Item = (Kind, UserId)

  function RefundEach(s: State, k: VaultKey, items: seq<Item>): (r: Result<State>)
    requires k in s.vaults
    ensures r.Ok? ==> k in r.value.vaults
  {
    if items == [] then Ok(s) else
      var before :- RefundEach(s, k, items[..|items| - 1]);
      var (kind, who) := items[|items| - 1];
      RefundOne(before, k, who, kind, AmountAt(before.entries, EntryKey(before.vaults[k].trie, kind, who)))
  }

  function Tagged(kind: Kind, order: seq<UserId>): (items: seq<Item>)
    ensures |items| == |order| && forall i :: 0 <= i < |order| ==> items[i] == (kind, order[i])
  {
    seq(|order|, i requires 0 <= i < |order| => (kind, order[i]))
  }

  /** All entries of a vault: first those contributed, then those flying, then those pending. */
  function AllItems(contributed: seq<UserId>, flying: seq<UserId>, pending: seq<UserId>): seq<Item> {
    Tagged(InContributed, contributed) + Tagged(InFlying, flying) + Tagged(InPending, pending)
  }

  function Refund(s: State, k: VaultKey, items: seq<Item>): Result<(State, bool)> {
    if k !in s.vaults then Err(VaultDoesNotExist)
    else if s.vaults[k].phase !in {Closed, Failed} then Err(IncorrectVaultPhase) else
      var n: nat := Min(|items|, s.cfg.removeLimit);
      var t :- RefundEach(s, k, items[..n]);
      Ok((t, n == |items|))
  }

  function RefundFor(s: State, k: VaultKey, who: UserId, kind: Kind, amount: nat): Result<State> {
    if k !in s.vaults then Err(VaultDoesNotExist)
    else if s.vaults[k].phase != Closed then Err(IncorrectVaultPhase)
    else if AmountAt(s.entries, EntryKey(s.vaults[k].trie, kind, who)) < amount then Err(InsufficientContribution)
    else RefundOne(s, k, who, kind, amount)
  }

  predicate HasEntries(entries: Entries, trie: nat) {
    exists e :: e in entries && e.trie == trie
  }

  function Dissolve(s: State, k: VaultKey): Result<State> {
    if k !in s.vaults then Err(VaultDoesNotExist)
    else if s.vaults[k].phase !in {Closed, Failed, Expired} then Err(IncorrectVaultPhase)
    else if HasEntries(s.entries, s.vaults[k].trie) then Err(NotReadyToDissolve) else
      var total :- ToU128(s.vaults[k].Total(), Overflow);
      if total != 0 then Err(NotReadyToDissolve) else
        Ok(s.(vaults := s.vaults - {k},
              leases := if k.para in s.leases && s.leases[k.para] == k.lease then s.leases - {k.para} else s.leases))
  }

  // ---------- notifications ----------

  /** A confirmed contribution is burnt here: it lives on the relay chain. */
  function Confirm(s: State, k: VaultKey, who: UserId, amount: nat): Result<State> {
    if k !in s.vaults then Err(VaultDoesNotExist) else
      var l :- s.ledger.Burn(s.cfg.relay, CrowdloanPot, amount);
      Migrate(s.(ledger := l), k, who, amount, InFlying, InContributed)
  }

  /** A refused contribution is paid back. */
  function Refuse(s: State, k: VaultKey, who: UserId, amount: nat): Result<State> {
    if k !in s.vaults then Err(VaultDoesNotExist) else
      var l :- s.ledger.Transfer(s.cfg.relay, CrowdloanPot, User(who), amount);
      var updated :- Update(s.(ledger := l), k, who, amount, None, false, InFlying);
      Ok(updated.0)
  }

  /** Only an executed request is forgotten; a refused one can be notified again. */
  function Notify(s: State, id: QueryId, executed: bool): Result<State> {
    if id !in s.requests then Ok(s) else
      var t :- match s.requests[id]
               case Contribution(k, who, amount, _) =>
                 if executed then Confirm(s, k, who, amount) else Refuse(s, k, who, amount)
               case Withdrawal(k, _, target) =>
                 if !executed then Ok(s)
                 else if k !in s.vaults then Err(VaultDoesNotExist)
                 else Ok(s.Put(k, s.vaults[k].(phase := target)));
      Ok(if executed then t.(requests := t.requests - {id}) else t)
  }

  // ---------- claims ----------

  function Claim(s: State, k: VaultKey, who: UserId, force: bool): Result<State> {
    if k.lease !in s.ctokens then Err(CTokenDoesNotExist)
    else if k !in s.vaults then Err(VaultDoesNotExist)
    else if !force && s.vaults[k].phase != Succeeded then Err(IncorrectVaultPhase) else
      var e := EntryKey(s.vaults[k].trie, InContributed, who);
      if AmountAt(s.entries, e) == 0 then Err(NoContributions) else
        var l :- s.ledger.Mint(s.ctokens[k.lease], User(who), AmountAt(s.entries, e));
        Ok(s.(ledger := l, entries := s.entries - {e}))
  }

  function WithdrawFor(s: State, k: VaultKey, who: UserId): Result<State> {
    if k !in s.vaults then Err(VaultDoesNotExist)
    else if s.vaults[k].phase != Failed then Err(IncorrectVaultPhase) else
      var v := s.vaults[k];
      var e := EntryKey(v.trie, InContributed, who);
      if AmountAt(s.entries, e) == 0 then Err(NoContributions) else
        var contributed :- CheckedSub(v.contributed, AmountAt(s.entries, e), Underflow);
        var l :- s.ledger.Mint(s.cfg.relay, User(who), AmountAt(s.entries, e));
        Ok(s.Put(k, v.(contributed := contributed)).(ledger := l, entries := s.entries - {e}))
  }

  function Redeem(s: State, k: VaultKey, who: UserId, amount: nat): Result<State> {
    if k.lease !in s.ctokens then Err(CTokenDoesNotExist)
    else if k !in s.vaults then Err(VaultDoesNotExist)
    else if s.vaults[k].phase != Expired then Err(IncorrectVaultPhase)
    else if s.ledger.Balance(s.ctokens[k.lease], User(who)) < amount then Err(InsufficientBalance) else
      var v := s.vaults[k];
      var contributed :- CheckedSub(v.contributed, amount, Underflow);
      var burnt :- s.ledger.Burn(s.ctokens[k.lease], User(who), amount);
      var l :- burnt.Mint(s.cfg.relay, User(who), amount);
      Ok(s.Put(k, v.(contributed := contributed)).(ledger := l))
  }
}
