/** Runs from an empty chain on which the calls do what one would not expect: a refusal delivered twice, the relay
    token as a ctoken, and ctokens redeemed at another vault. */
module CrowdloanInputs {
  import opened Base
  import opened Sums
  import opened Assets
  import opened Crowdloans
  import opened CrowdloanEffects
  import opened CrowdloanRuns
  import opened CrowdloanClaims
  import opened CrowdloanLedger
  import opened CrowdloanProgress
  import opened CrowdloanRequests
  import opened CrowdloanLanding

  const RELAY: Asset := 0
  const LEASE: Lease := (1, 2)

  /** A current vault, and what one user has flying and contributed there. */
  datatype Situation = Situation(k: VaultKey, v: Vault, w: UserId, flying: nat, contributed: nat)

  ghost predicate Holds(s: State, x: Situation) {
    && s.Current(x.k.para) == Ok(x.k) && s.vaults[x.k] == x.v
    && x.k.lease in s.ctokens && s.ctokens[x.k.lease] == x.v.ctoken
    && AmountAt(s.entries, EntryKey(x.v.trie, InFlying, x.w)) == x.flying
    && AmountAt(s.entries, EntryKey(x.v.trie, InContributed, x.w)) == x.contributed
  }

  predicate Apart(x: Situation, y: Situation) {
    x.k.para != y.k.para && x.v.trie != y.v.trie
  }

  /** What holds elsewhere goes on holding. */
  ghost predicate Elsewhere(s: State, t: State, x: Situation) {
    forall y :: Holds(s, y) && Apart(x, y) ==> Holds(t, y)
  }

  predicate Calm(s: State) {
    !s.isVrf && s.relayNow == 0 && s.cfg == Config(RELAY, 1, 10, 10)
  }

  // ---------- single calls ----------

  function NewVault(ctoken: Asset, trie: nat): Vault {
    Vault(ctoken, Pending, 0, 0, 0, Xcm, 100, 100, trie)
  }

  function Create(para: ParaId, ctoken: Asset): Op {
    Op.CreateVault(para, ctoken, LEASE, Xcm, 100, 100)
  }

  lemma Creates(s: State, para: ParaId, ctoken: Asset, w: UserId)
    requires CrowdInv(s) && Calm(s) && para !in s.leases && VaultKey(para, LEASE) !in s.vaults && s.nextTrie < U32_MAX
    requires LEASE in s.ctokens ==> s.ctokens[LEASE] == ctoken
    ensures var t := Step(s, Create(para, ctoken));
            var x := Situation(VaultKey(para, LEASE), NewVault(ctoken, s.nextTrie), w, 0, 0);
            && Holds(t, x) && Elsewhere(s, t, x) && Calm(t) && t.nextTrie == s.nextTrie + 1
            && t.leases == s.leases[para := LEASE] && t.vaults.Keys == s.vaults.Keys + {x.k}
            && t.requests == s.requests && t.nextQuery == s.nextQuery && t.ledger == s.ledger
            && t.ctokens == s.ctokens[LEASE := ctoken]
  {
    hide HeldSum;
  }

  /** A change of phase. */
  lemma Turns(s: State, x: Situation, op: Op, to: Phase)
    requires Holds(s, x) && Calm(s)
    requires || (op == Open(x.k.para) && x.v.phase == Pending && to == Contributing)
             || (op == Close(x.k.para) && x.v.phase == Contributing && to == Closed)
             || (op == AuctionSucceeded(x.k.para) && x.v.phase == Closed && to == Succeeded)
    ensures var t, y := Step(s, op), x.(v := x.v.(phase := to));
            && Holds(t, y) && Elsewhere(s, t, x) && Calm(t)
            && t == s.(vaults := s.vaults[x.k := y.v])
  {
  }

  /** A request to get the money back. */
  lemma Asks(s: State, x: Situation, op: Op, target: Phase)
    requires Holds(s, x) && Calm(s)
    requires || (op == AuctionFailed(x.k.para) && x.v.phase == Closed && target == Failed)
             || (op == SlotExpired(x.k.para) && x.v.phase == Succeeded && target == Expired)
    ensures var t := Step(s, op);
            && Holds(t, x) && Elsewhere(s, t, x) && Calm(t)
            && t == Send(s, Withdrawal(x.k, x.v.contributed, target))
  {
  }

  /** That request is executed. */
  lemma Answers(s: State, x: Situation, id: QueryId)
    requires Holds(s, x) && Calm(s) && id in s.requests && s.requests[id].Withdrawal? && s.requests[id].key == x.k
    ensures var t, y := Step(s, Notification(id, true)), x.(v := x.v.(phase := s.requests[id].target));
            && Holds(t, y) && Elsewhere(s, t, x) && Calm(t)
            && t == s.(vaults := s.vaults[x.k := y.v], requests := s.requests - {id})
  {
  }

  lemma Contributes(s: State, x: Situation, amount: nat)
    requires Holds(s, x) && Calm(s) && x.v.phase == Contributing && x.v.strategy == Xcm
    requires 0 < amount <= s.ledger.Balance(RELAY, User(x.w)) && x.v.Total() + amount <= x.v.cap == 100 == x.v.endBlock
    requires x.flying + amount <= 100
    ensures var t := Step(s, Op.Contribute(x.w, x.k.para, amount, ""));
            && Holds(t, x.(v := x.v.(flying := x.v.flying + amount), flying := x.flying + amount))
            && Elsewhere(s, t, x) && Calm(t)
            && t.requests == s.requests[s.nextQuery := Contribution(x.k, x.w, amount, "")]
            && t.nextQuery == s.nextQuery + 1
            && Moved(s.ledger, t.ledger, RELAY, User(x.w), CrowdloanPot, amount)
            && t.leases == s.leases && t.vaults.Keys == s.vaults.Keys
  {
    hide Ledger.Transfer, SetEntry, AmountAt;
    var l := s.ledger.Transfer(RELAY, User(x.w), CrowdloanPot, amount).value;
    var e := EntryKey(x.v.trie, InFlying, x.w);
    EntrySet(s.entries, e, x.flying + amount, "");
  }

  lemma MigrateMoves(s: State, k: VaultKey, w: UserId, amount: nat)
    requires k in s.vaults && Migrate(s, k, w, amount, InFlying, InContributed).Ok? && amount <= s.vaults[k].flying
    ensures var t, trie := Migrate(s, k, w, amount, InFlying, InContributed).value, s.vaults[k].trie;
            var ef, ec := EntryKey(trie, InFlying, w), EntryKey(trie, InContributed, w);
            var v := s.vaults[k].(flying := s.vaults[k].flying - amount, contributed := s.vaults[k].contributed + amount);
            && t == s.(vaults := s.vaults[k := v], entries := t.entries)
            && AmountAt(t.entries, ef) == AmountAt(s.entries, ef) - amount
            && AmountAt(t.entries, ec) == AmountAt(s.entries, ec) + amount
            && forall e :: e != ef && e != ec ==> AmountAt(t.entries, e) == AmountAt(s.entries, e)
  {
    hide Update, AmountAt;
    var taken := Update(s, k, w, amount, None, false, InFlying).value;
    UpdateEntries(s, k, w, amount, None, false, InFlying);
    UpdateEntries(taken.0, k, w, amount, Some(taken.1), true, InContributed);
    MigrateEffect(s, k, w, amount, InFlying, InContributed);
  }

  lemma Confirmed(s: State, id: QueryId, k: VaultKey, w: UserId, amount: nat)
    requires Notify(s, id, true).Ok? && id in s.requests && s.requests[id] == Contribution(k, w, amount, "")
    ensures k in s.vaults && s.ledger.Burn(s.cfg.relay, CrowdloanPot, amount).Ok?
    ensures var s1 := s.(ledger := s.ledger.Burn(s.cfg.relay, CrowdloanPot, amount).value);
            && Migrate(s1, k, w, amount, InFlying, InContributed).Ok?
            && var t := Migrate(s1, k, w, amount, InFlying, InContributed).value;
               Notify(s, id, true).value == t.(requests := t.requests - {id})
  {
    hide Migrate, Ledger.Burn;
  }

  lemma Confirms(s: State, x: Situation, id: QueryId, amount: nat)
    requires Funded(s) && Holds(s, x) && Calm(s)
    requires id in s.requests && s.requests[id] == Contribution(x.k, x.w, amount, "")
    requires amount <= x.flying && amount <= x.v.flying && x.contributed + amount <= 100
    ensures var t := Step(s, Notification(id, true));
            && Holds(t, x.(v := x.v.(flying := x.v.flying - amount, contributed := x.v.contributed + amount),
                           flying := x.flying - amount, contributed := x.contributed + amount))
            && Elsewhere(s, t, x) && Calm(t) && t.requests == s.requests - {id} && t.nextQuery == s.nextQuery
            && t.leases == s.leases
            && forall d: Asset :: d != RELAY ==> t.ledger.Issued(d) == s.ledger.Issued(d)
  {
    hide Funded, Notify, Migrate, Ledger.Burn, AmountAt;
    ConfirmationLands(s, id);
    Confirmed(s, id, x.k, x.w, amount);
    var s1 := s.(ledger := s.ledger.Burn(s.cfg.relay, CrowdloanPot, amount).value);
    MigrateMoves(s1, x.k, x.w, amount);
  }

  /** A claim, whatever the phase. */
  lemma Claims(s: State, x: Situation)
    requires Holds(s, x) && Calm(s) && x.contributed > 0 && s.ledger.Issued(x.v.ctoken) + x.contributed <= U128_MAX
    ensures var op := Op.Claim(x.k, x.w, true);
            var t := Step(s, op);
            && Call(s, op).Ok?
            && Holds(t, x.(contributed := 0)) && Elsewhere(s, t, x) && Calm(t)
            && t == s.(ledger := t.ledger, entries := t.entries)
            && Changed(s.ledger, t.ledger, x.v.ctoken, User(x.w), x.contributed, x.contributed)
  {
    hide Ledger.Mint;
  }

  lemma Exchangeable(l: Ledger, c: Asset, relay: Asset, w: Account, amount: nat)
    requires Backed(l) && w != CrowdloanPot && amount <= l.Balance(c, w) && l.Issued(relay) + amount <= U128_MAX
    ensures l.Burn(c, w, amount).Ok? && l.Burn(c, w, amount).value.Mint(relay, w, amount).Ok?
  {
    hide Backed, Ledger.Burn, Ledger.Mint;
    TwoHolders(l, c, w, CrowdloanPot);
  }

  lemma RedeemPaid(s: State, k: VaultKey, who: UserId, amount: nat)
    requires Funded(s) && k in s.vaults && k.lease in s.ctokens && s.vaults[k].phase == Expired
    requires amount <= s.vaults[k].contributed && amount <= s.ledger.Balance(s.ctokens[k.lease], User(who))
    ensures var r := Crowdloans.Redeem(s, k, who, amount);
            && r.Ok?
            && r.value == s.Put(k, s.vaults[k].(contributed := s.vaults[k].contributed - amount)).(
                            ledger := r.value.ledger)
  {
    hide Funded, Backed, Ledger.Mint, Ledger.Burn, CrowdInv, Changed, Moved;
    VaultWithin(s, k);
    FundedBacked(s);
    Exchangeable(s.ledger, s.ctokens[k.lease], s.cfg.relay, User(who), amount);
  }

  lemma RedeemWorks(s: State, k: VaultKey, who: UserId, amount: nat)
    requires Funded(s) && k in s.vaults && k.lease in s.ctokens && s.vaults[k].phase == Expired
    requires amount <= s.vaults[k].contributed && amount <= s.ledger.Balance(s.ctokens[k.lease], User(who))
    ensures var op := Op.Redeem(k, who, amount);
            && Call(s, op).Ok?
            && var t := Step(s, op);
               t == s.Put(k, s.vaults[k].(contributed := s.vaults[k].contributed - amount)).(ledger := t.ledger)
  {
    hide Funded, Crowdloans.Redeem;
    RedeemPaid(s, k, who, amount);
  }

  /** A call that changes one vault and no entry. */
  lemma Reholds(s: State, t: State, x: Situation, v: Vault)
    requires Holds(s, x) && v.trie == x.v.trie && v.ctoken == x.v.ctoken
    requires t.vaults == s.vaults[x.k := v] && t.entries == s.entries && t.leases == s.leases && t.ctokens == s.ctokens
    ensures Holds(t, x.(v := v)) && Elsewhere(s, t, x)
  {
  }

  /** Ctokens redeemed by anyone who has them. */
  lemma Redeems(s: State, x: Situation, who: UserId, amount: nat)
    requires Funded(s) && Holds(s, x) && Calm(s) && x.v.phase == Expired && amount <= x.v.contributed
    requires amount <= s.ledger.Balance(x.v.ctoken, User(who))
    ensures var op := Op.Redeem(x.k, who, amount);
            var t := Step(s, op);
            && Call(s, op).Ok?
            && Holds(t, x.(v := x.v.(contributed := x.v.contributed - amount))) && Elsewhere(s, t, x) && Calm(t)
            && t.requests == s.requests && t.nextQuery == s.nextQuery
  {
    hide Funded, Step, Call, Elsewhere;
    RedeemWorks(s, x.k, who, amount);
    Reholds(s, Step(s, Op.Redeem(x.k, who, amount)), x, x.v.(contributed := x.v.contributed - amount));
  }

  // ---------- starting ----------

  lemma FundedStep(s: State, op: Op)
    requires Funded(s) && !op.Claim?
    ensures Funded(Step(s, op)) && CrowdInv(Step(s, op))
  {
    hide Step, Funded, RelayTotal, Call;
    RunFundedExactly(s, [op]);
    OneStep(s, op);
    NothingClaimed(s, op);
    FundedFits(s);
    FundedBacked(Step(s, op));
  }

  lemma OneStep(s: State, op: Op)
    ensures Run(s, [op]) == Step(s, op)
  {
    hide Step;
    assert [op][1..] == [];
  }

  lemma NothingClaimed(s: State, op: Op)
    requires !op.Claim?
    ensures Claimed(s, [op], s.cfg.relay) == 0
  {
    hide Step;
    assert [op][1..] == [];
  }

  lemma FundedFits(s: State)
    requires Funded(s)
    ensures RelayTotal(s) <= U128_MAX
  {
    hide RelayTotal;
  }

  /** An empty chain with these relay tokens in the hands of users 1, 2 and 9. */
  lemma EmptyChain(one: nat, two: nat, nine: nat) returns (s: State)
    requires one + two + nine <= 1000
    ensures s.vaults == map[] && s.entries == map[] && s.requests == map[] && s.ctokens == map[] && s.leases == map[]
    ensures s.nextTrie == 0 && s.nextQuery == 0 && Calm(s) && Funded(s) && RelayTotal(s) == one + two + nine
    ensures s.ledger.Balance(RELAY, User(1)) == one && s.ledger.Balance(RELAY, User(2)) == two
    ensures s.ledger.Issued(7) == 0 && NothingStranded(s)
  {
    hide Backed;
    var l := EmptyLedger();
    l := Minted(l, RELAY, User(1), one);
    l := Minted(l, RELAY, User(2), two);
    l := Minted(l, RELAY, User(9), nine);
    s := State(map[], map[], map[], map[], map[], 0, 0, false, false, 0, l, Config(RELAY, 1, 10, 10));
    assert Waitings(s) == map[] && Contributions(s) == map[];
    StartsOrderly(s);
  }

  // ---------- a refusal that comes twice ----------

  const K: VaultKey := VaultKey(2000, LEASE)

  /** User 1 contributes 5 and 8 to a vault whose ctoken is 7. */
  function TwoContributions(): seq<Op> {
    [Create(2000, 7), Open(2000), Op.Contribute(1, 2000, 5, ""), Op.Contribute(1, 2000, 8, "")]
  }

  lemma FourSteps(s: State, a: Op, b: Op, c: Op, d: Op, rest: seq<Op>)
    ensures Run(s, [a, b, c, d] + rest) == Run(Step(Step(Step(Step(s, a), b), c), d), rest)
  {
    hide Step;
    Unrolled(s, a, [b, c, d] + rest);
    Unrolled(Step(s, a), b, [c, d] + rest);
    Unrolled(Step(Step(s, a), b), c, [d] + rest);
    Unrolled(Step(Step(Step(s, a), b), c), d, rest);
    assert [a, b, c, d] + rest == [a] + ([b, c, d] + rest);
    assert [b, c, d] + rest == [b] + ([c, d] + rest);
    assert [c, d] + rest == [c] + ([d] + rest);
  }

  lemma Unrolled(s: State, op: Op, ops: seq<Op>)
    ensures Run(s, [op] + ops) == Run(Step(s, op), ops)
  {
    hide Step;
    assert ([op] + ops)[0] == op && ([op] + ops)[1..] == ops;
  }

  /** After the first two calls. */
  lemma Opened(s: State, ctoken: Asset, w: UserId) returns (t: State, x: Situation)
    requires s.vaults == map[] && s.entries == map[] && s.ctokens == map[] && s.leases == map[] && s.nextTrie == 0
    requires Calm(s) && Funded(s)
    ensures t == Step(Step(s, Create(2000, ctoken)), Open(2000))
    ensures x == Situation(K, NewVault(ctoken, 0).(phase := Contributing), w, 0, 0)
    ensures Holds(t, x) && Calm(t) && Funded(t)
    ensures t.requests == s.requests && t.nextQuery == s.nextQuery && t.ledger == s.ledger
    ensures t.leases == map[2000 := LEASE] && t.vaults.Keys == {K} && t.nextTrie == 1 && t.ctokens == map[LEASE := ctoken]
  {
    hide Funded, Step, CrowdInv, Holds, Elsewhere;
    FundedBacked(s);
    Creates(s, 2000, ctoken, w);
    FundedStep(s, Create(2000, ctoken));
    var s1 := Step(s, Create(2000, ctoken));
    var x1 := Situation(K, NewVault(ctoken, 0), w, 0, 0);
    Turns(s1, x1, Open(2000), Contributing);
    FundedStep(s1, Open(2000));
    t := Step(s1, Open(2000));
    x := x1.(v := x1.v.(phase := Contributing));
    Knows(s1, x1);
    assert map[][2000 := LEASE] == map[2000 := LEASE] && map[][LEASE := ctoken] == map[LEASE := ctoken];
  }

  lemma Knows(s: State, x: Situation)
    requires Holds(s, x)
    ensures x.k in s.vaults && s.vaults[x.k] == x.v && s.Current(x.k.para) == Ok(x.k) && x.k.lease in s.ctokens
  {
  }

  lemma Flew(s: State) returns (t: State)
    requires s.vaults == map[] && s.entries == map[] && s.requests == map[] && s.ctokens == map[] && s.leases == map[]
    requires s.nextTrie == 0 && s.nextQuery == 0 && Calm(s) && Funded(s) && s.ledger.Balance(RELAY, User(1)) == 13
    ensures t == Run(s, TwoContributions()) && forall rest :: Run(s, TwoContributions() + rest) == Run(t, rest)
    ensures Funded(t) && K in t.vaults && FlyingOf(t, K, 1) == 13
    ensures t.requests == map[0 := Contribution(K, 1, 5, ""), 1 := Contribution(K, 1, 8, "")]
  {
    hide Funded, Step, CrowdInv, Holds, Elsewhere, Run;
    var s2, x2 := Opened(s, 7, 1);
    Contributes(s2, x2, 5);
    FundedStep(s2, Op.Contribute(1, 2000, 5, ""));
    var s3 := Step(s2, Op.Contribute(1, 2000, 5, ""));
    var x3 := x2.(v := x2.v.(flying := 5), flying := 5);
    Contributes(s3, x3, 8);
    FundedStep(s3, Op.Contribute(1, 2000, 8, ""));
    t := Step(s3, Op.Contribute(1, 2000, 8, ""));
    FliesAt(t, x3.(v := x3.v.(flying := 13), flying := 13));
    forall rest
      ensures Run(s, TwoContributions() + rest) == Run(t, rest)
    {
      FourSteps(s, Create(2000, 7), Open(2000), Op.Contribute(1, 2000, 5, ""), Op.Contribute(1, 2000, 8, ""), rest);
    }
    RunNone(t);
    assert TwoContributions() + [] == TwoContributions();
    TwoRequests(s2.requests, Contribution(K, 1, 5, ""), Contribution(K, 1, 8, ""));
  }

  lemma RunNone(s: State)
    ensures Run(s, []) == s
  {
  }

  lemma FliesAt(s: State, x: Situation)
    requires Holds(s, x)
    ensures x.k in s.vaults && FlyingOf(s, x.k, x.w) == x.flying
  {
  }

  /** From an empty chain: 5 and 8 fly, the refusal of 5 comes twice, and the request for 8 can then neither be
      confirmed nor refused although 3 still fly. */
  lemma TwoFlying() returns (s: State)
    ensures s.vaults == map[] && s.entries == map[] && s.requests == map[] && Funded(s) && NothingStranded(s)
    ensures var t := Run(s, TwoContributions()); K in t.vaults && FlyingOf(t, K, 1) == 13
    ensures var t := Run(s, TwoContributions() + [Notification(0, false), Notification(0, false)]);
            && FlyingOf(t, K, 1) == 3 && 1 in t.requests && t.requests[1] == Contribution(K, 1, 8, "")
            && Notify(t, 1, true).Err? && Notify(t, 1, false).Err?
  {
    hide Funded, NothingStranded, Run, Notify, FlyingOf;
    s := EmptyChain(13, 0, 0);
    var t := Flew(s);
    RefusedTwice(t, K, 1, "");
  }

  // ---------- the relay token as a ctoken ----------

  lemma SameTotal(s: State, op: Op)
    requires Funded(s) && !op.Claim? && !op.Redeem?
    ensures RelayTotal(Step(s, op)) == RelayTotal(s) && Funded(Step(s, op))
  {
    hide Step, Funded, RelayTotal, Call;
    FundedBacked(s);
    FundedStep(s, op);
    RelayConservedExactly(s, [op]);
    OneStep(s, op);
    NothingClaimed(s, op);
    NothingRedeemed(s, op);
  }

  lemma NothingRedeemed(s: State, op: Op)
    requires !op.Redeem?
    ensures Redeemed(s, [op], s.cfg.relay) == 0
  {
    hide Step;
    assert [op][1..] == [];
  }

  lemma FundedWithin(s: State, op: Op)
    requires Funded(s) && RelayTotal(Step(s, op)) <= U128_MAX
    ensures Funded(Step(s, op))
  {
    hide Step, Funded, RelayTotal, Call, Claimed, Redeemed;
    FundedBacked(s);
    RunFundedExactly(s, [op]);
    RelayConservedExactly(s, [op]);
    OneStep(s, op);
  }

  /** User 1 contributes 5 to a vault whose ctoken is the relay token, and it is confirmed. */
  function RelayVault(): seq<Op> {
    [Create(2000, RELAY), Open(2000), Op.Contribute(1, 2000, 5, ""), Notification(0, true)]
  }

  function Expiring(): seq<Op> {
    [Close(2000), AuctionSucceeded(2000), SlotExpired(2000), Notification(1, true)]
  }

  lemma RelayConfirmed(s: State) returns (t: State, x: Situation)
    requires s.vaults == map[] && s.entries == map[] && s.requests == map[] && s.ctokens == map[] && s.leases == map[]
    requires s.nextTrie == 0 && s.nextQuery == 0 && Calm(s) && Funded(s) && s.ledger.Balance(RELAY, User(1)) == 5
    ensures forall rest :: Run(s, RelayVault() + rest) == Run(t, rest)
    ensures Funded(t) && Calm(t) && RelayTotal(t) == RelayTotal(s) && t.nextQuery == 1
    ensures x == Situation(K, NewVault(RELAY, 0).(phase := Contributing, contributed := 5), 1, 0, 5) && Holds(t, x)
  {
    hide Funded, Step, CrowdInv, Holds, Elsewhere, Run, RelayTotal, Moved;
    SameTotal(s, Create(2000, RELAY));
    SameTotal(Step(s, Create(2000, RELAY)), Open(2000));
    var s2, x2 := Opened(s, RELAY, 1);
    Contributes(s2, x2, 5);
    SameTotal(s2, Op.Contribute(1, 2000, 5, ""));
    var s3 := Step(s2, Op.Contribute(1, 2000, 5, ""));
    var x3 := x2.(v := x2.v.(flying := 5), flying := 5);
    Confirms(s3, x3, 0, 5);
    SameTotal(s3, Notification(0, true));
    t := Step(s3, Notification(0, true));
    x := x3.(v := x3.v.(flying := 0, contributed := 5), flying := 0, contributed := 5);
    forall rest
      ensures Run(s, RelayVault() + rest) == Run(t, rest)
    {
      FourSteps(s, Create(2000, RELAY), Open(2000), Op.Contribute(1, 2000, 5, ""), Notification(0, true), rest);
    }
  }

  lemma Expires(s: State, x: Situation) returns (t: State, y: Situation)
    requires Funded(s) && Calm(s) && Holds(s, x) && x.k == K && x.v.phase == Contributing && s.nextQuery == 1
    ensures forall rest :: Run(s, Expiring() + rest) == Run(t, rest)
    ensures Funded(t) && Calm(t) && RelayTotal(t) == RelayTotal(s)
    ensures y == x.(v := x.v.(phase := Expired)) && Holds(t, y) && t.ledger == s.ledger
  {
    hide Funded, Step, CrowdInv, Holds, Elsewhere, Run, RelayTotal;
    Turns(s, x, Close(2000), Closed);
    SameTotal(s, Close(2000));
    var s1, x1 := Step(s, Close(2000)), x.(v := x.v.(phase := Closed));
    Turns(s1, x1, AuctionSucceeded(2000), Succeeded);
    SameTotal(s1, AuctionSucceeded(2000));
    var s2, x2 := Step(s1, AuctionSucceeded(2000)), x1.(v := x1.v.(phase := Succeeded));
    Asks(s2, x2, SlotExpired(2000), Expired);
    SameTotal(s2, SlotExpired(2000));
    var s3 := Step(s2, SlotExpired(2000));
    Answers(s3, x2, 1);
    SameTotal(s3, Notification(1, true));
    t, y := Step(s3, Notification(1, true)), x2.(v := x2.v.(phase := Expired));
    forall rest
      ensures Run(s, Expiring() + rest) == Run(t, rest)
    {
      FourSteps(s, Close(2000), AuctionSucceeded(2000), SlotExpired(2000), Notification(1, true), rest);
    }
  }

  lemma ClaimTotal(s: State, x: Situation)
    requires Holds(s, x) && Calm(s) && x.v.ctoken == RELAY && x.contributed > 0
    requires s.ledger.Issued(RELAY) + x.contributed <= U128_MAX
    ensures var t := Step(s, Op.Claim(x.k, x.w, true));
            && RelayTotal(t) == RelayTotal(s) + x.contributed
            && Holds(t, x.(contributed := 0)) && Calm(t) && t.nextQuery == s.nextQuery
            && t.ledger.Balance(RELAY, User(x.w)) == s.ledger.Balance(RELAY, User(x.w)) + x.contributed
  {
    hide RelayTotal, Crowdloans.Claim, Elsewhere;
    Claims(s, x);
    ClaimMoves(s, x.k, x.w, true);
  }

  lemma RedeemTotal(s: State, x: Situation, who: UserId, amount: nat)
    requires Funded(s) && Holds(s, x) && Calm(s) && x.v.phase == Expired && x.v.ctoken == RELAY
    requires amount <= x.v.contributed && amount <= s.ledger.Balance(RELAY, User(who))
    ensures RelayTotal(Step(s, Op.Redeem(x.k, who, amount))) == RelayTotal(s) - amount
  {
    hide RelayTotal, Crowdloans.Redeem, Elsewhere, Funded;
    Redeems(s, x, who, amount);
    RedeemMoves(s, x.k, who, amount);
  }

  /** From an empty chain with 100 relay tokens: claiming 5 contributed ones as relay tokens makes 105, and redeeming
      them after the slot has expired brings it back to 100. */
  lemma RelayAsCToken() returns (s: State)
    ensures s.vaults == map[] && s.entries == map[] && s.requests == map[] && Funded(s) && RelayTotal(s) == 100
    ensures var claim, redeem := Op.Claim(K, 1, true), Op.Redeem(K, 1, 5);
            && RelayTotal(Run(s, RelayVault())) == 100
            && RelayTotal(Run(s, RelayVault() + [claim])) == 105
            && RelayTotal(Run(s, RelayVault() + [claim] + Expiring() + [redeem])) == 100
  {
    hide Funded, Run, Holds, RelayTotal, Step, NothingStranded;
    var claim, redeem := Op.Claim(K, 1, true), Op.Redeem(K, 1, 5);
    s := EmptyChain(5, 0, 95);
    var s4, x := RelayConfirmed(s);
    RunNone(s4);
    assert RelayVault() + [] == RelayVault();
    assert Run(s, RelayVault() + []) == Run(s4, []);
    IssuedWithin(s4);
    ClaimTotal(s4, x);
    FundedWithin(s4, claim);
    var s5 := Step(s4, claim);
    Unrolled(s4, claim, []);
    RunNone(s5);
    var s9, y := Expires(s5, x.(contributed := 0));
    RedeemTotal(s9, y, 1, 5);
    Unrolled(s4, claim, Expiring() + [redeem]);
    Unrolled(s9, redeem, []);
    RunNone(Step(s9, redeem));
    assert [claim] + [] == [claim] && [redeem] + [] == [redeem];
    assert RelayVault() + [claim] + Expiring() + [redeem] == RelayVault() + ([claim] + (Expiring() + [redeem]));
  }

  lemma IssuedWithin(s: State)
    requires Funded(s)
    ensures s.ledger.Issued(s.cfg.relay) <= RelayTotal(s)
  {
    hide Sum;
    SumNonNegative(Contributions(s));
  }

  // ---------- ctokens redeemed at another vault ----------

  const OTHER: VaultKey := VaultKey(2001, LEASE)

  lemma Stays(s: State, t: State, x: Situation, y: Situation)
    requires Elsewhere(s, t, x) && Holds(s, y) && Apart(x, y)
    ensures Holds(t, y)
  {
  }

  /** Two vaults of one lease are open. */
  function TwoVaults(): seq<Op> {
    [Create(2000, 7), Open(2000), Create(2001, 7), Open(2001)]
  }

  /** User 2 contributes 5 to the first and user 1 to the second, and both are confirmed. */
  function BothContribute(): seq<Op> {
    [Op.Contribute(2, 2000, 5, ""), Op.Contribute(1, 2001, 5, ""), Notification(0, true), Notification(1, true)]
  }

  /** The first is asked back as failed, then succeeds, and its slot expires. */
  function FailedThenSucceeded(): seq<Op> {
    [Close(2000), AuctionFailed(2000), AuctionSucceeded(2000), SlotExpired(2000)]
  }

  /** It expires; user 1 claims at the second vault and redeems at the first, whose failure is then confirmed late. */
  function RedeemedThere(): seq<Op> {
    [Notification(3, true), Op.Claim(OTHER, 1, true), Op.Redeem(K, 1, 5), Notification(2, true)]
  }

  lemma BothOpen(s: State) returns (t: State, x: Situation, y: Situation)
    requires s.vaults == map[] && s.entries == map[] && s.requests == map[] && s.ctokens == map[] && s.leases == map[]
    requires s.nextTrie == 0 && s.nextQuery == 0 && Calm(s) && Funded(s)
    ensures forall rest :: Run(s, TwoVaults() + rest) == Run(t, rest)
    ensures Funded(t) && Calm(t) && t.requests == map[] && t.nextQuery == 0 && t.ledger == s.ledger
    ensures x == Situation(K, NewVault(7, 0).(phase := Contributing), 2, 0, 0) && Holds(t, x)
    ensures y == Situation(OTHER, NewVault(7, 1).(phase := Contributing), 1, 0, 0) && Holds(t, y)
  {
    hide Funded, Step, CrowdInv, Holds, Elsewhere, Run;
    var s2;
    s2, x := Opened(s, 7, 2);
    FundedBacked(s2);
    Creates(s2, 2001, 7, 1);
    FundedStep(s2, Create(2001, 7));
    var s3, y3 := Step(s2, Create(2001, 7)), Situation(OTHER, NewVault(7, 1), 1, 0, 0);
    Stays(s2, s3, y3, x);
    Turns(s3, y3, Open(2001), Contributing);
    FundedStep(s3, Open(2001));
    t, y := Step(s3, Open(2001)), y3.(v := y3.v.(phase := Contributing));
    Stays(s3, t, y3, x);
    forall rest
      ensures Run(s, TwoVaults() + rest) == Run(t, rest)
    {
      FourSteps(s, Create(2000, 7), Open(2000), Create(2001, 7), Open(2001), rest);
    }
  }

  lemma TwoRequests(requests: Requests, a: Request, b: Request)
    requires requests == map[]
    ensures requests[0 := a][1 := b] == map[0 := a, 1 := b]
  {
  }

  lemma NotMoved(l: Ledger, n: Ledger, from: UserId, amount: nat, u: UserId)
    requires Moved(l, n, RELAY, User(from), CrowdloanPot, amount)
    ensures u != from ==> n.Balance(RELAY, User(u)) == l.Balance(RELAY, User(u))
    ensures n.issuance == l.issuance
  {
  }

  predicate Accepts(x: Situation) {
    && x.v.phase == Contributing && x.v.strategy == Xcm && x.v.cap == 100 == x.v.endBlock
    && x.v.Total() == 0 && x.flying == 0
  }

  function Flown(x: Situation, amount: nat): Situation {
    x.(v := x.v.(flying := amount), flying := amount)
  }

  lemma BothPaid(s: State, x: Situation, y: Situation, amount: nat) returns (t: State)
    requires Funded(s) && Calm(s) && Holds(s, x) && Holds(s, y) && Accepts(x) && Accepts(y) && 0 < amount <= 100
    requires x.k.para != y.k.para && x.v.trie != y.v.trie && x.w != y.w
    requires amount <= s.ledger.Balance(RELAY, User(x.w)) && amount <= s.ledger.Balance(RELAY, User(y.w))
    ensures t == Step(Step(s, Op.Contribute(x.w, x.k.para, amount, "")), Op.Contribute(y.w, y.k.para, amount, ""))
    ensures Funded(t) && Calm(t) && t.nextQuery == s.nextQuery + 2 && t.ledger.issuance == s.ledger.issuance
    ensures t.requests == s.requests[s.nextQuery := Contribution(x.k, x.w, amount, "")]
                                    [s.nextQuery + 1 := Contribution(y.k, y.w, amount, "")]
    ensures Holds(t, Flown(x, amount)) && Holds(t, Flown(y, amount))
  {
    hide Funded, Step, CrowdInv, Holds, Elsewhere, Moved;
    var first, second := Op.Contribute(x.w, x.k.para, amount, ""), Op.Contribute(y.w, y.k.para, amount, "");
    Contributes(s, x, amount);
    FundedStep(s, first);
    var s1 := Step(s, first);
    Stays(s, s1, x, y);
    NotMoved(s.ledger, s1.ledger, x.w, amount, y.w);
    Contributes(s1, y, amount);
    FundedStep(s1, second);
    t := Step(s1, second);
    Stays(s1, t, y, Flown(x, amount));
    NotMoved(s1.ledger, t.ledger, y.w, amount, x.w);
  }

  /** Vaults with 5 contributed. */
  function Full(k: VaultKey, trie: nat, w: UserId): Situation {
    Situation(k, NewVault(7, trie).(phase := Contributing, contributed := 5), w, 0, 5)
  }

  lemma BothConfirmed(s: State, x: Situation, y: Situation) returns (t: State)
    requires Funded(s) && Calm(s) && s.nextQuery == 2
    requires s.requests == map[0 := Contribution(K, 2, 5, ""), 1 := Contribution(OTHER, 1, 5, "")]
    requires x == Situation(K, NewVault(7, 0).(phase := Contributing, flying := 5), 2, 5, 0) && Holds(s, x)
    requires y == Situation(OTHER, NewVault(7, 1).(phase := Contributing, flying := 5), 1, 5, 0) && Holds(s, y)
    ensures t == Step(Step(s, Notification(0, true)), Notification(1, true))
    ensures Funded(t) && Calm(t) && t.nextQuery == 2 && t.requests == map[] && t.ledger.Issued(7) == s.ledger.Issued(7)
    ensures Holds(t, Full(K, 0, 2)) && Holds(t, Full(OTHER, 1, 1))
  {
    hide Funded, Step, CrowdInv, Holds, Elsewhere;
    Confirms(s, x, 0, 5);
    FundedStep(s, Notification(0, true));
    var s1 := Step(s, Notification(0, true));
    Stays(s, s1, x, y);
    Confirms(s1, y, 1, 5);
    FundedStep(s1, Notification(1, true));
    t := Step(s1, Notification(1, true));
    Stays(s1, t, y, Full(K, 0, 2));
    assert s.requests - {0} - {1} == map[];
  }

  lemma AskedTwice(s: State) returns (t: State, x: Situation)
    requires Funded(s) && Calm(s) && s.nextQuery == 2 && s.requests == map[]
    requires Holds(s, Full(K, 0, 2)) && Holds(s, Full(OTHER, 1, 1))
    ensures forall rest :: Run(s, FailedThenSucceeded() + rest) == Run(t, rest)
    ensures Funded(t) && Calm(t) && Holds(t, x) && Holds(t, Full(OTHER, 1, 1)) && t.ledger == s.ledger
    ensures x == Situation(K, NewVault(7, 0).(phase := Succeeded, contributed := 5), 2, 0, 5)
    ensures t.requests == map[2 := Withdrawal(K, 5, Failed), 3 := Withdrawal(K, 5, Expired)]
  {
    hide Funded, Step, CrowdInv, Holds, Elsewhere, Run;
    var x0, other := Full(K, 0, 2), Full(OTHER, 1, 1);
    Turns(s, x0, Close(2000), Closed);
    FundedStep(s, Close(2000));
    var s1, x1 := Step(s, Close(2000)), x0.(v := x0.v.(phase := Closed));
    Stays(s, s1, x0, other);
    Asks(s1, x1, AuctionFailed(2000), Failed);
    FundedStep(s1, AuctionFailed(2000));
    var s2 := Step(s1, AuctionFailed(2000));
    Stays(s1, s2, x1, other);
    Turns(s2, x1, AuctionSucceeded(2000), Succeeded);
    FundedStep(s2, AuctionSucceeded(2000));
    var s3 := Step(s2, AuctionSucceeded(2000));
    x := x1.(v := x1.v.(phase := Succeeded));
    Stays(s2, s3, x1, other);
    Asks(s3, x, SlotExpired(2000), Expired);
    FundedStep(s3, SlotExpired(2000));
    t := Step(s3, SlotExpired(2000));
    Stays(s3, t, x, other);
    forall rest
      ensures Run(s, FailedThenSucceeded() + rest) == Run(t, rest)
    {
      FourSteps(s, Close(2000), AuctionFailed(2000), AuctionSucceeded(2000), SlotExpired(2000), rest);
    }
    assert s.requests[2 := Withdrawal(K, 5, Failed)][3 := Withdrawal(K, 5, Expired)]
           == map[2 := Withdrawal(K, 5, Failed), 3 := Withdrawal(K, 5, Expired)];
  }

  lemma LeftShort(s: State, x: Situation) returns (t: State)
    requires Funded(s) && Calm(s) && Holds(s, x) && Holds(s, Full(OTHER, 1, 1)) && s.ledger.Issued(7) == 0
    requires x == Situation(K, NewVault(7, 0).(phase := Succeeded, contributed := 5), 2, 0, 5)
    requires s.requests == map[2 := Withdrawal(K, 5, Failed), 3 := Withdrawal(K, 5, Expired)]
    ensures t == Run(s, RedeemedThere())
    ensures Holds(t, Situation(K, NewVault(7, 0).(phase := Failed), 2, 0, 5)) && Funded(t)
  {
    hide Funded, Step, CrowdInv, Holds, Elsewhere, Run, RelayTotal, Changed;
    var other := Full(OTHER, 1, 1);
    Answers(s, x, 3);
    FundedStep(s, Notification(3, true));
    var s1, x1 := Step(s, Notification(3, true)), x.(v := x.v.(phase := Expired));
    Stays(s, s1, x, other);
    Claims(s1, other);
    ClaimKeepsFunded(s1, other);
    var claim := Op.Claim(OTHER, 1, true);
    var s2 := Step(s1, claim);
    Stays(s1, s2, other, x1);
    ClaimedHas(s1, s2);
    Redeems(s2, x1, 1, 5);
    var redeem := Op.Redeem(K, 1, 5);
    FundedStep(s2, redeem);
    var s3, x3 := Step(s2, redeem), x1.(v := x1.v.(contributed := 0));
    Answers(s3, x3, 2);
    FundedStep(s3, Notification(2, true));
    t := Step(s3, Notification(2, true));
    FourSteps(s, Notification(3, true), claim, redeem, Notification(2, true), []);
    assert RedeemedThere() + [] == RedeemedThere();
    RunNone(t);
  }

  lemma ClaimedHas(s: State, t: State)
    requires Changed(s.ledger, t.ledger, 7, User(1), 5, 5)
    ensures t.ledger.Balance(7, User(1)) >= 5
  {
  }

  /** Claiming another token than the relay token leaves the total alone. */
  lemma ClaimKeepsFunded(s: State, x: Situation)
    requires Funded(s) && Holds(s, x) && Calm(s) && x.v.ctoken != RELAY && Call(s, Op.Claim(x.k, x.w, true)).Ok?
    ensures Funded(Step(s, Op.Claim(x.k, x.w, true)))
  {
    hide Funded, RelayTotal, Crowdloans.Claim;
    ClaimMoves(s, x.k, x.w, true);
    FundedFits(s);
    FundedWithin(s, Op.Claim(x.k, x.w, true));
  }

  function ElsewhereOps(): seq<Op> {
    TwoVaults() + (BothContribute() + (FailedThenSucceeded() + RedeemedThere()))
  }

  /** From an empty chain: 5 are contributed to each of two vaults of one lease, those of the second are claimed as
      ctokens, and these are redeemed at the first. When the first then turns out to have failed, user 2, whose 5
      are still listed there, cannot withdraw them: the vault holds nothing any more. */
  lemma RedeemedElsewhere() returns (s: State)
    ensures s.vaults == map[] && s.entries == map[] && s.requests == map[] && Funded(s)
    ensures var t := Run(s, ElsewhereOps());
            && K in t.vaults && t.vaults[K].phase == Failed && t.vaults[K].contributed == 0
            && AmountAt(t.entries, EntryKey(t.vaults[K].trie, InContributed, 2)) == 5
            && Crowdloans.WithdrawFor(t, K, 2) == Err(Underflow)
  {
    hide Funded, Run, Holds, RelayTotal, Step, NothingStranded, Crowdloans.WithdrawFor;
    s := EmptyChain(5, 5, 0);
    var s4, x, y := BothOpen(s);
    var s6 := BothPaid(s4, x, y, 5);
    TwoRequests(s4.requests, Contribution(K, 2, 5, ""), Contribution(OTHER, 1, 5, ""));
    var s8 := BothConfirmed(s6, Flown(x, 5), Flown(y, 5));
    var s12, x12 := AskedTwice(s8);
    var t := LeftShort(s12, x12);
    var rest := FailedThenSucceeded() + RedeemedThere();
    FourSteps(s4, Op.Contribute(2, 2000, 5, ""), Op.Contribute(1, 2001, 5, ""),
              Notification(0, true), Notification(1, true), rest);
    assert Run(s, ElsewhereOps()) == t;
    ListedStill(t);
    WithdrawSucceeds(t, K, 2);
  }

  lemma ListedStill(t: State)
    requires Holds(t, Situation(K, NewVault(7, 0).(phase := Failed), 2, 0, 5))
    ensures K in t.vaults && t.vaults[K].phase == Failed && t.vaults[K].contributed == 0
    ensures AmountAt(t.entries, EntryKey(t.vaults[K].trie, InContributed, 2)) == 5
  {
  }
}
