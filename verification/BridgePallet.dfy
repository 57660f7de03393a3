/** The bridge pallet as an object that executes the calls of `Bridge` on its storage. */
module BridgePallet {
  import opened Base
  import opened Assets
  import opened Intervals
  import opened Bridge
  import opened BridgeRuns
  import BridgeVerdicts

  // ---------- the registry of one chain ----------

  /** `merge_overlapping_intervals`: sort by start, then open or stretch one interval after another. */
  method MergeOverlappingIntervals(registry: seq<Interval>) returns (merged: seq<Interval>)
    ensures merged == Merge(Sort(registry))
    ensures Proper(registry) ==> Separated(merged) && forall n :: Has(merged, n) <==> Has(registry, n)
  {
    var sorted := Sort(registry);
    merged := [];
    for i := 0 to |sorted|
      invariant merged == Merge(sorted[..i])
    {
      assert sorted[..i + 1][..i] == sorted[..i];
      var r := sorted[i];
      if merged == [] || r.0 > merged[|merged| - 1].1 {
        merged := merged + [r];
      } else {
        var last := merged[|merged| - 1];
        merged := merged[|merged| - 1 := (last.0, Max(r.1, last.1))];
      }
    }
    assert sorted[..|sorted|] == sorted;
    SortSorts(registry);
    if Proper(registry) {
      SameMembers(registry, sorted);
      MergeKeeps(sorted);
    }
  }

  method Bridged(registry: seq<Interval>, nonce: nat) returns (found: bool)
    ensures found <==> Has(registry, nonce)
  {
    for i := 0 to |registry|
      invariant forall j :: 0 <= j < i ==> !Covers(registry[j], nonce)
    {
      if registry[i].0 <= nonce && nonce <= registry[i].1 {
        assert Covers(registry[i], nonce);
        return true;
      }
    }
    return false;
  }

  /** `update_bridge_registry` on the registry of one chain, with the overflow checks of its arithmetic. */
  method AddToRegistry(registry: seq<Interval>, nonce: nat) returns (r: Result<seq<Interval>>)
    ensures r == Record(registry, nonce)
    ensures Canonical(registry) && r.Ok? ==>
              Canonical(r.value) && forall n :: Has(r.value, n) <==> Has(registry, n) || n == nonce
  {
    var stretched := [];
    for i := 0 to |registry|
      invariant stretched == StretchAll(registry[..i], nonce)
      invariant i > 0 ==> nonce + 1 <= U64_MAX
      invariant nonce == 0 ==> forall j :: 0 <= j < i ==> registry[j].0 == 1
    {
      assert registry[..i + 1][..i] == registry[..i];
      var x := registry[i];
      if nonce + 1 > U64_MAX {
        return Err(Trap);
      }
      if x.0 == nonce + 1 {
        stretched := stretched + [(nonce, x.1)];
      } else if nonce == 0 {
        return Err(Trap);
      } else if x.1 == nonce - 1 {
        stretched := stretched + [(x.0, nonce)];
      } else {
        stretched := stretched + [x];
      }
    }
    assert registry[..|registry|] == registry;
    var merged := MergeOverlappingIntervals(stretched);
    var present := Bridged(merged, nonce);
    if !present {
      merged := merged + [(nonce, nonce)];
    }
    r := Ok(Sort(merged));
    if Canonical(registry) {
      RecordAdds(registry, nonce);
    }
  }

  // ---------- the calls ----------

  class Pallet {
    var chainNonces: map<ChainId, nat>
    var registry: map<ChainId, seq<Interval>>
    var tokens: map<Asset, Token>
    var assetIds: map<Asset, Asset>
    var votes: map<Ticket, Proposal>
    var threshold: nat
    var members: set<UserId>
    var now: nat
    var ledger: Ledger
    const cfg: Config
    /** What an observer has written down so far. */
    ghost var audit: Audit

    function View(): State
      reads this
    {
      State(chainNonces, registry, tokens, assetIds, votes, threshold, members, now, ledger, cfg)
    }

    /** The registry holds exactly the nonces settled, none twice, and every decision rests on the votes for it;
        every call keeps it. */
    ghost predicate Valid()
      reads this
    {
      Consistent(View(), audit)
    }

    constructor (ledger: Ledger, members: set<UserId>, cfg: Config)
      ensures Valid() && audit == Audit(map[], {}, [])
      ensures View() == State(map[], map[], map[], map[], map[], 1, members, 0, ledger, cfg)
    {
      chainNonces, registry, tokens, assetIds, votes := map[], map[], map[], map[], map[];
      threshold, this.members, now, this.ledger, this.cfg := 1, members, 0, ledger, cfg;
      audit := Audit(map[], {}, []);
      new;
      FromGenesis(View(), []);
    }

    method RegisterChain(c: ChainId) returns (r: Result<()>)
      requires Valid()
      modifies this`audit, this`chainNonces, this`registry
      ensures Valid() && audit == Observe(old(View()), old(audit), Op.RegisterChain(c))
      ensures Executes(r, old(View()), View(), Bridge.RegisterChain(old(View()), c))
    {
      hide Consistent, Observe;
      StepKeepsConsistent(View(), audit, Op.RegisterChain(c));
      audit := Observe(View(), audit, Op.RegisterChain(c));
      if c == cfg.thisChain || c in chainNonces {
        return Err(ChainIdAlreadyRegistered);
      }
      chainNonces := chainNonces[c := 0];
      registry := registry[c := []];
      return Ok(());
    }

    method UnregisterChain(c: ChainId) returns (r: Result<()>)
      requires Valid()
      modifies this`audit, this`chainNonces, this`registry
      ensures Valid() && audit == Observe(old(View()), old(audit), Op.UnregisterChain(c))
      ensures Executes(r, old(View()), View(), Bridge.UnregisterChain(old(View()), c))
    {
      hide Consistent, Observe;
      StepKeepsConsistent(View(), audit, Op.UnregisterChain(c));
      audit := Observe(View(), audit, Op.UnregisterChain(c));
      if c !in chainNonces {
        return Err(ChainIdNotRegistered);
      }
      chainNonces := chainNonces - {c};
      registry := registry - {c};
      return Ok(());
    }

    method RegisterToken(a: Asset, token: Token) returns (r: Result<()>)
      requires Valid()
      modifies this`audit, this`tokens, this`assetIds
      ensures Valid() && audit == Observe(old(View()), old(audit), Op.RegisterToken(a, token))
      ensures Executes(r, old(View()), View(), Bridge.RegisterToken(old(View()), a, token))
    {
      hide Consistent, Observe;
      StepKeepsConsistent(View(), audit, Op.RegisterToken(a, token));
      audit := Observe(View(), audit, Op.RegisterToken(a, token));
      if a in tokens || token.id in assetIds {
        return Err(BridgeTokenAlreadyRegistered);
      }
      tokens := tokens[a := token];
      assetIds := assetIds[token.id := a];
      return Ok(());
    }

    method UnregisterToken(id: Asset) returns (r: Result<()>)
      requires Valid()
      modifies this`audit, this`tokens, this`assetIds
      ensures Valid() && audit == Observe(old(View()), old(audit), Op.UnregisterToken(id))
      ensures Executes(r, old(View()), View(), Bridge.UnregisterToken(old(View()), id))
    {
      hide Consistent, Observe;
      StepKeepsConsistent(View(), audit, Op.UnregisterToken(id));
      audit := Observe(View(), audit, Op.UnregisterToken(id));
      if id !in assetIds {
        return Err(BridgeTokenNotRegistered);
      }
      tokens := tokens - {assetIds[id]};
      assetIds := assetIds - {id};
      return Ok(());
    }

    method EditToken(id: Asset, edit: Edit) returns (r: Result<()>)
      requires Valid()
      modifies this`audit, this`tokens
      ensures Valid() && audit == Observe(old(View()), old(audit), Op.EditToken(id, edit))
      ensures Executes(r, old(View()), View(), Bridge.EditToken(old(View()), id, edit))
    {
      hide Consistent, Observe;
      StepKeepsConsistent(View(), audit, Op.EditToken(id, edit));
      audit := Observe(View(), audit, Op.EditToken(id, edit));
      if id !in assetIds {
        return Err(BridgeTokenNotRegistered);
      }
      var a := assetIds[id];
      tokens := tokens[a := Edited(View().TokenAt(a), edit)];
      return Ok(());
    }

    method Teleport(who: UserId, dest: ChainId, id: Asset, amount: nat) returns (r: Result<()>)
      requires Valid()
      modifies this`audit, this`tokens, this`ledger, this`chainNonces
      ensures Valid() && audit == Observe(old(View()), old(audit), Op.Teleport(who, dest, id, amount))
      ensures Executes(r, old(View()), View(), Bridge.Teleport(old(View()), who, dest, id, amount))
    {
      hide Consistent, Observe, Ledger.Transfer, Ledger.Mint, Ledger.Burn;
      StepKeepsConsistent(View(), audit, Op.Teleport(who, dest, id, amount));
      audit := Observe(View(), audit, Op.Teleport(who, dest, id, amount));
      if dest !in chainNonces {
        return Err(ChainIdNotRegistered);
      }
      if id !in assetIds {
        return Err(BridgeTokenNotRegistered);
      }
      if amount == 0 {
        return Err(BridgingAmountTooLow);
      }
      var a := assetIds[id];
      var token := View().TokenAt(a);
      if !token.enable {
        return Err(BridgeTokenDisabled);
      }
      var outAmount :- UnderCap(token.outAmount, amount, token.outCap, BridgeOutCapExceeded);
      var l := ledger;
      if token.external {
        l :- l.Burn(a, User(who), amount);
        l :- l.Mint(a, BridgePot, token.fee);
      } else {
        l :- l.Transfer(a, User(who), BridgePot, amount);
      }
      if amount < token.fee {
        return Err(BridgingAmountTooLow);
      }
      if chainNonces[dest] + 1 > U64_MAX {
        return Err(Trap);
      }
      tokens := tokens[a := token.(outAmount := outAmount)];
      ledger := l;
      chainNonces := chainNonces[dest := chainNonces[dest] + 1];
      return Ok(());
    }

    method UpdateBridgeRegistry(c: ChainId, nonce: nat) returns (r: Result<()>)
      modifies this`registry
      ensures Executes(r, old(View()), View(), RecordNonce(old(View()), c, nonce))
    {
      hide Record;
      if c !in registry {
        return Ok(());
      }
      var updated := AddToRegistry(registry[c], nonce);
      if updated.Err? {
        return Err(updated.error);
      }
      registry := registry[c := updated.value];
      return Ok(());
    }

    method PayOut(call: MaterializeCall) returns (r: Result<()>)
      modifies this`tokens, this`ledger
      ensures Executes(r, old(View()), View(), Pay(old(View()), call))
    {
      if call.token !in assetIds {
        return Err(BridgeTokenNotRegistered);
      }
      var a := assetIds[call.token];
      var token := View().TokenAt(a);
      var inAmount :- UnderCap(token.inAmount, call.amount, token.inCap, BridgeInCapExceeded);
      if token.external {
        ledger :- ledger.Mint(a, call.to, call.amount);
      } else {
        ledger :- ledger.Transfer(a, BridgePot, call.to, call.amount);
      }
      tokens := tokens[a := token.(inAmount := inAmount)];
      return Ok(());
    }

    /** `resolve_proposal` with `execute_materialize` and `cancel_materialize`. */
    method ResolveProposal(ticket: Ticket, p: Proposal) returns (r: Result<()>)
      requires p.status == Initiated
      modifies this`votes, this`tokens, this`ledger, this`registry
      ensures Executes(r, old(View()), View(), Resolve(old(View()), ticket, p))
      ensures r.Ok? ==>
                && ticket in votes
                && BridgeVerdicts.Ruled(votes[ticket].status, |p.votesFor|, |p.votesAgainst|, threshold, |members|)
    {
      hide Record, Pay, RecordNonce;
      BridgeVerdicts.CompletesByRule(p, threshold, |members|);
      var votes0, tokens0, ledger0 := votes, tokens, ledger;
      var decided := p.TryToComplete(threshold, |members|);
      votes := votes[ticket := decided];
      r := Ok(());
      if decided.status == Approved {
        r := PayOut(ticket.call);
      }
      if r.Ok? && decided.IsComplete() {
        r := UpdateBridgeRegistry(ticket.chain, ticket.nonce);
      }
      if r.Err? {
        votes, tokens, ledger := votes0, tokens0, ledger0;
      }
    }

    method Materialize(origin: Origin, ticket: Ticket, favour: bool) returns (r: Result<()>)
      requires Valid()
      modifies this`audit, this`votes, this`tokens, this`ledger, this`registry
      ensures Valid() && audit == Observe(old(View()), old(audit), Op.Materialize(origin, ticket, favour))
      ensures Executes(r, old(View()), View(), Bridge.Materialize(old(View()), origin, ticket, favour))
      ensures r.Ok? ==> BridgeVerdicts.Settles(View(), ticket)
    {
      hide Consistent, Observe, Resolve, BridgeVerdicts.Settles;
      BridgeVerdicts.VoteSettles(View(), audit, origin, ticket, favour);
      StepKeepsConsistent(View(), audit, Op.Materialize(origin, ticket, favour));
      audit := Observe(View(), audit, Op.Materialize(origin, ticket, favour));
      var who :- Voter(View(), origin);
      if ticket.chain !in chainNonces {
        return Err(ChainIdNotRegistered);
      }
      if ticket.chain in registry {
        var done := Bridged(registry[ticket.chain], ticket.nonce);
        if done {
          return Err(ProposalAlreadyComplete);
        }
      }
      var _ :- MaterializeAllowed(View(), ticket.call.token, ticket.call.amount);
      var p :- ProposalFor(View(), ticket);
      if p.IsComplete() {
        return Err(ProposalAlreadyComplete);
      }
      if p.IsExpired(now) {
        return Err(ProposalExpired);
      }
      if p.HasVoted(who) {
        return Err(MemberAlreadyVoted);
      }
      if favour {
        p := p.(votesFor := p.votesFor + [who]);
      } else {
        p := p.(votesAgainst := p.votesAgainst + [who]);
      }
      r := ResolveProposal(ticket, p);
    }

    /** The loop of `on_initialize` over the stored proposals. */
    method DropExpired()
      modifies this`votes
      ensures votes == Unexpired(old(votes), now)
    {
      hide Proposal.IsExpired;
      var todo := votes.Keys;
      while todo != {}
        invariant todo <= votes.Keys <= old(votes).Keys
        invariant forall k :: k in votes ==> votes[k] == old(votes)[k] && (k in todo || !votes[k].IsExpired(now))
        invariant forall k :: k in old(votes) && !old(votes)[k].IsExpired(now) ==> k in votes
        decreases |todo|
      {
        var k :| k in todo;
        todo := todo - {k};
        if votes[k].IsExpired(now) {
          votes := votes - {k};
        }
      }
      assert votes == Unexpired(old(votes), now);
    }

    method OnInitialize()
      requires Valid()
      modifies this`audit, this`now, this`votes
      ensures Valid() && audit == Observe(old(View()), old(audit), NewBlock)
      ensures View() == Bridge.NewBlock(old(View()))
    {
      hide Consistent, Observe, Unexpired;
      StepKeepsConsistent(View(), audit, NewBlock);
      audit := Observe(View(), audit, NewBlock);
      now := now + 1;
      DropExpired();
    }

    method ChangeMembers(newMembers: set<UserId>)
      requires Valid()
      modifies this`audit, this`members, this`threshold
      ensures Valid() && audit == Observe(old(View()), old(audit), Op.ChangeMembers(newMembers))
      ensures View() == Bridge.ChangeMembers(old(View()), newMembers)
    {
      hide Consistent, Observe;
      StepKeepsConsistent(View(), audit, Op.ChangeMembers(newMembers));
      audit := Observe(View(), audit, Op.ChangeMembers(newMembers));
      members := newMembers;
      var newThreshold := ThresholdFor(cfg.percent, |members|);
      if 0 < newThreshold <= |members| {
        threshold := newThreshold;
      }
    }
  }
}
