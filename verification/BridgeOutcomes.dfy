/** When the calls of the bridge succeed, exactly, and what they make of chains and tokens. */
module BridgeOutcomes {
  import opened Base
  import opened Assets
  import opened Intervals
  import opened Bridge
  import opened BridgeRuns
  import opened BridgeCaps
  import opened BridgeVerdicts

  // ---------- teleporting ----------

  lemma BurnAndFee(l: Ledger, a: Asset, who: UserId, amount: nat, fee: nat)
    requires Fits(l)
    ensures l.Burn(a, User(who), amount).Ok? <==> amount <= l.Balance(a, User(who))
    ensures fee <= amount <= l.Balance(a, User(who)) ==> l.Burn(a, User(who), amount).value.Mint(a, BridgePot, fee).Ok?
  {
    hide Backed, Ledger.Burn, Ledger.Mint;
    TwoHolders(l, a, User(who), BridgePot);
  }

  /** A teleport succeeds exactly if chain and token are registered, the token is enabled, the amount covers the fee, is
      something, is owned by the caller and fits under the cap, and the chain's counter has room. */
  lemma TeleportSucceeds(s: State, who: UserId, dest: ChainId, id: Asset, amount: nat)
    requires Fits(s.ledger) && TokenInv(s)
    ensures Bridge.Teleport(s, who, dest, id, amount).Ok? <==>
              && dest in s.chainNonces && id in s.assetIds && s.chainNonces[dest] < U64_MAX
              && var token := s.tokens[s.assetIds[id]];
                 && token.enable && 0 < amount && token.fee <= amount
                 && token.outAmount + amount <= Min(token.outCap, U128_MAX)
                 && amount <= s.ledger.Balance(s.assetIds[id], User(who))
  {
    hide Fits, Ledger.Burn, Ledger.Mint, Ledger.Transfer, Changed, Moved;
    if id in s.assetIds {
      var a := s.assetIds[id];
      assert a in s.tokens;
      BurnAndFee(s.ledger, a, who, amount, s.tokens[a].fee);
    }
  }

  // ---------- voting ----------

  predicate Approves(s: State, ticket: Ticket, favour: bool) {
    |For(s, ticket)| + (if favour then 1 else 0) >= s.threshold
  }

  predicate Rejects(s: State, ticket: Ticket, favour: bool) {
    && !Approves(s, ticket, favour) && s.threshold <= |s.members|
    && |s.members| - (|Against(s, ticket)| + (if favour then 0 else 1)) < s.threshold
  }

  /** The token of a transfer is registered and enabled, the transfer is of something, and fits under the cap. */
  predicate Admissible(s: State, call: MaterializeCall) {
    && call.token in s.assetIds && 0 < call.amount
    && var token := s.TokenAt(s.assetIds[call.token]);
       token.enable && token.inAmount + call.amount <= Min(token.inCap, U128_MAX)
  }

  /** The money is there: room to mint a foreign token, or a native one in the pallet account. */
  predicate Payable(s: State, call: MaterializeCall)
    requires call.token in s.assetIds
  {
    var a := s.assetIds[call.token];
    if s.TokenAt(a).external then s.ledger.Issued(a) + call.amount <= U128_MAX
    else call.amount <= s.ledger.Balance(a, BridgePot)
  }

  /** The voter is a relayer, or the root operator behind the root origin. */
  predicate MayVote(s: State, origin: Origin) {
    origin.Root? || (origin.Signed? && origin.who in s.members)
  }

  function VoterOf(s: State, origin: Origin): UserId
    requires MayVote(s, origin)
  {
    if origin.Root? then s.cfg.rootOperator else origin.who
  }

  /** The proposal is open to this voter: a new one that lives for a while, or a stored one that is undecided, alive, and
      without a vote of theirs. */
  predicate OpenTo(s: State, ticket: Ticket, who: UserId) {
    if ticket in s.votes
    then s.votes[ticket].status == Initiated && s.now < s.votes[ticket].expiry
         && who !in For(s, ticket) && who !in Against(s, ticket)
    else s.cfg.lifetime > 0 && s.now + s.cfg.lifetime <= U32_MAX
  }

  lemma VotersAre(s: State, origin: Origin)
    ensures Voter(s, origin).Ok? <==> MayVote(s, origin)
    ensures Voter(s, origin).Ok? ==> Voter(s, origin).value == VoterOf(s, origin)
  {
  }

  lemma OpenIsCast(s: State, ticket: Ticket, who: UserId, favour: bool)
    ensures ProposalFor(s, ticket).Ok? && Cast(ProposalFor(s, ticket).value, who, favour, s.now).Ok?
            <==> OpenTo(s, ticket, who)
  {
  }

  lemma AllowedIsAdmissible(s: State, call: MaterializeCall)
    ensures MaterializeAllowed(s, call.token, call.amount).Ok? <==> Admissible(s, call)
  {
  }

  lemma PayIsPayable(s: State, call: MaterializeCall)
    requires Admissible(s, call)
    ensures Pay(s, call).Ok? <==> Payable(s, call)
    ensures Pay(s, call).Ok? ==> Pay(s, call).value.registry == s.registry
  {
    hide Ledger.Mint, Ledger.Transfer, Changed, Moved;
  }

  lemma RecordIsFree(s: State, c: ChainId, nonce: nat)
    requires c in s.registry
    ensures RecordNonce(s, c, nonce).Ok? <==> !Traps(s.registry[c], nonce)
  {
    hide Sort, Merge, StretchAll, AddIfMissing, Traps;
  }

  lemma ResolveSucceeds(s: State, ticket: Ticket, p: Proposal)
    requires p.status == Initiated && ticket.chain in s.registry && Admissible(s, ticket.call)
    ensures var d := p.TryToComplete(s.threshold, |s.members|);
            Resolve(s, ticket, p).Ok? <==>
              && (d.status == Approved ==> Payable(s, ticket.call))
              && (d.status != Initiated ==> !Traps(s.registry[ticket.chain], ticket.nonce))
  {
    hide Pay, RecordNonce, Traps, Proposal.TryToComplete;
    var d := p.TryToComplete(s.threshold, |s.members|);
    var s1 := s.(votes := s.votes[ticket := d]);
    PayIsPayable(s1, ticket.call);
    RecordIsFree(s1, ticket.chain, ticket.nonce);
    if Pay(s1, ticket.call).Ok? {
      RecordIsFree(Pay(s1, ticket.call).value, ticket.chain, ticket.nonce);
    }
  }

  lemma VerdictIs(s: State, ticket: Ticket, who: UserId, favour: bool)
    requires ProposalFor(s, ticket).Ok? && Cast(ProposalFor(s, ticket).value, who, favour, s.now).Ok?
    ensures var p := Cast(ProposalFor(s, ticket).value, who, favour, s.now).value;
            var d := p.TryToComplete(s.threshold, |s.members|);
            && (d.status == Approved <==> Approves(s, ticket, favour))
            && (d.status == Rejected <==> Rejects(s, ticket, favour))
  {
    hide Cast, ProposalFor, Proposal.TryToComplete;
    CastAdds(s, ticket, who, favour);
    CompletesByRule(Cast(ProposalFor(s, ticket).value, who, favour, s.now).value, s.threshold, |s.members|);
  }

  /** A vote succeeds exactly if the voter may vote, the chain is registered and the nonce open on it, the transfer is
      admissible, the proposal is open to the voter, the money is there if the vote approves, and the registry can
      record the nonce if the vote decides. */
  lemma VoteSucceeds(s: State, origin: Origin, ticket: Ticket, favour: bool)
    requires s.registry.Keys == s.chainNonces.Keys
    ensures Bridge.Materialize(s, origin, ticket, favour).Ok? <==>
              && MayVote(s, origin) && ticket.chain in s.chainNonces && !HasBridged(s, ticket.chain, ticket.nonce)
              && Admissible(s, ticket.call) && OpenTo(s, ticket, VoterOf(s, origin))
              && (Approves(s, ticket, favour) ==> Payable(s, ticket.call))
              && (Approves(s, ticket, favour) || Rejects(s, ticket, favour) ==>
                    !Traps(s.registry[ticket.chain], ticket.nonce))
  {
    hide Resolve, Has, Cast, ProposalFor, MaterializeAllowed, Admissible, Payable, OpenTo, Approves, Rejects, Traps;
    hide Voter, VoterOf, MayVote, Proposal.TryToComplete;
    VotersAre(s, origin);
    AllowedIsAdmissible(s, ticket.call);
    if MayVote(s, origin) && Admissible(s, ticket.call) {
      var who := VoterOf(s, origin);
      OpenIsCast(s, ticket, who, favour);
      IdIsThere(s, ticket.call);
      if ticket.chain in s.registry && OpenTo(s, ticket, who) {
        VerdictIs(s, ticket, who, favour);
        var p := Cast(ProposalFor(s, ticket).value, who, favour, s.now).value;
        CastInitiated(ProposalFor(s, ticket).value, who, favour, s.now);
        ResolveSucceeds(s, ticket, p);
      }
    }
  }

  lemma IdIsThere(s: State, call: MaterializeCall)
    requires Admissible(s, call)
    ensures call.token in s.assetIds
  {
  }

  // ---------- chains ----------

  /** Which chains are registered after a step, and where their counters stand: at zero from the registration, and one
      further by every successful teleport. */
  lemma StepChains(s: State, op: Op, c: ChainId)
    requires s.registry.Keys == s.chainNonces.Keys
    ensures var t := Step(s, op);
            && (c in t.chainNonces <==> if c in s.chainNonces then op != UnregisterChain(c)
                                        else op == RegisterChain(c) && c != s.cfg.thisChain)
            && (c in t.chainNonces ==>
                  t.chainNonces[c] == if c in s.chainNonces then s.chainNonces[c] + SentBy(s, op, c) else 0)
  {
    if op.Materialize? {
      hide Call;
      if Call(s, op).Ok? {
        VoteKeepsChains(s, op);
      }
    } else {
      hide Ledger.Transfer, Ledger.Mint, Ledger.Burn;
    }
  }

  /** One if the call is a successful teleport to the chain. */
  function SentBy(s: State, op: Op, c: ChainId): nat {
    if op.Teleport? && op.dest == c && Call(s, op).Ok? then 1 else 0
  }

  lemma VoteKeepsChains(s: State, op: Op)
    requires op.Materialize? && Call(s, op).Ok?
    ensures Step(s, op).chainNonces == s.chainNonces
  {
    hide Bridge.Materialize, Resolve, Has, Voter, ProposalFor, Cast, Proposal.TryToComplete;
    MaterializeUnfolds(s, op.origin, op.ticket, op.favour);
    var p := Cast(ProposalFor(s, op.ticket).value, Voter(s, op.origin).value, op.favour, s.now).value;
    CastInitiated(ProposalFor(s, op.ticket).value, Voter(s, op.origin).value, op.favour, s.now);
    ResolveEffect(s, op.ticket, p);
  }

  /** How many teleports to a chain succeed in a run. */
  function Sent(s: State, ops: seq<Op>, c: ChainId): nat
    decreases ops
  {
    if ops == [] then 0 else SentBy(s, ops[0], c) + Sent(Step(s, ops[0]), ops[1..], c)
  }

  /** Over any run that leaves a chain registered, its counter moves on by one for each successful teleport, and by
      nothing else. */
  lemma {:induction false} RunCounts(s: State, audit: Audit, ops: seq<Op>, c: ChainId)
    requires RegistryInv(s, audit) && c in s.chainNonces
    requires forall i :: 0 <= i < |ops| ==> ops[i] != UnregisterChain(c)
    ensures c in Run(s, ops).chainNonces && Run(s, ops).chainNonces[c] == s.chainNonces[c] + Sent(s, ops, c)
    decreases ops
  {
    hide Step, Observe, SentBy;
    if ops != [] {
      StepChains(s, ops[0], c);
      StepKeepsRegistry(s, audit, ops[0]);
      RunCounts(Step(s, ops[0]), Observe(s, audit, ops[0]), ops[1..], c);
    }
  }

  // ---------- tokens ----------

  /** An edit changes the one field it names, of the one token it names. */
  lemma EditedToken(s: State, op: Op, a: Asset)
    requires TokenInv(s) && a in s.tokens && op.EditToken?
    ensures a in Step(s, op).tokens
    ensures var before, after := s.tokens[a], Step(s, op).tokens[a];
            if !(op.id in s.assetIds && s.assetIds[op.id] == a) then after == before else
              && after.id == before.id && after.external == before.external
              && after.fee == (if op.edit.Fee? then op.edit.fee else before.fee)
              && after.enable == (if op.edit.Enable? then op.edit.on else before.enable)
              && after.outCap == (if op.edit.OutCap? then op.edit.cap else before.outCap)
              && after.inCap == (if op.edit.InCap? then op.edit.cap else before.inCap)
              && after.outAmount == (if op.edit.CleanOut? then 0 else before.outAmount)
              && after.inAmount == (if op.edit.CleanIn? then 0 else before.inAmount)
  {
  }

  /** Every other call leaves fee, status and caps of a token alone; so they are what the last edit said. */
  lemma OnlyEdits(s: State, op: Op, a: Asset)
    requires TokenInv(s) && a in s.tokens && !op.EditToken? && a in Step(s, op).tokens
    ensures var before, after := s.tokens[a], Step(s, op).tokens[a];
            after == before.(outAmount := after.outAmount, inAmount := after.inAmount)
  {
    if op.Materialize? {
      hide Bridge.Materialize, Resolve, Has, Voter, ProposalFor, Cast;
      if Call(s, op).Ok? {
        MaterializeUnfolds(s, op.origin, op.ticket, op.favour);
        var p := Cast(ProposalFor(s, op.ticket).value, Voter(s, op.origin).value, op.favour, s.now).value;
        ResolveKeepsToken(s, op.ticket, p, a);
      }
    } else {
      hide Ledger.Transfer, Ledger.Mint, Ledger.Burn;
    }
  }

  lemma ResolveKeepsToken(s: State, ticket: Ticket, p: Proposal, a: Asset)
    requires TokenInv(s) && a in s.tokens && Resolve(s, ticket, p).Ok?
    ensures a in Resolve(s, ticket, p).value.tokens
    ensures var before, after := s.tokens[a], Resolve(s, ticket, p).value.tokens[a];
            after == before.(outAmount := after.outAmount, inAmount := after.inAmount)
  {
    hide Record, Ledger.Mint, Ledger.Transfer, Proposal.TryToComplete;
  }

  /** Which tokens are registered after a step, and under which id. */
  lemma StepTokens(s: State, op: Op, a: Asset)
    requires TokenInv(s)
    ensures var t := Step(s, op);
            && (a in t.tokens <==>
                  if a in s.tokens then !(op.UnregisterToken? && op.id in s.assetIds && s.assetIds[op.id] == a)
                  else op.RegisterToken? && op.asset == a && op.token.id !in s.assetIds)
            && (a !in s.tokens && a in t.tokens ==>
                  t.tokens[a] == op.token && t.assetIds == s.assetIds[op.token.id := a])
  {
    if op.Materialize? {
      hide Step, Call;
      VoteKeepsIds(s, op);
    } else {
      hide Ledger.Transfer, Ledger.Mint, Ledger.Burn;
    }
  }
}
