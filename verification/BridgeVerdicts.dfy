/** When a vote decides, exactly: what a proposal is after every vote, that the vote which puts approval out of reach
    closes the nonce, how long proposals live, and what the threshold is. */
module BridgeVerdicts {
  import opened Base
  import opened Assets
  import opened Intervals
  import opened Bridge
  import opened BridgeRuns

  // ---------- the rule ----------

  /** The status that so many votes make, given the threshold and the number of relayers: approved from the threshold
      on, rejected once those who have not opposed are fewer than the threshold, open in between. */
  predicate Ruled(status: Status, votesFor: nat, votesAgainst: nat, threshold: nat, total: nat) {
    && (status == Approved <==> votesFor >= threshold)
    && (status == Rejected <==> votesFor < threshold && threshold <= total && total - votesAgainst < threshold)
    && (status == Initiated <==> votesFor < threshold && (total < threshold || threshold <= total - votesAgainst))
  }

  lemma CompletesByRule(p: Proposal, threshold: nat, total: nat)
    requires p.status == Initiated
    ensures var d := p.TryToComplete(threshold, total);
            && Ruled(d.status, |d.votesFor|, |d.votesAgainst|, threshold, total)
            && d.votesFor == p.votesFor && d.votesAgainst == p.votesAgainst && d.expiry == p.expiry
  {
  }

  function For(s: State, ticket: Ticket): seq<UserId> {
    if ticket in s.votes then s.votes[ticket].votesFor else []
  }

  function Against(s: State, ticket: Ticket): seq<UserId> {
    if ticket in s.votes then s.votes[ticket].votesAgainst else []
  }

  /** After every successful vote the proposal has that one voter more, on the side voted for, and the status that the
      rule gives with the threshold and the relayers of that moment; and the nonce is closed by exactly the vote
      that decides. */
  lemma VoteDecides(s: State, op: Op)
    requires op.Materialize? && Call(s, op).Ok? && s.registry.Keys == s.chainNonces.Keys
    requires op.ticket.chain in s.registry ==> Canonical(s.registry[op.ticket.chain])
    ensures var t, ticket := Step(s, op), op.ticket;
            && Voter(s, op.origin).Ok? && ticket in t.votes
            && var who, p := Voter(s, op.origin).value, t.votes[ticket];
               && For(t, ticket) == For(s, ticket) + (if op.favour then [who] else [])
               && Against(t, ticket) == Against(s, ticket) + (if op.favour then [] else [who])
               && who !in For(s, ticket) && who !in Against(s, ticket)
               && Ruled(p.status, |p.votesFor|, |p.votesAgainst|, s.threshold, |s.members|)
               && !HasBridged(s, ticket.chain, ticket.nonce)
               && (HasBridged(t, ticket.chain, ticket.nonce) <==> p.status != Initiated)
               && p.expiry == (if ticket in s.votes then s.votes[ticket].expiry else s.now + s.cfg.lifetime)
               && s.now < p.expiry
               && t.votes == s.votes[ticket := p]
  {
    hide Resolve, Record, Has, Cast, ProposalFor, Voter, Bridge.Materialize, Canonical, Proposal.TryToComplete, Ruled;
    var ticket := op.ticket;
    MaterializeUnfolds(s, op.origin, ticket, op.favour);
    var stored, who := ProposalFor(s, ticket).value, Voter(s, op.origin).value;
    var p := Cast(stored, who, op.favour, s.now).value;
    CastAdds(s, ticket, who, op.favour);
    CompletesByRule(p, s.threshold, |s.members|);
    ResolveEffect(s, ticket, p);
    if p.TryToComplete(s.threshold, |s.members|).IsComplete() {
      RecordAdds(s.registry[ticket.chain], ticket.nonce);
    }
  }

  lemma CastAdds(s: State, ticket: Ticket, who: UserId, favour: bool)
    requires ProposalFor(s, ticket).Ok? && Cast(ProposalFor(s, ticket).value, who, favour, s.now).Ok?
    ensures var p := Cast(ProposalFor(s, ticket).value, who, favour, s.now).value;
            && p.status == Initiated
            && p.votesFor == For(s, ticket) + (if favour then [who] else [])
            && p.votesAgainst == Against(s, ticket) + (if favour then [] else [who])
            && who !in For(s, ticket) && who !in Against(s, ticket)
            && p.expiry == (if ticket in s.votes then s.votes[ticket].expiry else s.now + s.cfg.lifetime)
            && s.now < p.expiry
  {
  }

  /** The stored proposal has the status that its votes make, and the nonce is closed exactly if it is decided. */
  predicate Settles(t: State, ticket: Ticket) {
    && ticket in t.votes
    && var p := t.votes[ticket];
       && Ruled(p.status, |p.votesFor|, |p.votesAgainst|, t.threshold, |t.members|)
       && (HasBridged(t, ticket.chain, ticket.nonce) <==> p.status != Initiated)
  }

  lemma VoteSettles(s: State, audit: Audit, origin: Origin, ticket: Ticket, favour: bool)
    requires Consistent(s, audit)
    ensures Bridge.Materialize(s, origin, ticket, favour).Ok? ==>
              Settles(Bridge.Materialize(s, origin, ticket, favour).value, ticket)
  {
    var op := Op.Materialize(origin, ticket, favour);
    hide Bridge.Materialize, Ruled, HasBridged, Canonical, Settled, EpochsBound, OncePerEpoch, VotesInv, For, Against;
    if Call(s, op).Ok? {
      VoteKeepsMembers(s, op);
      VoteDecides(s, op);
    }
  }

  /** No vote can be cast on a nonce that is closed, whatever it proposes. */
  lemma ClosedNonce(s: State, op: Op)
    requires op.Materialize? && HasBridged(s, op.ticket.chain, op.ticket.nonce)
    ensures Call(s, op).Err?
  {
    hide Resolve, Has, Cast, ProposalFor, MaterializeAllowed;
  }

  // ---------- over runs ----------

  /** Open proposals are undecided, and decided ones have the votes that decide them. */
  ghost predicate AllRuled(s: State) {
    forall ticket :: ticket in s.votes ==>
      Ruled(s.votes[ticket].status, |s.votes[ticket].votesFor|, |s.votes[ticket].votesAgainst|, s.threshold, |s.members|)
  }

  predicate SameMembers(ops: seq<Op>) {
    forall i :: 0 <= i < |ops| ==> !ops[i].ChangeMembers?
  }

  /** A vote, or the failure of one. */
  lemma VoteStep(s: State, audit: Audit, op: Op)
    requires RegistryInv(s, audit) && op.Materialize?
    ensures var t := Step(s, op);
            && t.members == s.members && t.threshold == s.threshold && t.now == s.now
            && (t.votes == s.votes ||
                (&& op.ticket in t.votes && t.votes == s.votes[op.ticket := t.votes[op.ticket]]
                 && var p := t.votes[op.ticket];
                    && Ruled(p.status, |p.votesFor|, |p.votesAgainst|, s.threshold, |s.members|)
                    && s.now < p.expiry
                    && p.expiry == (if op.ticket in s.votes then s.votes[op.ticket].expiry else s.now + s.cfg.lifetime)))
  {
    if Call(s, op).Ok? {
      VoteKeepsMembers(s, op);
      hide Step, Call, Ruled, HasBridged, Canonical, Settled, For, Against, OncePerEpoch, EpochsBound;
      VoteDecides(s, op);
    }
  }

  lemma VoteKeepsMembers(s: State, op: Op)
    requires op.Materialize? && Call(s, op).Ok?
    ensures Step(s, op).members == s.members && Step(s, op).threshold == s.threshold && Step(s, op).now == s.now
    ensures Step(s, op).cfg == s.cfg
  {
    hide Record, Has, Cast, ProposalFor, MaterializeAllowed, Voter, Ledger.Mint, Ledger.Transfer, Proposal.TryToComplete;
  }

  /** The other calls keep every proposal but those a new block drops. */
  lemma OtherStep(s: State, op: Op)
    requires !op.Materialize?
    ensures var t := Step(s, op);
            && (!op.ChangeMembers? ==> t.members == s.members && t.threshold == s.threshold)
            && t.now == s.now + (if op.NewBlock? then 1 else 0) && t.cfg == s.cfg
            && (forall ticket :: ticket in t.votes <==>
                  ticket in s.votes && (op.NewBlock? ==> s.now + 1 < s.votes[ticket].expiry))
            && (forall ticket :: ticket in t.votes ==> t.votes[ticket] == s.votes[ticket])
  {
    hide Ledger.Transfer, Ledger.Mint, Ledger.Burn;
  }

  lemma StepKeepsRuled(s: State, audit: Audit, op: Op)
    requires RegistryInv(s, audit) && AllRuled(s) && !op.ChangeMembers?
    ensures AllRuled(Step(s, op))
  {
    hide Step, Call, Ruled, RegistryInv;
    if op.Materialize? {
      VoteStep(s, audit, op);
    } else {
      OtherStep(s, op);
    }
  }

  /** Over any run between two changes of the relayers: every stored proposal is approved exactly if it has the
      threshold, rejected exactly if approval is out of reach, and open otherwise. */
  lemma {:induction false} RunKeepsRuled(s: State, audit: Audit, ops: seq<Op>)
    requires RegistryInv(s, audit) && AllRuled(s) && SameMembers(ops)
    ensures AllRuled(Run(s, ops))
    decreases ops
  {
    hide Step, Observe, RegistryInv, AllRuled;
    if ops != [] {
      StepKeepsRuled(s, audit, ops[0]);
      StepKeepsRegistry(s, audit, ops[0]);
      RunKeepsRuled(Step(s, ops[0]), Observe(s, audit, ops[0]), ops[1..]);
    }
  }

  // ---------- closed for good ----------

  lemma VoteRegistry(s: State, op: Op, c: ChainId, nonce: nat)
    requires op.Materialize? && Call(s, op).Ok? && HasBridged(s, c, nonce)
    requires forall x :: x in s.registry ==> Canonical(s.registry[x])
    ensures HasBridged(Step(s, op), c, nonce)
  {
    hide Resolve, Record, Has, Cast, ProposalFor, Voter, Bridge.Materialize, Canonical, Proposal.TryToComplete;
    var ticket := op.ticket;
    MaterializeUnfolds(s, op.origin, ticket, op.favour);
    var p := Cast(ProposalFor(s, ticket).value, Voter(s, op.origin).value, op.favour, s.now).value;
    CastInitiated(ProposalFor(s, ticket).value, Voter(s, op.origin).value, op.favour, s.now);
    ResolveEffect(s, ticket, p);
    if ticket.chain in s.registry && Record(s.registry[ticket.chain], ticket.nonce).Ok? {
      RecordAdds(s.registry[ticket.chain], ticket.nonce);
    }
  }

  lemma StepStaysClosed(s: State, audit: Audit, op: Op, c: ChainId, nonce: nat)
    requires RegistryInv(s, audit) && HasBridged(s, c, nonce) && op != UnregisterChain(c)
    ensures HasBridged(Step(s, op), c, nonce)
  {
    if op.Materialize? {
      hide Call, Has, Canonical, Settled;
      if Call(s, op).Ok? {
        hide Step;
        VoteRegistry(s, op, c, nonce);
      }
    } else {
      hide Ledger.Transfer, Ledger.Mint, Ledger.Burn, Has, Canonical, Settled;
    }
  }

  /** A closed nonce stays closed while its chain stays registered. */
  lemma {:induction false} StaysClosed(s: State, audit: Audit, ops: seq<Op>, c: ChainId, nonce: nat)
    requires RegistryInv(s, audit) && HasBridged(s, c, nonce)
    requires forall i :: 0 <= i < |ops| ==> ops[i] != UnregisterChain(c)
    ensures HasBridged(Run(s, ops), c, nonce)
    decreases ops
  {
    hide Step, Observe, RegistryInv, HasBridged;
    if ops != [] {
      StepStaysClosed(s, audit, ops[0], c, nonce);
      StepKeepsRegistry(s, audit, ops[0]);
      StaysClosed(Step(s, ops[0]), Observe(s, audit, ops[0]), ops[1..], c, nonce);
    }
  }

  lemma VoteCloses(s: State, audit: Audit, op: Op)
    requires RegistryInv(s, audit) && op.Materialize? && Call(s, op).Ok?
    requires |For(Step(s, op), op.ticket)| < s.threshold <= |s.members|
    requires |s.members| - |Against(Step(s, op), op.ticket)| < s.threshold
    ensures HasBridged(Step(s, op), op.ticket.chain, op.ticket.nonce)
  {
    hide Step, Call, HasBridged, Canonical, Settled, EpochsBound, OncePerEpoch;
    VoteDecides(s, op);
  }

  /** A vote that puts approval out of reach closes the nonce for good: until the chain is unregistered no vote on that
      nonce succeeds any more, for this or any other proposal. */
  lemma OutOfReach(s: State, audit: Audit, op: Op, ops: seq<Op>, again: Op)
    requires RegistryInv(s, audit) && op.Materialize? && Call(s, op).Ok?
    requires |For(Step(s, op), op.ticket)| < s.threshold <= |s.members|
    requires |s.members| - |Against(Step(s, op), op.ticket)| < s.threshold
    requires forall i :: 0 <= i < |ops| ==> ops[i] != UnregisterChain(op.ticket.chain)
    requires again.Materialize? && again.ticket.chain == op.ticket.chain && again.ticket.nonce == op.ticket.nonce
    ensures Call(Run(Step(s, op), ops), again).Err?
  {
    hide Step, Call, HasBridged, RegistryInv, Observe, Run, For, Against;
    VoteCloses(s, audit, op);
    StepKeepsRegistry(s, audit, op);
    StaysClosed(Step(s, op), Observe(s, audit, op), ops, op.ticket.chain, op.ticket.nonce);
    ClosedNonce(Run(Step(s, op), ops), again);
  }

  // ---------- how long proposals live ----------

  /** One step: a proposal goes exactly when the block number reaches its expiry, and keeps its expiry until then. */
  lemma StepLives(s: State, audit: Audit, op: Op, ticket: Ticket)
    requires RegistryInv(s, audit) && ticket in s.votes
    ensures var t := Step(s, op);
            && t.now == s.now + (if op.NewBlock? then 1 else 0)
            && (ticket in t.votes <==> (op.NewBlock? ==> s.now + 1 < s.votes[ticket].expiry))
            && (ticket in t.votes ==> t.votes[ticket].expiry == s.votes[ticket].expiry)
  {
    hide Step, Call, Ruled, RegistryInv;
    if op.Materialize? {
      VoteStep(s, audit, op);
    } else {
      OtherStep(s, op);
    }
  }

  lemma StepNow(s: State, audit: Audit, op: Op)
    requires RegistryInv(s, audit)
    ensures s.now <= Step(s, op).now && Step(s, op).cfg == s.cfg
  {
    if op.Materialize? {
      hide Call, RegistryInv;
      if Call(s, op).Ok? {
        hide Step;
        VoteKeepsMembers(s, op);
      }
    } else {
      hide Step, Call, RegistryInv;
      OtherStep(s, op);
    }
  }

  lemma {:induction false} NowGrows(s: State, audit: Audit, ops: seq<Op>)
    requires RegistryInv(s, audit)
    ensures s.now <= Run(s, ops).now
    decreases ops
  {
    hide Step, Observe, RegistryInv;
    if ops != [] {
      StepNow(s, audit, ops[0]);
      StepKeepsRegistry(s, audit, ops[0]);
      NowGrows(Step(s, ops[0]), Observe(s, audit, ops[0]), ops[1..]);
    }
  }

  /** Over any run, a stored proposal is there at every block before its expiry, decided or not. */
  lemma {:induction false} LivesUntilExpiry(s: State, audit: Audit, ops: seq<Op>, ticket: Ticket)
    requires RegistryInv(s, audit) && ticket in s.votes && Run(s, ops).now < s.votes[ticket].expiry
    ensures ticket in Run(s, ops).votes && Run(s, ops).votes[ticket].expiry == s.votes[ticket].expiry
    decreases ops
  {
    hide Step, Observe, RegistryInv;
    if ops != [] {
      StepLives(s, audit, ops[0], ticket);
      StepKeepsRegistry(s, audit, ops[0]);
      NowGrows(Step(s, ops[0]), Observe(s, audit, ops[0]), ops[1..]);
      LivesUntilExpiry(Step(s, ops[0]), Observe(s, audit, ops[0]), ops[1..], ticket);
    }
  }

  /** No expired proposal is stored. */
  ghost predicate AllAlive(s: State) {
    forall ticket :: ticket in s.votes ==> s.now < s.votes[ticket].expiry
  }

  lemma StepKeepsAlive(s: State, audit: Audit, op: Op)
    requires RegistryInv(s, audit) && AllAlive(s)
    ensures AllAlive(Step(s, op))
  {
    hide Step, Call, Ruled, RegistryInv;
    if op.Materialize? {
      VoteStep(s, audit, op);
    } else {
      OtherStep(s, op);
    }
  }

  /** And from its expiry on it is gone: in every reachable state no expired proposal is stored. */
  lemma {:induction false} RunKeepsAlive(s: State, audit: Audit, ops: seq<Op>)
    requires RegistryInv(s, audit) && AllAlive(s)
    ensures AllAlive(Run(s, ops))
    decreases ops
  {
    hide Step, Observe, RegistryInv, AllAlive;
    if ops != [] {
      StepKeepsAlive(s, audit, ops[0]);
      StepKeepsRegistry(s, audit, ops[0]);
      RunKeepsAlive(Step(s, ops[0]), Observe(s, audit, ops[0]), ops[1..]);
    }
  }

  // ---------- the threshold ----------

  /** The threshold is the least number that makes up the percentage of the relayers, none more than all of them. */
  lemma ThresholdIsLeast(percent: nat, members: nat, n: nat)
    ensures ThresholdFor(percent, members) <= n <==> Min(percent, 100) * members <= 100 * n
    ensures ThresholdFor(percent, members) <= members
  {
    var a: nat := Min(percent, 100) * members;
    Share(Min(percent, 100), members);
  }

  lemma Share(percent: nat, members: nat)
    requires percent <= 100
    ensures percent * members <= 100 * members
    ensures percent > 0 && members > 0 ==> percent * members > 0
  {
  }

  /** A change of the relayers: they are the new ones, and the threshold is the percentage of them if any of them is
      needed, and what it was otherwise. */
  lemma MembersChange(s: State, members: set<UserId>)
    ensures var t := Step(s, ChangeMembers(members));
            && t.members == members
            && (s.cfg.percent > 0 && members != {} ==>
                  && 1 <= t.threshold <= |members|
                  && 100 * (t.threshold - 1) < Min(s.cfg.percent, 100) * |members| <= 100 * t.threshold)
            && (s.cfg.percent == 0 || members == {} ==> t.threshold == s.threshold)
            && t == s.(members := t.members, threshold := t.threshold)
  {
    hide ThresholdFor;
    var n := |members|;
    var c := ThresholdFor(s.cfg.percent, n);
    ThresholdIsLeast(s.cfg.percent, n, 0);
    ThresholdIsLeast(s.cfg.percent, n, c);
    if c > 0 {
      ThresholdIsLeast(s.cfg.percent, n, c - 1);
    }
    Share(Min(s.cfg.percent, 100), n);
    assert members == {} <==> n == 0;
  }
}
