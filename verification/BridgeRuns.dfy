/** What an observer of any run of the bridge can rely on: at most one outcome per nonce while a chain stays
    registered, and approvals that rest on enough distinct, permitted, timely voters. */
module BridgeRuns {
  import opened Base
  import opened Assets
  import opened Intervals
  import opened Bridge

  datatype Op =
    | RegisterChain(chain: ChainId)
    | UnregisterChain(chain: ChainId)
    | RegisterToken(asset: Asset, token: Token)
    | UnregisterToken(id: Asset)
    | EditToken(id: Asset, edit: Edit)
    | Teleport(who: UserId, dest: ChainId, id: Asset, amount: nat)
    | Materialize(origin: Origin, ticket: Ticket, favour: bool)
    | NewBlock
    | ChangeMembers(members: set<UserId>)
    | Transfer(asset: Asset, from: UserId, to: Account, amount: nat)

  function Call(s: State, op: Op): Result<State> {
    match op
    case RegisterChain(c) => Bridge.RegisterChain(s, c)
    case UnregisterChain(c) => Bridge.UnregisterChain(s, c)
    case RegisterToken(a, token) => Bridge.RegisterToken(s, a, token)
    case UnregisterToken(id) => Bridge.UnregisterToken(s, id)
    case EditToken(id, edit) => Bridge.EditToken(s, id, edit)
    case Teleport(who, dest, id, amount) => Bridge.Teleport(s, who, dest, id, amount)
    case Materialize(origin, ticket, favour) => Bridge.Materialize(s, origin, ticket, favour)
    case NewBlock => Ok(Bridge.NewBlock(s))
    case ChangeMembers(members) => Ok(Bridge.ChangeMembers(s, members))
    case Transfer(asset, from, to, amount) =>
      var l :- s.ledger.Transfer(asset, User(from), to, amount);
      Ok(s.(ledger := l))
  }

  function Step(s: State, op: Op): State {
    if Call(s, op).Ok? then Call(s, op).value else s
  }

  function Run(s: State, ops: seq<Op>): State
    decreases ops
  {
    if ops == [] then s else Run(Step(s, ops[0]), ops[1..])
  }

  // ---------- what an observer writes down ----------

  /** A vote: on what, by whom, when, and whether the voter was a relayer or the root operator. */
  datatype Ballot = Ballot(ticket: Ticket, who: UserId, favour: bool, at: nat, permitted: bool)

  /** A decision: the asset it is about, the proposal as decided, the threshold and the number of relayers then,
      and how often the chain had been unregistered before. */
  datatype Outcome = Outcome(
    ticket: Ticket, asset: Option<Asset>, epoch: nat, proposal: Proposal, threshold: nat, total: nat, at: nat)

  datatype Audit = Audit(epochs: map<ChainId, nat>, ballots: set<Ballot>, outcomes: seq<Outcome>)

  function EpochOf(epochs: map<ChainId, nat>, c: ChainId): nat {
    if c in epochs then epochs[c] else 0
  }

  function Decision(s: State, epochs: map<ChainId, nat>, ticket: Ticket, p: Proposal): Outcome {
    var asset := if ticket.call.token in s.assetIds then Some(s.assetIds[ticket.call.token]) else None;
    Outcome(ticket, asset, EpochOf(epochs, ticket.chain), p, s.threshold, |s.members|, s.now)
  }

  function Observe(s: State, audit: Audit, op: Op): Audit {
    if Call(s, op).Err? then audit else
      match op
      case UnregisterChain(c) => audit.(epochs := audit.epochs[c := EpochOf(audit.epochs, c) + 1])
      case Materialize(origin, ticket, favour) =>
        if Voter(s, origin).Err? || ticket !in Step(s, op).votes then audit else
          var who := Voter(s, origin).value;
          var p := Step(s, op).votes[ticket];
          var seen := audit.(ballots := audit.ballots + {Ballot(ticket, who, favour, s.now, s.Permitted(who))});
          if p.IsComplete() then seen.(outcomes := seen.outcomes + [Decision(s, audit.epochs, ticket, p)]) else seen
      case _ => audit
  }

  function ObserveRun(s: State, audit: Audit, ops: seq<Op>): Audit
    decreases ops
  {
    if ops == [] then audit else ObserveRun(Step(s, ops[0]), Observe(s, audit, ops[0]), ops[1..])
  }

  // ---------- one vote ----------

  /** The proposal a successful vote leaves behind, before it is decided. */
  lemma MaterializeUnfolds(s: State, origin: Origin, ticket: Ticket, favour: bool)
    requires Bridge.Materialize(s, origin, ticket, favour).Ok?
    ensures Voter(s, origin).Ok? && s.Permitted(Voter(s, origin).value)
    ensures ticket.chain in s.chainNonces && !HasBridged(s, ticket.chain, ticket.nonce)
    ensures ProposalFor(s, ticket).Ok?
    ensures var cast := Cast(ProposalFor(s, ticket).value, Voter(s, origin).value, favour, s.now);
            cast.Ok? && Resolve(s, ticket, cast.value) == Bridge.Materialize(s, origin, ticket, favour)
  {
    hide Resolve, Has, MaterializeAllowed, Proposal.HasVoted;
  }

  /** What deciding a proposal does: it is stored as decided, its nonce is recorded if it is complete, and
      money moves only if it is approved. */
  lemma ResolveEffect(s: State, ticket: Ticket, p: Proposal)
    requires Resolve(s, ticket, p).Ok? && p.status == Initiated
    ensures var t := Resolve(s, ticket, p).value;
            var decided := p.TryToComplete(s.threshold, |s.members|);
            && t.chainNonces == s.chainNonces
            && t.votes == s.votes[ticket := decided]
            && t.now == s.now && t.cfg == s.cfg
            && (!decided.IsComplete() || ticket.chain !in s.registry ==> t.registry == s.registry)
            && (decided.IsComplete() && ticket.chain in s.registry ==>
                  && Record(s.registry[ticket.chain], ticket.nonce).Ok?
                  && t.registry == s.registry[ticket.chain := Record(s.registry[ticket.chain], ticket.nonce).value])
            && (decided.status != Approved ==> t.ledger == s.ledger)
            && (decided.status == Approved ==>
                  && ticket.call.token in s.assetIds
                  && var a := s.assetIds[ticket.call.token];
                     Ok(t.ledger) == if s.TokenAt(a).external then s.ledger.Mint(a, ticket.call.to, ticket.call.amount)
                                     else s.ledger.Transfer(a, BridgePot, ticket.call.to, ticket.call.amount))
  {
    hide Record, Ledger.Mint, Ledger.Transfer;
  }

  /** What teleporting does: the whole amount leaves the caller; a foreign token is burnt except for the fee, a
      native one is kept in the pallet account; and the chain's counter moves on by one. */
  lemma TeleportEffect(s: State, who: UserId, dest: ChainId, id: Asset, amount: nat)
    requires Bridge.Teleport(s, who, dest, id, amount).Ok?
    ensures var t := Bridge.Teleport(s, who, dest, id, amount).value;
            && id in s.assetIds && dest in s.chainNonces
            && var a := s.assetIds[id];
               var token := s.TokenAt(a);
               && token.fee <= amount && t.TokenAt(a).outAmount == token.outAmount + amount <= token.outCap
               && t.ledger.Balance(a, User(who)) == s.ledger.Balance(a, User(who)) - amount
               && t.ledger.Balance(a, BridgePot)
                  == s.ledger.Balance(a, BridgePot) + (if token.external then token.fee else amount)
               && t.ledger.Issued(a) == s.ledger.Issued(a) - (if token.external then amount - token.fee else 0)
               && t.chainNonces == s.chainNonces[dest := s.chainNonces[dest] + 1]
               && t.registry == s.registry && t.votes == s.votes
  {
  }

  // ---------- the invariant ----------

  ghost predicate Settled(outcomes: seq<Outcome>, c: ChainId, epoch: nat, nonce: nat) {
    exists i :: 0 <= i < |outcomes|
      && outcomes[i].ticket.chain == c && outcomes[i].epoch == epoch && outcomes[i].ticket.nonce == nonce
  }

  /** The registry of a chain stands for exactly the nonces settled since it was registered. */
  ghost predicate RegistryTrue(s: State, epochs: map<ChainId, nat>, outcomes: seq<Outcome>) {
    && s.registry.Keys == s.chainNonces.Keys
    && (forall c :: c in s.registry ==> Canonical(s.registry[c]))
    && (forall c, n :: c in s.registry ==>
          (Has(s.registry[c], n) <==> Settled(outcomes, c, EpochOf(epochs, c), n)))
    && (forall c, n :: c !in s.registry ==> !Settled(outcomes, c, EpochOf(epochs, c), n))
  }

  ghost predicate EpochsBound(epochs: map<ChainId, nat>, outcomes: seq<Outcome>) {
    forall i :: 0 <= i < |outcomes| ==> outcomes[i].epoch <= EpochOf(epochs, outcomes[i].ticket.chain)
  }

  /** No nonce of a chain is settled twice in one epoch, by whatever calls. */
  ghost predicate OncePerEpoch(outcomes: seq<Outcome>) {
    forall i, j :: 0 <= i < j < |outcomes| ==>
      !(&& outcomes[i].ticket.chain == outcomes[j].ticket.chain
        && outcomes[i].ticket.nonce == outcomes[j].ticket.nonce
        && outcomes[i].epoch == outcomes[j].epoch)
  }

  ghost predicate RegistryInv(s: State, audit: Audit) {
    && RegistryTrue(s, audit.epochs, audit.outcomes)
    && EpochsBound(audit.epochs, audit.outcomes)
    && OncePerEpoch(audit.outcomes)
  }

  lemma SettledAppend(outcomes: seq<Outcome>, o: Outcome)
    ensures forall c, e, n :: Settled(outcomes + [o], c, e, n)
              <==> Settled(outcomes, c, e, n) || (c == o.ticket.chain && e == o.epoch && n == o.ticket.nonce)
  {
    forall c, e, n
      ensures Settled(outcomes + [o], c, e, n)
              <==> Settled(outcomes, c, e, n) || (c == o.ticket.chain && e == o.epoch && n == o.ticket.nonce)
    {
      var all := outcomes + [o];
      if Settled(outcomes, c, e, n) {
        var i :| 0 <= i < |outcomes| && outcomes[i].ticket.chain == c && outcomes[i].epoch == e
                 && outcomes[i].ticket.nonce == n;
        assert all[i] == outcomes[i];
      }
      assert all[|outcomes|] == o;
    }
  }

  /** Settling a nonce that is not in the registry. */
  lemma SettleKeeps(s: State, audit: Audit, o: Outcome, t: State)
    requires RegistryInv(s, audit) && o.ticket.chain in s.registry && o.epoch == EpochOf(audit.epochs, o.ticket.chain)
    requires !Has(s.registry[o.ticket.chain], o.ticket.nonce) && Record(s.registry[o.ticket.chain], o.ticket.nonce).Ok?
    requires t.chainNonces == s.chainNonces
    requires t.registry == s.registry[o.ticket.chain := Record(s.registry[o.ticket.chain], o.ticket.nonce).value]
    ensures RegistryInv(t, audit.(outcomes := audit.outcomes + [o]))
  {
    hide Record, Has, Canonical, Settled;
    RecordAdds(s.registry[o.ticket.chain], o.ticket.nonce);
    SettledAppend(audit.outcomes, o);
    assert RegistryTrue(t, audit.epochs, audit.outcomes + [o]);
    OnceMore(audit.outcomes, o);
  }

  lemma OnceMore(outcomes: seq<Outcome>, o: Outcome)
    requires OncePerEpoch(outcomes) && !Settled(outcomes, o.ticket.chain, o.epoch, o.ticket.nonce)
    ensures OncePerEpoch(outcomes + [o])
  {
  }

  lemma VoteKeepsRegistry(s: State, audit: Audit, op: Op)
    requires RegistryInv(s, audit) && op.Materialize? && Call(s, op).Ok?
    ensures RegistryInv(Step(s, op), Observe(s, audit, op))
  {
    hide Resolve, Record, Has, Canonical, Settled, Cast, ProposalFor, Voter, EpochsBound, OncePerEpoch, Bridge.Materialize;
    var ticket := op.ticket;
    MaterializeUnfolds(s, op.origin, ticket, op.favour);
    var p := Cast(ProposalFor(s, ticket).value, Voter(s, op.origin).value, op.favour, s.now).value;
    CastInitiated(ProposalFor(s, ticket).value, Voter(s, op.origin).value, op.favour, s.now);
    ResolveEffect(s, ticket, p);
    var t := Step(s, op);
    if t.votes[ticket].IsComplete() {
      SettleKeeps(s, audit, Decision(s, audit.epochs, ticket, t.votes[ticket]), t);
    }
  }

  lemma CastInitiated(p: Proposal, who: UserId, favour: bool, now: nat)
    requires Cast(p, who, favour, now).Ok?
    ensures Cast(p, who, favour, now).value.status == Initiated
  {
  }

  lemma ChainKeepsRegistry(s: State, audit: Audit, op: Op)
    requires RegistryInv(s, audit) && (op.RegisterChain? || op.UnregisterChain?)
    ensures RegistryInv(Step(s, op), Observe(s, audit, op))
  {
    hide Canonical;
    assert Canonical([]) by { EmptyCanonical(); }
  }

  lemma EmptyCanonical()
    ensures Canonical([]) && forall n :: !Has([], n)
  {
  }

  lemma StepKeepsRegistry(s: State, audit: Audit, op: Op)
    requires RegistryInv(s, audit)
    ensures RegistryInv(Step(s, op), Observe(s, audit, op))
  {
    hide Has, Canonical, Settled, Bridge.Materialize;
    match op
    case RegisterChain(_) => ChainKeepsRegistry(s, audit, op);
    case UnregisterChain(_) => ChainKeepsRegistry(s, audit, op);
    case Materialize(_, _, _) =>
      if Call(s, op).Ok? {
        VoteKeepsRegistry(s, audit, op);
      }
    case _ =>
  }

  /** Over any run, with rival calls and expiry clean-up in any order: the registry of every chain is the
      canonical form of the set of nonces settled since it was registered, and none of them twice. */
  lemma {:induction false} RunKeepsRegistry(s: State, audit: Audit, ops: seq<Op>)
    requires RegistryInv(s, audit)
    ensures RegistryInv(Run(s, ops), ObserveRun(s, audit, ops))
    decreases ops
  {
    hide Step, Observe, RegistryInv;
    if ops != [] {
      StepKeepsRegistry(s, audit, ops[0]);
      RunKeepsRegistry(Step(s, ops[0]), Observe(s, audit, ops[0]), ops[1..]);
    }
  }

  /** After unregistering and registering a chain again, every nonce is open once more. */
  lemma ReregisteringForgets(s: State, c: ChainId, nonce: nat)
    requires c in s.chainNonces && c != s.cfg.thisChain
    ensures !HasBridged(Run(s, [UnregisterChain(c), RegisterChain(c)]), c, nonce)
  {
    var t := Step(s, UnregisterChain(c));
    assert [UnregisterChain(c), RegisterChain(c)][1..] == [RegisterChain(c)];
    assert Run(t, [RegisterChain(c)]) == Step(t, RegisterChain(c));
  }

  // ---------- what approvals rest on ----------

  predicate Distinct(voters: seq<UserId>) {
    forall i, j :: 0 <= i < j < |voters| ==> voters[i] != voters[j]
  }

  /** A permitted voter cast this vote while the proposal was alive. */
  ghost predicate VotedInTime(ballots: set<Ballot>, ticket: Ticket, who: UserId, favour: bool, expiry: nat, lifetime: nat) {
    exists at: nat ::
      Ballot(ticket, who, favour, at, true) in ballots && at < expiry <= at + lifetime
  }

  ghost predicate Rests(p: Proposal, ticket: Ticket, ballots: set<Ballot>, lifetime: nat) {
    && Distinct(p.votesFor) && Distinct(p.votesAgainst)
    && (forall v :: v in p.votesFor ==> v !in p.votesAgainst)
    && (forall v :: v in p.votesFor ==> VotedInTime(ballots, ticket, v, true, p.expiry, lifetime))
    && (forall v :: v in p.votesAgainst ==> VotedInTime(ballots, ticket, v, false, p.expiry, lifetime))
  }

  /** A decision made before expiry: approval by at least the threshold, rejection only when the relayers
      who have not opposed it are fewer than the threshold. */
  ghost predicate Justified(o: Outcome, ballots: set<Ballot>, lifetime: nat) {
    && Rests(o.proposal, o.ticket, ballots, lifetime)
    && o.at < o.proposal.expiry
    && o.proposal.IsComplete()
    && (o.proposal.status == Approved <==> |o.proposal.votesFor| >= o.threshold)
    && (o.proposal.status == Rejected ==> o.threshold <= o.total && o.total - |o.proposal.votesAgainst| < o.threshold)
  }

  ghost predicate VotesInv(s: State, audit: Audit) {
    && (forall k :: k in s.votes ==>
          Rests(s.votes[k], k, audit.ballots, s.cfg.lifetime) && s.votes[k].expiry <= s.now + s.cfg.lifetime)
    && (forall i :: 0 <= i < |audit.outcomes| ==> Justified(audit.outcomes[i], audit.ballots, s.cfg.lifetime))
  }

  lemma MoreBallots(p: Proposal, ticket: Ticket, ballots: set<Ballot>, more: set<Ballot>, lifetime: nat)
    requires Rests(p, ticket, ballots, lifetime) && ballots <= more
    ensures Rests(p, ticket, more, lifetime)
  {
    forall v, favour | VotedInTime(ballots, ticket, v, favour, p.expiry, lifetime)
      ensures VotedInTime(more, ticket, v, favour, p.expiry, lifetime)
    {
      var at: nat :| Ballot(ticket, v, favour, at, true) in ballots && at < p.expiry <= at + lifetime;
      assert Ballot(ticket, v, favour, at, true) in more;
    }
  }

  lemma CastRests(p: Proposal, ticket: Ticket, who: UserId, favour: bool, now: nat, ballots: set<Ballot>, lifetime: nat)
    requires Rests(p, ticket, ballots, lifetime) && p.expiry <= now + lifetime && Cast(p, who, favour, now).Ok?
    ensures Rests(Cast(p, who, favour, now).value, ticket, ballots + {Ballot(ticket, who, favour, now, true)}, lifetime)
  {
    var more := ballots + {Ballot(ticket, who, favour, now, true)};
    MoreBallots(p, ticket, ballots, more, lifetime);
    assert VotedInTime(more, ticket, who, favour, p.expiry, lifetime) by {
      assert Ballot(ticket, who, favour, now, true) in more;
    }
    hide VotedInTime;
  }

  /** One vote keeps every stored proposal and every decision well founded. */
  lemma VoteKeepsVotes(s: State, audit: Audit, op: Op)
    requires VotesInv(s, audit) && op.Materialize? && Call(s, op).Ok?
    ensures VotesInv(Step(s, op), Observe(s, audit, op))
  {
    hide Resolve, Record, Has, Cast, ProposalFor, Voter, Bridge.Materialize, Rests;
    var ticket := op.ticket;
    MaterializeUnfolds(s, op.origin, ticket, op.favour);
    var who := Voter(s, op.origin).value;
    var stored := ProposalFor(s, ticket).value;
    var p := Cast(stored, who, op.favour, s.now).value;
    CastInitiated(stored, who, op.favour, s.now);
    ResolveEffect(s, ticket, p);
    StoredRests(s, audit, ticket);
    CastRests(stored, ticket, who, op.favour, s.now, audit.ballots, s.cfg.lifetime);
    var t, seen := Step(s, op), Observe(s, audit, op);
    var more := audit.ballots + {Ballot(ticket, who, op.favour, s.now, true)};
    assert seen.ballots == more;
    CastExpiry(stored, who, op.favour, s.now);
    DecidedJustified(s, audit.epochs, ticket, p, more);
    forall k | k in s.votes
      ensures Rests(s.votes[k], k, more, s.cfg.lifetime)
    {
      MoreBallots(s.votes[k], k, audit.ballots, more, s.cfg.lifetime);
    }
    forall i | 0 <= i < |audit.outcomes|
      ensures Justified(audit.outcomes[i], more, s.cfg.lifetime)
    {
      MoreBallots(audit.outcomes[i].proposal, audit.outcomes[i].ticket, audit.ballots, more, s.cfg.lifetime);
    }
  }

  lemma StoredRests(s: State, audit: Audit, ticket: Ticket)
    requires VotesInv(s, audit) && ProposalFor(s, ticket).Ok?
    ensures var p := ProposalFor(s, ticket).value;
            Rests(p, ticket, audit.ballots, s.cfg.lifetime) && p.expiry <= s.now + s.cfg.lifetime
  {
  }

  lemma CastExpiry(p: Proposal, who: UserId, favour: bool, now: nat)
    requires Cast(p, who, favour, now).Ok?
    ensures Cast(p, who, favour, now).value.expiry == p.expiry && now < p.expiry
  {
  }

  lemma DecidedJustified(s: State, epochs: map<ChainId, nat>, ticket: Ticket, p: Proposal, ballots: set<Ballot>)
    requires Rests(p, ticket, ballots, s.cfg.lifetime) && p.status == Initiated && s.now < p.expiry
    ensures var decided := p.TryToComplete(s.threshold, |s.members|);
            && Rests(decided, ticket, ballots, s.cfg.lifetime)
            && decided.expiry == p.expiry
            && (decided.IsComplete() ==> Justified(Decision(s, epochs, ticket, decided), ballots, s.cfg.lifetime))
  {
    hide VotedInTime;
  }

  lemma StepKeepsVotes(s: State, audit: Audit, op: Op)
    requires VotesInv(s, audit)
    ensures VotesInv(Step(s, op), Observe(s, audit, op))
  {
    hide Bridge.Materialize, Rests, Justified;
    match op
    case Materialize(_, _, _) =>
      if Call(s, op).Ok? {
        VoteKeepsVotes(s, audit, op);
      }
    case _ =>
  }

  /** Over any run, every decision rests on distinct, permitted voters who voted before expiry: approvals on at
      least the threshold of them, none of whom opposed. */
  lemma {:induction false} RunKeepsVotes(s: State, audit: Audit, ops: seq<Op>)
    requires VotesInv(s, audit)
    ensures VotesInv(Run(s, ops), ObserveRun(s, audit, ops))
    decreases ops
  {
    hide Step, Observe, VotesInv;
    if ops != [] {
      StepKeepsVotes(s, audit, ops[0]);
      RunKeepsVotes(Step(s, ops[0]), Observe(s, audit, ops[0]), ops[1..]);
    }
  }

  /** What the pallet promises between calls, to whoever has watched it. */
  ghost predicate Consistent(s: State, audit: Audit) {
    RegistryInv(s, audit) && VotesInv(s, audit)
  }

  lemma StepKeepsConsistent(s: State, audit: Audit, op: Op)
    requires Consistent(s, audit)
    ensures Consistent(Step(s, op), Observe(s, audit, op))
  {
    hide Step, Observe, RegistryInv, VotesInv;
    StepKeepsRegistry(s, audit, op);
    StepKeepsVotes(s, audit, op);
  }

  /** Starting from nothing registered and nothing observed. */
  lemma FromGenesis(s: State, ops: seq<Op>)
    requires s.chainNonces == map[] && s.registry == map[] && s.votes == map[]
    ensures RegistryInv(Run(s, ops), ObserveRun(s, Audit(map[], {}, []), ops))
    ensures VotesInv(Run(s, ops), ObserveRun(s, Audit(map[], {}, []), ops))
  {
    hide Run, ObserveRun;
    RunKeepsRegistry(s, Audit(map[], {}, []), ops);
    RunKeepsVotes(s, Audit(map[], {}, []), ops);
  }

  // ---------- money ----------

  /** What circulates of an asset outside the pallet account. */
  function Circulating(s: State, a: Asset): int {
    s.ledger.Issued(a) - s.ledger.Balance(a, BridgePot)
  }

  function ReleasedBy(o: Outcome, a: Asset): nat {
    if o.proposal.status == Approved && o.asset == Some(a) && o.ticket.call.to != BridgePot then o.ticket.call.amount else 0
  }

  /** What the approved transfers of a log release of an asset. */
  function Released(outcomes: seq<Outcome>, a: Asset): nat {
    if outcomes == [] then 0
    else Released(outcomes[..|outcomes| - 1], a) + ReleasedBy(outcomes[|outcomes| - 1], a)
  }

  function TakenBy(s: State, op: Op, a: Asset): nat {
    if op.Teleport? && Call(s, op).Ok? && op.id in s.assetIds && s.assetIds[op.id] == a then op.amount else 0
  }

  /** What the teleports of a run take in of an asset. */
  function Taken(s: State, ops: seq<Op>, a: Asset): nat
    decreases ops
  {
    if ops == [] then 0 else TakenBy(s, ops[0], a) + Taken(Step(s, ops[0]), ops[1..], a)
  }

  /** What a plain payment gives to the pallet account. */
  function GiftBy(s: State, op: Op, a: Asset): nat {
    if op.Transfer? && Call(s, op).Ok? && op.asset == a && op.to == BridgePot then op.amount else 0
  }

  function Gifts(s: State, ops: seq<Op>, a: Asset): nat
    decreases ops
  {
    if ops == [] then 0 else GiftBy(s, ops[0], a) + Gifts(Step(s, ops[0]), ops[1..], a)
  }

  lemma ReleasedAppend(outcomes: seq<Outcome>, o: Outcome, a: Asset)
    ensures Released(outcomes + [o], a) == Released(outcomes, a) + ReleasedBy(o, a)
  {
    assert (outcomes + [o])[..|outcomes|] == outcomes;
  }

  /** A vote that decides nothing or rejects moves no money; one that approves releases the described amount. */
  lemma VoteCirculates(s: State, audit: Audit, op: Op, a: Asset)
    requires op.Materialize? && Call(s, op).Ok?
    ensures Circulating(Step(s, op), a) - Released(Observe(s, audit, op).outcomes, a)
            == Circulating(s, a) - Released(audit.outcomes, a)
  {
    hide Resolve, Record, Has, Cast, ProposalFor, Voter, Bridge.Materialize, Released, Ledger.Mint, Ledger.Transfer;
    var ticket := op.ticket;
    MaterializeUnfolds(s, op.origin, ticket, op.favour);
    var stored, who := ProposalFor(s, ticket).value, Voter(s, op.origin).value;
    CastInitiated(stored, who, op.favour, s.now);
    var p := Cast(stored, who, op.favour, s.now).value;
    ResolveEffect(s, ticket, p);
    ReleasedAppend(audit.outcomes, Decision(s, audit.epochs, ticket, p.TryToComplete(s.threshold, |s.members|)), a);
  }

  lemma TeleportCirculates(s: State, op: Op, a: Asset)
    requires op.Teleport? && Call(s, op).Ok?
    ensures Circulating(Step(s, op), a) == Circulating(s, a) - TakenBy(s, op, a)
  {
  }

  lemma PaymentCirculates(s: State, op: Op, a: Asset)
    requires op.Transfer? && Call(s, op).Ok?
    ensures Circulating(Step(s, op), a) == Circulating(s, a) - GiftBy(s, op, a)
  {
    hide Ledger.Transfer;
  }

  lemma StepCirculates(s: State, audit: Audit, op: Op, a: Asset)
    ensures Circulating(Step(s, op), a) - Released(Observe(s, audit, op).outcomes, a)
            == Circulating(s, a) - Released(audit.outcomes, a) - TakenBy(s, op, a) - GiftBy(s, op, a)
  {
    hide Bridge.Materialize, Bridge.Teleport, Released, Ledger.Transfer;
    if Call(s, op).Ok? && op.Materialize? {
      VoteCirculates(s, audit, op, a);
    } else if Call(s, op).Ok? && op.Teleport? {
      TeleportCirculates(s, op, a);
    } else if Call(s, op).Ok? && op.Transfer? {
      PaymentCirculates(s, op, a);
    }
  }

  /** Over any run, what circulates of an asset outside the bridge is what circulated before, plus what approved
      outcomes released, less what was teleported and what was given to the pallet account: for foreign and
      native tokens alike, and with no nonce counted twice. */
  lemma {:induction false} RunCirculates(s: State, audit: Audit, ops: seq<Op>, a: Asset)
    ensures Circulating(Run(s, ops), a) == Circulating(s, a)
              + Released(ObserveRun(s, audit, ops).outcomes, a) - Released(audit.outcomes, a)
              - Taken(s, ops, a) - Gifts(s, ops, a)
    decreases ops
  {
    hide Step, Observe, Circulating, Released, TakenBy, GiftBy;
    if ops != [] {
      StepCirculates(s, audit, ops[0], a);
      RunCirculates(Step(s, ops[0]), Observe(s, audit, ops[0]), ops[1..], a);
    }
  }

  // ---------- nonces at the edge of the machine integers ----------

  /** The vote that would decide a nonce fails with no effect exactly when looking at the registry traps. */
  lemma DecidingVoteTraps(s: State, ticket: Ticket, p: Proposal)
    requires p.status == Initiated && ticket.chain in s.registry
    requires var d := p.TryToComplete(s.threshold, |s.members|);
             d.status == Rejected || (d.status == Approved && Pay(s.(votes := s.votes[ticket := d]), ticket.call).Ok?)
    ensures Resolve(s, ticket, p).Err? <==> Traps(s.registry[ticket.chain], ticket.nonce)
    ensures Resolve(s, ticket, p).Err? ==> Resolve(s, ticket, p) == Err(Trap)
  {
    hide Sort, Merge, StretchAll, AddIfMissing, Traps;
  }
}
