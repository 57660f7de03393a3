/** The bridge: chains, tokens, and relayers voting on transfers that come in from other chains. Each call
    is a function on the whole state and is all or nothing. */
module Bridge {
  import opened Base
  import opened Assets
  import opened Intervals

  type ChainId = nat

  datatype Status = Initiated | Approved | Rejected

  /** What is to be paid out, as the relayers describe it. */
  datatype MaterializeCall = MaterializeCall(token: Asset, to: Account, amount: nat)

  /** Rival descriptions of one nonce are voted on separately. */
  datatype Ticket = Ticket(chain: ChainId, nonce: nat, call: MaterializeCall)

  datatype Proposal = Proposal(votesFor: seq<UserId>, votesAgainst: seq<UserId>, status: Status, expiry: nat) {
    predicate IsComplete() {
      status != Initiated
    }

    predicate IsExpired(now: nat) {
      expiry <= now
    }

    predicate HasVoted(who: UserId) {
      who in votesFor || who in votesAgainst
    }

    /** Approved once enough have voted for it, rejected once too few are left to approve it. */
    function TryToComplete(threshold: nat, total: nat): Proposal {
      if |votesFor| >= threshold then this.(status := Approved)
      else if total >= threshold && |votesAgainst| + threshold > total then this.(status := Rejected)
      else this
    }
  }

  datatype Token = Token(
    id: Asset, external: bool, fee: nat, enable: bool, outCap: nat, outAmount: nat, inCap: nat, inAmount: nat)

  datatype Edit = Fee(fee: nat) | Enable(on: bool) | OutCap(cap: nat) | InCap(cap: nat) | CleanOut | CleanIn

  datatype Origin = Signed(who: UserId) | Root | Nobody

  datatype Config = Config(thisChain: ChainId, lifetime: nat, rootOperator: UserId, percent: nat)

  datatype State = State(
    chainNonces: map<ChainId, nat>,
    registry: map<ChainId, seq<Interval>>,
    tokens: map<Asset, Token>,
    assetIds: map<Asset, Asset>,
    votes: map<Ticket, Proposal>,
    threshold: nat,
    members: set<UserId>,
    now: nat,
    ledger: Ledger,
    cfg: Config) {

    function TokenAt(a: Asset): Token {
      if a in tokens then tokens[a] else Token(0, false, 0, false, 0, 0, 0, 0)
    }

    predicate Permitted(who: UserId) {
      who in members || who == cfg.rootOperator
    }
  }

  // ---------- chains and tokens ----------

  function RegisterChain(s: State, c: ChainId): Result<State> {
    if c == s.cfg.thisChain || c in s.chainNonces then Err(ChainIdAlreadyRegistered)
    else Ok(s.(chainNonces := s.chainNonces[c := 0], registry := s.registry[c := []]))
  }

  function UnregisterChain(s: State, c: ChainId): Result<State> {
    if c !in s.chainNonces then Err(ChainIdNotRegistered)
    else Ok(s.(chainNonces := s.chainNonces - {c}, registry := s.registry - {c}))
  }

  function RegisterToken(s: State, a: Asset, token: Token): Result<State> {
    if a in s.tokens || token.id in s.assetIds then Err(BridgeTokenAlreadyRegistered)
    else Ok(s.(tokens := s.tokens[a := token], assetIds := s.assetIds[token.id := a]))
  }

  function UnregisterToken(s: State, id: Asset): Result<State> {
    if id !in s.assetIds then Err(BridgeTokenNotRegistered)
    else Ok(s.(tokens := s.tokens - {s.assetIds[id]}, assetIds := s.assetIds - {id}))
  }

  function Edited(token: Token, edit: Edit): Token {
    match edit
    case Fee(fee) => token.(fee := fee)
    case Enable(on) => token.(enable := on)
    case OutCap(cap) => token.(outCap := cap)
    case InCap(cap) => token.(inCap := cap)
    case CleanOut => token.(outAmount := 0)
    case CleanIn => token.(inAmount := 0)
  }

  function EditToken(s: State, id: Asset, edit: Edit): Result<State> {
    if id !in s.assetIds then Err(BridgeTokenNotRegistered) else
      var a := s.assetIds[id];
      Ok(s.(tokens := s.tokens[a := Edited(s.TokenAt(a), edit)]))
  }

  /** The new accumulated amount, if it fits and stays under the cap. */
  function UnderCap(accumulated: nat, amount: nat, cap: nat, e: Error): Result<nat> {
    var sum :- ToU128(accumulated + amount, Overflow);
    if sum <= cap then Ok(sum) else Err(e)
  }

  function Teleport(s: State, who: UserId, dest: ChainId, id: Asset, amount: nat): Result<State> {
    if dest !in s.chainNonces then Err(ChainIdNotRegistered)
    else if id !in s.assetIds then Err(BridgeTokenNotRegistered)
    else if amount == 0 then Err(BridgingAmountTooLow) else
      var a := s.assetIds[id];
      var token := s.TokenAt(a);
      if !token.enable then Err(BridgeTokenDisabled) else
        var outAmount :- UnderCap(token.outAmount, amount, token.outCap, BridgeOutCapExceeded);
        var l :- if token.external then
            var burned :- s.ledger.Burn(a, User(who), amount);
            burned.Mint(a, BridgePot, token.fee)
          else s.ledger.Transfer(a, User(who), BridgePot, amount);
        if amount < token.fee then Err(BridgingAmountTooLow)
        else if s.chainNonces[dest] + 1 > U64_MAX then Err(Trap)
        else Ok(s.(tokens := s.tokens[a := token.(outAmount := outAmount)], ledger := l,
                   chainNonces := s.chainNonces[dest := s.chainNonces[dest] + 1]))
  }

  // ---------- voting ----------

  function Voter(s: State, origin: Origin): Result<UserId> {
    match origin
    case Root => Ok(s.cfg.rootOperator)
    case Signed(who) => if who in s.members then Ok(who) else Err(OriginNoPermission)
    case Nobody => Err(OriginNoPermission)
  }

  predicate HasBridged(s: State, c: ChainId, nonce: nat) {
    c in s.registry && Has(s.registry[c], nonce)
  }

  function MaterializeAllowed(s: State, id: Asset, amount: nat): Result<()> {
    if id !in s.assetIds then Err(BridgeTokenNotRegistered) else
      var token := s.TokenAt(s.assetIds[id]);
      if !token.enable then Err(BridgeTokenDisabled) else
        var _ :- UnderCap(token.inAmount, amount, token.inCap, BridgeInCapExceeded);
        if amount == 0 then Err(BridgingAmountTooLow) else Ok(())
  }

  /** The proposal a vote is cast on: the stored one, or a new one with its time to live. */
  function ProposalFor(s: State, ticket: Ticket): Result<Proposal> {
    if ticket in s.votes then Ok(s.votes[ticket])
    else if s.now + s.cfg.lifetime > U32_MAX then Err(Trap)
    else Ok(Proposal([], [], Initiated, s.now + s.cfg.lifetime))
  }

  function Cast(p: Proposal, who: UserId, favour: bool, now: nat): Result<Proposal> {
    if p.IsComplete() then Err(ProposalAlreadyComplete)
    else if p.IsExpired(now) then Err(ProposalExpired)
    else if p.HasVoted(who) then Err(MemberAlreadyVoted)
    else if favour then Ok(p.(votesFor := p.votesFor + [who]))
    else Ok(p.(votesAgainst := p.votesAgainst + [who]))
  }

  function RecordNonce(s: State, c: ChainId, nonce: nat): Result<State> {
    if c !in s.registry then Ok(s) else
      var r :- Record(s.registry[c], nonce);
      Ok(s.(registry := s.registry[c := r]))
  }

  function Pay(s: State, call: MaterializeCall): Result<State> {
    if call.token !in s.assetIds then Err(BridgeTokenNotRegistered) else
      var a := s.assetIds[call.token];
      var token := s.TokenAt(a);
      var inAmount :- UnderCap(token.inAmount, call.amount, token.inCap, BridgeInCapExceeded);
      var l :- if token.external then s.ledger.Mint(a, call.to, call.amount)
               else s.ledger.Transfer(a, BridgePot, call.to, call.amount);
      Ok(s.(tokens := s.tokens[a := token.(inAmount := inAmount)], ledger := l))
  }

  /** Carry out what the votes have decided. */
  function Resolve(s: State, ticket: Ticket, p: Proposal): Result<State> {
    var decided := p.TryToComplete(s.threshold, |s.members|);
    var s1 := s.(votes := s.votes[ticket := decided]);
    match decided.status
    case Approved =>
      var s2 :- Pay(s1, ticket.call);
      RecordNonce(s2, ticket.chain, ticket.nonce)
    case Rejected => RecordNonce(s1, ticket.chain, ticket.nonce)
    case Initiated => Ok(s1)
  }

  function Materialize(s: State, origin: Origin, ticket: Ticket, favour: bool): Result<State> {
    var who :- Voter(s, origin);
    if ticket.chain !in s.chainNonces then Err(ChainIdNotRegistered)
    else if HasBridged(s, ticket.chain, ticket.nonce) then Err(ProposalAlreadyComplete) else
      var _ :- MaterializeAllowed(s, ticket.call.token, ticket.call.amount);
      var stored :- ProposalFor(s, ticket);
      var p :- Cast(stored, who, favour, s.now);
      Resolve(s, ticket, p)
  }

  /** A new block: expired proposals are dropped. */
  function Unexpired(votes: map<Ticket, Proposal>, now: nat): map<Ticket, Proposal> {
    map ticket | ticket in votes && !votes[ticket].IsExpired(now) :: votes[ticket]
  }

  function NewBlock(s: State): State {
    s.(now := s.now + 1, votes := Unexpired(s.votes, s.now + 1))
  }

  /** The percentage of the relayers, rounded up; a percentage above the whole saturates. */
  function ThresholdFor(percent: nat, members: nat): nat {
    CeilDiv(Min(percent, 100) * members, 100)
  }

  /** A change of the relay members sets the threshold to their percentage if that is valid. */
  function ChangeMembers(s: State, members: set<UserId>): State {
    var threshold := ThresholdFor(s.cfg.percent, |members|);
    if 0 < threshold <= |members| then s.(members := members, threshold := threshold) else s.(members := members)
  }
}
