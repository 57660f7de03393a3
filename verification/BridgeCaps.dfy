/** The caps of the bridge over runs: what has come in and gone out of an asset since its accumulated amounts were
    last cleaned. */
module BridgeCaps {
  import opened Base
  import opened Assets
  import opened Intervals
  import opened Bridge
  import opened BridgeRuns

  /** Every id leads to an asset with a token. */
  ghost predicate TokensStored(s: State) {
    forall id :: id in s.assetIds ==> s.assetIds[id] in s.tokens
  }

  ghost predicate OneIdEach(s: State) {
    forall i, j :: i in s.assetIds && j in s.assetIds && s.assetIds[i] == s.assetIds[j] ==> i == j
  }

  ghost predicate TokenInv(s: State) {
    TokensStored(s) && OneIdEach(s)
  }

  /** The call neither registers, removes nor cleans the token of an asset. */
  predicate Leaves(s: State, op: Op, a: Asset) {
    match op
    case RegisterToken(x, _) => x != a
    case UnregisterToken(id) => id in s.assetIds ==> s.assetIds[id] != a
    case EditToken(id, edit) => edit.CleanIn? || edit.CleanOut? ==> (id in s.assetIds ==> s.assetIds[id] != a)
    case _ => true
  }

  /** What a vote pays in of an asset. */
  function ApprovedBy(s: State, op: Op, a: Asset): nat {
    if op.Materialize? && Call(s, op).Ok? && op.ticket in Step(s, op).votes
       && Step(s, op).votes[op.ticket].status == Approved
       && op.ticket.call.token in s.assetIds && s.assetIds[op.ticket.call.token] == a
    then op.ticket.call.amount else 0
  }

  /** How one step moves the accumulated amounts of an asset. */
  ghost predicate Accumulates(s: State, t: State, a: Asset, paid: nat, taken: nat)
    requires a in s.tokens && a in t.tokens
  {
    && t.tokens[a].inAmount == s.tokens[a].inAmount + paid
    && t.tokens[a].outAmount == s.tokens[a].outAmount + taken
    && (paid > 0 ==> t.tokens[a].inAmount <= t.tokens[a].inCap)
    && (taken > 0 ==> t.tokens[a].outAmount <= t.tokens[a].outCap)
  }

  lemma PayAccumulates(s: State, call: MaterializeCall, a: Asset)
    requires Pay(s, call).Ok? && TokenInv(s) && a in s.tokens
    ensures var t := Pay(s, call).value;
            && t.assetIds == s.assetIds && t.tokens.Keys == s.tokens.Keys && TokenInv(t)
            && call.token in s.assetIds
            && Accumulates(s, t, a, if s.assetIds[call.token] == a then call.amount else 0, 0)
            && t.votes == s.votes
  {
    hide Ledger.Mint, Ledger.Transfer;
  }

  lemma RecordLeavesTokens(s: State, c: ChainId, nonce: nat)
    requires RecordNonce(s, c, nonce).Ok?
    ensures var t := RecordNonce(s, c, nonce).value;
            t.tokens == s.tokens && t.assetIds == s.assetIds && t.votes == s.votes
  {
    hide Record;
  }

  lemma VoteAccumulates(s: State, op: Op, a: Asset)
    requires TokenInv(s) && a in s.tokens && op.Materialize? && Call(s, op).Ok?
    ensures TokenInv(Step(s, op)) && a in Step(s, op).tokens
    ensures Accumulates(s, Step(s, op), a, ApprovedBy(s, op, a), 0)
  {
    hide RecordNonce, Pay, Cast, ProposalFor, Voter, Bridge.Materialize, Has, TokensStored, OneIdEach, Accumulates;
    var ticket := op.ticket;
    MaterializeUnfolds(s, op.origin, ticket, op.favour);
    var stored, who := ProposalFor(s, ticket).value, Voter(s, op.origin).value;
    CastInitiated(stored, who, op.favour, s.now);
    var p := Cast(stored, who, op.favour, s.now).value;
    var decided := p.TryToComplete(s.threshold, |s.members|);
    var s1 := s.(votes := s.votes[ticket := decided]);
    VotesApart(s, s1, a);
    if decided.status == Approved {
      PayAccumulates(s1, ticket.call, a);
      RecordLeavesTokens(Pay(s1, ticket.call).value, ticket.chain, ticket.nonce);
      SameTokens(s, s1, Pay(s1, ticket.call).value, Step(s, op), a, ApprovedBy(s, op, a));
    } else {
      if decided.status == Rejected {
        RecordLeavesTokens(s1, ticket.chain, ticket.nonce);
      }
      SameTokens(s, s1, s1, Step(s, op), a, 0);
    }
  }

  lemma VotesApart(s: State, t: State, a: Asset)
    requires TokenInv(s) && a in s.tokens && t.tokens == s.tokens && t.assetIds == s.assetIds
    ensures TokenInv(t) && Accumulates(t, t, a, 0, 0)
  {
  }

  lemma SameTokens(s: State, s1: State, t1: State, t: State, a: Asset, paid: nat)
    requires s1.tokens == s.tokens && t.tokens == t1.tokens && t.assetIds == t1.assetIds && TokenInv(t1)
    requires a in s1.tokens && a in t1.tokens && Accumulates(s1, t1, a, paid, 0)
    ensures TokenInv(t) && Accumulates(s, t, a, paid, 0)
  {
  }

  lemma TokenAccumulates(s: State, op: Op, a: Asset)
    requires TokenInv(s) && a in s.tokens && Leaves(s, op, a)
    requires op.RegisterToken? || op.UnregisterToken? || op.EditToken?
    ensures TokenInv(Step(s, op)) && a in Step(s, op).tokens && Accumulates(s, Step(s, op), a, 0, 0)
  {
  }

  lemma TeleportAccumulates(s: State, op: Op, a: Asset)
    requires TokenInv(s) && a in s.tokens && op.Teleport?
    ensures TokenInv(Step(s, op)) && a in Step(s, op).tokens && Accumulates(s, Step(s, op), a, 0, TakenBy(s, op, a))
  {
    hide Ledger.Mint, Ledger.Transfer, Ledger.Burn;
  }

  lemma SameTokensStep(s: State, op: Op)
    requires op.RegisterChain? || op.UnregisterChain? || op.NewBlock? || op.ChangeMembers? || op.Transfer?
    ensures Step(s, op).tokens == s.tokens && Step(s, op).assetIds == s.assetIds
  {
    hide Ledger.Transfer;
  }

  lemma OtherAccumulates(s: State, op: Op, a: Asset)
    requires TokenInv(s) && a in s.tokens && !op.Materialize? && Leaves(s, op, a)
    ensures TokenInv(Step(s, op)) && a in Step(s, op).tokens
    ensures Accumulates(s, Step(s, op), a, 0, TakenBy(s, op, a))
  {
    hide Step, Call;
    if op.Teleport? {
      TeleportAccumulates(s, op, a);
    } else if op.RegisterToken? || op.UnregisterToken? || op.EditToken? {
      TokenAccumulates(s, op, a);
    } else {
      SameTokensStep(s, op);
    }
  }

  lemma StepAccumulates(s: State, op: Op, a: Asset)
    requires TokenInv(s) && a in s.tokens && Leaves(s, op, a)
    ensures TokenInv(Step(s, op)) && a in Step(s, op).tokens
    ensures Accumulates(s, Step(s, op), a, ApprovedBy(s, op, a), TakenBy(s, op, a))
  {
    hide Call, TokenInv, Accumulates;
    if op.Materialize? && Call(s, op).Ok? {
      VoteAccumulates(s, op, a);
    } else if op.Materialize? {
      VotesApart(s, s, a);
    } else {
      OtherAccumulates(s, op, a);
    }
  }

  predicate LeavesAll(s: State, ops: seq<Op>, a: Asset)
    decreases ops
  {
    ops != [] ==> Leaves(s, ops[0], a) && LeavesAll(Step(s, ops[0]), ops[1..], a)
  }

  function PaidIn(s: State, ops: seq<Op>, a: Asset): nat
    decreases ops
  {
    if ops == [] then 0 else ApprovedBy(s, ops[0], a) + PaidIn(Step(s, ops[0]), ops[1..], a)
  }

  /** The call does not set a cap of the asset below what has accumulated of it. */
  predicate CapReaches(s: State, op: Op, a: Asset) {
    op.EditToken? && op.id in s.assetIds && s.assetIds[op.id] == a ==>
      && (op.edit.InCap? ==> s.TokenAt(a).inAmount <= op.edit.cap)
      && (op.edit.OutCap? ==> s.TokenAt(a).outAmount <= op.edit.cap)
  }

  predicate CapsReach(s: State, ops: seq<Op>, a: Asset)
    decreases ops
  {
    ops != [] ==> CapReaches(s, ops[0], a) && CapsReach(Step(s, ops[0]), ops[1..], a)
  }

  ghost predicate WithinCaps(s: State, a: Asset)
    requires a in s.tokens
  {
    s.tokens[a].inAmount <= s.tokens[a].inCap && s.tokens[a].outAmount <= s.tokens[a].outCap
  }

  /** Until it is cleaned, the accumulated amount of an asset is what it was plus what approved votes paid in, and
      likewise what teleports took out. */
  lemma {:induction false} RunAccumulates(s: State, ops: seq<Op>, a: Asset)
    requires TokenInv(s) && a in s.tokens && LeavesAll(s, ops, a)
    ensures var t := Run(s, ops);
            && TokenInv(t) && a in t.tokens
            && t.tokens[a].inAmount == s.tokens[a].inAmount + PaidIn(s, ops, a)
            && t.tokens[a].outAmount == s.tokens[a].outAmount + Taken(s, ops, a)
    decreases ops
  {
    hide Step, TokenInv, ApprovedBy, TakenBy, Leaves;
    if ops != [] {
      StepAccumulates(s, ops[0], a);
      RunAccumulates(Step(s, ops[0]), ops[1..], a);
    }
  }

  lemma CapKept(s: State, op: Op, a: Asset)
    requires TokenInv(s) && a in s.tokens && Leaves(s, op, a) && WithinCaps(s, a) && CapReaches(s, op, a)
    ensures a in Step(s, op).tokens && WithinCaps(Step(s, op), a)
  {
    hide Bridge.Materialize, Bridge.Teleport;
    if op.Materialize? || op.Teleport? {
      StepAccumulates(s, op, a);
      SameCaps(s, op, a);
    }
  }

  lemma SameCaps(s: State, op: Op, a: Asset)
    requires TokenInv(s) && a in s.tokens && (op.Materialize? || op.Teleport?) && a in Step(s, op).tokens
    ensures Step(s, op).tokens[a].inCap == s.tokens[a].inCap && Step(s, op).tokens[a].outCap == s.tokens[a].outCap
  {
    hide Record, Ledger.Mint, Ledger.Transfer, Ledger.Burn, Has, MaterializeAllowed, Voter, ProposalFor, Cast;
  }

  /** A step breaks the bound exactly when it sets a cap of the asset below what has accumulated. */
  lemma LoweringTheCap(s: State, op: Op, a: Asset)
    requires TokenInv(s) && a in s.tokens && Leaves(s, op, a) && WithinCaps(s, a)
    ensures a in Step(s, op).tokens && (WithinCaps(Step(s, op), a) <==> CapReaches(s, op, a))
  {
    if op.EditToken? {
    } else {
      hide Step;
      CapKept(s, op, a);
    }
  }

  /** So over any run that sets no cap of an asset below its accumulated amount, what came in since the last clean
      stays within the cap for it, and likewise what went out. */
  lemma {:induction false} RunWithinCaps(s: State, ops: seq<Op>, a: Asset)
    requires TokenInv(s) && a in s.tokens && LeavesAll(s, ops, a) && CapsReach(s, ops, a) && WithinCaps(s, a)
    ensures var t := Run(s, ops);
            && a in t.tokens
            && s.tokens[a].inAmount + PaidIn(s, ops, a) <= t.tokens[a].inCap
            && s.tokens[a].outAmount + Taken(s, ops, a) <= t.tokens[a].outCap
    decreases ops
  {
    hide Step, TokenInv, ApprovedBy, TakenBy, Leaves, CapReaches;
    if ops != [] {
      CapKept(s, ops[0], a);
      StepAccumulates(s, ops[0], a);
      RunWithinCaps(Step(s, ops[0]), ops[1..], a);
    }
  }

  lemma VoteKeepsIds(s: State, op: Op)
    requires TokenInv(s) && op.Materialize?
    ensures Step(s, op).assetIds == s.assetIds && Step(s, op).tokens.Keys == s.tokens.Keys
  {
    hide Bridge.Materialize, Resolve, Has, Voter, ProposalFor, Cast, TokenInv;
    if Call(s, op).Ok? {
      MaterializeUnfolds(s, op.origin, op.ticket, op.favour);
      var p := Cast(ProposalFor(s, op.ticket).value, Voter(s, op.origin).value, op.favour, s.now).value;
      ResolveKeepsIds(s, op.ticket, p);
    }
  }

  lemma ResolveKeepsIds(s: State, ticket: Ticket, p: Proposal)
    requires TokenInv(s) && Resolve(s, ticket, p).Ok?
    ensures var t := Resolve(s, ticket, p).value;
            t.assetIds == s.assetIds && t.tokens.Keys == s.tokens.Keys
  {
    hide Record, Ledger.Mint, Ledger.Transfer;
  }

  /** In every reachable state each registered id has a token of its own. */
  lemma {:induction false} RunKeepsTokens(s: State, ops: seq<Op>)
    requires TokenInv(s)
    ensures TokenInv(Run(s, ops))
    decreases ops
  {
    hide Step;
    if ops != [] {
      StepKeepsTokens(s, ops[0]);
      RunKeepsTokens(Step(s, ops[0]), ops[1..]);
    }
  }

  lemma StepKeepsTokens(s: State, op: Op)
    requires TokenInv(s)
    ensures TokenInv(Step(s, op))
  {
    hide Bridge.Materialize, Ledger.Mint, Ledger.Transfer, Ledger.Burn;
    if op.Materialize? {
      VoteKeepsIds(s, op);
    }
  }
}
