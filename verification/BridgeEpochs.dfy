/** Registering a chain again forgets what was settled: a nonce with two outcomes. */
module BridgeEpochs {
  import opened Base
  import opened Assets
  import opened Intervals
  import opened Bridge
  import opened BridgeRuns

  const CHAIN: ChainId := 1
  const TOKEN: Asset := 7
  const VOTER: UserId := 1

  /** Nonce 5 of the chain, described with this amount. */
  function Claim(amount: nat): Ticket {
    Ticket(CHAIN, 5, MaterializeCall(TOKEN, User(3), amount))
  }

  function Vote(amount: nat): Op {
    Materialize(Signed(VOTER), Claim(amount), true)
  }

  /** A foreign token with room, one relayer, and a chain with nothing settled. */
  ghost predicate Ready(s: State, room: nat) {
    && s.members == {VOTER} && s.threshold == 1 && 0 < s.cfg.lifetime && s.now + s.cfg.lifetime <= U32_MAX
    && CHAIN in s.chainNonces && CHAIN in s.registry && s.registry[CHAIN] == [] && CHAIN != s.cfg.thisChain
    && TOKEN in s.assetIds && s.assetIds[TOKEN] == TOKEN && TOKEN in s.tokens
    && s.tokens[TOKEN].external && s.tokens[TOKEN].enable
    && s.tokens[TOKEN].inAmount + room <= s.tokens[TOKEN].inCap <= U128_MAX
    && s.ledger.Issued(TOKEN) + room <= U128_MAX
  }

  lemma PayWorks(s: State, amount: nat)
    requires TOKEN in s.assetIds && s.assetIds[TOKEN] == TOKEN && TOKEN in s.tokens && s.tokens[TOKEN].external
    requires s.tokens[TOKEN].inAmount + amount <= s.tokens[TOKEN].inCap <= U128_MAX
    requires s.ledger.Issued(TOKEN) + amount <= U128_MAX
    ensures var r := Pay(s, Claim(amount).call);
            && r.Ok?
            && r.value == s.(tokens := r.value.tokens, ledger := r.value.ledger)
            && r.value.tokens == s.tokens[TOKEN := s.tokens[TOKEN].(inAmount := s.tokens[TOKEN].inAmount + amount)]
            && Changed(s.ledger, r.value.ledger, TOKEN, User(3), amount, amount)
  {
    hide Ledger.Mint, Ledger.Transfer;
  }

  lemma RecordWorks(nonce: nat)
    ensures Record([], nonce).Ok?
  {
    hide Sort, Merge, StretchAll, AddIfMissing;
  }

  /** One vote decides: the amount is minted and the outcome is logged. */
  lemma Decides(s: State, audit: Audit, amount: nat)
    requires Ready(s, amount) && amount > 0 && Claim(amount) !in s.votes
    ensures var t, seen := Step(s, Vote(amount)), Observe(s, audit, Vote(amount));
            && Call(s, Vote(amount)).Ok?
            && t.chainNonces == s.chainNonces && t.votes.Keys == s.votes.Keys + {Claim(amount)}
            && t == s.(tokens := t.tokens, ledger := t.ledger, votes := t.votes, registry := t.registry)
            && t.tokens == s.tokens[TOKEN := s.tokens[TOKEN].(inAmount := s.tokens[TOKEN].inAmount + amount)]
            && Changed(s.ledger, t.ledger, TOKEN, User(3), amount, amount)
            && seen.epochs == audit.epochs
            && |seen.outcomes| == |audit.outcomes| + 1 && audit.outcomes == seen.outcomes[..|audit.outcomes|]
            && var o := seen.outcomes[|audit.outcomes|];
               o.ticket == Claim(amount) && o.proposal.status == Approved && o.epoch == EpochOf(audit.epochs, CHAIN)
  {
    hide Record, Ledger.Mint, Pay;
    RecordWorks(5);
    var ticket := Claim(amount);
    var p := Proposal([VOTER], [], Initiated, s.now + s.cfg.lifetime);
    assert Cast(Proposal([], [], Initiated, s.now + s.cfg.lifetime), VOTER, true, s.now) == Ok(p) by {
      assert [] + [VOTER] == [VOTER];
    }
    assert !HasBridged(s, CHAIN, 5);
    var decided := p.TryToComplete(s.threshold, |s.members|);
    assert decided.status == Approved;
    var s1 := s.(votes := s.votes[ticket := decided]);
    PayWorks(s1, amount);
    assert Resolve(s, ticket, p).Ok?;
    assert Bridge.Materialize(s, Signed(VOTER), ticket, true) == Resolve(s, ticket, p);
  }

  function Setup(): seq<Op> {
    [RegisterChain(CHAIN), RegisterToken(TOKEN, Token(TOKEN, true, 0, true, 100, 0, 100, 0)), ChangeMembers({VOTER})]
  }

  lemma Prepared(s: State)
    requires s.chainNonces == map[] && s.registry == map[] && s.tokens == map[] && s.assetIds == map[]
    requires s.cfg == Config(0, 10, 0, 50) && s.now == 0 && s.ledger.Issued(TOKEN) == 0
    ensures var t := Step(Step(Step(s, Setup()[0]), Setup()[1]), Setup()[2]);
            Ready(t, 100) && t.votes == s.votes && t.ledger == s.ledger
  {
    assert |{VOTER}| == 1 && ThresholdFor(50, 1) == 1;
  }

  lemma Reopened(s: State, audit: Audit, room: nat, paid: nat)
    requires Ready(s, room) && paid <= room && audit.epochs == map[]
    requires var t := Step(s, Vote(paid));
             && t == s.(tokens := t.tokens, ledger := t.ledger, votes := t.votes, registry := t.registry)
             && t.chainNonces == s.chainNonces
             && t.tokens == s.tokens[TOKEN := s.tokens[TOKEN].(inAmount := s.tokens[TOKEN].inAmount + paid)]
             && Changed(s.ledger, t.ledger, TOKEN, User(3), paid, paid)
    ensures var t := Step(s, Vote(paid));
            var v := Step(Step(t, UnregisterChain(CHAIN)), RegisterChain(CHAIN));
            && Ready(v, room - paid) && v.votes == t.votes && v.ledger == t.ledger
            && var once := Observe(t, audit, UnregisterChain(CHAIN));
               Observe(Step(t, UnregisterChain(CHAIN)), once, RegisterChain(CHAIN)) == audit.(epochs := map[CHAIN := 1])
  {
    hide Bridge.Materialize;
    assert map[][CHAIN := 1] == map[CHAIN := 1];
  }

  function TwiceOps(): seq<Op> {
    Setup() + Rest()
  }

  lemma Unrolled(s: State, audit: Audit, op: Op, ops: seq<Op>)
    ensures Run(s, [op] + ops) == Run(Step(s, op), ops)
    ensures ObserveRun(s, audit, [op] + ops) == ObserveRun(Step(s, op), Observe(s, audit, op), ops)
  {
    hide Step, Observe;
    assert ([op] + ops)[0] == op && ([op] + ops)[1..] == ops;
  }

  function Rest(): seq<Op> {
    [Vote(4), UnregisterChain(CHAIN), RegisterChain(CHAIN), Vote(5)]
  }

  /** The nonce has been settled for 4 under the first registration and for 5 under the second. */
  ghost predicate Twice(outcomes: seq<Outcome>) {
    && |outcomes| == 2
    && outcomes[0].ticket == Claim(4) && outcomes[1].ticket == Claim(5)
    && outcomes[0].proposal.status == Approved && outcomes[1].proposal.status == Approved
    && outcomes[0].epoch == 0 && outcomes[1].epoch == 1
  }

  /** From an empty bridge: nonce 5 is settled for 4, the chain is unregistered and registered again, and the same
      nonce is settled for 5. Both amounts are paid, under two registrations. */
  lemma SettledTwice() returns (s: State)
    ensures s.chainNonces == map[] && s.registry == map[] && s.votes == map[] && s.tokens == map[]
    ensures Twice(ObserveRun(s, Audit(map[], {}, []), TwiceOps()).outcomes)
    ensures Run(s, TwiceOps()).ledger.Balance(TOKEN, User(3)) == 9
  {
    var l := EmptyLedger();
    var none := Audit(map[], {}, []);
    s := State(map[], map[], map[], map[], map[], 0, {}, 0, l, Config(0, 10, 0, 50));
    var s1 := Step(s, Setup()[0]);
    var s2 := Step(s1, Setup()[1]);
    var s3 := Step(s2, Setup()[2]);
    Prepared(s);
    assert Observe(s, none, Setup()[0]) == none && Observe(s1, none, Setup()[1]) == none;
    assert Observe(s2, none, Setup()[2]) == none;
    hide Step, Observe, Ready, Twice;
    assert TwiceOps() == [Setup()[0]] + ([Setup()[1]] + ([Setup()[2]] + Rest()));
    Unrolled(s, none, Setup()[0], [Setup()[1]] + ([Setup()[2]] + Rest()));
    Unrolled(s1, none, Setup()[1], [Setup()[2]] + Rest());
    Unrolled(s2, none, Setup()[2], Rest());
    VotesTwice(s3);
  }

  lemma RestUnrolls(s: State, audit: Audit)
    ensures var t, a1 := Step(s, Vote(4)), Observe(s, audit, Vote(4));
            var u, a2 := Step(t, UnregisterChain(CHAIN)), Observe(t, a1, UnregisterChain(CHAIN));
            var v, a3 := Step(u, RegisterChain(CHAIN)), Observe(u, a2, RegisterChain(CHAIN));
            Run(s, Rest()) == Step(v, Vote(5)) && ObserveRun(s, audit, Rest()) == Observe(v, a3, Vote(5))
  {
    hide Step, Observe, Vote;
    var t, a1 := Step(s, Vote(4)), Observe(s, audit, Vote(4));
    var u, a2 := Step(t, UnregisterChain(CHAIN)), Observe(t, a1, UnregisterChain(CHAIN));
    var v, a3 := Step(u, RegisterChain(CHAIN)), Observe(u, a2, RegisterChain(CHAIN));
    assert Rest() == [Vote(4)] + ([UnregisterChain(CHAIN)] + ([RegisterChain(CHAIN)] + ([Vote(5)] + [])));
    Unrolled(s, audit, Vote(4), [UnregisterChain(CHAIN)] + ([RegisterChain(CHAIN)] + ([Vote(5)] + [])));
    Unrolled(t, a1, UnregisterChain(CHAIN), [RegisterChain(CHAIN)] + ([Vote(5)] + []));
    Unrolled(u, a2, RegisterChain(CHAIN), [Vote(5)] + []);
    Unrolled(v, a3, Vote(5), []);
  }

  lemma VotesTwice(s: State)
    requires Ready(s, 100) && s.votes == map[] && s.ledger.Balance(TOKEN, User(3)) == 0
    ensures Twice(ObserveRun(s, Audit(map[], {}, []), Rest()).outcomes)
    ensures Run(s, Rest()).ledger.Balance(TOKEN, User(3)) == 9
  {
    hide Step, Observe, Ready, Call, Run, ObserveRun, Rest, Vote;
    var none := Audit(map[], {}, []);
    RestUnrolls(s, none);
    LessRoom(s, 100, 4);
    Decides(s, none, 4);
    var t, a1 := Step(s, Vote(4)), Observe(s, none, Vote(4));
    Reopened(s, a1, 100, 4);
    var u, a2 := Step(t, UnregisterChain(CHAIN)), Observe(t, a1, UnregisterChain(CHAIN));
    var v, a3 := Step(u, RegisterChain(CHAIN)), Observe(u, a2, RegisterChain(CHAIN));
    LessRoom(v, 96, 5);
    Decides(v, a3, 5);
  }

  lemma LessRoom(s: State, room: nat, less: nat)
    requires Ready(s, room) && less <= room
    ensures Ready(s, less)
  {
  }
}
