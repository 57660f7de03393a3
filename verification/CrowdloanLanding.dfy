/** When a notification about a contribution can land, exactly, and a refusal that comes twice. */
module CrowdloanLanding {
  import opened Base
  import opened Sums
  import opened Assets
  import opened Crowdloans
  import opened CrowdloanEffects
  import opened CrowdloanRuns
  import opened CrowdloanClaims
  import opened CrowdloanLedger
  import opened CrowdloanProgress
  import opened CrowdloanRequests
  import opened CrowdloanAmounts

  /** What the pallet promises between calls: totals are the sums of their storages, nobody has more flying than
      is requested, and nothing is about nothing. */
  ghost predicate Orderly(s: State) {
    CrowdInv(s) && NothingStranded(s) && Positive(s)
  }

  lemma OrderlyIsInv(s: State)
    requires Orderly(s)
    ensures CrowdInv(s)
  {
  }

  lemma StepKeepsOrderly(s: State, op: Op)
    requires Orderly(s)
    ensures Orderly(Step(s, op))
  {
    hide Step, CrowdInv, NothingStranded, Positive, Matched;
    StepKeepsInv(s, op);
    StepStrandsNothing(s, op);
    StepKeepsPositive(s, op);
  }

  lemma StartsOrderly(s: State)
    requires s.vaults == map[] && s.entries == map[] && s.requests == map[]
    ensures Orderly(s)
  {
    forall k, w: UserId
      ensures Stranded(s, k, w) <= 0
    {
      assert About(s.requests, k, w) == map[];
    }
  }

  // ---------- landing ----------

  lemma FlyingWithin(s: State, k: VaultKey, w: UserId)
    requires Funded(s) && k in s.vaults
    ensures FlyingOf(s, k, w) <= s.vaults[k].flying <= Pot(s) <= s.ledger.Issued(s.cfg.relay)
  {
    hide HeldSum, Backed, PotSpare, RelayTotal, TriesApart, CTokensAgree;
    EntryWithin(s.entries, EntryKey(s.vaults[k].trie, InFlying, w));
    VaultWithin(s, k);
    assert Ahead(s, k, InFlying) == 0;
  }

  /** A refusal lands exactly when its amount is still flying. */
  lemma RefusalLands(s: State, id: QueryId)
    requires Funded(s) && id in s.requests && s.requests[id].Contribution?
    ensures var Contribution(k, who, amount, _) := s.requests[id];
            Notify(s, id, false).Ok? <==> k in s.vaults && amount <= FlyingOf(s, k, who)
  {
    hide Funded, Update, Ledger.Transfer;
    var Contribution(k, who, amount, _) := s.requests[id];
    if k in s.vaults {
      FlyingWithin(s, k, who);
      var moved := s.ledger.Transfer(s.cfg.relay, CrowdloanPot, User(who), amount);
      if moved.Ok? {
        UpdateSucceeds(s.(ledger := moved.value), k, who, amount, None, false, InFlying);
      }
    }
  }

  /** A confirmation also needs room in the user's contributed entry. */
  lemma ConfirmationLands(s: State, id: QueryId)
    requires Funded(s) && id in s.requests && s.requests[id].Contribution?
    ensures var Contribution(k, who, amount, _) := s.requests[id];
            Notify(s, id, true).Ok? <==>
              && k in s.vaults && amount <= FlyingOf(s, k, who)
              && AmountAt(s.entries, EntryKey(s.vaults[k].trie, InContributed, who)) + amount <= U128_MAX
  {
    hide Funded, Update, Ledger.Burn;
    var Contribution(k, who, amount, _) := s.requests[id];
    if k in s.vaults {
      FlyingWithin(s, k, who);
      VaultWithin(s, k);
      var burnt := s.ledger.Burn(s.cfg.relay, CrowdloanPot, amount);
      if burnt.Ok? {
        var s1 := s.(ledger := burnt.value);
        UpdateSucceeds(s1, k, who, amount, None, false, InFlying);
        if Update(s1, k, who, amount, None, false, InFlying).Ok? {
          UpdateApart(s1, k, who, amount, InFlying, InContributed);
          var taken := Update(s1, k, who, amount, None, false, InFlying).value;
          UpdateSucceeds(taken.0, k, who, amount, Some(taken.1), true, InContributed);
        }
      }
    }
  }

  /** In a vault that holds what its entries claim there is always room. */
  lemma Lands(s: State, id: QueryId, executed: bool)
    requires Funded(s) && Refundable(s) && id in s.requests && s.requests[id].Contribution?
    ensures var Contribution(k, who, amount, _) := s.requests[id];
            Notify(s, id, executed).Ok? <==> k in s.vaults && amount <= FlyingOf(s, k, who)
  {
    hide Funded, Notify, HeldSum;
    RefusalLands(s, id);
    ConfirmationLands(s, id);
    var Contribution(k, who, amount, _) := s.requests[id];
    if k in s.vaults {
      FlyingWithin(s, k, who);
      VaultWithin(s, k);
      EntryWithin(s.entries, EntryKey(s.vaults[k].trie, InContributed, who));
      assert Ahead(s, k, InContributed) >= 0;
    }
  }

  lemma RequestWithin(requests: Requests, id: QueryId)
    requires id in requests && requests[id].Contribution?
    ensures requests[id].amount <= Outstanding(requests, requests[id].key, requests[id].who)
  {
    hide Sum;
    SumAtLeast(About(requests, requests[id].key, requests[id].who), id);
  }

  // ---------- a refusal that comes twice ----------

  lemma RefuseStep(s: State, id: QueryId)
    requires Funded(s) && id in s.requests && s.requests[id].Contribution? && Notify(s, id, false).Ok?
    ensures var t, request := Notify(s, id, false).value, s.requests[id];
            && Funded(t) && t.requests == s.requests && t.vaults.Keys == s.vaults.Keys
            && FlyingOf(t, request.key, request.who) == FlyingOf(s, request.key, request.who) - request.amount
  {
    var Contribution(k, who, amount, _) := s.requests[id];
    FundedBacked(s);
    RequestedVault(s, id, false);
    RefusedFlies(s, id);
    hide Notify, Funded, Balanced, Steady, Backed, Flies;
    NotifyBalanced(s, id, false);
    NotifyBacked(s, id, false);
    SteadyFunded(s, Notify(s, id, false).value, k);
    BalancedKeys(s, Notify(s, id, false).value, k);
  }

  lemma RefusedFlies(s: State, id: QueryId)
    requires CrowdInv(s) && id in s.requests && s.requests[id].Contribution? && Notify(s, id, false).Ok?
    ensures var t, request := Notify(s, id, false).value, s.requests[id];
            FlyingOf(t, request.key, request.who) == FlyingOf(s, request.key, request.who) - request.amount
  {
    hide Update, Ledger.Transfer, FlyingOf;
    var Contribution(k, who, amount, _) := s.requests[id];
    var l := s.ledger.Transfer(s.cfg.relay, CrowdloanPot, User(who), amount).value;
    UpdateFlies(s.(ledger := l), k, who, amount, None, false, InFlying);
    LedgerApart(s, l, Notify(s, id, false).value, k, who, 0 - amount);
  }

  lemma BalancedKeys(s: State, t: State, k: VaultKey)
    requires Balanced(s, t, k)
    ensures t.vaults.Keys == s.vaults.Keys
  {
  }

  /** A refusal keeps its request, so delivered twice it pays the second time out of another contribution: of 5
      and 8, 3 stay flying, and the request for 8 can then be neither confirmed nor refused. */
  lemma RefusedTwice(s: State, k: VaultKey, w: UserId, code: Code)
    requires Funded(s) && k in s.vaults && FlyingOf(s, k, w) == 13
    requires 0 in s.requests && s.requests[0] == Contribution(k, w, 5, code)
    requires 1 in s.requests && s.requests[1] == Contribution(k, w, 8, code)
    ensures var t := Run(s, [Notification(0, false), Notification(0, false)]);
            && FlyingOf(t, k, w) == 3 && 1 in t.requests && t.requests[1] == s.requests[1]
            && Notify(t, 1, true).Err? && Notify(t, 1, false).Err?
  {
    hide Funded, Notify, FlyingOf;
    RefusalLands(s, 0);
    RefuseStep(s, 0);
    var t1 := Notify(s, 0, false).value;
    RefusalLands(t1, 0);
    RefuseStep(t1, 0);
    var t2 := Notify(t1, 0, false).value;
    RefusalLands(t2, 1);
    ConfirmationLands(t2, 1);
    TwoSteps(s, Notification(0, false), Notification(0, false));
  }

  lemma TwoSteps(s: State, a: Op, b: Op)
    ensures Run(s, [a, b]) == Step(Step(s, a), b)
  {
    hide Step;
    var ops := [a, b];
    assert ops[0] == a && ops[1..] == [b] && ops[1..][0] == b && ops[1..][1..] == [];
    assert Run(s, ops) == Run(Step(s, a), ops[1..]);
    assert Run(Step(s, a), ops[1..]) == Run(Step(Step(s, a), b), ops[1..][1..]);
  }
}
