/** What a liquidity token is worth over a run: its value without fee minting, the protocol fee against the
    growth since the last snapshot, and the supply against the root of the product. */
module AmmValue {
  import opened Base
  import opened Assets
  import opened AmmMath
  import opened AmmLaws
  import opened Amm
  import opened AmmEffects
  import opened AmmRuns

  predicate Touches(s: State, op: Op, key: Pair, effect: Effect)
    requires s.cfg.lpFee > 0
  {
    EffectOf(s, op) == effect && Target(op) == Some(key)
  }

  /** What one step does to the pool of a given pair. */
  lemma StepAtPool(s: State, op: Op, key: Pair)
    requires AmmInv(s) && key in Step(s, op).pools
    ensures AmmInv(Step(s, op)) && Supply(Step(s, op), key) > 0
    ensures Touches(s, op, key, Created) || Touches(s, op, key, Liquidity) || Touches(s, op, key, Trade)
            ==> Performs(s, Step(s, op), key, EffectOf(s, op))
    ensures !(Touches(s, op, key, Created) || Touches(s, op, key, Liquidity) || Touches(s, op, key, Trade))
            ==> && key in s.pools && Step(s, op).pools[key] == s.pools[key]
                && Supply(Step(s, op), key) == Supply(s, key)
    ensures key in s.pools ==> Supply(s, key) > 0 && !Touches(s, op, key, Created)
  {
    hide Step, EffectOf, Backed, Traded, LiquidityMoved, MintProtocolFee, Sqrt, SharesKept;
    StepPerforms(s, op);
    var t := Step(s, op);
    SupplyPositive(t, key);
    if key in s.pools {
      SupplyPositive(s, key);
    }
    if EffectOf(s, op) != Idle {
      OtherPools(s, t, Target(op).value, EffectOf(s, op), key);
    }
  }

  lemma OtherPools(s: State, t: State, key: Pair, effect: Effect, other: Pair)
    requires AmmInv(s) && AmmInv(t) && effect != Idle && Performs(s, t, key, effect) && other in t.pools
    ensures effect == Created ==> key !in s.pools
    ensures other != key ==> other in s.pools && t.pools[other] == s.pools[other] && Supply(t, other) == Supply(s, other)
  {
    hide Backed, MintProtocolFee, Sqrt, SharesKept;
    PerformsGains(s, t, key, effect);
    if other != key {
      assert t.pools[other].lpToken != t.pools[key].lpToken;
    }
  }

  // ---------- value of a share ----------

  /** The call mints no protocol fee to the pool of `key`. */
  predicate NoFeeMinted(s: State, op: Op, key: Pair)
    requires s.cfg.lpFee > 0
  {
    Touches(s, op, key, Liquidity) && key in s.pools && MintProtocolFee(s, s.pools[key]).Ok?
    ==> SettledSupply(s, key) == Supply(s, key)
  }

  lemma TradeKeepsValue(b: nat, q: nat, s: nat, b': nat, q': nat)
    requires b' * q' >= b * q
    ensures ValueKept(b, q, s, b', q', s)
  {
    MulMonotone(s * s, b * q, b' * q');
  }

  ghost predicate ValueGrows(s: State, t: State, key: Pair)
    requires key in s.pools && key in t.pools
  {
    ValueKept(s.pools[key].base, s.pools[key].quote, Supply(s, key), t.pools[key].base, t.pools[key].quote, Supply(t, key))
  }

  lemma StepKeepsValue(s: State, op: Op, key: Pair)
    requires AmmInv(s) && key in s.pools && NoFeeMinted(s, op, key)
    ensures key in Step(s, op).pools && ValueGrows(s, Step(s, op), key)
  {
    hide Step, Target, EffectOf, Backed, ValueKept, MintProtocolFee, SharesKept, Sqrt;
    PoolsPersist(s, op, key);
    StepAtPool(s, op, key);
    var t := Step(s, op);
    var p, p' := s.pools[key], t.pools[key];
    if Touches(s, op, key, Liquidity) {
      SharesKeepValue(p.base, p.quote, Supply(s, key), p'.base, p'.quote, Supply(t, key));
    } else {
      TradeKeepsValue(p.base, p.quote, Supply(s, key), p'.base, p'.quote);
    }
  }

  lemma PoolsPersist(s: State, op: Op, key: Pair)
    requires AmmInv(s) && key in s.pools
    ensures key in Step(s, op).pools && AmmInv(Step(s, op))
  {
    hide Step, EffectOf, AmmInv, MintProtocolFee, SharesKept, Sqrt;
    StepPerforms(s, op);
  }

  predicate NoFeeMintedIn(s: State, ops: seq<Op>, key: Pair)
    requires s.cfg.lpFee > 0
    decreases ops
  {
    ops != [] ==>
      assert Step(s, ops[0]).cfg == s.cfg by { StepKeepsConfig(s, ops[0]); }
      NoFeeMinted(s, ops[0], key) && NoFeeMintedIn(Step(s, ops[0]), ops[1..], key)
  }

  /** Over any run that mints no protocol fee, `base * quote / supply^2` never falls. */
  lemma {:induction false} RunKeepsValue(s: State, ops: seq<Op>, key: Pair)
    requires AmmInv(s) && key in s.pools && NoFeeMintedIn(s, ops, key)
    ensures key in Run(s, ops).pools && ValueGrows(s, Run(s, ops), key)
    decreases ops
  {
    hide Step, ValueKept, NoFeeMinted;
    if ops == [] {
      TradeKeepsValue(s.pools[key].base, s.pools[key].quote, Supply(s, key), s.pools[key].base, s.pools[key].quote);
    } else {
      StepKeepsConfig(s, ops[0]);
      StepKeepsValue(s, ops[0], key);
      PoolsPersist(s, ops[0], key);
      var t := Step(s, ops[0]);
      RunKeepsValue(t, ops[1..], key);
      SupplyPositive(s, key);
      SupplyPositive(t, key);
      var u := Run(t, ops[1..]);
      ValueKeptTransitive(s.pools[key].base, s.pools[key].quote, Supply(s, key),
                          t.pools[key].base, t.pools[key].quote, Supply(t, key),
                          u.pools[key].base, u.pools[key].quote, Supply(u, key));
    }
  }

  // ---------- the snapshot of the protocol fee ----------

  /** Supply and product of a pool when liquidity last moved. */
  datatype Record = Record(supply: nat, product: nat)

  type Audit = map<Pair, Record>

  /** An observer notes supply and product of a pool whenever a call creates it or moves its liquidity. */
  function Observe(s: State, audit: Audit, op: Op): Audit
    requires s.cfg.lpFee > 0
  {
    var t := Step(s, op);
    match Target(op)
    case None => audit
    case Some(key) =>
      if (EffectOf(s, op) == Created || EffectOf(s, op) == Liquidity) && key in t.pools
      then audit[key := Record(Supply(t, key), t.pools[key].K())]
      else audit
  }

  function ObserveRun(s: State, audit: Audit, ops: seq<Op>): Audit
    requires s.cfg.lpFee > 0
    decreases ops
  {
    if ops == [] then audit else
      assert Step(s, ops[0]).cfg == s.cfg by { StepKeepsConfig(s, ops[0]); }
      ObserveRun(Step(s, ops[0]), Observe(s, audit, ops[0]), ops[1..])
  }

  /** The supply is what it was when liquidity last moved, and a nonzero snapshot is the product of that
      moment, which has not fallen since. */
  ghost predicate SnapshotAt(s: State, audit: Audit, key: Pair)
    requires key in s.pools
  {
    && key in audit
    && Supply(s, key) == audit[key].supply
    && audit[key].product <= s.pools[key].K()
    && (s.pools[key].KLast() != 0 ==> s.pools[key].KLast() == audit[key].product)
  }

  ghost predicate Snapshots(s: State, audit: Audit) {
    forall key :: key in s.pools ==> SnapshotAt(s, audit, key)
  }

  lemma StepKeepsSnapshot(s: State, audit: Audit, op: Op, key: Pair)
    requires AmmInv(s) && Snapshots(s, audit) && key in Step(s, op).pools
    ensures SnapshotAt(Step(s, op), Observe(s, audit, op), key)
  {
    hide Step, Target, EffectOf, Backed, MintProtocolFee, SharesKept, Sqrt, Mul;
    StepAtPool(s, op, key);
    ZeroProduct();
    if key in s.pools {
      assert SnapshotAt(s, audit, key);
    }
  }

  lemma ZeroProduct()
    ensures Mul(0, 0) == 0
  {
  }

  lemma {:induction false} RunKeepsSnapshots(s: State, audit: Audit, ops: seq<Op>)
    requires AmmInv(s) && Snapshots(s, audit)
    ensures Snapshots(Run(s, ops), ObserveRun(s, audit, ops))
    decreases ops
  {
    hide Step, Observe, SnapshotAt;
    if ops != [] {
      StepKeepsConfig(s, ops[0]);
      StepPerforms(s, ops[0]);
      forall key | key in Step(s, ops[0]).pools
        ensures SnapshotAt(Step(s, ops[0]), Observe(s, audit, ops[0]), key)
      {
        StepKeepsSnapshot(s, audit, ops[0], key);
      }
      RunKeepsSnapshots(Step(s, ops[0]), Observe(s, audit, ops[0]), ops[1..]);
    }
  }

  /** What settling the protocol fee mints to a pool. */
  lemma FeeMinted(s: State, key: Pair)
    requires key in s.pools && s.protocolFee <= MILLION && MintProtocolFee(s, s.pools[key]).Ok?
    requires SettledSupply(s, key) != Supply(s, key)
    ensures var rootK, rootKLast := Sqrt(s.pools[key].K()), Sqrt(s.pools[key].KLast());
            && s.FeeOn() && rootK > rootKLast
            && FeeForGrowth(rootK, rootKLast, Supply(s, key), s.protocolFee).Ok?
            && SettledSupply(s, key) == Supply(s, key) + FeeForGrowth(rootK, rootKLast, Supply(s, key), s.protocolFee).value
  {
    hide Sqrt, FeeForGrowth;
  }

  /** In every reachable state, what settling the fee mints is bounded by the growth of the root of the
      product: since liquidity last moved if there is a snapshot, since zero if there is none. */
  lemma FeeWithinGrowth(s: State, audit: Audit, ops: seq<Op>, key: Pair)
    requires AmmInv(s) && Snapshots(s, audit)
    requires var t := Run(s, ops); key in t.pools && MintProtocolFee(t, t.pools[key]).Ok?
    requires var t := Run(s, ops); SettledSupply(t, key) != Supply(t, key)
    ensures var t := Run(s, ops);
            var minted := SettledSupply(t, key) - Supply(t, key);
            var seen := ObserveRun(s, audit, ops);
            var rootK := Sqrt(t.pools[key].K());
            && key in seen
            && var rootLast := if t.pools[key].KLast() == 0 then Sqrt(0) else Sqrt(seen[key].product);
            && 0 < t.protocolFee && rootLast < rootK && minted > 0
            && minted * rootK * (MILLION / t.protocolFee) <= (seen[key].supply + minted) * (rootK - rootLast)
  {
    hide Sqrt, Run, ObserveRun, FeeForGrowth, MintProtocolFee, Backed;
    RunKeepsInv(s, ops);
    RunKeepsSnapshots(s, audit, ops);
    var t := Run(s, ops);
    assert SnapshotAt(t, ObserveRun(s, audit, ops), key);
    FeeMinted(t, key);
    FeeBoundedByGrowth(Sqrt(t.pools[key].K()), Sqrt(t.pools[key].KLast()), Supply(t, key), t.protocolFee);
  }

  // ---------- supply against the root of the product ----------

  /** The supply is at most the root of the product, and of the snapshot product if there is one. */
  ghost predicate WithinRoot(s: State, key: Pair)
    requires key in s.pools
  {
    && Supply(s, key) <= Sqrt(s.pools[key].K())
    && (s.pools[key].KLast() != 0 ==> Supply(s, key) <= Sqrt(s.pools[key].KLast()))
  }

  lemma RootReaches(x: nat, n: nat)
    ensures x <= Sqrt(n) <==> x * x <= n
  {
    hide Sqrt;
    SqrtBounds(n);
    if x <= Sqrt(n) {
      Squares(x, Sqrt(n));
    } else {
      Squares(Sqrt(n) + 1, x);
    }
  }

  lemma Squares(x: nat, y: nat)
    requires x <= y
    ensures x * x <= y * y
  {
    MulMonotone(x, x, y);
    MulMonotone(y, x, y);
  }

  /** What the supply becomes when the fee is settled against a zero snapshot. */
  function FromZero(supply: nat, protocolFee: nat): nat {
    if protocolFee > 0 && MILLION / protocolFee > 1 then supply + supply / (MILLION / protocolFee - 1) else supply
  }

  /** The guard of the branch that can push the supply over the root: the fee is on and there is no snapshot. */
  predicate SettlesWithin(s: State, key: Pair)
    requires key in s.pools
  {
    !s.FeeOn() || s.pools[key].KLast() != 0 || FromZero(Supply(s, key), s.protocolFee) <= Sqrt(s.pools[key].K())
  }

  /** Measured from zero, the fee takes its part of the whole supply, whatever the pool has grown. */
  lemma ZeroSnapshotFee(s: State, key: Pair)
    requires AmmInv(s) && key in s.pools && MintProtocolFee(s, s.pools[key]).Ok?
    requires s.FeeOn() && s.pools[key].KLast() == 0
    ensures MILLION / s.protocolFee - 1 > 0
    ensures SettledSupply(s, key) == FromZero(Supply(s, key), s.protocolFee)
    ensures SettledSupply(s, key) > Sqrt(s.pools[key].K()) <==>
              Supply(s, key) + Supply(s, key) / (MILLION / s.protocolFee - 1) > Sqrt(s.pools[key].K())
  {
    hide Sqrt, Backed;
    RootPositive(s, key);
    RootReaches(1, 0);
    Cancel(Sqrt(s.pools[key].K()), Supply(s, key), MILLION / s.protocolFee - 1);
  }

  lemma RootPositive(s: State, key: Pair)
    requires AmmInv(s) && key in s.pools
    ensures Sqrt(s.pools[key].K()) > 0
  {
    hide Sqrt, Backed;
    assert PoolOk(s, key);
    PositiveProduct(s.pools[key].base, s.pools[key].quote);
    RootReaches(1, s.pools[key].K());
  }

  /** Settling the fee leaves the supply within the root exactly under that guard. */
  lemma SettledWithinRoot(s: State, key: Pair)
    requires AmmInv(s) && key in s.pools && MintProtocolFee(s, s.pools[key]).Ok? && WithinRoot(s, key)
    ensures SettledSupply(s, key) <= Sqrt(s.pools[key].K()) <==> SettlesWithin(s, key)
  {
    hide Sqrt, FeeForGrowth, MintProtocolFee, Backed, FromZero;
    if s.FeeOn() && s.pools[key].KLast() == 0 {
      ZeroSnapshotFee(s, key);
    } else if SettledSupply(s, key) != Supply(s, key) {
      FeeMinted(s, key);
      SupplyPositive(s, key);
      FeeKeepsRoot(Sqrt(s.pools[key].K()), Sqrt(s.pools[key].KLast()), Supply(s, key), s.protocolFee);
    }
  }

  lemma SharesWithinRoot(b: nat, q: nat, s: nat, b': nat, q': nat, s': nat)
    requires 0 < s <= Sqrt(Mul(b, q)) && SharesKept(b, q, s, b', q', s')
    ensures s' <= Sqrt(Mul(b', q'))
  {
    hide Sqrt, SharesKept;
    RootReaches(s, Mul(b, q));
    SharesKeepValue(b, q, s, b', q', s');
    SupplyWithinRoot(b, q, s, b', q', s');
    RootReaches(s', Mul(b', q'));
  }

  /** No call settles a fee that pushes the supply over the root. */
  predicate FeeFits(s: State, op: Op)
    requires s.cfg.lpFee > 0
  {
    match Target(op)
    case None => true
    case Some(key) => EffectOf(s, op) == Liquidity && key in s.pools ==> SettlesWithin(s, key)
  }

  lemma RootGrows(x: nat, y: nat)
    requires x <= y
    ensures Sqrt(x) <= Sqrt(y)
  {
    hide Sqrt;
    RootReaches(Sqrt(x), x);
    RootReaches(Sqrt(x), y);
  }

  lemma StepWithinRoot(s: State, op: Op, key: Pair)
    requires AmmInv(s) && key in Step(s, op).pools && FeeFits(s, op)
    requires key in s.pools ==> WithinRoot(s, key)
    ensures WithinRoot(Step(s, op), key)
  {
    hide Step, Target, EffectOf, Backed, MintProtocolFee, SharesKept, Sqrt, Mul, FromZero;
    StepAtPool(s, op, key);
    ZeroProduct();
    var t := Step(s, op);
    if Touches(s, op, key, Liquidity) {
      SettledWithinRoot(s, key);
      SharesWithinRoot(s.pools[key].base, s.pools[key].quote, SettledSupply(s, key),
                       t.pools[key].base, t.pools[key].quote, Supply(t, key));
    } else if Touches(s, op, key, Trade) {
      RootGrows(s.pools[key].K(), t.pools[key].K());
    }
  }

  predicate FeesFit(s: State, ops: seq<Op>)
    requires s.cfg.lpFee > 0
    decreases ops
  {
    ops != [] ==>
      assert Step(s, ops[0]).cfg == s.cfg by { StepKeepsConfig(s, ops[0]); }
      FeeFits(s, ops[0]) && FeesFit(Step(s, ops[0]), ops[1..])
  }

  /** `supply^2 <= base * quote` from creation on, in every run whose settlements against a zero snapshot, if any,
      stay below the root. */
  lemma {:induction false} RunWithinRoot(s: State, ops: seq<Op>)
    requires AmmInv(s) && FeesFit(s, ops)
    requires forall key :: key in s.pools ==> WithinRoot(s, key)
    ensures forall key :: key in Run(s, ops).pools ==> WithinRoot(Run(s, ops), key)
    ensures forall key :: key in Run(s, ops).pools ==>
              Mul(Supply(Run(s, ops), key), Supply(Run(s, ops), key)) <= Run(s, ops).pools[key].K()
    decreases ops
  {
    hide Step, FeeFits, Backed;
    if ops == [] {
      forall key | key in s.pools
        ensures Mul(Supply(s, key), Supply(s, key)) <= s.pools[key].K()
      {
        RootReaches(Supply(s, key), s.pools[key].K());
      }
    } else {
      StepKeepsConfig(s, ops[0]);
      StepPerforms(s, ops[0]);
      forall key | key in Step(s, ops[0]).pools
        ensures WithinRoot(Step(s, ops[0]), key)
      {
        StepWithinRoot(s, ops[0], key);
      }
      RunWithinRoot(Step(s, ops[0]), ops[1..]);
    }
  }

  /** In particular in every run that mints no fee at all. */
  lemma {:induction false} NoMintFits(s: State, ops: seq<Op>)
    requires AmmInv(s) && forall key :: key in s.pools ==> WithinRoot(s, key)
    requires forall key :: NoFeeMintedIn(s, ops, key)
    ensures FeesFit(s, ops)
    decreases ops
  {
    hide Step, Backed, WithinRoot, FeeFits, NoFeeMinted;
    if ops != [] {
      StepKeepsConfig(s, ops[0]);
      StepPerforms(s, ops[0]);
      if Target(ops[0]).Some? {
        assert NoFeeMintedIn(s, ops, Target(ops[0]).value);
      }
      NoMintFitsStep(s, ops[0]);
      forall key | key in Step(s, ops[0]).pools
        ensures WithinRoot(Step(s, ops[0]), key)
      {
        StepWithinRoot(s, ops[0], key);
      }
      forall key
        ensures NoFeeMintedIn(Step(s, ops[0]), ops[1..], key)
      {
        assert NoFeeMintedIn(s, ops, key);
      }
      NoMintFits(Step(s, ops[0]), ops[1..]);
    }
  }

  lemma NoMintFitsStep(s: State, op: Op)
    requires AmmInv(s) && forall key :: key in s.pools ==> WithinRoot(s, key)
    requires Target(op).Some? ==> NoFeeMinted(s, op, Target(op).value)
    ensures FeeFits(s, op)
  {
    hide Step, Call, Backed, MintProtocolFee, SharesKept, Sqrt, SettlesWithin;
    if EffectOf(s, op) == Liquidity {
      StepPerforms(s, op);
      SettledWithinRoot(s, Target(op).value);
    }
  }

  /** Settling never lowers the root per liquidity token below its value at the snapshot:
      `rootKLast / supply <= rootK / (supply + fee)`, cross-multiplied. */
  lemma SettlingKeepsRootPerToken(s: State, audit: Audit, ops: seq<Op>, key: Pair)
    requires AmmInv(s) && Snapshots(s, audit)
    requires var t := Run(s, ops); key in t.pools && MintProtocolFee(t, t.pools[key]).Ok?
    ensures var t := Run(s, ops);
            var seen := ObserveRun(s, audit, ops);
            && key in seen
            && (t.pools[key].KLast() != 0 ==>
                  Mul(SettledSupply(t, key), Sqrt(seen[key].product)) <= Mul(seen[key].supply, Sqrt(t.pools[key].K())))
  {
    hide Sqrt, Run, ObserveRun, FeeForGrowth, MintProtocolFee, Backed;
    RunKeepsInv(s, ops);
    RunKeepsSnapshots(s, audit, ops);
    var t := Run(s, ops);
    assert SnapshotAt(t, ObserveRun(s, audit, ops), key);
    if t.pools[key].KLast() != 0 {
      RootGrows(t.pools[key].KLast(), t.pools[key].K());
      MulMonotone(Supply(t, key), Sqrt(t.pools[key].KLast()), Sqrt(t.pools[key].K()));
      if SettledSupply(t, key) != Supply(t, key) {
        FeeMinted(t, key);
        FeeKeepsRootPerToken(Sqrt(t.pools[key].K()), Sqrt(t.pools[key].KLast()), Supply(t, key), t.protocolFee);
      }
    }
  }

  lemma Cancel(root: nat, supply: nat, scalar: int)
    requires root > 0
    ensures scalar > 0 ==> MulDiv(root - 0, supply, root * scalar + 0) == supply / scalar
    ensures scalar <= 0 ==> root * scalar <= 0
  {
    if scalar > 0 {
      DivBounds(supply, scalar);
      Scaled(root, supply, scalar, supply / scalar);
      QuotientIs(root * supply, root * scalar, supply / scalar);
    }
  }

  lemma Scaled(root: nat, supply: nat, scalar: nat, q: nat)
    requires root > 0 && scalar * q <= supply < scalar * q + scalar
    ensures (root * scalar) * q <= root * supply < (root * scalar) * q + root * scalar
  {
    MulMonotone(root, scalar * q, supply);
    StrictScale(supply, scalar * q + scalar, root);
    assert root * (scalar * q) == (root * scalar) * q;
    assert (scalar * q + scalar) * root == (root * scalar) * q + root * scalar;
  }

  lemma QuotientIs(a: nat, b: nat, q: nat)
    requires b * q <= a < b * q + b
    ensures a / b == q
  {
    FloorGreatest(a, b, q);
    FloorGreatest(a, b, q + 1);
    assert b * (q + 1) == b * q + b;
  }
}
