/** What holds of the exchange after any run of its calls: the invariant of every pool, custody of the
    reserves in the one pallet account, the snapshot of the protocol fee, and the value of a share. */
module AmmRuns {
  import opened Base
  import opened Sums
  import opened Assets
  import opened AmmMath
  import opened AmmLaws
  import opened Amm
  import opened AmmEffects

  datatype Op =
    | CreatePool(a: Asset, b: Asset, amountA: nat, amountB: nat, receiver: UserId, lpToken: Asset)
    | AddLiquidity(a: Asset, b: Asset, who: UserId, desiredA: nat, desiredB: nat, minimumA: nat, minimumB: nat)
    | RemoveLiquidity(a: Asset, b: Asset, who: UserId, liquidity: nat)
    | Swap(a: Asset, b: Asset, who: UserId, amountIn: nat)
    | UpdateProtocolFee(fee: nat)
    | UpdateProtocolFeeReceiver(account: Account)
    | Transfer(asset: Asset, from: UserId, to: Account, amount: nat)

  function Call(s: State, op: Op): Result<State>
    requires s.cfg.lpFee > 0
  {
    match op
    case CreatePool(a, b, x, y, receiver, lpToken) => Amm.CreatePool(s, a, b, x, y, receiver, lpToken)
    case AddLiquidity(a, b, who, x, y, mx, my) => Amm.AddLiquidity(s, who, a, b, x, y, mx, my)
    case RemoveLiquidity(a, b, who, liquidity) => Amm.RemoveLiquidity(s, who, a, b, liquidity)
    case Swap(a, b, who, amountIn) =>
      var swapped :- Amm.Swap(s, who, a, b, amountIn);
      Ok(swapped.0)
    case UpdateProtocolFee(fee) => if fee <= MILLION then Ok(s.(protocolFee := fee)) else Err(BadOrigin)
    case UpdateProtocolFeeReceiver(account) => Ok(s.(feeReceiver := Some(account)))
    case Transfer(asset, from, to, amount) =>
      var l :- s.ledger.Transfer(asset, User(from), to, amount);
      Ok(s.(ledger := l))
  }

  function Step(s: State, op: Op): State
    requires s.cfg.lpFee > 0
  {
    if Call(s, op).Ok? then Call(s, op).value else s
  }

  /** The pair whose pool a call works on. */
  function Target(op: Op): Option<Pair> {
    match op
    case UpdateProtocolFee(_) => None
    case UpdateProtocolFeeReceiver(_) => None
    case Transfer(_, _, _, _) => None
    case _ => if SortAssets(op.a, op.b).Ok? then Some(SortAssets(op.a, op.b).value.1) else None
  }

  function Run(s: State, ops: seq<Op>): State
    requires s.cfg.lpFee > 0
    decreases ops
  {
    if ops == [] then s else
      assert Step(s, ops[0]).cfg == s.cfg by { StepKeepsConfig(s, ops[0]); }
      Run(Step(s, ops[0]), ops[1..])
  }

  lemma StepKeepsConfig(s: State, op: Op)
    requires s.cfg.lpFee > 0
    ensures Step(s, op).cfg == s.cfg
  {
    hide DoAddLiquidity, DoRemoveLiquidity, MintProtocolFee, GetAmountOut, Ledger.Transfer;
  }

  // ---------- one step ----------

  /** Money may move between accounts, also into the pallet's, but none is made and none leaves the pallet's. */
  ghost predicate OnlyPaid(l: Ledger, n: Ledger) {
    && n.issuance == l.issuance
    && (forall a: Asset :: n.Balance(a, AmmPot) >= l.Balance(a, AmmPot))
    && LockKept(l, n)
  }

  /** A step either leaves the pools alone, or works on the pool of its target: it creates it, moves
      liquidity after settling the fee, or trades. */
  datatype Effect = Idle | Created | Liquidity | Trade

  function EffectOf(s: State, op: Op): Effect
    requires s.cfg.lpFee > 0
  {
    if Call(s, op).Err? then Idle else
      match op
      case CreatePool(_, _, _, _, _, _) => Created
      case AddLiquidity(_, _, _, _, _, _, _) => Liquidity
      case RemoveLiquidity(_, _, _, _) => Liquidity
      case Swap(_, _, _, _) => Trade
      case _ => Idle
  }

  ghost predicate Performs(s: State, t: State, key: Pair, effect: Effect)
    requires s.cfg.lpFee > 0
  {
    match effect
    case Idle => t.pools == s.pools && t.cfg == s.cfg && OnlyPaid(s.ledger, t.ledger)
    case Created =>
      && key !in s.pools && Replaces(s, t, key)
      && t.pools[key] == Snapshot(s.FeeOn(), Pool(t.pools[key].base, t.pools[key].quote, 0, 0, t.pools[key].lpToken))
      && Supply(t, key) == Sqrt(t.pools[key].K())
      && PotGained(s.ledger, t.ledger, key, t.pools[key].base, t.pools[key].quote)
    case Liquidity =>
      && key in s.pools && MintProtocolFee(s, s.pools[key]).Ok? && key in t.pools
      && LiquidityMoved(s, t, key, t.pools[key].base, t.pools[key].quote)
    case Trade => key in s.pools && Traded(s, t, key)
  }

  lemma CreatePerforms(s: State, op: Op)
    requires AmmInv(s) && op.CreatePool? && Call(s, op).Ok?
    ensures Target(op).Some? && AmmInv(Step(s, op)) && Performs(s, Step(s, op), Target(op).value, Created)
  {
    hide CreateAt, Sqrt, Backed;
    var (inverted, key) := SortAssets(op.a, op.b).value;
    if inverted {
      CreateEffect(s, key, op.amountB, op.amountA, op.receiver, op.lpToken);
    } else {
      CreateEffect(s, key, op.amountA, op.amountB, op.receiver, op.lpToken);
    }
  }

  lemma LiquidityPerforms(s: State, op: Op)
    requires AmmInv(s) && (op.AddLiquidity? || op.RemoveLiquidity?) && Call(s, op).Ok?
    ensures Target(op).Some? && AmmInv(Step(s, op)) && Performs(s, Step(s, op), Target(op).value, Liquidity)
  {
    hide AddIdeal, RemoveAt, LiquidityMoved, MintProtocolFee, GetIdealAmounts, Backed;
    var (inverted, key) := SortAssets(op.a, op.b).value;
    match op
    case AddLiquidity(a, b, who, x, y, mx, my) =>
      var ideal := GetIdealAmounts(s.pools[key], if inverted then y else x, if inverted then x else y).value;
      AddEffect(s, who, key, ideal.0, ideal.1);
      LiquidityReserves(s, Step(s, op), key, s.pools[key].base + ideal.0, s.pools[key].quote + ideal.1);
    case RemoveLiquidity(a, b, who, liquidity) =>
      RemoveInPool(s, who, key, liquidity);
      RemoveEffect(s, who, key, liquidity);
  }

  lemma RemoveInPool(s: State, who: UserId, key: Pair, liquidity: nat)
    requires RemoveAt(s, who, key, liquidity).Ok?
    ensures key in s.pools
  {
    hide MintProtocolFee, DoRemoveLiquidity;
  }

  lemma LiquidityReserves(s: State, t: State, key: Pair, base: nat, quote: nat)
    requires key in s.pools && MintProtocolFee(s, s.pools[key]).Ok? && LiquidityMoved(s, t, key, base, quote)
    ensures key in t.pools && t.pools[key].base == base && t.pools[key].quote == quote
  {
    hide MintProtocolFee, SharesKept;
  }

  /** A plain payment of a user, to another user or into a pallet account. */
  lemma PaymentKeeps(s: State, asset: Asset, from: UserId, to: Account, amount: nat)
    requires AmmInv(s) && s.ledger.Transfer(asset, User(from), to, amount).Ok?
    ensures var t := s.(ledger := s.ledger.Transfer(asset, User(from), to, amount).value);
            AmmInv(t) && OnlyPaid(s.ledger, t.ledger)
  {
    hide Backed, Ledger.Transfer;
    TransferBacked(s.ledger, asset, User(from), to, amount);
    var t := s.(ledger := s.ledger.Transfer(asset, User(from), to, amount).value);
    forall key | key in t.pools
      ensures PoolOk(t, key)
    {
      assert PoolOk(s, key);
    }
  }

  /** Every step keeps the invariant and does only what its effect says. */
  lemma StepPerforms(s: State, op: Op)
    requires AmmInv(s)
    ensures AmmInv(Step(s, op))
    ensures EffectOf(s, op) != Idle ==> Target(op).Some?
    ensures Performs(s, Step(s, op), if Target(op).Some? then Target(op).value else (0, 0), EffectOf(s, op))
  {
    hide CreateAt, AddIdeal, RemoveAt, Amm.Swap, LiquidityMoved, Traded, Sqrt, MintProtocolFee, Backed;
    if Call(s, op).Ok? {
      match op
      case CreatePool(_, _, _, _, _, _) => CreatePerforms(s, op);
      case AddLiquidity(_, _, _, _, _, _, _) => LiquidityPerforms(s, op);
      case RemoveLiquidity(_, _, _, _) => LiquidityPerforms(s, op);
      case Swap(a, b, who, amountIn) => SwapEffect(s, who, a, b, amountIn);
      case Transfer(asset, from, to, amount) => PaymentKeeps(s, asset, from, to, amount);
      case _ =>
    }
  }

  lemma {:induction false} RunKeepsInv(s: State, ops: seq<Op>)
    requires AmmInv(s)
    ensures AmmInv(Run(s, ops))
    decreases ops
  {
    hide Step;
    if ops != [] {
      StepPerforms(s, ops[0]);
      StepKeepsConfig(s, ops[0]);
      RunKeepsInv(Step(s, ops[0]), ops[1..]);
    }
  }

  // ---------- custody ----------

  ghost function Reserves(s: State, a: Asset): map<Pair, int> {
    map key | key in s.pools ::
      (if key.0 == a then s.pools[key].base else 0) + (if key.1 == a then s.pools[key].quote else 0)
  }

  /** What the pallet account holds of an asset beyond the reserves of every pool. */
  ghost function Spare(s: State, a: Asset): int {
    s.ledger.Balance(a, AmmPot) - Sum(Reserves(s, a))
  }

  /** The reserves of a pair, zero while it has no pool. */
  function BaseOf(s: State, key: Pair): nat {
    if key in s.pools then s.pools[key].base else 0
  }

  function QuoteOf(s: State, key: Pair): nat {
    if key in s.pools then s.pools[key].quote else 0
  }

  lemma ReplacedReserves(s: State, t: State, key: Pair, a: Asset)
    requires key in t.pools && t.pools == s.pools[key := t.pools[key]]
    ensures Sum(Reserves(t, a)) == Sum(Reserves(s, a))
              + (if key.0 == a then BaseOf(t, key) - BaseOf(s, key) else 0)
              + (if key.1 == a then QuoteOf(t, key) - QuoteOf(s, key) else 0)
  {
    hide Sum;
    assert Reserves(t, a) == Reserves(s, a)[key := Reserves(t, a)[key]];
    SumUpdate(Reserves(s, a), key, Reserves(t, a)[key]);
  }

  lemma PerformsGains(s: State, t: State, key: Pair, effect: Effect)
    requires s.cfg.lpFee > 0 && effect != Idle && Performs(s, t, key, effect)
    ensures Replaces(s, t, key)
    ensures PotGained(s.ledger, t.ledger, key, BaseOf(t, key) - BaseOf(s, key), QuoteOf(t, key) - QuoteOf(s, key))
  {
    hide Sqrt, MintProtocolFee, SharesKept;
  }

  /** No step takes from the pallet account more than the reserves shrink by. */
  lemma StepKeepsCustody(s: State, op: Op, a: Asset)
    requires AmmInv(s)
    ensures Spare(Step(s, op), a) >= Spare(s, a)
  {
    hide Sum, Step, Performs, EffectOf;
    StepPerforms(s, op);
    var t := Step(s, op);
    if EffectOf(s, op) == Idle {
      IdleKeeps(s, t, if Target(op).Some? then Target(op).value else (0, 0));
      assert Reserves(t, a) == Reserves(s, a);
    } else {
      var key := Target(op).value;
      PerformsGains(s, t, key, EffectOf(s, op));
      ReplacedReserves(s, t, key, a);
    }
  }

  lemma IdleKeeps(s: State, t: State, key: Pair)
    requires s.cfg.lpFee > 0 && Performs(s, t, key, Idle)
    ensures t.pools == s.pools && t.ledger.issuance == s.ledger.issuance
    ensures forall a: Asset :: t.ledger.Balance(a, AmmPot) >= s.ledger.Balance(a, AmmPot)
  {
  }

  /** The one pallet account covers the reserves of all pools after any run, if it did before. */
  lemma {:induction false} RunKeepsCustody(s: State, ops: seq<Op>, a: Asset)
    requires AmmInv(s)
    ensures Spare(Run(s, ops), a) >= Spare(s, a)
    decreases ops
  {
    hide Step, Spare;
    if ops != [] {
      StepKeepsCustody(s, ops[0], a);
      StepPerforms(s, ops[0]);
      StepKeepsConfig(s, ops[0]);
      RunKeepsCustody(Step(s, ops[0]), ops[1..], a);
    }
  }

  /** From a chain without pools, every asset's reserves are covered in every reachable state. */
  lemma CustodyFromGenesis(s: State, ops: seq<Op>, a: Asset)
    requires AmmInv(s) && s.pools == map[]
    ensures Sum(Reserves(Run(s, ops), a)) <= Run(s, ops).ledger.Balance(a, AmmPot)
  {
    hide Run, AmmInv;
    assert Reserves(s, a) == map[];
    RunKeepsCustody(s, ops, a);
  }
}
