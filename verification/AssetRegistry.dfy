/** The asset registry: ids and types of foreign assets, and which types may pay fees. */
module AssetRegistry {
  import opened Base

  type AssetId = nat
  type AssetType = nat

  datatype State = State(
    idType: map<AssetId, AssetType>,
    typeId: map<AssetType, AssetId>,
    units: map<AssetType, nat>,
    supported: seq<AssetType>)

  // ---------- the sorted list ----------

  predicate Sorted(list: seq<AssetType>) {
    forall i, j :: 0 <= i < j < |list| ==> list[i] < list[j]
  }

  /** How many leading elements are below `x`: where it is, or where it belongs. */
  function Position(list: seq<AssetType>, x: AssetType): (p: nat)
    ensures p <= |list|
    ensures forall i :: 0 <= i < p ==> list[i] < x
    ensures p < |list| ==> list[p] >= x
  {
    if list != [] && list[0] < x then 1 + Position(list[1..], x) else 0
  }

  function Include(list: seq<AssetType>, x: AssetType): seq<AssetType> {
    var p := Position(list, x);
    if p < |list| && list[p] == x then list else list[..p] + [x] + list[p..]
  }

  function Exclude(list: seq<AssetType>, x: AssetType): seq<AssetType> {
    var p := Position(list, x);
    if p < |list| && list[p] == x then list[..p] + list[p + 1..] else list
  }

  // ---------- the calls ----------

  function Register(s: State, id: AssetId, t: AssetType): Result<State> {
    if id in s.idType then Err(AssetAlreadyExists)
    else Ok(s.(idType := s.idType[id := t], typeId := s.typeId[t := id]))
  }

  function UpdateUnits(s: State, t: AssetType, n: nat): Result<State> {
    if t !in s.typeId then Err(AssetDoesNotExist)
    else Ok(s.(supported := Include(s.supported, t), units := s.units[t := n]))
  }

  function UpdateType(s: State, id: AssetId, t: AssetType): Result<State> {
    if id !in s.idType then Err(AssetDoesNotExist) else
      var previous := s.idType[id];
      var s1 := s.(idType := s.idType[id := t], typeId := s.typeId[t := id] - {previous});
      if previous !in s.units then Ok(s1)
      else Ok(s1.(supported := Include(Exclude(s.supported, previous), t),
                  units := (s.units - {previous})[t := s.units[previous]]))
  }

  function RemoveFee(s: State, t: AssetType): State {
    s.(supported := Exclude(s.supported, t), units := s.units - {t})
  }

  function Deregister(s: State, id: AssetId): Result<State> {
    if id !in s.idType then Err(AssetDoesNotExist) else
      var t := s.idType[id];
      Ok(s.(idType := s.idType - {id}, typeId := s.typeId - {t}, units := s.units - {t},
            supported := Exclude(s.supported, t)))
  }

  datatype Op =
    | RegisterAsset(id: AssetId, kind: AssetType)
    | UpdateAssetUnits(kind: AssetType, units: nat)
    | UpdateAssetType(id: AssetId, kind: AssetType)
    | RemoveFeePaymentAsset(kind: AssetType)
    | DeregisterAsset(id: AssetId)

  function Call(s: State, op: Op): Result<State> {
    match op
    case RegisterAsset(id, t) => Register(s, id, t)
    case UpdateAssetUnits(t, n) => UpdateUnits(s, t, n)
    case UpdateAssetType(id, t) => UpdateType(s, id, t)
    case RemoveFeePaymentAsset(t) => Ok(RemoveFee(s, t))
    case DeregisterAsset(id) => Deregister(s, id)
  }

  function Step(s: State, op: Op): State {
    if Call(s, op).Ok? then Call(s, op).value else s
  }

  function Run(s: State, ops: seq<Op>): State
    decreases ops
  {
    if ops == [] then s else Run(Step(s, ops[0]), ops[1..])
  }

  // ---------- what holds in every reachable state ----------

  lemma IncludeKeeps(list: seq<AssetType>, x: AssetType)
    requires Sorted(list)
    ensures Sorted(Include(list, x)) && forall y :: y in Include(list, x) <==> y == x || y in list
  {
    var p := Position(list, x);
    if p < |list| && list[p] == x {
    } else {
      assert forall i :: p <= i < |list| ==> list[i] > x;
      InsertAt(list, p, x);
    }
  }

  lemma InsertAt(list: seq<AssetType>, p: nat, x: AssetType)
    requires Sorted(list) && p <= |list|
    requires (forall i :: 0 <= i < p ==> list[i] < x) && (forall i :: p <= i < |list| ==> list[i] > x)
    ensures var r := list[..p] + [x] + list[p..];
            Sorted(r) && forall y :: y in r <==> y == x || y in list
  {
    var r := list[..p] + [x] + list[p..];
    assert r[p] == x;
    assert forall i :: 0 <= i < p ==> r[i] == list[i];
    assert forall i :: p < i < |r| ==> r[i] == list[i - 1];
    forall y
      ensures y in r <==> y == x || y in list
    {
      if y in list {
        var i :| 0 <= i < |list| && list[i] == y;
        assert r[if i < p then i else i + 1] == y;
      }
    }
  }

  lemma ExcludeKeeps(list: seq<AssetType>, x: AssetType)
    requires Sorted(list)
    ensures Sorted(Exclude(list, x)) && forall y :: y in Exclude(list, x) <==> y != x && y in list
  {
    if x in list {
      OnlyThere(list, x);
      RemoveAt(list, Position(list, x));
    } else {
      var p := Position(list, x);
      assert !(p < |list| && list[p] == x);
    }
  }

  lemma RemoveAt(list: seq<AssetType>, p: nat)
    requires Sorted(list) && p < |list|
    ensures var r := list[..p] + list[p + 1..];
            Sorted(r) && forall y :: y in r <==> y != list[p] && y in list
  {
    var r := list[..p] + list[p + 1..];
    assert forall i :: 0 <= i < |r| ==> r[i] == list[if i < p then i else i + 1];
    forall y
      ensures y in r <==> y != list[p] && y in list
    {
      if y in list && y != list[p] {
        var i :| 0 <= i < |list| && list[i] == y;
        assert r[if i < p then i else i - 1] == y;
      }
    }
  }

  lemma OnlyThere(list: seq<AssetType>, x: AssetType)
    requires Sorted(list) && x in list
    ensures Position(list, x) < |list| && list[Position(list, x)] == x
  {
    var i :| 0 <= i < |list| && list[i] == x;
    PositionIs(list, x, i);
  }

  lemma PositionIs(list: seq<AssetType>, x: AssetType, p: nat)
    requires p <= |list| && (forall i :: 0 <= i < p ==> list[i] < x) && (p < |list| ==> list[p] >= x)
    ensures p == Position(list, x)
  {
  }

  /** The fee list is sorted and lists exactly the types with a price; every type leads to an id that leads
      back, so no two types share an id. */
  ghost predicate RegistryInv(s: State) {
    && Sorted(s.supported)
    && (forall t :: t in s.supported <==> t in s.units)
    && (forall t :: t in s.typeId ==> s.typeId[t] in s.idType && s.idType[s.typeId[t]] == t)
  }

  lemma StepKeepsInv(s: State, op: Op)
    requires RegistryInv(s)
    ensures RegistryInv(Step(s, op))
  {
    hide Include, Exclude;
    match op
    case RegisterAsset(_, _) =>
    case UpdateAssetUnits(t, _) => IncludeKeeps(s.supported, t);
    case UpdateAssetType(id, t) =>
      if id in s.idType {
        ExcludeKeeps(s.supported, s.idType[id]);
        IncludeKeeps(Exclude(s.supported, s.idType[id]), t);
      }
    case RemoveFeePaymentAsset(t) => ExcludeKeeps(s.supported, t);
    case DeregisterAsset(id) =>
      if id in s.idType {
        ExcludeKeeps(s.supported, s.idType[id]);
      }
  }

  lemma {:induction false} RunKeepsInv(s: State, ops: seq<Op>)
    requires RegistryInv(s)
    ensures RegistryInv(Run(s, ops))
    decreases ops
  {
    hide Step, RegistryInv;
    if ops != [] {
      StepKeepsInv(s, ops[0]);
      RunKeepsInv(Step(s, ops[0]), ops[1..]);
    }
  }

  lemma TypesApart(s: State, t: AssetType, u: AssetType)
    requires RegistryInv(s) && t in s.typeId && u in s.typeId && s.typeId[t] == s.typeId[u]
    ensures t == u
  {
  }

  // ---------- the other direction ----------

  /** Every id leads to a type that leads back. */
  ghost predicate Invertible(s: State) {
    forall id :: id in s.idType ==> s.idType[id] in s.typeId && s.typeId[s.idType[id]] == id
  }

  /** The call gives an id a type that no id has. */
  predicate TypeIsNew(s: State, op: Op) {
    op.RegisterAsset? || op.UpdateAssetType? ==> op.kind !in s.typeId
  }

  /** The maps stay inverse to each other exactly as long as no call reuses a type that is taken, not even
      the id's own. */
  lemma StaysInvertible(s: State, op: Op)
    requires RegistryInv(s) && Invertible(s) && Call(s, op).Ok?
    ensures Invertible(Step(s, op)) <==> TypeIsNew(s, op)
  {
    hide Include, Exclude;
    var t := Step(s, op);
    if !TypeIsNew(s, op) {
      assert s.typeId[op.kind] in t.idType;
      assert op.id in t.idType;
    }
  }

  /** Two ids registered for one type: both lead to it, it leads to the second only. */
  lemma ReusedType()
    ensures var s := Run(State(map[], map[], map[], []), [RegisterAsset(1, 7), RegisterAsset(2, 7)]);
            s.idType == map[1 := 7, 2 := 7] && s.typeId == map[7 := 2] && !Invertible(s)
  {
    var s := State(map[], map[], map[], []);
    var ops := [RegisterAsset(1, 7), RegisterAsset(2, 7)];
    assert ops[1..] == [RegisterAsset(2, 7)] && ops[1..][1..] == [];
    var t := Step(s, ops[0]);
    var u := Step(t, ops[1]);
    assert Run(s, ops) == Run(t, ops[1..]) == u;
    assert u.idType[1] == 7;
  }

  // ---------- prices ----------

  function PriceOf(s: State, t: AssetType): Option<nat> {
    if t in s.units then Some(s.units[t]) else None
  }

  /** When a call succeeds: registering needs a new id, pricing a registered type, the rest a registered id; giving up a
      price always succeeds. */
  lemma CallSucceeds(s: State, op: Op)
    ensures Call(s, op).Ok? <==>
              match op
              case RegisterAsset(id, _) => id !in s.idType
              case UpdateAssetUnits(t, _) => t in s.typeId
              case UpdateAssetType(id, _) => id in s.idType
              case RemoveFeePaymentAsset(_) => true
              case DeregisterAsset(id) => id in s.idType
  {
  }

  /** What a step makes of the type of an id. */
  lemma StepType(s: State, op: Op, id: AssetId)
    ensures var t := Step(s, op);
            && (id in t.idType <==> (id in s.idType || (op.RegisterAsset? && op.id == id)) && op != DeregisterAsset(id))
            && (id in t.idType ==>
                  t.idType[id] == if (op.UpdateAssetType? || (op.RegisterAsset? && id !in s.idType)) && op.id == id
                                  then op.kind else s.idType[id])
  {
    hide Include, Exclude;
  }

  /** What a step makes of the price of a type: a price set is the price, a price moves along with the id whose type
      changes, and it goes with the id, or when it is given up. */
  lemma StepPrice(s: State, op: Op, t: AssetType)
    ensures PriceOf(Step(s, op), t) ==
              match op
              case UpdateAssetUnits(kind, n) => if kind == t && t in s.typeId then Some(n) else PriceOf(s, t)
              case UpdateAssetType(id, kind) =>
                if id !in s.idType || PriceOf(s, s.idType[id]).None? then PriceOf(s, t)
                else if kind == t then PriceOf(s, s.idType[id])
                else if s.idType[id] == t then None else PriceOf(s, t)
              case RemoveFeePaymentAsset(kind) => if kind == t then None else PriceOf(s, t)
              case DeregisterAsset(id) => if id in s.idType && s.idType[id] == t then None else PriceOf(s, t)
              case RegisterAsset(_, _) => PriceOf(s, t)
  {
    hide Include, Exclude;
  }

  /** The call prices, gives up or takes away the type of an id, or makes it the type of another. */
  predicate Disturbs(s: State, op: Op, id: AssetId)
    requires id in s.idType
  {
    match op
    case UpdateAssetUnits(kind, _) => kind == s.idType[id]
    case UpdateAssetType(other, kind) =>
      other != id && other in s.idType && (kind == s.idType[id] || s.idType[other] == s.idType[id])
    case RemoveFeePaymentAsset(kind) => kind == s.idType[id]
    case DeregisterAsset(other) => other in s.idType && s.idType[other] == s.idType[id]
    case RegisterAsset(_, _) => false
  }

  predicate Undisturbed(s: State, ops: seq<Op>, id: AssetId)
    decreases ops
  {
    id in s.idType && (ops != [] ==> !Disturbs(s, ops[0], id) && Undisturbed(Step(s, ops[0]), ops[1..], id))
  }

  lemma StepKeepsPrice(s: State, op: Op, id: AssetId)
    requires id in s.idType && PriceOf(s, s.idType[id]).Some? && !Disturbs(s, op, id)
    ensures var t := Step(s, op);
            id in t.idType && PriceOf(t, t.idType[id]) == PriceOf(s, s.idType[id])
  {
    hide Step, PriceOf;
    StepType(s, op, id);
    StepPrice(s, op, Step(s, op).idType[id]);
  }

  lemma {:induction false} RunKeepsPrice(s: State, ops: seq<Op>, id: AssetId)
    requires Undisturbed(s, ops, id) && PriceOf(s, s.idType[id]).Some?
    ensures var t := Run(s, ops);
            id in t.idType && PriceOf(t, t.idType[id]) == PriceOf(s, s.idType[id])
    decreases ops
  {
    hide Step, PriceOf, Disturbs;
    if ops != [] {
      StepKeepsPrice(s, ops[0], id);
      RunKeepsPrice(Step(s, ops[0]), ops[1..], id);
    }
  }

  /** The price set last is the price, whatever is called since and through whatever types the asset has gone, as long as
      nobody prices, gives up or takes away its type, or makes it another's. */
  lemma LastPriceHolds(s: State, id: AssetId, n: nat, ops: seq<Op>)
    requires id in s.idType && s.idType[id] in s.typeId
    requires Undisturbed(Step(s, UpdateAssetUnits(s.idType[id], n)), ops, id)
    ensures var t := Run(Step(s, UpdateAssetUnits(s.idType[id], n)), ops);
            && id in t.idType && PriceOf(t, t.idType[id]) == Some(n)
            && (RegistryInv(s) ==> t.idType[id] in t.supported)
  {
    hide Step, RegistryInv;
    var op := UpdateAssetUnits(s.idType[id], n);
    StepType(s, op, id);
    StepPrice(s, op, s.idType[id]);
    RunKeepsPrice(Step(s, op), ops, id);
    if RegistryInv(s) {
      StepKeepsInv(s, op);
      RunKeepsInv(Step(s, op), ops);
      Listed(Run(Step(s, op), ops), Run(Step(s, op), ops).idType[id]);
    }
  }

  lemma Listed(s: State, t: AssetType)
    requires RegistryInv(s)
    ensures PriceOf(s, t).Some? <==> t in s.supported
  {
  }
}
