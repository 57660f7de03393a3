/** The asset registry as an object that executes the calls of `AssetRegistry` on its storage. */
module AssetRegistryPallet {
  import opened Base
  import opened AssetRegistry

  datatype Search = Found(at: nat) | Missing(at: nat)

  /** `binary_search` on a sorted list. */
  method BinarySearch(list: seq<AssetType>, x: AssetType) returns (r: Search)
    requires Sorted(list)
    ensures r.at == Position(list, x)
    ensures r.Found? <==> x in list
    ensures r.Found? ==> r.at < |list| && list[r.at] == x
  {
    var lo, hi := 0, |list|;
    while lo < hi
      invariant lo <= hi <= |list|
      invariant forall i :: 0 <= i < lo ==> list[i] < x
      invariant forall i :: hi <= i < |list| ==> list[i] > x
    {
      var mid := (lo + hi) / 2;
      if list[mid] < x {
        lo := mid + 1;
      } else if list[mid] > x {
        hi := mid;
      } else {
        PositionIs(list, x, mid);
        return Found(mid);
      }
    }
    PositionIs(list, x, lo);
    return Missing(lo);
  }

  class Pallet {
    var idType: map<AssetId, AssetType>
    var typeId: map<AssetType, AssetId>
    var units: map<AssetType, nat>
    var supported: seq<AssetType>

    function View(): State
      reads this
    {
      State(idType, typeId, units, supported)
    }

    ghost predicate Valid()
      reads this
    {
      RegistryInv(View())
    }

    constructor ()
      ensures Valid() && View() == State(map[], map[], map[], [])
    {
      idType, typeId, units, supported := map[], map[], map[], [];
    }

    method InsertSupported(t: AssetType)
      requires Sorted(supported)
      modifies this`supported
      ensures supported == Include(old(supported), t) && Sorted(supported)
    {
      IncludeKeeps(supported, t);
      var found := BinarySearch(supported, t);
      if found.Missing? {
        supported := supported[..found.at] + [t] + supported[found.at..];
      }
    }

    method RemoveSupported(t: AssetType)
      requires Sorted(supported)
      modifies this`supported
      ensures supported == Exclude(old(supported), t) && Sorted(supported)
    {
      ExcludeKeeps(supported, t);
      var found := BinarySearch(supported, t);
      if found.Found? {
        supported := supported[..found.at] + supported[found.at + 1..];
      }
    }

    method RegisterAsset(id: AssetId, t: AssetType) returns (r: Result<()>)
      requires Valid()
      modifies this`idType, this`typeId
      ensures Valid() && Executes(r, old(View()), View(), Register(old(View()), id, t))
    {
      StepKeepsInv(View(), Op.RegisterAsset(id, t));
      if id in idType {
        return Err(AssetAlreadyExists);
      }
      idType := idType[id := t];
      typeId := typeId[t := id];
      return Ok(());
    }

    method UpdateAssetUnitsPerSecond(t: AssetType, n: nat) returns (r: Result<()>)
      requires Valid()
      modifies this`supported, this`units
      ensures Valid() && Executes(r, old(View()), View(), UpdateUnits(old(View()), t, n))
    {
      hide Include;
      StepKeepsInv(View(), UpdateAssetUnits(t, n));
      if t !in typeId {
        return Err(AssetDoesNotExist);
      }
      InsertSupported(t);
      units := units[t := n];
      return Ok(());
    }

    method UpdateAssetType(id: AssetId, t: AssetType) returns (r: Result<()>)
      requires Valid()
      modifies this`idType, this`typeId, this`supported, this`units
      ensures Valid() && Executes(r, old(View()), View(), UpdateType(old(View()), id, t))
    {
      hide Include, Exclude;
      StepKeepsInv(View(), Op.UpdateAssetType(id, t));
      if id !in idType {
        return Err(AssetDoesNotExist);
      }
      var previous := idType[id];
      idType := idType[id := t];
      typeId := typeId[t := id];
      typeId := typeId - {previous};
      if previous in units {
        var n := units[previous];
        RemoveSupported(previous);
        InsertSupported(t);
        units := units - {previous};
        units := units[t := n];
      }
      return Ok(());
    }

    method RemoveFeePaymentAsset(t: AssetType)
      requires Valid()
      modifies this`supported, this`units
      ensures Valid() && View() == RemoveFee(old(View()), t)
    {
      hide Exclude;
      StepKeepsInv(View(), Op.RemoveFeePaymentAsset(t));
      RemoveSupported(t);
      units := units - {t};
    }

    method DeregisterAsset(id: AssetId) returns (r: Result<()>)
      requires Valid()
      modifies this`idType, this`typeId, this`supported, this`units
      ensures Valid() && Executes(r, old(View()), View(), Deregister(old(View()), id))
    {
      hide Exclude;
      StepKeepsInv(View(), Op.DeregisterAsset(id));
      if id !in idType {
        return Err(AssetDoesNotExist);
      }
      var t := idType[id];
      idType := idType - {id};
      typeId := typeId - {t};
      units := units - {t};
      RemoveSupported(t);
      return Ok(());
    }

    /** `payment_is_supported`: the search in the list decides whether the type has a price. */
    method PaymentIsSupported(t: AssetType) returns (ok: bool)
      requires Valid()
      ensures ok <==> t in units
    {
      var found := BinarySearch(supported, t);
      return found.Found?;
    }
  }
}
