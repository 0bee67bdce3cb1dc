/** The persistent game ledger (app/store/game.ts): the coin balance and the
    buildings on the map, with guarded spending. The copy written to local
    storage is the ghost field `saved`. */
module Game {
  import opened Common
  import opened Hex
  import opened Seqs

  datatype Kind = House | Shop | Factory | Park | Bank | Farm

  /** A building as the stores keep it (types.ts). `lastIncomeAt` is absent on
      buildings made by `addBuildingAt`. */
  datatype Building = Building(
    id: string,
    kind: Kind,
    level: int,
    incomePerHour: real,
    lastIncomeAt: Option<real>,
    coord: Axial,
    position: Point)

  /** The record written under the storage key. */
  datatype Snapshot = Snapshot(coins: real, buildings: seq<Building>)

  const INITIAL_COINS: real := 500.0

  /** The building `addBuildingAt` creates. */
  function NewBuilding(id: string, q: int, r: int, kind: Kind, level: Option<int>, incomePerHour: Option<real>)
    : (b: Building)
    ensures b.id == id && b.kind == kind && b.coord == Axial(q, r)
    ensures b.level == level.GetOr(1) && b.incomePerHour == incomePerHour.GetOr(10.0)
    ensures b.position == AxialToPixel(b.coord) && b.lastIncomeAt.None?
  {
    Building(id, kind, level.GetOr(1), incomePerHour.GetOr(10.0), None, Axial(q, r), AxialToPixel(Axial(q, r)))
  }

  /** `buildings.filter((b) => b.id !== id)` */
  function WithoutId(bs: seq<Building>, id: string): seq<Building> {
    Filter(bs, (b: Building) => b.id != id)
  }

  /** The buildings left by `removeBuilding`: exactly those with another id,
      in their original order. */
  lemma WithoutIdSpec(bs: seq<Building>, id: string)
    ensures forall b :: b in WithoutId(bs, id) <==> b in bs && b.id != id
    ensures IsSubsequence(WithoutId(bs, id), bs)
    ensures (forall b :: b in bs ==> b.id != id) ==> WithoutId(bs, id) == bs
  {
    FilterIsSubsequence(bs, (b: Building) => b.id != id);
    if forall b :: b in bs ==> b.id != id {
      FilterKeepsAll(bs, (b: Building) => b.id != id);
    }
  }

  /** With a fresh id, `addBuildingAt` followed by `removeBuilding` of the new
      id gives back the original list, and the building added is the only one
      carrying that id. */
  lemma AddThenRemove(bs: seq<Building>, id: string, q: int, r: int, kind: Kind,
                      level: Option<int>, incomePerHour: Option<real>)
    requires forall b :: b in bs ==> b.id != id
    ensures WithoutId(bs + [NewBuilding(id, q, r, kind, level, incomePerHour)], id) == bs
    ensures forall b :: b in bs + [NewBuilding(id, q, r, kind, level, incomePerHour)] && b.id == id ==>
      b == NewBuilding(id, q, r, kind, level, incomePerHour)
  {
    var nb := NewBuilding(id, q, r, kind, level, incomePerHour);
    var p := (b: Building) => b.id != id;
    FilterAppend(bs, [nb], p);
    FilterKeepsAll(bs, p);
    assert Filter([nb], p) == [];
  }

  /** One building after `upgradeBuilding(id)`. */
  function UpgradeOne(b: Building, id: string): Building {
    if b.id == id then b.(level := b.level + 1) else b
  }

  /** `buildings.map(...)` in `upgradeBuilding`. */
  function Upgraded(bs: seq<Building>, id: string): (r: seq<Building>)
    ensures |r| == |bs|
    ensures forall i :: 0 <= i < |bs| ==> r[i] == UpgradeOne(bs[i], id)
  {
    seq(|bs|, i requires 0 <= i < |bs| => UpgradeOne(bs[i], id))
  }

  /** Upgrading raises the level of the matching buildings by one and changes
      nothing else about any building. */
  lemma UpgradedSpec(bs: seq<Building>, id: string, i: int)
    requires 0 <= i < |bs|
    ensures Upgraded(bs, id)[i].level == (if bs[i].id == id then bs[i].level + 1 else bs[i].level)
    ensures Upgraded(bs, id)[i].(level := bs[i].level) == bs[i]
  {
  }

  class GameStore {
    var coins: real
    var buildings: seq<Building>
    /** What local storage holds under the storage key. */
    ghost var saved: Option<Snapshot>

    /** The store at start-up: 500 coins, no buildings; whatever storage held
        before is left in place (this store never reads it back). */
    constructor(stored: Option<Snapshot>)
      ensures coins == INITIAL_COINS && buildings == [] && saved == stored
    {
      coins := INITIAL_COINS;
      buildings := [];
      saved := stored;
    }

    /** `addCoins(v)` */
    method AddCoins(v: real)
      modifies this
      ensures coins == old(coins) + v && buildings == old(buildings)
      ensures saved == Some(Snapshot(coins, buildings))
    {
      coins := coins + v;
      saved := Some(Snapshot(coins, buildings));
    }

    /** `canSpend(v)` */
    function CanSpend(v: real): (r: bool)
      reads this
      ensures r <==> v <= coins
    {
      coins >= v
    }

    /** `spend(v)`: a non-positive amount succeeds without touching anything;
        an amount above the balance fails without touching anything;
        otherwise the amount is debited and the state saved. */
    method Spend(v: real) returns (ok: bool)
      modifies this
      ensures buildings == old(buildings)
      ensures v <= 0.0 ==> ok && coins == old(coins) && saved == old(saved)
      ensures 0.0 < v && old(coins) < v ==> !ok && coins == old(coins) && saved == old(saved)
      ensures 0.0 < v <= old(coins) ==> ok && coins == old(coins) - v && coins >= 0.0
      ensures 0.0 < v <= old(coins) ==> saved == Some(Snapshot(coins, buildings))
      ensures ok <==> v <= 0.0 || v <= old(coins)
    {
      if v <= 0.0 {
        return true;
      }
      if coins < v {
        return false;
      }
      coins := coins - v;
      saved := Some(Snapshot(coins, buildings));
      return true;
    }

    /** `reset()`: clears storage and restores the start-up state. */
    method Reset()
      modifies this
      ensures coins == INITIAL_COINS && buildings == [] && saved == None
    {
      saved := None;
      coins := INITIAL_COINS;
      buildings := [];
    }

    /** `addBuilding(b)`: appends `b` under a fresh id. */
    method AddBuilding(b: Building, freshId: string)
      modifies this
      ensures buildings == old(buildings) + [b.(id := freshId)]
      ensures coins == old(coins) && saved == old(saved)
    {
      buildings := buildings + [b.(id := freshId)];
    }

    /** `addBuildingAt({q, r, type, level, incomePerHour})` with a fresh id. */
    method AddBuildingAt(q: int, r: int, kind: Kind, level: Option<int>, incomePerHour: Option<real>, freshId: string)
      modifies this
      ensures buildings == old(buildings) + [NewBuilding(freshId, q, r, kind, level, incomePerHour)]
      ensures coins == old(coins) && saved == old(saved)
    {
      var nb := Building(freshId, kind, level.GetOr(1), incomePerHour.GetOr(10.0), None,
                         Axial(q, r), AxialToPixel(Axial(q, r)));
      buildings := buildings + [nb];
    }

    /** `removeBuilding(id)` */
    method RemoveBuilding(id: string)
      modifies this
      ensures buildings == WithoutId(old(buildings), id)
      ensures coins == old(coins) && saved == old(saved)
    {
      buildings := Filter(buildings, (b: Building) => b.id != id);
    }

    /** `upgradeBuilding(id)`: free of charge. */
    method UpgradeBuilding(id: string)
      modifies this
      ensures buildings == Upgraded(old(buildings), id)
      ensures coins == old(coins) && saved == old(saved)
    {
      buildings := Upgraded(buildings, id);
    }
  }
}
