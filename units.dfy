/**
 * The unit picker's catalog rules: a faction's regular units (heroes left
 * out) and the lookups by id and by name among them.
 */
module Units {

  import opened Wrappers
  import opened Seqs
  import opened Factions
  import Armory

  /** `UnitData` of the unit picker. */
  datatype UnitData = UnitData(id: string, name: string, desc: string, equipment: seq<string>)

  /** The faction's list in the units catalog, or none when its key is missing. */
  function CatalogUnits(unitsData: map<string, seq<UnitData>>, faction: Faction): (units: seq<UnitData>)
    ensures Armory.FactionToUnitsKey(faction) !in unitsData ==> units == []
    ensures Armory.FactionToUnitsKey(faction) in unitsData ==> units == unitsData[Armory.FactionToUnitsKey(faction)]
  {
    var key := Armory.FactionToUnitsKey(faction);
    if key in unitsData then unitsData[key] else []
  }

  /**
   * `getUnitsForFaction`: the faction's units that are not heroes, in catalog
   * order; `isHeroId` is the hero test the picker imports.
   */
  function RegularUnitsForFaction(unitsData: map<string, seq<UnitData>>, isHeroId: string -> bool, faction: Faction)
    : (r: seq<UnitData>)
    ensures IsSubsequence(r, CatalogUnits(unitsData, faction))
    ensures Armory.FactionToUnitsKey(faction) !in unitsData ==> r == []
    ensures forall i :: 0 <= i < |r| ==> !isHeroId(r[i].id)
    ensures forall i :: 0 <= i < |CatalogUnits(unitsData, faction)| && !isHeroId(CatalogUnits(unitsData, faction)[i].id) ==>
              CatalogUnits(unitsData, faction)[i] in r
  {
    Filter(CatalogUnits(unitsData, faction), (u: UnitData) => !isHeroId(u.id))
  }

  /** `getUnitById`: the first regular unit of the faction with that id. */
  function UnitById(unitsData: map<string, seq<UnitData>>, isHeroId: string -> bool, faction: Faction, unitId: string)
    : (r: Option<UnitData>)
    ensures r.Some? ==> r.value.id == unitId && !isHeroId(r.value.id) && r.value in CatalogUnits(unitsData, faction)
    ensures r.None? <==> forall u :: u in CatalogUnits(unitsData, faction) && !isHeroId(u.id) ==> u.id != unitId
    ensures r.Some? ==>
              var units := RegularUnitsForFaction(unitsData, isHeroId, faction);
              exists i :: 0 <= i < |units| && units[i] == r.value && forall k :: 0 <= k < i ==> units[k].id != unitId
  {
    var units := RegularUnitsForFaction(unitsData, isHeroId, faction);
    Find(units, (u: UnitData) => u.id == unitId)
  }

  /** `getUnitByName`: the first regular unit of the faction with that name. */
  function UnitByName(unitsData: map<string, seq<UnitData>>, isHeroId: string -> bool, faction: Faction, unitName: string)
    : (r: Option<UnitData>)
    ensures r.Some? ==> r.value.name == unitName && !isHeroId(r.value.id) && r.value in CatalogUnits(unitsData, faction)
    ensures r.None? <==> forall u :: u in CatalogUnits(unitsData, faction) && !isHeroId(u.id) ==> u.name != unitName
    ensures r.Some? ==>
              var units := RegularUnitsForFaction(unitsData, isHeroId, faction);
              exists i :: 0 <= i < |units| && units[i] == r.value && forall k :: 0 <= k < i ==> units[k].name != unitName
  {
    var units := RegularUnitsForFaction(unitsData, isHeroId, faction);
    Find(units, (u: UnitData) => u.name == unitName)
  }
}
