/**
 * The building picker of the main base: the catalog buildings a faction may
 * still place, given the ids already on its grid.
 */
module AvailableBuildings {

  import opened Wrappers
  import opened Seqs
  import opened Factions

  /** `MainBuilding`: a catalog entry, exclusive to a faction or generic. */
  datatype MainBuilding = MainBuilding(
    id: string,
    name: string,
    factionExclusive: Option<string>,
    replacesGeneric: Option<string>)

  /** A string field is truthy: present and non-empty. */
  predicate Present(o: Option<string>) {
    o.Some? && o.value != ""
  }

  /** Some building of the catalog, exclusive to `faction`, replaces the generic `b`. */
  predicate HasExclusiveReplacement(catalog: seq<MainBuilding>, faction: Faction, b: MainBuilding) {
    exists x :: x in catalog && x.factionExclusive == Some(Label(faction)) && x.replacesGeneric == Some(b.id)
  }

  /** The filter callback: not used yet, and either the faction's own or an unreplaced generic. */
  predicate IsAvailable(catalog: seq<MainBuilding>, faction: Faction, usedBuildingIds: seq<string>, b: MainBuilding) {
    if b.id in usedBuildingIds then false
    else if Present(b.factionExclusive) then b.factionExclusive.value == Label(faction)
    else !HasExclusiveReplacement(catalog, faction, b)
  }

  /** `getAvailableBuildingsForFaction`, over the catalog it filters. */
  function AvailableBuildingsForFaction(catalog: seq<MainBuilding>, faction: Faction, usedBuildingIds: seq<string>)
    : (r: seq<MainBuilding>)
    ensures IsSubsequence(r, catalog)
    ensures forall i :: 0 <= i < |r| ==> r[i].id !in usedBuildingIds
    ensures forall i :: 0 <= i < |r| && Present(r[i].factionExclusive) ==>
              r[i].factionExclusive == Some(Label(faction))
    ensures forall i :: 0 <= i < |r| && !Present(r[i].factionExclusive) ==>
              !HasExclusiveReplacement(catalog, faction, r[i])
    ensures forall i ::
              (0 <= i < |catalog| && catalog[i].id !in usedBuildingIds && !Present(catalog[i].factionExclusive) &&
               !HasExclusiveReplacement(catalog, faction, catalog[i])) ==> catalog[i] in r
    ensures forall i ::
              (0 <= i < |catalog| && catalog[i].id !in usedBuildingIds &&
               catalog[i].factionExclusive == Some(Label(faction))) ==> catalog[i] in r
  {
    Filter(catalog, b => IsAvailable(catalog, faction, usedBuildingIds, b))
  }
}
