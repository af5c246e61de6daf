/**
 * The list the main-base building modal offers for the selected faction.
 */
module OfferedBuildings {

  import opened Wrappers
  import opened Seqs
  import opened Factions

  datatype Category = Economy | Military | Statecraft

  /** `MainBuilding` of the modal's catalog: hidden from one faction, or reserved to one. */
  datatype MainBuilding = MainBuilding(
    id: string,
    name: string,
    category: Category,
    excludeFromFaction: Option<string>,
    onlyForFaction: Option<string>)

  /** A string field is truthy: present and non-empty. */
  predicate Present(o: Option<string>) {
    o.Some? && o.value != ""
  }

  predicate IsOffered(faction: Faction, b: MainBuilding) {
    b.excludeFromFaction != Some(Label(faction)) &&
    (!Present(b.onlyForFaction) || b.onlyForFaction == Some(Label(faction)))
  }

  /**
   * The inline filter of the modal. It reads only the catalog and the faction:
   * the used ids it is handed are never looked at.
   */
  function OfferedBuildings(catalog: seq<MainBuilding>, faction: Faction): (r: seq<MainBuilding>)
    ensures IsSubsequence(r, catalog)
    ensures forall i :: 0 <= i < |r| ==> r[i].excludeFromFaction != Some(Label(faction))
    ensures forall i :: 0 <= i < |r| && Present(r[i].onlyForFaction) ==>
              r[i].onlyForFaction == Some(Label(faction))
    ensures forall i ::
              (0 <= i < |catalog| && catalog[i].excludeFromFaction.None? && catalog[i].onlyForFaction.None?)
              ==> catalog[i] in r
    ensures forall i :: 0 <= i < |catalog| ==> (catalog[i] in r <==> IsOffered(faction, catalog[i]))
  {
    Filter(catalog, b => IsOffered(faction, b))
  }
}
