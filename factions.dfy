/**
 * The seven playable factions. The store keys every per-faction document by
 * the faction's label, the lower-case string of `FactionLabel`.
 */
module Factions {

  import opened Wrappers

  datatype Faction = Harkonnen | Atreides | Ecaz | Smuggler | Vernius | Fremen | Corrino

  /**
   * `FACTION_LABELS`, in the order the store iterates over it: every faction,
   * each once.
   */
  function FactionLabels(): (r: seq<Faction>)
    ensures |r| == 7
    ensures forall f :: f in r
    ensures forall i, j :: 0 <= i < j < |r| ==> r[i] != r[j]
  {
    var r := [Harkonnen, Atreides, Ecaz, Smuggler, Vernius, Fremen, Corrino];
    assert forall f :: f in r by {
      forall f ensures f in r {
        if f.Harkonnen? { assert r[0] == f; }
        else if f.Atreides? { assert r[1] == f; }
        else if f.Ecaz? { assert r[2] == f; }
        else if f.Smuggler? { assert r[3] == f; }
        else if f.Vernius? { assert r[4] == f; }
        else if f.Fremen? { assert r[5] == f; }
        else { assert r[6] == f; }
      }
    }
    r
  }

  function Label(f: Faction): string {
    match f
    case Harkonnen => "harkonnen"
    case Atreides => "atreides"
    case Ecaz => "ecaz"
    case Smuggler => "smuggler"
    case Vernius => "vernius"
    case Fremen => "fremen"
    case Corrino => "corrino"
  }

  /** The faction whose label is `s`, if `s` is one of the seven labels. */
  function ParseFaction(s: string): (r: Option<Faction>)
    ensures r.Some? ==> Label(r.value) == s
  {
    if s == "harkonnen" then Some(Harkonnen)
    else if s == "atreides" then Some(Atreides)
    else if s == "ecaz" then Some(Ecaz)
    else if s == "smuggler" then Some(Smuggler)
    else if s == "vernius" then Some(Vernius)
    else if s == "fremen" then Some(Fremen)
    else if s == "corrino" then Some(Corrino)
    else None
  }

  /** Every label parses back to its faction, so labels are pairwise distinct. */
  lemma ParseLabel(f: Faction)
    ensures ParseFaction(Label(f)) == Some(f)
  {
  }

  lemma LabelInjective(f: Faction, g: Faction)
    requires Label(f) == Label(g)
    ensures f == g
  {
    ParseLabel(f);
    ParseLabel(g);
  }
}
