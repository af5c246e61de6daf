/**
 * The armory catalog rules: which units a faction fields, how a gear item is
 * looked up by name, and which gear a unit can equip.
 */
module Armory {

  import opened Wrappers
  import opened Seqs
  import opened Factions

  /** `GearItem`, without its attribute texts. */
  datatype GearItem = GearItem(name: string, units: seq<string>, factions: seq<string>, image: string)

  /** `UnitData`. */
  datatype UnitData = UnitData(id: string, name: string, desc: string, equipment: seq<string>, flags: int)

  /** An ASCII lower-case letter made upper-case; any other character is kept. */
  function UpperAscii(c: char): char {
    if 'a' <= c <= 'z' then (c as int - 32) as char else c
  }

  /**
   * `factionToUnitsKey`: the key of a faction's list in the units catalog, the
   * faction's label with a capital initial, plural for the smugglers.
   */
  function FactionToUnitsKey(f: Faction): (key: string)
    ensures |key| > 0 && key[0] == UpperAscii(Label(f)[0])
    ensures key[1..] == Label(f)[1..] + (if f == Smuggler then "s" else "")
  {
    match f
    case Harkonnen => "Harkonnen"
    case Atreides => "Atreides"
    case Ecaz => "Ecaz"
    case Smuggler => "Smugglers"
    case Vernius => "Vernius"
    case Fremen => "Fremen"
    case Corrino => "Corrino"
  }

  /** Every faction has its own units key. */
  lemma FactionToUnitsKeyInjective(f: Faction, g: Faction)
    requires FactionToUnitsKey(f) == FactionToUnitsKey(g)
    ensures f == g
  {
  }

  /** `getUnitsForFaction`: the faction's list, or none when the catalog lacks its key. */
  function UnitsForFaction(unitsData: map<string, seq<UnitData>>, faction: Faction): (r: seq<UnitData>)
    ensures FactionToUnitsKey(faction) !in unitsData ==> r == []
    ensures FactionToUnitsKey(faction) in unitsData ==> r == unitsData[FactionToUnitsKey(faction)]
  {
    var key := FactionToUnitsKey(faction);
    if key in unitsData then unitsData[key] else []
  }

  /** `getGearByName`: the first gear item of the catalog with that name. */
  function GearByName(gearItems: seq<GearItem>, name: string): (r: Option<GearItem>)
    ensures r.None? <==> forall i :: 0 <= i < |gearItems| ==> gearItems[i].name != name
    ensures r.Some? ==> exists i :: 0 <= i < |gearItems| && gearItems[i] == r.value && r.value.name == name &&
                                    forall k :: 0 <= k < i ==> gearItems[k].name != name
  {
    Find(gearItems, (g: GearItem) => g.name == name)
  }

  /** `equipmentIdToGearName`. */
  function EquipmentIdToGearName(): map<string, string> {
    map[
      // Atreides
      "FrontLineTactics" := "Front Line Tactics",
      "OffensiveMindset" := "Offensive Mindset",
      "ParryingArmguards" := "Parrying Armguards",
      "PranaBindu" := "Prana Bindu",
      "CrossfireTactics" := "Crossfire Tactics",
      "SniperRifles" := "Long Rifle",
      "AutomaticWeapons" := "Automatic Weapons",
      "WarMemoir" := "War Memoir",
      "DistractingFlashes" := "Distracting Flashes",
      "HeavyLoads" := "Heavy Loads",
      "WhistlingAmmo" := "Whistling Ammo",
      "KrakenProtocols" := "Kraken Protocols",
      "SupportingField" := "Supporting Field",
      "EvasionBooster" := "Evasion Booster",
      "OptmizedBedArrangement" := "Optimized Bed Arrangement",
      "CoverTactics" := "Cover Tactics",
      "LastStandProtocols" := "Last Stand Protocols",
      // Harkonnen
      "ScarringArmor" := "Scarring Armor",
      "MorbidClimax" := "Morbid Climax",
      "FixupKit" := "Fix-up Kit",
      "RedFluid" := "Red Fluid",
      "BloodThinner" := "Blood Thinner",
      "BirdSlayer" := "Bird Slayer",
      "ElaccaInjector" := "Elacca Injector",
      "AssassinArmors" := "Stealth Gear",
      "EndocrineArouser" := "Endocrine Arouser",
      "TortureTools" := "Torture Tools",
      "MountedExplosives" := "Mounted Explosives",
      "OpticCamouflage" := "Optic Camouflage",
      "VirtualBlackBox" := "Virtual Black Box",
      "HibernationBreastplate" := "Hibernation Breastplate",
      "MeatArmor" := "Meat Armor",
      // Fremen
      "DryTraining" := "Dry Training",
      "SandCover" := "Sand Cover",
      "ConfusingTactics" := "Confusing Tactics",
      "ShelterMaps" := "Shelter Maps",
      "CamouflageFabric" := "Camouflage Fabric",
      "ScatterGrenades" := "Scatter Grenades",
      "AntiPersonalShrapnels" := "Anti-personnel Shrapnels",
      "LoudBang" := "Loud Bang",
      "ElectronicScrambler" := "Electronic Scrambler",
      "ChasingStance" := "Chasing Stance",
      "FocusedMind" := "Focused Mind",
      "FoldingFrame" := "Folding Frame",
      "AmbushCamouflage" := "Ambush Camouflage",
      "ShadowScan" := "Shadow Scan",
      "PreLoadedWeapons" := "Pre-Loaded Weapons",
      "MakersEffigy" := "Maker's Effigy",
      "DevastatingStrikes" := "Devastating Strikes",
      "SelfSufficiency" := "Self-sufficiency",
      // Smugglers
      "GnarlyRecyclers" := "Gnarly Recyclers",
      "HeavyArmor" := "Heavy Armor",
      "DismantlingTools" := "Dismantling Tools",
      "ConcentratedToxins" := "Concentrated Toxins",
      "Bazookas" := "Bazooka",
      "TraumaticRepeater" := "Traumatic Repeater",
      "StingingGaz" := "Stinging Gas",
      "PropellingAmmo" := "Propelling Ammo",
      "RecursiveLense" := "Recursive Lens",
      "BarrelCleaner" := "Barrel Cleaner",
      "ShieldingStraightener" := "Shielding Straightener",
      "ShockDampener" := "Shock Dampener",
      "MotivationalCashbox" := "Motivational Cashbox",
      "RunningSandshoes" := "Running Sandshoes",
      "DualGuns" := "Dual Guns",
      // Corrino
      "SmallFormation" := "Small Formation",
      "SupportingTactics" := "Supporting Tactics",
      "LiveReformation" := "Live Reformation",
      "WideNozzle" := "Wide Nozzle",
      "ExoticCompounds" := "Exotic Compounds",
      "PhosphorusMix" := "Phosphorus Mix",
      "TerrifyingMask" := "Terrifying Mask",
      "LongCannons" := "Long Cannons",
      "IncendiaryAmmo" := "Incendiary Ammo",
      "FrighteningReputation" := "Frightening Reputation",
      "SardaukarCleaver" := "Sardaukar's Cleaver",
      "BattlefieldFrenzy" := "Battlefield Frenzy",
      // Ecaz
      "KnightlyProtector" := "Knightly Protector",
      "SoberingMedication" := "Sobering Medication",
      "PricklySpear" := "Prickly Spear",
      "JumpingBoot" := "Jumping Boot",
      "PersonalMantlet" := "Personal Mantlet",
      "DistractingLights" := "Distracting Lights",
      "MarchingColors" := "Marching Colors",
      "PropagandaMachine" := "Propaganda Machine",
      "BigBanner" := "Big Banner",
      "VowOfBravery" := "Vow of Bravery",
      "VowOfFervor" := "Vow of Fervor",
      "VowOfHeroism" := "Vow of Heroism",
      "VowOfHonor" := "Vow of Honor",
      // Vernius
      "MaterialPreProcessor" := "Material Pre-processor",
      "HeavyShielding" := "Heavy Shielding",
      "AnatomicalScanner" := "Anatomical Scanner",
      "SmartLens" := "Learning Transistors",
      "TinkeringGear" := "Tinkering Gear",
      "DIYKit" := "DIY Kit",
      "WarmMagnets" := "Strong Magnets",
      "DisruptiveField" := "Fractal Frequencies",
      "FeedbackGate" := "Feedback Gate",
      "SmartArmor" := "Deep Signals",
      "RepeaterNode" := "Repeater Node",
      "WorkShelter" := "Work Shelter",
      "MultiParts" := "Multi Parts",
      "MemoryImplant" := "Memory Implant"
    ]
  }

  /** The gear item an equipment id stands for: its mapped name looked up in the catalog. */
  function GearFor(table: map<string, string>, gearItems: seq<GearItem>, equipId: string): Option<GearItem> {
    if equipId in table && table[equipId] != "" then GearByName(gearItems, table[equipId]) else None
  }

  /** The `map` step: each equipment id's gear item, or none. */
  function Lookups(table: map<string, string>, gearItems: seq<GearItem>, equipment: seq<string>)
    : (r: seq<Option<GearItem>>)
    ensures |r| == |equipment|
    ensures forall i :: 0 <= i < |equipment| ==> r[i] == GearFor(table, gearItems, equipment[i])
  {
    seq(|equipment|, i requires 0 <= i < |equipment| => GearFor(table, gearItems, equipment[i]))
  }

  /**
   * The gear items of a list of equipment ids, in list order, unresolved ids
   * dropped; `table` maps an equipment id to a gear name.
   */
  function GearOptions(table: map<string, string>, gearItems: seq<GearItem>, equipment: seq<string>): seq<GearItem> {
    Somes(Lookups(table, gearItems, equipment))
  }

  /** `getGearOptionsForUnit`: map each equipment id to its gear item, keep the ones found. */
  function GearOptionsForUnit(gearItems: seq<GearItem>, unit: UnitData): (r: seq<GearItem>)
    ensures |r| <= |unit.equipment|
    ensures forall g :: g in r ==> g in gearItems
  {
    var table := EquipmentIdToGearName();
    GearOptionsLength(table, gearItems, unit.equipment);
    assert forall g :: g in GearOptions(table, gearItems, unit.equipment) ==> g in gearItems by {
      forall g | g in GearOptions(table, gearItems, unit.equipment) ensures g in gearItems {
        GearOptionsOrigin(table, gearItems, unit.equipment, g);
      }
    }
    GearOptions(table, gearItems, unit.equipment)
  }

  // The lemmas below hold for every table, `EquipmentIdToGearName` included.

  lemma LookupsAppend(table: map<string, string>, gearItems: seq<GearItem>, a: seq<string>, b: seq<string>)
    ensures Lookups(table, gearItems, a + b) == Lookups(table, gearItems, a) + Lookups(table, gearItems, b)
  {
  }

  /** At most one gear item per equipment id. */
  lemma GearOptionsLength(table: map<string, string>, gearItems: seq<GearItem>, equipment: seq<string>)
    ensures |GearOptions(table, gearItems, equipment)| <= |equipment|
  {
    SomesLength(Lookups(table, gearItems, equipment));
  }

  /** The options of a concatenation are the options of each part, in order. */
  lemma GearOptionsAppend(table: map<string, string>, gearItems: seq<GearItem>, a: seq<string>, b: seq<string>)
    ensures GearOptions(table, gearItems, a + b) == GearOptions(table, gearItems, a) + GearOptions(table, gearItems, b)
  {
    LookupsAppend(table, gearItems, a, b);
    SomesAppend(Lookups(table, gearItems, a), Lookups(table, gearItems, b));
  }

  lemma GearOptionsDrop(table: map<string, string>, gearItems: seq<GearItem>, a: seq<string>, e: string, b: seq<string>)
    requires GearFor(table, gearItems, e).None?
    ensures GearOptions(table, gearItems, a + [e] + b) == GearOptions(table, gearItems, a + b)
  {
    GearOptionsAppend(table, gearItems, a + [e], b);
    GearOptionsAppend(table, gearItems, a, [e]);
    GearOptionsAppend(table, gearItems, a, b);
    var one := Lookups(table, gearItems, [e]);
    assert one == [None];
    assert one[..|one| - 1] == [];
    assert Somes(one) == [];
  }

  /** An equipment id the table does not map gives no option, wherever it stands. */
  lemma UnmappedIdDropped(table: map<string, string>, gearItems: seq<GearItem>, a: seq<string>, e: string, b: seq<string>)
    requires e !in table
    ensures GearOptions(table, gearItems, a + [e] + b) == GearOptions(table, gearItems, a + b)
  {
    GearOptionsDrop(table, gearItems, a, e, b);
  }

  /** A mapped name the gear catalog does not hold gives no option either. */
  lemma MissingGearDropped(table: map<string, string>, gearItems: seq<GearItem>, a: seq<string>, e: string, b: seq<string>)
    requires e in table
    requires forall i :: 0 <= i < |gearItems| ==> gearItems[i].name != table[e]
    ensures GearOptions(table, gearItems, a + [e] + b) == GearOptions(table, gearItems, a + b)
  {
    GearOptionsDrop(table, gearItems, a, e, b);
  }

  /** Every option is a catalog item named as the table maps one of the equipment ids. */
  lemma GearOptionsOrigin(table: map<string, string>, gearItems: seq<GearItem>, equipment: seq<string>, g: GearItem)
    requires g in GearOptions(table, gearItems, equipment)
    ensures g in gearItems
    ensures exists j :: 0 <= j < |equipment| && equipment[j] in table && g.name == table[equipment[j]]
  {
    var os := Lookups(table, gearItems, equipment);
    SomesMembership(os, g);
    var j :| 0 <= j < |os| && os[j] == Some(g);
    assert GearFor(table, gearItems, equipment[j]) == Some(g);
  }

  /** When every equipment id resolves, the options are those items in equipment order. */
  lemma GearOptionsInOrder(table: map<string, string>, gearItems: seq<GearItem>, equipment: seq<string>)
    requires forall j :: 0 <= j < |equipment| ==> GearFor(table, gearItems, equipment[j]).Some?
    ensures |GearOptions(table, gearItems, equipment)| == |equipment|
    ensures forall j :: 0 <= j < |equipment| ==>
              GearOptions(table, gearItems, equipment)[j] == GearFor(table, gearItems, equipment[j]).value
  {
    SomesAllPresent(Lookups(table, gearItems, equipment));
  }
}
