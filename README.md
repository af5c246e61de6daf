# spicy-techs core, modelled in Dafny

spicy-techs is a planner for strategy-game builds: a main-base grid per
faction, a research order, units and their gear. This project models the
rules behind it and proves properties about them:

- **Base grids** (`MainBase`, `MainStore`, with `Factions` and `Json`).
  - The fixed layout of each faction, and the empty grid built from it.
  - The store holding the selected faction and one grid per faction, and its two edits.
  - The repair (`migrate`) applied to a persisted document when it is read back.
    The document is a small JSON value.
  - The list of building ids placed in the current grid.
- **Research steps and durations** (`TechCost`).
  - The steps a development's tier is worth.
  - The step total of a research order.
  - The long and short renderings of a day count as 30-day months and days.
- **Attribute-line tokenizer** (`AttributeLine`). The index-driven scanner that
  cuts a development's attribute line into bracket, value and normal segments.
- **Prerequisite chain** (`DevelopmentsCost`).
  - The effective requirement of a development: its own, or that of the one it replaces.
  - The roots-first list of prerequisites of a target.
- **Catalog rules** (`AvailableBuildings`, `OfferedBuildings`, `Armory`, `Units`).
  - The two building filters.
  - The faction-to-units key table, and the gear lookup by name.
  - The equipment-id-to-gear-name table and the gear options of a unit.
  - The hero-free unit lists and lookups.
- **Paths and small stateful helpers** (`Sound`, `AssetPaths`, `UiStore`).
  - The sound and icon path builders.
  - The alternating toggle sound.
  - The image preloader that requests each source once.
  - The four panel flags of the UI store.

Shared helpers:

- `Wrappers` holds `Option`.
- `Strings` holds prefix and suffix tests, ASCII digits, and the decimal rendering of
  `${n}` with the reader that inverts it.
- `Seqs` holds the order-preserving `filter`, `find`, `reverse`, `flatMap` and
  "keep the defined values" steps, with their lemmas.

Code that changes state in the source is imperative here:

- The stores, the toggle closure and the preloader are classes whose methods
  state their whole new state.
- The scanner, the chain walk, the step total loop, the migration check loop
  and the three nested used-id loops are methods with loop invariants.
- Each method is proved equal to a specification function. The lemmas are
  stated about those functions.

The catalogs are parameters: units, gear items, buildings, developments, and
the id-to-development maps. So are the hero predicate and the random index.
Audio playback and image loading are recorded in logs of the paths handed over.

## Model

| member | source | states |
|---|---|---|
| Factions.FactionLabels | src/store/index.ts:5 | `FACTION_LABELS`: seven entries, every faction among them, no faction twice |
| Factions.ParseFaction | src/store/index.ts:6 | a string read as a faction is that faction's label |
| Factions.LabelInjective | src/store/index.ts:6 | distinct factions have distinct labels |
| MainBase.MainBasesLayout | src/store/main-base.tsx:8-16 | `mainBasesLayout`: every faction's layout has three rows, and every group has between one and three slots |
| MainBase.InitializeMainBaseState | src/store/main-base.tsx:23-27 | the grid has the layout's rows, each row its groups, each group exactly the given number of cells, and every cell is null |
| MainBase.InitialStateUnique | src/store/main-base.tsx:23-27 | any grid that conforms to a layout and is all null is the initialized grid |
| MainBase.MainBasesState | src/store/main-base.tsx:29-33 | every faction has a grid, conforming to its layout and all null |
| MainStore.WithCell | src/store/index.ts:26-30 | the edited grid keeps every row, group and cell length; the edited cell holds the new id; every other cell is unchanged |
| MainStore.WithCellConforms | src/store/index.ts:26-30 | editing a cell keeps a grid conforming to its layout |
| MainStore.MainStore.constructor | src/store/index.ts:18-20 | the store starts with atreides selected and every faction's grid initialized |
| MainStore.MainStore.SetSelectedFaction | src/store/index.ts:19 | the selected faction becomes the argument; the grids are unchanged |
| MainStore.MainStore.SetMainBaseCell | src/store/index.ts:21-36 | only the selected faction's grid changes, by exactly one cell; the other grids and the selected faction are unchanged |
| MainStore.StateJson | src/store/main-base.tsx:29-33 | the persisted grid table is an object holding each faction's grid under its label |
| MainStore.DefaultMainBaseStateUsable | src/store/index.ts:44 | the default grids are an object with an array under every faction label |
| Json.IndexMap | src/store/index.ts:49 | the decimal index keys `0`, `1`, … of a list, each holding its element, and no other key |
| Json.Spread | src/store/index.ts:49 | `{...v}` copies an object's fields, an array's elements and a string's characters under their decimal index, and nothing else |
| MainStore.Migrated | src/store/index.ts:41-59 | the repair `migrate` performs; whatever the input and version, the result is truthy and holds a truthy object of grids with an array under every faction label; MigrateUnchangedIff, MigrateIdempotent and ResetKeepsOtherFields relate it to its input |
| MainStore.Migrate | src/store/index.ts:41-59 | the early returns and the per-faction check loop compute the repair `Migrated` |
| MainStore.MigrateUnchangedIff | src/store/index.ts:48-58 | for version other than 0, the input comes back unchanged if and only if its grids pass the checks |
| MainStore.MigrateIdempotent | src/store/index.ts:41-59 | migrating an already migrated document, at any nonzero version, changes nothing |
| MainStore.ResetKeepsOtherFields | src/store/index.ts:48-55 | when the grids are rejected, every other field of the input object survives and the grids become the defaults |
| MainStore.UsedIds | src/store/index.ts:76-97 | the ids `useUsedBuildingIds` pushes: a value is used if and only if it is non-null and sits in an array group of an array row of an array grid |
| MainStore.UsedBuildingIds | src/store/index.ts:76-97 | the nested loops compute `UsedIds`, the non-null cells in row, group, cell order |
| MainStore.RowBuildingIds | src/store/index.ts:85-95 | the loop over one row's groups yields that row's non-null cells, nothing for a non-array row |
| MainStore.GroupBuildingIds | src/store/index.ts:87-93 | the loop over one group's cells yields its non-null cells, nothing for a non-array group |
| MainStore.GroupIdsMembership | src/store/index.ts:87-93 | a value is contributed by a group if and only if the group is an array holding it and it is not null |
| MainStore.RowIdsMembership | src/store/index.ts:85-95 | a value is contributed by a row if and only if it is non-null and in an array group of that array row |
| MainStore.EmptyGridUsesNothing | src/store/index.ts:85-97 | an all-null grid uses no building |
| MainStore.InitialGridUsesNothing | src/store/main-base.tsx:23-27 | a freshly initialized grid uses no building |
| MainStore.GroupIdsUpdate | src/store/index.ts:26-27 | replacing one cell of a group changes the group's used ids by exactly the old and new cell values |
| MainStore.RowIdsUpdate | src/store/index.ts:28 | replacing one group of a row changes the row's used ids by exactly the old and new group's ids |
| MainStore.GridIdsUpdate | src/store/index.ts:28-29 | replacing one row of a grid changes the grid's used ids by exactly the old and new row's ids |
| MainStore.WithCellUsedIds | src/store/index.ts:21-36 | editing one cell changes the multiset of used ids by exactly the old and new cell values |
| TechCost.StepsForTier | src/utils/techCost.ts:32-35 | steps lie between 2 and 5, are tier + 2 for tiers 0 to 3, 2 below and 5 above |
| TechCost.TotalStepsResearched | src/utils/techCost.ts:57-67 | the loop computes `StepsOf`: each known id adds its tier's steps, unknown ids add nothing |
| TechCost.StepsOfAppend | src/utils/techCost.ts:57-67 | the total and the known count of a concatenation are the sums over the parts |
| TechCost.StepsOfBounds | src/utils/techCost.ts:61-66 | with k known ids the total lies between 2k and 5k |
| TechCost.UnknownIdIgnored | src/utils/techCost.ts:63-64 | inserting an unknown id anywhere leaves the total unchanged |
| TechCost.FormatDaysAsMonthsAndDays | src/utils/techCost.ts:114-126 | `formatDaysAsMonthsAndDays`: the long text of a non-negative day count reads back as that count, so the rendering loses nothing |
| TechCost.FormatDaysAsMonthsAndDaysShort | src/utils/techCost.ts:114-137 | `formatDaysAsMonthsAndDaysShort`: the short text of a non-negative day count reads back as that count |
| TechCost.MonthsAndDaysDecompose | src/utils/techCost.ts:114-122 | for a non-negative count, months × 30 + days recomposes it, with days below 30 |
| TechCost.FormatCases | src/utils/techCost.ts:120-126 | below 30 days the text is "n day(s)"; on whole months "m month(s)"; otherwise the months text, a space and the days text; singular exactly at 1 |
| TechCost.FormatShortCases | src/utils/techCost.ts:131-137 | the short form is "nd", "mm" or "mm nd" under the same split |
| TechCost.LongFormRoundTrip | src/utils/techCost.ts:123-125 | reading any long months-and-days text back gives months × 30 + days |
| TechCost.ShortFormRoundTrip | src/utils/techCost.ts:134-136 | reading any short months-and-days text back gives months × 30 + days |
| TechCost.FormatInjective | src/utils/techCost.ts:120-137 | distinct non-negative day counts render differently, in either form |
| AttributeLine.IndexOf | src/components/Developments/DevelopmentDetailTooltip.tsx:67 | `indexOf` gives the first index at or after the start holding the character, or -1 when there is none |
| AttributeLine.IndexOfPair | src/components/Developments/DevelopmentDetailTooltip.tsx:78 | `indexOf("::")` gives the first "::" at or after the start, or -1 when there is none |
| AttributeLine.DigitEnd | src/components/Developments/DevelopmentDetailTooltip.tsx:86-87 | the digit run from i is maximal |
| AttributeLine.NormalEnd | src/components/Developments/DevelopmentDetailTooltip.tsx:97-109 | the plain-text run from i is maximal: it stops at the first stop character or "::" |
| AttributeLine.Step | src/components/Developments/DevelopmentDetailTooltip.tsx:65-114 | one pass of the scanning loop strictly advances the index, stays within the line, and pushes at most one segment, so the loop terminates |
| AttributeLine.Tokenize | src/components/Developments/DevelopmentDetailTooltip.tsx:62-116 | every segment `parseAttributeLine` returns is well formed: bracket texts hold no "]"; values are digit runs, one operator, or "::…::" closed at the first later "::"; normal texts are "[" or non-empty runs free of "[", digits, operators and "::" |
| AttributeLine.ParseAttributeLine | src/components/Developments/DevelopmentDetailTooltip.tsx:62-116 | the scanning loop returns `Tokenize(line)` |
| AttributeLine.ScanSegment | src/components/Developments/DevelopmentDetailTooltip.tsx:66-113 | one pass of the loop body pushes and advances exactly as `Step` says |
| AttributeLine.ScanRun | src/components/Developments/DevelopmentDetailTooltip.tsx:85-113 | the digit, operator and text branches push and advance as `Step` says |
| AttributeLine.ScanDigits | src/components/Developments/DevelopmentDetailTooltip.tsx:86-87 | the inner digit loop stops at the end of the maximal digit run |
| AttributeLine.ScanText | src/components/Developments/DevelopmentDetailTooltip.tsx:97-109 | the inner text loop stops at the end of the maximal plain-text run |
| AttributeLine.StepWellFormed | src/components/Developments/DevelopmentDetailTooltip.tsx:65-114 | the segment one pass pushes has the shape its kind promises |
| AttributeLine.SegmentsWellFormed | src/components/Developments/DevelopmentDetailTooltip.tsx:65-114 | every segment pushed from any start index is well formed |
| AttributeLine.EmptyLine | src/components/Developments/DevelopmentDetailTooltip.tsx:62-65 | the empty line gives no segments |
| AttributeLine.ClosedBracket | src/components/Developments/DevelopmentDetailTooltip.tsx:66-75 | "[" closed by the first later "]" gives one bracket segment of the text strictly between them, and scanning resumes after the "]" |
| AttributeLine.UnclosedBracket | src/components/Developments/DevelopmentDetailTooltip.tsx:67-70 | "[" with no later "]" gives the normal segment "[" alone |
| AttributeLine.ClosedPair | src/components/Developments/DevelopmentDetailTooltip.tsx:77-83 | "::" closed by a later "::" gives one value segment with both delimiters, and scanning resumes after the closing one |
| AttributeLine.UnclosedPair | src/components/Developments/DevelopmentDetailTooltip.tsx:77-113 | an unclosed "::" skips its first ':' without pushing anything |
| AttributeLine.EmitsNothingIff | src/components/Developments/DevelopmentDetailTooltip.tsx:97-113 | a pass pushes nothing if and only if it starts at an unclosed "::" |
| AttributeLine.DigitRun | src/components/Developments/DevelopmentDetailTooltip.tsx:85-91 | a maximal digit run is one value segment |
| AttributeLine.Operator | src/components/Developments/DevelopmentDetailTooltip.tsx:92-96 | each of + x * % is a one-character value segment |
| AttributeLine.NormalRun | src/components/Developments/DevelopmentDetailTooltip.tsx:97-112 | a maximal plain-text run is one normal segment |
| AttributeLine.RenderSegmentsFrom | src/components/Developments/DevelopmentDetailTooltip.tsx:65-114 | for a line without "::", the rendered segments from index i are exactly the rest of the line from i |
| AttributeLine.RenderTokenize | src/components/Developments/DevelopmentDetailTooltip.tsx:62-116 | for a line without "::", the segment texts, with bracket texts re-wrapped in "[" and "]", concatenate to the line |
| DevelopmentsCost.EffectiveRequires | src/components/Developments/developmentsCostUtils.ts:17-24 | a non-empty own requirement wins; otherwise the replaced development's requirement, as stored, if that development is known; otherwise none |
| DevelopmentsCost.GetMinimumPathOrder | src/components/Developments/developmentsCostUtils.ts:31-44 | the loop and the final reverse compute `MinimumPathOrder`, the reversed walk of effective requirements |
| DevelopmentsCost.MinimumPathOrder | src/components/Developments/developmentsCostUtils.ts:31-44 | what `getMinimumPathOrder` returns: [] for an unknown target; otherwise a roots-first prerequisite path ending at the target's requirement; the target itself and "" never appear |
| DevelopmentsCost.WalkIsWalk | src/components/Developments/developmentsCostUtils.ts:37-42 | the pushed ids start at the target's requirement, each requires the previous one, the walk ends at an unknown id or at one without a requirement, and every id is non-empty |
| DevelopmentsCost.IsWalkUnique | src/components/Developments/developmentsCostUtils.ts:37-42 | the walk is the only sequence with that link-by-link description |
| DevelopmentsCost.ReverseWalk | src/components/Developments/developmentsCostUtils.ts:43 | a sequence is a walk if and only if its reverse is a roots-first prerequisite path |
| DevelopmentsCost.PrerequisitePathUnique | src/components/Developments/developmentsCostUtils.ts:31-44 | any roots-first prerequisite path of a known target is the one returned |
| AvailableBuildings.AvailableBuildingsForFaction | src/components/MainBaseBuildingsSelector/index.tsx:25-55 | the result is a subsequence of the catalog; no used id; exclusive buildings only for their own faction; no generic with an exclusive replacement for the faction; every unused generic without one, and every unused exclusive of the faction, is kept |
| OfferedBuildings.OfferedBuildings | src/components/MainBase/MainBaseBuildingsSelector/index.tsx:28-33 | a subsequence of the catalog, never excluded from the faction, never only for another faction; a catalog building is offered if and only if both tests pass, so one with neither field is always offered |
| Armory.FactionToUnitsKeyInjective | src/components/Armory/armory-utils.ts:24-32 | every faction has its own units key |
| Armory.UnitsForFaction | src/components/Armory/armory-utils.ts:35-38 | the faction's catalog list, or [] when its key is missing |
| Armory.GearByName | src/components/Armory/armory-utils.ts:41-43 | the first gear item with the name, or none exactly when no item has it |
| Armory.FactionToUnitsKey | src/components/Armory/armory-utils.ts:24-32 | `factionToUnitsKey`: the faction's label with an upper-case initial, with a final "s" for the smugglers |
| Armory.EquipmentIdToGearName | src/components/Armory/armory-utils.ts:46-158 | `equipmentIdToGearName`: the equipment-id-to-gear-name table, entry for entry |
| Armory.GearOptionsForUnit | src/components/Armory/armory-utils.ts:161-169 | at most one option per equipment id, each a catalog item; GearOptionsInOrder, GearOptionsDrop and GearOptionsOrigin state the rest |
| Armory.GearOptionsLength | src/components/Armory/armory-utils.ts:161-169 | at most one option per equipment id |
| Armory.GearOptionsAppend | src/components/Armory/armory-utils.ts:161-169 | the options of a concatenation are the options of the parts, in order |
| Armory.GearOptionsDrop | src/components/Armory/armory-utils.ts:163-168 | an id that resolves to no gear contributes nothing wherever it stands |
| Armory.UnmappedIdDropped | src/components/Armory/armory-utils.ts:164-165 | an id missing from the table is dropped |
| Armory.MissingGearDropped | src/components/Armory/armory-utils.ts:166-168 | an id whose gear name no catalog item has is dropped |
| Armory.GearOptionsOrigin | src/components/Armory/armory-utils.ts:161-168 | every option is a catalog item whose name is the table's name for one of the unit's equipment ids |
| Armory.GearOptionsInOrder | src/components/Armory/armory-utils.ts:161-169 | when every id resolves, the options are exactly those items in equipment order |
| Units.CatalogUnits | src/components/Units/units-utils.ts:24-26 | the faction's catalog list under its units key, or [] when the key is missing |
| Units.RegularUnitsForFaction | src/components/Units/units-utils.ts:24-28 | a subsequence of the faction's catalog list, [] when the key is missing, with no hero, keeping every non-hero |
| Units.UnitById | src/components/Units/units-utils.ts:31-34 | a found unit has the id, is no hero and is the first such unit; none exactly when no non-hero has the id |
| Units.UnitByName | src/components/Units/units-utils.ts:37-40 | a found unit has the name, is no hero and is the first such unit; none exactly when no non-hero has the name |
| Sound.GetSoundPath | src/utils/sound.ts:6-9 | the path starts with "/" and ends with ".mp3" |
| Sound.GetSoundPathFixedPoints | src/utils/sound.ts:6-9 | a name is returned unchanged if and only if it starts with "/" and ends with ".mp3" |
| Sound.GetSoundPathIdempotent | src/utils/sound.ts:7-8 | applying it twice is applying it once |
| Sound.BareName | src/utils/sound.ts:7-8 | a name without "/" in front and ".mp3" at the end becomes "/sounds/" + name + ".mp3" |
| Sound.PlayPath | src/utils/sound.ts:18-19 | an argument starting with "/" is played verbatim; every played path starts with "/"; ".mp3" is kept |
| Sound.AbsolutePlayedVerbatim | src/utils/sound.ts:19 | an absolute argument without ".mp3" is played as given, which is not what `getSoundPath` would give |
| Sound.ToggleSound.constructor | src/utils/sound.ts:29-30 | a new toggle has played nothing and plays A next |
| Sound.ToggleSound.Call | src/utils/sound.ts:31-34 | each call plays A on call 0, 2, 4, … and B on call 1, 3, 5, …, and flips the flag |
| Sound.SeparateToggles | src/utils/sound.ts:29-35 | calling one toggle leaves another's log and flag unchanged |
| Sound.RandomSoundPlayed | src/utils/sound.ts:40-44 | nothing is played exactly when the list is empty; otherwise the path `playSound` derives from one of its entries |
| AssetPaths.FactionIconPath | src/utils/assetPaths.ts:9-11 | the faction icon directory, "/", the faction's label and ".png" |
| AssetPaths.FactionIconPathInjective | src/utils/assetPaths.ts:9-11 | distinct factions have distinct icons |
| AssetPaths.Slug | src/utils/assetPaths.ts:14 | same length; every space becomes "_", every other character is lower-cased; no space or capital remains |
| AssetPaths.SlugIdempotent | src/utils/assetPaths.ts:14 | a slug is its own slug |
| AssetPaths.BuildingIconPath | src/utils/assetPaths.ts:13-15 | the main-base icon directory, "/", the slug of the name and ".png" |
| AssetPaths.GearIconPath | src/utils/assetPaths.ts:17-19 | the gear icon directory, "/" and the file name verbatim |
| AssetPaths.Distinct | src/utils/assetPaths.ts:56 | `new Set(images)` iterated in insertion order: no duplicates, the same members, and values ordered by their first occurrence in the input |
| AssetPaths.ImagePreloader.IsImagePreloaded | src/utils/assetPaths.ts:33-35 | `isImagePreloaded`: in a consistent preloader, a source counts as preloaded exactly when it has been requested |
| AssetPaths.ImagePreloader.constructor | src/utils/assetPaths.ts:22 | the preloaded set starts empty, with no request made |
| AssetPaths.ImagePreloader.PreloadImage | src/utils/assetPaths.ts:25-35 | afterwards the source is preloaded; the set only grows; an image is requested only the first time |
| AssetPaths.ImagePreloader.PreloadEach | src/utils/assetPaths.ts:44-46 | preloading a list adds exactly its members to the set and never retracts a request |
| AssetPaths.ImagePreloader.InitPreload | src/utils/assetPaths.ts:42-60 | the set gains exactly the faction icons, the building icons and the distinct gear icons |
| AssetPaths.PreloadSourcesCover | src/utils/assetPaths.ts:42-60 | every faction icon, every building's icon and every gear item's icon is among the requested sources |
| AssetPaths.GearIconsDistinct | src/utils/assetPaths.ts:54-59 | each gear image is requested once, however many items share it |
| UiStore.WithOpen | src/store/ui.ts:27-39 | setting a flag changes that flag to the value and leaves the other three |
| UiStore.ToggleTwice | src/store/ui.ts:30-39 | toggling the same flag twice restores the state |
| UiStore.SetSameValue | src/store/ui.ts:29-38 | setting a flag to its current value changes nothing |
| UiStore.UIStore.constructor | src/store/ui.ts:28-37 | all four panels start open |
| UiStore.UIStore.SetSidebarOpen | src/store/ui.ts:29 | only the sidebar flag changes, to the argument |
| UiStore.UIStore.ToggleSidebar | src/store/ui.ts:30 | only the sidebar flag changes, to its negation |
| UiStore.UIStore.SetMainBaseOpen | src/store/ui.ts:32 | only the main-base flag changes, to the argument |
| UiStore.UIStore.ToggleMainBase | src/store/ui.ts:33 | only the main-base flag changes, to its negation |
| UiStore.UIStore.SetArmoryOpen | src/store/ui.ts:35 | only the armory flag changes, to the argument |
| UiStore.UIStore.ToggleArmory | src/store/ui.ts:36 | only the armory flag changes, to its negation |
| UiStore.UIStore.SetUnitsOpen | src/store/ui.ts:38 | only the units flag changes, to the argument |
| UiStore.UIStore.ToggleUnits | src/store/ui.ts:39 | only the units flag changes, to its negation |

## Left out

- Floating-point cost rules are not modelled: `developmentCost`, `costToResearchNext`, `totalCostOfOrder`, `costToDays`, the tooltip's rounded day estimates, and the default volume.
- The zustand `create`/`persist` wiring is not modelled: storage keys, the store version number and React hooks.
  - `migrate` and the store operations are modelled directly.
  - The current grid that `useUsedBuildingIds` reads is passed in as a JSON value.
- src/store/index.ts defines only `selectedFaction`, `mainBaseState`, their two setters, `migrate` and `useUsedBuildingIds`.
  - The components also read saved builds, `loadBuild`, `deleteBuild`, `renameBuild`, unit slots, faction switching and a share codec from the store.
  - Those are defined nowhere in src/store/index.ts and are not modelled.
- The in-game calendar helpers `daysToAGDate`, `agDateToTotalDays`, `formatAGDate` and `AG_START_YEAR` are not modelled. Components import them from src/utils/techCost.ts, which does not define them.
- JSX rendering, the animations and the fonts are not modelled.
- Audio playback, `new Image()` and clipboard or network calls are side effects.
  - They are not modelled.
  - The sound and preload operations instead append the path they would hand over to a log.
- The JSON catalogs are parameters.
  - This covers units, gear, buildings, developments and the id maps.
  - Gear attribute texts and building attributes are omitted.
- `isHeroId` and `Math.random` are parameters: a predicate and an index into the list.
- Json numbers are integers. The migration only tests truthiness of numbers.
- src/store/index.ts:40-59 migrates at version 1 and checks only the grids. No later schema fields and no per-version repair steps are modelled.
- TechCost.StepsForTier: tiers are integers, so the `Math.floor` of a fractional tier is not modelled.
- TechCost.FormatDaysAsMonthsAndDays: the read-back is proved for non-negative day counts only.
  - Negative counts are rendered as the source renders them, via the JavaScript remainder and floor division.
  - No inverse is claimed for them.
- MainStore.MainStore.SetMainBaseCell: requires the row, group and cell indices to be in range. Out of range, JavaScript would grow the group array or fail on a missing row.
- MainStore.UsedBuildingIds: takes the current faction's grid as a value. The hook's read of the store is left out.
- DevelopmentsCost.GetMinimumPathOrder: requires a ghost rank on the ids of the target's requirement chain that decreases along each of its links.
  - Such a rank exists exactly when that chain has no cycle. On a cyclic chain the source loops forever.
  - Cycles elsewhere in the map are allowed, as in the source.
- AttributeLine.RenderTokenize: stated for lines without "::".
  - A closed "::…::" keeps its delimiters.
  - An unclosed "::" drops its first ':' (AttributeLine.UnclosedPair).
  - The general reassembly is therefore not stated.
- AssetPaths.Slug: lower-cases ASCII letters only. Unicode case mapping is not modelled.
- Armory.GearOptionsForUnit: the gear table is a map literal, so inherited object-prototype keys are not modelled. Those keys resolve to no gear item in any case.
- The second building selector receives `usedBuildingIds` but does not read it, so OfferedBuildings.OfferedBuildings takes no such parameter.
