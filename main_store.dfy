/**
 * The main build store: the selected faction, one base grid per faction, the
 * edits the store exposes, the repair applied to a persisted document when it
 * is read back, and the list of building ids placed in the current base.
 */
module MainStore {

  import opened Wrappers
  import opened Factions
  import opened MainBase
  import opened Json
  import Seqs

  // ---------------------------------------------------------------------
  // Editing one cell of a grid
  // ---------------------------------------------------------------------

  predicate InRange(g: BaseState, r: nat, gi: nat, c: nat) {
    r < |g| && gi < |g[r]| && c < |g[r][gi]|
  }

  /** `a` and `b` have the same rows, groups and cells. */
  ghost predicate SameShape(a: BaseState, b: BaseState) {
    && |a| == |b|
    && (forall i :: 0 <= i < |a| ==> |a[i]| == |b[i]|)
    && (forall i, j :: 0 <= i < |a| && 0 <= j < |a[i]| ==> |a[i][j]| == |b[i][j]|)
  }

  /** The grid `g` with cell (r, gi, c) replaced by `v`. */
  function WithCell(g: BaseState, r: nat, gi: nat, c: nat, v: Cell): (u: BaseState)
    requires InRange(g, r, gi, c)
    ensures SameShape(g, u)
    ensures u[r][gi][c] == v
    ensures forall i: nat, j: nat, k: nat :: InRange(g, i, j, k) && (i, j, k) != (r, gi, c) ==> u[i][j][k] == g[i][j][k]
  {
    g[r := g[r][gi := g[r][gi][c := v]]]
  }

  /** An edit keeps a grid conforming to its layout. */
  lemma WithCellConforms(g: BaseState, layout: Layout, r: nat, gi: nat, c: nat, v: Cell)
    requires InRange(g, r, gi, c) && Conforms(g, layout)
    ensures Conforms(WithCell(g, r, gi, c, v), layout)
  {
  }

  // ---------------------------------------------------------------------
  // The store
  // ---------------------------------------------------------------------

  class MainStore {
    var selectedFaction: Faction
    var mainBaseState: map<Faction, BaseState>

    /**
     * Every faction has a grid, as `Record<FactionLabel, ...>` promises. The
     * selected faction is named on its own: the quantifier alone gives the
     * verifier no term to instantiate it at `selectedFaction`.
     */
    ghost predicate Valid()
      reads this
    {
      selectedFaction in mainBaseState && forall f :: f in mainBaseState
    }

    /** The store's initial state: atreides selected, every grid empty. */
    constructor ()
      ensures Valid()
      ensures selectedFaction == Atreides && mainBaseState == MainBasesState()
    {
      selectedFaction := Atreides;
      mainBaseState := MainBasesState();
    }

    /** `setSelectedFaction`. */
    method SetSelectedFaction(faction: Faction)
      requires Valid()
      modifies this
      ensures Valid()
      ensures selectedFaction == faction && mainBaseState == old(mainBaseState)
    {
      selectedFaction := faction;
    }

    /**
     * `setMainBaseCell`: replaces one cell of the selected faction's grid;
     * the other factions' grids and the selected faction stay as they were.
     */
    method SetMainBaseCell(rowIndex: nat, groupIndex: nat, cellIndex: nat, buildingId: Cell)
      requires Valid()
      requires InRange(mainBaseState[selectedFaction], rowIndex, groupIndex, cellIndex)
      modifies this
      ensures Valid()
      ensures selectedFaction == old(selectedFaction)
      ensures mainBaseState == old(mainBaseState)[selectedFaction :=
                WithCell(old(mainBaseState)[selectedFaction], rowIndex, groupIndex, cellIndex, buildingId)]
    {
      var factionState := mainBaseState[selectedFaction];
      var row := factionState[rowIndex];
      var group := row[groupIndex];
      var newGroup := group[cellIndex := buildingId];
      var newRow := row[groupIndex := newGroup];
      var newFactionState := factionState[rowIndex := newRow];
      mainBaseState := mainBaseState[selectedFaction := newFactionState];
    }
  }

  // ---------------------------------------------------------------------
  // Grids as the JSON the store persists
  // ---------------------------------------------------------------------

  function CellJson(c: Cell): Json {
    match c
    case None => JNull
    case Some(id) => JStr(id)
  }

  function GroupJson(cells: seq<Cell>): Json {
    JArr(seq(|cells|, k requires 0 <= k < |cells| => CellJson(cells[k])))
  }

  function RowJson(groups: seq<seq<Cell>>): Json {
    JArr(seq(|groups|, j requires 0 <= j < |groups| => GroupJson(groups[j])))
  }

  function GridJson(g: BaseState): Json {
    JArr(seq(|g|, i requires 0 <= i < |g| => RowJson(g[i])))
  }

  /** A per-faction table of grids as the object keyed by faction label. */
  function StateJson(m: map<Faction, BaseState>): (j: Json)
    ensures j.JObj?
    ensures forall f :: f in m ==> Label(f) in j.fields && j.fields[Label(f)] == GridJson(m[f])
  {
    var fields := map f | f in m :: Label(f) := GridJson(m[f]);
    forall f | f in m ensures Label(f) in fields && fields[Label(f)] == GridJson(m[f]) {
      forall g | g in m && Label(g) == Label(f) ensures g == f {
        LabelInjective(g, f);
      }
    }
    JObj(fields)
  }

  // ---------------------------------------------------------------------
  // migrate
  // ---------------------------------------------------------------------

  const MainBaseKey: string := "mainBaseState"
  const SelectedFactionKey: string := "selectedFaction"

  /** The default grids, `mainBasesState`, as persisted. */
  function DefaultMainBaseState(): Json {
    StateJson(MainBasesState())
  }

  /** What the migration may use as the default grids: an object holding an array for every faction. */
  ghost predicate UsableDefaults(defaults: Json) {
    defaults.JObj? && FactionEntriesAreArrays(defaults)
  }

  /** The persisted default grids are usable defaults. */
  lemma DefaultMainBaseStateUsable()
    ensures UsableDefaults(DefaultMainBaseState())
  {
    var m := MainBasesState();
    forall f: Faction ensures IsArrayAt(DefaultMainBaseState(), Label(f)) {
      assert f in m;
    }
  }

  /** A full fresh document, its grids `defaults`. */
  function FreshDocument(defaults: Json): Json {
    JObj(map[SelectedFactionKey := JStr(Label(Atreides)), MainBaseKey := defaults])
  }

  /** `{ ...state, mainBaseState: defaults }`. */
  function WithDefaultMainBase(state: Json, defaults: Json): Json {
    JObj(Spread(state)[MainBaseKey := defaults])
  }

  /** Every faction label names an array in `mainBase`. */
  ghost predicate FactionEntriesAreArrays(mainBase: Json) {
    forall f: Faction :: IsArrayAt(mainBase, Label(f))
  }

  /** A document whose grids `migrate` trusts. */
  ghost predicate Trusted(state: Json) {
    && Truthy(state)
    && Get(state, MainBaseKey).Some?
    && Truthy(Get(state, MainBaseKey).value)
    && TypeofObject(Get(state, MainBaseKey).value)
    && FactionEntriesAreArrays(Get(state, MainBaseKey).value)
  }

  /**
   * What `migrate` returns, the default grids being `defaults`: a fresh
   * document for version 0 or no data; the input with its grids reset when
   * they are missing, not an object, or some faction's entry is not an array;
   * otherwise the input itself. Whatever it is given, the result holds grids
   * that `migrate` trusts.
   */
  ghost function Migrated(defaults: Json, persisted: Option<Json>, version: int): (r: Json)
    ensures UsableDefaults(defaults) ==> Trusted(r)
  {
    if version == 0 || persisted.None? || !Truthy(persisted.value) then FreshDocument(defaults)
    else
      var state := persisted.value;
      var mainBase := Get(state, MainBaseKey);
      if mainBase.None? || !Truthy(mainBase.value) || !TypeofObject(mainBase.value) then
        WithDefaultMainBase(state, defaults)
      else if !FactionEntriesAreArrays(mainBase.value) then WithDefaultMainBase(state, defaults)
      else state
  }

  /** `migrate`: the repair of a persisted document, the default grids being `mainBasesState`. */
  method Migrate(persisted: Option<Json>, version: int) returns (r: Json)
    ensures r == Migrated(DefaultMainBaseState(), persisted, version)
  {
    r := MigrateWith(DefaultMainBaseState(), persisted, version);
  }

  /** The body of `migrate`, with its early returns and its check of every faction. */
  method MigrateWith(defaults: Json, persisted: Option<Json>, version: int) returns (r: Json)
    ensures r == Migrated(defaults, persisted, version)
  {
    if version == 0 || persisted.None? || !Truthy(persisted.value) {
      return FreshDocument(defaults);
    }
    var state := persisted.value;
    var mainBase := Get(state, MainBaseKey);
    if mainBase.None? || !Truthy(mainBase.value) || !TypeofObject(mainBase.value) {
      return WithDefaultMainBase(state, defaults);
    }
    for i := 0 to |FactionLabels()|
      invariant forall k :: 0 <= k < i ==> IsArrayAt(mainBase.value, Label(FactionLabels()[k]))
    {
      var factionState := Get(mainBase.value, Label(FactionLabels()[i]));
      if !(factionState.Some? && factionState.value.JArr?) {
        return WithDefaultMainBase(state, defaults);
      }
    }
    forall f: Faction ensures IsArrayAt(mainBase.value, Label(f)) {
      assert f in FactionLabels();
    }
    return state;
  }

  /**
   * For a version other than 0, `migrate` returns its input unchanged exactly
   * when it trusts the input's grids.
   */
  lemma MigrateUnchangedIff(defaults: Json, state: Json, version: int)
    requires UsableDefaults(defaults) && version != 0
    ensures Migrated(defaults, Some(state), version) == state <==> Trusted(state)
  {
  }

  /** Migrating a migrated document changes nothing. */
  lemma MigrateIdempotent(defaults: Json, persisted: Option<Json>, version: int, nextVersion: int)
    requires UsableDefaults(defaults) && nextVersion != 0
    ensures Migrated(defaults, Some(Migrated(defaults, persisted, version)), nextVersion)
            == Migrated(defaults, persisted, version)
  {
    MigrateUnchangedIff(defaults, Migrated(defaults, persisted, version), nextVersion);
  }

  /**
   * When the grids are reset, every other property of the input object
   * survives and the grids are the defaults.
   */
  lemma ResetKeepsOtherFields(defaults: Json, state: Json, version: int, key: string)
    requires version != 0 && Truthy(state) && !Trusted(state)
    requires state.JObj? && key in state.fields && key != MainBaseKey
    ensures Migrated(defaults, Some(state), version).JObj?
    ensures key in Migrated(defaults, Some(state), version).fields
    ensures Migrated(defaults, Some(state), version).fields[key] == state.fields[key]
    ensures Migrated(defaults, Some(state), version).fields[MainBaseKey] == defaults
  {
    var mainBase := Get(state, MainBaseKey);
    if mainBase.None? || !Truthy(mainBase.value) || !TypeofObject(mainBase.value) {
      assert Migrated(defaults, Some(state), version) == WithDefaultMainBase(state, defaults);
    } else {
      assert !FactionEntriesAreArrays(mainBase.value);
      assert Migrated(defaults, Some(state), version) == WithDefaultMainBase(state, defaults);
    }
  }

  // ---------------------------------------------------------------------
  // useUsedBuildingIds
  // ---------------------------------------------------------------------

  /** The non-null cells of one group, in order. */
  function CellIds(cells: seq<Json>): seq<Json> {
    Seqs.FlatMap(cells, CellId)
  }

  function CellId(cell: Json): seq<Json> {
    if cell != JNull then [cell] else []
  }

  /** What one group contributes: its non-null cells, nothing if it is not an array. */
  function GroupIds(group: Json): seq<Json> {
    if group.JArr? then CellIds(group.items) else []
  }

  /** What one row contributes: its groups' cells, nothing if it is not an array. */
  function RowIds(row: Json): seq<Json> {
    if row.JArr? then Seqs.FlatMap(row.items, GroupIds) else []
  }

  /**
   * The non-null cells of a faction grid in row, group, cell order: a value
   * is used exactly when it is non-null and sits in an array group of an
   * array row of an array grid.
   */
  function UsedIds(factionState: Json): (ids: seq<Json>)
    ensures forall x :: x in ids <==>
              x != JNull && factionState.JArr? &&
              exists i :: 0 <= i < |factionState.items| && InRow(factionState.items[i], x)
  {
    if factionState.JArr? then
      RowsIdsMembership(factionState.items);
      Seqs.FlatMap(factionState.items, RowIds)
    else []
  }

  /** `useUsedBuildingIds` on the current faction's grid: the loop over rows. */
  method UsedBuildingIds(factionState: Json) returns (usedIds: seq<Json>)
    ensures usedIds == UsedIds(factionState)
  {
    usedIds := [];
    if !factionState.JArr? {
      return;
    }
    var rows := factionState.items;
    var i := 0;
    while i < |rows|
      invariant 0 <= i <= |rows|
      invariant usedIds == Seqs.FlatMap(rows[..i], RowIds)
    {
      var fromRow := RowBuildingIds(rows[i]);
      usedIds := usedIds + fromRow;
      Seqs.FlatMapSnoc(rows, i, RowIds);
      i := i + 1;
    }
    assert rows[..i] == rows;
  }

  /** The loop over the groups of one row. */
  method RowBuildingIds(row: Json) returns (ids: seq<Json>)
    ensures ids == RowIds(row)
  {
    ids := [];
    if !row.JArr? {
      return;
    }
    var groups := row.items;
    var j := 0;
    while j < |groups|
      invariant 0 <= j <= |groups|
      invariant ids == Seqs.FlatMap(groups[..j], GroupIds)
    {
      var fromGroup := GroupBuildingIds(groups[j]);
      ids := ids + fromGroup;
      Seqs.FlatMapSnoc(groups, j, GroupIds);
      j := j + 1;
    }
    assert groups[..j] == groups;
  }

  /** The loop over the cells of one group, pushing every non-null cell. */
  method GroupBuildingIds(group: Json) returns (ids: seq<Json>)
    ensures ids == GroupIds(group)
  {
    ids := [];
    if !group.JArr? {
      return;
    }
    var cells := group.items;
    var k := 0;
    while k < |cells|
      invariant 0 <= k <= |cells|
      invariant ids == CellIds(cells[..k])
    {
      CellIdsSnoc(cells, k);
      if cells[k] != JNull {
        ids := ids + [cells[k]];
      }
      k := k + 1;
    }
    assert cells[..k] == cells;
  }

  lemma CellIdsSnoc(cells: seq<Json>, k: nat)
    requires k < |cells|
    ensures CellIds(cells[..k + 1]) == CellIds(cells[..k]) + if cells[k] != JNull then [cells[k]] else []
  {
    Seqs.FlatMapSnoc(cells, k, CellId);
  }

  lemma GroupIdsMembership(group: Json, x: Json)
    ensures x in GroupIds(group) <==> group.JArr? && x != JNull && x in group.items
  {
    if group.JArr? {
      Seqs.FlatMapMembership(group.items, CellId, x);
      if x != JNull && x in group.items {
        var k :| 0 <= k < |group.items| && group.items[k] == x;
        assert x in CellId(group.items[k]);
      }
    }
  }

  lemma RowIdsMembership(row: Json, x: Json)
    ensures x in RowIds(row) <==> x != JNull && InRow(row, x)
  {
    if row.JArr? {
      Seqs.FlatMapMembership(row.items, GroupIds, x);
      forall j | 0 <= j < |row.items|
        ensures x in GroupIds(row.items[j]) <==> row.items[j].JArr? && x != JNull && x in row.items[j].items
      {
        GroupIdsMembership(row.items[j], x);
      }
    }
  }

  /** The rows' ids are exactly the non-null cells that sit in arrays at every level. */
  lemma RowsIdsMembership(rows: seq<Json>)
    ensures forall x :: x in Seqs.FlatMap(rows, RowIds) <==>
              x != JNull && exists i :: 0 <= i < |rows| && InRow(rows[i], x)
  {
    forall x
      ensures x in Seqs.FlatMap(rows, RowIds) <==>
                x != JNull && exists i :: 0 <= i < |rows| && InRow(rows[i], x)
    {
      Seqs.FlatMapMembership(rows, RowIds, x);
      forall i | 0 <= i < |rows|
        ensures x in RowIds(rows[i]) <==> x != JNull && InRow(rows[i], x)
      {
        RowIdsMembership(rows[i], x);
      }
    }
  }

  /** `x` is a non-null cell of some array group of the array `row`. */
  ghost predicate InRow(row: Json, x: Json) {
    row.JArr? &&
    exists j :: 0 <= j < |row.items| && row.items[j].JArr? && x in row.items[j].items
  }

  /** An empty grid uses no building. */
  lemma EmptyGridUsesNothing(g: BaseState)
    requires AllEmpty(g)
    ensures UsedIds(GridJson(g)) == []
  {
    forall i | 0 <= i < |g| ensures RowIds(GridJson(g).items[i]) == [] {
      forall j | 0 <= j < |g[i]| ensures GroupIds(RowJson(g[i]).items[j]) == [] {
        Seqs.FlatMapNil(GroupJson(g[i][j]).items, CellId);
      }
      Seqs.FlatMapNil(RowJson(g[i]).items, GroupIds);
    }
    Seqs.FlatMapNil(GridJson(g).items, RowIds);
  }

  lemma InitialGridUsesNothing(layout: Layout)
    ensures UsedIds(GridJson(InitializeMainBaseState(layout))) == []
  {
    EmptyGridUsesNothing(InitializeMainBaseState(layout));
  }

  function CellMultiset(c: Cell): multiset<Json> {
    if c.Some? then multiset{JStr(c.value)} else multiset{}
  }

  lemma GroupIdsUpdate(cells: seq<Cell>, c: nat, v: Cell)
    requires c < |cells|
    ensures CellMultiset(cells[c]) <= multiset(GroupIds(GroupJson(cells)))
    ensures multiset(GroupIds(GroupJson(cells[c := v]))) ==
            multiset(GroupIds(GroupJson(cells))) - CellMultiset(cells[c]) + CellMultiset(v)
  {
    var items := GroupJson(cells).items;
    var updated := GroupJson(cells[c := v]).items;
    assert updated == items[c := CellJson(v)];
    Seqs.FlatMapUpdate(items, c, CellJson(v), CellId);
    assert GroupIds(GroupJson(cells)) == CellIds(items);
    assert GroupIds(GroupJson(cells[c := v])) == CellIds(updated);
    CellIdOfCell(cells[c]);
    CellIdOfCell(v);
  }

  lemma CellIdOfCell(x: Cell)
    ensures multiset(CellId(CellJson(x))) == CellMultiset(x)
  {
  }

  lemma RowIdsUpdate(groups: seq<seq<Cell>>, gi: nat, x: seq<Cell>)
    requires gi < |groups|
    ensures multiset(GroupIds(GroupJson(groups[gi]))) <= multiset(RowIds(RowJson(groups)))
    ensures multiset(RowIds(RowJson(groups[gi := x]))) ==
            multiset(RowIds(RowJson(groups))) - multiset(GroupIds(GroupJson(groups[gi])))
            + multiset(GroupIds(GroupJson(x)))
  {
    var items := RowJson(groups).items;
    assert RowJson(groups[gi := x]).items == items[gi := GroupJson(x)];
    Seqs.FlatMapUpdate(items, gi, GroupJson(x), GroupIds);
  }

  lemma GridIdsUpdate(g: BaseState, r: nat, x: seq<seq<Cell>>)
    requires r < |g|
    ensures multiset(RowIds(RowJson(g[r]))) <= multiset(UsedIds(GridJson(g)))
    ensures multiset(UsedIds(GridJson(g[r := x]))) ==
            multiset(UsedIds(GridJson(g))) - multiset(RowIds(RowJson(g[r])))
            + multiset(RowIds(RowJson(x)))
  {
    var items := GridJson(g).items;
    assert GridJson(g[r := x]).items == items[r := RowJson(x)];
    Seqs.FlatMapUpdate(items, r, RowJson(x), RowIds);
  }

  lemma MultisetReplace<T>(whole: multiset<T>, row: multiset<T>, group: multiset<T>, gone: multiset<T>, added: multiset<T>)
    requires gone <= group <= row <= whole
    ensures whole - row + (row - group + (group - gone + added)) == whole - gone + added
  {
  }

  /**
   * Editing one cell changes the used ids by exactly that cell: the old
   * building (if any) leaves the list, the new one (if any) joins it.
   */
  lemma WithCellUsedIds(g: BaseState, r: nat, gi: nat, c: nat, v: Cell)
    requires InRange(g, r, gi, c)
    ensures multiset(UsedIds(GridJson(WithCell(g, r, gi, c, v)))) ==
            multiset(UsedIds(GridJson(g))) - CellMultiset(g[r][gi][c]) + CellMultiset(v)
  {
    var newGroup := g[r][gi][c := v];
    var newRow := g[r][gi := newGroup];
    GroupIdsUpdate(g[r][gi], c, v);
    RowIdsUpdate(g[r], gi, newGroup);
    GridIdsUpdate(g, r, newRow);
    MultisetReplace(multiset(UsedIds(GridJson(g))), multiset(RowIds(RowJson(g[r]))),
                    multiset(GroupIds(GroupJson(g[r][gi]))), CellMultiset(g[r][gi][c]), CellMultiset(v));
  }
}
