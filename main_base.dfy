/**
 * The static base layout of every faction and the empty base grid derived
 * from it. A layout is a list of rows, each a list of group sizes; a base
 * state mirrors it as rows of groups of cells, a cell holding either nothing
 * (`null`) or a building id.
 */
module MainBase {

  import opened Wrappers
  import opened Factions

  type Layout = seq<seq<nat>>

  type Cell = Option<string>

  type BaseState = seq<seq<seq<Cell>>>

  /** `state` has exactly the rows, groups and cells `layout` prescribes. */
  ghost predicate Conforms(state: BaseState, layout: Layout) {
    && |state| == |layout|
    && (forall i :: 0 <= i < |state| ==> |state[i]| == |layout[i]|)
    && (forall i, j :: 0 <= i < |state| && 0 <= j < |state[i]| ==> |state[i][j]| == layout[i][j])
  }

  /** No cell of `state` holds a building. */
  ghost predicate AllEmpty(state: BaseState) {
    forall i, j, k :: 0 <= i < |state| && 0 <= j < |state[i]| && 0 <= k < |state[i][j]| ==>
      state[i][j][k].None?
  }

  /**
   * `mainBasesLayout`: every faction's layout has three rows and groups of
   * one to three slots.
   */
  function MainBasesLayout(f: Faction): (layout: Layout)
    ensures |layout| == 3
    ensures forall i, j :: 0 <= i < 3 && 0 <= j < |layout[i]| ==> 1 <= layout[i][j] <= 3
  {
    match f
    case Harkonnen => [[3, 2], [1, 2], [3]]
    case Atreides => [[1, 2], [3], [2, 1, 1]]
    case Ecaz => [[1, 3], [2], [3, 1]]
    case Smuggler => [[3], [2, 1, 1], [1, 1]]
    case Vernius => [[3], [3], [3]]
    case Fremen => [[2, 2], [3], [2, 1]]
    case Corrino => [[3, 1], [2, 2], [3]]
  }

  /** `initializeMainBaseState`: each group size n becomes n empty cells. */
  function InitializeMainBaseState(layout: Layout): (state: BaseState)
    ensures Conforms(state, layout)
    ensures AllEmpty(state)
  {
    seq(|layout|, i requires 0 <= i < |layout| =>
      seq(|layout[i]|, j requires 0 <= j < |layout[i]| =>
        seq(layout[i][j], _ => None)))
  }

  /** The only grid that conforms to a layout and is empty is its initial one. */
  lemma InitialStateUnique(state: BaseState, layout: Layout)
    requires Conforms(state, layout) && AllEmpty(state)
    ensures state == InitializeMainBaseState(layout)
  {
    var init := InitializeMainBaseState(layout);
    forall i | 0 <= i < |state| ensures state[i] == init[i] {
      forall j | 0 <= j < |state[i]| ensures state[i][j] == init[i][j] {
        assert |state[i][j]| == |init[i][j]|;
      }
    }
  }

  /** `mainBasesState`: the initial grid of every faction. */
  function MainBasesState(): (m: map<Faction, BaseState>)
    ensures forall f :: f in m
    ensures forall f :: Conforms(m[f], MainBasesLayout(f)) && AllEmpty(m[f])
  {
    map f | f in FactionLabels() :: InitializeMainBaseState(MainBasesLayout(f))
  }
}
