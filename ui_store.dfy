/**
 * The UI store: whether each of the four panels is open.
 */
module UiStore {

  datatype Panel = Sidebar | MainBase | Armory | Units

  /** A snapshot of the four flags. */
  datatype Flags = Flags(sidebarOpen: bool, mainBaseOpen: bool, armoryOpen: bool, unitsOpen: bool)

  function IsOpen(s: Flags, p: Panel): bool {
    match p
    case Sidebar => s.sidebarOpen
    case MainBase => s.mainBaseOpen
    case Armory => s.armoryOpen
    case Units => s.unitsOpen
  }

  /** The snapshot with panel `p` set to `v`. */
  function WithOpen(s: Flags, p: Panel, v: bool): (t: Flags)
    ensures IsOpen(t, p) == v
    ensures forall q :: q != p ==> IsOpen(t, q) == IsOpen(s, q)
  {
    match p
    case Sidebar => s.(sidebarOpen := v)
    case MainBase => s.(mainBaseOpen := v)
    case Armory => s.(armoryOpen := v)
    case Units => s.(unitsOpen := v)
  }

  /** Two snapshots agreeing on every panel are the same. */
  lemma FlagsExtensional(s: Flags, t: Flags)
    requires forall p :: IsOpen(s, p) == IsOpen(t, p)
    ensures s == t
  {
    assert IsOpen(s, Sidebar) == IsOpen(t, Sidebar);
    assert IsOpen(s, MainBase) == IsOpen(t, MainBase);
    assert IsOpen(s, Armory) == IsOpen(t, Armory);
    assert IsOpen(s, Units) == IsOpen(t, Units);
  }

  /** Toggling a panel twice gives back the snapshot. */
  lemma ToggleTwice(s: Flags, p: Panel)
    ensures WithOpen(WithOpen(s, p, !IsOpen(s, p)), p, !IsOpen(WithOpen(s, p, !IsOpen(s, p)), p)) == s
  {
    var t := WithOpen(WithOpen(s, p, !IsOpen(s, p)), p, !IsOpen(WithOpen(s, p, !IsOpen(s, p)), p));
    FlagsExtensional(t, s);
  }

  /** Setting a panel to the value it has changes nothing. */
  lemma SetSameValue(s: Flags, p: Panel)
    ensures WithOpen(s, p, IsOpen(s, p)) == s
  {
    FlagsExtensional(WithOpen(s, p, IsOpen(s, p)), s);
  }

  /** The store, with one setter and one toggle per panel. */
  class UIStore {
    var sidebarOpen: bool
    var mainBaseOpen: bool
    var armoryOpen: bool
    var unitsOpen: bool

    function State(): Flags
      reads this
    {
      Flags(sidebarOpen, mainBaseOpen, armoryOpen, unitsOpen)
    }

    /** Every panel starts open. */
    constructor ()
      ensures forall p :: IsOpen(State(), p)
    {
      sidebarOpen := true;
      mainBaseOpen := true;
      armoryOpen := true;
      unitsOpen := true;
    }

    method SetSidebarOpen(open: bool)
      modifies this
      ensures State() == WithOpen(old(State()), Sidebar, open)
    {
      sidebarOpen := open;
    }

    method ToggleSidebar()
      modifies this
      ensures State() == WithOpen(old(State()), Sidebar, !old(sidebarOpen))
    {
      sidebarOpen := !sidebarOpen;
    }

    method SetMainBaseOpen(open: bool)
      modifies this
      ensures State() == WithOpen(old(State()), MainBase, open)
    {
      mainBaseOpen := open;
    }

    method ToggleMainBase()
      modifies this
      ensures State() == WithOpen(old(State()), MainBase, !old(mainBaseOpen))
    {
      mainBaseOpen := !mainBaseOpen;
    }

    method SetArmoryOpen(open: bool)
      modifies this
      ensures State() == WithOpen(old(State()), Armory, open)
    {
      armoryOpen := open;
    }

    method ToggleArmory()
      modifies this
      ensures State() == WithOpen(old(State()), Armory, !old(armoryOpen))
    {
      armoryOpen := !armoryOpen;
    }

    method SetUnitsOpen(open: bool)
      modifies this
      ensures State() == WithOpen(old(State()), Units, open)
    {
      unitsOpen := open;
    }

    method ToggleUnits()
      modifies this
      ensures State() == WithOpen(old(State()), Units, !old(unitsOpen))
    {
      unitsOpen := !unitsOpen;
    }
  }
}
