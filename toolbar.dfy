/**
 * The Toolbar container. It coordinates two pieces of state for its children:
 *
 *  - whether the expandable content of a toggle group is expanded, which the
 *    toolbar either manages itself (and closes on window resize) or takes
 *    from its caller's `isExpanded` / `toggleIsExpanded` props;
 *  - how many filter chips each chip group holds, per category name, whose
 *    sum decides whether the "clear all filters" button is shown.
 *
 * The instance is a class whose methods update its fields in place, as the
 * component's handlers update its state.
 */
module Toolbar {

  datatype Option<T> = None | Some(value: T)

  /**
   * The props that decide the mode: `isExpanded` may be left undefined (None),
   * and `hasToggleCallback` says whether `toggleIsExpanded` was passed.
   */
  datatype ToolbarProps = ToolbarProps(isExpanded: Option<bool>, hasToggleCallback: bool)

  /** JavaScript truthiness of an optional boolean. */
  predicate Truthy(b: Option<bool>) {
    b == Some(true)
  }

  /**
   * Managed mode: the caller supplies neither a truthy `isExpanded` nor a
   * toggle callback. `isExpanded = false` without a callback is still managed.
   */
  function IsToggleManaged(p: ToolbarProps): (managed: bool)
    ensures managed <==> !p.hasToggleCallback && (p.isExpanded.None? || !p.isExpanded.value)
    ensures p.hasToggleCallback ==> !managed
  {
    !(Truthy(p.isExpanded) || p.hasToggleCallback)
  }

  // ---------------------------------------------------------------------------
  // Filter counts

  /** The stored count of a category; a category never reported counts as 0. */
  function Stored(m: map<string, int>, c: string): (count: int) {
    if c in m then m[c] else 0
  }

  /** The sum of all stored counts (the order of summation does not matter). */
  ghost function Sum(m: map<string, int>): (total: int)
    decreases |m|
  {
    if m == map[] then 0
    else
      var c :| c in m;
      m[c] + Sum(m - {c})
  }

  /** Any entry can be taken out first. */
  lemma {:induction false} SumRemove(m: map<string, int>, c: string)
    requires c in m
    ensures Sum(m) == m[c] + Sum(m - {c})
    decreases |m|
  {
    var d :| d in m && Sum(m) == m[d] + Sum(m - {d});
    if d != c {
      SumRemove(m - {d}, c);
      SumRemove(m - {c}, d);
      assert m - {d} - {c} == m - {c} - {d};
    }
  }

  /** Setting an entry changes the sum by the new value minus the old one (0 if absent). */
  lemma SumUpdate(m: map<string, int>, c: string, n: int)
    ensures Sum(m[c := n]) == Sum(m) - Stored(m, c) + n
  {
    var m' := m[c := n];
    SumRemove(m', c);
    assert m' - {c} == m - {c};
    if c in m {
      SumRemove(m, c);
    } else {
      assert m - {c} == m;
    }
  }

  /** With no negative count, the sum is positive exactly when some category has a chip. */
  lemma {:induction false} SumPositive(m: map<string, int>)
    requires forall c :: c in m ==> m[c] >= 0
    ensures Sum(m) >= 0
    ensures Sum(m) > 0 <==> exists c :: c in m && m[c] > 0
    decreases |m|
  {
    if m != map[] {
      var d :| d in m;
      SumRemove(m, d);
      SumPositive(m - {d});
      if Sum(m) > 0 && m[d] <= 0 {
        var c :| c in m - {d} && (m - {d})[c] > 0;
        assert c in m && m[c] > 0;
      }
      forall c | c in m && m[c] > 0
        ensures Sum(m) > 0
      {
        if c != d {
          assert c in m - {d} && (m - {d})[c] > 0;
        }
      }
    }
  }

  // ---------------------------------------------------------------------------
  // What the toolbar hands to its children

  /** Which toggle the children receive: the toolbar's own, the caller's, or none (undefined). */
  datatype ToggleHandler = InternalToggle | ExternalToggle | NoToggle

  /**
   * The values passed down through the context and to each child and to the
   * chip group content: all three sites use the same expanded value.
   */
  datatype ToolbarView = ToolbarView(
    isExpanded: Option<bool>,
    toggleIsExpanded: ToggleHandler,
    numberOfFilters: int,
    showClearFiltersButton: bool)

  datatype Phase = Constructed | Mounted | Unmounted

  class Toolbar {
    var props: ToolbarProps
    var isManagedToggleExpanded: bool
    /** One map for both `staticFilterInfo` and `state.filterInfo`. */
    var filterInfo: map<string, int>
    /** How many state updates `UpdateNumberFilters` has issued. */
    var filterInfoUpdates: nat
    var phase: Phase
    /** Whether `CloseExpandableContent` is registered as a window resize listener. */
    var resizeListening: bool
    /** State updates requested of the unmounted toolbar; React drops each one. */
    var droppedStateUpdates: nat

    /** No resize listener outlives the mounted toolbar. */
    ghost predicate NoStaleListener()
      reads this
    {
      resizeListening ==> phase == Mounted
    }

    constructor (p: ToolbarProps)
      ensures props == p && !isManagedToggleExpanded
      ensures filterInfo == map[] && filterInfoUpdates == 0
      ensures phase == Constructed && !resizeListening && droppedStateUpdates == 0
      ensures NoStaleListener()
    {
      props := p;
      isManagedToggleExpanded := false;
      filterInfo := map[];
      filterInfoUpdates := 0;
      phase := Constructed;
      resizeListening := false;
      droppedStateUpdates := 0;
    }

    /** The parent re-renders the toolbar with new props. */
    method ReceiveProps(p: ToolbarProps)
      modifies this`props
      ensures props == p
    {
      props := p;
    }

    method ToggleIsExpanded()
      modifies this`isManagedToggleExpanded
      ensures isManagedToggleExpanded == !old(isManagedToggleExpanded)
    {
      isManagedToggleExpanded := !isManagedToggleExpanded;
    }

    method CloseExpandableContent()
      modifies this`isManagedToggleExpanded
      ensures !isManagedToggleExpanded
    {
      isManagedToggleExpanded := false;
    }

    /** Registers the resize listener only in managed mode. */
    method ComponentDidMount()
      requires phase == Constructed && NoStaleListener()
      modifies this`phase, this`resizeListening
      ensures phase == Mounted
      ensures resizeListening == IsToggleManaged(props)
      ensures NoStaleListener()
    {
      phase := Mounted;
      if IsToggleManaged(props) {
        resizeListening := true;
      }
    }

    /**
     * Unmount as the source writes it: the mode is evaluated again from the
     * current props, so a toolbar mounted managed and re-rendered with a
     * truthy `isExpanded` or a callback keeps its resize listener.
     */
    method ComponentWillUnmountAsWritten()
      requires phase == Mounted
      modifies this`phase, this`resizeListening
      ensures phase == Unmounted
      ensures resizeListening == (old(resizeListening) && !IsToggleManaged(props))
    {
      phase := Unmounted;
      if IsToggleManaged(props) {
        resizeListening := false;
      }
    }

    /** Unmount that removes the listener whenever mount added it. */
    method ComponentWillUnmount()
      requires phase == Mounted
      modifies this`phase, this`resizeListening
      ensures phase == Unmounted && !resizeListening
      ensures NoStaleListener()
    {
      phase := Unmounted;
      if resizeListening {
        resizeListening := false;
      }
    }

    /**
     * A window resize reaches the toolbar only through its listener. On an
     * unmounted toolbar the listener's state update is dropped by React and
     * only counted here.
     */
    method WindowResize()
      modifies this`isManagedToggleExpanded, this`droppedStateUpdates
      ensures isManagedToggleExpanded ==
        (old(isManagedToggleExpanded) && !(resizeListening && phase != Unmounted))
      ensures droppedStateUpdates ==
        old(droppedStateUpdates) + if resizeListening && phase == Unmounted then 1 else 0
    {
      if resizeListening {
        if phase == Unmounted {
          droppedStateUpdates := droppedStateUpdates + 1;
        } else {
          CloseExpandableContent();
        }
      }
    }

    /**
     * A chip group reports its number of chips. Nothing happens, and no state
     * update is issued, when the category already holds that number.
     */
    method UpdateNumberFilters(categoryName: string, numberOfFilters: int)
      modifies this`filterInfo, this`filterInfoUpdates
      ensures filterInfo == old(filterInfo)[categoryName := numberOfFilters]
      ensures categoryName in filterInfo && filterInfo[categoryName] == numberOfFilters
      ensures filterInfo - {categoryName} == old(filterInfo) - {categoryName}
      ensures filterInfoUpdates == old(filterInfoUpdates) +
        if categoryName in old(filterInfo) && old(filterInfo)[categoryName] == numberOfFilters then 0 else 1
      ensures categoryName in old(filterInfo) && old(filterInfo)[categoryName] == numberOfFilters ==>
        filterInfo == old(filterInfo)
      ensures GetNumberOfFilters() == old(GetNumberOfFilters()) - Stored(old(filterInfo), categoryName) + numberOfFilters
    {
      var filterInfoToUpdate := filterInfo;
      if categoryName !in filterInfoToUpdate || filterInfoToUpdate[categoryName] != numberOfFilters {
        filterInfoToUpdate := filterInfoToUpdate[categoryName := numberOfFilters];
        filterInfo := filterInfoToUpdate;
        filterInfoUpdates := filterInfoUpdates + 1;
      }
      SumUpdate(old(filterInfo), categoryName, numberOfFilters);
      assert categoryName in old(filterInfo) && old(filterInfo)[categoryName] == numberOfFilters ==>
        old(filterInfo)[categoryName := numberOfFilters] == old(filterInfo);
    }

    ghost function GetNumberOfFilters(): (total: int)
      reads this
      ensures filterInfo == map[] ==> total == 0
      ensures (forall c :: c in filterInfo ==> filterInfo[c] >= 0) ==>
        (total > 0 <==> exists c :: c in filterInfo && filterInfo[c] > 0)
    {
      SumPositiveWhenNonNegative(filterInfo);
      Sum(filterInfo)
    }

    /** The values the children see, chosen from the toolbar's state or from the props. */
    ghost function View(): (v: ToolbarView)
      reads this
      ensures IsToggleManaged(props) ==>
        v.isExpanded == Some(isManagedToggleExpanded) && v.toggleIsExpanded == InternalToggle
      ensures !IsToggleManaged(props) ==>
        v.isExpanded == props.isExpanded &&
        v.toggleIsExpanded == (if props.hasToggleCallback then ExternalToggle else NoToggle)
      ensures v.numberOfFilters == GetNumberOfFilters()
      ensures v.showClearFiltersButton <==> v.numberOfFilters > 0
    {
      var managed := IsToggleManaged(props);
      var numberOfFilters := GetNumberOfFilters();
      ToolbarView(
        if managed then Some(isManagedToggleExpanded) else props.isExpanded,
        if managed then InternalToggle else if props.hasToggleCallback then ExternalToggle else NoToggle,
        numberOfFilters,
        numberOfFilters > 0)
    }
  }

  /** Calls `SumPositive` when its premise holds. */
  lemma SumPositiveWhenNonNegative(m: map<string, int>)
    ensures (forall c :: c in m ==> m[c] >= 0) ==> (Sum(m) > 0 <==> exists c :: c in m && m[c] > 0)
  {
    if forall c :: c in m ==> m[c] >= 0 {
      SumPositive(m);
    }
  }

  // ---------------------------------------------------------------------------
  // Sequences of calls

  /** Two toggles restore the managed flag. */
  method ToggleTwice(t: Toolbar)
    modifies t
    ensures t.isManagedToggleExpanded == old(t.isManagedToggleExpanded)
    ensures t.filterInfo == old(t.filterInfo)
  {
    t.ToggleIsExpanded();
    t.ToggleIsExpanded();
  }

  /** Closing twice is closing once. */
  method CloseTwice(t: Toolbar)
    modifies t
    ensures !t.isManagedToggleExpanded
    ensures t.filterInfo == old(t.filterInfo)
  {
    t.CloseExpandableContent();
    t.CloseExpandableContent();
  }

  /** A repeated identical report issues the state updates of one report, and the second changes nothing. */
  method UpdateTwice(t: Toolbar, categoryName: string, numberOfFilters: int)
    modifies t
    ensures t.filterInfo == old(t.filterInfo)[categoryName := numberOfFilters]
    ensures t.filterInfoUpdates == old(t.filterInfoUpdates) +
      if categoryName in old(t.filterInfo) && old(t.filterInfo)[categoryName] == numberOfFilters then 0 else 1
  {
    t.UpdateNumberFilters(categoryName, numberOfFilters);
    ghost var once := t.filterInfo;
    t.UpdateNumberFilters(categoryName, numberOfFilters);
    assert t.filterInfo == once;
    assert once == old(t.filterInfo)[categoryName := numberOfFilters];
  }

  /** A fresh toolbar after "a" reports 2 chips and "b" reports 1 shows 3 filters and the clear button. */
  method TwoCategories() returns (t: Toolbar)
    ensures t.View().numberOfFilters == 3 && t.View().showClearFiltersButton
  {
    t := new Toolbar(ToolbarProps(None, false));
    assert t.GetNumberOfFilters() == 0;
    t.UpdateNumberFilters("a", 2);
    t.UpdateNumberFilters("b", 1);
  }

  /**
   * Mounted managed, expanded, re-rendered with `isExpanded = true` and
   * unmounted as written: the listener survives, and each later resize
   * requests a state update of the unmounted toolbar.
   */
  method ResizeListenerOutlivesToolbar() returns (t: Toolbar)
    ensures t.phase == Unmounted && t.resizeListening && !t.NoStaleListener()
    ensures t.droppedStateUpdates == 1 && t.isManagedToggleExpanded
  {
    t := new Toolbar(ToolbarProps(None, false));
    t.ComponentDidMount();
    t.ToggleIsExpanded();
    t.ReceiveProps(ToolbarProps(Some(true), false));
    t.ComponentWillUnmountAsWritten();
    t.WindowResize();
  }

  /** With the corrected unmount, a resize after unmount leaves the toolbar's state alone. */
  method ResizeAfterUnmountIsInert(t: Toolbar, later: ToolbarProps)
    requires t.phase == Mounted
    modifies t
    ensures t.phase == Unmounted && t.NoStaleListener()
    ensures t.isManagedToggleExpanded == old(t.isManagedToggleExpanded)
    ensures t.droppedStateUpdates == old(t.droppedStateUpdates)
  {
    t.ReceiveProps(later);
    t.ComponentWillUnmount();
    t.WindowResize();
  }

  /**
   * Resize in managed mode closes expanded content; in delegated mode the
   * toolbar registers no listener and its own flag is untouched.
   */
  method MountThenResize(p: ToolbarProps) returns (t: Toolbar)
    ensures t.phase == Mounted && t.props == p
    ensures IsToggleManaged(p) ==> !t.isManagedToggleExpanded && t.View().isExpanded == Some(false)
    ensures !IsToggleManaged(p) ==> t.isManagedToggleExpanded && t.View().isExpanded == p.isExpanded
  {
    t := new Toolbar(p);
    t.ComponentDidMount();
    t.ToggleIsExpanded();
    t.WindowResize();
  }
}
