/**
 * The tab control: a row of tab headers and the content of the selected tab.
 * Unlike the side list, the selection is always internal.
 */
module Tab {
  import opened Wrappers
  import SideList

  /** The internal selection when the control is first shown: the first tab, if there is one. */
  function InitialSelection(tabCount: nat): (s: Option<nat>)
    ensures s.Some? <==> 0 < tabCount
    ensures s.Some? ==> s.value == 0 && s.value < tabCount
  {
    if tabCount > 0 then Some(0) else None
  }

  /** The rendered control: which headers carry the active class, and the content shown. */
  datatype TabView<T> = TabView(active: seq<bool>, content: Option<T>)

  /**
   * One render: a header is active exactly when the selection is its index, and
   * the content is the selected tab's, or nothing when there is no selection
   * or the selected index is past the last tab.
   */
  function Render<T>(tabs: seq<T>, selected: Option<nat>): (v: TabView<T>)
    ensures |v.active| == |tabs|
    ensures forall i :: 0 <= i < |v.active| ==> (v.active[i] <==> selected == Some(i))
    ensures v.content.Some? <==> selected.Some? && selected.value < |tabs|
    ensures v.content.Some? ==> v.content.value == tabs[selected.value]
  {
    TabView(
      seq(|tabs|, i => selected == Some(i)),
      if selected.Some? && selected.value < |tabs| then Some(tabs[selected.value]) else None)
  }

  /**
   * While a tab is selected, the tab control renders like a side list with no
   * `selected_index`; with no selection the side list would still show its
   * first item, the tab control shows nothing.
   */
  lemma {:induction false} AgreesWithSideList<T>(tabs: seq<T>, selected: Option<nat>)
    ensures selected.Some? ==>
      Render(tabs, selected).active == SideList.Render(SideList.SideListProps(tabs, false, None, false), selected).active &&
      Render(tabs, selected).content == SideList.Render(SideList.SideListProps(tabs, false, None, false), selected).content
    ensures selected.None? && 0 < |tabs| ==>
      Render(tabs, selected).content == None &&
      SideList.Render(SideList.SideListProps(tabs, false, None, false), selected).content == Some(tabs[0])
  {
    var v := Render(tabs, selected);
    var w := SideList.Render(SideList.SideListProps(tabs, false, None, false), selected);
    if selected.Some? {
      assert SideList.EffectiveIndex(None, selected) == selected.value;
      assert forall i :: 0 <= i < |tabs| ==> v.active[i] == w.active[i];
    }
  }

  /** The control's internal selection state (`selected_item_state`). */
  class TabState {
    var selected: Option<nat>

    /** The state hook's initial value for a control with `tabCount` tabs. */
    constructor (tabCount: nat)
      ensures selected == InitialSelection(tabCount)
    {
      selected := InitialSelection(tabCount);
    }

    /** A click on the header of tab `idx` selects that tab. */
    method Click(idx: nat)
      modifies this
      ensures selected == Some(idx)
    {
      selected := Some(idx);
    }

    /** The control as rendered with the current state: `Render` applied to the selection. */
    function View<T>(tabs: seq<T>): TabView<T>
      reads this
    {
      Render(tabs, selected)
    }
  }

  /** After a click on an existing tab, that tab alone is active and its content is shown. */
  method ClickShowsTab<T>(tabs: seq<T>, idx: nat) returns (v: TabView<T>)
    requires idx < |tabs|
    ensures |v.active| == |tabs|
    ensures forall i :: 0 <= i < |v.active| ==> (v.active[i] <==> i == idx)
    ensures v.content == Some(tabs[idx])
  {
    var state := new TabState(|tabs|);
    state.Click(idx);
    v := state.View(tabs);
  }
}
