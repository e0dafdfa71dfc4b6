/**
 * The side list (master-detail list): a column of items, one of them active,
 * and the active item's content beside it. The selection is either controlled
 * by the parent (`selected_index`, `on_select_item`) or kept internally.
 */
module SideList {
  import opened Wrappers

  /** The props that decide selection; `children` are the list's items. */
  datatype SideListProps<T> = SideListProps(
    children: seq<T>,
    hasAddButton: bool,
    selectedIndex: Option<nat>,
    hasOnSelectItem: bool)

  /** The internal selection when the list is first shown: the first item, if there is one. */
  function InitialSelection(childCount: nat): (s: Option<nat>)
    ensures s.Some? <==> 0 < childCount
    ensures s.Some? ==> s.value == 0 && s.value < childCount
  {
    if childCount != 0 then Some(0) else None
  }

  /**
   * The index the list treats as selected: the parent's `selected_index` when
   * given, else the internal selection, else the first index.
   */
  function EffectiveIndex(selectedIndex: Option<nat>, state: Option<nat>): (k: nat)
    ensures selectedIndex.Some? ==> k == selectedIndex.value
    ensures selectedIndex.None? ==> k == state.GetOr(0)
  {
    if selectedIndex.Some? then selectedIndex.value else state.GetOr(0)
  }

  /** What a click on an item does: what it emits and the internal selection after it. */
  datatype ClickOutcome = ClickOutcome(emitted: Option<nat>, state: Option<nat>)

  /**
   * The item click handler: with `on_select_item` it emits the index and keeps
   * the internal selection; without, it selects the item internally.
   */
  function Click(hasOnSelectItem: bool, state: Option<nat>, idx: nat): (o: ClickOutcome)
    ensures o.emitted.Some? <==> hasOnSelectItem
    ensures o.emitted.Some? ==> o.emitted.value == idx
    ensures hasOnSelectItem ==> o.state == state
    ensures !hasOnSelectItem ==> o.state == Some(idx)
  {
    if hasOnSelectItem then ClickOutcome(Some(idx), state) else ClickOutcome(None, Some(idx))
  }

  /** The internal selection after a run of clicks, first click first. */
  function AfterClicks(hasOnSelectItem: bool, state: Option<nat>, clicks: seq<nat>): Option<nat>
    decreases |clicks|
  {
    if clicks == [] then state
    else AfterClicks(hasOnSelectItem, Click(hasOnSelectItem, state, clicks[0]).state, clicks[1..])
  }

  /** A list driven by `on_select_item` never changes its internal selection. */
  lemma {:induction false} CallbackKeepsState(state: Option<nat>, clicks: seq<nat>)
    ensures AfterClicks(true, state, clicks) == state
    decreases |clicks|
  {
    if clicks != [] {
      CallbackKeepsState(state, clicks[1..]);
    }
  }

  /** Without `on_select_item`, the internal selection is the last item clicked. */
  lemma {:induction false} LastClickSelected(state: Option<nat>, clicks: seq<nat>)
    requires clicks != []
    ensures AfterClicks(false, state, clicks) == Some(clicks[|clicks| - 1])
    decreases |clicks|
  {
    if |clicks| > 1 {
      LastClickSelected(Some(clicks[0]), clicks[1..]);
    }
  }

  /** With `selected_index = Some(k)` the effective index is `k`, whatever is clicked. */
  lemma ControlledIndexIgnoresClicks(k: nat, hasOnSelectItem: bool, state: Option<nat>, clicks: seq<nat>)
    ensures EffectiveIndex(Some(k), AfterClicks(hasOnSelectItem, state, clicks)) == k
  {
  }

  /** The rendered list: which items carry the active class, the add button, and the content pane. */
  datatype SideListView<T> = SideListView(active: seq<bool>, addButton: bool, content: Option<T>)

  /** The child at index `k`, or nothing when the list has fewer items (`nth`). */
  function Nth<T>(children: seq<T>, k: nat): (c: Option<T>)
    ensures c.Some? <==> k < |children|
    ensures c.Some? ==> c.value == children[k]
  {
    if k < |children| then Some(children[k]) else None
  }

  /**
   * One render of the list: exactly the item at the effective index is active,
   * the add button is there exactly when `has_add_button`, and the content
   * pane shows the child at the effective index, if it exists.
   */
  function Render<T>(props: SideListProps<T>, state: Option<nat>): (v: SideListView<T>)
    ensures |v.active| == |props.children|
    ensures forall i :: 0 <= i < |v.active| ==> (v.active[i] <==> i == EffectiveIndex(props.selectedIndex, state))
    ensures v.addButton <==> props.hasAddButton
    ensures v.content == Nth(props.children, EffectiveIndex(props.selectedIndex, state))
  {
    var k := EffectiveIndex(props.selectedIndex, state);
    SideListView(seq(|props.children|, i => i == k), props.hasAddButton, Nth(props.children, k))
  }

  /** At most one item is active. */
  lemma AtMostOneActive<T>(props: SideListProps<T>, state: Option<nat>, i: nat, j: nat)
    requires i < |props.children| && j < |props.children|
    requires Render(props, state).active[i] && Render(props, state).active[j]
    ensures i == j
  {
  }

  /**
   * In an uncontrolled list (no `selected_index`, no `on_select_item`),
   * clicking item `idx` makes it the only active item and shows its content.
   */
  lemma ClickShowsClickedItem<T>(props: SideListProps<T>, state: Option<nat>, idx: nat)
    requires props.selectedIndex.None? && !props.hasOnSelectItem && idx < |props.children|
    ensures var v := Render(props, Click(false, state, idx).state);
            (forall i :: 0 <= i < |v.active| ==> (v.active[i] <==> i == idx)) &&
            v.content == Some(props.children[idx])
  {
  }

  /** The list's internal selection state (`selected_item_state`). */
  class SideListState {
    var selected: Option<nat>

    /** The state hook's initial value for a list with `childCount` items. */
    constructor (childCount: nat)
      ensures selected == InitialSelection(childCount)
    {
      selected := InitialSelection(childCount);
    }

    /** A click on item `idx`; only rendered items can be clicked. */
    method ClickItem<T>(props: SideListProps<T>, idx: nat) returns (emitted: Option<nat>)
      requires idx < |props.children|
      modifies this
      ensures emitted == Click(props.hasOnSelectItem, old(selected), idx).emitted
      ensures selected == Click(props.hasOnSelectItem, old(selected), idx).state
      ensures props.hasOnSelectItem ==> selected == old(selected)
    {
      if props.hasOnSelectItem {
        emitted := Some(idx);
      } else {
        emitted := None;
        selected := Some(idx);
      }
    }

    /** The list as rendered with the current state: `Render` applied to the internal selection. */
    function View<T>(props: SideListProps<T>): SideListView<T>
      reads this
    {
      Render(props, selected)
    }
  }
}
