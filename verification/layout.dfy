/**
 * The page layout pieces whose output depends on their props: the title with
 * an optional subtitle, the top bar's optional right item, and the bottom bar
 * with its left and right slots and the progress area in between.
 */
module Layout {
  import opened Wrappers

  /** The title: a heading with the title text and, optionally, a `<small>` subtitle. */
  datatype TitleView = TitleView(title: string, small: Option<string>)

  function RenderTitle(title: string, subtitle: Option<string>): (v: TitleView)
    ensures v.title == title
    ensures v.small.Some? <==> subtitle.Some?
    ensures subtitle.Some? ==> v.small.value == subtitle.value
  {
    TitleView(title, if subtitle.Some? then Some(subtitle.value) else None)
  }

  /** The top bar's right-hand link, present with its label exactly when `has_right_item`. */
  function TopBarRightItem(hasRightItem: bool, rightItemLabel: string): (r: Option<string>)
    ensures r.Some? <==> hasRightItem
    ensures r.Some? ==> r.value == rightItemLabel
  {
    if hasRightItem then Some(rightItemLabel) else None
  }

  /** A child of the bottom bar: an item for the left slot or one for the right slot. */
  datatype BottomBarChild<T> = LeftItem(item: T) | RightItem(item: T)
  {
    predicate IsLeft() { LeftItem? }
    predicate IsRight() { RightItem? }
  }

  /** Every child is a left or a right item, and never both. */
  lemma {:induction false} LeftXorRight<T>(c: BottomBarChild<T>)
    ensures c.IsLeft() != c.IsRight()
  {
    match c
    case LeftItem(_) =>
    case RightItem(_) =>
  }

  /** Whether `c` belongs to the left slot (`left`) or to the right slot (`!left`). */
  predicate OnSide<T>(c: BottomBarChild<T>, left: bool)
  {
    if left then c.IsLeft() else c.IsRight()
  }

  /** The index of the first child for the given slot (`iter().find`), if any. */
  function FirstOnSide<T>(children: seq<BottomBarChild<T>>, left: bool): (r: Option<nat>)
    ensures r.Some? ==> r.value < |children| && OnSide(children[r.value], left)
    ensures r.Some? ==> forall j :: 0 <= j < r.value ==> !OnSide(children[j], left)
    ensures r.None? ==> forall j :: 0 <= j < |children| ==> !OnSide(children[j], left)
    decreases |children|
  {
    if children == [] then None
    else if OnSide(children[0], left) then Some(0)
    else
      var rest := FirstOnSide(children[1..], left);
      if rest.Some? then Some(rest.value + 1) else None
  }

  /** Children appended after the first one for a slot do not change what that slot shows. */
  lemma {:induction false} FirstOnSideIgnoresLater<T>(children: seq<BottomBarChild<T>>, more: seq<BottomBarChild<T>>, left: bool)
    requires FirstOnSide(children, left).Some?
    ensures FirstOnSide(children + more, left) == FirstOnSide(children, left)
    decreases |children|
  {
    if !OnSide(children[0], left) {
      assert (children + more)[1..] == children[1..] + more;
      FirstOnSideIgnoresLater(children[1..], more, left);
    }
  }

  /** The progress display of the bottom bar; `Hidden` is the default. */
  datatype ProgressState = Hidden | Visible | Indeterminate

  const DefaultProgressState: ProgressState := Hidden

  /** The centre of the bottom bar: the two labels around a progress bar. */
  datatype ProgressView = ProgressView(topLabel: string, indeterminate: bool, value: nat, max: nat, bottomLabel: string)

  datatype BottomBarView<T> = BottomBarView(left: Option<T>, center: Option<ProgressView>, right: Option<T>)

  datatype BottomBarProps<T> = BottomBarProps(
    children: seq<BottomBarChild<T>>,
    progressTopLabel: string,
    progressBottomLabel: string,
    progressState: ProgressState,
    progressValue: nat,
    progressMax: nat)

  /** The item shown in one slot. */
  function Slot<T>(children: seq<BottomBarChild<T>>, left: bool): Option<T>
  {
    var k := FirstOnSide(children, left);
    if k.Some? then Some(children[k.value].item) else None
  }

  /**
   * The bottom bar: each slot shows the item of its first child, the centre is
   * there exactly when the progress is `Visible` or `Indeterminate`, and its
   * bar is indeterminate exactly when the state is `Indeterminate`.
   */
  function RenderBottomBar<T>(props: BottomBarProps<T>): (v: BottomBarView<T>)
    ensures v.left.Some? <==> exists i :: 0 <= i < |props.children| && props.children[i].IsLeft()
    ensures v.right.Some? <==> exists i :: 0 <= i < |props.children| && props.children[i].IsRight()
    ensures v.center.Some? <==> props.progressState != Hidden
    ensures v.center.Some? ==> (v.center.value.indeterminate <==> props.progressState == Indeterminate)
    ensures v.center.Some? ==> v.center.value.topLabel == props.progressTopLabel && v.center.value.bottomLabel == props.progressBottomLabel
    ensures v.center.Some? ==> v.center.value.value == props.progressValue && v.center.value.max == props.progressMax
  {
    var left := FirstOnSide(props.children, true);
    var right := FirstOnSide(props.children, false);
    assert left.Some? ==> props.children[left.value].IsLeft();
    assert right.Some? ==> props.children[right.value].IsRight();
    var center :=
      match props.progressState
      case Hidden => None
      case Visible | Indeterminate =>
        Some(ProgressView(props.progressTopLabel, props.progressState == Indeterminate,
                          props.progressValue, props.progressMax, props.progressBottomLabel));
    BottomBarView(Slot(props.children, true), center, Slot(props.children, false))
  }

  /** A slot shows the item of the first child of its kind; no later child of that kind is shown in it. */
  lemma SlotIsFirstOfItsKind<T>(props: BottomBarProps<T>, k: nat, left: bool)
    requires k < |props.children| && OnSide(props.children[k], left)
    requires forall j :: 0 <= j < k ==> !OnSide(props.children[j], left)
    ensures (if left then RenderBottomBar(props).left else RenderBottomBar(props).right) == Some(props.children[k].item)
  {
  }
}
