/**
 * Buttons: the plain button, the circle button with an icon, and the back
 * button as built without the router feature.
 */
module Button {
  import opened Wrappers
  import opened Decimal

  /** A class on a button: one of the generated style classes or a literal name. */
  datatype ButtonClass = ButtonStyle | FullWidthStyle | BackButtonStyle | Named(name: string)

  /** The literal class every plain button carries, whatever its props. */
  const CosmoButtonClass: string := "cosmo-button"

  /** The class list of a plain button. */
  function ButtonClasses(isFullWidth: bool): (c: set<ButtonClass>)
    ensures Named(CosmoButtonClass) in c && ButtonStyle in c
    ensures FullWidthStyle in c <==> isFullWidth
    ensures forall k :: k in c ==> k == ButtonStyle || k == FullWidthStyle || k == Named(CosmoButtonClass)
  {
    var fullWidth: Option<ButtonClass> := if isFullWidth then Some(FullWidthStyle) else None;
    {ButtonStyle, Named(CosmoButtonClass)} + (if fullWidth.Some? then {fullWidth.value} else {})
  }

  /** The props of a plain button; `enabled` is true unless given. */
  datatype ButtonProps = ButtonProps(caption: string, hasOnClick: bool, isSubmit: bool, isFullWidth: bool, enabled: bool)

  function DefaultButtonProps(caption: string): (p: ButtonProps)
    ensures p.caption == caption && p.enabled && !p.isSubmit && !p.isFullWidth && !p.hasOnClick
  {
    ButtonProps(caption, false, false, false, true)
  }

  /** The rendered `<button>` element. */
  datatype ButtonView = ButtonView(disabled: bool, buttonType: string, hasClickHandler: bool, classes: set<ButtonClass>, text: string)

  /**
   * A plain button is a submit button exactly when `is_submit`, is disabled
   * exactly when not `enabled`, and has a click handler exactly when given
   * `on_click`.
   */
  function RenderButton(p: ButtonProps): (v: ButtonView)
    ensures v.buttonType == "submit" <==> p.isSubmit
    ensures v.buttonType == "button" <==> !p.isSubmit
    ensures v.disabled <==> !p.enabled
    ensures v.hasClickHandler <==> p.hasOnClick
    ensures v.classes == ButtonClasses(p.isFullWidth)
    ensures v.text == p.caption
  {
    ButtonView(!p.enabled, if p.isSubmit then "submit" else "button", p.hasOnClick, ButtonClasses(p.isFullWidth), p.caption)
  }

  /** A button made with only a caption is an enabled, ordinary button. */
  lemma DefaultButtonIsEnabled(caption: string)
    ensures !RenderButton(DefaultButtonProps(caption)).disabled
    ensures RenderButton(DefaultButtonProps(caption)).buttonType == "button"
  {
  }

  datatype CosmoCircleButtonSize = Small | Medium | Large

  const DefaultCircleButtonSize: CosmoCircleButtonSize := Medium

  /** The circle's diameter in pixels. */
  function CirclePx(s: CosmoCircleButtonSize): nat
  {
    match s
    case Small => 24
    case Medium => 32
    case Large => 48
  }

  /** The icon's width and height in pixels. */
  function IconPx(s: CosmoCircleButtonSize): nat
  {
    match s
    case Small => 16
    case Medium => 24
    case Large => 32
  }

  /** The icon always fits inside the circle, and larger buttons have larger circles and icons. */
  lemma {:induction false} IconSmallerThanCircle(s: CosmoCircleButtonSize, t: CosmoCircleButtonSize)
    ensures IconPx(s) < CirclePx(s)
    ensures (s, t) in {(Small, Medium), (Medium, Large), (Small, Large)} ==>
              CirclePx(s) < CirclePx(t) && IconPx(s) < IconPx(t)
  {
    match s
    case Small =>
    case Medium =>
    case Large =>
  }

  /** The CSS length of the circle's height and width. */
  function CircleSize(s: CosmoCircleButtonSize): (r: string)
    ensures r == NatToString(CirclePx(s)) + "px"
  {
    match s
    case Small => "24px"
    case Medium => "32px"
    case Large => "48px"
  }

  /** The CSS length of the icon's height and width. */
  function IconSize(s: CosmoCircleButtonSize): (r: string)
    ensures r == NatToString(IconPx(s)) + "px"
  {
    match s
    case Small => "16px"
    case Medium => "24px"
    case Large => "32px"
  }

  /** The rendered circle button: whether it is disabled, and its two lengths. */
  datatype CircleButtonView = CircleButtonView(disabled: bool, size: string, iconSize: string)

  /**
   * The circle button as written: its `enabled` prop (true unless given) is
   * never passed to the element, so the button is never disabled.
   */
  function RenderCircleButtonAsWritten(enabled: bool, size: CosmoCircleButtonSize): (v: CircleButtonView)
    ensures !v.disabled
    ensures v.size == CircleSize(size) && v.iconSize == IconSize(size)
  {
    CircleButtonView(false, CircleSize(size), IconSize(size))
  }

  /** A circle button with `enabled` false still renders as enabled; the corrected one is disabled. */
  lemma DisabledCircleButtonStaysEnabled(size: CosmoCircleButtonSize)
    ensures !RenderCircleButtonAsWritten(false, size).disabled
    ensures RenderCircleButton(false, size).disabled
  {
  }

  /** The circle button with `enabled` honoured as the plain button honours it. */
  function RenderCircleButton(enabled: bool, size: CosmoCircleButtonSize): (v: CircleButtonView)
    ensures v.disabled <==> !enabled
    ensures v.size == CircleSize(size) && v.iconSize == IconSize(size)
    ensures enabled ==> v == RenderCircleButtonAsWritten(enabled, size)
  {
    CircleButtonView(!enabled, CircleSize(size), IconSize(size))
  }

  /** The props of the back button built without the router feature; `is_enabled` is false unless given. */
  const DefaultBackButtonEnabled: bool := false

  /** The rendered back button: an ordinary button, disabled exactly when not `is_enabled`. */
  function RenderBackButton(isEnabled: bool): (v: ButtonView)
    ensures v.disabled <==> !isEnabled
    ensures v.buttonType == "button" && v.hasClickHandler && v.classes == {BackButtonStyle}
  {
    ButtonView(!isEnabled, "button", true, {BackButtonStyle}, "")
  }

  /** A back button given no `is_enabled` is disabled. */
  lemma DefaultBackButtonIsDisabled()
    ensures RenderBackButton(DefaultBackButtonEnabled).disabled
  {
  }
}
