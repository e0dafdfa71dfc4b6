/**
 * Typography: the heading component, whose level decides its tag and font
 * size, and the anchor, whose click handler defers to an optional callback.
 */
module Typography {
  import opened Wrappers
  import opened Decimal

  datatype CosmoHeaderLevel = H1 | H2 | H3 | H4 | H5 | H6

  /** The level a heading gets when none is given. */
  const DefaultHeaderLevel: CosmoHeaderLevel := H1

  /** The level's number `k` in `Hk`. */
  function Rank(l: CosmoHeaderLevel): (k: nat)
    ensures 1 <= k <= 6
  {
    match l
    case H1 => 1
    case H2 => 2
    case H3 => 3
    case H4 => 4
    case H5 => 5
    case H6 => 6
  }

  /** The heading's font size in pixels. */
  function FontSizePx(l: CosmoHeaderLevel): nat
  {
    match l
    case H1 => 32
    case H2 => 28
    case H3 => 24
    case H4 => 22
    case H5 => 20
    case H6 => 16
  }

  /** A deeper level never gets a larger font, and distinct levels get distinct sizes. */
  lemma {:induction false} FontSizeDecreasing(l: CosmoHeaderLevel, m: CosmoHeaderLevel)
    requires Rank(l) < Rank(m)
    ensures FontSizePx(m) < FontSizePx(l)
  {
    match l
    case H1 =>
    case H2 =>
    case H3 =>
    case H4 =>
    case H5 =>
    case H6 =>
  }

  /** The CSS `font-size` value: the pixel count as a decimal numeral followed by "px". */
  function FontSize(l: CosmoHeaderLevel): (r: string)
    ensures r == NatToString(FontSizePx(l)) + "px"
  {
    match l
    case H1 => "32px"
    case H2 => "28px"
    case H3 => "24px"
    case H4 => "22px"
    case H5 => "20px"
    case H6 => "16px"
  }

  /** The element the heading renders: "h" followed by the level's number. */
  function Tag(l: CosmoHeaderLevel): (r: string)
    ensures r == "h" + [DigitChar(Rank(l))]
  {
    match l
    case H1 => "h1"
    case H2 => "h2"
    case H3 => "h3"
    case H4 => "h4"
    case H5 => "h5"
    case H6 => "h6"
  }

  /** Distinct levels render distinct tags. */
  lemma {:induction false} TagInjective(l: CosmoHeaderLevel, m: CosmoHeaderLevel)
    requires Tag(l) == Tag(m)
    ensures l == m
  {
    assert Tag(l)[1] == DigitChar(Rank(l));
    assert DigitValue(Tag(l)[1]) == Rank(l);
    assert Rank(l) == Rank(m);
  }

  /** What the anchor's click handler does with the browser's click event. */
  datatype AnchorClick = AnchorClick(defaultPrevented: bool, emitted: bool)

  /**
   * With an `on_click` callback the anchor stops the navigation and emits;
   * without one the click is left to the browser and the `href` is followed.
   */
  function OnAnchorClick<C>(onClick: Option<C>): (r: AnchorClick)
    ensures r.defaultPrevented <==> onClick.Some?
    ensures r.emitted <==> onClick.Some?
  {
    if onClick.Some? then AnchorClick(true, true) else AnchorClick(false, false)
  }
}
