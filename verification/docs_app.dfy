/**
 * The docs application shell: the window title format, the redirects of the
 * section roots, the menus' active entries and the layout-only bottom bar.
 */
module DocsApp {
  import opened Wrappers
  import Layout

  const SiteName: string := "Cosmo Yew"

  /** The separator between a page title and the site name: an en dash between spaces. */
  const TitleSeparator: string := " \U{2013} "

  /** `format_title`: the site name alone for an empty title, else the title, the separator and the site name. */
  function FormatTitle(s: string): (r: string)
    ensures s == [] ==> r == SiteName
    ensures s != [] ==> |r| == |s| + |TitleSeparator| + |SiteName|
    ensures s != [] ==> r[..|s|] == s && r[|s|..] == TitleSeparator + SiteName
  {
    if s == [] then SiteName else s + TitleSeparator + SiteName
  }

  /** Distinct page titles give distinct window titles. */
  lemma {:induction false} FormatTitleInjective(s: string, t: string)
    requires FormatTitle(s) == FormatTitle(t)
    ensures s == t
  {
    if s != [] && t != [] {
      assert |s| == |t|;
      assert s == FormatTitle(s)[..|s|];
    }
  }

  /** The top-level routes: a section root and a section wildcard per section, and the home page. */
  datatype DocsRoute = Home | CosmoRoot | Cosmo | ControlsRoot | Controls | LayoutRoot | Layout

  datatype CosmoRoute = About | Typography | ThemePage | Customize

  datatype ControlsRoute = Html | SideList | TabControl | Toolbar | Dialog

  datatype LayoutRoute = Base | Showcase

  /** A route of any of the four routers. */
  datatype Target = ToDocs(docs: DocsRoute) | ToCosmo(cosmo: CosmoRoute) | ToControls(controls: ControlsRoute) | ToLayout(layout: LayoutRoute)

  /** What the page body shows for a top-level route: a redirect, or a section's page switch. */
  datatype BodyView = Redirect(to: Target) | CosmoPages | ControlsPages | LayoutPages

  /** The documentation's three sections. */
  datatype Section = CosmoSection | ControlsSection | LayoutSection

  /** The section a route belongs to; the home page belongs to the Cosmo section. */
  function SectionOf(t: Target): Section
  {
    match t
    case ToDocs(d) =>
      (match d
       case Home | CosmoRoot | Cosmo => CosmoSection
       case ControlsRoot | Controls => ControlsSection
       case LayoutRoot | Layout => LayoutSection)
    case ToCosmo(_) => CosmoSection
    case ToControls(_) => ControlsSection
    case ToLayout(_) => LayoutSection
  }

  /**
   * `switch_app`: the home page and the section roots redirect, each to a
   * route of its own section; the wildcards render their section's pages.
   * The home page redirects to the first main-menu entry's link, and each
   * section root to the first entry of its section's sub-menu markup.
   */
  function SwitchApp(route: DocsRoute): (v: BodyView)
    ensures v.Redirect? <==> route in {Home, CosmoRoot, ControlsRoot, LayoutRoot}
    ensures v.Redirect? ==> SectionOf(v.to) == SectionOf(ToDocs(route))
    ensures v.Redirect? && v.to.ToDocs? ==> route == Home
    ensures route == Home ==> v == Redirect(ToDocs(MainMenu[0].to))
    ensures route == CosmoRoot ==> v == Redirect(ToCosmo(CosmoEntries[0]))
    ensures route == ControlsRoot ==> v == Redirect(ToControls(ControlsEntries[0]))
    ensures route == LayoutRoot ==> v == Redirect(ToLayout(LayoutEntries[0]))
    ensures v == CosmoPages <==> route == Cosmo
    ensures v == ControlsPages <==> route == Controls
    ensures v == LayoutPages <==> route == Layout
  {
    match route
    case Home => Redirect(ToDocs(CosmoRoot))
    case CosmoRoot => Redirect(ToCosmo(About))
    case Cosmo => CosmoPages
    case ControlsRoot => Redirect(ToControls(Html))
    case Controls => ControlsPages
    case LayoutRoot => Redirect(ToLayout(Base))
    case Layout => LayoutPages
  }

  /** One step of routing, a helper of `Landing`: the redirect's target of `SwitchApp`, or the route itself when it renders. */
  function Hop(route: DocsRoute): Target
  {
    var v := SwitchApp(route);
    if v.Redirect? then v.to else ToDocs(route)
  }

  /** Where a top-level route ends up once every redirect has been followed. */
  function Landing(route: DocsRoute): (t: Target)
    ensures !t.ToDocs? || t.docs in {Cosmo, Controls, Layout}
    ensures SectionOf(t) == SectionOf(ToDocs(route))
  {
    var first := Hop(route);
    if first.ToDocs? then Hop(first.docs) else first
  }

  /**
   * Redirects stop after at most two hops: a rendering route is its own
   * landing, each section root lands on its sub-menu's first page, and the
   * home page lands where the Cosmo root does, on the About page.
   */
  lemma {:induction false} RedirectsSettle(route: DocsRoute)
    ensures !SwitchApp(route).Redirect? ==> Landing(route) == ToDocs(route)
    ensures Landing(CosmoRoot) == ToCosmo(About)
    ensures Landing(ControlsRoot) == ToControls(Html)
    ensures Landing(LayoutRoot) == ToLayout(Base)
    ensures Landing(Home) == Landing(CosmoRoot)
  {
    assert SwitchApp(Home) == Redirect(ToDocs(CosmoRoot));
    assert SwitchApp(CosmoRoot) == Redirect(ToCosmo(About));
  }

  /** `switch_bottom_bar`: the layout pages get the demo bottom bar; every other route gets none. */
  function SwitchBottomBar(route: DocsRoute): (bar: Option<Layout.BottomBarProps<string>>)
    ensures bar.Some? <==> route == Layout || route == LayoutRoot
    ensures bar.Some? ==> bar.value.progressState == Layout.Indeterminate
  {
    if route == Layout || route == LayoutRoot then
      Some(Layout.BottomBarProps(
        [Layout.LeftItem("I am a button on the left"), Layout.RightItem("I am a right button")],
        "Top label", "Bottom label", Layout.Indeterminate, 0, 0))
    else None
  }

  /** On the layout pages the bar shows both items and an indeterminate progress bar. */
  lemma {:induction false} LayoutBottomBarShowsEverything(route: DocsRoute)
    requires route == Layout || route == LayoutRoot
    ensures var v := Layout.RenderBottomBar(SwitchBottomBar(route).value);
            v.left == Some("I am a button on the left") && v.right == Some("I am a right button") &&
            v.center.Some? && v.center.value.indeterminate
  {
    var props := SwitchBottomBar(route).value;
    Layout.SlotIsFirstOfItsKind(props, 0, true);
    Layout.SlotIsFirstOfItsKind(props, 1, false);
  }

  /** A sub-menu's active flags: an entry is active exactly when the current route is its target. */
  function SubMenuFlags<R(==)>(entries: seq<R>, current: R): (flags: seq<bool>)
    ensures |flags| == |entries|
    ensures forall i :: 0 <= i < |entries| ==> (flags[i] <==> entries[i] == current)
  {
    seq(|entries|, i requires 0 <= i < |entries| => entries[i] == current)
  }

  const CosmoEntries: seq<CosmoRoute> := [About, Typography, ThemePage, Customize]
  const ControlsEntries: seq<ControlsRoute> := [Html, SideList, TabControl, Toolbar, Dialog]
  const LayoutEntries: seq<LayoutRoute> := [Base, Showcase]

  /** Every page of a section has exactly one active entry in that section's sub-menu. */
  lemma {:induction false} OneActiveSubMenuEntry(c: CosmoRoute, k: ControlsRoute, l: LayoutRoute)
    ensures exists i :: 0 <= i < |CosmoEntries| && SubMenuFlags(CosmoEntries, c)[i]
    ensures forall i, j :: 0 <= i < j < |CosmoEntries| ==> !(SubMenuFlags(CosmoEntries, c)[i] && SubMenuFlags(CosmoEntries, c)[j])
    ensures exists i :: 0 <= i < |ControlsEntries| && SubMenuFlags(ControlsEntries, k)[i]
    ensures forall i, j :: 0 <= i < j < |ControlsEntries| ==> !(SubMenuFlags(ControlsEntries, k)[i] && SubMenuFlags(ControlsEntries, k)[j])
    ensures exists i :: 0 <= i < |LayoutEntries| && SubMenuFlags(LayoutEntries, l)[i]
    ensures forall i, j :: 0 <= i < j < |LayoutEntries| ==> !(SubMenuFlags(LayoutEntries, l)[i] && SubMenuFlags(LayoutEntries, l)[j])
  {
    var ci := match c case About => 0 case Typography => 1 case ThemePage => 2 case Customize => 3;
    assert SubMenuFlags(CosmoEntries, c)[ci];
    var ki := match k case Html => 0 case SideList => 1 case TabControl => 2 case Toolbar => 3 case Dialog => 4;
    assert SubMenuFlags(ControlsEntries, k)[ki];
    var li := match l case Base => 0 case Showcase => 1;
    assert SubMenuFlags(LayoutEntries, l)[li];
  }

  /**
   * `switch_sub_menu`: the entries the sub-menu bar's markup holds for a
   * top-level route, as their targets. The markup depends only on the route's
   * section, and every entry lies in that section. Each entry sits inside a
   * section router's `Switch`, so it is drawn only while the URL matches a
   * route of that section.
   */
  function SwitchSubMenu(route: DocsRoute): (entries: seq<Target>)
    ensures |entries| > 0
    ensures forall i :: 0 <= i < |entries| ==> SectionOf(entries[i]) == SectionOf(ToDocs(route))
    ensures SectionOf(ToDocs(route)) == CosmoSection ==>
              |entries| == |CosmoEntries| && forall i :: 0 <= i < |entries| ==> entries[i] == ToCosmo(CosmoEntries[i])
    ensures SectionOf(ToDocs(route)) == ControlsSection ==>
              |entries| == |ControlsEntries| && forall i :: 0 <= i < |entries| ==> entries[i] == ToControls(ControlsEntries[i])
    ensures SectionOf(ToDocs(route)) == LayoutSection ==>
              |entries| == |LayoutEntries| && forall i :: 0 <= i < |entries| ==> entries[i] == ToLayout(LayoutEntries[i])
  {
    match route
    case Home | CosmoRoot | Cosmo => [ToCosmo(About), ToCosmo(Typography), ToCosmo(ThemePage), ToCosmo(Customize)]
    case ControlsRoot | Controls =>
      [ToControls(Html), ToControls(SideList), ToControls(TabControl), ToControls(Toolbar), ToControls(Dialog)]
    case LayoutRoot | Layout => [ToLayout(Base), ToLayout(Showcase)]
  }

  /**
   * A route that redirects lands on the target of the first entry that
   * `switch_sub_menu` builds for it, so the page reached is one the bar
   * offers once the redirect has navigated.
   */
  lemma {:induction false} RedirectLandsOnFirstSubMenuEntry(route: DocsRoute)
    requires SwitchApp(route).Redirect?
    ensures Landing(route) == SwitchSubMenu(route)[0]
  {
    RedirectsSettle(route);
  }

  /** A main-menu entry: the route it links to and the route that marks it active. */
  datatype MainMenuEntry = MainMenuEntry(caption: string, to: DocsRoute, active: DocsRoute)

  const MainMenu: seq<MainMenuEntry> := [
    MainMenuEntry("Cosmo", CosmoRoot, Cosmo),
    MainMenuEntry("Controls", ControlsRoot, Controls),
    MainMenuEntry("Layout", LayoutRoot, Layout)]

  /** The main menu's active flags: an entry is active exactly when the route is its `active` route. */
  function MainMenuFlags(route: DocsRoute): (flags: seq<bool>)
    ensures |flags| == |MainMenu|
    ensures forall i :: 0 <= i < |MainMenu| ==> (flags[i] <==> route == MainMenu[i].active)
  {
    seq(|MainMenu|, i requires 0 <= i < |MainMenu| => route == MainMenu[i].active)
  }

  /**
   * On a section's wildcard route exactly that section's entry is active; on
   * the home page and the section roots, the routes entries link to, none is.
   */
  lemma {:induction false} MainMenuActiveOnWildcardOnly(route: DocsRoute)
    ensures route in {Home, CosmoRoot, ControlsRoot, LayoutRoot} ==>
              forall i :: 0 <= i < |MainMenu| ==> !MainMenuFlags(route)[i]
    ensures route == Cosmo ==> MainMenuFlags(route) == [true, false, false]
    ensures route == Controls ==> MainMenuFlags(route) == [false, true, false]
    ensures route == Layout ==> MainMenuFlags(route) == [false, false, true]
  {
    var f := MainMenuFlags(route);
    assert f[0] <==> route == Cosmo;
    assert f[1] <==> route == Controls;
    assert f[2] <==> route == Layout;
  }
}
