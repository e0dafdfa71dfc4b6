/**
 * The theme docs page: a dropdown that forces a theme on the page body, and
 * two buttons opening an alert dialog in the light or the dark theme.
 */
module ThemePage {
  import opened Wrappers
  import opened Theme
  import Form

  const DarkValue: string := "dark"
  const LightValue: string := "light"

  /** The dropdown's select callback: no value is `Auto`, "dark" is `Dark`, any other value `Light`. */
  function ThemeFromToggle(value: Option<string>): (t: CosmoTheme)
    ensures t == Auto <==> value.None?
    ensures t == Dark <==> value == Some(DarkValue)
    ensures t == Light <==> value.Some? && value.value != DarkValue
  {
    match value
    case None => Auto
    case Some(v) => if v == DarkValue then Dark else Light
  }

  /** The dropdown's value for the current theme. */
  function ThemeToDropdown(t: CosmoTheme): (value: Option<string>)
    ensures ThemeFromToggle(value) == t
    ensures value.None? <==> t == Auto
  {
    match t
    case Auto => None
    case Dark => Some(DarkValue)
    case Light => Some(LightValue)
  }

  /** The dropdown's three items: "Automatic" without an id, then light and dark. */
  function ThemeItems(): (items: seq<Form.DropdownItem>)
    ensures |items| == 3 && items[0].id.None?
    ensures forall i :: 0 <= i < 3 ==> items[i].id == ThemeToDropdown([Auto, Light, Dark][i])
  {
    [Form.DropdownItem(None, "Automatic"),
     Form.DropdownItem(Some(LightValue), "Light theme"),
     Form.DropdownItem(Some(DarkValue), "Dark theme")]
  }

  /**
   * As rendered, choosing "Automatic" reports the option's text, which the
   * page decodes as `Light`, not `Auto`.
   */
  lemma {:induction false} AutomaticChoiceGivesLight(t: CosmoTheme)
    ensures ThemeFromToggle(Form.DropdownOnChange(Form.OptionDomValue(Form.RenderDropdown(ThemeToDropdown(t), ThemeItems())[0]))) == Light
  {
    Form.DropdownNoneItemEmitsLabel(ThemeToDropdown(t), ThemeItems(), 0);
  }

  /** With the corrected rendering, choosing the item for any theme selects that theme. */
  lemma {:induction false} CorrectedChoiceRoundTrips(current: CosmoTheme, i: nat)
    requires i < 3
    ensures ThemeFromToggle(Form.DropdownOnChange(Form.OptionDomValue(Form.RenderDropdownCorrected(ThemeToDropdown(current), ThemeItems())[i])))
            == [Auto, Light, Dark][i]
  {
    var items := ThemeItems();
    assert items[i].id != Some(Form.NoneSentinel);
  }

  /** The page's state: the forced theme and whether each alert dialog is open. */
  class ThemePageState {
    var theme: CosmoTheme
    var lightAlertOpen: bool
    var darkAlertOpen: bool

    /** The page starts in the automatic theme with both dialogs closed. */
    constructor ()
      ensures theme == Auto && !lightAlertOpen && !darkAlertOpen
    {
      theme := Auto;
      lightAlertOpen := false;
      darkAlertOpen := false;
    }

    /**
     * The classes put on the document body: none in the automatic theme, and
     * otherwise the class that the global stylesheet's selector for the
     * chosen theme matches.
     */
    function BodyClasses(): (r: set<string>)
      reads this
      ensures r == {} <==> theme == Auto
      ensures forall c :: c in r ==> "." + c == (if theme == Light then LightThemeSelector else DarkThemeSelector)
      ensures theme != Auto ==> ToString(theme) in r
    {
      ToClasses(theme)
    }

    method OnToggleTheme(value: Option<string>)
      modifies this
      ensures theme == ThemeFromToggle(value)
      ensures lightAlertOpen == old(lightAlertOpen) && darkAlertOpen == old(darkAlertOpen)
    {
      match value {
        case None => theme := Auto;
        case Some(v) =>
          if v == DarkValue {
            theme := Dark;
          } else {
            theme := Light;
          }
      }
    }

    method OpenLightThemeDialog()
      modifies this
      ensures lightAlertOpen
      ensures theme == old(theme) && darkAlertOpen == old(darkAlertOpen)
    {
      lightAlertOpen := true;
    }

    method CloseLightThemeDialog()
      modifies this
      ensures !lightAlertOpen
      ensures theme == old(theme) && darkAlertOpen == old(darkAlertOpen)
    {
      lightAlertOpen := false;
    }

    method OpenDarkThemeDialog()
      modifies this
      ensures darkAlertOpen
      ensures theme == old(theme) && lightAlertOpen == old(lightAlertOpen)
    {
      darkAlertOpen := true;
    }

    method CloseDarkThemeDialog()
      modifies this
      ensures !darkAlertOpen
      ensures theme == old(theme) && lightAlertOpen == old(lightAlertOpen)
    {
      darkAlertOpen := false;
    }
  }
}
