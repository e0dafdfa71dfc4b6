/** The colour theme of the library (`CosmoTheme` in the prelude). */
module Theme {

  /** `Auto` follows the operating system's light or dark preference; it is the default. */
  datatype CosmoTheme = Auto | Light | Dark

  const DefaultTheme: CosmoTheme := Auto

  /** The global stylesheet's selectors that force a theme. */
  const LightThemeSelector: string := ".cosmo--light-theme"
  const DarkThemeSelector: string := ".cosmo--dark-theme"

  /**
   * The CSS class a theme puts on an element. Only `Auto` adds no class;
   * the two forced themes name the selectors of the global stylesheet.
   */
  function ToString(t: CosmoTheme): (r: string)
    ensures r == "" <==> t == Auto
    ensures t == Light ==> "." + r == LightThemeSelector
    ensures t == Dark ==> "." + r == DarkThemeSelector
  {
    match t
    case Auto => ""
    case Light => "cosmo--light-theme"
    case Dark => "cosmo--dark-theme"
  }

  /**
   * `From<CosmoTheme> for Classes`: the class list built from `ToString`.
   * A class list holds class names; the empty string contributes none.
   */
  function ToClasses(t: CosmoTheme): (r: set<string>)
    ensures r == {} <==> t == Auto
    ensures forall c :: c in r ==> c == ToString(t)
    ensures t != Auto ==> ToString(t) in r
  {
    var name := ToString(t);
    if name == "" then {} else {name}
  }

  /** The three themes write three different class names. */
  lemma ToStringInjective(t: CosmoTheme, u: CosmoTheme)
    ensures ToString(t) == ToString(u) ==> t == u
  {
  }
}
