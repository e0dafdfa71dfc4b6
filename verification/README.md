# yew-cosmo in Dafny

A model of the behaviour of yew-cosmo, a Rust component library for the yew
web framework, and of the stateful parts of its documentation site. It
covers what the components decide from their props and from the text of DOM
events:

- the enum ↔ string mappings: modal type, theme, input width, text box type,
  message colours, header level, circle button size;
- the round trips among those mappings (modal type ↔ attribute value, theme ↔
  the theme page's dropdown value, `i64` ↔ its decimal text);
- how each form control turns the raw input text into the value it emits;
- the selection state of the side list and the tab control;
- the bottom bar's slots and progress area;
- the button rules;
- the docs pages' state: the HTML controls page's single and multiple
  select, the side-list page's growing list, the theme page and the dialogs
  page, and the application shell's title, redirects and menus.

Pure Rust code (matches, conditionals, `iter().find`) is modelled as
functions over datatypes. Component state that callbacks replace (`use_state`
hooks) is modelled as a class whose methods update its fields. The two loops
in the source are methods proved against specification functions:
`with_size` on the side-list page, and the `position` scan before
`swap_remove` on the HTML page. Strings are `seq<char>`. Rust's `i64`,
`i32` and `u8` are modelled as bounded ranges of `int`, with the wrap-around
of `as i32` and of `u8` subtraction written out.

One file per source component or page:

| file | models |
|---|---|
| `wrappers.dfy`, `decimal.dfy`, `css.dfy` | `Option`, decimal numerals, `var(--…)` references |
| `theme.dfy` | `src/lib.rs` |
| `modal.dfy` | `src/modal.rs` |
| `message.dfy` | `src/message.rs` |
| `form.dfy` | `src/form.rs` |
| `list.dfy` | `src/list.rs` |
| `tab.dfy` | `src/tab.rs` |
| `layout.dfy` | `src/layout.rs` |
| `typography.dfy` | `src/typography.rs` |
| `button.dfy` | `src/button.rs` |
| `docs_html.dfy`, `docs_side_list.dfy`, `docs_theme.dfy`, `docs_dialog.dfy`, `docs_app.dfy` | the docs pages of the same names |

`docs/src/routing/mod.rs` declares a `ControlsRoute::Message` variant that
the `switch_controls` match in `docs/src/pages/app.rs` does not handle. The
model follows `app.rs` and gives `ControlsRoute` the five routes that
`app.rs` renders.

## Model

| member | source | states |
|---|---|---|
| Theme.ToString | src/lib.rs:32-40 | only `Auto` writes the empty class; `Light` and `Dark` write the class names that the global stylesheet's `.cosmo--light-theme` and `.cosmo--dark-theme` selectors match (src/layout.rs:191, 219) |
| Theme.ToClasses | src/lib.rs:42-46 | the class list is empty exactly for `Auto`, and otherwise holds exactly the theme's class name |
| Theme.ToStringInjective | src/lib.rs:32-40 | distinct themes write distinct class names |
| Modal.ToString | src/modal.rs:56-67 | decoding a type's name with `From<String>` gives back the type |
| Modal.FromString | src/modal.rs:75-85 | exactly the four non-default names decode to a type other than `Primary`; every other string, "" and "primary" included, decodes to `Primary` |
| Modal.ToAttrValue | src/modal.rs:69-73 | `From<AttrValue>` applied to a type's attribute value gives back the type (src/modal.rs:87-91) |
| Modal.ToStringInjective | src/modal.rs:56-67 | distinct types have distinct names |
| Modal.AccentColor | src/modal.rs:22-31 | the five-arm table of accent variables is proved to name, for every type, the CSS variable of the type's name plus "-color" |
| Modal.AccentColorLight | src/modal.rs:33-42 | the five-arm light table is proved to name, for every type, the variable of the type's name plus "-color-light" |
| Modal.AccentColorLighter | src/modal.rs:44-53 | the five-arm lighter table is proved to name, for every type, the variable of the type's name plus "-color-lighter" |
| Modal.AccentVariableInjective | src/modal.rs:22-53 | for any one shade suffix, distinct types get distinct accent variables |
| Modal.AccentColorInjective | src/modal.rs:22-53 | distinct types get distinct accent colours in each of the three shades (base, light, lighter) |
| Modal.BodyTag | src/modal.rs:239 | the body is a `form` exactly when `is_form`, and a `div` otherwise |
| Modal.SubmitHandler | src/modal.rs:233-238 | a submit handler exists exactly when `on_form_submit` is given; it prevents the default submission and emits |
| Message.Background | src/message.rs:14-21 | the background is the variable named after the type's palette colour plus "-color-alpha-25" |
| Message.Border | src/message.rs:23-30 | the border is the variable named after the type's palette colour plus "-color" |
| Message.PaletteNameOf | src/message.rs:13-31 | a palette name followed by a fixed suffix determines the type |
| Message.BorderInjective | src/message.rs:23-30 | the four types get four different borders |
| Message.BackgroundInjective | src/message.rs:14-21 | the four types get four different backgrounds |
| Message.Render | src/message.rs:94-101 | the header span is present exactly when `header` is given and shows it; the paragraph shows the message |
| Form.WidthToString | src/form.rs:85-95 | `Auto` is "auto", `Full` is "100%", and the fixed widths are their pixel count as a numeral followed by "px" |
| Form.FixedWidthsIncrease | src/form.rs:88-92 | the small, medium and large widths are strictly increasing |
| Form.TextBoxTypeToString | src/form.rs:247-269 | the `type` attribute is "text" exactly for the default type `Text` |
| Form.TextBoxTypeNamesDistinct | src/form.rs:258-269 | the six types write six different `type` names |
| Form.DecimalStepAsWritten | src/form.rs:433-445 | with at least one decimal place the step is the intended one; with 0 places the `u8` subtraction wraps and the step has 256 decimal places |
| Form.DecimalStep | src/form.rs:445 | "1" for 0 places; otherwise "0." followed by `places` digits whose value is 1, i.e. one unit in the last place |
| Form.DecimalStepZeroPlacesDiffers | src/form.rs:433-445 | the as-written step for 0 places differs from the intended "1"; the default of 2 places gives "0.01" |
| Form.AccumulateStep | src/form.rs:411 | one more digit turns the signed accumulator `a` into `10a + d` (or `10a - d` for a negative number); for a numeral within the `i64` range, both `10a` and the next accumulator stay in range |
| Form.AccumulateCorrect | src/form.rs:411 | the digit-by-digit checked accumulation fails exactly when the numeral's value leaves the `i64` range, and otherwise yields that value |
| Form.ParseI64 | src/form.rs:411 | `i64::from_str_radix(s, 10)` succeeds exactly when `s` is an optional sign followed by one or more ASCII digits whose signed value fits in `i64`, and yields that value |
| Form.FormatI64 | src/form.rs:417 | the text a number box shows for an `i64` is a numeral for it, and parsing it gives the value back |
| Form.OutOfRangeRejected | src/form.rs:411 | a numeral above `i64::MAX`, or a negative one below `i64::MIN`, does not parse |
| Form.ParseI64Examples | src/form.rs:411 | "", "+", "-", "12a", " 1" and "1.5" are rejected; "+42" parses to 42 and "-007" to -7 |
| Form.NumberBoxOnInput | src/form.rs:409-411 | the number box emits the typed `i64` when the text parses, and its current value otherwise |
| Form.SliderOnInput | src/form.rs:903 | the slider follows the same parse-or-keep rule |
| Form.NumberBoxEchoesValue | src/form.rs:411-417 | typing exactly the text a number box or slider shows re-emits the value shown |
| Form.DatePickerOnInput | src/form.rs:197 | the date and time pickers emit the parsed value, or their current value when parsing fails (line 233 of the same file) |
| Form.DateTimePickerOnInput | src/form.rs:152-160 | the date-time and colour pickers emit the parsed value, and emit nothing when parsing fails (lines 517-523 of the same file) |
| Form.RenderDropdown | src/form.rs:736 | one option per item, with the item's id as its `value` attribute and its label as text, selected exactly when its id equals the dropdown's value |
| Form.AtMostOneOptionSelected | src/form.rs:736 | with distinct ids, at most one option is selected |
| Form.DropdownOnChange | src/form.rs:694-701 | the text "None" emits no value; any other text emits itself |
| Form.DropdownNoneItemEmitsLabel | src/form.rs:694-701 | an item without an id is rendered without a `value` attribute, so choosing it emits its label instead of no value (line 736 of the same file) |
| Form.OptionValueAttribute | src/form.rs:694-701 | an id-less item's value attribute is "None", and every other item's is its id; the change handler decodes it back to the item's id |
| Form.RenderDropdownCorrected | src/form.rs:736 | with those value attributes, choosing any option emits exactly its item's id; text and selection are as before |
| Form.RenderRadios | src/form.rs:801-819 | one radio per option, all sharing the group's name, each checked exactly when its option equals the group's value |
| Form.RadioClickChecksClicked | src/form.rs:756-759 | when option values are distinct, clicking radio `i` emits a value that, once rendered, checks radio `i` and no other (line 815 of the same file) |
| SideList.InitialSelection | src/list.rs:111-117 | the internal selection starts at the first item exactly when there are items, and is empty otherwise |
| SideList.EffectiveIndex | src/list.rs:118-122 | the selected index is `selected_index` when given, else the internal selection, else 0 |
| SideList.Click | src/list.rs:132-142 | with `on_select_item` a click emits its index and keeps the state; without it, a click emits nothing and selects its index |
| SideList.CallbackKeepsState | src/list.rs:135-137 | with `on_select_item`, no sequence of clicks changes the internal selection |
| SideList.LastClickSelected | src/list.rs:138-140 | without `on_select_item`, after clicks the internal selection is the last item clicked |
| SideList.ControlledIndexIgnoresClicks | src/list.rs:118-119 | with `selected_index` given, the effective index stays that index whatever is clicked |
| SideList.Nth | src/list.rs:162 | the content is the child at the index when it exists, and nothing otherwise |
| SideList.Render | src/list.rs:143-164 | exactly the item at the effective index is active; the add button is shown exactly when `has_add_button`; the content is that item's, if it exists |
| SideList.AtMostOneActive | src/list.rs:143-147 | at most one item is active |
| SideList.ClickShowsClickedItem | src/list.rs:118-147 | in an uncontrolled list, after clicking item `i` that item alone is active and its content is shown (line 162 of the same file) |
| SideList.SideListState.ClickItem | src/list.rs:132-142 | the click's emission and new state are those of `Click`; with a callback the state is unchanged |
| Tab.InitialSelection | src/tab.rs:57 | the selection starts at the first tab exactly when there are tabs, and is empty otherwise |
| Tab.Render | src/tab.rs:75-95 | a header is active exactly when the selection is its index; the content is the selected tab's, or nothing when no tab is selected or the index is past the end |
| Tab.AgreesWithSideList | src/tab.rs:57-95 | with a selection, the tab control renders like an uncontrolled side list; with none, it shows no content where the side list would show its first item |
| Tab.TabState.Click | src/tab.rs:68-74 | a header click selects that tab |
| Tab.ClickShowsTab | src/tab.rs:68-95 | after a click on an existing tab there is one active flag per tab, that tab's flag alone is set, and its content is shown |
| Layout.RenderTitle | src/layout.rs:40-47 | the `<small>` subtitle is rendered exactly when `subtitle` is given, and shows it |
| Layout.TopBarRightItem | src/layout.rs:322-324 | the top bar's right item is rendered exactly when `has_right_item`, with its label |
| Layout.LeftXorRight | src/layout.rs:441-449 | every bottom-bar child is a left or a right item, never both |
| Layout.FirstOnSide | src/layout.rs:518-519 | the index found is that of the first child of the wanted kind; no index is found exactly when there is no such child |
| Layout.FirstOnSideIgnoresLater | src/layout.rs:518-519 | appending children after the first one of a kind does not change which one is found |
| Layout.RenderBottomBar | src/layout.rs:518-535 | each slot is filled exactly when a child of its kind exists; the progress centre is shown exactly when the state is `Visible` or `Indeterminate`, with its labels, value and max, and its bar is indeterminate exactly for `Indeterminate` |
| Layout.SlotIsFirstOfItsKind | src/layout.rs:518-534 | a slot shows the item of the first child of its kind, so later children of that kind are not shown |
| Typography.FontSizeDecreasing | src/typography.rs:42-49 | a deeper header level gets a strictly smaller font size |
| Typography.FontSize | src/typography.rs:42-49 | the font size is the level's pixel size (32, 28, 24, 22, 20 and 16) as a numeral followed by "px" |
| Typography.Tag | src/typography.rs:42-49 | level `Hk` renders the element "hk" |
| Typography.TagInjective | src/typography.rs:42-49 | distinct levels render distinct elements |
| Typography.OnAnchorClick | src/typography.rs:115-120 | the anchor prevents the browser's navigation and emits exactly when `on_click` is given |
| Button.ButtonClasses | src/button.rs:152-161 | the classes always include the button style and "cosmo-button", include the full-width style exactly when `is_full_width`, and include nothing else |
| Button.DefaultButtonProps | src/button.rs:164-175 | a button given only its label is enabled, not a submit button, not full width and has no click handler |
| Button.RenderButton | src/button.rs:178-186 | the type is "submit" exactly when `is_submit` and "button" otherwise; the button is disabled exactly when not `enabled`; it has a click handler exactly when `on_click` is given |
| Button.DefaultButtonIsEnabled | src/button.rs:173-185 | a button with default props is enabled and of type "button" |
| Button.IconSmallerThanCircle | src/button.rs:262-271 | the icon is always strictly smaller than the circle, and both grow from small to medium to large |
| Button.CircleSize | src/button.rs:262-266 | the circle's size is its pixel count (24, 32 or 48) as a numeral followed by "px" |
| Button.IconSize | src/button.rs:267-271 | the icon's size is its pixel count (16, 24 or 32) as a numeral followed by "px" |
| Button.RenderCircleButtonAsWritten | src/button.rs:314-319 | the circle button as written is never disabled, whatever its `enabled` prop (lines 253-254 of the same file) is |
| Button.DisabledCircleButtonStaysEnabled | src/button.rs:253-254 | with `enabled` false, the circle button as written is enabled and the corrected one is disabled (lines 314-319 of the same file) |
| Button.RenderCircleButton | src/button.rs:253-271 | the corrected circle button is disabled exactly when not `enabled`; it renders as written whenever enabled |
| Button.RenderBackButton | src/button.rs:97-100 | without the router feature, the back button is an ordinary button, disabled exactly when not `is_enabled` |
| Button.DefaultBackButtonIsDisabled | src/button.rs:11-15 | `is_enabled` defaults to false, so a back button without it is disabled (line 99 of the same file) |
| HtmlPage.ItemValue | docs/src/pages/controls/html.rs:94-113 | the values of the nine items are the single digits "1" to "9" |
| HtmlPage.ItemValueInjective | docs/src/pages/controls/html.rs:94-113 | distinct items have distinct values |
| HtmlPage.SingleFlags | docs/src/pages/controls/html.rs:94-102 | in the single select, item `i` is flagged exactly when its value equals the state |
| HtmlPage.ExactlyOneSingleFlag | docs/src/pages/controls/html.rs:94-102 | while the state is an item's value, that item and only that item is flagged (the state is set at line 40 of the same file) |
| HtmlPage.MultiFlags | docs/src/pages/controls/html.rs:105-113 | in the multiple select, item `i` is flagged exactly when the state contains its value |
| HtmlPage.Position | docs/src/pages/controls/html.rs:48-49 | the index found is that of the first occurrence of the value; none is found exactly when the value is absent |
| HtmlPage.FindPosition | docs/src/pages/controls/html.rs:48-49 | the front-to-back scan returns the same index as `Position` |
| HtmlPage.SwapRemove | docs/src/pages/controls/html.rs:50 | `swap_remove` shortens the list by one, moves the last element into the removed slot, keeps every other position, and removes exactly one copy of the element from the multiset |
| HtmlPage.SwapRemoveMultiset | docs/src/pages/controls/html.rs:50 | after `swap_remove` at `i`, the list has lost exactly one copy of the element that was at `i` |
| HtmlPage.UpdateMultiset | docs/src/pages/controls/html.rs:50 | overwriting one position exchanges one copy of the old element for one copy of the new |
| HtmlPage.DeselectRemovesOneCopy | docs/src/pages/controls/html.rs:46-51 | deselecting an absent value leaves the list unchanged; deselecting a present one shortens it by one and removes exactly one copy of the value |
| HtmlPage.AtMostOneCopy | docs/src/pages/controls/html.rs:46-51 | a list without duplicates holds at most one copy of each value |
| HtmlPage.SwapRemoveKeepsNoDuplicates | docs/src/pages/controls/html.rs:50 | `swap_remove` keeps a list free of duplicates |
| HtmlPage.DeselectWithoutDuplicates | docs/src/pages/controls/html.rs:46-51 | in a list without duplicates, deselecting a value leaves exactly the other values selected, still without duplicates (lines 105-113 of the same file) |
| HtmlPage.SelectWithoutDuplicates | docs/src/pages/controls/html.rs:41-45 | pushing a value the list lacks keeps it free of duplicates |
| HtmlPage.MultiSelect.constructor | docs/src/pages/controls/html.rs:25 | the multiple select starts as ["1"] |
| HtmlPage.MultiSelect.Select | docs/src/pages/controls/html.rs:41-45 | the value is appended: the length grows by one and the earlier elements are unchanged |
| HtmlPage.MultiSelect.Deselect | docs/src/pages/controls/html.rs:46-51 | the new list is the old one with the first occurrence of the value swap-removed, or unchanged when the value is absent |
| HtmlPage.SingleSelect.Select | docs/src/pages/controls/html.rs:40 | the single select's state becomes the chosen value |
| SideListPage.AsI32 | docs/src/pages/controls/side_list.rs:10 | `as i32` keeps the value modulo 2^32 in the signed 32-bit range, and leaves values below 2^31 unchanged |
| SideListPage.Numbered | docs/src/pages/controls/side_list.rs:7-14 | `with_size(n)` has length `n`, and element `i` is `(i + 1) as i32` |
| SideListPage.WithSize | docs/src/pages/controls/side_list.rs:7-14 | the push loop builds exactly `Numbered(size)` |
| SideListPage.NumberedCountsUp | docs/src/pages/controls/side_list.rs:9-11 | below 2^31 elements, element `i` is `i + 1`: the list starts at 1 and is strictly increasing |
| SideListPage.NumberedPrefix | docs/src/pages/controls/side_list.rs:7-14 | `with_size(n)` is a prefix of `with_size(n + 1)`, which appends `n + 1` |
| SideListPage.AddsFromStart | docs/src/pages/controls/side_list.rs:18-21 | starting from [1], after `k` presses of the add button the state is `with_size(k + 1)` |
| SideListPage.SideListPageState.AddItem | docs/src/pages/controls/side_list.rs:19-21 | the state becomes `with_size` of its length plus one |
| ThemePage.ThemeFromToggle | docs/src/pages/cosmo/theme.rs:21-33 | no value decodes to `Auto`; "dark" decodes to `Dark`; any other value, "light" included, decodes to `Light` |
| ThemePage.ThemeToDropdown | docs/src/pages/cosmo/theme.rs:49-53 | the dropdown value of a theme decodes back to the theme, and is absent exactly for `Auto` |
| ThemePage.ThemeItems | docs/src/pages/cosmo/theme.rs:53 | the three items carry the dropdown values of `Auto`, `Light` and `Dark`, the first having no id |
| ThemePage.AutomaticChoiceGivesLight | docs/src/pages/cosmo/theme.rs:21-33 | as rendered, choosing "Automatic" sets the `Light` theme (line 53 of the same file) |
| ThemePage.CorrectedChoiceRoundTrips | docs/src/pages/cosmo/theme.rs:21-33 | with the corrected rendering, choosing each item sets its own theme (lines 49-53 of the same file) |
| ThemePage.ThemePageState.constructor | docs/src/pages/cosmo/theme.rs:8-11 | the page starts in `Auto` with both alerts closed |
| ThemePage.ThemePageState.BodyClasses | docs/src/pages/cosmo/theme.rs:38 | the body carries no class in the automatic theme, and otherwise exactly the class that the global stylesheet's selector for the chosen theme matches |
| ThemePage.ThemePageState.OnToggleTheme | docs/src/pages/cosmo/theme.rs:21-33 | the theme becomes the decoded value; the alert flags are unchanged |
| ThemePage.ThemePageState.OpenLightThemeDialog | docs/src/pages/cosmo/theme.rs:13-16 | the light alert opens; nothing else changes |
| ThemePage.ThemePageState.CloseLightThemeDialog | docs/src/pages/cosmo/theme.rs:64 | the light alert closes; nothing else changes |
| ThemePage.ThemePageState.OpenDarkThemeDialog | docs/src/pages/cosmo/theme.rs:17-20 | the dark alert opens; nothing else changes |
| ThemePage.ThemePageState.CloseDarkThemeDialog | docs/src/pages/cosmo/theme.rs:67 | the dark alert closes; nothing else changes |
| DialogPage.AccentFlags | docs/src/pages/controls/dialog.rs:46-52 | item `i` of the accent select is flagged exactly when its type is the accent state |
| DialogPage.ExactlyOneAccentFlag | docs/src/pages/controls/dialog.rs:46-52 | exactly one of the five accent items is flagged |
| DialogPage.DialogPageState.constructor | docs/src/pages/controls/dialog.rs:9-13 | all three dialogs start closed and the accent starts at `Primary` |
| DialogPage.DialogPageState.SetAlertOpen | docs/src/pages/controls/dialog.rs:15-16 | the alert's flag is set; the other flags and the accent are unchanged |
| DialogPage.DialogPageState.SetConfirmOpen | docs/src/pages/controls/dialog.rs:17-18 | the confirm dialog's flag is set; the others are unchanged |
| DialogPage.DialogPageState.SetModalOpen | docs/src/pages/controls/dialog.rs:19-20 | the form modal's flag is set; the others are unchanged |
| DialogPage.DialogPageState.SelectAccent | docs/src/pages/controls/dialog.rs:21 | the accent becomes the decoded attribute value; the flags are unchanged |
| DialogPage.ChooseAccent | docs/src/pages/controls/dialog.rs:21 | choosing item `i` makes its type the accent and flags that item alone (lines 46-52 of the same file) |
| DocsApp.FormatTitle | docs/src/pages/app.rs:21-27 | an empty title gives "Cosmo Yew"; any other title is kept as a prefix and followed by " – Cosmo Yew", with an en dash |
| DocsApp.FormatTitleInjective | docs/src/pages/app.rs:21-27 | distinct page titles give distinct window titles |
| DocsApp.SwitchApp | docs/src/pages/app.rs:186-196 | the home page and the three section roots redirect, each within its own section; home redirects to the first main-menu link (the Cosmo root), and each section root to its sub-menu's first page (About, HTML Controls, Base layout); only home redirects to another top-level route; each wildcard renders its own section |
| DocsApp.Landing | docs/src/pages/app.rs:186-196 | following the redirects always lands, within the starting route's section, on a section page |
| DocsApp.RedirectsSettle | docs/src/pages/app.rs:188-193 | routes that render are their own landing; the Cosmo, Controls and Layout roots land on About, Html and Base; the home page lands where the Cosmo root does |
| DocsApp.SwitchBottomBar | docs/src/pages/app.rs:198-215 | the bottom bar is rendered exactly on `Layout` and `LayoutRoot`, with an indeterminate progress state |
| DocsApp.LayoutBottomBarShowsEverything | docs/src/pages/app.rs:200-211 | on the layout pages the bar shows its left item, its right item and an indeterminate progress bar |
| DocsApp.SubMenuFlags | docs/src/pages/app.rs:29-37 | a sub-menu entry is active exactly when the current route equals its target |
| DocsApp.OneActiveSubMenuEntry | docs/src/pages/app.rs:39-71 | on every page of a section, exactly one entry of that section's sub-menu is active |
| DocsApp.SwitchSubMenu | docs/src/pages/app.rs:39-71 | the entries `switch_sub_menu` builds for a top-level route depend only on its section (`SectionOf`: Home and the Cosmo routes, the Controls routes, the Layout routes), are that section's entries in menu order, and hold only targets of that section |
| DocsApp.RedirectLandsOnFirstSubMenuEntry | docs/src/pages/app.rs:39-71 | a route that redirects lands on the target of the first entry `switch_sub_menu` builds for that route (lines 186-196 of the same file) |
| DocsApp.MainMenuFlags | docs/src/pages/app.rs:73-81 | a main-menu entry is active exactly when the route equals its `active` route |
| DocsApp.MainMenuActiveOnWildcardOnly | docs/src/pages/app.rs:73-81 | on a section's wildcard route only that section's entry is active; on home and the section roots, the routes the entries link to, none is (lines 231-233 of the same file) |

## Left out

- DocsApp.SwitchSubMenu: models the entries the bar's markup holds, not what is drawn. Each entry is wrapped in a `Switch` over its section's route enum, none of which has a not-found variant (docs/src/routing/mod.rs:22-56), so an entry renders only while the URL matches a route of its section. On the redirecting routes ("/", "/cosmo", "/controls", "/layout") and on unknown sub-paths the bar stays empty until the redirect has navigated.
- All CSS text (`use_style!`, `GlobalStyle`, the theme variable blocks). It is presentation data with no behaviour; only the class and variable names that the code chooses are modelled.
- The modal's portal plumbing (looking up, creating, appending and removing the host element) and `use_modal`. These are browser side effects.
- chrono date and time parsing and `color_art` hex parsing are foreign library calls. The pickers take the parser as a parameter, so only the fallback rules are modelled. The date-time picker's `from_local_datetime(&naive).unwrap()` (src/form.rs:152-160) panics on a local time that does not exist or is ambiguous; that panic path lies inside the abstracted parser and is not modelled.
- `CosmoDecimalBox`'s `f64` parsing is floating point and is not modelled. Its `step` attribute is modelled.
- The file picker, checkbox, switch, text box and text area handlers forward the DOM value or file unchanged, so there is nothing to decide.
- The random `uuid` ids of inputs and options are randomness. They only serve as element ids and list keys.
- The router-driven back button depends on browser history and is not modelled. The back button without the router feature is modelled.
- Path recognition in `docs/src/routing/mod.rs` is generated by the `Routable` derive. Routes are modelled as datatypes.
- The `cosmo/` crate is an older copy of the same components (styling, plus button rules already covered by `src/button.rs`).
- `src/loader.rs`, `src/menu.rs`, `src/table.rs` and `src/toolbar.rs` are markup with at most a one-line boolean class toggle.
- The static docs pages (about, customize, typography, base, showcase, tab control, toolbar, message), `docs/src/ui/mod.rs` and `docs/src/main.rs` are not modelled.
- The docs pages' remaining `use_state` hooks only store what a control emits.
- Form.ParseI64: the kind of `ParseIntError` is not modelled; the result is `None` whatever the cause.
- Form.DecimalStepAsWritten: models a release build, where `0u8 - 1` wraps to 255. A debug build panics instead.
- SideList.Click: the `usize` width of indices is not modelled, because indices are list positions.
- SideListPage.WithSize: the `usize` overflow of `i + 1` and of the state's length plus one is not modelled, because no list can reach that length. The `as i32` truncation is modelled.
- HtmlPage.SingleSelect.Select: the values the modern select emits are not restricted to item values. The exactly-one property is stated for states that are item values.
- Re-render scheduling and `use_state_eq`'s equality check are not modelled. They decide when the page redraws, not what it shows.

## Findings

| source | as written | input that shows it | evidently intended | confidence | as-written member | corrected member |
|---|---|---|---|---|---|---|
| src/form.rs:433-434, 445 | the step is built with `decimal_places - 1` zeros, and that subtraction is done in `u8` | `decimal_places = 0`: the subtraction wraps to 255 zeros in a release build (a debug build panics) | a step of "1" for an integer-valued decimal box | medium, not executed | Form.DecimalStepAsWritten | Form.DecimalStep |
| src/form.rs:736; docs/src/pages/cosmo/theme.rs:21-33, 53 | an item with id `None` is rendered with no `value` attribute, so the browser reports the option's text, and the change handler turns only the text "None" into `None` | choosing "Automatic" on the theme page emits `Some("Automatic")`, which sets the `Light` theme | the id-less item emits `None`, so "Automatic" selects `Auto` | medium, not executed | ThemePage.AutomaticChoiceGivesLight | ThemePage.CorrectedChoiceRoundTrips |
| src/button.rs:253-254, 314-319 | the circle button has an `enabled` prop, but the rendered `<button>` has no `disabled` attribute | `enabled = false`: the button can still be clicked and emits | disabled exactly when not `enabled`, as the plain button at src/button.rs:185 does | medium, not executed | Button.RenderCircleButtonAsWritten | Button.RenderCircleButton |
