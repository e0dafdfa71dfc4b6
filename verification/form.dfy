/**
 * Form controls: the width and input-type names, the decimal box's step, and
 * how each control turns the raw text of a DOM event into the value it emits.
 */
module Form {
  import opened Wrappers
  import opened Decimal

  // ---------------------------------------------------------------------
  // Widths and text box types

  /** `CosmoInputWidth`; `Full` is the default. */
  datatype CosmoInputWidth = Auto | Small | Medium | Large | Full

  const DefaultWidth: CosmoInputWidth := Full

  /** The fixed widths in pixels; `Auto` and `Full` have none. */
  function WidthPixels(w: CosmoInputWidth): Option<nat> {
    match w
    case Small => Some(240)
    case Medium => Some(480)
    case Large => Some(720)
    case _ => None
  }

  /** The CSS width a control gets (`to_string`). */
  function WidthToString(w: CosmoInputWidth): (r: string)
    ensures w == Auto ==> r == "auto"
    ensures w == Full ==> r == "100%"
    ensures WidthPixels(w).Some? ==> r == NatToString(WidthPixels(w).value) + "px"
  {
    match w
    case Auto => "auto"
    case Small => "240px"
    case Medium => "480px"
    case Large => "720px"
    case Full => "100%"
  }

  /** The fixed widths grow from small to large. */
  lemma FixedWidthsIncrease()
    ensures WidthPixels(Small).value < WidthPixels(Medium).value < WidthPixels(Large).value
  {
  }

  /** `CosmoTextBoxType`; `Text` is the default. */
  datatype CosmoTextBoxType = Email | Password | Search | Tel | Text | Url

  const DefaultTextBoxType: CosmoTextBoxType := Text

  /** The HTML `type` attribute of a text box (`to_string`). */
  function TextBoxTypeToString(t: CosmoTextBoxType): (r: string)
    ensures t == DefaultTextBoxType <==> r == "text"
  {
    match t
    case Email => "email"
    case Password => "password"
    case Search => "search"
    case Tel => "tel"
    case Text => "text"
    case Url => "url"
  }

  /** The six types have six different HTML names. */
  lemma TextBoxTypeNamesDistinct(t: CosmoTextBoxType, u: CosmoTextBoxType)
    ensures TextBoxTypeToString(t) == TextBoxTypeToString(u) ==> t == u
  {
  }

  // ---------------------------------------------------------------------
  // The decimal box's `step` attribute

  const DefaultDecimalPlaces: nat := 2
  const U8Modulus: nat := 256

  function Zeros(n: nat): (r: string)
    ensures |r| == n && AllDigits(r)
    ensures forall i :: 0 <= i < n ==> r[i] == '0'
  {
    seq(n, _ => '0')
  }

  /** Zeros before a one do not change its value. */
  lemma {:induction false} LeadingZerosThenOne(n: nat)
    ensures AllDigits(Zeros(n) + "1") && DigitsValue(Zeros(n) + "1") == 1
  {
    var s := Zeros(n) + "1";
    assert s[..|s| - 1] == Zeros(n);
    ZerosValue(n);
  }

  lemma {:induction false} ZerosValue(n: nat)
    ensures DigitsValue(Zeros(n)) == 0
  {
    if n > 0 {
      assert Zeros(n)[..n - 1] == Zeros(n - 1);
      ZerosValue(n - 1);
    }
  }

  /**
   * The step as written: "0." then `decimal_places - 1` zeros then "1", the
   * subtraction done in `u8`. With 0 places it wraps to 255 zeros (a release
   * build; a debug build panics instead).
   */
  function DecimalStepAsWritten(places: nat): (r: string)
    requires places < U8Modulus
    ensures 0 < places ==> r == DecimalStep(places)
    ensures places == 0 ==> |r| == 2 + 255 + 1
  {
    "0." + Zeros((places - 1) % U8Modulus) + "1"
  }

  /**
   * The step the decimal box is meant to have: one unit in the last of
   * `places` decimal places, so "1" when there are none.
   */
  function DecimalStep(places: nat): (r: string)
    requires places < U8Modulus
    ensures places == 0 ==> r == "1"
    ensures 0 < places ==> |r| == places + 2 && r[..2] == "0."
    ensures 0 < places ==> AllDigits(r[2..]) && DigitsValue(r[2..]) == 1
  {
    if places == 0 then "1"
    else
      var r := "0." + Zeros(places - 1) + "1";
      assert r[2..] == Zeros(places - 1) + "1";
      LeadingZerosThenOne(places - 1);
      r
  }

  /** With no decimal places the step as written has 256 decimal places, not none. */
  lemma DecimalStepZeroPlacesDiffers()
    ensures DecimalStepAsWritten(0) != DecimalStep(0)
    ensures DecimalStep(DefaultDecimalPlaces) == "0.01"
  {
  }

  // ---------------------------------------------------------------------
  // Integers as `i64::from_str_radix(text, 10)` reads them

  const I64Min: int := -0x8000_0000_0000_0000
  const I64Max: int := 0x7FFF_FFFF_FFFF_FFFF

  predicate InI64(x: int) {
    I64Min <= x <= I64Max
  }

  function Signed(negative: bool, n: nat): int {
    if negative then -(n as int) else n as int
  }

  /**
   * The integer a string denotes in the radix-10 grammar: an optional `+` or
   * `-` and then at least one digit, nothing else; the range is not checked.
   */
  function LiteralValue(s: string): Option<int> {
    if |s| == 0 then None
    else if s[0] == '+' || s[0] == '-' then
      if 1 < |s| && AllDigits(s[1..]) then Some(Signed(s[0] == '-', DigitsValue(s[1..]))) else None
    else if AllDigits(s) then Some(DigitsValue(s))
    else None
  }

  /**
   * The digit loop of `from_str_radix`: for each character, multiply the
   * accumulator by ten with overflow checking, then add (or, for a negative
   * number, subtract) the digit with overflow checking.
   */
  function Accumulate(digits: string, negative: bool, i: nat, acc: int): Option<int>
    requires i <= |digits|
    decreases |digits| - i
  {
    if i == |digits| then Some(acc)
    else if !IsDigit(digits[i]) then None
    else
      var scaled := acc * 10;
      if !InI64(scaled) then None
      else
        var next := if negative then scaled - DigitValue(digits[i]) else scaled + DigitValue(digits[i]);
        if !InI64(next) then None
        else Accumulate(digits, negative, i + 1, next)
  }

  /**
   * One step of the loop: the next accumulator is the signed value of one
   * more digit, and both it and the scaled accumulator lie between zero and
   * the signed value of the whole numeral.
   */
  lemma AccumulateStep(digits: string, negative: bool, i: nat)
    requires i < |digits| && AllDigits(digits[..i + 1])
    ensures AllDigits(digits[..i])
    ensures var acc := Signed(negative, DigitsValue(digits[..i]));
            var d := DigitValue(digits[i]);
            Signed(negative, DigitsValue(digits[..i + 1])) == (if negative then acc * 10 - d else acc * 10 + d)
    ensures AllDigits(digits) ==>
              var acc := Signed(negative, DigitsValue(digits[..i]));
              var next := Signed(negative, DigitsValue(digits[..i + 1]));
              var whole := Signed(negative, DigitsValue(digits));
              (InI64(whole) ==> InI64(acc * 10) && InI64(next))
  {
    AppendDigit(digits, i);
    if AllDigits(digits) {
      PrefixValueAtMost(digits, i + 1);
    }
  }

  /**
   * The checked loop fails exactly when some character is not a digit or the
   * whole numeral is out of range: every intermediate value is a prefix's
   * value, which never exceeds the whole numeral's.
   */
  lemma {:induction false} AccumulateCorrect(digits: string, negative: bool, i: nat, acc: int)
    requires i <= |digits| && AllDigits(digits[..i])
    requires acc == Signed(negative, DigitsValue(digits[..i])) && InI64(acc)
    ensures Accumulate(digits, negative, i, acc) ==
              if AllDigits(digits) && InI64(Signed(negative, DigitsValue(digits)))
              then Some(Signed(negative, DigitsValue(digits))) else None
    decreases |digits| - i
  {
    if i == |digits| {
      assert digits[..i] == digits;
    } else if IsDigit(digits[i]) {
      assert digits[..i + 1] == digits[..i] + [digits[i]];
      AccumulateStep(digits, negative, i);
      var next := Signed(negative, DigitsValue(digits[..i + 1]));
      if InI64(acc * 10) && InI64(next) {
        AccumulateCorrect(digits, negative, i + 1, next);
      }
    }
  }

  /**
   * `i64::from_str_radix(s, 10)`: the value of the literal when the text is
   * one and the value fits in 64 bits, and no value otherwise.
   */
  function ParseI64(s: string): (r: Option<int>)
    ensures r == if LiteralValue(s).Some? && InI64(LiteralValue(s).value) then LiteralValue(s) else None
  {
    if |s| == 0 then None
    else if (s[0] == '+' || s[0] == '-') && |s| == 1 then None
    else
      var negative := s[0] == '-';
      var digits := if s[0] == '+' || s[0] == '-' then s[1..] else s;
      assert digits[..0] == [];
      AccumulateCorrect(digits, negative, 0, 0);
      Accumulate(digits, negative, 0, 0)
  }

  /** How an `i64` is written into the control (`value.to_string()`); parsing reads it back. */
  function FormatI64(v: int): (r: string)
    requires InI64(v)
    ensures LiteralValue(r) == Some(v)
    ensures ParseI64(r) == Some(v)
  {
    if v < 0 then
      var r := "-" + NatToString(-v);
      assert r[1..] == NatToString(-v);
      r
    else
      NatToString(v)
  }

  /** A numeral one past either end of the 64-bit range does not parse. */
  lemma OutOfRangeRejected(n: nat)
    requires n > I64Max
    ensures ParseI64(NatToString(n)) == None
    ensures ParseI64("-" + NatToString(n + 1)) == None
  {
    assert ("-" + NatToString(n + 1))[1..] == NatToString(n + 1);
  }

  /** Texts that are and are not base-10 integers. */
  lemma ParseI64Examples()
    ensures ParseI64("") == None && ParseI64("+") == None && ParseI64("-") == None
    ensures ParseI64("12a") == None && ParseI64(" 1") == None && ParseI64("1.5") == None
    ensures ParseI64("+42") == Some(42) && ParseI64("-007") == Some(-7)
  {
    assert "12a"[2] == 'a';
    assert " 1"[0] == ' ';
    assert "1.5"[1] == '.';
    assert "+42"[1..] == "42";
    assert "-007"[1..] == "007";
  }

  // ---------------------------------------------------------------------
  // What each control emits for the text of an input event

  /**
   * Number box: the typed integer when the text is a base-10 `i64`, otherwise
   * the box's current value.
   */
  function NumberBoxOnInput(text: string, value: int): (r: int)
    requires InI64(value)
    ensures InI64(r)
    ensures LiteralValue(text).Some? && InI64(LiteralValue(text).value) ==> r == LiteralValue(text).value
    ensures !(LiteralValue(text).Some? && InI64(LiteralValue(text).value)) ==> r == value
  {
    ParseI64(text).GetOr(value)
  }

  /** Slider: the same parse-or-keep rule as the number box. */
  function SliderOnInput(text: string, value: int): (r: int)
    requires InI64(value)
    ensures InI64(r)
    ensures LiteralValue(text).Some? && InI64(LiteralValue(text).value) ==> r == LiteralValue(text).value
    ensures !(LiteralValue(text).Some? && InI64(LiteralValue(text).value)) ==> r == value
  {
    NumberBoxOnInput(text, value)
  }

  /** The text a number box shows is read back as the value it shows. */
  lemma NumberBoxEchoesValue(v: int, current: int)
    requires InI64(v) && InI64(current)
    ensures NumberBoxOnInput(FormatI64(v), current) == v
    ensures SliderOnInput(FormatI64(v), current) == v
  {
  }

  /**
   * Date and time pickers: the parsed value, or the picker's current value
   * when the text does not parse. The date format parser is a parameter.
   */
  function DatePickerOnInput<D>(parse: string -> Option<D>, text: string, value: D): (r: D)
    ensures parse(text).Some? ==> r == parse(text).value
    ensures parse(text).None? ==> r == value
  {
    parse(text).GetOr(value)
  }

  /**
   * Date-time and colour pickers: emit the parsed value, and emit nothing when
   * the text does not parse.
   */
  function DateTimePickerOnInput<D>(parse: string -> Option<D>, text: string): (r: Option<D>)
    ensures r.None? <==> parse(text).None?
    ensures r.Some? ==> r.value == parse(text).value
  {
    parse(text)
  }

  // ---------------------------------------------------------------------
  // Dropdown

  /** A dropdown entry: an optional id and the label shown. */
  datatype DropdownItem = DropdownItem(id: Option<string>, caption: string)

  /** A rendered `<option>`: its `value` attribute (absent for `None`), its text and `selected`. */
  datatype OptionElement = OptionElement(value: Option<string>, text: string, selected: bool)

  const NoneSentinel: string := "None"

  /** The options of a dropdown: one per item, selected exactly when its id is the dropdown's value. */
  function RenderDropdown(value: Option<string>, items: seq<DropdownItem>): (r: seq<OptionElement>)
    ensures |r| == |items|
    ensures forall i :: 0 <= i < |r| ==> r[i].value == items[i].id && r[i].text == items[i].caption
    ensures forall i :: 0 <= i < |r| ==> (r[i].selected <==> items[i].id == value)
  {
    seq(|items|, i requires 0 <= i < |items| => OptionElement(items[i].id, items[i].caption, items[i].id == value))
  }

  predicate DistinctIds(items: seq<DropdownItem>) {
    forall i, j :: 0 <= i < j < |items| ==> items[i].id != items[j].id
  }

  /** With distinct ids, at most one option is selected. */
  lemma AtMostOneOptionSelected(value: Option<string>, items: seq<DropdownItem>, i: nat, j: nat)
    requires DistinctIds(items) && i < |items| && j < |items|
    requires RenderDropdown(value, items)[i].selected && RenderDropdown(value, items)[j].selected
    ensures i == j
  {
  }

  /** The change handler: the sentinel "None" emits no value, any other text emits itself. */
  function DropdownOnChange(text: string): (r: Option<string>)
    ensures r.None? <==> text == NoneSentinel
    ensures r.Some? ==> r.value == text
  {
    if text == NoneSentinel then None else Some(text)
  }

  /**
   * The value a `<select>` reports for a chosen option (section 4.10.10 of the
   * HTML Living Standard): the `value` attribute when present, else the text.
   */
  function OptionDomValue(o: OptionElement): string {
    match o.value
    case Some(v) => v
    case None => o.text
  }

  /**
   * As rendered, an item without an id has no `value` attribute, so choosing
   * it reports its label and the handler emits that label, not `None`.
   */
  lemma DropdownNoneItemEmitsLabel(value: Option<string>, items: seq<DropdownItem>, i: nat)
    requires i < |items| && items[i].id.None? && items[i].caption != NoneSentinel
    ensures DropdownOnChange(OptionDomValue(RenderDropdown(value, items)[i])) == Some(items[i].caption)
  {
  }

  /** The `value` attribute an item should carry: its id, or the sentinel when it has none. */
  function OptionValueAttribute(id: Option<string>): (r: string)
    ensures id != Some(NoneSentinel) ==> DropdownOnChange(r) == id
  {
    id.GetOr(NoneSentinel)
  }

  /** Options rendered with `OptionValueAttribute`: choosing any of them emits its id. */
  function RenderDropdownCorrected(value: Option<string>, items: seq<DropdownItem>): (r: seq<OptionElement>)
    ensures |r| == |items|
    ensures forall i :: 0 <= i < |r| && items[i].id != Some(NoneSentinel) ==>
              DropdownOnChange(OptionDomValue(r[i])) == items[i].id
    ensures forall i :: 0 <= i < |r| ==> r[i].text == items[i].caption && (r[i].selected <==> items[i].id == value)
  {
    seq(|items|, i requires 0 <= i < |items| =>
      OptionElement(Some(OptionValueAttribute(items[i].id)), items[i].caption, items[i].id == value))
  }

  // ---------------------------------------------------------------------
  // Radio group

  /** A rendered radio input: its value, the group's shared `name`, `checked` and its label. */
  datatype RadioInput = RadioInput(value: string, name: string, checked: bool, caption: string)

  /**
   * The radios of a group: one per option, all under the one group `name`,
   * each checked exactly when its option is the group's value.
   */
  function RenderRadios(value: string, options: seq<(string, string)>, name: string): (r: seq<RadioInput>)
    ensures |r| == |options|
    ensures forall i :: 0 <= i < |r| ==> r[i].name == name
    ensures forall i :: 0 <= i < |r| ==> r[i].value == options[i].0 && r[i].caption == options[i].1
    ensures forall i :: 0 <= i < |r| ==> (r[i].checked <==> options[i].0 == value)
  {
    seq(|options|, i requires 0 <= i < |options| =>
      RadioInput(options[i].0, name, options[i].0 == value, options[i].1))
  }

  /** Clicking a radio emits that radio's value. */
  function RadioOnClick(input: RadioInput): string {
    input.value
  }

  /**
   * Clicking radio `i` and rendering the group with the emitted value checks
   * radio `i` and no other, when the option values are distinct.
   */
  lemma RadioClickChecksClicked(value: string, options: seq<(string, string)>, name: string, i: nat)
    requires i < |options|
    requires forall a, b :: 0 <= a < b < |options| ==> options[a].0 != options[b].0
    ensures var emitted := RadioOnClick(RenderRadios(value, options, name)[i]);
            forall k :: 0 <= k < |options| ==> (RenderRadios(emitted, options, name)[k].checked <==> k == i)
  {
  }
}
