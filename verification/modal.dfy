/**
 * Modal dialogs: the accent type with its string codec and colour variables,
 * and the choices the modal makes when it renders its body.
 */
module Modal {
  import opened Wrappers
  import Css

  /** `CosmoModalType` (also used as the alert type); `Primary` is the default. */
  datatype CosmoModalType = Primary | Information | Warning | Positive | Negative

  const DefaultModalType: CosmoModalType := Primary

  /** The name a type is written as (`to_string`). */
  function ToString(t: CosmoModalType): (r: string)
    ensures FromString(r) == t
  {
    match t
    case Primary => "primary"
    case Information => "information"
    case Warning => "warning"
    case Positive => "positive"
    case Negative => "negative"
  }

  /**
   * `From<String>`: the four non-default names decode to their type and every
   * other string, the empty one and "primary" included, to `Primary`.
   */
  function FromString(s: string): (t: CosmoModalType)
    ensures t != Primary <==> s in {"information", "warning", "positive", "negative"}
  {
    match s
    case "information" => Information
    case "warning" => Warning
    case "positive" => Positive
    case "negative" => Negative
    case _ => Primary
  }

  /** `From<CosmoModalType> for AttrValue`: the attribute value is the type's name. */
  function ToAttrValue(t: CosmoModalType): (a: string)
    ensures FromAttrValue(a) == t
  {
    ToString(t)
  }

  /** `From<AttrValue>`: decodes the attribute's text with `FromString`. */
  function FromAttrValue(a: string): CosmoModalType
  {
    FromString(a)
  }

  /** Two types with the same name are the same type. */
  lemma {:induction false} ToStringInjective(t: CosmoModalType, u: CosmoModalType)
    ensures ToString(t) == ToString(u) ==> t == u
  {
    if ToString(t) == ToString(u) {
      calc {
        t;
        FromString(ToString(t));
        FromString(ToString(u));
        u;
      }
    }
  }

  /**
   * The naming scheme the three accent tables follow: the CSS variable named
   * after the type followed by a shade's suffix ("-color", "-color-light",
   * "-color-lighter").
   */
  function AccentVariable(t: CosmoModalType, suffix: string): string
  {
    Css.Var(ToString(t) + suffix)
  }

  /**
   * `get_modal_accent_color`: a five-arm table of variable names, written out
   * arm by arm, proved to follow the naming scheme.
   */
  function AccentColor(t: CosmoModalType): (r: string)
    ensures r == Css.Var(ToString(t) + "-color")
  {
    match t
    case Primary =>
      assert "primary-color" == ToString(Primary) + "-color";
      Css.Var("primary-color")
    case Information =>
      assert "information-color" == ToString(Information) + "-color";
      Css.Var("information-color")
    case Warning =>
      assert "warning-color" == ToString(Warning) + "-color";
      Css.Var("warning-color")
    case Positive =>
      assert "positive-color" == ToString(Positive) + "-color";
      Css.Var("positive-color")
    case Negative =>
      assert "negative-color" == ToString(Negative) + "-color";
      Css.Var("negative-color")
  }

  /**
   * `get_modal_accent_color_light`: a five-arm table of variable names, written out
   * arm by arm, proved to follow the naming scheme.
   */
  function AccentColorLight(t: CosmoModalType): (r: string)
    ensures r == Css.Var(ToString(t) + "-color-light")
  {
    match t
    case Primary =>
      assert "primary-color-light" == ToString(Primary) + "-color-light";
      Css.Var("primary-color-light")
    case Information =>
      assert "information-color-light" == ToString(Information) + "-color-light";
      Css.Var("information-color-light")
    case Warning =>
      assert "warning-color-light" == ToString(Warning) + "-color-light";
      Css.Var("warning-color-light")
    case Positive =>
      assert "positive-color-light" == ToString(Positive) + "-color-light";
      Css.Var("positive-color-light")
    case Negative =>
      assert "negative-color-light" == ToString(Negative) + "-color-light";
      Css.Var("negative-color-light")
  }

  /**
   * `get_modal_accent_color_lighter`: a five-arm table of variable names, written out
   * arm by arm, proved to follow the naming scheme.
   */
  function AccentColorLighter(t: CosmoModalType): (r: string)
    ensures r == Css.Var(ToString(t) + "-color-lighter")
  {
    match t
    case Primary =>
      assert "primary-color-lighter" == ToString(Primary) + "-color-lighter";
      Css.Var("primary-color-lighter")
    case Information =>
      assert "information-color-lighter" == ToString(Information) + "-color-lighter";
      Css.Var("information-color-lighter")
    case Warning =>
      assert "warning-color-lighter" == ToString(Warning) + "-color-lighter";
      Css.Var("warning-color-lighter")
    case Positive =>
      assert "positive-color-lighter" == ToString(Positive) + "-color-lighter";
      Css.Var("positive-color-lighter")
    case Negative =>
      assert "negative-color-lighter" == ToString(Negative) + "-color-lighter";
      Css.Var("negative-color-lighter")
  }

  /** For any one shade, different types have different accent variables. */
  lemma {:induction false} AccentVariableInjective(t: CosmoModalType, u: CosmoModalType, suffix: string)
    ensures AccentVariable(t, suffix) == AccentVariable(u, suffix) ==> t == u
  {
    if AccentVariable(t, suffix) == AccentVariable(u, suffix) {
      Css.VarInjective(ToString(t) + suffix, ToString(u) + suffix);
      assert ToString(t) == (ToString(t) + suffix)[..|ToString(t)|];
      assert ToString(u) == (ToString(u) + suffix)[..|ToString(u)|];
      ToStringInjective(t, u);
    }
  }

  /** Different types have different accent colours, in each of the three shades. */
  lemma {:induction false} AccentColorInjective(t: CosmoModalType, u: CosmoModalType)
    ensures AccentColor(t) == AccentColor(u) ==> t == u
    ensures AccentColorLight(t) == AccentColorLight(u) ==> t == u
    ensures AccentColorLighter(t) == AccentColorLighter(u) ==> t == u
  {
    AccentVariableInjective(t, u, "-color");
    AccentVariableInjective(t, u, "-color-light");
    AccentVariableInjective(t, u, "-color-lighter");
  }

  /** What a submit event on the modal's body does. */
  datatype SubmitOutcome = SubmitOutcome(defaultPrevented: bool, emitted: bool)

  /** The element the modal's body is rendered as: a form exactly when `is_form`. */
  function BodyTag(isForm: bool): (tag: string)
    ensures tag == "form" <==> isForm
    ensures tag == "div" <==> !isForm
  {
    if isForm then "form" else "div"
  }

  /**
   * The submit handler: present exactly when `on_form_submit` is given; it
   * prevents the browser's submission and emits to the callback.
   */
  function SubmitHandler<C>(onFormSubmit: Option<C>): (h: Option<SubmitOutcome>)
    ensures h.Some? <==> onFormSubmit.Some?
    ensures h.Some? ==> h.value.defaultPrevented && h.value.emitted
  {
    match onFormSubmit
    case Some(_) => Some(SubmitOutcome(true, true))
    case None => None
  }
}
