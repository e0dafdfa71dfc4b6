/** Inline messages: their type decides the background and border colours. */
module Message {
  import opened Wrappers
  import Css

  /** `CosmoMessageType`; `Information` is the default. */
  datatype CosmoMessageType = Information | Warning | Positive | Negative

  const DefaultMessageType: CosmoMessageType := Information

  /** The palette entry a message type draws its colours from. */
  function PaletteName(t: CosmoMessageType): string {
    match t
    case Information => "information"
    case Warning => "warning"
    case Positive => "positive"
    case Negative => "negative"
  }

  /** `get_background`: the translucent (25 % alpha) variant of the palette colour. */
  function Background(t: CosmoMessageType): (r: string)
    ensures r == Css.Var(PaletteName(t) + "-color-alpha-25")
  {
    match t
    case Information =>
      assert "information-color-alpha-25" == PaletteName(Information) + "-color-alpha-25";
      Css.Var("information-color-alpha-25")
    case Warning =>
      assert "warning-color-alpha-25" == PaletteName(Warning) + "-color-alpha-25";
      Css.Var("warning-color-alpha-25")
    case Positive =>
      assert "positive-color-alpha-25" == PaletteName(Positive) + "-color-alpha-25";
      Css.Var("positive-color-alpha-25")
    case Negative =>
      assert "negative-color-alpha-25" == PaletteName(Negative) + "-color-alpha-25";
      Css.Var("negative-color-alpha-25")
  }

  /** `get_border`: the opaque palette colour. */
  function Border(t: CosmoMessageType): (r: string)
    ensures r == Css.Var(PaletteName(t) + "-color")
  {
    match t
    case Information =>
      assert "information-color" == PaletteName(Information) + "-color";
      Css.Var("information-color")
    case Warning =>
      assert "warning-color" == PaletteName(Warning) + "-color";
      Css.Var("warning-color")
    case Positive =>
      assert "positive-color" == PaletteName(Positive) + "-color";
      Css.Var("positive-color")
    case Negative =>
      assert "negative-color" == PaletteName(Negative) + "-color";
      Css.Var("negative-color")
  }

  /** A palette name is a prefix of any text built from it, so it can be read back. */
  lemma PaletteNameOf(t: CosmoMessageType, u: CosmoMessageType, suffix: string)
    requires PaletteName(t) + suffix == PaletteName(u) + suffix
    ensures t == u
  {
    var a, b := PaletteName(t) + suffix, PaletteName(u) + suffix;
    assert PaletteName(t) == a[..|a| - |suffix|];
    assert PaletteName(u) == b[..|b| - |suffix|];
  }

  /** The four types draw four different borders. */
  lemma {:induction false} BorderInjective(t: CosmoMessageType, u: CosmoMessageType)
    ensures Border(t) == Border(u) ==> t == u
  {
    if Border(t) == Border(u) {
      Css.VarInjective(PaletteName(t) + "-color", PaletteName(u) + "-color");
      PaletteNameOf(t, u, "-color");
    }
  }

  /** The four types draw four different backgrounds. */
  lemma {:induction false} BackgroundInjective(t: CosmoMessageType, u: CosmoMessageType)
    ensures Background(t) == Background(u) ==> t == u
  {
    if Background(t) == Background(u) {
      Css.VarInjective(PaletteName(t) + "-color-alpha-25", PaletteName(u) + "-color-alpha-25");
      PaletteNameOf(t, u, "-color-alpha-25");
    }
  }

  /** What a message renders: an optional header span above the message paragraph. */
  datatype MessageView = MessageView(headerSpan: Option<string>, paragraph: string)

  function Render(header: Option<string>, message: string): (v: MessageView)
    ensures v.headerSpan.Some? <==> header.Some?
    ensures header.Some? ==> v.headerSpan.value == header.value
    ensures v.paragraph == message
  {
    MessageView(header, message)
  }
}
