/**
 * The dialogs docs page: three open flags (alert, confirm and form modal) and
 * the accent type the three dialogs share, chosen in a modern select.
 */
module DialogPage {
  import opened Modal

  /** The accent select's items, in the order the page lists them. */
  const AccentChoices: seq<CosmoModalType> := [Primary, Information, Warning, Positive, Negative]

  /** The accent select's flags: item `i` is shown selected exactly when its type is the state. */
  function AccentFlags(accent: CosmoModalType): (flags: seq<bool>)
    ensures |flags| == |AccentChoices|
    ensures forall i :: 0 <= i < |flags| ==> (flags[i] <==> AccentChoices[i] == accent)
  {
    seq(|AccentChoices|, i requires 0 <= i < |AccentChoices| => AccentChoices[i] == accent)
  }

  /** Whatever the state, exactly one of the five items is flagged. */
  lemma {:induction false} ExactlyOneAccentFlag(accent: CosmoModalType)
    ensures exists k :: 0 <= k < |AccentChoices| && AccentFlags(accent)[k]
    ensures forall i, j :: 0 <= i < j < |AccentChoices| ==> !(AccentFlags(accent)[i] && AccentFlags(accent)[j])
  {
    var k := match accent
      case Primary => 0
      case Information => 1
      case Warning => 2
      case Positive => 3
      case Negative => 4;
    assert AccentFlags(accent)[k];
  }

  /** The page's state. */
  class DialogPageState {
    var alertOpen: bool
    var confirmOpen: bool
    var modalOpen: bool
    var accent: CosmoModalType

    /** The page starts with every dialog closed and the `Primary` accent. */
    constructor ()
      ensures !alertOpen && !confirmOpen && !modalOpen && accent == Primary
    {
      alertOpen, confirmOpen, modalOpen := false, false, false;
      accent := Primary;
    }

    /** Sets the alert's flag; nothing else changes. */
    method SetAlertOpen(open: bool)
      modifies this
      ensures alertOpen == open
      ensures confirmOpen == old(confirmOpen) && modalOpen == old(modalOpen) && accent == old(accent)
    {
      alertOpen := open;
    }

    /** Sets the confirm dialog's flag; nothing else changes. */
    method SetConfirmOpen(open: bool)
      modifies this
      ensures confirmOpen == open
      ensures alertOpen == old(alertOpen) && modalOpen == old(modalOpen) && accent == old(accent)
    {
      confirmOpen := open;
    }

    /** Sets the form modal's flag; nothing else changes. */
    method SetModalOpen(open: bool)
      modifies this
      ensures modalOpen == open
      ensures alertOpen == old(alertOpen) && confirmOpen == old(confirmOpen) && accent == old(accent)
    {
      modalOpen := open;
    }

    /** The select callback: the chosen item's value is decoded back into a type. */
    method SelectAccent(value: string)
      modifies this
      ensures accent == FromAttrValue(value)
      ensures alertOpen == old(alertOpen) && confirmOpen == old(confirmOpen) && modalOpen == old(modalOpen)
    {
      accent := FromAttrValue(value);
    }

    /** The accent select's flags as rendered: `AccentFlags` of the current accent. */
    function Flags(): seq<bool>
      reads this
    {
      AccentFlags(accent)
    }
  }

  /** Choosing item `i` of the accent select makes its type the accent, and flags that item alone. */
  method ChooseAccent(page: DialogPageState, i: nat)
    requires i < |AccentChoices|
    modifies page
    ensures page.accent == AccentChoices[i]
    ensures forall j :: 0 <= j < |AccentChoices| ==> (page.Flags()[j] <==> j == i)
  {
    page.SelectAccent(ToAttrValue(AccentChoices[i]));
  }
}
