/**
 * The state behind the HTML controls page's two modern selects: a single
 * select holding one value, and a multiple select holding a list of values
 * that grows by `push` and shrinks by `position` + `swap_remove`.
 */
module HtmlPage {
  import opened Wrappers
  import opened Decimal

  /** The number of items in each of the page's modern selects. */
  const ItemCount: nat := 9

  /** The value of item `i` (0-based): the numerals "1" to "9". */
  function ItemValue(i: nat): (v: string)
    requires i < ItemCount
    ensures |v| == 1 && IsDigit(v[0]) && DigitValue(v[0]) == i + 1
  {
    [DigitChar(i + 1)]
  }

  lemma ItemValueInjective(i: nat, j: nat)
    requires i < ItemCount && j < ItemCount && ItemValue(i) == ItemValue(j)
    ensures i == j
  {
    assert DigitValue(ItemValue(i)[0]) == DigitValue(ItemValue(j)[0]);
  }

  predicate IsItemValue(v: string)
  {
    exists i :: 0 <= i < ItemCount && ItemValue(i) == v
  }

  /** The single select's flags: item `i` is shown selected exactly when its value is the state. */
  function SingleFlags(state: string): (flags: seq<bool>)
    ensures |flags| == ItemCount
    ensures forall i :: 0 <= i < ItemCount ==> (flags[i] <==> ItemValue(i) == state)
  {
    seq(ItemCount, i requires 0 <= i < ItemCount => ItemValue(i) == state)
  }

  /** While the state is one of the items' values, exactly one item is flagged. */
  lemma {:induction false} ExactlyOneSingleFlag(state: string, k: nat)
    requires k < ItemCount && ItemValue(k) == state
    ensures SingleFlags(state)[k]
    ensures forall i :: 0 <= i < ItemCount && SingleFlags(state)[i] ==> i == k
  {
    forall i | 0 <= i < ItemCount && SingleFlags(state)[i]
      ensures i == k
    {
      ItemValueInjective(i, k);
    }
  }

  /** The multiple select's flags: item `i` is shown selected exactly when the state contains its value. */
  function MultiFlags(state: seq<string>): (flags: seq<bool>)
    ensures |flags| == ItemCount
    ensures forall i :: 0 <= i < ItemCount ==> (flags[i] <==> ItemValue(i) in state)
  {
    seq(ItemCount, i requires 0 <= i < ItemCount => ItemValue(i) in state)
  }

  /** The index of the first occurrence of `v` in `s` (`iter().position`). */
  function Position(s: seq<string>, v: string): (p: Option<nat>)
    ensures p.Some? <==> v in s
    ensures p.Some? ==> p.value < |s| && s[p.value] == v && v !in s[..p.value]
    decreases |s|
  {
    if s == [] then None
    else if s[0] == v then Some(0)
    else
      var rest := Position(s[1..], v);
      assert s == [s[0]] + s[1..];
      if rest.Some? then
        assert s[..rest.value + 1] == [s[0]] + s[1..][..rest.value];
        Some(rest.value + 1)
      else None
  }

  /**
   * `Vec::swap_remove`: the element at `i` is removed and the last element
   * takes its place; every other position keeps its element.
   */
  function SwapRemove(s: seq<string>, i: nat): (r: seq<string>)
    requires i < |s|
    ensures |r| == |s| - 1
    ensures i < |r| ==> r[i] == s[|s| - 1]
    ensures forall j :: 0 <= j < |r| && j != i ==> r[j] == s[j]
    ensures multiset(r) == multiset(s) - multiset{s[i]}
  {
    SwapRemoveMultiset(s, i);
    s[i := s[|s| - 1]][..|s| - 1]
  }

  /** The multiset part of `SwapRemove`: the last element survives, one copy of `s[i]` does not. */
  lemma SwapRemoveMultiset(s: seq<string>, i: nat)
    requires i < |s|
    ensures multiset(s[i := s[|s| - 1]][..|s| - 1]) == multiset(s) - multiset{s[i]}
  {
    var last := s[|s| - 1];
    var t := s[i := last];
    var r := t[..|t| - 1];
    assert t == r + [last];
    UpdateMultiset(s, i, last);
    assert multiset(t) == multiset(r) + multiset{last};
    assert multiset(r) == multiset(t) - multiset{last};
  }

  /** Overwriting one position trades one copy of the old element for one of the new. */
  lemma UpdateMultiset(s: seq<string>, i: nat, x: string)
    requires i < |s|
    ensures multiset(s[i := x]) == multiset(s) - multiset{s[i]} + multiset{x}
  {
    assert s == s[..i] + [s[i]] + s[i + 1..];
    assert s[i := x] == s[..i] + [x] + s[i + 1..];
  }

  /** The deselect callback's effect on the list: remove the first occurrence, if any. */
  function Deselected(s: seq<string>, v: string): seq<string>
  {
    var p := Position(s, v);
    if p.Some? then SwapRemove(s, p.value) else s
  }

  /**
   * Deselecting an absent value changes nothing; deselecting a present one
   * removes exactly one copy of it and nothing else.
   */
  lemma {:induction false} DeselectRemovesOneCopy(s: seq<string>, v: string)
    ensures v !in s ==> Deselected(s, v) == s
    ensures v in s ==> |Deselected(s, v)| == |s| - 1 && multiset(Deselected(s, v)) == multiset(s) - multiset{v}
  {
  }

  predicate NoDuplicates(s: seq<string>)
  {
    forall i, j :: 0 <= i < j < |s| ==> s[i] != s[j]
  }

  /** A list without duplicates holds at most one copy of any value. */
  lemma {:induction false} AtMostOneCopy(s: seq<string>, v: string)
    requires NoDuplicates(s)
    ensures multiset(s)[v] <= 1
    decreases |s|
  {
    if s != [] {
      assert s == [s[0]] + s[1..];
      AtMostOneCopy(s[1..], v);
      if s[0] == v {
        assert v !in s[1..];
      }
    }
  }

  /** `swap_remove` on a list without duplicates leaves one without duplicates. */
  lemma SwapRemoveKeepsNoDuplicates(s: seq<string>, i: nat)
    requires NoDuplicates(s) && i < |s|
    ensures NoDuplicates(SwapRemove(s, i))
  {
    var r := SwapRemove(s, i);
    forall a, b | 0 <= a < b < |r|
      ensures r[a] != r[b]
    {
      if a == i {
        assert r[a] == s[|s| - 1] && r[b] == s[b];
      } else if b == i {
        assert r[b] == s[|s| - 1] && r[a] == s[a];
      } else {
        assert r[a] == s[a] && r[b] == s[b];
      }
    }
  }

  /**
   * In a list without duplicates, deselecting `v` leaves exactly the other
   * values selected, still without duplicates.
   */
  lemma {:induction false} DeselectWithoutDuplicates(s: seq<string>, v: string)
    requires NoDuplicates(s)
    ensures NoDuplicates(Deselected(s, v))
    ensures forall w :: w in Deselected(s, v) <==> w in s && w != v
  {
    var r := Deselected(s, v);
    DeselectRemovesOneCopy(s, v);
    AtMostOneCopy(s, v);
    if v in s {
      SwapRemoveKeepsNoDuplicates(s, Position(s, v).value);
    }
    forall w
      ensures w in r <==> w in s && w != v
    {
      assert w in r <==> multiset(r)[w] > 0;
      assert w in s <==> multiset(s)[w] > 0;
    }
  }

  /** Selecting a value the list does not hold keeps it free of duplicates. */
  lemma SelectWithoutDuplicates(s: seq<string>, v: string)
    requires NoDuplicates(s) && v !in s
    ensures NoDuplicates(s + [v])
  {
  }

  /** The multiple select's state: the selected values in the order kept by push and swap_remove. */
  class MultiSelect {
    var selected: seq<string>

    /** The page starts with item "1" selected. */
    constructor ()
      ensures selected == ["1"]
    {
      selected := ["1"];
    }

    /** The select callback: the value is pushed onto a copy of the list, which replaces the state. */
    method Select(v: string)
      modifies this
      ensures selected == old(selected) + [v]
      ensures |selected| == |old(selected)| + 1 && selected[..|old(selected)|] == old(selected)
    {
      var data := selected;
      data := data + [v];
      selected := data;
    }

    /** The deselect callback: the first occurrence, if any, is swap-removed from a copy, which replaces the state. */
    method Deselect(v: string)
      modifies this
      ensures selected == Deselected(old(selected), v)
    {
      var data := selected;
      var p := FindPosition(data, v);
      if p.Some? {
        data := SwapRemove(data, p.value);
      }
      selected := data;
    }

    /** The options' selected flags as rendered: `MultiFlags` of the current state. */
    function Flags(): seq<bool>
      reads this
    {
      MultiFlags(selected)
    }
  }

  /** The scan `iter().position` performs, front to back, stopping at the first match. */
  method FindPosition(s: seq<string>, v: string) returns (p: Option<nat>)
    ensures p == Position(s, v)
  {
    var i := 0;
    while i < |s|
      invariant 0 <= i <= |s|
      invariant v !in s[..i]
    {
      if s[i] == v {
        return Some(i);
      }
      assert s[..i + 1] == s[..i] + [s[i]];
      i := i + 1;
    }
    assert s[..i] == s;
    return None;
  }

  /** The single select's state: the value of the chosen item. */
  class SingleSelect {
    var selected: string

    /** The page starts with item "1" chosen. */
    constructor ()
      ensures selected == "1" && selected == ItemValue(0)
    {
      selected := "1";
    }

    /** The select callback replaces the state with the chosen item's value. */
    method Select(v: string)
      modifies this
      ensures selected == v
    {
      selected := v;
    }

    /** The options' selected flags as rendered: `SingleFlags` of the current state. */
    function Flags(): seq<bool>
      reads this
    {
      SingleFlags(selected)
    }
  }
}
