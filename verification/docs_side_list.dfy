/**
 * The side list docs page: a list of numbered extra items that grows by one
 * each time the list's add button is pressed.
 */
module SideListPage {

  const TwoTo31: int := 0x8000_0000
  const TwoTo32: int := 0x1_0000_0000

  /** Rust's `as i32` on an unsigned integer: keep the low 32 bits, read them as two's complement. */
  function AsI32(n: nat): (r: int)
    ensures -TwoTo31 <= r < TwoTo31
    ensures n < TwoTo31 ==> r == n
    ensures (r - n) % TwoTo32 == 0
  {
    var low := n % TwoTo32;
    if low < TwoTo31 then low else low - TwoTo32
  }

  /** What `with_size(n)` returns: element `i` is `(i + 1) as i32`. */
  function Numbered(n: nat): (r: seq<int>)
    ensures |r| == n
    ensures forall i :: 0 <= i < n ==> r[i] == AsI32(i + 1)
  {
    seq(n, i requires 0 <= i < n => AsI32(i + 1))
  }

  /** `with_size`: a loop pushing `(i + 1) as i32` for each `i` below `size`. */
  method WithSize(size: nat) returns (res: seq<int>)
    ensures res == Numbered(size)
  {
    res := [];
    for i := 0 to size
      invariant res == Numbered(i)
    {
      res := res + [AsI32(i + 1)];
    }
  }

  /** Below 2^31 elements the list is 1, 2, ..., n: it starts at 1 and rises by one each step. */
  lemma NumberedCountsUp(n: nat)
    requires n < TwoTo31
    ensures forall i :: 0 <= i < n ==> Numbered(n)[i] == i + 1
    ensures 0 < n ==> Numbered(n)[0] == 1
    ensures forall i, j :: 0 <= i < j < n ==> Numbered(n)[i] < Numbered(n)[j]
  {
  }

  /** `with_size(n)` is a prefix of `with_size(n + 1)`. */
  lemma NumberedPrefix(n: nat)
    ensures Numbered(n + 1)[..n] == Numbered(n)
    ensures Numbered(n + 1) == Numbered(n) + [AsI32(n + 1)]
  {
  }

  /** The state after `k` presses of the add button, starting from `s`. */
  function AfterAdds(s: seq<int>, k: nat): seq<int>
  {
    if k == 0 then s else Numbered(|AfterAdds(s, k - 1)| + 1)
  }

  /** Starting from [1], the state after `k` presses is `with_size(k + 1)`. */
  lemma {:induction false} AddsFromStart(k: nat)
    ensures AfterAdds([1], k) == Numbered(k + 1)
  {
    if k == 0 {
      assert Numbered(1)[0] == 1;
    } else {
      AddsFromStart(k - 1);
    }
  }

  /** The page's state: the numbers of the extra items. */
  class SideListPageState {
    var items: seq<int>

    /** The page starts with one extra item, numbered 1. */
    constructor ()
      ensures items == [1] && items == Numbered(1)
    {
      items := [1];
    }

    /** The add button: the state becomes `with_size` of one more than its length. */
    method AddItem()
      modifies this
      ensures items == Numbered(|old(items)| + 1)
    {
      var next := WithSize(|items| + 1);
      items := next;
    }
  }
}
