/** Slot swapping in the inventory, the skill book and the spell book
    (`Format30Handler`). A pane is a map from slot number to the object in
    it; an empty slot is an absent key. `Remove(slot)` takes the object out
    of a slot, `Set(x)` puts it in the slot it names. */
module Slots {
  import opened Common

  /** The bounds check each pane applies to both slot numbers; note that
      slot `length + 1` passes it. */
  predicate SlotAccepted(slot: int, length: int) {
    0 <= slot - 1 <= length
  }

  /** Remove the objects at `from` and `to`, then set the first at `to`
      and the second at `from`. */
  function Swap<T>(m: map<int, T>, from: int, to: int): (r: map<int, T>)
    ensures to in r <==> from in m
    ensures from in m ==> r[to] == m[from]
    ensures from != to ==> (from in r <==> to in m)
    ensures from != to && to in m ==> r[from] == m[to]
    ensures forall k :: k != from && k != to ==> (k in r <==> k in m)
    ensures forall k :: k != from && k != to && k in m ==> r[k] == m[k]
  {
    var a := if from in m then Some(m[from]) else None;
    var m1 := m - {from};
    var b := if to in m1 then Some(m1[to]) else None;
    var m2 := m1 - {to};
    var m3 := if a.Some? then m2[to := a.value] else m2;
    if b.Some? then m3[from := b.value] else m3
  }

  /** The handler's effect on one pane: `None` when the bounds check
      rejects the request (the pane is then untouched). */
  function SwapInPane<T>(m: map<int, T>, length: int, from: int, to: int): (r: Option<map<int, T>>)
    ensures r.Some? <==> SlotAccepted(from, length) && SlotAccepted(to, length)
    ensures r.Some? ==> r.value == Swap(m, from, to)
  {
    if to - 1 > length || from - 1 > length || to - 1 < 0 || from - 1 < 0 then None
    else Some(Swap(m, from, to))
  }

  /** Swapping a slot with itself changes nothing. */
  lemma SwapSelf<T>(m: map<int, T>, s: int)
    ensures Swap(m, s, s) == m
  {
  }

  /** Swapping the same two slots twice restores the pane. */
  lemma SwapTwice<T>(m: map<int, T>, from: int, to: int)
    ensures Swap(Swap(m, from, to), from, to) == m
  {
  }

  /** The order of the two slot numbers does not matter. */
  lemma SwapSymmetric<T>(m: map<int, T>, a: int, b: int)
    ensures Swap(m, a, b) == Swap(m, b, a)
  {
  }

  /** Every object in the pane is still in it after a swap. */
  lemma SwapLosesNothing<T>(m: map<int, T>, from: int, to: int)
    ensures m.Values <= Swap(m, from, to).Values
  {
  }

  /** No object is lost or duplicated: the pane holds the same objects. */
  lemma SwapKeepsContents<T>(m: map<int, T>, from: int, to: int)
    ensures Swap(m, from, to).Values == m.Values
  {
  }
}
