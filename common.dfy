/** Small shared types: the optional value that stands for C#'s `null`,
    and the unsigned integer widths the protocol and the records use. */
module Common {

  /** A C# reference that may be `null`. */
  datatype Option<T> = None | Some(value: T)

  /** An unsigned 8-bit value held in an `int` (a C# `byte` field). */
  type u8 = x: int | 0 <= x < 0x100

  /** An unsigned 16-bit value held in an `int` (a C# `ushort` field). */
  type u16 = x: int | 0 <= x < 0x1_0000

  /** The value a C# `(byte)` cast keeps: the low eight bits. */
  function ToByte(x: int): (r: u8)
    ensures 0 <= x < 0x100 ==> r == x
  {
    x % 0x100
  }

  /** The value a C# `(ushort)` cast keeps: the low sixteen bits. */
  function ToUShort(x: int): (r: u16)
    ensures 0 <= x < 0x1_0000 ==> r == x
  {
    x % 0x1_0000
  }

  /** The position of the first element satisfying `p` (`FirstOrDefault`). */
  function FirstIndex<T>(xs: seq<T>, p: T -> bool): (r: Option<nat>)
    ensures r.Some? ==> r.value < |xs| && p(xs[r.value])
    ensures r.Some? ==> forall j :: 0 <= j < r.value ==> !p(xs[j])
    ensures r.None? ==> forall j :: 0 <= j < |xs| ==> !p(xs[j])
  {
    if xs == [] then None
    else if p(xs[0]) then Some(0)
    else match FirstIndex(xs[1..], p)
      case None => None
      case Some(i) => Some(i + 1)
  }
}
