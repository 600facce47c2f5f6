/** C-level vocabulary shared by the model: pointers that may be NULL,
    bytes, the 32-bit `int`, and NUL-terminated strings. */
module CTypes {

  /** A value that may be absent; `None` stands for a NULL pointer. */
  datatype Option<+T> = None | Some(value: T)

  /** One byte of a `char` buffer, written as the character with that code. */
  type Byte = c: char | c as int < 256 witness '\0'

  const Nul: Byte := '\0'

  /** The C `int` of a 32-bit target. Arithmetic on it is range-checked,
      so an expression that would overflow in C does not verify. */
  newtype Int32 = x: int | -0x8000_0000 <= x < 0x8000_0000

  const IntMin: Int32 := -0x8000_0000

  /** The contents of a C string: the bytes before its terminator. */
  predicate NoNul(s: seq<Byte>) {
    forall i :: 0 <= i < |s| ==> s[i] != Nul
  }

  /** `str[i]` for the NUL-terminated string whose contents are `s`:
      index `|s|` reads the terminator. */
  function At(s: seq<Byte>, i: nat): (b: Byte)
    requires i <= |s|
    ensures NoNul(s) ==> (b == Nul <==> i == |s|)
  {
    if i < |s| then s[i] else Nul
  }

  /** Converting an `int` to `char` keeps its low byte (two's complement). */
  function LowByte(v: int): (b: Byte)
    ensures (v - b as int) % 256 == 0
    ensures 0 <= v < 256 ==> b as int == v
  {
    (v % 256) as char
  }
}
