/**
  Fixed-width integers of the AVR C compiler, written out over the
  unbounded `int`: the ranges of `uint8_t`, `uint16_t`, `uint32_t` and
  `int16_t`, the modulo-2^32 reduction of unsigned arithmetic, the
  conversion of a `uint16_t` value into an `int16_t` field, and the
  little-endian byte split of a 16-bit value.
 */
module Ints {

  const Two16: int := 0x1_0000
  const Two32: int := 0x1_0000_0000

  type uint8 = x: int | 0 <= x < 0x100
  type uint16 = x: int | 0 <= x < 0x1_0000
  type uint32 = x: int | 0 <= x < 0x1_0000_0000
  type int16 = x: int | -0x8000 <= x < 0x8000

  /** Unsigned 32-bit reduction: the value C stores for an out-of-range `uint32_t` result. */
  function Wrap32(x: int): (r: uint32)
    ensures (r - x) % Two32 == 0
    ensures 0 <= x < Two32 ==> r == x
  {
    x % Two32
  }

  /** Two's-complement reinterpretation of a 16-bit pattern, as avr-gcc assigns a `uint16_t` to an `int16_t`. */
  function ToInt16(u: uint16): (r: int16)
    ensures (r - u) % Two16 == 0
    ensures u < 0x8000 ==> r == u
  {
    if u < 0x8000 then u else u - Two16
  }

  /** The 16-bit pattern of an `int16_t`. */
  function ToUint16(i: int16): (r: uint16)
    ensures (r - i) % Two16 == 0
  {
    if i < 0 then i + Two16 else i
  }

  /** Reinterpreting a 16-bit pattern as signed and back loses nothing. */
  lemma Uint16RoundTrip(u: uint16)
    ensures ToUint16(ToInt16(u)) == u
  {
  }

  /** Taking the pattern of a signed value and reinterpreting it gives the value back. */
  lemma Int16RoundTrip(i: int16)
    ensures ToInt16(ToUint16(i)) == i
  {
  }

  /** Low byte of a 16-bit value. */
  function Lo(u: uint16): uint8 { u % 0x100 }

  /** High byte of a 16-bit value. */
  function Hi(u: uint16): uint8 { u / 0x100 }

  /** Reassembles a 16-bit value from its little-endian bytes. */
  function Join16(lo: uint8, hi: uint8): (r: uint16)
    ensures Lo(r) == lo && Hi(r) == hi
  {
    hi * 0x100 + lo
  }

  lemma SplitJoin16(u: uint16)
    ensures Join16(Lo(u), Hi(u)) == u
  {
  }
}
