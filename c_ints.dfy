/** C integer types of the binding (LP64 data model) and the conversions
    between them that the C code performs implicitly. */
module CInts {

  const SHORT_MIN: int := -0x8000
  const SHORT_MAX: int := 0x7FFF
  const INT_MIN: int := -0x8000_0000
  const INT_MAX: int := 0x7FFF_FFFF
  const UINT_MAX: int := 0xFFFF_FFFF
  /** `unsigned long` is 64 bits wide under LP64 (Linux, macOS). */
  const ULONG_MAX: int := 0xFFFF_FFFF_FFFF_FFFF

  /** A C `double`, kept as its bit pattern: the binding only passes doubles through. */
  datatype Double = Double(bits: bv64)

  predicate IsShort(x: int) { SHORT_MIN <= x <= SHORT_MAX }
  predicate IsInt(x: int) { INT_MIN <= x <= INT_MAX }
  predicate IsUInt(x: int) { 0 <= x <= UINT_MAX }
  predicate IsULong(x: int) { 0 <= x <= ULONG_MAX }

  /** Conversion of an `int` value to `short` (two's complement truncation). */
  function ToShort(x: int): (r: int)
    ensures IsShort(r)
    ensures (r - x) % 0x1_0000 == 0
    ensures IsShort(x) ==> r == x
  {
    (x - SHORT_MIN) % 0x1_0000 + SHORT_MIN
  }

  /** Conversion of an `unsigned int` to `int` (two's complement wrap-around). */
  function UIntToInt(x: int): (r: int)
    requires IsUInt(x)
    ensures IsInt(r)
    ensures r == x || r == x - (UINT_MAX + 1)
    ensures r >= 0 <==> x <= INT_MAX
  {
    if x <= INT_MAX then x else x - (UINT_MAX + 1)
  }

  /** Conversion of an `int` to `unsigned int` (reduction modulo 2^32). */
  function IntToUInt(x: int): (r: int)
    requires IsInt(x)
    ensures IsUInt(r)
    ensures x >= 0 ==> r == x
    ensures x < 0 ==> r == x + UINT_MAX + 1
  {
    if x >= 0 then x else x + UINT_MAX + 1
  }

  /** Conversion of an `int` to `unsigned long` (reduction modulo 2^64). */
  function IntToULong(x: int): (r: int)
    requires IsInt(x)
    ensures IsULong(r)
    ensures x >= 0 ==> r == x
    ensures x == -1 ==> r == ULONG_MAX
  {
    if x >= 0 then x else x + ULONG_MAX + 1
  }
}
