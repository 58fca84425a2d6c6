/** Bounded machine integers and the saturating arithmetic the engine uses on them. */
module Words {

  const U32_MAX: int := 0xFFFF_FFFF
  const U64_MAX: int := 0xFFFF_FFFF_FFFF_FFFF

  type U32 = x: int | 0 <= x <= U32_MAX
  type U64 = x: int | 0 <= x <= U64_MAX

  type Byte = x: int | 0 <= x <= 255

  /** Unsigned 64-bit addition and subtraction, wrapping around as in C++. */
  function WrapAdd(a: U64, b: U64): U64 {
    (a + b) % (U64_MAX + 1)
  }

  function WrapSub(a: U64, b: U64): U64 {
    (a - b) % (U64_MAX + 1)
  }

  function SaturatingAdd(a: U64, b: U64): U64 {
    if a + b > U64_MAX then U64_MAX else a + b
  }

  function SaturatingSub(a: U64, b: U64): U64 {
    if a < b then 0 else a - b
  }

  function Min(a: U64, b: U64): U64 {
    if a <= b then a else b
  }

  function Max(a: U64, b: U64): U64 {
    if a >= b then a else b
  }

  function Clamp(x: U64, low: U64, high: U64): U64
    requires low <= high
  {
    if x < low then low else if x > high then high else x
  }

  function RealMax(a: real, b: real): real {
    if a >= b then a else b
  }

  function RealMin(a: real, b: real): real {
    if a <= b then a else b
  }

  // What these operations mean

  lemma WrapLaws(a: U64, b: U64)
    ensures a + b <= U64_MAX ==> WrapAdd(a, b) == a + b
    ensures a >= b ==> WrapSub(a, b) == a - b
  {
  }

  lemma SaturatingLaws(a: U64, b: U64)
    ensures SaturatingAdd(a, b) == if a + b <= U64_MAX then a + b else U64_MAX
    ensures SaturatingSub(a, b) == if a >= b then a - b else 0
  {
  }

  lemma OrderLaws(a: U64, b: U64, x: U64)
    ensures Min(a, b) <= a && Min(a, b) <= b && (Min(a, b) == a || Min(a, b) == b)
    ensures Max(a, b) >= a && Max(a, b) >= b && (Max(a, b) == a || Max(a, b) == b)
    ensures a <= b ==> a <= Clamp(x, a, b) <= b && (a <= x <= b ==> Clamp(x, a, b) == x)
    ensures a <= b ==> (x <= a ==> Clamp(x, a, b) == a) && (x >= b ==> Clamp(x, a, b) == b)
  {
  }

  lemma RealOrderLaws(a: real, b: real)
    ensures RealMax(a, b) >= a && RealMax(a, b) >= b && (RealMax(a, b) == a || RealMax(a, b) == b)
    ensures RealMin(a, b) <= a && RealMin(a, b) <= b && (RealMin(a, b) == a || RealMin(a, b) == b)
  {
  }

  datatype Option<+T> = None | Some(value: T)
}
