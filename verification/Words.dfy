/** Rust's unsigned machine integers with the saturating operations the source calls. */
module Words {

  const U64_MAX: int := 0xFFFF_FFFF_FFFF_FFFF
  const U32_MAX: int := 0xFFFF_FFFF

  /** No Rust allocation, hence no `String`, is longer than this many bytes. */
  const ISIZE_MAX: int := 0x7FFF_FFFF_FFFF_FFFF

  type uint64 = n: int | 0 <= n <= 0xFFFF_FFFF_FFFF_FFFF
  type uint32 = n: int | 0 <= n <= 0xFFFF_FFFF
  type uint8 = n: int | 0 <= n <= 0xFF

  function Min(a: int, b: int): int {
    if a <= b then a else b
  }

  function Max(a: int, b: int): int {
    if a >= b then a else b
  }

  function Saturate(n: nat): uint64 {
    if n <= U64_MAX then n else U64_MAX
  }

  function SatAdd(a: uint64, b: uint64): uint64 {
    Saturate(a + b)
  }

  function SatSub(a: uint64, b: uint64): uint64 {
    if a >= b then a - b else 0
  }

  function SatMul(a: uint64, b: uint64): uint64 {
    Saturate(a * b)
  }

  function SatAdd32(a: uint32, b: uint32): uint32 {
    if a + b <= U32_MAX then a + b else U32_MAX
  }

  function SatSub32(a: uint32, b: uint32): uint32 {
    if a >= b then a - b else 0
  }

  /** `percent_of`: a saturating product divided by one hundred. */
  function PercentOf(value: uint64, percent: uint8): uint64 {
    SatMul(value, percent) / 100
  }

  /** Saturating the partial sums or only the whole sum makes no difference. */
  lemma SaturateTwice(a: nat, b: nat)
    ensures SatAdd(Saturate(a), Saturate(b)) == Saturate(a + b)
  {
  }

  lemma SaturateChain(a: nat, b: uint64, c: uint64, d: uint64)
    ensures SatAdd(SatAdd(SatAdd(Saturate(a), b), c), d) == Saturate(a + (b + c + d))
  {
  }

  /** A share of at most one hundred percent never exceeds the whole, saturated product or not. */
  lemma PercentOfIsAShare(value: uint64, percent: uint8)
    requires percent <= 100
    ensures PercentOf(value, percent) <= value
  {
    assert value * percent <= value * 100 by {
      MulMonotone(value, percent, 100);
    }
  }

  lemma MulMonotone(value: nat, a: nat, b: nat)
    requires a <= b
    ensures value * a <= value * b
  {
    assert value * b == value * a + value * (b - a);
  }
}
