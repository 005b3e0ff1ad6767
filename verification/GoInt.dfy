/** Go's int64: a two's complement machine integer whose arithmetic wraps around silently. */
module GoInt {

  const TWO_63: int := 0x8000_0000_0000_0000
  const TWO_64: int := 0x1_0000_0000_0000_0000

  newtype int64 = x: int | -0x8000_0000_0000_0000 <= x < 0x8000_0000_0000_0000

  const MIN_INT64: int64 := -0x8000_0000_0000_0000
  const MAX_INT64: int64 := 0x7fff_ffff_ffff_ffff

  /** The int64 that a mathematical integer becomes when only its low 64 bits are kept. */
  function Wrap(x: int): int64 {
    ((x + TWO_63) % TWO_64 - TWO_63) as int64
  }

  /** `Wrap(x)` is the only int64 congruent to `x` modulo 2^64. */
  lemma WrapIsUnique(x: int, r: int64)
    ensures Wrap(x) == r <==> (x - r as int) % TWO_64 == 0
  {
  }

  /** An int64 is kept as it is, and any other integer is changed. */
  lemma WrapIsExact(x: int)
    ensures Wrap(x) as int == x <==> -TWO_63 <= x < TWO_63
  {
  }

  /** Wrapping an intermediate sum early or late makes no difference. */
  lemma WrapAbsorbs(a: int, b: int)
    ensures Wrap(Wrap(a) as int + b) == Wrap(a + b)
  {
  }

  /** Doubling in int64 follows doubling over the integers. */
  lemma WrapDoubles(a: int)
    ensures Wrap(Wrap(a) as int * 2) == Wrap(a * 2)
  {
  }
}
