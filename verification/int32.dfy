/** Go's 32-bit signed integers, as used for S3 part numbers. Dafny integers are
    unbounded, so the two's-complement wrap-around of Go's `int32` arithmetic is
    written out here. */
module Int32 {

  const MinInt32: int := -0x8000_0000
  const MaxInt32: int := 0x7fff_ffff

  newtype int32 = x: int | -0x8000_0000 <= x < 0x8000_0000

  /** The int32 that Go's arithmetic yields for the mathematical value `x`:
      the unique int32 congruent to `x` modulo 2^32. */
  function Wrap(x: int): (r: int32)
    ensures MinInt32 <= x <= MaxInt32 ==> r as int == x
    ensures (x - r as int) % 0x1_0000_0000 == 0
  {
    ((x + 0x8000_0000) % 0x1_0000_0000 - 0x8000_0000) as int32
  }

  /** Go's `p++` on an int32: the int32 congruent to `p + 1`, so the largest
      value steps to the smallest. */
  function Inc(p: int32): (r: int32)
    ensures r == Wrap(p as int + 1)
  {
    if p == 0x7fff_ffff then -0x8000_0000 else p + 1
  }

  /** Incrementing a wrapped count wraps the incremented count: counting parts
      with `p++` from 1 gives the wrapped 1-based index of the part. */
  lemma IncWrap(x: int)
    ensures Inc(Wrap(x)) == Wrap(x + 1)
  {
    var r := (x + 0x8000_0000) % 0x1_0000_0000;
    var r' := (x + 1 + 0x8000_0000) % 0x1_0000_0000;
    if r == 0xffff_ffff {
      assert r' == 0;
    } else {
      assert r' == r + 1;
    }
  }
}
