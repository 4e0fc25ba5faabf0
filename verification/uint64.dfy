/** Go's fixed-width unsigned integers and their wrap-around arithmetic. */
module UInt {

  const TWO_TO_THE_32: int := 0x1_0000_0000
  const TWO_TO_THE_64: int := 0x1_0000_0000_0000_0000

  newtype uint32 = x: int | 0 <= x < TWO_TO_THE_32
  newtype uint64 = x: int | 0 <= x < TWO_TO_THE_64

  /** Go's `a + b` on uint64: the sum modulo 2^64. */
  function WrappingAdd(a: uint64, b: uint64): (r: uint64)
    ensures a as int + b as int < TWO_TO_THE_64 ==> r as int == a as int + b as int
    ensures a as int + b as int >= TWO_TO_THE_64 ==> r as int == a as int + b as int - TWO_TO_THE_64
  {
    ((a as int + b as int) % TWO_TO_THE_64) as uint64
  }

  /** Go's `a - b` on uint64: the difference modulo 2^64. It never goes
      negative; it is the one value that, added back to `b`, gives `a`. */
  function WrappingSub(a: uint64, b: uint64): (r: uint64)
    ensures WrappingAdd(r, b) == a
    ensures b <= a ==> r as int == a as int - b as int
    ensures a < b ==> r as int == a as int - b as int + TWO_TO_THE_64
  {
    ((a as int - b as int) % TWO_TO_THE_64) as uint64
  }

  /** Subtraction is the only inverse of addition: any `r` with `r + b == a`
      (mod 2^64) is `a - b`. */
  lemma WrappingSubUnique(a: uint64, b: uint64, r: uint64)
    requires WrappingAdd(r, b) == a
    ensures r == WrappingSub(a, b)
  {
    if r as int + b as int < TWO_TO_THE_64 {
      assert b <= a;
    } else {
      assert a < b;
    }
  }

  /** Adding `b` and then subtracting it gives back what one started with. */
  lemma AddThenSub(a: uint64, b: uint64)
    ensures WrappingSub(WrappingAdd(a, b), b) == a
  {
    WrappingSubUnique(WrappingAdd(a, b), b, a);
  }
}
