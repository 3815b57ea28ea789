/** Java's 32-bit `int`: its range, the two's-complement wrap-around of `+`
    and `*`, and the narrowing cast `(int)` from a floating-point value. */
module JavaInt {

  const MIN: int := -0x8000_0000
  const MAX: int := 0x7fff_ffff
  const MODULUS: int := 0x1_0000_0000

  predicate InRange(x: int) {
    MIN <= x <= MAX
  }

  /** The value a Java `int` holds when the exact result of an addition or
      multiplication is `x`: the two's-complement reading of its low 32 bits. */
  function Wrap(x: int): (r: int)
    ensures InRange(r)
    ensures (x - r) % MODULUS == 0
    ensures InRange(x) ==> r == x
  {
    (x - MIN) % MODULUS + MIN
  }

  /** Adding a multiple of 2^32 is invisible after wrapping. */
  lemma WrapShift(x: int, k: int)
    ensures Wrap(x + MODULUS * k) == Wrap(x)
  {
  }

  /** Wrapping an intermediate sum early or late gives the same `int`. */
  lemma WrapAdd(a: int, b: int)
    ensures Wrap(Wrap(a) + b) == Wrap(a + b)
  {
  }

  /** Wrapping both addends first gives the same `int`. */
  lemma WrapAddBoth(a: int, b: int)
    ensures Wrap(Wrap(a) + Wrap(b)) == Wrap(a + b)
  {
  }

  /** Wrapping an intermediate product early or late gives the same `int`. */
  lemma WrapMul(a: int, b: int)
    ensures Wrap(Wrap(a) * b) == Wrap(a * b)
  {
    var q := (a - Wrap(a)) / MODULUS;
    assert a - Wrap(a) == MODULUS * q;
    calc {
      Wrap(a) * b;
      (a - MODULUS * q) * b;
      a * b - MODULUS * q * b;
      a * b + MODULUS * -(q * b);
    }
    WrapShift(a * b, -(q * b));
  }

  /** Truncation toward zero: the integer part of `x`, sign kept. */
  function TruncateTowardZero(x: real): (t: int)
    ensures 0.0 <= x ==> 0 <= t && t as real <= x < t as real + 1.0
    ensures x < 0.0 ==> t <= 0 && t as real - 1.0 < x <= t as real
  {
    if x >= 0.0 then x.Floor else -((-x).Floor)
  }

  /** Java's `(int) d` on a finite value `d`: truncation toward zero,
      saturating at the ends of the `int` range. */
  function ToInt(x: real): (n: int)
    ensures InRange(n)
    ensures (MIN - 1) as real < x < (MAX + 1) as real ==> n == TruncateTowardZero(x)
    ensures (MAX + 1) as real <= x ==> n == MAX
    ensures x <= (MIN - 1) as real ==> n == MIN
  {
    var t := TruncateTowardZero(x);
    if t > MAX then MAX else if t < MIN then MIN else t
  }
}
