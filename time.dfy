/** Millisecond timestamps as the driver keeps them: truncated to 32 bits, and
    compared by unsigned 32-bit subtraction, so that every comparison is about
    the distance modulo 2^32 rather than about the order of the two values. */
module Time {
  import opened CTypes

  /** `now - earlier` on two `unsigned int`s: the number of milliseconds that,
      added to `earlier` in 32-bit arithmetic, gives `now`. */
  function Elapsed(now: uint32, earlier: uint32): (d: uint32)
    ensures (earlier as int + d as int) % TWO_TO_32 == now as int
  {
    ((now as int - earlier as int) % TWO_TO_32) as uint32
  }

  /** The 32-bit timestamp `d` milliseconds after `earlier`. */
  function After(earlier: uint32, d: uint32): uint32
  {
    ((earlier as int + d as int) % TWO_TO_32) as uint32
  }

  /** Elapsed undoes After: a delay shorter than 2^32 ms is measured exactly,
      also when the clock wraps around in between. */
  lemma ElapsedAfter(earlier: uint32, d: uint32)
    ensures Elapsed(After(earlier, d), earlier) == d
  {
    var sum := earlier as int + d as int;
    if sum >= TWO_TO_32 {
      assert After(earlier, d) as int == sum - TWO_TO_32;
    } else {
      assert After(earlier, d) as int == sum;
    }
  }

  /** The wall-clock reading in milliseconds, before any truncation. */
  function WallMillis(sec: int, usec: int): int
  {
    sec * 1000 + usec / 1000
  }

  /** The millisecond conversion of `getTimeMillis`: `tv_sec` cast to
      `uint64_t` and multiplied by 1000, `tv_usec / 1000` added (all modulo
      2^64), and the sum cast to 32 bits. The result is the wall-clock
      millisecond count modulo 2^32. `tv_usec` is below one million, as the
      kernel's `struct timeval` guarantees. */
  function TimeMillis(sec: int, usec: int): (ms: uint32)
    requires 0 <= usec < 1_000_000
    ensures ms as int == WallMillis(sec, usec) % TWO_TO_32
  {
    var wide := ((sec % TWO_TO_64) * 1000 % TWO_TO_64 + usec / 1000) % TWO_TO_64;
    ModOfModMultiple(sec * 1000, sec % TWO_TO_64, usec / 1000);
    (wide % TWO_TO_32) as uint32
  }

  /** Reducing modulo 2^64 at each step does not change the value modulo 2^32. */
  lemma ModOfModMultiple(product: int, secMod: int, add: int)
    requires secMod == (product / 1000) % TWO_TO_64 && product % 1000 == 0
    ensures ((secMod * 1000 % TWO_TO_64 + add) % TWO_TO_64) % TWO_TO_32
            == (product + add) % TWO_TO_32
  {
    var sec := product / 1000;
    var q := sec / TWO_TO_64;
    assert sec == q * TWO_TO_64 + secMod;
    var p := secMod * 1000;
    assert product == q * TWO_TO_64 * 1000 + p;
    var w := (p % TWO_TO_64 + add) % TWO_TO_64;
    // w differs from p % 2^64 + add, and p % 2^64 from p, by multiples of 2^64.
    assert w % TWO_TO_32 == (p + add) % TWO_TO_32 by {
      MultipleVanishes(p % TWO_TO_64 + add, w, (p % TWO_TO_64 + add) / TWO_TO_64);
      MultipleVanishes(p + add, p % TWO_TO_64 + add, p / TWO_TO_64);
    }
    MultipleVanishes(product + add, p + add, q * 1000);
  }

  /** Two values that differ by a multiple of 2^64 agree modulo 2^32. */
  lemma MultipleVanishes(x: int, y: int, k: int)
    requires x == y + k * TWO_TO_64
    ensures x % TWO_TO_32 == y % TWO_TO_32
  {
    ShiftByMultiple(y, k * TWO_TO_32);
  }

  /** Adding a multiple of 2^32 does not change a value modulo 2^32. */
  lemma ShiftByMultiple(y: int, m: int)
    ensures (y + m * TWO_TO_32) % TWO_TO_32 == y % TWO_TO_32
  {
    var q, r := y / TWO_TO_32, y % TWO_TO_32;
    assert y + m * TWO_TO_32 == (q + m) * TWO_TO_32 + r;
  }

  /** Two clock readings less than 2^32 ms apart: the driver's 32-bit
      subtraction of their truncated values gives the true interval. */
  lemma ElapsedBetweenReadings(sec0: int, usec0: int, sec1: int, usec1: int)
    requires 0 <= usec0 < 1_000_000 && 0 <= usec1 < 1_000_000
    requires 0 <= WallMillis(sec1, usec1) - WallMillis(sec0, usec0) < TWO_TO_32
    ensures Elapsed(TimeMillis(sec1, usec1), TimeMillis(sec0, usec0)) as int
            == WallMillis(sec1, usec1) - WallMillis(sec0, usec0)
  {
    var t0 := TimeMillis(sec0, usec0);
    var t1 := TimeMillis(sec1, usec1);
    var d := WallMillis(sec1, usec1) - WallMillis(sec0, usec0);
    var m0 := WallMillis(sec0, usec0);
    assert t1 as int == (m0 + d) % TWO_TO_32;
    assert t0 as int == m0 % TWO_TO_32;
    ShiftedMod(m0, d);
    assert t1 == After(t0, d as uint32);
    ElapsedAfter(t0, d as uint32);
  }

  lemma ShiftedMod(m: int, d: int)
    ensures (m + d) % TWO_TO_32 == (m % TWO_TO_32 + d) % TWO_TO_32
  {
    var q := m / TWO_TO_32;
    assert m + d == (m % TWO_TO_32 + d) + q * TWO_TO_32;
  }
}
