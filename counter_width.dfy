/**
 * The width of the shared attempt counter as the program declares it:
 * multiprocessing.Value('i', 0) holds a C int (32 bits, two's complement),
 * and ctypes stores every value assigned to it without an overflow check,
 * keeping its low 32 bits.
 */
module CounterWidth {
  import Search

  const INT_MIN: int := -0x8000_0000
  const INT_MAX: int := 0x7fff_ffff
  const MODULUS: int := 0x1_0000_0000

  /** The value a C int holds after v is assigned to it. */
  function StoreCInt(v: int): (r: int)
    ensures INT_MIN <= r <= INT_MAX
    ensures (r - v) % MODULUS == 0
    ensures INT_MIN <= v <= INT_MAX ==> r == v
  {
    var low := v % MODULUS;
    if low <= INT_MAX then low else low - MODULUS
  }

  /** attempt_count.value += 1 as written: the sum is stored back into the C int. */
  function SharedIncrement(c: int): (r: int)
    ensures INT_MIN <= r <= INT_MAX
    ensures INT_MIN - 1 <= c < INT_MAX ==> r == c + 1
    ensures c == INT_MAX ==> r == INT_MIN
  {
    StoreCInt(c + 1)
  }

  /** The shared count after n increments from its initial 0, as written. */
  function SharedCountAfter(n: nat): (r: int)
    ensures INT_MIN <= r <= INT_MAX
    ensures n <= INT_MAX ==> r == n
  {
    if n == 0 then 0 else SharedIncrement(SharedCountAfter(n - 1))
  }

  /** Values that agree modulo 2^32 are stored as the same C int. */
  lemma StoreCIntCongruent(a: int, b: int)
    requires (a - b) % MODULUS == 0
    ensures StoreCInt(a) == StoreCInt(b)
  {
    var k := (a - b) / MODULUS;
    assert a == b + k * MODULUS;
    assert a % MODULUS == b % MODULUS by {
      ModuloShift(b, k);
    }
  }

  lemma ModuloShift(b: int, k: int)
    ensures (b + k * MODULUS) % MODULUS == b % MODULUS
  {
    var q, r := b / MODULUS, b % MODULUS;
    assert b + k * MODULUS == (q + k) * MODULUS + r;
  }

  /** After n attempts the shared count is n wrapped into the range of a C int. */
  lemma {:induction false} SharedCountIsWrapped(n: nat)
    ensures SharedCountAfter(n) == StoreCInt(n)
  {
    if n > 0 {
      SharedCountIsWrapped(n - 1);
      var prev := StoreCInt(n - 1);
      assert (prev + 1 - n) % MODULUS == 0;
      StoreCIntCongruent(prev + 1, n);
    }
  }

  /** Up to 2^31 - 1 attempts the shared count is exact. */
  lemma ExactUpToLimit(n: nat)
    requires n <= INT_MAX
    ensures SharedCountAfter(n) == n
  {
    SharedCountIsWrapped(n);
  }

  /**
   * Each time the total reaches 2^31 modulo 2^32, in particular at the
   * 2^31st attempt, the shared count drops from 2^31 - 1 to -2^31.
   */
  lemma CountWrapsNegative(n: nat)
    requires n % MODULUS == 0x8000_0000
    ensures SharedCountAfter(n - 1) == INT_MAX
    ensures SharedCountAfter(n) == INT_MIN
  {
    SharedCountIsWrapped(n - 1);
    SharedCountIsWrapped(n);
  }

  /**
   * After the wrap, progress lines fall at the wrong totals and print
   * negative counts: at a total of 2^31 + 483648 attempts, which is no
   * multiple of a million, the shared count is -2147000000, which is one, so
   * a progress line is logged. (Python's % by a positive divisor agrees with
   * Dafny's on whether the remainder is zero.)
   */
  lemma WrappedProgressLine(n: nat)
    requires n == 0x8000_0000 + 483648
    ensures SharedCountAfter(n) == -2147000000
    ensures SharedCountAfter(n) % Search.REPORT_EVERY == 0
    ensures n % Search.REPORT_EVERY != 0
  {
    SharedCountIsWrapped(n);
  }
}
