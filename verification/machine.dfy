/**
 * Fixed-width integer arithmetic of the inspector, written out over
 * Dafny's unbounded integers.
 */
module Machine {

  /** 2^64: the values of `uint64_t` are the naturals below this bound. */
  const U64_LIMIT: nat := 0x1_0000_0000_0000_0000

  /** Largest value of a 32-bit `int`, the type the block size is held in while inspecting. */
  const INT_MAX: nat := 0x7fff_ffff

  /** Range of `long long`, the result type of `atoll`. */
  const LLONG_MAX: int := 0x7fff_ffff_ffff_ffff
  const LLONG_MIN: int := -0x8000_0000_0000_0000

  type U64 = x: nat | x < U64_LIMIT

  /** Conversion to `uint64_t`: the unique value congruent to `x` modulo 2^64. */
  function ToU64(x: int): (r: U64)
    ensures 0 <= x < U64_LIMIT ==> r == x
    ensures (x - r) % U64_LIMIT == 0
  {
    x % U64_LIMIT
  }

  function Min(a: int, b: int): int
  {
    if a <= b then a else b
  }

  /** Adding to a value that was already reduced gives the same `uint64_t` as adding first. */
  lemma {:induction false} ToU64AddLeft(x: int, y: int)
    ensures ToU64(ToU64(x) + y) == ToU64(x + y)
  {
    var q := x / U64_LIMIT;
    assert x == q * U64_LIMIT + ToU64(x);
    ModShift(x + y, -q);
  }

  lemma {:induction false} ModShift(a: int, k: int)
    ensures (a + k * U64_LIMIT) % U64_LIMIT == a % U64_LIMIT
  {
  }

  /** Concatenation is associative (stated once, away from any context that would slow it down). */
  lemma ConcatAssoc<T>(a: seq<T>, b: seq<T>, c: seq<T>)
    ensures a + (b + c) == (a + b) + c
  {
  }
}
