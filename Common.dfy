// Shared vocabulary of the renderer model: optional values, fallible results,
// 32-bit flag words and the 32-bit unsigned range.

module Common {

  datatype Option<T> = None | Some(value: T)

  /** A call that either yields a value or throws (the C++ code throws
      std::runtime_error / std::invalid_argument; the text is kept as a label). */
  datatype Result<T> = Ok(value: T) | Err(reason: string)

  /** Outcome of a call that returns nothing but may throw. */
  datatype Outcome = Pass | Fail(reason: string)

  /** The largest value of a uint32_t (UINT32_MAX). */
  const U32_MAX: int := 0xFFFF_FFFF

  predicate IsU32(x: int) { 0 <= x <= U32_MAX }

  /** uint32_t addition, which wraps round modulo 2^32. */
  function Add32(a: int, b: int): (r: int)
    requires IsU32(a) && IsU32(b)
    ensures IsU32(r)
    ensures a + b <= U32_MAX ==> r == a + b
    ensures a + b > U32_MAX ==> r == a + b - (U32_MAX + 1)
  {
    (a + b) % (U32_MAX + 1)
  }

  /** Multiplying by a natural number keeps the order; the cell-index bounds of
      Worley, the grid index bounds of Terrain and the read-back layout of
      Recording rely on it. */
  lemma MulLe(a: int, b: int, c: nat)
    requires a <= b
    ensures a * c <= b * c
  {
  }

  /** `flags & bit` is non-zero. */
  predicate Has(flags: bv32, bit: bv32) { flags & bit != 0 }

  /** `(have & want) == want`: every bit of `want` is also set in `have`. */
  predicate Covers(have: bv32, want: bv32) { have & want == want }

  /** Bit `i` of a 32-bit word, the test `word & (1 << i)`. */
  predicate BitSet(word: bv32, i: nat)
    requires i < 32
  {
    word & ((1 as bv32) << i) != 0
  }
}
