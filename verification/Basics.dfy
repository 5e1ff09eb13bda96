/** Value types shared by every component of the model. */
module Basics {

  datatype Option<+T> = None | Some(value: T)

  /** Paths, names and arguments are byte strings. */
  type Byte = b: int | 0 <= b < 256
  type Text = seq<Byte>

  /** A `u64` of the trace, always within its 64 bits. */
  const TWO_TO_64: int := 0x1_0000_0000_0000_0000
  type Word = w: int | 0 <= w < TWO_TO_64

  function Max(a: int, b: int): int {
    if a < b then b else a
  }

  function Get<K, V>(m: map<K, V>, k: K): Option<V> {
    if k in m then Some(m[k]) else None
  }

  predicate IsI32(n: int) {
    -0x8000_0000 <= n < 0x8000_0000
  }

  /** The `as i32` cast: the low 32 bits, read as two's complement. */
  function AsI32(word: Word): (n: int)
    ensures IsI32(n)
  {
    var low := word % 0x1_0000_0000;
    if low < 0x8000_0000 then low else low - 0x1_0000_0000
  }

  /** Whether the single-bit flag `bit` (a power of two) is set in `word`. */
  predicate HasFlag(word: Word, bit: nat)
    requires bit > 0
  {
    (word / bit) % 2 == 1
  }

  lemma ConcatAssociates<T>(a: seq<T>, b: seq<T>, c: seq<T>)
    ensures a + b + c == a + (b + c)
  {
  }
}
