/** What several parts of the model share. */
module Basics {
  const U32 := 0x1_0000_0000
  const U64 := 0x1_0000_0000_0000_0000

  datatype Option<+T> = None | Some(value: T)

  function Min(a: int, b: int): int {
    if a < b then a else b
  }

  function Max(a: int, b: int): int {
    if a < b then b else a
  }

  /** A counter that wraps at 2^32 goes on as if it never had. */
  lemma NextNumber(n: nat)
    ensures (n % U32 + 1) % U32 == (n + 1) % U32
  {
  }

  lemma WrapAdd(a: nat, b: nat)
    ensures (a % U64 + b) % U64 == (a + b) % U64
  {
  }
}
