/** Small shared vocabulary. */
module Prelude {
  datatype Option<T> = None | Some(value: T)

  const I64_MAX: int := 0x7FFF_FFFF_FFFF_FFFF
  const U64_MAX: int := 0xFFFF_FFFF_FFFF_FFFF

  function Min(a: int, b: int): int { if a <= b then a else b }
  function Max(a: int, b: int): int { if a <= b then b else a }
  function Pow2(k: nat): nat { if k == 0 then 1 else 2 * Pow2(k - 1) }

  /** The two trivial prefixes of a list. */
  lemma Ends<T>(s: seq<T>)
    ensures s[..0] == [] && s[..|s|] == s
  {}
}
