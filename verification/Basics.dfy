// Shared vocabulary: optional values, bytes, and text in UTF-16 code units.

module Basics {
  datatype Option<T> = None | Some(value: T)

  type byte = b: int | 0 <= b < 256

  type Unit = u: int | 0 <= u < 0x1_0000

  const NUL: Unit := 0

  // The index of the first NUL, or the length.
  function Length(s: seq<Unit>): (n: nat)
    ensures n <= |s|
  {
    if s == [] || s[0] == NUL then 0 else 1 + Length(s[1..])
  }

  lemma {:induction false} LengthIsFirstNul(s: seq<Unit>)
    ensures NUL !in s[..Length(s)] && (Length(s) < |s| ==> s[Length(s)] == NUL)
  {
    if s != [] && s[0] != NUL {
      LengthIsFirstNul(s[1..]);
      assert s[..Length(s)] == [s[0]] + s[1..][..Length(s[1..])];
    }
  }
}
