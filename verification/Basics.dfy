// Shared vocabulary: optional values and small facts about sequences.
module Basics {

  datatype Option<+T> = None | Some(value: T)

  /** SHA-256 of a text, modelled as an injective function. */
  datatype Digest = Sha256(text: string)

  /** The elements of a sequence are pairwise different. */
  ghost predicate Distinct<T(!new)>(s: seq<T>) {
    forall i, j :: 0 <= i < j < |s| ==> s[i] != s[j]
  }

  function Min(a: int, b: int): int {
    if a <= b then a else b
  }

  function Max(a: int, b: int): int {
    if a >= b then a else b
  }
}
