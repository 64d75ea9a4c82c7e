/**
  Facts about sequences that the generators' builders rely on when they
  append to what they have written so far.
 */
module Sequences {
  /** Appending in two steps writes what appending the two parts at once
      writes. */
  lemma AppendAssociates<T>(a: seq<T>, b: seq<T>, c: seq<T>)
    ensures a + (b + c) == a + b + c
  {
  }
}
