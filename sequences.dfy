/** Facts about sequences that the list-building loops rely on. */
module Sequences {

  /** Appending to a list that was itself built by appending. */
  lemma AppendAssoc<T>(a: seq<T>, b: seq<T>, c: seq<T>)
    ensures (a + b) + c == a + (b + c)
  {
  }
}
