/**
 * Small facts about building and taking apart sequences, stated once for
 * any element type so that the proofs about the interpreter can cite them
 * instead of rediscovering them.
 */
module Seqs {

  /** The front of `s + [x]` is `s`. */
  lemma PrefixOf<T>(s: seq<T>, x: T)
    ensures (s + [x])[..|s|] == s
  {
  }

  /** A non-empty list is its front followed by its last element, after any prefix. */
  lemma LastSplit<T>(first: seq<T>, more: seq<T>)
    requires more != []
    ensures var n := |more| - 1; (first + more[..n]) + [more[n]] == first + more && more[..n] + [more[n]] == more
  {
  }

  lemma EmptyPrefix<T>(s: seq<T>)
    ensures [] + s == s
  {
  }

  /** Four one-element appends build the four-element list. */
  lemma SnocFour<T>(a: T, b: T, c: T, d: T)
    ensures [] + [a] == [a] && [a] + [b] == [a, b] && [a, b] + [c] == [a, b, c] && [a, b, c] + [d] == [a, b, c, d]
  {
  }

  /** Appending four elements one at a time appends them together. */
  lemma AppendFour<T>(s: seq<T>, a: T, b: T, c: T, d: T)
    ensures s + [a] + [b] == s + [a, b]
    ensures s + [a, b] + [c] == s + [a, b, c]
    ensures s + [a, b, c] + [d] == s + [a, b, c, d]
  {
  }

  /** Putting one element in front, five times. */
  lemma ConsFive<T>(a: T, b: T, c: T, d: T, e: T, f: T)
    ensures [e] + [f] == [e, f] && [d] + [e, f] == [d, e, f] && [c] + [d, e, f] == [c, d, e, f]
         && [b] + [c, d, e, f] == [b, c, d, e, f] && [a] + [b, c, d, e, f] == [a, b, c, d, e, f]
  {
  }

  /** One element, four more, then one: the six-element list. */
  lemma Framed<T>(t: T, a: T, b: T, c: T, d: T, e: T)
    ensures [] + [t] == [t] && [t] + [a, b, c, d] + [e] == [t, a, b, c, d, e]
  {
  }
}
