/**
 * Regrouping lemmas for sequence concatenation, stated once for any element
 * type so that the traces and frame buffers of the dashboard can be compared
 * without unfolding their elements.
 */
module Sequences {
  lemma AppendAssoc<T>(s: seq<T>, a: seq<T>, b: seq<T>)
    ensures s + a + b == s + (a + b)
  {
  }

  lemma AppendThree<T>(s: seq<T>, a: seq<T>, b: seq<T>, c: seq<T>)
    ensures s + a + b + c == s + (a + b + c)
  {
  }

  lemma AppendSingles<T>(s: seq<T>, x: T, y: T, z: T)
    ensures s + [x] + [y] + [z] == s + [x, y, z]
  {
  }

  lemma JoinTriples<T>(s: seq<T>, a: T, b: T, c: T, d: T, e: T, f: T)
    ensures s + [a, b, c] + [d, e, f] == s + [a, b, c, d, e, f]
  {
  }

  lemma AppendNested<T>(a: seq<T>, b: seq<T>, c: seq<T>, d: seq<T>, e: seq<T>, f: seq<T>)
    ensures a + (b + c + (d + e)) + f == a + b + c + d + e + f
  {
  }
}
