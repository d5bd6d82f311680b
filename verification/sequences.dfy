/** Facts about sequences that the proofs elsewhere use in a context too large
    for the solver to find them unaided. */
module Sequences {

  lemma AppendAssociative<T>(a: seq<T>, b: seq<T>, c: seq<T>)
    ensures a + (b + c) == (a + b) + c
  {
  }

  lemma PrependToThree<T>(a: T, b: T, c: T, d: T)
    ensures [a] + [b, c, d] == [a, b, c, d]
  {
  }

  lemma PrependToTwo<T>(a: T, b: T, c: T)
    ensures [a] + [b, c] == [a, b, c]
  {
  }
}
