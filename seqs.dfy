/** Facts about sequences shared by the generators and the avatar's call log. */
module Seqs {

  lemma ConcatAssociative<T>(a: seq<T>, b: seq<T>, c: seq<T>)
    ensures (a + b) + c == a + (b + c)
  {
  }
}
