/** Concatenation of a sequence of sequences, used for pages and for id batches. */
module Seqs {

  /** All the inner sequences one after another, in order. */
  function Concat<T>(ss: seq<seq<T>>): (r: seq<T>)
    ensures |ss| == 1 ==> r == ss[0]
  {
    if ss == [] then [] else ss[0] + Concat(ss[1..])
  }
}
