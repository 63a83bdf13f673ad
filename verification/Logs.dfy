/** Reading a log: the numbers on its b-lines, and on the d-lines of one author. */
module Logs {
  import opened Types

  function BNums(log: seq<Line>): seq<int> {
    if log == [] then [] else
      BNums(log[..|log| - 1]) + (match log[|log| - 1] case B(k) => [k] case _ => [])
  }

  function DNums(log: seq<Line>, a: int): seq<int> {
    if log == [] then [] else
      DNums(log[..|log| - 1], a) + (match log[|log| - 1] case D(x, k) => if x == a then [k] else [] case _ => [])
  }

  /** The numbers 1, 2, ..., k. */
  function UpTo(k: nat): (r: seq<int>)
    ensures |r| == k && forall i :: 0 <= i < k ==> r[i] == i + 1
  {
    seq(k, i => i + 1)
  }

  lemma BNumsAppend(log: seq<Line>, l: Line)
    ensures BNums(log + [l]) == BNums(log) + (match l case B(k) => [k] case _ => [])
  {
    assert (log + [l])[..|log|] == log;
  }

  lemma DNumsAppend(log: seq<Line>, l: Line, b: int)
    ensures DNums(log + [l], b) ==
            DNums(log, b) + (match l case D(x, k) => if x == b then [k] else [] case _ => [])
  {
    assert (log + [l])[..|log|] == log;
  }
}
