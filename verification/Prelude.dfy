/** Small vocabulary shared by the models: optional values, writes and ordered id lists. */
module Prelude {

  datatype Option<+T> = None | Some(value: T)

  /** A write that reports failure may or may not have taken effect. */
  datatype Write = Applied | FailedApplied | FailedLost

  /** Ids in strictly increasing order; ids are handed out in creation order. */
  predicate Increasing(s: seq<nat>) {
    forall i, j :: 0 <= i < j < |s| ==> s[i] < s[j]
  }

  /** `small` can be obtained from `large` by deleting elements. */
  predicate Subsequence<T(==)>(small: seq<T>, large: seq<T>) {
    if small == [] then true
    else if large == [] then false
    else if small[0] == large[0] then Subsequence(small[1..], large[1..])
    else Subsequence(small, large[1..])
  }

  /** Two increasing lists: containment of elements already means containment in order. */
  lemma {:induction false} IncreasingSubset(small: seq<nat>, large: seq<nat>)
    requires Increasing(small) && Increasing(large)
    requires forall x :: x in small ==> x in large
    ensures Subsequence(small, large)
  {
    if small == [] {
    } else {
      assert small[0] in small;
      var k :| 0 <= k < |large| && large[k] == small[0];
      if small[0] == large[0] {
        forall x | x in small[1..] ensures x in large[1..] {
          var i :| 0 <= i < |small[1..]| && small[1..][i] == x;
          assert x == small[i + 1] && small[0] < x && x in small;
          var j :| 0 <= j < |large| && large[j] == x;
          assert large[1..][j - 1] == x;
        }
        IncreasingSubset(small[1..], large[1..]);
      } else {
        forall x | x in small ensures x in large[1..] {
          var i :| 0 <= i < |small| && small[i] == x;
          assert large[0] < small[0] <= x;
          var j :| 0 <= j < |large| && large[j] == x;
          assert large[1..][j - 1] == x;
        }
        IncreasingSubset(small, large[1..]);
      }
    }
  }
}
