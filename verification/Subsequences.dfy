/** In-order parts of a sequence. */
module Subsequences {
  /** `at` are the positions, in order, at which `whole` holds the elements of `part`. */
  ghost predicate Picks<T>(part: seq<T>, whole: seq<T>, at: seq<int>) {
    && |at| == |part|
    && (forall i | 0 <= i < |at| :: 0 <= at[i] < |whole| && part[i] == whole[at[i]])
    && forall i, j | 0 <= i < j < |at| :: at[i] < at[j]
  }

  ghost predicate Subsequence<T>(part: seq<T>, whole: seq<T>) {
    exists at :: Picks(part, whole, at)
  }

  lemma Empty<T>(whole: seq<T>)
    ensures Subsequence([], whole)
  {
    assert Picks([], whole, []);
  }

  lemma KeepLast<T>(part: seq<T>, whole: seq<T>, x: T)
    requires Subsequence(part, whole)
    ensures Subsequence(part + [x], whole + [x])
  {
    var at :| Picks(part, whole, at);
    assert Picks(part + [x], whole + [x], at + [|whole|]);
  }

  lemma SkipLast<T>(part: seq<T>, whole: seq<T>, x: T)
    requires Subsequence(part, whole)
    ensures Subsequence(part, whole + [x])
  {
    var at :| Picks(part, whole, at);
    assert Picks(part, whole + [x], at);
  }

  lemma {:induction false} Shorter<T>(part: seq<T>, whole: seq<T>, at: seq<int>)
    requires Picks(part, whole, at)
    ensures |part| <= |whole|
    ensures part != [] ==> at[|at| - 1] >= |part| - 1
  {
    if part != [] {
      var n := |part| - 1;
      Shorter(part[..n], whole, at[..n]);
      assert n > 0 ==> at[..n][n - 1] == at[n - 1] < at[n];
    }
  }
}
