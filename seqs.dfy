/** Generic sequence notions used to state what the sampler's stream stages preserve. */
module Seqs {

  /** `idx` embeds `a` into `b`: strictly increasing positions of `b` that spell out `a`. */
  ghost predicate IsEmbedding<T>(idx: seq<nat>, a: seq<T>, b: seq<T>)
  {
    && |idx| == |a|
    && (forall j :: 0 <= j < |idx| ==> idx[j] < |b| && a[j] == b[idx[j]])
    && (forall j, j' :: 0 <= j < j' < |idx| ==> idx[j] < idx[j'])
  }

  /** `a` is obtained from `b` by deleting elements, keeping order. */
  ghost predicate IsSubsequence<T>(a: seq<T>, b: seq<T>)
  {
    exists idx: seq<nat> :: IsEmbedding(idx, a, b)
  }

  /** Every sequence embeds into itself extended on the right. */
  lemma {:induction false} SubsequenceOfPrefix<T>(a: seq<T>, b: seq<T>, c: seq<T>)
    requires IsSubsequence(a, b)
    ensures IsSubsequence(a, b + c)
  {
    var idx: seq<nat> :| IsEmbedding(idx, a, b);
    assert IsEmbedding(idx, a, b + c);
  }

  /** Extending both sides with the same last element keeps an embedding. */
  lemma {:induction false} SubsequenceSnoc<T>(a: seq<T>, b: seq<T>, x: T, c: seq<T>)
    requires IsSubsequence(a, b)
    ensures IsSubsequence(a + [x], b + [x] + c)
  {
    var idx: seq<nat> :| IsEmbedding(idx, a, b);
    var idx': seq<nat> := idx + [|b|];
    assert IsEmbedding(idx', a + [x], b + [x] + c);
  }

  /** No value occurs twice in `s`. */
  ghost predicate NoDuplicates<T>(s: seq<T>)
  {
    forall i, j :: 0 <= i < j < |s| ==> s[i] != s[j]
  }
}
