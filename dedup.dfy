/** First-occurrence deduplication, the reference definition against which the
    scraper's identifier-keyed merge is proved. */
module Dedup {

  /** The positions in `ks` that hold a key for the first time, in increasing order. */
  function FirstOccurrences<K(==)>(ks: seq<K>): (idx: seq<nat>)
    ensures forall i :: 0 <= i < |idx| ==> idx[i] < |ks|
    ensures forall i, j :: 0 <= i < j < |idx| ==> idx[i] < idx[j]
    decreases |ks|
  {
    if ks == [] then []
    else
      var init := ks[..|ks| - 1];
      var idx := FirstOccurrences(init);
      if ks[|ks| - 1] in init then idx else idx + [|ks| - 1]
  }

  /** `s` at the positions `idx`. */
  function Pick<T>(s: seq<T>, idx: seq<nat>): (r: seq<T>)
    requires forall i :: 0 <= i < |idx| ==> idx[i] < |s|
    ensures |r| == |idx|
    ensures forall i :: 0 <= i < |idx| ==> r[i] == s[idx[i]]
  {
    seq(|idx|, i requires 0 <= i < |idx| => s[idx[i]])
  }

  /** The keys at the first occurrences, in order of first appearance. */
  function DistinctKeys<K(==)>(ks: seq<K>): seq<K> {
    Pick(ks, FirstOccurrences(ks))
  }

  /** Every picked position is the first one holding its key. */
  lemma {:induction false} FirstOccurrencesAreFirst<K>(ks: seq<K>)
    ensures var idx := FirstOccurrences(ks);
      forall i, p :: 0 <= i < |idx| && 0 <= p < idx[i] ==> ks[p] != ks[idx[i]]
    decreases |ks|
  {
    if ks != [] {
      var init := ks[..|ks| - 1];
      FirstOccurrencesAreFirst(init);
      var idx := FirstOccurrences(ks);
      forall i, p | 0 <= i < |idx| && 0 <= p < idx[i]
        ensures ks[p] != ks[idx[i]]
      {
        if idx[i] < |init| {
          assert idx[i] == FirstOccurrences(init)[i];
          assert ks[p] == init[p] && ks[idx[i]] == init[idx[i]];
        } else {
          assert ks[|ks| - 1] !in init;
          assert init[p] == ks[p];
        }
      }
    }
  }

  /** The picked keys are pairwise distinct. */
  lemma FirstOccurrencesDistinct<K>(ks: seq<K>)
    ensures var idx := FirstOccurrences(ks);
      forall i, j :: 0 <= i < j < |idx| ==> ks[idx[i]] != ks[idx[j]]
  {
    FirstOccurrencesAreFirst(ks);
  }

  /** Every key of `ks` is among the picked ones. */
  lemma {:induction false} FirstOccurrencesCover<K>(ks: seq<K>)
    ensures forall p :: 0 <= p < |ks| ==> ks[p] in DistinctKeys(ks)
    decreases |ks|
  {
    if ks != [] {
      var init := ks[..|ks| - 1];
      FirstOccurrencesCover(init);
      var idx0 := FirstOccurrences(init);
      var idx := FirstOccurrences(ks);
      assert forall i :: 0 <= i < |idx0| ==> idx[i] == idx0[i];
      forall p | 0 <= p < |ks|
        ensures ks[p] in DistinctKeys(ks)
      {
        if p < |init| {
          assert init[p] in DistinctKeys(init);
          var i :| 0 <= i < |idx0| && DistinctKeys(init)[i] == init[p];
          assert DistinctKeys(ks)[i] == ks[idx0[i]] == init[idx0[i]];
        } else if ks[p] in init {
          var q :| 0 <= q < |init| && init[q] == ks[p];
          assert init[q] in DistinctKeys(init);
          var i :| 0 <= i < |idx0| && DistinctKeys(init)[i] == init[q];
          assert DistinctKeys(ks)[i] == ks[idx0[i]] == init[idx0[i]];
        } else {
          assert DistinctKeys(ks)[|idx| - 1] == ks[p];
        }
      }
    }
  }

  /** Picked keys come from `ks`. */
  lemma DistinctKeysFromInput<K>(ks: seq<K>)
    ensures forall k :: k in DistinctKeys(ks) ==> k in ks
  {
  }
}
