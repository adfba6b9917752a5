/**
 * `get_most_similar_word`: the best-scoring vocabulary entry, returned only
 * when its score is strictly above the configured threshold. The similarity
 * measure (rapidfuzz's token-sort ratio) is a parameter.
 */
module Nlp {
  import opened Wrappers

  /** A similarity score as token-sort ratio produces it. */
  type Score = r: real | 0.0 <= r <= 100.0

  /** The scorer and the `WORD_SIMILARITY_THRESHOLD` setting. */
  datatype Matcher = Matcher(scorer: (string, string) -> Score, threshold: int)

  /**
   * The position `extractOne` picks: the first entry with the highest score
   * (a later entry replaces the best so far only when it scores strictly more).
   */
  function BestIndex(word: string, vocabulary: seq<string>, scorer: (string, string) -> Score): (i: nat)
    requires |vocabulary| > 0
    ensures i < |vocabulary|
    ensures forall k :: 0 <= k < |vocabulary| ==> scorer(word, vocabulary[k]) <= scorer(word, vocabulary[i])
    ensures forall k :: 0 <= k < i ==> scorer(word, vocabulary[k]) < scorer(word, vocabulary[i])
  {
    if |vocabulary| == 1 then 0
    else
      var j := BestIndex(word, vocabulary[1..], scorer) + 1;
      assert forall k :: 1 <= k < |vocabulary| ==> vocabulary[k] == vocabulary[1..][k - 1];
      if scorer(word, vocabulary[0]) >= scorer(word, vocabulary[j]) then 0 else j
  }

  /**
   * `get_most_similar_word(word, vocabulary)`. A word comes back exactly when
   * some entry scores above the threshold, and it is then a best-scoring entry.
   */
  function MostSimilarWord(word: string, vocabulary: seq<string>, m: Matcher): (r: Option<string>)
    ensures vocabulary == [] ==> r == None
    ensures r.Some? ==> r.value in vocabulary
    ensures r.Some? ==> m.scorer(word, r.value) > m.threshold as real
    ensures r.Some? ==> forall v :: v in vocabulary ==> m.scorer(word, v) <= m.scorer(word, r.value)
    ensures r.None? <==> forall v :: v in vocabulary ==> m.scorer(word, v) <= m.threshold as real
  {
    if vocabulary == [] then None
    else
      var i := BestIndex(word, vocabulary, m.scorer);
      if m.scorer(word, vocabulary[i]) > m.threshold as real then Some(vocabulary[i]) else None
  }

  /** Among equally good entries the earliest one is returned. */
  lemma {:induction false} MostSimilarWordFirstBest(word: string, vocabulary: seq<string>, m: Matcher, k: nat)
    requires k < |vocabulary|
    requires MostSimilarWord(word, vocabulary, m).Some?
    requires m.scorer(word, vocabulary[k]) == m.scorer(word, MostSimilarWord(word, vocabulary, m).value)
    ensures exists i :: 0 <= i <= k && vocabulary[i] == MostSimilarWord(word, vocabulary, m).value
  {
    var i := BestIndex(word, vocabulary, m.scorer);
    assert vocabulary[i] == MostSimilarWord(word, vocabulary, m).value;
  }
}
