/** The classifier: maps a learner's whole quiz history to a tier, from the
    mean accuracy, the mean time and the total number of hints. */
module Classifier {
  import opened Records

  /** Mean accuracy below 60 with slow answers or more than five hints. */
  predicate StrugglingProfile(h: seq<QuizRecord>)
    requires h != []
  {
    MeanAccuracy(h) < 60.0 && (MeanTime(h) > 70.0 || TotalHints(h) > 5)
  }

  /** Mean accuracy of at least 85, fast answers and no hints at all. */
  predicate AdvancedProfile(h: seq<QuizRecord>)
    requires h != []
  {
    MeanAccuracy(h) >= 85.0 && MeanTime(h) < 35.0 && TotalHints(h) == 0
  }

  /** Retries play no part in the tier (see `ClassifyIgnoresRetries`). */
  function Classify(h: seq<QuizRecord>): (t: Tier)
    ensures !t.Unrecognised?
    ensures t == NewLearner <==> h == []
  {
    if h == [] then NewLearner
    else
      if StrugglingProfile(h) then Struggling
      else if AdvancedProfile(h) then Advanced
      else Average
  }

  /** The four outcomes for a non-empty history, each with its condition,
      in the order the source tests them. */
  lemma ClassifyCases(h: seq<QuizRecord>)
    requires h != []
    ensures Classify(h) == Struggling <==> StrugglingProfile(h)
    ensures Classify(h) == Advanced <==> !StrugglingProfile(h) && AdvancedProfile(h)
    ensures Classify(h) == Average <==> !StrugglingProfile(h) && !AdvancedProfile(h)
  {
  }

  /** The two special tiers exclude each other on accuracy alone, so testing
      Struggling first never hides an Advanced learner. */
  lemma TiersExclusive(h: seq<QuizRecord>)
    requires h != []
    ensures !(StrugglingProfile(h) && AdvancedProfile(h))
    ensures Classify(h) == Advanced <==> AdvancedProfile(h)
  {
  }

  /** Two histories that agree on everything but the retry counts get the
      same tier: the retry total never decides anything. */
  lemma {:induction false} ClassifyIgnoresRetries(h1: seq<QuizRecord>, h2: seq<QuizRecord>)
    requires |h1| == |h2|
    requires forall i :: 0 <= i < |h1| ==> h1[i].(retries := 0) == h2[i].(retries := 0)
    ensures Classify(h1) == Classify(h2)
  {
    if h1 != [] {
      assert Accuracies(h1) == Accuracies(h2);
      assert Times(h1) == Times(h2);
      SameHintsSameTotal(h1, h2);
    }
  }

  lemma {:induction false} SameHintsSameTotal(h1: seq<QuizRecord>, h2: seq<QuizRecord>)
    requires |h1| == |h2|
    requires forall i :: 0 <= i < |h1| ==> h1[i].hintsUsed == h2[i].hintsUsed
    ensures TotalHints(h1) == TotalHints(h2)
  {
    if h1 != [] {
      var n := |h1|;
      SameHintsSameTotal(h1[..n - 1], h2[..n - 1]);
    }
  }

  /** A learner whose every quiz scored below 60 and who used more than five
      hints in all is Struggling, however fast they answered. */
  lemma EveryQuizWeakIsStruggling(h: seq<QuizRecord>)
    requires h != []
    requires forall i :: 0 <= i < |h| ==> h[i].accuracy < 60.0
    requires TotalHints(h) > 5
    ensures Classify(h) == Struggling
  {
    MeanBelow(Accuracies(h), 60.0);
  }

  /** A learner whose every quiz scored at least 85 in under 35 seconds per
      question with no hints is Advanced. */
  lemma EveryQuizStrongIsAdvanced(h: seq<QuizRecord>)
    requires h != []
    requires forall i :: 0 <= i < |h| ==>
      h[i].accuracy >= 85.0 && h[i].avgTime < 35.0 && h[i].hintsUsed == 0
    ensures Classify(h) == Advanced
  {
    MeanAtLeast(Accuracies(h), 85.0);
    MeanBelow(Times(h), 35.0);
    TotalHintsZero(h);
  }

  /** A learner who used a hint anywhere in their history is never Advanced. */
  lemma AnyHintRulesOutAdvanced(h: seq<QuizRecord>, k: nat)
    requires k < |h| && h[k].hintsUsed > 0
    ensures Classify(h) != Advanced
  {
    TotalHintsZero(h);
  }
}
