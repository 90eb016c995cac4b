/** The content adapter: the presentation flags for a learner's next session,
    from the stored classification and the quiz history. The profile method
    that builds them step by step is `Profile.LearnerProfile.Adapt`; this
    module holds the value it is proved to produce and the facts about it. */
module Adapter {
  import opened Records
  import opened Predictor

  datatype ContentFormat = Visual | Text

  datatype AdaptationConfig = AdaptationConfig(
    difficulty: Difficulty,
    contentFormat: ContentFormat,
    enableChallengeMode: bool,
    provideHints: bool,
    revisionNeeded: bool)

  /** The latest quiz scored below 50. */
  predicate NeedsRevision(h: seq<QuizRecord>)
  {
    h != [] && h[|h| - 1].accuracy < 50.0
  }

  /** The configuration for a stored tier and a history. It never asks for
      a harder quiz than the predictor, a revision always comes with easy
      quizzes, and hints are offered exactly outside challenge mode. */
  function Adaptation(tier: Tier, h: seq<QuizRecord>): (c: AdaptationConfig)
    ensures Rank(c.difficulty) <= Rank(Predict(h))
    ensures c.revisionNeeded ==> c.difficulty == Easy
    ensures c.provideHints == !c.enableChallengeMode
  {
    AdaptationConfig(
      difficulty := if NeedsRevision(h) then Easy else Predict(h),
      contentFormat := if tier == Struggling then Visual else Text,
      enableChallengeMode := tier == Advanced,
      provideHints := tier != Advanced,
      revisionNeeded := NeedsRevision(h))
  }

  /** A failed latest quiz forces easy content and revision whatever the
      three-quiz trend says; otherwise the predictor's difficulty stands. */
  lemma RevisionOverride(tier: Tier, h: seq<QuizRecord>)
    ensures Adaptation(tier, h).revisionNeeded <==> h != [] && h[|h| - 1].accuracy < 50.0
    ensures Adaptation(tier, h).revisionNeeded ==> Adaptation(tier, h).difficulty == Easy
    ensures !Adaptation(tier, h).revisionNeeded ==> Adaptation(tier, h).difficulty == Predict(h)
  {
  }

  /** Visual content goes to exactly the Struggling tier, challenge mode to
      exactly the Advanced tier, and hints to everyone not in challenge mode. */
  lemma FormatFlags(tier: Tier, h: seq<QuizRecord>)
    ensures Adaptation(tier, h).contentFormat == Visual <==> tier == Struggling
    ensures Adaptation(tier, h).enableChallengeMode <==> tier == Advanced
  {
  }

  /** Right after a quiz is recorded, revision is needed exactly when that
      quiz scored below 50. */
  lemma RevisionAfterQuiz(tier: Tier, h: seq<QuizRecord>, r: QuizRecord)
    ensures Adaptation(tier, h + [r]).revisionNeeded <==> r.accuracy < 50.0
    ensures r.accuracy >= 50.0 ==> Adaptation(tier, h + [r]).difficulty == Predict(h + [r])
  {
    assert (h + [r])[|h + [r]| - 1] == r;
  }

  /** With accuracies at most 100, a latest score below 50 already keeps the
      three-quiz mean under 90, so the override can turn medium into easy
      but never hides a hard prediction. */
  lemma OverrideNeverMasksHard(h: seq<QuizRecord>)
    requires forall r :: r in h ==> r.accuracy <= 100.0
    requires NeedsRevision(h)
    ensures Predict(h) != Hard
  {
    WindowMeanBelowNinety(h);
  }

  lemma WindowMeanBelowNinety(h: seq<QuizRecord>)
    requires forall r :: r in h ==> r.accuracy <= 100.0
    requires NeedsRevision(h)
    ensures MeanAccuracy(Window(h)) < 90.0
  {
    var w := Window(h);
    assert w[|w| - 1] == h[|h| - 1];
    assert forall r :: r in w ==> r in h;
    LowLastBelowNinety(w);
  }

  /** At most three scores of at most 100, the last below 50: mean below 90. */
  lemma LowLastBelowNinety(w: seq<QuizRecord>)
    requires 0 < |w| <= 3
    requires forall r :: r in w ==> r.accuracy <= 100.0
    requires w[|w| - 1].accuracy < 50.0
    ensures MeanAccuracy(w) < 90.0
  {
    var xs := Accuracies(w);
    assert forall i :: 0 <= i < |xs| ==> xs[i] <= 100.0 by {
      forall i | 0 <= i < |xs| ensures xs[i] <= 100.0 {
        assert w[i] in w;
      }
    }
    SumWithLowLast(xs, 100.0, 50.0);
    MeanFromSum(xs, 90.0);
  }

  /** Two perfect quizzes and a latest 49, all fast. */
  const FailAfterTwoPerfect: seq<QuizRecord> :=
    [QuizRecord(100.0, 10.0, 0, 0, "", ""),
     QuizRecord(100.0, 10.0, 0, 0, "", ""),
     QuizRecord(49.0, 10.0, 0, 0, "", "")]

  /** The override does fire against a medium trend: the history above
      predicts medium but adapts to easy with revision. */
  lemma OverrideLowersMedium()
    ensures Predict(FailAfterTwoPerfect) == Medium
    ensures Adaptation(Average, FailAfterTwoPerfect).difficulty == Easy
    ensures Adaptation(Average, FailAfterTwoPerfect).revisionNeeded
  {
    FailAfterTwoPerfectMeans();
  }

  lemma FailAfterTwoPerfectMeans()
    ensures Window(FailAfterTwoPerfect) == FailAfterTwoPerfect
    ensures MeanAccuracy(FailAfterTwoPerfect) == 83.0
    ensures MeanTime(FailAfterTwoPerfect) == 10.0
  {
    MeansOfThree(FailAfterTwoPerfect);
  }
}
