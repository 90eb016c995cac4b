/** The built-in sample learners and two end-to-end cases, checked against
    the classifier, the predictor and the adapter. */
module Scenarios {
  import opened Records
  import opened Classifier
  import opened Predictor
  import opened Adapter
  import opened Profile

  const Alice: seq<QuizRecord> := [
    QuizRecord(45.0, 85.0, 8, 3, "2026-01-10", "Algebra"),
    QuizRecord(52.0, 78.0, 6, 2, "2026-01-12", "Geometry"),
    QuizRecord(48.0, 82.0, 7, 3, "2026-01-14", "Algebra")
  ]

  const Bob: seq<QuizRecord> := [
    QuizRecord(75.0, 45.0, 2, 0, "2026-01-10", "Algebra"),
    QuizRecord(78.0, 42.0, 1, 0, "2026-01-12", "Geometry"),
    QuizRecord(73.0, 48.0, 2, 1, "2026-01-14", "Statistics")
  ]

  const Carol: seq<QuizRecord> := [
    QuizRecord(92.0, 28.0, 0, 0, "2026-01-10", "Algebra"),
    QuizRecord(95.0, 25.0, 0, 0, "2026-01-12", "Geometry"),
    QuizRecord(94.0, 26.0, 0, 0, "2026-01-14", "Calculus")
  ]

  const David: seq<QuizRecord> := [
    QuizRecord(68.0, 55.0, 3, 1, "2026-01-10", "Algebra"),
    QuizRecord(71.0, 52.0, 2, 1, "2026-01-12", "Geometry"),
    QuizRecord(69.0, 58.0, 3, 2, "2026-01-14", "Algebra")
  ]

  /** Carol is Advanced, gets hard quizzes, text content, challenge mode and
      no hints, and needs no revision. */
  lemma CarolIsAdvanced()
    ensures Classify(Carol) == Advanced
    ensures Predict(Carol) == Hard
    ensures Adaptation(Classify(Carol), Carol) == AdaptationConfig(Hard, Text, true, false, false)
  {
    assert Window(Carol) == Carol;
    MeansOfThree(Carol);
    assert TotalHints(Carol) == 0 by {
      TotalHintsZero(Carol);
    }
  }

  /** Alice is Struggling: her mean accuracy is below 60 and she used 21
      hints; her last quiz scored 48, so she is sent to revision. */
  lemma AliceIsStruggling()
    ensures Classify(Alice) == Struggling
    ensures Predict(Alice) == Easy
    ensures Adaptation(Classify(Alice), Alice) == AdaptationConfig(Easy, Visual, false, true, true)
  {
    assert Window(Alice) == Alice;
    MeansOfThree(Alice);
    var a2 := Alice[..2];
    var a1 := a2[..1];
    assert a1[..0] == [];
    assert TotalHints(a1) == 8;
    assert TotalHints(a2) == 14;
    assert TotalHints(Alice) == 21;
  }

  /** Bob and David are both Average; Bob's window earns medium quizzes and
      David's mean accuracy of 69.3 keeps him on easy ones. */
  lemma BobAndDavidAreAverage()
    ensures Classify(Bob) == Average && Predict(Bob) == Medium
    ensures Classify(David) == Average && Predict(David) == Easy
  {
    assert Window(Bob) == Bob;
    assert Window(David) == David;
    MeansOfThree(Bob);
    MeansOfThree(David);
  }

  /** A single quiz at 45% in 85 seconds with 8 hints and 3 retries:
      Struggling, easy, and revision needed. */
  lemma OneWeakQuiz()
    ensures
      var h := [QuizRecord(45.0, 85.0, 8, 3, "", "")];
      && Classify(h) == Struggling
      && Predict(h) == Easy
      && Adaptation(Classify(h), h).revisionNeeded
  {
    var h := [QuizRecord(45.0, 85.0, 8, 3, "", "")];
    assert Accuracies(h) == [45.0] && Times(h) == [85.0];
    assert [45.0][..0] == [] && [85.0][..0] == [];
    assert Window(h) == h;
  }

  /** A client of the profile: Carol answers a two-question quiz wrongly
      twice; the attempt is recorded at 0%, she drops out of the Advanced
      tier and the next session is an easy revision. */
  method CarolFailsAQuiz(q1: Question, q2: Question)
  {
    var carol := new LearnerProfile(Carol, "Advanced Learner");
    CarolIsAdvanced();
    assert carol.Valid();
    var accuracy := carol.CompleteQuiz([q1, q2], [q1.correct + 1, q2.correct + 1], [30.0, 40.0], 0, "2026-01-16", "Algebra");
    assert accuracy == 0.0;
    assert carol.history == Carol + [QuizRecord(0.0, QuizAvgTime([30.0, 40.0]), 0, 0, "2026-01-16", "Algebra")];
    SumOfThree(Accuracies(carol.history)[..3]);
    assert Sum(Accuracies(carol.history)) == 281.0;
    assert carol.classification == Average;
    var config := carol.Adapt();
    assert config.revisionNeeded && config.difficulty == Easy;
    assert carol.Valid();
  }
}
