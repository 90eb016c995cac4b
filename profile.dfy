/** A learner profile: the quiz history and the stored classification, both
    updated in place. Every change to the history goes through
    `AppendAndReclassify`, which leaves the classification equal to the
    classifier's verdict on the new history. */
module Profile {
  import opened Records
  import opened Classifier
  import opened Predictor
  import opened Adapter

  /** Number of answers that match their question's correct option. */
  function CorrectCount(questions: seq<Question>, answers: seq<int>): (n: nat)
    requires |answers| <= |questions|
    ensures n <= |answers|
    ensures n == |answers| <==> forall i :: 0 <= i < |answers| ==> answers[i] == questions[i].correct
    ensures n == 0 <==> forall i :: 0 <= i < |answers| ==> answers[i] != questions[i].correct
  {
    if answers == [] then 0
    else
      var k := |answers| - 1;
      CorrectCount(questions, answers[..k]) + (if answers[k] == questions[k].correct then 1 else 0)
  }

  /** The share of correct answers over all the quiz's questions, in percent. */
  function QuizAccuracy(questions: seq<Question>, answers: seq<int>): (a: real)
    requires 0 < |questions| && |answers| <= |questions|
    ensures 0.0 <= a <= 100.0
    ensures a == 100.0 <==> |answers| == |questions|
                            && forall i :: 0 <= i < |answers| ==> answers[i] == questions[i].correct
    ensures a == 0.0 <==> forall i :: 0 <= i < |answers| ==> answers[i] != questions[i].correct
  {
    var n := CorrectCount(questions, answers);
    PercentBounds(n, |questions|);
    (n as real / |questions| as real) * 100.0
  }

  lemma PercentBounds(n: nat, m: nat)
    requires 0 < m && n <= m
    ensures 0.0 <= (n as real / m as real) * 100.0 <= 100.0
    ensures (n as real / m as real) * 100.0 == 100.0 <==> n == m
    ensures (n as real / m as real) * 100.0 == 0.0 <==> n == 0
  {
    var q := n as real / m as real;
    assert q * (m as real) == n as real;
    DivideBounds(n as real, m as real, 1.0);
    if q == 1.0 {
      assert n as real == m as real;
    }
  }

  /** The quiz's average time per question, zero when no time was recorded. */
  function QuizAvgTime(times: seq<real>): real
  {
    if times == [] then 0.0 else Mean(times)
  }

  class LearnerProfile {
    var history: seq<QuizRecord>
    var classification: Tier

    /** The stored classification is the classifier's verdict on the history. */
    ghost predicate Valid()
      reads this
    {
      classification == Classify(history)
    }

    /** A profile as generated or loaded, with whatever label text was
        stored alongside its history; it is not reclassified. */
    constructor (initialHistory: seq<QuizRecord>, storedLabel: string)
      ensures history == initialHistory
      ensures classification == ParseLabel(storedLabel)
      ensures LabelName(classification) == storedLabel && Canonical(classification)
    {
      history := initialHistory;
      classification := ParseLabel(storedLabel);
    }

    /** Extends the history and reclassifies, as one step. */
    method AppendAndReclassify(records: seq<QuizRecord>)
      modifies this
      ensures history == old(history) + records
      ensures |history| == |old(history)| + |records|
      ensures history[..|old(history)|] == old(history)
      ensures Valid()
    {
      history := history + records;
      classification := Classify(history);
    }

    /** The end of a quiz: scores the answers, records the attempt with no
        retries and reclassifies. A quiz is only started with at least one
        question, and the completion step is reached once every question
        has an answer. */
    method CompleteQuiz(questions: seq<Question>, answers: seq<int>, times: seq<real>,
                        hintsUsed: nat, date: string, topic: string)
      returns (accuracy: real)
      requires 0 < |questions| && |answers| == |questions|
      modifies this
      ensures 0.0 <= accuracy <= 100.0
      ensures accuracy == QuizAccuracy(questions, answers)
      ensures history == old(history) + [QuizRecord(accuracy, QuizAvgTime(times), hintsUsed, 0, date, topic)]
      ensures |history| == |old(history)| + 1
      ensures history[..|old(history)|] == old(history)
      ensures history[|history| - 1].accuracy == accuracy
      ensures Valid()
    {
      accuracy := QuizAccuracy(questions, answers);
      var record := QuizRecord(accuracy, QuizAvgTime(times), hintsUsed, 0, date, topic);
      AppendAndReclassify([record]);
    }

    /** The configuration for the next session: built from the stored
        label and the predictor, then overridden when the latest quiz
        scored below 50. The profile is left untouched. */
    method Adapt() returns (c: AdaptationConfig)
      ensures c == Adaptation(classification, history)
      ensures c.revisionNeeded <==> history != [] && history[|history| - 1].accuracy < 50.0
    {
      c := AdaptationConfig(
        difficulty := Predict(history),
        contentFormat := if classification == Struggling then Visual else Text,
        enableChallengeMode := classification == Advanced,
        provideHints := classification != Advanced,
        revisionNeeded := false);
      if history != [] {
        var recentAccuracy := history[|history| - 1].accuracy;
        if recentAccuracy < 50.0 {
          c := c.(revisionNeeded := true, difficulty := Easy);
        }
      }
    }
  }

  /** The imported records for a learner, if the import names them. */
  function BatchFor(batches: seq<(string, seq<QuizRecord>)>, name: string): Option<seq<QuizRecord>>
  {
    if batches == [] then None
    else if batches[|batches| - 1].0 == name then Some(batches[|batches| - 1].1)
    else BatchFor(batches[..|batches| - 1], name)
  }

  /** Imports quiz history grouped by learner name: every named learner who
      is in the table gets the records appended and is reclassified; names
      not in the table are skipped and every other learner is untouched. */
  method ImportQuizHistory(learners: map<string, LearnerProfile>,
                           batches: seq<(string, seq<QuizRecord>)>)
    requires forall i, j :: 0 <= i < j < |batches| ==> batches[i].0 != batches[j].0
    requires forall a, b :: a in learners && b in learners && a != b ==> learners[a] != learners[b]
    modifies set n | n in learners :: learners[n]
    ensures forall n :: n in learners && BatchFor(batches, n).Some? ==>
      learners[n].history == old(learners[n].history) + BatchFor(batches, n).value
      && learners[n].Valid()
    ensures forall n :: n in learners && BatchFor(batches, n).None? ==>
      learners[n].history == old(learners[n].history)
      && learners[n].classification == old(learners[n].classification)
  {
    var i := 0;
    while i < |batches|
      invariant 0 <= i <= |batches|
      invariant forall n :: n in learners && BatchFor(batches[..i], n).Some? ==>
        learners[n].history == old(learners[n].history) + BatchFor(batches[..i], n).value
        && learners[n].Valid()
      invariant forall n :: n in learners && BatchFor(batches[..i], n).None? ==>
        learners[n].history == old(learners[n].history)
        && learners[n].classification == old(learners[n].classification)
    {
      var (name, records) := batches[i];
      assert batches[..i + 1][..i] == batches[..i];
      if name in learners {
        BatchForUnseen(batches, i);
        learners[name].AppendAndReclassify(records);
      }
      i := i + 1;
    }
    assert batches[..i] == batches;
  }

  /** With distinct names, the learner of the next batch has none so far. */
  lemma {:induction false} BatchForUnseen(batches: seq<(string, seq<QuizRecord>)>, i: nat)
    requires i < |batches|
    requires forall a, b :: 0 <= a < b < |batches| ==> batches[a].0 != batches[b].0
    ensures BatchFor(batches[..i], batches[i].0).None?
  {
    if i > 0 {
      var prefix := batches[..i];
      assert prefix[..i - 1] == batches[..i - 1];
      NoBatchInPrefix(batches, i - 1, batches[i].0);
    }
  }

  lemma {:induction false} NoBatchInPrefix(batches: seq<(string, seq<QuizRecord>)>, k: nat, name: string)
    requires k < |batches|
    requires forall a :: 0 <= a <= k ==> batches[a].0 != name
    ensures BatchFor(batches[..k + 1], name).None?
  {
    var prefix := batches[..k + 1];
    assert prefix[..k] == batches[..k];
    if k > 0 {
      NoBatchInPrefix(batches, k - 1, name);
    }
  }
}
