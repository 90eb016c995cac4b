/** The difficulty predictor: recommends the next quiz's difficulty from the
    mean accuracy and mean time of the last three quizzes at most. */
module Predictor {
  import opened Records

  /** The trailing window of at most three most recent records. */
  function Window(h: seq<QuizRecord>): (w: seq<QuizRecord>)
    ensures |w| == if |h| >= 3 then 3 else |h|
    ensures w == h[|h| - |w|..]
  {
    if |h| >= 3 then h[|h| - 3..] else h
  }

  /** The next quiz's difficulty. Anything above easy needs a non-empty
      history whose window averages at least 70 in under 60 seconds, and
      hard needs at least 90 in under 35. */
  function Predict(h: seq<QuizRecord>): (d: Difficulty)
    ensures d != Easy ==> h != [] && MeanAccuracy(Window(h)) >= 70.0 && MeanTime(Window(h)) < 60.0
    ensures d == Hard ==> MeanAccuracy(Window(h)) >= 90.0 && MeanTime(Window(h)) < 35.0
  {
    if h == [] then Easy
    else
      var w := Window(h);
      if MeanAccuracy(w) >= 90.0 && MeanTime(w) < 35.0 then Hard
      else if MeanAccuracy(w) >= 70.0 && MeanTime(w) < 60.0 then Medium
      else Easy
  }

  /** The three outcomes and their conditions on the window's means. */
  lemma PredictCases(h: seq<QuizRecord>)
    ensures h == [] ==> Predict(h) == Easy
    ensures h != [] ==>
      var w := Window(h);
      && (Predict(h) == Hard <==> MeanAccuracy(w) >= 90.0 && MeanTime(w) < 35.0)
      && (Predict(h) == Medium <==>
            !(MeanAccuracy(w) >= 90.0 && MeanTime(w) < 35.0)
            && MeanAccuracy(w) >= 70.0 && MeanTime(w) < 60.0)
  {
  }

  /** Older quizzes never move the prediction once three newer ones exist:
      a single old outlier cannot anchor the difficulty. */
  lemma PredictIgnoresOlder(older: seq<QuizRecord>, recent: seq<QuizRecord>)
    requires |recent| >= 3
    ensures Predict(older + recent) == Predict(recent)
  {
    var h := older + recent;
    assert h[|h| - 3..] == recent[|recent| - 3..];
  }

  /** Two histories whose last three records agree get the same prediction,
      whatever came before. */
  lemma PredictDependsOnTrailingThree(h1: seq<QuizRecord>, h2: seq<QuizRecord>)
    requires |h1| >= 3 && |h2| >= 3
    requires h1[|h1| - 3..] == h2[|h2| - 3..]
    ensures Predict(h1) == Predict(h2)
  {
  }

  /** If every quiz in the window scored at least 90 in under 35 seconds,
      the next quiz is hard. */
  lemma StrongWindowIsHard(h: seq<QuizRecord>)
    requires h != []
    requires forall r :: r in Window(h) ==> r.accuracy >= 90.0 && r.avgTime < 35.0
    ensures Predict(h) == Hard
  {
    var w := Window(h);
    assert forall i :: 0 <= i < |w| ==> w[i] in w;
    MeanAtLeast(Accuracies(w), 90.0);
    MeanBelow(Times(w), 35.0);
    assert MeanAccuracy(w) >= 90.0 && MeanTime(w) < 35.0;
  }

  /** If every quiz in the window scored below 70, the next quiz is easy. */
  lemma WeakWindowIsEasy(h: seq<QuizRecord>)
    requires forall r :: r in Window(h) ==> r.accuracy < 70.0
    ensures Predict(h) == Easy
  {
    if h != [] {
      MeanBelow(Accuracies(Window(h)), 70.0);
    }
  }
}
