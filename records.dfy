/** The values the learner engine works on: one completed quiz attempt, the
    learner tiers and difficulty levels, quiz questions, and the sums and
    means that the classifier, the predictor and the clusterer take over a
    quiz history. */
module Records {

  datatype Option<T> = None | Some(value: T)

  /** One completed quiz attempt. Accuracy is a percentage and the average
      time is in seconds; both are kept exact so that threshold tests on
      their means are exact. Dates and topics are free-form labels. */
  datatype QuizRecord = QuizRecord(
    accuracy: real,
    avgTime: real,
    hintsUsed: nat,
    retries: nat,
    date: string,
    topic: string)

  /** The classification label stored on a learner profile. The classifier
      only ever produces the first four; a profile loaded from a file may
      carry any other label, which every consumer treats like none of the
      named tiers. */
  datatype Tier =
    | NewLearner
    | Struggling
    | Average
    | Advanced
    | Unrecognised(name: string)

  /** The label text the application stores and compares for each tier. */
  function LabelName(t: Tier): string
  {
    match t
    case NewLearner => "New Learner"
    case Struggling => "Struggling Learner"
    case Average => "Average Learner"
    case Advanced => "Advanced Learner"
    case Unrecognised(name) => name
  }

  /** An unrecognised label never spells one of the four named tiers: equal
      label text is the same tier. */
  predicate Canonical(t: Tier)
  {
    t.Unrecognised? ==> t.name !in {"New Learner", "Struggling Learner", "Average Learner", "Advanced Learner"}
  }

  /** Reads a stored label: the four tier names become their tiers and any
      other text is kept as an unrecognised label. */
  function ParseLabel(s: string): (t: Tier)
    ensures Canonical(t)
    ensures LabelName(t) == s
  {
    if s == "New Learner" then NewLearner
    else if s == "Struggling Learner" then Struggling
    else if s == "Average Learner" then Average
    else if s == "Advanced Learner" then Advanced
    else Unrecognised(s)
  }

  /** Printing a canonical tier and reading it back gives the same tier. */
  lemma LabelRoundTrip(t: Tier)
    requires Canonical(t)
    ensures ParseLabel(LabelName(t)) == t
  {
  }

  datatype Difficulty = Easy | Medium | Hard

  /** Position of a difficulty on the easy-to-hard scale. */
  function Rank(d: Difficulty): (n: nat)
    ensures n <= 2
    ensures d == Easy <==> n == 0
    ensures d == Hard <==> n == 2
  {
    match d
    case Easy => 0
    case Medium => 1
    case Hard => 2
  }

  /** A multiple-choice question; `correct` is the index of the right
      option and the hint may be absent from an imported question. */
  datatype Question = Question(
    text: string,
    options: seq<string>,
    correct: int,
    hint: Option<string>,
    explanation: string)

  // ---------------------------------------------------------------------
  // Sums and means over a history

  function Sum(xs: seq<real>): real
  {
    if xs == [] then 0.0 else Sum(xs[..|xs| - 1]) + xs[|xs| - 1]
  }

  function Mean(xs: seq<real>): real
    requires xs != []
  {
    Sum(xs) / (|xs| as real)
  }

  function Accuracies(h: seq<QuizRecord>): (xs: seq<real>)
    ensures |xs| == |h| && forall i :: 0 <= i < |h| ==> xs[i] == h[i].accuracy
  {
    seq(|h|, i requires 0 <= i < |h| => h[i].accuracy)
  }

  function Times(h: seq<QuizRecord>): (xs: seq<real>)
    ensures |xs| == |h| && forall i :: 0 <= i < |h| ==> xs[i] == h[i].avgTime
  {
    seq(|h|, i requires 0 <= i < |h| => h[i].avgTime)
  }

  function MeanAccuracy(h: seq<QuizRecord>): real
    requires h != []
  {
    Mean(Accuracies(h))
  }

  function MeanTime(h: seq<QuizRecord>): real
    requires h != []
  {
    Mean(Times(h))
  }

  function TotalHints(h: seq<QuizRecord>): nat
  {
    if h == [] then 0 else TotalHints(h[..|h| - 1]) + h[|h| - 1].hintsUsed
  }

  /** The means of a three-quiz history, spelled out. */
  lemma MeansOfThree(h: seq<QuizRecord>)
    requires |h| == 3
    ensures MeanAccuracy(h) == (h[0].accuracy + h[1].accuracy + h[2].accuracy) / 3.0
    ensures MeanTime(h) == (h[0].avgTime + h[1].avgTime + h[2].avgTime) / 3.0
  {
    SumOfThree(Accuracies(h));
    SumOfThree(Times(h));
  }

  lemma SumOfThree(xs: seq<real>)
    requires |xs| == 3
    ensures Sum(xs) == xs[0] + xs[1] + xs[2]
  {
    var a, b := xs[..2], xs[..2][..1];
    assert b[..0] == [];
    assert Sum(b) == xs[0];
    assert Sum(a) == xs[0] + xs[1];
  }

  // ---------------------------------------------------------------------
  // Bounds on means from bounds on every element

  lemma {:induction false} SumAtLeast(xs: seq<real>, c: real)
    requires forall i :: 0 <= i < |xs| ==> xs[i] >= c
    ensures Sum(xs) >= c * (|xs| as real)
  {
    if xs != [] {
      var n := |xs|;
      SumAtLeast(xs[..n - 1], c);
      assert c * (n as real) == c * ((n - 1) as real) + c;
    }
  }

  lemma {:induction false} SumAtMost(xs: seq<real>, c: real)
    requires forall i :: 0 <= i < |xs| ==> xs[i] <= c
    ensures Sum(xs) <= c * (|xs| as real)
  {
    if xs != [] {
      var n := |xs|;
      SumAtMost(xs[..n - 1], c);
      assert c * (n as real) == c * ((n - 1) as real) + c;
    }
  }

  lemma {:induction false} SumBelow(xs: seq<real>, c: real)
    requires xs != []
    requires forall i :: 0 <= i < |xs| ==> xs[i] < c
    ensures Sum(xs) < c * (|xs| as real)
  {
    var n := |xs|;
    SumAtMost(xs[..n - 1], c);
    assert c * (n as real) == c * ((n - 1) as real) + c;
  }

  /** A mean is at least any common lower bound of its elements. */
  lemma MeanAtLeast(xs: seq<real>, c: real)
    requires xs != []
    requires forall i :: 0 <= i < |xs| ==> xs[i] >= c
    ensures Mean(xs) >= c
  {
    SumAtLeast(xs, c);
    DivideBounds(Sum(xs), |xs| as real, c);
  }

  /** A mean is strictly below any strict common upper bound of its elements. */
  lemma MeanBelow(xs: seq<real>, c: real)
    requires xs != []
    requires forall i :: 0 <= i < |xs| ==> xs[i] < c
    ensures Mean(xs) < c
  {
    SumBelow(xs, c);
    DivideBounds(Sum(xs), |xs| as real, c);
  }

  /** A sum whose last element is below lo and whose others are at most hi. */
  lemma SumWithLowLast(xs: seq<real>, hi: real, lo: real)
    requires xs != []
    requires forall i :: 0 <= i < |xs| ==> xs[i] <= hi
    requires xs[|xs| - 1] < lo
    ensures Sum(xs) < hi * ((|xs| - 1) as real) + lo
  {
    var init := xs[..|xs| - 1];
    assert forall i :: 0 <= i < |init| ==> init[i] == xs[i];
    SumAtMost(init, hi);
  }

  /** A sum below c times the count gives a mean below c. */
  lemma MeanFromSum(xs: seq<real>, c: real)
    requires xs != []
    requires Sum(xs) < c * (|xs| as real)
    ensures Mean(xs) < c
  {
    DivideBounds(Sum(xs), |xs| as real, c);
  }

  lemma DivideBounds(s: real, n: real, c: real)
    requires n > 0.0
    ensures s >= c * n ==> s / n >= c
    ensures s < c * n ==> s / n < c
    ensures s <= c * n ==> s / n <= c
  {
    assert (s / n) * n == s;
    if s / n < c { assert (s / n) * n < c * n; }
    if s / n >= c { assert (s / n) * n >= c * n; }
    if s / n > c { assert (s / n) * n > c * n; }
  }

  /** Every hint count in a history is zero exactly when their total is. */
  lemma {:induction false} TotalHintsZero(h: seq<QuizRecord>)
    ensures TotalHints(h) == 0 <==> forall i :: 0 <= i < |h| ==> h[i].hintsUsed == 0
  {
    if h != [] {
      var n := |h|;
      TotalHintsZero(h[..n - 1]);
      assert forall i :: 0 <= i < n - 1 ==> h[..n - 1][i] == h[i];
    }
  }
}
