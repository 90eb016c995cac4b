/** Cohort clustering: the population floor and the per-learner features
    that feed the clustering step. Standardising the features and k-means
    with three clusters are one opaque function here, `scaleAndCluster`,
    which gives each feature vector of a population a cluster id. */
module Cohorts {
  import opened Records

  /** A cluster id, 0, 1 or 2, with no meaning attached to any of them. */
  type ClusterId = c: int | 0 <= c < 3

  datatype Feature = Feature(meanAccuracy: real, meanTime: real)

  /** A learner's name and quiz history, as the learner table lists them. */
  type Entry = (string, seq<QuizRecord>)

  /** The learner table has one entry per name. */
  predicate DistinctNames(pop: seq<Entry>)
  {
    forall i, j :: 0 <= i < j < |pop| ==> pop[i].0 != pop[j].0
  }

  /** The learners with at least one quiz, in table order. */
  function Qualifying(pop: seq<Entry>): (q: seq<Entry>)
    ensures |q| <= |pop|
    ensures forall k :: 0 <= k < |q| ==> q[k].1 != []
  {
    if pop == [] then []
    else
      var last := pop[|pop| - 1];
      Qualifying(pop[..|pop| - 1]) + (if last.1 != [] then [last] else [])
  }

  function Names(q: seq<Entry>): (ns: seq<string>)
    ensures |ns| == |q| && forall i :: 0 <= i < |q| ==> ns[i] == q[i].0
  {
    seq(|q|, i requires 0 <= i < |q| => q[i].0)
  }

  function FeatureOf(h: seq<QuizRecord>): Feature
    requires h != []
  {
    Feature(MeanAccuracy(h), MeanTime(h))
  }

  function Features(q: seq<Entry>): (fs: seq<Feature>)
    requires forall k :: 0 <= k < |q| ==> q[k].1 != []
    ensures |fs| == |q|
  {
    seq(|q|, i requires 0 <= i < |q| => FeatureOf(q[i].1))
  }

  /** The names of the learners with at least one quiz. */
  function ActiveNames(pop: seq<Entry>): set<string>
  {
    set e | e in pop && e.1 != [] :: e.0
  }

  /** Clustering runs only with three learners or more, of whom three or
      more have a quiz history. */
  predicate Clusterable(pop: seq<Entry>)
  {
    |pop| >= 3 && |Qualifying(pop)| >= 3
  }

  method ClusterLearners(pop: seq<Entry>, scaleAndCluster: (seq<Feature>, nat) -> ClusterId)
    returns (m: map<string, int>)
    requires DistinctNames(pop)
    ensures !Clusterable(pop) ==> m == map[]
    ensures Clusterable(pop) ==> m.Keys == ActiveNames(pop)
    ensures Clusterable(pop) ==>
      var q := Qualifying(pop);
      forall i :: 0 <= i < |q| ==> q[i].0 in m && m[q[i].0] == scaleAndCluster(Features(q), i)
    ensures forall n :: n in m ==> 0 <= m[n] < 3
  {
    if |pop| < 3 {
      return map[];
    }
    var names, features := ExtractFeatures(pop);
    if |features| < 3 {
      return map[];
    }
    QualifyingNamesDistinct(pop);
    ActiveNamesAreQualifying(pop);
    m := AssignClusters(names, features, scaleAndCluster);
  }

  /** The first loop: the name and the feature vector of every learner with
      a quiz history, in table order. */
  method ExtractFeatures(pop: seq<Entry>) returns (names: seq<string>, features: seq<Feature>)
    ensures names == Names(Qualifying(pop))
    ensures features == Features(Qualifying(pop))
  {
    names, features := [], [];
    var i := 0;
    while i < |pop|
      invariant 0 <= i <= |pop|
      invariant names == Names(Qualifying(pop[..i]))
      invariant features == Features(Qualifying(pop[..i]))
    {
      var (name, history) := pop[i];
      QualifyingStep(pop, i);
      if history != [] {
        AppendEntry(Qualifying(pop[..i]), pop[i]);
        features := features + [Feature(MeanAccuracy(history), MeanTime(history))];
        names := names + [name];
      }
      i := i + 1;
    }
    assert pop[..i] == pop;
  }

  /** The second loop: each name paired with the cluster id of its position. */
  method AssignClusters(names: seq<string>, features: seq<Feature>,
                        scaleAndCluster: (seq<Feature>, nat) -> ClusterId)
    returns (m: map<string, int>)
    requires forall i, j :: 0 <= i < j < |names| ==> names[i] != names[j]
    ensures m.Keys == set k | 0 <= k < |names| :: names[k]
    ensures forall k :: 0 <= k < |names| ==> m[names[k]] == scaleAndCluster(features, k)
    ensures forall n :: n in m ==> 0 <= m[n] < 3
  {
    m := map[];
    var j := 0;
    while j < |names|
      invariant 0 <= j <= |names|
      invariant m.Keys == set k | 0 <= k < j :: names[k]
      invariant forall k :: 0 <= k < j ==> m[names[k]] == scaleAndCluster(features, k)
      invariant forall n :: n in m ==> 0 <= m[n] < 3
    {
      m := m[names[j] := scaleAndCluster(features, j)];
      j := j + 1;
    }
  }

  lemma QualifyingStep(pop: seq<Entry>, i: nat)
    requires i < |pop|
    ensures Qualifying(pop[..i + 1])
         == Qualifying(pop[..i]) + (if pop[i].1 != [] then [pop[i]] else [])
  {
    assert pop[..i + 1][..i] == pop[..i];
  }

  lemma AppendEntry(q: seq<Entry>, e: Entry)
    requires forall k :: 0 <= k < |q| ==> q[k].1 != []
    requires e.1 != []
    ensures Names(q + [e]) == Names(q) + [e.0]
    ensures Features(q + [e]) == Features(q) + [FeatureOf(e.1)]
  {
  }

  /** The qualifying learners keep the table's distinct names. */
  lemma {:induction false} QualifyingNamesDistinct(pop: seq<Entry>)
    requires DistinctNames(pop)
    ensures forall i, j :: 0 <= i < j < |Qualifying(pop)| ==>
      Qualifying(pop)[i].0 != Qualifying(pop)[j].0
  {
    if pop != [] {
      var init := pop[..|pop| - 1];
      assert DistinctNames(init);
      QualifyingNamesDistinct(init);
      var last := pop[|pop| - 1];
      QualifyingSubset(init);
      forall e | e in Qualifying(init) ensures e.0 != last.0 {
        var k :| 0 <= k < |init| && init[k] == e;
      }
    }
  }

  lemma {:induction false} QualifyingSubset(pop: seq<Entry>)
    ensures forall e :: e in Qualifying(pop) ==> e in pop
  {
    if pop != [] {
      QualifyingSubset(pop[..|pop| - 1]);
      assert forall e :: e in pop[..|pop| - 1] ==> e in pop;
    }
  }

  function NameSet(q: seq<Entry>): set<string>
  {
    set e | e in q :: e.0
  }

  /** The names of the qualifying learners are exactly the active names. */
  lemma ActiveNamesAreQualifying(pop: seq<Entry>)
    ensures (set k | 0 <= k < |Qualifying(pop)| :: Qualifying(pop)[k].0) == ActiveNames(pop)
  {
    var q := Qualifying(pop);
    QualifyingNameSet(pop);
    assert forall n :: n in NameSet(q) ==> exists k :: 0 <= k < |q| && q[k].0 == n;
  }

  lemma {:induction false} QualifyingNameSet(pop: seq<Entry>)
    ensures NameSet(Qualifying(pop)) == ActiveNames(pop)
  {
    if pop != [] {
      var init, last := pop[..|pop| - 1], pop[|pop| - 1];
      QualifyingNameSet(init);
      assert pop == init + [last];
      var extra := if last.1 != [] then [last] else [];
      assert NameSet(Qualifying(init) + extra) == NameSet(Qualifying(init)) + NameSet(extra);
      assert ActiveNames(pop) == ActiveNames(init) + ActiveNames([last]);
    }
  }

  /** The first guard is subsumed by the second: the floor is three learners
      with a quiz history. */
  lemma FloorIsActiveLearners(pop: seq<Entry>)
    ensures Clusterable(pop) <==> |Qualifying(pop)| >= 3
  {
  }
}
