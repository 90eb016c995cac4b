/** Learning-activity recommendations: a fixed four-entry catalogue per tier,
    with the current topic written into some of the titles. */
module Recommendations {
  import Records

  type Tier = Records.Tier

  datatype Priority = High | Medium

  datatype Recommendation = Recommendation(
    kind: string,
    title: string,
    description: string,
    priority: Priority)

  /** `topic` occurs as a contiguous part of `s`. */
  predicate Mentions(s: string, topic: string)
  {
    exists i :: 0 <= i <= |s| - |topic| && OccursAt(s, topic, i)
  }

  predicate OccursAt(s: string, topic: string, i: int)
    requires 0 <= i <= |s| - |topic|
  {
    s[i..i + |topic|] == topic
  }

  lemma MentionsInside(before: string, topic: string, after: string)
    ensures Mentions(before + topic + after, topic)
    ensures Mentions(topic + after, topic)
    ensures Mentions(before + topic, topic)
  {
    var s := before + topic + after;
    assert OccursAt(s, topic, |before|);
    assert OccursAt(topic + after, topic, 0);
    assert OccursAt(before + topic, topic, |before|);
  }

  // The fixed kinds and descriptions, named so that the catalogues below
  // read as tables.

  const VideoTutorial: string := "📹 Video Tutorial"
  const GuidedPractice: string := "✏️ Guided Practice"
  const RevisionSummary: string := "📝 Revision Summary"
  const FocusSession: string := "🎯 Focus Session"
  const ChallengeProblem: string := "🏆 Challenge Problem"
  const ResearchProject: string := "🔬 Research Project"
  const PeerTeaching: string := "👥 Peer Teaching"
  const AdvancedTopics: string := "📚 Advanced Topics"
  const PracticeSet: string := "📝 Practice Set"
  const ConceptReview: string := "📹 Concept Review"
  const SkillBuilder: string := "🎯 Skill Builder"
  const QuickQuiz: string := "⚡ Quick Quiz"

  const VideoTutorialText: string := "Step-by-step visual explanation with examples"
  const GuidedPracticeText: string := "Practice with instant feedback and hints"
  const RevisionSummaryText: string := "Quick reference sheet with formulas and examples"
  const FocusSessionText: string := "Personalized help with difficult concepts"
  const ChallengeProblemText: string := "Olympiad-level questions to test your skills"
  const ResearchProjectText: string := "Apply concepts to solve real problems"
  const PeerTeachingText: string := "Reinforce your knowledge by teaching peers"
  const AdvancedTopicsText: string := "Explore university-level concepts"
  const PracticeSetText: string := "Variety of problems to strengthen skills"
  const ConceptReviewText: string := "Refresh your understanding"
  const SkillBuilderText: string := "Focus on areas needing work"
  const QuickQuizText: string := "Keep your skills sharp with daily practice"

  function StrugglingCatalogue(topic: string): seq<Recommendation>
  {
    [ Recommendation(VideoTutorial, "Visual Guide to " + topic + " Basics", VideoTutorialText, High),
      Recommendation(GuidedPractice, "Interactive Practice Problems", GuidedPracticeText, High),
      Recommendation(RevisionSummary, topic + " Key Concepts Review", RevisionSummaryText, Medium),
      Recommendation(FocusSession, "One-on-One Tutoring Recommended", FocusSessionText, High) ]
  }

  function AdvancedCatalogue(topic: string): seq<Recommendation>
  {
    [ Recommendation(ChallengeProblem, "Advanced " + topic + " Competition Problems",
        ChallengeProblemText, High),
      Recommendation(ResearchProject, "Real-World Application Project", ResearchProjectText, Medium),
      Recommendation(PeerTeaching, "Help Others Learn", PeerTeachingText, Medium),
      Recommendation(AdvancedTopics, "Next Level: Beyond " + topic, AdvancedTopicsText, High) ]
  }

  /** The catalogue for Average, New and any unrecognised tier. */
  function AverageCatalogue(topic: string): seq<Recommendation>
  {
    [ Recommendation(PracticeSet, topic + " Mixed Practice", PracticeSetText, High),
      Recommendation(ConceptReview, "Video Review of Key Topics", ConceptReviewText, Medium),
      Recommendation(SkillBuilder, "Targeted Improvement Exercises", SkillBuilderText, High),
      Recommendation(QuickQuiz, "Daily Challenge", QuickQuizText, Medium) ]
  }

  /** Exactly four entries, the first always high priority and naming the
      topic; Struggling also names it in the third title and Advanced in the
      fourth. */
  function Recommend(tier: Tier, topic: string): (r: seq<Recommendation>)
    ensures |r| == 4
    ensures r[0].priority == High && Mentions(r[0].title, topic)
    ensures tier == Records.Struggling ==> Mentions(r[2].title, topic)
    ensures tier == Records.Advanced ==> Mentions(r[3].title, topic)
  {
    if tier == Records.Struggling then
      MentionsInside("Visual Guide to ", topic, " Basics");
      MentionsInside("", topic, " Key Concepts Review");
      StrugglingCatalogue(topic)
    else if tier == Records.Advanced then
      MentionsInside("Advanced ", topic, " Competition Problems");
      MentionsInside("Next Level: Beyond ", topic, "");
      AdvancedCatalogue(topic)
    else
      MentionsInside("", topic, " Mixed Practice");
      AverageCatalogue(topic)
  }

  /** Every tier other than Struggling and Advanced, New Learner and any
      unrecognised label included, gets the Average catalogue. */
  lemma DefaultIsAverage(tier: Tier, topic: string)
    requires tier != Records.Struggling && tier != Records.Advanced
    ensures Recommend(tier, topic) == Recommend(Records.Average, topic)
  {
  }

  /** The catalogue is fixed: changing the topic changes only the titles
      that embed it, never the kinds, descriptions, priorities or order. */
  lemma OnlyTitlesFollowTopic(tier: Tier, t1: string, t2: string)
    ensures forall i :: 0 <= i < 4 ==>
      && Recommend(tier, t1)[i].kind == Recommend(tier, t2)[i].kind
      && Recommend(tier, t1)[i].description == Recommend(tier, t2)[i].description
      && Recommend(tier, t1)[i].priority == Recommend(tier, t2)[i].priority
    ensures Recommend(tier, t1)[1] == Recommend(tier, t2)[1]
    ensures tier != Records.Struggling ==> Recommend(tier, t1)[2] == Recommend(tier, t2)[2]
    ensures tier != Records.Advanced ==> Recommend(tier, t1)[3] == Recommend(tier, t2)[3]
  {
    if tier == Records.Struggling {
      assert Recommend(tier, t1) == StrugglingCatalogue(t1);
      assert Recommend(tier, t2) == StrugglingCatalogue(t2);
    } else if tier == Records.Advanced {
      assert Recommend(tier, t1) == AdvancedCatalogue(t1);
      assert Recommend(tier, t2) == AdvancedCatalogue(t2);
    } else {
      assert Recommend(tier, t1) == AverageCatalogue(t1);
      assert Recommend(tier, t2) == AverageCatalogue(t2);
    }
  }
}
