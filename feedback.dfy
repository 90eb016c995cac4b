/** Per-answer feedback: a celebratory message from a tier's pool when the
    answer is right, a hint message when it is wrong. */
module Feedback {
  import opened Records

  datatype Outcome = Success | Error

  datatype FeedbackResult = FeedbackResult(message: string, outcome: Outcome)

  // The emoji in two of the texts below stand as separate literals so that
  // the verifier can still read the ASCII letters around them.

  const AdvancedPraise: seq<string> := [
    "Excellent! Ready for more challenges?",
    "Perfect! Your problem-solving skills are sharp.",
    "Outstanding! Keep pushing your limits."
  ]

  const AveragePraise: seq<string> := [
    "Great job! You're making solid progress.",
    "Well done! Your understanding is improving.",
    "Correct! Keep up the consistent work."
  ]

  /** The pool for every tier other than Advanced and Average. */
  const EncouragingPraise: seq<string> := [
    "Fantastic! See, you can do it! " + "🌟",
    "Wonderful! This is real progress!",
    "Yes! You're getting stronger at this!"
  ]

  const DefaultHint: string := "Try to break down the problem step by step."

  const EncouragingHintPrefix: string :=
    "Not quite right, but don't give up! " + "💪" + " Here's a hint: "

  const PlainHintPrefix: string := "Not correct. Think about: "

  function PraisePool(tier: Tier): (pool: seq<string>)
    ensures |pool| == 3
  {
    if tier == Advanced then AdvancedPraise
    else if tier == Average then AveragePraise
    else EncouragingPraise
  }

  /** The question's hint, or the default text when it has none. */
  function HintOf(q: Question): string
  {
    match q.hint
    case Some(h) => h
    case None => DefaultHint
  }

  /** `pick` stands for the random choice among the three pool messages. */
  function GiveFeedback(q: Question, userAnswer: int, correctAnswer: int, tier: Tier, pick: nat)
    : (r: FeedbackResult)
    requires pick < 3
    ensures r.outcome == Success <==> userAnswer == correctAnswer
    ensures r.outcome == Success ==> r.message in PraisePool(tier)
    ensures r.outcome == Error ==>
      && |HintOf(q)| <= |r.message|
      && r.message[|r.message| - |HintOf(q)|..] == HintOf(q)
      && (tier == Struggling <==> EncouragingHintPrefix <= r.message)
  {
    if userAnswer == correctAnswer then
      FeedbackResult(PraisePool(tier)[pick], Success)
    else
      var hint := HintOf(q);
      var msg := if tier == Struggling then EncouragingHintPrefix + hint else PlainHintPrefix + hint;
      assert msg[|msg| - |hint|..] == hint;
      assert tier != Struggling ==> msg[4] == 'c' != EncouragingHintPrefix[4];
      FeedbackResult(msg, Error)
  }

  /** Every message of the tier's pool is the one given for some pick, and
      the praise never depends on the question. */
  lemma EveryPraiseReachable(q: Question, a: int, tier: Tier, m: string)
    requires m in PraisePool(tier)
    ensures exists pick: nat :: pick < 3 && GiveFeedback(q, a, a, tier, pick).message == m
  {
    var pool := PraisePool(tier);
    var pick :| 0 <= pick < 3 && pool[pick] == m;
    assert GiveFeedback(q, a, a, tier, pick).message == m;
  }

  /** New and unrecognised tiers share the Struggling tier's praise. */
  lemma EncouragingPoolShared(tier: Tier)
    requires tier != Advanced && tier != Average
    ensures PraisePool(tier) == PraisePool(Struggling)
  {
  }
}
