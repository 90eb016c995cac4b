/** Choosing the questions for a quiz: an uploaded question bank overrides
    the built-in one, entry by entry, for a topic and difficulty. */
module Questions {
  import opened Records

  /** Questions grouped by topic, then by difficulty. */
  type Bank = map<string, map<Difficulty, seq<Question>>>

  /** The bank's questions for a topic and difficulty, or none when either
      key is missing. */
  function Lookup(bank: Bank, topic: string, d: Difficulty): (qs: seq<Question>)
    ensures topic in bank && d in bank[topic] ==> qs == bank[topic][d]
    ensures !(topic in bank && d in bank[topic]) ==> qs == []
  {
    if topic in bank && d in bank[topic] then bank[topic][d] else []
  }

  /** `custom` is the uploaded bank, absent until one is loaded; an absent
      or empty bank, and an empty entry in it, fall through to the built-in
      bank. */
  function QuizQuestions(custom: Option<Bank>, builtin: Bank, topic: string, d: Difficulty)
    : (qs: seq<Question>)
    ensures custom.Some? && Lookup(custom.value, topic, d) != [] ==>
              qs == Lookup(custom.value, topic, d)
    ensures (custom.None? || Lookup(custom.value, topic, d) == []) ==>
              qs == Lookup(builtin, topic, d)
  {
    if custom.Some? && custom.value != map[] then
      var chosen := Lookup(custom.value, topic, d);
      if chosen != [] then chosen else Lookup(builtin, topic, d)
    else
      Lookup(builtin, topic, d)
  }

  /** A quiz can start exactly when one of the two banks has questions for
      the pair, and whatever is returned comes from one of them. */
  lemma QuizAvailable(custom: Option<Bank>, builtin: Bank, topic: string, d: Difficulty)
    ensures var qs := QuizQuestions(custom, builtin, topic, d);
      && (qs == [] <==> (custom.None? || Lookup(custom.value, topic, d) == [])
                        && Lookup(builtin, topic, d) == [])
      && (qs != [] ==> (custom.Some? && topic in custom.value && d in custom.value[topic]
                          && qs == custom.value[topic][d])
                       || (topic in builtin && d in builtin[topic] && qs == builtin[topic][d]))
  {
  }

  /** Overriding one topic in the uploaded bank leaves every other topic's
      quizzes as they were. */
  lemma OverrideIsPerTopic(custom: Bank, builtin: Bank, topic: string, other: string,
                           entry: map<Difficulty, seq<Question>>, d: Difficulty)
    requires other != topic
    ensures QuizQuestions(Some(custom[other := entry]), builtin, topic, d)
         == QuizQuestions(Some(custom), builtin, topic, d)
  {
  }
}
