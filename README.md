# Learner modelling and adaptation engine

This project is a Dafny model of the decision logic in `Smart_Learning_System.py`. That logic:

- sorts a learner into a tier from their quiz history (New, Struggling, Average, Advanced);
- predicts the difficulty of the next quiz from the trailing three quizzes;
- derives the content-adaptation flags, including the revision override after a quiz below 50%;
- writes tier-specific feedback and a fixed four-entry recommendation list;
- chooses the questions of a quiz from an uploaded bank or the built-in one;
- prepares learners for cohort clustering;
- keeps a learner profile's stored classification in step with its history when a quiz is completed or a history is imported.

Accuracy and time are exact `real`s, so every threshold comparison is exact. Hints and retries are `nat`.

The modules follow the engine's parts:

- `Records`: quiz records, tiers, difficulties and questions, with the means and totals over a history.
- `Classifier`: the tier rule.
- `Predictor`: the window and the difficulty rule.
- `Adapter`: the adaptation configuration as a function.
- `Feedback`: the answer feedback.
- `Recommendations`: the tier catalogues.
- `Questions`: the question-bank lookup.
- `Cohorts`: the floor guard and the feature loop of the clustering.
- `Profile`: the learner profile as a class whose fields are updated in place. Its methods are proved against the functions above.
- `Scenarios`: the four built-in sample learners, plus two end-to-end cases.

A profile's stored classification is label text, and a loaded file can store any text. `Records.ParseLabel` reads the four tier names as their tiers and keeps any other text as `Unrecognised(name)`. So equal label text is always the same tier, as it is when the application compares strings. The invariant `Valid()` says that the stored label equals `Classify(history)`. Both history-changing steps re-establish it.

## Model

| member | source | states |
|---|---|---|
| Records.ParseLabel | Smart_Learning_System.py:161 | the parsed tier prints back as the stored text, and an unrecognised label never spells one of the four tier names |
| Records.LabelRoundTrip | Smart_Learning_System.py:622-635 | reading back a tier's label text gives the same tier |
| Classifier.Classify | Smart_Learning_System.py:618-635 | the result is never an unrecognised label, and it is New Learner exactly when the history is empty |
| Classifier.ClassifyCases | Smart_Learning_System.py:622-635 | New iff empty; otherwise Struggling iff mean accuracy < 60 and (mean time > 70 or total hints > 5); else Advanced iff mean accuracy >= 85, mean time < 35 and no hints; else Average |
| Classifier.TiersExclusive | Smart_Learning_System.py:630-633 | no non-empty history meets both the Struggling and the Advanced condition, so checking Struggling first decides nothing |
| Classifier.ClassifyIgnoresRetries | Smart_Learning_System.py:625-635 | two histories that differ only in their retry counts get the same tier; the retry total is never read |
| Classifier.EveryQuizWeakIsStruggling | Smart_Learning_System.py:630-631 | a non-empty history in which every quiz scored below 60 and whose hints total more than 5 is Struggling, whatever its times |
| Classifier.EveryQuizStrongIsAdvanced | Smart_Learning_System.py:632-633 | a non-empty history in which every quiz has accuracy >= 85, time < 35 and no hints is Advanced |
| Classifier.AnyHintRulesOutAdvanced | Smart_Learning_System.py:627-633 | one quiz with a hint anywhere in the history rules out the Advanced tier |
| Predictor.Predict | Smart_Learning_System.py:667-683 | a prediction above easy needs a non-empty history whose window averages at least 70 in under 60 s; hard needs at least 90 in under 35 s |
| Predictor.Window | Smart_Learning_System.py:674 | the window is the history's suffix of length min(3, history length) |
| Predictor.PredictCases | Smart_Learning_System.py:671-683 | easy on an empty history; otherwise hard iff the window's mean accuracy >= 90 and mean time < 35; else medium iff mean accuracy >= 70 and mean time < 60; else easy |
| Predictor.PredictIgnoresOlder | Smart_Learning_System.py:674-676 | records in front of the trailing three never change the prediction |
| Predictor.PredictDependsOnTrailingThree | Smart_Learning_System.py:674-683 | two histories with the same trailing window get the same prediction |
| Predictor.StrongWindowIsHard | Smart_Learning_System.py:678-679 | a window in which every quiz has accuracy >= 90 and time < 35 predicts hard |
| Predictor.WeakWindowIsEasy | Smart_Learning_System.py:678-683 | a window in which every quiz has accuracy below 70 predicts easy |
| Adapter.RevisionOverride | Smart_Learning_System.py:692-705 | revision is needed iff the history is non-empty and its last accuracy is below 50; then the difficulty is easy, and otherwise it equals the prediction |
| Adapter.Adaptation | Smart_Learning_System.py:687-706 | the configuration that Profile.LearnerProfile.Adapt is proved to build; its difficulty never ranks above the prediction, a revision always comes with easy, and hints are offered exactly outside challenge mode |
| Adapter.FormatFlags | Smart_Learning_System.py:694-696 | the visual format iff the stored tier is Struggling; challenge mode iff it is Advanced |
| Adapter.RevisionAfterQuiz | Smart_Learning_System.py:700-704 | after any history, a new quiz below 50 triggers revision and easy; one at 50 or above clears the revision flag and keeps the predicted difficulty |
| Adapter.OverrideNeverMasksHard | Smart_Learning_System.py:674-704 | with accuracies in 0..100, whenever the revision override fires, the prediction was not hard |
| Adapter.OverrideLowersMedium | Smart_Learning_System.py:680-704 | two perfect quizzes followed by a 49 predict medium, but the adaptation is easy with revision |
| Feedback.PraisePool | Smart_Learning_System.py:713-730 | every tier's praise pool has exactly three messages; Advanced and Average have their own pools, and every other tier shares the encouraging one |
| Feedback.GiveFeedback | Smart_Learning_System.py:708-738 | success iff the answer equals the correct one; on success the message is in the tier's pool; on error the message ends with `HintOf` the question, which is its hint or the default hint when there is none, and it opens with the encouraging wording iff the tier is Struggling |
| Feedback.EveryPraiseReachable | Smart_Learning_System.py:731 | every message of a tier's pool is given for some pick |
| Feedback.EncouragingPoolShared | Smart_Learning_System.py:725-730 | New Learner, Struggling and any unrecognised label get the same praise pool |
| Recommendations.Recommend | Smart_Learning_System.py:744-828 | exactly four entries, and the first is high priority and names the topic; Struggling also names it in the third title, and Advanced in the fourth |
| Recommendations.DefaultIsAverage | Smart_Learning_System.py:800-826 | every tier other than Struggling and Advanced gets the Average catalogue |
| Recommendations.OnlyTitlesFollowTopic | Smart_Learning_System.py:746-826 | changing the topic leaves kinds, descriptions, priorities and order alone, and changes no title that does not embed the topic |
| Questions.Lookup | Smart_Learning_System.py:380 | the bank's entry when both the topic and the difficulty are present, and no questions otherwise |
| Questions.QuizQuestions | Smart_Learning_System.py:376-382 | a non-empty uploaded entry wins; otherwise the built-in entry is used |
| Questions.QuizAvailable | Smart_Learning_System.py:379-382 | the quiz is empty exactly when neither bank has questions for the pair; a non-empty quiz is one bank's entry |
| Questions.OverrideIsPerTopic | Smart_Learning_System.py:379-382 | replacing one topic in the uploaded bank leaves every other topic's quiz unchanged |
| Cohorts.Qualifying | Smart_Learning_System.py:645-650 | the learners kept for clustering are at most the table and all have a quiz history |
| Cohorts.ClusterLearners | Smart_Learning_System.py:637-665 | empty unless there are at least 3 learners and at least 3 with a history; otherwise the keys are exactly the learners with a history, each with the cluster id of its feature vector, and every id is in 0..2 |
| Cohorts.ExtractFeatures | Smart_Learning_System.py:645-650 | the loop yields the names and the (mean accuracy, mean time) features of the learners with a history, in table order |
| Cohorts.AssignClusters | Smart_Learning_System.py:659-661 | the loop maps each name to the cluster id of its position, with ids in 0..2 |
| Cohorts.QualifyingNamesDistinct | Smart_Learning_System.py:645-650 | distinct learner names stay distinct among the learners kept for clustering |
| Cohorts.ActiveNamesAreQualifying | Smart_Learning_System.py:645-650 | the names kept for clustering are exactly the names of the learners with a history |
| Cohorts.FloorIsActiveLearners | Smart_Learning_System.py:639-652 | the first guard (fewer than 3 learners) is implied by the second (fewer than 3 with a history) |
| Profile.CorrectCount | Smart_Learning_System.py:1415-1416 | the count is at most the number of answers; it equals them iff every answer is correct, and it is zero iff none is |
| Profile.QuizAccuracy | Smart_Learning_System.py:1417 | the accuracy lies in 0..100; it is 100 iff every question is answered correctly, and 0 iff no answer is correct |
| Profile.LearnerProfile.constructor | Smart_Learning_System.py:156-164 | a profile holds the given history and the stored label text, read by ParseLabel and not reclassified |
| Profile.LearnerProfile.AppendAndReclassify | Smart_Learning_System.py:1126-1130 | the history is the old one followed by the records, and the stored label is the classifier's verdict on it |
| Profile.LearnerProfile.CompleteQuiz | Smart_Learning_System.py:1415-1439 | the attempt is scored by QuizAccuracy, timed by QuizAvgTime (the mean of the times, or 0 when none was recorded) and appended last with no retries; the earlier records are unchanged, and the label is reclassified |
| Profile.LearnerProfile.Adapt | Smart_Learning_System.py:687-706 | the configuration is the adaptation function of the stored label and the history, with revision iff the last accuracy is below 50, and the profile is not modified |
| Profile.ImportQuizHistory | Smart_Learning_System.py:1124-1130 | every learner named in the import and present in the table gets the records appended and is reclassified; every other learner is unchanged |
| Profile.BatchForUnseen | Smart_Learning_System.py:1124 | with distinct names in the import, a learner's batch is met once |
| Scenarios.CarolIsAdvanced | Smart_Learning_System.py:347-354 | Carol is Advanced and predicted hard; her configuration is hard, text, challenge mode, no hints and no revision |
| Scenarios.AliceIsStruggling | Smart_Learning_System.py:321-328 | Alice is Struggling and predicted easy; her configuration is easy, visual, no challenge, hints and revision |
| Scenarios.BobAndDavidAreAverage | Smart_Learning_System.py:334-367 | Bob and David are Average; Bob is predicted medium and David easy |
| Scenarios.OneWeakQuiz | Smart_Learning_System.py:618-706 | one quiz at 45% in 85 s with 8 hints is Struggling, predicted easy and sent to revision |

## Left out

- The Streamlit pages, the session state, the Plotly charts and the chat responder with its study tips. They are presentation, not decisions.
- The CSV and JSON loaders and exporters. A loaded profile enters the model through `LearnerProfile`'s constructor, with its history and its stored label text.
- Standardisation and k-means. They are one opaque parameter, `scaleAndCluster`, that gives each feature vector of a population an id in 0..2. So the model says nothing about which learners share a cluster, or whether ids are stable across calls.
- `random.choice` in the feedback. It is the `pick` index parameter, which must lie inside the three-message pool.
- Clock time and the current date. A quiz's per-question times and its date are inputs to `CompleteQuiz`.
- The literal built-in question bank. Banks are map parameters, and difficulties are an enumeration rather than the strings "easy", "medium" and "hard".
- The profile fields the engine never reads: id, engagement score, learning pace, strengths and weaknesses.
- The banner shown after a completed quiz. It only displays the accuracy.
- Numbers are exact reals. The model does not capture NumPy's floating-point means, which can round a mean that sits exactly on a threshold.
- Profile.ImportQuizHistory: it requires the import's learner names to be distinct, as the grouped dictionary the loader returns guarantees, and distinct profile objects per name.

## Notes

The page reruns its whole script on every interaction, and each tab's body runs on every rerun (Smart_Learning_System.py:1232, 1305). While a finished quiz stays in session state, the completion block (Smart_Learning_System.py:1412-1439) therefore appends its record again on each rerun. The click on "Take Another Quiz" (Smart_Learning_System.py:1460) causes one such rerun itself, and the append at line 1438 comes before the button is checked. So every finished quiz the learner moves on from is recorded at least twice; a session that ends on the completion screen records it once. The same mechanism has a second effect. If another learner is chosen in the sidebar (Smart_Learning_System.py:1179-1186) while the completion screen is up, the rerun reads the newly selected learner at line 1309, and lines 1438-1439 append the finished quiz to that learner's history and reclassify them. `Profile.LearnerProfile.CompleteQuiz` models the evidently intended single append per completed quiz; the repeated appends belong to the session-state plumbing, which is not modelled.

One consequence of the thresholds is also worth knowing. The revision override looks only at the last quiz, and the hard prediction needs a trailing mean of at least 90. So when accuracies stay within 0..100, a last quiz below 50 can never occur with a hard prediction: the override can lower medium to easy (`Adapter.OverrideLowersMedium`), but it never masks hard (`Adapter.OverrideNeverMasksHard`).
