# Mental-Health-App: assessment scoring and care routing, modelled in Dafny

This project models the clinical decision core of the Mental-Health-App web application:

- the PHQ-9 and GAD-7 questionnaire scorers and the suicide flag;
- the fourteen-field composite symptom score;
- severity classification and care routing, each with its suicidal-ideation override;
- symptom labels, recommendations and assembly of the assessment result;
- the offline fallbacks used when the language model is unreachable: the fallback
  analysis and the canned chat replies;
- the pages that feed and consume that engine:
  - the multi-step symptom evaluation form, including its dotted-path answer storage and
    its routing on submit;
  - the quick PHQ-9/GAD-7 form;
  - the suicide risk form;
  - the client store with its ten-entry history;
  - the results page, the admin dashboard and the weekly check-in page.

One module per source file:

| module | file |
|---|---|
| `Types` | `lib/types.ts` |
| `Scoring` | `lib/scoring.ts` |
| `Fallback` | `lib/ollama.ts` |
| `Js` | generic JavaScript object machinery used by `components/SymptomEvaluation.tsx` |
| `SymptomForm` | `components/SymptomEvaluation.tsx` |
| `QuestionForm` | `components/QuestionForm.tsx` |
| `SuicideAssessment` | `app/assess/suicide/page.tsx` |
| `Store` | `lib/store.ts` |
| `Results` | `app/results/page.tsx` |
| `Admin` | `app/admin/page.tsx` |
| `Progress` | `app/progress/page.tsx` |

Pure code becomes functions and lemmas. Code that accumulates in a loop becomes methods
proved against those functions:

- `CalculateSymptomScore`, `GenerateSymptoms` and `GenerateRecommendations`;
- `FallbackAnalysis`;
- `GetAnswer`;
- `SeverityBreakdown`.

State that the source updates in place becomes a class with `modifies` clauses:

- the store;
- the symptom, quick and suicide forms;
- the progress page.

A JavaScript value of the symptom form is a `JsValue` tree. `SetPath` and `Lookup` model
the dotted-path write and read of the form, including what happens at a falsy or non-object
intermediate.

Where the code and the written design disagree, the model follows the code:

- An all-zero evaluation is listed with the symptom "Poor coping skills". The coping check
  is `effectiveness <= 5`. See `Scoring.ZeroEvaluationSymptoms`.
- The quick PHQ-9/GAD-7 form routes moderate results to AI support. The main engine routes
  them to human therapy. See `QuestionForm.QuickRouteDiffersOnlyOnModerate`.
- The suicide form counts "Do you have a support system?" as a risk factor when answered yes.
- The offline fallback analysis uses its own thresholds (10, 20, 30 on a ten-field sum).
  These are proved both harsher and milder than the main engine on particular inputs.

## Model

| member | source | states |
|---|---|---|
| Scoring.AnswerTotal | Mental-Health-App/lib/scoring.ts:4 | the total of items that are absent or 0..3 lies between 0 and three times the item count |
| Scoring.AnswerTotalAppend | Mental-Health-App/lib/scoring.ts:4 | the answer total of a concatenation is the sum of the parts' totals |
| Scoring.AbsentItemCountsZero | Mental-Health-App/lib/scoring.ts:4 | an absent (undefined or NaN) item anywhere adds nothing to the total |
| Scoring.PhqSeverity | Mental-Health-App/lib/scoring.ts:5 | each PHQ-9 band holds exactly its interval: up to 4, 5-9, 10-14, 15-19, 20 and above |
| Scoring.GadSeverity | Mental-Health-App/lib/scoring.ts:11 | GAD-7 never gives moderately severe, agrees with PHQ-9 up to 14 and is severe exactly from 15 |
| Scoring.QuestionnaireSeverityMonotone | Mental-Health-App/lib/scoring.ts:5-11 | a higher questionnaire total never gives a lower band, for both scales |
| Scoring.ScorePHQ9 | Mental-Health-App/lib/scoring.ts:3-7 | the result carries the answer total and its PHQ-9 band; nine valid items total 0..27 |
| Scoring.ScoreGAD7 | Mental-Health-App/lib/scoring.ts:9-13 | the result carries the answer total and its GAD-7 band; seven valid items total 0..21 |
| Scoring.AllMaxPhq9IsSevere | Mental-Health-App/lib/scoring.ts:3-7 | nine answers of 3 score 27, which is severe |
| Scoring.ConstantAnswersTotal | Mental-Health-App/lib/scoring.ts:4 | n answers equal to v total n times v |
| Scoring.SuicideFlag | Mental-Health-App/lib/scoring.ts:15-19 | immediate exactly when there is a plan or intent; elevated exactly for thoughts alone; none exactly without ideation |
| Scoring.SumBounds | Mental-Health-App/lib/scoring.ts:21-51 | a sum of values each in 0..m lies in 0..m times the count |
| Scoring.CompositeFields | Mental-Health-App/lib/scoring.ts:25-48 | the composite score adds exactly fourteen fields |
| Scoring.CompositeScore | Mental-Health-App/lib/scoring.ts:21-51 | on 0-10 answers the composite score lies in 0..140 |
| Scoring.CalculateSymptomScore | Mental-Health-App/lib/scoring.ts:21-51 | the running total equals the sum of the fourteen fields, so it lies in 0..140 on 0-10 answers |
| Scoring.DetermineSeverity | Mental-Health-App/lib/scoring.ts:53-65 | any ideation flag forces severe; otherwise each level holds exactly its score interval, with cutoffs 100, 70, 50, 30 |
| Scoring.SeverityMonotone | Mental-Health-App/lib/scoring.ts:53-65 | a higher composite score never gives a lower severity |
| Scoring.DetermineRouting | Mental-Health-App/lib/scoring.ts:67-86 | ideation forces human therapy; otherwise moderate and above go to human therapy, mild to AI support, minimal to stable |
| Scoring.RoutingFollowsSeverity | Mental-Health-App/lib/scoring.ts:67-86 | a severity at least as high is never routed to a lighter pathway |
| Scoring.SymptomChecks | Mental-Health-App/lib/scoring.ts:92-115 | there are exactly fourteen symptom checks |
| Scoring.FiredLabels | Mental-Health-App/lib/scoring.ts:88-118 | no more labels than checks are listed |
| Scoring.FiredLabelsStep | Mental-Health-App/lib/scoring.ts:88-118 | trying one more check appends its label exactly when it fires |
| Scoring.FiredLabelsAppend | Mental-Health-App/lib/scoring.ts:88-118 | checking two lists in turn lists both lists' labels in order |
| Scoring.FiredLabelsMembership | Mental-Health-App/lib/scoring.ts:88-118 | a label is listed exactly when some check carrying it fires |
| Scoring.UniqueLabel | Mental-Health-App/lib/scoring.ts:88-118 | a label carried by one check only is listed exactly when that check fires |
| Scoring.NothingFiredNoLabels | Mental-Health-App/lib/scoring.ts:88-118 | when no check fires, no label is listed |
| Scoring.Symptoms | Mental-Health-App/lib/scoring.ts:88-118 | at most fourteen labels are listed |
| Scoring.GenerateSymptoms | Mental-Health-App/lib/scoring.ts:88-118 | the pushed labels are those of the checks that fire, in check order |
| Scoring.PoorCopingCondition | Mental-Health-App/lib/scoring.ts:115 | "Poor coping skills" is listed exactly when coping effectiveness is 5 or less |
| Scoring.SleepAndEnergyConditions | Mental-Health-App/lib/scoring.ts:92-100 | the sleep, insomnia and low-energy labels are listed exactly when their own field is 5 or more |
| Scoring.SocialWithdrawalCondition | Mental-Health-App/lib/scoring.ts:106-110 | "Social withdrawal" is listed exactly when social isolation or behavioural withdrawal is 5 or more |
| Scoring.ZeroEvaluationSymptoms | Mental-Health-App/lib/scoring.ts:88-118 | the all-zero evaluation is listed with "Poor coping skills" only |
| Scoring.SocialWithdrawalListedTwice | Mental-Health-App/lib/scoring.ts:106-110 | both withdrawal checks firing lists "Social withdrawal" twice |
| Scoring.TierRecommendations | Mental-Health-App/lib/scoring.ts:129-150 | the severity block has two items for minimal and three otherwise |
| Scoring.FollowUpChecks | Mental-Health-App/lib/scoring.ts:153-161 | there are exactly three follow-up checks |
| Scoring.FollowUpRecommendations | Mental-Health-App/lib/scoring.ts:153-161 | at most three follow-ups are given |
| Scoring.DistinctNamesDistinctLabels | Mental-Health-App/lib/scoring.ts:153-161 | checks with pairwise distinct labels list no label twice |
| Scoring.FollowUpsFollowSymptoms | Mental-Health-App/lib/scoring.ts:153-161 | each follow-up is given exactly when its symptom is listed, and never twice |
| Scoring.Recommendations | Mental-Health-App/lib/scoring.ts:120-164 | the list is the three universal items, the tier block and the follow-ups |
| Scoring.RecommendationsLayout | Mental-Health-App/lib/scoring.ts:120-164 | the list holds 5 to 9 items: universal items first, then exactly the tier block, then the follow-ups |
| Scoring.GenerateRecommendations | Mental-Health-App/lib/scoring.ts:120-164 | the pushed list equals the specified recommendation list |
| Scoring.SubScores | Mental-Health-App/lib/scoring.ts:180-188 | the questionnaire scores pass through, there is no suicide risk, and the five domain scores add up to the composite score minus behaviour and self-image |
| Scoring.SumPrefixStep | Mental-Health-App/lib/scoring.ts:21-51 | extending a prefix by one field adds that field |
| Scoring.SumFourteen | Mental-Health-App/lib/scoring.ts:21-51 | the sum of fourteen fields is their written-out addition |
| Scoring.CompositeScoreExpanded | Mental-Health-App/lib/scoring.ts:21-51 | the composite score is the field-by-field addition of the source |
| Scoring.CreateAssessmentResult | Mental-Health-App/lib/scoring.ts:166-194 | the result carries the given id and instant, the classified severity and routing, with ideation giving severe and human therapy, plus the listed symptoms, the recommendations for that severity and the sub-scores |
| Scoring.ZeroEvaluationClassification | Mental-Health-App/lib/scoring.ts:53-86 | the all-zero evaluation is minimal and stable; adding only the plan flag makes it severe and human therapy |
| Fallback.FallbackTotal | Mental-Health-App/lib/ollama.ts:486-491 | the fallback total is the composite score minus energy motivation, social relationships and both behaviour fields, so it lies in 0..100 on 0-10 answers |
| Fallback.FallbackSeverity | Mental-Health-App/lib/ollama.ts:493-513 | ideation forces severe; otherwise the cutoffs 30, 20, 10; it never gives moderately severe |
| Fallback.FallbackAnalysis | Mental-Health-App/lib/ollama.ts:480-521 | the severity is the fallback classification, the route is the main routing of that severity, and the symptom and recommendation lists are the fixed ones |
| Fallback.ZeroEvaluationFallback | Mental-Health-App/lib/ollama.ts:486-505 | the rule-based analysis of the all-zero evaluation totals 0, so it is minimal and stable |
| Fallback.MainSevereImpliesFallbackSevere | Mental-Health-App/lib/ollama.ts:486-513 | whatever the main engine calls severe, the fallback calls severe too |
| Fallback.FallbackMinimalImpliesMainAtMostMild | Mental-Health-App/lib/ollama.ts:486-513 | when the fallback says minimal, the main engine says at most mild |
| Fallback.FallbackHarsherThanMain | Mental-Health-App/lib/ollama.ts:496-505 | some evaluation is minimal for the main engine but severe for the fallback |
| Fallback.FallbackMilderThanMain | Mental-Health-App/lib/ollama.ts:496-505 | some evaluation is graded lower by the fallback than by the main engine |
| Fallback.ContainsTransitive | Mental-Health-App/lib/ollama.ts:85-289 | `includes` is transitive: a string containing a that contains b contains b |
| Fallback.EmptyContainsNothing | Mental-Health-App/lib/ollama.ts:82 | the empty user message contains no keyword |
| Fallback.LowerAscii | Mental-Health-App/lib/ollama.ts:82 | lower-casing keeps the length, leaves no capital letter and changes exactly the capitals |
| Fallback.LowerAsciiIdempotent | Mental-Health-App/lib/ollama.ts:82 | lower-casing twice is lower-casing once |
| Fallback.LineEnd | Mental-Health-App/lib/ollama.ts:81 | the lazy capture stops at the first line terminator or the end |
| Fallback.FirstMatch | Mental-Health-App/lib/ollama.ts:81 | the match found is the leftmost "User: " followed by a character, and none means no position matches |
| Fallback.UserMessage | Mental-Health-App/lib/ollama.ts:81-82 | the message is empty exactly when the pattern does not match, and holds no line terminator |
| Fallback.UserLineExtracted | Mental-Health-App/lib/ollama.ts:81-82 | a prompt starting with "User: " and a line yields that line in lower case |
| Fallback.TopicReply | Mental-Health-App/lib/ollama.ts:88-330 | each canned reply is chosen exactly when its topic matches and no earlier topic does; the random reply is the rolled one exactly when no topic matches |
| Fallback.PanicAttackKeywordRedundant | Mental-Health-App/lib/ollama.ts:231 | the "panic attack" keyword adds nothing to "panic" |
| Fallback.LongTherapyMarkerRedundant | Mental-Health-App/lib/ollama.ts:85 | the long therapeutic marker adds nothing to "therapeutic response" |
| Fallback.FallbackResponse | Mental-Health-App/lib/ollama.ts:79-345 | a therapeutic prompt gets the topic reply for its user line; otherwise the analysis marker gets the fixed analysis; otherwise the technical-difficulty reply |
| Fallback.OfflineAnalysisRoutedLikeMainEngine | Mental-Health-App/lib/ollama.ts:334-341 | the fixed offline analysis is mild and routed to AI support, as the main routing routes mild |
| Fallback.NoUserLineGetsDefaultReply | Mental-Health-App/lib/ollama.ts:81-330 | a therapeutic prompt without a user line gets the rolled supportive reply |
| Fallback.SelfCareOutranksAll | Mental-Health-App/lib/ollama.ts:88-152 | a self-care message always gets a self-care reply, whatever else it mentions |
| QuestionForm.AnsweredCount | Mental-Health-App/components/QuestionForm.tsx:107 | the answered count never exceeds the question count |
| QuestionForm.AllAnsweredIffCountFull | Mental-Health-App/components/QuestionForm.tsx:156 | every question is answered exactly when the count is full, which is when submit is enabled |
| QuestionForm.QuickPhqSeverity | Mental-Health-App/components/QuestionForm.tsx:39 | the form's PHQ-9 banding is the scorer's |
| QuestionForm.QuickGadSeverity | Mental-Health-App/components/QuestionForm.tsx:41 | the form's GAD-7 banding is the scorer's |
| QuestionForm.QuickRoute | Mental-Health-App/components/QuestionForm.tsx:44-49 | human therapy exactly from moderately severe, AI support exactly for mild and moderate, stable exactly for minimal |
| QuestionForm.QuickRouteDiffersOnlyOnModerate | Mental-Health-App/components/QuestionForm.tsx:44-49 | the quick route departs from the main routing exactly for moderate, which it sends to AI support |
| QuestionForm.QuickTotalMatchesScorer | Mental-Health-App/components/QuestionForm.tsx:34 | the form's total is the scorer's total of the same answers |
| QuestionForm.BasicEvaluationScores | Mental-Health-App/components/QuestionForm.tsx:52-66 | the placeholder evaluation scores 4, 4, 6, 6 and 2 on the sub-scores |
| QuestionForm.ScoreBasicEvaluation | Mental-Health-App/components/QuestionForm.tsx:66 | the placeholder result carries the id, the instant and the placeholder sub-scores |
| QuestionForm.QuestionFormState.constructor | Mental-Health-App/components/QuestionForm.tsx:19 | every question starts unanswered |
| QuestionForm.QuestionFormState.Select | Mental-Health-App/components/QuestionForm.tsx:132 | the chosen option replaces that question's answer only |
| QuestionForm.QuestionFormState.Clear | Mental-Health-App/components/QuestionForm.tsx:143 | clearing marks that question unanswered only |
| QuestionForm.QuestionFormState.Submit | Mental-Health-App/components/QuestionForm.tsx:24-89 | only PHQ-9 and GAD-7 produce an assessment, with the form's band and route and the fixed symptom and recommendation lists; the next page or results follows |
| QuestionForm.QuickTotalBounds | Mental-Health-App/components/QuestionForm.tsx:34 | answered items total between 0 and three times the count |
| SuicideAssessment.RiskCount | Mental-Health-App/app/assess/suicide/page.tsx:36 | the risk count never exceeds the number of questions |
| SuicideAssessment.RiskCountAppend | Mental-Health-App/app/assess/suicide/page.tsx:36 | the count of a concatenation is the sum of the counts |
| SuicideAssessment.FlipToYesAddsOne | Mental-Health-App/app/assess/suicide/page.tsx:26-36 | switching one answer from no to yes raises the count by one |
| SuicideAssessment.RiskLevelOf | Mental-Health-App/app/assess/suicide/page.tsx:37-49 | critical exactly from 6, high for 4-5, moderate for 2-3, low below 2 |
| SuicideAssessment.RiskLevelMonotone | Mental-Health-App/app/assess/suicide/page.tsx:37-49 | more risk factors never give a lower level |
| SuicideAssessment.SeverityOf | Mental-Health-App/app/assess/suicide/page.tsx:56 | each risk level maps one step up the severity scale |
| SuicideAssessment.RecommendationsOf | Mental-Health-App/app/assess/suicide/page.tsx:58-64 | every level gives three recommendations |
| SuicideAssessment.RemoveMeansOnlyAtHighOrCritical | Mental-Health-App/app/assess/suicide/page.tsx:58-64 | removing access to means is advised exactly at high and critical risk |
| SuicideAssessment.StoredRoute | Mental-Health-App/app/assess/suicide/page.tsx:65 | the stored route is never stable, and AI support exactly for the AI-support page route |
| SuicideAssessment.SuicideForm.constructor | Mental-Health-App/app/assess/suicide/page.tsx:21 | every answer starts as no, with a count of 0 |
| SuicideAssessment.SuicideForm.HandleAnswer | Mental-Health-App/app/assess/suicide/page.tsx:26-28 | the answer at the index is replaced and no other |
| SuicideAssessment.SuicideForm.HandleSubmit | Mental-Health-App/app/assess/suicide/page.tsx:30-81 | the assessment carries the count, the level's severity and recommendations and the stored route; its symptoms are "Suicidal ideation" and "Risk factors present" when any factor is counted and none otherwise; critical risk goes to the emergency page, otherwise results |
| SuicideAssessment.NoYesCountsZero | Mental-Health-App/app/assess/suicide/page.tsx:36 | all-no answers count 0 |
| SuicideAssessment.StoredRouteMatchesMainRouting | Mental-Health-App/app/assess/suicide/page.tsx:37-65 | the form's stored route is the main routing of its severity |
| SuicideAssessment.PlanAloneIsLowRisk | Mental-Health-App/app/assess/suicide/page.tsx:36-65 | a yes to the plan question alone is low risk, mild and AI support, while the main engine makes a plan severe and human therapy |
| SuicideAssessment.SupportSystemCountsAsRisk | Mental-Health-App/app/assess/suicide/page.tsx:16-36 | answering yes to having a support system raises the risk count |
| Js.DigitChar | Mental-Health-App/components/SymptomEvaluation.tsx:118 | the digit character has the given value |
| Js.NatToString | Mental-Health-App/components/SymptomEvaluation.tsx:118 | a number's decimal text is non-empty digits |
| Js.DigitsRoundTrip | Mental-Health-App/components/SymptomEvaluation.tsx:118 | reading back a number's decimal text gives the number |
| Js.Coerce | Mental-Health-App/components/SymptomEvaluation.tsx:113-119 | "true" and "false" become the booleans, a digit string its number, a list stays the same list, and any other text stays that text; the result is never null or an object, and is falsy exactly for "false" and zero |
| Js.ScaleAnswerRoundTrip | Mental-Health-App/components/SymptomEvaluation.tsx:113-119 | a scale answer's text is stored as its number |
| Js.EmptyTextBecomesZero | Mental-Health-App/components/SymptomEvaluation.tsx:118 | an empty text answer is stored as the number 0 |
| Js.SplitDots | Mental-Health-App/components/SymptomEvaluation.tsx:123 | splitting gives at least one segment and no segment holds a dot |
| Js.JoinSplit | Mental-Health-App/components/SymptomEvaluation.tsx:123 | joining the segments with dots gives back the key |
| Js.NoDotSingleSegment | Mental-Health-App/components/SymptomEvaluation.tsx:123 | a key without a dot is one segment |
| Js.FirstSegmentStart | Mental-Health-App/components/SymptomEvaluation.tsx:123 | the first segment starts with the key's first character |
| Js.Lookup | Mental-Health-App/components/SymptomEvaluation.tsx:136-146 | a found value is never null, except for the empty path |
| Js.SetPath | Mental-Health-App/components/SymptomEvaluation.tsx:121-133 | a one-segment path stores the value at that key; a successful write keeps every key and adds the first segment |
| Js.WritableIffWriteSucceeds | Mental-Health-App/components/SymptomEvaluation.tsx:126-131 | a write fails exactly when some intermediate on the path is truthy and not an object |
| Js.FreshPathWritable | Mental-Health-App/components/SymptomEvaluation.tsx:126-131 | any path can be written into an empty evaluation |
| Js.ReadAfterWrite | Mental-Health-App/components/SymptomEvaluation.tsx:121-146 | reading a path just written gives the stored value |
| Js.WriteLeavesOtherPaths | Mental-Health-App/components/SymptomEvaluation.tsx:121-146 | a write leaves every path that branches off the written one unchanged |
| Js.EmptyObjectLookup | Mental-Health-App/components/SymptomEvaluation.tsx:136-146 | nothing is found in an empty evaluation |
| Js.FalsyLookup | Mental-Health-App/components/SymptomEvaluation.tsx:141 | nothing is found below a falsy value |
| Js.GetAnswer | Mental-Health-App/components/SymptomEvaluation.tsx:136-146 | the loop's result is the path lookup |
| Js.Without | Mental-Health-App/components/SymptomEvaluation.tsx:251 | the filter keeps exactly the entries other than the option and never grows; a one-entry list is kept or emptied |
| Js.WithoutSnoc | Mental-Health-App/components/SymptomEvaluation.tsx:251 | filtering a list with one more entry filters the list, then keeps that entry unless it is the option |
| Js.WithoutCounts | Mental-Health-App/components/SymptomEvaluation.tsx:251 | the filter drops every copy of the option and keeps every other entry as many times as it was listed |
| Js.WithoutAppend | Mental-Health-App/components/SymptomEvaluation.tsx:251 | filtering a concatenation filters each part, so the kept entries stay in their order |
| Js.WithoutAbsent | Mental-Health-App/components/SymptomEvaluation.tsx:251 | filtering out an absent option changes nothing |
| Js.Toggle | Mental-Health-App/components/SymptomEvaluation.tsx:247-252 | ticking appends the option; unticking removes every copy and keeps every other entry as many times as before |
| Js.UntickKeepsOrder | Mental-Health-App/components/SymptomEvaluation.tsx:247-252 | unticking clears each part of a list separately, so the other entries keep their order |
| Js.ToggleRoundTrip | Mental-Health-App/components/SymptomEvaluation.tsx:247-252 | unticking after ticking an absent option restores the list |
| SymptomForm.KeyShapes | Mental-Health-App/components/SymptomEvaluation.tsx:23-103 | every question key is a plain key, except the three thoughts-step keys under "suicidalIdeation." |
| SymptomForm.FlagKeys | Mental-Health-App/components/SymptomEvaluation.tsx:87-89 | the thoughts step's last three keys are the ideation flags |
| SymptomForm.PlainKeys | Mental-Health-App/components/SymptomEvaluation.tsx:23-103 | every other key is plain |
| SymptomForm.KeysDistinct | Mental-Health-App/components/SymptomEvaluation.tsx:23-103 | no step repeats a key |
| SymptomForm.StepIdsDistinct | Mental-Health-App/components/SymptomEvaluation.tsx:23-103 | the step ids are pairwise distinct |
| SymptomForm.SplitAtDot | Mental-Health-App/components/SymptomEvaluation.tsx:123 | a key with one dot splits into its two halves |
| SymptomForm.PlainPath | Mental-Health-App/components/SymptomEvaluation.tsx:123 | a plain key is written under its step, and as written at the top level |
| SymptomForm.FlagPath | Mental-Health-App/components/SymptomEvaluation.tsx:123 | a flag key is written under its step's ideation object, and as written under a top-level "suicidalIdeation" |
| SymptomForm.PathShapes | Mental-Health-App/components/SymptomEvaluation.tsx:112-133 | the write path of every question, corrected and as written |
| SymptomForm.AnswerPathAsWritten | Mental-Health-App/components/SymptomEvaluation.tsx:123 | as written, the path is the key's dotted segments, which join back to the key; the step id plays no part |
| SymptomForm.AnswerPath | Mental-Health-App/components/SymptomEvaluation.tsx:123 | with the correction, the path is the step id followed by the as-written segments |
| SymptomForm.IdeationOf | Mental-Health-App/components/SymptomEvaluation.tsx:272-273 | with no `thoughts` section the submit sees no ideation |
| SymptomForm.Normalize | Mental-Health-App/lib/scoring.ts:171-173 | the evaluation read by the scorer takes its ideation from the thoughts step |
| SymptomForm.EmptyFormIsZeroEvaluation | Mental-Health-App/lib/scoring.ts:21-51 | an untouched form is scored as the all-zero evaluation |
| SymptomForm.ScaleAnswerReadBack | Mental-Health-App/components/SymptomEvaluation.tsx:112-133 | a scale answer written at a path is read back by the scorer as its number |
| SymptomForm.ToggleOption | Mental-Health-App/components/SymptomEvaluation.tsx:247-252 | ticking gives the current list (none when it is not a list) with the option appended; unticking gives the current list filtered of the option, or none |
| SymptomForm.RoutePath | Mental-Health-App/components/SymptomEvaluation.tsx:299-309 | the results page is chosen exactly for stable |
| SymptomForm.ShapedWriteSucceeds | Mental-Health-App/components/SymptomEvaluation.tsx:112-133 | on a form-shaped evaluation every question's write succeeds and keeps the shape |
| SymptomForm.ShapedPlainWrite | Mental-Health-App/components/SymptomEvaluation.tsx:126-131 | a two-segment write on a shaped evaluation succeeds and keeps the shape |
| SymptomForm.ShapedFlagWrite | Mental-Health-App/components/SymptomEvaluation.tsx:126-131 | a flag write on a shaped evaluation succeeds and keeps the shape |
| SymptomForm.EvaluationForm.constructor | Mental-Health-App/components/SymptomEvaluation.tsx:106-107 | the form starts at the first step with an empty evaluation |
| SymptomForm.EvaluationForm.HandleAnswer | Mental-Health-App/components/SymptomEvaluation.tsx:112-133 | the coerced answer is written at the question's path, reading that path gives it back, and the question counts as answered |
| SymptomForm.EvaluationForm.Previous | Mental-Health-App/components/SymptomEvaluation.tsx:367 | one step back, never below the first |
| SymptomForm.EvaluationForm.Next | Mental-Health-App/components/SymptomEvaluation.tsx:394 | one step forward, offered only before the last step and once every question of the step is answered (`IsLastStep`, `CanProceed`) |
| SymptomForm.EvaluationForm.Submit | Mental-Health-App/components/SymptomEvaluation.tsx:268-320 | ideation gives the scored result forced to severe and human therapy and the emergency page; an analysis overrides severity, symptoms, recommendations and route and picks the route's page; without one, the scored result and the results page |
| SymptomForm.AsWrittenAnswerLeavesIdeation | Mental-Health-App/components/SymptomEvaluation.tsx:123 | as written, no answer of the form ever changes the ideation the submit reads |
| SymptomForm.AsWrittenPlanWrite | Mental-Health-App/components/SymptomEvaluation.tsx:123 | as written, answering yes to the plan question stores it under a top-level "suicidalIdeation" |
| SymptomForm.AsWrittenPlanAnswerMissed | Mental-Health-App/components/SymptomEvaluation.tsx:270-309 | as written, a yes to the plan question is missed by the override and the offline analysis sends the user to AI chat |
| SymptomForm.CorrectedIdeationAnswerSeen | Mental-Health-App/components/SymptomEvaluation.tsx:270-273 | with the step id in the path, a yes to any ideation question sets its flag and triggers the override |
| SymptomForm.OtherStepsKeepAnswers | Mental-Health-App/components/SymptomEvaluation.tsx:112-146 | with the step id in the path, an answer never changes what another step's questions read (as written this fails for shared keys, see AsWrittenSharedKey) |
| SymptomForm.FlatPlainWrite | Mental-Health-App/components/SymptomEvaluation.tsx:126-131 | as written, a plain key is stored at the top level and the object stays flat |
| SymptomForm.FlatFlagWrite | Mental-Health-App/components/SymptomEvaluation.tsx:126-131 | as written, a flag is stored under a top-level `suicidalIdeation` and the object stays flat |
| SymptomForm.AsWrittenWriteKeepsFlat | Mental-Health-App/components/SymptomEvaluation.tsx:112-133 | as written, every question's write succeeds and no section name ever appears at the top level |
| SymptomForm.FlatFormIsZeroEvaluation | Mental-Health-App/lib/scoring.ts:21-51 | an evaluation with no section at the top level is read by the scorer as the all-zero evaluation |
| SymptomForm.ReplayAsWritten | Mental-Health-App/components/SymptomEvaluation.tsx:112-133 | no answers leave the evaluation as it was |
| SymptomForm.AsWrittenReplayStaysFlat | Mental-Health-App/components/SymptomEvaluation.tsx:112-133 | as written, any sequence of answers to existing questions succeeds and leaves a flat object |
| SymptomForm.AsWrittenFormScoresZero | Mental-Health-App/components/SymptomEvaluation.tsx:123 | as written, whatever is answered, the submitted evaluation is scored as the all-zero evaluation: score 0, no ideation, zero sub-scores, minimal and stable with "Poor coping skills" only; its rule-based analysis is minimal |
| SymptomForm.CorrectedAnswerScored | Mental-Health-App/components/SymptomEvaluation.tsx:123 | with the step id in the path, a scale answer reaches the scorer: a sleep quality of n is scored as n |
| SymptomForm.AsWrittenSharedKey | Mental-Health-App/components/SymptomEvaluation.tsx:136-146 | as written, two questions with the same key share one slot: answering one makes the other read as answered with that value |
| SymptomForm.AsWrittenKeysCollide | Mental-Health-App/components/SymptomEvaluation.tsx:36-63 | appetite and behaviour "changes" (a scale and a multi-select) and appetite and energy "motivation" share a path as written and not once corrected |
| Store.CappedPrepend | Mental-Health-App/lib/store.ts:104-108 | the new assessment comes first, then the older ones in order, at most ten in all |
| Store.Reverse | Mental-Health-App/lib/store.ts:104-108 | the reversal has the same length and mirrored entries |
| Store.HistoryKeepsMostRecent | Mental-Health-App/lib/store.ts:104-108 | after any additions the history is the ten most recent assessments, newest first |
| Store.Overlay | Mental-Health-App/lib/store.ts:95-102 | each field the update carries replaces the stored one, each field it lacks keeps the stored one (none when nothing is stored); an empty update keeps the stored record |
| Store.OverlayTwice | Mental-Health-App/lib/store.ts:95-102 | two updates in a row act as one combined update |
| Store.OverlayIdempotent | Mental-Health-App/lib/store.ts:95-102 | repeating an update changes nothing more |
| Store.AssessmentStore.constructor | Mental-Health-App/lib/store.ts:33-41 | the store starts empty |
| Store.AssessmentStore.AddAssessmentToHistory | Mental-Health-App/lib/store.ts:104-108 | the history becomes the capped prepend; nothing else changes |
| Store.AssessmentStore.SetCurrentAssessment | Mental-Health-App/lib/store.ts:43-46 | the assessment becomes current and is added to the history |
| Store.AssessmentStore.SetSymptomEvaluation | Mental-Health-App/lib/store.ts:48-50 | the evaluation is stored; nothing else changes |
| Store.AssessmentStore.StartSession | Mental-Health-App/lib/store.ts:52-66 | a fresh session of the kind opens, with no messages, no end and mood 5, and the chat empties |
| Store.AssessmentStore.EndSession | Mental-Health-App/lib/store.ts:68-77 | an open session gets its end time; without one nothing changes |
| Store.AssessmentStore.AddChatMessage | Mental-Health-App/lib/store.ts:79-93 | the message is appended to the chat and to an open session's messages |
| Store.AssessmentStore.UpdateProgress | Mental-Health-App/lib/store.ts:95-102 | progress tracking becomes the overlay of the update |
| Store.AssessmentStore.ClearSession | Mental-Health-App/lib/store.ts:110-116 | the session, the chat and the evaluation are dropped; the assessment, the history and progress stay |
| Results.StartSessionPath | Mental-Health-App/app/results/page.tsx:106-118 | progress tracking exactly for stable; the other routes go where the symptom form sends them |
| Results.RouteTitle | Mental-Health-App/app/results/page.tsx:80-91 | the default title exactly for a name other than the three routes; the therapy title exactly for human therapy |
| Results.RouteDescription | Mental-Health-App/app/results/page.tsx:93-104 | the default description exactly for a name other than the three routes |
| Results.SeverityColor | Mental-Health-App/app/results/page.tsx:40-49 | grey exactly for a name other than the five severities |
| Results.EveryRouteHasItsOwnTexts | Mental-Health-App/app/results/page.tsx:80-104 | no stored route falls to the default title or description |
| Results.RouteTextsTellRoutesApart | Mental-Health-App/app/results/page.tsx:80-104 | two stored routes share a title, or a description, only when they are the same route |
| Results.StoredSeverityNeverGrey | Mental-Health-App/app/results/page.tsx:40-49 | no stored severity is shown in the default grey |
| Results.CrisisBannerAsWritten | Mental-Health-App/app/results/page.tsx:206 | as written the banner renders exactly for moderately severe; otherwise the child is the boolean "is severe" |
| Results.CrisisBanner | Mental-Health-App/app/results/page.tsx:206 | as intended the banner renders exactly for severe and moderately severe |
| Results.CrisisBannerSkipsSevere | Mental-Health-App/app/results/page.tsx:206 | the banner as written and as intended disagree exactly on severe results, where as written it does not render |
| Results.CrisisBannerForUpperLevels | Mental-Health-App/app/results/page.tsx:206 | grouped as intended, the banner renders exactly for moderately severe and severe |
| Results.Redirect | Mental-Health-App/app/results/page.tsx:24-30 | the page redirects home exactly when there is no current assessment |
| Results.NewAssessment | Mental-Health-App/app/results/page.tsx:120-123 | the session is cleared, the rest stays, and the assessment menu follows |
| Admin.Count | Mental-Health-App/app/admin/page.tsx:11-14 | a severity's count never exceeds the history length |
| Admin.CountStep | Mental-Health-App/app/admin/page.tsx:11-14 | one more assessment raises only its own severity's count |
| Admin.TotalCountBump | Mental-Health-App/app/admin/page.tsx:12 | bumping one entry raises the histogram total by one |
| Admin.SeverityBreakdown | Mental-Health-App/app/admin/page.tsx:11-14 | a severity is a key exactly when some assessment has it, its entry is its count, and the entries add up to the history length |
| Admin.RecentActivity | Mental-Health-App/app/admin/page.tsx:119 | the first five assessments (fewer if shorter), in order |
| Admin.RecentActivityIsLatest | Mental-Health-App/app/admin/page.tsx:119 | after five or more additions, recent activity is the five latest, newest first |
| Admin.Badge | Mental-Health-App/app/admin/page.tsx:124-128 | green exactly for a name other than the four upper severities |
| Admin.GreenBadgeOnlyForMinimal | Mental-Health-App/app/admin/page.tsx:125-129 | a stored severity's badge is green exactly when it is minimal |
| Admin.ClearData | Mental-Health-App/app/admin/page.tsx:16-22 | once confirmed the session is cleared; otherwise nothing changes; the history stays either way |
| Progress.GetMoodLabel | Mental-Health-App/app/progress/page.tsx:131-136 | each label holds exactly its mood interval: 8+, 6-7, 4-5, below 4 |
| Progress.GetMoodColor | Mental-Health-App/app/progress/page.tsx:124-129 | each colour is given exactly for the moods of its label |
| Progress.ColorFollowsLabel | Mental-Health-App/app/progress/page.tsx:124-136 | two moods share a colour exactly when they share a label |
| Progress.Streak | Mental-Health-App/app/progress/page.tsx:197-198 | the streak is at most 7 and at most the count, and equals the count exactly up to 7 |
| Progress.Dedup | Mental-Health-App/app/progress/page.tsx:85 | de-duplication keeps exactly the same entries and never grows |
| Progress.DedupDistinct | Mental-Health-App/app/progress/page.tsx:85 | no entry appears twice after de-duplication |
| Progress.DedupOfDistinct | Mental-Health-App/app/progress/page.tsx:85 | a list without repeats is unchanged |
| Progress.DedupFirstOccurrenceOrder | Mental-Health-App/app/progress/page.tsx:85 | the de-duplicated entries appear in the order of their first occurrences |
| Progress.InsightSymptoms | Mental-Health-App/app/progress/page.tsx:81-85 | the symptoms sent for insights are distinct |
| Progress.InsightSymptomsComplete | Mental-Health-App/app/progress/page.tsx:81-85 | a symptom is sent exactly when some check-in lists it |
| Progress.ProgressPage.constructor | Mental-Health-App/app/progress/page.tsx:35-45 | no check-ins, a blank draft, the form hidden |
| Progress.ProgressPage.ShowForm | Mental-Health-App/app/progress/page.tsx:209 | the form is shown; nothing else changes |
| Progress.ProgressPage.SelectMood | Mental-Health-App/app/progress/page.tsx:231 | the draft's mood becomes the rating; nothing else changes |
| Progress.ProgressPage.ToggleSymptom | Mental-Health-App/app/progress/page.tsx:258-269 | the draft's symptoms are toggled; nothing else changes |
| Progress.ProgressPage.ToggleCopingStrategy | Mental-Health-App/app/progress/page.tsx:290-301 | the draft's coping strategies are toggled; nothing else changes |
| Progress.ProgressPage.SetNotes | Mental-Health-App/app/progress/page.tsx:318 | the draft's notes are replaced; nothing else changes |
| Progress.ProgressPage.AddCheckin | Mental-Health-App/app/progress/page.tsx:104-122 | the draft becomes a check-in in front of the older ones, and the form is blanked and hidden |
| Progress.ProgressPage.StreakDays | Mental-Health-App/app/progress/page.tsx:197-198 | the page's streak is at most 7, and 0 exactly without check-ins |

## Left out

- Calls to the language model server, the prompt builders and `JSON.parse` of its replies
  are not modelled. The analysis the symptom form receives is a parameter of `Submit`:
  `None` stands for the submit's own catch branch, `Some` for whatever the analyser
  returns. The analyser catches its own failures: offline it returns the fixed analysis
  (`Fallback.OfflineAnalysis`), and an unparsable reply gives the rule-based
  `Fallback.FallbackAnalysis`. The progress insights call is likewise out.
- The random choice among the four supportive replies is a `roll` parameter below 4.
- `Date.now()` ids and `new Date()` instants are parameters (`id`, `now`).
- Persistence to local storage (the store's persist middleware, the quick form's saved
  answers, the check-in list, `localStorage.clear()` on the admin page) is not modelled.
- React rendering, the loading flags and router side effects are out. Each page's
  navigation target is returned as a path string.
- Floating-point displays are out: the average mood and the progress-bar width.
- The AI chat page, the human therapy page, the dashboard, the emergency page and the
  landing pages only display data; they are not modelled.
- Js.Coerce: `Number(value)` is modelled for decimal digit strings and the empty string
  only. Signs, decimals, exponents and whitespace are not modelled, because the form's
  inputs are 0-10 sliders, yes/no and free text.
- Fallback.LowerAscii: `toLowerCase` is modelled for ASCII letters only.
- Js.SetPath: the shallow copy `{ ...prev }` shares nested objects with the previous state.
  The model works on values, so that aliasing is not captured. A list-valued intermediate
  makes the write fail (`None`), although a JavaScript array accepts a named property; the
  form never writes below a list.
- Js.Lookup: a property read on a string or a list is treated as undefined. The form never
  reads below such a value.
- SymptomForm.Normalize: a value of the wrong type at a numeric path reads as 0.
- The `OllamaService` singleton and its availability probe are out.
- Scoring.SymptomChecks and Scoring.FollowUpChecks: the fourteen symptom `if`s and the three
  follow-up `if`s are written as a table of checks. The order and the conditions are the
  source's.
- SymptomForm.EvaluationForm.HandleAnswer: the class writes answers at the corrected path,
  with the step id first, and its `Valid` keeps the sectioned shape the scorer reads. The
  flat object the component builds as written cannot satisfy that shape, so the as-written
  form is modelled on values: `AnswerPathAsWritten`, `ReplayAsWritten`, `FlatShaped` and the
  lemmas beside them.
- SymptomForm.ReplayAsWritten: the answers may be to any step in any order, a superset of
  the click sequences the form allows; the as-written lemmas hold for all of them.
- SymptomForm.EvaluationForm.Next: requires `CanProceed()`, because the source disables the
  Next button until every question of the step is answered.
- Progress.ProgressPage.SelectMood: requires a mood in 1..10, the values of the page's
  buttons.

## Findings

| source | as written | input that shows it | evidently intended | confidence | as-written member | corrected member |
|---|---|---|---|---|---|---|
| Mental-Health-App/components/SymptomEvaluation.tsx:123 | answers are stored at `questionKey.split('.')`, the step id ignored, so every answer lands at the top level while the scorer reads `evaluation.<section>.<field>` | answer every question with its highest value and submit: the stored sub-scores are all 0 and the analyser is asked about an all-zero evaluation; offline the user goes to `/therapy/ai`, and an unparsable reply gives the rule-based analysis, minimal and stable | store answers under their step, `[stepId] + key.split('.')`, so the scorer reads the answers given | not executed | SymptomForm.AsWrittenFormScoresZero | SymptomForm.CorrectedAnswerScored |
| Mental-Health-App/components/SymptomEvaluation.tsx:123 | the ideation answers land at a top-level `suicidalIdeation`, while the submit reads `thoughts.suicidalIdeation` | answer yes to "Do you have a plan?" and submit: no emergency override; the offline analysis routes to `/therapy/ai` | with the step id in the path a yes to any ideation question triggers the emergency route | not executed | SymptomForm.AsWrittenPlanAnswerMissed | SymptomForm.CorrectedIdeationAnswerSeen |
| Mental-Health-App/components/SymptomEvaluation.tsx:123 | keys shared by two steps share one top-level slot: appetite and behaviour `changes`, appetite and energy `motivation` | answer the appetite "changes" scale: the behaviour "changes" question reads as answered with that number; ticking a behaviour change overwrites the appetite answer | each step's answers in their own section | not executed | SymptomForm.AsWrittenSharedKey | SymptomForm.OtherStepsKeepAnswers |
| Mental-Health-App/app/results/page.tsx:206 | `severe \|\| moderately_severe && <banner>`: `&&` binds tighter, so a severe result renders `true` and no crisis banner | an assessment of severity severe | `(severe \|\| moderately_severe) && <banner>`: the banner for both upper levels | not executed | Results.CrisisBannerSkipsSevere | Results.CrisisBannerForUpperLevels |
