# SLO assessment platform: a verified model of its core

The platform measures student proficiency against Student Learning Outcomes
(SLOs). Teachers author assessments whose questions each carry marks and
split those marks over one or more SLOs. Students take timed tests. Every
submitted answer is scored all-or-nothing, and each SLO collects its share
of the earned and possible marks. A per-student, per-SLO performance table
accumulates these totals and classifies each SLO as developmental (below
60 %), satisfactory (60 % to below 85 %) or mastery (85 % or more). From that table the
recommendation engine derives practice suggestions, badges, a knowledge
map and summary statistics, and a server function builds a stored
report for a student.

This project models that core in Dafny, one module per part:

- `Text`: the JavaScript string built-ins the core relies on: `trim`,
  ASCII `toLowerCase`/`toUpperCase`, `split("\n")`/`join`, `parseInt`,
  `String(n)`, `padStart(2, "0")` and `replace` with a string pattern.
- `Levels`: the 85/60 thresholds.
- `Scoring`: the scoring loop of the test page. Answers are compared
  once trimmed and lower-cased. Each SLO gets the proportional share of
  the earned marks and the whole of its mapped contribution.
- `Submission`: the submit handler as a class over the `test_attempts`
  log and the `slo_performance` rows keyed by (student, SLO). Its parts are
  the completeness check, the attempt insert and the upsert loop, which
  updates an existing row in place or else inserts one.
- `Authoring`: the draft-question editor (add, update, delete and SLO
  mark edits) and the validating save, which refuses questions whose
  mapped marks do not add up to their maximum marks. The save then inserts
  the assessment, each question and its mappings one row at a time, and an
  insert the database refuses leaves the earlier rows in place.
- `BulkUpload`: the three line-based bulk parsers (multiple choice,
  short answer, true/false) and the upload handler that picks among them.
- `Recommendation`: the pure derivations of the recommendation hook.
- `Practice`: the practice quiz of the AI tutor, as a class.
- `Countdown`: the test timer, as a class, with its `HH:MM:SS` display.
- `StudentReport`: the report function, as a class over the tables it
  reads and the reports it stores. It records the order in which it
  touches the database.

Marks and percentages are exact `real`s. Database ids are abstract
strings. The fresh ids that `crypto.randomUUID` hands out are modelled as
consecutive naturals starting at a `firstId` parameter. The clock is a
`now` parameter. The report handler accepts any authenticated caller,
whatever student is named: it performs no role or ownership check, and
the model keeps that.

## Model

| member | source | states |
|---|---|---|
| Levels.GetMasteryLevel | src/hooks/useRecommendationEngine.ts:46-50 | mastery iff the percentage is at least 85, satisfactory iff it is in [60, 85), developmental iff it is below 60 |
| Text.TrimIsSlice | src/pages/TakeTest.tsx:68 | `trim` keeps a contiguous slice with only whitespace cut off either side, and what it keeps starts and ends with non-whitespace |
| Text.TrimStartSpec | src/pages/TakeTest.tsx:68 | the leading-whitespace cut keeps a suffix, drops only whitespace, and stops at the first non-whitespace character |
| Text.TrimEndSpec | src/pages/TakeTest.tsx:68 | the trailing-whitespace cut keeps a prefix, drops only whitespace, and stops at the last non-whitespace character |
| Text.TrimEmptyIffAllWhitespace | src/components/assessment/CreateAssessmentDialog.tsx:199 | a string trims to empty exactly when it is all whitespace |
| Text.TrimPadded | src/pages/TakeTest.tsx:68 | whitespace added at either end is removed again |
| Text.TrimUnpadded | src/components/assessment/CreateAssessmentDialog.tsx:76 | a string that starts and ends with non-whitespace is its own trim |
| Text.CaseMap | src/pages/TakeTest.tsx:68 | case mapping keeps the length and maps every character on its own |
| Text.LowerAfterCaseMap | src/pages/TakeTest.tsx:68 | lower-casing forgets any earlier case mapping |
| Text.TrimCaseMap | src/pages/TakeTest.tsx:68 | trimming and case mapping commute |
| Text.FirstCharMismatch | src/components/assessment/CreateAssessmentDialog.tsx:77 | a first character that differs after lower-casing rules out a case-insensitive prefix match |
| Text.LineEnd | src/components/assessment/CreateAssessmentDialog.tsx:70 | the end of the first line is the first line feed, or the end of the text |
| Text.LineEndFirst | src/components/assessment/CreateAssessmentDialog.tsx:70 | the first line holds no line feed |
| Text.Split | src/components/assessment/CreateAssessmentDialog.tsx:70 | `split("\n")` always yields at least one piece |
| Text.SplitLine | src/components/assessment/CreateAssessmentDialog.tsx:70 | a line without a line feed, then a line feed, is split off as the first piece |
| Text.SplitNoLineFeed | src/components/assessment/CreateAssessmentDialog.tsx:70 | a text without a line feed is one piece |
| Text.SplitPiecesHaveNoLineFeed | src/components/assessment/CreateAssessmentDialog.tsx:70 | no piece holds a line feed |
| Text.JoinSplit | src/components/assessment/CreateAssessmentDialog.tsx:70 | joining the pieces with line feeds gives the text back |
| Text.SplitJoin | src/components/assessment/CreateAssessmentDialog.tsx:70 | splitting the join of line-feed-free pieces gives the pieces back |
| Text.SplitConcat | src/components/assessment/CreateAssessmentDialog.tsx:70 | splitting around a line feed splits each side separately |
| Text.SplitFirstLine | src/components/assessment/CreateAssessmentDialog.tsx:70 | a text with a line feed splits into its first line and the split of the rest, whatever follows it |
| Text.SplitBlank | src/components/assessment/CreateAssessmentDialog.tsx:70 | every piece of a blank text is blank |
| Text.DigitRun | src/components/assessment/CreateAssessmentDialog.tsx:98 | the digit run `parseInt` reads is the longest prefix of digits |
| Text.NatToString | src/components/test/CountdownTimer.tsx:52 | `String(n)` is a non-empty run of decimal digits with no leading zero |
| Text.NatToStringValue | src/components/test/CountdownTimer.tsx:52 | the digits of `String(n)` have the value `n` |
| Text.NatToStringLength | src/components/test/CountdownTimer.tsx:52 | `String(n)` has one digit exactly below 10 and two exactly from 10 to 99 |
| Text.ParseUnsignedDecimal | src/components/assessment/CreateAssessmentDialog.tsx:98 | a string of decimal digits parses to its digit value |
| Text.ParseIntNatToString | src/components/assessment/CreateAssessmentDialog.tsx:98 | `parseInt(String(n))` gives back `n` |
| Text.Pad2 | src/components/test/CountdownTimer.tsx:52 | the padded field has at least two characters, all decimal digits |
| Text.LeadingZeroValue | src/components/test/CountdownTimer.tsx:52 | a leading zero does not change the value |
| Text.Pad2Value | src/components/test/CountdownTimer.tsx:52 | the padded field reads back as `n`, and it is exactly two digits iff `n` is below 100 |
| Text.IndexOf | supabase/functions/generate-student-report/index.ts:33 | the index found is an occurrence at or after the start, and no earlier position from the start holds one; none means no position does |
| Text.ReplaceFirst | supabase/functions/generate-student-report/index.ts:33 | with no occurrence the string is unchanged; otherwise the first occurrence, and only it, is replaced |
| Scoring.EarnedMarks | src/pages/TakeTest.tsx:67-69 | all-or-nothing: the maximum marks or 0, and (for non-zero marks) the maximum iff the normalised answers match |
| Scoring.CorrectIgnoresPadding | src/pages/TakeTest.tsx:68 | whitespace around an answer never changes whether it is correct |
| Scoring.CorrectIgnoresCase | src/pages/TakeTest.tsx:68 | the case of ASCII letters, in the answer or in the key, never changes whether it is correct |
| Scoring.Grades | src/pages/TakeTest.tsx:66-70 | one grade per question, in order, each the earned marks of that question's answer |
| Scoring.AddMapping | src/pages/TakeTest.tsx:78-83 | a mapping creates its SLO's entry (appended to the key order) if absent, adds exactly its portion to that SLO, and leaves every other SLO alone |
| Scoring.AddMappings | src/pages/TakeTest.tsx:77-84 | the key order only grows, and the keys become the old keys plus the question's SLOs |
| Scoring.AddMappingValid | src/pages/TakeTest.tsx:78-80 | the key order stays repeat-free and in step with the entries |
| Scoring.AddMappingsValid | src/pages/TakeTest.tsx:77-84 | the same for all mappings of a question |
| Scoring.TallyOf | src/pages/TakeTest.tsx:64-85 | the breakdown's keys are exactly the SLOs some mapping of some question names |
| Scoring.TallyOfValid | src/pages/TakeTest.tsx:64-85 | the breakdown lists each SLO exactly once, in first-seen order |
| Scoring.AddMappingsSums | src/pages/TakeTest.tsx:77-84 | one question adds to an SLO the sum of its portions for that SLO |
| Scoring.TallySums | src/pages/TakeTest.tsx:64-85 | each SLO's entry is the sum over all questions of the portions handed to it |
| Scoring.PortionsPossible | src/pages/TakeTest.tsx:83 | the possible marks a question hands an SLO are its mapped contributions, whatever was earned |
| Scoring.PossibleIgnoresGrades | src/pages/TakeTest.tsx:83 | an SLO's possible total does not depend on the answers |
| Scoring.ShareAdds | src/pages/TakeTest.tsx:81-82 | shares of the same earned marks add up like their contributions |
| Scoring.ShareOfWhole | src/pages/TakeTest.tsx:81-82 | the share of a contribution equal to the maximum marks is all of the earned marks |
| Scoring.AllocatedIsProportional | src/pages/TakeTest.tsx:81-83 | a question's portions add up to the share of its total contribution |
| Scoring.AllocationConserves | src/pages/TakeTest.tsx:81-83 | a fully mapped question hands out exactly its earned and its maximum marks |
| Scoring.AddMappingTotal | src/pages/TakeTest.tsx:78-83 | the breakdown's grand total grows by exactly the mapping's portion |
| Scoring.AddMappingsTotal | src/pages/TakeTest.tsx:77-84 | the grand total grows by exactly the question's allocated marks |
| Scoring.ConservesStep | src/pages/TakeTest.tsx:77-84 | one fully mapped question adds its earned and its maximum marks to the grand total |
| Scoring.TallyConservesMarks | src/pages/TakeTest.tsx:64-85 | with every question fully mapped, the breakdown sums to the raw score and to the sum of the maximum marks |
| Scoring.ScoreConservesMarks | src/pages/TakeTest.tsx:63-85 | the same for the grades the answers earned |
| Scoring.ScoreStep | src/pages/TakeTest.tsx:66-85 | one more question scored: the raw score and the breakdown each take exactly that question's contribution |
| Scoring.GradeAnswer | src/pages/TakeTest.tsx:67-69 | the method's result is the question's earned marks |
| Scoring.AllocateMapping | src/pages/TakeTest.tsx:78-83 | the method's result is the breakdown with the mapping added |
| Scoring.AllocateMarks | src/pages/TakeTest.tsx:77-84 | the inner loop's result is the breakdown with all of the question's mappings added |
| Scoring.ScoreSubmission | src/pages/TakeTest.tsx:63-85 | an error exactly when some question has no answer, and it names such a question; otherwise the raw score is the sum of the grades and the breakdown is `TallyOf` of them |
| Scoring.ScoreQuestion | src/pages/TakeTest.tsx:66-84 | one pass of the loop: with one more question answered and divisible, the raw score is the sum of the grades so far and the breakdown is `TallyOf` those questions |
| Scoring.ScenarioGrades | src/pages/TakeTest.tsx:68-69 | " paris " earns the marks of "Paris"; "Rome" earns nothing |
| Scoring.ScenarioSplitAcrossTwoSlos | src/pages/TakeTest.tsx:77-84 | a 4-mark question mapped 3 + 1 that is answered correctly gives its two SLOs 3 of 3 and 1 of 1 |
| Scoring.SplitOneQuestion | src/pages/TakeTest.tsx:77-84 | a question mapped to two different SLOs gives each SLO exactly its own portion |
| Submission.Previous | src/pages/TakeTest.tsx:106-107 | the stored totals, or zero for a student with no row for that SLO |
| Submission.Merged | src/pages/TakeTest.tsx:106-112 | the new row's totals are the old totals plus the attempt's delta; its percentage and level are consistent with them |
| Submission.Upsert | src/pages/TakeTest.tsx:114-134 | the row for (student, SLO) ends with old totals plus delta. An update keeps the row's id. An insert takes the next id. No other row changes |
| Submission.KeysFor | src/pages/TakeTest.tsx:98 | the keys for one student and the SLOs of the breakdown |
| Submission.Upserts | src/pages/TakeTest.tsx:98-135 | the loop adds rows exactly for the breakdown's SLOs and leaves every other row untouched |
| Submission.UpsertsEffect | src/pages/TakeTest.tsx:98-135 | after the loop, each SLO of the breakdown has a consistent row whose totals are its previous totals plus that SLO's delta |
| Submission.UpsertsLast | src/pages/TakeTest.tsx:98-135 | the SLO upserted last ends with a consistent row holding its previous totals plus its delta |
| Submission.UpsertsKeepEarlier | src/pages/TakeTest.tsx:98-135 | the last upsert of the loop leaves the row of every earlier SLO of the breakdown as it was |
| Submission.UpsertValid | src/pages/TakeTest.tsx:125-133 | inserted rows get unused ids, so row ids stay unique |
| Submission.UpsertsValid | src/pages/TakeTest.tsx:98-135 | the whole loop keeps the ids unique |
| Submission.MergeAccumulates | src/pages/TakeTest.tsx:106-107 | two attempts merged one after the other give the same totals as their combined delta |
| Submission.ScenarioSatisfactory | src/pages/TakeTest.tsx:106-112 | 40 of 50 before and 10 of 10 now gives 50 of 60, which is satisfactory |
| Submission.IdsOf | src/pages/TakeTest.tsx:56 | the set of question ids is exactly the ids of the questions |
| Submission.IdsOfSize | src/pages/TakeTest.tsx:56 | with distinct ids, there are as many ids as questions |
| Submission.CountsMatchMeansAnswered | src/pages/TakeTest.tsx:56-59 | with distinct ids, answer keys among them and equal counts, every question has an answer |
| Submission.CountsMatchIsNotEnough | src/pages/TakeTest.tsx:56-59 | equal counts alone do not mean every question is answered (an answer keyed by another id) |
| Submission.UpsertsStep | src/pages/TakeTest.tsx:98-135 | one more iteration writes the next SLO's row on top of the rows so far, and that SLO's previous row is still the original |
| Submission.NewRow | src/pages/TakeTest.tsx:106-112 | the computed row is the existing totals merged with the delta |
| Submission.PercentagesDefinedForTally | src/pages/TakeTest.tsx:108 | a non-zero new possible total for every touched SLO makes every division in the loop defined |
| Submission.SubmissionStore.constructor | src/pages/TakeTest.tsx:87-135 | an empty store: no attempts, no rows |
| Submission.SubmissionStore.Submit | src/pages/TakeTest.tsx:55-141 | incomplete iff the counts differ. Failed iff an answer is missing or the insert fails. Either way nothing changes. On success the attempt is appended with the raw score and breakdown, and the table becomes the upserts of the breakdown |
| Submission.SubmissionStore.UpsertPerformance | src/pages/TakeTest.tsx:98-135 | the table afterwards is `Upserts` of the table before; attempts unchanged |
| Submission.SubmissionStore.UpsertOne | src/pages/TakeTest.tsx:99-134 | one iteration: the table afterwards is `Upsert` of the table before |
| Authoring.BlankQuestion | src/components/assessment/CreateAssessmentDialog.tsx:47-56 | a new question is an MCQ with four empty options, 1 mark, no text, no answer and no mappings |
| Authoring.AddQuestion | src/components/assessment/CreateAssessmentDialog.tsx:46-59 | the list grows by one blank question at the end; the others are unchanged |
| Authoring.Apply | src/components/assessment/CreateAssessmentDialog.tsx:62 | fields present in the edit win; the id, the mappings and the absent fields are kept |
| Authoring.UpdateQuestion | src/components/assessment/CreateAssessmentDialog.tsx:61-63 | the same length and ids, the edit applied to the questions with that id, the others unchanged |
| Authoring.DeleteQuestion | src/components/assessment/CreateAssessmentDialog.tsx:65-67 | exactly the questions with other ids remain |
| Authoring.DeleteDistributes | src/components/assessment/CreateAssessmentDialog.tsx:65-67 | deleting keeps the relative order: it distributes over concatenation |
| Authoring.DeleteAbsent | src/components/assessment/CreateAssessmentDialog.tsx:65-67 | deleting an id that no question carries changes nothing |
| Authoring.SetMarks | src/components/assessment/CreateAssessmentDialog.tsx:230-236 | an existing mapping is updated in place with the others unchanged; otherwise a new mapping is appended. The SLO then holds the new marks |
| Authoring.SetMarksDistinct | src/components/assessment/CreateAssessmentDialog.tsx:230-236 | a question never gets two mappings for one SLO |
| Authoring.SetMarksTotal | src/components/assessment/CreateAssessmentDialog.tsx:230-236 | the mapped total changes by exactly the edit: new marks minus old |
| Authoring.MarksForAbsent | src/components/assessment/CreateAssessmentDialog.tsx:230-236 | an SLO with no mapping holds 0 marks |
| Authoring.ReplaceTotal | src/components/assessment/CreateAssessmentDialog.tsx:231-233 | replacing an SLO's marks position by position changes the total by new minus old |
| Authoring.UpdateSloMapping | src/components/assessment/CreateAssessmentDialog.tsx:226-242 | only the questions with that id change, and only in their mappings |
| Authoring.FirstUnmapped | src/components/assessment/CreateAssessmentDialog.tsx:250-256 | none iff every question's mapped marks equal its maximum; otherwise the first question where they differ |
| Authoring.Stored | src/components/assessment/CreateAssessmentDialog.tsx:277-301 | a stored row is numbered from 1 and keeps options only for MCQs; its other fields are copied |
| Authoring.HandleSubmit | src/components/assessment/CreateAssessmentDialog.tsx:244-316 | missing fields iff the title, the subject or the questions are empty, and otherwise the first question with unmapped marks is reported; nothing is written on either error. A valid form inserts the rows of `SavePlan` in order. It is saved exactly when the database refuses none of them, with the total marks the sum of maximum marks and the questions stored in order. Otherwise it fails with exactly the rows before the refused insert left written |
| Authoring.InsertRow | src/components/assessment/CreateAssessmentDialog.tsx:261-300 | one insert: refused exactly at the position the database refuses, and then nothing is added; otherwise the row is appended |
| Authoring.SaveQuestions | src/components/assessment/CreateAssessmentDialog.tsx:275-302 | the question loop writes each question's row and then its mapping rows, in list order; a refused insert stops it with exactly the rows before it written |
| Authoring.SaveNext | src/components/assessment/CreateAssessmentDialog.tsx:275-302 | one pass of the question loop adds that question's rows, or leaves the save cut at the refused insert |
| Authoring.SaveQuestion | src/components/assessment/CreateAssessmentDialog.tsx:276-301 | one question's row followed by its mapping rows in mapping order, cut at the first refused insert |
| Authoring.QuestionRowsPrefix | src/components/assessment/CreateAssessmentDialog.tsx:275-302 | the rows of the first questions come first among the rows of all questions, so a cut save is a prefix of the full one |
| Authoring.MappingRowsPrefix | src/components/assessment/CreateAssessmentDialog.tsx:293-301 | the mapping rows written so far are the first of the question's mapping rows |
| Authoring.QuestionRowsQuestions | src/components/assessment/CreateAssessmentDialog.tsx:275-291 | read back, the question rows are the questions as stored, in list order, numbered from 1 |
| Authoring.QuestionRowsMarks | src/components/assessment/CreateAssessmentDialog.tsx:293-301 | read back, the mapping rows give each question exactly its draft's mapped marks, and give no marks to order numbers without a question |
| Authoring.CompletedSaveReadsBack | src/components/assessment/CreateAssessmentDialog.tsx:250-302 | a completed save reads back as the checked form: its questions in order, each with mapping rows summing to its maximum marks |
| Authoring.FailedSaveLeavesPartialRows | src/components/assessment/CreateAssessmentDialog.tsx:273-301 | a save refused after its first insert leaves the assessment row without the rest of the save, as there is no rollback |
| Authoring.SumMappedMarks | src/components/assessment/CreateAssessmentDialog.tsx:251 | the `reduce` over a question's mappings is the sum of their marks |
| Authoring.CheckMappings | src/components/assessment/CreateAssessmentDialog.tsx:250-256 | the loop stops at the first question whose mapped marks differ from its maximum marks, and at none if there is no such question |
| Authoring.SumQuestionMarks | src/components/assessment/CreateAssessmentDialog.tsx:260 | the assessment's total marks are the sum of the questions' maximum marks |
| Authoring.AsSloMappings | src/components/assessment/CreateAssessmentDialog.tsx:293-301 | the mapping rows stored for a question, one per draft mapping |
| Authoring.ContributionsAreMappedTotal | src/components/assessment/CreateAssessmentDialog.tsx:250-256 | the stored contributions sum to the mapped total the save checks |
| Authoring.ScoringQuestions | src/components/assessment/CreateAssessmentDialog.tsx:275-291 | the stored questions as the scorer reads them back |
| Authoring.ScoringMappings | src/components/assessment/CreateAssessmentDialog.tsx:293-301 | the stored mapping rows as the scorer reads them back |
| Authoring.SumMaxMarksMatches | src/components/assessment/CreateAssessmentDialog.tsx:260 | the stored total marks equal the sum of the maximum marks the scorer sees |
| Authoring.AcceptedAssessmentConserves | src/components/assessment/CreateAssessmentDialog.tsx:244-316 | an accepted assessment, stored under distinct ids, is fully mapped as the scorer sees it, and the breakdown distributes exactly the raw score and the total marks. This assumes that no mapped question has zero maximum marks, which the check does not ensure |
| Authoring.ZeroMarkQuestionAccepted | src/components/assessment/CreateAssessmentDialog.tsx:250-256 | the mapping check lets through a question of zero marks with a zero-mark mapping |
| BulkUpload.NonBlank | src/components/assessment/CreateAssessmentDialog.tsx:70 | the kept lines are non-blank and no more than the input lines |
| BulkUpload.NonBlankAppend | src/components/assessment/CreateAssessmentDialog.tsx:70 | filtering distributes over concatenation |
| BulkUpload.BlankLineIgnored | src/components/assessment/CreateAssessmentDialog.tsx:70 | a blank line anywhere in the text is invisible to the parsers |
| BulkUpload.BlankTextHasNoLines | src/components/assessment/CreateAssessmentDialog.tsx:70 | a blank text has no lines |
| BulkUpload.JoinedLines | src/components/assessment/CreateAssessmentDialog.tsx:70 | non-blank, line-feed-free lines come back one for one from their join |
| BulkUpload.MarksValue | src/components/assessment/CreateAssessmentDialog.tsx:98 | `parseInt(..) \|\| 1` is never 0, and it is the parsed value when that is a non-zero number |
| BulkUpload.MarksDefaults | src/components/assessment/CreateAssessmentDialog.tsx:98 | a positive numeral gives its value; "0" and an empty value give 1 |
| BulkUpload.ClassifyQuestion | src/components/assessment/CreateAssessmentDialog.tsx:77 | `Q: text`, with the prefix in either case, is a question line for every parser |
| BulkUpload.ClassifyOption | src/components/assessment/CreateAssessmentDialog.tsx:91-92 | `A:` to `D:` lines add an option in a multiple-choice text |
| BulkUpload.ClassifyAnswer | src/components/assessment/CreateAssessmentDialog.tsx:136-137 | an `A:` line gives the answer in a short-answer or true/false text |
| BulkUpload.ClassifyCorrect | src/components/assessment/CreateAssessmentDialog.tsx:93-96 | a `Correct:` line carries its letters |
| BulkUpload.ClassifyMarks | src/components/assessment/CreateAssessmentDialog.tsx:97-98 | `Marks: n` carries `n` for every parser |
| BulkUpload.MarksOf | src/components/assessment/CreateAssessmentDialog.tsx:85 | `max_marks \|\| 1` is never 0 |
| BulkUpload.CorrectChoice | src/components/assessment/CreateAssessmentDialog.tsx:93-96 | the answer a `Correct:` line selects is one of the options read so far, or empty; with no options it is empty |
| BulkUpload.CorrectLetterPicks | src/components/assessment/CreateAssessmentDialog.tsx:94-95 | the `k`-th letter, in either case and with anything after it, picks the `k`-th option |
| BulkUpload.McqEmit | src/components/assessment/CreateAssessmentDialog.tsx:78-88 | a question is emitted iff the pending one has text and at least two options |
| BulkUpload.McqStepClassified | src/components/assessment/CreateAssessmentDialog.tsx:75-100 | the `if`/`else if` chain on a text line acts as its classification |
| BulkUpload.PushMcq | src/components/assessment/CreateAssessmentDialog.tsx:102-112 | the final push appends the pending question exactly when it is complete |
| BulkUpload.ReadMcqLine | src/components/assessment/CreateAssessmentDialog.tsx:75-100 | one loop body moves the parser's variables by one `McqStep` |
| BulkUpload.ParseBulkMcqs | src/components/assessment/CreateAssessmentDialog.tsx:69-115 | the parser's loop computes `ParseMcqs` of the text |
| BulkUpload.McqsWellFormed | src/components/assessment/CreateAssessmentDialog.tsx:69-115 | every parsed MCQ has text, at least two options, an answer among them or empty, non-zero marks, no mappings and its own fresh id |
| BulkUpload.CorrectBeforeOptions | src/components/assessment/CreateAssessmentDialog.tsx:93-96 | a `Correct:` line written before the options selects nothing |
| BulkUpload.OptionLineClassify | src/components/assessment/CreateAssessmentDialog.tsx:91-92 | the `i`-th written option line reads back as the `i`-th option |
| BulkUpload.McqsRoundTrip | src/components/assessment/CreateAssessmentDialog.tsx:69-115 | the questions written out in the bulk format parse back to the same questions |
| BulkUpload.TrueFalseAnswer | src/components/assessment/CreateAssessmentDialog.tsx:176-178 | a true/false answer is always "True" or "False" |
| BulkUpload.TrueFalseFixedPoints | src/components/assessment/CreateAssessmentDialog.tsx:176-178 | "True" and "False" read back unchanged, nothing else does, and "t"/"T"/"TRUE" mean true |
| BulkUpload.AnswerEmit | src/components/assessment/CreateAssessmentDialog.tsx:125-135 | a question is emitted iff the pending one has non-empty text and a non-empty answer |
| BulkUpload.AnswerStepClassified | src/components/assessment/CreateAssessmentDialog.tsx:122-141 | the `if`/`else if` chain on a text line acts as its classification |
| BulkUpload.PushAnswerQuestion | src/components/assessment/CreateAssessmentDialog.tsx:143-152 | the final push appends the pending question exactly when it is complete |
| BulkUpload.ReadAnswerLine | src/components/assessment/CreateAssessmentDialog.tsx:122-141 | one loop body moves the parser's variables by one `AnswerStep` |
| BulkUpload.ParseBulkAnswers | src/components/assessment/CreateAssessmentDialog.tsx:117-196 | the parser's loop computes `ParseAnswers` of the text |
| BulkUpload.AnswersWellFormed | src/components/assessment/CreateAssessmentDialog.tsx:117-196 | every parsed question has text, a non-empty answer, no options, non-zero marks and its own fresh id; true/false answers are "True" or "False" |
| BulkUpload.AnswersRoundTrip | src/components/assessment/CreateAssessmentDialog.tsx:117-196 | short-answer and true/false questions written out in the format parse back to the same questions |
| BulkUpload.BlankTextParsesToNothing | src/components/assessment/CreateAssessmentDialog.tsx:199-217 | a blank text parses to nothing under every parser |
| BulkUpload.HandleBulkUpload | src/components/assessment/CreateAssessmentDialog.tsx:198-224 | the empty-text error iff the text is blank, and the no-questions error iff it is not blank but nothing parses. Otherwise the parsed questions are appended after the existing ones, all well-formed |
| BulkUpload.ParseFor | src/components/assessment/CreateAssessmentDialog.tsx:204-212 | the parser chosen by the question type gives the questions the matching bulk parser reads |
| BulkUpload.ParsedEmitted | src/components/assessment/CreateAssessmentDialog.tsx:204-212 | every question any of the three parsers returns is well-formed for its type and numbered from the first free id |
| Recommendation.GetContentType | src/hooks/useRecommendationEngine.ts:52-56 | challenge iff mastery, reinforcement iff satisfactory, foundational iff developmental |
| Recommendation.GetContentDetails | src/hooks/useRecommendationEngine.ts:58-97 | each kind of content lists four activities |
| Recommendation.ContentLabelsDistinct | src/hooks/useRecommendationEngine.ts:58-97 | the label identifies the kind of content |
| Recommendation.Priority | src/hooks/useRecommendationEngine.ts:109-111 | priority in 1..3; 3 iff foundational, 1 iff challenge |
| Recommendation.OrElse | src/hooks/useRecommendationEngine.ts:115-116 | `value \|\| fallback`: the value when present and non-empty, else the fallback |
| Recommendation.Recommend | src/hooks/useRecommendationEngine.ts:103-126 | a row's recommendation carries its SLO and percentage, the SLO description or "Unknown SLO", the subject name or "Unknown Subject", the recomputed level, the matching content kind with its label, description, time and four activities, and its priority |
| Recommendation.LevelIsRecomputed | src/hooks/useRecommendationEngine.ts:118 | the stored level plays no part; the level is recomputed from the percentage |
| Recommendation.PriorityFollowsLevel | src/hooks/useRecommendationEngine.ts:109-111 | priority 3 exactly for developmental rows, 2 for satisfactory, 1 for mastery |
| Recommendation.RecommendAll | src/hooks/useRecommendationEngine.ts:103-126 | one recommendation per row, in row order |
| Recommendation.SortByPriority | src/hooks/useRecommendationEngine.ts:127 | the sort keeps the length |
| Recommendation.WithPriority | src/hooks/useRecommendationEngine.ts:127 | the entries of one priority, each with that priority |
| Recommendation.InsertBetween | src/hooks/useRecommendationEngine.ts:127 | an insertion lands after the entries of equal or higher priority and before the lower ones |
| Recommendation.SortIsGrouped | src/hooks/useRecommendationEngine.ts:127 | the stable sort is the reference order: priority 3, then 2, then 1, each in input order |
| Recommendation.InsertGrouped | src/hooks/useRecommendationEngine.ts:127 | inserting one more entry into the reference order gives the reference order of the longer input |
| Recommendation.GroupedPermutes | src/hooks/useRecommendationEngine.ts:127 | the reference order is a permutation of the input |
| Recommendation.GroupedSorted | src/hooks/useRecommendationEngine.ts:127 | the reference order is sorted by non-increasing priority |
| Recommendation.Recommendations | src/hooks/useRecommendationEngine.ts:100-128 | one recommendation per row; none for no rows |
| Recommendation.RecommendationsOrdered | src/hooks/useRecommendationEngine.ts:100-128 | the recommendations are a permutation of the per-row ones, sorted by priority, stable within a priority |
| Recommendation.BadgeTypeFor | src/hooks/useRecommendationEngine.ts:139-140 | gold iff at least 95, silver iff in [90, 95), bronze iff below 90 |
| Recommendation.Badge | src/hooks/useRecommendationEngine.ts:135-141 | a badge carries its row's SLO, the SLO description or "Unknown SLO", the update time and the colour |
| Recommendation.MasteryBadges | src/hooks/useRecommendationEngine.ts:130-142 | a badge for every row at 85 or more, and every badge comes from such a row |
| Recommendation.BadgesAreForMastery | src/hooks/useRecommendationEngine.ts:130-142 | every badge belongs to a mastered row and its colour follows the 95/90 thresholds |
| Recommendation.Prefix | src/hooks/useRecommendationEngine.ts:148 | `substring(0, n)` is a prefix of at most `n` characters, the whole string when shorter |
| Recommendation.Subject | src/hooks/useRecommendationEngine.ts:148 | the short label: "SLO" iff there is no description; otherwise the first 20 characters followed by "..." |
| Recommendation.KnowledgeMapData | src/hooks/useRecommendationEngine.ts:144-153 | one point per row, in order, with the percentage out of 100, the full name (or "Unknown") and the short label as written: the 20-character prefix or "undefined", followed by "..." |
| Recommendation.IntendedKnowledgeMapData | src/hooks/useRecommendationEngine.ts:144-153 | the same series with the short label as intended: "SLO" exactly for a row without a description or with an empty one |
| Recommendation.KnowledgeMapDiffersWithoutDescription | src/hooks/useRecommendationEngine.ts:148 | the series as written and as intended differ at a row exactly when it has no description or an empty one |
| Recommendation.CountLevel | src/hooks/useRecommendationEngine.ts:160-162 | a level count is at most the number of rows |
| Recommendation.Round | src/hooks/useRecommendationEngine.ts:165 | `Math.round` is within one half of its argument, halves rounded up |
| Recommendation.GetStats | src/hooks/useRecommendationEngine.ts:155-166 | all zero for no rows; otherwise the per-level counts and the rounded mean percentage |
| Recommendation.CountsPartition | src/hooks/useRecommendationEngine.ts:160-162 | the three level counts add up to the number of rows |
| Recommendation.MasteryCountIsBadgeCount | src/hooks/useRecommendationEngine.ts:130-162 | there are as many badges as mastered rows |
| Recommendation.SumBounds | src/hooks/useRecommendationEngine.ts:163 | with percentages in [0, 100], their sum lies in [0, 100 × rows] |
| Recommendation.AverageInRange | src/hooks/useRecommendationEngine.ts:163-165 | with percentages in [0, 100], the average score is in [0, 100] |
| Recommendation.NoRowsNothingDerived | src/hooks/useRecommendationEngine.ts:101 | no rows: no recommendations, badges or map points, and all-zero statistics |
| Recommendation.SubjectAsWritten | src/hooks/useRecommendationEngine.ts:148 | the label as written always ends in "..." |
| Recommendation.SubjectFallbackUnreachable | src/hooks/useRecommendationEngine.ts:148 | as written the label is never "SLO"; without a description it is "undefined..." |
| Practice.FirstChar | src/components/tutor/PracticeModal.tsx:55 | `charAt(0)`: the first character as a one-character prefix, empty only for an empty option |
| Practice.FeedbackText | src/components/tutor/PracticeModal.tsx:198-201 | the explanation for a right answer. For a wrong one, the feedback for the chosen letter when it is non-empty; otherwise the explanation |
| Practice.CorrectCount | src/components/tutor/PracticeModal.tsx:58-60 | at most the letters chosen, and all of them iff every chosen letter is its question's answer |
| Practice.CorrectCountAppend | src/components/tutor/PracticeModal.tsx:58-60 | one more letter adds one exactly when it is right |
| Practice.PracticeSession.ScoreWithinAttempted | src/components/tutor/PracticeModal.tsx:134 | the score never exceeds the questions attempted, which never exceed the questions |
| Practice.PracticeSession.constructor | src/components/tutor/PracticeModal.tsx:40-44 | the modal opens on the first question with nothing answered |
| Practice.PracticeSession.HandleAnswerSelect | src/components/tutor/PracticeModal.tsx:52-62 | ignored while feedback shows. Otherwise the first character is recorded, feedback turns on, and the score rises by one exactly when it is right |
| Practice.PracticeSession.HandleNext | src/components/tutor/PracticeModal.tsx:64-72 | the next question with the selection cleared, or completion on the last one; score unchanged |
| Practice.PracticeSession.HandleReset | src/components/tutor/PracticeModal.tsx:74-80 | back to the initial state |
| Practice.PracticeSession.HandleClose | src/components/tutor/PracticeModal.tsx:82-85 | reset, then one close request to the parent |
| Countdown.Remaining | src/components/test/CountdownTimer.tsx:26 | `Math.max(0, difference)`: never negative, and either 0 or the difference |
| Countdown.CountdownTimer.constructor | src/components/test/CountdownTimer.tsx:11-12 | no time shown yet, not expired, `onExpire` not called |
| Countdown.CountdownTimer.CalculateTimeLeft | src/components/test/CountdownTimer.tsx:15-27 | the time left. At or past the end, the latch is set and `onExpire` is called on the first time only; `onExpire` is called at most once overall |
| Countdown.CountdownTimer.Tick | src/components/test/CountdownTimer.tsx:29-34 | the shown time becomes the time left, with the same latch behaviour |
| Countdown.CountdownTimer.Shown | src/components/test/CountdownTimer.tsx:52 | once expired the timer shows all zeros |
| Countdown.Decomposition | src/components/test/CountdownTimer.tsx:39-41 | minutes and seconds are below 60, and the three fields are the time left truncated to the second |
| Countdown.LowTimeOnDisplay | src/components/test/CountdownTimer.tsx:43 | the warning shows exactly when time remains and the display reads `00:0m:ss` with m below 5 |
| Countdown.FieldValue | src/components/test/CountdownTimer.tsx:52 | a field reads as a number iff it is all digits |
| Countdown.DisplayReadsBack | src/components/test/CountdownTimer.tsx:52 | the display reads back as hours, minutes and seconds, and is eight characters iff under 100 hours |
| Countdown.ExpiredDisplay | src/components/test/CountdownTimer.tsx:52 | expired, or with no time left, the display is `00:00:00` |
| StudentReport.TotalsAppend | supabase/functions/generate-student-report/index.ts:84-85 | the earned and possible sums add up over concatenated attempt lists |
| StudentReport.AveragePercentage | supabase/functions/generate-student-report/index.ts:86-88 | the percentage of earned over possible, and 0 when nothing was possible |
| StudentReport.LevelsOf | supabase/functions/generate-student-report/index.ts:91-94 | the levels of the rows, in order |
| StudentReport.ProficiencyCounts | supabase/functions/generate-student-report/index.ts:91-94 | a key for exactly the levels present, each counting that level's rows |
| StudentReport.CountsSumToRows | supabase/functions/generate-student-report/index.ts:91-94 | the counts add up to the number of rows |
| StudentReport.ReportStatistics | supabase/functions/generate-student-report/index.ts:83-94 | the attempt count, both sums, the average as their percentage (0 without possible marks) and the level counts |
| StudentReport.EmptyStatistics | supabase/functions/generate-student-report/index.ts:83-94 | no attempts and no rows give zeros and no counts |
| StudentReport.EarnedWithinPossible | supabase/functions/generate-student-report/index.ts:84-85 | when each attempt scores within its total, so do the sums |
| StudentReport.AverageInRange | supabase/functions/generate-student-report/index.ts:86-88 | then the average lies between 0 and 100 |
| StudentReport.BearerToken | supabase/functions/generate-student-report/index.ts:33 | a `Bearer <token>` header yields the token |
| StudentReport.ReportService.constructor | supabase/functions/generate-student-report/index.ts:19-26 | the given tables, no reports, no accesses |
| StudentReport.ReportService.ReadAndStore | supabase/functions/generate-student-report/index.ts:41-123 | the reads and the insert in order, stopping at the first failure with nothing stored; on success the stored report holds the profile, the attempts, the performance rows and their statistics |
| StudentReport.ReportService.GenerateStudentReport | supabase/functions/generate-student-report/index.ts:18-145 | the accesses are always a prefix of the fixed order. No header: rejected with no access. Unknown token: unauthorized after the lookup alone. Success: every access made and one report stored for the caller; on failure nothing is stored |

## Left out

- Database, network and Supabase client calls: the tables are in-memory
  values and fields. Each call that can fail is a parameter (`insertFails`,
  `failing`, `failAt`), and a single-row query is a map lookup. The id the
  database returns for a stored question is its order number.
- Concurrency: two submissions for the same student interleaving their
  read-then-write upserts are not modelled; each handler runs to the end
  alone.
- The clock: `Date.now()` is the `now` argument of each tick. The
  `setInterval`/`clearInterval` scheduling, the interval's captured state
  and React's batching of state updates are not modelled. Each tick is one
  method call.
- `new Date().toISOString()` (`last_updated`), the report's `generatedAt`,
  its storage path and the JSON request body are not modelled. The student
  id is a parameter.
- `crypto.randomUUID`: fresh ids are consecutive naturals from `firstId`.
- Floating point: marks and percentages are exact reals. `toFixed(1)` in
  the report and the `NaN` that `Number(..)` can yield are not modelled.
  `Math.round` is modelled exactly.
- `parseInt` is modelled with leading whitespace, an optional sign, an
  optional `0x` prefix and the longest digit run. The loss of precision
  beyond 2^53 is not modelled.
- Text.CaseMap: maps only the ASCII letters, because `toLowerCase` and
  `toUpperCase` on other characters follow Unicode tables that are not
  modelled.
- Toasts, navigation, loading flags, dialogs and rendering are not
  modelled, apart from the strings the contracts state (the timer display,
  feedback text, labels). CORS headers and the `OPTIONS` preflight are not
  modelled either.
- The shape of `slo_breakdown` as stored JSON: the attempt keeps the
  breakdown value itself.
- The auto-submit on expiry of the test page, practice generation, the
  other pages and components, realtime subscriptions and the generated
  database types are not part of this model.
- Submission.SubmissionStore.Submit: requires that every division in the
  loop is defined (non-zero maximum marks for mapped questions and a
  non-zero new possible total per SLO). The source divides regardless and
  would store `Infinity`/`NaN`.
- Scoring.ScoreSubmission: requires the same defined divisions, for the
  same reason.
- Authoring.AcceptedAssessmentConserves: requires that no question with a
  mapping has zero maximum marks. The save's check accepts such a question
  (`Authoring.ZeroMarkQuestionAccepted`), and scoring then divides 0 by 0
  and would store `NaN`, which the exact reals do not model.
- UTF-16: strings are sequences of Unicode characters. JavaScript's
  `length`, `substring(0, 20)` (the knowledge-map label), `charAt(0)` (the
  practice answer letter) and `charCodeAt(0)` (the bulk parser's correct
  letter) count UTF-16 code units, so for characters outside the Basic
  Multilingual Plane the model's counts and prefixes are not the source's.
- Practice.PracticeSession.constructor: requires at least one question,
  because with none the modal has no current question to render.
- Practice.PracticeSession.HandleNext: requires feedback to be showing,
  because the button is disabled before an answer is chosen.

## Findings

| source | as written | input that shows it | evidently intended | confidence | as-written member | corrected member |
|---|---|---|---|---|---|---|
| src/hooks/useRecommendationEngine.ts:148 | `description?.substring(0, 20) + "..." \|\| "SLO"`: the concatenation is never empty, so the fallback never applies | a row with no SLO description gives the label "undefined...", and an empty description gives "..." | "SLO" when there is no description | high (not executed) | Recommendation.SubjectFallbackUnreachable | Recommendation.IntendedKnowledgeMapData |
