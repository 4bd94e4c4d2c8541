# Resume Analyser Pro: interview sessions, analysis store and signup checks in Dafny

This project models three client-side parts of the resume-analysis and
interview-practice web app, and proves properties of the model.

- **Interview sessions** (`frontend/src/services/interviewService.js`):
  - A session selects 5, 7 or 10 questions from a fixed question bank, by difficulty. The selection is a Fisher–Yates shuffle.
  - Answers are scored one question at a time: one point per ten words, at most ten. Each score gets a feedback text.
  - Completing a session records the mean question score.
  - Sessions are saved by upsert on their id into a list kept in browser storage.
  - The history view filters the list by user, sorts it newest first and computes summary statistics.
- **Analysis store** (`frontend/src/services/storageService.js`):
  - Saved resume analyses are prepended to a list. They can be looked up and deleted by id.
  - Statistics give the count, the rounded average, the top score, the five most recent records and a four-band score distribution.
  - Export and import cover the analysis list, the interview history and the preferences.
- **Signup checks** (`frontend/src/pages/Signup.jsx`):
  - The form validator returns the first failing rule's message.
  - The password-strength meter classifies a password by its length.

Files and modules:

| file | module | contents |
|---|---|---|
| `wrappers.dfy` | `Wrappers` | `Option`, for absent keys and failed lookups |
| `seqs.dfy` | `Seqs` | `Filter` (`Array.prototype.filter`), `Sum`, `Max` (`Math.max`) and their lemmas |
| `question_bank.dfy` | `QuestionBank` | the question tables, the derived mixed lists and the lookup with its fallback |
| `interview.dfy` | `Interview` | session values, the pure steps of each operation, the class `SessionStore` holding the stored session list, and the history query |
| `storage.dfy` | `Storage` | record values, lookups, deletion, statistics, the distribution loop, import/export, and the class `AnalysisStore` holding the three storage keys |
| `signup.dfy` | `Signup` | `ValidateForm`, `PasswordStrength` and their lemmas |

How the model is built:
- Operations that change stored state are methods of a class. The stored list or object is a field of that class.
- Each such method's `ensures` ties the new field value to a pure function of the old one, such as `Upsert`, `Answered`, `CompletedSession`, `RemoveId` or `ApplyImport`. The lemmas are proved about those functions.
- Queries are functions over the stored list.
- The shuffle (`ShuffleArray`) and the distribution count (`CalculateScoreDistribution`) are loops, as in the source. The shuffle keeps the array.
- These things become parameters: the current time, generated ids, `Date.now()` session ids and the signed-in user's id.
- `Math.random()` becomes an arbitrary choice of the swap index.

## Model

| member | source | states |
|---|---|---|
| `Signup.ValidateForm` | frontend/src/pages/Signup.jsx:26-36 | accepted iff the password has at least 6 characters and equals the confirmation; a short password fails with "Password must be at least 6 characters long"; a long enough but different one fails with "Passwords do not match" |
| `Signup.PasswordStrength` | frontend/src/pages/Signup.jsx:58-64 | length 0 gives ("", 0, ""), below 6 gives Weak/33, below 10 gives Medium/66, otherwise Strong/100, with the source's colours |
| `Signup.LengthCheckedBeforeMatch` | frontend/src/pages/Signup.jsx:27-34 | a short password that also mismatches reports the length error, not the mismatch error |
| `Signup.StrengthMonotone` | frontend/src/pages/Signup.jsx:60-63 | the strength percentage never decreases as the password gets longer |
| `Signup.AcceptedPasswordIsNotWeak` | frontend/src/pages/Signup.jsx:27-63 | every password the validator accepts rates Medium or Strong (at least 66%) |
| `QuestionBank.BankShape` | frontend/src/services/interviewService.js:9-85 | technical and behavioural tables cover the same three roles, ten questions each |
| `QuestionBank.Mixed` | frontend/src/services/interviewService.js:89-95 | a mixed list exists for exactly the roles of the technical table |
| `QuestionBank.MixedLayout` | frontend/src/services/interviewService.js:90-95 | a role's mixed list has ten questions: its first five technical questions, then its first five behavioural ones |
| `QuestionBank.QuestionsFor` | frontend/src/services/interviewService.js:104 | a known (type, role) pair gives its bank list; anything else gives the Software Engineer mixed list; the result always has ten questions |
| `QuestionBank.UnknownLookupFallsBack` | frontend/src/services/interviewService.js:104 | an unknown type, or an unknown role even with a known type, gives the first five technical and first five behavioural Software Engineer questions |
| `Interview.NumQuestions` | frontend/src/services/interviewService.js:107 | 5 exactly for "easy", 10 exactly for "hard", 7 for every other difficulty |
| `Interview.QuestionCountByDifficulty` | frontend/src/services/interviewService.js:104-110 | the selected count, capped by the pool size, is 5, 10 or 7 by difficulty |
| `Interview.ShuffleArray` | frontend/src/services/interviewService.js:285-292 | the result is a permutation of the input: same length, same multiset; the input is a value and is not changed |
| `Interview.SelectQuestions` | frontend/src/services/interviewService.js:110-116 | min(count, pool size) questions; question k gets id k+1, the k-th shuffled text, an empty answer and feedback, and score 0 |
| `Interview.SelectionDrawsFromPool` | frontend/src/services/interviewService.js:110 | the selected texts form a sub-multiset of the pool: no question is asked that is not in the pool, none more often than the pool holds it |
| `Interview.PoolFor` | frontend/src/services/interviewService.js:101-104 | absent config keys take the defaults "mixed" and "Software Engineer" before the lookup; the pool has ten questions |
| `Interview.NewSession` | frontend/src/services/interviewService.js:100-131 | the new session carries the defaulted role, type and difficulty, the selected questions, index 0, status in-progress, overall score 0, no end time and the given id, user and time; it is well-formed |
| `Interview.SessionStore.CreateInterviewSession` | frontend/src/services/interviewService.js:100-135 | the session is built from some permutation of the pool; its question texts are drawn from the pool; the session is saved by upsert; the store invariant is kept |
| `Interview.WordCount` | frontend/src/services/interviewService.js:156 | at least 1; equal to the number of maximal runs of non-white-space characters when there is one; exactly 1 when there is none (a blank answer) |
| `Interview.BlankHasNoWords` | frontend/src/services/interviewService.js:156 | an all-white-space answer has no word |
| `Interview.NonBlankHasWords` | frontend/src/services/interviewService.js:156 | an answer with a non-white-space character has at least one word |
| `Interview.AppendWord` | frontend/src/services/interviewService.js:156 | a white-space separator followed by a non-space character adds exactly one word |
| `Interview.AnswerScore` | frontend/src/services/interviewService.js:156-157 | the score is min(10, floor(wordCount / 10)), so it always lies in [0, 10] |
| `Interview.BlankAnswerScoresZero` | frontend/src/services/interviewService.js:156-157 | an empty or all-white-space answer counts as one word and scores 0 |
| `Interview.GenerateFeedback` | frontend/src/services/interviewService.js:294-304 | each of the four texts is returned exactly on its band: at least 8, [6, 8), [4, 6), below 4 |
| `Interview.Answered` | frontend/src/services/interviewService.js:152-163 | only the answered question changes (answer, score, feedback); its score is in [0, 10]; the index becomes min(questionIndex+1, question count), never past the end; no other field changes |
| `Interview.AnsweredKeepsWellFormed` | frontend/src/services/interviewService.js:152-163 | answering keeps a session well-formed |
| `Interview.SessionStore.SubmitAnswer` | frontend/src/services/interviewService.js:148-167 | an unknown id fails with SessionNotFound and an index naming no question fails with QuestionNotFound; both leave the store unchanged; otherwise the answered session is returned and upserted; the store invariant is kept |
| `Interview.MeanScore` | frontend/src/services/interviewService.js:177-178 | 0 for no questions; otherwise mean × count equals the sum of the question scores |
| `Interview.MeanScoreBounded` | frontend/src/services/interviewService.js:177-178 | question scores in [0, 10] give a mean in [0, 10] |
| `Interview.CompletedSession` | frontend/src/services/interviewService.js:176-182 | status completed, end time set, overall score the mean; questions, index and every other field unchanged |
| `Interview.CompletedKeepsWellFormed` | frontend/src/services/interviewService.js:177-182 | completing a well-formed session gives an overall score in [0, 10] and keeps it well-formed |
| `Interview.SessionStore.CompleteSession` | frontend/src/services/interviewService.js:172-186 | an unknown id fails with SessionNotFound and leaves the store unchanged; otherwise the completed session is returned and upserted; the store invariant is kept |
| `Interview.IndexOfSession` | frontend/src/services/interviewService.js:274 | -1 exactly when no stored session has the id; otherwise the first index holding it |
| `Interview.GetSession` | frontend/src/services/interviewService.js:140-143 | absent exactly when no session has the id; otherwise the session at the first matching index |
| `Interview.Upsert` | frontend/src/services/interviewService.js:272-283 | a present id is replaced at its first index, with the length unchanged and all other entries unchanged; otherwise the session is appended |
| `Interview.UpsertThenGet` | frontend/src/services/interviewService.js:272-283 | after saving, looking up the saved id returns the saved session |
| `Interview.UpsertKeepsOthers` | frontend/src/services/interviewService.js:272-283 | saving does not change the lookup of any other id |
| `Interview.UpsertIdempotent` | frontend/src/services/interviewService.js:272-283 | saving the same session twice equals saving it once |
| `Interview.UpsertKeepsWellFormed` | frontend/src/services/interviewService.js:276-280 | saving a well-formed session into a well-formed list keeps every entry well-formed |
| `Interview.SessionStore.SaveSession` | frontend/src/services/interviewService.js:272-283 | the list becomes the upsert of the old list; the saved session is then found by its id; the store invariant is kept for a well-formed session |
| `Interview.SessionStore.constructor` | frontend/src/services/interviewService.js:264-270 | an unwritten key reads as the empty list, which satisfies the invariant |
| `Interview.InsertByNewest` | frontend/src/services/interviewService.js:211 | inserting adds exactly the one session (a multiset equation) |
| `Interview.InsertKeepsOrder` | frontend/src/services/interviewService.js:211 | inserting into a newest-first list keeps it newest-first |
| `Interview.SortByNewest` | frontend/src/services/interviewService.js:211 | the result is sorted by `createdAt`, descending, and is a permutation of the input |
| `Interview.UserSessions` | frontend/src/services/interviewService.js:195 | only the user's sessions, and all of them |
| `Interview.CompletedOf` | frontend/src/services/interviewService.js:198 | only completed sessions, and all of them |
| `Interview.TopOverall` | frontend/src/services/interviewService.js:206 | an upper bound of every overall score that is itself one of them |
| `Interview.TotalQuestionsIsSum` | frontend/src/services/interviewService.js:204 | the running total of question counts equals the sum of each session's number of questions |
| `Interview.TotalOverallBounds` | frontend/src/services/interviewService.js:202 | overall scores in [0, 10] give a total in [0, 10 × count] |
| `Interview.HistoryStatsOf` | frontend/src/services/interviewService.js:199-208 | `totalSessions` is the completed count; average × count equals the total; top score ≥ every completed score and attained; `totalQuestions` is the sum of the completed sessions' question counts; all zero when none is completed |
| `Interview.GetInterviewHistory` | frontend/src/services/interviewService.js:191-214 | the sessions are the user's sessions, sorted newest first and as a permutation; the statistics are those of their completed subset |
| `Interview.HistoryIsTheUsersSessions` | frontend/src/services/interviewService.js:195-211 | the history holds each of the user's sessions exactly as often as the store does, and nobody else's |
| `Interview.HistoryTopScore` | frontend/src/services/interviewService.js:198-207 | the top score is ≥ the overall score of every completed session of the user; with none it and every other statistic are 0 |
| `Interview.HistoryCountsCompleted` | frontend/src/services/interviewService.js:198-200 | `totalSessions` is 0 exactly when the user has no completed session in the store |
| `Interview.HistoryScoresBounded` | frontend/src/services/interviewService.js:201-207 | over well-formed sessions the average and top score lie in [0, 10] |
| `Seqs.Filter` | frontend/src/services/storageService.js:62 | every kept element is in the input and passes the test; every input element that passes is kept |
| `Seqs.Max` | frontend/src/services/storageService.js:89 | an upper bound of the list that is itself an element |
| `Storage.StampAnalysis` | frontend/src/services/storageService.js:17-22 | the record takes the input's own id if it has one (the spread comes after the generated id), otherwise the generated id; created and updated times are now |
| `Storage.AnalysisStore.SaveAnalysis` | frontend/src/services/storageService.js:15-28 | the new record becomes the head and the old list the tail, so the length grows by one; the other keys are unchanged |
| `Storage.SavedAnalysisIsFound` | frontend/src/services/storageService.js:24-51 | after a save, a lookup by the saved id returns the saved record |
| `Storage.SavedAnalysisIsMostRecent` | frontend/src/services/storageService.js:92-95 | after a save, the recent list starts with the saved record and the total grows by one |
| `Storage.FindAnalysis` | frontend/src/services/storageService.js:49-52 | null exactly when no record has the id; otherwise the first record with the id |
| `Storage.RemoveId` | frontend/src/services/storageService.js:59-64 | no record with the id remains, so a lookup of it gives null; every other record remains |
| `Storage.RemoveIdKeepsOthers` | frontend/src/services/storageService.js:62 | each record without the id is kept exactly as often as it was stored; records with the id are gone |
| `Storage.RemoveIdPreservesOrder` | frontend/src/services/storageService.js:62 | deletion distributes over concatenation, so the kept records stay in their stored order |
| `Storage.RemoveIdIdempotent` | frontend/src/services/storageService.js:59-64 | deleting twice equals deleting once |
| `Storage.AnalysisStore.DeleteAnalysis` | frontend/src/services/storageService.js:59-69 | the list becomes the filtered list and `true` is returned; the other keys are unchanged |
| `Storage.AnalysisStore.ClearAllAnalyses` | frontend/src/services/storageService.js:103-105 | the analysis list reads back empty; the other keys are unchanged |
| `Storage.ScoreOf` | frontend/src/services/storageService.js:87 | a missing `overallScore` counts as 0 |
| `Storage.Scores` | frontend/src/services/storageService.js:87 | one score per record, in order |
| `Storage.RoundedMean` | frontend/src/services/storageService.js:88-93 | `Math.round(sum / n)`: the integer m with m − ½ ≤ sum/n < m + ½ |
| `Storage.BandOf` | frontend/src/services/storageService.js:206-209 | each score is in exactly one band: ≥80 excellent, [60, 80) good, [40, 60) fair, below 40 poor |
| `Storage.DistributionTotal` | frontend/src/services/storageService.js:197-213 | the four band counts sum to the number of scores |
| `Storage.CalculateScoreDistribution` | frontend/src/services/storageService.js:197-213 | the counting loop's result equals the per-band counts of the scores |
| `Storage.GetStatistics` | frontend/src/services/storageService.js:75-98 | empty store: zeros, no recent records, no distribution; otherwise the count, the rounded mean, a top score ≥ every score and attained, the first min(5, n) records, and the distribution of the scores |
| `Storage.StatisticsDistributionCoversAll` | frontend/src/services/storageService.js:87-96 | the distribution in the statistics accounts for every stored analysis |
| `Storage.AnalysisStore.constructor` | frontend/src/services/storageService.js:34-42 | unwritten keys read as an empty list, an empty list and an empty object |
| `Storage.StampHistory` | frontend/src/services/storageService.js:114-118 | the entry takes the input's own id if it has one, otherwise the generated id; created time is now |
| `Storage.AnalysisStore.SaveInterviewSession` | frontend/src/services/storageService.js:112-124 | the entry is prepended to the interview history; the other keys are unchanged |
| `Storage.AnalysisStore.SavePreferences` | frontend/src/services/storageService.js:144-146 | the preferences are replaced; the other keys are unchanged |
| `Storage.AnalysisStore.ExportData` | frontend/src/services/storageService.js:166-173 | the bundle holds the three stored values and the export time |
| `Storage.ApplyImport` | frontend/src/services/storageService.js:179-189 | each key is overwritten exactly when the payload carries it and kept otherwise |
| `Storage.AnalysisStore.ImportData` | frontend/src/services/storageService.js:179-189 | the new state is the import applied to the old state |
| `Storage.ExportImportRoundTrip` | frontend/src/services/storageService.js:166-189 | importing an export restores the exported state, whatever the store held in between |
| `Storage.EmptyImportIsNoop` | frontend/src/services/storageService.js:180-188 | a payload with no keys changes nothing |

## Left out

- Browser storage is not modelled as storage. It becomes class fields. So `JSON.parse`/`JSON.stringify`, quota errors from `setItem`, and the `catch` branches that turn an unreadable key into `[]` or `{}` are not modelled (interviewService.js:255-270, storageService.js:34-42, 130-138, 152-160).
- `Interview.SessionStore.SubmitAnswer`, `Interview.SessionStore.CompleteSession` and `Interview.SessionStore.CreateInterviewSession` promise the well-formedness invariant only when it held before (`old(Valid()) ==> Valid()`). Data written into the same key by other means is not guaranteed to satisfy it.
- `Storage.AnalysisStore.DeleteAnalysis`: always returns `true`, because a failing write is not modelled (the `false` branch at storageService.js:65-68).
- `Storage.RoundedMean`: exact for integer scores. Non-integer `overallScore` values and IEEE rounding are not modelled.
- `Interview.MeanScore`: the average is an exact real, not a double.
- `Interview.HistoryStatsOf`: the same applies to its average, which is an exact real.
- Time and ids are parameters, not clock reads: `Date.now()`, `new Date().toISOString()` and `generateId`. Timestamps are integers, and the sort compares them directly. The source reads the clock twice for `startTime` and `createdAt` (interviewService.js:127, 130), and `saveAnalysis` reads it twice for `createdAt` and `updatedAt` (storageService.js:20-21); `Interview.NewSession` and `Storage.StampAnalysis` give each pair the same instant `now`.
- `Math.random` is an arbitrary choice; its distribution is not modelled.
- `Interview.SortByNewest`: `Array.prototype.sort` is stable. The model's insertion sort places a session ahead of equal-time sessions, which is stable too, but stability is not proved. Invalid dates (NaN comparisons) cannot arise with integer timestamps.
- `Signup.ValidateForm`: JavaScript's `length` counts UTF-16 code units. The model counts Unicode scalar values, so passwords with characters outside the Basic Multilingual Plane are measured differently.
- `Signup.PasswordStrength`: the same length difference applies here.
- `QuestionBank.QuestionsFor`: a lookup sees only the bank's own keys. Keys that JavaScript finds through the prototype chain (a type named `constructor` or `__proto__`, a role named `constructor` or `toString`) are not modelled. Depending on the value found, the source then falls back to the Software Engineer mixed list, throws, or takes an inherited value as the question list: with type `constructor` and role `name` it finds the string "Object" and spreads it into six one-letter questions.
- `Interview.SessionStore.SubmitAnswer`: the question index is an integer. JavaScript's coercion of string or fractional indices is not modelled.
- `Storage.ApplyImport`: payload keys are present or absent. A key holding a falsy value (`null`, `0`, `""`, `false`) is skipped by the source's truthiness test; that is the same as absent here. Arrays and objects are always truthy, even when empty.
- `getPreparationTips` and `getRoleSpecificTips` return static text tables and are left out.
- `getCurrentUserId` reads the signed-in user from storage; the user id is a parameter instead.
- `getAnalyses`, `getInterviewHistory` (storage service) and `getPreferences` are reads of the corresponding field.
- The resume scoring engine (`analyzeResume` and its category analyzers) is not modelled.
- These files are not part of this model: page rendering and HTTP fetches (`Dashboard.jsx`), authentication state (`AuthContext.jsx`), routing (`App.jsx`), the HTTP client (`config/api.js`) and build configuration (`vite.config.js`).
