# TTRPG player-profile quiz, modelled in Dafny

The repository holds two variants of a React quiz component. Each asks a fixed catalogue of multiple-choice questions, three per axis. It records one answer per question as `{axis, score}`, where `score` is the chosen option's 1-based position. When the last question is answered, it computes a profile: one `{axis, value}` entry per axis, in the fixed axis order.

- **Profile variant** (`src/App.jsx`):
  - 13 axes and 39 questions, with ids `i * 10 + j + 1`.
  - Every axis is scored by the rounded mean of its scores, except "Play Potential". That axis is scored by a decision table over its second and third answers.
  - Answers are written into the slot of the current question, so the Back button can step back and re-answer.
  - A start screen can load a pasted, encoded answer list straight into the profile.
- **Classic variant** (`ttrpg-quiz/src/App.jsx`):
  - 11 axes and 33 questions, with ids `i * 3 + j + 1`.
  - Running totals and counts per axis give a rounded mean for every axis, with no special case.
  - Answers are only appended, and the quiz starts at question 0.

The model has the same layers in both variants:

- **`Survey`** (`survey.dfy`) is shared by both variants. It holds:
  - the answer and question values;
  - the flattening of a per-axis template table into the question list;
  - the grouping of scores by axis (`Scores`, the list `grouped[axis]`, and also the scores behind `totals[axis]` and `counts[axis]`);
  - `Math.round(total / count)` computed exactly on integers (`RoundedQuotient`, `MeanValue`).
- **Scoring.** `ProfileScoring` and `ClassicScoring` define the profile as a function, `Profile`. `analyzeResults` is an imperative method, `AnalyzeResults`. It fills a map in loops, as the source does, and is proved equal to `Profile`. The lemmas about `Profile` state the promised properties.
- **Catalogue.** `ProfileCatalog` and `ClassicCatalog` hold:
  - the template tables, with the source's texts and options;
  - `Questions`, the flattened list, with its layout and ids proved.
- **Session.** `ProfileSession` and `ClassicSession` define:
  - the component state as a `Session` value;
  - the event handlers as transition functions;
  - `Consistent`, the invariant every transition keeps except the import as written (`StartAsWritten`). When the profile is shown, `Consistent` requires it to be the analysis of the stored answers. `StartAsWritten` breaking it is the finding below; `Start` is the corrected import.
- **App.** `ProfileApp` and `ClassicApp` hold the component as a `class App`. Its fields are the state variables. Its methods update them in place, and each method is proved to produce exactly the state of its transition function. In the profile variant, `StartQuiz` follows the corrected `Start`, not the import as written.

JavaScript semantics written out explicitly:

- **`Math.round(t / c)`.** For integers this is `(2t + c) div (2c)` with floor division, which rounds halves up. The `|| 1` guard makes an empty group score 0.
- **`undefined` comparisons.** `undefined > 2` and `undefined <= 2` are both false. So a Play Potential group missing its second answer, or missing its third when the second is above 2, keeps the initial value 0. The value is always one of 0, 1, 2 and 5.
- **Unknown axes, profile variant.** `grouped[axis].push` throws for an axis outside `axes`. `Profile` and `AnalyzeResults` therefore require `KnownAxes`. `startQuiz`, which can feed arbitrary imported answers to `analyzeResults`, reports a fault instead.
- **Unknown axes, classic variant.** For an axis outside `axes` that is not an own or inherited property of the object, `totals[axis] += score` writes NaN (`undefined + score`) under a key that the final `axes.map` never reads. The maps hold `Option<int>` with `None` for NaN, and `ProfileIgnoresUnknownAxes` proves that such answers never change the profile.

Two cases where the code does something other than what one might expect:

- **Unknown axis, profile variant.** An answer on an axis outside `axes` is not ignored: `grouped[axis].push` throws (src/App.jsx:114).
- **Missing Play Potential answer.** It scores 0, because both `undefined > 2` and `undefined <= 2` are false (src/App.jsx:118-122).

## Model

| member | source | states |
|---|---|---|
| Survey.FlattenTriples | src/App.jsx:93-100 | flattening a table of three templates per axis puts template `k % 3` of axis `k / 3` at position `k`, with id `(k / 3) * stride + k % 3 + 1`, and yields three questions per axis |
| Survey.RoundedQuotient | src/App.jsx:125-126 | the result `r` is the integer nearest to `total / count` with halves rounded up: `2·count·r <= 2·total + count < 2·count·(r + 1)` |
| Survey.RoundedQuotientUnique | src/App.jsx:125-126 | that condition determines the rounded value uniquely, so any integer meeting it is the result of `Math.round` |
| Survey.MeanValue | src/App.jsx:125-126 | the value of a group is its rounded mean, and 0 for an empty group (the `|| 1` guard) |
| Survey.RoundedMeanInRange | src/App.jsx:125-126 | a non-empty group of scores within `[lo, hi]` has a rounded mean within `[lo, hi]` |
| Survey.MeanPermutation | ttrpg-quiz/src/App.jsx:101-107 | the rounded mean depends only on the multiset of scores |
| Survey.GroupStep | src/App.jsx:114 | recording one more answer appends its score to its own axis's group and to no other, and adds it to that group's sum |
| Survey.ScoresPermutation | ttrpg-quiz/src/App.jsx:101-104 | reordering the answers reorders each axis's group: the multisets of scores per axis are unchanged |
| Survey.ScoresOfTriples | src/App.jsx:113-114 | when answer `k` carries the axis of question `k` (three consecutive questions per distinct axis), the group of axis `i` is exactly the scores of answers `3i`, `3i+1`, `3i+2`, in that order |
| ProfileScoring.AxesDistinct | src/App.jsx:13-18 | no axis is listed twice |
| ProfileScoring.PlayPotentialValue | src/App.jsx:117-123 | with three or more scores: 5 when desired and available are both above 2, 2 when only desired is, 1 when desired is at most 2. With two scores: 1 when desired is at most 2, else 0. With fewer: 0. The value is always one of 0, 1, 2, 5 |
| ProfileScoring.Profile | src/App.jsx:116-127 | one entry per axis, 13 in the order of `axes`, and the Play Potential entry is the decision table applied to that axis's scores in recorded order |
| ProfileScoring.ProfileMean | src/App.jsx:125-126 | every axis other than Play Potential carries the rounded mean of its scores, 0 when it has none |
| ProfileScoring.GroupedStep | src/App.jsx:114 | pushing answer `j` onto `grouped[axis]` keeps `grouped` equal to the grouping of the answers so far, with exactly the axes as keys |
| ProfileScoring.AnalyzeResults | src/App.jsx:111-128 | the loops that fill `grouped` with empty lists, push every score, and map the axes to their values compute exactly `Profile(answers)` |
| ProfileScoring.ProfileReorder | src/App.jsx:113-127 | any reordering of the answers that keeps the Play Potential answers in their relative order gives the same profile |
| ProfileScoring.PlayPotentialIsPositional | src/App.jsx:117-122 | the Play Potential answers are positional: swapping the first two of [1, 5, 5] turns 5 into 1 |
| ProfileScoring.CatalogAxesKnown | src/App.jsx:113-114 | answers that follow the catalogue name only axes in `axes`, so `analyzeResults` does not fault on them |
| ProfileScoring.CompletedGroup | src/App.jsx:93-100 | in a completed questionnaire every axis has exactly three scores, each in 1..5 |
| ProfileScoring.CompletedProfileInRange | src/App.jsx:116-127 | a completed questionnaire gives every mean axis a value in 1..5 and Play Potential one of 1, 2, 5, never 0 |
| ProfileCatalog.TemplatesShape | src/App.jsx:25-91 | the template table lists the 13 axes in the order of `axes`, three templates each, five options per template |
| ProfileCatalog.Questions | src/App.jsx:93-100 | 39 questions; question `k` is on axis `axes[k / 3]` with id `(k / 3) * 10 + k % 3 + 1` and five options |
| ProfileCatalog.QuestionIdsIncreasing | src/App.jsx:95 | ids strictly increase along the catalogue, so no two questions share one |
| ProfileSession.InitialConsistent | src/App.jsx:131-133 | the initial state, question -1 with no answers and no profile, is the start screen and is consistent |
| ProfileSession.Write | src/App.jsx:162-163 | writing slot `k` of a copy sets that slot, leaves every other slot as it was, and extends the list only when `k` is its length |
| ProfileSession.Answered | src/App.jsx:160-170 | answering records `index + 1` for the current question's axis in the current slot; it then advances by one, or on the last question shows `analyzeResults` of the new answers; the state stays consistent |
| ProfileSession.Back | src/App.jsx:306-313 | offered only when `currentQuestion > 0`; steps back exactly one question and leaves the answers as they are |
| ProfileSession.BackThenAnswerOverwrites | src/App.jsx:160-170 | going back and answering again overwrites that question's slot: the number of answers and every other answer are unchanged |
| ProfileSession.Start | src/App.jsx:151-158 | a decoded list goes straight to its profile and is stored as it is, so the stored answers are exactly the decoded list; it faults exactly when an answer names an unknown axis; anything else (null, a non-array) starts the questions at 0 with no answers |
| ProfileSession.StartAsWritten | src/App.jsx:151-158 | as written, the import path leaves the stored answers empty |
| ProfileSession.ImportAsWrittenLosesAnswers | src/App.jsx:151-158 | as written, importing one Storytelling answer shows its score as the Storytelling value, while the stored answers are empty, analyse to 0, and do not match the profile shown |
| ProfileSession.AnswerInOrder | src/App.jsx:160-170 | answering question after question keeps the state consistent, stays on the question screen for the first 38 answers, and shows the profile after the 39th |
| ProfileSession.AnswersInOrderRecorded | src/App.jsx:160-170 | answering in order stores choice `k` as score `choices[k] + 1` on axis `axes[k / 3]` in slot `k` |
| ProfileSession.CompletingTheQuiz | src/App.jsx:160-170 | the profile appears only after the 39th answer, with every mean axis in 1..5 and Play Potential one of 1, 2, 5 |
| ProfileApp.App.constructor | src/App.jsx:131-133 | the component starts on the start screen: question -1, no answers, no profile |
| ProfileApp.App.StartQuiz | src/App.jsx:151-158 | updates the fields to the state `Start` gives, or reports the fault and leaves them unchanged |
| ProfileApp.App.HandleAnswer | src/App.jsx:160-170 | updates the fields to the state `Answered` gives |
| ProfileApp.App.GoBack | src/App.jsx:306-313 | updates the fields to the state `Back` gives |
| ProfileScoring.AnsweredAxisInRange | src/App.jsx:125-126 | with every score in 1..5, a mean axis (any but Play Potential) with at least one answer gets a value in 1..5 |
| ClassicScoring.AxesDistinct | ttrpg-quiz/src/App.jsx:13-25 | no axis is listed twice |
| ClassicScoring.AddTo | ttrpg-quiz/src/App.jsx:102-103 | `m[key] += d` adds `d` to a number and gives NaN for a missing key or NaN; every other key is untouched |
| ClassicScoring.Profile | ttrpg-quiz/src/App.jsx:105-108 | one entry per axis, 11 in the order of `axes` |
| ClassicScoring.ProfileMean | ttrpg-quiz/src/App.jsx:105-108 | every axis, Play Frequency included, carries the rounded mean of its scores, 0 when it has none |
| ClassicScoring.TallyStep | ttrpg-quiz/src/App.jsx:101-104 | adding answer `j` to `totals` and `counts` keeps them equal to the sum and the number of each axis's scores so far |
| ClassicScoring.AnalyzeResults | ttrpg-quiz/src/App.jsx:94-109 | the loops that zero `totals` and `counts`, tally every answer, and map the axes to `Math.round(total / (count || 1))` compute exactly `Profile(answers)` |
| ClassicScoring.ProfileOrderIndependent | ttrpg-quiz/src/App.jsx:101-104 | answers that are a reordering of each other give the same profile |
| ClassicScoring.ScoresKnownOnly | ttrpg-quiz/src/App.jsx:101-108 | dropping the answers on unknown axes leaves every axis's group unchanged |
| ClassicScoring.ProfileIgnoresUnknownAxes | ttrpg-quiz/src/App.jsx:101-108 | answers on axes outside `axes` never change the profile |
| ClassicScoring.AnsweredAxisInRange | ttrpg-quiz/src/App.jsx:107 | with every score in 1..5, an axis with at least one answer gets a value in 1..5 |
| ClassicScoring.CompletedProfileInRange | ttrpg-quiz/src/App.jsx:105-108 | a completed questionnaire gives all 11 axes, Play Frequency included, a value in 1..5 |
| ClassicCatalog.TemplatesShape | ttrpg-quiz/src/App.jsx:27-83 | the template table lists the 11 axes in the order of `axes`, three texts each |
| ClassicCatalog.Questions | ttrpg-quiz/src/App.jsx:85-92 | 33 questions in axis order; question `k` is on axis `axes[k / 3]` with id `k + 1` and the five common options |
| ClassicCatalog.QuestionIdsExact | ttrpg-quiz/src/App.jsx:87 | the ids are exactly 1..33, with no gaps and no repeats |
| ClassicSession.InitialConsistent | ttrpg-quiz/src/App.jsx:112-114 | the initial state, question 0 with no answers and no profile, is consistent |
| ClassicSession.Answered | ttrpg-quiz/src/App.jsx:116-125 | answering appends exactly one answer, `index + 1` on the current question's axis, and keeps the earlier ones; it then advances by one, or on the last question shows the profile of the new answers |
| ClassicSession.AnswerInOrder | ttrpg-quiz/src/App.jsx:116-125 | answering question after question keeps the state consistent and shows the profile only after the 33rd answer |
| ClassicSession.AnswersInOrderRecorded | ttrpg-quiz/src/App.jsx:116-125 | answering in order records choice `k` as score `choices[k] + 1` on axis `axes[k / 3]` at position `k` |
| ClassicSession.CompletingTheQuiz | ttrpg-quiz/src/App.jsx:116-125 | the profile appears only after the 33rd answer, with every axis in 1..5 |
| ClassicApp.App.constructor | ttrpg-quiz/src/App.jsx:112-114 | the component starts at question 0 with no answers and no profile |
| ClassicApp.App.HandleAnswer | ttrpg-quiz/src/App.jsx:116-125 | updates the fields to the state `Answered` gives |

## Left out

- **Rendering.** The JSX markup, framer-motion and the recharts radar chart are not modelled. They are presentation only. The model keeps just the conditions under which the buttons are shown (`OnStartScreen`, `Asking`, `BackOffered`), which become preconditions of the handlers.
- **Wave mode.** The `setInterval` timer and its sine-wave distortion of the displayed profile (src/App.jsx:140-146, 204-206) are not modelled. They are a cosmetic timer and floating-point trigonometry that never reach the stored profile.
- **Decoding.** `btoa`, `atob`, `JSON.stringify` and `JSON.parse` are not modelled, and neither is `encodeAnswers` (src/App.jsx:102). Decoding is the abstract value `Decoded`:
  - `Unreadable` when decoding throws and returns null;
  - `NotAList` for any other non-array;
  - `List` for an array of answers.
- **Malformed array elements.** Array elements that are not `{axis, score}` records are not modelled. A decoded list is a list of answers.
- **Floating point.** Division and `Math.round` are modelled exactly on integers. For the small totals and counts a questionnaire produces, this matches the floating-point result: a tie lands exactly on `.5`, and any other quotient is at least `1 / (2·count)` away from one, far more than the rounding error of a double.
- **Display-only state.** `progressPercent` (src/App.jsx:149), the player-name input, the import text field, the debug table and `document.body` class changes are not modelled. None of them affects the answers or the profile.
- **ClassicScoring.AnalyzeResults: NaN entries.** The map entries for unknown axes hold `None` in place of NaN, and their contents are not tracked. The final map never reads them, as `ProfileIgnoresUnknownAxes` shows.
- **ProfileApp.App.StartQuiz: corrected import.** It stores the imported answers (`answers := items`) along with their profile. The program's `startQuiz` (src/App.jsx:151-158) never calls `setAnswers`, so after an import it keeps `answers == []`. That as-written behaviour is modelled by `ProfileSession.StartAsWritten` and shown in the Findings row, not by the class.
- **ClassicScoring.AddTo: inherited keys.** An unknown axis that names an inherited property of a JavaScript object, such as "toString", makes `+=` concatenate strings instead of giving NaN. This is not modelled. The profile is unaffected either way, since `axes.map` never reads such a key, and the classic variant has no import through which such an axis could arrive.
- **ProfileSession.StartAsWritten: weak contract.** It states only that the stored answers stay empty. It exists to exhibit the finding below, and the rest of the model uses `Start`.
- **Classic import and Back.** There is no import and no Back step in the classic variant, so neither is modelled there.

## Findings

| source | as written | input that shows it | evidently intended | confidence | as-written member | corrected member |
|---|---|---|---|---|---|---|
| src/App.jsx:151-158 | the import path sets `profile` from the decoded answers but never stores them, so `answers` stays `[]`; the result code (`encodeAnswers(answers)`) and the debug table then describe an empty questionnaire, not the profile shown | a pasted string that decodes to `[{"axis":"Storytelling","score":4}]`: Storytelling is shown as 4, but the stored answers are empty and analyse to 0 | the imported answers are stored with the profile, so the shown profile is the analysis of the stored answers and the result code reproduces it | medium, not executed | ProfileSession.ImportAsWrittenLosesAnswers | ProfileSession.Start |
