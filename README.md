# HSP / Slow Processor questionnaire: answer store, score and profile

A Dafny model of the logic inside the single-page questionnaire app
(`app.py`). The page asks 20 statements, each answered by pressing one of
five buttons ("Aldrig", "Sjældent", "Nogle gange", "Ofte", "Altid"). The
button positions 0..4 are kept in a per-session answer list. Unanswered
statements count as 0, the total (0..80) is classified as "Slow Processor",
"Mellemprofil" or "HSP" at the thresholds 26 and 53, and the profile's six
description lines are shown on screen and written into a PDF report together
with the label of every answer.

The middle profile is named `Mellemprofil` in the model, because that is
the label the code returns and uses as the key of its description table.

Modules:

- `Wrappers` (wrappers.dfy): the `Option` type of an answer slot.
- `Scoring` (scoring.dfy): answers, `Normalize` (`None` becomes 0), `Score`
  (the sum), and lemmas about the sum: its bounds, how one answer changes it,
  that unanswered counts as answered 0, and an independent reading of it by
  counting each answer value.
- `Profiles` (profiles.dfy): the `Profile` type, `InterpretScore`, the
  `ProfileText` table and its lookup `Description`.
- `Report` (report.dfy): the answer labels and the data that the result
  section and the PDF consume (`MakeResult`), with the three example
  answer lists.
- `Session` (session.dfy): the class `AnswerStore`. It holds the session's
  answer list as an array of 20 optional answers. Its methods are the first
  run's initialisation, `SetAnswer`, `Reset` and the read-only `CurrentResult`.
  `Valid()` is the invariant that there are 20 slots and each is unanswered
  or in 0..4.

## Model

| member | source | states |
|---|---|---|
| `Scoring.Normalize` | app.py:178 | an unanswered slot becomes 0 and a given answer is kept as it is, so an answer the buttons can produce normalizes into 0..4 |
| `Scoring.Score` | app.py:178-179 | when every slot is unanswered or in 0..4, the total lies between 0 and 4 per slot, so 0..80 for 20 slots |
| `Scoring.ScoreOfFilled` | app.py:178 | answering every unanswered slot explicitly 0 leaves no unanswered slot, keeps every given answer, and yields the same score |
| `Scoring.ScoreAfterSet` | app.py:128-129 | answering slot i with v changes the total by exactly v minus the slot's previous normalized value |
| `Scoring.ScoreByCounts` | app.py:178-179 | the score equals 1·(#answers 1) + 2·(#answers 2) + 3·(#answers 3) + 4·(#answers 4) |
| `Scoring.CountsPartition` | app.py:143-162 | every slot is unanswered or holds exactly one of the five button positions: the six counts add up to the number of slots |
| `Scoring.ScoreOfUnanswered` | app.py:124-125 | an all-unanswered list of any length scores 0 and all of its slots are unanswered |
| `Profiles.InterpretScore` | app.py:181-187 | total over all integers; Slow Processor exactly when score ≤ 26, Mellemprofil exactly when 27 ≤ score ≤ 53, HSP exactly when score ≥ 54 |
| `Profiles.InterpretMonotone` | app.py:181-187 | a higher score never gives a lower profile in the order Slow Processor < Mellemprofil < HSP, and a strictly higher profile implies a strictly higher score |
| `Profiles.InterpretBoundaries` | app.py:181-187 | 0 and 26 give Slow Processor, 27 and 53 give Mellemprofil, 54 and 80 give HSP |
| `Profiles.Description` | app.py:197-224 | the label of every profile is a key of the description table, and its entry has six lines |
| `Profiles.ProfileTextKeys` | app.py:197-222 | the table's keys are exactly the three labels `interpret_score` returns, and distinct profiles have distinct labels |
| `Profiles.DescriptionsDiffer` | app.py:197-222 | distinct profiles get distinct descriptions |
| `Report.AnswerLabelsOnePerButton` | app.py:119 | `labels` has five entries, one per answer button, all distinct |
| `Report.AnswerLabel` | app.py:246 | the label of an in-range answer is an entry of `labels` whose position is the normalized answer, so an unanswered statement is reported as "Aldrig" |
| `Report.MakeResult` | app.py:178-246 | for a valid answer list: the score is the sum of the normalized answers and lies in 0..80, the profile is the classification of that score, the description is that profile's six-line table entry, and 20 answer labels each reading back as the normalized answer of its statement |
| `Report.ResultOfUnanswered` | app.py:171-187 | nothing answered: score 0, Slow Processor, every answer reported as "Aldrig" |
| `Report.ResultOfAllAltid` | app.py:179-205 | every statement answered "Altid": score 80, HSP, and the HSP description |
| `Report.ResultOfMixedExample` | app.py:178-185 | ten answers 2 followed by ten answers 1 score 30, classified Mellemprofil |
| `Session.AnswerStore.constructor` | app.py:124-125 | the session starts with 20 unanswered slots, score 0 and profile Slow Processor |
| `Session.AnswerStore.SetAnswer` | app.py:128-129 | slot i now holds the pressed button's position, every other slot is unchanged, the length stays 20, the invariant is kept, and the score moves by the difference |
| `Session.AnswerStore.Reset` | app.py:171-172 | whatever the list held, it is replaced by a new list of 20 unanswered slots, so the score is 0 and the profile Slow Processor; resetting again gives the same state |
| `Session.AnswerStore.CurrentResult` | app.py:178-194 | returns the result of the current answers: their score (in 0..80), its profile, that profile's six description lines and the answer labels |

## Left out

- Page setup, CSS, logo, title, the question and button rendering and the version/timestamp banner (app.py:12-92, 138-165, 191-196): presentation and wall-clock I/O.
- The PDF layout and bytes (ReportLab document, paragraphs, `BytesIO`, the download button, app.py:230-256): only the data written into the PDF is modelled, by `Report.MakeResult`.
- The text of the 20 statements and of the description sentences: the model keeps their number and order only; the description lines are placeholders naming their profile and position. The profile labels and the answer labels are kept verbatim because they are lookup keys and report output.
- Streamlit's reruns and session mechanics: the `if "answers" not in st.session_state` guard is modelled as the constructor (the first run); later runs reuse the same `AnswerStore`.
- `Session.AnswerStore.SetAnswer`: requires a statement index below 20 and a value 0..4, because its only caller is the button loop, which passes the statement's `enumerate` index and a button position 0..4 (app.py:138-162); Python's negative indices and `IndexError` on other indices are therefore not modelled.
- `Report.AnswerLabel` and `Report.MakeResult`: require answers in 0..4, which the store's invariant guarantees; Python's wrap-around for negative list indices never arises and is not modelled.
