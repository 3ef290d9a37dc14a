# IELTS preparation tracker: band estimator, history and state reducers

This project models the domain logic of the tracker's single React component
(`src/features/speaking/Speaking.jsx`). That logic has three parts:

- the **band estimator**: a per-skill weighted sum of criterion ratings, quantised to
  quarter bands, and the overall band, which is the capped mean of the four skill bands;
- the **progress history**: dated snapshots of the bands, most recent first, cut to
  365 entries;
- the **state reducers** behind the event handlers: adding, toggling and removing tasks;
  moving a rating slider; marking favourite tips; adding writing tasks and updating
  their responses; importing and exporting the persisted fields; clearing everything;
  and the countdown timer's tick.

Three modules:

- `Bands` (`bands.dfy`): the weight table, the estimator and its reference sum, rounding,
  the overall band, the default assessment and the rating update.
- `Progress` (`progress.dfy`): the pure list and record transformations. These are
  trim, filter and map, tasks, favourites, writing tasks, snapshots and history, the
  export payload, the import merge and the timer tick.
- `Tracker` (`tracker.dfy`): the class `AppState`. Its fields are the component's state
  slices. Each event handler is a method whose contract ties the new value of the slices
  it sets to the reducer in `Progress` or `Bands`, and whose `modifies` clause names only
  those slices.

The arithmetic is exact. A rating or skill band is an integer number of quarter bands,
because the sliders step by 0.25. A weight is an integer number of hundredths. The
overall band is an integer number of sixteenths, because it is the mean of four quarter
values.

Under this encoding, `Math.round(score * 4)` is `(S + 50) div 100`, where `S` is the sum of
rating × weight. ECMAScript's `Math.round(x)` is `floor(x + 1/2)` for every real `x`, so
this holds for negative sums as well. `Bands.QuantiseIsMathRound`, `Bands.RealScoreScaled`
and `Bands.BandIsSourceFormula` prove that the integer computation equals the source's
real-valued formula for every entry whose keys are all criteria of the skill. The
reference sum runs over the weight table's criteria, so it ignores any other key, where
the source's loop yields `NaN`; the estimator's `Bands.KeysKnown` precondition keeps such
entries out.

The estimator is the method `Bands.EstimateOverallBand`. Like the source, it loops over the
assessment entry's own keys, in an arbitrary order. Whatever the order, it returns
`Bands.SkillBand`, the reference sum over the weight table's fixed ordered list of
criteria.

Four behaviours of the code shape the model:

- **A present entry that lacks a criterion.** The estimator iterates over the entry's
  keys, not over the weight table's. A missing criterion therefore contributes 0, and
  no failure is raised (`Bands.MissingCriterionCountsZero`).
- **A key that is not in the weight table.** Such a key would be multiplied by an
  undefined weight. The estimator and the snapshot therefore require every key of a
  present entry to be known (`Bands.KeysKnown`).
- **The 365-entry cap.** Importing a document replaces the history as it stands, with
  no cap. A history can therefore hold more than 365 entries until the next snapshot
  cuts an over-long imported history back to its 365 most recent entries.
  `Progress.HistoryIsMostRecentFirst` holds for a history of at most 365 entries, and
  for a history of any length once at least one snapshot is saved.
- **Truthiness on import and load.** An imported or stored name that is the empty
  string is not applied. Neither is a target band of 0. A list or record is applied
  whenever it is present, even when empty. So an export followed by an import into the
  default state reproduces the state exactly when the target band is not 0
  (`Progress.ExportImportRoundTrip`).

Inputs that the component gets from the browser become parameters:

- the task and writing-task ids (`Date.now()`);
- the creation timestamps and the snapshot's calendar date;
- the confirmation dialog's answer;
- the already-parsed import document. `None` stands for text that does not parse or that
  parses to `null`; both end in the "Invalid file." path with nothing changed. Any other
  parsed value that is not an object is a document with every field absent.

## Model

| member | source | states |
|---|---|---|
| `Bands.Weights` | src/features/speaking/Speaking.jsx:157-162 | the weight table: every weight is positive (`Bands.WeightsPositive`), and each skill's four weights total 1 (`Bands.WeightsSumToOne`) |
| `Bands.WeightsPositive` | src/features/speaking/Speaking.jsx:157-162 | every weight in the table is positive |
| `Bands.Criteria` | src/features/speaking/Speaking.jsx:157-162 | each skill has four distinct criteria, exactly the keys of its weight table |
| `Bands.WeightsSumToOne` | src/features/speaking/Speaking.jsx:157-162 | every skill's weights sum to 1 (100 hundredths) |
| `Bands.Quantise` | src/features/speaking/Speaking.jsx:169 | the result is the nearest quarter band to the sum, ties upwards |
| `Bands.JsRound` | src/features/speaking/Speaking.jsx:169 | Math.round: the nearest integer, ties towards +infinity |
| `Bands.EstimateOverallBand` | src/features/speaking/Speaking.jsx:153-170 | iterating over the entry's keys in any order gives the reference band; 0 without an entry |
| `Bands.SumOverInsert` | src/features/speaking/Speaking.jsx:164-167 | adding one criterion to the entry adds exactly rating × weight to the weighted sum |
| `Bands.RealScoreScaled` | src/features/speaking/Speaking.jsx:164-167 | the real score with ratings q/4 and weights w/100, times 400, equals the integer weighted sum |
| `Bands.SkillBand` | src/features/speaking/Speaking.jsx:153-170 | the reference estimate; for an entry whose keys are all criteria it equals the source's Math.round(score * 4) (`Bands.BandIsSourceFormula`), and it ignores any other key, which the source turns into `NaN`; it is 0 without an entry (`Bands.AbsentSkillIsZero`), lies in [0, 9] (`Bands.BandInRange`) and is what the key-walking loop computes (`Bands.EstimateOverallBand`) |
| `Bands.QuantiseIsMathRound` | src/features/speaking/Speaking.jsx:169 | integer quantisation equals Math.round of the sum divided by 100 |
| `Bands.BandIsSourceFormula` | src/features/speaking/Speaking.jsx:164-169 | the band in quarters is Math.round(score * 4) for the source's real-valued score |
| `Bands.AbsentSkillIsZero` | src/features/speaking/Speaking.jsx:154-155 | a skill without an entry estimates to 0, with no precondition |
| `Bands.SumOverBounds` | src/features/speaking/Speaking.jsx:164-167 | with ratings in [0, 9] the weighted sum lies between 0 and 9 × the weight total |
| `Bands.BandInRange` | src/features/speaking/Speaking.jsx:157-169 | with ratings in [0, 9] and any subset of criteria, the band is a whole number of quarters in [0, 9] |
| `Bands.UniformRatingIsBand` | src/features/speaking/Speaking.jsx:164-169 | the same rating r on all four criteria gives exactly r |
| `Bands.MissingCriterionCountsZero` | src/features/speaking/Speaking.jsx:164-167 | removing a criterion from the entry gives the same band as setting it to 0 |
| `Bands.SumOverMonotone` | src/features/speaking/Speaking.jsx:164-167 | raising one rating never lowers the weighted sum |
| `Bands.RatingMonotone` | src/features/speaking/Speaking.jsx:641-644 | raising one slider never lowers that skill's band |
| `Bands.OverallBand` | src/features/speaking/Speaking.jsx:177-180 | the overall band never exceeds 9; it is the plain sum in sixteenths (the mean) below the cap and 9 at or above it |
| `Bands.OverallIsSourceFormula` | src/features/speaking/Speaking.jsx:177-180 | in sixteenths it equals Math.min(mean of the four real bands, 9), with no further rounding |
| `Bands.OverallCapUnreachable` | src/features/speaking/Speaking.jsx:171-180 | for a well-formed assessment the cap never engages and the overall band lies in [0, 9] |
| `Bands.Overall` | src/features/speaking/Speaking.jsx:172-180 | the overall band of an assessment: the capped mean of the four reference estimates, which for a well-formed assessment is never capped (`Bands.OverallCapUnreachable`) |
| `Bands.DefaultAssessment` | src/features/speaking/Speaking.jsx:21-26 | every criterion of every skill at 6; well formed, with every band and the overall band 6 (`Bands.DefaultBands`) |
| `Bands.DefaultBands` | src/features/speaking/Speaking.jsx:21-26 | the default assessment is well formed, every skill estimates to 6 and so does the overall band |
| `Bands.WithRating` | src/features/speaking/Speaking.jsx:641-644 | the slider update sets exactly that criterion of that skill; every other criterion and skill is unchanged |
| `Bands.RatingPreservesWellFormed` | src/features/speaking/Speaking.jsx:636-644 | a slider value in [0, 9] on a known criterion keeps the store well formed and leaves other skills' bands unchanged |
| `Bands.WorkedExamples` | src/features/speaking/Speaking.jsx:153-170 | uniform 6 in speaking gives 6; a missing reading entry gives 0 |
| `Bands.WritingExample` | src/features/speaking/Speaking.jsx:153-170 | writing 9/9/0/0 (weights 0.3/0.4/0.2/0.1) gives a weighted sum of 2520 quarter-hundredths, that is 6.3 before rounding, and 25 quarters, that is 6.25, after |
| `Progress.Filter` | src/features/speaking/Speaking.jsx:150 | filter keeps exactly the elements that satisfy the predicate |
| `Progress.FilterAppend` | src/features/speaking/Speaking.jsx:150 | filter acts on the two halves of a list separately, so kept elements keep their order |
| `Progress.FilterKeepsAll` | src/features/speaking/Speaking.jsx:150 | filter returns a list unchanged when every element is kept |
| `Progress.FilterDistinct` | src/features/speaking/Speaking.jsx:195 | filtering a list without duplicates gives a list without duplicates |
| `Progress.MapSeq` | src/features/speaking/Speaking.jsx:146 | map keeps the length and applies the function at every position |
| `Progress.LeadingRun` | src/features/speaking/Speaking.jsx:139 | the count is the length of the leading run of characters of the kind: all of them are of the kind and the next is not |
| `Progress.TrailingRun` | src/features/speaking/Speaking.jsx:139 | the start of the trailing run of characters of the kind: everything from there is of the kind and the character before is not |
| `Progress.Trim` | src/features/speaking/Speaking.jsx:139-140 | the result is empty exactly for blank input, starts and ends with visible characters, and only white space is cut from either side |
| `Progress.TrimIdempotent` | src/features/speaking/Speaking.jsx:139-140 | trimming twice is trimming once |
| `Progress.AddedTask` | src/features/speaking/Speaking.jsx:138-143 | blank input adds nothing; otherwise one task with the trimmed text, not done, goes in front |
| `Progress.Toggled` | src/features/speaking/Speaking.jsx:145-147 | length and order are kept; only tasks with the id flip done; ids, texts and timestamps are unchanged |
| `Progress.ToggleTwice` | src/features/speaking/Speaking.jsx:145-147 | toggling the same id twice restores the list |
| `Progress.Removed` | src/features/speaking/Speaking.jsx:149-151 | a task survives exactly when it was present and its id differs |
| `Progress.RemovedPreservesOrder` | src/features/speaking/Speaking.jsx:149-151 | removal acts on the two halves of a list separately, and a list without that id is unchanged |
| `Progress.FavToggled` | src/features/speaking/Speaking.jsx:194-196 | the id becomes a favourite exactly when it was not one; no other id changes |
| `Progress.FavKeepsDistinct` | src/features/speaking/Speaking.jsx:194-196 | marking keeps the favourites free of duplicates |
| `Progress.FavTwiceRestores` | src/features/speaking/Speaking.jsx:194-196 | marking a new favourite twice restores the list |
| `Progress.AddedWritingTask` | src/features/speaking/Speaking.jsx:360-370 | blank input adds nothing; otherwise a task with the trimmed prompt and an empty response goes in front |
| `Progress.UpdatedResponse` | src/features/speaking/Speaking.jsx:372-376 | tasks with the id get the new response; everything else is unchanged |
| `Progress.LastResponseWins` | src/features/speaking/Speaking.jsx:372-376 | of two updates to the same task, the later response is kept |
| `Progress.TakeSnapshot` | src/features/speaking/Speaking.jsx:182-190 | the snapshot carries the given date and an overall band of at most 9 |
| `Progress.SnapshotInRange` | src/features/speaking/Speaking.jsx:182-190 | for a well-formed assessment the four bands lie in [0, 9] and the overall band is their exact mean |
| `Progress.Prefix` | src/features/speaking/Speaking.jsx:191 | slice(0, n): the first min(length, n) elements |
| `Progress.SavedHistory` | src/features/speaking/Speaking.jsx:191 | the head is the new snapshot; the length is min(old + 1, 365); the tail is the old history with only the oldest entry dropped on overflow |
| `Progress.SameDateBothKept` | src/features/speaking/Speaking.jsx:182-191 | two snapshots with the same date are both kept, newest first |
| `Progress.PrefixOfPrefix` | src/features/speaking/Speaking.jsx:191 | cutting a list's tail before prepending and cutting again equals cutting once |
| `Progress.HistoryIsMostRecentFirst` | src/features/speaking/Speaking.jsx:182-192 | from a history of at most 365 entries, or from any history after at least one save, a run of saves leaves the 365 most recent snapshots, most recent first |
| `Progress.Export` | src/features/speaking/Speaking.jsx:308-309 | the export payload, every field present; imported into the defaults it reproduces the state (`Progress.ExportImportRoundTrip`) |
| `Progress.DefaultPayload` | src/features/speaking/Speaking.jsx:6-60 | the fallback of every stored slice and the state after clearing (lines 341-346); an export of it imported into itself reproduces it (`Progress.ExportImportRoundTrip`) |
| `Progress.Merge` | src/features/speaking/Speaking.jsx:319-336 | a failed parse changes nothing; each field is either kept or taken from the document, and a name or target band taken is truthy |
| `Progress.ImportAppliesPresentFields` | src/features/speaking/Speaking.jsx:322-329 | every truthy field is applied and every absent or falsy field is kept |
| `Progress.ExportImportRoundTrip` | src/features/speaking/Speaking.jsx:308-333 | exporting and importing into the default state reproduces the state when the target band is not 0 |
| `Progress.EmptyNameNotImported` | src/features/speaking/Speaking.jsx:324 | an empty exported name is falsy and leaves the current name in place |
| `Progress.ImportIdempotent` | src/features/speaking/Speaking.jsx:319-336 | importing the same document twice is importing it once |
| `Progress.Tick` | src/features/speaking/Speaking.jsx:96-103 | a tick leaves max(s - 1, 0) seconds and keeps running exactly when time is left |
| `Progress.CountdownFrom` | src/features/speaking/Speaking.jsx:93-107 | started with s > 0 seconds, the timer runs exactly s ticks, then rests at 0, stopped |
| `Tracker.AppState.constructor` | src/features/speaking/Speaking.jsx:6-90 | each stored slice that is missing or falsy falls back to its default, as an import into the default state would; the timer starts at 120 seconds, stopped |
| `Tracker.AppState.AddTask` | src/features/speaking/Speaking.jsx:138-143 | the task list becomes `AddedTask` of the old list; nothing else changes |
| `Tracker.AppState.ToggleTask` | src/features/speaking/Speaking.jsx:145-147 | the task list becomes `Toggled` of the old list; nothing else changes |
| `Tracker.AppState.RemoveTask` | src/features/speaking/Speaking.jsx:149-151 | the task list becomes `Removed` of the old list; nothing else changes |
| `Tracker.AppState.UpdateRating` | src/features/speaking/Speaking.jsx:641-644 | a slider value in [0, 9] on one of the skill's criteria or on a key the entry already holds: the assessment becomes `WithRating` of the old one and stays well formed; nothing else changes |
| `Tracker.AppState.CurrentBands` | src/features/speaking/Speaking.jsx:172-180 | the four estimates computed by the key-walking loop are the reference bands, and the overall band is their capped mean |
| `Tracker.AppState.SaveAssessmentSnapshot` | src/features/speaking/Speaking.jsx:182-192 | the history becomes `SavedHistory` of the old history and the current snapshot; nothing else changes |
| `Tracker.AppState.MarkTipFav` | src/features/speaking/Speaking.jsx:194-196 | the favourites become `FavToggled` of the old ones |
| `Tracker.AppState.AddWritingTask` | src/features/speaking/Speaking.jsx:360-370 | the writing tasks become `AddedWritingTask` of the old ones |
| `Tracker.AppState.UpdateWritingResponse` | src/features/speaking/Speaking.jsx:372-376 | the writing tasks become `UpdatedResponse` of the old ones |
| `Tracker.AppState.SetName` | src/features/speaking/Speaking.jsx:406 | the name becomes the typed text |
| `Tracker.AppState.SetTargetBand` | src/features/speaking/Speaking.jsx:411-419 | the target band becomes one of the seven offered values, never 0 |
| `Tracker.AppState.ImportProgress` | src/features/speaking/Speaking.jsx:319-336 | success exactly when the text parsed to a value other than `null`; the persisted slices become `Merge` of the old ones; the target band stays non-zero |
| `Tracker.AppState.ClearAll` | src/features/speaking/Speaking.jsx:338-347 | once confirmed, the persisted slices are the defaults; otherwise nothing changes |
| `Tracker.AppState.StartPart2` | src/features/speaking/Speaking.jsx:298-301 | the timer runs with 60 seconds |
| `Tracker.AppState.StopTimer` | src/features/speaking/Speaking.jsx:303-306 | the timer is stopped and its seconds are kept |
| `Tracker.AppState.ResetTimer` | src/features/speaking/Speaking.jsx:704 | the seconds return to 120 |
| `Tracker.AppState.TimerTick` | src/features/speaking/Speaking.jsx:96-103 | a running timer takes one `Tick`; a running timer always has time left |

## Left out

- Rendering, tabs, styling and icons: presentation only.
- Mirroring to localStorage and `localStorage.clear()`: storage I/O. The load of the
  stored slices is modelled as an import of an already-decoded document into the
  defaults (`Tracker.AppState.constructor`).
- JSON parsing and `FileReader` on import: the merge takes an already-parsed document,
  where `None` means it did not parse or parsed to `null`. Fields of the wrong JSON type are not modelled.
- The Blob, URL and anchor download of the export: browser I/O. Only the payload is
  modelled (`Progress.Export`).
- `alert` and `confirm`: the confirmation is a parameter, and the import's success is
  the returned flag.
- `Date.now()` ids and `new Date().toISOString()` timestamps and dates: parameters.
- The simulated fetches of articles and tips, and the random prompt choice in
  `genPrompt`, including its timer reset for speaking Part 2: timers and randomness
  over static data.
- The `setInterval`/`clearInterval` plumbing and the effect cleanup of the timer:
  timer concurrency. Only the per-tick reducer and the start, stop and reset handlers
  are modelled.
- `addVocabulary` and the vocabulary list: the vocabulary list is never persisted,
  exported or scored.
- IEEE-754 rounding of the JavaScript arithmetic: the model is exact, in quarters and
  hundredths. `Bands.BandIsSourceFormula` ties the model to the exact real-valued
  formula, not to its floating-point evaluation.
- `Bands.EstimateOverallBand`, `Tracker.AppState.CurrentBands` and
  `Tracker.AppState.SaveAssessmentSnapshot`: a present entry with a key outside the weight
  table is excluded by precondition (`Bands.KeysKnown`, `Bands.AllKeysKnown`). In the source
  that key yields `NaN`.
- Ratings and a target band that are not multiples of 0.25 (possible only through an
  imported or edited document, such as a target of 7.3): ratings and the target band are
  whole quarters.
- Clearing the task and writing-task input boxes after an add (`setTaskInput("")`,
  `setWritingTaskInput("")`): the input boxes are rendering state; the model receives the
  typed text as a parameter.
- `Tracker.AppState.UpdateRating` allows any skill, including listening, for which the
  page shows no slider, and a criterion of the skill that the entry does not hold yet;
  the sliders only ever offer keys already in the entry. A slider on an unknown key
  imported into the entry is allowed, but it makes the entry fall outside
  `Bands.KeysKnown`, so the estimates are then not modelled.
