# Training log: a verified model of the app logic

The app is a workout logger that runs as a progressive web app. The logic modelled here is all in `app.js`:

- **Store.** The five localStorage keys (exercises, trainings, rotation, logs, meta) behind `loadJSON`/`saveJSON`. There are also `ensureDefaults`, the import and export mappings, and the list edits on the training and exercise screens.
- **Rotation.** `todayTrainingIdByDate` chooses today's plan.
- **Rest timer text.** `fmtTime` formats the rest timer.
- **Latest log.** `lastLogForExercise` finds the newest log of an exercise.
- **Session.** The training session covers start, opening an exercise, save-and-next and end.
- **Difficulty selector.**
- **Exercise run.** `startExerciseTimer`, the scripted exercise run, is modelled as the trace of events it produces.

## Files and modules

| file | module | what it holds |
|---|---|---|
| `common.dfy` | `Common` | `Option`, and the first-occurrence search shared by `indexOf` and `find` |
| `jsstring.dfy` | `JsString` | `trim`, `String(n)`, `padStart` and decimal numerals |
| `records.dfy` | `Records` | the stored records, and `find` by id |
| `catalog.dfy` | `Catalog` | the record edits of the training and exercise screens |
| `seed.dfy` | `Seed` | the default data |
| `storage.dfy` | `Storage` | entries and `loadJSON`, `ensureDefaults`, export and import, and the `Store` class whose methods are the screens' save handlers |
| `rotation.dfy` | `RotationRule` | `todayTrainingIdByDate` |
| `clock.dfy` | `Clock` | `fmtTime` |
| `logquery.dfy` | `LogQuery` | `lastLogForExercise`, and the per-exercise history filter |
| `difficulty.dfy` | `Difficulty` | the difficulty row: a class over an array of selected flags |
| `session.dfy` | `Session` | the session state and its handlers: the `TrainingSession` and `App` classes |
| `cadence.dfy` | `Cadence` | `startExerciseTimer` as an event trace, and lemmas about the trace |

### How the pieces are represented

- **Stored values.** A stored value is an `Entry`: either Absent, or a text described only by what `JSON.parse` makes of it (Malformed, Null or a value). `loadJSON` falls back on anything but a value.
- **Mutable state.** State the app changes in place is a class. `Store` holds the five entries. `DifficultyRow` holds the flags array. `TrainingSession` and `App` hold `state.session` and the rest of `state`.
- **Loops.** Each loop of the source is a method with invariants:
  - the backward log scan;
  - the loops over the difficulty buttons;
  - the countdown, repetition and number loops of the run.

  Each of these methods is proved equal to a specification function. The properties are then proved as lemmas about that function.

## Model

| member | source | states |
|---|---|---|
| `Common.FirstIndexOf` | app.js:305 | `indexOf`: None exactly when the value is absent; otherwise an index holding it with no earlier occurrence |
| `JsString.Trim` | app.js:288 | `trim()` returns a slice of the input with only whitespace cut from both ends; the result has no whitespace at either end; it is empty exactly when the input is all whitespace |
| `JsString.TrimIdempotent` | app.js:288 | trimming a trimmed text changes nothing |
| `JsString.TrimmedOr` | app.js:431 | `value.trim() \|\| fallback`: the fallback for a blank input, otherwise the non-empty trimmed input |
| `JsString.NatToString` | app.js:93 | `String(n)` is a digit string denoting `n`, with no leading zero, and one digit exactly below 10 |
| `JsString.IntToString` | app.js:295 | `String(n)` of a negative number is a minus sign before the numeral of its magnitude |
| `JsString.PadStart` | app.js:93 | `padStart(w, "0")` has length max(len, w), keeps the text as its suffix, and fills the front with the pad |
| `JsString.DecimalValueAppend` | app.js:93 | the value of a concatenation of digit strings is the value of the first shifted left by the second's length, plus the second's value |
| `JsString.ZeroPaddedValue` | app.js:93 | zero-padding leaves the denoted number unchanged |
| `Clock.JsRem` | app.js:92 | JavaScript `%` agrees with the Euclidean remainder for a non-negative dividend, is never positive for a negative one, and is always smaller than the divisor in magnitude |
| `Clock.JsRemOdd` | app.js:92 | negating the dividend negates the remainder (sign of the dividend), which with the non-negative case fixes `%` for every dividend |
| `Clock.FmtTime` | app.js:89-94 | `fmtTime`: minutes and seconds by floor division and JavaScript's `%`, each padded to two digits; the text is at least five characters, and `FmtTimeReadsBack` and `FmtTimeWidth` state what it reads as |
| `Clock.FmtTimeReadsBack` | app.js:89-94 | for ms >= 0, `fmtTime` is digits, a colon and two digits; the seconds part is below 60; minutes*60 + seconds = floor(ms/1000) |
| `Clock.FmtTimeWidth` | app.js:89-94 | for ms >= 0, the text is exactly 5 characters iff ms < 6,000,000 |
| `Clock.FmtTimeZero` | app.js:184-187 | the rest timer display starts at "00:00" |
| `RotationRule.SlotOfIsTheBand` | app.js:97-102 | each day lies in exactly one band (1-7, 8-14, 15-21, everything else); the chosen slot is that band's |
| `RotationRule.TodayTrainingIdByDate` | app.js:96-103 | the day picks t1, t2, t3 or t4 of the loaded rotation, `{}` when it is missing |
| `RotationRule.NoRotationNoTraining` | app.js:98 | a missing or unreadable rotation yields undefined (None) for every day |
| `RotationRule.SavedRotationResolves` | app.js:366-374 | after the rotation screen saves four ids, each day resolves to the id of its band |
| `RotationRule.TenthResolvesToSecond` | app.js:99-100 | day 10 of rotation A, B, C, D gives B |
| `Records.FindTraining` | app.js:139 | `find` by id: None for an undefined or unknown id, otherwise the first training with that id |
| `Records.FindExercise` | app.js:109 | `getExercise`: None for an unknown id, otherwise the first exercise with that id |
| `Storage.LoadJSON` | app.js:14-17 | a stored value when the key parses to one; the fallback when the key is missing, malformed or `null` |
| `Storage.LoadSaved` | app.js:14-18 | loading what was saved gives it back |
| `Storage.Seeded` | app.js:21-67 | after `ensureDefaults` the marker is version 1; an existing marker leaves everything; otherwise the five keys read as the seed data, empty logs and the new marker |
| `Storage.SeededIdempotent` | app.js:22-23 | a second `ensureDefaults`, at any time, changes nothing |
| `Storage.Export` | app.js:591-597 | the export document is the five keys as loaded, with their fallbacks |
| `Storage.Imported` | app.js:611-616 | each key present in the document reads back as the document's value; each absent key keeps its entry |
| `Storage.ExportImportRoundTrip` | app.js:591-616 | importing an export into any store makes the next export equal to it |
| `Storage.ImportNothing` | app.js:611-616 | a document with no usable key changes nothing |
| `Storage.Store.constructor` | app.js:14-18 | a store holding the given five entries |
| `Storage.Store.EnsureDefaults` | app.js:21-67 | the store becomes `Seeded` of its old contents |
| `Storage.Store.Import` | app.js:609-620 | succeeds iff the text parsed to a document; then the store is `Imported`; otherwise unchanged |
| `Storage.Store.SaveRotation` | app.js:366-374 | only the rotation key changes, to the four chosen ids |
| `Storage.Store.AddExerciseToTraining` | app.js:413-422 | an empty choice or an unknown training writes nothing; otherwise only the first matching training changes, by `WithExercise` |
| `Storage.Store.SaveTrainingTitle` | app.js:426-434 | an unknown training writes nothing; otherwise only the first matching training is retitled |
| `Storage.Store.DeleteTraining` | app.js:438-444 | when confirmed, the trainings become `WithoutTraining`; otherwise nothing changes |
| `Storage.Store.CreateTraining` | app.js:448-455 | ok iff the title is not blank; then exactly one new training is appended after the old list |
| `Storage.Store.SaveExercise` | app.js:487-497 | an unknown exercise writes nothing; otherwise only the first matching exercise becomes `Edited` |
| `Storage.Store.ToggleArchived` | app.js:501-508 | an unknown exercise writes nothing; otherwise only the first matching exercise's archived flag flips |
| `Storage.Store.CreateExercise` | app.js:519-527 | ok iff the name is not blank; then exactly one new custom exercise is appended |
| `Storage.Store.AppendLog` | app.js:293-302 | the logs key becomes the loaded logs with the one log appended at the end; every other key is unchanged |
| `Catalog.WithExercise` | app.js:419 | the training keeps its id and title; an exercise already listed leaves it unchanged; otherwise it is appended at the end |
| `Catalog.WithExerciseKeepsNoDuplicates` | app.js:419 | adding never introduces a duplicate exercise id |
| `Catalog.WithExerciseIdempotent` | app.js:419 | adding the same exercise twice is adding it once |
| `Catalog.Retitled` | app.js:431 | a blank title keeps the training; otherwise the title becomes the trimmed input, with id and exercises kept |
| `Catalog.WithoutTraining` | app.js:441 | every training with the id goes, every other one stays, nothing is added |
| `Catalog.WithoutTrainingDistributes` | app.js:441 | the filter keeps relative order (it distributes over concatenation) |
| `Catalog.WithoutTrainingIdempotent` | app.js:441 | deleting twice is deleting once |
| `Catalog.NewTraining` | app.js:452 | the new training has id `tr_<now>`, the given title and no exercises |
| `Catalog.Edited` | app.js:491-494 | the class becomes the chosen one; a blank name keeps the old one, otherwise the name is trimmed; id, mode and archived are kept |
| `Catalog.ArchiveToggled` | app.js:505 | only the archived flag changes, and it flips |
| `Catalog.ArchiveToggledTwice` | app.js:505 | toggling twice restores the exercise |
| `Catalog.NewExercise` | app.js:524 | the new exercise has id `ex_<now>`, the name and class given, mode `custom`, not archived |
| `Seed.SeedRotationResolves` | app.js:48-60 | every seeded rotation slot names a seeded training |
| `Seed.SeedTrainingsUseSeedExercises` | app.js:26-53 | every seeded training lists only seeded exercises |
| `Seed.SeedTrainingsNoDuplicates` | app.js:48-53 | no seeded training lists an exercise twice |
| `LogQuery.HistoryFor` | app.js:542 | every entry of the history is a log of the exercise, every log of the exercise is in it, and it is no longer than the logs; order and copies are fixed by `HistoryForAppend` and `HistoryForSingle` |
| `LogQuery.HistoryForSingle` | app.js:542 | a single log is kept exactly when it is for the exercise |
| `LogQuery.HistoryForAppend` | app.js:542 | the history of a concatenation is the concatenation of the histories, so the filter keeps log order and every copy |
| `LogQuery.HistoryIgnoresOtherTail` | app.js:542 | trailing logs of other exercises do not change an exercise's history |
| `LogQuery.LatestInHistory` | app.js:110-116 | the last match found by the backward scan is the last entry of the history |
| `LogQuery.LatestAfterAppend` | app.js:294-302 | an appended log becomes its exercise's latest, and every other exercise's latest is unchanged |
| `LogQuery.ScanResult` | app.js:112-115 | where the scan stops (a match with none after it, or the front) fixes the full result |
| `LogQuery.LastLogForExercise` | app.js:110-116 | None (`null`) iff no log has that exercise id; otherwise the log at the highest matching index, which is also the last entry of the exercise's history |
| `Difficulty.SelectedValue` | app.js:289-290 | the value of the first selected button, "OK" when none is selected |
| `Difficulty.ClickLeavesOneSelected` | app.js:219-224 | after a click exactly one button is selected |
| `Difficulty.ClickReadsBack` | app.js:219-224 | after clicking button k, saving reads button k's value |
| `Difficulty.NothingSelectedReadsOK` | app.js:290 | with no button selected, saving reads "OK" |
| `Difficulty.PreselectReadsBack` | app.js:201-208 | after opening with a saved difficulty d, the row reads d when d is non-empty and some button carries it, otherwise "OK" |
| `Difficulty.DifficultyRow.constructor` | app.js:202-204 | a row with one flag per button, none selected |
| `Difficulty.DifficultyRow.ClearAll` | app.js:202-204 | every flag is cleared |
| `Difficulty.DifficultyRow.Click` | app.js:219-224 | a click outside the buttons changes nothing; a click on button k leaves only k selected |
| `Difficulty.DifficultyRow.SelectValue` | app.js:206-207 | the first button carrying the value gets selected and the others keep their flags; nothing changes when no button carries it |
| `Difficulty.DifficultyRow.Preselect` | app.js:201-208 | the flags become `Preselected` of the saved difficulty |
| `Difficulty.DifficultyRow.Read` | app.js:289-290 | the loop returns `SelectedValue` of the flags |
| `Session.RemoveFirst` | app.js:305-306 | an absent id leaves the queue unchanged; otherwise exactly the first occurrence is removed, the rest keeping its order; the length drops by one and the multiset loses one copy |
| `Session.RemoveFirstEmpties` | app.js:305-320 | after a save the queue is empty iff it was empty or held only that exercise |
| `Session.DrainQueue` | app.js:305-306 | saving every queued exercise once, in any order, empties the queue |
| `Session.ReopenProposesLastSave` | app.js:196-208 | after a save the new log is the exercise's latest; its load is already trimmed; the row reads back its difficulty or "OK" |
| `Session.TrainingSession.constructor` | app.js:142-148 | the new session has the training id, the queue given, no done entries, the start time and no results |
| `Session.TrainingSession.AllDone` | app.js:173-177 | the "all done" test `exerciseQueue.length === 0` holds iff no exercise is left in the queue; `SaveAndNext` states when a save reaches it |
| `Session.App.constructor` | app.js:70-78 | the initial state: no session, no current exercise, no rest timer |
| `Session.App.StartRestTimer` | app.js:180-189 | the rest timer restarts from the given time; the session and the form fields are unchanged |
| `Session.App.StartSession` | app.js:138-154 | found iff the id names a stored training; unknown means nothing changes; otherwise a fresh session's queue equals the plan's exercise ids, in order, with empty results and done, and the rest timer starts |
| `Session.App.OpenExercise` | app.js:192-208 | the current exercise is set; the heading shows its name or "Übung"; the load field and the selection come from the latest log (empty when there is none) |
| `Session.App.SaveAndNext` | app.js:286-320 | exactly one log is appended after the old ones (the session's training, the current exercise, the trimmed load, the selected difficulty or "OK"), even if the exercise is no longer queued; the queue loses its first occurrence only; results grow by one row; the rest timer restarts from its own clock reading, separate from the one in the log id; "all done" holds iff the queue was empty or just that exercise |
| `Session.App.EndSession` | app.js:333-335 | the session is dropped and the rest timer stopped |
| `Cadence.StartExerciseTimer` | app.js:237-282 | the run produces exactly `CadenceTrace`: the timer shown, three countdown ticks, "GO", ten repetitions, then "Fertig!"/"Done" and the save button |
| `Cadence.Countdown` | app.js:246-251 | the countdown loop produces ticks 3, 2, 1, each showing the number, "Bereit …", a dash, and waiting one second |
| `Cadence.RepetitionLoop` | app.js:255-278 | the repetition loop produces the ten repetition blocks, in order |
| `Cadence.Repetition` | app.js:256-277 | one repetition: the counter `rep / 10`, "Hoch" with a high beep and 1..5, "Runter" with a low beep and 5..1 |
| `Cadence.RisingNumbers` | app.js:263-266 | the rising loop shows 1..5, one second each |
| `Cadence.FallingNumbers` | app.js:273-276 | the falling loop shows 5..1, one second each |
| `Cadence.Cue` | app.js:228-230 | `playBeep`'s sound gate: one beep of the requested tone with the sound box checked, nothing without it |
| `Cadence.FilterAppend` | app.js:228-234 | helper for `SoundOffDropsBeeps` and `RunBeeps`, not a model of these lines: filtering a trace by a view distributes over concatenation |
| `Cadence.SoundOffDropsBeeps` | app.js:228-282 | a run with sound off equals the run with sound on with every beep removed |
| `Cadence.RunCues` | app.js:246-278 | with sound on, the beeps and numbers of a run are ten copies of [high beep, 1..5, low beep, 5..1]; there are none during the countdown or at "GO" |
| `Cadence.RunWaits` | app.js:246-276 | a run waits 103 one-second steps: 3 in the countdown and 100 in the repetitions |
| `Cadence.RunBeeps` | app.js:255-277 | with sound on, a run beeps high ten times and low ten times; with sound off it never beeps |
| `Cadence.RunEndsWithReveal` | app.js:281 | the last event of a run is revealing the save button |
| `Cadence.RunRevealsSaveOnce` | app.js:243-281 | the save button is revealed exactly once in a run |
| `Cadence.CountInView` | app.js:228-234 | helper for `RunBeeps`, not a model of these lines: filtering keeps every occurrence of an event it shows and none of one it hides |
| `Cadence.RepeatCount` | app.js:255 | helper for `RunBeeps`, not a model of this line: an event occurs n times as often in n copies of a block |
| `Cadence.CountdownOrder` | app.js:246-251 | the countdown ticks come as 3, then 2, then 1 |
| `Cadence.RunBanners` | app.js:246-279 | over a whole run the countdown element is written exactly five times, in this order: 3, 2, 1, "GO", "Fertig!"; the repetitions never write it |
| `Cadence.BannerTexts` | app.js:247-279 | those writes show the characters "3", "2", "1", "GO" and "Fertig!" |

## Left out

- `service-worker.js` is not part of this model. It holds the cache install, activate and fetch handlers.
- DOM rendering and navigation are not modelled. That covers `showScreen`, the `render*` functions, `innerHTML` templates, `alert`/`confirm` and the `hidden` classes. The model keeps only the state the handlers change. The confirmation is a parameter of `DeleteTraining`. The session summary's HTML is not modelled; the rows it shows (`results`) are.
- localStorage and `JSON.parse`/`JSON.stringify` are abstract. An entry records only what parsing its text gives. Documents with the wrong shape are not modelled, such as an imported `exercises` that is not an array of exercises.
- Clock readings and generated ids are parameters: `Date.now()`, `new Date().toISOString()` and `date.getDate()`. Each reading a handler takes is its own parameter, except that `startSession`'s `state.restStartTs = Date.now()` is overwritten at once by `startRestTimer`, so only that last reading is a parameter.
- The rest timer's `setInterval` ticking is not modelled. Only its start time and whether it runs are tracked.
- `Cadence.StartExerciseTimer` treats waits as `Wait(1000)` events. Wall-clock timing, interleaving with other handlers and a second run started while one is going are not modelled.
- `Cadence.StartExerciseTimer` takes the sound checkbox as one value for the whole run. The app reads it again at every beep, so toggling it mid-run is not modelled.
- Audio playback, `currentTime` and the ignored autoplay rejection are not modelled. A beep is a `Beep` event.
- `drawHistory` is modelled only as its filter of logs by exercise (`LogQuery.HistoryFor`). The number parsing, sorting and Chart.js drawing are floating point and library code.
- The FileReader, Blob and URL handling of import and export are not modelled, nor the export file name. Only the key mapping is.
- The dashboard's choice of training is not modelled: `override || state.currentTrainingId`. `Session.App.StartSession` takes the chosen id. `renderDashboard`'s update of `state.currentTrainingId` is left out too.
- Load values and other stored numbers are strings or unbounded integers. JavaScript doubles are not modelled.
- Attribute-selector quoting in `.diff-btn[data-val="…"]` is not modelled. A difficulty containing a quote would make the selector throw; the model matches the value literally.
- The difficulty buttons' values and their initial flags come from the page markup, which is not part of this model. They are the constructor's parameter, initially unselected.
- `Session.App.SaveAndNext` requires a session and a current exercise. The save button is reachable only after `openExercise` during a session, so both cases are unreachable. Without a session the handler would throw at `state.session.trainingId` before saving anything. Without a current exercise it would not throw: it would save a log whose `exerciseId` is `null`, leave the queue as it is (`indexOf(null)` is -1) and push a result row named `null`. The model does not cover that case.
- A run has no beep at "GO" and cannot be cancelled once started. Beeps play audio elements.
- Saving an exercise that is no longer queued still appends a log. The session's `done` list starts empty and is never filled.
- When the seed marker is missing, `ensureDefaults` also replaces the stored logs with an empty list; `Storage.Seeded` states this.
