# TO DO LIST: task store, alarm poller and scoring, modelled in Dafny

The app keeps a list of dated and timed tasks ("missions"). Each task has a
category, an urgency grade, a completion percentage, notes and an alarm flag.
This project models the logic of the app component (`App.tsx`) and of the task
card's progress editor (`components/TaskCard.tsx`). The model covers:

- **Task store.** `updateTask` merges a partial record into every task with a
  given id, `deleteTask` filters those tasks out, and the task form either
  appends a fresh task or merges its six fields into the edited task. The
  routine view lists today's open tasks. The registry views sort the state
  list by date, newest first.
- **Alarm poller.** One `activeAlarm` slot. Each poll fills an empty slot with
  the first task, in list order, whose date and time strings equal today's date
  and the current minute, and that is alarmed, open and not snoozed. Stop,
  snooze and postpone each rewrite flags or the schedule through `updateTask`
  and clear the slot. A snooze's delayed un-snooze is a separate event.
- **Daily efficiency score** (`performanceStats`). This is computed exactly in
  integers. `ScaledScore` is 100 times the source's `currentScore`. The
  percentage is `Math.round(current / max * 100)`, written as
  floor((2·S + M) / (2·M)).
- **Memory bank.** On a completed voice turn, the two trimmed transcripts are
  appended as two entries, only the newest 30 entries are kept, and both
  transcript buffers are reset.
- **Clock formatting.** The `YYYY-MM-DD` and `HH:MM` formatters, with parsers
  that read them back.
- **Language preference.** The stored preference falls back to English.
- **Task card.** Local progress, comment, slider lock and delete confirmation.
  A commit sets `isCompleted` exactly when progress is 100.

The clock reading, the random id, the `toLocaleTimeString` stamp,
`basePoints` and the multiplier table are parameters. The score configuration
`APP_SCORE_CONFIG` is imported by `App.tsx` but is not part of this model.
Urgency has the three grades of `types.ts`. Category is a string, because the
form submits `'5x_speed'` while `types.ts` declares `'5x'`.

Files: `types.dfy` (records and the partial-record merge), `clock.dfy`,
`text.dfy` (`trim`, string order), `task_list.dfy`, `alarms.dfy`,
`score.dfy`, `memory_bank.dfy`, `app.dfy` (the component state as a class),
`task_card.dfy` (the card as a class).

Some behaviour the code does not have:

- The alarm has no lead-time offset, no tolerance window and no daily repeat.
  Matching is on the exact date and minute strings.
- Deleted tasks cannot be undone or restored.
- The save handler does not validate the title.
- `updateTask` does not recompute `isCompleted`. Only the card's commit sets it.

Two consequences are proved:

- Exact-minute matching means a task whose date and time are unchanged is due
  in at most one valid clock reading (`Alarms.DueInOneMinuteOnly`). A snooze
  that outlasts that minute therefore ends the task's ringing, as long as the
  local clock does not show the same date and minute strings again. The
  lemma is about readings, not elapsed time. A daylight-saving fall-back
  repeats a local minute. A poll reads the time before the date, so a poll
  that straddles midnight pairs the new date with the old day's "23:59".
- Postponing to the slot the alarm dialog pre-fills (the task's own date and
  time) leaves the task unchanged. A poll in the same minute then picks it
  again (`Alarms.PostponeToSameSlotRefires`).

## Model

| member | source | states |
|---|---|---|
| `Clock.Decimal` | App.tsx:14 | `toString()` of a non-negative integer is all digits, one digit exactly below 10, with no leading zero for a positive number |
| `Clock.Pad2` | App.tsx:15-16 | `padStart(2, '0')` gives exactly two digits for values below 100 |
| `Clock.DateString` | App.tsx:12-18 | today's date string for a valid reading has the form Y-MM-DD: digits, '-', two digits, '-', two digits |
| `Clock.TimeString` | App.tsx:20-23 | the current-minute string for a valid reading is exactly five characters, HH:MM |
| `Clock.DecimalRoundTrip` | App.tsx:14 | the decimal string reads back as the number |
| `Clock.Pad2RoundTrip` | App.tsx:15-16 | the padded string reads back as the number |
| `Clock.DateRoundTrip` | App.tsx:12-18 | today's date string reads back as year, `getMonth() + 1` and day |
| `Clock.TimeRoundTrip` | App.tsx:20-23 | the current-minute string reads back as hours and minutes |
| `Clock.SameStringsSameMinute` | App.tsx:123-126 | two valid clock readings with equal date and time strings are the same minute |
| `Text.Trim` | App.tsx:169-171 | the trimmed transcript is empty exactly when the transcript is all white space, and otherwise starts and ends with a non-space |
| `TrimFacts.TrimIsSlice` | App.tsx:169-170 | the trimmed transcript is a slice of the transcript with only white space before and after it |
| `Text.TrimStart` | App.tsx:169-170 | drops only leading white space and leaves a suffix that starts with a non-space |
| `Text.TrimEnd` | App.tsx:169-170 | drops only trailing white space and leaves a prefix that ends with a non-space |
| `Text.LexTotal` | App.tsx:327 | any two date strings are comparable |
| `Text.LexTransitive` | App.tsx:327 | the comparison used by the sort is transitive |
| `Types.Merge` | App.tsx:279 | an empty partial record changes nothing |
| `Types.MergeFields` | App.tsx:279 | `{ ...t, ...u }`: each field present in the partial record takes its value, every absent field keeps the task's |
| `Types.StoredNotes` | components/TaskCard.tsx:14 | the note read with an empty-string fallback: the stored note, or '' when it is absent |
| `TaskList.Filter` | App.tsx:280 | `filter` keeps exactly the elements satisfying the predicate, each as often as in the input |
| `TaskList.FilterConcat` | App.tsx:284 | `filter` keeps relative order: it distributes over concatenation |
| `TaskList.MergeById` | App.tsx:279 | `updateTask`: same length, every task with the id merged with the partial record, every other task unchanged, no-op when no task has the id |
| `TaskList.DeleteById` | App.tsx:280 | `deleteTask`: no remaining task has the id, and every other task keeps its multiplicity |
| `TaskList.DeleteByIdLength` | App.tsx:280 | the result is shorter by exactly the number of tasks with the id |
| `TaskList.DeleteByIdKeepsOrder` | App.tsx:280 | deletion keeps the relative order of the remaining tasks |
| `TaskList.NewTask` | App.tsx:258-271 | the created task carries the fresh id and the form's fields, is dated today exactly when the form date is empty or today, and starts at 0% with empty notes and interim note (`Some("")`, not absent), open and not snoozed |
| `TaskList.EditPatchEffect` | App.tsx:256 | merged into a task, the edit record sets exactly title, category, urgency, time, date and `isAlarmed` |
| `TaskList.EditChangesFormFieldsOnly` | App.tsx:255-256 | an edit changes title, category, urgency, time, date and `isAlarmed` of the edited id and nothing else |
| `TaskList.TodayActive` | App.tsx:284 | the routine view holds exactly today's tasks that are not completed |
| `TaskList.CreatedTaskInRoutineView` | App.tsx:258-272 | a created task is appended to the routine view exactly when its date is today, and an empty form date counts as today |
| `TaskList.Insert` | App.tsx:327 | inserting into a newest-first list keeps it sorted and adds exactly that task |
| `TaskList.SortByDateDesc` | App.tsx:438 | the sorted list is a permutation of the input, ordered newest date first |
| `TaskList.FirstDue` | App.tsx:125-127 | `find`: the first task in list order that is due now (dated today, at the current minute, alarmed, open, not snoozed), or none exactly when no task is due |
| `Alarms.StopEffect` | App.tsx:536 | the Stop record switches `isAlarmed` off and changes nothing else |
| `Alarms.SnoozeEffect` | App.tsx:536 | the Snooze record sets `isSnoozed`, its expiry clears it, and nothing else changes |
| `Alarms.PostponeEffect` | App.tsx:536 | the Postpone record sets the new date and time, clears `isSnoozed`, sets `isAlarmed`, and changes nothing else |
| `Alarms.StopSilences` | App.tsx:536 | after Stop no task with the stopped id is due at any minute |
| `Alarms.SnoozeSilences` | App.tsx:536 | while snoozed no task with the id is due |
| `Alarms.UnsnoozeUndoesSnooze` | App.tsx:536 | the snooze timer's expiry restores the task list when nothing with that id was snoozed before |
| `Alarms.UnsnoozeAfterDeleteIsNoop` | App.tsx:279-280 | a snooze timer that fires after its task was deleted changes nothing |
| `Alarms.PostponeToSameSlotRefires` | App.tsx:536 | postponing a ringing task (with a unique id) to its own date and time changes nothing, and the next poll in that minute picks it again |
| `Alarms.DueInOneMinuteOnly` | App.tsx:122-127 | a task is due in at most one valid clock minute |
| `Score.Multiplier` | App.tsx:290 | the multiplier lookup with fallback 1: the table's value when it is present and non-zero, otherwise 1; never 0 |
| `Score.Weight` | App.tsx:290-293 | a task's full weight is the base points for a grade missing from the table, and at least the (positive) base points under a sane configuration |
| `Score.ScaledScore` | App.tsx:289-292 | tasks all at 0% earn nothing |
| `Score.MaxScore` | App.tsx:290-293 | under a sane configuration the possible total is at least the number of tasks, so it is positive when there is one |
| `Score.Percentage` | App.tsx:295 | the nearest integer to score over maximum, halves up, or 0 when the maximum is not positive |
| `Score.DatedOn` | App.tsx:286 | only tasks dated today are scored, each as often as in the list |
| `Score.RoundDiv` | App.tsx:295 | `Math.round(n / d)`: the nearest integer, halves rounded up |
| `Score.PerformanceStats` | App.tsx:285-296 | the `forEach` loop's totals equal the scaled score and the maximum over today's tasks, and the percentage is their rounded ratio, or 0 when the maximum is not positive |
| `Score.ScoreWithinMax` | App.tsx:289-294 | with completions in 0..100 the earned score lies between 0 and 100 times the maximum, and the maximum is positive when there is a task |
| `Score.DatedOnInRange` | App.tsx:286 | completions of today's tasks stay in 0..100 when all completions are |
| `Score.RoundDivInRange` | App.tsx:295 | rounding a ratio in [0, 100] stays in 0..100 |
| `Score.RoundDivExact` | App.tsx:295 | rounding an exact multiple returns the multiplier |
| `Score.PercentageInRange` | App.tsx:295 | the reported percentage lies in 0..100 when every completion does |
| `Score.AllDoneScoresMax` | App.tsx:292-293 | when every task is at 100 the earned score is 100 times the maximum |
| `Score.AllDoneIsHundred` | App.tsx:286-295 | when every task dated today is at 100% (and there is one) the percentage is 100 |
| `Score.NoTasksTodayIsZero` | App.tsx:295 | no task dated today: the percentage is 0 without any division |
| `Score.WorkedExample` | App.tsx:287-295 | Regular at 50% and Urgent at 100% with base points 10 earn 35 of 40 points and report 88 |
| `MemoryBank.KeepLast` | App.tsx:172 | `slice(-n)` for n > 0 keeps the last min(length, n) entries |
| `MemoryBank.EntriesCarryWords` | App.tsx:172 | the user's entry opens with '[' and the time stamp, the assistant's with 'R', so they never coincide; each ends with the words said |
| `MemoryBank.AfterTurn` | App.tsx:168-173 | two entries are appended only when either trimmed transcript is non-empty, the user's then the assistant's, newest at the end; the history is the suffix of at most 30 entries; otherwise unchanged |
| `MemoryBank.RecordTurn` | App.tsx:170-173 | given the trimmed texts, a turn with both empty leaves the history unchanged; otherwise the history grows by the user entry then the assistant entry and keeps the newest min(length, 30) entries as a suffix, never more than 30 |
| `MemoryBank.EntrySurvivesTurn` | App.tsx:172 | in a recorded turn, an older entry survives exactly while fewer than 30 entries follow it, and then sits at its shifted position unchanged |
| `App.InitialLanguage` | App.tsx:40-43 | Hindi exactly when "Hindi" is stored, English otherwise |
| `App.App.constructor` | App.tsx:26-45 | the component starts with the loaded tasks, history and language, no active alarm and empty transcripts |
| `App.App.UpdateTask` | App.tsx:279 | the task list becomes the merge-by-id of the old list |
| `App.App.DeleteTask` | App.tsx:280 | the task list becomes the old list without the id, shorter by the number of matches |
| `App.App.OpenNewTaskForm` | App.tsx:314 | the form opens with no task being edited |
| `App.App.OpenEditModal` | App.tsx:281 | the form opens on the chosen task |
| `App.App.SaveTaskForm` | App.tsx:245-277 | an edit merges the six form fields into the edited id; otherwise exactly one fresh task is appended with the date defaulting to today; the form closes |
| `App.App.SortForRegistry` | App.tsx:327 | the state list itself is reordered newest date first, as a permutation |
| `App.App.SelectLanguage` | App.tsx:361-362 | the language switch sets the preference |
| `App.App.CheckAlarms` | App.tsx:122-129 | an occupied alarm slot is never replaced; an empty one takes the first due task, if any |
| `App.App.Stop` | App.tsx:536 | Stop switches the alarm off for the id and clears the slot |
| `App.App.Snooze` | App.tsx:536 | Snooze marks the id snoozed, clears the slot and records a pending timer |
| `App.App.ExpireSnooze` | App.tsx:536 | the timer's expiry removes that timer and un-snoozes its id only |
| `App.App.Postpone` | App.tsx:536 | Postpone sets the new date and time, un-snoozes, switches the alarm on and clears the slot |
| `App.Appended` | App.tsx:166-167 | `+= transcription.text` appends nothing without a transcription, its text when present, and "undefined" when the object has no text |
| `App.App.OnLiveMessage` | App.tsx:165-176 | transcript pieces are concatenated onto their buffers; on turn completion the history takes the turn and both buffers are reset |
| `Card.CommitPatchEffect` | components/TaskCard.tsx:27-31 | merged into a task, the commit record sets progress and note and marks it completed exactly at 100%, nothing else |
| `Card.CommitEffect` | components/TaskCard.tsx:26-31 | a commit writes progress and comment into the card's own id only, and sets `isCompleted` exactly when progress is 100 |
| `Card.CommitLeavesNothingToSave` | components/TaskCard.tsx:35 | once the committed values are stored, `hasChanges` is false (an absent note reads as '') |
| `Card.CompletedCommitLeavesRoutineView` | components/TaskCard.tsx:26-31 | committing 100% removes the card's task from the routine view |
| `Card.TaskCard.constructor` | components/TaskCard.tsx:13-16 | a card starts from the stored percentage and note, locked and not confirming |
| `Card.TaskCard.CommitChanges` | components/TaskCard.tsx:26-33 | a commit, reachable only while there are changes (the buttons at lines 47 and 87), passes the card's id and the commit record to `onUpdate` and re-locks |
| `Card.TaskCard.ToggleLock` | components/TaskCard.tsx:62 | the lock button flips the lock |
| `Card.TaskCard.SlideTo` | components/TaskCard.tsx:70-75 | progress takes the slider value (an integer in 0..100) only while unlocked |
| `Card.TaskCard.PointerUp` | components/TaskCard.tsx:76 | releasing the slider locks it |
| `Card.TaskCard.EditComment` | components/TaskCard.tsx:83 | the comment field sets the local comment |
| `Card.TaskCard.AskDelete` | components/TaskCard.tsx:49 | ✕ enters the confirmation step |
| `Card.TaskCard.ConfirmDelete` | components/TaskCard.tsx:53 | DEL passes the card's own id to `onDelete` |
| `Card.TaskCard.CancelDelete` | components/TaskCard.tsx:54 | ESC leaves the confirmation step without deleting |
| `Card.TaskCard.Receive` | components/TaskCard.tsx:18-24 | local progress and comment are re-read from the task when their stored values change |
| `Card.CommitAndResync` | components/TaskCard.tsx:18-35 | for the card showing the k-th stored task, with changes pending, commit, store update and resync give the card the merged task, keep its local progress, comment and confirm flag, and leave it locked with nothing to save |

## Left out

- Persistence to `localStorage` (App.tsx:26-43, App.tsx:68-73) is browser I/O. The constructor takes the loaded values. The unguarded `JSON.parse` is not modelled.
- Audio is not modelled: the alarm beeps, the audio unlock handler, the 1.2 s re-ring loop, the live voice session, and PCM capture and playback. The `audioUnlocked`, `isRecording` and `isSpeaking` flags go with them.
- The AI calls (`handleGenerateRoadMap`, `handleFetchAdvice`) and their fallback strings wrap an external service.
- Polling is not modelled as time. The 3000 ms interval is replaced by explicit `CheckAlarms` calls. The snooze's `setTimeout` is a recorded timer whose expiry is the explicit `ExpireSnooze` event, and its minutes are not interpreted.
- Random id generation is a parameter. Ids are not assumed unique, and the lemmas that need a unique id say so.
- Score.PerformanceStats: computes the score exactly, not in floating point. A float rounding error at an exact .5 can make the source report a different integer. The display formatting of the score (`toFixed`) is left out.
- TaskList.SortByDateDesc: proves sorted order and permutation, but not that tasks with equal dates keep their relative order (`Array.prototype.sort` is stable). `localeCompare` is modelled as code-point lexicographic order. For ISO date strings the two agree.
- `Text.Trim` and `Text.LexLeq` work on Unicode scalar values, not UTF-16 code units.
- A `Partial<Task>` is modelled by `Types.Patch`, in which each field is either present with a value or absent. A key present with the value `undefined` is not modelled.
- Task fields that the core never reads or writes are dropped: `description`, `isLocked`, `subtasks`, `repeat`, `alarmOffset`.
- The `reports` list is loaded, saved and handed to the live session and the advice call (App.tsx:197, App.tsx:236). Both are external service calls, so it is left out.
- Tab navigation, the report-book overlay, and the audit textarea are left out. The audit textarea edits go through `updateTask`, which is modelled.
- The form's second urgency option names a grade that `TaskUrgency` does not define (App.tsx:503). That option has no value, so the browser submits its label text "Priority (2x)" as the urgency. The multiplier table has no such key, and `|| 1` weighs such a task 1x (App.tsx:290), as `Score.Weight`'s clause for a grade missing from the table states. The model's `Urgency` has only the three grades of `types.ts`, so it cannot hold that label string.
- The form's `required` attributes are browser validation and are not modelled.
- `components/AlarmModal.tsx`, `components/BottomNav.tsx` and `geminiService.ts` are presentation or service wrappers and are not part of this model.
