# Availability calendar popup, modelled in Dafny

This project models the logic of the availability popup of the PlanWise
front end (`CalendarPopup`). The user picks days on a calendar. Each
picked day gets a start/end time range, 09:00 to 17:00 by default, which
the user can edit per day. A toggle makes one global range apply to every
day. On "Save & Finish" the selection becomes a list of
`{start_time, end_time}` pairs, sent with the user's name, group and
password.

React's state and effects are replaced by pure functions over immutable
values:

- `CalendarTypes` (`calendar_types.dfy`) holds the shared vocabulary.
  A date is its timestamp (`getTime()`). The date formatter
  `format(date, 'yyyy-MM-dd')` is left uninterpreted: every operation
  takes it as a parameter `key`, so two timestamps may share a day key.
  A `{start, end}` object has optional fields, because spreading
  `undefined` and setting one field leaves the other undefined.
- `Population` (`population.dfy`) is the effect that gives every selected
  day without an entry the default range.
- `SlotEdits` (`slot_edits.dfy`) holds `handleTimeChange` and the
  global-range edits.
- `Selection` (`selection.dfy`) holds `removeDate` and the in-place
  ascending sort the day list performs while rendering.
- `Submission` (`submission.dfy`) holds the empty-selection guard, the
  slot transformer and the payload. Reading `time.start` of a missing
  entry throws a `TypeError` inside the `try`. The `catch` turns it into
  an alert, so no request is sent. This is modelled as the outcome
  `LookupFailed` rather than excluded by a precondition.
- `CalendarPopup` (`popup.dfy`) is the popup as a state machine over
  user events. A new selection is followed by the population effect, and
  so is the filtered copy a removal installs. Its main theorem,
  `SubmitNeverMissesEntry`, says the unguarded lookup never meets a
  missing entry, whatever events lead from the mounted state. The reason
  is that every event keeps every selected day covered by the map.

Three behaviours of the code are worth stating on their own:

- At submission, the lookup at line 77 of a missing per-day entry gives
  `undefined`, reading its `start` at line 80 throws, and the `catch`
  sends nothing. The 09:00 to 17:00 fallback exists only when
  rendering, at line 211. The model proves the throwing case cannot be
  reached from the mounted state.
- Keys are never removed from the time map. A deselected day's edited
  range therefore survives and is reused when the day is picked again
  (`ReselectKeepsEdit`).
- The selection is submitted in the order the last render's in-place sort
  left it, which is ascending by timestamp (`RenderOrdersSubmission`).

A time range whose field is undefined is written into a stamp as the text
`undefined`, as a template literal does (`TextOf`, `Stamp`, `StampLayout`).
The popup never lets this happen: a per-day input exists only on a row of
the day list, which is shown only for a selected day while the toggle is
off, and the global inputs exist only while the toggle is on. `Step`
ignores edits that come from an input the popup does not show, and
`SubmittedTimesDefined` proves that every submitted stamp is built from
two defined times.

## Model

| member | source | states |
|---|---|---|
| Population.PopulateFrom | PlanWise_frontend/src/components/calendarPopup.tsx:32-42 | The copied map gains exactly the selected days' keys. Existing entries are never overwritten, every new entry is 09:00 to 17:00, and `hasChanges` is set iff some selected key was missing. |
| Population.PopulateEffect | PlanWise_frontend/src/components/calendarPopup.tsx:29-45 | After the effect every selected day has an entry. Old entries are kept unchanged, so keys of deselected days persist. New entries hold the default range. An undefined selection leaves the map alone. |
| Population.UnchangedCopyIsOriginal | PlanWise_frontend/src/components/calendarPopup.tsx:33-44 | Skipping the state update when `hasChanges` is false loses nothing: the copy then equals the original. |
| Population.PopulateKeys | PlanWise_frontend/src/components/calendarPopup.tsx:32-44 | The keys after population are exactly the old keys plus the selected days' keys. |
| Population.PopulateIdempotent | PlanWise_frontend/src/components/calendarPopup.tsx:35-42 | Running the effect twice on the same selection gives the same map as running it once. |
| Population.PopulateCoveredIsIdentity | PlanWise_frontend/src/components/calendarPopup.tsx:38-44 | A map that already covers the selection is left unchanged. |
| SlotEdits.WithField | PlanWise_frontend/src/components/calendarPopup.tsx:55 | `{...prev, [field]: value}` sets the edited field. The other field is copied from `prev`, or is undefined when `prev` is undefined. |
| SlotEdits.HandleTimeChange | PlanWise_frontend/src/components/calendarPopup.tsx:51-57 | Only the chosen field of the date's day-key entry changes to the new value. The other field of that entry and every other key are unchanged. The key is added if it was absent. |
| SlotEdits.EditGlobal | PlanWise_frontend/src/components/calendarPopup.tsx:186-193 | A global-range edit sets one field and keeps the other. |
| SlotEdits.EditRestore | PlanWise_frontend/src/components/calendarPopup.tsx:53-56 | Editing a field and then writing back its old value restores the original map. |
| SlotEdits.LastEditWins | PlanWise_frontend/src/components/calendarPopup.tsx:53-56 | Two edits of the same field of the same day equal the second edit alone. |
| SlotEdits.FieldEditsCommute | PlanWise_frontend/src/components/calendarPopup.tsx:53-56 | Edits to the start and to the end of one day give the same map in either order. |
| Selection.DropTime | PlanWise_frontend/src/components/calendarPopup.tsx:60 | The filter never lengthens the selection. No kept date has the removed timestamp. Every other date is kept with its multiplicity and in its original relative order. |
| Selection.RemoveDate | PlanWise_frontend/src/components/calendarPopup.tsx:59-61 | `removeDate` keeps an undefined selection undefined. Otherwise it keeps exactly the dates whose timestamp differs from the removed one, as an order-preserving subsequence that is no longer than before. |
| Selection.RemoveDateIdempotent | PlanWise_frontend/src/components/calendarPopup.tsx:60 | Removing the same day twice equals removing it once. |
| Selection.NothingToDrop | PlanWise_frontend/src/components/calendarPopup.tsx:60 | Filtering out a timestamp that does not occur returns the selection unchanged. |
| Selection.Insert | PlanWise_frontend/src/components/calendarPopup.tsx:209 | Inserting into an ascending sequence keeps it ascending and adds exactly that date. |
| Selection.SortByTime | PlanWise_frontend/src/components/calendarPopup.tsx:209 | The render-time sort leaves the selection ascending by timestamp and a permutation of the previous selection. |
| Selection.AscendingUnique | PlanWise_frontend/src/components/calendarPopup.tsx:209 | Two ascending orders of the same dates are equal. Any correct timestamp sort therefore yields the same sequence. |
| Selection.SortIdempotent | PlanWise_frontend/src/components/calendarPopup.tsx:209 | Sorting an already sorted selection, as every later render does, changes nothing. |
| Selection.SortKeepsKeys | PlanWise_frontend/src/components/calendarPopup.tsx:209-210 | Sorting does not change the set of day keys the selection holds. |
| Submission.SplitStamp | PlanWise_frontend/src/components/calendarPopup.tsx:80-81 | A stamp that reads back splits into a day part and a time part, which rebuild it as `day + "T" + time + ":00"`. |
| Submission.StampLayout | PlanWise_frontend/src/components/calendarPopup.tsx:80-81 | A stamp is the day key, `T`, the time text and `:00`, with the parts at fixed positions. An undefined field is written as the text `undefined`. |
| Submission.StampRoundTrip | PlanWise_frontend/src/components/calendarPopup.tsx:80-81 | Each timestamp string keeps its day key and its time text, both recoverable. |
| Submission.ChosenTimes | PlanWise_frontend/src/components/calendarPopup.tsx:77 | A date is given a range iff the toggle is on or its key has an entry. The global range wins when the toggle is on, and otherwise the date's own entry is used. |
| Submission.BuildSlots | PlanWise_frontend/src/components/calendarPopup.tsx:73-83 | The transformer succeeds iff the toggle is on or every selected key is in the map. On success it gives one slot per date. On failure the reported key is missing from the map. |
| Submission.BuildSlotsPointwise | PlanWise_frontend/src/components/calendarPopup.tsx:73-83 | Slot i belongs to date i: `start_time` is `Key(d) + "T" + start + ":00"` and `end_time` is `Key(d) + "T" + end + ":00"`. The range is the global one with the toggle on, else the date's own entry. |
| Submission.BuildSlotsFailsAtFirstMissing | PlanWise_frontend/src/components/calendarPopup.tsx:73-77 | When the lookup throws, it does so at the first date, in selection order, whose key is missing. |
| Submission.HandleSubmit | PlanWise_frontend/src/components/calendarPopup.tsx:63-90 | An undefined or empty selection returns before anything is built, and only then. A request is sent iff the selection is non-empty and either the toggle is on or every key is present. The payload carries username, group name and password unchanged, with one slot per date. |
| Submission.GlobalIgnoresMap | PlanWise_frontend/src/components/calendarPopup.tsx:77 | With the toggle on, the per-day map has no influence on the slots. |
| Submission.BuildSlotsAppend | PlanWise_frontend/src/components/calendarPopup.tsx:73-83 | The slots are built date by date: the slots of a concatenated selection are the concatenated slots. |
| Submission.BuildSlotsPermutation | PlanWise_frontend/src/components/calendarPopup.tsx:73-83 | Two selections holding the same dates give the same slots, counted with multiplicity. |
| CalendarPopup.Step | PlanWise_frontend/src/components/calendarPopup.tsx:29-61 | No event removes a key from the time map. Every event keeps each selected day covered, and a new selection always ends covered. A per-day edit does nothing unless its day is listed with the toggle off (lines 209, 222), and a global edit does nothing unless the toggle is on (line 181). The toggle, global edits and the render sort leave the map alone, as does a removal from a covered state. Per-day and global edits and the toggle leave the selection alone. From a covered state, every event keeps both fields of every range defined. |
| CalendarPopup.RemovalNeedsNoEntries | PlanWise_frontend/src/components/calendarPopup.tsx:35-44 | After a removal from a covered state, the effect that follows adds no entry. |
| CalendarPopup.RunKeepsReady | PlanWise_frontend/src/components/calendarPopup.tsx:29-61 | Every state reached from a covered state by any sequence of events is covered. |
| CalendarPopup.RunKeepsDefined | PlanWise_frontend/src/components/calendarPopup.tsx:29-61 | Every state reached from a covered state whose ranges all have both fields keeps both properties, whatever the events. |
| CalendarPopup.SubmitNeverMissesEntry | PlanWise_frontend/src/components/calendarPopup.tsx:64-83 | From the mounted state, after any events, submit never reads a missing entry. It sends a request iff the selection is non-empty. |
| CalendarPopup.SubmittedTimesDefined | PlanWise_frontend/src/components/calendarPopup.tsx:73-83 | From the mounted state, after any events, each submitted slot is `day + "T" + start + ":00"` and `day + "T" + end + ":00"`. Here start and end are the defined times of the range chosen for that date, so no stamp contains the text of an undefined field. |
| CalendarPopup.DisplayedTimes | PlanWise_frontend/src/components/calendarPopup.tsx:211 | A day with an entry is displayed with that entry. A day without one is displayed with 09:00 to 17:00. |
| CalendarPopup.SubmittedAsDisplayed | PlanWise_frontend/src/components/calendarPopup.tsx:209-237 | In a covered state with the toggle off, each submitted slot carries exactly the range the day list shows for its date. |
| CalendarPopup.GlobalOverrides | PlanWise_frontend/src/components/calendarPopup.tsx:77-81 | With the toggle on, every slot carries the global range, and replacing the per-day map changes nothing in the outcome. |
| CalendarPopup.RenderOrdersSubmission | PlanWise_frontend/src/components/calendarPopup.tsx:209 | After the day list renders, the submitted selection is ascending and a permutation of the previous one. Its slots are the previous slots, reordered. |
| CalendarPopup.ReselectKeepsEdit | PlanWise_frontend/src/components/calendarPopup.tsx:38-39 | An edit made on a listed day's row survives any later change of the selection. |
| CalendarPopup.RemovedDayNotSubmitted | PlanWise_frontend/src/components/calendarPopup.tsx:60 | After a removal, no selected date has the removed timestamp. The request then has one slot per remaining date, no more than before. |
| CalendarPopup.ExampleState | PlanWise_frontend/src/components/calendarPopup.tsx:29-57 | The example's three events reach the expected state. |
| CalendarPopup.TwoDayExample | PlanWise_frontend/src/components/calendarPopup.tsx:73-90 | Days 2024-03-01 (edited to 08:00-12:00) and 2024-03-02 (default) produce exactly `[{2024-03-01T08:00:00, 2024-03-01T12:00:00}, {2024-03-02T09:00:00, 2024-03-02T17:00:00}]`. |

## Left out

- The `fetch` to `/availability` and the handling of its response and errors (lines 94-111): network I/O. `Send` stands for "the request is issued with this payload".
- `alert`, `console.log`, the `isLoading` flag and the disabled state of the submit button (lines 26, 65, 69, 92, 106-113, 261): presentation only. The button's disabling repeats the empty-selection guard, which is modelled.
- JSX, CSS, the `isOpen` early return and the `DayPicker` widget (lines 47, 117-272): rendering. What the calendar reports is the `Select` event, with a new array or `undefined`.
- `format` from date-fns and time zones: a foreign library. The day key is an uninterpreted parameter.
- Invalid dates (a `NaN` timestamp): a date is an integer timestamp. The comparator at line 209 is modelled as an exact comparison of timestamps. For valid dates, the floating-point difference it computes may be rounded, but its sign is always right, so the order is the same.
- Inherited properties of a JavaScript object (`newSlots["constructor"]` is truthy): day keys have the form `yyyy-MM-dd` and never name one.
- React scheduling and batching: the effect is applied right after the selection change that triggers it. The state it reads is the state the change produced.
- Sort stability: a date is only its timestamp, so dates with equal timestamps cannot be told apart.
- `App.tsx`, `NavMenu.tsx`, `Desktop1.tsx`, `CreateGroupPopup.tsx`, `JoinGroupPopup.tsx` and `backend/main.py`: visibility flags, markup, requests whose only logic is a field check, or calls into bcrypt and Supabase. None of them are part of this model.
- The trash button that calls `removeDate` exists only on listed rows (line 247), but `Remove` is accepted for any date. Removing a date that is not listed keeps the same dates, and the population effect that follows adds nothing.
