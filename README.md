# Quit tracker core in Dafny

A model of the logic of a React habit-quit tracker, in three parts.

- **The date/time picker dialog** (`ModalDatePicker.tsx`). It holds five fields:
  year, month 0–11, day, hour and minute. It offers each wheel the options that do
  not lie after a bound ("now"). An adjustment effect pulls the selection back
  under the bound one field per run. On confirm it emits `YYYY-MM-DDTHH:mm`. The
  same file defines its own simpler scroll wheel, gated by a single "user is
  scrolling" flag.
- **The stand-alone scroll wheel** (`ScrollWheel.tsx`). It is a state machine with
  two flags: one for a gesture in progress and one for a scroll the wheel
  started itself. It has a debounce timer, 250 ms settle callbacks and callbacks
  that reset the flag. Every timer is an explicit "fired" event whose callback
  re-checks the flags.
- **The store** (`useQuitStore.ts`). It holds the list of quit items, the form
  record and the dialog flags, with the actions that replace them. It also
  holds the elapsed-time decomposition, its text, and the benefit computed from it.

Modules:

- `Wrappers`: `Option`.
- `Text`: decimal rendering, `padStart`, and reading digits back.
- `Arith`: uniqueness of integer division.
- `Calendar`: the Gregorian month length, the lexicographic order, and the
  `YYYY-MM-DDTHH:mm` text with its parser.
- `WheelIndex`: offset↔index arithmetic shared by both wheels.
- `PickerWheel`: the wheel inside the dialog.
- `ScrollWheel`: the stand-alone wheel.
- `DatePicker`: the dialog.
- `QuitStore`: the store's state and actions.
- `Elapsed`: the store's utilities.

Some inputs become parameters:
- The picker's bound ("now").
- The store's clock readings.
- The millisecond difference between the current time and the quit date.
- The wheel's clock readings (`Date.now()`).

## Model

| member | source | states |
|---|---|---|
| Text.PadStart | src/components/app/ModalDatePicker.tsx:354 | a text at least as long as the width is unchanged; otherwise the result has exactly the width, ends with the text and is pad characters before it |
| Text.NatToStringValue | src/store/useQuitStore.ts:197 | the decimal rendering of n is all digits, reads back as n, and has at most w digits when n < 10^w |
| Text.PaddedValue | src/components/app/ModalDatePicker.tsx:353-354 | a zero-padded field of width w of a number below 10^w has exactly w digits and reads back as the number |
| Calendar.DaysInMonth | src/components/app/ModalDatePicker.tsx:237-240 | every month has between 28 and 31 days |
| Calendar.DaysInYear | src/components/app/ModalDatePicker.tsx:237-240 | the twelve month lengths add up to 366 days in a Gregorian leap year and 365 otherwise |
| Calendar.FormatLocal | src/components/app/ModalDatePicker.tsx:354 | for a year of at most four digits the text has 16 characters, the separators `-`, `-`, `T` and `:` at positions 4, 7, 10 and 13, and each field's digits read back as the year, the month counted from 1, the day, the hour and the minute |
| Calendar.ParseLocal | src/components/app/ModalDatePicker.tsx:353-354 | a text is accepted only with 16 characters and the separators `-`, `-`, `T` and `:` at positions 4, 7, 10 and 13 |
| Calendar.FormatParseRoundTrip | src/components/app/ModalDatePicker.tsx:353-354 | for a year of at most four digits the emitted text has 16 characters and parses back to the same date and time |
| WheelIndex.Round | src/components/app/ScrollWheel.tsx:68 | the rounded index r satisfies r − 1/2 ≤ offset/height < r + 1/2 (halves round up, as `Math.round` does) |
| WheelIndex.RoundOfMultiple | src/components/app/ScrollWheel.tsx:43 | the offset `index * itemHeight` rounds back to the index |
| WheelIndex.ClampIndex | src/components/app/ScrollWheel.tsx:69 | for a non-empty list the result is a valid position; an in-range index is kept; below 0 gives 0; past the end gives the last position |
| WheelIndex.ResolveIndex | src/components/app/ScrollWheel.tsx:68-69 | for a non-empty list the index is a valid position: the rounded index when it is one, 0 below the list, the last position past it |
| WheelIndex.ResolveRoundTrip | src/components/app/ScrollWheel.tsx:40-70 | placing the wheel at item i resolves to item i |
| WheelIndex.FindIndex | src/components/app/ScrollWheel.tsx:40 | −1 exactly when the value is absent; otherwise the position of its first occurrence |
| WheelIndex.ChangeAt | src/components/app/ScrollWheel.tsx:70-74 | a change is reported if and only if the index is in range and its option differs from the current value and is not the −1 sentinel; the reported value is that option |
| WheelIndex.NoEchoAtValue | src/components/app/ScrollWheel.tsx:38-74 | resolving the offset of the current value's item reports no change |
| WheelIndex.SnapTarget | src/components/app/ScrollWheel.tsx:88-91 | the snap target resolves to the same item as the offset it came from and lies between the first and the last item's offset |
| WheelIndex.SnapIsIdempotent | src/components/app/ScrollWheel.tsx:93-94 | snapping from a snap target aims at that same target, so no further scroll is issued |
| PickerWheel.Extended | src/components/app/ModalDatePicker.tsx:46-54 | the options with two sentinel entries before and two after |
| PickerWheel.Wheel.constructor | src/components/app/ModalDatePicker.tsx:114-140 | a new wheel's flag is clear, it sits at the value's item (or at 0 when the value is not an option), and its listeners hold the mount-time options and value |
| PickerWheel.Wheel.ScrollToValue | src/components/app/ModalDatePicker.tsx:56-69 | the wheel moves to the target's item only when the target is an option; otherwise it stays |
| PickerWheel.Wheel.HandleScroll | src/components/app/ModalDatePicker.tsx:71-81 | a scroll reports nothing unless the user-scrolling flag is set; otherwise it reports the change at the unclamped rounded index |
| PickerWheel.Wheel.SnapToNearestItem | src/components/app/ModalDatePicker.tsx:83-101 | the wheel moves to the nearest item's offset and reports the change at that item, against the options and value of the render it was taken from |
| PickerWheel.Wheel.InteractionStart | src/components/app/ModalDatePicker.tsx:103-105 | the flag is set |
| PickerWheel.Wheel.InteractionEnd | src/components/app/ModalDatePicker.tsx:107-140 | the wheel snaps only when an interaction was in progress, and the change it reports is computed from the mount-time options and value the listeners were registered with; the flag is clear afterwards |
| PickerWheel.Wheel.ClickItem | src/components/app/ModalDatePicker.tsx:175-181 | clicking a real option reports it, clears the flag and moves to its item; clicking padding does nothing |
| PickerWheel.Wheel.Rerender | src/components/app/ModalDatePicker.tsx:114-116 | new props are stored; the wheel is re-positioned only when the value changed |
| PickerWheel.ReleaseComparesWithMountValue | src/components/app/ModalDatePicker.tsx:107-140 | a gesture that ends on the mount-time value's item reports nothing, whatever the wheel's current value |
| PickerWheel.RepositionEchoIsSilent | src/components/app/ModalDatePicker.tsx:71-81 | the scroll event caused by moving to a new value reports nothing, during an interaction or not |
| ScrollWheel.Extended | src/components/app/ScrollWheel.tsx:28-36 | the options with one sentinel entry before and one after |
| ScrollWheel.Wheel.constructor | src/components/app/ScrollWheel.tsx:18-23 | a new wheel has no gesture in progress and no timer pending (no debounce, no settle callback) except the reset that its first positioning schedules; a raised programmatic flag has a reset pending, and every method of the wheel keeps that |
| ScrollWheel.Wheel.ScrollToValue | src/components/app/ScrollWheel.tsx:38-64 | when mounted and the target is an option, the flag is raised, the wheel moves to the target's item and one reset callback is scheduled; otherwise nothing changes |
| ScrollWheel.Wheel.SnapToNearestItem | src/components/app/ScrollWheel.tsx:79-108 | nothing happens while either flag is set; otherwise the wheel scrolls to the clamped target (raising the flag) only when more than 2 px away, and reports the change at the target; options and value are those of the render the callback was taken from |
| ScrollWheel.Wheel.Scroll | src/components/app/ScrollWheel.tsx:110-144 | a scroll is ignored while the programmatic flag is set; otherwise it records its time, reports the change at the clamped index, and replaces the debounce timer only outside an interaction |
| ScrollWheel.Wheel.InteractionStart | src/components/app/ScrollWheel.tsx:146-158 | the gesture flag is set and the debounce timer is cancelled |
| ScrollWheel.Wheel.InteractionEnd | src/components/app/ScrollWheel.tsx:160-169 | the gesture flag is cleared and one settle callback is queued, holding the options and value of the current render |
| ScrollWheel.Wheel.TouchCancel | src/components/app/ScrollWheel.tsx:171-173 | behaves as interaction end: the flag is cleared and a settle callback with the current props is queued |
| ScrollWheel.Wheel.FireDebounceTimer | src/components/app/ScrollWheel.tsx:134-142 | the callback snaps only outside a gesture and more than 100 ms after the last handled scroll; otherwise nothing moves |
| ScrollWheel.Wheel.FireSettleTimer | src/components/app/ScrollWheel.tsx:160-169 | the oldest settle callback leaves the queue and snaps with the options and value it captured when it was scheduled, unless a gesture is in progress when it fires |
| ScrollWheel.Wheel.FireResetTimer | src/components/app/ScrollWheel.tsx:55-60 | the programmatic flag is cleared |
| ScrollWheel.Wheel.ExternalValueChange | src/components/app/ScrollWheel.tsx:176-224 | new props re-position the wheel only when neither flag is set; the listener effect's cleanup clears the pending debounce timer |
| ScrollWheel.Wheel.ClickItem | src/components/app/ScrollWheel.tsx:271-277 | clicking a real option reports it, clears the gesture flag and scrolls to its item; clicking padding does nothing |
| ScrollWheel.Wheel.Unmount | src/components/app/ScrollWheel.tsx:209-223 | the container is gone and the debounce timer is cleared |
| ScrollWheel.NewInteractionDefeatsSettle | src/components/app/ScrollWheel.tsx:160-168 | a settle callback that fires while a later gesture is still in progress neither moves the wheel nor reports a change |
| ScrollWheel.StaleSettleAfterSecondRelease | src/components/app/ScrollWheel.tsx:160-169 | once the later gesture has also ended, the earlier settle callback still fires and reports the change at the wheel's offset against the options and value it captured, although the props changed in between; the later callback stays queued with the new props |
| ScrollWheel.ProgrammaticCycleIsSilent | src/components/app/ScrollWheel.tsx:110-142 | re-positioning to a new value, the scroll event it causes, and any debounce timer that event schedules report nothing |
| ScrollWheel.NothingAfterUnmount | src/components/app/ScrollWheel.tsx:79-86 | a settle callback that fires after unmount neither moves the wheel nor reports a change |
| DatePicker.Range | src/components/app/ModalDatePicker.tsx:218-223 | n consecutive integers from lo, ascending; membership is exactly lo ≤ x < lo + n |
| DatePicker.AtMost | src/components/app/ModalDatePicker.tsx:230-235 | the filter keeps exactly the elements not above the limit and keeps ascending order |
| DatePicker.YearOptions | src/components/app/ModalDatePicker.tsx:217-224 | eleven ascending years, from the bound's year − 10 to the bound's year |
| DatePicker.MonthOptions | src/components/app/ModalDatePicker.tsx:227-235 | months 0–11, cut at the bound's month only when the selected year is the bound's |
| DatePicker.DayOptions | src/components/app/ModalDatePicker.tsx:237-251 | days 1..daysInMonth, cut at the bound's day only when year and month are the bound's |
| DatePicker.HourOptions | src/components/app/ModalDatePicker.tsx:254-266 | hours 0–23, cut at the bound's hour only on the bound's date |
| DatePicker.MinuteOptions | src/components/app/ModalDatePicker.tsx:269-282 | minutes 0–59, cut at the bound's minute only on the bound's date and hour |
| DatePicker.MaxDayFor | src/components/app/ModalDatePicker.tsx:298-301 | the month's length, lowered to the bound's day in the bound's year and month |
| DatePicker.MaxDayIsLastDayOption | src/components/app/ModalDatePicker.tsx:237-251 | the largest day the pass allows is an option of the day wheel and no option is larger |
| DatePicker.AdjustStep | src/components/app/ModalDatePicker.tsx:284-328 | a pass changes at most one field; it never raises a field; a changed field takes the bound's value (the day: min(daysInMonth, bound day)) |
| DatePicker.AdjustFixedIff | src/components/app/ModalDatePicker.tsx:284-328 | a pass leaves the selection alone if and only if the selection is a real date not after the bound |
| DatePicker.StageAdvances | src/components/app/ModalDatePicker.tsx:284-328 | a pass that changes something moves past the check (year, month, day, hour, minute) it fixed |
| DatePicker.IterateStage | src/components/app/ModalDatePicker.tsx:284-341 | n re-runs pass at least min(checks passed + n, 5) checks |
| DatePicker.IterateOfFixed | src/components/app/ModalDatePicker.tsx:284-341 | re-running the effect on a fixed point changes nothing |
| DatePicker.AdjustSettles | src/components/app/ModalDatePicker.tsx:284-341 | after five or more re-runs the selection is a fixed point, a real date and not after the bound |
| DatePicker.IterateOnlyLowers | src/components/app/ModalDatePicker.tsx:284-341 | re-runs only lower fields, so the settled selection is never later field by field |
| DatePicker.SettledIffInDomains | src/components/app/ModalDatePicker.tsx:216-328 | every field is one of its wheel's options if and only if the pass leaves the selection alone and the year is within the year wheel's span |
| DatePicker.Confirmed | src/components/app/ModalDatePicker.tsx:343-351 | the confirmed value is a real date; for a real date it is the selection, with the time zeroed when the time is excluded; a day past the month's end rolls over into the next month (January of the next year after December) as that many days past the month's length; the hour and minute are the selection's, or 0 when the time is excluded, in every case |
| DatePicker.ConfirmedNotAfterBound | src/components/app/ModalDatePicker.tsx:343-351 | a settled selection is never confirmed as a moment after the bound |
| DatePicker.ConfirmTextRoundTrip | src/components/app/ModalDatePicker.tsx:343-354 | the emitted text of a real date with a four-digit year parses back to the selection (time zeroed when excluded) |
| DatePicker.Picker.constructor | src/components/app/ModalDatePicker.tsx:201-206 | the five fields are seeded from the initial value |
| DatePicker.Picker.SelectYear | src/components/app/ModalDatePicker.tsx:420 | only the year changes |
| DatePicker.Picker.SelectMonth | src/components/app/ModalDatePicker.tsx:394 | only the month changes |
| DatePicker.Picker.SelectDay | src/components/app/ModalDatePicker.tsx:407 | only the day changes |
| DatePicker.Picker.SelectHour | src/components/app/ModalDatePicker.tsx:436 | only the hour changes |
| DatePicker.Picker.SelectMinute | src/components/app/ModalDatePicker.tsx:449 | only the minute changes |
| DatePicker.Picker.Adjust | src/components/app/ModalDatePicker.tsx:284-328 | the early-return effect body sets the selection to one pass of the clamp, whose properties are the lemmas above |
| DatePicker.Picker.Confirm | src/components/app/ModalDatePicker.tsx:343-355 | the text passed to `onSelect` is the formatted confirmed value |
| QuitStore.Merge | src/store/useQuitStore.ts:117 | each of the six fields is overwritten with the supplied value when supplied and kept otherwise |
| QuitStore.MergeOverwritesOnlySupplied | src/store/useQuitStore.ts:115-118 | an empty update changes nothing; an update is idempotent; two updates in a row are one update in which the later value wins |
| QuitStore.ReplaceById | src/store/useQuitStore.ts:99-101 | same length; every item with the id is replaced and every other item kept at its position |
| QuitStore.RemoveById | src/store/useQuitStore.ts:106 | an item remains exactly when it was there and has a different id |
| QuitStore.RemoveKeepsOrder | src/store/useQuitStore.ts:104-107 | deletion works piecewise on a concatenation, so the kept items stay in order |
| QuitStore.RemoveAbsentIsNoOp | src/store/useQuitStore.ts:104-107 | deleting an id no item has changes nothing |
| QuitStore.ReplaceAbsentIsNoOp | src/store/useQuitStore.ts:97-102 | updating an id no item has changes nothing |
| QuitStore.DeleteUndoesAdd | src/store/useQuitStore.ts:95-107 | adding an item with a fresh id and deleting that id restores the list |
| QuitStore.WithBenefitType | src/store/useQuitStore.ts:207-215 | the merge of the chosen type and its default unit ("minutes" for time, "$" for money); name, description, quit date and amount are kept |
| QuitStore.BenefitTypeLastChoiceWins | src/store/useQuitStore.ts:207-215 | choosing a type again replaces the earlier choice and its unit |
| QuitStore.Store.constructor | src/store/useQuitStore.ts:86-92 | no items, dialog closed, nothing being edited or confirmed, the default form |
| QuitStore.Store.AddItem | src/store/useQuitStore.ts:95 | the item is appended after the existing ones |
| QuitStore.Store.UpdateItem | src/store/useQuitStore.ts:97-102 | the list becomes the replacement by id |
| QuitStore.Store.DeleteItem | src/store/useQuitStore.ts:104-107 | the list becomes the removal by id |
| QuitStore.Store.SetEditingItem | src/store/useQuitStore.ts:109 | only the item being edited changes |
| QuitStore.Store.SetDeleteConfirmItem | src/store/useQuitStore.ts:111 | only the item awaiting delete confirmation changes |
| QuitStore.Store.SetDialogOpen | src/store/useQuitStore.ts:113 | only the dialog flag changes |
| QuitStore.Store.UpdateFormData | src/store/useQuitStore.ts:115-118 | the form becomes the merge of the old form and the update |
| QuitStore.Store.ResetForm | src/store/useQuitStore.ts:120-125 | default form, nothing being edited, dialog closed |
| QuitStore.Store.UpdateCurrentTime | src/store/useQuitStore.ts:127 | the current time becomes the clock reading |
| QuitStore.Store.HandleBenefitTypeChange | src/store/useQuitStore.ts:207-215 | the type is set with unit "minutes" for time or "$" for money; other form fields are unchanged |
| Elapsed.CalculateTimeElapsed | src/store/useQuitStore.ts:130-141 | hours < 24, minutes < 60, seconds < 60, and the decomposition comes within one second below the difference |
| Elapsed.TimeElapsedIsUnique | src/store/useQuitStore.ts:130-141 | no other in-range decomposition comes within a second of the difference |
| Elapsed.FromLargestPositive | src/store/useQuitStore.ts:195-205 | drops leading units that are not positive: the result is a suffix whose first unit is positive unless only the seconds remain, and every dropped unit is not positive |
| Elapsed.RenderedUnits | src/store/useQuitStore.ts:195-205 | the four templates of formatTimeElapsed are the rendering of the units from the largest positive one |
| Elapsed.FormatTimeElapsed | src/store/useQuitStore.ts:195-205 | the text lists the units from the largest positive one down to the seconds, each as value and suffix, separated by single spaces |
| Elapsed.FormatExample | src/store/useQuitStore.ts:195-205 | 5 minutes and 3 seconds read "5m 3s" |
| Elapsed.TotalDays | src/store/useQuitStore.ts:147-150 | never negative; for a non-negative decomposition 24 times the result is 24 × days + hours |
| Elapsed.BenefitTotal | src/store/useQuitStore.ts:147-154 | 24 times the total is (24 × days + hours) × daily amount; residual minutes and seconds do not count |
| Elapsed.TimeLabel | src/store/useQuitStore.ts:156-174 | at 60 minutes or more the label is "{h}h {m}m", with h ≥ 1 the whole hours and 0 ≤ m < 60 the whole minutes left; below that it is "{floor}m" |
| Elapsed.CalculateBenefit | src/store/useQuitStore.ts:143-193 | null if and only if the type is missing or the amount is missing or 0; otherwise the kind and daily amount are the item's, the total is the elapsed days times the amount, the unit is the time label or the currency symbol ("$" by default) |
| Elapsed.TimeBenefitExample | src/store/useQuitStore.ts:152-167 | 30 minutes a day over exactly three days is labelled "1h 30m" |

## Left out

- Option labels: month names from dayjs `format("MMM")`, two-digit labels, and the
  display text of the dialog. Option lists are the lists of values.
- dayjs parsing of `initialDate` and of the quit date. The picker starts from a
  given date; the elapsed time starts from a given millisecond difference.
- The calendar grid of the dialog (`ModalDatePicker.tsx:465-468`). Its `onSelect`
  only logs.
- Smooth-scroll animation. A scroll is taken to arrive at its resting offset,
  and the scroll event it causes is a separate call.
- Timer durations. Timers are events that can fire in any order. Only the
  100 ms comparison is kept, through clock parameters.
- `animationFrameRef` in `ScrollWheel.tsx`. Nothing ever assigns it, so its
  cancellations never run.
- Event-listener registration. Listeners are attached only while the container
  exists, so gesture methods require a mounted wheel.
- The money branch of `calculateBenefit`: the en-US `toLocaleString` rendering of
  the total. The model keeps the symbol and the exact total.
- Floating point. Amounts are exact reals. A NaN amount (falsy in JavaScript) is
  not modelled.
- An explicitly `undefined` field in a `Partial<FormData>` update. It is modelled
  as absent.
- Elapsed.CalculateTimeElapsed: modelled only for a non-negative difference.
  dayjs's duration fields are taken as the remainders within a day. dayjs's
  duration plugin first splits off 365-day years and months of 365/12 days, so
  for differences over about a month its `hours()`, `minutes()` and
  `seconds()` may differ from what the model computes (for exactly 31 days the
  model gives 0 hours), and `calculateBenefit`'s day count with them. The dayjs
  library is not part of this model. The benefit uses max(0, difference), which
  gives the same total (0) for a quit date in the future.
- `persist` to localStorage, and the `setInterval` clock tick in `App.tsx`.
- The forms and lists (`QuitForm.tsx`, `QuitList.tsx`, `QuitItemCard.tsx`,
  `DeleteConfirmation.tsx`, `AppHeader.tsx`), the theme provider and the toaster.
- DatePicker: the current year of the year wheel and the bound are one instant.
  The source reads the clock twice, at lines 209 and 217.
- ScrollWheel.Wheel.ExternalValueChange: the value effect and the cleanup of the
  listener effect are modelled as running on every update of the props. The
  source runs the first only when `value` or the memoised `scrollToValue`
  changes, and the second only when the memoised handlers change. Both hold
  after a real change of the value or the options.
- Local time. Dates are five fields with no time zone and no daylight-saving
  rule. In a spring-forward gap, dayjs's `.hour(2)` lands on 03:xx, so there
  the emitted text differs from the selection and DatePicker.ConfirmTextRoundTrip
  does not describe the source (`ModalDatePicker.tsx:343-354`).
