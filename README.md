# Arthur Sleep customer portal: a Dafny model of its core

The Arthur Sleep portal is a mock customer portal for a bespoke shoemaker, built with Next.js.
Customers see their wardrobe and team, book scans, send voice or text messages, and give fit
feedback. This project models the parts of the portal that hold logic rather than markup, and
proves properties of that model:

- **The voice-recording hook** (`useAudio`) is a class, `AudioEngine.Recorder`. Its fields are
  the hook's state and refs: the recorder, the chunk buffer, the stream, the start time and the
  interval. The interval records the `isRecording` value that its `stopRecording` captured.
  The component that drives it (`MessageRecorder`) is a class, `MessageRecorder.RecorderView`.
  It owns the playback element and the object URLs it creates and revokes.
- **The mock REST handlers** are modelled as follows:
  - Appointments, availability, feedback, messages, orders and weather are each a module.
  - A handler returns an `Http.Response` (status and body).
  - The two handlers that mutate a module-level array (appointments and feedback) are classes
    with a `records` sequence.
  - The others are functions over the mock list, passed in as a parameter.
- **The pure helpers of `src/lib/utils.ts`** are functions, each with a lemma that states its
  promise.
- **The modals, screens and the modal hook** are classes. Their fields are the components'
  `useState` variables and their methods are the click handlers and timer events. Each has a
  scenario method at the end that drives it and states the outcome.

The shared modules hold the following:

- `Wrappers` holds `Option`.
- `Js` holds JavaScript truthiness. `Present(x)` means a string field is given and not `""`.
- `Http` holds the status codes.
- `Text` holds ASCII case mapping, split and join, decimal digits, padding and trimming.
- `Seqs` holds filter, count, a stable sort by key, take, remove-at and find-index.

Clocks, random numbers, device capabilities and fetched data enter as parameters: `now` in
milliseconds, a `roll`, a `granted` flag or an optional `Reading`. Dates are integers.

In four places the code does something other than what a reader would expect of it. The model
follows the code in each:

- The hook's `duration` counts time spent paused. The interval started at src/hooks/useAudio.ts:53
  is never cleared by `pauseRecording` (lines 83-88), and it measures from the start time
  (`AudioEngine.PausedTimeIsCounted`: 5 s recording, 3 s paused and 2 s more show 10 s, not 7).
- The guard `maxDuration && elapsed >= maxDuration` (useAudio.ts:57) means to stop the recording
  at the limit. As written it never fires for a recording started from idle. See Findings.
- The effect commented "Cleanup on unmount" (useAudio.ts:104-111) also runs its cleanup whenever
  `isRecording` changes. After every stop it stops the recorder a second time. See Findings.
- The PUT handler carries the comment "Check new slot availability"
  (src/app/api/appointments/route.ts:242), but it does not check the new date and time for a
  conflict. See Findings.

## Model

| member | source | states |
|---|---|---|
| AudioEngine.ElapsedSeconds | src/hooks/useAudio.ts:54 | the elapsed value is the whole seconds since start: `1000*s <= now-start < 1000*(s+1)` |
| AudioEngine.ElapsedMonotone | src/hooks/useAudio.ts:53-55 | for a clock that does not go back, the shown duration never decreases |
| AudioEngine.PartsSizeAtLeastCount | src/hooks/useAudio.ts:33-37 | a blob of only non-empty chunks has at least one byte per chunk |
| AudioEngine.PartsSizeAppend | src/hooks/useAudio.ts:35 | buffering a chunk adds exactly its size to the blob to come |
| AudioEngine.Recorder.constructor | src/hooks/useAudio.ts:8-21 | `maxDuration` defaults to 300; not recording, not paused, duration 0, no blob, no error, no recorder, empty buffer, no interval |
| AudioEngine.Recorder.Start | src/hooks/useAudio.ts:23-66 | the whole new hook state: a denied microphone changes only the error, to the fixed permission message; a granted one clears the error, opens a stream, empties the buffer, sets recording and not paused, stamps the start time, and arms an interval that captured the old `isRecording`; a start over a running recording leaks the old interval and stream; blob, duration and callbacks are untouched |
| AudioEngine.Recorder.OpenStream | src/hooks/useAudio.ts:25-27 | the whole new state: the error is cleared and a stream is live; a stream that was live is counted as leaked; nothing else changes |
| AudioEngine.Recorder.StartRecorder | src/hooks/useAudio.ts:29-60 | the whole new state: a new active recorder, an empty buffer, recording and not paused, the start time, and an interval carrying the captured `isRecording`; an interval the ref held is leaked |
| AudioEngine.Recorder.Chunk | src/hooks/useAudio.ts:33-37 | the whole new state: a chunk of size > 0 is appended to the buffer and an empty one is dropped; every other field, the callbacks included, is unchanged |
| AudioEngine.Recorder.FinishRecorder | src/hooks/useAudio.ts:39-45 | `stop()` and its `onstop`, on every call: the recorder goes inactive, a new blob is made of exactly the buffered chunks and shown, and it is handed to the callback when there is one; nothing else changes |
| AudioEngine.Recorder.Stop | src/hooks/useAudio.ts:68-81 | the whole new state: when recording it finishes the recorder, stops the stream, clears the interval and publishes the blob; when not recording it changes nothing; a second call of this render's `stopRecording` would still pass its guard, which `Commit` shows |
| AudioEngine.Recorder.StaleStop | src/hooks/useAudio.ts:68-81 | the whole new state of a `stopRecording` from an earlier render: one whose captured `isRecording` is false, or with no recorder made, changes nothing; one that captured true stops the recorder again and publishes a new blob, whatever the current state |
| AudioEngine.Recorder.Pause | src/hooks/useAudio.ts:83-88 | the whole new state: pauses the recorder only when recording and not paused, and otherwise changes nothing; the duration, the interval and the buffer are untouched |
| AudioEngine.Recorder.Resume | src/hooks/useAudio.ts:90-95 | the whole new state: resumes only when recording and paused, and otherwise changes nothing |
| AudioEngine.Recorder.Reset | src/hooks/useAudio.ts:97-102 | the whole new state: the stop of the same render (when recording), then no blob, duration 0 and no error; a running recording is handed to the callback once by this call |
| AudioEngine.Recorder.Unmount | src/hooks/useAudio.ts:104-111 | the whole new state: the cleanup of the committed effect stops the recorder and publishes a blob when the committed render was recording, and otherwise changes nothing |
| AudioEngine.Recorder.Tick | src/hooks/useAudio.ts:53-60 | the intended ticker, as the whole new state: the duration becomes the elapsed seconds, and once it reaches a non-zero `maxDuration` a running recording stops and its blob is published; with no interval scheduled nothing changes |
| AudioEngine.Recorder.TickAsWritten | src/hooks/useAudio.ts:53-60 | the ticker as written, as the whole new state: the duration is set, and the auto-stop acts only through an interval that captured `isRecording == true` |
| AudioEngine.StaleAutoStopWitness | src/hooks/useAudio.ts:57-66 | as written, a recording started from idle with a 10 s limit is still recording after 11 s |
| AudioEngine.AutoStopIntended | src/hooks/useAudio.ts:57-59 | with the intended ticker the same recording stops at 10 s and keeps its blob |
| AudioEngine.PausedTimeIsCounted | src/hooks/useAudio.ts:54 | 5 s recording, 3 s paused and 2 s more show 10 s |
| AudioEngine.ZeroMeansNoLimit | src/hooks/useAudio.ts:57 | `maxDuration` 0 is falsy and disables the auto-stop |
| AudioEngine.Recorder.Commit | src/hooks/useAudio.ts:104-111 | the commit after a render, as written: when the committed render was recording and this one is not, the old cleanup's `stopRecording` stops the recorder again, making and showing a second blob; the new `isRecording` is recorded as committed; nothing else changes |
| AudioEngine.Recorder.CommitIntended | src/hooks/useAudio.ts:104-111 | the commit the comment "Cleanup on unmount" intends: only the committed `isRecording` changes |
| AudioEngine.StopAsWrittenStopsTwice | src/hooks/useAudio.ts:68-111 | as written, a stop and its commit make two blobs of the same chunks, hand both to the callback, and leave the second on screen |
| AudioEngine.StopIntendedStopsOnce | src/hooks/useAudio.ts:68-111 | with the intended commit, a stop makes one blob of the buffered chunks and one callback |
| AudioEngine.StopAsWrittenNotifiesTwice | src/hooks/useAudio.ts:104-111 | as written, one recording with a callback and one press of Stop call `onRecordingComplete` twice |
| AudioEngine.StopIntendedNotifiesOnce | src/hooks/useAudio.ts:104-111 | with the intended commit the same session calls it once |
| AudioEngine.ResetAsWrittenShowsBlob | src/hooks/useAudio.ts:97-111 | as written, a reset during a recording notifies twice and leaves a blob on screen |
| AudioEngine.ResetIntendedNotifiesOnce | src/hooks/useAudio.ts:97-102 | with the intended commit, a reset during a recording calls `onRecordingComplete` once and leaves no blob on screen |
| AudioEngine.DeniedMicrophone | src/hooks/useAudio.ts:62-64 | a denied start leaves the hook not recording, with the permission message |
| MessageRecorder.ControlsFor | src/components/features/MessageRecorder.tsx:90-177 | the recording section shows iff there is no blob and the playback section iff there is one; Start shows only when not recording; Pause and Stop only when recording and not paused; Resume and Stop only when recording and paused; the waveform only while recording unpaused |
| MessageRecorder.OneButtonGroup | src/components/features/MessageRecorder.tsx:116-226 | exactly one group of buttons is on screen, and Stop is offered exactly while recording without a blob |
| MessageRecorder.StatusText | src/components/features/MessageRecorder.tsx:104-114 | "Paused", "Recording..." or the tap prompt, each exactly in its state |
| MessageRecorder.Warning | src/components/features/MessageRecorder.tsx:168-172 | the warning shows iff there is no blob yet and `duration >= maxDuration - 30`, and it says `maxDuration - duration` seconds, which is at most 30 |
| MessageRecorder.ShownDuration | src/components/features/MessageRecorder.tsx:48-52 | the `m:ss` text reads back as the seconds shown |
| MessageRecorder.RecorderView.PlaybackHasElement | src/components/features/MessageRecorder.tsx:35-46 | once synced, a blob on screen always has a playback element whose URL is not revoked |
| MessageRecorder.RecorderView.constructor | src/components/features/MessageRecorder.tsx:16-33 | `maxDuration` defaults to 300; a fresh engine; not playing; no element and no URL yet |
| MessageRecorder.RecorderView.Sync | src/components/features/MessageRecorder.tsx:35-46 | the effect on `[audioBlob]`, as the whole new component state: a new blob gets a new object URL and a paused element; the previous URL is revoked and its element paused; without a blob only the old element is paused; an unchanged blob changes nothing |
| MessageRecorder.RecorderView.ClickStart | src/components/features/MessageRecorder.tsx:117-125 | offered only when the Start button shows; the whole new hook state is a granted or a denied start, with the new `isRecording` committed; a granted start leads to Pause and Stop, a denied one keeps Start with the permission message; the component state is unchanged |
| MessageRecorder.RecorderView.ClickPause | src/components/features/MessageRecorder.tsx:127-135 | the hook changes only by pausing its recorder, so Resume and Stop show; the component state is unchanged |
| MessageRecorder.RecorderView.ClickResume | src/components/features/MessageRecorder.tsx:147-155 | the hook changes only by resuming its recorder, so Pause and Stop show; the component state is unchanged |
| MessageRecorder.RecorderView.ClickStop | src/components/features/MessageRecorder.tsx:136-163 | the whole new state: the stop, then the commit's second stop; the blob is exactly the buffered chunks and the playback section shows; two URLs are created, the first revoked at once, and the element plays the second |
| MessageRecorder.RecorderView.DataAvailable | src/hooks/useAudio.ts:33-37 | only chunks of size > 0 reach the engine's buffer, in order; nothing else changes |
| MessageRecorder.RecorderView.Tick | src/hooks/useAudio.ts:53-60 | with the intended ticker: the duration follows the clock; a recording never runs at or past a non-zero limit; an auto-stop is followed by the commit's second stop and leaves a blob of the buffered chunks with two URLs created; otherwise the component state is unchanged |
| MessageRecorder.RecorderView.PlayPause | src/components/features/MessageRecorder.tsx:54-64 | without an element nothing happens; otherwise `isPlaying` flips and the element plays or pauses accordingly; nothing else changes |
| MessageRecorder.RecorderView.Ended | src/components/features/MessageRecorder.tsx:36-40 | the element's `ended` event: not playing, and the element is paused; nothing else changes |
| MessageRecorder.RecorderView.SendArguments | src/components/features/MessageRecorder.tsx:66-70 | `onSend` is called exactly when a blob exists, with that blob and the duration |
| MessageRecorder.RecorderView.Reset | src/components/features/MessageRecorder.tsx:72-79 | offered only with a blob, as the Re-record button of the playback section: the hook loses its blob, duration and error and nothing else; the element is paused and rewound, `isPlaying` is false, the blob's URL is revoked so every created URL is, and Start shows again |
| MessageRecorder.RecorderView.Unmount | src/components/features/MessageRecorder.tsx:35-46 | the whole new state: a running recording is stopped by the committed cleanup, the live element is paused, every created URL is revoked, and the component is unmounted |
| MessageRecorder.Take | src/components/features/MessageRecorder.tsx:117-163 | start, record a chunk and stop: a blob is shown and exactly two new URLs are created |
| MessageRecorder.TwoTakes | src/components/features/MessageRecorder.tsx:35-46 | record, re-record, record and unmount: four URLs were created and all are revoked |
| Utils.FormatTime | src/lib/utils.ts:34-38 | the text ends in `:` and a two-digit seconds field, the seconds being the remainder below 60; what it means is `FormatTimeRoundTrip` |
| Utils.FormatTimeRoundTrip | src/lib/utils.ts:34-38 | `formatTime` gives a two-digit seconds field below 60, and reading `m:ss` back gives `m*60 + ss == seconds` |
| Utils.FitConfidenceLevel | src/lib/utils.ts:49-54 | excellent for >= 95, good for 85 to 94, fair for 75 to 84, otherwise poor, each both ways (thresholds from src/lib/constants.ts) |
| Utils.FitConfidenceMonotone | src/lib/constants.ts:84-89 | a higher confidence never gives a lower level |
| Utils.TruncateText | src/lib/utils.ts:82-85 | a text of at most `maxLength` characters is unchanged; a longer one becomes a prefix of it followed by "...", `maxLength` characters long (3 when `maxLength` is below 3) |
| Utils.TruncateIdempotent | src/lib/utils.ts:82-85 | truncating twice is truncating once |
| Utils.CalculateProgress | src/lib/utils.ts:103-106 | 0 for a zero total; otherwise the percentage rounded to the nearest integer |
| Utils.ProgressBounded | src/lib/utils.ts:103-106 | for `0 <= completed <= total` the result lies in [0, 100] |
| Utils.ProgressMonotone | src/lib/utils.ts:103-106 | more completed never gives less progress |
| Utils.CapitalizeWords | src/lib/utils.ts:68-72 | no ensures of its own: split on spaces, capitalise each word, join; `CapitalizeWordsSplit`, `CapitalizeWordsKeepsWordCount` and `CapitalizeWordsIdempotent` state what it does |
| Utils.CapitalizeWordIdempotent | src/lib/utils.ts:69-71 | capitalising a word twice is capitalising it once |
| Utils.CapitalizeWordsSplit | src/lib/utils.ts:68-72 | the words of the result are the capitalised words of the input, one for one |
| Utils.CapitalizeWordsKeepsWordCount | src/lib/utils.ts:68-72 | the number of space-separated words is preserved |
| Utils.CapitalizeWordsIdempotent | src/lib/utils.ts:68-72 | `capitalizeWords` is idempotent |
| Utils.FirstCharsOfNonEmpty | src/lib/utils.ts:76-78 | `n[0]` of an empty word is `undefined` and joins as nothing; the initials are the first letters of the non-empty words |
| Utils.GetInitials | src/lib/utils.ts:74-80 | no ensures of its own: the upper-cased first characters of the space-separated words; `GetInitialsSpec` states what it gives |
| Utils.GetInitialsSpec | src/lib/utils.ts:74-80 | one uppercased character per non-empty space-separated word, in order |
| Utils.ClassNames | src/lib/utils.ts:99-101 | no ensures of its own: the truthy arguments printed and joined by spaces; `ClassNamesSplit`, `PrintedKeptNonEmpty` and `ClassNamesNoneKept` state what it gives |
| Utils.ClassNamesSplit | src/lib/utils.ts:99-101 | the classes that come out are exactly the truthy arguments, in order, joined by single spaces |
| Utils.PrintedKeptNonEmpty | src/lib/utils.ts:100 | a truthy argument always contributes a class |
| Utils.ClassNamesNoneKept | src/lib/utils.ts:100 | with no truthy argument the result is empty |
| Utils.DiffDays | src/lib/utils.ts:4-6 | the day difference is the absolute difference rounded up to whole days |
| Utils.Bucket | src/lib/utils.ts:9-15 | no ensures of its own: which of Today, Yesterday or a count of days, weeks, months or years a day difference falls in; `BucketBrackets` and `BucketMonotone` state its ranges |
| Utils.Render | src/lib/utils.ts:10-15 | no ensures of its own: the text of a bucket; `RenderInjective` states that the text determines the bucket |
| Utils.FormatRelative | src/lib/utils.ts:9-15 | `formatDate(date, 'relative')` for a day difference: the text is "Today" exactly for 0 and "Yesterday" exactly for 1 |
| Utils.BucketBrackets | src/lib/utils.ts:9-15 | 0 is Today, 1 Yesterday, 2 to 6 days, 7 to 29 weeks, 30 to 364 months, then years, and the count is the whole number of units |
| Utils.BucketMonotone | src/lib/utils.ts:9-15 | an older date never uses a finer unit |
| Utils.RenderInjective | src/lib/utils.ts:10-15 | different relative dates never render to the same text |
| Utils.WeatherIconDefaultOnlyForUnknown | src/lib/utils.ts:108-120 | the default icon is returned exactly for conditions that are not in the table |
| Utils.WeatherIcon | src/lib/utils.ts:108-120 | a known condition gets its icon and any other the default; the result is never empty |
| Availability.GenerateAvailableSlots | src/app/api/appointments/availability/route.ts:4-20 | the slot times are the base times minus the booked ones, in order; each slot is available and lasts 45 minutes for a consultation and 30 otherwise |
| Availability.Free | src/app/api/appointments/availability/route.ts:13-14 | the filter keeps at most the base times and never a booked one; `FreeMembers` gives membership both ways |
| Availability.FreeMembers | src/app/api/appointments/availability/route.ts:13-14 | a time is free exactly when it is a base time and not a booked one |
| Availability.FreeTimesValue | src/app/api/appointments/availability/route.ts:5-14 | the seven free times are 10:00, 10:30, 11:30, 14:00, 15:30, 16:00 and 16:30 |
| Availability.FreeTimesAreBaseMinusBooked | src/app/api/appointments/availability/route.ts:13-19 | a time appears in the slots iff it is a base time and not booked |
| Availability.TimeText | src/app/api/appointments/availability/route.ts:5-9 | a time of day is written as five characters `HH:MM` |
| Availability.ServiceDetails | src/app/api/appointments/availability/route.ts:45-66 | details exist exactly for scan, consultation and fitting, all at the Mount Street Atelier, lasting 45 minutes for a consultation and 30 otherwise |
| Availability.ServiceMatchesSlots | src/app/api/appointments/availability/route.ts:18 | the details' duration agrees with the slots' length |
| Availability.NextAvailable | src/app/api/appointments/availability/route.ts:68 | the first slot's time, or null when there are no slots |
| Availability.Get | src/app/api/appointments/availability/route.ts:22-69 | a missing type or date gives 400 "Service type and date required"; an unknown type gives 400 "Invalid service type"; otherwise 200 with the date, type, that type's details, the slots and 10:00 as next available |
| Availability.GetSucceedsIff | src/app/api/appointments/availability/route.ts:28-41 | the request succeeds exactly when both parameters are given and the type is known, and fails with 400 otherwise |
| Appointments.SlotTaken | src/app/api/appointments/route.ts:153-155 | no ensures of its own: POST's `find` on date and time over every record, whatever its customer or status; `Store.Post` and `CancelledSlotStaysTaken` use it |
| Appointments.AppendKeepsUnique | src/app/api/appointments/route.ts:153-183 | appending a record whose date and time are free keeps every slot held once |
| Appointments.ReplaceKeepsUnique | src/app/api/appointments/route.ts:247-253 | replacing a record by one whose slot no other record holds keeps slots unique |
| Appointments.NewAppointment | src/app/api/appointments/route.ts:165-181 | the new record has id `apt_<now>`, the request's fields, notes defaulting to "", team member defaulting to rebecca, status confirmed, and email and SMS reminders one day before |
| Appointments.PreparationInstructions | src/app/api/appointments/route.ts:319-339 | three lines for scan, consultation and fitting, and an empty list for anything else |
| Appointments.PreparationMatchesServices | src/app/api/appointments/route.ts:319-339 | instructions exist exactly for the types the availability endpoint offers |
| Appointments.ApplyUpdate | src/app/api/appointments/route.ts:241-262 | date and time are replaced only when given and truthy, the instant and `updatedAt` only then; notes are replaced when defined and status when present; an unparsable new slot fails; every other field is kept |
| Appointments.UpdateWithoutSlotKeepsSlot | src/app/api/appointments/route.ts:241 | an update without date or time keeps the record's slot and instant |
| Appointments.Cancel | src/app/api/appointments/route.ts:299-303 | soft cancellation: status becomes cancelled and `cancelledAt` the time; every other field, the slot and `updatedAt` included, is kept |
| Appointments.ListFor | src/app/api/appointments/route.ts:41-56 | the listing is sorted by instant ascending and holds every record the customer and `upcoming` filters keep, each as often as the store does, and nothing else |
| Appointments.ListForMembers | src/app/api/appointments/route.ts:41-50 | a record is listed exactly when it is in the store, is the customer's, and with `upcoming` lies strictly after now |
| Appointments.Store.constructor | src/app/api/appointments/route.ts:4 | the store starts empty |
| Appointments.Store.Get | src/app/api/appointments/route.ts:27-60 | no customer id gives 400; otherwise 200 with the customer's listing and its length as `total` |
| Appointments.Store.Post | src/app/api/appointments/route.ts:132-216 | a missing field gives 400, a taken slot (any customer, any status) 409 and an unparsable slot 500, each with the store unchanged; 201 exactly otherwise, with exactly the new record appended and the confirmation body; slot uniqueness is preserved |
| Appointments.Store.Put | src/app/api/appointments/route.ts:219-276 | an unknown id gives 404 and an unparsable new slot 500, each with the store unchanged; otherwise only that record is replaced by its update, with no conflict check |
| Appointments.Store.PutChecked | src/app/api/appointments/route.ts:241-254 | the corrected update: a new slot held by another record gives 409 with the store unchanged; slot uniqueness is preserved |
| Appointments.Store.Delete | src/app/api/appointments/route.ts:279-316 | an unknown id gives 404; otherwise only that record is cancelled, the store keeps its length and slot uniqueness is preserved |
| Appointments.PutCanDuplicateSlot | src/app/api/appointments/route.ts:241-254 | two records with distinct slots; a PUT that moves the second to the first's time leaves two records on one slot |
| Appointments.PutCheckedRefusesDuplicate | src/app/api/appointments/route.ts:153-162 | writing a slot another record holds would break uniqueness, which is why the corrected PUT refuses it |
| Appointments.CancelledSlotStaysTaken | src/app/api/appointments/route.ts:153-162 | a cancelled record still blocks its slot for later bookings |
| Feedback.ImpactOf | src/app/api/feedback/route.ts:176-185 | a known issue code gets a text of its own; exactly the other codes get "Pattern will be adjusted" |
| Feedback.Improvements | src/app/api/feedback/route.ts:184-186 | at most the first three issues, each mapped to its text, in order |
| Feedback.CalculateFeedbackImpact | src/app/api/feedback/route.ts:166-193 | perfect gives "+2%" with the fixed texts; anything else gives "-5%" and the improvements joined by ", " |
| Feedback.ImpactIgnoresLaterIssues | src/app/api/feedback/route.ts:186 | issues after the third do not change the impact |
| Feedback.TallyStep | src/app/api/feedback/route.ts:201 | one `issueCount[issue] = (issueCount[issue] \|\| 0) + 1` keeps the tally exact, adding a key on first sight |
| Feedback.TallyNext | src/app/api/feedback/route.ts:198-204 | after a report, the tally counts the issues of reports with status issues so far, and no others |
| Feedback.TallyIssues | src/app/api/feedback/route.ts:200-202 | the inner loop adds one report's issues to the tally |
| Feedback.CountIssues | src/app/api/feedback/route.ts:196-204 | the dictionary holds exactly the issues that occur, each with its number of occurrences among reports with issues, in first-seen order |
| Feedback.Entries | src/app/api/feedback/route.ts:206 | `Object.entries`: one pair per key, in key order, with that key's count |
| Feedback.CommonIssues | src/app/api/feedback/route.ts:195-210 | at most five distinct issues, each with its true count (>= 1), most frequent first, and no issue left out that outnumbers one kept |
| Feedback.PrefixKeeps | src/app/api/feedback/route.ts:208 | keeping the first five keeps exact counts and distinct issues |
| Feedback.SortedCountsExact | src/app/api/feedback/route.ts:206-207 | the sorted entries still carry exact counts |
| Feedback.TopKeepsOrder | src/app/api/feedback/route.ts:207-208 | the first five of a list sorted by count are in descending order |
| Feedback.SortedTopComplete | src/app/api/feedback/route.ts:206-209 | an issue left out of the top five never outnumbers one kept, and one is left out only when five are kept |
| Feedback.EntriesDistinctIssues | src/app/api/feedback/route.ts:206 | the entries name each issue once, whatever the sort does |
| Feedback.HistoryFor | src/app/api/feedback/route.ts:90-99 | the history is sorted newest first and holds every report the customer and shoe filters keep, each as often as the store does, and nothing else |
| Feedback.HistoryMembers | src/app/api/feedback/route.ts:90-94 | a report is listed exactly when it is in the store, the customer's, and for the given shoe if one is given |
| Feedback.StatusCountsAddUp | src/app/api/feedback/route.ts:102-107 | for reports that are perfect or have issues, `perfectFit + withIssues == totalFeedback` |
| Feedback.NewRecord | src/app/api/feedback/route.ts:35-44 | the id is `feedback_<now>`; the issue list is kept only when the status is issues; comments default to ""; not processed |
| Feedback.Revise | src/app/api/feedback/route.ts:144-149 | comments are replaced only by a non-empty string, issues whenever given (an empty array is truthy); `updatedAt` is set; nothing else changes |
| Feedback.Store.constructor | src/app/api/feedback/route.ts:4 | the store starts empty |
| Feedback.Store.Post | src/app/api/feedback/route.ts:7-73 | a missing field or an invalid status gives 400 with the store unchanged; 201 exactly otherwise, with exactly the new record appended and its impact in the body; every stored status stays valid |
| Feedback.Store.Get | src/app/api/feedback/route.ts:76-121 | no customer gives 400; otherwise the history with its length, the perfect and issues counts, which add up to the total, and the top issues |
| Feedback.Store.Put | src/app/api/feedback/route.ts:124-163 | an unknown id gives 404; otherwise only that report is revised and returned |
| Messages.Thread | src/app/api/messages/route.ts:49-60 | the listed messages are sorted newest first and are every message the customer and unread filters keep, each as often as the store does, and nothing else |
| Messages.ThreadMembers | src/app/api/messages/route.ts:49-55 | a message is listed exactly when it is to or from the customer, and with `unread=true` only when it is unread and addressed to the customer |
| Messages.UnreadCount | src/app/api/messages/route.ts:65 | there are never more unread messages than listed ones |
| Messages.UnreadOnlyAllUnread | src/app/api/messages/route.ts:53-55 | a list of messages that all pass the unread filter has every message counted unread |
| Messages.UnreadThreadAllUnread | src/app/api/messages/route.ts:53-65 | with `unread=true` every listed message counts as unread |
| Messages.Get | src/app/api/messages/route.ts:35-74 | no customer gives 400; otherwise the listing, its length as `total` and the unread count, which equals the total under `unread=true` |
| Messages.ExpectedResponse | src/app/api/messages/route.ts:120-129 | 2 hours for rebecca, 4 for david, 3 for simon and 24 for anyone else |
| Messages.Post | src/app/api/messages/route.ts:77-138 | a missing sender or recipient, or neither content nor audio, gives 400; otherwise 201 with an unread new message; a voice note with audio gets "[Voice message]" and a length of 10 to 69 s; the mock store is not written |
| Messages.SentMessageHasContent | src/app/api/messages/route.ts:91-101 | a sent message has content when content was given or it is a voice note |
| Messages.AudioWithoutVoiceTypeHasNoContent | src/app/api/messages/route.ts:83-101 | audio sent without the voice type passes validation and is stored without content |
| Orders.OrdersOf | src/app/api/orders/route.ts:56 | exactly the customer's orders, as a sub-multiset of the store |
| Orders.Get | src/app/api/orders/route.ts:33-74 | an order id is looked up first (the order, or 404); else a customer id lists that customer's orders with `total`; with neither 400 |
| Orders.OrderIdTakesPrecedence | src/app/api/orders/route.ts:43-52 | with an order id, the customer id makes no difference |
| Orders.FoundIffListed | src/app/api/orders/route.ts:44-51 | the lookup succeeds exactly when an order has that id, and returns that order |
| Orders.Serial | src/app/api/orders/route.ts:105 | the random part of the id is three digits that read back as the roll |
| Orders.SerialInjective | src/app/api/orders/route.ts:105 | different rolls give different serials |
| Orders.Post | src/app/api/orders/route.ts:77-131 | a missing customer or style gives 400; otherwise 201 with product name defaulting to "Custom Order", status pending, progress 0 and completion 90 days on; the store is not written |
| Weather.MapWeatherCondition | src/app/api/weather/route.ts:39-53 | rain or drizzle, then cloud or overcast, then sun or clear, then snow, else dry, matched on the lower-cased text, each both ways |
| Weather.MapIgnoresCase | src/app/api/weather/route.ts:40 | the classification ignores ASCII case |
| Weather.RainOutranks | src/app/api/weather/route.ts:42-43 | any text that mentions rain is light rain, whatever else it mentions |
| Weather.EveryThirdShape | src/app/api/weather/route.ts:86 | the filter keeps exactly the hours at positions 0, 3, 6, and so on, in order |
| Weather.Forecast | src/app/api/weather/route.ts:85-95 | at most four entries: entry k is hour 3k, as long as that hour exists |
| Weather.ChanceOfRain | src/app/api/weather/route.ts:84 | the first hour's chance of rain, or 0 without hourly data |
| Weather.Transform | src/app/api/weather/route.ts:80-96 | the condition is classified, the chance of rain defaults to 0, and the forecast has at most four entries |
| Weather.Recommendations | src/app/api/weather/route.ts:106-171 | every condition but snow has an entry |
| Weather.RecommendationFor | src/app/api/weather/route.ts:183-184 | a condition's own entry, or the dry one when it has none |
| Weather.SnowFallsBackToDry | src/app/api/weather/route.ts:183-184 | snow gets the dry recommendation |
| Weather.Get | src/app/api/weather/route.ts:173-213 | location defaults to London; a reading gives 200 with its transform and recommendation; a failed fetch gives 500 with the fallback dry weather and dry recommendation |
| Weather.GetAlwaysRecommends | src/app/api/weather/route.ts:183-207 | every answer carries one of the four recommendations, the dry one on failure |
| Weather.Post | src/app/api/weather/route.ts:215-251 | no customer id gives 400; a failed fetch 500; otherwise 200 with the weather and the location defaulting to London |
| ReserveSlot.Advance | src/components/modals/ReserveSlotModal.tsx:33-45 | Continue moves one step on exactly when the current step's choice is made; otherwise, and at confirm, it stays |
| ReserveSlot.ContinueDisabledIffStuck | src/components/modals/ReserveSlotModal.tsx:231-235 | where Continue is offered it is disabled exactly when it would not advance |
| ReserveSlot.BackStep | src/components/modals/ReserveSlotModal.tsx:214-218 | Back goes to the step before: occasion to purpose, timeline to occasion |
| ReserveSlot.AdvanceKeepsReached | src/components/modals/ReserveSlotModal.tsx:33-45 | at occasion a purpose is set, at timeline an occasion too, and at confirm all three; Continue keeps this |
| ReserveSlot.BackThenContinue | src/components/modals/ReserveSlotModal.tsx:210-235 | Back keeps the selections, so Continue leads straight back |
| ReserveSlot.PurposeLabel | src/components/modals/ReserveSlotModal.tsx:165 | the summary reads Gift exactly for a gift |
| ReserveSlot.GiftNoteOnlyForGifts | src/components/modals/ReserveSlotModal.tsx:186 | the transferable-gift note appears only where the summary reads Gift |
| ReserveSlot.Wizard.constructor | src/components/modals/ReserveSlotModal.tsx:13-16 | the wizard starts at the purpose step with nothing selected |
| ReserveSlot.Wizard.ChoosePurpose | src/components/modals/ReserveSlotModal.tsx:58-71 | sets only the purpose |
| ReserveSlot.Wizard.ChooseOccasion | src/components/modals/ReserveSlotModal.tsx:97 | sets only the occasion, one of the six listed |
| ReserveSlot.Wizard.ChooseTimeline | src/components/modals/ReserveSlotModal.tsx:123 | sets only the timeline, one of the three listed |
| ReserveSlot.Wizard.HandleNext | src/components/modals/ReserveSlotModal.tsx:33-45 | only the step changes, to where Continue leads; the invariant is kept |
| ReserveSlot.Wizard.Back | src/components/modals/ReserveSlotModal.tsx:210-219 | only the step changes, one step back; not offered at purpose or confirm |
| ReserveSlot.GiftReservation | src/components/modals/ReserveSlotModal.tsx:33-186 | a gift for a wedding in six months ends at confirm with the gift note |
| FitFeedback.Toggle | src/components/modals/FitFeedbackModal.tsx:36-42 | the toggled id is listed afterwards exactly when it was not before; other ids are untouched; an absent id is appended; no duplicates appear |
| FitFeedback.ToggleTwiceRestores | src/components/modals/FitFeedbackModal.tsx:36-42 | toggling an absent id twice restores the list exactly |
| FitFeedback.ToggleTwiceSameIssues | src/components/modals/FitFeedbackModal.tsx:36-42 | toggling any id twice restores which issues are listed |
| FitFeedback.ToggleTwiceReorders | src/components/modals/FitFeedbackModal.tsx:38-40 | a listed id toggled twice moves to the end, so the order is not restored |
| FitFeedback.Sections | src/components/modals/FitFeedbackModal.tsx:44-156 | after submit only the thank-you view; otherwise the shoe picker iff no shoe, the fit choice iff a shoe and no status, and the form of the chosen status |
| FitFeedback.OneSectionAtATime | src/components/modals/FitFeedbackModal.tsx:61-156 | exactly one section is rendered |
| FitFeedback.SubmitDisabledIffNothingToSay | src/components/modals/FitFeedbackModal.tsx:212 | Submit is disabled iff on the issues form with no issue and blank comments; on the perfect form it is enabled |
| FitFeedback.Modal.constructor | src/components/modals/FitFeedbackModal.tsx:13-17 | only the first four wardrobe shoes are offered; nothing is chosen; the picker shows |
| FitFeedback.Modal.SelectShoe | src/components/modals/FitFeedbackModal.tsx:69-72 | an offered shoe is selected; nothing else changes |
| FitFeedback.Modal.ChangeShoe | src/components/modals/FitFeedbackModal.tsx:91 | only the shoe is cleared, and the picker shows again |
| FitFeedback.Modal.ChooseStatus | src/components/modals/FitFeedbackModal.tsx:105-114 | the status is set and only its form shows |
| FitFeedback.Modal.ToggleIssue | src/components/modals/FitFeedbackModal.tsx:164 | the issue list is toggled and stays free of duplicates |
| FitFeedback.Modal.SetComments | src/components/modals/FitFeedbackModal.tsx:142 | only the comments change |
| FitFeedback.Modal.Submit | src/components/modals/FitFeedbackModal.tsx:28-34 | from an enabled Submit: submitted, and only the thank-you view renders |
| FitFeedback.ReportTightToe | src/components/modals/FitFeedbackModal.tsx:28-212 | choosing a shoe, the issues form and the tight-toe issue ends on the thank-you view, with exactly that issue reported |
| ShareInspiration.ImageName | src/components/modals/ShareInspirationModal.tsx:20 | `Image_<n+1>.jpg` |
| ShareInspiration.ImageNameInjective | src/components/modals/ShareInspirationModal.tsx:20 | two uploads get the same name exactly when they were made for lists of the same length |
| ShareInspiration.ShareDisabledIffEmpty | src/components/modals/ShareInspirationModal.tsx:261 | Share is disabled iff there are no items and the notes are blank |
| ShareInspiration.Modal.constructor | src/components/modals/ShareInspirationModal.tsx:12-16 | no method, no items, no link, no notes, not submitted |
| ShareInspiration.Modal.ChooseMethod | src/components/modals/ShareInspirationModal.tsx:58-75 | only the method is set |
| ShareInspiration.Modal.ChangeMethod | src/components/modals/ShareInspirationModal.tsx:89 | the method is reset to none and the items are kept |
| ShareInspiration.Modal.UploadFile | src/components/modals/ShareInspirationModal.tsx:18-21 | `Image_<n+1>.jpg` is appended, n the prior item count |
| ShareInspiration.Modal.SetLinkUrl | src/components/modals/ShareInspirationModal.tsx:138 | only the link box changes |
| ShareInspiration.Modal.AddLink | src/components/modals/ShareInspirationModal.tsx:143-152 | a non-empty link is appended and the box cleared; an empty one changes nothing |
| ShareInspiration.Modal.PickColour | src/components/modals/ShareInspirationModal.tsx:195 | the swatch's code is appended, duplicates allowed |
| ShareInspiration.Modal.Remove | src/components/modals/ShareInspirationModal.tsx:110 | exactly the entry at the index is deleted, the others kept in order |
| ShareInspiration.Modal.SetNotes | src/components/modals/ShareInspirationModal.tsx:230 | only the notes change |
| ShareInspiration.Modal.Submit | src/components/modals/ShareInspirationModal.tsx:23-28 | from an enabled Share: submitted; nothing else changes |
| ShareInspiration.UploadNamesCanRepeat | src/components/modals/ShareInspirationModal.tsx:20 | upload, upload, remove the first and upload again: two entries named `Image_2.jpg` |
| VoiceMessage.SendDisabledIff | src/components/modals/VoiceMessageModal.tsx:214 | Send is disabled iff recording, or in text mode with blank text |
| VoiceMessage.ShownTime | src/components/modals/VoiceMessageModal.tsx:33-37 | the `m:ss` counter reads back as the seconds shown |
| VoiceMessage.Modal.constructor | src/components/modals/VoiceMessageModal.tsx:13-17 | idle, voice, empty text, counter 0, addressed to the first team member |
| VoiceMessage.Modal.SelectMember | src/components/modals/VoiceMessageModal.tsx:84 | only the recipient changes |
| VoiceMessage.Modal.SelectType | src/components/modals/VoiceMessageModal.tsx:103-114 | only the message type changes |
| VoiceMessage.Modal.SetText | src/components/modals/VoiceMessageModal.tsx:168-193 | only the text changes |
| VoiceMessage.Modal.StatusEffect | src/components/modals/VoiceMessageModal.tsx:19-31 | the interval runs exactly while the status is recording |
| VoiceMessage.Modal.StartRecording | src/components/modals/VoiceMessageModal.tsx:39-42 | status recording, counter reset to 0, interval started |
| VoiceMessage.Modal.StopRecording | src/components/modals/VoiceMessageModal.tsx:44-46 | idle again, interval stopped, counter kept |
| VoiceMessage.Modal.Second | src/components/modals/VoiceMessageModal.tsx:23-25 | the counter goes up by one, and only while recording |
| VoiceMessage.Modal.Send | src/components/modals/VoiceMessageModal.tsx:49-51 | from an enabled Send: "Sending..." and a timeout pending |
| VoiceMessage.Modal.SentTimeout | src/components/modals/VoiceMessageModal.tsx:51-53 | the sent view, and a close timeout pending |
| VoiceMessage.Modal.CloseTimeout | src/components/modals/VoiceMessageModal.tsx:53-55 | `onClose` is called once |
| VoiceMessage.RecordAndSend | src/components/modals/VoiceMessageModal.tsx:19-57 | record three seconds, stop and send: 0:03 shown, one close, sent |
| VoiceMessage.BlankTextCannotBeSent | src/components/modals/VoiceMessageModal.tsx:214 | a text message of spaces cannot be sent |
| BookScan.OpenDates | src/components/modals/BookScanModal.tsx:41-46 | the dates a click can select are exactly those not fully booked |
| BookScan.MondayIsFull | src/components/modals/BookScanModal.tsx:44 | Monday cannot be selected; Tomorrow, Friday and Tuesday can |
| BookScan.ViewOf | src/components/modals/BookScanModal.tsx:61-188 | the confirmation view iff confirmed; otherwise the time grid iff a date is chosen, and the summary and an enabled Confirm iff both date and time are |
| BookScan.Modal.constructor | src/components/modals/BookScanModal.tsx:12-15 | service scan, no date, no time, no grid, Confirm disabled |
| BookScan.Modal.ChooseService | src/components/modals/BookScanModal.tsx:84 | changing service leaves date and time untouched |
| BookScan.Modal.ClickDate | src/components/modals/BookScanModal.tsx:113-114 | a fully booked date leaves the selection unchanged; an open one is selected |
| BookScan.Modal.ClickTime | src/components/modals/BookScanModal.tsx:132-139 | offered once a date is chosen; sets only the time |
| BookScan.Modal.Confirm | src/components/modals/BookScanModal.tsx:54-55 | from an enabled Confirm: the confirmed view |
| BookScan.BookFriday | src/components/modals/BookScanModal.tsx:113-188 | Friday, then the full Monday, then 10:30: the booking goes through for Friday at 10:30 |
| LiveProgress.Prepend | src/components/modals/LiveProgressModal.tsx:24 | the new update comes first, followed by at most the first two earlier ones in their order, so the feed holds at most three |
| LiveProgress.AfterTicksBounded | src/components/modals/LiveProgressModal.tsx:24 | the feed never exceeds three updates, and after a tick its length is known |
| LiveProgress.ThreeTicksReplaceAll | src/components/modals/LiveProgressModal.tsx:18-24 | after three ticks every update shown is the new one |
| LiveProgress.Modal.constructor | src/components/modals/LiveProgressModal.tsx:10-18 | the feed starts with exactly the three initial updates and the interval runs |
| LiveProgress.Modal.Tick | src/components/modals/LiveProgressModal.tsx:18-25 | each tick prepends the new update and truncates the feed |
| LiveProgress.Modal.Unmount | src/components/modals/LiveProgressModal.tsx:27 | the interval is cleared and the feed kept |
| LiveProgress.FirstTick | src/components/modals/LiveProgressModal.tsx:10-24 | after one tick: the new update, then the first two initial ones |
| ModalHook.Hook.constructor | src/hooks/useModal.ts:5-6 | no modal open and no data |
| ModalHook.Hook.OpenModal | src/hooks/useModal.ts:8-13 | sets the modal; replaces the data only when it is truthy, otherwise keeps the previous data |
| ModalHook.Hook.CloseModal | src/hooks/useModal.ts:15-18 | clears both |
| ModalHook.Hook.IsOpen | src/hooks/useModal.ts:20-22 | holds exactly for the open modal's type |
| ModalHook.StaleDataCarriesOver | src/hooks/useModal.ts:10-12 | opening a second modal without data keeps the first modal's data |
| ModalHook.CloseShutsEverything | src/hooks/useModal.ts:15-22 | after closing no type is open, `isOpen(null)` holds and the data is null |
| ShoeCard.ConditionColor | src/components/features/ShoeCard.tsx:12-20 | the default badge exactly for an unknown condition, and the error badge exactly for needs-attention |
| ShoeCard.CapitalizeFirst | src/components/features/ShoeCard.tsx:24 | the first character is upper-cased and the rest kept |
| ShoeCard.ConditionLabel | src/components/features/ShoeCard.tsx:22-26 | no ensures of its own: the dash-separated parts, each capitalised, joined by spaces; `ConditionLabelWords` and `TwoPartLabel` state what it gives |
| ShoeCard.ConditionLabelWords | src/components/features/ShoeCard.tsx:22-26 | the label's words are the capitalised parts of the condition, one for one |
| ShoeCard.TwoPartLabel | src/components/features/ShoeCard.tsx:22-26 | a two-part condition `a-b` is labelled as its two parts, each with its first letter upper-cased, joined by a space ("needs-attention" reads "Needs Attention") |
| ShoeCard.DisplayOf | src/components/features/ShoeCard.tsx:53-90 | Update shows iff fit confidence is below 90, the last-worn line iff it is known, the attention panel iff the condition is needs-attention |
| ShoeCard.UpdateOnlyBelowExcellent | src/components/features/ShoeCard.tsx:53 | a shoe offered an Update is never at the excellent level; 88 is good and offered one |
| Wardrobe.FilteredShoes | src/components/screens/MyWardrobe.tsx:28-30 | all gives every shoe; any other category exactly the shoes worn for it |
| Wardrobe.FilteredShoesCounts | src/components/screens/MyWardrobe.tsx:30 | each shoe worn for the category keeps its multiplicity, the others are dropped |
| Wardrobe.FilterTwice | src/components/screens/MyWardrobe.tsx:28-30 | filtering twice is filtering once |
| Wardrobe.CoverageColour | src/components/screens/MyWardrobe.tsx:92-94 | green for >= 80, amber for 60 to 79, red below, each both ways |
| Wardrobe.CoverageColourMonotone | src/components/screens/MyWardrobe.tsx:92-94 | more coverage never gives a worse colour |
| Wardrobe.CategoryIcon | src/components/screens/MyWardrobe.tsx:18-26 | Calendar exactly for a category outside work, weekend, evening and travel |
| Wardrobe.Toggled | src/components/screens/MyWardrobe.tsx:73 | clicking the expanded category collapses it; clicking another expands that one |
| Wardrobe.GapsForOneCategory | src/components/screens/MyWardrobe.tsx:68-101 | at most one category lists its gaps |
| Wardrobe.Screen.constructor | src/components/screens/MyWardrobe.tsx:15-16 | all shoes listed and nothing expanded |
| Wardrobe.Screen.SelectCategory | src/components/screens/MyWardrobe.tsx:128-140 | only the category filter changes |
| Wardrobe.Screen.ClickCoverage | src/components/screens/MyWardrobe.tsx:73 | the expanded category toggles; the filter is kept |
| Team.FirstName | src/components/screens/MyTeam.tsx:139 | the text before the first space |
| Team.FirstNameOfFullName | src/components/screens/MyTeam.tsx:139 | a full name's first name is its first word |
| Team.Clicked | src/components/screens/MyTeam.tsx:15-17 | clicking the selected member deselects; clicking any other selects it |
| Team.ClickTwice | src/components/screens/MyTeam.tsx:15-17 | two clicks on a member restore the selection when it was that member, and otherwise leave none |
| Team.ExpandedCards | src/components/screens/MyTeam.tsx:36 | a card is expanded exactly when its id is the selection |
| Team.ExpandedAtMostOne | src/components/screens/MyTeam.tsx:36 | with distinct ids at most one card is expanded |
| Team.TeamIdsDistinct | src/data/team-data.ts:5-49 | the team's ids are distinct |
| Team.Detail | src/components/screens/MyTeam.tsx:44-48 | the detail panel renders exactly when the selection resolves to a member, and shows that member |
| Team.Screen.constructor | src/components/screens/MyTeam.tsx:13 | nothing selected |
| Team.Screen.MemberClick | src/components/screens/MyTeam.tsx:15-17 | the selection toggles |
| Team.OpenAndCloseDavid | src/components/screens/MyTeam.tsx:15-139 | clicking David shows his card and first name; clicking again closes it |

## Left out

- Browser device APIs (`getUserMedia`, `MediaRecorder`, `Blob`, `Audio`, object URLs) are abstracted. Access is a `granted` flag, a chunk is a byte sequence, a blob is its parts and a serial, and a URL is a number.
- `onstop` runs synchronously inside every `stop()`, as the test mock in tests/jest.setup.js:49-52 does. A browser's `MediaRecorder` fires it later and ignores `stop()` when inactive. With such a recorder the second stop after each commit (`AudioEngine.Recorder.Commit`) makes no second blob. A reset during a recording would instead see the late `onstop` put the blob back on screen. The model does not capture either.
- AudioEngine.Recorder.Start: the interval's `stopRecording` is taken to be the one of the render that calls `startRecording`, so it captures that render's `isRecording`. Because `startRecording` depends only on `[maxDuration, onRecordingComplete]` (useAudio.ts:66), with stable options it keeps the first render's closure, which saw `false`. The two differ only for a start over a running recording, which the component never offers.
- Clocks, timers and randomness are parameters or events. `Date.now()` is `now`. Each interval tick, and each timeout of the voice modal, is a method the caller fires. The 100 ms, 1.5 s, 2 s and 10 s delays are not modelled. `Math.random()` is a `roll`.
- The waveform heights in MessageRecorder.tsx and `generateOrderId` in utils.ts are random and are left out. The order id is modelled inside `Orders.Post`.
- Date parsing and formatting (`new Date(...)`, `toISOString`, `toLocaleDateString`) are outside the model. Instants are integers in milliseconds. A date-and-time string becomes an instant through a `DateParser` parameter, and `None` stands for an invalid date. The forecast hour's `time` is an integer, and its `toLocaleTimeString` text is left out.
- Appointments.Store.Get: the listing sorts by the stored instant, not by re-parsing `datetime`.
- Availability.GenerateAvailableSlots: the date argument is ignored, as in the source. Times are minutes after midnight, and `Availability.TimeText` says how they are written.
- `GET_AVAILABILITY` in src/app/api/appointments/route.ts:71-129 is a copy of the availability endpoint and is modelled once, by `Availability.Get`.
- Floating point rounding is left out:
  - `Math.round` on temperatures; temperatures are integers.
  - Utils.CalculateProgress rounds the exact rational `100 * completed / total`. Where the floating-point product lands just below a half, the source rounds down and the model up: for 29 of 200, `(29 / 200) * 100` is 14.499999999999998 in the source, which rounds to 14, and the model gives 15.
  - `formatCurrency`, `calculateDaysUntil` and the regular-expression validators of utils.ts.
- Text is ASCII only. `toUpperCase` and `toLowerCase` map `a`-`z` and `A`-`Z` and leave every other character alone. `trim` removes the characters `Text.IsWhitespace` lists: ASCII space, tab, line feed, carriage return, vertical tab and form feed, and the Unicode spaces and line terminators that JavaScript's `trim` removes.
- The JSON value model is simpler than JavaScript's:
  - An absent field and `null` are both `None`.
  - A field is truthy when it is present and not `""`.
  - Non-string values in string fields and prototype keys such as `__proto__` are left out.
- Utils.ClassNames models arguments as strings, booleans or `undefined`, as its signature allows.
- `Object.entries` is taken to list keys in insertion order. This holds for issue codes that are not array indices.
- The sort of `getCommonIssues` is modelled as a stable sort. Entries with equal counts may come out in another order in an engine whose sort is not stable. Feedback.CommonIssues promises nothing about the order of ties.
- The mock lists of the messages and orders routes are parameters, not the three fixed records. Their timestamps depend on the clock.
- The PUT and DELETE handlers of the messages route, and the PUT handler of the orders route, are left out. They only echo their parameters and touch no state.
- The catch-all 500 answers of the routes are left out, except where a modelled failure produces them:
  - an invalid date on the appointments routes;
  - the weather fetch.
- The weather `fetch` is a `reply` parameter: `None` is a failed call, `Some` is a reading. The API key check and the HTTP status check are part of that failure. The recommendations' reasoning and feature texts are left out.
- JSX, CSS and icons are rendered output and are left out. Every component is modelled by what it shows or enables. Static data (team, wardrobe, coverage) is passed in, except the team list that `VoiceMessage` defaults to.
- LiveProgress: the order details page around the feed is rendering only.
- ShareInspiration: the category chips (ShareInspirationModal.tsx:241-248) have no handler, so there is nothing to model. The upload reads no file.
- `onClose` callbacks after the submit delays of FitFeedback, ShareInspiration and BookScan are left out. The voice-message modal's close is modelled.

## Findings

| source | as written | input that shows it | evidently intended | confidence | as-written member | corrected member |
|---|---|---|---|---|---|---|
| src/hooks/useAudio.ts:57-66 | The interval calls the `stopRecording` captured when `startRecording` was created. That closure saw `isRecording == false`, so its guard (line 69) fails and the recording is never stopped automatically. | `maxDuration` 10, start from idle, tick at 11 s: still recording | Stop once the elapsed seconds reach a non-zero `maxDuration` | medium, not executed | AudioEngine.StaleAutoStopWitness | AudioEngine.AutoStopIntended, MessageRecorder.RecorderView.Tick |
| src/app/api/appointments/route.ts:241-254 | PUT writes the new date and time without the slot check that POST makes. Two records can then hold one slot, which POST (lines 153-162) exists to prevent. | records at 10:00 and 10:30 on one day; PUT the second with time 10:00 | Refuse with 409 when another record holds the new slot | medium, not executed | Appointments.PutCanDuplicateSlot | Appointments.PutCheckedRefusesDuplicate |
| src/hooks/useAudio.ts:104-111 | The effect commented "Cleanup on unmount" depends on `[isRecording, stopRecording]`, so React runs its cleanup each time `isRecording` changes. After a stop, the cleanup of the recording render still sees `isRecording == true` and calls `stopRecording` again. With the repository's synchronous test recorder, that makes a second blob and a second call of `onRecordingComplete`. | `useAudio({ onRecordingComplete })`: start, record a chunk, stop: the callback runs twice | Stop the recorder only on unmount, so one stop makes one blob and one callback | medium, not executed | AudioEngine.StopAsWrittenNotifiesTwice | AudioEngine.StopIntendedNotifiesOnce |
