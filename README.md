# Calendar component: event synchronisation and date normalisation

This project models the logic in the admin calendar component (`TestComponent`). The component keeps one list of calendar events and extends it from two backend sources, projects and meetings, and from meetings the user schedules in a dialog. The model covers:

- `combineDateAndTime`. It joins a date string and a time string into an ISO 8601 combined date and time at UTC offset zero (ISO 8601, section 4.3.2). It uses JavaScript `substring` and `padStart` and validates nothing. It is modelled in `Timestamp` on top of `JsString`, which models those two string operations.
- The record mappers. A project record becomes a `project` event whose start is the due date as given. A meeting record becomes a `meeting` event that starts and ends at the normalised timestamp. They are modelled in `CalendarEvents` together with inverses (`ProjectOf`, `MeetingOf`) that read a record back out of an event.
- The component state and its callbacks (`TestComponent`). `CalendarOptions` is a class whose `events` field the fetch callbacks reassign in place. `addEventToCalendar` instead builds a fresh options object, and the model keeps that difference: the fetch methods promise `calendarOptions == old(calendarOptions)`, while `AddEventToCalendar` promises `fresh(calendarOptions)` and leaves the previous object as it was. Each HTTP fetch is a `Fetch` value, either a loaded batch or an error. `LoadAll` runs `ngOnInit` with the two fetches completing in either order.

Ids and `employeeId`, which the source types as `any`, are modelled as integers. The other record fields are strings. Characters are Dafny `char`s.

Three behaviours of the code are worth stating plainly:

- The code appends every fetched batch without de-duplication (test.component.ts:177-180 and :211-214). `ReloadDuplicates` proves that loading the same batch twice leaves two entries with the same tag and id.
- The comment at test.component.ts:223 says the date and time are made to be in ISO 8601 form, but the code checks nothing: it cuts the date to ten characters and pads the time. `CombineIsUtcTimestampIff` states exactly which inputs give a well-formed timestamp.
- `loadProjects` and `loadMeetings` update the options object in place: they assign a new array to its `events` field (test.component.ts:177 and :211). `addEventToCalendar` instead replaces the whole options object (:89). The model keeps both behaviours.

## Model

| member | source | states |
|---|---|---|
| JsString.Substring | src/app/auth/components/test/test.component.ts:224 | `substring` clamps its indices: the result is never longer than the string, and from index 0 it is the first `min(end, length)` characters, so a short string is not an error |
| JsString.PadStart | src/app/auth/components/test/test.component.ts:225 | `padStart` gives a string of length `max(target, length)` that ends with the original string |
| JsString.PadStartIsFillThenString | src/app/auth/components/test/test.component.ts:225 | everything `padStart` puts in front of the string is the fill character |
| JsString.PadStartNeverTruncates | src/app/auth/components/test/test.component.ts:225 | a string already at the target length or longer comes back unchanged |
| Timestamp.DatePart | src/app/auth/components/test/test.component.ts:224 | the date part is exactly the first `min(10, length)` characters of the date |
| Timestamp.TimePart | src/app/auth/components/test/test.component.ts:225 | `time.padStart(5, '0')` has length `max(5, time length)`; `ShortTimeIsZeroPadded` and `LongTimeIsKept` give its contents |
| Timestamp.CombineDateAndTime | src/app/auth/components/test/test.component.ts:222-229 | the normaliser is total and its result is 14 characters longer than the kept date and the padded time; `CombineLayout`, `CombineIsUtcTimestampIff` and the round trips with `SplitTimestamp` state what it holds |
| Timestamp.CombineLayout | src/app/auth/components/test/test.component.ts:222-229 | for every pair of strings the result is the kept date characters, `T`, the padded time and `:00.000+00:00`, with length `min(10, date length) + 1 + max(5, time length) + 13`; the function is total |
| Timestamp.DateSuffixIsIgnored | src/app/auth/components/test/test.component.ts:224 | characters of the date after position 10 never reach the result |
| Timestamp.ShortTimeIsZeroPadded | src/app/auth/components/test/test.component.ts:225 | a time shorter than five characters is preceded by as many zeros as make it five characters long |
| Timestamp.LongTimeIsKept | src/app/auth/components/test/test.component.ts:225 | a time of five characters or more is kept whole, not truncated |
| Timestamp.CanonicalLayout | src/app/auth/components/test/test.component.ts:222-229 | for a date of at least 10 and a time of at most 5 characters the result has exactly 29 characters and ends with `:00.000+00:00` |
| Timestamp.UtcTimestampNeedsFullParts | src/app/auth/components/test/test.component.ts:222-229 | a well-formed result can only come from a date of at least 10 and a time of at most 5 characters |
| Timestamp.CombineIsUtcTimestampIff | src/app/auth/components/test/test.component.ts:222-229 | the result has the form `yyyy-mm-ddTHH:mm:00.000+00:00` if and only if the date starts with `yyyy-mm-dd` and the time has at most 5 characters and pads to `HH:mm` |
| Timestamp.SplitCombine | src/app/auth/components/test/test.component.ts:222-229 | for a date in `yyyy-mm-dd` and a time in `HH:mm` form, splitting the result returns exactly that date and time |
| Timestamp.CombineSplit | src/app/auth/components/test/test.component.ts:222-229 | every well-formed UTC timestamp is the result for the date and time it splits into |
| Timestamp.CombineIsInjective | src/app/auth/components/test/test.component.ts:222-229 | distinct well-formed dates and times never give the same timestamp |
| Timestamp.CombineOfParts | src/app/auth/components/test/test.component.ts:222-229 | normalising the date part and the time part again changes nothing |
| Timestamp.ExampleFullTimestampDate | src/app/auth/components/test/test.component.ts:222-229 | a full timestamp given as the date and `9:30` give `2024-05-01T09:30:00.000+00:00` |
| CalendarEvents.ProjectEvent | src/app/auth/components/test/test.component.ts:162-174 | a project event reads back as exactly its record through `ProjectOf`, has no end and never reads back as a meeting |
| CalendarEvents.MeetingEvent | src/app/auth/components/test/test.component.ts:193-209 | a meeting event, also the one built at :77-86, ends where it starts, is tagged `meeting` and never reads back as a project; `MeetingEventFields` and `MeetingEventRoundTrip` give its fields |
| CalendarEvents.ProjectEventRoundTrip | src/app/auth/components/test/test.component.ts:162-174 | a project event keeps the id and title, starts at the due date unchanged, has no end and is tagged `project` with priority and employee name; an event reads back as a project if and only if it is that project's event |
| CalendarEvents.MeetingEventFields | src/app/auth/components/test/test.component.ts:193-209 | a meeting event has `start == end ==` the normalised date and time, the description as title, the same id and employee id, and the tag `meeting` |
| CalendarEvents.MeetingEventRoundTrip | src/app/auth/components/test/test.component.ts:193-209 | an event reads back as a meeting if and only if it is that meeting's event and the meeting's date and time are already `yyyy-mm-dd` and `HH:mm` |
| CalendarEvents.MeetingEventKeeps | src/app/auth/components/test/test.component.ts:193-209 | when the timestamp is well formed, the event loses nothing of the meeting except the date characters after the tenth and the time's padding |
| CalendarEvents.SourcesAreDisjoint | src/app/auth/components/test/test.component.ts:162-209 | a project event never equals a meeting event, and neither reads back as the other kind |
| CalendarEvents.MapProjects | src/app/auth/components/test/test.component.ts:162-174 | one event per project, in input order, each the project's event |
| CalendarEvents.MapMeetings | src/app/auth/components/test/test.component.ts:193-209 | one event per meeting, in input order, each the meeting's event |
| CalendarEvents.MappedEventsAreWellFormed | src/app/auth/components/test/test.component.ts:162-209 | every mapped event agrees with its tag: project events have no end, meeting events end where they start |
| CalendarEvents.ExampleMeeting | src/app/auth/components/test/test.component.ts:193-209 | a meeting on `2024-05-01` at `09:00` starts and ends at `2024-05-01T09:00:00.000+00:00` and carries employee 42 |
| TestComponent.CalendarOptions.constructor | src/app/auth/components/test/test.component.ts:17-53 | the options object holds the given view settings and event list; its `events` field is the one the fetch callbacks reassign |
| TestComponent.Component.constructor | src/app/auth/components/test/test.component.ts:17-27 | the component starts with an empty event list and the initial view settings |
| TestComponent.Component.OnProjectsLoaded | src/app/auth/components/test/test.component.ts:160-180 | on success the same options object's events become the old events followed by the mapped projects, in order; the tag invariant is kept |
| TestComponent.Component.OnProjectsError | src/app/auth/components/test/test.component.ts:182-184 | on error the event list is unchanged |
| TestComponent.Component.OnMeetingsLoaded | src/app/auth/components/test/test.component.ts:191-214 | on success the same options object's events become the old events followed by the mapped meetings, in order |
| TestComponent.Component.OnMeetingsError | src/app/auth/components/test/test.component.ts:216-218 | on error the event list is unchanged |
| TestComponent.Component.CompleteProjects | src/app/auth/components/test/test.component.ts:158-186 | a completed projects fetch appends its batch when loaded and nothing when it failed |
| TestComponent.Component.CompleteMeetings | src/app/auth/components/test/test.component.ts:189-220 | a completed meetings fetch appends its batch when loaded and nothing when it failed |
| TestComponent.Component.AddEventToCalendar | src/app/auth/components/test/test.component.ts:76-96 | a fresh options object holds the same settings and the old events followed by exactly one meeting event; the previous options object is unchanged |
| TestComponent.Component.HandleDialogClosed | src/app/auth/components/test/test.component.ts:68-73 | a meeting is appended only when the dialog returns one, through a fresh options object that keeps the settings while the previous object is left unchanged; otherwise nothing changes |
| TestComponent.LoadAll | src/app/auth/components/test/test.component.ts:57-60 | the final list is the completed batches in completion order, with the same events in either order |
| TestComponent.CompletionOrder | src/app/auth/components/test/test.component.ts:57-60 | both completion orders give the same multiset of events, and a failed projects fetch leaves exactly the mapped meetings |
| TestComponent.ReloadDuplicates | src/app/auth/components/test/test.component.ts:177-180 | loading the same non-empty batch twice gives length the old length plus twice the batch length and two entries with the same tag and id |

## Left out

- Angular wiring is not modelled: the `@Component` decorator, constructor injection and the lifecycle. `ngOnInit` is represented only by `LoadAll`.
- HTTP calls to the admin and employee services and RxJS subscription are not modelled. Each fetch is a `Fetch` value handed to a callback method. No timeout or cancellation exists in the source either.
- `console.log`, `console.error` and `alert` are I/O with no result and are not modelled.
- Opening the meeting dialog in `handleDateSelect` is UI. Only its `afterClosed` subscriber (`HandleDialogClosed`) is modelled.
- `eventDidMount` edits the DOM through `innerHTML` and colours events with `setProp` in a library that is not part of this model.
- `handleEventClick` only shows alerts and looks up an employee remotely, so it is not modelled.
- `handleEventDrop` sends a remote patch. Its local content is the `{id, dueDate}` payload, which is trivial.
- The static configuration (plugins, header toolbar, the bound callbacks) is not modelled. `Settings` keeps the initial view and the two interaction flags, which is enough to state that `addEventToCalendar` copies them.
- Fields missing from a backend record are not modelled. Every record field is present. In the source a missing `date` or `time` would make `substring` or `padStart` throw, and a missing id would be copied as `undefined`.
- JsString.PadStart: only a one-character fill string is modelled, the only form the component uses.
- JsString.Substring: `NaN` and non-integer index arguments are not modelled. The component always passes `0` and `10`.
- Characters are Dafny characters, not UTF-16 code units, so a surrogate pair counts as one character in the model.
