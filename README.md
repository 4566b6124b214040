# Session derivations of the mentorship client

This project models, in Dafny, the logic in the mentorship web client that turns
fetched mentoring sessions, profiles and form input into what the pages show and send:

- **Mentor dashboard.** The four metrics, the enable flags of a session card's buttons, the status chip, and the feedback gate of the recent-session list.
- **Mentee dashboard.** Its metrics and its session card.
- **Analytics panel.** The status counts with the completion rate, and the six-month bar chart.
- **Session list.** The in-place descending sort by start time, and the four status tabs.
- **Session card.** Its role-gated buttons and its upper-cased chip.
- **Calendar.** The session-to-event projection and the event colours.
- **Profile page.** The availability normalisation, the single-day update and the submit conversion.
- **Registration form.** Its guards, its payload normalisation, and the auth context's own required-field check inside `register`.
- **Mentor directory.** Its availability chips, card defaults and request dialog.
- **Session-requests page.** Its status colours and empty-list branch.

Modelling choices:

- Sessions are values (`Sessions.Session`). Times are integer minutes.
- The current time, the current month index (0..11), the month of a start time, the user's id and role, the browser's time zone, and the outcome of each network call are all parameters.
- A JavaScript object with string keys is modelled as its entries in insertion order (`Profile.Obj`). `Object.entries` returns that order here only because every key is a weekday name; integer-like keys would come first.
- JavaScript truthiness is written out where the source relies on it: an empty string is falsy, and so are a rating of 0 and a missing value.
- `slice` with a negative start, `indexOf`, `trim` and ASCII case mapping are defined with JavaScript's semantics in `Seqs` and `Strings`.

Two places are imperative, because the source works step by step there:

- `SessionList.SortByStartDesc` sorts an `array` in place. It is proved sorted and a permutation.
- `DashboardAnalytics.MonthlyData` fills two six-column arrays in one pass. Its loop invariant ties each column to a counting function.

`Profile.FetchProfile` keeps the source's two assignment loops.

## Model

| member | source | states |
|---|---|---|
| Sessions.ParseStatus | src/pages/SessionList.js:64-75 | a status string reads back as itself; it is `Other` exactly when it is none of the four known strings |
| Sessions.ParseStatusName | src/pages/SessionList.js:64-75 | every well-formed status survives being written as a string and read back |
| Sessions.ViewerRole | src/pages/MentorDashboard.js:318 | the viewer is the mentor exactly when the session's mentor id is the user's id |
| Sessions.FeedbackFromOtherRole | src/pages/MentorDashboard.js:319 | a feedback entry from the other role does not change a role's feedback gate |
| Sessions.MenteeRating | src/pages/MentorDashboard.js:370 | the rating of the first mentee entry: a non-zero result is the rating of some mentee entry; with no mentee entry it is 0 |
| Sessions.IsUpcoming | src/pages/SessionList.js:68 | upcoming iff approved and starting strictly after now |
| Sessions.UpcomingOnlyExpires | src/pages/SessionList.js:68 | a session upcoming at some moment was upcoming at every earlier one |
| Sessions.HasGivenFeedback | src/pages/MentorDashboard.js:319 | the gate is set only when feedback exists, is set whenever the first entry comes from the role, and when unset the role has no rating |
| Sessions.CanJoin | src/pages/MentorDashboard.js:287 | joining is possible iff the session is approved and its link is present and non-empty |
| Sessions.FirstRatingFrom | src/pages/MentorDashboard.js:370 | the result is the rating of the first entry from the role, or 0 when there is none |
| Strings.Trim | src/components/Register.js:44-45 | the trimmed string is no longer than the input, and neither end is ECMAScript white space |
| Strings.TrimIsInfix | src/components/Register.js:44-45 | trim keeps the infix between a white-space prefix and a white-space suffix; the result is empty exactly when the input is all white space |
| Strings.TrimIdempotent | src/components/Register.js:44-45 | trimming twice equals trimming once |
| Strings.ToUpper | src/components/SessionCard.js:73 | same length, each character upper-cased, and no lower-case letter left |
| Strings.ToLower | src/components/Register.js:45 | same length, each character lower-cased, and no capital left |
| Strings.TrimNoEdgeWhitespace | src/components/Register.js:44 | a string with no white space at either end is its own trim |
| Strings.LowerCharWhitespace | src/components/Register.js:45 | lower-casing a character never creates or removes white space |
| Seqs.IndexOf | src/components/DashboardAnalytics.js:118 | the result is -1 exactly when the value is absent; otherwise it is the first position holding it |
| Seqs.Slice | src/components/DashboardAnalytics.js:111 | an in-range slice is the sub-sequence; a start at or after the end (after negative positions count from the end) gives nothing; the result is never longer than end − start and holds only elements of the input |
| Seqs.FilterKeepsOrder | src/pages/SessionList.js:62-77 | a filter keeps any order its input had |
| Seqs.FilterPermutation | src/pages/MentorDashboard.js:360-371 | filtering permuted inputs gives permuted outputs |
| Seqs.MapPermutation | src/pages/MentorDashboard.js:365-370 | mapping permuted inputs gives permuted outputs |
| Seqs.TotalPermutation | src/pages/MentorDashboard.js:365-374 | a sum does not depend on the order of its terms |
| Seqs.FilterLength | src/components/DashboardAnalytics.js:139-143 | the length of a filter is the number of positions whose element passes |
| MentorDashboard.RoundHours | src/pages/MentorDashboard.js:381 | the hours are the nearest whole number to minutes/60, halves rounded up |
| MentorDashboard.UpcomingSessions | src/pages/MentorDashboard.js:360-362 | one entry per session that is approved and starts strictly after now |
| MentorDashboard.Mean | src/pages/MentorDashboard.js:373-375 | 0 for no ratings; otherwise sum/count, so mean × count = sum |
| MentorDashboard.CalculateMetrics | src/pages/MentorDashboard.js:358-383 | total = list length; upcoming = number of approved future sessions; hours = round-half-up of the completed minutes / 60; rating = mean of the kept ratings, or 0 when none remain |
| MentorDashboard.CompletedMinutesAppend | src/pages/MentorDashboard.js:364-367 | a completed session adds its duration to the minutes; any other session adds nothing |
| MentorDashboard.RatingsAppend | src/pages/MentorDashboard.js:369-371 | a session adds a rating exactly when it is completed and its first mentee entry has a non-zero rating |
| MentorDashboard.RatingsCount | src/pages/MentorDashboard.js:369-375 | the averaged ratings number exactly the completed sessions with a non-zero mentee rating, and none of them is 0 |
| MentorDashboard.MetricsIgnoreOrder | src/pages/MentorDashboard.js:358-383 | any permutation of the sessions gives the same four metrics |
| MentorDashboard.RenderActionButtons | src/pages/MentorDashboard.js:263-298 | approve/decline enabled iff pending, with no role check; join enabled iff approved with a link, so a completed session with a link stays disabled; feedback disabled iff the flag is set |
| MentorDashboard.StatusChipConfig | src/pages/MentorDashboard.js:714-723 | pending/approved/declined/completed map to warning/success/error/info, with the name capitalised; any other status gets the pending entry |
| MentorDashboard.StatusChipColor | src/pages/MentorDashboard.js:253-261 | the chip's colour for the four known statuses, and `default` exactly for any other |
| MentorDashboard.RenderSessionCard | src/pages/MentorDashboard.js:317-356 | the title names the mentee; feedback is disabled iff an entry comes from the viewer's role (mentor iff the mentor id is the user's); approve and decline each enabled iff pending; join iff approved with a link |
| MentorDashboard.RenderRecentSession | src/pages/MentorDashboard.js:611-653 | the chip is the status table's entry; a rating appears iff some feedback exists and is the first mentee entry's rating, so 0 without one; join appears iff approved with a link; Feedback is disabled iff a mentor entry exists, whoever views |
| MenteeDashboard.CalculateMetrics | src/pages/MenteeDashboard.js:82-99 | total, upcoming and hours as in the mentor view; the rating is the user's own value, or 0, and not derived from the sessions |
| MenteeDashboard.AgreesWithMentorMetrics | src/pages/MenteeDashboard.js:82-99 | the mentee view's total, upcoming and hours equal the mentor view's for any user rating |
| MenteeDashboard.RenderSessionCard | src/pages/MenteeDashboard.js:101-151 | the title names the mentor; join shown iff approved with a link; feedback shown iff completed and the viewer's role has no entry; never both |
| DashboardAnalytics.CountWhere | src/components/DashboardAnalytics.js:139-143 | the count is the number of positions passing the test, at most the list length |
| DashboardAnalytics.CompletionRate | src/components/DashboardAnalytics.js:151 | 0 when the total is 0, completed × 100 / total otherwise, and within 0..100 when completed ≤ total |
| DashboardAnalytics.ComputeStats | src/components/DashboardAnalytics.js:138-153 | completed, upcoming (approved and after now) and pending are the numbers of matching sessions; total is the length; the rate is as above |
| DashboardAnalytics.StatsBounded | src/components/DashboardAnalytics.js:139-151 | the three buckets are disjoint, so they sum to at most the total, and the rate lies in 0..100 |
| DashboardAnalytics.MonthName | src/components/DashboardAnalytics.js:109-118 | a month index names a month exactly when it lies in 0..11 |
| DashboardAnalytics.TrendLabels | src/components/DashboardAnalytics.js:111 | at most six labels, all month names; for months 5..11 exactly the six names ending at the current month |
| DashboardAnalytics.Slot | src/components/DashboardAnalytics.js:117-118 | -1 iff the month index is outside 0..11 or its name is not among the labels; otherwise the first label position holding that name |
| DashboardAnalytics.TrendLabelsWindow | src/components/DashboardAnalytics.js:110-111 | from June on, the labels are the six month names ending at the current month; before June the negative slice start leaves none |
| DashboardAnalytics.SlotInWindow | src/components/DashboardAnalytics.js:117-119 | a session has a column iff the window exists and holds its month; the column is the month's distance from the window's first month |
| DashboardAnalytics.MonthNamesDistinct | src/components/DashboardAnalytics.js:109 | no two months share an abbreviation, so `indexOf` finds the right one |
| DashboardAnalytics.MonthlyData | src/components/DashboardAnalytics.js:108-133 | the labels are the window; both columns have length 6; each column counts the sessions of its month in its series; each series sums to at most the matching stats count |
| DashboardAnalytics.ColumnCountStep | src/components/DashboardAnalytics.js:116-125 | one more session bumps only its own column of the series it counts towards |
| DashboardAnalytics.ColumnsSumBound | src/components/DashboardAnalytics.js:119-124 | the columns together never exceed the sessions counting towards the series |
| DashboardAnalytics.ColumnsWithinCount | src/components/DashboardAnalytics.js:113-126 | six columns that match the counts sum to at most the series total |
| DashboardAnalytics.SeriesCount | src/components/DashboardAnalytics.js:120-142 | counted over all months, the completed series is `stats.completed` and the upcoming series is `stats.upcoming` |
| DashboardAnalytics.EarlyMonthsEmpty | src/components/DashboardAnalytics.js:111-119 | before June no session reaches any column |
| DashboardAnalytics.AtMostOneCounter | src/components/DashboardAnalytics.js:119-124 | a single session bumps at most one counter of the whole chart |
| SessionList.SortByStartDesc | src/pages/SessionList.js:23-25 | the array ends sorted by start time, latest first, and is a permutation of what was fetched |
| SessionList.InsertLast | src/pages/SessionList.js:23-25 | one insertion step extends the sorted prefix by one element; the prefix is a permutation of what it held, and everything after it is unchanged |
| SessionList.SiftLeft | src/pages/SessionList.js:23-25 | swapping the new element leftwards leaves the prefix sorted, the array a permutation, and the suffix unchanged |
| SessionList.TabSessions | src/pages/SessionList.js:62-76 | a tab shows the filter of the sorted sessions by its test (0 pending, 1 approved and after now, 2 completed, 3 declined): exactly the passing sessions, as many as pass, nothing for another tab, in sorted order |
| SessionList.TabsDisjoint | src/pages/SessionList.js:63-76 | no session is under two tabs |
| SessionList.EveryBucketedSessionHasATab | src/pages/SessionList.js:63-76 | a session is under some tab iff it is pending, completed, declined or upcoming; an approved session at or before now is under none |
| SessionCard.ChipColor | src/components/SessionCard.js:19-29 | pending→warning, approved→success, declined→error, and anything else (completed included)→info |
| SessionCard.ChipLabel | src/components/SessionCard.js:73 | the label is the status string upper-cased |
| SessionCard.KnownLabels | src/components/SessionCard.js:73 | the four known statuses read PENDING, APPROVED, DECLINED and COMPLETED |
| SessionCard.Counterpart | src/components/SessionCard.js:46 | a mentor sees the mentee's name, anyone else the mentor's |
| SessionCard.RenderCard | src/components/SessionCard.js:41-105 | approve/decline shown iff pending and the role is mentor; join shown iff approved with a link; never both; the duration is end − start minutes; notes shown iff present |
| Calendar.ToEvent | src/pages/Calendar.js:69-79 | id, times, link, status and notes are copied; the title names the mentee for a mentor, else the mentor |
| Calendar.FormatEvents | src/pages/Calendar.js:67-79 | one event per approved or completed session, in input order; pending and declined sessions are dropped |
| Calendar.EventsAppend | src/pages/Calendar.js:67-79 | the events of a longer list are the earlier ones plus the new session's event when it is kept |
| Calendar.StyleOf | src/pages/Calendar.js:91-112 | approved→success, completed→info, otherwise primary; the other style fields are constant |
| Calendar.DialogJoinShown | src/pages/Calendar.js:175 | the dialog's join button is shown iff the event has a link, whatever its status |
| Calendar.CalendarColours | src/pages/Calendar.js:68-109 | no event on the calendar ever gets the primary colour |
| SessionRequests.StatusColor | src/pages/SessionRequests.js:41-49 | the four known colours, and `default` exactly for any other status |
| SessionRequests.SameAsChipColor | src/pages/SessionRequests.js:41-49 | this colour table agrees with the mentor dashboard's on every status |
| SessionRequests.RenderRequest | src/pages/SessionRequests.js:84-124 | the title names the mentor; the chip shows the raw status in the status-table colour; the duration is end − start minutes; join shown iff approved with a link |
| SessionRequests.RenderPage | src/pages/SessionRequests.js:62-70 | the notice appears iff the list is empty; otherwise one card per session, in order |
| Profile.Lookup | src/pages/Profile.js:102 | an absent key reads `undefined`; a present key reads a value stored under it |
| Profile.SetKey | src/pages/Profile.js:96-121 | assigning an existing key keeps the key order; a new key is appended at the end |
| Profile.SetKeyLookup | src/pages/Profile.js:118-121 | after an assignment the key reads the new value and every other key reads what it read before |
| Profile.SetKeyUnique | src/pages/Profile.js:118-121 | an assignment never creates a second entry for a key |
| Profile.LastAvailable | src/pages/Profile.js:95-97 | a day no slot names reads `undefined`; otherwise it reads the `available` of the last slot naming it |
| Profile.NormalizedAvailability | src/pages/Profile.js:100-103 | exactly the seven weekdays Monday..Sunday, in order, each once, each true iff its last slot's value is true |
| Profile.FetchProfile | src/pages/Profile.js:84-113 | the weekdays in order, each true iff its last slot says true; the time zone falls back to the browser's |
| Profile.ChangeAvailability | src/pages/Profile.js:115-123 | only the chosen day changes, to the new value; the other days and fields are unchanged; the key order is kept |
| Profile.ToSlots | src/pages/Profile.js:129-132 | one slot per key, in key order, carrying that key's value |
| Profile.SubmitPayload | src/pages/Profile.js:129-137 | the payload has the same name and time zone, and its availability is the object's entries turned into slots, in key order |
| Profile.LastAvailableOfSlots | src/pages/Profile.js:95-132 | with unique keys, the last slot of a key in the submitted array carries that key's value |
| Profile.SubmitThenFetch | src/pages/Profile.js:100-132 | normalising the submitted array gives back the same availability object |
| Profile.ChangeKeepsWeekdays | src/pages/Profile.js:115-123 | changing a weekday keeps the object normalised to the seven weekdays in order |
| Register.InitialForm | src/components/Register.js:8-14 | all fields start empty, and the role is `mentee` |
| Register.HandleChange | src/components/Register.js:19-24 | only the named field takes the new value |
| Register.Validate | src/components/Register.js:32-48 | an empty required field gives "All fields are required" first; otherwise a password mismatch gives "Passwords do not match"; otherwise the payload has the name trimmed, the email trimmed and lower-cased, and password and role unchanged |
| Register.HandleSubmit | src/components/Register.js:26-65 | `register` is called iff validation passes; navigation happens iff that call returns truthy; the error is cleared, set by the failing guard, or set from the thrown message with "Registration failed" as fallback |
| Register.BlankNameSentEmpty | src/components/Register.js:32-44 | a name of spaces passes the form's required check and is passed to `register` as "" |
| Register.SentEmailNormalised | src/components/Register.js:45 | the email passed to `register` is unchanged by trimming or lower-casing it again |
| Register.LowerKeepsTrimmed | src/components/Register.js:45 | lower-casing a string with no edge white space keeps it trimmed |
| Register.AuthRegister | src/contexts/AuthContext.js:51-94 | an empty field throws an error with no server message and posts nothing; otherwise a response returns whether it held a token, and a failed POST rethrows its message; truthy iff all fields are set and the response has a token |
| Register.SubmitWithAuth | src/components/Register.js:56-62 | with the auth context's `register`, the page navigates iff validation passes, the trimmed name and email are non-empty, and the response has a token; an empty trimmed name or email shows "Registration failed" |
| Register.BlankNameFails | src/contexts/AuthContext.js:54-56 | a name of spaces gets past the form, is rejected inside `register`, and leaves "Registration failed" on the page without navigating |
| MentorList.RenderAvailability | src/pages/MentorList.js:82-102 | a missing or non-array value gives "No availability set"; an array gives one chip per slot whose `available` is true, labelled with its day |
| MentorList.ChipsAppend | src/pages/MentorList.js:89-99 | the chips keep the input order |
| MentorList.ChipsOfOne | src/pages/MentorList.js:89-99 | a single slot gives its day's chip when available, and none otherwise |
| MentorList.OrZero | src/pages/MentorList.js:196 | an absent session count reads 0; a present one reads itself |
| MentorList.OrZeroReal | src/pages/MentorList.js:194 | an absent rating reads 0; a present one reads itself |
| MentorList.RenderMentorCard | src/pages/MentorList.js:188-210 | the avatar falls back to the default picture; rating and count default to 0; the timezone line shows iff a time zone is present; the availability box is `renderAvailability` of the mentor's availability |
| MentorList.HandleRequestSession | src/pages/MentorList.js:128-131 | the dialog opens with that mentor selected, and the request fields keep their values |
| MentorList.HandleDetailChange | src/pages/MentorList.js:252-281 | only the edited request field changes |
| MentorList.CloseDialog | src/pages/MentorList.js:133-141 | the dialog closes, no mentor is selected, and the three fields are emptied |
| MentorList.SubmitRequest | src/pages/MentorList.js:143-154 | a body is posted iff a mentor is selected, carrying its id and the three fields; success alerts and closes the dialog; otherwise the error alert shows and the state is unchanged |
| MentorList.RequestCarriesForm | src/pages/MentorList.js:128-281 | selecting a mentor, filling the fields and sending posts that mentor's id and those values |
| MentorList.RetrySendsSameBody | src/pages/MentorList.js:143-154 | after a failed request, sending again posts the same body |
| MentorList.SuccessNeedsNewSelection | src/pages/MentorList.js:143-154 | after a successful request the dialog is closed, and nothing can be sent until a mentor is selected again |

## Left out

- HTTP, `localStorage`, `alert`, `window.open` and navigation. Every axios call's outcome is a parameter (`Register.RegisterReply`, `postOk`), or its data is an argument. The alerts and the navigation appear as fields of the returned outcome.
- `moment`, `Date` and time zones:
  - the current time, the current month index and the month of each start time are parameters;
  - a session's start and end are integer minutes;
  - the month comparison ignores the year, as the source's does. `monthOf` is an unconstrained function from minutes to integers; a value outside 0..11 names no month (`MonthName`) and so reaches no column (`Slot`).
- Floating point and `toFixed`. The completion rate and the average rating are exact reals, and `Math.round` is round-half-up on whole minutes.
- Case mapping outside ASCII. `ToUpper` and `ToLower` change only the letters A–Z and a–z.
- Keys inherited from `Object.prototype` in the config lookups (`configs[status]`, `colors[status]`). A status such as `"constructor"` would find an inherited value. Here it falls back like any other unknown status.
- SessionList.SortByStartDesc: stability is not stated. Sessions with equal start times may end in either order, as the comparator leaves them.
- Non-boolean `available` values and non-string `role`, `from` or `status` values. Slots carry `Option<bool>`, and roles and statuses are enumerations with an `Other` case for unknown status strings.
- `NaN` or `null` ratings. A missing or falsy rating is 0.
- `getSlotTime` in src/pages/Profile.js:160-167. Nothing calls it. If called after a fetch it would call `find` on an object and throw.
- The hard-coded demo chart data of the mentor dashboard. It is not derived from sessions.
- The `StatusChip` of src/pages/MenteeDashboard.js:182-191. It is the same table as the mentor dashboard's, so it is modelled once as `MentorDashboard.StatusChipConfig`, which the mentee card uses.
- Profile.ChangeAvailability: it requires the availability object to have unique keys, which every JavaScript object has. It does not model a change made before the first successful fetch, when the availability is still the initial array `[]` and is spread into an object.
- The other fields of the profile response. `fetchProfile` spreads them into the page state (src/pages/Profile.js:105-106) and `handleSubmit` spreads them into the body (src/pages/Profile.js:134-135); the model carries only the name, time zone and availability.
- Fetching the mentor list (`fetchMentors`), the loading flags and error logging. They only store or print the fetched data.
- Styled components, layout and the remaining presentation.
