# mini-contest-tracker, modelled in Dafny

mini-contest-tracker collects programming-contest schedules from Codeforces,
LeetCode and CodeChef and shows them in one list. Users can filter the list,
bookmark contests, schedule reminders and attach solution videos. A browser
extension's background script fetches the listings, stores them and sets a
notification alarm half an hour before each contest that starts within a
day.

This project models the logic underneath:

- contest status and the remaining-time and duration texts (`TimeUtils`);
- the filtered list the `useContests` hook shows (`UseContests`);
- the background script's normalisation, alarm choice and alarm handler
  (`Background`);
- matching solution videos to contests (`YoutubeService`);
- reminder creation and the reminder-processing pass (`ReminderService`);
- the three store slices (`ContestsSlice`, `FiltersSlice`,
  `UserPreferencesSlice`);
- the filter bar handlers and the two forms (`FilterBar`, `ReminderForm`,
  `SolutionVideoForm`).

Shared pieces:

- `Wrappers` holds `Option`.
- `Seqs` holds order-preserving `filter` and `map`.
- `Strings` holds ASCII lowercasing, `includes`, `replace` and decimal
  rendering.
- `ContestTypes` holds the records of `src/types/contest.ts`.

Modelling choices:

- **Time.** Every instant is an integer number of milliseconds. The clock
  ("now") is an explicit parameter. `getContestStatus`, `isUpcoming`,
  `isPast` and `formatTimeRemaining` each read the clock with their own
  `new Date()`. The model assumes one clock reading per pass: every contest
  of a filtering or listing pass is judged against the same `now`.
- **Failures.** A failing request, an unparsable date or a missing API key is
  an input: an `Option` that is `None`, or a boolean "configured" flag.
- **State.** The store slices and the forms change state in place, so they are
  classes whose methods name what they modify. `processReminders` disables
  reminders in place, so it works on an array of reminders. Everything else
  is functions over values.

Behaviour worth knowing:

- LeetCode's `duration` is copied unconverted. It is seconds, not minutes,
  and no unit is guessed from its magnitude.
- A CodeChef entry whose date does not parse makes the whole fetch fail
  (`toISOString` throws). No default length is used.
- `formatTimeRemaining` reports "Contest has started" only once the
  truncated minute difference is negative, that is a full minute after the
  start. It does not do so as soon as the start is reached.
- `formatDuration` renders "H hours R minutes", not "Hh Rm".
- `getContestStatus` reads `upcoming` both at the start instant and at the
  end instant.
- Any failure in `fetchAllContests` loses the whole list.
- The three platform blocks always come in the order Codeforces, LeetCode,
  CodeChef.
- There is no AtCoder adapter, and nothing enforces end ≥ start.

`ReminderForm.tsx` imports `isContestUpcoming`, which `timeUtils.ts` does not
export. The model gives it the meaning of the exported `isUpcoming`: the
start lies strictly after now.

## Model

| member | source | states |
|---|---|---|
| ContestTypes.PlatformName | src/types/contest.ts:1 | each platform's string is non-empty and made of lower-case letters only, so lower-casing it for the search changes nothing |
| ContestTypes.PlatformNameInjective | src/types/contest.ts:1 | different platforms have different strings |
| ContestTypes.FirstIndexOfId | src/store/slices/contestsSlice.ts:47-49 | the position `find` stops at: a contest with the id and none before it; none exactly when no contest has the id |
| TimeUtils.StatusName | src/utils/timeUtils.ts:40 | each status string is non-empty and all lower-case letters |
| TimeUtils.IsUpcoming | src/utils/timeUtils.ts:29-31 | `isAfter(start, now)`: the strict comparison start > now; a contest starting exactly now is not upcoming |
| TimeUtils.IsPast | src/utils/timeUtils.ts:33-35 | `isBefore(end, now)`: the strict comparison end < now; a contest ending exactly now is not past |
| TimeUtils.GetContestStatus | src/utils/timeUtils.ts:37-52 | `past` iff end < now; `ongoing` iff start < now < end; `upcoming` in every other case, including now == start and now == end |
| TimeUtils.UpcomingWhenNotStarted | src/utils/timeUtils.ts:45-51 | a well-formed contest whose start is not before now is `upcoming` |
| TimeUtils.StatusAtEndInstant | src/utils/timeUtils.ts:45-51 | at its own end instant a contest reads `upcoming` |
| TimeUtils.StatusMonotone | src/utils/timeUtils.ts:45-51 | as the clock advances the status only moves forward from upcoming to ongoing to past, except at the end instant |
| TimeUtils.MinutesUntil | src/utils/timeUtils.ts:6 | `differenceInMinutes`: the whole minutes between start and now, truncated toward zero on both sides of zero |
| TimeUtils.JsRem60 | src/utils/timeUtils.ts:56 | JavaScript's `% 60`: Euclidean for m ≥ 0, and in (-60, 0] with m − r a multiple of 60 for m < 0 |
| TimeUtils.Breakdown | src/utils/timeUtils.ts:12-14 | days·1440 + hours·60 + minutes equals the minute count, with hours < 24 and minutes < 60 |
| TimeUtils.BreakdownUnique | src/utils/timeUtils.ts:12-14 | the breakdown is the only split within those unit bounds |
| TimeUtils.RenderRemaining | src/utils/timeUtils.ts:16-22 | the text is non-empty and always ends in the minutes unit |
| TimeUtils.RenderIsJoin | src/utils/timeUtils.ts:16-22 | the rendered text is the day, hour and minute tokens joined by single spaces, with a zero day (and then a zero hour) count left out |
| TimeUtils.ParseToken | src/utils/timeUtils.ts:17-21 | each `${n}` followed by its unit letter reads back as n times the unit's minutes (1440, 60 or 1) |
| TimeUtils.WordsOfJoin | src/utils/timeUtils.ts:17-21 | splitting at spaces recovers the tokens the template literals join with single spaces |
| TimeUtils.SumOfTokens | src/utils/timeUtils.ts:16-22 | the tokens of a breakdown add up to the minutes it stands for |
| TimeUtils.RenderRemainingRoundTrip | src/utils/timeUtils.ts:16-22 | reading "Xd Yh Zm", "Yh Zm" or "Zm" back gives the minutes the breakdown stands for |
| TimeUtils.FormatTimeRemaining | src/utils/timeUtils.ts:3-23 | "Contest has started" iff the start is at least one minute in the past; otherwise the rendering of the breakdown of the truncated minutes |
| TimeUtils.FormatTimeRemainingRoundTrip | src/utils/timeUtils.ts:3-23 | before that point the text denotes exactly the whole minutes left |
| TimeUtils.DurationParts | src/utils/timeUtils.ts:54-58 | floor(m/60) and the JavaScript remainder, which has the sign of m: for m ≥ 0 the usual quotient and remainder; for m < 0 the remainder lies in (−60, 0] and differs from m by a multiple of 60 |
| TimeUtils.DurationPartsRecombine | src/utils/timeUtils.ts:54-58 | the two parts add back up to m exactly when m ≥ 0 or m is a multiple of 60 |
| TimeUtils.FormatDuration | src/utils/timeUtils.ts:54-58 | for m ≥ 0 the text is "⌊m/60⌋ hours (m mod 60) minutes" |
| TimeUtils.FormatDurationOfTwoHours | src/utils/timeUtils.ts:54-58 | 120 minutes renders as "2 hours 0 minutes", which differs from "2h 0m" |
| UseContests.FilterContestsAsWritten | src/hooks/useContests.ts:37-60 | the hook's filter as written: an order-preserving subsequence whose members pass the platform and search tests |
| UseContests.FilterContests | src/hooks/useContests.ts:37-60 | exactly the contests passing the platform, time-range and search tests, in input order and with their multiplicities |
| UseContests.UpcomingContestsAsWritten | src/hooks/useContests.ts:64-66 | the derived list, as written, is a subsequence of the filtered list |
| UseContests.PastContestsAsWritten | src/hooks/useContests.ts:68-70 | likewise for the past list |
| UseContests.UpcomingContests | src/hooks/useContests.ts:64-66 | the filtered contests whose status is upcoming, in order, each with all its copies |
| UseContests.PastContests | src/hooks/useContests.ts:68-70 | the filtered contests whose end is strictly before now, in order, each with all its copies |
| UseContests.StatusNameLowerCase | src/utils/timeUtils.ts:40 | no status string equals 'Upcoming' or 'Past' |
| UseContests.RangeFilterAsWrittenIsEmpty | src/hooks/useContests.ts:45-47 | as written, the 'upcoming' or 'past' range empties the list for every input |
| UseContests.DerivedListsAsWrittenAreEmpty | src/hooks/useContests.ts:64-70 | as written, the upcoming and past lists are always empty |
| UseContests.AsWrittenAgreesOnAllTime | src/hooks/useContests.ts:44-47 | with 'all' the filter as written and the corrected filter agree |
| UseContests.UpcomingRangeCounterexample | src/hooks/useContests.ts:46 | a contest one minute from starting is dropped by the 'upcoming' filter as written and kept by the corrected one |
| UseContests.RangeFilterIsDerivedList | src/hooks/useContests.ts:37-70 | filtering with 'upcoming' (or 'past') equals filtering with 'all' and then taking the upcoming (or past) list |
| UseContests.FilterContestsIdempotent | src/hooks/useContests.ts:37-60 | for a fixed clock, filtering the result again returns it unchanged |
| UseContests.AllTimeIgnoresClock | src/hooks/useContests.ts:45-47 | with 'all' the result does not depend on now |
| UseContests.AllPlatformsLikeNone | src/hooks/useContests.ts:40-42 | a list naming every platform keeps the same contests as an empty one |
| UseContests.InitialFiltersKeepAll | src/store/slices/filtersSlice.ts:12-16 | the initial filters keep every contest |
| Background.FromCodeforces | background.js:29-37 | a Codeforces entry becomes a `cf-<id>` contest with its name, starting at startTimeSeconds·1000 and lasting durationSeconds·1000 ms, at `https://codeforces.com/contests/<id>`, with no solution and no bookmark flag |
| Background.FromLeetCode | background.js:40-48 | a LeetCode entry becomes an `lc-<titleSlug>` contest with its title, starting at startTime·1000 and lasting duration·1000 ms, at `https://leetcode.com/contest/<titleSlug>`, with no solution and no bookmark flag |
| Background.FromCodeChef | background.js:49-57 | a CodeChef entry becomes a `cc-<code>` contest with its name and its two parsed instants, at `https://www.codechef.com/<code>`, with no solution and no bookmark flag |
| Background.RoundToMinutes | background.js:55 | `Math.round` to minutes: the result is within half a minute of the length, with halves rounded up |
| Background.CodeChefContests | background.js:49-57 | every entry kept, in order, with `cc-` id; fails iff some entry's date does not parse |
| Background.CodeforcesBlock | background.js:27-37 | exactly the conversions of the entries in phase "BEFORE": one contest per kept entry, in upstream order, all Codeforces with a `cf-` id |
| Background.LeetCodeBlock | background.js:38-48 | exactly the conversions of the entries that are not virtual: one contest per kept entry, in upstream order, all LeetCode with an `lc-` id |
| Background.Normalize | background.js:26-58 | succeeds iff all three payloads are there, every CodeChef date parses and every instant is a valid time value; the result is then the three blocks in platform order |
| Background.NormalizeShape | background.js:26-58 | a successful result is the Codeforces, LeetCode and CodeChef blocks in that order, each filtered and in upstream order, every id prefixed and every instant a valid time value |
| Background.IdsDifferAcrossPlatforms | background.js:30-50 | contests normalised from different platforms never share an id |
| Background.CodeforcesTiming | background.js:33-35 | end − start is durationSeconds·1000, and duration is durationSeconds/60 minutes |
| Background.LeetCodeTiming | background.js:44-46 | end − start is the copied duration in seconds, times 1000 |
| Background.CodeChefTiming | background.js:53-55 | duration is end − start rounded to the nearest minute |
| Background.AlarmsFor | background.js:64-76 | at most one alarm per contest, each named `contest-…` |
| Background.AlarmsForExactly | background.js:65-75 | an alarm `contest-<id>` at start − 30 min exists exactly for the contests with 0 < start − now ≤ 24 h |
| Background.ScheduleAlarms | background.js:64-76 | the loop creates exactly those alarms, in contest order |
| Background.FetchAllContests | background.js:2-83 | all or nothing: the normalised list and its alarms, or an empty list and no alarm when anything fails, storage included |
| Background.AlarmContestId | background.js:87-88 | a name starting with `contest-` yields the rest of the name; any other name yields nothing |
| Background.OnAlarm | background.js:86-101 | a notification iff the name starts with `contest-` and a stored contest has the id after that prefix; it carries that id, the title "Upcoming Contest!" and the name of the first stored contest with the id |
| Background.AlarmRoundTrip | background.js:70-98 | the alarm set for a stored contest raises a notification for that contest's id |
| Background.OnAlarmUnknownId | background.js:90-92 | no notification when no stored contest has the id |
| YoutubeService.VideoUrl | src/services/youtubeService.ts:55 | the watch URL is the fixed prefix followed by the video id |
| YoutubeService.VideoUrlInjective | src/services/youtubeService.ts:55 | different video ids give different URLs |
| YoutubeService.FirstMatch | src/services/youtubeService.ts:73-75 | the first video, in list order, whose lower-cased title contains the lower-cased contest name |
| YoutubeService.AttachSolution | src/services/youtubeService.ts:72-85 | a match overwrites `solutionUrl` with the first matching video's URL; no match leaves the contest unchanged; nothing else changes |
| YoutubeService.ToVideo | src/services/youtubeService.ts:51-56 | a playlist item becomes a video with the item's id, title and description and its watch URL |
| YoutubeService.MatchContestSolutions | src/services/youtubeService.ts:68-86 | same length and order as the input, only `solutionUrl` can differ, unmatched contests are unchanged, and a matched contest gets the URL of the first video whose title contains its name |
| YoutubeService.NoVideosIsIdentity | src/services/youtubeService.ts:72-84 | with no videos every contest comes back unchanged |
| YoutubeService.EmptyNameTakesFirstVideo | src/services/youtubeService.ts:73-75 | a contest with an empty name gets the first video |
| YoutubeService.MatchIdempotent | src/services/youtubeService.ts:68-86 | matching the matched list again changes nothing |
| YoutubeService.PageVideosMembers | src/services/youtubeService.ts:51-56 | one successful page holds exactly the videos of its items; a failed request holds none |
| YoutubeService.AllVideosMembers | src/services/youtubeService.ts:38-61 | a video is among the playlists' videos iff some successful response holds an item it is made from |
| YoutubeService.FetchedVideos | src/services/youtubeService.ts:38-61 | fails iff some playlist request fails; otherwise it is the videos of the first playlist, then the second, then the third, each page in its own order |
| YoutubeService.FetchedVideosMembers | src/services/youtubeService.ts:38-61 | the fetched videos are exactly the playlists' items, each with its watch URL |
| YoutubeService.FetchPlaylistVideos | src/services/youtubeService.ts:30-66 | throws without the key; otherwise the loop's result is the playlists' videos appended in playlist order, or a failure |
| YoutubeService.AutoUpdateSolutions | src/services/youtubeService.ts:88-98 | same length; only `solutionUrl` can change; input unchanged when the key is missing or a request fails |
| ReminderService.ScheduleReminder | src/services/reminderService.ts:6-23 | the reminder carries the contest's id and the given user, lead time and channel, and is enabled |
| ReminderService.SendReminder | src/services/reminderService.ts:25-47 | email goes through iff the email key is configured; SMS iff the SMS key is |
| ReminderService.ProcessContest | src/services/reminderService.ts:57-78 | the reference for one contest's inner loop, from position j on: the list keeps its length and every position before j |
| ReminderService.ProcessAll | src/services/reminderService.ts:55-80 | the reference pass, contest by contest: the list keeps its length |
| ReminderService.ProcessContestFacts | src/services/reminderService.ts:55-78 | one contest's pass disables exactly its enabled due reminders when no send fails, and touches nothing else |
| ReminderService.ProcessAllFacts | src/services/reminderService.ts:49-80 | only disables; a reminder that is disabled or due for no listed contest is never touched; with no failure exactly the enabled due reminders end disabled; a send fails iff an enabled due reminder needs a missing key, and that reminder stays enabled |
| ReminderService.ProcessAllWithKeysSucceeds | src/services/reminderService.ts:49-80 | with both keys configured the pass never aborts |
| ReminderService.ProcessReminders | src/services/reminderService.ts:49-80 | the nested loops leave the array and the outcome that the reference pass defines |
| ContestsSlice.IndexOf | src/store/slices/contestsSlice.ts:30 | `indexOf`: the first position holding the id; none iff the id is absent |
| ContestsSlice.ToggleBookmarkIn | src/store/slices/contestsSlice.ts:28-36 | an absent id is appended; for a present id its first occurrence is removed and the other ids keep their order; other ids keep their membership |
| ContestsSlice.ToggleTwiceFromAbsent | src/store/slices/contestsSlice.ts:28-36 | toggling an unbookmarked id twice restores the list |
| ContestsSlice.ToggleFlipsMembership | src/store/slices/contestsSlice.ts:28-36 | on a list without duplicates, toggling flips the id's membership and keeps the list duplicate-free |
| ContestsSlice.WithSolutionUrl | src/store/slices/contestsSlice.ts:43-53 | the first contest with the id gets the URL and is otherwise unchanged; other contests are unchanged; no-op without a match |
| ContestsSlice.FindAfterUpdate | src/store/slices/contestsSlice.ts:47-52 | after an update, `find` returns the same position, and that contest carries the URL |
| ContestsSlice.LastUpdateWins | src/store/slices/contestsSlice.ts:43-53 | a second update for the same id overrides the first |
| ContestsSlice.UpdatesCommute | src/store/slices/contestsSlice.ts:43-53 | updates for different ids commute |
| ContestsSlice.ContestsStore.constructor | src/store/slices/contestsSlice.ts:11-16 | no contests, no bookmarks, not loading, no error |
| ContestsSlice.ContestsStore.SetContests | src/store/slices/contestsSlice.ts:22-24 | replaces the contest list; other fields unchanged |
| ContestsSlice.ContestsStore.AddContest | src/store/slices/contestsSlice.ts:25-27 | appends one contest at the end; other fields unchanged |
| ContestsSlice.ContestsStore.ToggleBookmark | src/store/slices/contestsSlice.ts:28-36 | bookmarks become the toggled list; contests, loading and error unchanged |
| ContestsSlice.ContestsStore.SetLoading | src/store/slices/contestsSlice.ts:37-39 | changes only the loading flag |
| ContestsSlice.ContestsStore.SetError | src/store/slices/contestsSlice.ts:40-42 | changes only the error |
| ContestsSlice.ContestsStore.UpdateSolutionUrl | src/store/slices/contestsSlice.ts:43-53 | the contest list becomes the updated list; other fields unchanged |
| FiltersSlice.InitialPlatformsComplete | src/store/slices/filtersSlice.ts:13 | the initial platform list names every platform |
| FiltersSlice.FiltersStore.constructor | src/store/slices/filtersSlice.ts:12-16 | all three platforms, 'all', empty search |
| FiltersSlice.FiltersStore.SetPlatforms | src/store/slices/filtersSlice.ts:22-24 | replaces the platform list and nothing else |
| FiltersSlice.FiltersStore.SetTimeRange | src/store/slices/filtersSlice.ts:25-27 | changes only the time range |
| FiltersSlice.FiltersStore.SetSearchQuery | src/store/slices/filtersSlice.ts:28-30 | changes only the search text |
| FiltersSlice.FiltersStore.ResetFilters | src/store/slices/filtersSlice.ts:31-35 | yields the initial state from any state, so a second reset changes nothing |
| UserPreferencesSlice.PreferencesStore.constructor | src/store/slices/userPreferencesSlice.ts:4-9 | light theme, all three platforms, 60 minutes, email |
| UserPreferencesSlice.PreferencesStore.SetTheme | src/store/slices/userPreferencesSlice.ts:15-17 | changes only the theme |
| UserPreferencesSlice.PreferencesStore.SetDefaultPlatforms | src/store/slices/userPreferencesSlice.ts:18-20 | changes only the platform list |
| UserPreferencesSlice.PreferencesStore.SetDefaultReminderTime | src/store/slices/userPreferencesSlice.ts:21-23 | changes only the lead time |
| UserPreferencesSlice.PreferencesStore.SetDefaultNotificationType | src/store/slices/userPreferencesSlice.ts:24-29 | changes only the channel |
| FilterBar.TogglePlatform | src/components/FilterBar.tsx:30-32 | an absent platform is appended; a present one is removed everywhere while the others keep their order and counts; the platform's membership flips and no other's does |
| FilterBar.TogglePlatformTwice | src/components/FilterBar.tsx:30-32 | clicking an unticked platform twice restores the list |
| FilterBar.HandlePlatformChange | src/components/FilterBar.tsx:29-34 | always dispatches `TogglePlatform`'s list: the clicked platform appended when absent, its occurrences removed when present; its membership is flipped |
| FilterBar.HandleTimeRangeChange | src/components/FilterBar.tsx:36-43 | a null selection dispatches nothing; any other is dispatched unchanged |
| FilterBar.HandleSearchChange | src/components/FilterBar.tsx:45-47 | dispatches the raw input text |
| FilterBar.Dispatch | src/components/FilterBar.tsx:29-47 | each dispatched action changes only its own field of the filters store |
| ReminderForm.IsPhoneNumber | src/components/ReminderForm.tsx:52 | the recogniser for `/^\+?\d{10,}$/`: an optional leading `+`, then ten or more ASCII digits |
| ReminderForm.PhoneNumberIff | src/components/ReminderForm.tsx:52 | the phone check accepts exactly an optional `+` followed by ten or more ASCII digits |
| ReminderForm.UpcomingContests | src/components/ReminderForm.tsx:33-37 | the stored contests whose start is strictly after now, in store order, each with all its copies |
| ReminderForm.SubmitError | src/components/ReminderForm.tsx:42-61 | the checks in order: missing field, then the email needing `@`, then the phone pattern; otherwise none iff an upcoming contest has the id |
| ReminderForm.ContestNotFoundIff | src/components/ReminderForm.tsx:58-61 | "Contest not found" iff the fields are valid and no listed contest with that id is still to start |
| ReminderForm.ScheduledIsForUpcoming | src/components/ReminderForm.tsx:58-68 | an accepted submission schedules an enabled reminder for a listed contest with the selected id that has not started |
| ReminderForm.ReminderFormState.constructor | src/components/ReminderForm.tsx:24-31 | no selection, 60 minutes, email, no contact, no message |
| ReminderForm.ReminderFormState.HandleSubmit | src/components/ReminderForm.tsx:39-80 | on a failed check only the error changes and nothing is scheduled; on success the reminder is scheduled, success set, error cleared, id, lead time and contact reset, channel kept |
| SolutionVideoForm.IsYoutubeUrl | src/components/SolutionVideoForm.tsx:40 | the URL contains `youtube.com` or `youtu.be` anywhere |
| SolutionVideoForm.WatchUrlsAccepted | src/components/SolutionVideoForm.tsx:40 | every watch URL the video service builds passes the YouTube check |
| SolutionVideoForm.PastContests | src/components/SolutionVideoForm.tsx:26-31 | the stored contests whose end is strictly before now, in store order, each with all its copies |
| SolutionVideoForm.SubmitError | src/components/SolutionVideoForm.tsx:35-43 | missing field first; then a URL containing neither `youtube.com` nor `youtu.be`; otherwise accepted |
| SolutionVideoForm.WatchUrlSubmissionAccepted | src/components/SolutionVideoForm.tsx:35-43 | any watch URL for a selected contest is accepted |
| SolutionVideoForm.SolutionVideoFormState.constructor | src/components/SolutionVideoForm.tsx:21-24 | no selection, no URL, no message |
| SolutionVideoForm.SolutionVideoFormState.HandleSubmit | src/components/SolutionVideoForm.tsx:33-62 | on a failed check only the error changes and the store is untouched; otherwise the store's contests get the URL as `updateSolutionUrl` defines, success is set, the error cleared and both fields reset |

## Left out

- **Network and browser APIs.**
  - `fetch`, axios and the HTTP proxies are not part of this model.
  - `chrome.storage`, `chrome.alarms`, `chrome.notifications` and `chrome.tabs` are not modelled.
  - Instead, upstream payloads, request outcomes, storage success and key configuration are inputs.
  - The alarm loop returns (name, fire time) pairs instead of creating alarms.
- **Concurrency.** The `Promise.all` fan-out and `async`/`await` ordering are not modelled.
- **Notification clicks.** The click handler opens a tab and is not modelled (background.js:104-112).
- **Periodic fetch.** The hourly `fetch-contests` alarm and its listener are timers and are not modelled (background.js:114-122).
- **Date strings.** ISO-8601 parsing and `toISOString` formatting are not modelled. Neither are `formatContestTime` and `formatDate` (locale and time-zone formatting). A CodeChef date is the instant it parses to, or nothing.
- **Floating point.** JavaScript numbers are unbounded integers or exact reals here.
  - Codeforces' `durationSeconds / 60` is an exact real, with no double rounding.
  - Integers above 2^53 lose no precision.
- **Case folding.** `toLowerCase` is modelled on ASCII letters only. Unicode case mappings are not modelled.
- **Reminder aliasing.**
  - ReminderService.ProcessReminders treats reminders as values in an array.
  - If the same reminder object occurs twice in the source's array, disabling one disables the other. The model does not capture that aliasing.
- **Playlist paging.** YoutubeService.FetchPlaylistVideos takes each playlist's response as given. The 50-item page limit of the request is not modelled.
- **Timers.** The `setTimeout` that clears the forms' success flag after three seconds is not modelled.
- **UI.** React rendering is not modelled: the JSX of every component, ContestCard's inline duration text, and the forms' input `onChange` setters.
- **Test-only expectations** that the code does not implement are not modelled:
  - the 'Started'/'Starts in' wording in the time tests;
  - "2h 0m" for `formatDuration`, which TimeUtils.FormatDurationOfTwoHours shows is not what the code renders;
  - the `isBookmarked` flip in the slice tests.
- **Logging.** `console.log` and `console.error` output is not modelled.

## Findings

| source | as written | input that shows it | evidently intended | confidence | as-written member | corrected member |
|---|---|---|---|---|---|---|
| src/hooks/useContests.ts:46-47 | the time-range filter compares `getContestStatus`'s result with 'Upcoming' and 'Past', which it never returns (it returns lower case) | filters {platforms: [], timeRange: 'upcoming', searchQuery: ''}, now 0, one Codeforces contest from 60000 to 180000: the result is empty | compare with 'upcoming' and 'past', keeping that contest | high; not executed | UseContests.UpcomingRangeCounterexample | UseContests.FilterContests |
| src/hooks/useContests.ts:64-70 | `upcomingContests` and `pastContests` compare with 'Upcoming' and 'Past' too | any filtered list holding a contest that has not started: the upcoming list is empty | the filtered contests whose status is upcoming, or past | high; not executed | UseContests.DerivedListsAsWrittenAreEmpty | UseContests.UpcomingContests |
