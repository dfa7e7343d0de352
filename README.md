# Civic issue reporting: a Dafny model of the core

This project models the logic of a civic-issue reporting web application for the state of
Jharkhand. Citizens report problems such as potholes, broken street lights and water supply
failures, earn points, levels and badges for doing so, and follow their reports through the
statuses submitted, acknowledged, in progress, resolved and rejected. Zonal administrators
filter the issues of their zone and request status updates. Ministry administrators sync
with external government databases.

The model covers these parts:

- the constant tables: zones, ministries, issue categories, citizen level tiers and the point
  system;
- the gamification service: level calculation, progress data, point awards, badge
  eligibility and the leaderboard;
- the mock authentication service, with its browser-storage slot;
- the ministry integration service, over its list of integrations;
- the state logic of five screens: the report form, the zonal admin's issue list, the
  citizen's issue tracker, the citizen overview and the ministry integration panel;
- the voice recorder's recording and playback state machine, and its time labels.

Pure computations are Dafny functions with lemmas. The services and components whose
fields or React state change are classes whose methods state their whole new state.

Conventions:

- Dates are integer milliseconds since the epoch. The clock (`Date.now()`, `new Date()`) is
  a `now` parameter.
- Random draws are `success` parameters.
- Blobs, files and object URLs are opaque strings.
- JavaScript's `||` on optional numbers and strings is written out (`OrNumber`, `OrString`),
  so 0 and "" fall through exactly as in the source.
- `Array.prototype.sort`, which is stable, is modelled by a stable descending insertion sort.
- `toLowerCase` is ASCII lower-casing.

Modules: `JsValues`, `Seqs` and `Text` hold the JavaScript building blocks (Option/Result,
filter, find, sort, sum, case-insensitive `includes`, decimal `toString`, `padStart`,
`trim`). `Types` and `Constants` hold the records and tables. Then there is one module per
core source file: `Gamification`, `Auth`, `MinistryIntegration`, `ReportIssueForm`,
`IssueManagement`, `IssueTracker`, `CitizenManagement`, `MinistryIntegrationView` and
`VoiceRecorder`.

## Model

| member | source | states |
|---|---|---|
| Types.ParseStatus | types/index.ts:21 | a string parses to a status only if it is that status's literal |
| Types.StatusLiterals | types/index.ts:21 | the five status literals are distinct and each parses back to its own status |
| Types.CategoryAndPriorityLiterals | types/index.ts:19-20 | six distinct category literals and four distinct priority literals, every value among them |
| Constants.TiersContiguous | lib/constants.ts:31-38 | six tiers numbered 1..6 in order; the first starts at 0, each maximum is one below the next minimum, the last is unbounded |
| Constants.TierIndex | lib/constants.ts:31-38 | every non-negative point count has a tier that holds it |
| Constants.ExactlyOneTier | lib/constants.ts:31-38 | a non-negative count is held by exactly one tier; a negative count by none |
| Constants.CategoryMinistriesKnown | lib/constants.ts:10-29 | every category's ministry is an id of the ministry table; the category ids are the six category literals, in order |
| Constants.IdsDistinct | lib/constants.ts:1-29 | zone ids, ministry ids and category ids are each distinct |
| Constants.PointValuesPositive | lib/constants.ts:40-47 | every award is positive; the six awards are 10, 5, 50, 25, 20 and 100 |
| Gamification.CurrentTierIs | lib/gamification.ts:6 | the tier lookup finds the unique tier holding non-negative points and nothing for negative points |
| Gamification.CalculateLevelSpec | lib/gamification.ts:5-11 | the level is one past the holding tier's index, with that tier's name; no tier means level 1, "Newcomer" |
| Gamification.CalculateLevelBoundaries | lib/gamification.ts:5-11 | 0 and 99 are level 1, 100 is level 2, 999 is level 4, 1000 and 1999 are level 5, 2000 and above are level 6 "Legend" |
| Gamification.LevelNumber | lib/gamification.ts:5-11 | the level number alone: 1 below zero, else tier index + 1 |
| Gamification.CalculateLevelMonotonic | lib/gamification.ts:5-11 | more points never give a lower level |
| Gamification.TierIndexMonotonic | lib/constants.ts:31-38 | a larger count is held by the same tier or a later one |
| Gamification.NextTierIs | lib/gamification.ts:16 | the lookup by level number finds the next tier, or nothing after the last |
| Gamification.GamificationDataSpec | lib/gamification.ts:13-26 | missing points read as 0; level and name agree with calculateLevel; badges are empty; currentLevelPoints is the tier's floor and at most the points; nextLevelPoints is the next tier's floor, above the points, or the points themselves at level 6; negative points give 0 and 100 |
| Gamification.GamificationDataLevel | lib/gamification.ts:14-22 | the points, level and name fields |
| Gamification.GamificationDataThresholds | lib/gamification.ts:15-24 | the two threshold fields, for every case of the points |
| Gamification.CurrentFloor | lib/gamification.ts:24 | currentLevelPoints is the holding tier's minimum, 0 when none holds the points |
| Gamification.CurrentLevel | lib/gamification.ts:20 | the level field is the tier index + 1, or 1 when no tier holds the points |
| Gamification.NextFloor | lib/gamification.ts:16-23 | nextLevelPoints is the following tier's minimum, the points at the top tier, and 100 for negative points |
| Gamification.NextFloorAt | lib/gamification.ts:16-23 | the next-tier floor for a given tier index, with the `||` fallback after the last tier |
| Gamification.AwardPointsIgnoresUser | lib/gamification.ts:28-37 | the award is the action's point value whatever the user, 50 for ISSUE_RESOLVED |
| Gamification.AwardNeverLowersLevel | lib/gamification.ts:30-34 | the level after the award is never below the level before it |
| Gamification.BadgeEligibilitySpec | lib/gamification.ts:39-64 | the result is exactly the badges, in the fixed order first_report, photo_reporter, resolution_tracker, community_leader, whose threshold holds and which the user does not hold |
| Gamification.EligibilityByBadge | lib/gamification.ts:43-61 | the result is the four conditional pushes in sequence |
| Gamification.BadgeEligibilityFresh | lib/gamification.ts:39-64 | no returned badge is already held, each is one of the four, and none appears twice |
| Gamification.BadgeEligibilityIdempotent | lib/gamification.ts:39-64 | granting the returned badges and asking again with the same counts returns nothing |
| Gamification.BadgeExamples | lib/gamification.ts:39-64 | with no badges, one report earns only first_report; 10 reports, 10 resolutions and 1000 points earn all four |
| Gamification.Entries | lib/gamification.ts:75-80 | one entry per ranked user |
| Gamification.LeaderboardShape | lib/gamification.ts:66-82 | at most 50 entries, ranked 1..n by non-increasing points; each entry is a citizen from the input with non-zero points, shown with its calculated level |
| Gamification.LeaderboardEntryAt | lib/gamification.ts:72-81 | entry i is the i-th ranked user with rank i + 1, its points and level, cut at 50 |
| Gamification.RankedMembers | lib/gamification.ts:72-74 | every ranked user is a citizen with points, taken from the input |
| Gamification.LeaderboardComplete | lib/gamification.ts:72-81 | with at most 50 qualifying citizens every one of them is on the board, as often as in the input; otherwise anyone with more points than the last entry is |
| Auth.LoginResult | lib/auth.ts:46-52 | sign-in succeeds exactly for a demo e-mail whose account has the requested role; otherwise "Invalid credentials" |
| Auth.DemoLogins | lib/auth.ts:17-52 | exactly three (e-mail, role) pairs sign in, each to the account with that e-mail and role |
| Auth.DemoIdsDistinct | lib/auth.ts:17-44 | the demo accounts have distinct ids |
| Auth.DemoCitizenLevel | lib/auth.ts:23-24 | the demo citizen's stored level 3 is the level its 450 points give |
| Auth.NewUserSpec | lib/auth.ts:55-63 | a registered citizen gets 0 points, level 1 and no badges, and other roles get none of these; name, e-mail, role, zone and ministry are copied; the id is the decimal clock, so different times give different ids |
| Auth.AuthService.constructor | lib/auth.ts:4-6 | nobody is signed in; storage is what the browser holds |
| Auth.AuthService.Login | lib/auth.ts:15-53 | the outcome is LoginResult, so the password never matters; a success signs the user in and stores it under "civic_user"; a failure changes nothing |
| Auth.AuthService.Register | lib/auth.ts:55-68 | the new user is signed in and stored under "civic_user" |
| Auth.AuthService.GetCurrentUser | lib/auth.ts:70-78 | the cached user, else the stored one, which is then cached, else none; storage is unchanged |
| Auth.AuthService.Logout | lib/auth.ts:80-83 | the user is signed out and the storage slot removed |
| MinistryIntegration.ForMinistry | lib/ministry-integration.ts:79-84 | with no ministry or an empty one, the whole list; otherwise only entries of that ministry |
| MinistryIntegration.ForMinistrySpec | lib/ministry-integration.ts:79-84 | with a ministry: exactly its entries, each as often as stored, in stored order |
| MinistryIntegration.MockExternalIssues | lib/ministry-integration.ts:100-121 | a sync returns two issues, both attributed to the integration's name |
| MinistryIntegration.AfterSyncSpec | lib/ministry-integration.ts:86-97 | an unknown id leaves the list unchanged; a known id sets the first matching entry to connected and synced at now, and nothing else changes |
| MinistryIntegration.AfterTestSpec | lib/ministry-integration.ts:124-137 | an unknown id changes nothing; a known id sets the entry to connected on success and to error on failure, and nothing else |
| MinistryIntegration.AfterUpdateSpec | lib/ministry-integration.ts:140-145 | an unknown id is a no-op; a known id replaces only that entry by the field-wise merge; the length is kept |
| MinistryIntegration.AfterUpdateIdempotent | lib/ministry-integration.ts:140-145 | applying an update that keeps the id twice is applying it once |
| MinistryIntegration.StatusChangesKeepMinistryViews | lib/ministry-integration.ts:95-97 | sync and test never move an entry to another ministry, so each ministry's view keeps its size |
| MinistryIntegration.SameMinistriesSameCount | lib/ministry-integration.ts:81 | lists with the same ministries position by position have equally long ministry views |
| MinistryIntegration.MinistryIntegrationService.constructor | lib/ministry-integration.ts:33-77 | the five initial integrations |
| MinistryIntegration.ForMinistryExact | lib/ministry-integration.ts:79-84 | the ministry view counts every entry of that ministry as often as stored, none of another, and keeps stored order |
| MinistryIntegration.MinistryIntegrationService.GetIntegrations | lib/ministry-integration.ts:79-84 | with a non-empty ministry: exactly the stored entries of that ministry, each as often as stored, in stored order; otherwise the whole stored list |
| MinistryIntegration.MinistryIntegrationService.SyncWithExternal | lib/ministry-integration.ts:86-122 | "Integration not found" for an unknown id; otherwise the two issues from the entry's name; the list becomes AfterSync |
| MinistryIntegration.MinistryIntegrationService.TestConnection | lib/ministry-integration.ts:124-138 | false for an unknown id, else the draw; the list becomes AfterTest |
| MinistryIntegration.MinistryIntegrationService.UpdateIntegration | lib/ministry-integration.ts:140-145 | the list becomes AfterUpdate |
| ReportIssueForm.FindMinistryFirst | components/citizen/report-issue-form.tsx:128 | the category lookup answers with the first entry carrying the id, and nothing when none does |
| ReportIssueForm.CategoryRouting | components/citizen/report-issue-form.tsx:128 | pothole goes to transport, water to water, the other four to urban_dev, an unknown category to urban_dev; the ministry is always a known ministry |
| ReportIssueForm.RoutedByEntry | components/citizen/report-issue-form.tsx:128 | a found category goes to its table entry's ministry; one not found to urban_dev |
| ReportIssueForm.WithoutPosition | components/citizen/report-issue-form.tsx:88-90 | removing an existing position drops exactly that element; an out-of-range index changes nothing |
| ReportIssueForm.RemovePositionSpec | components/citizen/report-issue-form.tsx:88-90 | removal shortens by one and keeps every other image in order |
| ReportIssueForm.NewIssueSpec | components/citizen/report-issue-form.tsx:114-138 | the new issue is submitted, reported by the user, routed by category, has a one-entry timeline ("1", submitted, by the user, at now), one URL per image in order, a voice note exactly when a blob is held, and coordinates falling back to the captured position, then 0 |
| ReportIssueForm.ReportForm.constructor | components/citizen/report-issue-form.tsx:25-40 | empty fields, priority medium, no images, no audio, no position |
| ReportIssueForm.ReportForm.LocationCaptured | components/citizen/report-issue-form.tsx:48-58 | records the position and copies it into the form's coordinates; nothing else changes |
| ReportIssueForm.ReportForm.HandleImageUpload | components/citizen/report-issue-form.tsx:75-86 | a batch that would exceed three images is refused whole; otherwise it is appended in order; at most three images are ever held |
| ReportIssueForm.ReportForm.RemoveImage | components/citizen/report-issue-form.tsx:88-90 | the images lose that position; the limit is kept |
| ReportIssueForm.ReportForm.HandleRecordingComplete | components/citizen/report-issue-form.tsx:92-98 | the blob is held; nothing else changes |
| ReportIssueForm.ReportForm.HandleRecordingDelete | components/citizen/report-issue-form.tsx:100-106 | the blob is cleared; nothing else changes |
| ReportIssueForm.ReportForm.HandleSubmit | components/citizen/report-issue-form.tsx:108-160 | returns the issue built from the form before the reset, then resets the fields, images, audio and position |
| IssueManagement.FilteredIssues | components/admin/issue-management.tsx:154-166 | every listed issue matches the search, every active filter and the admin's zone |
| IssueManagement.FilteredIssuesSpec | components/admin/issue-management.tsx:154-166 | exactly the matching issues of the zone, each as often as in the input, in input order; an active drop-down forces equality |
| IssueManagement.UnfilteredIsZone | components/admin/issue-management.tsx:154-166 | with no search and no filters the list is the zone's issues; an admin without a zone sees none |
| IssueManagement.OfferedStatusesSpec | components/admin/issue-management.tsx:473-476 | four targets are offered, every status except submitted |
| IssueManagement.UpdateCheck | components/admin/issue-management.tsx:207 | an accepted update carries the chosen status |
| IssueManagement.UpdateCheckSpec | components/admin/issue-management.tsx:206-214 | refused with "Missing Information" exactly when nothing is selected, no status is chosen, or the message is all whitespace |
| IssueManagement.ViewThenUpdate | components/admin/issue-management.tsx:200-214 | right after opening an issue, the update is accepted exactly when the message has a non-whitespace character |
| IssueManagement.IssueDialog.constructor | components/admin/issue-management.tsx:147-150 | nothing selected, empty status and message, dialog closed |
| IssueManagement.IssueDialog.HandleViewDetails | components/admin/issue-management.tsx:200-204 | selects the issue, preselects its status and opens the dialog |
| IssueManagement.IssueDialog.ChooseStatus | components/admin/issue-management.tsx:468-477 | the chosen status is one of the offered four, never submitted |
| IssueManagement.IssueDialog.EditMessage | components/admin/issue-management.tsx:479-482 | sets the message only |
| IssueManagement.IssueDialog.SetDetailModalOpen | components/admin/issue-management.tsx:386 | opens or closes the dialog only |
| IssueManagement.IssueDialog.HandleUpdateStatus | components/admin/issue-management.tsx:206-235 | a refused update changes nothing; an accepted one closes the dialog and clears the message and selection |
| IssueTracker.ProgressPercentage | components/citizen/issue-tracker.tsx:179-192 | the progress is one of 0, 25, 50, 75 and 100 |
| IssueTracker.ProgressSpec | components/citizen/issue-tracker.tsx:179-192 | progress strictly increases along submitted, acknowledged, in progress, resolved; it is 100 exactly for resolved and 0 exactly for rejected or a non-status |
| IssueTracker.TrackedIssues | components/citizen/issue-tracker.tsx:143-149 | every listed issue matches the search on title or description and the status filter |
| IssueTracker.TrackedIssuesSpec | components/citizen/issue-tracker.tsx:143-149 | exactly the matching issues, as often as in the input, in input order; a status filter other than "all" forces equality; the address is not searched |
| IssueTracker.UnfilteredIsEverything | components/citizen/issue-tracker.tsx:143-149 | an empty search with "all" lists every issue |
| IssueTracker.UserIssues | components/citizen/issue-tracker.tsx:34 | every kept issue was reported by the user |
| IssueTracker.UserIssuesSpec | components/citizen/issue-tracker.tsx:34 | all of the user's issues are kept, as often as in the input, in order |
| IssueTracker.Tracker.constructor | components/citizen/issue-tracker.tsx:20-23 | no issues, loading, empty search, filter "all" |
| IssueTracker.Tracker.OnSnapshot | components/citizen/issue-tracker.tsx:32-37 | the list becomes the user's issues of the snapshot; loading ends |
| IssueTracker.Tracker.LoadUserIssues | components/citizen/issue-tracker.tsx:42-54 | the fetched list, or the fallback when the fetch fails; loading ends either way |
| IssueTracker.Tracker.SetSearchTerm | components/citizen/issue-tracker.tsx:299 | sets the search only |
| IssueTracker.Tracker.SetStatusFilter | components/citizen/issue-tracker.tsx:303 | sets the filter only |
| CitizenManagement.Rows | components/admin/citizen-management.tsx:84-90 | one row per citizen |
| CitizenManagement.LeaderboardDataOrder | components/admin/citizen-management.tsx:82-90 | one row per citizen, ranked 1..n by non-increasing points, each with zone "Ranchi" |
| CitizenManagement.LeaderboardRowsFromCitizens | components/admin/citizen-management.tsx:84-90 | each row copies the name, points and level of a citizen from the input |
| CitizenManagement.CitizensGetRows | components/admin/citizen-management.tsx:82-90 | every citizen gets a row |
| CitizenManagement.FilteredCitizensSpec | components/admin/citizen-management.tsx:97-118 | exactly the citizens matching the search on name or e-mail and the level filter, as often as in the input, ordered by the chosen key descending, ties in input order |
| CitizenManagement.UnknownSortKeepsOrder | components/admin/citizen-management.tsx:115-116 | an unknown sort key keeps the filtered order |
| CitizenManagement.LevelFilterSpec | components/admin/citizen-management.tsx:102 | the filter "n" selects exactly level n; a filter with a non-digit or a leading zero selects nobody |
| CitizenManagement.TotalCitizens | components/admin/citizen-management.tsx:120 | the total card counts as many citizens as the leaderboard has rows, and is 0 only for an empty zone |
| CitizenManagement.TotalsSpec | components/admin/citizen-management.tsx:120-124 | both totals add over any split; the report total is non-negative when every count is; the load-time sort changes neither |
| CitizenManagement.MockTotals | components/admin/citizen-management.tsx:19-124 | the zone has five citizens who submitted 68 reports |
| MinistryIntegrationView.HoursThenDays | components/admin/ministry-integration.tsx:114-115 | flooring to hours and then to days is flooring to days |
| MinistryIntegrationView.FormatLastSyncSpec | components/admin/ministry-integration.tsx:111-124 | "Just now" exactly under an hour (future dates included); whole hours 1..23 below a day; whole days from a day on |
| MinistryIntegrationView.AgoNotJustNow | components/admin/ministry-integration.tsx:117-122 | a counted label is never "Just now" |
| MinistryIntegrationView.AgoSpec | components/admin/ministry-integration.tsx:118-120 | the count reads back from the label; the plural "s" appears exactly for counts above one |
| MinistryIntegrationView.IntegrationPanel.constructor | components/admin/ministry-integration.tsx:26-41 | the panel starts with its ministry's integrations, no external issues, not loading |
| MinistryIntegrationView.IntegrationPanel.LoadIntegrations | components/admin/ministry-integration.tsx:38-41 | the list becomes the service's view for the ministry |
| MinistryIntegrationView.IntegrationPanel.HandleSync | components/admin/ministry-integration.tsx:43-62 | a successful sync appends the fetched issues after those shown and reloads; a failed one changes neither; loading is false afterwards |
| MinistryIntegrationView.IntegrationPanel.HandleTestConnection | components/admin/ministry-integration.tsx:64-83 | the service records the outcome, the list is reloaded, loading is false afterwards |
| MinistryIntegrationView.IntegrationPanel.SelectIntegration | components/admin/ministry-integration.tsx:189 | selects the integration only |
| MinistryIntegrationView.SyncedEntryShown | components/admin/ministry-integration.tsx:46-48 | after a sync, the panel lists the entry as connected and synced at now |
| VoiceRecorder.LevelSpec | components/ui/voice-recorder.tsx:137-138 | the meter is the byte average as a percentage, within 0..100, and 100 exactly from 255 up |
| VoiceRecorder.Limit | components/ui/voice-recorder.tsx:114 | the time at which the timer stops a recording is at least 1 and at least maxDuration |
| VoiceRecorder.InitialValid | components/ui/voice-recorder.tsx:23-30 | the first render satisfies the recorder invariant |
| VoiceRecorder.EventsKeepValid | components/ui/voice-recorder.tsx:61-234 | start, pause, resume, stop, the timer tick, the meter frame, play, the playback tick, the playback end, pause playback and delete each keep the invariant |
| VoiceRecorder.AutoStop | components/ui/voice-recorder.tsx:105-119 | started from idle and left running, the recording counts one second per tick and stops at the limit with the note delivered |
| VoiceRecorder.TicksKeepValid | components/ui/voice-recorder.tsx:111-119 | any number of ticks keeps the invariant and the time within the limit |
| VoiceRecorder.NeverStopsAsWritten | components/ui/voice-recorder.tsx:111-119 | the timer as written never stops a recording started plainly |
| VoiceRecorder.OverrunAsWritten | components/ui/voice-recorder.tsx:111-119 | at 301 seconds with the default limit, the source still records with the bar above 100%, where the corrected timer stopped at 300 |
| VoiceRecorder.ResumedTimerStopsAsWritten | components/ui/voice-recorder.tsx:156-172 | the timer installed by resume does stop the recording at the limit |
| VoiceRecorder.LevelStuckAsWritten | components/ui/voice-recorder.tsx:133-134 | the level loop as written ends on its first frame, leaving the meter at 0 |
| VoiceRecorder.LevelFrameShowsLevel | components/ui/voice-recorder.tsx:133-140 | with the current flag, each frame shows the level and the loop goes on |
| VoiceRecorder.RecordingProgress | components/ui/voice-recorder.tsx:253-255 | the progress is a non-negative number exactly when maxDuration is positive |
| VoiceRecorder.ProgressWithinBar | components/ui/voice-recorder.tsx:253-255 | under the invariant the recording progress never exceeds 100 |
| VoiceRecorder.PlaybackProgressSpec | components/ui/voice-recorder.tsx:257-260 | the playback progress is within 0..100 and 100 at the end |
| VoiceRecorder.ControlsSpec | components/ui/voice-recorder.tsx:266-298 | at most one group of recording controls is shown; none is exactly when a note is held and not recording |
| VoiceRecorder.TwoDigits | components/ui/voice-recorder.tsx:249-250 | a number under 100, padded, is two digits that read back as it |
| VoiceRecorder.SplitLabel | components/ui/voice-recorder.tsx:250 | the label splits back at its colon |
| VoiceRecorder.FormatTimeSpec | components/ui/voice-recorder.tsx:247-251 | the label is the minutes, a colon and two digits of seconds; both parts read back |
| VoiceRecorder.FormatTimeInjective | components/ui/voice-recorder.tsx:247-251 | different durations get different labels |
| VoiceRecorder.Recorder.constructor | components/ui/voice-recorder.tsx:17-30 | the first render, satisfying the invariant |
| VoiceRecorder.Recorder.StartRecording | components/ui/voice-recorder.tsx:61-126 | with microphone access: recording, not paused, time 0, timer and meter running; without it, nothing changes; the invariant is kept |
| VoiceRecorder.Recorder.PauseRecording | components/ui/voice-recorder.tsx:146-154 | while recording: paused, timer cleared, still recording; the invariant is kept |
| VoiceRecorder.Recorder.ResumeRecording | components/ui/voice-recorder.tsx:156-172 | while paused: unpaused with a fresh timer; the invariant is kept |
| VoiceRecorder.Recorder.StopRecording | components/ui/voice-recorder.tsx:174-188 | while recording: both flags cleared, level 0, timer and meter stopped, the note delivered; the invariant is kept |
| VoiceRecorder.Recorder.OnTimerTick | components/ui/voice-recorder.tsx:111-119 | one more second, stopping at the limit; the invariant is kept |
| VoiceRecorder.Recorder.OnLevelFrame | components/ui/voice-recorder.tsx:133-141 | while recording, shows the level of the frame; otherwise the loop ends; the invariant is kept |
| VoiceRecorder.Recorder.PlayRecording | components/ui/voice-recorder.tsx:190-212 | with a note and not playing: playing from 0; the invariant is kept |
| VoiceRecorder.Recorder.OnPlaybackTick | components/ui/voice-recorder.tsx:198-202 | copies the audio element's time; the invariant is kept |
| VoiceRecorder.Recorder.OnPlaybackEnded | components/ui/voice-recorder.tsx:204-210 | stops playing, time back to 0; the invariant is kept |
| VoiceRecorder.Recorder.PausePlayback | components/ui/voice-recorder.tsx:214-222 | while playing: stops playing; the invariant is kept |
| VoiceRecorder.Recorder.DeleteRecording | components/ui/voice-recorder.tsx:224-234 | the note and both clocks cleared, not playing; the invariant is kept |
| Seqs.Filter | components/admin/issue-management.tsx:154 | `filter` keeps only elements satisfying the predicate, never more than it was given |
| Seqs.FilterMembers | components/admin/issue-management.tsx:154 | an element is kept exactly when it is in the input and satisfies the predicate |
| Seqs.FilterCount | components/admin/issue-management.tsx:154 | a kept element occurs as often as in the input |
| Seqs.FilterIsSubsequence | components/admin/issue-management.tsx:154 | `filter` keeps input order |
| Seqs.FilterDistinct | lib/gamification.ts:39-64 | filtering a list without duplicates leaves none |
| Seqs.FindIndex | lib/ministry-integration.ts:141 | `findIndex` is the first matching position, or none when nothing matches |
| Seqs.Find | lib/gamification.ts:6 | `find` finds something exactly when some element matches, and what it finds is the first matching element |
| Seqs.SortDesc | components/admin/citizen-management.tsx:105-118 | the descending sort is a permutation and is sorted |
| Seqs.SortDescStable | components/admin/citizen-management.tsx:105-118 | elements with equal keys keep their relative order |
| Seqs.ConstantKeyKeepsOrder | components/admin/citizen-management.tsx:115-116 | a comparator returning 0 everywhere leaves the array as it is |
| Seqs.Take | lib/gamification.ts:81 | `slice(0, n)` is the first n elements, or all when fewer |
| Seqs.SumConcat | components/admin/citizen-management.tsx:124 | the `reduce` sum adds over a split |
| Seqs.SumPermutation | components/admin/citizen-management.tsx:124 | the sum does not depend on order |
| Text.ToLower | components/admin/issue-management.tsx:156 | `toLowerCase` keeps the length and lowers each character |
| Text.ContainsIffOccurs | components/admin/issue-management.tsx:156 | `includes` holds exactly when the term occurs at some position |
| Text.IncludesIgnoresCase | components/admin/issue-management.tsx:156-158 | the case-insensitive match is unchanged by lower-casing either side |
| Text.EmptySearchMatches | components/admin/issue-management.tsx:156 | the empty search matches every text |
| Text.NatToString | components/admin/citizen-management.tsx:102 | `toString` of a whole number is a non-empty string of digits without a leading zero |
| Text.ParseNatToString | components/admin/citizen-management.tsx:102 | the decimal form reads back as the number |
| Text.NatToStringInjective | components/admin/citizen-management.tsx:102 | different numbers have different decimal forms |
| Text.PadStart2 | components/ui/voice-recorder.tsx:250 | `padStart(2, "0")` pads with leading zeros to two characters and leaves longer strings alone |
| Text.TrimEmptyIffBlank | components/admin/issue-management.tsx:207 | `trim` gives "" exactly for an all-whitespace string |

## Left out

- lib/database.ts, lib/camera.ts, hooks/use-statistics.ts, app/page.tsx and the dashboards, home page, login form, profile, analytics and notification components are not part of this model. They are views, or calls into Firebase and browser services.
- Singletons (`getInstance`) are left out: each service is an object passed by reference. `getIntegrations` returns the service's own array; the model returns a value, so aliasing is not captured.
- The JSON round trip through `localStorage` is left out: the slot holds the user value itself. `Date` fields would not survive `JSON.parse` in the source.
- Toasts, `console` output, the `setTimeout` delays, `onSuccess`, `onRecordingComplete` and `onRecordingDelete` are left out. They are notifications with no state of their own.
- The `isLoading` and `isSubmitting` flags are not observable mid-operation. Each method states the value after the `finally`.
- `Math.random()` in `testConnection` is the `success` parameter.
- `getUserMedia`, `MediaRecorder`, `AudioContext` and `Audio` are left out. Their outcomes are parameters: `granted`, the delivered blob and URL, the analyser average and the audio element's current time.
- Floating-point arithmetic is left out. Coordinates, the level meter and the progress bars use `real`, so NaN, infinities and rounding are not modelled.
- Case folding is ASCII only; Unicode case mapping is left out.
- The category cast in `handleSubmit` (report-issue-form.tsx:117) is left unchecked: the draft keeps the category string.
- No status transition of an issue is modelled: `handleUpdateStatus` (issue-management.tsx:206-235) never writes the new status into the issue, so the model only validates and acknowledges the request.
- `activeCitizens` and `avgPointsPerCitizen` (citizen-management.tsx:121-127) are left out. They are display figures, and depend on the clock and on floating-point rounding.
- `downloadRecording` (voice-recorder.tsx:236-245) is left out: it only drives the DOM.
- The cleanup on unmount (voice-recorder.tsx:40-59) is left out.
- VoiceRecorder.FormatTime: whole seconds only. The playback label's fractional `currentTime` and a NaN duration are left out.
- VoiceRecorder.Recorder.DeleteRecording: like the source, it clears isPlaying and leaves the playback interval running. It does not model that the audio element is never paused (`audioRef.current.pause()` is not called), so a note being played goes on sounding after delete.
- VoiceRecorder.Recorder.StartRecording: requires the idle state in which the source's UI shows the Start button. A second start from another state, which would leak an interval, is not modelled.
- VoiceRecorder.RecordingProgress: a zero maxDuration is represented by None instead of JavaScript's NaN or Infinity.
- MinistryIntegration.Merge: reads a missing field of the update as "keep the current value". A key present with the value `undefined`, which `Partial<MinistryIntegration>` allows (for example `{ apiKey: undefined }`), overwrites the current value in `{ ...current, ...updates }` (lib/ministry-integration.ts:143). The model cannot express that case.
- ReportIssueForm.RemovePositionSpec: states positions and length; the multiset form of "nothing else lost" follows from it and is not stated separately.

## Findings

| source | as written | input that shows it | evidently intended | confidence | as-written member | corrected member |
|---|---|---|---|---|---|---|
| components/ui/voice-recorder.tsx:111-119 | the timer installed by `startRecording` calls the `stopRecording` of the render before recording began, whose `isRecording` and `isPaused` are both false, so the limit never stops the recording | start with the default maxDuration 300 and let 301 one-second ticks pass: still recording at 301 s, progress bar above 100% | the recording stops at maxDuration with the note delivered | not executed | VoiceRecorder.NeverStopsAsWritten, VoiceRecorder.OverrunAsWritten | VoiceRecorder.AutoStop, VoiceRecorder.TicksKeepValid |
| components/ui/voice-recorder.tsx:133-134 | `updateLevel` tests the `isRecording` captured by the render that called `startRecording`, which is false, so the loop ends on its first frame and the meter stays at 0 | start recording from idle; the first animation frame returns without setting a level | the meter follows the analyser while recording | not executed | VoiceRecorder.LevelStuckAsWritten | VoiceRecorder.LevelFrameShowsLevel |
