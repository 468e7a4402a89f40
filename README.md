# sitor-frontend emotion dashboard, modelled in Dafny

This project models the browser-side logic of the sitor-frontend emotion
dashboard and proves properties about it. The dashboard is a Next.js
client. A camera page detects facial expressions and keeps a short
history of dominant emotions; report and dashboard pages summarise that
history; a groups area lets users join, create and leave groups; a chat
panel asks an assistant for advice. Face detection, the assistant and
storage all sit behind external libraries and a backend. What is left in
the client is a set of small rules. Those rules are what is modelled
here:

- counting, dominant-emotion selection, percentages, trend points, the newest-first list and the CSV export of the reports and dashboard pages;
- the colour of each emotion;
- the live detection page's flags, its sorted results and the 50-record history it keeps in local storage;
- the group list's search and split, the membership selection of `useUserGroups`, and the join, access and add handlers of the groups pages;
- the id guard and Authorization header of `service/api.ts`;
- the chat panel's message log and recommendation flag, the profile forms, and the dashboard login gate.

The model follows each source file's form. Code made of expressions
(filters, maps, switches, reductions) becomes functions with lemmas
about them. Pages that set state in handlers become classes whose
methods state their whole new state. The loops of `calculateStats` and
`exportReport` become methods with loop invariants. An asynchronous
handler is split where it waits: one method for the part before the
request, and one that takes the request's outcome as a parameter. A
value the handler captured at the start, such as the selected group,
is passed to the second method explicitly.

Modules, one per source file, plus shared definitions:

- `Wrappers`: `Option`.
- `Text`: ASCII casing, `includes`, `trim` and `||` fallbacks on strings.
- `Emotions`: the shared detection record, the seven labels, counting and first occurrences.
- `Reports`: app/dashboard/reports/page.tsx.
- `BarChart`: components/reports/EmotionBarChart.tsx.
- `HistoryList`: components/reports/DetectionHistoryList.tsx.
- `EmotionColor`: `getEmotionColor` of lib/utils.ts and of the detect page.
- `TrendChart`: components/dashboard/EmotionTrendLineChart.tsx.
- `Dashboard`: app/dashboard/page.tsx.
- `Detect`: app/dashboard/detect/page.tsx.
- `Groups`: components/groups/GroupList.tsx.
- `UserGroups`: app/dashboard/groups/useUserGroups.ts.
- `GroupsPage`: app/dashboard/groups/page.tsx.
- `CreateGroup`: app/dashboard/groups/create/page.tsx.
- `Api`: service/api.ts.
- `Chat`: components/emotion-chat.tsx.
- `Profile`: app/dashboard/profile/page.tsx.
- `Layout`: app/dashboard/layout.tsx.

The code uses seven emotion labels, "neutral" among them.

## Model

| member | source | states |
|---|---|---|
| Text.Lower | lib/utils.ts:9 | `toLowerCase` on ASCII: same length, each character lower-cased |
| Text.LowerIdempotent | components/groups/GroupList.tsx:30 | lower-casing twice is lower-casing once |
| Text.IncludesAt | components/groups/GroupList.tsx:30 | `includes` holds exactly when the substring occurs at some position |
| Text.TrimSplits | service/api.ts:35 | `trim` returns a slice of its input with only whitespace cut from each end |
| Text.Trim | service/api.ts:35 | `trim` gives a string no longer than its input that neither starts nor ends with whitespace |
| Text.TrimEmptyIffAllSpace | components/emotion-chat.tsx:83 | a string trims to empty exactly when every character is whitespace |
| Text.OrElse | app/dashboard/groups/page.tsx:90 | `message \|\| fallback`: the fallback replaces a missing or empty message, and a non-empty message is kept |
| Emotions.CountPositive | app/dashboard/reports/page.tsx:51 | an emotion has a positive count exactly when some record carries it |
| Emotions.DistinctFacts | app/dashboard/reports/page.tsx:49-55 | the keys of the counts are exactly the recorded emotions, in order of their first record |
| Emotions.OrderFollowsFirstRecord | app/dashboard/reports/page.tsx:55 | one key comes before another exactly when its first record is earlier |
| Emotions.DistinctUnique | app/dashboard/reports/page.tsx:49-52 | each emotion is a key only once |
| Emotions.CountsSumToLength | app/dashboard/reports/page.tsx:49-52 | the counts of all keys add up to the number of records |
| Emotions.CountMap | app/dashboard/reports/page.tsx:49-52 | the counts object: one key per recorded emotion, holding its number of records |
| Reports.ConvertRecent | app/dashboard/reports/page.tsx:31-37 | a non-array `recent` gives no history; otherwise one record per entry, in order, with `dominant` as emotion and a missing probability read as 1 |
| Reports.ReportsPage.FetchDetections | app/dashboard/reports/page.tsx:24-44 | a fetched summary replaces the history with its conversion; a failure keeps the history and shows "Failed to fetch detection history" |
| Reports.CountEmotions | app/dashboard/reports/page.tsx:49-52 | the loop's counts hold, for exactly the recorded emotions, their number of records; the key order is first-record order |
| Reports.PickDominant | app/dashboard/reports/page.tsx:53-60 | starting from "neutral" and 0 with a strict `>`, the chosen key has maximal count and every earlier key a strictly smaller one |
| Reports.CalculateStats | app/dashboard/reports/page.tsx:47-62 | "No data" and no counts for an empty history; otherwise exact counts and a dominant emotion of maximal count whose first record precedes every other of equal count |
| Reports.EarliestMaximum | app/dashboard/reports/page.tsx:55-59 | the earliest key of maximal count is the maximal emotion recorded first |
| Reports.DominantOccurs | app/dashboard/reports/page.tsx:53 | for a non-empty history the dominant emotion is a recorded one, so "neutral" is kept only if recorded |
| Reports.SplitJoin | app/dashboard/reports/page.tsx:70 | splitting at a separator that no part contains gives back the joined parts |
| Reports.TerminatedIsJoin | app/dashboard/reports/page.tsx:68-71 | appending each line with its line feed equals joining the lines with a final empty line |
| Reports.ExportReport | app/dashboard/reports/page.tsx:66-79 | nothing is exported for an empty history; otherwise the text is the header line followed by one line per record |
| Reports.ExportRoundTrip | app/dashboard/reports/page.tsx:68-71 | when no field holds a comma or line feed, reading the export back gives the header and every record's fields, in order |
| Reports.ExportNotInjective | app/dashboard/reports/page.tsx:70 | fields are not quoted: two different histories can export to the same text |
| Reports.ExportHasNoCarriageReturn | app/dashboard/reports/page.tsx:68-70 | lines end in a bare line feed: the export has a carriage return only if a field has one |
| BarChart.Percentage | components/reports/EmotionBarChart.tsx:14 | `Math.round(count / length * 100)` on exact rationals: the nearest integer, halves rounded up; 0 for an empty history |
| BarChart.PercentageAtMost100 | components/reports/EmotionBarChart.tsx:14 | a count no larger than the history gives at most 100 |
| BarChart.Height | components/reports/EmotionBarChart.tsx:15 | the bar height is the percentage, but never below 5 |
| BarChart.Bars | components/reports/EmotionBarChart.tsx:9-15 | one bar per label, in the fixed label order, with a missing count read as 0 |
| BarChart.CountOf | components/reports/EmotionBarChart.tsx:13 | a present count reads as itself and a missing one as 0 |
| BarChart.OtherLabelsIgnored | components/reports/EmotionBarChart.tsx:12-13 | counts of labels outside the seven do not change the bars |
| BarChart.EmptyHistoryAllZero | components/reports/EmotionBarChart.tsx:14-15 | an empty history shows every bar at 0% with the minimum height |
| BarChart.HistoryBarInRange | components/reports/EmotionBarChart.tsx:13-14 | each bar's percentage is its label's share of the history and at most 100 |
| BarChart.NoSumCorrection | components/reports/EmotionBarChart.tsx:14 | percentages are rounded independently: three equal thirds show 33% each, 99% in all |
| BarChart.ExampleThreeToOne | components/reports/EmotionBarChart.tsx:12-15 | happy, happy, sad, happy shows 75% happy, 25% sad and 0% for the rest |
| HistoryList.ReversedAt | components/reports/DetectionHistoryList.tsx:24-25 | the reversed copy holds record `len-1-i` at position i (the model works on values, so the copy made before reversing is implicit) |
| HistoryList.ViewNewestFirst | components/reports/DetectionHistoryList.tsx:13-27 | the placeholder exactly for an empty history; otherwise min(len, 10) rows, newest first |
| HistoryList.View | components/reports/DetectionHistoryList.tsx:13-27 | the placeholder exactly for an empty history; otherwise between 1 and 10 rows, never more than the history holds |
| EmotionColor.ColorOf | lib/utils.ts:8-27 | the colour is always one of seven classes, gray for a missing emotion |
| EmotionColor.ColorIsPaletteLookup | lib/utils.ts:9-25 | the colour is the lower-cased emotion's palette entry, gray for anything else |
| EmotionColor.CaseInsensitive | lib/utils.ts:9 | the colour depends only on the lower-cased emotion |
| EmotionColor.PaletteInjective | lib/utils.ts:10-21 | the six named emotions get six distinct colours, none of them gray |
| EmotionColor.GrayExactlyOutsidePalette | lib/utils.ts:22-25 | gray exactly for a missing emotion, "neutral" or any other label |
| EmotionColor.DetectPageAgrees | app/dashboard/detect/page.tsx:218-235 | the detect page's own colour switch agrees with lib/utils on every string |
| EmotionColor.DetectPageColorOf | app/dashboard/detect/page.tsx:218-235 | the detect page's switch gives the palette colour of the lower-cased name, gray for every other name |
| TrendChart.LabelsAndMapAreInverse | components/dashboard/EmotionTrendLineChart.tsx:19-22 | the label list and the row map are inverse: a bijection between the seven labels and rows 0 to 6 |
| TrendChart.ValidEntries | components/dashboard/EmotionTrendLineChart.tsx:26 | the filter keeps only non-null entries with a string label and a string timestamp |
| TrendChart.ValidEntriesExact | components/dashboard/EmotionTrendLineChart.tsx:26 | it keeps every valid entry, each as often as it occurs |
| TrendChart.ValidEntriesInOrder | components/dashboard/EmotionTrendLineChart.tsx:26 | it keeps the entries in their original order |
| TrendChart.PlotValue | components/dashboard/EmotionTrendLineChart.tsx:32 | a label's row is its index in the label list, and 6 for anything else |
| TrendChart.PlotValueAsWritten | components/dashboard/EmotionTrendLineChart.tsx:20-32 | the lookup as JavaScript does it, seeing names inherited from Object.prototype |
| TrendChart.AsWrittenPlotsInheritedMember | components/dashboard/EmotionTrendLineChart.tsx:32 | the label "toString" plots an inherited function, not row 6 |
| TrendChart.AsWrittenAgreesElsewhere | components/dashboard/EmotionTrendLineChart.tsx:32 | for every other label the as-written lookup agrees with the intended one |
| TrendChart.TrendLine | components/dashboard/EmotionTrendLineChart.tsx:25-32 | "No trend data" exactly for a missing or empty list; otherwise one point per valid entry, each row between 0 and 6 (through the corrected lookup PlotValue; see ## Findings) |
| TrendChart.TrendPoints | components/dashboard/EmotionTrendLineChart.tsx:28-32 | point i is the i-th valid entry's timestamp and its label's row (through the corrected lookup PlotValue; see ## Findings) |
| Dashboard.Cap | app/dashboard/page.tsx:62-64 | "-" for a missing or empty string; otherwise the same string with its first letter upper-cased |
| Dashboard.CapIdempotent | app/dashboard/page.tsx:63 | capitalising twice is capitalising once, the "-" of an empty input included |
| Dashboard.CapKeepsLowerCase | app/dashboard/page.tsx:63 | capitalising a non-empty string changes only the case of its first letter |
| Dashboard.LookupAt | app/dashboard/page.tsx:75 | reading a key of the emotions object gives that key's value |
| Dashboard.ReduceFacts | app/dashboard/page.tsx:75 | the reduce keeps its start label unless some value beats it, and otherwise ends on the earliest key of maximal value |
| Dashboard.Reduce | app/dashboard/page.tsx:75 | the reduce ends on its start label or on one of the keys it ran over |
| Dashboard.DominantOf | app/dashboard/page.tsx:99 | the dominant label is "neutral" or a key of the emotions object |
| Dashboard.DominantFacts | app/dashboard/page.tsx:99 | the dominant label's value is at least every value; it is "neutral" exactly when no value exceeds neutral's (0 when absent), otherwise the earliest key of maximal value |
| Dashboard.ChatInputsOf | app/dashboard/page.tsx:99-101 | the chat gets "" without a last detection, otherwise its dominant label; and each recent item's `dominant`, in order, or nothing |
| Dashboard.TieFavoursNeutral | app/dashboard/page.tsx:99 | on equal values "neutral" keeps its place, and the earlier key wins between others |
| Detect.Insert | app/dashboard/detect/page.tsx:164-169 | one insertion step of the sort adds exactly the one entry |
| Detect.InsertSorted | app/dashboard/detect/page.tsx:169 | inserting into a list in non-increasing order keeps it so |
| Detect.SortDescending | app/dashboard/detect/page.tsx:164-169 | the results are a permutation of the expression entries, by non-increasing probability |
| Detect.FirstIsMaximal | app/dashboard/detect/page.tsx:185 | the first result, the one recorded as dominant, has the highest probability of all entries |
| Detect.Appended | app/dashboard/detect/page.tsx:187-194 | the new record is last; below 50 records nothing is dropped, at 50 only the oldest, so at most 50 stay at most 50 |
| Detect.AppendAllKeepsNewest | app/dashboard/detect/page.tsx:187-194 | from at most 50 records, any run of appends keeps exactly the 50 newest of all records, in order |
| Detect.ProgressAfter | app/dashboard/detect/page.tsx:45-59 | the progress bar rises with each network loaded, and reaches 100 only when all four are |
| Detect.DetectPage.constructor | app/dashboard/detect/page.tsx:23-29 | the page starts with nothing loaded, the camera and detection off and no error |
| Detect.DetectPage.ScriptFailed | app/dashboard/detect/page.tsx:259 | a failed script load shows its error and changes nothing else |
| Detect.DetectPage.ScriptLoaded | app/dashboard/detect/page.tsx:32-36 | a loaded script starts model loading |
| Detect.DetectPage.LoadModels | app/dashboard/detect/page.tsx:38-67 | a missing face API and a failed network each show their error; only a full load marks the models loaded, with progress at 100 |
| Detect.DetectPage.StartVideo | app/dashboard/detect/page.tsx:69-75 | the error is cleared; while the models load, the loading error is shown and nothing else changes |
| Detect.DetectPage.VideoSettled | app/dashboard/detect/page.tsx:77-94 | a granted camera is attached and on; a refusal leaves the camera off with the permission error |
| Detect.DetectPage.StopVideo | app/dashboard/detect/page.tsx:97-108 | the stream is cleared and both the camera and detection are off |
| Detect.DetectPage.PauseDetection | app/dashboard/detect/page.tsx:318 | detection is turned off and nothing else changes |
| Detect.DetectPage.RecordResults | app/dashboard/detect/page.tsx:170-195 | the results are shown, the first is appended to the stored history and stored as the current emotion |
| Detect.DetectPage.DetectFrame | app/dashboard/detect/page.tsx:124-206 | a step from a render that saw detection off does nothing; a detector failure shows the error and stops detection; a face stores the sorted results and records the first |
| Detect.DetectPage.StartDetection | app/dashboard/detect/page.tsx:110-122 | refused with the loading error while the models load; from the paused state it turns detection on but processes and schedules no frame |
| Detect.DetectPage.VideoPlayed | app/dashboard/detect/page.tsx:285-287 | the stream starting to play runs a detection step exactly when the current render has detection on, with that step's outcomes |
| Detect.StartWithCameraOff | app/dashboard/detect/page.tsx:110-122 | starting detection with the camera off asks for the camera; once the granted stream plays, a frame with a face is processed, recorded and the next one scheduled |
| Detect.DetectPage.StartDetectionIntended | app/dashboard/detect/page.tsx:110-122 | with detection seen as on, a frame with a face is processed, recorded and the next one scheduled |
| Groups.KeepExact | components/groups/GroupList.tsx:29-33 | `filter` keeps exactly the elements satisfying its test, each as often as it occurs |
| Groups.KeepInOrder | components/groups/GroupList.tsx:29-33 | `filter` keeps order: the kept elements sit at increasing positions of the input |
| Groups.FilteredExact | components/groups/GroupList.tsx:29-31 | the search keeps exactly the groups whose lower-cased name contains the lower-cased search |
| Groups.Filtered | components/groups/GroupList.tsx:29-31 | the filtered list is no longer than the groups and every group in it matches the search |
| Groups.MyGroups | components/groups/GroupList.tsx:32 | every group in the user's section is one of the groups, matches the search and has the user as a member |
| Groups.OtherGroups | components/groups/GroupList.tsx:33 | every group in the other section is one of the groups, matches the search and lacks the user as a member |
| Groups.EmptySearchKeepsAll | components/groups/GroupList.tsx:26-31 | the initial empty search shows every group, in order |
| Groups.Partition | components/groups/GroupList.tsx:32-33 | a group is under "Grup Saya" exactly when the user is a member and under "Grup Lainnya" exactly when not; no group is in both and together they are the filtered list |
| Groups.AccessRequest | components/groups/GroupList.tsx:70 | access passes the group's id and "leader" exactly when the user is its leader |
| Groups.GroupListView.SetSearch | components/groups/GroupList.tsx:43 | typing replaces the search and leaves the pending confirmation alone |
| Groups.GroupListView.RequestRemoval | components/groups/GroupList.tsx:75-91 | a group's leader is asked to confirm deleting it, anyone else to confirm leaving |
| Groups.GroupListView.Cancel | components/groups/GroupList.tsx:118 | cancelling drops the pending action without calling anything |
| Groups.GroupListView.Confirm | components/groups/GroupList.tsx:136-140 | confirming calls the delete handler only for a deletion and the leave handler only for leaving, with the pending id, when given; then clears the pending action |
| Groups.RemoveFlow | components/groups/GroupList.tsx:75-140 | asking and confirming deletes a group the user leads and leaves any other |
| UserGroups.Select | app/dashboard/groups/useUserGroups.ts:9-22 | the selection has no more groups than given |
| UserGroups.SelectExact | app/dashboard/groups/useUserGroups.ts:9-22 | the selection is the groups in original order whose fetch succeeded with a members array containing the user; failures and non-arrays are left out |
| UserGroups.UserGroupsHook.constructor | app/dashboard/groups/useUserGroups.ts:5 | the result starts as the empty list |
| UserGroups.UserGroupsHook.Effect | app/dashboard/groups/useUserGroups.ts:6-27 | the previous run is torn down; without a user id or without groups no run starts and the result is untouched |
| UserGroups.UserGroupsHook.Unmount | app/dashboard/groups/useUserGroups.ts:24-26 | after teardown no run is live |
| UserGroups.UserGroupsHook.Settle | app/dashboard/groups/useUserGroups.ts:21-23 | a settled run updates the result only if it is still live |
| GroupsPage.AccessRoute | app/dashboard/groups/page.tsx:45-51 | leaders go to the group's leader page, anyone else to its detection page |
| GroupsPage.JoinErrorText | app/dashboard/groups/page.tsx:66-70 | status 400 gives the wrong-code message, anything else the generic one |
| GroupsPage.GroupsPageState.InitialGroupsSettled | app/dashboard/groups/page.tsx:29-37 | the loaded groups, or none on a failure or a missing list; every other field, the route included, is unchanged |
| GroupsPage.GroupsPageState.RefreshSettled | app/dashboard/groups/page.tsx:88 | a refresh replaces the groups; a failed refresh keeps them; every other field, the route included, is unchanged |
| GroupsPage.GroupsPageState.HandleJoin | app/dashboard/groups/page.tsx:39-43 | the group is selected, the dialog opened and its error cleared |
| GroupsPage.GroupsPageState.HandleAccess | app/dashboard/groups/page.tsx:45-51 | navigates to the leader or detection page of the group; every other field, the route included, is unchanged |
| GroupsPage.GroupsPageState.SetSecurityCode | app/dashboard/groups/page.tsx:134 | typing replaces the code; every other field is unchanged |
| GroupsPage.GroupsPageState.BeginJoinSubmit | app/dashboard/groups/page.tsx:53-57 | without a selected group nothing changes; otherwise loading starts, the error is cleared and `joinGroup` is called with the selected id; every other field, the route included, is unchanged |
| GroupsPage.GroupsPageState.JoinSettled | app/dashboard/groups/page.tsx:58-71 | success closes the dialog, clears the code and opens the selected group's detection page; failure keeps the dialog with its message; loading ends either way; every other field, the route included, is unchanged |
| GroupsPage.GroupsPageState.CloseJoinModal | app/dashboard/groups/page.tsx:125-129 | closing the dialog clears the code and the error; every other field, the route included, is unchanged |
| GroupsPage.GroupsPageState.HandleAddGroup | app/dashboard/groups/page.tsx:74-77 | the add dialog opens with no error; every other field, the route included, is unchanged |
| GroupsPage.GroupsPageState.CloseAddModal | app/dashboard/groups/page.tsx:138 | the add dialog closes; every other field, the route included, is unchanged |
| GroupsPage.GroupsPageState.BeginAddGroup | app/dashboard/groups/page.tsx:81-82 | loading starts and the error is cleared; every other field, the route included, is unchanged |
| GroupsPage.GroupsPageState.AddGroupSettled | app/dashboard/groups/page.tsx:83-92 | success closes the dialog and refreshes; failure shows the server's message or "Gagal membuat grup"; loading ends either way; every other field, the route included, is unchanged |
| GroupsPage.JoinFlow | app/dashboard/groups/page.tsx:39-62 | picking a group and submitting a code sends the request exactly when the id has 24 characters; only a sent request the server accepts ends on that group's detection page with the dialog closed; any other outcome keeps the dialog open with the reply's error text, the generic failure text when the id was never sent |
| CreateGroup.CreateGroupPage.BeginSubmit | app/dashboard/groups/create/page.tsx:19-22 | loading starts and the error is cleared before the request |
| CreateGroup.CreateGroupPage.SubmitSettled | app/dashboard/groups/create/page.tsx:23-32 | success goes to the group list; otherwise the response's or the error's message, or "Gagal membuat grup"; loading ends on every path |
| CreateGroup.Submit | app/dashboard/groups/create/page.tsx:17-33 | a submit shows an error exactly when the group was not created, and loading is off afterwards |
| Api.Bearer | service/api.ts:39 | the header is "Bearer " followed by the stored token, or "null" when none is stored |
| Api.JoinGroup | service/api.ts:25-42 | rejected exactly when the id is not a string of 24 characters; otherwise a POST to /groups/join with the trimmed id, the code as given and the Bearer header that `Api.Authorization` gives the join call |
| Api.SentIdIsTrimmed | service/api.ts:28-35 | the id sent is never longer than 24, and shorter when the accepted id starts or ends with whitespace |
| Api.NonHexAccepted | service/api.ts:27-28 | only the length is checked: 24 non-hexadecimal characters pass |
| Api.Authorization | service/api.ts:17-91 | `getMe` sends its raw token argument; every other authenticated call sends the Bearer header |
| Chat.Sendable | components/emotion-chat.tsx:83 | an input can be sent exactly when it has a character that is not whitespace |
| Chat.EmotionChat.SetInput | components/emotion-chat.tsx:238 | typing replaces the input and nothing else |
| Chat.EmotionChat.OpenChanged | components/emotion-chat.tsx:28 | a new `isOpen` prop changes only the open flag |
| Chat.EmotionChat.BeginSend | components/emotion-chat.tsx:82-97 | a blank input or a send while loading changes nothing; otherwise exactly one user message with the untrimmed input is appended, the input cleared, loading started and the error cleared |
| Chat.EmotionChat.SendSettled | components/emotion-chat.tsx:99-111 | a reply appends exactly one assistant message; a failure appends nothing and shows the error; loading ends |
| Chat.EmotionChat.KeyPress | components/emotion-chat.tsx:114-119 | Enter without Shift sends; any other key or Shift+Enter does nothing |
| Chat.EmotionChat.RecommendationEffect | components/emotion-chat.tsx:49-54 | a recommendation is requested only for a present emotion, an open panel and none shown yet; the flag is then set |
| Chat.EmotionChat.RecommendationSettled | components/emotion-chat.tsx:61-80 | a recommendation appends one assistant message; a failure shows the error; loading ends |
| Chat.EmotionChat.EmotionChanged | components/emotion-chat.tsx:57-59 | a new emotion clears the shown flag |
| Chat.EmotionChat.Mount | components/emotion-chat.tsx:49-59 | on the first render a recommendation for the current emotion is requested exactly when it is present and the panel open, with loading on and the error cleared; otherwise loading and the error are untouched; the flag ends cleared |
| Chat.Exchange | components/emotion-chat.tsx:82-112 | a full exchange appends the user's message then the reply, and nothing else |
| Profile.Merged | app/dashboard/profile/page.tsx:38 | the update sets name and email and keeps every other field of the user, none for a null user |
| Profile.MergedIdempotent | app/dashboard/profile/page.tsx:38 | saving the same name and email again changes nothing |
| Profile.ProfilePage.HandleProfileUpdate | app/dashboard/profile/page.tsx:29-47 | the merged user is stored and shown with the success message, unless storing fails; loading ends |
| Profile.ProfilePage.HandlePasswordChange | app/dashboard/profile/page.tsx:49-73 | different new and confirmation passwords are refused and every field kept; otherwise success and the three fields cleared; loading ends |
| Layout.SessionCleared | app/dashboard/layout.tsx:33-34 | removing the session leaves no login and no user, and every other entry as it was |
| Layout.SessionClearedIdempotent | app/dashboard/layout.tsx:33-34 | clearing the session twice is clearing it once |
| Layout.LoggedIn | app/dashboard/layout.tsx:19 | logged in exactly when the store maps `isLoggedIn` to the string "true" |
| Layout.DashboardLayout.CheckSession | app/dashboard/layout.tsx:17-30 | logged in exactly when the stored flag is "true"; then a stored user is loaded, otherwise the login page opens |
| Layout.DashboardLayout.Logout | app/dashboard/layout.tsx:32-36 | exactly the login flag and the user entry are removed, and the login page opens |
| Layout.LogoutThenReload | app/dashboard/layout.tsx:17-40 | after logout the next check renders nothing and goes to the login page, keeping other entries such as the token |

## Left out

- Face detection, camera access, canvas drawing, the screenshot and the overlay text on the detect page belong to face-api.js and the browser. A detection step's outcome, the camera's answer and the number of networks loaded are parameters.
- Detect.DetectPage.DetectFrame: the checks that the face API, the video element and the canvas exist are left out; the model assumes they are present.
- Detect.SortDescending: the sort is stable in the source and in the model, but the model does not state stability.
- Local storage, JSON parsing and serialisation, and the synthetic storage event: storage is modelled as fields or a map, and a stored history that is not an array is not modelled.
- HTTP plumbing, the assistant calls and their prompts: each outcome is a parameter. The remaining requests of service/api.ts only issue calls.
- Date and locale formatting, `cn`, Chart.js options and every purely presentational component.
- BarChart.Percentage: computed on exact rationals. JavaScript rounds a floating-point quotient, which differs at some exact halves (23 of 40 shows 57 in JavaScript and 58 here).
- Text.Lower: ASCII only; the Unicode case mappings of `toLowerCase` and `toUpperCase` are not modelled.
- Reports.CalculateStats: `Object.entries` lists integer-like keys first, and a counts object sees inherited names such as "constructor". Emotion labels are assumed to be ordinary words.
- Api.JoinGroup: a string's length is counted in characters, not UTF-16 code units, and the server-side case without a window is not modelled.
- Profile.ProfilePage: the mount effect that reads the stored user and fills the form is not modelled (JSON parsing). A user record is a map from field names to strings.
- Layout.DashboardLayout: the stored user is kept as its stored text, not parsed.
- The groups page's `handleDeleteGroup` and `handleLeaveGroup` only call the server and, after a success, refresh through `RefreshSettled`; a failure is swallowed.
- Scheduling between React effects and renders is not modelled beyond the order stated in `Chat.EmotionChat.Mount` and the captured flag of `Detect.DetectPage.DetectFrame`.

## Findings

| source | as written | input that shows it | evidently intended | confidence | as-written member | corrected member |
|---|---|---|---|---|---|---|
| components/dashboard/EmotionTrendLineChart.tsx:32 | `emotionMap[r.dominant] ?? 6` reads an object literal, so names inherited from Object.prototype are found | a recent entry with `dominant` "toString" plots a function instead of row 6 | only the seven labels map to rows, everything else to 6 | not executed; low impact, the server sends only the seven labels | TrendChart.AsWrittenPlotsInheritedMember | TrendChart.PlotValue |
| app/dashboard/detect/page.tsx:110-126 | `startDetection` sets `isDetecting` and then calls `detectEmotions` from the same render, whose captured `isDetecting` is still false | click "Start Detection" with the models loaded and the camera on: `detectEmotions` returns at once, so no frame is processed or scheduled | the first detection step runs with detection on and keeps scheduling frames | not executed; high, the Start button is shown only while detection is off | Detect.DetectPage.StartDetection | Detect.DetectPage.StartDetectionIntended |
