# Interview-coaching UI: a verified model of its page logic

The application is a set of Next.js pages for interview practice. They have a
mock-interview lobby, a live interview room, a practice-question page, a
dashboard with a CV upload card, a profile page, and a demo sign-in helper. Most
of each page is markup over fixed data. This project models the parts that
decide something or change state, and proves properties about them.

- **Interview room** (`Room`). Mounting the page requests camera and
  microphone. When that request succeeds, a recorder and a one-second interval
  start. Each tick recomputes the shown time from the clock as
  `floor((now - start) / 1000)`. "End Interview" runs only while recording.
  It stops the recorder, clears the interval and stops every preview track.
  Unmounting clears only the interval. A request that resolves after unmount
  still starts the recorder, the interval and the tracks, but nothing on
  screen shows them and no button can stop them.
- **Practice page** (`Practice`). There are five questions. "Next Question"
  wraps round, and the bank buttons jump to a question. Both are disabled while
  recording. Each "Start Recording" leaves one more interval running, because
  its clear function is discarded. The counter therefore keeps rising after
  "Stop Recording".
- **Time display** (`TimeFormat`). This is `formatTime`, shared by both pages.
  Minutes are rounded down and seconds use JavaScript's `%`. Both fields are
  left-padded with '0' to two characters.
- **Lobby** (`Lobby`). The equipment probe sets both the camera and microphone
  flags, true on success and false on failure. Success also schedules release of
  the probe's tracks after 5000 ms. Each probe gets fresh tracks, so a release
  stops only its own probe's tracks. The start button needs both flags and
  leaves the page. The setup figure is 33 + 33 + 34.
- **Dashboard** (`Dashboard`). A CV file is checked in a fixed order: first
  its extension or MIME type, then a 5 MiB bound. A simulated upload steps its
  progress 0, 10, …, 100. Removing the file clears all upload state. The card
  also has a score-to-badge rule and the "Analyze" button's enablement.
- **Profile** (`Profile`). An input edits one field of the nested form
  record, and only in edit mode. The page also has the edit toggle, the save
  handler, the skill-target caption, the achievement badge, the preference
  button labels and the add-skill box.
- **Demo credentials** (`Auth`). `signIn` compares its arguments exactly with
  one fixed pair. `signOut` always succeeds.

Media devices and timers are events in the model. A `getUserMedia` result is
an `Option<Stream>`: a stream is the sequence of its track ids, and `None`
means the request failed. Interval firings and timeouts are methods whose
`requires` says that such a timer is pending. The wall clock is a `now`
parameter. Each button or input is a method (`Click…` or the handler's own
name). When the control is disabled or not rendered, for example after the
page was unmounted or while the dashboard shows its success message, the
method does nothing. State updates that React drops on an unmounted page are
dropped in the model too.

Files: `common.dfy` (Option, badge variants), `text.dfy` (integer rendering,
`padStart`, `trim`, lower-casing), `media.dfy` (stopping a stream's tracks),
`time_format.dfy`, `room.dfy`, `practice.dfy`, `lobby.dfy`, `dashboard.dfy`,
`profile.dfy`, `auth.dfy`.

## Model

| member | source | states |
|---|---|---|
| TimeFormat.FormatTime | src/app/mock-interview/room/page.tsx:75-79 | `formatTime`: the two fields joined by ':'; also src/app/practice/page.tsx:44-49; what the text means is stated by FormatTimeRoundTrip, FormatTimeLength and NegativeCounter |
| TimeFormat.Minutes | src/app/mock-interview/room/page.tsx:76 | the minute field `m` rounds down: `m*60 <= s < m*60 + 60` |
| TimeFormat.Seconds | src/app/mock-interview/room/page.tsx:77 | JavaScript's `%`: in 0..59 for a non-negative count and in -59..0 for a negative one, with `s - r` a multiple of 60 |
| TimeFormat.FieldsSplit | src/app/mock-interview/room/page.tsx:76-77 | for `s >= 0`, the seconds field is in 0..59 and `mins*60 + secs == s` |
| TimeFormat.FormatTimeRoundTrip | src/app/mock-interview/room/page.tsx:75-79 | for every `s >= 0`, reading the `MM:SS` text back gives `s` |
| TimeFormat.FormatTimeLength | src/app/mock-interview/room/page.tsx:78 | the text is exactly 5 characters for `s < 6000`; from 6000 on the minute field grows, because `padStart` never truncates |
| TimeFormat.NegativeCounter | src/app/mock-interview/room/page.tsx:75-79 | a negative count, such as after the clock goes back, shows as `-1:-1` for -1 and `-2:-1` for -61 |
| Text.PadStart | src/app/mock-interview/room/page.tsx:78 | the input is a suffix of the result, and only fill characters are added in front, up to the width; the input is never cut |
| Text.DecimalDigits | src/app/mock-interview/room/page.tsx:78 | `toString` of a non-negative number: at least one character, all decimal digits, no leading zero from 10 on |
| Text.IntToString | src/app/mock-interview/room/page.tsx:78 | non-negative numbers render as their decimal digits; negative ones render as '-' followed by the digits |
| Text.ParseDecimalDigits | src/app/mock-interview/room/page.tsx:78 | the decimal rendering of `n` reads back as `n` |
| Room.Elapsed | src/app/mock-interview/room/page.tsx:42-45 | the shown seconds `e` satisfy `e*1000 <= now - start < e*1000 + 1000`, and are non-negative once `now >= start` |
| Room.ElapsedMonotone | src/app/mock-interview/room/page.tsx:44 | the shown time never decreases while `now` does not decrease |
| Room.ElapsedWholeSeconds | src/app/mock-interview/room/page.tsx:42-45 | `k` whole seconds after the start, plus less than a second, shows `k` |
| Room.InterviewRoom.constructor | src/app/mock-interview/room/page.tsx:12-27 | mount: the page is mounted, not recording, time 0, the AI is speaking, no recorder or timer, and the media request is pending |
| Room.InterviewRoom.AcquisitionResolved | src/app/mock-interview/room/page.tsx:29-54 | success with fresh tracks: the tracks are live, the recorder records, an interval starts at `now` and the AI timeout is scheduled; only a mounted page also attaches the preview and sets `isRecording`; failure: only the pending request is dropped, and everything else is unchanged |
| Room.InterviewRoom.Tick | src/app/mock-interview/room/page.tsx:43-45 | on a mounted page a firing sets the time to `Elapsed(start, now)`, recomputed and not incremented; on an unmounted page the update is dropped |
| Room.InterviewRoom.AiTimeoutFires | src/app/mock-interview/room/page.tsx:48-50 | on a mounted page `isAiSpeaking` becomes false; no method ever sets it back to true |
| Room.InterviewRoom.FinishInterview | src/app/mock-interview/room/page.tsx:57-73 | while mounted and recording: the recorder stops, `isRecording` is cleared, the interval is cleared, every preview track stops and the page navigates; otherwise nothing changes |
| Room.InterviewRoom.Unmount | src/app/mock-interview/room/page.tsx:22-26 | clears the interval and marks the page gone; the recorder and the tracks stay live |
| Room.InterviewRoom.ShownTime | src/app/mock-interview/room/page.tsx:98 | the header's `MM:SS` text, also shown at src/app/mock-interview/room/page.tsx:206; a non-negative counter reads back from it |
| Room.FinishTwiceScenario | src/app/mock-interview/room/page.tsx:57-73 | before finishing, the header reads back the seconds since the start; after one finish the tracks are all stopped, and a second finish changes nothing |
| Room.UnmountBeforeAcquisitionScenario | src/app/mock-interview/room/page.tsx:19-45 | if the media request resolves after unmount, the recorder, the interval and the tracks it starts all stay live, with no preview attached, even after an attempt to finish |
| Room.UnmountWhileRecordingScenario | src/app/mock-interview/room/page.tsx:19-27 | leaving mid-interview clears the interval, but the recorder keeps recording and the tracks stay live |
| Room.AcquisitionFailsScenario | src/app/mock-interview/room/page.tsx:29-58 | after a failed request there is no recorder and no timer, `isRecording` stays false, and "End Interview" does nothing |
| Media.StopTracks | src/app/mock-interview/room/page.tsx:66-69 | stopping each track of a stream in turn leaves exactly the live tracks that are not in the stream |
| Practice.NextIndex | src/app/practice/page.tsx:38-42 | the next index stays in 0..4: one more, or 0 after the last question |
| Practice.NextTimesIsRotation | src/app/practice/page.tsx:39 | `k` presses of Next move `k` places round the bank: the result is `(i + k) % 5` |
| Practice.NextFiveTimesReturns | src/app/practice/page.tsx:39 | five presses return to the starting question, and 1 to 4 presses do not |
| Practice.QuestionNumber | src/app/practice/page.tsx:69 | the header number is in 1..5 and is the index plus one |
| Practice.Preview | src/app/practice/page.tsx:150 | the preview is at most the first 60 characters of the question, always followed by "..." |
| Practice.PracticeSession.constructor | src/app/practice/page.tsx:10-12 | not recording, time 0, the first question, no intervals |
| Practice.PracticeSession.ClickStart | src/app/practice/page.tsx:24-31 | sets `isRecording` and adds one live interval; the counter and the question are unchanged |
| Practice.PracticeSession.ClickStop | src/app/practice/page.tsx:33-36 | clears `isRecording` and the counter; every interval stays live |
| Practice.PracticeSession.ClickNext | src/app/practice/page.tsx:38-42 | when not recording: the next question, counter 0, not recording; while recording the button is disabled and nothing changes |
| Practice.PracticeSession.ClickBankEntry | src/app/practice/page.tsx:136-147 | when not recording: question `i`, counter 0, not recording; while recording, nothing changes |
| Practice.PracticeSession.ShownTime | src/app/practice/page.tsx:87 | the timer text reads back as the counter |
| Practice.PracticeSession.IntervalFires | src/app/practice/page.tsx:27-29 | any live interval adds exactly 1 to the counter, whether recording or not |
| Practice.TickAfterStopScenario | src/app/practice/page.tsx:24-36 | after Start then Stop, the still-live interval moves the counter to 1 while not recording, and the display reads one second |
| Practice.RestartScenario | src/app/practice/page.tsx:24-31 | Start, Stop, Start leaves two live intervals, and two firings give a counter of 2 |
| Lobby.StartEnabled | src/app/mock-interview/page.tsx:184-186 | the start button is enabled exactly when the camera and the microphone are both ready |
| Lobby.WarningShown | src/app/mock-interview/page.tsx:194-198 | the warning's render condition; WarningIffDisabled states what it means |
| Lobby.WarningIffDisabled | src/app/mock-interview/page.tsx:194-198 | the warning text is shown exactly when the start button is disabled |
| Lobby.SetupProgress | src/app/mock-interview/page.tsx:236-250 | the figure is in 0..100; it is 100 iff all three flags are true and 0 iff none is; it is at least 34 when `internet` is true |
| Lobby.SetupProgressMonotone | src/app/mock-interview/page.tsx:236-240 | readying more devices never lowers the figure |
| Lobby.LobbyPage.constructor | src/app/mock-interview/page.tsx:13-17 | camera and microphone false, `internet` true, nothing pending, the page mounted |
| Lobby.LobbyPage.CheckEquipment | src/app/mock-interview/page.tsx:20-37 | success with fresh tracks: the tracks are live and the release is queued, and a mounted page sets camera and microphone true and shows the stream; failure: a mounted page sets both flags false; an unmounted page's flags and preview are unchanged; `internet` always stays true |
| Lobby.LobbyPage.ReleaseTimeoutFires | src/app/mock-interview/page.tsx:29-32 | the oldest queued probe stream's tracks all stop, and every other queued probe stream stays live; the readiness flags are not touched |
| Lobby.LobbyPage.ClickStartInterview | src/app/mock-interview/page.tsx:39-41 | navigates, and so leaves the page, only when the page is mounted and the button enabled; the probe stream is not handed over and the tracks are unchanged |
| Lobby.ProbeThenReleaseScenario | src/app/mock-interview/page.tsx:20-37 | after a successful probe and its release, no tracks are live, yet the page shows 100% and the button is enabled |
| Lobby.TwoProbesScenario | src/app/mock-interview/page.tsx:20-37 | after two probes, the first release leaves exactly the second probe's tracks live |
| Lobby.LateProbeScenario | src/app/mock-interview/page.tsx:20-41 | a probe resolving after "Start Interview" changes nothing on screen, yet its tracks stay live alongside the first probe's |
| Lobby.ProbeFailsScenario | src/app/mock-interview/page.tsx:34-36 | a failed probe leaves the button disabled and the figure at 34 |
| Dashboard.LastSegment | src/app/dashboard/page.tsx:81 | `name.split('.').pop()`; LastSegmentIsLastDotFreeSuffix states what it is |
| Text.Lower | src/app/dashboard/page.tsx:81 | `toLowerCase` on ASCII letters; LowerIsPointwise states that it keeps the length and folds each character |
| Text.LowerChar | src/app/dashboard/page.tsx:81 | an ASCII capital moves to its small letter (32 code points up); every other character is kept |
| Text.LowerIsPointwise | src/app/dashboard/page.tsx:81 | lower-casing keeps the length and maps each character on its own |
| Dashboard.LastSegmentIsLastDotFreeSuffix | src/app/dashboard/page.tsx:81 | `split('.').pop()` is the dot-free suffix of the name, and a dot precedes it unless it is the whole name |
| Dashboard.LastSegmentNoDot | src/app/dashboard/page.tsx:81 | a name without a dot is its own last segment |
| Dashboard.LastSegmentAfterDot | src/app/dashboard/page.tsx:81 | for `p + "." + s` with `s` dot-free, the segment is `s` |
| Dashboard.Extension | src/app/dashboard/page.tsx:81 | the extension starts with '.' and contains no other dot |
| Dashboard.ExtensionOfDotlessName | src/app/dashboard/page.tsx:81 | a name with no dot yields '.' plus the whole lower-cased name |
| Dashboard.ExtensionExamples | src/app/dashboard/page.tsx:81 | `pdf` gives `.pdf`, `cv.docx.exe` gives `.exe`, and `report.` gives `.` |
| Dashboard.ExtensionIgnoresCase | src/app/dashboard/page.tsx:81 | `CV.PDF` gives `.pdf`: the extension is compared lower-cased |
| Dashboard.IsAllowedType | src/app/dashboard/page.tsx:84 | `allowedTypes.includes(t)` over the six listed extensions and MIME types |
| Dashboard.TypeAllowed | src/app/dashboard/page.tsx:84 | a file passes the type check when its extension or its MIME type is listed |
| Dashboard.FileError | src/app/dashboard/page.tsx:80-93 | no error iff the type is allowed and the size is at most 5242880; a wrong type gives the type message whatever the size; an allowed but oversize file gives the size message |
| Dashboard.SizeBoundary | src/app/dashboard/page.tsx:90-93 | exactly 5242880 bytes is accepted and 5242881 is refused |
| Dashboard.MimeTypeSuffices | src/app/dashboard/page.tsx:84-87 | a file whose MIME type is `application/pdf` and whose size is within the bound is accepted whatever its name |
| Dashboard.TypeCheckedBeforeSize | src/app/dashboard/page.tsx:84-93 | an oversize `photo.png` of type `image/png` gets the type message, not the size message |
| Dashboard.ProgressFrom | src/app/dashboard/page.tsx:110 | the values the upload loop shows from `p` on; ProgressFromValues gives their closed form |
| Dashboard.ProgressFromValues | src/app/dashboard/page.tsx:110 | from `p` the loop shows `p + 10*i` for each step `i`, stopping at the last value not above 100 |
| Dashboard.DashboardPage.StepProgress | src/app/dashboard/page.tsx:110-113 | the progress is set to exactly the values of `ProgressFrom(0)`, in order, and ends at 100 |
| Dashboard.UploadProgressValues | src/app/dashboard/page.tsx:110-113 | an upload shows 11 values from 0 to 100, strictly increasing and all within 0..100 |
| Dashboard.SessionBadge | src/app/dashboard/page.tsx:533-536 | 'default' iff score ≥ 80, 'secondary' iff 70 ≤ score < 80, and 'outline' iff score < 70 |
| Dashboard.SessionBadgeMonotone | src/app/dashboard/page.tsx:533-536 | a higher score never gets a weaker badge |
| Dashboard.AnalyzeEnabled | src/app/dashboard/page.tsx:308 | the button's `!jobDescription.trim()` test, negated; AnalyzeEnabledIff states what it means |
| Dashboard.AnalyzeEnabledIff | src/app/dashboard/page.tsx:308 | "Analyze" is enabled iff some character of the description is not whitespace in the sense of `trim` |
| Text.IsWhitespace | src/app/dashboard/page.tsx:308 | the characters `trim` removes: the WhiteSpace and LineTerminator code points of ECMA-262 |
| Text.TrimStart | src/app/dashboard/page.tsx:308 | removes exactly the leading whitespace: the result is a suffix that does not start with whitespace, and everything removed is whitespace |
| Text.TrimEnd | src/app/dashboard/page.tsx:308 | removes exactly the trailing whitespace, symmetrically |
| Text.Trim | src/app/dashboard/page.tsx:308 | `trim`: both ends; TrimEmptyIff states when it is empty |
| Text.TrimEmptyIff | src/app/dashboard/page.tsx:308 | `trim` gives the empty string exactly when every character is whitespace |
| Dashboard.DashboardPage.constructor | src/app/dashboard/page.tsx:34-39 | empty description, no file, no error, no success message, progress 0 |
| Dashboard.DashboardPage.EditJobDescription | src/app/dashboard/page.tsx:303 | the description becomes the typed text |
| Dashboard.DashboardPage.PickerShown | src/app/dashboard/page.tsx:333-397 | the file input is rendered only with no upload running, no success message and no held file |
| Dashboard.DashboardPage.FileActionsShown | src/app/dashboard/page.tsx:346-376 | the upload and remove buttons are rendered only with a held file, no upload running and no success message |
| Dashboard.DashboardPage.HandleFileSelect | src/app/dashboard/page.tsx:76-99 | with the picker not shown or no file, nothing changes; a rejected file only sets the error; an accepted file clears the error and becomes the held file |
| Dashboard.DashboardPage.HandleFileUpload | src/app/dashboard/page.tsx:101-141 | with its button not shown, nothing changes; otherwise the progress takes 0, then 0..100 in steps of 10, then 0 again; afterwards there is no upload in progress, success is set, the error is cleared and one success reset is scheduled |
| Dashboard.DashboardPage.SuccessTimeoutFires | src/app/dashboard/page.tsx:129-132 | the success message is cleared |
| Dashboard.DashboardPage.RemoveFile | src/app/dashboard/page.tsx:143-146 | with its button shown, the file, the error and the success flag are all cleared; otherwise nothing changes |
| Dashboard.DashboardPage.AnalyzeButtonEnabled | src/app/dashboard/page.tsx:308 | the button is enabled exactly when the description holds a character that is not whitespace |
| Dashboard.RemoveDuringSuccessScenario | src/app/dashboard/page.tsx:128-146 | while the success message shows, the held file cannot be removed; after the message times out it can |
| Profile.WithField | src/app/profile/page.tsx:85-93 | the edited field holds the value; every other field of the section and every other section is unchanged; an unknown section becomes a one-field section |
| Profile.WithFieldOverwrites | src/app/profile/page.tsx:85-93 | the second of two writes to a field wins |
| Profile.WithFieldUnchanged | src/app/profile/page.tsx:85-93 | writing back the value a field already holds leaves the form equal to what it was |
| Profile.ProfilePage.constructor | src/app/profile/page.tsx:36-76 | not editing, the form holds the initial record, and there is no add-skill text |
| Profile.ProfilePage.ToggleEdit | src/app/profile/page.tsx:256-257 | flips `isEditing` and keeps the form; the add-skill box, rendered only in edit mode at src/app/profile/page.tsx:453, comes back empty |
| Profile.ProfilePage.HandleSaveProfile | src/app/profile/page.tsx:78-83 | leaves edit mode, so the add-skill box and its text go away; the form is unchanged |
| Profile.ProfilePage.EditField | src/app/profile/page.tsx:274-280 | in edit mode the form becomes `WithField(old form, …)`; outside it the input is disabled and the form is unchanged |
| Profile.EditModeScenario | src/app/profile/page.tsx:256-280 | an edit before toggling is lost; after toggling it lands, and a sibling field keeps its value |
| Profile.SkillMessage | src/app/profile/page.tsx:430 | "target achieved" iff score ≥ target; otherwise the gap is strictly positive and score + gap = target |
| Profile.SkillMessageMonotone | src/app/profile/page.tsx:430 | a higher score keeps "achieved" and never has a larger gap |
| Profile.AchievementBadge | src/app/profile/page.tsx:497-501 | 'milestone' gives default, 'performance' gives secondary, and any other type gives outline |
| Profile.PreferenceLabel | src/app/profile/page.tsx:555-557 | "Disable" iff the preference is on, otherwise "Enable" |
| Profile.Truthy | src/app/profile/page.tsx:556 | JavaScript truthiness of a form value: empty text, zero and `false` are falsy |
| Profile.ProfilePage.PreferenceButton | src/app/profile/page.tsx:556-582 | "Disable" iff the named preference is present and truthy, "Enable" otherwise |
| Profile.PreferenceScenario | src/app/profile/page.tsx:556-582 | a flag set on shows "Disable" and a flag set off shows "Enable" |
| Profile.AddSkillKey | src/app/profile/page.tsx:458-465 | Enter on non-blank text empties the box; any other key or blank text leaves the text as it was |
| Profile.ProfilePage.TypeSkill | src/app/profile/page.tsx:453-467 | typing sets the add-skill text in edit mode; outside it the box is not rendered and nothing changes |
| Profile.ProfilePage.SkillKeyPress | src/app/profile/page.tsx:453-467 | in edit mode, Enter on non-blank text empties the box, otherwise the text is kept; the form, skills included, never changes |
| Profile.SkillBoxScenario | src/app/profile/page.tsx:453-467 | text typed outside edit mode goes nowhere; in edit mode Enter on non-blank text empties the box and the form is unchanged |
| Auth.SignIn | src/lib/auth.ts:2-9 | success iff the email is exactly "demo@example.com" and the password exactly "demo"; on success the user is id "1", the given email and "Demo User"; otherwise the error is "Invalid credentials" |
| Auth.SignInOutcomes | src/lib/auth.ts:4-8 | every success returns the same demo user; every failure returns the same rejection |
| Auth.NoNormalisation | src/lib/auth.ts:4 | leading spaces, trailing spaces and upper case in either credential are rejected |
| Auth.SignOut | src/lib/auth.ts:11-13 | always reports success |

## Left out

- Browser media objects are not modelled: `getUserMedia`, `MediaRecorder`, `srcObject` and track objects. Acquisition is an outcome parameter. A stream is a sequence of track ids. Stopping a track removes it from a set of live tracks.
- Real time is not modelled: `setInterval`, `setTimeout` and `Date.now`. Timer firings are explicit methods and the clock is a `now` argument. Delays (200 ms upload steps, 3 s, 5 s) are not measured.
- Room.InterviewRoom.AcquisitionResolved: the error that is logged on failure is not modelled.
- The navigation away from the room after "End Interview" is a flag. The model does not unmount the page when it navigates; `Unmount` is a separate event.
- Practice.PracticeSession.IntervalFires: the intervals are counted but not told apart. Their relative phase within a second is not modelled.
- Dashboard.DashboardPage.HandleFileUpload: the upload runs as one step. The method does not model other events interleaving at the `await` between steps, which the page hides behind its progress view anyway. The `catch` branch is not modelled, because nothing in the simulated `try` can throw.
- Dashboard.Extension: lower-casing covers ASCII letters only. Full Unicode case mapping is not modelled. No non-ASCII character lower-cases into one of the allowed extensions, so the accept/reject outcome is the same.
- `handleAnalyzeRole` only logs, so it is not modelled. Only the button's enablement is.
- `formatFileSize` uses floating-point logarithms and rounding, so it is not modelled.
- The file input reset in `removeFile` is not modelled. The remove button is rendered only while a file is held, and then the `cv-upload` input is not rendered, so `getElementById` finds nothing to clear. The add-skill box's DOM value is modelled as the page's `skillInput` field.
- Profile.SkillMessage: the caption's text and emoji are not rendered. The function returns what the caption says: achieved, or the gap.
- Profile.ProfilePage.HandleSaveProfile: no button calls it in the source. The header button only toggles edit mode. It is modelled as written, and its `console.log` is left out.
- The tab switcher, router navigation (modelled as flags), markup, styling and the hard-coded mock data are not modelled. The one exception is the five practice questions, whose count drives the wrap-round.
- Auth.SignIn, Auth.SignOut: the `async` promise wrapping is not modelled, because both resolve immediately. The HTTP route that wraps the same check is not part of this model.
- The results page, the sign-in page, the landing page and the header are not part of this model. They hold only static data, `fetch`, `localStorage` and navigation.
