# KheloAI sports assessment: a verified model of its scoring core

This project models, in Dafny, the logic at the core of the KheloAI
sports-assessment platform. The platform has two parts:

- a React Native app, in which an athlete fills in a profile, records a
  fitness test and sees rated results;
- a FastAPI scoring service, which turns an uploaded video into a score.

The model covers:

- **Rating engine** (`Ratings`). The results screen's threshold table,
  the age-band function and the four-tier rating with its `N/A` sentinel.
- **Benchmark screen** (`Benchmarks`). Its own copy of the table and of the
  age-band function, the line labels, and the selection state that
  `loadProfile` and the filter buttons set.
- **Recording screen** (`Recording`). The countdown into recording, the
  recording guards, and the scoring of a captured video. Scoring tries the
  service first and falls back to a local estimate, then stores the record
  and hands that same record to the results screen.
- **Service client** (`Api`). `ApiError`, the upload request, the status
  and parse rules, and the `_source` tag.
- **Results history** (`ResultsHistory`). Loading and clearing the stored
  results, the newest-first sort and the summary counts.
- **Profile form** (`Profile`). Its initial values, field edits, and the
  validation that decides whether the profile is stored.
- **Scoring service** (`Backend`). The size-based fallback analyzers,
  dispatch, the `/analyze` response, the rejection of unknown tests and the
  `/config` merge.
- **Rep counters** (`RepCounter`, `SitUps`, `PushUps`). The two-phase
  state machine the sit-up and push-up analyzers run over pose frames.

## How JavaScript and Python values are represented

- **Missing values.** `NaN`, `undefined` and `None` are `Option.None`.
  JavaScript truthiness of a possibly missing string is
  `JsValues.Truthy`.
- **`parseInt`.** It is modelled on decimal text: leading white space is
  skipped, one sign is accepted, and the longest run of digits is read.
- **Numbers.** Scores and thresholds are `real`. Timestamps are whole
  numbers of milliseconds since the epoch in the app. The ISO string the
  service sends (backend/main.py:207) reaches the app as the instant it
  names, in those milliseconds (`Api.Body.timestamp`), since the app only
  compares timestamps as instants. Inside the service
  (`Backend.AnalysisResponse.timestamp`) the clock is in whole seconds.
- **Device storage.** `AsyncStore` is a class with one field per key the
  core uses (`testResults`, `athleteProfile`, `athleteName`). A missing
  key is `None`.
- **Outside world.** The network (`server`), `JSON.parse` (`parse`), the
  media library (`asset`), `Math.random` (`random`), the clock (`now`),
  storage failures (`writeOk`, `removeOk`) and the camera's failures
  (`startThrows`) are parameters.
- **Screen state.** The state of each screen is a class whose fields are
  that screen's `useState` variables. Alerts shown and navigations made are
  sequences the methods append to.

## Model

| member | source | states |
|---|---|---|
| JsValues.Field | screens/ProfileScreen.js:49 | a property read is `undefined` exactly when the key is absent, and otherwise the stored value |
| JsValues.ParseIntRoundTrip | screens/ProfileScreen.js:54 | `parseInt` of the decimal rendering of any natural number gives that number back |
| JsValues.ParseIntIgnoresSuffix | screens/ProfileScreen.js:54 | text after the digits is ignored: a number followed by a non-digit parses to that number |
| JsValues.TrimStart | screens/ProfileScreen.js:54 | what `parseInt` skips is all white space, and what remains does not start with white space |
| JsValues.ParseIntSkipsNoBreakSpace | screens/ProfileScreen.js:54 | white space beyond ASCII is skipped: a no-break space before a number still gives the number |
| JsValues.ParseIntNaN | screens/ResultsScreen.js:184 | text with no digit after the skipped white space and an optional sign parses to `NaN`; this covers `-abc` and `+` |
| Ratings.AgeGroup | screens/ResultsScreen.js:175-181 | the band is always one of the four labels; an age in 8..35 lies in its band; any other age and `NaN` give `18-25` |
| Ratings.BandsDisjoint | screens/ResultsScreen.js:175-181 | no age lies in two bands, so the band chosen is the only one containing the age |
| Ratings.BandsCover | screens/ResultsScreen.js:175-181 | some band contains an age exactly when the age is in 8..35 |
| Ratings.Lookup | screens/ResultsScreen.js:185 | the optional-chained lookup yields a row exactly when test, gender and band are all keys, and that row is the table's |
| Ratings.TableOrdered | screens/ResultsScreen.js:17-60 | every row is strictly ordered in its test's direction (ascending for shuttle_run, descending otherwise) |
| Ratings.TableComplete | screens/ResultsScreen.js:17-60 | every test in the table has rows for male and female in all four bands |
| Ratings.Display | screens/ResultsScreen.js:187-201 | no tier is displayed as the grey `N/A` |
| Ratings.DisplayInjective | screens/ResultsScreen.js:191-201 | different tiers have different labels and different colours |
| Ratings.GetPerformanceRating | screens/ResultsScreen.js:183-202 | `N/A` in grey exactly when no row exists for the test, gender and band of the age; otherwise exactly one tier's rating |
| Ratings.RankCountsThresholdsMet | screens/ResultsScreen.js:189-201 | on an ordered row, the tier's rank is the number of thresholds among excellent, good and average that the score reaches |
| Ratings.BoundariesInclusive | screens/ResultsScreen.js:190-201 | a score equal to a threshold gets that threshold's tier, in both directions; a score at `poor` is Needs Improvement |
| Ratings.ClassifyMonotone | screens/ResultsScreen.js:189-201 | a better score (higher, or lower for shuttle_run) never gets a lower tier, on any row |
| Ratings.PoorIgnored | screens/ResultsScreen.js:189-201 | the `poor` threshold never affects the tier; on an ordered row every score missing `average` is Needs Improvement |
| Ratings.ExcellentAtThreshold | screens/ResultsScreen.js:191 | for every row of the table, scoring exactly its `excellent` value is rated Excellent |
| Ratings.RatingMonotone | screens/ResultsScreen.js:183-202 | over the real table, a better score never lowers the rating |
| Ratings.MissingRowsNotAvailable | screens/ResultsScreen.js:185-187 | push_ups, flexibility, gender `other` and an undefined gender all give `N/A` without failing |
| Ratings.NaNScoreNeedsImprovement | screens/ResultsScreen.js:238-243 | a score that `parseFloat` turns into `NaN` is rated Needs Improvement whenever a row exists |
| Benchmarks.AgeGroup | screens/BenchmarkScreen.js:130-136 | the band is always one of the filter's bands |
| Benchmarks.AgeGroupsAgree | screens/BenchmarkScreen.js:130-136 | this copy of `getAgeGroup` agrees with the results screen's on every age, and the filter offers exactly the same bands |
| Benchmarks.TableComplete | screens/BenchmarkScreen.js:16-97 | every test has a row for each gender and band the filters offer |
| Benchmarks.RowsOrdered | screens/BenchmarkScreen.js:16-97 | each row is strictly descending for higher-is-better tests and strictly ascending otherwise |
| Benchmarks.CopiesAgree | screens/BenchmarkScreen.js:16-97 | the results screen's table equals this one on each of its tests, and its shuttle_run special case is exactly `!higherIsBetter` |
| Benchmarks.ColorsAgree | screens/BenchmarkScreen.js:99-104 | the four colours are those the results screen uses for the same tiers |
| Benchmarks.ValueLabel | screens/BenchmarkScreen.js:221 | the label is the value, then `+` exactly for higher-is-better (`-` otherwise), a space and the unit |
| Benchmarks.LabelAndNoteAgree | screens/BenchmarkScreen.js:258-260 | a `+` suffix goes with the "Higher scores" note and a `-` with the "Lower scores" note |
| Benchmarks.TableRow | screens/BenchmarkScreen.js:211-212 | the unguarded lookup succeeds exactly when gender and band are keys of the test's data, and otherwise throws a TypeError |
| Benchmarks.ProfileSelection | screens/BenchmarkScreen.js:122-123 | as written: a truthy profile gender is selected whatever it is; a truthy age selects the band of `parseInt(age)` |
| Benchmarks.CheckedProfileSelection | screens/BenchmarkScreen.js:122-123 | corrected: same band; the profile's gender is taken exactly when the filter offers it, otherwise the current gender stays |
| Benchmarks.OtherGenderBreaksLookup | screens/BenchmarkScreen.js:122 | as written, a stored profile with gender `other` is selected and the table lookup then throws, for every test and band |
| Benchmarks.CheckedSelectionResolves | screens/BenchmarkScreen.js:211-212 | with the corrected selection, a resolvable selection stays resolvable for every stored profile |
| Benchmarks.BenchmarkView.constructor | screens/BenchmarkScreen.js:107-110 | defaults vertical_jump, male, 18-25 with an empty profile, and that selection resolves |
| Benchmarks.BenchmarkView.LoadProfile | screens/BenchmarkScreen.js:116-128 | as written: no stored profile changes nothing; a stored one replaces the profile and sets the selection as `ProfileSelection` does |
| Benchmarks.BenchmarkView.LoadProfileChecked | screens/BenchmarkScreen.js:116-128 | corrected: the same load through `CheckedProfileSelection`, which keeps the selection resolvable |
| Benchmarks.BenchmarkView.SelectTest | screens/BenchmarkScreen.js:140-147 | choosing any test of the table keeps the table line resolvable |
| Benchmarks.BenchmarkView.SelectGender | screens/BenchmarkScreen.js:165-172 | choosing a filter gender keeps the table line resolvable |
| Benchmarks.BenchmarkView.SelectAge | screens/BenchmarkScreen.js:188-195 | choosing a filter band keeps the table line resolvable |
| Api.NewApiError | services/api.js:4-10 | the error carries the given message, status and details |
| Api.ApiErrorDefaults | services/api.js:5 | without status and details, an `ApiError` has status 0 and null details |
| Api.StripTrailingSlash | services/api.js:60 | at most one trailing slash is removed, and nothing else changes |
| Api.AnalyzeUrl | services/api.js:60 | the request URL always ends in `/analyze` |
| Api.TrailingSlashIrrelevant | services/api.js:27 | a base with one added trailing slash gives the same URL as without it |
| Api.OnlyOneSlashRemoved | services/api.js:60 | a base ending in two slashes keeps one of them |
| Api.BuildRequest | services/api.js:62-69 | the upload goes to `AnalyzeUrl(base)` as field `file` by POST; `includeTraces` is the string `'true'` exactly when the flag is set, else `'false'` |
| Api.InterpretUpload | services/api.js:78-85 | a status outside [200,300) gives `ApiError('Analysis failed', status, parsed body or null)`; success requires a parseable body, returned with `_source` set to `'api'` |
| Api.ServerErrorIsApiError | services/api.js:78-82 | status 500 gives an `ApiError` with status 500 whatever the body |
| Api.UploadResult | services/api.js:55-86 | a falsy base URL fails with `API_BASE_URL is not configured` and status 0; every success is tagged `'api'` |
| Api.ProgressCalls | services/api.js:76 | `onProgress` is called at most once, with 1, exactly when an upload was sent and answered and a callback was given |
| Api.AnalyzeVideoWithProgress | services/api.js:55-86 | no request when the base is falsy; otherwise one request, as built; the progress calls and result follow the two functions above |
| Api.FetchResult | services/api.js:22-51 | a falsy base is refused with status 0; a thrown `fetch` is rethrown; a failing status gives `ApiError('Analysis failed', status, details)`; a 2xx status with a parseable body gives that body, untagged; an unparseable one throws |
| Api.EntryPointsAgree | services/api.js:22-86 | given the same answer, `analyzeVideo` and `analyzeVideoWithProgress` fail alike with the same error, or both succeed with bodies that differ only by the `'api'` tag |
| Api.AnalyzeVideo | services/api.js:22-51 | one `fetch` to `AnalyzeUrl(base)` unless the base is falsy; the outcome is exactly `FetchResult` |
| Recording.TestDuration | screens/RecordingScreen.js:116-124 | 10 s for vertical_jump and flexibility, 20 s for push_ups and sit_ups, 15 s for any other test |
| Recording.Draw | screens/RecordingScreen.js:186-189 | `Math.floor(random * width) + low` lies in [low, low + width - 1] |
| Recording.SimulateAIAnalysis | screens/RecordingScreen.js:183-192 | the local estimate is tagged `local` and processed, keeps the test and video; the four known tests get a whole score in their range, and other ids get no score |
| Recording.NormalizeRemote | screens/RecordingScreen.js:146-158 | each field takes the response's value, or its default when the response lacks it: `||` for ids, names, timestamp, lists and source (an epoch number is never falsy, so only a missing timestamp takes the clock), `??` for confidence |
| Recording.ZeroConfidenceKept | screens/RecordingScreen.js:154 | a confidence of 0 from the service is kept, not replaced by 0.9 |
| Recording.FallbackIsLocal | screens/RecordingScreen.js:137-166 | the record is `local` exactly when the service call failed or was not configured, and then it is the local estimate; otherwise it is tagged `api` |
| Recording.RecordingSession.constructor | screens/RecordingScreen.js:24-32 | every flag starts false and every counter at 0; there is no result, error or last video yet, and nothing has been handed off or alerted |
| Recording.RecordingSession.StartCountdown | screens/RecordingScreen.js:45-48 | callable only when the Start button is shown; preparing begins with a countdown of 3 and the interval running |
| Recording.RecordingSession.StartRecording | screens/RecordingScreen.js:63-101 | without a camera, or while recording, nothing changes; otherwise one recording starts with the test's duration, and a start that throws ends it with an alert |
| Recording.RecordingSession.Tick | screens/RecordingScreen.js:49-59 | above 1 the countdown decrements; at 1 or below it reaches 0, the interval is cleared, preparing ends and recording is started |
| Recording.RecordingSession.RunCountdown | screens/RecordingScreen.js:45-60 | the countdown takes exactly three ticks, ends at 0 with the interval cleared, and starts recording once exactly when there is a camera |
| Recording.RecordingSession.StopRecording | screens/RecordingScreen.js:104-114 | with a camera, recording always ends, even if the stop fails; without one nothing changes |
| Recording.RecordingSession.SaveTestResult | screens/RecordingScreen.js:194-203 | a successful write appends exactly the record to the stored list, a missing key counting as empty; a failed write leaves storage unchanged |
| Recording.RecordingSession.SaveAndAnalyzeVideo | screens/RecordingScreen.js:127-181 | (through `Scored`) a media-library error stores and hands off nothing, and keeps the error and the last video URI, with the alert promising a retry; otherwise one record is stored and the same record is handed to Results; `lastError` is set exactly when the local estimate was used, to `API_BASE_URL not set` without a base URL and otherwise to the upload error's message or `Unknown error`; the upload progress is 1 exactly when the upload was answered, else 0 |
| Recording.RecordingSession.OnRecordingFinished | screens/RecordingScreen.js:74-88 | no video gives `No video captured` and an alert, with nothing else changed; a video leaves exactly the state `SaveAndAnalyzeVideo` states, in both of its branches; recording has ended either way |
| Recording.RecordingSession.OnRecordingError | screens/RecordingScreen.js:89-94 | recording ends; the error message, or `Recording error`, is kept and an alert is shown |
| Recording.RecordingSession.Retry | screens/RecordingScreen.js:266 | without a last video nothing changes at all; with one, the state is exactly what `SaveAndAnalyzeVideo` states for that video, in both of its branches |
| Recording.MediaLibraryFailureHidesRetry | screens/RecordingScreen.js:175-179 | as written: after a media-library failure the alert promises a retry, yet the control that retries the kept video is not shown |
| Recording.MediaLibraryFailureOffersRetry | screens/RecordingScreen.js:262-266 | corrected: after the same failure the retry is offered, and taking it scores the kept video and hands off exactly that record |
| Recording.AttemptWithUnreachableService | screens/RecordingScreen.js:127-174 | a full attempt with the service unreachable stores exactly one record, the local estimate, and hands off exactly that record |
| ResultsHistory.Insert | screens/ResultsScreen.js:341 | insertion adds exactly the one record |
| ResultsHistory.InsertKeepsOrder | screens/ResultsScreen.js:341 | inserting into a newest-first list keeps it newest first |
| ResultsHistory.TestTypes | screens/ResultsScreen.js:359 | the set holds exactly the test ids that occur in the list |
| ResultsHistory.TestTypesBound | screens/ResultsScreen.js:354-359 | "Test Types" never exceeds "Total Tests", and is at least 1 for a non-empty history |
| ResultsHistory.Summary | screens/ResultsScreen.js:354-359 | the two counts are the list's length and its number of distinct ids, the second never above the first |
| ResultsHistory.SummaryIgnoresOrder | screens/ResultsScreen.js:340-359 | any reordering of the history leaves both counts unchanged |
| ResultsHistory.ResultsView.constructor | screens/ResultsScreen.js:63-64 | the list and the profile start empty |
| ResultsHistory.ResultsView.LoadData | screens/ResultsScreen.js:72-173 | an existing key is used as stored, even an empty list; only a missing key brings in the presentation records; likewise for the profile |
| ResultsHistory.ResultsView.ClearAllResults | screens/ResultsScreen.js:214-235 | a confirmed, successful removal deletes the key and empties the list; a cancel or a failed removal leaves both unchanged |
| ResultsHistory.ResultsView.SortHistory | screens/ResultsScreen.js:340-341 | the list ends newest first and is a permutation of what it was |
| ResultsHistory.SortedSummary | screens/ResultsScreen.js:340-359 | loading then sorting the history leaves the summary counts as they were |
| Profile.Validate | screens/ProfileScreen.js:49-57 | rejects exactly when a required field is missing or empty; then rejects exactly a parsed age outside 8..35; a `NaN` age passes |
| Profile.InitialFormRejected | screens/ProfileScreen.js:18-30 | the untouched form is rejected for missing fields |
| Profile.AcceptedAgeInBand | screens/ProfileScreen.js:54 | an accepted numeric age always lies in the band `getAgeGroup` gives, never the default fallback |
| Profile.NumericAgeValidation | screens/ProfileScreen.js:54-57 | with the other required fields filled, a typed whole-number age is accepted exactly when it is in 8..35 |
| Profile.NonNumericAgeAccepted | screens/ProfileScreen.js:54 | a filled form whose age is not a number passes validation |
| Profile.ProfileEditor.constructor | screens/ProfileScreen.js:18-30 | gender `male`, experience `beginner`, every other field empty |
| Profile.ProfileEditor.LoadProfile | screens/ProfileScreen.js:36-45 | a stored profile replaces the form; without one the form is unchanged |
| Profile.ProfileEditor.UpdateField | screens/ProfileScreen.js:70-72 | the edited field takes the value; every other field keeps its value and no other key appears |
| Profile.ProfileEditor.SaveProfile | screens/ProfileScreen.js:47-68 | a rejected form writes nothing and alerts why; an accepted one writes the whole form, then the name; a failing write stops there with an error alert |
| Profile.TypeAgeAndSave | screens/ProfileScreen.js:47-68 | typing an age in 18..25 into a form whose other required fields are filled, then saving, is accepted and stores the form, whose age maps to band 18-25 |
| Backend.DistanceAttempts | backend/main.py:62 | three attempts, the score among them and none above it |
| Backend.Fallback | backend/main.py:56-113 | whole scores in 30-44, 20-39, 25-44 and 10-17; rep tests have the single attempt `[score]`; confidences 0.85 for push-ups and 0.9 otherwise; an unknown id gets the vertical-jump fallback |
| Backend.FallbackRangeExact | backend/main.py:57-58 | every whole score in a fallback's range is the score of some file size |
| Backend.Dispatch | backend/main.py:135-161 | a known test uses its analyzer's output when one is present, otherwise its fallback |
| Backend.Analyze | backend/main.py:164-215 | status 400 exactly for ids outside the four known tests; for a known test, a raising analyzer gives 500 and otherwise the call succeeds with the dispatched result with the map's name, and defaults `[]`, 0.9 and `[]`; the trace gets its path only when traces are on, non-empty and written |
| Backend.RunningTestsRejected | backend/main.py:170-172 | shuttle_run and endurance_run, offered by the app, are rejected with 400 |
| Backend.FallbackResponseInRange | backend/main.py:185-214 | without a real analyzer every accepted request is scored within its fallback range, with confidence between 0.85 and 0.9 |
| Backend.TracePathShape | backend/main.py:192-193 | a trace path is `traces/`, the test id, and ends in `.json` |
| Backend.Merge | backend/main.py:242-245 | supplied keys take the new value; every other key keeps its old value; no key is lost |
| Backend.Config.constructor | backend/main.py:40-45 | traces off; push-up thresholds 90/160 and sit-up thresholds 60/100 |
| Backend.Config.Snapshot | backend/main.py:227-229 | the snapshot is the current configuration |
| Backend.Config.UpdateConfig | backend/main.py:238-246 | only the parts present change; threshold dictionaries are merged key-wise; the new configuration is returned |
| Backend.PartialConfigUpdate | backend/main.py:242-243 | updating only the push-up `down_thresh` keeps `up_thresh`, the sit-up thresholds and the trace flag |
| RepCounter.Step | backend/analysis/sit_ups.py:37-41 | a low angle arms, a high angle while armed counts one rep and disarms; an angle between the thresholds changes nothing; reps grow by at most 1 |
| RepCounter.RunBound | backend/analysis/sit_ups.py:37-41 | twice the reps, plus 1 while armed, never exceeds the number of frames, so reps ≤ ⌊frames/2⌋ |
| RepCounter.RunMonotone | backend/analysis/push_ups.py:38-42 | reps never decrease as frames arrive, and grow by at most one per frame |
| RepCounter.NoHighNoRep | backend/analysis/sit_ups.py:39-41 | without a frame above the high threshold no rep is counted |
| RepCounter.AlternatingCountsEveryPair | backend/analysis/sit_ups.py:37-41 | the bound is tight: alternating clear low and high frames count one rep per pair |
| RepCounter.Clip | backend/analysis/sit_ups.py:43 | the confidence lies in [0,1] and equals the mean when the mean already does |
| SitUps.AnalyzeSitUps | backend/analysis/sit_ups.py:11-54 | `None` exactly without MediaPipe or frames; otherwise score = attempts[0] = the counter's reps at thresholds 60/100, unit `repetitions`, confidence the clipped mean |
| PushUps.AnalyzePushUps | backend/analysis/push_ups.py:12-55 | `None` exactly without MediaPipe or frames; otherwise score = attempts[0] = the counter's reps at thresholds 90/160, unit `repetitions`, confidence the clipped mean |

## Left out

- Platform and foreign calls are parameters rather than code. These are
  AsyncStorage failures, expo-file-system `uploadAsync`, `fetch`, the
  camera, the media library and `JSON.parse`. JSON text is represented by
  the typed records it parses to.
- Timers are left out. `setInterval` and `setTimeout` become discrete
  steps: the 2-second waits before the local estimate and before
  navigation happen at once.
- React re-rendering and stale closures are not modelled. `StartCountdown`
  requires the visibility condition of the Start button, so the closure's
  stale `isRecording` is always false, as in the model.
- Recording.RecordingSession.Retry: on screen the button exists only
  while `RetryShown` holds, an analysis in flight with an error. Scoring is
  one atomic step here, so that moment is never a state of the model and
  the condition is not a precondition.
- Backend.Analyze: a real analyzer's output always has a score and a
  unit here. A dict lacking either, and a response that fails the
  `AnalysisResponse` validation, which the service also answers with 500,
  are not modelled.
- Timestamps are whole numbers. ISO-8601 formatting and parsing, and
  `toLocaleDateString`, are left out. The app sorts by
  `new Date(timestamp)`, which is `NaN` for unparsable text; that case is
  not modelled.
- A score may be a string or a number in the app and the service. Here it
  is always a number, and `parseFloat` of a non-numeric score is a `NaN`
  argument to the rating.
- JsValues.ParseInt handles decimal text only. Hexadecimal `0x`
  prefixes are not modelled.
- ResultsHistory.ResultsView.SortHistory: the list is sorted newest first
  and keeps the same records. The model does not state that the
  JavaScript sort is stable for equal timestamps.
- The average-confidence percentage of the summary is not modelled. It is
  floating point, and it is `NaN` when a record lacks a confidence.
- The demo records and profile that the results screen shows when storage
  is empty are a parameter of `LoadData`, not a constant.
- SitUps.AnalyzeSitUps and PushUps.AnalyzePushUps: the confidence is
  stated before `round(conf, 2)`. Python's float rounding is not modelled,
  and the rounded value stays in [0,1].
- The pose estimator is not modelled: `run_pose_on_video`, the landmark
  indices and the `angle` trigonometry. The counters take the left and
  right joint angles of each frame as input.
- backend/analysis/vertical_jump.py and backend/analysis/flexibility.py
  are floating-point geometry over landmarks, and they are not part of
  this model. Their output is the optional analyzer output that
  `Backend.Dispatch` receives.
- The scoring service's other I/O is left out: `time.sleep`, the
  temporary file, and the trace file itself. Only the trace path and
  whether the write succeeded are kept.
- Navigation (App.js), the home menu, the test catalogue and all
  rendering are left out; only the text of shown alerts is kept.

## Findings

| source | as written | input that shows it | evidently intended | confidence | as-written member | corrected member |
|---|---|---|---|---|---|---|
| screens/RecordingScreen.js:175-179 | a media-library failure ends the analysis and alerts "Failed to analyze video. You can retry." | any video whose registration with the media library throws: `isAnalyzing` is then false, and the only Retry control (screens/RecordingScreen.js:256-270) is drawn inside `isAnalyzing && (…)`, so no retry of the kept video is reachable (a new recording is still possible when no result is shown) | offer the retry the alert announces while the error and the video are kept | not executed | Recording.MediaLibraryFailureHidesRetry | Recording.MediaLibraryFailureOffersRetry |
| screens/BenchmarkScreen.js:122 | `loadProfile` selects the stored profile's gender whenever it is truthy | a profile saved with gender `other`, which the profile form offers (screens/ProfileScreen.js:146); the table has only `male` and `female`, so `testData.data['other'][selectedAge]` throws a TypeError at screens/BenchmarkScreen.js:212 | take the profile's gender only when the table has data for it | not executed | Benchmarks.OtherGenderBreaksLookup | Benchmarks.CheckedSelectionResolves |
