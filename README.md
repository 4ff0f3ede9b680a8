# Chemical Equipment Parameter Visualizer — a Dafny model

The system is a web application for chemical-plant equipment data. A signed-in user uploads a
CSV file with one row per piece of equipment: name, type, flowrate, pressure and temperature.
A Django REST backend stores the upload as a session. The session holds the row count, the
column means and the number of rows of each type, and it owns one record per row. The backend
returns the five most recent sessions of the user. A React client handles a token-based auth
session, the sign-up / login / password-reset form and the upload box. It also shows the
history list with a selected session, and pie and bar charts of the per-type distribution,
all under a light/dark theme provider.

The model has one module per core source file, plus three shared modules:

| module | models |
|---|---|
| `Wrappers` | optional values, network replies (`Ok`/`NotOk`/`Thrown`), outcomes of operations that may throw, the or-fallback on strings |
| `Sequences` | `filter`, `order_by('-key')` as a stable sort, the slice `[:n]` |
| `AuthHook` | hooks/use-auth.ts: the auth session state machine; class `Auth` |
| `AuthForm` | components/auth-form.tsx: the form's handlers; class `Form` |
| `UploadSection` | components/upload-section.tsx: the `.csv` gate, upload and drag state; class `Uploader` |
| `HistoryPanel` | components/enhanced-history-panel.tsx: history fetch and selection; class `Panel` |
| `ThemeProvider` | providers/theme-provider.tsx: theme initialisation, toggle, context; class `Provider` |
| `PieGeometry` | the pie rule shared by both chart components, in exact rationals |
| `EnhancedCharts` | components/enhanced-charts.tsx: six-colour pie, legend, bar widths |
| `VisualizationCharts` | components/visualization-charts.tsx: five-colour pie and legend |
| `Models` | backend/api/models.py: records, defaults, ordering, string forms, cascades |
| `Serializers` | backend/api/serializers.py: JSON projections |
| `Views` | backend/api/views.py: history, `upload_csv`, `register`; class `Store` (the database) |

Every network reply, stored value, clock reading, colour-scheme preference and database failure
is a parameter. Each asynchronous operation therefore becomes one deterministic transition.
State that the source changes in place is modelled as a class: the hooks' and components'
state variables, browser storage as a `map` field, and the database tables as `seq` fields.
Each method is proved equal to a pure step function, and the properties are lemmas or
`ensures` about those functions.

Where the code and the obvious reading of the system differ, the model follows the code:

- A failed token verification clears the token and `isAuthenticated` but keeps `user`
  (hooks/use-auth.ts:41-50).
- A successful login whose profile fetch fails keeps the stored token and leaves
  `isAuthenticated` as it was (hooks/use-auth.ts:70-85).
- The pie is drawn whenever the distribution has entries, even when every count is zero. The
  percentages are then NaN and the angles are undefined. The angle functions require a
  positive total (components/enhanced-charts.tsx:49).
- `register` is guarded by the viewset's `IsAuthenticated` permission, so anonymous sign-up is
  refused (see Findings).
- `upload_csv` is not atomic. A record write that fails part-way leaves the session and the
  earlier records in place, and the response is a 400 (backend/api/views.py:52-66).

## Model

| member | source | states |
|---|---|---|
| Wrappers.OrElse | hooks/use-auth.ts:87 | JavaScript's or-fallback on strings: `s` when non-empty, otherwise the fallback, and never empty when the fallback is not |
| AuthHook.Initial | hooks/use-auth.ts:12-15 | initial state: no user, no token, loading, not authenticated, storage untouched; the session invariant holds |
| AuthHook.StoredToken | hooks/use-auth.ts:19-20 | the stored `auth_token` is adopted exactly when present and non-empty |
| AuthHook.VerifyStep | hooks/use-auth.ts:29-54 | ok reply: user set, authenticated, token and storage kept; otherwise token removed from memory and storage, not authenticated, user kept, other keys kept; loading false on every path |
| AuthHook.MountStep | hooks/use-auth.ts:18-27 | no stored token: only loading becomes false; a stored token is adopted: an ok reply sets user and flag and keeps storage, otherwise the key is removed, token and flag cleared, user and other keys kept; loading false |
| AuthHook.LoginThrown | hooks/use-auth.ts:86-88 | the rethrown message is the caught one, or "Login failed" when empty |
| AuthHook.LoginStep | hooks/use-auth.ts:56-89 | non-ok credentials throw "Invalid credentials" and change nothing; ok stores the token in storage and state first, other storage keys unchanged; authenticated (with the profile as user) only for an ok profile, otherwise user and flag unchanged |
| AuthHook.LogoutStep | hooks/use-auth.ts:112-117 | token, user and flag cleared and the key removed from storage; loading untouched |
| AuthHook.RegisterOutcome | hooks/use-auth.ts:91-110 | resolves iff the reply is ok; non-ok throws the body's `error` or "Registration failed"; a thrown message falls back likewise |
| AuthHook.PasswordResetOutcome | hooks/use-auth.ts:119-137 | resolves iff ok; non-ok throws "Password reset request failed"; a thrown message falls back to "Failed to request password reset" |
| AuthHook.ConsistentPreserved | hooks/use-auth.ts:18-117 | mount, login and logout keep the invariant "authenticated implies user and token, and the in-memory token is the stored one" |
| AuthHook.VerifyConsistent | hooks/use-auth.ts:29-54 | verifying the current token keeps the invariant |
| AuthHook.LogoutIdempotent | hooks/use-auth.ts:112-117 | logging out twice equals logging out once |
| AuthHook.RejectedLoginStaysAnonymous | hooks/use-auth.ts:56-68 | from an anonymous start a rejected login leaves no token, nothing stored and throws "Invalid credentials" |
| AuthHook.TokenSurvivesRestart | hooks/use-auth.ts:18-71 | after a login with a non-empty token a fresh mount on the same storage adopts that token; it survives exactly when verification is ok |
| AuthHook.LogoutSurvivesRestart | hooks/use-auth.ts:112-117 | after logout a fresh mount comes up anonymous without a request |
| AuthHook.Auth.constructor | hooks/use-auth.ts:12-15 | the hook's initial state over the given storage |
| AuthHook.Auth.Mount | hooks/use-auth.ts:18-27 | the new state is `MountStep` of the old; verification runs iff a token was stored |
| AuthHook.Auth.VerifyToken | hooks/use-auth.ts:29-54 | the new state is `VerifyStep` of the old |
| AuthHook.Auth.Login | hooks/use-auth.ts:56-89 | new state and outcome are `LoginStep` of the old state |
| AuthHook.Auth.Register | hooks/use-auth.ts:91-110 | changes no state; the outcome is `RegisterOutcome` |
| AuthHook.Auth.Logout | hooks/use-auth.ts:112-117 | the new state is `LogoutStep` of the old |
| AuthHook.Auth.RequestPasswordReset | hooks/use-auth.ts:119-137 | changes no state; the outcome is `PasswordResetOutcome` |
| AuthForm.Utf16Length | components/auth-form.tsx:32 | `password.length`: the number of UTF-16 code units; its bounds and the emoji case are stated by `Utf16LengthBounds` and `AstralPasswordIsLongEnough` |
| AuthForm.Utf16LengthBounds | components/auth-form.tsx:32 | the code-unit length lies between the number of characters and twice that, with equality iff no character is above U+FFFF |
| AuthForm.AstralPasswordIsLongEnough | components/auth-form.tsx:29-34 | four emoji count as 8 code units, so a matching pair of them passes both client checks |
| AuthForm.SignUpError | components/auth-form.tsx:29-34 | no error iff passwords match and are at least 8 UTF-16 code units long (`Utf16Length`, as JavaScript's `length`); a mismatch is reported before the length |
| AuthForm.ShownError | components/auth-form.tsx:39 | the thrown message, or "Authentication failed" when empty |
| AuthForm.Begin | components/auth-form.tsx:21-23 | error and success cleared, loading set, nothing else changed |
| AuthForm.SubmitAttempt | components/auth-form.tsx:25-37 | login mode calls only login; sign-up with a client error calls nothing; a valid sign-up calls register, then (if it resolved) login with the same credentials; the thrown message is the first failure's |
| AuthForm.SubmitStep | components/auth-form.tsx:19-43 | loading released, success empty, error the shown message of the attempt (empty if none), all other fields unchanged, calls as in the attempt |
| AuthForm.ForgotPasswordStep | components/auth-form.tsx:45-64 | success shows the confirmation and clears the email; failure shows the message or "Failed to request password reset"; loading released |
| AuthForm.ResetTimerStep | components/auth-form.tsx:55-58 | the timer hides the reset view and clears the success text, nothing else |
| AuthForm.ToggleModeStep | components/auth-form.tsx:191-197 | mode flipped; messages and both passwords cleared; username and email kept |
| AuthForm.BackToLoginStep | components/auth-form.tsx:107-111 | reset view hidden and messages cleared, nothing else |
| AuthForm.MismatchCheckedFirst | components/auth-form.tsx:29-34 | a mismatched short password shows "Passwords do not match" and calls nothing |
| AuthForm.ValidSignUpRegistersThenLogsIn | components/auth-form.tsx:35-36 | a valid sign-up with a successful registration calls register and then login with the same username and password |
| AuthForm.ToggleTwice | components/auth-form.tsx:191-197 | toggling twice restores the mode and keeps username and email; passwords stay cleared |
| AuthForm.SubmitReleasesLoading | components/auth-form.tsx:23-63 | both handlers set loading first and release it on every path |
| AuthForm.Form.constructor | components/auth-form.tsx:8-16 | login mode, reset view hidden, all fields empty, not loading |
| AuthForm.Form.HandleSubmit | components/auth-form.tsx:19-43 | new state and calls are `SubmitStep` of the old state |
| AuthForm.Form.HandleForgotPassword | components/auth-form.tsx:45-64 | new state is `ForgotPasswordStep`; the reset is requested for the email as it was |
| AuthForm.Form.ResetTimerFires | components/auth-form.tsx:55-58 | new state is `ResetTimerStep` of the old |
| AuthForm.Form.ToggleMode | components/auth-form.tsx:191-197 | new state is `ToggleModeStep` of the old |
| AuthForm.Form.BackToLogin | components/auth-form.tsx:107-111 | new state is `BackToLoginStep` of the old |
| AuthForm.Form.ShowForgotPassword | components/auth-form.tsx:208 | only the reset view flag is set |
| UploadSection.EndsWithAppended | components/upload-section.tsx:39 | every name ending in the suffix passes the gate |
| UploadSection.EndsWithSplits | components/upload-section.tsx:39 | a passing name is a prefix followed by ".csv" |
| UploadSection.CsvGateExamples | components/upload-section.tsx:39 | the gate is case-sensitive: "data.CSV", "data.txt" and "csv" are rejected |
| UploadSection.Pending | components/upload-section.tsx:44-45 | loading set and error cleared before the request |
| UploadSection.UploadStep | components/upload-section.tsx:38-70 | a non-.csv name sets "Please upload a CSV file" and makes no request; otherwise the request is made, loading ends false, success delivers the data exactly once, non-ok shows "Upload failed", a throw shows its message or "Failed to upload file" |
| UploadSection.DragStep | components/upload-section.tsx:19-27 | enter/over raise the drag flag, leave lowers it, other events change nothing |
| UploadSection.DropStep | components/upload-section.tsx:29-36 | the flag is lowered and only the first dropped file, if any, is uploaded |
| UploadSection.InputChangeStep | components/upload-section.tsx:86 | the first selected file is uploaded; none selected changes nothing |
| UploadSection.GateBeforeLoading | components/upload-section.tsx:39-69 | a rejected name leaves loading as it was and delivers nothing; an accepted attempt ends with loading released |
| UploadSection.DragSequence | components/upload-section.tsx:22-32 | enter then over leaves the flag up; enter then leave, or a drop, leaves it down |
| UploadSection.Uploader.constructor | components/upload-section.tsx:14-16 | not loading, no error, no drag |
| UploadSection.Uploader.UploadFile | components/upload-section.tsx:38-70 | new state, request flag and delivered value are `UploadStep` of the old state |
| UploadSection.Uploader.HandleDrag | components/upload-section.tsx:19-27 | new state is `DragStep` of the old |
| UploadSection.Uploader.HandleDrop | components/upload-section.tsx:29-36 | new state and attempt are `DropStep` of the old |
| UploadSection.Uploader.HandleInputChange | components/upload-section.tsx:86 | new state and attempt are `InputChangeStep` of the old |
| HistoryPanel.Find | components/enhanced-history-panel.tsx:45 | a session is found iff one has the id, and it is the first with that id |
| HistoryPanel.FetchStep | components/enhanced-history-panel.tsx:21-43 | no token: nothing happens and no request; ok replaces the list and selects the first id when non-empty (else keeps the selection); other replies keep list and selection; loading false after any request |
| HistoryPanel.ClickStep | components/enhanced-history-panel.tsx:62-65 | the clicked id is selected; list and loading unchanged |
| HistoryPanel.ClickShowsReport | components/enhanced-history-panel.tsx:62-81 | after a click the report is shown for a session with that id, and with unique ids for the clicked session |
| HistoryPanel.FetchSelectsFirst | components/enhanced-history-panel.tsx:31-45 | a non-empty ok fetch shows the report for the first session |
| HistoryPanel.Panel.constructor | components/enhanced-history-panel.tsx:13-15 | empty list, loading, nothing selected, no earlier render |
| HistoryPanel.Panel.FetchHistory | components/enhanced-history-panel.tsx:21-43 | new state and request flag are `FetchStep` of the old state |
| HistoryPanel.Panel.Render | components/enhanced-history-panel.tsx:17-19 | the effect fetches on the first render and whenever the token changed, and otherwise changes nothing |
| HistoryPanel.Panel.Click | components/enhanced-history-panel.tsx:62-65 | new state is `ClickStep`; the clicked session is passed on |
| HistoryPanel.Panel.SelectedSession | components/enhanced-history-panel.tsx:45 | a listed session with the selected id, or none when nothing has that id |
| ThemeProvider.DefaultTheme.Name | providers/theme-provider.tsx:8 | the default is one of "light", "dark", "system" |
| ThemeProvider.InitialTheme | providers/theme-provider.tsx:25-30 | stored theme if truthy, else the default; "system" resolves to the preference when enabled and stays "system" exactly when resolution is off |
| ThemeProvider.ApplyTheme | providers/theme-provider.tsx:36-41 | with the class attribute the root is dark iff the theme is "dark"; with data-theme nothing changes |
| ThemeProvider.Toggled | providers/theme-provider.tsx:46 | "dark" becomes "light", anything else "dark" |
| ThemeProvider.Stored | providers/theme-provider.tsx:25 | the stored value iff the "theme" key is present |
| ThemeProvider.MountStep | providers/theme-provider.tsx:21-34 | mounted, theme set to the initial theme, storage kept, root updated by `ApplyTheme` |
| ThemeProvider.ToggleStep | providers/theme-provider.tsx:43-50 | no-op without a theme; otherwise flips, persists under "theme" and applies |
| ThemeProvider.ContextOf | providers/theme-provider.tsx:52-65 | before mount consumers see the default (null theme, inert toggle); after mount the provider's theme and toggle |
| ThemeProvider.ConsumerToggleStep | providers/theme-provider.tsx:56-64 | a consumer's toggle is inert before mount and is `toggleTheme` after |
| ThemeProvider.UseContext | providers/theme-provider.tsx:59-68 | `useContext` always yields a value: the provider's or the default |
| ThemeProvider.UseTheme | providers/theme-provider.tsx:67-73 | throws exactly when the context is missing |
| ThemeProvider.UseThemeNeverThrows | providers/theme-provider.tsx:59-72 | the throw is unreachable, inside or outside a provider |
| ThemeProvider.ToggleTwice | providers/theme-provider.tsx:43-50 | toggling a light or dark theme twice restores it, persisted and applied |
| ThemeProvider.ToggleFromOther | providers/theme-provider.tsx:46 | an unresolved value toggles to "dark" |
| ThemeProvider.ToggleSurvivesRestart | providers/theme-provider.tsx:25-48 | a toggled theme is read back by the next mount whatever the preference |
| ThemeProvider.UnresolvedSystem | providers/theme-provider.tsx:26-32 | without system resolution and nothing stored the theme is "system", and the class root is not dark |
| ThemeProvider.RootMirrorsPreserved | providers/theme-provider.tsx:33-49 | mount, toggle and consumer toggle keep "root dark iff theme dark" under the class attribute |
| ThemeProvider.Provider.constructor | providers/theme-provider.tsx:12-19 | props fixed, not mounted, no theme |
| ThemeProvider.Provider.Mount | providers/theme-provider.tsx:21-34 | new state is `MountStep` of the old |
| ThemeProvider.Provider.Apply | providers/theme-provider.tsx:36-41 | only the root flag changes, to `ApplyTheme` |
| ThemeProvider.Provider.Toggle | providers/theme-provider.tsx:43-50 | new state is `ToggleStep` of the old |
| ThemeProvider.Provider.ConsumerToggle | providers/theme-provider.tsx:56-64 | new state is `ConsumerToggleStep` of the old |
| PieGeometry.Percent | components/enhanced-charts.tsx:23 | count/total·100 for a positive total; NaN for a zero total, where the chart's counts are all zero (0/0, by `TotalBounds`) |
| PieGeometry.ChartData | components/enhanced-charts.tsx:19-25 | one item per entry in order, keeping type and count, with its percentage |
| PieGeometry.LargeArc | components/enhanced-charts.tsx:56 | the flag is 1 iff the span exceeds 180 degrees, else 0 |
| PieGeometry.Slices | components/enhanced-charts.tsx:51-62 | one slice per entry; colour `palette[idx % length]`; start is the cumulative sweep, end is start plus own sweep; large-arc as above |
| PieGeometry.Pie | components/enhanced-charts.tsx:49 | slices drawn iff chartData is non-empty |
| PieGeometry.Total | components/enhanced-charts.tsx:17 | the `reduce` sum of the counts; its bounds are stated by `TotalBounds` |
| PieGeometry.StartAngle | components/enhanced-charts.tsx:52 | the sum of the earlier sweeps; its closed form is stated by `StartAngleIsShare` and its range by `SliceWithinCircle` |
| PieGeometry.EndAngle | components/enhanced-charts.tsx:53 | the start angle plus the item's sweep; tiling is stated by `SlicesTile` |
| PieGeometry.TotalBounds | components/enhanced-charts.tsx:17 | no count exceeds the total; the total is zero iff every count is |
| PieGeometry.StartAngleIsShare | components/enhanced-charts.tsx:52 | the start angle is the share of the earlier counts times 360 |
| PieGeometry.SlicesTile | components/enhanced-charts.tsx:52-53 | the slices tile [0, 360]: first starts at 0, each ends where the next starts, sweeps are non-negative, last ends at 360 |
| PieGeometry.PieTiles | components/enhanced-charts.tsx:49-62 | the drawn pie has one slice per entry, cycling the palette, tiling [0, 360] |
| PieGeometry.SliceWithinCircle | components/enhanced-charts.tsx:52-53 | each slice lies within [0, 360] and ends where the next starts |
| PieGeometry.PrefixTotalBound | components/enhanced-charts.tsx:17-52 | a prefix totals no more than the whole |
| PieGeometry.PercentagesFinite | components/enhanced-charts.tsx:23 | with a positive total every percentage is a number |
| PieGeometry.PercentagesSumTo100 | components/enhanced-charts.tsx:23 | with a positive total the unformatted percentages sum to exactly 100 |
| PieGeometry.PercentPrefix | components/enhanced-charts.tsx:23 | the percentages of a prefix sum to the prefix's share times 100 |
| PieGeometry.ZeroTotalStillDrawn | components/enhanced-charts.tsx:23-49 | a one-entry distribution with count 0 is drawn although its percentage is NaN |
| PieGeometry.SingleCategoryIsFullCircle | components/enhanced-charts.tsx:52-56 | a single positive category spans 0 to 360 with the large-arc flag set |
| EnhancedCharts.Distribution | components/enhanced-charts.tsx:16 | a missing distribution is empty |
| EnhancedCharts.Legend | components/enhanced-charts.tsx:16-25 | one item per entry in order with type and count; with a positive total the percentages are numbers summing to 100 |
| EnhancedCharts.PieSlices | components/enhanced-charts.tsx:27-62 | one slice per entry coloured `colors[idx % 6]`, large-arc iff span > 180, tiling [0, 360] |
| EnhancedCharts.MaxValue | components/enhanced-charts.tsx:38 | the maximum: no bar exceeds it and some bar attains it |
| EnhancedCharts.BarWidth | components/enhanced-charts.tsx:105 | `value / maxValue * 100`; its range is stated by `RatioBounds` and `BarWidthsBounded` |
| EnhancedCharts.BarWidthsBounded | components/enhanced-charts.tsx:96-106 | with positive values every width lies in (0, 100], and a width is 100 iff the bar is the maximum |
| EnhancedCharts.RatioBounds | components/enhanced-charts.tsx:105 | a positive value at most the maximum gives a width in (0, 100], 100 exactly at the maximum |
| EnhancedCharts.TrendBars | components/enhanced-charts.tsx:30-38 | the trend list's maximum is 95, "Max" is full width and "Min" is 20/95 of it |
| VisualizationCharts.Legend | components/visualization-charts.tsx:12-21 | one item per entry in order; a missing distribution is empty; percentages sum to 100 with a positive total |
| VisualizationCharts.PieSlices | components/visualization-charts.tsx:23-47 | one slice per entry coloured `colors[idx % 5]`, large-arc iff span > 180, every angle within [0, 360], tiling [0, 360] |
| VisualizationCharts.CumulativeAngles | components/visualization-charts.tsx:36-37 | slice i starts at the earlier categories' share times 360 and ends at start plus its own share times 360 |
| VisualizationCharts.ThreeToOne | components/visualization-charts.tsx:19-40 | a 3:1 distribution draws 0–270 (large arc) and 270–360, with percentages 75 and 25 |
| Sequences.Filter | backend/api/views.py:16 | keeps exactly the elements satisfying the predicate, with their multiplicities |
| Sequences.Insert | backend/api/views.py:16 | inserting into a descending list keeps it descending and adds the element |
| Sequences.SortDescending | backend/api/models.py:15-16 | result is descending by key and a permutation of the input |
| Sequences.Take | backend/api/views.py:16 | the first `min(n, length)` elements |
| Sequences.TakeDescending | backend/api/views.py:16 | a prefix of a descending list is descending and leaves out nothing larger than its last element |
| Models.NewUploadSession | backend/api/models.py:5-13 | a new session has count 0, averages 0 and an empty distribution |
| Models.DefaultOrder | backend/api/models.py:15-16 | the default ordering is newest first and a permutation |
| Models.SessionString | backend/api/models.py:18-19 | "file_name - created_at", with the time in Python's `str(datetime)` rendering |
| Models.ItemString | backend/api/models.py:29-30 | "name (equipment_type)" |
| Models.SessionStringInjective | backend/api/models.py:18-19 | for equal-length names the string form determines the name and the `str(datetime)` text |
| Models.DeleteUser | backend/api/models.py:6-22 | deleting a user removes exactly their sessions and those sessions' records |
| Models.DeleteSession | backend/api/models.py:22 | deleting a session removes exactly its records; users untouched |
| Models.DeleteUserKeepsLinked | backend/api/models.py:6-22 | after a user's deletion every foreign key still resolves |
| Models.DeleteSessionKeepsLinked | backend/api/models.py:22 | after a session's deletion every foreign key still resolves |
| Serializers.UserJson | backend/api/serializers.py:5-8 | exactly id, username, email with the user's values; never the password |
| Serializers.ItemJson | backend/api/serializers.py:10-13 | exactly the six listed fields with the record's values; never the session link |
| Serializers.DistributionJson | backend/api/serializers.py:21 | an object with the distribution's keys and counts in order |
| Serializers.ItemsOf | backend/api/models.py:22 | the related manager: all and only the records of the session |
| Serializers.SessionJson | backend/api/serializers.py:15-21 | `UploadSessionSerializer(session).data`; its fields and values are stated by `SessionJsonFields` |
| Serializers.SessionJsonFields | backend/api/serializers.py:15-21 | the nine fields in order with their values: id, `created_at` in its ISO 8601 rendering, file name, count, the three means, the distribution; never the user; the nested items are exactly the session's records |
| Serializers.SessionInput | backend/api/serializers.py:16-21 | input can set only the writable fields, never `equipment_items`, `id` or `created_at` |
| Views.ErrorResponse | backend/api/views.py:20-21 | a 400 whose body is `{"error": message}` |
| Views.OwnedBy | backend/api/views.py:16 | exactly the user's sessions |
| Views.History | backend/api/views.py:15-16 | `get_queryset`: owned, ordered by `-created_at`, sliced to five; stated by `HistoryIsLatestFive` |
| Views.HistoryIsLatestFive | backend/api/views.py:15-16 | only the user's sessions, newest first, min(5, owned); anything left out is no newer than the last entry |
| Views.HistoryReply | backend/api/views.py:68-72 | anonymous callers get 401; otherwise 200 with each history session serialized in order |
| Views.ValueOf | backend/api/views.py:38 | the count under a key, 0 when absent |
| Views.Tally | backend/api/views.py:38 | one entry per distinct type, each holding its number of rows; counts sum to the row count |
| Views.Distribution | backend/api/views.py:38 | `value_counts().to_dict()`: the tally sorted by count, largest first; stated by `DistributionIsValueCounts` |
| Views.DistributionIsValueCounts | backend/api/views.py:34-38 | the distribution has exactly the row types as keys, each with its row count, largest first, summing to `total_count` |
| Views.HasColumns | backend/api/views.py:28-31 | every required column is present; when not, `UploadStep` answers 400 with `MissingColumns`, the list as Python prints it |
| Views.NewSession | backend/api/views.py:34-49 | the created session: next id, the caller, the upload's name, count = rows, distribution of the types |
| Views.ItemsFor | backend/api/views.py:52-60 | one record per row, in order, consecutive ids, all linked to the session |
| Views.Inserted | backend/api/views.py:52-66 | the loop stops before the failing row, otherwise covers every row |
| Views.AcceptedDb | backend/api/views.py:41-60 | the session and the first n records are appended; the counters advance |
| Views.UploadStep | backend/api/views.py:18-66 | anonymous 401, no file 400 "No file provided", a read error 400 with its message, missing columns 400 naming them, all without writes; otherwise session then records, 201 with the serialized session, or 400 with the exception's message when the session write or a record write fails |
| Views.AcceptStep | backend/api/views.py:40-63 | the accepted upload's database and response |
| Views.UploadCreatesOneRecordPerRow | backend/api/views.py:34-63 | a clean upload returns 201, adds one session with count = rows and distribution summing to it, and exactly one linked record per row; the database stays linked |
| Views.AcceptedDbFresh | backend/api/views.py:41-60 | after an accepted upload the session's records are exactly the new ones and ids stay unused |
| Views.AcceptedDbOwnItems | backend/api/views.py:52-60 | the new session's records are the ones written for its rows |
| Views.AcceptedDbIds | backend/api/views.py:41-60 | the id counters stay ahead of every id in use |
| Views.AcceptedDbLinked | backend/api/views.py:41-60 | every foreign key resolves after the writes |
| Views.UploadFailureKeepsEarlierRows | backend/api/views.py:52-66 | a failing record write answers 400 but keeps the session and the records of the earlier rows |
| Views.Lookup | backend/api/views.py:81-83 | `request.data.get`: the value iff the key is present |
| Views.RegisterBody | backend/api/views.py:81-94 | missing or empty credentials 400 first; an existing username 400 with the table unchanged; otherwise one user appended, email defaulting to "", 201 with id and username |
| Views.RegisterReply | backend/api/views.py:77-94 | as written: anonymous callers get 401 before the body runs |
| Views.OpenRegisterReply | backend/api/views.py:79-94 | as intended: the body for every caller |
| Views.CredentialsCheckedFirst | backend/api/views.py:85-91 | a missing password is reported even when the username is taken |
| Views.RegisterKeepsUsernamesUnique | backend/api/views.py:85-94 | usernames stay unique; 201 iff credentials present and username new, adding exactly one user; otherwise nothing changes |
| Views.AnonymousSignUpRejected | backend/api/views.py:77-80 | a fresh username and password without credentials get 401 and nothing is stored |
| Views.AnonymousSignUpAccepted | backend/api/views.py:79-94 | with registration open the same request succeeds and adds that user |
| Views.AsReply | hooks/use-auth.ts:101-103 | a 2xx response is an ok reply with its body |
| Views.BrowserSignUpFails | hooks/use-auth.ts:101-103 | the browser's sign-up against the refusing view ends in "Registration failed" |
| Views.Store.constructor | backend/api/models.py:5-27 | an empty database with ids starting at 1 |
| Views.Store.UploadCsv | backend/api/views.py:18-66 | new database and response are `UploadStep` of the old database |
| Views.Store.Accept | backend/api/views.py:40-63 | new database and response are `AcceptStep` of the old database |
| Views.Store.InsertRows | backend/api/views.py:52-60 | the loop appends one record per row up to the stop, advancing the id counter, and nothing else |
| Views.Store.Register | backend/api/views.py:79-94 | new database and response are `OpenRegisterReply` of the old database |

## Left out

- Network, storage and browser mechanics are parameters. These are `fetch`, JSON decoding of
  replies, `localStorage`, `matchMedia`, the DOM root's class list and `console.error`.
- There is no interleaving of concurrent async calls. Each operation is one atomic transition.
- There is no floating point. Shares, angles and means are exact reals. `toFixed(1)` formatting,
  `polarToCartesian` (cos/sin) and the SVG path strings are not modelled.
- There is no CSV parsing. `pd.read_csv` and the pandas means are replaced by a `Table` that
  holds its columns, rows and means, or by the read error. NaN cells and the type conversion of
  cells are not modelled.
- Views.Distribution: `value_counts` orders by count, largest first. The order among equal
  counts is modelled as stable first-appearance order, which pandas does not promise.
- Sequences.SortDescending: sessions with equal `created_at` stay in insertion order, in
  `Models.DefaultOrder` and `Views.History` alike. Django and the database promise no order
  among equal keys for `order_by('-created_at')`, so that tie order is the model's choice.
- Views.Store.Register models the corrected view, open to anonymous callers. The as-written
  guard is `Views.RegisterReply`.
- The permission failure is modelled as 401 with DRF's "not provided" detail. Whether DRF
  answers 401 or 403 depends on authentication settings that are not part of this model.
- Password hashing by `create_user` is left out, and so are username and email normalisation.
  The stored password is the given one.
- `max_length` is declared (`Models.SessionFits`, `Models.ItemFits`) but not enforced. Whether
  an over-long value is truncated or rejected depends on the database, which is not part of
  this model.
- The related manager `equipment_items` is taken in insertion order.
- The Django ORM, DRF routing (backend/api/urls.py), the other viewset actions and
  authentication itself are left out. The caller's user id is a parameter.
- JSX rendering, CSS classes and the UI-only components are left out: chatbot, report
  generator, dashboard, theme toggle icon, metric and summary cards.
- components/history-panel.tsx is not part of this model. It is never mounted, and its
  fetch-and-store is the one modelled in `HistoryPanel`.
- scripts/setup-backend.py is not part of this model. It only prints.
- PieGeometry.Pie: requires a positive total for a non-empty distribution, and so do
  `Slices` and both `PieSlices`. A non-empty distribution whose counts are all zero is still
  drawn by components/enhanced-charts.tsx:49, but its angles are NaN. The model proves that
  such input reaches the drawing branch (`PieGeometry.ZeroTotalStillDrawn`) and gives no
  angles for it.
- PieGeometry.Percent: a zero total gives NaN whatever the count. JavaScript gives Infinity
  for a positive count over a zero total, but the chart cannot produce that case: its total is
  the sum of its counts, so a zero total means every count is zero (`PieGeometry.TotalBounds`).
- Timestamps: the text renderings of `created_at` are supplied with the instant. `strText`
  is the `str(datetime)` form used by `__str__`, and `isoText` is the ISO 8601 form of the
  serializer. Their formatting, and the agreement of both with the instant, are not modelled.
- AuthForm.ResetTimerStep: the 3-second delay itself is not modelled. The timer's effect is a
  separate step that can run at any time.

## Findings

| source | as written | input that shows it | evidently intended | confidence | as-written member | corrected member |
|---|---|---|---|---|---|---|
| backend/api/views.py:77, 79-80 | `register` inherits the viewset's `IsAuthenticated` permission, so only signed-in users can sign up | an anonymous POST with username "alice" and password "secret123" to a database without "alice" gets 401, and the sign-up form shows "Registration failed" | registration open to anonymous callers (`AllowAny` on the action) | not executed | Views.AnonymousSignUpRejected | Views.AnonymousSignUpAccepted |
