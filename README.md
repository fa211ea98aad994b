# Punch clock: a Dafny model

This project models the core of a React Native punch-clock ("pointeuse") app for employees:

- **Punch state.** The app keeps a punched-in flag, the last punch time, a pending buffer of punch records not yet uploaded, and a today list, all in the device's key-value store (AsyncStorage). Keys are namespaced `<login>_<name>`.
- **Forced punch-out.** The root component forces a punch-out (`'Out'`) when location services are off. A liveness time is stamped every ten seconds. At cold start, a user who was left punched in is recovered by an `'Out'` at the last liveness time.
- **Background sync.** A background task uploads the pending buffer. It does so at most once per window: the first run of the day, then after 09:50, then after 18:00.
- **Punch screen.** It records manual `IN` and `OUT` punches.
- **Report screen.** It pairs the server's history IN-to-OUT into worked durations per weekday, for a Monday-to-Sunday week.
- **Home screen.** It signs the user out, with an automatic `'Out'` when still punched in.
- **Smaller pieces:** the manual sync screen, a local sign-up form with an e-mail pattern, a notification list, and the animated splash screen.

Layout:

| file | module | models |
|---|---|---|
| `storage.dfy` | `Storage` | The store as a `map<Key, Value>` and the `Store` class, read and written one item at a time. `getLogin` reads the login from the stored token. |
| `clock.dfy` | `Clock` | Instants are whole seconds of local time. Defines calendar day, midnight, time of day and `getDay()`. |
| `app.dfy` | `App` | The root component: forced punch-out, the location check, the liveness tick, cold-start recovery and the two-minute foreground check. |
| `sync.dfy` | `Sync` | The sync window, the upload payload and a whole background-task run. |
| `punch.dfy` | `Punch` | The punch screen. |
| `report.dfy` | `Report` | The weekly report. |
| `home.dfy` | `Home` | The home screen: the employee-label cache and sign-out. |
| `synchro.dfy` | `Synchro` | The manual sync screen. |
| `signup.dfy` | `SignUp` | The sign-up form. |
| `notifications.dfy` | `Notifications` | The notification list. |
| `splash.dfy` | `Splash` | The splash screen's state machine. |

How the model is built:

- **Storage effects as functions.** Each storage-changing operation has a pure function from the old store to the new one. That function states the operation's effect on the named keys, plus "every other key unchanged" (`SameExcept`).
- **Source order as methods.** Each step of the source becomes a method performing the same `getItem`/`setItem`/`removeItem` calls in the same order, with the same keys, including the two key faults listed under "## Findings". Each method is proved to produce exactly that function's result. For those two faults the corrected effect is a separate function, related to the as-written one by a lemma.
- **Screens as classes.** Screens with component state are classes, and their fields are that state.
- **Outside inputs as parameters.** These are: server answers, location probes, whether a submission is accepted, the current instant, and network connectivity.

Behaviours of the code that a reader might not expect, each stated by a member:

- **Empty buffer.** The background task submits whenever a pending buffer is stored, even an empty list (`App.tsx:138`, `Sync.SyncRequest`).
- **No network.** Without network, an open window is still stamped and the buffer is kept (`App.tsx:157`, `Sync.DisconnectedTickConsumesWindow`).
- **Liveness tick.** The tick stamps whenever the stored flag is a non-empty string, including `"false"` (`App.tsx:278-279`, `App.LivenessStampsWhenPunchedOut`).
- **Manual punch.** A manual punch rewrites the pending buffer as the records on screen plus the new one, so pending records not on screen are dropped (`screens/PunchScreen.tsx:152-158`, `Punch.ManualPunchDropsOffScreenPending`).
- **Type text.** Automatic punch-outs are stored with type `'Out'` and manual ones with `'OUT'`. The report only closes an interval on `'OUT'` (`Report.ForcedOutsNeverClose`).

## Model

| member | source | states |
|---|---|---|
| Storage.KeyTextInjective | App.tsx:29-32 | A per-user key `login + "_" + name` whose item name has no `_` never shares its text with another user's key or with a global key. So keying the store by (login, name) is faithful. |
| Storage.Login | services/authenticationService.tsx:21-33 | Without a stored token the login is the text "undefined". |
| Storage.AppKeysNeverCollide | App.tsx:29-32 | For every item name the app stores, the misspelt `lastTimeDetetion` included, two keys with the same text are the same key: no login's item overwrites another login's item or a global one. |
| Storage.RecordsAt | App.tsx:55-56 | An absent item reads as the empty list. A stored list reads as itself. |
| Storage.Store.GetLogin | services/authenticationService.tsx:21-33 | Reads the token afresh and returns `Login` of the current store. |
| Clock.Midnight | screens/ReportScreen.tsx:86-87 | `setHours(0,0,0,0)` yields the start of the same calendar day, at or before the instant and less than a day before it. |
| Clock.Weekday | screens/ReportScreen.tsx:56 | `getDay()` lies in 0..6. |
| App.ForcedOutRecord | App.tsx:58-61 | An automatic punch-out record has type `'Out'`, place `'unknown'`, the given instant and no coordinates. |
| App.ForcedPunchOut | App.tsx:54-77 | Appends exactly one `'Out'` at now to the pending list (absent counts as empty). The today list becomes the same list. The flag becomes `"false"` and the punch time is that instant. No other key changes and the login is untouched. |
| App.HandlePunchOut | App.tsx:34-93 | The source's read-append-write sequence leaves the store as `ForcedPunchOut` says. |
| App.LocationCheck | App.tsx:101-122 | Only a flag of exactly `"true"` triggers the probe. A probe that answers stamps the liveness time. "Disabled" then leaves the store exactly as `ForcedPunchOut` of the stamped store (one `'Out'`, flag `"false"`, punch time now, nothing else changed). Enabled changes only the liveness key. A flag that is not `"true"`, a failing probe or a failing permission request changes nothing. |
| App.CheckLocation | App.tsx:101-122 | The step-by-step location half of the background task equals `LocationCheck`. It reports an abort exactly when the flag is `"true"` and the permission request throws. |
| App.LivenessTick | App.tsx:277-283 | A truthy flag gets the liveness time stamped. Otherwise nothing changes. No other key changes. |
| App.Liveness | App.tsx:275-286 | The interval body equals `LivenessTick`. |
| App.LivenessStampsWhenPunchedOut | App.tsx:278-279 | A stored flag `"false"` is truthy, so a punched-out user is stamped too. |
| App.InitDetectionAsWritten | App.tsx:298-302 | As written, a missing liveness time is still missing afterwards and now is stored under the misspelt key. Only that key can change. |
| App.InitDetection | App.tsx:298-302 | Corrected: a missing liveness time becomes now; a present one is left alone; nothing else changes. |
| App.MisspeltKeyLeavesDetectionAbsent | App.tsx:301 | Same input: the written code leaves `<login>_lastTimeDetection` absent, the corrected one stores it. |
| App.AppendForcedOut | App.tsx:308-329 | Appends exactly one `'Out'` at the given instant to the pending list (absent counts as empty). The flag becomes `"false"` and the punch time is that instant. No other key changes; the today list is not touched. |
| App.ColdStartAsWritten | App.tsx:293-332 | As written: when the marker is "logged in", the flag is `"true"` and a liveness time is stored, the store becomes `AppendForcedOut` at that liveness time. Otherwise only the misspelt key may change, and the liveness time stays as it was (absent stays absent). |
| App.ColdStart | App.tsx:293-332 | Corrected (liveness key spelt right): the same recovery. Otherwise only the liveness key may change, and a missing one becomes now. |
| App.ColdStartsDifferOnlyInDetection | App.tsx:298-302 | The written and the corrected cold start agree on every key except the liveness key and the misspelt one. |
| App.CheckLastLog | App.tsx:294-332 | The cold-start sequence, with its misspelt write, leaves the store as `ColdStartAsWritten` says. |
| App.AppShell.PunchOutWithCallbacks | App.tsx:34-81 | Storage as in `ForcedPunchOut`. The component's punch time becomes now, its flag becomes false, and its history becomes the new pending list. |
| App.AppShell.LocationInterval | App.tsx:230-269 | Forces a punch-out exactly when the captured punched-in state is true and permission is refused. Otherwise storage, punch time and history are unchanged and a stored `"true"` sets the component flag. A forced punch-out sets the punch time to now and the history to the new pending list. The location flag follows the permission only when the captured state is punched in. |
| App.AppShell.constructor | App.tsx:190-196 | The root component starts punched out, with no punch time, an empty history and location marked enabled. |
| Sync.OrZero | App.tsx:145-147 | A missing or zero coordinate becomes 0. Any other value is kept. |
| Sync.ToPtgBrut | App.tsx:141-149 | An upload entry carries the punch's instant and type, the defaulted coordinates, and the reason "Pointage manuel". |
| Sync.Payload | App.tsx:141-152 | One entry per pending punch, same length, entry i built from punch i. |
| Sync.SyncEligible | App.tsx:129-136 | The first run on another calendar day than the last sync is always eligible. On the same day, a stamp at or after now never leaves the window open. |
| Sync.SyncRequest | App.tsx:125-156 | A tick submits exactly when the window is open, the network is up and a buffer is stored. What it submits is the payload of that buffer. |
| Sync.AfterSync | App.tsx:136-161 | Outside the window nothing changes. An accepted submission removes the buffer and stamps now. A failed one changes nothing. No network or no buffer stamps now and keeps the buffer. |
| Sync.NotEligibleRightAfterStamp | App.tsx:136 | A stamp at now closes the window at now. |
| Sync.EligibilityPersists | App.tsx:136 | An open window stays open at every later instant until stamped. |
| Sync.EligibleWithinDayAdvances | App.tsx:132-136 | Within one day, an open window means a further checkpoint (09:50 or 18:00) has been passed since the last stamp. |
| Sync.AtMostThreeSyncsPerDay | App.tsx:129-136 | Successive stamps on one calendar day, each taken in an open window, number at most three. |
| Sync.SecondTickIsNoop | App.tsx:136-157 | After a tick that stamped, a second tick at the same instant submits nothing and changes nothing. |
| Sync.FailedSubmissionRetries | App.tsx:154-161 | A failed submission leaves the store as it was, and any later tick submits the same payload again. |
| Sync.DisconnectedTickConsumesWindow | App.tsx:138-157 | Without network nothing is submitted, the buffer is kept and the window is stamped. |
| Sync.BackgroundFetchTask | App.tsx:96-171 | When the permission request throws (flag `"true"`), the outer handler ends the run: nothing is written and nothing is submitted. Otherwise a whole run equals `LocationCheck` followed by `AfterSync`, and it submits `SyncRequest` of the store after the location check. |
| Punch.DecodeFlag | screens/PunchScreen.tsx:110-114 | The screen is punched in exactly when the stored flag is the string "true". |
| Punch.OnDay | screens/PunchScreen.tsx:120-130 | The filter keeps exactly the stored records of the selected calendar day. |
| Punch.OnDayKeepsOrder | screens/PunchScreen.tsx:126-129 | Filtering a concatenation concatenates the filtered parts, so stored order is kept. |
| Punch.ManualRecord | screens/PunchScreen.tsx:152-155 | A manual record has type IN or OUT from the button, the save instant, the place name, and the fix's coordinates and accuracy. |
| Punch.SavedKv | screens/PunchScreen.tsx:148-160 | Saving writes the flag text, the save instant, and the same list to the pending and today keys. No other key changes. |
| Punch.ManualPunchDropsOffScreenPending | screens/PunchScreen.tsx:152-158 | A pending record that is not on screen is gone from the pending buffer after a manual punch. |
| Punch.SortNewestFirst | screens/PunchScreen.tsx:294 | The displayed order is newest first and is a permutation of the list. |
| Punch.NoFixLeadsToTwoOuts | screens/PunchScreen.tsx:168-176 | After an IN click without a position, the OUT saved next follows the history's last OUT: two OUTs in a row, and the history alternates under no flag. |
| Punch.PunchScreen.EnabledButtons | screens/PunchScreen.tsx:264-273 | IN is enabled exactly when punched out and OUT exactly when punched in. Never both. |
| Punch.PunchScreen.constructor | screens/PunchScreen.tsx:29-37 | The punch screen starts punched out, with no punch time, an empty history and the e-mail it was opened with. |
| Punch.PunchScreen.Displayed | screens/PunchScreen.tsx:294 | The rendered list is the history sorted newest first, nothing added or lost. |
| Punch.PunchScreen.LoadPunchData | screens/PunchScreen.tsx:102-138 | If the profile request fails, nothing changes. Otherwise: the flag is decoded, a stored punch time is shown, and a stored today list is filtered to the selected day. Storage is untouched. |
| Punch.PunchScreen.SavePunchData | screens/PunchScreen.tsx:148-166 | The history gains exactly one record at the end, and storage becomes `SavedKv` of that history. |
| Punch.PunchScreen.HandlePunchIn | screens/PunchScreen.tsx:168-215 | The flag and punch time change at once. Storage changes only with a fix, and then the stored punch time is the click time. With a fix from an enabled IN button, IN/OUT alternation is kept. Without a fix, a punched-out alternating history stops agreeing with the flag. |
| Punch.PunchScreen.HandlePunchOut | screens/PunchScreen.tsx:218-241 | The same as IN, with an OUT record, the save time as stored punch time, and the global `punch` item set to "out". Without a fix, a punched-in alternating history stops agreeing with the flag. |
| Report.JsRem | screens/ReportScreen.tsx:96-97 | JavaScript's `%` matches Euclidean `%` on non-negative operands and lies in (-b, 0] on negative ones. |
| Report.JsRemIsOdd | screens/ReportScreen.tsx:96-97 | Truncating remainder is symmetric: `(-a) % b == -(a % b)`. |
| Report.Decompose | screens/ReportScreen.tsx:94-97 | A non-negative duration gives non-negative hours and minutes and seconds below 60. A negative one gives negative hours and non-positive minutes and seconds. |
| Report.DecomposeRecomposes | screens/ReportScreen.tsx:94-97 | A non-negative duration is shown with minutes and seconds below 60, and h·3600+m·60+s equals it. |
| Report.NegativeDurationDoesNotRecompose | screens/ReportScreen.tsx:94-97 | -30 s is shown as -1h -1m -30s, which adds up to -3690 s. |
| Report.DayName | screens/ReportScreen.tsx:31-39 | Each interval is named by the French name of its weekday; Monday is "Lundi", Sunday "Dimanche". |
| Report.DayNamesDistinct | screens/ReportScreen.tsx:31-39 | Two instants share a day name exactly when they share a weekday. |
| Report.WeekStart | screens/ReportScreen.tsx:56-60 | The snapped start is a Monday at 00:00, zero to six days before the picked day, and six days exactly when a Sunday is picked. |
| Report.InWeek | screens/ReportScreen.tsx:80-88 | An instant in the window lies between the start and seven days after the start's midnight. |
| Report.InWeekIsSevenDays | screens/ReportScreen.tsx:81-89 | With a start at midnight the window holds exactly the seven calendar days from the start. |
| Report.UnsnappedStartExcludesItsOwnDay | screens/ReportScreen.tsx:81-89 | With the unsnapped initial start (the instant the screen opened), nothing from that day is in the window. |
| Report.Worked | screens/ReportScreen.tsx:93-108 | An interval is named after its IN's weekday. For OUT at or after IN, its seconds equal OUT minus IN. |
| Report.PairFrom | screens/ReportScreen.tsx:84-113 | Each interval uses up an IN and an OUT: at most half as many intervals as entries (counting an IN already pending). |
| Report.AlternatingHistoryPairsUp | screens/ReportScreen.tsx:84-113 | For an in-week history alternating IN, OUT, IN, …, the intervals are exactly the consecutive (IN, OUT) pairs, one per pair, and a trailing IN yields nothing. |
| Report.TrailingInAddsNothing | screens/ReportScreen.tsx:89-90 | For every history and pending state, an IN appended at the end adds no interval. |
| Report.OrphanOutAddsNothing | screens/ReportScreen.tsx:91 | An OUT with no IN pending closes nothing and the rest pairs as before. |
| Report.AtMostOneIntervalPerOut | screens/ReportScreen.tsx:85-113 | There are no more intervals than OUT entries inside the week. |
| Report.IntervalsStartAtIns | screens/ReportScreen.tsx:90-108 | Every interval starts at an in-window IN entry (or the IN already pending) and carries that IN's day name. |
| Report.ForcedOutsNeverClose | screens/ReportScreen.tsx:90-92 | A history with no `'OUT'` entry (for example only automatic `'Out'`s) yields no interval. |
| Report.LaterInReplacesEarlier | screens/ReportScreen.tsx:90-91 | For IN, IN, OUT, only the later IN is paired with the OUT. |
| Report.GroupByDay | screens/ReportScreen.tsx:133-142 | The groups are exactly the day names that occur in the list. |
| Report.GroupByDayIsFilter | screens/ReportScreen.tsx:133-142 | Each day's group is exactly that day's entries in list order. |
| Report.DayTotal | screens/ReportScreen.tsx:155 | The sum of the day's entries' seconds is non-negative when every entry is. |
| Report.DayTotalAppend | screens/ReportScreen.tsx:155 | The day total is additive over concatenation. |
| Report.DayHeading | screens/ReportScreen.tsx:152-166 | A day without entries has no heading (the screen renders an empty text). Otherwise, for a non-negative day total, the heading's hours, minutes and seconds add back up to the total, with minutes and seconds below 60. |
| Report.MondayPairs | screens/ReportScreen.tsx:85-113 | On a Monday, 08:00 IN, 12:00 OUT, 13:00 IN and 17:30 OUT give the two intervals 08:00-12:00 and 13:00-17:30. |
| Report.MondayScenario | screens/ReportScreen.tsx:133-158 | That Monday is grouped under "Lundi" with heading 8h 30m 0s. |
| Report.MondayHeading | screens/ReportScreen.tsx:152-158 | The Monday's two intervals add up to the heading 8h 30m 0s. |
| Report.ReportScreen.constructor | screens/ReportScreen.tsx:43-48 | The screen starts with no employee id, no hours, and the week starting at the instant of opening. |
| Report.ReportScreen.HandleWeekSelection | screens/ReportScreen.tsx:50-65 | A picked date sets the week start to its Monday. A dismissed picker changes nothing. |
| Report.ReportScreen.LoadWorkHours | screens/ReportScreen.tsx:67-123 | A failed profile request changes nothing (the catch). Otherwise the new id is stored, and the loop computes `PairFrom` of the fetched history over the selected week. The loop runs only if an id was known before the call and the history arrived. |
| Home.SignOutAsWritten | screens/home.screen.tsx:88-128 | As written, punched out: the liveness time is stamped, the marker becomes "logged out", the token and `undefined_emp` are removed and nothing else changes, so the user's own `<login>_emp` is kept. Punched in: `AppendForcedOut` at now. |
| Home.SignOutAsWrittenKeepsEmp | screens/home.screen.tsx:96-97 | A user with a stored label who signs out while punched out keeps `<login>_emp` after the token is gone. |
| Home.SignOut | screens/home.screen.tsx:88-128 | Punched out: the liveness time is stamped, the marker becomes "logged out", the token and label are removed and nothing else changes. Punched in: `AppendForcedOut` at now, so the token and marker are untouched. |
| Home.SignOutOrdersDifferOnlyInEmp | screens/home.screen.tsx:96-97 | The written and corrected orders agree on every key except the two label keys. |
| Home.SignedOutUserIsNotRecovered | screens/home.screen.tsx:88-99 | After the app's sign-out of a punched-out user the token is gone (the login reads "undefined") and the user's own marker says "logged out". Even with that user's token back, a cold start finds no recovery due. |
| Home.HomeScreen.FetchData | screens/home.screen.tsx:36-68 | A cached label is shown and storage is untouched. Otherwise the fetched label is stored but not shown. A failed fetch stops before the punch state is read. Truthy stored punch time and flag are shown. |
| Home.HomeScreen.LoadEmp | screens/home.screen.tsx:43-50 | The cached label is shown, or the fetched label is stored under the user's key. The load continues exactly when one of the two was available. |
| Home.HomeScreen.LoadPunchState | screens/home.screen.tsx:52-61 | A stored formatted punch time and a non-empty stored flag are shown. Anything else keeps what was shown. |
| Home.HomeScreen.SignOutPressed | screens/home.screen.tsx:88-128 | The press, with the token removed before the label key is computed, leaves the store as `SignOutAsWritten` says. It opens the sign-in screen twice when punched out, once when punched in. |
| Home.HomeScreen.constructor | screens/home.screen.tsx:23-28 | The home screen starts with empty login, label and flag text and no punch time shown. |
| Synchro.ManualSync | screens/synchro.screen.tsx:59-95 | Only an accepted upload of a stored buffer removes it. Otherwise nothing changes, and the last-sync stamp is never written. |
| Synchro.ManualSyncKeepsWindowOpen | screens/synchro.screen.tsx:55-97 | A manual sync leaves an open window open. After it emptied the buffer, the next background tick submits nothing and only stamps. |
| Synchro.ManualMatchesBackgroundUpload | screens/synchro.screen.tsx:62-75 | When both submit, the manual and the background upload send the same payload and leave no buffer. |
| Synchro.SynchroScreen.Sync | screens/synchro.screen.tsx:55-97 | A request is made exactly when a buffer is stored, and it is that buffer's payload. The animation keeps running only after an accepted upload, until the timer fires. |
| Synchro.SynchroScreen.TimerFires | screens/synchro.screen.tsx:79-80 | The timer stops the animation. |
| Synchro.SynchroScreen.constructor | screens/synchro.screen.tsx:26 | The sync screen starts not syncing, with no timer armed. |
| SignUp.ValidEmail | screens/signup.screen.tsx:18-21 | A matching text contains an '@' and a '.' and has at least five characters. |
| SignUp.ValidEmailExample | screens/signup.screen.tsx:18-21 | "a@b.c" and an ordinary address match the pattern. |
| SignUp.ValidEmailUnanchored | screens/signup.screen.tsx:18-21 | The pattern is unanchored: text around a matching address still matches. |
| SignUp.InvalidEmails | screens/signup.screen.tsx:18-21 | Text without '@' does not match, nor do "a@b.", "a @b.c" or "@b.c". |
| SignUp.StoredAccounts | screens/signup.screen.tsx:41-42 | An absent account list reads as empty. |
| SignUp.SignUp | screens/signup.screen.tsx:23-53 | The checks run in order: e-mail, length at least 6, confirmation, taken e-mail. Each outcome holds exactly under its condition. A failure leaves storage unchanged. Success appends exactly one account at the end and changes nothing else. |
| SignUp.NoDuplicateEmails | screens/signup.screen.tsx:45-53 | Signing up an e-mail that has just been created is rejected as existing and changes nothing. |
| SignUp.HandleSignUp | screens/signup.screen.tsx:23-63 | The early returns and the search loop produce exactly the outcome and store of `SignUp`. |
| Notifications.MarkAllAsRead | screens/NotificationScreen.tsx:56-62 | Same length and order. Every item is read, with id, message and timestamp unchanged. |
| Notifications.MarkAllAsReadIdempotent | screens/NotificationScreen.tsx:56-62 | Marking twice equals marking once, and nothing is left unread. |
| Notifications.MarkAllAsReadFixesReadLists | screens/NotificationScreen.tsx:57-60 | A list with nothing unread is unchanged by marking. |
| Notifications.InitialNotifications | screens/NotificationScreen.tsx:23-54 | The screen starts with five items, two of them unread. |
| Splash.BootSplash | screens/splash.screen.tsx:15-25 | The boot splash is hidden exactly when the app is ready or the animated splash is shown. The animated splash is mounted exactly when asked for. |
| Splash.SplashScreen.constructor | screens/splash.screen.tsx:38-40 | The state starts as LOADING_IMAGE. |
| Splash.SplashScreen.SettleWait | screens/splash.screen.tsx:54-60 | The waiting state moves to FADE_OUT exactly when the app is ready. After it, waiting implies not ready. |
| Splash.SplashScreen.ImageLoaded | screens/splash.screen.tsx:82-84 | The image's load event sets FADE_IN_IMAGE. |
| Splash.SplashScreen.FadeInFinished | screens/splash.screen.tsx:42-60 | The end of the fade-in leads to WAIT_FOR_APP_TO_BE_READY, or straight on to FADE_OUT when the app is already ready. |
| Splash.SplashScreen.SetAppReady | screens/splash.screen.tsx:54-60 | Readiness moves a waiting splash to FADE_OUT and leaves any other state alone. |
| Splash.SplashScreen.FadeOutFinished | screens/splash.screen.tsx:62-75 | The end of the fade-out sets HIDDEN, which renders nothing. FADE_OUT and HIDDEN are reached only after the app was ready. |

## Left out

- **HTTP.** This covers the profile request, the history fetch, the upload, logout's server call and reverse geocoding. Their outcomes are parameters: `profileLoaded`, `fetched`, `accepted` and `placeName`. The HTTP services are not part of this model.
- **Location.** The location permission and position APIs become `LocationProbe` (including a throwing permission request), an optional `Fix` and `permissionGranted`.
- **JWT.** Decoding is replaced by a token value that carries its login claim.
- **Scheduling.** Timers, intervals, background-fetch registration, and the app-state and network listeners are left out. Each tick is a method call with the instant `now` and the connectivity as parameters.
- **Dates.** Formatting, locale strings and time zones are abstracted. An instant is whole seconds of local time. A stored date is `Stamp(t)`, whatever the source's string format (ISO, `toString`). A `MM/DD/YYYY HH:mm:ss` text is `Formatted(t)`. Milliseconds and `Math.round` on durations disappear, and week ends ignore daylight-saving changes.
- **Coordinates.** They are `real` values. Only "zero or missing becomes 0" is modelled, not NaN.
- **Corrupt JSON.** An item that holds something other than the expected list reads as empty or absent. Parse exceptions are not modelled.
- **Races.** Races between a manual punch and an automatic punch-out, and overlapping intervals, are left out: this is concurrency.
- **UI.** Rendering, alerts, toasts, the loading overlay, local notifications, the sync animation and navigation are left out. The only navigation counted is sign-out's.
- **Sign-in.** The sign-in screen is not part of this model. Its "logged in" marker is taken as a stored value.
- **Unsent request.** The manual IN handler builds an upload request that it never sends (screens/PunchScreen.tsx:189-202). Having no effect, it is not modelled.
- Punch.PunchScreen.LoadPunchData: a stored punch time that is not a formatted instant is not shown. The screen's punch time holds only instants.
- Punch.SortNewestFirst: states sorted order and permutation. It does not state the stability of the JavaScript sort for equal instants.
- App.ColdStart: corrected cold start (liveness time stored under its own key). The app's own sequence is `App.ColdStartAsWritten`, which `App.CheckLastLog` follows.
- Home.SignOut: corrected sign-out (label removed while the token still names the user). The app's own order is `Home.SignOutAsWritten`, which `Home.HomeScreen.SignOutPressed` follows.
- Report.ReportScreen.LoadWorkHours: the IN time is kept as an instant rather than as its `fr-FR` locale string.
- SignUp.SignUp: password length is counted in Unicode code points. JavaScript counts UTF-16 code units.
- Home.HomeScreen.FetchData: a cached label that is not a text value is not shown.
- Splash.SplashScreen.FadeInFinished: an animation callback is modelled only in the state that started it. Late callbacks after an intervening state change are left out.
- App.AppShell.LocationInterval: the unawaited position request never throws into the check, so "location available" is "permission granted". Its captured flag stands for the stale closure value.

## Findings

| source | as written | input that shows it | evidently intended | confidence | as-written member | corrected member |
|---|---|---|---|---|---|---|
| screens/home.screen.tsx:96-97 | The token is removed before the employee-label key is computed. The key is then built from the login "undefined". | User `alice`, punched out, with `alice_emp` stored, signs out. Afterwards `alice_emp` is still stored and `undefined_emp` was removed (`Home.SignOutAsWrittenKeepsEmp`). | Remove `alice_emp` along with the token. | high, not executed | Home.SignOutAsWritten | Home.SignOut |
| App.tsx:301 | A missing liveness time is written under the misspelt key `lastTimeDetetion`. | Cold start with no `<login>_lastTimeDetection` stored: the key is still absent afterwards (`App.MisspeltKeyLeavesDetectionAbsent`). | Store now under `<login>_lastTimeDetection`. | high, not executed | App.ColdStartAsWritten | App.ColdStart |
