# react-native-location-manager: location acquisition, store and container, in Dafny

This project models the decision and state logic of a React Native location
manager:

- `getLocation` (LocationManager/Utils.js): one acquisition that starts a
  high-accuracy watch and a timer and falls back to a one-shot low-accuracy
  request when the watch errs or the timer fires first. Module `LocationUtils`
  holds the closure as class `Acquisition`: two flags, the watch handle, the
  effective timeout, and a trace of every callback call and platform call in
  order. Each platform callback is one method. Each method is proved equal to
  a pure step function (`Handle`, built on `Emitted`).
- The platform around it (module `AcquisitionRuns`): a registered watch, an
  armed timer and unanswered one-shot requests. The platform can deliver only
  callbacks it still owes, in any order, because the single-threaded event
  loop makes every race a choice of ordering. Budget measures that never grow,
  and one floor that never shrinks, bound what any run can emit.
- The location store (LocationManager/Redux.js, module `LocationStore`): the
  record `{permission, position, stealthMode}`, its initial value, the three
  field reducers and the type-to-handler map.
- The container (LocationManagerContainer.js, module `LocationContainer`):
  the permission, settings and dialog flow and the cache-freshness decision.
  It has pure decision functions, a `Step` over component events, and class
  `LocationManagerContainer` with one method per handler, each proved equal to
  `Step`. Module `ContainerRuns` proves facts about any sequence of events.

The permission oracle, the settings oracle and the clock are inputs: the
oracle's answer is a handler parameter, and `now` is an integer parameter.
Each source function that starts an asynchronous call is split in two. The
call itself is the returned `Action`, and the function given to `.then` is
its own handler. Handlers dispatch to the store synchronously. No handler
reads `this.props.location` after its own dispatch, so this matches the
source.

Callers may expect exactly one of `onSuccess`/`onError` per call of
`getLocation`. The code does not guarantee this, and the model follows the
code:

- The timer branch does not clear the watch, and nothing guards the success
  callback. A watch fix that arrives after the timeout therefore calls
  `onSuccess` a second time (`LateWatchFixReportsTwice`).
- A watch error that arrives after the timeout enters the low-accuracy path a
  second time (`WatchErrorAfterTimeoutFallsBackTwice`).

`AcquisitionBounds` proves bounds that hold for any order of callbacks:

- at most two outcomes reach the caller;
- at least one outcome has been reported once the timer is inert and every
  one-shot request is answered, even while the watch is still registered
  (as the timeout path leaves it);
- at most one timeout notice;
- at most two low-accuracy paths;
- exactly one watch.

When the watch fixes first, or errs first, exactly one outcome is reported
(`WatchFixFirst`, `WatchErrorFirst`).

## Model

| member | source | states |
|---|---|---|
| `LocationUtils.EffectiveTimeout` | LocationManager/Utils.js:46-47 | 10000 when options are absent or carry no timeout, otherwise the given timeout |
| `LocationUtils.HighAccuracyOptions` | LocationManager/Utils.js:87-92 | the watch asks for high accuracy, the effective timeout, maxAge 0, distanceFilter 1 |
| `LocationUtils.LowAccuracyRequest` | LocationManager/Utils.js:49-66 | `onSearchLowAccuracy` comes before one `getCurrentPosition` with high accuracy off, timeout 10000, maxAge 0 |
| `LocationUtils.Start` | LocationManager/Utils.js:44-101 | both flags start false; `onSearchHighAccuracy` is followed by one `watchPosition` with the high-accuracy options and one timer for the effective timeout |
| `LocationUtils.Emitted` | LocationManager/Utils.js:49-101 | a watch fix clears the watch, then reports high-accuracy success and the coordinate; a watch error clears the watch and enters the low-accuracy path without any `onError`/`onSuccess`; the timer emits nothing iff a flag is set, else the timeout notice and the low-accuracy path; low-accuracy fix gives `onSuccessLowAccuracy` then `onSuccess`, its error only `onError`; no event registers a watch or a timer |
| `LocationUtils.Handle` | LocationManager/Utils.js:72-101 | the trace grows by exactly what the event emits; a fix sets `highAccuracySuccess`, an error sets `highAccuracyError`, nothing clears a flag |
| `LocationUtils.LateTimerIsNoOp` | LocationManager/Utils.js:95-101 | a timer firing after either flag is set changes nothing |
| `LocationUtils.Acquisition.constructor` | LocationManager/Utils.js:43-101 | the closure right after `getLocation` returns equals `Start` |
| `LocationUtils.Acquisition.LowAccuracyPosition` | LocationManager/Utils.js:49-67 | appends exactly the low-accuracy request |
| `LocationUtils.Acquisition.OnWatchFix` | LocationManager/Utils.js:72-79 | the new closure state is `Handle` of the old one and the fix |
| `LocationUtils.Acquisition.OnWatchError` | LocationManager/Utils.js:80-86 | the new closure state is `Handle` of the old one and the error |
| `LocationUtils.Acquisition.OnTimer` | LocationManager/Utils.js:95-101 | the new closure state is `Handle` of the old one and the timer |
| `LocationUtils.Acquisition.OnLowAccuracyFix` | LocationManager/Utils.js:53-57 | the new closure state is `Handle` of the old one and the low-accuracy fix |
| `LocationUtils.Acquisition.OnLowAccuracyError` | LocationManager/Utils.js:58-60 | the new closure state is `Handle` of the old one and the low-accuracy error |
| `AcquisitionRuns.BeginState` | LocationManager/Utils.js:69-101 | after `getLocation` returns, the watch is registered, the timer armed and no request is pending |
| `AcquisitionRuns.RunMeasures` | LocationManager/Utils.js:72-101 | over any feasible run the trace only grows, the outcome, fallback and timeout budgets never grow, the two outcome floors (one counting the watch, one counting only requests and a live timer) never shrink, and the watch count is constant |
| `AcquisitionRuns.SettledRunsEmitNothing` | LocationManager/Utils.js:95-101 | with the watch cleared, no request pending and the timer inert, no further callback emits anything |
| `AcquisitionRuns.AcquisitionBounds` | LocationManager/Utils.js:33-101 | for any order of callbacks: one watch, at most one timeout notice, at most two low-accuracy paths, at most two outcomes, and at least one outcome once the timer is inert and no one-shot request is unanswered (the watch may still be registered) |
| `AcquisitionRuns.WatchFixFirst` | LocationManager/Utils.js:72-79 | a first watch fix yields exactly clear-watch, high-accuracy success and `onSuccess(coords)`, and nothing more whatever follows |
| `AcquisitionRuns.WatchErrorFirst` | LocationManager/Utils.js:80-86 | a first watch error enters the low-accuracy path at once, exactly once, with no timeout notice, at most one outcome, and exactly one once nothing is owed |
| `AcquisitionRuns.TimerFirst` | LocationManager/Utils.js:95-101 | a first timer fire notifies the timeout once and enters the low-accuracy path while the watch stays registered |
| `AcquisitionRuns.LateWatchFixReportsTwice` | LocationManager/Utils.js:72-101 | timer, then watch fix, then low-accuracy fix is a feasible run that calls `onSuccess` twice |
| `AcquisitionRuns.WatchErrorAfterTimeoutFallsBackTwice` | LocationManager/Utils.js:80-101 | timer, then watch error, then two low-accuracy errors is a feasible run with two low-accuracy paths and two `onError` calls |
| `LocationStore.Initial` | LocationManager/Redux.js:17-21 | permission null, position null, stealthMode false |
| `LocationStore.LocationPermission` | LocationManager/Redux.js:25-26 | sets permission, leaves position and stealthMode |
| `LocationStore.PositionReducer` | LocationManager/Redux.js:28-29 | sets position, leaves permission and stealthMode |
| `LocationStore.StealthMode` | LocationManager/Redux.js:31-32 | sets stealthMode, leaves permission and position |
| `LocationStore.Reducer` | LocationManager/Redux.js:36-40 | an action of any undeclared type leaves the state (or the initial state when absent) unchanged |
| `LocationStore.OnlyDeclaredTypesHandled` | LocationManager/Redux.js:6-10 | only the three declared action types can change the store |
| `LocationStore.Idempotent` | LocationManager/Redux.js:25-32 | dispatching any action twice equals dispatching it once |
| `LocationStore.Commute` | LocationManager/Redux.js:25-32 | actions on different fields commute |
| `LocationStore.LastWriteWins` | LocationManager/Redux.js:25-32 | of two actions on the same field the second wins |
| `LocationStore.ReplaySnoc` | LocationManager/Redux.js:36-40 | dispatching a sequence then one more action is dispatching that action to the sequence's result |
| `LocationStore.ReplayFields` | LocationManager/Redux.js:36-40 | after any sequence of dispatches each field holds the last payload written to it, or its old value |
| `LocationContainer.DefaultProps` | LocationManagerContainer.js:53-55 | maxAge 30000, highAccuracyTimeout 10000 |
| `LocationContainer.FreshMeansYoung` | LocationManagerContainer.js:196 | the cache test holds iff a position exists and its age is strictly below maxAge |
| `LocationContainer.CurrentLocation` | LocationManagerContainer.js:193-220 | returns the cached position iff it is fresh; otherwise starts an acquisition whose effective timeout is highAccuracyTimeout |
| `LocationContainer.PermissionMessage` | LocationManagerContainer.js:112-117 | the denied message is shown iff permission is denied or restricted |
| `LocationContainer.Variant` | LocationManagerContainer.js:125-142 | the authorize face is chosen iff permission is undetermined |
| `LocationContainer.Dialog` | LocationManagerContainer.js:119-162 | the OK label, cancel label and text all come from the chosen face |
| `LocationContainer.Mount` | LocationManagerContainer.js:73-101 | unknown permission starts the permission check; 'authorized' starts the settings check; anything else does nothing; state unchanged |
| `LocationContainer.PermissionChecked` | LocationManagerContainer.js:77-91 | stores the answer; 'authorized' starts the settings check; 'undetermined' shows the dialog; 'denied' and 'restricted' do neither |
| `LocationContainer.DialogOk` | LocationManagerContainer.js:130-137 | hides the dialog; requests permission iff permission is undetermined, else opens settings |
| `LocationContainer.DialogCancel` | LocationManagerContainer.js:143-149 | hides the dialog; stealthMode becomes true iff permission is not undetermined (or it already was) |
| `LocationContainer.PermissionRequested` | LocationManagerContainer.js:164-176 | stores the answer; 'authorized' starts the settings check, anything else calls `onPermissionDenied` |
| `LocationContainer.LocationSetting` | LocationManagerContainer.js:178-191 | enabled leads to `getCurrentLocation`; disabled shows the dialog iff stealthMode is false and never acquires |
| `LocationContainer.SettingsReturned` | LocationManagerContainer.js:222-231 | returning with location enabled leads to `getCurrentLocation`, otherwise nothing |
| `LocationContainer.LocationFound` | LocationManagerContainer.js:201-207 | stores `{latitude, longitude}` of the fix with timestamp `now`, nothing else changes |
| `LocationContainer.DialogIsConsistent` | LocationManagerContainer.js:125-149 | OK requests permission iff the authorize face is shown, opens settings iff the settings face is; Cancel sets stealth mode from the settings face only |
| `LocationContainer.AcquisitionTimeout` | LocationManagerContainer.js:211-213 | the acquisition started gets highAccuracyTimeout as its timeout, 10000 by default |
| `LocationContainer.FreshnessExamples` | LocationManagerContainer.js:196-199 | with default maxAge, a position 10000 ms old is returned, one 30000 or 40000 ms old triggers acquisition |
| `LocationContainer.LocationManagerContainer.constructor` | LocationManagerContainer.js:63-68 | the dialog starts hidden |
| `LocationContainer.LocationManagerContainer.Dispatch` | LocationManagerContainer.js:81 | the store becomes the reducer's result for the action |
| `LocationContainer.LocationManagerContainer.ComponentDidMount` | LocationManagerContainer.js:73-101 | its action and state are those of `Step` on mount |
| `LocationContainer.LocationManagerContainer.OnPermissionCheck` | LocationManagerContainer.js:77-91 | its action and new state are those of `Step` on the check answer |
| `LocationContainer.LocationManagerContainer.OnOk` | LocationManagerContainer.js:130-137 | its action and new state are those of `Step` on OK |
| `LocationContainer.LocationManagerContainer.OnCancel` | LocationManagerContainer.js:143-149 | its new state is that of `Step` on Cancel |
| `LocationContainer.LocationManagerContainer.OnPermissionRequest` | LocationManagerContainer.js:164-176 | its action and new state are those of `Step` on the request answer |
| `LocationContainer.LocationManagerContainer.GetCurrentLocation` | LocationManagerContainer.js:193-220 | returns the cache iff position is non-null and timestamp > now - maxAge; otherwise calls `getLocation` with timeout highAccuracyTimeout |
| `LocationContainer.LocationManagerContainer.OnLocationSetting` | LocationManagerContainer.js:178-191 | its action and new state are those of `Step` on the settings answer |
| `LocationContainer.LocationManagerContainer.OnSettingsReturn` | LocationManagerContainer.js:222-231 | its action is that of `Step` on return from settings, state unchanged |
| `LocationContainer.LocationManagerContainer.OnLocationSuccess` | LocationManagerContainer.js:201-207 | its new state is that of `Step` on the fix |
| `LocationContainer.LocationManagerContainer.OnLocationError` | LocationManagerContainer.js:208-210 | forwards the error to `onLocationError`, state unchanged |
| `ContainerRuns.StealthModeOnlyByCancel` | LocationManagerContainer.js:143-149 | over any events stealth mode never turns off, and it only turns on through Cancel |
| `ContainerRuns.PositionComesFromFix` | LocationManagerContainer.js:201-207 | the stored position is the old one or one built from a fix in the run, stamped with its arrival time |
| `ContainerRuns.PermissionComesFromOracle` | LocationManagerContainer.js:73-176 | the stored permission is the old one or an answer of the permission oracle received in the run |
| `ContainerRuns.PermissionIsLastAnswer` | LocationManagerContainer.js:73-176 | after any events the stored permission is exactly the last answer of the permission check or request, or the old one when none arrived |
| `ContainerRuns.DriveSnoc` | LocationManagerContainer.js:73-231 | running events then one more is that one step applied to the run's result |
| `ContainerRuns.DialogOpensForACause` | LocationManagerContainer.js:73-191 | the dialog is visible only if it was, or an undetermined check answer or a disabled setting arrived |
| `ContainerRuns.StealthSuppressesSettingsDialog` | LocationManagerContainer.js:184-188 | in stealth mode a disabled setting changes nothing and shows no dialog |
| `ContainerRuns.FixIsCachedForMaxAge` | LocationManagerContainer.js:193-207 | a fix stored at t is served from the cache at now iff now - t < maxAge, otherwise a new acquisition starts |
| `ContainerRuns.AuthorizedMountAcquires` | LocationManagerContainer.js:73-101 | mount with unknown permission, answer 'authorized', setting enabled and no cache: check, settings check, acquisition; permission stored, no dialog |

## Left out

- `distance` (LocationManager/Utils.js:1-10): floating-point haversine with nothing exact to prove.
- The real platform is not modelled. This covers `navigator.geolocation`, `setTimeout`, `Date.now()`, `Permissions` and `RNSettings`. Their calls become emissions or actions, their callbacks become events, and the clock becomes the integer parameter `now`.
- Real time is not modelled. The model does not say the timer fires after `timeout` ms; every interleaving the platform could still deliver is allowed.
- The platform model tracks a single watch. Any `clearWatch` clears it.
- `console.log` calls are not modelled.
- JSX rendering, `MaterialDialog`, the default Italian strings and the `deniedPermissionMessage` element are not modelled. The message is a type parameter, and the labels are a record of strings whose choice is modelled.
- `connect`, `mapStateToProps`, `mapDispatchToProps` and the library internals are not modelled. The libraries are reduxsauce and seamless-immutable. `dispatch` applies `Reducer` to the store record.
- The rejection handler of `Permissions.check` only logs. It is the `PermissionCheckRejected` event, which changes nothing.
- Coordinates carry only latitude and longitude as `real`. Other fields of `position.coords` are not modelled because no caller reads them.
- The container passes its five observer props through to `getLocation` unchanged. The `Acquire` action does not repeat them, because `LocationUtils` already models them as emissions.
- `EffectiveTimeout`: a JavaScript `options.timeout` that is neither a number nor `undefined` (e.g. `null`) is not modelled.
- Exactly one terminal callback per acquisition is not modelled, because the code does not guarantee it. The model proves the at-most-two bound and the two runs that reach it instead.
