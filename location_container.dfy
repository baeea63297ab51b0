/**
 * The component that wraps `getLocation` (LocationManagerContainer.js): it asks
 * the permission oracle, checks the device's location setting, shows a dialog
 * that either requests permission or opens the settings panel, and decides
 * whether the cached position is fresh enough or a new acquisition must start.
 *
 * Each source function that starts an asynchronous call is split in two: the
 * call itself is the `Action` returned, and the function passed to `.then` is a
 * separate handler, fed the oracle's answer and, where it reads the clock, the
 * current instant `now`.
 */
module LocationContainer {
  import opened Wrappers
  import opened LocationStore
  import opened LocationUtils

  /** The numeric props with their defaults. */
  datatype Props = Props(maxAge: int, highAccuracyTimeout: int)

  /** `defaultProps`: maxAge 30 * 1000, highAccuracyTimeout 10000. */
  function DefaultProps(): (p: Props)
    ensures p.maxAge == 30000 && p.highAccuracyTimeout == 10000
  {
    Props(30 * 1000, 10000)
  }

  /** The component's own state plus the store slice it reads as `this.props.location`. */
  datatype ContainerState = ContainerState(location: LocationState, showLocationDialog: bool)

  /** The asynchronous call or callback a step starts, if any. */
  datatype Action =
    | NoAction
    | CheckPermission                         // Permissions.check('location')
    | CheckSettings                           // checkLocationSetting: RNSettings.getSetting
    | ShowDialog                              // setState({showLocationDialog: true})
    | ReturnCached(position: Position)        // getCurrentLocation returns the cache
    | Acquire(options: LocationUtils.Options) // getLocation(..., {timeout: highAccuracyTimeout}, ...)
    | RequestPermission                       // requestLocationPermission: Permissions.request
    | OpenSettings                            // openSettings: RNSettings.openSetting
    | NotifyPermissionDenied                  // props.onPermissionDenied()
    | NotifyLocationError(error: PositionError) // props.onLocationError(error)

  /** The two faces of the dialog. */
  datatype DialogVariant = AuthorizeDialog | SettingsDialog

  /** The dialog's labels and text, as given by the props. */
  datatype DialogTexts = DialogTexts(
    authorizeOkLabel: string, authorizeCancelLabel: string, authorizeText: string,
    settingsOkLabel: string, settingsCancelLabel: string, settingsText: string)

  datatype DialogContent = DialogContent(okLabel: string, cancelLabel: string, text: string)

  // ---- pure decisions ----

  /** The cached position may be returned: it exists and is younger than maxAge (strictly). */
  predicate IsFresh(position: Option<Position>, now: int, maxAge: int)
  {
    position.Some? && position.value.timestamp > now - maxAge
  }

  /** The freshness test read as an age: fresh iff the age is strictly below maxAge. */
  lemma FreshMeansYoung(position: Option<Position>, now: int, maxAge: int)
    ensures IsFresh(position, now, maxAge) <==> position.Some? && now - position.value.timestamp < maxAge
  {
  }

  /** `getCurrentLocation`: return the fresh cache, otherwise start an acquisition. */
  function CurrentLocation(location: LocationState, props: Props, now: int): (a: Action)
    ensures a.ReturnCached? <==> IsFresh(location.position, now, props.maxAge)
    ensures a.ReturnCached? ==> a.position == location.position.value
    ensures !a.ReturnCached? ==> a.Acquire? && EffectiveTimeout(a.options) == props.highAccuracyTimeout
  {
    if IsFresh(location.position, now, props.maxAge) then ReturnCached(location.position.value)
    else Acquire(LocationUtils.Options(Some(props.highAccuracyTimeout)))
  }

  /** `locationPermissionMessage`: the denied message, or nothing. */
  function PermissionMessage<M>(permission: Option<Permission>, deniedMessage: M): (r: Option<M>)
    ensures r.Some? <==> permission == Some(Denied) || permission == Some(Restricted)
    ensures r.Some? ==> r.value == deniedMessage
  {
    if permission != Some(Denied) && permission != Some(Restricted) then None else Some(deniedMessage)
  }

  /** Which face the dialog shows: the authorize one exactly while permission is undetermined. */
  function Variant(permission: Option<Permission>): (v: DialogVariant)
    ensures v == AuthorizeDialog <==> permission == Some(Undetermined)
  {
    if permission == Some(Undetermined) then AuthorizeDialog else SettingsDialog
  }

  /** `locationDialog`: labels and text of the chosen face. */
  function Dialog(permission: Option<Permission>, texts: DialogTexts): (d: DialogContent)
    ensures Variant(permission) == AuthorizeDialog ==>
      d == DialogContent(texts.authorizeOkLabel, texts.authorizeCancelLabel, texts.authorizeText)
    ensures Variant(permission) == SettingsDialog ==>
      d == DialogContent(texts.settingsOkLabel, texts.settingsCancelLabel, texts.settingsText)
  {
    if permission == Some(Undetermined) then
      DialogContent(texts.authorizeOkLabel, texts.authorizeCancelLabel, texts.authorizeText)
    else
      DialogContent(texts.settingsOkLabel, texts.settingsCancelLabel, texts.settingsText)
  }

  // ---- the handlers, as functions of the state ----

  datatype Outcome = Outcome(state: ContainerState, action: Action)

  /** `componentDidMount`. */
  function Mount(c: ContainerState): (o: Outcome)
    ensures o.state == c
    ensures o.action == CheckPermission <==> c.location.permission.None?
    ensures o.action == CheckSettings <==> c.location.permission == Some(Authorized)
    ensures o.action in {CheckPermission, CheckSettings, NoAction}
  {
    if c.location.permission.None? then Outcome(c, CheckPermission)
    else if c.location.permission == Some(Authorized) then Outcome(c, CheckSettings)
    else Outcome(c, NoAction)
  }

  /** The success handler of `Permissions.check` in `componentDidMount`. */
  function PermissionChecked(c: ContainerState, response: Permission): (o: Outcome)
    ensures o.state.location == LocationPermission(c.location, Some(response))
    ensures o.state.showLocationDialog <==> c.showLocationDialog || response == Undetermined
    ensures o.action == CheckSettings <==> response == Authorized
    ensures o.action == ShowDialog <==> response == Undetermined
    ensures o.action == NoAction <==> (response == Denied || response == Restricted)
  {
    var c1 := c.(location := Dispatch(c.location, SetLocationPermission(Some(response))));
    match response
    case Authorized => Outcome(c1, CheckSettings)
    case Undetermined => Outcome(c1.(showLocationDialog := true), ShowDialog)
    case _ => Outcome(c1, NoAction)
  }

  /** The dialog's `onOk`. */
  function DialogOk(c: ContainerState): (o: Outcome)
    ensures !o.state.showLocationDialog && o.state.location == c.location
    ensures o.action == RequestPermission <==> c.location.permission == Some(Undetermined)
    ensures o.action == OpenSettings <==> c.location.permission != Some(Undetermined)
  {
    var a := if c.location.permission == Some(Undetermined) then RequestPermission else OpenSettings;
    Outcome(c.(showLocationDialog := false), a)
  }

  /** The dialog's `onCancel`. */
  function DialogCancel(c: ContainerState): (o: Outcome)
    ensures !o.state.showLocationDialog && o.action == NoAction
    ensures o.state.location.permission == c.location.permission
    ensures o.state.location.position == c.location.position
    ensures o.state.location.stealthMode <==> c.location.stealthMode || c.location.permission != Some(Undetermined)
  {
    var location := if c.location.permission != Some(Undetermined)
      then Dispatch(c.location, SetStealthMode(true)) else c.location;
    Outcome(ContainerState(location, false), NoAction)
  }

  /** The handler of `Permissions.request` in `requestLocationPermission`. */
  function PermissionRequested(c: ContainerState, response: Permission): (o: Outcome)
    ensures o.state == c.(location := LocationPermission(c.location, Some(response)))
    ensures o.action == CheckSettings <==> response == Authorized
    ensures o.action == NotifyPermissionDenied <==> response != Authorized
  {
    var c1 := c.(location := Dispatch(c.location, SetLocationPermission(Some(response))));
    if response == Authorized then Outcome(c1, CheckSettings) else Outcome(c1, NotifyPermissionDenied)
  }

  /** The handler of `RNSettings.getSetting` in `checkLocationSetting`. */
  function LocationSetting(c: ContainerState, props: Props, enabled: bool, now: int): (o: Outcome)
    ensures o.state.location == c.location
    ensures enabled ==> o == Outcome(c, CurrentLocation(c.location, props, now))
    ensures !enabled ==> (o.state.showLocationDialog <==> c.showLocationDialog || !c.location.stealthMode)
    ensures !enabled ==> (o.action == ShowDialog <==> !c.location.stealthMode)
    ensures !enabled ==> !o.action.Acquire? && !o.action.ReturnCached?
  {
    if enabled then Outcome(c, CurrentLocation(c.location, props, now))
    else if !c.location.stealthMode then Outcome(c.(showLocationDialog := true), ShowDialog)
    else Outcome(c, NoAction)
  }

  /** The handler of `RNSettings.openSetting` in `openSettings`. */
  function SettingsReturned(c: ContainerState, props: Props, enabled: bool, now: int): (o: Outcome)
    ensures o.state == c
    ensures enabled ==> o.action == CurrentLocation(c.location, props, now)
    ensures !enabled ==> o.action == NoAction
  {
    if enabled then Outcome(c, CurrentLocation(c.location, props, now)) else Outcome(c, NoAction)
  }

  /** The success callback given to `getLocation`: store the coordinate stamped with `now`. */
  function LocationFound(c: ContainerState, coords: Coords, now: int): (o: Outcome)
    ensures o.action == NoAction && o.state.showLocationDialog == c.showLocationDialog
    ensures o.state.location == PositionReducer(c.location, Some(Position(coords.latitude, coords.longitude, now)))
  {
    var p := Position(coords.latitude, coords.longitude, now);
    Outcome(c.(location := Dispatch(c.location, SetPosition(Some(p)))), NoAction)
  }

  /** Everything that can reach the component. */
  datatype Event =
    | Mounted
    | PermissionCheckResolved(response: Permission)
    | PermissionCheckRejected
    | OkPressed
    | CancelPressed
    | PermissionRequestResolved(response: Permission)
    | SettingResolved(enabled: bool, now: int)
    | SettingsPanelClosed(enabled: bool, now: int)
    | LocationFix(coords: Coords, now: int)
    | LocationFailure(error: PositionError)

  /** The component's reaction to one event. */
  function Step(c: ContainerState, props: Props, e: Event): Outcome
  {
    match e
    case Mounted => Mount(c)
    case PermissionCheckResolved(r) => PermissionChecked(c, r)
    case PermissionCheckRejected => Outcome(c, NoAction)   // the rejection handler only logs
    case OkPressed => DialogOk(c)
    case CancelPressed => DialogCancel(c)
    case PermissionRequestResolved(r) => PermissionRequested(c, r)
    case SettingResolved(enabled, now) => LocationSetting(c, props, enabled, now)
    case SettingsPanelClosed(enabled, now) => SettingsReturned(c, props, enabled, now)
    case LocationFix(coords, now) => LocationFound(c, coords, now)
    case LocationFailure(err) => Outcome(c, NotifyLocationError(err))
  }

  /** The OK button does what its label says, and Cancel only turns stealth mode on from the settings face. */
  lemma DialogIsConsistent(c: ContainerState)
    ensures Variant(c.location.permission) == AuthorizeDialog <==> DialogOk(c).action == RequestPermission
    ensures Variant(c.location.permission) == SettingsDialog <==> DialogOk(c).action == OpenSettings
    ensures Variant(c.location.permission) == SettingsDialog ==> DialogCancel(c).state.location.stealthMode
    ensures Variant(c.location.permission) == AuthorizeDialog ==>
      DialogCancel(c).state.location.stealthMode == c.location.stealthMode
  {
  }

  /** The acquisition the component starts gets `highAccuracyTimeout` (10000 by default) as its timeout. */
  lemma AcquisitionTimeout(location: LocationState, props: Props, now: int)
    requires CurrentLocation(location, props, now).Acquire?
    ensures EffectiveTimeout(CurrentLocation(location, props, now).options) == props.highAccuracyTimeout
    ensures props == DefaultProps() ==> EffectiveTimeout(CurrentLocation(location, props, now).options) == 10000
  {
  }

  /** With maxAge 30000: a position stored 10000 ms ago is returned, one stored 40000 ms ago is not. */
  lemma FreshnessExamples(p: Position, now: int)
    ensures p.timestamp == now - 10000 ==>
      CurrentLocation(LocationState(None, Some(p), false), DefaultProps(), now) == ReturnCached(p)
    ensures p.timestamp == now - 40000 ==>
      CurrentLocation(LocationState(None, Some(p), false), DefaultProps(), now).Acquire?
    ensures p.timestamp == now - 30000 ==>
      CurrentLocation(LocationState(None, Some(p), false), DefaultProps(), now).Acquire?
  {
  }

  /** The component: its state, the store it dispatches to, and one method per source handler. */
  class LocationManagerContainer {
    const props: Props
    var location: LocationState
    var showLocationDialog: bool

    function Snapshot(): ContainerState
      reads this
    {
      ContainerState(location, showLocationDialog)
    }

    constructor (props: Props, location: LocationState)
      ensures this.props == props && Snapshot() == ContainerState(location, false)
    {
      this.props := props;
      this.location := location;
      showLocationDialog := false;
    }

    /** `this.props.dispatch`. */
    method Dispatch(action: LocationStore.Action)
      modifies this`location
      ensures location == LocationStore.Dispatch(old(location), action)
    {
      location := Reducer(Some(location), action);
    }

    method ComponentDidMount() returns (act: Action)
      ensures Outcome(Snapshot(), act) == Step(Snapshot(), props, Mounted)
    {
      if location.permission.None? {
        act := CheckPermission;
      } else if location.permission == Some(Authorized) {
        act := CheckSettings;
      } else {
        act := NoAction;
      }
    }

    method OnPermissionCheck(response: Permission) returns (act: Action)
      modifies this
      ensures Outcome(Snapshot(), act) == Step(old(Snapshot()), props, PermissionCheckResolved(response))
    {
      Dispatch(SetLocationPermission(Some(response)));
      act := NoAction;
      if response == Authorized {
        act := CheckSettings;
      } else if response == Undetermined {
        showLocationDialog := true;
        act := ShowDialog;
      }
    }

    method OnOk() returns (act: Action)
      modifies this
      ensures Outcome(Snapshot(), act) == Step(old(Snapshot()), props, OkPressed)
    {
      if location.permission == Some(Undetermined) {
        act := RequestPermission;
      } else {
        act := OpenSettings;
      }
      showLocationDialog := false;
    }

    method OnCancel()
      modifies this
      ensures Outcome(Snapshot(), NoAction) == Step(old(Snapshot()), props, CancelPressed)
    {
      if location.permission != Some(Undetermined) {
        Dispatch(SetStealthMode(true));
      }
      showLocationDialog := false;
    }

    method OnPermissionRequest(response: Permission) returns (act: Action)
      modifies this
      ensures Outcome(Snapshot(), act) == Step(old(Snapshot()), props, PermissionRequestResolved(response))
    {
      Dispatch(SetLocationPermission(Some(response)));
      if response == Authorized {
        act := CheckSettings;
      } else {
        act := NotifyPermissionDenied;
      }
    }

    /** `getCurrentLocation`, at instant `now`. */
    method GetCurrentLocation(now: int) returns (act: Action)
      ensures act.ReturnCached? <==> location.position.Some? && location.position.value.timestamp > now - props.maxAge
      ensures act.ReturnCached? ==> act.position == location.position.value
      ensures !act.ReturnCached? ==> act == Acquire(LocationUtils.Options(Some(props.highAccuracyTimeout)))
    {
      var position := location.position;
      if position.Some? && position.value.timestamp > now - props.maxAge {
        return ReturnCached(position.value);
      }
      act := Acquire(LocationUtils.Options(Some(props.highAccuracyTimeout)));
    }

    method OnLocationSetting(enabled: bool, now: int) returns (act: Action)
      modifies this
      ensures Outcome(Snapshot(), act) == Step(old(Snapshot()), props, SettingResolved(enabled, now))
    {
      act := NoAction;
      if enabled {
        act := GetCurrentLocation(now);
      } else {
        if !location.stealthMode {
          showLocationDialog := true;
          act := ShowDialog;
        }
      }
    }

    method OnSettingsReturn(enabled: bool, now: int) returns (act: Action)
      ensures Outcome(Snapshot(), act) == Step(Snapshot(), props, SettingsPanelClosed(enabled, now))
    {
      act := NoAction;
      if enabled {
        act := GetCurrentLocation(now);
      }
    }

    method OnLocationSuccess(coords: Coords, now: int)
      modifies this
      ensures Outcome(Snapshot(), NoAction) == Step(old(Snapshot()), props, LocationFix(coords, now))
    {
      Dispatch(SetPosition(Some(Position(coords.latitude, coords.longitude, now))));
    }

    method OnLocationError(error: PositionError) returns (act: Action)
      ensures Outcome(Snapshot(), act) == Step(Snapshot(), props, LocationFailure(error))
    {
      act := NotifyLocationError(error);
    }
  }
}
