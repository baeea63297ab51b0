/**
 * The location slice of the application store (LocationManager/Redux.js):
 * a record {permission, position, stealthMode}, its initial value, the three
 * action creators and the reducer that maps each action type to its handler.
 */
module LocationStore {
  import opened Wrappers

  /** The four answers the permission library gives for 'location'. */
  datatype Permission = Authorized | Denied | Restricted | Undetermined

  /** A stored position: coordinates plus the instant (ms) it was stored. */
  datatype Position = Position(latitude: real, longitude: real, timestamp: int)

  /** The store record; `None` stands for the JavaScript `null`. */
  datatype LocationState = LocationState(
    permission: Option<Permission>,
    position: Option<Position>,
    stealthMode: bool)

  /** Action type strings produced by `createActions` for the three creators. */
  const SET_LOCATION_PERMISSION: string := "SET_LOCATION_PERMISSION"
  const SET_POSITION: string := "SET_POSITION"
  const SET_STEALTH_MODE: string := "SET_STEALTH_MODE"

  /** Any other action type flowing through the store (e.g. the store's own init action). */
  type ForeignType = t: string
    | t != SET_LOCATION_PERMISSION && t != SET_POSITION && t != SET_STEALTH_MODE
    witness "@@redux/INIT"

  /** The actions built by the three action creators, plus every foreign action. */
  datatype Action =
    | SetLocationPermission(permission: Option<Permission>)
    | SetPosition(position: Option<Position>)
    | SetStealthMode(stealthMode: bool)
    | Foreign(actionType: ForeignType)

  function ActionType(a: Action): string
  {
    match a
    case SetLocationPermission(_) => SET_LOCATION_PERMISSION
    case SetPosition(_) => SET_POSITION
    case SetStealthMode(_) => SET_STEALTH_MODE
    case Foreign(t) => t
  }

  /** True for the action types the reducer maps to a handler. */
  predicate Handled(actionType: string)
  {
    actionType == SET_LOCATION_PERMISSION || actionType == SET_POSITION || actionType == SET_STEALTH_MODE
  }

  /** INITIAL_STATE */
  function Initial(): (s: LocationState)
    ensures s.permission.None? && s.position.None? && !s.stealthMode
  {
    LocationState(None, None, false)
  }

  /** Reducer `locationPermission`: merge {permission}. */
  function LocationPermission(state: LocationState, permission: Option<Permission>): (r: LocationState)
    ensures r.permission == permission
    ensures r.position == state.position && r.stealthMode == state.stealthMode
  {
    state.(permission := permission)
  }

  /** Reducer `position`: merge {position}. */
  function PositionReducer(state: LocationState, position: Option<Position>): (r: LocationState)
    ensures r.position == position
    ensures r.permission == state.permission && r.stealthMode == state.stealthMode
  {
    state.(position := position)
  }

  /** Reducer `stealthMode`: merge {stealthMode}. */
  function StealthMode(state: LocationState, stealthMode: bool): (r: LocationState)
    ensures r.stealthMode == stealthMode
    ensures r.permission == state.permission && r.position == state.position
  {
    state.(stealthMode := stealthMode)
  }

  /**
   * `reducer`: an absent (undefined) state starts from the initial one; each
   * declared type goes to its handler; any other type leaves the state as it is.
   */
  function Reducer(state: Option<LocationState>, action: Action): (r: LocationState)
    ensures !Handled(ActionType(action)) ==> r == (if state.Some? then state.value else Initial())
  {
    var s := if state.Some? then state.value else Initial();
    match action
    case SetLocationPermission(p) => LocationPermission(s, p)
    case SetPosition(pos) => PositionReducer(s, pos)
    case SetStealthMode(b) => StealthMode(s, b)
    case Foreign(_) => s
  }

  /** Dispatching an action to an existing store. */
  function Dispatch(s: LocationState, action: Action): LocationState
  {
    Reducer(Some(s), action)
  }

  /** Which field of the record an action writes, if any. */
  datatype Field = PermissionField | PositionField | StealthModeField

  function Writes(a: Action): Option<Field>
  {
    match a
    case SetLocationPermission(_) => Some(PermissionField)
    case SetPosition(_) => Some(PositionField)
    case SetStealthMode(_) => Some(StealthModeField)
    case Foreign(_) => None
  }

  /** Only the three declared types reach a handler; a foreign action never changes the store. */
  lemma OnlyDeclaredTypesHandled(s: LocationState, a: Action)
    ensures Dispatch(s, a) != s ==> Handled(ActionType(a)) && Writes(a).Some?
    ensures Handled(ActionType(a)) <==> Writes(a).Some?
  {
  }

  /** Every action is idempotent: dispatching it twice equals dispatching it once. */
  lemma Idempotent(s: LocationState, a: Action)
    ensures Dispatch(Dispatch(s, a), a) == Dispatch(s, a)
  {
  }

  /** Actions on different fields commute. */
  lemma Commute(s: LocationState, a: Action, b: Action)
    requires Writes(a) != Writes(b) || Writes(a).None?
    ensures Dispatch(Dispatch(s, a), b) == Dispatch(Dispatch(s, b), a)
  {
  }

  /** Of two actions on the same field, the second one wins. */
  lemma LastWriteWins(s: LocationState, a: Action, b: Action)
    requires Writes(a).Some? && Writes(a) == Writes(b)
    ensures Dispatch(Dispatch(s, a), b) == Dispatch(s, b)
  {
  }

  /** Dispatching a sequence of actions in order. */
  function Replay(s: LocationState, actions: seq<Action>): LocationState
    decreases |actions|
  {
    if actions == [] then s else Replay(Dispatch(s, actions[0]), actions[1..])
  }

  /** Payload of the last permission action, or `d` when there is none. */
  function LastPermission(actions: seq<Action>, d: Option<Permission>): Option<Permission>
  {
    if actions == [] then d
    else
      var last := actions[|actions| - 1];
      if last.SetLocationPermission? then last.permission else LastPermission(actions[..|actions| - 1], d)
  }

  /** Payload of the last position action, or `d` when there is none. */
  function LastPosition(actions: seq<Action>, d: Option<Position>): Option<Position>
  {
    if actions == [] then d
    else
      var last := actions[|actions| - 1];
      if last.SetPosition? then last.position else LastPosition(actions[..|actions| - 1], d)
  }

  /** Payload of the last stealth-mode action, or `d` when there is none. */
  function LastStealthMode(actions: seq<Action>, d: bool): bool
  {
    if actions == [] then d
    else
      var last := actions[|actions| - 1];
      if last.SetStealthMode? then last.stealthMode else LastStealthMode(actions[..|actions| - 1], d)
  }

  lemma {:induction false} ReplaySnoc(s: LocationState, actions: seq<Action>, a: Action)
    ensures Replay(s, actions + [a]) == Dispatch(Replay(s, actions), a)
    decreases |actions|
  {
    if actions == [] {
      assert [a][1..] == [];
    } else {
      assert (actions + [a])[1..] == actions[1..] + [a];
      ReplaySnoc(Dispatch(s, actions[0]), actions[1..], a);
    }
  }

  /**
   * The store after any sequence of dispatches: each field holds the payload of
   * the last action that wrote it, or its old value when none did.
   */
  lemma {:induction false} ReplayFields(s: LocationState, actions: seq<Action>)
    ensures Replay(s, actions) == LocationState(
      LastPermission(actions, s.permission),
      LastPosition(actions, s.position),
      LastStealthMode(actions, s.stealthMode))
    decreases |actions|
  {
    if actions != [] {
      var init := actions[..|actions| - 1];
      assert actions == init + [actions[|actions| - 1]];
      ReplaySnoc(s, init, actions[|actions| - 1]);
      ReplayFields(s, init);
    }
  }
}
