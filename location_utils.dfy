/**
 * `getLocation` (LocationManager/Utils.js): one acquisition. The closure keeps
 * two flags and the watch handle; the platform later calls back into it with a
 * watch fix, a watch error, the timer, or the answer to the low-accuracy
 * request. Every callback invocation and every platform call it makes is
 * appended, in order, to a trace of emissions.
 */
module LocationUtils {
  import opened Wrappers

  /** `position.coords`, as far as the callers read it. */
  datatype Coords = Coords(latitude: real, longitude: real)

  /** The platform's position error, passed through unchanged. */
  datatype PositionError = PositionError(code: int, message: string)

  /** Handle returned by `watchPosition`. */
  type WatchId = int

  /** The `options` argument: absent, or an object whose `timeout` may be undefined. */
  datatype Options = NoOptions | Options(timeout: Option<int>)

  /** Timeout of the high-accuracy attempt when none is given (ms). */
  const DefaultTimeout: int := 10000

  /** Timeout given to the one-shot low-accuracy request (ms). */
  const LowAccuracyTimeout: int := 10000

  /** The options object handed to `watchPosition` / `getCurrentPosition`. */
  datatype PositionOptions = PositionOptions(
    enableHighAccuracy: bool,
    timeout: int,
    maxAge: int,
    distanceFilter: Option<int>)

  /** What the procedure does, in the order it does it. */
  datatype Emission =
    // the caller's callbacks
    | SearchHighAccuracy
    | SuccessHighAccuracy
    | TimeoutHighAccuracy
    | SearchLowAccuracy
    | SuccessLowAccuracy
    | Success(coords: Coords)
    | Error(error: PositionError)
    // the platform calls
    | WatchPosition(id: WatchId, options: PositionOptions)
    | ClearWatch(id: WatchId)
    | GetCurrentPosition(options: PositionOptions)
    | SetTimeout(delay: int)

  /** What the platform can deliver to the closure. */
  datatype Event =
    | WatchFix(coords: Coords)
    | WatchError(error: PositionError)
    | TimerFire
    | LowAccuracyFix(coords: Coords)
    | LowAccuracyError(error: PositionError)

  /** The closure's state plus everything emitted so far. */
  datatype Session = Session(
    highAccuracySuccess: bool,
    highAccuracyError: bool,
    watchId: WatchId,
    timeout: int,
    trace: seq<Emission>)

  predicate IsTerminal(e: Emission) { e.Success? || e.Error? }

  /** The effective timeout: the default unless the options carry one. */
  function EffectiveTimeout(options: Options): (t: int)
    ensures options.NoOptions? || options.timeout.None? ==> t == DefaultTimeout
    ensures options.Options? && options.timeout.Some? ==> t == options.timeout.value
  {
    if options.NoOptions? || options.timeout.None? then DefaultTimeout else options.timeout.value
  }

  /** Options of the high-accuracy watch. */
  function HighAccuracyOptions(timeout: int): (o: PositionOptions)
    ensures o.enableHighAccuracy && o.timeout == timeout && o.maxAge == 0 && o.distanceFilter == Some(1)
  {
    PositionOptions(true, timeout, 0, Some(1))
  }

  /** Options of the one-shot low-accuracy request. */
  const LowAccuracyOptions: PositionOptions := PositionOptions(false, LowAccuracyTimeout, 0, None)

  /** `_getLowAccuracyPosition`: notify, then issue one one-shot request. */
  function LowAccuracyRequest(): (r: seq<Emission>)
    ensures |r| == 2 && r[0] == SearchLowAccuracy && r[1].GetCurrentPosition?
    ensures !r[1].options.enableHighAccuracy && r[1].options.timeout == 10000 && r[1].options.maxAge == 0
  {
    [SearchLowAccuracy, GetCurrentPosition(LowAccuracyOptions)]
  }

  /**
   * The synchronous part of `getLocation`: `watchId` is the handle the platform
   * returns from `watchPosition`.
   */
  function Start(options: Options, watchId: WatchId): (s: Session)
    ensures !s.highAccuracySuccess && !s.highAccuracyError
    ensures s.watchId == watchId && s.timeout == EffectiveTimeout(options)
    ensures |s.trace| == 3 && s.trace[0] == SearchHighAccuracy
    ensures s.trace[1] == WatchPosition(watchId, HighAccuracyOptions(s.timeout))
    ensures s.trace[2] == SetTimeout(s.timeout)
  {
    var timeout := EffectiveTimeout(options);
    Session(false, false, watchId, timeout,
      [SearchHighAccuracy, WatchPosition(watchId, HighAccuracyOptions(timeout)), SetTimeout(timeout)])
  }

  /** What the closure emits when an event reaches it. */
  function Emitted(s: Session, e: Event): (r: seq<Emission>)
    // a watch fix clears the watch, then reports high-accuracy success and the coordinate
    ensures e.WatchFix? ==> r == [ClearWatch(s.watchId), SuccessHighAccuracy, Success(e.coords)]
    // a watch error clears the watch and goes straight to low accuracy, never to onError
    ensures e.WatchError? ==> r == [ClearWatch(s.watchId)] + LowAccuracyRequest()
    ensures e.WatchError? ==> forall i :: 0 <= i < |r| ==> !IsTerminal(r[i])
    // the timer only acts while neither flag is set
    ensures e.TimerFire? ==> (r == [] <==> s.highAccuracySuccess || s.highAccuracyError)
    ensures e.TimerFire? && r != [] ==> r == [TimeoutHighAccuracy] + LowAccuracyRequest()
    // the low-accuracy answers
    ensures e.LowAccuracyFix? ==> r == [SuccessLowAccuracy, Success(e.coords)]
    ensures e.LowAccuracyError? ==> r == [Error(e.error)]
    // no event registers a second watch or arms a second timer
    ensures forall i :: 0 <= i < |r| ==> !r[i].WatchPosition? && !r[i].SetTimeout?
  {
    match e
    case WatchFix(c) => [ClearWatch(s.watchId), SuccessHighAccuracy, Success(c)]
    case WatchError(_) => [ClearWatch(s.watchId)] + LowAccuracyRequest()
    case TimerFire =>
      if !s.highAccuracySuccess && !s.highAccuracyError then [TimeoutHighAccuracy] + LowAccuracyRequest() else []
    case LowAccuracyFix(c) => [SuccessLowAccuracy, Success(c)]
    case LowAccuracyError(err) => [Error(err)]
  }

  /** The closure after an event: its flags, and the trace extended by what it emitted. */
  function Handle(s: Session, e: Event): (r: Session)
    ensures r.trace == s.trace + Emitted(s, e)
    ensures r.watchId == s.watchId && r.timeout == s.timeout
    ensures r.highAccuracySuccess == (s.highAccuracySuccess || e.WatchFix?)
    ensures r.highAccuracyError == (s.highAccuracyError || e.WatchError?)
  {
    match e
    case WatchFix(_) => s.(highAccuracySuccess := true, trace := s.trace + Emitted(s, e))
    case WatchError(_) => s.(highAccuracyError := true, trace := s.trace + Emitted(s, e))
    case _ => s.(trace := s.trace + Emitted(s, e))
  }

  /** A timer that fires after either flag is set changes nothing at all. */
  lemma LateTimerIsNoOp(s: Session)
    requires s.highAccuracySuccess || s.highAccuracyError
    ensures Handle(s, TimerFire) == s
  {
  }

  /** One call of `getLocation`, driven by the platform's callbacks. */
  class Acquisition {
    var highAccuracySuccess: bool
    var highAccuracyError: bool
    const watchId: WatchId
    const timeout: int
    var trace: seq<Emission>

    function State(): Session
      reads this
    {
      Session(highAccuracySuccess, highAccuracyError, watchId, timeout, trace)
    }

    /** The body of `getLocation` up to its return. */
    constructor (options: Options, handle: WatchId)
      ensures State() == Start(options, handle)
    {
      highAccuracySuccess := false;
      highAccuracyError := false;
      var t := if options.NoOptions? || options.timeout.None? then 10000 else options.timeout.value;
      timeout := t;
      watchId := handle;
      trace := [SearchHighAccuracy];
      trace := trace + [WatchPosition(handle, PositionOptions(true, t, 0, Some(1)))];
      trace := trace + [SetTimeout(t)];
    }

    /** `_getLowAccuracyPosition`. */
    method LowAccuracyPosition()
      modifies this`trace
      ensures trace == old(trace) + LowAccuracyRequest()
    {
      trace := trace + [SearchLowAccuracy];
      trace := trace + [GetCurrentPosition(PositionOptions(false, 10000, 0, None))];
    }

    /** The watch's success callback. */
    method OnWatchFix(coords: Coords)
      modifies this
      ensures State() == Handle(old(State()), WatchFix(coords))
    {
      highAccuracySuccess := true;
      trace := trace + [ClearWatch(watchId)];
      trace := trace + [SuccessHighAccuracy];
      trace := trace + [Success(coords)];
    }

    /** The watch's error callback. */
    method OnWatchError(error: PositionError)
      modifies this
      ensures State() == Handle(old(State()), WatchError(error))
    {
      highAccuracyError := true;
      trace := trace + [ClearWatch(watchId)];
      LowAccuracyPosition();
    }

    /** The `setTimeout` callback. */
    method OnTimer()
      modifies this
      ensures State() == Handle(old(State()), TimerFire)
    {
      if !highAccuracySuccess && !highAccuracyError {
        trace := trace + [TimeoutHighAccuracy];
        LowAccuracyPosition();
      }
    }

    /** Success callback of the low-accuracy `getCurrentPosition`. */
    method OnLowAccuracyFix(coords: Coords)
      modifies this
      ensures State() == Handle(old(State()), LowAccuracyFix(coords))
    {
      trace := trace + [SuccessLowAccuracy];
      trace := trace + [Success(coords)];
    }

    /** Error callback of the low-accuracy `getCurrentPosition`. */
    method OnLowAccuracyError(error: PositionError)
      modifies this
      ensures State() == Handle(old(State()), LowAccuracyError(error))
    {
      trace := trace + [Error(error)];
    }
  }
}
