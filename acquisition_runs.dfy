/**
 * The platform around one `getLocation` call, and what can happen over any
 * order of its callbacks. The platform keeps the registered watch, the armed
 * timer and the number of unanswered one-shot requests; it reacts to the
 * platform calls the closure emits, and it can only deliver a callback that
 * one of them still owes: watch events while the watch is registered, the
 * timer once, one answer per one-shot request. The single-threaded event loop
 * makes every interleaving a sequence of such deliveries.
 */
module AcquisitionRuns {
  import opened LocationUtils

  datatype Platform = Platform(watchActive: bool, timerPending: bool, pendingRequests: nat)

  datatype World = World(session: Session, platform: Platform)

  /** The platform's reaction to one emission. */
  function Apply(p: Platform, e: Emission): Platform
  {
    match e
    case WatchPosition(_, _) => p.(watchActive := true)
    case ClearWatch(_) => p.(watchActive := false)
    case SetTimeout(_) => p.(timerPending := true)
    case GetCurrentPosition(_) => p.(pendingRequests := p.pendingRequests + 1)
    case _ => p
  }

  /** The platform's reaction to a sequence of emissions, in order. */
  function Perform(p: Platform, es: seq<Emission>): Platform
    decreases |es|
  {
    if es == [] then p else Perform(Apply(p, es[0]), es[1..])
  }

  /** Whether the platform still owes this callback. */
  predicate Enabled(p: Platform, e: Event)
  {
    match e
    case WatchFix(_) => p.watchActive
    case WatchError(_) => p.watchActive
    case TimerFire => p.timerPending
    case LowAccuracyFix(_) => p.pendingRequests > 0
    case LowAccuracyError(_) => p.pendingRequests > 0
  }

  /** Delivering a callback uses it up (a watch stays registered until cleared). */
  function Consume(p: Platform, e: Event): Platform
    requires Enabled(p, e)
  {
    match e
    case TimerFire => p.(timerPending := false)
    case LowAccuracyFix(_) => p.(pendingRequests := p.pendingRequests - 1)
    case LowAccuracyError(_) => p.(pendingRequests := p.pendingRequests - 1)
    case _ => p
  }

  /** `getLocation` has returned: the watch is registered and the timer armed. */
  function Begin(options: Options, watchId: WatchId): World
  {
    var s := Start(options, watchId);
    World(s, Perform(Platform(false, false, 0), s.trace))
  }

  function Deliver(w: World, e: Event): World
    requires Enabled(w.platform, e)
  {
    World(Handle(w.session, e), Perform(Consume(w.platform, e), Emitted(w.session, e)))
  }

  predicate Feasible(w: World, events: seq<Event>)
    decreases |events|
  {
    events == [] || (Enabled(w.platform, events[0]) && Feasible(Deliver(w, events[0]), events[1..]))
  }

  function Run(w: World, events: seq<Event>): World
    requires Feasible(w, events)
    decreases |events|
  {
    if events == [] then w else Run(Deliver(w, events[0]), events[1..])
  }

  /** Nothing is owed any more: the watch is cleared, the timer fired, every request answered. */
  predicate Quiescent(w: World)
  {
    !w.platform.watchActive && !w.platform.timerPending && w.platform.pendingRequests == 0
  }

  // ---- counting emissions ----

  function CountWhere(t: seq<Emission>, f: Emission -> bool): nat
    decreases |t|
  {
    if t == [] then 0 else CountWhere(t[..|t| - 1], f) + (if f(t[|t| - 1]) then 1 else 0)
  }

  lemma {:induction false} CountAppend(a: seq<Emission>, b: seq<Emission>, f: Emission -> bool)
    ensures CountWhere(a + b, f) == CountWhere(a, f) + CountWhere(b, f)
    decreases |b|
  {
    if b == [] {
      assert a + b == a;
    } else {
      var b' := b[..|b| - 1];
      assert (a + b)[..|a + b| - 1] == a + b';
      CountAppend(a, b', f);
    }
  }

  predicate IsLowSearch(e: Emission) { e.SearchLowAccuracy? }
  predicate IsTimeoutNotice(e: Emission) { e.TimeoutHighAccuracy? }
  predicate IsWatchRegistration(e: Emission) { e.WatchPosition? }

  /** Number of `onSuccess` / `onError` calls. */
  function Terminals(t: seq<Emission>): nat { CountWhere(t, IsTerminal) }
  /** Number of times the low-accuracy path was entered. */
  function LowSearches(t: seq<Emission>): nat { CountWhere(t, IsLowSearch) }
  /** Number of `onTimeoutHighAccuracy` calls. */
  function Timeouts(t: seq<Emission>): nat { CountWhere(t, IsTimeoutNotice) }
  /** Number of `watchPosition` calls. */
  function Watches(t: seq<Emission>): nat { CountWhere(t, IsWatchRegistration) }

  // ---- measures ----

  /** 1 when the condition holds, else 0. */
  function CountIf(b: bool): nat { if b then 1 else 0 }

  /** The timer is armed and would still act when it fires. */
  predicate TimerLive(w: World)
  {
    w.platform.timerPending && !w.session.highAccuracySuccess && !w.session.highAccuracyError
  }

  /** Callbacks that can still produce an outcome: the watch and each unanswered request. */
  function Outstanding(w: World): nat
  {
    w.platform.pendingRequests + CountIf(w.platform.watchActive)
  }

  /** Outcomes reported plus outcomes that can still be reported: never grows. */
  function ResolutionBudget(w: World): nat
  {
    Terminals(w.session.trace) + Outstanding(w) + CountIf(TimerLive(w))
  }

  /** Outcomes reported plus outcomes still owed: never shrinks. */
  function ResolutionFloor(w: World): nat
  {
    Terminals(w.session.trace) + Outstanding(w)
  }

  /**
   * Outcomes reported plus answers still owed to requests plus a live timer:
   * never shrinks. Unlike `ResolutionFloor` it does not count on the watch,
   * which the timeout path leaves registered.
   */
  function AnswerFloor(w: World): nat
  {
    Terminals(w.session.trace) + w.platform.pendingRequests + CountIf(TimerLive(w))
  }

  /** Low-accuracy paths entered plus those that could still be entered: never grows. */
  function FallbackBudget(w: World): nat
  {
    LowSearches(w.session.trace) + CountIf(w.platform.watchActive) + CountIf(TimerLive(w))
  }

  /** Timeout notices given plus those that could still be given: never grows. */
  function TimeoutBudget(w: World): nat
  {
    Timeouts(w.session.trace) + CountIf(TimerLive(w))
  }

  lemma PerformSteps(p: Platform, es: seq<Emission>)
    ensures es == [] ==> Perform(p, es) == p
    ensures |es| == 1 ==> Perform(p, es) == Apply(p, es[0])
    ensures |es| == 2 ==> Perform(p, es) == Apply(Apply(p, es[0]), es[1])
    ensures |es| == 3 ==> Perform(p, es) == Apply(Apply(Apply(p, es[0]), es[1]), es[2])
  {
    if 1 <= |es| <= 3 {
      var p1 := Apply(p, es[0]);
      assert Perform(p, es) == Perform(p1, es[1..]);
      if |es| == 1 {
        assert es[1..] == [];
      } else {
        var p2 := Apply(p1, es[1]);
        assert Perform(p1, es[1..]) == Perform(p2, es[2..]) by { assert es[1..][1..] == es[2..]; }
        if |es| == 2 {
          assert es[2..] == [];
        } else {
          assert Perform(p2, es[2..]) == Perform(Apply(p2, es[2]), es[3..]) by { assert es[2..][1..] == es[3..]; }
          assert es[3..] == [];
        }
      }
    }
  }

  /** The platform after `getLocation` returned: the watch and the timer are live. */
  lemma BeginState(options: Options, watchId: WatchId)
    ensures Begin(options, watchId).platform == Platform(true, true, 0)
    ensures Begin(options, watchId).session == Start(options, watchId)
  {
    PerformSteps(Platform(false, false, 0), Start(options, watchId).trace);
  }

  /** The platform's bookkeeping for each delivered event. */
  lemma DeliverPlatform(w: World, e: Event)
    requires Enabled(w.platform, e)
    ensures var p := w.platform; var q := Deliver(w, e).platform;
      match e
      case WatchFix(_) => q == p.(watchActive := false)
      case WatchError(_) => q == p.(watchActive := false, pendingRequests := p.pendingRequests + 1)
      case TimerFire =>
        if TimerLive(w) then q == p.(timerPending := false, pendingRequests := p.pendingRequests + 1)
        else q == p.(timerPending := false)
      case LowAccuracyFix(_) => q == p.(pendingRequests := p.pendingRequests - 1)
      case LowAccuracyError(_) => q == p.(pendingRequests := p.pendingRequests - 1)
  {
    PerformSteps(Consume(w.platform, e), Emitted(w.session, e));
  }

  /** Counting what one event emits. */
  lemma EmittedCounts(s: Session, e: Event)
    ensures var out := Emitted(s, e);
      && Terminals(out) == (if e.WatchFix? || e.LowAccuracyFix? || e.LowAccuracyError? then 1 else 0)
      && LowSearches(out) == (if e.WatchError? || (e.TimerFire? && !s.highAccuracySuccess && !s.highAccuracyError) then 1 else 0)
      && Timeouts(out) == (if e.TimerFire? && !s.highAccuracySuccess && !s.highAccuracyError then 1 else 0)
      && Watches(out) == 0
  {
    var out := Emitted(s, e);
    CountSmall(out, IsTerminal);
    CountSmall(out, IsLowSearch);
    CountSmall(out, IsTimeoutNotice);
    CountSmall(out, IsWatchRegistration);
  }

  /** How the four counters move over one delivered event. */
  lemma DeliverCounts(w: World, e: Event)
    requires Enabled(w.platform, e)
    ensures var t := w.session.trace; var t' := Deliver(w, e).session.trace;
      && Terminals(t') == Terminals(t) + (if e.WatchFix? || e.LowAccuracyFix? || e.LowAccuracyError? then 1 else 0)
      && LowSearches(t') == LowSearches(t) + (if e.WatchError? || (e.TimerFire? && TimerLive(w)) then 1 else 0)
      && Timeouts(t') == Timeouts(t) + (if e.TimerFire? && TimerLive(w) then 1 else 0)
      && Watches(t') == Watches(t)
  {
    var out := Emitted(w.session, e);
    CountAppend(w.session.trace, out, IsTerminal);
    CountAppend(w.session.trace, out, IsLowSearch);
    CountAppend(w.session.trace, out, IsTimeoutNotice);
    CountAppend(w.session.trace, out, IsWatchRegistration);
    EmittedCounts(w.session, e);
  }

  /** Counting in an emission list of at most three elements. */
  lemma CountSmall(es: seq<Emission>, f: Emission -> bool)
    requires |es| <= 3
    ensures CountWhere(es, f) ==
      (if |es| > 0 && f(es[0]) then 1 else 0) + (if |es| > 1 && f(es[1]) then 1 else 0)
      + (if |es| > 2 && f(es[2]) then 1 else 0)
  {
    if |es| > 0 {
      var e1 := es[..|es| - 1];
      if |e1| > 0 {
        var e2 := e1[..|e1| - 1];
        if |e2| > 0 {
          assert e2[..|e2| - 1] == [];
        }
      }
    }
  }

  // ---- one delivery, then any run ----

  /** One delivered event moves every measure the right way. */
  lemma DeliverMeasures(w: World, e: Event)
    requires Enabled(w.platform, e)
    ensures var w' := Deliver(w, e);
      && w.session.trace <= w'.session.trace
      && ResolutionBudget(w') <= ResolutionBudget(w)
      && ResolutionFloor(w') >= ResolutionFloor(w)
      && AnswerFloor(w') >= AnswerFloor(w)
      && FallbackBudget(w') <= FallbackBudget(w)
      && TimeoutBudget(w') <= TimeoutBudget(w)
      && Terminals(w'.session.trace) >= Terminals(w.session.trace)
      && LowSearches(w'.session.trace) >= LowSearches(w.session.trace)
      && Timeouts(w'.session.trace) >= Timeouts(w.session.trace)
      && Watches(w'.session.trace) == Watches(w.session.trace)
  {
    DeliverPlatform(w, e);
    DeliverCounts(w, e);
  }

  /** Over any feasible run the budgets only shrink, the floor and the counters only grow. */
  lemma {:induction false} RunMeasures(w: World, events: seq<Event>)
    requires Feasible(w, events)
    ensures var w' := Run(w, events);
      && w.session.trace <= w'.session.trace
      && ResolutionBudget(w') <= ResolutionBudget(w)
      && ResolutionFloor(w') >= ResolutionFloor(w)
      && AnswerFloor(w') >= AnswerFloor(w)
      && FallbackBudget(w') <= FallbackBudget(w)
      && TimeoutBudget(w') <= TimeoutBudget(w)
      && Terminals(w'.session.trace) >= Terminals(w.session.trace)
      && LowSearches(w'.session.trace) >= LowSearches(w.session.trace)
      && Timeouts(w'.session.trace) >= Timeouts(w.session.trace)
      && Watches(w'.session.trace) == Watches(w.session.trace)
    decreases |events|
  {
    if events != [] {
      DeliverMeasures(w, events[0]);
      RunMeasures(Deliver(w, events[0]), events[1..]);
    }
  }

  /** Once nothing can produce an outcome and the timer is inert, nothing more is ever emitted. */
  lemma {:induction false} SettledRunsEmitNothing(w: World, events: seq<Event>)
    requires Feasible(w, events)
    requires Outstanding(w) == 0 && !TimerLive(w)
    ensures Run(w, events).session.trace == w.session.trace
    decreases |events|
  {
    if events != [] {
      var e := events[0];
      assert e.TimerFire?;
      DeliverPlatform(w, e);
      SettledRunsEmitNothing(Deliver(w, e), events[1..]);
    }
  }

  lemma StartCounts(options: Options, watchId: WatchId)
    ensures var t := Start(options, watchId).trace;
      Terminals(t) == 0 && LowSearches(t) == 0 && Timeouts(t) == 0 && Watches(t) == 1
  {
    var t := Start(options, watchId).trace;
    CountSmall(t, IsTerminal);
    CountSmall(t, IsLowSearch);
    CountSmall(t, IsTimeoutNotice);
    CountSmall(t, IsWatchRegistration);
  }

  lemma RunCons(w: World, e: Event, events: seq<Event>)
    requires Feasible(w, [e] + events)
    ensures Enabled(w.platform, e) && Feasible(Deliver(w, e), events)
    ensures Run(w, [e] + events) == Run(Deliver(w, e), events)
  {
    assert ([e] + events)[0] == e && ([e] + events)[1..] == events;
  }

  // ---- what any order of callbacks yields ----

  /**
   * Whatever the order of callbacks: exactly one watch is registered, the
   * timeout is notified at most once, the low-accuracy path is entered at most
   * twice, and at most two outcomes reach the caller. Once the timer is inert
   * and every one-shot request is answered, at least one outcome has been
   * reported, even when the watch is still registered; in particular once
   * nothing at all is owed.
   */
  lemma {:induction false} AcquisitionBounds(options: Options, watchId: WatchId, events: seq<Event>)
    requires Feasible(Begin(options, watchId), events)
    ensures var w := Run(Begin(options, watchId), events); var t := w.session.trace;
      && Watches(t) == 1
      && Timeouts(t) <= 1
      && LowSearches(t) <= 2
      && Terminals(t) <= 2
      && (!TimerLive(w) && w.platform.pendingRequests == 0 ==> Terminals(t) >= 1)
      && (Quiescent(w) ==> Terminals(t) >= 1)
  {
    BeginState(options, watchId);
    StartCounts(options, watchId);
    RunMeasures(Begin(options, watchId), events);
  }

  /**
   * A watch fix that arrives first settles the acquisition: the watch is
   * cleared, high-accuracy success and the coordinate are reported, and
   * nothing else is ever emitted (no low-accuracy path, no timeout notice).
   */
  lemma {:induction false} WatchFixFirst(options: Options, watchId: WatchId, c: Coords, events: seq<Event>)
    requires Feasible(Begin(options, watchId), [WatchFix(c)] + events)
    ensures Run(Begin(options, watchId), [WatchFix(c)] + events).session.trace
      == Start(options, watchId).trace + [ClearWatch(watchId), SuccessHighAccuracy, Success(c)]
  {
    var w0 := Begin(options, watchId);
    BeginState(options, watchId);
    RunCons(w0, WatchFix(c), events);
    DeliverPlatform(w0, WatchFix(c));
    SettledRunsEmitNothing(Deliver(w0, WatchFix(c)), events);
  }

  /**
   * A watch error that arrives first clears the watch and enters the
   * low-accuracy path at once; afterwards the timeout is never notified, the
   * low-accuracy path is entered exactly once, at most one outcome reaches the
   * caller, and exactly one once nothing is owed.
   */
  lemma {:induction false} WatchErrorFirst(options: Options, watchId: WatchId, err: PositionError, events: seq<Event>)
    requires Feasible(Begin(options, watchId), [WatchError(err)] + events)
    ensures var w := Run(Begin(options, watchId), [WatchError(err)] + events); var t := w.session.trace;
      && Start(options, watchId).trace + [ClearWatch(watchId)] + LowAccuracyRequest() <= t
      && Timeouts(t) == 0
      && LowSearches(t) == 1
      && Terminals(t) <= 1
      && (Quiescent(w) ==> Terminals(t) == 1)
  {
    var w0 := Begin(options, watchId);
    BeginState(options, watchId);
    StartCounts(options, watchId);
    RunCons(w0, WatchError(err), events);
    var w1 := Deliver(w0, WatchError(err));
    DeliverPlatform(w0, WatchError(err));
    DeliverCounts(w0, WatchError(err));
    RunMeasures(w1, events);
  }

  /**
   * A timer that fires first notifies the timeout and enters the low-accuracy
   * path, but leaves the watch registered; the timeout is notified exactly
   * once however the run continues.
   */
  lemma {:induction false} TimerFirst(options: Options, watchId: WatchId, events: seq<Event>)
    requires Feasible(Begin(options, watchId), [TimerFire] + events)
    ensures Deliver(Begin(options, watchId), TimerFire).platform.watchActive
    ensures var t := Run(Begin(options, watchId), [TimerFire] + events).session.trace;
      && Start(options, watchId).trace + [TimeoutHighAccuracy] + LowAccuracyRequest() <= t
      && Timeouts(t) == 1
  {
    var w0 := Begin(options, watchId);
    BeginState(options, watchId);
    StartCounts(options, watchId);
    RunCons(w0, TimerFire, events);
    var w1 := Deliver(w0, TimerFire);
    DeliverPlatform(w0, TimerFire);
    DeliverCounts(w0, TimerFire);
    RunMeasures(w1, events);
  }

  /**
   * As written, a watch fix arriving after the timeout still reports success,
   * and the low-accuracy answer reports a second one: two `onSuccess` calls.
   */
  lemma LateWatchFixReportsTwice(options: Options, watchId: WatchId, c1: Coords, c2: Coords)
    ensures var events := [TimerFire, WatchFix(c1), LowAccuracyFix(c2)];
      && Feasible(Begin(options, watchId), events)
      && var w := Run(Begin(options, watchId), events);
      && Quiescent(w)
      && w.session.trace == Start(options, watchId).trace
           + [TimeoutHighAccuracy, SearchLowAccuracy, GetCurrentPosition(LowAccuracyOptions)]
           + [ClearWatch(watchId), SuccessHighAccuracy, Success(c1)]
           + [SuccessLowAccuracy, Success(c2)]
      && Terminals(w.session.trace) == 2
  {
    var w0 := Begin(options, watchId);
    BeginState(options, watchId);
    StartCounts(options, watchId);
    var w1 := Deliver(w0, TimerFire);
    DeliverPlatform(w0, TimerFire);
    DeliverCounts(w0, TimerFire);
    var w2 := Deliver(w1, WatchFix(c1));
    DeliverPlatform(w1, WatchFix(c1));
    DeliverCounts(w1, WatchFix(c1));
    var w3 := Deliver(w2, LowAccuracyFix(c2));
    DeliverPlatform(w2, LowAccuracyFix(c2));
    DeliverCounts(w2, LowAccuracyFix(c2));
    var events := [TimerFire, WatchFix(c1), LowAccuracyFix(c2)];
    assert events[1..] == [WatchFix(c1), LowAccuracyFix(c2)];
    assert events[1..][1..] == [LowAccuracyFix(c2)];
    assert events[1..][1..][1..] == [];
    assert Feasible(w3, []) && Run(w3, []) == w3;
    assert Feasible(w2, events[1..][1..]) && Run(w2, events[1..][1..]) == w3;
    assert Feasible(w1, events[1..]) && Run(w1, events[1..]) == w3;
    assert Feasible(w0, events) && Run(w0, events) == w3;
  }

  /**
   * As written, a watch error arriving after the timeout enters the
   * low-accuracy path a second time: two one-shot requests, and two `onError`
   * calls when both fail.
   */
  lemma WatchErrorAfterTimeoutFallsBackTwice(options: Options, watchId: WatchId, e1: PositionError, e2: PositionError, e3: PositionError)
    ensures var events := [TimerFire, WatchError(e1), LowAccuracyError(e2), LowAccuracyError(e3)];
      && Feasible(Begin(options, watchId), events)
      && var w := Run(Begin(options, watchId), events);
      && Quiescent(w)
      && LowSearches(w.session.trace) == 2
      && Terminals(w.session.trace) == 2
      && w.session.trace == Start(options, watchId).trace
           + [TimeoutHighAccuracy, SearchLowAccuracy, GetCurrentPosition(LowAccuracyOptions)]
           + [ClearWatch(watchId), SearchLowAccuracy, GetCurrentPosition(LowAccuracyOptions)]
           + [Error(e2), Error(e3)]
  {
    var w0 := Begin(options, watchId);
    BeginState(options, watchId);
    StartCounts(options, watchId);
    var w1 := Deliver(w0, TimerFire);
    DeliverPlatform(w0, TimerFire);
    DeliverCounts(w0, TimerFire);
    var w2 := Deliver(w1, WatchError(e1));
    DeliverPlatform(w1, WatchError(e1));
    DeliverCounts(w1, WatchError(e1));
    var w3 := Deliver(w2, LowAccuracyError(e2));
    DeliverPlatform(w2, LowAccuracyError(e2));
    DeliverCounts(w2, LowAccuracyError(e2));
    var w4 := Deliver(w3, LowAccuracyError(e3));
    DeliverPlatform(w3, LowAccuracyError(e3));
    DeliverCounts(w3, LowAccuracyError(e3));
    var events := [TimerFire, WatchError(e1), LowAccuracyError(e2), LowAccuracyError(e3)];
    assert events[1..] == [WatchError(e1), LowAccuracyError(e2), LowAccuracyError(e3)];
    assert events[1..][1..] == [LowAccuracyError(e2), LowAccuracyError(e3)];
    assert events[1..][1..][1..] == [LowAccuracyError(e3)];
    assert events[1..][1..][1..][1..] == [];
    assert Feasible(w4, []) && Run(w4, []) == w4;
    assert Feasible(w3, events[1..][1..][1..]) && Run(w3, events[1..][1..][1..]) == w4;
    assert Feasible(w2, events[1..][1..]) && Run(w2, events[1..][1..]) == w4;
    assert Feasible(w1, events[1..]) && Run(w1, events[1..]) == w4;
    assert Feasible(w0, events) && Run(w0, events) == w4;
  }
}
