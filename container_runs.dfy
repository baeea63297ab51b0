/**
 * What holds of the component over any sequence of events: stealth mode is
 * only ever switched on, and only by Cancel; the stored position always comes
 * from an acquisition fix stamped with its arrival time; the stored permission
 * is always an oracle answer; the dialog only opens for an undetermined
 * permission or a disabled location setting.
 */
module ContainerRuns {
  import opened Wrappers
  import opened LocationStore
  import LocationUtils
  import opened LocationContainer

  /** The component's state after the events, in order. */
  function Drive(c: ContainerState, props: Props, events: seq<Event>): ContainerState
    decreases |events|
  {
    if events == [] then c else Drive(Step(c, props, events[0]).state, props, events[1..])
  }

  /** The actions the events start, in order. */
  function Actions(c: ContainerState, props: Props, events: seq<Event>): (r: seq<LocationContainer.Action>)
    ensures |r| == |events|
    decreases |events|
  {
    if events == [] then []
    else
      var o := Step(c, props, events[0]);
      [o.action] + Actions(o.state, props, events[1..])
  }

  /** Stealth mode, once on, stays on; and it only comes on through a Cancel. */
  lemma {:induction false} StealthModeOnlyByCancel(c: ContainerState, props: Props, events: seq<Event>)
    ensures c.location.stealthMode ==> Drive(c, props, events).location.stealthMode
    ensures Drive(c, props, events).location.stealthMode ==> c.location.stealthMode || CancelPressed in events
    decreases |events|
  {
    if events != [] {
      StealthModeOnlyByCancel(Step(c, props, events[0]).state, props, events[1..]);
      assert events == [events[0]] + events[1..];
    }
  }

  /** The position from a fix that arrived at instant `now`. */
  function FixPosition(e: Event): Position
    requires e.LocationFix?
  {
    Position(e.coords.latitude, e.coords.longitude, e.now)
  }

  /** The stored position is the old one or the one built from some fix in the run. */
  lemma {:induction false} PositionComesFromFix(c: ContainerState, props: Props, events: seq<Event>)
    ensures var p := Drive(c, props, events).location.position;
      p == c.location.position ||
      exists i :: 0 <= i < |events| && events[i].LocationFix? && p == Some(FixPosition(events[i]))
    decreases |events|
  {
    if events != [] {
      var c1 := Step(c, props, events[0]).state;
      PositionComesFromFix(c1, props, events[1..]);
      var p := Drive(c, props, events).location.position;
      if p == c1.location.position {
        if events[0].LocationFix? {
          assert p == Some(FixPosition(events[0]));
        }
      } else {
        var i :| 0 <= i < |events[1..]| && events[1..][i].LocationFix? && p == Some(FixPosition(events[1..][i]));
        assert events[i + 1] == events[1..][i];
      }
    }
  }

  /** Whether an event carries a permission answer from the oracle. */
  predicate Answers(e: Event, p: Permission)
  {
    (e.PermissionCheckResolved? || e.PermissionRequestResolved?) && e.response == p
  }

  /** The stored permission is the old one or some oracle answer the component received. */
  lemma {:induction false} PermissionComesFromOracle(c: ContainerState, props: Props, events: seq<Event>)
    ensures var p := Drive(c, props, events).location.permission;
      p == c.location.permission || (p.Some? && exists i :: 0 <= i < |events| && Answers(events[i], p.value))
    decreases |events|
  {
    if events != [] {
      var c1 := Step(c, props, events[0]).state;
      PermissionComesFromOracle(c1, props, events[1..]);
      var p := Drive(c, props, events).location.permission;
      if p == c1.location.permission {
        if p != c.location.permission {
          assert Answers(events[0], p.value);
        }
      } else {
        var i :| 0 <= i < |events[1..]| && Answers(events[1..][i], p.value);
        assert events[i + 1] == events[1..][i];
      }
    }
  }

  /** The last oracle answer among the events, or `d` when there is none. */
  function LastAnswer(events: seq<Event>, d: Option<Permission>): Option<Permission>
  {
    if events == [] then d
    else
      var last := events[|events| - 1];
      if last.PermissionCheckResolved? || last.PermissionRequestResolved? then Some(last.response)
      else LastAnswer(events[..|events| - 1], d)
  }

  lemma {:induction false} DriveSnoc(c: ContainerState, props: Props, events: seq<Event>, e: Event)
    ensures Drive(c, props, events + [e]) == Step(Drive(c, props, events), props, e).state
    decreases |events|
  {
    if events == [] {
      assert [e][1..] == [];
    } else {
      assert (events + [e])[1..] == events[1..] + [e];
      DriveSnoc(Step(c, props, events[0]).state, props, events[1..], e);
    }
  }

  /** The stored permission is exactly the last oracle answer received, or the old one when none arrived. */
  lemma {:induction false} PermissionIsLastAnswer(c: ContainerState, props: Props, events: seq<Event>)
    ensures Drive(c, props, events).location.permission == LastAnswer(events, c.location.permission)
    decreases |events|
  {
    if events != [] {
      var init := events[..|events| - 1];
      assert events == init + [events[|events| - 1]];
      DriveSnoc(c, props, init, events[|events| - 1]);
      PermissionIsLastAnswer(c, props, init);
    }
  }

  /** Whether an event can open the dialog. */
  predicate OpensDialog(e: Event)
  {
    e == PermissionCheckResolved(Undetermined) || (e.SettingResolved? && !e.enabled)
  }

  /** A dialog that is visible was visible before or was opened by an undetermined answer or a disabled setting. */
  lemma {:induction false} DialogOpensForACause(c: ContainerState, props: Props, events: seq<Event>)
    ensures Drive(c, props, events).showLocationDialog ==>
      c.showLocationDialog || exists i :: 0 <= i < |events| && OpensDialog(events[i])
    decreases |events|
  {
    if events != [] {
      var c1 := Step(c, props, events[0]).state;
      DialogOpensForACause(c1, props, events[1..]);
      if Drive(c, props, events).showLocationDialog && !c.showLocationDialog {
        if c1.showLocationDialog {
          assert OpensDialog(events[0]);
        } else {
          var i :| 0 <= i < |events[1..]| && OpensDialog(events[1..][i]);
          assert events[i + 1] == events[1..][i];
        }
      }
    }
  }

  /** Once in stealth mode, a disabled setting never opens the dialog. */
  lemma StealthSuppressesSettingsDialog(c: ContainerState, props: Props, now: int)
    requires c.location.stealthMode
    ensures LocationSetting(c, props, false, now) == Outcome(c, NoAction)
  {
  }

  /**
   * A fix stored at instant t is served from the cache on a later enabled
   * setting check at `now` exactly when now - t < maxAge; otherwise a new
   * acquisition starts with the configured timeout.
   */
  lemma FixIsCachedForMaxAge(c: ContainerState, props: Props, coords: LocationUtils.Coords, t: int, now: int)
    ensures var events := [LocationFix(coords, t), SettingResolved(true, now)];
      var a := Actions(c, props, events)[1];
      && (a.ReturnCached? <==> now - t < props.maxAge)
      && (a.ReturnCached? ==> a.position == Position(coords.latitude, coords.longitude, t))
      && (!a.ReturnCached? ==> a == Acquire(LocationUtils.Options(Some(props.highAccuracyTimeout))))
  {
    var events := [LocationFix(coords, t), SettingResolved(true, now)];
    var c1 := Step(c, props, events[0]).state;
    assert events[1..] == [SettingResolved(true, now)];
    assert events[1..][1..] == [];
    assert Actions(c, props, events)[1] == Step(c1, props, SettingResolved(true, now)).action;
  }

  /**
   * A first mount with unknown permission, answered 'authorized', with the
   * location setting enabled and no cached position, ends in an acquisition
   * with the configured timeout, the answer stored and no dialog.
   */
  lemma AuthorizedMountAcquires(props: Props, now: int)
    ensures var c0 := ContainerState(Initial(), false);
      var events := [Mounted, PermissionCheckResolved(Authorized), SettingResolved(true, now)];
      && Actions(c0, props, events) == [CheckPermission, CheckSettings,
           Acquire(LocationUtils.Options(Some(props.highAccuracyTimeout)))]
      && Drive(c0, props, events) == ContainerState(LocationState(Some(Authorized), None, false), false)
  {
    var c0 := ContainerState(Initial(), false);
    var events := [Mounted, PermissionCheckResolved(Authorized), SettingResolved(true, now)];
    assert events[1..] == [PermissionCheckResolved(Authorized), SettingResolved(true, now)];
    assert events[1..][1..] == [SettingResolved(true, now)];
    assert events[1..][1..][1..] == [];
    var c2 := PermissionChecked(c0, Authorized).state;
    assert c2 == ContainerState(LocationState(Some(Authorized), None, false), false);
    var a3 := CurrentLocation(c2.location, props, now);
    assert a3 == Acquire(LocationUtils.Options(Some(props.highAccuracyTimeout)));
    assert Drive(c2, props, events[1..][1..]) == c2;
    assert Actions(c2, props, events[1..][1..]) == [a3];
    assert Drive(c0, props, events[1..]) == c2;
    assert Actions(c0, props, events[1..]) == [CheckSettings, a3];
  }
}
