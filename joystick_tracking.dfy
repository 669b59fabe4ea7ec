/**
 * The one joystick the application follows. It starts with none; an attach
 * notification opens the announced device only while none is tracked, and a
 * removal notification drops the tracked device only when it names that
 * device. A device is represented by its instance id; whether opening it
 * succeeds is decided by the joystick subsystem and is part of the
 * notification here.
 */
module JoystickTracking {
  import opened Options

  type JoystickId = nat

  /** A device notification, with the outcome opening the device would have. */
  datatype DeviceEvent =
    | Added(which: JoystickId, opens: bool)
    | Removed(which: JoystickId)

  /** The tracked device after an attach notification. */
  function AttachStep(tracked: Option<JoystickId>, which: JoystickId, opens: bool): (r: Option<JoystickId>)
    ensures tracked.Some? ==> r == tracked
    ensures tracked.None? ==> (r.Some? <==> opens) && (r.Some? ==> r.value == which)
  {
    if tracked.None? then (if opens then Some(which) else None) else tracked
  }

  /** The tracked device after a removal notification. */
  function RemoveStep(tracked: Option<JoystickId>, which: JoystickId): (r: Option<JoystickId>)
    ensures r.None? <==> tracked.None? || tracked.value == which
    ensures r.Some? ==> r == tracked
  {
    if tracked.Some? && tracked.value == which then None else tracked
  }

  function Step(tracked: Option<JoystickId>, e: DeviceEvent): (r: Option<JoystickId>)
  {
    match e
    case Added(which, opens) => AttachStep(tracked, which, opens)
    case Removed(which) => RemoveStep(tracked, which)
  }

  /** The tracked device after a run of notifications, starting from none. */
  function Track(evs: seq<DeviceEvent>): (r: Option<JoystickId>)
    decreases |evs|
  {
    if evs == [] then None else Step(Track(evs[..|evs| - 1]), evs[|evs| - 1])
  }

  /** Device `d` was opened at position `k` of `evs` and not removed since. */
  ghost predicate OpenedAndKept(evs: seq<DeviceEvent>, d: JoystickId, k: int)
  {
    0 <= k < |evs| && evs[k] == Added(d, true) && Track(evs[..k]) == None &&
    forall j :: k < j < |evs| ==> evs[j] != Removed(d)
  }

  /**
   * A device is tracked exactly when an attach notification for it arrived
   * while nothing was tracked, opening it succeeded, and no removal
   * notification for it has arrived since.
   */
  lemma {:induction false} TrackedIffOpenedAndKept(evs: seq<DeviceEvent>, d: JoystickId)
    ensures Track(evs) == Some(d) <==> exists k :: OpenedAndKept(evs, d, k)
    decreases |evs|
  {
    if evs == [] {
      return;
    }
    var n := |evs| - 1;
    var pre, e := evs[..n], evs[n];
    assert evs == pre + [e];
    TrackedIffOpenedAndKept(pre, d);
    // a witness before the last notification is a witness for the prefix, and back
    forall k | 0 <= k < n
      ensures OpenedAndKept(evs, d, k) <==> OpenedAndKept(pre, d, k) && e != Removed(d)
    {
      assert pre[..k] == evs[..k];
    }
    if Track(evs) == Some(d) {
      if Track(pre) == Some(d) {
        var k :| OpenedAndKept(pre, d, k);
        assert OpenedAndKept(evs, d, k);
      } else {
        assert OpenedAndKept(evs, d, n);
      }
    }
    if k :| OpenedAndKept(evs, d, k) {
      if k < n {
        assert OpenedAndKept(pre, d, k);
      }
    }
  }

  /** Successful SDL_OpenJoystick calls made while handling `evs`. */
  function Opened(evs: seq<DeviceEvent>): (n: nat)
    decreases |evs|
  {
    if evs == [] then 0
    else
      var pre, e := evs[..|evs| - 1], evs[|evs| - 1];
      Opened(pre) + (if Track(pre).None? && e.Added? && e.opens then 1 else 0)
  }

  /** SDL_CloseJoystick calls made while handling `evs`. */
  function Closed(evs: seq<DeviceEvent>): (n: nat)
    decreases |evs|
  {
    if evs == [] then 0
    else
      var pre, e := evs[..|evs| - 1], evs[|evs| - 1];
      Closed(pre) + (if Track(pre).Some? && e.Removed? && e.which == Track(pre).value then 1 else 0)
  }

  /**
   * At most one joystick is open at any time, and it is the tracked one:
   * every device opened has been closed again, except the one tracked now.
   */
  lemma {:induction false} OpenHandlesMatchTracking(evs: seq<DeviceEvent>)
    ensures Opened(evs) == Closed(evs) + (if Track(evs).Some? then 1 else 0)
    decreases |evs|
  {
    if evs != [] {
      OpenHandlesMatchTracking(evs[..|evs| - 1]);
    }
  }

  /**
   * A stick announced while another is tracked is not picked up when the
   * tracked one goes away: it stays untracked until it is announced again.
   */
  lemma SecondStickIgnoredAfterRemoval(first: JoystickId, second: JoystickId)
    requires first != second
    ensures Track([Added(first, true), Added(second, true), Removed(first)]) == None
  {
    var evs := [Added(first, true), Added(second, true), Removed(first)];
    assert evs[..2][..1][..0] == [];
    assert Track(evs[..2][..1]) == Some(first);
    assert evs[..2][..1] == evs[..1];
    assert Track(evs[..2]) == Some(first);
  }
}
