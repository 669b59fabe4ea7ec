/**
 * The controller application: the joystick it tracks, its MIDI output
 * connection and the selected output port, and what start-up, each incoming
 * event and the port combo do to them.
 */
module Console {
  import opened Options
  import opened ChannelVoice
  import opened MidiSink
  import opened JoystickTracking
  import opened PortSelection

  /** What a callback tells the application framework. */
  datatype AppResult = Continue | Success | Failure

  /**
   * How the event callback ends: it returns a result, or an error raised by
   * the MIDI connection escapes it uncaught, which ends the program.
   */
  datatype Outcome = Returned(result: AppResult) | Raised

  datatype Event =
    | Quit
    | JoystickAdded(which: JoystickId)
    | JoystickRemoved(which: JoystickId)
    | JoystickButtonDown(which: JoystickId, button: nat)
    | JoystickButtonUp(which: JoystickId, button: nat)
    | OtherEvent

  /** Sent on every button press: Note On, channel 1, key 64, velocity 90. */
  const PressMessage: seq<byte> := [0x90, 64, 90]

  /** Sent on every button release: the status and key of a Note Off, without a velocity byte. */
  const ReleaseMessage: seq<byte> := [0x80, 64]

  /** The press message is a complete Note On on channel 1 (zero-based 0) for key 64 at velocity 90. */
  lemma PressMessageIsNoteOn()
    ensures Decode(PressMessage) == Some(NoteOn(0, 64, 90))
    ensures PressMessage == Encode(NoteOn(0, 64, 90))
  {
  }

  /**
   * The release message is not a complete MIDI message: it is the Note Off
   * for key 64 on channel 1 with its velocity byte missing.
   */
  lemma ReleaseMessageLacksVelocity(velocity: DataByte)
    ensures Decode(ReleaseMessage) == None
    ensures ReleaseMessage + [velocity] == Encode(NoteOff(0, 64, velocity))
  {
  }

  class App {
    var joystick: Option<JoystickId>
    var midiout: MidiOut?
    var selectedPort: nat

    /** The program's state before start-up: no joystick, no connection, port 0 selected. */
    constructor ()
      ensures joystick == None && midiout == null && selectedPort == 0
    {
      joystick := None;
      midiout := null;
      selectedPort := 0;
    }

    /** The state every event handler may rely on once start-up has succeeded. */
    ghost predicate Valid()
      reads this, midiout
    {
      midiout != null &&
      selectedPort < midiout.portCount &&
      OpenIsSelected(Port(selectedPort, midiout.openPort))
    }

    ghost function PortState(): (p: Port)
      reads this, midiout
      requires midiout != null
    {
      Port(selectedPort, midiout.openPort)
    }

    /**
     * The MIDI part of start-up: create the output connection (`created` is
     * false when that raises an error), then fail when there is no output
     * port, otherwise open port 0 (`opens` is false when that raises an
     * error) and fail if the open failed.
     */
    method Init(created: bool, portCount: nat, opens: bool) returns (r: AppResult)
      requires midiout == null && selectedPort == 0
      modifies this
      ensures joystick == old(joystick) && selectedPort == old(selectedPort)
      ensures r == Continue || r == Failure
      ensures !created ==> r == Failure && midiout == null
      ensures created ==> midiout != null && fresh(midiout) && midiout.portCount == portCount
      ensures created && portCount == 0 ==> r == Failure && midiout.openPort == None && midiout.calls == []
      ensures created && portCount > 0 ==>
                midiout.calls == [OpenPortCall(0)] &&
                midiout.openPort == (if opens then Some(0) else None) &&
                (r == Continue <==> opens)
      ensures r == Continue ==> Valid() && midiout.openPort == Some(0)
    {
      if !created {
        return Failure;
      }
      midiout := new MidiOut(portCount);
      var nPorts := midiout.portCount;
      if nPorts == 0 {
        return Failure;
      }
      midiout.OpenPort(0, opens);
      if !opens {
        return Failure;
      }
      return Continue;
    }

    /** An attach notification: open the device only when none is tracked yet. */
    method OnJoystickAdded(which: JoystickId, opens: bool)
      modifies this
      ensures joystick == AttachStep(old(joystick), which, opens)
      ensures midiout == old(midiout) && selectedPort == old(selectedPort)
    {
      if joystick == None {
        joystick := if opens then Some(which) else None;
      }
    }

    /** A removal notification: forget the tracked device only when the notification names it. */
    method OnJoystickRemoved(which: JoystickId)
      modifies this
      ensures joystick == RemoveStep(old(joystick), which)
      ensures midiout == old(midiout) && selectedPort == old(selectedPort)
    {
      if joystick.Some? && joystick.value == which {
        joystick := None;
      }
    }

    /**
     * A button press on any joystick, whichever button: send the press
     * message. `sends` is false when the send raises an error, which nothing
     * catches.
     */
    method OnButtonDown(which: JoystickId, button: nat, sends: bool) returns (r: Outcome)
      requires midiout != null
      modifies midiout
      ensures r == (if sends then Returned(Continue) else Raised)
      ensures midiout.openPort == old(midiout.openPort)
      ensures midiout.calls == old(midiout.calls) + [SendMessageCall(PressMessage)]
      ensures Sent(midiout.calls) == Sent(old(midiout.calls)) + [PressMessage]
    {
      var message: seq<byte> := [];
      message := message + [0x90];
      message := message + [64];
      message := message + [90];
      assert message == PressMessage;
      midiout.SendMessage(message, sends);
      r := if sends then Returned(Continue) else Raised;
    }

    /**
     * A button release on any joystick, whichever button: send the release
     * message. `sends` is false when the send raises an error, which nothing
     * catches.
     */
    method OnButtonUp(which: JoystickId, button: nat, sends: bool) returns (r: Outcome)
      requires midiout != null
      modifies midiout
      ensures r == (if sends then Returned(Continue) else Raised)
      ensures midiout.openPort == old(midiout.openPort)
      ensures midiout.calls == old(midiout.calls) + [SendMessageCall(ReleaseMessage)]
      ensures Sent(midiout.calls) == Sent(old(midiout.calls)) + [ReleaseMessage]
    {
      var message: seq<byte> := [];
      message := message + [0x80];
      message := message + [64];
      assert message == ReleaseMessage;
      midiout.SendMessage(message, sends);
      r := if sends then Returned(Continue) else Raised;
    }

    /**
     * One incoming event. `opens` is what opening the announced joystick
     * would give and is consulted only for an attach notification; `sends`
     * is whether sending a message succeeds and is consulted only for a
     * button event.
     */
    method HandleEvent(e: Event, opens: bool, sends: bool) returns (r: Outcome)
      requires Valid()
      modifies this, midiout
      ensures Valid() && midiout == old(midiout)
      ensures r == (if e.Quit? then Returned(Success)
                    else if (e.JoystickButtonDown? || e.JoystickButtonUp?) && !sends then Raised
                    else Returned(Continue))
      ensures joystick == (match e
                           case JoystickAdded(which) => AttachStep(old(joystick), which, opens)
                           case JoystickRemoved(which) => RemoveStep(old(joystick), which)
                           case _ => old(joystick))
      ensures midiout.calls == old(midiout.calls) + (match e
                                                     case JoystickButtonDown(_, _) => [SendMessageCall(PressMessage)]
                                                     case JoystickButtonUp(_, _) => [SendMessageCall(ReleaseMessage)]
                                                     case _ => [])
      ensures PortState() == old(PortState())
    {
      r := Returned(Continue);
      match e
      case Quit =>
        r := Returned(Success);
      case JoystickAdded(which) =>
        OnJoystickAdded(which, opens);
      case JoystickRemoved(which) =>
        OnJoystickRemoved(which);
      case JoystickButtonDown(which, button) =>
        r := OnButtonDown(which, button, sends);
      case JoystickButtonUp(which, button) =>
        r := OnButtonUp(which, button, sends);
      case OtherEvent =>
    }

    /**
     * Entry `i` of the port combo was picked: when it is not the selected
     * port, select it, close the connection and try to open it; a failed
     * open is swallowed.
     */
    method OnPortPicked(i: nat, opens: bool)
      requires Valid() && i < midiout.portCount
      modifies this, midiout
      ensures Valid() && midiout == old(midiout) && joystick == old(joystick)
      ensures PortState() == Reselect(old(PortState()), i, opens)
      ensures midiout.calls == old(midiout.calls) + ReselectCalls(old(PortState()), i)
    {
      if i != selectedPort {
        selectedPort := i;
        midiout.ClosePort();
        midiout.OpenPort(selectedPort, opens);
      }
    }

    /**
     * One frame's walk over the port combo: `picked[i]` is whether entry `i`
     * was picked and `opens[i]` whether opening port `i` would succeed.
     */
    method ComboPass(picked: seq<bool>, opens: seq<bool>)
      requires Valid() && |picked| == midiout.portCount && |opens| == midiout.portCount
      modifies this, midiout
      ensures Valid() && midiout == old(midiout) && joystick == old(joystick)
      ensures PortState() == Combo(old(PortState()), picked, opens)
      ensures midiout.calls == old(midiout.calls) + ComboCalls(old(PortState()), picked, opens)
      ensures Sent(midiout.calls) == Sent(old(midiout.calls))
    {
      ghost var p0, calls0 := PortState(), midiout.calls;
      var i := 0;
      while i < midiout.portCount
        invariant Valid() && midiout == old(midiout) && joystick == old(joystick)
        invariant 0 <= i <= midiout.portCount == |picked|
        invariant PortState() == Combo(p0, picked[..i], opens[..i])
        invariant midiout.calls == calls0 + ComboCalls(p0, picked[..i], opens[..i])
      {
        assert picked[..i + 1][..i] == picked[..i] && opens[..i + 1][..i] == opens[..i];
        if picked[i] {
          OnPortPicked(i, opens[i]);
        }
        i := i + 1;
      }
      assert picked[..i] == picked && opens[..i] == opens;
      ComboSendsNothing(p0, picked, opens);
      SentAppend(calls0, ComboCalls(p0, picked, opens));
    }
  }

  /** The event the framework delivers for a device notification. */
  function DeviceNotification(d: DeviceEvent): (e: Event)
    ensures e.JoystickAdded? <==> d.Added?
    ensures e.JoystickAdded? || e.JoystickRemoved?
    ensures e.which == d.which
  {
    match d
    case Added(which, _) => JoystickAdded(which)
    case Removed(which) => JoystickRemoved(which)
  }

  /**
   * The framework delivering a run of device notifications to the event
   * callback one after another, from start-up on: the tracked joystick ends
   * as `Track` says, every call continues, and the connection and port
   * selection are untouched.
   */
  method RunDeviceEvents(app: App, evs: seq<DeviceEvent>)
    requires app.Valid() && app.joystick == None
    modifies app, app.midiout
    ensures app.Valid() && app.midiout == old(app.midiout)
    ensures app.joystick == Track(evs)
    ensures app.PortState() == old(app.PortState()) && app.midiout.calls == old(app.midiout.calls)
  {
    for i := 0 to |evs|
      invariant app.Valid() && app.midiout == old(app.midiout)
      invariant app.joystick == Track(evs[..i])
      invariant app.PortState() == old(app.PortState()) && app.midiout.calls == old(app.midiout.calls)
    {
      var opens := evs[i].Added? && evs[i].opens;
      var r := app.HandleEvent(DeviceNotification(evs[i]), opens, true);
      assert r == Returned(Continue);
      assert evs[..i + 1][..i] == evs[..i];
    }
    assert evs[..|evs|] == evs;
  }
}
