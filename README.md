# zMidiController: a verified model of the joystick-to-MIDI console

zMidiController turns a joystick into a MIDI controller. It follows the first
joystick it sees, sends a fixed Note On when any button goes down and a fixed
Note Off when it comes up, and lets the user choose the MIDI output port from
a combo box. This project models that application's state and its event
handling in Dafny and proves what it does.

- `ChannelVoice` (channel_voice.dfy) holds Note On and Note Off as defined in
  the Channel Voice Messages section of the MIDI 1.0 Detailed Specification.
  It has an encoder and a decoder. The application's byte sequences are
  checked against them.
- `MidiSink` (midi_sink.dfy) is the MIDI output connection as an abstract
  object. It has a fixed port count and the port it is open to, if any. A
  ghost log records every open, close and send, in order.
- `JoystickTracking` (joystick_tracking.dfy) gives the tracked joystick after
  attach and removal notifications, for one notification and for a whole run.
- `PortSelection` (port_selection.dfy) gives the selected port and the open
  connection after an entry of the port combo is picked, and after one walk
  over the whole combo.
- `Console` (console.dfy) is the application: the class `App` with the
  tracked joystick, the output connection and the selected port index, and
  one method per event kind. Each method is proved against the functions
  above.

The button release message is sent as two bytes, `[0x80, 64]`, with no
velocity byte. The model keeps that shape; `ReleaseMessageLacksVelocity`
proves that it is a Note Off missing its last byte.

The application has no per-button configuration table, no channel choice and
no control-change message. Every button sends the same two messages,
whichever button it is. The model follows the code in this.

Outcomes decided outside the application are parameters:
- whether creating the connection succeeds;
- the number of output ports;
- whether opening a port or a joystick succeeds;
- which combo entries the user picked in a frame.

## Model

| member | source | states |
|---|---|---|
| `Console.PressMessageIsNoteOn` | MidiConsoleApplication/MidiConsoleApplication.cpp:169-173 | the press message is the complete Note On for channel 1, key 64, velocity 90 |
| `Console.ReleaseMessageLacksVelocity` | MidiConsoleApplication/MidiConsoleApplication.cpp:177-181 | the release message does not decode as a MIDI message; adding any velocity byte gives the Note Off for channel 1, key 64 |
| `Console.App.constructor` | MidiConsoleApplication/MidiConsoleApplication.cpp:37-45 | before start-up no joystick is tracked, there is no connection, and port 0 is selected |
| `Console.App.Init` | MidiConsoleApplication/MidiConsoleApplication.cpp:118-143 | a failed connection creation fails; zero ports fails and opens nothing; otherwise only port 0 is opened, and start-up continues exactly when that open succeeds, leaving port 0 selected and open |
| `Console.App.OnJoystickAdded` | MidiConsoleApplication/MidiConsoleApplication.cpp:152-160 | the tracked joystick becomes the attach step of the old one; the connection and the port selection are untouched |
| `Console.App.OnJoystickRemoved` | MidiConsoleApplication/MidiConsoleApplication.cpp:161-166 | the tracked joystick becomes the removal step of the old one; nothing else changes |
| `Console.App.OnButtonDown` | MidiConsoleApplication/MidiConsoleApplication.cpp:167-174 | exactly one send of `[0x90, 64, 90]` is appended to the log, whatever the joystick and the button; the port state is unchanged; the callback continues when the send succeeds, and an error raised by the send escapes uncaught |
| `Console.App.OnButtonUp` | MidiConsoleApplication/MidiConsoleApplication.cpp:175-182 | exactly one send of the two-byte `[0x80, 64]` is appended to the log, whatever the joystick and the button; the port state is unchanged; the callback continues when the send succeeds, and an error raised by the send escapes uncaught |
| `Console.App.HandleEvent` | MidiConsoleApplication/MidiConsoleApplication.cpp:147-187 | Quit returns Success; a button event whose send raises ends with the error escaping; every other event returns Continue; attach and removal change only the tracked joystick; button events append only their message; the port state is never changed |
| `Console.App.OnPortPicked` | MidiConsoleApplication/MidiConsoleApplication.cpp:56-69 | picking the selected port changes nothing; picking another selects it, then closes the connection, then opens the picked port; the connection is left open to it exactly when the open succeeded |
| `Console.App.ComboPass` | MidiConsoleApplication/MidiConsoleApplication.cpp:52-75 | a walk over all listed ports gives the state and the calls of `Combo` and `ComboCalls`, keeps the open port equal to the selected one, and sends nothing |
| `JoystickTracking.AttachStep` | MidiConsoleApplication/MidiConsoleApplication.cpp:152-160 | an attach while a joystick is tracked leaves it tracked; with none tracked, the announced device becomes tracked exactly when its open succeeds |
| `JoystickTracking.RemoveStep` | MidiConsoleApplication/MidiConsoleApplication.cpp:161-166 | a removal clears tracking exactly when it names the tracked device; otherwise nothing changes |
| `JoystickTracking.TrackedIffOpenedAndKept` | MidiConsoleApplication/MidiConsoleApplication.cpp:152-166 | after any run of notifications, a device is tracked if and only if it was attached and opened while nothing was tracked and has not been removed since |
| `JoystickTracking.OpenHandlesMatchTracking` | MidiConsoleApplication/MidiConsoleApplication.cpp:154-164 | after any run of notifications, the number of successful opens equals the number of closes, plus one while a device is tracked, so at most one handle is open after any run |
| `Console.RunDeviceEvents` | MidiConsoleApplication/MidiConsoleApplication.cpp:147-166 | delivering a run of attach and removal notifications to the event callback from start-up leaves exactly `Track` of the run tracked, and leaves the connection, its calls and the port selection untouched |
| `JoystickTracking.SecondStickIgnoredAfterRemoval` | MidiConsoleApplication/MidiConsoleApplication.cpp:152-166 | a stick announced while another is tracked stays untracked after the tracked one is removed |
| `PortSelection.PickAfterFailedOpenDoesNotRetry` | MidiConsoleApplication/MidiConsoleApplication.cpp:57-69 | after a failed open, picking the selected entry again neither changes the state nor retries the open |
| `PortSelection.Reselect` | MidiConsoleApplication/MidiConsoleApplication.cpp:57-69 | picking the selected index keeps the state; picking another selects it, and the connection is open, to that port, exactly when the open succeeds |
| `PortSelection.ComboKeepsOpenSelected` | MidiConsoleApplication/MidiConsoleApplication.cpp:53-69 | after a walk over the combo, an open connection is open to the selected port |
| `PortSelection.ComboWithoutPickIsIdle` | MidiConsoleApplication/MidiConsoleApplication.cpp:53-73 | a walk in which nothing is picked changes nothing and makes no call on the connection |
| `PortSelection.ComboSelectsLastPick` | MidiConsoleApplication/MidiConsoleApplication.cpp:53-69 | after a walk, the selected port is the last entry picked in it |
| `PortSelection.ComboClosesBeforeOpening` | MidiConsoleApplication/MidiConsoleApplication.cpp:57-64 | in the calls of a walk, every open is of a picked port and comes right after a close, and there is no send |
| `PortSelection.ComboSendsNothing` | MidiConsoleApplication/MidiConsoleApplication.cpp:52-75 | a walk over the combo adds no message to the sent messages |

## Left out

- Window, renderer and ImGui set-up, font loading, the render loop and the
  drawing of the combo (lines 48-51, 71-77, 85-116, 190-209). These are
  rendering only. The combo's per-entry result is a parameter instead.
- `SDL_AppQuit` (lines 212-227). Closing the joystick and deleting the
  connection at shutdown happen after the last event.
- Logging through `SDL_Log`, `std::cout` and `printMessage`, and passing
  events on to ImGui (line 184). These do not change the modelled state.
- RtMidi and SDL internals. A port is an index and a joystick is its
  instance id; ids are only compared. Port names are left out. Whether a
  message reaches a device, for example while no port is open, is up to
  RtMidi. The log records every message the application hands over,
  including a send that raises an error.
- What happens after an error escapes the event callback (lines 173 and
  181 have no handler). The model reports it as the outcome `Raised`;
  the program's end is not modelled.
- `MidiSink.MidiOut.OpenPort` requires a closed connection. RtMidi ignores
  an open on an already-open connection, and the application never makes one.
- `Console.App.ComboPass` reads the port count once. The source asks for it
  on every step of the loop, so ports plugged in or removed mid-frame are not
  modelled.
- The event methods require a successful start-up (`Valid`). The framework
  only delivers events after `SDL_AppInit` has returned `SDL_APP_CONTINUE`.
