/**
 * The MIDI output connection (an RtMidiOut object) as the application sees
 * it: a fixed number of output ports, the port a connection is open to, if
 * any, and a log of the calls made on it in order. Whether opening a port
 * succeeds is decided outside the model and passed in.
 */
module MidiSink {
  import opened Options
  import opened ChannelVoice

  /** One call the application makes on the output connection. */
  datatype SinkCall =
    | OpenPortCall(port: nat)
    | ClosePortCall
    | SendMessageCall(message: seq<byte>)

  /** The messages handed to the connection, in the order they were sent. */
  function Sent(calls: seq<SinkCall>): (ms: seq<seq<byte>>)
    ensures forall k :: 0 <= k < |ms| ==> SendMessageCall(ms[k]) in calls
    decreases |calls|
  {
    if calls == [] then []
    else
      var last := calls[|calls| - 1];
      Sent(calls[..|calls| - 1]) + (if last.SendMessageCall? then [last.message] else [])
  }

  lemma {:induction false} SentAppend(a: seq<SinkCall>, b: seq<SinkCall>)
    ensures Sent(a + b) == Sent(a) + Sent(b)
    decreases |b|
  {
    if b == [] {
      assert a + b == a;
    } else {
      var n := |b| - 1;
      assert (a + b)[..|a + b| - 1] == a + b[..n];
      SentAppend(a, b[..n]);
    }
  }

  class MidiOut {
    const portCount: nat
    var openPort: Option<nat>
    ghost var calls: seq<SinkCall>

    /** A freshly created connection: no port open, nothing sent. */
    constructor (portCount: nat)
      ensures this.portCount == portCount && openPort == None && calls == []
    {
      this.portCount := portCount;
      openPort := None;
      calls := [];
    }

    /** Opens a connection to `port`; `succeeds` is false when the backend raises an error. */
    method OpenPort(port: nat, succeeds: bool)
      requires openPort == None
      modifies this
      ensures openPort == (if succeeds then Some(port) else None)
      ensures calls == old(calls) + [OpenPortCall(port)]
    {
      if succeeds {
        openPort := Some(port);
      }
      calls := calls + [OpenPortCall(port)];
    }

    method ClosePort()
      modifies this
      ensures openPort == None
      ensures calls == old(calls) + [ClosePortCall]
    {
      openPort := None;
      calls := calls + [ClosePortCall];
    }

    /**
     * Hands `message` to the connection. `succeeds` is false when the
     * backend raises an error; the call is logged either way.
     */
    method SendMessage(message: seq<byte>, succeeds: bool)
      modifies this
      ensures openPort == old(openPort)
      ensures calls == old(calls) + [SendMessageCall(message)]
      ensures Sent(calls) == Sent(old(calls)) + [message]
    {
      calls := calls + [SendMessageCall(message)];
      SentAppend(old(calls), [SendMessageCall(message)]);
      assert [SendMessageCall(message)][..0] == [];
    }
  }
}
