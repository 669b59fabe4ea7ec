/**
 * Note On and Note Off, the two Channel Voice Messages of the MIDI 1.0
 * Detailed Specification that the controller emits. This module is the
 * reference the application's hard-coded byte sequences are checked against:
 * a status byte whose high nibble is 0x9 (Note On) or 0x8 (Note Off) and whose
 * low nibble is the zero-based channel, followed by two data bytes, the key
 * number and the velocity, each below 0x80.
 */
module ChannelVoice {
  import opened Options

  type byte = x: int | 0 <= x < 256
  type DataByte = x: int | 0 <= x < 0x80
  type Channel = x: int | 0 <= x < 16

  datatype NoteMessage =
    | NoteOn(channel: Channel, key: DataByte, velocity: DataByte)
    | NoteOff(channel: Channel, key: DataByte, velocity: DataByte)

  const NoteOffStatus: byte := 0x80
  const NoteOnStatus: byte := 0x90

  /** The three bytes of a complete Note On or Note Off message. */
  function Encode(m: NoteMessage): (r: seq<byte>)
    ensures |r| == 3
    ensures r[0] >= 0x80 && r[1] < 0x80 && r[2] < 0x80
    ensures r[0] / 16 == (if m.NoteOn? then 9 else 8) && r[0] % 16 == m.channel
    ensures r[1] == m.key && r[2] == m.velocity
  {
    var status := (if m.NoteOn? then NoteOnStatus else NoteOffStatus) + m.channel;
    [status, m.key, m.velocity]
  }

  /**
   * Reads one complete Note On or Note Off message; anything else (another
   * status, a data byte with its high bit set, a missing or extra byte) is None.
   */
  function Decode(bytes: seq<byte>): (r: Option<NoteMessage>)
    ensures r.Some? ==> Encode(r.value) == bytes
    ensures r.None? ==> forall m :: Encode(m) != bytes
  {
    if |bytes| != 3 || bytes[1] >= 0x80 || bytes[2] >= 0x80 then None
    else if bytes[0] / 16 == 9 then Some(NoteOn(bytes[0] % 16, bytes[1], bytes[2]))
    else if bytes[0] / 16 == 8 then Some(NoteOff(bytes[0] % 16, bytes[1], bytes[2]))
    else None
  }

  /** Every message survives encoding and decoding unchanged. */
  lemma DecodeEncode(m: NoteMessage)
    ensures Decode(Encode(m)) == Some(m)
  {
  }
}
