/**
 * Byte-level framing of the message director.
 *
 * Panda3D's Datagram::add_uintN writes integers little-endian and
 * DatagramIterator::get_uintN reads them back the same way. A frame is
 *   u8 recipient count, u64 destination channel, then either
 *   u16 opcode, u64 operand channel            (control frames), or
 *   u64 sender channel, u16 message type       (application frames),
 * followed by an opaque body. Both layouts have a 19-byte header.
 */
module Wire {

  type Byte = b: int | 0 <= b < 0x100
  type Bytes = seq<Byte>
  type Uint16 = x: int | 0 <= x < 0x1_0000
  type Uint64 = x: int | 0 <= x < 0x1_0000_0000_0000_0000

  /** The reserved destination channel of control frames. */
  const CONTROL_MESSAGE: Uint64 := 1

  /** Bytes read before the body, in both branches of the frame parser. */
  const HEADER_LENGTH: nat := 19

  function Pow256(n: nat): nat
  {
    if n == 0 then 1 else 0x100 * Pow256(n - 1)
  }

  lemma Pow256Widths()
    ensures Pow256(1) == 0x100
    ensures Pow256(2) == 0x1_0000
    ensures Pow256(8) == 0x1_0000_0000_0000_0000
  {
  }

  /** The n least significant bytes of x, least significant first. */
  function EncodeLE(x: nat, n: nat): (r: Bytes)
    requires x < Pow256(n)
    ensures |r| == n
    decreases n
  {
    if n == 0 then [] else [x % 0x100] + EncodeLE(x / 0x100, n - 1)
  }

  /** The number whose little-endian digits are s. */
  function DecodeLE(s: Bytes): (r: nat)
    ensures r < Pow256(|s|)
  {
    if s == [] then 0 else s[0] + 0x100 * DecodeLE(s[1..])
  }

  lemma {:induction false} DecodeEncode(x: nat, n: nat)
    requires x < Pow256(n)
    ensures DecodeLE(EncodeLE(x, n)) == x
    decreases n
  {
    if n > 0 {
      var r := EncodeLE(x, n);
      assert r[1..] == EncodeLE(x / 0x100, n - 1);
      DecodeEncode(x / 0x100, n - 1);
    }
  }

  lemma {:induction false} EncodeDecode(s: Bytes)
    ensures EncodeLE(DecodeLE(s), |s|) == s
  {
    if s != [] {
      var d := DecodeLE(s[1..]);
      assert (s[0] + 0x100 * d) % 0x100 == s[0];
      assert (s[0] + 0x100 * d) / 0x100 == d;
      EncodeDecode(s[1..]);
    }
  }

  /** Datagram::add_uint16. */
  function EncodeUint16(x: Uint16): (r: Bytes)
    ensures |r| == 2
    ensures DecodeLE(r) == x
  {
    Pow256Widths();
    DecodeEncode(x, 2);
    EncodeLE(x, 2)
  }

  /** Datagram::add_uint64. */
  function EncodeUint64(x: Uint64): (r: Bytes)
    ensures |r| == 8
    ensures DecodeLE(r) == x
  {
    Pow256Widths();
    DecodeEncode(x, 8);
    EncodeLE(x, 8)
  }

  /** DatagramIterator::get_uint16 over the two bytes it consumes. */
  function DecodeUint16(s: Bytes): (r: Uint16)
    requires |s| == 2
    ensures EncodeUint16(r) == s
  {
    Pow256Widths();
    EncodeDecode(s);
    DecodeLE(s)
  }

  /** DatagramIterator::get_uint64 over the eight bytes it consumes. */
  function DecodeUint64(s: Bytes): (r: Uint64)
    requires |s| == 8
    ensures EncodeUint64(r) == s
  {
    Pow256Widths();
    EncodeDecode(s);
    DecodeLE(s)
  }

  lemma Uint16RoundTrip(x: Uint16)
    ensures DecodeUint16(EncodeUint16(x)) == x
  {
    Pow256Widths();
    DecodeEncode(x, 2);
  }

  lemma Uint64RoundTrip(x: Uint64)
    ensures DecodeUint64(EncodeUint64(x)) == x
  {
    Pow256Widths();
    DecodeEncode(x, 8);
  }

  /** What Participant::receive_datagram reads from a frame. */
  datatype Frame =
    | Control(opcode: Uint16, operand: Uint64, body: Bytes)
    | Application(channel: Uint64, sender: Uint64, msgType: Uint16, payload: Bytes)

  /** The control branch: opcode first, then the operand channel. */
  function DecodeControl(s: Bytes): (f: Frame)
    requires |s| >= HEADER_LENGTH
    ensures f.Control? && f.body == s[HEADER_LENGTH..]
  {
    Control(DecodeUint16(s[9..11]), DecodeUint64(s[11..19]), s[19..])
  }

  /** The application branch: sender first, then the message type. */
  function DecodeApplication(s: Bytes): (f: Frame)
    requires |s| >= HEADER_LENGTH
    ensures f.Application? && f.payload == s[HEADER_LENGTH..]
    ensures f.channel == DecodeUint64(s[1..9])
  {
    Application(DecodeUint64(s[1..9]), DecodeUint64(s[9..17]), DecodeUint16(s[17..19]), s[19..])
  }

  /**
   * The header test of receive_datagram: a frame is a control frame
   * exactly when its recipient count is 1 and its destination is the
   * control channel.
   */
  function ParseFrame(s: Bytes): (f: Frame)
    requires |s| >= HEADER_LENGTH
    ensures f.Control? <==> s[0] == 1 && DecodeUint64(s[1..9]) == CONTROL_MESSAGE
  {
    if s[0] == 1 && DecodeUint64(s[1..9]) == CONTROL_MESSAGE then DecodeControl(s)
    else DecodeApplication(s)
  }

  /** The frame route_datagram builds for the owner of `channel`. */
  function RoutedFrame(channel: Uint64, sender: Uint64, msgType: Uint16, payload: Bytes): (r: Bytes)
    ensures |r| == HEADER_LENGTH + |payload| && r[0] == 1
    ensures r[HEADER_LENGTH..] == payload
  {
    [1] + EncodeUint64(channel) + EncodeUint64(sender) + EncodeUint16(msgType) + payload
  }

  /** A control instruction as a client puts it on the wire. */
  function ControlFrame(opcode: Uint16, operand: Uint64, body: Bytes): (r: Bytes)
    ensures |r| == HEADER_LENGTH + |body| && r[0] == 1
    ensures r[HEADER_LENGTH..] == body
  {
    [1] + EncodeUint64(CONTROL_MESSAGE) + EncodeUint16(opcode) + EncodeUint64(operand) + body
  }

  /**
   * The application-branch decoder inverts route_datagram's encoder, and
   * receive_datagram takes the application branch on a routed frame
   * exactly when the frame is not addressed to the control channel.
   */
  lemma RoutedFrameRoundTrip(channel: Uint64, sender: Uint64, msgType: Uint16, payload: Bytes)
    ensures DecodeApplication(RoutedFrame(channel, sender, msgType, payload))
         == Application(channel, sender, msgType, payload)
    ensures ParseFrame(RoutedFrame(channel, sender, msgType, payload)).Application?
        <==> channel != CONTROL_MESSAGE
  {
    var r := RoutedFrame(channel, sender, msgType, payload);
    HeaderSlices(EncodeUint64(channel), EncodeUint64(sender), EncodeUint16(msgType), payload);
    Uint64RoundTrip(channel);
    Uint64RoundTrip(sender);
    Uint16RoundTrip(msgType);
  }

  /** Conversely, every frame with recipient count 1 is the routed frame of its own fields. */
  lemma ApplicationFrameRoundTrip(s: Bytes)
    requires |s| >= HEADER_LENGTH && s[0] == 1
    ensures var f := DecodeApplication(s);
            RoutedFrame(f.channel, f.sender, f.msgType, f.payload) == s
  {
    var f := DecodeApplication(s);
    HeaderSplit(s);
    assert RoutedFrame(f.channel, f.sender, f.msgType, f.payload)
        == [1] + EncodeUint64(f.channel) + EncodeUint64(f.sender) + EncodeUint16(f.msgType) + f.payload;
  }

  /** A control frame parses back to its opcode, operand and body. */
  lemma ControlFrameRoundTrip(opcode: Uint16, operand: Uint64, body: Bytes)
    ensures ParseFrame(ControlFrame(opcode, operand, body)) == Control(opcode, operand, body)
  {
    var control := EncodeUint64(CONTROL_MESSAGE);
    var op := EncodeUint16(opcode);
    var operandBytes := EncodeUint64(operand);
    var r := [1] + control + op + operandBytes + body;
    assert ControlFrame(opcode, operand, body) == r;
    ControlSlices(control, op, operandBytes, body);
    Uint64RoundTrip(CONTROL_MESSAGE);
    Uint64RoundTrip(operand);
    Uint16RoundTrip(opcode);
  }

  /** A frame is its first byte followed by its three header fields and its body. */
  lemma HeaderSplit(s: Bytes)
    requires |s| >= HEADER_LENGTH
    ensures s == [s[0]] + s[1..9] + s[9..17] + s[17..19] + s[19..]
  {
  }

  /** Where the operand fields of a control frame sit. */
  lemma ControlSlices(a: Bytes, b: Bytes, c: Bytes, tail: Bytes)
    requires |a| == 8 && |b| == 2 && |c| == 8
    ensures var r := [1] + a + b + c + tail;
            r[1..9] == a && r[9..11] == b && r[11..19] == c && r[19..] == tail
  {
  }

  /** Where the three header fields of an application frame sit. */
  lemma HeaderSlices(a: Bytes, b: Bytes, c: Bytes, tail: Bytes)
    requires |a| == 8 && |b| == 8 && |c| == 2
    ensures var r := [1] + a + b + c + tail;
            r[1..9] == a && r[9..17] == b && r[17..19] == c && r[19..] == tail
  {
  }
}
