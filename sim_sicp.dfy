/** The framing of the SICP test server: a frame is a length byte, a
    control byte, an optional group byte, the payload, and an XOR checksum
    byte over everything before it. The server answers a frame by echoing
    its control, group and first payload byte, followed by filler text; the
    filler (random month names and years) is a parameter here. Python
    exceptions are modelled as the error side of a `Result`. */
module Sicp {
  import opened Io

  const GROUP_ID: int := 0x01
  const MONITOR_ID: int := 0x01
  const MAX_CHUNK_SIZE: int := 40

  /** ResponseType */
  const ACK: byte := 0x06
  const NACK: byte := 0x15
  const NAV: byte := 0x18

  datatype Option<T> = None | Some(value: T)

  /** The exceptions the framing code can raise. */
  datatype Raised =
    | StructError
    | AssertionError(message: string)
    | IndexError
    | ValueError
    | NotImplementedError

  datatype Result<T> = Ok(value: T) | Err(error: Raised)

  // ----------------------------------------------------------- checksum

  /** `checksum(data)`: `reduce(xor, data, 0)`, the XOR of all bytes. */
  function Checksum(data: seq<byte>): byte
  {
    if data == [] then 0 else Checksum(data[..|data| - 1]) ^ data[|data| - 1]
  }

  /** The checksum of nothing is 0, and the checksum of a concatenation is
      the XOR of the checksums. */
  lemma {:induction false} ChecksumAppend(a: seq<byte>, b: seq<byte>)
    ensures Checksum([]) == 0
    ensures Checksum(a + b) == Checksum(a) ^ Checksum(b)
    decreases |b|
  {
    if b == [] {
      assert a + b == a;
    } else {
      var b' := b[..|b| - 1];
      assert (a + b)[..|a + b| - 1] == a + b';
      ChecksumAppend(a, b');
    }
  }

  /** Appending its own checksum makes the XOR of a message zero. */
  lemma ChecksumSealed(message: seq<byte>)
    ensures Checksum(message + [Checksum(message)]) == 0
  {
    assert (message + [Checksum(message)])[..|message|] == message;
  }

  // --------------------------------------------------------- pack_reply

  /** Python's `bytearray([v])` and `append(v)`: only 0..255 is a byte. */
  predicate IsByte(v: int)
  {
    0 <= v < 0x100
  }

  /** The byte whose value is `v`, counted up from zero. */
  function ToByte(v: int): (b: byte)
    requires IsByte(v)
    ensures b as int == v
    decreases v
  {
    if v == 0 then 0 else ToByte(v - 1) + 1
  }

  /** `control or MONITOR_ID` */
  function ControlByte(control: int): int
  {
    if control == 0 then MONITOR_ID else control
  }

  /** `group or GROUP_ID` */
  function GroupByte(group: int): int
  {
    if group == 0 then GROUP_ID else group
  }

  /** The frame around `parts`: a length byte counting the whole frame,
      the parts, and the checksum of everything before it. */
  function Frame(parts: seq<byte>): seq<byte>
    requires IsByte(|parts| + 2)
  {
    var message := [ToByte(|parts| + 2)] + parts;
    message + [Checksum(message)]
  }

  /** A frame starts with its own length, carries the parts unchanged, and
      ends with the checksum of the rest, so the XOR of the whole frame is zero. */
  lemma FrameLayout(parts: seq<byte>)
    requires IsByte(|parts| + 2)
    ensures |Frame(parts)| == |parts| + 2
    ensures Frame(parts)[0] == ToByte(|parts| + 2) && Frame(parts)[0] as int == |Frame(parts)|
    ensures Frame(parts)[1..|Frame(parts)| - 1] == parts
    ensures Frame(parts)[|Frame(parts)| - 1] == Checksum(Frame(parts)[..|Frame(parts)| - 1])
    ensures Checksum(Frame(parts)) == 0
  {
    var message := [ToByte(|parts| + 2)] + parts;
    assert Frame(parts)[..|Frame(parts)| - 1] == message;
    assert message[1..] == parts;
    ChecksumSealed(message);
  }

  /** The control byte, then the group byte when there is one. */
  function Head(control: int, group: Option<int>): (head: seq<byte>)
    requires IsByte(ControlByte(control)) && (group.Some? ==> IsByte(GroupByte(group.value)))
    ensures |head| == if group.Some? then 2 else 1
  {
    [ToByte(ControlByte(control))] + (if group.Some? then [ToByte(GroupByte(group.value))] else [])
  }

  /** The frame `pack_reply` returns, or the ValueError it raises when the
      control or group value, or the frame length, is not a byte. */
  function Reply(control: int, group: Option<int>, data: seq<byte>, junk: seq<byte>): (r: Result<seq<byte>>)
    ensures r.Ok? <==>
      IsByte(ControlByte(control)) &&
      (group.Some? ==> IsByte(GroupByte(group.value))) &&
      IsByte((if group.Some? then 4 else 3) + |data| + |junk|)
    ensures r.Err? ==> r.error == ValueError
  {
    var c := ControlByte(control);
    if !IsByte(c) then Err(ValueError)
    else if group.Some? && !IsByte(GroupByte(group.value)) then Err(ValueError)
    else
      var parts := Head(control, group) + data + junk;
      if !IsByte(|parts| + 2) then Err(ValueError) else Ok(Frame(parts))
  }

  /** `pack_reply(control, group, data)`, with `junk` the filler text it
      appends: builds the frame part by part, as the script does. */
  method PackReply(control: int, group: Option<int>, data: seq<byte>, junk: seq<byte>) returns (r: Result<seq<byte>>)
    ensures r == Reply(control, group, data, junk)
  {
    var c := ControlByte(control);
    if !IsByte(c) {
      return Err(ValueError);
    }
    var parts: seq<byte> := [ToByte(c)];
    if group.Some? {
      var g := GroupByte(group.value);
      if !IsByte(g) {
        return Err(ValueError);
      }
      parts := parts + [ToByte(g)];
    }
    assert parts == Head(control, group);
    parts := parts + data;
    parts := parts + junk;
    var msgSize := |parts| + 2;
    if !IsByte(msgSize) {
      return Err(ValueError);
    }
    var reply: seq<byte> := [ToByte(msgSize)];
    reply := reply + parts;
    reply := reply + [Checksum(reply)];
    assert reply == Frame(parts);
    return Ok(reply);
  }

  /** A packed frame has the layout of `FrameLayout`, with the control byte
      (MONITOR_ID for 0), the group byte when there is one (GROUP_ID for 0),
      then the payload and the filler. */
  lemma ReplyLayout(control: int, group: Option<int>, data: seq<byte>, junk: seq<byte>)
    requires Reply(control, group, data, junk).Ok?
    ensures Reply(control, group, data, junk).value == Frame(Head(control, group) + data + junk)
    ensures |Reply(control, group, data, junk).value| == (if group.Some? then 4 else 3) + |data| + |junk|
    ensures Reply(control, group, data, junk).value[1] == ToByte(ControlByte(control))
    ensures group.Some? ==> Reply(control, group, data, junk).value[2] == ToByte(GroupByte(group.value))
    ensures Reply(control, group, data, junk).value[(if group.Some? then 3 else 2)..|Reply(control, group, data, junk).value| - 1]
      == data + junk
  {
    var head := Head(control, group);
    var parts := head + data + junk;
    assert Reply(control, group, data, junk).value == Frame(parts);
    assert parts == head + (data + junk);
    FrameLayout(parts);
    assert Frame(parts)[1] == parts[0] == ToByte(ControlByte(control));
    if group.Some? {
      assert Frame(parts)[2] == parts[1] == ToByte(GroupByte(group.value));
    }
    assert parts[|head|..] == data + junk;
  }

  // ------------------------------------------------------ parse_message

  /** `parse_message(received)`, with `junk` the filler of its reply:
      checks the length byte and the checksum, then answers with the
      frame's control and group and its byte at index 3. */
  function ParseMessage(received: seq<byte>, junk: seq<byte>): Result<seq<byte>>
  {
    if |received| < 3 then Err(StructError)
    else if received[0] as int != |received| then Err(AssertionError("Message size mismatch"))
    else if received[|received| - 1] != Checksum(received[..|received| - 1])
    then Err(AssertionError("Checksum verification failed"))
    else if |received| < 4 then Err(IndexError)
    else Reply(received[1] as int, Some(received[2] as int), [received[3]], junk)
  }

  /** A frame is answered exactly when it is at least four bytes long, its
      first byte is its length, its last byte is the checksum of the rest,
      and the reply's filler leaves the reply short enough. */
  lemma ParseAccepts(received: seq<byte>, junk: seq<byte>)
    ensures ParseMessage(received, junk).Ok? <==>
      |received| >= 4 && received[0] as int == |received| &&
      received[|received| - 1] == Checksum(received[..|received| - 1]) &&
      |junk| <= 250
  {
    if |received| < 4 {
      assert ParseMessage(received, junk).Err?;
    } else if received[0] as int != |received| {
      assert ParseMessage(received, junk).Err?;
    } else if received[|received| - 1] != Checksum(received[..|received| - 1]) {
      assert ParseMessage(received, junk).Err?;
    } else {
      var control, group := received[1] as int, received[2] as int;
      assert ParseMessage(received, junk) == Reply(control, Some(group), [received[3]], junk);
      assert IsByte(ControlByte(control)) && IsByte(GroupByte(group));
    }
  }

  /** Round trip: a frame packed with a group and a non-empty payload
      passes `parse_message`'s checks, and the answer echoes its control,
      its group and the first payload byte. */
  lemma {:induction false} RoundTrip(control: int, group: int, data: seq<byte>, junk: seq<byte>, junk': seq<byte>)
    requires |data| >= 1
    requires Reply(control, Some(group), data, junk).Ok?
    ensures var frame := Reply(control, Some(group), data, junk).value;
      ParseMessage(frame, junk') == Reply(ControlByte(control), Some(GroupByte(group)), [data[0]], junk')
  {
    var frame := Reply(control, Some(group), data, junk).value;
    ReplyLayout(control, Some(group), data, junk);
    FrameLayout(Head(control, Some(group)) + data + junk);
    assert frame[3..|frame| - 1] == data + junk;
    assert frame[3] == (data + junk)[0] == data[0];
  }

  // --------------------------------------------------------- on_receive

  /** `on_receive(data)`: the reply of `parse_message`; on
      NotImplementedError a NAV frame, on any other error a NACK frame,
      each with `junk2` as its filler. */
  function OnReceive(data: seq<byte>, junk1: seq<byte>, junk2: seq<byte>): (r: Result<seq<byte>>)
    ensures ParseMessage(data, junk1).Ok? ==> r == ParseMessage(data, junk1)
  {
    match ParseMessage(data, junk1)
    case Ok(reply) => Ok(reply)
    case Err(NotImplementedError) => Reply(0, Some(GROUP_ID), [0, NAV], junk2)
    case Err(_) => Reply(0, Some(GROUP_ID), [0, NACK], junk2)
  }

  /** `parse_message` raises only struct, assertion, index and value errors. */
  lemma ParseNeverRaisesNotImplemented(data: seq<byte>, junk: seq<byte>)
    requires ParseMessage(data, junk).Err?
    ensures ParseMessage(data, junk).error != NotImplementedError
  {
    if |data| >= 4 && data[0] as int == |data| && data[|data| - 1] == Checksum(data[..|data| - 1]) {
      assert data[1] as int < 0x100 && data[2] as int < 0x100;
    }
  }

  /** The NACK frame: MONITOR_ID, GROUP_ID, then 0 and NACK, then the
      filler; packing it fails only when the filler is too long. */
  lemma NackFrame(junk: seq<byte>)
    ensures Reply(0, Some(GROUP_ID), [0, NACK], junk).Ok? <==> |junk| <= 249
    ensures Reply(0, Some(GROUP_ID), [0, NACK], junk).Ok? ==>
      var frame := Reply(0, Some(GROUP_ID), [0, NACK], junk).value;
      |frame| == |junk| + 6 && frame[0] as int == |junk| + 6 &&
      frame[1] as int == MONITOR_ID && frame[2] as int == GROUP_ID &&
      frame[3] == 0 && frame[4] == NACK && frame[5..|frame| - 1] == junk
  {
    var r := Reply(0, Some(GROUP_ID), [0, NACK], junk);
    if r.Ok? {
      var parts := Head(0, Some(GROUP_ID)) + [0, NACK] + junk;
      ReplyLayout(0, Some(GROUP_ID), [0, NACK], junk);
      FrameLayout(parts);
      assert r.value[3..|r.value| - 1] == [0, NACK] + junk;
      assert r.value[5..|r.value| - 1] == ([0, NACK] + junk)[2..];
      assert r.value[1] as int == ControlByte(0) == MONITOR_ID;
      assert r.value[2] as int == GroupByte(GROUP_ID) == GROUP_ID;
      assert r.value[0] as int == |parts| + 2 == |junk| + 6;
    }
  }

  /** So every failure of `parse_message` is answered with the NACK frame. */
  lemma OnReceiveNacks(data: seq<byte>, junk1: seq<byte>, junk2: seq<byte>)
    requires ParseMessage(data, junk1).Err?
    ensures OnReceive(data, junk1, junk2) == Reply(0, Some(GROUP_ID), [0, NACK], junk2)
  {
    ParseNeverRaisesNotImplemented(data, junk1);
  }
}
