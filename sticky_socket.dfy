/** The earlier revision of the connection (the legacy StickySocket): a
    classifier from a poll response to an event, which also marks the
    socket Connected on a writable response, and a status/descriptor
    discipline for open, close and receive. The connect(2) and recv(2)
    calls are represented by their results, given as parameters; close(2)
    calls are recorded in the `closed` log. */
module Legacy {
  import opened Io

  /** The legacy receive buffer size, `BUFFER_SIZE (1024u)`. */
  const LEGACY_BUFFER_SIZE: nat := 1024

  datatype Event = None | Received | Failed | Connected
  datatype ConnectionState = Disconnected | Connecting | Connected

  /** The event `parse` reports for a response, by strict priority of bits:
      NVAL, IN, OUT, ERR, HUP, PRI. */
  function Classify(status: ConnectionState, revents: bv16): Event
  {
    if revents & POLLNVAL != 0 then Event.Failed
    else if revents & POLLIN != 0 then
      (if status == ConnectionState.Connected then Event.Received else Event.None)
    else if revents & POLLOUT != 0 then Event.Connected
    else if revents & POLLERR != 0 then Event.Failed
    else if revents & POLLHUP != 0 then Event.Failed
    else if revents & POLLPRI != 0 then Event.Received
    else Event.None
  }

  /** The priority rules one by one: NVAL wins over every other bit; IN
      wins over OUT and gives Received only while Connected; the Connected
      event comes exactly from OUT as the first set bit; ERR or HUP as the
      first set bit is a failure; PRI alone is Received; a mask with none of
      the six bits is no event. */
  lemma ClassifyRules(status: ConnectionState, revents: bv16)
    ensures revents & POLLNVAL != 0 ==> Classify(status, revents) == Event.Failed
    ensures revents & POLLNVAL == 0 && revents & POLLIN != 0 ==>
      (Classify(status, revents) == Event.Received <==> status == ConnectionState.Connected)
    ensures revents & POLLNVAL == 0 && revents & POLLIN != 0 ==>
      Classify(status, revents) != Event.Failed
    ensures Classify(status, revents) == Event.Connected <==>
      (revents & (POLLNVAL | POLLIN) == 0 && revents & POLLOUT != 0)
    ensures revents & (POLLNVAL | POLLIN | POLLOUT) == 0 && revents & (POLLERR | POLLHUP) != 0 ==>
      Classify(status, revents) == Event.Failed
    ensures revents & (POLLNVAL | POLLIN | POLLOUT | POLLERR | POLLHUP) == 0 && revents & POLLPRI != 0 ==>
      Classify(status, revents) == Event.Received
    ensures revents & (POLLNVAL | POLLIN | POLLOUT | POLLERR | POLLHUP | POLLPRI) == 0 <==>
      (Classify(status, revents) == Event.None && (status == ConnectionState.Connected || revents & POLLIN == 0))
  {
  }

  // ------------------------------------------------------------ receive

  /** `receive()` as written: `size_t bytes = ::recv(...)`; the `bytes < 0`
      test can never hold for an unsigned value, so a failed recv
      ((size_t)-1) falls through and the span has SIZE_MAX bytes. */
  function SpanLengthAsWritten(r: RecvResult): nat
  {
    RecvReturn(r)
  }

  /** As written, a failed recv yields a span longer than the 1024-byte buffer. */
  lemma RecvErrorOverrunsBufferAsWritten()
    ensures SpanLengthAsWritten(RecvError) > LEGACY_BUFFER_SIZE
  {
  }

  /** `receive()` as evidently intended: a failed recv is reported and
      yields no data; otherwise the bytes recv stored. */
  function ReceivedBytes(r: RecvResult): seq<byte>
  {
    if r.RecvError? then [] else r.bytes
  }

  /** The corrected span fits the buffer and agrees with the code as
      written whenever recv succeeds. */
  lemma ReceivedFits(r: RecvResult)
    requires FitsIn(r, LEGACY_BUFFER_SIZE)
    ensures |ReceivedBytes(r)| <= LEGACY_BUFFER_SIZE
    ensures r.RecvData? ==> |ReceivedBytes(r)| == SpanLengthAsWritten(r)
  {
  }

  /** Whether `::connect` failed for a reason other than an attempt still
      in progress. */
  predicate ConnectFails(rc: int, errno: int)
  {
    rc < 0 && errno != EWOULDBLOCK && errno != EINPROGRESS
  }

  // ------------------------------------------------------------- socket

  class StickySocket {
    var status: ConnectionState
    var descriptor: int
    const rxBuffer: array<byte>
    /** Descriptors handed to close(2), in order. */
    var closed: seq<int>

    ghost predicate Valid()
      reads this
    {
      rxBuffer.Length == LEGACY_BUFFER_SIZE
    }

    /** A socket whose address lookup produced `descriptor` (the lookup
        itself is not part of this model); the source throws instead of
        constructing a socket without a valid descriptor. */
    constructor (descriptor: int)
      requires descriptor != INVALID_SOCKET
      ensures Valid() && fresh(rxBuffer) && rxBuffer[..] == seq(LEGACY_BUFFER_SIZE, _ => 0)
      ensures status == ConnectionState.Disconnected && this.descriptor == descriptor && closed == []
    {
      status := ConnectionState.Disconnected;
      this.descriptor := descriptor;
      rxBuffer := new byte[LEGACY_BUFFER_SIZE](_ => 0);
      closed := [];
    }

    /** `parse(response)`: the event for the mask; status becomes Connected
        exactly when that event is Connected, and is unchanged otherwise. */
    method Parse(revents: bv16) returns (detected: Event)
      modifies this`status
      ensures detected == Classify(old(status), revents)
      ensures status == if detected == Event.Connected then ConnectionState.Connected else old(status)
    {
      detected := Event.None;
      if revents & POLLNVAL != 0 {
        detected := Event.Failed;
      } else if revents & POLLIN != 0 {
        detected := if status == ConnectionState.Connected then Event.Received else Event.None;
      } else if revents & POLLOUT != 0 {
        detected := Event.Connected;
        status := ConnectionState.Connected;
      } else if revents & POLLERR != 0 {
        detected := Event.Failed;
      } else if revents & POLLHUP != 0 {
        detected := Event.Failed;
      } else if revents & POLLPRI != 0 {
        detected := Event.Received;
      }
    }

    /** `open()`: ignored unless Disconnected; otherwise Connecting, and when
        `::connect` (returning `rc`, with `errno`) failed outright the
        descriptor is closed and invalidated and the call throws. */
    method Open(rc: int, errno: int) returns (outcome: Outcome)
      modifies this`status, this`descriptor, this`closed
      ensures old(status) != ConnectionState.Disconnected ==> outcome == Pass && unchanged(this)
      ensures old(status) == ConnectionState.Disconnected ==> status == ConnectionState.Connecting
      ensures old(status) == ConnectionState.Disconnected && ConnectFails(rc, errno) ==>
        outcome.Fail? && descriptor == INVALID_SOCKET && closed == old(closed) + [old(descriptor)]
      ensures old(status) == ConnectionState.Disconnected && !ConnectFails(rc, errno) ==>
        outcome == Pass && descriptor == old(descriptor) && closed == old(closed)
    {
      if status != ConnectionState.Disconnected {
        return Pass;
      }
      status := ConnectionState.Connecting;
      if rc < 0 {
        if errno != EWOULDBLOCK && errno != EINPROGRESS {
          closed := closed + [descriptor];
          descriptor := INVALID_SOCKET;
          return Fail("");
        }
      }
      return Pass;
    }

    /** `close()`: nothing while Disconnected; otherwise a valid descriptor
        is closed and invalidated. The status is never changed. */
    method Close()
      modifies this`descriptor, this`closed
      ensures old(status) == ConnectionState.Disconnected || old(descriptor) == INVALID_SOCKET ==> unchanged(this)
      ensures old(status) != ConnectionState.Disconnected && old(descriptor) != INVALID_SOCKET ==>
        descriptor == INVALID_SOCKET && closed == old(closed) + [old(descriptor)]
    {
      if status == ConnectionState.Disconnected {
        return;
      }
      if descriptor != INVALID_SOCKET {
        closed := closed + [descriptor];
        descriptor := INVALID_SOCKET;
      }
    }

    function IsConnected(): (b: bool)
      reads this`descriptor
      ensures b <==> descriptor != INVALID_SOCKET
    {
      descriptor != INVALID_SOCKET
    }

    /** `receive()`, as corrected: recv stores its bytes at the start of the
        buffer and the result is that prefix; a closed stream (zero bytes)
        closes the socket. */
    method Receive(r: RecvResult) returns (data: seq<byte>)
      requires Valid() && FitsIn(r, LEGACY_BUFFER_SIZE)
      modifies rxBuffer, this`descriptor, this`closed
      ensures data == ReceivedBytes(r)
      ensures data == rxBuffer[..|data|]
      ensures r.RecvData? ==> rxBuffer[|r.bytes|..] == old(rxBuffer[|r.bytes|..])
      ensures r.RecvError? ==> rxBuffer[..] == old(rxBuffer[..])
      ensures r == RecvData([]) && status != ConnectionState.Disconnected && old(descriptor) != INVALID_SOCKET ==>
        descriptor == INVALID_SOCKET && closed == old(closed) + [old(descriptor)]
      ensures !(r == RecvData([]) && status != ConnectionState.Disconnected && old(descriptor) != INVALID_SOCKET) ==>
        descriptor == old(descriptor) && closed == old(closed)
    {
      if r.RecvData? {
        var i := 0;
        while i < |r.bytes|
          invariant 0 <= i <= |r.bytes|
          invariant forall k :: 0 <= k < i ==> rxBuffer[k] == r.bytes[k]
          invariant forall k :: i <= k < LEGACY_BUFFER_SIZE ==> rxBuffer[k] == old(rxBuffer[k])
          invariant descriptor == old(descriptor) && closed == old(closed)
        {
          rxBuffer[i] := r.bytes[i];
          i := i + 1;
        }
        assert rxBuffer[..|r.bytes|] == r.bytes;
      }
      if r.RecvError? {
        data := [];
      } else if r.bytes == [] {
        Close();
        data := [];
      } else {
        data := rxBuffer[..|r.bytes|];
      }
    }
  }

  /** A refused `open()` leaves the socket Connecting with no descriptor: it
      reports not connected, and a later `close()` has nothing to close. */
  method RefusedOpenThenClose(descriptor: int) returns (s: StickySocket)
    requires descriptor != INVALID_SOCKET
    ensures s.status == ConnectionState.Connecting && !s.IsConnected()
    ensures s.closed == [descriptor]
  {
    s := new StickySocket(descriptor);
    var outcome := s.Open(-1, ECONNREFUSED);
    assert outcome.Fail?;
    s.Close();
  }
}
