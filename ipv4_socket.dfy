/** The IPv4 connection state machine (IPv4Socket on top of EasySocketIntf).

    The transitions are first stated as functions over states (`EnterHooks`,
    `ReceivePath`, `SendPath`, `EvalStep`), whose properties are proved as
    lemmas; the class `IPv4Socket` then updates its fields step by step, as
    the source does, and each method is proved against those functions. */
module Ipv4 {
  import opened Io
  import opened EasySocket

  /** A state together with the notifications fired on the way to it. */
  datatype Transition = Transition(state: ConnectionState, hooks: seq<Hook>)

  /** The notifications `enter(next)` fires when the socket is in `current`. */
  function EnterHooks(current: ConnectionState, next: ConnectionState): (hooks: seq<Hook>)
    ensures |hooks| <= 1
    ensures WentOnline in hooks <==> current != next && next == Connected
    ensures WentOffline in hooks <==> current != next && next == Disconnected
    ensures forall h :: h in hooks ==> !h.DidReceive?
  {
    if current == next then []
    else if next == Connected then [WentOnline]
    else if next == Disconnected then [WentOffline]
    else []
  }

  function Entered(current: ConnectionState, next: ConnectionState): Transition
  {
    Transition(next, EnterHooks(current, next))
  }

  /** The socket's own invariant on notifications: `WentOnline` alternates with
      `WentOffline`, and the owner was last told "online" exactly when the state
      is `Connected`. */
  ghost predicate NotificationsAgree(state: ConnectionState, log: seq<Hook>)
  {
    Alternating(log) && (Presence(log) <==> state == Connected)
  }

  /** Every transition the socket makes through `enter` keeps the notifications
      in agreement with the state. The one it never makes, Connected to
      Connecting, is excluded. */
  lemma EnterKeepsNotifications(log: seq<Hook>, current: ConnectionState, next: ConnectionState)
    requires NotificationsAgree(current, log)
    requires !(current == Connected && next == Connecting)
    ensures NotificationsAgree(next, log + EnterHooks(current, next))
  {
    var hooks := EnterHooks(current, next);
    if hooks == [] {
      assert log + hooks == log;
    } else {
      AppendOne(log, hooks[0]);
      assert log + hooks == log + [hooks[0]];
    }
  }

  /** Appending one notification unfolds `Presence` and `Alternating` once. */
  lemma AppendOne(log: seq<Hook>, h: Hook)
    ensures Presence(log + [h]) == (if h.DidReceive? then Presence(log) else h == WentOnline)
    ensures Alternating(log + [h]) == (Alternating(log) && (h == WentOnline ==> !Presence(log)))
  {
    var l := log + [h];
    assert l[..|l| - 1] == log;
    assert l[|l| - 1] == h;
  }

  // ---------------------------------------------------------------- receive

  /** `receive()` as written: `size_t bytes = io.recv(...)`; `if (bytes <= 0)`
      returns an empty span, otherwise a span of `bytes` bytes of the buffer.
      Because `bytes` is unsigned, a failed recv ((size_t)-1) passes the test. */
  function SpanLengthAsWritten(bytes: size_t): nat
  {
    if bytes <= 0 then 0 else bytes
  }

  /** As written, a failed recv yields a span longer than the 4096-byte buffer. */
  lemma RecvErrorOverrunsBufferAsWritten()
    ensures SpanLengthAsWritten(RecvReturn(RecvError)) > BUFFER_SIZE
  {
  }

  /** `receive()` as evidently intended: a failed recv, like a closed stream,
      yields no data; otherwise the bytes recv stored. */
  function ReceivedData(r: RecvResult): seq<byte>
  {
    if r.RecvError? then [] else r.bytes
  }

  /** The corrected span never reaches past the buffer, and agrees with the
      code as written whenever recv succeeds. */
  lemma ReceivedDataFits(r: RecvResult)
    requires FitsIn(r, BUFFER_SIZE)
    ensures |ReceivedData(r)| <= BUFFER_SIZE
    ensures r.RecvData? ==> |ReceivedData(r)| == SpanLengthAsWritten(RecvReturn(r))
  {
  }

  /** `canReceive`: acts only when Connected; an empty read enters
      Disconnected, a non-empty one is handed to `didReceived`. */
  function ReceivePath(state: ConnectionState, r: RecvResult): Transition
  {
    if state != Connected then Transition(state, [])
    else if ReceivedData(r) == [] then Entered(state, Disconnected)
    else Transition(state, [DidReceive(ReceivedData(r))])
  }

  // ------------------------------------------------------------------- send

  /** `canSend` as written: `error = io.getsockopt(...)` replaces the pending
      socket error that getsockopt stored in `error` by getsockopt's own return
      code, so only the return code decides. */
  function SendPathAsWritten(state: ConnectionState, sockOptReturn: int, soError: int): Transition
  {
    if state != Connecting then Transition(state, [])
    else Entered(state, if sockOptReturn == 0 then Connected else Disconnected)
  }

  /** As written, a connection attempt that the peer refused still enters Connected. */
  lemma RefusedConnectEntersConnectedAsWritten()
    ensures SendPathAsWritten(Connecting, 0, ECONNREFUSED).state == Connected
    ensures SendPath(Connecting, 0, ECONNREFUSED).state == Disconnected
  {
  }

  /** `canSend` as evidently intended: Connected only when getsockopt succeeds
      and reports no pending socket error. */
  function SendPath(state: ConnectionState, sockOptReturn: int, soError: int): Transition
  {
    if state != Connecting then Transition(state, [])
    else Entered(state, if sockOptReturn == 0 && soError == 0 then Connected else Disconnected)
  }

  /** The send path acts only while Connecting; it connects exactly when the
      socket reports no error, and otherwise disconnects. */
  lemma SendPathOutcome(state: ConnectionState, sockOptReturn: int, soError: int)
    ensures state != Connecting ==> SendPath(state, sockOptReturn, soError) == Transition(state, [])
    ensures state == Connecting ==>
      (SendPath(state, sockOptReturn, soError).state == Connected <==> sockOptReturn == 0 && soError == 0)
    ensures state == Connecting ==>
      (SendPath(state, sockOptReturn, soError).state == Disconnected <==> sockOptReturn != 0 || soError != 0)
  {
  }

  /** When the socket reports no pending error the corrected path agrees with the code. */
  lemma SendPathAgreesWithoutPendingError(state: ConnectionState, sockOptReturn: int)
    ensures SendPath(state, sockOptReturn, 0) == SendPathAsWritten(state, sockOptReturn, 0)
  {
  }

  // ------------------------------------------------------------------- eval

  /** The results of the system calls one `eval` may make. */
  datatype EvalIo = EvalIo(recv: RecvResult, sockOptReturn: int, soError: int)

  const FAULT_EVENTS: bv16 := POLLNVAL | POLLERR | POLLHUP
  const READ_EVENTS: bv16 := POLLIN | POLLPRI

  /** `eval(response)`: at most one of three paths, chosen by priority of the
      `revents` bits. */
  function EvalStep(state: ConnectionState, revents: bv16, io: EvalIo): Transition
  {
    if state == Disconnected then Transition(state, [])
    else if revents & FAULT_EVENTS != 0 then Entered(state, Disconnected)
    else if revents & READ_EVENTS != 0 then ReceivePath(state, io.recv)
    else if revents & POLLOUT != 0 then SendPath(state, io.sockOptReturn, io.soError)
    else Transition(state, [])
  }

  /** Evaluating on a Disconnected socket changes nothing and notifies nobody. */
  lemma EvalOnDisconnectedIsNoop(revents: bv16, io: EvalIo)
    ensures EvalStep(Disconnected, revents, io) == Transition(Disconnected, [])
  {
  }

  /** One `eval` makes at most one transition: the notifications it fires are
      those of the single `enter` from the old state to the new one, or a data
      notification when the state does not change. */
  lemma EvalAtMostOneTransition(state: ConnectionState, revents: bv16, io: EvalIo)
    ensures var t := EvalStep(state, revents, io);
      |t.hooks| <= 1 &&
      (t.state != state ==> t.hooks == EnterHooks(state, t.state)) &&
      (t.state == state ==> WentOnline !in t.hooks && WentOffline !in t.hooks)
  {
  }

  /** The priority of the event bits. */
  lemma EvalPriority(state: ConnectionState, revents: bv16, io: EvalIo)
    requires state != Disconnected
    ensures revents & FAULT_EVENTS != 0 ==>
      EvalStep(state, revents, io) == Transition(Disconnected, [WentOffline])
    ensures revents & FAULT_EVENTS == 0 && revents & READ_EVENTS != 0 ==>
      EvalStep(state, revents, io) == ReceivePath(state, io.recv)
    ensures revents & (FAULT_EVENTS | READ_EVENTS) == 0 && revents & POLLOUT != 0 ==>
      EvalStep(state, revents, io) == SendPath(state, io.sockOptReturn, io.soError)
    ensures revents == 0 ==> EvalStep(state, revents, io) == Transition(state, [])
  {
    if revents & FAULT_EVENTS == 0 && revents & READ_EVENTS != 0 {
      assert revents & FAULT_EVENTS == 0;
    }
  }

  /** The receive path: an empty or failed read while Connected disconnects,
      a non-empty one delivers exactly the bytes read and keeps the state. */
  lemma ReceivePathOutcome(state: ConnectionState, r: RecvResult)
    ensures state != Connected ==> ReceivePath(state, r) == Transition(state, [])
    ensures state == Connected && ReceivedData(r) == [] ==>
      ReceivePath(state, r) == Transition(Disconnected, [WentOffline])
    ensures state == Connected && r.RecvData? && r.bytes != [] ==>
      ReceivePath(state, r) == Transition(Connected, [DidReceive(r.bytes)])
  {
  }

  /** `eval` keeps the notification invariant. */
  lemma EvalKeepsNotifications(log: seq<Hook>, state: ConnectionState, revents: bv16, io: EvalIo)
    requires NotificationsAgree(state, log)
    ensures var t := EvalStep(state, revents, io); NotificationsAgree(t.state, log + t.hooks)
  {
    var t := EvalStep(state, revents, io);
    if t.state != state {
      EnterKeepsNotifications(log, state, t.state);
    } else if t.hooks != [] {
      AppendOne(log, t.hooks[0]);
      assert log + t.hooks == log + [t.hooks[0]];
    } else {
      assert log + t.hooks == log;
    }
  }

  // ------------------------------------------------------------------ connect

  /** Whether `connect()` from Disconnected gets as far as entering Connecting:
      the address parses, a descriptor is created, and the non-blocking connect
      either succeeded or is in progress. */
  predicate ConnectProceeds(ptonReturn: int, socketReturn: int, connectReturn: int, errno: int)
  {
    ptonReturn > 0 && socketReturn != INVALID_SOCKET && !(connectReturn == -1 && errno != EINPROGRESS)
  }

  // ------------------------------------------------------------------- class

  class IPv4Socket {
    var descriptor: int
    var state: ConnectionState
    var host: string
    const port: uint16
    const rxBuffer: array<byte>

    /** Notifications fired, in order (wentOnline, wentOffline, didReceived). */
    var hooks: seq<Hook>
    /** Descriptors handed to `io.close`, in order. */
    var closed: seq<int>
    /** (descriptor, bytes) handed to `io.send`, in order. */
    var sent: seq<(int, seq<byte>)>

    ghost predicate Valid()
      reads this
    {
      rxBuffer.Length == BUFFER_SIZE &&
      (state != Disconnected ==> descriptor != INVALID_SOCKET) &&
      NotificationsAgree(state, hooks)
    }

    /** A new socket holds no descriptor, is Disconnected, keeps its host and
        port, and has a zero-filled buffer. */
    constructor (host: string, port: uint16)
      ensures Valid()
      ensures descriptor == INVALID_SOCKET && state == Disconnected
      ensures this.host == host && this.port == port
      ensures fresh(rxBuffer) && rxBuffer[..] == seq(BUFFER_SIZE, _ => 0)
      ensures hooks == [] && closed == [] && sent == []
    {
      descriptor := INVALID_SOCKET;
      state := Disconnected;
      this.host := host;
      this.port := port;
      rxBuffer := new byte[BUFFER_SIZE](_ => 0);
      hooks, closed, sent := [], [], [];
    }

    /** The move constructor: takes the host, port and buffer contents of
        `other`, but starts Disconnected without a descriptor; `other` keeps
        its descriptor. */
    constructor MoveFrom(other: IPv4Socket)
      requires other.Valid()
      ensures Valid()
      ensures descriptor == INVALID_SOCKET && state == Disconnected
      ensures host == other.host && port == other.port
      ensures fresh(rxBuffer) && rxBuffer[..] == other.rxBuffer[..]
      ensures hooks == [] && closed == [] && sent == []
    {
      descriptor := INVALID_SOCKET;
      state := Disconnected;
      host := other.host;
      port := other.port;
      rxBuffer := new byte[BUFFER_SIZE](i reads other.rxBuffer =>
        if 0 <= i < other.rxBuffer.Length then other.rxBuffer[i] else 0);
      hooks, closed, sent := [], [], [];
    }

    function GetDescriptor(): (fd: int)
      reads this
      ensures fd == descriptor
    {
      descriptor
    }

    function GetState(): (s: ConnectionState)
      reads this
      ensures s == state
    {
      state
    }

    function GetHost(): (h: string)
      reads this
      ensures h == host
    {
      host
    }

    function GetStatus(): (text: string)
      reads this
      ensures text == StatusText(state)
    {
      StatusText(state)
    }

    /** `isOnline()`: true iff Connected, which on a valid socket is exactly
        when the owner was last notified "online". */
    function IsOnline(): (online: bool)
      reads this
      ensures online <==> state == Connected
      ensures Valid() ==> (online <==> Presence(hooks))
    {
      state == Connected
    }

    /** `enter(newState)`: the one place the state changes. */
    method Enter(newState: ConnectionState) returns (changed: bool)
      modifies this
      ensures changed <==> old(state) != newState
      ensures state == newState
      ensures hooks == old(hooks) + EnterHooks(old(state), newState)
      ensures descriptor == old(descriptor) && host == old(host)
      ensures closed == old(closed) && sent == old(sent)
    {
      if state == newState {
        return false;
      }
      state := newState;
      if state == Connected {
        hooks := hooks + [WentOnline];
      } else if state == Disconnected {
        hooks := hooks + [WentOffline];
      }
      return true;
    }

    /** `receive()`: recv stores its bytes at the start of the buffer; the
        result is that prefix of the buffer (empty for a closed stream or, as
        corrected, a failed read). */
    method Receive(r: RecvResult) returns (data: seq<byte>)
      requires Valid() && FitsIn(r, BUFFER_SIZE)
      modifies rxBuffer
      ensures data == ReceivedData(r)
      ensures data == rxBuffer[..|data|]
      ensures r.RecvData? ==> rxBuffer[..|r.bytes|] == r.bytes
      ensures r.RecvData? ==> rxBuffer[|r.bytes|..] == old(rxBuffer[|r.bytes|..])
      ensures r.RecvError? ==> rxBuffer[..] == old(rxBuffer[..])
    {
      if r.RecvData? {
        var i := 0;
        while i < |r.bytes|
          invariant 0 <= i <= |r.bytes|
          invariant forall k :: 0 <= k < i ==> rxBuffer[k] == r.bytes[k]
          invariant forall k :: i <= k < BUFFER_SIZE ==> rxBuffer[k] == old(rxBuffer[k])
        {
          rxBuffer[i] := r.bytes[i];
          i := i + 1;
        }
        assert rxBuffer[..|r.bytes|] == r.bytes;
      }
      var bytes := RecvReturn(r);
      if r.RecvError? || bytes <= 0 {
        data := [];
      } else {
        data := rxBuffer[..bytes];
      }
    }

    /** `canReceive()`, proved against `ReceivePath`. */
    method CanReceive(r: RecvResult)
      requires Valid() && FitsIn(r, BUFFER_SIZE)
      modifies this, rxBuffer
      ensures Valid()
      ensures state == ReceivePath(old(state), r).state
      ensures hooks == old(hooks) + ReceivePath(old(state), r).hooks
      ensures descriptor == old(descriptor) && host == old(host)
      ensures closed == old(closed) && sent == old(sent)
      ensures old(state) != Connected ==> rxBuffer[..] == old(rxBuffer[..])
      ensures old(state) == Connected && r.RecvData? ==> rxBuffer[..|r.bytes|] == r.bytes
    {
      if state == Connected {
        var data := Receive(r);
        if data == [] {
          EnterKeepsNotifications(hooks, state, Disconnected);
          var _ := Enter(Disconnected);
        } else {
          AppendOne(hooks, DidReceive(data));
          hooks := hooks + [DidReceive(data)];
        }
      }
    }

    /** `canSend()`, proved against the corrected `SendPath`. */
    method CanSend(sockOptReturn: int, soError: int)
      requires Valid()
      modifies this
      ensures Valid()
      ensures state == SendPath(old(state), sockOptReturn, soError).state
      ensures hooks == old(hooks) + SendPath(old(state), sockOptReturn, soError).hooks
      ensures descriptor == old(descriptor) && host == old(host)
      ensures closed == old(closed) && sent == old(sent)
    {
      if state == Connecting {
        var next := if sockOptReturn == 0 && soError == 0 then Connected else Disconnected;
        EnterKeepsNotifications(hooks, state, next);
        var _ := Enter(next);
      }
    }

    /** `eval(response)`, proved against `EvalStep`; the result says whether
        the state changed. */
    method Eval(revents: bv16, io: EvalIo) returns (changed: bool)
      requires Valid() && FitsIn(io.recv, BUFFER_SIZE)
      modifies this, rxBuffer
      ensures Valid()
      ensures state == EvalStep(old(state), revents, io).state
      ensures hooks == old(hooks) + EvalStep(old(state), revents, io).hooks
      ensures changed <==> state != old(state)
      ensures descriptor == old(descriptor) && host == old(host)
      ensures closed == old(closed) && sent == old(sent)
      ensures !(old(state) == Connected && revents & FAULT_EVENTS == 0 && revents & READ_EVENTS != 0) ==>
        rxBuffer[..] == old(rxBuffer[..])
    {
      if state == Disconnected {
        return false;
      }
      var last := state;
      if revents & FAULT_EVENTS != 0 {
        EnterKeepsNotifications(hooks, state, Disconnected);
        var _ := Enter(Disconnected);
      } else if revents & READ_EVENTS != 0 {
        CanReceive(io.recv);
      } else if revents & POLLOUT != 0 {
        CanSend(io.sockOptReturn, io.soError);
      }
      changed := state != last;
    }

    /** `connect()`: only from Disconnected; on success stores the new
        descriptor and enters Connecting. On failure the state stays
        Disconnected; the descriptor is left as it was when the address does
        not parse and is invalidated (without being closed) otherwise. */
    method Connect(ptonReturn: int, socketReturn: int, connectReturn: int, errno: int) returns (ok: bool)
      requires Valid()
      modifies this
      ensures Valid()
      ensures ok <==> old(state) == Disconnected && ConnectProceeds(ptonReturn, socketReturn, connectReturn, errno)
      ensures ok ==> state == Connecting && descriptor == socketReturn
      ensures !ok ==> state == old(state)
      ensures old(state) != Disconnected || ptonReturn <= 0 ==> descriptor == old(descriptor)
      ensures old(state) == Disconnected && ptonReturn > 0 && !ok ==> descriptor == INVALID_SOCKET
      ensures hooks == old(hooks) && host == old(host)
      ensures closed == old(closed) && sent == old(sent)
    {
      if state != Disconnected {
        return false;
      }
      if ptonReturn <= 0 {
        return false;
      }
      descriptor := socketReturn;
      if descriptor == INVALID_SOCKET {
        return false;
      }
      if connectReturn == -1 && errno != EINPROGRESS {
        descriptor := INVALID_SOCKET;
        return false;
      }
      EnterKeepsNotifications(hooks, state, Connecting);
      var _ := Enter(Connecting);
      return true;
    }

    /** `disconnect()`: closes the descriptor if there is one, invalidates it
        and enters Disconnected from any state. */
    method Disconnect()
      requires Valid()
      modifies this
      ensures Valid()
      ensures descriptor == INVALID_SOCKET && state == Disconnected
      ensures old(descriptor) != INVALID_SOCKET ==> closed == old(closed) + [old(descriptor)]
      ensures old(descriptor) == INVALID_SOCKET ==> closed == old(closed)
      ensures hooks == old(hooks) + EnterHooks(old(state), Disconnected)
      ensures host == old(host) && sent == old(sent)
    {
      if descriptor != INVALID_SOCKET {
        closed := closed + [descriptor];
        descriptor := INVALID_SOCKET;
      }
      EnterKeepsNotifications(hooks, state, Disconnected);
      var _ := Enter(Disconnected);
    }

    /** `send(buffer)`: hands the bytes to `io.send` on the current descriptor
        whatever the state, and returns io.send's size_t result converted to int. */
    method Send(buffer: seq<byte>, sendReturn: size_t) returns (result: int)
      modifies this
      ensures sent == old(sent) + [(old(descriptor), buffer)]
      ensures result == Int32(sendReturn)
      ensures descriptor == old(descriptor) && state == old(state) && host == old(host)
      ensures hooks == old(hooks) && closed == old(closed)
    {
      sent := sent + [(descriptor, buffer)];
      result := Int32(sendReturn);
    }

    /** The destructor: disconnects only when a descriptor is held, so a socket
        left Disconnected with its descriptor still open has it closed here. */
    method Destroy()
      requires Valid()
      modifies this
      ensures Valid()
      ensures descriptor == INVALID_SOCKET
      ensures old(descriptor) != INVALID_SOCKET ==>
        state == Disconnected && closed == old(closed) + [old(descriptor)] &&
        hooks == old(hooks) + EnterHooks(old(state), Disconnected)
      ensures old(descriptor) == INVALID_SOCKET ==>
        state == old(state) == Disconnected && closed == old(closed) && hooks == old(hooks)
      ensures host == old(host) && sent == old(sent)
    {
      if descriptor != INVALID_SOCKET {
        Disconnect();
      }
    }
  }

  // ------------------------------------------------------------- scenarios

  /** Connect (in progress), writable with no socket error, then an empty read:
      one "online" and one "offline", and the descriptor stays open because an
      eval-driven disconnect does not close it. */
  method ConnectOnlineOffline() returns (states: seq<ConnectionState>, hooks: seq<Hook>, fd: int, closed: seq<int>)
    ensures states == [Connecting, Connected, Disconnected]
    ensures hooks == [WentOnline, WentOffline]
    ensures fd == 3 && closed == []
  {
    var s := new IPv4Socket("127.0.0.1", 9999);
    var ok := s.Connect(1, 3, -1, EINPROGRESS);
    var afterConnect := s.state;
    var changed := s.Eval(POLLOUT, EvalIo(RecvError, 0, 0));
    var afterWritable := s.state;
    changed := s.Eval(POLLIN, EvalIo(RecvData([]), 0, 0));
    states := [afterConnect, afterWritable, s.state];
    hooks, fd, closed := s.hooks, s.descriptor, s.closed;
  }

  /** Two attempts that fail while Connecting: "offline" fires twice with no
      "online", and the first descriptor is overwritten by the second connect
      without ever being closed. */
  method FailedAttemptsNotifyOfflineTwice() returns (hooks: seq<Hook>, fd: int, closed: seq<int>)
    ensures hooks == [WentOffline, WentOffline]
    ensures fd == 4 && closed == []
  {
    var s := new IPv4Socket("127.0.0.1", 9999);
    var ok := s.Connect(1, 3, -1, EINPROGRESS);
    var changed := s.Eval(POLLERR, EvalIo(RecvError, 0, 0));
    assert s.state == Disconnected && s.hooks == [WentOffline];
    ok := s.Connect(1, 4, -1, EINPROGRESS);
    assert s.state == Connecting && s.descriptor == 4;
    changed := s.Eval(POLLOUT, EvalIo(RecvError, -1, 0));
    hooks, fd, closed := s.hooks, s.descriptor, s.closed;
  }

  /** A second `disconnect()` closes nothing: the descriptor is closed exactly once. */
  method DisconnectTwiceClosesOnce() returns (closed: seq<int>, state: ConnectionState)
    ensures closed == [3] && state == Disconnected
  {
    var s := new IPv4Socket("127.0.0.1", 9999);
    var ok := s.Connect(1, 3, 0, 0);
    s.Disconnect();
    s.Disconnect();
    closed, state := s.closed, s.state;
  }

  /** A read of "Hello" while Connected hands exactly those five bytes to `didReceived`. */
  method ReceiveHello() returns (hooks: seq<Hook>, state: ConnectionState)
    ensures hooks == [WentOnline, DidReceive([0x48, 0x65, 0x6c, 0x6c, 0x6f])]
    ensures state == Connected
  {
    var s := new IPv4Socket("127.0.0.1", 9999);
    var ok := s.Connect(1, 3, -1, EINPROGRESS);
    var changed := s.Eval(POLLOUT, EvalIo(RecvError, 0, 0));
    changed := s.Eval(POLLIN, EvalIo(RecvData([0x48, 0x65, 0x6c, 0x6c, 0x6f]), 0, 0));
    hooks, state := s.hooks, s.state;
  }
}
