/** The multiplexing engine (StickyEngine): it owns a vector of connections
    and, each cycle, reconnects the idle ones, rebuilds one `pollfd` entry per
    connection, calls `poll` once and dispatches the results by index.

    The connections' own `reconnect` and `step` are not part of this model:
    each takes the `Link` (state and descriptor) it leaves behind as a
    parameter and affects only its own connection. Their `eval` follows
    `Ipv4.EvalStep`. Every call the engine makes is appended to `trace`, so
    that the order of calls across connections can be stated. */
module Engine {
  import opened Io
  import opened EasySocket
  import Ipv4

  /** The interest mask the engine requests for every connection. */
  const POLL_EVENTS: bv16 := POLLIN | POLLPRI | POLLOUT

  datatype PollFd = PollFd(fd: int, events: bv16, revents: bv16)

  /** What a connection holds: its state and its descriptor. */
  datatype Link = Link(state: ConnectionState, descriptor: int)

  /** A call the engine makes: on connection `index`, or on `io.poll`. */
  datatype Call =
    | Reconnect(index: nat)
    | IoPoll(fds: seq<PollFd>, timeout: int)
    | Eval(index: nat, revents: bv16)
    | Step(index: nat)
    | Disconnect(index: nat)

  class StickySocket {
    var state: ConnectionState
    var descriptor: int
    const host: string
    const port: uint16
    /** The position the engine gave the connection in its vector. */
    ghost const slot: nat

    constructor (host: string, port: uint16, ghost slot: nat)
      ensures state == Disconnected && descriptor == INVALID_SOCKET
      ensures this.host == host && this.port == port && this.slot == slot
    {
      state := Disconnected;
      descriptor := INVALID_SOCKET;
      this.host := host;
      this.port := port;
      this.slot := slot;
    }

    function Held(): Link
      reads this
    {
      Link(state, descriptor)
    }

    function GetState(): (s: ConnectionState)
      reads this
      ensures s == state
    {
      state
    }

    function GetDescriptor(): (fd: int)
      reads this
      ensures fd == descriptor
    {
      descriptor
    }

    /** `reconnect()`: leaves the connection holding `outcome`. */
    method Reconnect(outcome: Link)
      modifies this
      ensures Held() == outcome
    {
      state, descriptor := outcome.state, outcome.descriptor;
    }

    /** `eval(response)`: the state follows the corrected `Ipv4.EvalStep`, the descriptor is
        kept, and the result says whether the state changed. */
    method Eval(revents: bv16, io: Ipv4.EvalIo) returns (changed: bool)
      modifies this
      ensures state == EvalState(old(state), revents, io) == Ipv4.EvalStep(old(state), revents, io).state
      ensures descriptor == old(descriptor)
      ensures changed <==> state != old(state)
    {
      EvalStateIsEvalStep(state, revents, io);
      var last := state;
      state := EvalState(state, revents, io);
      changed := state != last;
    }

    /** `step()`: leaves the connection holding `outcome`. */
    method Step(outcome: Link)
      modifies this
      ensures Held() == outcome
    {
      state, descriptor := outcome.state, outcome.descriptor;
    }

    /** `disconnect()`, as for IPv4Socket: Disconnected, no descriptor held. */
    method Disconnect()
      modifies this
      ensures state == Disconnected && descriptor == INVALID_SOCKET
    {
      state, descriptor := Disconnected, INVALID_SOCKET;
    }
  }

  // ------------------------------------------------- the cycle, on values

  /** The links after the reconnect phase: each Disconnected one is replaced
      by what its `reconnect()` left behind. */
  function AfterReconnect(links: seq<Link>, reconnectWith: nat -> Link): seq<Link>
  {
    seq(|links|, i requires 0 <= i < |links| =>
      if links[i].state == Disconnected then reconnectWith(i) else links[i])
  }

  function ReconnectOne(l: Link, i: nat): seq<Call>
  {
    if l.state == Disconnected then [Reconnect(i)] else []
  }

  /** The calls of the reconnect phase on the first `n` connections. */
  function ReconnectCalls(links: seq<Link>, n: nat): seq<Call>
    requires n <= |links|
  {
    if n == 0 then [] else ReconnectCalls(links, n - 1) + ReconnectOne(links[n - 1], n - 1)
  }

  /** `rebuild_poll_params`: one entry per link, in order. */
  function PollList(links: seq<Link>): seq<PollFd>
  {
    seq(|links|, i requires 0 <= i < |links| => PollFd(links[i].descriptor, POLL_EVENTS, 0))
  }

  /** The list after `io.poll` has written the `revents` it reports. */
  function WithRevents(fds: seq<PollFd>, ready: nat -> bv16): seq<PollFd>
  {
    seq(|fds|, i requires 0 <= i < |fds| => fds[i].(revents := ready(i)))
  }

  /** The state `eval` leaves a connection in: the state part of
      `Ipv4.EvalStep`, without its notifications. */
  function EvalState(state: ConnectionState, revents: bv16, io: Ipv4.EvalIo): ConnectionState
  {
    if state == Disconnected then state
    else if revents & Ipv4.FAULT_EVENTS != 0 then Disconnected
    else if revents & Ipv4.READ_EVENTS != 0 then
      (if state == Connected && (io.recv.RecvError? || io.recv.bytes == []) then Disconnected else state)
    else if revents & POLLOUT != 0 && state == Connecting then
      (if io.sockOptReturn == 0 && io.soError == 0 then Connected else Disconnected)
    else state
  }

  /** `EvalState` is exactly the state the corrected `IPv4Socket::eval`
      leaves behind (the corrected receive and send paths of `Ipv4`). */
  lemma EvalStateIsEvalStep(state: ConnectionState, revents: bv16, io: Ipv4.EvalIo)
    ensures EvalState(state, revents, io) == Ipv4.EvalStep(state, revents, io).state
  {
  }

  /** Whether `eval` on a link reports a change of state. */
  function EvalChanges(l: Link, revents: bv16, io: Ipv4.EvalIo): bool
  {
    EvalState(l.state, revents, io) != l.state
  }

  /** Dispatch to one link: nothing when Disconnected; otherwise `eval`, and
      `step()` when `eval` returned false. */
  function Dispatched(l: Link, i: nat, revents: bv16, io: Ipv4.EvalIo, stepWith: nat -> Link): Link
  {
    if l.state == Disconnected then l
    else if EvalChanges(l, revents, io) then Link(EvalState(l.state, revents, io), l.descriptor)
    else stepWith(i)
  }

  /** The calls of dispatch to one link, given whether its `eval` reports
      a change. */
  function DispatchOne(l: Link, i: nat, revents: bv16, changed: bool): seq<Call>
  {
    if l.state == Disconnected then []
    else if changed then [Eval(i, revents)]
    else [Eval(i, revents), Step(i)]
  }

  /** What `eval` reports on each link, in order. */
  function Changes(links: seq<Link>, polled: seq<PollFd>, evalWith: nat -> Ipv4.EvalIo): (changed: seq<bool>)
    requires |polled| == |links|
    ensures |changed| == |links|
  {
    seq(|links|, i requires 0 <= i < |links| => EvalChanges(links[i], polled[i].revents, evalWith(i)))
  }

  function AfterDispatch(links: seq<Link>, polled: seq<PollFd>, evalWith: nat -> Ipv4.EvalIo,
                         stepWith: nat -> Link): seq<Link>
    requires |polled| == |links|
  {
    seq(|links|, i requires 0 <= i < |links| =>
      Dispatched(links[i], i, polled[i].revents, evalWith(i), stepWith))
  }

  /** The calls of the dispatch phase on the first `n` connections. */
  function DispatchCalls(links: seq<Link>, polled: seq<PollFd>, changed: seq<bool>, n: nat): seq<Call>
    requires |polled| == |links| && |changed| == |links| && n <= |links|
  {
    if n == 0 then []
    else DispatchCalls(links, polled, changed, n - 1) +
         DispatchOne(links[n - 1], n - 1, polled[n - 1].revents, changed[n - 1])
  }

  /** The oracle results one cycle sees: what each `reconnect()` leaves, what
      `io.poll` returns and reports, the system-call results of each `eval`,
      and what each `step()` leaves. */
  datatype CycleIo = CycleIo(
    reconnectWith: nat -> Link,
    pollReturn: int,
    ready: nat -> bv16,
    evalWith: nat -> Ipv4.EvalIo,
    stepWith: nat -> Link)

  datatype CycleResult = CycleResult(links: seq<Link>, responses: seq<PollFd>, calls: seq<Call>)

  /** One `StickyEngine::poll(duration)` cycle on values. */
  function Cycle(links: seq<Link>, duration: int, io: CycleIo): CycleResult
  {
    var reconnected := AfterReconnect(links, io.reconnectWith);
    var fds := PollList(reconnected);
    var polled := WithRevents(fds, io.ready);
    var before := ReconnectCalls(links, |links|) + [IoPoll(fds, duration)];
    if io.pollReturn > 0 then
      CycleResult(AfterDispatch(reconnected, polled, io.evalWith, io.stepWith), polled,
                  before + DispatchCalls(reconnected, polled, Changes(reconnected, polled, io.evalWith), |links|))
    else
      CycleResult(reconnected, polled, before)
  }

  // ------------------------------------------------------ lemmas on values

  /** How many times `c` occurs in `calls`. */
  function Occurrences(calls: seq<Call>, c: Call): nat
  {
    if |calls| == 0 then 0 else (if calls[0] == c then 1 else 0) + Occurrences(calls[1..], c)
  }

  lemma {:induction false} OccurrencesAppend(a: seq<Call>, b: seq<Call>, c: Call)
    ensures Occurrences(a + b, c) == Occurrences(a, c) + Occurrences(b, c)
  {
    if |a| == 0 {
      assert a + b == b;
    } else {
      assert (a + b)[1..] == a[1..] + b;
      OccurrencesAppend(a[1..], b, c);
    }
  }

  lemma OccurrencesOne(x: Call, c: Call)
    ensures Occurrences([x], c) == if x == c then 1 else 0
  {
    assert [x][1..] == [];
  }

  lemma {:induction false} OccurrencesAbsent(calls: seq<Call>, c: Call)
    requires c !in calls
    ensures Occurrences(calls, c) == 0
  {
    if |calls| > 0 {
      OccurrencesAbsent(calls[1..], c);
    }
  }

  /** The reconnect phase calls only `reconnect`, on indices below `n`. */
  lemma {:induction false} ReconnectCallsKinds(links: seq<Link>, n: nat)
    requires n <= |links|
    ensures forall k :: 0 <= k < |ReconnectCalls(links, n)| ==>
      ReconnectCalls(links, n)[k].Reconnect? && ReconnectCalls(links, n)[k].index < n
  {
    if n > 0 {
      ReconnectCallsKinds(links, n - 1);
    }
  }

  /** The reconnect phase calls `reconnect` once on each Disconnected
      connection and never on the others. */
  lemma {:induction false} ReconnectCallsCount(links: seq<Link>, n: nat, i: nat)
    requires n <= |links|
    ensures Occurrences(ReconnectCalls(links, n), Reconnect(i)) ==
      if i < n && links[i].state == Disconnected then 1 else 0
  {
    if n > 0 {
      ReconnectCallsCount(links, n - 1, i);
      OccurrencesAppend(ReconnectCalls(links, n - 1), ReconnectOne(links[n - 1], n - 1), Reconnect(i));
      OccurrencesOne(Reconnect(n - 1), Reconnect(i));
    }
  }

  /** The dispatch phase calls only `eval` and `step`, on indices below `n`. */
  lemma {:induction false} DispatchCallsKinds(links: seq<Link>, polled: seq<PollFd>,
                                               changed: seq<bool>, n: nat)
    requires |polled| == |links| && |changed| == |links| && n <= |links|
    ensures forall k :: 0 <= k < |DispatchCalls(links, polled, changed, n)| ==>
      (DispatchCalls(links, polled, changed, n)[k].Eval? || DispatchCalls(links, polled, changed, n)[k].Step?) &&
      DispatchCalls(links, polled, changed, n)[k].index < n
  {
    if n > 0 {
      DispatchCallsKinds(links, polled, changed, n - 1);
    }
  }

  /** Dispatch to one link calls `eval` on it once unless it is
      Disconnected. */
  lemma DispatchOneEvals(l: Link, j: nat, revents: bv16, changed: bool, i: nat, r: bv16)
    ensures Occurrences(DispatchOne(l, j, revents, changed), Eval(i, r)) ==
      if l.state != Disconnected && i == j && r == revents then 1 else 0
  {
    if l.state != Disconnected {
      var tail := if changed then [] else [Step(j)];
      assert DispatchOne(l, j, revents, changed) == [Eval(j, revents)] + tail;
      OccurrencesAppend([Eval(j, revents)], tail, Eval(i, r));
      OccurrencesOne(Eval(j, revents), Eval(i, r));
      OccurrencesAbsent(tail, Eval(i, r));
    }
  }

  /** It then calls `step` once when that `eval` returned false. */
  lemma DispatchOneSteps(l: Link, j: nat, revents: bv16, changed: bool, i: nat)
    ensures Occurrences(DispatchOne(l, j, revents, changed), Step(i)) ==
      if l.state != Disconnected && i == j && !changed then 1 else 0
  {
    if l.state != Disconnected {
      var tail := if changed then [] else [Step(j)];
      assert DispatchOne(l, j, revents, changed) == [Eval(j, revents)] + tail;
      OccurrencesAppend([Eval(j, revents)], tail, Step(i));
      OccurrencesOne(Eval(j, revents), Step(i));
      if tail != [] {
        OccurrencesOne(Step(j), Step(i));
      }
    }
  }

  /** The number of calls to `c` that dispatch makes, summed link by link. */
  function DispatchCount(links: seq<Link>, polled: seq<PollFd>, changed: seq<bool>, n: nat, c: Call): nat
    requires |polled| == |links| && |changed| == |links| && n <= |links|
  {
    if n == 0 then 0
    else DispatchCount(links, polled, changed, n - 1, c) +
         Occurrences(DispatchOne(links[n - 1], n - 1, polled[n - 1].revents, changed[n - 1]), c)
  }

  /** Counting the calls of the dispatch phase is counting link by link. */
  lemma {:induction false} DispatchCountOccurrences(links: seq<Link>, polled: seq<PollFd>,
                                                     changed: seq<bool>, n: nat, c: Call)
    requires |polled| == |links| && |changed| == |links| && n <= |links|
    ensures Occurrences(DispatchCalls(links, polled, changed, n), c) == DispatchCount(links, polled, changed, n, c)
  {
    if n == 0 {
      assert |DispatchCalls(links, polled, changed, n)| == 0;
    } else {
      var prefix := DispatchCalls(links, polled, changed, n - 1);
      var last := DispatchOne(links[n - 1], n - 1, polled[n - 1].revents, changed[n - 1]);
      assert DispatchCalls(links, polled, changed, n) == prefix + last;
      DispatchCountOccurrences(links, polled, changed, n - 1, c);
      OccurrencesAppend(prefix, last, c);
      assert DispatchCount(links, polled, changed, n, c) == DispatchCount(links, polled, changed, n - 1, c) + Occurrences(last, c);
    }
  }

  /** Link by link, dispatch calls `eval` once on each connection that is
      not Disconnected, with the `revents` poll reported for it. */
  lemma {:induction false} DispatchCountEvals(links: seq<Link>, polled: seq<PollFd>,
                                               changed: seq<bool>, n: nat, i: nat, r: bv16)
    requires |polled| == |links| && |changed| == |links| && n <= |links|
    ensures DispatchCount(links, polled, changed, n, Eval(i, r)) ==
      if i < n && links[i].state != Disconnected && r == polled[i].revents then 1 else 0
  {
    if n > 0 {
      DispatchCountEvals(links, polled, changed, n - 1, i, r);
      DispatchOneEvals(links[n - 1], n - 1, polled[n - 1].revents, changed[n - 1], i, r);
    }
  }

  /** Link by link, dispatch calls `step` once on each connection whose
      `eval` returned false. */
  lemma {:induction false} DispatchCountSteps(links: seq<Link>, polled: seq<PollFd>,
                                               changed: seq<bool>, n: nat, i: nat)
    requires |polled| == |links| && |changed| == |links| && n <= |links|
    ensures DispatchCount(links, polled, changed, n, Step(i)) ==
      if i < n && links[i].state != Disconnected && !changed[i] then 1 else 0
  {
    if n > 0 {
      DispatchCountSteps(links, polled, changed, n - 1, i);
      DispatchOneSteps(links[n - 1], n - 1, polled[n - 1].revents, changed[n - 1], i);
    }
  }

  /** The dispatch phase calls `eval` once on each connection that is not
      Disconnected, with the `revents` poll reported for it, and never
      otherwise. */
  lemma DispatchEvalCount(links: seq<Link>, polled: seq<PollFd>,
                          changed: seq<bool>, n: nat, i: nat, r: bv16)
    requires |polled| == |links| && |changed| == |links| && n <= |links|
    ensures Occurrences(DispatchCalls(links, polled, changed, n), Eval(i, r)) ==
      if i < n && links[i].state != Disconnected && r == polled[i].revents then 1 else 0
  {
    DispatchCountOccurrences(links, polled, changed, n, Eval(i, r));
    DispatchCountEvals(links, polled, changed, n, i, r);
  }

  /** The dispatch phase calls `step` once on each connection whose `eval`
      returned false, and never otherwise. */
  lemma DispatchStepCount(links: seq<Link>, polled: seq<PollFd>,
                          changed: seq<bool>, n: nat, i: nat)
    requires |polled| == |links| && |changed| == |links| && n <= |links|
    ensures Occurrences(DispatchCalls(links, polled, changed, n), Step(i)) ==
      if i < n && links[i].state != Disconnected && !changed[i] then 1 else 0
  {
    DispatchCountOccurrences(links, polled, changed, n, Step(i));
    DispatchCountSteps(links, polled, changed, n, i);
  }

  /** The calls made before dispatch: the reconnects, then `poll` on the
      rebuilt list. */
  function CallsBeforeDispatch(links: seq<Link>, duration: int, io: CycleIo): seq<Call>
  {
    ReconnectCalls(links, |links|) + [IoPoll(PollList(AfterReconnect(links, io.reconnectWith)), duration)]
  }

  /** `Cycle` as the composition of its phases. */
  lemma CycleByPhases(links: seq<Link>, duration: int, io: CycleIo)
    ensures Cycle(links, duration, io).responses ==
      WithRevents(PollList(AfterReconnect(links, io.reconnectWith)), io.ready)
    ensures Cycle(links, duration, io).links ==
      if io.pollReturn > 0
      then AfterDispatch(AfterReconnect(links, io.reconnectWith), Cycle(links, duration, io).responses,
                         io.evalWith, io.stepWith)
      else AfterReconnect(links, io.reconnectWith)
    ensures Cycle(links, duration, io).calls == CallsBeforeDispatch(links, duration, io) +
      if io.pollReturn > 0
      then DispatchCalls(AfterReconnect(links, io.reconnectWith), Cycle(links, duration, io).responses,
                         Changes(AfterReconnect(links, io.reconnectWith), Cycle(links, duration, io).responses,
                                 io.evalWith), |links|)
      else []
  {
  }

  /** The shape of one cycle: the reconnects, then exactly one `poll` with one
      entry per connection in order (descriptor, POLLIN|POLLPRI|POLLOUT, no
      revents) and the given timeout, then only `eval` and `step` calls, and
      none of those when poll returned zero or less. Connections are neither
      added, removed nor reordered. */
  lemma CycleShape(links: seq<Link>, duration: int, io: CycleIo)
    ensures |Cycle(links, duration, io).links| == |links|
    ensures |Cycle(links, duration, io).responses| == |links|
    ensures Cycle(links, duration, io).calls[..|CallsBeforeDispatch(links, duration, io)|] ==
      CallsBeforeDispatch(links, duration, io)
    ensures forall j :: 0 <= j < |ReconnectCalls(links, |links|)| ==> Cycle(links, duration, io).calls[j].Reconnect?
    ensures forall j :: |CallsBeforeDispatch(links, duration, io)| <= j < |Cycle(links, duration, io).calls| ==>
      Cycle(links, duration, io).calls[j].Eval? || Cycle(links, duration, io).calls[j].Step?
    ensures io.pollReturn <= 0 ==> Cycle(links, duration, io).calls == CallsBeforeDispatch(links, duration, io)
    ensures forall i :: 0 <= i < |links| ==>
      PollList(AfterReconnect(links, io.reconnectWith))[i] ==
      PollFd(AfterReconnect(links, io.reconnectWith)[i].descriptor, POLL_EVENTS, 0)
  {
    var reconnected := AfterReconnect(links, io.reconnectWith);
    ReconnectCallsKinds(links, |links|);
    var polled := WithRevents(PollList(reconnected), io.ready);
    var changed := Changes(reconnected, polled, io.evalWith);
    DispatchCallsKinds(reconnected, polled, changed, |links|);
    var before := CallsBeforeDispatch(links, duration, io);
    var after := DispatchCalls(reconnected, polled, changed, |links|);
    forall j | |before| <= j < |before + after|
      ensures (before + after)[j] == after[j - |before|]
    {
    }
  }

  /** Who is called, and how often, in one cycle: `poll` exactly once, on the
      rebuilt list; `reconnect` once on each connection that was Disconnected
      at the start, never on the others; `eval` once on each connection not
      Disconnected after the reconnect phase, with the `revents` poll reported,
      and only when poll returned a positive count; `step` once where that
      `eval` returned false. A connection still Disconnected after its
      reconnect receives no `eval`. */
  lemma CycleCalls(links: seq<Link>, duration: int, io: CycleIo, i: nat, rev: bv16)
    requires i < |links|
    ensures Occurrences(Cycle(links, duration, io).calls,
                        IoPoll(PollList(AfterReconnect(links, io.reconnectWith)), duration)) == 1
    ensures Occurrences(Cycle(links, duration, io).calls, Reconnect(i)) ==
      if links[i].state == Disconnected then 1 else 0
    ensures Occurrences(Cycle(links, duration, io).calls, Eval(i, rev)) ==
      if io.pollReturn > 0 && AfterReconnect(links, io.reconnectWith)[i].state != Disconnected &&
         rev == io.ready(i)
      then 1 else 0
    ensures Occurrences(Cycle(links, duration, io).calls, Step(i)) ==
      if io.pollReturn > 0 && AfterReconnect(links, io.reconnectWith)[i].state != Disconnected &&
         !EvalChanges(AfterReconnect(links, io.reconnectWith)[i], io.ready(i), io.evalWith(i))
      then 1 else 0
  {
    var reconnected := AfterReconnect(links, io.reconnectWith);
    var polled := WithRevents(PollList(reconnected), io.ready);
    var reconnects := ReconnectCalls(links, |links|);
    var polling := IoPoll(PollList(reconnected), duration);
    var changed := Changes(reconnected, polled, io.evalWith);
    var after := if io.pollReturn > 0 then DispatchCalls(reconnected, polled, changed, |links|) else [];
    CycleByPhases(links, duration, io);
    assert Cycle(links, duration, io).calls == reconnects + [polling] + after;
    ReconnectCallsKinds(links, |links|);
    ReconnectCallsCount(links, |links|, i);
    OccurrencesAbsent(reconnects, polling);
    OccurrencesAbsent(reconnects, Eval(i, rev));
    OccurrencesAbsent(reconnects, Step(i));
    if io.pollReturn > 0 {
      DispatchCallsKinds(reconnected, polled, changed, |links|);
      DispatchEvalCount(reconnected, polled, changed, |links|, i, rev);
      DispatchStepCount(reconnected, polled, changed, |links|, i);
    }
    OccurrencesAbsent(after, polling);
    OccurrencesAbsent(after, Reconnect(i));
    SplitCount(reconnects, polling, after, polling);
    SplitCount(reconnects, polling, after, Reconnect(i));
    SplitCount(reconnects, polling, after, Eval(i, rev));
    SplitCount(reconnects, polling, after, Step(i));
  }

  lemma SplitCount(before: seq<Call>, polling: Call, after: seq<Call>, c: Call)
    ensures Occurrences(before + [polling] + after, c) ==
      Occurrences(before, c) + (if polling == c then 1 else 0) + Occurrences(after, c)
  {
    OccurrencesAppend(before, [polling], c);
    OccurrencesAppend(before + [polling], after, c);
    OccurrencesOne(polling, c);
  }

  lemma AppendAssociates(a: seq<Call>, b: seq<Call>, c: seq<Call>)
    ensures a + b + c == a + (b + c)
  {
  }

  /** One more step of the dispatch loop extends its calls by those on
      link `i`; the `eval` result matters only where `eval` is called. */
  lemma DispatchCallsStep(links: seq<Link>, polled: seq<PollFd>, changed: seq<bool>, i: nat,
                          c: bool, prior: seq<Call>)
    requires |polled| == |links| && |changed| == |links| && i < |links|
    requires links[i].state != Disconnected ==> c == changed[i]
    ensures prior + DispatchCalls(links, polled, changed, i) + DispatchOne(links[i], i, polled[i].revents, c) ==
      prior + DispatchCalls(links, polled, changed, i + 1)
  {
    AppendAssociates(prior, DispatchCalls(links, polled, changed, i), DispatchOne(links[i], i, polled[i].revents, c));
  }

  /** The calls of the destructor on `n` connections. */
  function DisconnectCalls(n: nat): seq<Call>
  {
    seq(n, i requires 0 <= i < n => Disconnect(i))
  }

  // ------------------------------------------------------------- engine

  class StickyEngine {
    var connections: seq<StickySocket>
    var responses: seq<PollFd>
    /** Every call the engine has made, in order. */
    var trace: seq<Call>

    /** The engine owns its connections: each sits at the position it was
        given, so no connection appears twice. */
    ghost predicate Valid()
      reads this`connections
    {
      forall i :: 0 <= i < |connections| ==> connections[i].slot == i
    }

    ghost function Links(): (links: seq<Link>)
      reads this`connections, connections
      ensures |links| == |connections|
      ensures forall i :: 0 <= i < |connections| ==> links[i] == connections[i].Held()
    {
      var owned := connections;
      seq(|owned|, i reads owned requires 0 <= i < |owned| => owned[i].Held())
    }

    constructor ()
      ensures Valid() && connections == [] && responses == [] && trace == []
    {
      connections, responses, trace := [], [], [];
    }

    /** `makeSocket(host, port)`: appends one new Disconnected connection and
        returns it; the connections already present are kept, in order. */
    method MakeSocket(host: string, port: uint16) returns (s: StickySocket)
      requires Valid()
      modifies this
      ensures Valid() && fresh(s)
      ensures connections == old(connections) + [s]
      ensures s.host == host && s.port == port
      ensures s.state == Disconnected && s.descriptor == INVALID_SOCKET
      ensures responses == old(responses) && trace == old(trace)
    {
      s := new StickySocket(host, port, |connections|);
      connections := connections + [s];
    }

    /** `rebuild_poll_params()`: one entry per connection, in order. */
    method RebuildPollParams()
      modifies this`responses
      ensures responses == PollList(Links())
    {
      responses := [];
      var i := 0;
      while i < |connections|
        invariant 0 <= i <= |connections|
        invariant |responses| == i
        invariant forall j :: 0 <= j < i ==> responses[j] == PollFd(connections[j].descriptor, POLL_EVENTS, 0)
      {
        responses := responses + [PollFd(connections[i].GetDescriptor(), POLL_EVENTS, 0)];
        i := i + 1;
      }
    }

    /** The body of the reconnect loop for entry `i`: `reconnect()` when
        its connection is Disconnected. */
    method ReconnectAt(i: nat, reconnectWith: nat -> Link)
      requires Valid() && i < |connections|
      modifies this`trace, connections[i]
      ensures connections[i].Held() == (if old(connections[i].Held()).state == Disconnected
                                        then reconnectWith(i) else old(connections[i].Held()))
      ensures forall j :: 0 <= j < |connections| && j != i ==> connections[j].Held() == old(connections[j].Held())
      ensures trace == old(trace) + ReconnectOne(old(connections[i].Held()), i)
    {
      var skt := connections[i];
      if skt.GetState() == Disconnected {
        skt.Reconnect(reconnectWith(i));
        trace := trace + [Reconnect(i)];
      }
    }

    /** The first loop of `poll`: `ReconnectAt` on every connection, in order. */
    method ReconnectIdle(reconnectWith: nat -> Link)
      requires Valid()
      modifies this`trace, connections
      ensures Links() == AfterReconnect(old(Links()), reconnectWith)
      ensures trace == old(trace) + ReconnectCalls(old(Links()), |connections|)
    {
      ghost var links0 := Links();
      ghost var reconnected := AfterReconnect(links0, reconnectWith);
      var i := 0;
      while i < |connections|
        invariant 0 <= i <= |connections|
        invariant forall j :: 0 <= j < i ==> connections[j].Held() == reconnected[j]
        invariant forall j :: i <= j < |connections| ==> connections[j].Held() == links0[j]
        invariant trace == old(trace) + ReconnectCalls(links0, i)
      {
        ghost var done := ReconnectCalls(links0, i);
        ghost var one := ReconnectOne(links0[i], i);
        ReconnectAt(i, reconnectWith);
        AppendAssociates(old(trace), done, one);
        i := i + 1;
      }
    }

    /** The body of the dispatch loop for entry `i`: `eval` on its
        connection unless it is Disconnected, then `step()` when `eval`
        returned false. */
    method DispatchAt(i: nat, revents: bv16, evalWith: nat -> Ipv4.EvalIo, stepWith: nat -> Link)
      returns (changed: bool)
      requires Valid() && i < |connections|
      modifies this`trace, connections[i]
      ensures connections[i].Held() == Dispatched(old(connections[i].Held()), i, revents, evalWith(i), stepWith)
      ensures forall j :: 0 <= j < |connections| && j != i ==> connections[j].Held() == old(connections[j].Held())
      ensures old(connections[i].state) != Disconnected ==>
        changed == EvalChanges(old(connections[i].Held()), revents, evalWith(i))
      ensures trace == old(trace) + DispatchOne(old(connections[i].Held()), i, revents, changed)
    {
      changed := false;
      var skt := connections[i];
      if skt.GetState() != Disconnected {
        changed := skt.Eval(revents, evalWith(i));
        trace := trace + [Eval(i, revents)];
        if !changed {
          skt.Step(stepWith(i));
          trace := trace + [Step(i)];
        }
      }
    }

    /** The dispatch loop of `poll`: `DispatchAt` on every entry, in order. */
    method DispatchAll(evalWith: nat -> Ipv4.EvalIo, stepWith: nat -> Link)
      requires Valid() && |responses| == |connections|
      modifies this`trace, connections
      ensures Links() == AfterDispatch(old(Links()), responses, evalWith, stepWith)
      ensures trace == old(trace) +
        DispatchCalls(old(Links()), responses, Changes(old(Links()), responses, evalWith), |connections|)
    {
      ghost var links := Links();
      var polled := responses;
      ghost var dispatched := AfterDispatch(links, polled, evalWith, stepWith);
      ghost var changed := Changes(links, polled, evalWith);
      var i := 0;
      while i < |polled|
        invariant 0 <= i <= |polled|
        invariant forall j :: 0 <= j < i ==> connections[j].Held() == dispatched[j]
        invariant forall j :: i <= j < |connections| ==> connections[j].Held() == links[j]
        invariant trace == old(trace) + DispatchCalls(links, polled, changed, i)
      {
        var c := DispatchAt(i, polled[i].revents, evalWith, stepWith);
        assert connections[i].Held() == dispatched[i];
        DispatchCallsStep(links, polled, changed, i, c, old(trace));
        i := i + 1;
      }
    }

    /** The rest of `poll` after the reconnect loop: rebuild the list, call
        `io.poll` once, and dispatch when it returned a positive count. */
    method PollAndDispatch(duration: int, io: CycleIo) returns (events: int)
      requires Valid()
      modifies this`trace, this`responses, connections
      ensures events == io.pollReturn
      ensures responses == WithRevents(PollList(old(Links())), io.ready)
      ensures Links() == if io.pollReturn > 0 then AfterDispatch(old(Links()), responses, io.evalWith, io.stepWith)
                         else old(Links())
      ensures trace == old(trace) + [IoPoll(PollList(old(Links())), duration)] +
        (if io.pollReturn > 0
         then DispatchCalls(old(Links()), responses, Changes(old(Links()), responses, io.evalWith), |connections|)
         else [])
    {
      RebuildPollParams();
      trace := trace + [IoPoll(responses, duration)];
      responses := WithRevents(responses, io.ready);
      events := io.pollReturn;
      if events > 0 {
        DispatchAll(io.evalWith, io.stepWith);
      }
    }

    /** `poll(duration)`: one cycle, proved against the phase functions
        (and so against `Cycle`, by `CycleByPhases`); returns what `io.poll`
        returned. A negative return is only logged. */
    method Poll(duration: int, io: CycleIo) returns (events: int)
      requires Valid()
      modifies this`trace, this`responses, connections
      ensures events == io.pollReturn
      ensures responses == WithRevents(PollList(AfterReconnect(old(Links()), io.reconnectWith)), io.ready)
      ensures Links() == if io.pollReturn > 0
        then AfterDispatch(AfterReconnect(old(Links()), io.reconnectWith), responses, io.evalWith, io.stepWith)
        else AfterReconnect(old(Links()), io.reconnectWith)
      ensures trace == old(trace) + ReconnectCalls(old(Links()), |connections|) +
        [IoPoll(PollList(AfterReconnect(old(Links()), io.reconnectWith)), duration)] +
        (if io.pollReturn > 0
         then DispatchCalls(AfterReconnect(old(Links()), io.reconnectWith), responses,
                            Changes(AfterReconnect(old(Links()), io.reconnectWith), responses, io.evalWith),
                            |connections|)
         else [])
    {
      ReconnectIdle(io.reconnectWith);
      events := PollAndDispatch(duration, io);
    }

    /** The destructor: `disconnect()` on every owned connection, in order. */
    method Destroy()
      requires Valid()
      modifies this, connections
      ensures Valid() && connections == old(connections) && responses == old(responses)
      ensures forall i :: 0 <= i < |connections| ==> connections[i].Held() == Link(Disconnected, INVALID_SOCKET)
      ensures trace == old(trace) + DisconnectCalls(|connections|)
    {
      var i := 0;
      while i < |connections|
        invariant 0 <= i <= |connections|
        invariant connections == old(connections) && responses == old(responses) && Valid()
        invariant forall j :: 0 <= j < i ==> connections[j].Held() == Link(Disconnected, INVALID_SOCKET)
        invariant trace == old(trace) + DisconnectCalls(i)
      {
        connections[i].Disconnect();
        trace := trace + [Disconnect(i)];
        i := i + 1;
      }
    }
  }
}
