/** The connection states shared by every socket (EasySocketIntf), their
    textual names, and the notification hooks a socket fires, recorded as a
    log so that properties of the whole notification history can be stated. */
module EasySocket {
  import opened Io

  datatype ConnectionState = Disconnected | Connecting | Connected

  /** `getStatus`: the name of a state. */
  function StatusText(s: ConnectionState): (text: string)
    ensures text == "Disconnected" <==> s == Disconnected
    ensures text == "Connecting" <==> s == Connecting
    ensures text == "Connected" <==> s == Connected
  {
    match s
    case Disconnected => "Disconnected"
    case Connecting => "Connecting"
    case Connected => "Connected"
  }

  /** Distinct states have distinct names, so the name identifies the state. */
  lemma StatusTextInjective(a: ConnectionState, b: ConnectionState)
    ensures StatusText(a) == StatusText(b) <==> a == b
  {
  }

  /** A notification delivered to the socket's owner. */
  datatype Hook = WentOnline | WentOffline | DidReceive(data: seq<byte>)

  /** True iff the last online/offline notification in `log` is `WentOnline`. */
  function Presence(log: seq<Hook>): bool
  {
    if log == [] then false
    else match log[|log| - 1]
      case WentOnline => true
      case WentOffline => false
      case DidReceive(_) => Presence(log[..|log| - 1])
  }

  /** Every `WentOnline` in `log` is fired while the owner is not already online. */
  predicate Alternating(log: seq<Hook>)
  {
    log == [] ||
    (Alternating(log[..|log| - 1]) &&
     (log[|log| - 1] == WentOnline ==> !Presence(log[..|log| - 1])))
  }

  function Count(log: seq<Hook>, h: Hook): nat
  {
    if log == [] then 0
    else Count(log[..|log| - 1], h) + (if log[|log| - 1] == h then 1 else 0)
  }

  /** After a `WentOnline` with no later `WentOffline`, the owner is online. */
  lemma {:induction false} OnlineUntilOffline(log: seq<Hook>, i: nat)
    requires i < |log| && log[i] == WentOnline
    requires forall k :: i < k < |log| ==> log[k] != WentOffline
    ensures Presence(log)
  {
    if i < |log| - 1 && log[|log| - 1].DidReceive? {
      OnlineUntilOffline(log[..|log| - 1], i);
    }
  }

  /** `WentOnline` never fires twice without a `WentOffline` in between. */
  lemma {:induction false} NoDoubleOnline(log: seq<Hook>, i: nat, j: nat)
    requires Alternating(log)
    requires i < j < |log| && log[i] == WentOnline && log[j] == WentOnline
    ensures exists k :: i < k < j && log[k] == WentOffline
  {
    var prefix := log[..|log| - 1];
    if j < |log| - 1 {
      NoDoubleOnline(prefix, i, j);
      var k :| i < k < j && prefix[k] == WentOffline;
      assert log[k] == WentOffline;
    } else if forall k :: i < k < j ==> log[k] != WentOffline {
      OnlineUntilOffline(prefix, i);
    }
  }

  /** Online notifications outnumber offline ones by at most one, and only while online. */
  lemma {:induction false} OnlineCountBound(log: seq<Hook>)
    requires Alternating(log)
    ensures Count(log, WentOnline) <= Count(log, WentOffline) + (if Presence(log) then 1 else 0)
  {
    if log != [] {
      OnlineCountBound(log[..|log| - 1]);
    }
  }
}
