/** The operating-system boundary the connection layer talks to (the IoIntf
    interface). Nothing here performs I/O: each call is represented by the
    value it returns, supplied to the model as a parameter. */
module Io {

  type byte = bv8
  type uint16 = x: int | 0 <= x < 0x1_0000

  /** Width of `size_t` on the 64-bit targets the library is built for. */
  const SIZE_T_MODULUS: nat := 0x1_0000_0000_0000_0000
  type size_t = x: int | 0 <= x < SIZE_T_MODULUS

  /** `(size_t)-1`, what a system call returning -1 becomes at the size_t-typed boundary. */
  const SIZE_MAX: size_t := SIZE_T_MODULUS - 1

  const INVALID_SOCKET: int := -1
  const BUFFER_SIZE: nat := 4096

  // poll(2) event bits, Linux values
  const POLLIN: bv16 := 0x001
  const POLLPRI: bv16 := 0x002
  const POLLOUT: bv16 := 0x004
  const POLLERR: bv16 := 0x008
  const POLLHUP: bv16 := 0x010
  const POLLNVAL: bv16 := 0x020

  // errno values, Linux
  const EWOULDBLOCK: int := 11
  const ECONNREFUSED: int := 111
  const EINPROGRESS: int := 115

  /** What one recv(2) call did: it stored `bytes` at the start of the buffer
      (empty when the peer closed the stream), or it failed. */
  datatype RecvResult = RecvData(bytes: seq<byte>) | RecvError

  /** recv(2) never stores more than the length it is given. */
  predicate FitsIn(r: RecvResult, capacity: nat) {
    r.RecvData? ==> |r.bytes| <= capacity
  }

  /** The value the size_t-typed `IoIntf::recv` hands back: the byte count,
      or -1 converted to size_t when the call failed. */
  function RecvReturn(r: RecvResult): nat
  {
    match r
    case RecvData(bytes) => |bytes|
    case RecvError => SIZE_MAX
  }

  /** Conversion of an integer to a 32-bit `int` (modular, as C++20 defines it). */
  function Int32(n: int): (r: int)
    ensures -0x8000_0000 <= r < 0x8000_0000
    ensures (n - r) % 0x1_0000_0000 == 0
    ensures -0x8000_0000 <= n < 0x8000_0000 ==> r == n
  {
    (n + 0x8000_0000) % 0x1_0000_0000 - 0x8000_0000
  }

  /** How a function that may throw ends: it returns, or it raises. */
  datatype Outcome = Pass | Fail(reason: string)
}
