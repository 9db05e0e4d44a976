/** Results, errors and addresses shared by every part of the model. */
module Base {

  datatype Option<+T> = None | Some(value: T)

  /** `Os` carries the raw error number; the others are the errors the crate makes up itself. */
  datatype Error = Os(errno: int) | InvalidInput | InvalidData | TimedOut | Other

  datatype Result<+T> = Ok(value: T) | Err(error: Error)

  function ErrorIn<T>(r: Result<T>): Option<Error> {
    if r.Err? then Some(r.error) else None
  }

  type Byte = b: int | 0 <= b < 256

  /** A Bluetooth address, least significant byte first. */
  type BtAddr = a: seq<Byte> | |a| == 6 witness [0, 0, 0, 0, 0, 0]

  // Linux error numbers the code tests for.
  const EINTR := 4
  const EINVAL := 22
  const ENOSYS := 38
  const EINPROGRESS := 115

  // Winsock error numbers the code tests for.
  const WSAEFAULT := 10014
  const WSAEWOULDBLOCK := 10035
  const WSA_E_NO_MORE := 10110

  const U32_MAX := 0xFFFF_FFFF
  const U64_MAX := 0xFFFF_FFFF_FFFF_FFFF
  const I32_MAX := 0x7FFF_FFFF

  function Min(a: int, b: int): int {
    if a <= b then a else b
  }

  function Max(a: int, b: int): int {
    if a <= b then b else a
  }

  function CeilDiv(a: nat, b: nat): nat
    requires b > 0
  {
    (a + b - 1) / b
  }
}
