/** Shared vocabulary: optional values, machine integers, errors and the
    outcome of an operation that returns a Go `error`. */
module Basics {

  datatype Option<+T> = None | Some(value: T)

  type uint16 = x: int | 0 <= x < 0x1_0000
  type uint32 = x: int | 0 <= x < 0x1_0000_0000

  const INT32_MAX: int := 0x7FFF_FFFF
  const INT32_MIN: int := -0x8000_0000
  const INT64_MAX: int := 0x7FFF_FFFF_FFFF_FFFF
  const INT64_MIN: int := -0x8000_0000_0000_0000

  datatype Error =
    | ErrMissingEndpoint
    | ErrUnknownMethod
    | ErrUnknownProtocol
    | ErrUnknownFlag
    | ErrResolve
    | ErrUnknownPulseType
    | ErrInvalidPulseInterval
    | ErrInvalidIntervalFormat
    | ErrPulseDriver
    | ErrIpvsSyscallFailed
    | ErrObjectExists
    | ErrObjectNotFound
    | ErrIncompatibleAFs
    | ErrAddressChanged
    | ErrStore
      /** Closing a channel twice: not an error value but a Go panic. */
    | Panic

  datatype Outcome = Ok | Err(error: Error)

  /** Two's complement wrap-around of a Go int64. */
  function Wrap64(x: int): (w: int)
    ensures INT64_MIN <= w <= INT64_MAX
    ensures (w == x) == (INT64_MIN <= x <= INT64_MAX)
  {
    (x - INT64_MIN) % 0x1_0000_0000_0000_0000 + INT64_MIN
  }

  lemma CutAndJoin<T>(s: seq<T>, i: nat)
    requires i <= |s|
    ensures s == s[..i] + s[i..]
  {}

  lemma LastOff<T>(a: seq<T>, b: seq<T>)
    requires b != []
    ensures var n := |b| - 1; b == b[..n] + [b[n]] && a + b == a + b[..n] + [b[n]]
  {}
}
