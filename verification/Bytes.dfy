/** Bytes as the transport sees them: C++ `char`, which is signed on the targets the library builds for. */
module Bytes {

  type Byte = b: int | -128 <= b < 128 witness 0

  // The end-of-transmission character that closes every frame.
  const EOT: Byte := 4

  // A request id is the 36-character text of a UUID and its terminating NUL.
  const ID_SIZE: nat := 37

  // Loop counters and frame sizes are uint32_t.
  const TWO_32: int := 0x1_0000_0000

  // The slice that one read or write call moves at most.
  const SLICE: nat := 1024

  datatype Option<+T> = None | Some(value: T)

  function Min(a: nat, b: nat): nat {
    if a < b then a else b
  }

  ghost predicate IsPrefix<T>(a: seq<T>, b: seq<T>) {
    |a| <= |b| && b[..|a|] == a
  }
}
