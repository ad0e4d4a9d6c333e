/** Vocabulary shared by every part of the model. */
module Basics {

  /** One byte of C or Go memory. */
  newtype Byte = b: int | 0 <= b < 256

  /** A C address.  `NIL` is the null pointer. */
  type Addr = nat

  const NIL: Addr := 0

  datatype Option<+T> = None | Some(value: T)

  /** `dst` after a memcpy of `src` over its first bytes. */
  function Overlay(dst: seq<Byte>, src: seq<Byte>): (r: seq<Byte>)
    requires |src| <= |dst|
    ensures |r| == |dst|
    ensures r[..|src|] == src
    ensures r[|src|..] == dst[|src|..]
  {
    src + dst[|src|..]
  }

  function Reverse<T>(s: seq<T>): (r: seq<T>)
    ensures |r| == |s|
    ensures forall i :: 0 <= i < |s| ==> r[i] == s[|s| - 1 - i]
  {
    if s == [] then [] else Reverse(s[1..]) + [s[0]]
  }
}
