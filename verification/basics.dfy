/** Shared small types: optional values, bytes and content digests. */
module Basics {
  datatype Option<+T> = None | Some(value: T)

  type byte = x: int | 0 <= x < 256

  /** A content digest. SHA-256 itself is a parameter wherever it is used. */
  type Hash = seq<byte>

  function Min(a: int, b: int): int { if a <= b then a else b }

  function Max(a: int, b: int): int { if a >= b then a else b }

  /** The length of the UTF-8 encoding of a text. */
  function Utf8Bytes(text: string): nat {
    if text == [] then 0
    else
      var code := text[0] as int;
      (if code < 0x80 then 1 else if code < 0x800 then 2 else if code < 0x1_0000 then 3 else 4) + Utf8Bytes(text[1..])
  }

  lemma SliceOfPrefix<T>(s: seq<T>, cut: nat, low: nat, high: nat)
    requires low <= high <= cut <= |s|
    ensures s[..cut][low..high] == s[low..high]
  {
  }

  lemma {:induction false} SubsetSize<T>(small: set<T>, large: set<T>)
    requires small <= large
    ensures |small| <= |large|
    decreases |small|
  {
    if small != {} {
      var x :| x in small;
      SubsetSize(small - {x}, large - {x});
    }
  }
}
