/** Octets, little-endian integers and UTF-8 validity (section 4 of RFC 3629). */
module Bytes {

  type byte = x: int | 0 <= x < 256
  type u16 = x: int | 0 <= x < 0x1_0000
  type u32 = x: int | 0 <= x < 0x1_0000_0000

  /** Text is kept as its UTF-8 octets; two Rust strings are equal when their octets are. */
  type Text = seq<byte>

  function U16FromLe(b0: byte, b1: byte): u16 {
    b0 + 0x100 * b1
  }

  function U16ToLe(n: u16): (s: seq<byte>)
    ensures |s| == 2 && U16FromLe(s[0], s[1]) == n
  {
    [n % 0x100, n / 0x100]
  }

  function U32FromLe(b0: byte, b1: byte, b2: byte, b3: byte): u32 {
    b0 + 0x100 * b1 + 0x1_0000 * b2 + 0x100_0000 * b3
  }

  function U32ToLe(n: u32): (s: seq<byte>)
    ensures |s| == 4 && U32FromLe(s[0], s[1], s[2], s[3]) == n
  {
    [n % 0x100, (n / 0x100) % 0x100, (n / 0x1_0000) % 0x100, n / 0x100_0000]
  }

  lemma U16LeUnique(b0: byte, b1: byte)
    ensures U16ToLe(U16FromLe(b0, b1)) == [b0, b1]
  {}

  lemma U32LeUnique(b0: byte, b1: byte, b2: byte, b3: byte)
    ensures U32ToLe(U32FromLe(b0, b1, b2, b3)) == [b0, b1, b2, b3]
  {
    var n := U32FromLe(b0, b1, b2, b3);
    assert n / 0x100 == b1 + 0x100 * b2 + 0x1_0000 * b3;
    assert n / 0x1_0000 == b2 + 0x100 * b3;
    assert n / 0x100_0000 == b3;
  }

  predicate Continuation(b: byte) {
    0x80 <= b <= 0xBF
  }

  /** Number of octets of the scalar value at the start of `s`; 0 when none is well formed. */
  function ScalarWidth(s: seq<byte>): (n: nat)
    requires s != []
    ensures n <= |s|
  {
    var b := s[0];
    if b <= 0x7F then 1
    else if 0xC2 <= b <= 0xDF && |s| >= 2 && Continuation(s[1]) then 2
    else if |s| >= 3 && Continuation(s[1]) && Continuation(s[2])
            && ((b == 0xE0 && 0xA0 <= s[1]) || 0xE1 <= b <= 0xEC || (b == 0xED && s[1] <= 0x9F) || 0xEE <= b <= 0xEF)
    then 3
    else if |s| >= 4 && Continuation(s[1]) && Continuation(s[2]) && Continuation(s[3])
            && ((b == 0xF0 && 0x90 <= s[1]) || 0xF1 <= b <= 0xF3 || (b == 0xF4 && s[1] <= 0x8F))
    then 4
    else 0
  }

  predicate ValidUtf8(s: seq<byte>) {
    s == [] || (var n := ScalarWidth(s); n > 0 && ValidUtf8(s[n..]))
  }
}
