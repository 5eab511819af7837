/** Bytes and the fixed-width big- and little-endian fields of the GSMTAP
    and PCAP headers. A byte is its unsigned value; Java's signed `byte`
    reads it back through `Signed8`. */
module Bytes {
  import opened JavaInt

  type Byte = x: int | 0 <= x < 0x100
  type U16 = x: int | 0 <= x < 0x1_0000
  type U32 = x: int | 0 <= x < 0x1_0000_0000

  /** The two's-complement bit pattern of a Java `int`, as Java's
      `(x >> 8 * k) & 0xFF` sees it byte by byte. */
  function Unsigned32(x: Int32): (u: U32)
    ensures x >= 0 ==> u == x
    ensures x < 0 ==> u == x + 0x1_0000_0000
  {
    x % 0x1_0000_0000
  }

  /** `ByteBuffer.getInt()`: the Java `int` of a 32-bit pattern. */
  function Signed32(u: U32): (x: Int32)
    ensures Unsigned32(x) == u
  {
    if u >= 0x8000_0000 then u - 0x1_0000_0000 else u
  }

  lemma SignedUnsigned32(x: Int32)
    ensures Signed32(Unsigned32(x)) == x
  {
  }

  /** `ByteBuffer.get()` without `& 0xFF`: a signed byte. */
  function Signed8(b: Byte): (x: int)
    ensures -0x80 <= x < 0x80
    ensures (x - b) % 0x100 == 0
  {
    if b >= 0x80 then b - 0x100 else b
  }

  // ------------------------------------------------------------ encoders

  function BE16(x: U16): seq<Byte> {
    [x / 0x100, x % 0x100]
  }

  function LE16(x: U16): seq<Byte> {
    [x % 0x100, x / 0x100]
  }

  function BE32(x: U32): seq<Byte> {
    [x / 0x100_0000, x / 0x1_0000 % 0x100, x / 0x100 % 0x100, x % 0x100]
  }

  function LE32(x: U32): seq<Byte> {
    [x % 0x100, x / 0x100 % 0x100, x / 0x1_0000 % 0x100, x / 0x100_0000]
  }

  // ------------------------------------------------------------ decoders

  function ReadBE16(s: seq<Byte>, i: nat): U16
    requires i + 2 <= |s|
  {
    s[i] as int * 0x100 + s[i + 1]
  }

  function ReadBE32(s: seq<Byte>, i: nat): U32
    requires i + 4 <= |s|
  {
    ((s[i] as int * 0x100 + s[i + 1]) * 0x100 + s[i + 2]) * 0x100 + s[i + 3]
  }

  function ReadLE16(s: seq<Byte>, i: nat): U16
    requires i + 2 <= |s|
  {
    s[i + 1] as int * 0x100 + s[i]
  }

  function ReadLE32(s: seq<Byte>, i: nat): U32
    requires i + 4 <= |s|
  {
    ((s[i + 3] as int * 0x100 + s[i + 2]) * 0x100 + s[i + 1]) * 0x100 + s[i]
  }

  // --------------------------------------------------------- round trips

  lemma Split16(x: U16)
    ensures x == x / 0x100 * 0x100 + x % 0x100
  {
  }

  lemma Split32(x: U32)
    ensures x == ((x / 0x100_0000 * 0x100 + x / 0x1_0000 % 0x100) * 0x100 + x / 0x100 % 0x100) * 0x100 + x % 0x100
  {
    var a := x / 0x100;
    var b := a / 0x100;
    assert x == a * 0x100 + x % 0x100;
    assert a == b * 0x100 + a % 0x100;
    assert b == b / 0x100 * 0x100 + b % 0x100;
    assert x / 0x100 % 0x100 == a % 0x100;
    assert x / 0x1_0000 == b;
    assert x / 0x100_0000 == b / 0x100;
  }

  /** A field reads back as the value written, wherever it sits. */
  lemma BE16RoundTrip(pre: seq<Byte>, x: U16, post: seq<Byte>)
    ensures ReadBE16(pre + BE16(x) + post, |pre|) == x
  {
    var s := pre + BE16(x) + post;
    assert s[|pre|] == x / 0x100 && s[|pre| + 1] == x % 0x100;
    Split16(x);
  }

  lemma LE16RoundTrip(pre: seq<Byte>, x: U16, post: seq<Byte>)
    ensures ReadLE16(pre + LE16(x) + post, |pre|) == x
  {
    var s := pre + LE16(x) + post;
    assert s[|pre|] == x % 0x100 && s[|pre| + 1] == x / 0x100;
    Split16(x);
  }

  lemma BE32RoundTrip(pre: seq<Byte>, x: U32, post: seq<Byte>)
    ensures ReadBE32(pre + BE32(x) + post, |pre|) == x
  {
    var s := pre + BE32(x) + post;
    var i := |pre|;
    assert s[i] == x / 0x100_0000 && s[i + 1] == x / 0x1_0000 % 0x100;
    assert s[i + 2] == x / 0x100 % 0x100 && s[i + 3] == x % 0x100;
    Split32(x);
  }

  lemma LE32RoundTrip(pre: seq<Byte>, x: U32, post: seq<Byte>)
    ensures ReadLE32(pre + LE32(x) + post, |pre|) == x
  {
    var s := pre + LE32(x) + post;
    var i := |pre|;
    assert s[i + 3] == x / 0x100_0000 && s[i + 2] == x / 0x1_0000 % 0x100;
    assert s[i + 1] == x / 0x100 % 0x100 && s[i] == x % 0x100;
    Split32(x);
  }

  /** The two byte orders of a field are each other's reverse. */
  lemma LE32ReversesBE32(x: U32)
    ensures LE32(x) == [BE32(x)[3], BE32(x)[2], BE32(x)[1], BE32(x)[0]]
  {
  }
}
