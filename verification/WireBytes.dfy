/** Fixed-width little-endian integers, as the wire formats lay them out. */
module WireBytes {

  type byte = b: int | 0 <= b < 256

  /** Bytes written into memory at `at`. */
  function Splice(mem: seq<byte>, at: nat, bytes: seq<byte>): (r: seq<byte>)
    requires at + |bytes| <= |mem|
    ensures |r| == |mem| && r[..at] == mem[..at] && r[at..at + |bytes|] == bytes
  {
    mem[..at] + bytes + mem[at + |bytes|..]
  }

  predicate IsInt32(x: int) {
    -0x8000_0000 <= x < 0x8000_0000
  }

  predicate IsUInt64(x: int) {
    0 <= x < 0x1_0000_0000_0000_0000
  }

  function Low32(x: int): (s: seq<byte>)
    requires 0 <= x < 0x1_0000_0000
    ensures |s| == 4
  {
    [x % 256, x / 256 % 256, x / 65536 % 256, x / 16777216]
  }

  /** Two's complement. */
  function Enc32(x: int): (s: seq<byte>)
    requires IsInt32(x)
    ensures |s| == 4
  {
    Low32(if x < 0 then x + 0x1_0000_0000 else x)
  }

  function Value32(s: seq<byte>): (x: int)
    requires |s| == 4
    ensures 0 <= x < 0x1_0000_0000
  {
    (s[0] as int) + 256 * (s[1] as int) + 65536 * (s[2] as int) + 16777216 * (s[3] as int)
  }

  function Dec32(s: seq<byte>): (x: int)
    requires |s| == 4
    ensures IsInt32(x)
  {
    var v := Value32(s);
    if v >= 0x8000_0000 then v - 0x1_0000_0000 else v
  }

  function Enc64(x: int): (s: seq<byte>)
    requires IsUInt64(x)
    ensures |s| == 8
  {
    Low32(x % 0x1_0000_0000) + Low32(x / 0x1_0000_0000)
  }

  function Dec64(s: seq<byte>): (x: int)
    requires |s| == 8
    ensures IsUInt64(x)
  {
    Value32(s[..4]) + 0x1_0000_0000 * Value32(s[4..])
  }

  /** The lowest byte comes first, and a negative number stands for itself plus 2^32. */
  lemma {:induction false} LittleEndian(x: int)
    requires IsInt32(x)
    ensures Enc32(x)[0] == x % 256 && Enc32(x)[1] == x / 256 % 256 && Enc32(x)[2] == x / 65536 % 256 && Enc32(x)[3] == x / 16777216 % 256
  {
    if x < 0 {
      Wrapped(x, 256, 16777216);
      SameByte(x, 16777216);
      SameByte(x / 256, 65536);
      Wrapped(x, 65536, 65536);
      SameByte(x / 65536, 256);
      Wrapped(x, 16777216, 256);
      SameByte(x / 16777216, 1);
    }
  }

  lemma {:induction false} SameByte(y: int, k: int)
    ensures (y + 256 * k) % 256 == y % 256
  {
  }

  lemma {:induction false} Wrapped(x: int, d: int, m: int)
    requires d > 0 && d * m == 0x1_0000_0000
    ensures (x + 0x1_0000_0000) / d == x / d + m
  {
    assert x == d * (x / d) + x % d;
    assert x + 0x1_0000_0000 == d * (x / d + m) + x % d;
  }

  lemma Low32RoundTrip(x: int)
    requires 0 <= x < 0x1_0000_0000
    ensures Value32(Low32(x)) == x
  {
    var a, b, c := x / 256, x / 65536, x / 16777216;
    assert x == x % 256 + 256 * a;
    assert a == a % 256 + 256 * (a / 256) && a / 256 == b;
    assert b == b % 256 + 256 * (b / 256) && b / 256 == c;
  }

  lemma Int32RoundTrip(x: int)
    requires IsInt32(x)
    ensures Dec32(Enc32(x)) == x
  {
    Low32RoundTrip(if x < 0 then x + 0x1_0000_0000 else x);
  }

  lemma UInt64RoundTrip(x: int)
    requires IsUInt64(x)
    ensures Dec64(Enc64(x)) == x
  {
    var lo, hi := x % 0x1_0000_0000, x / 0x1_0000_0000;
    Low32RoundTrip(lo);
    Low32RoundTrip(hi);
    assert Enc64(x)[..4] == Low32(lo) && Enc64(x)[4..] == Low32(hi);
  }
}
