// Bytes, big-endian fields and the Go integer conversions the media code relies on.

module Bytes {
  datatype Option<+T> = None | Some(value: T)

  type byte = x: int | 0 <= x < 256

  const TWO16: int := 0x1_0000
  const TWO24: int := 0x100_0000
  const TWO32: int := 0x1_0000_0000
  const TWO64: int := 0x1_0000_0000_0000_0000

  // Go's integer division truncates toward zero; Dafny's rounds down for a positive divisor.
  function TruncDiv(a: int, b: int): (q: int)
    requires b > 0
    ensures a >= 0 ==> q * b <= a < (q + 1) * b
    ensures a < 0 ==> (q - 1) * b < a <= q * b
  {
    if a >= 0 then a / b else -((-a) / b)
  }

  // byte(v >> k) for a Go integer v: an arithmetic shift followed by a truncation.
  function ByteAt(v: int, divisor: int): byte
    requires divisor > 0
  {
    (v / divisor) % 256
  }

  function BE16(v: int): (r: seq<byte>)
    ensures |r| == 2
  {
    [ByteAt(v, 0x100), ByteAt(v, 1)]
  }

  function BE24(v: int): (r: seq<byte>)
    ensures |r| == 3
  {
    [ByteAt(v, TWO16), ByteAt(v, 0x100), ByteAt(v, 1)]
  }

  function BE32(v: int): (r: seq<byte>)
    ensures |r| == 4
  {
    [ByteAt(v, TWO24), ByteAt(v, TWO16), ByteAt(v, 0x100), ByteAt(v, 1)]
  }

  function Read16(b: seq<byte>): nat
    requires |b| >= 2
  {
    (b[0] as int) * 0x100 + b[1]
  }

  function Read24(b: seq<byte>): nat
    requires |b| >= 3
  {
    (b[0] as int) * TWO16 + (b[1] as int) * 0x100 + b[2]
  }

  function Read32(b: seq<byte>): nat
    requires |b| >= 4
  {
    (b[0] as int) * TWO24 + (b[1] as int) * TWO16 + (b[2] as int) * 0x100 + b[3]
  }

  function Take<T>(s: seq<T>, n: nat): (r: seq<T>)
    requires n <= |s|
    ensures |r| == n
  {
    s[..n]
  }

  function Skip<T>(s: seq<T>, n: nat): (r: seq<T>)
    requires n <= |s|
    ensures |r| == |s| - n
  {
    s[n..]
  }

  lemma Cut<T>(a: seq<T>, b: seq<T>)
    ensures Take(a + b, |a|) == a && Skip(a + b, |a|) == b
  {
  }

  lemma Halves(v: int)
    ensures v % TWO16 == (v / 0x100) % 256 * 0x100 + v % 256
  {
  }

  lemma Thirds(v: int)
    ensures v % TWO24 == (v / TWO16) % 256 * TWO16 + v % TWO16
  {
  }

  lemma Quarters(v: int)
    ensures v % TWO32 == (v / TWO24) % 256 * TWO24 + v % TWO24
  {
  }

  // Reading a big-endian field back gives the value modulo the field's width.
  lemma BigEndianRoundTrip(v: int)
    ensures Read16(BE16(v)) == v % TWO16
    ensures Read24(BE24(v)) == v % TWO24
    ensures Read32(BE32(v)) == v % TWO32
  {
    Halves(v);
    Thirds(v);
    Quarters(v);
  }

  lemma RoundTrip16(v: nat)
    requires v < TWO16
    ensures Read16(BE16(v)) == v
  {
    BigEndianRoundTrip(v);
  }

  lemma RoundTrip32(v: nat)
    requires v < TWO32
    ensures Read32(BE32(v)) == v
  {
    BigEndianRoundTrip(v);
  }
}
