/** Machine integers, UTF-8 text and the big-endian and length-prefixed building
    blocks shared by the encoders of the agent crate. */
module Bytes {

  type byte = x: int | 0 <= x < 0x100
  type u16 = x: int | 0 <= x < 0x1_0000
  type u32 = x: int | 0 <= x < 0x1_0000_0000
  type u64 = x: int | 0 <= x < 0x1_0000_0000_0000_0000

  const U64_MAX: u64 := 0xFFFF_FFFF_FFFF_FFFF

  /** A Rust string, as the bytes of its UTF-8 form: `len` counts bytes. */
  type Text = seq<byte>

  /** A SHA-256 digest or HMAC tag. */
  type Digest = d: seq<byte> | |d| == 32 witness seq(32, i => 0)

  datatype Option<+T> = None | Some(value: T)

  function Ascii(s: string): (t: Text)
    requires forall i :: 0 <= i < |s| ==> s[i] < '\U{80}'
    ensures |t| == |s|
    ensures forall i :: 0 <= i < |s| ==> t[i] == s[i] as int
  {
    seq(|s|, i requires 0 <= i < |s| => s[i] as int)
  }

  // ----- Splitting at a separator -----

  /** `str::split` on a one-byte separator: always at least one component. */
  function Split(t: Text, sep: byte): (parts: seq<Text>)
    ensures |parts| >= 1
    ensures |parts| == 1 <==> sep !in t
    ensures |parts| == 1 ==> parts[0] == t
    decreases |t|
  {
    if t == [] then [[]]
    else
      var rest := Split(t[1..], sep);
      if t[0] == sep then [[]] + rest else [[t[0]] + rest[0]] + rest[1..]
  }

  function Join(parts: seq<Text>, sep: byte): Text
    requires |parts| >= 1
  {
    if |parts| == 1 then parts[0] else parts[0] + [sep] + Join(parts[1..], sep)
  }

  lemma JoinOntoFirst(c: byte, parts: seq<Text>, sep: byte)
    requires |parts| >= 1
    ensures Join([[c] + parts[0]] + parts[1..], sep) == [c] + Join(parts, sep)
  {
    var longer := [[c] + parts[0]] + parts[1..];
    assert longer[1..] == parts[1..];
  }

  /** Splitting loses nothing: joining the components gives the text back. */
  lemma {:induction false} JoinSplit(t: Text, sep: byte)
    ensures Join(Split(t, sep), sep) == t
    ensures forall i :: 0 <= i < |Split(t, sep)| ==> sep !in Split(t, sep)[i]
    decreases |t|
  {
    if t == [] {
    } else {
      var rest := Split(t[1..], sep);
      JoinSplit(t[1..], sep);
      if t[0] == sep {
        assert ([[]] + rest)[1..] == rest;
        assert [] + [sep] + t[1..] == t;
      } else {
        JoinOntoFirst(t[0], rest, sep);
      }
    }
  }

  lemma {:induction false} SplitFirst(a: Text, b: Text, sep: byte)
    requires sep !in a
    ensures Split(a + [sep] + b, sep) == [a] + Split(b, sep)
    decreases |a|
  {
    var t := a + [sep] + b;
    if a == [] {
      assert t[1..] == b;
    } else {
      SplitFirst(a[1..], b, sep);
      assert t[1..] == a[1..] + [sep] + b;
      assert [a[0]] + a[1..] == a;
    }
  }

  // ----- Big-endian integers -----

  function U16(v: u16): (r: seq<byte>)
    ensures |r| == 2
  {
    [v / 0x100, v % 0x100]
  }

  function U32(v: u32): (r: seq<byte>)
    ensures |r| == 4
  {
    U16(v / 0x1_0000) + U16(v % 0x1_0000)
  }

  function U64(v: u64): (r: seq<byte>)
    ensures |r| == 8
  {
    U32(v / 0x1_0000_0000) + U32(v % 0x1_0000_0000)
  }

  /** The number a text of bytes stands for, most significant byte first. */
  function BigEndian(b: seq<byte>): nat {
    if b == [] then 0 else 0x100 * BigEndian(b[..|b| - 1]) + b[|b| - 1]
  }

  lemma BigEndianNext(b: seq<byte>, last: byte)
    ensures BigEndian(b + [last]) == 0x100 * BigEndian(b) + last
  {
    assert (b + [last])[..|b|] == b;
  }

  lemma BigEndianPair(b: seq<byte>, high: byte, low: byte)
    ensures BigEndian(b + [high, low]) == 0x1_0000 * BigEndian(b) + 0x100 * (high as int) + low
  {
    BigEndianNext(b, high);
    BigEndianNext(b + [high], low);
    assert b + [high, low] == b + [high] + [low];
  }

  lemma BigEndianU16(b: seq<byte>, v: u16)
    ensures BigEndian(b + U16(v)) == 0x1_0000 * BigEndian(b) + v
  {
    BigEndianPair(b, v / 0x100, v % 0x100);
  }

  lemma BigEndianU32(b: seq<byte>, v: u32)
    ensures BigEndian(b + U32(v)) == 0x1_0000_0000 * BigEndian(b) + v
  {
    var high, low := U16(v / 0x1_0000), U16(v % 0x1_0000);
    BigEndianU16(b, v / 0x1_0000);
    BigEndianU16(b + high, v % 0x1_0000);
    assert b + U32(v) == b + high + low;
  }

  lemma BigEndianU64(v: u64)
    ensures BigEndian(U64(v)) == v
  {
    var high := U32(v / 0x1_0000_0000);
    BigEndianU32([], v / 0x1_0000_0000);
    BigEndianU32(high, v % 0x1_0000_0000);
    assert [] + high == high;
  }

  /** The bytes of a machine integer are its value, most significant first. */
  lemma IntegerBytes(v: u16, w: u32, x: u64)
    ensures BigEndian(U16(v)) == v && BigEndian(U32(w)) == w && BigEndian(U64(x)) == x
  {
    BigEndianU16([], v);
    BigEndianU32([], w);
    BigEndianU64(x);
    assert [] + U16(v) == U16(v) && [] + U32(w) == U32(w);
  }

  /** Equal concatenations with equal-length heads split into equal parts. */
  lemma Cancel<T>(a: seq<T>, b: seq<T>, r: seq<T>, s: seq<T>)
    requires |a| == |b|
    requires a + r == b + s
    ensures a == b && r == s
  {
    assert a == (a + r)[..|a|] == (b + s)[..|b|] == b;
    assert r == (a + r)[|a|..] == (b + s)[|b|..] == s;
  }

  lemma U16Injective(v: u16, w: u16)
    requires U16(v) == U16(w)
    ensures v == w
  {
    assert U16(v)[0] == U16(w)[0] && U16(v)[1] == U16(w)[1];
  }

  lemma U32Injective(v: u32, w: u32)
    requires U32(v) == U32(w)
    ensures v == w
  {
    Cancel(U16(v / 0x1_0000), U16(w / 0x1_0000), U16(v % 0x1_0000), U16(w % 0x1_0000));
    U16Injective(v / 0x1_0000, w / 0x1_0000);
    U16Injective(v % 0x1_0000, w % 0x1_0000);
  }

  lemma U64Injective(v: u64, w: u64)
    requires U64(v) == U64(w)
    ensures v == w
  {
    var m := 0x1_0000_0000;
    Cancel(U32(v / m), U32(w / m), U32(v % m), U32(w % m));
    U32Injective(v / m, w / m);
    U32Injective(v % m, w % m);
  }

  // ----- Length prefixes -----

  /** `append_u16_len`: the bytes it appends, or nothing when the length overflows. */
  function U16Len(value: Text): Option<seq<byte>> {
    if |value| < 0x1_0000 then Some(U16(|value|) + value) else None
  }

  /** `append_u32_len`. */
  function U32Len(value: Text): Option<seq<byte>> {
    if |value| < 0x1_0000_0000 then Some(U32(|value|) + value) else None
  }

  /** A length-prefixed field can be cut off the front in only one way. */
  lemma U16LenCancel(x: Text, y: Text, r: seq<byte>, s: seq<byte>)
    requires U16Len(x).Some? && U16Len(y).Some?
    requires U16Len(x).value + r == U16Len(y).value + s
    ensures x == y && r == s
  {
    assert U16Len(x).value + r == U16(|x|) + (x + r);
    assert U16Len(y).value + s == U16(|y|) + (y + s);
    Cancel(U16(|x|), U16(|y|), x + r, y + s);
    U16Injective(|x|, |y|);
    Cancel(x, y, r, s);
  }

  lemma U32LenCancel(x: Text, y: Text, r: seq<byte>, s: seq<byte>)
    requires U32Len(x).Some? && U32Len(y).Some?
    requires U32Len(x).value + r == U32Len(y).value + s
    ensures x == y && r == s
  {
    assert U32Len(x).value + r == U32(|x|) + (x + r);
    assert U32Len(y).value + s == U32(|y|) + (y + s);
    Cancel(U32(|x|), U32(|y|), x + r, y + s);
    U32Injective(|x|, |y|);
    Cancel(x, y, r, s);
  }
}
