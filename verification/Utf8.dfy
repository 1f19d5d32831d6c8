/** Well-formed UTF-8 byte sequences, as `std::str::from_utf8` accepts them. */
module Utf8 {
  import opened Bytes

  predicate Cont(b: byte) {
    0x80 <= b <= 0xBF
  }

  /** Length of the well-formed character at the front of b, or 0 when there is none. */
  function CharLength(b: seq<byte>): (n: nat)
    ensures n <= |b|
  {
    if |b| >= 1 && b[0] <= 0x7F then 1
    else if |b| >= 2 && 0xC2 <= b[0] <= 0xDF && Cont(b[1]) then 2
    else if |b| >= 3 && Cont(b[1]) && Cont(b[2]) && 0xE0 <= b[0] <= 0xEF
            && (b[0] == 0xE0 ==> b[1] >= 0xA0) && (b[0] == 0xED ==> b[1] <= 0x9F) then 3
    else if |b| >= 4 && Cont(b[1]) && Cont(b[2]) && Cont(b[3]) && 0xF0 <= b[0] <= 0xF4
            && (b[0] == 0xF0 ==> b[1] >= 0x90) && (b[0] == 0xF4 ==> b[1] <= 0x8F) then 4
    else 0
  }

  predicate Valid(b: seq<byte>) {
    b == [] || (CharLength(b) > 0 && Valid(b[CharLength(b)..]))
  }

  // ----- The texts that are valid: encodings of scalar values -----

  predicate Scalar(c: nat) {
    c <= 0x10FFFF && !(0xD800 <= c <= 0xDFFF)
  }

  /** The encoding of a scalar value (section 3 of RFC 3629). */
  function EncodeChar(c: nat): seq<byte>
    requires Scalar(c)
  {
    if c <= 0x7F then [c]
    else if c <= 0x7FF then [0xC0 + c / 0x40, 0x80 + c % 0x40]
    else if c <= 0xFFFF then [0xE0 + c / 0x1000, 0x80 + c / 0x40 % 0x40, 0x80 + c % 0x40]
    else [0xF0 + c / 0x4_0000, 0x80 + c / 0x1000 % 0x40, 0x80 + c / 0x40 % 0x40, 0x80 + c % 0x40]
  }

  predicate Scalars(cs: seq<nat>) {
    forall i :: 0 <= i < |cs| ==> Scalar(cs[i])
  }

  function EncodeAll(cs: seq<nat>): seq<byte>
    requires Scalars(cs)
  {
    if cs == [] then [] else EncodeChar(cs[0]) + EncodeAll(cs[1..])
  }

  /** The first character is recognized whatever follows it. */
  lemma CharOf(c: nat, rest: seq<byte>)
    requires Scalar(c)
    ensures CharLength(EncodeChar(c) + rest) == |EncodeChar(c)|
  {
    var b := EncodeChar(c) + rest;
    assert b[0] == EncodeChar(c)[0];
    if |EncodeChar(c)| > 1 {
      assert b[1] == EncodeChar(c)[1];
    }
    if |EncodeChar(c)| > 2 {
      assert b[2] == EncodeChar(c)[2];
    }
    if |EncodeChar(c)| > 3 {
      assert b[3] == EncodeChar(c)[3];
    }
  }

  lemma {:induction false} EncodedIsValid(cs: seq<nat>)
    requires Scalars(cs)
    ensures Valid(EncodeAll(cs))
  {
    if cs == [] {
    } else {
      EncodedIsValid(cs[1..]);
      CharOf(cs[0], EncodeAll(cs[1..]));
      var b := EncodeAll(cs);
      assert b[|EncodeChar(cs[0])|..] == EncodeAll(cs[1..]);
    }
  }

  lemma TwoBytes(x: byte, y: byte) returns (c: nat)
    requires 0xC2 <= x <= 0xDF && Cont(y)
    ensures Scalar(c) && EncodeChar(c) == [x, y]
  {
    c := (x - 0xC0) * 0x40 + (y - 0x80);
    assert c / 0x40 == x - 0xC0 && c % 0x40 == y - 0x80;
  }

  lemma ThreeBytes(x: byte, y: byte, z: byte) returns (c: nat)
    requires 0xE0 <= x <= 0xEF && Cont(y) && Cont(z)
    requires (x == 0xE0 ==> y >= 0xA0) && (x == 0xED ==> y <= 0x9F)
    ensures Scalar(c) && EncodeChar(c) == [x, y, z]
  {
    var high: nat := (x - 0xE0) * 0x40 + (y - 0x80);
    c := high * 0x40 + (z - 0x80);
    assert c / 0x40 == high && c % 0x40 == z - 0x80;
    assert high / 0x40 == x - 0xE0 && high % 0x40 == y - 0x80;
    assert c / 0x1000 == high / 0x40;
  }

  lemma FourBytes(w: byte, x: byte, y: byte, z: byte) returns (c: nat)
    requires 0xF0 <= w <= 0xF4 && Cont(x) && Cont(y) && Cont(z)
    requires (w == 0xF0 ==> x >= 0x90) && (w == 0xF4 ==> x <= 0x8F)
    ensures Scalar(c) && EncodeChar(c) == [w, x, y, z]
  {
    var top: nat := (w - 0xF0) * 0x40 + (x - 0x80);
    var high: nat := top * 0x40 + (y - 0x80);
    c := high * 0x40 + (z - 0x80);
    assert c / 0x40 == high && c % 0x40 == z - 0x80;
    assert high / 0x40 == top && high % 0x40 == y - 0x80;
    assert top / 0x40 == w - 0xF0 && top % 0x40 == x - 0x80;
    assert c / 0x1000 == high / 0x40 && c / 0x4_0000 == top / 0x40;
  }

  /** A recognized character is the encoding of a scalar value. */
  lemma CharIsEncoded(b: seq<byte>) returns (c: nat)
    requires CharLength(b) > 0
    ensures Scalar(c) && EncodeChar(c) == b[..CharLength(b)]
  {
    var n := CharLength(b);
    if n == 1 {
      c := b[0];
    } else if n == 2 {
      c := TwoBytes(b[0], b[1]);
    } else if n == 3 {
      c := ThreeBytes(b[0], b[1], b[2]);
    } else {
      c := FourBytes(b[0], b[1], b[2], b[3]);
    }
  }

  /** Every valid text is the encoding of scalar values, as every such encoding is valid. */
  lemma {:induction false} ValidIsEncoded(b: seq<byte>) returns (cs: seq<nat>)
    requires Valid(b)
    ensures Scalars(cs) && EncodeAll(cs) == b
    decreases |b|
  {
    if b == [] {
      cs := [];
    } else {
      var n := CharLength(b);
      var c := CharIsEncoded(b);
      var rest := ValidIsEncoded(b[n..]);
      cs := [c] + rest;
      assert cs[1..] == rest;
      assert b == b[..n] + b[n..];
    }
  }

  // ----- Cutting at an ASCII character -----

  lemma AsciiFirst(c: byte, b: seq<byte>)
    requires c <= 0x7F
    ensures Valid([c] + b) <==> Valid(b)
  {
    assert ([c] + b)[1..] == b;
  }

  /** An ASCII text in front changes nothing. */
  lemma {:induction false} AsciiFront(a: seq<byte>, b: seq<byte>)
    requires forall i :: 0 <= i < |a| ==> a[i] <= 0x7F
    ensures Valid(a + b) <==> Valid(b)
  {
    if a == [] {
      assert a + b == b;
    } else {
      AsciiFront(a[1..], b);
      AsciiFirst(a[0], a[1..] + b);
      assert a + b == [a[0]] + (a[1..] + b);
    }
  }

  lemma Continues(b: seq<byte>, k: nat)
    requires 0 < k < CharLength(b)
    ensures Cont(b[k])
  {
  }

  lemma CharWithin(a: seq<byte>, c: byte, b: seq<byte>)
    requires a != [] && c <= 0x7F && CharLength(a + ([c] + b)) > 0
    ensures CharLength(a) == CharLength(a + ([c] + b))
  {
    var all := a + ([c] + b);
    assert all[|a|] == c;
    if CharLength(all) > |a| {
      Continues(all, |a|);
    }
    assert forall i :: 0 <= i < |a| ==> all[i] == a[i];
  }

  /** A valid text can be cut at any ASCII character. */
  lemma {:induction false} CutAtAscii(a: seq<byte>, c: byte, b: seq<byte>)
    requires c <= 0x7F && Valid(a + ([c] + b))
    ensures Valid(a) && Valid(b)
    decreases |a|
  {
    var all := a + ([c] + b);
    if a == [] {
      assert all == [c] + b;
      AsciiFirst(c, b);
    } else {
      CharWithin(a, c, b);
      var n := CharLength(a);
      assert all[n..] == a[n..] + ([c] + b);
      CutAtAscii(a[n..], c, b);
    }
  }
}
