/** Unpadded base64url (section 5 of RFC 4648), decoding with the canonical
    trailing-bits rule of section 3.5. */
module Base64Url {
  import opened Bytes

  type sextet = x: int | 0 <= x < 64

  function Symbol(v: sextet): (c: byte)
    ensures IsUrlSafe(c)
  {
    if v < 26 then 65 + v
    else if v < 52 then 97 + (v - 26)
    else if v < 62 then 48 + (v - 52)
    else if v == 62 then 45 else 95
  }

  function Value(c: byte): (v: Option<sextet>)
    ensures v.Some? <==> IsUrlSafe(c)
    ensures v.Some? ==> Symbol(v.value) == c
  {
    if 65 <= c <= 90 then Some(c - 65)
    else if 97 <= c <= 122 then Some(c - 97 + 26)
    else if 48 <= c <= 57 then Some(c - 48 + 52)
    else if c == 45 then Some(62)
    else if c == 95 then Some(63)
    else None
  }

  /** ASCII letters, digits, `-` and `_`. */
  predicate IsUrlSafe(c: byte) {
    65 <= c <= 90 || 97 <= c <= 122 || 48 <= c <= 57 || c == 45 || c == 95
  }

  predicate UrlSafe(t: Text) {
    forall i :: 0 <= i < |t| ==> IsUrlSafe(t[i])
  }

  // The four sextets of three bytes, and the three bytes of four sextets.

  function S0(a: byte): sextet { a / 4 }
  function S1(a: byte, b: byte): sextet { a % 4 * 16 + b / 16 }
  function S2(b: byte, c: byte): sextet { b % 16 * 4 + c / 64 }
  function S3(c: byte): sextet { c % 64 }

  function B0(p: sextet, q: sextet): byte { (p as int) * 4 + q / 16 }
  function B1(q: sextet, r: sextet): byte { (q as int) % 16 * 16 + r / 4 }
  function B2(r: sextet, s: sextet): byte { (r as int) % 4 * 64 + s }

  lemma Regroup(a: byte, b: byte, c: byte)
    ensures B0(S0(a), S1(a, b)) == a
    ensures B1(S1(a, b), S2(b, c)) == b
    ensures B2(S2(b, c), S3(c)) == c
    ensures S1(a, 0) % 16 == 0 && S2(b, 0) % 4 == 0
  {
  }

  lemma Ungroup(p: sextet, q: sextet, r: sextet, s: sextet)
    ensures S0(B0(p, q)) == p
    ensures S1(B0(p, q), B1(q, r)) == q
    ensures S2(B1(q, r), B2(r, s)) == r
    ensures S3(B2(r, s)) == s
  {
  }

  /** Three bytes become four sextets; a shorter tail is filled with zero bits. */
  function Sextets(b: seq<byte>): seq<sextet> {
    if |b| == 0 then []
    else if |b| == 1 then [S0(b[0]), S1(b[0], 0)]
    else if |b| == 2 then [S0(b[0]), S1(b[0], b[1]), S2(b[1], 0)]
    else [S0(b[0]), S1(b[0], b[1]), S2(b[1], b[2]), S3(b[2])] + Sextets(b[3..])
  }

  /** The reverse, refusing a lone sextet and non-zero fill bits. */
  function Octets(v: seq<sextet>): Option<seq<byte>> {
    if |v| == 0 then Some([])
    else if |v| == 1 then None
    else if |v| == 2 then
      if v[1] % 16 == 0 then Some([B0(v[0], v[1])]) else None
    else if |v| == 3 then
      if v[2] % 4 == 0 then Some([B0(v[0], v[1]), B1(v[1], v[2])]) else None
    else
      var rest := Octets(v[4..]);
      if rest.None? then None
      else Some([B0(v[0], v[1]), B1(v[1], v[2]), B2(v[2], v[3])] + rest.value)
  }

  function Encode(b: seq<byte>): (t: Text)
    ensures |t| == |Sextets(b)|
  {
    var v := Sextets(b);
    seq(|v|, i requires 0 <= i < |v| => Symbol(v[i]))
  }

  function Decode(t: Text): Option<seq<byte>> {
    if !UrlSafe(t) then None
    else Octets(Values(t))
  }

  function Values(t: Text): (v: seq<sextet>)
    requires UrlSafe(t)
    ensures |v| == |t|
  {
    seq(|t|, i requires 0 <= i < |t| => Value(t[i]).value)
  }

  /** `decode_array::<N>`: decode and demand exactly n bytes. */
  function DecodeExact(t: Text, n: nat): (r: Option<seq<byte>>)
    ensures r.Some? ==> |r.value| == n && Decode(t) == r
  {
    var d := Decode(t);
    if d.Some? && |d.value| == n then d else None
  }

  lemma TwoSextets(p: sextet, q: sextet)
    requires q % 16 == 0
    ensures Octets([p, q]) == Some([B0(p, q)])
  {
  }

  lemma ThreeSextets(p: sextet, q: sextet, r: sextet)
    requires r % 4 == 0
    ensures Octets([p, q, r]) == Some([B0(p, q), B1(q, r)])
  {
  }

  lemma OneByte(a: byte)
    ensures Octets([S0(a), S1(a, 0)]) == Some([a])
  {
    Regroup(a, 0, 0);
    TwoSextets(S0(a), S1(a, 0));
  }

  lemma TwoBytes(a: byte, b: byte)
    ensures Octets([S0(a), S1(a, b), S2(b, 0)]) == Some([a, b])
  {
    Regroup(a, b, 0);
    ThreeSextets(S0(a), S1(a, b), S2(b, 0));
  }

  lemma ThreeBytes(a: byte, b: byte, c: byte, rest: seq<byte>)
    requires Octets(Sextets(rest)) == Some(rest)
    ensures Octets([S0(a), S1(a, b), S2(b, c), S3(c)] + Sextets(rest)) == Some([a, b, c] + rest)
  {
    Regroup(a, b, c);
    var v := [S0(a), S1(a, b), S2(b, c), S3(c)] + Sextets(rest);
    assert v[4..] == Sextets(rest);
  }

  lemma {:induction false} SextetsLength(b: seq<byte>)
    ensures |Sextets(b)| == (4 * |b| + 2) / 3
  {
    if |b| < 3 {
    } else {
      SextetsLength(b[3..]);
    }
  }

  lemma {:induction false} OctetsSextets(b: seq<byte>)
    ensures Octets(Sextets(b)) == Some(b)
  {
    if |b| == 1 {
      OneByte(b[0]);
      assert b == [b[0]];
    } else if |b| == 2 {
      TwoBytes(b[0], b[1]);
      assert b == [b[0], b[1]];
    } else if |b| >= 3 {
      OctetsSextets(b[3..]);
      ThreeBytes(b[0], b[1], b[2], b[3..]);
      assert b == [b[0], b[1], b[2]] + b[3..];
    }
  }

  lemma {:induction false} SextetsOctets(v: seq<sextet>)
    requires Octets(v).Some?
    ensures Sextets(Octets(v).value) == v
  {
    var b := Octets(v).value;
    if |v| == 2 {
      Ungroup(v[0], v[1], 0, 0);
    } else if |v| == 3 {
      Ungroup(v[0], v[1], v[2], 0);
    } else if |v| >= 4 {
      Ungroup(v[0], v[1], v[2], v[3]);
      SextetsOctets(v[4..]);
      assert b[3..] == Octets(v[4..]).value;
      assert v == v[..4] + v[4..];
    }
  }

  /** Everything printed is read back. */
  lemma DecodeEncode(b: seq<byte>)
    ensures Decode(Encode(b)) == Some(b)
  {
    var v := Sextets(b);
    var t := Encode(b);
    assert UrlSafe(t);
    assert Values(t) == v;
    OctetsSextets(b);
  }

  /** Everything accepted is the canonical print of what it decodes to. */
  lemma EncodeDecode(t: Text)
    requires Decode(t).Some?
    ensures Encode(Decode(t).value) == t
  {
    SextetsOctets(Values(t));
    assert forall i :: 0 <= i < |t| ==> Symbol(Values(t)[i]) == t[i];
  }

  lemma EncodeLength(b: seq<byte>)
    ensures |Encode(b)| == (4 * |b| + 2) / 3
    ensures UrlSafe(Encode(b))
  {
    SextetsLength(b);
  }

  // ----- What the symbols stand for -----

  /** The characters from one to another. */
  function Range(first: char, last: char): (t: Text)
    requires first <= last < '\U{80}'
    ensures |t| == last as int - first as int + 1
    ensures forall i :: 0 <= i < |t| ==> t[i] == first as int + i
  {
    seq(last as int - first as int + 1, i requires 0 <= i < last as int - first as int + 1 => first as int + i)
  }

  /** Table 2 of RFC 4648. */
  function Alphabet(): (t: Text)
    ensures |t| == 64
  {
    Range('A', 'Z') + Range('a', 'z') + Range('0', '9') + ['-' as int, '_' as int]
  }

  lemma SymbolIsListed(v: sextet)
    ensures Symbol(v) == Alphabet()[v]
  {
  }

  /** The number a row of sextets stands for, most significant first. */
  function Base64Number(v: seq<sextet>): nat {
    if v == [] then 0 else 64 * Base64Number(v[..|v| - 1]) + v[|v| - 1]
  }

  /** Both readings from the front, behind a number read already. */
  function OctetsAfter(n: nat, b: seq<byte>): nat
    decreases |b|
  {
    if b == [] then n else OctetsAfter(0x100 * n + b[0], b[1..])
  }

  function SextetsAfter(n: nat, v: seq<sextet>): nat
    decreases |v|
  {
    if v == [] then n else SextetsAfter(64 * n + v[0], v[1..])
  }

  lemma {:induction false} OctetsAfterLast(n: nat, b: seq<byte>, last: byte)
    ensures OctetsAfter(n, b + [last]) == 0x100 * OctetsAfter(n, b) + last
    decreases |b|
  {
    if b == [] {
      assert (b + [last])[1..] == [];
    } else {
      assert (b + [last])[1..] == b[1..] + [last];
      OctetsAfterLast(0x100 * n + b[0], b[1..], last);
    }
  }

  lemma {:induction false} SextetsAfterLast(n: nat, v: seq<sextet>, last: sextet)
    ensures SextetsAfter(n, v + [last]) == 64 * SextetsAfter(n, v) + last
    decreases |v|
  {
    if v == [] {
      assert (v + [last])[1..] == [];
    } else {
      assert (v + [last])[1..] == v[1..] + [last];
      SextetsAfterLast(64 * n + v[0], v[1..], last);
    }
  }

  lemma {:induction false} OctetsAreBigEndian(b: seq<byte>)
    ensures OctetsAfter(0, b) == BigEndian(b)
    decreases |b|
  {
    if b != [] {
      var front, last := b[..|b| - 1], b[|b| - 1];
      assert b == front + [last];
      OctetsAreBigEndian(front);
      OctetsAfterLast(0, front, last);
    }
  }

  lemma {:induction false} SextetsAreBase64(v: seq<sextet>)
    ensures SextetsAfter(0, v) == Base64Number(v)
    decreases |v|
  {
    if v != [] {
      var front, last := v[..|v| - 1], v[|v| - 1];
      assert v == front + [last];
      SextetsAreBase64(front);
      SextetsAfterLast(0, front, last);
    }
  }

  /** One, four or sixteen: the zero bits that fill up the last sextet. */
  function Fill(b: seq<byte>): nat {
    if |b| % 3 == 0 then 1 else if |b| % 3 == 1 then 16 else 4
  }

  lemma SameNumber(n: nat, a: byte, b: byte, c: byte)
    ensures 64 * (64 * (64 * (64 * n + S0(a)) + S1(a, b)) + S2(b, c)) + S3(c)
            == 0x100 * (0x100 * (0x100 * n + a) + b) + c
  {
  }

  lemma FirstSextet(n: nat, p: sextet, rest: seq<sextet>)
    ensures SextetsAfter(n, [p] + rest) == SextetsAfter(64 * n + p, rest)
  {
    assert ([p] + rest)[1..] == rest;
  }

  lemma FirstOctet(n: nat, b: seq<byte>)
    requires b != []
    ensures OctetsAfter(n, b) == OctetsAfter(0x100 * n + b[0], b[1..])
  {
  }

  lemma TwoAfter(n: nat, p: sextet, q: sextet, rest: seq<sextet>)
    ensures SextetsAfter(n, [p, q] + rest) == SextetsAfter(64 * (64 * n + p) + q, rest)
  {
    assert [p, q] + rest == [p] + ([q] + rest);
    FirstSextet(n, p, [q] + rest);
    FirstSextet(64 * n + p, q, rest);
  }

  lemma GroupAfter(n: nat, p: sextet, q: sextet, r: sextet, s: sextet, rest: seq<sextet>)
    ensures SextetsAfter(n, [p, q, r, s] + rest) == SextetsAfter(64 * (64 * (64 * (64 * n + p) + q) + r) + s, rest)
  {
    assert [p, q, r, s] + rest == [p, q] + ([r, s] + rest);
    TwoAfter(n, p, q, [r, s] + rest);
    TwoAfter(64 * (64 * n + p) + q, r, s, rest);
  }

  lemma ThreeAfter(n: nat, b: seq<byte>)
    requires |b| >= 3
    ensures OctetsAfter(n, b) == OctetsAfter(0x100 * (0x100 * (0x100 * n + b[0]) + b[1]) + b[2], b[3..])
  {
    FirstOctet(n, b);
    FirstOctet(0x100 * n + b[0], b[1..]);
    assert b[1..][1..] == b[2..] && b[2..][1..] == b[3..];
    FirstOctet(0x100 * (0x100 * n + b[0]) + b[1], b[2..]);
  }

  lemma OneEncoded(n: nat, b: seq<byte>)
    requires |b| == 1
    ensures SextetsAfter(n, Sextets(b)) == OctetsAfter(n, b) * 16
  {
    FirstOctet(n, b);
    assert [S0(b[0]), S1(b[0], 0)] + [] == Sextets(b);
    TwoAfter(n, S0(b[0]), S1(b[0], 0), []);
  }

  lemma TwoEncoded(n: nat, b: seq<byte>)
    requires |b| == 2
    ensures SextetsAfter(n, Sextets(b)) == OctetsAfter(n, b) * 4
  {
    FirstOctet(n, b);
    FirstOctet(0x100 * n + b[0], b[1..]);
    var p, q, r := S0(b[0]), S1(b[0], b[1]), S2(b[1], 0);
    assert [p, q] + ([r] + []) == Sextets(b);
    TwoAfter(n, p, q, [r] + []);
    FirstSextet(64 * (64 * n + p) + q, r, []);
    SameNumber(n, b[0], b[1], 0);
  }

  lemma {:induction false} EncodedAfter(n: nat, b: seq<byte>)
    ensures SextetsAfter(n, Sextets(b)) == OctetsAfter(n, b) * Fill(b)
    decreases |b|
  {
    if |b| == 0 {
    } else if |b| == 1 {
      OneEncoded(n, b);
    } else if |b| == 2 {
      TwoEncoded(n, b);
    } else {
      ThreeAfter(n, b);
      GroupAfter(n, S0(b[0]), S1(b[0], b[1]), S2(b[1], b[2]), S3(b[2]), Sextets(b[3..]));
      SameNumber(n, b[0], b[1], b[2]);
      EncodedAfter(0x100 * (0x100 * (0x100 * n + b[0]) + b[1]) + b[2], b[3..]);
      assert Fill(b[3..]) == Fill(b);
    }
  }

  /** An encoding is written in the alphabet, and read as a number in base 64 it is the
      bytes read as a number in base 256, filled up with zero bits. */
  lemma EncodedNumber(b: seq<byte>) returns (v: seq<sextet>)
    ensures |v| == |Encode(b)| && forall i :: 0 <= i < |v| ==> Encode(b)[i] == Alphabet()[v[i]]
    ensures Base64Number(v) == BigEndian(b) * Fill(b)
  {
    v := Sextets(b);
    EncodedAfter(0, b);
    OctetsAreBigEndian(b);
    SextetsAreBase64(v);
    forall i | 0 <= i < |v| ensures Encode(b)[i] == Alphabet()[v[i]] {
      SymbolIsListed(v[i]);
    }
  }
}
