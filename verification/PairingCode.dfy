/** The scannable pairing code `isy2.<pair id>.<transfer key>`. */
module PairingCode {
  import opened Bytes
  import opened Base64Url

  const DOT: byte := 46
  /** "isy2" */
  const PREFIX: Text := [105, 115, 121, 50]
  const CODE_LENGTH := 81
  const TRANSFER_KEY_BYTES := 32

  datatype Code = Code(pairId: Text, transferKey: seq<byte>)

  /** `valid_id`. */
  predicate ValidId(value: Text, length: nat) {
    |value| == length && UrlSafe(value)
  }

  /** What every constructor of a code establishes. */
  predicate WellFormed(code: Code) {
    ValidId(code.pairId, 32) && |code.transferKey| == TRANSFER_KEY_BYTES
  }

  function Print(code: Code): Text {
    Dotted(PREFIX, code.pairId, Encode(code.transferKey))
  }

  function Dotted(a: Text, b: Text, c: Text): Text {
    a + [DOT] + (b + [DOT] + c)
  }

  predicate IsAscii(value: Text) {
    forall i :: 0 <= i < |value| ==> value[i] < 128
  }

  function Parse(value: Text): Option<Code> {
    if |value| != CODE_LENGTH || !IsAscii(value) then None
    else
      var parts := Split(value, DOT);
      if |parts| != 3 then None else ParseParts(parts[0], parts[1], parts[2])
  }

  function ParseParts(prefix: Text, id: Text, key: Text): Option<Code> {
    if prefix != PREFIX || !ValidId(id, 32) || |key| != 43 then None
    else
      var decoded := DecodeExact(key, TRANSFER_KEY_BYTES);
      if decoded.None? then None else Some(Code(id, decoded.value))
  }

  /** Three dot-free components, put together, split into themselves. */
  lemma SplitDotted(a: Text, b: Text, c: Text)
    requires DOT !in a && DOT !in b && DOT !in c
    ensures Split(Dotted(a, b, c), DOT) == [a, b, c]
  {
    SplitFirst(a, b + [DOT] + c, DOT);
    SplitFirst(b, c, DOT);
    assert Split(c, DOT) == [c];
  }

  /** And a text that splits into three is those three put together. */
  lemma DottedSplit(value: Text)
    requires |Split(value, DOT)| == 3
    ensures var p := Split(value, DOT); value == Dotted(p[0], p[1], p[2])
  {
    var p := Split(value, DOT);
    JoinSplit(value, DOT);
    assert Join(p[1..], DOT) == p[1] + [DOT] + Join(p[1..][1..], DOT);
    assert p[1..][1..] == [p[2]];
  }

  lemma ParseDotted(prefix: Text, id: Text, key: Text)
    requires |prefix| == 4 && IsAscii(prefix) && DOT !in prefix
    requires ValidId(id, 32) && ValidId(key, 43)
    ensures |Dotted(prefix, id, key)| == CODE_LENGTH
    ensures Parse(Dotted(prefix, id, key)) == ParseParts(prefix, id, key)
  {
    SplitDotted(prefix, id, key);
  }

  lemma PartsOf(code: Code)
    requires WellFormed(code)
    ensures ParseParts(PREFIX, code.pairId, Encode(code.transferKey)) == Some(code)
    ensures ValidId(Encode(code.transferKey), 43)
  {
    EncodeLength(code.transferKey);
    DecodeEncode(code.transferKey);
  }

  lemma PartsSound(prefix: Text, id: Text, key: Text)
    requires ParseParts(prefix, id, key).Some?
    ensures WellFormed(ParseParts(prefix, id, key).value)
    ensures Print(ParseParts(prefix, id, key).value) == Dotted(prefix, id, key)
  {
    EncodeDecode(key);
  }

  /** Every code prints to 81 ASCII characters that parse back to it. */
  lemma ParsePrint(code: Code)
    requires WellFormed(code)
    ensures |Print(code)| == 81
    ensures Parse(Print(code)) == Some(code)
  {
    PartsOf(code);
    ParseDotted(PREFIX, code.pairId, Encode(code.transferKey));
  }

  lemma DottedAt(a: Text, b: Text, c: Text)
    ensures |Dotted(a, b, c)| == |a| + |b| + |c| + 2
    ensures Dotted(a, b, c)[..|a| + 1] == a + [DOT]
    ensures Dotted(a, b, c)[|a| + 1..|a| + 1 + |b|] == b && Dotted(a, b, c)[|a| + 1 + |b|] == DOT
    ensures Dotted(a, b, c)[|a| + |b| + 2..] == c
  {
  }

  lemma PrefixText()
    ensures PREFIX + [DOT] == Ascii("isy2.")
  {
  }

  /** A code is `isy2.`, the pair id, a dot and the transfer key in base64url. */
  lemma CodeLayout(code: Code)
    requires WellFormed(code)
    ensures |Print(code)| == 81 && Print(code)[..5] == Ascii("isy2.")
    ensures Print(code)[5..37] == code.pairId && Print(code)[37] == 46
    ensures Decode(Print(code)[38..]) == Some(code.transferKey)
  {
    PrefixText();
    DottedAt(PREFIX, code.pairId, Encode(code.transferKey));
    EncodeLength(code.transferKey);
    DecodeEncode(code.transferKey);
  }

  /** Every accepted string re-prints to itself. */
  lemma PrintParse(value: Text)
    requires Parse(value).Some?
    ensures WellFormed(Parse(value).value)
    ensures Print(Parse(value).value) == value
  {
    var p := Split(value, DOT);
    DottedSplit(value);
    PartsSound(p[0], p[1], p[2]);
  }
}
