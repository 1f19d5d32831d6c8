/** Continuation tokens of the progressive search: a canonical JSON payload and a MAC
    (HMAC, section 2 of RFC 2104, here an arbitrary function) over it and its binding. */
module Continuation {
  import opened Bytes
  import opened Base64Url
  import opened Decimal
  import opened WireText

  const DOT: byte := 46
  const MAX_TOKEN_BYTES := 1024
  const MAX_PAYLOAD_BYTES := 640
  const MAX_SCANNED_PER_PAGE := 500
  const MAX_SCANNED_PER_ACTIVITY := 16_000
  const SERVICE_COUNT := 6

  datatype AgentError = ToolArgs | Provider
  datatype Result<+T> = Ok(value: T) | Err(error: AgentError)

  type Mac = seq<byte> -> Digest

  datatype Binding = Binding(
    sessionId: Text, requestId: Text, activityId: Text, toolUseId: Text, scopeDigest: Digest)

  datatype State = State(
    version: u32, activityId: Text, scopeDigest: Digest, serviceIndex: byte, serviceOffset: u32,
    page: u16, metadataScanned: u32, bodyReads: u16, pageDigest: Digest, providerStep: byte)

  /** `validate_activity_state` */
  predicate Valid(act: Binding, st: State) {
    && st.version == 1
    && st.activityId == act.activityId && st.scopeDigest == act.scopeDigest
    && |st.activityId| == 22 && UrlSafe(st.activityId)
    && 0 < |act.toolUseId| <= 128
    && st.serviceIndex < SERVICE_COUNT
    && st.metadataScanned <= MAX_SCANNED_PER_ACTIVITY
    && st.serviceOffset <= st.metadataScanned
    && st.metadataScanned - st.serviceOffset <= MAX_SCANNED_PER_PAGE
    && st.bodyReads <= 40
    && st.providerStep <= 15
  }

  // ----- The payload -----

  /** The members of the wire object, in order. */
  const SLOTS: seq<Slot> := [
    Num(Ascii("{\"v\":"), 0x100),
    Word(Ascii(",\"a\":\"")),
    Word(Ascii("\",\"sc\":\"")),
    Num(Ascii("\",\"si\":"), 0x100),
    Num(Ascii(",\"so\":"), 0x1_0000_0000),
    Num(Ascii(",\"p\":"), 0x1_0000),
    Num(Ascii(",\"ms\":"), 0x1_0000_0000),
    Num(Ascii(",\"br\":"), 0x1_0000),
    Word(Ascii(",\"cd\":\"")),
    Num(Ascii("\",\"ps\":"), 0x100)]

  const CLOSE: Text := [125]

  /** The wire object, with its digests already in text form. */
  datatype Wire = Wire(v: byte, a: Text, sc: Text, si: byte, so: u32, p: u16, ms: u32, br: u16, cd: Text, ps: byte)

  function FieldsOf(w: Wire): seq<Field> {
    [Number(w.v), Name(w.a), Name(w.sc), Number(w.si), Number(w.so), Number(w.p), Number(w.ms),
     Number(w.br), Name(w.cd), Number(w.ps)]
  }

  /** `decode_32` */
  function DecodeDigest(t: Text): Option<seq<byte>> {
    if |t| != 43 then None else DecodeExact(t, 32)
  }

  /** Ten fields of the right kinds and widths. */
  predicate Typed(f: seq<Field>) {
    && |f| == 10
    && f[0].Number? && f[0].value < 0x100
    && f[1].Name? && f[2].Name?
    && f[3].Number? && f[3].value < 0x100
    && f[4].Number? && f[4].value < 0x1_0000_0000
    && f[5].Number? && f[5].value < 0x1_0000
    && f[6].Number? && f[6].value < 0x1_0000_0000
    && f[7].Number? && f[7].value < 0x1_0000
    && f[8].Name?
    && f[9].Number? && f[9].value < 0x100
  }

  function WireOf(f: seq<Field>): Wire
    requires Typed(f)
  {
    Wire(f[0].value, f[1].text, f[2].text, f[3].value, f[4].value, f[5].value, f[6].value, f[7].value,
         f[8].text, f[9].value)
  }

  function ToWire(st: State): Wire {
    Wire(1, st.activityId, Encode(st.scopeDigest), st.serviceIndex, st.serviceOffset, st.page,
         st.metadataScanned, st.bodyReads, Encode(st.pageDigest), st.providerStep)
  }

  function FromWire(w: Wire): Option<State> {
    var scope, page := DecodeDigest(w.sc), DecodeDigest(w.cd);
    if scope.None? || page.None? then None
    else Some(State(w.v, w.a, scope.value, w.si, w.so, w.p, w.ms, w.br, page.value, w.ps))
  }

  function PrintState(st: State): Text {
    Render(SLOTS, CLOSE, FieldsOf(ToWire(st)))
  }

  function ParseState(payload: Text): Option<State> {
    var fields := Scan(SLOTS, CLOSE, payload);
    if fields.None? then None
    else
      RenderScan(SLOTS, CLOSE, payload);
      FitsTyped(fields.value);
      FromWire(WireOf(fields.value))
  }

  // ----- The token -----

  /** What the MAC covers: the binding, length-prefixed, the scope digest, the payload. */
  function Message(act: Binding, payload: Text): Option<seq<byte>> {
    var s, r, a, t := U16Len(act.sessionId), U16Len(act.requestId), U16Len(act.activityId), U16Len(act.toolUseId);
    var p := U16Len(payload);
    if s.None? || r.None? || a.None? || t.None? || p.None? then None
    else Some(s.value + (r.value + (a.value + (t.value + (act.scopeDigest + p.value)))))
  }

  function Domain(): Text {
    Ascii("isyncyou-progressive-search-continuation/v1")
  }

  function Seal(mac: Mac, act: Binding, st: State): Result<Text> {
    if !Valid(act, st) then Err(ToolArgs)
    else
      var payload := PrintState(st);
      var message := Message(act, payload);
      if |payload| > MAX_PAYLOAD_BYTES || message.None? then Err(Provider)
      else
        var token := Token(payload, mac(Domain() + message.value));
        if |token| > MAX_TOKEN_BYTES then Err(Provider) else Ok(token)
  }

  function Token(payload: Text, tag: Digest): Text {
    Encode(payload) + [DOT] + Encode(tag)
  }

  /** The two components of a token, decoded. */
  function SplitToken(token: Text): Option<(seq<byte>, seq<byte>)> {
    if token == [] || |token| > MAX_TOKEN_BYTES || !(forall i :: 0 <= i < |token| ==> token[i] < 128) then None
    else
      var parts := Split(token, DOT);
      if |parts| != 2 then None
      else
        var payload := Decode(parts[0]);
        var tag := DecodeDigest(parts[1]);
        if payload.None? || |payload.value| > MAX_PAYLOAD_BYTES || tag.None? then None
        else Some((payload.value, tag.value))
  }

  function Open(mac: Mac, act: Binding, token: Text): Result<State> {
    var parts := SplitToken(token);
    if parts.None? then Err(ToolArgs)
    else
      var (payload, tag) := parts.value;
      var message := Message(act, payload);
      if message.None? then Err(Provider)
      else if tag != mac(Domain() + message.value) then Err(ToolArgs)
      else
        var st := ParseState(payload);
        if st.None? || !Valid(act, st.value) then Err(ToolArgs) else Ok(st.value)
  }

  // ----- Payload round trips -----

  lemma SlotsSeparated()
    ensures Separated(SLOTS, CLOSE)
    ensures forall i :: 0 <= i < |SLOTS| ==> |SLOTS[i].lead| <= 10
  {
  }

  lemma FieldsFit(w: Wire)
    requires UrlSafe(w.a) && UrlSafe(w.sc) && UrlSafe(w.cd)
    ensures Fits(SLOTS, FieldsOf(w))
  {
  }

  lemma FitsTyped(fields: seq<Field>)
    requires Fits(SLOTS, fields)
    ensures Typed(fields)
  {
  }

  lemma FieldsOfWire(fields: seq<Field>)
    requires Typed(fields)
    ensures FieldsOf(WireOf(fields)) == fields
  {
  }

  lemma DigestText(d: Digest)
    ensures UrlSafe(Encode(d)) && |Encode(d)| == 43 && DecodeDigest(Encode(d)) == Some(d)
  {
    EncodeLength(d);
    DecodeEncode(d);
  }

  lemma DigestRoundTrip(t: Text)
    requires DecodeDigest(t).Some?
    ensures Encode(DecodeDigest(t).value) == t
  {
    EncodeDecode(t);
  }

  lemma ParseWire(w: Wire)
    requires UrlSafe(w.a) && UrlSafe(w.sc) && UrlSafe(w.cd)
    ensures ParseState(Render(SLOTS, CLOSE, FieldsOf(w))) == FromWire(w)
  {
    SlotsSeparated();
    FieldsFit(w);
    ScanRender(SLOTS, CLOSE, FieldsOf(w));
    FitsTyped(FieldsOf(w));
    assert WireOf(FieldsOf(w)) == w;
  }

  lemma ParsePrint(act: Binding, st: State)
    requires Valid(act, st)
    ensures ParseState(PrintState(st)) == Some(st)
  {
    DigestText(st.scopeDigest);
    DigestText(st.pageDigest);
    ParseWire(ToWire(st));
  }

  lemma PrintParse(payload: Text)
    requires ParseState(payload).Some? && ParseState(payload).value.version == 1
    ensures PrintState(ParseState(payload).value) == payload
  {
    RenderScan(SLOTS, CLOSE, payload);
    var fields := Scan(SLOTS, CLOSE, payload).value;
    FitsTyped(fields);
    FieldsOfWire(fields);
    DigestRoundTrip(WireOf(fields).sc);
    DigestRoundTrip(WireOf(fields).cd);
  }

  // ----- Token round trips -----

  lemma SplitTwo(a: Text, b: Text)
    requires UrlSafe(a) && UrlSafe(b)
    ensures Split(a + [DOT] + b, DOT) == [a, b]
    ensures forall i :: 0 <= i < |a + [DOT] + b| ==> (a + [DOT] + b)[i] < 128
  {
    SplitFirst(a, b, DOT);
    assert Split(b, DOT) == [b];
  }

  lemma SplitPrinted(payload: Text, tag: Digest)
    requires |payload| <= MAX_PAYLOAD_BYTES && |Token(payload, tag)| <= MAX_TOKEN_BYTES
    ensures SplitToken(Token(payload, tag)) == Some((payload, tag))
  {
    EncodeLength(payload);
    EncodeLength(tag);
    SplitTwo(Encode(payload), Encode(tag));
    DecodeEncode(payload);
    DecodeEncode(tag);
  }

  lemma PrintSplit(token: Text)
    requires SplitToken(token).Some?
    ensures var (payload, tag) := SplitToken(token).value;
            |tag| == 32 && |payload| <= MAX_PAYLOAD_BYTES && Token(payload, tag) == token
  {
    var parts := Split(token, DOT);
    JoinSplit(token, DOT);
    assert parts[1..] == [parts[1]];
    EncodeDecode(parts[0]);
    EncodeDecode(parts[1]);
  }

  /** Opening a sealed state returns that state. */
  lemma OpenSealed(mac: Mac, act: Binding, st: State)
    requires Seal(mac, act, st).Ok?
    ensures Open(mac, act, Seal(mac, act, st).value) == Ok(st)
  {
    var payload := PrintState(st);
    SplitPrinted(payload, mac(Domain() + Message(act, payload).value));
    ParsePrint(act, st);
  }

  /** Sealing what an accepted token opened to returns the identical token. */
  lemma SealOpened(mac: Mac, act: Binding, token: Text)
    requires Open(mac, act, token).Ok?
    ensures Seal(mac, act, Open(mac, act, token).value) == Ok(token)
  {
    PrintSplit(token);
    PrintParse(SplitToken(token).value.0);
  }

  // ----- Sealing always succeeds -----

  lemma NumberLength(n: nat)
    requires n < 100_000
    ensures |Digits(n)| <= 5
  {
    assert Pow10(5) == 100_000;
    DigitsLength(n, 5);
  }

  lemma WireFieldLengths(w: Wire)
    requires |w.a| <= 43 && |w.sc| <= 43 && |w.cd| <= 43 && w.so < 100_000 && w.ms < 100_000
    ensures forall i :: 0 <= i < 10 ==> |RenderField(FieldsOf(w)[i])| <= 43
  {
    var fields := FieldsOf(w);
    forall i | 0 <= i < 10 ensures |RenderField(fields[i])| <= 43 {
      if fields[i].Number? {
        NumberLength(fields[i].value);
      }
    }
  }

  lemma PayloadLength(act: Binding, st: State)
    requires Valid(act, st)
    ensures |PrintState(st)| <= 531
  {
    DigestText(st.scopeDigest);
    DigestText(st.pageDigest);
    WireFieldLengths(ToWire(st));
    SlotsSeparated();
    RenderLength(SLOTS, CLOSE, FieldsOf(ToWire(st)));
  }

  /** Sealing succeeds exactly for a state of this activity and scope within the limits of
      a search, whose session and request ids have a 16-bit length: the size caps are
      never reached. */
  lemma SealSucceeds(mac: Mac, act: Binding, st: State)
    ensures Seal(mac, act, st).Ok? <==>
              && st.version == 1 && st.activityId == act.activityId && st.scopeDigest == act.scopeDigest
              && |act.activityId| == 22 && UrlSafe(act.activityId) && 0 < |act.toolUseId| <= 128
              && st.serviceIndex < 6 && st.bodyReads <= 40 && st.providerStep <= 15
              && st.serviceOffset <= st.metadataScanned <= st.serviceOffset + 500 && st.metadataScanned <= 16_000
              && |act.sessionId| < 0x1_0000 && |act.requestId| < 0x1_0000
  {
    if Valid(act, st) {
      PayloadLength(act, st);
      var payload := PrintState(st);
      EncodeLength(payload);
      if Message(act, payload).Some? {
        EncodeLength(mac(Domain() + Message(act, payload).value));
      }
    }
  }
}
