/** The byte layouts of the scope encoding, the MAC inputs, the candidate page and the
    pairing AAD, as a reader of typed fields sees them: what each encoder writes is read
    back field by field, in the order and width of its layout, with nothing left over. */
module Layouts {
  import opened Bytes
  import opened Decimal
  import opened SearchScope
  import opened MacInputs
  import Continuation
  import WireText
  import Base64Url
  import PairingDescriptor

  /** A field: a fixed number of bytes, bytes behind a length of so many bytes, an
      integer of so many bytes, or any of these behind a presence byte. */
  datatype Kind = Raw(size: nat) | Counted(width: nat) | Integer(width: nat) | Maybe(inner: Kind)

  datatype Value = Blob(bytes: seq<byte>) | Number(value: nat) | Absent

  function Read(k: Kind, b: seq<byte>): Option<(Value, seq<byte>)> {
    match k
    case Raw(n) => if |b| < n then None else Some((Blob(b[..n]), b[n..]))
    case Integer(w) => if |b| < w then None else Some((Number(BigEndian(b[..w])), b[w..]))
    case Counted(w) =>
      if |b| < w || |b| - w < BigEndian(b[..w]) then None
      else
        var n := BigEndian(b[..w]);
        Some((Blob(b[w..w + n]), b[w + n..]))
    case Maybe(inner) =>
      if b == [] then None
      else if b[0] == 0 then Some((Absent, b[1..]))
      else if b[0] == 1 then Read(inner, b[1..])
      else None
  }

  function ReadAll(ks: seq<Kind>, b: seq<byte>): Option<(seq<Value>, seq<byte>)> {
    if ks == [] then Some(([], b))
    else
      var first := Read(ks[0], b);
      if first.None? then None
      else
        var rest := ReadAll(ks[1..], first.value.1);
        if rest.None? then None else Some(([first.value.0] + rest.value.0, rest.value.1))
  }

  /** So many records of the same fields. */
  function ReadRows(count: nat, ks: seq<Kind>, b: seq<byte>): Option<(seq<seq<Value>>, seq<byte>)> {
    if count == 0 then Some(([], b))
    else
      var first := ReadAll(ks, b);
      if first.None? then None
      else
        var rest := ReadRows(count - 1, ks, first.value.1);
        if rest.None? then None else Some(([first.value.0] + rest.value.0, rest.value.1))
  }

  // ----- One field -----

  lemma ReadRaw(x: seq<byte>, rest: seq<byte>)
    ensures Read(Raw(|x|), x + rest) == Some((Blob(x), rest))
  {
  }

  lemma ReadByte(x: byte, rest: seq<byte>)
    ensures Read(Integer(1), [x] + rest) == Some((Number(x), rest))
  {
    BigEndianNext([], x);
    assert ([x] + rest)[..1] == [] + [x];
  }

  lemma ReadInteger(x: seq<byte>, rest: seq<byte>)
    ensures Read(Integer(|x|), x + rest) == Some((Number(BigEndian(x)), rest))
  {
    assert (x + rest)[..|x|] == x;
  }

  lemma ReadCounted(length: seq<byte>, x: seq<byte>, rest: seq<byte>)
    requires BigEndian(length) == |x|
    ensures Read(Counted(|length|), (length + x) + rest) == Some((Blob(x), rest))
  {
    var b := length + x + rest;
    assert b[..|length|] == length;
    assert b[|length|..|length| + |x|] == x;
    assert b[|length| + |x|..] == rest;
  }

  lemma ReadLen16(x: Text, rest: seq<byte>)
    requires U16Len(x).Some?
    ensures Read(Counted(2), U16Len(x).value + rest) == Some((Blob(x), rest))
  {
    IntegerBytes(|x|, 0, 0);
    ReadCounted(U16(|x|), x, rest);
  }

  lemma ReadLen32(x: Text, rest: seq<byte>)
    requires U32Len(x).Some?
    ensures Read(Counted(4), U32Len(x).value + rest) == Some((Blob(x), rest))
  {
    IntegerBytes(0, |x|, 0);
    ReadCounted(U32(|x|), x, rest);
  }

  lemma ReadPresent(k: Kind, x: seq<byte>, rest: seq<byte>)
    ensures Read(Maybe(k), ([1] + x) + rest) == Read(k, x + rest)
  {
    assert ([1] + x + rest)[1..] == x + rest;
  }

  lemma ReadAbsent(k: Kind, rest: seq<byte>)
    ensures Read(Maybe(k), [0] + rest) == Some((Absent, rest))
  {
  }

  /** A field in front of fields that are read. */
  lemma ReadNext(k: Kind, ks: seq<Kind>, x: seq<byte>, rest: seq<byte>, v: Value, vs: seq<Value>, end: seq<byte>)
    requires Read(k, x + rest) == Some((v, rest)) && ReadAll(ks, rest) == Some((vs, end))
    ensures ReadAll([k] + ks, x + rest) == Some(([v] + vs, end))
  {
    assert ([k] + ks)[1..] == ks;
  }

  /** The last field. */
  lemma ReadLast(k: Kind, x: seq<byte>, v: Value)
    requires Read(k, x + []) == Some((v, []))
    ensures ReadAll([k], x) == Some(([v], []))
  {
    ReadNext(k, [], x, [], v, [], []);
    assert [k] + [] == [k] && x + [] == x && [v] + [] == [v];
  }

  // ----- The scope -----

  lemma ReadOrdinals(n: nat, o: seq<byte>, limit: u32)
    requires |o| == n < 0x100
    ensures ReadAll([Counted(1), Integer(4)], [n] + (o + U32(limit))) == Some(([Blob(o), Number(limit)], []))
  {
    IntegerBytes(0, limit, 0);
    ReadInteger(U32(limit), []);
    ReadLast(Integer(4), U32(limit), Number(limit));
    BigEndianNext([], n);
    assert [] + [n] == [n];
    ReadCounted([n], o, U32(limit));
    assert [n] + (o + U32(limit)) == ([n] + o) + U32(limit);
    ReadNext(Counted(1), [Integer(4)], [n] + o, U32(limit), Blob(o), [Number(limit)], []);
    assert [Counted(1)] + [Integer(4)] == [Counted(1), Integer(4)];
    assert [Blob(o)] + [Number(limit)] == [Blob(o), Number(limit)];
  }

  lemma ReadTwoTexts(a: Text, q: Text, tail: seq<byte>, ks: seq<Kind>, vs: seq<Value>)
    requires |a| < 0x1_0000 && |q| < 0x1_0000 && ReadAll(ks, tail) == Some((vs, []))
    ensures ReadAll([Counted(2)] + ([Counted(2)] + ks), U16Len(a).value + (U16Len(q).value + tail))
         == Some(([Blob(a)] + ([Blob(q)] + vs), []))
  {
    ReadLen16(q, tail);
    ReadNext(Counted(2), ks, U16Len(q).value, tail, Blob(q), vs, []);
    ReadLen16(a, U16Len(q).value + tail);
    ReadNext(Counted(2), [Counted(2)] + ks, U16Len(a).value, U16Len(q).value + tail, Blob(a), [Blob(q)] + vs, []);
  }

  /** A scope is version 1, account, query, the positions of its services in the list
      of services, and its limit. */
  lemma ScopeLayout(account: Text, query: Text, services: seq<Text>, limit: u32)
    requires AccountOk(account) && |query| <= 2048 && ServicesOk(services) && |services| <= 6
    ensures |Ordinals(services)| == |services|
    ensures forall i :: 0 <= i < |services| ==>
              Ordinals(services)[i] < |SERVICES| && SERVICES[Ordinals(services)[i]] == services[i]
    ensures ReadAll([Integer(1), Counted(2), Counted(2), Counted(1), Integer(4)],
                    EncodeScope(account, query, services, limit))
         == Some(([Number(1), Blob(account), Blob(query), Blob(Ordinals(services)), Number(limit)], []))
  {
    var o := Ordinals(services);
    var ks, vs := [Counted(1), Integer(4)], [Blob(o), Number(limit)];
    var tail := [|services|] + (o + U32(limit));
    ReadOrdinals(|services|, o, limit);
    ReadTwoTexts(account, query, tail, ks, vs);
    var texts := U16Len(account).value + (U16Len(query).value + tail);
    ReadByte(1, texts);
    ReadNext(Integer(1), [Counted(2)] + ([Counted(2)] + ks), [1], texts,
             Number(1), [Blob(account)] + ([Blob(query)] + vs), []);
    assert [Integer(1)] + ([Counted(2)] + ([Counted(2)] + ks)) == [Integer(1), Counted(2), Counted(2), Counted(1), Integer(4)];
    assert [Number(1)] + ([Blob(account)] + ([Blob(query)] + vs))
        == [Number(1), Blob(account), Blob(query), Blob(o), Number(limit)];
  }

  // ----- The continuation message -----

  lemma ReadMessageEnd(digest: Digest, payload: Text)
    requires U16Len(payload).Some?
    ensures ReadAll([Raw(32), Counted(2)], digest + U16Len(payload).value)
         == Some(([Blob(digest), Blob(payload)], []))
  {
    var p := U16Len(payload).value;
    ReadLen16(payload, []);
    ReadLast(Counted(2), p, Blob(payload));
    ReadRaw(digest, p);
    ReadNext(Raw(32), [Counted(2)], digest, p, Blob(digest), [Blob(payload)], []);
    assert [Raw(32)] + [Counted(2)] == [Raw(32), Counted(2)];
    assert [Blob(digest)] + [Blob(payload)] == [Blob(digest), Blob(payload)];
  }

  function MessageValues(act: Continuation.Binding, payload: Text): seq<Value> {
    [Blob(act.sessionId), Blob(act.requestId), Blob(act.activityId), Blob(act.toolUseId), Blob(act.scopeDigest),
     Blob(payload)]
  }

  /** The message is session, request, activity and tool use, the 32 bytes of the scope
      digest, and the payload; there is one exactly when each text has a 16-bit length. */
  lemma MessageLayout(act: Continuation.Binding, payload: Text)
    ensures Continuation.Message(act, payload).Some? <==>
              && |act.sessionId| < 0x1_0000 && |act.requestId| < 0x1_0000 && |act.activityId| < 0x1_0000
              && |act.toolUseId| < 0x1_0000 && |payload| < 0x1_0000
    ensures Continuation.Message(act, payload).Some? ==>
              ReadAll([Counted(2), Counted(2), Counted(2), Counted(2), Raw(32), Counted(2)],
                      Continuation.Message(act, payload).value) == Some((MessageValues(act, payload), []))
  {
    if Continuation.Message(act, payload).Some? {
      var tail := act.scopeDigest + U16Len(payload).value;
      var ks, vs := [Raw(32), Counted(2)], [Blob(act.scopeDigest), Blob(payload)];
      ReadMessageEnd(act.scopeDigest, payload);
      ReadTwoTexts(act.activityId, act.toolUseId, tail, ks, vs);
      var ks2, vs2 := [Counted(2)] + ([Counted(2)] + ks), [Blob(act.activityId)] + ([Blob(act.toolUseId)] + vs);
      ReadTwoTexts(act.sessionId, act.requestId,
                   U16Len(act.activityId).value + (U16Len(act.toolUseId).value + tail), ks2, vs2);
      assert [Counted(2)] + ([Counted(2)] + ks2)
          == [Counted(2), Counted(2), Counted(2), Counted(2), Raw(32), Counted(2)];
      assert [Blob(act.sessionId)] + ([Blob(act.requestId)] + vs2) == MessageValues(act, payload);
    }
  }

  // ----- The candidate key -----

  lemma ReadTwoLong(a: Text, q: Text, tail: seq<byte>, ks: seq<Kind>, vs: seq<Value>)
    requires U32Len(a).Some? && U32Len(q).Some? && ReadAll(ks, tail) == Some((vs, []))
    ensures ReadAll([Counted(4)] + ([Counted(4)] + ks), U32Len(a).value + (U32Len(q).value + tail))
         == Some(([Blob(a)] + ([Blob(q)] + vs), []))
  {
    ReadLen32(q, tail);
    ReadNext(Counted(4), ks, U32Len(q).value, tail, Blob(q), vs, []);
    ReadLen32(a, U32Len(q).value + tail);
    ReadNext(Counted(4), [Counted(4)] + ks, U32Len(a).value, U32Len(q).value + tail, Blob(a), [Blob(q)] + vs, []);
  }

  lemma ReadPage(page: u16, tail: seq<byte>, ks: seq<Kind>, vs: seq<Value>)
    requires ReadAll(ks, tail) == Some((vs, []))
    ensures ReadAll([Integer(2)] + ks, U16(page) + tail) == Some(([Number(page)] + vs, []))
  {
    IntegerBytes(page, 0, 0);
    ReadInteger(U16(page), tail);
    ReadNext(Integer(2), ks, U16(page), tail, Number(page), vs, []);
  }

  lemma ReadThreeLong(a: Text, b: Text, c: Text)
    requires U32Len(a).Some? && U32Len(b).Some? && U32Len(c).Some?
    ensures ReadAll([Counted(4)] + ([Counted(4)] + [Counted(4)]),
                    U32Len(a).value + (U32Len(b).value + U32Len(c).value))
         == Some(([Blob(a)] + ([Blob(b)] + [Blob(c)]), []))
  {
    ReadLen32(c, []);
    ReadLast(Counted(4), U32Len(c).value, Blob(c));
    ReadTwoLong(a, b, U32Len(c).value, [Counted(4)], [Blob(c)]);
  }

  /** Behind a domain, whatever its text. */
  lemma ReadDomain(domain: Text, tail: seq<byte>, ks: seq<Kind>, vs: seq<Value>)
    requires ReadAll(ks, tail) == Some((vs, []))
    ensures ReadAll([Raw(|domain|)] + ks, domain + tail) == Some(([Blob(domain)] + vs, []))
  {
    ReadRaw(domain, tail);
    ReadNext(Raw(|domain|), ks, domain, tail, Blob(domain), vs, []);
  }

  lemma ReadCandidateEnd(page: u16, a: Text, b: Text, c: Text)
    requires Fits32(a) && Fits32(b) && Fits32(c)
    ensures ReadAll([Integer(2), Counted(4), Counted(4), Counted(4)], U16(page) + (Len32(a) + (Len32(b) + Len32(c))))
         == Some(([Number(page), Blob(a), Blob(b), Blob(c)], []))
  {
    ReadThreeLong(a, b, c);
    var tail := Len32(a) + (Len32(b) + Len32(c));
    var ks, vs := [Counted(4)] + ([Counted(4)] + [Counted(4)]), [Blob(a)] + ([Blob(b)] + [Blob(c)]);
    ReadPage(page, tail, ks, vs);
    assert [Integer(2)] + ks == [Integer(2), Counted(4), Counted(4), Counted(4)];
    assert [Number(page)] + vs == [Number(page), Blob(a), Blob(b), Blob(c)];
  }

  lemma TwoFields(k: Kind, l: Kind, ks: seq<Kind>, u: Value, v: Value, vs: seq<Value>)
    ensures [k] + ([l] + ks) == [k, l] + ks
    ensures [u] + ([v] + vs) == [u, v] + vs
  {
  }

  lemma ThreeFields(k: Kind, l: Kind, m: Kind, ks: seq<Kind>, u: Value, v: Value, w: Value, vs: seq<Value>)
    ensures [k] + ([l] + ([m] + ks)) == [k, l, m] + ks
    ensures [u] + ([v] + ([w] + vs)) == [u, v, w] + vs
  {
  }

  lemma ReadCandidate(d: Text, a: Text, b: Text, tail: seq<byte>, ks: seq<Kind>, vs: seq<Value>)
    requires Fits32(a) && Fits32(b) && ReadAll(ks, tail) == Some((vs, []))
    ensures ReadAll([Raw(|d|), Counted(4), Counted(4)] + ks, d + (Len32(a) + (Len32(b) + tail)))
         == Some(([Blob(d), Blob(a), Blob(b)] + vs, []))
  {
    ReadTwoLong(a, b, tail, ks, vs);
    ReadDomain(d, Len32(a) + (Len32(b) + tail), [Counted(4)] + ([Counted(4)] + ks), [Blob(a)] + ([Blob(b)] + vs));
    ThreeFields(Raw(|d|), Counted(4), Counted(4), ks, Blob(d), Blob(a), Blob(b), vs);
  }

  /** The candidate-key input is its domain, the activity, the scope digest, the page
      number, the page digest, the service and the item id. */
  lemma CandidateLayout(st: Continuation.State, service: Text, itemId: Text)
    requires CandidateInput(st, service, itemId).Some?
    ensures ReadAll([Raw(|CandidateDomain()|), Counted(4), Counted(4)]
                    + [Integer(2), Counted(4), Counted(4), Counted(4)],
                    CandidateInput(st, service, itemId).value)
         == Some(([Blob(CandidateDomain()), Blob(st.activityId), Blob(st.scopeDigest)]
                  + [Number(st.page), Blob(st.pageDigest), Blob(service), Blob(itemId)], []))
  {
    ReadCandidateEnd(st.page, st.pageDigest, service, itemId);
    ReadCandidate(CandidateDomain(), st.activityId, st.scopeDigest,
                  U16(st.page) + (Len32(st.pageDigest) + (Len32(service) + Len32(itemId))),
                  [Integer(2), Counted(4), Counted(4), Counted(4)],
                  [Number(st.page), Blob(st.pageDigest), Blob(service), Blob(itemId)]);
  }

  /** The activity input is its domain and the tool-use id. */
  lemma ActivityLayout(toolUseId: Text)
    ensures ActivityInput(toolUseId).Some? <==> 0 < |toolUseId| <= 128
    ensures 0 < |toolUseId| <= 128 ==>
              ReadAll([Raw(|ActivityDomain()|)] + [Counted(4)], ActivityInput(toolUseId).value)
              == Some(([Blob(ActivityDomain())] + [Blob(toolUseId)], []))
  {
    if ActivityInput(toolUseId).Some? {
      ReadLen32(toolUseId, []);
      ReadLast(Counted(4), U32Len(toolUseId).value, Blob(toolUseId));
      ReadDomain(ActivityDomain(), U32Len(toolUseId).value, [Counted(4)], [Blob(toolUseId)]);
    }
  }

  // ----- The candidate page -----

  function TextValue(t: Option<Text>): Value {
    if t.Some? then Blob(t.value) else Absent
  }

  function SizeValue(v: Option<u64>): Value {
    if v.Some? then Number(v.value) else Absent
  }

  lemma ReadOptText(t: Option<Text>, rest: seq<byte>)
    requires t.Some? ==> Fits32(t.value)
    ensures Read(Maybe(Counted(4)), OptText(t) + rest) == Some((TextValue(t), rest))
  {
    if t.Some? {
      ReadPresent(Counted(4), Len32(t.value), rest);
      ReadLen32(t.value, rest);
    } else {
      ReadAbsent(Counted(4), rest);
    }
  }

  lemma ReadOptSize(v: Option<u64>, rest: seq<byte>)
    ensures Read(Maybe(Integer(8)), OptSize(v) + rest) == Some((SizeValue(v), rest))
  {
    if v.Some? {
      ReadPresent(Integer(8), U64(v.value), rest);
      IntegerBytes(0, 0, v.value);
      ReadInteger(U64(v.value), rest);
    } else {
      ReadAbsent(Integer(8), rest);
    }
  }

  const ROW: seq<Kind> :=
    [Integer(1), Counted(4), Counted(4)] + ([Maybe(Counted(4)), Counted(4)] + [Maybe(Counted(4)), Maybe(Integer(8))])

  /** Service position, item id, name; sender, type, time and size. */
  function RowValues(row: Row): seq<Value> {
    var c := row.candidate;
    if c.service !in SERVICES then []
    else
      [Number(Ordinal(c.service).value), Blob(row.id), Blob(c.name)]
      + ([TextValue(c.sender), Blob(c.itemType)] + [TextValue(c.remoteMtime), SizeValue(c.size)])
  }

  lemma ReadTimeAndSize(m: Option<Text>, v: Option<u64>, rest: seq<byte>)
    requires m.Some? ==> Fits32(m.value)
    ensures ReadAll([Maybe(Counted(4)), Maybe(Integer(8))], OptText(m) + (OptSize(v) + rest))
         == Some(([TextValue(m), SizeValue(v)], rest))
  {
    ReadOptSize(v, rest);
    ReadNext(Maybe(Integer(8)), [], OptSize(v), rest, SizeValue(v), [], rest);
    ReadOptText(m, OptSize(v) + rest);
    ReadNext(Maybe(Counted(4)), [Maybe(Integer(8))] + [], OptText(m), OptSize(v) + rest,
             TextValue(m), [SizeValue(v)] + [], rest);
    TwoFields(Maybe(Counted(4)), Maybe(Integer(8)), [], TextValue(m), SizeValue(v), []);
    assert [Maybe(Counted(4)), Maybe(Integer(8))] + [] == [Maybe(Counted(4)), Maybe(Integer(8))];
    assert [TextValue(m), SizeValue(v)] + [] == [TextValue(m), SizeValue(v)];
  }

  lemma ReadSenderAndType(t: Option<Text>, u: Text, tail: seq<byte>, ks: seq<Kind>, vs: seq<Value>, end: seq<byte>)
    requires (t.Some? ==> Fits32(t.value)) && Fits32(u) && ReadAll(ks, tail) == Some((vs, end))
    ensures ReadAll([Maybe(Counted(4)), Counted(4)] + ks, OptText(t) + (Len32(u) + tail))
         == Some(([TextValue(t), Blob(u)] + vs, end))
  {
    ReadLen32(u, tail);
    ReadNext(Counted(4), ks, Len32(u), tail, Blob(u), vs, end);
    ReadOptText(t, Len32(u) + tail);
    ReadNext(Maybe(Counted(4)), [Counted(4)] + ks, OptText(t), Len32(u) + tail, TextValue(t), [Blob(u)] + vs, end);
    TwoFields(Maybe(Counted(4)), Counted(4), ks, TextValue(t), Blob(u), vs);
  }

  lemma ReadRowFront(o: byte, a: Text, b: Text, tail: seq<byte>, ks: seq<Kind>, vs: seq<Value>, end: seq<byte>)
    requires Fits32(a) && Fits32(b) && ReadAll(ks, tail) == Some((vs, end))
    ensures ReadAll([Integer(1), Counted(4), Counted(4)] + ks, [o] + (Len32(a) + (Len32(b) + tail)))
         == Some(([Number(o), Blob(a), Blob(b)] + vs, end))
  {
    ReadLen32(b, tail);
    ReadNext(Counted(4), ks, Len32(b), tail, Blob(b), vs, end);
    ReadLen32(a, Len32(b) + tail);
    ReadNext(Counted(4), [Counted(4)] + ks, Len32(a), Len32(b) + tail, Blob(a), [Blob(b)] + vs, end);
    ReadByte(o, Len32(a) + (Len32(b) + tail));
    ReadNext(Integer(1), [Counted(4)] + ([Counted(4)] + ks), [o], Len32(a) + (Len32(b) + tail),
             Number(o), [Blob(a)] + ([Blob(b)] + vs), end);
    ThreeFields(Integer(1), Counted(4), Counted(4), ks, Number(o), Blob(a), Blob(b), vs);
  }

  lemma ReadRow(row: Row, rest: seq<byte>)
    requires Encodable(row)
    ensures ReadAll(ROW, EntryBytes(row) + rest) == Some((RowValues(row), rest))
  {
    EntryRest(row, rest);
    var c := row.candidate;
    var tail := OptText(c.remoteMtime) + (OptSize(c.size) + rest);
    var ks, vs := [Maybe(Counted(4)), Maybe(Integer(8))], [TextValue(c.remoteMtime), SizeValue(c.size)];
    ReadTimeAndSize(c.remoteMtime, c.size, rest);
    ReadSenderAndType(c.sender, c.itemType, tail, ks, vs, rest);
    ReadRowFront(Ordinal(c.service).value, row.id, c.name, OptText(c.sender) + (Len32(c.itemType) + tail),
                 [Maybe(Counted(4)), Counted(4)] + ks, [TextValue(c.sender), Blob(c.itemType)] + vs, rest);
  }

  function Each<T>(values: T -> seq<Value>, xs: seq<T>): seq<seq<Value>> {
    seq(|xs|, i requires 0 <= i < |xs| => values(xs[i]))
  }

  lemma EachNext<T>(values: T -> seq<Value>, xs: seq<T>)
    requires xs != []
    ensures Each(values, xs) == [values(xs[0])] + Each(values, xs[1..])
  {
  }

  /** Records that can each be read in front of anything are read one after another. */
  lemma {:induction false} ReadRecords<T(!new)>(g: T -> seq<byte>, ok: T -> bool, values: T -> seq<Value>,
                                                ks: seq<Kind>, xs: seq<T>)
    requires forall x, rest :: ok(x) ==> ReadAll(ks, g(x) + rest) == Some((values(x), rest))
    requires forall i :: 0 <= i < |xs| ==> ok(xs[i])
    ensures ReadRows(|xs|, ks, Concat(g, xs)) == Some((Each(values, xs), []))
    decreases |xs|
  {
    if xs == [] {
      assert Each(values, xs) == [];
    } else {
      ConcatFirst(g, xs);
      EachNext(values, xs);
      ReadRecords(g, ok, values, ks, xs[1..]);
    }
  }

  /** A page is its domain and the number of candidates, then each candidate in turn. */
  lemma PageLayout(rows: seq<Row>)
    requires PageOk(rows)
    ensures ReadAll([Raw(|PageDomain()|), Integer(4)], PagePreimage(rows))
         == Some(([Blob(PageDomain()), Number(|rows|)], Concat(EntryBytes, rows)))
    ensures ReadRows(|rows|, ROW, Concat(EntryBytes, rows)) == Some((Each(RowValues, rows), []))
  {
    forall row, rest | Encodable(row) ensures ReadAll(ROW, EntryBytes(row) + rest) == Some((RowValues(row), rest)) {
      ReadRow(row, rest);
    }
    ReadRecords(EntryBytes, Encodable, RowValues, ROW, rows);
    ReadPageHead(PageDomain(), |rows|, Concat(EntryBytes, rows));
  }

  lemma ReadPageHead(d: Text, n: u32, rest: seq<byte>)
    ensures ReadAll([Raw(|d|), Integer(4)], d + (U32(n) + rest)) == Some(([Blob(d), Number(n)], rest))
  {
    IntegerBytes(0, n, 0);
    ReadInteger(U32(n), rest);
    ReadNext(Integer(4), [], U32(n), rest, Number(n), [], rest);
    ReadRaw(d, U32(n) + rest);
    ReadNext(Raw(|d|), [Integer(4)] + [], d, U32(n) + rest, Blob(d), [Number(n)] + [], rest);
    assert [Raw(|d|)] + ([Integer(4)] + []) == [Raw(|d|), Integer(4)];
    assert [Blob(d)] + ([Number(n)] + []) == [Blob(d), Number(n)];
  }

  // ----- The pairing AAD and the binding item -----

  /** The AAD is its domain, the pair id and the expiry. */
  lemma AadLayout(pairId: Text, expiresMs: u64)
    requires |pairId| < 0x1_0000_0000
    ensures var d := PairingDescriptor.AadDomain();
            ReadAll([Raw(|d|)] + ([Counted(4)] + [Integer(8)]), PairingDescriptor.Aad(pairId, expiresMs))
            == Some(([Blob(d)] + ([Blob(pairId)] + [Number(expiresMs)]), []))
  {
    ReadIdAndExpiry(PairingDescriptor.AadDomain(), pairId, expiresMs);
    AadParts(PairingDescriptor.AadDomain(), pairId, U64(expiresMs));
  }

  lemma AadParts(d: Text, pairId: Text, e: seq<byte>)
    requires |pairId| < 0x1_0000_0000
    ensures d + U32(|pairId| % 0x1_0000_0000) + pairId + e == d + (U32Len(pairId).value + e)
  {
    FourParts(d, U32(|pairId|), pairId, e);
  }

  lemma ReadIdAndExpiry(d: Text, pairId: Text, expiresMs: u64)
    requires |pairId| < 0x1_0000_0000
    ensures ReadAll([Raw(|d|)] + ([Counted(4)] + [Integer(8)]), d + (U32Len(pairId).value + U64(expiresMs)))
         == Some(([Blob(d)] + ([Blob(pairId)] + [Number(expiresMs)]), []))
  {
    var e := U64(expiresMs);
    IntegerBytes(0, 0, expiresMs);
    ReadInteger(e, []);
    ReadLast(Integer(8), e, Number(expiresMs));
    ReadLen32(pairId, e);
    ReadNext(Counted(4), [Integer(8)], U32Len(pairId).value, e, Blob(pairId), [Number(expiresMs)], []);
    ReadDomain(d, U32Len(pairId).value + e, [Counted(4)] + [Integer(8)], [Blob(pairId)] + [Number(expiresMs)]);
  }

  lemma FourParts(a: seq<byte>, b: seq<byte>, c: seq<byte>, d: seq<byte>)
    ensures a + b + c + d == a + ((b + c) + d)
  {
  }

  /** The binding item begins with the counted pending id and ends with the counted hash,
      and there is nothing between. */
  lemma BindingItemLayout(pendingId: Text, actionHash: Text)
    ensures var item := BindingItem(pendingId, actionHash);
            var front := Ascii("pending:") + Digits(|pendingId|) + Ascii(":") + pendingId;
            var back := Ascii(":action_hash:") + Digits(|actionHash|) + Ascii(":") + actionHash;
            |item| == |front| + |back| && item[..|front|] == front && item[|front|..] == back
  {
    var item := BindingItem(pendingId, actionHash);
    assert Ascii(":") == [COLON];
    ItemParts(Ascii("pending:"), Digits(|pendingId|), Ascii(":"), pendingId,
              Ascii(":action_hash:"), Digits(|actionHash|), actionHash);
  }

  lemma ItemParts(a: Text, n: Text, c: Text, t: Text, b: Text, m: Text, u: Text)
    ensures a + ((n + (c + t)) + (b + (m + (c + u)))) == (a + n + c + t) + (b + m + c + u)
  {
  }

  // ----- The continuation payload -----

  const QUOTE: byte := 34
  const COMMA: byte := 44

  type Named = (Text, WireText.Field)

  function Quotes(f: WireText.Field): Text {
    if f.Name? then [QUOTE] else []
  }

  /** `"name":value`, text values in quotes. */
  function MemberText(m: Named): Text {
    [QUOTE] + m.0 + [QUOTE, COLON] + (Quotes(m.1) + (WireText.RenderField(m.1) + Quotes(m.1)))
  }

  function MemberTexts(ms: seq<Named>): seq<Text> {
    if ms == [] then [] else [MemberText(ms[0])] + MemberTexts(ms[1..])
  }

  /** An object as it is printed without white space. */
  function ObjectText(ms: seq<Named>): Text
    requires ms != []
  {
    [123] + Join(MemberTexts(ms), COMMA) + [125]
  }

  /** What the print of a layout has between two values. */
  function LeadOf(before: Text, open: byte, m: Named): Text {
    before + ([open, QUOTE] + m.0 + [QUOTE, COLON] + Quotes(m.1))
  }

  function FieldsIn(ms: seq<Named>): seq<WireText.Field> {
    if ms == [] then [] else [ms[0].1] + FieldsIn(ms[1..])
  }

  predicate LeadsAre(slots: seq<WireText.Slot>, before: Text, open: byte, ms: seq<Named>)
    decreases |ms|
  {
    if ms == [] then slots == [] && before == []
    else
      && slots != [] && slots[0].lead == LeadOf(before, open, ms[0])
      && LeadsAre(slots[1..], Quotes(ms[0].1), COMMA, ms[1..])
  }

  lemma LeadsNext(slot: WireText.Slot, slots: seq<WireText.Slot>, before: Text, open: byte, m: Named, ms: seq<Named>)
    requires slot.lead == LeadOf(before, open, m) && LeadsAre(slots, Quotes(m.1), COMMA, ms)
    ensures LeadsAre([slot] + slots, before, open, [m] + ms)
  {
    assert ([slot] + slots)[1..] == slots && ([m] + ms)[1..] == ms;
  }

  lemma {:induction false} LeadsLengths(slots: seq<WireText.Slot>, before: Text, open: byte, ms: seq<Named>)
    requires LeadsAre(slots, before, open, ms)
    ensures |slots| == |ms| == |FieldsIn(ms)| == |MemberTexts(ms)|
    decreases |ms|
  {
    if ms != [] {
      LeadsLengths(slots[1..], Quotes(ms[0].1), COMMA, ms[1..]);
    }
  }

  /** A layout with the leads of an object prints that object. */
  lemma {:induction false} RenderObject(slots: seq<WireText.Slot>, before: Text, open: byte, ms: seq<Named>)
    requires LeadsAre(slots, before, open, ms) && |slots| == |FieldsIn(ms)| && |MemberTexts(ms)| == |ms|
    ensures WireText.Render(slots, [125], FieldsIn(ms))
            == if ms == [] then [125] else before + ([open] + Join(MemberTexts(ms), COMMA) + [125])
    decreases |ms|
  {
    if ms != [] {
      var m, rest := ms[0], ms[1..];
      LeadsLengths(slots[1..], Quotes(m.1), COMMA, rest);
      RenderObject(slots[1..], Quotes(m.1), COMMA, rest);
      assert FieldsIn(ms)[1..] == FieldsIn(rest) && FieldsIn(ms)[0] == m.1;
      assert MemberTexts(ms)[1..] == MemberTexts(rest) && MemberTexts(ms)[0] == MemberText(m);
      ObjectStep(before, open, m, rest);
    }
  }

  lemma ObjectStep(before: Text, open: byte, m: Named, rest: seq<Named>)
    requires |MemberTexts(rest)| == |rest| && (rest == [] ==> Quotes(m.1) == [])
    ensures var tail := if rest == [] then [125] else Quotes(m.1) + ([COMMA] + Join(MemberTexts(rest), COMMA) + [125]);
            LeadOf(before, open, m) + (WireText.RenderField(m.1) + tail)
            == before + ([open] + Join([MemberText(m)] + MemberTexts(rest), COMMA) + [125])
  {
    var after := if rest == [] then [125] else [COMMA] + Join(MemberTexts(rest), COMMA) + [125];
    var parts := [MemberText(m)] + MemberTexts(rest);
    assert parts[1..] == MemberTexts(rest);
    assert Join(parts, COMMA) + [125] == MemberText(m) + after;
    StepParts(before, open, m.0, Quotes(m.1), WireText.RenderField(m.1), after);
    assert rest == [] ==> Quotes(m.1) + after == after;
    assert [open] + Join(parts, COMMA) + [125] == [open] + (MemberText(m) + after);
  }

  lemma StepParts(before: Text, open: byte, name: Text, q: Text, v: Text, after: Text)
    ensures (before + ([open, QUOTE] + name + [QUOTE, COLON] + q)) + (v + (q + after))
            == before + ([open] + (([QUOTE] + name + [QUOTE, COLON] + (q + (v + q))) + after))
  {
  }

  lemma FirstLeads(f: WireText.Field, t: Text, u: Text, h: WireText.Field)
    requires f.Number? && h.Number?
    ensures Ascii("{\"v\":") == LeadOf([], 123, (Ascii("v"), f))
    ensures Ascii(",\"a\":\"") == LeadOf([], COMMA, (Ascii("a"), WireText.Name(t)))
    ensures Ascii("\",\"sc\":\"") == LeadOf([QUOTE], COMMA, (Ascii("sc"), WireText.Name(u)))
    ensures Ascii("\",\"si\":") == LeadOf([QUOTE], COMMA, (Ascii("si"), h))
  {
  }

  lemma MiddleLeads(f: WireText.Field)
    requires f.Number?
    ensures Ascii(",\"so\":") == LeadOf([], COMMA, (Ascii("so"), f))
    ensures Ascii(",\"p\":") == LeadOf([], COMMA, (Ascii("p"), f))
    ensures Ascii(",\"ms\":") == LeadOf([], COMMA, (Ascii("ms"), f))
    ensures Ascii(",\"br\":") == LeadOf([], COMMA, (Ascii("br"), f))
  {
  }

  lemma LastLeads(t: Text, f: WireText.Field)
    requires f.Number?
    ensures Ascii(",\"cd\":\"") == LeadOf([], COMMA, (Ascii("cd"), WireText.Name(t)))
    ensures Ascii("\",\"ps\":") == LeadOf([QUOTE], COMMA, (Ascii("ps"), f))
  {
  }

  function BackMembers(cd: Text, ps: nat): seq<Named> {
    [(Ascii("cd"), WireText.Name(cd)), (Ascii("ps"), WireText.Number(ps))]
  }

  function MiddleMembers(so: nat, page: nat, scanned: nat, bodies: nat): seq<Named> {
    [(Ascii("so"), WireText.Number(so)), (Ascii("p"), WireText.Number(page)),
     (Ascii("ms"), WireText.Number(scanned)), (Ascii("br"), WireText.Number(bodies))]
  }

  function FrontMembers(v: nat, a: Text, sc: Text, si: nat): seq<Named> {
    [(Ascii("v"), WireText.Number(v)), (Ascii("a"), WireText.Name(a)),
     (Ascii("sc"), WireText.Name(sc)), (Ascii("si"), WireText.Number(si))]
  }

  lemma BackFits(cd: Text, ps: nat)
    ensures LeadsAre(Continuation.SLOTS[8..], [], COMMA, BackMembers(cd, ps))
  {
    var ms, slots := BackMembers(cd, ps), Continuation.SLOTS;
    LastLeads(cd, ms[1].1);
    LeadsNext(slots[9], [], [QUOTE], COMMA, ms[1], []);
    LeadsNext(slots[8], [slots[9]] + [], [], COMMA, ms[0], [ms[1]] + []);
    assert slots[8..] == [slots[8]] + ([slots[9]] + []);
    assert ms == [ms[0]] + ([ms[1]] + []);
  }

  /** Members that are all numbers, behind one another. */
  lemma {:induction false} NumbersFit(slots: seq<WireText.Slot>, ms: seq<Named>, slotsAfter: seq<WireText.Slot>, after: seq<Named>)
    requires |slots| == |ms|
    requires forall i :: 0 <= i < |ms| ==> ms[i].1.Number? && slots[i].lead == LeadOf([], COMMA, ms[i])
    requires LeadsAre(slotsAfter, [], COMMA, after)
    ensures LeadsAre(slots + slotsAfter, [], COMMA, ms + after)
  {
    if ms == [] {
      assert slots + slotsAfter == slotsAfter && ms + after == after;
    } else {
      NumbersFit(slots[1..], ms[1..], slotsAfter, after);
      LeadsNext(slots[0], slots[1..] + slotsAfter, [], COMMA, ms[0], ms[1..] + after);
      assert slots + slotsAfter == [slots[0]] + (slots[1..] + slotsAfter);
      assert ms + after == [ms[0]] + (ms[1..] + after);
    }
  }

  lemma MiddleFits(so: nat, page: nat, scanned: nat, bodies: nat, after: seq<Named>)
    requires LeadsAre(Continuation.SLOTS[8..], [], COMMA, after)
    ensures LeadsAre(Continuation.SLOTS[4..], [], COMMA, MiddleMembers(so, page, scanned, bodies) + after)
  {
    var slots := Continuation.SLOTS;
    MiddleLeads(WireText.Number(so));
    MiddleLeads(WireText.Number(page));
    MiddleLeads(WireText.Number(scanned));
    MiddleLeads(WireText.Number(bodies));
    NumbersFit(slots[4..8], MiddleMembers(so, page, scanned, bodies), slots[8..], after);
    assert slots[4..8] + slots[8..] == slots[4..];
  }

  lemma FourFit(s0: WireText.Slot, s1: WireText.Slot, s2: WireText.Slot, s3: WireText.Slot, slots: seq<WireText.Slot>,
                m0: Named, m1: Named, m2: Named, m3: Named, ms: seq<Named>)
    requires s0.lead == LeadOf([], 123, m0) && s1.lead == LeadOf(Quotes(m0.1), COMMA, m1)
    requires s2.lead == LeadOf(Quotes(m1.1), COMMA, m2) && s3.lead == LeadOf(Quotes(m2.1), COMMA, m3)
    requires LeadsAre(slots, Quotes(m3.1), COMMA, ms)
    ensures LeadsAre([s0, s1, s2, s3] + slots, [], 123, [m0, m1, m2, m3] + ms)
  {
    LeadsNext(s3, slots, Quotes(m2.1), COMMA, m3, ms);
    LeadsNext(s2, [s3] + slots, Quotes(m1.1), COMMA, m2, [m3] + ms);
    LeadsNext(s1, [s2] + ([s3] + slots), Quotes(m0.1), COMMA, m1, [m2] + ([m3] + ms));
    LeadsNext(s0, [s1] + ([s2] + ([s3] + slots)), [], 123, m0, [m1] + ([m2] + ([m3] + ms)));
    assert [s0, s1, s2, s3] + slots == [s0] + ([s1] + ([s2] + ([s3] + slots)));
    assert [m0, m1, m2, m3] + ms == [m0] + ([m1] + ([m2] + ([m3] + ms)));
  }

  lemma FrontFits(v: nat, a: Text, sc: Text, si: nat, after: seq<Named>)
    requires LeadsAre(Continuation.SLOTS[4..], [], COMMA, after)
    ensures LeadsAre(Continuation.SLOTS, [], 123, FrontMembers(v, a, sc, si) + after)
  {
    var ms, slots := FrontMembers(v, a, sc, si), Continuation.SLOTS;
    FirstLeads(ms[0].1, a, sc, ms[3].1);
    FourFit(slots[0], slots[1], slots[2], slots[3], slots[4..], ms[0], ms[1], ms[2], ms[3], after);
    assert slots == [slots[0], slots[1], slots[2], slots[3]] + slots[4..];
  }

  lemma {:induction false} FieldsInAt(ms: seq<Named>)
    ensures |FieldsIn(ms)| == |ms| && forall i :: 0 <= i < |ms| ==> FieldsIn(ms)[i] == ms[i].1
  {
    if ms != [] {
      FieldsInAt(ms[1..]);
    }
  }

  /** Version, activity, scope digest, service index; offset, page, scanned, body reads;
      page digest, provider step. */
  function PayloadMembers(st: Continuation.State): (ms: seq<Named>)
    ensures |ms| == 10
  {
    FrontMembers(1, st.activityId, Base64Url.Encode(st.scopeDigest), st.serviceIndex)
    + (MiddleMembers(st.serviceOffset, st.page, st.metadataScanned, st.bodyReads)
       + BackMembers(Base64Url.Encode(st.pageDigest), st.providerStep))
  }

  lemma PayloadFields(st: Continuation.State)
    ensures FieldsIn(PayloadMembers(st)) == Continuation.FieldsOf(Continuation.ToWire(st))
  {
    FieldsInAt(PayloadMembers(st));
  }

  lemma PayloadFits(st: Continuation.State)
    ensures LeadsAre(Continuation.SLOTS, [], 123, PayloadMembers(st))
  {
    var sc, cd := Base64Url.Encode(st.scopeDigest), Base64Url.Encode(st.pageDigest);
    var back := BackMembers(cd, st.providerStep);
    BackFits(cd, st.providerStep);
    MiddleFits(st.serviceOffset, st.page, st.metadataScanned, st.bodyReads, back);
    FrontFits(1, st.activityId, sc, st.serviceIndex,
              MiddleMembers(st.serviceOffset, st.page, st.metadataScanned, st.bodyReads) + back);
  }

  lemma RenderWhole(slots: seq<WireText.Slot>, ms: seq<Named>, fields: seq<WireText.Field>)
    requires ms != [] && LeadsAre(slots, [], 123, ms) && FieldsIn(ms) == fields && |slots| == |fields|
    ensures WireText.Render(slots, [125], fields) == ObjectText(ms)
  {
    LeadsLengths(slots, [], 123, ms);
    RenderObject(slots, [], 123, ms);
  }

  /** The payload is the JSON object, without white space, of these ten members. */
  lemma PayloadLayout(st: Continuation.State)
    ensures Continuation.PrintState(st) == ObjectText(PayloadMembers(st))
  {
    PayloadFits(st);
    PayloadFields(st);
    RenderWhole(Continuation.SLOTS, PayloadMembers(st), Continuation.FieldsOf(Continuation.ToWire(st)));
  }

  /** A sealed token is the payload object and, behind a dot, the MAC of the continuation
      input, both in base64url. */
  lemma TokenLayout(mac: Continuation.Mac, act: Continuation.Binding, st: Continuation.State)
    requires Continuation.Seal(mac, act, st).Ok?
    ensures var parts, payload := Split(Continuation.Seal(mac, act, st).value, Continuation.DOT), ObjectText(PayloadMembers(st));
            && |parts| == 2 && Base64Url.Decode(parts[0]) == Some(payload)
            && ContinuationInput(act, payload).Some?
            && Base64Url.Decode(parts[1]) == Some(mac(ContinuationInput(act, payload).value))
  {
    PayloadLayout(st);
    var payload := Continuation.PrintState(st);
    TokenParts(payload, mac(Continuation.Domain() + Continuation.Message(act, payload).value));
  }

  lemma TokenParts(payload: Text, tag: Digest)
    ensures var parts := Split(Continuation.Token(payload, tag), Continuation.DOT);
            && |parts| == 2 && Base64Url.Decode(parts[0]) == Some(payload) && Base64Url.Decode(parts[1]) == Some(tag)
  {
    Base64Url.EncodeLength(payload);
    Base64Url.EncodeLength(tag);
    Continuation.SplitTwo(Base64Url.Encode(payload), Base64Url.Encode(tag));
    Base64Url.DecodeEncode(payload);
    Base64Url.DecodeEncode(tag);
  }
}
