/** The byte strings fed to the MACs and digests determine their fields: no two
    different bindings share an input. */
module MacInputs {
  import opened Bytes
  import opened Decimal
  import opened SearchScope
  import Continuation
  import PairingDescriptor

  // ----- The three MAC inputs of the progressive search -----

  function ActivityDomain(): Text {
    Ascii("isyncyou-progressive-search-activity/v1")
  }

  function CandidateDomain(): Text {
    Ascii("isyncyou-progressive-search-candidate/v1")
  }

  /** `activity_id` */
  function ActivityInput(toolUseId: Text): Option<seq<byte>> {
    if !(0 < |toolUseId| <= 128) then None else Some(ActivityDomain() + U32Len(toolUseId).value)
  }

  /** `seal_continuation` and `open_continuation` */
  function ContinuationInput(act: Continuation.Binding, payload: Text): Option<seq<byte>> {
    var m := Continuation.Message(act, payload);
    if m.None? then None else Some(Continuation.Domain() + m.value)
  }

  /** `candidate_key` */
  function CandidateInput(st: Continuation.State, service: Text, itemId: Text): Option<seq<byte>> {
    if service !in SERVICES || !(0 < |itemId| <= 512) || U32Len(st.activityId).None? then None
    else
      Some(CandidateDomain()
           + (U32Len(st.activityId).value + (U32Len(st.scopeDigest).value + (U16(st.page)
           + (U32Len(st.pageDigest).value + (U32Len(service).value + U32Len(itemId).value))))))
  }

  lemma ActivityInputInjective(x: Text, y: Text)
    requires ActivityInput(x).Some? && ActivityInput(x) == ActivityInput(y)
    ensures x == y
  {
    var a, b := U32Len(x).value, U32Len(y).value;
    Cancel(ActivityDomain(), ActivityDomain(), a, b);
    assert a == a + [] && b == b + [];
    U32LenCancel(x, y, [], []);
  }

  lemma MessageInjective(a: Continuation.Binding, b: Continuation.Binding, p: Text, q: Text)
    requires Continuation.Message(a, p).Some? && Continuation.Message(a, p) == Continuation.Message(b, q)
    ensures a == b && p == q
  {
    var x4, y4 := a.scopeDigest + U16Len(p).value, b.scopeDigest + U16Len(q).value;
    var x3, y3 := U16Len(a.toolUseId).value + x4, U16Len(b.toolUseId).value + y4;
    var x2, y2 := U16Len(a.activityId).value + x3, U16Len(b.activityId).value + y3;
    var x1, y1 := U16Len(a.requestId).value + x2, U16Len(b.requestId).value + y2;
    U16LenCancel(a.sessionId, b.sessionId, x1, y1);
    U16LenCancel(a.requestId, b.requestId, x2, y2);
    U16LenCancel(a.activityId, b.activityId, x3, y3);
    U16LenCancel(a.toolUseId, b.toolUseId, x4, y4);
    Cancel(a.scopeDigest, b.scopeDigest, U16Len(p).value, U16Len(q).value);
    assert U16Len(p).value + [] == U16Len(q).value + [];
    U16LenCancel(p, q, [], []);
  }

  lemma ContinuationInputInjective(a: Continuation.Binding, b: Continuation.Binding, p: Text, q: Text)
    requires ContinuationInput(a, p).Some? && ContinuationInput(a, p) == ContinuationInput(b, q)
    ensures a == b && p == q
  {
    Cancel(Continuation.Domain(), Continuation.Domain(),
           Continuation.Message(a, p).value, Continuation.Message(b, q).value);
    MessageInjective(a, b, p, q);
  }

  lemma CandidateInputInjective(s: Continuation.State, t: Continuation.State, v: Text, w: Text, i: Text, j: Text)
    requires CandidateInput(s, v, i).Some? && CandidateInput(s, v, i) == CandidateInput(t, w, j)
    ensures s.activityId == t.activityId && s.scopeDigest == t.scopeDigest && s.page == t.page
    ensures s.pageDigest == t.pageDigest && v == w && i == j
  {
    var x5, y5 := U32Len(i).value, U32Len(j).value;
    var x4, y4 := U32Len(v).value + x5, U32Len(w).value + y5;
    var x3, y3 := U32Len(s.pageDigest).value + x4, U32Len(t.pageDigest).value + y4;
    var x2, y2 := U16(s.page) + x3, U16(t.page) + y3;
    var x1, y1 := U32Len(s.scopeDigest).value + x2, U32Len(t.scopeDigest).value + y2;
    Cancel(CandidateDomain(), CandidateDomain(), U32Len(s.activityId).value + x1, U32Len(t.activityId).value + y1);
    U32LenCancel(s.activityId, t.activityId, x1, y1);
    U32LenCancel(s.scopeDigest, t.scopeDigest, x2, y2);
    Cancel(U16(s.page), U16(t.page), x3, y3);
    U16Injective(s.page, t.page);
    U32LenCancel(s.pageDigest, t.pageDigest, x4, y4);
    U32LenCancel(v, w, x5, y5);
    assert x5 + [] == y5 + [];
    U32LenCancel(i, j, [], []);
  }

  /** The three domain prefixes differ where they stop agreeing, so inputs of different
      kinds are never equal. */
  lemma DomainsSeparate(a: seq<byte>, c: seq<byte>, k: seq<byte>)
    ensures ActivityDomain() + a != Continuation.Domain() + c
    ensures ActivityDomain() + a != CandidateDomain() + k
    ensures Continuation.Domain() + c != CandidateDomain() + k
  {
    assert (ActivityDomain() + a)[28] == 'a' as int;
    assert (Continuation.Domain() + c)[28] == 'c' as int && (Continuation.Domain() + c)[29] == 'o' as int;
    assert (CandidateDomain() + k)[28] == 'c' as int && (CandidateDomain() + k)[29] == 'a' as int;
  }

  // ----- The pairing AAD -----

  /** Injective for all ids, although the length field is truncated to 32 bits: the
      total length gives the rest away. */
  lemma AadInjective(p: Text, q: Text, m: u64, n: u64)
    requires PairingDescriptor.Aad(p, m) == PairingDescriptor.Aad(q, n)
    ensures p == q && m == n
  {
    var d := PairingDescriptor.AadDomain();
    var hp, hq := d + U32(|p| % 0x1_0000_0000), d + U32(|q| % 0x1_0000_0000);
    assert |PairingDescriptor.Aad(p, m)| == |d| + 12 + |p|;
    assert |PairingDescriptor.Aad(q, n)| == |d| + 12 + |q|;
    Cancel(hp + p, hq + q, U64(m), U64(n));
    Cancel(hp, hq, p, q);
    U64Injective(m, n);
  }

  // ----- The candidate page -----

  datatype Candidate = Candidate(
    candidateKey: Text, service: Text, name: Text, sender: Option<Text>, itemType: Text,
    remoteMtime: Option<Text>, size: Option<u64>)

  predicate Fits32(t: Text) {
    |t| < 0x1_0000_0000
  }

  /** A candidate with its authoritative item id. */
  datatype Row = Row(candidate: Candidate, id: Text)

  predicate Encodable(row: Row) {
    var c := row.candidate;
    && c.service in SERVICES && Fits32(row.id) && Fits32(c.name) && Fits32(c.itemType)
    && (c.sender.Some? ==> Fits32(c.sender.value))
    && (c.remoteMtime.Some? ==> Fits32(c.remoteMtime.value))
  }

  function Len32(t: Text): seq<byte>
    requires Fits32(t)
  {
    U32Len(t).value
  }

  function OptText(t: Option<Text>): seq<byte>
    requires t.Some? ==> Fits32(t.value)
  {
    if t.Some? then [1] + Len32(t.value) else [0]
  }

  function OptSize(v: Option<u64>): seq<byte> {
    if v.Some? then [1] + U64(v.value) else [0]
  }

  /** One candidate, in front of whatever follows. */
  function Entry(row: Row, rest: seq<byte>): seq<byte>
    requires Encodable(row)
  {
    var c := row.candidate;
    [Ordinal(c.service).value] + (Len32(row.id) + (Len32(c.name) + (OptText(c.sender)
    + (Len32(c.itemType) + (OptText(c.remoteMtime) + (OptSize(c.size) + rest))))))
  }

  function EntryBytes(row: Row): seq<byte> {
    if Encodable(row) then Entry(row, []) else []
  }

  function Rows(cs: seq<Candidate>, ids: seq<Text>): (rows: seq<Row>)
    requires |cs| == |ids|
    ensures |rows| == |cs|
  {
    seq(|cs|, i requires 0 <= i < |cs| => Row(cs[i], ids[i]))
  }

  predicate PageOk(rows: seq<Row>) {
    |rows| <= 64 && forall i :: 0 <= i < |rows| ==> Encodable(rows[i])
  }

  function PageDomain(): Text {
    Ascii("isyncyou-progressive-search-") + Ascii("candidate-page/v1")
  }

  function PagePreimage(rows: seq<Row>): seq<byte>
    requires PageOk(rows)
  {
    PageDomain() + (U32(|rows|) + Concat(EntryBytes, rows))
  }

  /** The loop that appends piece after piece, up to the first that is refused. */
  method WriteAll<T>(g: T -> seq<byte>, accepts: T -> bool, xs: seq<T>) returns (bytes: seq<byte>, ok: bool)
    ensures ok <==> forall i :: 0 <= i < |xs| ==> accepts(xs[i])
    ensures ok ==> bytes == Concat(g, xs)
  {
    bytes := [];
    for i := 0 to |xs|
      invariant forall k :: 0 <= k < i ==> accepts(xs[k])
      invariant bytes == Concat(g, xs[..i])
    {
      if !accepts(xs[i]) {
        return bytes, false;
      }
      ConcatNext(g, xs, i);
      bytes := bytes + g(xs[i]);
    }
    assert xs[..|xs|] == xs;
    ok := true;
  }

  /** The candidates, up to the first with an unknown service or an overlong field. */
  method WriteRows(rows: seq<Row>) returns (bytes: seq<byte>, ok: bool)
    ensures ok <==> forall i :: 0 <= i < |rows| ==> Encodable(rows[i])
    ensures ok ==> bytes == Concat(EntryBytes, rows)
  {
    bytes, ok := WriteAll(EntryBytes, Encodable, rows);
  }

  /** The bytes `candidate_page_digest` hashes; it refuses pages of unequal or excessive
      length. */
  method WritePage(cs: seq<Candidate>, ids: seq<Text>) returns (r: Option<seq<byte>>)
    ensures r.Some? <==> |cs| == |ids| && PageOk(Rows(cs, ids))
    ensures r.Some? ==> r.value == PagePreimage(Rows(cs, ids))
  {
    if |cs| != |ids| || |cs| > 64 {
      return None;
    }
    var bytes, ok := WriteRows(Rows(cs, ids));
    if !ok {
      return None;
    }
    r := Some(PageDomain() + (U32(|cs|) + bytes));
  }

  // ----- Concatenations of self-delimiting pieces -----

  function Concat<T>(g: T -> seq<byte>, xs: seq<T>): seq<byte> {
    if xs == [] then [] else Concat(g, xs[..|xs| - 1]) + g(xs[|xs| - 1])
  }

  lemma ConcatNext<T>(g: T -> seq<byte>, xs: seq<T>, i: nat)
    requires i < |xs|
    ensures Concat(g, xs[..i + 1]) == Concat(g, xs[..i]) + g(xs[i])
  {
    assert xs[..i + 1][..i] == xs[..i];
  }

  lemma {:induction false} ConcatFirst<T>(g: T -> seq<byte>, xs: seq<T>)
    requires xs != []
    ensures Concat(g, xs) == g(xs[0]) + Concat(g, xs[1..])
    decreases |xs|
  {
    if |xs| == 1 {
      assert xs[..0] == [] && xs[1..] == [];
      assert [] + g(xs[0]) == g(xs[0]) + [];
    } else {
      var front, last := xs[..|xs| - 1], xs[|xs| - 1];
      ConcatFirst(g, front);
      assert front[1..] == xs[1..][..|xs| - 2];
      assert g(xs[0]) + Concat(g, front[1..]) + g(last) == g(xs[0]) + (Concat(g, front[1..]) + g(last));
    }
  }

  /** Accepted pieces can be cut off the front in only one way, up to `same`. */
  ghost predicate SelfDelimiting<T(!new)>(g: T -> seq<byte>, ok: T -> bool, same: (T, T) -> bool) {
    forall x, y, r, s :: ok(x) && ok(y) && g(x) + r == g(y) + s ==> same(x, y) && r == s
  }

  lemma {:induction false} ConcatInjective<T(!new)>(
    g: T -> seq<byte>, ok: T -> bool, same: (T, T) -> bool, xs: seq<T>, ys: seq<T>)
    requires SelfDelimiting(g, ok, same) && |xs| == |ys|
    requires forall k :: 0 <= k < |xs| ==> ok(xs[k]) && ok(ys[k])
    requires Concat(g, xs) == Concat(g, ys)
    ensures forall k :: 0 <= k < |xs| ==> same(xs[k], ys[k])
    decreases |xs|
  {
    if xs == [] {
    } else {
      ConcatFirst(g, xs);
      ConcatFirst(g, ys);
      ConcatInjective(g, ok, same, xs[1..], ys[1..]);
      forall k | 0 <= k < |xs| ensures same(xs[k], ys[k]) {
        if k > 0 {
          assert same(xs[1..][k - 1], ys[1..][k - 1]);
        }
      }
    }
  }

  // ----- Injectivity of the page -----

  /** Everything the page binds: the id and all but the candidate key. */
  predicate SameRow(x: Row, y: Row) {
    x.id == y.id && x.candidate.(candidateKey := []) == y.candidate.(candidateKey := [])
  }

  lemma EntryRest(row: Row, s: seq<byte>)
    requires Encodable(row)
    ensures EntryBytes(row) + s == Entry(row, s)
  {
    var c := row.candidate;
    SevenParts([Ordinal(c.service).value], Len32(row.id), Len32(c.name), OptText(c.sender), Len32(c.itemType),
               OptText(c.remoteMtime), OptSize(c.size), s);
  }

  lemma SevenParts(o: seq<byte>, a: seq<byte>, b: seq<byte>, d: seq<byte>, e: seq<byte>, f: seq<byte>,
                   g: seq<byte>, s: seq<byte>)
    ensures o + (a + (b + (d + (e + (f + (g + [])))))) + s == o + (a + (b + (d + (e + (f + (g + s))))))
  {
  }

  lemma SomeTextCancel(x: Text, y: Text, r: seq<byte>, s: seq<byte>)
    requires Fits32(x) && Fits32(y)
    requires [1] + Len32(x) + r == [1] + Len32(y) + s
    ensures x == y && r == s
  {
    var a, b := Len32(x), Len32(y);
    assert [1] + a + r == [1] + (a + r) && [1] + b + s == [1] + (b + s);
    Cancel([1], [1], a + r, b + s);
    U32LenCancel(x, y, r, s);
  }

  lemma OptTextCancel(x: Option<Text>, y: Option<Text>, r: seq<byte>, s: seq<byte>)
    requires (x.Some? ==> Fits32(x.value)) && (y.Some? ==> Fits32(y.value))
    requires OptText(x) + r == OptText(y) + s
    ensures x == y && r == s
  {
    assert OptText(x)[0] == (OptText(x) + r)[0] == (OptText(y) + s)[0] == OptText(y)[0];
    if x.Some? {
      SomeTextCancel(x.value, y.value, r, s);
    } else {
      Cancel([0], [0], r, s);
    }
  }

  lemma OptSizeCancel(x: Option<u64>, y: Option<u64>, r: seq<byte>, s: seq<byte>)
    requires OptSize(x) + r == OptSize(y) + s
    ensures x == y && r == s
  {
    assert (OptSize(x) + r)[0] == (OptSize(y) + s)[0];
    assert x.Some? <==> y.Some?;
    Cancel(OptSize(x), OptSize(y), r, s);
    if x.Some? {
      Cancel([1], [1], U64(x.value), U64(y.value));
      U64Injective(x.value, y.value);
    }
  }

  lemma EntryCancel(x: Row, y: Row, r: seq<byte>, s: seq<byte>)
    requires Encodable(x) && Encodable(y) && Entry(x, r) == Entry(y, s)
    ensures SameRow(x, y) && r == s
  {
    var c, d := x.candidate, y.candidate;
    var x6, y6 := OptSize(c.size) + r, OptSize(d.size) + s;
    var x5, y5 := OptText(c.remoteMtime) + x6, OptText(d.remoteMtime) + y6;
    var x4, y4 := Len32(c.itemType) + x5, Len32(d.itemType) + y5;
    var x3, y3 := OptText(c.sender) + x4, OptText(d.sender) + y4;
    var x2, y2 := Len32(c.name) + x3, Len32(d.name) + y3;
    var o, u := [Ordinal(c.service).value], [Ordinal(d.service).value];
    Cancel(o, u, Len32(x.id) + x2, Len32(y.id) + y2);
    assert o[0] == u[0];
    U32LenCancel(x.id, y.id, x2, y2);
    U32LenCancel(c.name, d.name, x3, y3);
    OptTextCancel(c.sender, d.sender, x4, y4);
    U32LenCancel(c.itemType, d.itemType, x5, y5);
    OptTextCancel(c.remoteMtime, d.remoteMtime, x6, y6);
    OptSizeCancel(c.size, d.size, r, s);
  }

  lemma EntriesSelfDelimiting()
    ensures SelfDelimiting(EntryBytes, Encodable, SameRow)
  {
    forall x, y, r, s | Encodable(x) && Encodable(y) && EntryBytes(x) + r == EntryBytes(y) + s
      ensures SameRow(x, y) && r == s
    {
      EntryRest(x, r);
      EntryRest(y, s);
      EntryCancel(x, y, r, s);
    }
  }

  /** The preimage of a page determines its size, its item ids and the metadata of every
      candidate, optional fields included. */
  lemma PageInjective(xs: seq<Row>, ys: seq<Row>)
    requires PageOk(xs) && PageOk(ys) && PagePreimage(xs) == PagePreimage(ys)
    ensures |xs| == |ys| && forall k :: 0 <= k < |xs| ==> SameRow(xs[k], ys[k])
  {
    var x, y := Concat(EntryBytes, xs), Concat(EntryBytes, ys);
    Cancel(PageDomain(), PageDomain(), U32(|xs|) + x, U32(|ys|) + y);
    Cancel(U32(|xs|), U32(|ys|), x, y);
    U32Injective(|xs|, |ys|);
    EntriesSelfDelimiting();
    ConcatInjective(EntryBytes, Encodable, SameRow, xs, ys);
  }

  // ----- The biometric binding item -----

  const COLON: byte := 58

  /** `pending:<length>:<id>:action_hash:<length>:<hash>` */
  function BindingItem(pendingId: Text, actionHash: Text): Text {
    Ascii("pending:") + (Counted(pendingId) + (Ascii(":action_hash:") + Counted(actionHash)))
  }

  function Counted(t: Text): Text {
    Digits(|t|) + ([COLON] + t)
  }

  /** A run of digits up to a colon can be read in only one way. */
  lemma {:induction false} DigitsCancel(a: Text, b: Text, r: Text, s: Text)
    requires AllDigits(a) && AllDigits(b) && a + ([COLON] + r) == b + ([COLON] + s)
    ensures a == b && r == s
  {
    var x, y := a + ([COLON] + r), b + ([COLON] + s);
    if a == [] || b == [] {
      assert x[0] == y[0];
      assert a == [] ==> x[0] == COLON;
      assert b == [] ==> y[0] == COLON;
      assert a == b;
      assert [] + ([COLON] + r) == [COLON] + r && [] + ([COLON] + s) == [COLON] + s;
      Cancel([COLON], [COLON], r, s);
    } else {
      assert x[0] == a[0] && y[0] == b[0];
      assert x[1..] == a[1..] + ([COLON] + r) && y[1..] == b[1..] + ([COLON] + s);
      DigitsCancel(a[1..], b[1..], r, s);
      assert a == [a[0]] + a[1..] && b == [b[0]] + b[1..];
    }
  }

  lemma CountedCancel(t: Text, u: Text, r: Text, s: Text)
    requires Counted(t) + r == Counted(u) + s
    ensures t == u && r == s
  {
    assert Counted(t) + r == Digits(|t|) + ([COLON] + (t + r));
    assert Counted(u) + s == Digits(|u|) + ([COLON] + (u + s));
    DigitsCancel(Digits(|t|), Digits(|u|), t + r, u + s);
    ValueOfDigits(|t|);
    ValueOfDigits(|u|);
    Cancel(t, u, r, s);
  }

  /** Different pending ids or action hashes never share a binding item, whatever
      characters they contain. */
  lemma BindingItemInjective(p: Text, q: Text, g: Text, h: Text)
    requires BindingItem(p, g) == BindingItem(q, h)
    ensures p == q && g == h
  {
    var m := Ascii(":action_hash:");
    Cancel(Ascii("pending:"), Ascii("pending:"), Counted(p) + (m + Counted(g)), Counted(q) + (m + Counted(h)));
    CountedCancel(p, q, m + Counted(g), m + Counted(h));
    Cancel(m, m, Counted(g), Counted(h));
    assert Counted(g) + [] == Counted(h) + [];
    CountedCancel(g, h, [], []);
  }
}
