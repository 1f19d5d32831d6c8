/** Search scopes: the canonical scope of the progressive search with its byte encoding,
    and the normalized scope of the archive. */
module SearchScope {
  import opened Bytes

  /** Both components list the same six services in the same order: mail, calendar,
      contacts, todo, onenote, onedrive. */
  const MAIL: Text := [109, 97, 105, 108]
  const CALENDAR: Text := [99, 97, 108, 101, 110, 100, 97, 114]
  const CONTACTS: Text := [99, 111, 110, 116, 97, 99, 116, 115]
  const TODO: Text := [116, 111, 100, 111]
  const ONENOTE: Text := [111, 110, 101, 110, 111, 116, 101]
  const ONEDRIVE: Text := [111, 110, 101, 100, 114, 105, 118, 101]
  const SERVICES: seq<Text> := [MAIL, CALENDAR, CONTACTS, TODO, ONENOTE, ONEDRIVE]

  /** `service_ordinal`: the position in the list. */
  function Ordinal(service: Text): (r: Option<byte>)
    ensures r.Some? <==> service in SERVICES
    ensures r.Some? ==> r.value < |SERVICES| && SERVICES[r.value] == service
  {
    PositionOf(SERVICES, service)
  }

  function PositionOf(all: seq<Text>, service: Text): (r: Option<byte>)
    requires |all| <= 6
    ensures r.Some? <==> service in all
    ensures r.Some? ==> r.value < |all| && all[r.value] == service
  {
    if all == [] then None
    else if all[0] == service then Some(0)
    else
      var rest := PositionOf(all[1..], service);
      if rest.None? then None else Some(rest.value + 1)
  }

  // ----- Which services a request selects -----

  /** Requested services, as the scopes understand the list: none means all. */
  function EffectiveSet(requested: seq<Text>): set<Text> {
    if requested == [] then set s | s in SERVICES else set s | s in requested
  }

  predicate ServicesOk(requested: seq<Text>) {
    forall i :: 0 <= i < |requested| ==> requested[i] in SERVICES
  }

  function Filter(all: seq<Text>, wanted: set<Text>): seq<Text> {
    if all == [] then []
    else
      var front := Filter(all[..|all| - 1], wanted);
      if all[|all| - 1] in wanted then front + [all[|all| - 1]] else front
  }

  function Selected(requested: seq<Text>): seq<Text> {
    Filter(SERVICES, EffectiveSet(requested))
  }

  predicate Distinct(xs: seq<Text>) {
    forall i, j :: 0 <= i < j < |xs| ==> xs[i] != xs[j]
  }

  lemma ServicesDistinct()
    ensures Distinct(SERVICES)
  {
  }

  lemma {:induction false} FilterShape(all: seq<Text>, wanted: set<Text>)
    requires Distinct(all)
    ensures Distinct(Filter(all, wanted))
    ensures forall s :: s in Filter(all, wanted) <==> s in all && s in wanted
  {
    if all == [] {
    } else {
      var front, last := all[..|all| - 1], all[|all| - 1];
      FilterShape(front, wanted);
      assert last !in front;
      assert all == front + [last];
    }
  }

  lemma {:induction false} DistinctCount(xs: seq<Text>)
    requires Distinct(xs)
    ensures |set s | s in xs| == |xs|
  {
    if xs == [] {
      assert (set s | s in xs) == {};
    } else {
      var front, last := xs[..|xs| - 1], xs[|xs| - 1];
      DistinctCount(front);
      assert xs == front + [last];
      assert (set s | s in xs) == (set s | s in front) + {last};
      assert last !in front;
    }
  }

  /** No service before one that comes earlier in the list. */
  predicate InOrderOf(all: seq<Text>, xs: seq<Text>)
    requires |all| <= 6
  {
    forall i, j :: 0 <= i < j < |xs| && xs[i] in all && xs[j] in all ==>
      PositionOf(all, xs[i]).value < PositionOf(all, xs[j]).value
  }

  lemma {:induction false} FilterOrder(all: seq<Text>, n: nat, wanted: set<Text>)
    requires n <= |all| <= 6 && Distinct(all)
    ensures InOrderOf(all, Filter(all[..n], wanted))
    ensures forall s :: s in Filter(all[..n], wanted) ==> s in all && PositionOf(all, s).value < n
  {
    if n == 0 {
    } else {
      assert all[..n][..n - 1] == all[..n - 1];
      FilterOrder(all, n - 1, wanted);
      assert PositionOf(all, all[n - 1]).value == n - 1;
    }
  }

  /** No list means all six; otherwise exactly the listed ones; always in list order. */
  lemma SelectionMeans(requested: seq<Text>)
    requires ServicesOk(requested)
    ensures requested == [] ==> Selected(requested) == [MAIL, CALENDAR, CONTACTS, TODO, ONENOTE, ONEDRIVE]
    ensures requested != [] ==> forall s :: s in Selected(requested) <==> s in requested
    ensures InOrderOf(SERVICES, Selected(requested))
  {
    ServicesDistinct();
    assert SERVICES[..|SERVICES|] == SERVICES;
    FilterOrder(SERVICES, |SERVICES|, EffectiveSet(requested));
    if requested == [] {
      FilterAll(SERVICES, EffectiveSet(requested));
    } else {
      FilterShape(SERVICES, EffectiveSet(requested));
    }
  }

  /** A list of known services selects exactly its set, each once. */
  lemma SelectedShape(requested: seq<Text>)
    requires ServicesOk(requested)
    ensures Distinct(Selected(requested))
    ensures (set s | s in Selected(requested)) == EffectiveSet(requested)
    ensures |Selected(requested)| == |EffectiveSet(requested)|
    ensures Selected(requested) != []
  {
    var wanted := EffectiveSet(requested);
    ServicesDistinct();
    FilterShape(SERVICES, wanted);
    DistinctCount(Selected(requested));
    assert (set s | s in Selected(requested)) == wanted;
    if requested == [] {
      assert SERVICES[0] in wanted;
    } else {
      assert requested[0] in wanted;
    }
  }

  /** The scan both constructors make over the list of services. */
  method Select(requested: seq<Text>) returns (selected: seq<Text>)
    ensures selected == Filter(SERVICES, set s | s in requested)
  {
    selected := [];
    ghost var wanted := set s | s in requested;
    for i := 0 to |SERVICES|
      invariant selected == Filter(SERVICES[..i], wanted)
    {
      assert SERVICES[..i + 1][..i] == SERVICES[..i];
      if SERVICES[i] in requested {
        selected := selected + [SERVICES[i]];
      }
    }
    assert SERVICES[..|SERVICES|] == SERVICES;
  }

  /** The selection and its check, shared by both: the distinct requested names must be
      as many as were selected, and all known. */
  method SelectServices(requested: seq<Text>) returns (selected: Option<seq<Text>>)
    ensures selected.Some? <==> ServicesOk(requested)
    ensures selected.Some? ==> selected.value == Selected(requested)
  {
    if requested == [] {
      ServicesDistinct();
      FilterAll(SERVICES, EffectiveSet(requested));
      return Some(SERVICES);
    }
    var chosen := Select(requested);
    var unique := set s | s in requested;
    if |unique| != |chosen| || exists i :: 0 <= i < |requested| && Ordinal(requested[i]).None? {
      if ServicesOk(requested) {
        SelectedShape(requested);
      }
      return None;
    }
    selected := Some(chosen);
  }

  lemma {:induction false} FilterAll(all: seq<Text>, wanted: set<Text>)
    requires forall i :: 0 <= i < |all| ==> all[i] in wanted
    ensures Filter(all, wanted) == all
  {
    if all == [] {
    } else {
      FilterAll(all[..|all| - 1], wanted);
    }
  }

  // ----- The canonical scope -----

  datatype Scope = Scope(
    account: Text, query: Text, services: seq<Text>, limit: u32, encoded: seq<byte>, digest: Digest)

  predicate AccountOk(account: Text) {
    0 < |account| <= 128
  }

  /** The white space of `char::is_whitespace` in UTF-8: U+0009 to U+000D, U+0020, U+0085,
      U+00A0, U+1680, U+2000 to U+200A, U+2028, U+2029, U+202F, U+205F, U+3000. */
  const WHITE_SPACE: seq<Text> := [
    [0x09], [0x0A], [0x0B], [0x0C], [0x0D], [0x20], [0xC2, 0x85], [0xC2, 0xA0], [0xE1, 0x9A, 0x80],
    [0xE2, 0x80, 0x80], [0xE2, 0x80, 0x81], [0xE2, 0x80, 0x82], [0xE2, 0x80, 0x83], [0xE2, 0x80, 0x84],
    [0xE2, 0x80, 0x85], [0xE2, 0x80, 0x86], [0xE2, 0x80, 0x87], [0xE2, 0x80, 0x88], [0xE2, 0x80, 0x89],
    [0xE2, 0x80, 0x8A], [0xE2, 0x80, 0xA8], [0xE2, 0x80, 0xA9], [0xE2, 0x80, 0xAF], [0xE2, 0x81, 0x9F],
    [0xE3, 0x80, 0x80]]

  predicate EndsWith(t: Text, w: Text) {
    |w| <= |t| && t[|t| - |w|..] == w
  }

  /** No white space at either end: trimming changes nothing. */
  predicate Trimmed(t: Text) {
    forall i :: 0 <= i < |WHITE_SPACE| ==> !(WHITE_SPACE[i] <= t) && !EndsWith(t, WHITE_SPACE[i])
  }

  predicate QueryOk(query: Text) {
    0 < |query| <= 2048 && Trimmed(query)
  }

  function EffectiveLimit(limit: Option<u32>): u32 {
    if limit.Some? then limit.value else 20
  }

  predicate Acceptable(account: Text, query: Text, requested: seq<Text>, limit: Option<u32>) {
    AccountOk(account) && QueryOk(query) && ServicesOk(requested) && 0 < EffectiveLimit(limit) <= 160
  }

  function Ordinals(services: seq<Text>): (r: seq<byte>)
    requires ServicesOk(services)
    ensures |r| == |services|
  {
    seq(|services|, i requires 0 <= i < |services| => Ordinal(services[i]).value)
  }

  function EncodeScope(account: Text, query: Text, services: seq<Text>, limit: u32): seq<byte>
    requires AccountOk(account) && |query| <= 2048 && ServicesOk(services) && |services| <= 6
  {
    [1] + (U16Len(account).value + (U16Len(query).value
    + ([|services|] + (Ordinals(services) + U32(limit)))))
  }

  /** The encoding, appended part by part. */
  method WriteScope(account: Text, query: Text, services: seq<Text>, limit: u32) returns (encoded: seq<byte>)
    requires AccountOk(account) && |query| <= 2048 && ServicesOk(services) && |services| <= 6
    ensures encoded == EncodeScope(account, query, services, limit)
  {
    var a, q := U16Len(account).value, U16Len(query).value;
    var head := [1] + a + q + [|services|];
    encoded := head;
    for i := 0 to |services|
      invariant encoded == head + Ordinals(services)[..i]
    {
      encoded := encoded + [Ordinal(services[i]).value];
    }
    var o := Ordinals(services);
    assert o[..|services|] == o;
    encoded := encoded + U32(limit);
    Regroup(a, q, [|services|], o, U32(limit));
  }

  lemma Regroup(a: seq<byte>, q: seq<byte>, n: seq<byte>, o: seq<byte>, l: seq<byte>)
    ensures [1] + a + q + n + o + l == [1] + (a + (q + (n + (o + l))))
  {
  }

  function ScopeDomain(): Text {
    Ascii("isyncyou-progressive-search-scope/v1")
  }

  /** `CanonicalSearchScopeV1::new`, with SHA-256 as an arbitrary function. */
  method NewCanonical(sha: seq<byte> -> Digest, account: Text, query: Text, requested: seq<Text>, limit: Option<u32>)
    returns (r: Option<Scope>)
    ensures r.Some? <==> Acceptable(account, query, requested, limit)
    ensures r.Some? <==> (&& 0 < |account| <= 128 && 0 < |query| <= 2048 && Trimmed(query)
                          && (forall s :: s in requested ==> s in SERVICES)
                          && (limit.Some? ==> 1 <= limit.value <= 160))
    ensures r.Some? ==>
              && r.value.account == account && r.value.query == query
              && r.value.services == Selected(requested)
              && r.value.limit == (match limit case None => 20 case Some(n) => n)
              && ServicesOk(r.value.services) && |r.value.services| <= 6
              && r.value.encoded == EncodeScope(account, query, r.value.services, r.value.limit)
              && r.value.digest == sha(ScopeDomain() + r.value.encoded)
  {
    if account == [] || |account| > 128 {
      return None;
    }
    if query == [] || |query| > 2048 || !Trimmed(query) {
      return None;
    }
    var selected := SelectServices(requested);
    if selected.None? {
      return None;
    }
    var services, effective := selected.value, EffectiveLimit(limit);
    if effective == 0 || effective > 160 {
      return None;
    }
    SelectedKnown(requested);
    var encoded := WriteScope(account, query, services, effective);
    r := Some(Scope(account, query, services, effective, encoded, sha(ScopeDomain() + encoded)));
  }

  lemma SelectedKnown(requested: seq<Text>)
    ensures ServicesOk(Selected(requested)) && |Selected(requested)| <= 6
  {
    ServicesDistinct();
    FilterShape(SERVICES, EffectiveSet(requested));
    FilterBound(SERVICES, EffectiveSet(requested));
  }

  lemma {:induction false} FilterBound(all: seq<Text>, wanted: set<Text>)
    ensures |Filter(all, wanted)| <= |all|
  {
    if all == [] {
    } else {
      FilterBound(all[..|all| - 1], wanted);
    }
  }

  // ----- The normalized scope -----

  function Dedup(xs: seq<Text>): seq<Text> {
    if |xs| < 2 then xs
    else
      var front := Dedup(xs[..|xs| - 1]);
      if xs[|xs| - 2] == xs[|xs| - 1] then front else front + [xs[|xs| - 1]]
  }

  lemma {:induction false} DedupDistinct(xs: seq<Text>)
    requires Distinct(xs)
    ensures Dedup(xs) == xs
  {
    if |xs| < 2 {
    } else {
      DedupDistinct(xs[..|xs| - 1]);
    }
  }

  /** `NormalizedSearchScope::new`: accepts the same accounts and service lists as the
      canonical scope and yields the same ordered services. */
  method NewNormalized(account: Text, requested: seq<Text>) returns (r: Option<(Text, seq<Text>)>)
    ensures r.Some? <==> AccountOk(account) && ServicesOk(requested)
    ensures r.Some? ==> r.value == (account, Selected(requested))
  {
    if account == [] || |account| > 128 {
      return None;
    }
    var selected := SelectServices(requested);
    if selected.None? {
      return None;
    }
    SelectedShape(requested);
    DedupDistinct(selected.value);
    var services := Dedup(selected.value);
    if services == [] {
      return None;
    }
    r := Some((account, services));
  }

  // ----- Canonicity -----

  lemma OrdinalsInjective(xs: seq<Text>, ys: seq<Text>)
    requires ServicesOk(xs) && ServicesOk(ys) && Ordinals(xs) == Ordinals(ys)
    ensures xs == ys
  {
    assert |xs| == |Ordinals(xs)| == |ys|;
    forall i | 0 <= i < |xs| ensures xs[i] == ys[i] {
      assert Ordinals(xs)[i] == Ordinals(ys)[i];
    }
  }

  lemma EncodeScopeInjective(a: Text, b: Text, p: Text, q: Text, xs: seq<Text>, ys: seq<Text>, m: u32, n: u32)
    requires AccountOk(a) && AccountOk(b) && |p| <= 2048 && |q| <= 2048
    requires ServicesOk(xs) && ServicesOk(ys) && |xs| <= 6 && |ys| <= 6
    requires EncodeScope(a, p, xs, m) == EncodeScope(b, q, ys, n)
    ensures a == b && p == q && xs == ys && m == n
  {
    var x3, y3 := Ordinals(xs) + U32(m), Ordinals(ys) + U32(n);
    var x2, y2 := [|xs|] + x3, [|ys|] + y3;
    var x1, y1 := U16Len(p).value + x2, U16Len(q).value + y2;
    Cancel([1], [1], U16Len(a).value + x1, U16Len(b).value + y1);
    U16LenCancel(a, b, x1, y1);
    U16LenCancel(p, q, x2, y2);
    Cancel([|xs|], [|ys|], x3, y3);
    assert [|xs|][0] == [|ys|][0];
    Cancel(Ordinals(xs), Ordinals(ys), U32(m), U32(n));
    OrdinalsInjective(xs, ys);
    U32Injective(m, n);
  }

  /** Two accepted requests have equal encodings exactly when account, query, effective
      service set and effective limit are equal. */
  lemma EncodingIsCanonical(a: Text, p: Text, xs: seq<Text>, m: Option<u32>,
                            b: Text, q: Text, ys: seq<Text>, n: Option<u32>)
    requires Acceptable(a, p, xs, m) && Acceptable(b, q, ys, n)
    ensures ServicesOk(Selected(xs)) && |Selected(xs)| <= 6 && ServicesOk(Selected(ys)) && |Selected(ys)| <= 6
    ensures EncodeScope(a, p, Selected(xs), EffectiveLimit(m)) == EncodeScope(b, q, Selected(ys), EffectiveLimit(n))
            <==> a == b && p == q && EffectiveSet(xs) == EffectiveSet(ys) && EffectiveLimit(m) == EffectiveLimit(n)
  {
    SelectedKnown(xs);
    SelectedKnown(ys);
    if EncodeScope(a, p, Selected(xs), EffectiveLimit(m)) == EncodeScope(b, q, Selected(ys), EffectiveLimit(n)) {
      EncodeScopeInjective(a, b, p, q, Selected(xs), Selected(ys), EffectiveLimit(m), EffectiveLimit(n));
      SelectedShape(xs);
      SelectedShape(ys);
    }
  }
}
