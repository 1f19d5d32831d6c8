/** What the drift summary depends on: an explicit erasure of each JSON tree, and not
    the order of the lines. */
module DriftPrivacy {
  import opened Bytes
  import opened DriftReducer

  // ----- The reference: what occurs anywhere in a tree -----

  type MemberTest = (string, Json) -> bool

  /** Does some member, at any depth, pass the test? */
  predicate AnyMember(v: Json, test: MemberTest) {
    match v
    case Obj(ms) => exists i :: 0 <= i < |ms| && (test(ms[i].key, ms[i].value) || AnyMember(ms[i].value, test))
    case Arr(xs) => exists i :: 0 <= i < |xs| && AnyMember(xs[i], test)
    case _ => false
  }

  /** Does some string value, at any depth, contain the sentinel? */
  predicate AnyString(v: Json, sentinel: string) {
    match v
    case Obj(ms) => exists i :: 0 <= i < |ms| && AnyString(ms[i].value, sentinel)
    case Arr(xs) => exists i :: 0 <= i < |xs| && AnyString(xs[i], sentinel)
    case Str(s) => Contains(s, sentinel)
    case _ => false
  }

  function Identifies(name: string): MemberTest {
    (k: string, u: Json) => k == name && u != Null
  }

  /** A member of that name holds an object with this key. */
  function HasKey(name: string, key: string): MemberTest {
    (k: string, u: Json) => k == name && u.Obj? && key in KeysOf(u.members)
  }

  /** A member of that name holds no object, or an object with other keys than these. */
  function Strays(name: string, known: set<string>): MemberTest {
    (k: string, u: Json) => k == name && (!u.Obj? || KeysOf(u.members) - known != {})
  }

  function KnownUsage(p: Provider): set<string> {
    UsageFields(p) + IgnoredUsageFields(p)
  }

  function Occurring(p: Provider, sentinel: string, v: Json): Marks {
    Marks(FieldsUnder(v, "usage", UsageFields(p)), FieldsUnder(v, "rate_limit_info", RATE_LIMIT_FIELDS),
          AnyMember(v, Identifies("request_id")), AnyMember(v, Identifies("session_id")),
          AnyMember(v, Identifies("thread_id")), AnyString(v, sentinel),
          AnyMember(v, Strays("usage", KnownUsage(p))),
          AnyMember(v, Strays("rate_limit_info", RATE_LIMIT_FIELDS)))
  }

  lemma AnyMemberCons(ms: seq<Member>, test: MemberTest)
    requires ms != []
    ensures AnyMember(Obj(ms), test)
            <==> test(ms[0].key, ms[0].value) || AnyMember(ms[0].value, test) || AnyMember(Obj(ms[1..]), test)
  {
  }

  lemma AnyItemCons(xs: seq<Json>, test: MemberTest)
    requires xs != []
    ensures AnyMember(Arr(xs), test) <==> AnyMember(xs[0], test) || AnyMember(Arr(xs[1..]), test)
  {
  }

  lemma AnyStringCons(ms: seq<Member>, sentinel: string)
    requires ms != []
    ensures AnyString(Obj(ms), sentinel) <==> AnyString(ms[0].value, sentinel) || AnyString(Obj(ms[1..]), sentinel)
  {
  }

  lemma AnyStringItemCons(xs: seq<Json>, sentinel: string)
    requires xs != []
    ensures AnyString(Arr(xs), sentinel) <==> AnyString(xs[0], sentinel) || AnyString(Arr(xs[1..]), sentinel)
  {
  }

  /** The arms of the match, as the tests above. */
  function TestMarks(p: Provider, m: Member): Marks {
    Marks((set f | f in UsageFields(p) && HasKey("usage", f)(m.key, m.value)),
          (set f | f in RATE_LIMIT_FIELDS && HasKey("rate_limit_info", f)(m.key, m.value)),
          Identifies("request_id")(m.key, m.value), Identifies("session_id")(m.key, m.value),
          Identifies("thread_id")(m.key, m.value), false,
          Strays("usage", KnownUsage(p))(m.key, m.value),
          Strays("rate_limit_info", RATE_LIMIT_FIELDS)(m.key, m.value))
  }

  lemma MemberMarksAreTests(p: Provider, m: Member)
    ensures MemberMarks(p, m) == TestMarks(p, m)
  {
    var t := TestMarks(p, m);
    if m.key == "usage" && m.value.Obj? {
      var keys := KeysOf(m.value.members);
      assert keys - UsageFields(p) - IgnoredUsageFields(p) == keys - KnownUsage(p);
      assert t.usageFields == keys * UsageFields(p);
    } else if m.key == "rate_limit_info" && m.value.Obj? {
      assert t.rateLimitFields == KeysOf(m.value.members) * RATE_LIMIT_FIELDS;
    }
  }

  /** Which of the fields occur under members of that name. */
  function FieldsUnder(v: Json, name: string, fields: set<string>): set<string> {
    set f | f in fields && AnyMember(v, HasKey(name, f))
  }

  lemma FieldsCons(ms: seq<Member>, name: string, fields: set<string>)
    requires ms != []
    ensures FieldsUnder(Obj(ms), name, fields)
            == (set f | f in fields && HasKey(name, f)(ms[0].key, ms[0].value))
               + FieldsUnder(ms[0].value, name, fields) + FieldsUnder(Obj(ms[1..]), name, fields)
  {
    forall f { AnyMemberCons(ms, HasKey(name, f)); }
  }

  lemma FieldsItemCons(xs: seq<Json>, name: string, fields: set<string>)
    requires xs != []
    ensures FieldsUnder(Arr(xs), name, fields)
            == FieldsUnder(xs[0], name, fields) + FieldsUnder(Arr(xs[1..]), name, fields)
  {
    forall f { AnyItemCons(xs, HasKey(name, f)); }
  }

  lemma OccurringCons(p: Provider, sentinel: string, ms: seq<Member>)
    requires ms != []
    ensures Occurring(p, sentinel, Obj(ms))
            == Merged(Merged(TestMarks(p, ms[0]), Occurring(p, sentinel, ms[0].value)),
                      Occurring(p, sentinel, Obj(ms[1..])))
  {
    FieldsCons(ms, "usage", UsageFields(p));
    FieldsCons(ms, "rate_limit_info", RATE_LIMIT_FIELDS);
    AnyMemberCons(ms, Identifies("request_id"));
    AnyMemberCons(ms, Identifies("session_id"));
    AnyMemberCons(ms, Identifies("thread_id"));
    AnyMemberCons(ms, Strays("usage", KnownUsage(p)));
    AnyMemberCons(ms, Strays("rate_limit_info", RATE_LIMIT_FIELDS));
    AnyStringCons(ms, sentinel);
  }

  lemma OccurringItemCons(p: Provider, sentinel: string, xs: seq<Json>)
    requires xs != []
    ensures Occurring(p, sentinel, Arr(xs))
            == Merged(Occurring(p, sentinel, xs[0]), Occurring(p, sentinel, Arr(xs[1..])))
  {
    FieldsItemCons(xs, "usage", UsageFields(p));
    FieldsItemCons(xs, "rate_limit_info", RATE_LIMIT_FIELDS);
    AnyItemCons(xs, Identifies("request_id"));
    AnyItemCons(xs, Identifies("session_id"));
    AnyItemCons(xs, Identifies("thread_id"));
    AnyItemCons(xs, Strays("usage", KnownUsage(p)));
    AnyItemCons(xs, Strays("rate_limit_info", RATE_LIMIT_FIELDS));
    AnyStringItemCons(xs, sentinel);
  }

  lemma MergedAssoc(a: Marks, b: Marks, c: Marks)
    ensures Merged(Merged(a, b), c) == Merged(a, Merged(b, c))
    ensures Merged(a, NO_MARKS) == a
  {
  }

  lemma MergedNothing(a: Marks)
    ensures Merged(NO_MARKS, a) == a && Merged(a, NO_MARKS) == a
  {
  }

  lemma OccursNowhere(p: Provider, sentinel: string, v: Json)
    requires v == Obj([]) || v == Arr([]) || v.Null? || v.Bool? || v.Num?
    ensures Occurring(p, sentinel, v) == NO_MARKS
  {
  }

  /** The walk records exactly what occurs anywhere in the tree. */
  lemma {:induction false} InspectMeaning(p: Provider, sentinel: string, v: Json, marks: Marks)
    ensures Inspect(p, sentinel, v, marks) == Merged(marks, Occurring(p, sentinel, v))
    decreases v, 1
  {
    match v
    case Obj(ms) => InspectMembersMeaning(p, sentinel, ms, marks);
    case Arr(xs) => InspectItemsMeaning(p, sentinel, xs, marks);
    case Str(s) => assert Occurring(p, sentinel, v) == NO_MARKS.(sentinel := Contains(s, sentinel));
    case _ =>
      OccursNowhere(p, sentinel, v);
      MergedAssoc(marks, marks, marks);
  }

  lemma {:induction false} InspectMembersMeaning(p: Provider, sentinel: string, ms: seq<Member>, marks: Marks)
    ensures InspectMembers(p, sentinel, ms, marks) == Merged(marks, Occurring(p, sentinel, Obj(ms)))
    decreases ms, 0
  {
    if ms == [] {
      OccursNowhere(p, sentinel, Obj(ms));
      MergedAssoc(marks, marks, marks);
    } else {
      var a, b := MemberMarks(p, ms[0]), Occurring(p, sentinel, ms[0].value);
      var c := Occurring(p, sentinel, Obj(ms[1..]));
      InspectMeaning(p, sentinel, ms[0].value, Merged(marks, a));
      InspectMembersMeaning(p, sentinel, ms[1..], Merged(Merged(marks, a), b));
      OccurringCons(p, sentinel, ms);
      MemberMarksAreTests(p, ms[0]);
      MergedAssoc(marks, a, b);
      MergedAssoc(marks, Merged(a, b), c);
    }
  }

  lemma {:induction false} InspectItemsMeaning(p: Provider, sentinel: string, xs: seq<Json>, marks: Marks)
    ensures InspectItems(p, sentinel, xs, marks) == Merged(marks, Occurring(p, sentinel, Arr(xs)))
    decreases xs, 0
  {
    if xs == [] {
      OccursNowhere(p, sentinel, Arr(xs));
      MergedAssoc(marks, marks, marks);
    } else {
      var a, c := Occurring(p, sentinel, xs[0]), Occurring(p, sentinel, Arr(xs[1..]));
      InspectMeaning(p, sentinel, xs[0], marks);
      InspectItemsMeaning(p, sentinel, xs[1..], Merged(marks, a));
      OccurringItemCons(p, sentinel, xs);
      MergedAssoc(marks, a, c);
    }
  }

  // ----- Erasure -----

  /** The names the walk can tell apart. */
  function Kept(p: Provider): set<string> {
    {"request_id", "session_id", "thread_id", "usage", "rate_limit_info"} + UsageFields(p) + RATE_LIMIT_FIELDS
  }

  /** Ignored usage names all become one of them, every other name becomes empty. */
  function PublicKey(p: Provider, k: string): string {
    if k in Kept(p) then k else if k in IgnoredUsageFields(p) then "fast" else ""
  }

  function Erase(p: Provider, sentinel: string, v: Json): Json {
    match v
    case Null => Null
    case Bool(_) => Bool(false)
    case Num(_) => Num("")
    case Str(s) => Str(if Contains(s, sentinel) then sentinel else "")
    case Arr(xs) => Arr(seq(|xs|, i requires 0 <= i < |xs| => Erase(p, sentinel, xs[i])))
    case Obj(ms) =>
      Obj(seq(|ms|, i requires 0 <= i < |ms| =>
        Member(PublicKey(p, ms[i].key), Erase(p, sentinel, ms[i].value))))
  }

  /** Nothing but kept names, placeholders and the sentinel. */
  predicate Public(p: Provider, sentinel: string, v: Json) {
    match v
    case Null => true
    case Bool(b) => !b
    case Num(t) => t == ""
    case Str(s) => s == "" || s == sentinel
    case Arr(xs) => forall i :: 0 <= i < |xs| ==> Public(p, sentinel, xs[i])
    case Obj(ms) =>
      forall i :: 0 <= i < |ms| ==> ms[i].key in Kept(p) + {"", "fast"} && Public(p, sentinel, ms[i].value)
  }

  lemma {:induction false} EraseIsPublic(p: Provider, sentinel: string, v: Json)
    ensures Public(p, sentinel, Erase(p, sentinel, v))
  {
    match v
    case Arr(xs) =>
      forall i | 0 <= i < |xs| ensures Public(p, sentinel, Erase(p, sentinel, xs[i])) {
        EraseIsPublic(p, sentinel, xs[i]);
      }
    case Obj(ms) =>
      forall i | 0 <= i < |ms| ensures Public(p, sentinel, Erase(p, sentinel, ms[i].value)) {
        EraseIsPublic(p, sentinel, ms[i].value);
      }
    case _ =>
  }

  lemma EmptyIsNoName(p: Provider)
    ensures "" !in Kept(p) && "" !in IgnoredUsageFields(p)
  {
  }

  lemma FastIsIgnored(p: Provider)
    ensures "fast" !in Kept(p) && (p == Claude ==> "fast" in IgnoredUsageFields(p))
  {
  }

  lemma Placeholders(p: Provider)
    ensures "" !in Kept(p) && "" !in IgnoredUsageFields(p)
    ensures "fast" !in Kept(p) && (p == Claude ==> "fast" in IgnoredUsageFields(p))
  {
    EmptyIsNoName(p);
    FastIsIgnored(p);
  }

  /** Erasing keys does not move them in or out of the set. */
  ghost predicate Separates(p: Provider, known: set<string>) {
    forall k :: k in known <==> PublicKey(p, k) in known
  }

  lemma KnownSetsSeparate(p: Provider)
    ensures Separates(p, KnownUsage(p)) && Separates(p, RATE_LIMIT_FIELDS)
    ensures forall f :: f in Kept(p) ==> Separates(p, {f})
  {
    Placeholders(p);
  }

  /** Renaming keys without moving them in or out of a set. */
  lemma RenamedKeys(ms: seq<Member>, ns: seq<Member>, rename: string -> string, known: set<string>)
    requires |ns| == |ms| && forall i :: 0 <= i < |ms| ==> ns[i].key == rename(ms[i].key)
    requires forall k :: k in known <==> rename(k) in known
    ensures KeysOf(ms) * known != {} <==> KeysOf(ns) * known != {}
    ensures KeysOf(ms) - known != {} <==> KeysOf(ns) - known != {}
  {
    if k :| k in KeysOf(ms) * known {
      assert rename(k) in KeysOf(ns) * known;
    }
    if k :| k in KeysOf(ms) - known {
      assert rename(k) in KeysOf(ns) - known;
    }
    if k :| k in KeysOf(ns) * known {
      var i :| 0 <= i < |ns| && ns[i].key == k;
      assert ms[i].key in KeysOf(ms) * known;
    }
    if k :| k in KeysOf(ns) - known {
      var i :| 0 <= i < |ns| && ns[i].key == k;
      assert ms[i].key in KeysOf(ms) - known;
    }
  }

  lemma ErasedKeys(p: Provider, sentinel: string, ms: seq<Member>, known: set<string>)
    requires Separates(p, known)
    ensures var erased := Erase(p, sentinel, Obj(ms)).members;
            && (KeysOf(ms) * known != {} <==> KeysOf(erased) * known != {})
            && (KeysOf(ms) - known != {} <==> KeysOf(erased) - known != {})
  {
    RenamedKeys(ms, Erase(p, sentinel, Obj(ms)).members, k => PublicKey(p, k), known);
  }

  /** A test that erasure cannot change. */
  ghost predicate Stable(p: Provider, sentinel: string, test: MemberTest) {
    forall k, u :: test(k, u) <==> test(PublicKey(p, k), Erase(p, sentinel, u))
  }

  lemma {:induction false} AnyMemberErased(p: Provider, sentinel: string, v: Json, test: MemberTest)
    requires Stable(p, sentinel, test)
    ensures AnyMember(Erase(p, sentinel, v), test) <==> AnyMember(v, test)
  {
    match v
    case Arr(xs) =>
      var ys := Erase(p, sentinel, v).items;
      forall i | 0 <= i < |xs| ensures AnyMember(ys[i], test) <==> AnyMember(xs[i], test) {
        AnyMemberErased(p, sentinel, xs[i], test);
      }
    case Obj(ms) =>
      var ns := Erase(p, sentinel, v).members;
      forall i | 0 <= i < |ms|
        ensures (test(ns[i].key, ns[i].value) || AnyMember(ns[i].value, test))
                <==> (test(ms[i].key, ms[i].value) || AnyMember(ms[i].value, test))
      {
        AnyMemberErased(p, sentinel, ms[i].value, test);
      }
    case _ =>
  }

  lemma {:induction false} AnyStringErased(p: Provider, sentinel: string, v: Json)
    ensures AnyString(Erase(p, sentinel, v), sentinel) <==> AnyString(v, sentinel)
  {
    match v
    case Str(s) => assert sentinel == "" ==> Contains(s, sentinel);
    case Arr(xs) =>
      var ys := Erase(p, sentinel, v).items;
      forall i | 0 <= i < |xs| ensures AnyString(ys[i], sentinel) <==> AnyString(xs[i], sentinel) {
        AnyStringErased(p, sentinel, xs[i]);
      }
    case Obj(ms) =>
      var ns := Erase(p, sentinel, v).members;
      forall i | 0 <= i < |ms| ensures AnyString(ns[i].value, sentinel) <==> AnyString(ms[i].value, sentinel) {
        AnyStringErased(p, sentinel, ms[i].value);
      }
    case _ =>
  }

  lemma IdentifierStable(p: Provider, sentinel: string, name: string)
    requires Separates(p, {name})
    ensures Stable(p, sentinel, Identifies(name))
  {
  }

  lemma HasKeyStable(p: Provider, sentinel: string, name: string, key: string)
    requires Separates(p, {name}) && Separates(p, {key})
    ensures Stable(p, sentinel, HasKey(name, key))
  {
    forall k, u ensures HasKey(name, key)(k, u) <==> HasKey(name, key)(PublicKey(p, k), Erase(p, sentinel, u)) {
      assert k in {name} <==> PublicKey(p, k) in {name};
      if u.Obj? {
        ErasedKeys(p, sentinel, u.members, {key});
        HoldsKey(KeysOf(u.members), key);
        HoldsKey(KeysOf(Erase(p, sentinel, u).members), key);
      }
    }
  }

  lemma HoldsKey(keys: set<string>, key: string)
    ensures key in keys <==> keys * {key} != {}
  {
    if key in keys {
      assert key in keys * {key};
    }
  }

  lemma StraysStable(p: Provider, sentinel: string, name: string, known: set<string>)
    requires Separates(p, {name}) && Separates(p, known)
    ensures Stable(p, sentinel, Strays(name, known))
  {
    forall k, u ensures Strays(name, known)(k, u) <==> Strays(name, known)(PublicKey(p, k), Erase(p, sentinel, u)) {
      assert k in {name} <==> PublicKey(p, k) in {name};
      if u.Obj? {
        ErasedKeys(p, sentinel, u.members, known);
      }
    }
  }

  // ----- Erasure of a line -----

  /** On a line, the names allowed for its event type are kept too. */
  function TopKey(p: Provider, t: string, k: string): string {
    if k in Kept(p) || k in EventFields(p, t) || k == "type" then k else ""
  }

  /** The type is kept when known; the blank keeps what is not known apart from that. */
  function EraseType(p: Provider, sentinel: string, u: Json): Json {
    if !u.Str? then Erase(p, sentinel, u)
    else if u.s in EventTypes(p) then u
    else Str(if Contains(u.s, sentinel) then sentinel + " " else "")
  }

  function EraseTop(p: Provider, sentinel: string, t: string, m: Member): Member {
    Member(TopKey(p, t, m.key),
           if m.key == "type" then EraseType(p, sentinel, m.value) else Erase(p, sentinel, m.value))
  }

  function EraseTops(p: Provider, sentinel: string, t: string, ms: seq<Member>): (ns: seq<Member>)
    ensures |ns| == |ms|
  {
    seq(|ms|, i requires 0 <= i < |ms| => EraseTop(p, sentinel, t, ms[i]))
  }

  /** All that is left of a line. */
  function EraseLine(p: Provider, sentinel: string, v: Json): Json {
    if v.Obj? then Obj(EraseTops(p, sentinel, EventType(p, v), v.members)) else Erase(p, sentinel, v)
  }

  predicate PublicType(p: Provider, sentinel: string, u: Json) {
    if u.Str? then u.s in EventTypes(p) + {"", sentinel + " "} else Public(p, sentinel, u)
  }

  /** Nothing but names allowed on a line of its type, kept names, the type itself,
      placeholders and the sentinel. */
  predicate PublicLine(p: Provider, sentinel: string, v: Json) {
    if !v.Obj? then Public(p, sentinel, v)
    else
      forall i :: 0 <= i < |v.members| ==>
        var m := v.members[i];
        && m.key in EventFields(p, EventType(p, v)) + Kept(p) + {"type", ""}
        && if m.key == "type" then PublicType(p, sentinel, m.value) else Public(p, sentinel, m.value)
  }

  lemma NamesAreNotEmpty(p: Provider, t: string)
    ensures "" !in EventFields(p, t)
  {
  }

  lemma TypesEndInNoBlank(p: Provider, sentinel: string)
    ensures "" !in EventTypes(p) && sentinel + " " !in EventTypes(p)
  {
    var blank := sentinel + " ";
    assert blank[|blank| - 1] == ' ';
  }

  lemma {:induction false} GetErased(p: Provider, sentinel: string, t: string, ms: seq<Member>)
    ensures var before, after := Get(ms, "type"), Get(EraseTops(p, sentinel, t, ms), "type");
            after == if before.None? then None else Some(EraseType(p, sentinel, before.value))
  {
    if ms == [] {
    } else {
      var ns := EraseTops(p, sentinel, t, ms);
      assert ns[1..] == EraseTops(p, sentinel, t, ms[1..]);
      GetErased(p, sentinel, t, ms[1..]);
    }
  }

  lemma EventTypeErased(p: Provider, sentinel: string, v: Json)
    ensures EventType(p, EraseLine(p, sentinel, v)) == EventType(p, v)
  {
    if v.Obj? {
      TypesEndInNoBlank(p, sentinel);
      GetErased(p, sentinel, EventType(p, v), v.members);
    }
  }

  lemma UnexpectedFieldErased(p: Provider, sentinel: string, v: Json)
    ensures UnexpectedField(p, EraseLine(p, sentinel, v)) <==> UnexpectedField(p, v)
  {
    EventTypeErased(p, sentinel, v);
    if v.Obj? {
      var t := EventType(p, v);
      NamesAreNotEmpty(p, t);
      RenamedKeys(v.members, EraseTops(p, sentinel, t, v.members), k => TopKey(p, t, k), EventFields(p, t));
    }
  }

  /** A test that looks only at members of this name. */
  ghost predicate Named(test: MemberTest, name: string) {
    forall k, u :: test(k, u) ==> k == name
  }

  lemma TypeHasNoMembers(p: Provider, sentinel: string, u: Json, test: MemberTest)
    requires Stable(p, sentinel, test)
    ensures AnyMember(EraseType(p, sentinel, u), test) <==> AnyMember(u, test)
  {
    AnyMemberErased(p, sentinel, u, test);
  }

  lemma TopTest(p: Provider, sentinel: string, t: string, m: Member, test: MemberTest, name: string)
    requires Stable(p, sentinel, test) && Named(test, name) && name in Kept(p) && name != "type"
    ensures var n := EraseTop(p, sentinel, t, m);
            && (test(n.key, n.value) <==> test(m.key, m.value))
            && (AnyMember(n.value, test) <==> AnyMember(m.value, test))
  {
    if m.key == "type" {
      TypeHasNoMembers(p, sentinel, m.value, test);
    } else {
      AnyMemberErased(p, sentinel, m.value, test);
      assert PublicKey(p, name) == name && name != "";
      assert test(m.key, m.value) <==> test(PublicKey(p, m.key), Erase(p, sentinel, m.value));
    }
  }

  lemma AnyMemberOnLine(p: Provider, sentinel: string, v: Json, test: MemberTest, name: string)
    requires Stable(p, sentinel, test) && Named(test, name) && name in Kept(p) && name != "type"
    ensures AnyMember(EraseLine(p, sentinel, v), test) <==> AnyMember(v, test)
  {
    if v.Obj? {
      var t, ms := EventType(p, v), v.members;
      var ns := EraseTops(p, sentinel, t, ms);
      forall i | 0 <= i < |ms|
        ensures (test(ns[i].key, ns[i].value) || AnyMember(ns[i].value, test))
                <==> (test(ms[i].key, ms[i].value) || AnyMember(ms[i].value, test))
      {
        TopTest(p, sentinel, t, ms[i], test, name);
      }
    } else {
      AnyMemberErased(p, sentinel, v, test);
    }
  }

  lemma TypeText(p: Provider, sentinel: string, u: Json)
    ensures AnyString(EraseType(p, sentinel, u), sentinel) <==> AnyString(u, sentinel)
  {
    if u.Str? {
      assert sentinel == "" ==> Contains(u.s, sentinel);
      assert Contains(sentinel + " ", sentinel);
    } else {
      AnyStringErased(p, sentinel, u);
    }
  }

  lemma AnyStringOnLine(p: Provider, sentinel: string, v: Json)
    ensures AnyString(EraseLine(p, sentinel, v), sentinel) <==> AnyString(v, sentinel)
  {
    if v.Obj? {
      var t, ms := EventType(p, v), v.members;
      var ns := EraseTops(p, sentinel, t, ms);
      forall i | 0 <= i < |ms| ensures AnyString(ns[i].value, sentinel) <==> AnyString(ms[i].value, sentinel) {
        TypeText(p, sentinel, ms[i].value);
        AnyStringErased(p, sentinel, ms[i].value);
      }
    } else {
      AnyStringErased(p, sentinel, v);
    }
  }

  lemma IdentifierErased(p: Provider, sentinel: string, v: Json, name: string)
    requires name in Kept(p) && name != "type"
    ensures AnyMember(EraseLine(p, sentinel, v), Identifies(name)) <==> AnyMember(v, Identifies(name))
  {
    KnownSetsSeparate(p);
    IdentifierStable(p, sentinel, name);
    AnyMemberOnLine(p, sentinel, v, Identifies(name), name);
  }

  lemma StraysErased(p: Provider, sentinel: string, v: Json, name: string, known: set<string>)
    requires name in Kept(p) && name != "type" && known in {KnownUsage(p), RATE_LIMIT_FIELDS}
    ensures AnyMember(EraseLine(p, sentinel, v), Strays(name, known)) <==> AnyMember(v, Strays(name, known))
  {
    KnownSetsSeparate(p);
    StraysStable(p, sentinel, name, known);
    AnyMemberOnLine(p, sentinel, v, Strays(name, known), name);
  }

  lemma FieldErased(p: Provider, sentinel: string, v: Json, name: string, f: string)
    requires name in Kept(p) && name != "type" && f in Kept(p)
    ensures AnyMember(EraseLine(p, sentinel, v), HasKey(name, f)) <==> AnyMember(v, HasKey(name, f))
  {
    KnownSetsSeparate(p);
    HasKeyStable(p, sentinel, name, f);
    AnyMemberOnLine(p, sentinel, v, HasKey(name, f), name);
  }

  lemma FieldsErased(p: Provider, sentinel: string, v: Json, name: string, fields: set<string>)
    requires name in Kept(p) && name != "type" && fields <= Kept(p)
    ensures FieldsUnder(EraseLine(p, sentinel, v), name, fields) == FieldsUnder(v, name, fields)
  {
    forall f | f in fields
      ensures AnyMember(EraseLine(p, sentinel, v), HasKey(name, f)) <==> AnyMember(v, HasKey(name, f))
    {
      FieldErased(p, sentinel, v, name, f);
    }
  }

  /** Two trees that no test of the walk tells apart. */
  ghost predicate Indistinct(p: Provider, sentinel: string, v: Json, w: Json) {
    && FieldsUnder(w, "usage", UsageFields(p)) == FieldsUnder(v, "usage", UsageFields(p))
    && FieldsUnder(w, "rate_limit_info", RATE_LIMIT_FIELDS) == FieldsUnder(v, "rate_limit_info", RATE_LIMIT_FIELDS)
    && (AnyMember(w, Identifies("request_id")) <==> AnyMember(v, Identifies("request_id")))
    && (AnyMember(w, Identifies("session_id")) <==> AnyMember(v, Identifies("session_id")))
    && (AnyMember(w, Identifies("thread_id")) <==> AnyMember(v, Identifies("thread_id")))
    && (AnyMember(w, Strays("usage", KnownUsage(p))) <==> AnyMember(v, Strays("usage", KnownUsage(p))))
    && (AnyMember(w, Strays("rate_limit_info", RATE_LIMIT_FIELDS))
        <==> AnyMember(v, Strays("rate_limit_info", RATE_LIMIT_FIELDS)))
    && (AnyString(w, sentinel) <==> AnyString(v, sentinel))
  }

  lemma IndistinctMarks(p: Provider, sentinel: string, v: Json, w: Json)
    requires Indistinct(p, sentinel, v, w)
    ensures Occurring(p, sentinel, w) == Occurring(p, sentinel, v)
  {
  }

  lemma KeptNames(p: Provider)
    ensures "request_id" in Kept(p) && "session_id" in Kept(p) && "thread_id" in Kept(p)
    ensures "usage" in Kept(p) && "rate_limit_info" in Kept(p)
    ensures UsageFields(p) <= Kept(p) && RATE_LIMIT_FIELDS <= Kept(p)
  {
  }

  lemma ErasureIndistinct(p: Provider, sentinel: string, v: Json)
    ensures Indistinct(p, sentinel, v, EraseLine(p, sentinel, v))
  {
    KeptNames(p);
    FieldsErased(p, sentinel, v, "usage", UsageFields(p));
    FieldsErased(p, sentinel, v, "rate_limit_info", RATE_LIMIT_FIELDS);
    IdentifierErased(p, sentinel, v, "request_id");
    IdentifierErased(p, sentinel, v, "session_id");
    IdentifierErased(p, sentinel, v, "thread_id");
    StraysErased(p, sentinel, v, "usage", KnownUsage(p));
    StraysErased(p, sentinel, v, "rate_limit_info", RATE_LIMIT_FIELDS);
    AnyStringOnLine(p, sentinel, v);
  }

  /** The marks of a line are the marks of its erasure. */
  lemma OccurringErased(p: Provider, sentinel: string, v: Json)
    ensures Occurring(p, sentinel, EraseLine(p, sentinel, v)) == Occurring(p, sentinel, v)
  {
    ErasureIndistinct(p, sentinel, v);
    IndistinctMarks(p, sentinel, v, EraseLine(p, sentinel, v));
  }

  lemma LineIsPublic(p: Provider, sentinel: string, v: Json)
    ensures PublicLine(p, sentinel, EraseLine(p, sentinel, v))
  {
    EventTypeErased(p, sentinel, v);
    if v.Obj? {
      var t, ms := EventType(p, v), v.members;
      forall i | 0 <= i < |ms|
        ensures var m := EraseTop(p, sentinel, t, ms[i]);
                && m.key in EventFields(p, t) + Kept(p) + {"type", ""}
                && if m.key == "type" then PublicType(p, sentinel, m.value) else Public(p, sentinel, m.value)
      {
        EraseIsPublic(p, sentinel, ms[i].value);
      }
    } else {
      EraseIsPublic(p, sentinel, v);
    }
  }

  // ----- The summary depends on the erasure alone -----

  /** All a step takes from a line. */
  predicate SameToStep(p: Provider, sentinel: string, v: Json, w: Json) {
    && EventType(p, v) == EventType(p, w)
    && (UnexpectedField(p, v) <==> UnexpectedField(p, w))
    && Occurring(p, sentinel, v) == Occurring(p, sentinel, w)
  }

  lemma SameStep(p: Provider, sentinel: string, st: EventState, v: Json, w: Json)
    requires SameToStep(p, sentinel, v, w)
    ensures Stepper(p, sentinel)(st, v) == Stepper(p, sentinel)(st, w)
  {
    InspectMeaning(p, sentinel, v, st.marks);
    InspectMeaning(p, sentinel, w, st.marks);
  }

  function Mapped<X>(f: X -> X, xs: seq<X>): (r: seq<X>)
    ensures |r| == |xs|
  {
    seq(|xs|, i requires 0 <= i < |xs| => f(xs[i]))
  }

  lemma {:induction false} FoldMapped<S(!new), X(!new)>(g: (S, X) -> S, s: S, f: X -> X, xs: seq<X>)
    requires forall st, x :: g(st, f(x)) == g(st, x)
    ensures Fold(g, s, Mapped(f, xs)) == Fold(g, s, xs)
    decreases |xs|
  {
    if xs == [] {
    } else {
      var front, last := xs[..|xs| - 1], xs[|xs| - 1];
      FoldMapped(g, s, f, front);
      assert Mapped(f, xs) == Mapped(f, front) + [f(last)];
      FoldNext(g, s, Mapped(f, front), f(last));
    }
  }

  function Eraser(p: Provider, sentinel: string): Json -> Json {
    (v: Json) => EraseLine(p, sentinel, v)
  }

  /** Erasing every line of a log leaves its summary alone. */
  lemma SummaryErased(p: Provider, sentinel: string, log: seq<Json>)
    ensures Summary(p, sentinel, Mapped(Eraser(p, sentinel), log)) == Summary(p, sentinel, log)
  {
    var g, f := Stepper(p, sentinel), Eraser(p, sentinel);
    forall st, v ensures g(st, f(v)) == g(st, v) {
      EventTypeErased(p, sentinel, v);
      UnexpectedFieldErased(p, sentinel, v);
      OccurringErased(p, sentinel, v);
      SameStep(p, sentinel, st, v, f(v));
    }
    FoldMapped(g, NO_EVENTS, f, log);
  }

  /** Logs that differ only in what is erased have the same summary, and what is left
      holds only public text. */
  lemma Noninterference(p: Provider, sentinel: string, log: seq<Json>, other: seq<Json>)
    requires Mapped(Eraser(p, sentinel), log) == Mapped(Eraser(p, sentinel), other)
    ensures Summary(p, sentinel, log) == Summary(p, sentinel, other)
    ensures forall i :: 0 <= i < |log| ==> PublicLine(p, sentinel, Mapped(Eraser(p, sentinel), log)[i])
  {
    SummaryErased(p, sentinel, log);
    SummaryErased(p, sentinel, other);
    forall i | 0 <= i < |log| ensures PublicLine(p, sentinel, Mapped(Eraser(p, sentinel), log)[i]) {
      LineIsPublic(p, sentinel, log[i]);
    }
  }

  // ----- The order of lines does not matter -----

  ghost predicate Commutes<S(!new), X(!new)>(g: (S, X) -> S) {
    forall s, x, y :: g(g(s, x), y) == g(g(s, y), x)
  }

  lemma {:induction false} FoldMove<S(!new), X(!new)>(g: (S, X) -> S, s: S, a: seq<X>, x: X, b: seq<X>)
    requires Commutes(g)
    ensures Fold(g, s, a + [x] + b) == g(Fold(g, s, a + b), x)
    decreases |b|
  {
    if b == [] {
      assert a + [x] + b == a + [x] && a + b == a;
      FoldNext(g, s, a, x);
    } else {
      var front, y := b[..|b| - 1], b[|b| - 1];
      FoldMove(g, s, a, x, front);
      assert a + [x] + b == (a + [x] + front) + [y] && a + b == (a + front) + [y];
      FoldNext(g, s, a + [x] + front, y);
      FoldNext(g, s, a + front, y);
    }
  }

  lemma Without<X>(ys: seq<X>, i: nat) returns (a: seq<X>, b: seq<X>)
    requires i < |ys|
    ensures ys == a + [ys[i]] + b && multiset(ys) == multiset(a + b) + multiset{ys[i]}
  {
    a, b := ys[..i], ys[i + 1..];
    assert ys == a + [ys[i]] + b;
  }

  lemma {:induction false} FoldPermuted<S(!new), X(!new)>(g: (S, X) -> S, s: S, xs: seq<X>, ys: seq<X>)
    requires Commutes(g) && multiset(xs) == multiset(ys)
    ensures Fold(g, s, xs) == Fold(g, s, ys)
    decreases |xs|
  {
    assert |xs| == |multiset(xs)| == |multiset(ys)| == |ys|;
    if xs == [] {
    } else {
      var front, x := xs[..|xs| - 1], xs[|xs| - 1];
      assert xs == front + [x];
      assert x in multiset(ys);
      var i :| 0 <= i < |ys| && ys[i] == x;
      var a, b := Without(ys, i);
      assert multiset(xs) == multiset(front) + multiset{x};
      assert multiset(front) == multiset(xs) - multiset{x};
      assert multiset(a + b) == multiset(ys) - multiset{x};
      FoldPermuted(g, s, front, a + b);
      FoldMove(g, s, a, x, b);
    }
  }

  lemma CountsCommute(m: map<string, nat>, s: string, t: string)
    ensures Counted(Counted(m, s), t) == Counted(Counted(m, t), s)
  {
  }

  lemma MarksCommute(a: Marks, b: Marks, c: Marks)
    ensures Merged(Merged(a, b), c) == Merged(Merged(a, c), b)
  {
  }

  lemma StepsCommute(p: Provider, sentinel: string)
    ensures Commutes(Stepper(p, sentinel))
  {
    var g := Stepper(p, sentinel);
    forall st, x, y ensures g(g(st, x), y) == g(g(st, y), x) {
      CountsCommute(st.counts, EventType(p, x), EventType(p, y));
      InspectMeaning(p, sentinel, x, st.marks);
      InspectMeaning(p, sentinel, y, st.marks);
      InspectMeaning(p, sentinel, y, Inspect(p, sentinel, x, st.marks));
      InspectMeaning(p, sentinel, x, Inspect(p, sentinel, y, st.marks));
      MarksCommute(st.marks, Occurring(p, sentinel, x), Occurring(p, sentinel, y));
    }
  }

  /** Reordering the lines of a log leaves its summary alone. */
  lemma OrderIrrelevant(p: Provider, sentinel: string, log: seq<Json>, other: seq<Json>)
    requires multiset(log) == multiset(other)
    ensures Summary(p, sentinel, log) == Summary(p, sentinel, other)
  {
    StepsCommute(p, sentinel);
    FoldPermuted(Stepper(p, sentinel), NO_EVENTS, log, other);
  }

  // ----- Review only grows -----

  /** The review markers; the last four come from the version and the debug capture. */
  datatype Review = Review(version: bool, eventType: bool, eventField: bool, usageField: bool,
                           rateLimitField: bool, debugShape: bool, endpoint: bool, header: bool)

  datatype Decision = NoDrift | ImplementationUpdateRequired | NotSafelyObservable

  /** What the rest of the capture contributes to the decision. */
  datatype Capture = Capture(versionDiffers: bool, debugShape: bool, endpointReview: bool, headerReview: bool,
                             structured: bool, headersObserved: bool, endpointObserved: bool)

  function ReviewOf(st: EventState, c: Capture): Review {
    Review(c.versionDiffers, st.typeReview, st.fieldReview, st.marks.usageReview, st.marks.rateLimitReview,
           c.debugShape, c.endpointReview, c.headerReview)
  }

  function Categories(r: Review): seq<string> {
    (if r.version then ["version"] else []) + (if r.eventType then ["event_type"] else [])
    + (if r.eventField then ["event_field"] else []) + (if r.usageField then ["usage_field"] else [])
    + (if r.rateLimitField then ["rate_limit_field"] else []) + (if r.debugShape then ["debug_shape"] else [])
    + (if r.endpoint then ["endpoint"] else []) + (if r.header then ["header"] else [])
  }

  function Decide(st: EventState, c: Capture): Decision {
    if Categories(ReviewOf(st, c)) != [] then ImplementationUpdateRequired
    else if !c.structured || !c.headersObserved || !c.endpointObserved then NotSafelyObservable
    else NoDrift
  }

  predicate MarksGrow(a: Marks, b: Marks) {
    && (a.usageReview ==> b.usageReview) && (a.rateLimitReview ==> b.rateLimitReview)
    && a.usageFields <= b.usageFields && a.rateLimitFields <= b.rateLimitFields
    && (a.requestId ==> b.requestId) && (a.sessionId ==> b.sessionId)
    && (a.threadId ==> b.threadId) && (a.sentinel ==> b.sentinel)
  }

  predicate CountsGrow(m: map<string, nat>, n: map<string, nat>) {
    forall k :: k in m ==> k in n && m[k] <= n[k]
  }

  predicate Grows(s: EventState, t: EventState) {
    && (s.typeReview ==> t.typeReview) && (s.fieldReview ==> t.fieldReview)
    && MarksGrow(s.marks, t.marks) && CountsGrow(s.counts, t.counts)
  }

  lemma MergedGrows(a: Marks, b: Marks)
    ensures MarksGrow(a, Merged(a, b))
  {
  }

  lemma CountedGrows(m: map<string, nat>, t: string)
    ensures CountsGrow(m, Counted(m, t))
  {
  }

  lemma GrowsOn(s: EventState, t: EventState, u: EventState)
    requires Grows(s, t) && Grows(t, u)
    ensures Grows(s, u)
  {
  }

  lemma StepGrows(p: Provider, sentinel: string, st: EventState, v: Json)
    ensures Grows(st, Stepper(p, sentinel)(st, v))
  {
    var next := Stepper(p, sentinel)(st, v);
    InspectMeaning(p, sentinel, v, st.marks);
    MergedGrows(st.marks, Occurring(p, sentinel, v));
    CountedGrows(st.counts, EventType(p, v));
    assert next.counts == Counted(st.counts, EventType(p, v));
  }

  lemma {:induction false} FoldGrows<X>(g: (EventState, X) -> EventState, s: EventState, log: seq<X>, more: seq<X>)
    requires forall st, v :: Grows(st, g(st, v))
    ensures Grows(Fold(g, s, log), Fold(g, s, log + more))
    decreases |more|
  {
    if more == [] {
      assert log + more == log;
    } else {
      var front, last := more[..|more| - 1], more[|more| - 1];
      FoldGrows(g, s, log, front);
      assert log + more == (log + front) + [last];
      FoldNext(g, s, log + front, last);
      GrowsOn(Fold(g, s, log), Fold(g, s, log + front), Fold(g, s, log + more));
    }
  }

  lemma SummaryGrows(p: Provider, sentinel: string, log: seq<Json>, more: seq<Json>)
    ensures Grows(Summary(p, sentinel, log), Summary(p, sentinel, log + more))
  {
    forall st, v ensures Grows(st, Stepper(p, sentinel)(st, v)) {
      StepGrows(p, sentinel, st, v);
    }
    FoldGrows(Stepper(p, sentinel), NO_EVENTS, log, more);
  }

  /** Adding lines never takes a required update back, nor turns a log into no drift. */
  lemma DecisionIsStable(p: Provider, sentinel: string, log: seq<Json>, more: seq<Json>, c: Capture)
    ensures Grows(Summary(p, sentinel, log), Summary(p, sentinel, log + more))
    ensures Decide(Summary(p, sentinel, log), c) == ImplementationUpdateRequired ==>
              Decide(Summary(p, sentinel, log + more), c) == ImplementationUpdateRequired
    ensures Decide(Summary(p, sentinel, log + more), c) == NoDrift ==>
              Decide(Summary(p, sentinel, log), c) == NoDrift
  {
    SummaryGrows(p, sentinel, log, more);
  }
}
