/** What the drift summary and the decision say about a log, read off its lines. */
module DriftMeaning {
  import opened Bytes
  import opened DriftReducer
  import opened DriftPrivacy

  // ----- One line -----

  /** The substring test. */
  lemma {:induction false} ContainsMeans(s: string, sub: string)
    ensures Contains(s, sub) <==> exists i :: 0 <= i <= |s| && sub <= s[i..]
  {
    if sub <= s {
      assert s[0..] == s;
    } else if s == [] {
      assert forall i :: 0 <= i <= |s| ==> s[i..] == s;
    } else {
      ContainsMeans(s[1..], sub);
      if Contains(s[1..], sub) {
        var i :| 0 <= i <= |s[1..]| && sub <= s[1..][i..];
        assert s[i + 1..] == s[1..][i..];
      }
      if i :| 0 <= i <= |s| && sub <= s[i..] {
        assert i > 0 by {
          assert s[0..] == s;
        }
        assert s[1..][i - 1..] == s[i..];
      }
    }
  }

  /** The first member of that name. */
  predicate FirstIs(members: seq<Member>, key: string, value: Json) {
    exists i :: 0 <= i < |members| && members[i] == Member(key, value)
                && forall j :: 0 <= j < i ==> members[j].key != key
  }

  lemma {:induction false} GetMeans(members: seq<Member>, key: string, value: Json)
    ensures Get(members, key) == Some(value) <==> FirstIs(members, key, value)
  {
    if members == [] {
    } else if members[0].key == key {
    } else {
      GetMeans(members[1..], key, value);
      if FirstIs(members[1..], key, value) {
        var i :| 0 <= i < |members[1..]| && members[1..][i] == Member(key, value)
                 && forall j :: 0 <= j < i ==> members[1..][j].key != key;
        assert forall j :: 0 <= j < i + 1 ==> j == 0 || members[j] == members[1..][j - 1];
        assert members[i + 1] == Member(key, value);
      }
      if FirstIs(members, key, value) {
        var i :| 0 <= i < |members| && members[i] == Member(key, value)
                 && forall j :: 0 <= j < i ==> members[j].key != key;
        assert members[1..][i - 1] == Member(key, value);
        assert forall j :: 0 <= j < i - 1 ==> members[1..][j] == members[j + 1];
      }
    }
  }

  /** A line has a known type exactly when it is an object whose `type` is the name of it. */
  lemma EventTypeMeans(p: Provider, v: Json, t: string)
    requires t in EventTypes(p)
    ensures EventType(p, v) == t <==> v.Obj? && FirstIs(v.members, "type", Str(t))
  {
    if v.Obj? {
      GetMeans(v.members, "type", Str(t));
    }
  }

  // ----- A log -----

  type LineTest = Json -> bool

  predicate SomeLine(log: seq<Json>, test: LineTest) {
    exists i :: 0 <= i < |log| && test(log[i])
  }

  lemma SomeLineNext(log: seq<Json>, v: Json, test: LineTest)
    ensures SomeLine(log + [v], test) <==> SomeLine(log, test) || test(v)
  {
    if SomeLine(log, test) {
      var i :| 0 <= i < |log| && test(log[i]);
      assert (log + [v])[i] == log[i];
    }
    if test(v) {
      assert (log + [v])[|log|] == v;
    }
  }

  function LinesOfType(p: Provider, log: seq<Json>, t: string): nat {
    if log == [] then 0
    else LinesOfType(p, log[..|log| - 1], t) + (if EventType(p, log[|log| - 1]) == t then 1 else 0)
  }

  function Holding(test: MemberTest): LineTest {
    v => AnyMember(v, test)
  }

  function Untyped(p: Provider): LineTest {
    v => EventType(p, v) == "unknown"
  }

  function Unexpected(p: Provider): LineTest {
    v => UnexpectedField(p, v)
  }

  function Showing(sentinel: string): LineTest {
    v => AnyString(v, sentinel)
  }

  /** Fields seen under members of that name, in any line. */
  function FieldsSeen(log: seq<Json>, name: string, fields: set<string>): set<string> {
    set f | f in fields && SomeLine(log, Holding(HasKey(name, f)))
  }

  /** What the marks of a log say. */
  function MarksSeen(p: Provider, sentinel: string, log: seq<Json>): Marks {
    Marks(FieldsSeen(log, "usage", UsageFields(p)), FieldsSeen(log, "rate_limit_info", RATE_LIMIT_FIELDS),
          SomeLine(log, Holding(Identifies("request_id"))), SomeLine(log, Holding(Identifies("session_id"))),
          SomeLine(log, Holding(Identifies("thread_id"))), SomeLine(log, Showing(sentinel)),
          SomeLine(log, Holding(Strays("usage", KnownUsage(p)))),
          SomeLine(log, Holding(Strays("rate_limit_info", RATE_LIMIT_FIELDS))))
  }

  lemma FieldsSeenNext(log: seq<Json>, v: Json, name: string, fields: set<string>)
    ensures FieldsSeen(log + [v], name, fields) == FieldsSeen(log, name, fields) + FieldsUnder(v, name, fields)
  {
    forall f {
      SomeLineNext(log, v, Holding(HasKey(name, f)));
    }
  }

  lemma MarksSeenNext(p: Provider, sentinel: string, log: seq<Json>, v: Json)
    ensures MarksSeen(p, sentinel, log + [v]) == Merged(MarksSeen(p, sentinel, log), Occurring(p, sentinel, v))
  {
    FieldsSeenNext(log, v, "usage", UsageFields(p));
    FieldsSeenNext(log, v, "rate_limit_info", RATE_LIMIT_FIELDS);
    SomeLineNext(log, v, Holding(Identifies("request_id")));
    SomeLineNext(log, v, Holding(Identifies("session_id")));
    SomeLineNext(log, v, Holding(Identifies("thread_id")));
    SomeLineNext(log, v, Showing(sentinel));
    SomeLineNext(log, v, Holding(Strays("usage", KnownUsage(p))));
    SomeLineNext(log, v, Holding(Strays("rate_limit_info", RATE_LIMIT_FIELDS)));
  }

  ghost predicate CountsAre(p: Provider, counts: map<string, nat>, log: seq<Json>) {
    forall t :: if t in counts then counts[t] == LinesOfType(p, log, t) > 0 else LinesOfType(p, log, t) == 0
  }

  lemma CountsNext(p: Provider, counts: map<string, nat>, log: seq<Json>, v: Json)
    requires CountsAre(p, counts, log)
    ensures CountsAre(p, Counted(counts, EventType(p, v)), log + [v])
  {
    assert (log + [v])[..|log|] == log;
  }

  /** The summary of a log is exactly: per event type the number of its lines, the
      allowlisted fields seen under `usage` and `rate_limit_info`, the identifiers and the
      sentinel seen, and the reviews asked for by some line. */
  ghost predicate Tells(p: Provider, sentinel: string, log: seq<Json>, st: EventState) {
    && CountsAre(p, st.counts, log) && st.marks == MarksSeen(p, sentinel, log)
    && (st.typeReview <==> SomeLine(log, Untyped(p)))
    && (st.fieldReview <==> SomeLine(log, Unexpected(p)))
  }

  lemma TellsNext(p: Provider, sentinel: string, log: seq<Json>, st: EventState, v: Json)
    requires Tells(p, sentinel, log, st)
    ensures Tells(p, sentinel, log + [v], Step(p, sentinel, st, v))
  {
    CountsNext(p, st.counts, log, v);
    InspectMeaning(p, sentinel, v, st.marks);
    MarksSeenNext(p, sentinel, log, v);
    SomeLineNext(log, v, Untyped(p));
    SomeLineNext(log, v, Unexpected(p));
  }

  lemma {:induction false} SummaryTells(p: Provider, sentinel: string, log: seq<Json>)
    ensures Tells(p, sentinel, log, Summary(p, sentinel, log))
    decreases |log|
  {
    if log == [] {
      assert FieldsSeen(log, "usage", UsageFields(p)) == {};
      assert FieldsSeen(log, "rate_limit_info", RATE_LIMIT_FIELDS) == {};
    } else {
      var front, v := log[..|log| - 1], log[|log| - 1];
      assert log == front + [v];
      SummaryTells(p, sentinel, front);
      TellsNext(p, sentinel, front, Summary(p, sentinel, front), v);
    }
  }

  function Either(a: LineTest, b: LineTest): LineTest {
    v => a(v) || b(v)
  }

  lemma SomeLineEither(log: seq<Json>, a: LineTest, b: LineTest)
    ensures SomeLine(log, Either(a, b)) <==> SomeLine(log, a) || SomeLine(log, b)
  {
    if i :| 0 <= i < |log| && a(log[i]) {
      assert Either(a, b)(log[i]);
    }
    if i :| 0 <= i < |log| && b(log[i]) {
      assert Either(a, b)(log[i]);
    }
  }

  /** A line that asks for review: of no known type, with a member its type does not have,
      or with something else than allowed under `usage` or `rate_limit_info`, at any depth. */
  function AsksReview(p: Provider): LineTest {
    Either(Either(Untyped(p), Unexpected(p)),
           Either(Holding(Strays("usage", KnownUsage(p))), Holding(Strays("rate_limit_info", RATE_LIMIT_FIELDS))))
  }

  lemma ReviewMeans(p: Provider, log: seq<Json>)
    ensures SomeLine(log, AsksReview(p))
            <==> || SomeLine(log, Untyped(p)) || SomeLine(log, Unexpected(p))
                 || SomeLine(log, Holding(Strays("usage", KnownUsage(p))))
                 || SomeLine(log, Holding(Strays("rate_limit_info", RATE_LIMIT_FIELDS)))
  {
    var a, b := Holding(Strays("usage", KnownUsage(p))), Holding(Strays("rate_limit_info", RATE_LIMIT_FIELDS));
    SomeLineEither(log, Untyped(p), Unexpected(p));
    SomeLineEither(log, a, b);
    SomeLineEither(log, Either(Untyped(p), Unexpected(p)), Either(a, b));
  }

  /** The rest of the capture asks for an update by itself. */
  predicate CaptureAsks(c: Capture) {
    c.versionDiffers || c.debugShape || c.endpointReview || c.headerReview
  }

  lemma NoCategories(r: Review)
    ensures Categories(r) == []
            <==> !(r.version || r.eventType || r.eventField || r.usageField || r.rateLimitField
                   || r.debugShape || r.endpoint || r.header)
  {
  }

  /** An update is required exactly when the capture or some line of the log asks for it;
      otherwise there is no drift exactly when debug output, headers and endpoint were all
      observed. */
  lemma DecisionMeans(p: Provider, sentinel: string, log: seq<Json>, c: Capture)
    ensures var decision := Decide(Summary(p, sentinel, log), c);
            var asked := CaptureAsks(c) || SomeLine(log, AsksReview(p));
            && (decision == ImplementationUpdateRequired <==> asked)
            && (decision == NoDrift <==> !asked && c.structured && c.headersObserved && c.endpointObserved)
  {
    SummaryTells(p, sentinel, log);
    ReviewMeans(p, log);
    NoCategories(ReviewOf(Summary(p, sentinel, log), c));
  }
}
