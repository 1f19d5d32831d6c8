/** The allowlist reducer for client event logs: a walk over arbitrary JSON that keeps
    only allowlisted names, the presence of three identifiers and whether the control
    sentinel was seen. */
module DriftReducer {
  import opened Bytes

  datatype Json =
    | Null | Bool(value: bool) | Num(text: string) | Str(s: string)
    | Arr(items: seq<Json>) | Obj(members: seq<Member>)

  /** An object is its members in order; their keys are distinct in parsed input. */
  datatype Member = Member(key: string, value: Json)

  datatype Provider = Claude | Codex

  // ----- Allowlists -----

  function UsageFields(p: Provider): set<string> {
    {"input_tokens", "output_tokens"} +
    (if p == Claude then {"cache_creation_input_tokens", "cache_read_input_tokens", "service_tier"}
     else {"cached_input_tokens", "reasoning_output_tokens"})
  }

  function IgnoredUsageFields(p: Provider): set<string> {
    if p == Codex then {}
    else {"cache_creation", "ephemeral_1h_input_tokens", "fast", "inference_geo", "iterations",
          "output_tokens_details", "server_tool_use", "speed", "web_search_requests"}
  }

  const RATE_LIMIT_FIELDS: set<string> :=
    {"rateLimitType", "status", "resetsAt", "isUsingOverage", "overageStatus", "overageDisabledReason"}

  function EventTypes(p: Provider): set<string> {
    if p == Claude then {"system", "assistant", "stream_event", "rate_limit_event", "result"}
    else {"thread.started", "turn.started", "item.completed", "turn.completed"}
  }

  function EventFields(p: Provider, t: string): set<string> {
    match p
    case Claude =>
      if t == "assistant" then {"message", "parent_tool_use_id", "request_id", "session_id", "type", "uuid"}
      else if t == "rate_limit_event" then {"rate_limit_info", "session_id", "type", "uuid"}
      else if t == "result" then
        {"api_error_status", "duration_api_ms", "duration_ms", "fast_mode_state", "is_error", "modelUsage",
         "num_turns", "permission_denials", "result", "session_id", "stop_reason", "subtype", "terminal_reason",
         "time_to_request_ms", "total_cost_usd", "ttft_ms", "ttft_stream_ms", "type", "usage", "uuid"}
      else if t == "stream_event" then {"event", "parent_tool_use_id", "session_id", "ttft_ms", "type", "uuid"}
      else if t == "system" then
        {"agents", "analytics_disabled", "apiKeySource", "capabilities", "claude_code_version", "cwd", "exit_code",
         "fast_mode_state", "hook_event", "hook_id", "hook_name", "mcp_servers", "memory_paths", "model", "outcome",
         "output", "output_style", "permissionMode", "plugins", "product_feedback_disabled", "session_id", "skills",
         "slash_commands", "status", "stderr", "stdout", "subtype", "tools", "type", "uuid"}
      else {}
    case Codex =>
      if t == "item.completed" then {"item", "type"}
      else if t == "thread.started" then {"thread_id", "type"}
      else if t == "turn.completed" then {"type", "usage"}
      else if t == "turn.started" then {"type"}
      else {}
  }

  // ----- What the walk records -----

  /** The marks left by the walk over event values. */
  datatype Marks = Marks(
    usageFields: set<string>, rateLimitFields: set<string>,
    requestId: bool, sessionId: bool, threadId: bool, sentinel: bool,
    usageReview: bool, rateLimitReview: bool)

  const NO_MARKS := Marks({}, {}, false, false, false, false, false, false)

  function Merged(a: Marks, b: Marks): Marks {
    Marks(a.usageFields + b.usageFields, a.rateLimitFields + b.rateLimitFields,
          a.requestId || b.requestId, a.sessionId || b.sessionId, a.threadId || b.threadId,
          a.sentinel || b.sentinel, a.usageReview || b.usageReview, a.rateLimitReview || b.rateLimitReview)
  }

  predicate Contains(s: string, sub: string) {
    sub <= s || (s != [] && Contains(s[1..], sub))
  }

  function KeysOf(members: seq<Member>): set<string> {
    set i | 0 <= i < |members| :: members[i].key
  }

  /** `inspect_usage` */
  function UsageMarks(p: Provider, value: Json): Marks {
    if !value.Obj? then NO_MARKS.(usageReview := true)
    else
      var keys := KeysOf(value.members);
      NO_MARKS.(usageFields := keys * UsageFields(p),
                usageReview := keys - UsageFields(p) - IgnoredUsageFields(p) != {})
  }

  /** `inspect_rate_limit` */
  function RateLimitMarks(value: Json): Marks {
    if !value.Obj? then NO_MARKS.(rateLimitReview := true)
    else
      var keys := KeysOf(value.members);
      NO_MARKS.(rateLimitFields := keys * RATE_LIMIT_FIELDS, rateLimitReview := keys - RATE_LIMIT_FIELDS != {})
  }

  /** The arm of the match on a key. */
  function MemberMarks(p: Provider, m: Member): Marks {
    if m.key == "request_id" then NO_MARKS.(requestId := m.value != Null)
    else if m.key == "session_id" then NO_MARKS.(sessionId := m.value != Null)
    else if m.key == "thread_id" then NO_MARKS.(threadId := m.value != Null)
    else if m.key == "usage" then UsageMarks(p, m.value)
    else if m.key == "rate_limit_info" then RateLimitMarks(m.value)
    else NO_MARKS
  }

  /** `inspect_event_value`: every value is walked into, whatever its key. */
  function Inspect(p: Provider, sentinel: string, value: Json, marks: Marks): Marks
    decreases value, 1
  {
    match value
    case Obj(members) => InspectMembers(p, sentinel, members, marks)
    case Arr(items) => InspectItems(p, sentinel, items, marks)
    case Str(s) => marks.(sentinel := marks.sentinel || Contains(s, sentinel))
    case _ => marks
  }

  function InspectMembers(p: Provider, sentinel: string, members: seq<Member>, marks: Marks): Marks
    decreases members, 0
  {
    if members == [] then marks
    else
      var next := Inspect(p, sentinel, members[0].value, Merged(marks, MemberMarks(p, members[0])));
      InspectMembers(p, sentinel, members[1..], next)
  }

  function InspectItems(p: Provider, sentinel: string, items: seq<Json>, marks: Marks): Marks
    decreases items, 0
  {
    if items == [] then marks
    else InspectItems(p, sentinel, items[1..], Inspect(p, sentinel, items[0], marks))
  }

  // ----- One line, and a log -----

  function Get(members: seq<Member>, key: string): Option<Json> {
    if members == [] then None
    else if members[0].key == key then Some(members[0].value)
    else Get(members[1..], key)
  }

  function EventType(p: Provider, value: Json): string {
    if !value.Obj? then "unknown"
    else
      var t := Get(value.members, "type");
      if t.Some? && t.value.Str? && t.value.s in EventTypes(p) then t.value.s else "unknown"
  }

  predicate UnexpectedField(p: Provider, value: Json) {
    !value.Obj? || KeysOf(value.members) - EventFields(p, EventType(p, value)) != {}
  }

  datatype EventState = EventState(counts: map<string, nat>, marks: Marks, typeReview: bool, fieldReview: bool)

  const NO_EVENTS := EventState(map[], NO_MARKS, false, false)

  function Counted(counts: map<string, nat>, t: string): map<string, nat> {
    counts[t := (if t in counts then counts[t] else 0) + 1]
  }

  function Step(p: Provider, sentinel: string, st: EventState, value: Json): EventState {
    var t := EventType(p, value);
    EventState(Counted(st.counts, t), Inspect(p, sentinel, value, st.marks),
               st.typeReview || t == "unknown", st.fieldReview || UnexpectedField(p, value))
  }

  function Fold<S, X>(g: (S, X) -> S, s: S, xs: seq<X>): S {
    if xs == [] then s else g(Fold(g, s, xs[..|xs| - 1]), xs[|xs| - 1])
  }

  function Stepper(p: Provider, sentinel: string): (EventState, Json) -> EventState {
    (st: EventState, v: Json) => Step(p, sentinel, st, v)
  }

  /** The event part of the summary of a log that parses. */
  function Summary(p: Provider, sentinel: string, log: seq<Json>): EventState {
    Fold(Stepper(p, sentinel), NO_EVENTS, log)
  }

  // ----- The reduction state as the object it is -----

  datatype Line = Blank | TooLong | Malformed | Parsed(value: Json)

  function Values(lines: seq<Line>): seq<Json> {
    if lines == [] then []
    else
      var front, last := Values(lines[..|lines| - 1]), lines[|lines| - 1];
      if last.Parsed? then front + [last.value] else front
  }

  predicate Readable(lines: seq<Line>) {
    forall i :: 0 <= i < |lines| ==> lines[i].Blank? || lines[i].Parsed?
  }

  /** The number of a refused line, from one, and what it is. */
  datatype LineError = LineError(line: nat, what: Line)

  predicate FirstUnreadable(lines: seq<Line>, e: LineError) {
    && 0 < e.line <= |lines| && Readable(lines[..e.line - 1])
    && lines[e.line - 1] == e.what && (e.what.TooLong? || e.what.Malformed?)
  }

  class ReductionState {
    const provider: Provider
    const sentinel: string
    var counts: map<string, nat>
    var usageFields: set<string>
    var rateLimitFields: set<string>
    var requestId: bool
    var sessionId: bool
    var threadId: bool
    var sentinelObserved: bool
    var usageReview: bool
    var rateLimitReview: bool
    var typeReview: bool
    var fieldReview: bool

    function TheMarks(): Marks
      reads this
    {
      Marks(usageFields, rateLimitFields, requestId, sessionId, threadId, sentinelObserved, usageReview, rateLimitReview)
    }

    function View(): EventState
      reads this
    {
      EventState(counts, TheMarks(), typeReview, fieldReview)
    }

    constructor (provider: Provider, sentinel: string)
      ensures this.provider == provider && this.sentinel == sentinel && View() == NO_EVENTS
    {
      this.provider, this.sentinel := provider, sentinel;
      counts, usageFields, rateLimitFields := map[], {}, {};
      requestId, sessionId, threadId, sentinelObserved := false, false, false, false;
      usageReview, rateLimitReview, typeReview, fieldReview := false, false, false, false;
    }

    method InspectUsage(value: Json)
      modifies `usageFields, `usageReview
      ensures TheMarks() == Merged(old(TheMarks()), UsageMarks(provider, value))
    {
      if !value.Obj? {
        usageReview := true;
        return;
      }
      var members := value.members;
      for i := 0 to |members|
        invariant usageFields == old(usageFields) + KeysOf(members[..i]) * UsageFields(provider)
        invariant usageReview
                  <==> old(usageReview)
                       || KeysOf(members[..i]) - UsageFields(provider) - IgnoredUsageFields(provider) != {}
      {
        KeysNext(members, i);
        var key := members[i].key;
        if key in UsageFields(provider) {
          usageFields := usageFields + {key};
        } else if key !in IgnoredUsageFields(provider) {
          usageReview := true;
          assert key in KeysOf(members[..i + 1]) - UsageFields(provider) - IgnoredUsageFields(provider);
        }
      }
      assert members[..|members|] == members;
    }

    method InspectRateLimit(value: Json)
      modifies `rateLimitFields, `rateLimitReview
      ensures TheMarks() == Merged(old(TheMarks()), RateLimitMarks(value))
    {
      if !value.Obj? {
        rateLimitReview := true;
        return;
      }
      var members := value.members;
      for i := 0 to |members|
        invariant rateLimitFields == old(rateLimitFields) + KeysOf(members[..i]) * RATE_LIMIT_FIELDS
        invariant rateLimitReview <==> old(rateLimitReview) || KeysOf(members[..i]) - RATE_LIMIT_FIELDS != {}
      {
        KeysNext(members, i);
        var key := members[i].key;
        if key in RATE_LIMIT_FIELDS {
          rateLimitFields := rateLimitFields + {key};
        } else {
          rateLimitReview := true;
          assert key in KeysOf(members[..i + 1]) - RATE_LIMIT_FIELDS;
        }
      }
      assert members[..|members|] == members;
    }

    method InspectKey(m: Member)
      modifies this
      ensures View() == old(View()).(marks := Merged(old(TheMarks()), MemberMarks(provider, m)))
    {
      if m.key == "request_id" {
        requestId := requestId || m.value != Null;
      } else if m.key == "session_id" {
        sessionId := sessionId || m.value != Null;
      } else if m.key == "thread_id" {
        threadId := threadId || m.value != Null;
      } else if m.key == "usage" {
        InspectUsage(m.value);
      } else if m.key == "rate_limit_info" {
        InspectRateLimit(m.value);
      }
    }

    method InspectEventValue(value: Json)
      modifies this
      ensures View() == old(View()).(marks := Inspect(provider, sentinel, value, old(TheMarks())))
      decreases value
    {
      match value {
        case Obj(members) =>
          var i := 0;
          while i < |members|
            invariant 0 <= i <= |members|
            invariant View() == old(View()).(marks := TheMarks())
            invariant InspectMembers(provider, sentinel, members, old(TheMarks()))
                      == InspectMembers(provider, sentinel, members[i..], TheMarks())
          {
            assert members[i..][1..] == members[i + 1..];
            InspectKey(members[i]);
            InspectEventValue(members[i].value);
            i := i + 1;
          }
        case Arr(items) =>
          var i := 0;
          while i < |items|
            invariant 0 <= i <= |items|
            invariant View() == old(View()).(marks := TheMarks())
            invariant InspectItems(provider, sentinel, items, old(TheMarks()))
                      == InspectItems(provider, sentinel, items[i..], TheMarks())
          {
            assert items[i..][1..] == items[i + 1..];
            InspectEventValue(items[i]);
            i := i + 1;
          }
        case Str(s) => sentinelObserved := sentinelObserved || Contains(s, sentinel);
        case _ =>
      }
    }

    method InspectLine(value: Json)
      modifies this
      ensures View() == Stepper(provider, sentinel)(old(View()), value)
    {
      var t := EventType(provider, value);
      typeReview := typeReview || t == "unknown";
      fieldReview := fieldReview || UnexpectedField(provider, value);
      counts := Counted(counts, t);
      InspectEventValue(value);
    }

    /** One round of the loop over lines. */
    method InspectNext(line: Line) returns (ok: bool)
      modifies this
      ensures ok <==> line.Blank? || line.Parsed?
      ensures View() == if line.Parsed? then Stepper(provider, sentinel)(old(View()), line.value) else old(View())
    {
      if line.Parsed? {
        InspectLine(line.value);
      }
      ok := line.Blank? || line.Parsed?;
    }

    /** `inspect_events`: stops at the first unreadable line. */
    method InspectEvents(lines: seq<Line>) returns (error: Option<LineError>)
      modifies this
      ensures error.None? <==> Readable(lines)
      ensures error.None? ==> View() == Fold(Stepper(provider, sentinel), old(View()), Values(lines))
      ensures error.Some? ==>
                && FirstUnreadable(lines, error.value)
                && View() == Fold(Stepper(provider, sentinel), old(View()), Values(lines[..error.value.line - 1]))
    {
      ghost var g, start := Stepper(provider, sentinel), View();
      for i := 0 to |lines|
        invariant Readable(lines[..i])
        invariant View() == Fold(g, start, Values(lines[..i]))
      {
        FoldLine(g, start, lines, i);
        ReadableNext(lines, i);
        var ok := InspectNext(lines[i]);
        if !ok {
          return Some(LineError(i + 1, lines[i]));
        }
      }
      assert lines[..|lines|] == lines;
      error := None;
    }
  }

  lemma FoldLine<S>(g: (S, Json) -> S, s: S, lines: seq<Line>, i: nat)
    requires i < |lines|
    ensures Fold(g, s, Values(lines[..i + 1]))
            == if lines[i].Parsed? then g(Fold(g, s, Values(lines[..i])), lines[i].value)
               else Fold(g, s, Values(lines[..i]))
  {
    ValuesNext(lines, i);
    if lines[i].Parsed? {
      FoldNext(g, s, Values(lines[..i]), lines[i].value);
    }
  }

  lemma KeysNext(members: seq<Member>, i: nat)
    requires i < |members|
    ensures KeysOf(members[..i + 1]) == KeysOf(members[..i]) + {members[i].key}
  {
  }

  lemma ReadableNext(lines: seq<Line>, i: nat)
    requires i < |lines| && Readable(lines[..i])
    ensures Readable(lines[..i + 1]) <==> lines[i].Blank? || lines[i].Parsed?
    ensures !(lines[i].Blank? || lines[i].Parsed?) ==>
              !Readable(lines) && FirstUnreadable(lines, LineError(i + 1, lines[i]))
  {
  }

  lemma ValuesNext(lines: seq<Line>, i: nat)
    requires i < |lines|
    ensures Values(lines[..i + 1])
            == if lines[i].Parsed? then Values(lines[..i]) + [lines[i].value] else Values(lines[..i])
  {
    assert lines[..i + 1][..i] == lines[..i];
  }

  lemma FoldNext<S, X>(g: (S, X) -> S, s: S, xs: seq<X>, x: X)
    ensures Fold(g, s, xs + [x]) == g(Fold(g, s, xs), x)
  {
    assert (xs + [x])[..|xs|] == xs;
  }
}
