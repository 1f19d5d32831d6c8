/** When does taking one member out of a line leave the drift summary alone? Answered for
    every member at every place, and so for what the capture is said to discard:
    `modelUsage`, and the ignored fields of `usage`. */
module DriftRemoval {
  import opened Bytes
  import opened DriftReducer
  import opened DriftPrivacy

  // ----- Places in a tree -----

  /** A tree with a hole, from the hole outwards. */
  datatype Context =
    | Top
    | InMember(outer: Context, before: seq<Member>, key: string, after: seq<Member>)
    | InItem(outer: Context, left: seq<Json>, right: seq<Json>)

  function Plug(ctx: Context, v: Json): Json {
    match ctx
    case Top => v
    case InMember(outer, a, key, b) => Plug(outer, Obj(a + [Member(key, v)] + b))
    case InItem(outer, xs, ys) => Plug(outer, Arr(xs + [v] + ys))
  }

  predicate Under(ctx: Context, key: string) {
    ctx.InMember? && ctx.key == key
  }

  // ----- Marks as a commutative idempotent monoid -----

  lemma MergedSwap(a: Marks, b: Marks, c: Marks)
    ensures Merged(a, Merged(b, c)) == Merged(b, Merged(a, c))
    ensures Merged(Merged(a, b), c) == Merged(a, Merged(b, c))
  {
  }

  lemma MergedOnto(a: Marks, b: Marks)
    ensures Merged(a, b) == b <==> MarksGrow(a, b)
  {
  }

  lemma MergedThree(a: Marks, b: Marks, c: Marks, d: Marks)
    ensures MarksGrow(Merged(a, b), c) <==> MarksGrow(a, c) && MarksGrow(b, c)
    ensures Merged(Merged(a, Merged(b, c)), d) == Merged(b, Merged(Merged(a, c), d))
  {
  }

  // ----- What one member adds -----

  /** The marks of a member and of all below it. */
  function Contribution(p: Provider, sentinel: string, m: Member): Marks {
    Merged(MemberMarks(p, m), Occurring(p, sentinel, m.value))
  }

  lemma OccurringFirst(p: Provider, sentinel: string, ms: seq<Member>)
    requires ms != []
    ensures Occurring(p, sentinel, Obj(ms))
            == Merged(Contribution(p, sentinel, ms[0]), Occurring(p, sentinel, Obj(ms[1..])))
  {
    OccurringCons(p, sentinel, ms);
    MemberMarksAreTests(p, ms[0]);
  }

  /** What is gathered from the front is gathered in any order. */
  lemma {:induction false} GatherInsert<X(!new)>(gather: seq<X> -> Marks, one: X -> Marks, a: seq<X>, x: X, b: seq<X>)
    requires forall xs :: xs != [] ==> gather(xs) == Merged(one(xs[0]), gather(xs[1..]))
    ensures gather(a + [x] + b) == Merged(one(x), gather(a + b))
    decreases |a|
  {
    var all := a + [x] + b;
    if a == [] {
      assert all[1..] == b && a + b == b;
    } else {
      assert all[1..] == a[1..] + [x] + b && (a + b)[1..] == a[1..] + b;
      GatherInsert(gather, one, a[1..], x, b);
      MergedSwap(one(a[0]), one(x), gather(a[1..] + b));
    }
  }

  /** Wherever a member stands, it adds its contribution. */
  lemma OccurringInsert(p: Provider, sentinel: string, a: seq<Member>, m: Member, b: seq<Member>)
    ensures Occurring(p, sentinel, Obj(a + [m] + b))
            == Merged(Contribution(p, sentinel, m), Occurring(p, sentinel, Obj(a + b)))
  {
    var gather := (ms: seq<Member>) => Occurring(p, sentinel, Obj(ms));
    var one := (m: Member) => Contribution(p, sentinel, m);
    forall ms: seq<Member> | ms != [] ensures gather(ms) == Merged(one(ms[0]), gather(ms[1..])) {
      OccurringFirst(p, sentinel, ms);
    }
    GatherInsert(gather, one, a, m, b);
  }

  lemma OccurringItemInsert(p: Provider, sentinel: string, xs: seq<Json>, v: Json, ys: seq<Json>)
    ensures Occurring(p, sentinel, Arr(xs + [v] + ys))
            == Merged(Occurring(p, sentinel, v), Occurring(p, sentinel, Arr(xs + ys)))
  {
    var gather := (vs: seq<Json>) => Occurring(p, sentinel, Arr(vs));
    var one := (v: Json) => Occurring(p, sentinel, v);
    forall vs: seq<Json> | vs != [] ensures gather(vs) == Merged(one(vs[0]), gather(vs[1..])) {
      OccurringItemCons(p, sentinel, vs);
    }
    GatherInsert(gather, one, xs, v, ys);
  }

  lemma KeysInsert(a: seq<Member>, m: Member, b: seq<Member>)
    ensures KeysOf(a + [m] + b) == KeysOf(a + b) + {m.key}
  {
    var all, rest := a + [m] + b, a + b;
    forall k | k in KeysOf(all) ensures k in KeysOf(rest) + {m.key} {
      var i :| 0 <= i < |all| && all[i].key == k;
      if i < |a| {
        assert rest[i].key == k;
      } else if i > |a| {
        assert rest[i - 1].key == k;
      }
    }
    assert all[|a|].key == m.key;
    forall k | k in KeysOf(rest) ensures k in KeysOf(all) {
      var i :| 0 <= i < |rest| && rest[i].key == k;
      assert all[if i < |a| then i else i + 1].key == k;
    }
  }

  /** What a key of an object means to the member that holds the object. */
  function KeyMarks(p: Provider, name: string, key: string): Marks {
    if name == "usage" then
      NO_MARKS.(usageFields := {key} * UsageFields(p),
                usageReview := key !in UsageFields(p) && key !in IgnoredUsageFields(p))
    else if name == "rate_limit_info" then
      NO_MARKS.(rateLimitFields := {key} * RATE_LIMIT_FIELDS, rateLimitReview := key !in RATE_LIMIT_FIELDS)
    else NO_MARKS
  }

  lemma UsageInsert(p: Provider, a: seq<Member>, m: Member, b: seq<Member>)
    ensures UsageMarks(p, Obj(a + [m] + b)) == Merged(KeyMarks(p, "usage", m.key), UsageMarks(p, Obj(a + b)))
  {
    KeysInsert(a, m, b);
    var keys, u, i := KeysOf(a + b), UsageFields(p), IgnoredUsageFields(p);
    assert (keys + {m.key}) * u == {m.key} * u + keys * u;
    assert (keys + {m.key}) - u - i == (keys - u - i) + ({m.key} - u - i);
    assert {m.key} - u - i != {} <==> m.key in {m.key} - u - i;
  }

  lemma RateLimitInsert(p: Provider, a: seq<Member>, m: Member, b: seq<Member>)
    ensures RateLimitMarks(Obj(a + [m] + b))
            == Merged(KeyMarks(p, "rate_limit_info", m.key), RateLimitMarks(Obj(a + b)))
  {
    KeysInsert(a, m, b);
    var keys, r := KeysOf(a + b), RATE_LIMIT_FIELDS;
    assert (keys + {m.key}) * r == {m.key} * r + keys * r;
    assert (keys + {m.key}) - r == (keys - r) + ({m.key} - r);
    assert {m.key} - r != {} <==> m.key in {m.key} - r;
  }

  lemma HolderInsert(p: Provider, name: string, a: seq<Member>, m: Member, b: seq<Member>)
    ensures MemberMarks(p, Member(name, Obj(a + [m] + b)))
            == Merged(KeyMarks(p, name, m.key), MemberMarks(p, Member(name, Obj(a + b))))
  {
    UsageInsert(p, a, m, b);
    RateLimitInsert(p, a, m, b);
    MergedNothing(MemberMarks(p, Member(name, Obj(a + b))));
  }

  /** All that a member adds to the marks of the tree it stands in. */
  function Added(p: Provider, sentinel: string, ctx: Context, m: Member): Marks {
    Merged(if ctx.InMember? then KeyMarks(p, ctx.key, m.key) else NO_MARKS, Contribution(p, sentinel, m))
  }

  /** Two values that mean the same to a member that holds them. */
  ghost predicate SameHeld(p: Provider, v: Json, w: Json) {
    forall name :: MemberMarks(p, Member(name, v)) == MemberMarks(p, Member(name, w))
  }

  lemma SameKeysHeld(p: Provider, a: seq<Member>, key: string, v: Json, w: Json, b: seq<Member>)
    ensures KeysOf(a + [Member(key, v)] + b) == KeysOf(a + [Member(key, w)] + b)
    ensures SameHeld(p, Obj(a + [Member(key, v)] + b), Obj(a + [Member(key, w)] + b))
  {
    KeysInsert(a, Member(key, v), b);
    KeysInsert(a, Member(key, w), b);
  }

  /** The first value has these marks beyond the second. */
  predicate Exceeds(p: Provider, sentinel: string, v: Json, w: Json, x: Marks) {
    Occurring(p, sentinel, v) == Merged(x, Occurring(p, sentinel, w))
  }

  /** Marks that one value has beyond another show in every place, and nothing else does. */
  lemma {:induction false} PlugAdds(p: Provider, sentinel: string, ctx: Context, v: Json, w: Json, x: Marks)
    requires Exceeds(p, sentinel, v, w, x) && SameHeld(p, v, w)
    ensures Exceeds(p, sentinel, Plug(ctx, v), Plug(ctx, w), x)
    decreases ctx
  {
    match ctx
    case Top =>
    case InMember(outer, a, key, b) =>
      MemberAdds(p, sentinel, a, key, v, w, b, x);
      SameKeysHeld(p, a, key, v, w, b);
      PlugAdds(p, sentinel, outer, Obj(a + [Member(key, v)] + b), Obj(a + [Member(key, w)] + b), x);
    case InItem(outer, xs, ys) =>
      ItemAdds(p, sentinel, xs, v, w, ys, x);
      ArraysHeld(p, xs + [v] + ys, xs + [w] + ys);
      PlugAdds(p, sentinel, outer, Arr(xs + [v] + ys), Arr(xs + [w] + ys), x);
  }

  lemma ItemAdds(p: Provider, sentinel: string, xs: seq<Json>, v: Json, w: Json, ys: seq<Json>, x: Marks)
    requires Exceeds(p, sentinel, v, w, x)
    ensures Exceeds(p, sentinel, Arr(xs + [v] + ys), Arr(xs + [w] + ys), x)
  {
    OccurringItemInsert(p, sentinel, xs, v, ys);
    OccurringItemInsert(p, sentinel, xs, w, ys);
    ExceedsMerged(p, sentinel, v, w, Arr(xs + ys), Arr(xs + [v] + ys), Arr(xs + [w] + ys), x);
  }

  lemma ArraysHeld(p: Provider, xs: seq<Json>, ys: seq<Json>)
    ensures SameHeld(p, Arr(xs), Arr(ys))
  {
  }

  lemma ExceedsMerged(p: Provider, sentinel: string, v: Json, w: Json, rest: Json, all: Json, other: Json, x: Marks)
    requires Exceeds(p, sentinel, v, w, x)
    requires Occurring(p, sentinel, all) == Merged(Occurring(p, sentinel, v), Occurring(p, sentinel, rest))
    requires Occurring(p, sentinel, other) == Merged(Occurring(p, sentinel, w), Occurring(p, sentinel, rest))
    ensures Exceeds(p, sentinel, all, other, x)
  {
    MergedSwap(x, Occurring(p, sentinel, w), Occurring(p, sentinel, rest));
  }

  lemma MemberAdds(p: Provider, sentinel: string, a: seq<Member>, key: string, v: Json, w: Json, b: seq<Member>,
                   x: Marks)
    requires Exceeds(p, sentinel, v, w, x) && SameHeld(p, v, w)
    ensures Exceeds(p, sentinel, Obj(a + [Member(key, v)] + b), Obj(a + [Member(key, w)] + b), x)
  {
    var held := MemberMarks(p, Member(key, w));
    assert MemberMarks(p, Member(key, v)) == held;
    OccurringInsert(p, sentinel, a, Member(key, v), b);
    OccurringInsert(p, sentinel, a, Member(key, w), b);
    MergedThree(held, x, Occurring(p, sentinel, w), Occurring(p, sentinel, Obj(a + b)));
  }

  /** The object that holds the changed object, when it is itself a member. */
  lemma HolderAdds(p: Provider, sentinel: string, ctx: Context, a: seq<Member>, m: Member, b: seq<Member>)
    requires ctx.InMember?
    ensures var v, w := Obj(a + [m] + b), Obj(a + b);
            Exceeds(p, sentinel, Obj(ctx.before + [Member(ctx.key, v)] + ctx.after),
                    Obj(ctx.before + [Member(ctx.key, w)] + ctx.after), Added(p, sentinel, ctx, m))
  {
    var v, w := Obj(a + [m] + b), Obj(a + b);
    var k, c := KeyMarks(p, ctx.key, m.key), Contribution(p, sentinel, m);
    var held, below := MemberMarks(p, Member(ctx.key, w)), Occurring(p, sentinel, w);
    OccurringInsert(p, sentinel, ctx.before, Member(ctx.key, v), ctx.after);
    OccurringInsert(p, sentinel, ctx.before, Member(ctx.key, w), ctx.after);
    OccurringInsert(p, sentinel, a, m, b);
    HolderInsert(p, ctx.key, a, m, b);
    MergedFour(k, held, c, below);
    MergedSwap(Merged(k, c), Merged(held, below), Occurring(p, sentinel, Obj(ctx.before + ctx.after)));
  }

  lemma MergedFour(a: Marks, b: Marks, c: Marks, d: Marks)
    ensures Merged(Merged(a, b), Merged(c, d)) == Merged(Merged(a, c), Merged(b, d))
  {
  }

  lemma ObjectAdds(p: Provider, sentinel: string, ctx: Context, a: seq<Member>, m: Member, b: seq<Member>)
    requires !ctx.InMember?
    ensures Exceeds(p, sentinel, Obj(a + [m] + b), Obj(a + b), Added(p, sentinel, ctx, m))
  {
    OccurringInsert(p, sentinel, a, m, b);
    MergedNothing(Contribution(p, sentinel, m));
  }

  /** In every place, a member adds exactly this to the marks of the whole tree. */
  lemma OccurringAdded(p: Provider, sentinel: string, ctx: Context, a: seq<Member>, m: Member, b: seq<Member>)
    ensures Exceeds(p, sentinel, Plug(ctx, Obj(a + [m] + b)), Plug(ctx, Obj(a + b)), Added(p, sentinel, ctx, m))
  {
    var v, w, x := Obj(a + [m] + b), Obj(a + b), Added(p, sentinel, ctx, m);
    match ctx
    case Top => ObjectAdds(p, sentinel, ctx, a, m, b);
    case InMember(outer, before, key, after) =>
      HolderAdds(p, sentinel, ctx, a, m, b);
      SameKeysHeld(p, before, key, v, w, after);
      PlugAdds(p, sentinel, outer, Obj(before + [Member(key, v)] + after), Obj(before + [Member(key, w)] + after), x);
    case InItem(outer, xs, ys) =>
      ObjectAdds(p, sentinel, ctx, a, m, b);
      ItemAdds(p, sentinel, xs, v, w, ys, x);
      ArraysHeld(p, xs + [v] + ys, xs + [w] + ys);
      PlugAdds(p, sentinel, outer, Arr(xs + [v] + ys), Arr(xs + [w] + ys), x);
  }

  // ----- The head of the line -----

  lemma {:induction false} GetInsert(a: seq<Member>, m: Member, b: seq<Member>, key: string)
    ensures Get(a + [m] + b, key)
            == if Get(a, key).Some? then Get(a, key) else if m.key == key then Some(m.value) else Get(b, key)
    ensures Get(a + b, key) == if Get(a, key).Some? then Get(a, key) else Get(b, key)
    decreases |a|
  {
    if a == [] {
      assert a + [m] + b == [m] + b && ([m] + b)[1..] == b && a + b == b;
    } else {
      GetInsert(a[1..], m, b, key);
      assert (a + [m] + b)[1..] == a[1..] + [m] + b && (a + b)[1..] == a[1..] + b;
    }
  }

  lemma HeadOfMember(p: Provider, a: seq<Member>, m: Member, b: seq<Member>)
    requires m.key != "type"
    ensures var v, w := Obj(a + [m] + b), Obj(a + b);
            && EventType(p, v) == EventType(p, w)
            && (UnexpectedField(p, v) <==> UnexpectedField(p, w) || m.key !in EventFields(p, EventType(p, w)))
  {
    GetInsert(a, m, b, "type");
    KeysInsert(a, m, b);
    var keys, known := KeysOf(a + b), EventFields(p, EventType(p, Obj(a + b)));
    assert (keys + {m.key}) - known == (keys - known) + ({m.key} - known);
    assert {m.key} - known != {} <==> m.key in {m.key} - known;
  }

  predicate SameHead(p: Provider, v: Json, w: Json) {
    EventType(p, v) == EventType(p, w) && (UnexpectedField(p, v) <==> UnexpectedField(p, w))
  }

  lemma SameHeadMember(p: Provider, a: seq<Member>, key: string, v: Json, w: Json, b: seq<Member>)
    requires !v.Str? && !w.Str?
    ensures SameHead(p, Obj(a + [Member(key, v)] + b), Obj(a + [Member(key, w)] + b))
  {
    GetInsert(a, Member(key, v), b, "type");
    GetInsert(a, Member(key, w), b, "type");
    SameKeysHeld(p, a, key, v, w, b);
  }

  /** Below the top, a change that leaves a value an object or an array does not reach
      the head of the line. */
  lemma {:induction false} NestedHead(p: Provider, ctx: Context, v: Json, w: Json)
    requires ctx != Top && !v.Str? && !w.Str?
    ensures SameHead(p, Plug(ctx, v), Plug(ctx, w))
    decreases ctx
  {
    match ctx
    case InMember(outer, a, key, b) =>
      SameHeadMember(p, a, key, v, w, b);
      if outer != Top {
        NestedHead(p, outer, Obj(a + [Member(key, v)] + b), Obj(a + [Member(key, w)] + b));
      }
    case InItem(outer, xs, ys) =>
      if outer != Top {
        NestedHead(p, outer, Arr(xs + [v] + ys), Arr(xs + [w] + ys));
      }
  }

  // ----- Replacing a line of a log -----

  /** Wherever the line stands in whatever log, the other gives the same summary. */
  ghost predicate Interchangeable(p: Provider, sentinel: string, v: Json, w: Json) {
    forall before, after ::
      Summary(p, sentinel, before + [v] + after) == Summary(p, sentinel, before + [w] + after)
  }

  lemma SummaryMove(p: Provider, sentinel: string, before: seq<Json>, v: Json, after: seq<Json>)
    ensures Summary(p, sentinel, before + [v] + after)
            == Stepper(p, sentinel)(Summary(p, sentinel, before + after), v)
  {
    StepsCommute(p, sentinel);
    FoldMove(Stepper(p, sentinel), NO_EVENTS, before, v, after);
  }

  lemma StepShows(p: Provider, sentinel: string, v: Json, w: Json)
    requires Stepper(p, sentinel)(NO_EVENTS, v) == Stepper(p, sentinel)(NO_EVENTS, w)
    ensures SameToStep(p, sentinel, v, w)
  {
    InspectMeaning(p, sentinel, v, NO_MARKS);
    InspectMeaning(p, sentinel, w, NO_MARKS);
    MergedNothing(Occurring(p, sentinel, v));
    MergedNothing(Occurring(p, sentinel, w));
    assert EventType(p, v) in Counted(map[], EventType(p, w));
  }

  lemma InterchangeMeaning(p: Provider, sentinel: string, v: Json, w: Json)
    ensures Interchangeable(p, sentinel, v, w) <==> SameToStep(p, sentinel, v, w)
  {
    if Interchangeable(p, sentinel, v, w) {
      assert Summary(p, sentinel, [] + [v] + []) == Summary(p, sentinel, [] + [w] + []);
      SummaryMove(p, sentinel, [], v, []);
      SummaryMove(p, sentinel, [], w, []);
      StepShows(p, sentinel, v, w);
    }
    if SameToStep(p, sentinel, v, w) {
      forall before, after
        ensures Summary(p, sentinel, before + [v] + after) == Summary(p, sentinel, before + [w] + after)
      {
        SummaryMove(p, sentinel, before, v, after);
        SummaryMove(p, sentinel, before, w, after);
        SameStep(p, sentinel, Summary(p, sentinel, before + after), v, w);
      }
    }
  }

  // ----- Removing a member -----

  /** At the top of a line the name must be expected, or the line be flagged anyway. */
  predicate HeadTolerates(p: Provider, ctx: Context, key: string, w: Json) {
    ctx.Top? ==> key in EventFields(p, EventType(p, w)) || UnexpectedField(p, w)
  }

  /** In every line of every log, a member other than the event type can be taken out
      unnoticed exactly when the rest of the line has all the marks it adds and, at the
      top, its name does not flag the line. */
  lemma MemberRemovable(p: Provider, sentinel: string, ctx: Context, a: seq<Member>, m: Member, b: seq<Member>)
    requires ctx.Top? ==> m.key != "type"
    ensures var v, w := Plug(ctx, Obj(a + [m] + b)), Plug(ctx, Obj(a + b));
            Interchangeable(p, sentinel, v, w)
            <==> MarksGrow(Added(p, sentinel, ctx, m), Occurring(p, sentinel, w)) && HeadTolerates(p, ctx, m.key, w)
  {
    var v, w := Plug(ctx, Obj(a + [m] + b)), Plug(ctx, Obj(a + b));
    InterchangeMeaning(p, sentinel, v, w);
    OccurringAdded(p, sentinel, ctx, a, m, b);
    MergedOnto(Added(p, sentinel, ctx, m), Occurring(p, sentinel, w));
    if ctx.Top? {
      HeadOfMember(p, a, m, b);
    } else {
      NestedHead(p, ctx, Obj(a + [m] + b), Obj(a + b));
    }
  }

  /** `modelUsage` is discarded exactly when nothing the walk looks for occurs inside it
      but not elsewhere in the line, and its own name is not flagged where it stands. */
  lemma ModelUsageDiscarded(p: Provider, sentinel: string, ctx: Context, a: seq<Member>, u: Json, b: seq<Member>)
    ensures var v, w := Plug(ctx, Obj(a + [Member("modelUsage", u)] + b)), Plug(ctx, Obj(a + b));
            Interchangeable(p, sentinel, v, w)
            <==> (&& MarksGrow(Occurring(p, sentinel, u), Occurring(p, sentinel, w))
                  && HeadTolerates(p, ctx, "modelUsage", w)
                  && (Under(ctx, "usage") ==> Occurring(p, sentinel, w).usageReview)
                  && (Under(ctx, "rate_limit_info") ==> Occurring(p, sentinel, w).rateLimitReview))
  {
    var m, w := Member("modelUsage", u), Plug(ctx, Obj(a + b));
    var k := if ctx.InMember? then KeyMarks(p, ctx.key, m.key) else NO_MARKS;
    MemberRemovable(p, sentinel, ctx, a, m, b);
    MergedNothing(Occurring(p, sentinel, u));
    MergedThree(k, Occurring(p, sentinel, u), Occurring(p, sentinel, w), NO_MARKS);
    ModelUsageKey(p, ctx);
  }

  lemma ModelUsageKey(p: Provider, ctx: Context)
    ensures forall u :: MemberMarks(p, Member("modelUsage", u)) == NO_MARKS
    ensures ctx.InMember? ==>
              KeyMarks(p, ctx.key, "modelUsage")
              == NO_MARKS.(usageReview := ctx.key == "usage", rateLimitReview := ctx.key == "rate_limit_info")
  {
  }

  /** A field of `usage` that is to be ignored is ignored exactly when nothing the walk
      looks for occurs inside it but not elsewhere in the line. */
  lemma IgnoredUsageDiscarded(p: Provider, sentinel: string, ctx: Context, a: seq<Member>, k: string, u: Json,
                              b: seq<Member>)
    requires Under(ctx, "usage") && k in IgnoredUsageFields(p)
    ensures var v, w := Plug(ctx, Obj(a + [Member(k, u)] + b)), Plug(ctx, Obj(a + b));
            Interchangeable(p, sentinel, v, w)
            <==> MarksGrow(Occurring(p, sentinel, u), Occurring(p, sentinel, w))
  {
    MemberRemovable(p, sentinel, ctx, a, Member(k, u), b);
    IgnoredKey(p, k, u);
    MergedNothing(Occurring(p, sentinel, u));
  }

  lemma IgnoredKey(p: Provider, k: string, u: Json)
    requires k in IgnoredUsageFields(p)
    ensures MemberMarks(p, Member(k, u)) == NO_MARKS && KeyMarks(p, "usage", k) == NO_MARKS
  {
  }

  // ----- In every line at once -----

  /** Taking the member out of this place is never noticed. */
  ghost predicate RemovableAt(p: Provider, sentinel: string, ctx: Context, a: seq<Member>, m: Member, b: seq<Member>) {
    Interchangeable(p, sentinel, Plug(ctx, Obj(a + [m] + b)), Plug(ctx, Obj(a + b)))
  }

  /** The name `modelUsage` is no news where it stands. */
  predicate Unflagged(p: Provider, ctx: Context, w: Json) {
    && (ctx.Top? ==> "modelUsage" in EventFields(p, EventType(p, w)))
    && !Under(ctx, "usage") && !Under(ctx, "rate_limit_info")
  }

  lemma GrowsFromNothing(x: Marks, y: Marks)
    ensures x == NO_MARKS ==> MarksGrow(x, y)
    ensures MarksGrow(x, NO_MARKS) ==> x == NO_MARKS
  {
  }

  /** An object that holds nothing else, as the `usage` of a line. */
  const BARE_USAGE := InMember(Top, [], "usage", [])

  /** And as the item of an array. */
  const BARE_ITEM := InItem(Top, [], [])

  lemma Alone<X>(x: X)
    ensures [] + [x] + [] == [x]
    ensures var none: seq<X> := []; none + none == none
  {
  }

  lemma BareUsageIsEmpty(p: Provider, sentinel: string, v: Json)
    requires v == Obj([])
    ensures Occurring(p, sentinel, Plug(BARE_USAGE, v)) == NO_MARKS
  {
    var m := Member("usage", v);
    Alone(m);
    OccurringFirst(p, sentinel, [m]);
    OccursNowhere(p, sentinel, v);
  }

  lemma BareItemIsEmpty(p: Provider, sentinel: string, v: Json)
    requires v == Obj([])
    ensures Occurring(p, sentinel, Plug(BARE_ITEM, v)) == NO_MARKS
  {
    Alone(v);
    OccurringItemCons(p, sentinel, [v]);
    OccursNowhere(p, sentinel, v);
    OccursNowhere(p, sentinel, Arr([]));
  }

  lemma IgnoredUsageHarmless(p: Provider, sentinel: string, ctx: Context, a: seq<Member>, k: string, u: Json,
                             b: seq<Member>)
    requires Under(ctx, "usage") && k in IgnoredUsageFields(p) && Occurring(p, sentinel, u) == NO_MARKS
    ensures RemovableAt(p, sentinel, ctx, a, Member(k, u), b)
  {
    IgnoredUsageDiscarded(p, sentinel, ctx, a, k, u, b);
    GrowsFromNothing(Occurring(p, sentinel, u), Occurring(p, sentinel, Plug(ctx, Obj(a + b))));
  }

  lemma IgnoredUsageAlone(p: Provider, sentinel: string, k: string, u: Json)
    requires k in IgnoredUsageFields(p) && RemovableAt(p, sentinel, BARE_USAGE, [], Member(k, u), [])
    ensures Occurring(p, sentinel, u) == NO_MARKS
  {
    IgnoredUsageDiscarded(p, sentinel, BARE_USAGE, [], k, u, []);
    Alone(Member(k, u));
    BareUsageIsEmpty(p, sentinel, Obj([] + []));
    GrowsFromNothing(Occurring(p, sentinel, u), NO_MARKS);
  }

  /** An ignored field of `usage` is ignored wherever the `usage` stands exactly when
      nothing the walk looks for occurs inside it. */
  lemma IgnoredUsageAlways(p: Provider, sentinel: string, k: string, u: Json)
    requires k in IgnoredUsageFields(p)
    ensures (forall ctx, a, b :: Under(ctx, "usage") ==> RemovableAt(p, sentinel, ctx, a, Member(k, u), b))
            <==> Occurring(p, sentinel, u) == NO_MARKS
  {
    if Occurring(p, sentinel, u) == NO_MARKS {
      forall ctx, a, b | Under(ctx, "usage") ensures RemovableAt(p, sentinel, ctx, a, Member(k, u), b) {
        IgnoredUsageHarmless(p, sentinel, ctx, a, k, u, b);
      }
    } else if RemovableAt(p, sentinel, BARE_USAGE, [], Member(k, u), []) {
      IgnoredUsageAlone(p, sentinel, k, u);
    }
  }

  lemma ModelUsageHarmless(p: Provider, sentinel: string, ctx: Context, a: seq<Member>, u: Json, b: seq<Member>)
    requires Unflagged(p, ctx, Plug(ctx, Obj(a + b))) && Occurring(p, sentinel, u) == NO_MARKS
    ensures RemovableAt(p, sentinel, ctx, a, Member("modelUsage", u), b)
  {
    ModelUsageDiscarded(p, sentinel, ctx, a, u, b);
    GrowsFromNothing(Occurring(p, sentinel, u), Occurring(p, sentinel, Plug(ctx, Obj(a + b))));
  }

  lemma ModelUsageAlone(p: Provider, sentinel: string, u: Json)
    requires RemovableAt(p, sentinel, BARE_ITEM, [], Member("modelUsage", u), [])
    ensures Occurring(p, sentinel, u) == NO_MARKS
  {
    ModelUsageDiscarded(p, sentinel, BARE_ITEM, [], u, []);
    Alone(Member("modelUsage", u));
    BareItemIsEmpty(p, sentinel, Obj([] + []));
    GrowsFromNothing(Occurring(p, sentinel, u), NO_MARKS);
  }

  /** `modelUsage` is discarded wherever its name is no news exactly when nothing the walk
      looks for occurs inside it. */
  lemma ModelUsageAlways(p: Provider, sentinel: string, u: Json)
    ensures (forall ctx, a, b :: Unflagged(p, ctx, Plug(ctx, Obj(a + b))) ==>
               RemovableAt(p, sentinel, ctx, a, Member("modelUsage", u), b))
            <==> Occurring(p, sentinel, u) == NO_MARKS
  {
    if Occurring(p, sentinel, u) == NO_MARKS {
      forall ctx, a, b | Unflagged(p, ctx, Plug(ctx, Obj(a + b)))
        ensures RemovableAt(p, sentinel, ctx, a, Member("modelUsage", u), b)
      {
        ModelUsageHarmless(p, sentinel, ctx, a, u, b);
      }
    } else {
      assert Unflagged(p, BARE_ITEM, Plug(BARE_ITEM, Obj([] + [])));
      if RemovableAt(p, sentinel, BARE_ITEM, [], Member("modelUsage", u), []) {
        ModelUsageAlone(p, sentinel, u);
      }
    }
  }

  // ----- Inputs that show it -----

  const RESULT := Member("type", Str("result"))

  /** Something below that the walk looks for. */
  const REQUEST := Obj([Member("request_id", Bool(true))])

  lemma OneLine(p: Provider, sentinel: string, v: Json)
    ensures Summary(p, sentinel, [v]).marks == Occurring(p, sentinel, v)
    ensures Summary(p, sentinel, [v]).fieldReview <==> UnexpectedField(p, v)
  {
    FoldNext(Stepper(p, sentinel), NO_EVENTS, [], v);
    assert [] + [v] == [v];
    InspectMeaning(p, sentinel, v, NO_MARKS);
    MergedNothing(Occurring(p, sentinel, v));
  }

  lemma RequestShows(p: Provider, sentinel: string)
    ensures Occurring(p, sentinel, REQUEST).requestId
  {
    assert Identifies("request_id")(REQUEST.members[0].key, REQUEST.members[0].value);
  }

  lemma ResultShowsNothing(p: Provider, sentinel: string)
    ensures !Occurring(p, sentinel, Obj([RESULT])).requestId
  {
    OccurringFirst(p, sentinel, [RESULT]);
  }

  lemma SecondAdds(p: Provider, sentinel: string, m: Member)
    ensures Occurring(p, sentinel, m.value).requestId ==> Occurring(p, sentinel, Obj([RESULT, m])).requestId
  {
    OccurringInsert(p, sentinel, [RESULT], m, []);
    assert [RESULT] + [m] + [] == [RESULT, m];
  }

  /** A request id inside the `modelUsage` of a result shows in the summary. */
  lemma ModelUsageShows(p: Provider, sentinel: string)
    ensures Summary(p, sentinel, [Obj([RESULT, Member("modelUsage", REQUEST)])]).marks.requestId
    ensures !Summary(p, sentinel, [Obj([RESULT])]).marks.requestId
  {
    var m := Member("modelUsage", REQUEST);
    RequestShows(p, sentinel);
    SecondAdds(p, sentinel, m);
    ResultShowsNothing(p, sentinel);
    OneLine(p, sentinel, Obj([RESULT, m]));
    OneLine(p, sentinel, Obj([RESULT]));
  }

  /** A request id inside an ignored field of `usage` shows as well. */
  lemma IgnoredUsageShows(sentinel: string)
    ensures "iterations" in IgnoredUsageFields(Claude)
    ensures Summary(Claude, sentinel, [Obj([RESULT, Member("usage", Obj([Member("iterations", REQUEST)]))])]).marks.requestId
    ensures !Summary(Claude, sentinel, [Obj([RESULT, Member("usage", Obj([]))])]).marks.requestId
  {
    var inner := [Member("iterations", REQUEST)];
    var full, bare := Member("usage", Obj(inner)), Member("usage", Obj([]));
    RequestShows(Claude, sentinel);
    OccurringFirst(Claude, sentinel, inner);
    SecondAdds(Claude, sentinel, full);
    OneLine(Claude, sentinel, Obj([RESULT, full]));
    OneLine(Claude, sentinel, Obj([RESULT, bare]));
    BareUsage(sentinel, bare);
  }

  lemma BareUsage(sentinel: string, bare: Member)
    requires bare == Member("usage", Obj([]))
    ensures !Occurring(Claude, sentinel, Obj([RESULT, bare])).requestId
  {
    OccurringInsert(Claude, sentinel, [RESULT], bare, []);
    assert [RESULT] + [bare] + [] == [RESULT, bare] && [RESULT] + [] == [RESULT];
    ResultShowsNothing(Claude, sentinel);
    OccursNowhere(Claude, sentinel, Obj([]));
  }

  const ASSISTANT := Member("type", Str("assistant"))

  lemma AssistantHead()
    ensures EventType(Claude, Obj([ASSISTANT])) == "assistant" && !UnexpectedField(Claude, Obj([ASSISTANT]))
    ensures "modelUsage" !in EventFields(Claude, "assistant")
  {
    Alone(ASSISTANT);
    KeysInsert([], ASSISTANT, []);
    assert KeysOf([ASSISTANT]) == {"type"} by {
      assert KeysOf([]) == {};
    }
  }

  lemma AssistantFlagged(m: Member)
    requires m.key == "modelUsage"
    ensures UnexpectedField(Claude, Obj([ASSISTANT, m]))
  {
    HeadOfMember(Claude, [ASSISTANT], m, []);
    assert [ASSISTANT] + [m] + [] == [ASSISTANT, m] && [ASSISTANT] + [] == [ASSISTANT];
    AssistantHead();
  }

  /** And in an event that does not expect it, the mere name shows. */
  lemma ModelUsageFlags(sentinel: string)
    ensures Occurring(Claude, sentinel, Null) == NO_MARKS
    ensures Summary(Claude, sentinel, [Obj([ASSISTANT, Member("modelUsage", Null)])]).fieldReview
    ensures !Summary(Claude, sentinel, [Obj([ASSISTANT])]).fieldReview
  {
    var m := Member("modelUsage", Null);
    OccursNowhere(Claude, sentinel, Null);
    AssistantHead();
    AssistantFlagged(m);
    OneLine(Claude, sentinel, Obj([ASSISTANT, m]));
    OneLine(Claude, sentinel, Obj([ASSISTANT]));
  }
}
