/** Exactly which runs the progressive-search reducer accepts, and what they leave, said
    of the events alone. */
module ProgressiveAcceptance {
  import opened Bytes
  import opened ProgressiveReducer
  import opened ProgressiveRuns

  type Digest = ProgressiveRuns.Digest

  // ----- What the events of a run say -----

  /** The activities: the ids of the stage events. */
  function Ids(es: seq<Event>): set<string>
    decreases |es|
  {
    if es == [] then {}
    else Ids(Init(es)) + (if Last(es).StageProgress? then {Last(es).activityId} else {})
  }

  predicate Updates(e: Event, id: string) {
    e.StageProgress? && e.activityId == id
  }

  function StageCount(es: seq<Event>, id: string): nat
    decreases |es|
  {
    if es == [] then 0 else StageCount(Init(es), id) + (if Updates(Last(es), id) then 1 else 0)
  }

  /** The status last reported for a stage. */
  function StatusOf(es: seq<Event>, id: string, g: Stage): Option<Status>
    decreases |es|
  {
    if es == [] then None
    else if Updates(Last(es), id) && Last(es).stage == g then Some(Last(es).status)
    else StatusOf(Init(es), id, g)
  }

  /** The partials that carry the next sequence number of their activity; the others
      repeat an earlier one. */
  function Fresh(es: seq<Event>, id: string): seq<Event>
    decreases |es|
  {
    if es == [] then []
    else
      var before, e := Fresh(Init(es), id), Last(es);
      if e.PartialResult? && e.activityId == id && e.sequence == |before| then before + [e] else before
  }

  function Carried(partials: seq<Event>): seq<Item> {
    if partials == [] then []
    else Carried(partials[..|partials| - 1])
         + (if partials[|partials| - 1].PartialResult? then partials[|partials| - 1].items else [])
  }

  /** The items the fresh partials of an activity carried so far. */
  function Seen(es: seq<Event>, id: string): seq<Item> {
    Carried(Fresh(es, id))
  }

  predicate Open(es: seq<Event>) {
    forall i :: 0 <= i < |es| ==> !es[i].Done?
  }

  // ----- When one more event is accepted -----

  predicate Earlier(es: seq<Event>, id: string, g: Stage, wanted: set<Status>) {
    forall h: Stage :: h.Index() < g.Index() ==> StatusOf(es, id, h).Some? && StatusOf(es, id, h).value in wanted
  }

  const ANY := {Queued, Running, Complete, Failed, Skipped, Cancelled}
  const CLOSED := {Complete, Failed, Skipped, Cancelled}

  /** A stage is queued once those before it are known; runs once they are complete; is
      given up once they are closed; from running it may be completed or given up; and any
      status but the way back may be repeated. */
  predicate MayReport(es: seq<Event>, id: string, g: Stage, status: Status) {
    var now := StatusOf(es, id, g);
    now == Some(status) ||
    match status
    case Queued => now == None && Earlier(es, id, g, ANY)
    case Running => now == Some(Queued) && Earlier(es, id, g, {Complete})
    case Complete => now == Some(Running)
    case _ => now == Some(Running) || (now == Some(Queued) && Earlier(es, id, g, CLOSED))
  }

  predicate MayUpdate(es: seq<Event>, e: Event)
    requires e.StageProgress?
  {
    && (e.activityId in Ids(es) || |Ids(es)| < 4)
    && StageCount(es, e.activityId) < 256
    && MayReport(es, e.activityId, e.stage, e.status)
  }

  /** A repeated partial must have the digest of the fresh one with its number; a fresh
      one comes next, while its stage runs, adds new keys and enriches known ones. */
  predicate MayCarry(digest: Digest, es: seq<Event>, e: Event)
    requires e.PartialResult?
  {
    var id, first := e.activityId, Fresh(es, e.activityId);
    && id in Ids(es)
    && if e.sequence < |first| then digest(e) == digest(first[e.sequence])
       else
         && e.sequence == |first| < 64
         && StatusOf(es, id, e.stage) == Some(Running)
         && NewKeys(KeySet(Seen(es, id)), e.items)
  }

  predicate Admissible(digest: Digest, es: seq<Event>, e: Event) {
    && |es| < 4096 && Open(es)
    && (e.StageProgress? ==> MayUpdate(es, e))
    && (e.PartialResult? ==> MayCarry(digest, es, e))
  }

  // ----- The state is what the events say -----

  predicate StagesAre(act: Activity, es: seq<Event>, id: string) {
    && act.stageUpdates == StageCount(es, id)
    && forall g: Stage :: Lookup(act.stages, g) == StatusOf(es, id, g)
  }

  ghost predicate ActivitiesAre(s: State, es: seq<Event>) {
    && (forall id :: id in s.activities <==> id in Ids(es))
    && forall id :: StagesAre(ActivityOf(s, id), es, id)
  }

  /** The activity after an event, as far as its stages go. */
  predicate StageEffect(s: State, e: Event, t: State, id: string) {
    if Updates(e, id) then
      id in t.activities && t.activities[id] == WithStage(ActivityOf(s, id), e.stage, e.status)
    else
      && (id in s.activities <==> id in t.activities)
      && ActivityOf(t, id).stages == ActivityOf(s, id).stages
      && ActivityOf(t, id).stageUpdates == ActivityOf(s, id).stageUpdates
  }

  function ActivityOf(s: State, id: string): Activity {
    if id in s.activities then s.activities[id] else NEW_ACTIVITY
  }

  lemma PartialEffect(digest: Digest, s: State, e: Event, id: string)
    requires e.PartialResult? && Accept(digest, s, e).error.None?
    ensures StageEffect(s, e, Accept(digest, s, e).state, id)
  {
    if Replayed(s, e) {
    } else {
      var m := FreshEffect(digest, s, e);
    }
  }

  /** What an accepted event does to the stages of an activity. */
  lemma StagesNext(digest: Digest, s: State, e: Event, id: string)
    requires Accept(digest, s, e).error.None?
    ensures StageEffect(s, e, Accept(digest, s, e).state, id)
  {
    if e.PartialResult? {
      PartialEffect(digest, s, e, id);
    }
  }

  lemma HistoryNext(es: seq<Event>, e: Event, id: string)
    ensures Ids(es + [e]) == Ids(es) + (if e.StageProgress? then {e.activityId} else {})
    ensures StageCount(es + [e], id) == StageCount(es, id) + (if Updates(e, id) then 1 else 0)
    ensures forall g: Stage :: StatusOf(es + [e], id, g)
                               == if Updates(e, id) && e.stage == g then Some(e.status) else StatusOf(es, id, g)
    ensures Fresh(es + [e], id)
            == if e.PartialResult? && e.activityId == id && e.sequence == |Fresh(es, id)| then Fresh(es, id) + [e]
               else Fresh(es, id)
  {
    assert Init(es + [e]) == es && Last(es + [e]) == e;
  }

  lemma StagesAreNext(s: State, t: State, es: seq<Event>, e: Event, id: string)
    requires StageEffect(s, e, t, id) && StagesAre(ActivityOf(s, id), es, id)
    requires id in s.activities <==> id in Ids(es)
    ensures StagesAre(ActivityOf(t, id), es + [e], id)
    ensures id in t.activities <==> id in Ids(es + [e])
  {
    HistoryNext(es, e, id);
  }

  lemma {:induction false} ActivitiesInRun(digest: Digest, es: seq<Event>)
    requires Accepted(digest, es)
    ensures ActivitiesAre(Result(digest, es), es)
    decreases |es|
  {
    if es == [] {
    } else {
      var front, e := Init(es), Last(es);
      assert es == front + [e];
      ActivitiesInRun(digest, front);
      var s, t := Result(digest, front), Result(digest, es);
      forall id ensures StagesAre(ActivityOf(t, id), es, id) && (id in t.activities <==> id in Ids(es)) {
        StagesNext(digest, s, e, id);
        StagesAreNext(s, t, front, e, id);
      }
    }
  }

  /** The run is over exactly when it has a done. */
  lemma {:induction false} OpenInRun(digest: Digest, es: seq<Event>)
    requires Accepted(digest, es)
    ensures Result(digest, es).terminalReason.None? <==> Open(es)
    decreases |es|
  {
    if es == [] {
    } else {
      OpenInRun(digest, Init(es));
      KindsNext(digest, Result(digest, Init(es)), Last(es));
      assert es == Init(es) + [Last(es)];
    }
  }

  // ----- Fresh partials -----

  lemma PartialNext(digest: Digest, es: seq<Event>, e: Event, id: string)
    requires Accepted(digest, es) && Accepted(digest, es + [e])
    requires Fresh(es, id) == PartialsOf(Purge(digest, es), id)
    requires e.PartialResult? && e.activityId == id
    ensures Replayed(Result(digest, es), e) <==> e.sequence != |Fresh(es, id)|
  {
    RunNext(digest, es, e);
    RecordedDigests(digest, es, id);
    var s := Result(digest, es);
    if !Replayed(s, e) {
      var m := FreshEffect(digest, s, e);
    }
  }

  /** Purging replays by the state is keeping the partials that come next. */
  lemma {:induction false} FreshArePurged(digest: Digest, es: seq<Event>, id: string)
    requires Accepted(digest, es)
    ensures Fresh(es, id) == PartialsOf(Purge(digest, es), id)
    ensures Seen(es, id) == ItemsOf(Purge(digest, es), id)
    decreases |es|
  {
    if es == [] {
    } else {
      var front, e := Init(es), Last(es);
      assert es == front + [e];
      FreshArePurged(digest, front, id);
      var p := Purge(digest, front);
      HistoryNext(front, e, id);
      PurgeNext(digest, front, e);
      if e.PartialResult? && e.activityId == id {
        PartialNext(digest, front, e, id);
      }
      PurgedNext(p, e, id);
      CarriedNext(Fresh(front, id), e);
    }
  }

  lemma PurgedNext(p: seq<Event>, e: Event, id: string)
    ensures PartialsOf(p + [e], id) == PartialsOf(p, id) + (if e.PartialResult? && e.activityId == id then [e] else [])
    ensures ItemsOf(p + [e], id) == ItemsOf(p, id) + (if e.PartialResult? && e.activityId == id then e.items else [])
  {
    assert Init(p + [e]) == p && Last(p + [e]) == e;
  }

  lemma CarriedNext(partials: seq<Event>, e: Event)
    ensures Carried(partials + [e]) == Carried(partials) + (if e.PartialResult? then e.items else [])
  {
    assert (partials + [e])[..|partials|] == partials;
  }

  // ----- Stage events -----

  /** The stage rules of the code, and the invariant of runs, on statuses alone. */
  predicate ClosedBelow(stages: map<Stage, Status>) {
    forall g: Stage, h: Stage :: h.Index() < g.Index() && g in stages && stages[g].Terminal() ==>
      h in stages && stages[h].Terminal()
  }

  ghost predicate AllClosedBelow(s: State) {
    forall id :: id in s.activities ==> ClosedBelow(s.activities[id].stages)
  }

  lemma ClosedBelowKept(act: Activity, stage: Stage, status: Status)
    requires ClosedBelow(act.stages) && StageError(act, stage, status).None?
    ensures ClosedBelow(act.stages[stage := status])
  {
    var next := act.stages[stage := status];
    forall g: Stage, h: Stage | h.Index() < g.Index() && g in next && next[g].Terminal()
      ensures h in next && next[h].Terminal()
    {
      assert h.Index() < stage.Index() ==> PriorOk(Lookup(act.stages, h), status);
    }
  }

  lemma {:induction false} ClosedBelowInRun(digest: Digest, es: seq<Event>)
    requires Accepted(digest, es)
    ensures AllClosedBelow(Result(digest, es))
    decreases |es|
  {
    if es == [] {
    } else {
      ClosedBelowInRun(digest, Init(es));
      var s, e, t := Result(digest, Init(es)), Last(es), Result(digest, es);
      forall id | id in t.activities ensures ClosedBelow(t.activities[id].stages) {
        StagesNext(digest, s, e, id);
        if Updates(e, id) {
          ClosedBelowKept(ActivityOf(s, id), e.stage, e.status);
        }
      }
    }
  }

  lemma EarlierMeans(es: seq<Event>, id: string, act: Activity, g: Stage, status: Status)
    requires StagesAre(act, es, id)
    ensures Ordered(act.stages, g, status)
            <==> Earlier(es, id, g, match status case Queued => ANY case Running => {Complete} case _ => CLOSED)
  {
    forall h: Stage
      ensures PriorOk(Lookup(act.stages, h), status)
              <==> (&& StatusOf(es, id, h).Some?
                    && StatusOf(es, id, h).value in (match status case Queued => ANY case Running => {Complete} case _ => CLOSED))
    {
      assert Lookup(act.stages, h) == StatusOf(es, id, h);
      if h in act.stages {
        StatusSets(act.stages[h]);
      }
    }
  }

  lemma StatusSets(s: Status)
    ensures s in ANY && (s.Terminal() <==> s in CLOSED)
  {
    match s
    case Queued => case Running => case Complete => case Failed => case Skipped => case Cancelled =>
  }

  /** What a known stage says about those before it. */
  lemma KnownStage(act: Activity, g: Stage)
    requires StagesOk(act.stages) && ClosedBelow(act.stages) && g in act.stages
    ensures Ordered(act.stages, g, act.stages[g])
    ensures act.stages[g] == Running ==> forall status: Status :: Ordered(act.stages, g, status)
  {
    forall h: Stage | h.Index() < g.Index()
      ensures PriorOk(Lookup(act.stages, h), act.stages[g])
      ensures act.stages[g] == Running ==> Lookup(act.stages, h) == Some(Complete)
    {
      assert h in act.stages;
    }
  }

  /** With what holds of every run, the two rules of the code are the one above. */
  lemma RulesAgree(es: seq<Event>, id: string, act: Activity, g: Stage, status: Status)
    requires StagesAre(act, es, id) && StagesOk(act.stages) && ClosedBelow(act.stages)
    ensures Ordered(act.stages, g, status) && TransitionOk(Lookup(act.stages, g), status)
            <==> MayReport(es, id, g, status)
  {
    assert Lookup(act.stages, g) == StatusOf(es, id, g);
    EarlierMeans(es, id, act, g, status);
    if g in act.stages {
      KnownStage(act, g);
    }
  }

  lemma StageCriterion(digest: Digest, es: seq<Event>, e: Event)
    requires Accepted(digest, es) && |es| < 4096 && Open(es) && e.StageProgress?
    ensures Accept(digest, Result(digest, es), e).error.None? <==> MayUpdate(es, e)
  {
    var s, id := Result(digest, es), e.activityId;
    KindsExact(digest, es);
    OpenInRun(digest, es);
    ActivitiesInRun(digest, es);
    StageDiscipline(digest, es);
    ClosedBelowInRun(digest, es);
    var act := ActivityOf(s, id);
    RulesAgree(es, id, act, e.stage, e.status);
    assert s.activities.Keys == Ids(es);
  }

  // ----- Partial results -----

  lemma ItemSucceeds(m: Merge, stage: Stage, item: Item)
    requires m.error.None?
    ensures MergeItem(m, stage, item).error.None?
            <==> (item.change == Add <==> item.key !in m.keys) && |m.keys + {item.key}| <= 200
  {
  }

  lemma MergeLast(m: Merge, stage: Stage, items: seq<Item>, last: Item)
    ensures var r := MergeItems(m, stage, items);
            MergeItems(m, stage, items + [last]) == if r.error.Some? then r else MergeItem(r, stage, last)
  {
    assert (items + [last])[..|items|] == items;
  }

  lemma KeysLast(seen: set<string>, items: seq<Item>, last: Item)
    ensures KeySet(items + [last]) == KeySet(items) + {last.key}
    ensures AddedOnce(seen, items + [last])
            <==> AddedOnce(seen, items) && (last.change == Add <==> last.key !in seen + KeySet(items))
  {
    assert (items + [last])[..|items|] == items;
  }

  /** The merge of the items succeeds exactly when each adds a new key or enriches a known
      one, and the keys stay within the limit. */
  lemma {:induction false} MergeSucceeds(m: Merge, stage: Stage, items: seq<Item>)
    requires MergeOk(m)
    ensures MergeItems(m, stage, items).error.None? <==> NewKeys(m.keys, items)
    decreases |items|
  {
    if items == [] {
      assert m.keys + {} == m.keys;
    } else {
      var before, last := items[..|items| - 1], items[|items| - 1];
      assert items == before + [last];
      MergeSucceeds(m, stage, before);
      MergeSucceedsNext(m, stage, before, last);
    }
  }

  /** Keys within the limit, each item adding a new one or enriching a known one. */
  predicate NewKeys(keys: set<string>, items: seq<Item>) {
    AddedOnce(keys, items) && |keys + KeySet(items)| <= 200
  }

  lemma NewKeysLast(keys: set<string>, items: seq<Item>, last: Item)
    ensures NewKeys(keys, items + [last])
            <==> (&& NewKeys(keys, items) && (last.change == Add <==> last.key !in keys + KeySet(items))
                  && |keys + KeySet(items) + {last.key}| <= 200)
  {
    KeysLast(keys, items, last);
    MoreKeys(keys, KeySet(items), last.key);
    assert keys + KeySet(items) + {last.key} == keys + (KeySet(items) + {last.key});
  }

  lemma MergeSucceedsNext(m: Merge, stage: Stage, items: seq<Item>, last: Item)
    requires MergeOk(m) && (MergeItems(m, stage, items).error.None? <==> NewKeys(m.keys, items))
    ensures MergeItems(m, stage, items + [last]).error.None? <==> NewKeys(m.keys, items + [last])
  {
    var r := MergeItems(m, stage, items);
    MergeLast(m, stage, items, last);
    NewKeysLast(m.keys, items, last);
    if r.error.None? {
      MergeItemsOk(m, stage, items);
      ItemSucceeds(r, stage, last);
    }
  }

  lemma MoreKeys(keys: set<string>, more: set<string>, key: string)
    ensures |keys + more| <= |keys + (more + {key})|
  {
    var a, b := keys + more, keys + (more + {key});
    assert b == a + (b - a);
  }

  lemma PartialCriterion(digest: Digest, es: seq<Event>, e: Event)
    requires Accepted(digest, es) && |es| < 4096 && Open(es) && e.PartialResult?
    ensures Accept(digest, Result(digest, es), e).error.None? <==> MayCarry(digest, es, e)
  {
    var s, id := Result(digest, es), e.activityId;
    KindsExact(digest, es);
    OpenInRun(digest, es);
    ActivitiesInRun(digest, es);
    if id in s.activities {
      var act := s.activities[id];
      assert StagesAre(ActivityOf(s, id), es, id);
      FreshArePurged(digest, es, id);
      RecordedDigests(digest, es, id);
      PartialSequences(digest, es, id);
      ResultKeys(digest, es, id);
      var m := Merge(act.resultKeys, act.keysByStage, s.sources, None);
      MergeSucceeds(m, e.stage, e.items);
      PartialStep(digest, s, e, act, m);
    }
  }

  /** What the code asks of a partial of a known activity. */
  lemma PartialStep(digest: Digest, s: State, e: Event, act: Activity, m: Merge)
    requires e.PartialResult? && e.activityId in s.activities && act == s.activities[e.activityId]
    requires |s.kinds| < 4096 && s.terminalReason.None?
    requires m == Merge(act.resultKeys, act.keysByStage, s.sources, None)
    ensures Accept(digest, s, e).error.None?
            <==> if e.sequence < act.nextSequence then Lookup(act.replayDigests, e.sequence) == Some(digest(e))
                 else && e.sequence == act.nextSequence && act.partialUpdates < 64
                      && Lookup(act.stages, e.stage) == Some(Running)
                      && MergeItems(m, e.stage, e.items).error.None?
  {
  }

  // ----- The accepted runs -----

  /** One more event is accepted exactly when the events before it allow it. */
  lemma AcceptanceCriterion(digest: Digest, es: seq<Event>, e: Event)
    requires Accepted(digest, es)
    ensures Accepted(digest, es + [e]) <==> Admissible(digest, es, e)
  {
    RunNext(digest, es, e);
    KindsExact(digest, es);
    OpenInRun(digest, es);
    if |es| < 4096 && Open(es) {
      if e.StageProgress? {
        StageCriterion(digest, es, e);
      } else if e.PartialResult? {
        PartialCriterion(digest, es, e);
      }
    }
  }

  predicate AllAdmissible(digest: Digest, es: seq<Event>) {
    forall i :: 0 <= i < |es| ==> Admissible(digest, es[..i], es[i])
  }

  /** The accepted runs are exactly those of which every event is allowed by the events
      before it. */
  lemma {:induction false} AcceptedRuns(digest: Digest, es: seq<Event>)
    ensures Accepted(digest, es) <==> AllAdmissible(digest, es)
    decreases |es|
  {
    if es == [] {
    } else {
      var front, e := Init(es), Last(es);
      assert es == front + [e];
      AcceptedRuns(digest, front);
      forall i | 0 <= i < |front| ensures Admissible(digest, es[..i], es[i]) <==> Admissible(digest, front[..i], front[i]) {
        assert es[..i] == front[..i];
      }
      assert es[..|front|] == front;
      if Accepted(digest, front) {
        AcceptanceCriterion(digest, front, e);
      }
    }
  }

  // ----- What an accepted run leaves -----

  /** The event brings something new: not a repeated partial. */
  predicate Brings(es: seq<Event>, e: Event) {
    e.PartialResult? && e.sequence == |Fresh(es, e.activityId)|
  }

  function SourceSet(items: seq<Item>): set<(string, string)> {
    if items == [] then {}
    else SourceSet(items[..|items| - 1]) + {(items[|items| - 1].service, items[|items| - 1].itemId)}
  }

  function KeysIn(items: seq<Item>): seq<string> {
    if items == [] then [] else KeysIn(items[..|items| - 1]) + [items[|items| - 1].key]
  }

  lemma {:induction false} KeysAreListed(items: seq<Item>)
    ensures KeysOf(items) == KeysIn(items)
  {
    if items == [] {
    } else {
      KeysAreListed(items[..|items| - 1]);
    }
  }

  /** The facts, sources, error code and terminal reason the events stand for. */
  datatype Evidence = Evidence(stageFacts: seq<StageFact>, partialFacts: seq<PartialFact>,
                               sources: set<(string, string)>, errorCode: Option<string>,
                               terminalReason: Option<string>)

  function NextEvidence(v: Evidence, e: Event, brings: bool): Evidence {
    match e
    case StageProgress(id, stage, status, progress) =>
      v.(stageFacts := v.stageFacts + [StageFact(id, stage, status, progress)])
    case PartialResult(id, stage, sequence, items) =>
      if brings then v.(partialFacts := v.partialFacts + [PartialFact(id, stage, sequence, KeysIn(items))],
                        sources := v.sources + SourceSet(items))
      else v
    case ErrorEvent(code) => v.(errorCode := Some(code))
    case Done(reason) => v.(terminalReason := Some(reason))
    case OtherEvent => v
  }

  function EvidenceOf(es: seq<Event>): Evidence
    decreases |es|
  {
    if es == [] then Evidence([], [], {}, None, None)
    else NextEvidence(EvidenceOf(Init(es)), Last(es), Brings(Init(es), Last(es)))
  }

  function Recorded(s: State): Evidence {
    Evidence(s.stageFacts, s.partialFacts, s.sources, s.errorCode, s.terminalReason)
  }

  lemma {:induction false} MergedSources(m: Merge, stage: Stage, items: seq<Item>)
    requires m.error.None? && MergeItems(m, stage, items).error.None?
    ensures MergeItems(m, stage, items).sources == m.sources + SourceSet(items)
    decreases |items|
  {
    if items == [] {
      assert m.sources + {} == m.sources;
    } else {
      var before, last := items[..|items| - 1], items[|items| - 1];
      assert items == before + [last];
      MergeLast(m, stage, before, last);
      MergedSources(m, stage, before);
      ItemSources(MergeItems(m, stage, before), stage, last);
      SourcesLast(m.sources, before, last);
    }
  }

  lemma ItemSources(m: Merge, stage: Stage, item: Item)
    requires m.error.None? && MergeItem(m, stage, item).error.None?
    ensures MergeItem(m, stage, item).sources == m.sources + {(item.service, item.itemId)}
  {
  }

  lemma SourcesLast(sources: set<(string, string)>, items: seq<Item>, last: Item)
    ensures sources + SourceSet(items + [last]) == sources + SourceSet(items) + {(last.service, last.itemId)}
  {
    assert (items + [last])[..|items|] == items;
  }

  lemma EvidenceNext(digest: Digest, s: State, e: Event)
    requires Accept(digest, s, e).error.None?
    ensures Recorded(Accept(digest, s, e).state) == NextEvidence(Recorded(s), e, e.PartialResult? && !Replayed(s, e))
  {
    if e.PartialResult? && !Replayed(s, e) {
      var act := s.activities[e.activityId];
      KeysAreListed(e.items);
      MergedSources(Merge(act.resultKeys, act.keysByStage, s.sources, None), e.stage, e.items);
    }
  }

  lemma {:induction false} EvidenceInRun(digest: Digest, es: seq<Event>)
    requires Accepted(digest, es)
    ensures Recorded(Result(digest, es)) == EvidenceOf(es)
    decreases |es|
  {
    if es == [] {
    } else {
      var front, e := Init(es), Last(es);
      assert es == front + [e];
      EvidenceInRun(digest, front);
      EvidenceNext(digest, Result(digest, front), e);
      if e.PartialResult? {
        FreshArePurged(digest, front, e.activityId);
        PartialNext(digest, front, e, e.activityId);
      }
    }
  }

  /** The partials of one stage. */
  function AtStage(partials: seq<Event>, g: Stage): seq<Event> {
    if partials == [] then []
    else
      var front, e := partials[..|partials| - 1], partials[|partials| - 1];
      AtStage(front, g) + (if e.PartialResult? && e.stage == g then [e] else [])
  }

  /** Per stage, the keys the fresh partials of that stage carried. */
  ghost predicate KeysByStage(act: Activity, partials: seq<Event>) {
    forall g: Stage :: KeysAt(act.keysByStage, g) == KeySet(Carried(AtStage(partials, g)))
  }

  lemma {:induction false} MergedByStage(m: Merge, stage: Stage, items: seq<Item>, g: Stage)
    requires m.error.None? && MergeItems(m, stage, items).error.None?
    ensures KeysAt(MergeItems(m, stage, items).byStage, g)
            == KeysAt(m.byStage, g) + (if g == stage then KeySet(items) else {})
    decreases |items|
  {
    if items == [] {
      assert KeysAt(m.byStage, g) + {} == KeysAt(m.byStage, g);
    } else {
      var before, last := items[..|items| - 1], items[|items| - 1];
      assert items == before + [last];
      MergeLast(m, stage, before, last);
      MergedByStage(m, stage, before, g);
      var r := MergeItems(m, stage, before);
      ItemByStage(r, stage, last, g);
      KeysLast({}, before, last);
      Assoc3(KeysAt(m.byStage, g), KeySet(before), {last.key});
    }
  }

  lemma ItemByStage(m: Merge, stage: Stage, item: Item, g: Stage)
    requires m.error.None? && MergeItem(m, stage, item).error.None?
    ensures KeysAt(MergeItem(m, stage, item).byStage, g)
            == KeysAt(m.byStage, g) + (if g == stage then {item.key} else {})
  {
  }

  lemma Assoc3(a: set<string>, b: set<string>, c: set<string>)
    ensures a + b + c == a + (b + c)
  {
  }

  lemma {:induction false} KeySetConcat(xs: seq<Item>, ys: seq<Item>)
    ensures KeySet(xs + ys) == KeySet(xs) + KeySet(ys)
    decreases |ys|
  {
    if ys == [] {
      assert xs + ys == xs;
    } else {
      KeySetConcat(xs, ys[..|ys| - 1]);
      assert (xs + ys)[..|xs + ys| - 1] == xs + ys[..|ys| - 1];
    }
  }

  lemma AtStageNext(partials: seq<Event>, e: Event, g: Stage)
    requires e.PartialResult?
    ensures KeySet(Carried(AtStage(partials + [e], g)))
            == KeySet(Carried(AtStage(partials, g))) + (if g == e.stage then KeySet(e.items) else {})
  {
    assert (partials + [e])[..|partials|] == partials;
    CarriedNext(AtStage(partials, g), e);
    KeySetConcat(Carried(AtStage(partials, g)), e.items);
    assert AtStage(partials, g) + [] == AtStage(partials, g);
  }

  lemma CommittedByStage(s: State, e: Event, act: Activity, partials: seq<Event>, digest: Digest)
    requires e.PartialResult? && e.activityId in s.activities && act == s.activities[e.activityId]
    requires !Replayed(s, e) && Accept(digest, s, e).error.None? && KeysByStage(act, partials)
    ensures KeysByStage(Accept(digest, s, e).state.activities[e.activityId], partials + [e])
  {
    var m := Merge(act.resultKeys, act.keysByStage, s.sources, None);
    var t := Accept(digest, s, e).state;
    assert t.activities[e.activityId].keysByStage == MergeItems(m, e.stage, e.items).byStage;
    forall g: Stage
      ensures KeysAt(t.activities[e.activityId].keysByStage, g) == KeySet(Carried(AtStage(partials + [e], g)))
    {
      MergedByStage(m, e.stage, e.items, g);
      AtStageNext(partials, e, g);
    }
  }

  lemma OthersByStage(digest: Digest, s: State, e: Event, id: string)
    requires Accept(digest, s, e).error.None?
    requires !(e.PartialResult? && e.activityId == id && !Replayed(s, e))
    ensures ActivityOf(Accept(digest, s, e).state, id).keysByStage == ActivityOf(s, id).keysByStage
  {
  }

  lemma SameByStage(act: Activity, other: Activity, partials: seq<Event>)
    requires KeysByStage(act, partials) && other.keysByStage == act.keysByStage
    ensures KeysByStage(other, partials)
  {
  }

  /** The partial is fresh to the reducer exactly when it is fresh in the history. */
  lemma FreshNext(digest: Digest, es: seq<Event>, e: Event, id: string)
    requires Accepted(digest, es) && Accepted(digest, es + [e])
    ensures Fresh(es + [e], id)
            == if e.PartialResult? && e.activityId == id && !Replayed(Result(digest, es), e) then Fresh(es, id) + [e]
               else Fresh(es, id)
    ensures Accept(digest, Result(digest, es), e).error.None?
    ensures Result(digest, es + [e]) == Accept(digest, Result(digest, es), e).state
  {
    RunNext(digest, es, e);
    HistoryNext(es, e, id);
    if e.PartialResult? && e.activityId == id {
      FreshArePurged(digest, es, id);
      PartialNext(digest, es, e, id);
    }
  }

  lemma ByStageStep(digest: Digest, s: State, e: Event, id: string, before: seq<Event>, after: seq<Event>)
    requires Accept(digest, s, e).error.None? && KeysByStage(ActivityOf(s, id), before)
    requires after == if e.PartialResult? && e.activityId == id && !Replayed(s, e) then before + [e] else before
    ensures KeysByStage(ActivityOf(Accept(digest, s, e).state, id), after)
  {
    if e.PartialResult? && e.activityId == id && !Replayed(s, e) {
      CommittedByStage(s, e, s.activities[id], before, digest);
    } else {
      OthersByStage(digest, s, e, id);
      SameByStage(ActivityOf(s, id), ActivityOf(Accept(digest, s, e).state, id), before);
    }
  }

  lemma ByStageNext(digest: Digest, es: seq<Event>, e: Event, id: string)
    requires Accepted(digest, es) && Accepted(digest, es + [e])
    requires KeysByStage(ActivityOf(Result(digest, es), id), Fresh(es, id))
    ensures KeysByStage(ActivityOf(Result(digest, es + [e]), id), Fresh(es + [e], id))
  {
    FreshNext(digest, es, e, id);
    ByStageStep(digest, Result(digest, es), e, id, Fresh(es, id), Fresh(es + [e], id));
  }

  lemma {:induction false} ByStageInRun(digest: Digest, es: seq<Event>, id: string)
    requires Accepted(digest, es)
    ensures KeysByStage(ActivityOf(Result(digest, es), id), Fresh(es, id))
    decreases |es|
  {
    if es == [] {
    } else {
      assert es == Init(es) + [Last(es)];
      ByStageInRun(digest, Init(es), id);
      ByStageNext(digest, Init(es), Last(es), id);
    }
  }

  /** An accepted run leaves exactly what its events say: the statuses last reported and
      how many, the numbers and keys of the fresh partials, the keys per stage, and the
      facts, sources, error code and terminal reason. */
  lemma StateIsHistory(digest: Digest, es: seq<Event>, id: string)
    requires Accepted(digest, es)
    ensures var s := Result(digest, es);
            var act := ActivityOf(s, id);
            && Recorded(s) == EvidenceOf(es)
            && s.activities.Keys == Ids(es) && StagesAre(act, es, id)
            && act.nextSequence == act.partialUpdates == |Fresh(es, id)|
            && act.resultKeys == KeySet(Seen(es, id)) && KeysByStage(act, Fresh(es, id))
            && forall k :: 0 <= k < |Fresh(es, id)| ==> Lookup(act.replayDigests, k) == Some(digest(Fresh(es, id)[k]))
  {
    EvidenceInRun(digest, es);
    ActivitiesInRun(digest, es);
    FreshArePurged(digest, es, id);
    RecordedDigests(digest, es, id);
    PartialSequences(digest, es, id);
    ResultKeys(digest, es, id);
    ByStageInRun(digest, es, id);
  }

  // ----- Whole searches are accepted -----

  function Concat(parts: seq<seq<Item>>): seq<Item> {
    if parts == [] then [] else Concat(parts[..|parts| - 1]) + parts[|parts| - 1]
  }

  /** The parts as partials of one stage, numbered on from `first`. */
  function Partials(id: string, g: Stage, first: nat, parts: seq<seq<Item>>): seq<Event> {
    if parts == [] then []
    else Partials(id, g, first, parts[..|parts| - 1]) + [PartialResult(id, g, first + |parts| - 1, parts[|parts| - 1])]
  }

  /** One stage from queued to complete. */
  function StageRun(id: string, g: Stage, p: Progress, first: nat, parts: seq<seq<Item>>): seq<Event> {
    [StageProgress(id, g, Queued, p)] + [StageProgress(id, g, Running, p)]
    + Partials(id, g, first, parts) + [StageProgress(id, g, Complete, p)]
  }

  /** What a run says of one activity: its length, whether the activity is known and how
      many are, and its updates, statuses, partials and keys. */
  datatype Snapshot = Snapshot(length: nat, known: bool, ids: nat, updates: nat,
                               statuses: map<Stage, Status>, partials: nat, keys: set<string>)

  const NOTHING := Snapshot(0, false, 0, 0, map[], 0, {})

  predicate StatusesAre(statuses: map<Stage, Status>, es: seq<Event>, id: string) {
    forall g: Stage :: Lookup(statuses, g) == StatusOf(es, id, g)
  }

  predicate Pictures(shot: Snapshot, es: seq<Event>, id: string) {
    && shot.length == |es| && shot.known == (id in Ids(es)) && shot.ids == |Ids(es)|
    && shot.updates == StageCount(es, id) && StatusesAre(shot.statuses, es, id)
    && shot.partials == |Fresh(es, id)| && shot.keys == KeySet(Seen(es, id))
  }

  /** Reporting a status of the activity. */
  function Reported(shot: Snapshot, g: Stage, status: Status): Snapshot {
    shot.(length := shot.length + 1, known := true, ids := if shot.known then shot.ids else shot.ids + 1,
          updates := shot.updates + 1, statuses := shot.statuses[g := status])
  }

  predicate CanReport(shot: Snapshot, g: Stage, status: Status) {
    && shot.length < 4096 && (shot.known || shot.ids < 4) && shot.updates < 256
    && match status
       case Queued => g !in shot.statuses && AllBefore(shot.statuses, g)
       case Running => Lookup(shot.statuses, g) == Some(Queued) && AllBefore(shot.statuses, g)
       case _ => Lookup(shot.statuses, g) == Some(Running)
  }

  /** Every earlier stage is complete. */
  predicate AllBefore(statuses: map<Stage, Status>, g: Stage) {
    forall h: Stage :: h.Index() < g.Index() ==> Lookup(statuses, h) == Some(Complete)
  }

  /** Carrying a part. */
  function CarriedOn(shot: Snapshot, part: seq<Item>): Snapshot {
    shot.(length := shot.length + 1, partials := shot.partials + 1, keys := shot.keys + KeySet(part))
  }

  predicate CanCarry(shot: Snapshot, g: Stage, part: seq<Item>) {
    && shot.length < 4096 && shot.known && shot.partials < 64 && Lookup(shot.statuses, g) == Some(Running)
    && NewKeys(shot.keys, part)
  }

  predicate Ready(digest: Digest, es: seq<Event>) {
    Accepted(digest, es) && Open(es)
  }

  lemma MayReportIt(shot: Snapshot, es: seq<Event>, id: string, g: Stage, status: Status)
    requires StatusesAre(shot.statuses, es, id) && CanReport(shot, g, status)
    ensures MayReport(es, id, g, status)
  {
    assert Lookup(shot.statuses, g) == StatusOf(es, id, g);
    if AllBefore(shot.statuses, g) {
      forall h: Stage | h.Index() < g.Index() ensures StatusOf(es, id, h) == Some(Complete) {
        assert Lookup(shot.statuses, h) == StatusOf(es, id, h);
      }
    }
  }

  lemma ReportPictured(shot: Snapshot, es: seq<Event>, id: string, g: Stage, status: Status, p: Progress)
    requires Pictures(shot, es, id)
    ensures Pictures(Reported(shot, g, status), es + [StageProgress(id, g, status, p)], id)
  {
    HistoryNext(es, StageProgress(id, g, status, p), id);
  }

  lemma ReportSound(digest: Digest, shot: Snapshot, es: seq<Event>, id: string, g: Stage, status: Status, p: Progress)
    requires Ready(digest, es) && Pictures(shot, es, id) && CanReport(shot, g, status)
    ensures Ready(digest, es + [StageProgress(id, g, status, p)])
    ensures Pictures(Reported(shot, g, status), es + [StageProgress(id, g, status, p)], id)
  {
    MayReportIt(shot, es, id, g, status);
    AcceptanceCriterion(digest, es, StageProgress(id, g, status, p));
    ReportPictured(shot, es, id, g, status, p);
  }

  lemma CarryPictured(shot: Snapshot, es: seq<Event>, id: string, g: Stage, part: seq<Item>)
    requires Pictures(shot, es, id)
    ensures Pictures(CarriedOn(shot, part), es + [PartialResult(id, g, shot.partials, part)], id)
  {
    var e := PartialResult(id, g, shot.partials, part);
    HistoryNext(es, e, id);
    CarriedNext(Fresh(es, id), e);
    KeySetConcat(Seen(es, id), part);
  }

  lemma CarrySound(digest: Digest, shot: Snapshot, es: seq<Event>, id: string, g: Stage, part: seq<Item>)
    requires Ready(digest, es) && Pictures(shot, es, id) && CanCarry(shot, g, part)
    ensures Ready(digest, es + [PartialResult(id, g, shot.partials, part)])
    ensures Pictures(CarriedOn(shot, part), es + [PartialResult(id, g, shot.partials, part)], id)
  {
    assert Lookup(shot.statuses, g) == StatusOf(es, id, g);
    AcceptanceCriterion(digest, es, PartialResult(id, g, shot.partials, part));
    CarryPictured(shot, es, id, g, part);
  }

  /** A relation between runs and snapshots that goes along with these two steps. */
  type Follows = (seq<Event>, Snapshot) -> bool

  ghost predicate Sound(ok: Follows, id: string, p: Progress) {
    && (forall es, shot, g, status :: ok(es, shot) && CanReport(shot, g, status) ==>
          ok(es + [StageProgress(id, g, status, p)], Reported(shot, g, status)))
    && (forall es, shot, g, part :: ok(es, shot) && CanCarry(shot, g, part) ==>
          ok(es + [PartialResult(id, g, shot.partials, part)], CarriedOn(shot, part)))
  }

  function Accurate(digest: Digest, id: string): Follows {
    (es, shot) => Ready(digest, es) && Pictures(shot, es, id)
  }

  lemma AccurateIsSound(digest: Digest, id: string, p: Progress)
    ensures Sound(Accurate(digest, id), id, p)
  {
    var ok := Accurate(digest, id);
    forall es, shot, g, status | ok(es, shot) && CanReport(shot, g, status)
      ensures ok(es + [StageProgress(id, g, status, p)], Reported(shot, g, status))
    {
      ReportSound(digest, shot, es, id, g, status, p);
    }
    forall es, shot, g, part | ok(es, shot) && CanCarry(shot, g, part)
      ensures ok(es + [PartialResult(id, g, shot.partials, part)], CarriedOn(shot, part))
    {
      CarrySound(digest, shot, es, id, g, part);
    }
  }

  lemma {:induction false} AddedSplit(seen: set<string>, items: seq<Item>, more: seq<Item>)
    requires AddedOnce(seen, items + more)
    ensures AddedOnce(seen, items) && AddedOnce(seen + KeySet(items), more)
    decreases |more|
  {
    if more == [] {
      assert items + more == items;
    } else {
      var before := more[..|more| - 1];
      assert (items + more)[..|items + more| - 1] == items + before;
      AddedSplit(seen, items, before);
      KeySetConcat(items, before);
      assert seen + KeySet(items) + KeySet(before) == seen + (KeySet(items) + KeySet(before));
    }
  }

  lemma SmallerUnion(a: set<string>, b: set<string>, c: set<string>)
    ensures |a + b| <= |a + (b + c)|
  {
    assert a + (b + c) == a + b + (a + (b + c) - (a + b));
  }

  /** The parts can all be carried: enough room, and each item adds or enriches. */
  predicate RoomFor(shot: Snapshot, parts: seq<seq<Item>>) {
    shot.length + |parts| <= 4096 && shot.partials + |parts| <= 64 && NewKeys(shot.keys, Concat(parts))
  }

  lemma NewKeysSplit(keys: set<string>, items: seq<Item>, more: seq<Item>)
    requires NewKeys(keys, items + more)
    ensures NewKeys(keys, items) && NewKeys(keys + KeySet(items), more)
    ensures keys + KeySet(items + more) == keys + KeySet(items) + KeySet(more)
  {
    AddedSplit(keys, items, more);
    KeySetConcat(items, more);
    SmallerUnion(keys, KeySet(items), KeySet(more));
    Assoc3(keys, KeySet(items), KeySet(more));
  }

  function AllCarried(shot: Snapshot, parts: seq<seq<Item>>): Snapshot {
    shot.(length := shot.length + |parts|, partials := shot.partials + |parts|, keys := shot.keys + KeySet(Concat(parts)))
  }

  lemma RoomForLast(shot: Snapshot, g: Stage, parts: seq<seq<Item>>, last: seq<Item>)
    requires RoomFor(shot, parts + [last]) && shot.known && Lookup(shot.statuses, g) == Some(Running)
    ensures RoomFor(shot, parts) && CanCarry(AllCarried(shot, parts), g, last)
    ensures CarriedOn(AllCarried(shot, parts), last) == AllCarried(shot, parts + [last])
  {
    assert (parts + [last])[..|parts|] == parts;
    NewKeysSplit(shot.keys, Concat(parts), last);
  }

  lemma PartialsLast(es: seq<Event>, id: string, g: Stage, first: nat, parts: seq<seq<Item>>, last: seq<Item>)
    ensures es + Partials(id, g, first, parts + [last])
            == es + Partials(id, g, first, parts) + [PartialResult(id, g, first + |parts|, last)]
  {
    assert (parts + [last])[..|parts|] == parts;
  }

  /** The parts, one fresh partial each. */
  lemma {:induction false} PartsSound(ok: Follows, shot: Snapshot, es: seq<Event>, id: string, g: Stage, p: Progress,
                                      parts: seq<seq<Item>>)
    requires Sound(ok, id, p) && ok(es, shot) && RoomFor(shot, parts)
    requires shot.known && Lookup(shot.statuses, g) == Some(Running)
    ensures ok(es + Partials(id, g, shot.partials, parts), AllCarried(shot, parts))
    decreases |parts|
  {
    if parts == [] {
      NoParts(shot, es, id, g);
    } else {
      var before, last := parts[..|parts| - 1], parts[|parts| - 1];
      assert parts == before + [last];
      RoomForLast(shot, g, before, last);
      PartsSound(ok, shot, es, id, g, p, before);
      PartialsLast(es, id, g, shot.partials, before, last);
      CarryOn(ok, AllCarried(shot, before), es + Partials(id, g, shot.partials, before), id, g, p, last);
    }
  }

  lemma NoParts(shot: Snapshot, es: seq<Event>, id: string, g: Stage)
    ensures es + Partials(id, g, shot.partials, []) == es && AllCarried(shot, []) == shot
  {
    assert KeySet([]) == {} && shot.keys + {} == shot.keys;
  }

  lemma CarryOn(ok: Follows, shot: Snapshot, es: seq<Event>, id: string, g: Stage, p: Progress, part: seq<Item>)
    requires Sound(ok, id, p) && ok(es, shot) && CanCarry(shot, g, part)
    ensures ok(es + [PartialResult(id, g, shot.partials, part)], CarriedOn(shot, part))
  {
  }

  /** A stage that can be queued, with its predecessors complete and room for its parts. */
  predicate CanRunStage(shot: Snapshot, g: Stage, parts: seq<seq<Item>>) {
    && (shot.known || shot.ids < 4) && shot.length + |parts| + 3 <= 4096 && shot.updates + 3 <= 256
    && RoomFor(shot, parts) && g !in shot.statuses && AllBefore(shot.statuses, g)
  }

  function StageDone(shot: Snapshot, g: Stage, parts: seq<seq<Item>>): Snapshot {
    Snapshot(shot.length + |parts| + 3, true, if shot.known then shot.ids else shot.ids + 1, shot.updates + 3,
             shot.statuses[g := Complete], shot.partials + |parts|, shot.keys + KeySet(Concat(parts)))
  }

  lemma StillBefore(statuses: map<Stage, Status>, g: Stage, status: Status)
    requires AllBefore(statuses, g)
    ensures AllBefore(statuses[g := status], g)
  {
    forall h: Stage | h.Index() < g.Index() ensures Lookup(statuses[g := status], h) == Some(Complete) {
      assert Lookup(statuses, h) == Some(Complete);
    }
  }

  /** Each of its events can be taken when its turn comes. */
  lemma StageSteps(shot: Snapshot, g: Stage, parts: seq<seq<Item>>)
    requires CanRunStage(shot, g, parts)
    ensures CanReport(shot, g, Queued)
    ensures var running := Reported(Reported(shot, g, Queued), g, Running);
            && CanReport(Reported(shot, g, Queued), g, Running)
            && running.known && Lookup(running.statuses, g) == Some(Running) && RoomFor(running, parts)
            && running.partials == shot.partials
            && CanReport(AllCarried(running, parts), g, Complete)
            && Reported(AllCarried(running, parts), g, Complete) == StageDone(shot, g, parts)
  {
    StillBefore(shot.statuses, g, Queued);
  }

  /** From any accepted run that is not over and has room: a stage whose predecessors are
      complete can be queued, run, carry any parts that add new keys and enrich known ones,
      and complete. */
  lemma StageCanRun(ok: Follows, shot: Snapshot, es: seq<Event>, id: string, g: Stage, p: Progress,
                    parts: seq<seq<Item>>)
    requires Sound(ok, id, p) && ok(es, shot) && CanRunStage(shot, g, parts)
    ensures ok(es + StageRun(id, g, p, shot.partials, parts), StageDone(shot, g, parts))
  {
    StageSteps(shot, g, parts);
    var queued, running := Reported(shot, g, Queued), Reported(Reported(shot, g, Queued), g, Running);
    var so := es + [StageProgress(id, g, Queued, p)];
    assert ok(so, queued);
    assert ok(so + [StageProgress(id, g, Running, p)], running);
    PartsSound(ok, running, so + [StageProgress(id, g, Running, p)], id, g, p, parts);
    Reassociate(es, [StageProgress(id, g, Queued, p)], [StageProgress(id, g, Running, p)],
                Partials(id, g, shot.partials, parts), [StageProgress(id, g, Complete, p)]);
  }

  lemma Reassociate(es: seq<Event>, a: seq<Event>, b: seq<Event>, c: seq<Event>, d: seq<Event>)
    ensures es + (a + b + c + d) == es + a + b + c + d
  {
  }

  /** The items of three stages, one after the other, leave room for each. */
  lemma RoomForThree(n: seq<Item>, b: seq<Item>, d: seq<Item>)
    requires NewKeys({}, n + b + d)
    ensures NewKeys({}, n) && NewKeys({} + KeySet(n), b) && NewKeys({} + KeySet(n) + KeySet(b), d)
    ensures KeySet(n + b + d) == {} + KeySet(n) + KeySet(b) + KeySet(d)
  {
    NewKeysSplit({}, n + b, d);
    NewKeysSplit({}, n, b);
  }

  lemma EmptyPicture(digest: Digest, id: string)
    ensures Accurate(digest, id)([], NOTHING)
  {
    assert Fresh([], id) == [] && Carried([]) == [] && KeySet([]) == {};
    assert Ready(digest, []) && Pictures(NOTHING, [], id);
  }

  function AfterThree(names: seq<seq<Item>>, bodies: seq<seq<Item>>, deep: seq<seq<Item>>): Snapshot {
    StageDone(StageDone(StageDone(NOTHING, Names, names), Bodies, bodies), Deep, deep)
  }

  function ThreeRuns(id: string, p: Progress, names: seq<seq<Item>>, bodies: seq<seq<Item>>, deep: seq<seq<Item>>)
    : seq<Event>
  {
    StageRun(id, Names, p, 0, names) + StageRun(id, Bodies, p, |names|, bodies)
    + StageRun(id, Deep, p, |names| + |bodies|, deep)
  }

  predicate Fitting(names: seq<seq<Item>>, bodies: seq<seq<Item>>, deep: seq<seq<Item>>) {
    |names| + |bodies| + |deep| <= 64 && NewKeys({}, Concat(names) + Concat(bodies) + Concat(deep))
  }

  lemma EachCanRun(names: seq<seq<Item>>, bodies: seq<seq<Item>>, deep: seq<seq<Item>>)
    requires Fitting(names, bodies, deep)
    ensures CanRunStage(NOTHING, Names, names)
    ensures CanRunStage(StageDone(NOTHING, Names, names), Bodies, bodies)
    ensures CanRunStage(StageDone(StageDone(NOTHING, Names, names), Bodies, bodies), Deep, deep)
  {
    RoomForThree(Concat(names), Concat(bodies), Concat(deep));
  }

  lemma TwoStages(ok: Follows, id: string, p: Progress, names: seq<seq<Item>>, bodies: seq<seq<Item>>)
    requires Sound(ok, id, p) && ok([], NOTHING) && CanRunStage(NOTHING, Names, names)
    requires CanRunStage(StageDone(NOTHING, Names, names), Bodies, bodies)
    ensures ok(StageRun(id, Names, p, 0, names) + StageRun(id, Bodies, p, |names|, bodies),
               StageDone(StageDone(NOTHING, Names, names), Bodies, bodies))
  {
    StageCanRun(ok, NOTHING, [], id, Names, p, names);
    var first := StageRun(id, Names, p, 0, names);
    assert [] + first == first;
    StageCanRun(ok, StageDone(NOTHING, Names, names), first, id, Bodies, p, bodies);
  }

  /** The three stages of a search, after each other. */
  lemma ThreeStages(ok: Follows, id: string, p: Progress,
                    names: seq<seq<Item>>, bodies: seq<seq<Item>>, deep: seq<seq<Item>>)
    requires Sound(ok, id, p) && ok([], NOTHING) && Fitting(names, bodies, deep)
    ensures ok(ThreeRuns(id, p, names, bodies, deep), AfterThree(names, bodies, deep))
  {
    EachCanRun(names, bodies, deep);
    TwoStages(ok, id, p, names, bodies);
    StageCanRun(ok, StageDone(StageDone(NOTHING, Names, names), Bodies, bodies),
                StageRun(id, Names, p, 0, names) + StageRun(id, Bodies, p, |names|, bodies), id, Deep, p, deep);
  }

  lemma OnlyId(ids: set<string>, id: string)
    requires id in ids && |ids| == 1
    ensures ids == {id}
  {
    assert |ids - {id}| == 0;
  }

  lemma ThreeComplete(g: Stage)
    ensures Lookup(map[Names := Complete, Bodies := Complete, Deep := Complete], g) == Some(Complete)
  {
    match g
    case Names => case Bodies => case Deep =>
  }

  lemma AllComplete(names: seq<seq<Item>>, bodies: seq<seq<Item>>, deep: seq<seq<Item>>)
    requires Fitting(names, bodies, deep)
    ensures var shot := AfterThree(names, bodies, deep);
            && shot.known && shot.ids == 1 && shot.length <= 73
            && shot.keys == KeySet(Concat(names) + Concat(bodies) + Concat(deep))
            && shot.statuses == map[Names := Complete, Bodies := Complete, Deep := Complete]
  {
    RoomForThree(Concat(names), Concat(bodies), Concat(deep));
  }

  /** Whatever the activity, the progress and the items, as long as each adds a new key or
      enriches a known one, in at most 64 parts and 200 keys: the run of all three stages,
      then done, is accepted, can be reported and leaves exactly these keys. */
  lemma WholeSearch(digest: Digest, id: string, p: Progress,
                    names: seq<seq<Item>>, bodies: seq<seq<Item>>, deep: seq<seq<Item>>, reason: string)
    requires |names| + |bodies| + |deep| <= 64
    requires AddedOnce({}, Concat(names) + Concat(bodies) + Concat(deep))
    requires |KeySet(Concat(names) + Concat(bodies) + Concat(deep))| <= 200
    ensures var es := ThreeRuns(id, p, names, bodies, deep) + [Done(reason)];
            && Accepted(digest, es) && ReportReady(Result(digest, es))
            && Result(digest, es).activities.Keys == {id}
            && Result(digest, es).activities[id].resultKeys == KeySet(Concat(names) + Concat(bodies) + Concat(deep))
  {
    var es, shot := ThreeRuns(id, p, names, bodies, deep), AfterThree(names, bodies, deep);
    assert {} + KeySet(Concat(names) + Concat(bodies) + Concat(deep)) == KeySet(Concat(names) + Concat(bodies) + Concat(deep));
    AccurateIsSound(digest, id, p);
    EmptyPicture(digest, id);
    ThreeStages(Accurate(digest, id), id, p, names, bodies, deep);
    AllComplete(names, bodies, deep);
    forall g: Stage ensures Lookup(shot.statuses, g) == Some(Complete) {
      ThreeComplete(g);
    }
    DoneCloses(digest, es, id, shot, reason);
  }

  lemma CompleteInRun(digest: Digest, es: seq<Event>, id: string, shot: Snapshot)
    requires Pictures(shot, es, id) && shot.known && shot.ids == 1
    requires forall g: Stage :: Lookup(shot.statuses, g) == Some(Complete)
    ensures Ids(es) == {id} && forall g: Stage :: StatusOf(es, id, g) == Some(Complete)
  {
    OnlyId(Ids(es), id);
    forall g: Stage ensures StatusOf(es, id, g) == Some(Complete) {
      assert Lookup(shot.statuses, g) == StatusOf(es, id, g);
    }
  }

  lemma ClosedState(s: State, es: seq<Event>, id: string)
    requires s.activities.Keys == {id} && StagesAre(ActivityOf(s, id), es, id)
    requires forall g: Stage :: StatusOf(es, id, g) == Some(Complete)
    ensures AllClosed(s) && s.activities != map[]
  {
    assert id in s.activities;
    forall x, g | x in s.activities && g in s.activities[x].stages ensures s.activities[x].stages[g].Terminal() {
      assert x == id && Lookup(s.activities[id].stages, g) == StatusOf(es, id, g);
    }
  }

  /** A run whose only activity has completed its stages ends with a done. */
  lemma DoneCloses(digest: Digest, es: seq<Event>, id: string, shot: Snapshot, reason: string)
    requires Ready(digest, es) && Pictures(shot, es, id) && shot.length < 4096 && shot.known && shot.ids == 1
    requires forall g: Stage :: Lookup(shot.statuses, g) == Some(Complete)
    ensures var all := es + [Done(reason)];
            && Accepted(digest, all) && ReportReady(Result(digest, all))
            && Result(digest, all).activities.Keys == {id}
            && Result(digest, all).activities[id].resultKeys == shot.keys
  {
    var all := es + [Done(reason)];
    CompleteInRun(digest, es, id, shot);
    AcceptanceCriterion(digest, es, Done(reason));
    HistoryNext(es, Done(reason), id);
    StateIsHistory(digest, all, id);
    ReportCriterion(digest, all);
    OpenInRun(digest, all);
    assert all[|es|].Done?;
    ClosedState(Result(digest, all), all, id);
  }
}
