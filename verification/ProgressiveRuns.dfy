/** What holds in every accepted run of the progressive-search reducer. */
module ProgressiveRuns {
  import opened Bytes
  import opened ProgressiveReducer

  type Digest = Event -> string

  /** A run stops at the first rejected event. */
  function Run(digest: Digest, es: seq<Event>): Outcome
    decreases |es|
  {
    if es == [] then Outcome(START, None)
    else
      var before := Run(digest, Init(es));
      if before.error.Some? then before else Accept(digest, before.state, Last(es))
  }

  function Init(es: seq<Event>): (r: seq<Event>)
    requires es != []
    ensures |r| == |es| - 1
  {
    es[..|es| - 1]
  }

  function Last(es: seq<Event>): Event
    requires es != []
  {
    es[|es| - 1]
  }

  predicate Accepted(digest: Digest, es: seq<Event>) {
    Run(digest, es).error.None?
  }

  function Result(digest: Digest, es: seq<Event>): State {
    Run(digest, es).state
  }

  // ----- Stages -----

  /** Known stages form a prefix of names, bodies, deep; a stage that runs or is
      complete has every earlier stage complete. */
  predicate StagesOk(stages: map<Stage, Status>) {
    forall g: Stage, h: Stage :: h.Index() < g.Index() && g in stages ==>
      h in stages && (stages[g] in {Running, Complete} ==> stages[h] == Complete)
  }

  lemma StageKept(act: Activity, stage: Stage, status: Status)
    requires StagesOk(act.stages) && StageError(act, stage, status).None?
    ensures StagesOk(act.stages[stage := status])
  {
    var next := act.stages[stage := status];
    forall g: Stage, h: Stage | h.Index() < g.Index() && g in next
      ensures h in next && (next[g] in {Running, Complete} ==> next[h] == Complete)
    {
      assert h.Index() < stage.Index() ==> PriorOk(Lookup(act.stages, h), status);
      assert g in act.stages || g == stage;
    }
  }

  predicate AllStagesOk(s: State) {
    forall id :: id in s.activities ==> StagesOk(s.activities[id].stages)
  }

  lemma StagesStep(digest: Digest, s: State, e: Event)
    requires AllStagesOk(s) && Accept(digest, s, e).error.None?
    ensures AllStagesOk(Accept(digest, s, e).state)
  {
    if e.StageProgress? {
      var act := if e.activityId in s.activities then s.activities[e.activityId] else NEW_ACTIVITY;
      StageKept(act, e.stage, e.status);
    }
  }

  /** In every accepted run: prefix of known stages, earlier stages complete, at most
      one stage running per activity. */
  lemma {:induction false} StageDiscipline(digest: Digest, es: seq<Event>)
    requires Accepted(digest, es)
    ensures AllStagesOk(Result(digest, es))
    ensures forall id, g: Stage, h: Stage :: id in Result(digest, es).activities ==>
              var stages := Result(digest, es).activities[id].stages;
              Lookup(stages, g) == Some(Running) && Lookup(stages, h) == Some(Running) ==> g == h
    decreases |es|
  {
    if es == [] {
    } else {
      StageDiscipline(digest, Init(es));
      StagesStep(digest, Result(digest, Init(es)), Last(es));
    }
    AtMostOneRunning(Result(digest, es));
  }

  lemma AtMostOneRunning(s: State)
    requires AllStagesOk(s)
    ensures forall id, g: Stage, h: Stage :: id in s.activities ==>
              var stages := s.activities[id].stages;
              Lookup(stages, g) == Some(Running) && Lookup(stages, h) == Some(Running) ==> g == h
  {
    forall id, g: Stage, h: Stage | id in s.activities
                                    && Lookup(s.activities[id].stages, g) == Some(Running)
                                    && Lookup(s.activities[id].stages, h) == Some(Running)
      ensures g == h
    {
      assert StagesOk(s.activities[id].stages);
      assert g.Index() == h.Index();
    }
  }

  predicate ClosedIn(s: State, id: string, g: Stage, status: Status) {
    id in s.activities && Lookup(s.activities[id].stages, g) == Some(status) && status.Terminal()
  }

  lemma ClosedStep(digest: Digest, s: State, e: Event, id: string, g: Stage, status: Status)
    requires ClosedIn(s, id, g, status) && Accept(digest, s, e).error.None?
    ensures ClosedIn(Accept(digest, s, e).state, id, g, status)
  {
  }

  /** A terminal status never changes for the rest of the run. */
  lemma {:induction false} TerminalIsFinal(digest: Digest, es: seq<Event>, i: nat, id: string, g: Stage, status: Status)
    requires Accepted(digest, es) && i <= |es|
    requires ClosedIn(Result(digest, es[..i]), id, g, status)
    ensures ClosedIn(Result(digest, es), id, g, status)
    decreases |es|
  {
    if i == |es| {
      assert es[..i] == es;
    } else {
      assert Init(es)[..i] == es[..i];
      TerminalIsFinal(digest, Init(es), i, id, g, status);
      ClosedStep(digest, Result(digest, Init(es)), Last(es), id, g, status);
    }
  }

  // ----- Reports -----

  predicate DoneOk(s: State) {
    && (s.terminalReason.None? ==> DoneKind !in s.kinds)
    && (s.terminalReason.Some? ==>
          && s.kinds != [] && s.kinds[|s.kinds| - 1] == DoneKind
          && DoneKind !in s.kinds[..|s.kinds| - 1])
  }

  /** What an accepted event does to the list of kinds and the terminal reason. */
  lemma KindsNext(digest: Digest, s: State, e: Event)
    requires Accept(digest, s, e).error.None?
    ensures var t := Accept(digest, s, e).state;
            && t.kinds == s.kinds + [KindOf(e)] && s.terminalReason.None?
            && (t.terminalReason.Some? <==> KindOf(e) == DoneKind)
  {
  }

  lemma DoneStep(digest: Digest, s: State, e: Event)
    requires DoneOk(s) && Accept(digest, s, e).error.None?
    ensures DoneOk(Accept(digest, s, e).state)
  {
    var t := Accept(digest, s, e).state;
    KindsNext(digest, s, e);
    assert t.kinds[..|t.kinds| - 1] == s.kinds;
  }

  lemma {:induction false} DoneInRun(digest: Digest, es: seq<Event>)
    requires Accepted(digest, es)
    ensures DoneOk(Result(digest, es))
    decreases |es|
  {
    if es == [] {
    } else {
      DoneInRun(digest, Init(es));
      DoneStep(digest, Result(digest, Init(es)), Last(es));
    }
  }

  lemma OneDone(s: State)
    requires DoneOk(s)
    ensures s.terminalReason.Some? ==> multiset(s.kinds)[DoneKind] == 1
  {
    if s.terminalReason.Some? {
      var n := |s.kinds| - 1;
      assert s.kinds == s.kinds[..n] + [s.kinds[n]];
      assert multiset(s.kinds) == multiset(s.kinds[..n]) + multiset{DoneKind};
    }
  }

  predicate CompletePrefix(stages: map<Stage, Status>) {
    forall g: Stage, h: Stage :: h.Index() < g.Index() && Lookup(stages, g) == Some(Complete) ==>
      Lookup(stages, h) == Some(Complete)
  }

  lemma CompleteInOrder(stages: map<Stage, Status>)
    requires StagesOk(stages)
    ensures CompletePrefix(stages)
  {
  }

  /** After an accepted run `report` succeeds exactly when the run is terminal, has an
      activity and left no stage open; and then complete stages form a prefix. */
  lemma ReportCriterion(digest: Digest, es: seq<Event>)
    requires Accepted(digest, es)
    ensures var s := Result(digest, es);
            && (ReportReady(s) <==> s.terminalReason.Some? && s.activities != map[] && AllClosed(s))
            && forall id :: id in s.activities ==> CompletePrefix(s.activities[id].stages)
  {
    var s := Result(digest, es);
    DoneInRun(digest, es);
    OneDone(s);
    StageDiscipline(digest, es);
    forall id | id in s.activities ensures CompletePrefix(s.activities[id].stages) {
      CompleteInOrder(s.activities[id].stages);
    }
  }

  // ----- Sequences -----

  function FactsOf(facts: seq<PartialFact>, id: string): seq<PartialFact> {
    if facts == [] then []
    else
      var n := |facts| - 1;
      FactsOf(facts[..n], id) + (if facts[n].activity == id then [facts[n]] else [])
  }

  /** The stage has been running at some time, so everything before it is complete. */
  predicate Entered(stages: map<Stage, Status>, g: Stage) {
    && g in stages && stages[g] != Queued
    && forall h: Stage :: h.Index() < g.Index() ==> Lookup(stages, h) == Some(Complete)
  }

  /** Sequences 0, 1, 2, ... in stages that never go back. */
  predicate FactsOk(facts: seq<PartialFact>, stages: map<Stage, Status>) {
    && (forall k :: 0 <= k < |facts| ==> facts[k].sequence == k && Entered(stages, facts[k].stage))
    && forall j, k :: 0 <= j <= k < |facts| ==> facts[j].stage.Index() <= facts[k].stage.Index()
  }

  ghost predicate SequenceOk(s: State, id: string) {
    var facts := FactsOf(s.partialFacts, id);
    if id !in s.activities then facts == [] else NumberingOk(s.activities[id], facts)
  }

  ghost predicate NumberingOk(act: Activity, facts: seq<PartialFact>) {
    && |facts| == act.nextSequence == act.partialUpdates <= MAX_PARTIAL_UPDATES
    && (forall k :: k in act.replayDigests <==> 0 <= k < act.nextSequence)
    && FactsOk(facts, act.stages)
  }

  lemma EnteredKept(act: Activity, stage: Stage, status: Status, g: Stage)
    requires Entered(act.stages, g) && StageError(act, stage, status).None?
    ensures Entered(act.stages[stage := status], g)
  {
    forall h: Stage | h.Index() < g.Index()
      ensures Lookup(act.stages[stage := status], h) == Some(Complete)
    {
      assert Lookup(act.stages, h) == Some(Complete);
    }
  }

  lemma FactsStage(facts: seq<PartialFact>, act: Activity, stage: Stage, status: Status)
    requires FactsOk(facts, act.stages) && StageError(act, stage, status).None?
    ensures FactsOk(facts, act.stages[stage := status])
  {
    forall k | 0 <= k < |facts| ensures Entered(act.stages[stage := status], facts[k].stage) {
      EnteredKept(act, stage, status, facts[k].stage);
    }
  }

  lemma FactsAppend(facts: seq<PartialFact>, stages: map<Stage, Status>, f: PartialFact)
    requires FactsOk(facts, stages) && StagesOk(stages)
    requires f.sequence == |facts| && Lookup(stages, f.stage) == Some(Running)
    ensures FactsOk(facts + [f], stages)
  {
    forall h: Stage | h.Index() < f.stage.Index() ensures Lookup(stages, h) == Some(Complete) {
      assert h in stages;
    }
    forall j | 0 <= j < |facts| ensures facts[j].stage.Index() <= f.stage.Index() {
      var g := facts[j].stage;
      assert Entered(stages, g);
    }
  }

  lemma SequenceStage(digest: Digest, s: State, e: Event, id: string)
    requires e.StageProgress? && SequenceOk(s, id) && Accept(digest, s, e).error.None?
    ensures SequenceOk(Accept(digest, s, e).state, id)
  {
    if e.activityId == id {
      var act := if id in s.activities then s.activities[id] else NEW_ACTIVITY;
      FactsStage(FactsOf(s.partialFacts, id), act, e.stage, e.status);
    }
  }

  lemma FactsOfAppend(facts: seq<PartialFact>, f: PartialFact, id: string)
    ensures FactsOf(facts + [f], id) == FactsOf(facts, id) + (if f.activity == id then [f] else [])
  {
    assert (facts + [f])[..|facts|] == facts;
  }

  function FactOf(e: Event): PartialFact
    requires e.PartialResult?
  {
    PartialFact(e.activityId, e.stage, e.sequence, KeysOf(e.items))
  }

  /** What a fresh partial finds and does. */
  lemma FreshEffect(digest: Digest, s: State, e: Event) returns (m: Merge)
    requires e.PartialResult? && !Replayed(s, e) && Accept(digest, s, e).error.None?
    ensures e.activityId in s.activities
    ensures var act, t := s.activities[e.activityId], Accept(digest, s, e).state;
            && e.sequence == act.nextSequence && act.partialUpdates < MAX_PARTIAL_UPDATES
            && Lookup(act.stages, e.stage) == Some(Running)
            && t.activities == s.activities[e.activityId := Committed(act, e, m, digest(e))]
            && t.partialFacts == s.partialFacts + [FactOf(e)]
  {
    var act := s.activities[e.activityId];
    m := MergeItems(Merge(act.resultKeys, act.keysByStage, s.sources, None), e.stage, e.items);
  }

  lemma NumberingNext(act: Activity, facts: seq<PartialFact>, e: Event, m: Merge, d: string)
    requires NumberingOk(act, facts) && StagesOk(act.stages) && e.PartialResult?
    requires e.sequence == act.nextSequence && act.partialUpdates < MAX_PARTIAL_UPDATES
    requires Lookup(act.stages, e.stage) == Some(Running)
    ensures NumberingOk(Committed(act, e, m, d), facts + [FactOf(e)])
  {
    FactsAppend(facts, act.stages, FactOf(e));
  }

  lemma SequenceFresh(digest: Digest, s: State, e: Event, id: string)
    requires e.PartialResult? && !Replayed(s, e)
    requires AllStagesOk(s) && SequenceOk(s, id) && Accept(digest, s, e).error.None?
    ensures SequenceOk(Accept(digest, s, e).state, id)
  {
    var m := FreshEffect(digest, s, e);
    FactsOfAppend(s.partialFacts, FactOf(e), id);
    if e.activityId == id {
      NumberingNext(s.activities[id], FactsOf(s.partialFacts, id), e, m, digest(e));
    }
  }

  lemma SequencePartial(digest: Digest, s: State, e: Event, id: string)
    requires e.PartialResult? && AllStagesOk(s) && SequenceOk(s, id) && Accept(digest, s, e).error.None?
    ensures SequenceOk(Accept(digest, s, e).state, id)
  {
    if Replayed(s, e) {
      assert Accept(digest, s, e).state.activities == s.activities;
      assert Accept(digest, s, e).state.partialFacts == s.partialFacts;
    } else {
      SequenceFresh(digest, s, e, id);
    }
  }

  lemma SequenceStep(digest: Digest, s: State, e: Event, id: string)
    requires AllStagesOk(s) && SequenceOk(s, id) && Accept(digest, s, e).error.None?
    ensures SequenceOk(Accept(digest, s, e).state, id)
  {
    if e.StageProgress? {
      SequenceStage(digest, s, e, id);
    } else if e.PartialResult? {
      SequencePartial(digest, s, e, id);
    }
  }

  /** In every accepted run each activity's fresh partials are numbered 0, 1, 2, ...,
      at most 64 of them, in stages that never go back. */
  lemma {:induction false} PartialSequences(digest: Digest, es: seq<Event>, id: string)
    requires Accepted(digest, es)
    ensures SequenceOk(Result(digest, es), id)
    decreases |es|
  {
    if es == [] {
    } else {
      PartialSequences(digest, Init(es), id);
      StageDiscipline(digest, Init(es));
      SequenceStep(digest, Result(digest, Init(es)), Last(es), id);
    }
  }

  // ----- Replays -----

  predicate Replayed(s: State, e: Event) {
    e.PartialResult? && e.activityId in s.activities && IsReplay(s.activities[e.activityId], e)
  }

  /** The run without its replays. */
  function Purge(digest: Digest, es: seq<Event>): (r: seq<Event>)
    decreases |es|
  {
    if es == [] then []
    else
      Purge(digest, Init(es)) + (if Replayed(Result(digest, Init(es)), Last(es)) then [] else [Last(es)])
  }

  /** Equal but for the event kinds and the replay count. */
  predicate SameEvidence(s: State, t: State) {
    s.(kinds := t.kinds, replays := t.replays) == t
  }

  lemma AcceptAlike(digest: Digest, s: State, t: State, e: Event)
    requires SameEvidence(s, t) && |t.kinds| <= |s.kinds|
    requires Accept(digest, s, e).error.None?
    ensures Replayed(s, e) ==> SameEvidence(Accept(digest, s, e).state, t)
    ensures !Replayed(s, e) ==>
              && Accept(digest, t, e).error.None?
              && SameEvidence(Accept(digest, s, e).state, Accept(digest, t, e).state)
              && Accept(digest, t, e).state.replays == t.replays
  {
  }

  /** The shorter run is accepted with the same evidence, and shorter by the replays. */
  predicate Distills(digest: Digest, es: seq<Event>, shorter: seq<Event>) {
    && Accepted(digest, shorter)
    && SameEvidence(Result(digest, es), Result(digest, shorter))
    && Result(digest, shorter).replays == 0
    && |shorter| + Result(digest, es).replays == |es|
  }

  lemma RunNext(digest: Digest, es: seq<Event>, e: Event)
    requires Accepted(digest, es)
    ensures Run(digest, es + [e]) == Accept(digest, Result(digest, es), e)
  {
    assert Init(es + [e]) == es && Last(es + [e]) == e;
  }

  lemma DistillsNext(digest: Digest, es: seq<Event>, e: Event, shorter: seq<Event>)
    requires Accepted(digest, es) && Accepted(digest, es + [e]) && Distills(digest, es, shorter)
    ensures Distills(digest, es + [e], if Replayed(Result(digest, es), e) then shorter else shorter + [e])
  {
    var s, t := Result(digest, es), Result(digest, shorter);
    RunNext(digest, es, e);
    RunNext(digest, shorter, e);
    KindsExact(digest, es);
    KindsExact(digest, shorter);
    AcceptAlike(digest, s, t, e);
    ReplaysCounted(digest, s, e);
  }

  lemma ReplaysCounted(digest: Digest, s: State, e: Event)
    requires Accept(digest, s, e).error.None?
    ensures Accept(digest, s, e).state.replays == s.replays + (if Replayed(s, e) then 1 else 0)
  {
  }

  /** Deleting every replay from an accepted run leaves an accepted run with the same
      activities, sources, facts, error code and terminal reason. */
  lemma {:induction false} ReplaysAreInert(digest: Digest, es: seq<Event>)
    requires Accepted(digest, es)
    ensures Accepted(digest, Purge(digest, es))
    ensures SameEvidence(Result(digest, es), Result(digest, Purge(digest, es)))
    ensures Result(digest, Purge(digest, es)).replays == 0
    ensures |Result(digest, es).kinds| == |es|
    ensures |Purge(digest, es)| + Result(digest, es).replays == |es|
    decreases |es|
  {
    KindsExact(digest, es);
    if es == [] {
    } else {
      var before, e := Init(es), Last(es);
      assert es == before + [e];
      ReplaysAreInert(digest, before);
      DistillsNext(digest, before, e, Purge(digest, before));
      PurgeNext(digest, before, e);
    }
  }

  lemma PurgeNext(digest: Digest, es: seq<Event>, e: Event)
    ensures Purge(digest, es + [e])
            == if Replayed(Result(digest, es), e) then Purge(digest, es) else Purge(digest, es) + [e]
  {
    assert Init(es + [e]) == es && Last(es + [e]) == e;
  }

  lemma {:induction false} KindsExact(digest: Digest, es: seq<Event>)
    requires Accepted(digest, es)
    ensures |Result(digest, es).kinds| == |es|
    decreases |es|
  {
    if es == [] {
    } else {
      KindsExact(digest, Init(es));
    }
  }

  function PartialsOf(es: seq<Event>, id: string): seq<Event>
    decreases |es|
  {
    if es == [] then []
    else
      PartialsOf(Init(es), id)
      + (if Last(es).PartialResult? && Last(es).activityId == id then [Last(es)] else [])
  }

  /** The recorded digests are those of the fresh partials, by sequence. */
  ghost predicate DigestsOk(digest: Digest, s: State, first: seq<Event>, id: string) {
    if id !in s.activities then first == []
    else
      var act := s.activities[id];
      && |first| == act.nextSequence
      && forall k :: 0 <= k < |first| ==> Lookup(act.replayDigests, k) == Some(digest(first[k]))
  }

  lemma DigestsStep(digest: Digest, s: State, e: Event, first: seq<Event>, id: string)
    requires DigestsOk(digest, s, first, id) && Accept(digest, s, e).error.None?
    ensures var more := if e.PartialResult? && e.activityId == id && !Replayed(s, e) then [e] else [];
            DigestsOk(digest, Accept(digest, s, e).state, first + more, id)
  {
  }

  lemma {:induction false} RecordedDigests(digest: Digest, es: seq<Event>, id: string)
    requires Accepted(digest, es)
    ensures DigestsOk(digest, Result(digest, es), PartialsOf(Purge(digest, es), id), id)
    decreases |es|
  {
    if es == [] {
    } else {
      var before, e := Init(es), Last(es);
      RecordedDigests(digest, before, id);
      var s, p := Result(digest, before), Purge(digest, before);
      DigestsStep(digest, s, e, PartialsOf(p, id), id);
      if !Replayed(s, e) {
        assert Init(p + [e]) == p && Last(p + [e]) == e;
      } else {
        assert Purge(digest, es) == p;
        assert PartialsOf(p, id) + [] == PartialsOf(p, id);
      }
    }
  }

  /** An accepted replay has the digest of the fresh partial with its sequence number. */
  lemma ReplayRepeats(digest: Digest, es: seq<Event>, e: Event)
    requires Accepted(digest, es + [e]) && Replayed(Result(digest, es), e)
    ensures var first := PartialsOf(Purge(digest, es), e.activityId);
            e.sequence < |first| && digest(first[e.sequence]) == digest(e)
  {
    assert Init(es + [e]) == es && Last(es + [e]) == e;
    RecordedDigests(digest, es, e.activityId);
  }

  // ----- Result keys -----

  function KeySet(items: seq<Item>): set<string> {
    if items == [] then {} else KeySet(items[..|items| - 1]) + {items[|items| - 1].key}
  }

  /** All items of an activity, in the order of the events that carried them. */
  function ItemsOf(es: seq<Event>, id: string): seq<Item>
    decreases |es|
  {
    if es == [] then []
    else
      ItemsOf(Init(es), id)
      + (if Last(es).PartialResult? && Last(es).activityId == id then Last(es).items else [])
  }

  /** Every item adds a key not seen before it or enriches one that was. */
  predicate AddedOnce(seen: set<string>, items: seq<Item>) {
    items == [] ||
    var before, last := items[..|items| - 1], items[|items| - 1];
    AddedOnce(seen, before) && (last.change == Add <==> last.key !in seen + KeySet(before))
  }

  function Union(byStage: map<Stage, set<string>>): set<string> {
    KeysAt(byStage, Names) + KeysAt(byStage, Bodies) + KeysAt(byStage, Deep)
  }

  lemma UnionAdd(byStage: map<Stage, set<string>>, stage: Stage, key: string)
    ensures Union(byStage[stage := KeysAt(byStage, stage) + {key}]) == Union(byStage) + {key}
  {
    var next := byStage[stage := KeysAt(byStage, stage) + {key}];
    assert forall g: Stage :: KeysAt(next, g) == if g == stage then KeysAt(byStage, g) + {key} else KeysAt(byStage, g);
  }

  predicate MergeOk(m: Merge) {
    m.error.None? && Union(m.byStage) == m.keys && |m.keys| <= MAX_RESULTS
  }

  lemma MergeItemOk(m: Merge, stage: Stage, item: Item)
    requires MergeOk(m) && MergeItem(m, stage, item).error.None?
    ensures MergeOk(MergeItem(m, stage, item))
    ensures MergeItem(m, stage, item).keys == m.keys + {item.key}
    ensures item.change == Add <==> item.key !in m.keys
  {
    UnionAdd(m.byStage, stage, item.key);
  }

  lemma MergeStep(m: Merge, r: Merge, stage: Stage, before: set<string>, item: Item)
    requires MergeOk(r) && r.keys == m.keys + before && MergeItem(r, stage, item).error.None?
    ensures MergeOk(MergeItem(r, stage, item))
    ensures MergeItem(r, stage, item).keys == m.keys + (before + {item.key})
    ensures item.change == Add <==> item.key !in m.keys + before
  {
    MergeItemOk(r, stage, item);
  }

  lemma {:induction false} MergeItemsOk(m: Merge, stage: Stage, items: seq<Item>)
    requires MergeOk(m) && MergeItems(m, stage, items).error.None?
    ensures MergeOk(MergeItems(m, stage, items))
    ensures MergeItems(m, stage, items).keys == m.keys + KeySet(items)
    ensures AddedOnce(m.keys, items)
    decreases |items|
  {
    if items == [] {
      assert m.keys + {} == m.keys;
    } else {
      var before, last := items[..|items| - 1], items[|items| - 1];
      MergeItemsOk(m, stage, before);
      MergeStep(m, MergeItems(m, stage, before), stage, KeySet(before), last);
    }
  }

  lemma {:induction false} Append(seen: set<string>, items: seq<Item>, more: seq<Item>)
    requires AddedOnce(seen, items) && AddedOnce(seen + KeySet(items), more)
    ensures AddedOnce(seen, items + more)
    ensures KeySet(items + more) == KeySet(items) + KeySet(more)
    decreases |more|
  {
    if more == [] {
      assert items + more == items;
    } else {
      var before := more[..|more| - 1];
      Append(seen, items, before);
      assert (items + more)[..|items + more| - 1] == items + before;
    }
  }

  lemma {:induction false} KeySetHas(items: seq<Item>, key: string)
    ensures key in KeySet(items) <==> exists i :: 0 <= i < |items| && items[i].key == key
  {
    if items == [] {
    } else {
      var before := items[..|items| - 1];
      KeySetHas(before, key);
      if key in KeySet(before) {
        var i :| 0 <= i < |before| && before[i].key == key;
        assert items[i].key == key;
      }
      if i :| 0 <= i < |items| && items[i].key == key && i < |before| {
        assert before[i].key == key;
      }
    }
  }

  /** Read off item by item: no key is added twice, and an enriched key was added by an
      earlier item. */
  lemma {:induction false} AddedThenEnriched(items: seq<Item>, j: nat)
    requires AddedOnce({}, items) && j < |items|
    ensures items[j].change == Add ==> forall i :: 0 <= i < j ==> items[i].key != items[j].key
    ensures items[j].change == Enrich ==>
              exists i :: 0 <= i < j && items[i].key == items[j].key && items[i].change == Add
    decreases |items|
  {
    var before := items[..|items| - 1];
    if j < |before| {
      AddedThenEnriched(before, j);
      if items[j].change == Enrich {
        var i :| 0 <= i < j && before[i].key == before[j].key && before[i].change == Add;
        assert items[i].key == items[j].key && items[i].change == Add;
      }
    } else {
      KeySetHas(before, items[j].key);
      if items[j].change == Enrich {
        var i :| 0 <= i < |before| && before[i].key == items[j].key;
        AddedThenEnriched(before, i);
        if before[i].change == Enrich {
          var k :| 0 <= k < i && before[k].key == before[i].key && before[k].change == Add;
          assert items[k].key == items[j].key && items[k].change == Add;
        } else {
          assert items[i].key == items[j].key && items[i].change == Add;
        }
      }
    }
  }

  predicate KeysOk(s: State, items: seq<Item>, id: string) {
    && AddedOnce({}, items)
    && if id !in s.activities then items == []
       else
         var act := s.activities[id];
         && act.resultKeys == KeySet(items) == Union(act.keysByStage)
         && |act.resultKeys| <= MAX_RESULTS
  }

  lemma KeysMerged(digest: Digest, s: State, e: Event, items: seq<Item>, id: string)
    requires KeysOk(s, items, id) && Accept(digest, s, e).error.None?
    requires e.PartialResult? && e.activityId == id && !Replayed(s, e)
    ensures KeysOk(Accept(digest, s, e).state, items + e.items, id)
  {
    var act := s.activities[id];
    MergeItemsOk(Merge(act.resultKeys, act.keysByStage, s.sources, None), e.stage, e.items);
    assert {} + KeySet(items) == KeySet(items);
    Append({}, items, e.items);
  }

  /** Every other event leaves the result keys of the activity alone. */
  lemma KeysUntouched(digest: Digest, s: State, e: Event, items: seq<Item>, id: string)
    requires KeysOk(s, items, id) && Accept(digest, s, e).error.None?
    requires !(e.PartialResult? && e.activityId == id && !Replayed(s, e))
    ensures KeysOk(Accept(digest, s, e).state, items, id)
  {
  }

  lemma KeysStep(digest: Digest, s: State, e: Event, items: seq<Item>, id: string)
    requires KeysOk(s, items, id) && Accept(digest, s, e).error.None?
    ensures var more := if e.PartialResult? && e.activityId == id && !Replayed(s, e) then e.items else [];
            KeysOk(Accept(digest, s, e).state, items + more, id)
  {
    if e.PartialResult? && e.activityId == id && !Replayed(s, e) {
      KeysMerged(digest, s, e, items, id);
    } else {
      KeysUntouched(digest, s, e, items, id);
      assert items + [] == items;
    }
  }

  /** In every accepted run, over the items of an activity's fresh partials: each key is
      added exactly once, first, and enriched only later; the result keys are those keys
      and the union of the per-stage sets, at most 200. */
  lemma {:induction false} ResultKeys(digest: Digest, es: seq<Event>, id: string)
    requires Accepted(digest, es)
    ensures KeysOk(Result(digest, es), ItemsOf(Purge(digest, es), id), id)
    decreases |es|
  {
    if es == [] {
    } else {
      var before, e := Init(es), Last(es);
      ResultKeys(digest, before, id);
      var s, p := Result(digest, before), Purge(digest, before);
      KeysStep(digest, s, e, ItemsOf(p, id), id);
      if !Replayed(s, e) {
        assert Init(p + [e]) == p && Last(p + [e]) == e;
      } else {
        assert Purge(digest, es) == p;
        assert ItemsOf(p, id) + [] == ItemsOf(p, id);
      }
    }
  }
}
