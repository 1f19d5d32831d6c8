/** The reducer of progressive-search evidence: stage and partial-result events of
    several activities, with ordering, sequencing, replay and add/enrich rules. The
    outcome of the shape checks comes with an event; digests are an arbitrary function. */
module ProgressiveReducer {
  import opened Bytes

  const MAX_ACTIVITIES := 4
  const MAX_STAGE_UPDATES := 256
  const MAX_PARTIAL_UPDATES := 64
  const MAX_RESULTS := 200
  const MAX_EVENTS := 4096

  // ----- Events -----

  datatype Stage = Names | Bodies | Deep {
    function Index(): nat {
      if this == Names then 0 else if this == Bodies then 1 else 2
    }
  }

  datatype Status = Queued | Running | Complete | Failed | Skipped | Cancelled {
    predicate Terminal() {
      this in {Complete, Failed, Skipped, Cancelled}
    }
  }

  datatype Change = Add | Enrich

  datatype Item = Item(key: string, change: Change, service: string, itemId: string)

  /** The counters and flags of a stage event, copied into its fact. */
  datatype Progress = Progress(scanned: nat, total: Option<nat>, hits: nat, currentItem: bool,
                               coverageComplete: Option<bool>, budgetReached: Option<bool>,
                               continuationAvailable: Option<bool>)

  datatype Event =
    | StageProgress(activityId: string, stage: Stage, status: Status, progress: Progress)
    | PartialResult(activityId: string, stage: Stage, sequence: nat, items: seq<Item>)
    | ErrorEvent(code: string)
    | Done(reason: string)
    | OtherEvent

  datatype Kind = StageKind | PartialKind | ErrorKind | DoneKind | OtherKind

  function KindOf(e: Event): Kind {
    match e
    case StageProgress(_, _, _, _) => StageKind
    case PartialResult(_, _, _, _) => PartialKind
    case ErrorEvent(_) => ErrorKind
    case Done(_) => DoneKind
    case OtherEvent => OtherKind
  }

  // ----- State -----

  datatype Activity = Activity(
    stages: map<Stage, Status>, stageUpdates: nat, partialUpdates: nat, nextSequence: nat,
    resultKeys: set<string>, keysByStage: map<Stage, set<string>>, replayDigests: map<nat, string>)

  const NEW_ACTIVITY := Activity(map[], 0, 0, 0, {}, map[], map[])

  datatype StageFact = StageFact(activity: string, stage: Stage, status: Status, progress: Progress)
  datatype PartialFact = PartialFact(activity: string, stage: Stage, sequence: nat, keys: seq<string>)

  datatype State = State(
    activities: map<string, Activity>, kinds: seq<Kind>,
    stageFacts: seq<StageFact>, partialFacts: seq<PartialFact>, sources: set<(string, string)>,
    replays: nat, terminalReason: Option<string>, errorCode: Option<string>)

  const START := State(map[], [], [], [], {}, 0, None, None)

  datatype ProbeError =
    | EventBudgetExhausted | EventInvalid | PrivateProjectionObserved | EventAfterTerminal
    | EventMalformed | ActivityInvalid
    | StageUpdateLimit | StageOrderInvalid | StageTransitionInvalid
    | PartialReplayConflict | PartialSequenceInvalid | ResultChangeInvalid | ResultLimit

  /** The state left behind, also by a rejected event, and the rejection. */
  datatype Outcome = Outcome(state: State, error: Option<ProbeError>)

  // ----- Stage events -----

  function Lookup<K(==), V>(m: map<K, V>, k: K): Option<V> {
    if k in m then Some(m[k]) else None
  }

  /** What a status demands of every earlier stage. */
  predicate PriorOk(prior: Option<Status>, status: Status) {
    match status
    case Queued => prior.Some?
    case Running => prior == Some(Complete)
    case _ => prior.Some? && prior.value.Terminal()
  }

  predicate Ordered(stages: map<Stage, Status>, stage: Stage, status: Status) {
    forall s: Stage :: s.Index() < stage.Index() ==> PriorOk(Lookup(stages, s), status)
  }

  predicate TransitionOk(previous: Option<Status>, status: Status) {
    match previous
    case None => status == Queued
    case Some(Queued) => status != Complete
    case Some(Running) => status != Queued
    case Some(terminal) => status == terminal
  }

  function StageError(act: Activity, stage: Stage, status: Status): Option<ProbeError> {
    if act.stageUpdates >= MAX_STAGE_UPDATES then Some(StageUpdateLimit)
    else if !Ordered(act.stages, stage, status) then Some(StageOrderInvalid)
    else if !TransitionOk(Lookup(act.stages, stage), status) then Some(StageTransitionInvalid)
    else None
  }

  function WithStage(act: Activity, stage: Stage, status: Status): Activity {
    act.(stageUpdates := act.stageUpdates + 1, stages := act.stages[stage := status])
  }

  function AcceptStage(s: State, e: Event): Outcome
    requires e.StageProgress?
  {
    var id := e.activityId;
    if id !in s.activities && |s.activities| >= MAX_ACTIVITIES then Outcome(s, Some(ActivityInvalid))
    else
      var act := if id in s.activities then s.activities[id] else NEW_ACTIVITY;
      var error := StageError(act, e.stage, e.status);
      if error.Some? then Outcome(s.(activities := s.activities[id := act]), error)
      else
        Outcome(s.(activities := s.activities[id := WithStage(act, e.stage, e.status)],
                   stageFacts := s.stageFacts + [StageFact(id, e.stage, e.status, e.progress)]), None)
  }

  // ----- Partial results -----

  /** The loop over the items of a partial result. */
  datatype Merge = Merge(keys: set<string>, byStage: map<Stage, set<string>>,
                         sources: set<(string, string)>, error: Option<ProbeError>)

  function KeysAt(byStage: map<Stage, set<string>>, g: Stage): set<string> {
    if g in byStage then byStage[g] else {}
  }

  function MergeItem(m: Merge, stage: Stage, item: Item): Merge {
    if (item.key in m.keys) == (item.change == Add) then m.(error := Some(ResultChangeInvalid))
    else
      var next := m.(keys := m.keys + {item.key},
                     byStage := m.byStage[stage := KeysAt(m.byStage, stage) + {item.key}]);
      if |next.keys| > MAX_RESULTS then next.(error := Some(ResultLimit))
      else next.(sources := m.sources + {(item.service, item.itemId)})
  }

  function MergeItems(m: Merge, stage: Stage, items: seq<Item>): Merge {
    if items == [] then m
    else
      var before := MergeItems(m, stage, items[..|items| - 1]);
      if before.error.Some? then before else MergeItem(before, stage, items[|items| - 1])
  }

  function KeysOf(items: seq<Item>): seq<string> {
    seq(|items|, i requires 0 <= i < |items| => items[i].key)
  }

  predicate IsReplay(act: Activity, e: Event)
    requires e.PartialResult?
  {
    e.sequence < act.nextSequence
  }

  function Committed(act: Activity, e: Event, m: Merge, digest: string): Activity
    requires e.PartialResult?
  {
    act.(resultKeys := m.keys, keysByStage := m.byStage,
         replayDigests := act.replayDigests[e.sequence := digest],
         partialUpdates := act.partialUpdates + 1, nextSequence := act.nextSequence + 1)
  }

  function AcceptPartial(digest: Event -> string, s: State, e: Event): Outcome
    requires e.PartialResult?
  {
    var id := e.activityId;
    if id !in s.activities then Outcome(s, Some(ActivityInvalid))
    else
      var act := s.activities[id];
      if IsReplay(act, e) then
        if Lookup(act.replayDigests, e.sequence) != Some(digest(e)) then Outcome(s, Some(PartialReplayConflict))
        else Outcome(s.(replays := s.replays + 1), None)
      else if e.sequence != act.nextSequence || act.partialUpdates >= MAX_PARTIAL_UPDATES
              || Lookup(act.stages, e.stage) != Some(Running)
      then Outcome(s, Some(PartialSequenceInvalid))
      else
        var m := MergeItems(Merge(act.resultKeys, act.keysByStage, s.sources, None), e.stage, e.items);
        if m.error.Some? then
          Outcome(s.(activities := s.activities[id := act.(keysByStage := m.byStage)],
                     sources := m.sources), m.error)
        else
          Outcome(s.(activities := s.activities[id := Committed(act, e, m, digest(e))], sources := m.sources,
                     partialFacts := s.partialFacts + [PartialFact(id, e.stage, e.sequence, KeysOf(e.items))]),
                  None)
  }

  /** `accept`, of an event that passed its shape checks. */
  function Accept(digest: Event -> string, s: State, e: Event): Outcome {
    if |s.kinds| >= MAX_EVENTS then Outcome(s, Some(EventBudgetExhausted))
    else if s.terminalReason.Some? then Outcome(s, Some(EventAfterTerminal))
    else AcceptBody(digest, s.(kinds := s.kinds + [KindOf(e)]), e)
  }

  function AcceptBody(digest: Event -> string, s: State, e: Event): Outcome {
    match e
    case StageProgress(_, _, _, _) => AcceptStage(s, e)
    case PartialResult(_, _, _, _) => AcceptPartial(digest, s, e)
    case ErrorEvent(code) => Outcome(s.(errorCode := Some(code)), None)
    case Done(reason) => Outcome(s.(terminalReason := Some(reason)), None)
    case OtherEvent => Outcome(s, None)
  }

  /** What the shape checks say of an event: too many bytes, a name that is not known, a
      forbidden key at any depth, or fields that are not as its kind demands. */
  datatype Shape = WellFormed | Oversize | UnknownName | ForbiddenKey | Malformed

  /** Only kinds the reducer acts on have their fields checked. */
  predicate Unreadable(e: Event, shape: Shape) {
    shape == Malformed && !e.OtherEvent?
  }

  /** `accept`, with its shape checks where they are made: a malformed event is listed
      before it is rejected. */
  function AcceptShaped(digest: Event -> string, s: State, e: Event, shape: Shape): Outcome {
    if |s.kinds| >= MAX_EVENTS || shape == Oversize then Outcome(s, Some(EventBudgetExhausted))
    else if shape == UnknownName then Outcome(s, Some(EventInvalid))
    else if shape == ForbiddenKey then Outcome(s, Some(PrivateProjectionObserved))
    else if s.terminalReason.Some? then Outcome(s, Some(EventAfterTerminal))
    else if Unreadable(e, shape) then Outcome(s.(kinds := s.kinds + [KindOf(e)]), Some(EventMalformed))
    else AcceptBody(digest, s.(kinds := s.kinds + [KindOf(e)]), e)
  }

  /** The shape checks only reject: an event is accepted exactly when it passes them and
      is accepted without them, to the same effect. */
  lemma ShapeOnlyRejects(digest: Event -> string, s: State, e: Event, shape: Shape)
    ensures AcceptShaped(digest, s, e, shape).error.None?
            <==> (shape == WellFormed || (shape == Malformed && e.OtherEvent?)) && Accept(digest, s, e).error.None?
    ensures AcceptShaped(digest, s, e, shape).error.None? ==>
              AcceptShaped(digest, s, e, shape).state == Accept(digest, s, e).state
    ensures AcceptShaped(digest, s, e, shape).error.Some? && Accept(digest, s, e).error.None? ==>
              AcceptShaped(digest, s, e, shape).state in {s, s.(kinds := s.kinds + [KindOf(e)])}
  {
  }

  /** When `report` returns instead of raising. */
  predicate ReportReady(s: State) {
    && s.terminalReason.Some? && s.kinds != [] && s.kinds[|s.kinds| - 1] == DoneKind
    && multiset(s.kinds)[DoneKind] == 1
    && s.activities != map[]
    && AllClosed(s)
  }

  predicate AllClosed(s: State) {
    forall id, g :: id in s.activities && g in s.activities[id].stages ==> s.activities[id].stages[g].Terminal()
  }

  // ----- The reducer as the object it is -----

  class Reducer {
    const digest: Event -> string
    var activities: map<string, Activity>
    var kinds: seq<Kind>
    var stageFacts: seq<StageFact>
    var partialFacts: seq<PartialFact>
    var sources: set<(string, string)>
    var replays: nat
    var terminalReason: Option<string>
    var errorCode: Option<string>

    function View(): State
      reads this
    {
      State(activities, kinds, stageFacts, partialFacts, sources, replays, terminalReason, errorCode)
    }

    constructor (digest: Event -> string)
      ensures this.digest == digest && View() == START
    {
      this.digest := digest;
      activities, kinds, stageFacts, partialFacts := map[], [], [], [];
      sources, replays, terminalReason, errorCode := {}, 0, None, None;
    }

    method AcceptStageEvent(e: Event) returns (error: Option<ProbeError>)
      requires e.StageProgress?
      modifies this
      ensures Outcome(View(), error) == AcceptStage(old(View()), e)
    {
      var id := e.activityId;
      if id !in activities {
        if |activities| >= MAX_ACTIVITIES {
          return Some(ActivityInvalid);
        }
        activities := activities[id := NEW_ACTIVITY];
      }
      var act := activities[id];
      error := StageError(act, e.stage, e.status);
      if error.Some? {
        assert activities == old(activities)[id := act];
        return;
      }
      activities := activities[id := WithStage(act, e.stage, e.status)];
      stageFacts := stageFacts + [StageFact(id, e.stage, e.status, e.progress)];
    }

    /** The loop over the items: per-stage keys and sources grow as it goes, and stay
        when a later item is refused. */
    method MergeInPlace(id: string, stage: Stage, items: seq<Item>) returns (m: Merge)
      requires id in activities
      modifies `activities, `sources
      ensures var act := old(activities[id]);
              && m == MergeItems(Merge(act.resultKeys, act.keysByStage, old(sources), None), stage, items)
              && activities == old(activities)[id := act.(keysByStage := m.byStage)]
              && sources == m.sources
    {
      var act := activities[id];
      m := Merge(act.resultKeys, act.keysByStage, sources, None);
      ghost var start := m;
      for i := 0 to |items|
        invariant m.error.None? && m == MergeItems(start, stage, items[..i])
        invariant sources == m.sources
        invariant activities == old(activities)[id := act.(keysByStage := m.byStage)]
      {
        MergeNext(start, stage, items, i);
        m := MergeItem(m, stage, items[i]);
        activities := activities[id := act.(keysByStage := m.byStage)];
        sources := m.sources;
        if m.error.Some? {
          MergeStops(start, stage, items, i + 1);
          return;
        }
      }
      assert items[..|items|] == items;
    }

    /** A refused item leaves the per-stage keys and sources of the items before it. */
    method AcceptPartialEvent(e: Event) returns (error: Option<ProbeError>)
      requires e.PartialResult?
      modifies this
      ensures Outcome(View(), error) == AcceptPartial(digest, old(View()), e)
    {
      var id := e.activityId;
      if id !in activities {
        return Some(ActivityInvalid);
      }
      var act := activities[id];
      if e.sequence < act.nextSequence {
        if Lookup(act.replayDigests, e.sequence) != Some(digest(e)) {
          return Some(PartialReplayConflict);
        }
        replays := replays + 1;
        return None;
      }
      if e.sequence != act.nextSequence || act.partialUpdates >= MAX_PARTIAL_UPDATES
         || Lookup(act.stages, e.stage) != Some(Running) {
        return Some(PartialSequenceInvalid);
      }
      var m := MergeInPlace(id, e.stage, e.items);
      if m.error.Some? {
        return m.error;
      }
      activities := activities[id := Committed(act, e, m, digest(e))];
      partialFacts := partialFacts + [PartialFact(id, e.stage, e.sequence, KeysOf(e.items))];
      error := None;
    }

    method AcceptEvent(e: Event, shape: Shape) returns (error: Option<ProbeError>)
      modifies this
      ensures Outcome(View(), error) == AcceptShaped(digest, old(View()), e, shape)
    {
      error := None;
      if |kinds| >= MAX_EVENTS || shape == Oversize {
        return Some(EventBudgetExhausted);
      }
      if shape == UnknownName {
        return Some(EventInvalid);
      }
      if shape == ForbiddenKey {
        return Some(PrivateProjectionObserved);
      }
      if terminalReason.Some? {
        return Some(EventAfterTerminal);
      }
      kinds := kinds + [KindOf(e)];
      if Unreadable(e, shape) {
        return Some(EventMalformed);
      }
      match e {
        case StageProgress(_, _, _, _) => error := AcceptStageEvent(e);
        case PartialResult(_, _, _, _) => error := AcceptPartialEvent(e);
        case ErrorEvent(code) => errorCode := Some(code);
        case Done(reason) => terminalReason := Some(reason);
        case OtherEvent =>
      }
    }
  }

  lemma MergeNext(m: Merge, stage: Stage, items: seq<Item>, i: nat)
    requires i < |items| && MergeItems(m, stage, items[..i]).error.None?
    ensures MergeItems(m, stage, items[..i + 1]) == MergeItem(MergeItems(m, stage, items[..i]), stage, items[i])
  {
    assert items[..i + 1][..i] == items[..i];
  }

  /** Once an item is refused, the rest changes nothing. */
  lemma {:induction false} MergeStops(m: Merge, stage: Stage, items: seq<Item>, i: nat)
    requires i <= |items| && MergeItems(m, stage, items[..i]).error.Some?
    ensures MergeItems(m, stage, items) == MergeItems(m, stage, items[..i])
    decreases |items|
  {
    if i == |items| {
      assert items[..i] == items;
    } else {
      var shorter := items[..|items| - 1];
      assert shorter[..i] == items[..i];
      MergeStops(m, stage, shorter, i);
    }
  }
}
