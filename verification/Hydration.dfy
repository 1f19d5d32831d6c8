/** The hydration tracker: downloads start and finish on several threads, and a delayed
    finalizer closes the batch unless newer activity has bumped the generation. Every
    step is one critical section. */
module Hydration {
  import opened Batches

  datatype Inner = Inner(
    active: seq<string>, activeIds: set<string>, batchTotal: nat, toastId: nat, generation: nat)

  const IDLE := Inner([], {}, 0, 0, 0)

  function RemoveFirst(names: seq<string>, name: string): seq<string> {
    if names == [] then []
    else if names[0] == name then names[1..]
    else [names[0]] + RemoveFirst(names[1..], name)
  }

  // ----- The critical sections -----

  function Started(s: Inner, name: string, id: string): Inner {
    Inner(s.active + [name], s.activeIds + {id}, s.batchTotal + 1, s.toastId, s.generation + 1)
  }

  function Finished(s: Inner, name: string, id: string): Inner {
    var t := s.(active := RemoveFirst(s.active, name), activeIds := s.activeIds - {id});
    if t.active != [] then t else t.(generation := t.generation + 1)
  }

  /** Does a finalizer go on to announce the batch? */
  predicate Current(s: Inner, gen: nat) {
    s.generation == gen && s.active == []
  }

  function Closed(s: Inner, gen: nat): Inner {
    if s.generation == gen then s.(batchTotal := 0, toastId := 0) else s
  }

  class Tracker {
    var active: seq<string>
    var activeIds: set<string>
    var batchTotal: nat
    var toastId: nat
    var generation: nat

    function View(): Inner
      reads this
    {
      Inner(active, activeIds, batchTotal, toastId, generation)
    }

    constructor ()
      ensures View() == IDLE
    {
      active, activeIds, batchTotal, toastId, generation := [], {}, 0, 0, 0;
    }

    /** First section of `on_start`: what the toast is to say and replace. */
    method OnStart(name: string, id: string) returns (newBatch: bool, total: nat, replace: nat)
      modifies this
      ensures View() == Started(old(View()), name, id)
      ensures newBatch <==> old(active) == [] && old(batchTotal) == 0
      ensures total == batchTotal && replace == old(toastId)
    {
      newBatch := active == [] && batchTotal == 0;
      active := active + [name];
      activeIds := activeIds + {id};
      batchTotal := batchTotal + 1;
      generation := generation + 1;
      total, replace := batchTotal, toastId;
    }

    /** Second section of `on_start`. */
    method RecordToast(id: nat)
      modifies this
      ensures View() == old(View()).(toastId := id)
    {
      toastId := id;
    }

    /** `on_done`: a finalizer is spawned, with this generation, when nothing is left. */
    method OnDone(name: string, id: string) returns (spawn: bool, gen: nat)
      modifies this
      ensures View() == Finished(old(View()), name, id)
      ensures spawn <==> active == []
      ensures gen == generation
    {
      active := RemoveFirst(active, name);
      activeIds := activeIds - {id};
      gen := generation;
      if active != [] {
        return false, gen;
      }
      generation := generation + 1;
      spawn, gen := true, generation;
    }

    /** First section of the finalizer: whether to announce, how many files, and which
        toast to replace. */
    method FinalizerChecks(gen: nat) returns (announce: bool, total: nat, replace: nat)
      ensures announce <==> generation == gen && active == []
      ensures announce ==> total == batchTotal && replace == toastId
    {
      total, replace := 0, 0;
      if generation != gen || active != [] {
        return false, 0, 0;
      }
      announce, total, replace := true, batchTotal, toastId;
    }

    method FinalizerResets(gen: nat)
      modifies this
      ensures View() == Closed(old(View()), gen)
    {
      if generation == gen {
        batchTotal := 0;
        toastId := 0;
      }
    }
  }

  // ----- Interleavings -----

  /** Asleep in the debounce window, or between its two critical sections, about to
      announce so many files. */
  datatype Finalizer = Asleep(gen: nat) | Announcing(gen: nat, total: nat)

  /** `starts` numbers the starts; `batch` holds those of the current batch, `done` those
      of the batches already reset. */
  datatype World = World(
    inner: Inner, finalizers: map<nat, Finalizer>, spawned: nat,
    starts: nat, batch: seq<nat>, done: seq<seq<nat>>)

  datatype Action =
    | Start(name: string, id: string)
    | Toast(toastId: nat)
    | Done(name: string, id: string)
    | Check(finalizer: nat)
    | Reset(finalizer: nat)

  predicate Enabled(w: World, a: Action) {
    match a
    case Start(_, _) => true
    case Toast(_) => true
    case Done(_, _) => true
    case Check(k) => k in w.finalizers && w.finalizers[k].Asleep?
    case Reset(k) => k in w.finalizers && w.finalizers[k].Announcing?
  }

  function Apply(w: World, a: Action): World
    requires Enabled(w, a)
  {
    match a
    case Start(name, id) =>
      w.(inner := Started(w.inner, name, id), starts := w.starts + 1, batch := w.batch + [w.starts])
    case Toast(t) => w.(inner := w.inner.(toastId := t))
    case Done(name, id) =>
      var next := Finished(w.inner, name, id);
      if next.active != [] then w.(inner := next)
      else w.(inner := next, finalizers := w.finalizers[w.spawned := Asleep(next.generation)], spawned := w.spawned + 1)
    case Check(k) =>
      var gen := w.finalizers[k].gen;
      w.(finalizers := if Current(w.inner, gen) then w.finalizers[k := Announcing(gen, w.inner.batchTotal)]
                        else w.finalizers - {k})
    case Reset(k) =>
      var gen := w.finalizers[k].gen;
      var closes := w.inner.generation == gen;
      w.(inner := Closed(w.inner, gen), finalizers := w.finalizers - {k},
         done := if closes then w.done + [w.batch] else w.done,
         batch := if closes then [] else w.batch)
  }

  const START_WORLD := World(IDLE, map[], 0, 0, [], [])

  /** A finalizer whose generation is current sees nothing active. */
  predicate FinalizersOk(w: World) {
    forall k :: k in w.finalizers ==>
      k < w.spawned && w.finalizers[k].gen <= w.inner.generation
      && (w.finalizers[k].gen == w.inner.generation ==> w.inner.active == [])
  }

  /** No two finalizers carry the same generation, and what the current one announces is
      still the size of the batch. */
  predicate AnnouncementsOk(w: World) {
    && (forall j, k :: j in w.finalizers && k in w.finalizers && w.finalizers[j].gen == w.finalizers[k].gen ==> j == k)
    && forall k :: k in w.finalizers && w.finalizers[k].Announcing? && w.finalizers[k].gen == w.inner.generation ==>
         w.finalizers[k].total == w.inner.batchTotal
  }

  /** The finalizer that will close the batch. */
  predicate Carries(w: World, k: nat) {
    k in w.finalizers && w.finalizers[k].gen == w.inner.generation
  }

  /** Nothing active but a batch open: some finalizer will close it. */
  ghost predicate NoLostFinish(w: World) {
    w.inner.active == [] && w.inner.batchTotal > 0 ==> exists k :: Carries(w, k)
  }

  ghost predicate Inv(w: World) {
    && FinalizersOk(w) && AnnouncementsOk(w) && NoLostFinish(w)
    && |w.inner.active| <= w.inner.batchTotal == |w.batch|
    && Partitions(w.done, w.batch, w.starts)
  }

  lemma {:induction false} RemoveFirstShortens(names: seq<string>, name: string)
    ensures |RemoveFirst(names, name)| <= |names|
  {
    if names == [] || names[0] == name {
    } else {
      RemoveFirstShortens(names[1..], name);
    }
  }

  lemma FinishKept(w: World, a: Action)
    requires Inv(w) && Enabled(w, a)
    ensures NoLostFinish(Apply(w, a))
  {
    var w' := Apply(w, a);
    if w'.inner.active == [] && w'.inner.batchTotal > 0 {
      if a.Done? {
        assert Carries(w', w.spawned);
      } else {
        var k :| Carries(w, k);
        assert Carries(w', k);
      }
    }
  }

  lemma AnnouncementsKept(w: World, a: Action)
    requires FinalizersOk(w) && AnnouncementsOk(w) && Enabled(w, a)
    ensures AnnouncementsOk(Apply(w, a))
  {
  }

  lemma InvKept(w: World, a: Action)
    requires Inv(w) && Enabled(w, a)
    ensures Inv(Apply(w, a))
  {
    FinishKept(w, a);
    AnnouncementsKept(w, a);
    Joins(w.done, w.batch, w.starts);
    Closes(w.done, w.batch, w.starts);
    if a.Done? {
      RemoveFirstShortens(w.inner.active, a.name);
    }
  }

  function Run(acts: seq<Action>): World
    requires Runnable(acts)
    decreases |acts|, 1
  {
    if acts == [] then START_WORLD else Apply(Run(acts[..|acts| - 1]), acts[|acts| - 1])
  }

  predicate Runnable(acts: seq<Action>)
    decreases |acts|, 0
  {
    acts == [] || (Runnable(acts[..|acts| - 1]) && Enabled(Run(acts[..|acts| - 1]), acts[|acts| - 1]))
  }

  /** In every interleaving: an open batch with nothing active has a finalizer of the
      current generation, and every start is in exactly one reset batch or the current. */
  lemma {:induction false} EveryRun(acts: seq<Action>)
    requires Runnable(acts)
    ensures Inv(Run(acts))
  {
    if acts == [] {
    } else {
      EveryRun(acts[..|acts| - 1]);
      InvKept(Run(acts[..|acts| - 1]), acts[|acts| - 1]);
    }
  }

  // ----- What is active: the starts that have had no done -----

  /** names with the i-th taken out, which is the first that reads so. */
  predicate FirstTaken(names: seq<string>, name: string, i: nat, rest: seq<string>) {
    i < |names| && names[i] == name && name !in names[..i] && rest == names[..i] + names[i + 1..]
  }

  lemma TakenFurtherOn(first: string, names: seq<string>, name: string, i: nat, rest: seq<string>)
    requires first != name && FirstTaken(names, name, i, rest)
    ensures FirstTaken([first] + names, name, i + 1, [first] + rest)
  {
    assert ([first] + names)[..i + 1] == [first] + names[..i];
    assert ([first] + names)[i + 2..] == names[i + 1..];
  }

  /** One occurrence goes, the first; the rest stays, in order. */
  lemma {:induction false} RemoveFirstIs(names: seq<string>, name: string) returns (i: nat)
    ensures name !in names ==> RemoveFirst(names, name) == names
    ensures name in names ==> FirstTaken(names, name, i, RemoveFirst(names, name))
  {
    i := 0;
    if names == [] || names[0] == name {
    } else {
      var rest := names[1..];
      assert names == [names[0]] + rest;
      i := RemoveFirstIs(rest, name);
      if name in rest {
        TakenFurtherOn(names[0], rest, name, i, RemoveFirst(rest, name));
        i := i + 1;
      }
    }
  }

  lemma CountOff(first: string, rest: seq<string>, name: string)
    requires first != name
    ensures multiset([first] + rest) - multiset{name} == multiset{first} + (multiset(rest) - multiset{name})
  {
  }

  lemma {:induction false} RemoveFirstCounts(names: seq<string>, name: string)
    ensures multiset(RemoveFirst(names, name)) == multiset(names) - multiset{name}
  {
    if names == [] {
    } else if names[0] == name {
      assert names == [name] + names[1..];
    } else {
      RemoveFirstCounts(names[1..], name);
      CountOff(names[0], names[1..], name);
      assert names == [names[0]] + names[1..];
    }
  }

  function Starts(acts: seq<Action>): multiset<string> {
    if acts == [] then multiset{}
    else Starts(acts[..|acts| - 1]) + (if acts[|acts| - 1].Start? then multiset{acts[|acts| - 1].name} else multiset{})
  }

  function Dones(acts: seq<Action>): multiset<string> {
    if acts == [] then multiset{}
    else Dones(acts[..|acts| - 1]) + (if acts[|acts| - 1].Done? then multiset{acts[|acts| - 1].name} else multiset{})
  }

  /** No name has had more dones than starts, at any point. */
  predicate Matched(acts: seq<Action>) {
    acts == [] || (Matched(acts[..|acts| - 1]) && Dones(acts) <= Starts(acts))
  }

  lemma ActiveStep(w: World, a: Action)
    requires Enabled(w, a)
    ensures multiset(Apply(w, a).inner.active)
            == if a.Start? then multiset(w.inner.active) + multiset{a.name}
               else if a.Done? then multiset(w.inner.active) - multiset{a.name}
               else multiset(w.inner.active)
  {
    if a.Done? {
      RemoveFirstCounts(w.inner.active, a.name);
    }
  }

  lemma CountsNext(acts: seq<Action>, a: Action)
    ensures Starts(acts + [a]) == Starts(acts) + (if a.Start? then multiset{a.name} else multiset{})
    ensures Dones(acts + [a]) == Dones(acts) + (if a.Done? then multiset{a.name} else multiset{})
  {
    assert (acts + [a])[..|acts|] == acts;
  }

  lemma LedgerStep(starts: multiset<string>, dones: multiset<string>, more: multiset<string>)
    requires dones <= starts
    ensures starts - dones + more == starts + more - dones
    ensures starts - dones - more == starts - (dones + more)
  {
  }

  lemma OutstandingNext(w: World, acts: seq<Action>, a: Action)
    requires Enabled(w, a) && Dones(acts) <= Starts(acts)
    requires multiset(w.inner.active) == Starts(acts) - Dones(acts)
    ensures multiset(Apply(w, a).inner.active) == Starts(acts + [a]) - Dones(acts + [a])
  {
    CountsNext(acts, a);
    ActiveStep(w, a);
    if a.Start? || a.Done? {
      LedgerStep(Starts(acts), Dones(acts), multiset{a.name});
    }
  }

  /** In every interleaving of matched starts and dones, active are exactly the started
      names less the finished ones. */
  lemma {:induction false} ActiveIsOutstanding(acts: seq<Action>)
    requires Runnable(acts) && Matched(acts)
    ensures Dones(acts) <= Starts(acts)
    ensures multiset(Run(acts).inner.active) == Starts(acts) - Dones(acts)
  {
    if acts == [] {
    } else {
      var front, a := acts[..|acts| - 1], acts[|acts| - 1];
      assert acts == front + [a];
      ActiveIsOutstanding(front);
      OutstandingNext(Run(front), front, a);
    }
  }

  /** Whether the last start or done of a remote id is a start. */
  predicate LastStarted(acts: seq<Action>, id: string) {
    acts != []
    && var a := acts[|acts| - 1];
       if a.Start? && a.id == id then true
       else if a.Done? && a.id == id then false
       else LastStarted(acts[..|acts| - 1], id)
  }

  /** `is_hydrating` tells exactly the ids started and not done since. */
  lemma {:induction false} HydratingIds(acts: seq<Action>, id: string)
    requires Runnable(acts)
    ensures id in Run(acts).inner.activeIds <==> LastStarted(acts, id)
  {
    if acts == [] {
    } else {
      HydratingIds(acts[..|acts| - 1], id);
    }
  }

  /** The toast shown last since a batch was last closed. */
  function LiveToast(acts: seq<Action>): nat
    requires Runnable(acts)
  {
    if acts == [] then 0
    else
      var front, a := acts[..|acts| - 1], acts[|acts| - 1];
      if a.Toast? then a.toastId
      else if Run(acts).done != Run(front).done then 0
      else LiveToast(front)
  }

  lemma DoneGrows(w: World, a: Action)
    requires Enabled(w, a)
    ensures Apply(w, a).done != w.done <==> a.Reset? && w.finalizers[a.finalizer].gen == w.inner.generation
  {
    assert |w.done + [w.batch]| != |w.done|;
  }

  /** That is the toast the next one replaces: a closed batch's toast is never reused. */
  lemma {:induction false} ToastReplaced(acts: seq<Action>)
    requires Runnable(acts)
    ensures Run(acts).inner.toastId == LiveToast(acts)
  {
    if acts == [] {
    } else {
      ToastReplaced(acts[..|acts| - 1]);
      DoneGrows(Run(acts[..|acts| - 1]), acts[|acts| - 1]);
    }
  }

  /** A start says it opens a batch exactly when no start is waiting in one. */
  lemma StartOpensBatch(acts: seq<Action>)
    requires Runnable(acts)
    ensures var w := Run(acts); w.inner.active == [] && w.inner.batchTotal == 0 <==> w.batch == []
  {
    EveryRun(acts);
  }

  /** A reset that closes a batch happens only with nothing active: when starts and dones
      are matched, every start there has been has had its done. The batch has as many
      files as the finalizer announced. */
  lemma ResetOnlyWhenIdle(acts: seq<Action>, k: nat)
    requires Runnable(acts) && Enabled(Run(acts), Reset(k))
    requires Apply(Run(acts), Reset(k)).done != Run(acts).done
    ensures var w := Run(acts);
            && w.inner.active == [] && Apply(w, Reset(k)).done == w.done + [w.batch]
            && |w.batch| == w.finalizers[k].total
    ensures Matched(acts) ==> Starts(acts) == Dones(acts)
  {
    EveryRun(acts);
    if Matched(acts) {
      ActiveIsOutstanding(acts);
      SameWhenNothingLeft(Starts(acts), Dones(acts));
    }
  }

  lemma SameWhenNothingLeft(a: multiset<string>, b: multiset<string>)
    requires b <= a && a - b == multiset{}
    ensures a == b
  {
    forall x ensures a[x] == b[x] {
      assert (a - b)[x] == 0;
    }
  }

  /** Left alone, the finalizer that carries the generation closes the open batch. */
  lemma OpenBatchCanClose(acts: seq<Action>) returns (more: seq<Action>)
    requires Runnable(acts) && Run(acts).inner.active == [] && Run(acts).batch != []
    ensures |more| <= 2 && Runnable(acts + more)
    ensures var w := Run(acts);
            Run(acts + more).inner.batchTotal == 0 && Run(acts + more).done == w.done + [w.batch]
  {
    EveryRun(acts);
    var w := Run(acts);
    var k :| Carries(w, k);
    if w.finalizers[k].Asleep? {
      more := [Check(k), Reset(k)];
      RunOne(acts, Check(k));
      RunOne(acts + [Check(k)], Reset(k));
      assert acts + [Check(k)] + [Reset(k)] == acts + more;
    } else {
      more := [Reset(k)];
      RunOne(acts, Reset(k));
    }
  }

  lemma RunOne(acts: seq<Action>, a: Action)
    requires Runnable(acts) && Enabled(Run(acts), a)
    ensures Runnable(acts + [a]) && Run(acts + [a]) == Apply(Run(acts), a)
  {
    assert (acts + [a])[..|acts|] == acts;
  }
}
