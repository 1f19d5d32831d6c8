/** The scheduled-sync control: a pause flag and a one-shot trigger shared by the web
    UI, the change watchers and the sync loop. Every step is one critical section. */
module Scheduler {
  import opened Batches

  datatype Sched = Sched(paused: bool, trigger: bool)

  /** A local change wakes the loop unless paused; check and set are one section. */
  function LocalChanged(s: Sched): Sched {
    if s.paused then s else s.(trigger := true)
  }

  /** Does the loop start a pass when its wait returns? */
  predicate Runs(s: Sched, timedOut: bool) {
    s.trigger || (timedOut && !s.paused)
  }

  class Control {
    var paused: bool
    var trigger: bool

    function View(): Sched
      reads this
    {
      Sched(paused, trigger)
    }

    constructor ()
      ensures View() == Sched(false, false)
    {
      paused, trigger := false, false;
    }

    method SetPaused(value: bool)
      modifies this
      ensures View() == old(View()).(paused := value)
    {
      paused := value;
    }

    method Trigger()
      modifies this
      ensures View() == old(View()).(trigger := true)
    {
      trigger := true;
    }

    /** One round of `watch_loop`. */
    method OnLocalChange()
      modifies this
      ensures View() == LocalChanged(old(View()))
    {
      if !paused {
        trigger := true;
      }
    }

    /** What `sync_loop` does when its wait returns. */
    method AfterWait(timedOut: bool) returns (run: bool)
      modifies this
      ensures run == Runs(old(View()), timedOut)
      ensures View() == old(View()).(trigger := false)
    {
      var triggered := trigger;
      trigger := false;
      run := triggered || (timedOut && !paused);
    }
  }

  // ----- Interleavings -----

  /** `waiting` numbers the triggers not yet served; `passes` lists, for every sync pass
      started, the triggers it serves: none for a periodic pass. */
  datatype World = World(sched: Sched, passing: bool, triggers: nat, waiting: seq<nat>, passes: seq<seq<nat>>)

  datatype Action = Pause | Resume | TriggerNow | LocalChange | WaitReturns(timedOut: bool) | PassEnds

  /** The wait returns when the trigger is set or the interval has elapsed. */
  predicate Enabled(w: World, a: Action) {
    match a
    case WaitReturns(timedOut) => !w.passing && (w.sched.trigger || timedOut)
    case PassEnds => w.passing
    case _ => true
  }

  function Apply(w: World, a: Action): World
    requires Enabled(w, a)
  {
    match a
    case Pause => w.(sched := w.sched.(paused := true))
    case Resume => w.(sched := w.sched.(paused := false))
    case TriggerNow => Signalled(w, w.sched.(trigger := true))
    case LocalChange => if w.sched.paused then w.(sched := LocalChanged(w.sched)) else Signalled(w, LocalChanged(w.sched))
    case WaitReturns(timedOut) =>
      var cleared := w.(sched := w.sched.(trigger := false));
      if Runs(w.sched, timedOut) then cleared.(passing := true, passes := w.passes + [w.waiting], waiting := [])
      else cleared
    case PassEnds => w.(passing := false)
  }

  /** One more trigger waits, the control being left so. */
  function Signalled(w: World, sched: Sched): World {
    w.(sched := sched, triggers := w.triggers + 1, waiting := w.waiting + [w.triggers])
  }

  const START := World(Sched(false, false), false, 0, [], [])

  /** The flag stands for the triggers waiting, and no trigger is lost or served twice. */
  predicate Inv(w: World) {
    && (w.sched.trigger <==> w.waiting != [])
    && Partitions(w.passes, w.waiting, w.triggers)
  }

  lemma InvKept(w: World, a: Action)
    requires Inv(w) && Enabled(w, a)
    ensures Inv(Apply(w, a))
  {
    Joins(w.passes, w.waiting, w.triggers);
    Closes(w.passes, w.waiting, w.triggers);
  }

  function Run(acts: seq<Action>): World
    requires Runnable(acts)
    decreases |acts|, 1
  {
    if acts == [] then START else Apply(Run(acts[..|acts| - 1]), acts[|acts| - 1])
  }

  predicate Runnable(acts: seq<Action>)
    decreases |acts|, 0
  {
    acts == [] || (Runnable(acts[..|acts| - 1]) && Enabled(Run(acts[..|acts| - 1]), acts[|acts| - 1]))
  }

  /** In every interleaving each trigger is served by exactly one later pass, or waits
      behind a set flag. */
  lemma {:induction false} TriggersServedOnce(acts: seq<Action>)
    requires Runnable(acts)
    ensures Run(acts).sched.trigger <==> Run(acts).waiting != []
    ensures Partitions(Run(acts).passes, Run(acts).waiting, Run(acts).triggers)
  {
    if acts == [] {
    } else {
      TriggersServedOnce(acts[..|acts| - 1]);
      InvKept(Run(acts[..|acts| - 1]), acts[|acts| - 1]);
    }
  }

  /** Whether the last pause or resume is a pause. */
  predicate PausedAfter(acts: seq<Action>) {
    acts != []
    && var a := acts[|acts| - 1];
       if a.Pause? then true else if a.Resume? then false else PausedAfter(acts[..|acts| - 1])
  }

  /** How often the loop was to be woken: by every "sync now", and by every local change
      while not paused. */
  function Signals(acts: seq<Action>): nat {
    if acts == [] then 0
    else
      var front, a := acts[..|acts| - 1], acts[|acts| - 1];
      Signals(front) + (if a.TriggerNow? || (a.LocalChange? && !PausedAfter(front)) then 1 else 0)
  }

  /** In every interleaving the flags follow the calls: paused since the last pause, and
      as many triggers as calls that are to wake the loop. */
  lemma {:induction false} SignalsCounted(acts: seq<Action>)
    requires Runnable(acts)
    ensures Run(acts).sched.paused <==> PausedAfter(acts)
    ensures Run(acts).triggers == Signals(acts)
  {
    if acts == [] {
    } else {
      SignalsCounted(acts[..|acts| - 1]);
    }
  }

  /** When the wait of the loop returns, a pass starts exactly when a trigger waits, or
      when the interval has elapsed and nobody has paused since the last resume; it serves all
      waiting triggers, and the flag is cleared in no other way. */
  lemma PassDiscipline(acts: seq<Action>, a: Action)
    requires Runnable(acts) && Enabled(Run(acts), a)
    ensures var w, w' := Run(acts), Apply(Run(acts), a);
            && (a.WaitReturns? && (w.waiting != [] || (a.timedOut && !PausedAfter(acts))) ==>
                  w'.passes == w.passes + [w.waiting] && w'.waiting == [] && w'.passing)
            && (!(a.WaitReturns? && (w.waiting != [] || (a.timedOut && !PausedAfter(acts)))) ==>
                  w'.passes == w.passes && (w.sched.trigger ==> w'.sched.trigger))
            && (w.waiting != [] && !w.passing ==> Enabled(w, WaitReturns(false)))
  {
    TriggersServedOnce(acts);
    SignalsCounted(acts);
  }
}
