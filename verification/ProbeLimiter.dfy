/** The connectivity probe limiter: a compare-exchange loop on a shared counter, and
    permits released on drop. Every step is one atomic operation. */
module ProbeLimiter {

  const MAX_CONCURRENT_PROBES := 2

  /** The counter with its atomic operations. */
  class Counter {
    var inFlight: nat

    constructor ()
      ensures inFlight == 0
    {
      inFlight := 0;
    }

    /** `compare_exchange_weak`: may fail spuriously; reports the value it saw. */
    method CompareExchangeWeak(current: nat, spurious: bool) returns (ok: bool, seen: nat)
      modifies this
      ensures ok <==> !spurious && old(inFlight) == current
      ensures seen == old(inFlight)
      ensures inFlight == if ok then current + 1 else old(inFlight)
    {
      seen := inFlight;
      ok := !spurious && inFlight == current;
      if ok {
        inFlight := current + 1;
      }
    }

    /** Dropping a permit. */
    method FetchSub()
      modifies this
      ensures inFlight == Decrement(old(inFlight))
    {
      inFlight := if inFlight == 0 then 0xFFFF_FFFF_FFFF_FFFF else inFlight - 1;
    }

    /** `try_acquire`, run without interference: the weak exchange may fail spuriously,
        here at most `budget` times. */
    method TryAcquire(budget: nat) returns (acquired: bool)
      modifies this
      ensures acquired <==> old(inFlight) < 2
      ensures inFlight == if acquired then old(inFlight) + 1 else old(inFlight)
    {
      var current := inFlight;
      var spurious := budget;
      while current < MAX_CONCURRENT_PROBES
        invariant current == inFlight == old(inFlight)
        decreases spurious
      {
        var ok, seen := CompareExchangeWeak(current, spurious > 0);
        if ok {
          return true;
        }
        current := seen;
        spurious := spurious - 1;
      }
      acquired := false;
    }
  }

  /** A caller of `try_acquire` between its reads and its compare-exchange. */
  datatype Caller = Idle | Trying(current: nat)

  datatype World = World(inFlight: nat, live: set<nat>, callers: map<nat, Caller>) {
    function Of(t: nat): Caller {
      if t in callers then callers[t] else Idle
    }
  }

  const START := World(0, {}, map[])

  datatype Action =
    | Load(caller: nat)
    | Exchange(caller: nat, permit: nat)
    | ExchangeFails(caller: nat)
    | Refuse(caller: nat)
    | Drop(permit: nat)

  predicate Below(c: Caller) {
    c.Trying? && c.current < MAX_CONCURRENT_PROBES
  }

  /** A weak exchange may fail although the counter still has the expected value. */
  predicate Enabled(w: World, a: Action) {
    match a
    case Load(t) => w.Of(t).Idle?
    case Exchange(t, permit) => Below(w.Of(t)) && w.inFlight == w.Of(t).current && permit !in w.live
    case ExchangeFails(t) => Below(w.Of(t))
    case Refuse(t) => w.Of(t).Trying? && !Below(w.Of(t))
    case Drop(permit) => permit in w.live
  }

  /** `fetch_sub` wraps around at zero. */
  function Decrement(n: nat): nat {
    if n == 0 then 0xFFFF_FFFF_FFFF_FFFF else n - 1
  }

  function Apply(w: World, a: Action): World
    requires Enabled(w, a)
  {
    match a
    case Load(t) => w.(callers := w.callers[t := Trying(w.inFlight)])
    case Exchange(t, permit) =>
      World(w.inFlight + 1, w.live + {permit}, w.callers[t := Idle])
    case ExchangeFails(t) => w.(callers := w.callers[t := Trying(w.inFlight)])
    case Refuse(t) => w.(callers := w.callers[t := Idle])
    case Drop(permit) => World(Decrement(w.inFlight), w.live - {permit}, w.callers)
  }

  /** The counter is the number of live permits, within the limit. */
  predicate Inv(w: World) {
    w.inFlight == |w.live| <= 2
  }

  lemma InvKept(w: World, a: Action)
    requires Inv(w) && Enabled(w, a)
    ensures Inv(Apply(w, a))
    ensures a.Drop? ==> w.inFlight > 0
  {
    if a.Drop? {
      assert |w.live - {a.permit}| == |w.live| - 1;
    }
  }

  ghost predicate IsRun(ws: seq<World>, acts: seq<Action>) {
    && |ws| == |acts| + 1 && ws[0] == START
    && forall i :: 0 <= i < |acts| ==> Enabled(ws[i], acts[i]) && ws[i + 1] == Apply(ws[i], acts[i])
  }

  /** In every interleaving the counter equals the number of live permits, never exceeds
      two and never underflows. */
  lemma {:induction false} CounterIsExact(ws: seq<World>, acts: seq<Action>, i: nat)
    requires IsRun(ws, acts) && i < |ws|
    ensures Inv(ws[i])
    ensures i < |acts| && acts[i].Drop? ==> ws[i].inFlight > 0
  {
    if i == 0 {
    } else {
      CounterIsExact(ws, acts, i - 1);
      InvKept(ws[i - 1], acts[i - 1]);
    }
    if i < |acts| {
      InvKept(ws[i], acts[i]);
    }
  }

  predicate IsBy(a: Action, t: nat) {
    !a.Drop? && a.caller == t
  }

  /** What a caller holds is what the counter was when it last looked. */
  lemma {:induction false} LastLook(ws: seq<World>, acts: seq<Action>, j: nat, t: nat) returns (i: nat)
    requires IsRun(ws, acts) && j < |ws| && ws[j].Of(t).Trying?
    ensures i < j && (acts[i] == Load(t) || acts[i] == ExchangeFails(t))
    ensures ws[i].inFlight == ws[j].Of(t).current
    ensures forall k :: i < k < j ==> !IsBy(acts[k], t)
  {
    CounterIsExact(ws, acts, j - 1);
    var a := acts[j - 1];
    if a == Load(t) || a == ExchangeFails(t) {
      i := j - 1;
    } else {
      i := LastLook(ws, acts, j - 1, t);
    }
  }

  /** A refusal means the limit was full at a moment inside that very call: at its last
      look at the counter. */
  lemma RefusalSawLimit(ws: seq<World>, acts: seq<Action>, j: nat) returns (i: nat)
    requires IsRun(ws, acts) && j < |acts| && acts[j].Refuse?
    ensures i < j && (acts[i] == Load(acts[j].caller) || acts[i] == ExchangeFails(acts[j].caller))
    ensures forall k :: i < k < j ==> !IsBy(acts[k], acts[j].caller)
    ensures ws[i].inFlight == |ws[i].live| == 2
  {
    i := LastLook(ws, acts, j, acts[j].caller);
    CounterIsExact(ws, acts, i);
  }
}
