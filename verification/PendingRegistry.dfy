/** One-time confirmation of destructive actions: the in-memory registry of pending
    actions, its calls as atomic steps under the lock, and what holds over every
    sequence of calls. Ids and tokens are the random values drawn by the calls. */
module PendingRegistry {
  import opened Bytes
  import MacInputs

  datatype ToolAction = ToolAction(op: Text, account: Text, service: Option<Text>, payload: Text)

  datatype Owner = Owner(account: Text, sessionId: Text, requestId: Text, turnId: Text)

  datatype Pending = Pending(
    action: ToolAction, token: Text, preview: Text, actionHash: Text, expiresAtMs: u64, owner: Owner)

  datatype ConfirmError = NotFound | Expired | BadToken | ActionMismatch | Unavailable

  datatype ActionBinding = ActionBinding(op: Text, account: Text, service: Text, item: Text, expiresAtMs: u64)

  type Table = map<Text, Pending>

  /** `action_hash`, as an arbitrary function of the action and its deadline. */
  type ActionHash = (ToolAction, u64) -> Text

  // ----- Constant-time comparison -----

  /** Bitwise exclusive or, and or, of numbers below 2^n. */
  function Xor(x: nat, y: nat): nat
    decreases x + y
  {
    if x == 0 && y == 0 then 0 else 2 * Xor(x / 2, y / 2) + (if x % 2 != y % 2 then 1 else 0)
  }

  function Or(x: nat, y: nat): nat
    decreases x + y
  {
    if x == 0 && y == 0 then 0 else 2 * Or(x / 2, y / 2) + (if x % 2 == 1 || y % 2 == 1 then 1 else 0)
  }

  lemma {:induction false} XorZero(x: nat, y: nat)
    ensures Xor(x, y) == 0 <==> x == y
    decreases x + y
  {
    if x == 0 && y == 0 {
    } else {
      XorZero(x / 2, y / 2);
    }
  }

  lemma {:induction false} OrZero(x: nat, y: nat)
    ensures Or(x, y) == 0 <==> x == 0 && y == 0
    decreases x + y
  {
    if x == 0 && y == 0 {
    } else {
      OrZero(x / 2, y / 2);
    }
  }

  /** `ct_eq`: accumulate the differences without an early exit; still equality. */
  method CtEq(a: Text, b: Text) returns (eq: bool)
    ensures eq <==> a == b
  {
    if |a| != |b| {
      return false;
    }
    var diff: nat := 0;
    for i := 0 to |a|
      invariant diff == 0 <==> a[..i] == b[..i]
    {
      XorZero(a[i], b[i]);
      OrZero(diff, Xor(a[i], b[i]));
      assert a[..i + 1] == a[..i] + [a[i]] && b[..i + 1] == b[..i] + [b[i]];
      diff := Or(diff, Xor(a[i], b[i]));
    }
    assert a[..|a|] == a && b[..|b|] == b;
    eq := diff == 0;
  }

  // ----- Calls -----

  /** `drawn` says that the random source, and the hashing of the action, did not fail. */
  datatype Call =
    | Register(action: ToolAction, preview: Text, nowMs: u64, ttlMs: u64, owner: Owner,
               drawn: bool, id: Text, token: Text)
    | Confirm(id: Text, token: Text, hash: Text, nowMs: u64)
    | Binding(id: Text, hash: Text, nowMs: u64)
    | Cancel(id: Text, hash: Text, nowMs: u64)
    | Reissue(owner: Owner, nowMs: u64, drawn: bool, token: Text)
    | HasPending(turnId: Text, nowMs: u64)

  datatype Reply =
    | Registered(pending: Pending)
    | NotRegistered
    | Confirmed(action: ToolAction)
    | Bound(binding: ActionBinding)
    | Cancelled(owner: Owner)
    | Reissued(id: Text, pending: Pending)
    | NothingToReissue
    | Found(found: bool)
    | Failed(error: ConfirmError)

  function Deadline(nowMs: u64, ttlMs: u64): u64 {
    if nowMs + ttlMs <= U64_MAX then nowMs + ttlMs else U64_MAX
  }

  function NewPending(h: ActionHash, c: Call): Pending
    requires c.Register?
  {
    var deadline := Deadline(c.nowMs, c.ttlMs);
    Pending(c.action, c.token, c.preview, h(c.action, deadline), deadline, c.owner)
  }

  /** The checks shared by confirm, binding and cancel; an expired entry is dropped. */
  function Refusal(t: Table, id: Text, hash: Text, nowMs: u64): Option<ConfirmError> {
    if id !in t then Some(NotFound)
    else if nowMs >= t[id].expiresAtMs then Some(Expired)
    else if hash != t[id].actionHash then Some(ActionMismatch)
    else None
  }

  function Refused(t: Table, id: Text, error: ConfirmError): Table {
    if error == Expired then t - {id} else t
  }

  /** `retain`: drop what has expired. */
  function Live(t: Table, nowMs: u64): Table {
    map id | id in t && nowMs < t[id].expiresAtMs :: t[id]
  }

  function OwnedBy(t: Table, owner: Owner): set<Text> {
    set id | id in t && t[id].owner == owner
  }

  function BindingOf(p: Pending, id: Text, hash: Text): ActionBinding {
    ActionBinding(p.action.op, p.action.account,
                  if p.action.service.Some? then p.action.service.value else Ascii("agent"),
                  MacInputs.BindingItem(id, hash), p.expiresAtMs)
  }

  datatype Outcome = Outcome(table: Table, reply: Reply)

  ghost function Step(h: ActionHash, t: Table, c: Call): Outcome {
    match c
    case Register(_, _, _, _, _, drawn, id, _) =>
      if !drawn then Outcome(t, NotRegistered)
      else Outcome(t[id := NewPending(h, c)], Registered(NewPending(h, c)))
    case Confirm(id, token, hash, nowMs) =>
      var error := Refusal(t, id, hash, nowMs);
      if error.Some? then Outcome(Refused(t, id, error.value), Failed(error.value))
      else if token != t[id].token then Outcome(t, Failed(BadToken))
      else Outcome(t - {id}, Confirmed(t[id].action))
    case Binding(id, hash, nowMs) =>
      var error := Refusal(t, id, hash, nowMs);
      if error.Some? then Outcome(Refused(t, id, error.value), Failed(error.value))
      else Outcome(t, Bound(BindingOf(t[id], id, hash)))
    case Cancel(id, hash, nowMs) =>
      var error := Refusal(t, id, hash, nowMs);
      if error.Some? then Outcome(Refused(t, id, error.value), Failed(error.value))
      else Outcome(t - {id}, Cancelled(t[id].owner))
    case Reissue(owner, nowMs, drawn, token) =>
      var live := Live(t, nowMs);
      var matching := OwnedBy(live, owner);
      if !drawn then Outcome(t, Failed(Unavailable))
      else if matching == {} then Outcome(live, NothingToReissue)
      else if |matching| != 1 then Outcome(live, Failed(Unavailable))
      else
        var id := TheOnly(matching);
        Outcome(live[id := live[id].(token := token)], Reissued(id, live[id].(token := token)))
    case HasPending(turnId, nowMs) =>
      var live := Live(t, nowMs);
      Outcome(live, Found(exists id :: id in live && live[id].owner.turnId == turnId))
  }

  ghost function TheOnly(s: set<Text>): (id: Text)
    requires |s| == 1
    ensures s == {id}
  {
    var id :| id in s;
    assert |s - {id}| == 0;
    id
  }

  // ----- The registry as the object it is -----

  class Registry {
    const actionHash: ActionHash
    var inner: Table

    constructor (actionHash: ActionHash)
      ensures this.actionHash == actionHash && inner == map[]
    {
      this.actionHash := actionHash;
      inner := map[];
    }

    method RegisterBound(c: Call) returns (reply: Reply)
      requires c.Register?
      modifies this
      ensures Outcome(inner, reply) == Step(actionHash, old(inner), c)
      ensures c.drawn ==> reply == Registered(Expected(actionHash, c, c.token))
    {
      if !c.drawn {
        return NotRegistered;
      }
      var deadline := Deadline(c.nowMs, c.ttlMs);
      var p := Pending(c.action, c.token, c.preview, actionHash(c.action, deadline), deadline, c.owner);
      inner := inner[c.id := p];
      reply := Registered(p);
    }

    /** Look up, drop when expired, compare the action hash. */
    method Check(id: Text, hash: Text, nowMs: u64) returns (error: Option<ConfirmError>)
      modifies this
      ensures error == Refusal(old(inner), id, hash, nowMs)
      ensures inner == if error.Some? then Refused(old(inner), id, error.value) else old(inner)
    {
      if id !in inner {
        return Some(NotFound);
      }
      var pending := inner[id];
      if nowMs >= pending.expiresAtMs {
        inner := inner - {id};
        return Some(Expired);
      }
      var same := CtEq(hash, pending.actionHash);
      if !same {
        return Some(ActionMismatch);
      }
      error := None;
    }

    method ConfirmAction(id: Text, token: Text, hash: Text, nowMs: u64) returns (reply: Reply)
      modifies this
      ensures Outcome(inner, reply) == Step(actionHash, old(inner), Confirm(id, token, hash, nowMs))
    {
      var error := Check(id, hash, nowMs);
      if error.Some? {
        return Failed(error.value);
      }
      var same := CtEq(token, inner[id].token);
      if !same {
        return Failed(BadToken);
      }
      reply := Confirmed(inner[id].action);
      inner := inner - {id};
    }

    method GetBinding(id: Text, hash: Text, nowMs: u64) returns (reply: Reply)
      modifies this
      ensures Outcome(inner, reply) == Step(actionHash, old(inner), Binding(id, hash, nowMs))
    {
      var error := Check(id, hash, nowMs);
      if error.Some? {
        return Failed(error.value);
      }
      reply := Bound(BindingOf(inner[id], id, hash));
    }

    method CancelAction(id: Text, hash: Text, nowMs: u64) returns (reply: Reply)
      modifies this
      ensures Outcome(inner, reply) == Step(actionHash, old(inner), Cancel(id, hash, nowMs))
    {
      var error := Check(id, hash, nowMs);
      if error.Some? {
        return Failed(error.value);
      }
      reply := Cancelled(inner[id].owner);
      inner := inner - {id};
    }

    method ReissueForOwner(owner: Owner, nowMs: u64, drawn: bool, token: Text) returns (reply: Reply)
      modifies this
      ensures Outcome(inner, reply) == Step(actionHash, old(inner), Reissue(owner, nowMs, drawn, token))
    {
      if !drawn {
        return Failed(Unavailable);
      }
      inner := Live(inner, nowMs);
      var matching := OwnedBy(inner, owner);
      if matching == {} {
        return NothingToReissue;
      }
      if |matching| != 1 {
        return Failed(Unavailable);
      }
      var id :| id in matching;
      assert {id} == matching by {
        assert TheOnly(matching) in matching;
      }
      var rotated := inner[id].(token := token);
      inner := inner[id := rotated];
      reply := Reissued(id, rotated);
    }

    method HasPendingForTurn(turnId: Text, nowMs: u64) returns (reply: Reply)
      modifies this
      ensures Outcome(inner, reply) == Step(actionHash, old(inner), HasPending(turnId, nowMs))
    {
      inner := Live(inner, nowMs);
      reply := Found(exists id :: id in inner && inner[id].owner.turnId == turnId);
    }
  }

  // ----- Runs -----

  datatype Entry = Entry(call: Call, reply: Reply)

  datatype Run = Run(table: Table, log: seq<Entry>)

  ghost function Execute(h: ActionHash, calls: seq<Call>): Run {
    if calls == [] then Run(map[], [])
    else
      var before := Execute(h, calls[..|calls| - 1]);
      var c := calls[|calls| - 1];
      var o := Step(h, before.table, c);
      Run(o.table, before.log + [Entry(c, o.reply)])
  }

  predicate Draws(c: Call) {
    c.Register? && c.drawn
  }

  /** The random ids never repeat. */
  predicate FreshIds(calls: seq<Call>) {
    forall i, j :: 0 <= i < j < |calls| && Draws(calls[i]) && Draws(calls[j]) ==> calls[i].id != calls[j].id
  }

  predicate Registers(c: Call, id: Text) {
    Draws(c) && c.id == id
  }

  /** The call that registered an id. */
  function RegisterCall(log: seq<Entry>, id: Text): (c: Option<Call>)
    ensures c.Some? ==> Registers(c.value, id)
  {
    if log == [] then None
    else if Registers(log[|log| - 1].call, id) then Some(log[|log| - 1].call)
    else RegisterCall(log[..|log| - 1], id)
  }

  predicate Reissues(e: Entry, id: Text) {
    e.call.Reissue? && e.reply.Reissued? && e.reply.id == id
  }

  /** The token of the call that last handed one out for an id. */
  function LatestToken(log: seq<Entry>, id: Text): Option<Text> {
    if log == [] then None
    else
      var last := log[|log| - 1];
      if Registers(last.call, id) then Some(last.call.token)
      else if Reissues(last, id) then Some(last.call.token)
      else LatestToken(log[..|log| - 1], id)
  }

  predicate Consumes(e: Entry, id: Text) {
    || (e.call.Confirm? && e.call.id == id && e.reply.Confirmed?)
    || (e.call.Cancel? && e.call.id == id && e.reply.Cancelled?)
  }

  /** How often an id was consumed, by confirm and cancel together. */
  function Consumptions(log: seq<Entry>, id: Text): nat {
    if log == [] then 0
    else Consumptions(log[..|log| - 1], id) + (if Consumes(log[|log| - 1], id) then 1 else 0)
  }

  /** When a registered action expires: the sum, or the largest 64-bit number. */
  function DueAt(c: Call): u64
    requires c.Register?
  {
    if c.nowMs + c.ttlMs < 0x1_0000_0000_0000_0000 then c.nowMs + c.ttlMs else 0xFFFF_FFFF_FFFF_FFFF
  }

  /** A call that drops the entry of an id if it has expired: one about that id, or a sweep. */
  predicate LooksAt(c: Call, id: Text) {
    || ((c.Confirm? || c.Binding? || c.Cancel?) && c.id == id)
    || (c.Reissue? && c.drawn)
    || c.HasPending?
  }

  /** Consumed, or seen after its deadline. */
  predicate Ended(e: Entry, id: Text, reg: Call)
    requires reg.Register?
  {
    Consumes(e, id) || (LooksAt(e.call, id) && e.call.nowMs >= DueAt(reg))
  }

  /** Registered and not ended since. */
  predicate Waiting(log: seq<Entry>, id: Text) {
    log != []
    && var last, front := log[|log| - 1], log[..|log| - 1];
       || Registers(last.call, id)
       || (Waiting(front, id) && RegisterCall(front, id).Some? && !Ended(last, id, RegisterCall(front, id).value))
  }

  /** The entry a registration leaves, with the token handed out last. */
  function Expected(h: ActionHash, reg: Call, token: Text): Pending
    requires reg.Register?
  {
    Pending(reg.action, token, reg.preview, h(reg.action, DueAt(reg)), DueAt(reg), reg.owner)
  }

  /** Everything the log says about one id. */
  datatype History = History(reg: Option<Call>, token: Option<Text>, waiting: bool, consumed: nat)

  function HistoryOf(log: seq<Entry>, id: Text): History {
    History(RegisterCall(log, id), LatestToken(log, id), Waiting(log, id), Consumptions(log, id))
  }

  /** The table holds what the log says, and no id is consumed twice. */
  ghost predicate HistoryOk(h: ActionHash, pending: Option<Pending>, s: History) {
    && s.consumed <= 1 && (s.reg.None? ==> s.consumed == 0 && !s.waiting)
    && (s.waiting ==>
          && s.reg.Some? && s.reg.value.Register? && s.token.Some? && s.consumed == 0
          && pending == Some(Expected(h, s.reg.value, s.token.value)))
    && (!s.waiting ==> pending.None?)
  }

  function Lookup(t: Table, id: Text): Option<Pending> {
    if id in t then Some(t[id]) else None
  }

  ghost predicate EntryOk(h: ActionHash, r: Run, id: Text) {
    HistoryOk(h, Lookup(r.table, id), HistoryOf(r.log, id))
  }

  /** What one more entry adds to the history of an id. */
  function NextHistory(s: History, e: Entry, id: Text): History {
    if Registers(e.call, id) then History(Some(e.call), Some(e.call.token), true, s.consumed)
    else
      History(s.reg, if Reissues(e, id) then Some(e.call.token) else s.token,
              s.waiting && s.reg.Some? && s.reg.value.Register? && !Ended(e, id, s.reg.value),
              s.consumed + (if Consumes(e, id) then 1 else 0))
  }

  lemma LogGrows(log: seq<Entry>, e: Entry, id: Text)
    ensures HistoryOf(log + [e], id) == NextHistory(HistoryOf(log, id), e, id)
  {
    assert (log + [e])[..|log|] == log;
  }

  lemma RegisterKeeps(h: ActionHash, t: Table, s: History, c: Call, id: Text)
    requires HistoryOk(h, Lookup(t, id), s) && c.Register? && (Registers(c, id) ==> s.reg.None?)
    ensures var o := Step(h, t, c); HistoryOk(h, Lookup(o.table, id), NextHistory(s, Entry(c, o.reply), id))
  {
  }

  /** Confirm, binding and cancel. */
  lemma LookupKeeps(h: ActionHash, t: Table, s: History, c: Call, id: Text)
    requires HistoryOk(h, Lookup(t, id), s) && (c.Confirm? || c.Binding? || c.Cancel?)
    ensures var o := Step(h, t, c); HistoryOk(h, Lookup(o.table, id), NextHistory(s, Entry(c, o.reply), id))
  {
  }

  lemma SweepKeeps(h: ActionHash, t: Table, s: History, c: Call, id: Text)
    requires HistoryOk(h, Lookup(t, id), s) && (c.Reissue? || c.HasPending?)
    ensures var o := Step(h, t, c); HistoryOk(h, Lookup(o.table, id), NextHistory(s, Entry(c, o.reply), id))
  {
  }

  lemma StepKeeps(h: ActionHash, t: Table, s: History, c: Call, id: Text)
    requires HistoryOk(h, Lookup(t, id), s) && (Registers(c, id) ==> s.reg.None?)
    ensures var o := Step(h, t, c); HistoryOk(h, Lookup(o.table, id), NextHistory(s, Entry(c, o.reply), id))
  {
    if c.Register? {
      RegisterKeeps(h, t, s, c, id);
    } else if c.Reissue? || c.HasPending? {
      SweepKeeps(h, t, s, c, id);
    } else {
      LookupKeeps(h, t, s, c, id);
    }
  }

  lemma {:induction false} Unregistered(h: ActionHash, calls: seq<Call>, id: Text)
    requires forall i :: 0 <= i < |calls| ==> !Registers(calls[i], id)
    ensures RegisterCall(Execute(h, calls).log, id).None?
    decreases |calls|
  {
    if calls == [] {
    } else {
      var front := calls[..|calls| - 1];
      Unregistered(h, front, id);
      var log := Execute(h, calls).log;
      assert log[..|log| - 1] == Execute(h, front).log;
    }
  }

  /** After every sequence of calls with fresh ids the table is what the log says: an id is
      pending exactly while it waits, with the action, preview and owner of the call that
      registered it, the hash of its action and deadline, and the token handed out last. */
  lemma {:induction false} TableIsHistory(h: ActionHash, calls: seq<Call>, id: Text)
    requires FreshIds(calls)
    ensures EntryOk(h, Execute(h, calls), id)
    decreases |calls|
  {
    if calls == [] {
    } else {
      var front, c := calls[..|calls| - 1], calls[|calls| - 1];
      TableIsHistory(h, front, id);
      var r := Execute(h, front);
      if Registers(c, id) {
        forall i | 0 <= i < |front| ensures !Registers(front[i], id) {
          assert calls[i] == front[i];
        }
        Unregistered(h, front, id);
      }
      StepKeeps(h, r.table, HistoryOf(r.log, id), c, id);
      LogGrows(r.log, Entry(c, Step(h, r.table, c).reply), id);
    }
  }

  /** Over every sequence of calls, an action is consumed at most once in total. */
  lemma ConsumedAtMostOnce(h: ActionHash, calls: seq<Call>, id: Text)
    requires FreshIds(calls)
    ensures Consumptions(Execute(h, calls).log, id) <= 1
  {
    TableIsHistory(h, calls, id);
  }

  lemma ConfirmStep(h: ActionHash, t: Table, c: Call)
    requires c.Confirm?
    ensures Step(h, t, c).reply.Confirmed?
            <==> c.id in t && c.nowMs < t[c.id].expiresAtMs && c.hash == t[c.id].actionHash && c.token == t[c.id].token
    ensures Step(h, t, c).reply.Confirmed? ==> Step(h, t, c).reply.action == t[c.id].action
  {
  }

  /** A confirmation that succeeds after any sequence of calls returns the action given to
      the call that registered the id, comes before that call's deadline, with the hash of
      that action and deadline and the token handed out last, and is the first consumption. */
  lemma ConfirmIsSound(h: ActionHash, calls: seq<Call>, c: Call)
    requires FreshIds(calls) && c.Confirm?
    requires Step(h, Execute(h, calls).table, c).reply.Confirmed?
    ensures var r := Execute(h, calls);
            var reg := RegisterCall(r.log, c.id);
            && reg.Some?
            && Step(h, r.table, c).reply.action == reg.value.action
            && c.hash == h(reg.value.action, DueAt(reg.value)) && c.nowMs < DueAt(reg.value)
            && LatestToken(r.log, c.id) == Some(c.token)
            && Consumptions(r.log, c.id) == 0
  {
    ConfirmStep(h, Execute(h, calls).table, c);
    TableIsHistory(h, calls, c.id);
  }

  /** And conversely, with the reply to every other confirmation: not found unless the
      action waits, then expired, another action, a wrong token, in that order. */
  lemma ConfirmIsComplete(h: ActionHash, calls: seq<Call>, c: Call)
    requires FreshIds(calls) && c.Confirm?
    ensures var r := Execute(h, calls);
            var reg, reply := RegisterCall(r.log, c.id), Step(h, r.table, c).reply;
            && (Waiting(r.log, c.id) ==> reg.Some?)
            && reply == (if !Waiting(r.log, c.id) then Failed(NotFound)
                         else if c.nowMs >= DueAt(reg.value) then Failed(Expired)
                         else if c.hash != h(reg.value.action, DueAt(reg.value)) then Failed(ActionMismatch)
                         else if LatestToken(r.log, c.id) != Some(c.token) then Failed(BadToken)
                         else Confirmed(reg.value.action))
  {
    TableIsHistory(h, calls, c.id);
  }

  /** The public binding and a cancellation likewise come from the call that registered
      the id, while it waits, for the hash of its action and deadline, and need no token. */
  lemma LookupsAnswer(h: ActionHash, calls: seq<Call>, c: Call)
    requires FreshIds(calls) && (c.Binding? || c.Cancel?)
    ensures var r := Execute(h, calls);
            var reg, reply := RegisterCall(r.log, c.id), Step(h, r.table, c).reply;
            && (reply.Bound? || reply.Cancelled?
                <==> (&& Waiting(r.log, c.id) && reg.Some?
                      && c.hash == h(reg.value.action, DueAt(reg.value)) && c.nowMs < DueAt(reg.value)))
            && (reply.Cancelled? ==> c.Cancel? && reply.owner == reg.value.owner)
            && (reply.Bound? ==>
                  && c.Binding?
                  && reply.binding.op == reg.value.action.op && reply.binding.account == reg.value.action.account
                  && reply.binding.service
                     == (match reg.value.action.service case Some(s) => s case None => Ascii("agent"))
                  && reply.binding.item == MacInputs.BindingItem(c.id, c.hash)
                  && reply.binding.expiresAtMs == DueAt(reg.value))
  {
    TableIsHistory(h, calls, c.id);
  }

  /** Waiting, registered for this owner and not expired at this time. */
  predicate Owned(log: seq<Entry>, owner: Owner, nowMs: u64, id: Text) {
    && Waiting(log, id) && RegisterCall(log, id).Some?
    && RegisterCall(log, id).value.owner == owner && nowMs < DueAt(RegisterCall(log, id).value)
  }

  lemma OwnedMeans(h: ActionHash, calls: seq<Call>, owner: Owner, nowMs: u64, id: Text)
    requires FreshIds(calls)
    ensures var r := Execute(h, calls);
            id in OwnedBy(Live(r.table, nowMs), owner) <==> Owned(r.log, owner, nowMs, id)
  {
    TableIsHistory(h, calls, id);
  }

  /** A token is rotated for an id exactly when its action is the only one that waits for
      that owner; its action is that of the call that registered it, its token the new one. */
  lemma ReissueAnswers(h: ActionHash, calls: seq<Call>, c: Call, id: Text)
    requires FreshIds(calls) && c.Reissue?
    ensures var r := Execute(h, calls);
            var reply := Step(h, r.table, c).reply;
            && (reply.Reissued? && reply.id == id
                <==> (&& c.drawn && Owned(r.log, c.owner, c.nowMs, id)
                      && forall other :: Owned(r.log, c.owner, c.nowMs, other) ==> other == id))
            && (reply.Reissued? && reply.id == id ==>
                  reply.pending == Expected(h, RegisterCall(r.log, id).value, c.token))
            && (reply.NothingToReissue?
                <==> c.drawn && forall other :: !Owned(r.log, c.owner, c.nowMs, other))
  {
    var r := Execute(h, calls);
    forall other ensures other in OwnedBy(Live(r.table, c.nowMs), c.owner) <==> Owned(r.log, c.owner, c.nowMs, other) {
      OwnedMeans(h, calls, c.owner, c.nowMs, other);
    }
    TableIsHistory(h, calls, id);
    ReissueStep(h, r.table, c, id);
  }

  lemma ReissueStep(h: ActionHash, t: Table, c: Call, id: Text)
    requires c.Reissue?
    ensures var o, matching := Step(h, t, c), OwnedBy(Live(t, c.nowMs), c.owner);
            && (o.reply.Reissued? && o.reply.id == id
                <==> c.drawn && id in matching && forall other :: other in matching ==> other == id)
            && (o.reply.Reissued? && o.reply.id == id ==> id in t && o.reply.pending == t[id].(token := c.token))
            && (o.reply.NothingToReissue? <==> c.drawn && forall other :: other !in matching)
  {
    var matching := OwnedBy(Live(t, c.nowMs), c.owner);
    if id in matching && (forall other :: other in matching ==> other == id) {
      assert matching == {id};
    }
    if |matching| == 1 {
      assert TheOnly(matching) in matching;
    }
  }

  /** Waiting, registered for this turn and not expired at this time. */
  predicate ForTurn(log: seq<Entry>, turnId: Text, nowMs: u64, id: Text) {
    && Waiting(log, id) && RegisterCall(log, id).Some?
    && RegisterCall(log, id).value.owner.turnId == turnId && nowMs < DueAt(RegisterCall(log, id).value)
  }

  /** A turn has a pending action exactly when one registered for it waits, unexpired. */
  lemma HasPendingAnswers(h: ActionHash, calls: seq<Call>, c: Call)
    requires FreshIds(calls) && c.HasPending?
    ensures var r := Execute(h, calls);
            && Step(h, r.table, c).reply.Found?
            && (Step(h, r.table, c).reply.found <==> exists id :: ForTurn(r.log, c.turnId, c.nowMs, id))
  {
    var r := Execute(h, calls);
    var live := Live(r.table, c.nowMs);
    forall id ensures (id in live && live[id].owner.turnId == c.turnId) <==> ForTurn(r.log, c.turnId, c.nowMs, id) {
      TableIsHistory(h, calls, id);
    }
    if id :| ForTurn(r.log, c.turnId, c.nowMs, id) {
      assert id in live && live[id].owner.turnId == c.turnId;
    }
  }
}
