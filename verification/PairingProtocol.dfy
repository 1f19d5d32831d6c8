/** Any number of devices sharing one pairing file: each reads the eTag, then the
    bytes, computes a transition and writes it back with an If-Match condition
    (section 13.1.1 of RFC 9110). Runs interleave the single requests freely. */
module PairingProtocol {
  import opened Bytes
  import opened PairingCode
  import opened PairingDescriptor

  // ----- The file, as the store keeps it -----

  datatype Remote = Absent | Present(itemId: Text, etag: Text, descriptor: Descriptor)

  datatype Versioned = Versioned(descriptor: Descriptor, itemId: Text, etag: Text)

  predicate Matches(r: Remote, itemId: Text, etag: Text) {
    r.Present? && r.itemId == itemId && r.etag == etag
  }

  /** Upload that fails on conflict. */
  function Created(r: Remote, d: Descriptor, itemId: Text, etag: Text): Remote {
    if r.Absent? then Present(itemId, etag, d) else r
  }

  /** Conditional replace. */
  function Replaced(r: Remote, v: Versioned, next: Descriptor, etag: Text): Remote {
    if Matches(r, v.itemId, v.etag) then Present(v.itemId, etag, next) else r
  }

  /** Conditional delete. */
  function Deleted(r: Remote, v: Versioned): Remote {
    if Matches(r, v.itemId, v.etag) then Absent else r
  }

  /** The requests of the transport, each one atomic at the store. */
  class PairingFile {
    const primitives: Primitives
    var remote: Remote

    constructor (primitives: Primitives)
      ensures this.primitives == primitives && remote == Absent
    {
      this.primitives := primitives;
      remote := Absent;
    }

    /** The upload of `create_or_adopt`: no version means the path was taken. */
    method Create(source: Descriptor, itemId: Text, etag: Text) returns (r: Result<Option<Versioned>>)
      modifies this
      ensures r.Err? <==> !Uploadable(primitives, source)
      ensures r.Err? ==> remote == old(remote)
      ensures r.Ok? ==> remote == Created(old(remote), source, itemId, etag)
      ensures r.Ok? ==> (r.value.Some? <==> old(remote).Absent?)
      ensures r.Ok? && r.value.Some? ==> r.value.value == Versioned(source, itemId, etag)
    {
      if !Uploadable(primitives, source) {
        return Err(InvalidDescriptor);
      }
      r := Ok(None);
      if remote.Absent? {
        remote := Present(itemId, etag, source);
        r := Ok(Some(Versioned(source, itemId, etag)));
      }
    }

    /** `compare_and_swap`: checks the pair id, well-formedness and size, then If-Match. */
    method CompareAndSwap(current: Versioned, next: Descriptor, etag: Text)
      returns (r: Result<Option<Versioned>>)
      modifies this
      ensures r.Err? <==> current.descriptor.pairId != next.pairId || !Uploadable(primitives, next)
      ensures r.Err? ==> remote == old(remote)
      ensures r.Ok? ==> remote == Replaced(old(remote), current, next, etag)
      ensures r.Ok? ==> (r.value.Some? <==> Matches(old(remote), current.itemId, current.etag))
      ensures r.Ok? && r.value.Some? ==> r.value.value == Versioned(next, current.itemId, etag)
    {
      if current.descriptor.pairId != next.pairId || !Uploadable(primitives, next) {
        return Err(InvalidDescriptor);
      }
      if Matches(remote, current.itemId, current.etag) {
        remote := Present(current.itemId, etag, next);
        r := Ok(Some(Versioned(next, current.itemId, etag)));
      } else {
        r := Ok(None);
      }
    }

    method Delete(current: Versioned) returns (deleted: bool)
      modifies this
      ensures remote == Deleted(old(remote), current)
      ensures deleted <==> Matches(old(remote), current.itemId, current.etag)
    {
      deleted := Matches(remote, current.itemId, current.etag);
      if deleted {
        remote := Absent;
      }
    }
  }

  // ----- Clients and steps -----

  /** Between the two requests of `load`, only the tag is known. */
  datatype Tag = Tag(itemId: Text, etag: Text)

  datatype Client = Client(tag: Option<Tag>, read: Option<Versioned>, claims: set<Claim>)

  const NEW_CLIENT := Client(None, None, {})

  /** `tags` and `items` are the versions and ids the store has ever given out;
      `issued` says to which client each random claim id was given. */
  datatype World = World(
    remote: Remote, tags: set<Text>, items: set<Text>,
    clients: map<nat, Client>, issued: map<Text, nat>)
  {
    function Of(k: nat): Client {
      if k in clients then clients[k] else NEW_CLIENT
    }
  }

  datatype Write = PublishClaim(claim: Claim) | FinalizeClaim(claim: Claim) | Expire(nowMs: u64) | RevokeFile

  datatype Action =
    | Create(client: nat, source: Descriptor, itemId: Text, etag: Text, acked: bool)
    | ReadTag(client: nat)
    | ReadBytes(client: nat)
    | Adopt(client: nat, source: Descriptor)
    | MakeClaimOn(client: nat, code: Code, principal: Text, nowMs: u64, idBytes: seq<byte>, secret: seq<byte>)
    | Swap(client: nat, write: Write, etag: Text, acked: bool)
    | Delete(client: nat)

  /** The descriptor a client would write over the one it read. */
  function Target(p: Primitives, write: Write, d: Descriptor): Option<Descriptor> {
    match write
    case PublishClaim(c) =>
      var t := ClaimTransition(c, d);
      if t.Ok? then t.value else None
    case FinalizeClaim(c) => Accepted(Finalize(p, c, d))
    case Expire(nowMs) => Accepted(ExpireClaim(d, nowMs))
    case RevokeFile => Accepted(Revoke(d))
  }

  function Accepted(r: Result<Descriptor>): Option<Descriptor> {
    if r.Ok? then Some(r.value) else None
  }

  /** Clients finalize and publish only claims they hold. */
  predicate Holds(c: Client, write: Write) {
    (write.PublishClaim? || write.FinalizeClaim?) ==> write.claim in c.claims
  }

  /** When a client can take the step. Versions, item ids and claim ids are fresh. */
  predicate Enabled(p: Primitives, w: World, a: Action) {
    var c := w.Of(a.client);
    match a
    case Create(_, source, itemId, etag, _) =>
      source.state == Pending && Uploadable(p, source) && etag !in w.tags && itemId !in w.items
    case ReadTag(_) => true
    case ReadBytes(_) => c.tag.Some?
    case Adopt(_, _) => c.read.Some?
    case MakeClaimOn(_, code, principal, nowMs, idBytes, secret) =>
      && c.read.Some? && |idBytes| == CLAIM_ID_BYTES
      && MakeClaim(p, code, c.read.value.descriptor, principal, nowMs, idBytes, secret).Ok?
      && Base64Url.Encode(idBytes) !in w.issued
    case Swap(_, write, etag, _) =>
      && c.read.Some? && Holds(c, write) && etag !in w.tags
      && var t := Target(p, write, c.read.value.descriptor);
         t.Some? && t.value.pairId == c.read.value.descriptor.pairId && Uploadable(p, t.value)
    case Delete(_) => c.read.Some?
  }

  function Apply(p: Primitives, w: World, a: Action): World
    requires Enabled(p, w, a)
  {
    var k := a.client;
    var c := w.Of(k);
    match a
    case Create(_, source, itemId, etag, acked) =>
      var won := w.remote.Absent?;
      w.(remote := Created(w.remote, source, itemId, etag),
         tags := w.tags + {etag}, items := w.items + {itemId},
         clients := w.clients[k := c.(read :=
           if won && acked then Some(Versioned(source, itemId, etag)) else c.read)])
    case ReadTag(_) =>
      w.(clients := w.clients[k := c.(tag :=
           if w.remote.Present? then Some(Tag(w.remote.itemId, w.remote.etag)) else None)])
    case ReadBytes(_) =>
      w.(clients := w.clients[k := c.(tag := None, read :=
           if w.remote.Present?
           then Some(Versioned(w.remote.descriptor, c.tag.value.itemId, c.tag.value.etag)) else c.read)])
    case Adopt(_, source) =>
      w.(clients := w.clients[k := c.(read :=
           if w.remote.Present? && w.remote.descriptor == source && c.read.value.descriptor == source
           then c.read else None)])
    case MakeClaimOn(_, code, principal, nowMs, idBytes, secret) =>
      var claim := MakeClaim(p, code, c.read.value.descriptor, principal, nowMs, idBytes, secret).value;
      w.(clients := w.clients[k := c.(claims := c.claims + {claim})],
         issued := w.issued[Base64Url.Encode(idBytes) := k])
    case Swap(_, write, etag, acked) =>
      var v := c.read.value;
      var next := Target(p, write, v.descriptor).value;
      var won := Matches(w.remote, v.itemId, v.etag);
      w.(remote := Replaced(w.remote, v, next, etag), tags := w.tags + {etag},
         clients := w.clients[k := c.(read :=
           if won && acked then Some(Versioned(next, v.itemId, etag)) else c.read)])
    case Delete(_) =>
      w.(remote := Deleted(w.remote, c.read.value))
  }

  // ----- The invariant -----

  predicate ClientOk(p: Primitives, w: World, k: nat) {
    var c := w.Of(k);
    && (c.tag.Some? ==> c.tag.value.etag in w.tags)
    && (c.read.Some? ==>
          && c.read.value.etag in w.tags
          && (w.remote.Present? && w.remote.etag == c.read.value.etag ==>
                w.remote.descriptor == c.read.value.descriptor))
    && (forall m :: m in c.claims ==> ClaimOk(p, w, k, m))
  }

  predicate ClaimOk(p: Primitives, w: World, k: nat, m: Claim) {
    && GoodClaim(p, m)
    && m.descriptor.claimId.value in w.issued
    && w.issued[m.descriptor.claimId.value] == k
  }

  predicate RemoteOk(w: World) {
    w.remote.Present? ==>
      Valid(w.remote.descriptor) && w.remote.etag in w.tags && w.remote.itemId in w.items
  }

  ghost predicate Inv(p: Primitives, w: World) {
    RemoteOk(w) && forall k :: ClientOk(p, w, k)
  }

  ghost predicate Init(w: World) {
    w.remote == Absent && w.clients == map[] && w.issued == map[]
  }

  lemma ClientKept(p: Primitives, w: World, a: Action, k: nat)
    requires RemoteOk(w) && ClientOk(p, w, k) && Enabled(p, w, a) && k != a.client
    ensures ClientOk(p, Apply(p, w, a), k)
  {
  }

  lemma NewClaimOk(p: Primitives, w: World, a: Action)
    requires a.MakeClaimOn? && ClientOk(p, w, a.client) && Enabled(p, w, a)
    ensures ClientOk(p, Apply(p, w, a), a.client)
  {
    var w' := Apply(p, w, a);
    var c := w.Of(a.client);
    MadeClaimFields(p, a.code, c.read.value.descriptor, a.principal, a.nowMs, a.idBytes, a.secret);
    forall m | m in w'.Of(a.client).claims ensures ClaimOk(p, w', a.client, m) {
      if m in c.claims {
        assert ClaimOk(p, w, a.client, m);
      }
    }
  }

  lemma ActorKept(p: Primitives, w: World, a: Action)
    requires RemoteOk(w) && ClientOk(p, w, a.client) && Enabled(p, w, a)
    ensures ClientOk(p, Apply(p, w, a), a.client)
  {
    if a.MakeClaimOn? {
      NewClaimOk(p, w, a);
    } else {
      var w' := Apply(p, w, a);
      assert w'.Of(a.client).claims == w.Of(a.client).claims && w'.issued == w.issued;
      forall m | m in w'.Of(a.client).claims ensures ClaimOk(p, w', a.client, m) {
        assert ClaimOk(p, w, a.client, m);
      }
    }
  }

  lemma InvKept(p: Primitives, w: World, a: Action)
    requires Inv(p, w) && Enabled(p, w, a)
    ensures Inv(p, Apply(p, w, a))
  {
    ActorKept(p, w, a);
    forall k | k != a.client ensures ClientOk(p, Apply(p, w, a), k) {
      ClientKept(p, w, a, k);
    }
  }

  // ----- What one step may do to the file -----

  /** The only moves between two different states. */
  predicate Edge(s: RemoteState, t: RemoteState) {
    || (s == Pending && t in {Claimed, Revoked})
    || (s == Claimed && t in {Consumed, ClaimedExpired, Revoked})
    || (s == ClaimedExpired && t == Revoked)
  }

  /** Everything but the state and the claim. */
  predicate SameTransfer(d: Descriptor, e: Descriptor) {
    && d.version == e.version && d.pairId == e.pairId && d.expiresAtMs == e.expiresAtMs
    && d.nonce == e.nonce && d.ciphertext == e.ciphertext
  }

  predicate SameClaim(d: Descriptor, e: Descriptor) {
    && d.claimId == e.claimId && d.claimSecretHash == e.claimSecretHash
    && d.destinationBinding == e.destinationBinding && d.resumeUntilMs == e.resumeUntilMs
  }

  /** One write either leaves the descriptor alone or takes one edge; only the edge
      from Pending to Claimed sets the claim. */
  predicate Moves(d: Descriptor, e: Descriptor) {
    || d == e
    || (Edge(d.state, e.state) && SameTransfer(d, e) && (e.state == Claimed || SameClaim(d, e)))
  }

  lemma TargetMoves(p: Primitives, write: Write, d: Descriptor)
    requires Valid(d) && Target(p, write, d).Some?
    requires write.PublishClaim? ==> GoodClaim(p, write.claim)
    ensures Moves(d, Target(p, write, d).value)
  {
  }

  predicate IsItem(r: Remote, item: Text) {
    r.Present? && r.itemId == item
  }

  /** A write that takes effect replaces exactly the descriptor its client read. */
  lemma EffectiveWriteActsOnWhatWasRead(p: Primitives, w: World, a: Action)
    requires Inv(p, w) && Enabled(p, w, a)
    requires a.Swap? || a.Delete?
    requires Apply(p, w, a).remote != w.remote
    ensures w.remote.Present?
    ensures w.Of(a.client).read == Some(Versioned(w.remote.descriptor, w.remote.itemId, w.remote.etag))
  {
    assert ClientOk(p, w, a.client);
  }

  lemma StepMoves(p: Primitives, w: World, a: Action, item: Text)
    requires Inv(p, w) && Enabled(p, w, a)
    requires IsItem(w.remote, item) && IsItem(Apply(p, w, a).remote, item)
    ensures Moves(w.remote.descriptor, Apply(p, w, a).remote.descriptor)
  {
    if a.Swap? && Apply(p, w, a).remote != w.remote {
      EffectiveWriteActsOnWhatWasRead(p, w, a);
      if a.write.PublishClaim? {
        assert ClientOk(p, w, a.client) && ClaimOk(p, w, a.client, a.write.claim);
      }
      TargetMoves(p, a.write, w.remote.descriptor);
    }
  }

  /** Item ids are never given out twice, so a file that is gone stays gone. */
  lemma StepOnItem(p: Primitives, w: World, a: Action, item: Text)
    requires Inv(p, w) && Enabled(p, w, a) && item in w.items
    ensures item in Apply(p, w, a).items
    ensures IsItem(Apply(p, w, a).remote, item) ==>
              IsItem(w.remote, item) && Moves(w.remote.descriptor, Apply(p, w, a).remote.descriptor)
  {
    if IsItem(Apply(p, w, a).remote, item) {
      assert IsItem(w.remote, item);
      StepMoves(p, w, a, item);
    }
  }

  lemma StepKeepsIssued(p: Primitives, w: World, a: Action, id: Text)
    requires Enabled(p, w, a) && id in w.issued
    ensures id in Apply(p, w, a).issued && Apply(p, w, a).issued[id] == w.issued[id]
  {
  }

  /** Only publishing and finalizing lead to Claimed and Consumed, and only with the claim
      that is then in the file. */
  lemma WriterTarget(p: Primitives, write: Write, d: Descriptor, e: Descriptor)
    requires Valid(d) && Target(p, write, d) == Some(e) && d.state != e.state && e.state in {Claimed, Consumed}
    requires (write.PublishClaim? || write.FinalizeClaim?) ==> GoodClaim(p, write.claim)
    ensures write.PublishClaim? || write.FinalizeClaim?
    ensures write.PublishClaim? <==> e.state == Claimed
    ensures write.claim.descriptor == e.(state := Claimed)
    ensures d.state == Pending || write.claim.descriptor == d
  {
  }

  /** A step that changes the state of a file to Claimed or Consumed is a write by the
      client to whom the published claim id was issued. */
  lemma WriterHoldsClaim(p: Primitives, w: World, a: Action, item: Text)
    requires Inv(p, w) && Enabled(p, w, a)
    requires IsItem(w.remote, item) && IsItem(Apply(p, w, a).remote, item)
    requires w.remote.descriptor.state != Apply(p, w, a).remote.descriptor.state
    requires Apply(p, w, a).remote.descriptor.state in {Claimed, Consumed}
    ensures a.Swap? && (a.write.PublishClaim? || a.write.FinalizeClaim?)
    ensures a.write.PublishClaim? <==> Apply(p, w, a).remote.descriptor.state == Claimed
    ensures a.write.claim in w.Of(a.client).claims && ClaimOk(p, w, a.client, a.write.claim)
    ensures a.write.claim.descriptor == Apply(p, w, a).remote.descriptor.(state := Claimed)
    ensures w.remote.descriptor.state == Pending || a.write.claim.descriptor == w.remote.descriptor
  {
    EffectiveWriteActsOnWhatWasRead(p, w, a);
    assert ClientOk(p, w, a.client);
    if a.write.PublishClaim? || a.write.FinalizeClaim? {
      assert ClaimOk(p, w, a.client, a.write.claim);
    }
    WriterTarget(p, a.write, w.remote.descriptor, Apply(p, w, a).remote.descriptor);
  }

  // ----- Whole runs -----

  ghost predicate IsRun(p: Primitives, ws: seq<World>, acts: seq<Action>) {
    && |ws| == |acts| + 1
    && Init(ws[0])
    && forall i :: 0 <= i < |acts| ==> Enabled(p, ws[i], acts[i]) && ws[i + 1] == Apply(p, ws[i], acts[i])
  }

  lemma {:induction false} RunInv(p: Primitives, ws: seq<World>, acts: seq<Action>, i: nat)
    requires IsRun(p, ws, acts) && i < |ws|
    ensures Inv(p, ws[i])
  {
    if i == 0 {
    } else {
      RunInv(p, ws, acts, i - 1);
      InvKept(p, ws[i - 1], acts[i - 1]);
    }
  }

  /** Zero or more edges. */
  predicate Reaches(s: RemoteState, t: RemoteState) {
    s == t || s == Pending || (s == Claimed && t != Pending) || (s == ClaimedExpired && t == Revoked)
  }

  /** What any number of writes keep: the transfer, the order of states, and the
      claim once there is one. */
  predicate Evolves(d: Descriptor, e: Descriptor) {
    SameTransfer(d, e) && Reaches(d.state, e.state) && (d.state == Pending || SameClaim(d, e))
  }

  lemma EvolvesThenMoves(d: Descriptor, e: Descriptor, f: Descriptor)
    requires Evolves(d, e) && Moves(e, f) && Valid(d) && Valid(e)
    ensures Evolves(d, f)
  {
  }

  /** In every run, every step leaves the descriptor of a file alone or takes one edge,
      and a conditional write or delete that takes effect acts on what was read. */
  lemma RunStep(p: Primitives, ws: seq<World>, acts: seq<Action>, i: nat)
    requires IsRun(p, ws, acts) && i < |acts|
    ensures ws[i].remote.Present? && IsItem(ws[i + 1].remote, ws[i].remote.itemId) ==>
              Moves(ws[i].remote.descriptor, ws[i + 1].remote.descriptor)
    ensures (acts[i].Swap? || acts[i].Delete?) && ws[i + 1].remote != ws[i].remote ==>
              && ws[i].remote.Present?
              && ws[i].Of(acts[i].client).read
                 == Some(Versioned(ws[i].remote.descriptor, ws[i].remote.itemId, ws[i].remote.etag))
  {
    RunInv(p, ws, acts, i);
    if ws[i].remote.Present? && IsItem(ws[i + 1].remote, ws[i].remote.itemId) {
      StepMoves(p, ws[i], acts[i], ws[i].remote.itemId);
    }
    if (acts[i].Swap? || acts[i].Delete?) && ws[i + 1].remote != ws[i].remote {
      EffectiveWriteActsOnWhatWasRead(p, ws[i], acts[i]);
    }
  }

  /** In every run, two sightings of the same file are ordered by Evolves, and a file
      that is gone stays gone. */
  lemma {:induction false} LifeEvolves(p: Primitives, ws: seq<World>, acts: seq<Action>, i: nat, j: nat, item: Text)
    requires IsRun(p, ws, acts) && i <= j < |ws|
    requires IsItem(ws[i].remote, item)
    ensures item in ws[j].items
    ensures IsItem(ws[j].remote, item) ==> Evolves(ws[i].remote.descriptor, ws[j].remote.descriptor)
    ensures IsItem(ws[j].remote, item) ==>
              forall k :: i <= k <= j ==> IsItem(ws[k].remote, item)
    decreases j - i
  {
    RunInv(p, ws, acts, i);
    if i == j {
    } else {
      LifeEvolves(p, ws, acts, i, j - 1, item);
      RunInv(p, ws, acts, j - 1);
      StepOnItem(p, ws[j - 1], acts[j - 1], item);
      if IsItem(ws[j].remote, item) {
        EvolvesThenMoves(ws[i].remote.descriptor, ws[j - 1].remote.descriptor, ws[j].remote.descriptor);
      }
    }
  }

  /** At most one claim is ever published for a file, and its id, secret hash,
      destination and deadline never change. */
  lemma AtMostOneClaim(p: Primitives, ws: seq<World>, acts: seq<Action>, i: nat, j: nat, item: Text)
    requires IsRun(p, ws, acts) && i < |ws| && j < |ws|
    requires IsItem(ws[i].remote, item) && IsItem(ws[j].remote, item)
    requires ws[i].remote.descriptor.claimId.Some? && ws[j].remote.descriptor.claimId.Some?
    ensures SameClaim(ws[i].remote.descriptor, ws[j].remote.descriptor)
  {
    RunInv(p, ws, acts, i);
    RunInv(p, ws, acts, j);
    if i <= j {
      LifeEvolves(p, ws, acts, i, j, item);
    } else {
      LifeEvolves(p, ws, acts, j, i, item);
    }
  }

  /** A file is never both consumed and expired, and stays valid throughout. */
  lemma ConsumedExcludesExpired(p: Primitives, ws: seq<World>, acts: seq<Action>, i: nat, j: nat, item: Text)
    requires IsRun(p, ws, acts) && i < |ws| && j < |ws|
    requires IsItem(ws[i].remote, item) && IsItem(ws[j].remote, item)
    ensures Valid(ws[i].remote.descriptor)
    ensures ws[i].remote.descriptor.state == Consumed ==> ws[j].remote.descriptor.state != ClaimedExpired
    ensures i <= j && ws[i].remote.descriptor.state in {Consumed, Revoked} ==>
              ws[j].remote.descriptor == ws[i].remote.descriptor
  {
    RunInv(p, ws, acts, i);
    if i <= j {
      LifeEvolves(p, ws, acts, i, j, item);
    } else {
      LifeEvolves(p, ws, acts, j, i, item);
    }
  }

  lemma {:induction false} IssuedKept(p: Primitives, ws: seq<World>, acts: seq<Action>, i: nat, j: nat, id: Text)
    requires IsRun(p, ws, acts) && i <= j < |ws|
    requires id in ws[i].issued
    ensures id in ws[j].issued && ws[j].issued[id] == ws[i].issued[id]
    decreases j - i
  {
    if i == j {
    } else {
      IssuedKept(p, ws, acts, i, j - 1, id);
      StepKeepsIssued(p, ws[j - 1], acts[j - 1], id);
    }
  }

  /** The step moved the file from one state to another. */
  ghost predicate Takes(ws: seq<World>, i: nat, item: Text, s: RemoteState, t: RemoteState)
    requires i + 1 < |ws|
  {
    && IsItem(ws[i].remote, item) && IsItem(ws[i + 1].remote, item)
    && ws[i].remote.descriptor.state == s && ws[i + 1].remote.descriptor.state == t
  }

  /** Only the client that published the claim can consume the file. */
  lemma OnlyPublisherConsumes(p: Primitives, ws: seq<World>, acts: seq<Action>, i: nat, j: nat, item: Text)
    requires IsRun(p, ws, acts) && i < |acts| && j < |acts|
    requires Takes(ws, i, item, Pending, Claimed) && Takes(ws, j, item, Claimed, Consumed)
    ensures i < j && acts[i].client == acts[j].client
    ensures acts[j].write.FinalizeClaim? && acts[j].write.claim.descriptor == ws[i + 1].remote.descriptor
  {
    RunInv(p, ws, acts, i);
    RunInv(p, ws, acts, j);
    WriterHoldsClaim(p, ws[i], acts[i], item);
    WriterHoldsClaim(p, ws[j], acts[j], item);
    if j <= i {
      LifeEvolves(p, ws, acts, j, i, item);
    } else {
      LifeEvolves(p, ws, acts, i + 1, j, item);
      IssuedKept(p, ws, acts, i, j, ws[i + 1].remote.descriptor.claimId.value);
    }
  }

  // ----- Times -----

  /** A file expires only by a step that found its deadline passed. */
  lemma ExpiryIsDue(p: Primitives, ws: seq<World>, acts: seq<Action>, i: nat, item: Text)
    requires IsRun(p, ws, acts) && i < |acts|
    requires IsItem(ws[i].remote, item) && IsItem(ws[i + 1].remote, item)
    requires ws[i].remote.descriptor.state != ClaimedExpired && ws[i + 1].remote.descriptor.state == ClaimedExpired
    ensures ws[i].remote.descriptor.state == Claimed && acts[i].Swap? && acts[i].write.Expire?
    ensures ws[i].remote.descriptor.resumeUntilMs.Some?
    ensures acts[i].write.nowMs >= ws[i].remote.descriptor.resumeUntilMs.value
    ensures ws[i + 1].remote.descriptor == ws[i].remote.descriptor.(state := ClaimedExpired)
  {
    RunInv(p, ws, acts, i);
    EffectiveWriteActsOnWhatWasRead(p, ws[i], acts[i]);
    StepMoves(p, ws[i], acts[i], item);
  }

  /** The action makes this claim, in time, from the pending descriptor that was read. */
  predicate Makes(p: Primitives, w: World, a: Action, m: Claim) {
    && a.MakeClaimOn? && Enabled(p, w, a)
    && var d := w.Of(a.client).read.value.descriptor;
       && MakeClaim(p, a.code, d, a.principal, a.nowMs, a.idBytes, a.secret) == Ok(m)
       && Predecessor(m.descriptor) == d
       && a.nowMs < m.descriptor.expiresAtMs
       && m.descriptor.resumeUntilMs == Some(a.nowMs + CLAIM_RESUME_TTL_MS)
  }

  lemma NewClaimIsMade(p: Primitives, w: World, a: Action, k: nat, m: Claim)
    requires Enabled(p, w, a) && m !in w.Of(k).claims && m in Apply(p, w, a).Of(k).claims
    ensures a.client == k && Makes(p, w, a, m)
  {
    assert a.client == k && a.MakeClaimOn?;
    MadeClaimFields(p, a.code, w.Of(k).read.value.descriptor, a.principal, a.nowMs, a.idBytes, a.secret);
  }

  /** What holds now and did not at first came to hold at some step. */
  lemma {:induction false} Gained(held: nat -> bool, j: nat) returns (i: nat)
    requires !held(0) && held(j)
    ensures i < j && !held(i) && held(i + 1)
  {
    if held(j - 1) {
      i := Gained(held, j - 1);
    } else {
      i := j - 1;
    }
  }

  /** Every claim a client holds was made by it at some earlier step. */
  lemma ClaimWasMade(p: Primitives, ws: seq<World>, acts: seq<Action>, j: nat, k: nat, m: Claim)
    returns (i: nat)
    requires IsRun(p, ws, acts) && j < |ws| && m in ws[j].Of(k).claims
    ensures i < j && acts[i].client == k && Makes(p, ws[i], acts[i], m)
  {
    i := Gained((x: nat) => x < |ws| && m in ws[x].Of(k).claims, j);
    NewClaimIsMade(p, ws[i], acts[i], k, m);
  }

  /** Every published claim was made earlier by its publisher, before the file expired,
      and its deadline is a day after that moment. */
  lemma PublishedClaimWasMade(p: Primitives, ws: seq<World>, acts: seq<Action>, j: nat, item: Text) returns (i: nat)
    requires IsRun(p, ws, acts) && j < |acts| && Takes(ws, j, item, Pending, Claimed)
    ensures i < j && acts[i].MakeClaimOn? && acts[i].client == acts[j].client
    ensures acts[i].nowMs < ws[j].remote.descriptor.expiresAtMs
    ensures ws[j + 1].remote.descriptor.resumeUntilMs == Some(acts[i].nowMs + CLAIM_RESUME_TTL_MS)
    ensures ws[j + 1].remote.descriptor.claimId == Some(Base64Url.Encode(acts[i].idBytes))
    ensures ws[i].Of(acts[i].client).read.Some?
    ensures ws[i].Of(acts[i].client).read.value.descriptor == ws[j].remote.descriptor
  {
    RunInv(p, ws, acts, j);
    WriterHoldsClaim(p, ws[j], acts[j], item);
    EffectiveWriteActsOnWhatWasRead(p, ws[j], acts[j]);
    i := ClaimWasMade(p, ws, acts, j, acts[j].client, acts[j].write.claim);
  }

  // ----- A transfer can complete -----

  predicate StepsTo(p: Primitives, w: World, a: Action, w': World) {
    Enabled(p, w, a) && w' == Apply(p, w, a)
  }

  /** A client has loaded the file as it is. */
  predicate UpToDate(w: World, k: nat) {
    && w.remote.Present?
    && w.Of(k).read == Some(Versioned(w.remote.descriptor, w.remote.itemId, w.remote.etag))
  }

  /** Two undisturbed requests load the file. */
  lemma CanLoad(p: Primitives, w: World, k: nat) returns (tagged: World, w': World)
    requires w.remote.Present?
    ensures StepsTo(p, w, ReadTag(k), tagged) && StepsTo(p, tagged, ReadBytes(k), w')
    ensures UpToDate(w', k) && w'.remote == w.remote && w'.tags == w.tags && w'.issued == w.issued
  {
    tagged := Apply(p, w, ReadTag(k));
    w' := Apply(p, tagged, ReadBytes(k));
  }

  /** A client that is up to date makes a claim and keeps it. */
  lemma CanClaim(p: Primitives, w: World, a: Action) returns (w': World, c: Claim)
    requires a.MakeClaimOn? && UpToDate(w, a.client) && Enabled(p, w, a)
    ensures StepsTo(p, w, a, w')
    ensures UpToDate(w', a.client) && w'.remote == w.remote && w'.tags == w.tags && c in w'.Of(a.client).claims
    ensures GoodClaim(p, c) && Predecessor(c.descriptor) == w.remote.descriptor
    ensures c == MakeClaim(p, a.code, w.remote.descriptor, a.principal, a.nowMs, a.idBytes, a.secret).value
  {
    MadeClaimFields(p, a.code, w.remote.descriptor, a.principal, a.nowMs, a.idBytes, a.secret);
    w' := Apply(p, w, a);
    c := MakeClaim(p, a.code, w.remote.descriptor, a.principal, a.nowMs, a.idBytes, a.secret).value;
  }

  /** An undisturbed conditional write takes effect and leaves its client up to date. */
  lemma CanSwap(p: Primitives, w: World, k: nat, write: Write, etag: Text, next: Descriptor) returns (w': World)
    requires UpToDate(w, k) && Holds(w.Of(k), write) && etag !in w.tags
    requires Target(p, write, w.remote.descriptor) == Some(next)
    requires Uploadable(p, next) && next.pairId == w.remote.descriptor.pairId
    ensures StepsTo(p, w, Swap(k, write, etag, true), w')
    ensures w'.remote == Present(w.remote.itemId, etag, next)
    ensures UpToDate(w', k) && w'.tags == w.tags + {etag} && w'.Of(k).claims == w.Of(k).claims
  {
    w' := Apply(p, w, Swap(k, write, etag, true));
  }

  lemma ClaimTargets(p: Primitives, c: Claim)
    requires GoodClaim(p, c) && Valid(Predecessor(c.descriptor))
    ensures Target(p, PublishClaim(c), Predecessor(c.descriptor)) == Some(c.descriptor)
    ensures Target(p, FinalizeClaim(c), c.descriptor) == Some(c.descriptor.(state := Consumed))
    ensures Valid(c.descriptor.(state := Consumed))
  {
  }

  /** The holder of a claim on the file as it is publishes and finalizes it. */
  lemma CanFinish(p: Primitives, w: World, k: nat, c: Claim, tag1: Text, tag2: Text)
    returns (published: World, consumed: World)
    requires UpToDate(w, k) && c in w.Of(k).claims && Valid(w.remote.descriptor)
    requires GoodClaim(p, c) && Predecessor(c.descriptor) == w.remote.descriptor
    requires (p.fits)(c.descriptor) && (p.fits)(c.descriptor.(state := Consumed))
    requires tag1 !in w.tags && tag2 !in w.tags + {tag1}
    ensures StepsTo(p, w, Swap(k, PublishClaim(c), tag1, true), published)
    ensures StepsTo(p, published, Swap(k, FinalizeClaim(c), tag2, true), consumed)
    ensures published.remote == Present(w.remote.itemId, tag1, c.descriptor)
    ensures consumed.remote == Present(w.remote.itemId, tag2, c.descriptor.(state := Consumed))
  {
    ClaimTargets(p, c);
    published := CanSwap(p, w, k, PublishClaim(c), tag1, c.descriptor);
    consumed := CanSwap(p, published, k, FinalizeClaim(c), tag2, c.descriptor.(state := Consumed));
  }

  /** Whatever happened before, a client that can open the pending file and is not
      disturbed takes it over Claimed to Consumed in five steps. */
  lemma TransferCanComplete(p: Primitives, w: World, a: Action, tag1: Text, tag2: Text)
    returns (c: Claim, tagged: World, loaded: World, claimed: World, published: World, consumed: World)
    requires Inv(p, w) && w.remote.Present? && a.MakeClaimOn? && |a.idBytes| == CLAIM_ID_BYTES
    requires MakeClaim(p, a.code, w.remote.descriptor, a.principal, a.nowMs, a.idBytes, a.secret).Ok?
    requires var c := MakeClaim(p, a.code, w.remote.descriptor, a.principal, a.nowMs, a.idBytes, a.secret).value;
             (p.fits)(c.descriptor) && (p.fits)(c.descriptor.(state := Consumed))
    requires Base64Url.Encode(a.idBytes) !in w.issued && tag1 !in w.tags && tag2 !in w.tags + {tag1}
    ensures StepsTo(p, w, ReadTag(a.client), tagged) && StepsTo(p, tagged, ReadBytes(a.client), loaded)
    ensures StepsTo(p, loaded, a, claimed) && claimed.remote == w.remote
    ensures StepsTo(p, claimed, Swap(a.client, PublishClaim(c), tag1, true), published)
    ensures StepsTo(p, published, Swap(a.client, FinalizeClaim(c), tag2, true), consumed)
    ensures Predecessor(c.descriptor) == w.remote.descriptor
    ensures published.remote == Present(w.remote.itemId, tag1, c.descriptor)
    ensures consumed.remote == Present(w.remote.itemId, tag2, c.descriptor.(state := Consumed))
  {
    tagged, loaded := CanLoad(p, w, a.client);
    claimed, c := CanClaim(p, loaded, a);
    published, consumed := CanFinish(p, claimed, a.client, c, tag1, tag2);
  }

  // ----- A file can be ended -----

  /** The writes that take a file to Revoked or ClaimedExpired, and when they are due. */
  predicate Ends(write: Write, d: Descriptor, state: RemoteState) {
    && Edge(d.state, state)
    && ((write.RevokeFile? && state == Revoked)
        || (write.Expire? && state == ClaimedExpired && d.resumeUntilMs.Some? && write.nowMs >= d.resumeUntilMs.value))
  }

  /** Revoking succeeds exactly where an edge leads to Revoked, expiring exactly where
      one leads to ClaimedExpired and the deadline has passed, or has been acted on. */
  lemma EndTargets(p: Primitives, write: Write, d: Descriptor)
    requires Valid(d) && (write.RevokeFile? || write.Expire?)
    ensures forall state :: Ends(write, d, state) ==> Target(p, write, d) == Some(d.(state := state))
    ensures Target(p, write, d).Some? ==>
              || Ends(write, d, Target(p, write, d).value.state)
              || (write.Expire? && d.state == ClaimedExpired && Target(p, write, d).value == d)
  {
  }

  lemma ValidEnd(d: Descriptor, state: RemoteState)
    requires Valid(d) && Edge(d.state, state) && state in {Revoked, ClaimedExpired}
    ensures Valid(d.(state := state))
  {
  }

  /** Whatever happened before, any client that is not disturbed revokes a file that is
      not consumed or revoked, and expires a claimed one past its deadline, in three steps. */
  lemma FileCanEnd(p: Primitives, w: World, k: nat, write: Write, state: RemoteState, tag: Text)
    returns (tagged: World, loaded: World, ended: World)
    requires Inv(p, w) && w.remote.Present? && Ends(write, w.remote.descriptor, state)
    requires (p.fits)(w.remote.descriptor.(state := state)) && tag !in w.tags
    ensures StepsTo(p, w, ReadTag(k), tagged) && StepsTo(p, tagged, ReadBytes(k), loaded)
    ensures StepsTo(p, loaded, Swap(k, write, tag, true), ended)
    ensures ended.remote == Present(w.remote.itemId, tag, w.remote.descriptor.(state := state))
  {
    var d := w.remote.descriptor;
    EndTargets(p, write, d);
    ValidEnd(d, state);
    tagged, loaded := CanLoad(p, w, k);
    ended := CanSwap(p, loaded, k, write, tag, d.(state := state));
  }

  /** At every point of every run the claim fields of a file follow its state: none while
      pending, all four while claimed, consumed or expired, all or none once revoked. */
  lemma ClaimFollowsState(p: Primitives, ws: seq<World>, acts: seq<Action>, i: nat)
    requires IsRun(p, ws, acts) && i < |ws| && ws[i].remote.Present?
    ensures var d := ws[i].remote.descriptor;
            var some := d.claimId.Some?;
            && d.claimSecretHash.Some? == d.destinationBinding.Some? == d.resumeUntilMs.Some? == some
            && (d.state == Pending ==> !some)
            && (d.state in {Claimed, Consumed, ClaimedExpired} ==> some)
            && (some ==> ValidId(d.claimId.value, 32)
                         && |d.claimSecretHash.value| == 43 && |d.destinationBinding.value| == 43)
            && d.version == 2 && ValidId(d.pairId, 32)
            && Base64Url.DecodeExact(d.nonce, 12).Some? && Base64Url.Decode(d.ciphertext).Some?
  {
    RunInv(p, ws, acts, i);
  }
}
