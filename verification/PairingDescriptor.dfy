/** The remote pairing descriptor, the claims made on it, and the pure transitions
    every client computes before it writes the shared file back. */
module PairingDescriptor {
  import opened Bytes
  import opened Base64Url
  import opened PairingCode

  const NONCE_BYTES := 12
  const PAIR_ID_BYTES := 24
  const CLAIM_ID_BYTES := 24
  const PAIRING_TTL_MS := 300_000
  const CLAIM_RESUME_TTL_MS := 86_400_000

  datatype Error =
    | InvalidDescriptor | Expired | AlreadyClaimed | Revocation | WrongClaim | Crypto

  datatype Result<+T> = Ok(value: T) | Err(error: Error)

  datatype RemoteState = Pending | Claimed | Consumed | Revoked | ClaimedExpired

  datatype Descriptor = Descriptor(
    version: u32,
    pairId: Text,
    expiresAtMs: u64,
    state: RemoteState,
    nonce: Text,
    ciphertext: Text,
    claimId: Option<Text>,
    claimSecretHash: Option<Text>,
    destinationBinding: Option<Text>,
    resumeUntilMs: Option<u64>)

  /** SHA-256 of the claim secret, HMAC of the destination, AES-GCM sealing and opening,
      the printing and parsing of the plaintext, and whether the canonical text of a
      descriptor is within its 64 KiB, as arbitrary functions. */
  datatype Primitives = Primitives(
    secretDigest: seq<byte> -> Digest,
    destinationMac: (seq<byte>, Text) -> Digest,
    seal: (seq<byte>, seq<byte>, seq<byte>, seq<byte>) -> Option<seq<byte>>,
    open: (seq<byte>, seq<byte>, seq<byte>, seq<byte>) -> Option<seq<byte>>,
    printPayload: Text -> Option<seq<byte>>,
    parsePayload: seq<byte> -> Option<Text>,
    fits: Descriptor -> bool)

  /** Opening undoes sealing under the same key, nonce and additional data, and parsing
      undoes printing. */
  ghost predicate RoundTrips(p: Primitives) {
    && (forall key, nonce, aad, plain :: (p.seal)(key, nonce, aad, plain).Some? ==>
          (p.open)(key, nonce, aad, (p.seal)(key, nonce, aad, plain).value) == Some(plain))
    && (forall payload :: (p.printPayload)(payload).Some? ==>
          (p.parsePayload)((p.printPayload)(payload).value) == Some(payload))
  }

  datatype Claim = Claim(descriptor: Descriptor, payload: Text, secret: seq<byte>)

  function HashSecret(p: Primitives, secret: seq<byte>): Text {
    Encode((p.secretDigest)(secret))
  }

  function DestinationBinding(p: Primitives, key: seq<byte>, principal: Text): Text {
    Encode((p.destinationMac)(key, principal))
  }

  // ----- Well-formedness -----

  predicate NoClaimFields(d: Descriptor) {
    d.claimId.None? && d.claimSecretHash.None? && d.destinationBinding.None? && d.resumeUntilMs.None?
  }

  predicate ClaimFieldsValid(d: Descriptor) {
    && d.claimId.Some? && d.claimSecretHash.Some? && d.destinationBinding.Some? && d.resumeUntilMs.Some?
    && ValidId(d.claimId.value, 32)
    && |d.claimSecretHash.value| == 43
    && |d.destinationBinding.value| == 43
  }

  /** `validate` */
  predicate Valid(d: Descriptor) {
    && d.version == 2
    && ValidId(d.pairId, 32)
    && DecodeExact(d.nonce, NONCE_BYTES).Some?
    && Decode(d.ciphertext).Some?
    && match d.state
       case Pending => NoClaimFields(d)
       case Revoked => NoClaimFields(d) || ClaimFieldsValid(d)
       case Claimed => ClaimFieldsValid(d)
       case Consumed => ClaimFieldsValid(d)
       case ClaimedExpired => ClaimFieldsValid(d)
  }

  function AadDomain(): Text {
    Ascii("isyncyou-pairing-transfer-v2")
  }

  /** `pairing_aad`; the length is cast to 32 bits, not checked. */
  function Aad(pairId: Text, expiresAtMs: u64): seq<byte> {
    AadDomain() + U32(|pairId| % 0x1_0000_0000) + pairId + U64(expiresAtMs)
  }

  /** `open_pairing_payload` */
  function OpenPayload(p: Primitives, code: Code, d: Descriptor): Result<Text> {
    var nonce := DecodeExact(d.nonce, NONCE_BYTES);
    var ciphertext := Decode(d.ciphertext);
    if nonce.None? || ciphertext.None? then Err(InvalidDescriptor)
    else
      var plain := (p.open)(code.transferKey, nonce.value, Aad(d.pairId, d.expiresAtMs), ciphertext.value);
      if plain.None? then Err(Crypto)
      else
        var payload := (p.parsePayload)(plain.value);
        if payload.None? then Err(InvalidDescriptor) else Ok(payload.value)
  }

  /** `canonical_bytes` succeeds: what may be uploaded. */
  predicate Uploadable(p: Primitives, d: Descriptor) {
    Valid(d) && (p.fits)(d)
  }

  // ----- The source -----

  /** What the source device keeps: the code it shows and the descriptor it uploads. */
  datatype Source = Source(code: Code, descriptor: Descriptor)

  /** `PairingSourceSecretV2::create`; pair id, key and nonce are the fresh random values. */
  function CreateSource(p: Primitives, payload: Text, nowMs: u64,
                        idBytes: seq<byte>, key: seq<byte>, nonce: seq<byte>): Result<Source>
    requires |idBytes| == PAIR_ID_BYTES && |key| == TRANSFER_KEY_BYTES && |nonce| == NONCE_BYTES
  {
    if nowMs + PAIRING_TTL_MS > U64_MAX then Err(InvalidDescriptor)
    else
      var pairId, expiresAtMs := Encode(idBytes), nowMs + PAIRING_TTL_MS;
      var plain := (p.printPayload)(payload);
      if plain.None? then Err(Crypto)
      else
        var sealed := (p.seal)(key, nonce, Aad(pairId, expiresAtMs), plain.value);
        if sealed.None? then Err(Crypto) else Ok(NewSource(pairId, key, expiresAtMs, nonce, sealed.value))
  }

  function NewSource(pairId: Text, key: seq<byte>, expiresAtMs: u64, nonce: seq<byte>, sealed: seq<byte>): Source {
    Source(Code(pairId, key),
           Descriptor(2, pairId, expiresAtMs, Pending, Encode(nonce), Encode(sealed), None, None, None, None))
  }

  // ----- Transitions -----

  function Revoke(d: Descriptor): Result<Descriptor> {
    match d.state
    case Pending => Ok(d.(state := Revoked))
    case Claimed => Ok(d.(state := Revoked))
    case ClaimedExpired => Ok(d.(state := Revoked))
    case Consumed => Err(Revocation)
    case Revoked => Err(Revocation)
  }

  function ExpireClaim(d: Descriptor, nowMs: u64): Result<Descriptor> {
    if !Valid(d) then Err(InvalidDescriptor)
    else
      match d.state
      case Claimed =>
        if nowMs >= d.resumeUntilMs.value then Ok(d.(state := ClaimedExpired)) else Err(AlreadyClaimed)
      case ClaimedExpired => Ok(d)
      case Pending => Err(WrongClaim)
      case Consumed => Err(AlreadyClaimed)
      case Revoked => Err(Revocation)
  }

  /** `PairingClaimV2::claim`; the claim id and the secret are the fresh random values. */
  function MakeClaim(p: Primitives, code: Code, d: Descriptor, principal: Text, nowMs: u64,
                     claimIdBytes: seq<byte>, secret: seq<byte>): Result<Claim>
    requires |claimIdBytes| == CLAIM_ID_BYTES
  {
    if !Valid(d) || d.pairId != code.pairId then Err(InvalidDescriptor)
    else if d.state == Revoked then Err(Revocation)
    else if d.state != Pending then Err(AlreadyClaimed)
    else if nowMs >= d.expiresAtMs then Err(Expired)
    else
      var payload := OpenPayload(p, code, d);
      if payload.Err? then Err(payload.error)
      else if nowMs + CLAIM_RESUME_TTL_MS > U64_MAX then Err(InvalidDescriptor)
      else
        var claimed := d.(
          state := Claimed,
          claimId := Some(Encode(claimIdBytes)),
          claimSecretHash := Some(HashSecret(p, secret)),
          destinationBinding := Some(DestinationBinding(p, code.transferKey, principal)),
          resumeUntilMs := Some(nowMs + CLAIM_RESUME_TTL_MS));
        Ok(Claim(claimed, payload.value, secret))
  }

  /** `resume` */
  function Resume(p: Primitives, code: Code, d: Descriptor, secret: seq<byte>, principal: Text, nowMs: u64)
    : Result<Text>
  {
    if !Valid(d) then Err(InvalidDescriptor)
    else if d.pairId != code.pairId then Err(WrongClaim)
    else if d.state == ClaimedExpired then Err(Expired)
    else if d.state == Revoked then Err(Revocation)
    else if d.state == Pending then Err(WrongClaim)
    else if nowMs >= d.resumeUntilMs.value then Err(Expired)
    else if HashSecret(p, secret) != d.claimSecretHash.value
            || DestinationBinding(p, code.transferKey, principal) != d.destinationBinding.value
    then Err(WrongClaim)
    else OpenPayload(p, code, d)
  }

  /** The pending descriptor a claim was made from. */
  function Predecessor(claimed: Descriptor): Descriptor {
    claimed.(state := Pending, claimId := None, claimSecretHash := None,
             destinationBinding := None, resumeUntilMs := None)
  }

  /** `claim_transition`: nothing to write when the claim is already published. */
  function ClaimTransition(claim: Claim, current: Descriptor): Result<Option<Descriptor>> {
    if !Valid(current) then Err(InvalidDescriptor)
    else if current == claim.descriptor then Ok(None)
    else if current != Predecessor(claim.descriptor) then Err(AlreadyClaimed)
    else Ok(Some(claim.descriptor))
  }

  /** `finalize` */
  function Finalize(p: Primitives, claim: Claim, d: Descriptor): Result<Descriptor> {
    if !Valid(d) then Err(InvalidDescriptor)
    else if d.state == ClaimedExpired then Err(Expired)
    else if d.state == Revoked then Err(Revocation)
    else if d.state == Pending then Err(WrongClaim)
    else if d != claim.descriptor.(state := d.state)
            || HashSecret(p, claim.secret) != d.claimSecretHash.value
    then Err(WrongClaim)
    else if d.state == Consumed then Ok(d)
    else Ok(d.(state := Consumed))
  }

  // ----- Properties of single transitions -----

  /** A claim just made. */
  predicate GoodClaim(p: Primitives, c: Claim) {
    && c.descriptor.state == Claimed
    && Valid(c.descriptor)
    && HashSecret(p, c.secret) == c.descriptor.claimSecretHash.value
  }

  lemma EncodedDigest(d: Digest)
    ensures |Encode(d)| == 43 && Decode(Encode(d)) == Some(d)
  {
    EncodeLength(d);
    DecodeEncode(d);
  }

  lemma EncodedId(idBytes: seq<byte>)
    requires |idBytes| == 24
    ensures ValidId(Encode(idBytes), 32) && Decode(Encode(idBytes)) == Some(idBytes)
  {
    EncodeLength(idBytes);
    DecodeEncode(idBytes);
  }

  lemma EncodedLengths(idBytes: seq<byte>, d: Digest)
    requires |idBytes| == 24
    ensures ValidId(Encode(idBytes), 32) && |Encode(d)| == 43
  {
    EncodedId(idBytes);
    EncodedDigest(d);
  }

  lemma MadeClaimFields(p: Primitives, code: Code, d: Descriptor, principal: Text, nowMs: u64,
                        idBytes: seq<byte>, secret: seq<byte>)
    requires |idBytes| == CLAIM_ID_BYTES
    requires MakeClaim(p, code, d, principal, nowMs, idBytes, secret).Ok?
    ensures var c := MakeClaim(p, code, d, principal, nowMs, idBytes, secret).value;
            && GoodClaim(p, c) && Predecessor(c.descriptor) == d && c.secret == secret
            && c.descriptor.claimId == Some(Encode(idBytes))
            && c.descriptor.claimSecretHash == Some(Encode((p.secretDigest)(secret)))
            && c.descriptor.destinationBinding == Some(Encode((p.destinationMac)(code.transferKey, principal)))
            && c.descriptor.resumeUntilMs == Some(nowMs + 24 * 60 * 60 * 1000)
  {
    EncodedLengths(idBytes, (p.secretDigest)(secret));
    EncodedLengths(idBytes, (p.destinationMac)(code.transferKey, principal));
  }

  /** A claim is a valid Claimed descriptor that gives back the pending one, and its
      fields hold the fresh id, the digest of the fresh secret, the MAC of the principal
      under the transfer key, and the deadline, a day later. */
  lemma MadeClaimIsGood(p: Primitives, code: Code, d: Descriptor, principal: Text, nowMs: u64,
                        idBytes: seq<byte>, secret: seq<byte>)
    requires |idBytes| == CLAIM_ID_BYTES
    requires MakeClaim(p, code, d, principal, nowMs, idBytes, secret).Ok?
    ensures var c := MakeClaim(p, code, d, principal, nowMs, idBytes, secret).value;
            && GoodClaim(p, c) && Predecessor(c.descriptor) == d && c.secret == secret
            && Decode(c.descriptor.claimId.value) == Some(idBytes)
            && Decode(c.descriptor.claimSecretHash.value) == Some((p.secretDigest)(secret))
            && Decode(c.descriptor.destinationBinding.value) == Some((p.destinationMac)(code.transferKey, principal))
            && c.descriptor.resumeUntilMs.value == nowMs + 24 * 60 * 60 * 1000
  {
    MadeClaimFields(p, code, d, principal, nowMs, idBytes, secret);
    EncodedId(idBytes);
    EncodedDigest((p.secretDigest)(secret));
    EncodedDigest((p.destinationMac)(code.transferKey, principal));
  }

  lemma EncodedDigestsDiffer(d: Digest, e: Digest)
    ensures Encode(d) == Encode(e) <==> d == e
  {
    EncodedDigest(d);
    EncodedDigest(e);
  }

  /** Any later state keeps a claimed descriptor valid; Pending does not. */
  lemma StatesOfClaim(d: Descriptor, state: RemoteState)
    requires Valid(d) && d.state == Claimed
    ensures Valid(d.(state := state)) <==> state != Pending
  {
  }

  lemma ClaimOpens(p: Primitives, code: Code, d: Descriptor, principal: Text, nowMs: u64,
                   idBytes: seq<byte>, secret: seq<byte>, state: RemoteState)
    requires |idBytes| == CLAIM_ID_BYTES
    requires MakeClaim(p, code, d, principal, nowMs, idBytes, secret).Ok?
    ensures var c := MakeClaim(p, code, d, principal, nowMs, idBytes, secret).value;
            && OpenPayload(p, code, c.descriptor.(state := state)) == Ok(c.payload)
            && c.descriptor.pairId == code.pairId
            && c.descriptor.claimSecretHash == Some(HashSecret(p, secret))
            && c.descriptor.destinationBinding == Some(DestinationBinding(p, code.transferKey, principal))
  {
  }

  lemma ResumeMeans(p: Primitives, code: Code, d: Descriptor, secret: seq<byte>, principal: Text, nowMs: u64, payload: Text)
    requires Valid(d) && d.state != Pending && d.pairId == code.pairId && OpenPayload(p, code, d) == Ok(payload)
    ensures Resume(p, code, d, secret, principal, nowMs) == Ok(payload)
            <==> (&& d.state in {Claimed, Consumed} && nowMs < d.resumeUntilMs.value
                  && HashSecret(p, secret) == d.claimSecretHash.value
                  && DestinationBinding(p, code.transferKey, principal) == d.destinationBinding.value)
  {
  }

  /** A fresh claim resumes to the payload it was opened with, until its deadline and
      only for a secret with the same digest and a destination with the same MAC, whether
      consumed or not. */
  lemma ResumeOwnClaim(p: Primitives, code: Code, d: Descriptor, principal: Text, claimedAt: u64,
                       idBytes: seq<byte>, secret: seq<byte>,
                       published: RemoteState, other: seq<byte>, otherPrincipal: Text, nowMs: u64)
    requires |idBytes| == CLAIM_ID_BYTES
    requires MakeClaim(p, code, d, principal, claimedAt, idBytes, secret).Ok?
    ensures var c := MakeClaim(p, code, d, principal, claimedAt, idBytes, secret).value;
            Resume(p, code, c.descriptor.(state := published), other, otherPrincipal, nowMs) == Ok(c.payload)
            <==> (&& published in {Claimed, Consumed}
                  && nowMs < claimedAt + 24 * 60 * 60 * 1000
                  && (p.secretDigest)(other) == (p.secretDigest)(secret)
                  && (p.destinationMac)(code.transferKey, otherPrincipal)
                     == (p.destinationMac)(code.transferKey, principal))
  {
    MadeClaimIsGood(p, code, d, principal, claimedAt, idBytes, secret);
    var c := MakeClaim(p, code, d, principal, claimedAt, idBytes, secret).value;
    StatesOfClaim(c.descriptor, published);
    ClaimOpens(p, code, d, principal, claimedAt, idBytes, secret, published);
    if published != Pending {
      ResumeMeans(p, code, c.descriptor.(state := published), other, otherPrincipal, nowMs, c.payload);
    }
    EncodedDigestsDiffer((p.secretDigest)(other), (p.secretDigest)(secret));
    EncodedDigestsDiffer((p.destinationMac)(code.transferKey, otherPrincipal),
                         (p.destinationMac)(code.transferKey, principal));
  }

  /** A claim is good on the descriptor it was made from and on itself: it is published
      once, publishing it again is nothing to do, and any other file belongs to another. */
  lemma PublishExactly(p: Primitives, c: Claim, current: Descriptor)
    requires GoodClaim(p, c) && Valid(current)
    ensures ClaimTransition(c, c.descriptor) == Ok(None)
    ensures ClaimTransition(c, current) == Ok(Some(c.descriptor)) <==> current == Predecessor(c.descriptor)
    ensures current !in {c.descriptor, Predecessor(c.descriptor)} ==> ClaimTransition(c, current) == Err(AlreadyClaimed)
  {
  }

  /** A file that was claimed is refused to every later claimant, whatever became of it,
      whenever and with whatever code; and so is a file of another pair id. */
  lemma SecondClaimRefused(p: Primitives, c: Claim, published: RemoteState, code: Code, principal: Text, nowMs: u64,
                           idBytes: seq<byte>, secret: seq<byte>)
    requires GoodClaim(p, c) && published != Pending && |idBytes| == CLAIM_ID_BYTES
    ensures MakeClaim(p, code, c.descriptor.(state := published), principal, nowMs, idBytes, secret)
            == Err(if c.descriptor.pairId != code.pairId then InvalidDescriptor
                   else if published == Revoked then Revocation else AlreadyClaimed)
  {
    StatesOfClaim(c.descriptor, published);
  }

  /** What a claimant that comes back is told, in every case. */
  lemma ResumeAnswers(p: Primitives, c: Claim, published: RemoteState, code: Code, secret: seq<byte>, principal: Text, nowMs: u64)
    requires GoodClaim(p, c) && published != Pending
    ensures var d := c.descriptor.(state := published);
            var reply := Resume(p, code, d, secret, principal, nowMs);
            if code.pairId != d.pairId then reply == Err(WrongClaim)
            else if published == Revoked then reply == Err(Revocation)
            else if published == ClaimedExpired || nowMs >= d.resumeUntilMs.value then reply == Err(Expired)
            else if && Encode((p.secretDigest)(secret)) == d.claimSecretHash.value
                    && Encode((p.destinationMac)(code.transferKey, principal)) == d.destinationBinding.value
            then reply == OpenPayload(p, code, d)
            else reply == Err(WrongClaim)
  {
    StatesOfClaim(c.descriptor, published);
  }

  /** A claim finalizes its own published file, to itself consumed, and no other: not one
      that differs in anything but the state. */
  lemma FinalizeExactly(p: Primitives, c: Claim, d: Descriptor)
    requires GoodClaim(p, c) && Valid(d)
    ensures Finalize(p, c, d).Ok? <==> d == c.descriptor || d == c.descriptor.(state := Consumed)
    ensures Finalize(p, c, d).Ok? ==> Finalize(p, c, d).value == c.descriptor.(state := Consumed)
    ensures Finalize(p, c, d).Err? ==>
              Finalize(p, c, d).error
              == (if d.state == ClaimedExpired then Expired else if d.state == Revoked then Revocation else WrongClaim)
  {
  }

  /** `cleanup_eligible_at`, of a valid descriptor. */
  predicate CleanupEligible(d: Descriptor, nowMs: u64)
    requires Valid(d)
  {
    match d.state
    case Pending => nowMs >= d.expiresAtMs
    case Claimed => nowMs >= d.resumeUntilMs.value
    case _ => true
  }

  /** Cleaning up takes nothing from a destination that has not finished: a file that may
      be deleted and was not consumed can be neither claimed nor resumed, then or later,
      with any code, secret or principal; and it stays so. */
  lemma CleanupTakesNothing(p: Primitives, d: Descriptor, nowMs: u64, later: u64, code: Code, principal: Text,
                            idBytes: seq<byte>, secret: seq<byte>)
    requires Valid(d) && CleanupEligible(d, nowMs) && nowMs <= later && |idBytes| == CLAIM_ID_BYTES
    ensures CleanupEligible(d, later)
    ensures MakeClaim(p, code, d, principal, later, idBytes, secret).Err?
    ensures d.state != Consumed ==> Resume(p, code, d, secret, principal, later).Err?
  {
  }

  /** And it waits no longer than it must: a file that may not be deleted yet can still be
      claimed with a code that opens it, or resumed by whoever has the secret and principal
      it was claimed with. */
  lemma CleanupWaitsForSomething(p: Primitives, d: Descriptor, nowMs: u64, code: Code, principal: Text,
                                 idBytes: seq<byte>, secret: seq<byte>)
    requires Valid(d) && !CleanupEligible(d, nowMs) && |idBytes| == CLAIM_ID_BYTES
    requires d.pairId == code.pairId && OpenPayload(p, code, d).Ok? && nowMs + 24 * 60 * 60 * 1000 <= U64_MAX
    requires d.state == Claimed ==>
               && d.claimSecretHash.value == Encode((p.secretDigest)(secret))
               && d.destinationBinding.value == Encode((p.destinationMac)(code.transferKey, principal))
    ensures || MakeClaim(p, code, d, principal, nowMs, idBytes, secret).Ok?
            || Resume(p, code, d, secret, principal, nowMs) == OpenPayload(p, code, d)
  {
  }

  /** Finalizing twice is finalizing once. */
  lemma FinalizeIdempotent(p: Primitives, c: Claim, d: Descriptor)
    requires Finalize(p, c, d).Ok?
    ensures Finalize(p, c, Finalize(p, c, d).value) == Finalize(p, c, d)
  {
  }

  /** What a source creates is a valid pending descriptor under a well-formed code. */
  lemma NewSourceIsPending(idBytes: seq<byte>, key: seq<byte>, expiresAtMs: u64, nonce: seq<byte>, sealed: seq<byte>)
    requires |idBytes| == PAIR_ID_BYTES && |key| == TRANSFER_KEY_BYTES && |nonce| == NONCE_BYTES
    ensures var s := NewSource(Encode(idBytes), key, expiresAtMs, nonce, sealed);
            && Valid(s.descriptor) && s.descriptor.state == Pending
            && WellFormed(s.code) && s.code.pairId == s.descriptor.pairId
            && DecodeExact(s.descriptor.nonce, NONCE_BYTES) == Some(nonce)
            && Decode(s.descriptor.ciphertext) == Some(sealed)
  {
    EncodedId(idBytes);
    DecodeEncode(nonce);
    DecodeEncode(sealed);
  }

  /** So it opens under its code to what was sealed. */
  lemma SealedOpens(p: Primitives, s: Source, payload: Text, nonce: seq<byte>)
    requires RoundTrips(p) && (p.printPayload)(payload).Some?
    requires DecodeExact(s.descriptor.nonce, NONCE_BYTES) == Some(nonce)
    requires var sealed := (p.seal)(s.code.transferKey, nonce, Aad(s.descriptor.pairId, s.descriptor.expiresAtMs),
                                    (p.printPayload)(payload).value);
             sealed.Some? && Decode(s.descriptor.ciphertext) == sealed
    ensures OpenPayload(p, s.code, s.descriptor) == Ok(payload)
  {
  }

  lemma ClaimSucceeds(p: Primitives, code: Code, d: Descriptor, principal: Text, nowMs: u64,
                      idBytes: seq<byte>, secret: seq<byte>, payload: Text)
    requires |idBytes| == CLAIM_ID_BYTES && Valid(d) && d.state == Pending && d.pairId == code.pairId
    requires OpenPayload(p, code, d) == Ok(payload)
    ensures var claim := MakeClaim(p, code, d, principal, nowMs, idBytes, secret);
            && (claim.Ok? <==> nowMs < d.expiresAtMs && nowMs + 24 * 60 * 60 * 1000 <= U64_MAX)
            && (claim.Ok? ==> claim.value.payload == payload)
  {
  }

  /** A source that was created holds the sealed payload under its own code. */
  lemma CreatedOpens(p: Primitives, payload: Text, createdAt: u64, pairBytes: seq<byte>, key: seq<byte>, nonce: seq<byte>)
    requires RoundTrips(p)
    requires |pairBytes| == PAIR_ID_BYTES && |key| == TRANSFER_KEY_BYTES && |nonce| == NONCE_BYTES
    requires CreateSource(p, payload, createdAt, pairBytes, key, nonce).Ok?
    ensures var s := CreateSource(p, payload, createdAt, pairBytes, key, nonce).value;
            && OpenPayload(p, s.code, s.descriptor) == Ok(payload)
            && Valid(s.descriptor) && s.descriptor.state == Pending && s.descriptor.pairId == s.code.pairId
            && s.descriptor.expiresAtMs == createdAt + 5 * 60 * 1000 && WellFormed(s.code)
  {
    var s := CreateSource(p, payload, createdAt, pairBytes, key, nonce).value;
    var aad := Aad(Encode(pairBytes), s.descriptor.expiresAtMs);
    NewSourceIsPending(pairBytes, key, s.descriptor.expiresAtMs, nonce,
                       (p.seal)(key, nonce, aad, (p.printPayload)(payload).value).value);
    SealedOpens(p, s, payload, nonce);
  }

  /** End to end: the code a source shows is read back from its print, and a claim made
      with it on the uploaded descriptor, in the five minutes it lasts, carries exactly
      the payload of the source. */
  lemma TransferArrives(p: Primitives, payload: Text, createdAt: u64,
                        pairBytes: seq<byte>, key: seq<byte>, nonce: seq<byte>,
                        principal: Text, nowMs: u64, claimBytes: seq<byte>, secret: seq<byte>)
    requires RoundTrips(p)
    requires |pairBytes| == PAIR_ID_BYTES && |key| == TRANSFER_KEY_BYTES && |nonce| == NONCE_BYTES
    requires |claimBytes| == CLAIM_ID_BYTES
    requires CreateSource(p, payload, createdAt, pairBytes, key, nonce).Ok?
    ensures var s := CreateSource(p, payload, createdAt, pairBytes, key, nonce).value;
            var claim := MakeClaim(p, s.code, s.descriptor, principal, nowMs, claimBytes, secret);
            && Parse(Print(s.code)) == Some(s.code)
            && (claim.Ok? ==> claim.value.payload == payload)
            && (claim.Ok? <==> nowMs < createdAt + 5 * 60 * 1000 && nowMs + 24 * 60 * 60 * 1000 <= U64_MAX)
  {
    CreatedOpens(p, payload, createdAt, pairBytes, key, nonce);
    var s := CreateSource(p, payload, createdAt, pairBytes, key, nonce).value;
    ParsePrint(s.code);
    ClaimSucceeds(p, s.code, s.descriptor, principal, nowMs, claimBytes, secret, payload);
  }
}
