# iSyncYou: protocol, stream and encoding proofs

iSyncYou backs up and syncs a Microsoft 365 account and carries an agent that searches the archive.
This project models the parts of it whose correctness depends on whole runs rather than on one call,
and proves what they keep:

- **Device pairing** (`PairingCode`, `PairingDescriptor`, `PairingProtocol`). Any number of devices
  share one remote file per pair id. Each reads the eTag, then the bytes, computes a transition and
  writes it back with an If-Match condition (section 13.1.1 of RFC 9110). Runs interleave single
  requests, lost acknowledgements and deletions freely.
- **Server-Sent Events** (`Sse`, `SseMeaning`, `Utf8`). The decoder takes arbitrary chunks and must
  emit what a plain fold over the lines emits, and that must be what the lines say (sections 9.2.5 and
  9.2.6 of the WHATWG HTML Living Standard, as far as the decoder follows them).
- **Progressive-search evidence** (`ProgressiveReducer`, `ProgressiveRuns`, `ProgressiveAcceptance`).
  A reducer over stage and partial-result events with ordering, sequencing, replay and add/enrich
  rules; which runs it accepts and what they leave is stated over the events alone.
- **Canonical encodings and tokens** (`Bytes`, `Base64Url`, `Decimal`, `WireText`, `SearchScope`,
  `Continuation`, `MacInputs`, `Layouts`). Base64url follows section 5 of RFC 4648 with the
  trailing-bits rule of its section 3.5; HMAC (section 2 of RFC 2104) is an arbitrary function.
- **Registries and schedulers** (`PendingRegistry`, `Hydration`, `Batches`, `Scheduler`,
  `ProbeLimiter`). One step is one critical section or one atomic operation.
- **Drift capture** (`DriftReducer`, `DriftMeaning`, `DriftPrivacy`, `DriftRemoval`). A walk over
  arbitrary JSON whose summary must not depend on anything outside an allowlist.

Code that updates an object is a class whose methods are proved against a function of the old state;
the properties of runs are lemmas about those functions. `dafny verify dfyconfig.toml` checks all files.

## How the model reads the code

- Text is its UTF-8 bytes, except in the JSON and event modules, where strings are only compared.
  Random ids, tokens, versions and clocks are parameters. SHA-256, HMAC, AES-GCM and the action hash
  are arbitrary functions, so every lemma holds for all of them. Only the lemma that a transfer arrives
  asks that opening undoes sealing and parsing undoes printing.
- The pairing runs allow re-creating a deleted file under a new item id; the properties speak of one
  item id, that is, one life of the file. Versions, item ids and claim ids are never given out twice.
- The SSE decoder differs from the standard: a bare CR ends no line, the end of input dispatches a
  trailing event, an empty first `data:` line adds no newline, and the CR of an unterminated last line
  is kept. The line limit is checked on the carry with its CR but on a complete line without it, so a
  line that is one byte too long with its CR is accepted or refused depending on where the stream is
  cut. `Sse.ChunkingCriterion` says exactly when that matters, `Sse.EdgeLineExample` gives the input
  for every limit.
- The continuation parser is modelled as accepting exactly the canonical text of the ten members. The
  code parses leniently, prints again and compares; a text member outside the base64url alphabet fails
  its later checks, so both accept the same payloads.
- `pairing_aad` truncates its length field to 32 bits; the encoding is injective all the same.
- Comments in the drift capture say that `modelUsage` is discarded as one unit and that ignored usage
  values are not inspected. The code walks into every value. `DriftRemoval.ModelUsageDiscarded` and
  `DriftRemoval.IgnoredUsageDiscarded` say, line by line, exactly when each claim holds of the summary;
  `DriftRemoval.ModelUsageShows` and `DriftRemoval.IgnoredUsageShows` give inputs where it does not.
- The hydration results allow stray and repeated dones. Only `Hydration.ActiveIsOutstanding` and the last
  clause of `Hydration.ResetOnlyWhenIdle` speak of runs in which no name has more dones than starts.
- `SseMeaning.PrintReadBack` prints every line with a space after the colon, so its values leave six
  bytes of the line limit to `data: `; `SseMeaning.StreamMeaning` covers every way of writing the lines.

## Model

| member | source | states |
|---|---|---|
| `PairingProtocol.AtMostOneClaim` | crates/agent/src/pairing_v2.rs:127-141 | In every run, any two sightings of one file that carry a claim carry the same claim id, secret hash, destination binding and resume deadline |
| `PairingProtocol.RunStep` | crates/agent/src/pairing_v2.rs:111-147 | In every run, a conditional write or delete that takes effect acts on exactly the descriptor, item and version its client read in two separate requests; and every step leaves a file's descriptor alone or takes one allowed edge |
| `PairingProtocol.EffectiveWriteActsOnWhatWasRead` | crates/agent/src/pairing_v2.rs:111-147 | Under the invariant, an effective write or delete finds the descriptor the client holds |
| `PairingProtocol.InvKept` | crates/agent/src/pairing_v2.rs:82-147 | Every request of every client keeps: a present file is valid, a read with the current version is the current descriptor, held claims are well made and their ids were issued to their holder |
| `PairingProtocol.RunInv` | crates/agent/src/pairing_v2.rs:82-147 | The invariant holds at every point of every run |
| `PairingProtocol.TargetMoves` | crates/agent/src/pairing_v2.rs:340-367 | Publishing, finalizing, expiring and revoking move only along Pending to Claimed or Revoked, Claimed to Consumed, ClaimedExpired or Revoked, ClaimedExpired to Revoked, keep the transfer fields, and set claim fields only on Pending to Claimed |
| `PairingProtocol.StepMoves` | crates/agent/src/pairing_v2.rs:127-141 | The same of one step of any client on the shared file |
| `PairingProtocol.StepOnItem` | crates/agent/src/pairing_v2.rs:82-147 | An item that is there after a step was there before it: a deleted file does not come back under its id |
| `PairingProtocol.LifeEvolves` | crates/agent/src/pairing_v2.rs:385-431 | Over any stretch of a run, a file's transfer fields stay, its state only advances, its claim once set stays, and it was present throughout |
| `PairingProtocol.ConsumedExcludesExpired` | crates/agent/src/pairing_v2.rs:354-367 | No file is ever both consumed and expired; it is valid at all times; consumed and revoked descriptors never change again |
| `PairingProtocol.WriterHoldsClaim` | crates/agent/src/pairing_v2.rs:727-780 | A step that makes a file claimed or consumed is a publish or finalize by a client that holds, and was issued, exactly the claim that is published |
| `PairingProtocol.OnlyPublisherConsumes` | crates/agent/src/pairing_v2.rs:748-780 | In every run, the client that consumes a file is the one that published its claim, earlier, and finalizes that very claim |
| `PairingProtocol.ExpiryIsDue` | crates/agent/src/pairing_v2.rs:354-367 | In every run, a step that makes a file ClaimedExpired is an expiry of a claimed file whose clock is at or past the claim's resume deadline, and changes nothing but the state |
| `PairingProtocol.PublishedClaimWasMade` | crates/agent/src/pairing_v2.rs:649-685 | In every run, a published claim was made earlier by its publisher, on the very descriptor it replaces, before that expired, and its deadline is 24 hours after that moment |
| `PairingProtocol.ClaimWasMade` | crates/agent/src/pairing_v2.rs:649-685 | Every claim a client holds was made by that client at an earlier step, in time |
| `PairingProtocol.TransferCanComplete` | crates/agent/src/pairing_v2.rs:649-780 | From every reachable state with a pending file, a client that can open it, whose successors are within the size limit, and that is not disturbed takes it to Claimed with its own claim and to Consumed, in five steps |
| `PairingProtocol.FileCanEnd` | crates/agent/src/pairing_v2.rs:340-367 | From every reachable state any undisturbed client revokes a file that is pending, claimed or expired, and expires a claimed one past its deadline, in three steps, changing nothing but the state |
| `PairingProtocol.EndTargets` | crates/agent/src/pairing_v2.rs:340-367 | Revoking has a result exactly for pending, claimed and expired files, expiring exactly for claimed ones past their deadline and, unchanged, for expired ones |
| `PairingProtocol.ClaimFollowsState` | crates/agent/src/pairing_v2.rs:385-431 | At every point of every run: no claim field while pending, all four while claimed, consumed or expired, all or none once revoked; lengths, version, pair id, nonce and ciphertext are well formed |
| `PairingProtocol.PairingFile.Create` | crates/agent/src/pairing_v2.rs:82-102 | Refuses a malformed or over-long source without touching the file; otherwise an upload that fails on conflict: it writes exactly when the path was free and reports the new version |
| `PairingProtocol.PairingFile.CompareAndSwap` | crates/agent/src/pairing_v2.rs:127-141 | Refuses another pair id and a malformed or over-long successor without touching the file; otherwise replaces it exactly when item and version match |
| `PairingProtocol.PairingFile.Delete` | crates/agent/src/pairing_v2.rs:143-147 | Deletes exactly when item and version match |
| `PairingDescriptor.MadeClaimIsGood` | crates/agent/src/pairing_v2.rs:649-685 | A claim that is made is a valid Claimed descriptor; its fields decode to the fresh id, the digest of its own secret and the MAC of the principal under the transfer key, its deadline is 24 hours later, and undoing them gives back the pending descriptor |
| `PairingDescriptor.ResumeOwnClaim` | crates/agent/src/pairing_v2.rs:687-725 | A claim resumes to the payload it was opened with if and only if the file is claimed or consumed, 24 hours have not passed, the secret has the same digest and the principal the same MAC |
| `PairingDescriptor.ResumeAnswers` | crates/agent/src/pairing_v2.rs:687-725 | What anyone who tries to resume a claimed file is told, in every case and order of checks |
| `PairingDescriptor.SecondClaimRefused` | crates/agent/src/pairing_v2.rs:649-666 | A file that was claimed is refused to every later claimant at any time, whatever became of it, and with a code of another pair id |
| `PairingDescriptor.PublishExactly` | crates/agent/src/pairing_v2.rs:727-746 | A claim replaces exactly the pending descriptor it was made from, is nothing to do where it is published, and is refused everywhere else |
| `PairingDescriptor.FinalizeExactly` | crates/agent/src/pairing_v2.rs:748-780 | A claim finalizes exactly its own published or consumed descriptor, to itself consumed; every other file is refused, with its reason |
| `PairingDescriptor.TransferArrives` | crates/agent/src/pairing_v2.rs:539-685 | End to end: the code of a created source reads back from its print, and a claim made with it on the created descriptor succeeds exactly within five minutes and carries exactly the payload of the source |
| `PairingDescriptor.CleanupTakesNothing` | crates/agent/src/pairing_v2.rs:369-383 | A file eligible for cleanup stays so, can be claimed by nobody, then or later, and if not consumed resumed by nobody |
| `PairingDescriptor.CleanupWaitsForSomething` | crates/agent/src/pairing_v2.rs:369-383 | A file not yet eligible can still be claimed with a code that opens it or resumed by its claimant |
| `PairingDescriptor.FinalizeIdempotent` | crates/agent/src/pairing_v2.rs:748-780 | Finalizing a finalized descriptor gives it back unchanged |
| `PairingCode.ParsePrint` | crates/agent/src/pairing_v2.rs:245-274 | Every code prints to 81 characters that parse back to it |
| `PairingCode.CodeLayout` | crates/agent/src/pairing_v2.rs:245-274 | A code is `isy2.`, the pair id in characters 5 to 36, a dot, and the base64url of the transfer key |
| `PairingCode.PrintParse` | crates/agent/src/pairing_v2.rs:245-274 | Every accepted string is the print of the code it parses to |
| `Base64Url.DecodeEncode` | crates/agent/src/pairing_v2.rs:949-955 | Decoding an encoding returns the bytes |
| `Base64Url.EncodeDecode` | crates/agent/src/pairing_v2.rs:949-955 | Every accepted text is the encoding of what it decodes to: trailing bits are canonical |
| `Base64Url.EncodeLength` | crates/agent/src/progressive_search.rs:43-58 | The unpadded length of an encoding |
| `Base64Url.EncodedNumber` | crates/agent/src/progressive_search.rs:43-45 | An encoding is written in the alphabet of table 2 of RFC 4648, and as a base-64 number is the bytes as a base-256 number, filled up with zero bits |
| `Sse.ChunkingOutcome` | crates/agent/src/http.rs:129-155 | Any chunking of any stream ends as the fold over its lines does, or stops just before a line the fold reaches whose length with CR is one over the limit |
| `Sse.ChunkingCriterion` | crates/agent/src/http.rs:129-155 | All chunkings of a stream agree with the fold, on events and error, if and only if after every such line the fold reaches, itself included, no line emits an event or is refused until a line or the tail is over-long even without its CR |
| `Sse.AcceptedChunkingCriterion` | crates/agent/src/http.rs:129-155 | For streams the fold accepts: all chunkings agree if and only if there is no such line |
| `Sse.SuccessfulChunking` | crates/agent/src/http.rs:129-155 | A chunking that succeeds emits exactly the events of the fold |
| `Sse.AnyChunking` | crates/agent/src/http.rs:129-155 | If no line with its CR is exactly one over the limit, every chunking yields the events and the error of the fold |
| `Sse.EdgeLineBreaks` | crates/agent/src/http.rs:129-147 | For every such line that is reached, a chunking that refuses it after the events before it |
| `Sse.HarmlessMeaning` | crates/agent/src/http.rs:129-155 | That condition on the lines is exactly when refusing the line early has the outcome of the fold |
| `Sse.EdgeLineExample` | crates/agent/src/http.rs:129-147 | For every choice of limits, a stream of one comment line that is accepted whole, without event, and refused in some chunking |
| `SseMeaning.StreamMeaning` | crates/agent/src/http.rs:129-204 | What a stream says, for every stream within the limits: written as blocks of lines, each a comment, an `event` or `data` line with or without the space after its colon or without colon, or an unknown field, ended by LF or CRLF, it decodes to one event per block, with the last name and the data joined by newlines, the unclosed block included |
| `SseMeaning.EveryLine` | crates/agent/src/http.rs:158-194 | Every line that is not blank is one of those four kinds |
| `SseMeaning.StreamRefused` | crates/agent/src/http.rs:158-194 | A line that is too long, not UTF-8, or exceeds the data limit ends the stream with that error, after the events of the blocks before it |
| `SseMeaning.EventsReadBack` | crates/agent/src/http.rs:129-204 | However a list of events is written, with comments and unknown fields anywhere, the decoder gives back the list |
| `SseMeaning.PrintReadBack` | crates/agent/src/http.rs:129-204 | Printing a list of printable events and decoding it gives the list back |
| `SseMeaning.ChunksMeaning` | crates/agent/src/http.rs:129-156 | So does every chunking, when each line fits with its CR |
| `Utf8.EncodedIsValid` | crates/agent/src/http.rs:166-167 | The UTF-8 encoding of any scalar values is accepted |
| `Utf8.ValidIsEncoded` | crates/agent/src/http.rs:166-167 | Every accepted text is the encoding of scalar values |
| `Sse.FeedIsFold` | crates/agent/src/http.rs:129-155 | From any decoder state, pushing chunks and finishing is folding carry and chunks at once, up to such lines |
| `Sse.DrainIsFold` | crates/agent/src/http.rs:135-142 | Draining complete lines from the buffer is the fold over them, and what is left is the text after the last newline |
| `Sse.LinesConcat` | crates/agent/src/http.rs:135-142 | Cutting a stream anywhere changes no line: only the open tail carries over |
| `Sse.PushBounds` | crates/agent/src/http.rs:129-185 | After a successful push the carry has no newline and fits the line limit; event data fits its limit after every push |
| `Sse.SseDecoder.PushBytes` | crates/agent/src/http.rs:129-147 | The in-place loop computes the drain, events in order, and keeps the rest also on failure |
| `Sse.SseDecoder.Process` | crates/agent/src/http.rs:158-194 | One line: limits, UTF-8, comments, `event` and `data` fields, dispatch on an empty line |
| `Sse.SseDecoder.DispatchEvent` | crates/agent/src/http.rs:196-204 | Emits and clears the event under construction, if there is one |
| `Sse.SseDecoder.End` | crates/agent/src/http.rs:149-156 | The tail counts as a line, then the event is dispatched; the carry is empty |
| `ProgressiveRuns.StageDiscipline` | tools/agent-progressive-search-probe.py:312-357 | In every accepted run known stages are a prefix of names, bodies, deep; a running or complete stage has all earlier ones complete; at most one stage per activity runs |
| `ProgressiveRuns.TerminalIsFinal` | tools/agent-progressive-search-probe.py:326-340 | A stage that is complete, failed, skipped or cancelled at some point of an accepted run is so at its end |
| `ProgressiveRuns.ReportCriterion` | tools/agent-progressive-search-probe.py:429-446 | After an accepted run a report succeeds if and only if the run is terminal, has an activity and left no stage open; complete stages form a prefix |
| `ProgressiveRuns.PartialSequences` | tools/agent-progressive-search-probe.py:384-423 | Each activity's fresh partials are numbered 0, 1, 2, ... without gap, at most 64, in stages that never go back, and exactly these have recorded digests |
| `ProgressiveRuns.ResultKeys` | tools/agent-progressive-search-probe.py:395-414 | Over the items of an activity's fresh partials every key is added exactly when new and enriched only when known; the result keys are those keys and the union of the per-stage sets, at most 200 |
| `ProgressiveRuns.AddedThenEnriched` | tools/agent-progressive-search-probe.py:397-404 | Item by item: no key is added after it occurred, and an enriched key was added by an earlier item |
| `ProgressiveRuns.ReplaysAreInert` | tools/agent-progressive-search-probe.py:384-388 | Deleting every replay from an accepted run leaves an accepted run with the same activities, sources, facts, error code and terminal reason; the replay count is the number deleted |
| `ProgressiveRuns.RecordedDigests` | tools/agent-progressive-search-probe.py:383-415 | The recorded digests are those of the fresh partials, by sequence number |
| `ProgressiveRuns.ReplayRepeats` | tools/agent-progressive-search-probe.py:384-388 | An accepted replay has the digest of the fresh partial with its sequence number |
| `ProgressiveAcceptance.AcceptedRuns` | tools/agent-progressive-search-probe.py:231-423 | A run is accepted if and only if each event is allowed by the events before it: room for the event, not after done; for a stage, the statuses last reported of it and its predecessors and the number of activities and updates; for a partial, a running stage, the next number, new or known keys within 200, or the digest of the partial it repeats |
| `ProgressiveAcceptance.AcceptanceCriterion` | tools/agent-progressive-search-probe.py:231-258 | The same of one more event after any accepted run |
| `ProgressiveAcceptance.StageCriterion` | tools/agent-progressive-search-probe.py:312-357 | The same of a stage event: a new stage can only be queued, a queued one not complete, a running one not be queued again, a closed one only repeat |
| `ProgressiveAcceptance.PartialCriterion` | tools/agent-progressive-search-probe.py:380-423 | The same of a partial result |
| `ProgressiveAcceptance.MergeSucceeds` | tools/agent-progressive-search-probe.py:395-410 | Items merge if and only if each adds a new key or enriches a known one and the keys stay within 200 |
| `ProgressiveAcceptance.StateIsHistory` | tools/agent-progressive-search-probe.py:231-423 | After an accepted run the state is what its events say: statuses, update counts, numbers, keys, keys per stage, digests, facts, sources, error code and terminal reason |
| `ProgressiveAcceptance.WholeSearch` | tools/agent-progressive-search-probe.py:231-446 | For every activity, progress and items that add new keys and enrich known ones, in at most 64 parts and 200 keys: the run of all three stages and a done is accepted, can be reported and leaves exactly these keys |
| `ProgressiveAcceptance.StageCanRun` | tools/agent-progressive-search-probe.py:312-423 | A stage whose predecessors are complete can be queued, run, carry such parts and complete, wherever there is room |
| `ProgressiveAcceptance.DoneCloses` | tools/agent-progressive-search-probe.py:429-446 | A done after completed stages is accepted and makes the run reportable |
| `ProgressiveReducer.Reducer.AcceptEvent` | tools/agent-progressive-search-probe.py:231-258 | The whole new state and the rejection, in the order of the checks, including what a rejected event leaves behind |
| `ProgressiveReducer.ShapeOnlyRejects` | tools/agent-progressive-search-probe.py:231-258 | An event is accepted exactly when it passes its shape checks and is accepted without them, to the same effect; a shape rejection leaves at most the event's name |
| `ProgressiveReducer.Reducer.AcceptStageEvent` | tools/agent-progressive-search-probe.py:312-357 | A rejected stage event may leave a new, empty activity and nothing else |
| `ProgressiveReducer.Reducer.AcceptPartialEvent` | tools/agent-progressive-search-probe.py:380-423 | A replay only counts; a refused item leaves the per-stage keys and sources of the items before it |
| `ProgressiveReducer.Reducer.MergeInPlace` | tools/agent-progressive-search-probe.py:395-410 | The item loop, updating per-stage keys and sources as it goes and stopping at the first refused item |
| `ProgressiveReducer.MergeStops` | tools/agent-progressive-search-probe.py:397-410 | Items after a refused one change nothing |
| `Continuation.OpenSealed` | crates/agent/src/progressive_search.rs:339-440 | Opening a sealed state returns that state, for every MAC function |
| `Continuation.SealOpened` | crates/agent/src/progressive_search.rs:339-440 | Sealing what an accepted token opened to returns the identical token |
| `Continuation.SealSucceeds` | crates/agent/src/progressive_search.rs:339-375 | Sealing succeeds if and only if the state is of this activity and scope, within the limits of 500, 16 000, 40 and 15, and session and request id have 16-bit lengths: the 640 and 1024 byte caps are never reached |
| `Continuation.PayloadLength` | crates/agent/src/progressive_search.rs:357-361 | The payload of a valid state is at most 531 bytes |
| `Continuation.ParsePrint` | crates/agent/src/progressive_search.rs:419-437 | The payload of a valid state parses back to it |
| `Continuation.PrintParse` | crates/agent/src/progressive_search.rs:419-425 | Every accepted payload is the canonical print of its state |
| `WireText.ScanRender` | crates/agent/src/progressive_search.rs:345-358 | A printed object of separated members scans back to its fields |
| `WireText.RenderScan` | crates/agent/src/progressive_search.rs:419-425 | Every accepted text is the print of the fields read from it |
| `SearchScope.EncodingIsCanonical` | crates/agent/src/progressive_search.rs:88-157 | Two accepted requests encode equally if and only if account, query, effective service set and effective limit are equal |
| `SearchScope.EncodeScopeInjective` | crates/agent/src/progressive_search.rs:136-144 | The encoding determines account, query, service list and limit |
| `SearchScope.SelectedShape` | crates/agent/src/progressive_search.rs:105-130 | A known service list selects exactly its set, or all six when empty, each once |
| `SearchScope.SelectionMeans` | crates/agent/src/progressive_search.rs:105-130 | No list selects all six services, any other list exactly its own, always in list order |
| `SearchScope.NewCanonical` | crates/agent/src/progressive_search.rs:88-157 | Accepts exactly accounts of 1 to 128 bytes, trimmed queries of 1 to 2048, known services and limits of 1 to 160, and yields the ordered services, the limit, 20 by default, the encoding and its digest |
| `SearchScope.NewNormalized` | crates/agent/src/archive.rs:115-150 | Accepts the same accounts and service lists as the canonical scope and yields the same ordered services |
| `SearchScope.SelectServices` | crates/agent/src/progressive_search.rs:105-130 | The count check together with the lookup accepts exactly the lists of known services |
| `SearchScope.Select` | crates/agent/src/progressive_search.rs:109-116 | The scan over the service list keeps exactly the requested ones, in list order |
| `SearchScope.WriteScope` | crates/agent/src/progressive_search.rs:136-144 | Appending part by part gives the encoding |
| `SearchScope.Ordinal` | crates/agent/src/progressive_search.rs:36-41 | Known services, and only those, have a position, and it points back at them |
| `MacInputs.ActivityInputInjective` | crates/agent/src/progressive_search.rs:329-337 | The activity MAC input determines the tool-use id |
| `MacInputs.MessageInjective` | crates/agent/src/progressive_search.rs:298-313 | The continuation message determines all five binding fields and the payload |
| `MacInputs.ContinuationInputInjective` | crates/agent/src/progressive_search.rs:362-365 | So does the MAC input with its domain prefix |
| `MacInputs.CandidateInputInjective` | crates/agent/src/progressive_search.rs:442-460 | The candidate-key MAC input determines activity, scope digest, page, page digest, service and item id |
| `MacInputs.DomainsSeparate` | crates/agent/src/progressive_search.rs:290-296 | Inputs of different kinds are never equal, whatever follows the three domain prefixes |
| `MacInputs.PageInjective` | crates/agent/src/progressive_search.rs:499-531 | The candidate-page preimage determines the page size, the item ids and every candidate's service, name, sender, type, time and size, absent ones included |
| `MacInputs.WritePage` | crates/agent/src/progressive_search.rs:492-536 | Refuses unequal or over-long pages, unknown services and overlong fields, and otherwise writes the preimage |
| `MacInputs.WriteRows` | crates/agent/src/progressive_search.rs:502-531 | The loop over candidates, up to the first that cannot be encoded |
| `MacInputs.AadInjective` | crates/agent/src/pairing_v2.rs:913-919 | The pairing AAD determines pair id and expiry, for ids of any length |
| `MacInputs.BindingItemInjective` | crates/agent/src/confirm.rs:190-198 | Binding items are equal only for equal pending ids and action hashes, whatever characters they hold |
| `Layouts.ScopeLayout` | crates/agent/src/progressive_search.rs:136-144 | A reader of typed fields finds in an encoded scope: version 1, account, query, service positions, limit, and nothing more |
| `Layouts.MessageLayout` | crates/agent/src/progressive_search.rs:298-313 | There is a continuation message exactly for 16-bit lengths, and it reads as session, request, activity, tool use, scope digest, payload |
| `Layouts.ActivityLayout` | crates/agent/src/progressive_search.rs:329-337 | The activity input exists exactly for ids of 1 to 128 bytes and reads as its domain and the id |
| `Layouts.CandidateLayout` | crates/agent/src/progressive_search.rs:442-460 | The candidate-key input reads as domain, activity, scope digest, page, page digest, service, item id |
| `Layouts.PageLayout` | crates/agent/src/progressive_search.rs:499-531 | The page preimage reads as its domain, the number of candidates, and each candidate in turn: service position, id, name, sender, type, time, size, absent ones marked |
| `Layouts.PayloadLayout` | crates/agent/src/progressive_search.rs:216-229 | The payload is the JSON object, without white space, of the ten members by name |
| `Layouts.TokenLayout` | crates/agent/src/progressive_search.rs:362-374 | A sealed token is that object and the MAC of the continuation input over it, in base64url, joined by a dot |
| `Layouts.AadLayout` | crates/agent/src/pairing_v2.rs:913-919 | The pairing AAD reads as its domain, the pair id and the expiry |
| `Layouts.BindingItemLayout` | crates/agent/src/confirm.rs:190-198 | A binding item is the counted pending id and the counted hash, each behind its label |
| `Bytes.IntegerBytes` | crates/agent/src/progressive_search.rs:20-34 | Integers are written most significant byte first |
| `Bytes.U16LenCancel` | crates/agent/src/progressive_search.rs:28-34 | A 16-bit length-prefixed text can be cut off the front in only one way |
| `Bytes.U32LenCancel` | crates/agent/src/progressive_search.rs:20-26 | A 32-bit length-prefixed text can be cut off the front in only one way |
| `PendingRegistry.ConsumedAtMostOnce` | crates/agent/src/confirm.rs:239-433 | Over every sequence of calls with fresh ids, an action is consumed at most once by confirm and cancel together |
| `PendingRegistry.TableIsHistory` | crates/agent/src/confirm.rs:239-433 | After every sequence of calls with fresh ids an id is pending exactly while it waits, with action, preview and owner of the call that registered it, the hash of that action and deadline, and the token handed out last |
| `PendingRegistry.ConfirmIsSound` | crates/agent/src/confirm.rs:296-324 | After any sequence of calls a confirm that succeeds returns the action given to the call that registered the id, comes before its deadline, with the hash of that action and deadline and the token of that call or its last reissue, and is the first consumption |
| `PendingRegistry.ConfirmIsComplete` | crates/agent/src/confirm.rs:296-324 | The reply to every confirm after any sequence of calls: not found unless the action waits, then expired, mismatch, bad token, else the registered action |
| `PendingRegistry.LookupsAnswer` | crates/agent/src/confirm.rs:330-378 | Binding and cancel succeed exactly for a waiting action before its deadline with its hash, and answer from the call that registered it |
| `PendingRegistry.ReissueAnswers` | crates/agent/src/confirm.rs:384-423 | A token is rotated for an id exactly when it is the only one waiting for that owner; nothing to reissue exactly when none waits |
| `PendingRegistry.HasPendingAnswers` | crates/agent/src/confirm.rs:426-433 | A turn has a pending action exactly when one registered for it waits unexpired |
| `PendingRegistry.CtEq` | crates/agent/src/confirm.rs:148-157 | The accumulating comparison is equality |
| `PendingRegistry.Registry.RegisterBound` | crates/agent/src/confirm.rs:239-291 | The entry stored and returned is the action, preview, token and owner of the call, with its saturating deadline and hash; nothing is stored when no id or token can be drawn or the action not be hashed |
| `PendingRegistry.Registry.Check` | crates/agent/src/confirm.rs:309-317 | Unknown, expired and dropped, or mismatched, in that order |
| `PendingRegistry.Registry.ConfirmAction` | crates/agent/src/confirm.rs:296-324 | The new table and the reply; a wrong token consumes nothing |
| `PendingRegistry.Registry.GetBinding` | crates/agent/src/confirm.rs:330-354 | The binding of a pending action, which stays pending |
| `PendingRegistry.Registry.CancelAction` | crates/agent/src/confirm.rs:359-378 | Consumes the entry and returns its owner, without a token |
| `PendingRegistry.Registry.ReissueForOwner` | crates/agent/src/confirm.rs:384-423 | Drops expired entries, then replaces the token of the owner's only entry; none and several are told apart, and without a fresh token nothing changes |
| `PendingRegistry.Registry.HasPendingForTurn` | crates/agent/src/confirm.rs:426-433 | Drops expired entries, then looks for the turn |
| `Hydration.EveryRun` | bin/daemon/src/main.rs:1036-1097 | In every interleaving a non-empty batch with nothing active has a finalizer of the current generation, and every start is in exactly one reset batch or the current one |
| `Hydration.ActiveIsOutstanding` | bin/daemon/src/main.rs:1036-1071 | In every interleaving of matched starts and dones the active names are exactly the started ones less the finished ones |
| `Hydration.RemoveFirstIs` | bin/daemon/src/main.rs:1062-1064 | One occurrence of the name goes, the first, and the rest stays in order |
| `Hydration.HydratingIds` | bin/daemon/src/main.rs:1036-1071 | The ids that count as hydrating are those whose last start or done is a start |
| `Hydration.ToastReplaced` | bin/daemon/src/main.rs:1036-1096 | The toast to replace is the last one shown since a batch was closed, or none |
| `Hydration.StartOpensBatch` | bin/daemon/src/main.rs:1037-1050 | A start opens a batch exactly when no start is waiting in one |
| `Hydration.InvKept` | bin/daemon/src/main.rs:1036-1097 | Every critical section keeps that, and keeps finalizer generations distinct |
| `Hydration.ResetOnlyWhenIdle` | bin/daemon/src/main.rs:1075-1096 | A reset closes a batch only with nothing active, with matched calls only when every start has had its done, and the batch has exactly as many starts as the finalizer announced |
| `Hydration.OpenBatchCanClose` | bin/daemon/src/main.rs:1075-1096 | From every reachable state with an open batch and nothing active, at most two steps of one finalizer close exactly that batch |
| `Hydration.Tracker.OnStart` | bin/daemon/src/main.rs:1037-1050 | A start joins the batch and invalidates pending finalizers; it opens a batch only when none is open |
| `Hydration.Tracker.OnDone` | bin/daemon/src/main.rs:1059-1071 | Removes one occurrence of the name; a finalizer with the new generation is due exactly when nothing is left |
| `Hydration.Tracker.FinalizerChecks` | bin/daemon/src/main.rs:1077-1083 | Announces the batch and its toast exactly when the generation is current and nothing is active |
| `Hydration.Tracker.FinalizerResets` | bin/daemon/src/main.rs:1090-1094 | Resets the batch only when its generation is still current |
| `Scheduler.TriggersServedOnce` | bin/daemon/src/main.rs:645-658 | In every interleaving each trigger is served by exactly one later pass or waits behind a set flag |
| `Scheduler.SignalsCounted` | bin/daemon/src/main.rs:645-723 | In every interleaving the pause flag is that of the last pause or resume, and there are as many triggers as sync-now calls and local changes while not paused |
| `Scheduler.PassDiscipline` | bin/daemon/src/main.rs:645-658 | When the wait returns, a pass starts exactly when a trigger waits, or the interval has elapsed and nothing is paused; it serves all waiting triggers, and the flag is cleared in no other way |
| `Scheduler.Control.AfterWait` | bin/daemon/src/main.rs:645-658 | Clears the flag, and runs on a trigger or on an unpaused timeout |
| `Scheduler.Control.OnLocalChange` | bin/daemon/src/main.rs:716-723 | A local change sets the flag exactly when not paused |
| `ProbeLimiter.CounterIsExact` | crates/agent/src/connectivity.rs:231-263 | In every interleaving of stale, failing and succeeding exchanges and drops, the counter is the number of live permits, at most two, and no drop finds zero |
| `ProbeLimiter.InvKept` | crates/agent/src/connectivity.rs:231-263 | Every atomic operation keeps that |
| `ProbeLimiter.LastLook` | crates/agent/src/connectivity.rs:232-246 | What a caller holds is the counter at its last load or failed exchange |
| `ProbeLimiter.RefusalSawLimit` | crates/agent/src/connectivity.rs:231-248 | A refusal means two permits were live at a moment inside that very call |
| `ProbeLimiter.Counter.TryAcquire` | crates/agent/src/connectivity.rs:231-248 | Without interference the loop acquires exactly when below the limit, spurious failures notwithstanding |
| `ProbeLimiter.Counter.CompareExchangeWeak` | crates/agent/src/connectivity.rs:237-246 | The weak exchange: may fail without reason, reports what it saw |
| `DriftPrivacy.InspectMeaning` | crates/agent/src/drift_capture.rs:720-787 | The walk records exactly what occurs at any depth: allowlisted keys under `usage` and `rate_limit_info`, non-null identifiers, the sentinel, and stray keys |
| `DriftMeaning.SummaryTells` | crates/agent/src/drift_capture.rs:675-787 | The summary of a log is: per event type the number of its lines, the allowlisted fields, identifiers and sentinel that occur in some line, and the reviews some line asks for |
| `DriftMeaning.EventTypeMeans` | crates/agent/src/drift_capture.rs:695-701 | A line has a known type exactly when it is an object whose first `type` member is that name |
| `DriftMeaning.ContainsMeans` | crates/agent/src/drift_capture.rs:749 | The sentinel is found exactly when it stands somewhere in the text |
| `DriftPrivacy.SummaryErased` | crates/agent/src/drift_capture.rs:675-787 | Erasing every line of a log to its allowed names, its known type, placeholders and the sentinel leaves the summary alone |
| `DriftPrivacy.Noninterference` | crates/agent/src/drift_capture.rs:675-787 | Logs with equal erasures have equal summaries, and an erased line holds only names allowed for its event type, names the walk knows, a known type, placeholders and the sentinel |
| `DriftPrivacy.EventTypeErased` | crates/agent/src/drift_capture.rs:695-701 | The erased line has the event type of the line |
| `DriftPrivacy.UnexpectedFieldErased` | crates/agent/src/drift_capture.rs:702-712 | The erased line has an unexpected field exactly when the line has one |
| `DriftPrivacy.LineIsPublic` | crates/agent/src/drift_capture.rs:675-787 | An erased line holds no other text |
| `DriftPrivacy.EraseIsPublic` | crates/agent/src/drift_capture.rs:720-787 | Nor does an erased value |
| `DriftPrivacy.OccurringErased` | crates/agent/src/drift_capture.rs:720-787 | Erasing a line changes nothing the walk records |
| `DriftPrivacy.OrderIrrelevant` | crates/agent/src/drift_capture.rs:675-718 | Reordering the lines of a log leaves its summary alone |
| `DriftPrivacy.StepsCommute` | crates/agent/src/drift_capture.rs:675-718 | Two lines can be inspected in either order |
| `DriftPrivacy.SummaryGrows` | crates/agent/src/drift_capture.rs:395-415 | Adding lines only raises counts, field sets, flags and review markers |
| `DriftPrivacy.DecisionIsStable` | crates/agent/src/drift_capture.rs:451-457 | Adding lines never takes back a required update and never turns a log into no drift |
| `DriftMeaning.DecisionMeans` | crates/agent/src/drift_capture.rs:445-457 | An update is required exactly when the capture or some line asks for review; otherwise there is no drift exactly when debug output, headers and endpoint were observed |
| `DriftRemoval.MemberRemovable` | crates/agent/src/drift_capture.rs:695-752 | For any member other than the event type, at any place of any line of any log: taking it out leaves the summary alone if and only if the rest of the line has every mark it adds and, at the top, its name is expected or the line flagged anyway |
| `DriftRemoval.OccurringAdded` | crates/agent/src/drift_capture.rs:720-752 | What a member adds to the marks of the whole tree: its own arm, what occurs below it, and what its name means to the member that holds the object |
| `DriftRemoval.InterchangeMeaning` | crates/agent/src/drift_capture.rs:675-718 | Two lines are interchangeable in every log if and only if type, unexpected-field flag and marks agree |
| `DriftRemoval.ModelUsageDiscarded` | crates/agent/src/drift_capture.rs:733-741 | Taking `modelUsage` out of any object of any line leaves the summary alone if and only if whatever the walk looks for inside it occurs elsewhere in the line and its name is not flagged where it stands |
| `DriftRemoval.ModelUsageAlways` | crates/agent/src/drift_capture.rs:733-741 | It is so in every line where the name is no news if and only if nothing the walk looks for occurs inside |
| `DriftRemoval.IgnoredUsageDiscarded` | crates/agent/src/drift_capture.rs:759-764 | Taking an ignored field out of any `usage` object leaves the summary alone if and only if whatever the walk looks for inside it occurs elsewhere in the line |
| `DriftRemoval.IgnoredUsageAlways` | crates/agent/src/drift_capture.rs:759-764 | It is so in every `usage` if and only if nothing the walk looks for occurs inside |
| `DriftRemoval.IgnoredUsageShows` | crates/agent/src/drift_capture.rs:759-764 | A result whose ignored usage field holds a request id: the summary reports one, and without the field does not |
| `DriftRemoval.ModelUsageFlags` | crates/agent/src/drift_capture.rs:702-712 | An assistant event with a null `modelUsage`: nothing occurs inside, yet the summary asks for review, and without the member does not |
| `DriftRemoval.ModelUsageShows` | crates/agent/src/drift_capture.rs:733-741 | A result whose `modelUsage` holds a request id: the summary reports one, and without the member does not |
| `DriftReducer.ReductionState.InspectEvents` | crates/agent/src/drift_capture.rs:675-718 | Succeeds exactly when every line is blank or parses; then the state is the fold over the parsed lines; otherwise it names the first unreadable line and the state is the fold over those before it |
| `DriftReducer.ReductionState.InspectLine` | crates/agent/src/drift_capture.rs:695-715 | One line: type, unexpected fields, count, walk |
| `DriftReducer.ReductionState.InspectEventValue` | crates/agent/src/drift_capture.rs:720-752 | The recursive walk updates only the marks, as the pure walk does |
| `DriftReducer.ReductionState.InspectKey` | crates/agent/src/drift_capture.rs:728-740 | The arm for one member |
| `DriftReducer.ReductionState.InspectUsage` | crates/agent/src/drift_capture.rs:754-769 | Adds exactly the allowlisted keys, and marks review exactly for a non-object or a key neither allowed nor ignored |
| `DriftReducer.ReductionState.InspectRateLimit` | crates/agent/src/drift_capture.rs:771-787 | Adds exactly the allowlisted keys, and marks review exactly for a non-object or any other key |

## Left out

- Network, operating system and file system: Graph requests, FUSE, D-Bus, notifications, file locks, atomic writes. Of the remote store only the eTag contract is used.
- Cryptographic strength and key handling: primitives are arbitrary functions, randomness is a fresh value, zeroizing is not modelled.
- JSON text: descriptors, events and log lines are taken as parsed values, so duplicate or unknown members are not modelled, and whether a descriptor's text is within 64 KiB is an arbitrary predicate; only the continuation object is printed and parsed.
- What the shape checks of the Python probe look at (`valid_*`, forbidden keys, byte sizes) and those of `activity.rs`: their outcome comes with the event, where the code makes them; the malformed kinds are one error.
- The opaque digests in stage and partial facts: facts hold the plain id and keys. Event names other than the four the reducer acts on are one kind. The rest of `report` only formats.
- `PairingDescriptor`: the destination and secret domain strings are inside the arbitrary functions; the storage forms of the source and resume secrets are not modelled.
- Client code that decides when to write or delete: any client may take any transition at any time with the last descriptor it loaded, however stale, which only adds runs.
- Error messages: errors are kinds.
- The persistent backend of the confirmation registry, the `risk` constant and the token hash it would store.
- Overflow of the hydration counters, of event counts and of byte lengths in memory: they would need more steps than a process makes.
- ProbeLimiter.Counter.TryAcquire: spurious failures are bounded by a parameter, because the loop need not end otherwise; the interleaved steps put no bound on them.
- Scheduler: how long a wait lasts and what a pass does.
- Debug captures, hosts, paths, headers, model catalogs and version files of the drift capture: they enter the decision as given facts.
- `oauth.rs`, `product_provider.rs`, status classifiers, connectivity classification, the CLI and packaging scripts: finite tables or plumbing.
- The restore ledger, sync engine and store are not part of this model.
