# The coordination broker, modelled and proved

The broker is an in-memory server that lets peers, known by their Ed25519 public key, find each other, exchange
signalling payloads, watch each other's presence and fall back to a metered two-party relay. This project models its
hard parts in Dafny and proves what they promise over every input and every run.

How the files fit together:

- **Signed bytes.** `Utf8`, `JsonText` (a JSON printer and a parser that inverts it), `Tree` (sorted objects), `Naming`,
  `Protocol` (the twelve client messages, their serialised form, `canonical_bytes`, deserialising), `Wire` (the signed
  text, member by member), `Reading` (exactly what is read as what), `Sign` (the TypeScript side), `Hex`.
- **Parts of the broker.** `Quota` (with `QuotaRejections` and `QuotaExamples`), `Relay`, `Registry`, `Presence`, `Handles`, `Outbox` are the in-place classes of the
  source, each method proved equal to a small pure function. `PresenceSteps` and `PresenceRuns` are the presence index again,
  at the granularity of single map guards and any interleaving.
- **The broker as a transition system.** `Broker` says what one event (a socket opens, sends a frame, closes, or loses
  its writer task) does to the whole state. `Server` is the imperative server; `React` and `Serve` prove that it takes
  exactly these steps. `BrokerAnswers` and `BrokerAdmission` say, message by message, what each step brings about: who is
  told what, which fault is reported first, and what stays as it was.
- **Theorems over whole runs.** `BrokerInv`, `BrokerPresence`, `BrokerHandles`, `BrokerTrace`, `BrokerRelay`,
  `BrokerLedger`, `BrokerRuns` and `BrokerTheorems`; `BrokerExamples` holds runs that reach what they speak of.
  `SessionRuns` and `SenderLedger` hold the inductions over runs, on the session table and on one sender's account alone.
- **The client.** `Client` and `ClientRuns` (request correlation), `EndToEnd` (client and broker together).

What the model takes as given. Ed25519 verification, key and signature parsing, UUID parsing and the base64 decoded
length are arbitrary functions in `Broker.Env`; every result holds for all of them. `Env` also names the message parser
and `canonical_bytes`, so that the run theorems hold whatever these are; `EndToEnd.Standard` says they are the ones of
`Protocol`. Clock readings, fresh session ids (never reused), the signalling limiter's answer and database failures come
with each event. A handler call, the register sequence and the cleanup sequence are one step each, SQL transactions are
serial, and a channel is the append-only sequence of what was sent on it. Token levels are reals and the relay's clock is
monotone; the wall clock, read once per event, lies between 1970 and 2^62 s later.

Where documentation and code differ the code is followed:

- `src/relay.rs:15` and the repository's `README.md:123` speak of a rolling 24 h quota. The code resets a tumbling window
  (`src/relay.rs:70-73`): `QuotaExamples.TwoGiBWithinTheHour` gives a history of 64 KiB frames that passes 2 GiB in 2048 s,
  `Quota.DayCheckIsRollingIff` says exactly when the two rules agree, and `Quota.DailyBound` is the bound that holds.
- `PROTOCOL.md:28` shows `sort_keys=False`; both sides sort keys (`clients/typescript/src/sign.ts:29-41`,
  `src/protocol.rs:313-319`).
- `src/handles.rs:5` describes an `@org` suffix; the loop takes one `@` anywhere (`src/handles.rs:18-33`).
- `clients/typescript/src/client.ts:141` says `close` clears all listeners; it does not, and the model's `Socket` event
  clears nothing.

Four promises are false of the code as it stands. Each has a run that breaks it and the exact condition under which it
holds:

- The two presence indexes are inverse for atomic calls, but between dropping a guard and removing an emptied entry
  another subscriber's watcher can be lost: `PresenceSteps.LostWatcher` is the run, `PresenceSteps.StepKeepsLinkedIff` the
  exact steps that lose one, `PresenceRuns.InverseIff` says when a run ends with the indexes inverse, and
  `PresenceRuns.OrderlyRunsEndInverse` is the rule for callers that avoids the loss. The other inclusion holds under
  every interleaving.
- The last presence update a subscriber was sent about a target need not be true once the subscriber has a second
  connection, since a registry entry is keyed by pubkey alone: `BrokerExamples.SecondConnectionRun` is the run,
  `BrokerPresence.StepTracksIff` the exact events, and
  `BrokerPresence.TracksUnlessBlinded` the exact runs.
- A key can be connected and yet not registered: the same run, and `BrokerPresence.OnlineIffLiveStep` the exact
  events.
- The registry's handle index can name a peer that is gone, when it registered again without its handle
  (`src/registry.rs:40-62`): `BrokerExamples.HandleOutlivesRegistration` is the run, `BrokerHandles.StepIndexIff` and
  `BrokerHandles.CleanupNamesIff` the exact events, `BrokerHandles.NamesOverRun` the exact runs. What the index says stays true of the handle table.

## Model

| member | source | states |
|---|---|---|
| `Quota.PeerQuota.TryConsume` | src/relay.rs:60-84 | one call moves the quota and answers as `Consume`, whose answer `AnswerIsExact` and whose levels `BucketIsExact` pin down |
| `Quota.BucketIsExact` | src/relay.rs:60-84 | for every call history in clock order, a request of b bytes passes the lazily refilled bucket if and only if b fits in a full bucket and, for every earlier call, the bytes accepted since plus b fit in 1 MiB plus 1 MiB/s of the time since |
| `Quota.AnswerIsExact` | src/relay.rs:60-84 | for every call of every history from a full bucket, the answer is QuotaExceeded exactly when the bytes charged since the current window opened plus the call's exceed 1 GiB, else Accepted exactly when the call fits a full bucket and every window since an earlier call, else RateLimited |
| `SenderLedger.OutcomeIsExact` | src/relay.rs:185-243 | so in any run every frame that reaches a sender's quota is answered by that rule over all the sender's earlier calls |
| `Quota.BurstBound` | src/relay.rs:60-84 | over any stretch of calls at most a full bucket plus the refill between its first and last call is charged |
| `Quota.BucketRemembersAcceptedCalls` | src/relay.rs:60-84 | two histories that accepted the same calls leave the same bucket level at every later time, whatever else they hold |
| `QuotaRejections.RejectedCallsAreInvisible` | src/relay.rs:60-84 | take any rejected calls that open no window out of a history, or put them in: every other call gets the same answer and leaves the same quota |
| `QuotaRejections.LevelsSurvive` | src/relay.rs:60-84 | and every later level of the bucket is the same |
| `QuotaRejections.InsertedRejectionIff` | src/relay.rs:60-84 | a rejected call put anywhere into a history leaves every later state and answer as it was if and only if it opens no window, or the next call is at the same time or at least a day later |
| `QuotaExamples.RejectedCallCanMatterADayLater` | src/relay.rs:69-83 | with frames of at most 64 KiB only, a rejected call that opens a window turns the answer to a call a day later from refused to accepted |
| `Quota.DayUsedIsTheWindowSum` | src/relay.rs:69-83 | `day_used` is the bytes accepted since the current window opened, and never more than 1 GiB |
| `Quota.WindowStartsAreADayApart` | src/relay.rs:69-73 | two different window starts are at least 86400 s apart |
| `Quota.DailyBound` | src/relay.rs:69-83 | every half-open interval of k days, anywhere in any history, admits at most k + 1 GiB |
| `Quota.DayCheckIsRollingIff` | src/relay.rs:15-83 | the tumbling check decides as the documented rolling 24 h check for every size if and only if nothing was charged in the last 24 h before the current window opened |
| `QuotaExamples.TwoGiBWithinTheHour` | src/relay.rs:69-83 | a chronological history of 64 KiB frames that is charged 2 GiB within 2048 s, so no rolling 1 GiB rule holds |
| `Relay.RelayManager.RequestSession` | src/relay.rs:111-138 | the session table, channels and error after a request; the session is recorded before the offer and stays when the offer fails |
| `Relay.RelayManager.AcceptSession` | src/relay.rs:140-183 | only the named responder promotes a pending session, and it stays promoted when a party cannot be told; who is told what is `BrokerAnswers.AcceptAnswer` |
| `Relay.RelayManager.ConsumeQuota` | src/relay.rs:233-243 | one sender's quota is made or charged, every other sender's is left alone |
| `Relay.RelayManager.ForwardFrame` | src/relay.rs:185-231 | session, encoding and size are checked before the quota is touched, the quota is charged before delivery; the limits and errors are those of `BrokerAnswers.RelayRefused` and `RelayAnswer` |
| `Relay.RelayManager.DropSessionsFor` | src/relay.rs:247-262 | afterwards no session names the peer and every other session is as before |
| `SessionRuns.Lasts` | src/relay.rs:119-158 | a session is in the table until the first cleanup of a connection of either party and not longer; parties never change; active stays active |
| `SessionRuns.SessionHistory` | src/relay.rs:111-183 | a session in the table was asked for by its initiator, if active was later agreed to by its responder, and neither party had a connection cleaned up since |
| `BrokerRelay.SessionStep` | src/server.rs:249-502 | every event of the broker moves the session table only as its act (ask, agree, leave, none) allows |
| `BrokerTheorems.SessionLife` | src/relay.rs:111-262 | in every run: a session lasts exactly until the first cleanup of a connection of a party, keeps its parties, never leaves the active state otherwise, and its id never names a session again |
| `BrokerTheorems.OneAccept` | src/relay.rs:146-158 | in every run at most one accept ever promotes a session, and it is its responder's |
| `BrokerTheorems.RelayConsent` | src/relay.rs:111-231 | in every run each single `relay_data`, entry by entry of every channel, was put at its place by an event before which that session was requested and then accepted by its responder; it goes from one party to a connection of the other, and no connection of either was cleaned up from the request to that event |
| `BrokerLedger.StepBooks` | src/relay.rs:185-243 | an event touches quotas, relay data and the byte counter only if it is an accepted frame of an active session its sender is a party of, decoding to at most 65536 bytes; then the charge is made once, and data and counter move together only if it is accepted and deliverable |
| `SenderLedger.QuotaReplays` | src/relay.rs:233-243 | a sender's quota at any moment is its first-made quota after all its calls so far, across sessions and reconnects |
| `SenderLedger.SpentIsCharged` | src/relay.rs:60-84 | what the run charged a sender between two moments is what the quota's own history says was charged |
| `BrokerTheorems.CounterIsRelayed` | src/server.rs:493-502 | in every run `relay_bytes_total` is the sum of the decoded sizes of all relay data on all channels |
| `BrokerTheorems.SenderConservation` | src/relay.rs:185-243 | in every run the bytes charged to a sender are the bytes put on channels for it plus the bytes charged and lost, and its quota is the replay of its calls |
| `BrokerTheorems.TotalConservation` | src/relay.rs:185-243 | in every run the total charged to all quotas there are is `relay_bytes_total` plus the bytes charged whose delivery failed |
| `BrokerTheorems.SenderBounds` | src/relay.rs:92-93 | in every run, between any two moments, any sender gets at most a full bucket plus the refill onto all channels together, and at most k + 1 GiB if they are less than k days apart |
| `JsonText.ParsePrint` | src/protocol.rs:313-319 | parsing the text of any JSON value (strings with escapes, integers, literals, arrays, objects) gives the value back |
| `JsonText.NothingFollows` | src/server.rs:316-316 | an object with anything after it does not parse |
| `Utf8.EncodeInjective` | src/protocol.rs:313-319 | texts with the same UTF-8 bytes are the same text |
| `Utf8.HeadOfEncoded` | src/protocol.rs:313-319 | the lead byte of an encoded character tells its length, and its bits give the character back, as in section 3 of RFC 3629 |
| `JsonText.EscapeIsShortest` | src/protocol.rs:313-319 | escapes are as short as the grammar of section 7 of RFC 8259 allows and in lower case, which with the parser leaves one text for every string |
| `Tree.LessIsAlphabetical` | clients/typescript/src/sign.ts:35-35 | the order of keys is alphabetical: one is before another exactly when at the first difference it ends or has the smaller character |
| `Wire.CanonicalOrder` | src/protocol.rs:313-319 | the signed bytes are the UTF-8 of the members in the alphabetical order addresses, admin_pubkey, ..., type, with an empty signature |
| `Wire.PingText` | src/protocol.rs:313-319 | the signed text of a ping to the letter: pubkey, signature, timestamp, type |
| `Wire.Spelling` | src/protocol.rs:46-165 | the spelling of every member name |
| `Protocol.FieldsRoundTrip` | src/protocol.rs:46-165 | a message of any variant is recovered from its serialised members in whatever order they come |
| `Reading.ReadExactly` | src/protocol.rs:46-165 | a JSON object is read as a message if and only if every member its variant knows stands for it (options absent or null, signature absent when empty) and none of those comes twice; order and unknown members do not matter |
| `Reading.DecodeExactly` | src/protocol.rs:46-165 | the same for texts: exactly those that parse to such an object |
| `Protocol.CanonicalBytesInjective` | src/protocol.rs:313-319 | for any two messages of any variants the signed bytes are equal if and only if every field but `signature` is equal |
| `Sign.SortReplacer` | clients/typescript/src/sign.ts:29-41 | filling the object key by key in alphabetical order, without undefined members, gives the unique alphabetical listing of the defined members |
| `Sign.SortFieldsIsListing` | clients/typescript/src/sign.ts:25-41 | what is printed and signed of an object is that alphabetical listing, of its members made canonical in turn |
| `Sign.SignedBytesAgree` | clients/typescript/src/sign.ts:25-54 | for every SDK call, argument and key order the server decodes the sent text to exactly the message meant, and recomputes exactly the bytes the client signed, which `Wire.CanonicalOrder` spells out |
| `Hex.BytesToHex` | clients/typescript/src/sign.ts:60-67 | the loop gives two lower-case hex digits per byte, in order |
| `Hex.HexToBytes` | clients/typescript/src/sign.ts:69-80 | the loop decodes the text without its key prefix pair by pair of UTF-16 code units, and fails exactly on an odd number of them |
| `Hex.UnitsOf` | clients/typescript/src/sign.ts:71-73 | a character counts as two code units exactly when it takes four bytes of UTF-8 |
| `Hex.PairIsParseInt` | clients/typescript/src/sign.ts:75-77 | each byte is what `parseInt` of any string, with white space, sign and 0x, makes of the two characters, reduced to a byte |
| `Hex.HexRoundTrip` | clients/typescript/src/sign.ts:60-80 | decoding an encoding gives the bytes back, with or without the key prefix |
| `Hex.TextRoundTripIff` | clients/typescript/src/sign.ts:60-80 | a text with an even number of code units after its prefix survives decoding and encoding if and only if it is lower-case hex |
| `EndToEnd.SentIsAccepted` | src/auth.rs:42-62 | a frame of the SDK is accepted as the message its caller meant if and only if the signature verifies over the bytes the SDK signed |
| `EndToEnd.AcceptedIsMeant` | src/auth.rs:42-50 | a message accepted over bytes the SDK signed for a call is, but for the signature, the message of that call, whatever text carried it |
| `EndToEnd.ErrorsFindTheirCall` | src/server.rs:296-299 | an error about a call the SDK awaits carries the request id of that call |
| `Presence.PresenceManager.Subscribe` | src/presence.rs:28-40 | for any target list with repeats the targets are added, and `watchers` stays the exact inverse of `subscriptions` without empty sets |
| `Presence.PresenceManager.Unsubscribe` | src/presence.rs:42-56 | the same for removal; a subscriber without an entry changes nothing |
| `Presence.PresenceManager.ClearSubscriber` | src/presence.rs:58-71 | the subscriber's entry is gone from both indexes, everything else stays |
| `Presence.PresenceManager.Broadcast` | src/presence.rs:75-89 | exactly the registered peers whose subscriptions contain the target get one copy each |
| `Presence.PresenceManager.WatchersOf` | src/presence.rs:92-97 | the watchers of a target read off the inverse index are those read off the subscriptions |
| `Presence.InvertMember` | src/presence.rs:28-89 | s is among the watchers of t if and only if t is among the subscriptions of s, and a target has an entry only if it has a watcher |
| `Presence.SubscriptionMeans` | src/presence.rs:28-71 | subscribing adds exactly the targets asked for, unsubscribing takes exactly those away, clearing all, for that subscriber alone |
| `PresenceSteps.NoGhostWatchers` | src/presence.rs:28-71 | under every interleaving at guard granularity each recorded watcher is subscribed or has its removal in flight, and at quiescence every recorded watcher is subscribed |
| `PresenceSteps.StepKeepsLinkedIff` | src/presence.rs:42-71 | a step keeps every subscription recorded at its target if and only if it is not one that removes an entry refilled in the drop-then-remove gap, or a clear that reaches a target its subscriber has subscribed to again |
| `PresenceSteps.LostWatcher` | src/presence.rs:58-71 | for any two subscribers, a quiescent run through the gap of a clear that leaves one of them subscribed and unrecorded |
| `PresenceRuns.NoEmptyEntries` | src/presence.rs:42-71 | under every interleaving, at quiescence no target has an empty watcher set |
| `PresenceRuns.HarmlessRunsEndInverse` | src/presence.rs:28-71 | every interleaved run without a losing step ends, at quiescence, with `watchers` the exact inverse of `subscriptions` |
| `PresenceRuns.MissingAreLost` | src/presence.rs:28-71 | in every interleaved run the subscriptions no watcher entry records, nor is about to, are exactly those some step threw away and that were neither taken up again nor given up since |
| `PresenceRuns.InverseIff` | src/presence.rs:28-71 | at quiescence `watchers` is the exact inverse of `subscriptions` if and only if nothing is lost in this sense |
| `PresenceRuns.OrderlyRunsEndInverse` | src/presence.rs:28-71 | so does every run in which no unsubscribe or clear is under way together with another call about one of its targets |
| `Handles.ValidateHandle` | src/handles.rs:10-35 | the loop accepts exactly 2 to 64 characters of the alphabet with at most one `@` |
| `Handles.HandleExamples` | src/handles.rs:52-80 | the handles the source's tests accept and reject |
| `Handles.Database.Claim` | src/handles.rs:37-41 | the tables and error of validate, upsert and claim, and the tables stay inverse |
| `Handles.Database.ClaimRow` | src/db.rs:152-193 | one serial claim transaction, statement by statement, does what `ClaimHandle` says; on consistent tables the last UPDATE cannot break the UNIQUE column |
| `Handles.ClaimKeeps` | src/db.rs:152-193 | a claim succeeds if and only if the caller then owns the handle; no other owner changes, no pubkey gets a second handle, the UNIQUE column holds |
| `Handles.ClaimExactly` | src/db.rs:152-193 | a claim is granted if and only if the key owns the handle, or has a row, owns none and the handle is free; each refusal has its exact condition, and only a new grant changes the tables |
| `Handles.UpsertMeans` | src/db.rs:68-101 | an upsert makes or refreshes one row: kind as declared, handle kept, all other rows alone |
| `Handles.ClaimsKeepOwners` | src/db.rs:152-193 | over any sequence of claims the two tables stay inverse and grammatical and an owner once set never changes |
| `Registry.PeerRegistry.InsertPeer` | src/registry.rs:40-46 | the peer map and the handle index after an insert |
| `Registry.PeerRegistry.RemovePeer` | src/registry.rs:48-62 | the index entry goes only if it still points at the removed peer |
| `BrokerInv.StepKeepsInv` | src/server.rs:99-260 | every event keeps: no ghost registration, no subscription or session of a key without a connection, every handle index entry agrees with the table |
| `BrokerInv.NoGhostRegistrations` | src/server.rs:215-260 | in every run a registry entry sends on a connection of its key not yet cleaned up, `connected_peers` counts those connections, and there are never more entries than connections |
| `BrokerInv.NothingLeaks` | src/server.rs:249-256 | in every run, once a key has no connection, no registered peer, subscription or session of it is left; with no connection at all there is none of anybody (the handle index is the subject of `BrokerHandles`) |
| `BrokerInv.HandleIndexMirrorsTable` | src/registry.rs:40-62 | in every run each index entry is the table's, and a registered peer holding a handle is what its handle resolves to, whatever registers and removals came before |
| `BrokerPresence.StepTracksIff` | src/server.rs:215-467 | an event keeps a key's last news about everyone it watches true if and only if it does not register the key on a new open channel while it watches someone else, nor subscribe it, on a connection that is not its registered one, to a target on which its open registered channel is behind |
| `BrokerPresence.StepTracksTo` | src/server.rs:215-467 | from any state, after an event a key is in step with a target if and only if the event does not blind it to the target, and it was in step before or the event puts it right (a register or cleanup of either, a subscribe on its registered connection, an unsubscribe, the end of its channel) |
| `BrokerPresence.TracksUnlessBlinded` | src/server.rs:215-467 | in every run, in every state, the last update a key was sent about a target it watches is true if and only if no event blinded it to the target without a later one putting it right |
| `BrokerPresence.OnlineStep` | src/registry.rs:40-62 | from any state, a key is registered after an event if and only if the event registers it, or it was registered and the event cleans up no connection of it |
| `BrokerPresence.OnlineOverRun` | src/registry.rs:40-62 | in every run a key is registered if and only if some event registered it and none since cleaned up a connection of it |
| `BrokerPresence.OnlineIffLiveStep` | src/server.rs:226-260 | an event keeps registered the same as connected if and only if it does not clean up one of several connections of the key |
| `BrokerPresence.PresenceTracking` | src/server.rs:226-256 | in every run, for each key that never has two live connections, whatever others have: online if and only if live, and the last update it was sent about each target is true |
| `BrokerExamples.SecondConnectionRun` | src/server.rs:215-260 | a run of four events in which a second connection makes a watcher's last news untrue, and the close of the first leaves the key connected and unregistered |
| `BrokerHandles.StepIndexIff` | src/registry.rs:40-62 | an event keeps the handle index naming a key by its registered handle and nothing else if and only if it does not register the key again without claiming that handle |
| `BrokerHandles.CleanupNamesIff` | src/registry.rs:48-62 | after a cleanup the index still names the key by a handle if and only if it did before and the key's registration did not hold that handle |
| `BrokerHandles.NamesOverRun` | src/registry.rs:40-62 | in every run the index names a key by a handle if and only if some event registered the key with it and none since cleaned up a connection of the key while it held it |
| `BrokerHandles.IndexOfSingleConnections` | src/registry.rs:40-62 | in every run, for each key that never has two live connections, the index entries of the key are exactly its registered handle, and none once its connection is gone |
| `BrokerExamples.HandleOutlivesRegistration` | src/registry.rs:40-62 | a run of four events after which nobody is connected and the index still names a peer |
| `BrokerExamples.RelayRun` | src/relay.rs:111-231 | a run of five events, for any two peers, in which a session is promoted and data delivered |
| `BrokerTrace.StepCause` | src/server.rs:309-502 | only an accepted frame puts a signal, offer or relay data on a channel, it asked for just that, and its payload decoded to at most 4096 bytes after the rate limiter, or 65536 bytes in an active session its sender is a party of |
| `BrokerTheorems.Provenance` | src/server.rs:133-322 | in every run each single signal, offer or relayed frame from p, entry by entry of every channel, was put at its place because of a message with pubkey p whose signature verified and whose drift was at most 60 s, on a connection opened earlier by a verified register of p |
| `BrokerTrace.StepIsOne` | src/server.rs:420-502 | an event puts at most one signal, offer or relayed frame on all channels together |
| `BrokerTheorems.OneMessagePerFrame` | src/server.rs:262-502 | in every run two such deliveries are at the same place of the same channel if and only if the same event made them: nothing is delivered twice for one accepted frame |
| `BrokerTheorems.RegisteredMeans` | src/server.rs:133-157 | that register was itself signed by p and fresh |
| `BrokerTrace.VerifiedMeans` | src/auth.rs:42-62 | passing verification means a good signature over the canonical bytes and a true drift of at most 60 s, the wrap-around of the 64-bit subtraction included |
| `Server.AppState.ServeFirst` | src/server.rs:120-242 | the first message of a socket: which errors are sent for which fault, or the whole register sequence |
| `BrokerAdmission.OpenRefused` | src/server.rs:120-153 | a first message that is missing, no register or does not verify is answered with its error, one that does not parse with nothing, and nothing else happens |
| `BrokerAdmission.GrantedIff` | src/server.rs:174-203 | a register gets its handle if and only if it asks for a grammatical one, the database works, and the handle is its own or free while it has none |
| `BrokerAdmission.RowsAfter` | src/server.rs:174-203 | the tables after a register: kind as declared unless that statement failed, the granted handle recorded, all other rows alone |
| `BrokerAdmission.RegisterEnters` | src/server.rs:213-228 | a register enters one connection and exactly one registration, with addresses, reflected address and granted handle, and touches nothing else |
| `BrokerAdmission.RegisterTells` | src/server.rs:204-242 | the new channel carries exactly its greeting, every other registered watcher hears of the key once, nobody hears anything else |
| `BrokerAdmission.CleanupLeaves` | src/server.rs:249-252 | a cleanup takes the key out of the registry, forgets what it watches, and ends its sessions and nobody else's |
| `BrokerAdmission.CleanupTells` | src/server.rs:253-256 | every other registered watcher hears once that the key is gone, nobody hears anything else |
| `Server.AppState.Register` | src/server.rs:174-242 | database, registry, gauge, reply and broadcast of a register, in the order that makes the broadcast see the new entry |
| `Server.AppState.Handle` | src/server.rs:322-567 | every message variant has exactly the effect and error of the transition system, which the rows below spell out |
| `BrokerAnswers.SignalAnswer` | src/signaling.rs:56-78 | an accepted signal is delivered and nothing else happens, or the first check that fails (limiter, encoding, 4096 bytes, peer offline) is reported and nothing else happens |
| `BrokerAnswers.SignalArrivesIff` | src/signaling.rs:56-78 | a signal arrives if and only if the limiter agrees, it decodes to at most 4096 bytes, and the peer is registered on an open channel |
| `BrokerAnswers.RequestAnswer` | src/relay.rs:111-138 | a request records the session as soon as the peer is registered; the peer gets the offer and the asker its answer if the peer's channel is open, else the asker hears PeerOffline |
| `BrokerAnswers.AcceptRefused` | src/relay.rs:140-158 | an accept that names no session waiting for its sender is refused with its error and changes nothing |
| `BrokerAnswers.AcceptAnswer` | src/relay.rs:153-183 | a good accept makes the session active; both parties are told of each other, or PeerOffline is reported in exactly the cases where one cannot be |
| `BrokerAnswers.RelayRefused` | src/relay.rs:185-219 | a frame for no active session of its sender, that does not decode, or of more than 65536 bytes changes no quota, counter or channel but for the error, and the first fault is the one reported |
| `BrokerAnswers.RelayAnswer` | src/relay.rs:219-243 | any other frame is put to the sender's quota, full if it is the first; by its answer and the other party's channel it is refused, lost or delivered, and counted only if delivered |
| `BrokerAnswers.RelayArrivesIff` | src/relay.rs:185-231 | a relayed frame arrives if and only if session, size, quota and the other party's channel all allow it |
| `BrokerAnswers.SubscribeAnswer` | src/server.rs:443-463 | a subscription adds exactly its targets and is answered by the acknowledgement and each target's true state in order, repeats included |
| `BrokerAnswers.UnsubscribeAnswer` | src/server.rs:464-467 | an unsubscription takes exactly its targets away and is not answered |
| `BrokerAnswers.LookupPeerAnswer` | src/server.rs:343-374 | a peer is found if and only if it is registered, and then all of its registration is told, with the kind on record |
| `BrokerAnswers.LookupHandleRefused` | src/server.rs:375-394 | a failing database is reported, an unowned handle is not found |
| `BrokerAnswers.LookupHandleAnswer` | src/server.rs:395-419 | an owned handle is told with its owner, its addresses if it is online, and the kind on record |
| `BrokerAnswers.RegisterAgainAnswer` | src/server.rs:325-342 | a second register on a connection is answered with what is registered and changes nothing |
| `BrokerAnswers.PingAnswer` | src/server.rs:563-565 | a ping is answered with its own timestamp |
| `BrokerAnswers.TeamLookupAnswer` | src/server.rs:536-562 | a team lookup without a database is an internal error, and changes nothing in any case |
| `BrokerAnswers.TeamAnnounceAnswer` | src/server.rs:503-535 | the answers to an announce, which changes nothing but the tables |
| `BrokerAnswers.AnnounceRow` | src/teams.rs:53-54 | an announce makes the announcer's row if there is none, and leaves all other rows and handles alone |
| `BrokerAnswers.RefusedAnswer` | src/server.rs:309-320 | a frame that does not parse, does not verify or speaks for another key is answered with its error and does nothing |
| `BrokerAnswers.VerifyExactly` | src/auth.rs:42-62 | a message passes if and only if key and signature decode, it is at most 60 s off and the signature verifies; each error has its exact condition, in the order of the checks |
| `Server.AppState.AnnounceTeam` | src/teams.rs:37-57 | an announce makes sure of the announcer's `peers` row, also when it is refused after that, and changes no handle |
| `Server.AppState.HandleClientMessage` | src/server.rs:309-320 | parse, verify, compare keys, in this order, before anything changes |
| `Server.AppState.PumpFrame` | src/server.rs:262-294 | one turn of the pump, with its error reported on the same connection |
| `Server.AppState.CleanUp` | src/server.rs:248-256 | the cleanup sequence: out of the registry first, watchers told last |
| `Server.AppState.React` | src/server.rs:99-294 | one event of the imperative server is one step of the transition system and keeps the invariant |
| `Server.AppState.Serve` | src/server.rs:99-294 | fed the events of any run, the server goes through the run's states |
| `Client.RequestIdInjective` | clients/typescript/src/client.ts:347-350 | two request ids are equal only if count and clock are equal |
| `Client.BrokerClient.SendAndAwait` | clients/typescript/src/client.ts:360-371 | the minted id is one the client never knew before, and a socket that is not open rejects at once |
| `Client.BrokerClient.AfterSigning` | clients/typescript/src/client.ts:371-388 | timer and entry are set before the send, and stay when the send throws |
| `Client.BrokerClient.HandleIncoming` | clients/typescript/src/client.ts:390-411 | a message with the id of a pending request settles that request and clears its timer; any other changes nothing |
| `Client.BrokerClient.TimerFires` | clients/typescript/src/client.ts:373-376 | a timer removes and rejects the request whose id it captured |
| `Client.BrokerClient.OnClose` | clients/typescript/src/client.ts:129-135 | every pending request is rejected and every timer cleared |
| `Client.StepKeepsInv` | clients/typescript/src/client.ts:347-411 | every event keeps: one armed timer per pending id and back, one stage per call, only minted ids |
| `ClientRuns.IdsNeverRepeat` | clients/typescript/src/client.ts:347-350 | in every run two calls never get the same id, whatever the clock does |
| `ClientRuns.PendingAreArmed` | clients/typescript/src/client.ts:373-386 | in every run the keys of `pending` are exactly the ids of armed timers, equally many |
| `ClientRuns.PendingStep` | clients/typescript/src/client.ts:129-411 | a pending request leaves if and only if the event is its own response, its own timer or the close |
| `ClientRuns.LeavesOnce` | clients/typescript/src/client.ts:129-411 | in every run a request leaves the table at most once, by one of these three, and its promise is settled then |
| `ClientRuns.SettledForItself` | clients/typescript/src/client.ts:352-411 | in every run a promise is settled with an outcome if and only if some event about that very request, while it was open, was of the kind the outcome names: its own response of the expected type, of type error, or of another, its timer, the close, a socket not open, a failed signature, a throwing send |
| `ClientRuns.SettledStays` | clients/typescript/src/client.ts:372-388 | in every run a settled promise never changes |
| `ClientRuns.NoCallIsForgotten` | clients/typescript/src/client.ts:360-388 | in every run a call is settled, waits for its signature, or is pending with its own timer armed |

## Left out

- f64 rounding of token levels and the wall clock behind `Instant`: levels are reals, time is a monotone input.
- u64 overflow of `day_used` and of the byte counters: not reachable below the daily limit for the former, unbounded in the model for the latter.
- Ed25519, SHA-512 and key encoding: verification is an arbitrary predicate on key, bytes and signature.
- Base64 decoding and UUID texts: arbitrary partial functions; what decodes is not specified.
- The `governor` signalling limiter: only that it is asked first.
- Server.AppState.Handle: the answer of the team tables is an input, because what those tables hold is not modelled; the `peers` row an announce makes is.
- Server.AppState.AnnounceTeam: whether an announce is refused, and whether before or after its `peers` row, is an input.
- Postgres isolation below whole transactions, pooling, migrations; `last_seen`, `metadata` and other columns no handler reads.
- axum, tokio, WebSocket framing, binary frames, and back-pressure of full channels: a send is instant, and fails only when the writer task has ended.
- Interleavings inside one handler: only the presence index is modelled below whole calls, with one guard per key. DashMap locks a whole shard, so it allows some of these interleavings and no others.
- BrokerPresence.PresenceTracking: speaks of subscribers whose channel is open, because nothing can be sent on a closed one.
- Strings with lone surrogates, which JavaScript has and the model's characters do not.
- Message texts of errors, metrics other than `connected_peers` and `relay_bytes_total`; the `presence_subscriptions` gauge, which is not a count of the index.
- `ping` listeners, event listeners, connection promises and the message dispatch to listeners in the client.
- JSON white space, fractions, exponents, surrogate-pair escapes, the array form serde accepts for structs, and JavaScript objects with integer-like keys: outside what either side writes for these messages.
- `stun.rs`, `main.rs`, the smoke client, deployment files.
