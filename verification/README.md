# Verification of the node's encrypted relay

This project models the node side of an encrypted relay and proves what its parts promise. A
control tunnel carries many multiplexed streams. One kind of stream is a data plane: a client
and a node shake hands, the client spends a signed ticket on one request, and the node serves it.

`dafny verify dfyconfig.toml` checks everything.

| files | what they model |
|---|---|
| ControlClient, ControlInvariant, ControlPipes, ControlReturns, ControlRaw, ControlReplies, ControlTunnel | the control-tunnel multiplexer: its tables, and that it refines independent pipes, stream kind by stream kind |
| ControlSessions, ControlSessionRuns | the multiplexer together with the data-plane sessions that run inside it |
| Frames, SecureChannel, TunnelClient, TunnelRuns, PendingRequests, TunnelFates | the sealed channel on a hostile network, the pending-request table, and what becomes of each request |
| ResponderAuth, DataHandshake, HandshakeAgreement, DataExchange | the two-party handshake, and the one exchange that runs over it, outsiders included |
| Replay, ReplayRuns, Paseto, Tickets, RequestTickets | tickets and their single use |
| DataPlane, DataPlaneGate, DataPlaneRuns, DataService, DataPlaneStream, DataPlaneSession, DataPlaneAnswers | the data plane: the gate, all runs of it, the way from a handshake to what is served, the stream it lives in, and what it answers |
| CanonicalJson, Dedupe, PathResolver, PathGate, Profile, ProfileNormal, ProfileMeaning, ProfileRequests | canonical forms, dedupe keys and execution profiles |
| ProxyServe, ProxyServeRuns, ProfileCache, ProfileStores | which headers go upstream, and the answer cache |
| SecretStore, SecretRuns, SecretOutcomes | secrets at rest and the node's identity, across crashes |
| Numerals, Ssrf, SsrfVerdict, SsrfTarget | the guard on targets |
| Codes, Witnesses | that the assumptions can be met |
| Wrappers, Bytes, JsMaps, Strings, Sorting, Base64 | what the others share |

Objects that the source updates in place are classes whose methods are proved equal to functions
on values. The lemmas about whole runs are about those functions.

## What is assumed

- Cryptography is ideal. A frame opens only if it was sealed; a signature verifies only if it was
  made; digests are injective, and no digest ends in another one; derived keys differ unless all
  they derive from agrees; Diffie-Hellman commutes, and only the holders of the two private keys
  can compute its secret. The node's identity key signs only in the data handshake. Outsiders seal
  under any key they can derive from private keys of their own; that they cannot seal under the
  keys of a completed handshake is proved (`DataExchange.KeysAreSecret`).
- One handler run is one step. Sending has no inner await (`src/tunnel/tunnel-client.ts:100-105`).
- Stream ids of the control tunnel are not reused, and a tunnel is not reopened while it is live
  (`ControlInvariant.Allowed`). What goes wrong otherwise is `ControlInvariant.OpenOwnerKeepsIffTunnelNotOpen`.
- URL parsing, JSON text, UTF-8 and the coercions `String` and `Number` are functions of a platform
  record, with the round trips that are used stated as predicates (`Dedupe.Ideal`, `Profile.Sane`,
  `Tickets.RoundTrips`). JSON numbers are exact: a whole part and units of 2^-1074.
- All of these can be met. `Witnesses` gives functions that meet them (`PlatformExists`,
  `EngineExists`, `CodecExists`, `CryptoExists`), and a history with an honest handshake, a request and
  a response that both open (`HistoryExists`); `SecretRuns.LegacyStart` and `ControlInvariant.StartHolds` start the runs.
- Clocks, random values, DNS answers and upstream answers are inputs.

## Where the code does not do what one might expect

- A ticket is accepted until `exp + 5` (`src/tickets/ticket.ts:89`), but a sweep forgets its id at
  `exp` (`src/tickets/replay.ts:51`). `RequestTickets.ReacceptedInTolerance` accepts one token twice;
  `RequestTickets.SecondSpendingRefusedIff` says exactly when the second spending is refused,
  whatever the expiries of the tickets spent in between. The header comment of `ticket.ts` says the
  node tracks an id until its expiry; the code does.
- A stream number of more than 32 bits does not fit a public-tunnel frame. Closing such a stream
  throws before it is unlinked (`src/clients/control-client.ts:557-562`), so its link stays:
  `ControlInvariant.CloseUnlinksIffNumberFits`.
- The profile normaliser refuses some of its own output: `ProfileNormal.NormalizeTwice` says exactly
  which, `ProfileNormal.DotSegmentsBreakStability` is an instance.
- Header names that collide ignoring case make the dedupe key depend on header order:
  `Dedupe.HeaderOrderIrrelevantIff`, `Dedupe.CollidingNamesDependOnOrder`.
- An empty private key file counts as no identity although both files exist:
  `SecretRuns.LoadsStoredIff`, `SecretRuns.EmptyLegacyKeyRotates`.
- Two requests that wait under one id break the pending table: `PendingRequests.RequestKeepsIffIdNotWaiting`.
- `src/runtime/proxy-serve.ts:171-177` says dedupe keys use a two-header allowlist. The code
  (`src/runtime/dedupe.ts:20-21`) also uses digests of `authorization` and `cookie`; the model follows the code.

## Model

| member | source | states |
|---|---|---|
| ControlClient.FrameRoundTrip | src/clients/control-client.ts:32-46 | Encoding a public-tunnel frame and decoding it gives back type, stream number and payload, for every number that fits 32 bits; a wider number cannot be encoded |
| ControlClient.FrameDecodeThenEncode | src/clients/control-client.ts:39-46 | Every byte string that decodes is the encoding of what it decodes to |
| ControlTunnel.Multiplexer.OwnerOf | src/clients/control-client.ts:433-434 | The search over the owner records finds the first owner with this stream id |
| ControlTunnel.Multiplexer.CleanupPublicTunnelStream | src/clients/control-client.ts:167-175 | Unlinking removes the stream from both directions of its owner, from the links and from the active ids, and nothing else |
| ControlTunnel.Multiplexer.OpenOwnerStream | src/clients/control-client.ts:265-280 | A new owner record with number 1 next; the old record of that tunnel, if any, is overwritten |
| ControlTunnel.Multiplexer.OpenPublicStream | src/clients/control-client.ts:282-317 | A number is allocated and linked both ways and STREAM_OPEN with the initial data goes to the owner; without an owner the stream is refused |
| ControlTunnel.Multiplexer.OwnerData | src/clients/control-client.ts:435-471 | PING is answered with PONG 0, data goes to the mapped stream, END and RESET unlink and close it, anything else is dropped |
| ControlTunnel.Multiplexer.StreamData | src/clients/control-client.ts:432-530 | Dispatch of a payload: owner, linked stream, raw socket, data-plane stream, and only then a session message |
| ControlTunnel.Multiplexer.CloseOwner | src/clients/control-client.ts:535-551 | Closing an owner unlinks and closes all of its streams, in order, and drops its record |
| ControlTunnel.Multiplexer.StreamClose | src/clients/control-client.ts:532-581 | Dispatch of a close: owner, linked stream (RESET to the owner), data-plane stream, raw socket |
| ControlTunnel.Multiplexer.Callback | src/clients/control-client.ts:327-428 | The callbacks of data-plane streams and raw sockets remove exactly their own ids |
| ControlTunnel.Multiplexer.Handle | src/clients/control-client.ts:177-581 | Every handler run is one step of the state machine the other lemmas are about |
| ControlInvariant.StepKeeps | src/clients/control-client.ts:253-581 | Every step keeps: number tables are mutual inverses below the next number, links match owners, the active ids are accounted for |
| ControlInvariant.RunKeeps | src/clients/control-client.ts:91-100 | The invariant of the five collections holds after every run with fresh stream ids and no reopening of a live tunnel |
| ControlInvariant.ActiveIsDisjointUnion | src/clients/control-client.ts:90-100 | The active ids are the disjoint union of session, owner, linked, raw and data-plane ids |
| ControlInvariant.LinkedStreamHasOwner | src/clients/control-client.ts:475-481 | In every reachable state a linked stream has a connected owner that maps it back, so the "owner unavailable" branch is dead |
| ControlInvariant.OpenOwnerKeepsIffTunnelNotOpen | src/clients/control-client.ts:265-272 | Opening an owner with a fresh id keeps the invariant if and only if that tunnel is not open |
| ControlInvariant.CloseUnlinksIffNumberFits | src/clients/control-client.ts:553-564 | Closing a linked stream unlinks it if and only if its number fits 32 bits; for a wider one encoding throws before the tables are touched |
| ControlPipes.LinkedSeesPipe | src/clients/control-client.ts:482-490 | What an owner decodes for a linked number depends only on the events of that pair: the payloads in order, then at most one RESET |
| ControlPipes.OwnerSeesLife | src/clients/control-client.ts:282-317 | For every owner and number: silence, one OPEN with the initial data, the payloads in order, at most one RESET, and nothing after it |
| ControlPipes.NewOwnerSeesLife | src/clients/control-client.ts:265-317 | The same from the moment an owner connects, in any reachable state |
| ControlPipes.FinishedIsSilent | src/clients/control-client.ts:553-564 | A number that was used once is never heard of again |
| ControlPipes.WideNumbersAreSilent | src/clients/control-client.ts:32-37 | A number of more than 32 bits never reaches the owner, because encoding it throws |
| ControlReturns.LinkedReceivesPipe | src/clients/control-client.ts:438-461 | What a linked server stream receives is exactly what its owner framed with its number, in order, then at most one close |
| ControlReturns.DisconnectedReceivesNothing | src/clients/control-client.ts:126-146 | Once sends fail, no linked stream receives anything more |
| ControlRaw.SocketSeesLife | src/clients/control-client.ts:493-497 | Over every allowed run, what is done to the socket of a raw id is told without tables: it is written the payloads of the id in order, until it is over, and then destroyed if it did not end by itself |
| ControlRaw.OutSeesLife | src/clients/control-client.ts:382-428 | Over every allowed run, what goes out on a raw id is told without tables: the data of the socket in order, then its close or its error |
| ControlRaw.NewRawSeesLife | src/clients/control-client.ts:371-380 | Both from the moment the stream is opened, in any reachable state |
| ControlRaw.DestroyedOnce | src/clients/control-client.ts:128-130 | A close of the peer or the end of the tunnel destroys the socket once, and nothing is done to it after |
| ControlRaw.ClosedOnce | src/clients/control-client.ts:392-428 | Of a socket that keeps to what sockets do, at most one close goes out, after all of its data |
| ControlReplies.OwnerSeesPongs | src/clients/control-client.ts:439-443 | Over every allowed run, an owner is sent one PONG for each of its PINGs, in order, and no other frame of number 0 |
| ControlReplies.SessionSeesPayloads | src/clients/control-client.ts:505-514 | Over every allowed run, every payload of a session id runs as a session message, in order, and what goes out on the id is the replies |
| ControlReplies.RefusedIffNoOwner | src/clients/control-client.ts:282-290 | A public stream is refused, with one close on its id and nothing linked, exactly when its tunnel has no owner |
| ControlReplies.ErrorsOfStep | src/clients/control-client.ts:357-369 | An error message goes out exactly for an unsupported target, a failed socket, and a frame whose number does not fit 32 bits, while the socket is there |
| Frames.EncodeFrame | src/tunnel/frames.ts:29-40 | The buffer writes at offsets 0, 1, 2, 10 and 22 give the header; the errors come in the order of validation |
| Frames.FrameAad | src/tunnel/frames.ts:80-99 | The 14 bytes of associated data, or the error |
| Frames.DecodeOfEncode | src/tunnel/frames.ts:29-78 | Decoding an encoded frame gives back all of its parts |
| Frames.EncodeOfDecode | src/tunnel/frames.ts:42-78 | Encoding a decoded frame gives back the same bytes |
| Frames.AcceptedIffEncoded | src/tunnel/frames.ts:42-78 | The accepted byte strings are exactly the encodings of valid parts |
| Frames.EncodeIsInjective | src/tunnel/frames.ts:29-40 | Different valid parts have different encodings |
| Frames.PeekAgreesWithDecode | src/tunnel/frames.ts:100-105 | The peeked sequence is the decoded sequence |
| Frames.AadIsHeaderBytes | src/tunnel/frames.ts:80-99 | The associated data of an accepted frame is its header bytes 0-9 and 22-25 |
| Frames.AadIsInjective | src/tunnel/frames.ts:80-99 | The associated data determines version, type, sequence and length |
| SecureChannel.OpenedWasSealed | src/crypto/secure-channel.ts:71-81 | Under an ideal AEAD, a frame that opens is byte for byte one that was sealed under this key |
| SecureChannel.SealedOpens | src/crypto/secure-channel.ts:55-81 | A sealed frame opens to its plaintext |
| SecureChannel.OpensIffSealed | src/crypto/secure-channel.ts:55-81 | Exactly the sealed byte strings open, each to its own plaintext |
| TunnelClient.Client.SendMessage | src/tunnel/tunnel-client.ts:100-105 | A send takes the next number; without an open socket it throws before one is taken |
| TunnelClient.Client.StartRequest | src/tunnel/tunnel-client.ts:107-121 | A request registers its promise and timer under its id, then sends; a send that throws leaves them waiting |
| TunnelClient.Client.TimerFires | src/tunnel/tunnel-client.ts:112-115 | A timeout forgets the id and rejects the promise |
| TunnelClient.Client.Settle | src/tunnel/tunnel-client.ts:150-165 | A reply clears the timer, forgets the id, and resolves or rejects |
| TunnelClient.Client.RejectPending | src/tunnel/tunnel-client.ts:180-186 | Every waiting request is rejected and its timer cleared |
| TunnelClient.Client.Close | src/tunnel/tunnel-client.ts:94-98 | Closing rejects everything that waits and drops the socket |
| TunnelClient.Client.HandleRawMessage | src/tunnel/tunnel-client.ts:123-148 | The replay check, opening, the counter update and the dispatch by frame type, in this order |
| TunnelRuns.AdvancesOnlyOnAccept | src/tunnel/tunnel-client.ts:123-129 | At every event the receive counter moves only when a frame opens, and then strictly upwards |
| TunnelRuns.AcceptedIsSubsequence | src/tunnel/tunnel-client.ts:123-148 | Whatever arrives, among requests, timeouts and closes in any order, the accepted frames are a strictly increasing subsequence of what the peer sealed: nothing twice, nothing out of order, nothing made up |
| TunnelRuns.DeliveriesAreAcceptedMessages | src/tunnel/tunnel-client.ts:142-148 | The handlers get exactly the decodable messages of the accepted data frames |
| TunnelRuns.InOrderAcceptsAll | src/tunnel/tunnel-client.ts:123-148 | On an in-order lossless network every frame is accepted, whatever else happens in between |
| PendingRequests.RunKeeps | src/tunnel/tunnel-client.ts:107-165 | Over every run of raw frames, requests, timeouts and closes with distinct ids: pending ids, live timers and unsettled promises correspond one to one, and the numbers on the wire are 0, 1, 2, ... without a gap |
| PendingRequests.TablesAgree | src/tunnel/tunnel-client.ts:107-186 | Pending entries are the live timers, live timers are the unsettled promises, and no promise is settled twice |
| PendingRequests.CloseSettlesAll | src/tunnel/tunnel-client.ts:180-191 | After a close nothing waits and every promise is settled |
| PendingRequests.RequestKeepsIffIdNotWaiting | src/tunnel/tunnel-client.ts:107-117 | A request keeps the tables in step if and only if its id is not already waiting |
| PendingRequests.ResolvedWasSealed | src/tunnel/tunnel-client.ts:107-165 | Over every run, the promises that are resolved are resolved with messages that the peer sealed, each a reply to the id of its own request and not an error, in the order the peer sealed them and none twice |
| TunnelFates.RequestMeetsFate | src/tunnel/tunnel-client.ts:107-121 | Over every run with distinct ids, what becomes of a request is told without the tables: the first of its timeout, a reply to its id or the end of the tunnel settles it, as rejected, resolved with that reply, or rejected, and nothing else does |
| TunnelFates.RunKeepsSettled | src/tunnel/tunnel-client.ts:150-165 | A promise that is settled stays settled, the same way, over every run |
| TunnelFates.SentIsWanted | src/tunnel/tunnel-client.ts:100-105 | Over every run with distinct ids, the frames on the wire are numbered 0, 1, 2, ..., one for each request, message, ping, and refused or undecodable frame while the tunnel is open |
| Replay.JtiReplayCache.RunSweep | src/tickets/replay.ts:47-53 | At most every thirty seconds, exactly the entries with exp <= now are dropped |
| Replay.JtiReplayCache.ConsumeJti | src/tickets/replay.ts:18-37 | Sweep, refuse a known id, evict oldest first until there is room, record |
| Replay.EvictDropsOldest | src/tickets/replay.ts:30-34 | Eviction keeps exactly the newest entries that fit |
| ReplayRuns.SizeIsBounded | src/tickets/replay.ts:18-37 | The cache never holds more than its maximum (one entry, if the maximum is below one) |
| ReplayRuns.AcceptedTwiceIsExcused | src/tickets/replay.ts:18-53 | If an id is accepted twice, a sweep ran at or after its expiry, or a full cache of distinct other ids was accepted in between |
| ReplayRuns.SecondUseIsRefused | src/tickets/replay.ts:18-37 | Until expiry, and until the cache has been filled by other ids, a second use is refused |
| ReplayRuns.RefusedWasAccepted | src/tickets/replay.ts:28-36 | Only an id that was accepted before is refused |
| ReplayRuns.ConsumeInOrder | src/tickets/replay.ts:22-34 | If expiries arrive in order, insertion order stays expiry order |
| ReplayRuns.EvictedExpireFirst | src/tickets/replay.ts:22-34 | Then what is evicted expires no later than what is kept |
| ReplayRuns.ExactlyRemembered | src/tickets/replay.ts:18-53 | With expiries in order (`InOrder`, `Rising`): an id that is not accepted again is held if and only if no sweep ran at or after its expiry and fewer ids than the cache holds were accepted since, so that counting them decides |
| ReplayRuns.RefusedIffRemembered | src/tickets/replay.ts:18-53 | With expiries in order, the same from the call that accepted the id, with its recorded expiry; failed attempts to use it again may lie in between |
| ReplayRuns.HeldIff | src/tickets/replay.ts:18-53 | For any expiries, in any order: an id that is not accepted again is held if and only if no sweep ran at or after its expiry and the ids accepted since and not yet swept never filled the cache |
| ReplayRuns.SecondUseRefusedIff | src/tickets/replay.ts:18-53 | For any expiries: a second use is refused exactly when no sweep ran at or after the expiry, the one of the second use included, and the ids accepted in between and not yet swept never filled the cache |
| ReplayRuns.RefusedIffNotSwept | src/tickets/replay.ts:18-53 | For any expiries, with fewer other ids in between than the cache holds: a second use is refused exactly when no sweep ran at or after the expiry, the one of the second use included |
| Paseto.WriteLe64 | src/tickets/paseto.ts:23-32 | The loop and the cleared top bit give the length modulo 2^63, least significant byte first |
| Paseto.Le64EqualIffSameMod | src/tickets/paseto.ts:23-32 | Two lengths look the same exactly when they agree modulo 2^63 |
| Paseto.WritePae | src/tickets/paseto.ts:34-40 | The loop builds the pre-authentication encoding |
| Paseto.PaeInjective | src/tickets/paseto.ts:34-40 | The encoding is injective on lists and byte strings shorter than 2^63 |
| Paseto.VerifiedWasSigned | src/tickets/paseto.ts:69-88 | Only a signed triple of message, footer and implicit assertion verifies, whatever the token text is |
| Paseto.SignedVerifies | src/tickets/paseto.ts:48-88 | A signed token verifies under its implicit assertion to exactly its message and footer, through the base64url split |
| Paseto.OtherImplicitIsRefused | src/tickets/paseto.ts:69-88 | A token is refused under an implicit assertion that nothing was signed with |
| Paseto.VerifiesIff | src/tickets/paseto.ts:69-88 | A token verifies exactly when it spells something that was signed under the same implicit assertion, and then to its message and footer |
| Base64.DecodeEncodeUrl | src/tickets/paseto.ts:58-78 | base64url text decodes to the bytes it was made from |
| Tickets.CheckIffGood | src/tickets/ticket.ts:86-92 | The chain of claim checks passes exactly for the right issuer, audience, scope, time window and non-empty id and subject |
| Tickets.VerifiedWasIssued | src/tickets/ticket.ts:67-103 | A ticket that verifies was issued: with these claims and key id, for this node and scope, inside its window |
| Tickets.IssuedVerifiesIff | src/tickets/ticket.ts:39-103 | An issued ticket verifies only at its node, and there exactly when it is good now |
| Tickets.VerifiesIff | src/tickets/ticket.ts:67-103 | A token verifies as a ticket exactly when it spells one that was issued for this node and is good here and now, and then to its claims and key id |
| Tickets.AcceptedAfterExpiry | src/tickets/ticket.ts:89-89 | A ticket is accepted until five seconds past its expiry |
| RequestTickets.SpendTicket | src/tickets/request-ticket.ts:33-57 | The order of the source: claims, binding, and only then the replay cache |
| RequestTickets.AcceptedWasIssued | src/tickets/request-ticket.ts:33-57 | An accepted request has a ticket issued for this node and this dedupe key, in its window |
| RequestTickets.AcceptedIff | src/tickets/request-ticket.ts:33-57 | A ticket is accepted if and only if it is spent on its own request, at its own node, in time, and its id is new |
| RequestTickets.SecondSpendingRefusedIff | src/tickets/request-ticket.ts:48-54 | For any expiries in between: the second spending of a token is refused as replayed exactly when no sweep ran at or after its expiry, its own included, and the ids accepted in between and not yet swept never filled the cache |
| RequestTickets.SecondSpendingRefusedIffNotSwept | src/tickets/request-ticket.ts:48-54 | With fewer other ids in between than the cache holds: refused exactly when no sweep ran at or after the expiry |
| RequestTickets.ReacceptedInTolerance | src/tickets/request-ticket.ts:48-54 | One token accepted twice: a sweep forgets the id at its expiry, while the ticket is still inside the clock tolerance |
| DataPlane.BindMeans | src/tunnel/data-plane.ts:154-171 | What a payload is bound to, in terms of the payload: its target, its method upper-cased and GET without one, its body as bytes, its headers or those its profile leaves, and the normalised profile; the ticket is bound to the same and to the digest of the profile |
| DataPlane.BindIff | src/tunnel/data-plane.ts:156-163 | A payload is bound exactly when it has no profile, or a valid one that permits it |
| DataPlane.ServedIff | src/tunnel/data-plane.ts:137-199 | A sealed request with an issued ticket is served exactly when it is admissible, the ticket is for this node and for what the payload asks, in time, and its id is new to the cache; and then it is served as asked |
| DataPlane.ServedWasIssued | src/tunnel/data-plane.ts:137-182 | A served request was sealed under the key of its connection, is what the payload asks for, and has a ticket issued for this node and this request |
| DataPlane.ServesWhatWasBound | src/tunnel/data-plane.ts:154-193 | Preparing the request again when it is served plans exactly the request the ticket is bound to, except when a resolved path begins with two slashes; then nothing is served |
| DataPlane.BodyRoundTrip | src/tunnel/data-plane.ts:224-227 | The body a client sends as base64 is read as the same bytes |
| DataPlaneGate.RunKeeps | src/tunnel/data-plane.ts:82-95 | Over every interleaving of connections: the cache is what its history made it, every connection is served at most once |
| DataPlaneGate.WithoutNoCalls | src/tunnel/data-plane.ts:82-95 | A run without the requests that bring the cache no call is still a run, with the same cache and the same services |
| DataPlaneGate.ArrivalWasAccepted | src/tunnel/data-plane.ts:82-95 | Every request frame arrives under the key that a handshake gave its connection |
| DataPlaneGate.OneRequestEach | src/tunnel/data-plane.ts:82-95 | Over every run, a connection carries one request, served or refused |
| DataPlaneGate.WaitsIff | src/tunnel/data-plane.ts:82-95 | Over every run, a connection waits for a request under a key exactly when a handshake gave it that key and no request has arrived on it |
| DataPlaneRuns.ArrivalIsDecision | src/tunnel/data-plane.ts:137-182 | Every request of a run leaves the cache that the decision of the node leaves, and is served exactly if that decision is to serve it, as it says |
| DataPlaneRuns.RefusedEarlyIff | src/tickets/request-ticket.ts:33-57 | Whether a request is refused before the replay step does not depend on the cache |
| DataPlaneRuns.RefusedLeaveNoTrace | src/tickets/request-ticket.ts:33-57 | Over every run, deleting the requests that are refused before the replay step leaves a run with the same cache, the same calls of it and the same services: what is refused there burns no ticket |
| DataPlaneRuns.ServedIsJustified | src/tunnel/data-plane.ts:137-207 | Over every run, every served request is what a sealed payload asks for, ticketed and bound, and let through by the cache |
| DataPlaneRuns.TicketServedOnce | src/tunnel/data-plane.ts:173-182 | Over every run, a ticket id is served twice only if it had expired or a whole cache of other ids was accepted in between |
| DataExchange.KeysAreSecret | src/tunnel/data-plane.ts:99-135 | No outsider seals under a key of a client that completed the handshake |
| DataExchange.ResponseIsFromPeer | src/tunnel/data-plane.ts:132-134 | A response that a completed client opens is, byte for byte, the response of the one run of the node that its handshake ended with |
| DataExchange.RequestIsFromPeer | src/tunnel/data-plane.ts:143-145 | A request that the run of a completed handshake opens is, byte for byte, the request of that client |
| DataService.ServedIsClientsRequest | src/tunnel/data-plane.ts:82-95 | Over every run of the node, what is served on a connection is, field by field, what the client that completed its handshake asked for, covered by a ticket for this node |
| DataPlaneStream.Channel.PushData | src/clients/data-plane-stream.ts:80-84 | A push settles the oldest waiting receive, or goes to the inbox |
| DataPlaneStream.Channel.Receive | src/clients/data-plane-stream.ts:52-57 | A receive takes from the inbox, else fails after a failure, else waits |
| DataPlaneStream.Channel.SendClose | src/clients/data-plane-stream.ts:45-49 | The close is sent unless the stream is closed |
| DataPlaneStream.Channel.FailAll | src/clients/data-plane-stream.ts:85-90 | A failure closes without sending and rejects every waiting receive, oldest first |
| DataPlaneStream.PushAdds | src/clients/data-plane-stream.ts:80-84 | A push adds to the end of what was delivered or waits in the inbox |
| DataPlaneStream.RecvMoves | src/clients/data-plane-stream.ts:52-57 | A receive loses and repeats nothing; the inbox comes before a failure |
| DataPlaneStream.FailSettlesAll | src/clients/data-plane-stream.ts:85-90 | No waiting receive survives a failure, and what is buffered stays |
| DataPlaneSession.RunKeeps | src/clients/data-plane-stream.ts:39-92 | Over every run: pushed is delivered followed by the inbox, in order |
| DataPlaneSession.OnceEach | src/clients/data-plane-stream.ts:67-77 | STREAM_CLOSE and the final hook happen at most once; ended and never failed means exactly one STREAM_CLOSE; inbox and waiters are never both non-empty |
| DataPlaneSession.NoCloseAfterFailure | src/clients/data-plane-stream.ts:85-90 | After a failure no STREAM_CLOSE is sent |
| DataPlaneSession.ReadsFirstTwo | src/tunnel/data-plane.ts:82-95 | The session reads the first payload as init and the second as request, and no others |
| DataPlaneAnswers.SendsWhatItComputes | src/tunnel/data-plane.ts:82-95 | Over every run, the data sent are the accept message and the response as far as they were computed, in order and each once; a session that ended without trouble sent both, then the close "data-plane complete", then called the final hook |
| DataPlaneAnswers.GetsToTheEnd | src/tunnel/data-plane.ts:82-95 | However far a session has got, once the peer has sent two payloads it needs at most seven more steps that succeed to end |
| ControlSessions.MuxIsSilent | src/clients/control-client.ts:432-581 | Besides what a session sends, the multiplexer puts nothing on the id of a data-plane stream but replies to session messages of that id |
| ControlSessions.MuxTells | src/clients/control-client.ts:499-572 | The multiplexer pushes to a session exactly the payloads of its id while the id is in the table, and fails it exactly when its id is closed or the tunnel drops |
| ControlSessions.StepKeepsHost | src/clients/control-client.ts:319-355 | Every step keeps: each data-plane stream ever opened has a session, the table holds exactly the sessions that neither ended nor failed, and what went out on an id is what its session sent |
| ControlSessionRuns.SessionRunsAlone | src/clients/control-client.ts:319-355 | Over every run of the multiplexer, what becomes of one session depends only on its own events |
| ControlSessionRuns.PeerReceivesSession | src/clients/control-client.ts:319-355 | Over every run of the multiplexer with its sessions: at most one STREAM_CLOSE goes out on a data-plane id, exactly one if its session ended by itself and the socket is there; and what went out is what the session sent, in order, as long as no session message ran on that id |
| ControlSessionRuns.PeerReceivesAnswer | src/clients/control-client.ts:333-334 | Over every run in which no step of a session throws and nothing fails it: once it has ended, its peer has received the accept message it computed, then the response it computed, then the close, and nothing else |
| ControlSessionRuns.NoCloseAfterPeerCloses | src/clients/control-client.ts:566-572 | After the close of the peer no STREAM_CLOSE goes out on a data-plane id, whatever follows, and none at all if the session was live until then |
| ControlSessionRuns.SessionReadsPeer | src/clients/control-client.ts:499-503 | Over every run: what a session is given is what the peer sent on its id, in order, so the init it accepts and the request it serves are the first two payloads of that id |
| ResponderAuth.PayloadDeterminesFields | src/tunnel/responder-auth.ts:151-158 | A payload that was signed determines every field of the proof, whatever else the object holds |
| ResponderAuth.VerifiedWasSigned | src/tunnel/responder-auth.ts:115-145 | An accepted proof was signed with this node id, nonce, binding and time, and is inside the window |
| ResponderAuth.SignedVerifies | src/tunnel/responder-auth.ts:74-145 | The proof a node signs for a challenge is accepted for that challenge inside the window |
| ResponderAuth.VerifiesIff | src/tunnel/responder-auth.ts:113-145 | A proof is accepted exactly when the challenge is this node's and stands for bytes, the proof names protocol, version, node, client nonce and binding of the challenge, has a node nonce and a time inside the window, and carries a signature made of the rest of it |
| DataHandshake.BindingIsInjective | src/tunnel/data-handshake.ts:207-228 | The channel binding commits to the node id, both public keys and both nonces |
| DataHandshake.SessionsCross | src/crypto/secure-channel.ts:93-132 | The two ends of one Diffie-Hellman exchange derive the same id and crossed keys |
| HandshakeAgreement.Agreement | src/tunnel/data-handshake.ts:151-197 | If the client completes, the node with the pinned key ran acceptDataInit on exactly this client key and nonce, recently, with the same transcript, the same session id and crossed keys |
| HandshakeAgreement.OneRunPerClient | src/tunnel/data-handshake.ts:93-147 | No two clients with fresh keys or nonces share a run of the node |
| HandshakeAgreement.OneClientPerRun | src/tunnel/data-handshake.ts:151-197 | One completion matches runs of one node key and nonce only |
| HandshakeAgreement.KeysDiffer | src/crypto/secure-channel.ts:125-131 | The two directions of a session use different keys |
| HandshakeAgreement.KeyDeterminesTranscript | src/crypto/secure-channel.ts:119-131 | Runs that share a key in any direction share the whole transcript |
| HandshakeAgreement.HonestInitIsAccepted | src/tunnel/data-handshake.ts:93-147 | A node accepts the init of a client that wants to reach it |
| HandshakeAgreement.HonestExchangeCompletes | src/tunnel/data-handshake.ts:72-197 | On an honest network, inside the window, the client completes with the node's session crossed |
| HandshakeAgreement.AcceptedIff | src/tunnel/data-handshake.ts:93-147 | The node answers an init exactly when it is one of this protocol for this very node, with a key and a nonce that stand for bytes and a time, the nonce is long enough and the key agrees with the node's own |
| HandshakeAgreement.CompletedIff | src/tunnel/data-handshake.ts:151-197 | The client completes exactly when the accept is one of this protocol with a key, a session id and a proof, the proof verifies for its own challenge and transcript, the keys agree and the session id is the derived one |
| CanonicalJson.SortValue | src/crypto/canonical-json.ts:5-15 | Sorting keys and filling an object key by key gives the same canonical form as sorting entries |
| CanonicalJson.DeepSortIffSame | src/runtime/dedupe.ts:28-38 | Two values have one canonical form if and only if they differ only by the order of object keys, at some depths |
| CanonicalJson.DeepSortTwice | src/runtime/dedupe.ts:28-38 | Canonicalising twice is canonicalising once |
| CanonicalJson.PathsArePreserved | src/runtime/dedupe.ts:28-38 | Every path leads to the canonical form of what it led to |
| CanonicalJson.DeepSortWellFormed | src/runtime/dedupe.ts:28-38 | A canonical form has no key twice |
| Dedupe.UrlObject.Canonicalize | src/runtime/dedupe.ts:44-67 | The assignments to the URL object and the append loop give the canonical record |
| Dedupe.CanonicalIffSameTarget | src/runtime/dedupe.ts:44-67 | Two URLs have one canonical form exactly when they differ only in fragment, order of query pairs, a default port written out, and case of protocol and host |
| Dedupe.CanonicalizeUrlTwice | src/runtime/dedupe.ts:44-67 | Canonicalising a URL twice changes nothing |
| Dedupe.CanonicalizeSemanticHeaders | src/runtime/dedupe.ts:69-84 | The loop and the ordered emission give the four canonical values, the last header of a name winning |
| Dedupe.CanonicalMeans | src/runtime/dedupe.ts:69-84 | Of the headers that count, the last one of each name: accept and content-type trimmed and folded, authorization and cookie as a digest, and nothing where there is none |
| Dedupe.HeaderOrderIrrelevantIff | src/runtime/dedupe.ts:73-77 | Header order does not matter if and only if no two headers share a semantic name, ignoring case, and disagree on its value |
| Dedupe.CollidingNamesDependOnOrder | src/runtime/dedupe.ts:73-77 | Two names that differ in case only: swapping them changes the canonical value |
| Dedupe.SecretsAgree | src/runtime/dedupe.ts:75-76 | Canonical values agree exactly when public ones have the same words and secret ones are equal |
| Strings.NormalIffSameWords | src/runtime/dedupe.ts:75-75 | Trimming and folding identify exactly the values with the same words |
| Strings.NormalTwice | src/runtime/dedupe.ts:75-75 | Trimming and folding twice changes nothing |
| Dedupe.BodyHashIff | src/runtime/dedupe.ts:86-91 | Body hashes agree exactly when the bodies stand for the same bytes |
| Dedupe.DataHashIff | src/runtime/dedupe.ts:86-91 | Structured bodies hash alike exactly when they differ only in key order |
| Dedupe.SameKeyIffInterchangeable | src/runtime/dedupe.ts:93-106 | Two requests share a key exactly when method, URL, semantic headers, body bytes and profile hash agree up to canonical form |
| Dedupe.KeyIsInvariant | src/runtime/dedupe.ts:44-106 | Permuting query pairs, changing method case, permuting and respelling headers without conflicting names leaves the key |
| Profile.NormalizeProxyProfile | src/runtime/profile-v1.ts:82-142 | The validation step by step: key loop, assignment of the base path, coerced time to live, and the errors in their order |
| ProfileNormal.MethodsMean | src/runtime/profile-v1.ts:105-112 | The methods are accepted exactly when all are known, and are exactly those named, up to case |
| ProfileMeaning.NormalizeIff | src/runtime/profile-v1.ts:81-142 | A profile is accepted exactly when it is an object of known fields and of this protocol in which every field is acceptable; and then every field of the normal form, base, methods in their order, paths, time to live, flags and preferences, is what was asked for, or its default |
| ProfileNormal.PathsMean | src/runtime/profile-v1.ts:114-119 | The paths are accepted exactly when there are 1 to 64 and each is valid, and are exactly the resolved ones, sorted, each once |
| ProfileNormal.NormalizeTwice | src/runtime/profile-v1.ts:82-142 | A second normalisation returns the same profile, except if and only if a resolved path begins with two slashes; then it is refused |
| ProfileNormal.DotSegmentsBreakStability | src/runtime/profile-v1.ts:54-63 | The path "/.//x" is accepted and becomes "//x", which is refused |
| PathResolver.ResolveTwice | src/runtime/profile-v1.ts:58-62 | Resolving dot segments twice is resolving them once |
| PathResolver.DotSegments | src/runtime/profile-v1.ts:58-62 | The rules that determine dot segments: a step up takes back the segment before it, a dot stands for nothing, above the root is the root, and at the end either leaves an empty segment; a path without them stays as it is |
| ProfileNormal.NormalizeIgnoresOrder | src/runtime/profile-v1.ts:105-119 | Order and repetitions of methods and of paths, and the order of keys, do not matter, if both lists of paths are within the bound of 64 entries or neither is: more entries are refused however often they repeat |
| ProfileNormal.PreferenceTwice | src/runtime/profile-v1.ts:71-79 | Normalising a preference list twice changes nothing |
| ProfileRequests.AssertIffPermitted | src/runtime/profile-v1.ts:154-190 | A request passes exactly when its profile is valid and origin, path segments and method permit it |
| PathGate.GateIsSegmentPrefix | src/runtime/profile-v1.ts:175-183 | The string tests are exactly prefix matching on path segments |
| PathGate.SplitPrefixIff | src/runtime/profile-v1.ts:180-182 | Split pieces are a prefix exactly when the text is equal or continues after a separator |
| ProfileRequests.ControlHeadersHold | src/runtime/profile-v1.ts:198-207 | Each control header holds its own setting of the profile and is absent when there is none |
| ProfileRequests.ControlComesFromProfile | src/runtime/profile-v1.ts:223-231 | No control header of the caller survives; every one in the result is the profile's, and all other headers stay |
| ProfileRequests.PrepareTwice | src/runtime/profile-v1.ts:216-233 | Preparing at the data plane and again where the request is served gives the same profile, hash and headers, except if and only if a resolved path begins with two slashes |
| ProfileRequests.ProfileHashIff | src/runtime/profile-v1.ts:149-151 | Profile hashes agree exactly when the normalised profiles do |
| ProxyServe.BuildHopByHopDenySet | src/runtime/proxy-serve.ts:105-115 | A name is denied exactly when it is hop-by-hop or a token of some Connection header |
| ProxyServe.ForwardedHeaderEntries | src/runtime/proxy-serve.ts:160-169 | The loop keeps and lower-cases what is not denied, and sorts by name |
| ProxyServe.ForwardedExactly | src/runtime/proxy-serve.ts:160-169 | Exactly the caller's headers that are neither denied nor control headers go upstream, in name order |
| ProxyServe.ListNames | src/runtime/proxy-serve.ts:105-115 | A Connection header names exactly the names in its comma-separated list, whatever their case and the blanks around them |
| ProxyServe.CacheKeyIff | src/runtime/proxy-serve.ts:178-183 | Cache keys agree exactly when the dedupe keys and all forwarded headers do |
| ProxyServe.PlanMeans | src/runtime/proxy-serve.ts:190-197 | What is planned, in terms of the request: target, method, body, the headers its profile leaves; and upstream go, with a profile and without one, exactly the headers of the caller that are neither hop-by-hop, nor named by a Connection header, nor control headers |
| ProxyServe.SameKeyIffSameRequest | src/runtime/proxy-serve.ts:199-211 | Two cacheable requests share a key exactly when their callers ask the same: method, target, body, normalised profile, and every header that goes upstream |
| ProfileCache.HitIsLatestAnswer | src/runtime/proxy-serve.ts:67-86 | A hit is the answer last stored under its key, less than its time to live ago |
| ProfileCache.KeptIsFound | src/runtime/proxy-serve.ts:67-86 | An answer stored under a new key is found until it expires, as long as fewer than a thousand answers are stored meanwhile |
| ProfileCache.RunIsBounded | src/runtime/proxy-serve.ts:77-81 | The cache never exceeds a thousand entries |
| ProxyServeRuns.CachedAnswersAreTrue | src/runtime/proxy-serve.ts:199-215 | Over any interleaving, a cached answer is a 2xx answer of the upstream to a GET or HEAD of a caller that asked the same and sent the same headers upstream, given less than the time to live ago |
| ProxyServeRuns.AnswersAreFoundAgain | src/runtime/proxy-serve.ts:212-215 | After a successful answer, a caller that asks the same is given it from the cache, until the time to live is over or a thousand others were kept |
| ProxyServeRuns.OthersLeaveNoTrace | src/runtime/proxy-serve.ts:199-215 | Over any interleaving, requests that are not a GET or HEAD under a profile leave the cache as if they had never been |
| ProxyServeRuns.CacheIsBounded | src/runtime/proxy-serve.ts:77-86 | Over any interleaving of requests and answers the cache never exceeds a thousand entries |
| ProfileStores.ProfileStore.CachedProfileResult | src/runtime/proxy-serve.ts:67-75 | The lookup returns a new buffer with the stored bytes, or drops an expired entry |
| ProfileStores.ProfileStore.StoreProfileResult | src/runtime/proxy-serve.ts:77-86 | The store keeps a new buffer, after making room |
| ProfileStores.HitsAreIsolated | src/runtime/proxy-serve.ts:74-74 | Writing into a returned body never changes a later hit |
| ProfileStores.KeptIsIsolated | src/runtime/proxy-serve.ts:82-85 | Writing into a body after handing it in does not change what was kept |
| SecretStore.Store.GetOrCreateDataKey | src/node/secret-store.ts:182-205 | Cached, stored, or minted, written and read back; every error and crash point as a case |
| SecretStore.Store.WriteSecretFile | src/node/secret-store.ts:264-270 | Seal, then replace the file by a rename |
| SecretStore.Store.ReadSecretFile | src/node/secret-store.ts:279-308 | Absent, opened, or legacy text sealed in place and returned |
| SecretStore.Store.LoadOrCreate | src/crypto/identity.ts:11-38 | The stored identity when both files exist and the key is not empty, otherwise a new one, private key first |
| SecretRuns.TornKey | src/node/secret-store.ts:145-163 | A key file torn at any length is malformed or the whole key |
| SecretRuns.KeyStep | src/node/secret-store.ts:182-205 | Getting the key changes nothing but, at most, an absent key file and the cached key |
| SecretRuns.ReadKeeps | src/node/secret-store.ts:279-308 | Reading returns the last completed write, never anything else, and leaves every file standing for the same text, migration included |
| SecretRuns.SecretsSurvive | src/node/secret-store.ts:279-308 | After any run with crashes, while the key can be read, every path gives its last completed write |
| SecretRuns.LegacyStart | src/node/secret-store.ts:272-278 | The invariant holds at the start: an empty disk, or one with legacy files only |
| SecretRuns.RunKeeps | src/node/secret-store.ts:123-308 | Over any run with crashes at any write: a readable key never changes, a key file is never replaced, every file is absent, legacy text, or an envelope opening to the last completed write |
| SecretRuns.RunKeepsIdentity | src/crypto/identity.ts:11-38 | Once both identity files exist with a private key in them, no run changes either |
| SecretRuns.LoadsAgree | src/crypto/identity.ts:11-38 | Any two loads that return, with any run between them, return the same identity |
| SecretRuns.LoadsStoredIff | src/crypto/identity.ts:20-26 | With both files there and no mishap, the stored identity is loaded if and only if the stored private key is not empty |
| SecretRuns.EmptyLegacyKeyRotates | src/crypto/identity.ts:20-38 | An empty legacy key file: the identity is replaced, and a crash in between leaves halves of different pairs |
| SecretRuns.RunKeepsMatched | src/crypto/identity.ts:29-37 | From no public key, or a matching pair, no run leaves a public key beside another pair's private key |
| SecretOutcomes.KeyIsDecided | src/node/secret-store.ts:182-205 | Getting the key returns the readable key or a minted one, throws for a key that cannot be read or is malformed, crashes only while it provisions; and what is on disk and in memory afterwards |
| SecretOutcomes.WriteIsDecided | src/node/secret-store.ts:264-270 | A write returns exactly when it got the key and met no mishap around the rename; the file is the new envelope exactly from the rename on |
| SecretOutcomes.OnlyItsKeyAndSlotOpen | src/node/secret-store.ts:254-260 | An envelope opens under its own key and slot name and under no other |
| SecretOutcomes.ReadIsDecided | src/node/secret-store.ts:279-308 | Where every file is what was last written, a read ends as getting the key ends, or as the write that migrates a legacy file |
| SecretOutcomes.LoadIsDecided | src/crypto/identity.ts:11-38 | Loading the identity ends as the read of the private key when both files exist and that key is not empty, and as storing the generated pair when a file is missing |
| SecretOutcomes.CrashForgets | src/node/secret-store.ts:178-183 | After a crash or a restart the process remembers no key |
| Ssrf.Ip32IsAddress | src/runtime/ssrf.ts:54-67 | The signed shifts give the 32-bit address of the parts, or nothing exactly when a part is too large |
| Ssrf.PrintIsQuad | src/runtime/ssrf.ts:69-69 | The unsigned shifts and masks print the big-endian quad |
| Ssrf.NormalizeIsQuad | src/runtime/ssrf.ts:45-69 | One to four parts, each decimal, octal or hexadecimal, come to the quad of the address they spell |
| SsrfVerdict.SpellingsAgree | src/runtime/ssrf.ts:47-51 | The decimal, the octal and the hexadecimal spelling of a number are the same part |
| SsrfVerdict.RawIsQuad | src/runtime/ssrf.ts:31-70 | Raw text in any accepted spelling comes to the quad of the address it spells, and to nothing when it spells none |
| SsrfVerdict.RawNormalizeTwice | src/runtime/ssrf.ts:31-70 | Normalising raw text twice is normalising it once |
| SsrfVerdict.PrivateIffInBlock | src/runtime/ssrf.ts:72-89 | The comparisons are exactly membership in the listed CIDR blocks |
| SsrfVerdict.RawVerdict | src/runtime/ssrf.ts:31-89 | On raw text: all spellings of one address get one normal form and one verdict, which is whether the address is in a listed block |
| SsrfVerdict.MappedVerdict | src/runtime/ssrf.ts:38-43 | An IPv4-mapped address in two hexadecimal groups gets the verdict of that address |
| SsrfVerdict.DottedTextVerdict | src/runtime/ssrf.ts:72-89 | Four runs of decimal digits are private exactly when they are four bytes and the address they spell is in a listed block |
| SsrfTarget.ScanRecords | src/runtime/ssrf.ts:141-153 | The loop finds whether any record is private, and the first record that may be connected to |
| SsrfTarget.Resolver.BeginResolve | src/runtime/ssrf.ts:111-134 | Before the lookup: literals by their verdict, names by the cache while it is fresh |
| SsrfTarget.Resolver.FinishLookup | src/runtime/ssrf.ts:136-168 | After the lookup: all records are looked at, and either outcome is cached |
| SsrfTarget.CacheIsLatestAnswer | src/runtime/ssrf.ts:129-168 | However calls overlap, the cache holds, of every name, what its latest answered lookup said |
| SsrfTarget.AllowedWasLookedUp | src/runtime/ssrf.ts:111-168 | However calls overlap, an allowed name was allowed by a lookup of that name with no private record in its answer: its own, or the latest one and then no older than the time to live; and the address is the first of that answer that can be connected to |
| SsrfTarget.RunIsSafe | src/runtime/ssrf.ts:111-168 | Over any interleaving of calls that start and lookups that are answered, an allowed address is never private |
| SsrfTarget.TargetIsDecided | src/runtime/ssrf.ts:111-128 | However calls overlap, a target that is no web target, is percent-encoded or is a private IPv6 literal is refused, and an IPv4 literal in any spelling is allowed, as its address, exactly if that is in no listed block |
| SsrfTarget.NameIsDecided | src/runtime/ssrf.ts:129-134 | However calls overlap, a name with a fresh answer gets the verdict of that answer at once, and any other waits for a lookup of its own |
| SsrfTarget.AnswerDecides | src/runtime/ssrf.ts:136-168 | An answered lookup decides its call: allowed exactly without a private record and with one that can be connected to |
| SsrfTarget.FirstGroupDecides | src/runtime/ssrf.ts:83-98 | An IPv6 literal with a first group of four digits is private exactly when that group is fe80, or from fc00 to fdff |
| SsrfTarget.LookupAllowsIff | src/runtime/ssrf.ts:141-161 | A lookup allows a name exactly when none of its addresses is private and some address can be connected to |

## Left out

- Proxy and eval requests on the control tunnel, heartbeats, updates, logs, the counter of active requests: no table of the multiplexer depends on them.
- The text of the error that answers a frame that could not be decoded; that one is sent is modelled.
- Order inside the teardown of a closed tunnel: all sockets and data-plane streams are named in one effect.
- Raw sockets are ids; a data-plane stream is an id in ControlClient and gets its session in ControlSessions.
- What a session computes between two awaits is an input of its runs in DataPlaneSession and ControlSessions; DataHandshake and DataPlane say what it is.
- An `async` handler that waits between two sends: handler runs are atomic here.
- `src/tunnel/handshake.ts`, the older handshake of the control tunnel.
- Real cryptography, key lengths and the 16-byte truncation of session ids; the handshake's agreement is symbolic.
- How private keys stay private: outsiders have their own and no others (`DataExchange.KeysAreKept`).
- JavaScript strings as UTF-16: characters here are code points, so sorting text outside the basic plane may differ from the source's order.
- Case mapping outside ASCII, in header names, methods and host names.
- The text of a query string: a URL carries its list of query pairs, so a query that parses to no pairs counts as empty.
- Percent-encoding, and tabs and spaces that URL parsing strips, in allowed paths: behind `Profile.Locates`; dot segments are modelled on plain text.
- Keys like `__proto__` and integer-like keys of JSON objects; minus zero, which JSON text does not tell from zero.
- Clocks that are not whole seconds: a node and a client read whole ones, a proof may carry any number.
- `undefined` as a property value; a missing property stands for it.
- The shared `headers` object of cache hits: only body buffers are isolated in the source, and only they are in `ProfileStores.HitsAreIsolated`.
- The request that goes upstream, its timeout and TLS identity check.
- A falsy cache key: keys are digests, which are never empty.
- A torn write of the public key file, and two processes that mint the data key at once.
- A legacy secret whose text happens to be an envelope: files are either envelopes or legacy text.
- Files that become unreadable are an outcome of a read, not a state of the disk.
- IPv6 ranges beyond the four tests of the source, and the mapped dotted form, whose text the source returns without checking its bytes (`src/runtime/ssrf.ts:34-36`).
- `Number` of text that is not decimal digits, in addresses a resolver returns.
- `src/runtime/data-route.ts`: the same queue as the data-plane stream.
- SsrfVerdict.RawVerdict: leaves out the mapped form with dotted text, which the source returns unchecked; DottedTextVerdict covers that text.
- ReplayRuns.ExactlyRemembered: with expiries in order, where the number of accepted ids decides, as in RefusedIffRemembered; HeldIff is the form for any expiries, which counts the ids not yet swept.
- HandshakeAgreement.OneRunPerClient: about keys and nonces; that fresh ones differ is a matter of randomness.
