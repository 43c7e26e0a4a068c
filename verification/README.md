# A verified model of the peer-to-peer chat

The repository is a two-party chat. A signaling server (`src/bin/server.rs`) keeps rooms of at
most two clients and exchanges their UDP endpoints; the clients (`src/network/client.rs`) then
talk directly over an encrypted channel; both share names, hexadecimal ids, titles and invite
codes (`src/protocol.rs`). This project models all three and proves what they are for.

**The channel.** `PeerModel` says what each handler of a peer does to the peer's value: the next
value, the packets sent, the events raised, the error returned. `SecureChannel.SecurePeer` is the
peer as the client keeps it, an object updated in place; each of its methods is proved to have the
effect its handler has in `PeerModel`. `Channel` joins two peers by a network that loses,
duplicates, reorders and reflects packets and adds packets that carry no handshake message and open
under no session. `ChannelInvariant` states what every reachable pair satisfies, the `Channel*`
proof modules show that every step keeps it, and `ChannelTheorems` and `ChannelProgress` draw the
conclusions. `ChannelUpkeep` says what ticks and packets must achieve and when, `ChannelDelivery`
what packets that go through achieve, `ChannelDraining`, `ChannelSilence` and `PacketRate` what
holds over stretches of runs, and `ChannelCounterexample` writes a whole run out. `Replay` is the
128-bit replay window in the sense of section 3.4.3 of RFC 4303, on `U128`, which defines shifts and bits of
a 128-bit word on natural numbers.

Noise is symbolic: a session is the room context with both ephemeral keys, a sealed plaintext opens
only under its own session, direction and sequence, and the first handshake message authenticates
the room only when there is a pre-shared secret. Times are nanoseconds; each handler run has one
time.

**The server.** `Rooms` gives each lock-protected operation together with the lines it sends, and
the dispatch of a client's line. `Signaling.SignalingServer` is the object with the tables, its
methods proved to do what `Rooms` says. `ServerRuns` lets any handlers, registrations, timers,
clean-ups, disconnections and failed handlers interleave and keeps, as history, every line each
client was ever sent. `ServerInvariant` to `ServerPairing` prove the invariant, `ServerTheorems`
and `PublicList` state the results, and `ServerCommands` says what each command achieves, with the
words on the wire and the numbers of the protocol. Orders in which hash tables yield their keys are
arguments, so results that hold for every order are independent of it.

**The rest.** `RateLimit` is the token bucket over exact reals, `LineReader` the resumable line
reader, `Protocol`, `Plaintext` and `Utf8` the text and byte forms.

Two properties one might expect are false of the code, and the project says when they hold.
Delivery is at most once only within a window of 512 messages: `ChannelCounterexample.DeliveredTwice`
gives every pairing a run with a repetition, `ShownExactlyWhenNotRecent` the exact condition,
`RedeliveryIsFarApart` and `OnceWithinWindow` what is guaranteed. Pairing completeness
needs room ids that are not used again after their room is gone: `ReusedIdsBreakPairing` gives a run
that fails, `LeaveCompletes` the exact condition for one departure, and `PairingIsComplete` holds of
every run with fresh ids. Likewise the match time-out may report a missing family wrongly only in
rooms marked failed (`FailedRoomsMayBeMisreported`, `UnavailableMeansNoCommonFamily`).

## Model

| member | source | states |
|---|---|---|
| Replay.ReplayWindow.Accepts | src/network/client.rs:241-250 | answers, without changing the window, what the bitmap says of a sequence: newer than the highest, or less than 128 below it and unmarked |
| Replay.ReplayWindow.Mark | src/network/client.rs:252-269 | moves the window exactly as `Record` says, including shifts of 128 and more; callable only where `highest - sequence` is below 128 |
| Replay.AcceptsExactlyTheFresh | src/network/client.rs:241-250 | if the window represents a set of recorded sequences, a sequence is accepted if and only if it is not in the set and nothing recorded is 128 or more above it |
| Replay.RecordRepresents | src/network/client.rs:252-269 | recording an accepted sequence keeps the bitmap equal to the set extended by it, across every shift |
| Replay.WindowRefinesSet | src/network/client.rs:234-270 | over every run of offers the 128-bit window gives the same answers as an unbounded set without a bitmap |
| Protocol.EncodeHex | src/protocol.rs:95-103 | the loop computes `Hex`, whose inverse is proved below |
| Protocol.DecodeHex | src/protocol.rs:105-115 | the loop computes `DecodedHex`, characterised in the next row |
| Protocol.HexReads | src/protocol.rs:105-115 | a text decodes to `n` bytes if and only if it consists of `2 * n` hexadecimal digits of either case, and encoding the bytes gives it back in lower case |
| Protocol.HexDigitsAreUsual | src/protocol.rs:95-103 | the digits written are 0 to 9 and a to f, in this order |
| Protocol.HexRoundTrip | src/protocol.rs:95-115 | decoding an encoding gives the bytes back, at every length |
| Protocol.NormalizeIsIdempotent | src/protocol.rs:117-139 | a normalised title or nickname is not empty, within its limits, trimmed, free of unsafe characters and unchanged by normalising again |
| Protocol.TrimIsFixpoint | src/protocol.rs:117-139 | trimming leaves no white space at either end and changes nothing the second time |
| Protocol.TrimCutsBlanks | src/protocol.rs:117-139 | trimming takes white space off either end and nothing else |
| Protocol.TitlesAndNicknames | src/protocol.rs:117-139 | what a title and a nickname may be: at most 40 or 20 characters and 120 or 80 bytes, trimmed, not empty, without unsafe characters |
| Protocol.NormalizeTrims | src/protocol.rs:117-139 | normalising succeeds if and only if the trimmed text is a title, or nickname, and then returns it |
| Protocol.Unbase64OfBase64 | src/protocol.rs:141-152 | decoding an unpadded base64url text gives back the bytes it was made from, for every byte sequence |
| Protocol.Base64OfUnbase64 | src/protocol.rs:141-152 | re-encoding what was decoded gives back the text exactly, so a token has one spelling |
| Protocol.DigitsAreUrlSafe | src/protocol.rs:141-152 | the 64 digits are those of section 5 of RFC 4648, in its order |
| Protocol.SameBits | src/protocol.rs:141-152 | three bytes and their four digits are the same 24 bits |
| Protocol.TitleRoundTrip | src/protocol.rs:141-152 | a token decodes to a title if and only if the title is normalised and the token is its encoding |
| Protocol.EncodedTitleIsReadable | src/protocol.rs:141-152 | the token of any acceptable title is non-empty ASCII without white space, at most 160 characters, and decodes to the normalised title |
| Protocol.InviteRoundTrip | src/protocol.rs:53-93 | an invite parses to a secret if and only if its trimmed text is `P2P2-` and the one encoding of that 32-byte secret |
| Protocol.ExposedInviteIsRead | src/protocol.rs:53-93 | what `expose` prints, parses to the same secret |
| Utf8.DecodeOfEncode | src/network/client.rs:1296-1297 | text survives encoding to UTF-8 and decoding |
| Utf8.EncodeOfDecode | src/bin/server.rs:1273-1276 | bytes accepted as UTF-8 are the encoding of the text they decode to, so overlong and surrogate forms are refused |
| Plaintext.PlainRoundTrip | src/network/client.rs:1483-1493 | every plaintext the program may send is parsed into the same READY, READY_ACK, message, acknowledgement or heartbeat, ids being eight big-endian bytes |
| Plaintext.TagsOnTheWire | src/network/client.rs:1483-1493 | the bytes of each kind: tags 1 to 5, ids as eight big-endian bytes, text as UTF-8 |
| Plaintext.ParseIsStrict | src/network/client.rs:1270-1327 | nothing else is understood, but for bytes after the tag of a READY_ACK or heartbeat, which are ignored |
| Plaintext.SendableLength | src/network/client.rs:394-418 | whatever may be sent fits a datagram, so `encrypt` never fails for length |
| ChannelFrames.SealRefuses | src/network/client.rs:394-418 | a plaintext above 1171 bytes does not fit a datagram of 1200, is refused and still uses up its sequence |
| SecureChannel.Connect | src/network/client.rs:302-379 | creates a peer exactly for nicknames that normalising leaves alone, in the state `NewPeer` describes |
| SecureChannel.SecurePeer.constructor | src/network/client.rs:342-378 | the fields of a new peer |
| PacketRate.AtMost100BetweenResets | src/network/client.rs:381-392 | in any run, between two resets of its counter a peer looks at no more than 100 packets |
| PacketRate.CounterCounts | src/network/client.rs:381-392 | between two resets the counter counts exactly the packets looked at, since no handler but `allow_packet` touches it |
| PacketRate.AtMost200InASecond | src/network/client.rs:381-392 | in any stretch of a run shorter than a second a peer looks at no more than 200 packets |
| PacketRate.UnlookedOnlyWhenFull | src/network/client.rs:381-392 | conversely, a packet goes unlooked at only if, counting back from it, 100 were looked at in less than a second |
| SecureChannel.SecurePeer.Encrypt | src/network/client.rs:394-418 | seals under the next sequence, or fails and sends nothing when there is no transport or the checked counter is at its maximum |
| SecureChannel.SecurePeer.Decrypt | src/network/client.rs:420-439 | opens a fresh packet under the session, the other direction and its own sequence, and only then records the sequence |
| SecureChannel.SecurePeer.HandlePacket | src/network/client.rs:1191-1268 | the effect of a packet of any kind, in every state |
| SecureChannel.SecurePeer.HandlePlaintext | src/network/client.rs:1270-1327 | the effect of a plaintext of any kind, malformed ones being errors |
| SecureChannel.SecurePeer.HandleInit | src/network/client.rs:1207-1240 | a repeated INIT gets the cached RESPONSE; the first one uses up the handshake |
| SecureChannel.SecurePeer.HandleResponse | src/network/client.rs:1241-1260 | RESPONSE completes the handshake of the initiator and is followed by READY |
| SecureChannel.SecurePeer.Deduplicate | src/network/client.rs:1305-1315 | a message is shown and remembered unless its id is among the 512 remembered |
| SecureChannel.SecurePeer.MaybeMarkConnected | src/network/client.rs:1329-1342 | connects, once, when READY was received and acknowledged |
| SecureChannel.SecurePeer.SendReady | src/network/client.rs:1354-1364 | sends the nickname and notes the time |
| SecureChannel.SecurePeer.SendMessage | src/network/client.rs:613-638 | refuses long texts, unconnected peers and a 65th pending message, otherwise announces the next id |
| SecureChannel.SecurePeer.PeerConnectionAction | src/network/client.rs:1381-1399 | time-out, request for IPv4 or neither |
| SecureChannel.SecurePeer.RetryDue | src/network/client.rs:1443-1480 | the loop that removes and re-inserts the due messages does what `RetryAll` says, up to the first failing send |
| SecureChannel.SecurePeer.Tick | src/network/client.rs:1401-1481 | the effect of a timer tick |
| SecureChannel.SecurePeer.FailPending | src/network/client.rs:1495-1510 | reports each pending message as failed, once, and forgets it |
| SecureChannel.RetryAllStops | src/network/client.rs:1449-1480 | after the first failing send no later due message is touched |
| ChannelPairs.RunKeepsInv | src/network/client.rs:1191-1327 | every run of two peers over a losing, duplicating, reordering, non-forging network keeps the invariant of both sides and of the pair |
| ChannelPairs.ApplyKeepsInv | src/network/client.rs:1191-1510 | any one step of either peer (arrival, tick, user message, closing) keeps the invariant |
| ChannelPairs.TransportComesFromOther | src/network/client.rs:420-439 | a transport packet that opens was sealed by the other side under that sequence, for a reason |
| ChannelSteps.HandlePlainStep | src/network/client.rs:1270-1327 | handling any plaintext keeps the invariant of the side |
| ChannelSends.SayStep | src/network/client.rs:613-638 | sending a message keeps the invariant of the side |
| ChannelTicks.TickStep | src/network/client.rs:1401-1481 | a tick keeps the invariant of the side, retransmissions included |
| ChannelTheorems.ReceivedWasSent | src/network/client.rs:1292-1316 | nothing is received that the other side did not send under that id with exactly that text |
| ChannelTheorems.DeliveredWasReceived | src/network/client.rs:1317-1322 | a message reported delivered was sent, and has been received with exactly the text sent under its id |
| ChannelTheorems.SameSession | src/network/client.rs:1207-1260 | whatever order handshake packets arrive in or repeat, both transports come from one transcript and both safety numbers agree, being that transcript in a public room and absent in a private one |
| ChannelTheorems.ConnectionAgreement | src/network/client.rs:1276-1291 | if one side is connected the other has the transport and READY, each knows the other's real nickname, and a side not yet connected lacks the acknowledgement only |
| ChannelTheorems.ConnectedOnce | src/network/client.rs:1329-1342 | `PeerConnected` is raised at most once and names the peer by its real nickname |
| ChannelTheorems.AcceptedNeverAgain | src/network/client.rs:420-439 | a further copy of an accepted sequence never reaches the plaintext handler and changes nothing but clocks |
| ChannelTheorems.RedeliveryIsFarApart | src/network/client.rs:1305-1315 | two deliveries of one id have at least 512 other deliveries between them |
| ChannelTheorems.DedupTable | src/network/client.rs:1305-1311 | the order list has no repetition, at most 512 elements and exactly the elements of the id set |
| ChannelTheorems.ShownExactlyWhenNotRecent | src/network/client.rs:1305-1315 | a message that opens is shown if and only if its id is not among the last 512 shown |
| ChannelTheorems.ForgottenAfter512 | src/network/client.rs:1305-1311 | at the handler: a table that has seen an id and then 512 others, whichever they are, shows a late copy again |
| ChannelCounterexample.DeliveredTwice | src/network/client.rs:1305-1311 | every pairing has a complete run of 6.2 s in which messages 1 to 513 are delivered and then message 1 again, its first acknowledgement having been lost |
| ChannelCounterexample.AtMostOnceFails | src/network/client.rs:1305-1311 | so there is a reachable state in which one id has been delivered twice |
| ChannelCounterexample.EveryPairingCanConnect | src/network/client.rs:1191-1342 | every pairing has a run that connects both ends |
| ChannelTheorems.OnceWithinWindow | src/network/client.rs:1305-1311 | if the sender used at most 512 ids, nothing is shown twice |
| ChannelTheorems.EveryMessageIsAccountedFor | src/network/client.rs:624-637 | every announced id is in exactly one of pending, delivered, failed; it is sent at most 5 times; at most 64 are pending |
| ChannelTheorems.TimeoutsAreLate | src/network/client.rs:1442-1480 | a tick gives a message up no earlier than 11.5 s after it was first sent |
| ChannelTheorems.FailuresAreExhausted | src/network/client.rs:1449-1460 | only a message already retransmitted four times is given up |
| ChannelDraining.AttemptsAreSpent | src/network/client.rs:1442-1480 | over any stretch of any run without a new message, the attempts left at the end plus the retransmissions and failures on the way are at most the attempts left at the start |
| ChannelDraining.AtMost320 | src/network/client.rs:1442-1480 | so at most five for each pending message, and at most 320 in all |
| ChannelDraining.FiveRoundsDrain | src/network/client.rs:1442-1480 | after five ticks that go through, each when every pending message is due, nothing is pending |
| ChannelDraining.SpentMeansDrained | src/network/client.rs:1442-1480 | in a reachable state with no attempts left, nothing is pending |
| ChannelTheorems.TickDrains | src/network/client.rs:1442-1480 | a tick that goes through spends exactly one remaining attempt for each due message |
| ChannelTheorems.NothingIsReused | src/network/client.rs:394-418 | no sequence is used for two packets and no id for two texts |
| ChannelTheorems.CounterStopsBeforeIdsWrap | src/network/client.rs:628-631 | whenever the id counter could wrap, the checked sequence counter has already stopped sending |
| ChannelTheorems.AtMostSevenAsks | src/network/client.rs:1381-1399 | an unconnected IPv6 peer asks for IPv4 at most 7 times, a second apart, between 3 s and 10 s after its start; an IPv4 peer never asks |
| ChannelTheorems.TenSecondsEndTheAttempt | src/network/client.rs:1381-1388 | for a peer not connected, a tick ends the attempt if and only if 10 s have passed |
| ChannelTheorems.SilenceEndsTheConnection | src/network/client.rs:1429-1433 | for a connected peer, a tick ends the connection if and only if nothing was received for over 90 s |
| ChannelProgress.OnlyExhaustionFails | src/network/client.rs:1191-1327 | no reachable step returns an error before the sequence counter is used up |
| ChannelProgress.RoundTripConnects | src/network/client.rs:1276-1291 | one READY/READY_ACK round trip that goes through gives the repeating side its acknowledgement and connects it if it lacked nothing else |
| ChannelProgress.OneRoundTripHeals | src/network/client.rs:1419-1428 | a connection only one side knows of is completed by the other side's next successful round trip |
| ChannelDelivery.RepeatedMessageIsDelivered | src/network/client.rs:1449-1480 | a pending message whose next repetition and acknowledgement go through is reported delivered |
| ChannelDelivery.RepeatedInitCompletes | src/network/client.rs:1208-1211 | what the cached RESPONSE is for: an initiator without a transport, facing a responder with one, adopts the common session once one repeated INIT and its RESPONSE go through |
| ChannelUpkeep.HeartbeatIsSent | src/network/client.rs:1434-1440 | a tick of a connected side that goes through sends a heartbeat, under a sequence not used before, if and only if 30 s have passed since the last |
| ChannelSilence.NobodyFallsSilent | src/network/client.rs:1429-1440 | over any stretch of any run: two connected peers that tick at least every `gap` and whose heartbeats arrive within `delay` are not ended for silence, if `gap` and `delay` add up to at most 60 s |
| ChannelUpkeep.HandshakeRepeats | src/network/client.rs:1414-1428 | a tick of an unconnected side that goes through sends exactly: without a transport, INIT or a punch packet every 250 ms; with one, READY every 500 ms |
| ChannelUpkeep.FirstTickSends | src/network/client.rs:342-378 | the first tick after the start sends the handshake packet at once |
| ChannelUpkeep.AsksWhen | src/network/client.rs:1381-1399 | an unconnected side asks for IPv4 on a tick if and only if it uses IPv6, between 3 s and 10 s after its start, and it has not asked within the last second |
| ChannelUpkeep.SayIsAnswered | src/network/client.rs:613-638 | a text is refused as too long, not connected or too many, in this order, with the limits 500, 1024 and 64; otherwise sent at once under the next sequence, announced and due again after 0.5 s |
| ChannelUpkeep.RetransmissionSchedule | src/network/client.rs:1442-1480 | on a tick that goes through a pending message is left alone before its time; in its time it is sent again under a new sequence and due again 1, 2, 4 and 4 s later, or, after its fifth transmission, reported failed |
| ChannelUpkeep.HelloIsJudged | src/network/client.rs:1207-1240 | a first INIT that reads (in a private room: from the same room) is answered at once with RESPONSE and READY; any other ends the attempt |
| ChannelUpkeep.ReplyIsJudged | src/network/client.rs:1241-1260 | a RESPONSE to the own INIT is followed at once by READY; any other ends the attempt |
| ChannelUpkeep.TransportIsJudged | src/network/client.rs:420-439 | a transport packet is taken if and only if its sequence is new, less than 128 below the highest, and it was sealed by the other side under that sequence; then the sequence is used up, even if the plaintext means nothing; otherwise only clocks move |
| ChannelUpkeep.InjectionIsHarmless | src/network/client.rs:1191-1206 | whatever an outsider can put on the wire moves clocks at most, and a punch packet draws one INIT from the initiator |
| Signaling.SignalingServer.CreateRoom | src/bin/server.rs:706-744 | a new private room with its creator, or ROOM_EXISTS and no change |
| Signaling.SignalingServer.CreatePublicRoom | src/bin/server.rs:746-803 | a new public room with the next rank, or ROOM_EXISTS, or PUBLIC_ROOM_LIMIT at 100 |
| Signaling.SignalingServer.JoinRoom | src/bin/server.rs:823-862 | the second peer, its reply and a match timer, or ROOM_NOT_FOUND (also for the other kind of room), or ROOM_FULL |
| Signaling.SignalingServer.LeaveRoom | src/bin/server.rs:864-906 | removal, creator hand-over, a new rank exactly when a member reopens a public room, removal of an empty room, PEER_LEFT to those who stay |
| Signaling.SignalingServer.SendPeers | src/bin/server.rs:682-702 | the loop sends each of two peers the other's endpoint, its own role and the nonce |
| Signaling.SignalingServer.FindRoom | src/bin/server.rs:1094-1097 | the loop stops at the first room, in the table's order, that has the client |
| Signaling.SignalingServer.RegisterUdpAddr | src/bin/server.rs:1086-1148 | stores the endpoint, and selects a family and exchanges when both peers now share one |
| Signaling.SignalingServer.RetryPeerFamily | src/bin/server.rs:652-704 | switches to the family exactly when the room is full, not failed, not already on it and both peers have it |
| Signaling.SignalingServer.RetryPeerConnection | src/bin/server.rs:594-650 | forgets endpoints, selection and failure of a failed full room; PEER_NOT_AVAILABLE when alone; otherwise nothing |
| Signaling.SignalingServer.NotifyP2pDisconnected | src/bin/server.rs:572-592 | latches the failure of a full room once and tells both |
| Signaling.SignalingServer.CleanupExpiredRooms | src/bin/server.rs:1212-1243 | removes exactly the rooms with fewer than two peers that are ten minutes old, and tells their peers |
| Signaling.SignalingServer.SendPublicRooms | src/bin/server.rs:908-947 | collects the public rooms in any order, sorts them and sends one line each between begin and end |
| Signaling.SignalingServer.HandleLine | src/bin/server.rs:412-560 | every command with every refusal, and what it does to the handler's `current_room` |
| Signaling.SignalingServer.Goodbye | src/bin/server.rs:565-569 | the clean-up of a handler whose loop ended |
| ServerCommands.IdsAre32Digits | src/bin/server.rs:430-433 | a room id is 32 hexadecimal digits of either case |
| ServerCommands.ArrivalConnects | src/bin/server.rs:359-382 | a new client is connected, in no room, without announced dual-stack support |
| ServerCommands.CreateMakesARoom | src/bin/server.rs:706-744 | CREATE: the new room with its only member and nonce, its reply, and ROOM_EXISTS otherwise |
| ServerCommands.CreatePublicMakesARoom | src/bin/server.rs:746-803 | CREATE_PUBLIC: the same with the title and the next rank, up to 100 rooms |
| ServerCommands.JoinAdmits | src/bin/server.rs:823-862 | JOIN and JOIN_PUBLIC: the second member, a reply with the nonce of the room and the title, and a timer of 10 s, or the three refusals |
| ServerCommands.RegistrationPairs | src/bin/server.rs:1086-1148 | in every reachable state a registration is confirmed and kept; a full room that has not failed and has no family selected is then paired by a mutual exchange over IPv6 if both have it, failing that over IPv4 if both have that |
| ServerCommands.FallbackHappens | src/bin/server.rs:652-704 | in every reachable state P2P_RETRY 4 in a full, unfailed room on IPv6 whose members both have IPv4 selects IPv4 and sends both a mutual exchange |
| ServerCommands.FallbackElseNothing | src/bin/server.rs:652-704 | in every other case it changes and sends nothing |
| ServerCommands.RetryStartsOver | src/bin/server.rs:594-650 | RETRY_P2P in a failed full room forgets failure, selection and endpoints, asks both to register and arms a timer of 10 s; alone it is told so; otherwise nothing |
| ServerCommands.FailureIsTold | src/bin/server.rs:572-592 | P2P_FAILED marks a full room once and tells both |
| ServerCommands.LeaveHandsOver | src/bin/server.rs:864-906 | in every reachable state LEAVE in a full room leaves the other member as its creator, told so, with nothing selected, ten minutes from now and, in a public room, the next rank |
| ServerCommands.LastLeaveRemoves | src/bin/server.rs:864-906 | the last member takes the room along |
| ServerCommands.HangupForgets | src/bin/server.rs:564-569 | in every reachable state a client that hangs up is in no room and not connected, its room goes with it or passes to the other member, who is told, and no other room changes |
| ServerCommands.SweepRemovesTheOld | src/bin/server.rs:1212-1232 | in every reachable state a sweep removes a room if and only if it has one member and was made, or left by the other, 600 s ago or more |
| ServerCommands.SweepTells | src/bin/server.rs:1212-1232 | and the member of a removed room hears ROOM_EXPIRED |
| ServerCommands.TimeoutTells | src/bin/server.rs:949-977 | who hears of a match time-out, and when |
| ServerCommands.Refusals | src/bin/server.rs:412-560 | rate limits, ALREADY_IN_ROOM, unknown commands: what is said, and that nothing changes |
| ServerCommands.MalformedEntrances | src/bin/server.rs:430-511 | what is wrong with CREATE, CREATE_PUBLIC, JOIN and JOIN_PUBLIC decides what is said, and nothing changes |
| ServerCommands.MalformedCommands | src/bin/server.rs:512-560 | so for further words after any other command |
| ServerRanks.StepKeepsInv | src/bin/server.rs:390-570 | every step of any handler, UDP registration, timer or clean-up keeps the invariant of the server |
| ServerRanks.ReachableInv | src/bin/server.rs:390-1243 | the invariant holds in every reachable state |
| ServerTheorems.EveryRoomIsWellFormed | src/bin/server.rs:114-122 | one or two peers, the creator among them; a selected family is registered by both of two peers; only a full room has failed |
| ServerTheorems.OneRoomPerClient | src/bin/server.rs:390-568 | a client is in one room at most, the one its handler remembers |
| ServerTheorems.RegistrationIgnoresOrder | src/bin/server.rs:1094-1124 | the loop over a hash map with `break` has the same outcome in every order |
| ServerTheorems.TranscriptsAreOrderly | src/bin/server.rs:572-704 | in everything any client is ever sent, between two resets there are at most two exchanges, the second IPv4 after IPv6, at most one P2P_DISCONNECTED and no exchange after it |
| ServerRuns.OrderlyTranscript | src/bin/server.rs:572-704 | what an accepted transcript looks like, line by line |
| ServerTheorems.ExchangesAreMutual | src/bin/server.rs:1126-1147 | each exchange sends exactly one line to each of two members and none to others: one initiator (the creator) and one responder, the other's endpoint in the one selected family, the nonce each was told on entering |
| ServerPairing.LeaveCompletes | src/bin/server.rs:864-906 | leaving keeps every room complete if and only if the client was in the room or there was no pairing to forget |
| ServerPairing.PairingIsComplete | src/bin/server.rs:1086-1121 | with room ids never used again, in every reachable state a full room that is not failed and has no family selected has no family in common |
| ServerCounterexamples.ReusedIdsBreakPairing | src/bin/server.rs:880-882 | with a reused id the previous property fails: a run from the start in which the LEAVE of a stale handler unpairs two peers |
| ServerTheorems.UnavailableMeansNoCommonFamily | src/bin/server.rs:949-977 | a match time-out that reports no common family in a room not marked failed is right |
| ServerCounterexamples.FailedRoomsMayBeMisreported | src/bin/server.rs:949-977 | in a room marked failed the report can be wrong: a run from the start in which both peers have IPv6 and are told they share no family |
| ServerRanks.RankStepKeeps | src/bin/server.rs:754-782 | never more than 100 public rooms; until the counter has moved 2^64 times ranks are distinct and not above it |
| ServerTheorems.PublicRoomsAreBounded | src/bin/server.rs:754-782 | the same in every reachable state, with normalised titles and 32-digit ids |
| PublicList.SortedIsOrdered | src/bin/server.rs:926-935 | the sort puts open rooms first, then newer ranks, and is a permutation |
| PublicList.OrderIsUnique | src/bin/server.rs:926-935 | with distinct ranks there is only one such arrangement |
| PublicList.EveryPublicRoomOnce | src/bin/server.rs:908-925 | every public room is listed exactly once and nothing else is |
| PublicList.ListIgnoresOrder | src/bin/server.rs:908-935 | the list does not depend on the order of the hash map |
| PublicList.CreatedRoomIsFirst | src/bin/server.rs:764-782 | a room just created is first in the list |
| PublicList.ReopenedRoomIsFirst | src/bin/server.rs:864-891 | a full public room that a member leaves is open and first in the list |
| PublicList.ListReader.Handle | src/network/client.rs:1048-1085 | the client's handling of list lines, each malformed one an error that drops the list |
| PublicList.RoomLinesAreJudged | src/network/client.rs:1052-1077 | a room line is taken if and only if a list of fewer than 100 is in progress and the line has an id, a count up to 2 and a title, and then adds that room; otherwise it ends the list with a complaint |
| PublicList.BadListLines | src/network/client.rs:1048-1085 | a list that ends without having begun, and a begin or end with further words, are complaints |
| PublicList.NothingIsInvented | src/network/client.rs:1048-1085 | whatever the lines, no list reported has more than 100 rooms or a room no line announced |
| PublicList.CountsAreRead | src/network/client.rs:1058-1062 | counts are decimal, with or without a plus sign, up to 255 |
| PublicList.ListRoundTrip | src/network/client.rs:1048-1085 | the client reads exactly the list that was sent, whatever other lines come in between, and refuses no line of it |
| PublicList.ListTellsAllRooms | src/bin/server.rs:908-946 | the list tells each public room exactly once, with its id, title and number of members, in the promised order, and nothing else |
| PublicList.PublicListArrives | src/bin/server.rs:908-946 | in every reachable state of the server: from the lines actually sent for LIST_PUBLIC, mixed with any other lines, the client reports exactly the public rooms with their ids, titles and numbers of members, and every line fits in 512 bytes |
| RateLimit.RateLimiter.RateAllow | src/bin/server.rs:1172-1196 | refills, caps, and takes one token or refuses |
| RateLimit.RateLimiter.Evict | src/bin/server.rs:1233-1237 | drops buckets idle for an hour when there are more than 10000 |
| RateLimit.TokensAreConserved | src/bin/server.rs:1182-1195 | what was admitted and what is left came from what was there and what was gained |
| RateLimit.AnyStretchIsBounded | src/bin/server.rs:1172-1196 | in any stretch of any run admissions are at most 20, 10 or 30 plus 2, 1/6 or 1/2 a second |
| RateLimit.RestedSlotsAreAdmitted | src/bin/server.rs:1172-1196 | an address never heard of, or idle for an hour, is admitted its next 20, 10 or 30 calls, whatever else goes on |
| RateLimit.RefusedOnlyWhenUsedUp | src/bin/server.rs:1172-1196 | conversely, a call is refused only if some stretch ending with it has used up that bound less one token |
| RateLimit.WhoSharesABucket | src/bin/server.rs:1198-1210 | two addresses share a bucket if and only if they are the same IPv4 address, mapped or not, or IPv6 addresses in one /64 |
| RateLimit.EvictionIsUnobservable | src/bin/server.rs:1233-1237 | every answer is the same as if no bucket had ever been evicted |
| RateLimit.WhatIsEvicted | src/bin/server.rs:1233-1237 | eviction happens above 10000 buckets and removes exactly those idle for an hour |
| LineReader.ResumableReader.ReadBoundedLine | src/bin/server.rs:1246-1277 | one call of the resumable reader: line, time-out with the buffer kept, end, partial line, too long, not UTF-8 |
| LineReader.ReadBoundedLine | src/network/client.rs:1629-1660 | one call of the client's reader |
| LineReader.CutsDoNotMatter | src/bin/server.rs:392-410 | however time-outs cut the stream, the lines read are those of the whole stream split at LF with CR dropped, up to the same first fault |
| LineReader.ClientAgrees | src/network/client.rs:1629-1660 | the client's reader yields the same lines and fault |
| LineReader.EveryLineIsAccepted | src/bin/server.rs:1246-1277 | every line of up to 512 bytes that is UTF-8 is returned, however its bytes are cut, and the lines after it are those of the rest |
| LineReader.SentTextIsAccepted | src/bin/server.rs:1246-1277 | so every text of up to 512 bytes without CR and LF arrives as it was sent |
| LineReader.FirstFault | src/bin/server.rs:1246-1277 | what ends a session: text that is not UTF-8, more than 512 bytes, the end of the stream within a line or between lines |
| LineReader.LinesAreBounded | src/bin/server.rs:1264-1269 | no line has more than 512 bytes or contains CR or LF |

## Left out

- One life of a peer: the `PEER` arm of the client replaces its peer without `fail_pending` (src/network/client.rs:982-985) and ids restart at 1, so accounts and ids are those of one `SecurePeer`; packets of an earlier pairing at the same address are not modelled.
- Failing local sends: `udp.send_to` is taken to succeed, so a handler fails only for the reasons `Encrypt` and the parsers give.
- What follows a handler's error: a peer whose handler failed does nothing more; the `fail_pending` the client then runs is not a step, and accounts are claimed only while no handler has failed.
- ChannelTheorems.ForgottenAfter512: about the handler and the table alone; `ChannelCounterexample.DeliveredTwice` is the complete run.
- ServerPairing.PairingIsComplete: assumes that a room id is not used again after its room is removed, which random 128-bit ids make likely and the server does not enforce.
- RateLimit.AnyStretchIsBounded: over exact reals; the rounding of `f64` is not modelled.
- The event `MessageReceived` carries the id of the message in the model and only the text in the client.
- Delivery is a statement about the network layer; the user interface may drop messages that arrive before it has seen `PeerConnected`.
- Authentication of UDP registrations (challenge, HMAC, expiry): any endpoint may be registered for any client id at any time, which includes every authenticated registration; the UDP datagrams PROBE and REGISTER themselves are not parsed.
- The insides of Noise, HMAC, SHA-256 and random numbers; client ids are taken to be new.
- The HELLO and PING lines, missed heartbeats, connection limits, and the order in which lines for different clients leave after the lock is released; a step's lines belong to the step.
- Splitting a client's command line into words: `HandleLine` takes the words. The connection between the rate limiter and the server: its answers are inputs of `HandleLine`.
- Agreement of the client's idea of its room with the server's, and the client's handling of server lines other than the list.
- Wire forms of addresses, and so of the PEER line; handshake packets and sealed packets are symbolic, their plaintexts are bytes.
- TLS, DNS, sockets, logging, environment variables, the launcher and renderer, and the user interface.
