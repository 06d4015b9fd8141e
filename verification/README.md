# NexusRoom verification model

A Dafny 4.11 model of the stateful core of NexusRoom, the Go server with its chat hub, voice
engine and live streaming, and of the parts of the Flutter client that have to agree with it.
`dafny verify dfyconfig.toml` checks all of it.

Code that changes things in place is modelled by classes and loops (`Entry`, `Muxer`,
`WsService`, `Hub`, `Engine`, `MessagesDao`, `Coordinator`, ...). Each method is proved against a
specification function on values, and the results are lemmas about all runs of those functions.
Decoders, private queues and run functions are pure.

| file | subject |
|---|---|
| `StreamRegistry`, `StreamFanOut`, `StreamLink` | live-stream registry: entries, bounded channels, every interleaving of its two-step calls, and the link from the registry object to that run machine |
| `FlvFormat`, `HttpFlv`, `EndToEnd` | FLV muxer and demuxer (sections E.2 to E.4 of the Adobe FLV specification 10.1, section 5.2.4.1 of ISO/IEC 14496-15), the HTTP-FLV loop, and its composition with the registry |
| `AnnexB` | Annex B byte streams (sections B.1.1, B.1.2 and 7.4.1 of ITU-T H.264) and sample timing |
| `Adts` | AudioSpecificConfig and ADTS (sections 1.6.2.1 and 1.A.2.2 of ISO/IEC 14496-3) |
| `WsClient`, `Hub`, `ChatProtocol`, `ChatJoins`, `ChatRuns`, `ChatTypes` | chat delivery: client calls, hub, breakable first-in first-out links, message log; room confirmations and their shared completers; runs that reach the failures |
| `VoiceSignaling`, `VoiceRooms`, `VoiceTracks`, `VoiceMembers` | renegotiation of one voice peer (section 3.2 of RFC 8829, section 4 of RFC 3264), the forwarding rooms, which track each member gets, and each member as a peer of its own |
| `MessageSync`, `MessageRuns` | paged history queries, the local cache and the sync loop; the cache over runs of late or lost broadcasts and interleaved syncs |
| `Vlan`, `LiveRooms` | address allocation with peer registration; grouping of live streams |
| `VoiceActivity`, `OnlineUsers` | speaking detector; revision-guarded online set |
| `Bytes`, `Text`, `MediaTypes` | shared helpers and values |

Where a promise of the design does not hold of the code, the code is modelled as it is, and a
theorem over all inputs or all runs says exactly when it holds. Where that takes a run to reach,
a run is given as well:

- An FLV tag body of 2^24 bytes or more is written with a truncated length (`FlvFormat.TagRoundTrip`).
- An Annex B stream splits back only for separable NAL lists (`AnnexB.AnnexBRoundTrip`).
- `syncLatest` with a page size over 100 stops after the server's 50 messages
  (`MessageSync.SyncCompleteness`). A later sync never fills a gap below the cached
  maximum (`MessageSync.SyncFillsSuffix`). A gap is a message leapt over by a broadcast, or by the
  first page of a sync of an empty cache, and neither heard nor fetched since
  (`MessageRuns.GapFreeIff`, `MessageRuns.MissingUntilHeard`, `MessageRuns.LateArrivalExample`).
- A chat call that times out or loses its connection may have stored its message, exactly if
  the server kept the last one it handed over (`ChatProtocol.StoredIffLastKept`), which the client
  cannot tell (`ChatRuns.UnconfirmedTellsNothing`). One refused with `sender_lookup_failed` has
  stored it (`ChatProtocol.FailureMeaning`, `ChatRuns.RefusedButStored`).
- Calls waiting for the same room share a completer that the first time-out takes away: the
  others then miss the confirmation (`ChatJoins.SharedJoinTimeout`, `ChatRuns.SharedJoinRun`).
- Requests during one voice offer make a second follow-up offer when the task of an earlier one is
  still scheduled (`VoiceSignaling.RequestsCoalesce`, `VoiceSignaling.TwoFollowUpsRun`).
- A renegotiation request can be lost after a fault (`VoiceSignaling.LostIff`,
  `VoiceMembers.MemberForgottenIff`, `VoiceMembers.ForgottenRun`).
- A publisher's second track does not reach members that hear the first (`VoiceTracks.SecondTrackIff`,
  `VoiceTracks.TrackReaches`, `VoiceTracks.SecondTrackRun`), and the close callback of an old peer
  removes its user's new peer if there is one (`VoiceRooms.LateCloseRemovesNewPeer`,
  `VoiceRooms.LateCloseRun`).
- An older online snapshot can win (`OnlineUsers.OlderSnapshotWins`,
  `OnlineUsers.OlderSnapshotExample`); the comment above the provider says only that newer changes
  are not overwritten, which holds for events.
- A live VLAN peer loses its device entry exactly when another call displaces it
  (`Vlan.OnDeviceIff`, `Vlan.JoinedStayOnDeviceIff`, `Vlan.SharedKeyDisplaces`). While peers
  only register, any two rooms in use share an address (`Vlan.RoomsShareIff`,
  `Vlan.AddressesUniqueIff`), and the device routes it to the later peer only
  (`Vlan.DistinctKeysIff`, `Vlan.CrossRoomExample`). A prefix longer than /24 has hosts outside the
  subnet (`Vlan.HostsInSubnet`).

Assumptions. Inputs of a step stand for what the model cannot see: the outcome of database,
network and WebRTC calls, time-outs, the order in which a `select` or a goroutine is picked, the
order in which a map is walked. Client message ids are unique. Message ids grow in the order of
insertion, and a page shows every message stored before it. A WireGuard device routes an address
to the peer it was given to last. The links of the chat model neither reorder nor duplicate, may
lose everything beyond any point when they break, and never recover.

## Model

| member | source | states |
|---|---|---|
| `StreamRegistry.CloneFrame` | server/internal/media/stream/registry.go:323-330 | the published frame is a deep copy: reusing the publisher's NAL buffers cannot change it |
| `StreamRegistry.Entry.Publish` | server/internal/media/stream/registry.go:198-251 | refused on a closed entry; on an open one counts the bytes modulo 2^64 and offers the packet to the matching lane of every live subscriber and to nothing else |
| `StreamRegistry.Entry.PublishFrame` | server/internal/media/stream/registry.go:198-218 | what subscribers get is what the NAL buffers held at the call, copied; nothing else is kept of the buffers |
| `StreamRegistry.Entry.PublishAudio` | server/internal/media/stream/registry.go:220-235 | the same for the payload of an audio unit |
| `StreamRegistry.Entry.PublishOpus` | server/internal/media/stream/registry.go:237-251 | the same for an Opus packet with its RTP sequence number, timestamp and marker |
| `StreamRegistry.Entry.FanOut` | server/internal/media/stream/registry.go:208-215 | the loop over the subscriber map, in any order, equals the simultaneous offer to all of them |
| `StreamRegistry.Subscriber.Send` | server/internal/media/stream/registry.go:209-214 | a full channel drops the newest packet; the call needs to know that the channel is open |
| `StreamRegistry.Entry.Subscribe` | server/internal/media/stream/registry.go:253-293 | a fresh id with three open, empty channels of 256, 512 and 256, the configuration and whether Opus is available; no channels on a closed entry |
| `StreamRegistry.Entry.CloseSubscription` | server/internal/media/stream/registry.go:280-291 | closes the three channels only while the id is still in the map, so a second close does nothing |
| `StreamRegistry.Entry.Shutdown` | server/internal/media/stream/registry.go:309-321 | closes every live subscription once and leaves a closed entry without subscribers |
| `StreamRegistry.Entry.Receive` | server/internal/media/stream/registry.go:209-247 | a reader takes the oldest buffered packet, also from a closed channel |
| `StreamRegistry.Registry.Start` | server/internal/media/stream/registry.go:87-107 | replaces the entry of the key and shuts the previous one down |
| `StreamRegistry.Registry.StartSwap` | server/internal/media/stream/registry.go:100-103 | the half of Start under the registry lock: the key points at a new, empty, open entry |
| `StreamRegistry.Registry.Stop` | server/internal/media/stream/registry.go:142-152 | removes the key and shuts its entry down |
| `StreamRegistry.PublishKeepsInv` | server/internal/media/stream/registry.go:198-251 | publishing never sends on a closed channel and never overfills one |
| `StreamRegistry.ShutdownKeepsInv` | server/internal/media/stream/registry.go:309-321 | shutting down closes each channel exactly once |
| `StreamFanOut.ChannelLifetime` | server/internal/media/stream/registry.go:87-172 | over every interleaving of the two-step calls: channels are open exactly while their id is in the map, no send follows a close, no channel closes twice, and every open entry is current for its key or owned by a Start or Stop in flight |
| `StreamFanOut.FanOutRefinesPrivateQueues` | server/internal/media/stream/registry.go:198-293 | in every run each subscriber's received packets, buffer and closed flag are those of a private bounded drop-newest queue fed with the packets accepted since it subscribed |
| `StreamFanOut.DeliveredInOrder` | server/internal/media/stream/registry.go:208-215 | a private queue delivers the offered packets at strictly increasing positions |
| `StreamFanOut.LosslessIffNoOverflow` | server/internal/media/stream/registry.go:208-215 | it delivers all of them if and only if no offer found the buffer full |
| `StreamFanOut.SubscriberSeesAcceptedPackets` | server/internal/media/stream/registry.go:198-293 | the three facts together for any subscriber of any run |
| `StreamFanOut.UnaffectedByOthers` | server/internal/media/stream/registry.go:208-293 | removing every take and close of other subscribers from a run changes nothing for this one |
| `StreamLink.StartSwap` | server/internal/media/stream/registry.go:100-103 | the registry object and the entries it ever started go the step that the run machine takes: the key moves to the new last entry |
| `StreamLink.StopSwap` | server/internal/media/stream/registry.go:142-152 | the same for taking a key out |
| `StreamLink.Publish` | server/internal/media/stream/registry.go:198-251 | publishing on any entry ever started is the step of the machine: no other entry changes |
| `StreamLink.Subscribe` | server/internal/media/stream/registry.go:253-293 | the same for a subscription |
| `StreamLink.CloseSubscription` | server/internal/media/stream/registry.go:280-291 | the same for its close closure |
| `StreamLink.Shutdown` | server/internal/media/stream/registry.go:309-321 | the same for the second half of Start and Stop |
| `StreamLink.Take` | server/internal/media/stream/registry.go:209-247 | the same for one receive of a reader |
| `FlvFormat.TagRoundTrip` | server/internal/media/flv/muxer.go:82-98 | a tag reads back, PreviousTagSize included, if and only if its body is shorter than 2^24 bytes (the length is truncated without a check) |
| `FlvFormat.NalListRoundTrip` | server/internal/media/flv/muxer.go:75-78 | the length-prefixed NAL list parses back to the same NAL units |
| `FlvFormat.CompositionSurvives` | server/internal/media/flv/muxer.go:73-74 | the composition time survives if and only if it fits a signed 24-bit field |
| `FlvFormat.TimestampSurvives` | server/internal/media/flv/muxer.go:79-87 | the millisecond timestamp survives if and only if it is a non-negative 32-bit number |
| `FlvFormat.AvcRecordRoundTrip` | server/internal/media/flv/muxer.go:37-42 | the AVC decoder configuration record gives back SPS and PPS |
| `FlvFormat.ItemRoundTrip` | server/internal/media/flv/muxer.go:52-80 | the body of one frame or audio unit decodes to its kind, NAL units or payload, and times |
| `FlvFormat.FlvRoundTrip` | server/internal/media/flv/muxer.go:20-98 | a demuxer recovers from the header and any sequence of writes the SPS, PPS and AAC configuration and every non-empty frame and audio unit in order |
| `HttpFlv.PutUint24` | server/internal/media/flv/muxer.go:100-104 | writes the low 24 bits big-endian into three bytes of the buffer and nothing else |
| `HttpFlv.FrameSize` | server/internal/media/flv/muxer.go:106-112 | the precomputed size is the length of the NAL list |
| `HttpFlv.Muxer.WriteTag` | server/internal/media/flv/muxer.go:82-98 | writes the tag, or on a broken connection exactly the prefix that fitted |
| `HttpFlv.Muxer.WriteHeader` | server/internal/media/flv/muxer.go:20-50 | refuses a configuration the format cannot carry before anything is written; otherwise writes the header or a prefix of it |
| `HttpFlv.Muxer.WriteFrame` | server/internal/media/flv/muxer.go:62-80 | skips a frame without NAL units; otherwise writes its tag or a prefix |
| `HttpFlv.Muxer.WriteAudio` | server/internal/media/flv/muxer.go:52-60 | skips an empty unit; otherwise writes its tag or a prefix |
| `HttpFlv.ProxyStream` | server/internal/api/handler/ingress.go:211-247 | for any connection and any order of selects: what was sent is the response for the selects taken, or a prefix of it if the connection broke |
| `HttpFlv.RelayOne` | server/internal/api/handler/ingress.go:219-246 | one round of the loop extends the response by exactly the forwarded input, gated by the first keyframe and the audio configuration |
| `HttpFlv.ForwardedAppend` | server/internal/api/handler/ingress.go:226-245 | a select adds to the output if and only if a keyframe has been seen or is it |
| `HttpFlv.ResponseDecodes` | server/internal/api/handler/ingress.go:211-247 | a player decodes the response to the configuration and exactly the forwarded frames and audio |
| `EndToEnd.TakenAddsUp` | server/internal/api/handler/ingress.go:218-236 | whatever the order of the selects, the packets taken of each kind are those the channel of that kind handed out, in its order |
| `EndToEnd.TakenWasAccepted` | server/internal/media/stream/registry.go:198-251 | a reader never takes a packet its entry did not accept while it was subscribed |
| `EndToEnd.VideoIsIndependentOfOrder` | server/internal/api/handler/ingress.go:217-235 | the frames forwarded depend only on the video channel: they are its frames from the first keyframe on |
| `EndToEnd.PlayerSeesThePublisher` | server/internal/api/handler/ingress.go:197-248 | registry and HTTP-FLV composed: over every interleaving the viewer's player decodes the entry's configuration and the viewer's own frames from the first keyframe on, with no audio when the source announced none |
| `AnnexB.AnnexBRoundTrip` | server/internal/media/rtcplay/engine.go:307-327 | splitting the byte stream on start codes returns the NAL list if and only if every unit is non-empty, holds no 00 00 00 or 00 00 01, and all but the last do not end in 00 |
| `AnnexB.Annexb` | server/internal/media/rtcplay/engine.go:307-327 | SPS and PPS first on a keyframe, then the NAL units, each behind a start code; the output has the precomputed size |
| `AnnexB.NalLengthExact` | server/internal/media/rtcplay/engine.go:322-325 | the splitter finds the end of a unit exactly when the unit hides no stop and does not run into one |
| `AnnexB.WriteStream` | server/internal/media/rtcplay/engine.go:265-286 | samples start at the first keyframe, one per frame, until the track fails; each duration is the decode-time difference or a thirtieth of a second |
| `AnnexB.DurationsTelescope` | server/internal/media/rtcplay/engine.go:276-280 | with increasing decode times the durations add up to the elapsed decode time plus the first thirtieth |
| `AnnexB.SampleSplits` | server/internal/media/rtcplay/engine.go:281-282 | a sample splits back into SPS, PPS and the frame's NAL units under the same exact condition |
| `Adts.ConfigRoundTrip` | server/internal/media/audiotranscode/aac_opus.go:169-188 | a configuration is accepted exactly for object types 1-4, rate indices up to 12 and channel configurations 1-7, with the announced fields |
| `Adts.FieldsDoNotOverlap` | server/internal/media/audiotranscode/aac_opus.go:198-198 | header byte 2: the or of the shifted fields is their sum |
| `Adts.LengthDoesNotOverlap` | server/internal/media/audiotranscode/aac_opus.go:199-201 | header bytes 3 to 5: the shifted and masked parts of channels and 13-bit length are disjoint, and their or is their sum |
| `Adts.ConfigFieldsDoNotOverlap` | server/internal/media/audiotranscode/aac_opus.go:173-181 | the shifts and masks that read object type, rate index and channels are the divisions and remainders of the parser |
| `Adts.Header` | server/internal/media/audiotranscode/aac_opus.go:190-204 | a header exists if and only if the unit has at most 8184 bytes |
| `Adts.HeaderRoundTrip` | server/internal/media/audiotranscode/aac_opus.go:190-204 | the header parses back to the configuration and the 13-bit frame length |
| `Adts.AdtsRoundTrip` | server/internal/media/audiotranscode/aac_opus.go:108-217 | the stream of any list of units of 1 to 8184 bytes parses by its frame lengths to the same units with the profile, rate index and channels of the AudioSpecificConfig |
| `Adts.WriteAll` | server/internal/media/audiotranscode/aac_opus.go:206-218 | for any short writes it ends, has emitted everything on success and a known prefix on an error or on no progress |
| `Adts.AacToOpus.Write` | server/internal/media/audiotranscode/aac_opus.go:108-125 | empty units are skipped, closed and oversized ones refused untouched; otherwise the pipe gains the frame or a prefix of it |
| `Adts.AacToOpus.Feed` | server/internal/media/rtmp/server.go:185-194 | the publisher writes every access unit whatever became of the earlier ones: as long as the pipe takes the frames its content parses back to exactly the units of 1 to 8184 bytes; after a failure of the pipe it begins with the stream up to there; Opus stays available exactly if every write succeeded |
| `WsClient.WsService.HandleMessage` | client/lib/core/network/ws_service.dart:490-613 | messages of an older generation are ignored; `connected` clears confirmations and re-requests every joined room in order; confirmations and refusals reach exactly the calls waiting for them |
| `WsClient.WsService.HandleLost` | client/lib/core/network/ws_service.dart:207-253 | a loss of the current connection fails every pending chat and clears the confirmations; an older one changes nothing |
| `WsClient.WsService.Disconnect` | client/lib/core/network/ws_service.dart:274-294 | bumps the generation, forgets the rooms and fails pending chats and joins |
| `WsClient.WsService.Open` | client/lib/core/network/ws_service.dart:143-205 | a new generation starts in the connecting state |
| `WsClient.WsService.WaitUntilConnected` | client/lib/core/network/ws_service.dart:427-440 | goes on once connected, throws when no connection is wanted, and waits otherwise |
| `WsClient.WsService.EnsureRoomJoined` | client/lib/core/network/ws_service.dart:308-327 | after the wait for the connection: returns at once in a confirmed room, otherwise waits on the completer of the room, made if there is none, and asks to join if it can |
| `WsClient.WsService.StartCall` | client/lib/core/network/ws_service.dart:302-315 | a joinRoom or sendChat call adds its room and begins to wait for the connection |
| `WsClient.WsService.SendChatOnce` | client/lib/core/network/ws_service.dart:393-419 | hands the message over under a new id, or throws without sending |
| `WsClient.WsService.ResumeSendChat` | client/lib/core/network/ws_service.dart:348-363 | returns when confirmed; tries a second time only after a first not_in_room; otherwise throws |
| `WsClient.WsService.LeaveRoom` | client/lib/core/network/ws_service.dart:329-338 | forgets the room and fails the calls waiting for it |
| `WsClient.WsService.Timeout` | client/lib/core/network/ws_service.dart:319-326 | a call that times out throws; one that waited for a room takes its completer out of the map if it is still the registered one |
| `ChatJoins.SharedJoinTimeout` | client/lib/core/network/ws_service.dart:308-327 | in every run: when the confirmation of the room reaches the current connection, a waiting call goes on if and only if no call that shares its completer has timed out since it began to wait; the room counts as confirmed either way |
| `ChatJoins.CompletersHold` | client/lib/core/network/ws_service.dart:316-325 | in every run different rooms have different completers and a call waits on one made for its room |
| `ChatRuns.SharedJoinRun` | client/lib/core/network/ws_service.dart:308-327 | a run that reaches the failure: two calls for one room, the first times out, the join is confirmed, and the second still waits |
| `Hub.Hub.RegisterClient` | server/internal/ws/hub.go:93-96 | the newest registration becomes the user's entry |
| `Hub.Hub.UnregisterClient` | server/internal/ws/hub.go:107-137 | removes and announces the user only if the entry is this very connection; closes its channel at most once |
| `Hub.LatestConnectionWins` | server/internal/ws/hub.go:93-125 | over any interleaving the entry is the latest registered connection unless that connection was unregistered since |
| `Hub.StaleUnregisterIsSilent` | server/internal/ws/hub.go:116-137 | a stale unregister changes no entry and announces no departure |
| `Hub.CleanupSparesReconnected` | server/internal/ws/hub.go:147-179 | the delayed peer removal is skipped exactly if the user's latest connection is in force and in the room |
| `Hub.SendClosesOnce` | server/internal/ws/client.go:361-389 | a Send channel is closed once if its connection was unregistered or overflowed, and never otherwise |
| `ChatProtocol.AtMostOnce` | client/lib/core/network/ws_service.dart:340-419 | over all runs with breaks, reconnects and account changes, two stored messages of one sendChat call are the same message |
| `ChatProtocol.ConfirmedMeansStored` | client/lib/core/network/ws_service.dart:348-357 | a call that returns normally has stored exactly one message, with its room and content, its type in normal form and the account it was sent from |
| `ChatProtocol.StoredIffLastKept` | server/internal/ws/hub.go:303-318 | a call has stored its message if and only if the server accepted the last one it handed over |
| `ChatRuns.UnconfirmedTellsNothing` | client/lib/core/network/ws_service.dart:405-418 | two runs that end in the same client state with the same unconfirmed call, whose message is stored in one and not in the other |
| `ChatRuns.RefusedButStored` | server/internal/ws/hub.go:303-318 | a run in which a call is refused with sender_lookup_failed and its message is stored |
| `ChatProtocol.FailureMeaning` | client/lib/core/network/ws_service.dart:348-419 | a call that was not sent stored nothing; a refused one stored its message if and only if the reason is sender_lookup_failed |
| `ChatProtocol.StoredMeansSent` | server/internal/ws/hub.go:294-308 | every stored message is the one some call sent, with the account of its connection |
| `ChatProtocol.StoredMessagesAreValid` | server/internal/ws/hub.go:263-308 | the log only grows, and everything in it has one of the three types in normal form, some content, and no more bytes of it than the type allows |
| `ChatProtocol.BroadcastReaches` | server/internal/ws/hub.go:192-205 | a chat broadcast reaches an unbroken connection exactly if it is its user's latest one, still registered, and in the room |
| `ChatProtocol.HubFollows` | server/internal/ws/hub.go:90-145 | the hub inside the protocol goes through a run of the hub machine, so latest-connection-wins applies to it |
| `ChatJoins.ConfirmedRoomsAreJoined` | client/lib/core/network/ws_service.dart:490-542 | a room a connected client takes for confirmed is one the server let this very connection into |
| `ChatJoins.SendsFollowJoins` | client/lib/core/network/ws_service.dart:340-349 | no call hands its message over before some connection of its device was let into the room |
| `ChatProtocol.ReceiveKeeps` | server/internal/ws/client.go:183-265 | the invariant behind these results survives every message the server handles |
| `ChatProtocol.DeliverKeeps` | client/lib/core/network/ws_service.dart:490-613 | and every message a client handles |
| `VoiceSignaling.Peer.RenegotiatePeer` | server/internal/media/voice/engine.go:478-496 | an offer goes out only from the stable state of a live peer; otherwise the wish is remembered |
| `VoiceSignaling.Peer.TakeAnswer` | server/internal/media/voice/engine.go:165-186 | an answer counts only against an outstanding offer and schedules the remembered renegotiation |
| `VoiceSignaling.Peer.TakeOffer` | server/internal/media/voice/engine.go:135-163 | a client offer is refused while a server offer is outstanding; a failed answer leaves the remote offer pending |
| `VoiceSignaling.OneOfferOutstanding` | server/internal/media/voice/engine.go:478-496 | offers exceed answers by one exactly while an offer is outstanding, and never by more |
| `VoiceSignaling.LostIff` | server/internal/media/voice/engine.go:165-186 | in any run a live peer's renegotiation request is lost if and only if some event lost it (asked with a remote offer pending, or offer creation failed, and no task left) and no offer has been created since |
| `VoiceSignaling.NothingLostWithoutFaults` | server/internal/media/voice/engine.go:478-496 | while offers and answers can be created no request is ever lost |
| `VoiceSignaling.LostExample` | server/internal/media/voice/engine.go:150-186 | after a failed answer, a request and a second client offer the peer is stable with a flag that nothing will read |
| `VoiceSignaling.NoOfferMeanwhile` | server/internal/media/voice/engine.go:478-487 | with any number of tasks scheduled: while an offer is outstanding nothing short of its answer or the end of the peer creates another; scheduled tasks are used up, and a request, or a task that runs, is remembered |
| `VoiceSignaling.AnswerSchedules` | server/internal/media/voice/engine.go:165-186 | the answer schedules exactly one task if an offer is wanted and none otherwise; the next task makes one offer, and nothing else is left to do exactly if it was the only one |
| `VoiceSignaling.TasksMakeOffers` | server/internal/media/voice/engine.go:478-496 | scheduled tasks make at least one offer, at least two if there are two or more, and at most one each, in whatever order they and the answers come |
| `VoiceSignaling.TasksInTurn` | server/internal/media/voice/engine.go:478-496 | a stable peer can always wind down, and one offer for each task can be made |
| `VoiceSignaling.RequestsCoalesce` | server/internal/media/voice/engine.go:165-186 | any positive number of requests during one outstanding offer makes exactly one follow-up offer if and only if no earlier task is still scheduled when the answer comes; with one left over there are at least two, and at most one more than were left over |
| `VoiceSignaling.TwoFollowUpsRun` | server/internal/media/voice/engine.go:165-186 | a run from a new peer in which the requests of one offer end in two follow-up offers |
| `VoiceRooms.ForwardingMatrix` | server/internal/media/voice/engine.go:237-476 | in every run of whole operations a member has a sender for exactly the other members whose present peer has published a track |
| `VoiceRooms.RoomsAreTidy` | server/internal/media/voice/engine.go:237-353 | rooms are non-empty, tracks belong to members, members are not closed, and nobody is muted and speaking |
| `VoiceRooms.TracksArePublished` | server/internal/media/voice/engine.go:392-398 | the track map holds exactly the members whose present peer registered a track |
| `VoiceRooms.NoMemberForgotten` | server/internal/media/voice/engine.go:237-496 | each member has at most one offer outstanding, and without faults none waits for a renegotiation that will not come; with faults see `MemberForgottenIff` |
| `VoiceRooms.SenderChangesAreAnnounced` | server/internal/media/voice/engine.go:267-275 | a member's senders never change without a renegotiation request to it in the same operation |
| `VoiceTracks.SecondTrackIff` | server/internal/media/voice/engine.go:385-451 | in every run a member is sent another track of a publisher than the room's entry if and only if the publisher's present peer registered a track when the member's present peer was already sent one |
| `VoiceTracks.OthersAreSentTheEntry` | server/internal/media/voice/engine.go:385-451 | a member that was never overtaken so is sent exactly the room's entry |
| `VoiceTracks.TrackReaches` | server/internal/media/voice/engine.go:407-410 | the next track of a publisher becomes the room's entry and reaches a member if and only if the publisher's present peer has published none; otherwise the member stays on the old one |
| `VoiceTracks.RunsAreNumbered` | server/internal/media/voice/engine.go:385-410 | in every run a new track is one that nobody is sent yet |
| `VoiceTracks.SecondTrackRun` | server/internal/media/voice/engine.go:385-410 | two members join and one registers twice: the other is left on the first track |
| `VoiceMembers.MembersArePeers` | server/internal/media/voice/engine.go:126-186 | in every run the signalling of each member is a run of the single-peer machine, so every result about that machine holds of every member |
| `VoiceMembers.MemberForgottenIff` | server/internal/media/voice/engine.go:165-186 | with any faults a member waits for a renegotiation that will not come if and only if one of its signals lost the request and no offer to it has been created since |
| `VoiceMembers.ForgottenRun` | server/internal/media/voice/engine.go:126-186 | a run of the engine that ends with such a member |
| `VoiceRooms.LateCloseRemovesNewPeer` | server/internal/media/voice/engine.go:326-331 | in every run the close callback of peer object `pid` removes a different peer if and only if the user has a peer in the room that is not `pid` |
| `VoiceRooms.LateCloseRun` | server/internal/media/voice/engine.go:326-331 | any run with a member can be continued so that this happens: the user leaves, comes back, and the old callback arrives |
| `VoiceRooms.LeaveChangesIff` | server/internal/media/voice/engine.go:237-277 | leaving changes something exactly if the user has a peer in the room |
| `VoiceRooms.PidsAreUnique` | server/internal/media/voice/engine.go:307-353 | in every run a pid stands for one peer object |
| `VoiceRooms.Engine.PeerClosed` | server/internal/media/voice/engine.go:326-331 | the callback acts on its room and user and not on its own peer object |
| `VoiceRooms.Engine.LeaveRoom` | server/internal/media/voice/engine.go:237-277 | removes the peer and its track, its senders at all other members, and an empty room, and renegotiates the others |
| `VoiceRooms.Engine.LeaveAll` | server/internal/media/voice/engine.go:279-291 | leaving room by room equals leaving all rooms of the user at once |
| `VoiceRooms.Engine.CloseAll` | server/internal/media/voice/engine.go:293-305 | leaves no room |
| `VoiceRooms.Engine.HandleOffer` | server/internal/media/voice/engine.go:126-163 | every branch: empty offer, failed creation, refused offer (a peer created for it leaves again), first offer with the existing tracks, failed answer |
| `VoiceRooms.Engine.AddExistingTracks` | server/internal/media/voice/engine.go:436-451 | adds every track but the peer's own, once |
| `VoiceRooms.Engine.RegisterTrack` | server/internal/media/voice/engine.go:385-410 | only the current peer object of the user registers a track; every other member gets it and is renegotiated |
| `VoiceRooms.Engine.Mute` | server/internal/media/voice/engine.go:212-224 | muting ends speaking |
| `MessageSync.ReverseInPlace` | server/internal/repository/message.go:53-55 | swaps the slice into reverse order in place |
| `MessageSync.NewestFirstReversed` | server/internal/repository/message.go:43-75 | newest first with a limit, then reversed, is the last entries in ascending order |
| `MessageSync.MessageStore.GetMessages` | server/internal/api/handler/message.go:25-74 | membership, the clamped limit and the choice between after, before and latest |
| `MessageSync.PageHoldsTheGreatest` | server/internal/repository/message.go:43-75 | a before or latest page holds, ascending, exactly the greatest eligible ids, as many as the limit allows |
| `MessageSync.PagesTileTheLog` | server/internal/repository/message.go:43-58 | chaining before_id from each page's first id tiles the room's log without gap or repeat |
| `MessageSync.MessagesDao.GetLatestMessageId` | client/lib/core/db/daos/messages_dao.dart:27-39 | the greatest cached id of the room, server and account, if any |
| `MessageSync.MessagesDao.UpsertMessages` | client/lib/core/db/daos/messages_dao.dart:41-46 | writes the rows in order, keyed by scope and id |
| `MessageSync.SyncLatest` | client/lib/features/room/data/message_repository.dart:13-49 | the loop ends, and the cache has gained exactly the fetched messages |
| `MessageSync.SyncPage` | client/lib/features/room/data/message_repository.dart:21-47 | one round: a page extends what was fetched, a short or empty one completes it, a full one moves the cursor up |
| `MessageSync.SyncCompleteness` | client/lib/features/room/data/message_repository.dart:13-49 | the cache gains every message newer than its maximum if and only if the page size is at most 100 or at most 50 are newer; an empty cache gains the latest page; other rooms, servers and accounts are untouched |
| `MessageSync.SyncFillsSuffix` | client/lib/features/room/data/message_repository.dart:13-49 | the cache ends as a suffix of the room's log if and only if it had no gap and nothing newer was left behind |
| `MessageRuns.MissingIff` | client/lib/core/network/ws_service.dart:581-600 | over any run in which messages are stored, broadcasts arrive late, in any order or never, and any number of syncs interleave page by page: a message is missing between two cached ones if and only if some event leapt over it and neither its broadcast nor a page has brought it since |
| `MessageRuns.GapFreeIff` | client/lib/core/network/ws_service.dart:581-600 | the cache of a room has no gap if and only if every message that was ever leapt over has been heard or fetched since |
| `MessageRuns.StepMisses` | client/lib/features/room/data/message_repository.dart:17-47 | one step: a broadcast or the page of a sync that began with an empty cache may leap over a message; a later page never does |
| `MessageRuns.RunIsSound` | client/lib/features/room/data/message_repository.dart:17-47 | in every run the cursor of each sync is the id of a cached message and its page skips no stored message of the room |
| `MessageRuns.MissingUntilHeard` | client/lib/features/room/data/message_repository.dart:17-47 | a missing message that no sync under way can still ask for reaches the cache if and only if its own broadcast does, whatever follows |
| `MessageRuns.QuietSync` | client/lib/features/room/data/message_repository.dart:13-49 | a sync that nothing disturbs ends after some rounds and has added exactly what SyncLatest adds |
| `MessageRuns.LiveThenSync` | client/lib/features/room/data/message_repository.dart:13-49 | after any run an undisturbed sync leaves a suffix of the room's log if and only if every message ever leapt over has been heard or fetched and the page size leaves nothing newer behind |
| `MessageRuns.LateArrivalExample` | client/lib/core/network/ws_service.dart:581-600 | a run that leaps over a message, and its late broadcast closing the gap |
| `MessageRuns.SyncCatchesUpExample` | client/lib/core/network/ws_service.dart:581-600 | a run that leaps over a message which a sync begun before then fetches |
| `Vlan.Coordinator.AllocateIP` | server/internal/wg/coordinator.go:261-304 | the lowest host from .2 to .254 that is neither used in the room nor the gateway, and none exactly when all are taken |
| `Vlan.LowestFree` | server/internal/wg/coordinator.go:293-303 | its answer is free, everything below it is used, and it fails exactly when everything is used |
| `Vlan.Coordinator.RegisterPeer` | server/internal/wg/coordinator.go:307-348 | an existing row keeps its address and takes the new key; a new row gets the allocated address; the device follows |
| `Vlan.Coordinator.UnregisterPeer` | server/internal/wg/coordinator.go:351-359 | removes the row and the device entry of its key |
| `Vlan.AllocationOverRuns` | server/internal/wg/coordinator.go:261-359 | for serial calls in any number of rooms: addresses within a room are pairwise distinct, allocatable and never the gateway, and every device entry is backed by a row |
| `Vlan.OnDeviceIff` | server/internal/wg/coordinator.go:307-433 | in every run over any rooms and keys a live peer is on the device with its own address if and only if some call wrote its entry and no later call displaced it |
| `Vlan.JoinedStayOnDeviceIff` | server/internal/wg/coordinator.go:307-408 | every live peer that joined stays on the device throughout a run if and only if no call displaces one of them: gives its key up, takes its key for another address, or takes its address for another key |
| `Vlan.DistinctKeysIff` | server/internal/wg/coordinator.go:307-408 | while public keys are distinct, every live peer that joined stays on the device if and only if no registration gives out the address of one of them |
| `Vlan.OneRoomStaysOnDevice` | server/internal/wg/coordinator.go:307-408 | in a single room with distinct public keys every live peer that joined stays on the device |
| `Vlan.OneRoutePerAddress` | server/internal/wg/coordinator.go:381-398 | in every run the device routes an address to one peer |
| `Vlan.SharedKeyDisplaces` | server/internal/wg/coordinator.go:344-348 | in a room with distinct keys a registration leaves every other peer on the device if and only if none of them has its key, or the room is full and the caller new |
| `Vlan.SharedKeyExample` | server/internal/wg/coordinator.go:344-359 | a run that reaches the displacement: two peers register one and the same key, whichever it is, and the first one's device entry is gone |
| `Vlan.RoomsFillUp` | server/internal/repository/wg_peer.go:51-56 | in every run of registrations from an empty table each room holds exactly its first hosts, the gateway left out |
| `Vlan.RoomsShareIff` | server/internal/repository/wg_peer.go:51-56 | two rooms then hold a common address if and only if both have a row |
| `Vlan.AddressesUniqueIff` | server/internal/repository/wg_peer.go:51-56 | all addresses are pairwise distinct if and only if all rows are in one room |
| `Vlan.CrossRoomExample` | server/internal/repository/wg_peer.go:51-56 | the shortest such run: the first peers of two rooms have one address, and the second takes it from the first on the device unless both use the same key |
| `Vlan.HostsInSubnet` | server/internal/wg/coordinator.go:287-301 | all hosts .2 to .254 lie inside the subnet if and only if its prefix is at most /24 |
| `LiveRooms.BuildWebLiveRooms` | server/internal/api/handler/web_public.go:62-104 | the result groups the streams, each known room has the name given by its first stream, and it is sorted by type, then name |
| `LiveRooms.CollectOne` | server/internal/api/handler/web_public.go:69-92 | one round of the loop keeps the index map and the partition exact |
| `LiveRooms.FirstStreamNamesRoom` | server/internal/api/handler/web_public.go:72-80 | the name of a known room is the one in the reference of the first live stream listed for it |
| `LiveRooms.RoomsPartitionStreams` | server/internal/api/handler/web_public.go:69-92 | for distinct keys every stream is shown by exactly one room, and two share one exactly when both are known with equal room ids |
| `LiveRooms.SortSlice` | server/internal/api/handler/web_public.go:93-102 | some sorted permutation, as sort.Slice promises |
| `VoiceActivity.Detector.Sample` | client/lib/core/network/rtc_service.dart:27-41 | one update of the flag and the silence counter |
| `VoiceActivity.SpeakingTrace` | client/lib/core/network/rtc_service.dart:27-41 | for any thresholds and hold: speaking exactly when some sample was loud and no later quiet window completed |
| `OnlineUsers.Provider.FinishRefresh` | client/lib/features/room/presentation/providers/speaking_users_provider.dart:58-70 | a response replaces the set only if nothing happened since its request and the provider has not been disposed of |
| `OnlineUsers.AppliedIffFresh` | client/lib/features/room/presentation/providers/speaking_users_provider.dart:58-63 | the revision comparison accepts exactly the responses with no event since their request, before the disposal |
| `OnlineUsers.OnlineIsSnapshotPlusEvents` | client/lib/features/room/presentation/providers/speaking_users_provider.dart:51-109 | with any number of overlapping refreshes the set is the last applied snapshot, or the empty set after a disconnect, with every event since that snapshot was requested |
| `OnlineUsers.OlderSnapshotWins` | client/lib/features/room/presentation/providers/speaking_users_provider.dart:58-66 | in every run, however many refreshes overlap: the contents are older than a snapshot applied since the last event if and only if two refreshes of one quiet stretch were answered in reverse; the set is then what the earlier request brought |
| `OnlineUsers.InForceIsOnline` | client/lib/features/room/presentation/providers/speaking_users_provider.dart:58-66 | while nothing happens after the last applied response the set is what that response brought |
| `OnlineUsers.OlderSnapshotExample` | client/lib/features/room/presentation/providers/speaking_users_provider.dart:58-66 | two quiet refreshes answered in reverse end with the older contents |

## Left out

- Flutter pages, Drift code, routing, authentication, configuration, file upload, friend and room handlers: no stateful claim of interest.
- GORM, Pion, gortmplib, FFmpeg, wgctrl: replaced by a table as a map, a signalling state, a pipe and a device map. Failing `AddTrack`, `RemoveTrack`, device configuration, address lookup and table updates are taken to succeed.
- Integer widths of `nextID`, message ids, revisions and nanosecond times are unbounded; byte counts wrap modulo 2^64 and FLV fields are truncated as in the code.
- `startedAt`, bitrate and the `Info` snapshot of an entry: wall-clock values.
- StreamRegistry.Registry.Start: its contract is for a call that is not interleaved; interleavings are the subject of `StreamFanOut`.
- StreamRegistry.Entry.Receive: blocking on an empty channel is not modelled; a reader that finds nothing takes nothing.
- HttpFlv.ProxyStream: HTTP headers and flushing are not modelled; a cancelled request and a closed channel are both the end of the selects.
- AnnexB.WriteStream: a closed-pipe error of the track is counted as an accepted sample, since the code goes on after it.
- `writeOpus`, the player page fallback, SDP profile strings and the RTP reader of the transcoder: no loop or state beyond copying.
- ChatProtocol.AtMostOnce: the send buffer of a connection never overflows here; the hub machine has the overflow event, but delivery under it is not claimed.
- ChatProtocol.ConfirmedMeansStored: a database insert that reports an error is taken to have stored nothing.
- Presence broadcasts, heartbeats, reconnect back-off and the client's event bus: the chat calls do not depend on them. Reconnects and time-outs may happen at any moment instead.
- WsClient.WsService.HandleMessage: the write of a chat message to the local cache is the subject of `MessageRuns`; the early return without an account is not modelled, since every connection sets one before it can receive anything.
- VoiceRooms.Engine.LeaveRoom: peers are values inside the room map, so a goroutine that holds a peer object after it has left is not represented; engine operations are atomic.
- VoiceRooms.ForwardingMatrix: holds between whole operations, not inside `forwardAudio` after it has released the engine lock; the same goes for `VoiceTracks`.
- ICE candidates, participant lists and the forwarding of single RTP packets, with its mute gate: one-line reactions.
- Voice state across reconnects: the hub calls `LeaveUser` for every unregistered connection, also a stale one; the two machines are not composed.
- MessageSync.SyncLatest: the server log and the cache do not change during the sync; a sync that anything may interrupt is the subject of `MessageRuns`.
- MessageRuns.GapFreeIff: one server and account; a cache write that fails counts as a broadcast that is never heard.
- `clearRoom`, `clearAccount`, `clearAll` and message retention: plain deletions.
- LiveRooms.BuildWebLiveRooms: room ids as text, play URLs and the app name are not modelled; strings compare by character.
- Text.ToLower: letters outside ASCII keep their case, except the two whose lower-case letter is an ASCII one; content is well-formed UTF-8, given by its code points.
- Vlan.AddressesUniqueIff: `RoomsFillUp`, `RoomsShareIff` and this one are about registrations from an empty table; after an unregistration a room may have a hole, and two rooms need not share an address.
- Vlan.Coordinator.RegisterPeer: public keys parse; one that does not is stored in its row and never reaches the device.
- Vlan.AllocationOverRuns: calls are serial; two registrations that both allocate before either stores its row are not modelled.
