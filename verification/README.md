# Verified model of the IoT platform's protocols and state machines

This project models the parts of the platform in which correctness depends on how bytes are cut, on how steps
interleave and on time bounds, and proves what the platform relies on about them.

| module | what it models |
|---|---|
| `MqttWire`, `MqttStream`, `MqttPackets`, `MqttPublish` | the MQTT bridge: length integers, the pump to the broker and the reader from it, the CONNECT, SUBSCRIBE and PUBLISH parsers and the check of a user's topics, against encoders written from MQTT 3.1.1 (sections 2.2.3, 3.1, 3.3, 3.8) and MQTT 5.0 (sections 1.5.5, 3.1, 3.3, 3.8) |
| `DeviceTopics`, `GatewayConnections` | a device's own topics, and the register of bridged connections with takeover, online and offline, and the token register |
| `DeviceHub` | the WebSocket hub: clients, devices, owners, send channels, notices |
| `TwoLevelCache` | one instance's cache: sharded L1, shared L2, not-found markers, jittered lifetimes |
| `CacheCoherence` | all instances against the database, each read and each write-then-publish one step |
| `CacheFlights`, `CacheHistories`, `CacheCalls` | one key with every Redis command, database access and L1 access a step of its own, and shared flights: bounded staleness, what is in L2 over a run, and one call alone |
| `ConfigVersions` | update / insert / update-again on one configuration row under any number of savers |
| `ReportBuffer` | the report list with any number of producers and draining workers |
| `CommandQueue` | the downlink list with any number of enqueuing calls and polls, and the command log |
| `ActivityDebounce`, `PresenceSync` | the five-second debounced status write, and the scanner that marks silent devices offline |
| `SensorSpecs`, `ThingModel` | printing and parsing of sensor specifications, and the join of definitions with telemetry |

The state machines are values with a `Next` function; a property of every run is proved by induction over its steps.
Code that changes fields is a class whose methods are proved to move the value (`View`, `store`, `state`, `SlotOf`) by
the machine's step, or are proved against a function or an independent description of the result. What the network,
Redis, the database or a random draw answers is free in every step.

## Where the code does less than its comments say

The code is modelled as it is; each of these has an exact condition or an example run.

- A level-5 CONNECT whose will properties take 128 bytes or more is misread (`MqttPackets.WillPropertiesSkippedIff`,
  `MqttPackets.LongWillPropertiesMisread`), and a client ID that overruns its packet is read from behind it, or panics
  (`MqttPackets.ConnectSafeIff`, `MqttPackets.OverrunPanics`).
- A device's PUBLISH with a quality of service above zero that ends before its packet identifier makes the log panic, in
  a goroutine that does not recover: the process ends, and that frame and all behind it are not forwarded
  (`MqttPublish.LogPanicsIff`, `MqttPublish.PublishWithoutIDPanics`, `MqttStream.PublishWithoutIDEndsSession`).
- Bytes behind CONNECT in the same WebSocket message are lost (`MqttStream.SessionConservesIff`,
  `MqttStream.PacketBehindConnectIsLost`).
- The offline write of an old connection can land after the device came back
  (`GatewayConnections.StepKeepsOnlineIff`, `GatewayConnections.LateOfflineHappens`), a teardown between a connection's
  ONLINE and its flag writes no OFFLINE (`GatewayConnections.TeardownWritesOfflineIff`), and the guard on tokens does
  not protect a reconnection with the same token (`GatewayConnections.TokenSurvivesIff`).
- L2 can keep an old row when a write and its eviction fall between a load and its L2 write
  (`CacheHistories.StaleAfterEvictionIff`, `CacheCalls.SplitLoadKeepsOldRow`), and deleting a device leaves its
  definition list cached (`CacheCoherence.DeleteKeepsDefsIff`, `CacheCoherence.DeletedListIsStillServed`).
- A configuration can be acknowledged by a late report about an older version
  (`ConfigVersions.LateReportAcknowledges`), and an envelope can pair one save's version with another's payload
  (`ConfigVersions.MixedEnvelope`). The insert conflict is not always hit by the second update
  (`ConfigVersions.UnhitIff`, `ConfigVersions.ConflictIsNotHit`).
- A delivered command can go back to sent (`CommandQueue.RegressesIff`,
  `CommandQueue.DeliveredBecomesSent`).
- A scan's OFFLINE can be undone by a debounced write that is still outstanding, pending or already claimed
  (`PresenceSync.OfflineLastsIff`, `PresenceSync.EarlyScanIsUndone`, `PresenceSync.ClaimedDeviceIsUndone`), and a scan
  writes OFFLINE over a report that came after its look at the device (`PresenceSync.LateVerdictOvertakesReport`).
- Registering a hub client twice leaves a closed channel listed (`DeviceHub.RegistrationKeepsIff`).

## Model

| member | source | states |
|---|---|---|
| MqttWire.MqttVarint | internal/controller/mqtt_gateway_controller.go:908-923 | the loop with its multiplier computes the recursively defined decoding, and fails exactly when that does |
| MqttWire.MqttSkipProperties | internal/controller/mqtt_gateway_controller.go:926-936 | moves past the announced properties exactly when length and properties lie in the buffer, else does not move |
| MqttWire.MqttPacketTotalLength | internal/controller/mqtt_gateway_controller.go:1029-1038 | the packet length, known exactly when `TotalLength` is |
| MqttWire.VarintRoundTrip | internal/controller/mqtt_gateway_controller.go:908-923 | every value 0..268435455, encoded by the standard anywhere in a buffer, is read back with the position behind it |
| MqttWire.VarintBound | internal/controller/mqtt_gateway_controller.go:908-923 | no larger value is ever decoded and at most four bytes are taken |
| MqttWire.VarintCanonicity | internal/controller/mqtt_gateway_controller.go:908-923 | an accepted encoding is the standard's exactly when its last byte is not a padding zero |
| MqttWire.VarintReadsIff | internal/controller/mqtt_gateway_controller.go:908-923 | what is read as a length anywhere, padded or not: at most four bytes up to the first below 128, and their value in base 128 |
| MqttWire.TotalLengthExtends | internal/controller/mqtt_gateway_controller.go:1029-1038 | a known packet length is unchanged by appended bytes |
| MqttWire.EncodedIsPacket | internal/controller/mqtt_gateway_controller.go:1029-1038 | a packet written by the standard is one whole packet |
| MqttWire.UnreadableLength | internal/controller/mqtt_gateway_controller.go:1029-1038 | exactly when no length can be read, and that with five bytes present no later byte repairs it |
| MqttStream.WsToTcpPump.PumpFrames | internal/controller/mqtt_gateway_controller.go:463-489 | the inner loop ends; of the frames of the cut it writes, in order, a user's allowed ones or a device's up to the first whose logging panics, as many as the broker's connection takes; a failed write closes the session, a panic ends the process |
| MqttStream.WsToTcpPump.Look | internal/controller/mqtt_gateway_controller.go:471-481 | a user's frame is checked with the remembered answers about devices, which stay true; a device's frame is logged |
| MqttStream.WsToTcpPump.Receive | internal/controller/mqtt_gateway_controller.go:444-489 | one message: text is ignored, binary data is appended, cut and handed on; while the session is open nothing complete stays behind |
| MqttStream.WsToTcpPump.Run | internal/controller/mqtt_gateway_controller.go:444-489 | a session up to its last message, a failed write or a panic does with the frames of the concatenated payloads what `PumpFrames` does, whatever the messages were |
| MqttStream.DeviceForwards | internal/controller/mqtt_gateway_controller.go:479-485 | of a device's frames exactly those before the first PUBLISH that lacks its packet identifier get through, and the process panics exactly when there is one |
| MqttStream.UserForwards | internal/controller/mqtt_gateway_controller.go:471-485 | of a user's frames exactly the allowed ones get through, each once and in order, and nothing panics |
| MqttStream.SessionEnds | internal/controller/mqtt_gateway_controller.go:483-487 | frames are forwarded in order up to the number of writes that work; the session is closed exactly by the write that fails, and crashes exactly at a panic before it |
| MqttStream.StandardSessionGoesThrough | internal/controller/mqtt_gateway_controller.go:444-489 | packets of the standards, in any division into messages, all reach the broker |
| MqttStream.UserSessionGoesThrough | internal/controller/mqtt_gateway_controller.go:444-489 | a user's packets of the standards with allowed topics, and all packets that name none, reach the broker whole and in order, in any division into messages |
| MqttStream.PublishWithoutIDEndsSession | internal/controller/mqtt_gateway_controller.go:479-485 | a session in which neither such a PUBLISH nor the packet behind it is forwarded |
| MqttStream.SplitConserves | internal/controller/mqtt_gateway_controller.go:463-469 | frames plus rest are the bytes received, in order |
| MqttStream.SplitIsComplete | internal/controller/mqtt_gateway_controller.go:463-469 | every frame is a whole packet and no whole packet is left at the front of the rest |
| MqttStream.SplitAppend | internal/controller/mqtt_gateway_controller.go:461-469 | cutting now and again when more has arrived is cutting once |
| MqttStream.ChunkingDoesNotMatter | internal/controller/mqtt_gateway_controller.go:444-489 | frames and rest depend only on the bytes, not on their division into messages |
| MqttStream.PacketsSurviveChunking | internal/controller/mqtt_gateway_controller.go:444-489 | any division of a list of packets into messages yields exactly those packets and an empty buffer |
| MqttStream.UnreadableFrontBlocks | internal/controller/mqtt_gateway_controller.go:463-467 | once the front is unreadable with five bytes present, nothing is cut off any more and all bytes stay |
| MqttStream.ReadConnect | internal/controller/mqtt_gateway_controller.go:306-322 | gathers messages to the first complete packet and cuts it to its length |
| MqttStream.GatherConserves | internal/controller/mqtt_gateway_controller.go:306-322 | CONNECT, the dropped bytes and the later messages are all that was sent; waiting means no packet yet |
| MqttStream.GatherStops | internal/controller/mqtt_gateway_controller.go:306-322 | CONNECT ends with the first message that completes a packet, and what is dropped is the rest of that message |
| MqttStream.SessionConservesIff | internal/controller/mqtt_gateway_controller.go:319-322 | a session is cut into all packets sent exactly when CONNECT ends its message |
| MqttStream.PacketBehindConnectIsLost | internal/controller/mqtt_gateway_controller.go:319-322 | a session in which a packet sent together with CONNECT is never forwarded |
| MqttStream.MqttFrameReader.ReadHeader | internal/controller/mqtt_gateway_controller.go:1044-1066 | reads type and length byte by byte, and what is consumed when it fails |
| MqttStream.MqttFrameReader.ReadFrame | internal/controller/mqtt_gateway_controller.go:1044-1074 | returns the frame at the front and leaves what follows, or consumes what it could not use |
| MqttStream.BrokerFrameRead | internal/controller/mqtt_gateway_controller.go:1044-1074 | a packet of any type is taken whole off the broker's stream as soon as all of it is there, whatever follows |
| MqttStream.CuttersAgreeIff | internal/controller/mqtt_gateway_controller.go:1029-1074 | both cutters take the same first packet off any stream unless its first byte is below 16, a length is readable and that many bytes are there |
| MqttPackets.ParseSubscribeTopics | internal/controller/mqtt_gateway_controller.go:746-787 | computes `SubscribeTopics` at every level, empty for unreadable frames |
| MqttPackets.TopicsReadIff | internal/controller/mqtt_gateway_controller.go:769-786 | the payloads accepted are exactly encoded filter lists, give or take one trailing byte, with those topics |
| MqttPackets.SubscribeRoundTrip | internal/controller/mqtt_gateway_controller.go:746-787 | any filter list written by the standard is read back |
| MqttPackets.SubscribeReadsIff | internal/controller/mqtt_gateway_controller.go:746-787 | topics are read exactly from a SUBSCRIBE whose length, identifier and properties can be passed and whose payload lists filters with them |
| MqttPackets.ParseConnectCredentials | internal/controller/mqtt_gateway_controller.go:938-1027 | computes `ConnectCredentials`, including the rejections and the slice that can panic |
| MqttPackets.ConnectRoundTrip | internal/controller/mqtt_gateway_controller.go:938-1027 | any CONNECT of the standard with level-5 will properties under 128 bytes gives back client ID, login, level, keep-alive |
| MqttPackets.ConnectReadsIff | internal/controller/mqtt_gateway_controller.go:938-1027 | a login is read exactly from a CONNECT with these fields, padded lengths included; everything else is rejected or panics |
| MqttPackets.WillPropertiesSkippedIff | internal/controller/mqtt_gateway_controller.go:980-988 | will properties are passed over correctly exactly when they are under 128 bytes |
| MqttPackets.LongWillPropertiesMisread | internal/controller/mqtt_gateway_controller.go:980-1000 | a conforming level-5 packet with a user property of 128 bytes in its will is refused |
| MqttPackets.ConnectSafeIff | internal/controller/mqtt_gateway_controller.go:970-977 | the parser cannot panic and sees only the packet exactly when the client ID lies inside it |
| MqttPackets.OverrunPanics | internal/controller/mqtt_gateway_controller.go:970-977 | a whole packet whose client ID overruns it makes the parser panic |
| MqttPublish.LogPublish | internal/controller/mqtt_gateway_controller.go:513-545 | computes `LoggedAs` at every level: topic, quality of service, retain flag and trimmed payload, nothing for other or unreadable frames, or the slice that panics |
| MqttPublish.LogPanicsIff | internal/controller/mqtt_gateway_controller.go:513-545 | the slice panics, at any level, exactly for a PUBLISH with its topic inside, a quality of service above zero and less than two bytes behind the topic |
| MqttPublish.PublishWithoutIDPanics | internal/controller/mqtt_gateway_controller.go:513-545 | a whole packet of five bytes for which it does |
| MqttPublish.PublishRoundTrip | internal/controller/mqtt_gateway_controller.go:513-545 | every PUBLISH of the standards is logged with its topic, flags and trimmed payload, without a panic |
| MqttPublish.LoggedIff | internal/controller/mqtt_gateway_controller.go:513-545 | a frame is logged exactly as a PUBLISH with this topic inside, the identifier if due, and this trimmed payload behind the properties that can be passed |
| MqttPublish.IgnoredIff | internal/controller/mqtt_gateway_controller.go:513-530 | a frame is ignored exactly when it names no topic |
| MqttPublish.TrimKeepsIff | internal/controller/mqtt_gateway_controller.go:545 | the logged payload is the one sent exactly when no zero byte stands at either end of it |
| MqttPublish.ParsePublishTopic | internal/controller/mqtt_gateway_controller.go:864-878 | the topic of a PUBLISH if it lies inside and is not empty |
| MqttPublish.UserFrameAllowed | internal/controller/mqtt_gateway_controller.go:819-852 | with any true memory of devices, passes a frame exactly when all topics it names are allowed, and the memory stays true |
| MqttPublish.FrameAllowedIff | internal/controller/mqtt_gateway_controller.go:819-852 | a frame passes exactly when the topic of a PUBLISH, unless empty, and all topics of a SUBSCRIBE are allowed |
| MqttPublish.OtherFramesPass | internal/controller/mqtt_gateway_controller.go:820-834 | every other packet of a user passes, and so does a PUBLISH or SUBSCRIBE in which no topic can be read |
| MqttPublish.TopicAllowedIff | internal/controller/mqtt_gateway_controller.go:837-850 | a topic is allowed exactly when it is iot, a device of the user in any case, and at least one more level |
| MqttPublish.PublishAllowedIff | internal/controller/mqtt_gateway_controller.go:819-852 | a PUBLISH of the standards passes exactly when its topic is empty or allowed |
| MqttPublish.SubscribeAllowedIff | internal/controller/mqtt_gateway_controller.go:819-852 | a SUBSCRIBE of the standards passes exactly when all its topics are allowed |
| DeviceTopics.OwnTopicIff | internal/controller/mqtt_gateway_controller.go:728-742 | a filter is the device's own exactly when it reads root/device/channel, with more levels or none, the device in any case and a known channel |
| GatewayConnections.MqttGateway.RegisterConn | internal/controller/mqtt_gateway_controller.go:193-207 | the new connection becomes current, an earlier one of the device is closed |
| GatewayConnections.MqttGateway.WriteOnline | internal/controller/mqtt_gateway_controller.go:711-715 | the once-only part: the status write, whose failure uses up the once |
| GatewayConnections.MqttGateway.StoreOnline | internal/controller/mqtt_gateway_controller.go:716-720 | the flag and the notice, a step of their own |
| GatewayConnections.MqttGateway.OnSubscribe | internal/controller/mqtt_gateway_controller.go:700-724 | with nothing in between, a SUBSCRIBE with an own topic brings the connection online the first time, and otherwise changes nothing |
| GatewayConnections.MqttGateway.LeaveRegister | internal/controller/mqtt_gateway_controller.go:214-232 | the lock region of the teardown: only the current connection leaves the register |
| GatewayConnections.MqttGateway.GoOffline | internal/controller/mqtt_gateway_controller.go:233-248 | OFFLINE and the notice, only if the connection ever came online |
| GatewayConnections.MqttGateway.UnregisterConn | internal/controller/mqtt_gateway_controller.go:214-248 | the whole teardown, once per connection |
| GatewayConnections.MqttGateway.IsConnected | internal/controller/mqtt_gateway_controller.go:184-189 | true exactly when the lower-cased device ID has a current connection |
| GatewayConnections.MqttGateway.RegisterDeviceToken | internal/controller/mqtt_gateway_controller.go:145-152 | stores a token unless device or token is empty |
| GatewayConnections.MqttGateway.UnregisterDeviceToken | internal/controller/mqtt_gateway_controller.go:155-164 | removes a token only while it is the one given |
| GatewayConnections.MqttConn.Close | internal/controller/mqtt_gateway_controller.go:255-264 | closes once |
| GatewayConnections.StepKeeps | internal/controller/mqtt_gateway_controller.go:193-248 | every step keeps one current connection per device, all others closed, notices in order and at most once |
| GatewayConnections.EveryRun | internal/controller/mqtt_gateway_controller.go:193-248 | the same over every run: a connection is current or closed, and told nothing, online, or online then offline |
| GatewayConnections.OwnerIsTold | internal/controller/mqtt_gateway_controller.go:214-248 | over every run an owner is told online once the connection is online, and offline exactly when its teardown as the current one ends with the flag set, whether or not the status is written |
| GatewayConnections.TeardownTells | internal/controller/mqtt_gateway_controller.go:228-248 | the teardown of a current online connection leaves exactly the notices online, offline |
| GatewayConnections.StatusStep | internal/controller/mqtt_gateway_controller.go:705-725 | ONLINE is written only by the first own SUBSCRIBE and OFFLINE only by the end of a teardown with the flag set, each for its own device |
| GatewayConnections.StepKeepsOnlineIff | internal/controller/mqtt_gateway_controller.go:233-248 | a step keeps a current online connection's status ONLINE exactly when it is not a late offline write |
| GatewayConnections.OnlineStaysOnline | internal/controller/mqtt_gateway_controller.go:193-248 | with teardown as one step, in every run a current connection that came online implies ONLINE |
| GatewayConnections.SupersededTeardownIsSilent | internal/controller/mqtt_gateway_controller.go:214-232 | the teardown of a superseded connection changes no register, no status, and tells nobody |
| GatewayConnections.LateOfflineHappens | internal/controller/mqtt_gateway_controller.go:225-248 | a run in which the offline write of an old connection lands after the reconnection came online |
| GatewayConnections.TeardownWritesOfflineIff | internal/controller/mqtt_gateway_controller.go:214-248 | a teardown of a connection whose ONLINE was written writes OFFLINE exactly when its flag was set by then |
| GatewayConnections.TokenSurvivesIff | internal/controller/mqtt_gateway_controller.go:145-164 | a reconnection keeps its token exactly when the two connections use different tokens |
| GatewayConnections.TokensOfOthers | internal/controller/mqtt_gateway_controller.go:145-164 | tokens of other devices stay, and an empty token is never registered |
| DeviceHub.WsHub.Register | internal/websocket/hub.go:58-75 | the device's earlier client is closed and replaced, a positive owner is told; any client may be registered, and the hub stays consistent if the registration is proper |
| DeviceHub.WsHub.RegisterUser | internal/websocket/hub.go:78-88 | any client joins its owner's set, and the hub stays consistent if the registration is proper |
| DeviceHub.WsHub.Unregister | internal/websocket/hub.go:91-122 | closes the channel, leaves the tables, tells the owner of a current device; nothing the second time |
| DeviceHub.WsHub.SendToDevice | internal/websocket/hub.go:125-137 | queues at the device's client, or drops the message when the queue is full |
| DeviceHub.WsHub.SendToOwner | internal/websocket/hub.go:140-152 | the loop over the owner's set, in any order, offers to each client once |
| DeviceHub.WsHub.IsDeviceOnline | internal/websocket/hub.go:155-160 | true exactly when some client of the device has an open channel |
| DeviceHub.StepKeeps | internal/websocket/hub.go:58-122 | every step keeps channels, tables and live clients consistent |
| DeviceHub.RegistrationKeepsIff | internal/websocket/hub.go:58-88 | a registration keeps the hub consistent exactly when a device's client is new and named, a user's client new or live with a positive owner |
| DeviceHub.ClientsPartition | internal/websocket/hub.go:58-122 | live clients are the disjoint union of the device clients and the owners' sets |
| DeviceHub.NothingClosesTwice | internal/websocket/hub.go:63-66 | a step closes only open channels, and exactly the displaced or unregistered client's |
| DeviceHub.NothingSentWhenClosed | internal/websocket/hub.go:125-152 | only open channels of the addressed device or owner receive |
| DeviceHub.OwnerMessageReaches | internal/websocket/hub.go:140-152 | a message reaches exactly the owner's live connections with room |
| DeviceHub.DeviceMessageReaches | internal/websocket/hub.go:125-137 | a message reaches exactly the device's live connection, if it has room |
| DeviceHub.QueuesStay | internal/websocket/hub.go:58-122 | apart from sends a queue loses only what its reader takes, oldest first |
| DeviceHub.NoticesIff | internal/websocket/hub.go:58-122 | each step tells the positive owner of the client it is about, online at registration, offline when the device's client leaves, and nobody else |
| DeviceHub.LiveAfter | internal/websocket/hub.go:58-122 | a registered client is live and in its table, a closed one is not live, all others stay what they were |
| DeviceHub.UserLeavesIff | internal/websocket/hub.go:111-121 | a user's client leaves its set when unregistered exactly when the owner is positive |
| DeviceHub.EveryRun | internal/websocket/hub.go:58-122 | over every run: closed iff not live, no empty owner set, and for owned devices the last notice is online iff the device is |
| TwoLevelCache.JitterRange | pkg/cache/redis.go:811-822 | the lifetimes that can be drawn are exactly 3/4 to below 5/4 of the base |
| TwoLevelCache.LocalCache.GetBytes | pkg/cache/redis.go:714-723 | an entry is returned exactly until its time has passed |
| TwoLevelCache.LocalCache.SetBytes | pkg/cache/redis.go:726-735 | changes one key of the single map the shards make up |
| TwoLevelCache.LocalCache.SetNeg | pkg/cache/redis.go:738-747 | the same for a not-found entry |
| TwoLevelCache.LocalCache.Delete | pkg/cache/redis.go:797-802 | removes exactly one key |
| TwoLevelCache.LocalCache.Cleanup | pkg/cache/redis.go:684-708 | the sweep removes expired entries only, so no reader can tell |
| TwoLevelCache.LocalCache.Set | pkg/cache/redis.go:773-794 | stores the key, drops only entries of its own full shard, and keeps the shard within its size |
| TwoLevelCache.RedisCache.GetOrLoad | pkg/cache/redis.go:186-282 | a call without interference is `LoadWith`, whichever Redis commands and whether the database answers: L1, L2, marker, the flight's second look, database, filling what was missed, with L1 left out when its lifetime is zero; other keys untouched |
| TwoLevelCache.RedisCache.Fly | pkg/cache/redis.go:231-259 | the flight's part of it: the marker is skipped after a failed look, a failed write to Redis still fills L1, a failed load fills nothing |
| TwoLevelCache.CallAnswers | pkg/cache/redis.go:186-282 | for all answers of Redis and database: an error exactly when nothing cached serves and the loader fails, the row when Redis is down, and what is kept in L1, L2 and marker |
| TwoLevelCache.RedisCache.CacheDevice | pkg/cache/redis.go:297-311 | writes L2, forgets the own L1 entry, publishes the key, leaves the marker; a failed write changes and publishes nothing |
| TwoLevelCache.RedisCache.EvictKey | pkg/cache/redis.go:314-322 | forgets the own L1 entry, then L2, and publishes the key; a failed delete is not published |
| TwoLevelCache.RedisCache.OnInvalidate | pkg/cache/redis.go:603-618 | a message forgets the L1 entry of its key only |
| CacheCoherence.StepKeeps | pkg/cache/redis.go:186-322 | every step keeps L2 equal to the database, L1 equal unless an invalidation is on its way, and markers covered |
| CacheCoherence.ReadsAgree | pkg/cache/redis.go:186-322 | over every run, any number of instances: a read answers like the database unless an invalidation is in the reader's inbox |
| CacheCoherence.DrainedInboxAgrees | pkg/cache/redis.go:598-618 | every read from an instance with an empty inbox answers the database's data, and so does each live L1 entry of it; a definition list needs a run that does not delete its device |
| CacheCoherence.MarkerNeverHides | pkg/cache/redis.go:217-247 | in every run a live marker of an existing device is covered by an L2 entry that expires later |
| CacheCoherence.DeleteKeepsDefsIff | internal/service/device_service.go:230-257 | deleting a device keeps its definition list right exactly when no non-empty list was cached |
| CacheCoherence.DeletedListIsStillServed | internal/service/device_service.go:230-257 | a run from empty caches after which a deleted device's list is served with no invalidation on its way |
| CacheFlights.BoundedStaleness | pkg/cache/redis.go:186-282 | over every run, lost invalidations and failing Redis included: how old an answer can be, for data and for not-found |
| CacheHistories.SingleLoadPerLifetime | pkg/cache/redis.go:230-281 | between a flight's L2 write and its instance's next load lies an eviction, three quarters of the nominal lifetime, or a look of that instance at L2 that Redis did not answer |
| CacheHistories.SameBytesForAll | pkg/cache/redis.go:230-281 | all callers of one flight get the same answer |
| CacheHistories.StoreAgreesIff | pkg/cache/redis.go:250-281 | over every run, what is written to L2 was read by its own flight or warm-up at an earlier event, and agrees with the database exactly when the row is what it was then, which only a write in between can change |
| CacheHistories.StaleAfterEvictionIff | pkg/cache/redis.go:230-322 | after a write and its eviction L2 is stale exactly when it holds what a flight or warm-up stored after the eviction and had read, different, before the write |
| CacheCalls.LoneCallIsLoad | pkg/cache/redis.go:186-282 | alone, whatever of Redis and the database answers, every run of a call in the step-by-step machine that returns ends with the caches and the answer of `LoadWith`, which `RedisCache.GetOrLoad` is proved to compute |
| CacheCalls.SplitLoadKeepsOldRow | pkg/cache/redis.go:230-281 | a run from empty caches that leaves the old row in L2 |
| ConfigVersions.DeviceConfigRepo.UpdatePending | internal/repository/device_config_repo.go:50-62 | the update statement: payload, pending, version plus one, and its row count |
| ConfigVersions.DeviceConfigRepo.Create | internal/repository/device_config_repo.go:65-70 | the insert statement: version 1, or a constraint error |
| ConfigVersions.DeviceConfigRepo.Upsert | internal/repository/device_config_repo.go:48-86 | alone, it commits the next version with its payload, and fails exactly when the device does not exist |
| ConfigVersions.DeviceConfigRepo.UpdateReported | internal/repository/device_config_repo.go:89-96 | acknowledges with the reported version, whatever the current one is |
| ConfigVersions.DeviceConfigRepo.Delete | internal/repository/device_config_repo.go:99-104 | removes the row |
| ConfigVersions.DeviceConfigRepo.Save | internal/service/device_config_service.go:71-98 | alone, it sends the version it committed with its own payload; a save the queue does not take stays pending in the row |
| ConfigVersions.StepCounts | internal/repository/device_config_repo.go:48-86 | every step of every saver keeps the version equal to the base plus the commits |
| ConfigVersions.ConcurrentSaves | internal/repository/device_config_repo.go:48-86 | under any interleaving without a removal: distinct versions, last payload, own payloads, no smaller read-back, no errors of its own |
| ConfigVersions.CompletedSavesAreCounted | internal/repository/device_config_repo.go:48-86 | n completed saves raise the version by exactly n |
| ConfigVersions.UnhitIff | internal/repository/device_config_repo.go:71-84 | the second update misses exactly when the row was removed after the failed insert and not written again |
| ConfigVersions.ConflictIsNotHit | internal/repository/device_config_repo.go:71-84 | a run of two savers and a deletion that ends in that error |
| ConfigVersions.EnvelopeFaithfulIff | internal/service/device_config_service.go:82-91 | the envelope pairs a version with its payload exactly when the payload read back is the saver's own |
| ConfigVersions.MixedEnvelope | internal/service/device_config_service.go:82-91 | a run that sends version 2 with the payload of version 1 |
| ConfigVersions.AckedAtCurrentVersionIff | internal/repository/device_config_repo.go:89-96 | acknowledged at the current version exactly when the last report since the last save named it |
| ConfigVersions.ReportedStays | internal/repository/device_config_repo.go:50-96 | only a report changes what was reported last; a save keeps it, and a new row has none |
| ConfigVersions.LateReportAcknowledges | internal/repository/device_config_repo.go:89-96 | a run that acknowledges a version the device has not reported |
| ReportBuffer.DeviceDataBuffer.RpopFallback | internal/service/device_data_buffer.go:185-201 | pops one by one: what was taken plus what is left is the old list, also on failure |
| ReportBuffer.DeviceDataBuffer.RpopCount | internal/service/device_data_buffer.go:170-182 | the same with or without the batch command |
| ReportBuffer.DeviceDataBuffer.Requeue | internal/service/device_data_buffer.go:205-214 | the loop puts those reports of the batch whose push Redis takes back at the left end, in order, and trims to 20000 if Redis does |
| ReportBuffer.PushedInOrder | internal/service/device_data_buffer.go:205-209 | of a batch going back exactly the reports whose push is taken are kept, in order |
| ReportBuffer.DeviceDataBuffer.Drain | internal/service/device_data_buffer.go:129-167 | ends, and at the end of the list while Redis and the writer answer; writes the reports in arrival order up to the end, a failed pop (what it drops) or a refused batch (what goes back) |
| ReportBuffer.StepConserves | internal/service/device_data_buffer.go:129-214 | every step of any producer or worker keeps each entry in exactly one place |
| ReportBuffer.StepBounds | pkg/cache/redis.go:530-532 | every step keeps the list within 20000 plus the pushes not yet trimmed |
| ReportBuffer.EveryRun | internal/service/device_data_buffer.go:129-214 | over every run: conservation, no report rejected, no reject written, and the length bound |
| ReportBuffer.DrainEnds | internal/service/device_data_buffer.go:129-201 | without producers a drain ends within 205 + 4 * length steps, with or without the batch command |
| ReportBuffer.FailedDrainIsARun | internal/service/device_data_buffer.go:129-214 | the list a refused first batch leaves is the one the machine's own steps reach |
| ReportBuffer.FailedBatchIsServedLast | internal/service/device_data_buffer.go:205-214 | a failed batch is served after everything then queued, in reverse |
| ReportBuffer.TwoFailedDrainsRestoreIff | internal/service/device_data_buffer.go:129-214 | two failed drains of at most one batch restore the list exactly when every entry is a report |
| CommandQueue.DownlinkService.EnqueueCmd | internal/service/downlink_service.go:78-148 | log, push, trim, expire: list and log after each way the call can end; a queued command is pushed live, and published unless it is a configuration |
| CommandQueue.DownlinkService.PollCmd | internal/service/downlink_service.go:151-183 | takes the whole list, returns its readable commands in order and marks exactly those; a failed marking returns them to nobody |
| CommandQueue.DownlinkService.AckCmd | internal/service/downlink_service.go:186-193 | marks a known command as delivered |
| CommandQueue.ReadableIds | internal/service/downlink_service.go:164-176 | what a poll keeps is exactly the readable elements, and their ids are all it marks |
| CommandQueue.ReadableOrder | internal/service/downlink_service.go:164-176 | a poll returns exactly the readable elements in the order of the list |
| CommandQueue.ReadableCounts | internal/service/downlink_service.go:164-176 | each readable element as often as it is there, and the whole list when all are readable |
| CommandQueue.PollThenMark | internal/service/downlink_service.go:151-183 | in the machine a poll alone takes the list and marks exactly the readable commands in it |
| CommandQueue.EnqueueAlone | internal/service/downlink_service.go:78-112 | in the machine an enqueuing call alone puts its command at the end of the last 200 and logs it pending |
| CommandQueue.StepKeeps | internal/service/downlink_service.go:78-183 | every step of any enqueuer or poller keeps the queue's invariant |
| CommandQueue.EveryRun | internal/service/downlink_service.go:78-183 | over every run: the list is the last pushes since the last poll or clearing, at most 200 plus calls between push and trim; polls follow push order; no command is taken twice |
| CommandQueue.RegressesIff | internal/repository/message_log_repo.go:55-66 | a status goes backwards exactly when a poll is marked with a delivered command in it |
| CommandQueue.DeliveredBecomesSent | internal/repository/message_log_repo.go:55-66 | a run in which it does |
| ActivityDebounce.ActivityUpdates.SchedulePGUpdate | internal/service/device_report_service.go:137-149 | enters the device and arms a timer only if there is none |
| ActivityDebounce.ActivityUpdates.FlushPGUpdates | internal/service/device_report_service.go:152-165 | claims all that is pending, disarms, and writes exactly the claimed devices ONLINE where the database answers |
| ActivityDebounce.StepKeeps | internal/service/device_report_service.go:137-165 | every step keeps one callback at most and every call claimed or waiting |
| ActivityDebounce.EveryRun | internal/service/device_report_service.go:137-165 | over every run each call is claimed by a timer due within five seconds of it, or waits for one |
| ActivityDebounce.OnlyScheduled | internal/service/device_report_service.go:137-165 | what is pending was scheduled, at the time it holds |
| PresenceSync.DeviceOfflineSyncer.ListOnline | internal/service/device_offline_syncer.go:123-127 | the devices that are ONLINE in the database, each once |
| PresenceSync.DeviceOfflineSyncer.ReadHashes | internal/service/device_offline_syncer.go:132-161 | the devices not connected, with what Redis holds for each that can be read |
| PresenceSync.DeviceOfflineSyncer.SyncOnce | internal/service/device_offline_syncer.go:118-204 | exactly the silent, unconnected ONLINE devices that could be read are written OFFLINE in each store that answers and announced once; a failed list or round trip changes nothing |
| PresenceSync.MarksIff | internal/service/device_offline_syncer.go:163-177 | in every run of the separate writes a scan judges a device exactly when it is ONLINE, unconnected and its last report older than the threshold or its hash run out |
| PresenceSync.ReportingDeviceIsNeverMarked | internal/service/device_offline_syncer.go:163-193 | last report younger than min(threshold, 3/4 TTL) at every scan: never judged, never marked |
| PresenceSync.SilentDeviceGoesOffline | internal/service/device_offline_syncer.go:118-204 | with any number of devices sharing one debounce and its batches, a device silent beyond max(threshold, 5 s and the callback's delay) is OFFLINE from the first scan's verdict until active again |
| PresenceSync.OfflineLastsIff | internal/service/device_report_service.go:152-165 | an OFFLINE in the database, by scan or disconnect, lasts while the device is silent exactly when no debounced write of it is pending or claimed and not yet written |
| PresenceSync.EarlyScanIsUndone | internal/service/device_report_service.go:152-165 | a run from an empty start in which a scan is undone by a pending write |
| PresenceSync.LateVerdictOvertakesReport | internal/service/device_offline_syncer.go:163-193 | a run in which row and hash of a device that has just reported are written OFFLINE |
| PresenceSync.ClaimedDeviceIsUndone | internal/service/device_report_service.go:152-165 | a run in which nothing is pending and a claimed device undoes it |
| PresenceSync.StepKeeps | internal/service/device_report_service.go:137-165 | hashes, pending and claimed devices and due times fit together after every single write of overlapping calls |
| SensorSpecs.SmallIntegersAreExact | internal/model/sensor_model.go:229-245 | integers within 2^53 survive as float64 |
| SensorSpecs.NextIntegerIsNot | internal/model/sensor_model.go:229-245 | 2^53 + 1 does not |
| SensorSpecs.UlpFits | internal/model/sensor_model.go:229-245 | the distance of float64 values leaves at most 53 bits, and no less than it must |
| SensorSpecs.FloatOfIsNearest | internal/model/sensor_model.go:229-245 | an integer on the wire becomes a multiple of that distance at most half of it away |
| SensorSpecs.MarshalThresholds | internal/model/sensor_model.go:168-180 | known keys first, then extra keys in any map order, which win |
| SensorSpecs.Marshal | internal/model/sensor_model.go:79-103 | the same for the whole object |
| SensorSpecs.WrittenKeys | internal/model/sensor_model.go:79-103 | each known key is written when set, a list only when not empty, unless an extra key of that name stands in its place |
| SensorSpecs.WrittenThresholds | internal/model/sensor_model.go:168-180 | the same for the keys of thresholds |
| SensorSpecs.UnmarshalThresholds | internal/model/sensor_model.go:183-208 | accepts and returns what `ParseThresholds` says, in any map order |
| SensorSpecs.Unmarshal | internal/model/sensor_model.go:106-165 | accepts and returns what `Parse` says, in any map order |
| SensorSpecs.ThresholdsRoundTripIff | internal/model/sensor_model.go:168-208 | thresholds survive printing and parsing exactly when their extra keys avoid min and max |
| SensorSpecs.SpecsRoundTripIff | internal/model/sensor_model.go:79-208 | specs survive exactly when extra keys avoid the known ones, values are absent or not empty and maxLen is a float64 value |
| SensorSpecs.AcceptedIff | internal/model/sensor_model.go:106-208 | accepted are null and exactly the objects whose known keys have values of their kind |
| SensorSpecs.PrintedBack | internal/model/sensor_model.go:79-208 | an accepted object printed again has every key with its value, but for an empty list of values and thresholds of null |
| SensorSpecs.AcceptedSpecsAreStable | internal/model/sensor_model.go:79-208 | printing and parsing accepted specs again changes nothing, nested thresholds and unknown keys included |
| SensorSpecs.UnknownKeysPassThrough | internal/model/sensor_model.go:98-100 | unknown keys are neither dropped nor invented |
| SensorSpecs.Validate | internal/model/sensor_model.go:248-280 | accepts exactly ascending bounds from range minimum over thresholds to range maximum, with positive step and length |
| ThingModel.LatestByName | internal/model/thing_model.go:51-60 | the map holds, for exactly the reported names, the earliest listed of the newest reports |
| ThingModel.AttachLatest | internal/model/thing_model.go:44-80 | same length and order; each definition joined with the latest report named by its id, else by its name, else none |
| ThingModel.JoinIsDetermined | internal/model/thing_model.go:44-80 | that description determines the result |
| ThingModel.JoinById | internal/model/thing_model.go:62-80 | the latest report of the id if there is one, else that of the name, else none |

## Left out

- HTTP handlers, routing, authentication, role checks, device registration retries, SQL, InfluxDB and the paho client: no property here depends on more than their effect on a row, a list or a map.
- MqttStream.WsToTcpPump.Receive: reading the topics of a device's SUBSCRIBE and what they set off is in `MqttPackets` and `GatewayConnections`; what happens to a logged payload besides is not modelled. That the lower-cased device of a topic belongs to the user is a parameter, asked at most once for a device in a session.
- GatewayConnections.MqttGateway.OnSubscribe: takes the topics `MqttPackets.ParseSubscribeTopics` reads as strings; lower-casing is a parameter, and the status write of the device service is one step.
- MqttStream.WsToTcpPump.Run: the panic ends this session in the model; the end of the process's other connections and its restart are not modelled.
- The idle timeout of bridged connections: one expression over the keep-alive.
- DeviceHub.NothingSentWhenClosed: a send is atomic with the lookup of its client; a client unregistered between the two is not modelled.
- The order in which the goroutines of hub notices run: notices are taken in the order in which they are started.
- TwoLevelCache.LocalCache.GetBytes: the FNV hash that picks a shard is a parameter, and byte strings are values of any type.
- TwoLevelCache.RedisCache.GetOrLoad: concurrent callers are in `CacheFlights` only, and values are not byte strings that may fail to parse.
- CacheCoherence.ReadsAgree: Redis does not fail in this machine; status and last-active times are compared with nothing, since they live in their own hash.
- User cache keys: creating a user does not clear its not-found marker, so they only weaken the cache properties.
- The actuator service: a copy of the sensor service for these properties.
- ConfigVersions.DeviceConfigRepo.Upsert: the class composes the statements with nothing in between; the interleavings are in the machine whose steps the statements are. A failed statement is taken to have had no effect.
- ReportBuffer.DeviceDataBuffer.Drain: the 50 ms pause and the logs; a worker's last drain at shutdown is a drain like any other.
- CommandQueue.EveryRun: the seven-day expiry is a step that can happen at any time.
- PresenceSync.SilentDeviceGoesOffline: a scan reads the row, the connection and the hash of one device in a step, while its two writes are steps of their own; a database that does not take the scan's write leaves it to the next scan.
- The filter on the types of reported values: a single pass that keeps or drops each value.
- SensorSpecs.Marshal: JSON text; numbers other than integers are taken as float64 values already, and conversion of numbers outside the 64-bit range to an integer is taken to fail the comparison after it.
- ThingModel.AttachLatest: the formatting of timestamps.
