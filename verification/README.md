# tarwyn: a verified model

This project models the hard parts of tarwyn, a NetworkTables 4.1 server and client, in
Dafny and proves what they promise.

- **Registry** (`Registry*.dfy`, `ClientNames.dfy`, `Values.dfy`): the server's topics,
  publishers, subscriptions, fan-out lists, announcements, meta topics, retained values and
  client names. `Registry` says on values what each handler does, `RegistryClass` holds the
  handlers as they run, updating maps and lists in place, each proved to do exactly that.
  `RegistryInv` to `RegistryRuns` carry one invariant through every handler and every run,
  whatever names clients publish. `RegistryFrames` to `RegistryTallies` follow publisher counts
  through recursive deletes, `RegistryHeard` and `RegistryReplay` what a topic was sent and passes
  on, `RegistryExact` and `RegistryTheorems` state the results, and `RegistryFailures` gives the
  runs in which the exact conditions fail.
- **Saver** (`Saver.dfy`): the thread that writes persistent topics to a file while the
  registry goes on.
- **Outbound path** (`Outbound*.dfy`): delivering threads that write inline or queue, and the
  writer thread behind the queue, as atomic steps in any interleaving; the code's own methods
  are proved to be schedules of that machine.
- **MessagePack and value messages** (`MsgPack*.dfy`, `Messages.dfy`): encoding, decoding of
  any input, batch frames.
- **WPILOG writer** (`WpiLog*.dfy`): records, entries, and what a reader of version 1.0 of the
  WPILib data log format sees.
- **Smaller parts**: the gate in front of a subscription callback (`Listener.dfy`), the telemetry
  leases (`Telemetry.dfy`), the arrival predictor (`Pacing.dfy`) and the civil date
  (`CivilDate.dfy`).

What the code takes from outside is a parameter: the clock, the iteration order of hash maps, the
encoded meta-topic payload and float arithmetic are an `Oracle`, the order in which a map of open
log entries is walked is a list, and every choice of a scheduler is a step of a run. Floats are bit
patterns and strings are byte or character sequences. Run-long claims quantify over every such
parameter.

Some properties one might expect are false of the code; each is stated with the exact condition
under which it holds:

- Publisher counts are exact and no pubuid dangles unless a step deletes a topic under a remaining
  publisher: a topic's `$pub$` and `$sub$` topics go with it and a client's `$clientpub$` and
  `$clientsub$` topics go with the client, by name, whoever publishes them (`CountedIffNoStrands`;
  `StrandedRun` and `StrandedUidMoves` show it happen).
- Matched sets are complete unless an upsert or a restore creates a topic some subscription covers,
  since those do not announce (`CompleteIffNoMisses`, `MissedRun`).
- A client stays in a fan-out list it needs unless one of its subscriptions is dropped or replaced
  while another still matches the topic (`FullIffNoLosses`, `LostRun`).
- A log record reads back unless its payload is 4 GiB or more (`RecordExact`), and values stay clear
  of the end of the file unless the last value and the finish records after it are shorter than 16
  bytes together, which no log closed at timestamp 2^24 or later is (`ClosedFarIff`, `FarExactly`).
- A periodic stream is predicted unless its period is 1 to 3 ns or above 250 ms
  (`PredictedExactly`); the decoded floats of an array are the sent ones, and encode to the sent
  bytes, unless widening changes their bits (`MeaningKept`, `ReencodesSame`).

`dafny verify dfyconfig.toml` checks the whole project.

## Model

| member | source | states |
|---|---|---|
| `RegistryTheorems.IdsTile` | core/src/websocket/protocol.rs:957-1002 | after every run, live and freed ids are disjoint, without repeats, and together exactly 0..next_id; names and ids are inverse; the next id handed out is the least one no live topic holds |
| `RegistryTheorems.CountedIffNoStrands` | core/src/websocket/protocol.rs:267-304 | throughout a run every topic's publisher count is the number of pubuids on it and every pubuid is on a live topic of the name last accepted for it, exactly when no step of the run deletes, by name or as an orphan's meta topic, a topic some remaining pubuid is on |
| `RegistryTheorems.PublishersCounted` | core/src/websocket/protocol.rs:189-304 | after every run without such a step, whatever names were published: each topic's publisher count is the number of (client, pubuid) pairs on it, no pubuid dangles, each is on the topic of the name that client last had accepted for it, and accepted pubuids and live ones are the same |
| `RegistryTheorems.ValueLands` | core/src/websocket/server.rs:811-854 | after every such run, a value sent under a pubuid lands on the topic of the name last accepted for it: of that topic's type, it is sent once to each client in the fan-out list, stamped on arrival, and on a cached topic joins what is retained, the latest of the highest-stamped staying current; of another type, nothing happens; no other topic or index changes either way |
| `RegistryTheorems.ValueReachesAskers` | core/src/websocket/server.rs:811-854 | with matched sets complete and fan-out full as well, each connected client is sent that value once if it has a subscription that covers the topic and asks for values, and not at all otherwise |
| `RegistryTheorems.CompleteIffNoMisses` | core/src/websocket/protocol.rs:498-532 | matched sets stay complete throughout a run exactly when no step of it creates, by upsert or restore, a topic that a live subscription covers |
| `RegistryTheorems.MatchedIsScan` | core/src/websocket/protocol.rs:337-386 | in a run without such a creation, each live subscription's incremental matched set equals the brute-force scan of all topics its patterns cover |
| `RegistryTheorems.FullIffNoLosses` | core/src/websocket/protocol.rs:393-416 | every client stays in the fan-out of every topic one of its subscriptions matched for values, throughout a run, exactly when no unsubscribe or re-subscribe of the run drops a topic another of its subscriptions shares, without asking for it again |
| `RegistryTheorems.FanOutAsked` | core/src/websocket/protocol.rs:324-365 | after every run, a connected client in a fan-out list has a live subscription that covers the topic and asks for values, and no list holds a client twice |
| `RegistryTheorems.FanOutExact` | core/src/websocket/protocol.rs:1004-1042 | in a run without silent creations and losing steps, the connected clients in a topic's fan-out list are exactly those that ask for its values |
| `RegistryTheorems.RunResolves` | core/src/websocket/protocol.rs:1044-1064 | replaying everything emitted over a run, last announcement of an id winning, resolves the id of every value frame to the topic it was emitted for |
| `RegistryTheorems.ClientResolves` | client/src/reader.rs:111-125 | frames that resolve as a whole resolve in the table each single client builds from the frames sent to it alone |
| `RegistryTheorems.AnnouncedBeforeValue` | core/src/websocket/protocol.rs:360-381 | for every run and client, each value frame emitted to the client carries an id that the announcements emitted to it before resolve to that frame's topic, even when ids are recycled inside one step |
| `RegistryTheorems.LatestOfHighestUnique` | core/src/websocket/protocol.rs:455-494 | at most one value is the latest to arrive among the highest-stamped, so the value a subscriber is sent is pinned down |
| `RegistryReplay.SubscriberIsSentLatest` | core/src/websocket/protocol.rs:360-381 | after every run, a subscribe is answered with one value of a plain topic exactly when it covers the name, asks for values, and the topic is cached and was sent something; the value is the latest to arrive among the highest-stamped the run delivered to that topic |
| `RegistryHeard.RetainsWhatItHeard` | core/src/websocket/protocol.rs:455-494 | after every run, what a plain topic retains is exactly what the run delivered to it since its creation: each value of its type from a client, the server, an upsert or a restored row while it was cached, conformed and stamped, in order of arrival |
| `RegistryHeard.StepHeard` | core/src/websocket/server.rs:811-854 | one step adds to what each plain topic retains exactly the values that step delivers to it, and starts a new topic with exactly what it was created with |
| `RegistryTallies.StepCountedIff` | core/src/websocket/protocol.rs:189-304 | from exact publisher counts, a step leaves them exact if and only if it does not delete a topic under a remaining pubuid |
| `RegistryStrands.UnpublishCountedIff` | core/src/websocket/protocol.rs:267-304 | an unpublish leaves the counts exact unless it is the last of a topic nothing retains and a remaining pubuid is on a live topic whose name is that topic's behind one or more `$pub$` or `$sub$`, each step live |
| `RegistryStrands.PublishCountedIff` | core/src/websocket/protocol.rs:189-265 | a publish leaves the counts exact unless it moves a pubuid off a topic it was the last on, and some pubuid, its own new one included, is on a topic that goes with the one left |
| `RegistryLeaving.DisconnectCountedIff` | core/src/websocket/protocol.rs:734-783 | a disconnect leaves the counts exact unless another client's pubuid is on a topic that goes with the client's own meta topics or with one of the topics it was the last to publish |
| `RegistryLeaving.DepartedTrims` | core/src/websocket/protocol.rs:751-773 | a disconnect deletes exactly the topics that chain down to the client's meta topics or to the topics it was the last to publish, in whatever order they are found |
| `RegistryTrim.DeleteTrims` | core/src/websocket/protocol.rs:977-1002 | the recursive delete takes exactly the live topics whose names lead down to the deleted one by taking `$pub$` and `$sub$` off the front through live names, and touches no other topic and no pubuid |
| `RegistryTrim.ReachMinus` | core/src/websocket/protocol.rs:977-1002 | after one delete, what another delete would take is what it would have taken before less what is gone, so the order of deletes does not matter |
| `RegistryCounts.SettlesCountedIff` | core/src/websocket/protocol.rs:288-304 | deletions, and any meta topics made afterwards under the freed ids, leave exact counts exact if and only if no pubuid was on a deleted topic |
| `RegistryFailures.StrandedRun` | core/src/websocket/protocol.rs:977-1002 | client 1 publishes x, client 2 publishes $pub$x, client 1 unpublishes: a legal run, for every clock and hash order, after which client 2's accepted pubuid is on no live topic |
| `RegistryFailures.StrandedUidMoves` | core/src/websocket/protocol.rs:957-971 | when client 1 then publishes y, the freed ids are handed out again and client 2's pubuid, accepted for $pub$x, is on y or on $pub$y |
| `RegistryFailures.MissedRun` | core/src/websocket/protocol.rs:498-532 | a client subscribes to x and the server upserts x: a legal run after which the live topic x is in the scan of that subscription and not in its matched set |
| `RegistryFailures.LostRun` | core/src/websocket/protocol.rs:393-416 | a client publishes x, subscribes to it twice and takes one subscription back: a legal run after which it still asks for x and is not in the fan-out list |
| `RegistryTheorems.ConnectedNames` | core/src/websocket/protocol.rs:711-802 | after every run, the names in use are exactly the connected clients' names, one each, pairwise distinct |
| `RegistryTheorems.GenerationTracksSnapshot` | core/src/websocket/protocol.rs:599-656 | between any two points of a run the generation does not go back, and where it stands still the persistent snapshot is the same |
| `RegistryRuns.StepInv` | core/src/websocket/server.rs:811-935 | every step a server can take keeps the registry's invariant, and the value frames it emits resolve |
| `RegistryRuns.RunInv` | core/src/websocket/protocol.rs:174-802 | every state reachable from the empty registry by any sequence of steps satisfies the invariant |
| `RegistryRuns.StepSaves` | core/src/websocket/protocol.rs:93-104 | every single step that changes what a saver would write moves the generation forward |
| `RegistryExact.StepCompleteIff` | core/src/websocket/protocol.rs:685-707 | from a state with complete matched sets, a step keeps them complete exactly when it is not one of the silent creations |
| `RegistryExact.UpsertCompleteIff` | core/src/websocket/protocol.rs:498-532 | an upsert leaves matched sets complete exactly when its topic exists, the topic limit refuses it, or no subscription covers its name |
| `RegistryExact.RestoreCompleteIff` | core/src/websocket/protocol.rs:623-650 | restoring leaves matched sets complete exactly when no subscription covers the name of a row that is new |
| `RegistryExact.StepFullIff` | core/src/websocket/protocol.rs:306-416 | from a state with full fan-out, a step keeps it full exactly when it is none of the losing ones |
| `RegistryExact.UnsubscribeFullIff` | core/src/websocket/protocol.rs:393-416 | an unsubscribe keeps fan-out full exactly when every topic it drops is matched for values by no other subscription of that client |
| `RegistryExact.ResubscribeFullIff` | core/src/websocket/protocol.rs:324-334 | replacing a subscription keeps fan-out full exactly when the new one asks again for every topic the client's other subscriptions shared with the old |
| `RegistryInv.AllocIdLeast` | core/src/websocket/protocol.rs:957-971 | the allocated id is free and every smaller id is live |
| `RegistryInv.CreateIds` | core/src/websocket/protocol.rs:208-237 | entering a topic under an allocated id keeps names and ids inverse and the id range tiled |
| `RegistryInv.RemoveIds` | core/src/websocket/protocol.rs:977-1002 | removing a topic and freeing its id keeps names and ids inverse and the id range tiled |
| `RegistryInv.MatchComplete` | core/src/websocket/protocol.rs:1013-1040 | marking a new topic in every covering subscription keeps all matched sets complete |
| `RegistryOps.CreateMid` | core/src/websocket/protocol.rs:208-237 | creating a topic keeps the whole invariant, whatever is pending in the same step |
| `RegistryOps.AnnounceToMatchingMid` | core/src/websocket/protocol.rs:1013-1042 | matching a new topic against every client and announcing it keeps the invariant, and what it emits resolves |
| `RegistryOps.TopicValueMid` | core/src/websocket/protocol.rs:455-494 | storing and fanning out a value keeps the invariant, and every frame of it resolves at its receiver |
| `RegistryOps.PublishMetaMid` | core/src/websocket/protocol.rs:804-815 | publishing a meta topic keeps the invariant and resolves |
| `RegistryPubs.DeleteMid` | core/src/websocket/protocol.rs:977-1002 | deleting any topic, with everything that goes by name in its wake, keeps the invariant |
| `RegistryPubs.ReleasePublisherMid` | core/src/websocket/protocol.rs:288-304 | releasing a publisher keeps the invariant, whether the topic is already gone, is deleted with it or stays, and what it emits resolves |
| `RegistryPublish.HandlePublishMid` | core/src/websocket/protocol.rs:189-265 | a publish, including one that moves a pubuid to another topic, keeps the invariant and emits only frames that resolve |
| `RegistryPublish.HandleUnpublishMid` | core/src/websocket/protocol.rs:267-286 | an unpublish keeps the invariant, also of a pubuid left on a deleted topic |
| `RegistrySubs.HandleSubscribeMid` | core/src/websocket/protocol.rs:306-391 | a subscribe keeps the invariant, and every value it replays resolves in what was announced before |
| `RegistrySubs.HandleUnsubscribeMid` | core/src/websocket/protocol.rs:393-416 | an unsubscribe keeps the invariant |
| `RegistryConn.OnConnectMid` | core/src/websocket/protocol.rs:711-732 | connecting a fresh client keeps the invariant and gives it a name of its own |
| `RegistryConn.OnDisconnectMid` | core/src/websocket/protocol.rs:734-783 | a disconnect keeps the invariant through everything it deletes and every meta topic it updates |
| `RegistryConn.HandleUpsertMid` | core/src/websocket/protocol.rs:498-532 | an upsert keeps the invariant |
| `RegistryConn.RestorePersistentMid` | core/src/websocket/protocol.rs:623-650 | restoring rows keeps the invariant, and a changed snapshot shows in the generation |
| `RegistryConn.HandleSetPropertiesMid` | core/src/websocket/protocol.rs:535-569 | a property update keeps the invariant, moves the generation if the snapshot changed, and leaves matched sets and fan-out as complete as they were |
| `ClientNames.DecimalInjective` | core/src/websocket/protocol.rs:785-796 | different suffixes give different names |
| `ClientNames.Pigeonhole` | core/src/websocket/protocol.rs:785-796 | if a base and its first suffixes are all taken, there are at least as many names in use |
| `ClientNames.DedupMeets` | core/src/websocket/protocol.rs:785-796 | the assigned name is free, is the base whenever that is free, and otherwise carries the lowest free suffix, found within as many tries as there are names |
| `ClientNames.DedupClientName` | core/src/websocket/protocol.rs:785-796 | the search loop ends and returns that name, now in use |
| `RegistryClass.NtRegistry.constructor` | core/src/websocket/protocol.rs:174-176 | a new registry is the empty one runs start from |
| `RegistryClass.NtRegistry.AllocId` | core/src/websocket/protocol.rs:957-971 | the in-place allocation takes the least freed id, or the next new one, as the specification does |
| `RegistryClass.NtRegistry.Create` | core/src/websocket/protocol.rs:208-237 | enters a topic under a fresh id and its name, changing nothing else |
| `RegistryClass.NtRegistry.DeleteTopic` | core/src/websocket/protocol.rs:977-1002 | deletes a topic and its meta topics and returns the unannouncements for the topic alone |
| `RegistryClass.NtRegistry.DeleteTopicIfExists` | core/src/websocket/protocol.rs:817-822 | deletes by name if the name is live |
| `RegistryClass.NtRegistry.UnmatchEverywhere` | core/src/websocket/protocol.rs:988-992 | takes the id out of every matched set and out of nothing else |
| `RegistryClass.NtRegistry.AddAnnounced` | core/src/websocket/protocol.rs:1044-1052 | records an announcement and tells whether it was the first |
| `RegistryClass.NtRegistry.AddSubscriber` | core/src/websocket/protocol.rs:1004-1011 | enters a client in a fan-out list at most once |
| `RegistryClass.NtRegistry.MatchOne` | core/src/websocket/protocol.rs:1013-1030 | finds whether a client's subscriptions cover a name and ask for values, entering the id in each that covers it |
| `RegistryClass.NtRegistry.AnnounceToMatching` | core/src/websocket/protocol.rs:1013-1042 | matches a new topic against every client and announces it to those covered, once each |
| `RegistryClass.NtRegistry.HandleTopicValue` | core/src/websocket/protocol.rs:455-494 | refuses a wrong type, keeps the value only if not older, and fans it out to the list |
| `RegistryClass.NtRegistry.UpdateMetaSubFor` | core/src/websocket/protocol.rs:883-896 | republishes the subscribers topic of each touched plain topic, in the order the hash set is walked |
| `RegistryClass.NtRegistry.ReleasePublisher` | core/src/websocket/protocol.rs:288-304 | counts one publisher down and deletes an orphan nothing retains |
| `RegistryClass.NtRegistry.HandlePublish` | core/src/websocket/protocol.rs:189-265 | creates or finds the topic, moves the pubuid and counts, announces, releases the topic moved from, and updates the meta topics, in that order |
| `RegistryClass.NtRegistry.HandleUnpublish` | core/src/websocket/protocol.rs:267-286 | forgets the pubuid and releases its topic |
| `RegistryClass.NtRegistry.HandleSubscribe` | core/src/websocket/protocol.rs:306-391 | replaces the subscription of that uid, matches and announces every covered topic, and replays cached values |
| `RegistryClass.NtRegistry.HandleUnsubscribe` | core/src/websocket/protocol.rs:393-416 | removes the subscription and leaves the lists of everything it matched |
| `RegistryClass.NtRegistry.HandleUpsertValue` | core/src/websocket/protocol.rs:498-532 | creates the topic if the limit allows, then stores and fans out the value |
| `RegistryClass.NtRegistry.MergeProperties` | core/src/websocket/protocol.rs:535-569 | null removes a property, anything else sets it, the rest stay |
| `RegistryClass.NtRegistry.HandleSetProperties` | core/src/websocket/protocol.rs:535-569 | merges properties, syncs the flags and tells the clients that know the topic |
| `RegistryClass.NtRegistry.PersistentRows` | core/src/websocket/protocol.rs:599-619 | collects exactly the rows of persistent topics that have a value |
| `RegistryClass.NtRegistry.RestorePersistent` | core/src/websocket/protocol.rs:623-650 | creates a retained topic for each row whose name is new, in order |
| `RegistryClass.NtRegistry.OnConnect` | core/src/websocket/protocol.rs:711-732 | names the client and publishes the connection meta topics |
| `RegistryClass.NtRegistry.OnDisconnect` | core/src/websocket/protocol.rs:734-783 | takes the client and its name out, counts its publishers down, deletes orphans and updates the meta topics |
| `RegistryClass.NtRegistry.Serve` | core/src/websocket/server.rs:874-935 | serving any step a run allows extends by it the legal run the object has made: its state is the one that run leads to, its frames are the ones that step emits, the invariant holds of it again, and over all it ever sent each value frame's id is one its receiver was told for that topic |
| `Values.TypeStringRoundTrip` | core/src/websocket/protocol/datatype.rs:7-70 | every value's type has a type string and the string leads back to the type |
| `Saver.SavedMeansCurrent` | core/src/websocket/server.rs:297-326 | for every interleaving of registry steps with the saver and of failing file operations: once a save has finished, if the saver sees no newer generation the file holds the present snapshot; before that, the snapshot is the one it started with; and the file is never left half written |
| `Saver.MoveGood` | core/src/websocket/server.rs:304-322 | every move of saver or registry keeps what the saver holds right for the generation it read |
| `Saver.QuietSave` | core/src/websocket/server.rs:514-524 | a save nothing interrupts leaves the file equal to the snapshot and the generation noted |
| `Saver.RestartKeepsRows` | core/src/websocket/protocol.rs:599-650 | a fresh registry that restores the rows of a snapshot, in any order, would save exactly those rows again |
| `OutboundTheorems.WireInOrder` | core/src/websocket/transport.rs:131-188 | for every interleaving of any number of delivering threads with the writer thread, the socket carries each thread's frames in the order it delivered them, each at most once and unchanged |
| `OutboundTheorems.EveryFrameHasOneFate` | core/src/websocket/transport.rs:131-188 | in every reachable state each frame a thread is through with is exactly one of on the socket, still queued, or refused |
| `OutboundTheorems.FreeMeansFlushed` | core/src/websocket/transport.rs:42-99 | whenever the writer lock is free the batch is empty |
| `OutboundTheorems.AtRest` | core/src/websocket/transport.rs:260-283 | once everyone is idle and the queue drained, every frame ever handed over is on the socket or refused, and the drop counter counts exactly the refused frames of deliveries |
| `OutboundTheorems.NeverOvertakes` | core/src/websocket/transport.rs:126-135 | a thread about to write a value inline has every earlier frame of its own on the socket, in the batch it appends to, or refused |
| `OutboundTheorems.ThreadsNeverBlock` | core/src/websocket/transport.rs:131-188 | a thread in the middle of a delivery always has a step to take, whatever anyone holds |
| `OutboundTheorems.WorkShrinks` | core/src/websocket/transport.rs:131-188 | each own step brings a delivery nearer its end and no other step touches it |
| `OutboundTheorems.DeliverIsBounded` | core/src/websocket/transport.rs:131-188 | a delivery of n frames ends within 3n + 4 of the thread's own steps, whatever the others do in between |
| `OutboundTheorems.WriterWaitsForProgress` | core/src/websocket/transport.rs:42-80 | the writer waits only for its queue or for a delivering thread that can move, so the two sides cannot deadlock |
| `OutboundInv.StepKeeps` | core/src/websocket/transport.rs:42-188 | every atomic step of either side keeps the invariant: frames accounted for, lock where its holder thinks it is, batch empty when free, nothing of an inline writer queued, queue depth counted exactly |
| `OutboundInv.WriterKeeps` | core/src/websocket/transport.rs:42-80 | any writer step that only moves the pipeline along keeps the invariant |
| `OutboundClass.WebsocketWriter.WriteBatched` | core/src/websocket/frame.rs:375-377 | appends one frame behind everything sent or batched |
| `OutboundClass.WebsocketWriter.Flush` | core/src/websocket/frame.rs:390-400 | sends a non-empty batch as one binary frame and sends nothing for an empty one; nothing is reordered |
| `OutboundClass.WebsocketWriter.SendSingle` | core/src/websocket/frame.rs:407-453 | a text, raw or close frame goes out behind everything batched before it |
| `OutboundClass.Client.constructor` | core/src/websocket/transport.rs:112-118 | a new connection is the start of every run |
| `OutboundClass.Client.Enqueue` | core/src/websocket/transport.rs:181-189 | accepts exactly when the queue has room and a reader, counting before sending and uncounting a refusal; one schedule of the interleaving machine |
| `OutboundClass.Client.DeliverAll` | core/src/websocket/transport.rs:131-178 | the whole delivery is one schedule of the machine: it ends idle with every frame handed over and the refused ones counted |
| `OutboundClass.Client.WriterTurn` | core/src/websocket/transport.rs:48-79 | one turn of the writer is one schedule of the machine: the queue up to the first close frame ends on the socket in order, the buffer flushed and the lock free |
| `OutboundDispatch.Plan` | core/src/websocket/transport.rs:238-250 | keeps, for each connected client, exactly its routes in order, and nothing for others |
| `OutboundDispatch.GroupByClient` | core/src/websocket/transport.rs:267-279 | each client gets one group holding exactly its frames in order |
| `OutboundDispatch.Dispatch` | core/src/websocket/transport.rs:231-283 | each connected client with routes is written once, with exactly its routes in order |
| `MsgPackProofs.BeRound` | core/src/websocket/msgpack.rs:436-441 | a number written big-endian in enough bytes reads back |
| `MsgPackProofs.IntComesBack` | core/src/websocket/msgpack.rs:172-190 | every signed integer in its shortest form decodes to itself, whatever follows |
| `MsgPackProofs.UintComesBack` | core/src/websocket/msgpack.rs:157-165 | every unsigned 64-bit integer decodes to itself, whatever follows |
| `MsgPackProofs.ScalarComesBack` | core/src/websocket/msgpack.rs:53-93 | every scalar's encoding decodes to its normal form, whatever follows |
| `MsgPackProofs.ItemsComeBack` | core/src/websocket/msgpack.rs:229-239 | the elements of an array decode one after the other to their normal forms |
| `MsgPackProofs.ClassifyElems` | core/src/websocket/msgpack.rs:397-434 | the decoded elements of a typed array classify to that array's normal form |
| `MsgPackProofs.RoundTrip` | core/src/websocket/msgpack.rs:297-395 | every value that encodes decodes to its normal form, whatever bytes follow, using exactly its own bytes |
| `MsgPackProofs.ValueRoundTrip` | core/src/websocket/msgpack.rs:96-102 | decoding exactly an encoded value succeeds with its normal form |
| `MsgPackLaws.MeaningKept` | core/src/value.rs:140-178 | decoding a value's encoding and conforming to its own type gives back that type, and the same contents exactly when its 32-bit floats survive widening; empty arrays of every kind included |
| `MsgPackLaws.ReencodesSame` | core/src/websocket/msgpack.rs:53-93 | what comes back encodes to the very bytes that were sent exactly when the 32-bit floats of an array survive widening; every other value does |
| `MsgPackLaws.Truncated` | core/src/websocket/msgpack.rs:297-395 | every proper prefix of an encoding is refused as ended too soon |
| `MsgPackLaws.OneLocal` | core/src/websocket/msgpack.rs:297-395 | for any input, decoding depends only on the bytes it consumes |
| `MsgPackLaws.NestedTooDeep` | core/src/websocket/msgpack.rs:110-137 | any input is refused as too deep exactly when arrays of any size and header form nest past the limit before anything else is wrong with it, at whatever element the nesting starts |
| `MsgPackLaws.DecodedSendable` | core/src/websocket/msgpack.rs:397-434 | whatever decodes, from any input, can be encoded again |
| `MsgPack.DecodeOne` | core/src/websocket/msgpack.rs:297-395 | decoding consumes at least one byte and no more than there are |
| `MsgPack.DecodeArrayAt` | core/src/websocket/msgpack.rs:110-137 | an array has fewer elements than it takes bytes, so no count in the input is trusted |
| `MsgPackCodec.EncodeArrayHeader` | core/src/websocket/msgpack.rs:140-154 | writes the shortest header, or refuses a length past 32 bits |
| `MsgPackCodec.EncodeTypedArray` | core/src/websocket/msgpack.rs:229-239 | the element loop succeeds exactly when every length fits, and then appends header and elements |
| `MsgPackCodec.EncodeValue` | core/src/websocket/msgpack.rs:53-93 | encoding succeeds exactly when every length fits 32 bits, and then appends the value's encoding |
| `MsgPackCodec.DecodeArray` | core/src/websocket/msgpack.rs:110-137 | the element loop returns what the recursive specification does, errors included |
| `MsgPackCodec.Decode` | core/src/websocket/msgpack.rs:297-395 | the decoder returns what the specification does, errors included |
| `Messages.FourComeBack` | core/src/websocket/message.rs:372-423 | one message decodes from the front of any input to itself, its value in normal form, for every 32-bit topic id (the RTT id as -1) and every 64-bit timestamp |
| `Messages.BatchComesBack` | core/src/websocket/message.rs:358-371 | a concatenation of encoded messages decodes to exactly those messages in order |
| `Messages.FrameLaw` | core/src/websocket/message.rs:358-371 | a batch frame decodes exactly when it is not empty, to as many messages, each with topic, time and type unchanged and a value that conforms back to the one sent |
| `Messages.EncodeMessage` | core/src/websocket/message.rs:407-423 | appends one message's encoding to the frame |
| `Messages.DecodeFrame` | core/src/websocket/message.rs:358-371 | the frame loop returns what the specification does, errors and the empty frame included |
| `Messages.DecodeOneMessage` | core/src/websocket/message.rs:372-397 | one message is decoded as specified, errors included |
| `WpiLogProofs.RecordComesBack` | proto/src/wpilog.rs:184-197 | a record with a payload under 4 GiB reads back whole, whatever follows it |
| `WpiLogProofs.RecordExact` | proto/src/wpilog.rs:184-197 | a record reads back exactly when its payload is under 4 GiB: past that the size field spills into the timestamp length |
| `WpiLogProofs.FileComesBack` | proto/src/wpilog.rs:171-182 | the file header and any sequence of readable records parse back to those records |
| `WpiLogProofs.StartComesBack` | proto/src/wpilog.rs:199-221 | a start record tells its id, name and type |
| `WpiLogProofs.FinishComesBack` | proto/src/wpilog.rs:223-228 | a finish record tells its id |
| `WpiLogProofs.AppendInStep` | proto/src/wpilog.rs:230-257 | an append keeps a reader's open entries equal to the writer's and adds exactly that value to what the reader has seen |
| `WpiLogProofs.LogTellsAll` | proto/src/wpilog.rs:230-268 | any appends followed by a close tell a reader exactly what was appended, in order and under its channel and type; ids start once, are used only while open, and every entry is finished once |
| `WpiLogProofs.BytesTellAll` | proto/src/wpilog.rs:171-268 | the bytes of such a log parse back to its records, and the records tell what was appended |
| `WpiLogEnd.ValuesAreFar` | proto/src/wpilog.rs:259-268 | closed at timestamp 2^24 or later, no value starts within 16 bytes of the end |
| `WpiLogEnd.TinyIsNear` | proto/src/wpilog.rs:259-268 | closed earlier, the log of one empty value has it within 16 bytes of the end |
| `WpiLogEnd.ClosedFarIff` | proto/src/wpilog.rs:184-197 | a closed log keeps its values at least 16 bytes from the end exactly when its last value record and the finish records after it take 16 bytes together |
| `WpiLogEnd.FarExactly` | proto/src/wpilog.rs:259-268 | every log keeps that distance exactly when its closing timestamp is at least 2^24 |
| `WpiLogClass.CountBytes` | proto/src/wpilog.rs:27-35 | the loop finds the fewest bytes that hold the value |
| `WpiLogClass.PutLe` | proto/src/wpilog.rs:37-41 | the loop appends the low bytes, least significant first |
| `WpiLogClass.Writer.constructor` | proto/src/wpilog.rs:171-182 | a new log is the header alone with no entry open |
| `WpiLogClass.Writer.WriteRecord` | proto/src/wpilog.rs:184-197 | the output grows by exactly that record |
| `WpiLogClass.Writer.OpenEntry` | proto/src/wpilog.rs:199-221 | hands out the next id, records the start and opens the entry |
| `WpiLogClass.Writer.CloseEntry` | proto/src/wpilog.rs:223-228 | records a finish |
| `WpiLogClass.Writer.EntryId` | proto/src/wpilog.rs:230-240 | the channel has an open entry of that type afterwards; one of another type is finished first |
| `WpiLogClass.Writer.AppendValue` | proto/src/wpilog.rs:243-257 | records the value under its channel's entry |
| `WpiLogClass.Writer.OpenIds` | proto/src/wpilog.rs:261-263 | lists each open entry's id once |
| `WpiLogClass.Writer.CloseAll` | proto/src/wpilog.rs:261-268 | finishes every open entry once and leaves none open |
| `Listener.StepKeeps` | client/src/listeners.rs:38-71 | every step of either thread conserves what was called back, replayed, held and in hand, and passes values only once nothing is held |
| `Listener.CallsInOrder` | client/src/listeners.rs:33-71 | for every interleaving, the callback has seen a prefix of the snapshot followed by the delivered values: nothing out of order, twice or skipped |
| `Listener.NothingLost` | client/src/client.rs:600-628 | once the gate is open and no delivery is under way, the callback has seen the snapshot and every delivered value |
| `Listener.DirectOnlyWhenDrained` | client/src/listeners.rs:38-47 | a value passes straight through only when nothing is left to replay |
| `Listener.BufferedListener.constructor` | client/src/listeners.rs:24-30 | the gate starts closed with nothing held |
| `Listener.BufferedListener.DeliverValue` | client/src/listeners.rs:38-47 | a value is held while the gate is closed and called back once it is open |
| `Listener.BufferedListener.OpenGate` | client/src/listeners.rs:51-71 | everything held is called back in order, then the gate is open |
| `Telemetry.RunBounded` | core/src/server.rs:528-560 | every reachable registry and published table has at most 256 channels, at most 16 addresses each and no empty channel |
| `Telemetry.LeaseKept` | core/src/server.rs:537-550 | within a lease's time no registration by anyone takes it away or out of the published table, and renewing it succeeds |
| `Telemetry.RenewingStays` | core/src/server.rs:528-560 | an address that got a lease and renews in time is never refused or swept and stays in the published table, whatever else registers |
| `Telemetry.ExpiredGoes` | core/src/server.rs:537-541 | a lease not renewed in time is gone after the next registration of anyone else |
| `Telemetry.LeaseRegistry.RegisterTelemetry` | core/src/server.rs:528-560 | the method sweeps, admits or refuses, renews and publishes as specified, and keeps the bounds |
| `Pacing.IntervalWithinGaps` | core/src/websocket/pacing.rs:76-95 | in any stream the interval lies between the least and greatest gap of the current streak, the lower bound rounded down to a multiple of four, and never exceeds 250 ms; the streak counts those gaps |
| `Pacing.Followed` | core/src/websocket/pacing.rs:76-95 | the exact state after any number of arrivals of a followable period |
| `Pacing.PredictedExactly` | core/src/websocket/pacing.rs:76-103 | a periodic stream is predicted to within 3 ns from its third arrival on exactly when the period is 0 or from 4 ns to 250 ms |
| `Pacing.Predictor.Note` | core/src/websocket/pacing.rs:76-95 | after every arrival of any stream the streak is the number of gaps in step and the interval lies within those gaps, the lower bound rounded down to a multiple of four, and below 250 ms |
| `CivilDate.YearIs` | bench/src/report.rs:119-121 | the program's year formula finds the year and day of year for every day of an era |
| `CivilDate.CountsBack` | bench/src/report.rs:116-127 | every day number, negative ones included, gives a date the Gregorian calendar has, whose own day count is that number |
| `CivilDate.DatesBack` | bench/src/report.rs:116-127 | every date of the calendar is the date of its own day count |
| `CivilDate.NextCounts` | bench/src/report.rs:116-127 | the day after by the calendar's rules has the next day count |
| `CivilDate.Consecutive` | bench/src/report.rs:116-127 | consecutive day numbers give consecutive dates, and day 0 is 1 January 1970 |

## Left out

- Sockets, TLS, the WebSocket handshake, thread start and stop, timeouts: operating system and library calls; where they matter they are steps or sequences of frames.
- Write errors on a connection: the outbound model is of a working socket, so the early returns on a failed flush are not modelled; frames handed to it have at least one byte, as encoded messages do.
- JSON control messages and the JSON text of the saved file: steps start from decoded messages and end at rows; how a row's value is printed and parsed is not modelled.
- Contents of meta-topic payloads: they depend on hash order; the model keeps that some bytes value, or none, is published.
- `handle_unannounce`: no inbound message reaches it; not modelled.
- SubscriberIsSentLatest: speaks of topics without a `$` in front, since what meta topics are sent is an encoded payload the model takes from outside.
- RetainsWhatItHeard: speaks of the same topics, for the same reason, and so does StepHeard.
- AnnouncedBeforeValue: is about the order in which the registry emits; routes are dispatched after its lock is released, so order on the wire is per delivering thread.
- BytesTellAll: asks for fewer than 2^32 - 1 appends, lest the 32-bit entry counter wrap, and for names and payloads whose lengths fit their 32-bit fields.
- SavedMeansCurrent: the saving loop is a set of moves interleaved with registry steps and failures, not a method with a loop.
- Client ids are fresh within a run, as one accept loop makes them; ids left in fan-out lists by a disconnect are never reused there.
- Integer widths of counters: the registry's `next_id`, the generation, streaks and timestamps do not wrap in the model, and day numbers are unbounded where the code has 64 bits.
- Control replies sent as binary frames, compare-and-set, the read cache and its agreement with the registry.
- Conversion between float widths: opaque functions, so nothing is said about rounding.
- Map payloads of meta topics in MessagePack, and the typed payload encodings of log values: not modelled.
- Queueing and flushing in the log's writer thread, the ring buffer, the telemetry datagram header, the log relay: not modelled.
- Aliasing of the outbound `Client` between threads: `OutboundClass` methods run one call without interleaving; interleavings are covered by the state machine they are schedules of.
- Client reconnect and session replay, bindings for other languages, benchmarks and build tools.
- `history` of a topic, the handed-over frames of a thread, the registry's `History` and the saver's past snapshots are auxiliary: they record what happened so that it can be compared, and nothing the model does depends on them.
