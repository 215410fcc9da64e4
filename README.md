# bevy_nety core, modelled in Dafny

bevy_nety is a client/server networking layer for Bevy games. This model
covers its core. A session (`Network`) is disconnected, connecting, a
client, a server, or a server with a local client. Every tick
(`update_network`, `src/network.rs:285-303`) the server does the following,
in this order:

- it diffs its entity table against the live entities, sending despawns,
  spawns and ownership news to the players each entity is relevant to;
- it accepts sockets from its hosts as joiners;
- it promotes a joiner to player when that joiner sends `PlayerInit`;
- it introduces new players to each other;
- it routes one message per player (game events, and entity events to the
  entity's owner);
- it removes players whose socket disconnected;
- it sends the queued entity events.

Because the diff runs first, a player initialized during a tick is sent its
spawns in the next tick.

The client applies what the server sends to its roster and its entity mirror.
World-facing events go through an event queue that releases at most one
event per category per tick. Serialized payloads are tagged with their type
name and resolved through a registry. The TCP transport frames each message
with a two-byte little-endian length.

Each Rust object that is updated in place is a Dafny `class`:

- `Network`, `NetworkServer`, `NetworkClient`, `NetworkEventQueue`,
  `NetworkRegistry` and `NetworkRelevancy`;
- `TcpSocket` and `TcpConnector`.

Each pipeline function of `network.rs` is a `method` with loops that mirror
the source's loops. The methods are proved against value-level definitions,
such as `FanOut`, `Promoted`, `Introductions`, `Marked`, `Diffed`,
`RouteAll` and `Deframe`, and the properties are lemmas about those
definitions.

Parts that the source leaves to the caller's input become parameters:

- the codec (serialize/deserialize) is a pair of functions;
- fresh UUIDs are given handles;
- what the OS socket reads and writes is given as read and write outcomes;
- the walk order of a `HashMap` is a given duplicate-free sequence;
- the relevancy decision is a given function.

`server.Valid()` is the server invariant. The constructor establishes it,
and every server pipeline method requires it and ensures it again:

- every entity entry is stored under its own handle;
- initialized players form a prefix of the player list.

## Model

| member | source | states |
|---|---|---|
| Handles.FirstIndex | src/network.rs:226 | the index of the first element equal to `h`, None exactly when none is |
| Messages.Socket.Send | crates/bevy_nety_protocol/src/lib.rs:29 | one message is queued behind everything sent before; nothing received is touched |
| Messages.Socket.Receive | crates/bevy_nety_protocol/src/lib.rs:30 | the oldest waiting message, removed from the inbox; None exactly when nothing waits, and then the socket is unchanged |
| Payloads.FromStruct | src/serialized_struct.rs:14-22 | a payload carries the type name it was built from and the encoded value |
| Payloads.ToStruct | src/serialized_struct.rs:24-33 | decoding succeeds only when the payload's tag names the requested type |
| Payloads.RoundTrip | src/serialized_struct.rs:14-33 | with a lossless codec, decoding a payload as its own type gives back the value |
| Payloads.MismatchedTagRefused | src/serialized_struct.rs:24-33 | a payload of one type is refused when decoded as a type of another name |
| Payloads.Set | src/serialized_struct.rs:42-50 | storing a value replaces only the entry under its type name |
| Payloads.Get | src/serialized_struct.rs:52-61 | the stored payload under a type name, decoded as that type; None when absent |
| Payloads.GetAfterSet | src/serialized_struct.rs:42-61 | get after set of the same type returns the value set |
| Payloads.GetAfterSetOther | src/serialized_struct.rs:42-61 | setting one type leaves get of every other type name unchanged |
| Registry.WithEntry | src/registry.rs:99-103 | an absent name gets an empty entry, a present one is kept |
| Registry.WithSlot | src/registry.rs:105-142 | after registering, the entry exists with the slot filled; a filled slot is never overwritten; other slots and names are unchanged |
| Registry.WithSlotIdempotent | src/registry.rs:105-142 | registering twice equals registering once |
| Registry.WithSlotKeepsOtherSlots | src/registry.rs:105-142 | registering under one slot does not register under another |
| Registry.UnregisteredIsAbsent | src/registry.rs:165-174 | a name that was never registered is not found |
| Registry.NetworkRegistry.constructor | src/registry.rs:93-96 | the registry starts empty |
| Registry.NetworkRegistry.GetOrInsertEntry | src/registry.rs:99-103 | the entry for the name, inserted empty when absent, nothing else changed |
| Registry.NetworkRegistry.GetOrInsertSlot | src/registry.rs:105-142 | fills one slot of one entry if empty, as `WithSlot` describes |
| Registry.NetworkRegistry.AddNetworkEvent | src/registry.rs:144-149 | the type is registered as an event |
| Registry.NetworkRegistry.AddNetworkEntityEvent | src/registry.rs:151-156 | the type is registered as an entity event |
| Registry.NetworkRegistry.AddNetworkPlayerData | src/registry.rs:158-163 | the type is registered as player data |
| Registry.NetworkRegistry.GetEntry | src/registry.rs:165-167 | the entry registered under the type's name, None when there is none |
| Registry.NetworkRegistry.GetEntryFromSerialized | src/registry.rs:169-174 | the entry registered under the payload's tag |
| Registry.NetworkRegistry.SerializedResolvesToOwnType | src/registry.rs:169-174 | a payload built from type T resolves to T's own entry |
| Relevancy.UpdateTable | src/relevancy.rs:18-30 | the first update of a pair records it and reports Spawn; later ones report Relevant and change nothing |
| Relevancy.SpawnReportedOnce | src/relevancy.rs:18-30 | Spawn is reported at most once per pair |
| Relevancy.UpdatesOnlyGrow | src/relevancy.rs:18-38 | updates never make a relevant pair irrelevant |
| Relevancy.UpdateAllRelevant | src/relevancy.rs:18-38 | after a run of updates, exactly the old and the updated pairs are relevant |
| Relevancy.NetworkRelevancy.constructor | src/relevancy.rs:11-15 | the table starts empty |
| Relevancy.NetworkRelevancy.Update | src/relevancy.rs:18-30 | reports Spawn exactly when the pair was not yet relevant, and the table becomes `UpdateTable`'s |
| Events.Front | src/event_queue.rs:44-77 | a pop yields nothing exactly when the queue is empty, else its first element |
| Events.FrontAndRest | src/event_queue.rs:44-77 | a pop loses nothing: front followed by the rest is the queue |
| Events.Popped | src/event_queue.rs:43-78 | after a release every queue has lost exactly its front |
| Events.PieceIsFront | src/event_queue.rs:44-77 | each category releases the front of its own queue, if it has one |
| Events.ReleaseOrder | src/event_queue.rs:43-78 | one release hands out queue fronts only, at most one per category, in the fixed order connect, connecting, disconnect, player join, player leave, network |
| Events.ConnectFifo | src/event_queue.rs:19-21 | repeated releases hand out the connect events first in, first out |
| Events.EventQueue.constructor | src/event_queue.rs:8-16 | every queue starts empty |
| Events.EventQueue.Connect | src/event_queue.rs:19-21 | the event goes to the back of its queue; the other queues are unchanged |
| Events.EventQueue.Connecting | src/event_queue.rs:23-25 | the event goes to the back of its queue; the other queues are unchanged |
| Events.EventQueue.Disconnect | src/event_queue.rs:27-29 | the event goes to the back of its queue; the other queues are unchanged |
| Events.EventQueue.PlayerJoin | src/event_queue.rs:31-33 | the event goes to the back of its queue; the other queues are unchanged |
| Events.EventQueue.PlayerLeave | src/event_queue.rs:35-37 | the event goes to the back of its queue; the other queues are unchanged |
| Events.EventQueue.Network | src/event_queue.rs:39-41 | the event goes to the back of its queue; the other queues are unchanged |
| Events.EventQueue.PopConnect | src/event_queue.rs:44-49 | the front connect event, or nothing when the queue is empty, and the queue loses it |
| Events.EventQueue.PopConnecting | src/event_queue.rs:50-55 | the front connecting event, or nothing when empty, and the queue loses it |
| Events.EventQueue.PopDisconnect | src/event_queue.rs:56-61 | the front disconnect event, or nothing when empty, and the queue loses it |
| Events.EventQueue.PopPlayerJoin | src/event_queue.rs:62-67 | the front join event, or nothing when empty, and the queue loses it |
| Events.EventQueue.PopPlayerLeave | src/event_queue.rs:68-73 | the front leave event, or nothing when empty, and the queue loses it |
| Events.EventQueue.PopNetwork | src/event_queue.rs:74-77 | the front network event, or nothing when empty, and the queue loses it |
| Events.EventQueue.SendToWorld | src/event_queue.rs:43-78 | the released events are `Released` of the old queues (ordered as `ReleaseOrder` proves) and the queues become `Popped` |
| Server.Appended | src/server.rs:53-60 | only the player's socket outbox changes, by exactly the given messages |
| Server.Deliver | src/server.rs:53-60 | one message is appended to the player's socket, nothing else changes |
| Server.FanOut | src/server.rs:49-98 | every included player gets exactly the message appended, every other is unchanged; the list keeps its length and order |
| Server.AllButNobodyIsEveryone | src/server.rs:63-82 | with no local player, sending to all except local equals sending to all |
| Server.ListedNobodySendsNothing | src/server.rs:84-98 | sending to an empty list changes nobody |
| Server.ListedIgnoresUnknown | src/server.rs:84-98 | a listed handle that no player has makes no difference |
| Server.FanOutAllAppendsSends | src/server.rs:49-98 | after several fan-outs each socket holds its old messages followed by exactly those addressed to it, in order |
| Server.FanOutAllKeepsPrefix | src/server.rs:49-98 | sending changes no player's flag, so the initialized players stay first |
| Server.PlayerHandles | src/server.rs:100-102 | the player handles in list order |
| Server.NetworkServer.constructor | src/server.rs:38-47 | the given hosts and local player; no joiners, players or entities |
| Server.NetworkServer.Broadcast | src/server.rs:49-98 | the player list becomes `FanOut` of the message; handles and flags stay as they were, so `SameFlagsKeepPrefix` keeps the invariant |
| Server.NetworkServer.SendToAll | src/server.rs:49-61 | every player is sent the event |
| Server.NetworkServer.SendToAllExceptLocal | src/server.rs:63-82 | every player except the local one is sent the event |
| Server.NetworkServer.SendToPlayers | src/server.rs:84-98 | exactly the players whose handle is listed are sent the event |
| Server.NetworkServer.Players | src/server.rs:100-102 | the player handles in list order |
| Server.NetworkServer.GetOrInsertEntity | src/server.rs:104-114 | a fresh existing entry is inserted only when the handle is absent; other entries are unchanged |
| Client.RosterHandles | src/client.rs:71-73 | the roster handles in roster order |
| Client.NetworkClient.constructor | src/client.rs:34-43 | not initialized, empty roster and entity mirror |
| Client.NetworkClient.Send | src/client.rs:45-55 | exactly one `Event` with the payload is sent |
| Client.NetworkClient.SendToEntity | src/client.rs:57-69 | exactly one `EntityEvent` for the entity, naming this client as sender, is sent |
| Client.NetworkClient.Players | src/client.rs:71-73 | the roster handles in roster order |
| Client.NetworkClient.IsEntityOwner | src/client.rs:75-81 | false for an unknown entity, the entry's owner flag otherwise |
| Session.Network.constructor | src/network.rs:33-45 | a disconnected session with no server, client or connector |
| Session.Network.StartLocal | src/network.rs:48-59 | a server whose local player is the client's own handle, plus that client, each given a fresh socket; connected, Connect announced |
| Session.Network.StartServerClient | src/network.rs:61-74 | as StartLocal, with the local host added after the given hosts |
| Session.Network.StartServer | src/network.rs:75-85 | a server with no local player, connected, Connect announced |
| Session.Network.StartClient | src/network.rs:86-89 | a connecting session with the connector, Connecting announced |
| Session.Network.Stop | src/network.rs:91-96 | from any state: disconnected and a Disconnect that is not a failed connect announced |
| Session.Network.StatesAreExclusive | src/network.rs:98-132 | a valid connected session is a server or a client (the other clauses restate that the three states are disjoint) |
| Session.Network.Me | src/network.rs:162-168 | the client's own player exactly when there is a client |
| Session.Network.Players | src/network.rs:170-183 | the server's players, else the client's roster, else none |
| Session.Network.SetMyPlayerData | src/network.rs:185-217 | refused unless T is registered player data and the session is disconnected; on success only T's entry changes |
| Session.Network.GetPlayerData | src/network.rs:219-252 | the default when the session is not connected or when the handle is unknown to the server, or to the client when there is no server |
| Session.Network.ServerAbsentDataGivesDefault | src/network.rs:226-231 | a server asked for a known player whose first entry holds nothing for T answers the default |
| Session.Network.ClientAbsentDataGivesDefault | src/network.rs:236-241 | a client alone asked for a known roster entry whose first entry holds nothing for T answers the default |
| Session.Network.ClientPlayerDataRoundTrip | src/network.rs:235-245 | with a lossless codec a client alone hands back the value the first roster entry for the handle carries |
| Session.Network.ServerPlayerDataRoundTrip | src/network.rs:219-234 | with a lossless codec a server hands back the value the player set |
| Session.Network.UpdateConnector | src/network.rs:305-331 | Connected makes a client session and announces Connect; Failed disconnects and announces a failed connect; Connecting changes nothing |
| Session.Network.ClientInitialize | src/network.rs:333-350 | an uninitialized client sends exactly one `PlayerInit` with its handle and data, and is then initialized |
| Session.Network.ClientCheckDisconnect | src/network.rs:726-737 | a disconnected client socket ends the session with a non-failure Disconnect; otherwise nothing changes |
| AcceptPipeline.AsJoiners | src/network.rs:508-511 | one uninitialized joiner per socket, same order |
| AcceptPipeline.AsJoinersAppend | src/network.rs:506-513 | joiners of consecutive runs are the consecutive runs of joiners |
| AcceptPipeline.AcceptedJoinerPosition | src/network.rs:506-513 | socket `j` of host `h` becomes new joiner number (sockets at earlier hosts) + `j`, and there is one new joiner per pending socket |
| AcceptPipeline.PendingAt | src/network.rs:506-513 | hosts are drained in host order and each backlog oldest first, so a socket's place is fixed by its host and its position |
| AcceptPipeline.ServerAcceptSockets | src/network.rs:503-514 | every backlog ends empty, the joiners grow by the pending sockets in host order, and the server invariant is kept |
| AcceptPipeline.AcceptFromHosts | src/network.rs:506-513 | the loop over the hosts: every backlog emptied into joiners in host order |
| AcceptPipeline.AcceptAll | src/network.rs:508-511 | one host's backlog is emptied into joiners, oldest first |
| AcceptPipeline.Accept | src/network.rs:509-510 | the oldest pending socket becomes the last joiner |
| JoinPipeline.FirstInit | src/network.rs:585-602 | the position of the first `PlayerInit`, None exactly when there is none |
| JoinPipeline.Promoted | src/network.rs:585-602 | a joiner's first `PlayerInit` names the new player and its data; its socket keeps what came after |
| JoinPipeline.Waiting | src/network.rs:585-602 | a joiner without `PlayerInit` stays, with everything read |
| JoinPipeline.PromotedOrWaiting | src/network.rs:578-606 | a joiner with a socket is promoted or waits, never both; one without does neither |
| JoinPipeline.NewPlayers | src/network.rs:578-606 | the promoted players in joiner order |
| JoinPipeline.HandshakeAccountsForEveryJoiner | src/network.rs:578-606 | every joiner with a socket becomes exactly one player or one waiting joiner, and a waiting one has nothing left to read |
| JoinPipeline.KeepWithSocket | src/network.rs:605 | the joiners that still have a socket, in order |
| JoinPipeline.KeepAfterPassIsStillWaiting | src/network.rs:578-606 | the joiners kept after a pass are exactly those still waiting |
| JoinPipeline.ReadUntilInit | src/network.rs:585-602 | messages are read until the first `PlayerInit`, which promotes the joiner; a dry socket keeps it waiting |
| JoinPipeline.ServerReceiveMessagesFromJoiners | src/network.rs:578-606 | players grow by `NewPlayers` in joiner order, and the joiners become the waiting ones |
| JoinPipeline.NewcomerLearnsRosterInOrder | src/network.rs:623-645 | a newcomer is sent every player's handle in list order, `me` only at its own position |
| JoinPipeline.ExistingPlayerHearsOfNewcomers | src/network.rs:623-645 | an initialized player hears of each newcomer once, in order, never of itself |
| JoinPipeline.IntroduceNewcomer | src/network.rs:623-645 | the newcomer and every player ahead of it learn of each other; players behind are unchanged |
| JoinPipeline.IntroduceTo | src/network.rs:624-644 | player `j` and the newcomer learn of each other if `j` is initialized |
| JoinPipeline.InitializeNewcomer | src/network.rs:616-646 | one newcomer's introductions and flag, as stage `i + 1` |
| JoinPipeline.AnnounceJoin | src/network.rs:616-622 | a join event for the newcomer exactly when the server has no local player |
| JoinPipeline.ServerInitializePlayers | src/network.rs:608-649 | newcomers are introduced in list order and announced when there is no local player; the server invariant is kept |
| JoinPipeline.InitializeEach | src/network.rs:614-648 | the loop over the players: the list moves through the stages to the last, and the join events are those of the newcomers |
| JoinPipeline.InitializeLeavesEveryoneInitialized | src/network.rs:608-649 | afterwards every player is initialized and the invariant holds |
| RoutingPipeline.SendToFirst | src/network.rs:686-699 | only the first player with the handle is sent the message |
| RoutingPipeline.Route | src/network.rs:665-716 | one player's turn: at most one message received and routed |
| RoutingPipeline.RouteOnlyReadsSender | src/network.rs:665-716 | a turn changes no handle or flag, only appends to outboxes, and receives only from its own player |
| RoutingPipeline.ReadsAtMostOnePerPlayer | src/network.rs:651-724 | after all turns each inbox lost exactly its oldest message, if any |
| RoutingPipeline.OwnerEventReachesRelevantOthers | src/network.rs:701-716 | an owner's entity event reaches every other player it is relevant to, never the sender |
| RoutingPipeline.UnknownEntityDropped | src/network.rs:673-700 | an entity event for an unknown entity is dropped |
| RoutingPipeline.LocallyOwnedEventQueued | src/network.rs:675-685 | an event for an unowned or locally owned entity goes to the server's queue and to no socket |
| RoutingPipeline.ForwardedOnlyToOwner | src/network.rs:686-699 | an event for another player's entity reaches only the first holder of the owner's handle, else it is dropped |
| RoutingPipeline.GameEventTaggedWithSender | src/network.rs:669-671 | a game event is queued tagged with its sender |
| RoutingPipeline.SendToOwner | src/network.rs:686-699 | the find-then-send, as `SendToFirst` |
| RoutingPipeline.RouteFrom | src/network.rs:665-716 | one turn, as `Route` |
| RoutingPipeline.ServerReceiveMessagesFromPlayers | src/network.rs:651-724 | the players and the queued events are those of `RouteAll`; the server invariant is kept |
| RoutingPipeline.EntityDispatches | src/network.rs:832-848 | each queued entity message goes to every player it is relevant to, in queue order |
| RoutingPipeline.ServerSendEntityEvents | src/network.rs:832-848 | the players are sent `EntityDispatches`, the queue ends empty, and the server invariant is kept |
| RoutingPipeline.DrainEntityMessages | src/network.rs:841-847 | the loop: queued messages are sent oldest first until the queue is empty |
| RoutingPipeline.DrainNext | src/network.rs:842-846 | one pass: the oldest queued message leaves the queue and reaches the players it is relevant to |
| RoutingPipeline.EntityMessagesReachRelevantPlayers | src/network.rs:841-847 | each player receives exactly the queued messages whose entity is relevant to it, in order |
| RoutingPipeline.SendsAreRelevantMessages | src/network.rs:841-847 | what the dispatches send to a player is exactly its relevant messages |
| ClientPipeline.WithoutHandle | src/network.rs:540 | the result holds no entry with the handle and every entry of the roster without it; it is no longer than the roster |
| ClientPipeline.WithoutHandleAppend | src/network.rs:540 | filtering distributes over concatenation, so surviving entries keep their order and none is repeated |
| ClientPipeline.RosterAppendsInArrivalOrder | src/network.rs:525-542 | without leaves the roster grows by the announced players in arrival order |
| ClientPipeline.ExistingFlagUntilOwnJoin | src/network.rs:526-528 | the existing-player flag stays true until the client's own join, then stays false |
| ClientPipeline.JoinEventReportsFlag | src/network.rs:533-537 | a join event carries the handle and `me`, and reports "existing" exactly while the flag is set and the join is not the client's own |
| ClientPipeline.LeaveRemovesEveryEntry | src/network.rs:539-542 | a leave removes every entry with the handle, keeps the rest and queues one leave event |
| ClientPipeline.EntityMessagesTouchOneEntry | src/network.rs:546-567 | spawn (re)creates one entry; despawn and owner change one flag of a known entry; unknown handles change nothing |
| ClientPipeline.ApplyOneMore | src/network.rs:516-576 | applying one more message extends the run by one step |
| ClientPipeline.ApplyMessage | src/network.rs:521-572 | one message applied to the client and the queues |
| ClientPipeline.ApplyNext | src/network.rs:519-574 | one iteration of the receive loop |
| ClientPipeline.ClientReceiveMessages | src/network.rs:516-576 | every waiting message is applied in arrival order and nothing is left to receive |
| DisconnectPipeline.Disconnected | src/network.rs:744-749 | the handles of the disconnected players, in list order |
| DisconnectPipeline.Without | src/network.rs:750-752 | the players whose handle is not removed, order kept |
| DisconnectPipeline.RemovesExactlyTheDisconnected | src/network.rs:744-752 | with distinct handles exactly the disconnected players are removed, the rest keep their order |
| DisconnectPipeline.WithoutKeepsPrefix | src/network.rs:750-752 | removing players keeps the initialized players first |
| DisconnectPipeline.WithoutIgnoresForeign | src/network.rs:750-752 | a handle no player has makes no difference |
| DisconnectPipeline.LeaveDispatches | src/network.rs:753-767 | one `PlayerLeave` to every remaining player per removed handle |
| DisconnectPipeline.LeaveEvents | src/network.rs:753-767 | one leave event per removed handle, in removal order |
| DisconnectPipeline.LeaveMessages | src/network.rs:753-767 | the leave messages any one player is sent |
| DisconnectPipeline.LeaveSendsToEveryone | src/network.rs:753-767 | every survivor is sent the leave of every removed player |
| DisconnectPipeline.SurvivorsHearEveryLeave | src/network.rs:739-768 | every survivor is sent one `PlayerLeave` per removed player, in removal order, and nothing else changes |
| DisconnectPipeline.ServerCheckDisconnects | src/network.rs:739-768 | the survivors after the leave messages; leave events queued only without a local player; the server invariant is kept |
| DisconnectPipeline.CollectDisconnected | src/network.rs:744-749 | the disconnected handles, as `Disconnected` |
| DisconnectPipeline.AnnounceLeaves | src/network.rs:753-767 | the leave messages and events for every removed handle |
| DisconnectPipeline.Retain | src/network.rs:750-752 | the players become `Without` the removed handles |
| DiffPipeline.Absent | src/network.rs:355-357 | every entry marked as not existing |
| DiffPipeline.Revived | src/network.rs:359-361 | each live handle has an entry (new if needed) marked as existing |
| DiffPipeline.MarkedShape | src/network.rs:355-361 | an entry exists exactly when its handle is live; old entries keep handle and ownership |
| DiffPipeline.Vanished | src/network.rs:369-384 | the walked handles that are not live, in walk order |
| DiffPipeline.Live | src/network.rs:386-450 | the walked handles that are live, in walk order |
| DiffPipeline.VanishedNoDup | src/network.rs:369-384 | no vanished handle is listed twice |
| DiffPipeline.DespawnDispatches | src/network.rs:369-384 | pointwise: the x-th dispatch is `EntityDespawn` of the x-th vanished handle to every non-local player it is relevant to |
| DiffPipeline.DespawnsReachRelevantNonLocal | src/network.rs:369-384 | a player is sent one despawn per vanished handle relevant to it; the local player none |
| DiffPipeline.DespawnsNotRepeated | src/network.rs:369-384 | no player gets the same despawn twice |
| DiffPipeline.LiveMessagesMeaning | src/network.rs:388-439 | the local player gets nothing; spawn/despawn exactly on the decision; ownership news only to the new and previous owner |
| DiffPipeline.RelevancyMessagesMeaning | src/network.rs:398-415 | a spawn exactly on Spawn, a despawn exactly on Despawn |
| DiffPipeline.OwnershipMessagesMeaning | src/network.rs:416-439 | `true` to the new owner and `false` to the previous one, only after a change |
| DiffPipeline.EntityPass | src/network.rs:387-440 | the inner loop's messages for one entry |
| DiffPipeline.LivePasses | src/network.rs:386-450 | the live loop's passes, entry by entry |
| DiffPipeline.LivePassesAppendLiveSends | src/network.rs:386-450 | each socket holds its old messages followed by its live messages, nothing else changes |
| DiffPipeline.LivePassesKeepPrefix | src/network.rs:386-450 | the live loop changes no player's flag, so the initialized players stay first |
| DiffPipeline.LocalPlayerHearsNothingLive | src/network.rs:388-397 | the local player is sent nothing by the live loop |
| DiffPipeline.DiffedShape | src/network.rs:385-450 | the table keys are exactly the live handles, no owner change pending, every owner a player |
| DiffPipeline.ServerEntitiesDiff | src/network.rs:352-451 | the table ends as `Diffed`, the players are sent the despawns and then the live messages, and the server invariant is kept |
| DiffPipeline.MarkedCoversOrder | src/network.rs:359-385 | the walk order covers the marked table |
| DiffPipeline.RetainedIsLive | src/network.rs:385 | retaining existing entries keeps exactly the live handles |
| DiffPipeline.RetainExisting | src/network.rs:385 | the table keeps exactly its existing entries |
| DiffPipeline.MarkAllAbsent | src/network.rs:355-357 | the table becomes `Absent` |
| DiffPipeline.MarkLive | src/network.rs:359-361 | the table becomes `Revived` |
| DiffPipeline.SendDespawns | src/network.rs:369-384 | the players are sent `DespawnDispatches` |
| DiffPipeline.SendLive | src/network.rs:386-450 | the players are sent `LivePasses` and every entry is settled |
| DiffPipeline.OfferEntity | src/network.rs:387-440 | every player is offered the entry, as `EntityPass` |
| DiffPipeline.SendDecision | src/network.rs:398-415 | the decision's messages, as `RelevancyMessages` |
| DiffPipeline.SendOwnership | src/network.rs:416-439 | the ownership messages, as `OwnershipMessages` |
| DiffPipeline.SettleEntity | src/network.rs:441-449 | an owner change is acknowledged and an owner who left is dropped |
| Tcp.LengthPrefix | crates/bevy_nety_tcp/src/lib.rs:100-102 | two bytes that read back as the length modulo 2^16 |
| Tcp.Frame | crates/bevy_nety_tcp/src/lib.rs:100-103 | the header followed by the message, two bytes longer |
| Tcp.Deframe | crates/bevy_nety_tcp/src/lib.rs:108-123 | None, with the buffer untouched, until header and body are buffered; a returned message was framed at the front of the buffer |
| Tcp.HeaderRoundTrip | crates/bevy_nety_tcp/src/lib.rs:100-112 | a header read back and written again is the same two bytes |
| Tcp.DeframeAll | crates/bevy_nety_tcp/src/lib.rs:108-123 | what is left after receiving until None holds no complete frame |
| Tcp.ReceivesInOrder | crates/bevy_nety_tcp/src/lib.rs:99-123 | short framed messages are received back exactly, in order, before whatever follows |
| Tcp.FramesRoundTrip | crates/bevy_nety_tcp/src/lib.rs:99-123 | a stream of short framed messages is received whole, nothing left |
| Tcp.IncompleteFrameWaits | crates/bevy_nety_tcp/src/lib.rs:109-122 | a frame missing any byte stays in the buffer and nothing is returned |
| Tcp.OversizedMessageIsCutShort | crates/bevy_nety_tcp/src/lib.rs:101-116 | a message of 2^16 bytes or more comes back cut to its length modulo 2^16, the rest read as the next frame |
| Tcp.TcpSocket.constructor | crates/bevy_nety_tcp/src/lib.rs:29-34 | empty buffers, connected |
| Tcp.TcpSocket.Update | crates/bevy_nety_tcp/src/lib.rs:81-95 | bytes read are appended; a zero read or a non-WouldBlock error disconnects; WouldBlock changes nothing |
| Tcp.TcpSocket.Connected | crates/bevy_nety_tcp/src/lib.rs:96-98 | the connected flag |
| Tcp.TcpSocket.Send | crates/bevy_nety_tcp/src/lib.rs:99-107 | old buffer plus the frame equals what the stream took plus the new buffer |
| Tcp.TcpSocket.Receive | crates/bevy_nety_tcp/src/lib.rs:108-123 | the message and the remaining buffer are `Deframe` of the old buffer |
| Tcp.TcpConnector.constructor | crates/bevy_nety_tcp/src/lib.rs:46-60 | holds a fresh connected socket exactly when the connect succeeded |
| Tcp.TcpConnector.Status | crates/bevy_nety_tcp/src/lib.rs:63-71 | the stream on the first call after success, Failed otherwise; the connector ends empty |
| Tcp.Accept | crates/bevy_nety_tcp/src/lib.rs:26-38 | a fresh connected socket exactly when a connection was pending |

## Left out

- Bevy systems and glue are not modelled:
  - `update_network` and `send_events`;
  - `client_spawn_despawn_entities`, `update_entities` and `entity_owner_send_events`;
  - the registry's stored closures and `add_network_data.rs`.

  They move data between the ECS world and the core. Each pipeline step they call is modelled on its own.
- Serialization (ron) is a parameter, because it is an external library. Properties that need it assume a lossless codec.
- UUID generation is random. Fresh handles are inputs.
- Operating-system socket I/O is given as read and write outcomes. `TcpSocket::disconnect` (shutdown) and `TcpHost::listen` are left out, because they only call the OS.
- The abstract socket's `update` is a no-op in the pipelines. `host.update()` is a no-op as well.
- UTF-8 validation of received text is left out, because the messages travel as values.
- `HashMap` iteration order is an input `order`, because Rust leaves it unspecified.
- The relevancy decision `update(player, entity, exists)` that `server_entities_diff` calls is the input `decide`. `relevancy.rs` shows only the two-argument `update`, and that one is modelled as `Relevancy.UpdateTable`.
- DiffPipeline.ServerEntitiesDiff: holds the relevancy table fixed. The three-argument `relevancy.update` at `src/network.rs:398` takes `&mut self`, but its body is not part of this model. The model therefore does not capture how the diff changes the table, or how `relevant()` changes from one tick to the next because of it. The despawn loop reads the table before the first `update` call, so its contract is unaffected.
- Session.Network.StartLocal: the host's pending socket and the client's socket are two independent fresh sockets. The in-memory pair that links them is not part of this model, so nothing carries what one side sends to the other.
- Session.Network.StartServerClient: the same independent pair of sockets as `StartLocal`.
- `set_entity_relevant` calls `set_relevant`, which `relevancy.rs` does not define.
- The server's `network_server`/`network_entity` event queues are the returned lists of local deliveries.
- The accessors `server()`, `server_mut()`, `client()` and `client_mut()` are plain field reads of the session state.
- JoinPipeline.ServerInitializePlayers: requires initialized players to form a prefix of the list, which `server.Valid()` keeps. It also requires distinct player handles, which the source does not check: handles are fresh UUIDs.
- Tcp.ReceivesInOrder: holds only for messages shorter than 2^16 bytes. `Tcp.OversizedMessageIsCutShort` states what happens to longer ones.
- Tcp.FramesRoundTrip: holds only for messages shorter than 2^16 bytes, as above.
- Events.ConnectFifo: proved for the connect queue only. The other five queues are popped by the same code.
- Tcp.TcpSocket.Update: assumes a read returns at most the 16384-byte chunk it was given.
- Tcp.TcpSocket.Send: assumes the stream never reports more bytes written than were offered.
