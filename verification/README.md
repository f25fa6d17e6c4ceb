# Reverie network: a verified model

A node of the network hosts an agent inside a trusted environment (its *vessel*). The agent's
secrets are encrypted to another node, the *next vessel*, and can be opened only with fragments
that a group of *providers* re-encrypt. When a vessel falls silent, the next vessel collects the
fragments, opens the secrets, raises the agent's nonce and starts the same arrangement again.
Beside the nodes runs a proxy that watches the traffic between agents and language models and
reports what was used; the nodes keep a ledger of those reports.

This project models the stateful parts of both and proves what they guarantee.

| files | what they model |
|---|---|
| `Types.dfy`, `Umbral.dfy`, `Messages.dfy` | identifiers, symbolic proxy re-encryption, reveries, messages, commands |
| `PeerManager.dfy` | the maps a node keeps about its peers, as a class and as values |
| `NodeClient.dfy` | splitting and broadcasting a reverie, parsing fragments, reconstructing, respawning |
| `NetworkEvents.dfy`, `NodeRuns.dfy` | one node's event loop, its tick, and whole runs of it |
| `RespawnNetwork.dfy`, `RespawnInvariant.dfy`, `RespawnSteps.dfy`, `RespawnProgress.dfy`, `RespawnTheorems.dfy`, `RespawnScenario.dfy` | the whole network as a step system, its invariant, what follows from it, and runs that show it happening |
| `HeartbeatHandler.dfy`, `HeartbeatBehaviour.dfy`, `HeartbeatSystem.dfy` | the two coupled heartbeat machines and all their interleavings |
| `TeeQuoteParser.dfy`, `HeartbeatData.dfy` | the heartbeat frame and the moving window over heartbeats |
| `SseParser.dfy`, `TeeBody.dfy`, `Usage.dfy`, `UsageLedger.dfy` | event-stream parser, teed bodies, usage reports, the ledger of reports |
| `ReverieNames.dfy` | printing and reading back names with nonces |

Objects that the program changes in place are classes here. Their methods are proved equal to a
function on values (`View() == F(old(View()))`), and the lemmas are about those functions. A node
in the network model is such a value, so everything proved of the network is about the very
functions that the methods of `NetworkEvents`, `PeerManager` and `NodeClient` implement.

## Assumptions

- Reverie ids are never reused: an id is the rank of the broadcast in the network's history.
- A node's list of vessel statuses has one entry per peer, none for itself, and the keys in it
  are those of the peer (`NodeClients.GenuineVessels`). Thus source and target of a broadcast
  differ.
- Whoever spawns asks for a threshold of at least one and, for a sovereign agent, gives secrets that
  name it and leaves its access condition at the default (`RespawnNetwork.SpawnAllowed`).
- A request or reply in flight is delivered at most once; it may be delayed, reordered or lost, and
  the requester's connection may be gone when a request is to be answered. A request reported as
  failed may still arrive, and its response is then dropped.
- Kademlia accepts the records that a node puts.
- A client that looks up a reverie other than a sovereign agent's finds one that was broadcast under
  that id, or nothing.
- Commands and events between a node's client and its event loop are queued and never dropped.
- One tick uses one reading of the clock.
- Umbral is symbolic: a fragment carries its key fragment's identity, and a ciphertext opens
  exactly for the receiving key with enough distinct fragments of one generation
  (`Umbral.DecryptReencrypted`).
- JSON printing and parsing of a stored tool input and of a heartbeat message are inverse
  (`UsageLedger.Inverse`, `TeeQuoteParsing.Inverse`).
- The swarm reports a negotiated outbound stream or a failed dial once per stream asked for
  (`HeartbeatHandlers.SwarmAllows`).
- The attestation device returns the bytes of the quote it has just made, and an attestation that
  comes in was read from a frame (`HeartbeatSystem.Genuine`).

## Where the code and its description differ

The model follows the code.

- The scheme is a threshold scheme, but reconstruction stops at the first provider that fails
  (`node/p2p-network/src/node_client/mod.rs:441`). `RespawnTheorems.ReconstructsOriginal` gives the
  exact condition, every provider has answered well, and `RespawnScenario.OneFailureSpoilsRespawn`
  a run in which enough good fragments are not enough. The threshold compared is the last
  fragment's (line 460).
- Errors and panics while a request is handled end the event loop of the node that received it.
  `RespawnTheorems.EndsReceiverIff` says exactly when: the requester's connection is gone, or the
  request asks for a fragment that is missing or that its key does not open. A respawn's own
  requests fail only for a missing fragment (`RespawnTheorems.RefusedIffMissing`); the key of a
  retrieval is the caller's, and `RespawnScenario.RetrievalEndsProvider` shows one ending a provider
  that holds the fragment.
- A repeated connection, a routing update or an announcement overwrites a peer's entry and with it
  the vessel record (`node/p2p-network/src/network_events/peer_manager/mod.rs:79-84`), so a silent
  vessel may then go unnoticed. `NodeRuns.NoticedIff` says exactly when a takeover happens: the tick
  finds the vessel silent and nothing since its registration has erased the record.
  `RespawnScenario.ReconnectHidesVessel` is a run in which one more connection makes the difference.
- A reverie of type `Agent` is dispatched by the tick and then rejected by the client;
  `RespawnTheorems.TakenUpIff` shows that nothing else is rejected. No request that the program
  serves creates a reverie of that type.
- The count of dial failures is never cleared, which `HeartbeatHandlers.DialErrorIsFinal` turns
  into a guarantee.
- The spender given to the log task never reaches a streaming report
  (`UsageReports.SpenderNeverReported`), and a stop with no tokens does not start a new accumulation.
- A window of size zero is not a bound at all, and the average over it ends in a panic
  (`HeartbeatWindow.WindowBoundsIff`, `HeartbeatWindow.AverageAlwaysDefinedIff`).
- A heartbeat frame is limited to 24 KiB when sent and not when received
  (`TeeQuoteParsing.OversizedIsReceived`).
- A name with characters outside the regular expression's alphabet does not read back
  (`ReverieNames.NameRoundTripIff`).
- The event-stream parser knows `\n\n` as the only separator and reads every `data:` line by
  itself; it does not claim sections 9.2.5 and 9.2.6 of the WHATWG HTML Standard.

## Model

| member | source | states |
|---|---|---|
| `RespawnTheorems.MentionsAgree` | node/p2p-network/src/network_events/request_response_handlers.rs:119-296 | in every reachable network all vessel records and reveries, stored (peer entries, metadata, own agent, held reveries), queued (commands, dispatched requests, jobs, retrievals) or in flight, about one reverie id agree on type, threshold, total, current and next vessel |
| `RespawnTheorems.FragmentsAgree` | node/p2p-network/src/network_events/request_response_handlers.rs:164-180 | so do the fragments stored, in flight or collected: type, threshold and both vessels are those of every such record, and the number is below the total |
| `RespawnTheorems.DispatchedByNextVesselOnce` | node/p2p-network/src/network_events/reincarnation.rs:90-155 | a respawn of a reverie is dispatched at most once in the whole network, and only by the node every record names as next vessel |
| `RespawnTheorems.FragmentsSitWhereSent` | node/p2p-network/src/network_events/request_response_handlers.rs:164-180 | a node holding fragment i of a reverie is entry i, and no other entry, of the provider list that was broadcast, and is neither source nor target |
| `RespawnTheorems.FragmentsSitWhereListed` | node/p2p-network/src/network_events/request_response_handlers.rs:164-180 | the same of the list kept by any node that holds the reverie, which is its target |
| `RespawnTheorems.EndsReceiverIff` | node/p2p-network/src/network_events/request_response_handlers.rs:31-313 | in a reachable network delivering a request ends its receiver exactly when the requester's connection is gone, or it asks for a fragment that the receiver does not hold, or with a signature by another key than the fragment's condition names or over another reverie, or with a key an outside check denied |
| `RespawnTheorems.RefusedIffMissing` | node/p2p-network/src/network_events/request_response_handlers.rs:47-117 | a request signed by an agent's next vessel is refused exactly when the fragment is missing: the signature opens every fragment that is there |
| `RespawnTheorems.SignedRequestServedIff` | node/p2p-network/src/network_events/request_response_handlers.rs:47-117 | a signed request for an agent's fragment is answered exactly when the fragment is held and the signature is the next vessel's over that reverie, and then with the fragment that was broadcast |
| `RespawnTheorems.RespawnSigns` | node/p2p-network/src/node_client/reincarnation.rs:178-188 | every request of a respawn not yet reported as failed has a waiting sender, comes from the agent's next vessel and is signed by it |
| `RespawnTheorems.TakenUpIff` | node/p2p-network/src/node_client/reincarnation.rs:81-110 | the node that dispatched a respawn always holds its reverie, so its client takes the request up exactly when the agent is sovereign |
| `RespawnTheorems.CompletionFollowsRespawn` | node/p2p-network/src/node_client/reincarnation.rs:140-163 | a completion notice, queued or in flight, names a reverie whose next incarnation was broadcast, with the vessel and the agent that were replaced |
| `RespawnTheorems.RetrievesOriginal` | node/p2p-network/src/node_client/memories.rs:131-165 | once all replies to a retrieval are in, the client has the original secrets exactly when every provider answered well and it is the reverie's target, whatever key it used; otherwise an error |
| `RespawnTheorems.RepliesAndTicksNeverFail` | node/p2p-network/src/network_events/mod.rs:182-213 | in a reachable network no tick reports an invalid type, and no delivered reply lacks its waiting sender |
| `RespawnTheorems.ReconstructsOriginal` | node/p2p-network/src/node_client/reincarnation.rs:167-206 | once all replies are in, reconstruction returns exactly the secrets originally encrypted if every provider answered well, and a transport error otherwise |
| `RespawnTheorems.ComposesIff` | node/p2p-network/src/node_client/reincarnation.rs:81-163 | the next incarnation can be composed exactly when every provider answered and total_frags + 1 empty vessels exist |
| `RespawnTheorems.RespawnSucceedsIff` | node/p2p-network/src/node_client/reincarnation.rs:81-163 | finishing a respawn adds a successor (same agent, threshold, total, nonce one higher, secrets carrying it) exactly under that condition, and always ends the job |
| `RespawnTheorems.IncarnationOfRoot` | node/p2p-network/src/types/reverie_name.rs:31-37 | the reverie k respawns after its spawn has the spawn's name, threshold, total and secrets, and a nonce k higher both outside and inside the ciphertext |
| `RespawnTheorems.SameGenerationSameReverie` | node/p2p-network/src/node_client/reincarnation.rs:81-163 | no spawn has two different descendants of the same rank |
| `RespawnTheorems.SingleChain` | node/p2p-network/src/node_client/reincarnation.rs:81-163 | both together in every reachable network: the descendants of one spawn form a single chain |
| `RespawnScenario.RespawnHappens` | node/p2p-network/src/node_client/reincarnation.rs:81-163 | for every agent and secrets some run loses the vessel and re-creates the agent on the next one: the theorems are not about nothing |
| `RespawnScenario.OneFailureSpoilsRespawn` | node/p2p-network/src/node_client/mod.rs:441 | for every agent some run has as many good fragments as the threshold asks for, one failed provider, and no reconstruction |
| `RespawnScenario.ReconnectHidesVessel` | node/p2p-network/src/network_events/peer_manager/mod.rs:79-84 | for every agent the same tick dispatches the respawn of a silent vessel, or forgets the vessel and dispatches nothing, if the next vessel was connected to it once more |
| `RespawnScenario.RetrievalEndsProvider` | node/p2p-network/src/network_events/request_response_handlers.rs:55-104 | some run ends a provider that holds the fragment asked for, by a key that does not open it |
| `RespawnProgress.StepKeepsInv` | node/p2p-network/src/network_events/mod.rs:182-213 | every step of the network (spawn, retrieval, command, delivery, loss, tick, respawn, connection, heartbeat, stop) keeps the network invariant |
| `RespawnProgress.ReachableOk` | node/p2p-network/src/network_events/mod.rs:182-213 | the network invariant holds after every run from the start |
| `RespawnSteps.DeliverRequestKeepsInv` | node/p2p-network/src/network_events/request_response_handlers.rs:31-313 | handling any request in flight keeps the network invariant, the request's reply and forwarded message included |
| `RespawnSteps.ExecuteKeepsInv` | node/p2p-network/src/network_events/command_handlers.rs:30-273 | executing any queued command keeps the network invariant |
| `RespawnProgress.TickKeepsInv` | node/p2p-network/src/network_events/reincarnation.rs:66-158 | a tick keeps the network invariant and does not fail |
| `RespawnProgress.RetrieveKeepsInv` | node/p2p-network/src/node_client/memories.rs:131-147 | asking all providers with any key keeps the network invariant |
| `RespawnProgress.LookupFinds` | node/p2p-network/src/node_client/mod.rs:368-380 | what a client finds under a reverie id is what was broadcast under it |
| `RespawnProgress.StartKeepsInv` | node/p2p-network/src/node_client/reincarnation.rs:81-110 | taking up a respawn request keeps the network invariant |
| `RespawnProgress.FinishKeepsInv` | node/p2p-network/src/node_client/reincarnation.rs:110-163 | finishing a respawn, successful or not, keeps the network invariant |
| `RespawnSteps.SpawnKeepsInv` | node/p2p-network/src/node_client/reincarnation.rs:33-79 | spawning keeps the network invariant |
| `NetworkEventLoop.TickLoopEffect` | node/p2p-network/src/network_events/reincarnation.rs:66-158 | a tick never fails on well-placed records; it forgets exactly the silent peers without an agent and those this node takes over, marks exactly the silent vessels' agents as respawning, and dispatches each taken-over record once |
| `NetworkEventLoop.TickOrderIrrelevant` | node/p2p-network/src/network_events/reincarnation.rs:66-158 | the order in which the peer map is walked changes neither the state after a tick nor the multiset of dispatched respawns |
| `NetworkEventLoop.RemoveAllTwice` | node/p2p-network/src/network_events/mod.rs:215-223 | forgetting two disjoint groups of peers one after the other is forgetting their union |
| `NodeRuns.NoticedIff` | node/p2p-network/src/network_events/reincarnation.rs:90-155 | a node that is to take a vessel over, and over any run neither registers it again nor takes it over, dispatches its respawn at the next tick exactly when that tick finds it silent and no input of the run has erased its record (a connection, routing update, announcement or completion for it) |
| `NodeRuns.TickNotices` | node/p2p-network/src/network_events/reincarnation.rs:90-155 | a tick dispatches exactly one respawn for a peer that it finds silent and is to take over, none otherwise, and a record it does not act on survives it |
| `NodeRuns.DispatchesBounded` | node/p2p-network/src/network_events/reincarnation.rs:90-155 | over any run of one node the respawns dispatched for a vessel never exceed the registrations of a record for it |
| `NodeRuns.CompletedStaysCompleted` | node/p2p-network/src/network_events/reincarnation.rs:49-64 | after completion a respawn id is not pending again unless the same agent is registered on that vessel again |
| `NodeRuns.DispatchNeedsRecord` | node/p2p-network/src/network_events/reincarnation.rs:90-155 | every dispatch uses up a vessel record, and a record only appears by registration |
| `NodeRuns.RecordsStayPlaced` | node/p2p-network/src/network_events/peer_manager/mod.rs:98-146 | every step keeps each vessel record of agent type and under its own current vessel |
| `NodeRuns.RegistrationRecords` | node/p2p-network/src/network_events/request_response_handlers.rs:119-296 | a registration of a known vessel, unless its key fragment is not genuine, puts exactly the record it carries on that vessel |
| `NodeRuns.KnownAreHeard` | node/p2p-network/src/network_events/peer_manager/mod.rs:148-159 | over any run, whom a node knows it has been in contact with (heartbeat, connection, announcement), and it remembers the time of the latest contact |
| `NodeRuns.SilentIff` | node/p2p-network/src/network_events/peer_manager/mod.rs:161-185 | a known peer counts as silent at a tick exactly when the latest contact with it is longer ago than the limit |
| `NodeRuns.HeardFromLeftAlone` | node/p2p-network/src/network_events/reincarnation.rs:90-155 | a peer in contact within the limit is not forgotten at a tick, no respawn is marked pending for it and none dispatched |
| `NodeRuns.HeartbeatKeepsRecord` | node/p2p-network/src/network_events/peer_manager/mod.rs:148-159 | a heartbeat makes its sender known and leaves what is recorded of its vessel |
| `NetworkEventLoop.NetworkEvents.HandlePeerHeartbeatFailure` | node/p2p-network/src/network_events/reincarnation.rs:66-158 | the loop over the peers is the tick on values, with the order-free effect whenever records are well placed |
| `NetworkEventLoop.NetworkEvents.MarkPendingRespawnComplete` | node/p2p-network/src/network_events/reincarnation.rs:49-64 | drops the respawn id and everything known of the failed peer |
| `NetworkEventLoop.NetworkEvents.RemovePeer` | node/p2p-network/src/network_events/mod.rs:215-223 | removes a peer's provider triples and its entry and nothing else |
| `NetworkEventLoop.NetworkEvents.SetVessel` | node/p2p-network/src/network_events/peer_manager/mod.rs:98-146 | records a vessel for agent types only, in the peer entry and the metadata |
| `NetworkEventLoop.FragmentServedIff` | node/p2p-network/src/network_events/request_response_handlers.rs:47-117 | a fragment is served exactly for a signature by the key in its access condition over that very reverie, or for a key an outside check granted; serving changes nothing |
| `NetworkEventLoop.FragmentSavedIff` | node/p2p-network/src/network_events/request_response_handlers.rs:119-200 | a fragment sent in is accepted exactly if its key fragment is signed by the sender's key for delegating from it to the target's; it is then re-encrypted and kept with its number, threshold, type and condition, an agent's record is kept, and the target is told |
| `NetworkEventLoop.CiphertextSaved` | node/p2p-network/src/network_events/request_response_handlers.rs:231-296 | a reverie sent in is kept under its id, with a record of its source, target and split exactly if it is an agent's |
| `NetworkEventLoop.ProviderRecorded` | node/p2p-network/src/network_events/request_response_handlers.rs:203-229 | an announced provider is known from then on and provides exactly the announced fragment more |
| `NetworkEventLoop.NetworkEvents.HandleRequest` | node/p2p-network/src/network_events/request_response_handlers.rs:31-313 | each request arm changes the state and answers as the step on values says, closed response channels included; a fragment request is refused exactly when its key does not open the fragment |
| `NetworkEventLoop.CompletionNotifiesOnce` | node/p2p-network/src/network_events/command_handlers.rs:243-272 | on a completion every peer that provides a fragment of the reverie, the failed vessel excepted, is told exactly once, and nothing else is sent |
| `NetworkEventLoop.NetworkEvents.HandleCommand` | node/p2p-network/src/network_events/command_handlers.rs:30-273 | each command arm changes the state and sends as the step on values says; a completion sends its notice to each remaining provider once and nothing else |
| `NetworkEventLoop.NetworkEvents.TakeReplySender` | node/p2p-network/src/network_events/request_response_handlers.rs:330-368 | hands out the waiting sender of a request once |
| `PeerManagement.InsertProviderRefines` | node/p2p-network/src/network_events/peer_manager/mod.rs:225-269 | both provider indexes keep standing for one relation of peer, reverie and fragment, to which exactly the new triple is added |
| `PeerManagement.RemoveProviderRefines` | node/p2p-network/src/network_events/peer_manager/mod.rs:271-289 | both indexes keep agreeing and exactly the removed peer's triples go |
| `PeerManagement.PeerManager.RemoveKfragProvider` | node/p2p-network/src/network_events/peer_manager/mod.rs:271-289 | the loop over a peer's fragments takes the peer out of each of their provider sets and drops its own entry |
| `PeerManagement.PeerManager.InsertKfragProvider` | node/p2p-network/src/network_events/peer_manager/mod.rs:225-269 | adds the peer to the reverie's providers and the fragment to the peer's own set |
| `PeerManagement.PeerManager.InsertPeerInfo` | node/p2p-network/src/network_events/peer_manager/mod.rs:79-84 | overwrites the peer's entry, vessel record included |
| `PeerManagement.PeerManager.SetPeerInfoAgentVessel` | node/p2p-network/src/network_events/peer_manager/mod.rs:98-146 | sets the record of a known current vessel, and the node's own agent if it is that vessel |
| `PeerManagement.AgentVesselSet` | node/p2p-network/src/network_events/peer_manager/mod.rs:98-146 | an agent's record goes to its current vessel if known, keeping that entry's heartbeat, and to the node itself if it is the vessel; others are untouched and nobody becomes known |
| `PeerManagement.PeerManager.UpdatePeerHeartbeat` | node/p2p-network/src/network_events/peer_manager/mod.rs:148-159 | the peer is known with this heartbeat, keeps its vessel record if it had one, and no other entry changes |
| `NodeClients.ComposeWellAddressed` | node/p2p-network/src/node_client/mod.rs:139-345 | a broadcast fails exactly when there are fewer than total_frags + 1 empty vessels; otherwise its target is the first and its providers the next of them in order, pairwise distinct and none the sender, and its access condition is the given one or else the target's signature |
| `NodeClients.SpawnComposesIff` | node/p2p-network/src/node_client/reincarnation.rs:33-79 | a spawn succeeds exactly with a threshold up to the total and total_frags + 1 empty vessels |
| `NodeClients.ReverieSealed` | node/p2p-network/src/node_client/mod.rs:139-169 | a new reverie is sealed by its sender for the target's two keys, opens to the secrets given, and is guarded by the condition given or else the target's signature |
| `NodeClients.KeyfragsDescribe` | node/p2p-network/src/node_client/mod.rs:185-216 | the i-th fragment repeats the reverie's id, type, split, capsule, keys and condition, is numbered i, and holds the i-th key fragment of one generation from the sender to the target's key |
| `NodeClients.BroadcastSendsEachFragmentOnce` | node/p2p-network/src/node_client/mod.rs:242-345 | fragment i goes once to the i-th provider, describing the reverie it belongs to; then, for all but sovereign agents, a copy to the network; last the ciphertext, once, to the target; and nothing else |
| `NodeClients.EmptyVesselsDistinct` | node/p2p-network/src/node_client/mod.rs:218-240 | choosing among distinct vessels leaves them distinct |
| `NodeClients.ParseSucceedsIff` | node/p2p-network/src/node_client/mod.rs:420-494 | parsing succeeds exactly when every reply arrived, decoded, and holds a fragment of this capsule with the signer, delegator and receiver it names, there is one, and they reach the last one's threshold; the result holds all fragments in order and the first one's keys |
| `NodeClients.FirstFaultDecides` | node/p2p-network/src/node_client/mod.rs:438-457 | the first unusable reply decides the error: not arrived, not JSON, no fragment, or not verified |
| `NodeClients.OpensIff` | node/p2p-network/src/node_client/mod.rs:382-526 | with replies that fit their slots the original secrets come back exactly when all of them arrived and the client is the target; a failed one is a transport error, another client's attempt a decryption error |
| `NodeClients.ReconstructIff` | node/p2p-network/src/node_client/reincarnation.rs:167-206 | for an agent's target: the original secrets exactly when all replies arrived |
| `NodeClients.OnlyAgentsReconstructed` | node/p2p-network/src/node_client/mod.rs:512-518 | a respawn's retrieval ends with what was opened exactly if that is an agent's secrets, and refuses anything else |
| `NodeClients.OnlyTransportFailures` | node/p2p-network/src/node_client/mod.rs:441 | otherwise the first failure found is a transport failure, whatever the rest hold |
| `NodeClients.NodeClient.ParseCfrags` | node/p2p-network/src/node_client/mod.rs:420-494 | the loop over the raw replies computes the first failure or the parsed fragments |
| `NodeClients.NodeClient.BroadcastReverieKeyfrags` | node/p2p-network/src/node_client/mod.rs:242-345 | queues either nothing or all commands of the broadcast in order |
| `NodeClients.NodeClient.SpawnReverie` | node/p2p-network/src/node_client/reincarnation.rs:33-79 | a threshold above the total or a shortage of vessels queues nothing; otherwise the whole broadcast |
| `NodeClients.NodeClient.Retrieve` | node/p2p-network/src/node_client/memories.rs:149-165 | parses the replies and opens the reverie with the client's own key |
| `NodeClients.NodeClient.FinishRespawn` | node/p2p-network/src/node_client/reincarnation.rs:110-163 | retrieves, renames, re-encrypts, broadcasts and only then queues the completion |
| `Umbral.FragmentsOpenIffEnough` | node/p2p-network/src/node_client/mod.rs:496-526 | fragments of one generation open the ciphertext exactly for their receiver and when they are non-empty, distinct and reach the threshold; the decryption step of `OpensIff` is an instance |
| `HeartbeatSystem.RequestsMatchReplies` | node/p2p-network/src/behaviour/heartbeat_behaviour/mod.rs:183-210 | over any run payload requests and replies match one to one per connection, and a reply on its way finds its handler waiting for it |
| `HeartbeatSystem.HeartbeatsReachNode` | node/p2p-network/src/behaviour/heartbeat_behaviour/mod.rs:183-193 | over any run the payloads read on a connection reach the behaviour, and those the node's events, in order: none is lost, repeated or invented |
| `HeartbeatSystem.LaterHeartbeatsAreFresh` | node/p2p-network/src/behaviour/heartbeat_behaviour/heartbeat_handler.rs:134-241 | every heartbeat after the first on a stream carries a quote generated after the previous send on it finished |
| `HeartbeatSystem.HeartbeatsArriveAsSent` | node/p2p-network/src/behaviour/heartbeat_behaviour/tee_quote_parser.rs:71-132 | over any run every heartbeat that is sent and fits a frame is received exactly as sent, quote included, whatever follows it on the stream |
| `HeartbeatSystem.FailuresCounted` | node/p2p-network/src/behaviour/heartbeat_behaviour/mod.rs:194-226 | the failure count is the 32-bit saturated sum of the failures since the last reset, and signals are only raised above the limit |
| `HeartbeatSystem.ShutdownIff` | node/p2p-network/src/behaviour/heartbeat_behaviour/mod.rs:272-288 | shutdown is signalled exactly when a queued check is popped while that sum exceeds the limit |
| `HeartbeatSystem.StepKeepsInv` | node/p2p-network/src/behaviour/heartbeat_behaviour/mod.rs:177-293 | every interleaved step of handlers, queues and behaviour keeps matching, freshness and count |
| `HeartbeatHandlers.DialingIffNegotiating` | node/p2p-network/src/behaviour/heartbeat_behaviour/heartbeat_handler.rs:203-216 | over any run of a handler at most one substream request is outstanding, and one is exactly while it negotiates |
| `HeartbeatHandlers.SendCountsOneFailureIff` | node/p2p-network/src/behaviour/heartbeat_behaviour/heartbeat_handler.rs:150-186 | a send counts one failure exactly at the poll that finds it failed, or still pending sendTimeout after its start, and gives the stream up; a finished one resets the count and sets the next deadline idleTimeout later |
| `HeartbeatHandlers.NextHeartbeatIff` | node/p2p-network/src/behaviour/heartbeat_behaviour/heartbeat_handler.rs:187-202 | an idle stream refreshes the attestation at the first poll at or after its deadline, and not before |
| `HeartbeatHandlers.StreamsTakenUp` | node/p2p-network/src/behaviour/heartbeat_behaviour/heartbeat_handler.rs:243-268 | what each connection event does to the two streams and the dial failures |
| `HeartbeatHandlers.InboundEndsIff` | node/p2p-network/src/behaviour/heartbeat_behaviour/heartbeat_handler.rs:106-125 | an inbound stream is given up exactly when reading from it fails |
| `HeartbeatHandlers.DialErrorIsFinal` | node/p2p-network/src/behaviour/heartbeat_behaviour/heartbeat_handler.rs:127-131 | wherever a dial fails in a handler's run, every later poll passes an inbound payload on or counts one failure; no stream is ever asked for or used again |
| `HeartbeatHandlers.HeartbeatHandler.Poll` | node/p2p-network/src/behaviour/heartbeat_behaviour/heartbeat_handler.rs:103-221 | the loop that takes and replaces the outbound state is the poll on values |
| `HeartbeatHandlers.HeartbeatHandler.BehaviourEvent` | node/p2p-network/src/behaviour/heartbeat_behaviour/heartbeat_handler.rs:223-241 | a payload starts a send only from a waiting request |
| `HeartbeatHandlers.HeartbeatHandler.HandleConnectionEvent` | node/p2p-network/src/behaviour/heartbeat_behaviour/heartbeat_handler.rs:243-268 | the three connection events change the handler as on values |
| `HeartbeatBehaviours.HeartbeatBehaviour.HandlerEvent` | node/p2p-network/src/behaviour/heartbeat_behaviour/mod.rs:177-238 | each handler event changes queue, count and payload as on values |
| `HeartbeatBehaviours.HeartbeatBehaviour.Poll` | node/p2p-network/src/behaviour/heartbeat_behaviour/mod.rs:240-293 | pops one action, and raises at most one signal |
| `HeartbeatBehaviours.OneActionQueued` | node/p2p-network/src/behaviour/heartbeat_behaviour/mod.rs:177-238 | each handler event queues exactly one action or none: payloads go to the node, requests are answered on their connection with the payload as it stands, failures are checked |
| `HeartbeatBehaviours.TriggerShutsDownIff` | node/p2p-network/src/behaviour/heartbeat_behaviour/mod.rs:117-124 | outside production a manual trigger signals a shutdown, once what was queued before is polled, exactly if the limit is below 10000; in production it does nothing |
| `HeartbeatBehaviours.HeartbeatBehaviour.TriggerHeartbeatFailure` | node/p2p-network/src/behaviour/heartbeat_behaviour/mod.rs:117-124 | the manual trigger acts outside production only |
| `TeeQuoteParsing.LengthRoundTrip` | node/p2p-network/src/behaviour/heartbeat_behaviour/tee_quote_parser.rs:71-80 | a length below 256^k survives its k bytes, most significant first |
| `TeeQuoteParsing.FirstByteWeighsMost` | node/p2p-network/src/behaviour/heartbeat_behaviour/tee_quote_parser.rs:80 | the first byte of a length weighs most: 256 to the number of bytes after it |
| `TeeQuoteParsing.BytesRoundTrip` | node/p2p-network/src/behaviour/heartbeat_behaviour/tee_quote_parser.rs:71-80 | every k bytes are the bytes of the length they stand for |
| `TeeQuoteParsing.ConversionRoundTripIff` | node/p2p-network/src/behaviour/heartbeat_behaviour/tee_quote_parser.rs:40-67 | the two conversions give an attestation back exactly when its quote is what its bytes parse to; the bytes always survive |
| `TeeQuoteParsing.AttestationsMadeMatch` | node/p2p-network/src/behaviour/heartbeat_behaviour/tee_quote_parser.rs:25-67 | the default attestation, one set from the device's bytes and one received from any bytes have the quote their bytes parse to |
| `TeeQuoteParsing.FrameRoundTrip` | node/p2p-network/src/behaviour/heartbeat_behaviour/tee_quote_parser.rs:71-132 | a frame followed by anything is received as sent, exactly when its quote matches its bytes, and not one byte more is taken |
| `TeeQuoteParsing.OversizedIsReceived` | node/p2p-network/src/behaviour/heartbeat_behaviour/tee_quote_parser.rs:71-107 | a frame larger than any that is sent is received like the others |
| `TeeQuoteParsing.FramesRoundTripIff` | node/p2p-network/src/behaviour/heartbeat_behaviour/tee_quote_parser.rs:71-132 | a list of attestations, each of a length that eight bytes hold, comes back from its concatenated frames, every byte used, exactly when every quote matches its bytes |
| `TeeQuoteParsing.PartialFrameFails` | node/p2p-network/src/behaviour/heartbeat_behaviour/tee_quote_parser.rs:76-84 | a frame cut short is an end-of-stream error, never a message |
| `TeeQuoteParsing.WholeFrameFailsIff` | node/p2p-network/src/behaviour/heartbeat_behaviour/tee_quote_parser.rs:83-106 | a whole frame is always taken off the stream, and fails exactly if its message is no attestation in JSON or has bytes that are no quote |
| `TeeQuoteParsing.FramesUnambiguous` | node/p2p-network/src/behaviour/heartbeat_behaviour/tee_quote_parser.rs:71-132 | two lists of attestations give the same bytes exactly when they are the same messages |
| `TeeQuoteParsing.SendHeartbeatPayload` | node/p2p-network/src/behaviour/heartbeat_behaviour/tee_quote_parser.rs:111-132 | writes exactly one frame, or nothing for an oversized message |
| `TeeQuoteParsing.ReceiveHeartbeatPayload` | node/p2p-network/src/behaviour/heartbeat_behaviour/tee_quote_parser.rs:71-107 | reads exactly one frame; short reads, bad JSON and bad quotes are errors |
| `HeartbeatWindow.IntervalsAreElapsed` | node/p2p-network/src/network_events/peer_manager/heartbeat_data.rs:55-62 | an interval is the time elapsed between two updates, or zero if the clock ran backwards |
| `HeartbeatWindow.WindowIsLatest` | node/p2p-network/src/network_events/peer_manager/heartbeat_data.rs:48-53 | with a window of at least one the deque is the last min(n, w) intervals, newest first |
| `HeartbeatWindow.WindowBoundsIff` | node/p2p-network/src/network_events/peer_manager/heartbeat_data.rs:48-53 | the window bounds the deque over every history exactly when it is at least one |
| `HeartbeatWindow.AverageIsMeanOfLatest` | node/p2p-network/src/network_events/peer_manager/heartbeat_data.rs:33-46 | the average is the floored mean of the latest intervals and lies within any bounds on them; zero before the first |
| `HeartbeatWindow.AverageAlwaysDefinedIff` | node/p2p-network/src/network_events/peer_manager/heartbeat_data.rs:33-46 | the average never panics over any history exactly when the window is at least one |
| `HeartbeatWindow.HeartBeatData.Update` | node/p2p-network/src/network_events/peer_manager/heartbeat_data.rs:55-62 | keeps the deque equal to the window over all intervals between the instants so far |
| `HeartbeatWindow.HeartBeatData.AddNewDuration` | node/p2p-network/src/network_events/peer_manager/heartbeat_data.rs:48-53 | drops the oldest of a full deque and puts the new interval in front |
| `HeartbeatWindow.HeartBeatData.AverageTimeBetweenHeartbeats` | node/p2p-network/src/network_events/peer_manager/heartbeat_data.rs:33-46 | the sum loop computes the average over the whole history's window |
| `SseParsing.CutEventsIsCut` | llm-proxy/src/parser/sse_parser.rs:21-38 | events drained followed by the buffer are all bytes received; each event has its only separator at its end and the buffer has none |
| `SseParsing.CutIsUnique` | llm-proxy/src/parser/sse_parser.rs:21-38 | there is no other way to cut the same bytes |
| `SseParsing.CutExtends` | llm-proxy/src/parser/sse_parser.rs:21-38 | later bytes only extend the cut of earlier ones, a separator split between chunks included |
| `SseParsing.FeedIsBulk` | llm-proxy/src/parser/sse_parser.rs:21-61 | feeding chunk by chunk is feeding all bytes at once |
| `SseParsing.CutsDoNotMatter` | llm-proxy/src/parser/sse_parser.rs:21-61 | two ways of cutting one byte stream yield the same updates and the same buffer |
| `SseParsing.EventIsRead` | llm-proxy/src/parser/sse_parser.rs:21-176 | from an event's bytes to its updates: its text is split at line feeds, each line that begins with data: and has more than space behind it yields what its payload says, by the event's own type field, or by the provider's parser, in order; other lines and events that are not UTF-8 yield nothing |
| `SseParsing.WhitespaceIs` | llm-proxy/src/parser/sse_parser.rs:41-61 | trimming removes the characters that Unicode calls white space |
| `SseParsing.UpdatesOfTypeIff` | llm-proxy/src/parser/sse_parser.rs:102-162 | a data line yields an input count, output count or text exactly if its type calls for one and the event has it at its place, and then with that value |
| `SseParsing.ToolUseIff` | llm-proxy/src/parser/sse_parser.rs:128-150 | a tool use is yielded exactly by a block start that announces one, with its id, name and input, or the defaults for those left out |
| `SseParsing.SseParser.ProcessChunk` | llm-proxy/src/parser/sse_parser.rs:21-38 | the drain loop, whose buffer shrinks by at least two each time, computes the cut of buffer and chunk |
| `SseParsing.SseParser.ParseEventString` | llm-proxy/src/parser/sse_parser.rs:41-61 | the loop over the lines yields what the lines of the text say, in order, however it is split at its line feeds |
| `TeeBodies.TeeIsTransparent` | llm-proxy/src/tee_body_sse.rs:49-71 | under any interleaving what the log received and what waits is an in-order part of the updates parsed from the body's bytes, and all of them exactly when no offer failed; the client has the inner frames |
| `TeeBodies.RawTeeIsTransparent` | llm-proxy/src/tee_body.rs:39-61 | the same for the data frames of a plain body |
| `TeeBodies.FullPartIsAll` | llm-proxy/src/tee_body_sse.rs:60-64 | an in-order part that is as long as the whole is the whole |
| `TeeBodies.TurnedDownIff` | llm-proxy/src/tee_body_sse.rs:60-64 | an offer is turned down exactly if nobody receives any more or 100 items wait; otherwise it waits behind them |
| `TeeBodies.OnlyDataIsCopied` | llm-proxy/src/tee_body_sse.rs:57-58 | data frames are copied with all their bytes, and nothing else is |
| `TeeBodies.TeeBodySse.PollFrame` | llm-proxy/src/tee_body_sse.rs:49-71 | one poll returns the inner poll and offers each parsed update in order |
| `TeeBodies.TeeBody.PollFrame` | llm-proxy/src/tee_body.rs:39-61 | one poll returns the inner poll and offers its data |
| `TeeBodies.BoundedChannel.TrySend` | llm-proxy/src/tee_body_sse.rs:83-84 | an offer is turned down exactly when the channel is closed or holds its 100 items |
| `UsageReports.LogSseResponse` | llm-proxy/src/usage.rs:265-360 | the receive loop emits exactly the declaratively specified usages in order, each stamped with the request's ids and the time at which its own stop was handled |
| `UsageReports.ReportedAtStops` | llm-proxy/src/usage.rs:308-348 | the k-th report is the usage accumulated before the k-th submitting stop; the stops come in order and none is missed |
| `UsageReports.SubmitsIff` | llm-proxy/src/usage.rs:308-310 | a stop is reported exactly if a count other than zero, of input or output, is the last of its kind since the previous report |
| `UsageReports.InputBeforeIsLast` | llm-proxy/src/usage.rs:291-294 | the reported input count is the last one announced since the previous report, and zero without one |
| `UsageReports.OutputBeforeIsLast` | llm-proxy/src/usage.rs:295-297 | the reported output count is the last one announced since the previous report, and zero without one |
| `UsageReports.ToolBeforeIsLast` | llm-proxy/src/usage.rs:298-307 | the reported tool use is the last one announced since the previous report, and none exactly without one |
| `UsageReports.PrefixDecides` | llm-proxy/src/usage.rs:289-356 | what has been reported depends on the updates so far only |
| `UsageReports.IdleUpdatesDoNotMatter` | llm-proxy/src/usage.rs:349-355 | text and other updates can be erased from a stream without changing a report |
| `UsageReports.SpenderNeverReported` | llm-proxy/src/usage.rs:277-282 | the spender a task is started with changes no streaming report and is named in none |
| `UsageReports.ReverieAlwaysReported` | llm-proxy/src/usage.rs:277-278 | every report names the request's reverie, counts some tokens and has no cache counts |
| `UsageReports.SameBytesSameReports` | llm-proxy/src/usage.rs:289-356 | two deliveries of the same bytes, cut and interleaved in any way, lead to the same reports if nothing was dropped and everything was received |
| `UsageReports.LogRegularResponse` | llm-proxy/src/usage.rs:214-262 | the buffering loop hands on the concatenation of all chunks unless it is empty or the stream broke |
| `UsageLedger.StoredReadsBack` | node/p2p-network/src/usage_db.rs:103-137 | a stored payload reads back equal, its tool use included |
| `UsageLedger.UsageDb.StoreUsagePayload` | node/p2p-network/src/usage_db.rs:158-195 | appends the row, or fails without effect on a repeated request id or a count too large for its column |
| `UsageLedger.UsageDb.ReadUsageData` | node/p2p-network/src/usage_db.rs:89-155 | turns every selected row into its payload, in the order of the answer; a failed query gives nothing |
| `UsageLedger.KeysStored` | node/p2p-network/src/usage_db.rs:14-16 | after any reports a key is in the table exactly when a verified, storable report carried it |
| `UsageLedger.MatchingAreFirst` | node/p2p-network/src/usage_db.rs:93-137 | the rows of a reverie read back as the first storable payload of each of its request ids |
| `UsageLedger.RowSumUnordered` | node/p2p-network/src/node_client/usage_verification.rs:137-154 | totals do not depend on the order of the rows |
| `UsageLedger.RecordsSumTruly` | node/p2p-network/src/node_client/usage_verification.rs:137-154 | the totals of a list of records are, count by count, the sums of what the payloads themselves hold |
| `UsageLedger.TotalsAreFirstPayloadSums` | node/p2p-network/src/node_client/usage_verification.rs:95-165 | however reports repeat and rows are ordered, each total is the sum of that count over the first storable payload of each request id |
| `UsageLedger.ShownTotalsTrueIff` | node/p2p-network/src/node_client/usage_verification.rs:127-165 | the 64-bit totals shown for a reverie are the true sums over the first storable payload of each request id exactly when those sums fit |
| `UsageLedger.MCPToolUsageMetrics.AddUsageRecord` | node/runtime/src/llm/mcp_tool_usage.rs:31-38 | the running totals stay the sums over the record list |
| `UsageLedger.MCPToolUsageMetrics.ClearUsageData` | node/runtime/src/llm/mcp_tool_usage.rs:41-47 | empties the list and zeroes the totals |
| `UsageLedger.UsageClient.ReportUsage` | node/p2p-network/src/node_client/usage_verification.rs:95-125 | accepts exactly the verified reports; a report that cannot be stored changes nothing |
| `UsageLedger.UsageClient.ReadUsageDataForReverie` | node/p2p-network/src/node_client/usage_verification.rs:127-165 | every record shows its row's columns, in the order of the answer, and the totals shown are the true sums exactly when they fit; a failed query leaves the metrics empty |
| `ReverieNames.NameRoundTripIff` | node/p2p-network/src/types/reverie_name.rs:48-71 | a printed name reads back exactly when the alphabet covers it and the nonce fits a machine word |
| `ReverieNames.PrintedNamesDiffer` | node/p2p-network/src/types/reverie_name.rs:48-52 | different names with nonces never print alike, whatever their characters |
| `ReverieNames.FindIsTheMatch` | node/p2p-network/src/types/reverie_name.rs:17-21 | the search finds the one match that is leftmost with each group as long as it can be, and nothing exactly when nothing matches |
| `ReverieNames.ReadsItsMatch` | node/p2p-network/src/types/reverie_name.rs:60-71 | a text with a match reads as the name before the hyphen and the number after it, if there is one |
| `ReverieNames.NoMatchReadsEmpty` | node/p2p-network/src/types/reverie_name.rs:66-68 | a text without a match reads as the empty name with nonce zero |
| `ReverieNames.AlphabetIs` | node/p2p-network/src/types/reverie_name.rs:17-21 | the regular expression's alphabet is the letters, the digits, hyphen, dot and underscore |
| `ReverieNames.ParseUsizeIff` | node/p2p-network/src/types/reverie_name.rs:64 | a number is read exactly from its decimal digits, with any zeros before them, if it fits 64 bits |
| `ReverieNames.NamesReadAreInAlphabet` | node/p2p-network/src/types/reverie_name.rs:60-71 | a name read from any text uses the alphabet alone and its nonce fits a machine word |
| `ReverieNames.DecimalRoundTrip` | node/p2p-network/src/types/reverie_name.rs:50-64 | a printed number parses back, whatever its size, and as a machine word if it fits |

## Left out

- RespawnTheorems.DispatchedByNextVesselOnce: rests on each ciphertext message being delivered at most once; a duplicated delivery would register the vessel again.
- NetworkEventLoop.NetworkEvents.HandleRequest: a record that Kademlia refuses also ends the event loop; the program's records are taken to be accepted.
- NetworkEventLoop.NetworkEvents.HandleCommand: looking up reveries, names and vessel statuses, and the arms that only report, change none of this state and are left to the client's parameters.
- PeerManagement.PeerManager.UpdatePeerHeartbeat: keeps the time of the heartbeat only; its payload and the window over intervals are `HeartbeatWindow.HeartBeatData`, modelled by itself.
- RespawnTheorems.RespawnSucceedsIff: the lookup of the reverie, a command and an answer between client and event loop, is one step with taking up the request.
- NodeRuns.NoticedIff: speaks of one node; whether the network delivers the registration and the ticks come is left open.
- UsageReports.SameBytesSameReports: timestamps are not compared, because they are taken when an update is handled.
- UsageReports.LogRegularResponse: stops where the body is handed to the provider-specific extraction of usage.
- UsageLedger.ShownTotalsTrueIff: counters wrap as in a release build; a debug build panics where this lemma says they would differ.
- TeeBodies.TeeIsTransparent: frames with trailers and errors pass through unread; the body's end-of-stream flag and size hint are not modelled.
- HeartbeatSystem.ShutdownIff: the channel to the event loop is taken to have room; a full one would lose the signal.
- TeeQuoteParsing.ReceiveHeartbeatPayload: a length too large to allocate ends the program before the read; here it is a short read.
- Recovery from any t of n providers, and that a respawn is ever finished: the code gives neither.
- Restarting a node under its old peer id, and what the container manager does after a shutdown signal.
- Cryptography itself: Umbral, ECDSA, Ed25519, quote verification and certificates.
- The Kademlia records of vessel statuses, names and holders, and errors in writing them; a client's view of the vessels is a parameter.
- The requests to providers are sent together and joined; here they are queued in list order and answered in any order.
- Overflow of a nonce, of the 32-bit block height and of a sum of durations.
- Access conditions other than the target's signature: an outside check, or a key of an unsupported kind, is a given verdict.
- Peer bans, heartbeat logs, node state summaries and other views that change nothing.
- The extraction of fields by provider-specific parsers, and the store of their API keys: flat case analysis.
- The signing and sending of usage reports, and their verification: a report that does not verify is `None`.
- Kademlia key classification: name keys do not round-trip because their prefix is claimed by reverie keys, so no clean law holds.
- RPC server, command line, containers, telemetry, NEAR and EVM wrappers, monitor and Python agents.
