# headscale control plane: a verified model

This project models the state machines at the centre of headscale's control plane and proves what
they keep over whole histories:

- **Node store** (`Nodes`, `Names`, `Election`, `Snapshots`, `NodeStore`, `StoreTheorems`,
  `WriteQueue`, `StoreWrites`): the single writer that applies batches of operations to the node table,
  decides from two change detectors whether the peer adjacency and the primary routes may be reused,
  elects primaries, names nodes, and answers every write exactly once.
- **Map delivery** (`Changes`, `PeerTracking`, `Responses`, `Delivery`, `FirstFrame`, `DeliveryOrder`,
  `DeliveryHistory`, `DeliveryProgress`, `DeliveryConnections`, `DeliveryPeers`, `DeliveryLog`,
  `DeliveryFrames`, `DeliveryRaces`, `NodeConns`, `Batching`): how changes become bundles, how workers deliver them while connections come
  and go and the node's entry is deleted and created again, and when the server's record of the peers it
  has sent is what a client has built. `Delivery` is the protocol; the handling of a bundle in
  `NodeConns`, and the submission and the tick in `Batching`, are the imperative code, proved to be runs
  of that protocol.
- **Address allocation** (`IPAllocation`, `IPHistory`).
- **Ephemeral node collector** (`EphemeralGC`, `CollectorHistory`).
- **HA prober and ping tracker** (`Probing`, `Pings`).
- **Automatic route approval** (`RouteApproval`).

Code that updates state in place is a class or a method with loops, proved against functions on
values. Goroutines are steps of a state machine; a history is a `Run`, and the theorems about it are
by induction over its steps. What an operation does is stated on the fields and elements it is about
(`StoreWrites`, `Responses`, `Batching.SubmissionExact`, `IPAllocation.NextExact`), and what a state
machine has done in terms of the calls and steps of its history alone (`WriteQueue.WriterFollowsActions`,
`DeliveryLog`, `IPHistory.HoldersExact`, `CollectorHistory`, `Pings.PendingExact`). `Basics` holds the
shared vocabulary.

Outside inputs are parameters: the policy's visibility function, what the mapper reads for a
recipient, which connections do not take a frame in time, random draws, ping identifiers, what a
probe cycle sees. Integers are unbounded.

Where the source's promises hold only under a condition, the condition is proved exactly or a history
shows the failure:

- The record of sent peers follows the client iff the change is `Agreeable`
  (`PeerTracking.ViewsAgreeIff`). A removal and a change of one peer merged together is not
  (`PeerTracking.MergedRemovalDisagrees`). No caller in the repository builds such a change: at the merge
  sites, hscontrol/state/state.go:691, 1000, 1002 and 1217, a removal is only merged with a policy change,
  and only a full update asks for the complete list.
- Dropping the repeated recomputes of a bundle is sound iff none of them would have put back a rendered
  peer that was taken out after the first one and not mentioned again (`PeerTracking.DedupeExact`). A
  removal between two recomputes of a peer they still render is such a bundle
  (`PeerTracking.DroppedRecomputeMatters`). No caller builds it: the only removal outside tests is
  `NodeRemoved` at hscontrol/state/state.go:680, of a node already deleted from the store (line 675), which
  no netmap read afterwards renders (`PeerTracking.DedupePreservesPeers`).
- Delivery order is lost iff a change is delivered while an earlier one of its bundle waits for a retry
  (`DeliveryHistory.AlwaysOrderedIff`); this happens when a connection opens in the middle of a bundle
  (`DeliveryRaces.ChangeCanBeOvertaken`).
- The comment at hscontrol/mapper/node_conn.go:269-274 says a connection added during a broadcast loses
  nothing because it receives a full initial map. It misses exactly the changes whose broadcast began
  after its initial map was generated and before it opened, and that another connection took
  (`DeliveryConnections.MissesNothingIff`). Record and client agree throughout iff no other connection's
  initial map with other peers was recorded and no missed change moved the record
  (`DeliveryPeers.AgreesIffUndisturbed`). Both happen (`DeliveryRaces.SecondConnectionMissesUpdate`), and
  neither with one connection at a time (`DeliveryPeers.SoloMissesNothing`,
  `DeliveryPeers.RecordMatchesClient`).
- The comment at hscontrol/mapper/batcher.go:709-712 says only one bundle per node is in flight. The
  in-flight flag is at all times set exactly while the node has one bundle, and no other, iff no entry was
  created while a bundle of a deleted one was still queued (`DeliveryOrder.AtMostOneBundle`). The node never
  has two bundles iff the ticker never queues one while another is on its way
  (`DeliveryOrder.NeverTwoBundlesIff`); that takes an inherited bundle
  (`DeliveryOrder.CleanStartsNeverTwo`) and a tick of the new entry while it lasts
  (`DeliveryRaces.InheritedBundleAlone`, `DeliveryRaces.RecreateAllowsTwoBundles`).
- Changes of one submission are queued targeted ones first; their order is kept iff none of those came
  after a broadcast one (`Batching.FeedOrderIff`).
- Marking all candidates of a prefix unhealthy in one batch keeps the primary
  (`StoreTheorems.AtomicHealthKeepsPrimary`). In two batches it moves iff the first leaves some candidate
  healthy, but not the primary (`StoreTheorems.SplitHealthMovesPrimary`), as when the primary is marked
  first (`StoreTheorems.PrimaryMarkedFirstMoves`).
- Closing the ephemeral collector twice panics, and nothing else does
  (`EphemeralGC.PanicsIffClosedTwice`).
- The comment at hscontrol/policy/policy.go:31-40 says every approved route is preserved; invalid ones
  are dropped (`RouteApproval.ApproveRoutesWithPolicy`).

## Model

| member | source | states |
|---|---|---|
| `Nodes.UpdateChangesSound` | hscontrol/state/node_store.go:210-220 | if a detector stays silent, everything the peer relation (or the election) reads of the node is unchanged |
| `Nodes.DetectorsExact` | hscontrol/state/node_store.go:210-220 | what moves the flags: user, owner, tags, addresses, announced and approved routes move both, being online or healthy the second, nothing else does |
| `Names.ItoaDecimal` | hscontrol/state/node_store.go:660-666 | the printed suffix is the decimal notation of the attempt, without leading zeros |
| `Names.ItoaInjective` | hscontrol/state/node_store.go:660-666 | decimal printing is injective, so numbered candidates are pairwise distinct |
| `Names.LabelsDistinct` | hscontrol/state/node_store.go:660-666 | base, base-1, base-2, ... never repeat |
| `Names.Pigeonhole` | hscontrol/state/node_store.go:645-667 | one of the first n + 1 candidates is free when n labels are taken |
| `Names.ResolveGivenName` | hscontrol/state/node_store.go:645-667 | the loop ends and returns the first free label, within the number of other nodes plus one tries |
| `Names.ResolvedIsFirstFree` | hscontrol/state/node_store.go:645-667 | the result is free, every earlier candidate is taken, a free non-empty base is left unchanged, and an empty one becomes the fallback |
| `Election.SortedIDs` | hscontrol/state/node_store.go:808-815 | the node IDs, ascending, each once |
| `Election.ListAdvertisers` | hscontrol/state/node_store.go:804-832 | per prefix exactly the online advertisers of a non-exit approved route, ascending |
| `Election.PickPrimary` | hscontrol/state/node_store.go:833-870 | the loops pick the declarative winner: a healthy previous primary, else the least healthy candidate, else the previous primary if it is still a candidate, else none |
| `Election.ElectOneScope` | hscontrol/state/node_store.go:804-873 | the imperative election of a scope computes the declarative one |
| `Election.GroupByScope` | hscontrol/state/node_store.go:768-799 | every node lands in exactly its own scope |
| `Election.ElectPrimaryRoutes` | hscontrol/state/node_store.go:768-799 | routes of all scopes equal the declarative election, and the primaries are exactly the elected nodes |
| `Election.CandidacyExact` | hscontrol/state/node_store.go:768-832 | who is a candidate, on node fields: online, the prefix announced, approved and no exit route, tagged nodes in scope 0 and others in their user's |
| `Election.ScopeIdempotent` | hscontrol/state/node_store.go:804-873 | electing again from a scope's own result changes nothing |
| `Election.ElectIdempotent` | hscontrol/state/node_store.go:768-873 | electing again from the own result changes nothing, in all scopes |
| `Election.ElectionSafety` | hscontrol/state/node_store.go:768-873 | every primary is an online, approved, non-exit advertiser of its own scope, and a prefix with a healthy candidate has a healthy primary |
| `Election.ElectionStability` | hscontrol/state/node_store.go:833-870 | a primary that is still a healthy candidate stays; a different primary is the least healthy candidate; with none healthy the previous candidate stays or the prefix is unmapped |
| `NodeStore.BuildIndexes` | hscontrol/state/node_store.go:735-752 | user, node-key and machine-key indexes agree with the table in both directions, without duplicates |
| `NodeStore.SnapshotFromNodes` | hscontrol/state/node_store.go:675-755 | a snapshot with exact indexes, and adjacency and routes recomputed or reused as the flags say |
| `NodeStore.RunUpdates` | hscontrol/state/node_store.go:499-519 | applying update functions in order equals the fold that records both flags and renames on collision |
| `NodeStore.CheckRename` | hscontrol/state/node_store.go:529-559 | the error of a rename: missing node, invalid label, or label taken by another node |
| `NodeStore.Store.constructor` | hscontrol/state/node_store.go:128-148 | the first snapshot is computed from the loaded nodes under the loaded policy |
| `NodeStore.Store.ApplyBatch` | hscontrol/state/node_store.go:459-633 | a batch publishes the snapshot the operations define, and reports each rename's error as of its position in the batch |
| `NodeStore.ListPeers` | hscontrol/state/node_store.go:1001-1018 | the current views of exactly the recorded peers that exist, in order |
| `NodeStore.CurrentViewsInOrder` | hscontrol/state/node_store.go:1001-1018 | if all of them exist, the views are those of the recorded peers, one by one |
| `NodeStore.PrimaryRoutesForNode` | hscontrol/state/node_store.go:1035-1052 | exactly the prefixes the node serves in some scope, without duplicates if it serves in one scope |
| `NodeStore.HANodes` | hscontrol/state/node_store.go:1075-1106 | a watched prefix lists all its candidates in ascending order, and every prefix with two candidates is watched |
| `StoreTheorems.DetectedUpdate` | hscontrol/state/node_store.go:210-220 | an update the detectors pass over leaves the inputs of both caches unchanged |
| `StoreTheorems.OpsKeepFlagsSound` | hscontrol/state/node_store.go:459-586 | after any operations, an unset flag means that cache's input equals the one before the batch |
| `StoreTheorems.BatchReelects` | hscontrol/state/node_store.go:675-721 | with or without reuse, the routes are the election on the current nodes from the previous routes |
| `StoreTheorems.CacheRefinesRecompute` | hscontrol/state/node_store.go:459-755 | in every reachable snapshot routes are a fixpoint of the election, adjacency is what the policy in force at its last build gives for the current nodes, and indexes are exact |
| `StoreTheorems.FixedPolicyAdjacency` | hscontrol/state/node_store.go:675-721 | without policy reloads the adjacency always equals a full recompute |
| `StoreTheorems.RebuildAdoptsPolicy` | hscontrol/state/node_store.go:1183-1198 | a rebuild makes the adjacency follow the new policy |
| `StoreTheorems.PrimariesAreSafe` | hscontrol/state/node_store.go:768-873 | in every reachable snapshot each primary is an online advertiser of its own scope, and healthy whenever a healthy candidate exists |
| `StoreTheorems.PrimaryMovesOnlyWhenLost` | hscontrol/state/node_store.go:833-870 | over any step a primary is replaced only if it stopped being a healthy candidate, and then by the least healthy one if there is one |
| `StoreTheorems.NoFlap` | hscontrol/state/node_store.go:833-870 | a primary that stays a healthy candidate through every batch of a history is never displaced |
| `StoreTheorems.NamesStayUnique` | hscontrol/state/node_store.go:485-573 | given names that are unique and non-empty at load stay so after any history |
| `StoreTheorems.SetNameExact` | hscontrol/state/node_store.go:529-565 | a rename either sets exactly that name or fails and leaves the whole batch state untouched |
| `StoreTheorems.AdjacencyResolves` | hscontrol/state/node_store.go:1001-1018 | every peer in a reachable adjacency exists in the table |
| `StoreTheorems.OneServingScope` | hscontrol/state/node_store.go:1035-1052 | a node serves a prefix in one scope only |
| `StoreTheorems.AtomicHealthKeepsPrimary` | hscontrol/state/state.go:1480-1538 | one batch that turns every candidate unhealthy keeps the primary |
| `StoreTheorems.HealthMovesPrimaryIff` | hscontrol/state/state.go:1480-1538 | a batch of health results moves the primary iff it leaves some candidate healthy, but not the primary |
| `StoreTheorems.SplitHealthMovesPrimary` | hscontrol/state/state.go:1474-1538 | two batches that leave every candidate unhealthy move the primary iff the first leaves some candidate healthy, but not the primary |
| `StoreTheorems.PrimaryMarkedFirstMoves` | hscontrol/state/state.go:1474-1538 | marking the primary first, alone, while another candidate is healthy, moves it for good |
| `StoreWrites.PutExact` | hscontrol/state/node_store.go:488-498 | a put stores the node as given, up to a unique non-empty name that is its own if free, and touches no other node |
| `StoreWrites.DelExact` | hscontrol/state/node_store.go:520-528 | a deletion removes exactly its node |
| `StoreWrites.UpdateExact` | hscontrol/state/node_store.go:499-519 | an update makes of an existing node what its function says, renaming only if it changes the name; a missing node and all others stay as they are |
| `StoreWrites.UpdateMultiExact` | hscontrol/state/node_store.go:499-519 | the same for every node named once in a list of updates, wherever it stands |
| `StoreWrites.HealthExact` | hscontrol/state/state.go:1480-1538 | an unhealthy mark sticks iff the node is online with an approved route, a healthy one always, and only the flag moves |
| `StoreWrites.LastWriteWins` | hscontrol/state/node_store.go:485-573 | a node is left as the last write that touches it leaves it: stored by a put, gone by a deletion, as loaded if there is none |
| `StoreWrites.PublishedNode` | hscontrol/state/node_store.go:414-586 | the same for the published table, whatever the interleaving and the batch boundaries |
| `StoreWrites.PutCallerSees` | hscontrol/state/node_store.go:591-620 | the caller of a put that no later write of the batch touches receives its node as stored |
| `StoreWrites.RenameCallerTold` | hscontrol/state/node_store.go:529-565 | a rename reports success iff the node then bears the name, and otherwise the first error that applies at its position, with the table unchanged |
| `WriteQueue.Complete` | hscontrol/state/node_store.go:591-632 | every result channel of the batch gets the value it is owed; then the callers are released, each once, rebuilds first and in batch order |
| `WriteQueue.ApplyAndAnswer` | hscontrol/state/node_store.go:459-633 | the snapshot is published before any result channel is answered, with values read from it |
| `WriteQueue.WritesConserved` | hscontrol/state/node_store.go:414-447 | every accepted write is pending or in exactly one applied batch, in order, also around Stop; callers are released batch by batch, rebuilds first |
| `WriteQueue.ReleasesPermute` | hscontrol/state/node_store.go:622-632 | releasing rebuilds first still releases every caller of the published batches, each once |
| `WriteQueue.ReleasedAsClosed` | hscontrol/state/node_store.go:622-632 | callers are released in the order in which a batch closes their channels |
| `WriteQueue.TableIgnoresBatching` | hscontrol/state/node_store.go:459-586 | the table depends on the order of the writes, not on how they were cut into batches |
| `WriteQueue.ReadYourWrites` | hscontrol/state/node_store.go:414-447 | in every interleaving the published table is the accepted writes applied in order, and exactly the callers of published writes are released or about to be, each once |
| `WriteQueue.ReleasedOnce` | hscontrol/state/node_store.go:591-632 | no caller is released twice |
| `WriteQueue.WriterFollowsActions` | hscontrol/state/node_store.go:414-447 | in every history the writer has taken on exactly the writes handed to it, and publishes on a tick, a full batch and a stop |
| `Changes.DedupePolicyChanges` | hscontrol/types/change/change.go:279-300 | keeps the first broadcast recompute and every other change, in order |
| `Changes.DedupeWithout` | hscontrol/types/change/change.go:279-300 | without a broadcast recompute nothing is dropped |
| `Changes.DedupeShape` | hscontrol/types/change/change.go:279-300 | everything up to the first broadcast recompute stays, and after it everything but such changes, in order |
| `Changes.KindsExact` | hscontrol/types/change/change.go:132-176 | a change is empty iff it says nothing besides recipient and origin, and full iff a full update adds nothing to it |
| `Changes.MergeNeutral` | hscontrol/types/change/change.go:73-130 | merging with the empty change or with itself gives the change back |
| `Changes.MergeKinds` | hscontrol/types/change/change.go:73-130 | a merged change is empty iff both are, reaches the nodes both reach, and keeps the first origin |
| `Responses.GeneratedIff` | hscontrol/mapper/batcher.go:82-137 | a change is answered iff it is not empty, not private to another node, and all the response is to carry can be resolved |
| `Responses.NothingHiddenIsSent` | hscontrol/mapper/mapper.go:449-473 | no response shows a peer, or a patch of one, that the recipient may not see |
| `Responses.CarriesExactly` | hscontrol/mapper/mapper.go:339-447 | every part of every response: own record, ping, patches, list, changed and removed peers |
| `PeerTracking.ViewsAgreeIff` | hscontrol/mapper/batcher.go:82-209 | a delivered response keeps record and client equal iff the change is agreeable, which is known beforehand |
| `PeerTracking.MergedRemovalDisagrees` | hscontrol/types/change/change.go:73-130 | merging a removal and a change of one peer gives, at any netmap that renders it, a response after which the client has the peer and the record has not |
| `PeerTracking.RecomputeConverges` | hscontrol/mapper/mapper.go:339-377 | after a recompute the record holds no hidden peer, and all visible ones iff those not rendered were known |
| `PeerTracking.FullListExact` | hscontrol/mapper/mapper.go:381-447 | when a complete list leaves exactly the rendered peers in the record |
| `PeerTracking.DeliverableAgrees` | hscontrol/mapper/batcher.go:170-209 | every change as the batcher queues it keeps record and client equal |
| `PeerTracking.InitialMapSynchronises` | hscontrol/mapper/batcher.go:324-350 | whatever the record held, the initial map leaves record and fresh client with the rendered peers |
| `PeerTracking.DedupePreservesPeers` | hscontrol/types/change/change.go:279-300 | so it is harmless when no change of the bundle removes a rendered peer |
| `PeerTracking.LastEffectExact` | hscontrol/mapper/batcher.go:82-209 | the peers a bundle leads to are decided peer by peer by the last change that concerns it |
| `PeerTracking.DedupeExact` | hscontrol/types/change/change.go:279-300 | for every bundle, dropping the repeated recomputes leads to the same peers iff it undoes no restoration of a removed peer |
| `PeerTracking.DroppedRecomputeMatters` | hscontrol/types/change/change.go:279-300 | with a removal between two recomputes the peers differ iff the recomputes succeed and render the removed peer |
| `PeerTracking.FullUpdateAbsorbs` | hscontrol/mapper/batcher.go:657-673 | replacing a whole pending list by one full update gives the same peers |
| `FirstFrame.FirstFrameSafety` | hscontrol/mapper/batcher.go:283-362 | in every interleaving, deletions of the entry at any time included, the first frame on any connection's channel is its initial map, and only the first |
| `FirstFrame.PutKeepsFirstFrames` | hscontrol/mapper/node_conn.go:275-310 | putting a delta on a target's channel keeps the initial map its first frame |
| `DeliveryOrder.EventKeepsOneIff` | hscontrol/mapper/batcher.go:624-655 | one event keeps the in-flight flag set exactly while there is one bundle, and no other, iff it is not a creation that inherits a queued bundle |
| `DeliveryOrder.AtMostOneBundle` | hscontrol/mapper/batcher.go:703-731 | in every history the in-flight flag is always set exactly while one bundle is queued or processed, and there is no other, iff no entry was created while a bundle of a deleted one was queued |
| `DeliveryOrder.BundlesAfter` | hscontrol/mapper/batcher.go:561-731 | only a tick adds a bundle, only a worker that is done removes one, and a new entry has those still queued |
| `DeliveryOrder.NeverTwoBundlesIff` | hscontrol/mapper/batcher.go:703-731 | in every history the node never has two bundles iff the ticker never queues one while another is on its way |
| `DeliveryOrder.CleanStartsNeverTwo` | hscontrol/mapper/batcher.go:703-731 | which it never does while no entry inherits a bundle |
| `DeliveryOrder.DedupeIsSubsequence` | hscontrol/types/change/change.go:279-300 | coalescing only drops elements |
| `DeliveryOrder.BundleKeepsLine` | hscontrol/mapper/batcher.go:561-601 | taking, locking, unlocking and putting back a bundle leave the line of undelivered changes as it is: retried changes return to the head in order |
| `DeliveryOrder.FinishKeepsOrderIff` | hscontrol/mapper/batcher.go:575-588 | delivering a change keeps acceptance order iff no earlier change of the bundle waits for a retry |
| `DeliveryHistory.ChangesConserved` | hscontrol/mapper/batcher.go:561-731 | every change the entry accepted is delivered once, still in line, or explicitly given up |
| `DeliveryHistory.NextKeepsOrderIff` | hscontrol/mapper/batcher.go:561-601 | the only step that breaks the order is a delivery that overtakes |
| `DeliveryHistory.AlwaysOrderedIff` | hscontrol/mapper/batcher.go:561-601 | in every history changes are in acceptance order throughout iff no delivery overtakes |
| `DeliveryHistory.DeliveredInOrder` | hscontrol/mapper/batcher.go:561-601 | if no connection opens while a worker holds deferred changes, changes are in acceptance order throughout |
| `DeliveryProgress.NothingGetsStuck` | hscontrol/mapper/batcher.go:561-731 | after any history, once all connections are ready, every sequence of ticks and worker steps, refused frames included, comes to rest within a bound known beforehand, everything settled |
| `DeliveryProgress.HelpfulHelps` | hscontrol/mapper/batcher.go:561-731 | every tick and worker step gets closer to rest |
| `DeliveryConnections.AlwaysFit` | hscontrol/mapper/node_conn.go:275-342 | in every history one worker at a time has a response on its way, and every connection of its snapshot is still to be offered it, has failed, or has taken it |
| `DeliveryConnections.LeftOutIff` | hscontrol/mapper/node_conn.go:291-302 | a broadcast leaves a listed connection out iff it began while the connection was being added |
| `DeliveryConnections.MissesNothingIff` | hscontrol/mapper/node_conn.go:267-310 | in every history, what was delivered to the node since a connection's initial map was generated is what it missed followed by what is on its channel; it missed one change for each broadcast begun while it was being added that somebody took |
| `DeliveryPeers.NextAgreesIff` | hscontrol/mapper/batcher.go:339-352 | one step keeps record and client in agreement iff it does not record another connection's differing map and no left-out change moves the record |
| `DeliveryPeers.AgreesIffUndisturbed` | hscontrol/mapper/node_conn.go:446-491 | in every history with any number of connections, record and client agree throughout iff no step disturbed them |
| `DeliveryPeers.SoloMissesNothing` | hscontrol/mapper/node_conn.go:304-310 | with one connection at a time no broadcast begins while it is being added |
| `DeliveryPeers.RecordMatchesClient` | hscontrol/mapper/batcher.go:170-209 | with one connection at a time, whenever no response is on its way the record equals the client's fold of all frames on its channel, in every history |
| `DeliveryPeers.RecomputeReachesClient` | hscontrol/mapper/mapper.go:339-377 | a delivered recompute leaves the client with the rendered peers and those it knew that are still visible |
| `DeliveryLog.AcceptedExactly` | hscontrol/mapper/batcher.go:657-699 | in every history an entry has accepted exactly what was submitted to it, in order |
| `DeliveryLog.ChannelExact` | hscontrol/mapper/batcher.go:703-731 | in every history the node's bundles in the work channel are those the ticks queued, without repeated recomputes, taken in that order |
| `DeliveryLog.ListedIff` | hscontrol/mapper/node_conn.go:143-184 | in every history the connections listed are those registered and not aborted, disconnected or failed since, and those opened are ready |
| `DeliveryLog.SentIffReceived` | hscontrol/mapper/node_conn.go:325-423 | in every history a change counts as delivered iff some connection has it on its channel, up to one being broadcast |
| `DeliveryLog.WorkerChoice` | hscontrol/mapper/node_conn.go:275-302 | a worker passes a change over iff there is nothing or nobody to send to, puts it aside iff no connection is ready, sends it iff one is |
| `DeliveryLog.GivenUpIff` | hscontrol/mapper/batcher.go:561-731 | in every history a change was dropped iff a full update replaced it, a tick coalesced it, there was nothing or nobody to send to, or nobody took it |
| `DeliveryFrames.FramesGenuine` | hscontrol/mapper/batcher.go:170-209 | in every history each frame on any channel is the response generated for its change, the initial map for the full update of the recipient |
| `DeliveryFrames.ClientsSeeOnlyTheirs` | hscontrol/mapper/mapper.go:449-473 | so all a client ever receives was visible to it when the frame was generated |
| `DeliveryFrames.AdditionExact` | hscontrol/mapper/batcher.go:283-362 | an uninterrupted addition: the connection is last in the list, ready, has exactly its initial map, the record is that map's peers, nothing else changes |
| `DeliveryFrames.FailedAdditionExact` | hscontrol/mapper/batcher.go:324-337 | an addition whose initial map fails leaves the connections as they were |
| `DeliveryRaces.ChangeCanBeOvertaken` | hscontrol/mapper/batcher.go:339-352 | a history in which a connection opens inside a bundle and a later change is delivered first |
| `DeliveryRaces.InheritedBundlesStay` | hscontrol/mapper/batcher.go:624-655 | in every state, an entry created while bundles wait has all of them and one more after its first tick |
| `DeliveryRaces.InheritedBundleAlone` | hscontrol/mapper/batcher.go:623-655 | a history in which an entry inherits a bundle and there is never a second one |
| `DeliveryRaces.RecreateAllowsTwoBundles` | hscontrol/mapper/batcher.go:623-655 | a history with two bundles of a node that was deleted and added again |
| `DeliveryRaces.SecondConnectionMissesUpdate` | hscontrol/mapper/node_conn.go:267-310 | a history at rest whose second connection has missed an update delivered to the first, and whose record was disturbed |
| `NodeConns.NodeConnection.StopConnection` | hscontrol/mapper/node_conn.go:132-138 | no session's stop function runs twice |
| `NodeConns.NodeConnection.Close` | hscontrol/mapper/node_conn.go:119-128 | all sessions are stopped, each once |
| `NodeConns.NodeConnection.RemoveConnection` | hscontrol/mapper/node_conn.go:143-184 | removes the first matching connection, keeps the others in order, and reports whether there was one |
| `NodeConns.NodeConnection.Snapshot` | hscontrol/mapper/node_conn.go:291-302 | exactly the ready connections, in order |
| `NodeConns.NodeConnection.Offer` | hscontrol/mapper/node_conn.go:325-338 | the frame is put once on every connection that takes it; closed and slow ones are reported |
| `NodeConns.NodeConnection.Discard` | hscontrol/mapper/node_conn.go:340-373 | exactly the failed connections are removed and their sessions stopped |
| `NodeConns.NodeConnection.Send` | hscontrol/mapper/node_conn.go:275-423 | the four outcomes of a broadcast and the connections and channels after each |
| `NodeConns.NodeConnection.UpdateSentPeers` | hscontrol/mapper/node_conn.go:446-469 | the record after a response: replaced by a complete list, then additions, then removals |
| `NodeConns.NodeConnection.ComputePeerDiff` | hscontrol/mapper/node_conn.go:473-491 | exactly the recorded peers that are not current |
| `NodeConns.NodeConnection.GenerateMapResponse` | hscontrol/mapper/batcher.go:82-167 | the generated response, including the removals that replace an empty complete list |
| `NodeConns.NodeConnection.HandleNodeChange` | hscontrol/mapper/batcher.go:170-209 | the record only changes after delivery to at least one connection |
| `NodeConns.NodeConnection.ProcessBundle` | hscontrol/mapper/batcher.go:561-601 | changes are handled in order and the not-ready ones return to the head of pending in order |
| `NodeConns.PutAllResult` | hscontrol/mapper/node_conn.go:325-338 | offering a response target by target gives the same channels and failures as the broadcast |
| `NodeConns.HandleIsProtocolRun` | hscontrol/mapper/batcher.go:170-209 | handling a change is a run of the delivery protocol with the same connections, record and whereabouts of the change |
| `NodeConns.BundleIsProtocolRun` | hscontrol/mapper/batcher.go:561-601 | processing a bundle is a run of the delivery protocol from the lock to clearing the in-flight flag, with the same result as the method |
| `Batching.FeedComplete` | hscontrol/mapper/batcher.go:674-699 | every node receives exactly the changes that concern it, each once |
| `Batching.FeedOrderIff` | hscontrol/mapper/batcher.go:674-699 | they keep their order iff no targeted one followed a broadcast one |
| `Batching.Batcher.DropDeleted` | hscontrol/mapper/batcher.go:624-655 | exactly the deleted nodes leave the batcher, and the sessions of each that was there are torn down once |
| `Batching.Batcher.AddToBatch` | hscontrol/mapper/batcher.go:623-700 | a full update replaces every pending list, otherwise each list grows by what concerns its node |
| `Batching.Batcher.AddWork` | hscontrol/mapper/batcher.go:417-429 | empty changes are dropped, the others are spread |
| `Batching.SubmissionDrops` | hscontrol/mapper/batcher.go:624-655 | exactly the entries of nodes that a change reports as deleted leave |
| `Batching.TornDownOnce` | hscontrol/mapper/batcher.go:635-655 | the sessions of each entry that leaves are torn down once |
| `Batching.SubmissionExact` | hscontrol/mapper/batcher.go:417-429 | a remaining list becomes one full update if there is one, else grows by the non-empty changes for its node or for all, each as often as submitted |
| `Batching.NonEmptyExact` | hscontrol/mapper/batcher.go:417-429 | exactly the empty changes are dropped |
| `Batching.NonEmptyConcat` | hscontrol/mapper/batcher.go:417-429 | and the others keep their order |
| `Batching.Batcher.ProcessBatchedChanges` | hscontrol/mapper/batcher.go:703-731 | a tick queues one bundle for each idle node with pending changes and for no other node |
| `Batching.SubmitIsProtocolStep` | hscontrol/mapper/batcher.go:657-699 | a node's pending list changes as the protocol's submission says, for every list of changes |
| `Batching.TickIsProtocolStep` | hscontrol/mapper/batcher.go:703-731 | a node's tick is the protocol's tick, with the same bundle |
| `IPAllocation.FirstFreeLeast` | hscontrol/db/ip.go:235-262 | the search finds the least free address of an interval |
| `IPAllocation.PickExact` | hscontrol/db/ip.go:205-263 | an allocation is in the prefix, free and not reserved; sequential fails iff nothing free is left above prev, random iff nothing free is left |
| `IPAllocation.PickNearest` | hscontrol/db/ip.go:205-310 | sequential returns the least free address after prev, random the nearest free one from the start, going around |
| `IPAllocation.PickInExact` | hscontrol/db/ip.go:205-263 | a single allocation hands out the nearest address and fails iff the family is exhausted |
| `IPAllocation.NextExact` | hscontrol/db/ip.go:140-169 | for every configuration a pair succeeds iff no configured family is exhausted, has the nearest address of exactly the configured families, and marks exactly those; a failure hands out nothing and leaks at most the IPv4 address |
| `IPAllocation.StartExact` | hscontrol/db/ip.go:86-128 | at start-up exactly the loaded addresses and the prefix ends are used, and the first sequential address is the least free one |
| `IPAllocation.StartCovers` | hscontrol/db/ip.go:265-310 | the random start can be any address of the prefix but its last |
| `IPAllocation.ReservedExact` | hscontrol/db/ip.go:312-316 | the reserved IPv4 addresses are 100.115.92.0/23 and 100.100.100.100 |
| `IPAllocation.IPAllocator.constructor` | hscontrol/db/ip.go:57-138 | network, broadcast and loaded addresses are used, and the search starts at the network address |
| `IPAllocation.IPAllocator.Search` | hscontrol/db/ip.go:205-310 | the loop ends, examines no address twice, returns the specified address, and has examined the whole prefix (random) or everything after prev (sequential) when it fails |
| `IPAllocation.IPAllocator.Allocate` | hscontrol/db/ip.go:176-203 | a found address becomes used and the new starting point; a failure changes nothing |
| `IPAllocation.IPAllocator.Next` | hscontrol/db/ip.go:140-169 | a pair, and the IPv4 address that stays used when IPv6 fails |
| `IPAllocation.IPAllocator.FreeIPs` | hscontrol/db/ip.go:406-413 | exactly the given addresses become free |
| `IPHistory.NoAddressHeldTwice` | hscontrol/db/ip.go:90-203 | after any history outstanding addresses are pairwise distinct, those handed out in their prefix and not reserved, and the used set is exactly outstanding, leaked, and the network and broadcast addresses no loaded node had |
| `IPHistory.HoldersExact` | hscontrol/db/ip.go:140-203 | in every history the outstanding addresses are those loaded or handed out and not given back since; one given back is free again unless reserved |
| `IPHistory.SequentialNeverReuses` | hscontrol/db/ip.go:205-263 | under the sequential strategy no address is handed out twice since start-up, not even after its release |
| `IPHistory.FillRow` | hscontrol/db/ip.go:345-387 | one node gets an address of exactly the configured families and keeps those it had |
| `IPHistory.BackfillNodeIPs` | hscontrol/db/ip.go:327-404 | a pass gives every node the configured families, keeps existing addresses, shares none, fails only on exhaustion, and is without effect where nothing is missing |
| `EphemeralGC.CollectorInvariant` | hscontrol/db/node.go:418-533 | in every interleaving a deletion is issued at most once per scheduling and only if its timer ran out and it was never cancelled or superseded; while open, every scheduled node has a live watcher or a queued deletion; no timer or watcher of another scheduling lingers |
| `EphemeralGC.PanicsIffClosedTwice` | hscontrol/db/node.go:418-497 | no done channel is closed twice; a history panics iff Close is called again |
| `EphemeralGC.ScheduledGetsDeleted` | hscontrol/db/node.go:433-533 | while open, every sequence of timer, watcher and consumer steps issues each scheduled deletion within a bound known beforehand, even with a full channel |
| `CollectorHistory.ScheduledIff` | hscontrol/db/node.go:433-497 | in every history a node is scheduled iff it was scheduled while open, not cancelled since, and that scheduling's deletion not issued |
| `CollectorHistory.QueueExact` | hscontrol/db/node.go:459-483 | due deletions are looked at in the order they were queued, under the node of their scheduling |
| `CollectorHistory.IssuedExactly` | hscontrol/db/node.go:514-531 | a deletion is issued exactly when the consumer looks at it and its scheduling is the node's last, with no cancel or new scheduling since |
| `CollectorHistory.IssuedOnceExpired` | hscontrol/db/node.go:459-531 | at most once per scheduling, and only after its timer ran out |
| `CollectorHistory.GenerationsExact` | hscontrol/db/node.go:452-458 | generations number the schedulings made while open |
| `EphemeralGC.EphemeralGarbageCollector.Schedule` | hscontrol/db/node.go:433-485 | a new generation replaces and reaps the previous scheduling; nothing after Close |
| `EphemeralGC.EphemeralGarbageCollector.Cancel` | hscontrol/db/node.go:488-497 | the scheduling is reaped and forgotten |
| `EphemeralGC.EphemeralGarbageCollector.Close` | hscontrol/db/node.go:418-430 | all current timers are stopped; a second call panics |
| `EphemeralGC.EphemeralGarbageCollector.IsScheduled` | hscontrol/db/node.go:500-507 | true iff some scheduling of the node is current |
| `EphemeralGC.EphemeralGarbageCollector.StartDue` | hscontrol/db/node.go:514-531 | a received deletion that is stale is dropped, a current one started once |
| `Probing.HAHealthProber.MarkSessionStable` | hscontrol/state/ha_health.go:52-55 | stable iff the same session was recorded before; records it |
| `Probing.HAHealthProber.Prune` | hscontrol/state/ha_health.go:77-93 | exactly the sessions of nodes that are no candidates any more are forgotten |
| `Probing.HAHealthProber.Dedupe` | hscontrol/state/ha_health.go:99-112 | every candidate once, however many prefixes it serves |
| `Probing.HAHealthProber.Probe` | hscontrol/state/ha_health.go:123-212 | the verdict of one probe and its effect on the record |
| `Probing.HAHealthProber.ProbeOnce` | hscontrol/state/ha_health.go:71-239 | the health updates of a cycle, none at all if a probe was deferred |
| `Probing.RecordMeansProbed` | hscontrol/state/ha_health.go:52-133 | a session is recorded iff some cycle probed it and no later one found the node offline, out of the candidates or in another session |
| `Probing.FreshSessionsNeverDemoted` | hscontrol/state/ha_health.go:71-239 | over any history, exactly when a node is marked unhealthy |
| `Probing.AnsweredProbesRestore` | hscontrol/state/ha_health.go:71-239 | over any history, exactly when a node is marked healthy |
| `Pings.ChannelsUsedOnce` | hscontrol/state/ping.go:37-93 | in every interleaving each response channel is sent on at most once and closed at most once, and never used after it is closed |
| `Pings.CompletionDelivers` | hscontrol/state/ping.go:55-73 | a completion never blocks, and sends one latency before closing |
| `Pings.PendingExact` | hscontrol/state/ping.go:37-93 | in every history a ping is pending iff registered and not taken, cancelled or drained since, on the channel of that registration |
| `Pings.ChannelFate` | hscontrol/state/ping.go:55-93 | in every history a channel is completed iff its ping was taken, and closed without a value iff it was drained |
| `Pings.RegisteredCanComplete` | hscontrol/state/ping.go:37-73 | until then it can be completed, and its caller is sent one latency |
| `Pings.PingTracker.Register` | hscontrol/state/ping.go:37-50 | a fresh channel is pending under the identifier |
| `Pings.PingTracker.Complete` | hscontrol/state/ping.go:55-73 | succeeds iff the ping is pending, and equals the interleaved completion |
| `Pings.PingTracker.Cancel` | hscontrol/state/ping.go:76-80 | forgets the ping without using its channel |
| `Pings.PingTracker.Drain` | hscontrol/state/ping.go:85-93 | closes every pending channel once and forgets all |
| `RouteApproval.AscendingUnique` | hscontrol/policy/policy.go:64-69 | a sorted list without repeats is determined by its elements |
| `RouteApproval.ApproveRoutesWithPolicy` | hscontrol/policy/policy.go:41-102 | the result is ascending and holds exactly the valid routes approved before or announced and allowed; changed iff the list was not clean or the policy adds to it |
| `RouteApproval.ApprovalIdempotent` | hscontrol/policy/policy.go:41-102 | applying it to its own result changes nothing and reports no change |

## Left out

- The content of policies: ACL and grant compilation, SSH rules, autogroups; the visibility function is a parameter.
- HTTP, Noise, OIDC and gRPC handlers, the CLI, DERP, DNS and the database layer: guard chains and calls into other systems.
- Rendering of peers into wire messages: only which peers can be rendered is modelled.
- Wall-clock behaviour: batch timers, probe intervals and send timeouts may happen at any time.
- Removal of long-offline entries from the batcher: one guarded deletion, covered by the protocol's recreation event.
- Batcher shutdown: workers that leave with bundles still queued.
- ReduceRoutes and ScopedRoutes: one filter each.
- Wrap-around of the 64-bit generation, connection and session counters.
- NodeConns.NodeConnection: connection entries are identifiers in a sequence and the frames put on a channel are kept as a list, so object identity and the slice's backing array are not captured.
- Batching.Batcher: the concurrent map of node entries is one map value and a tick runs uninterrupted; the interleavings are in Delivery.
- Delivery: a tick is one step; when an entry inherited a bundle, its worker's putting back of retries and clearing of the flag between the ticker's drain and store are not distinguished.
- DeliveryPeers.AgreesIffUndisturbed: for changes that name no peer as both changed and removed and ask for the complete list only as a full update; ViewsAgreeIff says what happens otherwise.
- DeliveryHistory.ChangesConserved: counts the changes of the present entry since it was created; those of a deleted entry that were pending are lost with it.
- IPAllocation.IPAllocator.constructor: reading and parsing the stored addresses is not part of this model.
- IPHistory.BackfillNodeIPs: on failure the database transaction is rolled back, which is not modelled; the addresses taken so far stay used.
- IPHistory.NoAddressHeldTwice: only held addresses are released.
- Probing.HAHealthProber.ProbeOnce: the probes of a cycle run one after the other, since they share nothing but the deferred flag.
- RouteApproval.ApproveRoutesWithPolicy: all invalid prefixes are one value, and the order compares unmasked addresses.
- WriteQueue: SetGivenName called after Stop returns without effect and without an error; only accepted writes are modelled.
