# Verification of the overlay network's protocol cores

A Dafny model of the overlay network's state machines, with proofs over all their runs. Every protocol is modelled
twice. As a **value**: datatypes and functions for the state and each step, on which the run theorems are proved. As
an **object**: a class or method with the fields, loops, arrays and queues of the program, each method proved equal to
the value-level step. `dafny verify dfyconfig.toml` checks everything.

| files | what they model |
|---|---|
| Identity, Sorting, Paths | node ids as four layers, XOR distance, stable sorting, metrics and path lists |
| RouterModel, RouterRuns, Forwarding, ServiceRouting | the router, networks of routers exchanging syncs, loop-free forwarding to nodes and services, key roots |
| Columns, Convergence, Reachability, Settling | networks settle, and what they then know |
| ShadowModel, Mirror | the shadow router, service fan-out, and its agreement with the router |
| TableObjects, RegistryObjects, ShadowObjects, ShadowRouterObject | tables, registry and the shadow router updated in place |
| Handshake, KeepAlive, ConnectionObject | the neighbour handshake between two sides, and one connection over time |
| Endpoints, Renewal, Relay, RelayHistory, RelayObjects | pub/sub relays and the worker's route table, and relays told from their calls |
| SourceHint, HintTree, SourceHintObject | the source-hint notification tree at one node |
| DhtMessages, DhtClient, DhtServer, DhtRelay, DhtLearning, DhtRuns, DhtView, DhtObjects | the DHT key-value protocol |
| Alias, AliasHistory, AliasObject | alias lookup |
| History, Header | broadcast de-duplication and the transport header |

## Assumptions

- Time does not go back; in the DHT every node session has a clock of its own. Latency is a natural number, so `Metric::add` does not overflow 16 bits.
- `Vec::sort` is stable (`Sorting.StableSortIsSort` shows that this determines its result).
- A connection in use keeps its neighbour. Links are reported with the neighbour as the only hop.
- Hash maps yield their keys in any order, each once; the order of a call is a parameter of the step. For the ordered
  maps of the source-hint logic the order is left open as well, which covers theirs.
- Messages are never removed from the network, so loss, duplication, reordering and staleness are all runs. In the DHT
  a message to a client may reach any session of the addressed node, since it is routed by node id.
- Encryption keys are the pair (request, response) they are derived from. A side repeats one and the same request.
- *Synchronised* means that receiving a neighbour's current sync would change no slot; *complete* that every node has a
  path towards every other. Two nodes *can meet* when links between nodes that share their common prefix lead from one
  to a node with the other's next byte.
- A *period* of a run delivers a sync over every connection, and none that was built before the previous period. Links
  and local services do not change meanwhile.

## Findings

Where a property fails, the failing case is a lemma and the exact condition is proved.

- **Simultaneous open with equal sessions**: both sides give way and both become incoming. As long as connect requests
  can be processed, agreement holds in every run exactly when the sessions differ (`Handshake.AgreementIffSessionsDiffer`).
- **Giving way to a request that fails**: the side has then already taken over the other's session, and both can end up
  incoming, whichever session is the larger (`Handshake.FailedGivingWayDisagrees`). Every run without that moment agrees,
  other failed requests included (`Handshake.BothConnectedAgree`). With no assumption on requests, agreement holds in
  every run exactly when only one side opens (`Handshake.AgreementIffOneOpens`). The X25519 builder of the program refuses
  only a request that is not 32 bytes long (packages/network/src/secure/encryption/x25519_dalek_aes.rs:64-71), so this
  takes a peer with another handshake builder.
- **Links through another geo1**: nodes advertise a layer only to neighbours sharing the prefix, so a node whose links all
  leave its geo1 never learns of others there, though links lead to them (`Reachability.OutsideLinksDoNotHelp`). A settled
  network knows everybody exactly when any two nodes can meet (`Reachability.CompleteIffAllMeet`). Services have no such
  limit (`Reachability.KnowsServiceIff`).
- **Lost relay hop**: a bound relay that loses its hop leaves the worker's source in place, for as long as there are
  consumers (`Relay.LostHopStillDelivers`) and, if it had none, even for the next relay (`Relay.NewRelayHearsOldHop`).
  `Relay.DeliversIffHeard` says for every run exactly which hop gets through.
- **Two Sets in one millisecond**: versions are timestamps, so an acknowledgement of the first is taken for the second,
  in one session or across two sessions of a node. Acknowledgements are sound exactly when that does not happen
  (`DhtRuns.AcksSoundIffDistinct`). Nor do the sides agree on the value: a relay keeps the later of two Sets under one
  version (`DhtRelay.SlotHoldsWinner`), a client that learns both the earlier (`DhtLearning.SlotShowsWinner`,
  `DhtRuns.EqualVersionsPart`).
- **Subscribing again**: the first subscriber after the list was empty is told own keys only, so learned slots of other
  sources stay hidden until they change (`DhtView.FirstSubscriberSeesAllIff`, `DhtView.LeavingKeepsForeign`).
- **Untold source**: the root hears of a node's first or last local source only if the node knows no remote source at
  that moment. A missing Register is made up for by the next tick; a missing Unregister is not, as long as no local
  source comes back, so the root keeps the node until its entry times out (`SourceHint.LastWordIff`, `SourceHint.StaysRegistered`).
- **Sources a subscriber is not told of**: a source that runs out on a tick is passed on to nobody, and no report is sent back
  to the remote it came from; these and no other changes are untold (`HintTree.UntoldChanges`), and
  `HintTree.SubscriberKnowsSources` says exactly when a subscriber is mistaken.
- **Secure bit**: `TransportMsg::is_secure_header` tests a route bit, not the encryption bit (`Header.SecureBits`).

The header documentation lists route type 3 as ToKey; the code uses 3 for ToServices and 4 for ToKey, and the model
follows the code.

## Model

| member | source | states |
|---|---|---|
| `Identity.ValueRoundTrip` | packages/core/identity/src/node_id.rs:83-85 | the four bytes of an id and its 32-bit value determine each other |
| `Identity.EqUtilLayerMeaning` | packages/core/identity/src/node_id.rs:108-126 | the result is `l + 1` exactly when the ids differ on layer `l` and agree on every layer above it, and 0 exactly when they are equal |
| `Identity.SharesFromIff` | packages/core/identity/src/node_id.rs:108-126 | ids agree from layer `l` up exactly when the first difference lies below `l` |
| `Identity.DistanceMetric` | packages/core/identity/src/node_id.rs:64-66 | XOR distance is 0 exactly for equal ids, symmetric, and two ids at the same distance from a key are equal |
| `Identity.DistanceIsLexicographic` | packages/core/identity/src/node_id.rs:64-66 | comparing two XOR distances to a key as 32-bit numbers is comparing the bytes of the highest layer on which the ids differ |
| `Identity.DistanceAboveIsQuotient` | packages/core/identity/src/node_id.rs:64-66 | the distance read down to layer `l` is the 32-bit distance shifted right by 8·l |
| `Sorting.StableSortIsSort` | packages/core/router/src/core/table/dest.rs:28-48 | any stable sort by score (what `Vec::sort` promises) yields exactly the list the model computes |
| `Paths.ScoreGrows` | packages/core/router/src/core/table/metric.rs:39-54 | extending a path by a link raises its score by at least one hop penalty, keeps the destination and ends at the link's neighbour |
| `Paths.ScoreIsScore` | packages/core/router/src/core/table/metric.rs:39-54 | the score obeys its laws: nothing for nothing, exactly 1 more a millisecond, 10 more a hop, 1000 more below a bandwidth of 10000 |
| `Paths.ScoreIsDetermined` | packages/core/router/src/core/table/metric.rs:39-54 | any function that obeys these laws is the score |
| `Paths.AddFields` | packages/core/router/src/core/table/metric.rs:39-54 | links in a row: latencies add up, hops line up with the destination first, and the bandwidth is that of the narrower |
| `Paths.FasterFirst` | packages/core/router/src/core/table/dest.rs:28-48 | of two paths with as many hops and the same bandwidth the one of smaller latency comes first in the list, and the other is chosen neither by next_path nor by best_for where it is allowed |
| `Paths.SetPathFacts` | packages/core/router/src/core/table/dest.rs:28-48 | setting a path leaves exactly one entry for that connection and all other entries, sorted by score, one per connection |
| `Paths.DelPathFacts` | packages/core/router/src/core/table/dest.rs:50-66 | deleting removes exactly the connection's entry and keeps order and uniqueness |
| `Paths.BestForIsBest` | packages/core/router/src/core/table/dest.rs:86-93 | `best_for` has the least score among the paths that avoid the neighbour, and is found whenever one exists |
| `Paths.NextPathIsBest` | packages/core/router/src/core/table/dest.rs:95-102 | `next_path` has the least score among the paths over an allowed next hop, and is found whenever one exists |
| `Paths.DelPathDelta` | packages/core/router/src/core/table/dest.rs:50-66 | queueing a delta only when position 0 is removed announces exactly the changes of the best connection |
| `Paths.BestDeltaIff` | packages/core/router/src/core/table/dest.rs:28-66 | one change is announced exactly when the best connection changed, naming the new one, or that there is none any more |
| `RouterModel.AdvertisedFacts` | packages/core/router/src/core/table.rs:161-177 | an advertisement lists exactly the filled indices other than the own one that have a path avoiding the receiver, each with its best such path |
| `RouterModel.SyncTransfers` | packages/core/router/src/core/table.rs:121-177 | what a neighbour keeps of a sync: for every advertised index the sender's best path for it, longer by the link, and nothing else |
| `RouterModel.ServicesAdvertisedFacts` | packages/core/router/src/core/registry.rs:130-145 | an advertisement lists exactly the local services and those with a path avoiding the receiver, each once and in order, local ones at no cost and the others with their best such path |
| `RouterModel.ServiceDeltasIff` | packages/core/router/src/core/registry/dest.rs:34-64 | a service change is announced exactly when a path is removed, or set with another score or destination than the connection had |
| `RouterModel.ClosestFor` | packages/core/router/src/core/table.rs:107-119 | the answer is a usable index nearest to the key byte by XOR, and there is none exactly when no index is usable |
| `RouterModel.SetDirectSlot` | packages/core/router/src/core/router.rs:75-84 | a direct connection changes one slot only: the layer where the neighbour first differs, at the neighbour's index |
| `RouterRuns.StepKeepsInv` | packages/network/src/features/router_sync.rs:70-135 | link up, link down, service registration, sending and delivering any sync ever sent each keep the path-vector, prefix and service invariants of every node and of every message in flight |
| `RouterRuns.EveryRunIsSafe` | packages/network/src/features/router_sync.rs:70-135 | in every run with lost, duplicated, reordered and stale syncs: hops of stored and of flying paths are distinct, stay in the network and avoid their holder; stored paths end at their connection's neighbour; a path filed at layer `l`, index `i` leads to a node sharing all higher layers and having `i` on layer `l`; service paths lead to nodes that registered the service |
| `RouterRuns.HopsAreBounded` | packages/core/router/src/core/table.rs:121-155 | in every run a stored path, to a node or a service, has at most (number of nodes - 1) hops |
| `RouterRuns.OffersIffRegistered` | packages/core/router/src/core/registry.rs:65-68 | in every run a node offers exactly the services it registered |
| `Forwarding.RelayIsBetter` | packages/core/router/src/core/table.rs:121-177 | in a synchronised network the neighbour of a stored path is inside the slot's prefix or has a strictly better path for the same slot |
| `Forwarding.NextHopIsCloser` | packages/core/router/src/core/router.rs:94-102 | each hop of `next` strictly lowers (layer still to resolve, best score of the slot) |
| `Forwarding.ForwardingIsLoopFree` | packages/core/router/src/core/router.rs:94-102 | in every reachable synchronised state, following `next` terminates, visits no node twice, takes at most as many nodes as there are, and with complete tables ends at the destination |
| `Forwarding.KeepsKeyIffNearestKnown` | packages/core/router/src/core/router.rs:114-131 | in every reachable state `closest_node` is None exactly when the node's XOR distance to the key is below that of every known destination |
| `Forwarding.ChosenIsNearest` | packages/core/router/src/core/router.rs:114-131 | otherwise the chosen destination is strictly nearer than the node, and read down to the chosen layer no known destination is nearer |
| `Forwarding.KeepsKeyIffNearest` | packages/core/router/src/core/router.rs:114-131 | with complete tables a node keeps a key exactly when it is the XOR-nearest of all nodes |
| `Forwarding.KeyHopIsCloser` | packages/core/router/src/shadow/mod.rs:86-101 | each hop of key routing leaves a lower layer to resolve, or the same slot with a better score |
| `Forwarding.RouteKey` | packages/core/router/src/shadow/mod.rs:86-108 | hop-by-hop key routing terminates, at a node that keeps the key |
| `Forwarding.KeyRoutingMeetsAtRoot` | packages/core/router/src/core/router.rs:463-486 | in every reachable synchronised state with complete tables, key routing from all nodes meets at one node, the XOR-nearest, and only that node keeps the key |
| `Forwarding.ChaseMeetsAtRoot` | packages/core/router/src/core/router.rs:114-131 | following the chosen destination nodes instead of next hops ends at the XOR-nearest node, without synchronisation |
| `Forwarding.NextAvoids` | packages/core/router/src/core/router.rs:94-102 | a lookup takes the least score among the paths of the slot at the first differing layer that avoid the excluded neighbours |
| `Forwarding.NextMisses` | packages/core/router/src/core/router.rs:94-102 | a lookup finds nothing exactly for the node itself and where all paths of the slot run over excluded neighbours |
| `Forwarding.ServiceNextAvoids` | packages/core/router/src/core/registry.rs:89-95 | a service lookup stays here exactly when the service is local; else it takes the least score among the allowed paths, and nothing exactly when there is none |
| `Forwarding.ClosestAvoids` | packages/core/router/src/core/router.rs:114-131 | a key lookup around excluded neighbours takes the nearest allowed slot of the highest layer with one nearer than the own index, and nothing exactly when no layer has one |
| `Settling.TwoNodesSettle` | packages/core/router/src/core/router.rs:463-486 | any two nodes linked to each other, at whatever cost, are synchronised and complete, so the results above apply to reached states |
| `ServiceRouting.ServiceTransfers` | packages/core/router/src/core/registry.rs:97-145 | what a node keeps of a service sync: for every service the sender tells it about what it tells, longer by the link, and nothing else |
| `ServiceRouting.ServiceRelayIsBetter` | packages/core/router/src/core/registry.rs:97-145 | in a settled network the neighbour of a stored service path offers the service or has a strictly better path |
| `ServiceRouting.ServiceForwardingIsLoopFree` | packages/core/router/src/core/registry.rs:89-95 | in every reachable state with settled registries, following service_next visits no node twice, and ends at a node offering the service exactly when the first one offers it or knows a path |
| `Columns.TwoPeriodsRaise` | packages/core/router/src/core/table.rs:121-177 | while the path lists of all nodes are settled and unchanged below a score, and no older offer is taken over, one period that uses every wire and one more until its stale offers are gone settle them one hop penalty higher, ties and their order included |
| `Columns.PeriodsRaise` | packages/core/router/src/core/table.rs:121-177 | every two periods settle the lists one hop penalty further, however the exchanges are ordered and delayed within them |
| `Columns.ColumnConverges` | packages/core/router/src/core/table.rs:121-177 | from any sound lists, after enough periods no exchange changes any list any more |
| `Convergence.ListAfterSync` | packages/core/router/src/core/table.rs:121-177 | applying a sync acts on every table slot and every service list as taking over the offer its sender had for it when the sync was built, and not at all where the sender is silent |
| `Convergence.SyncIsExchange` | packages/network/src/features/router_sync.rs:70-135 | receiving a sync, fresh or stale, is one exchange in the column of every index and every service |
| `Convergence.NetworkConverges` | packages/network/src/features/router_sync.rs:70-135 | for every reachable state there is a number of periods after which, in every run of sending and delivering syncs over fixed links with that many periods, all tables and registries are synchronised; syncs may be lost, duplicated, reordered and delayed into the next period, and in the first period any sync ever sent may arrive |
| `Convergence.PeriodsExist` | packages/network/src/features/router_sync.rs:70-135 | when every connection has one back, there are runs with any number of periods, so the theorem speaks of actual runs |
| `Convergence.NetworkDelivers` | packages/network/src/features/router_sync.rs:70-135 | from every reachable state in which any two nodes can meet inside the prefix they share, after enough periods forwarding from every node reaches every destination without a loop, key routing ends at the XOR-nearest node, and a message for a service visits no node twice and ends at a node offering it exactly when links lead to one |
| `Reachability.EveryRunIsDirect` | packages/core/router/src/core/router.rs:75-84 | in every run each node's link to a neighbour is stored in the neighbour's slot, a path over a neighbour with the index itself is that link, and no sync speaks of its sender's own index |
| `Reachability.ThroughIsFilled` | packages/core/router/src/core/table.rs:121-177 | in a settled network every node on a stored path that does not have the index itself has a filled slot for it |
| `Reachability.FilledIffReachable` | packages/core/router/src/core/table.rs:121-177 | a slot of a settled network is filled exactly when its index can be reached over links between nodes sharing the prefix |
| `Reachability.CompleteIffAllMeet` | packages/core/router/src/core/router.rs:94-102 | in every reachable synchronised state the tables are complete exactly when any two nodes can meet inside the prefix they share |
| `Reachability.OutsideLinksDoNotHelp` | packages/core/router/src/core/table.rs:161-165 | in every reachable synchronised state a node none of whose links stay inside its geo1 has no path to any other node of that geo1, however the two are linked through the outside |
| `Reachability.ThroughKnowsService` | packages/core/router/src/core/registry.rs:97-145 | in a settled network every node on a stored service path offers the service or has a path for it |
| `Reachability.KnowsServiceIff` | packages/core/router/src/core/registry.rs:89-145 | a node of a settled network offers a service or has a path for it exactly when links lead to a node that offers it |
| `TableObjects.Dest.SetPath` | packages/core/router/src/core/table/dest.rs:28-48 | in place: exactly the new list, and exactly the owed best-path delta behind the old ones |
| `TableObjects.Dest.DelPath` | packages/core/router/src/core/table/dest.rs:50-66 | in place: exactly the connection's path gone and returned, nothing returned exactly when there was none, a delta exactly when the best connection changed |
| `TableObjects.Dest.PopDelta` | packages/core/router/src/core/table/dest.rs:68-70 | takes the oldest delta, if any |
| `TableObjects.FindConn` | packages/core/router/src/core/table/dest.rs:104-115 | the position of the connection's path, or -1 |
| `TableObjects.FindNext` | packages/core/router/src/core/table/dest.rs:77-102 | on a sorted list the result is a least-score path over an allowed next hop |
| `TableObjects.FindBestFor` | packages/core/router/src/core/table/dest.rs:86-93 | the search loop finds the best path avoiding the neighbour |
| `TableObjects.Push` | packages/core/router/src/core/table.rs:70-79 | a new index joins the strictly ascending list of filled indices |
| `TableObjects.Drop` | packages/core/router/src/core/table.rs:81-95 | binary search and removal take exactly one index out of the strictly ascending list |
| `TableObjects.Table.AddDirect` | packages/core/router/src/core/table.rs:70-79 | the table becomes the specified one, deltas included, and the index list stays the strictly sorted set of filled indices |
| `TableObjects.Table.DelDirect` | packages/core/router/src/core/table.rs:81-95 | the loop over 256 indices removes the connection everywhere and owes exactly the changed best paths, in index order |
| `TableObjects.Table.ApplySync` | packages/core/router/src/core/table.rs:121-155 | the loop over 256 indices takes over a sync as specified, index list and deltas included |
| `TableObjects.Table.ClosestFor` | packages/core/router/src/core/table.rs:107-119 | minimising over the index list gives the same answer as minimising over all 256 indices |
| `TableObjects.Table.SyncFor` | packages/core/router/src/core/table.rs:161-177 | the loop over 256 indices builds exactly the specified advertisement |
| `TableObjects.Table.PollDeltaIndex` | packages/core/router/src/core/table.rs:199-203 | moves all deltas of one slot into the table's queue, tagged and in order |
| `TableObjects.Table.Next` | packages/core/router/src/core/table.rs:97-105 | the best allowed path of the destination's slot |
| `TableObjects.Table.PopDelta` | packages/core/router/src/core/table.rs:157-159 | takes the oldest delta, if any |
| `RegistryObjects.RegistryDest.SetPath` | packages/core/router/src/core/registry/dest.rs:34-49 | in place: exactly the new list, and a delta unless score and destination are unchanged |
| `RegistryObjects.RegistryDest.DelPath` | packages/core/router/src/core/registry/dest.rs:55-64 | in place: the path gone, a delta exactly when there was one |
| `RegistryObjects.Registry.AddService` | packages/core/router/src/core/registry.rs:65-68 | the service is local and announced |
| `RegistryObjects.Registry.DelDirect` | packages/core/router/src/core/registry.rs:76-87 | every service loses its path over the connection, announced in index order |
| `RegistryObjects.Registry.ApplySync` | packages/core/router/src/core/registry.rs:97-124 | every service takes or loses its path over the connection as the sync says, announced in index order |
| `RegistryObjects.Registry.Next` | packages/core/router/src/core/registry.rs:89-95 | local first, else the best allowed path |
| `RegistryObjects.Registry.SyncFor` | packages/core/router/src/core/registry.rs:130-145 | the loop over 256 services builds exactly the specified advertisement |
| `ShadowModel.HistoryIsOrderly` | packages/core/router/src/shadow/service.rs:37-50 | after every history of set_conn and del_conn the list is sorted by score with one entry per connection |
| `ShadowModel.ScopeIsPrefix` | packages/core/router/src/lib.rs:16-23 | the scopes of a broadcast are the layers of the ids: Geo1, Geo2 and Group mean agreement from layer 3, 2 and 1 up |
| `ShadowModel.BroadcastCoversOnce` | packages/core/router/src/shadow/service.rs:58-77 | for every such history the fan-out has exactly one connection per distinct destination in scope reachable by a next hop other than the sender, with the least score of those; none exactly when there is no such destination |
| `ShadowModel.FanoutStaysInScope` | packages/core/router/src/shadow/service.rs:58-77 | the same in terms of the ids: every connection picked leads to a destination sharing the prefix of the scope and not back to the sender, and every such destination is reached once, over one of no worse score |
| `ShadowObjects.ShadowTable.Set` | packages/core/router/src/shadow/table.rs:14-16 | one slot set, the others unchanged |
| `ShadowObjects.ShadowTable.Del` | packages/core/router/src/shadow/table.rs:18-20 | one slot cleared, the others unchanged |
| `ShadowObjects.ShadowTable.Next` | packages/core/router/src/shadow/table.rs:22-25 | the slot of the destination's byte at the table's layer |
| `ShadowObjects.ShadowTable.ClosestFor` | packages/core/router/src/shadow/table.rs:29-40 | the running minimum ends at a filled slot nearest to the key byte |
| `ShadowObjects.Service.SetConn` | packages/core/router/src/shadow/service.rs:37-46 | replace or push, then sort: the specified list |
| `ShadowObjects.Service.DelConn` | packages/core/router/src/shadow/service.rs:48-50 | the connection's entries removed, order kept |
| `ShadowObjects.Service.BestConn` | packages/core/router/src/shadow/service.rs:52-56 | the least-score connection |
| `ShadowObjects.Service.BroadcastDests` | packages/core/router/src/shadow/service.rs:58-77 | the loop with its growing set of covered destinations computes the specified fan-out |
| `ShadowModel.BroadcastActionCovers` | packages/core/router/src/shadow/mod.rs:128-140 | after every stream of deltas: a broadcast seen before is rejected, and so is one for a service that is neither local nor has any connection; with connections it is sent over a fan-out with one least-score connection per destination in scope, empty if none is in scope, and handled here exactly when the service is local |
| `ShadowRouterObject.ShadowRouter.ApplyDelta` | packages/core/router/src/shadow/mod.rs:51-72 | in place: exactly the value-level shadow after the delta, all tables, services and local flags |
| `ShadowRouterObject.ShadowRouter.Next` | packages/core/router/src/shadow/mod.rs:76-84 | the connection of the destination's slot at the first differing layer, none for the node itself |
| `ShadowRouterObject.ShadowRouter.ClosestFor` | packages/core/router/src/shadow/mod.rs:86-101 | the loop from the highest layer down answers as the value-level lookup |
| `ShadowRouterObject.ShadowRouter.PathToKey` | packages/core/router/src/shadow/mod.rs:103-108 | answers as the value-level shadow |
| `ShadowRouterObject.ShadowRouter.PathToNode` | packages/core/router/src/shadow/mod.rs:110-118 | answers as the value-level shadow |
| `ShadowRouterObject.ShadowRouter.PathToService` | packages/core/router/src/shadow/mod.rs:120-126 | answers as the value-level shadow |
| `ShadowRouterObject.ShadowRouter.PathToServices` | packages/core/router/src/shadow/mod.rs:128-140 | asks and updates the broadcast history, and answers as the value-level shadow under its answer |
| `Mirror.SlotUpdateShows` | packages/core/router/src/core/registry/dest.rs:34-64 | one service slot: replaying its deltas on the shadow list gives the new list as (conn, dest, score), in order, stable sort included |
| `Mirror.EveryRunIsMirrored` | packages/core/router/src/shadow/mod.rs:51-72 | for every interleaving of set_direct, del_direct, apply_sync, register_service and delta transfers, shadow plus queued deltas equals the head of every slot and every service list in order |
| `Mirror.DrainedShows` | packages/core/router/src/core/router.rs:154-164 | once no delta is queued the shadow tables and service lists equal the router's |
| `Mirror.DrainedDecisionsAgree` | packages/core/router/src/shadow/mod.rs:76-126 | a drained shadow and its router agree on next, closest_for, path_to_node, path_to_key and path_to_service with no exceptions |
| `Handshake.EveryRunKeepsInv` | packages/network/src/controller_plane/neighbours/connection.rs:149-417 | over every schedule of ticks, closes, deliveries, losses, duplicates and reorderings in which the side that gives way never fails to process a request while it still waits as an opener (any other request may fail): the prevailing side stays outgoing and answers no request; the other, once connected, is incoming under its session and ever sent one successful answer |
| `Handshake.BothConnectedAgree` | packages/network/src/controller_plane/neighbours/connection.rs:215-349 | in every such run, whenever both are connected: same session, one incoming and one outgoing, keys from one (request, response) pair, and the smaller session prevails |
| `Handshake.KeysHandedOutAgree` | packages/network/src/controller_plane/neighbours/connection.rs:217-349 | in every such run each side hands at most one key to its user, made from the prevailing request and a response sent under the prevailing session; two keys handed out are the same, and the opening side hands out only what the accepting side has handed out before |
| `Handshake.HandsOutOnConnecting` | packages/network/src/controller_plane/neighbours/connection.rs:217-349 | a connection hands out a key exactly when it becomes connected, and it is the key it then holds |
| `Handshake.AgreementIffSessionsDiffer` | packages/network/src/controller_plane/neighbours/connection.rs:241-283 | over the runs whose connect requests can all be processed, a pair agrees in every run exactly when the sessions of a simultaneous open differ |
| `Handshake.EqualSessionsDisagree` | packages/network/src/controller_plane/neighbours/connection.rs:241-283 | with equal sessions both give way and both end up incoming |
| `Handshake.FailedGivingWayDisagrees` | packages/network/src/controller_plane/neighbours/connection.rs:241-271 | whichever session is the larger, one request that fails to be processed while giving way leaves that side under the other's session, and a run follows in which both end up incoming |
| `Handshake.OneOpenerIsClean` | packages/network/src/controller_plane/neighbours/connection.rs:221-240 | when only one side opens, every run is free of that failure, failed requests and all |
| `Handshake.AgreementIffOneOpens` | packages/network/src/controller_plane/neighbours/connection.rs:215-349 | with no assumption on requests, a pair agrees in every run exactly when only one side opens |
| `Handshake.HandshakeCompletes` | packages/network/src/controller_plane/neighbours/connection.rs:217-349 | from every setup with one opener, or two openers with different sessions, two deliveries connect both sides in agreement, under the prevailing request and any given response |
| `KeepAlive.StaysConnected` | packages/network/src/controller_plane/neighbours/connection.rs:149-403 | a connection nobody closes stays connected under its key, whatever it is sent, and knows the time of its last pong and the number of its pings |
| `KeepAlive.SilenceIsNoticed` | packages/network/src/controller_plane/neighbours/connection.rs:179-193 | a tick reports the connection lost exactly when the last pong is 10 s old, and otherwise sends one ping numbered on |
| `KeepAlive.PingMeasures` | packages/network/src/controller_plane/neighbours/connection.rs:350-378 | a ping answered by the other side and heard again reports the time in between and renews the connection |
| `KeepAlive.ForeignPings` | packages/network/src/controller_plane/neighbours/connection.rs:350-378 | pings and pongs of another session, or to a side that is not connected, do nothing |
| `KeepAlive.OpenerWaits` | packages/network/src/controller_plane/neighbours/connection.rs:151-171 | an opener left alone repeats its request with every tick from 1 s on, and gives up once after 30 s |
| `KeepAlive.AccepterWaits` | packages/network/src/controller_plane/neighbours/connection.rs:172-178 | an accepter left alone waits silently and gives up once after 30 s |
| `KeepAlive.CloseEndsBoth` | packages/network/src/controller_plane/neighbours/connection.rs:379-403 | closing, its request and its response end both sides, each reporting it once |
| `KeepAlive.ClosingRepeats` | packages/network/src/controller_plane/neighbours/connection.rs:194-210 | while closing every tick repeats the request, up to 10 s after the last |
| `KeepAlive.RequestsAreAnswered` | packages/network/src/controller_plane/neighbours/connection.rs:217-316 | a connect request is answered at most once and under its session: with success exactly when it is addressed right and taken and processed, or repeats the one answered, then with the same response; with nothing exactly when this side opens with the smaller session; and which error otherwise |
| `KeepAlive.ResponsesAreTaken` | packages/network/src/controller_plane/neighbours/connection.rs:317-349 | a response changes something exactly for the waiting opener of its session when successful, which is then connected or failed |
| `ConnectionObject.NeighbourConnection.NewOutgoing` | packages/network/src/controller_plane/neighbours/connection.rs:90-103 | waits outgoing with its first request queued |
| `ConnectionObject.NeighbourConnection.NewIncoming` | packages/network/src/controller_plane/neighbours/connection.rs:105-116 | waits incoming with nothing queued |
| `ConnectionObject.NeighbourConnection.Disconnect` | packages/network/src/controller_plane/neighbours/connection.rs:130-147 | new state and queue are those of the value-level connection |
| `ConnectionObject.NeighbourConnection.OnTick` | packages/network/src/controller_plane/neighbours/connection.rs:149-213 | timeouts, resends and pings: new state and queue are those of the value-level connection |
| `ConnectionObject.NeighbourConnection.OnConnectRequest` | packages/network/src/controller_plane/neighbours/connection.rs:217-316 | every branch of a connect request, repeated ones included |
| `ConnectionObject.NeighbourConnection.OnInput` | packages/network/src/controller_plane/neighbours/connection.rs:215-403 | every command: new state and queue are those of the value-level connection |
| `ConnectionObject.NeighbourConnection.SwitchToIncoming` | packages/network/src/controller_plane/neighbours/connection.rs:413-417 | only the connection id changes, to incoming under the given session |
| `ConnectionObject.NeighbourConnection.PopOutput` | packages/network/src/controller_plane/neighbours/connection.rs:405-407 | takes the oldest output, if any |
| `Relay.EveryRunIsMirrored` | packages/network/src/features/pubsub/controller/remote_relay.rs:66-336 | for every run, relays recreated included, replaying the emitted controls gives the consumers' locals in the same order, the consumers' remotes each exactly once, nothing when there are no consumers, source = next whenever bound, and in every state exactly the source told from the relay's own history |
| `Relay.BoundRelayDelivers` | packages/network/src/features/pubsub/worker.rs:59-77 | through a bound relay a packet from the bound hop reaches each current consumer exactly once and nobody else; from any other hop nobody |
| `Relay.DeliversIffHeard` | packages/network/src/features/pubsub/worker.rs:59-77 | in every run and every state a packet reaches each current consumer exactly once if it comes from the hop that is heard, and nobody otherwise; the hop heard is a function of the relay's history: the bound one, nobody once a bound relay starts to leave or its last consumer is removed, else unchanged, across loss, unbinding and recreation |
| `Relay.NewRelayHearsOldHop` | packages/network/src/features/pubsub/controller/remote_relay.rs:310-317 | a relay binding without consumers that is bound, loses its hop and ends leaves the hop behind: the relay that replaces it, never bound itself, delivers from it |
| `Relay.BindingWithoutConsumers` | packages/network/src/features/pubsub/controller/remote_relay.rs:303-317 | such a relay is reached by an unsubscription that arrives while the relay is leaving |
| `Relay.LostHopStillDelivers` | packages/network/src/features/pubsub/controller/remote_relay.rs:113-140 | a bound relay that loses its hop does not tell the worker: through any further steps, as long as it has consumers and no hop is bound, the lost hop still reaches every consumer and other hops nobody |
| `RelayHistory.LocalsIff` | packages/network/src/features/pubsub/controller/consumers.rs:44-62 | in every run an actor is a local consumer exactly when its last Subscribe or Unsubscribe is a Subscribe |
| `RelayHistory.RemotesIff` | packages/network/src/features/pubsub/controller/consumers.rs:30-103 | in every run a remote is a consumer, under its uuid and the time of its last Sub, exactly when a Sub of it that was not refused for another uuid is followed by no Unsub under that uuid, no loss of its connection and no tick 10 s later |
| `RelayHistory.DeliversToSubscribers` | packages/network/src/features/pubsub/worker.rs:59-77 | in every run a packet from the hop that is heard reaches each actor that last subscribed and each remote whose Sub stands exactly once, and nobody else; from any other hop it reaches nobody |
| `RelayHistory.AtWorkIff` | packages/network/src/features/pubsub/controller/remote_relay.rs:66-336 | a relay is at work from its first consumer on until a call that reviews the consumers finds none left |
| `RelayHistory.BoundIff` | packages/network/src/features/pubsub/controller/remote_relay.rs:223-265 | in every run a relay is bound exactly to the sender of the last confirmation it got while at work, unless that hop was lost or the relay given up since |
| `RelayHistory.StickySince` | packages/network/src/features/pubsub/controller/remote_relay.rs:225-265 | the sticky time counts from the binding or the last own confirmation of the hop; a hop that takes over inherits it |
| `RelayHistory.GoesIff` | packages/network/src/features/pubsub/controller/remote_relay.rs:66-111 | a bound relay given up leaves its hop until the hop confirms or 10 s are over, any other is over at once and stays so until replaced or needed |
| `RelayHistory.StepSaysExactly` | packages/network/src/features/pubsub/controller/remote_relay.rs:66-336 | in every run every step says exactly once what it has to and nothing else: whom it asks for the source and via which hop, whom it confirms a Sub or Unsub, which hop it takes leave of, and who hears of a changed route |
| `RelayObjects.RelayConsumers.OnTick` | packages/network/src/features/pubsub/controller/consumers.rs:30-42 | forgets exactly the expired remotes, one control each, in the order the map yields them |
| `RelayObjects.RelayConsumers.OnLocalSub` | packages/network/src/features/pubsub/controller/consumers.rs:44-52 | joins once |
| `RelayObjects.RelayConsumers.OnLocalUnsub` | packages/network/src/features/pubsub/controller/consumers.rs:54-62 | leaves by swap removal, announced |
| `RelayObjects.RelayConsumers.OnRemote` | packages/network/src/features/pubsub/controller/consumers.rs:64-97 | Sub and Unsub under matching and foreign session ids |
| `RelayObjects.RelayConsumers.ConnDisconnected` | packages/network/src/features/pubsub/controller/consumers.rs:99-103 | forgets the remote, announced if it was there |
| `RelayObjects.RemoteRelay.OnTick` | packages/network/src/features/pubsub/controller/remote_relay.rs:67-111 | state and queue of the value-level relay, drained consumers included |
| `RelayObjects.RemoteRelay.ConnDisconnected` | packages/network/src/features/pubsub/controller/remote_relay.rs:113-140 | state and queue of the value-level relay |
| `RelayObjects.RemoteRelay.OnLocalSub` | packages/network/src/features/pubsub/controller/remote_relay.rs:152-178 | state and queue of the value-level relay, from every state |
| `RelayObjects.RemoteRelay.OnLocalUnsub` | packages/network/src/features/pubsub/controller/remote_relay.rs:196-221 | state and queue of the value-level relay, from every state |
| `RelayObjects.RemoteRelay.OnRemote` | packages/network/src/features/pubsub/controller/remote_relay.rs:223-336 | state and queue of the value-level relay, every control but feedback |
| `RelayObjects.RemoteRelay.PopConsumersOut` | packages/network/src/features/pubsub/controller/remote_relay.rs:53-57 | moves all queued controls over, in order |
| `RelayObjects.PubSubWorker.OnControl` | packages/network/src/features/pubsub/worker.rs:126-197 | changes the entry of one relay as specified and no other |
| `RelayObjects.PubSubWorker.OnData` | packages/network/src/features/pubsub/worker.rs:59-77 | one event per local in order, then one broadcast to the remotes if there are any, and nothing for a foreign hop |
| `DhtRuns.EverythingHeldWasIssued` | packages/network/src/features/dht_kv/client/map.rs:51-194 | over many clients and relays and a network that loses, duplicates, reorders and misroutes between sessions of a node: every (key, source, version, data) in a relay slot, a waiting event, a client slot or a message was issued by a Set at that source |
| `DhtRuns.IssuedMeansSet` | packages/network/src/features/dht_kv/client/map.rs:286-296 | the record of issued values holds nothing but the Sets of the run |
| `DhtRuns.SameVersionSameData` | packages/network/src/features/dht_kv/client/map.rs:51-79 | if a source never sets a key twice under one time, equal (key, source, version) means equal data everywhere |
| `DhtRuns.VersionsNeverDecrease` | packages/network/src/features/dht_kv/server/map.rs:18-39 | in every run and every step, an occupied slot that stays occupied does not go down in version, at relays and at clients |
| `DhtRuns.AcknowledgedMeansAccepted` | packages/network/src/features/dht_kv/client/map.rs:126-156 | in every run a local slot believed synced was accepted by some relay with exactly its version and content, set or deleted, whatever stale acknowledgements arrive, if no node sets a key twice under one time |
| `DhtRuns.AcceptedIsStored` | packages/network/src/features/dht_kv/server/map.rs:142-166 | accepting means the relay then holds that value and version, or held that version and now holds nothing |
| `DhtRuns.SameTimeSetsBreakAcks` | packages/network/src/features/dht_kv/client/map.rs:126-140 | for any two different Sets of a key at one node under one time, by one session or by two, there is a run of just these Sets in which the second is believed synced though no relay ever accepted it |
| `DhtRuns.AcksSoundIffDistinct` | packages/network/src/features/dht_kv/client/map.rs:126-156 | for any set of Sets: acknowledgements are sound in every run that issues only these exactly when no node sets a key twice under one time among them |
| `DhtRuns.EveryRunKeepsInv` | packages/network/src/features/dht_kv/server/map.rs:142-297 | every step of every client and relay keeps values, messages, acknowledgements and acceptances sound |
| `DhtClient.SyncSlotsFacts` | packages/network/src/features/dht_kv/client/map.rs:102-124 | resending changes nothing but the time of the last sync, and sends each slot's own version and content |
| `DhtServer.ResendFacts` | packages/network/src/features/dht_kv/server/map.rs:107-127 | resending repeats waiting events only and forgets none |
| `DhtServer.FireSubEventsFacts` | packages/network/src/features/dht_kv/server/map.rs:272-297 | a new subscriber is told held values only; every waiting event stays under its slot as it is, and new ones are values held |
| `DhtServer.AcceptedIsPublished` | packages/network/src/features/dht_kv/server/map.rs:142-166 | an accepted Set is then held and an accepted Del then gone, and the change goes to every subscriber but its source exactly once; a refused one changes and sends nothing |
| `DhtServer.SubscriberIsTold` | packages/network/src/features/dht_kv/server/map.rs:272-297 | a new subscriber is told every value held for another source exactly once |
| `DhtRelay.SlotHoldsWinner` | packages/network/src/features/dht_kv/server/map.rs:17-53 | after any commands a relay holds for a slot the Set of the highest version that no later Del of the same or a higher version took back, the latest of these, and nothing exactly when there is none |
| `DhtRelay.PutIsAnsweredIff` | packages/network/src/features/dht_kv/server/map.rs:142-166 | after any commands a Set is answered SetOk exactly when no surviving Set has a higher version, a Del exactly when one survives and none has a higher version, then with the version taken back |
| `DhtRelay.SubscribesIff` | packages/network/src/features/dht_kv/server/map.rs:95-105 | after any commands a node subscribes exactly when its last Sub was neither ended by an Unsub under its id nor followed by a tick 10 s later |
| `DhtRelay.SubsAreAnswered` | packages/network/src/features/dht_kv/server/map.rs:167-187 | a Sub is always answered under its id, an Unsub exactly when it ends a subscription |
| `DhtRelay.PutIsPublished` | packages/network/src/features/dht_kv/server/map.rs:248-269 | an answered put is told as it is to every subscriber but its source once, nothing else is told, and exactly those told are waited for; an unanswered one changes nothing |
| `DhtRelay.SubIsServed` | packages/network/src/features/dht_kv/server/map.rs:272-297 | a new subscriber, or one another relay served last, is told every value of another source once and waited for; one already served is told nothing |
| `DhtRelay.AckEndsWait` | packages/network/src/features/dht_kv/server/map.rs:188-229 | an acknowledgement of the waiting event by kind and version ends the wait for its sender, and the event with the last; any other changes nothing |
| `DhtRelay.TickResends` | packages/network/src/features/dht_kv/server/map.rs:95-127 | a tick repeats every event unsent for 200 ms to everybody waited for, and forgets events and subscribers 10 s old |
| `DhtRuns.RelayHoldsWinner` | packages/network/src/features/dht_kv/server/map.rs:17-53 | so does every relay in every run of the network |
| `DhtLearning.OwnKeyIsLastGiven` | packages/network/src/features/dht_kv/client/map.rs:51-124 | a client's own key holds what it was last given, under the time it was last set, whatever else happens |
| `DhtLearning.SlotShowsWinner` | packages/network/src/features/dht_kv/client/map.rs:158-195 | after any calls a client holds for a slot of another source the OnSet of the highest version that no later OnDel took back among the events of the relay it listened to, the first of these, and nothing exactly when there is none |
| `DhtLearning.EventIsAcknowledgedIff` | packages/network/src/features/dht_kv/client/map.rs:158-195 | an OnSet is acknowledged exactly when it comes from the relay listened to and no survivor has a higher version, an OnDel exactly when something survives and nothing with a higher version |
| `DhtLearning.SubscribersIff` | packages/network/src/features/dht_kv/client/map.rs:308-368 | an actor subscribes exactly when its last Subscribe or Unsubscribe is a Subscribe |
| `DhtLearning.SubscriptionIsTold` | packages/network/src/features/dht_kv/client/map.rs:308-426 | nothing is subscribed without subscribers, the first one opens a subscription under the time it came, and the relay that last confirmed it under that id is the one listened to |
| `DhtLearning.TickAsks` | packages/network/src/features/dht_kv/client/map.rs:239-266 | what is sent for the subscription on a tick: at most one Sub or Unsub, after 200 ms while asking or leaving, after 1500 ms while listening |
| `DhtLearning.LeavingEnds` | packages/network/src/features/dht_kv/client/map.rs:330-368 | the last subscriber that goes sends the Unsub under the id of the subscription and remembers the relay listened to |
| `DhtLearning.UnsubOkEnds` | packages/network/src/features/dht_kv/client/map.rs:427-446 | leaving ends exactly with a confirmation under its id by the relay listened to, or by anybody if there was none |
| `DhtLearning.SyncsAreDue` | packages/network/src/features/dht_kv/client/map.rs:102-124 | visiting the slots sends for every due one once its own version and content, and nothing else |
| `DhtLearning.TickSends` | packages/network/src/features/dht_kv/client/map.rs:239-282 | a tick sends what the subscription and the due slots need, and forgets exactly the slots without a value that nothing is owed for |
| `DhtLearning.NewRelayIsTold` | packages/network/src/features/dht_kv/client/map.rs:386-426 | a relay of another node that takes over is sent every own slot at once, and the subscribers are told which relay it is |
| `DhtLearning.ConfirmedIff` | packages/network/src/features/dht_kv/client/map.rs:126-156 | an own key is confirmed exactly by the answer to its current version and kind of content |
| `DhtRuns.ClientShowsWinner` | packages/network/src/features/dht_kv/client/map.rs:158-195 | so does every client in every run of the network |
| `DhtRuns.EqualVersionsPart` | packages/network/src/features/dht_kv/client/map.rs:158-180 | two Sets under one version end differently: the relay keeps the later one, a client that learns both the earlier |
| `DhtView.SubscriptionFollowsSubscribers` | packages/network/src/features/dht_kv/client/map.rs:239-473 | in every run there are subscribers exactly while the map is subscribing or subscribed |
| `DhtView.LastUnsubscribeIsPossible` | packages/network/src/features/dht_kv/client/map.rs:331-365 | the panic on unsubscribing the last actor is unreachable |
| `DhtView.SubscriberSeesSlots` | packages/network/src/features/dht_kv/client/map.rs:284-517 | in every run the events sent to a subscriber fold to exactly the slots' data, minus slots of other sources it was not told about when it was the first to subscribe and that have not changed since |
| `DhtView.OwnKeysAreShown` | packages/network/src/features/dht_kv/client/map.rs:284-329 | keys of the own session are shown exactly, in every run |
| `DhtView.EverythingShownUnlessLeft` | packages/network/src/features/dht_kv/client/map.rs:239-517 | while the subscriber list never became empty again, every subscriber sees all data of all sources |
| `DhtView.FirstSubscriberSeesAllIff` | packages/network/src/features/dht_kv/client/map.rs:308-330 | a first subscriber sees everything exactly when no other source has data in the map |
| `DhtView.LeavingKeepsForeign` | packages/network/src/features/dht_kv/client/map.rs:331-368 | the other case is reached: a slot learned from another source stays in the map after the only subscriber left |
| `DhtObjects.LocalMap.OnTick` | packages/network/src/features/dht_kv/client/map.rs:239-282 | subscription timers, resends and cleanup: state and queue of the value-level map |
| `DhtObjects.LocalMap.OnControl` | packages/network/src/features/dht_kv/client/map.rs:284-368 | state, returned command and queue of the value-level map |
| `DhtObjects.LocalMap.OnServer` | packages/network/src/features/dht_kv/client/map.rs:372-473 | state, returned command and queue of the value-level map |
| `DhtObjects.LocalMap.FireEvent` | packages/network/src/features/dht_kv/client/map.rs:499-504 | one event per subscriber, in order |
| `DhtObjects.LocalMap.RestoreEvents` | packages/network/src/features/dht_kv/client/map.rs:506-517 | the current data, own slots only if asked, once each |
| `DhtObjects.LocalMap.SyncSlots` | packages/network/src/features/dht_kv/client/map.rs:519-526 | every slot visited once, due ones resent |
| `DhtObjects.LocalMap.Cleanup` | packages/network/src/features/dht_kv/client/map.rs:268-281 | exactly the empty slots are forgotten |
| `DhtObjects.RemoteMap.OnTick` | packages/network/src/features/dht_kv/server/map.rs:95-127 | silent subscribers and old events dropped, due events resent: state and queue of the value-level map |
| `DhtObjects.RemoteMap.OnClient` | packages/network/src/features/dht_kv/server/map.rs:142-229 | state, returned event and queue of the value-level map |
| `DhtObjects.RemoteMap.FireEvent` | packages/network/src/features/dht_kv/server/map.rs:248-269 | every subscriber but the source is told and waited for |
| `DhtObjects.RemoteMap.FireSubEvents` | packages/network/src/features/dht_kv/server/map.rs:272-297 | a new subscriber is told every value it does not own and joins the waiting lists |
| `SourceHint.EveryRunShows` | packages/network/src/features/pubsub/controller/source_hint.rs:71-348 | in every run, folding SubscribeSource and UnsubscribeSource gives each local subscriber exactly the sources and everybody else none, no pair is subscribed or unsubscribed twice in a row, and the last upstream Subscribe or Unsubscribe is Subscribe exactly when there is a subscriber |
| `SourceHint.TickShows` | packages/network/src/features/pubsub/controller/source_hint.rs:79-122 | ticks keep it, with timeouts of subscribers and sources |
| `SourceHint.LocalShows` | packages/network/src/features/pubsub/controller/source_hint.rs:124-208 | local registrations and subscriptions keep it |
| `SourceHint.RemoteShows` | packages/network/src/features/pubsub/controller/source_hint.rs:210-348 | hints of other nodes keep it, snapshots included |
| `SourceHint.LastWordIff` | packages/network/src/features/pubsub/controller/source_hint.rs:79-208 | in every run the last word upstream about the own node is Register exactly while there is a local source, unless the last change of that went untold: it happened while a remote source was known, and no tick with a local source followed |
| `SourceHint.StaysRegistered` | packages/network/src/features/pubsub/controller/source_hint.rs:147-165 | when the last local source goes while a remote one is known, Register stays the last word through every continuation without a local source |
| `SourceHint.StaysRegisteredIsReached` | packages/network/src/features/pubsub/controller/source_hint.rs:124-146 | such a node is reached by registering a source and then hearing of another |
| `SourceHint.TickWord` | packages/network/src/features/pubsub/controller/source_hint.rs:109-116 | after a tick the last word about the own node is Register if there is a local source, and as before otherwise, whatever expired |
| `Renewal.SinceIff` | packages/network/src/features/pubsub/controller/source_hint.rs:79-107 | what stands since a time is exactly what was last renewed then and neither ended nor outlived by a tick 10 s later |
| `HintTree.LocalListsIff` | packages/network/src/features/pubsub/controller/source_hint.rs:124-208 | in every run an actor is a local source, or a local subscriber, exactly when that was its last word |
| `HintTree.NextHopIsParent` | packages/network/src/features/pubsub/controller/source_hint.rs:307-330 | in every run the next hop is the sender of the last SubscribeOk under the own session, unless an UnsubscribeOk came since |
| `HintTree.SubscribersIff` | packages/network/src/features/pubsub/controller/source_hint.rs:283-325 | in every run a remote subscribes exactly when its last Subscribe was neither taken back nor ran out |
| `HintTree.SourcesIff` | packages/network/src/features/pubsub/controller/source_hint.rs:210-348 | in every run another node is a known source exactly when its last trusted Register, or the last snapshot listing it, was neither taken back nor ran out |
| `HintTree.SubscriberKnowsSources` | packages/network/src/features/pubsub/controller/source_hint.rs:210-348 | in every run folding the Register, Unregister and Sources hints sent to a remote subscriber since it entered gives exactly the sources of the node, save where it is mistaken, which the history decides |
| `HintTree.UntoldChanges` | packages/network/src/features/pubsub/controller/source_hint.rs:94-107 | a subscriber is not told of a change exactly when it reported it itself or the source ran out on a tick |
| `HintTree.StepSaysExactly` | packages/network/src/features/pubsub/controller/source_hint.rs:79-348 | in every run every step tells every remote and says upstream what it has to exactly once and nothing else: a trusted hint goes, kind and source kept, to every subscriber but its sender, and upstream exactly when it is on its way to the root |
| `SourceHintObject.SourceHintLogic.Sources` | packages/network/src/features/pubsub/controller/source_hint.rs:71-77 | every known source once |
| `SourceHintObject.SourceHintLogic.OnTick` | packages/network/src/features/pubsub/controller/source_hint.rs:79-122 | state and queue of the value-level logic |
| `SourceHintObject.SourceHintLogic.OnLocal` | packages/network/src/features/pubsub/controller/source_hint.rs:124-208 | state and queue of the value-level logic |
| `SourceHintObject.SourceHintLogic.OnRemote` | packages/network/src/features/pubsub/controller/source_hint.rs:210-348 | state and queue of the value-level logic |
| `Alias.EveryQueryAnsweredOnce` | packages/network/src/features/alias.rs:89-253 | in every run, per actor and alias: queries asked = results given + occurrences waiting |
| `Alias.QueriesEndInTime` | packages/network/src/features/alias.rs:222-253 | from any starting time, with ticks at most d apart, no query stays open for HINT_TIMEOUT_MS + SCAN_TIMEOUT_MS + 2d after it was opened |
| `Alias.QueriesAreOnSchedule` | packages/network/src/features/alias.rs:97-135 | a check is younger than its timeout at the last tick; a scan began within HINT_TIMEOUT_MS + d of the query and is younger than its timeout |
| `Alias.TickState` | packages/network/src/features/alias.rs:222-253 | a query survives a tick unchanged and young enough, or as a scan starting now |
| `Alias.AnswersAreGrounded` | packages/network/src/features/alias.rs:89-207 | every answer is justified: a local alias, a hint at most HINT_TIMEOUT_MS old, a claim just received from the node named while its kind of query was open, or, for an answer without a location, a tick at which the scan for that alias has timed out |
| `Alias.HintsWereClaimed` | packages/network/src/features/alias.rs:143-163 | in every run each cached hint was claimed by its node at the time it carries |
| `AliasHistory.LocalsIff` | packages/network/src/features/alias.rs:89-141 | in every run exactly the aliases whose last Register or Unregister is a Register are local |
| `AliasHistory.HintIsLastClaim` | packages/network/src/features/alias.rs:143-163 | in every run the hint for an alias is the last claim, and there is one exactly when somebody claimed it |
| `AliasHistory.FoundIff` | packages/network/src/features/alias.rs:154-166 | in every run a Scan is answered Found, once and to the node that asked, exactly when the alias is registered here, and a Check with whether it is; nobody else is told |
| `AliasHistory.QueryIsAnsweredIff` | packages/network/src/features/alias.rs:97-135 | in every run a query is answered at once exactly when the alias is registered here or, with none open, last claimed at most 2 s ago; else it waits, and opens a check of the last claimant or a scan if it is the first |
| `AliasHistory.ClaimSettlesIff` | packages/network/src/features/alias.rs:143-207 | an open query ends on a message exactly by a Notify, a Found by the node checked, or any Found while scanning, and all waiting are told |
| `AliasHistory.ChecksIff` | packages/network/src/features/alias.rs:97-135 | a node is checked exactly when an old hint names it and a query goes out |
| `AliasHistory.BroadcastsIff` | packages/network/src/features/alias.rs:89-218 | a scan or notice goes to a service exactly when one is due, once, at its level and under the running number, which counts on |
| `AliasHistory.TickScans` | packages/network/src/features/alias.rs:222-253 | a tick sends one scan for every check that took 2 s, and no other |
| `AliasHistory.TickGivesUpIff` | packages/network/src/features/alias.rs:222-253 | a tick gives a query up exactly when its scan is 5 s old, and then tells everybody waiting that nothing was found |
| `AliasObject.AliasFeature.ProcessControl` | packages/network/src/features/alias.rs:89-141 | state and queue of the value-level feature |
| `AliasObject.AliasFeature.ProcessRemote` | packages/network/src/features/alias.rs:143-207 | state and queue of the value-level feature |
| `AliasObject.AliasFeature.OnTick` | packages/network/src/features/alias.rs:222-253 | the loop over open queries and the loop over timeouts: state and queue of the value-level feature |
| `AliasObject.AliasFeature.GenSeq` | packages/network/src/features/alias.rs:214-218 | scan numbers count up and wrap at 16 bits |
| `History.HistoryIsSlidingWindow` | packages/runner/src/history.rs:21-53 | over every call trace with monotone time the answers are those of the unbounded log: true exactly when the key is among the last 10000 accepted and not expired; the queue stays unique, sorted by time, exactly indexed and bounded |
| `History.StepRefines` | packages/runner/src/history.rs:22-53 | each call keeps the queue equal to the live end of the log |
| `History.DataWorkerHistory.AlreadyReceivedBroadcast` | packages/runner/src/history.rs:22-37 | answer and new state of the value-level history |
| `History.DataWorkerHistory.SetTs` | packages/runner/src/history.rs:39-52 | the eviction loop drops exactly the expired front entries and their keys |
| `Header.RoundTrip` | packages/network/src/base/msg.rs:165-233 | any version-0 header encoded in front of any payload decodes to itself and consumes exactly serialize_size bytes |
| `Header.EncodeLayout` | packages/network/src/base/msg.rs:165-222 | where each field goes, and that everything behind the header is kept |
| `Header.WireFormat` | packages/network/src/base/msg.rs:165-222 | the bytes on the wire as numbers: the packed first byte with the code of every route, ids as big-endian 32-bit numbers, service, level code and sequence number of a broadcast, the sender, and the size |
| `Header.DecodeFailsWith` | packages/network/src/base/msg.rs:440-505 | which error an input fails with, and in which order they are found |
| `Header.DecodeIgnoresPayload` | packages/network/src/base/msg.rs:438-517 | decoding depends on the consumed bytes only, and consumes the size of what it found |
| `Header.DecodeSucceedsIff` | packages/network/src/base/msg.rs:440-505 | exactly which inputs decode: version bits 0, a known route type, and enough bytes for it and the sender |
| `Header.ReencodeIff` | packages/network/src/base/msg.rs:165-222 | encoding what was decoded into the same bytes changes nothing exactly when a broadcast level byte is at most 3 |
| `Header.DecreaseTtlOnlyTtl` | packages/network/src/base/msg.rs:264-273 | lowering the time to live changes that field of the decoded header and nothing else, keeps errors, and is refused at 0 |
| `Header.ControlMarkerIsApart` | packages/network/src/base/control.rs:61-67 | no encoded header of any version starts with 255, and nothing starting with 255 decodes as a header |
| `Header.SecureBits` | packages/network/src/base/msg.rs:90-92 | the header's test finds the encryption flag; the message type's test of bit 2 (lines 301-303) instead holds exactly of messages routed to a key |
| `Header.ToBytes` | packages/network/src/base/msg.rs:165-233 | written in place: the specified bytes, the size returned, and an untouched buffer when it is too small |
| `Header.TryFrom` | packages/network/src/base/msg.rs:438-517 | decoding with a cursor gives the specified result, errors included |
| `Header.RewriteTtl` | packages/network/src/base/msg.rs:246-252 | the second byte only, or nothing on a short buffer |
| `Header.DecreaseTtlInPlace` | packages/network/src/base/msg.rs:264-273 | in place: the specified bytes and result |

## Left out

- `Router` as one object: its tables and its registry are classes, but their composition is modelled on values, so aliasing between the four tables is not captured.
- MapSlot of the DHT client and server: the slot operations are functions on values inside the map classes.
- Header.SecureBits: bit operations on bytes are modelled by division and remainder, since the packed fields occupy disjoint bits.
- DhtView.SubscriberSeesSlots: the view is keyed by node and session; the program's events name the node only, so two sessions of one node share an entry there.
- Relay.EveryRunIsMirrored: the worker's map of subscriber session ids is not modelled; it is not cleaned on RouteDelRemote.
- History.HistoryIsSlidingWindow: calls are taken one at a time; the two locks and the atomic clock are not modelled.
- Deltas that the router-sync feature drops for connections already gone: the shadow theorem is stated between router and shadow router.
- A bound on forwarding by time to live: the unicast branch logs the drop and still sends.
- Convergence.PeriodsExist: only the one direction, since an old sync that happens to equal the current one can be delivered without a connection back.
- Liveness of disconnecting (its timer restarts every tick) and of DHT deletion (a Del for a missing slot gets no reply).
- The equality of waiting events with slots at a DHT relay, which does not hold without subscribers; MapGet and its timeout.
- `Registry::remove_service`, which nothing calls.
- Relays of a local source and feedback aggregation: they add only easy members.
- The neighbours manager recreating connections, real cryptography, bincode and addresses, which are foreign libraries here.
- Task switching, controller and data plane dispatch, feature and service managers, workers, sockets and threads.
- VPN, data, socket and neighbours features, visualization and manual discovery, binaries, dumps and logging.
