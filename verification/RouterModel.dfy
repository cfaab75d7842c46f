/** The router as a value: four layered tables of path lists, the service registry,
    the sync messages it builds and applies, and its forwarding decisions. */
module RouterModel {
  import opened Identity
  import opened Paths

  const REGISTRY_LOCAL_BW: nat := 1000000

  /** One path list for each of the 256 indices of a table. */
  type Dests = d: seq<seq<Path>> | |d| == 256 witness seq(256, i => [])

  const NO_DESTS: Dests := seq(256, i => [])

  datatype TableDelta = TableDelta(index: Byte, delta: DestDelta)
  datatype TableState = TableState(dests: Dests, deltas: seq<TableDelta>)

  datatype RegistryDestDelta = SetServicePath(conn: ConnId, dest: NodeId, score: nat) | DelServicePath(conn: ConnId)
  datatype RegistryDelta = ServiceRemote(service: Byte, delta: RegistryDestDelta) | SetServiceLocal(service: Byte) | DelServiceLocal(service: Byte)
  datatype RegistryState = RegistryState(locals: set<Byte>, remotes: Dests, deltas: seq<RegistryDelta>)

  datatype RouterState = RouterState(node: NodeId, tables: seq<TableState>, registry: RegistryState) {
    predicate FourTables() {
      |tables| == 4
    }
  }

  type Router = r: RouterState | r.FourTables()
    witness RouterState(NodeId(0, 0, 0, 0), seq(4, i => TableState(NO_DESTS, [])), RegistryState({}, NO_DESTS, []))

  type Entries = seq<(Byte, Metric)>
  datatype RouterSync = RouterSync(services: Entries, tables: seq<Option<Entries>>)

  function NewRouter(node: NodeId): Router {
    RouterState(node, seq(4, i => TableState(NO_DESTS, [])), RegistryState({}, NO_DESTS, []))
  }

  // ---- tables -------------------------------------------------------------------------------

  function Tagged(index: Byte, deltas: seq<DestDelta>): seq<TableDelta> {
    seq(|deltas|, k requires 0 <= k < |deltas| => TableDelta(index, deltas[k]))
  }

  /** Deltas owed for a change of the first `n` slots, in index order. */
  function Owed(before: Dests, after: Dests, n: nat): seq<TableDelta>
    requires n <= 256
  {
    if n == 0 then [] else Owed(before, after, n - 1) + Tagged(n - 1, BestDelta(before[n - 1], after[n - 1]))
  }

  /** The table after its slots became `after`: whatever changed is owed to the delta queue. */
  function Become(t: TableState, after: Dests): TableState {
    TableState(after, t.deltas + Owed(t.dests, after, 256))
  }

  function AddDirect(t: TableState, layer: LayerNo, conn: ConnId, metric: Route): TableState {
    var index := Layer(OverNode(metric), layer);
    Become(t, t.dests[index := SetPath(t.dests[index], conn, metric)])
  }

  function WithoutConn(dests: Dests, conn: ConnId): Dests {
    seq(256, i requires 0 <= i < 256 => DelPath(dests[i], conn))
  }

  function DelDirect(t: TableState, conn: ConnId): TableState {
    Become(t, WithoutConn(t.dests, conn))
  }

  /** The received entries extended by the link they came over; a later entry for an index wins. */
  function Cached(entries: Entries, link: Route): map<Byte, Route> {
    if entries == [] then map[]
    else
      var last := entries[|entries| - 1];
      Cached(entries[..|entries| - 1], link)[last.0 := Add(last.1, link)]
  }

  /** One slot under a sync from the neighbour at the end of `link`. */
  function SyncedSlot(paths: seq<Path>, i: Byte, node: NodeId, layer: LayerNo, conn: ConnId, link: Route, cached: map<Byte, Route>): seq<Path> {
    if i == Layer(node, layer) then paths
    else if i in cached then SetPath(paths, conn, cached[i])
    else if Layer(OverNode(link), layer) != i then DelPath(paths, conn)
    else paths
  }

  function SyncedDests(dests: Dests, node: NodeId, layer: LayerNo, conn: ConnId, link: Route, entries: Entries): Dests {
    var cached := Cached(entries, link);
    seq(256, i requires 0 <= i < 256 => SyncedSlot(dests[i], i, node, layer, conn, link, cached))
  }

  function TableSync(t: TableState, node: NodeId, layer: LayerNo, conn: ConnId, link: Route, entries: Entries): TableState {
    Become(t, SyncedDests(t.dests, node, layer, conn, link, entries))
  }

  /** The best paths for `to` among the first `n` slots, without the node's own index. */
  function Advertised(dests: Dests, own: Byte, to: NodeId, n: nat): Entries
    requires n <= 256
  {
    if n == 0 then []
    else
      var rest := Advertised(dests, own, to, n - 1);
      var best := BestFor(dests[n - 1], to);
      if n - 1 != own && best.Some? then rest + [(n - 1, best.value.metric)] else rest
  }

  function TableSyncFor(dests: Dests, node: NodeId, layer: LayerNo, to: NodeId): Option<Entries> {
    if EqUtilLayer(node, to) > layer + 1 then None
    else Some(Advertised(dests, Layer(node, layer), to, 256))
  }

  // ---- registry -----------------------------------------------------------------------------

  /** What happens to one service slot: nothing owed, a path set, or a path removed. */
  function ServiceSlotDeltas(paths: seq<Path>, conn: ConnId, update: Option<Route>): seq<RegistryDestDelta> {
    var i := IndexOf(paths, conn);
    match update
    case None => if i >= 0 then [DelServicePath(conn)] else []
    case Some(m) =>
      if i >= 0 && Score(paths[i].metric) == Score(m) && DestNode(paths[i].metric) == DestNode(m) then []
      else [SetServicePath(conn, DestNode(m), Score(m))]
  }

  /** A service change is announced exactly when something changes for the shadow: a path set is, unless the connection already had
      one of that score and destination; a path removed is exactly when there was one. */
  lemma ServiceDeltasIff(paths: seq<Path>, conn: ConnId, update: Option<Route>)
    requires WellFormed(paths)
    ensures var deltas := ServiceSlotDeltas(paths, conn, update);
      && |deltas| <= 1
      && (deltas == [] <==> match update
            case None => !Has(paths, conn)
            case Some(m) => exists p :: p in paths && p.conn == conn && Score(p.metric) == Score(m) && DestNode(p.metric) == DestNode(m))
      && (deltas != [] ==> deltas[0] == match update case None => DelServicePath(conn) case Some(m) => SetServicePath(conn, DestNode(m), Score(m)))
  {
    HasIff(paths, conn);
    var i := IndexOf(paths, conn);
    if i >= 0 {
      assert paths[i] in paths;
      forall p | p in paths && p.conn == conn ensures p == paths[i] { OnePath(paths, p, paths[i]); }
    }
  }

  function ServiceSlot(paths: seq<Path>, conn: ConnId, update: Option<Route>): seq<Path> {
    match update
    case None => DelPath(paths, conn)
    case Some(m) => SetPath(paths, conn, m)
  }

  function Lookup(cached: map<Byte, Route>, i: Byte): Option<Route> {
    if i in cached then Some(cached[i]) else None
  }

  function TaggedService(service: Byte, deltas: seq<RegistryDestDelta>): seq<RegistryDelta> {
    seq(|deltas|, k requires 0 <= k < |deltas| => ServiceRemote(service, deltas[k]))
  }

  function OwedServices(remotes: Dests, conn: ConnId, cached: map<Byte, Route>, n: nat): seq<RegistryDelta>
    requires n <= 256
  {
    if n == 0 then []
    else OwedServices(remotes, conn, cached, n - 1) + TaggedService(n - 1, ServiceSlotDeltas(remotes[n - 1], conn, Lookup(cached, n - 1)))
  }

  /** Every service slot updated from one connection; indices missing from `cached` lose their path over it. */
  function RegistryUpdate(r: RegistryState, conn: ConnId, cached: map<Byte, Route>): RegistryState {
    RegistryState(r.locals,
                  seq(256, i requires 0 <= i < 256 => ServiceSlot(r.remotes[i], conn, Lookup(cached, i))),
                  r.deltas + OwedServices(r.remotes, conn, cached, 256))
  }

  function ServicesAdvertised(r: RegistryState, to: NodeId, n: nat): Entries
    requires n <= 256
  {
    if n == 0 then []
    else
      var rest := ServicesAdvertised(r, to, n - 1);
      var best := BestFor(r.remotes[n - 1], to);
      if n - 1 in r.locals then rest + [(n - 1, Metric(0, [], REGISTRY_LOCAL_BW))]
      else if best.Some? then rest + [(n - 1, best.value.metric)]
      else rest
  }

  // ---- router -------------------------------------------------------------------------------

  function RegisterService(r: Router, service: Byte): Router {
    r.(registry := RegistryState(r.registry.locals + {service}, r.registry.remotes, r.registry.deltas + [SetServiceLocal(service)]))
  }

  function SetDirect(r: Router, conn: ConnId, metric: Route): Router {
    var e := EqUtilLayer(r.node, OverNode(metric));
    if e == 0 then r
    else r.(tables := r.tables[e - 1 := AddDirect(r.tables[e - 1], e - 1, conn, metric)])
  }

  /** Which slot a direct connection touches. */
  lemma SetDirectSlot(r: Router, conn: ConnId, metric: Route, l: LayerNo, i: Byte)
    ensures SetDirect(r, conn, metric).tables[l].dests[i] ==
      if EqUtilLayer(r.node, OverNode(metric)) == l + 1 && i == Layer(OverNode(metric), l) then SetPath(r.tables[l].dests[i], conn, metric)
      else r.tables[l].dests[i]
  {
  }

  function RouterDelDirect(r: Router, conn: ConnId): Router {
    r.(tables := seq(4, l requires 0 <= l < 4 => DelDirect(r.tables[l], conn)),
       registry := RegistryUpdate(r.registry, conn, map[]))
  }

  function CreateSync(r: Router, to: NodeId): (s: RouterSync)
    ensures |s.tables| == 4
  {
    RouterSync(ServicesAdvertised(r.registry, to, 256),
               seq(4, l requires 0 <= l < 4 => TableSyncFor(r.tables[l].dests, r.node, l, to)))
  }

  function MaybeTableSync(r: Router, l: LayerNo, conn: ConnId, link: Route, entries: Option<Entries>): TableState {
    if entries.Some? then TableSync(r.tables[l], r.node, l, conn, link, entries.value) else r.tables[l]
  }

  function ApplySync(r: Router, conn: ConnId, link: Route, sync: RouterSync): Router
    requires |sync.tables| == 4
  {
    r.(tables := seq(4, l requires 0 <= l < 4 => MaybeTableSync(r, l, conn, link, sync.tables[l])),
       registry := RegistryUpdate(r.registry, conn, Cached(sync.services, link)))
  }

  /** The slot a destination is looked up in: the layer where it first differs from this node. */
  function SlotFor(r: Router, dest: NodeId): seq<Path> {
    var e := EqUtilLayer(r.node, dest);
    if e == 0 then [] else r.tables[e - 1].dests[Layer(dest, e - 1)]
  }

  function Next(r: Router, dest: NodeId, excepts: set<NodeId>): Option<Path> {
    NextPath(SlotFor(r, dest), excepts)
  }

  datatype ServiceDestination = Here | Over(path: Path)

  function ServiceNext(r: Router, service: Byte, excepts: set<NodeId>): Option<ServiceDestination> {
    if service in r.registry.locals then Some(Here)
    else match NextPath(r.registry.remotes[service], excepts) case Some(p) => Some(Over(p)) case None => None
  }

  /** Among the first `n` slots with an allowed path, the one nearest to `key`. */
  function ClosestFor(dests: Dests, key: Byte, excepts: set<NodeId>, n: nat): (r: Option<(Byte, Path)>)
    requires n <= 256
    ensures r.Some? ==>
      && r.value.0 < n
      && NextPath(dests[r.value.0], excepts) == Some(r.value.1)
      && forall j :: 0 <= j < n && NextPath(dests[j], excepts).Some? ==> Xor8(r.value.0, key) <= Xor8(j, key)
    ensures r.None? ==> forall j :: 0 <= j < n ==> NextPath(dests[j], excepts).None?
  {
    if n == 0 then None
    else
      var prev := ClosestFor(dests, key, excepts, n - 1);
      var here := NextPath(dests[n - 1], excepts);
      if here.Some? && (prev.None? || Xor8(n - 1, key) < Xor8(prev.value.0, key)) then Some((n - 1, here.value)) else prev
  }

  /** The result of a key lookup: the path to take, and the layer and index it was found at. */
  datatype Closest = Closest(path: Path, layer: LayerNo, index: Byte)

  /** Whether the nearest usable slot of layer `l` is nearer to the key than the node's own index. */
  predicate Improves(r: Router, key: NodeId, excepts: set<NodeId>, l: LayerNo) {
    var best := ClosestFor(r.tables[l].dests, Layer(key, l), excepts, 256);
    best.Some? && Xor8(Layer(key, l), Layer(r.node, l)) > Xor8(best.value.0, Layer(key, l))
  }

  function LayerBest(r: Router, key: NodeId, excepts: set<NodeId>, l: LayerNo): Closest
    requires Improves(r, key, excepts, l)
  {
    var best := ClosestFor(r.tables[l].dests, Layer(key, l), excepts, 256);
    Closest(best.value.1, l, best.value.0)
  }

  /** Lookup over the layers below `n`, highest first; a layer counts only if it improves on this node. */
  function ClosestBelow(r: Router, key: NodeId, excepts: set<NodeId>, n: nat): Option<Closest>
    requires n <= 4
  {
    if n == 0 then None
    else if Improves(r, key, excepts, n - 1) then Some(LayerBest(r, key, excepts, n - 1))
    else ClosestBelow(r, key, excepts, n - 1)
  }

  function ClosestNode(r: Router, key: NodeId, excepts: set<NodeId>): Option<Closest> {
    ClosestBelow(r, key, excepts, 4)
  }

  // ---- what syncs carry ---------------------------------------------------------------------

  lemma {:induction false} CachedFacts(entries: Entries, link: Route)
    ensures forall i :: i in Cached(entries, link) ==> exists k :: 0 <= k < |entries| && entries[k].0 == i && Cached(entries, link)[i] == Add(entries[k].1, link)
    ensures forall k :: 0 <= k < |entries| ==> entries[k].0 in Cached(entries, link)
  {
    if entries != [] {
      var rest := entries[..|entries| - 1];
      CachedFacts(rest, link);
      forall i | i in Cached(entries, link)
        ensures exists k :: 0 <= k < |entries| && entries[k].0 == i && Cached(entries, link)[i] == Add(entries[k].1, link)
      {
        if i == entries[|entries| - 1].0 {
          assert entries[|entries| - 1].0 == i;
        } else {
          var k :| 0 <= k < |rest| && rest[k].0 == i && Cached(rest, link)[i] == Add(rest[k].1, link);
          assert entries[k].0 == i;
        }
      }
    }
  }

  lemma CachedEntry(entries: Entries, link: Route, i: Byte) returns (k: nat)
    requires i in Cached(entries, link)
    ensures k < |entries| && entries[k].0 == i && Cached(entries, link)[i] == Add(entries[k].1, link)
  {
    CachedFacts(entries, link);
    k :| 0 <= k < |entries| && entries[k].0 == i && Cached(entries, link)[i] == Add(entries[k].1, link);
  }

  /** An advertisement holds exactly the slots with a path avoiding the receiver, each with its best such path. */
  lemma {:induction false} AdvertisedFacts(dests: Dests, own: Byte, to: NodeId, n: nat)
    requires n <= 256
    ensures forall k :: 0 <= k < |Advertised(dests, own, to, n)| ==>
      var (i, m) := Advertised(dests, own, to, n)[k];
      i < n && i != own && BestFor(dests[i], to).Some? && m == BestFor(dests[i], to).value.metric
    ensures forall i :: 0 <= i < n && i != own && BestFor(dests[i], to).Some? ==>
      exists k :: 0 <= k < |Advertised(dests, own, to, n)| && Advertised(dests, own, to, n)[k].0 == i
  {
    if n > 0 {
      AdvertisedFacts(dests, own, to, n - 1);
      var rest, all := Advertised(dests, own, to, n - 1), Advertised(dests, own, to, n);
      forall i | 0 <= i < n && i != own && BestFor(dests[i], to).Some?
        ensures exists k :: 0 <= k < |all| && all[k].0 == i
      {
        if i < n - 1 {
          var k :| 0 <= k < |rest| && rest[k].0 == i;
          assert all[k].0 == i;
        } else {
          assert all[|all| - 1].0 == i;
        }
      }
    }
  }

  /** What one node receives when another advertises to it: the best paths, one link longer. */
  lemma SyncTransfers(dests: Dests, own: Byte, to: NodeId, link: Route, i: Byte)
    ensures var cached := Cached(Advertised(dests, own, to, 256), link);
      && (i in cached <==> i != own && BestFor(dests[i], to).Some?)
      && (i in cached ==> cached[i] == Add(BestFor(dests[i], to).value.metric, link))
  {
    var sync := Advertised(dests, own, to, 256);
    AdvertisedFacts(dests, own, to, 256);
    CachedFacts(sync, link);
    if i in Cached(sync, link) {
      var k :| 0 <= k < |sync| && sync[k].0 == i && Cached(sync, link)[i] == Add(sync[k].1, link);
    }
  }

  /** A service is worth telling `to` about: it is local, or there is a path avoiding the receiver. */
  predicate Tellable(r: RegistryState, to: NodeId, i: Byte) {
    i in r.locals || BestFor(r.remotes[i], to).Some?
  }

  function TellMetric(r: RegistryState, to: NodeId, i: Byte): Metric
    requires Tellable(r, to, i)
  {
    if i in r.locals then Metric(0, [], REGISTRY_LOCAL_BW) else BestFor(r.remotes[i], to).value.metric
  }

  /** Every service worth telling is listed. */
  lemma {:induction false} ServiceListed(r: RegistryState, to: NodeId, n: nat, i: Byte) returns (k: nat)
    requires i < n <= 256 && Tellable(r, to, i)
    ensures k < |ServicesAdvertised(r, to, n)| && ServicesAdvertised(r, to, n)[k].0 == i
  {
    if i == n - 1 {
      k := |ServicesAdvertised(r, to, n)| - 1;
    } else {
      k := ServiceListed(r, to, n - 1, i);
    }
  }

  /** What is listed is worth telling, and listed in order. */
  lemma {:induction false} ServicesInOrder(r: RegistryState, to: NodeId, n: nat)
    requires n <= 256
    ensures forall k :: 0 <= k < |ServicesAdvertised(r, to, n)| ==>
      var (i, m) := ServicesAdvertised(r, to, n)[k];
      i < n && Tellable(r, to, i) && m == TellMetric(r, to, i)
    ensures forall j, k :: 0 <= j < k < |ServicesAdvertised(r, to, n)| ==> ServicesAdvertised(r, to, n)[j].0 < ServicesAdvertised(r, to, n)[k].0
  {
    if n > 0 {
      ServicesInOrder(r, to, n - 1);
    }
  }

  /** A service advertisement lists exactly the services worth telling, each once and in order, local ones at no cost and
      the others with their best path avoiding the receiver. */
  lemma ServicesAdvertisedFacts(r: RegistryState, to: NodeId, n: nat)
    requires n <= 256
    ensures forall k :: 0 <= k < |ServicesAdvertised(r, to, n)| ==>
      var (i, m) := ServicesAdvertised(r, to, n)[k];
      i < n && Tellable(r, to, i) && m == TellMetric(r, to, i)
    ensures forall i :: 0 <= i < n && Tellable(r, to, i) ==>
      exists k :: 0 <= k < |ServicesAdvertised(r, to, n)| && ServicesAdvertised(r, to, n)[k].0 == i
    ensures forall j, k :: 0 <= j < k < |ServicesAdvertised(r, to, n)| ==> ServicesAdvertised(r, to, n)[j].0 < ServicesAdvertised(r, to, n)[k].0
  {
    ServicesInOrder(r, to, n);
    var all := ServicesAdvertised(r, to, n);
    forall i: Byte | i < n && Tellable(r, to, i) ensures exists k :: 0 <= k < |all| && all[k].0 == i {
      var k := ServiceListed(r, to, n, i);
      assert all[k].0 == i;
    }
  }
}
