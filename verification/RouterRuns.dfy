/** A network of routers exchanging syncs over links that come and go. Sent messages stay available
    for ever, so every run with lost, duplicated, reordered and stale syncs is a run of this machine. */
module RouterRuns {
  import opened Identity
  import opened Paths
  import opened RouterModel

  /** A router together with its open connections; each connection's metric has the neighbour as its only hop. */
  datatype NodeState = NodeState(router: Router, conns: map<ConnId, Route>)

  datatype Message = Message(from: NodeId, to: NodeId, sync: RouterSync)

  /** `registered` remembers who ever registered which service. */
  datatype Net = Net(nodes: map<NodeId, NodeState>, sent: set<Message>, registered: set<(NodeId, Byte)>)

  datatype Action =
    | LinkUp(x: NodeId, conn: ConnId, peer: NodeId, latency: nat, bandwidth: nat)
    | LinkDown(x: NodeId, conn: ConnId)
    | Register(x: NodeId, service: Byte)
    | SendSync(x: NodeId, conn: ConnId)
    | Deliver(x: NodeId, conn: ConnId, msg: Message)

  /** When an action can happen; a connection in use keeps its neighbour. */
  predicate Enabled(s: Net, a: Action) {
    && a.x in s.nodes
    && match a
       case LinkUp(x, conn, peer, _, _) =>
         peer in s.nodes && peer != x && (conn in s.nodes[x].conns ==> OverNode(s.nodes[x].conns[conn]) == peer)
       case LinkDown(_, _) => true
       case Register(_, _) => true
       case SendSync(x, conn) => conn in s.nodes[x].conns
       case Deliver(x, conn, msg) =>
         conn in s.nodes[x].conns && msg in s.sent && msg.to == x && msg.from == OverNode(s.nodes[x].conns[conn]) && |msg.sync.tables| == 4
  }

  function NodeStep(n: NodeState, a: Action): NodeState
    requires a.SendSync? || a.Deliver? ==> a.conn in n.conns
    requires a.Deliver? ==> |a.msg.sync.tables| == 4
  {
    match a
    case LinkUp(_, conn, peer, latency, bandwidth) =>
      var metric := Metric(latency, [peer], bandwidth);
      NodeState(SetDirect(n.router, conn, metric), n.conns[conn := metric])
    case LinkDown(_, conn) => NodeState(RouterDelDirect(n.router, conn), n.conns - {conn})
    case Register(_, service) => n.(router := RegisterService(n.router, service))
    case SendSync(_, _) => n
    case Deliver(_, conn, msg) => n.(router := ApplySync(n.router, conn, n.conns[conn], msg.sync))
  }

  function Step(s: Net, a: Action): Net {
    if !Enabled(s, a) then s
    else
      Net(s.nodes[a.x := NodeStep(s.nodes[a.x], a)],
          if a.SendSync? then
            var to := OverNode(s.nodes[a.x].conns[a.conn]);
            s.sent + {Message(a.x, to, CreateSync(s.nodes[a.x].router, to))}
          else s.sent,
          if a.Register? then s.registered + {(a.x, a.service)} else s.registered)
  }

  function Run(s: Net, actions: seq<Action>): Net {
    if actions == [] then s else Step(Run(s, actions[..|actions| - 1]), actions[|actions| - 1])
  }

  function Initial(ids: set<NodeId>): Net {
    Net(map x | x in ids :: NodeState(NewRouter(x), map[]), {}, {})
  }

  // ---- the invariant ------------------------------------------------------------------------

  predicate Distinct(hops: seq<NodeId>) {
    forall i, j :: 0 <= i < j < |hops| ==> hops[i] != hops[j]
  }

  /** A hop list that visits nodes of the network once each and avoids `x`. */
  predicate SimplePath(hops: seq<NodeId>, x: NodeId, ids: set<NodeId>) {
    Distinct(hops) && x !in hops && forall h :: h in hops ==> h in ids
  }

  /** A path stored at `x` runs over its connection's neighbour and never through `x` or twice through a node. */
  ghost predicate StoredOk(p: Path, x: NodeId, n: NodeState, ids: set<NodeId>) {
    && SimplePath(p.metric.hops, x, ids)
    && p.conn in n.conns
    && OverNode(p.metric) == OverNode(n.conns[p.conn])
  }

  /** A destination filed under index `i` of the layer-`l` table of `x` shares the layers above `l`
      with `x` and differs on layer `l`, where it has exactly `i`; so does every relay of the path reach up to `l`. */
  ghost predicate FiledOk(dest: NodeId, over: NodeId, x: NodeId, l: LayerNo, i: Byte) {
    && SharesFrom(dest, x, l + 1)
    && Layer(dest, l) == i != Layer(x, l)
    && SharesFrom(over, x, l + 1)
  }

  ghost predicate SlotOk(paths: seq<Path>, x: NodeId, l: LayerNo, i: Byte, n: NodeState, ids: set<NodeId>) {
    && WellFormed(paths)
    && forall p :: p in paths ==> StoredOk(p, x, n, ids) && FiledOk(DestNode(p.metric), OverNode(p.metric), x, l, i)
  }

  ghost predicate ServiceOk(paths: seq<Path>, x: NodeId, service: Byte, n: NodeState, ids: set<NodeId>, registered: set<(NodeId, Byte)>) {
    && WellFormed(paths)
    && forall p :: p in paths ==> StoredOk(p, x, n, ids) && (DestNode(p.metric), service) in registered
  }

  ghost predicate NodeOk(x: NodeId, n: NodeState, ids: set<NodeId>, registered: set<(NodeId, Byte)>) {
    && n.router.node == x
    && (forall c :: c in n.conns ==> n.conns[c].hops == [OverNode(n.conns[c])] && OverNode(n.conns[c]) in ids && OverNode(n.conns[c]) != x)
    && (forall l: LayerNo, i: Byte :: SlotOk(n.router.tables[l].dests[i], x, l, i, n, ids))
    && (forall v: Byte :: ServiceOk(n.router.registry.remotes[v], x, v, n, ids, registered))
    && (forall v :: v in n.router.registry.locals ==> (x, v) in registered)
  }

  ghost predicate EntryOk(e: (Byte, Metric), l: LayerNo, from: NodeId, to: NodeId, ids: set<NodeId>) {
    && e.1.hops != []
    && SimplePath(e.1.hops, to, ids) && from !in e.1.hops
    && SharesFrom(e.1.hops[0], from, l + 1) && SharesFrom(from, to, l + 1)
    && Layer(e.1.hops[0], l) == e.0
  }

  ghost predicate ServiceEntryOk(e: (Byte, Metric), from: NodeId, to: NodeId, ids: set<NodeId>, registered: set<(NodeId, Byte)>) {
    && SimplePath(e.1.hops, to, ids) && from !in e.1.hops
    && (if e.1.hops == [] then from else e.1.hops[0], e.0) in registered
  }

  ghost predicate MessageOk(m: Message, ids: set<NodeId>, registered: set<(NodeId, Byte)>) {
    && m.from in ids
    && |m.sync.tables| == 4
    && (forall l: LayerNo, k :: m.sync.tables[l].Some? && 0 <= k < |m.sync.tables[l].value| ==>
          EntryOk(m.sync.tables[l].value[k], l, m.from, m.to, ids))
    && (forall k :: 0 <= k < |m.sync.services| ==> ServiceEntryOk(m.sync.services[k], m.from, m.to, ids, registered))
  }

  ghost predicate Inv(s: Net) {
    && (forall x :: x in s.nodes ==> NodeOk(x, s.nodes[x], s.nodes.Keys, s.registered))
    && (forall m :: m in s.sent ==> MessageOk(m, s.nodes.Keys, s.registered))
  }

  // ---- slot updates keep it -----------------------------------------------------------------

  lemma DirectSlot(paths: seq<Path>, conn: ConnId, metric: Route, x: NodeId, l: LayerNo, n: NodeState, n': NodeState, ids: set<NodeId>)
    requires metric.hops == [OverNode(metric)] && OverNode(metric) in ids
    requires EqUtilLayer(x, OverNode(metric)) == l + 1
    requires SlotOk(paths, x, l, Layer(OverNode(metric), l), n, ids)
    requires n'.conns == n.conns[conn := metric]
    requires conn in n.conns ==> OverNode(n.conns[conn]) == OverNode(metric)
    ensures SlotOk(SetPath(paths, conn, metric), x, l, Layer(OverNode(metric), l), n', ids)
  {
    EqUtilLayerMeaning(x, OverNode(metric));
    SetPathFacts(paths, conn, metric);
    forall p | p in SetPath(paths, conn, metric)
      ensures StoredOk(p, x, n', ids) && FiledOk(DestNode(p.metric), OverNode(p.metric), x, l, Layer(OverNode(metric), l))
    {
      if p != Path(conn, metric) {
        assert StoredOk(p, x, n, ids);
      }
    }
  }

  /** Connections that keep their neighbours keep their paths sound. */
  predicate SameNeighbours(n: NodeState, n': NodeState) {
    forall c :: c in n.conns ==> c in n'.conns && OverNode(n'.conns[c]) == OverNode(n.conns[c])
  }

  lemma KeptSlot(paths: seq<Path>, x: NodeId, l: LayerNo, i: Byte, n: NodeState, n': NodeState, ids: set<NodeId>)
    requires SlotOk(paths, x, l, i, n, ids) && SameNeighbours(n, n')
    ensures SlotOk(paths, x, l, i, n', ids)
  {
  }

  lemma KeptService(paths: seq<Path>, x: NodeId, v: Byte, n: NodeState, n': NodeState, ids: set<NodeId>, registered: set<(NodeId, Byte)>)
    requires ServiceOk(paths, x, v, n, ids, registered) && SameNeighbours(n, n')
    ensures ServiceOk(paths, x, v, n', ids, registered)
  {
  }

  lemma DroppedSlot(paths: seq<Path>, conn: ConnId, x: NodeId, l: LayerNo, i: Byte, n: NodeState, n': NodeState, ids: set<NodeId>)
    requires SlotOk(paths, x, l, i, n, ids) && n'.conns == n.conns - {conn}
    ensures SlotOk(DelPath(paths, conn), x, l, i, n', ids)
  {
    DelPathFacts(paths, conn);
    forall p | p in DelPath(paths, conn)
      ensures StoredOk(p, x, n', ids) && FiledOk(DestNode(p.metric), OverNode(p.metric), x, l, i)
    {
      assert StoredOk(p, x, n, ids);
    }
  }

  lemma DroppedService(paths: seq<Path>, conn: ConnId, x: NodeId, v: Byte, n: NodeState, n': NodeState, ids: set<NodeId>, registered: set<(NodeId, Byte)>)
    requires ServiceOk(paths, x, v, n, ids, registered) && n'.conns == n.conns - {conn}
    ensures ServiceOk(DelPath(paths, conn), x, v, n', ids, registered)
  {
    DelPathFacts(paths, conn);
    forall p | p in DelPath(paths, conn) ensures StoredOk(p, x, n', ids) && (DestNode(p.metric), v) in registered {
      assert StoredOk(p, x, n, ids);
    }
  }

  lemma EntryExtends(e: (Byte, Metric), l: LayerNo, link: Route, x: NodeId, ids: set<NodeId>)
    requires link.hops == [OverNode(link)] && OverNode(link) in ids && OverNode(link) != x
    requires EntryOk(e, l, OverNode(link), x, ids)
    ensures var m := Add(e.1, link);
      && SimplePath(m.hops, x, ids) && OverNode(m) == OverNode(link)
      && (e.0 != Layer(x, l) ==> FiledOk(DestNode(m), OverNode(m), x, l, e.0))
  {
  }

  lemma SyncedSlotKeepsOk(paths: seq<Path>, x: NodeId, l: LayerNo, i: Byte, n: NodeState, ids: set<NodeId>, conn: ConnId, entries: Entries)
    requires SlotOk(paths, x, l, i, n, ids) && conn in n.conns
    requires var link := n.conns[conn]; link.hops == [OverNode(link)] && OverNode(link) in ids && OverNode(link) != x
    requires forall k :: 0 <= k < |entries| ==> EntryOk(entries[k], l, OverNode(n.conns[conn]), x, ids)
    ensures SlotOk(SyncedSlot(paths, i, x, l, conn, n.conns[conn], Cached(entries, n.conns[conn])), x, l, i, n, ids)
  {
    var link := n.conns[conn];
    var cached := Cached(entries, link);
    if i == Layer(x, l) {
    } else if i in cached {
      var k := CachedEntry(entries, link, i);
      EntryExtends(entries[k], l, link, x, ids);
      SetPathFacts(paths, conn, cached[i]);
    } else {
      DelPathFacts(paths, conn);
    }
  }

  lemma ServiceEntryExtends(e: (Byte, Metric), link: Route, x: NodeId, ids: set<NodeId>, registered: set<(NodeId, Byte)>)
    requires link.hops == [OverNode(link)] && OverNode(link) in ids && OverNode(link) != x
    requires ServiceEntryOk(e, OverNode(link), x, ids, registered)
    ensures var m := Add(e.1, link);
      SimplePath(m.hops, x, ids) && OverNode(m) == OverNode(link) && (DestNode(m), e.0) in registered
  {
  }

  lemma ServiceSet(paths: seq<Path>, x: NodeId, v: Byte, n: NodeState, ids: set<NodeId>, registered: set<(NodeId, Byte)>, p: Path)
    requires ServiceOk(paths, x, v, n, ids, registered)
    requires StoredOk(p, x, n, ids) && (DestNode(p.metric), v) in registered
    ensures ServiceOk(SetPath(paths, p.conn, p.metric), x, v, n, ids, registered)
  {
    SetPathFacts(paths, p.conn, p.metric);
  }

  lemma ServiceSlotKeepsOk(paths: seq<Path>, x: NodeId, v: Byte, n: NodeState, ids: set<NodeId>, registered: set<(NodeId, Byte)>, conn: ConnId, entries: Entries)
    requires ServiceOk(paths, x, v, n, ids, registered) && conn in n.conns
    requires var link := n.conns[conn]; link.hops == [OverNode(link)] && OverNode(link) in ids && OverNode(link) != x
    requires forall k :: 0 <= k < |entries| ==> ServiceEntryOk(entries[k], OverNode(n.conns[conn]), x, ids, registered)
    ensures ServiceOk(ServiceSlot(paths, conn, Lookup(Cached(entries, n.conns[conn]), v)), x, v, n, ids, registered)
  {
    var link := n.conns[conn];
    var cached := Cached(entries, link);
    if v in cached {
      var k := CachedEntry(entries, link, v);
      ServiceEntryExtends(entries[k], link, x, ids, registered);
      ServiceSet(paths, x, v, n, ids, registered, Path(conn, cached[v]));
    } else {
      DelPathFacts(paths, conn);
    }
  }

  // ---- node steps keep it -------------------------------------------------------------------

  lemma LinkUpSlot(x: NodeId, n: NodeState, a: Action, ids: set<NodeId>, l: LayerNo, i: Byte)
    requires n.router.node == x && a.LinkUp? && a.peer in ids && a.peer != x
    requires a.conn in n.conns ==> OverNode(n.conns[a.conn]) == a.peer
    requires SlotOk(n.router.tables[l].dests[i], x, l, i, n, ids)
    ensures SlotOk(NodeStep(n, a).router.tables[l].dests[i], x, l, i, NodeStep(n, a), ids)
  {
    var n' := NodeStep(n, a);
    var metric := Metric(a.latency, [a.peer], a.bandwidth);
    SetDirectSlot(n.router, a.conn, metric, l, i);
    if EqUtilLayer(x, a.peer) == l + 1 && i == Layer(a.peer, l) {
      DirectSlot(n.router.tables[l].dests[i], a.conn, metric, x, l, n, n', ids);
    } else {
      KeptSlot(n.router.tables[l].dests[i], x, l, i, n, n', ids);
    }
  }

  lemma LinkUpKeepsOk(x: NodeId, n: NodeState, a: Action, ids: set<NodeId>, registered: set<(NodeId, Byte)>)
    requires NodeOk(x, n, ids, registered) && a.LinkUp? && a.peer in ids && a.peer != x
    requires a.conn in n.conns ==> OverNode(n.conns[a.conn]) == a.peer
    ensures NodeOk(x, NodeStep(n, a), ids, registered)
  {
    var n' := NodeStep(n, a);
    forall l: LayerNo, i: Byte ensures SlotOk(n'.router.tables[l].dests[i], x, l, i, n', ids) {
      LinkUpSlot(x, n, a, ids, l, i);
    }
    forall v: Byte ensures ServiceOk(n'.router.registry.remotes[v], x, v, n', ids, registered) {
      KeptService(n.router.registry.remotes[v], x, v, n, n', ids, registered);
    }
  }

  lemma LinkDownKeepsOk(x: NodeId, n: NodeState, a: Action, ids: set<NodeId>, registered: set<(NodeId, Byte)>)
    requires NodeOk(x, n, ids, registered) && a.LinkDown?
    ensures NodeOk(x, NodeStep(n, a), ids, registered)
  {
    var n' := NodeStep(n, a);
    forall l: LayerNo, i: Byte ensures SlotOk(n'.router.tables[l].dests[i], x, l, i, n', ids) {
      assert SlotOk(n.router.tables[l].dests[i], x, l, i, n, ids);
      DroppedSlot(n.router.tables[l].dests[i], a.conn, x, l, i, n, n', ids);
    }
    forall v: Byte ensures ServiceOk(n'.router.registry.remotes[v], x, v, n', ids, registered) {
      assert ServiceOk(n.router.registry.remotes[v], x, v, n, ids, registered);
      DroppedService(n.router.registry.remotes[v], a.conn, x, v, n, n', ids, registered);
    }
  }

  lemma DeliverKeepsOk(x: NodeId, n: NodeState, a: Action, ids: set<NodeId>, registered: set<(NodeId, Byte)>)
    requires NodeOk(x, n, ids, registered) && a.Deliver? && a.conn in n.conns
    requires MessageOk(a.msg, ids, registered) && a.msg.to == x && a.msg.from == OverNode(n.conns[a.conn])
    ensures NodeOk(x, NodeStep(n, a), ids, registered)
  {
    var n' := NodeStep(n, a);
    forall l: LayerNo, i: Byte ensures SlotOk(n'.router.tables[l].dests[i], x, l, i, n', ids) {
      assert SlotOk(n.router.tables[l].dests[i], x, l, i, n, ids);
      if a.msg.sync.tables[l].Some? {
        SyncedSlotKeepsOk(n.router.tables[l].dests[i], x, l, i, n, ids, a.conn, a.msg.sync.tables[l].value);
      }
    }
    forall v: Byte ensures ServiceOk(n'.router.registry.remotes[v], x, v, n', ids, registered) {
      assert ServiceOk(n.router.registry.remotes[v], x, v, n, ids, registered);
      ServiceSlotKeepsOk(n.router.registry.remotes[v], x, v, n, ids, registered, a.conn, a.msg.sync.services);
    }
  }

  lemma RegisterKeepsOk(x: NodeId, n: NodeState, a: Action, ids: set<NodeId>, registered: set<(NodeId, Byte)>)
    requires NodeOk(x, n, ids, registered) && a.Register?
    ensures NodeOk(x, NodeStep(n, a), ids, registered + {(x, a.service)})
  {
  }

  lemma MoreRegistrations(x: NodeId, n: NodeState, ids: set<NodeId>, registered: set<(NodeId, Byte)>, more: set<(NodeId, Byte)>)
    requires NodeOk(x, n, ids, registered) && registered <= more
    ensures NodeOk(x, n, ids, more)
  {
  }

  /** A message built by a sound node is sound for its receiver. */
  lemma CreatedSyncOk(x: NodeId, n: NodeState, to: NodeId, ids: set<NodeId>, registered: set<(NodeId, Byte)>)
    requires NodeOk(x, n, ids, registered) && x in ids
    ensures MessageOk(Message(x, to, CreateSync(n.router, to)), ids, registered)
  {
    var m := Message(x, to, CreateSync(n.router, to));
    forall l: LayerNo, k | m.sync.tables[l].Some? && 0 <= k < |m.sync.tables[l].value|
      ensures EntryOk(m.sync.tables[l].value[k], l, x, to, ids)
    {
      var dests := n.router.tables[l].dests;
      AdvertisedFacts(dests, Layer(x, l), to, 256);
      var (i, metric) := m.sync.tables[l].value[k];
      assert SlotOk(dests[i], x, l, i, n, ids);
      SharesFromIff(x, to, l + 1);
    }
    forall k | 0 <= k < |m.sync.services| ensures ServiceEntryOk(m.sync.services[k], x, to, ids, registered) {
      ServicesAdvertisedFacts(n.router.registry, to, 256);
      var (i, metric) := m.sync.services[k];
      assert ServiceOk(n.router.registry.remotes[i], x, i, n, ids, registered);
    }
  }

  lemma StepKeepsInv(s: Net, a: Action)
    requires Inv(s)
    ensures Inv(Step(s, a)) && Step(s, a).nodes.Keys == s.nodes.Keys
  {
    if Enabled(s, a) {
      var s' := Step(s, a);
      var n := s.nodes[a.x];
      assert s'.nodes.Keys == s.nodes.Keys;
      match a {
        case LinkUp(_, _, _, _, _) => LinkUpKeepsOk(a.x, n, a, s.nodes.Keys, s.registered);
        case LinkDown(_, _) => LinkDownKeepsOk(a.x, n, a, s.nodes.Keys, s.registered);
        case Register(_, _) => RegisterKeepsOk(a.x, n, a, s.nodes.Keys, s.registered);
        case SendSync(_, _) => CreatedSyncOk(a.x, n, OverNode(n.conns[a.conn]), s.nodes.Keys, s.registered);
        case Deliver(_, _, _) => DeliverKeepsOk(a.x, n, a, s.nodes.Keys, s.registered);
      }
      forall y | y in s'.nodes ensures NodeOk(y, s'.nodes[y], s'.nodes.Keys, s'.registered) {
        MoreRegistrations(y, if y == a.x then s'.nodes[y] else s.nodes[y], s.nodes.Keys, if a.Register? && y == a.x then s'.registered else s.registered, s'.registered);
      }
    }
  }

  /** Path-vector and prefix safety in every run: whatever is lost, duplicated, reordered or stale, and whichever
      links come and go, every stored path and every path in flight satisfies `Inv`. */
  lemma {:induction false} EveryRunIsSafe(ids: set<NodeId>, actions: seq<Action>)
    ensures Inv(Run(Initial(ids), actions))
    ensures Run(Initial(ids), actions).nodes.Keys == ids
  {
    if actions == [] {
    } else {
      EveryRunIsSafe(ids, actions[..|actions| - 1]);
      StepKeepsInv(Run(Initial(ids), actions[..|actions| - 1]), actions[|actions| - 1]);
    }
  }

  lemma {:induction false} DistinctFits(hops: seq<NodeId>, ids: set<NodeId>)
    requires Distinct(hops) && forall h :: h in hops ==> h in ids
    ensures |hops| <= |ids|
  {
    if hops != [] {
      var last := hops[|hops| - 1];
      DistinctFits(hops[..|hops| - 1], ids - {last});
    }
  }

  /** A stored path, to a node or to a service, never has more hops than there are other nodes. */
  lemma HopsAreBounded(ids: set<NodeId>, actions: seq<Action>, s: Net, x: NodeId, l: LayerNo, i: Byte, p: Path)
    requires s == Run(Initial(ids), actions)
    requires x in s.nodes && (p in s.nodes[x].router.tables[l].dests[i] || p in s.nodes[x].router.registry.remotes[i])
    ensures |p.metric.hops| <= |ids| - 1
  {
    EveryRunIsSafe(ids, actions);
    assert SlotOk(s.nodes[x].router.tables[l].dests[i], x, l, i, s.nodes[x], ids);
    assert ServiceOk(s.nodes[x].router.registry.remotes[i], x, i, s.nodes[x], ids, s.registered);
    assert StoredOk(p, x, s.nodes[x], ids);
    DistinctFits(p.metric.hops, ids - {x});
  }

  /** In every run a node offers exactly the services it registered. */
  lemma {:induction false} OffersIffRegistered(ids: set<NodeId>, actions: seq<Action>, x: NodeId, v: Byte)
    requires x in ids
    ensures var s := Run(Initial(ids), actions);
      x in s.nodes && (v in s.nodes[x].router.registry.locals <==> Register(x, v) in actions)
  {
    if actions != [] {
      var before, a := actions[..|actions| - 1], actions[|actions| - 1];
      OffersIffRegistered(ids, before, x, v);
      assert actions == before + [a];
    }
  }
}
