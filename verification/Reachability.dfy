/** Which destinations a settled network knows: a slot is filled exactly when its index can be reached over links between
    nodes that share the prefix, and a service is known exactly when links lead to a node that offers it. */
module Reachability {
  import opened Identity
  import opened Paths
  import opened RouterModel
  import opened RouterRuns
  import opened Forwarding
  import opened ServiceRouting

  // ---- direct paths -------------------------------------------------------------------------

  /** The slot a neighbour belongs to holds the link to it. */
  ghost predicate LinkStored(n: NodeState, x: NodeId, conn: ConnId)
    requires conn in n.conns
  {
    forall l: LayerNo :: EqUtilLayer(x, OverNode(n.conns[conn])) == l + 1 ==>
      Path(conn, n.conns[conn]) in n.router.tables[l].dests[Layer(OverNode(n.conns[conn]), l)]
  }

  /** A path over a neighbour that has the index itself is the link to it. */
  ghost predicate OnlyLinks(paths: seq<Path>, l: LayerNo, i: Byte) {
    forall p :: p in paths && Layer(OverNode(p.metric), l) == i ==> p.metric.hops == [OverNode(p.metric)]
  }

  ghost predicate DirectNode(n: NodeState, x: NodeId) {
    && (forall conn :: conn in n.conns ==> LinkStored(n, x, conn))
    && (forall l: LayerNo, i: Byte :: OnlyLinks(n.router.tables[l].dests[i], l, i))
  }

  /** Nobody advertises its own index. */
  predicate NotOwn(m: Message) {
    |m.sync.tables| == 4 &&
    forall l: LayerNo, k :: m.sync.tables[l].Some? && 0 <= k < |m.sync.tables[l].value| ==> m.sync.tables[l].value[k].0 != Layer(m.from, l)
  }

  ghost predicate Direct(s: Net) {
    (forall x :: x in s.nodes ==> DirectNode(s.nodes[x], x)) && (forall m :: m in s.sent ==> NotOwn(m))
  }

  lemma CreatedNotOwn(r: Router, to: NodeId)
    ensures NotOwn(Message(r.node, to, CreateSync(r, to)))
  {
    forall l: LayerNo { AdvertisedFacts(r.tables[l].dests, Layer(r.node, l), to, 256); }
  }

  /** What a new link does to one slot. */
  ghost predicate LinkUpAt(r: Router, conn: ConnId, metric: Route, l: LayerNo, i: Byte) {
    var before, after := r.tables[l].dests[i], SetDirect(r, conn, metric).tables[l].dests[i];
    && OnlyLinks(after, l, i)
    && (EqUtilLayer(r.node, OverNode(metric)) == l + 1 && i == Layer(OverNode(metric), l) ==> Path(conn, metric) in after)
    && (forall p :: p in before && p.conn != conn ==> p in after)
  }

  lemma LinkUpSlot(r: Router, conn: ConnId, metric: Route, l: LayerNo, i: Byte)
    requires WellFormed(r.tables[l].dests[i]) && OnlyLinks(r.tables[l].dests[i], l, i) && metric.hops == [OverNode(metric)]
    ensures LinkUpAt(r, conn, metric, l, i)
  {
    SetDirectSlot(r, conn, metric, l, i);
    SetPathFacts(r.tables[l].dests[i], conn, metric);
  }

  lemma LinkUpStored(n: NodeState, n': NodeState, x: NodeId, conn: ConnId, metric: Route, c: ConnId)
    requires n.router.node == x && n' == NodeState(SetDirect(n.router, conn, metric), n.conns[conn := metric]) && c in n'.conns
    requires (forall l: LayerNo, i: Byte :: LinkUpAt(n.router, conn, metric, l, i)) && (c != conn ==> LinkStored(n, x, c))
    ensures LinkStored(n', x, c)
  {
    var link := n'.conns[c];
    forall l: LayerNo | EqUtilLayer(x, OverNode(link)) == l + 1
      ensures Path(c, link) in n'.router.tables[l].dests[Layer(OverNode(link), l)]
    {
      assert LinkUpAt(n.router, conn, metric, l, Layer(OverNode(link), l));
    }
  }

  lemma LinkUpDirect(s: Net, a: Action)
    requires Inv(s) && Direct(s) && Enabled(s, a) && a.LinkUp?
    ensures DirectNode(NodeStep(s.nodes[a.x], a), a.x)
  {
    var n, n', metric := s.nodes[a.x], NodeStep(s.nodes[a.x], a), Metric(a.latency, [a.peer], a.bandwidth);
    assert NodeOk(a.x, n, s.nodes.Keys, s.registered) && DirectNode(n, a.x);
    forall l: LayerNo, i: Byte ensures LinkUpAt(n.router, a.conn, metric, l, i) {
      assert SlotOk(n.router.tables[l].dests[i], a.x, l, i, n, s.nodes.Keys) && OnlyLinks(n.router.tables[l].dests[i], l, i);
      LinkUpSlot(n.router, a.conn, metric, l, i);
    }
    forall c | c in n'.conns ensures LinkStored(n', a.x, c) {
      LinkUpStored(n, n', a.x, a.conn, metric, c);
    }
    forall l: LayerNo, i: Byte ensures OnlyLinks(n'.router.tables[l].dests[i], l, i) {
      assert LinkUpAt(n.router, a.conn, metric, l, i);
    }
  }

  lemma LinkDownDirect(s: Net, a: Action)
    requires Inv(s) && Direct(s) && Enabled(s, a) && a.LinkDown?
    ensures DirectNode(NodeStep(s.nodes[a.x], a), a.x)
  {
    var n, n' := s.nodes[a.x], NodeStep(s.nodes[a.x], a);
    assert NodeOk(a.x, n, s.nodes.Keys, s.registered) && DirectNode(n, a.x);
    forall l: LayerNo, i: Byte
      ensures OnlyLinks(n'.router.tables[l].dests[i], l, i)
      ensures forall p :: p in n.router.tables[l].dests[i] && p.conn != a.conn ==> p in n'.router.tables[l].dests[i]
    {
      assert SlotOk(n.router.tables[l].dests[i], a.x, l, i, n, s.nodes.Keys) && OnlyLinks(n.router.tables[l].dests[i], l, i);
      DelPathFacts(n.router.tables[l].dests[i], a.conn);
    }
    forall conn | conn in n'.conns ensures LinkStored(n', a.x, conn) { assert LinkStored(n, a.x, conn); }
  }

  /** One slot under a sync that does not speak of the sender's own index. */
  lemma SyncedDirect(paths: seq<Path>, x: NodeId, l: LayerNo, i: Byte, conn: ConnId, link: Route, entries: Entries)
    requires WellFormed(paths) && OnlyLinks(paths, l, i)
    requires forall k :: 0 <= k < |entries| ==> entries[k].0 != Layer(OverNode(link), l)
    ensures var after := SyncedSlot(paths, i, x, l, conn, link, Cached(entries, link));
      && OnlyLinks(after, l, i)
      && forall p :: p in paths && (p.conn != conn || Layer(OverNode(link), l) == i) ==> p in after
  {
    var cached := Cached(entries, link);
    if i != Layer(x, l) && i in cached {
      var k := CachedEntry(entries, link, i);
      SetPathFacts(paths, conn, cached[i]);
    } else if i != Layer(x, l) && Layer(OverNode(link), l) != i {
      DelPathFacts(paths, conn);
    }
  }

  lemma DeliverDirect(s: Net, a: Action)
    requires Inv(s) && Direct(s) && Enabled(s, a) && a.Deliver?
    ensures DirectNode(NodeStep(s.nodes[a.x], a), a.x)
  {
    var n, n' := s.nodes[a.x], NodeStep(s.nodes[a.x], a);
    var link := n.conns[a.conn];
    assert NodeOk(a.x, n, s.nodes.Keys, s.registered) && DirectNode(n, a.x) && NotOwn(a.msg);
    forall l: LayerNo, i: Byte
      ensures OnlyLinks(n'.router.tables[l].dests[i], l, i)
      ensures forall p :: p in n.router.tables[l].dests[i] && (p.conn != a.conn || Layer(OverNode(link), l) == i) ==> p in n'.router.tables[l].dests[i]
    {
      assert SlotOk(n.router.tables[l].dests[i], a.x, l, i, n, s.nodes.Keys) && OnlyLinks(n.router.tables[l].dests[i], l, i);
      if a.msg.sync.tables[l].Some? {
        SyncedDirect(n.router.tables[l].dests[i], a.x, l, i, a.conn, link, a.msg.sync.tables[l].value);
      }
    }
    forall conn | conn in n'.conns ensures LinkStored(n', a.x, conn) { assert LinkStored(n, a.x, conn); }
  }

  lemma StepKeepsDirect(s: Net, a: Action)
    requires Inv(s) && Direct(s)
    ensures Direct(Step(s, a))
  {
    if Enabled(s, a) {
      var n, n' := s.nodes[a.x], NodeStep(s.nodes[a.x], a);
      assert NodeOk(a.x, n, s.nodes.Keys, s.registered) && DirectNode(n, a.x);
      match a {
        case LinkUp(_, _, _, _, _) => LinkUpDirect(s, a);
        case LinkDown(_, _) => LinkDownDirect(s, a);
        case Deliver(_, _, _) => DeliverDirect(s, a);
        case Register(_, _) =>
          forall conn | conn in n'.conns ensures LinkStored(n', a.x, conn) { assert LinkStored(n, a.x, conn); }
        case SendSync(_, conn) => CreatedNotOwn(n.router, OverNode(n.conns[conn]));
      }
    }
  }

  lemma {:induction false} EveryRunIsDirect(ids: set<NodeId>, actions: seq<Action>)
    ensures Direct(Run(Initial(ids), actions))
  {
    if actions != [] {
      EveryRunIsSafe(ids, actions[..|actions| - 1]);
      EveryRunIsDirect(ids, actions[..|actions| - 1]);
      StepKeepsDirect(Run(Initial(ids), actions[..|actions| - 1]), actions[|actions| - 1]);
    }
  }

  // ---- which slots are filled ---------------------------------------------------------------

  predicate LinkedTo(s: Net, x: NodeId, y: NodeId) {
    x in s.nodes && y in s.nodes && exists conn :: conn in s.nodes[x].conns && OverNode(s.nodes[x].conns[conn]) == y
  }

  /** A walk over links between nodes sharing the layers above `l`, ending at a node with index `i` on layer `l`. */
  predicate Walk(s: Net, trace: seq<NodeId>, l: LayerNo, i: Byte) {
    && trace != [] && trace[0] in s.nodes
    && (if |trace| == 1 then Layer(trace[0], l) == i
        else LinkedTo(s, trace[0], trace[1]) && SharesFrom(trace[0], trace[1], l + 1) && Walk(s, trace[1..], l, i))
  }

  ghost predicate CanReach(s: Net, x: NodeId, l: LayerNo, i: Byte) {
    exists trace :: Walk(s, trace, l, i) && trace[0] == x
  }

  /** The first hop of the best path stays inside the prefix and is there or has a better path. */
  lemma BestHop(s: Net, x: NodeId, l: LayerNo, i: Byte) returns (y: NodeId)
    requires Inv(s) && Synchronised(s) && x in s.nodes && Slot(s, x, l, i) != []
    ensures LinkedTo(s, x, y) && SharesFrom(x, y, l + 1)
    ensures Layer(y, l) == i || (Slot(s, y, l, i) != [] && HeadScore(Slot(s, y, l, i)) < HeadScore(Slot(s, x, l, i)))
  {
    var p := Slot(s, x, l, i)[0];
    y := OverNode(p.metric);
    RelayIsBetter(s, x, l, i, p);
    assert SlotOk(Slot(s, x, l, i), x, l, i, s.nodes[x], s.nodes.Keys);
    assert StoredOk(p, x, s.nodes[x], s.nodes.Keys);
  }

  /** A filled slot leads somewhere: following the best paths is a walk. */
  lemma {:induction false} FilledReaches(s: Net, x: NodeId, l: LayerNo, i: Byte) returns (trace: seq<NodeId>)
    requires Inv(s) && Synchronised(s) && x in s.nodes && Slot(s, x, l, i) != []
    ensures Walk(s, trace, l, i) && trace[0] == x
    decreases HeadScore(Slot(s, x, l, i))
  {
    var y := BestHop(s, x, l, i);
    var rest := [y];
    if Layer(y, l) != i {
      rest := FilledReaches(s, y, l, i);
    }
    trace := [x] + rest;
    assert trace[1..] == rest;
  }

  /** What a settled slot holds over a neighbour that speaks of the index: the neighbour's best path, one link longer. */
  lemma SettledOver(s: Net, x: NodeId, conn: ConnId, l: LayerNo, i: Byte)
    requires Inv(s) && Synchronised(s) && x in s.nodes && conn in s.nodes[x].conns
    requires var y := OverNode(s.nodes[x].conns[conn]); y in s.nodes && SharesFrom(y, x, l + 1) && i != Layer(x, l) && i != Layer(y, l)
    ensures var link := s.nodes[x].conns[conn];
      var best := BestFor(Slot(s, OverNode(link), l, i), x);
      && (best.Some? ==> Path(conn, Add(best.value.metric, link)) in Slot(s, x, l, i))
      && forall p :: p in Slot(s, x, l, i) && p.conn == conn ==> best.Some? && p.metric == Add(best.value.metric, link)
  {
    var n := s.nodes[x];
    var link := n.conns[conn];
    var y := OverNode(link);
    var slot := Slot(s, x, l, i);
    assert NodeOk(y, s.nodes[y], s.nodes.Keys, s.registered) && NodeOk(x, n, s.nodes.Keys, s.registered);
    assert SlotOk(slot, x, l, i, n, s.nodes.Keys);
    assert Settled(s, x, conn);
    SharesFromIff(y, x, l + 1);
    var theirs := s.nodes[y].router.tables[l].dests;
    var sync := CreateSync(s.nodes[y].router, x);
    assert sync.tables[l] == Some(Advertised(theirs, Layer(y, l), x, 256));
    var cached := Cached(sync.tables[l].value, link);
    SyncTransfers(theirs, Layer(y, l), x, link, i);
    assert SyncedSlot(slot, i, x, l, conn, link, cached) == ApplySync(n.router, conn, link, sync).tables[l].dests[i] == slot;
    if i in cached {
      SetPathFacts(slot, conn, cached[i]);
    } else {
      DelPathFacts(slot, conn);
    }
  }

  lemma OnlyTheLink(s: Net, y: NodeId, l: LayerNo, i: Byte, p: Path)
    requires Direct(s) && y in s.nodes && p in Slot(s, y, l, i) && Layer(OverNode(p.metric), l) == i
    ensures p.metric.hops == [OverNode(p.metric)]
  {
    assert DirectNode(s.nodes[y], y);
    assert OnlyLinks(Slot(s, y, l, i), l, i);
  }

  /** Every node on a stored path that does not have the index itself has a filled slot for it. */
  lemma {:induction false} ThroughIsFilled(s: Net, y: NodeId, x: NodeId, l: LayerNo, i: Byte, p: Path)
    requires Inv(s) && Direct(s) && Synchronised(s) && y in s.nodes && p in Slot(s, y, l, i)
    requires x in p.metric.hops && Layer(x, l) != i
    ensures x in s.nodes && Slot(s, x, l, i) != []
    decreases |p.metric.hops|
  {
    var n, z := s.nodes[y], OverNode(p.metric);
    RelayIsBetter(s, y, l, i, p);
    assert SlotOk(Slot(s, y, l, i), y, l, i, n, s.nodes.Keys);
    assert StoredOk(p, y, n, s.nodes.Keys) && FiledOk(DestNode(p.metric), z, y, l, i);
    if Layer(z, l) == i {
      OnlyTheLink(s, y, l, i, p);
    } else if z != x {
      assert NodeOk(y, n, s.nodes.Keys, s.registered);
      SettledOver(s, y, p.conn, l, i);
      var q := BestFor(Slot(s, z, l, i), y).value;
      assert p.metric.hops == q.metric.hops + [z];
      ThroughIsFilled(s, z, x, l, i, q);
    }
  }

  lemma LinkFills(s: Net, x: NodeId, conn: ConnId, l: LayerNo)
    requires Direct(s) && x in s.nodes && conn in s.nodes[x].conns
    requires var y := OverNode(s.nodes[x].conns[conn]); SharesFrom(x, y, l + 1) && Layer(x, l) != Layer(y, l)
    ensures Slot(s, x, l, Layer(OverNode(s.nodes[x].conns[conn]), l)) != []
  {
    var y := OverNode(s.nodes[x].conns[conn]);
    SharesFromIff(x, y, l + 1);
    SharesFromIff(x, y, l);
    assert DirectNode(s.nodes[x], x);
    assert LinkStored(s.nodes[x], x, conn);
  }

  /** A walk fills the slot: somebody along it offers, or already goes through here. */
  lemma {:induction false} WalkFills(s: Net, trace: seq<NodeId>, l: LayerNo, i: Byte)
    requires Inv(s) && Direct(s) && Synchronised(s) && Walk(s, trace, l, i) && Layer(trace[0], l) != i
    ensures Slot(s, trace[0], l, i) != []
  {
    var x, y := trace[0], trace[1];
    var conn :| conn in s.nodes[x].conns && OverNode(s.nodes[x].conns[conn]) == y;
    if Layer(y, l) == i {
      LinkFills(s, x, conn, l);
    } else {
      WalkFills(s, trace[1..], l, i);
      SettledOver(s, x, conn, l, i);
      var p := Slot(s, y, l, i)[0];
      if BestFor(Slot(s, y, l, i), x).None? {
        ThroughIsFilled(s, y, x, l, i, p);
      }
    }
  }

  /** A slot of a settled network is filled exactly when its index can be reached inside the prefix. */
  lemma FilledIffReachable(s: Net, x: NodeId, l: LayerNo, i: Byte)
    requires Inv(s) && Direct(s) && Synchronised(s) && x in s.nodes && i != Layer(x, l)
    ensures Slot(s, x, l, i) != [] <==> CanReach(s, x, l, i)
  {
    if Slot(s, x, l, i) != [] {
      var trace := FilledReaches(s, x, l, i);
    }
    if CanReach(s, x, l, i) {
      var trace :| Walk(s, trace, l, i) && trace[0] == x;
      WalkFills(s, trace, l, i);
    }
  }

  /** Inside the prefix it shares with `d`, node `x` can reach somebody with `d`'s index on the layer where they part. */
  ghost predicate CanMeet(s: Net, x: NodeId, d: NodeId) {
    var e := EqUtilLayer(x, d);
    0 < e <= 4 && CanReach(s, x, e - 1, Layer(d, e - 1))
  }

  lemma KnowsIffMeets(s: Net, x: NodeId, d: NodeId)
    requires Inv(s) && Direct(s) && Synchronised(s) && x in s.nodes && x != d
    ensures SlotFor(s.nodes[x].router, d) != [] <==> CanMeet(s, x, d)
  {
    assert NodeOk(x, s.nodes[x], s.nodes.Keys, s.registered);
    EqUtilLayerMeaning(x, d);
    var l := EqUtilLayer(x, d) - 1;
    FilledIffReachable(s, x, l, Layer(d, l));
  }

  /** Any two nodes can meet. */
  ghost predicate AllMeet(s: Net) {
    forall x, d :: x in s.nodes && d in s.nodes && x != d ==> CanMeet(s, x, d)
  }

  lemma CompleteMeets(s: Net)
    requires Inv(s) && Direct(s) && Synchronised(s) && Complete(s)
    ensures AllMeet(s)
  {
    forall x, d | x in s.nodes && d in s.nodes && x != d ensures CanMeet(s, x, d) { KnowsIffMeets(s, x, d); }
  }

  lemma MeetsComplete(s: Net)
    requires Inv(s) && Direct(s) && Synchronised(s) && AllMeet(s)
    ensures Complete(s)
  {
    forall x, d | x in s.nodes && d in s.nodes && x != d ensures SlotFor(s.nodes[x].router, d) != [] { KnowsIffMeets(s, x, d); }
  }

  /** In every reachable synchronised state the tables are complete exactly when any two nodes can meet. */
  lemma CompleteIffAllMeet(ids: set<NodeId>, actions: seq<Action>, s: Net)
    requires s == Run(Initial(ids), actions) && Synchronised(s)
    ensures Complete(s) <==> AllMeet(s)
  {
    EveryRunIsSafe(ids, actions);
    EveryRunIsDirect(ids, actions);
    if Complete(s) { CompleteMeets(s); }
    if AllMeet(s) { MeetsComplete(s); }
  }

  predicate LinksLeave(s: Net, a: NodeId) {
    a in s.nodes && forall conn :: conn in s.nodes[a].conns ==> OverNode(s.nodes[a].conns[conn]).geo1 != a.geo1
  }

  lemma WalkStartsElsewhere(s: Net, trace: seq<NodeId>, l: LayerNo, i: Byte, a: NodeId)
    requires Walk(s, trace, l, i) && l < 3 && LinksLeave(s, a) && Layer(a, l) != i
    ensures trace[0] != a
  {
    assert |trace| > 1 ==> Layer(trace[1], 3) == Layer(trace[0], 3);
  }

  /** The links need not be missing: a node none of whose links stay inside its `geo1` never knows another node of it,
      however well the two are linked through the outside. */
  lemma OutsideLinksDoNotHelp(ids: set<NodeId>, actions: seq<Action>, s: Net, a: NodeId, c: NodeId)
    requires s == Run(Initial(ids), actions) && Synchronised(s) && LinksLeave(s, a) && a != c && a.geo1 == c.geo1
    ensures SlotFor(s.nodes[a].router, c) == []
  {
    EveryRunIsSafe(ids, actions);
    EveryRunIsDirect(ids, actions);
    KnowsIffMeets(s, a, c);
    EqUtilLayerMeaning(a, c);
    var l := EqUtilLayer(a, c) - 1;
    forall trace | Walk(s, trace, l, Layer(c, l)) ensures trace[0] != a {
      WalkStartsElsewhere(s, trace, l, Layer(c, l), a);
    }
  }

  // ---- which services are known -------------------------------------------------------------

  /** A walk over links that ends at a node offering `v`. */
  predicate ServiceWalk(s: Net, trace: seq<NodeId>, v: Byte) {
    && trace != [] && trace[0] in s.nodes
    && (if |trace| == 1 then Offers(s, trace[0], v) else LinkedTo(s, trace[0], trace[1]) && ServiceWalk(s, trace[1..], v))
  }

  ghost predicate CanReachService(s: Net, x: NodeId, v: Byte) {
    exists trace :: ServiceWalk(s, trace, v) && trace[0] == x
  }

  predicate KnowsService(s: Net, x: NodeId, v: Byte)
    requires x in s.nodes
  {
    Offers(s, x, v) || ServicePaths(s, x, v) != []
  }

  lemma {:induction false} KnownServiceReaches(s: Net, x: NodeId, v: Byte) returns (trace: seq<NodeId>)
    requires Inv(s) && ServicesSynchronised(s) && x in s.nodes && KnowsService(s, x, v)
    ensures ServiceWalk(s, trace, v) && trace[0] == x
    decreases ServiceRank(s, x, v)
  {
    trace := [x];
    if !Offers(s, x, v) {
      var p := ServicePaths(s, x, v)[0];
      var y := OverNode(p.metric);
      ServiceRelayIsBetter(s, x, v, p);
      assert ServiceOk(ServicePaths(s, x, v), x, v, s.nodes[x], s.nodes.Keys, s.registered);
      assert StoredOk(p, x, s.nodes[x], s.nodes.Keys);
      var rest := KnownServiceReaches(s, y, v);
      trace := [x] + rest;
      assert trace[1..] == rest;
    }
  }

  /** Every node on a stored service path knows the service. */
  lemma {:induction false} ThroughKnowsService(s: Net, y: NodeId, x: NodeId, v: Byte, p: Path)
    requires Inv(s) && ServicesSynchronised(s) && y in s.nodes && p in ServicePaths(s, y, v) && x in p.metric.hops
    ensures x in s.nodes && KnowsService(s, x, v)
    decreases |p.metric.hops|
  {
    var n, z := s.nodes[y], OverNode(p.metric);
    assert NodeOk(y, n, s.nodes.Keys, s.registered);
    assert ServiceOk(ServicePaths(s, y, v), y, v, n, s.nodes.Keys, s.registered);
    assert StoredOk(p, y, n, s.nodes.Keys);
    ServiceSettledOver(s, y, p.conn, v);
    if !Offers(s, z, v) {
      var q := BestFor(ServicePaths(s, z, v), y).value;
      assert p.metric.hops == q.metric.hops + [z];
      if x != z { ThroughKnowsService(s, z, x, v, q); }
    } else {
      assert p.metric.hops == [] + [z];
    }
  }

  /** A neighbour that knows a service passes it on, or already goes through here. */
  lemma ServiceSpreads(s: Net, x: NodeId, y: NodeId, v: Byte)
    requires Inv(s) && ServicesSynchronised(s) && LinkedTo(s, x, y) && KnowsService(s, y, v)
    ensures KnowsService(s, x, v)
  {
    var conn :| conn in s.nodes[x].conns && OverNode(s.nodes[x].conns[conn]) == y;
    ServiceSettledOver(s, x, conn, v);
    if !Tellable(s.nodes[y].router.registry, x, v) {
      ThroughKnowsService(s, y, x, v, ServicePaths(s, y, v)[0]);
    }
  }

  lemma {:induction false} ServiceWalkKnows(s: Net, trace: seq<NodeId>, v: Byte)
    requires Inv(s) && ServicesSynchronised(s) && ServiceWalk(s, trace, v)
    ensures KnowsService(s, trace[0], v)
  {
    if |trace| > 1 {
      ServiceWalkKnows(s, trace[1..], v);
      ServiceSpreads(s, trace[0], trace[1], v);
    }
  }

  /** A node of a settled network offers a service or has a path for it exactly when links lead to a node that offers it. */
  lemma KnowsServiceIff(s: Net, x: NodeId, v: Byte)
    requires Inv(s) && ServicesSynchronised(s) && x in s.nodes
    ensures KnowsService(s, x, v) <==> CanReachService(s, x, v)
  {
    if KnowsService(s, x, v) {
      var trace := KnownServiceReaches(s, x, v);
    }
    if CanReachService(s, x, v) {
      var trace :| ServiceWalk(s, trace, v) && trace[0] == x;
      ServiceWalkKnows(s, trace, v);
    }
  }
}
