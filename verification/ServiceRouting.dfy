/** Forwarding towards a service in a network whose registries have settled: it is loop free and ends at a node that
    offers the service. */
module ServiceRouting {
  import opened Identity
  import opened Paths
  import opened RouterModel
  import opened RouterRuns
  import opened Forwarding

  function ServicePaths(s: Net, x: NodeId, v: Byte): seq<Path>
    requires x in s.nodes
  {
    s.nodes[x].router.registry.remotes[v]
  }

  predicate Offers(s: Net, x: NodeId, v: Byte)
    requires x in s.nodes
  {
    v in s.nodes[x].router.registry.locals
  }

  /** Receiving the neighbour's current sync over `conn` would change no service list of `x`. */
  ghost predicate ServicesSettled(s: Net, x: NodeId, conn: ConnId)
    requires x in s.nodes && conn in s.nodes[x].conns
  {
    var link := s.nodes[x].conns[conn];
    var y := OverNode(link);
    y in s.nodes ==>
      var after := ApplySync(s.nodes[x].router, conn, link, CreateSync(s.nodes[y].router, x));
      forall v: Byte :: after.registry.remotes[v] == ServicePaths(s, x, v)
  }

  ghost predicate ServicesSynchronised(s: Net) {
    forall x, conn :: x in s.nodes && conn in s.nodes[x].conns ==> ServicesSettled(s, x, conn)
  }

  /** What a node keeps of a service sync: what the sender would tell it, longer by the link. */
  lemma ServiceTransfers(r: RegistryState, to: NodeId, link: Route, v: Byte)
    ensures var cached := Cached(ServicesAdvertised(r, to, 256), link);
      && (v in cached <==> Tellable(r, to, v))
      && (v in cached ==> cached[v] == Add(TellMetric(r, to, v), link))
  {
    var sync := ServicesAdvertised(r, to, 256);
    ServicesAdvertisedFacts(r, to, 256);
    CachedFacts(sync, link);
    if v in Cached(sync, link) {
      var k := CachedEntry(sync, link, v);
    }
  }

  /** What a settled service list holds over a neighbour: what the neighbour would tell, one link longer, and nothing else. */
  lemma ServiceSettledOver(s: Net, x: NodeId, conn: ConnId, v: Byte)
    requires Inv(s) && ServicesSynchronised(s) && x in s.nodes && conn in s.nodes[x].conns && OverNode(s.nodes[x].conns[conn]) in s.nodes
    ensures var link := s.nodes[x].conns[conn];
      var theirs, paths := s.nodes[OverNode(link)].router.registry, ServicePaths(s, x, v);
      && (Tellable(theirs, x, v) ==> Path(conn, Add(TellMetric(theirs, x, v), link)) in paths)
      && forall p :: p in paths && p.conn == conn ==> Tellable(theirs, x, v) && p.metric == Add(TellMetric(theirs, x, v), link)
  {
    var link, paths := s.nodes[x].conns[conn], ServicePaths(s, x, v);
    var theirs := s.nodes[OverNode(link)].router.registry;
    assert ServiceOk(paths, x, v, s.nodes[x], s.nodes.Keys, s.registered);
    assert ServicesSettled(s, x, conn);
    var cached := Cached(ServicesAdvertised(theirs, x, 256), link);
    ServiceTransfers(theirs, x, link, v);
    assert ServiceSlot(paths, conn, Lookup(cached, v)) == paths;
    if v in cached {
      SetPathFacts(paths, conn, cached[v]);
    } else {
      DelPathFacts(paths, conn);
    }
  }

  /** The neighbour of a stored service path offers the service itself or has a strictly better path. */
  lemma ServiceRelayIsBetter(s: Net, x: NodeId, v: Byte, p: Path)
    requires Inv(s) && ServicesSynchronised(s) && x in s.nodes && p in ServicePaths(s, x, v)
    ensures var y := OverNode(p.metric);
      && y in s.nodes
      && (Offers(s, y, v) || (ServicePaths(s, y, v) != [] && Score(ServicePaths(s, y, v)[0].metric) < Score(p.metric)))
  {
    var n, y := s.nodes[x], OverNode(p.metric);
    assert ServiceOk(ServicePaths(s, x, v), x, v, n, s.nodes.Keys, s.registered);
    assert StoredOk(p, x, n, s.nodes.Keys);
    ServiceSettledOver(s, x, p.conn, v);
    if !Offers(s, y, v) {
      var theirs := ServicePaths(s, y, v);
      var q := BestFor(theirs, x).value;
      ScoreGrows(q.metric, n.conns[p.conn]);
      assert ServiceOk(theirs, y, v, s.nodes[y], s.nodes.Keys, s.registered);
      HeadIsBest(theirs, q);
    }
  }

  /** How far a node is from a service: nothing at a node that offers it, else the score of its best path. */
  function ServiceRank(s: Net, x: NodeId, v: Byte): nat
    requires x in s.nodes
  {
    if Offers(s, x, v) then 0 else HeadScore(ServicePaths(s, x, v))
  }

  /** The nodes a message for service `v` visits: it stops where the service is, or where no path is known. */
  ghost function ServiceTrace(s: Net, x: NodeId, v: Byte): (trace: seq<NodeId>)
    requires Inv(s) && ServicesSynchronised(s) && x in s.nodes
    ensures trace != [] && trace[0] == x && forall y :: y in trace ==> y in s.nodes
    ensures forall k :: 0 < k < |trace| ==> ServiceRank(s, trace[k], v) < ServiceRank(s, x, v)
    ensures Distinct(trace)
    decreases ServiceRank(s, x, v)
  {
    match ServiceNext(s.nodes[x].router, v, {})
    case Some(Over(p)) =>
      ServiceRelayIsBetter(s, x, v, p);
      [x] + ServiceTrace(s, OverNode(p.metric), v)
    case _ => [x]
  }

  ghost function TraceEnd(s: Net, x: NodeId, v: Byte): NodeId
    requires Inv(s) && ServicesSynchronised(s) && x in s.nodes
    ensures TraceEnd(s, x, v) in s.nodes
  {
    var trace := ServiceTrace(s, x, v); trace[|trace| - 1]
  }

  lemma ServiceTraceNext(s: Net, x: NodeId, v: Byte, p: Path)
    requires Inv(s) && ServicesSynchronised(s) && x in s.nodes && !Offers(s, x, v) && ServicePaths(s, x, v) != [] && p == ServicePaths(s, x, v)[0]
    ensures OverNode(p.metric) in s.nodes && ServiceTrace(s, x, v) == [x] + ServiceTrace(s, OverNode(p.metric), v)
    ensures TraceEnd(s, x, v) == TraceEnd(s, OverNode(p.metric), v)
  {
    ServiceRelayIsBetter(s, x, v, p);
    assert ServiceNext(s.nodes[x].router, v, {}) == Some(Over(p));
  }

  /** Once under way a message ends at a node that offers the service. */
  lemma {:induction false} TraceEndsAtService(s: Net, x: NodeId, v: Byte)
    requires Inv(s) && ServicesSynchronised(s) && x in s.nodes
    requires Offers(s, x, v) || ServicePaths(s, x, v) != []
    ensures Offers(s, TraceEnd(s, x, v), v)
    decreases ServiceRank(s, x, v)
  {
    if !Offers(s, x, v) {
      var p := ServicePaths(s, x, v)[0];
      ServiceRelayIsBetter(s, x, v, p);
      ServiceTraceNext(s, x, v, p);
      TraceEndsAtService(s, OverNode(p.metric), v);
    }
  }

  /** It ends at a node that offers the service exactly when the first node offers it or knows a path. */
  lemma EndOffersIff(s: Net, x: NodeId, v: Byte)
    requires Inv(s) && ServicesSynchronised(s) && x in s.nodes
    ensures Offers(s, TraceEnd(s, x, v), v) <==> Offers(s, x, v) || ServicePaths(s, x, v) != []
  {
    if Offers(s, x, v) || ServicePaths(s, x, v) != [] {
      TraceEndsAtService(s, x, v);
    } else {
      assert ServiceTrace(s, x, v) == [x];
    }
  }

  /** Loop-free service forwarding: in every reachable state with settled registries, following `service_next` visits no
      node twice, and ends at a node that offers the service exactly when the first node offers it or knows a path. */
  lemma ServiceForwardingIsLoopFree(ids: set<NodeId>, actions: seq<Action>, s: Net, x: NodeId, v: Byte)
    requires s == Run(Initial(ids), actions) && ServicesSynchronised(s) && x in s.nodes
    ensures Inv(s) && s.nodes.Keys == ids
    ensures var trace := ServiceTrace(s, x, v);
      && Distinct(trace) && |trace| <= |ids|
      && (Offers(s, trace[|trace| - 1], v) <==> Offers(s, x, v) || ServicePaths(s, x, v) != [])
  {
    EveryRunIsSafe(ids, actions);
    var trace := ServiceTrace(s, x, v);
    DistinctFits(trace, ids);
    EndOffersIff(s, x, v);
  }
}
