/** What following the routers' decisions does in a network whose tables have settled:
    unicast forwarding is loop free, and key routing meets at the XOR-nearest node. */
module Forwarding {
  import opened Identity
  import opened Sorting
  import opened Paths
  import opened RouterModel
  import opened RouterRuns

  function Slot(s: Net, x: NodeId, l: LayerNo, i: Byte): seq<Path>
    requires x in s.nodes
  {
    s.nodes[x].router.tables[l].dests[i]
  }

  /** Receiving the neighbour's current sync over `conn` would change no table slot of `x`. */
  ghost predicate Settled(s: Net, x: NodeId, conn: ConnId)
    requires x in s.nodes && conn in s.nodes[x].conns
  {
    var link := s.nodes[x].conns[conn];
    var y := OverNode(link);
    y in s.nodes ==>
      var after := ApplySync(s.nodes[x].router, conn, link, CreateSync(s.nodes[y].router, x));
      forall l: LayerNo, i: Byte :: after.tables[l].dests[i] == Slot(s, x, l, i)
  }

  ghost predicate Synchronised(s: Net) {
    forall x, conn :: x in s.nodes && conn in s.nodes[x].conns ==> Settled(s, x, conn)
  }

  /** Every node has a route towards every other. */
  ghost predicate Complete(s: Net) {
    forall x, d :: x in s.nodes && d in s.nodes && x != d ==> SlotFor(s.nodes[x].router, d) != []
  }

  /** The neighbour a stored path runs over is either already inside the slot's prefix,
      or itself holds a strictly better path for the same slot. */
  lemma RelayIsBetter(s: Net, x: NodeId, l: LayerNo, i: Byte, p: Path)
    requires Inv(s) && Synchronised(s) && x in s.nodes && p in Slot(s, x, l, i)
    ensures var y := OverNode(p.metric);
      && y in s.nodes && SharesFrom(y, x, l + 1)
      && (Layer(y, l) == i || (Slot(s, y, l, i) != [] && Score(Slot(s, y, l, i)[0].metric) < Score(p.metric)))
  {
    var n, y := s.nodes[x], OverNode(p.metric);
    var slot := Slot(s, x, l, i);
    assert SlotOk(slot, x, l, i, n, s.nodes.Keys);
    assert StoredOk(p, x, n, s.nodes.Keys) && FiledOk(DestNode(p.metric), y, x, l, i);
    var conn, link := p.conn, n.conns[p.conn];
    assert Settled(s, x, conn);
    var sync := CreateSync(s.nodes[y].router, x);
    SharesFromIff(y, x, l + 1);
    var theirs := s.nodes[y].router.tables[l].dests;
    assert sync.tables[l] == Some(Advertised(theirs, Layer(y, l), x, 256));
    var cached := Cached(sync.tables[l].value, link);
    assert SyncedSlot(slot, i, x, l, conn, link, cached) == ApplySync(n.router, conn, link, sync).tables[l].dests[i] == slot;
    SyncTransfers(theirs, Layer(y, l), x, link, i);
    if i in cached {
      var q := BestFor(theirs[i], x).value;
      SetPathFacts(slot, conn, cached[i]);
      assert p == Path(conn, cached[i]);
      ScoreGrows(q.metric, link);
      assert SlotOk(theirs[i], y, l, i, s.nodes[y], s.nodes.Keys);
      HeadIsBest(theirs[i], q);
    } else if Layer(y, l) != i {
      DelPathFacts(slot, conn);
      assert false;
    }
  }

  // ---- unicast ------------------------------------------------------------------------------

  function HeadScore(paths: seq<Path>): nat {
    if paths == [] then 0 else Score(paths[0].metric)
  }

  /** Progress towards `dest`: the layer still to be resolved, then the score of the best path. */
  function Progress(s: Net, x: NodeId, dest: NodeId): (nat, nat)
    requires x in s.nodes
  {
    (EqUtilLayer(x, dest), HeadScore(SlotFor(s.nodes[x].router, dest)))
  }

  predicate Less(a: (nat, nat), b: (nat, nat)) {
    a.0 < b.0 || (a.0 == b.0 && a.1 < b.1)
  }

  lemma SlotForLayer(r: Router, dest: NodeId, l: LayerNo)
    requires SharesFrom(r.node, dest, l + 1) && Layer(r.node, l) != Layer(dest, l)
    ensures EqUtilLayer(r.node, dest) == l + 1 && SlotFor(r, dest) == r.tables[l].dests[Layer(dest, l)]
  {
  }

  lemma SharesTransitive(a: NodeId, b: NodeId, c: NodeId, l: nat)
    requires SharesFrom(a, b, l) && SharesFrom(b, c, l)
    ensures SharesFrom(a, c, l)
  {
  }

  lemma NextHopIsCloser(s: Net, x: NodeId, dest: NodeId)
    requires Inv(s) && Synchronised(s) && x in s.nodes
    requires Next(s.nodes[x].router, dest, {}).Some?
    ensures var y := OverNode(Next(s.nodes[x].router, dest, {}).value.metric);
      y in s.nodes && Less(Progress(s, y, dest), Progress(s, x, dest))
  {
    var l := EqUtilLayer(x, dest) - 1;
    assert s.nodes[x].router.node == x;
    SharesFromIff(x, dest, l + 1);
    var i := Layer(dest, l);
    var p := Slot(s, x, l, i)[0];
    RelayIsBetter(s, x, l, i, p);
    var y := OverNode(p.metric);
    SharesTransitive(y, x, dest, l + 1);
    if Layer(y, l) == i {
      SharesFromIff(y, dest, l);
    } else {
      assert s.nodes[y].router.node == y;
      SlotForLayer(s.nodes[y].router, dest, l);
    }
  }

  /** `trace` follows `next` from node to node until a node without a route. */
  ghost predicate Follows(s: Net, trace: seq<NodeId>, dest: NodeId) {
    && trace != [] && trace[0] in s.nodes
    && match Next(s.nodes[trace[0]].router, dest, {})
       case None => |trace| == 1
       case Some(p) => |trace| > 1 && trace[1] == OverNode(p.metric) && Follows(s, trace[1..], dest)
  }

  /** The nodes a packet for `dest` visits from `x` on; defined because every hop makes progress. */
  ghost function Forward(s: Net, x: NodeId, dest: NodeId): (trace: seq<NodeId>)
    requires Inv(s) && Synchronised(s) && x in s.nodes
    ensures trace != [] && trace[0] == x && Follows(s, trace, dest)
    decreases EqUtilLayer(x, dest), HeadScore(SlotFor(s.nodes[x].router, dest))
  {
    match Next(s.nodes[x].router, dest, {})
    case None => [x]
    case Some(p) =>
      NextHopIsCloser(s, x, dest);
      var rest := Forward(s, OverNode(p.metric), dest);
      assert ([x] + rest)[1..] == rest;
      [x] + rest
  }

  lemma {:induction false} FollowsFacts(s: Net, trace: seq<NodeId>, dest: NodeId)
    requires Follows(s, trace, dest)
    ensures forall y :: y in trace ==> y in s.nodes
    ensures SlotFor(s.nodes[trace[|trace| - 1]].router, dest) == []
  {
    if |trace| > 1 {
      FollowsFacts(s, trace[1..], dest);
    }
  }

  lemma {:induction false} LaterHopsAreCloser(s: Net, x: NodeId, dest: NodeId, k: nat)
    requires Inv(s) && Synchronised(s) && x in s.nodes
    requires 0 < k < |Forward(s, x, dest)|
    ensures Forward(s, x, dest)[k] in s.nodes
    ensures Less(Progress(s, Forward(s, x, dest)[k], dest), Progress(s, x, dest))
    decreases EqUtilLayer(x, dest), HeadScore(SlotFor(s.nodes[x].router, dest))
  {
    NextHopIsCloser(s, x, dest);
    var y := OverNode(Next(s.nodes[x].router, dest, {}).value.metric);
    assert Forward(s, x, dest) == [x] + Forward(s, y, dest);
    if k > 1 {
      LaterHopsAreCloser(s, y, dest, k - 1);
    }
  }

  lemma {:induction false} TraceIsDistinct(s: Net, x: NodeId, dest: NodeId)
    requires Inv(s) && Synchronised(s) && x in s.nodes
    ensures Distinct(Forward(s, x, dest))
    decreases EqUtilLayer(x, dest), HeadScore(SlotFor(s.nodes[x].router, dest))
  {
    var trace := Forward(s, x, dest);
    if Next(s.nodes[x].router, dest, {}).Some? {
      NextHopIsCloser(s, x, dest);
      var y := OverNode(Next(s.nodes[x].router, dest, {}).value.metric);
      TraceIsDistinct(s, y, dest);
      assert trace == [x] + Forward(s, y, dest);
      forall k | 0 < k < |trace| ensures trace[k] != x {
        LaterHopsAreCloser(s, x, dest, k);
      }
    }
  }

  lemma TraceEnds(s: Net, x: NodeId, dest: NodeId)
    requires Inv(s) && Synchronised(s) && x in s.nodes && Complete(s) && dest in s.nodes
    ensures var trace := Forward(s, x, dest); trace[|trace| - 1] == dest
  {
    var trace := Forward(s, x, dest);
    FollowsFacts(s, trace, dest);
    assert trace[|trace| - 1] in trace;
  }

  lemma TraceFits(s: Net, x: NodeId, dest: NodeId)
    requires Inv(s) && Synchronised(s) && x in s.nodes
    ensures |Forward(s, x, dest)| <= |s.nodes|
  {
    TraceIsDistinct(s, x, dest);
    FollowsFacts(s, Forward(s, x, dest), dest);
    DistinctFits(Forward(s, x, dest), s.nodes.Keys);
  }

  lemma LoopFree(s: Net, x: NodeId, dest: NodeId)
    requires Inv(s) && Synchronised(s) && x in s.nodes
    ensures Distinct(Forward(s, x, dest)) && |Forward(s, x, dest)| <= |s.nodes|
    ensures Complete(s) && dest in s.nodes ==> Forward(s, x, dest)[|Forward(s, x, dest)| - 1] == dest
  {
    TraceIsDistinct(s, x, dest);
    TraceFits(s, x, dest);
    if Complete(s) && dest in s.nodes { TraceEnds(s, x, dest); }
  }

  /** Loop-free forwarding: in every reachable synchronised state, following `next` towards any destination
      visits no node twice and stops where there is no route; with complete tables it stops at the destination. */
  lemma ForwardingIsLoopFree(ids: set<NodeId>, actions: seq<Action>, s: Net, x: NodeId, dest: NodeId)
    requires s == Run(Initial(ids), actions) && Synchronised(s) && x in s.nodes
    ensures Inv(s) && s.nodes.Keys == ids
    ensures Distinct(Forward(s, x, dest)) && |Forward(s, x, dest)| <= |ids|
    ensures Complete(s) && dest in ids ==> Forward(s, x, dest)[|Forward(s, x, dest)| - 1] == dest
  {
    EveryRunIsSafe(ids, actions);
    LoopFree(s, x, dest);
  }

  // ---- keys ---------------------------------------------------------------------------------

  /** A layer improves on `r` when some filled slot is nearer to the key than the node's own index. */
  ghost predicate NoBetter(r: Router, key: NodeId, l: LayerNo) {
    forall i: Byte :: r.tables[l].dests[i] != [] ==> Xor8(Layer(r.node, l), Layer(key, l)) <= Xor8(i, Layer(key, l))
  }

  /** `c` is found at a filled slot nearer than the node's own index, nearest of its layer, with no better layer above. */
  ghost predicate Chosen(r: Router, key: NodeId, c: Closest, n: nat) {
    var l, i := c.layer, c.index;
    && l < n
    && r.tables[l].dests[i] != [] && r.tables[l].dests[i][0] == c.path
    && Xor8(i, Layer(key, l)) < Xor8(Layer(r.node, l), Layer(key, l))
    && (forall j: Byte :: r.tables[l].dests[j] != [] ==> Xor8(i, Layer(key, l)) <= Xor8(j, Layer(key, l)))
    && (forall k: LayerNo :: l < k < n ==> NoBetter(r, key, k))
  }

  lemma LayerFacts(dests: Dests, key: Byte)
    ensures var best := ClosestFor(dests, key, {}, 256);
      && (best.None? ==> forall j: Byte :: dests[j] == [])
      && (best.Some? ==>
        && dests[best.value.0] != [] && dests[best.value.0][0] == best.value.1
        && forall j: Byte :: dests[j] != [] ==> Xor8(best.value.0, key) <= Xor8(j, key))
  {
  }

  lemma LayerWithoutImprovement(r: Router, key: NodeId, l: LayerNo)
    requires !Improves(r, key, {}, l)
    ensures NoBetter(r, key, l)
  {
    LayerFacts(r.tables[l].dests, Layer(key, l));
    Xor8Facts(Layer(r.node, l), Layer(key, l), 0);
  }

  lemma LayerWithImprovement(r: Router, key: NodeId, l: LayerNo)
    requires Improves(r, key, {}, l)
    ensures Chosen(r, key, LayerBest(r, key, {}, l), l + 1)
  {
    LayerFacts(r.tables[l].dests, Layer(key, l));
    Xor8Facts(Layer(r.node, l), Layer(key, l), 0);
  }

  ghost predicate FoundBelow(r: Router, key: NodeId, found: Option<Closest>, n: nat) {
    match found
    case None => forall l: LayerNo :: l < n ==> NoBetter(r, key, l)
    case Some(c) => Chosen(r, key, c, n)
  }

  lemma OneLayerMore(r: Router, key: NodeId, found: Option<Closest>, n: nat)
    requires n < 4 && FoundBelow(r, key, found, n) && NoBetter(r, key, n)
    ensures FoundBelow(r, key, found, n + 1)
  {
  }

  lemma {:induction false} ClosestBelowFacts(r: Router, key: NodeId, n: nat)
    requires n <= 4
    ensures FoundBelow(r, key, ClosestBelow(r, key, {}, n), n)
  {
    if n > 0 {
      if Improves(r, key, {}, n - 1) {
        LayerWithImprovement(r, key, n - 1);
      } else {
        LayerWithoutImprovement(r, key, n - 1);
        ClosestBelowFacts(r, key, n - 1);
        OneLayerMore(r, key, ClosestBelow(r, key, {}, n - 1), n - 1);
      }
    }
  }

  lemma ChosenUnique(r: Router, key: NodeId, c: Closest, d: Closest)
    requires Chosen(r, key, c, 4) && Chosen(r, key, d, 4)
    ensures c == d
  {
    var below, above := NoBetter(r, key, c.layer), NoBetter(r, key, d.layer);
    Xor8Facts(c.index, d.index, Layer(key, c.layer));
  }

  /** The converse: these facts determine the lookup. */
  lemma ClosestFound(r: Router, key: NodeId, c: Closest)
    requires Chosen(r, key, c, 4)
    ensures ClosestNode(r, key, {}) == Some(c)
  {
    ClosestBelowFacts(r, key, 4);
    var found := ClosestNode(r, key, {});
    var below := NoBetter(r, key, c.layer);
    if found.Some? { ChosenUnique(r, key, found.value, c); }
  }

  /** `d` is a destination some table path of `x` leads to. */
  ghost predicate Known(s: Net, x: NodeId, d: NodeId)
    requires x in s.nodes
  {
    exists l: LayerNo, i: Byte, k :: 0 <= k < |Slot(s, x, l, i)| && DestNode(Slot(s, x, l, i)[k].metric) == d
  }

  /** A filled slot against the node itself: their first difference is the slot's layer. */
  lemma SlotVersusSelf(s: Net, x: NodeId, l: LayerNo, i: Byte, p: Path, key: NodeId)
    requires Inv(s) && x in s.nodes && p in Slot(s, x, l, i)
    ensures var d := DestNode(p.metric);
      && d != x && EqUtilLayer(d, x) == l + 1 && Layer(d, l) == i && SharesFrom(d, x, l + 1) && d in s.nodes
      && (Distance(d, key) < Distance(x, key) <==> Xor8(i, Layer(key, l)) < Xor8(Layer(x, l), Layer(key, l)))
      && Xor8(i, Layer(key, l)) != Xor8(Layer(x, l), Layer(key, l))
  {
    var d := DestNode(p.metric);
    assert SlotOk(Slot(s, x, l, i), x, l, i, s.nodes[x], s.nodes.Keys);
    assert StoredOk(p, x, s.nodes[x], s.nodes.Keys) && d in p.metric.hops;
    SharesFromIff(d, x, l + 1);
    SharesFromIff(d, x, l);
    DistanceIsLexicographic(d, x, key);
    Xor8Facts(i, Layer(x, l), Layer(key, l));
  }

  /** Key routing, negative answer: a node keeps a key exactly when it is nearer than everything it knows. */
  lemma KeepsKeyIffNearestKnown(s: Net, x: NodeId, key: NodeId)
    requires Inv(s) && x in s.nodes
    ensures ClosestNode(s.nodes[x].router, key, {}).None? <==>
      forall d: NodeId :: Known(s, x, d) ==> Distance(x, key) < Distance(d, key)
  {
    var r := s.nodes[x].router;
    assert r.node == x;
    ClosestBelowFacts(r, key, 4);
    var c := ClosestNode(r, key, {});
    if c.None? {
      forall d: NodeId | Known(s, x, d) ensures Distance(x, key) < Distance(d, key) {
        var l: LayerNo, i: Byte, k :| 0 <= k < |Slot(s, x, l, i)| && DestNode(Slot(s, x, l, i)[k].metric) == d;
        SlotVersusSelf(s, x, l, i, Slot(s, x, l, i)[k], key);
        assert NoBetter(r, key, l);
        DistanceIsLexicographic(d, x, key);
      }
    } else {
      var l, i := c.value.layer, c.value.index;
      var d := DestNode(Slot(s, x, l, i)[0].metric);
      assert Known(s, x, d);
      SlotVersusSelf(s, x, l, i, Slot(s, x, l, i)[0], key);
    }
  }

  /** The chosen slot against any other filled slot, read down to the chosen layer. */
  lemma ChosenVersusSlot(s: Net, x: NodeId, key: NodeId, c: Closest, k: LayerNo, i: Byte, p: Path)
    requires Inv(s) && x in s.nodes && Chosen(s.nodes[x].router, key, c, 4) && p in Slot(s, x, k, i)
    ensures DistanceAbove(DestNode(c.path.metric), key, c.layer) <= DistanceAbove(DestNode(p.metric), key, c.layer)
  {
    var chosen, d, l := DestNode(c.path.metric), DestNode(p.metric), c.layer;
    assert s.nodes[x].router.node == x;
    SlotVersusSelf(s, x, l, c.index, c.path, key);
    SlotVersusSelf(s, x, k, i, p, key);
    FirstDifferenceDecides(chosen, x, key, l, l);
    if k < l {
      assert SharesFrom(d, x, l);
      SharedPrefixSameDistance(d, x, key, l);
    } else if k > l {
      assert NoBetter(s.nodes[x].router, key, k);
      FirstDifferenceDecides(x, d, key, k, l);
    } else if i == c.index {
      assert SharesFrom(chosen, d, l);
      SharedPrefixSameDistance(chosen, d, key, l);
    } else {
      Xor8Facts(c.index, i, Layer(key, l));
      FirstDifferenceDecides(chosen, d, key, l, l);
    }
  }

  /** Key routing, positive answer: the chosen destination is strictly nearer than the node itself,
      and read down to the chosen layer no known destination is nearer. */
  lemma ChosenIsNearest(s: Net, x: NodeId, key: NodeId, c: Closest, d: NodeId)
    requires Inv(s) && x in s.nodes
    requires ClosestNode(s.nodes[x].router, key, {}) == Some(c) && Known(s, x, d)
    ensures Distance(DestNode(c.path.metric), key) < Distance(x, key)
    ensures DistanceAbove(DestNode(c.path.metric), key, c.layer) <= DistanceAbove(d, key, c.layer)
  {
    ClosestBelowFacts(s.nodes[x].router, key, 4);
    assert s.nodes[x].router.node == x;
    SlotVersusSelf(s, x, c.layer, c.index, c.path, key);
    var k: LayerNo, i: Byte, j :| 0 <= j < |Slot(s, x, k, i)| && DestNode(Slot(s, x, k, i)[j].metric) == d;
    ChosenVersusSlot(s, x, key, c, k, i, Slot(s, x, k, i)[j]);
  }

  // ---- the root of a key --------------------------------------------------------------------

  ghost predicate Nearest(s: Net, x: NodeId, key: NodeId) {
    x in s.nodes && forall d :: d in s.nodes && d != x ==> Distance(x, key) < Distance(d, key)
  }

  lemma SlotOfOther(s: Net, x: NodeId, d: NodeId, l: LayerNo)
    requires Inv(s) && Complete(s) && x in s.nodes && d in s.nodes
    requires SharesFrom(x, d, l + 1) && Layer(x, l) != Layer(d, l)
    ensures Slot(s, x, l, Layer(d, l)) != []
  {
    assert s.nodes[x].router.node == x;
    SlotForLayer(s.nodes[x].router, d, l);
  }

  /** With complete tables the nodes that keep a key are exactly the XOR-nearest ones. */
  lemma KeepsKeyIffNearest(s: Net, x: NodeId, key: NodeId)
    requires Inv(s) && Complete(s) && x in s.nodes
    ensures ClosestNode(s.nodes[x].router, key, {}).None? <==> Nearest(s, x, key)
  {
    var r := s.nodes[x].router;
    assert r.node == x;
    ClosestBelowFacts(r, key, 4);
    var c := ClosestNode(r, key, {});
    if c.None? {
      forall d | d in s.nodes && d != x ensures Distance(x, key) < Distance(d, key) {
        DistanceIsLexicographic(x, d, key);
        EqUtilLayerMeaning(x, d);
        var l := EqUtilLayer(x, d) - 1;
        SlotOfOther(s, x, d, l);
        assert NoBetter(r, key, l);
        Xor8Facts(Layer(x, l), Layer(d, l), Layer(key, l));
      }
    } else {
      SlotVersusSelf(s, x, c.value.layer, c.value.index, c.value.path, key);
    }
  }

  /** Nodes that agree from layer `l` up see the same filled indices on layer `l`. */
  lemma SameSlots(s: Net, x: NodeId, y: NodeId, l: LayerNo, j: Byte)
    requires Inv(s) && Complete(s) && x in s.nodes && y in s.nodes
    requires SharesFrom(x, y, l + 1) && Slot(s, x, l, j) != [] && j != Layer(y, l)
    ensures Slot(s, y, l, j) != []
  {
    var p := Slot(s, x, l, j)[0];
    SlotVersusSelf(s, x, l, j, p, x);
    SlotOfOther(s, y, DestNode(p.metric), l);
  }

  /** Index `i` is nearest to the key among the filled ones of layer `l`. */
  ghost predicate NearestIndex(r: Router, key: NodeId, l: LayerNo, i: Byte) {
    forall j: Byte :: r.tables[l].dests[j] != [] ==> Xor8(i, Layer(key, l)) <= Xor8(j, Layer(key, l))
  }

  /** A layer that improves on neither of two nodes which agree from there up. */
  lemma NothingBetterThere(s: Net, x: NodeId, y: NodeId, key: NodeId, k: LayerNo)
    requires Inv(s) && Complete(s) && x in s.nodes && y in s.nodes && SharesFrom(x, y, k)
    requires NoBetter(s.nodes[x].router, key, k)
    ensures NoBetter(s.nodes[y].router, key, k)
  {
    var r, ry := s.nodes[x].router, s.nodes[y].router;
    assert r.node == x && ry.node == y;
    forall j: Byte | ry.tables[k].dests[j] != [] ensures Xor8(Layer(y, k), Layer(key, k)) <= Xor8(j, Layer(key, k)) {
      if j != Layer(x, k) {
        SameSlots(s, y, x, k, j);
        assert r.tables[k].dests[j] != [];
      }
    }
  }

  /** What is nearest on a layer for a node is so for every node that agrees with it above. */
  lemma NearestThere(s: Net, x: NodeId, y: NodeId, key: NodeId, l: LayerNo, i: Byte)
    requires Inv(s) && Complete(s) && x in s.nodes && y in s.nodes && SharesFrom(x, y, l + 1)
    requires NearestIndex(s.nodes[x].router, key, l, i) && Xor8(i, Layer(key, l)) <= Xor8(Layer(x, l), Layer(key, l))
    ensures NearestIndex(s.nodes[y].router, key, l, i)
  {
    var r, ry := s.nodes[x].router, s.nodes[y].router;
    forall j: Byte | ry.tables[l].dests[j] != [] ensures Xor8(i, Layer(key, l)) <= Xor8(j, Layer(key, l)) {
      if j != Layer(x, l) {
        SameSlots(s, y, x, l, j);
        assert r.tables[l].dests[j] != [];
      }
    }
  }

  ghost predicate NothingAbove(r: Router, key: NodeId, l: LayerNo) {
    forall k: LayerNo :: l < k ==> NoBetter(r, key, k)
  }

  /** At a node that has the chosen index itself, only lower layers can improve. */
  lemma LowerLayerLeft(r: Router, key: NodeId, l: LayerNo)
    requires NothingAbove(r, key, l) && NearestIndex(r, key, l, Layer(r.node, l))
    ensures var c := ClosestNode(r, key, {}); c.None? || c.value.layer < l
  {
    ClosestBelowFacts(r, key, 4);
    assert NoBetter(r, key, l);
    var c := ClosestNode(r, key, {});
    if c.Some? { var above := NoBetter(r, key, c.value.layer); }
  }

  /** At a relay the same slot is chosen again. */
  lemma SameSlotChosen(s: Net, x: NodeId, y: NodeId, key: NodeId, l: LayerNo, i: Byte)
    requires Inv(s) && Complete(s) && x in s.nodes && y in s.nodes && SharesFrom(x, y, l + 1)
    requires NearestIndex(s.nodes[x].router, key, l, i) && Xor8(i, Layer(key, l)) < Xor8(Layer(x, l), Layer(key, l))
    requires var ry := s.nodes[y].router; NothingAbove(ry, key, l) && NearestIndex(ry, key, l, i)
    requires Layer(y, l) != i && Slot(s, y, l, i) != []
    ensures ClosestNode(s.nodes[y].router, key, {}) == Some(Closest(Slot(s, y, l, i)[0], l, i))
  {
    var r, ry := s.nodes[x].router, s.nodes[y].router;
    assert ry.node == y;
    if Layer(y, l) != Layer(x, l) {
      SlotOfOther(s, x, y, l);
      assert r.tables[l].dests[Layer(y, l)] != [];
      Xor8Facts(i, Layer(y, l), Layer(key, l));
    }
    ClosestFound(ry, key, Closest(Slot(s, y, l, i)[0], l, i));
  }

  /** One hop of key routing: the chosen slot stays the same with a better path, or a lower layer is left to resolve. */
  lemma KeyHopIsCloser(s: Net, x: NodeId, key: NodeId, c: Closest)
    requires Inv(s) && Synchronised(s) && Complete(s) && x in s.nodes
    requires ClosestNode(s.nodes[x].router, key, {}) == Some(c)
    ensures OverNode(c.path.metric) in s.nodes
    ensures var c' := ClosestNode(s.nodes[OverNode(c.path.metric)].router, key, {});
      c'.None? || c'.value.layer < c.layer
      || (c'.value.layer == c.layer && c'.value.index == c.index && Score(c'.value.path.metric) < Score(c.path.metric))
  {
    var r, l, i := s.nodes[x].router, c.layer, c.index;
    ClosestBelowFacts(r, key, 4);
    assert r.node == x;
    RelayIsBetter(s, x, l, i, c.path);
    var y := OverNode(c.path.metric);
    assert s.nodes[y].router.node == y;
    HopSeesTheSame(s, x, y, key, c);
    if Layer(y, l) == i {
      LowerLayerLeft(s.nodes[y].router, key, l);
    } else {
      SameSlotChosen(s, x, y, key, l, i);
    }
  }

  lemma HopSeesTheSame(s: Net, x: NodeId, y: NodeId, key: NodeId, c: Closest)
    requires Inv(s) && Complete(s) && x in s.nodes && y in s.nodes && SharesFrom(y, x, c.layer + 1)
    requires Chosen(s.nodes[x].router, key, c, 4)
    ensures NothingAbove(s.nodes[y].router, key, c.layer) && NearestIndex(s.nodes[y].router, key, c.layer, c.index)
  {
    assert s.nodes[x].router.node == x;
    forall k: LayerNo | c.layer < k ensures NoBetter(s.nodes[y].router, key, k) {
      assert NoBetter(s.nodes[x].router, key, k);
      NothingBetterThere(s, x, y, key, k);
    }
    NearestThere(s, x, y, key, c.layer, c.index);
  }

  function KeyProgress(s: Net, x: NodeId, key: NodeId): (nat, nat)
    requires x in s.nodes
  {
    match ClosestNode(s.nodes[x].router, key, {})
    case None => (0, 0)
    case Some(c) => (c.layer + 1, Score(c.path.metric))
  }

  /** Where a message for `key` ends up when every node forwards it over its chosen path's next hop. */
  ghost function RouteKey(s: Net, x: NodeId, key: NodeId): (root: NodeId)
    requires Inv(s) && Synchronised(s) && Complete(s) && x in s.nodes
    ensures root in s.nodes && ClosestNode(s.nodes[root].router, key, {}).None?
    decreases KeyProgress(s, x, key).0, KeyProgress(s, x, key).1
  {
    match ClosestNode(s.nodes[x].router, key, {})
    case None => x
    case Some(c) =>
      KeyHopIsCloser(s, x, key, c);
      RouteKey(s, OverNode(c.path.metric), key)
  }

  lemma OneRoot(s: Net, x: NodeId, y: NodeId, key: NodeId)
    requires Inv(s) && Synchronised(s) && Complete(s) && x in s.nodes && y in s.nodes
    ensures RouteKey(s, x, key) == RouteKey(s, y, key) && Nearest(s, RouteKey(s, x, key), key)
    ensures ClosestNode(s.nodes[y].router, key, {}).None? <==> y == RouteKey(s, x, key)
  {
    KeepsKeyIffNearest(s, RouteKey(s, x, key), key);
    KeepsKeyIffNearest(s, RouteKey(s, y, key), key);
    KeepsKeyIffNearest(s, y, key);
  }

  /** Unique root: in every reachable synchronised state with complete tables, hop-by-hop key routing terminates
      at one and the same node from everywhere, the XOR-nearest of all, and only that node keeps the key. */
  lemma KeyRoutingMeetsAtRoot(ids: set<NodeId>, actions: seq<Action>, s: Net, x: NodeId, y: NodeId, key: NodeId)
    requires s == Run(Initial(ids), actions) && Synchronised(s) && Complete(s) && x in s.nodes && y in s.nodes
    ensures Inv(s)
    ensures RouteKey(s, x, key) == RouteKey(s, y, key) && Nearest(s, RouteKey(s, x, key), key)
    ensures ClosestNode(s.nodes[y].router, key, {}).None? <==> y == RouteKey(s, x, key)
  {
    EveryRunIsSafe(ids, actions);
    OneRoot(s, x, y, key);
  }

  /** Following the chosen destinations instead of the next hops reaches the same node. */
  ghost function ChaseKey(s: Net, x: NodeId, key: NodeId): (root: NodeId)
    requires Inv(s) && x in s.nodes
    ensures root in s.nodes && ClosestNode(s.nodes[root].router, key, {}).None?
    decreases Distance(x, key)
  {
    match ClosestNode(s.nodes[x].router, key, {})
    case None => x
    case Some(c) =>
      var d := DestNode(c.path.metric);
      ClosestBelowFacts(s.nodes[x].router, key, 4);
      assert s.nodes[x].router.node == x;
      SlotVersusSelf(s, x, c.layer, c.index, c.path, key);
      ChaseKey(s, d, key)
  }

  lemma ChaseMeetsAtRoot(s: Net, x: NodeId, key: NodeId)
    requires Inv(s) && Complete(s) && x in s.nodes
    ensures Nearest(s, ChaseKey(s, x, key), key)
  {
    KeepsKeyIffNearest(s, ChaseKey(s, x, key), key);
  }

  // ---- lookups around excluded neighbours ---------------------------------------------------

  /** A lookup takes the least score among the paths of the destination's slot that avoid the excluded neighbours, and finds
      nothing exactly when there is none; the slot is that of the layer on which the destination first differs. */
  lemma NextAvoids(r: Router, dest: NodeId, excepts: set<NodeId>, l: LayerNo, q: Path)
    requires EqUtilLayer(r.node, dest) == l + 1
    requires var slot := r.tables[l].dests[Layer(dest, l)]; SortedBy(slot, PathScore) && q in slot && OverNode(q.metric) !in excepts
    ensures var p := Next(r, dest, excepts);
      p.Some? && p.value in r.tables[l].dests[Layer(dest, l)] && OverNode(p.value.metric) !in excepts && Score(p.value.metric) <= Score(q.metric)
  {
    NextPathIsBest(r.tables[l].dests[Layer(dest, l)], excepts, q);
  }

  lemma NextMisses(r: Router, dest: NodeId, excepts: set<NodeId>)
    ensures Next(r, dest, excepts).None? <==>
      dest == r.node || exists l: LayerNo :: EqUtilLayer(r.node, dest) == l + 1 && forall q :: q in r.tables[l].dests[Layer(dest, l)] ==> OverNode(q.metric) in excepts
  {
    EqUtilLayerMeaning(r.node, dest);
    var e := EqUtilLayer(r.node, dest);
    if e > 0 {
      var l: LayerNo := e - 1;
      assert EqUtilLayer(r.node, dest) == l + 1;
    }
  }

  /** A service lookup stays here exactly when the service is local; else it takes the least score among the allowed paths, and
      finds nothing exactly when there is none. */
  lemma ServiceNextAvoids(r: Router, v: Byte, excepts: set<NodeId>)
    requires SortedBy(r.registry.remotes[v], PathScore)
    ensures var d := ServiceNext(r, v, excepts);
      && (d == Some(Here) <==> v in r.registry.locals)
      && (d == None <==> v !in r.registry.locals && forall q :: q in r.registry.remotes[v] ==> OverNode(q.metric) in excepts)
      && (d.Some? && d.value.Over? ==>
          && d.value.path in r.registry.remotes[v] && OverNode(d.value.path.metric) !in excepts
          && forall q :: q in r.registry.remotes[v] && OverNode(q.metric) !in excepts ==> Score(d.value.path.metric) <= Score(q.metric))
  {
    forall q | q in r.registry.remotes[v] && OverNode(q.metric) !in excepts
      ensures NextPath(r.registry.remotes[v], excepts).Some? && Score(NextPath(r.registry.remotes[v], excepts).value.metric) <= Score(q.metric)
    {
      NextPathIsBest(r.registry.remotes[v], excepts, q);
    }
  }

  /** No slot of layer `l` with an allowed path is nearer to the key than the node's own index. */
  ghost predicate NoneNearer(r: Router, key: NodeId, excepts: set<NodeId>, l: LayerNo) {
    forall i: Byte :: NextPath(r.tables[l].dests[i], excepts).Some? ==> Xor8(Layer(r.node, l), Layer(key, l)) <= Xor8(i, Layer(key, l))
  }

  /** `c` is the best allowed path of the nearest allowed slot of its layer, nearer than the node's own index, with no such layer
      above. */
  ghost predicate ChosenAround(r: Router, key: NodeId, excepts: set<NodeId>, c: Closest, n: nat) {
    && c.layer < n && NextPath(r.tables[c.layer].dests[c.index], excepts) == Some(c.path)
    && Xor8(c.index, Layer(key, c.layer)) < Xor8(Layer(r.node, c.layer), Layer(key, c.layer))
    && (forall j: Byte :: NextPath(r.tables[c.layer].dests[j], excepts).Some? ==> Xor8(c.index, Layer(key, c.layer)) <= Xor8(j, Layer(key, c.layer)))
    && (forall k: LayerNo :: c.layer < k < n ==> NoneNearer(r, key, excepts, k))
  }

  lemma LayerHasBest(r: Router, key: NodeId, excepts: set<NodeId>, l: LayerNo)
    requires Improves(r, key, excepts, l)
    ensures ChosenAround(r, key, excepts, LayerBest(r, key, excepts, l), l + 1)
  {
    Xor8Facts(Layer(r.node, l), Layer(key, l), 0);
  }

  lemma LayerHasNone(r: Router, key: NodeId, excepts: set<NodeId>, l: LayerNo)
    requires !Improves(r, key, excepts, l)
    ensures NoneNearer(r, key, excepts, l)
  {
    Xor8Facts(Layer(r.node, l), Layer(key, l), 0);
  }

  ghost predicate FoundAround(r: Router, key: NodeId, excepts: set<NodeId>, found: Option<Closest>, n: nat) {
    match found
    case None => forall l: LayerNo :: l < n ==> NoneNearer(r, key, excepts, l)
    case Some(c) => ChosenAround(r, key, excepts, c, n)
  }

  lemma LayerAdded(r: Router, key: NodeId, excepts: set<NodeId>, found: Option<Closest>, n: nat)
    requires n < 4 && FoundAround(r, key, excepts, found, n) && NoneNearer(r, key, excepts, n)
    ensures FoundAround(r, key, excepts, found, n + 1)
  {
  }

  /** A key lookup takes, on the highest layer with an allowed slot nearer than the node's own index, the nearest such slot and
      its best allowed path; and finds nothing exactly when no layer has one. */
  lemma {:induction false} ClosestAvoids(r: Router, key: NodeId, excepts: set<NodeId>, n: nat)
    requires n <= 4
    ensures FoundAround(r, key, excepts, ClosestBelow(r, key, excepts, n), n)
  {
    if n > 0 {
      if Improves(r, key, excepts, n - 1) {
        LayerHasBest(r, key, excepts, n - 1);
      } else {
        LayerHasNone(r, key, excepts, n - 1);
        ClosestAvoids(r, key, excepts, n - 1);
        LayerAdded(r, key, excepts, ClosestBelow(r, key, excepts, n - 1), n - 1);
      }
    }
  }
}
