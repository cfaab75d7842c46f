/** Two nodes that link to each other have settled at once: the states the forwarding results speak of are reached. */
module Settling {
  import opened Identity
  import opened Sorting
  import opened Paths
  import opened RouterModel
  import opened RouterRuns
  import opened Forwarding

  /** One end of a link: the node, its connection and what the link costs from here. */
  datatype End = End(node: NodeId, conn: ConnId, latency: nat, bandwidth: nat)

  function LinkTo(a: End, peer: NodeId): Route { Metric(a.latency, [peer], a.bandwidth) }

  function Linked(a: End, peer: NodeId): Router { SetDirect(NewRouter(a.node), a.conn, LinkTo(a, peer)) }

  function Joined(a: End, peer: NodeId): NodeState { NodeState(Linked(a, peer), map[a.conn := LinkTo(a, peer)]) }

  function Up(a: End, peer: NodeId): Action { LinkUp(a.node, a.conn, peer, a.latency, a.bandwidth) }

  lemma FirstPath(conn: ConnId, metric: Route)
    ensures SetPath([], conn, metric) == [Path(conn, metric)]
  {
    var p := Path(conn, metric);
    assert Placed([], p, PathConn) == [p];
    assert [p][..0] == [] && Sort<Path>([], PathScore) == [];
    assert Sort([p], PathScore) == [p];
  }

  /** A node with one link knows that link and nothing else. */
  lemma OneLink(a: End, peer: NodeId, l: LayerNo, i: Byte)
    ensures Linked(a, peer).tables[l].dests[i] ==
            if EqUtilLayer(a.node, peer) == l + 1 && i == Layer(peer, l) then [Path(a.conn, LinkTo(a, peer))] else []
  {
    SetDirectSlot(NewRouter(a.node), a.conn, LinkTo(a, peer), l, i);
    assert NewRouter(a.node).tables[l].dests[i] == [];
    FirstPath(a.conn, LinkTo(a, peer));
  }

  /** It has nothing to tell the neighbour at the other end. */
  lemma NothingToTell(b: End, x: NodeId, link: Route, l: LayerNo, i: Byte)
    ensures i !in Cached(Advertised(Linked(b, x).tables[l].dests, Layer(b.node, l), x, 256), link)
  {
    OneLink(b, x, l, i);
    SyncTransfers(Linked(b, x).tables[l].dests, Layer(b.node, l), x, link, i);
  }

  /** So the neighbour's sync changes no slot. */
  lemma SyncChangesNothing(a: End, b: End, l: LayerNo, i: Byte)
    requires a.node != b.node
    ensures ApplySync(Linked(a, b.node), a.conn, LinkTo(a, b.node), CreateSync(Linked(b, a.node), a.node)).tables[l].dests[i]
            == Linked(a, b.node).tables[l].dests[i]
  {
    var r, link := Linked(a, b.node), LinkTo(a, b.node);
    var sync := CreateSync(Linked(b, a.node), a.node);
    OneLink(a, b.node, l, i);
    if sync.tables[l].Some? {
      NothingToTell(b, a.node, link, l, i);
      var cached := Cached(sync.tables[l].value, link);
      assert ApplySync(r, a.conn, link, sync).tables[l].dests[i] == SyncedSlot(r.tables[l].dests[i], i, a.node, l, a.conn, link, cached);
    }
  }

  /** The two nodes and nothing else. */
  predicate Paired(s: Net, a: End, b: End) {
    s.nodes.Keys == {a.node, b.node} && s.nodes[a.node] == Joined(a, b.node) && s.nodes[b.node] == Joined(b, a.node)
  }

  lemma UpStep(s: Net, a: End, peer: NodeId)
    requires a.node in s.nodes && peer in s.nodes && peer != a.node && s.nodes[a.node] == NodeState(NewRouter(a.node), map[])
    ensures Step(s, Up(a, peer)).nodes == s.nodes[a.node := Joined(a, peer)]
  {
  }

  lemma PairingIsReached(a: End, b: End)
    requires a.node != b.node
    ensures Paired(Run(Initial({a.node, b.node}), [Up(a, b.node), Up(b, a.node)]), a, b)
  {
    var s0 := Initial({a.node, b.node});
    var a1, a2 := Up(a, b.node), Up(b, a.node);
    assert [a1, a2][..1] == [a1] && [a1][..0] == [];
    UpStep(s0, a, b.node);
    UpStep(Step(s0, a1), b, a.node);
    assert Run(s0, [a1]) == Step(s0, a1);
  }

  lemma PairSettled(s: Net, a: End, b: End)
    requires a.node != b.node && Paired(s, a, b)
    ensures Settled(s, a.node, a.conn) && SlotFor(s.nodes[a.node].router, b.node) != []
  {
    forall l: LayerNo, i: Byte
      ensures ApplySync(Linked(a, b.node), a.conn, LinkTo(a, b.node), CreateSync(Linked(b, a.node), a.node)).tables[l].dests[i]
              == Linked(a, b.node).tables[l].dests[i]
    {
      SyncChangesNothing(a, b, l, i);
    }
    EqUtilLayerMeaning(a.node, b.node);
    var e := EqUtilLayer(a.node, b.node);
    OneLink(a, b.node, e - 1, Layer(b.node, e - 1));
  }

  /** Any two nodes linked to each other are synchronised and know each other, whatever the links cost. */
  lemma TwoNodesSettle(a: End, b: End)
    requires a.node != b.node
    ensures var s := Run(Initial({a.node, b.node}), [Up(a, b.node), Up(b, a.node)]);
      Synchronised(s) && Complete(s)
  {
    var s := Run(Initial({a.node, b.node}), [Up(a, b.node), Up(b, a.node)]);
    PairingIsReached(a, b);
    PairIsComplete(s, a, b);
  }

  lemma PairIsComplete(s: Net, a: End, b: End)
    requires a.node != b.node && Paired(s, a, b)
    ensures Synchronised(s) && Complete(s)
  {
    PairSettled(s, a, b);
    PairSettled(s, b, a);
    forall x, conn | x in s.nodes && conn in s.nodes[x].conns ensures Settled(s, x, conn) {
      assert (x == a.node && conn == a.conn) || (x == b.node && conn == b.conn);
    }
  }
}
