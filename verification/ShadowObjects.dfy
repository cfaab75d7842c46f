/** The shadow router's tables and service lists as objects updated in place, proved against `ShadowModel`. */
module ShadowObjects {
  import opened Identity
  import opened Sorting
  import opened ShadowModel

  class ShadowTable {
    const layer: LayerNo
    const dests: array<Option<ConnId>>

    ghost predicate Valid() {
      dests.Length == 256
    }

    ghost function View(): Heads
      requires Valid()
      reads dests
    {
      dests[..]
    }

    constructor (layer: LayerNo)
      ensures Valid() && fresh(dests) && this.layer == layer
      ensures forall i: Byte :: View()[i] == None
    {
      this.layer := layer;
      dests := new Option<ConnId>[256](_ => None);
    }

    method Set(index: Byte, remote: ConnId)
      requires Valid()
      modifies dests
      ensures View() == old(View())[index := Some(remote)]
    {
      dests[index] := Some(remote);
    }

    method Del(index: Byte)
      requires Valid()
      modifies dests
      ensures View() == old(View())[index := None]
    {
      dests[index] := None;
    }

    method Next(dest: NodeId) returns (r: Option<ConnId>)
      requires Valid()
      ensures r == View()[Layer(dest, layer)]
    {
      r := dests[Layer(dest, layer)];
    }

    /** The running minimum over all indices ends at the filled index nearest to the key, and answers its distance. */
    method ClosestFor(key: Byte) returns (r: Option<(ConnId, Byte, nat)>)
      requires Valid()
      ensures var best := HeadClosest(View(), key, 256);
        r == match best case None => None case Some(b) => Some((b.1, b.0, Xor8(b.0, key)))
      ensures r.Some? ==> dests[r.value.1] == Some(r.value.0) && forall j: Byte :: dests[j].Some? ==> r.value.2 <= Xor8(j, key)
      ensures r.None? ==> forall j: Byte :: dests[j].None?
    {
      r := None;
      for i := 0 to 256
        invariant var best := HeadClosest(View(), key, i);
          r == match best case None => None case Some(b) => Some((b.1, b.0, Xor8(b.0, key)))
        invariant r.Some? ==> r.value.1 < i && dests[r.value.1] == Some(r.value.0) && r.value.2 == Xor8(r.value.1, key)
        invariant forall j :: 0 <= j < i && dests[j].Some? ==> r.Some? && r.value.2 <= Xor8(j, key)
      {
        if dests[i].Some? {
          var distance := Xor8(i, key);
          if r.None? || distance < r.value.2 {
            r := Some((dests[i].value, i, distance));
          }
        }
      }
    }
  }

  function DestsOf(picked: seq<ServiceConn>): set<NodeId> { set c | c in picked :: c.dest }

  lemma PickStep(picked: seq<ServiceConn>, e: ServiceConn, node: NodeId, level: Level, relayFrom: Option<NodeId>)
    ensures var picked' := Pick(picked, e, node, level, relayFrom);
      if e.dest !in DestsOf(picked) && Eligible(e, node, level, relayFrom)
      then DestsOf(picked') == DestsOf(picked) + {e.dest} && Map(picked', ConnOf) == Map(picked, ConnOf) + [e.conn]
      else picked' == picked
  {
    assert e.dest in DestsOf(picked) <==> exists c :: c in picked && c.dest == e.dest;
  }

  /** One round of the fan-out loop: an eligible entry for a destination not yet covered is taken. */
  method Consider(e: ServiceConn, node: NodeId, level: Level, relayFrom: Option<NodeId>,
                  covered: set<NodeId>, remotes: seq<ConnId>, ghost picked: seq<ServiceConn>)
    returns (covered': set<NodeId>, remotes': seq<ConnId>)
    requires covered == DestsOf(picked) && remotes == Map(picked, ConnOf)
    ensures covered' == DestsOf(Pick(picked, e, node, level, relayFrom)) && remotes' == Map(Pick(picked, e, node, level, relayFrom), ConnOf)
  {
    PickStep(picked, e, node, level, relayFrom);
    covered', remotes' := covered, remotes;
    if e.dest !in covered && SameLevel(level, node, e.dest) && relayFrom != Some(e.next) {
      covered', remotes' := covered + {e.dest}, remotes + [e.conn];
    }
  }

  class Service {
    var dests: seq<ServiceConn>

    ghost predicate Valid()
      reads this
    {
      Orderly(dests)
    }

    constructor ()
      ensures Valid() && dests == []
    {
      dests := [];
    }

    /** Replaces the entry of this connection or adds one, keeping the list ordered by score. */
    method SetConn(conn: ConnId, next: NodeId, dest: NodeId, score: nat)
      requires Valid()
      modifies this
      ensures Valid() && dests == ShadowModel.SetConn(old(dests), ServiceConn(conn, next, dest, score))
    {
      var entry := ServiceConn(conn, next, dest, score);
      assert Orderly(ShadowModel.SetConn(dests, entry)) by { PutFacts(dests, entry, ConnOf, ConnScore); }
      var index := 0;
      while index < |dests| && dests[index].conn != conn
        invariant 0 <= index <= |dests|
        invariant forall k :: 0 <= k < index ==> dests[k].conn != conn
      {
        index := index + 1;
      }
      if index < |dests| {
        dests := dests[index := entry];
      } else {
        dests := dests + [entry];
      }
      dests := Sort(dests, ConnScore);
    }

    method DelConn(conn: ConnId)
      requires Valid()
      modifies this
      ensures Valid() && dests == ShadowModel.DelConn(old(dests), conn)
    {
      assert Orderly(ShadowModel.DelConn(dests, conn)) by { RetainedFacts(dests, ConnOf, ConnScore, conn); }
      var kept: seq<ServiceConn> := [];
      for k := 0 to |dests|
        invariant kept == ShadowModel.DelConn(dests[..k], conn)
      {
        assert dests[..k + 1][..k] == dests[..k];
        if dests[k].conn != conn {
          kept := kept + [dests[k]];
        }
      }
      assert dests[..|dests|] == dests;
      dests := kept;
    }

    method BestConn() returns (r: Option<ConnId>)
      requires Valid()
      ensures r.None? <==> dests == []
      ensures r.Some? ==> exists e :: e in dests && e.conn == r.value && forall d :: d in dests ==> e.score <= d.score
    {
      if dests == [] {
        return None;
      }
      assert forall k :: 0 <= k < |dests| ==> ConnScore(dests[0]) <= ConnScore(dests[k]);
      return Some(dests[0].conn);
    }

    /** The loop with its growing set of covered destinations. */
    method BroadcastDests(node: NodeId, level: Level, relayFrom: Option<NodeId>) returns (r: Option<seq<ConnId>>)
      ensures r == ShadowModel.BroadcastDests(dests, node, level, relayFrom)
    {
      if dests == [] {
        return None;
      }
      var remotes: seq<ConnId> := [];
      var covered: set<NodeId> := {};
      ghost var picked: seq<ServiceConn> := [];
      for k := 0 to |dests|
        invariant picked == Fanout(dests, node, level, relayFrom, k)
        invariant covered == DestsOf(picked) && remotes == Map(picked, ConnOf)
      {
        var e := dests[k];
        covered, remotes := Consider(e, node, level, relayFrom, covered, remotes, picked);
        picked := Pick(picked, e, node, level, relayFrom);
      }
      r := Some(remotes);
    }
  }
}
