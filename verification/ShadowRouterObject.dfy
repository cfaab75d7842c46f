/** The shadow router as the object that takes every forwarding decision, made of the table and service objects and
    the shared broadcast history; proved against `ShadowModel`. */
module ShadowRouterObject {
  import opened Identity
  import opened ShadowModel
  import opened ShadowObjects
  import H = History

  method NewServices() returns (created: seq<Service>)
    ensures |created| == 256 && fresh(created)
    ensures forall j, k :: 0 <= j < k < 256 ==> created[j] != created[k]
    ensures forall j :: 0 <= j < 256 ==> created[j].Valid() && created[j].dests == []
  {
    created := [];
    for i := 0 to 256
      invariant |created| == i && fresh(created)
      invariant forall j, k :: 0 <= j < k < i ==> created[j] != created[k]
      invariant forall j :: 0 <= j < i ==> created[j].Valid() && created[j].dests == []
    {
      var d := new Service();
      created := created + [d];
    }
  }

  method NewTables() returns (created: seq<ShadowTable>)
    ensures |created| == 4 && (forall l: LayerNo :: created[l].Valid() && created[l].layer == l && fresh(created[l].dests))
    ensures forall k, l :: 0 <= k < l < 4 ==> created[k].dests != created[l].dests
    ensures forall l: LayerNo :: created[l].View() == seq(256, i => None)
  {
    var t0 := new ShadowTable(0);
    var t1 := new ShadowTable(1);
    var t2 := new ShadowTable(2);
    var t3 := new ShadowTable(3);
    created := [t0, t1, t2, t3];
  }

  class ShadowRouter {
    const node: NodeId
    const locals: array<bool>
    const services: seq<Service>
    const tables: seq<ShadowTable>

    ghost predicate Shape() {
      && locals.Length == 256 && |services| == 256 && |tables| == 4
      && (forall i, j :: 0 <= i < j < 256 ==> services[i] != services[j])
      && (forall l: LayerNo :: tables[l].Valid() && tables[l].layer == l)
      && (forall k, l :: 0 <= k < l < 4 ==> tables[k].dests != tables[l].dests)
    }

    ghost function Cells(): set<object> { set t | t in tables :: t.dests }

    ghost predicate Valid()
      reads services
    {
      Shape() && forall i: Byte :: services[i].Valid()
    }

    /** The object's fields are those of the shadow `s`. */
    ghost predicate Shows(s: Shadow)
      requires Shape()
      reads locals, services, Cells()
    {
      && s.node == node
      && (forall i: Byte :: i in s.locals <==> locals[i])
      && (forall i: Byte :: services[i].dests == s.services[i])
      && (forall l: LayerNo :: tables[l].View() == s.tables[l])
    }

    constructor (node: NodeId)
      ensures Valid() && Shows(NewShadow(node))
      ensures fresh(locals) && fresh(services) && fresh(Cells())
    {
      var created := NewServices();
      var layers := NewTables();
      this.node, services, tables := node, created, layers;
      locals := new bool[256](_ => false);
    }

    method SetTable(layer: LayerNo, index: Byte, next: Option<ConnId>, ghost s: Shadow)
      requires Valid() && Shows(s)
      modifies Cells()
      ensures Valid() && Shows(s.(tables := s.tables[layer := s.tables[layer][index := next]]))
    {
      var t := tables[layer];
      assert t.dests in Cells();
      assert forall l: LayerNo :: l != layer ==> tables[l].dests != t.dests;
      match next {
        case Some(conn) => t.Set(index, conn);
        case None => t.Del(index);
      }
    }

    method ApplyDelta(d: ShadowDelta, ghost s: Shadow)
      requires Valid() && Shows(s)
      modifies locals, services, Cells()
      ensures Valid() && Shows(ShadowModel.ApplyDelta(s, d))
    {
      match d
      case SetTable(layer, index, next) => SetTable(layer, index, Some(next), s);
      case DelTable(layer, index) => SetTable(layer, index, None, s);
      case SetServiceRemote(service, e) =>
        assert forall j: Byte :: j != service ==> services[j] != services[service];
        services[service].SetConn(e.conn, e.next, e.dest, e.score);
      case DelServiceRemote(service, conn) =>
        assert forall j: Byte :: j != service ==> services[j] != services[service];
        services[service].DelConn(conn);
      case SetLocal(service) => locals[service] := true;
      case DelLocal(service) => locals[service] := false;
    }

    method Next(dest: NodeId, ghost s: Shadow) returns (r: Option<ConnId>)
      requires Valid() && Shows(s)
      ensures r == ShadowNext(s, dest)
    {
      var e := EqUtilLayer(node, dest);
      if e == 0 { return None; }
      r := tables[e - 1].Next(dest);
    }

    /** Layers from the highest down; a layer counts only if it is nearer to the key than this node. */
    method ClosestFor(key: NodeId, ghost s: Shadow) returns (r: Option<ConnId>)
      requires Valid() && Shows(s)
      ensures r == ShadowClosest(s, key)
    {
      var n := 4;
      while n > 0
        invariant 0 <= n <= 4 && ShadowClosest(s, key) == ShadowClosestBelow(s, key, n)
      {
        var best := tables[n - 1].ClosestFor(Layer(key, n - 1));
        if best.Some? && Xor8(Layer(key, n - 1), Layer(node, n - 1)) > best.value.2 {
          return Some(best.value.0);
        }
        n := n - 1;
      }
      r := None;
    }

    method PathToKey(key: NodeId, ghost s: Shadow) returns (r: RouteAction)
      requires Valid() && Shows(s)
      ensures r == ShadowModel.PathToKey(s, key)
    {
      var c := ClosestFor(key, s);
      r := match c case Some(conn) => SendTo(conn) case None => Local;
    }

    method PathToNode(dest: NodeId, ghost s: Shadow) returns (r: RouteAction)
      requires Valid() && Shows(s)
      ensures r == ShadowModel.PathToNode(s, dest)
    {
      if dest == node { return Local; }
      var c := Next(dest, s);
      r := match c case Some(conn) => SendTo(conn) case None => Reject;
    }

    method PathToService(service: Byte, ghost s: Shadow) returns (r: RouteAction)
      requires Valid() && Shows(s)
      ensures r == ShadowModel.PathToService(s, service)
    {
      if locals[service] { return Local; }
      var dests := services[service].dests;
      r := if dests == [] then Reject else SendTo(dests[0].conn);
    }

    /** The broadcast decision asks the history first, which remembers the message. */
    method PathToServices(service: Byte, seqNo: nat, level: Level, source: Option<NodeId>, relayFrom: Option<NodeId>,
                          history: H.DataWorkerHistory, ghost s: Shadow) returns (r: RouteAction)
      requires Valid() && Shows(s)
      modifies history
      ensures var (h, seen) := H.HistoryStep(old(history.View()), H.Receive(H.Key(source, service, seqNo)));
        history.View() == h && r == ShadowModel.PathToServices(s, service, level, relayFrom, seen)
    {
      var seen := history.AlreadyReceivedBroadcast(source, service, seqNo);
      if seen { return Reject; }
      var local := locals[service];
      var nexts := services[service].BroadcastDests(node, level, relayFrom);
      r := match nexts case Some(conns) => Broadcast(local, conns) case None => if local then Local else Reject;
    }
  }
}
