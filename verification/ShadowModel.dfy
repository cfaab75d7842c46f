/** The shadow router that takes every forwarding decision, as a value: rebuilt from deltas only. */
module ShadowModel {
  import opened Identity
  import opened Sorting

  /** One way to reach a service: the connection, its neighbour, the final node and the path score. */
  datatype ServiceConn = ServiceConn(conn: ConnId, next: NodeId, dest: NodeId, score: nat)

  function ConnScore(c: ServiceConn): nat {
    c.score
  }

  type Heads = h: seq<Option<ConnId>> | |h| == 256 witness seq(256, i => None)
  type Services = s: seq<seq<ServiceConn>> | |s| == 256 witness seq(256, i => [])

  datatype ShadowState = ShadowState(node: NodeId, locals: set<Byte>, services: Services, tables: seq<Heads>)
  type Shadow = s: ShadowState | |s.tables| == 4
    witness ShadowState(NodeId(0, 0, 0, 0), {}, seq(256, i => []), seq(4, l => seq(256, i => None)))

  datatype ShadowDelta =
    | SetTable(layer: LayerNo, index: Byte, next: ConnId)
    | DelTable(layer: LayerNo, index: Byte)
    | SetServiceRemote(service: Byte, entry: ServiceConn)
    | DelServiceRemote(service: Byte, conn: ConnId)
    | SetLocal(service: Byte)
    | DelLocal(service: Byte)

  datatype RouteAction = Reject | Local | SendTo(conn: ConnId) | Broadcast(local: bool, conns: seq<ConnId>)

  function NewShadow(node: NodeId): Shadow {
    ShadowState(node, {}, seq(256, i => []), seq(4, l => seq(256, i => None)))
  }

  // ---- one service --------------------------------------------------------------------------

  function ConnOf(e: ServiceConn): ConnId {
    e.conn
  }

  function SetConn(dests: seq<ServiceConn>, entry: ServiceConn): seq<ServiceConn> {
    Sort(Placed(dests, entry, ConnOf), ConnScore)
  }

  function DelConn(dests: seq<ServiceConn>, conn: ConnId): seq<ServiceConn> {
    Retained(dests, ConnOf, conn)
  }

  // ---- broadcast ----------------------------------------------------------------------------

  predicate SameLevel(level: Level, a: NodeId, b: NodeId) {
    match level
    case Global => true
    case Geo1 => a.geo1 == b.geo1
    case Geo2 => a.geo1 == b.geo1 && a.geo2 == b.geo2
    case Group => a.geo1 == b.geo1 && a.geo2 == b.geo2 && a.group == b.group
  }

  /** A scope as a prefix of the ids: nodes of one Geo1, Geo2 or Group agree from layer 3, 2 or 1 up. */
  predicate InScope(level: Level, a: NodeId, b: NodeId) {
    match level
    case Global => true
    case Geo1 => SharesFrom(a, b, 3)
    case Geo2 => SharesFrom(a, b, 2)
    case Group => SharesFrom(a, b, 1)
  }

  lemma ScopeIsPrefix(level: Level, a: NodeId, b: NodeId)
    ensures SameLevel(level, a, b) <==> InScope(level, a, b)
  {
    assert SharesFrom(a, b, 3) <==> Layer(a, 3) == Layer(b, 3);
    assert SharesFrom(a, b, 2) <==> Layer(a, 2) == Layer(b, 2) && Layer(a, 3) == Layer(b, 3);
    assert SharesFrom(a, b, 1) <==> Layer(a, 1) == Layer(b, 1) && Layer(a, 2) == Layer(b, 2) && Layer(a, 3) == Layer(b, 3);
  }

  /** In scope, and not back through the neighbour the message came from. */
  predicate Eligible(e: ServiceConn, node: NodeId, level: Level, relayFrom: Option<NodeId>) {
    SameLevel(level, node, e.dest) && relayFrom != Some(e.next)
  }

  /** Adding one more entry to the choice. */
  function Pick(picked: seq<ServiceConn>, e: ServiceConn, node: NodeId, level: Level, relayFrom: Option<NodeId>): seq<ServiceConn> {
    if Eligible(e, node, level, relayFrom) && (forall c :: c in picked ==> c.dest != e.dest) then picked + [e] else picked
  }

  /** The entries picked from the first `n`: each eligible one whose destination is not yet covered. */
  function Fanout(dests: seq<ServiceConn>, node: NodeId, level: Level, relayFrom: Option<NodeId>, n: nat): seq<ServiceConn>
    requires n <= |dests|
  {
    if n == 0 then []
    else
      Pick(Fanout(dests, node, level, relayFrom, n - 1), dests[n - 1], node, level, relayFrom)
  }

  function BroadcastDests(dests: seq<ServiceConn>, node: NodeId, level: Level, relayFrom: Option<NodeId>): Option<seq<ConnId>> {
    if dests == [] then None else Some(Map(Fanout(dests, node, level, relayFrom, |dests|), ConnOf))
  }

  // ---- the whole shadow ---------------------------------------------------------------------

  function ApplyDelta(s: Shadow, d: ShadowDelta): Shadow {
    match d
    case SetTable(layer, index, next) => s.(tables := s.tables[layer := s.tables[layer][index := Some(next)]])
    case DelTable(layer, index) => s.(tables := s.tables[layer := s.tables[layer][index := None]])
    case SetServiceRemote(service, entry) => s.(services := s.services[service := SetConn(s.services[service], entry)])
    case DelServiceRemote(service, conn) => s.(services := s.services[service := DelConn(s.services[service], conn)])
    case SetLocal(service) => s.(locals := s.locals + {service})
    case DelLocal(service) => s.(locals := s.locals - {service})
  }

  function ShadowNext(s: Shadow, dest: NodeId): Option<ConnId> {
    var e := EqUtilLayer(s.node, dest);
    if e == 0 || e > 4 then None else s.tables[e - 1][Layer(dest, e - 1)]
  }

  /** Nearest filled index among the first `n`, with its connection. */
  function HeadClosest(heads: Heads, key: Byte, n: nat): Option<(Byte, ConnId)>
    requires n <= 256
  {
    if n == 0 then None
    else
      var prev := HeadClosest(heads, key, n - 1);
      if heads[n - 1].Some? && (prev.None? || Xor8(n - 1, key) < Xor8(prev.value.0, key)) then Some((n - 1, heads[n - 1].value)) else prev
  }

  predicate HeadImproves(s: Shadow, key: NodeId, l: LayerNo) {
    var best := HeadClosest(s.tables[l], Layer(key, l), 256);
    best.Some? && Xor8(Layer(key, l), Layer(s.node, l)) > Xor8(best.value.0, Layer(key, l))
  }

  function ShadowClosestBelow(s: Shadow, key: NodeId, n: nat): Option<ConnId>
    requires n <= 4
  {
    if n == 0 then None
    else if HeadImproves(s, key, n - 1) then Some(HeadClosest(s.tables[n - 1], Layer(key, n - 1), 256).value.1)
    else ShadowClosestBelow(s, key, n - 1)
  }

  function ShadowClosest(s: Shadow, key: NodeId): Option<ConnId> {
    ShadowClosestBelow(s, key, 4)
  }

  function PathToNode(s: Shadow, dest: NodeId): RouteAction {
    if dest == s.node then Local
    else match ShadowNext(s, dest) case Some(c) => SendTo(c) case None => Reject
  }

  function PathToKey(s: Shadow, key: NodeId): RouteAction {
    match ShadowClosest(s, key) case Some(c) => SendTo(c) case None => Local
  }

  function PathToService(s: Shadow, service: Byte): RouteAction {
    if service in s.locals then Local
    else if s.services[service] == [] then Reject
    else SendTo(s.services[service][0].conn)
  }

  /** `seen` is the answer of the broadcast history. */
  function PathToServices(s: Shadow, service: Byte, level: Level, relayFrom: Option<NodeId>, seen: bool): RouteAction {
    if seen then Reject
    else
      match BroadcastDests(s.services[service], s.node, level, relayFrom)
      case Some(conns) => Broadcast(service in s.locals, conns)
      case None => if service in s.locals then Local else Reject
  }

  // ---- service lists ------------------------------------------------------------------------

  ghost predicate Orderly(dests: seq<ServiceConn>) {
    UniqueBy(dests, ConnOf) && SortedBy(dests, ConnScore)
  }

  /** Any history of updates of one service. */
  datatype Update = Put(entry: ServiceConn) | Drop(conn: ConnId)

  function History(updates: seq<Update>): seq<ServiceConn> {
    if updates == [] then []
    else
      var before := History(updates[..|updates| - 1]);
      match updates[|updates| - 1] case Put(e) => SetConn(before, e) case Drop(c) => DelConn(before, c)
  }

  lemma {:induction false} HistoryIsOrderly(updates: seq<Update>)
    ensures Orderly(History(updates))
  {
    if updates != [] {
      var before := History(updates[..|updates| - 1]);
      HistoryIsOrderly(updates[..|updates| - 1]);
      match updates[|updates| - 1] {
        case Put(e) => PutFacts(before, e, ConnOf, ConnScore);
        case Drop(c) => RetainedFacts(before, ConnOf, ConnScore, c);
      }
    }
  }

  predicate OnePerDest(picked: seq<ServiceConn>) {
    forall i, j :: 0 <= i < j < |picked| ==> picked[i].dest != picked[j].dest && picked[i].conn != picked[j].conn
  }

  predicate Covered(picked: seq<ServiceConn>, e: ServiceConn) {
    exists k :: 0 <= k < |picked| && picked[k].dest == e.dest && picked[k].score <= e.score
  }

  /** What a fan-out must be: eligible entries, one per destination, covering every eligible
      destination with its least score. */
  ghost predicate GoodFanout(picked: seq<ServiceConn>, dests: seq<ServiceConn>, node: NodeId, level: Level, relayFrom: Option<NodeId>) {
    && (forall c :: c in picked ==> c in dests && Eligible(c, node, level, relayFrom))
    && OnePerDest(picked)
    && (forall e :: e in dests && Eligible(e, node, level, relayFrom) ==> Covered(picked, e))
  }

  lemma FanoutCovers(dests: seq<ServiceConn>, node: NodeId, level: Level, relayFrom: Option<NodeId>, n: nat, before: seq<ServiceConn>, e: ServiceConn)
    requires SortedBy(dests, ConnScore) && 0 < n <= |dests|
    requires GoodFanout(before, dests[..n - 1], node, level, relayFrom)
    requires e in dests[..n] && Eligible(e, node, level, relayFrom)
    ensures Covered(Pick(before, dests[n - 1], node, level, relayFrom), e)
  {
    var picked := Pick(before, dests[n - 1], node, level, relayFrom);
    var some := dests[..n - 1];
    if e in some {
      assert Covered(before, e);
      var k :| 0 <= k < |before| && before[k].dest == e.dest && before[k].score <= e.score;
      assert picked[k].dest == e.dest;
    } else if picked == before {
      var c :| c in before && c.dest == e.dest;
      var k :| 0 <= k < |before| && before[k] == c;
      assert c in some;
      var a :| 0 <= a < n - 1 && dests[a] == c;
      assert ConnScore(dests[a]) <= ConnScore(dests[n - 1]);
      assert picked[k].dest == e.dest;
    } else {
      assert picked[|picked| - 1] == e;
    }
  }

  lemma FanoutDistinct(dests: seq<ServiceConn>, node: NodeId, level: Level, relayFrom: Option<NodeId>, n: nat, before: seq<ServiceConn>)
    requires UniqueBy(dests, ConnOf) && 0 < n <= |dests|
    requires OnePerDest(before) && forall c :: c in before ==> c in dests[..n - 1]
    ensures OnePerDest(Pick(before, dests[n - 1], node, level, relayFrom))
  {
    forall i | 0 <= i < |before| ensures before[i].conn != dests[n - 1].conn {
      assert before[i] in before;
      var a :| 0 <= a < n - 1 && dests[a] == before[i];
      assert ConnOf(dests[a]) != ConnOf(dests[n - 1]);
    }
    var picked := Pick(before, dests[n - 1], node, level, relayFrom);
    forall i, j | 0 <= i < j < |picked| ensures picked[i].dest != picked[j].dest && picked[i].conn != picked[j].conn {
      if j == |before| { assert before[i] in before; } else { assert picked[i] == before[i] && picked[j] == before[j]; }
    }
  }

  lemma FanoutStep(dests: seq<ServiceConn>, node: NodeId, level: Level, relayFrom: Option<NodeId>, n: nat, before: seq<ServiceConn>)
    requires Orderly(dests) && 0 < n <= |dests|
    requires GoodFanout(before, dests[..n - 1], node, level, relayFrom)
    ensures GoodFanout(Pick(before, dests[n - 1], node, level, relayFrom), dests[..n], node, level, relayFrom)
  {
    FanoutDistinct(dests, node, level, relayFrom, n, before);
    assert dests[..n] == dests[..n - 1] + [dests[n - 1]];
    forall e | e in dests[..n] && Eligible(e, node, level, relayFrom)
      ensures Covered(Pick(before, dests[n - 1], node, level, relayFrom), e)
    {
      FanoutCovers(dests, node, level, relayFrom, n, before, e);
    }
  }

  lemma {:induction false} FanoutFacts(dests: seq<ServiceConn>, node: NodeId, level: Level, relayFrom: Option<NodeId>, n: nat)
    requires Orderly(dests) && n <= |dests|
    ensures GoodFanout(Fanout(dests, node, level, relayFrom, n), dests[..n], node, level, relayFrom)
  {
    if n > 0 {
      FanoutFacts(dests, node, level, relayFrom, n - 1);
      FanoutStep(dests, node, level, relayFrom, n, Fanout(dests, node, level, relayFrom, n - 1));
    }
  }

  /** Broadcast fan-out over every history: the connections answered are exactly those of a good fan-out,
      and nothing is answered exactly when no connection is left. */
  lemma BroadcastCoversOnce(updates: seq<Update>, node: NodeId, level: Level, relayFrom: Option<NodeId>)
    ensures var dests := History(updates);
      var picked := Fanout(dests, node, level, relayFrom, |dests|);
      && GoodFanout(picked, dests, node, level, relayFrom)
      && BroadcastDests(dests, node, level, relayFrom) == if dests == [] then None else Some(Map(picked, ConnOf))
  {
    var dests := History(updates);
    HistoryIsOrderly(updates);
    FanoutFacts(dests, node, level, relayFrom, |dests|);
    assert dests[..|dests|] == dests;
  }

  // ---- broadcasts of a shadow router --------------------------------------------------------

  /** The shadow after any stream of deltas. */
  function ShadowRun(node: NodeId, deltas: seq<ShadowDelta>): Shadow {
    if deltas == [] then NewShadow(node) else ApplyDelta(ShadowRun(node, deltas[..|deltas| - 1]), deltas[|deltas| - 1])
  }

  lemma {:induction false} EveryListIsOrderly(node: NodeId, deltas: seq<ShadowDelta>, service: Byte)
    ensures ShadowRun(node, deltas).node == node && Orderly(ShadowRun(node, deltas).services[service])
  {
    if deltas != [] {
      EveryListIsOrderly(node, deltas[..|deltas| - 1], service);
      var dests := ShadowRun(node, deltas[..|deltas| - 1]).services[service];
      match deltas[|deltas| - 1] {
        case SetServiceRemote(_, entry) => PutFacts(dests, entry, ConnOf, ConnScore);
        case DelServiceRemote(_, conn) => RetainedFacts(dests, ConnOf, ConnScore, conn);
        case _ =>
      }
    }
  }

  /** What a broadcast does after any stream of deltas: a message seen before is rejected, and so is one for a service that
      is not local and has no connection; otherwise it is handled here exactly when the service is local, and sent over a
      good fan-out when there are connections. */
  lemma BroadcastActionCovers(node: NodeId, deltas: seq<ShadowDelta>, service: Byte, level: Level, relayFrom: Option<NodeId>, seen: bool)
    ensures var s := ShadowRun(node, deltas);
      var dests := s.services[service];
      var action := PathToServices(s, service, level, relayFrom, seen);
      && (action.Reject? <==> seen || (service !in s.locals && dests == []))
      && (action.Local? <==> !seen && service in s.locals && dests == [])
      && (!seen && dests != [] ==>
          && action.Broadcast? && (action.local <==> service in s.locals)
          && exists picked :: GoodFanout(picked, dests, node, level, relayFrom) && action.conns == Map(picked, ConnOf))
  {
    var dests := ShadowRun(node, deltas).services[service];
    EveryListIsOrderly(node, deltas, service);
    FanoutFacts(dests, node, level, relayFrom, |dests|);
    assert dests[..|dests|] == dests;
    assert GoodFanout(Fanout(dests, node, level, relayFrom, |dests|), dests, node, level, relayFrom);
  }

  /** The fan-out in terms of the ids: a connection leads to a destination inside the scope and not back to the sender, and every
      such destination is reached over one of no worse score. */
  lemma FanoutStaysInScope(dests: seq<ServiceConn>, node: NodeId, level: Level, relayFrom: Option<NodeId>, e: ServiceConn)
    requires Orderly(dests)
    ensures var picked := Fanout(dests, node, level, relayFrom, |dests|);
      && OnePerDest(picked)
      && (e in picked ==> e in dests && InScope(level, node, e.dest) && relayFrom != Some(e.next))
      && (e in dests && InScope(level, node, e.dest) && relayFrom != Some(e.next) ==> exists k :: 0 <= k < |picked| && picked[k].dest == e.dest && picked[k].score <= e.score)
  {
    FanoutFacts(dests, node, level, relayFrom, |dests|);
    assert dests[..|dests|] == dests;
    ScopeIsPrefix(level, node, e.dest);
  }
}
