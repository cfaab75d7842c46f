/** Networks settle: with fixed links, from any reachable state, after enough periods of syncs in any order, each under way
    for at most two periods, every table and every registry is synchronised, and stays so. */
module Convergence {
  import opened Identity
  import opened Paths
  import opened RouterModel
  import opened RouterRuns
  import opened Forwarding
  import opened ServiceRouting
  import opened Reachability
  import opened Columns

  // ---- runs of syncs ------------------------------------------------------------------------

  predicate SyncOnly(actions: seq<Action>) { forall a :: a in actions ==> a.SendSync? || a.Deliver? }

  function At(s: Net, actions: seq<Action>, t: nat): Net
    requires t <= |actions|
  {
    Run(s, actions[..t])
  }

  lemma AtNext(s: Net, actions: seq<Action>, t: nat)
    requires t < |actions|
    ensures At(s, actions, t + 1) == Step(At(s, actions, t), actions[t])
  {
    assert actions[..t + 1][..t] == actions[..t];
  }

  /** The connection a step delivers a sync over, if it delivers one. */
  function MoveAt(s: Net, actions: seq<Action>, t: nat): Option<Wire>
    requires t < |actions|
  {
    var a := actions[t];
    if a.Deliver? && Enabled(At(s, actions, t), a) then Some(Wire(a.x, a.conn)) else None
  }

  /** The sync delivered at step `t` is the one its sender would have built at time `at`. */
  predicate BuiltAt(s: Net, actions: seq<Action>, t: nat, at: nat)
    requires at <= t < |actions| && actions[t].Deliver?
  {
    var msg, nodes := actions[t].msg, At(s, actions, at).nodes;
    msg.from in nodes && msg.sync == CreateSync(nodes[msg.from].router, msg.to)
  }

  predicate BuiltSince(s: Net, actions: seq<Action>, t: nat, since: nat)
    requires t < |actions|
  {
    MoveAt(s, actions, t).Some? ==> exists at :: since <= at <= t && BuiltAt(s, actions, t, at)
  }

  predicate AllBuiltSince(s: Net, actions: seq<Action>, from: nat, since: nat) {
    forall t :: from <= t < |actions| ==> BuiltSince(s, actions, t, since)
  }

  predicate Served(s: Net, actions: seq<Action>, from: nat, until: nat, w: Wire)
    requires until <= |actions|
  {
    exists t :: from <= t < until && MoveAt(s, actions, t) == Some(w)
  }

  predicate AllServed(s: Net, actions: seq<Action>, from: nat, until: nat)
    requires until <= |actions|
  {
    forall w :: w in Wires(s) ==> Served(s, actions, from, until, w)
  }

  /** The run falls into periods. In the first anything may be delivered, syncs from before the run too. From each later
      one on, no sync is delivered that was built before the previous period; and each of these, up to the last bound,
      delivers a sync over every connection. */
  predicate InPeriods(s: Net, actions: seq<Action>, bounds: seq<nat>) {
    && SyncOnly(actions) && Ascending(bounds, |actions|)
    && (forall k :: 1 <= k < |bounds| ==> AllBuiltSince(s, actions, bounds[k], bounds[k - 1]))
    && (forall k :: 1 <= k < |bounds| - 1 ==> AllServed(s, actions, bounds[k], bounds[k + 1]))
  }

  /** Syncs change no links and no local services. */
  predicate SameLinks(s: Net, s': Net) {
    && s'.nodes.Keys == s.nodes.Keys
    && forall x :: x in s.nodes ==>
         s'.nodes[x].conns == s.nodes[x].conns && s'.nodes[x].router.node == s.nodes[x].router.node
         && s'.nodes[x].router.registry.locals == s.nodes[x].router.registry.locals
  }

  lemma SyncKeepsLinks(s: Net, a: Action)
    requires a.SendSync? || a.Deliver?
    ensures SameLinks(s, Step(s, a))
  {
  }

  lemma SameLinksTransitive(a: Net, b: Net, c: Net)
    requires SameLinks(a, b) && SameLinks(b, c)
    ensures SameLinks(a, c)
  {
  }

  lemma {:induction false} SyncsKeep(s: Net, actions: seq<Action>)
    requires Inv(s) && SyncOnly(actions)
    ensures Inv(Run(s, actions)) && SameLinks(s, Run(s, actions))
  {
    if actions != [] {
      var before, last := actions[..|actions| - 1], actions[|actions| - 1];
      assert last in actions;
      SyncsKeep(s, before);
      StepKeepsInv(Run(s, before), last);
      SyncKeepsLinks(Run(s, before), last);
      SameLinksTransitive(s, Run(s, before), Run(s, actions));
    }
  }

  // ---- columns of a network -----------------------------------------------------------------

  /** What a path list leads to. */
  datatype Goal = Index(l: LayerNo, i: Byte) | Service(v: Byte)

  function Listed(r: Router, goal: Goal): seq<Path> {
    match goal case Index(l, i) => r.tables[l].dests[i] case Service(v) => r.registry.remotes[v]
  }

  function Wires(s: Net): set<Wire> {
    set x, c | x in s.nodes && c in s.nodes[x].conns :: Wire(x, c)
  }

  function Links(s: Net): map<Wire, Route> {
    map w | w in Wires(s) :: s.nodes[w.x].conns[w.conn]
  }

  function ColumnOf(s: Net, goal: Goal): Column {
    map x | x in s.nodes :: Listed(s.nodes[x].router, goal)
  }

  /** Where a neighbour says nothing about an index, or is not listened to. */
  predicate Silent(x: NodeId, y: NodeId, goal: Goal) {
    goal.Index? && (EqUtilLayer(y, x) > goal.l + 1 || goal.i == Layer(x, goal.l) || goal.i == Layer(y, goal.l))
  }

  function Holders(s: Net, goal: Goal): set<NodeId> {
    set x | x in s.nodes && goal.Service? && goal.v in s.nodes[x].router.registry.locals
  }

  function WiringOf(s: Net, goal: Goal): Wiring {
    Wiring(Links(s), (set w | w in Wires(s) && Silent(w.x, OverNode(s.nodes[w.x].conns[w.conn]), goal)),
           Holders(s, goal), Metric(0, [], REGISTRY_LOCAL_BW))
  }

  lemma SameWiring(s: Net, s': Net, goal: Goal)
    requires SameLinks(s, s')
    ensures WiringOf(s', goal) == WiringOf(s, goal)
  {
    assert Wires(s') == Wires(s);
    assert Links(s') == Links(s);
    assert Holders(s', goal) == Holders(s, goal);
  }

  lemma NetSound(s: Net, goal: Goal)
    requires Inv(s)
    ensures Sound(WiringOf(s, goal), ColumnOf(s, goal), s.nodes.Keys)
  {
    forall w | w in Links(s)
      ensures var y := OverNode(Links(s)[w]); w.x in s.nodes && y in s.nodes && y != w.x && Links(s)[w].hops == [y]
    {
      assert NodeOk(w.x, s.nodes[w.x], s.nodes.Keys, s.registered);
    }
    forall x | x in s.nodes ensures SoundList(Listed(s.nodes[x].router, goal), x, s.nodes.Keys) {
      assert NodeOk(x, s.nodes[x], s.nodes.Keys, s.registered);
      match goal {
        case Index(l, i) => assert SlotOk(Slot(s, x, l, i), x, l, i, s.nodes[x], s.nodes.Keys);
        case Service(v) => assert ServiceOk(ServicePaths(s, x, v), x, v, s.nodes[x], s.nodes.Keys, s.registered);
      }
    }
  }

  // ---- syncs are exchanges ------------------------------------------------------------------

  /** What a list becomes when a neighbour offers `offer`. */
  function Taken(paths: seq<Path>, conn: ConnId, offer: Option<Metric>, link: Route): seq<Path> {
    match offer case Some(m) => SetPath(paths, conn, Add(m, link)) case None => DelPath(paths, conn)
  }

  /** What a router offers another for a goal. */
  function OfferFor(r: Router, to: NodeId, goal: Goal): Option<Metric> {
    if goal.Service? && goal.v in r.registry.locals then Some(Metric(0, [], REGISTRY_LOCAL_BW))
    else match BestFor(Listed(r, goal), to) case Some(q) => Some(q.metric) case None => None
  }

  /** One slot under a sync built by `theirs`. */
  lemma SlotAfterSync(r: Router, theirs: Router, conn: ConnId, link: Route, l: LayerNo, i: Byte)
    requires theirs.node == OverNode(link)
    ensures ApplySync(r, conn, link, CreateSync(theirs, r.node)).tables[l].dests[i] ==
            if Silent(r.node, theirs.node, Index(l, i)) then r.tables[l].dests[i]
            else Taken(r.tables[l].dests[i], conn, OfferFor(theirs, r.node, Index(l, i)), link)
  {
    SyncTransfers(theirs.tables[l].dests, Layer(theirs.node, l), r.node, link, i);
  }

  lemma ServiceAfterSync(r: Router, theirs: Router, conn: ConnId, link: Route, v: Byte)
    ensures ApplySync(r, conn, link, CreateSync(theirs, r.node)).registry.remotes[v] ==
            Taken(r.registry.remotes[v], conn, OfferFor(theirs, r.node, Service(v)), link)
  {
    ServiceTransfers(theirs.registry, r.node, link, v);
  }

  /** Applying a sync acts on the list of every goal as taking over the offer its sender had for it, or not at all. */
  lemma ListAfterSync(r: Router, theirs: Router, conn: ConnId, link: Route, goal: Goal)
    requires theirs.node == OverNode(link)
    ensures Listed(ApplySync(r, conn, link, CreateSync(theirs, r.node)), goal) ==
            if Silent(r.node, theirs.node, goal) then Listed(r, goal)
            else Taken(Listed(r, goal), conn, OfferFor(theirs, r.node, goal), link)
  {
    match goal {
      case Index(l, i) => SlotAfterSync(r, theirs, conn, link, l, i);
      case Service(v) => ServiceAfterSync(r, theirs, conn, link, v);
    }
  }

  lemma OfferInColumn(s: Net, past: Net, y: NodeId, x: NodeId, goal: Goal)
    requires y in past.nodes && SameLinks(past, s)
    ensures Offer(WiringOf(s, goal), ColumnOf(past, goal), y, x) == OfferFor(past.nodes[y].router, x, goal)
  {
  }

  /** The same, seen in the columns. */
  lemma PulledIsTaken(s: Net, past: Net, x: NodeId, conn: ConnId, goal: Goal)
    requires x in s.nodes && conn in s.nodes[x].conns && OverNode(s.nodes[x].conns[conn]) in past.nodes && SameLinks(past, s)
    ensures var link := s.nodes[x].conns[conn];
      var g, y, w := WiringOf(s, goal), OverNode(link), Wire(x, conn);
      && w in g.links && (Live(g, w) <==> !Silent(x, y, goal))
      && Pulled(g, ColumnOf(s, goal), ColumnOf(past, goal), w) == Taken(Listed(s.nodes[x].router, goal), conn, OfferFor(past.nodes[y].router, x, goal), link)
  {
    assert Wire(x, conn) in Wires(s);
    OfferInColumn(s, past, OverNode(s.nodes[x].conns[conn]), x, goal);
  }

  /** One node changes. */
  lemma ColumnUpdate(s: Net, s': Net, x: NodeId, n: NodeState, goal: Goal)
    requires x in s.nodes && s'.nodes == s.nodes[x := n]
    ensures ColumnOf(s', goal) == ColumnOf(s, goal)[x := Listed(n.router, goal)]
  {
  }

  lemma SameAt(col: Column, x: NodeId)
    requires x in col
    ensures col[x := col[x]] == col
  {
  }

  /** Receiving a sync built in state `past` is an exchange in the column of every goal. */
  lemma SyncIsExchange(s: Net, past: Net, a: Action, goal: Goal)
    requires Inv(s) && Inv(past) && SameLinks(past, s) && a.Deliver? && Enabled(s, a)
    requires a.msg.from in past.nodes && a.msg.sync == CreateSync(past.nodes[a.msg.from].router, a.msg.to)
    ensures ColumnOf(Step(s, a), goal) == Exchange(WiringOf(s, goal), ColumnOf(s, goal), ColumnOf(past, goal), Wire(a.x, a.conn))
  {
    var n, link := s.nodes[a.x], s.nodes[a.x].conns[a.conn];
    assert NodeOk(a.x, n, s.nodes.Keys, s.registered) && NodeOk(a.msg.from, past.nodes[a.msg.from], past.nodes.Keys, past.registered);
    ColumnUpdate(s, Step(s, a), a.x, NodeStep(n, a), goal);
    ListAfterSync(n.router, past.nodes[a.msg.from].router, a.conn, link, goal);
    PulledIsTaken(s, past, a.x, a.conn, goal);
    SameAt(ColumnOf(s, goal), a.x);
  }

  lemma OtherStepsChangeNothing(s: Net, a: Action, goal: Goal)
    requires a.SendSync? || (a.Deliver? && !Enabled(s, a))
    ensures ColumnOf(Step(s, a), goal) == ColumnOf(s, goal)
  {
    assert Step(s, a).nodes == s.nodes;
  }

  /** A run of syncs as the history of one column. */
  function HistoryOf(s: Net, actions: seq<Action>, goal: Goal): History {
    Times(WiringOf(s, goal),
          seq(|actions| + 1, t requires 0 <= t <= |actions| => ColumnOf(At(s, actions, t), goal)),
          seq(|actions|, t requires 0 <= t < |actions| => MoveAt(s, actions, t)))
  }

  lemma AtKeeps(s: Net, actions: seq<Action>, t: nat)
    requires Inv(s) && SyncOnly(actions) && t <= |actions|
    ensures Inv(At(s, actions, t)) && SameLinks(s, At(s, actions, t))
  {
    SyncsKeep(s, actions[..t]);
  }

  lemma HistoryFits(s: Net, actions: seq<Action>, goal: Goal)
    requires Inv(s) && SyncOnly(actions)
    ensures Fits(HistoryOf(s, actions, goal), s.nodes.Keys)
  {
    var h := HistoryOf(s, actions, goal);
    forall t | 0 <= t < |h.cols| ensures SoundAt(h, s.nodes.Keys, t) {
      AtKeeps(s, actions, t);
      NetSound(At(s, actions, t), goal);
      SameWiring(s, At(s, actions, t), goal);
    }
  }

  lemma SameLinksBetween(s: Net, a: Net, b: Net)
    requires SameLinks(s, a) && SameLinks(s, b)
    ensures SameLinks(a, b)
  {
  }

  lemma DeliveryTakesOver(s: Net, actions: seq<Action>, goal: Goal, t: nat, at: nat)
    requires Inv(s) && SyncOnly(actions) && at <= t < |actions| && MoveAt(s, actions, t).Some? && BuiltAt(s, actions, t, at)
    ensures var h := HistoryOf(s, actions, goal); h.cols[t + 1] == Exchange(h.g, h.cols[t], h.cols[at], h.moves[t].value)
  {
    AtKeeps(s, actions, t);
    AtKeeps(s, actions, at);
    AtNext(s, actions, t);
    SameLinksBetween(s, At(s, actions, at), At(s, actions, t));
    SyncIsExchange(At(s, actions, t), At(s, actions, at), actions[t], goal);
    SameWiring(s, At(s, actions, t), goal);
  }

  lemma StepTakesOver(s: Net, actions: seq<Action>, goal: Goal, t: nat, since: nat)
    requires Inv(s) && SyncOnly(actions) && t < |actions| && BuiltSince(s, actions, t, since)
    ensures TakesOver(HistoryOf(s, actions, goal), t, since)
  {
    if MoveAt(s, actions, t).Some? {
      var at :| since <= at <= t && BuiltAt(s, actions, t, at);
      DeliveryTakesOver(s, actions, goal, t, at);
    } else {
      AtNext(s, actions, t);
      assert actions[t] in actions;
      OtherStepsChangeNothing(At(s, actions, t), actions[t], goal);
    }
  }

  lemma HistoryServes(s: Net, actions: seq<Action>, goal: Goal, from: nat, until: nat)
    requires until <= |actions| && AllServed(s, actions, from, until)
    ensures AllUsed(HistoryOf(s, actions, goal), from, until)
  {
    var h := HistoryOf(s, actions, goal);
    forall w | Live(h.g, w) ensures Used(h, from, until, w) {
      assert Served(s, actions, from, until, w);
      var t :| from <= t < until && MoveAt(s, actions, t) == Some(w);
      assert h.moves[t] == Some(w);
    }
  }

  lemma HistoryPaced(s: Net, actions: seq<Action>, bounds: seq<nat>, goal: Goal)
    requires Inv(s) && InPeriods(s, actions, bounds)
    ensures Paced(HistoryOf(s, actions, goal), bounds)
  {
    var h := HistoryOf(s, actions, goal);
    forall k | 1 <= k < |bounds| ensures AllTakeOver(h, bounds[k], |h.moves|, bounds[k - 1]) {
      var since := bounds[k - 1];
      assert AllBuiltSince(s, actions, bounds[k], since);
      forall t | bounds[k] <= t < |h.moves| ensures TakesOver(h, t, since) {
        StepTakesOver(s, actions, goal, t, since);
      }
    }
    forall k | 1 <= k < |bounds| - 1 ensures AllUsed(h, bounds[k], bounds[k + 1]) {
      HistoryServes(s, actions, goal, bounds[k], bounds[k + 1]);
    }
  }

  // ---- latencies are bounded ----------------------------------------------------------------

  /** Latencies grow by at most `step` a hop. */
  predicate Short(m: Metric, base: nat, step: nat) { m.latency <= base + step * |m.hops| }

  ghost predicate NodeShort(n: NodeState, base: nat, step: nat) {
    && (forall c :: c in n.conns ==> n.conns[c].latency <= step)
    && (forall goal, p :: p in Listed(n.router, goal) ==> Short(p.metric, base, step))
  }

  predicate EntriesShort(entries: Entries, base: nat, step: nat) {
    forall k :: 0 <= k < |entries| ==> Short(entries[k].1, base, step)
  }

  ghost predicate MessageShort(m: Message, base: nat, step: nat) {
    && (forall k :: 0 <= k < |m.sync.tables| && m.sync.tables[k].Some? ==> EntriesShort(m.sync.tables[k].value, base, step))
    && EntriesShort(m.sync.services, base, step)
  }

  /** Nothing stored and nothing under way is longer. */
  ghost predicate NetShort(s: Net, base: nat, step: nat) {
    && (forall x :: x in s.nodes ==> NodeShort(s.nodes[x], base, step))
    && (forall m :: m in s.sent ==> MessageShort(m, base, step))
  }

  lemma CreatedShort(n: NodeState, m: Message, base: nat, step: nat)
    requires NodeShort(n, base, step) && m.sync == CreateSync(n.router, m.to)
    ensures MessageShort(m, base, step)
  {
    forall l: LayerNo | m.sync.tables[l].Some? ensures EntriesShort(m.sync.tables[l].value, base, step) {
      var entries := m.sync.tables[l].value;
      AdvertisedFacts(n.router.tables[l].dests, Layer(n.router.node, l), m.to, 256);
      forall k | 0 <= k < |entries| ensures Short(entries[k].1, base, step) {
        var best := BestFor(n.router.tables[l].dests[entries[k].0], m.to).value;
        assert best in Listed(n.router, Index(l, entries[k].0));
      }
    }
    var services := m.sync.services;
    ServicesAdvertisedFacts(n.router.registry, m.to, 256);
    forall k | 0 <= k < |services| ensures Short(services[k].1, base, step) {
      var v := services[k].0;
      if v !in n.router.registry.locals {
        assert BestFor(n.router.registry.remotes[v], m.to).value in Listed(n.router, Service(v));
      }
    }
  }

  lemma AddedShort(m: Metric, link: Route, base: nat, step: nat)
    requires Short(m, base, step) && link.latency <= step && |link.hops| == 1
    ensures Short(Add(m, link), base, step)
  {
    Distribute(step, |m.hops|);
    assert |Add(m, link).hops| == |m.hops| + 1;
  }

  lemma CachedShort(entries: Entries, link: Route, i: Byte, base: nat, step: nat)
    requires EntriesShort(entries, base, step) && link.latency <= step && |link.hops| == 1 && i in Cached(entries, link)
    ensures Short(Cached(entries, link)[i], base, step)
  {
    var k := CachedEntry(entries, link, i);
    AddedShort(entries[k].1, link, base, step);
  }

  ghost predicate ListShort(paths: seq<Path>, base: nat, step: nat) { forall p :: p in paths ==> Short(p.metric, base, step) }

  lemma SetShort(paths: seq<Path>, conn: ConnId, m: Route, base: nat, step: nat)
    requires WellFormed(paths) && ListShort(paths, base, step) && Short(m, base, step)
    ensures ListShort(SetPath(paths, conn, m), base, step)
  {
    SetPathFacts(paths, conn, m);
  }

  lemma DelShort(paths: seq<Path>, conn: ConnId, base: nat, step: nat)
    requires WellFormed(paths) && ListShort(paths, base, step)
    ensures ListShort(DelPath(paths, conn), base, step)
  {
    DelPathFacts(paths, conn);
  }

  lemma SlotShort(r: Router, conn: ConnId, link: Route, sync: RouterSync, goal: Goal, base: nat, step: nat)
    requires WellFormed(Listed(r, goal)) && ListShort(Listed(r, goal), base, step) && |sync.tables| == 4
    requires link.latency <= step && |link.hops| == 1
    requires EntriesShort(sync.services, base, step)
    requires forall l: LayerNo :: sync.tables[l].Some? ==> EntriesShort(sync.tables[l].value, base, step)
    ensures ListShort(Listed(ApplySync(r, conn, link, sync), goal), base, step)
  {
    var paths := Listed(r, goal);
    match goal {
      case Index(l, i) =>
        if sync.tables[l].Some? {
          var cached := Cached(sync.tables[l].value, link);
          if i in cached {
            CachedShort(sync.tables[l].value, link, i, base, step);
            SetShort(paths, conn, cached[i], base, step);
          }
          DelShort(paths, conn, base, step);
        }
      case Service(v) =>
        var cached := Cached(sync.services, link);
        if v in cached {
          CachedShort(sync.services, link, v, base, step);
          SetShort(paths, conn, cached[v], base, step);
        }
        DelShort(paths, conn, base, step);
    }
  }

  lemma DeliverShort(s: Net, a: Action, base: nat, step: nat)
    requires Inv(s) && NetShort(s, base, step) && a.Deliver? && Enabled(s, a)
    ensures NodeShort(NodeStep(s.nodes[a.x], a), base, step)
  {
    var n, n' := s.nodes[a.x], NodeStep(s.nodes[a.x], a);
    assert NodeOk(a.x, n, s.nodes.Keys, s.registered) && NodeShort(n, base, step) && MessageShort(a.msg, base, step);
    NetSound(s, Service(0));
    forall goal, p | p in Listed(n'.router, goal) ensures Short(p.metric, base, step) {
      NetSound(s, goal);
      assert SoundList(ColumnOf(s, goal)[a.x], a.x, s.nodes.Keys);
      SlotShort(n.router, a.conn, n.conns[a.conn], a.msg.sync, goal, base, step);
    }
  }

  lemma StepShort(s: Net, a: Action, base: nat, step: nat)
    requires Inv(s) && NetShort(s, base, step) && (a.SendSync? || a.Deliver?)
    ensures NetShort(Step(s, a), base, step)
  {
    if Enabled(s, a) {
      assert NodeShort(s.nodes[a.x], base, step);
      if a.Deliver? {
        DeliverShort(s, a, base, step);
      } else {
        var to := OverNode(s.nodes[a.x].conns[a.conn]);
        CreatedShort(s.nodes[a.x], Message(a.x, to, CreateSync(s.nodes[a.x].router, to)), base, step);
      }
    }
  }

  lemma {:induction false} RunShort(s: Net, actions: seq<Action>, base: nat, step: nat)
    requires Inv(s) && NetShort(s, base, step) && SyncOnly(actions)
    ensures NetShort(Run(s, actions), base, step)
  {
    if actions != [] {
      var before, last := actions[..|actions| - 1], actions[|actions| - 1];
      assert last in actions;
      RunShort(s, before, base, step);
      SyncsKeep(s, before);
      StepShort(Run(s, before), last, base, step);
    }
  }

  lemma ShortIsBounded(s: Net, base: nat, step: nat, goal: Goal)
    requires NetShort(s, base, step)
    ensures Bounded(WiringOf(s, goal), ColumnOf(s, goal), base, step)
  {
    forall w | w in Links(s) ensures Links(s)[w].latency <= step { assert NodeShort(s.nodes[w.x], base, step); }
    forall x, p | x in s.nodes && p in Listed(s.nodes[x].router, goal) ensures p.metric.latency <= base + step * |p.metric.hops| {
      assert NodeShort(s.nodes[x], base, step);
    }
  }

  // ---- every state has a bound --------------------------------------------------------------

  lemma {:induction false} ListBound(paths: seq<Path>) returns (b: nat)
    ensures forall p :: p in paths ==> p.metric.latency <= b
  {
    b := 0;
    if paths != [] {
      var rest := ListBound(paths[1..]);
      b := rest + paths[0].metric.latency;
    }
  }

  lemma {:induction false} ListsBound(lists: seq<seq<Path>>) returns (b: nat)
    ensures forall k, p :: 0 <= k < |lists| && p in lists[k] ==> p.metric.latency <= b
  {
    b := 0;
    if lists != [] {
      var n := |lists| - 1;
      var rest := ListsBound(lists[..n]);
      var last := ListBound(lists[n]);
      b := rest + last;
      forall k, p | 0 <= k < |lists| && p in lists[k] ensures p.metric.latency <= b {
        if k < n { assert lists[..n][k] == lists[k]; }
      }
    }
  }

  lemma {:induction false} ConnsBound(conns: map<ConnId, Route>) returns (b: nat)
    ensures forall c :: c in conns ==> conns[c].latency <= b
    decreases |conns|
  {
    b := 0;
    if conns != map[] {
      var c :| c in conns;
      var rest := ConnsBound(conns - {c});
      b := rest + conns[c].latency;
      forall d | d in conns ensures conns[d].latency <= b {
        if d != c { assert d in conns - {c}; }
      }
    }
  }

  lemma {:induction false} EntriesBound(entries: Entries) returns (b: nat)
    ensures EntriesShort(entries, b, b)
  {
    b := 0;
    if entries != [] {
      var n := |entries| - 1;
      var rest := EntriesBound(entries[..n]);
      b := rest + entries[n].1.latency;
      forall k | 0 <= k < |entries| ensures Short(entries[k].1, b, b) {
        if k < n { assert entries[..n][k] == entries[k]; ShortMore(entries[k].1, rest, b); }
      }
    }
  }

  lemma ShortMore(m: Metric, b: nat, c: nat)
    requires Short(m, b, b) && b <= c
    ensures Short(m, c, c)
  {
    MonotoneLeft(b, c, |m.hops|);
  }

  lemma MonotoneLeft(a: nat, b: nat, n: nat)
    requires a <= b
    ensures a * n <= b * n
  {
  }

  lemma EntriesMore(entries: Entries, b: nat, c: nat)
    requires EntriesShort(entries, b, b) && b <= c
    ensures EntriesShort(entries, c, c)
  {
    forall k | 0 <= k < |entries| ensures Short(entries[k].1, c, c) { ShortMore(entries[k].1, b, c); }
  }

  lemma {:induction false} TablesBound(tables: seq<Option<Entries>>) returns (b: nat)
    ensures forall k :: 0 <= k < |tables| && tables[k].Some? ==> EntriesShort(tables[k].value, b, b)
  {
    b := 0;
    if tables != [] {
      var n := |tables| - 1;
      var rest := TablesBound(tables[..n]);
      var last := 0;
      if tables[n].Some? { last := EntriesBound(tables[n].value); }
      b := rest + last;
      forall k | 0 <= k < |tables| && tables[k].Some? ensures EntriesShort(tables[k].value, b, b) {
        if k < n { assert tables[..n][k] == tables[k]; EntriesMore(tables[k].value, rest, b); }
        else { EntriesMore(tables[k].value, last, b); }
      }
    }
  }

  lemma MessageBound(m: Message) returns (b: nat)
    ensures MessageShort(m, b, b)
  {
    var t := TablesBound(m.sync.tables);
    var v := EntriesBound(m.sync.services);
    b := t + v;
    EntriesMore(m.sync.services, v, b);
    forall k | 0 <= k < |m.sync.tables| && m.sync.tables[k].Some? ensures EntriesShort(m.sync.tables[k].value, b, b) {
      EntriesMore(m.sync.tables[k].value, t, b);
    }
  }

  lemma MessageMore(m: Message, b: nat, c: nat)
    requires MessageShort(m, b, b) && b <= c
    ensures MessageShort(m, c, c)
  {
    EntriesMore(m.sync.services, b, c);
    forall k | 0 <= k < |m.sync.tables| && m.sync.tables[k].Some? ensures EntriesShort(m.sync.tables[k].value, c, c) {
      EntriesMore(m.sync.tables[k].value, b, c);
    }
  }

  lemma {:induction false} SentBound(sent: set<Message>) returns (b: nat)
    ensures forall m :: m in sent ==> MessageShort(m, b, b)
    decreases |sent|
  {
    b := 0;
    if sent != {} {
      var m :| m in sent;
      var rest := SentBound(sent - {m});
      var here := MessageBound(m);
      b := rest + here;
      forall k | k in sent ensures MessageShort(k, b, b) {
        if k != m { assert k in sent - {m}; MessageMore(k, rest, b); } else { MessageMore(m, here, b); }
      }
    }
  }

  lemma NodeBound(n: NodeState) returns (b: nat)
    ensures NodeShort(n, b, b)
  {
    var c := ConnsBound(n.conns);
    var t0 := ListsBound(n.router.tables[0].dests);
    var t1 := ListsBound(n.router.tables[1].dests);
    var t2 := ListsBound(n.router.tables[2].dests);
    var t3 := ListsBound(n.router.tables[3].dests);
    var r := ListsBound(n.router.registry.remotes);
    b := c + t0 + t1 + t2 + t3 + r;
    forall goal, p | p in Listed(n.router, goal) ensures Short(p.metric, b, b) {
      assert p.metric.latency <= b;
    }
  }

  lemma NodeMore(n: NodeState, b: nat, c: nat)
    requires NodeShort(n, b, b) && b <= c
    ensures NodeShort(n, c, c)
  {
    forall goal, p | p in Listed(n.router, goal) ensures Short(p.metric, c, c) { ShortMore(p.metric, b, c); }
  }

  lemma {:induction false} NodesBound(nodes: map<NodeId, NodeState>) returns (b: nat)
    ensures forall x :: x in nodes ==> NodeShort(nodes[x], b, b)
    decreases |nodes|
  {
    b := 0;
    if nodes != map[] {
      var x :| x in nodes;
      var rest := NodesBound(nodes - {x});
      var here := NodeBound(nodes[x]);
      b := rest + here;
      forall y | y in nodes ensures NodeShort(nodes[y], b, b) {
        if y != x { assert y in nodes - {x}; NodeMore((nodes - {x})[y], rest, b); } else { NodeMore(nodes[x], here, b); }
      }
    }
  }

  lemma NetBound(s: Net) returns (b: nat)
    ensures NetShort(s, b, b)
  {
    var n := NodesBound(s.nodes);
    var m := SentBound(s.sent);
    b := n + m;
    forall x | x in s.nodes ensures NodeShort(s.nodes[x], b, b) { NodeMore(s.nodes[x], n, b); }
    forall k | k in s.sent ensures MessageShort(k, b, b) { MessageMore(k, m, b); }
  }

  // ---- convergence --------------------------------------------------------------------------

  ghost predicate Resting(s: Net, goal: Goal) { AtRest(WiringOf(s, goal), ColumnOf(s, goal)) }

  lemma HistoryEnds(s: Net, actions: seq<Action>, goal: Goal)
    requires Inv(s) && SyncOnly(actions)
    ensures var h := HistoryOf(s, actions, goal); h.g == WiringOf(Run(s, actions), goal) && h.cols[|h.moves|] == ColumnOf(Run(s, actions), goal)
  {
    SyncsKeep(s, actions);
    SameWiring(s, Run(s, actions), goal);
    assert actions[..|actions|] == actions;
  }

  lemma ColumnAtRest(s: Net, actions: seq<Action>, bounds: seq<nat>, b: nat, goal: Goal)
    requires Inv(s) && NetShort(s, b, b) && InPeriods(s, actions, bounds) && |bounds| >= 2 * Ceiling(b, b, |s.nodes.Keys|) + 2
    ensures Resting(Run(s, actions), goal)
  {
    HistoryFits(s, actions, goal);
    HistoryPaced(s, actions, bounds, goal);
    HistoryEnds(s, actions, goal);
    RunShort(s, actions, b, b);
    ShortIsBounded(Run(s, actions), b, b, goal);
    ColumnConverges(HistoryOf(s, actions, goal), s.nodes.Keys, bounds, b, b);
  }

  lemma RestingList(s: Net, x: NodeId, conn: ConnId, goal: Goal)
    requires Inv(s) && x in s.nodes && conn in s.nodes[x].conns && OverNode(s.nodes[x].conns[conn]) in s.nodes && Resting(s, goal)
    ensures var link := s.nodes[x].conns[conn];
      Listed(ApplySync(s.nodes[x].router, conn, link, CreateSync(s.nodes[OverNode(link)].router, x)), goal) == Listed(s.nodes[x].router, goal)
  {
    var link := s.nodes[x].conns[conn];
    var y := OverNode(link);
    assert NodeOk(x, s.nodes[x], s.nodes.Keys, s.registered) && NodeOk(y, s.nodes[y], s.nodes.Keys, s.registered);
    ListAfterSync(s.nodes[x].router, s.nodes[y].router, conn, link, goal);
    PulledIsTaken(s, s, x, conn, goal);
  }

  lemma RestIsSettled(s: Net, x: NodeId, conn: ConnId)
    requires Inv(s) && x in s.nodes && conn in s.nodes[x].conns && forall goal :: Resting(s, goal)
    ensures Settled(s, x, conn) && ServicesSettled(s, x, conn)
  {
    var link := s.nodes[x].conns[conn];
    if OverNode(link) in s.nodes {
      var after := ApplySync(s.nodes[x].router, conn, link, CreateSync(s.nodes[OverNode(link)].router, x));
      forall l: LayerNo, i: Byte ensures after.tables[l].dests[i] == Slot(s, x, l, i) { RestingList(s, x, conn, Index(l, i)); }
      forall v: Byte ensures after.registry.remotes[v] == ServicePaths(s, x, v) { RestingList(s, x, conn, Service(v)); }
    }
  }

  lemma Converges(s: Net, actions: seq<Action>, bounds: seq<nat>, b: nat)
    requires Inv(s) && NetShort(s, b, b) && InPeriods(s, actions, bounds) && |bounds| >= 2 * Ceiling(b, b, |s.nodes.Keys|) + 2
    ensures var s' := Run(s, actions); Inv(s') && Synchronised(s') && ServicesSynchronised(s')
  {
    var s' := Run(s, actions);
    SyncsKeep(s, actions);
    forall goal ensures Resting(s', goal) { ColumnAtRest(s, actions, bounds, b, goal); }
    forall x, conn | x in s'.nodes && conn in s'.nodes[x].conns ensures Settled(s', x, conn) && ServicesSettled(s', x, conn) {
      RestIsSettled(s', x, conn);
    }
  }

  /** Convergence: for every reachable state there is a number of periods after which, whatever is lost, duplicated,
      delayed or reordered in them, all tables and registries are synchronised. */
  lemma NetworkConverges(ids: set<NodeId>, past: seq<Action>, s: Net) returns (n: nat)
    requires s == Run(Initial(ids), past)
    ensures forall actions, bounds :: InPeriods(s, actions, bounds) && |bounds| >= n ==>
      var s' := Run(s, actions); Inv(s') && Synchronised(s') && ServicesSynchronised(s')
  {
    EveryRunIsSafe(ids, past);
    var b := NetBound(s);
    n := 2 * Ceiling(b, b, |s.nodes.Keys|) + 2;
    forall actions, bounds | InPeriods(s, actions, bounds) && |bounds| >= n
      ensures var s' := Run(s, actions); Inv(s') && Synchronised(s') && ServicesSynchronised(s')
    {
      Converges(s, actions, bounds, b);
    }
  }

  // ---- such runs exist ----------------------------------------------------------------------

  /** Every connection has one back. */
  predicate TwoWay(s: Net) {
    forall w :: w in Wires(s) ==> LinkedTo(s, OverNode(s.nodes[w.x].conns[w.conn]), w.x)
  }

  /** Every sync is delivered as its sender would build it at that moment. */
  predicate Prompt(s: Net, actions: seq<Action>) {
    SyncOnly(actions) && forall t :: 0 <= t < |actions| ==> BuiltSince(s, actions, t, t)
  }

  /** A longer run does the same at first. */
  lemma SameBefore(s: Net, actions: seq<Action>, all: seq<Action>, t: nat)
    requires t <= |actions| && actions <= all
    ensures At(s, all, t) == At(s, actions, t)
    ensures t < |actions| ==> MoveAt(s, all, t) == MoveAt(s, actions, t)
    ensures t < |actions| && BuiltSince(s, actions, t, t) ==> BuiltSince(s, all, t, t)
  {
    assert all[..t] == actions[..t];
    if t < |actions| && BuiltSince(s, actions, t, t) && MoveAt(s, actions, t).Some? {
      assert BuiltAt(s, actions, t, t);
      assert BuiltAt(s, all, t, t);
    }
  }

  lemma ServedLonger(s: Net, actions: seq<Action>, all: seq<Action>, from: nat, until: nat, w: Wire)
    requires actions <= all && until <= |actions| && Served(s, actions, from, until, w)
    ensures Served(s, all, from, until, w)
  {
    var t :| from <= t < until && MoveAt(s, actions, t) == Some(w);
    SameBefore(s, actions, all, t);
  }

  lemma ServedWider(s: Net, actions: seq<Action>, from: nat, from': nat, until: nat, until': nat, w: Wire)
    requires from <= from' && until' <= until <= |actions| && Served(s, actions, from', until', w)
    ensures Served(s, actions, from, until, w)
  {
  }

  /** The two steps that bring the neighbour's current sync over a connection. */
  lemma SendAndDeliver(s: Net, w: Wire, back: ConnId) returns (a1: Action, a2: Action)
    requires w in Wires(s)
    requires var y := OverNode(s.nodes[w.x].conns[w.conn]); y in s.nodes && back in s.nodes[y].conns && OverNode(s.nodes[y].conns[back]) == w.x
    ensures a1.SendSync? && a2.Deliver? && Wire(a2.x, a2.conn) == w && Enabled(Step(s, a1), a2)
    ensures IsCurrent(Step(s, a1), a2)
  {
    var y := OverNode(s.nodes[w.x].conns[w.conn]);
    a1 := SendSync(y, back);
    a2 := Deliver(w.x, w.conn, Message(y, w.x, CreateSync(s.nodes[y].router, w.x)));
    assert Step(s, a1).nodes == s.nodes;
  }

  predicate IsCurrent(s: Net, a: Action) {
    a.SendSync? || (a.Deliver? && a.msg.from in s.nodes && a.msg.sync == CreateSync(s.nodes[a.msg.from].router, a.msg.to))
  }

  lemma PromptStep(s: Net, actions: seq<Action>, a: Action)
    requires Prompt(s, actions) && IsCurrent(Run(s, actions), a)
    ensures Prompt(s, actions + [a])
    ensures Run(s, actions + [a]) == Step(Run(s, actions), a)
    ensures a.Deliver? && Enabled(Run(s, actions), a) ==> MoveAt(s, actions + [a], |actions|) == Some(Wire(a.x, a.conn))
  {
    var all, n := actions + [a], |actions|;
    assert all[..n] == actions;
    forall t | 0 <= t < |all| ensures BuiltSince(s, all, t, t) {
      if t < n { SameBefore(s, actions, all, t); } else if a.Deliver? { assert BuiltAt(s, all, n, n); }
    }
  }

  lemma {:induction false} SyncsKeepLinks(s: Net, actions: seq<Action>)
    requires SyncOnly(actions)
    ensures SameLinks(s, Run(s, actions))
  {
    if actions != [] {
      var before, last := actions[..|actions| - 1], actions[|actions| - 1];
      assert last in actions;
      SyncsKeepLinks(s, before);
      SyncKeepsLinks(Run(s, before), last);
      SameLinksTransitive(s, Run(s, before), Run(s, actions));
    }
  }

  /** The connection back, still there after a run of syncs. */
  lemma BackLink(s: Net, actions: seq<Action>, w: Wire) returns (back: ConnId)
    requires TwoWay(s) && SyncOnly(actions) && w in Wires(s)
    ensures var now := Run(s, actions);
      && w in Wires(now)
      && var y := OverNode(now.nodes[w.x].conns[w.conn]);
         y in now.nodes && back in now.nodes[y].conns && OverNode(now.nodes[y].conns[back]) == w.x
  {
    SyncsKeepLinks(s, actions);
    var y := OverNode(s.nodes[w.x].conns[w.conn]);
    back :| back in s.nodes[y].conns && OverNode(s.nodes[y].conns[back]) == w.x;
  }

  /** One more connection served. */
  lemma ServeOne(s: Net, actions: seq<Action>, w: Wire) returns (all: seq<Action>)
    requires TwoWay(s) && Prompt(s, actions) && w in Wires(s)
    ensures actions <= all && Prompt(s, all) && Served(s, all, |actions|, |all|, w)
  {
    var back := BackLink(s, actions, w);
    var a1, a2 := SendAndDeliver(Run(s, actions), w, back);
    PromptStep(s, actions, a1);
    PromptStep(s, actions + [a1], a2);
    all := actions + [a1] + [a2];
  }

  lemma {:induction false} ServeAll(s: Net, actions: seq<Action>, ws: set<Wire>) returns (all: seq<Action>)
    requires TwoWay(s) && Prompt(s, actions) && ws <= Wires(s)
    ensures actions <= all && Prompt(s, all) && forall w :: w in ws ==> Served(s, all, |actions|, |all|, w)
    decreases |ws|
  {
    if ws == {} {
      all := actions;
    } else {
      var w :| w in ws;
      var first := ServeOne(s, actions, w);
      all := ServeAll(s, first, ws - {w});
      var n, m := |actions|, |first|;
      forall v | v in ws ensures Served(s, all, n, |all|, v) {
        if v == w {
          ServedLonger(s, first, all, n, m, w);
          ServedWider(s, all, n, n, |all|, m, w);
        } else {
          ServedWider(s, all, n, m, |all|, |all|, v);
        }
      }
    }
  }

  /** A prompt run of which each period but the first serves every connection. */
  predicate Regular(s: Net, actions: seq<Action>, bounds: seq<nat>) {
    && Prompt(s, actions) && |bounds| >= 2 && bounds[|bounds| - 1] == |actions| && Ascending(bounds, |actions|)
    && (forall k :: 1 <= k < |bounds| - 1 ==> AllServed(s, actions, bounds[k], bounds[k + 1]))
  }

  lemma RegularLonger(s: Net, actions: seq<Action>, bounds: seq<nat>, all: seq<Action>)
    requires Regular(s, actions, bounds) && actions <= all && Prompt(s, all) && AllServed(s, all, |actions|, |all|)
    ensures Regular(s, all, bounds + [|all|])
  {
    var longer := bounds + [|all|];
    forall k | 1 <= k < |longer| - 1 ensures AllServed(s, all, longer[k], longer[k + 1]) {
      if k < |bounds| - 1 {
        assert AllServed(s, actions, bounds[k], bounds[k + 1]);
        forall w | w in Wires(s) ensures Served(s, all, bounds[k], bounds[k + 1], w) {
          ServedLonger(s, actions, all, bounds[k], bounds[k + 1], w);
        }
      }
    }
  }

  lemma {:induction false} RegularRun(s: Net, n: nat) returns (actions: seq<Action>, bounds: seq<nat>)
    requires TwoWay(s)
    ensures Regular(s, actions, bounds) && |bounds| >= n
  {
    actions, bounds := [], [0, 0];
    if n > 2 {
      actions, bounds := RegularRun(s, n - 1);
      var all := ServeAll(s, actions, Wires(s));
      RegularLonger(s, actions, bounds, all);
      actions, bounds := all, bounds + [|all|];
    }
  }

  /** When every connection has one back, there are runs in as many periods as one likes. */
  lemma PeriodsExist(s: Net, n: nat) returns (actions: seq<Action>, bounds: seq<nat>)
    requires TwoWay(s)
    ensures InPeriods(s, actions, bounds) && |bounds| >= n
  {
    actions, bounds := RegularRun(s, n);
    forall k | 1 <= k < |bounds| ensures AllBuiltSince(s, actions, bounds[k], bounds[k - 1]) {
      var since := bounds[k - 1];
      forall t | bounds[k] <= t < |actions| ensures BuiltSince(s, actions, t, since) {
        assert BuiltSince(s, actions, t, t);
      }
    }
  }

  // ---- what a settled network does ----------------------------------------------------------

  lemma {:induction false} RunConcat(s: Net, past: seq<Action>, actions: seq<Action>)
    ensures Run(Run(s, past), actions) == Run(s, past + actions)
  {
    if actions == [] {
      assert past + actions == past;
    } else {
      var n := |actions| - 1;
      RunConcat(s, past, actions[..n]);
      assert (past + actions)[..|past| + n] == past + actions[..n];
    }
  }

  lemma {:induction false} WalkKept(s: Net, s': Net, trace: seq<NodeId>, l: LayerNo, i: Byte)
    requires SameLinks(s, s') && Walk(s, trace, l, i)
    ensures Walk(s', trace, l, i)
  {
    if |trace| > 1 {
      WalkKept(s, s', trace[1..], l, i);
    }
  }

  lemma MeetingKept(s: Net, s': Net, x: NodeId, d: NodeId)
    requires SameLinks(s, s') && CanMeet(s, x, d)
    ensures CanMeet(s', x, d)
  {
    var e := EqUtilLayer(x, d);
    var trace :| Walk(s, trace, e - 1, Layer(d, e - 1)) && trace[0] == x;
    WalkKept(s, s', trace, e - 1, Layer(d, e - 1));
  }

  lemma SettledIsComplete(ids: set<NodeId>, past: seq<Action>, s: Net, actions: seq<Action>)
    requires s == Run(Initial(ids), past) && AllMeet(s) && SyncOnly(actions) && Synchronised(Run(s, actions))
    ensures Complete(Run(s, actions))
  {
    var s' := Run(s, actions);
    EveryRunIsSafe(ids, past);
    SyncsKeep(s, actions);
    forall x, d | x in s'.nodes && d in s'.nodes && x != d ensures CanMeet(s', x, d) {
      MeetingKept(s, s', x, d);
    }
    RunConcat(Initial(ids), past, actions);
    CompleteIffAllMeet(ids, past + actions, s');
  }

  /** Messages reach every node, keys their XOR-nearest node, and services an offering node wherever links lead to one. */
  ghost predicate Delivers(s: Net) {
    && Inv(s) && Synchronised(s) && ServicesSynchronised(s) && Complete(s)
    && (forall x, d :: x in s.nodes && d in s.nodes ==>
          var trace := Forward(s, x, d); Distinct(trace) && trace[|trace| - 1] == d)
    && (forall x, key: NodeId :: x in s.nodes ==> Nearest(s, RouteKey(s, x, key), key))
    && (forall x, v: Byte :: x in s.nodes ==>
          Distinct(ServiceTrace(s, x, v)) && (Offers(s, TraceEnd(s, x, v), v) <==> CanReachService(s, x, v)))
  }

  lemma ServicesDeliver(s: Net, x: NodeId, v: Byte)
    requires Inv(s) && ServicesSynchronised(s) && x in s.nodes
    ensures Distinct(ServiceTrace(s, x, v)) && (Offers(s, TraceEnd(s, x, v), v) <==> CanReachService(s, x, v))
  {
    KnowsServiceIff(s, x, v);
    EndOffersIff(s, x, v);
  }

  lemma SettledDelivers(s: Net)
    requires Inv(s) && Synchronised(s) && ServicesSynchronised(s) && Complete(s)
    ensures Delivers(s)
  {
    forall x, d | x in s.nodes && d in s.nodes ensures var trace := Forward(s, x, d); Distinct(trace) && trace[|trace| - 1] == d {
      LoopFree(s, x, d);
    }
    forall x, key: NodeId | x in s.nodes ensures Nearest(s, RouteKey(s, x, key), key) {
      OneRoot(s, x, x, key);
    }
    forall x, v: Byte | x in s.nodes
      ensures Distinct(ServiceTrace(s, x, v)) && (Offers(s, TraceEnd(s, x, v), v) <==> CanReachService(s, x, v))
    {
      ServicesDeliver(s, x, v);
    }
  }

  /** A network of fixed links in which any two nodes can meet ends up delivering: after enough periods forwarding from
      every node reaches every destination without a loop, key routing meets at the XOR-nearest node, and a message for a
      service gets to a node offering it exactly when links lead there. */
  lemma NetworkDelivers(ids: set<NodeId>, past: seq<Action>, s: Net) returns (n: nat)
    requires s == Run(Initial(ids), past) && AllMeet(s)
    ensures forall actions, bounds :: InPeriods(s, actions, bounds) && |bounds| >= n ==> Delivers(Run(s, actions))
  {
    n := NetworkConverges(ids, past, s);
    forall actions, bounds | InPeriods(s, actions, bounds) && |bounds| >= n ensures Delivers(Run(s, actions)) {
      SettledIsComplete(ids, past, s, actions);
      SettledDelivers(Run(s, actions));
    }
  }
}
