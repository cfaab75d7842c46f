/** The shadow router agrees with the router it mirrors: at every moment of every run, the shadow plus the
    deltas still queued is exactly the router's best paths and service lists. */
module Mirror {
  import opened Identity
  import opened Sorting
  import opened Paths
  import opened RouterModel
  import opened ShadowModel

  /** The node at the other end of a connection. */
  type Peers = ConnId -> NodeId

  // ---- what the shadow should show ----------------------------------------------------------

  function HeadsOf(dests: Dests): Heads {
    seq(256, i requires 0 <= i < 256 => BestConn(dests[i]))
  }

  function Entry(p: Path, peers: Peers): ServiceConn {
    ServiceConn(p.conn, peers(p.conn), DestNode(p.metric), Score(p.metric))
  }

  function EntriesOf(paths: seq<Path>, peers: Peers): seq<ServiceConn> {
    Map(paths, (p: Path) => Entry(p, peers))
  }

  function ServicesOf(remotes: Dests, peers: Peers): Services {
    seq(256, v requires 0 <= v < 256 => EntriesOf(remotes[v], peers))
  }

  // ---- replaying queued deltas --------------------------------------------------------------

  function ReplayHead(heads: Heads, d: TableDelta): Heads {
    heads[d.index := match d.delta case SetBestPath(c) => Some(c) case DelBestPath => None]
  }

  function ReplayHeads(heads: Heads, deltas: seq<TableDelta>): Heads {
    if deltas == [] then heads else ReplayHead(ReplayHeads(heads, deltas[..|deltas| - 1]), deltas[|deltas| - 1])
  }

  datatype Offer = Offer(locals: set<Byte>, services: Services)

  /** The entries of a slot after one more delta. */
  function Updated(entries: seq<ServiceConn>, d: RegistryDestDelta, peers: Peers): seq<ServiceConn> {
    match d
    case SetServicePath(c, dest, score) => SetConn(entries, ServiceConn(c, peers(c), dest, score))
    case DelServicePath(c) => DelConn(entries, c)
  }

  function ReplayOffer(o: Offer, d: RegistryDelta, peers: Peers): Offer {
    match d
    case SetServiceLocal(v) => o.(locals := o.locals + {v})
    case DelServiceLocal(v) => o.(locals := o.locals - {v})
    case ServiceRemote(v, change) => o.(services := o.services[v := Updated(o.services[v], change, peers)])
  }

  function ReplayStep(peers: Peers): (Offer, RegistryDelta) -> Offer { (o, d) => ReplayOffer(o, d, peers) }

  function ReplayOffers(o: Offer, deltas: seq<RegistryDelta>, peers: Peers): Offer { FoldAll(ReplayStep(peers), o, deltas) }

  lemma {:induction false} ReplayHeadsAppend(heads: Heads, a: seq<TableDelta>, b: seq<TableDelta>)
    ensures ReplayHeads(heads, a + b) == ReplayHeads(ReplayHeads(heads, a), b)
  {
    if b == [] {
      assert a + b == a;
    } else {
      ReplayHeadsAppend(heads, a, b[..|b| - 1]);
      assert (a + b)[..|a + b| - 1] == a + b[..|b| - 1];
    }
  }

  lemma ReplayOffersShort(o: Offer, deltas: seq<RegistryDelta>, peers: Peers)
    ensures deltas == [] ==> ReplayOffers(o, deltas, peers) == o
    ensures |deltas| == 1 ==> ReplayOffers(o, deltas, peers) == ReplayOffer(o, deltas[0], peers)
  {
    if |deltas| == 1 {
      assert deltas[..0] == [];
      assert FoldAll(ReplayStep(peers), o, deltas[..0]) == o;
    }
  }

  lemma ReplayOffersAppend(o: Offer, a: seq<RegistryDelta>, b: seq<RegistryDelta>, peers: Peers)
    ensures ReplayOffers(o, a + b, peers) == ReplayOffers(ReplayOffers(o, a, peers), b, peers)
  {
    FoldAllAppend(ReplayStep(peers), o, a, b);
  }

  // ---- tables -------------------------------------------------------------------------------

  /** Heads after the first `n` slots changed. */
  function HalfHeads(before: Dests, after: Dests, n: nat): Heads {
    seq(256, i requires 0 <= i < 256 => BestConn(if i < n then after[i] else before[i]))
  }

  /** Replaying the deltas of slot `n - 1`. */
  lemma SlotReplays(before: Dests, after: Dests, n: nat)
    requires 0 < n <= 256
    ensures ReplayHeads(HalfHeads(before, after, n - 1), Tagged(n - 1, BestDelta(before[n - 1], after[n - 1]))) == HalfHeads(before, after, n)
  {
  }

  lemma {:induction false} OwedReplays(before: Dests, after: Dests, n: nat)
    requires n <= 256
    ensures ReplayHeads(HalfHeads(before, after, 0), Owed(before, after, n)) == HalfHeads(before, after, n)
  {
    if n > 0 {
      OwedReplays(before, after, n - 1);
      ReplayHeadsAppend(HalfHeads(before, after, 0), Owed(before, after, n - 1), Tagged(n - 1, BestDelta(before[n - 1], after[n - 1])));
      SlotReplays(before, after, n);
    }
  }

  ghost predicate TableMirrored(heads: Heads, t: TableState) {
    ReplayHeads(heads, t.deltas) == HeadsOf(t.dests)
  }

  /** Whatever a table's slots become, queueing what is owed keeps the mirror. */
  lemma BecomeKeepsMirror(heads: Heads, t: TableState, after: Dests)
    requires TableMirrored(heads, t)
    ensures TableMirrored(heads, Become(t, after))
  {
    ReplayHeadsAppend(heads, t.deltas, Owed(t.dests, after, 256));
    OwedReplays(t.dests, after, 256);
    assert HalfHeads(t.dests, after, 0) == HeadsOf(t.dests) && HalfHeads(t.dests, after, 256) == HeadsOf(after);
  }

  // ---- one service --------------------------------------------------------------------------

  lemma EntriesFollowSet(paths: seq<Path>, conn: ConnId, m: Route, peers: Peers)
    ensures EntriesOf(SetPath(paths, conn, m), peers) == SetConn(EntriesOf(paths, peers), Entry(Path(conn, m), peers))
  {
    var f := (p: Path) => Entry(p, peers);
    PlacedCommutesWithMap(paths, Path(conn, m), f, PathConn, ConnOf);
    SortCommutesWithMap(Placed(paths, Path(conn, m), PathConn), f, PathScore, ConnScore);
  }

  lemma EntriesFollowDel(paths: seq<Path>, conn: ConnId, peers: Peers)
    ensures EntriesOf(DelPath(paths, conn), peers) == DelConn(EntriesOf(paths, peers), conn)
  {
    RetainedCommutesWithMap(paths, (p: Path) => Entry(p, peers), PathConn, ConnOf, conn);
  }

  lemma NoPathNoChange(paths: seq<Path>, conn: ConnId)
    requires IndexOf(paths, conn) < 0
    ensures DelPath(paths, conn) == paths
  {
    RetainedAll(paths, PathConn, conn);
  }

  lemma SameScoresSorted(paths: seq<Path>, i: nat, p: Path)
    requires SortedBy(paths, PathScore) && i < |paths| && PathScore(paths[i]) == PathScore(p)
    ensures SortedBy(paths[i := p], PathScore)
  {
  }

  lemma SameEntries(paths: seq<Path>, i: nat, p: Path, peers: Peers)
    requires i < |paths| && Entry(paths[i], peers) == Entry(p, peers)
    ensures EntriesOf(paths[i := p], peers) == EntriesOf(paths, peers)
  {
  }

  /** A path replaced by one with the same score and destination shows no difference. */
  lemma SilentSet(paths: seq<Path>, conn: ConnId, m: Route, peers: Peers)
    requires WellFormed(paths)
    requires var i := IndexOf(paths, conn); i >= 0 && Score(paths[i].metric) == Score(m) && DestNode(paths[i].metric) == DestNode(m)
    ensures EntriesOf(SetPath(paths, conn, m), peers) == EntriesOf(paths, peers)
  {
    var i := IndexOf(paths, conn);
    assert Placed(paths, Path(conn, m), PathConn) == paths[i := Path(conn, m)];
    SameScoresSorted(paths, i, Path(conn, m));
    SortOfSorted(paths[i := Path(conn, m)], PathScore);
    SameEntries(paths, i, Path(conn, m), peers);
  }

  /** An update either shows nothing and sends nothing, or sends one delta that shows it. */
  lemma SlotUpdateShows(paths: seq<Path>, conn: ConnId, update: Option<Route>, peers: Peers)
    requires WellFormed(paths)
    ensures var deltas := ServiceSlotDeltas(paths, conn, update);
      var after := EntriesOf(ServiceSlot(paths, conn, update), peers);
      |deltas| <= 1 && after == if deltas == [] then EntriesOf(paths, peers) else Updated(EntriesOf(paths, peers), deltas[0], peers)
  {
    match update {
      case None =>
        if ServiceSlotDeltas(paths, conn, update) == [] {
          NoPathNoChange(paths, conn);
        } else {
          EntriesFollowDel(paths, conn, peers);
        }
      case Some(m) =>
        if ServiceSlotDeltas(paths, conn, update) == [] {
          SilentSet(paths, conn, m, peers);
        } else {
          EntriesFollowSet(paths, conn, m, peers);
        }
    }
  }

  lemma ReplayTagged(o: Offer, v: Byte, deltas: seq<RegistryDestDelta>, after: seq<ServiceConn>, peers: Peers)
    requires |deltas| <= 1
    requires after == if deltas == [] then o.services[v] else Updated(o.services[v], deltas[0], peers)
    ensures ReplayOffers(o, TaggedService(v, deltas), peers) == o.(services := o.services[v := after])
  {
    ReplayOffersShort(o, TaggedService(v, deltas), peers);
    assert o.services[v := o.services[v]] == o.services;
  }

  /** Replaying the deltas of one service slot turns its old entries into its new ones. */
  lemma ServiceSlotReplays(o: Offer, v: Byte, paths: seq<Path>, conn: ConnId, update: Option<Route>, peers: Peers)
    requires WellFormed(paths) && o.services[v] == EntriesOf(paths, peers)
    ensures ReplayOffers(o, TaggedService(v, ServiceSlotDeltas(paths, conn, update)), peers)
      == o.(services := o.services[v := EntriesOf(ServiceSlot(paths, conn, update), peers)])
  {
    SlotUpdateShows(paths, conn, update, peers);
    ReplayTagged(o, v, ServiceSlotDeltas(paths, conn, update), EntriesOf(ServiceSlot(paths, conn, update), peers), peers);
  }

  function HalfServices(r: RegistryState, conn: ConnId, cached: map<Byte, Route>, n: nat, peers: Peers): Services {
    seq(256, v requires 0 <= v < 256 => EntriesOf(if v < n then ServiceSlot(r.remotes[v], conn, Lookup(cached, v)) else r.remotes[v], peers))
  }

  lemma HalfServicesStep(r: RegistryState, conn: ConnId, cached: map<Byte, Route>, n: nat, peers: Peers)
    requires 0 < n <= 256
    ensures HalfServices(r, conn, cached, n, peers)
      == HalfServices(r, conn, cached, n - 1, peers)[n - 1 := EntriesOf(ServiceSlot(r.remotes[n - 1], conn, Lookup(cached, n - 1)), peers)]
    ensures HalfServices(r, conn, cached, n - 1, peers)[n - 1] == EntriesOf(r.remotes[n - 1], peers)
  {
    var before, after := HalfServices(r, conn, cached, n - 1, peers), HalfServices(r, conn, cached, n, peers);
    forall v | 0 <= v < 256 && v != n - 1 ensures after[v] == before[v] { }
  }

  lemma HalfServicesEnds(r: RegistryState, conn: ConnId, cached: map<Byte, Route>, peers: Peers)
    ensures HalfServices(r, conn, cached, 0, peers) == ServicesOf(r.remotes, peers)
    ensures HalfServices(r, conn, cached, 256, peers) == ServicesOf(RegistryUpdate(r, conn, cached).remotes, peers)
  {
  }

  /** The deltas owed for service `n - 1`. */
  function ServiceStep(r: RegistryState, conn: ConnId, cached: map<Byte, Route>, n: nat): seq<RegistryDelta>
    requires 0 < n <= 256
  {
    TaggedService(n - 1, ServiceSlotDeltas(r.remotes[n - 1], conn, Lookup(cached, n - 1)))
  }

  lemma ServiceStepReplays(r: RegistryState, conn: ConnId, cached: map<Byte, Route>, n: nat, peers: Peers)
    requires 0 < n <= 256 && WellFormed(r.remotes[n - 1])
    ensures ReplayOffers(Offer(r.locals, HalfServices(r, conn, cached, n - 1, peers)), ServiceStep(r, conn, cached, n), peers)
      == Offer(r.locals, HalfServices(r, conn, cached, n, peers))
  {
    HalfServicesStep(r, conn, cached, n, peers);
    ServiceSlotReplays(Offer(r.locals, HalfServices(r, conn, cached, n - 1, peers)), n - 1, r.remotes[n - 1], conn, Lookup(cached, n - 1), peers);
  }

  lemma {:induction false} OwedServicesReplay(r: RegistryState, conn: ConnId, cached: map<Byte, Route>, n: nat, peers: Peers)
    requires n <= 256 && forall v: Byte :: WellFormed(r.remotes[v])
    ensures ReplayOffers(Offer(r.locals, HalfServices(r, conn, cached, 0, peers)), OwedServices(r.remotes, conn, cached, n), peers)
      == Offer(r.locals, HalfServices(r, conn, cached, n, peers))
  {
    if n > 0 {
      OwedServicesReplay(r, conn, cached, n - 1, peers);
      ReplayOffersAppend(Offer(r.locals, HalfServices(r, conn, cached, 0, peers)), OwedServices(r.remotes, conn, cached, n - 1), ServiceStep(r, conn, cached, n), peers);
      ServiceStepReplays(r, conn, cached, n, peers);
    }
  }

  ghost predicate RegistryMirrored(o: Offer, r: RegistryState, peers: Peers) {
    && (forall v: Byte :: WellFormed(r.remotes[v]))
    && ReplayOffers(o, r.deltas, peers) == Offer(r.locals, ServicesOf(r.remotes, peers))
  }

  lemma UpdateKeepsMirror(o: Offer, r: RegistryState, conn: ConnId, cached: map<Byte, Route>, peers: Peers)
    requires RegistryMirrored(o, r, peers)
    ensures RegistryMirrored(o, RegistryUpdate(r, conn, cached), peers)
  {
    var r' := RegistryUpdate(r, conn, cached);
    ReplayOffersAppend(o, r.deltas, OwedServices(r.remotes, conn, cached, 256), peers);
    OwedServicesReplay(r, conn, cached, 256, peers);
    HalfServicesEnds(r, conn, cached, peers);
    forall v: Byte ensures WellFormed(r'.remotes[v]) {
      if v in cached {
        SetPathFacts(r.remotes[v], conn, cached[v]);
      } else {
        DelPathFacts(r.remotes[v], conn);
      }
    }
  }

  // ---- the pair of routers ------------------------------------------------------------------

  datatype RouterDelta = TableChange(layer: LayerNo, change: TableDelta) | RegistryChange(service: RegistryDelta)

  /** The next queued delta, registry first and then the tables from layer 0 up, and the router without it. */
  function PopDelta(r: Router): Option<(RouterDelta, Router)> {
    if r.registry.deltas != [] then
      Some((RegistryChange(r.registry.deltas[0]), r.(registry := r.registry.(deltas := r.registry.deltas[1..]))))
    else PopTableDelta(r, 0)
  }

  function PopTableDelta(r: Router, l: nat): Option<(RouterDelta, Router)>
    requires l <= 4
    decreases 4 - l
  {
    if l == 4 then None
    else if r.tables[l].deltas != [] then
      Some((TableChange(l, r.tables[l].deltas[0]), r.(tables := r.tables[l := r.tables[l].(deltas := r.tables[l].deltas[1..])])))
    else PopTableDelta(r, l + 1)
  }

  /** A queued delta as the shadow receives it, keyed by connection. */
  function Translate(d: RouterDelta, peers: Peers): ShadowDelta {
    match d
    case TableChange(l, TableDelta(i, SetBestPath(c))) => SetTable(l, i, c)
    case TableChange(l, TableDelta(i, DelBestPath)) => DelTable(l, i)
    case RegistryChange(SetServiceLocal(v)) => SetLocal(v)
    case RegistryChange(DelServiceLocal(v)) => DelLocal(v)
    case RegistryChange(ServiceRemote(v, SetServicePath(c, dest, score))) => SetServiceRemote(v, ServiceConn(c, peers(c), dest, score))
    case RegistryChange(ServiceRemote(v, DelServicePath(c))) => DelServiceRemote(v, c)
  }

  datatype Op =
    | OpSetDirect(conn: ConnId, metric: Route)
    | OpDelDirect(conn: ConnId)
    | OpApplySync(conn: ConnId, link: Route, sync: RouterSync)
    | OpRegister(service: Byte)
    | OpTransfer

  datatype Pair = Pair(router: Router, shadow: Shadow)

  /** One operation on the router, or the transfer of one delta to the shadow. */
  function PairStep(s: Pair, op: Op, peers: Peers): Pair {
    match op
    case OpSetDirect(conn, metric) => s.(router := SetDirect(s.router, conn, metric))
    case OpDelDirect(conn) => s.(router := RouterDelDirect(s.router, conn))
    case OpApplySync(conn, link, sync) => if |sync.tables| == 4 then s.(router := ApplySync(s.router, conn, link, sync)) else s
    case OpRegister(service) => s.(router := RegisterService(s.router, service))
    case OpTransfer =>
      match PopDelta(s.router)
      case None => s
      case Some((d, rest)) => Pair(rest, ApplyDelta(s.shadow, Translate(d, peers)))
  }

  function PairRun(node: NodeId, ops: seq<Op>, peers: Peers): Pair {
    if ops == [] then Pair(NewRouter(node), NewShadow(node))
    else PairStep(PairRun(node, ops[..|ops| - 1], peers), ops[|ops| - 1], peers)
  }

  function OfferOf(s: Shadow): Offer {
    Offer(s.locals, s.services)
  }

  ghost predicate Mirrored(s: Pair, peers: Peers) {
    && s.router.node == s.shadow.node
    && (forall l: LayerNo :: TableMirrored(s.shadow.tables[l], s.router.tables[l]))
    && RegistryMirrored(OfferOf(s.shadow), s.router.registry, peers)
  }

  lemma OneTableKeepsMirror(s: Pair, l: LayerNo, t: TableState, peers: Peers)
    requires Mirrored(s, peers) && TableMirrored(s.shadow.tables[l], t)
    ensures Mirrored(s.(router := s.router.(tables := s.router.tables[l := t])), peers)
  {
  }

  lemma AddDirectKeepsMirror(heads: Heads, t: TableState, l: LayerNo, conn: ConnId, metric: Route)
    requires TableMirrored(heads, t)
    ensures TableMirrored(heads, AddDirect(t, l, conn, metric))
  {
    var index := Layer(OverNode(metric), l);
    BecomeKeepsMirror(heads, t, t.dests[index := SetPath(t.dests[index], conn, metric)]);
  }

  lemma LayerKeepsMirror(s: Pair, l: LayerNo, conn: ConnId, metric: Route, peers: Peers)
    requires Mirrored(s, peers)
    ensures Mirrored(s.(router := s.router.(tables := s.router.tables[l := AddDirect(s.router.tables[l], l, conn, metric)])), peers)
  {
    AddDirectKeepsMirror(s.shadow.tables[l], s.router.tables[l], l, conn, metric);
    OneTableKeepsMirror(s, l, AddDirect(s.router.tables[l], l, conn, metric), peers);
  }

  lemma SetDirectIsOneTable(r: Router, conn: ConnId, metric: Route)
    ensures var e := EqUtilLayer(r.node, OverNode(metric));
      SetDirect(r, conn, metric) == if e == 0 then r else r.(tables := r.tables[e - 1 := AddDirect(r.tables[e - 1], e - 1, conn, metric)])
  {
  }

  lemma SetDirectKeepsMirror(s: Pair, conn: ConnId, metric: Route, peers: Peers)
    requires Mirrored(s, peers)
    ensures Mirrored(s.(router := SetDirect(s.router, conn, metric)), peers)
  {
    var e := EqUtilLayer(s.router.node, OverNode(metric));
    SetDirectIsOneTable(s.router, conn, metric);
    if e > 0 { LayerKeepsMirror(s, e - 1, conn, metric, peers); }
  }

  lemma DelDirectKeepsMirror(s: Pair, conn: ConnId, peers: Peers)
    requires Mirrored(s, peers)
    ensures Mirrored(s.(router := RouterDelDirect(s.router, conn)), peers)
  {
    forall l: LayerNo ensures TableMirrored(s.shadow.tables[l], DelDirect(s.router.tables[l], conn)) {
      BecomeKeepsMirror(s.shadow.tables[l], s.router.tables[l], WithoutConn(s.router.tables[l].dests, conn));
    }
    UpdateKeepsMirror(OfferOf(s.shadow), s.router.registry, conn, map[], peers);
  }

  lemma ApplySyncKeepsMirror(s: Pair, conn: ConnId, link: Route, sync: RouterSync, peers: Peers)
    requires Mirrored(s, peers) && |sync.tables| == 4
    ensures Mirrored(s.(router := ApplySync(s.router, conn, link, sync)), peers)
  {
    forall l: LayerNo ensures TableMirrored(s.shadow.tables[l], MaybeTableSync(s.router, l, conn, link, sync.tables[l])) {
      if sync.tables[l].Some? {
        BecomeKeepsMirror(s.shadow.tables[l], s.router.tables[l], SyncedDests(s.router.tables[l].dests, s.router.node, l, conn, link, sync.tables[l].value));
      }
    }
    UpdateKeepsMirror(OfferOf(s.shadow), s.router.registry, conn, Cached(sync.services, link), peers);
  }

  lemma RegisterKeepsMirror(s: Pair, v: Byte, peers: Peers)
    requires Mirrored(s, peers)
    ensures Mirrored(s.(router := RegisterService(s.router, v)), peers)
  {
  }

  lemma HeadFirst(heads: Heads, deltas: seq<TableDelta>)
    requires deltas != []
    ensures ReplayHeads(heads, deltas) == ReplayHeads(ReplayHead(heads, deltas[0]), deltas[1..])
  {
    ReplayHeadsAppend(heads, [deltas[0]], deltas[1..]);
    assert [deltas[0]] + deltas[1..] == deltas;
    assert ReplayHeads(heads, [deltas[0]]) == ReplayHead(heads, deltas[0]);
  }

  lemma OfferFirst(o: Offer, deltas: seq<RegistryDelta>, peers: Peers)
    requires deltas != []
    ensures ReplayOffers(o, deltas, peers) == ReplayOffers(ReplayOffer(o, deltas[0], peers), deltas[1..], peers)
  {
    ReplayOffersAppend(o, [deltas[0]], deltas[1..], peers);
    assert [deltas[0]] + deltas[1..] == deltas;
    ReplayOffersShort(o, [deltas[0]], peers);
  }

  lemma {:induction false} PoppedTable(r: Router, l: nat)
    requires l <= 4 && PopTableDelta(r, l).Some?
    ensures var (d, rest) := PopTableDelta(r, l).value;
      && d.TableChange? && r.tables[d.layer].deltas != [] && d.change == r.tables[d.layer].deltas[0]
      && rest == r.(tables := r.tables[d.layer := r.tables[d.layer].(deltas := r.tables[d.layer].deltas[1..])])
    decreases 4 - l
  {
    if r.tables[l].deltas == [] {
      PoppedTable(r, l + 1);
    }
  }

  lemma TranslationAgrees(shadow: Shadow, d: RegistryDelta, peers: Peers)
    ensures var shadow' := ApplyDelta(shadow, Translate(RegistryChange(d), peers));
      OfferOf(shadow') == ReplayOffer(OfferOf(shadow), d, peers) && shadow'.tables == shadow.tables && shadow'.node == shadow.node
  {
  }

  lemma RegistryKeepsMirror(s: Pair, registry: RegistryState, shadow: Shadow, peers: Peers)
    requires Mirrored(s, peers) && RegistryMirrored(OfferOf(shadow), registry, peers)
    requires shadow.tables == s.shadow.tables && shadow.node == s.shadow.node
    ensures Mirrored(Pair(s.router.(registry := registry), shadow), peers)
  {
  }

  lemma PoppedRegistryMirrored(o: Offer, r: RegistryState, peers: Peers)
    requires RegistryMirrored(o, r, peers) && r.deltas != []
    ensures RegistryMirrored(ReplayOffer(o, r.deltas[0], peers), r.(deltas := r.deltas[1..]), peers)
  {
    OfferFirst(o, r.deltas, peers);
  }

  /** Registry deltas go first. */
  lemma RegistryGoesFirst(s: Pair, peers: Peers)
    requires s.router.registry.deltas != []
    ensures var r := s.router.registry;
      PairStep(s, OpTransfer, peers) ==
      Pair(s.router.(registry := r.(deltas := r.deltas[1..])), ApplyDelta(s.shadow, Translate(RegistryChange(r.deltas[0]), peers)))
  {
  }

  lemma TransferRegistry(s: Pair, peers: Peers)
    requires Mirrored(s, peers) && s.router.registry.deltas != []
    ensures Mirrored(PairStep(s, OpTransfer, peers), peers)
  {
    var r := s.router.registry;
    var shadow := ApplyDelta(s.shadow, Translate(RegistryChange(r.deltas[0]), peers));
    RegistryGoesFirst(s, peers);
    assert RegistryMirrored(OfferOf(shadow), r.(deltas := r.deltas[1..]), peers) by {
      PoppedRegistryMirrored(OfferOf(s.shadow), r, peers);
      TranslationAgrees(s.shadow, r.deltas[0], peers);
    }
    TranslationAgrees(s.shadow, r.deltas[0], peers);
    RegistryKeepsMirror(s, r.(deltas := r.deltas[1..]), shadow, peers);
  }

  lemma TransferTable(s: Pair, peers: Peers)
    requires Mirrored(s, peers) && s.router.registry.deltas == [] && PopDelta(s.router).Some?
    ensures Mirrored(PairStep(s, OpTransfer, peers), peers)
  {
    PoppedTable(s.router, 0);
    var (d, rest) := PopTableDelta(s.router, 0).value;
    HeadFirst(s.shadow.tables[d.layer], s.router.tables[d.layer].deltas);
    var shadow := ApplyDelta(s.shadow, Translate(d, peers));
    assert shadow.tables[d.layer] == ReplayHead(s.shadow.tables[d.layer], d.change);
    assert OfferOf(shadow) == OfferOf(s.shadow) && rest.registry == s.router.registry;
    forall l: LayerNo ensures TableMirrored(shadow.tables[l], rest.tables[l]) {
      assert TableMirrored(s.shadow.tables[l], s.router.tables[l]);
    }
  }

  lemma TransferKeepsMirror(s: Pair, peers: Peers)
    requires Mirrored(s, peers)
    ensures Mirrored(PairStep(s, OpTransfer, peers), peers)
  {
    if s.router.registry.deltas != [] {
      TransferRegistry(s, peers);
    } else if PopDelta(s.router).Some? {
      TransferTable(s, peers);
    }
  }

  lemma NewPairMirrored(node: NodeId, peers: Peers)
    ensures Mirrored(Pair(NewRouter(node), NewShadow(node)), peers)
  {
  }

  /** Shadow refinement: for every interleaving of router operations and delta transfers, the shadow followed by
      the queued deltas shows exactly the best path of every slot and every service list in order. */
  lemma {:induction false} EveryRunIsMirrored(node: NodeId, ops: seq<Op>, peers: Peers)
    ensures Mirrored(PairRun(node, ops, peers), peers)
  {
    if ops == [] {
      NewPairMirrored(node, peers);
    } else {
      var s := PairRun(node, ops[..|ops| - 1], peers);
      EveryRunIsMirrored(node, ops[..|ops| - 1], peers);
      match ops[|ops| - 1] {
        case OpSetDirect(conn, metric) => SetDirectKeepsMirror(s, conn, metric, peers);
        case OpDelDirect(conn) => DelDirectKeepsMirror(s, conn, peers);
        case OpApplySync(conn, link, sync) => if |sync.tables| == 4 { ApplySyncKeepsMirror(s, conn, link, sync, peers); }
        case OpRegister(v) => RegisterKeepsMirror(s, v, peers);
        case OpTransfer => TransferKeepsMirror(s, peers);
      }
    }
  }

  // ---- decisions of a drained pair ----------------------------------------------------------

  lemma {:induction false} NothingQueued(r: Router, l: nat)
    requires l <= 4 && PopTableDelta(r, l).None?
    ensures forall k: LayerNo :: l <= k ==> r.tables[k].deltas == []
    decreases 4 - l
  {
    if l < 4 {
      NothingQueued(r, l + 1);
    }
  }

  lemma DrainedShows(s: Pair, peers: Peers)
    requires Mirrored(s, peers) && PopDelta(s.router).None?
    ensures forall l: LayerNo :: s.shadow.tables[l] == HeadsOf(s.router.tables[l].dests)
    ensures s.shadow.locals == s.router.registry.locals
    ensures s.shadow.services == ServicesOf(s.router.registry.remotes, peers)
  {
    NothingQueued(s.router, 0);
    forall l: LayerNo ensures s.shadow.tables[l] == HeadsOf(s.router.tables[l].dests) {
      assert TableMirrored(s.shadow.tables[l], s.router.tables[l]);
    }
  }

  lemma {:induction false} HeadClosestAgrees(dests: Dests, key: Byte, n: nat)
    requires n <= 256
    ensures HeadClosest(HeadsOf(dests), key, n) ==
      match ClosestFor(dests, key, {}, n) case None => None case Some(best) => Some((best.0, best.1.conn))
  {
    if n > 0 {
      HeadClosestAgrees(dests, key, n - 1);
      assert NextPath(dests[n - 1], {}) == if dests[n - 1] == [] then None else Some(dests[n - 1][0]);
    }
  }

  /** The connection of an answer of the router. */
  function ConnOfPath(p: Option<Path>): Option<ConnId> {
    match p case None => None case Some(q) => Some(q.conn)
  }

  function PathOfClosest(c: Option<Closest>): Option<Path> {
    match c case None => None case Some(found) => Some(found.path)
  }

  lemma LayerAgrees(s: Pair, key: NodeId, l: LayerNo)
    requires s.router.node == s.shadow.node && s.shadow.tables[l] == HeadsOf(s.router.tables[l].dests)
    ensures HeadImproves(s.shadow, key, l) <==> Improves(s.router, key, {}, l)
    ensures Improves(s.router, key, {}, l) ==>
      HeadClosest(s.shadow.tables[l], Layer(key, l), 256).value.1 == LayerBest(s.router, key, {}, l).path.conn
  {
    HeadClosestAgrees(s.router.tables[l].dests, Layer(key, l), 256);
  }

  lemma {:induction false} ClosestAgrees(s: Pair, key: NodeId, n: nat)
    requires n <= 4 && s.router.node == s.shadow.node
    requires forall l: LayerNo :: s.shadow.tables[l] == HeadsOf(s.router.tables[l].dests)
    ensures ShadowClosestBelow(s.shadow, key, n) == ConnOfPath(PathOfClosest(ClosestBelow(s.router, key, {}, n)))
  {
    if n > 0 {
      ClosestAgrees(s, key, n - 1);
      LayerAgrees(s, key, n - 1);
    }
  }

  lemma NextAgrees(s: Pair, dest: NodeId)
    requires s.router.node == s.shadow.node
    requires forall l: LayerNo :: s.shadow.tables[l] == HeadsOf(s.router.tables[l].dests)
    ensures ShadowNext(s.shadow, dest) == ConnOfPath(Next(s.router, dest, {}))
  {
  }

  /** The router's own answer for a service, as a forwarding action. */
  function ServiceAction(d: Option<ServiceDestination>): RouteAction {
    match d case None => Reject case Some(Here) => Local case Some(Over(p)) => SendTo(p.conn)
  }

  lemma ServiceAgrees(s: Pair, service: Byte, peers: Peers)
    requires s.shadow.locals == s.router.registry.locals
    requires s.shadow.services == ServicesOf(s.router.registry.remotes, peers)
    ensures PathToService(s.shadow, service) == ServiceAction(ServiceNext(s.router, service, {}))
  {
  }

  function Towards(path: Option<Path>, otherwise: RouteAction): RouteAction {
    match path case Some(p) => SendTo(p.conn) case None => otherwise
  }

  /** Once no delta is queued, every decision of the shadow is the router's own: next hop, key lookup and service. */
  lemma DrainedDecisionsAgree(node: NodeId, ops: seq<Op>, peers: Peers, s: Pair, dest: NodeId, service: Byte)
    requires s == PairRun(node, ops, peers) && PopDelta(s.router).None?
    ensures ShadowNext(s.shadow, dest) == ConnOfPath(Next(s.router, dest, {}))
    ensures ShadowClosest(s.shadow, dest) == ConnOfPath(PathOfClosest(ClosestNode(s.router, dest, {})))
    ensures PathToNode(s.shadow, dest) == if dest == s.router.node then Local else Towards(Next(s.router, dest, {}), Reject)
    ensures PathToKey(s.shadow, dest) == Towards(PathOfClosest(ClosestNode(s.router, dest, {})), Local)
    ensures PathToService(s.shadow, service) == ServiceAction(ServiceNext(s.router, service, {}))
  {
    EveryRunIsMirrored(node, ops, peers);
    DrainedShows(s, peers);
    NextAgrees(s, dest);
    ClosestAgrees(s, dest, 4);
    ServiceAgrees(s, service, peers);
  }
}
