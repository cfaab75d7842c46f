/** The source-hint notification tree at one node of a channel: who publishes, who subscribes, and the stream of
    subscriptions it keeps with its local actors and its upstream. */
module SourceHint {
  import opened Identity
  import opened Endpoints

  const TIMEOUT_MS: nat := 10_000

  datatype Hint =
    | Register(source: NodeId, toRoot: bool)
    | Unregister(source: NodeId, toRoot: bool)
    | Subscribe(session: nat)
    | SubscribeOk(session: nat)
    | Unsubscribe(session: nat)
    | UnsubscribeOk(session: nat)
    | Sources(sources: seq<NodeId>)

  datatype LocalCmd = AddSource | RemoveSource | AddSubscriber | RemoveSubscriber

  /** A hint without a destination goes to the next node towards the channel's root. */
  datatype Output =
    | SendRemote(to: Option<NetPair>, hint: Hint)
    | SubscribeSource(actors: seq<Actor>, source: NodeId)
    | UnsubscribeSource(actors: seq<Actor>, source: NodeId)

  datatype Logic = Logic(
    node: NodeId,
    session: nat,
    remoteSources: map<NodeId, nat>,
    remoteSubscribers: map<NetPair, nat>,
    localSources: seq<Actor>,
    localSubscribers: seq<Actor>,
    nextHop: Option<NetPair>)

  /** The orders in which the two maps yield their keys during one call. */
  datatype Orders = Orders(sources: seq<NodeId>, subscribers: seq<NetPair>)

  ghost predicate EnumeratesLogic(o: Orders, l: Logic) {
    Enumerates(o.sources, l.remoteSources.Keys) && Enumerates(o.subscribers, l.remoteSubscribers.Keys)
  }

  function NewLogic(node: NodeId, session: nat): Logic { Logic(node, session, map[], map[], [], [], None) }

  predicate IsSource(l: Logic, source: NodeId) {
    source in l.remoteSources || (source == l.node && l.localSources != [])
  }

  predicate HasSubscribers(l: Logic) { l.localSubscribers != [] || l.remoteSubscribers != map[] }

  function SourcesOf(l: Logic, order: seq<NodeId>): seq<NodeId> {
    if l.localSources == [] then order else order + [l.node]
  }

  function ToEach(remotes: seq<NetPair>, hint: Hint): (out: seq<Output>)
    ensures |out| == |remotes|
  {
    seq(|remotes|, i requires 0 <= i < |remotes| => SendRemote(Some(remotes[i]), hint))
  }

  function SubscribeEach(actor: Actor, sources: seq<NodeId>): (out: seq<Output>)
    ensures |out| == |sources|
  {
    seq(|sources|, i requires 0 <= i < |sources| => SubscribeSource([actor], sources[i]))
  }

  function UnsubscribeEach(actor: Actor, sources: seq<NodeId>): (out: seq<Output>)
    ensures |out| == |sources|
  {
    seq(|sources|, i requires 0 <= i < |sources| => UnsubscribeSource([actor], sources[i]))
  }

  function Upstream(hint: Hint): seq<Output> { [SendRemote(None, hint)] }

  function When(cond: bool, out: seq<Output>): seq<Output> { if cond then out else [] }

  // ---- ticks --------------------------------------------------------------------------------

  function ExpiredKeys<K(==)>(seen: map<K, nat>, now: nat, order: seq<K>): seq<K> {
    Filter(order, k => k in seen && now >= seen[k] + TIMEOUT_MS)
  }

  function DropSubscribers(l: Logic, gone: seq<NetPair>): (Logic, seq<Output>)
    decreases |gone|
  {
    if gone == [] then (l, [])
    else
      var l1 := l.(remoteSubscribers := l.remoteSubscribers - {gone[0]});
      var (l2, out) := DropSubscribers(l1, gone[1..]);
      (l2, When(!HasSubscribers(l1), Upstream(Unsubscribe(l.session))) + out)
  }

  function DropSources(l: Logic, gone: seq<NodeId>): (Logic, seq<Output>)
    decreases |gone|
  {
    if gone == [] then (l, [])
    else
      var l1 := l.(remoteSources := l.remoteSources - {gone[0]});
      var (l2, out) := DropSources(l1, gone[1..]);
      (l2, When(l.localSubscribers != [], [UnsubscribeSource(l.localSubscribers, gone[0])]) + out)
  }

  /** The remote subscribers that are still there, in order. */
  function Remaining(l: Logic, order: seq<NetPair>): seq<NetPair> { Filter(order, r => r in l.remoteSubscribers) }

  function OnTick(l: Logic, now: nat, o: Orders): (Logic, seq<Output>) {
    var (l1, out1) := DropSubscribers(l, ExpiredKeys(l.remoteSubscribers, now, o.subscribers));
    var (l2, out2) := DropSources(l1, ExpiredKeys(l.remoteSources, now, o.sources));
    var out3 := When(l2.localSources != [], Upstream(Register(l2.node, true)) + ToEach(Remaining(l2, o.subscribers), Register(l2.node, false)));
    var out4 := When(HasSubscribers(l2), Upstream(Subscribe(l2.session)));
    (l2, out1 + out2 + out3 + out4)
  }

  // ---- local commands -----------------------------------------------------------------------

  function OnLocal(l: Logic, actor: Actor, cmd: LocalCmd, o: Orders): (Logic, seq<Output>) {
    match cmd
    case AddSource =>
      if actor in l.localSources then (l, [])
      else
        var l' := l.(localSources := l.localSources + [actor]);
        (l', When(l.localSources == [],
                  When(l.remoteSources == map[], Upstream(Register(l.node, true)))
                  + ToEach(o.subscribers, Register(l.node, false))
                  + When(l.localSubscribers != [], [SubscribeSource(l.localSubscribers, l.node)])))
    case RemoveSource =>
      if actor !in l.localSources then (l, [])
      else
        var l' := l.(localSources := Without(l.localSources, actor));
        (l', When(l'.localSources == [],
                  When(l.remoteSources == map[], Upstream(Unregister(l.node, true)))
                  + ToEach(o.subscribers, Unregister(l.node, false))
                  + When(l.localSubscribers != [], [UnsubscribeSource(l.localSubscribers, l.node)])))
    case AddSubscriber =>
      if actor in l.localSubscribers then (l, [])
      else
        (l.(localSubscribers := l.localSubscribers + [actor]),
         When(!HasSubscribers(l), Upstream(Subscribe(l.session))) + SubscribeEach(actor, SourcesOf(l, o.sources)))
    case RemoveSubscriber =>
      if actor !in l.localSubscribers then (l, [])
      else
        var l' := l.(localSubscribers := Without(l.localSubscribers, actor));
        (l', When(!HasSubscribers(l'), Upstream(Unsubscribe(l.session))) + UnsubscribeEach(actor, SourcesOf(l, o.sources)))
  }

  // ---- hints from other nodes ---------------------------------------------------------------

  /** A hint about a source is taken from below on its way to the root, or from the next hop. */
  predicate Trusted(l: Logic, remote: NetPair, source: NodeId, toRoot: bool) {
    source != l.node && (toRoot || l.nextHop == Some(remote))
  }

  function Except(order: seq<NetPair>, remote: NetPair): seq<NetPair> { Filter(order, r => r != remote) }

  /** Takes over the sources of a snapshot. */
  function AddAll(l: Logic, now: nat, sources: seq<NodeId>, subscribers: seq<NetPair>): (Logic, seq<Output>)
    decreases |sources|
  {
    if sources == [] then (l, [])
    else
      var s := sources[0];
      if s == l.node then AddAll(l, now, sources[1..], subscribers)
      else
        var (l', out) := AddAll(l.(remoteSources := l.remoteSources[s := now]), now, sources[1..], subscribers);
        (l', When(s !in l.remoteSources, ToEach(subscribers, Register(s, false)) + When(l.localSubscribers != [], [SubscribeSource(l.localSubscribers, s)])) + out)
  }

  function OnRemote(l: Logic, now: nat, remote: NetPair, hint: Hint, o: Orders): (Logic, seq<Output>) {
    match hint
    case Register(source, toRoot) =>
      if !Trusted(l, remote, source, toRoot) then (l, [])
      else
        (l.(remoteSources := l.remoteSources[source := now]),
         When(toRoot, Upstream(Register(source, true)))
         + ToEach(Except(o.subscribers, remote), Register(source, false))
         + When(source !in l.remoteSources && l.localSubscribers != [], [SubscribeSource(l.localSubscribers, source)]))
    case Unregister(source, toRoot) =>
      if !Trusted(l, remote, source, toRoot) then (l, [])
      else
        (l.(remoteSources := l.remoteSources - {source}),
         When(toRoot, Upstream(Unregister(source, true)))
         + ToEach(Except(o.subscribers, remote), Unregister(source, false))
         + When(source in l.remoteSources && l.localSubscribers != [], [UnsubscribeSource(l.localSubscribers, source)]))
    case Subscribe(session) =>
      var l' := l.(remoteSubscribers := l.remoteSubscribers[remote := now]);
      var sources := SourcesOf(l, o.sources);
      (l', [SendRemote(Some(remote), SubscribeOk(session))]
           + When(remote !in l.remoteSubscribers,
                  When(!HasSubscribers(l), Upstream(Subscribe(l.session)))
                  + When(sources != [], [SendRemote(Some(remote), Sources(sources))])))
    case SubscribeOk(session) =>
      (if session == l.session then l.(nextHop := Some(remote)) else l, [])
    case Unsubscribe(session) =>
      var l' := l.(remoteSubscribers := l.remoteSubscribers - {remote});
      (l', [SendRemote(Some(remote), UnsubscribeOk(session))]
           + When(remote in l.remoteSubscribers && !HasSubscribers(l'), Upstream(Unsubscribe(l.session))))
    case UnsubscribeOk(session) =>
      (if session == l.session then l.(nextHop := None) else l, [])
    case Sources(sources) => AddAll(l, now, sources, o.subscribers)
  }

  // ---- runs ---------------------------------------------------------------------------------

  datatype Action =
    | Tick(now: nat, orders: Orders)
    | Local(actor: Actor, cmd: LocalCmd, orders: Orders)
    | Remote(now: nat, from: NetPair, hint: Hint, orders: Orders)

  ghost function Handle(l: Logic, a: Action): (Logic, seq<Output>) {
    if !EnumeratesLogic(a.orders, l) then (l, [])
    else
      match a
      case Tick(now, o) => OnTick(l, now, o)
      case Local(actor, cmd, o) => OnLocal(l, actor, cmd, o)
      case Remote(now, from, hint, o) => OnRemote(l, now, from, hint, o)
  }

  ghost function Run(node: NodeId, session: nat, actions: seq<Action>): (Logic, seq<Output>) {
    if actions == [] then (NewLogic(node, session), [])
    else
      var (l, sent) := Run(node, session, actions[..|actions| - 1]);
      var (l', out) := Handle(l, actions[|actions| - 1]);
      (l', sent + out)
  }

  // ---- what the outputs add up to -----------------------------------------------------------

  datatype Pair = Pair(actor: Actor, source: NodeId)

  /** The subscriptions in force, whether every one was made while not in force and ended while in force,
      and whether the last word upstream was to subscribe. */
  datatype Stream = Stream(pairs: set<Pair>, orderly: bool, upstream: bool)

  const Silence := Stream({}, true, false)

  function PairsOf(actors: seq<Actor>, source: NodeId): set<Pair> { set a | a in actors :: Pair(a, source) }

  function FoldOne(s: Stream, o: Output): Stream {
    match o
    case SubscribeSource(actors, source) =>
      s.(pairs := s.pairs + PairsOf(actors, source), orderly := s.orderly && NoDuplicates(actors) && s.pairs !! PairsOf(actors, source))
    case UnsubscribeSource(actors, source) =>
      s.(pairs := s.pairs - PairsOf(actors, source), orderly := s.orderly && NoDuplicates(actors) && PairsOf(actors, source) <= s.pairs)
    case SendRemote(to, hint) =>
      if to.None? && hint.Subscribe? then s.(upstream := true)
      else if to.None? && hint.Unsubscribe? then s.(upstream := false)
      else s
  }

  function Fold(s: Stream, out: seq<Output>): Stream
    decreases |out|
  {
    if out == [] then s else Fold(FoldOne(s, out[0]), out[1..])
  }

  /** The stream shows the node: each local subscriber has exactly the sources, nobody else has any. */
  ghost predicate Shows(s: Stream, l: Logic) {
    && s.orderly
    && (forall p :: p in s.pairs <==> p.actor in l.localSubscribers && IsSource(l, p.source))
    && (s.upstream <==> HasSubscribers(l))
    && NoDuplicates(l.localSubscribers)
    && l.node !in l.remoteSources
  }

  lemma {:induction false} FoldAppend(s: Stream, a: seq<Output>, b: seq<Output>)
    ensures Fold(s, a + b) == Fold(Fold(s, a), b)
    decreases |a|
  {
    if a == [] {
      assert a + b == b;
    } else {
      assert (a + b)[1..] == a[1..] + b;
      FoldAppend(FoldOne(s, a[0]), a[1..], b);
    }
  }

  lemma FoldSingle(s: Stream, o: Output)
    ensures Fold(s, [o]) == FoldOne(s, o)
  {
  }

  /** Hints to other nodes, and upstream hints about sources, change nothing here. */
  predicate Neutral(out: seq<Output>) {
    forall o :: o in out ==> o.SendRemote? && (o.to.Some? || !(o.hint.Subscribe? || o.hint.Unsubscribe?))
  }

  lemma {:induction false} FoldNeutral(s: Stream, out: seq<Output>)
    requires Neutral(out)
    ensures Fold(s, out) == s
    decreases |out|
  {
    if out != [] {
      assert out[0] in out;
      FoldNeutral(s, out[1..]);
    }
  }

  lemma {:induction false} FoldSubscribeEach(s: Stream, actor: Actor, sources: seq<NodeId>)
    requires s.orderly && NoDuplicates(sources) && forall x :: x in sources ==> Pair(actor, x) !in s.pairs
    ensures var s' := Fold(s, SubscribeEach(actor, sources));
      s'.orderly && s'.upstream == s.upstream && forall p :: p in s'.pairs <==> p in s.pairs || (p.actor == actor && p.source in sources)
    decreases |sources|
  {
    if sources != [] {
      var rest := sources[1..];
      assert SubscribeEach(actor, sources)[1..] == SubscribeEach(actor, rest);
      assert PairsOf([actor], sources[0]) == {Pair(actor, sources[0])};
      assert sources[0] !in rest;
      FoldSubscribeEach(FoldOne(s, SubscribeSource([actor], sources[0])), actor, rest);
    }
  }

  lemma {:induction false} FoldUnsubscribeEach(s: Stream, actor: Actor, sources: seq<NodeId>)
    requires s.orderly && NoDuplicates(sources) && forall x :: x in sources ==> Pair(actor, x) in s.pairs
    ensures var s' := Fold(s, UnsubscribeEach(actor, sources));
      s'.orderly && s'.upstream == s.upstream && forall p :: p in s'.pairs <==> p in s.pairs && !(p.actor == actor && p.source in sources)
    decreases |sources|
  {
    if sources != [] {
      var rest := sources[1..];
      assert UnsubscribeEach(actor, sources)[1..] == UnsubscribeEach(actor, rest);
      assert PairsOf([actor], sources[0]) == {Pair(actor, sources[0])};
      assert sources[0] !in rest;
      FoldUnsubscribeEach(FoldOne(s, UnsubscribeSource([actor], sources[0])), actor, rest);
    }
  }

  // ---- every step keeps it ------------------------------------------------------------------

  /** The same node with other sources. */
  ghost predicate SameSubscribers(l: Logic, l': Logic) {
    l'.node == l.node && l'.localSubscribers == l.localSubscribers && (HasSubscribers(l') <==> HasSubscribers(l)) && l'.node !in l'.remoteSources
  }

  lemma SourceAppears(s: Stream, l: Logic, l': Logic, source: NodeId)
    requires Shows(s, l) && SameSubscribers(l, l') && !IsSource(l, source)
    requires forall x :: IsSource(l', x) <==> IsSource(l, x) || x == source
    ensures Shows(Fold(s, When(l.localSubscribers != [], [SubscribeSource(l.localSubscribers, source)])), l')
  {
    FoldSingle(s, SubscribeSource(l.localSubscribers, source));
  }

  lemma SourceVanishes(s: Stream, l: Logic, l': Logic, source: NodeId)
    requires Shows(s, l) && SameSubscribers(l, l') && IsSource(l, source)
    requires forall x :: IsSource(l', x) <==> IsSource(l, x) && x != source
    ensures Shows(Fold(s, When(l.localSubscribers != [], [UnsubscribeSource(l.localSubscribers, source)])), l')
  {
    FoldSingle(s, UnsubscribeSource(l.localSubscribers, source));
  }

  lemma NothingChanges(s: Stream, l: Logic, l': Logic, out: seq<Output>)
    requires Shows(s, l) && SameSubscribers(l, l') && Neutral(out)
    requires forall x :: IsSource(l', x) <==> IsSource(l, x)
    ensures Shows(Fold(s, out), l')
  {
  }

  /** Neutral hints first. */
  lemma AfterNeutral(s: Stream, first: seq<Output>, second: seq<Output>)
    requires Neutral(first)
    ensures Fold(s, first + second) == Fold(s, second)
  {
    FoldNeutral(s, first);
    FoldAppend(s, first, second);
  }

  lemma UpstreamFold(s: Stream, cond: bool, hint: Hint)
    ensures Fold(s, When(cond, Upstream(hint))) ==
            if cond && hint.Subscribe? then s.(upstream := true) else if cond && hint.Unsubscribe? then s.(upstream := false) else s
  {
  }

  lemma {:induction false} DropSubscribersShows(s: Stream, l: Logic, gone: seq<NetPair>)
    requires Shows(s, l) && NoDuplicates(gone) && forall r :: r in gone ==> r in l.remoteSubscribers
    ensures var (l', out) := DropSubscribers(l, gone);
      Shows(Fold(s, out), l') && l' == l.(remoteSubscribers := l'.remoteSubscribers) && l'.remoteSubscribers.Keys <= l.remoteSubscribers.Keys
    decreases |gone|
  {
    if gone != [] {
      var l1 := l.(remoteSubscribers := l.remoteSubscribers - {gone[0]});
      var first := When(!HasSubscribers(l1), Upstream(Unsubscribe(l.session)));
      UpstreamFold(s, !HasSubscribers(l1), Unsubscribe(l.session));
      assert gone[0] !in gone[1..];
      forall r | r in gone[1..] ensures r in l1.remoteSubscribers { assert r in gone; }
      DropSubscribersShows(Fold(s, first), l1, gone[1..]);
      FoldAppend(s, first, DropSubscribers(l1, gone[1..]).1);
    }
  }

  lemma {:induction false} DropSourcesShows(s: Stream, l: Logic, gone: seq<NodeId>)
    requires Shows(s, l) && NoDuplicates(gone) && forall x :: x in gone ==> x in l.remoteSources
    ensures var (l', out) := DropSources(l, gone);
      Shows(Fold(s, out), l') && l' == l.(remoteSources := l'.remoteSources)
    decreases |gone|
  {
    if gone != [] {
      var l1 := l.(remoteSources := l.remoteSources - {gone[0]});
      var first := When(l.localSubscribers != [], [UnsubscribeSource(l.localSubscribers, gone[0])]);
      SourceVanishes(s, l, l1, gone[0]);
      assert gone[0] !in gone[1..];
      forall x | x in gone[1..] ensures x in l1.remoteSources { assert x in gone; }
      DropSourcesShows(Fold(s, first), l1, gone[1..]);
      FoldAppend(s, first, DropSources(l1, gone[1..]).1);
    }
  }

  lemma ExpiredFacts<K>(seen: map<K, nat>, now: nat, order: seq<K>)
    requires Enumerates(order, seen.Keys)
    ensures NoDuplicates(ExpiredKeys(seen, now, order)) && forall k :: k in ExpiredKeys(seen, now, order) ==> k in seen
  {
    EnumeratesMembers(order, seen.Keys);
    ExpiredUnique(seen, now, order);
  }

  lemma ExpiredAppend<K>(seen: map<K, nat>, now: nat, order: seq<K>, k: K)
    ensures ExpiredKeys(seen, now, order + [k]) == ExpiredKeys(seen, now, order) + if k in seen && now >= seen[k] + TIMEOUT_MS then [k] else []
  {
    FilterAppend(order, k, x => x in seen && now >= seen[x] + TIMEOUT_MS);
  }

  lemma {:induction false} ExpiredUnique<K>(seen: map<K, nat>, now: nat, order: seq<K>)
    requires NoDuplicates(order)
    ensures var gone := ExpiredKeys(seen, now, order);
      NoDuplicates(gone) && forall k :: k in gone ==> k in order && k in seen
  {
    if order != [] {
      ExpiredUnique(seen, now, order[1..]);
      assert ExpiredKeys(seen, now, order) ==
             (if order[0] in seen && now >= seen[order[0]] + TIMEOUT_MS then [order[0]] else []) + ExpiredKeys(seen, now, order[1..]);
    }
  }

  lemma TickShows(s: Stream, l: Logic, now: nat, o: Orders)
    requires Shows(s, l) && EnumeratesLogic(o, l)
    ensures var (l', out) := OnTick(l, now, o); Shows(Fold(s, out), l')
  {
    ExpiredFacts(l.remoteSubscribers, now, o.subscribers);
    ExpiredFacts(l.remoteSources, now, o.sources);
    var (l1, out1) := DropSubscribers(l, ExpiredKeys(l.remoteSubscribers, now, o.subscribers));
    var (l2, out2) := DropSources(l1, ExpiredKeys(l.remoteSources, now, o.sources));
    var out3 := When(l2.localSources != [], Upstream(Register(l2.node, true)) + ToEach(Remaining(l2, o.subscribers), Register(l2.node, false)));
    var out4 := When(HasSubscribers(l2), Upstream(Subscribe(l2.session)));
    DropSubscribersShows(s, l, ExpiredKeys(l.remoteSubscribers, now, o.subscribers));
    var s1 := Fold(s, out1);
    DropSourcesShows(s1, l1, ExpiredKeys(l.remoteSources, now, o.sources));
    var s2 := Fold(s1, out2);
    FoldNeutral(s2, out3);
    UpstreamFold(s2, HasSubscribers(l2), Subscribe(l2.session));
    FoldAppend(s, out1, out2);
    FoldAppend(s, out1 + out2, out3);
    FoldAppend(s, out1 + out2 + out3, out4);
  }

  lemma SourcesOfFacts(l: Logic, o: Orders)
    requires EnumeratesLogic(o, l) && l.node !in l.remoteSources
    ensures NoDuplicates(SourcesOf(l, o.sources)) && forall x :: x in SourcesOf(l, o.sources) <==> IsSource(l, x)
  {
    EnumeratesMembers(o.sources, l.remoteSources.Keys);
  }

  lemma AddSourceShows(s: Stream, l: Logic, actor: Actor, o: Orders)
    requires Shows(s, l)
    ensures var (l', out) := OnLocal(l, actor, AddSource, o); Shows(Fold(s, out), l')
  {
    var (l', out) := OnLocal(l, actor, AddSource, o);
    if actor !in l.localSources && l.localSources == [] {
      var first := When(l.remoteSources == map[], Upstream(Register(l.node, true))) + ToEach(o.subscribers, Register(l.node, false));
      SourceAppears(s, l, l', l.node);
      AfterNeutral(s, first, When(l.localSubscribers != [], [SubscribeSource(l.localSubscribers, l.node)]));
    } else {
      NothingChanges(s, l, l', out);
    }
  }

  lemma RemoveSourceShows(s: Stream, l: Logic, actor: Actor, o: Orders)
    requires Shows(s, l)
    ensures var (l', out) := OnLocal(l, actor, RemoveSource, o); Shows(Fold(s, out), l')
  {
    var (l', out) := OnLocal(l, actor, RemoveSource, o);
    if actor in l.localSources && l'.localSources == [] {
      var first := When(l.remoteSources == map[], Upstream(Unregister(l.node, true))) + ToEach(o.subscribers, Unregister(l.node, false));
      SourceVanishes(s, l, l', l.node);
      AfterNeutral(s, first, When(l.localSubscribers != [], [UnsubscribeSource(l.localSubscribers, l.node)]));
    } else {
      NothingChanges(s, l, l', out);
    }
  }

  lemma AddSubscriberShows(s: Stream, l: Logic, actor: Actor, o: Orders)
    requires Shows(s, l) && EnumeratesLogic(o, l)
    ensures var (l', out) := OnLocal(l, actor, AddSubscriber, o); Shows(Fold(s, out), l')
  {
    if actor !in l.localSubscribers {
      var first := When(!HasSubscribers(l), Upstream(Subscribe(l.session)));
      UpstreamFold(s, !HasSubscribers(l), Subscribe(l.session));
      SourcesOfFacts(l, o);
      FoldSubscribeEach(Fold(s, first), actor, SourcesOf(l, o.sources));
      FoldAppend(s, first, SubscribeEach(actor, SourcesOf(l, o.sources)));
    }
  }

  lemma RemoveSubscriberShows(s: Stream, l: Logic, actor: Actor, o: Orders)
    requires Shows(s, l) && EnumeratesLogic(o, l)
    ensures var (l', out) := OnLocal(l, actor, RemoveSubscriber, o); Shows(Fold(s, out), l')
  {
    if actor in l.localSubscribers {
      var l' := l.(localSubscribers := Without(l.localSubscribers, actor));
      WithoutFacts(l.localSubscribers, actor);
      var first := When(!HasSubscribers(l'), Upstream(Unsubscribe(l.session)));
      UpstreamFold(s, !HasSubscribers(l'), Unsubscribe(l.session));
      SourcesOfFacts(l, o);
      FoldUnsubscribeEach(Fold(s, first), actor, SourcesOf(l, o.sources));
      FoldAppend(s, first, UnsubscribeEach(actor, SourcesOf(l, o.sources)));
    }
  }

  lemma RegisterShows(s: Stream, l: Logic, now: nat, remote: NetPair, source: NodeId, toRoot: bool, o: Orders)
    requires Shows(s, l)
    ensures var (l', out) := OnRemote(l, now, remote, Register(source, toRoot), o); Shows(Fold(s, out), l')
  {
    if Trusted(l, remote, source, toRoot) {
      var l' := OnRemote(l, now, remote, Register(source, toRoot), o).0;
      var first := When(toRoot, Upstream(Register(source, true))) + ToEach(Except(o.subscribers, remote), Register(source, false));
      if source in l.remoteSources {
        NothingChanges(s, l, l', []);
      } else {
        SourceAppears(s, l, l', source);
      }
      AfterNeutral(s, first, When(source !in l.remoteSources && l.localSubscribers != [], [SubscribeSource(l.localSubscribers, source)]));
    }
  }

  lemma UnregisterShows(s: Stream, l: Logic, now: nat, remote: NetPair, source: NodeId, toRoot: bool, o: Orders)
    requires Shows(s, l)
    ensures var (l', out) := OnRemote(l, now, remote, Unregister(source, toRoot), o); Shows(Fold(s, out), l')
  {
    if Trusted(l, remote, source, toRoot) {
      var l' := OnRemote(l, now, remote, Unregister(source, toRoot), o).0;
      var first := When(toRoot, Upstream(Unregister(source, true))) + ToEach(Except(o.subscribers, remote), Unregister(source, false));
      if source !in l.remoteSources {
        NothingChanges(s, l, l', []);
      } else {
        SourceVanishes(s, l, l', source);
      }
      AfterNeutral(s, first, When(source in l.remoteSources && l.localSubscribers != [], [UnsubscribeSource(l.localSubscribers, source)]));
    }
  }

  lemma SubscribeShows(s: Stream, l: Logic, now: nat, remote: NetPair, session: nat, o: Orders)
    requires Shows(s, l)
    ensures var (l', out) := OnRemote(l, now, remote, Subscribe(session), o); Shows(Fold(s, out), l')
  {
    var (l', out) := OnRemote(l, now, remote, Subscribe(session), o);
    var first := [SendRemote(Some(remote), SubscribeOk(session))];
    var sources := SourcesOf(l, o.sources);
    var fresh' := remote !in l.remoteSubscribers;
    var ask := When(!HasSubscribers(l), Upstream(Subscribe(l.session)));
    var last := When(sources != [], [SendRemote(Some(remote), Sources(sources))]);
    assert remote in l'.remoteSubscribers;
    AfterNeutral(s, first, When(fresh', ask + last));
    FoldAppend(s, ask, last);
    UpstreamFold(s, !HasSubscribers(l), Subscribe(l.session));
    FoldNeutral(Fold(s, ask), last);
  }

  lemma UnsubscribeShows(s: Stream, l: Logic, now: nat, remote: NetPair, session: nat, o: Orders)
    requires Shows(s, l)
    ensures var (l', out) := OnRemote(l, now, remote, Unsubscribe(session), o); Shows(Fold(s, out), l')
  {
    var (l', out) := OnRemote(l, now, remote, Unsubscribe(session), o);
    var first := [SendRemote(Some(remote), UnsubscribeOk(session))];
    var leave := remote in l.remoteSubscribers && !HasSubscribers(l');
    AfterNeutral(s, first, When(leave, Upstream(Unsubscribe(l.session))));
    UpstreamFold(s, leave, Unsubscribe(l.session));
    if remote !in l.remoteSubscribers {
      assert l.remoteSubscribers - {remote} == l.remoteSubscribers;
    }
  }

  lemma {:induction false} AddAllShows(s: Stream, l: Logic, now: nat, sources: seq<NodeId>, subscribers: seq<NetPair>)
    requires Shows(s, l)
    ensures var (l', out) := AddAll(l, now, sources, subscribers); Shows(Fold(s, out), l')
    decreases |sources|
  {
    if sources != [] {
      var x := sources[0];
      if x == l.node {
        AddAllShows(s, l, now, sources[1..], subscribers);
      } else {
        var l1 := l.(remoteSources := l.remoteSources[x := now]);
        var tell := When(l.localSubscribers != [], [SubscribeSource(l.localSubscribers, x)]);
        var first := When(x !in l.remoteSources, ToEach(subscribers, Register(x, false)) + tell);
        if x in l.remoteSources {
          NothingChanges(s, l, l1, first);
        } else {
          SourceAppears(s, l, l1, x);
          AfterNeutral(s, ToEach(subscribers, Register(x, false)), tell);
        }
        AddAllShows(Fold(s, first), l1, now, sources[1..], subscribers);
        FoldAppend(s, first, AddAll(l1, now, sources[1..], subscribers).1);
      }
    }
  }

  lemma LocalShows(s: Stream, l: Logic, actor: Actor, cmd: LocalCmd, o: Orders)
    requires Shows(s, l) && EnumeratesLogic(o, l)
    ensures var (l', out) := OnLocal(l, actor, cmd, o); Shows(Fold(s, out), l')
  {
    match cmd
    case AddSource => AddSourceShows(s, l, actor, o);
    case RemoveSource => RemoveSourceShows(s, l, actor, o);
    case AddSubscriber => AddSubscriberShows(s, l, actor, o);
    case RemoveSubscriber => RemoveSubscriberShows(s, l, actor, o);
  }

  lemma RemoteShows(s: Stream, l: Logic, now: nat, from: NetPair, hint: Hint, o: Orders)
    requires Shows(s, l)
    ensures var (l', out) := OnRemote(l, now, from, hint, o); Shows(Fold(s, out), l')
  {
    match hint
    case Register(source, toRoot) => RegisterShows(s, l, now, from, source, toRoot, o);
    case Unregister(source, toRoot) => UnregisterShows(s, l, now, from, source, toRoot, o);
    case Subscribe(session) => SubscribeShows(s, l, now, from, session, o);
    case Unsubscribe(session) => UnsubscribeShows(s, l, now, from, session, o);
    case Sources(sources) => AddAllShows(s, l, now, sources, o.subscribers);
    case _ => NothingChanges(s, l, OnRemote(l, now, from, hint, o).0, []);
  }

  lemma StepShows(s: Stream, l: Logic, a: Action)
    requires Shows(s, l)
    ensures var (l', out) := Handle(l, a); Shows(Fold(s, out), l')
  {
    if EnumeratesLogic(a.orders, l) {
      match a
      case Tick(now, o) => TickShows(s, l, now, o);
      case Local(actor, cmd, o) => LocalShows(s, l, actor, cmd, o);
      case Remote(now, from, hint, o) => RemoteShows(s, l, now, from, hint, o);
    }
  }

  /** In every run the outputs add up to the node's state: each local subscriber is subscribed to exactly the known
      sources, nobody else to any, no subscription is made or ended twice in a row, and the last word upstream was to
      subscribe exactly when somebody here subscribes. */
  lemma {:induction false} EveryRunShows(node: NodeId, session: nat, actions: seq<Action>)
    ensures var (l, sent) := Run(node, session, actions); Shows(Fold(Silence, sent), l)
  {
    if actions != [] {
      var (l, sent) := Run(node, session, actions[..|actions| - 1]);
      EveryRunShows(node, session, actions[..|actions| - 1]);
      StepShows(Fold(Silence, sent), l, actions[|actions| - 1]);
      FoldAppend(Silence, sent, Handle(l, actions[|actions| - 1]).1);
    }
  }

  // ---- the last word upstream about this node -----------------------------------------------

  predicate AboutSelf(node: NodeId, o: Output) {
    o.SendRemote? && o.to.None? && (o.hint.Register? || o.hint.Unregister?) && o.hint.source == node
  }

  /** Whether the last word towards the root about `node` was to register it; `word` if there was none. */
  function LastWord(node: NodeId, word: bool, out: seq<Output>): bool {
    if out == [] then word
    else if AboutSelf(node, out[|out| - 1]) then out[|out| - 1].hint.Register?
    else LastWord(node, word, out[..|out| - 1])
  }

  predicate NoWord(node: NodeId, out: seq<Output>) { forall o :: o in out ==> !AboutSelf(node, o) }

  lemma {:induction false} NoWordKeeps(node: NodeId, word: bool, out: seq<Output>)
    requires NoWord(node, out)
    ensures LastWord(node, word, out) == word
  {
    if out != [] {
      assert out[|out| - 1] in out;
      NoWordKeeps(node, word, out[..|out| - 1]);
    }
  }

  lemma {:induction false} LastWordAppend(node: NodeId, word: bool, a: seq<Output>, b: seq<Output>)
    ensures LastWord(node, word, a + b) == LastWord(node, LastWord(node, word, a), b)
  {
    if b == [] {
      assert a + b == a;
    } else {
      assert (a + b)[..|a + b| - 1] == a + b[..|b| - 1];
      LastWordAppend(node, word, a, b[..|b| - 1]);
    }
  }

  /** A word, and then other things. */
  lemma WordThen(node: NodeId, word: bool, first: seq<Output>, rest: seq<Output>)
    requires NoWord(node, rest)
    ensures LastWord(node, word, first + rest) == LastWord(node, word, first)
  {
    LastWordAppend(node, word, first, rest);
    NoWordKeeps(node, LastWord(node, word, first), rest);
  }

  lemma {:induction false} DropSubscribersSilent(l: Logic, gone: seq<NetPair>)
    ensures var (l', out) := DropSubscribers(l, gone); NoWord(l.node, out) && l'.node == l.node && l'.localSources == l.localSources
    decreases |gone|
  {
    if gone != [] { DropSubscribersSilent(l.(remoteSubscribers := l.remoteSubscribers - {gone[0]}), gone[1..]); }
  }

  lemma {:induction false} DropSourcesSilent(l: Logic, gone: seq<NodeId>)
    ensures var (l', out) := DropSources(l, gone); NoWord(l.node, out) && l'.node == l.node && l'.localSources == l.localSources
    decreases |gone|
  {
    if gone != [] { DropSourcesSilent(l.(remoteSources := l.remoteSources - {gone[0]}), gone[1..]); }
  }

  lemma {:induction false} AddAllSilent(l: Logic, now: nat, sources: seq<NodeId>, subscribers: seq<NetPair>)
    ensures var (l', out) := AddAll(l, now, sources, subscribers); NoWord(l.node, out) && l'.node == l.node && l'.localSources == l.localSources
    decreases |sources|
  {
    if sources != [] {
      AddAllSilent(if sources[0] == l.node then l else l.(remoteSources := l.remoteSources[sources[0] := now]), now, sources[1..], subscribers);
    }
  }

  /** A tick registers the node again as long as it has a local source. */
  lemma TickWord(l: Logic, now: nat, o: Orders, word: bool)
    ensures var (l', out) := OnTick(l, now, o);
      l'.node == l.node && l'.localSources == l.localSources && LastWord(l.node, word, out) == (word || l.localSources != [])
  {
    var gone1, gone2 := ExpiredKeys(l.remoteSubscribers, now, o.subscribers), ExpiredKeys(l.remoteSources, now, o.sources);
    DropSubscribersSilent(l, gone1);
    var (l1, out1) := DropSubscribers(l, gone1);
    DropSourcesSilent(l1, gone2);
    var (l2, out2) := DropSources(l1, gone2);
    var tell := ToEach(Remaining(l2, o.subscribers), Register(l2.node, false));
    var out3 := When(l2.localSources != [], Upstream(Register(l2.node, true)) + tell);
    WordThen(l.node, word, Upstream(Register(l2.node, true)), tell);
    NoWordKeeps(l.node, word, out1 + out2);
    LastWordAppend(l.node, word, out1 + out2, out3);
    WordThen(l.node, word, out1 + out2 + out3, When(HasSubscribers(l2), Upstream(Subscribe(l2.session))));
  }

  /** A word under a condition, hints to the subscribers, and news for the local ones. */
  lemma ConditionalWord(node: NodeId, word: bool, cond: bool, hint: Hint, tell: seq<Output>, news: seq<Output>)
    requires (hint.Register? || hint.Unregister?) && hint.source == node && NoWord(node, tell) && NoWord(node, news)
    ensures LastWord(node, word, When(cond, Upstream(hint)) + tell + news) == if cond then hint.Register? else word
  {
    WordThen(node, word, When(cond, Upstream(hint)), tell);
    WordThen(node, word, When(cond, Upstream(hint)) + tell, news);
  }

  /** A local command speaks of the node only when its first local source comes or its last one goes, and only if no
      remote source is known at that moment. */
  lemma LocalWord(l: Logic, actor: Actor, cmd: LocalCmd, o: Orders, word: bool)
    ensures var (l', out) := OnLocal(l, actor, cmd, o);
      && l'.node == l.node
      && LastWord(l.node, word, out) == if Flips(l, l') && l.remoteSources == map[] then l'.localSources != [] else word
  {
    var (l', out) := OnLocal(l, actor, cmd, o);
    var untold := l.remoteSources == map[];
    if cmd.AddSource? && actor !in l.localSources && l.localSources == [] {
      ConditionalWord(l.node, word, untold, Register(l.node, true), ToEach(o.subscribers, Register(l.node, false)), When(l.localSubscribers != [], [SubscribeSource(l.localSubscribers, l.node)]));
    } else if cmd.RemoveSource? && actor in l.localSources && l'.localSources == [] {
      ConditionalWord(l.node, word, untold, Unregister(l.node, true), ToEach(o.subscribers, Unregister(l.node, false)), When(l.localSubscribers != [], [UnsubscribeSource(l.localSubscribers, l.node)]));
    } else {
      NoWordKeeps(l.node, word, out);
    }
  }

  /** The first local source comes or the last one goes. */
  predicate Flips(l: Logic, l': Logic) { (l.localSources == []) != (l'.localSources == []) }

  lemma RemoteSilent(l: Logic, now: nat, remote: NetPair, hint: Hint, o: Orders)
    ensures var (l', out) := OnRemote(l, now, remote, hint, o); NoWord(l.node, out) && l'.node == l.node && l'.localSources == l.localSources
  {
    if hint.Sources? { AddAllSilent(l, now, hint.sources, o.subscribers); }
    else if hint.Register? || hint.Unregister? { SourceHintSilent(l, now, remote, hint, o); }
  }

  /** What a hint about another node's source sends on. */
  lemma SourceHintSilent(l: Logic, now: nat, remote: NetPair, hint: Hint, o: Orders)
    requires hint.Register? || hint.Unregister?
    ensures NoWord(l.node, OnRemote(l, now, remote, hint, o).1)
  {
    var (source, tell) := (hint.source, ToEach(Except(o.subscribers, remote), hint.(toRoot := false)));
    if source != l.node {
      var news := if hint.Register? then [SubscribeSource(l.localSubscribers, source)] else [UnsubscribeSource(l.localSubscribers, source)];
      NoWordAppend(l.node, When(hint.toRoot, Upstream(hint.(toRoot := true))), tell);
      NoWordAppend(l.node, When(hint.toRoot, Upstream(hint.(toRoot := true))) + tell, news);
    }
  }

  lemma NoWordAppend(node: NodeId, a: seq<Output>, b: seq<Output>)
    requires NoWord(node, a) && NoWord(node, b)
    ensures NoWord(node, a + b)
  {
  }

  lemma RemoteWord(l: Logic, now: nat, remote: NetPair, hint: Hint, o: Orders, word: bool)
    ensures var (l', out) := OnRemote(l, now, remote, hint, o);
      l'.node == l.node && l'.localSources == l.localSources && LastWord(l.node, word, out) == word
  {
    RemoteSilent(l, now, remote, hint, o);
    NoWordKeeps(l.node, word, OnRemote(l, now, remote, hint, o).1);
  }

  /** The root was told wrong, or not at all, about the node's own sources: what a run leaves behind. A change while a
      remote source is known goes untold; a change while none is known, and a tick with a local source, put it right. */
  ghost predicate Untold(node: NodeId, session: nat, actions: seq<Action>) {
    if actions == [] then false
    else
      var l, a := Run(node, session, actions[..|actions| - 1]).0, actions[|actions| - 1];
      var before := Untold(node, session, actions[..|actions| - 1]);
      if Flips(l, Handle(l, a).0) then l.remoteSources != map[] && !before
      else before && !(a.Tick? && EnumeratesLogic(a.orders, l) && l.localSources != [])
  }

  lemma StepWord(l: Logic, a: Action, word: bool)
    ensures var (l', out) := Handle(l, a);
      && l'.node == l.node
      && LastWord(l.node, word, out) ==
         if Flips(l, l') then (if l.remoteSources == map[] then l'.localSources != [] else word)
         else word || (a.Tick? && EnumeratesLogic(a.orders, l) && l.localSources != [])
  {
    if EnumeratesLogic(a.orders, l) {
      match a
      case Tick(now, o) => TickWord(l, now, o, word);
      case Local(actor, cmd, o) => LocalWord(l, actor, cmd, o, word);
      case Remote(now, from, hint, o) => RemoteWord(l, now, from, hint, o, word);
    }
  }

  /** In every run the last word upstream about this node is to register it exactly while it has a local source, unless
      the last change went untold. */
  lemma {:induction false} LastWordIff(node: NodeId, session: nat, actions: seq<Action>)
    ensures var (l, sent) := Run(node, session, actions);
      && l.node == node
      && (LastWord(node, false, sent) == (l.localSources != []) <==> !Untold(node, session, actions))
  {
    if actions != [] {
      var (l, sent) := Run(node, session, actions[..|actions| - 1]);
      LastWordIff(node, session, actions[..|actions| - 1]);
      StepWord(l, actions[|actions| - 1], LastWord(node, false, sent));
      LastWordAppend(node, false, sent, Handle(l, actions[|actions| - 1]).1);
    }
  }

  lemma RunNext(node: NodeId, session: nat, actions: seq<Action>, a: Action)
    ensures Run(node, session, actions + [a]).0 == Handle(Run(node, session, actions).0, a).0
    ensures Untold(node, session, actions + [a]) ==
      var l := Run(node, session, actions).0;
      if Flips(l, Handle(l, a).0) then l.remoteSources != map[] && !Untold(node, session, actions)
      else Untold(node, session, actions) && !(a.Tick? && EnumeratesLogic(a.orders, l) && l.localSources != [])
  {
    assert (actions + [a])[..|actions|] == actions;
  }

  /** Without a local source from here on. */
  ghost predicate NoLocalSources(node: NodeId, session: nat, actions: seq<Action>, more: seq<Action>) {
    Run(node, session, actions + more).0.localSources == [] && (more == [] || NoLocalSources(node, session, actions, more[..|more| - 1]))
  }

  lemma StillUntold(node: NodeId, session: nat, actions: seq<Action>, a: Action)
    requires Untold(node, session, actions) && Run(node, session, actions).0.localSources == [] && Run(node, session, actions + [a]).0.localSources == []
    ensures Untold(node, session, actions + [a])
  {
    RunNext(node, session, actions, a);
  }

  lemma {:induction false} NeverTold(node: NodeId, session: nat, actions: seq<Action>, more: seq<Action>)
    requires NoLocalSources(node, session, actions, more) && Untold(node, session, actions)
    ensures Untold(node, session, actions + more) && Run(node, session, actions + more).0.localSources == []
  {
    if more == [] {
      assert actions + more == actions;
    } else {
      var before, last := more[..|more| - 1], more[|more| - 1];
      NeverTold(node, session, actions, before);
      assert actions + more == actions + before + [last];
      StillUntold(node, session, actions + before, last);
    }
  }

  /** A node whose last local source goes while it knows a remote one stays registered with the root: no later step takes
      that back for as long as it has no local source. */
  lemma StaysRegistered(node: NodeId, session: nat, actions: seq<Action>, actor: Actor, o: Orders, more: seq<Action>)
    requires var l := Run(node, session, actions).0; EnumeratesLogic(o, l) && l.localSources == [actor] && l.remoteSources != map[]
    requires !Untold(node, session, actions) && NoLocalSources(node, session, actions + [Local(actor, RemoveSource, o)], more)
    ensures var (l, sent) := Run(node, session, actions + [Local(actor, RemoveSource, o)] + more); l.localSources == [] && LastWord(node, false, sent)
  {
    var gone := actions + [Local(actor, RemoveSource, o)];
    assert Without([actor], actor) == [];
    RunNext(node, session, actions, Local(actor, RemoveSource, o));
    NeverTold(node, session, gone, more);
    LastWordIff(node, session, gone + more);
  }

  lemma FirstSource(node: NodeId, session: nat, actor: Actor)
    ensures Handle(NewLogic(node, session), Local(actor, AddSource, Orders([], []))).0 == NewLogic(node, session).(localSources := [actor])
  {
    var l := NewLogic(node, session);
    assert l.remoteSources.Keys == {} && l.remoteSubscribers.Keys == {};
    assert l.localSources + [actor] == [actor];
  }

  lemma HearsOf(l: Logic, other: NodeId, from: NetPair)
    requires other != l.node && l.remoteSources == map[] && l.remoteSubscribers == map[]
    ensures Handle(l, Remote(0, from, Register(other, true), Orders([], []))).0 == l.(remoteSources := map[other := 0])
  {
    assert l.remoteSources.Keys == {} && l.remoteSubscribers.Keys == {};
  }

  /** Such a node: it registers a source of its own and then hears of another. */
  lemma StaysRegisteredIsReached(node: NodeId, session: nat, actor: Actor, other: NodeId, from: NetPair) returns (actions: seq<Action>)
    requires other != node
    ensures var l := Run(node, session, actions).0; l.localSources == [actor] && l.remoteSources == map[other := 0] && l.remoteSubscribers == map[]
    ensures !Untold(node, session, actions)
  {
    var a1 := [] + [Local(actor, AddSource, Orders([], []))];
    actions := a1 + [Remote(0, from, Register(other, true), Orders([], []))];
    FirstSource(node, session, actor);
    RunNext(node, session, [], a1[0]);
    var l1 := Run(node, session, a1).0;
    assert !Untold(node, session, a1);
    HearsOf(l1, other, from);
    RunNext(node, session, a1, actions[1]);
  }
}
