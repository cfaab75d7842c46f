/** The notification tree at one node: what it knows of sources and subscribers, told from the calls it received, what every
    remote subscriber is told, and what every step says to whom. */
module HintTree {
  import opened Identity
  import opened Endpoints
  import opened Renewal
  import opened SourceHint

  /** Every call visits the maps of the moment, each key once. */
  ghost predicate Orderly(node: NodeId, session: nat, actions: seq<Action>) {
    actions == [] || (
      var before := actions[..|actions| - 1];
      Orderly(node, session, before) && EnumeratesLogic(actions[|actions| - 1].orders, Run(node, session, before).0))
  }

  lemma {:induction false} SameNode(node: NodeId, session: nat, actions: seq<Action>)
    ensures var l := Run(node, session, actions).0; l.node == node && l.session == session && node !in l.remoteSources
  {
    EveryRunShows(node, session, actions);
    if actions != [] {
      var (l, a) := (Run(node, session, actions[..|actions| - 1]).0, actions[|actions| - 1]);
      SameNode(node, session, actions[..|actions| - 1]);
      StepFrame(l, a);
    }
  }

  // ---- what the loops leave -----------------------------------------------------------------

  lemma {:induction false} DropSubscribersFacts(l: Logic, gone: seq<NetPair>)
    ensures DropSubscribers(l, gone).0 == l.(remoteSubscribers := l.remoteSubscribers - (set r | r in gone))
    decreases |gone|
  {
    if gone == [] {
      assert l.remoteSubscribers - (set r | r in gone) == l.remoteSubscribers;
    } else {
      DropSubscribersFacts(l.(remoteSubscribers := l.remoteSubscribers - {gone[0]}), gone[1..]);
      assert l.remoteSubscribers - {gone[0]} - (set r | r in gone[1..]) == l.remoteSubscribers - (set r | r in gone);
    }
  }

  lemma {:induction false} DropSourcesFacts(l: Logic, gone: seq<NodeId>)
    ensures DropSources(l, gone).0 == l.(remoteSources := l.remoteSources - (set x | x in gone))
    decreases |gone|
  {
    if gone == [] {
      assert l.remoteSources - (set x | x in gone) == l.remoteSources;
    } else {
      DropSourcesFacts(l.(remoteSources := l.remoteSources - {gone[0]}), gone[1..]);
      assert l.remoteSources - {gone[0]} - (set x | x in gone[1..]) == l.remoteSources - (set x | x in gone);
    }
  }

  lemma {:induction false} AddAllFacts(l: Logic, now: nat, list: seq<NodeId>, subscribers: seq<NetPair>)
    ensures var l' := AddAll(l, now, list, subscribers).0;
      && l' == l.(remoteSources := l'.remoteSources)
      && (forall s :: s in l'.remoteSources <==> s in l.remoteSources || (s in list && s != l.node))
      && (forall s :: s in l'.remoteSources ==> l'.remoteSources[s] == if s in list && s != l.node then now else l.remoteSources[s])
    decreases |list|
  {
    if list != [] {
      AddAllFacts(if list[0] == l.node then l else l.(remoteSources := l.remoteSources[list[0] := now]), now, list[1..], subscribers);
    }
  }

  lemma {:induction false} ExpiredMember<K>(seen: map<K, nat>, now: nat, order: seq<K>, k: K)
    ensures k in ExpiredKeys(seen, now, order) <==> k in order && k in seen && now >= seen[k] + TIMEOUT_MS
  {
    if order != [] {
      ExpiredMember(seen, now, order[1..], k);
      assert ExpiredKeys(seen, now, order) ==
             (if order[0] in seen && now >= seen[order[0]] + TIMEOUT_MS then [order[0]] else []) + ExpiredKeys(seen, now, order[1..]);
    }
  }

  /** What a tick leaves. */
  lemma TickLeaves(l: Logic, now: nat, o: Orders)
    requires EnumeratesLogic(o, l)
    ensures var l' := OnTick(l, now, o).0;
      && l' == l.(remoteSubscribers := l'.remoteSubscribers, remoteSources := l'.remoteSources)
      && (forall r :: r in l'.remoteSubscribers <==> r in l.remoteSubscribers && now < l.remoteSubscribers[r] + 10_000)
      && (forall r :: r in l'.remoteSubscribers ==> l'.remoteSubscribers[r] == l.remoteSubscribers[r])
      && (forall s :: s in l'.remoteSources <==> s in l.remoteSources && now < l.remoteSources[s] + 10_000)
      && (forall s :: s in l'.remoteSources ==> l'.remoteSources[s] == l.remoteSources[s])
  {
    var gone1, gone2 := ExpiredKeys(l.remoteSubscribers, now, o.subscribers), ExpiredKeys(l.remoteSources, now, o.sources);
    DropSubscribersFacts(l, gone1);
    DropSourcesFacts(DropSubscribers(l, gone1).0, gone2);
    EnumeratesMembers(o.subscribers, l.remoteSubscribers.Keys);
    EnumeratesMembers(o.sources, l.remoteSources.Keys);
    forall r ensures r in gone1 <==> r in l.remoteSubscribers && now >= l.remoteSubscribers[r] + 10_000 { ExpiredMember(l.remoteSubscribers, now, o.subscribers, r); }
    forall s ensures s in gone2 <==> s in l.remoteSources && now >= l.remoteSources[s] + 10_000 { ExpiredMember(l.remoteSources, now, o.sources, s); }
  }

  /** What a hint leaves, apart from the sources. */
  lemma HintLeaves(l: Logic, now: nat, from: NetPair, hint: Hint, o: Orders)
    ensures var l' := OnRemote(l, now, from, hint, o).0;
      && l'.node == l.node && l'.session == l.session && l'.localSources == l.localSources && l'.localSubscribers == l.localSubscribers
      && l'.remoteSubscribers == (if hint.Subscribe? then l.remoteSubscribers[from := now] else if hint.Unsubscribe? then l.remoteSubscribers - {from} else l.remoteSubscribers)
      && l'.nextHop == (if hint == SubscribeOk(l.session) then Some(from) else if hint == UnsubscribeOk(l.session) then None else l.nextHop)
  {
    if hint.Sources? { AddAllFacts(l, now, hint.sources, o.subscribers); }
  }

  lemma LocalLeaves(l: Logic, actor: Actor, cmd: LocalCmd, o: Orders)
    ensures var l' := OnLocal(l, actor, cmd, o).0;
      && l' == l.(localSources := l'.localSources, localSubscribers := l'.localSubscribers)
      && l'.localSources == (match cmd
           case AddSource => if actor in l.localSources then l.localSources else l.localSources + [actor]
           case RemoveSource => Without(l.localSources, actor)
           case _ => l.localSources)
      && l'.localSubscribers == (match cmd
           case AddSubscriber => if actor in l.localSubscribers then l.localSubscribers else l.localSubscribers + [actor]
           case RemoveSubscriber => Without(l.localSubscribers, actor)
           case _ => l.localSubscribers)
  {
    WithoutFacts(l.localSources, actor);
    WithoutFacts(l.localSubscribers, actor);
  }

  lemma StepFrame(l: Logic, a: Action)
    ensures Handle(l, a).0.node == l.node && Handle(l, a).0.session == l.session
  {
    if EnumeratesLogic(a.orders, l) {
      if a.Tick? {
        TickLeaves(l, a.now, a.orders);
      } else if a.Remote? && a.hint.Sources? {
        AddAllFacts(l, a.now, a.hint.sources, a.orders.subscribers);
      }
    }
  }

  // ---- local actors -------------------------------------------------------------------------

  /** Whether the last of two commands an actor gave is `on`. */
  function Wants(actions: seq<Action>, actor: Actor, on: LocalCmd, off: LocalCmd): bool {
    if actions == [] then false
    else
      var a := actions[|actions| - 1];
      if a.Local? && a.actor == actor && a.cmd == on then true
      else if a.Local? && a.actor == actor && a.cmd == off then false
      else Wants(actions[..|actions| - 1], actor, on, off)
  }

  lemma ListStep(list: seq<Actor>, who: Actor, actor: Actor)
    requires NoDuplicates(list)
    ensures NoDuplicates(Without(list, who)) && (actor in Without(list, who) <==> actor in list && actor != who)
    ensures who !in list ==> NoDuplicates(list + [who])
  {
    WithoutFacts(list, who);
  }

  lemma LocalListsStep(l: Logic, a: Action, actor: Actor)
    requires EnumeratesLogic(a.orders, l) && NoDuplicates(l.localSources) && NoDuplicates(l.localSubscribers)
    ensures var l' := Handle(l, a).0;
      && NoDuplicates(l'.localSources) && NoDuplicates(l'.localSubscribers)
      && (actor in l'.localSources <==> (a.Local? && a.actor == actor && a.cmd.AddSource?) || (actor in l.localSources && !(a.Local? && a.actor == actor && a.cmd.RemoveSource?)))
      && (actor in l'.localSubscribers <==> (a.Local? && a.actor == actor && a.cmd.AddSubscriber?) || (actor in l.localSubscribers && !(a.Local? && a.actor == actor && a.cmd.RemoveSubscriber?)))
  {
    match a
    case Tick(now, o) => TickLeaves(l, now, o);
    case Local(who, cmd, o) =>
      LocalLeaves(l, who, cmd, o);
      ListStep(l.localSources, who, actor);
      ListStep(l.localSubscribers, who, actor);
    case Remote(now, from, hint, o) => HintLeaves(l, now, from, hint, o);
  }

  /** In every run an actor is a local source, or a local subscriber, exactly when that was its last word. */
  lemma {:induction false} LocalListsIff(node: NodeId, session: nat, actions: seq<Action>, actor: Actor)
    requires Orderly(node, session, actions)
    ensures var l := Run(node, session, actions).0;
      && NoDuplicates(l.localSources) && NoDuplicates(l.localSubscribers)
      && (actor in l.localSources <==> Wants(actions, actor, AddSource, RemoveSource))
      && (actor in l.localSubscribers <==> Wants(actions, actor, AddSubscriber, RemoveSubscriber))
  {
    if actions != [] {
      LocalListsIff(node, session, actions[..|actions| - 1], actor);
      LocalListsStep(Run(node, session, actions[..|actions| - 1]).0, actions[|actions| - 1], actor);
    }
  }

  // ---- the next hop -------------------------------------------------------------------------

  /** The sender of the last SubscribeOk under the node's own session, unless an UnsubscribeOk under it came since. */
  function Parent(session: nat, actions: seq<Action>): Option<NetPair> {
    if actions == [] then None
    else
      var a := actions[|actions| - 1];
      if a.Remote? && a.hint == SubscribeOk(session) then Some(a.from)
      else if a.Remote? && a.hint == UnsubscribeOk(session) then None
      else Parent(session, actions[..|actions| - 1])
  }

  lemma {:induction false} NextHopIsParent(node: NodeId, session: nat, actions: seq<Action>)
    requires Orderly(node, session, actions)
    ensures Run(node, session, actions).0.nextHop == Parent(session, actions)
  {
    if actions != [] {
      var (l, a) := (Run(node, session, actions[..|actions| - 1]).0, actions[|actions| - 1]);
      NextHopIsParent(node, session, actions[..|actions| - 1]);
      SameNode(node, session, actions[..|actions| - 1]);
      match a
      case Tick(now, o) => TickLeaves(l, now, o);
      case Local(who, cmd, o) => LocalLeaves(l, who, cmd, o);
      case Remote(now, from, hint, o) => HintLeaves(l, now, from, hint, o);
    }
  }

  // ---- remote subscribers and sources -------------------------------------------------------

  /** What a call means to a remote subscriber: a Subscribe renews it, an Unsubscribe ends it. */
  function SubscriberMark(a: Action, r: NetPair): Mark {
    if a.Remote? && a.from == r && a.hint.Subscribe? then Renewed(a.now)
    else if a.Remote? && a.from == r && a.hint.Unsubscribe? then Ended
    else if a.Tick? then Ticked(a.now) else Other
  }

  function SubscriberMarks(actions: seq<Action>, r: NetPair): seq<Mark> {
    if actions == [] then [] else SubscriberMarks(actions[..|actions| - 1], r) + [SubscriberMark(actions[|actions| - 1], r)]
  }

  lemma SinceNext(marks: seq<Mark>, m: Mark)
    ensures Since(marks + [m]) == match m
      case Renewed(at) => Some(at)
      case Ended => None
      case Ticked(at) => if Since(marks).Some? && at >= Since(marks).value + 10_000 then None else Since(marks)
      case Other => Since(marks)
  {
    assert (marks + [m])[..|marks|] == marks;
  }

  predicate Holds<K>(seen: map<K, nat>, k: K, since: Option<nat>) {
    (k in seen <==> since.Some?) && (k in seen ==> since == Some(seen[k]))
  }

  lemma SubscriberStep(l: Logic, a: Action, r: NetPair, marks: seq<Mark>)
    requires EnumeratesLogic(a.orders, l) && Holds(l.remoteSubscribers, r, Since(marks))
    ensures Holds(Handle(l, a).0.remoteSubscribers, r, Since(marks + [SubscriberMark(a, r)]))
  {
    SinceNext(marks, SubscriberMark(a, r));
    match a
    case Tick(now, o) => TickLeaves(l, now, o);
    case Local(who, cmd, o) => LocalLeaves(l, who, cmd, o);
    case Remote(now, from, hint, o) => HintLeaves(l, now, from, hint, o);
  }

  /** In every run a remote subscribes exactly when its last Subscribe was neither taken back nor ran out. */
  lemma {:induction false} SubscribersIff(node: NodeId, session: nat, actions: seq<Action>, r: NetPair)
    requires Orderly(node, session, actions)
    ensures Holds(Run(node, session, actions).0.remoteSubscribers, r, Since(SubscriberMarks(actions, r)))
  {
    if actions != [] {
      var before := actions[..|actions| - 1];
      SubscribersIff(node, session, before, r);
      SubscriberStep(Run(node, session, before).0, actions[|actions| - 1], r, SubscriberMarks(before, r));
    }
  }

  /** What a call means to a source elsewhere: a trusted Register or a snapshot that lists it renews it, a trusted Unregister
      ends it. Hints are trusted on their way to the root and from the parent. */
  function SourceMark(node: NodeId, parent: Option<NetPair>, a: Action, s: NodeId): Mark {
    if a.Tick? then Ticked(a.now)
    else if s == node || !a.Remote? then Other
    else
      match a.hint
      case Register(x, toRoot) => if x == s && (toRoot || parent == Some(a.from)) then Renewed(a.now) else Other
      case Unregister(x, toRoot) => if x == s && (toRoot || parent == Some(a.from)) then Ended else Other
      case Sources(list) => if s in list then Renewed(a.now) else Other
      case _ => Other
  }

  function SourceMarks(node: NodeId, session: nat, actions: seq<Action>, s: NodeId): seq<Mark> {
    if actions == [] then []
    else
      var before := actions[..|actions| - 1];
      SourceMarks(node, session, before, s) + [SourceMark(node, Parent(session, before), actions[|actions| - 1], s)]
  }

  lemma SourceStep(l: Logic, a: Action, s: NodeId, marks: seq<Mark>)
    requires EnumeratesLogic(a.orders, l) && Holds(l.remoteSources, s, Since(marks))
    ensures Holds(Handle(l, a).0.remoteSources, s, Since(marks + [SourceMark(l.node, l.nextHop, a, s)]))
  {
    SinceNext(marks, SourceMark(l.node, l.nextHop, a, s));
    match a
    case Tick(now, o) => TickLeaves(l, now, o);
    case Local(who, cmd, o) => LocalLeaves(l, who, cmd, o);
    case Remote(_, _, _, _) => SourcesLeft(l, a, s);
  }

  /** What a hint leaves of one source. */
  lemma SourcesLeft(l: Logic, a: Action, s: NodeId)
    requires a.Remote? && EnumeratesLogic(a.orders, l)
    ensures var (l', mark) := (Handle(l, a).0, SourceMark(l.node, l.nextHop, a, s));
      && (mark.Renewed? ==> mark.at == a.now && s in l'.remoteSources && l'.remoteSources[s] == a.now)
      && (mark.Ended? ==> s !in l'.remoteSources)
      && !mark.Ticked?
      && (mark.Other? ==> (s in l'.remoteSources <==> s in l.remoteSources) && (s in l.remoteSources ==> l'.remoteSources[s] == l.remoteSources[s]))
  {
    if a.hint.Sources? {
      AddAllFacts(l, a.now, a.hint.sources, a.orders.subscribers);
    } else if !a.hint.Register? && !a.hint.Unregister? {
      assert Handle(l, a).0.remoteSources == l.remoteSources;
    }
  }

  /** In every run another node is a known source exactly when its last trusted hint was neither taken back nor ran out. */
  lemma {:induction false} SourcesIff(node: NodeId, session: nat, actions: seq<Action>, s: NodeId)
    requires Orderly(node, session, actions)
    ensures Holds(Run(node, session, actions).0.remoteSources, s, Since(SourceMarks(node, session, actions, s)))
  {
    if actions != [] {
      var before := actions[..|actions| - 1];
      SourcesIff(node, session, before, s);
      NextHopIsParent(node, session, before);
      SameNode(node, session, before);
      SourceStep(Run(node, session, before).0, actions[|actions| - 1], s, SourceMarks(node, session, before, s));
    }
  }

  // ---- what a remote subscriber is told -----------------------------------------------------

  /** An output that tells `r` something about `s`. */
  predicate SpeaksOf(o: Output, r: NetPair, s: NodeId) {
    o.SendRemote? && o.to == Some(r) &&
    match o.hint
    case Register(x, _) => x == s
    case Unregister(x, _) => x == s
    case Sources(list) => s in list
    case _ => false
  }

  /** Whether `r` takes `s` for a source after what it was told; `known` if it was told nothing. */
  function Told(known: bool, out: seq<Output>, r: NetPair, s: NodeId): bool {
    if out == [] then known
    else if SpeaksOf(out[|out| - 1], r, s) then !out[|out| - 1].hint.Unregister?
    else Told(known, out[..|out| - 1], r, s)
  }

  predicate Quiet(out: seq<Output>, r: NetPair, s: NodeId) { forall o :: o in out ==> !SpeaksOf(o, r, s) }

  lemma {:induction false} QuietKeeps(known: bool, out: seq<Output>, r: NetPair, s: NodeId)
    requires Quiet(out, r, s)
    ensures Told(known, out, r, s) == known
  {
    if out != [] {
      assert out[|out| - 1] in out;
      QuietKeeps(known, out[..|out| - 1], r, s);
    }
  }

  lemma {:induction false} ToldAppend(known: bool, a: seq<Output>, b: seq<Output>, r: NetPair, s: NodeId)
    ensures Told(known, a + b, r, s) == Told(Told(known, a, r, s), b, r, s)
  {
    if b == [] {
      assert a + b == a;
    } else {
      assert (a + b)[..|a + b| - 1] == a + b[..|b| - 1];
      ToldAppend(known, a, b[..|b| - 1], r, s);
    }
  }

  lemma {:induction false} ToldEach(known: bool, remotes: seq<NetPair>, hint: Hint, r: NetPair, s: NodeId)
    requires hint.Register? || hint.Unregister?
    ensures Told(known, ToEach(remotes, hint), r, s) == if r in remotes && hint.source == s then hint.Register? else known
  {
    if remotes != [] {
      var rest := remotes[..|remotes| - 1];
      assert ToEach(remotes, hint)[..|remotes| - 1] == ToEach(rest, hint);
      ToldEach(known, rest, hint, r, s);
    }
  }

  lemma {:induction false} ToldAddAll(known: bool, l: Logic, now: nat, list: seq<NodeId>, subscribers: seq<NetPair>, r: NetPair, s: NodeId)
    requires r in subscribers
    ensures Told(known, AddAll(l, now, list, subscribers).1, r, s) == (known || (s in list && s != l.node && s !in l.remoteSources))
    decreases |list|
  {
    if list != [] {
      var x, rest := list[0], list[1..];
      if x == l.node {
        ToldAddAll(known, l, now, rest, subscribers, r, s);
      } else {
        var l1 := l.(remoteSources := l.remoteSources[x := now]);
        var (tell, news) := (ToEach(subscribers, Register(x, false)), When(l.localSubscribers != [], [SubscribeSource(l.localSubscribers, x)]));
        var first := When(x !in l.remoteSources, tell + news);
        ToldEach(known, subscribers, Register(x, false), r, s);
        ToldAppend(known, tell, news, r, s);
        QuietKeeps(Told(known, tell, r, s), news, r, s);
        var told := Told(known, first, r, s);
        ToldAddAll(told, l1, now, rest, subscribers, r, s);
        ToldAppend(known, first, AddAll(l1, now, rest, subscribers).1, r, s);
      }
    }
  }

  /** A call that tells `r`, a subscriber, about `s`: a trusted hint of somebody else, the first or last local source, a tick
      while there is a local source, and a snapshot in which it is new. */
  predicate Tells(l: Logic, a: Action, l': Logic, r: NetPair, s: NodeId) {
    match a
    case Tick(_, _) => s == l.node && l.localSources != []
    case Local(_, _, _) => s == l.node && Flips(l, l')
    case Remote(_, from, Register(x, toRoot), _) => x == s && from != r && Trusted(l, from, s, toRoot)
    case Remote(_, from, Unregister(x, toRoot), _) => x == s && from != r && Trusted(l, from, s, toRoot)
    case Remote(_, from, Sources(list), _) => s in list && s != l.node && s !in l.remoteSources
    case Remote(_, _, _, _) => false
  }

  lemma {:induction false} ExceptMember(order: seq<NetPair>, gone: NetPair, r: NetPair)
    ensures r in Except(order, gone) <==> r in order && r != gone
  {
    if order != [] {
      ExceptMember(order[1..], gone, r);
      assert Except(order, gone) == (if order[0] != gone then [order[0]] else []) + Except(order[1..], gone);
    }
  }

  lemma {:induction false} RemainingMember(l: Logic, order: seq<NetPair>, r: NetPair)
    ensures r in Remaining(l, order) <==> r in order && r in l.remoteSubscribers
  {
    if order != [] {
      RemainingMember(l, order[1..], r);
      assert Remaining(l, order) == (if order[0] in l.remoteSubscribers then [order[0]] else []) + Remaining(l, order[1..]);
    }
  }

  lemma {:induction false} DropsAreQuiet(l: Logic, gone1: seq<NetPair>, gone2: seq<NodeId>, r: NetPair, s: NodeId)
    ensures Quiet(DropSubscribers(l, gone1).1, r, s) && Quiet(DropSources(l, gone2).1, r, s)
    decreases |gone1| + |gone2|
  {
    if gone1 != [] { DropsAreQuiet(l.(remoteSubscribers := l.remoteSubscribers - {gone1[0]}), gone1[1..], [], r, s); }
    if gone2 != [] { DropsAreQuiet(l.(remoteSources := l.remoteSources - {gone2[0]}), [], gone2[1..], r, s); }
  }

  lemma TickTold(known: bool, l: Logic, a: Action, r: NetPair, s: NodeId)
    requires a.Tick? && EnumeratesLogic(a.orders, l) && r in Handle(l, a).0.remoteSubscribers
    ensures var (l', out) := Handle(l, a); Told(known, out, r, s) == if Tells(l, a, l', r, s) then IsSource(l', s) else known
  {
    var o := a.orders;
    var gone1, gone2 := ExpiredKeys(l.remoteSubscribers, a.now, o.subscribers), ExpiredKeys(l.remoteSources, a.now, o.sources);
    var (l1, out1) := DropSubscribers(l, gone1);
    var (l2, out2) := DropSources(l1, gone2);
    var (up, tell) := (Upstream(Register(l2.node, true)), ToEach(Remaining(l2, o.subscribers), Register(l2.node, false)));
    var out3 := When(l2.localSources != [], up + tell);
    var out4 := When(HasSubscribers(l2), Upstream(Subscribe(l2.session)));
    TickLeaves(l, a.now, o);
    EnumeratesMembers(o.subscribers, l.remoteSubscribers.Keys);
    DropsAreQuiet(l, gone1, [], r, s);
    DropsAreQuiet(l1, [], gone2, r, s);
    QuietKeeps(known, out1, r, s);
    QuietKeeps(known, out2, r, s);
    ToldAppend(known, out1, out2, r, s);
    RemainingMember(l2, o.subscribers, r);
    QuietKeeps(known, up, r, s);
    ToldEach(known, Remaining(l2, o.subscribers), Register(l2.node, false), r, s);
    ToldAppend(known, up, tell, r, s);
    ToldAppend(known, out1 + out2, out3, r, s);
    ToldAppend(known, out1 + out2 + out3, out4, r, s);
    QuietKeeps(Told(known, out1 + out2 + out3, r, s), out4, r, s);
  }

  /** Something upstream, something to others, and something for the local ones. */
  lemma ThreeTold(known: bool, up: seq<Output>, remotes: seq<NetPair>, hint: Hint, news: seq<Output>, r: NetPair, s: NodeId)
    requires Quiet(up, r, s) && Quiet(news, r, s) && (hint.Register? || hint.Unregister?)
    ensures Told(known, up + ToEach(remotes, hint) + news, r, s) == if r in remotes && hint.source == s then hint.Register? else known
  {
    QuietKeeps(known, up, r, s);
    ToldEach(known, remotes, hint, r, s);
    ToldAppend(known, up, ToEach(remotes, hint), r, s);
    ToldAppend(known, up + ToEach(remotes, hint), news, r, s);
    QuietKeeps(Told(known, up + ToEach(remotes, hint), r, s), news, r, s);
  }

  lemma LocalTold(known: bool, l: Logic, a: Action, r: NetPair, s: NodeId)
    requires a.Local? && EnumeratesLogic(a.orders, l) && r in l.remoteSubscribers && l.node !in l.remoteSources
    ensures var (l', out) := Handle(l, a); Told(known, out, r, s) == if Tells(l, a, l', r, s) then IsSource(l', s) else known
  {
    var (l', out) := Handle(l, a);
    LocalLeaves(l, a.actor, a.cmd, a.orders);
    EnumeratesMembers(a.orders.subscribers, l.remoteSubscribers.Keys);
    if Flips(l, l') {
      FlipSays(l, a.actor, a.cmd, a.orders);
      ThreeTold(known, FlipUp(l, l'), a.orders.subscribers, FlipHint(l, l', false), FlipNews(l, l'), r, s);
    } else {
      NoFlipQuiet(l, a.actor, a.cmd, a.orders, r, s);
      QuietKeeps(known, out, r, s);
    }
  }

  function FlipHint(l: Logic, l': Logic, toRoot: bool): Hint {
    if l'.localSources != [] then Register(l.node, toRoot) else Unregister(l.node, toRoot)
  }

  function FlipUp(l: Logic, l': Logic): seq<Output> {
    When(l.remoteSources == map[], Upstream(FlipHint(l, l', true)))
  }

  function FlipNews(l: Logic, l': Logic): seq<Output> {
    When(l.localSubscribers != [], [if l'.localSources != [] then SubscribeSource(l.localSubscribers, l.node) else UnsubscribeSource(l.localSubscribers, l.node)])
  }

  /** What is said when the first local source comes or the last one goes. */
  lemma FlipSays(l: Logic, actor: Actor, cmd: LocalCmd, o: Orders)
    requires Flips(l, OnLocal(l, actor, cmd, o).0)
    ensures var (l', out) := OnLocal(l, actor, cmd, o); out == FlipUp(l, l') + ToEach(o.subscribers, FlipHint(l, l', false)) + FlipNews(l, l')
  {
    LocalLeaves(l, actor, cmd, o);
  }

  lemma NoFlipQuiet(l: Logic, actor: Actor, cmd: LocalCmd, o: Orders, r: NetPair, s: NodeId)
    requires !Flips(l, OnLocal(l, actor, cmd, o).0)
    ensures Quiet(OnLocal(l, actor, cmd, o).1, r, s)
  {
  }

  lemma HintTold(known: bool, l: Logic, a: Action, r: NetPair, s: NodeId)
    requires a.Remote? && (a.hint.Register? || a.hint.Unregister?) && EnumeratesLogic(a.orders, l) && r in l.remoteSubscribers
    ensures var (l', out) := Handle(l, a); Told(known, out, r, s) == if Tells(l, a, l', r, s) then IsSource(l', s) else known
  {
    EnumeratesMembers(a.orders.subscribers, l.remoteSubscribers.Keys);
    ExceptMember(a.orders.subscribers, a.from, r);
    var (hint, source, others) := (a.hint.(toRoot := false), a.hint.source, Except(a.orders.subscribers, a.from));
    var up := When(a.hint.toRoot, Upstream(a.hint.(toRoot := true)));
    var news := if hint.Register? then When(source !in l.remoteSources && l.localSubscribers != [], [SubscribeSource(l.localSubscribers, source)])
                else When(source in l.remoteSources && l.localSubscribers != [], [UnsubscribeSource(l.localSubscribers, source)]);
    ThreeTold(known, up, others, hint, news, r, s);
  }

  lemma OtherTold(known: bool, l: Logic, a: Action, r: NetPair, s: NodeId)
    requires a.Remote? && !(a.hint.Register? || a.hint.Unregister?) && EnumeratesLogic(a.orders, l) && r in l.remoteSubscribers
    ensures var (l', out) := Handle(l, a); Told(known, out, r, s) == if Tells(l, a, l', r, s) then true else known
  {
    EnumeratesMembers(a.orders.subscribers, l.remoteSubscribers.Keys);
    if a.hint.Sources? {
      ToldAddAll(known, l, a.now, a.hint.sources, a.orders.subscribers, r, s);
    } else {
      QuietKeeps(known, Handle(l, a).1, r, s);
    }
  }

  predicate Enters(l: Logic, a: Action, r: NetPair) { a.Remote? && a.from == r && a.hint.Subscribe? && r !in l.remoteSubscribers }

  /** A new subscriber is told all sources. */
  lemma EntersTold(l: Logic, a: Action, r: NetPair, s: NodeId)
    requires EnumeratesLogic(a.orders, l) && Enters(l, a, r) && l.node !in l.remoteSources
    ensures var (l', out) := Handle(l, a); Told(false, out, r, s) == IsSource(l', s)
  {
    var sources := SourcesOf(l, a.orders.sources);
    var ok := [SendRemote(Some(r), SubscribeOk(a.hint.session))];
    var (ask, list) := (When(!HasSubscribers(l), Upstream(Subscribe(l.session))), When(sources != [], [SendRemote(Some(r), Sources(sources))]));
    assert s in sources <==> IsSource(l, s) by { SourcesOfFacts(l, a.orders); }
    QuietKeeps(false, ok, r, s);
    QuietKeeps(false, ask, r, s);
    SnapshotTold(sources, r, s);
    ToldAppend(false, ask, list, r, s);
    ToldAppend(false, ok, ask + list, r, s);
  }

  lemma SnapshotTold(sources: seq<NodeId>, r: NetPair, s: NodeId)
    ensures Told(false, When(sources != [], [SendRemote(Some(r), Sources(sources))]), r, s) == (s in sources)
  {
    var out := [SendRemote(Some(r), Sources(sources))];
    assert out[..0] == [];
    assert Told(false, out[..0], r, s) == false;
  }

  /** What `r` knows of `s` since it last entered. */
  ghost function KnowsOf(node: NodeId, session: nat, actions: seq<Action>, r: NetPair, s: NodeId): bool {
    if actions == [] then false
    else
      var (l, a) := (Run(node, session, actions[..|actions| - 1]).0, actions[|actions| - 1]);
      Told(if Enters(l, a, r) then false else KnowsOf(node, session, actions[..|actions| - 1], r, s), Handle(l, a).1, r, s)
  }

  /** `r` was last told otherwise, or not told, about `s`: a change it is not told of turns what it knows wrong or, if it was wrong
      already, right; anything it is told puts it right. */
  ghost predicate Mistaken(node: NodeId, session: nat, actions: seq<Action>, r: NetPair, s: NodeId) {
    if actions == [] then false
    else
      var (l, a) := (Run(node, session, actions[..|actions| - 1]).0, actions[|actions| - 1]);
      var l' := Handle(l, a).0;
      !Enters(l, a, r) && !Tells(l, a, l', r, s) && (Mistaken(node, session, actions[..|actions| - 1], r, s) != (IsSource(l, s) != IsSource(l', s)))
  }

  lemma HintChanges(l: Logic, a: Action, s: NodeId)
    requires a.Remote? && EnumeratesLogic(a.orders, l) && l.node !in l.remoteSources
    ensures var l' := Handle(l, a).0;
      IsSource(l, s) != IsSource(l', s) <==>
        s != l.node && match a.hint
          case Register(x, toRoot) => x == s && Trusted(l, a.from, x, toRoot) && s !in l.remoteSources
          case Unregister(x, toRoot) => x == s && Trusted(l, a.from, x, toRoot) && s in l.remoteSources
          case Sources(list) => s in list && s !in l.remoteSources
          case _ => false
  {
    HintLeaves(l, a.now, a.from, a.hint, a.orders);
    if a.hint.Sources? { AddAllFacts(l, a.now, a.hint.sources, a.orders.subscribers); }
  }

  /** Which changes a subscriber is not told of: exactly those it reported itself, and sources that ran out on a tick. */
  lemma UntoldChanges(l: Logic, a: Action, r: NetPair, s: NodeId)
    requires EnumeratesLogic(a.orders, l) && l.node !in l.remoteSources && IsSource(l, s) != IsSource(Handle(l, a).0, s)
    ensures !Tells(l, a, Handle(l, a).0, r, s) <==> a.Tick? || (a.Remote? && a.from == r && (a.hint.Register? || a.hint.Unregister?))
  {
    match a
    case Tick(now, o) => TickLeaves(l, now, o);
    case Local(who, cmd, o) => LocalLeaves(l, who, cmd, o);
    case Remote(_, _, _, _) => HintChanges(l, a, s);
  }

  /** In every run a remote subscriber takes a node for a source exactly when this node does, save where it is mistaken: its
      own reports are not sent back to it, and nobody is told of a source that runs out. */
  lemma {:induction false} SubscriberKnowsSources(node: NodeId, session: nat, actions: seq<Action>, r: NetPair, s: NodeId)
    requires Orderly(node, session, actions)
    ensures var l := Run(node, session, actions).0;
      r in l.remoteSubscribers ==> (KnowsOf(node, session, actions, r, s) <==> (IsSource(l, s) != Mistaken(node, session, actions, r, s)))
  {
    if actions != [] {
      var before, a := actions[..|actions| - 1], actions[|actions| - 1];
      var l := Run(node, session, before).0;
      var l', known := Handle(l, a).0, KnowsOf(node, session, before, r, s);
      SubscriberKnowsSources(node, session, before, r, s);
      SameNode(node, session, before);
      if r in l'.remoteSubscribers {
        StaysOrEnters(l, a, r);
        if Enters(l, a, r) {
          EntersTold(l, a, r, s);
        } else {
          StepTold(known, l, a, r, s);
        }
      }
    }
  }

  lemma StaysOrEnters(l: Logic, a: Action, r: NetPair)
    requires EnumeratesLogic(a.orders, l) && r in Handle(l, a).0.remoteSubscribers
    ensures Enters(l, a, r) || r in l.remoteSubscribers
  {
    match a
    case Tick(now, o) => TickLeaves(l, now, o);
    case Local(who, cmd, o) => LocalLeaves(l, who, cmd, o);
    case Remote(now, from, hint, o) => HintLeaves(l, now, from, hint, o);
  }

  lemma StepTold(known: bool, l: Logic, a: Action, r: NetPair, s: NodeId)
    requires EnumeratesLogic(a.orders, l) && l.node !in l.remoteSources && r in l.remoteSubscribers && r in Handle(l, a).0.remoteSubscribers
    ensures var (l', out) := Handle(l, a); Told(known, out, r, s) == if Tells(l, a, l', r, s) then IsSource(l', s) else known
  {
    if a.Tick? {
      TickTold(known, l, a, r, s);
    } else if a.Local? {
      LocalTold(known, l, a, r, s);
    } else if a.hint.Register? || a.hint.Unregister? {
      HintTold(known, l, a, r, s);
    } else {
      OtherTold(known, l, a, r, s);
      if a.hint.Sources? { AddAllFacts(l, a.now, a.hint.sources, a.orders.subscribers); }
    }
  }

  // ---- what every step says -----------------------------------------------------------------

  /** What a step has to tell a remote. */
  predicate OwesTo(l: Logic, a: Action, l': Logic, r: NetPair, h: Hint) {
    match a
    case Tick(_, _) => l.localSources != [] && r in l'.remoteSubscribers && h == Register(l.node, false)
    case Local(_, _, _) => Flips(l, l') && r in l.remoteSubscribers && h == FlipHint(l, l', false)
    case Remote(_, from, hint, o) =>
      match hint
      case Register(s, toRoot) => Trusted(l, from, s, toRoot) && r in l.remoteSubscribers && r != from && h == Register(s, false)
      case Unregister(s, toRoot) => Trusted(l, from, s, toRoot) && r in l.remoteSubscribers && r != from && h == Unregister(s, false)
      case Subscribe(theirs) => r == from && (h == SubscribeOk(theirs) || (r !in l.remoteSubscribers && SourcesOf(l, o.sources) != [] && h == Sources(SourcesOf(l, o.sources))))
      case Unsubscribe(theirs) => r == from && h == UnsubscribeOk(theirs)
      case Sources(list) => r in l.remoteSubscribers && h.Register? && !h.toRoot && h.source in list && h.source != l.node && h.source !in l.remoteSources
      case _ => false
  }

  /** What a step has to say upstream. */
  predicate OwesUp(l: Logic, a: Action, l': Logic, h: Hint) {
    match a
    case Tick(_, _) =>
      || (l.localSources != [] && h == Register(l.node, true))
      || (HasSubscribers(l') && h == Subscribe(l.session))
      || (HasSubscribers(l) && !HasSubscribers(l') && h == Unsubscribe(l.session))
    case Local(_, _, _) =>
      || (Flips(l, l') && l.remoteSources == map[] && h == FlipHint(l, l', true))
      || (HasSubscribers(l') && !HasSubscribers(l) && h == Subscribe(l.session))
      || (HasSubscribers(l) && !HasSubscribers(l') && h == Unsubscribe(l.session))
    case Remote(_, from, hint, _) =>
      match hint
      case Register(s, toRoot) => Trusted(l, from, s, toRoot) && toRoot && h == hint
      case Unregister(s, toRoot) => Trusted(l, from, s, toRoot) && toRoot && h == hint
      case Subscribe(_) => !HasSubscribers(l) && h == Subscribe(l.session)
      case Unsubscribe(_) => HasSubscribers(l) && !HasSubscribers(l') && h == Unsubscribe(l.session)
      case _ => false
  }

  predicate Owes(l: Logic, a: Action, l': Logic, o: Output)
    requires o.SendRemote?
  {
    if o.to.Some? then OwesTo(l, a, l', o.to.value, o.hint) else OwesUp(l, a, l', o.hint)
  }

  function One(b: bool): nat { if b then 1 else 0 }

  lemma {:induction false} EachOnce(remotes: seq<NetPair>, h: Hint, o: Output)
    requires NoDuplicates(remotes)
    ensures Count(ToEach(remotes, h), o) == One(o.SendRemote? && o.to.Some? && o.to.value in remotes && o.hint == h)
  {
    if remotes != [] {
      assert ToEach(remotes, h)[1..] == ToEach(remotes[1..], h);
      assert remotes[0] !in remotes[1..];
      EachOnce(remotes[1..], h, o);
    }
  }

  lemma CountWhen(cond: bool, x: Output, o: Output)
    ensures Count(When(cond, [x]), o) == One(cond && x == o)
  {
  }

  lemma {:induction false} FilterUnique(order: seq<NetPair>, p: NetPair -> bool)
    requires NoDuplicates(order)
    ensures NoDuplicates(Filter(order, p)) && forall r :: r in Filter(order, p) ==> r in order
  {
    if order != [] {
      FilterUnique(order[1..], p);
      assert order[0] !in order[1..];
      assert Filter(order, p) == (if p(order[0]) then [order[0]] else []) + Filter(order[1..], p);
    }
  }

  lemma {:induction false} DropSubscribersSays(l: Logic, gone: seq<NetPair>, o: Output)
    requires NoDuplicates(gone) && (forall r :: r in gone ==> r in l.remoteSubscribers) && o.SendRemote?
    ensures var (l', out) := DropSubscribers(l, gone); Count(out, o) == One(HasSubscribers(l) && !HasSubscribers(l') && o == SendRemote(None, Unsubscribe(l.session)))
    decreases |gone|
  {
    if gone != [] {
      var l1 := l.(remoteSubscribers := l.remoteSubscribers - {gone[0]});
      assert gone[0] in gone && gone[0] !in gone[1..];
      forall r | r in gone[1..] ensures r in l1.remoteSubscribers { assert r in gone; }
      DropSubscribersSays(l1, gone[1..], o);
      CountWhen(!HasSubscribers(l1), SendRemote(None, Unsubscribe(l.session)), o);
      CountAppend(When(!HasSubscribers(l1), Upstream(Unsubscribe(l.session))), DropSubscribers(l1, gone[1..]).1, o);
    }
  }

  lemma {:induction false} DropSourcesSays(l: Logic, gone: seq<NodeId>, o: Output)
    requires o.SendRemote?
    ensures o !in DropSources(l, gone).1
    decreases |gone|
  {
    if gone != [] { DropSourcesSays(l.(remoteSources := l.remoteSources - {gone[0]}), gone[1..], o); }
  }

  lemma TickSays(l: Logic, a: Action, o: Output)
    requires a.Tick? && EnumeratesLogic(a.orders, l) && o.SendRemote?
    ensures var (l', out) := Handle(l, a); Count(out, o) == One(Owes(l, a, l', o))
  {
    var gone1, gone2 := ExpiredKeys(l.remoteSubscribers, a.now, a.orders.subscribers), ExpiredKeys(l.remoteSources, a.now, a.orders.sources);
    var (l1, out1) := DropSubscribers(l, gone1);
    var (l2, out2) := DropSources(l1, gone2);
    TickLeaves(l, a.now, a.orders);
    DropSubscribersFacts(l, gone1);
    ExpiredFacts(l.remoteSubscribers, a.now, a.orders.subscribers);
    DropSubscribersSays(l, gone1, o);
    DropSourcesFacts(l1, gone2);
    DropSourcesSays(l1, gone2, o);
    CountNone(out2, o);
    EnumeratesMembers(a.orders.subscribers, l.remoteSubscribers.Keys);
    TickTail(l2, a.orders, o);
    CountAppend(out1, out2, o);
    var (out3, out4) := (TickRegisters(l2, a.orders), When(HasSubscribers(l2), Upstream(Subscribe(l2.session))));
    CountAppend(out1 + out2, out3, o);
    CountAppend(out1 + out2 + out3, out4, o);
    TickCounts(l, a, l2, o);
  }

  /** The parts of what a tick says, put together. */
  lemma TickCounts(l: Logic, a: Action, l2: Logic, o: Output)
    requires a.Tick? && EnumeratesLogic(a.orders, l) && o.SendRemote? && l2 == l.(remoteSubscribers := l2.remoteSubscribers, remoteSources := l2.remoteSources)
    requires forall r :: r in l2.remoteSubscribers ==> r in l.remoteSubscribers
    ensures One(Owes(l, a, l2, o)) ==
      One(HasSubscribers(l) && !HasSubscribers(l2) && o == SendRemote(None, Unsubscribe(l.session)))
      + One(l.localSources != [] && (o == SendRemote(None, Register(l.node, true))
            || (o.to.Some? && o.to.value in a.orders.subscribers && o.to.value in l2.remoteSubscribers && o.hint == Register(l.node, false))))
      + One(HasSubscribers(l2) && o == SendRemote(None, Subscribe(l.session)))
  {
    EnumeratesMembers(a.orders.subscribers, l.remoteSubscribers.Keys);
  }

  function TickRegisters(l: Logic, o: Orders): seq<Output> {
    When(l.localSources != [], Upstream(Register(l.node, true)) + ToEach(Remaining(l, o.subscribers), Register(l.node, false)))
  }

  /** What a tick says after the timeouts. */
  lemma TickTail(l: Logic, orders: Orders, o: Output)
    requires o.SendRemote? && NoDuplicates(orders.subscribers)
    ensures Count(TickRegisters(l, orders), o) == One(l.localSources != [] &&
      (o == SendRemote(None, Register(l.node, true)) || (o.to.Some? && o.to.value in orders.subscribers && o.to.value in l.remoteSubscribers && o.hint == Register(l.node, false))))
    ensures Count(When(HasSubscribers(l), Upstream(Subscribe(l.session))), o) == One(HasSubscribers(l) && o == SendRemote(None, Subscribe(l.session)))
  {
    var remaining := Remaining(l, orders.subscribers);
    FilterUnique(orders.subscribers, r => r in l.remoteSubscribers);
    if o.to.Some? { RemainingMember(l, orders.subscribers, o.to.value); }
    EachOnce(remaining, Register(l.node, false), o);
    CountAppend(Upstream(Register(l.node, true)), ToEach(remaining, Register(l.node, false)), o);
  }

  /** Something upstream, something to some, and something for the local ones. */
  lemma ThreeSay(cond: bool, up: Hint, remotes: seq<NetPair>, hint: Hint, news: seq<Output>, o: Output)
    requires o.SendRemote? && NoDuplicates(remotes) && o !in news
    ensures Count(When(cond, Upstream(up)) + ToEach(remotes, hint) + news, o) ==
      One(cond && o == SendRemote(None, up)) + One(o.to.Some? && o.to.value in remotes && o.hint == hint)
  {
    CountWhen(cond, SendRemote(None, up), o);
    EachOnce(remotes, hint, o);
    CountNone(news, o);
    CountAppend(When(cond, Upstream(up)), ToEach(remotes, hint), o);
    CountAppend(When(cond, Upstream(up)) + ToEach(remotes, hint), news, o);
  }

  lemma LocalSays(l: Logic, a: Action, o: Output)
    requires a.Local? && EnumeratesLogic(a.orders, l) && o.SendRemote?
    ensures var (l', out) := Handle(l, a); Count(out, o) == One(Owes(l, a, l', o))
  {
    var (l', out) := Handle(l, a);
    LocalLeaves(l, a.actor, a.cmd, a.orders);
    EnumeratesMembers(a.orders.subscribers, l.remoteSubscribers.Keys);
    if Flips(l, l') {
      FlipSays(l, a.actor, a.cmd, a.orders);
      ThreeSay(l.remoteSources == map[], FlipHint(l, l', true), a.orders.subscribers, FlipHint(l, l', false), FlipNews(l, l'), o);
    } else {
      SubscriberSays(l, a.actor, a.cmd, a.orders, o);
    }
  }

  lemma SubscriberSays(l: Logic, actor: Actor, cmd: LocalCmd, orders: Orders, o: Output)
    requires !Flips(l, OnLocal(l, actor, cmd, orders).0) && o.SendRemote?
    ensures var (l', out) := OnLocal(l, actor, cmd, orders);
      Count(out, o) == One(HasSubscribers(l') && !HasSubscribers(l) && o == SendRemote(None, Subscribe(l.session)))
                       + One(HasSubscribers(l) && !HasSubscribers(l') && o == SendRemote(None, Unsubscribe(l.session)))
  {
    var (l', out) := OnLocal(l, actor, cmd, orders);
    LocalLeaves(l, actor, cmd, orders);
    var sources := SourcesOf(l, orders.sources);
    if cmd.AddSubscriber? && actor !in l.localSubscribers {
      CountNone(SubscribeEach(actor, sources), o);
      CountWhen(!HasSubscribers(l), SendRemote(None, Subscribe(l.session)), o);
      CountAppend(When(!HasSubscribers(l), Upstream(Subscribe(l.session))), SubscribeEach(actor, sources), o);
    } else if cmd.RemoveSubscriber? && actor in l.localSubscribers {
      CountNone(UnsubscribeEach(actor, sources), o);
      CountWhen(!HasSubscribers(l'), SendRemote(None, Unsubscribe(l.session)), o);
      CountAppend(When(!HasSubscribers(l'), Upstream(Unsubscribe(l.session))), UnsubscribeEach(actor, sources), o);
    }
  }

  lemma HintSays(l: Logic, a: Action, o: Output)
    requires a.Remote? && (a.hint.Register? || a.hint.Unregister?) && EnumeratesLogic(a.orders, l) && o.SendRemote?
    ensures var (l', out) := Handle(l, a); Count(out, o) == One(Owes(l, a, l', o))
  {
    var (source, others) := (a.hint.source, Except(a.orders.subscribers, a.from));
    if Trusted(l, a.from, source, a.hint.toRoot) {
      var news := if a.hint.Register? then When(source !in l.remoteSources && l.localSubscribers != [], [SubscribeSource(l.localSubscribers, source)])
                  else When(source in l.remoteSources && l.localSubscribers != [], [UnsubscribeSource(l.localSubscribers, source)]);
      EnumeratesMembers(a.orders.subscribers, l.remoteSubscribers.Keys);
      FilterUnique(a.orders.subscribers, r => r != a.from);
      if o.to.Some? { ExceptMember(a.orders.subscribers, a.from, o.to.value); }
      ThreeSay(a.hint.toRoot, a.hint.(toRoot := true), others, a.hint.(toRoot := false), news, o);
    }
  }

  lemma SubscribeSays(l: Logic, a: Action, o: Output)
    requires a.Remote? && a.hint.Subscribe? && o.SendRemote? && EnumeratesLogic(a.orders, l)
    ensures var (l', out) := Handle(l, a); Count(out, o) == One(Owes(l, a, l', o))
  {
    var sources := SourcesOf(l, a.orders.sources);
    var ok := [SendRemote(Some(a.from), SubscribeOk(a.hint.session))];
    var (ask, list) := (When(!HasSubscribers(l), Upstream(Subscribe(l.session))), When(sources != [], [SendRemote(Some(a.from), Sources(sources))]));
    CountWhen(!HasSubscribers(l), SendRemote(None, Subscribe(l.session)), o);
    CountWhen(sources != [], SendRemote(Some(a.from), Sources(sources)), o);
    CountAppend(ask, list, o);
    CountAppend(ok, When(a.from !in l.remoteSubscribers, ask + list), o);
  }

  lemma UnsubscribeSays(l: Logic, a: Action, o: Output)
    requires a.Remote? && a.hint.Unsubscribe? && o.SendRemote? && EnumeratesLogic(a.orders, l)
    ensures var (l', out) := Handle(l, a); Count(out, o) == One(Owes(l, a, l', o))
  {
    var l' := Handle(l, a).0;
    var ok := [SendRemote(Some(a.from), UnsubscribeOk(a.hint.session))];
    var leave := a.from in l.remoteSubscribers && !HasSubscribers(l');
    CountWhen(leave, SendRemote(None, Unsubscribe(l.session)), o);
    CountAppend(ok, When(leave, Upstream(Unsubscribe(l.session))), o);
    if a.from !in l.remoteSubscribers { assert l'.remoteSubscribers == l.remoteSubscribers; }
  }

  lemma {:induction false} SnapshotSays(l: Logic, now: nat, list: seq<NodeId>, subscribers: seq<NetPair>, o: Output)
    requires o.SendRemote? && NoDuplicates(subscribers)
    ensures Count(AddAll(l, now, list, subscribers).1, o) == One(o.to.Some? && o.to.value in subscribers && o.hint.Register? && !o.hint.toRoot
              && o.hint.source in list && o.hint.source != l.node && o.hint.source !in l.remoteSources)
    decreases |list|
  {
    if list != [] {
      var x, rest := list[0], list[1..];
      if x == l.node {
        SnapshotSays(l, now, rest, subscribers, o);
      } else {
        var l1 := l.(remoteSources := l.remoteSources[x := now]);
        var (tell, news) := (ToEach(subscribers, Register(x, false)), When(l.localSubscribers != [], [SubscribeSource(l.localSubscribers, x)]));
        EachOnce(subscribers, Register(x, false), o);
        CountNone(news, o);
        CountAppend(tell, news, o);
        SnapshotSays(l1, now, rest, subscribers, o);
        CountAppend(When(x !in l.remoteSources, tell + news), AddAll(l1, now, rest, subscribers).1, o);
      }
    }
  }

  /** In every run, every step tells every remote and says upstream what it has to exactly once, and nothing else. */
  lemma StepSaysExactly(node: NodeId, session: nat, actions: seq<Action>, a: Action, o: Output)
    requires EnumeratesLogic(a.orders, Run(node, session, actions).0) && o.SendRemote?
    ensures var l := Run(node, session, actions).0;
      var (l', out) := Handle(l, a);
      Count(out, o) == One(Owes(l, a, l', o))
  {
    var l := Run(node, session, actions).0;
    EnumeratesMembers(a.orders.subscribers, l.remoteSubscribers.Keys);
    match a
    case Tick(_, _) => TickSays(l, a, o);
    case Local(_, _, _) => LocalSays(l, a, o);
    case Remote(now, _, hint, orders) =>
      match hint
      case Register(_, _) => HintSays(l, a, o);
      case Unregister(_, _) => HintSays(l, a, o);
      case Subscribe(_) => SubscribeSays(l, a, o);
      case Unsubscribe(_) => UnsubscribeSays(l, a, o);
      case Sources(list) => SnapshotSays(l, now, list, orders.subscribers, o);
      case _ =>
  }
}
