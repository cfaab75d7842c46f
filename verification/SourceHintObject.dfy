/** The source-hint logic as the object the program keeps, with its loops over maps and its output queue. Each method
    is proved against the logic as a value. */
module SourceHintObject {
  import opened Identity
  import opened Endpoints
  import H = SourceHint

  class SourceHintLogic {
    const node: NodeId
    const session: nat
    var remoteSources: map<NodeId, nat>
    var remoteSubscribers: map<NetPair, nat>
    var localSources: seq<Actor>
    var localSubscribers: seq<Actor>
    var nextHop: Option<NetPair>
    var queue: seq<H.Output>

    function View(): (l: H.Logic) reads this {
      H.Logic(node, session, remoteSources, remoteSubscribers, localSources, localSubscribers, nextHop)
    }

    constructor (node: NodeId, session: nat)
      ensures View() == H.NewLogic(node, session) && queue == []
    {
      this.node, this.session := node, session;
      remoteSources, remoteSubscribers := map[], map[];
      localSources, localSubscribers, nextHop, queue := [], [], None, [];
    }

    /** The known sources, each once. */
    method Sources() returns (sources: seq<NodeId>)
      requires node !in remoteSources
      ensures NoDuplicates(sources) && forall x :: x in sources <==> H.IsSource(View(), x)
    {
      var order := KeysOf(remoteSources);
      EnumeratesMembers(order, remoteSources.Keys);
      sources := if localSources == [] then order else order + [node];
    }

    method Push(o: H.Output)
      modifies this`queue
      ensures queue == old(queue) + [o]
    {
      queue := queue + [o];
    }

    /** Pushes what a condition asks for. */
    method PushWhen(cond: bool, out: seq<H.Output>)
      modifies this`queue
      ensures queue == old(queue) + H.When(cond, out)
    {
      queue := if cond then queue + out else queue;
    }

    /** Sends a hint to each of a list of nodes. */
    method SendEach(remotes: seq<NetPair>, hint: H.Hint)
      modifies this`queue
      ensures queue == old(queue) + H.ToEach(remotes, hint)
    {
      var i := 0;
      while i < |remotes|
        invariant i <= |remotes| && queue == old(queue) + H.ToEach(remotes[..i], hint)
      {
        assert H.ToEach(remotes[..i + 1], hint) == H.ToEach(remotes[..i], hint) + [H.SendRemote(Some(remotes[i]), hint)];
        queue := queue + [H.SendRemote(Some(remotes[i]), hint)];
        i := i + 1;
      }
      assert remotes[..i] == remotes;
    }

    /** Sends a hint to each of a list of nodes but one. */
    method SendOthers(remotes: seq<NetPair>, sender: NetPair, hint: H.Hint)
      modifies this`queue
      ensures queue == old(queue) + H.ToEach(H.Except(remotes, sender), hint)
    {
      var i := 0;
      while i < |remotes|
        invariant i <= |remotes| && queue == old(queue) + H.ToEach(H.Except(remotes[..i], sender), hint)
      {
        assert remotes[..i + 1] == remotes[..i] + [remotes[i]];
        FilterAppend(remotes[..i], remotes[i], r => r != sender);
        if remotes[i] != sender {
          ToEachSnoc(H.Except(remotes[..i], sender), remotes[i], hint);
          Push(H.SendRemote(Some(remotes[i]), hint));
        }
        i := i + 1;
      }
      assert remotes[..i] == remotes;
    }

    /** Sends a hint to each node of a list that still subscribes. */
    method SendPresent(remotes: seq<NetPair>, hint: H.Hint)
      modifies this`queue
      ensures queue == old(queue) + H.ToEach(H.Remaining(View(), remotes), hint)
    {
      ghost var l := View();
      var i := 0;
      while i < |remotes|
        invariant i <= |remotes| && queue == old(queue) + H.ToEach(H.Remaining(l, remotes[..i]), hint)
      {
        assert remotes[..i + 1] == remotes[..i] + [remotes[i]];
        FilterAppend(remotes[..i], remotes[i], r => r in l.remoteSubscribers);
        if remotes[i] in remoteSubscribers {
          ToEachSnoc(H.Remaining(l, remotes[..i]), remotes[i], hint);
          Push(H.SendRemote(Some(remotes[i]), hint));
        }
        i := i + 1;
      }
      assert remotes[..i] == remotes;
    }

    method DropSubscribers(gone: seq<NetPair>)
      modifies this`remoteSubscribers, this`queue
      ensures (View(), queue) == var (l, out) := H.DropSubscribers(old(View()), gone); (l, old(queue) + out)
    {
      ghost var start := View();
      var i := 0;
      while i < |gone|
        invariant i <= |gone|
        invariant H.DropSubscribers(start, gone).0 == H.DropSubscribers(View(), gone[i..]).0
        invariant old(queue) + H.DropSubscribers(start, gone).1 == queue + H.DropSubscribers(View(), gone[i..]).1
      {
        assert gone[i..][1..] == gone[i + 1..];
        ghost var before := queue;
        remoteSubscribers := remoteSubscribers - {gone[i]};
        if localSubscribers == [] && remoteSubscribers == map[] {
          Push(H.SendRemote(None, H.Unsubscribe(session)));
        }
        ghost var rest := H.DropSubscribers(View(), gone[i + 1..]).1;
        Regroup(before, H.When(!H.HasSubscribers(View()), H.Upstream(H.Unsubscribe(session))), rest);
        i := i + 1;
      }
      assert queue == queue + H.DropSubscribers(View(), gone[i..]).1;
    }

    method DropSources(gone: seq<NodeId>)
      modifies this`remoteSources, this`queue
      ensures (View(), queue) == var (l, out) := H.DropSources(old(View()), gone); (l, old(queue) + out)
    {
      ghost var start := View();
      var i := 0;
      while i < |gone|
        invariant i <= |gone|
        invariant H.DropSources(start, gone).0 == H.DropSources(View(), gone[i..]).0
        invariant old(queue) + H.DropSources(start, gone).1 == queue + H.DropSources(View(), gone[i..]).1
      {
        assert gone[i..][1..] == gone[i + 1..];
        ghost var before := queue;
        remoteSources := remoteSources - {gone[i]};
        if localSubscribers != [] {
          Push(H.UnsubscribeSource(localSubscribers, gone[i]));
        }
        ghost var rest := H.DropSources(View(), gone[i + 1..]).1;
        Regroup(before, H.When(localSubscribers != [], [H.UnsubscribeSource(localSubscribers, gone[i])]), rest);
        i := i + 1;
      }
      assert queue == queue + H.DropSources(View(), gone[i..]).1;
    }

    method OnTick(now: nat) returns (ghost o: H.Orders)
      modifies this
      ensures H.EnumeratesLogic(o, old(View()))
      ensures (View(), queue) == var (l, out) := H.OnTick(old(View()), now, o); (l, old(queue) + out)
    {
      var subscribers := KeysOf(remoteSubscribers);
      var sources := KeysOf(remoteSources);
      o := H.Orders(sources, subscribers);
      var goneSubscribers := Expired(remoteSubscribers, now, subscribers);
      DropSubscribers(goneSubscribers);
      var goneSources := Expired(remoteSources, now, sources);
      ghost var (l1, q1) := (View(), queue);
      DropSources(goneSources);
      ghost var (l2, q2) := (View(), queue);
      if localSources != [] {
        Push(H.SendRemote(None, H.Register(node, true)));
        SendPresent(subscribers, H.Register(node, false));
      }
      ghost var out3 := H.When(localSources != [], H.Upstream(H.Register(node, true)) + H.ToEach(H.Remaining(l2, subscribers), H.Register(node, false)));
      Regroup(q2, H.Upstream(H.Register(node, true)), H.ToEach(H.Remaining(l2, subscribers), H.Register(node, false)));
      var ask := localSubscribers != [] || remoteSubscribers != map[];
      PushWhen(ask, H.Upstream(H.Subscribe(session)));
      Regroup4(old(queue), H.DropSubscribers(old(View()), goneSubscribers).1, H.DropSources(l1, goneSources).1, out3,
               H.When(ask, H.Upstream(H.Subscribe(session))));
    }

    method AddSource(actor: Actor) returns (ghost o: H.Orders)
      modifies this
      ensures H.EnumeratesLogic(o, old(View()))
      ensures (View(), queue) == var (l, out) := H.OnLocal(old(View()), actor, H.AddSource, o); (l, old(queue) + out)
    {
      var subscribers := KeysOf(remoteSubscribers);
      var sources := KeysOf(remoteSources);
      o := H.Orders(sources, subscribers);
      Regroup(queue, [], []);
      if actor in localSources { return; }
      localSources := localSources + [actor];
      if |localSources| == 1 {
        PushWhen(remoteSources == map[], H.Upstream(H.Register(node, true)));
        SendEach(subscribers, H.Register(node, false));
        PushWhen(localSubscribers != [], [H.SubscribeSource(localSubscribers, node)]);
        Regroup3(old(queue), H.When(remoteSources == map[], H.Upstream(H.Register(node, true))), H.ToEach(subscribers, H.Register(node, false)),
                 H.When(localSubscribers != [], [H.SubscribeSource(localSubscribers, node)]));
      }
    }

    method RemoveSource(actor: Actor) returns (ghost o: H.Orders)
      modifies this
      ensures H.EnumeratesLogic(o, old(View()))
      ensures (View(), queue) == var (l, out) := H.OnLocal(old(View()), actor, H.RemoveSource, o); (l, old(queue) + out)
    {
      var subscribers := KeysOf(remoteSubscribers);
      var sources := KeysOf(remoteSources);
      o := H.Orders(sources, subscribers);
      Regroup(queue, [], []);
      var pos := FindPosition(localSources, actor);
      if pos == |localSources| { return; }
      localSources := SwapRemove(localSources, pos);
      if localSources == [] {
        PushWhen(remoteSources == map[], H.Upstream(H.Unregister(node, true)));
        SendEach(subscribers, H.Unregister(node, false));
        PushWhen(localSubscribers != [], [H.UnsubscribeSource(localSubscribers, node)]);
        Regroup3(old(queue), H.When(remoteSources == map[], H.Upstream(H.Unregister(node, true))), H.ToEach(subscribers, H.Unregister(node, false)),
                 H.When(localSubscribers != [], [H.UnsubscribeSource(localSubscribers, node)]));
      }
    }

    /** Announces sources to one actor. */
    method TellEach(actor: Actor, sources: seq<NodeId>)
      modifies this`queue
      ensures queue == old(queue) + H.SubscribeEach(actor, sources)
    {
      var i := 0;
      while i < |sources|
        invariant i <= |sources| && queue == old(queue) + H.SubscribeEach(actor, sources[..i])
      {
        assert H.SubscribeEach(actor, sources[..i + 1]) == H.SubscribeEach(actor, sources[..i]) + [H.SubscribeSource([actor], sources[i])];
        queue := queue + [H.SubscribeSource([actor], sources[i])];
        i := i + 1;
      }
      assert sources[..i] == sources;
    }

    /** Takes sources back from one actor. */
    method UntellEach(actor: Actor, sources: seq<NodeId>)
      modifies this`queue
      ensures queue == old(queue) + H.UnsubscribeEach(actor, sources)
    {
      var i := 0;
      while i < |sources|
        invariant i <= |sources| && queue == old(queue) + H.UnsubscribeEach(actor, sources[..i])
      {
        assert H.UnsubscribeEach(actor, sources[..i + 1]) == H.UnsubscribeEach(actor, sources[..i]) + [H.UnsubscribeSource([actor], sources[i])];
        queue := queue + [H.UnsubscribeSource([actor], sources[i])];
        i := i + 1;
      }
      assert sources[..i] == sources;
    }

    method AddSubscriber(actor: Actor) returns (ghost o: H.Orders)
      modifies this
      ensures H.EnumeratesLogic(o, old(View()))
      ensures (View(), queue) == var (l, out) := H.OnLocal(old(View()), actor, H.AddSubscriber, o); (l, old(queue) + out)
    {
      var subscribers := KeysOf(remoteSubscribers);
      var sources := KeysOf(remoteSources);
      o := H.Orders(sources, subscribers);
      Regroup(queue, [], []);
      if actor in localSubscribers { return; }
      var first := localSubscribers == [] && remoteSubscribers == map[];
      localSubscribers := localSubscribers + [actor];
      PushWhen(first, H.Upstream(H.Subscribe(session)));
      var all := if localSources == [] then sources else sources + [node];
      TellEach(actor, all);
      Regroup(old(queue), H.When(first, H.Upstream(H.Subscribe(session))), H.SubscribeEach(actor, all));
    }

    method RemoveSubscriber(actor: Actor) returns (ghost o: H.Orders)
      modifies this
      ensures H.EnumeratesLogic(o, old(View()))
      ensures (View(), queue) == var (l, out) := H.OnLocal(old(View()), actor, H.RemoveSubscriber, o); (l, old(queue) + out)
    {
      var subscribers := KeysOf(remoteSubscribers);
      var sources := KeysOf(remoteSources);
      o := H.Orders(sources, subscribers);
      Regroup(queue, [], []);
      var pos := FindPosition(localSubscribers, actor);
      if pos == |localSubscribers| { return; }
      localSubscribers := SwapRemove(localSubscribers, pos);
      var last := localSubscribers == [] && remoteSubscribers == map[];
      PushWhen(last, H.Upstream(H.Unsubscribe(session)));
      var all := if localSources == [] then sources else sources + [node];
      UntellEach(actor, all);
      Regroup(old(queue), H.When(last, H.Upstream(H.Unsubscribe(session))), H.UnsubscribeEach(actor, all));
    }

    method OnLocal(actor: Actor, cmd: H.LocalCmd) returns (ghost o: H.Orders)
      modifies this
      ensures H.EnumeratesLogic(o, old(View()))
      ensures (View(), queue) == var (l, out) := H.OnLocal(old(View()), actor, cmd, o); (l, old(queue) + out)
    {
      match cmd
      case AddSource => o := AddSource(actor);
      case RemoveSource => o := RemoveSource(actor);
      case AddSubscriber => o := AddSubscriber(actor);
      case RemoveSubscriber => o := RemoveSubscriber(actor);
    }

    method Register(now: nat, remote: NetPair, source: NodeId, toRoot: bool) returns (ghost o: H.Orders)
      modifies this
      ensures H.EnumeratesLogic(o, old(View()))
      ensures (View(), queue) == var (l, out) := H.OnRemote(old(View()), now, remote, H.Register(source, toRoot), o); (l, old(queue) + out)
    {
      var subscribers := KeysOf(remoteSubscribers);
      var sources := KeysOf(remoteSources);
      o := H.Orders(sources, subscribers);
      Regroup(queue, [], []);
      if source == node || (!toRoot && nextHop != Some(remote)) { return; }
      PushWhen(toRoot, H.Upstream(H.Register(source, true)));
      SendOthers(subscribers, remote, H.Register(source, false));
      var tell := source !in remoteSources && localSubscribers != [];
      remoteSources := remoteSources[source := now];
      PushWhen(tell, [H.SubscribeSource(localSubscribers, source)]);
      Regroup3(old(queue), H.When(toRoot, H.Upstream(H.Register(source, true))), H.ToEach(H.Except(subscribers, remote), H.Register(source, false)),
               H.When(tell, [H.SubscribeSource(localSubscribers, source)]));
    }

    method Unregister(now: nat, remote: NetPair, source: NodeId, toRoot: bool) returns (ghost o: H.Orders)
      modifies this
      ensures H.EnumeratesLogic(o, old(View()))
      ensures (View(), queue) == var (l, out) := H.OnRemote(old(View()), now, remote, H.Unregister(source, toRoot), o); (l, old(queue) + out)
    {
      var subscribers := KeysOf(remoteSubscribers);
      var sources := KeysOf(remoteSources);
      o := H.Orders(sources, subscribers);
      Regroup(queue, [], []);
      if source == node || (!toRoot && nextHop != Some(remote)) { return; }
      PushWhen(toRoot, H.Upstream(H.Unregister(source, true)));
      SendOthers(subscribers, remote, H.Unregister(source, false));
      var tell := source in remoteSources && localSubscribers != [];
      remoteSources := remoteSources - {source};
      PushWhen(tell, [H.UnsubscribeSource(localSubscribers, source)]);
      Regroup3(old(queue), H.When(toRoot, H.Upstream(H.Unregister(source, true))), H.ToEach(H.Except(subscribers, remote), H.Unregister(source, false)),
               H.When(tell, [H.UnsubscribeSource(localSubscribers, source)]));
    }

    method RemoteSubscribe(now: nat, remote: NetPair, theirs: nat) returns (ghost o: H.Orders)
      modifies this
      ensures H.EnumeratesLogic(o, old(View()))
      ensures (View(), queue) == var (l, out) := H.OnRemote(old(View()), now, remote, H.Subscribe(theirs), o); (l, old(queue) + out)
    {
      var subscribers := KeysOf(remoteSubscribers);
      var sources := KeysOf(remoteSources);
      o := H.Orders(sources, subscribers);
      var known := remote in remoteSubscribers;
      var first := localSubscribers == [] && remoteSubscribers == map[];
      remoteSubscribers := remoteSubscribers[remote := now];
      Push(H.SendRemote(Some(remote), H.SubscribeOk(theirs)));
      ghost var (q, more) := (queue, []);
      if !known {
        var all := if localSources == [] then sources else sources + [node];
        PushWhen(first, H.Upstream(H.Subscribe(session)));
        PushWhen(all != [], [H.SendRemote(Some(remote), H.Sources(all))]);
        more := H.When(first, H.Upstream(H.Subscribe(session))) + H.When(all != [], [H.SendRemote(Some(remote), H.Sources(all))]);
        Regroup(q, H.When(first, H.Upstream(H.Subscribe(session))), H.When(all != [], [H.SendRemote(Some(remote), H.Sources(all))]));
      }
      Regroup(q, [], []);
      Regroup(old(queue), [H.SendRemote(Some(remote), H.SubscribeOk(theirs))], more);
    }

    method RemoteUnsubscribe(now: nat, remote: NetPair, theirs: nat) returns (ghost o: H.Orders)
      modifies this
      ensures H.EnumeratesLogic(o, old(View()))
      ensures (View(), queue) == var (l, out) := H.OnRemote(old(View()), now, remote, H.Unsubscribe(theirs), o); (l, old(queue) + out)
    {
      var subscribers := KeysOf(remoteSubscribers);
      var sources := KeysOf(remoteSources);
      o := H.Orders(sources, subscribers);
      var known := remote in remoteSubscribers;
      remoteSubscribers := remoteSubscribers - {remote};
      Push(H.SendRemote(Some(remote), H.UnsubscribeOk(theirs)));
      var last := known && localSubscribers == [] && remoteSubscribers == map[];
      assert last == (remote in old(remoteSubscribers) && !H.HasSubscribers(old(View()).(remoteSubscribers := remoteSubscribers)));
      PushWhen(last, H.Upstream(H.Unsubscribe(session)));
      Regroup(old(queue), [H.SendRemote(Some(remote), H.UnsubscribeOk(theirs))], H.When(last, H.Upstream(H.Unsubscribe(session))));
    }

    /** Takes over the sources of a snapshot. */
    method AddAll(now: nat, list: seq<NodeId>, subscribers: seq<NetPair>)
      modifies this`remoteSources, this`queue
      ensures (View(), queue) == var (l, out) := H.AddAll(old(View()), now, list, subscribers); (l, old(queue) + out)
    {
      ghost var start := View();
      var i := 0;
      while i < |list|
        invariant i <= |list|
        invariant H.AddAll(start, now, list, subscribers).0 == H.AddAll(View(), now, list[i..], subscribers).0
        invariant old(queue) + H.AddAll(start, now, list, subscribers).1 == queue + H.AddAll(View(), now, list[i..], subscribers).1
      {
        var source := list[i];
        assert list[i..][1..] == list[i + 1..];
        if source != node {
          ghost var (l, before) := (View(), queue);
          var known := source in remoteSources;
          remoteSources := remoteSources[source := now];
          if !known {
            SendEach(subscribers, H.Register(source, false));
            if localSubscribers != [] {
              Push(H.SubscribeSource(localSubscribers, source));
            }
          }
          AddAllStep(l, before, queue, now, list[i..], subscribers);
        }
        i := i + 1;
      }
      assert queue == queue + H.AddAll(View(), now, list[i..], subscribers).1;
    }

    method OnRemote(now: nat, remote: NetPair, hint: H.Hint) returns (ghost o: H.Orders)
      modifies this
      ensures H.EnumeratesLogic(o, old(View()))
      ensures (View(), queue) == var (l, out) := H.OnRemote(old(View()), now, remote, hint, o); (l, old(queue) + out)
    {
      var subscribers := KeysOf(remoteSubscribers);
      var sources := KeysOf(remoteSources);
      o := H.Orders(sources, subscribers);
      Regroup(queue, [], []);
      match hint
      case Register(source, toRoot) => o := Register(now, remote, source, toRoot);
      case Unregister(source, toRoot) => o := Unregister(now, remote, source, toRoot);
      case Subscribe(theirs) => o := RemoteSubscribe(now, remote, theirs);
      case Unsubscribe(theirs) => o := RemoteUnsubscribe(now, remote, theirs);
      case SubscribeOk(theirs) => if theirs == session { nextHop := Some(remote); }
      case UnsubscribeOk(theirs) => if theirs == session { nextHop := None; }
      case Sources(list) => AddAll(now, list, subscribers);
    }
  }

  /** The keys not refreshed for too long, in the given order. */
  method Expired<K(==)>(seen: map<K, nat>, now: nat, order: seq<K>) returns (gone: seq<K>)
    ensures gone == H.ExpiredKeys(seen, now, order)
  {
    gone := [];
    var i := 0;
    while i < |order|
      invariant i <= |order| && gone == H.ExpiredKeys(seen, now, order[..i])
    {
      assert order[..i + 1] == order[..i] + [order[i]];
      H.ExpiredAppend(seen, now, order[..i], order[i]);
      if order[i] in seen && now >= seen[order[i]] + H.TIMEOUT_MS {
        gone := gone + [order[i]];
      }
      i := i + 1;
    }
    assert order[..i] == order;
  }

  lemma ToEachSnoc(remotes: seq<NetPair>, r: NetPair, hint: H.Hint)
    ensures H.ToEach(remotes + [r], hint) == H.ToEach(remotes, hint) + [H.SendRemote(Some(r), hint)]
  {
  }

  /** What one source of a snapshot adds to the queue. */
  lemma AddAllStep(l: H.Logic, before: seq<H.Output>, after: seq<H.Output>, now: nat, list: seq<NodeId>, subscribers: seq<NetPair>)
    requires list != [] && list[0] != l.node
    requires after == before + (if list[0] in l.remoteSources then [] else H.ToEach(subscribers, H.Register(list[0], false)) + H.When(l.localSubscribers != [], [H.SubscribeSource(l.localSubscribers, list[0])]))
    ensures var l1 := l.(remoteSources := l.remoteSources[list[0] := now]);
      && H.AddAll(l, now, list, subscribers).0 == H.AddAll(l1, now, list[1..], subscribers).0
      && before + H.AddAll(l, now, list, subscribers).1 == after + H.AddAll(l1, now, list[1..], subscribers).1
  {
    var first := if list[0] in l.remoteSources then [] else H.ToEach(subscribers, H.Register(list[0], false)) + H.When(l.localSubscribers != [], [H.SubscribeSource(l.localSubscribers, list[0])]);
    Regroup(before, first, H.AddAll(l.(remoteSources := l.remoteSources[list[0] := now]), now, list[1..], subscribers).1);
  }

  lemma Regroup3<T>(a: seq<T>, b: seq<T>, c: seq<T>, d: seq<T>)
    ensures a + (b + c + d) == a + b + c + d
  {
  }

  lemma Regroup4<T>(a: seq<T>, b: seq<T>, c: seq<T>, d: seq<T>, e: seq<T>)
    ensures a + b + c + d + e == a + (b + c + d + e) && a + [] == a
  {
  }
}
