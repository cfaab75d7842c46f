/** The relay objects of the controller and the worker: state and queues updated in place, each method proved
    against the relay as a value. */
module RelayObjects {
  import opened Identity
  import opened Endpoints
  import R = Relay

  class RelayConsumers {
    var remotes: map<NetPair, R.RelayRemote>
    var locals: seq<Actor>
    var queue: seq<R.WorkerControl>

    function View(): (c: R.Consumers) reads this { R.Consumers(remotes, locals) }

    constructor ()
      ensures View() == R.NoConsumers && queue == []
    {
      remotes, locals, queue := map[], [], [];
    }

    /** Collects the remotes to forget, in some order of the map. */
    method Timeouts(now: nat) returns (gone: seq<NetPair>, ghost order: seq<NetPair>)
      ensures Enumerates(order, remotes.Keys)
      ensures gone == R.Timeouts(View(), now, order)
    {
      var left := remotes.Keys;
      gone, order := [], [];
      while left != {}
        invariant left <= remotes.Keys
        invariant multiset(order) + multiset(left) == multiset(remotes.Keys)
        invariant gone == R.Timeouts(View(), now, order)
      {
        var r :| r in left;
        R.TimeoutsStep(View(), now, order, r);
        if now >= remotes[r].lastSub + R.RELAY_TIMEOUT { gone := gone + [r]; }
        order := order + [r];
        left := left - {r};
      }
    }

    method OnTick(now: nat) returns (ghost order: seq<NetPair>)
      modifies this
      ensures Enumerates(order, old(remotes).Keys)
      ensures (View(), queue) == var (c, out) := R.ConsumersTick(old(View()), now, order); (c, old(queue) + out)
    {
      var gone;
      gone, order := Timeouts(now);
      ghost var start := View();
      var i := 0;
      while i < |gone|
        invariant i <= |gone| && locals == old(locals)
        invariant R.DropRemotes(start, gone).0 == R.DropRemotes(View(), gone[i..]).0
        invariant old(queue) + R.DropRemotes(start, gone).1 == queue + R.DropRemotes(View(), gone[i..]).1
      {
        assert gone[i..][1..] == gone[i + 1..];
        queue := queue + [R.RouteDelRemote(gone[i])];
        remotes := remotes - {gone[i]};
        i := i + 1;
      }
      assert queue == queue + R.DropRemotes(View(), gone[i..]).1;
    }

    method OnLocalSub(actor: Actor)
      modifies this
      ensures (View(), queue) == var (c, out) := R.LocalSub(old(View()), actor); (c, old(queue) + out)
    {
      assert queue == queue + [];
      if actor in locals { return; }
      locals := locals + [actor];
      queue := queue + [R.RouteSetLocal(actor)];
    }

    method OnLocalUnsub(actor: Actor)
      modifies this
      ensures (View(), queue) == var (c, out) := R.LocalUnsub(old(View()), actor); (c, old(queue) + out)
    {
      assert queue == queue + [];
      var pos := FindPosition(locals, actor);
      if pos < |locals| {
        queue := queue + [R.RouteDelLocal(actor)];
        locals := SwapRemove(locals, pos);
      }
    }

    method OnRemote(now: nat, remote: NetPair, control: R.RelayControl)
      modifies this
      ensures (View(), queue) == var (c, out) := R.RemoteControl(old(View()), now, remote, control); (c, old(queue) + out)
    {
      assert queue == queue + [];
      match control
      case Sub(uuid) =>
        if remote in remotes {
          if uuid == remotes[remote].uuid {
            remotes := remotes[remote := R.RelayRemote(uuid, now)];
            queue := queue + [R.SendSubOk(uuid, remote)];
          }
        } else {
          remotes := remotes[remote := R.RelayRemote(uuid, now)];
          queue := queue + [R.SendSubOk(uuid, remote), R.RouteSetRemote(remote, uuid)];
        }
      case Unsub(uuid) =>
        if remote in remotes && remotes[remote].uuid == uuid {
          queue := queue + [R.SendUnsubOk(uuid, remote), R.RouteDelRemote(remote)];
          remotes := remotes - {remote};
        }
      case _ =>
    }

    method ConnDisconnected(remote: NetPair)
      modifies this
      ensures (View(), queue) == var (c, out) := R.Disconnected(old(View()), remote); (c, old(queue) + out)
    {
      assert queue == queue + [];
      if remote in remotes {
        remotes := remotes - {remote};
        queue := queue + [R.RouteDelRemote(remote)];
      }
    }
  }

  /** The relay's state with its consumers as an object. */
  datatype Phase =
    | New
    | Binding(consumers: RelayConsumers)
    | Bound(consumers: RelayConsumers, next: NetPair, stickyAt: nat)
    | Unbinding(next: NetPair, startedAt: nat)
    | Unbound

  class RemoteRelay {
    const uuid: nat
    var phase: Phase
    var queue: seq<R.RelayOutput>

    function Repr(): (objs: set<object>) reads this {
      if phase.Binding? || phase.Bound? then {phase.consumers} else {}
    }

    /** Between calls the consumers' own queue is drained. */
    ghost predicate Valid() reads this, Repr() {
      phase.Binding? || phase.Bound? ==> phase.consumers.queue == []
    }

    function View(): (st: R.State) reads this, Repr() {
      match phase
      case New => R.New
      case Binding(c) => R.Binding(c.View())
      case Bound(c, next, stickyAt) => R.Bound(c.View(), next, stickyAt)
      case Unbinding(next, startedAt) => R.Unbinding(next, startedAt)
      case Unbound => R.Unbound
    }

    constructor (uuid: nat)
      ensures Valid() && View() == R.New && queue == [] && this.uuid == uuid && Repr() == {}
    {
      this.uuid := uuid;
      phase := New;
      queue := [];
    }

    method Push(control: R.WorkerControl)
      modifies this`queue
      ensures queue == old(queue) + [R.ToWorker(control)]
    {
      queue := queue + [R.ToWorker(control)];
    }

    method PopConsumersOut(c: RelayConsumers)
      modifies this`queue, c`queue
      ensures c.queue == [] && queue == old(queue) + R.Wrap(old(c.queue))
    {
      ghost var start := c.queue;
      ghost var done: nat := 0;
      while c.queue != []
        invariant done <= |start| && c.queue == start[done..]
        invariant queue == old(queue) + R.Wrap(start[..done])
        decreases |c.queue|
      {
        assert start[..done + 1] == start[..done] + [c.queue[0]];
        assert R.Wrap(start[..done + 1]) == R.Wrap(start[..done]) + [R.ToWorker(c.queue[0])];
        queue := queue + [R.ToWorker(c.queue[0])];
        c.queue := c.queue[1..];
        done := done + 1;
      }
      assert start[..done] == start;
    }

    method NotifyLocals(actors: seq<Actor>)
      modifies this`queue
      ensures queue == old(queue) + R.Notices(actors)
    {
      var i := 0;
      while i < |actors|
        invariant i <= |actors| && queue == old(queue) + R.Notices(actors[..i])
      {
        assert R.Notices(actors[..i + 1]) == R.Notices(actors[..i]) + [R.NotifyRouteChanged(actors[i])];
        queue := queue + [R.NotifyRouteChanged(actors[i])];
        i := i + 1;
      }
      assert actors[..i] == actors;
    }

    /** Gives the relay up when its consumers are gone. */
    method Settle(now: nat, ghost before: R.State)
      requires phase.Binding? || phase.Bound?
      requires before.Binding? <==> phase.Binding?
      requires before.Bound? <==> phase.Bound?
      requires phase.Bound? ==> before.next == phase.next && before.stickyAt == phase.stickyAt
      modifies this
      ensures phase == old(phase) || !(phase.Binding? || phase.Bound?)
      ensures (View(), queue) == var (st, out) := R.Settle(uuid, now, before, old(phase.consumers.View())); (st, old(queue) + out)
    {
      assert queue == queue + [];
      var c := phase.consumers;
      if c.locals == [] && c.remotes == map[] {
        if phase.Bound? {
          Push(R.SendUnsub(uuid, phase.next));
          Push(R.RouteDelSource(phase.next));
          assert queue == old(queue) + [R.ToWorker(R.SendUnsub(uuid, phase.next)), R.ToWorker(R.RouteDelSource(phase.next))];
          phase := Unbinding(phase.next, now);
        } else {
          phase := Unbound;
        }
      }
    }

    /** The consumers' part of a tick. */
    method TickConsumers(c: RelayConsumers, now: nat) returns (ghost order: seq<NetPair>)
      requires c.queue == []
      modifies this`queue, c
      ensures c.queue == [] && Enumerates(order, old(c.View()).remotes.Keys)
      ensures (c.View(), queue) == var (rest, out) := R.ConsumersTick(old(c.View()), now, order); (rest, old(queue) + R.Wrap(out))
    {
      ghost var before := c.View();
      order := c.OnTick(now);
      assert c.queue == R.ConsumersTick(before, now, order).1;
      PopConsumersOut(c);
    }

    method OnTick(now: nat) returns (ghost order: seq<NetPair>)
      requires Valid()
      modifies this, Repr()
      ensures Valid() && Repr() <= old(Repr())
      ensures Enumerates(order, R.ConsumersOf(old(View())).remotes.Keys)
      ensures (View(), queue) == var (st, out) := R.OnTick(uuid, old(View()), now, order); (st, old(queue) + out)
    {
      assert queue == queue + [];
      ghost var before := View();
      order := [];
      if phase.Bound? || phase.Binding? {
        var c := phase.consumers;
        Push(R.SendSub(uuid, if phase.Binding? || now >= phase.stickyAt + R.RELAY_STICKY_MS then None else Some(phase.next)));
        order := TickConsumers(c, now);
        Settle(now, before);
      } else if phase.Unbinding? {
        if now >= phase.startedAt + R.RELAY_TIMEOUT {
          phase := Unbound;
        } else {
          Push(R.SendUnsub(uuid, phase.next));
        }
      }
      assert queue == old(queue) + R.OnTick(uuid, before, now, order).1;
    }

    method ConnDisconnected(now: nat, remote: NetPair)
      requires Valid()
      modifies this, Repr()
      ensures Valid() && Repr() <= old(Repr())
      ensures (View(), queue) == var (st, out) := R.OnDisconnected(uuid, old(View()), now, remote); (st, old(queue) + out)
    {
      assert queue == queue + [];
      ghost var before := View();
      if phase.Bound? || phase.Binding? {
        var c := phase.consumers;
        c.ConnDisconnected(remote);
        PopConsumersOut(c);
        if phase.Bound? && phase.next == remote {
          phase := Binding(c);
          Push(R.SendSub(uuid, None));
        } else {
          Settle(now, before);
        }
      }
      assert queue == old(queue) + R.OnDisconnected(uuid, before, now, remote).1;
    }

    method OnLocalSub(actor: Actor)
      requires Valid()
      modifies this, Repr()
      ensures Valid() && fresh(Repr() - old(Repr()))
      ensures (View(), queue) == var (st, out) := R.OnLocalSub(uuid, old(View()), actor); (st, old(queue) + out)
    {
      ghost var before := View();
      if phase.Binding? || phase.Bound? {
        var c := phase.consumers;
        c.OnLocalSub(actor);
        PopConsumersOut(c);
      } else {
        var c := new RelayConsumers();
        c.OnLocalSub(actor);
        PopConsumersOut(c);
        Push(R.SendSub(uuid, if phase.Unbinding? then Some(phase.next) else None));
        phase := Binding(c);
      }
      assert queue == old(queue) + R.OnLocalSub(uuid, before, actor).1;
    }

    method OnLocalUnsub(now: nat, actor: Actor)
      requires Valid()
      modifies this, Repr()
      ensures Valid() && Repr() <= old(Repr())
      ensures (View(), queue) == var (st, out) := R.OnLocalUnsub(uuid, old(View()), now, actor); (st, old(queue) + out)
    {
      assert queue == queue + [];
      ghost var before := View();
      if phase.Binding? || phase.Bound? {
        var c := phase.consumers;
        c.OnLocalUnsub(actor);
        PopConsumersOut(c);
        Settle(now, before);
      }
      assert queue == old(queue) + R.OnLocalUnsub(uuid, before, now, actor).1;
    }

    method OnSubOk(now: nat, remote: NetPair)
      requires Valid()
      modifies this
      ensures Valid() && Repr() == old(Repr())
      ensures (View(), queue) == var (st, out) := R.OnRemote(uuid, old(View()), now, remote, R.SubOK(uuid)); (st, old(queue) + out)
    {
      ghost var before := View();
      if phase.Binding? {
        Push(R.RouteSetSource(remote));
        phase := Bound(phase.consumers, remote, now);
      } else if phase.Bound? {
        var (consumers, next) := (phase.consumers, phase.next);
        if next == remote {
          phase := Bound(consumers, next, now);
        } else {
          Push(R.SendUnsub(uuid, next));
          if consumers.remotes != map[] {
            Push(R.SendRouteChanged);
          }
          Push(R.RouteSetSource(remote));
          NotifyLocals(consumers.locals);
          phase := Bound(consumers, remote, phase.stickyAt);
        }
      }
      assert queue == old(queue) + R.OnRemote(uuid, before, now, remote, R.SubOK(uuid)).1;
    }

    method OnRouteChanged()
      requires Valid()
      modifies this`queue
      ensures queue == old(queue) + R.OnRemote(uuid, View(), 0, NetPair(0, 0), R.RouteChanged(uuid)).1
    {
      if phase.Bound? {
        if phase.consumers.remotes != map[] { Push(R.SendRouteChanged); }
        NotifyLocals(phase.consumers.locals);
      }
      assert queue == old(queue) + R.OnRemote(uuid, View(), 0, NetPair(0, 0), R.RouteChanged(uuid)).1;
    }

    method OnConsumerControl(now: nat, remote: NetPair, control: R.RelayControl)
      requires Valid() && (control.Sub? || control.Unsub?)
      modifies this, Repr()
      ensures Valid() && fresh(Repr() - old(Repr()))
      ensures (View(), queue) == var (st, out) := R.OnRemote(uuid, old(View()), now, remote, control); (st, old(queue) + out)
    {
      ghost var before := View();
      if phase.Binding? || phase.Bound? {
        var c := phase.consumers;
        c.OnRemote(now, remote, control);
        PopConsumersOut(c);
        Settle(now, before);
      } else {
        var c := new RelayConsumers();
        c.OnRemote(now, remote, control);
        PopConsumersOut(c);
        Push(R.SendSub(uuid, if phase.Unbinding? then Some(phase.next) else None));
        phase := Binding(c);
      }
      assert queue == old(queue) + R.OnRemote(uuid, before, now, remote, control).1;
    }

    method OnRemote(now: nat, remote: NetPair, control: R.RelayControl)
      requires Valid()
      modifies this, Repr()
      ensures Valid() && fresh(Repr() - old(Repr()))
      ensures (View(), queue) == var (st, out) := R.OnRemote(uuid, old(View()), now, remote, control); (st, old(queue) + out)
    {
      assert queue == queue + [];
      match control
      case SubOK(session) =>
        if session == uuid { OnSubOk(now, remote); }
      case UnsubOK(session) =>
        if session == uuid && phase.Unbinding? { phase := Unbound; }
      case RouteChanged(session) =>
        if session == uuid { OnRouteChanged(); }
      case _ =>
        OnConsumerControl(now, remote, control);
    }
  }

  // ---- the worker ---------------------------------------------------------------------------

  datatype RelayId = RelayId(channel: nat, source: NodeId)

  datatype WorkerOutput = Event(actor: Actor, id: RelayId, data: seq<Byte>) | Broadcast(to: seq<NetPair>, id: RelayId, data: seq<Byte>)

  class PubSubWorker {
    var relays: map<RelayId, R.Route>
    var queue: seq<WorkerOutput>

    function EntryOf(id: RelayId): (e: R.Entry) reads this {
      if id in relays then Some(relays[id]) else None
    }

    constructor ()
      ensures relays == map[] && queue == []
    {
      relays, queue := map[], [];
    }

    method Trim(id: RelayId)
      requires id in relays
      modifies this`relays
      ensures EntryOf(id) == R.Trim(old(relays[id]))
      ensures forall other | other != id :: EntryOf(other) == old(EntryOf(other))
    {
      if relays[id].locals == [] && relays[id].remotes == [] {
        relays := relays - {id};
      }
    }

    method OnControl(id: RelayId, control: R.WorkerControl)
      modifies this`relays
      ensures EntryOf(id) == R.Apply(old(EntryOf(id)), control)
      ensures forall other | other != id :: EntryOf(other) == old(EntryOf(other))
    {
      var route := if id in relays then relays[id] else R.Route(None, [], []);
      match control
      case RouteSetSource(source) =>
        relays := relays[id := route.(source := Some(source))];
      case RouteDelSource(source) =>
        if id in relays && route.source == Some(source) {
          relays := relays[id := route.(source := None)];
        }
      case RouteSetLocal(actor) =>
        relays := relays[id := route.(locals := route.locals + [actor])];
      case RouteDelLocal(actor) =>
        if id in relays {
          var pos := FindPosition(route.locals, actor);
          if pos < |route.locals| { relays := relays[id := route.(locals := SwapRemove(route.locals, pos))]; }
          Trim(id);
        }
      case RouteSetRemote(remote, _) =>
        relays := relays[id := route.(remotes := route.remotes + [remote])];
      case RouteDelRemote(remote) =>
        if id in relays {
          var pos := FindPosition(route.remotes, remote);
          if pos < |route.remotes| { relays := relays[id := route.(remotes := SwapRemove(route.remotes, pos))]; }
          Trim(id);
        }
      case _ =>
    }

    /** A data packet: one event per local actor in order, then one broadcast to the remotes, if there are any. */
    method OnData(id: RelayId, remote: NetPair, data: seq<Byte>)
      modifies this`queue
      ensures var (locals, remotes) := R.Deliveries(EntryOf(id), remote);
        && |queue| == |old(queue)| + |locals| + (if remotes == [] then 0 else 1)
        && queue[..|old(queue)|] == old(queue)
        && (forall i | 0 <= i < |locals| :: queue[|old(queue)| + i] == Event(locals[i], id, data))
        && (remotes != [] ==> queue[|queue| - 1] == Broadcast(remotes, id, data))
    {
      if id !in relays { return; }
      var route := relays[id];
      if route.source == Some(remote) {
        var i := 0;
        while i < |route.locals|
          invariant i <= |route.locals| && |queue| == |old(queue)| + i
          invariant queue[..|old(queue)|] == old(queue)
          invariant forall k | 0 <= k < i :: queue[|old(queue)| + k] == Event(route.locals[k], id, data)
        {
          queue := queue + [Event(route.locals[i], id, data)];
          i := i + 1;
        }
        if route.remotes != [] {
          queue := queue + [Broadcast(route.remotes, id, data)];
        }
      }
    }
  }
}
