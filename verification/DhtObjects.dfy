/** The client and relay maps as the objects the program keeps: fields updated in place, loops over the maps and
    output queues. Each method is proved against the map as a value; `order` is the order a loop visited keys in. */
module DhtObjects {
  import opened Identity
  import opened Endpoints
  import opened DhtMessages
  import C = DhtClient
  import S = DhtServer

  class LocalMap {
    const session: NodeSession
    var slots: map<SlotId, C.MapSlot>
    var subscribers: seq<Actor>
    var subState: C.SubState
    var queue: seq<C.Output>

    function View(): (m: C.LocalMap) reads this { C.LocalMap(session, slots, subscribers, subState) }

    constructor (session: NodeSession)
      ensures View() == C.NewLocalMap(session) && queue == []
    {
      this.session := session;
      slots, subscribers, subState, queue := map[], [], C.NotSub, [];
    }

    method FireEvent(event: C.MapEvent)
      modifies this`queue
      ensures queue == old(queue) + C.Fire(subscribers, event)
    {
      var i := 0;
      while i < |subscribers|
        invariant i <= |subscribers| && queue == old(queue) + C.Fire(subscribers[..i], event)
      {
        assert C.Fire(subscribers[..i + 1], event) == C.Fire(subscribers[..i], event) + [C.ToActor(subscribers[i], event)];
        queue := queue + [C.ToActor(subscribers[i], event)];
        i := i + 1;
      }
      assert subscribers[..i] == subscribers;
    }

    method RestoreEvents(actor: Actor, onlyLocal: bool) returns (ghost order: seq<SlotId>)
      modifies this`queue
      ensures Enumerates(order, slots.Keys) && queue == old(queue) + C.Restore(View(), actor, onlyLocal, order)
    {
      var keys := KeysOf(slots);
      order := keys;
      ghost var m := View();
      var i := 0;
      while i < |keys|
        invariant i <= |keys|
        invariant old(queue) + C.Restore(m, actor, onlyLocal, keys) == queue + C.Restore(m, actor, onlyLocal, keys[i..])
      {
        var id := keys[i];
        assert keys[i..][1..] == keys[i + 1..];
        ghost var rest := C.Restore(m, actor, onlyLocal, keys[i + 1..]);
        if id in slots && !(onlyLocal && session != id.source) && C.Data(slots[id]).Some? {
          var told := C.ToActor(actor, C.SetEvent(id, C.Data(slots[id]).value));
          assert queue + ([told] + rest) == queue + [told] + rest;
          queue := queue + [told];
        }
        i := i + 1;
      }
      assert queue == queue + C.Restore(m, actor, onlyLocal, keys[i..]);
    }

    method SyncSlots(now: nat, force: bool) returns (ghost order: seq<SlotId>)
      modifies this`slots, this`queue
      ensures Enumerates(order, old(slots).Keys)
      ensures (slots, queue) == var (s, out) := C.SyncSlots(old(slots), now, force, order); (s, old(queue) + out)
    {
      var keys := KeysOf(slots);
      order := keys;
      var i := 0;
      while i < |keys|
        invariant i <= |keys|
        invariant C.SyncSlots(old(slots), now, force, keys).0 == C.SyncSlots(slots, now, force, keys[i..]).0
        invariant old(queue) + C.SyncSlots(old(slots), now, force, keys).1 == queue + C.SyncSlots(slots, now, force, keys[i..]).1
      {
        var id := keys[i];
        assert keys[i..][1..] == keys[i + 1..];
        if id in slots {
          var (slot, cmd) := C.SlotSync(slots[id], id.key, now, force);
          slots := slots[id := slot];
          if cmd.Some? {
            queue := queue + [C.ToRelay(cmd.value)];
          }
        }
        i := i + 1;
      }
      assert queue == queue + C.SyncSlots(slots, now, force, keys[i..]).1;
    }

    /** Forgets the slots that hold nothing any more. */
    method Cleanup()
      modifies this`slots
      ensures slots == C.Cleaned(old(slots))
    {
      var (all, i) := (slots, 0);
      var keys := KeysOf(all);
      EnumeratesMembers(keys, all.Keys);
      while i < |keys|
        invariant i <= |keys|
        invariant forall id :: id in slots <==> id in all && !(id in keys[..i] && C.ShouldCleanup(all[id]))
        invariant forall id :: id in slots ==> slots[id] == all[id]
      {
        var id := keys[i];
        assert keys[..i + 1] == keys[..i] + [id];
        if C.ShouldCleanup(all[id]) {
          slots := slots - {id};
        }
        i := i + 1;
      }
      assert keys[..i] == keys;
    }

    method TickSub(now: nat)
      modifies this`subState, this`queue
      ensures (subState, queue) == var (s, out) := C.TickSub(old(subState), now); (s, old(queue) + out)
    {
      assert queue == queue + [];
      match subState
      case NotSub =>
      case Subscribing(id, sentTs) =>
        if now >= sentTs + C.RESEND_MS {
          queue := queue + [C.ToRelay(Sub(id, None))];
          subState := C.Subscribing(id, now);
        }
      case Subscribed(id, remote, syncTs) =>
        if now >= syncTs + C.SYNC_MS {
          queue := queue + [C.ToRelay(Sub(id, Some(remote)))];
          subState := C.Subscribed(id, remote, now);
        }
      case Unsubscribing(id, startedAt, locked, sentTs) =>
        if now >= startedAt + C.UNSUB_TIMEOUT_MS {
          subState := C.NotSub;
        } else if now >= sentTs + C.RESEND_MS {
          queue := queue + [C.ToRelay(Unsub(id))];
          subState := C.Unsubscribing(id, startedAt, locked, now);
        }
    }

    method OnTick(now: nat) returns (ghost order: seq<SlotId>)
      modifies this
      ensures Enumerates(order, old(slots).Keys)
      ensures (View(), queue) == var r := C.OnTick(old(View()), now, order); (r.state, old(queue) + r.out)
    {
      TickSub(now);
      order := SyncSlots(now, false);
      ghost var (subOut, out) := (C.TickSub(old(subState), now).1, C.SyncSlots(old(slots), now, false, order).1);
      assert queue == old(queue) + subOut + out == old(queue) + (subOut + out);
      Cleanup();
    }

    method OnControl(now: nat, actor: Actor, control: C.MapControl) returns (cmd: Option<ClientCommand>, ghost order: seq<SlotId>)
      requires C.CanUnsub(subState) || subscribers == []
      modifies this
      ensures Enumerates(order, old(slots).Keys)
      ensures (View(), cmd, queue) == var r := C.OnControl(old(View()), now, actor, control, order); (r.state, r.cmd, old(queue) + r.out)
    {
      order := AnyOrder(slots.Keys);
      assert queue == queue + [];
      cmd := None;
      match control
      case SetKey(key, data) =>
        var id := SlotId(key, session);
        var (slot, set') := C.SlotSet(key, now, data);
        slots := slots[id := slot];
        FireEvent(C.SetEvent(id, data));
        cmd := Some(set');
      case DelKey(key) =>
        var id := SlotId(key, session);
        if id in slots {
          var (slot, del) := C.SlotDel(slots[id], key, now);
          slots := slots[id := slot];
          if del.Some? { FireEvent(C.DelEvent(id)); }
          cmd := del;
        }
      case Subscribe =>
        if actor in subscribers { return; }
        var sendSub := subscribers == [];
        assert sendSub ==> subscribers + [actor] == [actor];
        subscribers := subscribers + [actor];
        if sendSub {
          subState := C.Subscribing(now, now);
          cmd := Some(Sub(now, None));
        }
        order := RestoreEvents(actor, sendSub);
        RestoreSame(old(View()), View(), actor, sendSub, order);
      case Unsubscribe =>
        if actor !in subscribers { return; }
        subscribers := C.Retain(subscribers, actor);
        if subscribers == [] {
          var (left, unsub) := C.LeaveSub(subState, now);
          subState, cmd := left, unsub;
        }
    }

    method OnSubOk(now: nat, remote: NodeSession, id: nat) returns (ghost order: seq<SlotId>)
      modifies this
      ensures Enumerates(order, old(slots).Keys)
      ensures (View(), queue) == var r := C.OnSubOk(old(View()), now, remote, id, order); (r.state, old(queue) + r.out)
    {
      order := AnyOrder(slots.Keys);
      assert queue == queue + [];
      if subState.Subscribing? && subState.id == id {
        subState := C.Subscribed(id, remote, now);
        FireEvent(C.RelaySelected(remote.node));
      } else if subState.Subscribed? && subState.id == id {
        var before := subState.remote;
        subState := C.Subscribed(id, remote, now);
        if before.node != remote.node {
          order := SyncSlots(now, true);
          FireEvent(C.RelaySelected(remote.node));
        }
      }
      assert queue == old(queue) + C.OnSubOk(old(View()), now, remote, id, order).out;
    }

    method OnServer(now: nat, remote: NodeSession, event: ServerEvent) returns (cmd: Option<ClientCommand>, ghost order: seq<SlotId>)
      modifies this
      ensures Enumerates(order, old(slots).Keys)
      ensures (View(), cmd, queue) == var r := C.OnServer(old(View()), now, remote, event, order); (r.state, r.cmd, old(queue) + r.out)
    {
      order := AnyOrder(slots.Keys);
      assert queue == queue + [];
      cmd := None;
      match event
      case SetOk(key, version) =>
        var id := SlotId(key, session);
        if id in slots { slots := slots[id := C.SlotSetOk(slots[id], version)]; }
      case DelOk(key, version) =>
        var id := SlotId(key, session);
        if id in slots { slots := slots[id := C.SlotDelOk(slots[id], version)]; }
      case SubOk(id) =>
        order := OnSubOk(now, remote, id);
      case UnsubOk(id) =>
        if subState.Unsubscribing? && subState.id == id && (subState.locked.Some? ==> subState.locked.value == remote) {
          subState := C.NotSub;
        }
      case OnSet(id, version, data) =>
        if !C.Accepts(subState, remote) { return; }
        var (slot, ack, updated) := C.SlotOnSet(if id in slots then slots[id] else C.Unspecific, id, version, data);
        slots := slots[id := slot];
        if updated { FireEvent(C.SetEvent(id, data)); }
        cmd := ack;
      case OnDel(id, version) =>
        if !C.Accepts(subState, remote) { return; }
        var (slot, ack) := C.SlotOnDel(if id in slots then slots[id] else C.Unspecific, id, version);
        slots := slots[id := slot];
        if ack.Some? { FireEvent(C.DelEvent(id)); }
        cmd := ack;
    }
  }

  /** What is restored depends on the slots only. */
  lemma RestoreSame(m: C.LocalMap, m': C.LocalMap, actor: Actor, onlyLocal: bool, order: seq<SlotId>)
    requires m.slots == m'.slots && m.session == m'.session
    ensures C.Restore(m, actor, onlyLocal, order) == C.Restore(m', actor, onlyLocal, order)
    decreases |order|
  {
  }

  class RemoteMap {
    const session: NodeSession
    var slots: map<SlotId, S.MapSlot>
    var events: map<SlotId, S.WaitAcks>
    var subs: map<NodeSession, S.SubSlot>
    var queue: seq<S.Addressed>

    function View(): (m: S.RemoteMap) reads this { S.RemoteMap(session, slots, events, subs) }

    constructor (session: NodeSession)
      ensures View() == S.NewRemoteMap(session) && queue == []
    {
      this.session := session;
      slots, events, subs, queue := map[], map[], map[], [];
    }

    method DropSilentSubs(now: nat)
      modifies this`subs
      ensures subs == S.LiveSubs(old(subs), now)
    {
      var (all, i) := (subs, 0);
      var keys := KeysOf(all);
      EnumeratesMembers(keys, all.Keys);
      while i < |keys|
        invariant i <= |keys|
        invariant forall s :: s in subs <==> s in all && !(s in keys[..i] && now >= all[s].lastTs + S.TIMEOUT_MS)
        invariant forall s :: s in subs ==> subs[s] == all[s]
      {
        var s := keys[i];
        assert keys[..i + 1] == keys[..i] + [s];
        if now >= all[s].lastTs + S.TIMEOUT_MS {
          subs := subs - {s};
        }
        i := i + 1;
      }
      assert keys[..i] == keys;
    }

    method DropOldEvents(now: nat)
      modifies this`events
      ensures events == S.LiveEvents(old(events), now)
    {
      var (all, i) := (events, 0);
      var keys := KeysOf(all);
      EnumeratesMembers(keys, all.Keys);
      while i < |keys|
        invariant i <= |keys|
        invariant forall id :: id in events <==> id in all && !(id in keys[..i] && now >= S.TIMEOUT_MS + all[id].createdAt)
        invariant forall id :: id in events ==> events[id] == all[id]
      {
        var id := keys[i];
        assert keys[..i + 1] == keys[..i] + [id];
        if now >= S.TIMEOUT_MS + all[id].createdAt {
          events := events - {id};
        }
        i := i + 1;
      }
      assert keys[..i] == keys;
    }

    /** Queues an event for every remote of a list. */
    method SendAll(remotes: seq<NodeSession>, event: ServerEvent)
      modifies this`queue
      ensures queue == old(queue) + S.SendAll(remotes, event)
    {
      var i := 0;
      while i < |remotes|
        invariant i <= |remotes| && queue == old(queue) + S.SendAll(remotes[..i], event)
      {
        assert S.SendAll(remotes[..i + 1], event) == S.SendAll(remotes[..i], event) + [S.Addressed(remotes[i], event)];
        queue := queue + [S.Addressed(remotes[i], event)];
        i := i + 1;
      }
      assert remotes[..i] == remotes;
    }

    method Resend(now: nat) returns (ghost order: seq<SlotId>)
      modifies this`events, this`queue
      ensures Enumerates(order, old(events).Keys)
      ensures (events, queue) == var (e, out) := S.Resend(old(events), now, order); (e, old(queue) + out)
    {
      var keys := KeysOf(events);
      order := keys;
      var i := 0;
      while i < |keys|
        invariant i <= |keys|
        invariant S.Resend(old(events), now, keys).0 == S.Resend(events, now, keys[i..]).0
        invariant old(queue) + S.Resend(old(events), now, keys).1 == queue + S.Resend(events, now, keys[i..]).1
      {
        var id := keys[i];
        assert keys[i..][1..] == keys[i + 1..];
        if id in events && now < S.TIMEOUT_MS + events[id].createdAt && now >= S.RESEND_MS + events[id].lastSendMs && events[id].remotes != [] {
          var wait := events[id];
          ghost var rest := S.Resend(events[id := wait.(lastSendMs := now)], now, keys[i + 1..]).1;
          assert queue + (S.SendAll(wait.remotes, wait.event) + rest) == queue + S.SendAll(wait.remotes, wait.event) + rest;
          SendAll(wait.remotes, wait.event);
          events := events[id := wait.(lastSendMs := now)];
        }
        i := i + 1;
      }
      assert queue == queue + S.Resend(events, now, keys[i..]).1;
    }

    method OnTick(now: nat) returns (ghost o: S.Orders)
      modifies this
      ensures S.EnumeratesMap(o, old(View()))
      ensures (View(), queue) == var r := S.OnTick(old(View()), now, o); (r.state, old(queue) + r.out)
    {
      o := S.AnyOrders(View());
      DropSilentSubs(now);
      ghost var order := Resend(now);
      DropOldEvents(now);
      o := o.(events := order);
    }

    method FireEvent(now: nat, id: SlotId, event: ServerEvent) returns (ghost order: seq<NodeSession>)
      modifies this`events, this`queue
      ensures Enumerates(order, subs.Keys)
      ensures (events, queue) == var (e, out) := S.FireEvent(old(View()), now, id, event, order); (e, old(queue) + out)
    {
      var keys := KeysOf(subs);
      order := keys;
      if subs == map[] {
        assert queue == queue + [];
        return;
      }
      var remotes: seq<NodeSession> := [];
      var i := 0;
      while i < |keys|
        invariant i <= |keys| && remotes == S.Others(keys[..i], id.source) && events == old(events)
        invariant queue == old(queue) + S.SendAll(remotes, event)
      {
        assert keys[..i + 1] == keys[..i] + [keys[i]];
        S.OthersAppend(keys[..i], keys[i], id.source);
        if keys[i] != id.source {
          assert S.SendAll(remotes + [keys[i]], event) == S.SendAll(remotes, event) + [S.Addressed(keys[i], event)];
          remotes := remotes + [keys[i]];
          queue := queue + [S.Addressed(keys[i], event)];
        }
        i := i + 1;
      }
      assert keys[..i] == keys;
      events := events[id := S.WaitAcks(event, remotes, now, now)];
    }

    method FireSubEvents(now: nat, remote: NodeSession) returns (ghost order: seq<SlotId>)
      modifies this`events, this`queue
      ensures Enumerates(order, slots.Keys)
      ensures (events, queue) == var (e, out) := S.FireSubEvents(slots, old(events), now, remote, order); (e, old(queue) + out)
    {
      var keys := KeysOf(slots);
      order := keys;
      var i := 0;
      while i < |keys|
        invariant i <= |keys|
        invariant S.FireSubEvents(slots, old(events), now, remote, keys).0 == S.FireSubEvents(slots, events, now, remote, keys[i..]).0
        invariant old(queue) + S.FireSubEvents(slots, old(events), now, remote, keys).1 == queue + S.FireSubEvents(slots, events, now, remote, keys[i..]).1
      {
        var id := keys[i];
        assert keys[i..][1..] == keys[i + 1..];
        if id in slots && id.source != remote && slots[id].Held? {
          var event := OnSet(id, slots[id].version, slots[id].data);
          var entry := if id in events then events[id] else S.WaitAcks(event, [], now, now);
          if remote !in entry.remotes { entry := entry.(remotes := entry.remotes + [remote]); }
          ghost var rest := S.FireSubEvents(slots, events[id := entry], now, remote, keys[i + 1..]).1;
          assert queue + ([S.Addressed(remote, event)] + rest) == queue + [S.Addressed(remote, event)] + rest;
          events := events[id := entry];
          queue := queue + [S.Addressed(remote, event)];
        }
        i := i + 1;
      }
      assert queue == queue + S.FireSubEvents(slots, events, now, remote, keys[i..]).1;
    }

    /** Takes an acknowledging remote off the list of an event. */
    method Acked(id: SlotId, remote: NodeSession)
      requires id in events
      modifies this`events
      ensures events == S.Acked(old(events), id, remote)
    {
      var left := S.Others(events[id].remotes, remote);
      if left == [] {
        events := events - {id};
      } else {
        events := events[id := events[id].(remotes := left)];
      }
    }

    method HandleSet(now: nat, remote: NodeSession, key: nat, version: nat, data: Bytes) returns (event: Option<ServerEvent>, ghost o: S.Orders)
      modifies this
      ensures S.EnumeratesMap(o, old(View()))
      ensures (View(), event, queue) == var r := S.OnClient(old(View()), now, remote, Set(key, version, data), o); (r.state, r.event, old(queue) + r.out)
    {
      o := S.AnyOrders(View());
      assert queue == queue + [];
      var id := SlotId(key, remote);
      var (slot, accepted) := S.SlotSet(if id in slots then slots[id] else S.Unspecific, now, version, data);
      event := None;
      if accepted {
        ghost var order := FireEvent(now, id, OnSet(id, version, data));
        slots := slots[id := slot];
        event := Some(SetOk(key, version));
        o := o.(subs := order);
      }
    }

    method HandleDel(now: nat, remote: NodeSession, key: nat, version: nat) returns (event: Option<ServerEvent>, ghost o: S.Orders)
      modifies this
      ensures S.EnumeratesMap(o, old(View()))
      ensures (View(), event, queue) == var r := S.OnClient(old(View()), now, remote, Del(key, version), o); (r.state, r.event, old(queue) + r.out)
    {
      o := S.AnyOrders(View());
      assert queue == queue + [];
      var id := SlotId(key, remote);
      event := None;
      if id in slots {
        var deleted := S.SlotDel(slots[id], version).1;
        if deleted.Some? {
          ghost var order := FireEvent(now, id, OnDel(id, deleted.value));
          slots := slots - {id};
          event := Some(DelOk(key, deleted.value));
          o := o.(subs := order);
        }
      }
    }

    method HandleSub(now: nat, remote: NodeSession, id: nat, locked: Option<NodeSession>) returns (event: Option<ServerEvent>, ghost o: S.Orders)
      modifies this
      ensures S.EnumeratesMap(o, old(View()))
      ensures (View(), event, queue) == var r := S.OnClient(old(View()), now, remote, Sub(id, locked), o); (r.state, r.event, old(queue) + r.out)
    {
      o := S.AnyOrders(View());
      assert queue == queue + [];
      var known := remote in subs;
      subs := subs[remote := S.SubSlot(id, now)];
      if !known || locked != Some(session) {
        ghost var order := FireSubEvents(now, remote);
        o := o.(slots := order);
      }
      event := Some(SubOk(id));
    }

    method HandleUnsub(now: nat, remote: NodeSession, id: nat, ghost o: S.Orders) returns (event: Option<ServerEvent>)
      modifies this
      ensures (View(), event, queue) == var r := S.OnClient(old(View()), now, remote, Unsub(id), o); (r.state, r.event, old(queue) + r.out)
    {
      assert queue == queue + [];
      event := None;
      if remote in subs && subs[remote].id == id {
        subs := subs - {remote};
        event := Some(UnsubOk(id));
      }
    }

    method OnClient(now: nat, remote: NodeSession, cmd: ClientCommand) returns (event: Option<ServerEvent>, ghost o: S.Orders)
      modifies this
      ensures S.EnumeratesMap(o, old(View()))
      ensures (View(), event, queue) == var r := S.OnClient(old(View()), now, remote, cmd, o); (r.state, r.event, old(queue) + r.out)
    {
      o := S.AnyOrders(View());
      assert queue == queue + [];
      event := None;
      match cmd
      case Set(key, version, data) =>
        event, o := HandleSet(now, remote, key, version, data);
      case Del(key, version) =>
        event, o := HandleDel(now, remote, key, version);
      case Sub(id, locked) =>
        event, o := HandleSub(now, remote, id, locked);
      case Unsub(id) =>
        event := HandleUnsub(now, remote, id, o);
      case OnSetAck(id, version) =>
        if id in events && events[id].event.OnSet? && events[id].event.version == version { Acked(id, remote); }
      case OnDelAck(id, version) =>
        if id in events && events[id].event.OnDel? && events[id].event.version == version { Acked(id, remote); }
    }
  }
}
