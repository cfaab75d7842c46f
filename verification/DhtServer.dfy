/** The relay side of a DHT map: the values it holds for every source, its subscribers, and the events it keeps
    resending until they are acknowledged. */
module DhtServer {
  import opened Identity
  import opened Endpoints
  import opened DhtMessages

  const RESEND_MS: nat := 200
  const TIMEOUT_MS: nat := 10_000

  datatype MapSlot = Unspecific | Held(data: Bytes, version: nat, liveAt: nat)

  function SlotSet(slot: MapSlot, now: nat, version: nat, data: Bytes): (MapSlot, bool) {
    if slot.Held? && slot.version > version then (slot, false) else (Held(data, version, now), true)
  }

  /** The version deleted, if the request is not outdated. */
  function SlotDel(slot: MapSlot, version: nat): (MapSlot, Option<nat>) {
    if slot.Held? && version >= slot.version then (Unspecific, Some(slot.version)) else (slot, None)
  }

  datatype WaitAcks = WaitAcks(event: ServerEvent, remotes: seq<NodeSession>, createdAt: nat, lastSendMs: nat)
  datatype SubSlot = SubSlot(id: nat, lastTs: nat)

  datatype Addressed = Addressed(to: NodeSession, event: ServerEvent)

  datatype RemoteMap = RemoteMap(
    session: NodeSession,
    slots: map<SlotId, MapSlot>,
    events: map<SlotId, WaitAcks>,
    subs: map<NodeSession, SubSlot>)

  /** A handler's new map, the event it returns and the events it queues. */
  datatype Reply = Reply(state: RemoteMap, event: Option<ServerEvent>, out: seq<Addressed>)

  /** The orders in which the three maps yield their keys during one call. */
  datatype Orders = Orders(slots: seq<SlotId>, events: seq<SlotId>, subs: seq<NodeSession>)

  ghost predicate EnumeratesMap(o: Orders, m: RemoteMap) {
    Enumerates(o.slots, m.slots.Keys) && Enumerates(o.events, m.events.Keys) && Enumerates(o.subs, m.subs.Keys)
  }

  lemma AnyOrders(m: RemoteMap) returns (o: Orders)
    ensures EnumeratesMap(o, m)
  {
    var slots := AnyOrder(m.slots.Keys);
    var events := AnyOrder(m.events.Keys);
    var subs := AnyOrder(m.subs.Keys);
    o := Orders(slots, events, subs);
  }

  function NewRemoteMap(session: NodeSession): RemoteMap { RemoteMap(session, map[], map[], map[]) }

  function SendAll(remotes: seq<NodeSession>, event: ServerEvent): (out: seq<Addressed>)
    ensures |out| == |remotes|
  {
    seq(|remotes|, i requires 0 <= i < |remotes| => Addressed(remotes[i], event))
  }

  /** Resends the events that are due, in the order the map yields them. */
  function Resend(events: map<SlotId, WaitAcks>, now: nat, order: seq<SlotId>): (map<SlotId, WaitAcks>, seq<Addressed>)
    decreases |order|
  {
    if order == [] then (events, [])
    else
      var id := order[0];
      if id !in events || now >= TIMEOUT_MS + events[id].createdAt || now < RESEND_MS + events[id].lastSendMs || events[id].remotes == []
      then Resend(events, now, order[1..])
      else
        var (rest, out) := Resend(events[id := events[id].(lastSendMs := now)], now, order[1..]);
        (rest, SendAll(events[id].remotes, events[id].event) + out)
  }

  function LiveSubs(subs: map<NodeSession, SubSlot>, now: nat): map<NodeSession, SubSlot> {
    map s | s in subs && now < subs[s].lastTs + TIMEOUT_MS :: subs[s]
  }

  function LiveEvents(events: map<SlotId, WaitAcks>, now: nat): map<SlotId, WaitAcks> {
    map id | id in events && now < TIMEOUT_MS + events[id].createdAt :: events[id]
  }

  function OnTick(m: RemoteMap, now: nat, o: Orders): Reply {
    var (events, out) := Resend(m.events, now, o.events);
    Reply(m.(subs := LiveSubs(m.subs, now), events := LiveEvents(events, now)), None, out)
  }

  function Others(order: seq<NodeSession>, source: NodeSession): seq<NodeSession> { Filter(order, s => s != source) }

  lemma OthersAppend(order: seq<NodeSession>, s: NodeSession, source: NodeSession)
    ensures Others(order + [s], source) == Others(order, source) + if s != source then [s] else []
  {
    FilterAppend(order, s, x => x != source);
  }

  /** Tells every subscriber but the source, and waits for their acknowledgements. */
  function FireEvent(m: RemoteMap, now: nat, id: SlotId, event: ServerEvent, order: seq<NodeSession>): (map<SlotId, WaitAcks>, seq<Addressed>) {
    if m.subs == map[] then (m.events, [])
    else
      var remotes := Others(order, id.source);
      (m.events[id := WaitAcks(event, remotes, now, now)], SendAll(remotes, event))
  }

  /** Tells a new subscriber everything it does not own. */
  function FireSubEvents(slots: map<SlotId, MapSlot>, events: map<SlotId, WaitAcks>, now: nat, remote: NodeSession, order: seq<SlotId>):
      (map<SlotId, WaitAcks>, seq<Addressed>)
    decreases |order|
  {
    if order == [] then (events, [])
    else
      var id := order[0];
      if id !in slots || id.source == remote || !slots[id].Held? then FireSubEvents(slots, events, now, remote, order[1..])
      else
        var event := OnSet(id, slots[id].version, slots[id].data);
        var entry := if id in events then events[id] else WaitAcks(event, [], now, now);
        var entry' := if remote in entry.remotes then entry else entry.(remotes := entry.remotes + [remote]);
        var (rest, out) := FireSubEvents(slots, events[id := entry'], now, remote, order[1..]);
        (rest, [Addressed(remote, event)] + out)
  }

  function SlotOf(m: RemoteMap, id: SlotId): MapSlot { if id in m.slots then m.slots[id] else Unspecific }

  /** An acknowledgement by `remote`. */
  function Acked(events: map<SlotId, WaitAcks>, id: SlotId, remote: NodeSession): map<SlotId, WaitAcks>
    requires id in events
  {
    var left := Others(events[id].remotes, remote);
    if left == [] then events - {id} else events[id := events[id].(remotes := left)]
  }

  function OnClient(m: RemoteMap, now: nat, remote: NodeSession, cmd: ClientCommand, o: Orders): Reply {
    match cmd
    case Set(key, version, data) =>
      var id := SlotId(key, remote);
      var (slot, accepted) := SlotSet(SlotOf(m, id), now, version, data);
      if accepted then
        var (events, out) := FireEvent(m, now, id, OnSet(id, version, data), o.subs);
        Reply(m.(slots := m.slots[id := slot], events := events), Some(SetOk(key, version)), out)
      else Reply(m, None, [])
    case Del(key, version) =>
      var id := SlotId(key, remote);
      var deleted := SlotDel(SlotOf(m, id), version).1;
      if deleted.Some? then
        var (events, out) := FireEvent(m, now, id, OnDel(id, deleted.value), o.subs);
        Reply(m.(slots := m.slots - {id}, events := events), Some(DelOk(key, deleted.value)), out)
      else Reply(m, None, [])
    case Sub(id, locked) =>
      var m' := m.(subs := m.subs[remote := SubSlot(id, now)]);
      if remote !in m.subs || locked != Some(m.session) then
        var (events, out) := FireSubEvents(m.slots, m.events, now, remote, o.slots);
        Reply(m'.(events := events), Some(SubOk(id)), out)
      else Reply(m', Some(SubOk(id)), [])
    case Unsub(id) =>
      if remote in m.subs && m.subs[remote].id == id then Reply(m.(subs := m.subs - {remote}), Some(UnsubOk(id)), [])
      else Reply(m, None, [])
    case OnSetAck(id, version) =>
      if id in m.events && m.events[id].event.OnSet? && m.events[id].event.version == version
      then Reply(m.(events := Acked(m.events, id, remote)), None, []) else Reply(m, None, [])
    case OnDelAck(id, version) =>
      if id in m.events && m.events[id].event.OnDel? && m.events[id].event.version == version
      then Reply(m.(events := Acked(m.events, id, remote)), None, []) else Reply(m, None, [])
  }

  // ---- facts --------------------------------------------------------------------------------

  /** Resending repeats waiting events and keeps them. */
  lemma {:induction false} ResendFacts(events: map<SlotId, WaitAcks>, now: nat, order: seq<SlotId>)
    ensures var (events', out) := Resend(events, now, order);
      && events'.Keys == events.Keys
      && (forall id :: id in events ==> events'[id].event == events[id].event)
      && (forall a :: a in out ==> exists id :: id in events && a.event == events[id].event)
    decreases |order|
  {
    if order != [] {
      var id := order[0];
      if id in events && !(now >= TIMEOUT_MS + events[id].createdAt || now < RESEND_MS + events[id].lastSendMs || events[id].remotes == []) {
        ResendFacts(events[id := events[id].(lastSendMs := now)], now, order[1..]);
      } else {
        ResendFacts(events, now, order[1..]);
      }
    }
  }

  /** A new subscriber is told values the relay holds; every waiting event stays as it is, and new ones are values held. */
  lemma {:induction false} FireSubEventsFacts(slots: map<SlotId, MapSlot>, events: map<SlotId, WaitAcks>, now: nat, remote: NodeSession, order: seq<SlotId>)
    ensures var (events', out) := FireSubEvents(slots, events, now, remote, order);
      && (forall id :: id in events ==> id in events' && events'[id].event == events[id].event)
      && (forall id :: id in events' && id !in events ==> HeldEvent(slots, events'[id].event))
      && (forall a :: a in out ==> HeldEvent(slots, a.event))
    decreases |order|
  {
    if order != [] {
      var id := order[0];
      if id !in slots || id.source == remote || !slots[id].Held? {
        FireSubEventsFacts(slots, events, now, remote, order[1..]);
      } else {
        var event := OnSet(id, slots[id].version, slots[id].data);
        var entry := if id in events then events[id] else WaitAcks(event, [], now, now);
        var entry' := if remote in entry.remotes then entry else entry.(remotes := entry.remotes + [remote]);
        FireSubEventsFacts(slots, events[id := entry'], now, remote, order[1..]);
      }
    }
  }

  predicate HeldEvent(slots: map<SlotId, MapSlot>, event: ServerEvent) {
    event.OnSet? && event.slot in slots && slots[event.slot].Held?
    && slots[event.slot].version == event.version && slots[event.slot].data == event.data
  }

  // ---- publication --------------------------------------------------------------------------

  /** How often an event is queued for a subscriber. */
  function Sent(out: seq<Addressed>, to: NodeSession, event: ServerEvent): nat {
    multiset(out)[Addressed(to, event)]
  }

  lemma {:induction false} SendAllCounts(remotes: seq<NodeSession>, event: ServerEvent, to: NodeSession)
    ensures Sent(SendAll(remotes, event), to, event) == multiset(remotes)[to]
  {
    if remotes != [] {
      var all := SendAll(remotes, event);
      assert all == [Addressed(remotes[0], event)] + SendAll(remotes[1..], event);
      assert remotes == [remotes[0]] + remotes[1..];
      SendAllCounts(remotes[1..], event, to);
    }
  }

  /** A published change goes to every subscriber but its source exactly once, and to nobody else. */
  lemma PublishedOnce(m: RemoteMap, now: nat, id: SlotId, event: ServerEvent, order: seq<NodeSession>, to: NodeSession)
    requires Enumerates(order, m.subs.Keys)
    ensures Sent(FireEvent(m, now, id, event, order).1, to, event) == if to in m.subs && to != id.source then 1 else 0
  {
    if m.subs != map[] {
      SendAllCounts(Others(order, id.source), event, to);
      OthersCount(order, id.source, to);
    }
  }

  lemma {:induction false} OthersCount(order: seq<NodeSession>, source: NodeSession, s: NodeSession)
    ensures multiset(Others(order, source))[s] == if s == source then 0 else multiset(order)[s]
  {
    if order != [] {
      assert order == [order[0]] + order[1..];
      OthersCount(order[1..], source, s);
    }
  }

  /** The change an accepted command makes, if any, is what the others are told. */
  lemma AcceptedIsPublished(m: RemoteMap, now: nat, remote: NodeSession, cmd: ClientCommand, o: Orders, to: NodeSession)
    requires EnumeratesMap(o, m) && (cmd.Set? || cmd.Del?)
    ensures var (reply, id) := (OnClient(m, now, remote, cmd, o), SlotId(cmd.key, remote));
      match reply.event
      case None => reply.state == m && reply.out == []
      case Some(SetOk(key, version)) =>
        && SlotOf(reply.state, id) == Held(cmd.data, cmd.version, now)
        && Sent(reply.out, to, OnSet(id, version, cmd.data)) == if to in m.subs && to != remote then 1 else 0
      case Some(DelOk(key, version)) =>
        && id !in reply.state.slots && version == m.slots[id].version
        && Sent(reply.out, to, OnDel(id, version)) == if to in m.subs && to != remote then 1 else 0
      case Some(_) => false
    ensures var (reply, slot) := (OnClient(m, now, remote, cmd, o), SlotOf(m, SlotId(cmd.key, remote)));
      reply.event == None <==> if cmd.Set? then slot.Held? && slot.version > cmd.version else !slot.Held? || slot.version > cmd.version
  {
    var id := SlotId(cmd.key, remote);
    if cmd.Set? {
      PublishedOnce(m, now, id, OnSet(id, cmd.version, cmd.data), o.subs, to);
    } else if SlotOf(m, id).Held? {
      PublishedOnce(m, now, id, OnDel(id, SlotOf(m, id).version), o.subs, to);
    }
  }

  /** A new subscriber is told every value held for another source exactly once. */
  lemma {:induction false} SubscriberIsTold(slots: map<SlotId, MapSlot>, events: map<SlotId, WaitAcks>, now: nat, remote: NodeSession, order: seq<SlotId>, id: SlotId)
    ensures var out := FireSubEvents(slots, events, now, remote, order).1;
      id in slots && slots[id].Held? ==>
        Sent(out, remote, OnSet(id, slots[id].version, slots[id].data)) == if id.source != remote then multiset(order)[id] else 0
    decreases |order|
  {
    if order != [] {
      assert order == [order[0]] + order[1..];
      var k := order[0];
      if k !in slots || k.source == remote || !slots[k].Held? {
        SubscriberIsTold(slots, events, now, remote, order[1..], id);
      } else {
        var event := OnSet(k, slots[k].version, slots[k].data);
        var entry := if k in events then events[k] else WaitAcks(event, [], now, now);
        var entry' := if remote in entry.remotes then entry else entry.(remotes := entry.remotes + [remote]);
        SubscriberIsTold(slots, events[k := entry'], now, remote, order[1..], id);
      }
    }
  }
}
