/** What a DHT client knows, told from its history: its own keys from the controls it was given, the slots of others from
    the events of the relay it listens to, and the relay from its subscription. For every sequence of calls. */
module DhtLearning {
  import opened Identity
  import opened Endpoints
  import opened DhtMessages
  import opened DhtClient

  datatype Input =
    | Tick(now: nat, order: seq<SlotId>)
    | Control(now: nat, actor: Actor, control: MapControl, order: seq<SlotId>)
    | Server(now: nat, remote: NodeSession, event: ServerEvent, order: seq<SlotId>)

  function Handle(m: LocalMap, i: Input): Reply {
    match i
    case Tick(now, order) => OnTick(m, now, order)
    case Control(now, actor, control, order) => OnControl(m, now, actor, control, order)
    case Server(now, remote, event, order) => OnServer(m, now, remote, event, order)
  }

  function Run(session: NodeSession, inputs: seq<Input>): LocalMap {
    if inputs == [] then NewLocalMap(session) else Handle(Run(session, inputs[..|inputs| - 1]), inputs[|inputs| - 1]).state
  }

  lemma {:induction false} SameSession(session: NodeSession, inputs: seq<Input>)
    ensures Run(session, inputs).session == session
  {
    if inputs != [] { SameSession(session, inputs[..|inputs| - 1]); }
  }

  // ---- who subscribes -----------------------------------------------------------------------

  /** Whether the last Subscribe or Unsubscribe of an actor is a Subscribe. */
  function WantsEvents(inputs: seq<Input>, actor: Actor): bool {
    if inputs == [] then false
    else
      var i := inputs[|inputs| - 1];
      if i.Control? && i.actor == actor && i.control.Subscribe? then true
      else if i.Control? && i.actor == actor && i.control.Unsubscribe? then false
      else WantsEvents(inputs[..|inputs| - 1], actor)
  }

  lemma {:induction false} RetainMember(s: seq<Actor>, gone: Actor, a: Actor)
    ensures a in Retain(s, gone) <==> a in s && a != gone
  {
    if s != [] {
      RetainMember(s[1..], gone, a);
      assert Retain(s, gone) == (if s[0] != gone then [s[0]] else []) + Retain(s[1..], gone);
    }
  }

  lemma {:induction false} SubscribersIff(session: NodeSession, inputs: seq<Input>, actor: Actor)
    ensures actor in Run(session, inputs).subscribers <==> WantsEvents(inputs, actor)
  {
    if inputs != [] {
      var m, i := Run(session, inputs[..|inputs| - 1]), inputs[|inputs| - 1];
      SubscribersIff(session, inputs[..|inputs| - 1], actor);
      if i.Control? && i.control.Unsubscribe? { RetainMember(m.subscribers, i.actor, actor); }
    }
  }

  // ---- the relay listened to ----------------------------------------------------------------

  /** When the list of subscribers last became non-empty, and the relay that last confirmed that subscription. */
  datatype Listening = Nobody | Asking(id: nat) | Hearing(id: nat, relay: NodeSession)

  function ListeningTo(session: NodeSession, inputs: seq<Input>): Listening {
    if inputs == [] then Nobody
    else
      var before, i := inputs[..|inputs| - 1], inputs[|inputs| - 1];
      var was, now := Run(session, before).subscribers != [], Run(session, inputs).subscribers != [];
      if !now then Nobody
      else if !was then Asking(i.now)
      else
        var l := ListeningTo(session, before);
        if i.Server? && i.event.SubOk? && !l.Nobody? && i.event.id == l.id then Hearing(l.id, i.remote) else l
  }

  ghost predicate Tells(l: Listening, m: LocalMap) {
    && (m.sub.Subscribing? <==> l.Asking?) && (m.sub.Subscribing? ==> m.sub.id == l.id)
    && (m.sub.Subscribed? <==> l.Hearing?) && (m.sub.Subscribed? ==> m.sub.id == l.id && m.sub.remote == l.relay)
    && (l.Nobody? <==> m.subscribers == [])
  }

  lemma ControlTells(m: LocalMap, i: Input, l: Listening)
    requires Tells(l, m) && !i.Server?
    ensures var m' := Handle(m, i).state; Tells(if m'.subscribers == [] then Nobody else if m.subscribers == [] then Asking(i.now) else l, m')
  {
  }

  lemma ServerTells(m: LocalMap, i: Input, l: Listening)
    requires Tells(l, m) && i.Server?
    ensures Handle(m, i).state.subscribers == m.subscribers
    ensures Tells(if i.event.SubOk? && !l.Nobody? && i.event.id == l.id then Hearing(l.id, i.remote) else l, Handle(m, i).state)
  {
  }

  /** The subscription is what this says: nothing is subscribed without subscribers, the first one opens a subscription under
      the time it came, and any relay that confirms it under that id is the one listened to from then on. */
  lemma {:induction false} SubscriptionIsTold(session: NodeSession, inputs: seq<Input>)
    ensures Tells(ListeningTo(session, inputs), Run(session, inputs))
  {
    if inputs != [] {
      var m, i := Run(session, inputs[..|inputs| - 1]), inputs[|inputs| - 1];
      SubscriptionIsTold(session, inputs[..|inputs| - 1]);
      var l := ListeningTo(session, inputs[..|inputs| - 1]);
      if i.Server? { ServerTells(m, i, l); } else { ControlTells(m, i, l); }
    }
  }

  /** What is sent for the subscription on a tick: while asking the Sub again after 200 ms, while listening a Sub naming the relay
      after 1500 ms, while leaving the Unsub again after 200 ms for 10 s, and at most one of these. */
  lemma TickAsks(sub: SubState, now: nat)
    ensures var (sub', out) := TickSub(sub, now);
      && out == (match sub
           case NotSub => []
           case Subscribing(id, sent) => if now >= sent + 200 then [ToRelay(Sub(id, None))] else []
           case Subscribed(id, relay, sent) => if now >= sent + 1500 then [ToRelay(Sub(id, Some(relay)))] else []
           case Unsubscribing(id, since, _, sent) => if now < since + 10_000 && now >= sent + 200 then [ToRelay(Unsub(id))] else [])
      && (out == [] ==> sub' == if sub.Unsubscribing? && now >= sub.startedAt + 10_000 then NotSub else sub)
      && (out != [] ==> sub' == if sub.Subscribed? then sub.(syncTs := now) else sub.(sentTs := now))
  {
  }

  /** Only an Unsubscribe empties the list of subscribers, and what it answers depends on the subscription alone. */
  lemma LastLeaves(m: LocalMap, i: Input)
    requires m.subscribers != [] && Handle(m, i).state.subscribers == []
    ensures i.Control? && (Handle(m, i).state.sub, Handle(m, i).cmd) == LeaveSub(m.sub, i.now)
  {
  }

  /** Leaving: the last subscriber that goes sends the Unsub under the subscription's id, and only its confirmation, by the
      relay listened to if there was one, or 10 s end it. */
  lemma LeavingEnds(session: NodeSession, inputs: seq<Input>, i: Input)
    requires Run(session, inputs).subscribers != [] && Handle(Run(session, inputs), i).state.subscribers == []
    ensures var (l, reply) := (ListeningTo(session, inputs), Handle(Run(session, inputs), i));
      && !l.Nobody? && reply.cmd == Some(Unsub(l.id)) && reply.state.sub.Unsubscribing? && reply.state.sub.id == l.id
      && reply.state.sub.locked == (if l.Hearing? then Some(l.relay) else None) && reply.state.sub.startedAt == i.now
  {
    SubscriptionIsTold(session, inputs);
    LastLeaves(Run(session, inputs), i);
  }

  lemma UnsubOkEnds(m: LocalMap, now: nat, remote: NodeSession, id: nat, order: seq<SlotId>)
    ensures var reply := OnServer(m, now, remote, UnsubOk(id), order);
      && (reply.state != m <==> m.sub.Unsubscribing? && m.sub.id == id && (m.sub.locked == None || m.sub.locked == Some(remote)))
      && (reply.state != m ==> reply.state == m.(sub := NotSub)) && reply.cmd == None && reply.out == []
  {
  }

  // ---- own keys -----------------------------------------------------------------------------

  /** The data a key was last given by a control: nothing after a DelKey. */
  function LastGiven(inputs: seq<Input>, key: nat): Option<Bytes> {
    if inputs == [] then None
    else
      var i := inputs[|inputs| - 1];
      if i.Control? && i.control.SetKey? && i.control.key == key then Some(i.control.data)
      else if i.Control? && i.control.DelKey? && i.control.key == key then None
      else LastGiven(inputs[..|inputs| - 1], key)
  }

  /** When a key was last set. */
  function LastSetAt(inputs: seq<Input>, key: nat): nat {
    if inputs == [] then 0
    else
      var i := inputs[|inputs| - 1];
      if i.Control? && i.control.SetKey? && i.control.key == key then i.now else LastSetAt(inputs[..|inputs| - 1], key)
  }

  /** No event tells the client about its own slots: relays do not send a source its own values. */
  predicate NoEcho(session: NodeSession, inputs: seq<Input>) {
    forall i :: i in inputs && i.Server? && i.event.OnSet? ==> i.event.slot.source != session
  }

  predicate OwnSlot(slot: MapSlot, given: Option<Bytes>, setAt: nat) {
    match slot
    case Unspecific => given == None
    case Remote(_, _) => false
    case Local(value, version, _, _) => value == given && version == setAt
  }

  lemma OwnSlotStep(m: LocalMap, i: Input, key: nat, given: Option<Bytes>, setAt: nat)
    requires OwnSlot(SlotOf(m, SlotId(key, m.session)), given, setAt) && !(i.Server? && i.event.OnSet? && i.event.slot.source == m.session)
    requires !(i.Control? && (i.control.SetKey? || i.control.DelKey?) && i.control.key == key)
    ensures OwnSlot(SlotOf(Handle(m, i).state, SlotId(key, m.session)), given, setAt)
  {
    if i.Tick? {
      SyncSlotsFacts(m.slots, i.now, false, i.order);
    } else if i.Server? && i.event.SubOk? {
      SyncSlotsFacts(m.slots, i.now, true, i.order);
    }
  }

  /** A client's own key holds what it was last given, under the time it was last set, whatever else happens. */
  lemma {:induction false} OwnKeyIsLastGiven(session: NodeSession, inputs: seq<Input>, key: nat)
    requires NoEcho(session, inputs)
    ensures OwnSlot(SlotOf(Run(session, inputs), SlotId(key, session)), LastGiven(inputs, key), LastSetAt(inputs, key))
  {
    SameSession(session, inputs);
    if inputs != [] {
      var before, i := inputs[..|inputs| - 1], inputs[|inputs| - 1];
      assert i in inputs;
      SameSession(session, before);
      OwnKeyIsLastGiven(session, before, key);
      if !(i.Control? && (i.control.SetKey? || i.control.DelKey?) && i.control.key == key) {
        OwnSlotStep(Run(session, before), i, key, LastGiven(before, key), LastSetAt(before, key));
      }
    }
  }

  // ---- slots of others ----------------------------------------------------------------------

  /** An OnSet or OnDel about a slot, from the relay listened to. */
  predicate Learns(session: NodeSession, before: seq<Input>, i: Input, id: SlotId) {
    && i.Server? && (i.event.OnSet? || i.event.OnDel?) && i.event.slot == id
    && var l := ListeningTo(session, before); l.Hearing? && l.relay == i.remote
  }

  function Learned(session: NodeSession, inputs: seq<Input>, id: SlotId): (events: seq<ServerEvent>)
    ensures forall e :: e in events ==> e.OnSet? || e.OnDel?
  {
    if inputs == [] then []
    else
      var before, i := inputs[..|inputs| - 1], inputs[|inputs| - 1];
      Learned(session, before, id) + if Learns(session, before, i, id) then [i.event] else []
  }

  /** An OnSet that no later OnDel of the same or a higher version took back. */
  predicate Survives(events: seq<ServerEvent>, k: int) {
    0 <= k < |events| && events[k].OnSet? && forall j :: k < j < |events| && events[j].OnDel? ==> events[j].version < events[k].version
  }

  /** The surviving OnSet of the highest version, the first of these. */
  ghost predicate Wins(events: seq<ServerEvent>, k: int) {
    Survives(events, k) && forall j :: Survives(events, j) ==> events[j].version < events[k].version || (events[j].version == events[k].version && k <= j)
  }

  ghost predicate Shows(slot: MapSlot, events: seq<ServerEvent>) {
    match slot
    case Unspecific => forall k :: !Survives(events, k)
    case Remote(version, value) => exists k :: Wins(events, k) && events[k].version == version && value == Some(events[k].data)
    case Local(_, _, _, _) => false
  }

  lemma SurvivesNext(events: seq<ServerEvent>, e: ServerEvent, k: int)
    requires e.OnSet? || e.OnDel?
    ensures Survives(events + [e], k) <==> (k == |events| && e.OnSet?) || (Survives(events, k) && !(e.OnDel? && e.version >= events[k].version))
  {
    var more := events + [e];
    if 0 <= k < |events| {
      assert more[k] == events[k] && more[|events|] == e;
      forall j | k < j < |events| ensures more[j] == events[j] { }
    }
  }

  lemma OnSetShows(slot: MapSlot, events: seq<ServerEvent>, e: ServerEvent)
    requires Shows(slot, events) && e.OnSet?
    ensures Shows(SlotOnSet(slot, e.slot, e.version, e.data).0, events + [e])
  {
    var more := events + [e];
    forall k ensures Survives(more, k) <==> k == |events| || Survives(events, k) { SurvivesNext(events, e, k); }
    if slot.Remote? {
      var k :| Wins(events, k) && events[k].version == slot.version && slot.value == Some(events[k].data);
      assert Survives(events, k) && more[k] == events[k];
      if slot.version < e.version { assert Wins(more, |events|); } else { assert Wins(more, k); }
    } else {
      assert Wins(more, |events|);
    }
  }

  lemma OnDelShows(slot: MapSlot, events: seq<ServerEvent>, e: ServerEvent)
    requires Shows(slot, events) && e.OnDel?
    ensures Shows(SlotOnDel(slot, e.slot, e.version).0, events + [e])
  {
    var more := events + [e];
    forall k ensures Survives(more, k) <==> Survives(events, k) && e.version < events[k].version { SurvivesNext(events, e, k); }
    if slot.Remote? {
      var k :| Wins(events, k) && events[k].version == slot.version && slot.value == Some(events[k].data);
      assert Survives(events, k) && more[k] == events[k];
      if slot.version > e.version { assert Wins(more, k); }
    }
  }

  /** Calls that are not about a slot keep it. */
  lemma OtherCallsKeep(m: LocalMap, i: Input, id: SlotId)
    requires id.source != m.session && !SlotOf(m, id).Local? && (SlotOf(m, id).Remote? ==> SlotOf(m, id).value.Some?)
    requires !(i.Server? && (i.event.OnSet? || i.event.OnDel?) && i.event.slot == id && Accepts(m.sub, i.remote))
    ensures SlotOf(Handle(m, i).state, id) == SlotOf(m, id)
  {
    if i.Tick? {
      SyncSlotsFacts(m.slots, i.now, false, i.order);
    } else if i.Server? && i.event.SubOk? {
      SyncSlotsFacts(m.slots, i.now, true, i.order);
    }
  }

  /** After any calls a client holds for a slot of another source the surviving OnSet of the highest version among the events
      of the relay it listened to, the first of these, and nothing exactly when none survives. */
  lemma {:induction false} SlotShowsWinner(session: NodeSession, inputs: seq<Input>, id: SlotId)
    requires id.source != session
    ensures Shows(SlotOf(Run(session, inputs), id), Learned(session, inputs, id))
  {
    if inputs != [] {
      var before, i := inputs[..|inputs| - 1], inputs[|inputs| - 1];
      var m, events := Run(session, before), Learned(session, before, id);
      SlotShowsWinner(session, before, id);
      SubscriptionIsTold(session, before);
      SameSession(session, before);
      if !Learns(session, before, i, id) {
        OtherCallsKeep(m, i, id);
        assert events + [] == events;
      } else if i.event.OnSet? {
        OnSetShows(SlotOf(m, id), events, i.event);
      } else {
        OnDelShows(SlotOf(m, id), events, i.event);
      }
    }
  }

  /** When an event is acknowledged: an OnSet of the relay listened to exactly when no survivor has a higher version, an OnDel
      exactly when something survives and nothing with a higher version; under the event's own slot and version. */
  lemma EventIsAcknowledgedIff(session: NodeSession, inputs: seq<Input>, i: Input)
    requires i.Server? && (i.event.OnSet? || i.event.OnDel?) && i.event.slot.source != session
    ensures var (events, cmd) := (Learned(session, inputs, i.event.slot), Handle(Run(session, inputs), i).cmd);
      && (cmd != None <==>
          && Learns(session, inputs, i, i.event.slot)
          && (if i.event.OnSet? then forall k :: Survives(events, k) ==> events[k].version <= i.event.version
              else exists k :: Wins(events, k) && events[k].version <= i.event.version))
      && (cmd != None ==> cmd == Some(if i.event.OnSet? then OnSetAck(i.event.slot, i.event.version) else OnDelAck(i.event.slot, i.event.version)))
  {
    SlotShowsWinner(session, inputs, i.event.slot);
    SubscriptionIsTold(session, inputs);
  }

  // ---- what is sent upstream ----------------------------------------------------------------

  /** A local slot is due when it is unconfirmed for 200 ms, or 1500 ms old, or asked for. */
  predicate Due(slots: map<SlotId, MapSlot>, now: nat, force: bool, id: SlotId) {
    id in slots && slots[id].Local? && (force || now >= slots[id].lastSync + (if slots[id].syncing then 200 else 1500))
  }

  function DueSyncs(slots: map<SlotId, MapSlot>, now: nat, force: bool, order: seq<SlotId>): seq<Output>
    decreases |order|
  {
    if order == [] then []
    else
      (if Due(slots, now, force, order[0])
       then [ToRelay(if slots[order[0]].value.Some? then Set(order[0].key, slots[order[0]].version, slots[order[0]].value.value) else Del(order[0].key, slots[order[0]].version))]
       else []) + DueSyncs(slots, now, force, order[1..])
  }

  lemma {:induction false} DueSyncsFrame(slots: map<SlotId, MapSlot>, other: map<SlotId, MapSlot>, now: nat, force: bool, order: seq<SlotId>)
    requires forall id :: id in order ==> (id in slots <==> id in other) && (id in slots ==> slots[id] == other[id])
    ensures DueSyncs(slots, now, force, order) == DueSyncs(other, now, force, order)
    decreases |order|
  {
    if order != [] {
      assert order[0] in order;
      DueSyncsFrame(slots, other, now, force, order[1..]);
    }
  }

  /** Visiting the slots sends, for every due one once, its own version and content, and nothing else. */
  lemma {:induction false} SyncsAreDue(slots: map<SlotId, MapSlot>, now: nat, force: bool, order: seq<SlotId>)
    requires NoDuplicates(order)
    ensures var (slots', out) := SyncSlots(slots, now, force, order);
      && out == DueSyncs(slots, now, force, order) && slots'.Keys == slots.Keys
      && forall id :: id in slots ==> slots'[id] == if id in order && Due(slots, now, force, id) then slots[id].(lastSync := now) else slots[id]
    decreases |order|
  {
    if order != [] {
      var id, rest := order[0], order[1..];
      assert id !in rest;
      if id in slots {
        var slot := SlotSync(slots[id], id.key, now, force).0;
        SyncsAreDue(slots[id := slot], now, force, rest);
        DueSyncsFrame(slots, slots[id := slot], now, force, rest);
      } else {
        SyncsAreDue(slots, now, force, rest);
        assert [] + DueSyncs(slots, now, force, rest) == DueSyncs(slots, now, force, rest);
      }
    }
  }

  /** A tick sends what the subscription and the due slots need, and forgets exactly the slots without a value that nothing is
      owed for. */
  lemma TickSends(m: LocalMap, now: nat, order: seq<SlotId>)
    requires Enumerates(order, m.slots.Keys)
    ensures var reply := OnTick(m, now, order);
      && reply.out == TickSub(m.sub, now).1 + DueSyncs(m.slots, now, false, order) && reply.cmd == None
      && (forall id :: id in reply.state.slots <==> id in m.slots && (Data(m.slots[id]).Some? || (m.slots[id].Local? && m.slots[id].syncing)))
      && reply.state.subscribers == m.subscribers
  {
    EnumeratesMembers(order, m.slots.Keys);
    SyncsAreDue(m.slots, now, false, order);
  }

  /** A relay of another node that takes over is sent every own slot at once. */
  lemma NewRelayIsTold(m: LocalMap, now: nat, remote: NodeSession, id: nat, order: seq<SlotId>)
    requires Enumerates(order, m.slots.Keys)
    ensures var reply := OnServer(m, now, remote, SubOk(id), order);
      var taken := (m.sub.Subscribing? || m.sub.Subscribed?) && m.sub.id == id;
      && reply.cmd == None
      && (!taken ==> reply == Reply(m, None, []))
      && (taken && m.sub.Subscribing? ==> reply.out == Fire(m.subscribers, RelaySelected(remote.node)))
      && (taken && m.sub.Subscribed? && m.sub.remote.node == remote.node ==> reply.out == [])
      && (taken && m.sub.Subscribed? && m.sub.remote.node != remote.node ==>
          reply.out == DueSyncs(m.slots, now, true, order) + Fire(m.subscribers, RelaySelected(remote.node)))
  {
    EnumeratesMembers(order, m.slots.Keys);
    SyncsAreDue(m.slots, now, true, order);
  }

  /** An own key is confirmed by the answer to its current version and content alone. */
  lemma ConfirmedIff(m: LocalMap, now: nat, remote: NodeSession, event: ServerEvent, order: seq<SlotId>)
    requires event.SetOk? || event.DelOk?
    ensures var (reply, id) := (OnServer(m, now, remote, event, order), SlotId(event.key, m.session));
      var confirms := SlotOf(m, id).Local? && SlotOf(m, id).version == event.version && (SlotOf(m, id).value.Some? <==> event.SetOk?);
      && reply.cmd == None && reply.out == []
      && SlotOf(reply.state, id) == (if confirms then SlotOf(m, id).(syncing := false) else SlotOf(m, id))
      && forall k :: k != id ==> SlotOf(reply.state, k) == SlotOf(m, k)
  {
  }
}
