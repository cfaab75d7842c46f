/** What a DHT relay holds, whom it tells and whom it waits for, told from the commands it received: for every sequence of
    commands and ticks, whoever sent them. */
module DhtRelay {
  import opened Identity
  import opened Endpoints
  import opened DhtMessages
  import opened DhtServer

  datatype Input =
    | Tick(now: nat, orders: Orders)
    | Receive(now: nat, remote: NodeSession, cmd: ClientCommand, orders: Orders)

  function Handle(m: RemoteMap, i: Input): Reply {
    match i
    case Tick(now, o) => OnTick(m, now, o)
    case Receive(now, remote, cmd, o) => OnClient(m, now, remote, cmd, o)
  }

  function Run(session: NodeSession, inputs: seq<Input>): RemoteMap {
    if inputs == [] then NewRemoteMap(session) else Handle(Run(session, inputs[..|inputs| - 1]), inputs[|inputs| - 1]).state
  }

  // ---- what a slot holds --------------------------------------------------------------------

  predicate PutsTo(i: Input, id: SlotId) {
    i.Receive? && (i.cmd.Set? || i.cmd.Del?) && SlotId(i.cmd.key, i.remote) == id
  }

  /** The Sets and Dels received for a slot, in order. */
  function Puts(inputs: seq<Input>, id: SlotId): (puts: seq<ClientCommand>)
    ensures forall p :: p in puts ==> p.Set? || p.Del?
  {
    if inputs == [] then []
    else Puts(inputs[..|inputs| - 1], id) + if PutsTo(inputs[|inputs| - 1], id) then [inputs[|inputs| - 1].cmd] else []
  }

  /** A Set that no later Del of the same or a higher version took back. */
  predicate Survives(puts: seq<ClientCommand>, k: int) {
    0 <= k < |puts| && puts[k].Set? && forall j :: k < j < |puts| && puts[j].Del? ==> puts[j].version < puts[k].version
  }

  /** The surviving Set of the highest version, the latest of these. */
  ghost predicate Wins(puts: seq<ClientCommand>, k: int) {
    Survives(puts, k) && forall j :: Survives(puts, j) ==> puts[j].version < puts[k].version || (puts[j].version == puts[k].version && j <= k)
  }

  ghost predicate Holds(slot: MapSlot, puts: seq<ClientCommand>) {
    match slot
    case Unspecific => forall k :: !Survives(puts, k)
    case Held(data, version, _) => exists k :: Wins(puts, k) && puts[k].version == version && puts[k].data == data
  }

  lemma SurvivesNext(puts: seq<ClientCommand>, cmd: ClientCommand, k: int)
    requires cmd.Set? || cmd.Del?
    ensures Survives(puts + [cmd], k) <==> (k == |puts| && cmd.Set?) || (Survives(puts, k) && !(cmd.Del? && cmd.version >= puts[k].version))
  {
    var more := puts + [cmd];
    if 0 <= k < |puts| {
      assert more[k] == puts[k] && more[|puts|] == cmd;
      forall j | k < j < |puts| ensures more[j] == puts[j] { }
    }
  }

  lemma SetHolds(slot: MapSlot, puts: seq<ClientCommand>, cmd: ClientCommand, now: nat)
    requires Holds(slot, puts) && cmd.Set?
    ensures Holds(SlotSet(slot, now, cmd.version, cmd.data).0, puts + [cmd])
    ensures SlotSet(slot, now, cmd.version, cmd.data).1 <==> forall k :: Survives(puts, k) ==> puts[k].version <= cmd.version
  {
    var more := puts + [cmd];
    forall k ensures Survives(more, k) <==> k == |puts| || Survives(puts, k) { SurvivesNext(puts, cmd, k); }
    if slot.Held? {
      var k :| Wins(puts, k) && puts[k].version == slot.version && puts[k].data == slot.data;
      assert Survives(puts, k) && more[k] == puts[k];
      if slot.version > cmd.version { assert Wins(more, k); } else { assert Wins(more, |puts|); }
    } else {
      assert Wins(more, |puts|);
    }
  }

  lemma DelHolds(slot: MapSlot, puts: seq<ClientCommand>, cmd: ClientCommand)
    requires Holds(slot, puts) && cmd.Del?
    ensures Holds(SlotDel(slot, cmd.version).0, puts + [cmd])
    ensures SlotDel(slot, cmd.version).1.Some? <==> exists k :: Wins(puts, k) && puts[k].version <= cmd.version
    ensures SlotDel(slot, cmd.version).1.Some? ==> exists k :: Wins(puts, k) && puts[k].version == SlotDel(slot, cmd.version).1.value
  {
    var more := puts + [cmd];
    forall k ensures Survives(more, k) <==> Survives(puts, k) && cmd.version < puts[k].version { SurvivesNext(puts, cmd, k); }
    if slot.Held? {
      var k :| Wins(puts, k) && puts[k].version == slot.version && puts[k].data == slot.data;
      assert Survives(puts, k) && more[k] == puts[k];
      if slot.version > cmd.version { assert Wins(more, k); }
    }
  }

  lemma OtherSlotsKept(m: RemoteMap, i: Input, id: SlotId)
    requires !PutsTo(i, id)
    ensures SlotOf(Handle(m, i).state, id) == SlotOf(m, id)
  {
  }

  /** After any commands a relay holds for a slot the surviving Set of the highest version, the latest of these, and nothing
      exactly when none survives. */
  lemma {:induction false} SlotHoldsWinner(session: NodeSession, inputs: seq<Input>, id: SlotId)
    ensures Holds(SlotOf(Run(session, inputs), id), Puts(inputs, id))
  {
    if inputs != [] {
      var before, i := inputs[..|inputs| - 1], inputs[|inputs| - 1];
      var m := Run(session, before);
      SlotHoldsWinner(session, before, id);
      if !PutsTo(i, id) {
        OtherSlotsKept(m, i, id);
        assert Puts(before, id) + [] == Puts(before, id);
      } else if i.cmd.Set? {
        SetHolds(SlotOf(m, id), Puts(before, id), i.cmd, i.now);
      } else {
        DelHolds(SlotOf(m, id), Puts(before, id), i.cmd);
      }
    }
  }

  /** When a put is answered: a Set exactly when no surviving Set has a higher version, a Del exactly when a Set survives and
      none has a higher version, and then with the version taken back. */
  lemma PutIsAnsweredIff(session: NodeSession, inputs: seq<Input>, i: Input)
    requires i.Receive? && (i.cmd.Set? || i.cmd.Del?)
    ensures var (puts, event) := (Puts(inputs, SlotId(i.cmd.key, i.remote)), Handle(Run(session, inputs), i).event);
      && (i.cmd.Set? ==> (event == Some(SetOk(i.cmd.key, i.cmd.version)) <==> forall k :: Survives(puts, k) ==> puts[k].version <= i.cmd.version))
      && (i.cmd.Set? && event != Some(SetOk(i.cmd.key, i.cmd.version)) ==> event == None)
      && (i.cmd.Del? ==> (event.Some? <==> exists k :: Wins(puts, k) && puts[k].version <= i.cmd.version))
      && (i.cmd.Del? && event.Some? ==> exists k :: Wins(puts, k) && event == Some(DelOk(i.cmd.key, puts[k].version)))
  {
    var id := SlotId(i.cmd.key, i.remote);
    var slot, puts := SlotOf(Run(session, inputs), id), Puts(inputs, id);
    SlotHoldsWinner(session, inputs, id);
    if i.cmd.Set? {
      SetHolds(slot, puts, i.cmd, i.now);
    } else {
      DelHolds(slot, puts, i.cmd);
    }
  }

  // ---- who subscribes -----------------------------------------------------------------------

  predicate Joins(i: Input, r: NodeSession) { i.Receive? && i.cmd.Sub? && i.remote == r }

  /** What ends a subscription: an Unsub under its id, or a tick TIMEOUT_MS or more after it was last renewed. */
  predicate Ends(i: Input, r: NodeSession, id: nat, since: nat) {
    (i.Receive? && i.cmd == Unsub(id) && i.remote == r) || (i.Tick? && i.now >= since + 10_000)
  }

  /** The last Sub of a node that was not ended since. */
  predicate Stands(inputs: seq<Input>, k: int, r: NodeSession) {
    0 <= k < |inputs| && Joins(inputs[k], r) && forall j :: k < j < |inputs| ==> !Joins(inputs[j], r) && !Ends(inputs[j], r, inputs[k].cmd.id, inputs[k].now)
  }

  ghost predicate SubMatches(m: RemoteMap, inputs: seq<Input>, r: NodeSession) {
    if r in m.subs then exists k :: Stands(inputs, k, r) && m.subs[r] == SubSlot(inputs[k].cmd.id, inputs[k].now)
    else forall k :: !Stands(inputs, k, r)
  }

  lemma StandsNext(inputs: seq<Input>, i: Input, k: int, r: NodeSession)
    ensures Stands(inputs + [i], k, r) <==>
      (k == |inputs| && Joins(i, r)) || (Stands(inputs, k, r) && !Joins(i, r) && !Ends(i, r, inputs[k].cmd.id, inputs[k].now))
  {
    var more := inputs + [i];
    if 0 <= k < |inputs| {
      assert more[k] == inputs[k] && more[|inputs|] == i;
      forall j | k < j < |inputs| ensures more[j] == inputs[j] { }
    }
  }

  lemma SubStep(m: RemoteMap, inputs: seq<Input>, i: Input, r: NodeSession)
    requires SubMatches(m, inputs, r)
    ensures SubMatches(Handle(m, i).state, inputs + [i], r)
  {
    var (m', more) := (Handle(m, i).state, inputs + [i]);
    if Joins(i, r) {
      StandsNext(inputs, i, |inputs|, r);
      assert Stands(more, |inputs|, r) && more[|inputs|] == i;
    } else if r in m.subs {
      var k :| Stands(inputs, k, r) && m.subs[r] == SubSlot(inputs[k].cmd.id, inputs[k].now);
      forall j ensures Stands(more, j, r) <==> j == k && !Ends(i, r, inputs[k].cmd.id, inputs[k].now) {
        StandsNext(inputs, i, j, r);
        OnlyOneStands(inputs, j, k, r);
      }
      assert more[k] == inputs[k];
      assert r in m'.subs <==> !Ends(i, r, inputs[k].cmd.id, inputs[k].now);
    } else {
      forall k ensures !Stands(more, k, r) { StandsNext(inputs, i, k, r); }
    }
  }

  lemma OnlyOneStands(inputs: seq<Input>, j: int, k: int, r: NodeSession)
    requires Stands(inputs, k, r)
    ensures Stands(inputs, j, r) ==> j == k
  {
  }

  /** After any commands a node subscribes exactly when its last Sub was neither ended by an Unsub under its id nor ran out. */
  lemma {:induction false} SubscribesIff(session: NodeSession, inputs: seq<Input>, r: NodeSession)
    ensures SubMatches(Run(session, inputs), inputs, r)
  {
    if inputs != [] {
      var before := inputs[..|inputs| - 1];
      SubscribesIff(session, before, r);
      SubStep(Run(session, before), before, inputs[|inputs| - 1], r);
      assert inputs == before + [inputs[|inputs| - 1]];
    }
  }

  /** A Sub is always answered under its id; an Unsub exactly when it ends a subscription. */
  lemma SubsAreAnswered(session: NodeSession, inputs: seq<Input>, i: Input)
    requires i.Receive? && (i.cmd.Sub? || i.cmd.Unsub?)
    ensures var event := Handle(Run(session, inputs), i).event;
      && (i.cmd.Sub? ==> event == Some(SubOk(i.cmd.id)))
      && (i.cmd.Unsub? ==> (event == Some(UnsubOk(i.cmd.id)) <==> exists k :: Stands(inputs, k, i.remote) && inputs[k].cmd.id == i.cmd.id))
      && (i.cmd.Unsub? && event != Some(UnsubOk(i.cmd.id)) ==> event == None)
  {
    SubscribesIff(session, inputs, i.remote);
    var m := Run(session, inputs);
    if i.remote in m.subs {
      var k :| Stands(inputs, k, i.remote) && m.subs[i.remote] == SubSlot(inputs[k].cmd.id, inputs[k].now);
      forall j ensures Stands(inputs, j, i.remote) ==> j == k { OnlyOneStands(inputs, j, k, i.remote); }
    }
  }

  // ---- what is waited for -------------------------------------------------------------------

  /** Who is still waited for about a slot. */
  function Waited(events: map<SlotId, WaitAcks>, id: SlotId): seq<NodeSession> { if id in events then events[id].remotes else [] }

  lemma AckedFacts(events: map<SlotId, WaitAcks>, id: SlotId, remote: NodeSession)
    requires id in events
    ensures var after := Acked(events, id, remote);
      && (forall k :: k != id ==> (k in after <==> k in events) && (k in events ==> after[k] == events[k]))
      && (forall r :: multiset(Waited(after, id))[r] == if r == remote then 0 else multiset(events[id].remotes)[r])
      && (id in after ==> after[id].remotes != [] && after[id].event == events[id].event)
  {
    forall r ensures multiset(Others(events[id].remotes, remote))[r] == if r == remote then 0 else multiset(events[id].remotes)[r] {
      OthersCount(events[id].remotes, remote, r);
    }
  }

  /** An acknowledgement of the waiting event by its kind and version ends the wait for its sender, and the event with the
      last of them; any other changes nothing. */
  lemma AckEndsWait(m: RemoteMap, i: Input)
    requires i.Receive? && (i.cmd.OnSetAck? || i.cmd.OnDelAck?)
    ensures var (id, m') := (i.cmd.slot, Handle(m, i).state);
      var matching := id in m.events && (if i.cmd.OnSetAck? then m.events[id].event.OnSet? else m.events[id].event.OnDel?) && m.events[id].event.version == i.cmd.version;
      && Handle(m, i).event == None && Handle(m, i).out == [] && m'.slots == m.slots && m'.subs == m.subs
      && (!matching ==> m' == m)
      && (forall k :: k != id ==> (k in m'.events <==> k in m.events) && (k in m.events ==> m'.events[k] == m.events[k]))
      && (matching ==> forall r :: multiset(Waited(m'.events, id))[r] == if r == i.remote then 0 else multiset(Waited(m.events, id))[r])
      && (matching && id in m'.events ==> m'.events[id].remotes != [] && m'.events[id].event == m.events[id].event)
  {
    if i.cmd.slot in m.events { AckedFacts(m.events, i.cmd.slot, i.remote); }
  }

  /** The change an accepted put makes. */
  function ChangeOf(m: RemoteMap, i: Input): ServerEvent
    requires i.Receive? && (i.cmd.Set? || (i.cmd.Del? && SlotId(i.cmd.key, i.remote) in m.slots && m.slots[SlotId(i.cmd.key, i.remote)].Held?))
  {
    var id := SlotId(i.cmd.key, i.remote);
    if i.cmd.Set? then OnSet(id, i.cmd.version, i.cmd.data) else OnDel(id, m.slots[id].version)
  }

  /** The publication of a change: told to every subscriber but its source once, nothing else told, and exactly those waited for. */
  ghost predicate Publishes(m: RemoteMap, now: nat, id: SlotId, change: ServerEvent, events: map<SlotId, WaitAcks>, out: seq<Addressed>) {
    && (forall to :: Sent(out, to, change) == if to in m.subs && to != id.source then 1 else 0)
    && (forall a :: a in out ==> a.event == change)
    && (forall k :: k != id ==> (k in events <==> k in m.events) && (k in m.events ==> events[k] == m.events[k]))
    && (m.subs == map[] ==> events == m.events)
    && (m.subs != map[] ==>
        && id in events && events[id].event == change && events[id].createdAt == events[id].lastSendMs == now
        && forall to :: multiset(events[id].remotes)[to] == if to in m.subs && to != id.source then 1 else 0)
  }

  lemma FireEventPublishes(m: RemoteMap, now: nat, id: SlotId, change: ServerEvent, order: seq<NodeSession>)
    requires Enumerates(order, m.subs.Keys)
    ensures var (events, out) := FireEvent(m, now, id, change, order); Publishes(m, now, id, change, events, out)
  {
    forall to ensures Sent(FireEvent(m, now, id, change, order).1, to, change) == if to in m.subs && to != id.source then 1 else 0 {
      PublishedOnce(m, now, id, change, order, to);
    }
    forall to ensures multiset(Others(order, id.source))[to] == if to in m.subs && to != id.source then 1 else 0 {
      OthersCount(order, id.source, to);
    }
  }

  /** An answered put is published as it is; an unanswered one changes nothing. */
  lemma PutIsPublished(m: RemoteMap, i: Input)
    requires EnumeratesMap(i.orders, m) && i.Receive? && (i.cmd.Set? || i.cmd.Del?)
    ensures var (reply, id) := (Handle(m, i), SlotId(i.cmd.key, i.remote));
      && (reply.event == None ==> reply.state == m && reply.out == [])
      && (reply.event != None ==>
          && (i.cmd.Del? ==> id in m.slots && m.slots[id].Held?)
          && Publishes(m, i.now, id, ChangeOf(m, i), reply.state.events, reply.out))
  {
    var id := SlotId(i.cmd.key, i.remote);
    if Handle(m, i).event != None { FireEventPublishes(m, i.now, id, ChangeOf(m, i), i.orders.subs); }
  }

  /** A waiting event is due when it is not yet TIMEOUT_MS old and was last sent RESEND_MS ago or more. */
  predicate Due(events: map<SlotId, WaitAcks>, now: nat, id: SlotId) {
    id in events && now < events[id].createdAt + 10_000 && now >= events[id].lastSendMs + 200
  }

  function DueSends(events: map<SlotId, WaitAcks>, now: nat, order: seq<SlotId>): seq<Addressed>
    decreases |order|
  {
    if order == [] then []
    else (if Due(events, now, order[0]) then SendAll(events[order[0]].remotes, events[order[0]].event) else []) + DueSends(events, now, order[1..])
  }

  lemma {:induction false} DueSendsFrame(events: map<SlotId, WaitAcks>, other: map<SlotId, WaitAcks>, now: nat, order: seq<SlotId>)
    requires forall id :: id in order ==> (id in events <==> id in other) && (id in events ==> events[id] == other[id])
    ensures DueSends(events, now, order) == DueSends(other, now, order)
    decreases |order|
  {
    if order != [] {
      assert order[0] in order;
      DueSendsFrame(events, other, now, order[1..]);
    }
  }

  lemma {:induction false} ResendIsDue(events: map<SlotId, WaitAcks>, now: nat, order: seq<SlotId>)
    requires NoDuplicates(order)
    ensures var (events', out) := Resend(events, now, order);
      && out == DueSends(events, now, order) && events'.Keys == events.Keys
      && forall id :: id in events ==>
           events'[id] == if id in order && Due(events, now, id) && events[id].remotes != [] then events[id].(lastSendMs := now) else events[id]
    decreases |order|
  {
    if order != [] {
      var id, rest := order[0], order[1..];
      assert id !in rest;
      if Due(events, now, id) && events[id].remotes != [] {
        var sent := events[id := events[id].(lastSendMs := now)];
        ResendIsDue(sent, now, rest);
        DueSendsFrame(events, sent, now, rest);
      } else {
        ResendIsDue(events, now, rest);
        assert id in events && events[id].remotes == [] ==> SendAll(events[id].remotes, events[id].event) == [];
        assert [] + DueSends(events, now, rest) == DueSends(events, now, rest);
      }
    }
  }

  /** A tick repeats every due event to everybody waited for, forgets the events TIMEOUT_MS old and the subscribers silent for
      so long, and nothing else. */
  lemma TickResends(m: RemoteMap, now: nat, o: Orders)
    requires EnumeratesMap(o, m)
    ensures var reply := OnTick(m, now, o);
      && reply.out == DueSends(m.events, now, o.events) && reply.event == None && reply.state.slots == m.slots
      && (forall id :: id in reply.state.events <==> id in m.events && now < m.events[id].createdAt + 10_000)
      && (forall id :: id in reply.state.events ==> reply.state.events[id].event == m.events[id].event && reply.state.events[id].remotes == m.events[id].remotes)
      && (forall r :: r in reply.state.subs <==> r in m.subs && now < m.subs[r].lastTs + 10_000)
      && (forall r :: r in reply.state.subs ==> reply.state.subs[r] == m.subs[r])
  {
    EnumeratesMembers(o.events, m.events.Keys);
    ResendIsDue(m.events, now, o.events);
  }

  /** A new subscriber, or one that another relay served last, is told every value of another source once and is then waited
      for about each; one that this relay already serves is told nothing. */
  lemma SubIsServed(m: RemoteMap, i: Input, id: SlotId)
    requires EnumeratesMap(i.orders, m) && i.Receive? && i.cmd.Sub?
    ensures var reply := Handle(m, i);
      && reply.state.slots == m.slots
      && (i.remote in m.subs && i.cmd.locked == Some(m.session) ==> reply.out == [] && reply.state.events == m.events)
      && (!(i.remote in m.subs && i.cmd.locked == Some(m.session)) ==>
          (forall a :: a in reply.out ==> a.to == i.remote && HeldEvent(m.slots, a.event))
          && (id in m.slots && m.slots[id].Held? && id.source != i.remote ==>
              Sent(reply.out, i.remote, OnSet(id, m.slots[id].version, m.slots[id].data)) == 1)
          && Waited(reply.state.events, id) == if id in m.slots && m.slots[id].Held? && id.source != i.remote then Joined(Waited(m.events, id), i.remote) else Waited(m.events, id))
  {
    var (m', o) := (m.(subs := m.subs[i.remote := SubSlot(i.cmd.id, i.now)]), i.orders);
    if !(i.remote in m.subs && i.cmd.locked == Some(m.session)) {
      FireSubEventsFacts(m.slots, m.events, i.now, i.remote, o.slots);
      SubscriberIsTold(m.slots, m.events, i.now, i.remote, o.slots, id);
      EnumeratesMembers(o.slots, m.slots.Keys);
      SubscriberIsAwaited(m.slots, m.events, i.now, i.remote, o.slots, id);
      assert multiset(o.slots)[id] == multiset(m.slots.Keys)[id];
    }
  }

  /** Adding somebody who is not there yet. */
  function Joined(waited: seq<NodeSession>, remote: NodeSession): seq<NodeSession> { if remote in waited then waited else waited + [remote] }

  lemma {:induction false} SubscriberIsAwaited(slots: map<SlotId, MapSlot>, events: map<SlotId, WaitAcks>, now: nat, remote: NodeSession, order: seq<SlotId>, id: SlotId)
    ensures var (events', out) := FireSubEvents(slots, events, now, remote, order);
      && (forall a :: a in out ==> a.to == remote)
      && Waited(events', id) == if id in order && id in slots && slots[id].Held? && id.source != remote then Joined(Waited(events, id), remote) else Waited(events, id)
    decreases |order|
  {
    if order != [] {
      var k := order[0];
      if k !in slots || k.source == remote || !slots[k].Held? {
        SubscriberIsAwaited(slots, events, now, remote, order[1..], id);
      } else {
        var event := OnSet(k, slots[k].version, slots[k].data);
        var entry := if k in events then events[k] else WaitAcks(event, [], now, now);
        var entry' := if remote in entry.remotes then entry else entry.(remotes := entry.remotes + [remote]);
        SubscriberIsAwaited(slots, events[k := entry'], now, remote, order[1..], id);
      }
    }
  }
}
