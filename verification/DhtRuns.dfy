/** Many clients and many relays of one DHT map over a network that loses, duplicates, reorders and misroutes:
    everything held anywhere was set by its source, and an acknowledged slot was accepted as it is. */
module DhtRuns {
  import opened Identity
  import opened Endpoints
  import opened DhtMessages
  import C = DhtClient
  import S = DhtServer
  import L = DhtRelay
  import K = DhtLearning

  /** A value set by its source. */
  datatype Issue = Issue(slot: SlotId, version: nat, data: Bytes)

  /** A relay accepted a version of a slot: with its data, or as deleted. */
  datatype Accept = Accept(relay: NodeSession, slot: SlotId, version: nat, content: Option<Bytes>)

  datatype ToRelay = ToRelay(from: NodeSession, cmd: ClientCommand)
  datatype ToClient = ToClient(from: NodeSession, to: NodeSession, event: ServerEvent)

  /** Messages stay available forever; `issued` and `accepted` record what happened and drive nothing. */
  datatype World = World(
    clocks: map<NodeSession, nat>,
    clients: map<NodeSession, C.LocalMap>,
    relays: map<NodeSession, S.RemoteMap>,
    toRelays: set<ToRelay>,
    toClients: set<ToClient>,
    issued: set<Issue>,
    accepted: set<Accept>)

  const Start := World(map[], map[], map[], {}, {}, {}, {})

  /** A map that was not created yet, or was cleaned up, behaves as an empty one. */
  function ClientAt(w: World, c: NodeSession): C.LocalMap { if c in w.clients then w.clients[c] else C.NewLocalMap(c) }
  function ClockAt(w: World, n: NodeSession): nat { if n in w.clocks then w.clocks[n] else 0 }

  function RelayAt(w: World, r: NodeSession): S.RemoteMap { if r in w.relays then w.relays[r] else S.NewRemoteMap(r) }

  /** A message to a client is routed by node, so any session of that node may get it. */
  datatype Action =
    | ClientTick(client: NodeSession, now: nat, order: seq<SlotId>)
    | Control(client: NodeSession, now: nat, actor: Actor, control: C.MapControl, order: seq<SlotId>)
    | ClientReceive(client: NodeSession, now: nat, msg: ToClient, order: seq<SlotId>)
    | RelayTick(relay: NodeSession, now: nat, orders: S.Orders)
    | RelayReceive(relay: NodeSession, now: nat, packet: ToRelay, orders: S.Orders)

  /** The node session that acts; each has a clock of its own, which does not go back. */
  function Acting(a: Action): NodeSession { if OnClientSide(a) then a.client else a.relay }

  predicate OnClientSide(a: Action) { a.ClientTick? || a.Control? || a.ClientReceive? }

  ghost predicate Enabled(w: World, a: Action) {
    && a.now >= ClockAt(w, Acting(a))
    && match a
       case ClientTick(c, _, order) => Enumerates(order, ClientAt(w, c).slots.Keys)
       case Control(c, _, _, _, order) => Enumerates(order, ClientAt(w, c).slots.Keys)
       case ClientReceive(c, _, msg, order) => msg in w.toClients && msg.to.node == c.node && Enumerates(order, ClientAt(w, c).slots.Keys)
       case RelayTick(r, _, orders) => S.EnumeratesMap(orders, RelayAt(w, r))
       case RelayReceive(r, _, packet, orders) => packet in w.toRelays && S.EnumeratesMap(orders, RelayAt(w, r))
  }

  function ClientStep(m: C.LocalMap, a: Action): C.Reply
    requires OnClientSide(a)
  {
    match a
    case ClientTick(_, now, order) => C.OnTick(m, now, order)
    case Control(_, now, actor, control, order) => C.OnControl(m, now, actor, control, order)
    case ClientReceive(_, now, msg, order) => C.OnServer(m, now, msg.from, msg.event, order)
  }

  function RelayStep(m: S.RemoteMap, a: Action): S.Reply
    requires !OnClientSide(a)
  {
    match a
    case RelayTick(_, now, orders) => S.OnTick(m, now, orders)
    case RelayReceive(_, now, packet, orders) => S.OnClient(m, now, packet.from, packet.cmd, orders)
  }

  function Commands(client: NodeSession, reply: C.Reply): set<ToRelay> {
    (set o | o in reply.out && o.ToRelay? :: ToRelay(client, o.cmd)) + if reply.cmd.Some? then {ToRelay(client, reply.cmd.value)} else {}
  }

  function Events(relay: NodeSession, to: Option<NodeSession>, reply: S.Reply): set<ToClient> {
    (set o | o in reply.out :: ToClient(relay, o.to, o.event))
    + if to.Some? && reply.event.Some? then {ToClient(relay, to.value, reply.event.value)} else {}
  }

  function Issued(a: Action): set<Issue> {
    if a.Control? && a.control.SetKey? then {Issue(SlotId(a.control.key, a.client), a.now, a.control.data)} else {}
  }

  function Accepted(a: Action, reply: S.Reply): set<Accept> {
    if a.RelayReceive? && a.packet.cmd.Set? && reply.event.Some? then
      {Accept(a.relay, SlotId(a.packet.cmd.key, a.packet.from), a.packet.cmd.version, Some(a.packet.cmd.data))}
    else if a.RelayReceive? && a.packet.cmd.Del? && reply.event.Some? && reply.event.value.DelOk? then
      {Accept(a.relay, SlotId(a.packet.cmd.key, a.packet.from), reply.event.value.version, None)}
    else {}
  }

  ghost function Step(w: World, a: Action): World {
    if !Enabled(w, a) then w
    else if OnClientSide(a) then
      var reply := ClientStep(ClientAt(w, a.client), a);
      w.(clocks := w.clocks[a.client := a.now], clients := w.clients[a.client := reply.state], toRelays := w.toRelays + Commands(a.client, reply), issued := w.issued + Issued(a))
    else
      var reply := RelayStep(RelayAt(w, a.relay), a);
      w.(clocks := w.clocks[a.relay := a.now], relays := w.relays[a.relay := reply.state],
         toClients := w.toClients + Events(a.relay, AnswerTo(a), reply),
         accepted := w.accepted + Accepted(a, reply))
  }

  ghost function Run(actions: seq<Action>): World {
    if actions == [] then Start else Step(Run(actions[..|actions| - 1]), actions[|actions| - 1])
  }

  // ---- the invariant ------------------------------------------------------------------------

  /** Some value was issued under this version. */
  predicate VersionIssued(issued: set<Issue>, id: SlotId, version: nat) {
    exists i :: i in issued && i.slot == id && i.version == version
  }

  predicate SafeClientSlot(issued: set<Issue>, clock: nat, own: NodeSession, id: SlotId, slot: C.MapSlot) {
    match slot
    case Unspecific => true
    case Remote(version, value) => value.Some? && Issue(id, version, value.value) in issued
    case Local(value, version, _, _) =>
      id.source == own && version <= clock && VersionIssued(issued, id, version) && (value.Some? ==> Issue(id, version, value.value) in issued)
  }

  /** A relay accepted a version of this key from this node, and with a value exactly if `set` says so. */
  predicate NodeAccepted(accepted: set<Accept>, id: SlotId, version: nat, present: bool) {
    exists a :: a in accepted && a.slot.key == id.key && a.slot.source.node == id.source.node && a.version == version && a.content.Some? == present
  }

  predicate AckedSlot(accepted: set<Accept>, id: SlotId, slot: C.MapSlot) {
    slot.Local? && !slot.syncing ==> NodeAccepted(accepted, id, slot.version, slot.value.Some?)
  }

  predicate SafeClient(issued: set<Issue>, accepted: set<Accept>, clock: nat, own: NodeSession, m: C.LocalMap) {
    && m.session == own
    && forall id :: id in m.slots ==> SafeClientSlot(issued, clock, own, id, m.slots[id]) && AckedSlot(accepted, id, m.slots[id])
  }

  predicate SafeEvent(issued: set<Issue>, event: ServerEvent) {
    event.OnSet? ==> Issue(event.slot, event.version, event.data) in issued
  }

  /** The events a relay queues and waits on are values that were issued, or deletions. */
  predicate SafePublished(issued: set<Issue>, event: ServerEvent) {
    SafeEvent(issued, event) && (event.OnSet? || event.OnDel?)
  }

  predicate SafeRelaySlot(issued: set<Issue>, id: SlotId, slot: S.MapSlot) {
    slot.Held? ==> Issue(id, slot.version, slot.data) in issued
  }

  predicate SafeRelay(issued: set<Issue>, m: S.RemoteMap) {
    && (forall id :: id in m.slots ==> SafeRelaySlot(issued, id, m.slots[id]))
    && (forall id :: id in m.events ==> SafePublished(issued, m.events[id].event))
  }

  predicate SafeCommand(issued: set<Issue>, msg: ToRelay) {
    msg.cmd.Set? ==> Issue(SlotId(msg.cmd.key, msg.from), msg.cmd.version, msg.cmd.data) in issued
  }

  predicate SafeMessage(issued: set<Issue>, accepted: set<Accept>, msg: ToClient) {
    && SafeEvent(issued, msg.event)
    && (msg.event.SetOk? ==> NodeAccepted(accepted, SlotId(msg.event.key, msg.to), msg.event.version, true))
    && (msg.event.DelOk? ==> NodeAccepted(accepted, SlotId(msg.event.key, msg.to), msg.event.version, false))
  }

  /** What a relay accepted had been issued, as a value or, when deleted, under that version. */
  predicate SafeAccept(issued: set<Issue>, a: Accept) {
    if a.content.Some? then Issue(a.slot, a.version, a.content.value) in issued else VersionIssued(issued, a.slot, a.version)
  }

  predicate Inv(w: World) {
    && (forall c :: c in w.clients ==> SafeClient(w.issued, w.accepted, ClockAt(w, c), c, w.clients[c]))
    && (forall r :: r in w.relays ==> SafeRelay(w.issued, w.relays[r]))
    && (forall m :: m in w.toRelays ==> SafeCommand(w.issued, m))
    && (forall m :: m in w.toClients ==> SafeMessage(w.issued, w.accepted, m))
    && (forall a :: a in w.accepted ==> SafeAccept(w.issued, a))
    && (forall i :: i in w.issued ==> i.version <= ClockAt(w, i.slot.source))
  }

  // ---- every step keeps it ------------------------------------------------------------------

  lemma ClientGrows(issued: set<Issue>, issued': set<Issue>, accepted: set<Accept>, accepted': set<Accept>, clock: nat, clock': nat, own: NodeSession, m: C.LocalMap)
    requires SafeClient(issued, accepted, clock, own, m) && issued <= issued' && accepted <= accepted' && clock <= clock'
    ensures SafeClient(issued', accepted', clock', own, m)
  {
  }

  lemma SyncKeepsSlots(issued: set<Issue>, accepted: set<Accept>, clock: nat, own: NodeSession, m: C.LocalMap, now: nat, force: bool, order: seq<SlotId>)
    requires SafeClient(issued, accepted, clock, own, m)
    ensures var (slots, out) := C.SyncSlots(m.slots, now, force, order);
      && SafeClient(issued, accepted, clock, own, m.(slots := slots))
      && (forall o :: o in out ==> o.ToRelay? && SafeCommand(issued, ToRelay(own, o.cmd)))
  {
    var (slots, out) := C.SyncSlots(m.slots, now, force, order);
    C.SyncSlotsFacts(m.slots, now, force, order);
    forall id | id in slots ensures SafeClientSlot(issued, clock, own, id, slots[id]) && AckedSlot(accepted, id, slots[id]) {
      assert C.SameButSync(m.slots[id], slots[id]);
      assert SafeClientSlot(issued, clock, own, id, m.slots[id]) && AckedSlot(accepted, id, m.slots[id]);
    }
    forall o | o in out ensures SafeCommand(issued, ToRelay(own, o.cmd)) {
      CommandIsSafe(issued, accepted, clock, own, m, o.cmd);
    }
  }

  lemma CommandIsSafe(issued: set<Issue>, accepted: set<Accept>, clock: nat, own: NodeSession, m: C.LocalMap, cmd: ClientCommand)
    requires SafeClient(issued, accepted, clock, own, m) && C.CommandOf(m.slots, cmd)
    ensures SafeCommand(issued, ToRelay(own, cmd))
  {
  }

  /** What a step of a client must establish. */
  predicate SafeReply(issued: set<Issue>, accepted: set<Accept>, clock: nat, own: NodeSession, reply: C.Reply) {
    && SafeClient(issued, accepted, clock, own, reply.state)
    && (forall o :: o in reply.out && o.ToRelay? ==> SafeCommand(issued, ToRelay(own, o.cmd)))
    && (reply.cmd.Some? ==> SafeCommand(issued, ToRelay(own, reply.cmd.value)))
  }

  lemma ClientTickSafe(issued: set<Issue>, accepted: set<Accept>, clock: nat, own: NodeSession, m: C.LocalMap, now: nat, order: seq<SlotId>)
    requires SafeClient(issued, accepted, clock, own, m)
    ensures SafeReply(issued, accepted, clock, own, C.OnTick(m, now, order))
  {
    SyncKeepsSlots(issued, accepted, clock, own, m, now, false, order);
  }

  lemma ControlSafe(issued: set<Issue>, accepted: set<Accept>, clock: nat, own: NodeSession, m: C.LocalMap, now: nat, actor: Actor, control: C.MapControl, order: seq<SlotId>)
    requires SafeClient(issued, accepted, clock, own, m) && now <= clock
    requires control.SetKey? ==> Issue(SlotId(control.key, own), now, control.data) in issued
    ensures SafeReply(issued, accepted, clock, own, C.OnControl(m, now, actor, control, order))
  {
    var reply := C.OnControl(m, now, actor, control, order);
    RestoreIsLocal(m, actor, true, order);
    RestoreIsLocal(m, actor, false, order);
    if control.SetKey? {
      var id := SlotId(control.key, own);
      assert VersionIssued(issued, id, now);
    }
  }

  lemma RestoreIsLocal(m: C.LocalMap, actor: Actor, onlyLocal: bool, order: seq<SlotId>)
    ensures forall o :: o in C.Restore(m, actor, onlyLocal, order) ==> o.ToActor?
    decreases |order|
  {
  }

  lemma ReceiveSafe(issued: set<Issue>, accepted: set<Accept>, clock: nat, own: NodeSession, m: C.LocalMap, now: nat, msg: ToClient, order: seq<SlotId>)
    requires SafeClient(issued, accepted, clock, own, m)
    requires SafeMessage(issued, accepted, msg) && msg.to.node == own.node
    ensures SafeReply(issued, accepted, clock, own, C.OnServer(m, now, msg.from, msg.event, order))
  {
    if msg.event.SubOk? {
      SyncKeepsSlots(issued, accepted, clock, own, m, now, true, order);
    } else if msg.event.SetOk? || msg.event.DelOk? {
      OkSafe(issued, accepted, clock, own, m, now, msg, order);
    }
  }

  lemma OkSafe(issued: set<Issue>, accepted: set<Accept>, clock: nat, own: NodeSession, m: C.LocalMap, now: nat, msg: ToClient, order: seq<SlotId>)
    requires SafeClient(issued, accepted, clock, own, m) && (msg.event.SetOk? || msg.event.DelOk?)
    requires SafeMessage(issued, accepted, msg) && msg.to.node == own.node
    ensures SafeReply(issued, accepted, clock, own, C.OnServer(m, now, msg.from, msg.event, order))
  {
  }

  /** What a step of a relay must establish. */
  predicate SafeRelayReply(issued: set<Issue>, reply: S.Reply) {
    && SafeRelay(issued, reply.state)
    && (forall a :: a in reply.out ==> SafePublished(issued, a.event))
  }

  lemma RelayTickSafe(issued: set<Issue>, m: S.RemoteMap, now: nat, o: S.Orders)
    requires SafeRelay(issued, m)
    ensures SafeRelayReply(issued, S.OnTick(m, now, o))
  {
    S.ResendFacts(m.events, now, o.events);
  }

  lemma RelayReceiveSafe(issued: set<Issue>, m: S.RemoteMap, now: nat, msg: ToRelay, o: S.Orders)
    requires SafeRelay(issued, m) && SafeCommand(issued, msg)
    ensures SafeRelayReply(issued, S.OnClient(m, now, msg.from, msg.cmd, o))
  {
    if msg.cmd.Sub? {
      SubSafe(issued, m, now, msg, o);
    }
  }

  lemma SubSafe(issued: set<Issue>, m: S.RemoteMap, now: nat, msg: ToRelay, o: S.Orders)
    requires SafeRelay(issued, m) && msg.cmd.Sub?
    ensures SafeRelayReply(issued, S.OnClient(m, now, msg.from, msg.cmd, o))
  {
    S.FireSubEventsFacts(m.slots, m.events, now, msg.from, o.slots);
    forall e | S.HeldEvent(m.slots, e) ensures SafePublished(issued, e) {
      assert SafeRelaySlot(issued, e.slot, m.slots[e.slot]);
    }
  }

  /** An acceptance is recorded for exactly the replies that acknowledge, and of values that were issued. */
  lemma AcceptSafe(issued: set<Issue>, m: S.RemoteMap, a: Action)
    requires SafeRelay(issued, m) && a.RelayReceive? && SafeCommand(issued, a.packet)
    ensures var reply := RelayStep(m, a);
      && (forall x :: x in Accepted(a, reply) ==> SafeAccept(issued, x))
      && (reply.event.Some? ==> SafeMessage(issued, Accepted(a, reply), ToClient(a.relay, a.packet.from, reply.event.value)))
  {
  }

  lemma MessageGrows(issued: set<Issue>, issued': set<Issue>, accepted: set<Accept>, accepted': set<Accept>, msg: ToClient)
    requires SafeMessage(issued, accepted, msg) && issued <= issued' && accepted <= accepted'
    ensures SafeMessage(issued', accepted', msg)
  {
  }

  lemma RelayGrows(issued: set<Issue>, issued': set<Issue>, m: S.RemoteMap)
    requires SafeRelay(issued, m) && issued <= issued'
    ensures SafeRelay(issued', m)
  {
  }

  lemma ClientStepSafe(w: World, a: Action)
    requires Inv(w) && Enabled(w, a) && OnClientSide(a)
    ensures SafeReply(w.issued + Issued(a), w.accepted, a.now, a.client, ClientStep(ClientAt(w, a.client), a))
  {
    var m := ClientAt(w, a.client);
    var issued := w.issued + Issued(a);
    ClientGrows(w.issued, issued, w.accepted, w.accepted, ClockAt(w, a.client), a.now, a.client, m);
    match a
    case ClientTick(c, now, order) => ClientTickSafe(issued, w.accepted, a.now, c, m, now, order);
    case Control(c, now, actor, control, order) => ControlSafe(issued, w.accepted, a.now, c, m, now, actor, control, order);
    case ClientReceive(c, now, msg, order) => ReceiveSafe(issued, w.accepted, a.now, c, m, now, msg, order);
  }

  /** A client's new state, commands and issues join a safe world. */
  lemma ClientJoins(w: World, now: nat, c: NodeSession, m: C.LocalMap, commands: set<ToRelay>, issues: set<Issue>)
    requires Inv(w) && ClockAt(w, c) <= now && SafeClient(w.issued + issues, w.accepted, now, c, m)
    requires forall x :: x in commands ==> SafeCommand(w.issued + issues, x)
    requires forall i :: i in issues ==> i.slot.source == c && i.version <= now
    ensures Inv(w.(clocks := w.clocks[c := now], clients := w.clients[c := m], toRelays := w.toRelays + commands, issued := w.issued + issues))
  {
    var issued := w.issued + issues;
    forall d | d in w.clients && d != c ensures SafeClient(issued, w.accepted, ClockAt(w, d), d, w.clients[d]) {
      ClientGrows(w.issued, issued, w.accepted, w.accepted, ClockAt(w, d), ClockAt(w, d), d, w.clients[d]);
    }
    forall r | r in w.relays ensures SafeRelay(issued, w.relays[r]) { RelayGrows(w.issued, issued, w.relays[r]); }
    forall x | x in w.toRelays ensures SafeCommand(issued, x) { assert SafeCommand(w.issued, x); }
    forall x | x in w.toClients ensures SafeMessage(issued, w.accepted, x) { MessageGrows(w.issued, issued, w.accepted, w.accepted, x); }
    forall x | x in w.accepted ensures SafeAccept(issued, x) { assert SafeAccept(w.issued, x); }
  }

  lemma CommandsSafe(issued: set<Issue>, accepted: set<Accept>, clock: nat, own: NodeSession, reply: C.Reply)
    requires SafeReply(issued, accepted, clock, own, reply)
    ensures forall x :: x in Commands(own, reply) ==> SafeCommand(issued, x)
  {
  }

  lemma ClientStepKeepsInv(w: World, a: Action)
    requires Inv(w) && Enabled(w, a) && OnClientSide(a)
    ensures Inv(Step(w, a))
  {
    var reply := ClientStep(ClientAt(w, a.client), a);
    ClientStepSafe(w, a);
    CommandsSafe(w.issued + Issued(a), w.accepted, a.now, a.client, reply);
    ClientJoins(w, a.now, a.client, reply.state, Commands(a.client, reply), Issued(a));
  }

  function AnswerTo(a: Action): Option<NodeSession> { if a.RelayReceive? then Some(a.packet.from) else None }

  lemma RelayStepSafe(issued: set<Issue>, m: S.RemoteMap, a: Action)
    requires SafeRelay(issued, m) && !OnClientSide(a) && (a.RelayReceive? ==> SafeCommand(issued, a.packet))
    ensures var reply := RelayStep(m, a);
      && SafeRelay(issued, reply.state)
      && (forall x :: x in Accepted(a, reply) ==> SafeAccept(issued, x))
      && (forall x :: x in Events(a.relay, AnswerTo(a), reply) ==> SafeMessage(issued, Accepted(a, reply), x))
  {
    var reply := RelayStep(m, a);
    if a.RelayTick? {
      RelayTickSafe(issued, m, a.now, a.orders);
    } else {
      RelayReceiveSafe(issued, m, a.now, a.packet, a.orders);
      AcceptSafe(issued, m, a);
    }
    forall x | x in Events(a.relay, AnswerTo(a), reply) ensures SafeMessage(issued, Accepted(a, reply), x) {
      EventIsSafe(issued, a, reply, x);
    }
  }

  lemma EventIsSafe(issued: set<Issue>, a: Action, reply: S.Reply, x: ToClient)
    requires !OnClientSide(a) && SafeRelayReply(issued, reply) && x in Events(a.relay, AnswerTo(a), reply)
    requires a.RelayReceive? && reply.event.Some? ==> SafeMessage(issued, Accepted(a, reply), ToClient(a.relay, a.packet.from, reply.event.value))
    ensures SafeMessage(issued, Accepted(a, reply), x)
  {
  }

  /** A relay's new state, messages and acceptances join a safe world. */
  lemma RelayJoins(w: World, now: nat, r: NodeSession, m: S.RemoteMap, events: set<ToClient>, accepts: set<Accept>)
    requires Inv(w) && ClockAt(w, r) <= now && SafeRelay(w.issued, m)
    requires forall x :: x in accepts ==> SafeAccept(w.issued, x)
    requires forall x :: x in events ==> SafeMessage(w.issued, accepts, x)
    ensures Inv(w.(clocks := w.clocks[r := now], relays := w.relays[r := m], toClients := w.toClients + events, accepted := w.accepted + accepts))
  {
  }

  lemma RelayStepKeepsInv(w: World, a: Action)
    requires Inv(w) && Enabled(w, a) && !OnClientSide(a)
    ensures Inv(Step(w, a))
  {
    var m := RelayAt(w, a.relay);
    var reply := RelayStep(m, a);
    RelayStepSafe(w.issued, m, a);
    RelayJoins(w, a.now, a.relay, reply.state, Events(a.relay, AnswerTo(a), reply), Accepted(a, reply));
  }

  lemma {:induction false} EveryRunKeepsInv(actions: seq<Action>)
    ensures Inv(Run(actions))
  {
    if actions != [] {
      var w := Run(actions[..|actions| - 1]);
      var a := actions[|actions| - 1];
      EveryRunKeepsInv(actions[..|actions| - 1]);
      if Enabled(w, a) {
        if OnClientSide(a) { ClientStepKeepsInv(w, a); } else { RelayStepKeepsInv(w, a); }
      }
    }
  }

  // ---- the theorems -------------------------------------------------------------------------

  /** A version and value of a slot is present somewhere: in a relay, in a client, or in a message. */
  ghost predicate Holds(w: World, id: SlotId, version: nat, data: Bytes) {
    || (exists r :: r in w.relays && RelayHolds(w.relays[r], id, version, data))
    || (exists c :: c in w.clients && ClientHolds(w.clients[c], id, version, data))
    || (exists m :: m in w.toRelays && m.cmd == Set(id.key, version, data) && m.from == id.source)
    || (exists m :: m in w.toClients && m.event == OnSet(id, version, data))
  }

  predicate RelayHolds(m: S.RemoteMap, id: SlotId, version: nat, data: Bytes) {
    || (id in m.slots && m.slots[id].Held? && m.slots[id].version == version && m.slots[id].data == data)
    || (exists k :: k in m.events && m.events[k].event == OnSet(id, version, data))
  }

  predicate ClientHolds(m: C.LocalMap, id: SlotId, version: nat, data: Bytes) {
    id in m.slots && !m.slots[id].Unspecific? && m.slots[id].version == version && m.slots[id].value == Some(data)
  }

  /** Everything held anywhere, in any run, was issued by a Set at its source. */
  lemma EverythingHeldWasIssued(actions: seq<Action>, id: SlotId, version: nat, data: Bytes)
    requires Holds(Run(actions), id, version, data)
    ensures Issue(id, version, data) in Run(actions).issued
  {
    var w := Run(actions);
    EveryRunKeepsInv(actions);
    if r :| r in w.relays && RelayHolds(w.relays[r], id, version, data) {
      assert SafeRelay(w.issued, w.relays[r]);
      if id in w.relays[r].slots { assert SafeRelaySlot(w.issued, id, w.relays[r].slots[id]); }
    } else if c :| c in w.clients && ClientHolds(w.clients[c], id, version, data) {
      assert SafeClientSlot(w.issued, ClockAt(w, c), c, id, w.clients[c].slots[id]);
    }
  }

  /** The record of issued values is exactly the Sets of the run. */
  lemma {:induction false} IssuedMeansSet(actions: seq<Action>, i: Issue)
    requires i in Run(actions).issued
    ensures exists k :: 0 <= k < |actions| && i in Issued(actions[k])
  {
    var last := |actions| - 1;
    if i !in Issued(actions[last]) {
      IssuedMeansSet(actions[..last], i);
      var k :| 0 <= k < last && i in Issued(actions[..last][k]);
      assert actions[k] == actions[..last][k];
    }
  }

  /** A source never sets two values of a key under one time. */
  predicate DistinctSets(issued: set<Issue>) {
    forall i, j :: i in issued && j in issued && i.slot == j.slot && i.version == j.version ==> i.data == j.data
  }

  /** With distinct times, a slot's version determines its value everywhere. */
  lemma SameVersionSameData(actions: seq<Action>, id: SlotId, version: nat, data: Bytes, data': Bytes)
    requires DistinctSets(Run(actions).issued)
    requires Holds(Run(actions), id, version, data) && Holds(Run(actions), id, version, data')
    ensures data == data'
  {
    EverythingHeldWasIssued(actions, id, version, data);
    EverythingHeldWasIssued(actions, id, version, data');
  }

  /** No node sets a key twice under one time, whatever its sessions. */
  predicate DistinctAtNode(issued: set<Issue>) {
    forall i, j :: i in issued && j in issued && i.slot.key == j.slot.key && i.slot.source.node == j.slot.source.node && i.version == j.version ==> i == j
  }

  predicate BelievedSynced(m: C.LocalMap, id: SlotId) { id in m.slots && m.slots[id].Local? && !m.slots[id].syncing }

  /** Some relay accepted the slot with exactly this version and content. */
  ghost predicate AcceptedAs(accepted: set<Accept>, id: SlotId, slot: C.MapSlot)
    requires slot.Local?
  {
    exists relay :: Accept(relay, id, slot.version, slot.value) in accepted
  }

  /** Every slot a client believes synced was accepted by some relay with exactly its version and its content. */
  ghost predicate AcksSound(w: World) {
    forall c, id :: BelievedSynced(ClientAt(w, c), id) ==> AcceptedAs(w.accepted, id, ClientAt(w, c).slots[id])
  }

  lemma AcknowledgedMeansAccepted(actions: seq<Action>, c: NodeSession, id: SlotId)
    requires DistinctAtNode(Run(actions).issued)
    requires BelievedSynced(ClientAt(Run(actions), c), id)
    ensures AcceptedAs(Run(actions).accepted, id, ClientAt(Run(actions), c).slots[id])
  {
    var w := Run(actions);
    EveryRunKeepsInv(actions);
    var slot := w.clients[c].slots[id];
    assert SafeClientSlot(w.issued, ClockAt(w, c), c, id, slot) && AckedSlot(w.accepted, id, slot);
    var a :| a in w.accepted && a.slot.key == id.key && a.slot.source.node == id.source.node && a.version == slot.version && a.content.Some? == slot.value.Some?;
    assert SafeAccept(w.issued, a);
    var own :| own in w.issued && own.slot == id && own.version == slot.version;
    var theirs :| theirs in w.issued && theirs.slot == a.slot && theirs.version == a.version;
    assert own == theirs && a.slot == id;
    assert Accept(a.relay, id, slot.version, slot.value) in w.accepted;
  }

  /** What an acceptance means at the relay: it then holds the value, or nothing for that slot. */
  lemma AcceptedIsStored(w: World, a: Action, x: Accept)
    requires Enabled(w, a) && a.RelayReceive? && x in Step(w, a).accepted && x !in w.accepted
    ensures var slot := S.SlotOf(Step(w, a).relays[x.relay], x.slot);
      x.relay == a.relay && match x.content case Some(data) => slot.Held? && slot.data == data && slot.version == x.version case None => slot.Unspecific?
    ensures x.content.None? ==> var before := S.SlotOf(RelayAt(w, x.relay), x.slot); before.Held? && before.version == x.version
  {
  }

  predicate RelayVersionKept(slot: S.MapSlot, slot': S.MapSlot) {
    slot.Held? && slot'.Held? ==> slot.version <= slot'.version
  }

  predicate ClientVersionKept(slot: C.MapSlot, slot': C.MapSlot) {
    !slot.Unspecific? && !slot'.Unspecific? ==> slot.version <= slot'.version
  }

  /** While a slot stays occupied its version never goes down, at relays and at clients. */
  lemma VersionsNeverDecrease(actions: seq<Action>, a: Action, id: SlotId, n: NodeSession)
    ensures RelayVersionKept(S.SlotOf(RelayAt(Run(actions), n), id), S.SlotOf(RelayAt(Step(Run(actions), a), n), id))
    ensures ClientVersionKept(C.SlotOf(ClientAt(Run(actions), n), id), C.SlotOf(ClientAt(Step(Run(actions), a), n), id))
  {
    EveryRunKeepsInv(actions);
    RelayStepVersions(Run(actions), a, id, n);
    ClientStepVersions(Run(actions), a, id, n);
  }

  lemma RelayStepVersions(w: World, a: Action, id: SlotId, n: NodeSession)
    ensures RelayVersionKept(S.SlotOf(RelayAt(w, n), id), S.SlotOf(RelayAt(Step(w, a), n), id))
  {
    if !OnClientSide(a) { RelayVersions(RelayAt(w, a.relay), a, id); }
  }

  lemma ClientStepVersions(w: World, a: Action, id: SlotId, n: NodeSession)
    requires Inv(w)
    ensures ClientVersionKept(C.SlotOf(ClientAt(w, n), id), C.SlotOf(ClientAt(Step(w, a), n), id))
  {
    if Enabled(w, a) && OnClientSide(a) {
      VersionBound(w, a.client);
      ClientVersions(ClientAt(w, a.client), a, ClockAt(w, a.client), id);
    }
  }

  lemma RelayVersions(m: S.RemoteMap, a: Action, id: SlotId)
    requires !OnClientSide(a)
    ensures RelayVersionKept(S.SlotOf(m, id), S.SlotOf(RelayStep(m, a).state, id))
  {
  }

  predicate VersionsBounded(m: C.LocalMap, clock: nat) {
    forall k :: k in m.slots && k.source == m.session && !m.slots[k].Unspecific? ==> m.slots[k].version <= clock
  }

  lemma VersionBound(w: World, c: NodeSession)
    requires Inv(w)
    ensures VersionsBounded(ClientAt(w, c), ClockAt(w, c))
  {
  }

  lemma ClientVersions(m: C.LocalMap, a: Action, clock: nat, id: SlotId)
    requires OnClientSide(a) && clock <= a.now && VersionsBounded(m, clock)
    ensures ClientVersionKept(C.SlotOf(m, id), C.SlotOf(ClientStep(m, a).state, id))
  {
    if a.ClientTick? {
      C.SyncSlotsFacts(m.slots, a.now, false, a.order);
    } else if a.ClientReceive? {
      C.SyncSlotsFacts(m.slots, a.now, true, a.order);
    }
  }

  // ---- why the times must differ ------------------------------------------------------------

  lemma RunAppend(actions: seq<Action>, a: Action)
    ensures Run(actions + [a]) == Step(Run(actions), a)
  {
  }

  function SetAt(c: NodeSession, key: nat, now: nat, data: Bytes, order: seq<SlotId>): Action {
    Control(c, now, Actor.Service(0), C.SetKey(key, data), order)
  }

  /** Nobody's clock is past `t`. */
  predicate Early(w: World, t: nat) { forall n :: n in w.clocks ==> w.clocks[n] <= t }

  lemma SetReply(m: C.LocalMap, c: NodeSession, key: nat, t: nat, data: Bytes, order: seq<SlotId>)
    requires m == C.LocalMap(c, m.slots, [], C.NotSub) && m.slots.Keys <= {SlotId(key, c)}
    ensures var reply := C.OnControl(m, t, Actor.Service(0), C.SetKey(key, data), order);
      reply.state == OneValue(c, key, t, data, true) && reply.cmd == Some(Set(key, t, data))
  {
    assert m.slots[SlotId(key, c) := C.Local(Some(data), t, true, t)] == map[SlotId(key, c) := C.Local(Some(data), t, true, t)];
  }

  /** A client's first or repeated Set of a key. */
  lemma SetStep(w: World, c: NodeSession, key: nat, t: nat, data: Bytes, order: seq<SlotId>)
    requires Early(w, t) && Enumerates(order, ClientAt(w, c).slots.Keys)
    requires ClientAt(w, c) == C.LocalMap(c, ClientAt(w, c).slots, [], C.NotSub) && ClientAt(w, c).slots.Keys <= {SlotId(key, c)}
    ensures var w' := Step(w, SetAt(c, key, t, data, order));
      && Early(w', t) && w'.relays == w.relays && w'.accepted == w.accepted
      && ClientAt(w', c) == OneValue(c, key, t, data, true)
      && (forall n :: n != c ==> ClientAt(w', n) == ClientAt(w, n))
      && w.toRelays <= w'.toRelays && ToRelay(c, Set(key, t, data)) in w'.toRelays
      && w'.issued == w.issued + {Issue(SlotId(key, c), t, data)}
  {
    SetReply(ClientAt(w, c), c, key, t, data, order);
  }

  /** Two Sets of a key at one node under one time, by one session or by two. */
  function TwoSets(c: NodeSession, d: NodeSession, key: nat, t: nat, x: Bytes, y: Bytes): seq<Action> {
    [SetAt(c, key, t, x, []), SetAt(d, key, t, y, if c == d then [SlotId(key, c)] else [])]
  }

  lemma OneSetFacts(c: NodeSession, key: nat, t: nat, x: Bytes)
    ensures var w := Run([SetAt(c, key, t, x, [])]);
      && Early(w, t) && w.relays == map[] && w.accepted == {}
      && ClientAt(w, c) == OneValue(c, key, t, x, true) && (forall n :: n != c ==> ClientAt(w, n) == C.NewLocalMap(n))
      && ToRelay(c, Set(key, t, x)) in w.toRelays
      && w.issued == {Issue(SlotId(key, c), t, x)}
  {
    var a := SetAt(c, key, t, x, []);
    RunAppend([], a);
    assert [] + [a] == [a];
    SetStep(Start, c, key, t, x, []);
  }

  lemma TwoSetsFacts(c: NodeSession, d: NodeSession, key: nat, t: nat, x: Bytes, y: Bytes)
    ensures var w := Run(TwoSets(c, d, key, t, x, y));
      && Early(w, t) && w.relays == map[] && w.accepted == {}
      && ClientAt(w, d) == OneValue(d, key, t, y, true)
      && ToRelay(c, Set(key, t, x)) in w.toRelays
      && w.issued == {Issue(SlotId(key, c), t, x), Issue(SlotId(key, d), t, y)}
  {
    var both := TwoSets(c, d, key, t, x, y);
    RunAppend([both[0]], both[1]);
    assert [both[0]] + [both[1]] == both;
    OneSetFacts(c, key, t, x);
    var w1 := Run([both[0]]);
    assert c == d ==> ClientAt(w1, c).slots.Keys == {SlotId(key, c)};
    SetStep(w1, d, key, t, y, both[1].order);
  }

  /** A relay that holds nothing accepts a Set. */
  lemma FirstSetAccepted(w: World, c: NodeSession, r: NodeSession, key: nat, t: nat, x: Bytes)
    requires Early(w, t) && w.relays == map[] && w.accepted == {} && ToRelay(c, Set(key, t, x)) in w.toRelays
    ensures var w' := Step(w, RelayReceive(r, t, ToRelay(c, Set(key, t, x)), S.Orders([], [], [])));
      && Early(w', t) && w'.clients == w.clients && w'.issued == w.issued
      && ToClient(r, c, SetOk(key, t)) in w'.toClients
      && w'.accepted == {Accept(r, SlotId(key, c), t, Some(x))}
  {
    var a := RelayReceive(r, t, ToRelay(c, Set(key, t, x)), S.Orders([], [], []));
    EmptyRelayAccepts(r, c, key, t, x);
    assert Enabled(w, a);
    var reply := RelayStep(RelayAt(w, r), a);
    assert ToClient(r, c, SetOk(key, t)) in Events(r, AnswerTo(a), reply);
    assert Accepted(a, reply) == {Accept(r, SlotId(key, c), t, Some(x))};
  }

  lemma EmptyRelayAccepts(r: NodeSession, c: NodeSession, key: nat, t: nat, x: Bytes)
    ensures S.EnumeratesMap(S.Orders([], [], []), S.NewRemoteMap(r))
    ensures S.OnClient(S.NewRemoteMap(r), t, c, Set(key, t, x), S.Orders([], [], [])).event == Some(SetOk(key, t))
  {
  }

  /** A client with one value of its own, set at time `t`. */
  function OneValue(d: NodeSession, key: nat, t: nat, y: Bytes, syncing: bool): C.LocalMap {
    C.LocalMap(d, map[SlotId(key, d) := C.Local(Some(y), t, syncing, t)], [], C.NotSub)
  }

  lemma AckEnabled(w: World, msg: ToClient, d: NodeSession, key: nat, t: nat, y: Bytes)
    requires Early(w, t) && msg in w.toClients && msg.to.node == d.node && ClientAt(w, d) == OneValue(d, key, t, y, true)
    ensures Enabled(w, ClientReceive(d, t, msg, [SlotId(key, d)]))
  {
    assert ClientAt(w, d).slots.Keys == {SlotId(key, d)};
  }

  /** A client that gets an acknowledgement of its version believes its slot synced. */
  lemma AckTaken(w: World, msg: ToClient, d: NodeSession, key: nat, t: nat, y: Bytes)
    requires Early(w, t) && msg in w.toClients && msg.to.node == d.node && msg.event == SetOk(key, t) && ClientAt(w, d) == OneValue(d, key, t, y, true)
    ensures var w' := Step(w, ClientReceive(d, t, msg, [SlotId(key, d)]));
      ClientAt(w', d) == OneValue(d, key, t, y, false) && w'.accepted == w.accepted && w'.issued == w.issued
  {
    var a := ClientReceive(d, t, msg, [SlotId(key, d)]);
    AckEnabled(w, msg, d, key, t, y);
    SyncedSlot(msg.from, d, key, t, y);
    ClientStepEffect(w, a, ClientStep(ClientAt(w, d), a));
  }

  /** What a step of a client leaves as it was. */
  lemma ClientStepEffect(w: World, a: Action, reply: C.Reply)
    requires Enabled(w, a) && OnClientSide(a) && reply == ClientStep(ClientAt(w, a.client), a)
    ensures var w' := Step(w, a);
      && ClientAt(w', a.client) == reply.state && w'.accepted == w.accepted && w'.issued == w.issued + Issued(a)
      && w'.relays == w.relays && w'.toRelays == w.toRelays + Commands(a.client, reply)
  {
  }

  lemma SyncedSlot(from: NodeSession, d: NodeSession, key: nat, t: nat, y: Bytes)
    ensures C.OnServer(OneValue(d, key, t, y, true), t, from, SetOk(key, t), [SlotId(key, d)]).state == OneValue(d, key, t, y, false)
  {
  }

  /** Two different Sets of a key at one node under one time: the acknowledgement of the first is taken for the second,
      which no relay ever accepted. */
  lemma SameTimeSetsBreakAcks(c: NodeSession, d: NodeSession, key: nat, t: nat, x: Bytes, y: Bytes) returns (actions: seq<Action>)
    requires c.node == d.node && (c != d || x != y)
    ensures !AcksSound(Run(actions))
    ensures Run(actions).issued == {Issue(SlotId(key, c), t, x), Issue(SlotId(key, d), t, y)}
  {
    var before := TwoSets(c, d, key, t, x, y);
    var accept := RelayReceive(c, t, ToRelay(c, Set(key, t, x)), S.Orders([], [], []));
    var msg := ToClient(c, c, SetOk(key, t));
    var taken := ClientReceive(d, t, msg, [SlotId(key, d)]);
    TwoSetsFacts(c, d, key, t, x, y);
    FirstSetAccepted(Run(before), c, c, key, t, x);
    RunAppend(before, accept);
    AckTaken(Run(before + [accept]), msg, d, key, t, y);
    RunAppend(before + [accept], taken);
    assert BelievedSynced(OneValue(d, key, t, y, false), SlotId(key, d));
    actions := before + [accept] + [taken];
  }

  lemma FewerIssues(issued: set<Issue>, all: set<Issue>)
    requires DistinctAtNode(all) && issued <= all
    ensures DistinctAtNode(issued)
  {
  }

  /** When acknowledgements can be trusted: the runs that issue only values from a given set are all sound exactly when
      no node sets a key twice under one time in that set. */
  lemma AcksSoundIffDistinct(all: set<Issue>)
    ensures (forall actions :: Run(actions).issued <= all ==> AcksSound(Run(actions))) <==> DistinctAtNode(all)
  {
    if DistinctAtNode(all) {
      forall actions | Run(actions).issued <= all ensures AcksSound(Run(actions)) {
        FewerIssues(Run(actions).issued, all);
        forall c, id | BelievedSynced(ClientAt(Run(actions), c), id)
          ensures AcceptedAs(Run(actions).accepted, id, ClientAt(Run(actions), c).slots[id])
        {
          AcknowledgedMeansAccepted(actions, c, id);
        }
      }
    } else {
      var i, j :| i in all && j in all && i.slot.key == j.slot.key && i.slot.source.node == j.slot.source.node && i.version == j.version && i != j;
      var actions := SameTimeSetsBreakAcks(i.slot.source, j.slot.source, i.slot.key, i.version, i.data, j.data);
      assert i == Issue(SlotId(i.slot.key, i.slot.source), i.version, i.data);
      assert j == Issue(SlotId(i.slot.key, j.slot.source), i.version, j.data);
    }
  }

  // ---- every relay and client of a network --------------------------------------------------

  function RelayInput(a: Action): L.Input
    requires !OnClientSide(a)
  {
    match a
    case RelayTick(_, now, orders) => L.Tick(now, orders)
    case RelayReceive(_, now, packet, orders) => L.Receive(now, packet.from, packet.cmd, orders)
  }

  /** What reached a relay in a run. */
  ghost function RelayInputs(actions: seq<Action>, r: NodeSession): seq<L.Input> {
    if actions == [] then []
    else
      var before, a := actions[..|actions| - 1], actions[|actions| - 1];
      RelayInputs(before, r) + if Enabled(Run(before), a) && !OnClientSide(a) && a.relay == r then [RelayInput(a)] else []
  }

  lemma RelayNext(r: NodeSession, inputs: seq<L.Input>, i: L.Input)
    ensures L.Run(r, inputs + [i]) == L.Handle(L.Run(r, inputs), i).state
  {
    assert (inputs + [i])[..|inputs|] == inputs;
  }

  lemma RelayStepAt(w: World, a: Action, r: NodeSession)
    ensures RelayAt(Step(w, a), r) == if Enabled(w, a) && !OnClientSide(a) && a.relay == r then L.Handle(RelayAt(w, r), RelayInput(a)).state else RelayAt(w, r)
  {
  }

  lemma {:induction false} RelayIsItsInputs(actions: seq<Action>, r: NodeSession)
    ensures RelayAt(Run(actions), r) == L.Run(r, RelayInputs(actions, r))
  {
    if actions != [] {
      var before, a := actions[..|actions| - 1], actions[|actions| - 1];
      RelayIsItsInputs(before, r);
      RelayStepAt(Run(before), a, r);
      if Enabled(Run(before), a) && !OnClientSide(a) && a.relay == r {
        RelayNext(r, RelayInputs(before, r), RelayInput(a));
      } else {
        assert RelayInputs(before, r) + [] == RelayInputs(before, r);
      }
    }
  }

  /** In every run of the network a relay holds for a slot the surviving Set of the highest version that reached it. */
  lemma RelayHoldsWinner(actions: seq<Action>, r: NodeSession, id: SlotId)
    ensures L.Holds(S.SlotOf(RelayAt(Run(actions), r), id), L.Puts(RelayInputs(actions, r), id))
  {
    RelayIsItsInputs(actions, r);
    L.SlotHoldsWinner(r, RelayInputs(actions, r), id);
  }

  function ClientInput(a: Action): K.Input
    requires OnClientSide(a)
  {
    match a
    case ClientTick(_, now, order) => K.Tick(now, order)
    case Control(_, now, actor, control, order) => K.Control(now, actor, control, order)
    case ClientReceive(_, now, msg, order) => K.Server(now, msg.from, msg.event, order)
  }

  ghost function ClientInputs(actions: seq<Action>, c: NodeSession): seq<K.Input> {
    if actions == [] then []
    else
      var before, a := actions[..|actions| - 1], actions[|actions| - 1];
      ClientInputs(before, c) + if Enabled(Run(before), a) && OnClientSide(a) && a.client == c then [ClientInput(a)] else []
  }

  lemma ClientNext(c: NodeSession, inputs: seq<K.Input>, i: K.Input)
    ensures K.Run(c, inputs + [i]) == K.Handle(K.Run(c, inputs), i).state
  {
    assert (inputs + [i])[..|inputs|] == inputs;
  }

  lemma ClientStepAt(w: World, a: Action, c: NodeSession)
    ensures ClientAt(Step(w, a), c) == if Enabled(w, a) && OnClientSide(a) && a.client == c then K.Handle(ClientAt(w, c), ClientInput(a)).state else ClientAt(w, c)
  {
  }

  lemma {:induction false} ClientIsItsInputs(actions: seq<Action>, c: NodeSession)
    ensures ClientAt(Run(actions), c) == K.Run(c, ClientInputs(actions, c))
  {
    if actions != [] {
      var before, a := actions[..|actions| - 1], actions[|actions| - 1];
      ClientIsItsInputs(before, c);
      ClientStepAt(Run(before), a, c);
      if Enabled(Run(before), a) && OnClientSide(a) && a.client == c {
        ClientNext(c, ClientInputs(before, c), ClientInput(a));
      } else {
        assert ClientInputs(before, c) + [] == ClientInputs(before, c);
      }
    }
  }

  /** And a client shows for a slot of another source the surviving OnSet of the highest version it learned. */
  lemma ClientShowsWinner(actions: seq<Action>, c: NodeSession, id: SlotId)
    requires id.source != c
    ensures K.Shows(C.SlotOf(ClientAt(Run(actions), c), id), K.Learned(c, ClientInputs(actions, c), id))
  {
    ClientIsItsInputs(actions, c);
    K.SlotShowsWinner(c, ClientInputs(actions, c), id);
  }

  /** Two Sets under one version end differently at the two sides: a relay keeps the later one, a client that learns both the
      earlier. */
  lemma EqualVersionsPart(r: NodeSession, c: NodeSession, puts: seq<L.Input>, learned: seq<K.Input>, id: SlotId, v: nat, x: Bytes, y: Bytes)
    requires x != y && id.source != c
    requires L.Puts(puts, id) == [Set(id.key, v, x), Set(id.key, v, y)] && K.Learned(c, learned, id) == [OnSet(id, v, x), OnSet(id, v, y)]
    ensures var (held, shown) := (S.SlotOf(L.Run(r, puts), id), C.SlotOf(K.Run(c, learned), id));
      held.Held? && held.data == y && C.Data(shown) == Some(x)
  {
    L.SlotHoldsWinner(r, puts, id);
    K.SlotShowsWinner(c, learned, id);
    var (p, e) := (L.Puts(puts, id), K.Learned(c, learned, id));
    assert L.Survives(p, 0) && L.Survives(p, 1) && K.Survives(e, 0) && K.Survives(e, 1);
  }
}
