/** The client side of a DHT map: the slots it sets itself, the slots it learned, and its subscription. */
module DhtClient {
  import opened Identity
  import opened Endpoints
  import opened DhtMessages

  const RESEND_MS: nat := 200
  const SYNC_MS: nat := 1500
  const UNSUB_TIMEOUT_MS: nat := 10_000

  // ---- one slot -----------------------------------------------------------------------------

  datatype MapSlot =
    | Unspecific
    | Remote(version: nat, value: Option<Bytes>)
    | Local(value: Option<Bytes>, version: nat, syncing: bool, lastSync: nat)

  function Data(slot: MapSlot): Option<Bytes> {
    if slot.Unspecific? then None else slot.value
  }

  function SlotSet(key: nat, now: nat, data: Bytes): (MapSlot, ClientCommand) {
    (Local(Some(data), now, true, now), Set(key, now, data))
  }

  function SlotDel(slot: MapSlot, key: nat, now: nat): (MapSlot, Option<ClientCommand>) {
    if slot.Local? then (Local(None, slot.version, true, now), Some(Del(key, slot.version))) else (slot, None)
  }

  function SlotSync(slot: MapSlot, key: nat, now: nat, force: bool): (MapSlot, Option<ClientCommand>) {
    if slot.Local? && ((slot.syncing && now >= slot.lastSync + RESEND_MS) || now >= slot.lastSync + SYNC_MS || force) then
      (slot.(lastSync := now), Some(if slot.value.Some? then Set(key, slot.version, slot.value.value) else Del(key, slot.version)))
    else (slot, None)
  }

  function SlotSetOk(slot: MapSlot, version: nat): MapSlot {
    if slot.Local? && slot.version == version && slot.value.Some? then slot.(syncing := false) else slot
  }

  function SlotDelOk(slot: MapSlot, version: nat): MapSlot {
    if slot.Local? && slot.version == version && slot.value.None? then slot.(syncing := false) else slot
  }

  /** The new slot, the acknowledgement if the event is not outdated, and whether the value changed. */
  function SlotOnSet(slot: MapSlot, id: SlotId, version: nat, data: Bytes): (MapSlot, Option<ClientCommand>, bool) {
    if slot.Unspecific? || (slot.Remote? && slot.version < version) then (Remote(version, Some(data)), Some(OnSetAck(id, version)), true)
    else if slot.Remote? && slot.version == version then (slot, Some(OnSetAck(id, version)), false)
    else (slot, None, false)
  }

  function SlotOnDel(slot: MapSlot, id: SlotId, version: nat): (MapSlot, Option<ClientCommand>) {
    if slot.Remote? && slot.version <= version then (Unspecific, Some(OnDelAck(id, version))) else (slot, None)
  }

  predicate ShouldCleanup(slot: MapSlot) {
    match slot
    case Unspecific => true
    case Remote(_, value) => value.None?
    case Local(value, _, syncing, _) => value.None? && !syncing
  }

  // ---- the map ------------------------------------------------------------------------------

  datatype SubState =
    | NotSub
    | Subscribing(id: nat, sentTs: nat)
    | Subscribed(id: nat, remote: NodeSession, syncTs: nat)
    | Unsubscribing(id: nat, startedAt: nat, locked: Option<NodeSession>, sentTs: nat)

  /** What a subscriber is told. The source is kept with its session here; the program shows its node only. */
  datatype MapEvent = SetEvent(slot: SlotId, data: Bytes) | DelEvent(slot: SlotId) | RelaySelected(node: NodeId)

  datatype Output = ToRelay(cmd: ClientCommand) | ToActor(actor: Actor, event: MapEvent)

  datatype MapControl = SetKey(key: nat, data: Bytes) | DelKey(key: nat) | Subscribe | Unsubscribe

  datatype LocalMap = LocalMap(session: NodeSession, slots: map<SlotId, MapSlot>, subscribers: seq<Actor>, sub: SubState)

  /** A handler's new map, the command it returns and the outputs it queues. */
  datatype Reply = Reply(state: LocalMap, cmd: Option<ClientCommand>, out: seq<Output>)

  function NewLocalMap(session: NodeSession): LocalMap { LocalMap(session, map[], [], NotSub) }

  function Fire(actors: seq<Actor>, event: MapEvent): (out: seq<Output>)
    ensures |out| == |actors|
  {
    seq(|actors|, i requires 0 <= i < |actors| => ToActor(actors[i], event))
  }

  function Queued(cmd: Option<ClientCommand>): seq<Output> { if cmd.Some? then [ToRelay(cmd.value)] else [] }

  /** Visits the slots in `order`, the order in which the map yields its keys. */
  function SyncSlots(slots: map<SlotId, MapSlot>, now: nat, force: bool, order: seq<SlotId>): (map<SlotId, MapSlot>, seq<Output>)
    decreases |order|
  {
    if order == [] then (slots, [])
    else if order[0] !in slots then SyncSlots(slots, now, force, order[1..])
    else
      var (slot, cmd) := SlotSync(slots[order[0]], order[0].key, now, force);
      var (rest, out) := SyncSlots(slots[order[0] := slot], now, force, order[1..]);
      (rest, Queued(cmd) + out)
  }

  /** The current data of the slots, own ones only for the first subscriber. */
  function Restore(m: LocalMap, actor: Actor, onlyLocal: bool, order: seq<SlotId>): seq<Output>
    decreases |order|
  {
    if order == [] then []
    else
      var id := order[0];
      var rest := Restore(m, actor, onlyLocal, order[1..]);
      if id in m.slots && !(onlyLocal && id.source != m.session) && Data(m.slots[id]).Some?
      then [ToActor(actor, SetEvent(id, Data(m.slots[id]).value))] + rest
      else rest
  }

  function Cleaned(slots: map<SlotId, MapSlot>): map<SlotId, MapSlot> {
    map id | id in slots && !ShouldCleanup(slots[id]) :: slots[id]
  }

  function TickSub(sub: SubState, now: nat): (SubState, seq<Output>) {
    match sub
    case NotSub => (sub, [])
    case Subscribing(id, sentTs) =>
      if now >= sentTs + RESEND_MS then (Subscribing(id, now), [ToRelay(Sub(id, None))]) else (sub, [])
    case Subscribed(id, remote, syncTs) =>
      if now >= syncTs + SYNC_MS then (Subscribed(id, remote, now), [ToRelay(Sub(id, Some(remote)))]) else (sub, [])
    case Unsubscribing(id, startedAt, locked, sentTs) =>
      if now >= startedAt + UNSUB_TIMEOUT_MS then (NotSub, [])
      else if now >= sentTs + RESEND_MS then (Unsubscribing(id, startedAt, locked, now), [ToRelay(Unsub(id))])
      else (sub, [])
  }

  function OnTick(m: LocalMap, now: nat, order: seq<SlotId>): Reply {
    var (sub, subOut) := TickSub(m.sub, now);
    var (slots, out) := SyncSlots(m.slots, now, false, order);
    Reply(m.(sub := sub, slots := Cleaned(slots)), None, subOut + out)
  }

  function SlotOf(m: LocalMap, id: SlotId): MapSlot { if id in m.slots then m.slots[id] else Unspecific }

  function Retain(s: seq<Actor>, a: Actor): seq<Actor> { Filter(s, x => x != a) }

  /** Unsubscribing the last actor outside these two states is the program's panic. */
  predicate CanUnsub(sub: SubState) { sub.Subscribed? || sub.Subscribing? }

  function LeaveSub(sub: SubState, now: nat): (SubState, Option<ClientCommand>) {
    match sub
    case Subscribed(id, remote, _) => (Unsubscribing(id, now, Some(remote), now), Some(Unsub(id)))
    case Subscribing(id, _) => (Unsubscribing(id, now, None, now), Some(Unsub(id)))
    case _ => (sub, None)
  }

  function OnControl(m: LocalMap, now: nat, actor: Actor, control: MapControl, order: seq<SlotId>): Reply {
    match control
    case SetKey(key, data) =>
      var id := SlotId(key, m.session);
      var (slot, cmd) := SlotSet(key, now, data);
      Reply(m.(slots := m.slots[id := slot]), Some(cmd), Fire(m.subscribers, SetEvent(id, data)))
    case DelKey(key) =>
      var id := SlotId(key, m.session);
      if id !in m.slots then Reply(m, None, [])
      else
        var (slot, cmd) := SlotDel(m.slots[id], key, now);
        Reply(m.(slots := m.slots[id := slot]), cmd, if cmd.Some? then Fire(m.subscribers, DelEvent(id)) else [])
    case Subscribe =>
      if actor in m.subscribers then Reply(m, None, [])
      else if m.subscribers == [] then
        Reply(m.(subscribers := [actor], sub := Subscribing(now, now)), Some(Sub(now, None)), Restore(m, actor, true, order))
      else Reply(m.(subscribers := m.subscribers + [actor]), None, Restore(m, actor, false, order))
    case Unsubscribe =>
      if actor !in m.subscribers then Reply(m, None, [])
      else
        var left := Retain(m.subscribers, actor);
        var (sub, cmd) := LeaveSub(m.sub, now);
        if left == [] then Reply(m.(subscribers := left, sub := sub), cmd, []) else Reply(m.(subscribers := left), None, [])
  }

  predicate Accepts(sub: SubState, remote: NodeSession) { sub.Subscribed? && sub.remote == remote }

  function OnSubOk(m: LocalMap, now: nat, remote: NodeSession, id: nat, order: seq<SlotId>): Reply {
    match m.sub
    case Subscribing(current, _) =>
      if current == id then Reply(m.(sub := Subscribed(id, remote, now)), None, Fire(m.subscribers, RelaySelected(remote.node)))
      else Reply(m, None, [])
    case Subscribed(current, before, _) =>
      if current != id then Reply(m, None, [])
      else if before.node != remote.node then
        var (slots, out) := SyncSlots(m.slots, now, true, order);
        Reply(m.(sub := Subscribed(id, remote, now), slots := slots), None, out + Fire(m.subscribers, RelaySelected(remote.node)))
      else Reply(m.(sub := Subscribed(id, remote, now)), None, [])
    case _ => Reply(m, None, [])
  }

  function OnServer(m: LocalMap, now: nat, remote: NodeSession, event: ServerEvent, order: seq<SlotId>): Reply {
    match event
    case SetOk(key, version) =>
      var id := SlotId(key, m.session);
      if id in m.slots then Reply(m.(slots := m.slots[id := SlotSetOk(m.slots[id], version)]), None, []) else Reply(m, None, [])
    case DelOk(key, version) =>
      var id := SlotId(key, m.session);
      if id in m.slots then Reply(m.(slots := m.slots[id := SlotDelOk(m.slots[id], version)]), None, []) else Reply(m, None, [])
    case SubOk(id) => OnSubOk(m, now, remote, id, order)
    case UnsubOk(id) =>
      if m.sub.Unsubscribing? && m.sub.id == id && (m.sub.locked.Some? ==> m.sub.locked.value == remote)
      then Reply(m.(sub := NotSub), None, []) else Reply(m, None, [])
    case OnSet(id, version, data) =>
      if !Accepts(m.sub, remote) then Reply(m, None, [])
      else
        var (slot, ack, updated) := SlotOnSet(SlotOf(m, id), id, version, data);
        Reply(m.(slots := m.slots[id := slot]), ack, if updated then Fire(m.subscribers, SetEvent(id, data)) else [])
    case OnDel(id, version) =>
      if !Accepts(m.sub, remote) then Reply(m, None, [])
      else
        var (slot, ack) := SlotOnDel(SlotOf(m, id), id, version);
        Reply(m.(slots := m.slots[id := slot]), ack, if ack.Some? then Fire(m.subscribers, DelEvent(id)) else [])
  }

  // ---- facts about the slots ----------------------------------------------------------------

  /** Resending changes nothing but the time of the last sync. */
  predicate SameButSync(slot: MapSlot, slot': MapSlot) {
    slot' == slot || (slot.Local? && slot'.Local? && slot' == slot.(lastSync := slot'.lastSync))
  }

  /** A command sent for a slot carries the slot's own version and content. */
  predicate CommandOf(slots: map<SlotId, MapSlot>, cmd: ClientCommand) {
    exists id :: id in slots && slots[id].Local? &&
      cmd == (if slots[id].value.Some? then Set(id.key, slots[id].version, slots[id].value.value) else Del(id.key, slots[id].version))
  }

  lemma {:induction false} SyncSlotsFacts(slots: map<SlotId, MapSlot>, now: nat, force: bool, order: seq<SlotId>)
    ensures var (slots', out) := SyncSlots(slots, now, force, order);
      && slots'.Keys == slots.Keys
      && (forall id :: id in slots ==> SameButSync(slots[id], slots'[id]))
      && (forall o :: o in out ==> o.ToRelay? && CommandOf(slots, o.cmd))
    decreases |order|
  {
    if order != [] {
      if order[0] !in slots {
        SyncSlotsFacts(slots, now, force, order[1..]);
      } else {
        var (slot, cmd) := SlotSync(slots[order[0]], order[0].key, now, force);
        var slots1 := slots[order[0] := slot];
        SyncSlotsFacts(slots1, now, force, order[1..]);
        assert cmd.Some? ==> CommandOf(slots, cmd.value);
        forall c | CommandOf(slots1, c) ensures CommandOf(slots, c) {
          CommandOfSame(slots, slots1, c);
        }
      }
    }
  }

  lemma CommandOfSame(slots: map<SlotId, MapSlot>, slots': map<SlotId, MapSlot>, cmd: ClientCommand)
    requires CommandOf(slots', cmd) && slots'.Keys == slots.Keys
    requires forall id :: id in slots ==> SameButSync(slots[id], slots'[id])
    ensures CommandOf(slots, cmd)
  {
  }
}
