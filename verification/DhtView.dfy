/** One client map under any sequence of controls, relay events and ticks: its subscription state, and what the
    events sent to a subscriber add up to. */
module DhtView {
  import opened Identity
  import opened Endpoints
  import opened DhtMessages
  import opened DhtClient

  datatype Action =
    | Tick(now: nat, order: seq<SlotId>)
    | Control(now: nat, actor: Actor, control: MapControl, order: seq<SlotId>)
    | Server(now: nat, remote: NodeSession, event: ServerEvent, order: seq<SlotId>)

  ghost function Handle(m: LocalMap, a: Action): Reply {
    if !Enumerates(a.order, m.slots.Keys) then Reply(m, None, [])
    else
      match a
      case Tick(now, order) => OnTick(m, now, order)
      case Control(now, actor, control, order) => OnControl(m, now, actor, control, order)
      case Server(now, remote, event, order) => OnServer(m, now, remote, event, order)
  }

  ghost function Run(session: NodeSession, actions: seq<Action>): LocalMap {
    if actions == [] then NewLocalMap(session) else Handle(Run(session, actions[..|actions| - 1]), actions[|actions| - 1]).state
  }

  // ---- the subscription ---------------------------------------------------------------------

  /** There are subscribers exactly while the map subscribes or is subscribed. */
  predicate SubscriptionMatches(m: LocalMap) {
    m.subscribers != [] <==> CanUnsub(m.sub)
  }

  lemma {:induction false} SubscriptionFollowsSubscribers(session: NodeSession, actions: seq<Action>)
    ensures SubscriptionMatches(Run(session, actions)) && Run(session, actions).session == session
  {
    if actions != [] {
      SubscriptionFollowsSubscribers(session, actions[..|actions| - 1]);
      StepMatches(Run(session, actions[..|actions| - 1]), actions[|actions| - 1]);
    }
  }

  lemma StepMatches(m: LocalMap, a: Action)
    requires SubscriptionMatches(m)
    ensures var m' := Handle(m, a).state; SubscriptionMatches(m') && m'.session == m.session
  {
    if a.Server? {
      ServerMatches(m, a.now, a.remote, a.event, a.order);
    }
  }

  lemma ServerMatches(m: LocalMap, now: nat, remote: NodeSession, event: ServerEvent, order: seq<SlotId>)
    ensures var m' := OnServer(m, now, remote, event, order).state;
      m'.session == m.session && m'.subscribers == m.subscribers && (CanUnsub(m'.sub) <==> CanUnsub(m.sub))
  {
  }

  /** The panic of unsubscribing the last actor in another state is never reached. */
  lemma LastUnsubscribeIsPossible(session: NodeSession, actions: seq<Action>, actor: Actor)
    requires var m := Run(session, actions); actor in m.subscribers && Retain(m.subscribers, actor) == []
    ensures CanUnsub(Run(session, actions).sub)
  {
    SubscriptionFollowsSubscribers(session, actions);
  }

  // ---- what a subscriber sees ---------------------------------------------------------------

  type View = map<SlotId, Bytes>

  function Seen(view: View, id: SlotId): Option<Bytes> { if id in view then Some(view[id]) else None }

  function ApplyEvent(view: View, event: MapEvent): View {
    match event
    case SetEvent(id, data) => view[id := data]
    case DelEvent(id) => view - {id}
    case RelaySelected(_) => view
  }

  /** Folds the events sent to `who`. */
  function Fold(view: View, who: Actor, out: seq<Output>): View
    decreases |out|
  {
    if out == [] then view
    else Fold(if out[0].ToActor? && out[0].actor == who then ApplyEvent(view, out[0].event) else view, who, out[1..])
  }

  /** What is currently shown to `who`, and the slots it was not told about when it subscribed first. */
  datatype Watch = Watch(m: LocalMap, view: View, missed: set<SlotId>)

  predicate Joins(m: LocalMap, who: Actor, a: Action) {
    a.Control? && a.control.Subscribe? && a.actor == who && who !in m.subscribers
  }

  /** The slots of other sources that hold data. */
  function Foreign(m: LocalMap): set<SlotId> {
    set id | id in m.slots && id.source != m.session && Data(m.slots[id]).Some?
  }

  /** The slots an output is about, if it is for `who`. */
  predicate Tells(out: seq<Output>, who: Actor, id: SlotId) {
    exists o :: o in out && o.ToActor? && o.actor == who && !o.event.RelaySelected? && o.event.slot == id
  }

  ghost function WatchStep(w: Watch, who: Actor, a: Action): Watch {
    var reply := Handle(w.m, a);
    if Joins(w.m, who, a) && who in reply.state.subscribers
    then Watch(reply.state, Fold(map[], who, reply.out), if w.m.subscribers == [] then Foreign(w.m) else {})
    else Watch(reply.state, Fold(w.view, who, reply.out), set id | id in w.missed && !Tells(reply.out, who, id))
  }

  ghost function Watched(session: NodeSession, who: Actor, actions: seq<Action>): Watch {
    if actions == [] then Watch(NewLocalMap(session), map[], {})
    else WatchStep(Watched(session, who, actions[..|actions| - 1]), who, actions[|actions| - 1])
  }

  /** The view is the data of the slots, without the missed ones. */
  ghost predicate Faithful(w: Watch) {
    && (forall id :: Seen(w.view, id) == if id in w.missed then None else Data(SlotOf(w.m, id)))
    && w.missed <= Foreign(w.m)
  }

  lemma {:induction false} FoldAppend(view: View, who: Actor, a: seq<Output>, b: seq<Output>)
    ensures Fold(view, who, a + b) == Fold(Fold(view, who, a), who, b)
    decreases |a|
  {
    if a == [] {
      assert a + b == b;
    } else {
      assert (a + b)[1..] == a[1..] + b;
      FoldAppend(if a[0].ToActor? && a[0].actor == who then ApplyEvent(view, a[0].event) else view, who, a[1..], b);
    }
  }

  lemma {:induction false} FoldSilent(view: View, who: Actor, out: seq<Output>)
    requires forall o :: o in out ==> o.ToRelay?
    ensures Fold(view, who, out) == view
    decreases |out|
  {
    if out != [] {
      assert out[0] in out;
      FoldSilent(view, who, out[1..]);
    }
  }

  /** Firing reaches a subscriber once however often it is listed, and nobody else. */
  lemma {:induction false} FoldFire(view: View, who: Actor, actors: seq<Actor>, event: MapEvent)
    ensures Fold(view, who, Fire(actors, event)) == if who in actors then ApplyEvent(view, event) else view
    decreases |actors|
  {
    if actors != [] {
      assert Fire(actors, event)[1..] == Fire(actors[1..], event);
      var next := if actors[0] == who then ApplyEvent(view, event) else view;
      FoldFire(next, who, actors[1..], event);
      assert ApplyEvent(ApplyEvent(view, event), event) == ApplyEvent(view, event);
    }
  }

  /** Whether restoring covers a slot. */
  predicate Restored(m: LocalMap, onlyLocal: bool, id: SlotId) {
    id in m.slots && !(onlyLocal && id.source != m.session) && Data(m.slots[id]).Some?
  }

  lemma {:induction false} FoldRestore(view: View, m: LocalMap, who: Actor, onlyLocal: bool, order: seq<SlotId>, id: SlotId)
    ensures Seen(Fold(view, who, Restore(m, who, onlyLocal, order)), id) ==
            if id in order && Restored(m, onlyLocal, id) then Data(m.slots[id]) else Seen(view, id)
    decreases |order|
  {
    if order != [] {
      var rest := Restore(m, who, onlyLocal, order[1..]);
      if Restored(m, onlyLocal, order[0]) {
        var event := SetEvent(order[0], Data(m.slots[order[0]]).value);
        assert ([ToActor(who, event)] + rest)[1..] == rest;
        FoldRestore(ApplyEvent(view, event), m, who, onlyLocal, order[1..], id);
      } else {
        FoldRestore(view, m, who, onlyLocal, order[1..], id);
      }
    }
  }

  // ---- every step keeps the view faithful ---------------------------------------------------

  ghost predicate SameData(m: LocalMap, m': LocalMap) {
    m'.session == m.session && forall id :: Data(SlotOf(m', id)) == Data(SlotOf(m, id))
  }

  lemma SameDataForeign(m: LocalMap, m': LocalMap)
    requires SameData(m, m')
    ensures Foreign(m') == Foreign(m)
  {
    forall id ensures id in Foreign(m') <==> id in Foreign(m) {
      assert Data(SlotOf(m', id)) == Data(SlotOf(m, id));
    }
  }

  /** Nothing is told and no data changes. */
  lemma QuietStep(w: Watch, who: Actor, m': LocalMap, out: seq<Output>)
    requires Faithful(w) && SameData(w.m, m') && Fold(w.view, who, out) == w.view && forall id :: !Tells(out, who, id)
    ensures Faithful(Watch(m', Fold(w.view, who, out), set id | id in w.missed && !Tells(out, who, id)))
  {
    SameDataForeign(w.m, m');
    assert (set id | id in w.missed && !Tells(out, who, id)) == w.missed;
  }

  /** What an event makes of the slot it is about. */
  predicate Announces(event: MapEvent, id: SlotId, slot: MapSlot) {
    || (event.SetEvent? && event.slot == id && Data(slot) == Some(event.data))
    || (event.DelEvent? && event.slot == id && Data(slot) == None)
  }

  lemma FireTells(actors: seq<Actor>, event: MapEvent, who: Actor, id: SlotId)
    ensures Tells(Fire(actors, event), who, id) <==> who in actors && !event.RelaySelected? && event.slot == id
  {
    var out := Fire(actors, event);
    if who in actors && !event.RelaySelected? && event.slot == id {
      var i :| 0 <= i < |actors| && actors[i] == who;
      assert out[i] in out;
    }
  }

  /** One slot changes and every subscriber is told. */
  lemma FiredStep(w: Watch, who: Actor, id: SlotId, slot: MapSlot, event: MapEvent)
    requires Faithful(w) && who in w.m.subscribers && Announces(event, id, slot)
    ensures var out := Fire(w.m.subscribers, event);
      Faithful(Watch(w.m.(slots := w.m.slots[id := slot]), Fold(w.view, who, out), set k | k in w.missed && !Tells(out, who, k)))
  {
    var out := Fire(w.m.subscribers, event);
    var m' := w.m.(slots := w.m.slots[id := slot]);
    FoldFire(w.view, who, w.m.subscribers, event);
    forall k ensures Tells(out, who, k) <==> k == id { FireTells(w.m.subscribers, event, who, k); }
    var missed := set k | k in w.missed && !Tells(out, who, k);
    assert missed == w.missed - {id};
    forall k ensures Seen(ApplyEvent(w.view, event), k) == if k in missed then None else Data(SlotOf(m', k)) {
      assert Seen(w.view, k) == if k in w.missed then None else Data(SlotOf(w.m, k));
    }
    forall k | k in missed ensures k in Foreign(m') {
      assert k in Foreign(w.m);
    }
  }

  lemma SyncSameData(m: LocalMap, now: nat, force: bool, order: seq<SlotId>)
    ensures SameData(m, m.(slots := SyncSlots(m.slots, now, force, order).0))
  {
    var slots := SyncSlots(m.slots, now, force, order).0;
    SyncSlotsFacts(m.slots, now, force, order);
    forall id ensures Data(SlotOf(m.(slots := slots), id)) == Data(SlotOf(m, id)) {
      if id in m.slots { assert SameButSync(m.slots[id], slots[id]); }
    }
  }

  lemma CleanedSameData(m: LocalMap)
    ensures SameData(m, m.(slots := Cleaned(m.slots)))
  {
  }

  lemma TickFaithful(w: Watch, who: Actor, now: nat, order: seq<SlotId>)
    requires Faithful(w)
    ensures var reply := OnTick(w.m, now, order);
      Faithful(Watch(reply.state, Fold(w.view, who, reply.out), set id | id in w.missed && !Tells(reply.out, who, id)))
  {
    var reply := OnTick(w.m, now, order);
    var (slots, out) := SyncSlots(w.m.slots, now, false, order);
    SyncSlotsFacts(w.m.slots, now, false, order);
    SyncSameData(w.m, now, false, order);
    CleanedSameData(w.m.(slots := slots));
    assert forall o :: o in reply.out ==> o.ToRelay?;
    FoldSilent(w.view, who, reply.out);
    QuietStep(w, who, reply.state, reply.out);
  }

  lemma SubOkFaithful(w: Watch, who: Actor, now: nat, remote: NodeSession, id: nat, order: seq<SlotId>)
    requires Faithful(w)
    ensures var reply := OnSubOk(w.m, now, remote, id, order);
      Faithful(Watch(reply.state, Fold(w.view, who, reply.out), set k | k in w.missed && !Tells(reply.out, who, k)))
  {
    var reply := OnSubOk(w.m, now, remote, id, order);
    var event := RelaySelected(remote.node);
    var (slots, out) := SyncSlots(w.m.slots, now, true, order);
    SyncSlotsFacts(w.m.slots, now, true, order);
    SyncSameData(w.m, now, true, order);
    var fired := Fire(w.m.subscribers, event);
    FoldSilent(w.view, who, out);
    FoldFire(w.view, who, w.m.subscribers, event);
    FoldAppend(w.view, who, out, fired);
    forall k ensures !Tells(reply.out, who, k) { FireTells(w.m.subscribers, event, who, k); }
    QuietStep(w, who, reply.state, reply.out);
  }

  lemma ServerFaithful(w: Watch, who: Actor, now: nat, remote: NodeSession, event: ServerEvent, order: seq<SlotId>)
    requires Faithful(w) && who in w.m.subscribers
    ensures var reply := OnServer(w.m, now, remote, event, order);
      Faithful(Watch(reply.state, Fold(w.view, who, reply.out), set id | id in w.missed && !Tells(reply.out, who, id)))
  {
    var reply := OnServer(w.m, now, remote, event, order);
    if event.SubOk? {
      SubOkFaithful(w, who, now, remote, event.id, order);
    } else if event.OnSet? && reply.out != [] {
      FiredStep(w, who, event.slot, SlotOnSet(SlotOf(w.m, event.slot), event.slot, event.version, event.data).0, SetEvent(event.slot, event.data));
    } else if event.OnDel? && reply.out != [] {
      FiredStep(w, who, event.slot, SlotOnDel(SlotOf(w.m, event.slot), event.slot, event.version).0, DelEvent(event.slot));
    } else {
      UntoldServer(w.m, now, remote, event, order);
      QuietStep(w, who, reply.state, reply.out);
    }
  }

  /** Relay events that tell subscribers nothing change no data. */
  lemma UntoldServer(m: LocalMap, now: nat, remote: NodeSession, event: ServerEvent, order: seq<SlotId>)
    requires m.subscribers != [] && !event.SubOk? && OnServer(m, now, remote, event, order).out == []
    ensures SameData(m, OnServer(m, now, remote, event, order).state)
  {
  }

  lemma ControlFaithful(w: Watch, who: Actor, now: nat, actor: Actor, control: MapControl, order: seq<SlotId>)
    requires Faithful(w) && who in w.m.subscribers
    ensures var reply := OnControl(w.m, now, actor, control, order);
      Faithful(Watch(reply.state, Fold(w.view, who, reply.out), set id | id in w.missed && !Tells(reply.out, who, id)))
  {
    var reply := OnControl(w.m, now, actor, control, order);
    if control.SetKey? {
      var id := SlotId(control.key, w.m.session);
      FiredStep(w, who, id, SlotSet(control.key, now, control.data).0, SetEvent(id, control.data));
    } else if control.DelKey? && reply.cmd.Some? {
      var id := SlotId(control.key, w.m.session);
      FiredStep(w, who, id, SlotDel(w.m.slots[id], control.key, now).0, DelEvent(id));
    } else {
      if control.Subscribe? && actor !in w.m.subscribers {
        OtherRestore(w.view, w.m, actor, who, false, order);
      }
      assert SameData(w.m, reply.state);
      QuietStep(w, who, reply.state, reply.out);
    }
  }

  /** What another actor is shown. */
  lemma {:induction false} OtherRestore(view: View, m: LocalMap, actor: Actor, who: Actor, onlyLocal: bool, order: seq<SlotId>)
    requires actor != who
    ensures var out := Restore(m, actor, onlyLocal, order); Fold(view, who, out) == view && forall id :: !Tells(out, who, id)
    decreases |order|
  {
    if order != [] {
      OtherRestore(view, m, actor, who, onlyLocal, order[1..]);
      var rest := Restore(m, actor, onlyLocal, order[1..]);
      if Restored(m, onlyLocal, order[0]) {
        var first := ToActor(actor, SetEvent(order[0], Data(m.slots[order[0]]).value));
        assert ([first] + rest)[1..] == rest;
        forall id ensures !Tells([first] + rest, who, id) { assert !Tells(rest, who, id); }
      }
    }
  }

  lemma JoinFaithful(w: Watch, who: Actor, a: Action)
    requires Joins(w.m, who, a) && Enumerates(a.order, w.m.slots.Keys)
    ensures Faithful(WatchStep(w, who, a))
  {
    var w' := WatchStep(w, who, a);
    var onlyLocal := w.m.subscribers == [];
    assert who in Handle(w.m, a).state.subscribers;
    forall id ensures Seen(w'.view, id) == if id in w'.missed then None else Data(SlotOf(w'.m, id)) {
      FoldRestore(map[], w.m, who, onlyLocal, a.order, id);
      assert id in a.order <==> id in multiset(a.order);
      assert id in w.m.slots <==> id in multiset(w.m.slots.Keys);
    }
  }

  lemma StepFaithful(w: Watch, who: Actor, a: Action)
    requires who in w.m.subscribers ==> Faithful(w)
    ensures who in WatchStep(w, who, a).m.subscribers ==> Faithful(WatchStep(w, who, a))
  {
    var m' := Handle(w.m, a).state;
    if who in m'.subscribers {
      if !Enumerates(a.order, w.m.slots.Keys) {
        QuietStep(w, who, w.m, []);
      } else if Joins(w.m, who, a) {
        JoinFaithful(w, who, a);
      } else {
        StayedSubscribed(w.m, who, a);
        match a
        case Tick(now, order) => TickFaithful(w, who, now, order);
        case Control(now, actor, control, order) => ControlFaithful(w, who, now, actor, control, order);
        case Server(now, remote, event, order) => ServerFaithful(w, who, now, remote, event, order);
      }
    }
  }

  lemma StayedSubscribed(m: LocalMap, who: Actor, a: Action)
    requires who in Handle(m, a).state.subscribers && !Joins(m, who, a)
    ensures who in m.subscribers
  {
    if a.Control? && a.control.Unsubscribe? {
      RetainSubset(m.subscribers, a.actor, who);
    } else if a.Server? {
      ServerMatches(m, a.now, a.remote, a.event, a.order);
    }
  }

  lemma RetainSubset(s: seq<Actor>, gone: Actor, who: Actor)
    ensures who in Retain(s, gone) <==> who in s && who != gone
  {
    FilterFacts(s, x => x != gone);
    assert who in Retain(s, gone) <==> multiset(Retain(s, gone))[who] > 0;
    assert who in s <==> multiset(s)[who] > 0;
  }

  /** In every run, a subscriber's events add up to exactly the data in the slots, except for the slots it was not
      told about when it was the first to subscribe and that have not changed since; those are of other sources. */
  lemma {:induction false} SubscriberSeesSlots(session: NodeSession, who: Actor, actions: seq<Action>)
    ensures var w := Watched(session, who, actions);
      w.m == Run(session, actions) && (who in w.m.subscribers ==> Faithful(w))
  {
    if actions != [] {
      SubscriberSeesSlots(session, who, actions[..|actions| - 1]);
      StepFaithful(Watched(session, who, actions[..|actions| - 1]), who, actions[|actions| - 1]);
    }
  }

  /** Keys of the own session are shown exactly in every run. */
  lemma OwnKeysAreShown(session: NodeSession, who: Actor, actions: seq<Action>, key: nat)
    requires who in Run(session, actions).subscribers
    ensures Seen(Watched(session, who, actions).view, SlotId(key, session)) == Data(SlotOf(Run(session, actions), SlotId(key, session)))
  {
    SubscriberSeesSlots(session, who, actions);
    SubscriptionFollowsSubscribers(session, actions);
  }

  /** The list of subscribers has not become empty again after the first one. */
  ghost predicate NeverLeft(session: NodeSession, actions: seq<Action>) {
    actions == [] || (
      var before := actions[..|actions| - 1];
      NeverLeft(session, before) && (Run(session, before).subscribers != [] ==> Run(session, actions).subscribers != []))
  }

  lemma {:induction false} NothingForeignBeforeFirst(session: NodeSession, actions: seq<Action>)
    requires NeverLeft(session, actions) && Run(session, actions).subscribers == []
    ensures Foreign(Run(session, actions)) == {}
  {
    if actions != [] {
      var before := actions[..|actions| - 1];
      NothingForeignBeforeFirst(session, before);
      SubscriptionFollowsSubscribers(session, before);
      UnsubscribedLearnsNothing(Run(session, before), actions[|actions| - 1]);
    }
  }

  /** A map that is not subscribed takes no data of other sources. */
  lemma UnsubscribedLearnsNothing(m: LocalMap, a: Action)
    requires !CanUnsub(m.sub)
    ensures Foreign(Handle(m, a).state) <= Foreign(m)
  {
    var m' := Handle(m, a).state;
    if a.Tick? && Enumerates(a.order, m.slots.Keys) {
      SyncSameData(m, a.now, false, a.order);
      var m1 := m.(slots := SyncSlots(m.slots, a.now, false, a.order).0);
      CleanedSameData(m1);
      SameDataForeign(m, m1);
      SameDataForeign(m1, m1.(slots := Cleaned(m1.slots)));
      assert Foreign(m') == Foreign(m1.(slots := Cleaned(m1.slots)));
    }
  }

  /** While the list of subscribers never became empty again, every subscriber sees all the data. */
  lemma {:induction false} EverythingShownUnlessLeft(session: NodeSession, who: Actor, actions: seq<Action>, id: SlotId)
    requires NeverLeft(session, actions) && who in Run(session, actions).subscribers
    ensures Seen(Watched(session, who, actions).view, id) == Data(SlotOf(Run(session, actions), id))
  {
    NothingMissed(session, who, actions);
    SubscriberSeesSlots(session, who, actions);
  }

  lemma {:induction false} NothingMissed(session: NodeSession, who: Actor, actions: seq<Action>)
    requires NeverLeft(session, actions)
    ensures Watched(session, who, actions).missed == {}
  {
    if actions != [] {
      var before := actions[..|actions| - 1];
      NothingMissed(session, who, before);
      SubscriberSeesSlots(session, who, before);
      if Run(session, before).subscribers == [] { NothingForeignBeforeFirst(session, before); }
    }
  }

  /** The first subscriber of a map sees everything at once exactly when no other source has data in it. */
  lemma FirstSubscriberSeesAllIff(session: NodeSession, who: Actor, actions: seq<Action>, now: nat, order: seq<SlotId>)
    requires Run(session, actions).subscribers == [] && Enumerates(order, Run(session, actions).slots.Keys)
    ensures var w := Watched(session, who, actions + [Control(now, who, Subscribe, order)]);
      (forall id :: Seen(w.view, id) == Data(SlotOf(w.m, id))) <==> Foreign(Run(session, actions)) == {}
  {
    var a := Control(now, who, Subscribe, order);
    assert (actions + [a])[..|actions|] == actions;
    SubscriberSeesSlots(session, who, actions);
    SubscriberSeesSlots(session, who, actions + [a]);
    var w := Watched(session, who, actions + [a]);
    assert w.missed == Foreign(Run(session, actions));
    if id :| id in w.missed {
      assert Seen(w.view, id) == None;
      assert Data(SlotOf(w.m, id)).Some?;
    }
  }

  lemma RunAppend(session: NodeSession, actions: seq<Action>, a: Action)
    ensures Run(session, actions + [a]) == Handle(Run(session, actions), a).state
  {
  }

  lemma ReachSubscribed(session: NodeSession, who: Actor, relay: NodeSession)
    ensures Run(session, [Control(0, who, Subscribe, []), Server(0, relay, SubOk(0), [])]) == LocalMap(session, map[], [who], Subscribed(0, relay, 0))
  {
    var a1 := Control(0, who, Subscribe, []);
    var a2 := Server(0, relay, SubOk(0), []);
    RunAppend(session, [], a1);
    RunAppend(session, [a1], a2);
    assert [] + [a1] == [a1] && [a1] + [a2] == [a1, a2];
  }

  /** Such a map is reached: the only subscriber left after learning a value, and the slot stays. */
  lemma LeavingKeepsForeign(session: NodeSession, who: Actor, relay: NodeSession, id: SlotId, version: nat, data: Bytes) returns (actions: seq<Action>)
    requires id.source != session
    ensures Run(session, actions).subscribers == [] && Foreign(Run(session, actions)) == {id}
  {
    var before := [Control(0, who, Subscribe, []), Server(0, relay, SubOk(0), [])];
    var learn := Server(0, relay, OnSet(id, version, data), []);
    var leave := Control(0, who, Unsubscribe, [id]);
    ReachSubscribed(session, who, relay);
    RunAppend(session, before, learn);
    RunAppend(session, before + [learn], leave);
    var m := Run(session, before + [learn]);
    assert m.slots.Keys == {id} && Data(m.slots[id]) == Some(data);
    assert [who][1..] == [] && Filter<Actor>([], x => x != who) == [];
    actions := before + [learn] + [leave];
  }
}
