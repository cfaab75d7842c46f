/** Who the consumers of a relay are, which hop it is bound to and what it says to whom, told from the calls it received. */
module RelayHistory {
  import opened Identity
  import opened Endpoints
  import opened Relay

  /** Every tick visits the remotes of the moment, each once. */
  ghost predicate Orderly(uuid: nat, actions: seq<Action>) {
    actions == [] || (
      var before, a := actions[..|actions| - 1], actions[|actions| - 1];
      Orderly(uuid, before) && (a.Tick? ==> Enumerates(a.order, ConsumersOf(Run(uuid, before).0).remotes.Keys)))
  }

  // ---- local consumers ----------------------------------------------------------------------

  /** Whether the last Subscribe or Unsubscribe of an actor is a Subscribe. */
  function WantsData(actions: seq<Action>, actor: Actor): bool {
    if actions == [] then false
    else
      var a := actions[|actions| - 1];
      if a.Subscribe? && a.actor == actor then true
      else if a.Unsubscribe? && a.actor == actor then false
      else WantsData(actions[..|actions| - 1], actor)
  }

  lemma {:induction false} DropRemotesFacts(c: Consumers, gone: seq<NetPair>)
    ensures var c' := DropRemotes(c, gone).0;
      c'.locals == c.locals && c'.remotes.Keys == c.remotes.Keys - (set r | r in gone) && forall r :: r in c'.remotes ==> c'.remotes[r] == c.remotes[r]
    decreases |gone|
  {
    if gone != [] {
      DropRemotesFacts(c.(remotes := c.remotes - {gone[0]}), gone[1..]);
      assert (set r | r in gone) == {gone[0]} + (set r | r in gone[1..]);
    }
  }

  /** Settling keeps the consumers. */
  lemma SettleKeeps(uuid: nat, now: nat, st: State, c: Consumers)
    requires HasConsumers(st)
    ensures ConsumersOf(Settle(uuid, now, st, c).0) == c
  {
  }

  lemma LocalStep(uuid: nat, st: State, a: Action, actor: Actor)
    requires NoDuplicates(ConsumersOf(st).locals)
    ensures actor in ConsumersOf(Handle(uuid, st, a).0).locals <==>
      (a.Subscribe? && a.actor == actor) || (actor in ConsumersOf(st).locals && !(a.Unsubscribe? && a.actor == actor))
  {
    var c := ConsumersOf(st);
    if a.Subscribe? {
    } else if a.Unsubscribe? {
      if HasConsumers(st) {
        assert actor in Without(c.locals, a.actor) <==> actor in c.locals && actor != a.actor by { WithoutFacts(c.locals, a.actor); }
        SettleKeeps(uuid, a.now, st, LocalUnsub(c, a.actor).0);
      }
    } else {
      LocalsKept(uuid, st, a);
    }
  }

  lemma LocalsKept(uuid: nat, st: State, a: Action)
    requires !a.Subscribe? && !a.Unsubscribe?
    ensures ConsumersOf(Handle(uuid, st, a).0).locals == ConsumersOf(st).locals
  {
    var c := ConsumersOf(st);
    if HasConsumers(st) {
      match a
      case Tick(now, order) =>
        DropRemotesFacts(c, Timeouts(c, now, order));
        SettleKeeps(uuid, now, st, ConsumersTick(c, now, order).0);
      case Drop(now, remote) => SettleKeeps(uuid, now, st, Disconnected(c, remote).0);
      case Receive(now, remote, control) => SettleKeeps(uuid, now, st, RemoteControl(c, now, remote, control).0);
      case _ =>
    }
  }

  /** In every run an actor is a local consumer exactly when it last subscribed. */
  lemma {:induction false} LocalsIff(uuid: nat, actions: seq<Action>, actor: Actor)
    ensures actor in ConsumersOf(Run(uuid, actions).0).locals <==> WantsData(actions, actor)
  {
    if actions != [] {
      var before := actions[..|actions| - 1];
      LocalsIff(uuid, before, actor);
      EveryRunIsMirrored(uuid, before);
      LocalStep(uuid, Run(uuid, before).0, actions[|actions| - 1], actor);
    }
  }

  // ---- remote consumers ---------------------------------------------------------------------

  predicate IsSub(a: Action, r: NetPair) { a.Receive? && a.remote == r && a.control.Sub? }

  /** What ends the subscription of a remote: an Unsub under its uuid, the loss of its connection, or a tick RELAY_TIMEOUT or
      more after its last Sub. */
  predicate Ends(a: Action, r: NetPair, theirs: nat, since: nat) {
    (a.Receive? && a.remote == r && a.control == Unsub(theirs)) || (a.Drop? && a.remote == r) || (a.Tick? && a.now >= since + 10_000)
  }

  /** The last Sub of a remote under its uuid, not ended since; and not refused for another uuid that stood when it came. */
  ghost predicate Stands(actions: seq<Action>, k: int, r: NetPair)
    decreases |actions|
  {
    && 0 <= k < |actions| && IsSub(actions[k], r)
    && (forall j :: k < j < |actions| ==> !(IsSub(actions[j], r) && actions[j].control.uuid == actions[k].control.uuid) && !Ends(actions[j], r, actions[k].control.uuid, actions[k].now))
    && (forall j :: 0 <= j < k && Stands(actions[..k], j, r) ==> actions[j].control.uuid == actions[k].control.uuid)
  }

  ghost predicate Subscribed(actions: seq<Action>, r: NetPair) { exists k :: Stands(actions, k, r) }

  lemma StandsNext(actions: seq<Action>, a: Action, k: int, r: NetPair)
    ensures Stands(actions + [a], k, r) <==>
      || (k == |actions| && IsSub(a, r) && forall j :: Stands(actions, j, r) ==> actions[j].control.uuid == a.control.uuid)
      || (Stands(actions, k, r) && !(IsSub(a, r) && a.control.uuid == actions[k].control.uuid) && !Ends(a, r, actions[k].control.uuid, actions[k].now))
  {
    var more := actions + [a];
    if 0 <= k < |actions| {
      assert more[k] == actions[k] && more[|actions|] == a && more[..k] == actions[..k];
      forall j | k < j < |actions| ensures more[j] == actions[j] { }
    } else if k == |actions| {
      assert more[..k] == actions;
    }
  }

  lemma StandsBefore(actions: seq<Action>, n: int, k: int, r: NetPair)
    requires Stands(actions, k, r) && k < n <= |actions|
    ensures Stands(actions[..n], k, r)
  {
    assert actions[..n][..k] == actions[..k];
  }

  lemma OnlyOneStands(actions: seq<Action>, j: int, k: int, r: NetPair)
    requires Stands(actions, k, r) && Stands(actions, j, r)
    ensures j == k
  {
    if j < k {
      StandsBefore(actions, k, j, r);
    } else if k < j {
      StandsBefore(actions, j, k, r);
    }
  }

  ghost predicate RemoteMatches(c: Consumers, actions: seq<Action>, r: NetPair) {
    if r in c.remotes then exists k :: Stands(actions, k, r) && c.remotes[r] == RelayRemote(actions[k].control.uuid, actions[k].now)
    else forall k :: !Stands(actions, k, r)
  }

  /** What a call does to one remote. */
  ghost predicate RemoteFollows(c: Consumers, c': Consumers, a: Action, r: NetPair) {
    if IsSub(a, r) && (r !in c.remotes || c.remotes[r].uuid == a.control.uuid) then r in c'.remotes && c'.remotes[r] == RelayRemote(a.control.uuid, a.now)
    else if r in c.remotes && !Ends(a, r, c.remotes[r].uuid, c.remotes[r].lastSub) then r in c'.remotes && c'.remotes[r] == c.remotes[r]
    else r !in c'.remotes
  }

  lemma {:induction false} TimeoutsMember(c: Consumers, now: nat, order: seq<NetPair>, r: NetPair)
    ensures r in Timeouts(c, now, order) <==> r in order && Expired(c, now, r)
  {
    if order != [] {
      TimeoutsMember(c, now, order[1..], r);
      assert Timeouts(c, now, order) == (if Expired(c, now, order[0]) then [order[0]] else []) + Timeouts(c, now, order[1..]);
    }
  }

  lemma TickFollows(c: Consumers, a: Action, r: NetPair)
    requires a.Tick? && Enumerates(a.order, c.remotes.Keys)
    ensures RemoteFollows(c, ConsumersTick(c, a.now, a.order).0, a, r)
  {
    DropRemotesFacts(c, Timeouts(c, a.now, a.order));
    TimeoutsMember(c, a.now, a.order, r);
    EnumeratesMembers(a.order, c.remotes.Keys);
  }

  lemma ControlFollows(c: Consumers, a: Action, r: NetPair)
    requires a.Receive? && (a.control.Sub? || a.control.Unsub?)
    ensures RemoteFollows(c, RemoteControl(c, a.now, a.remote, a.control).0, a, r)
  {
  }

  lemma RemoteStep(uuid: nat, st: State, a: Action, r: NetPair)
    requires a.Tick? ==> Enumerates(a.order, ConsumersOf(st).remotes.Keys)
    ensures RemoteFollows(ConsumersOf(st), ConsumersOf(Handle(uuid, st, a).0), a, r)
  {
    var c := ConsumersOf(st);
    if a.Tick? && HasConsumers(st) {
      SettleKeeps(uuid, a.now, st, ConsumersTick(c, a.now, a.order).0);
      TickFollows(c, a, r);
    } else if a.Receive? && (a.control.Sub? || a.control.Unsub?) {
      if HasConsumers(st) { SettleKeeps(uuid, a.now, st, RemoteControl(c, a.now, a.remote, a.control).0); }
      ControlFollows(c, a, r);
    } else if a.Drop? && HasConsumers(st) {
      SettleKeeps(uuid, a.now, st, Disconnected(c, a.remote).0);
    } else if a.Unsubscribe? && HasConsumers(st) {
      SettleKeeps(uuid, a.now, st, LocalUnsub(c, a.actor).0);
    }
  }

  lemma RemoteMatchesNext(c: Consumers, c': Consumers, actions: seq<Action>, a: Action, r: NetPair)
    requires RemoteMatches(c, actions, r) && RemoteFollows(c, c', a, r)
    ensures RemoteMatches(c', actions + [a], r)
  {
    var more := actions + [a];
    forall k ensures Stands(more, k, r) <==>
      || (k == |actions| && IsSub(a, r) && forall j :: Stands(actions, j, r) ==> actions[j].control.uuid == a.control.uuid)
      || (Stands(actions, k, r) && !(IsSub(a, r) && a.control.uuid == actions[k].control.uuid) && !Ends(a, r, actions[k].control.uuid, actions[k].now))
    {
      StandsNext(actions, a, k, r);
    }
    assert more[|actions|] == a;
    if r in c.remotes {
      var k :| Stands(actions, k, r) && c.remotes[r] == RelayRemote(actions[k].control.uuid, actions[k].now);
      assert more[k] == actions[k];
      forall j | Stands(actions, j, r) ensures j == k { OnlyOneStands(actions, j, k, r); }
    }
  }

  /** In every run a remote is a consumer exactly when a Sub of it stands, under its uuid and the time of the last Sub. */
  lemma {:induction false} RemotesIff(uuid: nat, actions: seq<Action>, r: NetPair)
    requires Orderly(uuid, actions)
    ensures RemoteMatches(ConsumersOf(Run(uuid, actions).0), actions, r)
  {
    if actions != [] {
      var before, a := actions[..|actions| - 1], actions[|actions| - 1];
      RemotesIff(uuid, before, r);
      RemoteStep(uuid, Run(uuid, before).0, a, r);
      RemoteMatchesNext(ConsumersOf(Run(uuid, before).0), ConsumersOf(Run(uuid, actions).0), before, a, r);
      assert actions == before + [a];
    }
  }

  lemma RemoteIsConsumerIff(uuid: nat, actions: seq<Action>, r: NetPair)
    requires Orderly(uuid, actions)
    ensures r in ConsumersOf(Run(uuid, actions).0).remotes <==> Subscribed(actions, r)
  {
    RemotesIff(uuid, actions, r);
    var c := ConsumersOf(Run(uuid, actions).0);
    if r in c.remotes {
      var k :| Stands(actions, k, r) && c.remotes[r] == RelayRemote(actions[k].control.uuid, actions[k].now);
      assert Subscribed(actions, r);
    }
  }

  /** Delivery from the calls alone: in every run a packet from the hop that is heard reaches every actor that last subscribed
      and every remote whose Sub stands exactly once, and nobody else; from any other hop it reaches nobody. */
  lemma DeliversToSubscribers(uuid: nat, actions: seq<Action>, from: NetPair, actor: Actor, r: NetPair)
    requires Orderly(uuid, actions)
    ensures var (locals, remotes) := Deliveries(Replay(None, Run(uuid, actions).1), from);
      var reached := Heard(uuid, actions) == Some(from);
      && multiset(locals)[actor] == (if reached && WantsData(actions, actor) then 1 else 0)
      && multiset(remotes)[r] == (if reached && Subscribed(actions, r) then 1 else 0)
  {
    DeliversIffHeard(uuid, actions, from);
    LocalsIff(uuid, actions, actor);
    RemoteIsConsumerIff(uuid, actions, r);
  }

  // ---- the hop ------------------------------------------------------------------------------

  /** A call that makes a relay without consumers start. */
  predicate Opens(a: Action) { a.Subscribe? || (a.Receive? && (a.control.Sub? || a.control.Unsub?)) }

  /** A call after which a relay without consumers is given up; the loss of the bound hop is not one. */
  predicate Reviews(st: State, a: Action) {
    a.Tick? || a.Unsubscribe? || (a.Drop? && !(st.Bound? && st.next == a.remote)) || (a.Receive? && (a.control.Sub? || a.control.Unsub?))
  }

  /** A relay is at work from the first consumer on until a review finds none left. */
  lemma AtWorkIff(uuid: nat, st: State, a: Action)
    requires a.Tick? ==> Enumerates(a.order, ConsumersOf(st).remotes.Keys)
    ensures var st' := Handle(uuid, st, a).0;
      HasConsumers(st') <==> if HasConsumers(st) then !Reviews(st, a) || !ShouldClear(ConsumersOf(st')) else Opens(a)
  {
  }

  /** A confirmation under the relay's uuid while it is at work. */
  ghost predicate Confirms(uuid: nat, actions: seq<Action>, k: int) {
    0 <= k < |actions| && actions[k].Receive? && actions[k].control == SubOK(uuid) && HasConsumers(Run(uuid, actions[..k]).0)
  }

  /** At step `j` the hop bound is replaced, lost, or given up with the relay. */
  ghost predicate Unbinds(uuid: nat, actions: seq<Action>, j: int, hop: NetPair) {
    0 <= j < |actions| && (Confirms(uuid, actions, j) || (actions[j].Drop? && actions[j].remote == hop) || !HasConsumers(Run(uuid, actions[..j + 1]).0))
  }

  /** The last confirmation, neither lost since nor given up. */
  ghost predicate Binds(uuid: nat, actions: seq<Action>, k: int) {
    Confirms(uuid, actions, k) && forall j :: k < j ==> !Unbinds(uuid, actions, j, actions[k].remote)
  }

  lemma SameBefore(uuid: nat, actions: seq<Action>, a: Action, j: int, hop: NetPair)
    requires j < |actions|
    ensures Confirms(uuid, actions + [a], j) == Confirms(uuid, actions, j)
    ensures Unbinds(uuid, actions + [a], j, hop) == Unbinds(uuid, actions, j, hop)
  {
    if 0 <= j {
      assert (actions + [a])[..j] == actions[..j] && (actions + [a])[..j + 1] == actions[..j + 1];
    }
  }

  lemma BindsNext(uuid: nat, actions: seq<Action>, a: Action, k: int)
    ensures Binds(uuid, actions + [a], k) <==>
      || (k == |actions| && Confirms(uuid, actions + [a], k))
      || (Binds(uuid, actions, k) && !Unbinds(uuid, actions + [a], |actions|, actions[k].remote))
  {
    var more, n := actions + [a], |actions|;
    if k < n {
      SameBefore(uuid, actions, a, k, NetPair(0, 0));
      if Confirms(uuid, actions, k) {
        var hop := actions[k].remote;
        forall j | k < j < n ensures Unbinds(uuid, more, j, hop) == Unbinds(uuid, actions, j, hop) { SameBefore(uuid, actions, a, j, hop); }
      }
    }
  }

  ghost predicate BoundMatches(uuid: nat, actions: seq<Action>) {
    var st := Run(uuid, actions).0;
    if st.Bound? then exists k :: Binds(uuid, actions, k) && actions[k].remote == st.next else forall k :: !Binds(uuid, actions, k)
  }

  /** What a call does to the bound hop. */
  lemma BoundStep(uuid: nat, st: State, a: Action)
    requires a.Tick? ==> Enumerates(a.order, ConsumersOf(st).remotes.Keys)
    ensures var st' := Handle(uuid, st, a).0;
      if a.Receive? && a.control == SubOK(uuid) && HasConsumers(st) then st'.Bound? && st'.next == a.remote
      else if st.Bound? && !(a.Drop? && a.remote == st.next) && HasConsumers(st') then st'.Bound? && st'.next == st.next
      else !st'.Bound?
  {
  }

  lemma OnlyOneBinds(uuid: nat, actions: seq<Action>, j: int, k: int)
    requires Binds(uuid, actions, k)
    ensures Binds(uuid, actions, j) ==> j == k
  {
    assert Confirms(uuid, actions, j) ==> Unbinds(uuid, actions, j, actions[k].remote);
    assert Confirms(uuid, actions, j) ==> Unbinds(uuid, actions, k, actions[j].remote);
  }

  /** In every run a relay is bound exactly to the sender of the last confirmation it got while at work, unless that hop was
      lost or the relay given up since. */
  lemma {:induction false} BoundIff(uuid: nat, actions: seq<Action>)
    requires Orderly(uuid, actions)
    ensures BoundMatches(uuid, actions)
  {
    if actions != [] {
      var before, a := actions[..|actions| - 1], actions[|actions| - 1];
      BoundIff(uuid, before);
      assert actions == before + [a];
      BoundStep(uuid, Run(uuid, before).0, a);
      BoundMatchesNext(uuid, before, a);
    }
  }

  lemma BoundMatchesNext(uuid: nat, actions: seq<Action>, a: Action)
    requires BoundMatches(uuid, actions)
    requires var (st, st') := (Run(uuid, actions).0, Run(uuid, actions + [a]).0);
      if a.Receive? && a.control == SubOK(uuid) && HasConsumers(st) then st'.Bound? && st'.next == a.remote
      else if st.Bound? && !(a.Drop? && a.remote == st.next) && HasConsumers(st') then st'.Bound? && st'.next == st.next
      else !st'.Bound?
    ensures BoundMatches(uuid, actions + [a])
  {
    var more := actions + [a];
    assert more[..|actions|] == actions && more[|actions|] == a && more[..|actions| + 1] == more;
    forall k ensures Binds(uuid, more, k) <==>
      || (k == |actions| && Confirms(uuid, more, k))
      || (Binds(uuid, actions, k) && !Unbinds(uuid, more, |actions|, actions[k].remote))
    {
      BindsNext(uuid, actions, a, k);
    }
    if Run(uuid, actions).0.Bound? {
      var k :| Binds(uuid, actions, k) && actions[k].remote == Run(uuid, actions).0.next;
      assert more[k] == actions[k];
      forall j ensures Binds(uuid, actions, j) ==> j == k { OnlyOneBinds(uuid, actions, j, k); }
    }
  }

  /** How long a hop is asked first: since it was bound or last confirmed itself; a hop that takes over from another inherits the
      time. */
  lemma StickySince(uuid: nat, st: State, a: Action)
    requires (a.Tick? ==> Enumerates(a.order, ConsumersOf(st).remotes.Keys)) && Handle(uuid, st, a).0.Bound?
    ensures Handle(uuid, st, a).0.stickyAt ==
      if a.Receive? && a.control == SubOK(uuid) && (st.Binding? || a.remote == st.next) then a.now else st.stickyAt
  {
    BoundStep(uuid, st, a);
  }

  /** How a relay goes: a bound one that is given up leaves its hop until the hop confirms or 10 s are over, any other is over at
      once; one that is over stays so until it is replaced or needed again. */
  lemma GoesIff(uuid: nat, st: State, a: Action)
    requires (a.Tick? ==> Enumerates(a.order, ConsumersOf(st).remotes.Keys)) && !HasConsumers(Handle(uuid, st, a).0)
    ensures var st' := Handle(uuid, st, a).0;
      && (st.Binding? ==> st' == Unbound)
      && (st.Bound? ==> st'.Unbinding? && st'.next == st.next && (a.Tick? || a.Drop? || a.Unsubscribe? || a.Receive?) && st'.startedAt == a.now)
      && (st.Unbinding? ==> st' == if (a.Tick? && a.now >= st.startedAt + 10_000) || (a.Receive? && a.control == UnsubOK(uuid)) then Unbound else st)
      && (st.Unbound? ==> st' == if a.Recreate? then New else st)
      && (st.New? ==> st' == st)
  {
  }

  // ---- what is said -------------------------------------------------------------------------

  /** Whom a step asks for the source: everybody while there is no hop or its session is no longer sticky, else the bound hop; a
      relay that starts over asks the hop it was leaving. */
  predicate Asks(uuid: nat, st: State, a: Action, via: Option<NetPair>) {
    || (a.Tick? && st.Binding? && via == None)
    || (a.Tick? && st.Bound? && via == if a.now < st.stickyAt + 300_000 then Some(st.next) else None)
    || (a.Drop? && st.Bound? && st.next == a.remote && via == None)
    || (!HasConsumers(st) && Opens(a) && via == if st.Unbinding? then Some(st.next) else None)
  }

  /** Whom a step tells that it is no longer needed: the bound hop when the relay is given up, repeatedly until 10 s are over,
      and the old hop when another one takes over. */
  predicate TakesLeave(uuid: nat, st: State, a: Action, st': State, hop: NetPair) {
    || (st.Bound? && hop == st.next && (st'.Unbinding? || (a.Receive? && a.control == SubOK(uuid) && a.remote != st.next)))
    || (a.Tick? && st.Unbinding? && hop == st.next && a.now < st.startedAt + 10_000)
  }

  /** The route to the source changed: another hop took over, or the bound one says so. */
  predicate Rerouted(uuid: nat, st: State, a: Action) {
    st.Bound? && a.Receive? && (a.control == RouteChanged(uuid) || (a.control == SubOK(uuid) && a.remote != st.next))
  }

  /** Whether a Sub is confirmed: the remote is new, or known under that uuid. */
  predicate Admits(c: Consumers, r: NetPair, theirs: nat) { r !in c.remotes || c.remotes[r].uuid == theirs }

  /** What a step has to say, apart from the routes it sets. */
  predicate Owes(uuid: nat, st: State, a: Action, st': State, o: RelayOutput) {
    var c := ConsumersOf(st);
    match o
    case NotifyRouteChanged(x) => Rerouted(uuid, st, a) && x in c.locals
    case ToWorker(SendRouteChanged) => Rerouted(uuid, st, a) && c.remotes != map[]
    case ToWorker(SendSub(u, via)) => u == uuid && Asks(uuid, st, a, via)
    case ToWorker(SendUnsub(u, hop)) => u == uuid && TakesLeave(uuid, st, a, st', hop)
    case ToWorker(SendSubOk(u, r)) => a.Receive? && a.remote == r && a.control == Sub(u) && Admits(c, r, u)
    case ToWorker(SendUnsubOk(u, r)) => a.Receive? && a.remote == r && a.control == Unsub(u) && r in c.remotes && c.remotes[r].uuid == u
    case _ => false
  }

  predicate IsRoute(c: WorkerControl) { c.RouteSetSource? || c.RouteDelSource? || c.RouteSetLocal? || c.RouteDelLocal? || c.RouteSetRemote? || c.RouteDelRemote? }

  predicate IsMessage(o: RelayOutput) { o.NotifyRouteChanged? || !IsRoute(o.control) }

  lemma {:induction false} DropRemotesSays(c: Consumers, gone: seq<NetPair>)
    ensures forall o :: o in DropRemotes(c, gone).1 ==> IsRoute(o)
    decreases |gone|
  {
    if gone != [] { DropRemotesSays(c.(remotes := c.remotes - {gone[0]}), gone[1..]); }
  }

  lemma RoutesSayNothing(out: seq<WorkerControl>, o: RelayOutput)
    requires IsMessage(o) && forall x :: x in out ==> IsRoute(x)
    ensures Count(Wrap(out), o) == 0
  {
    CountNone(Wrap(out), o);
  }

  lemma {:induction false} NoticesSay(actors: seq<Actor>, o: RelayOutput)
    requires NoDuplicates(actors)
    ensures Count(Notices(actors), o) == if o.NotifyRouteChanged? && o.actor in actors then 1 else 0
  {
    if actors != [] {
      assert Notices(actors)[1..] == Notices(actors[1..]);
      assert actors[0] !in actors[1..];
      NoticesSay(actors[1..], o);
    }
  }

  lemma WrapShort(out: seq<WorkerControl>)
    ensures out == [] ==> Wrap(out) == []
    ensures |out| == 1 ==> Wrap(out) == [ToWorker(out[0])]
    ensures |out| == 2 ==> Wrap(out) == [ToWorker(out[0]), ToWorker(out[1])]
  {
  }

  /** What settling says. */
  lemma SettleSays(uuid: nat, now: nat, st: State, c: Consumers, o: RelayOutput)
    requires HasConsumers(st) && IsMessage(o)
    ensures var (st', out) := Settle(uuid, now, st, c); Count(out, o) == if st.Bound? && st'.Unbinding? && o == ToWorker(SendUnsub(uuid, st.next)) then 1 else 0
  {
    var out := Settle(uuid, now, st, c).1;
    if out != [] {
      assert out == [out[0]] + [out[1]];
      CountAppend([out[0]], [out[1]], o);
    }
  }

  lemma TickSays(uuid: nat, st: State, a: Action, o: RelayOutput)
    requires a.Tick? && Enumerates(a.order, ConsumersOf(st).remotes.Keys) && IsMessage(o)
    ensures var (st', out) := Handle(uuid, st, a); Count(out, o) == if Owes(uuid, st, a, st', o) then 1 else 0
  {
    if HasConsumers(st) {
      var via := if st.Bound? && a.now < st.stickyAt + RELAY_STICKY_MS then Some(st.next) else None;
      var ask := [ToWorker(SendSub(uuid, via))];
      var (c, drops) := ConsumersTick(st.consumers, a.now, a.order);
      DropRemotesSays(st.consumers, Timeouts(st.consumers, a.now, a.order));
      RoutesSayNothing(drops, o);
      SettleSays(uuid, a.now, st, c, o);
      CountAppend(ask, Wrap(drops), o);
      CountAppend(ask + Wrap(drops), Settle(uuid, a.now, st, c).1, o);
    }
  }

  lemma DropSays(uuid: nat, st: State, a: Action, o: RelayOutput)
    requires a.Drop? && IsMessage(o)
    ensures var (st', out) := Handle(uuid, st, a); Count(out, o) == if Owes(uuid, st, a, st', o) then 1 else 0
  {
    if HasConsumers(st) {
      var (c, drops) := Disconnected(st.consumers, a.remote);
      RoutesSayNothing(drops, o);
      SettleSays(uuid, a.now, st, c, o);
      CountAppend(Wrap(drops), Settle(uuid, a.now, st, c).1, o);
      CountAppend(Wrap(drops), [ToWorker(SendSub(uuid, None))], o);
    }
  }

  lemma LocalSays(uuid: nat, st: State, a: Action, o: RelayOutput)
    requires (a.Subscribe? || a.Unsubscribe?) && IsMessage(o)
    ensures var (st', out) := Handle(uuid, st, a); Count(out, o) == if Owes(uuid, st, a, st', o) then 1 else 0
  {
    var base := ConsumersOf(st);
    if a.Subscribe? {
      var changes := LocalSub(base, a.actor).1;
      RoutesSayNothing(changes, o);
      CountAppend(Wrap(changes), [ToWorker(SendSub(uuid, RestartVia(st)))], o);
    } else if HasConsumers(st) {
      var (c, changes) := LocalUnsub(base, a.actor);
      RoutesSayNothing(changes, o);
      SettleSays(uuid, a.now, st, c, o);
      CountAppend(Wrap(changes), Settle(uuid, a.now, st, c).1, o);
    }
  }

  /** What the consumers say to a remote. */
  lemma RemoteControlSays(c: Consumers, now: nat, r: NetPair, control: RelayControl, o: RelayOutput)
    requires IsMessage(o) && (control.Sub? || control.Unsub?)
    ensures Count(Wrap(RemoteControl(c, now, r, control).1), o) ==
      if (control.Sub? && Admits(c, r, control.uuid) && o == ToWorker(SendSubOk(control.uuid, r)))
      || (control.Unsub? && r in c.remotes && c.remotes[r].uuid == control.uuid && o == ToWorker(SendUnsubOk(control.uuid, r))) then 1 else 0
  {
    var out := RemoteControl(c, now, r, control).1;
    WrapShort(out);
    if |out| == 2 {
      assert Wrap(out) == [ToWorker(out[0])] + [ToWorker(out[1])];
      CountAppend([ToWorker(out[0])], [ToWorker(out[1])], o);
    }
  }

  lemma ConsumerSays(uuid: nat, st: State, a: Action, o: RelayOutput)
    requires a.Receive? && (a.control.Sub? || a.control.Unsub?) && IsMessage(o)
    ensures var (st', out) := Handle(uuid, st, a); Count(out, o) == if Owes(uuid, st, a, st', o) then 1 else 0
  {
    var base := ConsumersOf(st);
    var (c, changes) := RemoteControl(base, a.now, a.remote, a.control);
    RemoteControlSays(base, a.now, a.remote, a.control, o);
    if HasConsumers(st) {
      SettleSays(uuid, a.now, st, c, o);
      CountAppend(Wrap(changes), Settle(uuid, a.now, st, c).1, o);
    } else {
      CountAppend(Wrap(changes), [ToWorker(SendSub(uuid, RestartVia(st)))], o);
    }
  }

  lemma HopSays(uuid: nat, st: State, a: Action, o: RelayOutput)
    requires a.Receive? && !(a.control.Sub? || a.control.Unsub?) && NoDuplicates(ConsumersOf(st).locals) && IsMessage(o)
    ensures var (st', out) := Handle(uuid, st, a); Count(out, o) == if Owes(uuid, st, a, st', o) then 1 else 0
  {
    if Rerouted(uuid, st, a) {
      RerouteSays(uuid, st, a, o);
    }
  }

  /** The parts of what a changed route says. */
  lemma RerouteSays(uuid: nat, st: State, a: Action, o: RelayOutput)
    requires Rerouted(uuid, st, a) && NoDuplicates(st.consumers.locals)
    ensures var c := st.consumers;
      Count(Handle(uuid, st, a).1, o) ==
        (if a.control.SubOK? && o == ToWorker(SendUnsub(uuid, st.next)) then 1 else 0)
        + (if c.remotes != map[] && o == ToWorker(SendRouteChanged) then 1 else 0)
        + (if a.control.SubOK? && o == ToWorker(RouteSetSource(a.remote)) then 1 else 0)
        + (if o.NotifyRouteChanged? && o.actor in c.locals then 1 else 0)
  {
    var announce := if st.consumers.remotes != map[] then [ToWorker(SendRouteChanged)] else [];
    NoticesSay(st.consumers.locals, o);
    CountAppend(announce, Notices(st.consumers.locals), o);
    if a.control.SubOK? {
      var (leave, route) := ([ToWorker(SendUnsub(uuid, st.next))], [ToWorker(RouteSetSource(a.remote))]);
      CountAppend(leave, announce, o);
      CountAppend(leave + announce, route, o);
      CountAppend(leave + announce + route, Notices(st.consumers.locals), o);
    }
  }

  /** In every run, every step says everything it has to say exactly once, and nothing else: it asks upstream, confirms to
      remotes, takes leave of hops and announces a changed route. */
  lemma StepSaysExactly(uuid: nat, actions: seq<Action>, a: Action, o: RelayOutput)
    requires (a.Tick? ==> Enumerates(a.order, ConsumersOf(Run(uuid, actions).0).remotes.Keys)) && IsMessage(o)
    ensures var st := Run(uuid, actions).0;
      var (st', out) := Handle(uuid, st, a);
      Count(out, o) == if Owes(uuid, st, a, st', o) then 1 else 0
  {
    var st := Run(uuid, actions).0;
    EveryRunIsMirrored(uuid, actions);
    match a
    case Tick(_, _) => TickSays(uuid, st, a, o);
    case Drop(_, _) => DropSays(uuid, st, a, o);
    case Receive(_, _, control) => if control.Sub? || control.Unsub? { ConsumerSays(uuid, st, a, o); } else { HopSays(uuid, st, a, o); }
    case Recreate =>
    case _ => LocalSays(uuid, st, a, o);
  }
}
