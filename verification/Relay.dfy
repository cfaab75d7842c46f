/** Pub/sub relays: the controller's relay of one remote source, the worker's route entry it drives through
    controls, and the mirror between the two over every run. */
module Relay {
  import opened Identity
  import opened Endpoints

  const RELAY_TIMEOUT: nat := 10_000
  const RELAY_STICKY_MS: nat := 300_000

  datatype RelayControl = Sub(uuid: nat) | Unsub(uuid: nat) | SubOK(uuid: nat) | UnsubOK(uuid: nat) | RouteChanged(uuid: nat)

  datatype WorkerControl =
    | SendSub(uuid: nat, via: Option<NetPair>)
    | SendUnsub(uuid: nat, to: NetPair)
    | SendSubOk(uuid: nat, to: NetPair)
    | SendUnsubOk(uuid: nat, to: NetPair)
    | SendRouteChanged
    | RouteSetSource(source: NetPair)
    | RouteDelSource(source: NetPair)
    | RouteSetLocal(actor: Actor)
    | RouteDelLocal(actor: Actor)
    | RouteSetRemote(remote: NetPair, uuid: nat)
    | RouteDelRemote(remote: NetPair)

  datatype RelayOutput = ToWorker(control: WorkerControl) | NotifyRouteChanged(actor: Actor)

  // ---- consumers ----------------------------------------------------------------------------

  datatype RelayRemote = RelayRemote(uuid: nat, lastSub: nat)
  datatype Consumers = Consumers(remotes: map<NetPair, RelayRemote>, locals: seq<Actor>)

  const NoConsumers := Consumers(map[], [])

  predicate ShouldClear(c: Consumers) { c.locals == [] && c.remotes == map[] }

  predicate Expired(c: Consumers, now: nat, remote: NetPair) {
    remote in c.remotes && now >= c.remotes[remote].lastSub + RELAY_TIMEOUT
  }

  function DropRemotes(c: Consumers, gone: seq<NetPair>): (Consumers, seq<WorkerControl>)
    decreases |gone|
  {
    if gone == [] then (c, [])
    else
      var (rest, out) := DropRemotes(c.(remotes := c.remotes - {gone[0]}), gone[1..]);
      (rest, [RouteDelRemote(gone[0])] + out)
  }

  /** The remotes silent for too long, in the order in which the map of remotes yields its keys. */
  function Timeouts(c: Consumers, now: nat, order: seq<NetPair>): seq<NetPair> {
    Filter(order, r => Expired(c, now, r))
  }

  function ConsumersTick(c: Consumers, now: nat, order: seq<NetPair>): (Consumers, seq<WorkerControl>) {
    DropRemotes(c, Timeouts(c, now, order))
  }

  function LocalSub(c: Consumers, actor: Actor): (Consumers, seq<WorkerControl>) {
    if actor in c.locals then (c, []) else (c.(locals := c.locals + [actor]), [RouteSetLocal(actor)])
  }

  function LocalUnsub(c: Consumers, actor: Actor): (Consumers, seq<WorkerControl>) {
    if actor in c.locals then (c.(locals := Without(c.locals, actor)), [RouteDelLocal(actor)]) else (c, [])
  }

  function RemoteControl(c: Consumers, now: nat, remote: NetPair, control: RelayControl): (Consumers, seq<WorkerControl>) {
    match control
    case Sub(uuid) =>
      if remote !in c.remotes then
        (c.(remotes := c.remotes[remote := RelayRemote(uuid, now)]), [SendSubOk(uuid, remote), RouteSetRemote(remote, uuid)])
      else if c.remotes[remote].uuid == uuid then
        (c.(remotes := c.remotes[remote := RelayRemote(uuid, now)]), [SendSubOk(uuid, remote)])
      else (c, [])
    case Unsub(uuid) =>
      if remote in c.remotes && c.remotes[remote].uuid == uuid then
        (c.(remotes := c.remotes - {remote}), [SendUnsubOk(uuid, remote), RouteDelRemote(remote)])
      else (c, [])
    case _ => (c, [])
  }

  function Disconnected(c: Consumers, remote: NetPair): (Consumers, seq<WorkerControl>) {
    if remote in c.remotes then (c.(remotes := c.remotes - {remote}), [RouteDelRemote(remote)]) else (c, [])
  }

  // ---- the relay of a remote source ---------------------------------------------------------

  datatype State =
    | New
    | Binding(consumers: Consumers)
    | Bound(consumers: Consumers, next: NetPair, stickyAt: nat)
    | Unbinding(next: NetPair, startedAt: nat)
    | Unbound

  function Wrap(controls: seq<WorkerControl>): (out: seq<RelayOutput>)
    ensures |out| == |controls|
  {
    seq(|controls|, i requires 0 <= i < |controls| => ToWorker(controls[i]))
  }

  function Notices(actors: seq<Actor>): (out: seq<RelayOutput>)
    ensures |out| == |actors|
  {
    seq(|actors|, i requires 0 <= i < |actors| => NotifyRouteChanged(actors[i]))
  }

  /** The consumers of a bound or binding relay changed to `c`: a relay left without any is given up. */
  function Settle(uuid: nat, now: nat, st: State, c: Consumers): (State, seq<RelayOutput>)
    requires st.Bound? || st.Binding?
  {
    if !ShouldClear(c) then (st.(consumers := c), [])
    else if st.Binding? then (Unbound, [])
    else (Unbinding(st.next, now), [ToWorker(SendUnsub(uuid, st.next)), ToWorker(RouteDelSource(st.next))])
  }

  function OnTick(uuid: nat, st: State, now: nat, order: seq<NetPair>): (State, seq<RelayOutput>) {
    match st
    case Bound(consumers, next, stickyAt) =>
      var via := if now >= stickyAt + RELAY_STICKY_MS then None else Some(next);
      var (c, out) := ConsumersTick(consumers, now, order);
      var (st', more) := Settle(uuid, now, st, c);
      (st', [ToWorker(SendSub(uuid, via))] + Wrap(out) + more)
    case Binding(consumers) =>
      var (c, out) := ConsumersTick(consumers, now, order);
      var (st', more) := Settle(uuid, now, st, c);
      (st', [ToWorker(SendSub(uuid, None))] + Wrap(out) + more)
    case Unbinding(next, startedAt) =>
      if now >= startedAt + RELAY_TIMEOUT then (Unbound, []) else (st, [ToWorker(SendUnsub(uuid, next))])
    case _ => (st, [])
  }

  function OnDisconnected(uuid: nat, st: State, now: nat, remote: NetPair): (State, seq<RelayOutput>) {
    match st
    case Bound(consumers, next, _) =>
      var (c, out) := Disconnected(consumers, remote);
      if next == remote then (Binding(c), Wrap(out) + [ToWorker(SendSub(uuid, None))])
      else var (st', more) := Settle(uuid, now, st, c); (st', Wrap(out) + more)
    case Binding(consumers) =>
      var (c, out) := Disconnected(consumers, remote);
      var (st', more) := Settle(uuid, now, st, c);
      (st', Wrap(out) + more)
    case _ => (st, [])
  }

  /** Where a relay that starts over asks first: the hop it is still leaving, if any. */
  function RestartVia(st: State): Option<NetPair> {
    if st.Unbinding? then Some(st.next) else None
  }

  function OnLocalSub(uuid: nat, st: State, actor: Actor): (State, seq<RelayOutput>) {
    if st.Binding? || st.Bound? then
      var (c, out) := LocalSub(st.consumers, actor);
      (st.(consumers := c), Wrap(out))
    else
      var (c, out) := LocalSub(NoConsumers, actor);
      (Binding(c), Wrap(out) + [ToWorker(SendSub(uuid, RestartVia(st)))])
  }

  function OnLocalUnsub(uuid: nat, st: State, now: nat, actor: Actor): (State, seq<RelayOutput>) {
    if st.Binding? || st.Bound? then
      var (c, out) := LocalUnsub(st.consumers, actor);
      var (st', more) := Settle(uuid, now, st, c);
      (st', Wrap(out) + more)
    else (st, [])
  }

  function OnRemote(uuid: nat, st: State, now: nat, remote: NetPair, control: RelayControl): (State, seq<RelayOutput>) {
    match control
    case SubOK(session) =>
      if session != uuid then (st, [])
      else if st.Binding? then (Bound(st.consumers, remote, now), [ToWorker(RouteSetSource(remote))])
      else if st.Bound? && st.next == remote then (st.(stickyAt := now), [])
      else if st.Bound? then
        (Bound(st.consumers, remote, st.stickyAt),
         [ToWorker(SendUnsub(uuid, st.next))]
         + (if st.consumers.remotes != map[] then [ToWorker(SendRouteChanged)] else [])
         + [ToWorker(RouteSetSource(remote))]
         + Notices(st.consumers.locals))
      else (st, [])
    case UnsubOK(session) =>
      if session == uuid && st.Unbinding? then (Unbound, []) else (st, [])
    case RouteChanged(session) =>
      if session == uuid && st.Bound? then
        (st, (if st.consumers.remotes != map[] then [ToWorker(SendRouteChanged)] else []) + Notices(st.consumers.locals))
      else (st, [])
    case _ =>
      if st.Binding? || st.Bound? then
        var (c, out) := RemoteControl(st.consumers, now, remote, control);
        var (st', more) := Settle(uuid, now, st, c);
        (st', Wrap(out) + more)
      else
        var (c, out) := RemoteControl(NoConsumers, now, remote, control);
        (Binding(c), Wrap(out) + [ToWorker(SendSub(uuid, RestartVia(st)))])
  }

  // ---- the worker's route entry -------------------------------------------------------------

  datatype Route = Route(source: Option<NetPair>, locals: seq<Actor>, remotes: seq<NetPair>)

  /** The route entry of one relay; absent when the worker has none. */
  type Entry = Option<Route>

  function Source(e: Entry): Option<NetPair> { if e.Some? then e.value.source else None }
  function Locals(e: Entry): seq<Actor> { if e.Some? then e.value.locals else [] }
  function Remotes(e: Entry): seq<NetPair> { if e.Some? then e.value.remotes else [] }

  function OrNew(e: Entry): Route { if e.Some? then e.value else Route(None, [], []) }

  function Trim(r: Route): Entry { if r.locals == [] && r.remotes == [] then None else Some(r) }

  function Apply(e: Entry, control: WorkerControl): Entry {
    match control
    case RouteSetSource(source) => Some(OrNew(e).(source := Some(source)))
    case RouteDelSource(source) => if Source(e) == Some(source) then Some(e.value.(source := None)) else e
    case RouteSetLocal(actor) => Some(OrNew(e).(locals := OrNew(e).locals + [actor]))
    case RouteDelLocal(actor) => if e.Some? then Trim(e.value.(locals := Without(e.value.locals, actor))) else None
    case RouteSetRemote(remote, _) => Some(OrNew(e).(remotes := OrNew(e).remotes + [remote]))
    case RouteDelRemote(remote) => if e.Some? then Trim(e.value.(remotes := Without(e.value.remotes, remote))) else None
    case _ => e
  }

  /** The entry after a stream of outputs reached the worker. */
  function Replay(e: Entry, out: seq<RelayOutput>): Entry
    decreases |out|
  {
    if out == [] then e
    else Replay(if out[0].ToWorker? then Apply(e, out[0].control) else e, out[1..])
  }

  /** A data packet from `remote`: the local actors it is handed to and the hops it is relayed to. */
  function Deliveries(e: Entry, remote: NetPair): (seq<Actor>, seq<NetPair>) {
    if e.Some? && e.value.source == Some(remote) then (e.value.locals, e.value.remotes) else ([], [])
  }

  // ---- runs ---------------------------------------------------------------------------------

  /** `Recreate` is the controller dropping a relay that is over and starting a new one for the same source. */
  datatype Action =
    | Tick(now: nat, order: seq<NetPair>)
    | Drop(now: nat, remote: NetPair)
    | Subscribe(actor: Actor)
    | Unsubscribe(now: nat, actor: Actor)
    | Receive(now: nat, remote: NetPair, control: RelayControl)
    | Recreate

  predicate HasConsumers(st: State) { st.Binding? || st.Bound? }

  function ConsumersOf(st: State): Consumers { if HasConsumers(st) then st.consumers else NoConsumers }

  ghost function Handle(uuid: nat, st: State, a: Action): (State, seq<RelayOutput>) {
    match a
    case Tick(now, order) => if Enumerates(order, ConsumersOf(st).remotes.Keys) then OnTick(uuid, st, now, order) else (st, [])
    case Drop(now, remote) => OnDisconnected(uuid, st, now, remote)
    case Subscribe(actor) => OnLocalSub(uuid, st, actor)
    case Unsubscribe(now, actor) => OnLocalUnsub(uuid, st, now, actor)
    case Receive(now, remote, control) => OnRemote(uuid, st, now, remote, control)
    case Recreate => (if st.Unbound? then New else st, [])
  }

  /** The relay and everything it has sent so far. */
  ghost function Run(uuid: nat, actions: seq<Action>): (State, seq<RelayOutput>) {
    if actions == [] then (New, [])
    else
      var (st, sent) := Run(uuid, actions[..|actions| - 1]);
      var (st', out) := Handle(uuid, st, actions[|actions| - 1]);
      (st', sent + out)
  }

  // ---- the mirror ---------------------------------------------------------------------------

  /** The entry lists the consumers: the locals in the same order, the remotes each exactly once. */
  ghost predicate Mirrors(c: Consumers, e: Entry) {
    && Locals(e) == c.locals && NoDuplicates(c.locals)
    && multiset(Remotes(e)) == multiset(c.remotes.Keys)
  }

  ghost predicate Mirrored(st: State, e: Entry) {
    && Mirrors(ConsumersOf(st), e)
    && (st.Bound? ==> Source(e) == Some(st.next))
  }

  /** What becomes of the source when the consumers change from `c` to `c'`: the worker's entry goes with the last
      consumer, and only then. */
  function Surviving(c: Consumers, c': Consumers, source: Option<NetPair>): Option<NetPair> {
    if !ShouldClear(c) && ShouldClear(c') then None else source
  }

  /** The hop the worker listens to, told from the relay's own steps: the hop bound; nobody once a bound relay starts to
      leave or its last consumer is removed; else the same as before, through loss of the hop, unbinding and a new
      relay alike. */
  function HeardStep(st: State, st': State, heard: Option<NetPair>): Option<NetPair> {
    if st'.Bound? then Some(st'.next)
    else if st.Bound? && st'.Unbinding? then None
    else Surviving(ConsumersOf(st), ConsumersOf(st'), heard)
  }

  ghost function Heard(uuid: nat, actions: seq<Action>): Option<NetPair> {
    if actions == [] then None
    else
      var before := actions[..|actions| - 1];
      HeardStep(Run(uuid, before).0, Run(uuid, actions).0, Heard(uuid, before))
  }

  /** A step of relay and worker: the mirror holds again, and the source follows the relay. */
  ghost predicate Follows(st: State, e: Entry, st': State, e': Entry) {
    Mirrored(st', e') && Source(e') == HeardStep(st, st', Source(e))
  }

  lemma {:induction false} ReplayAppend(e: Entry, a: seq<RelayOutput>, b: seq<RelayOutput>)
    ensures Replay(e, a + b) == Replay(Replay(e, a), b)
    decreases |a|
  {
    if a == [] {
      assert a + b == b;
    } else {
      assert (a + b)[1..] == a[1..] + b;
      ReplayAppend(if a[0].ToWorker? then Apply(e, a[0].control) else e, a[1..], b);
    }
  }

  lemma ReplayOne(e: Entry, out: RelayOutput)
    ensures Replay(e, [out]) == if out.ToWorker? then Apply(e, out.control) else e
  {
  }

  lemma {:induction false} ReplayNotices(e: Entry, actors: seq<Actor>)
    ensures Replay(e, Notices(actors)) == e
  {
    if actors != [] {
      assert Notices(actors)[1..] == Notices(actors[1..]);
      ReplayNotices(e, actors[1..]);
    }
  }

  lemma WrapCons(first: WorkerControl, rest: seq<WorkerControl>)
    ensures Wrap([first] + rest) == [ToWorker(first)] + Wrap(rest)
  {
  }

  lemma RemoveKey(remotes: map<NetPair, RelayRemote>, remote: NetPair)
    requires remote in remotes
    ensures (remotes - {remote}).Keys == remotes.Keys - {remote}
    ensures multiset((remotes - {remote}).Keys) == multiset(remotes.Keys) - multiset{remote}
  {
  }

  lemma NoRemotes(c: Consumers, e: Entry)
    requires Mirrors(c, e)
    ensures Remotes(e) == [] <==> c.remotes == map[]
  {
    if Remotes(e) != [] {
      assert Remotes(e)[0] in multiset(Remotes(e));
    }
    if c.remotes != map[] {
      var r :| r in c.remotes;
      assert r in multiset(c.remotes.Keys);
    }
  }

  /** A trimmed entry keeps its source exactly while there are consumers. */
  lemma TrimmedSource(c: Consumers, route: Route)
    requires Mirrors(c, Trim(route))
    ensures Source(Trim(route)) == if ShouldClear(c) then None else route.source
  {
    NoRemotes(c, Trim(route));
  }

  /** Forgetting a remote on both sides. */
  lemma DropRemoteMirrors(c: Consumers, e: Entry, remote: NetPair)
    requires Mirrors(c, e) && remote in c.remotes
    ensures Mirrors(c.(remotes := c.remotes - {remote}), Apply(e, RouteDelRemote(remote)))
    ensures Source(Apply(e, RouteDelRemote(remote))) == Surviving(c, c.(remotes := c.remotes - {remote}), Source(e))
  {
    NoRemotes(c, e);
    RemotesMirror(c, e, remote);
    TrimmedSource(c.(remotes := c.remotes - {remote}), e.value.(remotes := Without(e.value.remotes, remote)));
  }

  lemma RemotesMirror(c: Consumers, e: Entry, remote: NetPair)
    requires Mirrors(c, e) && remote in c.remotes && e.Some?
    ensures Mirrors(c.(remotes := c.remotes - {remote}), Apply(e, RouteDelRemote(remote)))
  {
    RemoveKey(c.remotes, remote);
    WithoutBag(Remotes(e), remote);
  }

  lemma {:induction false} DropRemotesMirrors(c: Consumers, e: Entry, gone: seq<NetPair>)
    requires Mirrors(c, e)
    requires forall r :: multiset(gone)[r] <= multiset(c.remotes.Keys)[r]
    ensures var (c', out) := DropRemotes(c, gone); Mirrors(c', Replay(e, Wrap(out))) && Source(Replay(e, Wrap(out))) == Surviving(c, c', Source(e))
    decreases |gone|
  {
    if gone != [] {
      var (c1, e1) := (c.(remotes := c.remotes - {gone[0]}), Apply(e, RouteDelRemote(gone[0])));
      GoneIsThere(c, gone);
      DropRemoteMirrors(c, e, gone[0]);
      DropRemotesMirrors(c1, e1, gone[1..]);
      ReplayWrapped(e, RouteDelRemote(gone[0]), DropRemotes(c1, gone[1..]).1);
      if ShouldClear(c1) { NothingLeft(c1, gone[1..]); }
    }
  }

  lemma GoneIsThere(c: Consumers, gone: seq<NetPair>)
    requires gone != [] && forall r :: multiset(gone)[r] <= multiset(c.remotes.Keys)[r]
    ensures gone[0] in c.remotes
    ensures forall r :: multiset(gone[1..])[r] <= multiset((c.remotes - {gone[0]}).Keys)[r]
  {
    assert gone == [gone[0]] + gone[1..];
    assert multiset(gone)[gone[0]] > 0;
    RemoveKey(c.remotes, gone[0]);
  }

  lemma NothingLeft(c: Consumers, gone: seq<NetPair>)
    requires ShouldClear(c) && forall r :: multiset(gone)[r] <= multiset(c.remotes.Keys)[r]
    ensures gone == []
  {
    if gone != [] {
      GoneIsThere(c, gone);
    }
  }

  lemma ReplayWrapped(e: Entry, first: WorkerControl, rest: seq<WorkerControl>)
    ensures Replay(e, Wrap([first] + rest)) == Replay(Apply(e, first), Wrap(rest))
  {
    WrapCons(first, rest);
    ReplayAppend(e, [ToWorker(first)], Wrap(rest));
    ReplayOne(e, ToWorker(first));
  }

  /** The controls of a change from consumers `c` to `c'` reach the entry. */
  ghost predicate Carried(c: Consumers, e: Entry, c': Consumers, out: seq<WorkerControl>) {
    Mirrors(c', Replay(e, Wrap(out))) && Source(Replay(e, Wrap(out))) == Surviving(c, c', Source(e))
  }

  lemma NothingCarried(e: Entry, c: Consumers)
    requires Mirrors(c, e)
    ensures Carried(c, e, c, [])
  {
  }

  lemma OneCarried(c: Consumers, e: Entry, c': Consumers, control: WorkerControl)
    requires Mirrors(c', Apply(e, control)) && Source(Apply(e, control)) == Surviving(c, c', Source(e))
    ensures Carried(c, e, c', [control])
  {
  }

  lemma TwoCarried(c: Consumers, e: Entry, c': Consumers, first: WorkerControl, second: WorkerControl)
    requires Apply(e, first) == e && Carried(c, e, c', [second])
    ensures Carried(c, e, c', [first, second])
  {
    assert [first, second] == [first] + [second];
    WrapCons(first, [second]);
    ReplayAppend(e, [ToWorker(first)], Wrap([second]));
    ReplayOne(e, ToWorker(first));
  }

  lemma AddRemoteMirrors(c: Consumers, e: Entry, remote: NetPair, slot: RelayRemote)
    requires Mirrors(c, e) && remote !in c.remotes
    ensures Mirrors(c.(remotes := c.remotes[remote := slot]), Apply(e, RouteSetRemote(remote, slot.uuid)))
  {
  }

  lemma RemoteControlCarried(c: Consumers, e: Entry, now: nat, remote: NetPair, control: RelayControl)
    requires Mirrors(c, e)
    ensures var (c', out) := RemoteControl(c, now, remote, control); Carried(c, e, c', out)
  {
    var (c', out) := RemoteControl(c, now, remote, control);
    if out == [] {
      NothingCarried(e, c);
    } else if control.Sub? && remote !in c.remotes {
      AddRemoteMirrors(c, e, remote, RelayRemote(control.uuid, now));
      OneCarried(c, e, c', RouteSetRemote(remote, control.uuid));
      TwoCarried(c, e, c', SendSubOk(control.uuid, remote), RouteSetRemote(remote, control.uuid));
    } else if control.Sub? {
      assert c'.remotes.Keys == c.remotes.Keys;
      OneCarried(c, e, c', SendSubOk(control.uuid, remote));
    } else {
      DropRemoteMirrors(c, e, remote);
      OneCarried(c, e, c', RouteDelRemote(remote));
      TwoCarried(c, e, c', SendUnsubOk(control.uuid, remote), RouteDelRemote(remote));
    }
  }

  lemma DisconnectedCarried(c: Consumers, e: Entry, remote: NetPair)
    requires Mirrors(c, e)
    ensures var (c', out) := Disconnected(c, remote); Carried(c, e, c', out)
  {
    if remote in c.remotes {
      DropRemoteMirrors(c, e, remote);
      OneCarried(c, e, Disconnected(c, remote).0, RouteDelRemote(remote));
    } else {
      NothingCarried(e, c);
    }
  }

  lemma LocalSubCarried(c: Consumers, e: Entry, actor: Actor)
    requires Mirrors(c, e)
    ensures var (c', out) := LocalSub(c, actor); Carried(c, e, c', out)
  {
    if actor in c.locals {
      NothingCarried(e, c);
    } else {
      OneCarried(c, e, LocalSub(c, actor).0, RouteSetLocal(actor));
    }
  }

  /** Forgetting a local actor on both sides. */
  lemma DropLocalMirrors(c: Consumers, e: Entry, actor: Actor)
    requires Mirrors(c, e) && actor in c.locals
    ensures Mirrors(c.(locals := Without(c.locals, actor)), Apply(e, RouteDelLocal(actor)))
    ensures Source(Apply(e, RouteDelLocal(actor))) == Surviving(c, c.(locals := Without(c.locals, actor)), Source(e))
  {
    WithoutFacts(c.locals, actor);
    TrimmedSource(c.(locals := Without(c.locals, actor)), e.value.(locals := Without(e.value.locals, actor)));
  }

  lemma LocalUnsubCarried(c: Consumers, e: Entry, actor: Actor)
    requires Mirrors(c, e)
    ensures var (c', out) := LocalUnsub(c, actor); Carried(c, e, c', out)
  {
    if actor in c.locals {
      DropLocalMirrors(c, e, actor);
      OneCarried(c, e, LocalUnsub(c, actor).0, RouteDelLocal(actor));
    } else {
      NothingCarried(e, c);
    }
  }

  lemma TickCarried(c: Consumers, e: Entry, now: nat, order: seq<NetPair>)
    requires Mirrors(c, e) && Enumerates(order, c.remotes.Keys)
    ensures var (c', out) := ConsumersTick(c, now, order); Carried(c, e, c', out)
  {
    FilterFacts(order, r => Expired(c, now, r));
    DropRemotesMirrors(c, e, Timeouts(c, now, order));
  }

  lemma TimeoutsStep(c: Consumers, now: nat, order: seq<NetPair>, r: NetPair)
    ensures Timeouts(c, now, order + [r]) == Timeouts(c, now, order) + if Expired(c, now, r) then [r] else []
  {
    FilterAppend(order, r, x => Expired(c, now, x));
  }

  /** After the consumers changed, settling re-establishes the mirror. */
  lemma SettleMirrors(uuid: nat, now: nat, st: State, c: Consumers, e: Entry, source: Option<NetPair>)
    requires HasConsumers(st) && Mirrors(c, e) && Source(e) == Surviving(st.consumers, c, source)
    requires st.Bound? ==> source == Some(st.next)
    ensures var (st', out) := Settle(uuid, now, st, c);
      Mirrored(st', Replay(e, out)) && Source(Replay(e, out)) == HeardStep(st, st', source)
  {
    if ShouldClear(c) {
      if st.Bound? {
        ReplayOne(e, ToWorker(SendUnsub(uuid, st.next)));
        ReplayOne(e, ToWorker(RouteDelSource(st.next)));
        ReplayAppend(e, [ToWorker(SendUnsub(uuid, st.next))], [ToWorker(RouteDelSource(st.next))]);
        assert [ToWorker(SendUnsub(uuid, st.next))] + [ToWorker(RouteDelSource(st.next))] == Settle(uuid, now, st, c).1;
      }
    }
  }

  /** A change of consumers, then settling. */
  lemma ChangeThenSettle(uuid: nat, now: nat, st: State, c: Consumers, changes: seq<WorkerControl>, e: Entry)
    requires HasConsumers(st) && Mirrored(st, e) && Carried(st.consumers, e, c, changes)
    ensures var (st', out) := Settle(uuid, now, st, c); Follows(st, e, st', Replay(e, Wrap(changes) + out))
  {
    SettleMirrors(uuid, now, st, c, Replay(e, Wrap(changes)), Source(e));
    ReplayAppend(e, Wrap(changes), Settle(uuid, now, st, c).1);
  }

  /** Sending something that is not a route control leaves the entry alone. */
  predicate Silent(out: seq<RelayOutput>) {
    forall o :: o in out ==> o.NotifyRouteChanged? || o.control.SendSub? || o.control.SendUnsub? || o.control.SendRouteChanged?
  }

  lemma {:induction false} ReplaySilent(e: Entry, out: seq<RelayOutput>)
    requires Silent(out)
    ensures Replay(e, out) == e
    decreases |out|
  {
    if out != [] {
      assert out[0] in out;
      ReplaySilent(e, out[1..]);
    }
  }

  lemma StepKeepsMirror(uuid: nat, st: State, e: Entry, a: Action)
    requires Mirrored(st, e)
    ensures var (st', out) := Handle(uuid, st, a); Follows(st, e, st', Replay(e, out))
  {
    match a
    case Tick(now, order) => TickKeepsMirror(uuid, st, e, now, order);
    case Drop(now, remote) => DropKeepsMirror(uuid, st, e, now, remote);
    case Subscribe(actor) => SubscribeKeepsMirror(uuid, st, e, actor);
    case Unsubscribe(now, actor) =>
      if HasConsumers(st) {
        LocalUnsubCarried(st.consumers, e, actor);
        var (c, out) := LocalUnsub(st.consumers, actor);
        ChangeThenSettle(uuid, now, st, c, out, e);
      }
    case Receive(now, remote, control) => ReceiveKeepsMirror(uuid, st, e, now, remote, control);
    case Recreate =>
  }

  lemma TickKeepsMirror(uuid: nat, st: State, e: Entry, now: nat, order: seq<NetPair>)
    requires Mirrored(st, e)
    ensures var (st', out) := Handle(uuid, st, Tick(now, order)); Follows(st, e, st', Replay(e, out))
  {
    if HasConsumers(st) && Enumerates(order, st.consumers.remotes.Keys) {
      TickCarried(st.consumers, e, now, order);
      var (c, out) := ConsumersTick(st.consumers, now, order);
      ChangeThenSettle(uuid, now, st, c, out, e);
      var via := if st.Binding? || now >= st.stickyAt + RELAY_STICKY_MS then None else Some(st.next);
      AskFirst(e, uuid, via, Wrap(out), Settle(uuid, now, st, c).1);
    } else {
      ReplaySilent(e, Handle(uuid, st, Tick(now, order)).1);
    }
  }

  lemma AskFirst(e: Entry, uuid: nat, via: Option<NetPair>, a: seq<RelayOutput>, b: seq<RelayOutput>)
    ensures Replay(e, [ToWorker(SendSub(uuid, via))] + a + b) == Replay(e, a + b)
  {
    var first := ToWorker(SendSub(uuid, via));
    ReplayOne(e, first);
    ReplayAppend(e, [first], a + b);
    assert [first] + (a + b) == [first] + a + b;
  }

  lemma DropKeepsMirror(uuid: nat, st: State, e: Entry, now: nat, remote: NetPair)
    requires Mirrored(st, e)
    ensures var (st', out) := OnDisconnected(uuid, st, now, remote); Follows(st, e, st', Replay(e, out))
  {
    if HasConsumers(st) {
      DisconnectedCarried(st.consumers, e, remote);
      var (c, out) := Disconnected(st.consumers, remote);
      if st.Bound? && st.next == remote {
        ReplayAppend(e, Wrap(out), [ToWorker(SendSub(uuid, None))]);
        ReplayOne(Replay(e, Wrap(out)), ToWorker(SendSub(uuid, None)));
      } else {
        ChangeThenSettle(uuid, now, st, c, out, e);
      }
    }
  }

  /** A relay that starts over with its first consumer. */
  lemma RestartMirrors(uuid: nat, st: State, e: Entry, c: Consumers, out: seq<WorkerControl>)
    requires !HasConsumers(st) && Carried(NoConsumers, e, c, out)
    ensures Follows(st, e, Binding(c), Replay(e, Wrap(out) + [ToWorker(SendSub(uuid, RestartVia(st)))]))
  {
    var last := ToWorker(SendSub(uuid, RestartVia(st)));
    ReplayAppend(e, Wrap(out), [last]);
    ReplayOne(Replay(e, Wrap(out)), last);
  }

  lemma SubscribeKeepsMirror(uuid: nat, st: State, e: Entry, actor: Actor)
    requires Mirrored(st, e)
    ensures var (st', out) := OnLocalSub(uuid, st, actor); Follows(st, e, st', Replay(e, out))
  {
    var base := ConsumersOf(st);
    LocalSubCarried(base, e, actor);
    var (c, out) := LocalSub(base, actor);
    if HasConsumers(st) {
      var e' := Replay(e, Wrap(out));
      assert e'.None? ==> Locals(e') == [];
      assert c.locals != [];
    } else {
      RestartMirrors(uuid, st, e, c, out);
    }
  }

  /** A relay bound to a new hop. */
  lemma TakeOverMirrors(uuid: nat, st: State, e: Entry, now: nat, remote: NetPair)
    requires Mirrored(st, e) && HasConsumers(st) && (st.Bound? ==> st.next != remote)
    ensures var (st', out) := OnRemote(uuid, st, now, remote, SubOK(uuid)); Follows(st, e, st', Replay(e, out))
  {
    var take := ToWorker(RouteSetSource(remote));
    ReplayOne(e, take);
    if st.Bound? {
      var before := [ToWorker(SendUnsub(uuid, st.next))] + if st.consumers.remotes != map[] then [ToWorker(SendRouteChanged)] else [];
      ReplaySilent(e, before);
      ReplayAppend(e, before, [take]);
      ReplayNotices(Replay(e, [take]), st.consumers.locals);
      ReplayAppend(e, before + [take], Notices(st.consumers.locals));
    }
  }

  lemma ReceiveKeepsMirror(uuid: nat, st: State, e: Entry, now: nat, remote: NetPair, control: RelayControl)
    requires Mirrored(st, e)
    ensures var (st', out) := OnRemote(uuid, st, now, remote, control); Follows(st, e, st', Replay(e, out))
  {
    if control.Sub? || control.Unsub? {
      var base := ConsumersOf(st);
      RemoteControlCarried(base, e, now, remote, control);
      var (c, out) := RemoteControl(base, now, remote, control);
      if HasConsumers(st) {
        ChangeThenSettle(uuid, now, st, c, out, e);
      } else {
        RestartMirrors(uuid, st, e, c, out);
      }
    } else if control.SubOK? && control.uuid == uuid && HasConsumers(st) && !(st.Bound? && st.next == remote) {
      TakeOverMirrors(uuid, st, e, now, remote);
    } else {
      ReplaySilent(e, OnRemote(uuid, st, now, remote, control).1);
    }
  }

  lemma {:induction false} EveryRunIsMirrored(uuid: nat, actions: seq<Action>)
    ensures var (st, sent) := Run(uuid, actions); Mirrored(st, Replay(None, sent)) && Source(Replay(None, sent)) == Heard(uuid, actions)
  {
    if actions != [] {
      var (st, sent) := Run(uuid, actions[..|actions| - 1]);
      EveryRunIsMirrored(uuid, actions[..|actions| - 1]);
      StepKeepsMirror(uuid, st, Replay(None, sent), actions[|actions| - 1]);
      ReplayAppend(None, sent, Handle(uuid, st, actions[|actions| - 1]).1);
    }
  }

  // ---- who gets a packet --------------------------------------------------------------------

  /** Each consumer in `c` exactly once if `reached`, and nobody at all otherwise. */
  ghost predicate DeliversTo(delivered: (seq<Actor>, seq<NetPair>), c: Consumers, reached: bool) {
    && (forall a :: multiset(delivered.0)[a] == if reached && a in c.locals then 1 else 0)
    && (forall r :: multiset(delivered.1)[r] == if reached && r in c.remotes then 1 else 0)
  }

  /** In every run and every state, a packet reaches each current consumer exactly once if it comes from the hop that
      is heard, and nobody if it comes from any other. */
  lemma DeliversIffHeard(uuid: nat, actions: seq<Action>, from: NetPair)
    ensures var (st, sent) := Run(uuid, actions);
      DeliversTo(Deliveries(Replay(None, sent), from), ConsumersOf(st), Heard(uuid, actions) == Some(from))
  {
    EveryRunIsMirrored(uuid, actions);
    var c := ConsumersOf(Run(uuid, actions).0);
    NoDuplicatesIff(c.locals);
    assert forall a :: a in c.locals <==> multiset(c.locals)[a] > 0;
    assert forall r :: r in c.remotes <==> multiset(c.remotes.Keys)[r] > 0;
  }

  /** Through a bound relay that is the bound hop and no other. */
  lemma BoundRelayDelivers(uuid: nat, actions: seq<Action>, from: NetPair)
    requires Run(uuid, actions).0.Bound?
    ensures var (st, sent) := Run(uuid, actions);
      DeliversTo(Deliveries(Replay(None, sent), from), st.consumers, from == st.next)
  {
    EveryRunIsMirrored(uuid, actions);
    DeliversIffHeard(uuid, actions, from);
  }

  /** From the state after `actions` on, through every step of `more`, the relay has consumers but no bound hop. */
  ghost predicate Unserved(uuid: nat, actions: seq<Action>, more: seq<Action>) {
    HopIsMissing(Run(uuid, actions + more).0) && (more == [] || Unserved(uuid, actions, more[..|more| - 1]))
  }

  predicate HopIsMissing(st: State) { !st.Bound? && !ShouldClear(ConsumersOf(st)) }

  /** A bound relay that loses its hop does not tell the worker: for as long as it has consumers and no other hop is
      bound, a packet from the lost hop still reaches every consumer, and packets from other hops reach nobody. */
  lemma {:induction false} LostHopStillDelivers(uuid: nat, actions: seq<Action>, now: nat, more: seq<Action>, from: NetPair)
    requires Run(uuid, actions).0.Bound?
    requires Unserved(uuid, actions + [Drop(now, Run(uuid, actions).0.next)], more)
    ensures var hop := Run(uuid, actions).0.next;
      var (st, sent) := Run(uuid, actions + [Drop(now, hop)] + more);
      st.Binding? && DeliversTo(Deliveries(Replay(None, sent), from), st.consumers, from == hop)
  {
    var hop := Run(uuid, actions).0.next;
    var lost := actions + [Drop(now, hop)];
    UnservedAtOnce(uuid, lost, more);
    EveryRunIsMirrored(uuid, actions);
    StepStillHeard(uuid, actions, Drop(now, hop), hop);
    StillHeard(uuid, lost, more, hop);
    DeliversIffHeard(uuid, lost + more, from);
  }

  /** A step to a state with consumers but no bound hop changes nothing for the worker's source. */
  lemma HeardKept(st: State, st': State, heard: Option<NetPair>)
    requires HopIsMissing(st')
    ensures HeardStep(st, st', heard) == heard
  {
  }

  lemma StepStillHeard(uuid: nat, actions: seq<Action>, a: Action, hop: NetPair)
    requires Heard(uuid, actions) == Some(hop) && HopIsMissing(Run(uuid, actions + [a]).0)
    ensures Heard(uuid, actions + [a]) == Some(hop)
  {
    HeardAppend(uuid, actions, a);
    HeardKept(Run(uuid, actions).0, Run(uuid, actions + [a]).0, Some(hop));
  }

  lemma {:induction false} UnservedAtOnce(uuid: nat, actions: seq<Action>, more: seq<Action>)
    requires Unserved(uuid, actions, more)
    ensures HopIsMissing(Run(uuid, actions).0)
  {
    if more == [] {
      assert actions + more == actions;
    } else {
      UnservedAtOnce(uuid, actions, more[..|more| - 1]);
    }
  }

  lemma {:induction false} StillHeard(uuid: nat, actions: seq<Action>, more: seq<Action>, hop: NetPair)
    requires Heard(uuid, actions) == Some(hop) && Unserved(uuid, actions, more)
    ensures Heard(uuid, actions + more) == Some(hop)
  {
    if more == [] {
      assert actions + more == actions;
    } else {
      var before, last := more[..|more| - 1], more[|more| - 1];
      assert actions + more == actions + before + [last];
      StillHeard(uuid, actions, before, hop);
      StepStillHeard(uuid, actions + before, last, hop);
    }
  }

  lemma LeavesHopBehind(uuid: nat, actions: seq<Action>, hop: NetPair)
    requires Run(uuid, actions).0 == Binding(NoConsumers)
    ensures var later := actions + [Receive(0, hop, SubOK(uuid))] + [Drop(0, hop)] + [Tick(0, [])];
      Run(uuid, later).0 == Unbound && Heard(uuid, later) == Some(hop)
  {
    var a1 := actions + [Receive(0, hop, SubOK(uuid))];
    var a2 := a1 + [Drop(0, hop)];
    HeardAppend(uuid, actions, Receive(0, hop, SubOK(uuid)));
    HeardAppend(uuid, a1, Drop(0, hop));
    assert Run(uuid, a2).0 == Binding(NoConsumers);
    HeardAppend(uuid, a2, Tick(0, []));
    assert DropRemotes(NoConsumers, []).0 == NoConsumers && Timeouts(NoConsumers, 0, []) == [];
  }

  lemma NewRelayHears(uuid: nat, actions: seq<Action>, actor: Actor)
    requires Run(uuid, actions).0 == Unbound
    ensures var later := actions + [Recreate] + [Subscribe(actor)];
      Run(uuid, later).0 == Binding(Consumers(map[], [actor])) && Heard(uuid, later) == Heard(uuid, actions)
  {
    HeardAppend(uuid, actions, Recreate);
    HeardAppend(uuid, actions + [Recreate], Subscribe(actor));
    assert NoConsumers.locals + [actor] == [actor];
  }

  /** A binding relay without consumers that is bound and loses its hop leaves the hop behind in the worker, even for the
      relay that replaces it and was never bound at all. */
  lemma NewRelayHearsOldHop(uuid: nat, actions: seq<Action>, hop: NetPair, actor: Actor, later: seq<Action>)
    requires Run(uuid, actions).0 == Binding(NoConsumers)
    requires later == actions + [Receive(0, hop, SubOK(uuid))] + [Drop(0, hop)] + [Tick(0, [])] + [Recreate] + [Subscribe(actor)]
    ensures var (st, sent) := Run(uuid, later);
      st == Binding(Consumers(map[], [actor])) && DeliversTo(Deliveries(Replay(None, sent), hop), st.consumers, true)
  {
    LeavesHopBehind(uuid, actions, hop);
    NewRelayHears(uuid, actions + [Receive(0, hop, SubOK(uuid))] + [Drop(0, hop)] + [Tick(0, [])], actor);
    DeliversIffHeard(uuid, later, hop);
  }

  lemma HeardAppend(uuid: nat, actions: seq<Action>, a: Action)
    ensures Run(uuid, actions + [a]).0 == Handle(uuid, Run(uuid, actions).0, a).0
    ensures Heard(uuid, actions + [a]) == HeardStep(Run(uuid, actions).0, Run(uuid, actions + [a]).0, Heard(uuid, actions))
  {
    assert (actions + [a])[..|actions|] == actions;
  }

  /** Such a relay is reached: an unsubscription that arrives while the relay is leaving starts it over without consumers. */
  lemma BindingWithoutConsumers(uuid: nat, hop: NetPair, remote: NetPair, actor: Actor) returns (actions: seq<Action>)
    ensures Run(uuid, actions).0 == Binding(NoConsumers)
  {
    var a2 := [] + [Subscribe(actor)] + [Receive(0, hop, SubOK(uuid))];
    var a3 := a2 + [Unsubscribe(0, actor)];
    BoundWithOne(uuid, hop, actor);
    HeardAppend(uuid, a2, Unsubscribe(0, actor));
    assert Without([actor], actor) == [];
    HeardAppend(uuid, a3, Receive(0, remote, Unsub(uuid)));
    actions := a3 + [Receive(0, remote, Unsub(uuid))];
  }

  lemma FirstConsumer(uuid: nat, actor: Actor)
    ensures Handle(uuid, New, Subscribe(actor)).0 == Binding(Consumers(map[], [actor]))
  {
    assert NoConsumers.locals + [actor] == [actor];
  }

  lemma FirstHop(uuid: nat, c: Consumers, hop: NetPair)
    ensures Handle(uuid, Binding(c), Receive(0, hop, SubOK(uuid))).0 == Bound(c, hop, 0)
  {
  }

  lemma BoundWithOne(uuid: nat, hop: NetPair, actor: Actor)
    ensures Run(uuid, [] + [Subscribe(actor)] + [Receive(0, hop, SubOK(uuid))]).0 == Bound(Consumers(map[], [actor]), hop, 0)
  {
    var a1 := [] + [Subscribe(actor)];
    HeardAppend(uuid, [], Subscribe(actor));
    FirstConsumer(uuid, actor);
    HeardAppend(uuid, a1, Receive(0, hop, SubOK(uuid)));
    FirstHop(uuid, Run(uuid, a1).0.consumers, hop);
  }
}
