/** Alias lookup: cached hints, hint checks, scans, and the actors waiting for an answer. */
module Alias {
  import opened Identity
  import opened Endpoints

  const HINT_TIMEOUT_MS: nat := 2000
  const SCAN_TIMEOUT_MS: nat := 5000

  datatype Control =
    | Register(alias: nat, service: Byte, level: Level)
    | Query(alias: nat, service: Byte, level: Level)
    | Unregister(alias: nat)

  datatype Location = Here | Notified(node: NodeId) | CachedHint(node: NodeId) | RemoteHint(node: NodeId) | RemoteScan(node: NodeId)

  datatype Message = Notify(alias: nat) | Scan(alias: nat) | Check(alias: nat) | Found(alias: nat, found: bool)

  datatype Rule = ToServices(service: Byte, level: Level, seqNo: nat) | ToNode(node: NodeId)

  datatype Output = Answer(actor: Actor, alias: nat, location: Option<Location>) | Send(rule: Rule, msg: Message)

  datatype QueryState = CheckingHint(node: NodeId, since: nat) | Scanning(since: nat)
  datatype QuerySlot = QuerySlot(waiters: seq<Actor>, state: QueryState, service: Byte, level: Level)
  datatype HintSlot = HintSlot(node: NodeId, ts: nat)

  datatype Feature = Feature(queries: map<nat, QuerySlot>, hints: map<nat, HintSlot>, locals: map<nat, nat>, scanSeq: nat)

  const NewFeature := Feature(map[], map[], map[], 0)

  /** Scan numbers wrap around at 16 bits. */
  function NextSeq(seqNo: nat): nat { (seqNo + 1) % 0x1_0000 }

  function AnswerAll(waiters: seq<Actor>, alias: nat, location: Option<Location>): (out: seq<Output>)
    ensures |out| == |waiters|
  {
    seq(|waiters|, i requires 0 <= i < |waiters| => Answer(waiters[i], alias, location))
  }

  /** Answers everybody waiting for an alias and forgets the query. */
  function Settle(f: Feature, alias: nat, location: Option<Location>): (Feature, seq<Output>)
    requires alias in f.queries
  {
    (f.(queries := f.queries - {alias}), AnswerAll(f.queries[alias].waiters, alias, location))
  }

  /** Turns a query to scanning. */
  function StartScan(f: Feature, now: nat, alias: nat): (Feature, seq<Output>)
    requires alias in f.queries
  {
    var slot := f.queries[alias];
    (f.(queries := f.queries[alias := slot.(state := Scanning(now))], scanSeq := NextSeq(f.scanSeq)),
     [Send(ToServices(slot.service, slot.level, f.scanSeq), Scan(alias))])
  }

  function OnQuery(f: Feature, now: nat, actor: Actor, alias: nat, service: Byte, level: Level): (Feature, seq<Output>) {
    if alias in f.locals then (f, [Answer(actor, alias, Some(Here))])
    else if alias in f.queries then
      var slot := f.queries[alias];
      (f.(queries := f.queries[alias := slot.(waiters := slot.waiters + [actor])]), [])
    else if alias in f.hints then
      var hint := f.hints[alias];
      if hint.ts + HINT_TIMEOUT_MS >= now then (f, [Answer(actor, alias, Some(CachedHint(hint.node)))])
      else
        (f.(queries := f.queries[alias := QuerySlot([actor], CheckingHint(hint.node, now), service, level)]), [Send(ToNode(hint.node), Check(alias))])
    else
      (f.(queries := f.queries[alias := QuerySlot([actor], Scanning(now), service, level)], scanSeq := NextSeq(f.scanSeq)),
       [Send(ToServices(service, level, f.scanSeq), Scan(alias))])
  }

  function OnControl(f: Feature, now: nat, actor: Actor, control: Control): (Feature, seq<Output>) {
    match control
    case Register(alias, service, level) =>
      (f.(locals := f.locals[alias := now], scanSeq := NextSeq(f.scanSeq)), [Send(ToServices(service, level, f.scanSeq), Notify(alias))])
    case Query(alias, service, level) => OnQuery(f, now, actor, alias, service, level)
    case Unregister(alias) => (f.(locals := f.locals - {alias}), [])
  }

  function OnFound(f: Feature, now: nat, from: NodeId, alias: nat, found: bool): (Feature, seq<Output>) {
    var f1 := if found then f.(hints := f.hints[alias := HintSlot(from, now)]) else f;
    if alias !in f.queries then (f1, [])
    else
      match f.queries[alias].state
      case CheckingHint(node, _) =>
        if node != from then (f1, [])
        else if found then Settle(f1, alias, Some(RemoteHint(from)))
        else StartScan(f1, now, alias)
      case Scanning(_) =>
        if found then Settle(f1, alias, Some(RemoteScan(from))) else (f1, [])
  }

  function OnRemote(f: Feature, now: nat, from: NodeId, msg: Message): (Feature, seq<Output>) {
    match msg
    case Notify(alias) =>
      var f1 := f.(hints := f.hints[alias := HintSlot(from, now)]);
      if alias in f.queries then Settle(f1, alias, Some(Notified(from))) else (f1, [])
    case Scan(alias) => (f, if alias in f.locals then [Send(ToNode(from), Found(alias, true))] else [])
    case Check(alias) => (f, [Send(ToNode(from), Found(alias, alias in f.locals))])
    case Found(alias, found) => OnFound(f, now, from, alias, found)
  }

  predicate HintExpired(f: Feature, now: nat, alias: nat) {
    alias in f.queries && f.queries[alias].state.CheckingHint? && now >= f.queries[alias].state.since + HINT_TIMEOUT_MS
  }

  predicate ScanExpired(f: Feature, now: nat, alias: nat) {
    alias in f.queries && f.queries[alias].state.Scanning? && now >= f.queries[alias].state.since + SCAN_TIMEOUT_MS
  }

  /** Visits the queries in the order the map yields them and turns checks that took too long to scans. */
  function SwitchAll(f: Feature, now: nat, order: seq<nat>): (Feature, seq<Output>)
    decreases |order|
  {
    if order == [] then (f, [])
    else if HintExpired(f, now, order[0]) then
      var (f1, out1) := StartScan(f, now, order[0]);
      var (f2, out2) := SwitchAll(f1, now, order[1..]);
      (f2, out1 + out2)
    else SwitchAll(f, now, order[1..])
  }

  /** One query of that visit. */
  function SwitchOne(f: Feature, now: nat, alias: nat): (Feature, seq<Output>) {
    if HintExpired(f, now, alias) then StartScan(f, now, alias) else (f, [])
  }

  /** Nothing happened yet to the queries still to be visited. */
  ghost predicate Untouched(start: Feature, f: Feature, order: seq<nat>) {
    forall alias :: alias in order ==> alias in start.queries && alias in f.queries && f.queries[alias] == start.queries[alias]
  }

  lemma UntouchedNext(start: Feature, f: Feature, now: nat, order: seq<nat>)
    requires order != [] && order[0] !in order[1..] && Untouched(start, f, order)
    ensures Untouched(start, SwitchOne(f, now, order[0]).0, order[1..]) && ScanExpired(f, now, order[0]) == ScanExpired(start, now, order[0])
  {
    assert order[0] in order && forall alias :: alias in order[1..] ==> alias in order;
  }

  lemma SwitchAllFirst(f: Feature, now: nat, order: seq<nat>, before: seq<Output>)
    requires order != []
    ensures var (f1, out1) := SwitchOne(f, now, order[0]);
      && SwitchAll(f, now, order).0 == SwitchAll(f1, now, order[1..]).0
      && before + SwitchAll(f, now, order).1 == before + out1 + SwitchAll(f1, now, order[1..]).1
  {
    var (f1, out1) := SwitchOne(f, now, order[0]);
    Regroup(before, out1, SwitchAll(f1, now, order[1..]).1);
  }

  /** One round of the visit: what it does to the query at position `i`, and what is left to do. */
  lemma VisitNext(start: Feature, f: Feature, now: nat, keys: seq<nat>, i: nat, before: seq<Output>)
    requires i < |keys| && NoDuplicates(keys) && Untouched(start, f, keys[i..])
    ensures keys[i] in f.queries && ScanExpired(f, now, keys[i]) == ScanExpired(start, now, keys[i])
    ensures Timeouts(start, now, keys[..i + 1]) == Timeouts(start, now, keys[..i]) + if ScanExpired(start, now, keys[i]) then [keys[i]] else []
    ensures var (f1, out1) := SwitchOne(f, now, keys[i]);
      && Untouched(start, f1, keys[i + 1..])
      && SwitchAll(f, now, keys[i..]).0 == SwitchAll(f1, now, keys[i + 1..]).0
      && before + SwitchAll(f, now, keys[i..]).1 == before + out1 + SwitchAll(f1, now, keys[i + 1..]).1
  {
    assert keys[i..][0] == keys[i] && keys[i..][1..] == keys[i + 1..] && keys[i] !in keys[i + 1..];
    assert keys[i] in keys[i..];
    assert keys[..i + 1] == keys[..i] + [keys[i]];
    TimeoutsAppend(start, now, keys[..i], keys[i]);
    UntouchedNext(start, f, now, keys[i..]);
    SwitchAllFirst(f, now, keys[i..], before);
  }

  function GiveUpAll(f: Feature, gone: seq<nat>): (Feature, seq<Output>)
    decreases |gone|
  {
    if gone == [] then (f, [])
    else if gone[0] in f.queries then
      var (f1, out1) := Settle(f, gone[0], None);
      var (f2, out2) := GiveUpAll(f1, gone[1..]);
      (f2, out1 + out2)
    else GiveUpAll(f, gone[1..])
  }

  function Timeouts(f: Feature, now: nat, order: seq<nat>): seq<nat> { Filter(order, a => ScanExpired(f, now, a)) }

  function OnTick(f: Feature, now: nat, order: seq<nat>): (Feature, seq<Output>) {
    var (f1, out1) := SwitchAll(f, now, order);
    var (f2, out2) := GiveUpAll(f1, Timeouts(f, now, order));
    (f2, out1 + out2)
  }

  lemma TimeoutsAppend(f: Feature, now: nat, order: seq<nat>, alias: nat)
    ensures Timeouts(f, now, order + [alias]) == Timeouts(f, now, order) + if ScanExpired(f, now, alias) then [alias] else []
  {
    FilterAppend(order, alias, a => ScanExpired(f, now, a));
  }

  // ---- runs ---------------------------------------------------------------------------------

  datatype Action =
    | Tick(now: nat, order: seq<nat>)
    | Ask(now: nat, actor: Actor, control: Control)
    | Receive(now: nat, from: NodeId, msg: Message)

  ghost function Handle(f: Feature, a: Action): (Feature, seq<Output>) {
    match a
    case Tick(now, order) => if Enumerates(order, f.queries.Keys) then OnTick(f, now, order) else (f, [])
    case Ask(now, actor, control) => OnControl(f, now, actor, control)
    case Receive(now, from, msg) => OnRemote(f, now, from, msg)
  }

  ghost function Run(actions: seq<Action>): (Feature, seq<Output>) {
    if actions == [] then (NewFeature, [])
    else
      var (f, sent) := Run(actions[..|actions| - 1]);
      var (f', out) := Handle(f, actions[|actions| - 1]);
      (f', sent + out)
  }

  // ---- every query is answered exactly once -------------------------------------------------

  /** How often an actor asked for an alias. */
  function Asked(actions: seq<Action>, actor: Actor, alias: nat): nat
    decreases |actions|
  {
    if actions == [] then 0
    else Asked(actions[..|actions| - 1], actor, alias) + AskedBy(actions[|actions| - 1], actor, alias)
  }

  function AskedBy(a: Action, actor: Actor, alias: nat): nat {
    if a.Ask? && a.control.Query? && a.actor == actor && a.control.alias == alias then 1 else 0
  }

  /** How many answers about an alias went to an actor. */
  function Answered(out: seq<Output>, actor: Actor, alias: nat): nat
    decreases |out|
  {
    if out == [] then 0
    else (if out[0].Answer? && out[0].actor == actor && out[0].alias == alias then 1 else 0) + Answered(out[1..], actor, alias)
  }

  function Waiting(f: Feature, actor: Actor, alias: nat): nat {
    if alias in f.queries then multiset(f.queries[alias].waiters)[actor] else 0
  }

  lemma {:induction false} AnsweredAppend(a: seq<Output>, b: seq<Output>, actor: Actor, alias: nat)
    ensures Answered(a + b, actor, alias) == Answered(a, actor, alias) + Answered(b, actor, alias)
    decreases |a|
  {
    if a == [] {
      assert a + b == b;
    } else {
      assert (a + b)[1..] == a[1..] + b;
      AnsweredAppend(a[1..], b, actor, alias);
    }
  }

  lemma AnsweredOne(o: Output, actor: Actor, alias: nat)
    ensures Answered([o], actor, alias) == if o.Answer? && o.actor == actor && o.alias == alias then 1 else 0
  {
  }

  lemma {:induction false} AnswerAllCounts(waiters: seq<Actor>, about: nat, location: Option<Location>, actor: Actor, alias: nat)
    ensures Answered(AnswerAll(waiters, about, location), actor, alias) == if about == alias then multiset(waiters)[actor] else 0
    decreases |waiters|
  {
    if waiters != [] {
      assert AnswerAll(waiters, about, location)[1..] == AnswerAll(waiters[1..], about, location);
      assert waiters == [waiters[0]] + waiters[1..];
      AnswerAllCounts(waiters[1..], about, location, actor, alias);
    }
  }

  /** A step neither loses nor invents answers. */
  ghost predicate Conserves(f: Feature, asked: nat, f': Feature, out: seq<Output>, actor: Actor, alias: nat) {
    Waiting(f, actor, alias) + asked == Answered(out, actor, alias) + Waiting(f', actor, alias)
  }

  lemma SettleConserves(f: Feature, about: nat, location: Option<Location>, actor: Actor, alias: nat)
    requires about in f.queries
    ensures var (f', out) := Settle(f, about, location); Conserves(f, 0, f', out, actor, alias)
  {
    AnswerAllCounts(f.queries[about].waiters, about, location, actor, alias);
  }

  lemma StartScanConserves(f: Feature, now: nat, about: nat, actor: Actor, alias: nat)
    requires about in f.queries
    ensures var (f', out) := StartScan(f, now, about); Conserves(f, 0, f', out, actor, alias)
  {
  }

  lemma {:induction false} SwitchAllConserves(f: Feature, now: nat, order: seq<nat>, actor: Actor, alias: nat)
    ensures var (f', out) := SwitchAll(f, now, order); Conserves(f, 0, f', out, actor, alias)
    decreases |order|
  {
    if order != [] {
      if HintExpired(f, now, order[0]) {
        var (f1, out1) := StartScan(f, now, order[0]);
        StartScanConserves(f, now, order[0], actor, alias);
        SwitchAllConserves(f1, now, order[1..], actor, alias);
        AnsweredAppend(out1, SwitchAll(f1, now, order[1..]).1, actor, alias);
      } else {
        SwitchAllConserves(f, now, order[1..], actor, alias);
      }
    }
  }

  lemma {:induction false} GiveUpAllConserves(f: Feature, gone: seq<nat>, actor: Actor, alias: nat)
    ensures var (f', out) := GiveUpAll(f, gone); Conserves(f, 0, f', out, actor, alias)
    decreases |gone|
  {
    if gone != [] {
      if gone[0] in f.queries {
        var (f1, out1) := Settle(f, gone[0], None);
        SettleConserves(f, gone[0], None, actor, alias);
        GiveUpAllConserves(f1, gone[1..], actor, alias);
        AnsweredAppend(out1, GiveUpAll(f1, gone[1..]).1, actor, alias);
      } else {
        GiveUpAllConserves(f, gone[1..], actor, alias);
      }
    }
  }

  lemma TickConserves(f: Feature, now: nat, order: seq<nat>, actor: Actor, alias: nat)
    ensures var (f', out) := OnTick(f, now, order); Conserves(f, 0, f', out, actor, alias)
  {
    var (f1, out1) := SwitchAll(f, now, order);
    SwitchAllConserves(f, now, order, actor, alias);
    GiveUpAllConserves(f1, Timeouts(f, now, order), actor, alias);
    AnsweredAppend(out1, GiveUpAll(f1, Timeouts(f, now, order)).1, actor, alias);
  }

  /** A step that sends at most one message to another node and leaves the waiting actors alone. */
  lemma QuietConserves(f: Feature, f': Feature, out: seq<Output>, actor: Actor, alias: nat)
    requires f'.queries == f.queries && |out| <= 1 && (out != [] ==> out[0].Send?)
    ensures Conserves(f, 0, f', out, actor, alias)
  {
  }

  /** An actor joins the waiters of an alias, or becomes the first. */
  lemma JoinConserves(f: Feature, f': Feature, out: seq<Output>, asker: Actor, about: nat, slot: QuerySlot, actor: Actor, alias: nat)
    requires f'.queries == f.queries[about := slot] && |out| <= 1 && (out != [] ==> out[0].Send?)
    requires slot.waiters == (if about in f.queries then f.queries[about].waiters else []) + [asker]
    ensures Conserves(f, if asker == actor && about == alias then 1 else 0, f', out, actor, alias)
  {
  }

  lemma QueryConserves(f: Feature, now: nat, asker: Actor, about: nat, service: Byte, level: Level, actor: Actor, alias: nat)
    ensures var (f', out) := OnQuery(f, now, asker, about, service, level);
      Conserves(f, if asker == actor && about == alias then 1 else 0, f', out, actor, alias)
  {
    var (f', out) := OnQuery(f, now, asker, about, service, level);
    if out != [] && out[0].Answer? {
      AnsweredOne(out[0], actor, alias);
    } else {
      JoinConserves(f, f', out, asker, about, f'.queries[about], actor, alias);
    }
  }

  lemma ControlConserves(f: Feature, now: nat, asker: Actor, control: Control, actor: Actor, alias: nat)
    ensures var (f', out) := OnControl(f, now, asker, control);
      Conserves(f, AskedBy(Ask(now, asker, control), actor, alias), f', out, actor, alias)
  {
    if control.Query? {
      QueryConserves(f, now, asker, control.alias, control.service, control.level, actor, alias);
    } else {
      var (f', out) := OnControl(f, now, asker, control);
      QuietConserves(f, f', out, actor, alias);
    }
  }

  lemma FoundConserves(f: Feature, now: nat, from: NodeId, about: nat, found: bool, actor: Actor, alias: nat)
    ensures var (f', out) := OnFound(f, now, from, about, found); Conserves(f, 0, f', out, actor, alias)
  {
    var f1 := if found then f.(hints := f.hints[about := HintSlot(from, now)]) else f;
    var (f', out) := OnFound(f, now, from, about, found);
    if about !in f.queries || f' == f1 {
      QuietConserves(f, f', [], actor, alias);
    } else if found {
      SettleConserves(f1, about, Some(if f.queries[about].state.Scanning? then RemoteScan(from) else RemoteHint(from)), actor, alias);
    } else {
      StartScanConserves(f1, now, about, actor, alias);
    }
  }

  lemma RemoteConserves(f: Feature, now: nat, from: NodeId, msg: Message, actor: Actor, alias: nat)
    ensures var (f', out) := OnRemote(f, now, from, msg); Conserves(f, 0, f', out, actor, alias)
  {
    var (f', out) := OnRemote(f, now, from, msg);
    if msg.Found? {
      FoundConserves(f, now, from, msg.alias, msg.found, actor, alias);
    } else if msg.Notify? && msg.alias in f.queries {
      SettleConserves(f.(hints := f.hints[msg.alias := HintSlot(from, now)]), msg.alias, Some(Notified(from)), actor, alias);
    } else {
      QuietConserves(f, f', out, actor, alias);
    }
  }

  /** In every run and for every actor and alias: queries asked are results given plus queries still waiting. */
  lemma {:induction false} EveryQueryAnsweredOnce(actions: seq<Action>, actor: Actor, alias: nat)
    ensures var (f, sent) := Run(actions);
      Asked(actions, actor, alias) == Answered(sent, actor, alias) + Waiting(f, actor, alias)
  {
    if actions != [] {
      var before := actions[..|actions| - 1];
      var a := actions[|actions| - 1];
      var (f, sent) := Run(before);
      EveryQueryAnsweredOnce(before, actor, alias);
      StepConserves(f, a, actor, alias);
      AnsweredAppend(sent, Handle(f, a).1, actor, alias);
    }
  }

  lemma StepConserves(f: Feature, a: Action, actor: Actor, alias: nat)
    ensures var (f', out) := Handle(f, a); Conserves(f, AskedBy(a, actor, alias), f', out, actor, alias)
  {
    match a
    case Tick(now, order) => TickConserves(f, now, order, actor, alias);
    case Ask(now, asker, control) => ControlConserves(f, now, asker, control, actor, alias);
    case Receive(now, from, msg) => RemoteConserves(f, now, from, msg, actor, alias);
  }

  // ---- and soon enough ----------------------------------------------------------------------

  function Clock(start: nat, actions: seq<Action>): nat { if actions == [] then start else actions[|actions| - 1].now }

  function LastTick(start: nat, actions: seq<Action>): nat
    decreases |actions|
  {
    if actions == [] then start
    else if actions[|actions| - 1].Tick? then actions[|actions| - 1].now
    else LastTick(start, actions[..|actions| - 1])
  }

  /** From `start` on time never goes back, and no more than `d` passes without a tick. */
  ghost predicate Regular(start: nat, actions: seq<Action>, d: nat)
    decreases |actions|
  {
    actions == [] || (
      var before := actions[..|actions| - 1];
      var a := actions[|actions| - 1];
      && Regular(start, before, d)
      && Clock(start, before) <= a.now <= LastTick(start, before) + d
      && (a.Tick? ==> Enumerates(a.order, Run(before).0.queries.Keys)))
  }

  /** When the current query of an alias was opened. */
  ghost function Opened(actions: seq<Action>, alias: nat): nat
    decreases |actions|
  {
    if actions == [] then 0
    else if alias in Run(actions[..|actions| - 1]).0.queries then Opened(actions[..|actions| - 1], alias)
    else actions[|actions| - 1].now
  }

  /** Where a query opened at time `born` can be, the last tick being at `tick`. */
  predicate OnSchedule(state: QueryState, born: nat, tick: nat, d: nat) {
    match state
    case CheckingHint(_, since) => since == born && tick < since + HINT_TIMEOUT_MS
    case Scanning(since) => since <= born + HINT_TIMEOUT_MS + d && tick < since + SCAN_TIMEOUT_MS
  }

  /** What a step may do to a query: keep its state, turn a check of this age into a scan, or open it now. */
  predicate StateStep(f: Feature, f': Feature, now: nat, alias: nat)
    requires alias in f'.queries
  {
    if alias in f.queries then
      || f'.queries[alias].state == f.queries[alias].state
      || (f.queries[alias].state.CheckingHint? && f'.queries[alias].state == Scanning(now))
    else f'.queries[alias].state.since == now
  }

  lemma InputStateStep(f: Feature, a: Action, alias: nat)
    requires !a.Tick? && alias in Handle(f, a).0.queries
    ensures StateStep(f, Handle(f, a).0, a.now, alias)
  {
  }

  lemma {:induction false} SwitchAllState(f: Feature, now: nat, order: seq<nat>, alias: nat)
    ensures var f' := SwitchAll(f, now, order).0;
      && f'.queries.Keys == f.queries.Keys
      && (alias in f.queries ==>
          f'.queries[alias].state == (if alias in order && HintExpired(f, now, alias) then Scanning(now) else f.queries[alias].state))
    decreases |order|
  {
    if order != [] {
      var f1 := if HintExpired(f, now, order[0]) then StartScan(f, now, order[0]).0 else f;
      SwitchAllState(f1, now, order[1..], alias);
    }
  }

  lemma {:induction false} GiveUpAllState(f: Feature, gone: seq<nat>, alias: nat)
    ensures var f' := GiveUpAll(f, gone).0;
      (alias in f'.queries <==> alias in f.queries && alias !in gone) && (alias in f'.queries ==> f'.queries[alias] == f.queries[alias])
    decreases |gone|
  {
    if gone != [] {
      GiveUpAllState(if gone[0] in f.queries then Settle(f, gone[0], None).0 else f, gone[1..], alias);
    }
  }

  lemma {:induction false} TimeoutsMember(f: Feature, now: nat, order: seq<nat>, alias: nat)
    ensures alias in Timeouts(f, now, order) <==> alias in order && ScanExpired(f, now, alias)
    decreases |order|
  {
    if order != [] {
      TimeoutsMember(f, now, order[1..], alias);
      assert Timeouts(f, now, order) == (if ScanExpired(f, now, order[0]) then [order[0]] else []) + Timeouts(f, now, order[1..]);
    }
  }

  /** A query that survives a tick is younger than its timeout, and a check just turned into a scan starts now. */
  lemma TickState(f: Feature, now: nat, order: seq<nat>, alias: nat)
    requires Enumerates(order, f.queries.Keys) && alias in OnTick(f, now, order).0.queries
    ensures var state := OnTick(f, now, order).0.queries[alias].state;
      && alias in f.queries
      && if HintExpired(f, now, alias) then state == Scanning(now) else state == f.queries[alias].state && !ScanExpired(f, now, alias)
  {
    EnumeratesMembers(order, f.queries.Keys);
    SwitchAllState(f, now, order, alias);
    TimeoutsMember(f, now, order, alias);
    GiveUpAllState(SwitchAll(f, now, order).0, Timeouts(f, now, order), alias);
  }

  /** Open queries are on schedule, and none was opened in the future. */
  lemma {:induction false} QueriesAreOnSchedule(start: nat, actions: seq<Action>, d: nat, alias: nat)
    requires Regular(start, actions, d) && alias in Run(actions).0.queries
    ensures OnSchedule(Run(actions).0.queries[alias].state, Opened(actions, alias), LastTick(start, actions), d)
    ensures Clock(start, actions) <= LastTick(start, actions) + d
    decreases |actions|
  {
    var before := actions[..|actions| - 1];
    var a := actions[|actions| - 1];
    var f := Run(before).0;
    TickBeforeClock(start, before, d);
    if alias in f.queries { QueriesAreOnSchedule(start, before, d, alias); }
    if a.Tick? {
      TickState(f, a.now, a.order, alias);
    } else {
      InputStateStep(f, a, alias);
    }
  }

  lemma {:induction false} TickBeforeClock(start: nat, actions: seq<Action>, d: nat)
    requires Regular(start, actions, d)
    ensures LastTick(start, actions) <= Clock(start, actions)
    decreases |actions|
  {
    if actions != [] { TickBeforeClock(start, actions[..|actions| - 1], d); }
  }

  /** With ticks at most `d` apart, no query stays open for HINT_TIMEOUT_MS + SCAN_TIMEOUT_MS + 2d: by then everybody
      waiting for it has been answered. */
  lemma QueriesEndInTime(start: nat, actions: seq<Action>, d: nat, alias: nat)
    requires Regular(start, actions, d) && alias in Run(actions).0.queries
    ensures Clock(start, actions) < Opened(actions, alias) + HINT_TIMEOUT_MS + SCAN_TIMEOUT_MS + 2 * d
  {
    QueriesAreOnSchedule(start, actions, d, alias);
  }

  // ---- and with reason ----------------------------------------------------------------------

  /** A message in which its sender claims to have the alias. */
  predicate Claims(a: Action, node: NodeId, alias: nat) {
    a.Receive? && a.from == node && (a.msg == Notify(alias) || a.msg == Found(alias, true))
  }

  /** Some node claimed the alias at this time, earlier in the run. */
  predicate ClaimedAt(actions: seq<Action>, node: NodeId, alias: nat, ts: nat) {
    exists k :: 0 <= k < |actions| && Claims(actions[k], node, alias) && actions[k].now == ts
  }

  /** Every cached hint was claimed by its node when the hint says. */
  lemma {:induction false} HintsWereClaimed(actions: seq<Action>, alias: nat)
    requires alias in Run(actions).0.hints
    ensures var hint := Run(actions).0.hints[alias]; ClaimedAt(actions, hint.node, alias, hint.ts)
    decreases |actions|
  {
    var last := |actions| - 1;
    var (before, a) := (actions[..last], actions[last]);
    HintsFollow(Run(before).0, a, alias);
    var hint := Run(actions).0.hints[alias];
    if Claims(a, hint.node, alias) && hint.ts == a.now {
      assert Claims(actions[last], hint.node, alias);
    } else {
      HintsWereClaimed(before, alias);
      var k :| 0 <= k < |before| && Claims(before[k], hint.node, alias) && before[k].now == hint.ts;
      assert actions[k] == before[k];
    }
  }

  /** A step changes a hint only on a claim. */
  lemma HintsFollow(f: Feature, a: Action, alias: nat)
    ensures var f' := Handle(f, a).0;
      alias in f'.hints ==> (alias in f.hints && f'.hints[alias] == f.hints[alias]) || (Claims(a, f'.hints[alias].node, alias) && f'.hints[alias].ts == a.now)
  {
    if a.Tick? && Enumerates(a.order, f.queries.Keys) {
      SwitchAllHints(f, a.now, a.order);
      GiveUpAllHints(SwitchAll(f, a.now, a.order).0, Timeouts(f, a.now, a.order));
    }
  }

  lemma {:induction false} SwitchAllHints(f: Feature, now: nat, order: seq<nat>)
    ensures SwitchAll(f, now, order).0.hints == f.hints
    ensures forall o :: o in SwitchAll(f, now, order).1 ==> o.Send?
    decreases |order|
  {
    if order != [] {
      SwitchAllHints(if HintExpired(f, now, order[0]) then StartScan(f, now, order[0]).0 else f, now, order[1..]);
    }
  }

  lemma {:induction false} GiveUpAllHints(f: Feature, gone: seq<nat>)
    ensures GiveUpAll(f, gone).0.hints == f.hints
    ensures forall o :: o in GiveUpAll(f, gone).1 ==> o.Answer? && o.location == None && o.alias in gone
    decreases |gone|
  {
    if gone != [] {
      GiveUpAllHints(if gone[0] in f.queries then Settle(f, gone[0], None).0 else f, gone[1..]);
    }
  }

  /** What justifies an answer given in a step from `f`. */
  predicate Grounded(f: Feature, a: Action, o: Output)
    requires o.Answer?
  {
    match o.location
    case None => a.Tick? && ScanExpired(f, a.now, o.alias)
    case Some(Here) => o.alias in f.locals
    case Some(CachedHint(node)) => o.alias in f.hints && f.hints[o.alias].node == node && a.now <= f.hints[o.alias].ts + HINT_TIMEOUT_MS
    case Some(Notified(node)) => Claims(a, node, o.alias)
    case Some(RemoteHint(node)) => Claims(a, node, o.alias) && o.alias in f.queries && f.queries[o.alias].state.CheckingHint? && f.queries[o.alias].state.node == node
    case Some(RemoteScan(node)) => Claims(a, node, o.alias) && o.alias in f.queries && f.queries[o.alias].state.Scanning?
  }

  /** Every answer is grounded: a local alias, a hint young enough, a claim just received from the node named,
      or a scan that timed out. */
  lemma AnswersAreGrounded(f: Feature, a: Action, o: Output)
    requires o in Handle(f, a).1 && o.Answer?
    ensures Grounded(f, a, o)
  {
    if a.Tick? && Enumerates(a.order, f.queries.Keys) {
      SwitchAllHints(f, a.now, a.order);
      GiveUpAllHints(SwitchAll(f, a.now, a.order).0, Timeouts(f, a.now, a.order));
      TimeoutsMember(f, a.now, a.order, o.alias);
    }
  }
}
