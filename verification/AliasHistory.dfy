/** Alias lookup from its history: which aliases are local, what is remembered of others, and what every step sends and
    answers. */
module AliasHistory {
  import opened Identity
  import opened Endpoints
  import opened Alias

  // ---- what is known ------------------------------------------------------------------------

  /** Since when an alias is registered here, if its last Register or Unregister is a Register. */
  function RegisteredAt(actions: seq<Action>, alias: nat): Option<nat> {
    if actions == [] then None
    else
      var a := actions[|actions| - 1];
      if a.Ask? && a.control.Register? && a.control.alias == alias then Some(a.now)
      else if a.Ask? && a.control.Unregister? && a.control.alias == alias then None
      else RegisteredAt(actions[..|actions| - 1], alias)
  }

  lemma {:induction false} SwitchAllKeeps(f: Feature, now: nat, order: seq<nat>)
    ensures SwitchAll(f, now, order).0.locals == f.locals
    decreases |order|
  {
    if order != [] { SwitchAllKeeps(SwitchOne(f, now, order[0]).0, now, order[1..]); }
  }

  lemma {:induction false} GiveUpAllKeeps(f: Feature, gone: seq<nat>)
    ensures GiveUpAll(f, gone).0.locals == f.locals && GiveUpAll(f, gone).0.scanSeq == f.scanSeq
    decreases |gone|
  {
    if gone != [] { GiveUpAllKeeps(if gone[0] in f.queries then Settle(f, gone[0], None).0 else f, gone[1..]); }
  }

  lemma LocalsStep(f: Feature, a: Action)
    ensures Handle(f, a).0.locals ==
      if a.Ask? && a.control.Register? then f.locals[a.control.alias := a.now]
      else if a.Ask? && a.control.Unregister? then f.locals - {a.control.alias} else f.locals
  {
    if a.Tick? {
      SwitchAllKeeps(f, a.now, a.order);
      GiveUpAllKeeps(SwitchAll(f, a.now, a.order).0, Timeouts(f, a.now, a.order));
    }
  }

  /** In every run exactly the aliases last registered are local. */
  lemma {:induction false} LocalsIff(actions: seq<Action>, alias: nat)
    ensures var f := Run(actions).0;
      (alias in f.locals <==> RegisteredAt(actions, alias).Some?) && (alias in f.locals ==> RegisteredAt(actions, alias) == Some(f.locals[alias]))
  {
    if actions != [] {
      var f, a := Run(actions[..|actions| - 1]).0, actions[|actions| - 1];
      LocalsIff(actions[..|actions| - 1], alias);
      LocalsStep(f, a);
    }
  }

  /** The last Notify or successful Found for an alias. */
  function LastClaim(actions: seq<Action>, alias: nat): Option<HintSlot> {
    if actions == [] then None
    else
      var a := actions[|actions| - 1];
      if a.Receive? && (a.msg == Notify(alias) || a.msg == Found(alias, true)) then Some(HintSlot(a.from, a.now))
      else LastClaim(actions[..|actions| - 1], alias)
  }

  lemma HintsStep(f: Feature, a: Action)
    ensures Handle(f, a).0.hints ==
      if a.Receive? && (a.msg.Notify? || (a.msg.Found? && a.msg.found)) then f.hints[a.msg.alias := HintSlot(a.from, a.now)] else f.hints
  {
    if a.Tick? {
      SwitchAllHints(f, a.now, a.order);
      GiveUpAllHints(SwitchAll(f, a.now, a.order).0, Timeouts(f, a.now, a.order));
    }
  }

  /** In every run the hint for an alias is the last claim, and there is one exactly when somebody claimed it. */
  lemma {:induction false} HintIsLastClaim(actions: seq<Action>, alias: nat)
    ensures var f := Run(actions).0; if alias in f.hints then LastClaim(actions, alias) == Some(f.hints[alias]) else LastClaim(actions, alias) == None
  {
    if actions != [] {
      var f, a := Run(actions[..|actions| - 1]).0, actions[|actions| - 1];
      HintIsLastClaim(actions[..|actions| - 1], alias);
      HintsStep(f, a);
    }
  }

  // ---- what other nodes are told ------------------------------------------------------------

  /** What a step has to tell another node about an alias: a Scan is answered when the alias is local, a Check always. */
  predicate OwesFound(actions: seq<Action>, a: Action, node: NodeId, alias: nat, found: bool) {
    a.Receive? && a.from == node &&
      ((a.msg == Scan(alias) && RegisteredAt(actions, alias).Some? && found) || (a.msg == Check(alias) && found == RegisteredAt(actions, alias).Some?))
  }

  lemma {:induction false} SwitchSends(f: Feature, now: nat, order: seq<nat>)
    ensures forall o :: o in SwitchAll(f, now, order).1 ==> o.Send? && o.rule.ToServices? && o.msg.Scan?
    decreases |order|
  {
    if order != [] { SwitchSends(SwitchOne(f, now, order[0]).0, now, order[1..]); }
  }

  lemma TickTellsNobody(f: Feature, a: Action, o: Output)
    requires a.Tick? && o.Send? && !o.msg.Scan?
    ensures Count(Handle(f, a).1, o) == 0
  {
    if Enumerates(a.order, f.queries.Keys) {
      SwitchSends(f, a.now, a.order);
      GiveUpAllHints(SwitchAll(f, a.now, a.order).0, Timeouts(f, a.now, a.order));
    }
    CountNone(Handle(f, a).1, o);
  }

  /** In every run a Scan is answered Found exactly when the alias is registered here, to the node that asked and once, and a
      Check with whether it is; nobody else is told anything is found. */
  lemma FoundIff(actions: seq<Action>, a: Action, node: NodeId, alias: nat, found: bool)
    ensures Count(Handle(Run(actions).0, a).1, Send(ToNode(node), Found(alias, found))) == if OwesFound(actions, a, node, alias, found) then 1 else 0
  {
    var f, o := Run(actions).0, Send(ToNode(node), Found(alias, found));
    LocalsIff(actions, alias);
    if a.Tick? {
      TickTellsNobody(f, a, o);
    } else if a.Receive? && (a.msg.Scan? || a.msg.Check?) {
      LocalsIff(actions, a.msg.alias);
    } else {
      CountNone(Handle(f, a).1, o);
    }
  }

  // ---- what is asked ------------------------------------------------------------------------

  /** A query that has to go out: neither local, nor open already, nor answered by a young hint. */
  predicate GoesOut(f: Feature, a: Action) {
    && a.Ask? && a.control.Query? && a.control.alias !in f.locals && a.control.alias !in f.queries
    && !(a.control.alias in f.hints && a.now <= f.hints[a.control.alias].ts + 2000)
  }

  /** A node that is asked whether it still has an alias: the one an old hint names. */
  predicate OwesCheck(f: Feature, a: Action, node: NodeId, alias: nat) {
    GoesOut(f, a) && a.control.alias == alias && alias in f.hints && f.hints[alias].node == node
  }

  lemma ChecksIff(f: Feature, a: Action, node: NodeId, alias: nat)
    ensures Count(Handle(f, a).1, Send(ToNode(node), Check(alias))) == if OwesCheck(f, a, node, alias) then 1 else 0
  {
    var o := Send(ToNode(node), Check(alias));
    if a.Tick? {
      TickTellsNobody(f, a, o);
    } else if !GoesOut(f, a) {
      CountNone(Handle(f, a).1, o);
    }
  }

  /** A step other than a tick that sends a scan: a query without any hint, or a node that no longer has what its hint says. */
  predicate ScansNow(f: Feature, a: Action, alias: nat) {
    || (GoesOut(f, a) && a.control.alias == alias && alias !in f.hints)
    || (a.Receive? && a.msg == Found(alias, false) && alias in f.queries && f.queries[alias].state.CheckingHint? && f.queries[alias].state.node == a.from)
  }

  /** What is sent to all nodes of a service: a scan where one is due, and the notice of a new registration; each under the number
      counted so far, which then counts on. */
  lemma BroadcastsIff(f: Feature, a: Action, service: Byte, level: Level, seqNo: nat, msg: Message)
    requires !a.Tick?
    ensures Count(Handle(f, a).1, Send(ToServices(service, level, seqNo), msg)) ==
      if seqNo == f.scanSeq &&
         ((msg.Scan? && ScansNow(f, a, msg.alias) && (if a.Ask? then service == a.control.service && level == a.control.level
                                                       else service == f.queries[msg.alias].service && level == f.queries[msg.alias].level))
          || (msg.Notify? && a.Ask? && a.control == Register(msg.alias, service, level)))
      then 1 else 0
    ensures var sends := (exists s, l, n, m :: Send(ToServices(s, l, n), m) in Handle(f, a).1);
      Handle(f, a).0.scanSeq == if sends then (f.scanSeq + 1) % 0x1_0000 else f.scanSeq
  {
    var (f', out) := Handle(f, a);
    var o := Send(ToServices(service, level, seqNo), msg);
    if a.Ask? && a.control.Register? {
      assert Send(ToServices(a.control.service, a.control.level, f.scanSeq), Notify(a.control.alias)) in out;
    } else if (a.Ask? && a.control.Query? && ScansNow(f, a, a.control.alias)) {
      assert Send(ToServices(a.control.service, a.control.level, f.scanSeq), Scan(a.control.alias)) in out;
    } else if a.Receive? && a.msg.Found? && ScansNow(f, a, a.msg.alias) {
      var q := f.queries[a.msg.alias];
      assert Send(ToServices(q.service, q.level, f.scanSeq), Scan(a.msg.alias)) in out;
    } else {
      forall s, l, n, m ensures Send(ToServices(s, l, n), m) !in out { }
      CountNone(out, o);
    }
  }

  /** The scans sent for an alias. */
  function ScansFor(out: seq<Output>, alias: nat): (rules: seq<Rule>)
    decreases |out|
  {
    if out == [] then []
    else (if out[0].Send? && out[0].msg == Scan(alias) then [out[0].rule] else []) + ScansFor(out[1..], alias)
  }

  lemma {:induction false} ScansForAppend(a: seq<Output>, b: seq<Output>, alias: nat)
    ensures ScansFor(a + b, alias) == ScansFor(a, alias) + ScansFor(b, alias)
    decreases |a|
  {
    if a == [] {
      assert a + b == b;
    } else {
      assert (a + b)[1..] == a[1..] + b;
      ScansForAppend(a[1..], b, alias);
    }
  }

  lemma {:induction false} NoScans(out: seq<Output>, alias: nat)
    requires forall o :: o in out ==> !(o.Send? && o.msg == Scan(alias))
    ensures ScansFor(out, alias) == []
    decreases |out|
  {
    if out != [] {
      assert out[0] in out;
      NoScans(out[1..], alias);
    }
  }

  predicate ScanOf(slot: QuerySlot, rules: seq<Rule>) {
    |rules| == 1 && rules[0].ToServices? && rules[0].service == slot.service && rules[0].level == slot.level
  }

  /** The visit sends one scan for every check that took too long, at the service and level of the query, and no other. */
  lemma {:induction false} SwitchScans(f: Feature, now: nat, order: seq<nat>, alias: nat)
    requires NoDuplicates(order)
    ensures var rules := ScansFor(SwitchAll(f, now, order).1, alias);
      if alias in order && HintExpired(f, now, alias) then ScanOf(f.queries[alias], rules) else rules == []
    decreases |order|
  {
    if order != [] {
      assert order[0] !in order[1..];
      var (f1, out1) := SwitchOne(f, now, order[0]);
      SwitchScans(f1, now, order[1..], alias);
      ScansForAppend(out1, SwitchAll(f1, now, order[1..]).1, alias);
      if HintExpired(f, now, order[0]) {
        assert out1[1..] == [];
        assert ScansFor(out1, alias) == (if order[0] == alias then [out1[0].rule] else []) + ScansFor(out1[1..], alias);
      } else {
        assert [] + SwitchAll(f1, now, order[1..]).1 == SwitchAll(f1, now, order[1..]).1;
      }
    }
  }

  /** A tick sends one scan for every check that took 2 s, and nothing else. */
  lemma TickScans(f: Feature, now: nat, order: seq<nat>, alias: nat)
    requires Enumerates(order, f.queries.Keys)
    ensures var rules := ScansFor(OnTick(f, now, order).1, alias);
      if alias in f.queries && f.queries[alias].state.CheckingHint? && now >= f.queries[alias].state.since + 2000 then ScanOf(f.queries[alias], rules) else rules == []
  {
    EnumeratesMembers(order, f.queries.Keys);
    SwitchScans(f, now, order, alias);
    var gone := Timeouts(f, now, order);
    var (f1, out1) := SwitchAll(f, now, order);
    GiveUpAllHints(f1, gone);
    NoScans(GiveUpAll(f1, gone).1, alias);
    ScansForAppend(out1, GiveUpAll(f1, gone).1, alias);
  }

  // ---- what a query is answered at once -----------------------------------------------------

  /** A query is answered at once exactly when the alias is registered here or, with no query open, last claimed at most 2 s ago;
      else it waits, and opens a check or a scan if it is the first. */
  lemma QueryIsAnsweredIff(actions: seq<Action>, a: Action)
    requires a.Ask? && a.control.Query?
    ensures var (f, alias) := (Run(actions).0, a.control.alias);
      var (f', out) := Handle(f, a);
      var young := LastClaim(actions, alias).Some? && a.now <= LastClaim(actions, alias).value.ts + 2000;
      && (Answer(a.actor, alias, Some(Here)) in out <==> RegisteredAt(actions, alias).Some?)
      && (forall node :: Answer(a.actor, alias, Some(CachedHint(node))) in out <==>
            RegisteredAt(actions, alias).None? && alias !in f.queries && young && LastClaim(actions, alias).value.node == node)
      && (forall o :: o in out && o.Answer? ==> o.actor == a.actor && o.alias == alias && o.location.Some? && (o.location.value.Here? || o.location.value.CachedHint?))
      && (Waiting(f', a.actor, alias) == Waiting(f, a.actor, alias) + if RegisteredAt(actions, alias).None? && (alias in f.queries || !young) then 1 else 0)
      && (alias !in f.queries && alias in f'.queries ==>
            f'.queries[alias] == QuerySlot([a.actor], if LastClaim(actions, alias).Some? then CheckingHint(LastClaim(actions, alias).value.node, a.now) else Scanning(a.now), a.control.service, a.control.level))
  {
    LocalsIff(actions, a.control.alias);
    HintIsLastClaim(actions, a.control.alias);
  }

  /** What ends an open query before its time: a Notify by anybody, a Found by the node checked, or by anybody while scanning; all
      waiting are told who has the alias. */
  lemma ClaimSettlesIff(f: Feature, a: Action, alias: nat)
    requires a.Receive? && alias in f.queries
    ensures var (f', out) := Handle(f, a);
      var found := a.msg == Found(alias, true) && (f.queries[alias].state.Scanning? || f.queries[alias].state.node == a.from);
      && (alias !in f'.queries <==> a.msg == Notify(alias) || found)
      && (a.msg == Notify(alias) ==> out == AnswerAll(f.queries[alias].waiters, alias, Some(Notified(a.from))))
      && (found ==> out == AnswerAll(f.queries[alias].waiters, alias, Some(if f.queries[alias].state.Scanning? then RemoteScan(a.from) else RemoteHint(a.from))))
      && (alias in f'.queries ==> f'.queries[alias].waiters == f.queries[alias].waiters)
      && (alias in f'.queries && f'.queries[alias] != f.queries[alias] ==>
            a.msg == Found(alias, false) && f.queries[alias].state.CheckingHint? && f.queries[alias].state.node == a.from && f'.queries[alias] == f.queries[alias].(state := Scanning(a.now)))
  {
  }

  /** A tick gives a query up exactly when its scan is 5 s old, and then tells everybody waiting that nothing was found. */
  lemma TickGivesUpIff(f: Feature, now: nat, order: seq<nat>, actor: Actor, alias: nat)
    requires Enumerates(order, f.queries.Keys) && alias in f.queries
    ensures var (f', out) := OnTick(f, now, order);
      && (alias !in f'.queries <==> f.queries[alias].state.Scanning? && now >= f.queries[alias].state.since + 5000)
      && (alias !in f'.queries ==> Answered(out, actor, alias) == Waiting(f, actor, alias))
      && (forall o :: o in out && o.Answer? ==> o.location == None)
  {
    EnumeratesMembers(order, f.queries.Keys);
    SwitchAllState(f, now, order, alias);
    TimeoutsMember(f, now, order, alias);
    var (f1, gone) := (SwitchAll(f, now, order).0, Timeouts(f, now, order));
    GiveUpAllState(f1, gone, alias);
    TickConserves(f, now, order, actor, alias);
    SwitchAllHints(f, now, order);
    GiveUpAllHints(f1, gone);
  }
}
