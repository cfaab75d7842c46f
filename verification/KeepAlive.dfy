/** One connection over time: how long it waits, how it notices silence, what a ping measures and how it ends. */
module KeepAlive {
  import opened Identity
  import opened Handshake

  function After(c: Connection, actions: seq<Action>): Connection {
    if actions == [] then c else SideStep(After(c, actions[..|actions| - 1]), actions[|actions| - 1]).0
  }

  // ---- connected ----------------------------------------------------------------------------

  /** Nobody closes the connection. */
  predicate Undisturbed(session: nat, actions: seq<Action>) {
    forall a :: a in actions ==> !a.Close? && !(a.Deliver? && a.cmd == DisconnectRequest(session))
  }

  predicate HearsPong(session: nat, a: Action) { a.Deliver? && a.cmd.Pong? && a.cmd.session == session }

  /** When the last pong came; `start` if none did. */
  function LastHeard(session: nat, start: nat, actions: seq<Action>): nat {
    if actions == [] then start
    else if HearsPong(session, actions[|actions| - 1]) then actions[|actions| - 1].now
    else LastHeard(session, start, actions[..|actions| - 1])
  }

  /** How many pings were due. */
  function Pings(session: nat, start: nat, actions: seq<Action>): nat {
    if actions == [] then 0
    else
      var before, a := actions[..|actions| - 1], actions[|actions| - 1];
      Pings(session, start, before) + if a.Tick? && a.now < LastHeard(session, start, before) + CONNECTION_TIMEOUT_MS then 1 else 0
  }

  /** A connection that nobody closes stays connected under its key, whatever it is sent. */
  lemma {:induction false} StaysConnected(c: Connection, actions: seq<Action>)
    requires c.state.Connected? && Undisturbed(c.conn.session, actions)
    ensures var d := After(c, actions);
      && d.state.Connected? && d.conn == c.conn && d.state.key == c.state.key && d.state.handshake == c.state.handshake
      && d.state.lastPongMs == LastHeard(c.conn.session, c.state.lastPongMs, actions)
      && d.state.pingSeq == c.state.pingSeq + Pings(c.conn.session, c.state.lastPongMs, actions)
  {
    if actions != [] {
      assert actions[|actions| - 1] in actions;
      StaysConnected(c, actions[..|actions| - 1]);
    }
  }

  /** Silence is noticed: a tick reports the connection lost exactly when the last pong is CONNECTION_TIMEOUT_MS old, and
      otherwise sends one ping, numbered on from the last. */
  lemma SilenceIsNoticed(c: Connection, actions: seq<Action>, now: nat)
    requires c.state.Connected? && Undisturbed(c.conn.session, actions)
    ensures var out := SideStep(After(c, actions), Tick(Left, now)).1;
      var heard := LastHeard(c.conn.session, c.state.lastPongMs, actions);
      && (out == [Raise(EvDisconnected)] <==> now >= heard + 10_000)
      && (now < heard + 10_000 ==> out == [Net(Ping(c.conn.session, c.state.pingSeq + Pings(c.conn.session, c.state.lastPongMs, actions) + 1, now))])
  {
    StaysConnected(c, actions);
  }

  /** What a ping measures: sent by one side, answered by the other and heard again, it tells the time in between. */
  lemma PingMeasures(c: Connection, d: Connection, sent: nat, there: nat, back: nat, side: Side)
    requires c.state.Connected? && d.state.Connected? && c.conn.session == d.conn.session
    requires sent < c.state.lastPongMs + 10_000 && sent <= back < sent + 0x1_0000_0000
    ensures var (c1, ping) := SideStep(c, Tick(side, sent));
      |ping| == 1 && ping[0].Net? &&
      var (d1, pong) := SideStep(d, Deliver(side, there, ping[0].cmd, None));
      |pong| == 1 && pong[0].Net? && d1 == d &&
      var (c2, out) := SideStep(c1, Deliver(side, back, pong[0].cmd, None));
      out == [Raise(EvStats(back - sent))] && c2.state.Connected? && c2.state.lastPongMs == back && c2.state.rttMs == back - sent
  {
  }

  /** A ping or pong of another session, or to a side that is not connected, does nothing. */
  lemma ForeignPings(c: Connection, a: Action)
    requires a.Deliver? && (a.cmd.Ping? || a.cmd.Pong?) && !(c.state.Connected? && a.cmd.session == c.conn.session)
    ensures SideStep(c, a) == (c, [])
  {
  }

  // ---- waiting ------------------------------------------------------------------------------

  predicate TicksBefore(actions: seq<Action>, end: nat) { forall a :: a in actions ==> a.Tick? && a.now < end }

  /** An opener left alone waits for CONNECT_TIMEOUT_MS: every tick from RETRY_CMD_MS on repeats its request, and the first
      tick after that time gives up, once. */
  lemma {:induction false} OpenerWaits(c: Connection, actions: seq<Action>, now: nat)
    requires c.state.OutgoingWait? && TicksBefore(actions, c.state.atMs + 30_000)
    ensures After(c, actions) == c
    ensures var (d, out) := SideStep(After(c, actions), Tick(Left, now));
      && (now < c.state.atMs + 1000 ==> out == [] && d == c)
      && (c.state.atMs + 1000 <= now < c.state.atMs + 30_000 ==> out == [Net(ConnectRequest(c.node, c.conn.session, c.state.request))] && d == c)
      && (now >= c.state.atMs + 30_000 ==> out == [Raise(EvConnectTimeout)] && SideStep(d, Tick(Left, now)) == (d, []))
  {
    if actions != [] {
      assert actions[|actions| - 1] in actions;
      OpenerWaits(c, actions[..|actions| - 1], now);
    }
  }

  lemma {:induction false} AccepterWaits(c: Connection, actions: seq<Action>, now: nat)
    requires c.state.IncomingWait? && TicksBefore(actions, c.state.atMs + 30_000)
    ensures After(c, actions) == c
    ensures var (d, out) := SideStep(After(c, actions), Tick(Left, now));
      && (now < c.state.atMs + 30_000 ==> out == [] && d == c)
      && (now >= c.state.atMs + 30_000 ==> out == [Raise(EvConnectTimeout)] && SideStep(d, Tick(Left, now)) == (d, []))
  {
    if actions != [] {
      assert actions[|actions| - 1] in actions;
      AccepterWaits(c, actions[..|actions| - 1], now);
    }
  }

  // ---- the end ------------------------------------------------------------------------------

  /** Closing ends both sides: the request reaches the other, its response comes back, and each side reports the end once. */
  lemma CloseEndsBoth(c: Connection, d: Connection, t: nat, side: Side)
    requires (c.state.Connected? || c.state.OutgoingWait?) && c.conn.session == d.conn.session
    ensures var (c1, request) := SideStep(c, Close(side, t));
      |request| == 1 && request[0].Net? && c1.state == Disconnecting(t) &&
      var (d1, answer) := SideStep(d, Deliver(side, t, request[0].cmd, None));
      |answer| == 2 && answer[0].Net? && answer[1] == Raise(EvDisconnected) && d1.state == Disconnected &&
      var (c2, out) := SideStep(c1, Deliver(side, t, answer[0].cmd, None));
      out == [Raise(EvDisconnected)] && c2.state == Disconnected
  {
  }

  /** Until the response comes the request is repeated with every tick. */
  lemma ClosingRepeats(c: Connection, t: nat, now: nat, side: Side)
    requires c.state == Disconnecting(t)
    ensures now < t + 10_000 ==> SideStep(c, Tick(side, now)) == (c.(state := Disconnecting(now)), [Net(DisconnectRequest(c.conn.session))])
    ensures now >= t + 10_000 ==> SideStep(c, Tick(side, now)) == (c.(state := Disconnected), [Raise(EvDisconnected)])
  {
  }

  // ---- answers to requests ------------------------------------------------------------------

  /** The answers to a connect request sent by a step. */
  function AnswersIn(out: seq<Output>): (answers: seq<Cmd>)
    ensures forall a :: a in answers ==> a.ConnectResponse?
  {
    if out == [] then []
    else (if out[0].Net? && out[0].cmd.ConnectResponse? then [out[0].cmd] else []) + AnswersIn(out[1..])
  }

  /** Whether a side takes a request: it waits for one, or waits itself under a session that is not smaller. */
  predicate Takes(c: Connection, session: nat) { c.state.IncomingWait? || (c.state.OutgoingWait? && c.conn.session >= session) }

  /** The request a side has already answered, repeated. */
  predicate Repeated(c: Connection, session: nat, request: Bytes) {
    c.state.Connected? && c.state.handshake.Some? && c.state.handshake.value.request == request && c.state.handshake.value.session == session
  }

  predicate Addressed(c: Connection, from: NodeId, to: NodeId) { c.local == to && c.node == from }

  /** Every connect request is answered at most once and under its own session: with success exactly when it is addressed to
      this side by the other and is taken and can be processed, or repeats the one answered before, then with the same
      response; with nothing exactly when this side opens with the smaller session; and with an error otherwise, which says
      whether the data or the state of this side is the reason. */
  lemma RequestsAreAnswered(c: Connection, now: nat, from: NodeId, to: NodeId, session: nat, request: Bytes, outcome: Option<Bytes>)
    ensures var (c', out) := OnInput(c, now, from, ConnectRequest(to, session, request), outcome);
      var (answers, ours) := (AnswersIn(out), Addressed(c, from, to));
      && |answers| <= 1 && (answers != [] ==> answers[0].session == session)
      && (answers == [] <==> ours && c.state.OutgoingWait? && c.conn.session < session)
      && (answers != [] && answers[0].result.Ok? <==> ours && ((Takes(c, session) && outcome.Some?) || Repeated(c, session, request)))
      && (answers != [] && answers[0].result == Err(InvalidState) <==>
          ours && !(c.state.IncomingWait? || c.state.OutgoingWait? || c.state.Connected?))
      && (answers != [] && answers[0].result.Err? ==> answers[0].result.error in {InvalidState, InvalidData})
      && (ours && Takes(c, session) ==> c'.conn == if c.state.OutgoingWait? then ConnId(Incoming, session) else c.conn)
      && (ours && Takes(c, session) && outcome.Some? ==>
          answers[0].result.response == outcome.value && c'.state.Connected? && c'.state.lastPongMs == now && c'.state.key == Key(request, outcome.value)
          && Repeated(c', session, request) && c'.state.handshake.value.response == outcome.value)
      && (ours && Takes(c, session) && outcome.None? ==> c'.state == c.state)
      && (ours && Repeated(c, session, request) ==> answers[0].result.response == c.state.handshake.value.response && c' == c)
      && (!(ours && Takes(c, session)) ==> c' == c)
  {
    var out := OnInput(c, now, from, ConnectRequest(to, session, request), outcome).1;
    if |out| == 2 {
      assert out[1..][1..] == [];
      assert AnswersIn(out[1..]) == (if out[1].Net? && out[1].cmd.ConnectResponse? then [out[1].cmd] else []) + AnswersIn(out[1..][1..]);
    }
  }

  /** A response is taken exactly by the waiting opener of its session, and only a successful one. */
  lemma ResponsesAreTaken(c: Connection, now: nat, session: nat, result: Answer, outcome: Option<Bytes>, side: Side)
    ensures var (c', out) := SideStep(c, Deliver(side, now, ConnectResponse(session, result), outcome));
      && (c' != c <==> c.state.OutgoingWait? && session == c.conn.session && result.Ok?)
      && (c' != c && outcome.Some? ==> c'.state.Connected? && c'.conn == c.conn && c'.state.key == Key(c.state.request, result.response) && c'.state.lastPongMs == now && c'.state.handshake.None?)
      && (c' != c && outcome.None? ==> c'.state == ConnectFailed(InvalidData) && out == [Raise(EvConnectError(InvalidData))])
      && (c' == c ==> out == [])
  {
  }
}
