/** The neighbour handshake: one connection as a value, and two of them facing each other over a network
    that loses, duplicates and reorders. */
module Handshake {
  import opened Identity

  const INIT_RTT_MS: nat := 1000
  const RETRY_CMD_MS: nat := 1000
  const CONNECT_TIMEOUT_MS: nat := 30000
  const CONNECTION_TIMEOUT_MS: nat := 10000

  type Bytes = seq<Byte>

  /** The shared key both sides derive from a public request and the public response to it. */
  datatype Key = Key(request: Bytes, response: Bytes)

  datatype ConnectError = AlreadyConnected | InvalidSignature | InvalidData | InvalidState
  datatype Answer = Ok(response: Bytes) | Err(error: ConnectError)

  datatype Cmd =
    | ConnectRequest(to: NodeId, session: nat, handshake: Bytes)
    | ConnectResponse(session: nat, result: Answer)
    | Ping(session: nat, seqNo: nat, sentMs: nat)
    | Pong(session: nat, seqNo: nat, sentMs: nat)
    | DisconnectRequest(session: nat)
    | DisconnectResponse(session: nat)

  datatype Event = EvConnected(key: Key) | EvConnectError(error: ConnectError) | EvConnectTimeout | EvStats(rttMs: nat) | EvDisconnected
  datatype Output = Raise(event: Event) | Net(cmd: Cmd)

  /** The answered request: public request, the response given, and the session it came with. */
  datatype Answered = Answered(request: Bytes, response: Bytes, session: nat)

  datatype State =
    | OutgoingWait(atMs: nat, request: Bytes)
    | IncomingWait(atMs: nat)
    | ConnectFailed(error: ConnectError)
    | ConnectTimeout
    | Connected(lastPongMs: nat, pingSeq: nat, rttMs: nat, handshake: Option<Answered>, key: Key)
    | Disconnecting(atMs: nat)
    | Disconnected

  datatype Connection = Connection(conn: ConnId, local: NodeId, node: NodeId, state: State)

  // ---- one connection -----------------------------------------------------------------------

  function NewOutgoing(local: NodeId, node: NodeId, session: nat, request: Bytes, now: nat): (Connection, seq<Output>) {
    (Connection(ConnId(Outgoing, session), local, node, OutgoingWait(now, request)), [Net(ConnectRequest(node, session, request))])
  }

  function NewIncoming(local: NodeId, node: NodeId, session: nat, now: nat): Connection {
    Connection(ConnId(Incoming, session), local, node, IncomingWait(now))
  }

  function Disconnect(c: Connection, now: nat): (Connection, seq<Output>) {
    if c.state.OutgoingWait? || c.state.Connected?
    then (c.(state := Disconnecting(now)), [Net(DisconnectRequest(c.conn.session))])
    else (c, [])
  }

  function OnTick(c: Connection, now: nat): (Connection, seq<Output>) {
    match c.state
    case OutgoingWait(at, request) =>
      if now - at >= CONNECT_TIMEOUT_MS then (c.(state := ConnectTimeout), [Raise(EvConnectTimeout)])
      else if now - at >= RETRY_CMD_MS then (c, [Net(ConnectRequest(c.node, c.conn.session, request))])
      else (c, [])
    case IncomingWait(at) =>
      if now - at >= CONNECT_TIMEOUT_MS then (c.(state := ConnectTimeout), [Raise(EvConnectTimeout)]) else (c, [])
    case Connected(last, pings, _, _, _) =>
      if now - last >= CONNECTION_TIMEOUT_MS then (c, [Raise(EvDisconnected)])
      else (c.(state := c.state.(pingSeq := pings + 1)), [Net(Ping(c.conn.session, pings + 1, now))])
    case Disconnecting(at) =>
      if now - at >= CONNECTION_TIMEOUT_MS then (c.(state := Disconnected), [Raise(EvDisconnected)])
      else (c.(state := Disconnecting(now)), [Net(DisconnectRequest(c.conn.session))])
    case _ => (c, [])
  }

  /** Processing a request as the responding side; `outcome` is the fresh public response, or nothing when the
      request cannot be processed. */
  function Accept(c: Connection, now: nat, session: nat, request: Bytes, outcome: Option<Bytes>): (Connection, seq<Output>) {
    match outcome
    case Some(response) =>
      (c.(state := Connected(now, 0, INIT_RTT_MS, Some(Answered(request, response, session)), Key(request, response))),
       [Raise(EvConnected(Key(request, response))), Net(ConnectResponse(session, Ok(response)))])
    case None => (c, [Net(ConnectResponse(session, Err(InvalidData)))])
  }

  function OnConnectRequest(c: Connection, now: nat, from: NodeId, to: NodeId, session: nat, request: Bytes, outcome: Option<Bytes>): (Connection, seq<Output>) {
    if !(c.local == to && c.node == from) then (c, [Net(ConnectResponse(session, Err(InvalidData)))])
    else
      match c.state
      case IncomingWait(_) => Accept(c, now, session, request, outcome)
      case OutgoingWait(_, _) =>
        // simultaneous open: the side with the larger session gives way
        if c.conn.session >= session then Accept(c.(conn := ConnId(Incoming, session)), now, session, request, outcome)
        else (c, [])
      case Connected(_, _, _, Some(a), _) =>
        if a.request == request && a.session == session then (c, [Net(ConnectResponse(session, Ok(a.response)))])
        else (c, [Net(ConnectResponse(session, Err(InvalidData)))])
      case Connected(_, _, _, None, _) => (c, [Net(ConnectResponse(session, Err(InvalidData)))])
      case _ => (c, [Net(ConnectResponse(session, Err(InvalidState)))])
  }

  /** `outcome` tells whether the handshake operation a command needs succeeds, and with which fresh response. */
  function OnInput(c: Connection, now: nat, from: NodeId, cmd: Cmd, outcome: Option<Bytes>): (Connection, seq<Output>) {
    match cmd
    case ConnectRequest(to, session, request) => OnConnectRequest(c, now, from, to, session, request, outcome)
    case ConnectResponse(session, result) =>
      if session == c.conn.session && c.state.OutgoingWait? && result.Ok? then
        if outcome.Some? then
          var key := Key(c.state.request, result.response);
          (c.(state := Connected(now, 0, INIT_RTT_MS, None, key)), [Raise(EvConnected(key))])
        else (c.(state := ConnectFailed(InvalidData)), [Raise(EvConnectError(InvalidData))])
      else (c, [])
    case Ping(session, s, sent) =>
      if session == c.conn.session && c.state.Connected? then (c, [Net(Pong(session, s, sent))]) else (c, [])
    case Pong(session, _, sent) =>
      if session == c.conn.session && c.state.Connected? then
        if sent <= now then
          (c.(state := c.state.(lastPongMs := now, rttMs := (now - sent) % 0x1_0000_0000)), [Raise(EvStats((now - sent) % 0x1_0000_0000))])
        else (c.(state := c.state.(lastPongMs := now)), [])
      else (c, [])
    case DisconnectRequest(session) =>
      if session == c.conn.session then (c.(state := Disconnected), [Net(DisconnectResponse(session)), Raise(EvDisconnected)]) else (c, [])
    case DisconnectResponse(session) =>
      if session == c.conn.session && c.state.Disconnecting? then (c.(state := Disconnected), [Raise(EvDisconnected)]) else (c, [])
  }

  // ---- two connections facing each other ----------------------------------------------------

  /** `left` always opens the connection; `right` either opens one of its own or waits for `left`. */
  datatype Setup = Setup(leftNode: NodeId, rightNode: NodeId, leftSession: nat, leftRequest: Bytes, rightOpens: bool, rightSession: nat, rightRequest: Bytes)

  predicate ValidSetup(p: Setup) {
    p.rightOpens ==> p.leftSession != p.rightSession
  }

  /** Everything each side ever sent stays available to the other; the keys are those it handed to its user, in order. */
  datatype World = World(left: Connection, right: Connection, fromLeft: set<Cmd>, fromRight: set<Cmd>, leftKeys: seq<Key>, rightKeys: seq<Key>)

  datatype Side = Left | Right

  datatype Action =
    | Tick(side: Side, now: nat)
    | Close(side: Side, now: nat)
    | Deliver(side: Side, now: nat, cmd: Cmd, outcome: Option<Bytes>)

  function Sent(out: seq<Output>): set<Cmd> {
    set o | o in out && o.Net? :: o.cmd
  }

  /** The keys handed out with the events of a step. */
  function HandedOut(out: seq<Output>): seq<Key> {
    if out == [] then []
    else (if out[0].Raise? && out[0].event.EvConnected? then [out[0].event.key] else []) + HandedOut(out[1..])
  }

  /** A connect request that cannot be processed. */
  predicate FailedRequest(a: Action) {
    a.Deliver? && a.cmd.ConnectRequest? && a.outcome.None?
  }

  /** No connect request ever fails to be processed; responses may. */
  predicate RequestsSucceed(actions: seq<Action>) {
    forall a :: a in actions ==> !FailedRequest(a)
  }

  function Initial(p: Setup): World {
    var (left, leftOut) := NewOutgoing(p.leftNode, p.rightNode, p.leftSession, p.leftRequest, 0);
    if p.rightOpens then
      var (right, rightOut) := NewOutgoing(p.rightNode, p.leftNode, p.rightSession, p.rightRequest, 0);
      World(left, right, Sent(leftOut), Sent(rightOut), [], [])
    else World(left, NewIncoming(p.rightNode, p.leftNode, p.leftSession, 0), Sent(leftOut), {}, [], [])
  }

  /** One side handles an action. */
  function SideStep(c: Connection, a: Action): (Connection, seq<Output>) {
    match a
    case Tick(_, now) => OnTick(c, now)
    case Close(_, now) => Disconnect(c, now)
    case Deliver(_, now, cmd, outcome) => OnInput(c, now, c.node, cmd, outcome)
  }

  function Step(w: World, a: Action): World {
    if a.side == Left then
      if a.Deliver? && a.cmd !in w.fromRight then w
      else var (left, out) := SideStep(w.left, a); w.(left := left, fromLeft := w.fromLeft + Sent(out), leftKeys := w.leftKeys + HandedOut(out))
    else
      if a.Deliver? && a.cmd !in w.fromLeft then w
      else var (right, out) := SideStep(w.right, a); w.(right := right, fromRight := w.fromRight + Sent(out), rightKeys := w.rightKeys + HandedOut(out))
  }

  function Run(p: Setup, actions: seq<Action>): World {
    if actions == [] then Initial(p) else Step(Run(p, actions[..|actions| - 1]), actions[|actions| - 1])
  }

  // ---- the invariant ------------------------------------------------------------------------

  /** What the opening side that prevails looks like: it stays outgoing, answers no request with success, and hands out at
      most one key, made from its own request and a response it was sent. */
  ghost predicate Opener(c: Connection, session: nat, request: Bytes, keys: seq<Key>, sent: set<Cmd>, received: set<Cmd>) {
    && c.conn == ConnId(Outgoing, session)
    && !c.state.IncomingWait?
    && (c.state.OutgoingWait? ==> c.state.request == request && keys == [])
    && (c.state.Connected? ==> c.state.handshake.None? && keys == [c.state.key])
    && |keys| <= 1 && (keys != [] ==> keys[0].request == request && ConnectResponse(session, Ok(keys[0].response)) in received)
    && (forall m :: m in sent && m.ConnectRequest? ==> m.session == session && m.handshake == request)
    && (forall m :: m in sent && m.ConnectResponse? ==> m.result.Err?)
  }

  /** What the accepting side looks like: waiting it has accepted nothing; connected it is incoming under the opener's
      session. It hands out at most one key, and every successful response it ever sent belongs to that key. */
  ghost predicate Accepter(c: Connection, own: nat, session: nat, request: Bytes, keys: seq<Key>, sent: set<Cmd>) {
    && (c.state.OutgoingWait? ==> c.conn == ConnId(Outgoing, own) && own > session)
    && (c.state.IncomingWait? ==> c.conn == ConnId(Incoming, session))
    && (c.state.Connected? ==>
        && c.conn == ConnId(Incoming, session)
        && c.state.handshake == Some(Answered(request, c.state.key.response, session))
        && keys == [c.state.key])
    && (c.state.OutgoingWait? || c.state.IncomingWait? ==> keys == [])
    && |keys| <= 1 && (keys != [] ==> keys[0].request == request && ConnectResponse(session, Ok(keys[0].response)) in sent)
    && (forall m :: m in sent && m.ConnectResponse? && m.result.Ok? ==> m.session == session && keys == [Key(request, m.result.response)])
    && (forall m :: m in sent && m.ConnectRequest? ==> m.session == own && own > session)
  }

  ghost predicate Facing(c: Connection, d: Connection) {
    c.local == d.node && c.node == d.local
  }

  /** Which side prevails: the only opener, or the one with the smaller session. */
  predicate LeftPrevails(p: Setup) {
    !p.rightOpens || p.leftSession < p.rightSession
  }

  ghost predicate Inv(p: Setup, w: World) {
    && Facing(w.left, w.right)
    && (LeftPrevails(p) ==>
        && Opener(w.left, p.leftSession, p.leftRequest, w.leftKeys, w.fromLeft, w.fromRight)
        && Accepter(w.right, p.rightSession, p.leftSession, p.leftRequest, w.rightKeys, w.fromRight))
    && (!LeftPrevails(p) ==>
        && Opener(w.right, p.rightSession, p.rightRequest, w.rightKeys, w.fromRight, w.fromLeft)
        && Accepter(w.left, p.leftSession, p.rightSession, p.rightRequest, w.leftKeys, w.fromLeft))
  }

  /** A connection hands out a key exactly when it becomes connected, and it is the one it then holds. */
  lemma HandsOutOnConnecting(c: Connection, a: Action)
    ensures var (c', out) := SideStep(c, a); HandedOut(out) == if !c.state.Connected? && c'.state.Connected? then [c'.state.key] else []
  {
    var out := SideStep(c, a).1;
    if |out| == 2 {
      assert out[1..][1..] == [];
      assert HandedOut(out[1..]) == (if out[1].Raise? && out[1].event.EvConnected? then [out[1].event.key] else []) + HandedOut(out[1..][1..]);
    }
  }

  predicate IsRequest(a: Action) { a.Deliver? && a.cmd.ConnectRequest? }

  lemma OpenerOnRequest(c: Connection, a: Action, own: nat, session: nat, request: Bytes, keys: seq<Key>, sent: set<Cmd>, received: set<Cmd>)
    requires Opener(c, session, request, keys, sent, received)
    requires a.Deliver? ==> a.cmd in received
    requires forall m :: m in received && m.ConnectRequest? ==> m.session == own && own > session
    requires IsRequest(a)
    ensures var (c', out) := SideStep(c, a);
      c'.local == c.local && c'.node == c.node && Opener(c', session, request, keys + HandedOut(out), sent + Sent(out), received)
  {
    HandsOutOnConnecting(c, a);
  }

  lemma OpenerOnResponse(c: Connection, a: Action, own: nat, session: nat, request: Bytes, keys: seq<Key>, sent: set<Cmd>, received: set<Cmd>)
    requires Opener(c, session, request, keys, sent, received)
    requires a.Deliver? ==> a.cmd in received
    requires forall m :: m in received && m.ConnectRequest? ==> m.session == own && own > session
    requires a.Deliver? && a.cmd.ConnectResponse?
    ensures var (c', out) := SideStep(c, a);
      c'.local == c.local && c'.node == c.node && Opener(c', session, request, keys + HandedOut(out), sent + Sent(out), received)
  {
    HandsOutOnConnecting(c, a);
  }

  lemma OpenerOnRest(c: Connection, a: Action, own: nat, session: nat, request: Bytes, keys: seq<Key>, sent: set<Cmd>, received: set<Cmd>)
    requires Opener(c, session, request, keys, sent, received)
    requires a.Deliver? ==> a.cmd in received
    requires forall m :: m in received && m.ConnectRequest? ==> m.session == own && own > session
    requires !IsRequest(a) && !(a.Deliver? && a.cmd.ConnectResponse?)
    ensures var (c', out) := SideStep(c, a);
      c'.local == c.local && c'.node == c.node && Opener(c', session, request, keys + HandedOut(out), sent + Sent(out), received)
  {
    HandsOutOnConnecting(c, a);
  }

  /** A step of the opener on commands the accepter sent. */
  lemma OpenerStep(c: Connection, a: Action, own: nat, session: nat, request: Bytes, keys: seq<Key>, sent: set<Cmd>, received: set<Cmd>)
    requires Opener(c, session, request, keys, sent, received)
    requires a.Deliver? ==> a.cmd in received
    requires forall m :: m in received && m.ConnectRequest? ==> m.session == own && own > session
    ensures var (c', out) := SideStep(c, a);
      c'.local == c.local && c'.node == c.node && Opener(c', session, request, keys + HandedOut(out), sent + Sent(out), received)
  {
    if IsRequest(a) {
      OpenerOnRequest(c, a, own, session, request, keys, sent, received);
    } else if a.Deliver? && a.cmd.ConnectResponse? {
      OpenerOnResponse(c, a, own, session, request, keys, sent, received);
    } else {
      OpenerOnRest(c, a, own, session, request, keys, sent, received);
    }
  }

  lemma AccepterOnRequest(c: Connection, a: Action, own: nat, session: nat, request: Bytes, keys: seq<Key>, sent: set<Cmd>, received: set<Cmd>)
    requires Accepter(c, own, session, request, keys, sent)
    requires !(FailedRequest(a) && c.state.OutgoingWait?) && (a.Deliver? ==> a.cmd in received)
    requires forall m :: m in received && m.ConnectRequest? ==> m.session == session && m.handshake == request
    requires forall m :: m in received && m.ConnectResponse? ==> m.result.Err?
    requires IsRequest(a)
    ensures var (c', out) := SideStep(c, a);
      c'.local == c.local && c'.node == c.node && Accepter(c', own, session, request, keys + HandedOut(out), sent + Sent(out))
  {
    HandsOutOnConnecting(c, a);
  }

  lemma AccepterOtherwise(c: Connection, a: Action, own: nat, session: nat, request: Bytes, keys: seq<Key>, sent: set<Cmd>, received: set<Cmd>)
    requires Accepter(c, own, session, request, keys, sent)
    requires !(FailedRequest(a) && c.state.OutgoingWait?) && (a.Deliver? ==> a.cmd in received)
    requires forall m :: m in received && m.ConnectRequest? ==> m.session == session && m.handshake == request
    requires forall m :: m in received && m.ConnectResponse? ==> m.result.Err?
    requires !IsRequest(a)
    ensures var (c', out) := SideStep(c, a);
      c'.local == c.local && c'.node == c.node && Accepter(c', own, session, request, keys + HandedOut(out), sent + Sent(out))
  {
    HandsOutOnConnecting(c, a);
  }

  /** A step of the accepter on commands the opener sent. */
  lemma AccepterStep(c: Connection, a: Action, own: nat, session: nat, request: Bytes, keys: seq<Key>, sent: set<Cmd>, received: set<Cmd>)
    requires Accepter(c, own, session, request, keys, sent)
    requires !(FailedRequest(a) && c.state.OutgoingWait?) && (a.Deliver? ==> a.cmd in received)
    requires forall m :: m in received && m.ConnectRequest? ==> m.session == session && m.handshake == request
    requires forall m :: m in received && m.ConnectResponse? ==> m.result.Err?
    ensures var (c', out) := SideStep(c, a);
      c'.local == c.local && c'.node == c.node && Accepter(c', own, session, request, keys + HandedOut(out), sent + Sent(out))
  {
    if IsRequest(a) {
      AccepterOnRequest(c, a, own, session, request, keys, sent, received);
    } else {
      AccepterOtherwise(c, a, own, session, request, keys, sent, received);
    }
  }

  lemma MoreReceived(c: Connection, session: nat, request: Bytes, keys: seq<Key>, sent: set<Cmd>, received: set<Cmd>, more: set<Cmd>)
    requires Opener(c, session, request, keys, sent, received)
    ensures Opener(c, session, request, keys, sent, received + more)
  {
  }

  /** The one dangerous moment: the side that has to give way, still waiting as an opener, fails to process the
      request it gives way to. */
  predicate GivesWayBadly(p: Setup, w: World, a: Action) {
    && FailedRequest(a)
    && (if LeftPrevails(p) then a.side == Right && w.right.state.OutgoingWait? && a.cmd in w.fromLeft
        else a.side == Left && w.left.state.OutgoingWait? && a.cmd in w.fromRight)
  }

  /** A run without such a moment. Any other request may fail. */
  predicate Clean(p: Setup, actions: seq<Action>) {
    actions == [] || (
      var before := actions[..|actions| - 1];
      Clean(p, before) && !GivesWayBadly(p, Run(p, before), actions[|actions| - 1]))
  }

  lemma StepKeepsInv(p: Setup, w: World, a: Action)
    requires Inv(p, w) && !GivesWayBadly(p, w, a)
    ensures Inv(p, Step(w, a))
  {
    var c := if a.side == Left then w.left else w.right;
    var out := SideStep(c, a).1;
    if a.Deliver? && a.cmd !in (if a.side == Left then w.fromRight else w.fromLeft) {
    } else if LeftPrevails(p) {
      if a.side == Left {
        OpenerStep(w.left, a, p.rightSession, p.leftSession, p.leftRequest, w.leftKeys, w.fromLeft, w.fromRight);
      } else {
        AccepterStep(w.right, a, p.rightSession, p.leftSession, p.leftRequest, w.rightKeys, w.fromRight, w.fromLeft);
        MoreReceived(w.left, p.leftSession, p.leftRequest, w.leftKeys, w.fromLeft, w.fromRight, Sent(out));
      }
    } else {
      if a.side == Right {
        OpenerStep(w.right, a, p.leftSession, p.rightSession, p.rightRequest, w.rightKeys, w.fromRight, w.fromLeft);
      } else {
        AccepterStep(w.left, a, p.leftSession, p.rightSession, p.rightRequest, w.leftKeys, w.fromLeft, w.fromRight);
        MoreReceived(w.right, p.rightSession, p.rightRequest, w.rightKeys, w.fromRight, w.fromLeft, Sent(out));
      }
    }
  }

  lemma {:induction false} EveryRunKeepsInv(p: Setup, actions: seq<Action>)
    requires ValidSetup(p) && Clean(p, actions)
    ensures Inv(p, Run(p, actions))
  {
    if actions != [] {
      EveryRunKeepsInv(p, actions[..|actions| - 1]);
      StepKeepsInv(p, Run(p, actions[..|actions| - 1]), actions[|actions| - 1]);
    }
  }

  /** Handshake agreement: whatever is lost, duplicated or reordered, whenever both sides are connected they hold
      the same session, exactly one of them is incoming, and both keys come from one request and one response. */
  lemma BothConnectedAgree(p: Setup, actions: seq<Action>, w: World)
    requires ValidSetup(p) && Clean(p, actions) && w == Run(p, actions)
    requires w.left.state.Connected? && w.right.state.Connected?
    ensures w.left.conn.session == w.right.conn.session
    ensures w.left.conn.direction != w.right.conn.direction
    ensures w.left.state.key == w.right.state.key
    ensures w.left.conn.session == if LeftPrevails(p) then p.leftSession else p.rightSession
  {
    EveryRunKeepsInv(p, actions);
  }

  /** The keys of an opener and its accepter. */
  lemma KeysOfPair(c: Connection, d: Connection, own: nat, session: nat, request: Bytes, keys: seq<Key>, theirs: seq<Key>, sent: set<Cmd>, received: set<Cmd>)
    requires Opener(c, session, request, keys, sent, received) && Accepter(d, own, session, request, theirs, received)
    ensures |keys| <= 1 && |theirs| <= 1 && (keys == [] || keys == theirs)
    ensures forall k :: k in keys || k in theirs ==> k.request == request && ConnectResponse(session, Ok(k.response)) in received
    ensures (c.state.Connected? ==> keys == [c.state.key]) && (d.state.Connected? ==> theirs == [d.state.key])
  {
    if keys != [] { assert theirs == [Key(request, keys[0].response)]; }
  }

  /** The keys in use agree: in every clean run each side hands at most one key to its user, made from the prevailing
      request and a response that the accepting side sent under the prevailing session; where both handed one out it is the
      same, and the opening side hands out only what the accepting side has handed out before. */
  lemma KeysHandedOutAgree(p: Setup, actions: seq<Action>, w: World)
    requires ValidSetup(p) && Clean(p, actions) && w == Run(p, actions)
    ensures var (request, session) := if LeftPrevails(p) then (p.leftRequest, p.leftSession) else (p.rightRequest, p.rightSession);
      forall k :: k in w.leftKeys + w.rightKeys ==> k.request == request && ConnectResponse(session, Ok(k.response)) in (if LeftPrevails(p) then w.fromRight else w.fromLeft)
    ensures |w.leftKeys| <= 1 && |w.rightKeys| <= 1 && (w.leftKeys != [] && w.rightKeys != [] ==> w.leftKeys == w.rightKeys)
    ensures if LeftPrevails(p) then w.leftKeys == [] || w.leftKeys == w.rightKeys else w.rightKeys == [] || w.rightKeys == w.leftKeys
    ensures (w.left.state.Connected? ==> w.leftKeys == [w.left.state.key]) && (w.right.state.Connected? ==> w.rightKeys == [w.right.state.key])
  {
    EveryRunKeepsInv(p, actions);
    if LeftPrevails(p) {
      KeysOfPair(w.left, w.right, p.rightSession, p.leftSession, p.leftRequest, w.leftKeys, w.rightKeys, w.fromLeft, w.fromRight);
    } else {
      KeysOfPair(w.right, w.left, p.leftSession, p.rightSession, p.rightRequest, w.rightKeys, w.leftKeys, w.fromRight, w.fromLeft);
    }
  }

  /** When requests succeed, a run is clean. */
  lemma {:induction false} SuccessIsClean(p: Setup, actions: seq<Action>)
    requires RequestsSucceed(actions)
    ensures Clean(p, actions)
  {
    if actions != [] {
      assert actions[|actions| - 1] in actions;
      SuccessIsClean(p, actions[..|actions| - 1]);
    }
  }

  /** When only one side opens, every run is clean, failed requests and all. */
  lemma {:induction false} OneOpenerIsClean(p: Setup, actions: seq<Action>)
    requires !p.rightOpens
    ensures Clean(p, actions) && !Run(p, actions).right.state.OutgoingWait?
  {
    if actions != [] {
      var w := Run(p, actions[..|actions| - 1]);
      OneOpenerIsClean(p, actions[..|actions| - 1]);
      NeverOpensLater(w.right, actions[|actions| - 1]);
    }
  }

  lemma NeverOpensLater(c: Connection, a: Action)
    requires !c.state.OutgoingWait?
    ensures !SideStep(c, a).0.state.OutgoingWait?
  {
  }

  lemma {:induction false} RunAppend(p: Setup, actions: seq<Action>, a: Action)
    ensures Run(p, actions + [a]) == Step(Run(p, actions), a)
  {
  }

  /** Agreement between two sides: if both are connected, they share session and key and exactly one is incoming. */
  predicate Agree(w: World) {
    w.left.state.Connected? && w.right.state.Connected? ==>
      w.left.conn.session == w.right.conn.session && w.left.conn.direction != w.right.conn.direction && w.left.state.key == w.right.state.key
  }

  /** Equal sessions break agreement: both openers give way to each other, and both end up incoming. */
  lemma EqualSessionsDisagree(p: Setup) returns (actions: seq<Action>)
    requires p.rightOpens && p.leftSession == p.rightSession
    ensures RequestsSucceed(actions) && !Agree(Run(p, actions))
  {
    var first := Deliver(Left, 0, ConnectRequest(p.leftNode, p.rightSession, p.rightRequest), Some([]));
    var second := Deliver(Right, 0, ConnectRequest(p.rightNode, p.leftSession, p.leftRequest), Some([]));
    assert Net(first.cmd) in NewOutgoing(p.rightNode, p.leftNode, p.rightSession, p.rightRequest, 0).1;
    assert Net(second.cmd) in NewOutgoing(p.leftNode, p.rightNode, p.leftSession, p.leftRequest, 0).1;
    RunAppend(p, [], first);
    RunAppend(p, [first], second);
    assert [] + [first] == [first] && [first] + [second] == [first, second];
    actions := [first, second];
  }

  /** As long as requests can be processed, a pair of nodes agrees in every run exactly when the sessions of a
      simultaneous open differ. */
  lemma AgreementIffSessionsDiffer(p: Setup)
    ensures (forall actions :: RequestsSucceed(actions) ==> Agree(Run(p, actions))) <==> (p.rightOpens ==> p.leftSession != p.rightSession)
  {
    if p.rightOpens && p.leftSession == p.rightSession {
      var actions := EqualSessionsDisagree(p);
    } else {
      forall actions | RequestsSucceed(actions) ensures Agree(Run(p, actions)) {
        SuccessIsClean(p, actions);
        EveryRunKeepsInv(p, actions);
      }
    }
  }

  /** The first half of that run: the failed request leaves the side waiting under the other's session. */
  lemma GivingWayResends(p: Setup)
    requires p.rightOpens && p.leftSession > p.rightSession
    ensures var w := Run(p, [Deliver(Left, 0, ConnectRequest(p.leftNode, p.rightSession, p.rightRequest), None), Tick(Left, RETRY_CMD_MS)]);
      && w.left == Initial(p).left.(conn := ConnId(Incoming, p.rightSession))
      && w.right == Initial(p).right
      && ConnectRequest(p.rightNode, p.rightSession, p.leftRequest) in w.fromLeft
  {
    var a1 := Deliver(Left, 0, ConnectRequest(p.leftNode, p.rightSession, p.rightRequest), None);
    var a2 := Tick(Left, RETRY_CMD_MS);
    assert Net(a1.cmd) in NewOutgoing(p.rightNode, p.leftNode, p.rightSession, p.rightRequest, 0).1;
    RunAppend(p, [], a1);
    RunAppend(p, [a1], a2);
    assert [] + [a1] == [a1] && [a1] + [a2] == [a1, a2];
    var w1 := Run(p, [a1]);
    assert Net(ConnectRequest(p.rightNode, p.rightSession, p.leftRequest)) in OnTick(w1.left, RETRY_CMD_MS).1;
  }

  /** A request that fails to be processed while giving way breaks agreement: the side has already taken over the
      other's session, resends its own request under it, and both sides end up incoming. */
  lemma LeftGivesWayBadly(p: Setup) returns (actions: seq<Action>)
    requires p.rightOpens && p.leftSession > p.rightSession
    ensures !Agree(Run(p, actions))
  {
    var a1 := Deliver(Left, 0, ConnectRequest(p.leftNode, p.rightSession, p.rightRequest), None);
    var a2 := Tick(Left, RETRY_CMD_MS);
    var resent := ConnectRequest(p.rightNode, p.rightSession, p.leftRequest);
    var a3 := Deliver(Right, RETRY_CMD_MS, resent, Some([]));
    var a4 := Deliver(Left, RETRY_CMD_MS, ConnectResponse(p.rightSession, Ok([])), Some([]));
    GivingWayResends(p);
    RunAppend(p, [a1, a2], a3);
    RunAppend(p, [a1, a2, a3], a4);
    assert [a1, a2] + [a3] == [a1, a2, a3] && [a1, a2, a3] + [a4] == [a1, a2, a3, a4];
    var w2 := Run(p, [a1, a2]);
    assert Net(a4.cmd) in SideStep(w2.right, a3).1;
    assert a4.cmd in Run(p, [a1, a2, a3]).fromRight;
    actions := [a1, a2, a3, a4];
  }

  // ---- the two sides are alike --------------------------------------------------------------

  function SwapSetup(p: Setup): Setup {
    Setup(p.rightNode, p.leftNode, p.rightSession, p.rightRequest, p.rightOpens, p.leftSession, p.leftRequest)
  }

  function SwapWorld(w: World): World { World(w.right, w.left, w.fromRight, w.fromLeft, w.rightKeys, w.leftKeys) }

  function SwapAction(a: Action): Action {
    var side := if a.side == Left then Right else Left;
    match a
    case Tick(_, now) => Tick(side, now)
    case Close(_, now) => Close(side, now)
    case Deliver(_, now, cmd, outcome) => Deliver(side, now, cmd, outcome)
  }

  function SwapActions(actions: seq<Action>): (r: seq<Action>)
    ensures |r| == |actions|
  {
    seq(|actions|, i requires 0 <= i < |actions| => SwapAction(actions[i]))
  }

  /** Two openers who change places change nothing. */
  lemma {:induction false} SwappedRun(p: Setup, actions: seq<Action>)
    requires p.rightOpens
    ensures Run(SwapSetup(p), SwapActions(actions)) == SwapWorld(Run(p, actions))
  {
    if actions != [] {
      var n := |actions| - 1;
      SwappedRun(p, actions[..n]);
      assert SwapActions(actions)[..n] == SwapActions(actions[..n]);
      assert Step(SwapWorld(Run(p, actions[..n])), SwapAction(actions[n])) == SwapWorld(Step(Run(p, actions[..n]), actions[n]));
    }
  }

  /** Whichever side has to give way, one failed request can break agreement. */
  lemma FailedGivingWayDisagrees(p: Setup) returns (actions: seq<Action>)
    requires p.rightOpens && p.leftSession != p.rightSession
    ensures !Agree(Run(p, actions))
  {
    if p.leftSession > p.rightSession {
      actions := LeftGivesWayBadly(p);
    } else {
      var mirrored := LeftGivesWayBadly(SwapSetup(p));
      actions := SwapActions(mirrored);
      SwappedRun(SwapSetup(p), mirrored);
      assert SwapSetup(SwapSetup(p)) == p;
    }
  }

  /** With no assumption on requests at all, a pair agrees in every run exactly when only one side opens. */
  lemma AgreementIffOneOpens(p: Setup)
    ensures (forall actions :: Agree(Run(p, actions))) <==> !p.rightOpens
  {
    if p.rightOpens {
      var actions: seq<Action>;
      if p.leftSession == p.rightSession {
        actions := EqualSessionsDisagree(p);
      } else {
        actions := FailedGivingWayDisagrees(p);
      }
    } else {
      forall actions ensures Agree(Run(p, actions)) {
        OneOpenerIsClean(p, actions);
        EveryRunKeepsInv(p, actions);
      }
    }
  }

  /** The prevailing opener's request and the response to it connect both sides. */
  lemma LeftCompletes(p: Setup, x: Bytes) returns (actions: seq<Action>)
    requires LeftPrevails(p)
    ensures RequestsSucceed(actions)
    ensures var w := Run(p, actions); w.left.state.Connected? && w.right.state.Connected? && w.left.state.key == Key(p.leftRequest, x)
  {
    var a1 := Deliver(Right, 0, ConnectRequest(p.rightNode, p.leftSession, p.leftRequest), Some(x));
    var a2 := Deliver(Left, 0, ConnectResponse(p.leftSession, Ok(x)), Some(x));
    assert Net(a1.cmd) in NewOutgoing(p.leftNode, p.rightNode, p.leftSession, p.leftRequest, 0).1;
    RunAppend(p, [], a1);
    RunAppend(p, [a1], a2);
    assert [] + [a1] == [a1] && [a1] + [a2] == [a1, a2];
    assert Net(a2.cmd) in SideStep(Initial(p).right, a1).1;
    assert a2.cmd in Run(p, [a1]).fromRight;
    actions := [a1, a2];
  }

  /** Agreement is reached: from every valid setup, one side opening or both, two deliveries connect both sides under the
      prevailing request and the response `x` to it. */
  lemma HandshakeCompletes(p: Setup, x: Bytes) returns (actions: seq<Action>)
    requires ValidSetup(p)
    ensures RequestsSucceed(actions)
    ensures var w := Run(p, actions);
      && w.left.state.Connected? && w.right.state.Connected? && Agree(w)
      && w.leftKeys == w.rightKeys == [Key(if LeftPrevails(p) then p.leftRequest else p.rightRequest, x)]
  {
    if LeftPrevails(p) {
      actions := LeftCompletes(p, x);
    } else {
      var mirrored := LeftCompletes(SwapSetup(p), x);
      actions := SwapActions(mirrored);
      SwappedRun(SwapSetup(p), mirrored);
      assert SwapSetup(SwapSetup(p)) == p;
      forall a | a in actions ensures !FailedRequest(a) {
        var k :| 0 <= k < |actions| && actions[k] == a;
        assert mirrored[k] in mirrored;
      }
    }
    SuccessIsClean(p, actions);
    EveryRunKeepsInv(p, actions);
  }
}
