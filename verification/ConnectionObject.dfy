/** The neighbour connection as the object the program keeps: fields updated in place and an output queue.
    Each method is proved against the connection as a value. */
module ConnectionObject {
  import opened Identity
  import opened Handshake

  class NeighbourConnection {
    var conn: ConnId
    const local: NodeId
    const node: NodeId
    var state: State
    var output: seq<Output>

    function View(): (c: Connection) reads this { Connection(conn, local, node, state) }

    constructor NewOutgoing(local: NodeId, node: NodeId, session: nat, request: Bytes, now: nat)
      ensures (View(), output) == Handshake.NewOutgoing(local, node, session, request, now)
    {
      this.local, this.node := local, node;
      conn := ConnId(Outgoing, session);
      state := OutgoingWait(now, request);
      output := [Net(ConnectRequest(node, session, request))];
    }

    constructor NewIncoming(local: NodeId, node: NodeId, session: nat, now: nat)
      ensures View() == Handshake.NewIncoming(local, node, session, now) && output == []
    {
      this.local, this.node := local, node;
      conn := ConnId(Incoming, session);
      state := IncomingWait(now);
      output := [];
    }

    method Send(cmd: Cmd)
      modifies this`output
      ensures output == old(output) + [Net(cmd)]
    {
      output := output + [Net(cmd)];
    }

    method RaiseEvent(event: Event)
      modifies this`output
      ensures output == old(output) + [Raise(event)]
    {
      output := output + [Raise(event)];
    }

    method Disconnect(now: nat)
      modifies this
      ensures (View(), output) == var (c, out) := Handshake.Disconnect(old(View()), now); (c, old(output) + out)
    {
      match state
      case OutgoingWait(_, _) =>
        state := Disconnecting(now);
        Send(DisconnectRequest(conn.session));
      case Connected(_, _, _, _, _) =>
        state := Disconnecting(now);
        Send(DisconnectRequest(conn.session));
      case _ =>
        assert output == old(output) + [];
    }

    method OnTick(now: nat)
      modifies this
      ensures (View(), output) == var (c, out) := Handshake.OnTick(old(View()), now); (c, old(output) + out)
    {
      assert output == output + [];
      match state
      case OutgoingWait(at, request) =>
        if now - at >= CONNECT_TIMEOUT_MS {
          state := ConnectTimeout;
          RaiseEvent(EvConnectTimeout);
        } else if now - at >= RETRY_CMD_MS {
          Send(ConnectRequest(node, conn.session, request));
        }
      case IncomingWait(at) =>
        if now - at >= CONNECT_TIMEOUT_MS {
          state := ConnectTimeout;
          RaiseEvent(EvConnectTimeout);
        }
      case Connected(last, pings, _, _, _) =>
        if now - last >= CONNECTION_TIMEOUT_MS {
          RaiseEvent(EvDisconnected);
        } else {
          state := state.(pingSeq := pings + 1);
          Send(Ping(conn.session, pings + 1, now));
        }
      case Disconnecting(at) =>
        if now - at >= CONNECTION_TIMEOUT_MS {
          state := Disconnected;
          RaiseEvent(EvDisconnected);
        } else {
          state := Disconnecting(now);
          Send(DisconnectRequest(conn.session));
        }
      case _ =>
    }

    method SwitchToIncoming(session: nat)
      modifies this`conn
      ensures conn == ConnId(Incoming, session)
    {
      conn := ConnId(Incoming, session);
    }

    /** The responding side's half of the handshake: the answer to send, the new state and event when it succeeds. */
    method Respond(now: nat, session: nat, request: Bytes, outcome: Option<Bytes>) returns (answer: Answer)
      modifies this
      ensures conn == old(conn)
      ensures (View(), output + [Net(ConnectResponse(session, answer))]) ==
              var (c, out) := Accept(old(View()), now, session, request, outcome); (c, old(output) + out)
    {
      match outcome
      case Some(response) =>
        RaiseEvent(EvConnected(Key(request, response)));
        state := Connected(now, 0, INIT_RTT_MS, Some(Answered(request, response, session)), Key(request, response));
        answer := Ok(response);
        assert output + [Net(ConnectResponse(session, answer))] == old(output) + [Raise(EvConnected(Key(request, response))), Net(ConnectResponse(session, answer))];
      case None =>
        answer := Err(InvalidData);
    }

    method OnConnectRequest(now: nat, from: NodeId, to: NodeId, session: nat, request: Bytes, outcome: Option<Bytes>)
      modifies this
      ensures (View(), output) == var (c, out) := Handshake.OnConnectRequest(old(View()), now, from, to, session, request, outcome); (c, old(output) + out)
    {
      var answer: Answer;
      if local == to && node == from {
        match state
        case IncomingWait(_) =>
          answer := Respond(now, session, request, outcome);
        case OutgoingWait(_, _) =>
          if conn.session >= session {
            SwitchToIncoming(session);
            answer := Respond(now, session, request, outcome);
          } else {
            assert output == old(output) + [];
            return;
          }
        case Connected(_, _, _, Some(before), _) =>
          answer := if request == before.request && before.session == session then Ok(before.response) else Err(InvalidData);
        case Connected(_, _, _, None, _) =>
          answer := Err(InvalidData);
        case _ =>
          answer := Err(InvalidState);
      } else {
        answer := Err(InvalidData);
      }
      Send(ConnectResponse(session, answer));
    }

    method OnInput(now: nat, from: NodeId, cmd: Cmd, outcome: Option<Bytes>)
      modifies this
      ensures (View(), output) == var (c, out) := Handshake.OnInput(old(View()), now, from, cmd, outcome); (c, old(output) + out)
    {
      assert output == output + [];
      match cmd
      case ConnectRequest(to, session, request) =>
        OnConnectRequest(now, from, to, session, request, outcome);
      case ConnectResponse(session, result) =>
        if session == conn.session && state.OutgoingWait? && result.Ok? {
          if outcome.Some? {
            var key := Key(state.request, result.response);
            RaiseEvent(EvConnected(key));
            state := Connected(now, 0, INIT_RTT_MS, None, key);
          } else {
            state := ConnectFailed(InvalidData);
            RaiseEvent(EvConnectError(InvalidData));
          }
        }
      case Ping(session, s, sent) =>
        if session == conn.session && state.Connected? {
          Send(Pong(session, s, sent));
        }
      case Pong(session, _, sent) =>
        if session == conn.session && state.Connected? {
          state := state.(lastPongMs := now);
          if sent <= now {
            state := state.(rttMs := (now - sent) % 0x1_0000_0000);
            RaiseEvent(EvStats(state.rttMs));
          }
        }
      case DisconnectRequest(session) =>
        if session == conn.session {
          state := Disconnected;
          Send(DisconnectResponse(session));
          RaiseEvent(EvDisconnected);
          assert output == old(output) + [Net(DisconnectResponse(session)), Raise(EvDisconnected)];
        }
      case DisconnectResponse(session) =>
        if session == conn.session && state.Disconnecting? {
          state := Disconnected;
          RaiseEvent(EvDisconnected);
        }
    }

    method PopOutput() returns (out: Option<Output>)
      modifies this`output
      ensures old(output) == [] ==> out == None && output == []
      ensures old(output) != [] ==> out == Some(old(output)[0]) && output == old(output)[1..]
    {
      if output == [] { return None; }
      out := Some(output[0]);
      output := output[1..];
    }
  }
}
