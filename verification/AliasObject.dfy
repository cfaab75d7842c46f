/** Alias lookup as the object the program keeps, its maps updated in place. Each method is proved against the
    feature as a value. */
module AliasObject {
  import opened Identity
  import opened Endpoints
  import A = Alias

  class AliasFeature {
    var queries: map<nat, A.QuerySlot>
    var hints: map<nat, A.HintSlot>
    var locals: map<nat, nat>
    var scanSeq: nat
    var queue: seq<A.Output>

    function View(): (f: A.Feature) reads this { A.Feature(queries, hints, locals, scanSeq) }

    constructor ()
      ensures View() == A.NewFeature && queue == []
    {
      queries, hints, locals, scanSeq, queue := map[], map[], map[], 0, [];
    }

    method GenSeq() returns (seqNo: nat)
      modifies this`scanSeq
      ensures seqNo == old(scanSeq) && scanSeq == A.NextSeq(old(scanSeq))
    {
      seqNo := scanSeq;
      scanSeq := (scanSeq + 1) % 0x1_0000;
    }

    method SendTo(rule: A.Rule, msg: A.Message)
      modifies this`queue
      ensures queue == old(queue) + [A.Send(rule, msg)]
    {
      queue := queue + [A.Send(rule, msg)];
    }

    method AnswerAll(waiters: seq<Actor>, alias: nat, location: Option<A.Location>)
      modifies this`queue
      ensures queue == old(queue) + A.AnswerAll(waiters, alias, location)
    {
      var i := 0;
      while i < |waiters|
        invariant i <= |waiters| && queue == old(queue) + A.AnswerAll(waiters[..i], alias, location)
      {
        assert A.AnswerAll(waiters[..i + 1], alias, location) == A.AnswerAll(waiters[..i], alias, location) + [A.Answer(waiters[i], alias, location)];
        queue := queue + [A.Answer(waiters[i], alias, location)];
        i := i + 1;
      }
      assert waiters[..i] == waiters;
    }

    method Settle(alias: nat, location: Option<A.Location>)
      requires alias in queries
      modifies this`queries, this`queue
      ensures (View(), queue) == var (f, out) := A.Settle(old(View()), alias, location); (f, old(queue) + out)
    {
      AnswerAll(queries[alias].waiters, alias, location);
      queries := queries - {alias};
    }

    method StartScan(now: nat, alias: nat)
      requires alias in queries
      modifies this`queries, this`scanSeq, this`queue
      ensures (View(), queue) == var (f, out) := A.StartScan(old(View()), now, alias); (f, old(queue) + out)
    {
      var slot := queries[alias];
      var seqNo := GenSeq();
      queries := queries[alias := slot.(state := A.Scanning(now))];
      SendTo(A.ToServices(slot.service, slot.level, seqNo), A.Scan(alias));
    }

    method OnQuery(now: nat, actor: Actor, alias: nat, service: Byte, level: Level)
      modifies this
      ensures (View(), queue) == var (f, out) := A.OnQuery(old(View()), now, actor, alias, service, level); (f, old(queue) + out)
    {
      assert queue == queue + [];
      if alias in locals {
        queue := queue + [A.Answer(actor, alias, Some(A.Here))];
      } else if alias in queries {
        var slot := queries[alias];
        queries := queries[alias := slot.(waiters := slot.waiters + [actor])];
      } else if alias in hints {
        var hint := hints[alias];
        if hint.ts + A.HINT_TIMEOUT_MS >= now {
          queue := queue + [A.Answer(actor, alias, Some(A.CachedHint(hint.node)))];
        } else {
          queries := queries[alias := A.QuerySlot([actor], A.CheckingHint(hint.node, now), service, level)];
          SendTo(A.ToNode(hint.node), A.Check(alias));
        }
      } else {
        queries := queries[alias := A.QuerySlot([actor], A.Scanning(now), service, level)];
        var seqNo := GenSeq();
        SendTo(A.ToServices(service, level, seqNo), A.Scan(alias));
      }
    }

    method ProcessControl(now: nat, actor: Actor, control: A.Control)
      modifies this
      ensures (View(), queue) == var (f, out) := A.OnControl(old(View()), now, actor, control); (f, old(queue) + out)
    {
      assert queue == queue + [];
      match control
      case Register(alias, service, level) =>
        locals := locals[alias := now];
        var seqNo := GenSeq();
        SendTo(A.ToServices(service, level, seqNo), A.Notify(alias));
      case Query(alias, service, level) =>
        OnQuery(now, actor, alias, service, level);
      case Unregister(alias) =>
        locals := locals - {alias};
    }

    method OnFound(now: nat, from: NodeId, alias: nat, found: bool)
      modifies this
      ensures (View(), queue) == var (f, out) := A.OnFound(old(View()), now, from, alias, found); (f, old(queue) + out)
    {
      assert queue == queue + [];
      if found {
        hints := hints[alias := A.HintSlot(from, now)];
      }
      if alias in queries {
        match queries[alias].state
        case CheckingHint(node, _) =>
          if node == from {
            if found {
              Settle(alias, Some(A.RemoteHint(from)));
            } else {
              StartScan(now, alias);
            }
          }
        case Scanning(_) =>
          if found {
            Settle(alias, Some(A.RemoteScan(from)));
          }
      }
    }

    method ProcessRemote(now: nat, from: NodeId, msg: A.Message)
      modifies this
      ensures (View(), queue) == var (f, out) := A.OnRemote(old(View()), now, from, msg); (f, old(queue) + out)
    {
      assert queue == queue + [];
      match msg
      case Notify(alias) =>
        hints := hints[alias := A.HintSlot(from, now)];
        if alias in queries {
          Settle(alias, Some(A.Notified(from)));
        }
      case Scan(alias) =>
        if alias in locals {
          SendTo(A.ToNode(from), A.Found(alias, true));
        }
      case Check(alias) =>
        SendTo(A.ToNode(from), A.Found(alias, alias in locals));
      case Found(alias, found) =>
        OnFound(now, from, alias, found);
    }

    /** The loop over the open queries: late checks become scans, late scans are collected. */
    /** A check that took too long turns to a scan; a scan that took too long is reported. */
    method SwitchOne(now: nat, alias: nat) returns (expired: bool)
      requires alias in queries
      modifies this`queries, this`scanSeq, this`queue
      ensures expired == A.ScanExpired(old(View()), now, alias)
      ensures (View(), queue) == var (f, out) := A.SwitchOne(old(View()), now, alias); (f, old(queue) + out)
    {
      assert queue == queue + [];
      expired := false;
      match queries[alias].state {
        case CheckingHint(_, since) =>
          if now >= since + A.HINT_TIMEOUT_MS { StartScan(now, alias); }
        case Scanning(since) => expired := now >= since + A.SCAN_TIMEOUT_MS;
      }
    }

    method SwitchAll(now: nat) returns (gone: seq<nat>, ghost order: seq<nat>)
      modifies this`queries, this`scanSeq, this`queue
      ensures Enumerates(order, old(queries).Keys) && gone == A.Timeouts(old(View()), now, order)
      ensures (View(), queue) == var (f, out) := A.SwitchAll(old(View()), now, order); (f, old(queue) + out)
    {
      ghost var start := View();
      var keys := KeysOf(queries);
      EnumeratesMembers(keys, queries.Keys);
      order := keys;
      gone := [];
      var i := 0;
      while i < |keys|
        invariant i <= |keys|
        invariant A.Untouched(start, View(), keys[i..])
        invariant gone == A.Timeouts(start, now, keys[..i])
        invariant A.SwitchAll(start, now, keys).0 == A.SwitchAll(View(), now, keys[i..]).0
        invariant old(queue) + A.SwitchAll(start, now, keys).1 == queue + A.SwitchAll(View(), now, keys[i..]).1
      {
        A.VisitNext(start, View(), now, keys, i, queue);
        var expired := SwitchOne(now, keys[i]);
        if expired {
          gone := gone + [keys[i]];
        }
        i := i + 1;
      }
      assert keys[..i] == keys;
      assert queue == queue + A.SwitchAll(View(), now, keys[i..]).1;
    }

    method GiveUpAll(gone: seq<nat>)
      modifies this`queries, this`queue
      ensures (View(), queue) == var (f, out) := A.GiveUpAll(old(View()), gone); (f, old(queue) + out)
    {
      ghost var start := View();
      var i := 0;
      while i < |gone|
        invariant i <= |gone|
        invariant A.GiveUpAll(start, gone).0 == A.GiveUpAll(View(), gone[i..]).0
        invariant old(queue) + A.GiveUpAll(start, gone).1 == queue + A.GiveUpAll(View(), gone[i..]).1
      {
        assert gone[i..][1..] == gone[i + 1..];
        if gone[i] in queries {
          ghost var (before, f) := (queue, View());
          Settle(gone[i], None);
          Regroup(before, A.Settle(f, gone[i], None).1, A.GiveUpAll(View(), gone[i + 1..]).1);
        }
        i := i + 1;
      }
      assert queue == queue + A.GiveUpAll(View(), gone[i..]).1;
    }

    method OnTick(now: nat) returns (ghost order: seq<nat>)
      modifies this
      ensures Enumerates(order, old(queries).Keys)
      ensures (View(), queue) == var (f, out) := A.OnTick(old(View()), now, order); (f, old(queue) + out)
    {
      var gone;
      gone, order := SwitchAll(now);
      ghost var f1 := View();
      GiveUpAll(gone);
      Regroup(old(queue), A.SwitchAll(old(View()), now, order).1, A.GiveUpAll(f1, gone).1);
    }
  }
}
