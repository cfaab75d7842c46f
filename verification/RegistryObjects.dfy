/** The service registry as an object updated in place, each method proved against `RouterModel`. */
module RegistryObjects {
  import opened Identity
  import opened Sorting
  import opened Paths
  import opened RouterModel
  import opened TableObjects

  /** The remote paths of one service, best first, with the queue of per-path changes. */
  class RegistryDest {
    var paths: seq<Path>
    var deltas: seq<RegistryDestDelta>

    ghost predicate Valid()
      reads this
    {
      WellFormed(paths)
    }

    constructor ()
      ensures Valid() && paths == [] && deltas == []
    {
      paths, deltas := [], [];
    }

    /** A change of score or destination is queued, a mere change of hops is not. */
    method SetPath(over: ConnId, metric: Route)
      requires Valid()
      modifies this
      ensures Valid()
      ensures paths == ServiceSlot(old(paths), over, Some(metric))
      ensures deltas == old(deltas) + ServiceSlotDeltas(old(paths), over, Some(metric))
    {
      assert WellFormed(Paths.SetPath(paths, over, metric)) by { SetPathFacts(paths, over, metric); }
      var index := FindConn(paths, over);
      if index >= 0 {
        if Score(paths[index].metric) != Score(metric) || DestNode(paths[index].metric) != DestNode(metric) {
          deltas := deltas + [SetServicePath(over, DestNode(metric), Score(metric))];
        }
        paths := paths[index := Path(over, metric)];
      } else {
        deltas := deltas + [SetServicePath(over, DestNode(metric), Score(metric))];
        paths := paths + [Path(over, metric)];
      }
      paths := Sort(paths, PathScore);
    }

    method DelPath(over: ConnId)
      requires Valid()
      modifies this
      ensures Valid()
      ensures paths == ServiceSlot(old(paths), over, None)
      ensures deltas == old(deltas) + ServiceSlotDeltas(old(paths), over, None)
    {
      assert WellFormed(Paths.DelPath(paths, over)) by { DelPathFacts(paths, over); }
      assert Paths.DelPath(paths, over) == Removed(paths, PathConn, over) by { RetainedIsRemoved(paths, PathConn, over); }
      var index := FindConn(paths, over);
      if index >= 0 {
        paths := paths[..index] + paths[index + 1..];
        deltas := deltas + [DelServicePath(over)];
      }
    }

    method PopDelta() returns (d: Option<RegistryDestDelta>)
      modifies this`deltas
      ensures old(deltas) == [] ==> d.None? && deltas == []
      ensures old(deltas) != [] ==> d == Some(old(deltas)[0]) && deltas == old(deltas)[1..]
    {
      if deltas == [] {
        return None;
      }
      d := Some(deltas[0]);
      deltas := deltas[1..];
    }
  }

  lemma OwedServicesGrow(base: seq<RegistryDelta>, before: Dests, conn: ConnId, cached: map<Byte, Route>, i: Byte)
    ensures base + OwedServices(before, conn, cached, i) + TaggedService(i, ServiceSlotDeltas(before[i], conn, Lookup(cached, i)))
      == base + OwedServices(before, conn, cached, i + 1)
  {
  }

  class Registry {
    const node: NodeId
    const locals: array<bool>
    const remotes: seq<RegistryDest>
    var deltas: seq<RegistryDelta>

    ghost predicate Shape() {
      locals.Length == 256 && |remotes| == 256 && forall i, j :: 0 <= i < j < 256 ==> remotes[i] != remotes[j]
    }

    ghost predicate SlotValid(i: Byte)
      requires Shape()
      reads remotes
    {
      remotes[i].Valid() && remotes[i].deltas == []
    }

    ghost predicate Valid()
      reads this, remotes
    {
      Shape() && forall i: Byte :: SlotValid(i)
    }

    ghost function Locals(): set<Byte>
      requires Shape()
      reads locals
    {
      set i: Byte | 0 <= i < 256 && locals[i]
    }

    ghost function Remotes(): Dests
      requires Shape()
      reads remotes
    {
      seq(256, i requires 0 <= i < 256 reads remotes => remotes[i].paths)
    }

    ghost function State(): RegistryState
      requires Shape()
      reads this, locals, remotes
    {
      RegistryState(Locals(), Remotes(), deltas)
    }

    constructor (node: NodeId)
      ensures Valid() && fresh(locals) && fresh(remotes) && this.node == node
      ensures State() == RegistryState({}, NO_DESTS, [])
    {
      var created: seq<RegistryDest> := [];
      for i := 0 to 256
        invariant |created| == i && fresh(created)
        invariant forall j, k :: 0 <= j < k < i ==> created[j] != created[k]
        invariant forall j :: 0 <= j < i ==> created[j].Valid() && created[j].paths == [] && created[j].deltas == []
      {
        var d := new RegistryDest();
        created := created + [d];
      }
      this.node, remotes, deltas := node, created, [];
      locals := new bool[256](_ => false);
    }

    method AddService(service: Byte)
      requires Valid()
      modifies this`deltas, locals
      ensures Valid()
      ensures State() == RegistryState(old(State()).locals + {service}, old(State()).remotes, old(deltas) + [SetServiceLocal(service)])
    {
      locals[service] := true;
      deltas := deltas + [SetServiceLocal(service)];
      assert forall i: Byte :: old(SlotValid(i));
      assert Locals() == old(Locals()) + {service};
      assert Remotes() == old(Remotes());
    }

    /** Moves the queued changes of one service to the registry's queue. */
    method Poll(index: Byte)
      requires Shape()
      modifies this`deltas, remotes[index]
      ensures remotes[index].deltas == [] && remotes[index].paths == old(remotes[index].paths)
      ensures deltas == old(deltas) + TaggedService(index, old(remotes[index].deltas))
    {
      var d := remotes[index].PopDelta();
      ghost var done: nat := 0;
      ghost var all := old(remotes[index].deltas);
      while d.Some?
        invariant d.Some? ==> done < |all| && d.value == all[done] && remotes[index].deltas == all[done + 1..]
        invariant d.None? ==> done == |all| && remotes[index].deltas == []
        invariant remotes[index].paths == old(remotes[index].paths)
        invariant done <= |all| && deltas == old(deltas) + TaggedService(index, all[..done])
        decreases |all| - done
      {
        deltas := deltas + [ServiceRemote(index, d.value)];
        assert TaggedService(index, all[..done + 1]) == TaggedService(index, all[..done]) + [ServiceRemote(index, all[done])];
        done := done + 1;
        d := remotes[index].PopDelta();
      }
      assert all[..done] == all;
    }

    method UpdateSlot(i: Byte, conn: ConnId, update: Option<Route>)
      requires Valid()
      modifies this`deltas, remotes[i]
      ensures Valid()
      ensures remotes[i].paths == ServiceSlot(old(remotes[i].paths), conn, update)
      ensures deltas == old(deltas) + TaggedService(i, ServiceSlotDeltas(old(remotes[i].paths), conn, update))
    {
      assert forall j: Byte :: SlotValid(j) && (j != i ==> remotes[j] != remotes[i]);
      match update {
        case Some(metric) => remotes[i].SetPath(conn, metric);
        case None => remotes[i].DelPath(conn);
      }
      Poll(i);
    }

    ghost predicate Showing(before: Dests, after: Dests, n: nat)
      requires Shape()
      reads remotes
    {
      forall j: Byte :: remotes[j].paths == if j < n then after[j] else before[j]
    }

    method UpdateAll(conn: ConnId, cached: map<Byte, Route>, ghost before: Dests, ghost after: Dests)
      requires Valid() && Showing(before, after, 0)
      requires forall i: Byte :: after[i] == ServiceSlot(before[i], conn, Lookup(cached, i))
      modifies this`deltas, remotes
      ensures Valid() && Showing(before, after, 256)
      ensures deltas == old(deltas) + OwedServices(before, conn, cached, 256)
    {
      for i := 0 to 256
        invariant Valid() && Showing(before, after, i)
        invariant deltas == old(deltas) + OwedServices(before, conn, cached, i)
      {
        assert forall j: Byte :: j != i ==> remotes[j] != remotes[i];
        UpdateSlot(i, conn, Lookup(cached, i));
        OwedServicesGrow(old(deltas), before, conn, cached, i);
      }
    }

    lemma ShownState(before: Dests, after: Dests)
      requires Shape() && Showing(before, after, 256)
      ensures Remotes() == after
    {
    }

    /** Every service slot takes the path offered over `conn`, or loses the one it had. */
    method Update(conn: ConnId, cached: map<Byte, Route>)
      requires Valid()
      modifies this`deltas, remotes
      ensures Valid()
      ensures State() == RegistryUpdate(old(State()), conn, cached)
    {
      ghost var before := Remotes();
      ghost var after := RegistryUpdate(State(), conn, cached).remotes;
      UpdateAll(conn, cached, before, after);
      ShownState(before, after);
      assert Locals() == old(Locals());
    }

    method DelDirect(conn: ConnId)
      requires Valid()
      modifies this`deltas, remotes
      ensures Valid()
      ensures State() == RegistryUpdate(old(State()), conn, map[])
    {
      Update(conn, map[]);
    }

    method ApplySync(conn: ConnId, link: Route, entries: Entries)
      requires Valid()
      modifies this`deltas, remotes
      ensures Valid()
      ensures State() == RegistryUpdate(old(State()), conn, Cached(entries, link))
    {
      var cached := Collect(entries, link);
      Update(conn, cached);
    }

    method PopDelta() returns (d: Option<RegistryDelta>)
      requires Valid()
      modifies this`deltas
      ensures Valid() && Locals() == old(Locals()) && Remotes() == old(Remotes())
      ensures old(deltas) == [] ==> d.None? && deltas == []
      ensures old(deltas) != [] ==> d == Some(old(deltas)[0]) && deltas == old(deltas)[1..]
    {
      if deltas == [] {
        d := None;
      } else {
        d := Some(deltas[0]);
        deltas := deltas[1..];
      }
      assert forall i: Byte :: old(SlotValid(i));
    }

    method Next(service: Byte, excepts: seq<NodeId>) returns (r: Option<ServiceDestination>)
      requires Valid()
      ensures r == if service in Locals() then Some(Here)
                   else match NextPath(Remotes()[service], set e | e in excepts) case Some(p) => Some(Over(p)) case None => None
    {
      if locals[service] {
        return Some(Here);
      }
      var p := FindNext(remotes[service].paths, excepts);
      return match p case Some(q) => Some(Over(q)) case None => None;
    }

    method SyncFor(to: NodeId) returns (res: Entries)
      requires Valid()
      ensures res == ServicesAdvertised(State(), to, 256)
    {
      res := [];
      for i := 0 to 256
        invariant res == ServicesAdvertised(State(), to, i)
      {
        if locals[i] {
          res := res + [(i, Metric(0, [], REGISTRY_LOCAL_BW))];
        } else if remotes[i].paths != [] {
          var best := FindBestFor(remotes[i].paths, to);
          if best.Some? {
            res := res + [(i, best.value.metric)];
          }
        }
      }
    }
  }
}
