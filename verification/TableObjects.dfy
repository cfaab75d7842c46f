/** The router's tables as objects updated in place, each method proved against `RouterModel`. */
module TableObjects {
  import opened Identity
  import opened Sorting
  import opened Paths
  import opened RouterModel

  /** The paths towards one table index, best first, with the queue of best-path changes. */
  class Dest {
    var paths: seq<Path>
    var deltas: seq<DestDelta>

    ghost predicate Valid()
      reads this
    {
      WellFormed(paths)
    }

    constructor ()
      ensures Valid() && paths == [] && deltas == []
    {
      paths, deltas := [], [];
    }

    method SetPath(over: ConnId, metric: Route)
      requires Valid()
      modifies this
      ensures Valid()
      ensures paths == Paths.SetPath(old(paths), over, metric)
      ensures deltas == old(deltas) + BestDelta(old(paths), paths)
    {
      assert WellFormed(Paths.SetPath(paths, over, metric)) by { SetPathFacts(paths, over, metric); }
      var best := BestConn(paths);
      var index := FindConn(paths, over);
      if index >= 0 {
        paths := paths[index := Path(over, metric)];
      } else {
        paths := paths + [Path(over, metric)];
      }
      paths := Sort(paths, PathScore);
      if best != BestConn(paths) {
        deltas := deltas + [if paths == [] then DelBestPath else SetBestPath(paths[0].conn)];
      }
    }

    /** The delta is queued from the position removed; with one path per connection that is exactly a change of best. */
    method DelPath(over: ConnId) returns (gone: Option<Path>)
      requires Valid()
      modifies this
      ensures Valid()
      ensures paths == Paths.DelPath(old(paths), over)
      ensures deltas == old(deltas) + BestDelta(old(paths), paths)
      ensures gone.Some? <==> Has(old(paths), over)
      ensures gone.Some? ==> gone.value in old(paths) && gone.value.conn == over
    {
      assert WellFormed(Paths.DelPath(paths, over)) by { DelPathFacts(paths, over); }
      assert Paths.DelPath(paths, over) == Removed(paths, PathConn, over) by { RetainedIsRemoved(paths, PathConn, over); }
      DelPathDelta(paths, over);
      HasIff(paths, over);
      var index := FindConn(paths, over);
      if index < 0 {
        return None;
      }
      if index == 0 {
        deltas := deltas + [if 1 < |paths| then SetBestPath(paths[1].conn) else DelBestPath];
      }
      gone := Some(paths[index]);
      paths := paths[..index] + paths[index + 1..];
    }

    method PopDelta() returns (d: Option<DestDelta>)
      modifies this`deltas
      ensures old(deltas) == [] ==> d.None? && deltas == []
      ensures old(deltas) != [] ==> d == Some(old(deltas)[0]) && deltas == old(deltas)[1..]
    {
      if deltas == [] {
        return None;
      }
      d := Some(deltas[0]);
      deltas := deltas[1..];
    }
  }

  method FindConn(paths: seq<Path>, goal: ConnId) returns (index: int)
    ensures index == IndexOf(paths, goal)
  {
    index := 0;
    while index < |paths|
      invariant 0 <= index <= |paths|
      invariant forall k :: 0 <= k < index ==> paths[k].conn != goal
    {
      if paths[index].conn == goal {
        return;
      }
      index := index + 1;
    }
    index := -1;
  }

  /** The first path over an allowed next hop has the least score of all such paths. */
  method FindNext(paths: seq<Path>, excepts: seq<NodeId>) returns (r: Option<Path>)
    ensures r == NextPath(paths, set e | e in excepts)
    ensures SortedBy(paths, PathScore) ==> forall p :: p in paths && OverNode(p.metric) !in excepts ==> r.Some? && Score(r.value.metric) <= Score(p.metric)
  {
    ghost var blocked := set e | e in excepts;
    forall p | SortedBy(paths, PathScore) && p in paths && OverNode(p.metric) !in excepts
      ensures NextPath(paths, blocked).Some? && Score(NextPath(paths, blocked).value.metric) <= Score(p.metric)
    {
      NextPathIsBest(paths, blocked, p);
    }
    var i := 0;
    while i < |paths|
      invariant 0 <= i <= |paths|
      invariant NextPath(paths, blocked) == NextPath(paths[i..], blocked)
    {
      if OverNode(paths[i].metric) !in excepts {
        return Some(paths[i]);
      }
      assert paths[i..][1..] == paths[i + 1..];
      i := i + 1;
    }
    return None;
  }

  method FindBestFor(paths: seq<Path>, neighbour: NodeId) returns (r: Option<Path>)
    ensures r == BestFor(paths, neighbour)
  {
    var i := 0;
    while i < |paths|
      invariant 0 <= i <= |paths|
      invariant BestFor(paths, neighbour) == BestFor(paths[i..], neighbour)
    {
      if neighbour !in paths[i].metric.hops {
        return Some(paths[i]);
      }
      assert paths[i..][1..] == paths[i + 1..];
      i := i + 1;
    }
    return None;
  }

  /** Builds the table of received entries, a later one replacing an earlier one. */
  method Collect(entries: Entries, link: Route) returns (cached: map<Byte, Route>)
    ensures cached == Cached(entries, link)
  {
    cached := map[];
    for k := 0 to |entries|
      invariant cached == Cached(entries[..k], link)
    {
      assert entries[..k + 1][..k] == entries[..k];
      cached := cached[entries[k].0 := Add(entries[k].1, link)];
    }
    assert entries[..|entries|] == entries;
  }

  // ---- the sorted index of filled slots -----------------------------------------------------

  function Number(b: Byte): nat {
    b
  }

  predicate Ascending(slots: seq<Byte>) {
    forall i, j :: 0 <= i < j < |slots| ==> slots[i] < slots[j]
  }

  /** Pushing a new index and sorting keeps the list strictly ascending. */
  method Push(slots: seq<Byte>, i: Byte) returns (r: seq<Byte>)
    requires Ascending(slots) && i !in slots
    ensures Ascending(r) && forall k :: k in r <==> k in slots || k == i
  {
    var pushed := slots + [i];
    SortFacts(pushed, Number);
    SortMembers(pushed, Number);
    r := Sort(pushed, Number);
    UniqueOfPermutation(pushed, r, Number);
    forall a, b | 0 <= a < b < |r| ensures r[a] < r[b] {
      assert Number(r[a]) <= Number(r[b]) && Number(r[a]) != Number(r[b]);
    }
  }

  /** Binary search and removal, as the standard library's `binary_search` and `remove`. */
  method Drop(slots: seq<Byte>, i: Byte) returns (r: seq<Byte>)
    requires Ascending(slots)
    ensures Ascending(r) && forall k :: k in r <==> k in slots && k != i
  {
    var lo, hi := 0, |slots|;
    while lo < hi
      invariant 0 <= lo <= hi <= |slots|
      invariant forall k :: 0 <= k < lo ==> slots[k] < i
      invariant forall k :: hi <= k < |slots| ==> slots[k] > i
    {
      var mid := (lo + hi) / 2;
      if slots[mid] == i {
        r := slots[..mid] + slots[mid + 1..];
        assert slots == slots[..mid] + [i] + slots[mid + 1..];
        return;
      } else if slots[mid] < i {
        lo := mid + 1;
      } else {
        hi := mid;
      }
    }
    r := slots;
  }

  /** The index after slot `i` went from `was` to `is` filled: pushed and sorted when it became filled,
      searched and removed when it became empty. */
  method Reindex(slots: seq<Byte>, i: Byte, was: bool, now: bool) returns (r: seq<Byte>)
    requires Ascending(slots) && (i in slots <==> was)
    ensures Ascending(r) && (i in r <==> now) && forall k :: k != i ==> (k in r <==> k in slots)
  {
    r := slots;
    if !was && now {
      r := Push(slots, i);
    } else if was && !now {
      r := Drop(slots, i);
    }
  }

  // ---- tables -------------------------------------------------------------------------------

  class Table {
    const node: NodeId
    const layer: LayerNo
    const dests: seq<Dest>
    var slots: seq<Byte>
    var deltas: seq<TableDelta>

    ghost predicate Shape() {
      |dests| == 256 && forall i, j :: 0 <= i < j < 256 ==> dests[i] != dests[j]
    }

    /** Slot `i` is sound and its own delta queue is drained. */
    ghost predicate SlotValid(i: Byte)
      requires Shape()
      reads dests
    {
      dests[i].Valid() && dests[i].deltas == []
    }

    /** `slots` is the strictly ascending list of exactly the non-empty indices. */
    ghost predicate Valid()
      reads this, dests
    {
      && Shape()
      && (forall i: Byte :: SlotValid(i))
      && Ascending(slots)
      && (forall i: Byte :: i in slots <==> dests[i].paths != [])
    }

    ghost function State(): TableState
      requires Shape()
      reads this, dests
    {
      TableState(seq(256, i requires 0 <= i < 256 reads dests => dests[i].paths), deltas)
    }

    constructor (node: NodeId, layer: LayerNo)
      ensures Valid() && fresh(dests) && this.node == node && this.layer == layer
      ensures State() == TableState(NO_DESTS, [])
    {
      var created: seq<Dest> := [];
      for i := 0 to 256
        invariant |created| == i && fresh(created)
        invariant forall j, k :: 0 <= j < k < i ==> created[j] != created[k]
        invariant forall j :: 0 <= j < i ==> created[j].Valid() && created[j].paths == [] && created[j].deltas == []
      {
        var d := new Dest();
        created := created + [d];
      }
      this.node, this.layer, dests, slots, deltas := node, layer, created, [], [];
    }

    /** Moves the queued changes of one slot to the table's queue. */
    method PollDeltaIndex(index: Byte)
      requires Shape()
      modifies this`deltas, dests[index]
      ensures dests[index].deltas == [] && dests[index].paths == old(dests[index].paths)
      ensures deltas == old(deltas) + Tagged(index, old(dests[index].deltas))
    {
      var d := dests[index].PopDelta();
      ghost var done: nat := 0;
      ghost var all := old(dests[index].deltas);
      while d.Some?
        invariant d.Some? ==> done < |all| && d.value == all[done] && dests[index].deltas == all[done + 1..]
        invariant d.None? ==> done == |all| && dests[index].deltas == []
        invariant dests[index].paths == old(dests[index].paths)
        invariant done <= |all| && deltas == old(deltas) + Tagged(index, all[..done])
        decreases |all| - done
      {
        deltas := deltas + [TableDelta(index, d.value)];
        assert Tagged(index, all[..done + 1]) == Tagged(index, all[..done]) + [TableDelta(index, all[done])];
        done := done + 1;
        d := dests[index].PopDelta();
      }
      assert all[..done] == all;
    }

    /** After a change of slot `i`: brings the index up to date and queues the change. */
    method Settle(i: Byte, was: bool)
      requires Shape() && Ascending(slots)
      requires forall j: Byte :: dests[j].Valid() && (j != i ==> dests[j].deltas == [])
      requires forall j: Byte :: j in slots <==> if j == i then was else dests[j].paths != []
      modifies this`slots, this`deltas, dests[i]
      ensures Valid() && dests[i].paths == old(dests[i].paths)
      ensures deltas == old(deltas) + Tagged(i, old(dests[i].deltas))
    {
      slots := Reindex(slots, i, was, dests[i].paths != []);
      PollDeltaIndex(i);
      assert forall j: Byte :: j != i ==> dests[j] != dests[i];
    }

    /** Sets a path in slot `i`, entering the slot into the index when it was empty. */
    method SetSlot(i: Byte, conn: ConnId, metric: Route)
      requires Valid()
      modifies this`slots, this`deltas, dests[i]
      ensures Valid()
      ensures dests[i].paths == Paths.SetPath(old(dests[i].paths), conn, metric)
      ensures deltas == old(deltas) + Tagged(i, BestDelta(old(dests[i].paths), dests[i].paths))
    {
      assert forall j: Byte :: SlotValid(j) && (j != i ==> dests[j] != dests[i]);
      var was := dests[i].paths != [];
      dests[i].SetPath(conn, metric);
      Settle(i, was);
    }

    /** Deletes a path from slot `i`, removing the slot from the index when it became empty. */
    method DelSlot(i: Byte, conn: ConnId)
      requires Valid()
      modifies this`slots, this`deltas, dests[i]
      ensures Valid()
      ensures dests[i].paths == Paths.DelPath(old(dests[i].paths), conn)
      ensures deltas == old(deltas) + Tagged(i, BestDelta(old(dests[i].paths), dests[i].paths))
    {
      assert forall j: Byte :: SlotValid(j) && (j != i ==> dests[j] != dests[i]);
      var was := dests[i].paths != [];
      var gone := dests[i].DelPath(conn);
      Settle(i, was);
    }

    method AddDirect(conn: ConnId, metric: Route)
      requires Valid()
      modifies this`slots, this`deltas, dests
      ensures Valid()
      ensures State() == RouterModel.AddDirect(old(State()), layer, conn, metric)
    {
      var index := Layer(OverNode(metric), layer);
      ghost var before := State().dests;
      SetSlot(index, conn, metric);
      var after := before[index := Paths.SetPath(before[index], conn, metric)];
      assert forall j: Byte :: j != index ==> dests[j] != dests[index];
      assert State().dests == after;
      OwedForOne(before, after, index, 256);
    }

    /** The slots below `n` show `after`, the others still `before`. */
    ghost predicate Showing(before: Dests, after: Dests, n: nat)
      requires Shape()
      reads dests
    {
      forall j: Byte :: dests[j].paths == if j < n then after[j] else before[j]
    }

    lemma ShownState(before: Dests, after: Dests)
      requires Shape() && Showing(before, after, 256)
      ensures State() == TableState(after, deltas)
    {
    }

    method DelFromAll(conn: ConnId, ghost before: Dests, ghost after: Dests)
      requires Valid() && Showing(before, after, 0)
      requires forall i: Byte :: after[i] == Paths.DelPath(before[i], conn)
      modifies this`slots, this`deltas, dests
      ensures Valid() && Showing(before, after, 256)
      ensures deltas == old(deltas) + Owed(before, after, 256)
    {
      for i := 0 to 256
        invariant Valid() && Showing(before, after, i)
        invariant deltas == old(deltas) + Owed(before, after, i)
      {
        assert forall j: Byte :: j != i ==> dests[j] != dests[i];
        DelSlot(i, conn);
        OwedGrows(old(deltas), before, after, i);
      }
    }

    method DelDirect(conn: ConnId)
      requires Valid()
      modifies this`slots, this`deltas, dests
      ensures Valid()
      ensures State() == RouterModel.DelDirect(old(State()), conn)
    {
      ghost var before := State().dests;
      ghost var after := WithoutConn(before, conn);
      DelFromAll(conn, before, after);
      ShownState(before, after);
    }

    /** One slot of a sync. */
    method SyncSlot(i: Byte, conn: ConnId, link: Route, cached: map<Byte, Route>)
      requires Valid()
      modifies this`slots, this`deltas, dests[i]
      ensures Valid()
      ensures dests[i].paths == SyncedSlot(old(dests[i].paths), i, node, layer, conn, link, cached)
      ensures deltas == old(deltas) + Tagged(i, BestDelta(old(dests[i].paths), dests[i].paths))
    {
      if i != Layer(node, layer) {
        if i in cached {
          SetSlot(i, conn, cached[i]);
        } else if dests[i].paths != [] && Layer(OverNode(link), layer) != i {
          DelSlot(i, conn);
        }
      }
    }

    lemma SyncedEach(before: Dests, conn: ConnId, link: Route, entries: Entries)
      ensures var after := SyncedDests(before, node, layer, conn, link, entries);
        forall i: Byte :: after[i] == SyncedSlot(before[i], i, node, layer, conn, link, Cached(entries, link))
    {
    }

    method SyncAll(conn: ConnId, link: Route, cached: map<Byte, Route>, ghost before: Dests, ghost after: Dests)
      requires Valid() && Showing(before, after, 0)
      requires forall i: Byte :: after[i] == SyncedSlot(before[i], i, node, layer, conn, link, cached)
      modifies this`slots, this`deltas, dests
      ensures Valid() && Showing(before, after, 256)
      ensures deltas == old(deltas) + Owed(before, after, 256)
    {
      for i := 0 to 256
        invariant Valid() && Showing(before, after, i)
        invariant deltas == old(deltas) + Owed(before, after, i)
      {
        assert forall j: Byte :: j != i ==> dests[j] != dests[i];
        SyncSlot(i, conn, link, cached);
        OwedGrows(old(deltas), before, after, i);
      }
    }

    /** Applies a neighbour's sync: cached entries are set, other paths over the connection go, except the
        neighbour's own slot and this node's own index. */
    method ApplySync(conn: ConnId, link: Route, entries: Entries)
      requires Valid()
      modifies this`slots, this`deltas, dests
      ensures Valid()
      ensures State() == TableSync(old(State()), node, layer, conn, link, entries)
    {
      var cached := Collect(entries, link);
      ghost var before := State().dests;
      ghost var after := SyncedDests(before, node, layer, conn, link, entries);
      SyncedEach(before, conn, link, entries);
      SyncAll(conn, link, cached, before, after);
      ShownState(before, after);
    }

    method PopDelta() returns (d: Option<TableDelta>)
      requires Valid()
      modifies this`deltas
      ensures Valid() && State().dests == old(State().dests)
      ensures old(deltas) == [] ==> d.None? && deltas == []
      ensures old(deltas) != [] ==> d == Some(old(deltas)[0]) && deltas == old(deltas)[1..]
    {
      if deltas == [] {
        d := None;
      } else {
        d := Some(deltas[0]);
        deltas := deltas[1..];
      }
      assert forall i: Byte :: old(SlotValid(i));
    }

    method Next(dest: NodeId, excepts: seq<NodeId>) returns (r: Option<Path>)
      requires Valid()
      ensures r == NextPath(State().dests[Layer(dest, layer)], set e | e in excepts)
    {
      r := FindNext(dests[Layer(dest, layer)].paths, excepts);
    }

    /** Scanning only the indexed slots finds what scanning all 256 would. */
    method ClosestFor(key: Byte, excepts: seq<NodeId>) returns (r: Option<(Byte, Path)>)
      requires Valid()
      ensures r == RouterModel.ClosestFor(State().dests, key, set e | e in excepts, 256)
    {
      r := None;
      ghost var blocked := set e | e in excepts;
      ghost var all := State().dests;
      for k := 0 to |slots|
        invariant r.Some? ==> r.value.0 in slots[..k] && NextPath(all[r.value.0], blocked) == Some(r.value.1)
        invariant forall j :: 0 <= j < k && NextPath(all[slots[j]], blocked).Some? ==> r.Some? && Xor8(r.value.0, key) <= Xor8(slots[j], key)
      {
        var slot := slots[k];
        var distance := Xor8(slot, key);
        if r.None? || distance < Xor8(r.value.0, key) {
          var found := FindNext(dests[slot].paths, excepts);
          if found.Some? {
            r := Some((slot, found.value));
          }
        }
      }
      ClosestFromIndex(all, slots, key, blocked, r);
    }

    method SyncFor(to: NodeId) returns (r: Option<Entries>)
      requires Valid()
      ensures r == TableSyncFor(State().dests, node, layer, to)
    {
      if EqUtilLayer(node, to) > layer + 1 {
        return None;
      }
      var res: Entries := [];
      for i := 0 to 256
        invariant res == Advertised(State().dests, Layer(node, layer), to, i)
      {
        if dests[i].paths != [] && i != Layer(node, layer) {
          var best := FindBestFor(dests[i].paths, to);
          if best.Some? {
            res := res + [(i, best.value.metric)];
          }
        }
      }
      return Some(res);
    }
  }

  lemma OwedGrows(base: seq<TableDelta>, before: Dests, after: Dests, i: Byte)
    ensures base + Owed(before, after, i) + Tagged(i, BestDelta(before[i], after[i])) == base + Owed(before, after, i + 1)
  {
  }

  lemma {:induction false} OwedForOne(before: Dests, after: Dests, index: Byte, n: nat)
    requires n <= 256 && forall i: Byte :: i != index ==> before[i] == after[i]
    ensures Owed(before, after, n) == if index < n then Tagged(index, BestDelta(before[index], after[index])) else []
  {
    if n > 0 {
      OwedForOne(before, after, index, n - 1);
    }
  }

  /** An answer that is nearest among the indexed slots is the answer of the full scan. */
  lemma ClosestFromIndex(all: Dests, slots: seq<Byte>, key: Byte, blocked: set<NodeId>, r: Option<(Byte, Path)>)
    requires forall i: Byte :: i in slots <==> all[i] != []
    requires r.Some? ==> r.value.0 in slots && NextPath(all[r.value.0], blocked) == Some(r.value.1)
    requires forall j :: 0 <= j < |slots| && NextPath(all[slots[j]], blocked).Some? ==> r.Some? && Xor8(r.value.0, key) <= Xor8(slots[j], key)
    ensures r == RouterModel.ClosestFor(all, key, blocked, 256)
  {
    var full := RouterModel.ClosestFor(all, key, blocked, 256);
    if full.Some? {
      assert full.value.0 in slots;
      var j :| 0 <= j < |slots| && slots[j] == full.value.0;
      Xor8Facts(r.value.0, full.value.0, key);
    }
  }
}
