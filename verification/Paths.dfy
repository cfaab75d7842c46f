/** Path metrics and the score-ordered path lists kept for one destination slot. */
module Paths {
  import opened Identity
  import opened Sorting

  const BANDWIDTH_LIMIT: nat := 10000
  const BANDWIDTH_SCORE_PENALTY: nat := 1000
  const HOP_PLUS_RTT: nat := 10

  /** Hops run from the destination back to the next hop. */
  datatype Metric = Metric(latency: nat, hops: seq<NodeId>, bandwidth: nat)

  /** A metric with at least one hop: what every stored path and every link carries. */
  type Route = m: Metric | m.hops != [] witness Metric(0, [NodeId(0, 0, 0, 0)], 0)

  datatype Path = Path(conn: ConnId, metric: Route)

  function Add(a: Metric, b: Route): Route {
    Metric(a.latency + b.latency, a.hops + b.hops, if a.bandwidth <= b.bandwidth then a.bandwidth else b.bandwidth)
  }

  function Score(m: Metric): nat {
    var base := m.latency + |m.hops| * HOP_PLUS_RTT;
    if m.bandwidth >= BANDWIDTH_LIMIT then base else base + BANDWIDTH_SCORE_PENALTY
  }

  function OverNode(m: Route): NodeId {
    m.hops[|m.hops| - 1]
  }

  function DestNode(m: Route): NodeId {
    m.hops[0]
  }

  function PathScore(p: Path): nat {
    Score(p.metric)
  }

  /** What a score has to be: nothing for nothing, 1 more for a millisecond, 10 more for a hop, whichever, and 1000 more for a
      bandwidth below 10000. */
  ghost predicate IsScore(f: Metric -> nat) {
    && f(Metric(0, [], 10_000)) == 0
    && (forall latency: nat, hops, bw :: f(Metric(latency + 1, hops, bw)) == f(Metric(latency, hops, bw)) + 1)
    && (forall latency, hops, bw, h :: f(Metric(latency, hops + [h], bw)) == f(Metric(latency, hops, bw)) + 10)
    && (forall latency, hops, bw: nat, bw': nat :: f(Metric(latency, hops, bw')) ==
          f(Metric(latency, hops, bw)) + (if bw' < 10_000 then 1000 else 0) - (if bw < 10_000 then 1000 else 0))
  }

  lemma ScoreIsScore()
    ensures IsScore(Score)
  {
    forall latency, hops, bw, h ensures Score(Metric(latency, hops + [h], bw)) == Score(Metric(latency, hops, bw)) + 10 {
      assert |hops + [h]| == |hops| + 1;
    }
  }

  /** These laws leave one function only. */
  lemma {:induction false} ScoreIsDetermined(f: Metric -> nat, m: Metric)
    requires IsScore(f)
    ensures f(m) == Score(m)
    decreases m.latency, |m.hops|
  {
    if m.latency > 0 {
      ScoreIsDetermined(f, m.(latency := m.latency - 1));
      assert m == Metric(m.latency - 1 + 1, m.hops, m.bandwidth);
    } else if m.hops != [] {
      var rest, last := m.hops[..|m.hops| - 1], m.hops[|m.hops| - 1];
      ScoreIsDetermined(f, m.(hops := rest));
      assert m == Metric(m.latency, rest + [last], m.bandwidth);
    } else {
      assert f(Metric(0, [], m.bandwidth)) == f(Metric(0, [], 10_000)) + (if m.bandwidth < 10_000 then 1000 else 0) - 0;
    }
  }

  /** Links in a row: latencies add up, hops line up with the destination first, and the narrowest link decides. */
  lemma AddFields(a: Metric, b: Route)
    ensures Add(a, b).latency == a.latency + b.latency
    ensures |Add(a, b).hops| == |a.hops| + |b.hops| && (forall k :: 0 <= k < |a.hops| ==> Add(a, b).hops[k] == a.hops[k])
    ensures forall k :: 0 <= k < |b.hops| ==> Add(a, b).hops[|a.hops| + k] == b.hops[k]
    ensures Add(a, b).bandwidth in {a.bandwidth, b.bandwidth} && Add(a, b).bandwidth <= a.bandwidth && Add(a, b).bandwidth <= b.bandwidth
  {
  }

  /** Extending a path by a link makes its score strictly worse, by at least one hop penalty. */
  lemma ScoreGrows(a: Metric, b: Route)
    ensures Score(Add(a, b)) >= Score(a) + HOP_PLUS_RTT
    ensures Score(Add(a, b)) >= Score(b)
    ensures OverNode(Add(a, b)) == OverNode(b)
    ensures DestNode(Add(a, b)) == if a.hops == [] then DestNode(b) else a.hops[0]
  {
  }

  // ---- path lists ---------------------------------------------------------------------------

  function PathConn(p: Path): ConnId {
    p.conn
  }

  /** What every slot keeps: best score first, one path per connection. */
  ghost predicate WellFormed(paths: seq<Path>) {
    SortedBy(paths, PathScore) && UniqueBy(paths, PathConn)
  }

  function IndexOf(paths: seq<Path>, conn: ConnId): int {
    IndexBy(paths, PathConn, conn)
  }

  predicate Has(paths: seq<Path>, conn: ConnId) { exists p :: p in paths && p.conn == conn }

  lemma OnePath(paths: seq<Path>, p: Path, q: Path)
    requires WellFormed(paths) && p in paths && q in paths && p.conn == q.conn
    ensures p == q
  {
    var i :| 0 <= i < |paths| && paths[i] == p;
    var k :| 0 <= k < |paths| && paths[k] == q;
    assert i < k ==> PathConn(paths[i]) != PathConn(paths[k]);
    assert k < i ==> PathConn(paths[k]) != PathConn(paths[i]);
  }

  lemma HasIff(paths: seq<Path>, conn: ConnId)
    ensures Has(paths, conn) <==> IndexOf(paths, conn) >= 0
  {
  }

  function SetPath(paths: seq<Path>, conn: ConnId, metric: Route): seq<Path> {
    Sort(Placed(paths, Path(conn, metric), PathConn), PathScore)
  }

  function DelPath(paths: seq<Path>, conn: ConnId): seq<Path> {
    Retained(paths, PathConn, conn)
  }

  /** First path whose next hop is not excluded. */
  function NextPath(paths: seq<Path>, excepts: set<NodeId>): (r: Option<Path>)
    ensures r.Some? ==> r.value in paths && OverNode(r.value.metric) !in excepts
    ensures r.None? ==> forall p :: p in paths ==> OverNode(p.metric) in excepts
  {
    if paths == [] then None
    else if OverNode(paths[0].metric) !in excepts then Some(paths[0])
    else NextPath(paths[1..], excepts)
  }

  /** First path that does not run through `neighbour`. */
  function BestFor(paths: seq<Path>, neighbour: NodeId): (r: Option<Path>)
    ensures r.Some? ==> r.value in paths && neighbour !in r.value.metric.hops
    ensures r.None? ==> forall p :: p in paths ==> neighbour in p.metric.hops
  {
    if paths == [] then None
    else if neighbour !in paths[0].metric.hops then Some(paths[0])
    else BestFor(paths[1..], neighbour)
  }

  /** Setting a path replaces exactly the entry of its connection and keeps the list well formed. */
  lemma SetPathFacts(paths: seq<Path>, conn: ConnId, metric: Route)
    requires WellFormed(paths)
    ensures WellFormed(SetPath(paths, conn, metric))
    ensures forall q :: q in SetPath(paths, conn, metric) <==> q == Path(conn, metric) || (q in paths && q.conn != conn)
    ensures SetPath(paths, conn, metric) != []
  {
    PutFacts(paths, Path(conn, metric), PathConn, PathScore);
    assert Path(conn, metric) in SetPath(paths, conn, metric);
  }

  /** Deleting a connection's path removes exactly that entry. */
  lemma DelPathFacts(paths: seq<Path>, conn: ConnId)
    requires WellFormed(paths)
    ensures WellFormed(DelPath(paths, conn))
    ensures forall q :: q in DelPath(paths, conn) <==> q in paths && q.conn != conn
  {
    RetainedFacts(paths, PathConn, PathScore, conn);
  }

  /** The head of a well-formed list has the least score of all its paths. */
  lemma HeadIsBest(paths: seq<Path>, p: Path)
    requires SortedBy(paths, PathScore) && p in paths
    ensures paths != [] && Score(paths[0].metric) <= Score(p.metric)
  {
  }

  /** `BestFor` picks the least score among the paths that avoid the neighbour. */
  lemma {:induction false} BestForIsBest(paths: seq<Path>, neighbour: NodeId, p: Path)
    requires SortedBy(paths, PathScore) && p in paths && neighbour !in p.metric.hops
    ensures BestFor(paths, neighbour).Some? && Score(BestFor(paths, neighbour).value.metric) <= Score(p.metric)
  {
    if neighbour !in paths[0].metric.hops {
      HeadIsBest(paths, p);
    } else {
      assert p in paths[1..];
      assert forall k :: 0 <= k < |paths| - 1 ==> paths[1..][k] == paths[k + 1];
      BestForIsBest(paths[1..], neighbour, p);
    }
  }

  /** `NextPath` picks the least score among the paths whose next hop is allowed. */
  lemma {:induction false} NextPathIsBest(paths: seq<Path>, excepts: set<NodeId>, p: Path)
    requires SortedBy(paths, PathScore) && p in paths && OverNode(p.metric) !in excepts
    ensures NextPath(paths, excepts).Some? && Score(NextPath(paths, excepts).value.metric) <= Score(p.metric)
  {
    if OverNode(paths[0].metric) !in excepts {
      HeadIsBest(paths, p);
    } else {
      assert p in paths[1..];
      assert forall k :: 0 <= k < |paths| - 1 ==> paths[1..][k] == paths[k + 1];
      NextPathIsBest(paths[1..], excepts, p);
    }
  }

  // ---- best-path deltas ---------------------------------------------------------------------

  datatype DestDelta = SetBestPath(conn: ConnId) | DelBestPath

  function BestConn(paths: seq<Path>): Option<ConnId> {
    if paths == [] then None else Some(paths[0].conn)
  }

  /** The delta stream owed for a change of list: one entry exactly when the best connection changed. */
  function BestDelta(before: seq<Path>, after: seq<Path>): seq<DestDelta> {
    if BestConn(before) == BestConn(after) then []
    else if after == [] then [DelBestPath]
    else [SetBestPath(after[0].conn)]
  }

  /** One change is announced exactly when the best connection changed, and it leads from the old one to the new. */
  lemma BestDeltaIff(before: seq<Path>, after: seq<Path>)
    ensures |BestDelta(before, after)| <= 1
    ensures BestDelta(before, after) == [] <==> (before == [] <==> after == []) && (before != [] && after != [] ==> before[0].conn == after[0].conn)
    ensures DelBestPath in BestDelta(before, after) <==> before != [] && after == []
    ensures forall c :: SetBestPath(c) in BestDelta(before, after) <==> after != [] && after[0].conn == c && (before == [] || before[0].conn != c)
  {
  }

  /** Removing a path changes the best connection exactly when the path was first. */
  lemma DelPathDelta(paths: seq<Path>, conn: ConnId)
    requires WellFormed(paths)
    ensures BestDelta(paths, DelPath(paths, conn)) ==
      if IndexOf(paths, conn) != 0 then []
      else if 1 < |paths| then [SetBestPath(paths[1].conn)]
      else [DelBestPath]
  {
    var i := IndexOf(paths, conn);
    RetainedIsRemoved(paths, PathConn, conn);
    if i == 0 {
      assert DelPath(paths, conn) == paths[1..];
      assert 1 < |paths| ==> PathConn(paths[0]) != PathConn(paths[1]);
    } else if i > 0 {
      assert DelPath(paths, conn)[0] == paths[0];
    }
  }

  /** Of two paths with as many hops and the same bandwidth the one of smaller latency comes first, and the other is not
      chosen where it is allowed. */
  lemma FasterFirst(paths: seq<Path>, p: Path, q: Path, excepts: set<NodeId>, neighbour: NodeId)
    requires WellFormed(paths) && p in paths && q in paths
    requires |p.metric.hops| == |q.metric.hops| && p.metric.bandwidth == q.metric.bandwidth && p.metric.latency < q.metric.latency
    ensures forall i, j :: 0 <= i < |paths| && 0 <= j < |paths| && paths[i] == p && paths[j] == q ==> i < j
    ensures OverNode(p.metric) !in excepts ==> NextPath(paths, excepts) != Some(q)
    ensures neighbour !in p.metric.hops ==> BestFor(paths, neighbour) != Some(q)
  {
    assert PathScore(p) < PathScore(q);
    if OverNode(p.metric) !in excepts { NextPathIsBest(paths, excepts, p); }
    if neighbour !in p.metric.hops { BestForIsBest(paths, neighbour, p); }
  }
}
