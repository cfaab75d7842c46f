/** Convergence of path-vector routing, one column at a time: the path lists all nodes keep for one table index or one
    service. Links are fixed, and nodes take over what their neighbours offer, or offered some time ago, in any order. A
    path below a score depends only on paths at least one hop penalty below, so the lists settle from the bottom up. */
module Columns {
  import opened Identity
  import opened Sorting
  import opened Paths
  import opened RouterRuns

  /** The path list of every node. */
  type Column = map<NodeId, seq<Path>>

  /** A connection at the node that receives over it. */
  datatype Wire = Wire(x: NodeId, conn: ConnId)

  /** The links, the wires over which nothing is taken for this column, and the nodes that have the target themselves
      together with what they offer for it. */
  datatype Wiring = Wiring(links: map<Wire, Route>, muted: set<Wire>, locals: set<NodeId>, offer: Metric)

  predicate Live(g: Wiring, w: Wire) { w in g.links && w !in g.muted }

  /** Every link ends at another node of the column. */
  predicate Wired(g: Wiring, col: Column) {
    forall w :: w in g.links ==> w.x in col && OverNode(g.links[w]) in col && OverNode(g.links[w]) != w.x && g.links[w].hops == [OverNode(g.links[w])]
  }

  function ListOf(col: Column, x: NodeId): seq<Path> { if x in col then col[x] else [] }

  /** What `y` offers `x`. */
  function Offer(g: Wiring, col: Column, y: NodeId, x: NodeId): Option<Metric> {
    if y in g.locals then Some(g.offer)
    else match BestFor(ListOf(col, y), x) case Some(q) => Some(q.metric) case None => None
  }

  /** The list at the receiving end of a wire after it takes over what the sender offered when the lists were `past`. */
  function Pulled(g: Wiring, col: Column, past: Column, w: Wire): seq<Path>
    requires w in g.links
  {
    match Offer(g, past, OverNode(g.links[w]), w.x)
    case Some(m) => SetPath(ListOf(col, w.x), w.conn, Add(m, g.links[w]))
    case None => DelPath(ListOf(col, w.x), w.conn)
  }

  function Exchange(g: Wiring, col: Column, past: Column, w: Wire): Column {
    if Live(g, w) then col[w.x := Pulled(g, col, past, w)] else col
  }

  ghost predicate Sound(g: Wiring, col: Column, ids: set<NodeId>) {
    && Wired(g, col) && col.Keys == ids && g.offer.hops == []
    && forall x :: x in col ==> SoundList(col[x], x, ids)
  }

  ghost predicate SoundList(paths: seq<Path>, x: NodeId, ids: set<NodeId>) {
    WellFormed(paths) && forall p :: p in paths ==> SimplePath(p.metric.hops, x, ids)
  }

  // ---- the low end of a list ----------------------------------------------------------------

  /** The paths with a score below `b`, of a list sorted by score. */
  function Low(paths: seq<Path>, b: nat): seq<Path> {
    if paths == [] || PathScore(paths[|paths| - 1]) < b then paths else Low(paths[..|paths| - 1], b)
  }

  lemma {:induction false} LowSplits(paths: seq<Path>, b: nat)
    requires SortedBy(paths, PathScore)
    ensures var n := |Low(paths, b)|;
      && n <= |paths| && Low(paths, b) == paths[..n]
      && (forall k :: 0 <= k < n ==> PathScore(paths[k]) < b)
      && (forall k :: n <= k < |paths| ==> PathScore(paths[k]) >= b)
  {
    if paths != [] {
      var last := paths[|paths| - 1];
      forall k | 0 <= k < |paths| - 1 ensures PathScore(paths[k]) <= PathScore(last) { }
      if PathScore(last) >= b {
        LowSplits(paths[..|paths| - 1], b);
      }
    }
  }

  lemma {:induction false} LowOfSplit(low: seq<Path>, high: seq<Path>, b: nat)
    requires forall p :: p in low ==> PathScore(p) < b
    requires forall p :: p in high ==> PathScore(p) >= b
    ensures Low(low + high, b) == low
  {
    if high == [] {
      assert low + high == low;
      assert low != [] ==> low[|low| - 1] in low;
    } else {
      assert (low + high)[..|low| + |high| - 1] == low + high[..|high| - 1];
      assert high[|high| - 1] in high;
      LowOfSplit(low, high[..|high| - 1], b);
    }
  }

  /** Inserting a high element leaves the low end alone. */
  lemma {:induction false} InsertHigh(low: seq<Path>, high: seq<Path>, p: Path, b: nat)
    requires (forall q :: q in low ==> PathScore(q) < b) && PathScore(p) >= b
    ensures Insert(low + high, p, PathScore) == low + Insert(high, p, PathScore)
  {
    if high == [] {
      assert low + high == low;
      assert low != [] ==> low[|low| - 1] in low;
    } else {
      assert (low + high)[..|low| + |high| - 1] == low + high[..|high| - 1];
      if PathScore(high[|high| - 1]) > PathScore(p) {
        InsertHigh(low, high[..|high| - 1], p, b);
      }
    }
  }

  lemma {:induction false} SortLowFirst(low: seq<Path>, high: seq<Path>, b: nat)
    requires SortedBy(low, PathScore)
    requires forall p :: p in low ==> PathScore(p) < b
    requires forall p :: p in high ==> PathScore(p) >= b
    ensures Sort(low + high, PathScore) == low + Sort(high, PathScore)
  {
    if high == [] {
      assert low + high == low;
      SortOfSorted(low, PathScore);
    } else {
      var rest, last := high[..|high| - 1], high[|high| - 1];
      assert last in high && high == rest + [last];
      SortLowFirst(low, rest, b);
      InsertHigh(low, Sort(rest, PathScore), last, b);
      SortSnoc(low + rest, last);
      SortSnoc(rest, last);
      assert low + high == low + rest + [last];
    }
  }

  lemma SortSnoc(s: seq<Path>, p: Path)
    ensures Sort(s + [p], PathScore) == Insert(Sort(s, PathScore), p, PathScore)
  {
    assert (s + [p])[..|s|] == s;
  }

  /** Whether a connection has a path below `b`. */
  predicate HasLow(paths: seq<Path>, conn: ConnId, b: nat) {
    exists p :: p in paths && p.conn == conn && PathScore(p) < b
  }

  lemma SplitOff(paths: seq<Path>, conn: ConnId, b: nat) returns (low: seq<Path>, high: seq<Path>)
    requires WellFormed(paths) && !HasLow(paths, conn, b)
    ensures paths == low + high && low == Low(paths, b) && SortedBy(low, PathScore)
    ensures (forall p :: p in low ==> PathScore(p) < b && p.conn != conn) && (forall p :: p in high ==> PathScore(p) >= b)
  {
    LowSplits(paths, b);
    var n := |Low(paths, b)|;
    low, high := paths[..n], paths[n..];
    forall p | p in low ensures PathScore(p) < b && p.conn != conn { assert p in paths; }
  }

  /** Deleting a connection without low paths leaves the low end alone. */
  lemma LowDel(paths: seq<Path>, conn: ConnId, b: nat)
    requires WellFormed(paths) && !HasLow(paths, conn, b)
    ensures Low(DelPath(paths, conn), b) == Low(paths, b)
  {
    var low, high := SplitOff(paths, conn, b);
    RetainedConcat(low, high, conn);
    RetainedAll(low, PathConn, conn);
    forall p | p in DelPath(high, conn) ensures p in high { RetainedMember(high, PathConn, conn, p); }
    LowOfSplit(low, DelPath(high, conn), b);
  }

  lemma {:induction false} RetainedConcat(a: seq<Path>, c: seq<Path>, conn: ConnId)
    ensures DelPath(a + c, conn) == DelPath(a, conn) + DelPath(c, conn)
  {
    if c == [] {
      assert a + c == a;
    } else {
      assert (a + c)[..|a| + |c| - 1] == a + c[..|c| - 1];
      RetainedConcat(a, c[..|c| - 1], conn);
    }
  }

  /** Setting a high path of a connection without low paths leaves the low end alone. */
  lemma LowSet(paths: seq<Path>, conn: ConnId, metric: Route, b: nat)
    requires WellFormed(paths) && !HasLow(paths, conn, b) && Score(metric) >= b
    ensures Low(SetPath(paths, conn, metric), b) == Low(paths, b)
  {
    var p := Path(conn, metric);
    var low, high := SplitOff(paths, conn, b);
    var i := IndexOf(paths, conn);
    var high' := if i >= 0 then high[i - |low| := p] else high + [p];
    assert Placed(paths, p, PathConn) == low + high';
    SortLowFirst(low, high', b);
    SortMembers(high', PathScore);
    LowOfSplit(low, Sort(high', PathScore), b);
  }

  /** Setting the path a connection already has changes nothing. */
  lemma SetSame(paths: seq<Path>, conn: ConnId, metric: Route)
    requires WellFormed(paths) && Path(conn, metric) in paths
    ensures SetPath(paths, conn, metric) == paths
  {
    var k :| 0 <= k < |paths| && paths[k] == Path(conn, metric);
    var i := IndexOf(paths, conn);
    assert i < k ==> PathConn(paths[i]) != PathConn(paths[k]);
    assert Placed(paths, Path(conn, metric), PathConn) == paths;
    SortOfSorted(paths, PathScore);
  }

  /** What the low end offers: the list and its low end have the same best path for a neighbour while that is low. */
  lemma {:induction false} BestForPrefix(low: seq<Path>, high: seq<Path>, x: NodeId)
    ensures BestFor(low + high, x) == if BestFor(low, x).Some? then BestFor(low, x) else BestFor(high, x)
  {
    if low == [] {
      assert low + high == high;
    } else {
      assert (low + high)[1..] == low[1..] + high;
      BestForPrefix(low[1..], high, x);
    }
  }

  /** The best path for a neighbour is that of the low end, or not low. */
  lemma BestForOfLow(paths: seq<Path>, x: NodeId, b: nat)
    requires SortedBy(paths, PathScore)
    ensures BestFor(Low(paths, b), x).Some? ==> BestFor(paths, x) == BestFor(Low(paths, b), x)
    ensures BestFor(Low(paths, b), x).None? && BestFor(paths, x).Some? ==> PathScore(BestFor(paths, x).value) >= b
  {
    LowSplits(paths, b);
    var n := |Low(paths, b)|;
    assert paths == Low(paths, b) + paths[n..];
    BestForPrefix(Low(paths, b), paths[n..], x);
  }

  // ---- wires in order -----------------------------------------------------------------------

  /** What a wire should carry below `b`. */
  function Target(g: Wiring, col: Column, w: Wire, b: nat): Option<Route>
    requires w in g.links
  {
    match Offer(g, col, OverNode(g.links[w]), w.x)
    case Some(m) => if Score(Add(m, g.links[w])) < b then Some(Add(m, g.links[w])) else None
    case None => None
  }

  /** Below `b` the receiver has over this wire what the sender offers, and nothing else. */
  ghost predicate Right(g: Wiring, col: Column, w: Wire, b: nat)
    requires w in g.links
  {
    match Target(g, col, w, b)
    case Some(m) => Path(w.conn, m) in ListOf(col, w.x)
    case None => !HasLow(ListOf(col, w.x), w.conn, b)
  }

  ghost predicate Stable(g: Wiring, col: Column, b: nat) {
    forall w :: Live(g, w) ==> Right(g, col, w, b)
  }

  lemma PulledSound(g: Wiring, col: Column, past: Column, w: Wire, ids: set<NodeId>)
    requires Sound(g, col, ids) && Sound(g, past, ids) && Live(g, w)
    ensures SoundList(Pulled(g, col, past, w), w.x, ids)
  {
    var y, link := OverNode(g.links[w]), g.links[w];
    assert SoundList(col[w.x], w.x, ids) && SoundList(past[y], y, ids);
    match Offer(g, past, y, w.x) {
      case Some(m) =>
        SetPathFacts(col[w.x], w.conn, Add(m, link));
        assert Add(m, link).hops == m.hops + [y];
      case None => DelPathFacts(col[w.x], w.conn);
    }
  }

  lemma ExchangeSound(g: Wiring, col: Column, past: Column, w: Wire, ids: set<NodeId>)
    requires Sound(g, col, ids) && Sound(g, past, ids)
    ensures Sound(g, Exchange(g, col, past, w), ids)
  {
    if Live(g, w) { PulledSound(g, col, past, w, ids); }
  }

  /** An exchange whose offer is still current makes its wire right. */
  lemma ExchangeRight(g: Wiring, col: Column, past: Column, w: Wire, b: nat, ids: set<NodeId>)
    requires Sound(g, col, ids) && Sound(g, past, ids) && Live(g, w) && Target(g, past, w, b) == Target(g, col, w, b)
    ensures Right(g, Exchange(g, col, past, w), w, b)
  {
    var link := g.links[w];
    assert SoundList(col[w.x], w.x, ids);
    match Offer(g, past, OverNode(link), w.x) {
      case Some(m) => SetPathFacts(col[w.x], w.conn, Add(m, link));
      case None => DelPathFacts(col[w.x], w.conn);
    }
  }

  /** An exchange over a wire that is right below `b` changes nothing below `b`, if its offer is still current there. */
  lemma ExchangeQuiet(g: Wiring, col: Column, past: Column, w: Wire, b: nat, ids: set<NodeId>)
    requires Sound(g, col, ids) && Sound(g, past, ids) && Live(g, w)
    requires Right(g, col, w, b) && Target(g, past, w, b) == Target(g, col, w, b)
    ensures Low(Pulled(g, col, past, w), b) == Low(col[w.x], b)
  {
    var link := g.links[w];
    assert SoundList(col[w.x], w.x, ids);
    match Offer(g, past, OverNode(link), w.x) {
      case Some(m) =>
        if Score(Add(m, link)) < b { SetSame(col[w.x], w.conn, Add(m, link)); }
        else { LowSet(col[w.x], w.conn, Add(m, link), b); }
      case None => LowDel(col[w.x], w.conn, b);
    }
  }

  /** What a wire should carry depends on the sender's paths one hop penalty below. */
  lemma TargetKept(g: Wiring, col: Column, col': Column, w: Wire, b: nat, c: nat, ids: set<NodeId>)
    requires Sound(g, col, ids) && Sound(g, col', ids) && w in g.links && c <= b + HOP_PLUS_RTT
    requires Low(col[OverNode(g.links[w])], b) == Low(col'[OverNode(g.links[w])], b)
    ensures Target(g, col, w, c) == Target(g, col', w, c)
  {
    var y, link := OverNode(g.links[w]), g.links[w];
    assert SoundList(col[y], y, ids) && SoundList(col'[y], y, ids);
    BestForOfLow(col[y], w.x, b);
    BestForOfLow(col'[y], w.x, b);
    if BestFor(col[y], w.x).Some? { ScoreGrows(BestFor(col[y], w.x).value.metric, link); }
    if BestFor(col'[y], w.x).Some? { ScoreGrows(BestFor(col'[y], w.x).value.metric, link); }
  }

  /** An exchange keeps the receiver's paths over other connections. */
  lemma OthersKept(g: Wiring, col: Column, past: Column, e: Wire, p: Path, ids: set<NodeId>)
    requires Sound(g, col, ids) && Sound(g, past, ids) && Live(g, e) && p.conn != e.conn
    ensures p in Pulled(g, col, past, e) <==> p in col[e.x]
  {
    assert SoundList(col[e.x], e.x, ids);
    match Offer(g, past, OverNode(g.links[e]), e.x) {
      case Some(m) => SetPathFacts(col[e.x], e.conn, Add(m, g.links[e]));
      case None => DelPathFacts(col[e.x], e.conn);
    }
  }

  /** An exchange over one wire keeps another right. */
  lemma RightKept(g: Wiring, col: Column, past: Column, e: Wire, w: Wire, b: nat, c: nat, ids: set<NodeId>)
    requires Sound(g, col, ids) && Sound(g, past, ids) && Live(g, e) && Live(g, w) && e != w && c <= b + HOP_PLUS_RTT
    requires Right(g, col, w, c) && Low(Pulled(g, col, past, e), b) == Low(col[e.x], b)
    ensures Right(g, Exchange(g, col, past, e), w, c)
  {
    var col' := Exchange(g, col, past, e);
    ExchangeSound(g, col, past, e, ids);
    TargetKept(g, col, col', w, b, c, ids);
    if w.x == e.x {
      forall p: Path | p.conn == w.conn ensures p in col'[w.x] <==> p in col[w.x] {
        OthersKept(g, col, past, e, p, ids);
      }
    }
  }

  /** The same paths below `b`. */
  ghost predicate SameLow(col: Column, col': Column, b: nat) {
    col.Keys == col'.Keys && forall x :: x in col ==> Low(col[x], b) == Low(col'[x], b)
  }

  /** While nothing moves below `b`, an exchange settles its wire up to `c`, one hop penalty higher, and unsettles none. */
  lemma ExchangeKeeps(g: Wiring, col: Column, past: Column, e: Wire, w: Wire, b: nat, c: nat, ids: set<NodeId>)
    requires Sound(g, col, ids) && Sound(g, past, ids) && SameLow(past, col, b) && Stable(g, col, b) && c <= b + HOP_PLUS_RTT
    requires Live(g, w) && (w == e || Right(g, col, w, c))
    ensures Right(g, Exchange(g, col, past, e), w, c)
  {
    if Live(g, e) {
      TargetKept(g, past, col, e, b, b, ids);
      TargetKept(g, past, col, e, b, c, ids);
      ExchangeQuiet(g, col, past, e, b, ids);
      if w == e { ExchangeRight(g, col, past, e, c, ids); } else { RightKept(g, col, past, e, w, b, c, ids); }
    }
  }

  /** Where everything is settled below `c`, an exchange changes nothing below `c`. */
  lemma ExchangeIsQuiet(g: Wiring, col: Column, past: Column, e: Wire, b: nat, c: nat, ids: set<NodeId>)
    requires Sound(g, col, ids) && Sound(g, past, ids) && SameLow(past, col, b) && Stable(g, col, c) && c <= b + HOP_PLUS_RTT
    ensures SameLow(col, Exchange(g, col, past, e), c)
  {
    if Live(g, e) {
      TargetKept(g, past, col, e, b, c, ids);
      ExchangeQuiet(g, col, past, e, c, ids);
    }
  }

  // ---- histories ----------------------------------------------------------------------------

  /** The lists over time, and the wire used at each step if any. */
  datatype Times = Times(g: Wiring, cols: seq<Column>, moves: seq<Option<Wire>>)

  const NoWires := Wiring(map[], {}, {}, Metric(0, [], 0))

  type History = h: Times | |h.cols| == |h.moves| + 1 witness Times(NoWires, [map[]], [])

  ghost predicate SoundAt(h: History, ids: set<NodeId>, t: nat)
    requires t < |h.cols|
  {
    Sound(h.g, h.cols[t], ids)
  }

  ghost predicate Fits(h: History, ids: set<NodeId>) { forall t :: 0 <= t < |h.cols| ==> SoundAt(h, ids, t) }

  /** A step without a wire changes nothing; any other is an exchange with an offer made no earlier than `since`. */
  predicate TakesOver(h: History, t: nat, since: nat)
    requires t < |h.moves|
  {
    match h.moves[t]
    case None => h.cols[t + 1] == h.cols[t]
    case Some(w) => exists at :: since <= at <= t && h.cols[t + 1] == Exchange(h.g, h.cols[t], h.cols[at], w)
  }

  predicate AllTakeOver(h: History, from: nat, until: nat, since: nat)
    requires until <= |h.moves|
  {
    forall t :: from <= t < until ==> TakesOver(h, t, since)
  }

  predicate Used(h: History, from: nat, until: nat, w: Wire)
    requires until <= |h.moves|
  {
    exists t :: from <= t < until && h.moves[t] == Some(w)
  }

  /** At time `t` a wire is right below `b`. */
  ghost predicate RightAt(h: History, t: nat, w: Wire, b: nat)
    requires t < |h.cols|
  {
    Live(h.g, w) ==> Right(h.g, h.cols[t], w, b)
  }

  ghost predicate StableAt(h: History, t: nat, b: nat)
    requires t < |h.cols|
  {
    forall w :: RightAt(h, t, w, b)
  }

  ghost predicate SameLowAt(h: History, from: nat, t: nat, b: nat)
    requires from < |h.cols| && t < |h.cols|
  {
    SameLow(h.cols[from], h.cols[t], b)
  }

  /** At time `t` everything below `b` is settled, and the same as at time `from`. */
  ghost predicate FrozenAt(h: History, from: nat, t: nat, b: nat)
    requires from <= t < |h.cols|
  {
    StableAt(h, t, b) && SameLowAt(h, from, t, b)
  }

  /** So it is at all times in between. */
  ghost predicate Frozen(h: History, from: nat, until: nat, b: nat)
    requires from <= until < |h.cols|
  {
    forall t :: from <= t <= until ==> FrozenAt(h, from, t, b)
  }

  /** Below nothing, everything is frozen. */
  lemma NothingBelow(h: History, ids: set<NodeId>, from: nat, until: nat)
    requires Fits(h, ids) && from <= until < |h.cols|
    ensures Frozen(h, from, until, 0)
  {
    forall t | from <= t <= until ensures FrozenAt(h, from, t, 0) {
      assert SoundAt(h, ids, from) && SoundAt(h, ids, t);
      NothingLow(h.cols[from], h.cols[t], ids);
    }
  }

  lemma NothingLow(col: Column, col': Column, ids: set<NodeId>)
    requires col.Keys == ids == col'.Keys
    ensures SameLow(col, col', 0)
  {
    forall x | x in ids ensures Low(col[x], 0) == Low(col'[x], 0) {
      LowOfNothing(col[x]);
      LowOfNothing(col'[x]);
    }
  }

  lemma {:induction false} LowOfNothing(paths: seq<Path>)
    ensures Low(paths, 0) == []
  {
    if paths != [] { LowOfNothing(paths[..|paths| - 1]); }
  }

  lemma SameLowTransitive(h: History, a: nat, b: nat, c: nat, bound: nat)
    requires a < |h.cols| && b < |h.cols| && c < |h.cols| && SameLowAt(h, a, b, bound)
    ensures SameLowAt(h, b, c, bound) ==> SameLowAt(h, a, c, bound)
    ensures SameLowAt(h, a, c, bound) ==> SameLowAt(h, b, c, bound)
  {
  }

  /** A step with an offer from the frozen time takes over something still current below `b`. */
  lemma FrozenOffer(h: History, ids: set<NodeId>, from: nat, t: nat, b: nat) returns (at: nat)
    requires Fits(h, ids) && from <= t < |h.moves| && Frozen(h, from, t, b) && TakesOver(h, t, from) && h.moves[t].Some?
    ensures at <= t && SameLowAt(h, at, t, b) && h.cols[t + 1] == Exchange(h.g, h.cols[t], h.cols[at], h.moves[t].value)
  {
    at :| from <= at <= t && h.cols[t + 1] == Exchange(h.g, h.cols[t], h.cols[at], h.moves[t].value);
    assert FrozenAt(h, from, at, b) && FrozenAt(h, from, t, b);
    SameLowTransitive(h, from, at, t, b);
  }

  lemma StableNow(h: History, t: nat, b: nat)
    requires t < |h.cols|
    ensures StableAt(h, t, b) <==> Stable(h.g, h.cols[t], b)
  {
    if Stable(h.g, h.cols[t], b) { forall w ensures RightAt(h, t, w, b) { } }
    if StableAt(h, t, b) { forall w | Live(h.g, w) ensures Right(h.g, h.cols[t], w, b) { assert RightAt(h, t, w, b); } }
  }

  lemma StepKeeps(h: History, ids: set<NodeId>, from: nat, t: nat, b: nat, w: Wire, c: nat)
    requires Fits(h, ids) && from <= t < |h.moves| && Frozen(h, from, t, b) && TakesOver(h, t, from)
    requires (h.moves[t] == Some(w) || RightAt(h, t, w, c)) && c <= b + HOP_PLUS_RTT
    ensures RightAt(h, t + 1, w, c)
  {
    if h.moves[t].Some? && Live(h.g, w) {
      var at := FrozenOffer(h, ids, from, t, b);
      assert SoundAt(h, ids, t) && SoundAt(h, ids, at) && FrozenAt(h, from, t, b);
      StableNow(h, t, b);
      ExchangeKeeps(h.g, h.cols[t], h.cols[at], h.moves[t].value, w, b, c, ids);
    }
  }

  lemma StepIsQuiet(h: History, ids: set<NodeId>, from: nat, t: nat, b: nat, c: nat)
    requires Fits(h, ids) && from <= t < |h.moves| && Frozen(h, from, t, b) && TakesOver(h, t, from)
    requires StableAt(h, t, c) && c <= b + HOP_PLUS_RTT
    ensures SameLowAt(h, t, t + 1, c)
  {
    if h.moves[t].Some? {
      var at := FrozenOffer(h, ids, from, t, b);
      assert SoundAt(h, ids, t) && SoundAt(h, ids, at);
      StableNow(h, t, c);
      ExchangeIsQuiet(h.g, h.cols[t], h.cols[at], h.moves[t].value, b, c, ids);
    }
  }

  lemma FrozenLonger(h: History, from: nat, until: nat, b: nat)
    requires from <= until < |h.moves| && Frozen(h, from, until, b) && FrozenAt(h, from, until + 1, b)
    ensures Frozen(h, from, until + 1, b)
  {
  }

  lemma FrozenBefore(h: History, from: nat, until: nat, b: nat, t: nat)
    requires from <= t <= until < |h.cols| && Frozen(h, from, until, b)
    ensures Frozen(h, from, t, b)
  {
  }

  lemma StepStaysFrozen(h: History, ids: set<NodeId>, from: nat, since: nat, t: nat, b: nat, c: nat)
    requires Fits(h, ids) && from <= t < |h.moves| && Frozen(h, from, t, b) && TakesOver(h, t, from)
    requires since <= t && FrozenAt(h, since, t, c) && c <= b + HOP_PLUS_RTT
    ensures FrozenAt(h, since, t + 1, c)
  {
    StepIsQuiet(h, ids, from, t, b, c);
    SameLowTransitive(h, since, t, t + 1, c);
    var u := t + 1;
    forall w ensures RightAt(h, u, w, c) {
      assert RightAt(h, t, w, c);
      StepKeeps(h, ids, from, t, b, w, c);
    }
  }

  lemma FrozenOneMore(h: History, ids: set<NodeId>, from: nat, t: nat, b: nat)
    requires Fits(h, ids) && from <= t < |h.moves| && Frozen(h, from, t, b) && TakesOver(h, t, from)
    ensures Frozen(h, from, t + 1, b)
  {
    assert FrozenAt(h, from, t, b);
    StepStaysFrozen(h, ids, from, from, t, b, b);
    FrozenLonger(h, from, t, b);
  }

  /** What is frozen stays frozen while the offers taken over are no older. */
  lemma {:induction false} FrozenStays(h: History, ids: set<NodeId>, from: nat, mid: nat, until: nat, b: nat)
    requires Fits(h, ids) && from <= mid <= until <= |h.moves| && Frozen(h, from, mid, b) && AllTakeOver(h, mid, until, from)
    ensures Frozen(h, from, until, b)
    decreases until
  {
    if mid < until {
      FrozenStays(h, ids, from, mid, until - 1, b);
      assert TakesOver(h, until - 1, from);
      FrozenOneMore(h, ids, from, until - 1, b);
    }
  }

  /** What has settled one hop penalty above what is frozen is frozen from then on. */
  lemma {:induction false} RightIsFrozen(h: History, ids: set<NodeId>, from: nat, mid: nat, until: nat, b: nat)
    requires Fits(h, ids) && from <= mid <= until <= |h.moves| && Frozen(h, from, until, b) && AllTakeOver(h, mid, until, from)
    requires StableAt(h, mid, b + HOP_PLUS_RTT)
    ensures Frozen(h, mid, until, b + HOP_PLUS_RTT)
    decreases until
  {
    var c := b + HOP_PLUS_RTT;
    if mid == until {
      assert SameLowAt(h, mid, mid, c);
      assert FrozenAt(h, mid, mid, c);
    } else {
      RightIsFrozen(h, ids, from, mid, until - 1, b);
      assert TakesOver(h, until - 1, from) && FrozenAt(h, mid, until - 1, c);
      StepStaysFrozen(h, ids, from, mid, until - 1, b, c);
      FrozenLonger(h, mid, until - 1, c);
    }
  }

  /** A wire that is right one hop penalty above what is frozen stays so. */
  lemma {:induction false} RightStays(h: History, ids: set<NodeId>, from: nat, mid: nat, until: nat, b: nat, w: Wire)
    requires Fits(h, ids) && from <= mid <= until <= |h.moves| && Frozen(h, from, until, b) && AllTakeOver(h, mid, until, from)
    requires RightAt(h, mid, w, b + HOP_PLUS_RTT)
    ensures RightAt(h, until, w, b + HOP_PLUS_RTT)
    decreases until
  {
    if mid < until {
      FrozenBefore(h, from, until, b, until - 1);
      RightStays(h, ids, from, mid, until - 1, b, w);
      assert TakesOver(h, until - 1, from);
      StepKeeps(h, ids, from, until - 1, b, w, b + HOP_PLUS_RTT);
    }
  }

  lemma LaterTakeOver(h: History, from: nat, mid: nat, until: nat, since: nat)
    requires from <= mid && until <= |h.moves| && AllTakeOver(h, from, until, since)
    ensures AllTakeOver(h, mid, until, since)
  {
  }

  /** A wire used while the lists below `b` are frozen becomes right one hop penalty higher. */
  lemma UsedAtIsRight(h: History, ids: set<NodeId>, from: nat, t: nat, until: nat, b: nat, w: Wire)
    requires Fits(h, ids) && from <= t < until <= |h.moves| && Frozen(h, from, until, b) && AllTakeOver(h, t, until, from)
    requires h.moves[t] == Some(w)
    ensures RightAt(h, until, w, b + HOP_PLUS_RTT)
  {
    assert TakesOver(h, t, from);
    FrozenBefore(h, from, until, b, t);
    StepKeeps(h, ids, from, t, b, w, b + HOP_PLUS_RTT);
    LaterTakeOver(h, t, t + 1, until, from);
    RightStays(h, ids, from, t + 1, until, b, w);
  }

  lemma UsedIsRight(h: History, ids: set<NodeId>, from: nat, mid: nat, until: nat, b: nat, w: Wire)
    requires Fits(h, ids) && from <= mid <= until <= |h.moves| && Frozen(h, from, until, b) && AllTakeOver(h, mid, until, from)
    requires Used(h, mid, until, w)
    ensures RightAt(h, until, w, b + HOP_PLUS_RTT)
  {
    var t :| mid <= t < until && h.moves[t] == Some(w);
    LaterTakeOver(h, mid, t, until, from);
    UsedAtIsRight(h, ids, from, t, until, b, w);
  }

  /** One period in which every wire is used, and one more until the offers from before it are gone, freeze the lists one
      hop penalty higher. */
  lemma TwoPeriodsRaise(h: History, ids: set<NodeId>, from: nat, start: nat, mid: nat, until: nat, b: nat)
    requires Fits(h, ids) && from <= start <= mid <= until <= |h.moves|
    requires Frozen(h, from, start, b) && AllTakeOver(h, start, until, from) && AllUsed(h, start, mid)
    ensures Frozen(h, mid, until, b + HOP_PLUS_RTT)
  {
    FrozenStays(h, ids, from, start, until, b);
    var c := b + HOP_PLUS_RTT;
    forall w ensures RightAt(h, mid, w, c) {
      if Live(h.g, w) { UsedIsRight(h, ids, from, start, mid, b, w); }
    }
    RightIsFrozen(h, ids, from, mid, until, b);
  }

  predicate Ascending(bounds: seq<nat>, end: nat) {
    && (forall j, k :: 0 <= j < k < |bounds| ==> bounds[j] <= bounds[k])
    && forall k :: 0 <= k < |bounds| ==> bounds[k] <= end
  }

  ghost predicate AllUsed(h: History, from: nat, until: nat)
    requires until <= |h.moves|
  {
    forall w :: Live(h.g, w) ==> Used(h, from, until, w)
  }

  /** The history falls into periods. Nothing is asked of the first. From each later one on, no offer is taken over that
      was made before the previous period; and each of these, up to the last bound, uses every wire. */
  ghost predicate Paced(h: History, bounds: seq<nat>) {
    && Ascending(bounds, |h.moves|)
    && (forall k :: 1 <= k < |bounds| ==> AllTakeOver(h, bounds[k], |h.moves|, bounds[k - 1]))
    && (forall k :: 1 <= k < |bounds| - 1 ==> AllUsed(h, bounds[k], bounds[k + 1]))
  }

  /** Every two periods settle the lists one hop penalty further. */
  lemma {:induction false} PeriodsRaise(h: History, ids: set<NodeId>, bounds: seq<nat>, n: nat)
    requires Fits(h, ids) && Paced(h, bounds) && 2 * n + 1 < |bounds|
    ensures Frozen(h, bounds[2 * n], bounds[2 * n + 1], HOP_PLUS_RTT * n)
  {
    if n == 0 {
      NothingBelow(h, ids, bounds[0], bounds[1]);
    } else {
      var k := 2 * n - 2;
      PeriodsRaise(h, ids, bounds, n - 1);
      assert AllTakeOver(h, bounds[k + 1], |h.moves|, bounds[k]) && AllUsed(h, bounds[k + 1], bounds[k + 2]);
      TwoPeriodsRaise(h, ids, bounds[k], bounds[k + 1], bounds[k + 2], bounds[k + 3], HOP_PLUS_RTT * (n - 1));
    }
  }

  // ---- bounds -------------------------------------------------------------------------------

  /** Latencies grow by at most `step` a hop. */
  ghost predicate Bounded(g: Wiring, col: Column, base: nat, step: nat) {
    && (forall w :: w in g.links ==> g.links[w].latency <= step)
    && g.offer.latency <= base
    && forall x, p :: x in col && p in col[x] ==> p.metric.latency <= base + step * |p.metric.hops|
  }

  lemma OfferBounded(g: Wiring, col: Column, w: Wire, base: nat, step: nat, ids: set<NodeId>)
    requires Sound(g, col, ids) && Bounded(g, col, base, step) && w in g.links
    ensures var offer := Offer(g, col, OverNode(g.links[w]), w.x);
      offer.Some? ==>
        var m := Add(offer.value, g.links[w]);
        m.latency <= base + step * |m.hops| && |m.hops| <= |ids|
  {
    var y := OverNode(g.links[w]);
    assert SoundList(col[y], y, ids);
    var offer := Offer(g, col, y, w.x);
    if offer.Some? {
      var m := Add(offer.value, g.links[w]);
      assert m.hops == offer.value.hops + [y];
      Distribute(step, |offer.value.hops|);
      DistinctFits(offer.value.hops, ids - {y});
    }
  }

  lemma Distribute(step: nat, n: nat)
    ensures step * (n + 1) == step * n + step
  {
  }

  /** Above every score that can occur. */
  function Ceiling(base: nat, step: nat, nodes: nat): nat {
    base + step * nodes + nodes * HOP_PLUS_RTT + BANDWIDTH_SCORE_PENALTY + 1
  }

  lemma BelowCeiling(m: Metric, base: nat, step: nat, nodes: nat)
    requires m.latency <= base + step * |m.hops| && |m.hops| <= nodes
    ensures Score(m) < Ceiling(base, step, nodes)
  {
    Monotone(step, |m.hops|, nodes);
  }

  lemma Monotone(step: nat, a: nat, c: nat)
    requires a <= c
    ensures step * a <= step * c
  {
  }

  // ---- convergence --------------------------------------------------------------------------

  /** No exchange changes anything any more. */
  ghost predicate AtRest(g: Wiring, col: Column) {
    forall w :: Live(g, w) ==> Pulled(g, col, col, w) == ListOf(col, w.x)
  }

  lemma StableIsAtRest(g: Wiring, col: Column, b: nat, base: nat, step: nat, ids: set<NodeId>)
    requires Sound(g, col, ids) && Bounded(g, col, base, step) && Stable(g, col, b) && b >= Ceiling(base, step, |ids|)
    ensures AtRest(g, col)
  {
    forall w | Live(g, w) ensures Pulled(g, col, col, w) == col[w.x] {
      assert SoundList(col[w.x], w.x, ids) && Right(g, col, w, b);
      OfferBounded(g, col, w, base, step, ids);
      match Offer(g, col, OverNode(g.links[w]), w.x) {
        case Some(m) =>
          BelowCeiling(Add(m, g.links[w]), base, step, |ids|);
          SetSame(col[w.x], w.conn, Add(m, g.links[w]));
        case None =>
          forall k | 0 <= k < |col[w.x]| ensures PathConn(col[w.x][k]) != w.conn {
            AllLow(col, w.x, col[w.x][k], b, base, step, ids, g);
          }
          RetainedAll(col[w.x], PathConn, w.conn);
      }
    }
  }

  lemma AllLow(col: Column, x: NodeId, p: Path, b: nat, base: nat, step: nat, ids: set<NodeId>, g: Wiring)
    requires Sound(g, col, ids) && Bounded(g, col, base, step) && b >= Ceiling(base, step, |ids|) && x in col && p in col[x]
    ensures PathScore(p) < b
  {
    assert SoundList(col[x], x, ids);
    DistinctFits(p.metric.hops, ids - {x});
    BelowCeiling(p.metric, base, step, |ids|);
  }

  /** Convergence: whatever the lists are at first, after enough periods, however the exchanges in each are ordered and
      however long within two periods they are under way, every list is at rest. */
  lemma ColumnConverges(h: History, ids: set<NodeId>, bounds: seq<nat>, base: nat, step: nat)
    requires Fits(h, ids) && Paced(h, bounds) && Bounded(h.g, h.cols[|h.moves|], base, step)
    requires |bounds| >= 2 * Ceiling(base, step, |ids|) + 2
    ensures AtRest(h.g, h.cols[|h.moves|])
  {
    var n := Ceiling(base, step, |ids|);
    PeriodsRaise(h, ids, bounds, n);
    assert AllTakeOver(h, bounds[2 * n + 1], |h.moves|, bounds[2 * n]);
    FrozenStays(h, ids, bounds[2 * n], bounds[2 * n + 1], |h.moves|, HOP_PLUS_RTT * n);
    assert SoundAt(h, ids, |h.moves|) && FrozenAt(h, bounds[2 * n], |h.moves|, HOP_PLUS_RTT * n);
    StableNow(h, |h.moves|, HOP_PLUS_RTT * n);
    StableIsAtRest(h.g, h.cols[|h.moves|], HOP_PLUS_RTT * n, base, step, ids);
  }
}
