/** Broadcast de-duplication: a bounded queue with a key index, and the sliding window it implements. */
module History {
  import opened Identity

  const HISTORY_TIMEOUT_MS: nat := 2000
  const CAPACITY: nat := 10_000

  /** A broadcast: who sent it, for which service, under which number. */
  datatype Key = Key(from: Option<NodeId>, service: Byte, seqNo: nat)

  datatype Entry = Entry(time: nat, key: Key)

  // ---- the window ---------------------------------------------------------------------------

  /** Everything ever accepted, in order, and the last time set. */
  datatype Window = Window(now: nat, log: seq<Entry>)

  /** Entry `i` is among the last 10000 accepted and has not expired. */
  predicate Alive(w: Window, i: nat)
    requires i < |w.log|
  {
    i + CAPACITY >= |w.log| && w.now < w.log[i].time + HISTORY_TIMEOUT_MS
  }

  predicate Known(w: Window, key: Key) {
    exists i :: 0 <= i < |w.log| && w.log[i].key == key && Alive(w, i)
  }

  datatype Call = Receive(key: Key) | SetTs(now: nat)

  function WindowStep(w: Window, c: Call): (Window, bool) {
    match c
    case Receive(key) => if Known(w, key) then (w, true) else (w.(log := w.log + [Entry(w.now, key)]), false)
    case SetTs(now) => (w.(now := now), false)
  }

  // ---- the history --------------------------------------------------------------------------

  datatype State = State(now: nat, queue: seq<Entry>, keys: set<Key>)

  /** Drops expired entries from the front. */
  function Evict(s: State): State
    decreases |s.queue|
  {
    if s.queue != [] && s.now >= s.queue[0].time + HISTORY_TIMEOUT_MS
    then Evict(s.(queue := s.queue[1..], keys := s.keys - {s.queue[0].key}))
    else s
  }

  function Trim(s: State): State {
    if |s.queue| > CAPACITY then s.(queue := s.queue[1..], keys := s.keys - {s.queue[0].key}) else s
  }

  function HistoryStep(s: State, c: Call): (State, bool) {
    match c
    case Receive(key) =>
      if key in s.keys then (s, true)
      else (Trim(s.(queue := s.queue + [Entry(s.now, key)], keys := s.keys + {key})), false)
    case SetTs(now) => (Evict(s.(now := now)), false)
  }

  // ---- runs ---------------------------------------------------------------------------------

  function Answers(s: State, calls: seq<Call>): (State, seq<bool>)
    decreases |calls|
  {
    if calls == [] then (s, [])
    else
      var (s1, first) := HistoryStep(s, calls[0]);
      var (s2, rest) := Answers(s1, calls[1..]);
      (s2, [first] + rest)
  }

  function WindowAnswers(w: Window, calls: seq<Call>): (Window, seq<bool>)
    decreases |calls|
  {
    if calls == [] then (w, [])
    else
      var (w1, first) := WindowStep(w, calls[0]);
      var (w2, rest) := WindowAnswers(w1, calls[1..]);
      (w2, [first] + rest)
  }

  /** Time never goes back. */
  predicate Monotone(now: nat, calls: seq<Call>)
    decreases |calls|
  {
    calls == [] || (
      if calls[0].SetTs? then now <= calls[0].now && Monotone(calls[0].now, calls[1..]) else Monotone(now, calls[1..]))
  }

  // ---- the refinement -----------------------------------------------------------------------

  ghost predicate Sorted(entries: seq<Entry>) {
    forall i, j :: 0 <= i < j < |entries| ==> entries[i].time <= entries[j].time
  }

  ghost predicate Unique(entries: seq<Entry>) {
    forall i, j :: 0 <= i < j < |entries| ==> entries[i].key != entries[j].key
  }

  ghost predicate Indexed(entries: seq<Entry>, keys: set<Key>) {
    (forall i :: 0 <= i < |entries| ==> entries[i].key in keys) && (forall k :: k in keys ==> exists i :: 0 <= i < |entries| && entries[i].key == k)
  }

  /** The history's own invariant: unique keys in order of time, indexed exactly, never more than it may hold. */
  ghost predicate Valid(s: State) {
    && Unique(s.queue) && Sorted(s.queue) && Indexed(s.queue, s.keys) && |s.queue| <= CAPACITY
    && forall i :: 0 <= i < |s.queue| ==> s.queue[i].time <= s.now
  }

  /** The queue is the end of the log from the first entry alive. */
  ghost predicate Shows(s: State, w: Window) {
    && s.now == w.now && |s.queue| <= |w.log|
    && s.queue == w.log[|w.log| - |s.queue|..]
    && (forall i :: 0 <= i < |w.log| ==> (Alive(w, i) <==> i >= |w.log| - |s.queue|))
    && Sorted(w.log) && (forall i :: 0 <= i < |w.log| ==> w.log[i].time <= w.now)
  }

  lemma KnownIffIndexed(s: State, w: Window, key: Key)
    requires Shows(s, w) && Indexed(s.queue, s.keys)
    ensures Known(w, key) <==> key in s.keys
  {
  }

  /** Dropping the front entry together with its key. */
  lemma DropFront(entries: seq<Entry>, keys: set<Key>)
    requires entries != [] && Unique(entries) && Sorted(entries) && Indexed(entries, keys)
    ensures Unique(entries[1..]) && Sorted(entries[1..]) && Indexed(entries[1..], keys - {entries[0].key})
  {
  }

  lemma PushBack(entries: seq<Entry>, keys: set<Key>, e: Entry)
    requires Unique(entries) && Sorted(entries) && Indexed(entries, keys) && e.key !in keys
    requires forall i :: 0 <= i < |entries| ==> entries[i].time <= e.time
    ensures Unique(entries + [e]) && Sorted(entries + [e]) && Indexed(entries + [e], keys + {e.key})
  {
    var more := entries + [e];
    assert more[|entries|] == e;
    forall k | k in keys + {e.key} ensures exists i :: 0 <= i < |more| && more[i].key == k {
      if k in keys {
        var i :| 0 <= i < |entries| && entries[i].key == k;
        assert more[i] == entries[i];
      }
    }
  }

  lemma ReceiveKeepsValid(s: State, key: Key)
    requires Valid(s)
    ensures Valid(HistoryStep(s, Receive(key)).0)
  {
    if key !in s.keys {
      PushBack(s.queue, s.keys, Entry(s.now, key));
      var more := s.queue + [Entry(s.now, key)];
      if |more| > CAPACITY { DropFront(more, s.keys + {key}); }
    }
  }

  lemma {:induction false} EvictKeepsValid(s: State)
    requires Valid(s)
    ensures Valid(Evict(s)) && Evict(s).now == s.now
    decreases |s.queue|
  {
    if s.queue != [] && s.now >= s.queue[0].time + HISTORY_TIMEOUT_MS {
      DropFront(s.queue, s.keys);
      EvictKeepsValid(s.(queue := s.queue[1..], keys := s.keys - {s.queue[0].key}));
    }
  }

  lemma ReceiveShows(s: State, w: Window, key: Key)
    requires Shows(s, w) && Valid(s)
    ensures HistoryStep(s, Receive(key)).1 == WindowStep(w, Receive(key)).1
    ensures Shows(HistoryStep(s, Receive(key)).0, WindowStep(w, Receive(key)).0)
  {
    KnownIffIndexed(s, w, key);
    if key !in s.keys { AcceptShows(s, w, key); }
  }

  lemma AcceptShows(s: State, w: Window, key: Key)
    requires Shows(s, w) && Valid(s) && key !in s.keys
    ensures Shows(HistoryStep(s, Receive(key)).0, w.(log := w.log + [Entry(w.now, key)]))
  {
    var (s', w') := (HistoryStep(s, Receive(key)).0, w.(log := w.log + [Entry(w.now, key)]));
    var n := |w.log|;
    forall i | 0 <= i < |w'.log| ensures Alive(w', i) <==> i >= |w'.log| - |s'.queue| {
      if i < n { assert w'.log[i] == w.log[i] && (Alive(w, i) <==> i >= n - |s.queue|); }
    }
    AcceptedQueue(s, w, key);
  }

  lemma AcceptedQueue(s: State, w: Window, key: Key)
    requires s.now == w.now && |s.queue| <= |w.log| && s.queue == w.log[|w.log| - |s.queue|..] && key !in s.keys
    ensures var (queue, log) := (HistoryStep(s, Receive(key)).0.queue, w.log + [Entry(w.now, key)]); |queue| <= |log| && queue == log[|log| - |queue|..]
  {
  }

  /** The queue covers everything alive, and possibly expired entries in front. */
  ghost predicate Covers(s: State, w: Window) {
    && s.now == w.now && |s.queue| <= |w.log| && |s.queue| <= CAPACITY
    && s.queue == w.log[|w.log| - |s.queue|..]
    && (forall i :: 0 <= i < |w.log| - |s.queue| ==> !Alive(w, i))
    && Sorted(w.log) && (forall i :: 0 <= i < |w.log| ==> w.log[i].time <= w.now)
  }

  lemma {:induction false} EvictShows(s: State, w: Window)
    requires Covers(s, w)
    ensures Shows(Evict(s), w)
    decreases |s.queue|
  {
    var k := |w.log| - |s.queue|;
    if s.queue != [] && s.now >= s.queue[0].time + HISTORY_TIMEOUT_MS {
      assert w.log[k] == s.queue[0];
      assert s.queue[1..] == w.log[k + 1..];
      EvictShows(s.(queue := s.queue[1..], keys := s.keys - {s.queue[0].key}), w);
    } else {
      forall i | k <= i < |w.log| ensures Alive(w, i) {
        assert s.queue[0] == w.log[k] && w.log[k].time <= w.log[i].time;
      }
    }
  }

  lemma SetTsShows(s: State, w: Window, now: nat)
    requires Shows(s, w) && Valid(s) && s.now <= now
    ensures Shows(HistoryStep(s, SetTs(now)).0, WindowStep(w, SetTs(now)).0)
  {
    forall i | 0 <= i < |w.log| - |s.queue| ensures !Alive(w.(now := now), i) {
      assert !Alive(w, i);
    }
    EvictShows(s.(now := now), w.(now := now));
  }

  lemma StepRefines(s: State, w: Window, c: Call)
    requires Valid(s) && Shows(s, w) && (c.SetTs? ==> s.now <= c.now)
    ensures var ((s', seen), (w', known)) := (HistoryStep(s, c), WindowStep(w, c)); seen == known && Valid(s') && Shows(s', w')
    ensures HistoryStep(s, c).0.now == if c.SetTs? then c.now else s.now
  {
    match c
    case Receive(key) =>
      ReceiveKeepsValid(s, key);
      ReceiveShows(s, w, key);
    case SetTs(now) =>
      EvictKeepsValid(s.(now := now));
      SetTsShows(s, w, now);
  }

  lemma {:induction false} RunRefines(s: State, w: Window, calls: seq<Call>)
    requires Valid(s) && Shows(s, w) && Monotone(s.now, calls)
    ensures var ((s', seen), (w', known)) := (Answers(s, calls), WindowAnswers(w, calls)); seen == known && Valid(s') && Shows(s', w')
    decreases |calls|
  {
    if calls != [] {
      StepRefines(s, w, calls[0]);
      RunRefines(HistoryStep(s, calls[0]).0, WindowStep(w, calls[0]).0, calls[1..]);
    }
  }

  const Empty := State(0, [], {})
  const NoLog := Window(0, [])

  /** Over every trace of calls with monotone time, the bounded history answers as the window over everything ever
      accepted does, and its queue stays unique, sorted by time, exactly indexed and bounded. */
  lemma HistoryIsSlidingWindow(calls: seq<Call>)
    requires Monotone(0, calls)
    ensures Answers(Empty, calls).1 == WindowAnswers(NoLog, calls).1
    ensures Valid(Answers(Empty, calls).0)
  {
    RunRefines(Empty, NoLog, calls);
  }

  // ---- the object ---------------------------------------------------------------------------

  class DataWorkerHistory {
    var nowMs: nat
    var queue: seq<Entry>
    var index: map<Key, bool>

    function View(): (s: State) reads this { State(nowMs, queue, index.Keys) }

    constructor ()
      ensures View() == Empty
    {
      nowMs, queue, index := 0, [], map[];
    }

    method AlreadyReceivedBroadcast(from: Option<NodeId>, service: Byte, seqNo: nat) returns (seen: bool)
      modifies this
      ensures (View(), seen) == HistoryStep(old(View()), Receive(Key(from, service, seqNo)))
    {
      var key := Key(from, service, seqNo);
      if key in index { return true; }
      index := index[key := true];
      queue := queue + [Entry(nowMs, key)];
      assert index.Keys == old(index.Keys) + {key};
      if |queue| > CAPACITY {
        var front := queue[0];
        queue := queue[1..];
        index := index - {front.key};
      }
      seen := false;
    }

    method SetTs(now: nat)
      modifies this
      ensures View() == HistoryStep(old(View()), Call.SetTs(now)).0
    {
      nowMs := now;
      ghost var start := View();
      while queue != [] && now >= queue[0].time + HISTORY_TIMEOUT_MS
        invariant nowMs == now && Evict(View()) == Evict(start)
        decreases |queue|
      {
        index := index - {queue[0].key};
        queue := queue[1..];
      }
    }
  }
}
