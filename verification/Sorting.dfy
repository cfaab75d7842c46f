/** Stable sorting by a numeric key: the contract of the standard library's `Vec::sort`. */
module Sorting {

  ghost predicate SortedBy<T>(s: seq<T>, key: T -> nat) {
    forall i, j :: 0 <= i < j < |s| ==> key(s[i]) <= key(s[j])
  }

  /** Puts `x` behind every element whose key is not larger. */
  function Insert<T>(s: seq<T>, x: T, key: T -> nat): seq<T> {
    if s == [] || key(s[|s| - 1]) <= key(x) then s + [x]
    else Insert(s[..|s| - 1], x, key) + [s[|s| - 1]]
  }

  function Sort<T>(s: seq<T>, key: T -> nat): seq<T> {
    if s == [] then []
    else Insert(Sort(s[..|s| - 1], key), s[|s| - 1], key)
  }

  /** The elements with key `k`, in order. */
  function WithKey<T>(s: seq<T>, key: T -> nat, k: nat): seq<T> {
    if s == [] then []
    else WithKey(s[..|s| - 1], key, k) + (if key(s[|s| - 1]) == k then [s[|s| - 1]] else [])
  }

  function Map<A, B>(s: seq<A>, f: A -> B): (r: seq<B>)
    ensures |r| == |s| && forall i :: 0 <= i < |s| ==> r[i] == f(s[i])
  {
    if s == [] then [] else Map(s[..|s| - 1], f) + [f(s[|s| - 1])]
  }

  function FoldAll<S, D>(step: (S, D) -> S, start: S, items: seq<D>): S {
    if items == [] then start else step(FoldAll(step, start, items[..|items| - 1]), items[|items| - 1])
  }

  lemma {:induction false} FoldAllAppend<S, D>(step: (S, D) -> S, start: S, a: seq<D>, b: seq<D>)
    ensures FoldAll(step, start, a + b) == FoldAll(step, FoldAll(step, start, a), b)
  {
    if b == [] {
      assert a + b == a;
    } else {
      FoldAllAppend(step, start, a, b[..|b| - 1]);
      assert (a + b)[..|a + b| - 1] == a + b[..|b| - 1];
    }
  }

  lemma {:induction false} InsertElements<T>(s: seq<T>, x: T, key: T -> nat)
    ensures multiset(Insert(s, x, key)) == multiset(s) + multiset{x}
    ensures |Insert(s, x, key)| == |s| + 1
    ensures forall y :: y in Insert(s, x, key) ==> y in s || y == x
  {
    if !(s == [] || key(s[|s| - 1]) <= key(x)) {
      InsertElements(s[..|s| - 1], x, key);
      assert s == s[..|s| - 1] + [s[|s| - 1]];
    }
  }

  lemma {:induction false} InsertSorted<T>(s: seq<T>, x: T, key: T -> nat)
    requires SortedBy(s, key)
    ensures SortedBy(Insert(s, x, key), key)
  {
    if !(s == [] || key(s[|s| - 1]) <= key(x)) {
      var rest, last := s[..|s| - 1], s[|s| - 1];
      InsertSorted(rest, x, key);
      InsertElements(rest, x, key);
      var r := Insert(rest, x, key);
      forall i | 0 <= i < |r| ensures key(r[i]) <= key(last) {
        assert r[i] in r;
      }
    }
  }

  lemma WithKeyOfLonger<T>(s: seq<T>, x: T, key: T -> nat, k: nat)
    ensures WithKey(s + [x], key, k) == WithKey(s, key, k) + (if key(x) == k then [x] else [])
  {
  }

  lemma {:induction false} InsertWithKey<T>(s: seq<T>, x: T, key: T -> nat, k: nat)
    ensures WithKey(Insert(s, x, key), key, k) == WithKey(s, key, k) + (if key(x) == k then [x] else [])
  {
    if s == [] || key(s[|s| - 1]) <= key(x) {
      WithKeyOfLonger(s, x, key, k);
    } else {
      var rest, last := s[..|s| - 1], s[|s| - 1];
      InsertWithKey(rest, x, key, k);
      WithKeyOfLonger(Insert(rest, x, key), last, key, k);
    }
  }

  /** Sorting orders by key and keeps every element. */
  lemma {:induction false} SortFacts<T>(s: seq<T>, key: T -> nat)
    ensures SortedBy(Sort(s, key), key)
    ensures multiset(Sort(s, key)) == multiset(s)
    ensures |Sort(s, key)| == |s|
  {
    if s != [] {
      var rest, last := s[..|s| - 1], s[|s| - 1];
      SortFacts(rest, key);
      assert s == rest + [last];
      InsertSorted(Sort(rest, key), last, key);
      InsertElements(Sort(rest, key), last, key);
    }
  }

  /** Sorting keeps the order of elements with equal keys. */
  lemma {:induction false} SortIsStable<T>(s: seq<T>, key: T -> nat, k: nat)
    ensures WithKey(Sort(s, key), key, k) == WithKey(s, key, k)
  {
    if s != [] {
      var rest, last := s[..|s| - 1], s[|s| - 1];
      SortIsStable(rest, key, k);
      InsertWithKey(Sort(rest, key), last, key, k);
    }
  }

  lemma {:induction false} WithKeyMember<T>(s: seq<T>, key: T -> nat, x: T)
    ensures x in WithKey(s, key, key(x)) <==> x in s
    ensures forall y, k :: y in WithKey(s, key, k) ==> y in s && key(y) == k
  {
    if s != [] {
      WithKeyMember(s[..|s| - 1], key, x);
      assert s == s[..|s| - 1] + [s[|s| - 1]];
    }
  }

  lemma LastIsGreatest<T>(t: seq<T>, key: T -> nat, x: T)
    requires SortedBy(t, key) && x in t
    ensures key(x) <= key(t[|t| - 1])
  {
  }

  lemma WithKeyLast<T>(t: seq<T>, key: T -> nat)
    requires t != []
    ensures var w := WithKey(t, key, key(t[|t| - 1])); w != [] && w[|w| - 1] == t[|t| - 1]
  {
  }

  lemma LastKeyAtLeast<T>(s: seq<T>, t: seq<T>, key: T -> nat)
    requires SortedBy(s, key) && s != [] && t != []
    requires forall k :: WithKey(s, key, k) == WithKey(t, key, k)
    ensures key(t[|t| - 1]) <= key(s[|s| - 1])
  {
    var y := t[|t| - 1];
    assert WithKey(s, key, key(y)) == WithKey(t, key, key(y));
    WithKeyLast(t, key);
    WithKeyMember(s, key, y);
    LastIsGreatest(s, key, y);
  }

  lemma LastsAgree<T>(s: seq<T>, t: seq<T>, key: T -> nat)
    requires SortedBy(s, key) && SortedBy(t, key) && s != [] && t != []
    requires forall k :: WithKey(s, key, k) == WithKey(t, key, k)
    ensures s[|s| - 1] == t[|t| - 1]
  {
    var x, y := s[|s| - 1], t[|t| - 1];
    LastKeyAtLeast(s, t, key);
    LastKeyAtLeast(t, s, key);
    assert WithKey(s, key, key(x)) == WithKey(t, key, key(x));
    WithKeyLast(s, key);
    WithKeyLast(t, key);
  }

  /** Order and stability together leave no freedom. */
  lemma {:induction false} StableOrderIsUnique<T>(s: seq<T>, t: seq<T>, key: T -> nat)
    requires SortedBy(s, key) && SortedBy(t, key)
    requires forall k :: WithKey(s, key, k) == WithKey(t, key, k)
    ensures s == t
    decreases |s|
  {
    if s == [] {
      if t != [] {
        WithKeyLast(t, key);
      }
    } else if t == [] {
      WithKeyLast(s, key);
    } else {
      LastsAgree(s, t, key);
      var x := s[|s| - 1];
      var s', t' := s[..|s| - 1], t[..|t| - 1];
      forall k ensures WithKey(s', key, k) == WithKey(t', key, k) {
        var tail := if key(x) == k then [x] else [];
        assert WithKey(s, key, k) == WithKey(s', key, k) + tail && WithKey(t, key, k) == WithKey(t', key, k) + tail;
        SameWithoutTail(WithKey(s', key, k), WithKey(t', key, k), tail);
      }
      StableOrderIsUnique(s', t', key);
      assert s == s' + [x] && t == t' + [x];
    }
  }

  lemma SameWithoutTail<T>(a: seq<T>, b: seq<T>, tail: seq<T>)
    requires a + tail == b + tail
    ensures a == b
  {
    assert |a| == |b|;
    assert a == (a + tail)[..|a|] && b == (b + tail)[..|b|];
  }

  /** The contract of a stable sort determines its result: whatever is ordered by key and keeps the order
      of equal keys is `Sort`. */
  lemma StableSortIsSort<T>(s: seq<T>, t: seq<T>, key: T -> nat)
    requires SortedBy(t, key) && forall k :: WithKey(t, key, k) == WithKey(s, key, k)
    ensures t == Sort(s, key)
  {
    SortFacts(s, key);
    forall k ensures WithKey(Sort(s, key), key, k) == WithKey(t, key, k) {
      SortIsStable(s, key, k);
    }
    StableOrderIsUnique(Sort(s, key), t, key);
  }

  lemma {:induction false} SortOfSorted<T>(s: seq<T>, key: T -> nat)
    requires SortedBy(s, key)
    ensures Sort(s, key) == s
  {
    if s != [] {
      SortOfSorted(s[..|s| - 1], key);
    }
  }

  lemma SortMembers<T>(s: seq<T>, key: T -> nat)
    ensures forall x :: x in Sort(s, key) <==> x in s
  {
    SortFacts(s, key);
    forall x ensures x in Sort(s, key) <==> x in s {
      assert x in Sort(s, key) <==> x in multiset(Sort(s, key));
    }
  }

  lemma {:induction false} InsertCommutesWithMap<A, B>(s: seq<A>, x: A, f: A -> B, key: A -> nat, keyB: B -> nat)
    requires forall a :: a in s || a == x ==> key(a) == keyB(f(a))
    ensures Map(Insert(s, x, key), f) == Insert(Map(s, f), f(x), keyB)
  {
    if s == [] || key(s[|s| - 1]) <= key(x) {
      assert Map(s + [x], f) == Map(s, f) + [f(x)];
    } else {
      var rest, last := s[..|s| - 1], s[|s| - 1];
      InsertCommutesWithMap(rest, x, f, key, keyB);
      assert Map(s, f)[..|s| - 1] == Map(rest, f);
      var r := Insert(rest, x, key);
      assert Map(r + [last], f) == Map(r, f) + [f(last)];
    }
  }

  /** Sorting commutes with any projection that keeps the key. */
  lemma {:induction false} SortCommutesWithMap<A, B>(s: seq<A>, f: A -> B, key: A -> nat, keyB: B -> nat)
    requires forall a :: a in s ==> key(a) == keyB(f(a))
    ensures Map(Sort(s, key), f) == Sort(Map(s, f), keyB)
  {
    if s != [] {
      var rest, last := s[..|s| - 1], s[|s| - 1];
      assert s == rest + [last];
      SortCommutesWithMap(rest, f, key, keyB);
      SortMembers(rest, key);
      InsertCommutesWithMap(Sort(rest, key), last, f, key, keyB);
      assert Map(s, f)[..|s| - 1] == Map(rest, f);
    }
  }

  // ---- lists keyed by an identity -----------------------------------------------------------

  ghost predicate UniqueBy<T, K>(s: seq<T>, id: T -> K) {
    forall i, j :: 0 <= i < j < |s| ==> id(s[i]) != id(s[j])
  }

  /** Position of the first element with identity `k`, or -1. */
  function IndexBy<T, K(==)>(s: seq<T>, id: T -> K, k: K): (r: int)
    ensures -1 <= r < |s|
    ensures r >= 0 ==> id(s[r]) == k
    ensures forall j :: 0 <= j < (if r >= 0 then r else |s|) ==> id(s[j]) != k
  {
    if s == [] then -1
    else
      var r := IndexBy(s[..|s| - 1], id, k);
      if r >= 0 then r else if id(s[|s| - 1]) == k then |s| - 1 else -1
  }

  /** The list with `x` in place of the first element of the same identity, or at the end. */
  function Placed<T, K(==)>(s: seq<T>, x: T, id: T -> K): seq<T> {
    var i := IndexBy(s, id, id(x));
    if i >= 0 then s[i := x] else s + [x]
  }

  /** The list without the first element of identity `k`. */
  function Removed<T, K(==)>(s: seq<T>, id: T -> K, k: K): seq<T> {
    var i := IndexBy(s, id, k);
    if i >= 0 then s[..i] + s[i + 1..] else s
  }

  /** The list without any element of identity `k`. */
  function Retained<T, K(==)>(s: seq<T>, id: T -> K, k: K): seq<T> {
    if s == [] then []
    else Retained(s[..|s| - 1], id, k) + (if id(s[|s| - 1]) != k then [s[|s| - 1]] else [])
  }

  lemma PlacedMember<T, K>(s: seq<T>, x: T, id: T -> K, q: T)
    requires UniqueBy(s, id)
    ensures q in Placed(s, x, id) <==> q == x || (q in s && id(q) != id(x))
  {
    var i, t := IndexBy(s, id, id(x)), Placed(s, x, id);
    if q in t {
      var k :| 0 <= k < |t| && t[k] == q;
      assert i >= 0 && k != i ==> id(s[k]) != id(s[i]);
    }
    if q in s && id(q) != id(x) {
      var k :| 0 <= k < |s| && s[k] == q;
      assert t[k] == q;
    }
    assert t[if i >= 0 then i else |s|] == x;
  }

  lemma PlacedUnique<T, K>(s: seq<T>, x: T, id: T -> K)
    requires UniqueBy(s, id)
    ensures UniqueBy(Placed(s, x, id), id)
  {
  }

  lemma OccursOnce<T, K>(s: seq<T>, id: T -> K, a: nat)
    requires UniqueBy(s, id) && a < |s|
    ensures multiset(s)[s[a]] == 1
  {
    assert s == s[..a] + [s[a]] + s[a + 1..];
    assert s[a] !in s[..a] && s[a] !in s[a + 1..];
  }

  lemma OccursTwice<T>(t: seq<T>, i: nat, j: nat)
    requires i < j < |t| && t[i] == t[j]
    ensures multiset(t)[t[i]] >= 2
  {
    assert t == t[..i] + [t[i]] + t[i + 1..j] + [t[j]] + t[j + 1..];
  }

  lemma UniqueOfPermutation<T, K>(s: seq<T>, t: seq<T>, id: T -> K)
    requires UniqueBy(s, id) && multiset(s) == multiset(t)
    ensures UniqueBy(t, id)
  {
    forall i, j | 0 <= i < j < |t| ensures id(t[i]) != id(t[j]) {
      assert t[i] in multiset(s) && t[j] in multiset(s);
      var a :| 0 <= a < |s| && s[a] == t[i];
      var b :| 0 <= b < |s| && s[b] == t[j];
      OccursOnce(s, id, a);
      if t[i] == t[j] {
        OccursTwice(t, i, j);
      }
    }
  }

  /** Placing and sorting: one element per identity, ordered, everything else kept. */
  lemma PutFacts<T, K>(s: seq<T>, x: T, id: T -> K, key: T -> nat)
    requires UniqueBy(s, id)
    ensures var put := Sort(Placed(s, x, id), key);
      UniqueBy(put, id) && SortedBy(put, key) && forall q :: q in put <==> q == x || (q in s && id(q) != id(x))
  {
    var placed := Placed(s, x, id);
    PlacedUnique(s, x, id);
    SortFacts(placed, key);
    SortMembers(placed, key);
    UniqueOfPermutation(placed, Sort(placed, key), id);
    forall q ensures q in placed <==> q == x || (q in s && id(q) != id(x)) {
      PlacedMember(s, x, id, q);
    }
  }

  lemma {:induction false} RetainedMember<T, K>(s: seq<T>, id: T -> K, k: K, q: T)
    ensures q in Retained(s, id, k) <==> q in s && id(q) != k
  {
    if s != [] {
      RetainedMember(s[..|s| - 1], id, k, q);
      assert s == s[..|s| - 1] + [s[|s| - 1]];
    }
  }

  lemma {:induction false} RetainedOrder<T, K>(s: seq<T>, id: T -> K, key: T -> nat, k: K)
    requires UniqueBy(s, id) && SortedBy(s, key)
    ensures UniqueBy(Retained(s, id, k), id) && SortedBy(Retained(s, id, k), key)
  {
    if s != [] {
      var rest, last := s[..|s| - 1], s[|s| - 1];
      RetainedOrder(rest, id, key, k);
      var kept := Retained(rest, id, k);
      forall i | 0 <= i < |kept| ensures id(kept[i]) != id(last) && key(kept[i]) <= key(last) {
        RetainedMember(rest, id, k, kept[i]);
        var j :| 0 <= j < |rest| && rest[j] == kept[i];
        assert s[j] == kept[i];
      }
    }
  }

  /** Filtering out an identity keeps everything else, in order. */
  lemma RetainedFacts<T, K>(s: seq<T>, id: T -> K, key: T -> nat, k: K)
    requires UniqueBy(s, id) && SortedBy(s, key)
    ensures UniqueBy(Retained(s, id, k), id) && SortedBy(Retained(s, id, k), key)
    ensures forall q :: q in Retained(s, id, k) <==> q in s && id(q) != k
  {
    RetainedOrder(s, id, key, k);
    forall q ensures q in Retained(s, id, k) <==> q in s && id(q) != k {
      RetainedMember(s, id, k, q);
    }
  }

  lemma {:induction false} RetainedAll<T, K>(s: seq<T>, id: T -> K, k: K)
    requires forall j :: 0 <= j < |s| ==> id(s[j]) != k
    ensures Retained(s, id, k) == s
  {
    if s != [] {
      RetainedAll(s[..|s| - 1], id, k);
    }
  }

  lemma IndexOfLonger<T, K>(s: seq<T>, last: T, id: T -> K, k: K)
    ensures IndexBy(s + [last], id, k) == if IndexBy(s, id, k) >= 0 then IndexBy(s, id, k) else if id(last) == k then |s| else -1
  {
  }

  lemma RemovedFromLonger<T, K>(s: seq<T>, last: T, id: T -> K, k: K)
    requires id(last) != k
    ensures Removed(s + [last], id, k) == Removed(s, id, k) + [last]
  {
    IndexOfLonger(s, last, id, k);
    var i := IndexBy(s, id, k);
    if i >= 0 {
      assert (s + [last])[..i] == s[..i] && (s + [last])[i + 1..] == s[i + 1..] + [last];
    }
  }

  lemma UniqueInit<T, K>(s: seq<T>, id: T -> K)
    requires UniqueBy(s, id) && s != []
    ensures var rest, last := s[..|s| - 1], s[|s| - 1]; UniqueBy(rest, id) && forall j :: 0 <= j < |rest| ==> id(rest[j]) != id(last)
  {
  }

  lemma LastRemoved<T, K>(s: seq<T>, last: T, id: T -> K, k: K)
    requires id(last) == k && forall j :: 0 <= j < |s| ==> id(s[j]) != k
    ensures Retained(s + [last], id, k) == s == Removed(s + [last], id, k)
  {
    RetainedAll(s, id, k);
    IndexOfLonger(s, last, id, k);
    assert (s + [last])[..|s|] == s;
  }

  /** With unique identities, filtering out an identity removes exactly one element. */
  lemma {:induction false} RetainedIsRemoved<T, K>(s: seq<T>, id: T -> K, k: K)
    requires UniqueBy(s, id)
    ensures Retained(s, id, k) == Removed(s, id, k)
  {
    if s != [] {
      var rest, last := s[..|s| - 1], s[|s| - 1];
      assert s == rest + [last];
      UniqueInit(s, id);
      if id(last) == k {
        LastRemoved(rest, last, id, k);
      } else {
        RetainedIsRemoved(rest, id, k);
        RemovedFromLonger(rest, last, id, k);
      }
    }
  }

  lemma {:induction false} IndexCommutesWithMap<A, B, K>(s: seq<A>, f: A -> B, id: A -> K, idB: B -> K, k: K)
    requires forall a :: a in s ==> id(a) == idB(f(a))
    ensures IndexBy(Map(s, f), idB, k) == IndexBy(s, id, k)
  {
  }

  lemma PlacedCommutesWithMap<A, B, K>(s: seq<A>, x: A, f: A -> B, id: A -> K, idB: B -> K)
    requires forall a :: a in s || a == x ==> id(a) == idB(f(a))
    ensures Map(Placed(s, x, id), f) == Placed(Map(s, f), f(x), idB)
  {
    IndexCommutesWithMap(s, f, id, idB, id(x));
  }

  lemma {:induction false} RetainedCommutesWithMap<A, B, K>(s: seq<A>, f: A -> B, id: A -> K, idB: B -> K, k: K)
    requires forall a :: a in s ==> id(a) == idB(f(a))
    ensures Map(Retained(s, id, k), f) == Retained(Map(s, f), idB, k)
  {
    if s != [] {
      var rest, last := s[..|s| - 1], s[|s| - 1];
      RetainedCommutesWithMap(rest, f, id, idB, k);
      assert Map(s, f)[..|s| - 1] == Map(rest, f);
      var kept := Retained(rest, id, k);
      if id(last) != k {
        assert Map(kept + [last], f) == Map(kept, f) + [f(last)];
      } else {
        assert kept + [] == kept;
      }
    }
  }
}
