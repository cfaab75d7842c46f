/** Who the features of a node talk to, and the collection idioms they share. */
module Endpoints {
  /** A local address paired with the remote address it reaches. */
  datatype NetPair = NetPair(localAddr: nat, remoteAddr: nat)

  /** A local party that issued a control and receives its events. */
  datatype Actor = Controller(user: nat) | Worker(worker: nat, user: nat) | Service(id: nat)

  /** Some order in which a hash map yields its keys: every key once. */
  ghost predicate Enumerates<K>(order: seq<K>, keys: set<K>) {
    multiset(order) == multiset(keys)
  }

  /** The elements satisfying `p`, in order. */
  function Filter<T>(s: seq<T>, p: T -> bool): (r: seq<T>) {
    if s == [] then []
    else if p(s[0]) then [s[0]] + Filter(s[1..], p)
    else Filter(s[1..], p)
  }

  /** Removal that moves the last element into the gap. */
  function SwapRemove<T>(s: seq<T>, i: nat): (r: seq<T>)
    requires i < |s|
  {
    s[i := s[|s| - 1]][..|s| - 1]
  }

  /** The first position of `x`, or the length when there is none. */
  function Position<T(==)>(s: seq<T>, x: T): (i: nat)
    ensures i <= |s| && (i < |s| <==> x in s)
    ensures i < |s| ==> s[i] == x
  {
    if s == [] then 0 else if s[0] == x then 0 else 1 + Position(s[1..], x)
  }

  function Without<T(==)>(s: seq<T>, x: T): (r: seq<T>) {
    var i := Position(s, x);
    if i < |s| then SwapRemove(s, i) else s
  }

  predicate NoDuplicates<T(==)>(s: seq<T>) {
    forall i, j :: 0 <= i < j < |s| ==> s[i] != s[j]
  }

  lemma NoDuplicatesIff<T>(s: seq<T>)
    ensures NoDuplicates(s) <==> forall x :: multiset(s)[x] <= 1
  {
    if |s| > 0 {
      var t := s[..|s| - 1];
      var x := s[|s| - 1];
      NoDuplicatesIff(t);
      assert s == t + [x];
      assert forall i :: 0 <= i < |t| ==> s[i] == t[i];
      if NoDuplicates(s) {
        assert NoDuplicates(t);
        assert x !in t;
      }
      if forall y :: multiset(s)[y] <= 1 {
        assert forall y :: multiset(t)[y] <= multiset(s)[y];
        assert multiset(s)[x] == multiset(t)[x] + 1;
        assert x !in t;
      }
    }
  }

  /** Swap removal takes out one occurrence and keeps the rest. */
  lemma SwapRemoveBag<T>(s: seq<T>, i: nat)
    requires i < |s|
    ensures multiset(s) == multiset(SwapRemove(s, i)) + multiset{s[i]}
  {
    var t := s[i := s[|s| - 1]];
    assert t == SwapRemove(s, i) + [s[|s| - 1]];
    assert multiset(t) == multiset(s) - multiset{s[i]} + multiset{s[|s| - 1]};
    forall y ensures multiset(s)[y] == (multiset(SwapRemove(s, i)) + multiset{s[i]})[y] {
      assert multiset(t)[y] == (multiset(SwapRemove(s, i)) + multiset{s[|s| - 1]})[y];
    }
  }

  lemma WithoutBag<T>(s: seq<T>, x: T)
    ensures multiset(Without(s, x)) == multiset(s) - multiset{x}
  {
    var i := Position(s, x);
    if i < |s| { SwapRemoveBag(s, i); }
  }

  lemma WithoutFacts<T>(s: seq<T>, x: T)
    ensures x !in s ==> Without(s, x) == s
    ensures NoDuplicates(s) ==> NoDuplicates(Without(s, x)) && x !in Without(s, x)
    ensures forall y :: y != x ==> (y in Without(s, x) <==> y in s)
  {
    WithoutBag(s, x);
    var r := Without(s, x);
    assert forall y :: y in r <==> multiset(r)[y] > 0;
    assert forall y :: y in s <==> multiset(s)[y] > 0;
    NoDuplicatesIff(s);
    NoDuplicatesIff(r);
  }

  lemma FilterFacts<T>(s: seq<T>, p: T -> bool)
    ensures forall x :: multiset(Filter(s, p))[x] == if p(x) then multiset(s)[x] else 0
  {
    if s != [] {
      assert s == [s[0]] + s[1..];
      FilterFacts(s[1..], p);
    }
  }

  lemma {:induction false} FilterAppend<T>(s: seq<T>, x: T, p: T -> bool)
    ensures Filter(s + [x], p) == Filter(s, p) + if p(x) then [x] else []
  {
    if s != [] {
      assert (s + [x])[1..] == s[1..] + [x];
      FilterAppend(s[1..], x, p);
    } else {
      assert [x][1..] == [];
    }
  }

  /** The keys of a map, in some order. */
  method KeysOf<K, V>(m: map<K, V>) returns (order: seq<K>)
    ensures Enumerates(order, m.Keys)
  {
    order := [];
    var left := m.Keys;
    while left != {}
      invariant left <= m.Keys
      invariant multiset(order) + multiset(left) == multiset(m.Keys)
    {
      var k :| k in left;
      order := order + [k];
      left := left - {k};
    }
  }

  lemma AnyOrder<K>(keys: set<K>) returns (order: seq<K>)
    ensures Enumerates(order, keys)
  {
    order := [];
    if keys != {} {
      var k :| k in keys;
      var rest := AnyOrder(keys - {k});
      order := [k] + rest;
    }
  }

  lemma EnumeratesMembers<K>(order: seq<K>, keys: set<K>)
    requires Enumerates(order, keys)
    ensures forall k :: k in order <==> k in keys
    ensures NoDuplicates(order)
  {
    assert forall k :: k in order <==> k in multiset(order);
    NoDuplicatesIff(order);
  }

  lemma Regroup<T>(a: seq<T>, b: seq<T>, c: seq<T>)
    ensures a + (b + c) == a + b + c && a + [] == a
  {
  }

  lemma {:induction false} FirstPosition<T>(s: seq<T>, x: T, i: nat)
    requires i <= |s| && x !in s[..i] && (i < |s| ==> s[i] == x)
    ensures Position(s, x) == i
  {
    if i > 0 {
      assert s[0] == s[..i][0];
      assert s[1..][..i - 1] == s[..i][1..];
      FirstPosition(s[1..], x, i - 1);
    }
  }

  method FindPosition<T(==)>(s: seq<T>, x: T) returns (i: nat)
    ensures i == Position(s, x)
  {
    i := 0;
    while i < |s| && s[i] != x
      invariant i <= |s| && x !in s[..i]
    {
      i := i + 1;
    }
    FirstPosition(s, x, i);
  }

  /** How often something occurs. */
  function Count<T(==)>(s: seq<T>, x: T): nat
    decreases |s|
  {
    if s == [] then 0 else (if s[0] == x then 1 else 0) + Count(s[1..], x)
  }

  lemma {:induction false} CountAppend<T>(a: seq<T>, b: seq<T>, x: T)
    ensures Count(a + b, x) == Count(a, x) + Count(b, x)
    decreases |a|
  {
    if a == [] {
      assert a + b == b;
    } else {
      assert (a + b)[1..] == a[1..] + b;
      CountAppend(a[1..], b, x);
    }
  }

  lemma {:induction false} CountNone<T>(s: seq<T>, x: T)
    requires x !in s
    ensures Count(s, x) == 0
    decreases |s|
  {
    if s != [] { CountNone(s[1..], x); }
  }
}
