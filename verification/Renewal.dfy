/** Things that stand as long as they are renewed in time: subscriptions, remote sources and the like. */
module Renewal {
  import opened Identity

  /** What a call means to something that has to be renewed. */
  datatype Mark = Renewed(at: nat) | Ended | Ticked(at: nat) | Other

  /** Since when it stands: from the last renewal, until it is ended or a tick comes 10 s later. */
  function Since(marks: seq<Mark>): Option<nat> {
    if marks == [] then None
    else
      var before := Since(marks[..|marks| - 1]);
      match marks[|marks| - 1]
      case Renewed(at) => Some(at)
      case Ended => None
      case Ticked(at) => if before.Some? && at >= before.value + 10_000 then None else before
      case Other => before
  }

  /** The last renewal, neither ended nor outlived by a tick. */
  predicate Stands(marks: seq<Mark>, k: int) {
    && 0 <= k < |marks| && marks[k].Renewed?
    && forall j :: k < j < |marks| ==> marks[j].Other? || (marks[j].Ticked? && marks[j].at < marks[k].at + 10_000)
  }

  lemma {:induction false} SinceIff(marks: seq<Mark>)
    ensures Since(marks).None? ==> forall k :: !Stands(marks, k)
    ensures Since(marks).Some? ==> exists k :: Stands(marks, k) && marks[k].at == Since(marks).value
  {
    if marks != [] {
      var n := |marks| - 1;
      var before, last := marks[..n], marks[n];
      SinceIff(before);
      forall k ensures Stands(marks, k) <==> (k == n && last.Renewed?) || (Stands(before, k) && (last.Other? || (last.Ticked? && last.at < before[k].at + 10_000))) {
        if 0 <= k < n { forall j | k < j < n ensures before[j] == marks[j] { } }
      }
      if Since(before).Some? {
        var k :| Stands(before, k) && before[k].at == Since(before).value;
        forall j ensures Stands(before, j) ==> j == k { }
        assert marks[k] == before[k];
      }
      assert last.Renewed? ==> Stands(marks, n);
    }
  }
}
