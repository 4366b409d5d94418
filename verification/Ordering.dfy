/**
  Sorting of a finite collection of identified rows. A row is known by its
  identity and sorted by a rank; the identity breaks every tie, so the order
  is strict and total however the rows were stored.
 */
module Ordering {
  /** Ranks compare by time, then unscored last, then by score, then by instant; identities compare last. */
  datatype Rank = Rank(score: real, instant: int, at: int := 0, unscored: bool := false)

  predicate Before(a: Rank, i: int, b: Rank, j: int) {
    if a.at != b.at then a.at < b.at
    else if a.unscored != b.unscored then b.unscored
    else a.score < b.score || (a.score == b.score && (a.instant < b.instant || (a.instant == b.instant && i < j)))
  }

  ghost predicate IsFirst(ranks: map<int, Rank>, i: int) {
    i in ranks && forall j :: j in ranks && j != i ==> Before(ranks[i], i, ranks[j], j)
  }

  lemma {:induction false} FirstExists(ranks: map<int, Rank>)
    requires exists k :: k in ranks
    ensures exists i :: IsFirst(ranks, i)
    decreases |ranks|
  {
    var k :| k in ranks;
    var rest := ranks - {k};
    assert rest.Keys == ranks.Keys - {k};
    if forall i :: i !in rest {
      assert forall j :: j in ranks ==> j == k || j in rest;
      assert IsFirst(ranks, k);
    } else {
      FirstExists(rest);
      var i :| IsFirst(rest, i);
      var best := if Before(ranks[i], i, ranks[k], k) then i else k;
      assert forall j :: j in ranks ==> j == k || j in rest;
      assert IsFirst(ranks, best);
    }
  }

  ghost function First(ranks: map<int, Rank>): (i: int)
    requires exists k :: k in ranks
    ensures IsFirst(ranks, i)
  {
    FirstExists(ranks);
    var i :| IsFirst(ranks, i);
    i
  }

  ghost predicate Distinct(ids: seq<int>) {
    forall i, j :: 0 <= i < j < |ids| ==> ids[i] != ids[j]
  }

  ghost predicate Sorted(ranks: map<int, Rank>, ids: seq<int>) {
    && (forall i :: 0 <= i < |ids| ==> ids[i] in ranks)
    && forall i, j :: 0 <= i < j < |ids| ==> Before(ranks[ids[i]], ids[i], ranks[ids[j]], ids[j])
  }

  lemma SortedCons(ranks: map<int, Rank>, i: int, tail: seq<int>)
    requires IsFirst(ranks, i) && Sorted(ranks - {i}, tail)
    ensures Sorted(ranks, [i] + tail)
    ensures Distinct(tail) ==> Distinct([i] + tail)
  {
    forall j | 0 <= j < |tail| ensures tail[j] in ranks && tail[j] != i {
      assert tail[j] in ranks - {i};
    }
  }

  /** The identities in sorted order. */
  ghost function Order(ranks: map<int, Rank>): (ids: seq<int>)
    ensures Sorted(ranks, ids) && Distinct(ids)
    ensures forall k :: k in ids <==> k in ranks
    ensures |ids| == |ranks|
    decreases |ranks|
  {
    if forall i :: i !in ranks then []
    else
      var i := First(ranks);
      var rest := ranks - {i};
      assert rest.Keys == ranks.Keys - {i};
      var tail := Order(rest);
      assert Sorted(ranks, [i] + tail) by { SortedCons(ranks, i, tail); }
      [i] + tail
  }

  lemma HeadFirst(ranks: map<int, Rank>, ids: seq<int>)
    requires Sorted(ranks, ids) && ids != []
    requires forall k :: k in ids <==> k in ranks
    ensures IsFirst(ranks, ids[0])
  {
    hide Before;
    forall k | k in ranks && k != ids[0] ensures Before(ranks[ids[0]], ids[0], ranks[k], k) {
      var j :| 0 <= j < |ids| && ids[j] == k;
    }
  }

  lemma OrderUnfolds(ranks: map<int, Rank>, i: int)
    requires IsFirst(ranks, i)
    ensures Order(ranks) == [i] + Order(ranks - {i})
  {
    FirstUnique(ranks, i, First(ranks));
    hide Before;
    hide Sorted;
  }

  lemma OrderEmpty(ranks: map<int, Rank>)
    requires forall k :: k !in ranks
    ensures Order(ranks) == []
  {
  }

  /** A sorted listing of the same identities is the sorted order: sorting forgets how the rows arrived. */
  lemma {:induction false} OrderUnique(ranks: map<int, Rank>, ids: seq<int>)
    requires Sorted(ranks, ids)
    requires forall k :: k in ids <==> k in ranks
    ensures ids == Order(ranks)
    decreases |ids|
  {
    hide *;
    if ids == [] {
      OrderEmpty(ranks);
    } else {
      assert ids[1..] == Order(ranks - {ids[0]}) by {
        SortedTail(ranks, ids);
        OrderUnique(ranks - {ids[0]}, ids[1..]);
      }
      assert Order(ranks) == [ids[0]] + Order(ranks - {ids[0]}) by {
        HeadFirst(ranks, ids);
        OrderUnfolds(ranks, ids[0]);
      }
      assert ids == [ids[0]] + ids[1..];
    }
  }

  lemma FirstUnique(ranks: map<int, Rank>, i: int, j: int)
    requires IsFirst(ranks, i) && IsFirst(ranks, j)
    ensures i == j
  {
  }

  lemma SortedTail(ranks: map<int, Rank>, ids: seq<int>)
    requires ids != [] && Sorted(ranks, ids)
    requires forall k :: k in ids <==> k in ranks
    ensures Sorted(ranks - {ids[0]}, ids[1..])
    ensures forall k :: k in ids[1..] <==> k in ranks - {ids[0]}
  {
    var rest := ranks - {ids[0]};
    forall i | 0 <= i < |ids[1..]| ensures ids[1..][i] in rest && rest[ids[1..][i]] == ranks[ids[i + 1]] {
      assert Before(ranks[ids[0]], ids[0], ranks[ids[i + 1]], ids[i + 1]);
    }
    forall k | k in rest ensures k in ids[1..] {
      var j :| 0 <= j < |ids| && ids[j] == k;
      assert ids[1..][j - 1] == k;
    }
    forall i, j | 0 <= i < j < |ids[1..]|
      ensures Before(rest[ids[1..][i]], ids[1..][i], rest[ids[1..][j]], ids[1..][j])
    {
      assert Before(ranks[ids[i + 1]], ids[i + 1], ranks[ids[j + 1]], ids[j + 1]);
    }
  }

  /** Repeated extraction of the least remaining row. */
  method Sort(ranks: map<int, Rank>) returns (ids: seq<int>)
    ensures ids == Order(ranks)
  {
    ids := [];
    var rest := ranks;
    while exists k :: k in rest
      invariant rest.Keys <= ranks.Keys && forall k :: k in rest ==> rest[k] == ranks[k]
      invariant Sorted(ranks, ids)
      invariant forall k :: k in ids <==> k in ranks && k !in rest
      invariant forall i, k :: 0 <= i < |ids| && k in rest ==> Before(ranks[ids[i]], ids[i], ranks[k], k)
      decreases |rest|
    {
      FirstExists(rest);
      var first :| first in rest && forall j :: j in rest && j != first ==> Before(rest[first], first, rest[j], j);
      assert (rest - {first}).Keys == rest.Keys - {first};
      rest := rest - {first};
      ids := ids + [first];
    }
    OrderUnique(ranks, ids);
  }
}
