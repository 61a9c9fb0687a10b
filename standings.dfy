/** The league table of one trial: Python's stable
    sorted(points.items(), key=points, reverse=True), kept as the order of
    team indices it produces, and the facts the crediting loops rely on. */
module Standings {

  /** order lists every index below n exactly once. */
  predicate IsPermutation(order: seq<nat>, n: nat)
  {
    |order| == n
    && (forall a :: 0 <= a < |order| ==> order[a] < n)
    && (forall a, b :: 0 <= a < b < |order| ==> order[a] != order[b])
    && (forall x :: 0 <= x < n ==> x in order)
  }

  /** Points never increase along the order. */
  predicate Descending(order: seq<nat>, pts: seq<int>)
    requires forall a :: 0 <= a < |order| ==> order[a] < |pts|
  {
    forall a, b :: 0 <= a < b < |order| ==> pts[order[a]] >= pts[order[b]]
  }

  /** Equal points keep the order the teams were entered in. */
  predicate TiesInInputOrder(order: seq<nat>, pts: seq<int>)
    requires forall a :: 0 <= a < |order| ==> order[a] < |pts|
  {
    forall a, b :: 0 <= a < b < |order| && pts[order[a]] == pts[order[b]] ==> order[a] < order[b]
  }

  /** The first position, from a on, whose team has fewer than v points. */
  function FirstBelow(order: seq<nat>, pts: seq<int>, v: int, a: nat): (p: nat)
    requires a <= |order| && forall b :: 0 <= b < |order| ==> order[b] < |pts|
    ensures a <= p <= |order|
    ensures forall b :: a <= b < p ==> pts[order[b]] >= v
    ensures p < |order| ==> pts[order[p]] < v
    decreases |order| - a
  {
    if a == |order| || pts[order[a]] < v then a else FirstBelow(order, pts, v, a + 1)
  }

  /** Putting i at position p shifts the later entries one place on and
      keeps every element. */
  lemma Splice(o: seq<nat>, p: nat, i: nat)
    requires p <= |o|
    ensures var r := o[..p] + [i] + o[p..];
      |r| == |o| + 1 && r[p] == i
      && (forall a :: 0 <= a < p ==> r[a] == o[a])
      && (forall a :: p < a < |r| ==> r[a] == o[a - 1])
      && (forall x :: x in r <==> x == i || x in o)
  {
    var r := o[..p] + [i] + o[p..];
    assert forall a :: 0 <= a < |r| ==> r[a] == (if a < p then o[a] else if a == p then i else o[a - 1]);
    forall x | x in o
      ensures x in r
    {
      var b :| 0 <= b < |o| && o[b] == x;
      assert r[if b < p then b else b + 1] == x;
    }
  }

  /** Inserts index i after every entry with at least its points. */
  function InsertDesc(order: seq<nat>, i: nat, pts: seq<int>): (r: seq<nat>)
    requires i < |pts| && forall a :: 0 <= a < |order| ==> order[a] < |pts|
    ensures |r| == |order| + 1
    ensures forall x :: x in r <==> x == i || x in order
  {
    var p := FirstBelow(order, pts, pts[i], 0);
    Splice(order, p, i);
    order[..p] + [i] + order[p..]
  }

  /** Indices 0..k-1 inserted one after another: the stable descending sort
      of the first k teams. */
  function OrderDesc(pts: seq<int>, k: nat): (r: seq<nat>)
    requires k <= |pts|
    ensures |r| == k
    ensures forall x: nat :: x in r <==> x < k
    ensures forall a :: 0 <= a < |r| ==> r[a] < k
  {
    if k == 0 then []
    else
      var r := InsertDesc(OrderDesc(pts, k - 1), k - 1, pts);
      assert forall a :: 0 <= a < |r| ==> r[a] < k by {
        forall a | 0 <= a < |r| ensures r[a] < k { assert r[a] in r; }
      }
      r
  }

  /** sorted(points.items(), key=lambda x: x[1], reverse=True), as indices. */
  function Ranking(pts: seq<int>): seq<nat>
  {
    OrderDesc(pts, |pts|)
  }

  /** Inserting a new, larger index after its equals keeps a stable
      descending sort stable and descending. */
  lemma InsertDescKeepsOrder(order: seq<nat>, i: nat, pts: seq<int>)
    requires i < |pts| && forall a :: 0 <= a < |order| ==> order[a] < i
    requires forall a, b :: 0 <= a < b < |order| ==> order[a] != order[b]
    requires Descending(order, pts) && TiesInInputOrder(order, pts)
    ensures var r := InsertDesc(order, i, pts);
      (forall a, b :: 0 <= a < b < |r| ==> r[a] != r[b]) && Descending(r, pts) && TiesInInputOrder(r, pts)
  {
    var p := FirstBelow(order, pts, pts[i], 0);
    var r := InsertDesc(order, i, pts);
    Splice(order, p, i);
    forall a, b | 0 <= a < b < |r|
      ensures r[a] != r[b] && pts[r[a]] >= pts[r[b]] && (pts[r[a]] == pts[r[b]] ==> r[a] < r[b])
    {
      if b < p {
        assert r[a] == order[a] && r[b] == order[b];
      } else if b == p {
        assert r[a] == order[a] && pts[order[a]] >= pts[i];
      } else if a == p {
        assert r[b] == order[b - 1];
        assert pts[order[p]] >= pts[order[b - 1]];
      } else if a < p {
        assert r[a] == order[a] && r[b] == order[b - 1];
      } else {
        assert r[a] == order[a - 1] && r[b] == order[b - 1];
      }
    }
  }

  /** A stable descending sort of the first k teams. */
  predicate SortedFirst(o: seq<nat>, pts: seq<int>, k: nat)
    requires k <= |pts|
  {
    IsPermutation(o, k) && Descending(o, pts) && TiesInInputOrder(o, pts)
  }

  /** Inserting team k - 1 into a stable descending sort of the first
      k - 1 teams sorts the first k. */
  lemma InsertSorted(o: seq<nat>, pts: seq<int>, k: nat)
    requires 0 < k <= |pts| && SortedFirst(o, pts, k - 1)
    ensures SortedFirst(InsertDesc(o, k - 1, pts), pts, k)
  {
    InsertDescKeepsOrder(o, k - 1, pts);
    var r := InsertDesc(o, k - 1, pts);
    forall a | 0 <= a < |r| ensures r[a] < k { assert r[a] in r; }
    assert forall x :: 0 <= x < k ==> x in r;
  }

  /** The ranking is a stable descending sort: a permutation of the teams,
      points never increasing, equal points in input order. */
  lemma {:induction false} OrderDescSorted(pts: seq<int>, k: nat)
    requires k <= |pts|
    ensures SortedFirst(OrderDesc(pts, k), pts, k)
  {
    if k > 0 {
      OrderDescSorted(pts, k - 1);
      InsertSorted(OrderDesc(pts, k - 1), pts, k);
    }
  }

  lemma RankingSorted(pts: seq<int>)
    ensures IsPermutation(Ranking(pts), |pts|)
    ensures Descending(Ranking(pts), pts) && TiesInInputOrder(Ranking(pts), pts)
  {
    OrderDescSorted(pts, |pts|);
  }

  /** The largest entry of a non-empty sequence. */
  function Max(s: seq<int>): (m: int)
    requires |s| > 0
    ensures forall i :: 0 <= i < |s| ==> s[i] <= m
    ensures exists i :: 0 <= i < |s| && s[i] == m
  {
    if |s| == 1 then s[0]
    else
      var m := Max(s[..|s| - 1]);
      assert forall i :: 0 <= i < |s| - 1 ==> s[..|s| - 1][i] == s[i];
      if s[|s| - 1] > m then s[|s| - 1] else m
  }

  /** The team ranked first has the most points: sorted_teams[0][1] is the
      maximum. */
  lemma TopIsMax(pts: seq<int>)
    requires |pts| > 0
    ensures Ranking(pts)[0] < |pts| && pts[Ranking(pts)[0]] == Max(pts)
  {
    RankingSorted(pts);
    var order := Ranking(pts);
    var i :| 0 <= i < |pts| && pts[i] == Max(pts);
    assert i in order;
    var a :| 0 <= a < |order| && order[a] == i;
    if a > 0 {
      assert pts[order[0]] >= pts[order[a]];
    }
  }

  /** Number of leading positions, from a on, whose points equal top. */
  function LeadFrom(order: seq<nat>, pts: seq<int>, top: int, a: nat): (k: nat)
    requires a <= |order| && forall b :: 0 <= b < |order| ==> order[b] < |pts|
    ensures a <= k <= |order|
    ensures forall b :: a <= b < k ==> pts[order[b]] == top
    ensures k < |order| ==> pts[order[k]] != top
    decreases |order| - a
  {
    if a == |order| || pts[order[a]] != top then a else LeadFrom(order, pts, top, a + 1)
  }

  /** How many teams share first place: the length of the run of teams at the
      top score at the head of the ranking. */
  function Lead(pts: seq<int>): (k: nat)
    requires |pts| > 0
  {
    LeadFrom(Ranking(pts), pts, pts[Ranking(pts)[0]], 0)
  }

  /** In a descending order the run level with the first place is exactly
      the places holding the top score. */
  lemma LeadFromRun(order: seq<nat>, pts: seq<int>)
    requires |order| > 0 && forall a :: 0 <= a < |order| ==> order[a] < |pts|
    requires Descending(order, pts)
    ensures var k := LeadFrom(order, pts, pts[order[0]], 0);
      1 <= k && forall a :: 0 <= a < |order| ==> (a < k <==> pts[order[a]] == pts[order[0]])
  {
    var top := pts[order[0]];
    var k := LeadFrom(order, pts, top, 0);
    forall a | 0 <= a < |order| && k <= a
      ensures pts[order[a]] != top
    {
      assert pts[order[k]] != top && pts[order[0]] >= pts[order[k]] >= pts[order[a]];
    }
  }

  /** Exactly the teams on the maximum are in the leading run, and at least
      one team is. */
  lemma LeadIsMaxTies(pts: seq<int>)
    requires |pts| > 0
    ensures 1 <= Lead(pts) <= |pts|
    ensures forall a :: 0 <= a < |pts| ==> Ranking(pts)[a] < |pts|
    ensures forall a :: 0 <= a < |pts| ==> (a < Lead(pts) <==> pts[Ranking(pts)[a]] == Max(pts))
  {
    RankingSorted(pts);
    TopIsMax(pts);
    LeadFromRun(Ranking(pts), pts);
  }

  /** The place (0-based) of team i in an order, searching from a on; |order|
      when it is absent. */
  function PosFrom(order: seq<nat>, i: nat, a: nat): (p: nat)
    requires a <= |order|
    ensures a <= p <= |order|
    ensures p < |order| ==> order[p] == i
    ensures forall b :: a <= b < p ==> order[b] != i
    decreases |order| - a
  {
    if a == |order| || order[a] == i then a else PosFrom(order, i, a + 1)
  }

  function Pos(order: seq<nat>, i: nat): nat
  {
    PosFrom(order, i, 0)
  }

  /** In a permutation every team has a place, and the team at place a has
      place a. */
  lemma PosInPermutation(order: seq<nat>, n: nat)
    requires IsPermutation(order, n)
    ensures forall i :: 0 <= i < n ==> Pos(order, i) < n && order[Pos(order, i)] == i
    ensures forall a :: 0 <= a < n ==> Pos(order, order[a]) == a
  {
    forall i | 0 <= i < n
      ensures Pos(order, i) < n
    {
      assert i in order;
      var b :| 0 <= b < |order| && order[b] == i;
    }
  }

  /** The first lead places, and no others, are level with the first. */
  predicate LeadingRun(order: seq<nat>, pts: seq<int>, lead: nat)
    requires forall a :: 0 <= a < |order| ==> order[a] < |pts|
  {
    1 <= lead <= |order|
    && forall a :: 0 <= a < |order| ==> (a < lead <==> pts[order[a]] == pts[order[0]])
  }

  /** What the crediting loops need about one trial's ranking: it is a
      permutation, and the places level with the first are exactly the
      leading run. */
  lemma RankingFacts(pts: seq<int>)
    requires |pts| > 0
    ensures IsPermutation(Ranking(pts), |pts|)
    ensures LeadingRun(Ranking(pts), pts, Lead(pts))
  {
    RankingSorted(pts);
    LeadIsMaxTies(pts);
    TopIsMax(pts);
  }
}
