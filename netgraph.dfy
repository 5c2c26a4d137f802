/** The connectivity of a board net segment: netpoints joined by netlines, and
    netpoints joined by sharing a via. The traversal is the recursive search of
    BI_NetSegment::findAllConnectedNetPoints; the check is
    BI_NetSegment::areAllNetPointsConnectedTogether. */
module NetGraph {
  import opened Results
  import opened Seqs

  /** The netpoints of a segment in list order, the endpoints of each of its
      netlines, and the via each netpoint is attached to (None when it is not). */
  datatype Graph<!P, V> = Graph(points: seq<P>, lines: seq<(P, P)>, viaOf: P -> Option<V>)

  /** BI_NetLine::getOtherPoint: the opposite endpoint, or None for a point the line does not touch. */
  function OtherPoint<P(==)>(line: (P, P), p: P): (r: Option<P>)
    ensures r.Some? <==> p == line.0 || p == line.1
    ensures r.Some? ==> (p == line.0 && r.value == line.1) || (p != line.0 && p == line.1 && r.value == line.0)
  {
    if p == line.0 then Some(line.1) else if p == line.1 then Some(line.0) else None
  }

  /** `q` is a listed netpoint attached to the same via as `p`. */
  ghost predicate ViaNeighbour<P, V>(g: Graph<P, V>, p: P, q: P) {
    g.viaOf(p).Some? && q in g.points && g.viaOf(q) == g.viaOf(p)
  }

  /** Some netline of the segment leads from `p` to `q`. */
  ghost predicate LineNeighbour<P, V>(g: Graph<P, V>, p: P, q: P) {
    exists i :: 0 <= i < |g.lines| && OtherPoint(g.lines[i], p) == Some(q)
  }

  /** The steps the traversal takes from `p`. */
  ghost predicate Adjacent<P, V>(g: Graph<P, V>, p: P, q: P) {
    ViaNeighbour(g, p, q) || LineNeighbour(g, p, q)
  }

  /** Every netpoint the traversal can name: the listed ones and the netline endpoints. */
  ghost function Universe<P, V>(g: Graph<P, V>): set<P> {
    (set p | p in g.points) + (set i | 0 <= i < |g.lines| :: g.lines[i].0) + (set i | 0 <= i < |g.lines| :: g.lines[i].1)
  }

  lemma AdjacentInUniverse<P, V>(g: Graph<P, V>, p: P, q: P)
    requires Adjacent(g, p, q)
    ensures q in Universe(g)
  {
    if !ViaNeighbour(g, p, q) {
      var i :| 0 <= i < |g.lines| && OtherPoint(g.lines[i], p) == Some(q);
      assert q == g.lines[i].0 || q == g.lines[i].1;
    }
  }

  /** The netpoints reachable from `a` in at most `n` steps of the traversal. */
  ghost function ReachWithin<P, V>(g: Graph<P, V>, a: P, n: nat): set<P> {
    if n == 0 then {a}
    else
      var prev := ReachWithin(g, a, n - 1);
      prev + Next(g, prev)
  }

  /** The netpoints one step away from a member of `from`. */
  ghost function Next<P, V>(g: Graph<P, V>, from: set<P>): set<P> {
    set x, q | x in from && q in Universe(g) && Adjacent(g, x, q) :: q
  }

  /** `b` can be reached from `a` by steps of the traversal. */
  ghost predicate Reaches<P, V>(g: Graph<P, V>, a: P, b: P) {
    exists n: nat :: b in ReachWithin(g, a, n)
  }

  lemma ReachesItself<P, V>(g: Graph<P, V>, a: P)
    ensures Reaches(g, a, a)
  {
    assert a in ReachWithin(g, a, 0);
  }

  lemma {:induction false} ReachWithinMonotone<P, V>(g: Graph<P, V>, a: P, m: nat, n: nat)
    requires m <= n
    ensures ReachWithin(g, a, m) <= ReachWithin(g, a, n)
    decreases n
  {
    if m < n {
      ReachWithinMonotone(g, a, m, n - 1);
      assert ReachWithin(g, a, n) == ReachWithin(g, a, n - 1) + Next(g, ReachWithin(g, a, n - 1));
    }
  }

  lemma {:induction false} ReachWithinShift<P, V>(g: Graph<P, V>, a: P, b: P, n: nat)
    requires Adjacent(g, a, b)
    ensures ReachWithin(g, b, n) <= ReachWithin(g, a, n + 1)
  {
    if n == 0 {
      AdjacentInUniverse(g, a, b);
      assert a in ReachWithin(g, a, 0);
    } else {
      ReachWithinShift(g, a, b, n - 1);
      var prevB := ReachWithin(g, b, n - 1);
      var prevA := ReachWithin(g, a, n);
      forall q | q in ReachWithin(g, b, n) ensures q in ReachWithin(g, a, n + 1) {
        if q !in prevB {
          assert q in Next(g, prevB);
          var x :| x in prevB && q in Universe(g) && Adjacent(g, x, q);
          assert x in prevA;
          assert q in Next(g, prevA);
        } else {
          ReachWithinMonotone(g, a, n, n + 1);
        }
      }
    }
  }

  lemma ReachesByStep<P, V>(g: Graph<P, V>, a: P, b: P, c: P)
    requires Adjacent(g, a, b) && Reaches(g, b, c)
    ensures Reaches(g, a, c)
  {
    var n: nat :| c in ReachWithin(g, b, n);
    ReachWithinShift(g, a, b, n);
    assert c in ReachWithin(g, a, n + 1);
  }

  /** A set that holds `a` and every step out of its members holds everything `a` reaches. */
  lemma ClosedContainsReach<P, V>(g: Graph<P, V>, s: set<P>, a: P, b: P)
    requires a in s
    requires forall x, q :: x in s && Adjacent(g, x, q) ==> q in s
    requires Reaches(g, a, b)
    ensures b in s
  {
    var n: nat :| b in ReachWithin(g, a, n);
    ClosedContainsWithin(g, s, a, n);
  }

  lemma {:induction false} ClosedContainsWithin<P, V>(g: Graph<P, V>, s: set<P>, a: P, n: nat)
    requires a in s
    requires forall x, q :: x in s && Adjacent(g, x, q) ==> q in s
    ensures ReachWithin(g, a, n) <= s
  {
    if n > 0 { ClosedContainsWithin(g, s, a, n - 1); }
  }

  ghost function ReachSet<P, V>(g: Graph<P, V>, a: P): set<P> {
    set q | q in Universe(g) && Reaches(g, a, q)
  }

  /** The state of a traversal from `p` that started with `visited`: `r` extends
      `visited` without duplicates, everything it added is reachable from `p`, and
      every step out of an added netpoint stays inside `r`. */
  ghost predicate Explored<P, V>(g: Graph<P, V>, p: P, visited: seq<P>, r: seq<P>) {
    |visited| <= |r| && r[..|visited|] == visited
    && NoDup(r) && (forall x :: x in r ==> x in Universe(g))
    && (forall k :: |visited| <= k < |r| ==> Reaches(g, p, r[k]))
    && (forall k, q :: |visited| <= k < |r| && q in Universe(g) && Adjacent(g, r[k], q) ==> q in r)
  }

  lemma ExploredStart<P, V>(g: Graph<P, V>, p: P, visited: seq<P>)
    requires NoDup(visited) && forall x :: x in visited ==> x in Universe(g)
    ensures Explored(g, p, visited, visited)
  {
    assert visited[..|visited|] == visited;
  }

  /** Visiting an unvisited neighbour `np` of `p` and everything the recursive
      search finds from it keeps the traversal state of `p`. */
  lemma ExploredStep<P, V>(g: Graph<P, V>, p: P, visited: seq<P>, r: seq<P>, np: P, r2: seq<P>)
    requires Explored(g, p, visited, r)
    requires Adjacent(g, p, np) && np !in r
    requires Explored(g, np, r + [np], r2)
    requires forall q :: Adjacent(g, np, q) ==> q in r2
    ensures Explored(g, p, visited, r2)
    ensures forall x :: x in r ==> x in r2
    ensures np in r2
  {
    var r1 := r + [np];
    assert r2[..|r1|] == r1;
    assert |r1| == |r| + 1;
    assert r2[..|visited|] == r1[..|visited|] == visited;
    forall x | x in r1 ensures x in r2 {
      var k :| 0 <= k < |r1| && r1[k] == x;
      assert r2[k] == x;
    }
    forall k | |visited| <= k < |r2| ensures Reaches(g, p, r2[k]) {
      if k < |r| {
        assert r2[k] == r[k];
      } else if k == |r| {
        assert r2[k] == np;
        ReachesItself(g, np);
        ReachesByStep(g, p, np, np);
      } else {
        ReachesByStep(g, p, np, r2[k]);
      }
    }
    forall k, q | |visited| <= k < |r2| && q in Universe(g) && Adjacent(g, r2[k], q) ensures q in r2 {
      if k < |r| {
        assert r2[k] == r[k];
        assert q in r;
      }
    }
  }

  /** BI_NetSegment::findAllConnectedNetPoints: appends to `visited` every netpoint
      reachable from `p` that it does not hold yet. */
  method FindAllConnected<P(==), V(==)>(g: Graph<P, V>, p: P, visited: seq<P>) returns (r: seq<P>)
    requires p in visited && NoDup(visited)
    requires forall x :: x in visited ==> x in Universe(g)
    ensures Explored(g, p, visited, r)
    ensures forall q :: Adjacent(g, p, q) ==> q in r
    decreases |Universe(g)| - |visited|
  {
    NoDupBounded(visited, Universe(g));
    ExploredStart(g, p, visited);
    r := visited;
    if g.viaOf(p).Some? {
      for i := 0 to |g.points|
        invariant Explored(g, p, visited, r)
        invariant forall j :: 0 <= j < i && ViaNeighbour(g, p, g.points[j]) ==> g.points[j] in r
      {
        var np := g.points[i];
        if g.viaOf(np) == g.viaOf(p) && np !in r {
          assert ViaNeighbour(g, p, np);
          AdjacentInUniverse(g, p, np);
          ExploredAppend(g, r, np);
          var r2 := FindAllConnected(g, np, r + [np]);
          ExploredStep(g, p, visited, r, np, r2);
          r := r2;
        }
      }
    }
    assert forall q :: ViaNeighbour(g, p, q) ==> q in r;
    for i := 0 to |g.lines|
      invariant Explored(g, p, visited, r)
      invariant forall q :: ViaNeighbour(g, p, q) ==> q in r
      invariant forall j, q :: 0 <= j < i && OtherPoint(g.lines[j], p) == Some(q) ==> q in r
    {
      var other := OtherPoint(g.lines[i], p);
      if other.Some? && other.value !in r {
        var np := other.value;
        assert LineNeighbour(g, p, np);
        AdjacentInUniverse(g, p, np);
        ExploredAppend(g, r, np);
        var r2 := FindAllConnected(g, np, r + [np]);
        ExploredStep(g, p, visited, r, np, r2);
        r := r2;
      }
    }
  }

  lemma ExploredAppend<P, V>(g: Graph<P, V>, r: seq<P>, np: P)
    requires NoDup(r) && (forall x :: x in r ==> x in Universe(g))
    requires np !in r && np in Universe(g)
    ensures NoDup(r + [np]) && (forall x :: x in r + [np] ==> x in Universe(g))
    ensures |r + [np]| <= |Universe(g)|
  {
    NoDupBounded(r + [np], Universe(g));
  }

  /** What areAllNetPointsConnectedTogether computes: true for at most one netpoint,
      otherwise whether the search from the first netpoint visits as many
      netpoints as the segment lists. */
  ghost predicate CountCheck<P, V>(g: Graph<P, V>) {
    |g.points| <= 1 || |ReachSet(g, g.points[0])| == |g.points|
  }

  /** The cohesion the segment promises: every listed netpoint is reachable from the first. */
  ghost predicate AllReachable<P, V>(g: Graph<P, V>) {
    |g.points| <= 1 || forall q :: q in g.points ==> Reaches(g, g.points[0], q)
  }

  /** Every netline endpoint is a listed netpoint. */
  ghost predicate WellFormed<P, V>(g: Graph<P, V>) {
    forall i :: 0 <= i < |g.lines| ==> g.lines[i].0 in g.points && g.lines[i].1 in g.points
  }

  /** The search from the first netpoint visits exactly the netpoints it reaches. */
  lemma SearchVisitsReachSet<P, V>(g: Graph<P, V>, first: P, r: seq<P>)
    requires first in Universe(g)
    requires Explored(g, first, [first], r)
    requires forall q :: Adjacent(g, first, q) ==> q in r
    ensures (set x | x in r) == ReachSet(g, first)
  {
    assert r[0] == first;
    forall x | x in r ensures x in ReachSet(g, first) {
      var k :| 0 <= k < |r| && r[k] == x;
      if k == 0 { ReachesItself(g, first); }
    }
    var s := set x | x in r;
    forall x, q | x in s && Adjacent(g, x, q) ensures q in s {
      var k :| 0 <= k < |r| && r[k] == x;
      AdjacentInUniverse(g, x, q);
    }
    forall q | q in ReachSet(g, first) ensures q in s {
      ClosedContainsReach(g, s, first, q);
    }
  }

  /** areAllNetPointsConnectedTogether. */
  method AreAllConnected<P(==), V(==)>(g: Graph<P, V>) returns (b: bool)
    ensures b == CountCheck(g)
  {
    if |g.points| > 1 {
      var first := g.points[0];
      var r := FindAllConnected(g, first, [first]);
      SearchVisitsReachSet(g, first, r);
      NoDupCardinality(r);
      b := |r| == |g.points|;
    } else {
      b := true;
    }
  }

  lemma SubsetEqualSize<T>(a: set<T>, b: set<T>)
    requires a <= b && |a| == |b|
    ensures a == b
  {
    assert |b - a| == |b| - |a|;
  }

  /** When every netline endpoint is listed, the count comparison is exactly
      "every netpoint is reachable from the first one". */
  lemma CountCheckIsCohesion<P, V>(g: Graph<P, V>)
    requires WellFormed(g) && NoDup(g.points)
    ensures CountCheck(g) <==> AllReachable(g)
  {
    if |g.points| > 1 {
      var pts := set p | p in g.points;
      assert Universe(g) == pts;
      var rs := ReachSet(g, g.points[0]);
      NoDupCardinality(g.points);
      SubsetCardinality(rs, pts);
      if CountCheck(g) {
        SubsetEqualSize(rs, pts);
        assert forall q :: q in g.points ==> q in rs;
      }
      if AllReachable(g) {
        assert rs == pts;
      }
    }
  }

  /** A netline endpoint that is not listed counts as visited: two listed
      netpoints of which the second is unreachable pass the count comparison. */
  lemma DanglingEndpointPassesCountCheck()
    ensures var g := Graph([1, 2], [(1, 3)], (p: int) => None);
      CountCheck<int, int>(g) && !AllReachable<int, int>(g)
  {
    var g: Graph<int, int> := Graph([1, 2], [(1, 3)], (p: int) => None);
    var s := {1, 3};
    forall x, q | x in s && Adjacent<int, int>(g, x, q) ensures q in s {
      var i :| 0 <= i < |g.lines| && OtherPoint(g.lines[i], x) == Some(q);
      assert i == 0;
    }
    assert !Reaches(g, 1, 2) by {
      if Reaches(g, 1, 2) { ClosedContainsReach(g, s, 1, 2); }
    }
    ReachesItself(g, 1);
    assert Adjacent(g, 1, 3) by { assert OtherPoint(g.lines[0], 1) == Some(3); }
    ReachesItself(g, 3);
    ReachesByStep(g, 1, 3, 3);
    assert Universe(g) == {1, 2, 3};
    assert ReachSet(g, 1) == {1, 3};
  }

  /** A chain of three netpoints joined by two netlines is cohesive; without the
      second netline the third netpoint is cut off. */
  lemma ChainCohesion()
    ensures AllReachable<int, int>(Graph([1, 2, 3], [(1, 2), (2, 3)], (p: int) => None))
    ensures !AllReachable<int, int>(Graph([1, 2, 3], [(1, 2)], (p: int) => None))
  {
    var g: Graph<int, int> := Graph([1, 2, 3], [(1, 2), (2, 3)], (p: int) => None);
    assert OtherPoint(g.lines[0], 1) == Some(2) && OtherPoint(g.lines[1], 2) == Some(3);
    ReachesItself(g, 1);
    ReachesItself(g, 3);
    ReachesByStep(g, 2, 3, 3);
    ReachesByStep(g, 1, 2, 3);
    ReachesItself(g, 2);
    ReachesByStep(g, 1, 2, 2);
    var h: Graph<int, int> := Graph([1, 2, 3], [(1, 2)], (p: int) => None);
    var s := {1, 2};
    forall x, q | x in s && Adjacent<int, int>(h, x, q) ensures q in s {
      var i :| 0 <= i < |h.lines| && OtherPoint(h.lines[i], x) == Some(q);
      assert i == 0;
    }
    if Reaches(h, 1, 3) { ClosedContainsReach(h, s, 1, 3); }
  }
}
