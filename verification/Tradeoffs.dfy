// Why the searches are what they claim: the straight-line heuristic is
// consistent (pyref/costs.py), and what lambda and the avoid surcharge trade.
module Tradeoffs {
  import opened Topology
  import opened Search
  import opened Optimality
  import opened Routes
  import opened Alternatives

  // ------------------------------------------------------------ heuristic

  // Edges as the cost model sees them. Points stand for places; `dist` for
  // the great-circle distance.
  datatype Roads = Roads(topo: Topo, tail: seq<int>, head: seq<int>, length: seq<real>,
                         speed: seq<real>, speedMult: seq<real>, vMax: real, dist: (int, int) -> real) {
    ghost predicate Valid() {
      && topo.Valid()
      && |tail| == |head| == |length| == |speed| == |speedMult| == topo.Edges()
      && (forall t :: 0 <= t < topo.Turns() ==> tail[topo.outEdge[t]] == head[topo.inEdge[t]])
      && (forall e :: 0 <= e < topo.Edges() ==> Edge(e))
      && (forall x, y, z :: Triangle(x, y, z))
    }

    // No edge is faster than vMax, sped up by traffic, or shorter than the
    // straight line between its ends.
    ghost predicate Edge(e: nat)
      requires |tail| == |head| == |length| == |speed| == |speedMult| && e < |tail|
    {
      && 0.0 < speed[e] <= vMax && 0.0 < speedMult[e] <= 1.0
      && 0.0 <= dist(tail[e], head[e]) <= length[e]
    }

    ghost predicate Triangle(x: int, y: int, z: int) {
      dist(x, z) <= dist(x, y) + dist(y, z)
    }

    // edge_time_s at one departure: congestion only slows an edge down.
    function EdgeTime(e: nat): real
      requires Valid() && e < topo.Edges()
    {
      length[e] / Speed(e)
    }

    function Speed(e: nat): (v: real)
      requires Valid() && e < topo.Edges()
      ensures 0.0 < v <= vMax
    {
      assert Edge(e);
      Slowed(speed[e], speedMult[e])
    }

    // Straight-line time to the destination at the fastest free-flow speed.
    function Heuristic(dest: int): (h: seq<real>)
      requires Valid()
    {
      seq(topo.Edges(), e requires 0 <= e < topo.Edges() => if vMax != 0.0 then dist(head[e], dest) / vMax else 0.0)
    }
  }

  function Slowed(s: real, m: real): (v: real)
    requires 0.0 < s && 0.0 < m <= 1.0
    ensures 0.0 < v <= s
  {
    s * m
  }

  lemma Slower(d: real, length: real, v: real, w: real)
    requires 0.0 <= d <= length && 0.0 < w <= v
    ensures d / v <= length / w
  {
    var x, y := d / v, length / w;
    assert x * v == d && y * w == length;
    assert x < 0.0 ==> x * v < 0.0;
    assert x * w <= x * v;
    assert (y - x) * w == y * w - x * w;
    assert y - x < 0.0 ==> (y - x) * w < 0.0;
  }

  // The heuristic never drops by more than the turn's time, so it is
  // consistent for the time array, and (Alternatives.StaysConsistent) for
  // every array the sweep derives from it.
  lemma HeuristicConsistent(r: Roads, q: Query, dest: int)
    requires r.Valid() && q.topo == r.topo && q.h == Some(r.Heuristic(dest)) && q.Valid()
    requires forall t :: 0 <= t < q.topo.Turns() ==> q.arc[t] >= r.EdgeTime(q.topo.outEdge[t])
    ensures Consistent(q)
  {
    forall t | 0 <= t < q.topo.Turns() && q.topo.allowed[t]
      ensures q.H(q.topo.inEdge[t]) <= q.arc[t] + q.H(q.topo.outEdge[t]) {
      TurnConsistent(r, q.topo.inEdge[t], q.topo.outEdge[t], dest);
    }
  }

  lemma TurnConsistent(r: Roads, i: nat, o: nat, dest: int)
    requires r.Valid() && i < r.topo.Edges() && o < r.topo.Edges() && r.tail[o] == r.head[i]
    ensures r.Heuristic(dest)[i] <= r.EdgeTime(o) + r.Heuristic(dest)[o]
  {
    hide Roads.EdgeTime, Roads.Heuristic;
    StraightIsFaster(r, o);
    assert r.Triangle(r.head[i], r.head[o], dest);
    Halves(r.dist(r.head[i], dest), r.dist(r.tail[o], r.head[o]), r.dist(r.head[o], dest), r.vMax);
    HeuristicAt(r, i, dest);
    HeuristicAt(r, o, dest);
  }

  lemma HeuristicAt(r: Roads, e: nat, dest: int)
    requires r.Valid() && e < r.topo.Edges()
    ensures 0.0 < r.vMax && r.Heuristic(dest)[e] == r.dist(r.head[e], dest) / r.vMax
  {
    assert r.Edge(e);
  }

  lemma StraightIsFaster(r: Roads, e: nat)
    requires r.Valid() && e < r.topo.Edges()
    ensures 0.0 < r.vMax && r.dist(r.tail[e], r.head[e]) / r.vMax <= r.EdgeTime(e)
  {
    hide Roads.Speed;
    assert r.Edge(e);
    Slower(r.dist(r.tail[e], r.head[e]), r.length[e], r.vMax, r.Speed(e));
  }

  lemma Halves(here: real, step: real, there: real, v: real)
    requires 0.0 < v && here <= step + there
    ensures here / v <= step / v + there / v
  {
    var a, b, c := here / v, step / v, there / v;
    assert a * v == here && b * v == step && c * v == there;
    assert (b + c - a) * v == b * v + c * v - a * v;
    assert b + c - a < 0.0 ==> (b + c - a) * v < 0.0;
  }

  // ------------------------------------------------------------ exchange

  lemma {:induction false} LambdaSum(p: Problem, lam: real, turns: seq<nat>)
    requires p.Valid() && InRange(p.q.topo, turns)
    ensures Sum(ArcCost(p, lam), turns) == Sum(p.q.arc, turns) + lam * Sum(p.penalty, turns)
  {
    if turns != [] {
      var before, t := turns[..|turns| - 1], turns[|turns| - 1];
      LambdaSum(p, lam, before);
      assert lam * (Sum(p.penalty, before) + p.penalty[t]) == lam * Sum(p.penalty, before) + lam * p.penalty[t];
    }
  }

  lemma AvoidTurn(p: Problem, lam: real, t: nat)
    requires p.Valid() && t < p.q.topo.Turns()
    ensures |AvoidCost(p, lam)| == |ArcCost(p, lam)| == |p.flagged| == p.q.topo.Turns()
    ensures AvoidCost(p, lam)[t] == ArcCost(p, lam)[t] + if p.flagged[t] then p.cfg.surcharge else 0.0
  {
  }

  lemma {:induction false} SumLast(w: seq<real>, turns: seq<nat>)
    requires turns != [] && forall i :: 0 <= i < |turns| ==> turns[i] < |w|
    ensures Sum(w, turns) == Sum(w, turns[..|turns| - 1]) + w[turns[|turns| - 1]]
  {
  }

  lemma {:induction false} FlaggedLast(flagged: seq<bool>, turns: seq<nat>)
    requires turns != [] && forall i :: 0 <= i < |turns| ==> turns[i] < |flagged|
    ensures Flagged(flagged, turns)
         == Flagged(flagged, turns[..|turns| - 1]) + if flagged[turns[|turns| - 1]] then 1 else 0
  {
  }

  lemma {:induction false} AvoidSum(p: Problem, lam: real, turns: seq<nat>)
    requires p.Valid() && InRange(p.q.topo, turns)
    ensures Sum(AvoidCost(p, lam), turns)
         == Sum(ArcCost(p, lam), turns) + p.cfg.surcharge * Flagged(p.flagged, turns) as real
  {
    hide *;
    ArraySizes(p, lam);
    if turns == [] {
      EmptySums(AvoidCost(p, lam), ArcCost(p, lam), p.flagged);
    } else {
      var before, t := turns[..|turns| - 1], turns[|turns| - 1];
      InRangeBefore(p.q.topo, turns);
      AvoidSum(p, lam, before);
      AvoidTurn(p, lam, t);
      SumLast(AvoidCost(p, lam), turns);
      SumLast(ArcCost(p, lam), turns);
      FlaggedLast(p.flagged, turns);
      OneMore(p.cfg.surcharge, Flagged(p.flagged, before));
    }
  }

  lemma ArraySizes(p: Problem, lam: real)
    requires p.Valid()
    ensures |p.penalty| == |p.q.arc| == |p.flagged| == p.q.topo.Turns()
    ensures |AvoidCost(p, lam)| == |ArcCost(p, lam)| == p.q.topo.Turns()
  {
  }

  lemma InRangeBefore(topo: Topo, turns: seq<nat>)
    requires InRange(topo, turns) && turns != []
    ensures InRange(topo, turns[..|turns| - 1]) && turns[|turns| - 1] < topo.Turns()
    ensures forall k :: 0 <= k < |turns| ==> turns[k] < topo.Turns()
  {
  }

  lemma {:induction false} EmptySums(w: seq<real>, v: seq<real>, flagged: seq<bool>)
    ensures Sum(w, []) == 0.0 && Sum(v, []) == 0.0 && Flagged(flagged, []) == 0
  {
  }

  lemma OneMore(c: real, n: nat)
    ensures c * (n + 1) as real == c * n as real + c
  {
  }

  // A path's cost at lambda: its travel time plus lambda times its penalty.
  function LambdaCost(p: Problem, lam: real, r: PathResult): real
    requires p.Valid() && InRange(p.q.topo, r.turns)
  {
    TravelTime(p, r) + lam * Sum(p.penalty, r.turns)
  }

  lemma PathCost(p: Problem, ac: seq<real>, r: PathResult) returns (i: nat)
    requires p.Valid() && Dominates(p, ac) && IsPath(p, r) && InRange(p.q.topo, r.turns)
    ensures p.q.(arc := ac).Valid() && Route(p.q.(arc := ac), i, r.turns)
    ensures RouteCost(p.q.(arc := ac), i, r.turns) == TravelTime(p, r) - Sum(p.q.arc, r.turns) + Sum(ac, r.turns)
  {
    i :| Route(p.q, i, r.turns) && InRange(p.q.topo, r.turns)
         && p.q.seeds[i].edge == r.first && End(p.q.topo, r.first, r.turns) == r.dest;
    TravelTimeIsCost(p, r, i);
    assert Route(p.q.(arc := ac), i, r.turns);
  }

  // What a search over `ac` found costs no more, over `ac`, than any path.
  lemma {:induction false} NoCheaper(p: Problem, ac: seq<real>, best: PathResult, r: PathResult)
    requires p.Valid() && Dominates(p, ac) && Ran(p, ac, Some(best)) && InRange(p.q.topo, best.turns)
    requires IsPath(p, r) && InRange(p.q.topo, r.turns)
    ensures IsPath(p, best)
    ensures TravelTime(p, best) - Sum(p.q.arc, best.turns) + Sum(ac, best.turns)
         <= TravelTime(p, r) - Sum(p.q.arc, r.turns) + Sum(ac, r.turns)
  {
    var q' := p.q.(arc := ac);
    StaysConsistent(p, ac);
    SearchIsOptimal(q', Some(best));
    RanPath(p, ac, Some(best));
    hide Returns, Consistent, Exact, TravelTime, RouteCost, Sum;
    var i := PathCost(p, ac, r);
    var k: nat :| IsSeedOf(q', k, best);
    BestCost(p, ac, best, k);
  }

  lemma {:induction false} BestCost(p: Problem, ac: seq<real>, best: PathResult, k: nat)
    requires p.Valid() && Dominates(p, ac) && p.q.(arc := ac).Valid() && IsSeedOf(p.q.(arc := ac), k, best)
    ensures InRange(p.q.topo, best.turns)
    ensures best.total == TravelTime(p, best) - Sum(p.q.arc, best.turns) + Sum(ac, best.turns)
  {
    assert Route(p.q, k, best.turns);
    TravelTimeIsCost(p, best, k);
  }

  // The optimum at a lambda: no path has less travel time and lambda times
  // penalty together.
  lemma LambdaIsOptimal(p: Problem, lam: real, best: PathResult, r: PathResult)
    requires p.Valid() && 0.0 <= lam && Ran(p, ArcCost(p, lam), Some(best)) && InRange(p.q.topo, best.turns)
    requires IsPath(p, r) && InRange(p.q.topo, r.turns)
    ensures TravelTime(p, best) + lam * Sum(p.penalty, best.turns) <= TravelTime(p, r) + lam * Sum(p.penalty, r.turns)
  {
    hide Ran, TravelTime, Sum, IsPath;
    ArraysDominate(p, lam, p.q.arc, {});
    NoCheaper(p, ArcCost(p, lam), best, r);
    LambdaSum(p, lam, best.turns);
    LambdaSum(p, lam, r.turns);
  }

  // Raising lambda never buys more penalty and never saves time.
  lemma RaisingLambda(p: Problem, low: real, high: real, r: PathResult, s: PathResult)
    requires p.Valid() && 0.0 <= low < high && InRange(p.q.topo, r.turns) && InRange(p.q.topo, s.turns)
    requires Ran(p, ArcCost(p, low), Some(r)) && Ran(p, ArcCost(p, high), Some(s))
    ensures Sum(p.penalty, s.turns) <= Sum(p.penalty, r.turns)
    ensures TravelTime(p, r) <= TravelTime(p, s)
  {
    hide Ran, TravelTime, Sum, IsPath;
    ArraysDominate(p, low, p.q.arc, {});
    ArraysDominate(p, high, p.q.arc, {});
    RanPath(p, ArcCost(p, low), Some(r));
    RanPath(p, ArcCost(p, high), Some(s));
    NoCheaper(p, ArcCost(p, low), r, s);
    NoCheaper(p, ArcCost(p, high), s, r);
    LambdaSum(p, low, r.turns);
    LambdaSum(p, low, s.turns);
    LambdaSum(p, high, r.turns);
    LambdaSum(p, high, s.turns);
    Exchange(low, high, TravelTime(p, r), Sum(p.penalty, r.turns), TravelTime(p, s), Sum(p.penalty, s.turns));
  }

  lemma Exchange(low: real, high: real, t: real, x: real, t': real, x': real)
    requires 0.0 <= low < high
    requires t + low * x <= t' + low * x'
    requires t' + high * x' <= t + high * x
    ensures x' <= x && t <= t'
  {
    assert (high - low) * (x' - x) == (high * x' - high * x) - (low * x' - low * x);
    assert x' - x > 0.0 ==> (high - low) * (x' - x) > 0.0;
    assert low * (x' - x) == low * x' - low * x;
    assert low * (x - x') >= 0.0;
  }

  // A route with fewer flagged turns than the hard-avoid answer costs at
  // least the surcharge more for each turn it saves, at the same lambda.
  lemma AvoidIsWorthIt(p: Problem, lam: real, best: PathResult, r: PathResult)
    requires p.Valid() && 0.0 <= lam && Ran(p, AvoidCost(p, lam), Some(best)) && InRange(p.q.topo, best.turns)
    requires IsPath(p, r) && InRange(p.q.topo, r.turns)
    ensures LambdaCost(p, lam, best)
              + p.cfg.surcharge * (Flagged(p.flagged, best.turns) as int - Flagged(p.flagged, r.turns) as int) as real
         <= LambdaCost(p, lam, r)
  {
    hide Ran, TravelTime, Sum, IsPath, Flagged;
    ArraysDominate(p, lam, p.q.arc, {});
    NoCheaper(p, AvoidCost(p, lam), best, r);
    AvoidSum(p, lam, best.turns);
    AvoidSum(p, lam, r.turns);
    LambdaSum(p, lam, best.turns);
    LambdaSum(p, lam, r.turns);
    var f: int, g: int, c := Flagged(p.flagged, best.turns), Flagged(p.flagged, r.turns), p.cfg.surcharge;
    assert (f - g) as real == f as real - g as real;
    assert c * (f as real - g as real) == c * f as real - c * g as real;
  }
}
