// The alternatives sweep (pyref/alternatives.py): one search per lambda, a
// hard-avoid attempt in the safe slot, penalty-method reruns until a route
// differs enough from those kept, the detour ceiling, and relabelling.
module Alternatives {
  import opened Topology
  import opened Search
  import opened Parity
  import opened Optimality
  import opened Routes
  import opened Engines
  import opened Termination

  datatype Kind = Fast | Balanced | Safe

  datatype Alternative = Alternative(kind: Kind, lam: real, result: PathResult)

  datatype Config = Config(lambdaFast: real, lambdaBalanced: real, lambdaSafe: real,
                           threshold: real, factor: real, maxReruns: nat, surcharge: real) {
    ghost predicate Valid() {
      0.0 <= lambdaFast <= lambdaBalanced <= lambdaSafe && 1.0 <= factor && 0.0 <= surcharge
    }
  }

  // One query: `q.arc` is the travel time of each turn, `penalty` its safety
  // penalty in seconds, `flagged` whether it counts as unsafe.
  datatype Problem = Problem(q: Query, penalty: seq<real>, flagged: seq<bool>, cfg: Config) {
    ghost predicate Valid() {
      && q.Valid() && Exact(q) && Consistent(q) && cfg.Valid()
      && |penalty| == q.topo.Turns() && |flagged| == q.topo.Turns()
      && (forall t :: 0 <= t < q.topo.Turns() ==> 0.0 <= q.arc[t] && 0.0 <= penalty[t])
      && (forall i, j :: 0 <= i < j < |q.seeds| ==> q.seeds[i].edge != q.seeds[j].edge)
    }
  }

  // ------------------------------------------------------- cost arrays

  // What a search at one lambda adds up.
  function ArcCost(p: Problem, lam: real): (r: seq<real>)
    requires |p.penalty| == |p.q.arc|
  {
    seq(|p.q.arc|, t requires 0 <= t < |p.q.arc| => p.q.arc[t] + lam * p.penalty[t])
  }

  function AvoidCost(p: Problem, lam: real): seq<real>
    requires |p.penalty| == |p.q.arc| == |p.flagged|
  {
    seq(|p.q.arc|, t requires 0 <= t < |p.q.arc| =>
      p.q.arc[t] + lam * p.penalty[t] + if p.flagged[t] then p.cfg.surcharge else 0.0)
  }

  // The penalty method: every turn into a shared edge costs a factor more.
  function Inflate(p: Problem, ac: seq<real>, shared: set<nat>): seq<real>
    requires |ac| == |p.q.topo.outEdge|
  {
    seq(|ac|, t requires 0 <= t < |ac| => if p.q.topo.outEdge[t] in shared then ac[t] * p.cfg.factor else ac[t])
  }

  ghost predicate Dominates(p: Problem, ac: seq<real>) {
    |ac| == |p.q.arc| && forall t :: 0 <= t < |ac| ==> p.q.arc[t] <= ac[t]
  }

  lemma ScaledPenalty(lam: real, x: real)
    requires 0.0 <= lam && 0.0 <= x
    ensures 0.0 <= lam * x
  {
  }

  // Every array the sweep hands to a search stays above the time array, ...
  lemma ArraysDominate(p: Problem, lam: real, ac: seq<real>, shared: set<nat>)
    requires p.Valid() && 0.0 <= lam && Dominates(p, ac)
    ensures Dominates(p, ArcCost(p, lam)) && Dominates(p, AvoidCost(p, lam)) && Dominates(p, Inflate(p, ac, shared))
  {
    forall t | 0 <= t < |p.q.arc| ensures p.q.arc[t] <= ArcCost(p, lam)[t] && p.q.arc[t] <= AvoidCost(p, lam)[t] {
      ScaledPenalty(lam, p.penalty[t]);
    }
    forall t | 0 <= t < |ac| ensures p.q.arc[t] <= Inflate(p, ac, shared)[t] {
      ScaledPenalty(p.cfg.factor - 1.0, ac[t]);
      assert ac[t] * p.cfg.factor == ac[t] + (p.cfg.factor - 1.0) * ac[t];
    }
  }

  // ... so the heuristic that is consistent for time stays consistent.
  lemma StaysConsistent(p: Problem, ac: seq<real>)
    requires p.Valid() && Dominates(p, ac)
    ensures p.q.(arc := ac).Valid() && Exact(p.q.(arc := ac)) && Consistent(p.q.(arc := ac))
  {
    var q' := p.q.(arc := ac);
    assert forall x, y :: q'.plus(x, y) == p.q.plus(x, y);
    forall t | 0 <= t < q'.topo.Turns() && q'.topo.allowed[t]
      ensures q'.H(q'.topo.inEdge[t]) <= q'.arc[t] + q'.H(q'.topo.outEdge[t]) {
      assert p.q.H(p.q.topo.inEdge[t]) <= p.q.arc[t] + p.q.H(p.q.topo.outEdge[t]);
    }
  }

  // --------------------------------------------------------- searches

  // A search over the array ac answers r.
  ghost predicate Ran(p: Problem, ac: seq<real>, r: Option<PathResult>) {
    && p.q.(arc := ac).Valid() && Returns(p.q.(arc := ac), r)
  }

  // `run`: one search.
  method Run(p: Problem, ac: seq<real>) returns (r: Option<PathResult>)
    requires p.Valid() && Dominates(p, ac)
    ensures Ran(p, ac, r)
  {
    StaysConsistent(p, ac);
    ConsistentInflates(p.q.(arc := ac));
    r := ShortestPath(p.q.(arc := ac));
  }

  // r is a walk from a seed to a destination; which array found it no longer
  // matters.
  ghost predicate IsPath(p: Problem, r: PathResult)
    requires p.q.Valid()
  {
    exists i: nat :: Route(p.q, i, r.turns) && InRange(p.q.topo, r.turns)
                && p.q.seeds[i].edge == r.first && End(p.q.topo, r.first, r.turns) == r.dest
  }

  ghost predicate Unreachable(p: Problem)
    requires p.q.Valid()
  {
    forall i, turns :: !Route(p.q, i, turns)
  }

  lemma RanPath(p: Problem, ac: seq<real>, r: Option<PathResult>)
    requires p.Valid() && Dominates(p, ac) && Ran(p, ac, r)
    ensures r.None? <==> Unreachable(p)
    ensures r.Some? ==> IsPath(p, r.value)
  {
    var q' := p.q.(arc := ac);
    StaysConsistent(p, ac);
    SearchIsOptimal(q', r);
    hide Returns, Consistent, Exact;
    assert forall i, turns :: Route(q', i, turns) <==> Route(p.q, i, turns);
    if r.Some? {
      var i :| IsSeedOf(q', i, r.value);
      assert Route(p.q, i, r.value.turns);
    }
  }

  // ------------------------------------------------------ measures of a path

  // travel_time_fn: the seed's share, the turns, and the refund at the end.
  function TravelTime(p: Problem, r: PathResult): real
    requires forall i :: 0 <= i < |r.turns| ==> r.turns[i] < |p.q.arc|
  {
    var seed, dest := Adjust(p.q.seeds, r.first), Adjust(p.q.dests, r.dest);
    (if seed.Some? then seed.value else 0.0) + Sum(p.q.arc, r.turns) + (if dest.Some? then dest.value else 0.0)
  }

  function Flagged(flagged: seq<bool>, turns: seq<nat>): nat
    requires forall i :: 0 <= i < |turns| ==> turns[i] < |flagged|
  {
    if turns == [] then 0
    else Flagged(flagged, turns[..|turns| - 1]) + if flagged[turns[|turns| - 1]] then 1 else 0
  }

  // How many of the turns count as unsafe.
  lemma {:induction false} FlaggedCounts(flagged: seq<bool>, turns: seq<nat>)
    requires forall i :: 0 <= i < |turns| ==> turns[i] < |flagged|
    ensures Flagged(flagged, turns) == |set i | 0 <= i < |turns| && flagged[turns[i]]|
  {
    var here := set i | 0 <= i < |turns| && flagged[turns[i]];
    if turns == [] {
      assert here == {};
    } else {
      var n := |turns| - 1;
      FlaggedCounts(flagged, turns[..n]);
      var before := set i | 0 <= i < |turns[..n]| && flagged[turns[..n][i]];
      assert here == before + if flagged[turns[n]] then {n} else {};
    }
  }

  lemma {:induction false} NoneFlagged(flagged: seq<bool>, turns: seq<nat>)
    requires true !in flagged && forall i :: 0 <= i < |turns| ==> turns[i] < |flagged|
    ensures Flagged(flagged, turns) == 0
  {
    if turns != [] {
      NoneFlagged(flagged, turns[..|turns| - 1]);
    }
  }

  // With distinct seed edges, looking a path's first edge up finds the seed it
  // started from.
  lemma {:induction false} SeedLookup(seeds: seq<Endpoint>, i: nat)
    requires i < |seeds| && forall j, k :: 0 <= j < k < |seeds| ==> seeds[j].edge != seeds[k].edge
    ensures Adjust(seeds, seeds[i].edge) == Some(seeds[i].cost)
  {
    if i < |seeds| - 1 {
      SeedLookup(seeds[..|seeds| - 1], i);
    }
  }

  lemma TravelTimeIsCost(p: Problem, r: PathResult, i: nat)
    requires p.Valid() && Route(p.q, i, r.turns) && InRange(p.q.topo, r.turns)
    requires p.q.seeds[i].edge == r.first && End(p.q.topo, r.first, r.turns) == r.dest
    ensures TravelTime(p, r) == RouteCost(p.q, i, r.turns)
  {
    SeedLookup(p.q.seeds, i);
  }

  // At lambda 0 the search minimizes exactly the number travel_time_fn reports.
  lemma FastestIsFastest(p: Problem, fast: PathResult, other: PathResult)
    requires p.Valid() && Ran(p, ArcCost(p, 0.0), Some(fast)) && IsPath(p, other)
    requires InRange(p.q.topo, fast.turns) && InRange(p.q.topo, other.turns)
    ensures TravelTime(p, fast) <= TravelTime(p, other)
  {
    assert ArcCost(p, 0.0) == p.q.arc;
    assert p.q.(arc := p.q.arc) == p.q;
    CheapestIsFastest(p, fast, other);
  }

  lemma CheapestIsFastest(p: Problem, fast: PathResult, other: PathResult)
    requires p.Valid() && Returns(p.q, Some(fast)) && IsPath(p, other)
    requires InRange(p.q.topo, fast.turns) && InRange(p.q.topo, other.turns)
    ensures TravelTime(p, fast) <= TravelTime(p, other)
  {
    hide Returns, TravelTime, RouteCost;
    SearchIsOptimal(p.q, Some(fast));
    var i: nat :| IsSeedOf(p.q, i, fast);
    TravelTimeIsCost(p, fast, i);
    var j: nat :| Route(p.q, j, other.turns) && InRange(p.q.topo, other.turns)
             && p.q.seeds[j].edge == other.first && End(p.q.topo, other.first, other.turns) == other.dest;
    TravelTimeIsCost(p, other, j);
  }

  function EdgeSet(p: Problem, r: PathResult): set<nat>
    requires forall i :: 0 <= i < |r.turns| ==> r.turns[i] < |p.q.topo.outEdge|
  {
    set e | e in r.EdgeList(p.q.topo.outEdge)
  }

  function Jaccard(a: set<nat>, b: set<nat>): real {
    if a == {} && b == {} then 1.0
    else
      assert a <= a + b && b <= a + b && a + b != {};
      |a * b| as real / |a + b| as real
  }

  // ----------------------------------------------------- what a slot answers

  // sweep: the slots in order, with the lambda each searches at.
  function Slots(p: Problem, safety: bool): (r: seq<(Kind, real)>)
    ensures |r| == if safety then 3 else 1
  {
    [(Fast, p.cfg.lambdaFast)]
    + if safety then [(Balanced, p.cfg.lambdaBalanced), (Safe, p.cfg.lambdaSafe)] else []
  }

  lemma SlotOrder(p: Problem, safety: bool)
    requires p.Valid()
    ensures Slots(p, safety)[0] == (Fast, p.cfg.lambdaFast) && (|Slots(p, safety)| > 1 <==> safety)
    ensures safety ==> Slots(p, safety)[1] == (Balanced, p.cfg.lambdaBalanced)
    ensures safety ==> Slots(p, safety)[2] == (Safe, p.cfg.lambdaSafe)
    ensures forall i :: 0 <= i < |Slots(p, safety)| ==> 0.0 <= Slots(p, safety)[i].1
    ensures forall i, j :: 0 <= i < j < |Slots(p, safety)| ==> Slots(p, safety)[i].1 <= Slots(p, safety)[j].1
  {
  }

  // What a slot starts from before any diversity rerun: in the safe slot the
  // strictly cleaner hard-avoid route when there is one within the budget,
  // else the optimum at the slot's lambda.
  ghost predicate Candidate(p: Problem, kind: Kind, lam: real, budget: real, fastTime: real, r: PathResult)
    requires p.Valid() && 0.0 <= lam
  {
    exists plain :: SlotBase(p, kind, lam, budget, fastTime, plain, r)
  }

  ghost predicate SlotBase(p: Problem, kind: Kind, lam: real, budget: real, fastTime: real,
                           plain: PathResult, r: PathResult)
    requires p.Valid() && 0.0 <= lam
  {
    && Ran(p, ArcCost(p, lam), Some(plain)) && InRange(p.q.topo, plain.turns) && InRange(p.q.topo, r.turns)
    && if kind == Safe && budget > 0.0 && Flagged(p.flagged, plain.turns) > 0
          && exists a :: Avoids(p, lam, budget, fastTime, plain, a)
       then Avoids(p, lam, budget, fastTime, plain, r)
       else r == plain
  }

  ghost predicate Avoids(p: Problem, lam: real, budget: real, fastTime: real, plain: PathResult, r: PathResult)
    requires p.Valid() && 0.0 <= lam && InRange(p.q.topo, plain.turns)
  {
    && Ran(p, AvoidCost(p, lam), Some(r)) && InRange(p.q.topo, r.turns)
    && Flagged(p.flagged, r.turns) < Flagged(p.flagged, plain.turns)
    && TravelTime(p, r) <= (1.0 + budget) * fastTime
  }

  // Two routes are alike when they share more than the threshold of all edges
  // they visit.
  ghost predicate Alike(threshold: real, a: set<nat>, b: set<nat>) {
    |a * b| as real > threshold * |a + b| as real
  }

  // Alike some route already kept.
  ghost predicate Repeats(threshold: real, edgeSet: set<nat>, keptSets: seq<set<nat>>) {
    exists i :: 0 <= i < |keptSets| && Alike(threshold, edgeSet, keptSets[i])
  }

  predicate Duplicate(threshold: real, edgeSet: set<nat>, keptSets: seq<set<nat>>) {
    exists i :: 0 <= i < |keptSets| && Jaccard(edgeSet, keptSets[i]) > threshold
  }

  // Dividing by the union asks the same question.
  lemma JaccardIsShare(threshold: real, a: set<nat>, b: set<nat>)
    requires a != {}
    ensures Jaccard(a, b) > threshold <==> Alike(threshold, a, b)
  {
    assert a <= a + b && a + b != {};
    Over(|a * b| as real, |a + b| as real, threshold);
  }

  lemma Over(x: real, y: real, threshold: real)
    requires 0.0 < y
    ensures x / y > threshold <==> x > threshold * y
  {
    var q := x / y;
    assert q * y == x;
    assert (q - threshold) * y == x - threshold * y;
    assert q > threshold ==> (q - threshold) * y > 0.0;
    assert q <= threshold ==> (threshold - q) * y >= 0.0;
  }

  lemma DuplicateRepeats(threshold: real, edgeSet: set<nat>, keptSets: seq<set<nat>>)
    requires edgeSet != {}
    ensures Duplicate(threshold, edgeSet, keptSets) <==> Repeats(threshold, edgeSet, keptSets)
  {
    forall i | 0 <= i < |keptSets|
      ensures Jaccard(edgeSet, keptSets[i]) > threshold <==> Alike(threshold, edgeSet, keptSets[i]) {
      JaccardIsShare(threshold, edgeSet, keptSets[i]);
    }
    hide Jaccard, Alike;
  }

  // A route visits the edge it starts on and every edge its turns enter.
  lemma EdgeSetIs(p: Problem, r: PathResult, e: nat)
    requires InRange(p.q.topo, r.turns)
    ensures e in EdgeSet(p, r) <==> e == r.first || exists i :: 0 <= i < |r.turns| && p.q.topo.outEdge[r.turns[i]] == e
    ensures EdgeSet(p, r) != {}
  {
    var edges := r.EdgeList(p.q.topo.outEdge);
    assert edges[0] == r.first;
    if i :| 0 <= i < |r.turns| && p.q.topo.outEdge[r.turns[i]] == e {
      assert edges[i + 1] == e;
    }
    assert r.first in EdgeSet(p, r);
  }

  function Union(sets: seq<set<nat>>): set<nat> {
    if sets == [] then {} else Union(sets[..|sets| - 1]) + sets[|sets| - 1]
  }

  lemma {:induction false} UnionIs(sets: seq<set<nat>>, e: nat)
    ensures e in Union(sets) <==> exists i :: 0 <= i < |sets| && e in sets[i]
  {
    if sets != [] {
      var n := |sets| - 1;
      UnionIs(sets[..n], e);
      if i :| 0 <= i < n && e in sets[i] { assert e in sets[..n][i]; }
    }
  }

  // The turn enters an edge that r1 shares with some route kept.
  ghost predicate EntersShared(p: Problem, keptSets: seq<set<nat>>, r1: PathResult, t: nat)
    requires InRange(p.q.topo, r1.turns) && t < |p.q.topo.outEdge|
  {
    p.q.topo.outEdge[t] in EdgeSet(p, r1) && exists i :: 0 <= i < |keptSets| && p.q.topo.outEdge[t] in keptSets[i]
  }

  // One rerun: r1 repeats a route kept, and what it shares with any of those
  // costs a factor more.
  ghost predicate Inflated(p: Problem, keptSets: seq<set<nat>>, ac1: seq<real>, r1: PathResult, ac: seq<real>)
    requires p.Valid()
  {
    && InRange(p.q.topo, r1.turns) && |ac| == |ac1| == |p.q.topo.outEdge|
    && Repeats(p.cfg.threshold, EdgeSet(p, r1), keptSets)
    && forall t :: 0 <= t < |ac| ==>
         ac[t] == if EntersShared(p, keptSets, r1, t) then ac1[t] * p.cfg.factor else ac1[t]
  }

  lemma {:induction false} InflateIs(p: Problem, keptSets: seq<set<nat>>, ac1: seq<real>, r1: PathResult)
    requires p.Valid() && InRange(p.q.topo, r1.turns) && |ac1| == |p.q.topo.outEdge|
    requires Repeats(p.cfg.threshold, EdgeSet(p, r1), keptSets)
    ensures Inflated(p, keptSets, ac1, r1, Inflate(p, ac1, Union(keptSets) * EdgeSet(p, r1)))
  {
    hide Repeats, EdgeSet, Union;
    forall t: nat | t < |ac1|
      ensures p.q.topo.outEdge[t] in Union(keptSets) * EdgeSet(p, r1) <==> EntersShared(p, keptSets, r1, t) {
      UnionIs(keptSets, p.q.topo.outEdge[t]);
    }
  }

  lemma {:induction false} InflatedIs(p: Problem, keptSets: seq<set<nat>>, ac1: seq<real>, r1: PathResult,
                                      ac: seq<real>)
    requires p.Valid() && Inflated(p, keptSets, ac1, r1, ac)
    ensures ac == Inflate(p, ac1, Union(keptSets) * EdgeSet(p, r1))
  {
    hide Repeats, EdgeSet, Union, EntersShared, Inflate, Problem.Valid;
    InflateIs(p, keptSets, ac1, r1);
    var ac' := Inflate(p, ac1, Union(keptSets) * EdgeSet(p, r1));
    forall t | 0 <= t < |ac| ensures ac[t] == ac'[t] {
    }
  }

  lemma RepeatsIfDuplicate(p: Problem, keptSets: seq<set<nat>>, r: PathResult)
    requires InRange(p.q.topo, r.turns)
    ensures Duplicate(p.cfg.threshold, EdgeSet(p, r), keptSets) <==> Repeats(p.cfg.threshold, EdgeSet(p, r), keptSets)
  {
    EdgeSetIs(p, r, r.first);
    hide EdgeSet, Duplicate, Repeats;
    DuplicateRepeats(p.cfg.threshold, EdgeSet(p, r), keptSets);
  }

  // The array and the route after k reruns.
  ghost predicate Rerun(p: Problem, ac0: seq<real>, r0: PathResult, keptSets: seq<set<nat>>, k: nat,
                        ac: seq<real>, r: PathResult)
    requires p.Valid()
    decreases k
  {
    if k == 0 then ac == ac0 && r == r0
    else
      && Ran(p, ac, Some(r))
      && exists ac1, r1 :: Rerun(p, ac0, r0, keptSets, k - 1, ac1, r1) && Inflated(p, keptSets, ac1, r1, ac)
  }

  // The penalty method's outcome: it stops at the first route that is no
  // duplicate, and gives up only after max_reruns.
  ghost predicate Diversified(p: Problem, ac0: seq<real>, r0: PathResult, keptSets: seq<set<nat>>,
                              ac: seq<real>, r: PathResult)
    requires p.Valid()
  {
    exists k: nat :: k <= p.cfg.maxReruns && Rerun(p, ac0, r0, keptSets, k, ac, r) && StopsAt(p, keptSets, k, r)
  }

  ghost predicate StopsAt(p: Problem, keptSets: seq<set<nat>>, k: nat, r: PathResult)
    requires p.Valid()
  {
    InRange(p.q.topo, r.turns) && (k == p.cfg.maxReruns || !Repeats(p.cfg.threshold, EdgeSet(p, r), keptSets))
  }

  // A slot's candidate c and, against the routes kept so far, its outcome r.
  ghost predicate SlotRoute(p: Problem, slot: (Kind, real), budget: real, fastTime: real,
                            keptSets: seq<set<nat>>, c: PathResult, r: PathResult)
    requires p.Valid()
  {
    && 0.0 <= slot.1 && InRange(p.q.topo, c.turns) && InRange(p.q.topo, r.turns)
    && exists plain, ac :: SlotRuns(p, slot, budget, fastTime, keptSets, plain, c, ac, r)
  }

  ghost predicate SlotRuns(p: Problem, slot: (Kind, real), budget: real, fastTime: real, keptSets: seq<set<nat>>,
                           plain: PathResult, c: PathResult, ac: seq<real>, r: PathResult)
    requires p.Valid() && 0.0 <= slot.1
  {
    && SlotBase(p, slot.0, slot.1, budget, fastTime, plain, c)
    && Diversified(p, if c == plain then ArcCost(p, slot.1) else AvoidCost(p, slot.1), c, keptSets, ac, r)
  }

  // ---------------------------------------------- what the sweep must return

  ghost predicate AllInRange(p: Problem, kept: seq<Alternative>) {
    forall i :: 0 <= i < |kept| ==> InRange(p.q.topo, kept[i].result.turns)
  }

  ghost function SetsOf(p: Problem, kept: seq<Alternative>): (r: seq<set<nat>>)
    requires AllInRange(p, kept)
    ensures |r| == |kept|
  {
    seq(|kept|, i requires 0 <= i < |kept| => EdgeSet(p, kept[i].result))
  }

  // The slot's outcome repeats a route kept before it, or is less safe than
  // the slot's own candidate.
  ghost predicate Drops(p: Problem, slot: (Kind, real), budget: real, fastTime: real, kept: seq<Alternative>,
                        c: PathResult, r: PathResult)
    requires p.Valid()
  {
    && AllInRange(p, kept) && SlotRoute(p, slot, budget, fastTime, SetsOf(p, kept), c, r)
    && (|| Repeats(p.cfg.threshold, EdgeSet(p, r), SetsOf(p, kept))
        || Flagged(p.flagged, r.turns) > Flagged(p.flagged, c.turns))
  }

  // The slot's outcome is neither, and becomes the alternative a.
  ghost predicate Takes(p: Problem, slot: (Kind, real), budget: real, fastTime: real, kept: seq<Alternative>,
                        c: PathResult, a: Alternative)
    requires p.Valid()
  {
    && a.kind == slot.0 && a.lam == slot.1
    && AllInRange(p, kept) && SlotRoute(p, slot, budget, fastTime, SetsOf(p, kept), c, a.result)
    && !Repeats(p.cfg.threshold, EdgeSet(p, a.result), SetsOf(p, kept))
    && Flagged(p.flagged, a.result.turns) <= Flagged(p.flagged, c.turns)
  }

  // The first n slots, each against what the ones before it left, collect
  // exactly these routes.
  ghost predicate Swept(p: Problem, safety: bool, budget: real, fastTime: real, n: nat, collected: seq<Alternative>)
    requires p.Valid() && n <= |Slots(p, safety)|
    decreases n, 0
  {
    if n == 0 then collected == []
    else
      || SweptPast(p, safety, budget, fastTime, n - 1, collected)
      || (collected != []
          && var m := |collected| - 1;
             SweptOnto(p, safety, budget, fastTime, n - 1, collected[..m], collected[m]))
  }

  ghost predicate SweptPast(p: Problem, safety: bool, budget: real, fastTime: real, s: nat, collected: seq<Alternative>)
    requires p.Valid() && s < |Slots(p, safety)|
    decreases s, 1
  {
    && Swept(p, safety, budget, fastTime, s, collected)
    && exists c, r :: Drops(p, Slots(p, safety)[s], budget, fastTime, collected, c, r)
  }

  ghost predicate SweptOnto(p: Problem, safety: bool, budget: real, fastTime: real, s: nat,
                            before: seq<Alternative>, a: Alternative)
    requires p.Valid() && s < |Slots(p, safety)|
    decreases s, 1
  {
    && Swept(p, safety, budget, fastTime, s, before)
    && exists c :: Takes(p, Slots(p, safety)[s], budget, fastTime, before, c, a)
  }

  predicate Fits(p: Problem, a: Alternative, limit: real)
    requires forall i :: 0 <= i < |a.result.turns| ==> a.result.turns[i] < |p.q.arc|
  {
    TravelTime(p, a.result) <= limit
  }

  // Of the first n routes: the first, and each later one that fits.
  ghost function Within(p: Problem, kept: seq<Alternative>, limit: real, n: nat): seq<Alternative>
    requires p.Valid() && AllInRange(p, kept) && n <= |kept|
  {
    if n <= 1 then kept[..n]
    else Within(p, kept, limit, n - 1) + if Fits(p, kept[n - 1], limit) then [kept[n - 1]] else []
  }

  function Limit(budget: real, fastTime: real): real { (1.0 + budget) * fastTime }

  // By position: the lowest lambda is "fast", the highest "safe".
  function Relabel(kept: seq<Alternative>): (r: seq<Alternative>)
    ensures |r| == |kept|
    ensures forall i :: 0 <= i < |r| ==> r[i].lam == kept[i].lam && r[i].result == kept[i].result
  {
    seq(|kept|, i requires 0 <= i < |kept| =>
      kept[i].(kind := if i == 0 then Fast else if i == |kept| - 1 then Safe else Balanced))
  }

  function Labelled(safety: bool, kept: seq<Alternative>): seq<Alternative> {
    if safety && |kept| > 1 then Relabel(kept) else kept
  }

  ghost predicate Collects(p: Problem, safety: bool, budget: real, fastTime: real, collected: seq<Alternative>)
    requires p.Valid()
  {
    && Swept(p, safety, budget, fastTime, |Slots(p, safety)|, collected)
    && collected != [] && AllInRange(p, collected) && fastTime == TravelTime(p, collected[0].result)
  }

  // The answer to a query: nothing when no destination is reachable, else
  // what the whole sweep collects, held to the budget and labelled.
  ghost predicate Answer(p: Problem, safety: bool, budget: real, kept: seq<Alternative>)
    requires p.Valid()
  {
    if Unreachable(p) then kept == []
    else exists fastTime, collected :: Answered(p, safety, budget, fastTime, collected, kept)
  }

  ghost predicate Answered(p: Problem, safety: bool, budget: real, fastTime: real, collected: seq<Alternative>,
                           kept: seq<Alternative>)
    requires p.Valid()
  {
    && Collects(p, safety, budget, fastTime, collected)
    && kept == Labelled(safety, Within(p, collected, Limit(budget, fastTime), |collected|))
  }

  // ------------------------------------------------ there is only one answer

  lemma OneRan(p: Problem, ac: seq<real>, a: PathResult, b: PathResult)
    requires p.Valid() && Ran(p, ac, Some(a)) && Ran(p, ac, Some(b))
    ensures a == b
  {
    hide Returns, Consistent, Exact;
    EnginesAgree(p.q.(arc := ac), Some(a), Some(b));
  }

  lemma OneCandidate(p: Problem, slot: (Kind, real), budget: real, fastTime: real,
                     plain: PathResult, c: PathResult, plain': PathResult, c': PathResult)
    requires p.Valid() && 0.0 <= slot.1
    requires SlotBase(p, slot.0, slot.1, budget, fastTime, plain, c)
    requires SlotBase(p, slot.0, slot.1, budget, fastTime, plain', c')
    ensures plain == plain' && c == c'
  {
    hide Ran, TravelTime, Flagged, ArcCost, AvoidCost;
    OneRan(p, ArcCost(p, slot.1), plain, plain');
    if c != plain || c' != plain {
      OneRan(p, AvoidCost(p, slot.1), c, c');
    }
  }

  lemma RerunBefore(p: Problem, ac0: seq<real>, r0: PathResult, keptSets: seq<set<nat>>, k: nat,
                    ac: seq<real>, r: PathResult) returns (ac1: seq<real>, r1: PathResult)
    requires p.Valid() && 0 < k && Rerun(p, ac0, r0, keptSets, k, ac, r)
    ensures Ran(p, ac, Some(r)) && Rerun(p, ac0, r0, keptSets, k - 1, ac1, r1) && Inflated(p, keptSets, ac1, r1, ac)
  {
    hide Ran, Inflated;
    ac1, r1 :| Rerun(p, ac0, r0, keptSets, k - 1, ac1, r1) && Inflated(p, keptSets, ac1, r1, ac);
  }

  lemma {:induction false} RerunStart(p: Problem, ac0: seq<real>, r0: PathResult, keptSets: seq<set<nat>>,
                                      ac: seq<real>, r: PathResult)
    requires p.Valid()
    ensures Rerun(p, ac0, r0, keptSets, 0, ac, r) <==> ac == ac0 && r == r0
  {
  }

  lemma {:induction false} OneRerunChain(p: Problem, ac0: seq<real>, r0: PathResult, keptSets: seq<set<nat>>, k: nat,
                                         ac: seq<real>, r: PathResult, ac': seq<real>, r': PathResult)
    requires p.Valid() && Rerun(p, ac0, r0, keptSets, k, ac, r) && Rerun(p, ac0, r0, keptSets, k, ac', r')
    ensures ac == ac' && r == r'
    decreases k
  {
    hide Rerun, Ran, Repeats, EdgeSet, Union, Inflate, Inflated;
    if k == 0 {
      RerunStart(p, ac0, r0, keptSets, ac, r);
      RerunStart(p, ac0, r0, keptSets, ac', r');
    } else {
      var ac1, r1 := RerunBefore(p, ac0, r0, keptSets, k, ac, r);
      var ac1', r1' := RerunBefore(p, ac0, r0, keptSets, k, ac', r');
      OneRerunChain(p, ac0, r0, keptSets, k - 1, ac1, r1, ac1', r1');
      InflatedIs(p, keptSets, ac1, r1, ac);
      InflatedIs(p, keptSets, ac1, r1, ac');
      OneRan(p, ac, r, r');
    }
  }

  // What a longer chain passed through on the way was a duplicate.
  lemma {:induction false} PassedDuplicate(p: Problem, ac0: seq<real>, r0: PathResult, keptSets: seq<set<nat>>,
                                           j: nat, k: nat, ac: seq<real>, r: PathResult, ac': seq<real>,
                                           r': PathResult)
    requires p.Valid() && j < k
    requires Rerun(p, ac0, r0, keptSets, j, ac, r) && Rerun(p, ac0, r0, keptSets, k, ac', r')
    ensures InRange(p.q.topo, r.turns) && Repeats(p.cfg.threshold, EdgeSet(p, r), keptSets)
    decreases k
  {
    hide Rerun, Ran, Repeats, EdgeSet, Union, Inflate;
    var ac1, r1 := RerunBefore(p, ac0, r0, keptSets, k, ac', r');
    if j == k - 1 {
      OneRerunChain(p, ac0, r0, keptSets, j, ac, r, ac1, r1);
    } else {
      PassedDuplicate(p, ac0, r0, keptSets, j, k - 1, ac, r, ac1, r1);
    }
  }

  lemma OneOutcome(p: Problem, ac0: seq<real>, r0: PathResult, keptSets: seq<set<nat>>,
                   ac: seq<real>, r: PathResult, ac': seq<real>, r': PathResult)
    requires p.Valid() && Diversified(p, ac0, r0, keptSets, ac, r) && Diversified(p, ac0, r0, keptSets, ac', r')
    ensures ac == ac' && r == r'
  {
    hide Rerun, Ran, Repeats, EdgeSet;
    var k: nat :| k <= p.cfg.maxReruns && Rerun(p, ac0, r0, keptSets, k, ac, r) && StopsAt(p, keptSets, k, r);
    var k': nat :| k' <= p.cfg.maxReruns && Rerun(p, ac0, r0, keptSets, k', ac', r') && StopsAt(p, keptSets, k', r');
    if k < k' {
      PassedDuplicate(p, ac0, r0, keptSets, k, k', ac, r, ac', r');
    } else if k' < k {
      PassedDuplicate(p, ac0, r0, keptSets, k', k, ac', r', ac, r);
    }
    OneRerunChain(p, ac0, r0, keptSets, k, ac, r, ac', r');
  }

  lemma OneSlotRoute(p: Problem, slot: (Kind, real), budget: real, fastTime: real, keptSets: seq<set<nat>>,
                     c: PathResult, r: PathResult, c': PathResult, r': PathResult)
    requires p.Valid()
    requires SlotRoute(p, slot, budget, fastTime, keptSets, c, r) && SlotRoute(p, slot, budget, fastTime, keptSets, c', r')
    ensures c == c' && r == r'
  {
    hide SlotBase, Diversified, ArcCost, AvoidCost;
    var plain, ac :| SlotRuns(p, slot, budget, fastTime, keptSets, plain, c, ac, r);
    var plain', ac' :| SlotRuns(p, slot, budget, fastTime, keptSets, plain', c', ac', r');
    OneCandidate(p, slot, budget, fastTime, plain, c, plain', c');
    OneOutcome(p, if c == plain then ArcCost(p, slot.1) else AvoidCost(p, slot.1), c, keptSets, ac, r, ac', r');
  }

  // What the last of n + 1 slots answered against the routes before it, and
  // whether it was taken.
  lemma LastSlot(p: Problem, safety: bool, budget: real, fastTime: real, n: nat, collected: seq<Alternative>)
    returns (before: seq<Alternative>, c: PathResult, r: PathResult)
    requires p.Valid() && n < |Slots(p, safety)| && Swept(p, safety, budget, fastTime, n + 1, collected)
    ensures Swept(p, safety, budget, fastTime, n, before)
    ensures AllInRange(p, before) && InRange(p.q.topo, c.turns) && InRange(p.q.topo, r.turns)
    ensures SlotRoute(p, Slots(p, safety)[n], budget, fastTime, SetsOf(p, before), c, r)
    ensures collected == Outcome(p, Slots(p, safety)[n], before, c, r)
  {
    hide SlotRoute, Slots, SetsOf, Repeats, EdgeSet, Flagged, AllInRange;
    var slot := Slots(p, safety)[n];
    if SweptPast(p, safety, budget, fastTime, n, collected) {
      before := collected;
      c, r :| Drops(p, slot, budget, fastTime, collected, c, r);
      SlotRouteInRange(p, slot, budget, fastTime, SetsOf(p, before), c, r);
    } else {
      var m := |collected| - 1;
      before := collected[..m];
      c :| Takes(p, slot, budget, fastTime, before, c, collected[m]);
      r := collected[m].result;
      SlotRouteInRange(p, slot, budget, fastTime, SetsOf(p, before), c, r);
      assert collected == before + [collected[m]];
    }
  }

  lemma SlotRouteInRange(p: Problem, slot: (Kind, real), budget: real, fastTime: real, keptSets: seq<set<nat>>,
                         c: PathResult, r: PathResult)
    requires p.Valid() && SlotRoute(p, slot, budget, fastTime, keptSets, c, r)
    ensures InRange(p.q.topo, c.turns) && InRange(p.q.topo, r.turns)
  {
  }

  // What a slot with candidate c and outcome r leaves of the routes kept.
  ghost function Outcome(p: Problem, slot: (Kind, real), kept: seq<Alternative>, c: PathResult,
                         r: PathResult): seq<Alternative>
    requires p.Valid() && AllInRange(p, kept) && InRange(p.q.topo, c.turns) && InRange(p.q.topo, r.turns)
  {
    if Repeats(p.cfg.threshold, EdgeSet(p, r), SetsOf(p, kept)) || Flagged(p.flagged, r.turns) > Flagged(p.flagged, c.turns)
    then kept
    else kept + [Alternative(slot.0, slot.1, r)]
  }

  lemma {:induction false} OneSweep(p: Problem, safety: bool, budget: real, fastTime: real, n: nat,
                                    a: seq<Alternative>, b: seq<Alternative>)
    requires p.Valid() && n <= |Slots(p, safety)|
    requires Swept(p, safety, budget, fastTime, n, a) && Swept(p, safety, budget, fastTime, n, b)
    ensures a == b
    decreases n
  {
    hide *;
    if n == 0 {
      SweptNone(p, safety, budget, fastTime, a);
      SweptNone(p, safety, budget, fastTime, b);
    } else {
      var a1, c, r := LastSlot(p, safety, budget, fastTime, n - 1, a);
      var b1, c', r' := LastSlot(p, safety, budget, fastTime, n - 1, b);
      OneSweep(p, safety, budget, fastTime, n - 1, a1, b1);
      OneSlotRoute(p, Slots(p, safety)[n - 1], budget, fastTime, SetsOf(p, a1), c, r, c', r');
    }
  }

  // The first slot is always taken: there is nothing before it to repeat.
  lemma {:induction false} SweptFirst(p: Problem, safety: bool, budget: real, fastTime: real, n: nat,
                                      collected: seq<Alternative>)
    requires p.Valid() && 0 < n <= |Slots(p, safety)| && Swept(p, safety, budget, fastTime, n, collected)
    ensures collected != [] && collected[0].kind == Fast && collected[0].lam == p.cfg.lambdaFast
    ensures InRange(p.q.topo, collected[0].result.turns)
    ensures Ran(p, ArcCost(p, p.cfg.lambdaFast), Some(collected[0].result))
    decreases n
  {
    hide Slots, SlotRoute, SetsOf, Repeats, EdgeSet, Flagged, AllInRange, Ran, ArcCost, Swept;
    SlotOrder(p, safety);
    var before, c, r := LastSlot(p, safety, budget, fastTime, n - 1, collected);
    if n == 1 {
      SweptNone(p, safety, budget, fastTime, before);
      NothingRepeats(p, Slots(p, safety)[0], budget, fastTime, c, r);
    } else {
      SweptFirst(p, safety, budget, fastTime, n - 1, before);
    }
  }

  lemma {:induction false} SweptNone(p: Problem, safety: bool, budget: real, fastTime: real,
                                     collected: seq<Alternative>)
    requires p.Valid()
    ensures Swept(p, safety, budget, fastTime, 0, collected) <==> collected == []
    ensures AllInRange(p, []) && SetsOf(p, []) == []
  {
  }

  lemma NothingRepeats(p: Problem, slot: (Kind, real), budget: real, fastTime: real, c: PathResult, r: PathResult)
    requires p.Valid() && slot.0 != Safe && SlotRoute(p, slot, budget, fastTime, [], c, r)
    ensures r == c && InRange(p.q.topo, r.turns) && Ran(p, ArcCost(p, slot.1), Some(r))
    ensures !Repeats(p.cfg.threshold, EdgeSet(p, r), [])
  {
    hide Ran, ArcCost, AvoidCost, Rerun, EdgeSet;
    var plain, ac :| SlotRuns(p, slot, budget, fastTime, [], plain, c, ac, r);
    var ac0 := ArcCost(p, slot.1);
    var k: nat :| k <= p.cfg.maxReruns && Rerun(p, ac0, c, [], k, ac, r) && StopsAt(p, [], k, r);
    RerunStart(p, ac0, c, [], ac0, c);
    RerunStart(p, ac0, c, [], ac, r);
    if k > 0 {
      PassedDuplicate(p, ac0, c, [], 0, k, ac0, c, ac, r);
    }
  }

  lemma OneCollection(p: Problem, safety: bool, budget: real, f: real, a: seq<Alternative>, f': real,
                      b: seq<Alternative>)
    requires p.Valid() && Collects(p, safety, budget, f, a) && Collects(p, safety, budget, f', b)
    ensures f == f' && a == b
  {
    hide Swept, Slots, Ran, TravelTime, ArcCost;
    var n := |Slots(p, safety)|;
    SweptFirst(p, safety, budget, f, n, a);
    SweptFirst(p, safety, budget, f', n, b);
    OneRan(p, ArcCost(p, p.cfg.lambdaFast), a[0].result, b[0].result);
    OneSweep(p, safety, budget, f, n, a, b);
  }

  // Whatever the engine behind `run`, a query has one answer.
  lemma OneAnswer(p: Problem, safety: bool, budget: real, a: seq<Alternative>, b: seq<Alternative>)
    requires p.Valid() && Answer(p, safety, budget, a) && Answer(p, safety, budget, b)
    ensures a == b
  {
    hide Collects, Unreachable, Labelled, Within, Limit;
    if !Unreachable(p) {
      var f, ca :| Answered(p, safety, budget, f, ca, a);
      var f', cb :| Answered(p, safety, budget, f', cb, b);
      OneCollection(p, safety, budget, f, ca, f', cb);
    }
  }

  // ------------------------------------------------------------ the promise

  // A route kept in slot s: optimal for some array above the time array, and
  // no less safe than that slot's own candidate.
  ghost predicate Kept(p: Problem, safety: bool, budget: real, fastTime: real, s: nat, a: Alternative)
    requires p.Valid()
    ensures Kept(p, safety, budget, fastTime, s, a) ==> InRange(p.q.topo, a.result.turns)
  {
    && s < |Slots(p, safety)| && a.lam == Slots(p, safety)[s].1 && 0.0 <= a.lam
    && IsPath(p, a.result) && InRange(p.q.topo, a.result.turns)
    && (exists ac :: Dominates(p, ac) && Ran(p, ac, Some(a.result)))
    && (exists c :: NoWorse(p, Slots(p, safety)[s].0, budget, fastTime, a, c))
  }

  ghost predicate NoWorse(p: Problem, kind: Kind, budget: real, fastTime: real, a: Alternative, c: PathResult)
    requires p.Valid() && 0.0 <= a.lam && InRange(p.q.topo, a.result.turns)
  {
    && InRange(p.q.topo, c.turns) && Candidate(p, kind, a.lam, budget, fastTime, c)
    && Flagged(p.flagged, a.result.turns) <= Flagged(p.flagged, c.turns)
  }

  // kept[i] comes from slot slots[i], and the slots are in order.
  ghost predicate AllKept(p: Problem, safety: bool, budget: real, fastTime: real, kept: seq<Alternative>,
                          slots: seq<nat>)
    requires p.Valid()
  {
    && |slots| == |kept| && (forall i, j :: 0 <= i < j < |slots| ==> slots[i] < slots[j])
    && forall i :: 0 <= i < |kept| ==> Kept(p, safety, budget, fastTime, slots[i], kept[i])
  }

  ghost predicate Apart(p: Problem, a: Alternative, b: Alternative)
    requires p.Valid()
  {
    && InRange(p.q.topo, a.result.turns) && InRange(p.q.topo, b.result.turns)
    && !Alike(p.cfg.threshold, EdgeSet(p, b.result), EdgeSet(p, a.result))
    && a.lam <= b.lam
  }

  ghost predicate AllApart(p: Problem, kept: seq<Alternative>)
    requires p.Valid()
  {
    forall i, j :: 0 <= i < j < |kept| ==> Apart(p, kept[i], kept[j])
  }

  // The first route kept is the lambda_fast optimum, which sets the baseline.
  ghost predicate StartsFast(p: Problem, fastTime: real, kept: seq<Alternative>)
    requires p.Valid()
    ensures StartsFast(p, fastTime, kept) ==> kept != [] && InRange(p.q.topo, kept[0].result.turns)
  {
    && kept != [] && kept[0].kind == Fast && kept[0].lam == p.cfg.lambdaFast && InRange(p.q.topo, kept[0].result.turns)
    && Ran(p, ArcCost(p, p.cfg.lambdaFast), Some(kept[0].result))
    && fastTime == TravelTime(p, kept[0].result)
  }

  ghost predicate Curated(p: Problem, safety: bool, budget: real, kept: seq<Alternative>)
    requires p.Valid()
  {
    && |kept| <= (if safety then 3 else 1)
    && (kept == [] <==> Unreachable(p))
    && (kept != [] ==>
          && InRange(p.q.topo, kept[0].result.turns)
          && var fastTime := TravelTime(p, kept[0].result);
             && StartsFast(p, fastTime, kept) && AllApart(p, kept) && AllInRange(p, kept)
             && (exists slots :: AllKept(p, safety, budget, fastTime, kept, slots))
             && (forall i :: 1 <= i < |kept| ==> Fits(p, kept[i], Limit(budget, fastTime))))
    && (forall i :: 0 <= i < |kept| ==>
          kept[i].kind == if i == 0 then Fast else if i == |kept| - 1 then Safe else Balanced)
  }

  // So no two routes returned share more than the threshold of the edges they
  // visit, and with a threshold below 1 no two visit the same.
  lemma NoTwoAlike(p: Problem, safety: bool, budget: real, kept: seq<Alternative>, i: nat, j: nat)
    requires p.Valid() && Curated(p, safety, budget, kept) && i < j < |kept|
    ensures InRange(p.q.topo, kept[i].result.turns) && InRange(p.q.topo, kept[j].result.turns)
    ensures var a, b := EdgeSet(p, kept[i].result), EdgeSet(p, kept[j].result);
            && |a * b| as real <= p.cfg.threshold * |a + b| as real
            && (p.cfg.threshold < 1.0 ==> a != b)
  {
    hide Curated, EdgeSet, Alike, Problem.Valid;
    AreApart(p, safety, budget, kept, i, j);
    EdgeSetIs(p, kept[i].result, kept[i].result.first);
    NotTheSame(p.cfg.threshold, EdgeSet(p, kept[i].result), EdgeSet(p, kept[j].result));
  }

  lemma AreApart(p: Problem, safety: bool, budget: real, kept: seq<Alternative>, i: nat, j: nat)
    requires p.Valid() && Curated(p, safety, budget, kept) && i < j < |kept|
    ensures InRange(p.q.topo, kept[i].result.turns) && InRange(p.q.topo, kept[j].result.turns)
    ensures !Alike(p.cfg.threshold, EdgeSet(p, kept[j].result), EdgeSet(p, kept[i].result))
  {
    hide TravelTime, Unreachable, StartsFast, AllKept, Fits, Limit, EdgeSet, Alike, Problem.Valid;
    assert Apart(p, kept[i], kept[j]);
  }

  lemma NotTheSame(threshold: real, a: set<nat>, b: set<nat>)
    requires !Alike(threshold, b, a) && a != {}
    ensures |a * b| as real <= threshold * |a + b| as real
    ensures threshold < 1.0 ==> a != b
  {
    assert a * b == b * a && a + b == b + a;
    if a == b { AlikeItself(threshold, a); }
  }

  lemma AlikeItself(threshold: real, a: set<nat>)
    requires a != {}
    ensures Alike(threshold, a, a) <==> threshold < 1.0
  {
    assert a * a == a && a + a == a;
    assert (1.0 - threshold) * |a| as real == |a| as real - threshold * |a| as real;
    assert threshold < 1.0 ==> (1.0 - threshold) * |a| as real > 0.0;
    assert threshold >= 1.0 ==> (threshold - 1.0) * |a| as real >= 0.0;
  }

  // What became of slot s, whose outcome is r: against the first m routes
  // collected it is the next one, or it shares too much with one of them or is
  // less safe than its candidate c.
  ghost predicate Accounted(p: Problem, safety: bool, budget: real, fastTime: real, collected: seq<Alternative>, s: nat,
                            m: nat, c: PathResult, r: PathResult)
    requires p.Valid()
  {
    && s < |Slots(p, safety)| && m <= |collected| && AllInRange(p, collected[..m])
    && SlotRoute(p, Slots(p, safety)[s], budget, fastTime, SetsOf(p, collected[..m]), c, r)
    && InRange(p.q.topo, c.turns) && InRange(p.q.topo, r.turns)
    && (|| (m < |collected| && collected[m] == Alternative(Slots(p, safety)[s].0, Slots(p, safety)[s].1, r))
        || Flagged(p.flagged, r.turns) > Flagged(p.flagged, c.turns)
        || exists i :: SharesTooMuch(p, collected, m, i, r))
  }

  ghost predicate SharesTooMuch(p: Problem, collected: seq<Alternative>, m: nat, i: int, r: PathResult)
    requires InRange(p.q.topo, r.turns)
  {
    && 0 <= i < m <= |collected| && InRange(p.q.topo, collected[i].result.turns)
    && var a, b := EdgeSet(p, r), EdgeSet(p, collected[i].result);
       |a * b| as real > p.cfg.threshold * |a + b| as real
  }

  // No slot goes missing for any other reason.
  lemma {:induction false} EverySlotAccounted(p: Problem, safety: bool, budget: real, fastTime: real, n: nat,
                                              collected: seq<Alternative>, s: nat)
    returns (m: nat, c: PathResult, r: PathResult)
    requires p.Valid() && s < n <= |Slots(p, safety)| && Swept(p, safety, budget, fastTime, n, collected)
    ensures Accounted(p, safety, budget, fastTime, collected, s, m, c, r)
    decreases n
  {
    hide Slots, SlotRoute, SetsOf, Repeats, EdgeSet, Flagged, AllInRange, Swept, Accounted, Outcome;
    var before, c', r' := LastSlot(p, safety, budget, fastTime, n - 1, collected);
    if s == n - 1 {
      m, c, r := |before|, c', r';
      LastAccounted(p, safety, budget, fastTime, before, s, c, r);
    } else {
      m, c, r := EverySlotAccounted(p, safety, budget, fastTime, n - 1, before, s);
      OutcomeExtends(p, Slots(p, safety)[n - 1], before, c', r');
      StillAccounted(p, safety, budget, fastTime, before, collected, s, m, c, r);
    }
  }

  lemma OutcomeExtends(p: Problem, slot: (Kind, real), kept: seq<Alternative>, c: PathResult, r: PathResult)
    requires p.Valid() && AllInRange(p, kept) && InRange(p.q.topo, c.turns) && InRange(p.q.topo, r.turns)
    ensures kept <= Outcome(p, slot, kept, c, r)
  {
  }

  lemma LastAccounted(p: Problem, safety: bool, budget: real, fastTime: real, before: seq<Alternative>, s: nat,
                      c: PathResult, r: PathResult)
    requires p.Valid() && s < |Slots(p, safety)| && AllInRange(p, before)
    requires InRange(p.q.topo, c.turns) && InRange(p.q.topo, r.turns)
    requires SlotRoute(p, Slots(p, safety)[s], budget, fastTime, SetsOf(p, before), c, r)
    ensures Accounted(p, safety, budget, fastTime, Outcome(p, Slots(p, safety)[s], before, c, r), s, |before|, c, r)
  {
    hide Slots, SlotRoute, EdgeSet, Flagged;
    var collected := Outcome(p, Slots(p, safety)[s], before, c, r);
    assert collected[..|before|] == before;
    if Repeats(p.cfg.threshold, EdgeSet(p, r), SetsOf(p, before)) {
      var i :| 0 <= i < |before| && Alike(p.cfg.threshold, EdgeSet(p, r), SetsOf(p, before)[i]);
      assert SharesTooMuch(p, collected, |before|, i, r);
    }
  }

  lemma StillAccounted(p: Problem, safety: bool, budget: real, fastTime: real, before: seq<Alternative>,
                       collected: seq<Alternative>, s: nat, m: nat, c: PathResult, r: PathResult)
    requires p.Valid() && before <= collected && Accounted(p, safety, budget, fastTime, before, s, m, c, r)
    ensures Accounted(p, safety, budget, fastTime, collected, s, m, c, r)
  {
    hide Slots, SlotRoute, SetsOf, EdgeSet, Flagged, AllInRange;
    assert collected[..m] == before[..m];
    if i :| SharesTooMuch(p, before, m, i, r) {
      assert SharesTooMuch(p, collected, m, i, r);
    }
  }

  // Every array and route of a rerun chain is the first one's kind: above the
  // time array, and the answer of a search over it.
  lemma {:induction false} RerunRan(p: Problem, ac0: seq<real>, r0: PathResult, keptSets: seq<set<nat>>, k: nat,
                                    ac: seq<real>, r: PathResult)
    requires p.Valid() && Dominates(p, ac0) && Ran(p, ac0, Some(r0)) && Rerun(p, ac0, r0, keptSets, k, ac, r)
    ensures Dominates(p, ac) && Ran(p, ac, Some(r))
    decreases k
  {
    hide Rerun, Ran, Repeats, EdgeSet, Union;
    if k == 0 {
      RerunStart(p, ac0, r0, keptSets, ac, r);
    } else {
      var ac1, r1 := RerunBefore(p, ac0, r0, keptSets, k, ac, r);
      RerunRan(p, ac0, r0, keptSets, k - 1, ac1, r1);
      InflatedIs(p, keptSets, ac1, r1, ac);
      ArraysDominate(p, 0.0, ac1, Union(keptSets) * EdgeSet(p, r1));
    }
  }

  lemma SlotRan(p: Problem, slot: (Kind, real), budget: real, fastTime: real, keptSets: seq<set<nat>>,
                c: PathResult, r: PathResult) returns (ac: seq<real>)
    requires p.Valid() && SlotRoute(p, slot, budget, fastTime, keptSets, c, r)
    ensures 0.0 <= slot.1 && Candidate(p, slot.0, slot.1, budget, fastTime, c)
    ensures Dominates(p, ac) && Ran(p, ac, Some(r)) && IsPath(p, r) && InRange(p.q.topo, r.turns)
  {
    hide Ran, ArcCost, AvoidCost, Rerun, EdgeSet, IsPath, Flagged, TravelTime, Repeats, Dominates;
    var plain, ac' :| SlotRuns(p, slot, budget, fastTime, keptSets, plain, c, ac', r);
    ac := ac';
    var ac0 := if c == plain then ArcCost(p, slot.1) else AvoidCost(p, slot.1);
    TimeDominates(p, slot.1);
    var k: nat :| k <= p.cfg.maxReruns && Rerun(p, ac0, c, keptSets, k, ac, r) && StopsAt(p, keptSets, k, r);
    RerunRan(p, ac0, c, keptSets, k, ac, r);
    RanPath(p, ac, Some(r));
  }

  lemma TimeDominates(p: Problem, lam: real)
    requires p.Valid() && 0.0 <= lam
    ensures Dominates(p, p.q.arc) && Dominates(p, ArcCost(p, lam)) && |p.penalty| == |p.q.arc| == |p.flagged|
    ensures Dominates(p, AvoidCost(p, lam))
  {
    ArraysDominate(p, lam, p.q.arc, {});
  }

  lemma TakenIsKept(p: Problem, safety: bool, budget: real, fastTime: real, s: nat, kept: seq<Alternative>,
                    c: PathResult, r: PathResult)
    requires p.Valid() && s < |Slots(p, safety)| && AllInRange(p, kept)
    requires InRange(p.q.topo, c.turns) && InRange(p.q.topo, r.turns)
    requires SlotRoute(p, Slots(p, safety)[s], budget, fastTime, SetsOf(p, kept), c, r)
    requires Flagged(p.flagged, r.turns) <= Flagged(p.flagged, c.turns)
    ensures Kept(p, safety, budget, fastTime, s, Alternative(Slots(p, safety)[s].0, Slots(p, safety)[s].1, r))
  {
    hide Ran, Flagged, IsPath, Dominates, Candidate, SlotRoute, SetsOf, Slots;
    var slot := Slots(p, safety)[s];
    var ac := SlotRan(p, slot, budget, fastTime, SetsOf(p, kept), c, r);
    assert NoWorse(p, slot.0, budget, fastTime, Alternative(slot.0, slot.1, r), c);
  }

  // The test against each route kept is what keeps them apart.
  lemma ExtendApart(p: Problem, kept: seq<Alternative>, a: Alternative)
    requires p.Valid() && AllApart(p, kept) && AllInRange(p, kept) && InRange(p.q.topo, a.result.turns)
    requires forall i :: 0 <= i < |kept| ==> kept[i].lam <= a.lam
    requires !Repeats(p.cfg.threshold, EdgeSet(p, a.result), SetsOf(p, kept))
    ensures AllApart(p, kept + [a])
  {
    hide Alike, EdgeSet;
    forall i | 0 <= i < |kept| ensures Apart(p, kept[i], a) {
      assert !Alike(p.cfg.threshold, EdgeSet(p, a.result), SetsOf(p, kept)[i]);
    }
  }

  lemma {:induction false} SweptKept(p: Problem, safety: bool, budget: real, fastTime: real, n: nat,
                                     collected: seq<Alternative>) returns (slots: seq<nat>)
    requires p.Valid() && n <= |Slots(p, safety)| && Swept(p, safety, budget, fastTime, n, collected)
    ensures AllInRange(p, collected) && AllApart(p, collected) && |collected| <= n
    ensures AllKept(p, safety, budget, fastTime, collected, slots) && forall i :: 0 <= i < |slots| ==> slots[i] < n
    decreases n
  {
    hide Swept, Slots, SlotRoute, SetsOf, Repeats, EdgeSet, Flagged, Kept, Apart, Outcome;
    if n == 0 {
      SweptNone(p, safety, budget, fastTime, collected);
      slots := [];
    } else {
      var before, c, r := LastSlot(p, safety, budget, fastTime, n - 1, collected);
      slots := SweptKept(p, safety, budget, fastTime, n - 1, before);
      if collected != before {
        OutcomeKept(p, safety, budget, fastTime, n - 1, before, slots, c, r);
        slots := slots + [n - 1];
      }
    }
  }

  lemma OutcomeKept(p: Problem, safety: bool, budget: real, fastTime: real, s: nat, before: seq<Alternative>,
                    slots: seq<nat>, c: PathResult, r: PathResult)
    requires p.Valid() && s < |Slots(p, safety)| && AllInRange(p, before) && AllApart(p, before)
    requires InRange(p.q.topo, c.turns) && InRange(p.q.topo, r.turns)
    requires SlotRoute(p, Slots(p, safety)[s], budget, fastTime, SetsOf(p, before), c, r)
    requires AllKept(p, safety, budget, fastTime, before, slots) && forall i :: 0 <= i < |slots| ==> slots[i] < s
    ensures var after := Outcome(p, Slots(p, safety)[s], before, c, r);
            after != before ==>
              && |after| == |before| + 1 && AllInRange(p, after) && AllApart(p, after)
              && AllKept(p, safety, budget, fastTime, after, slots + [s])
  {
    hide Slots, SlotRoute, SetsOf, Repeats, EdgeSet, Flagged, Kept, Apart;
    SlotOrder(p, safety);
    var slot := Slots(p, safety)[s];
    if Outcome(p, slot, before, c, r) != before {
      TakenIsKept(p, safety, budget, fastTime, s, before, c, r);
      forall i | 0 <= i < |before| ensures before[i].lam <= slot.1 {
        KeptSlot(p, safety, budget, fastTime, slots[i], before[i]);
      }
      ExtendApart(p, before, Alternative(slot.0, slot.1, r));
    }
  }

  lemma KeptSlot(p: Problem, safety: bool, budget: real, fastTime: real, s: nat, a: Alternative)
    requires p.Valid() && Kept(p, safety, budget, fastTime, s, a)
    ensures s < |Slots(p, safety)| && a.lam == Slots(p, safety)[s].1
    ensures IsPath(p, a.result) && InRange(p.q.topo, a.result.turns)
  {
  }

  // The budget takes routes out and leaves the others in place: where each
  // one stays, and that exactly the first and those that fit do.
  lemma {:induction false} WithinExactly(p: Problem, kept: seq<Alternative>, limit: real, n: nat) returns (at: seq<nat>)
    requires p.Valid() && AllInRange(p, kept) && n <= |kept|
    ensures |at| == |Within(p, kept, limit, n)|
    ensures forall i, j :: 0 <= i < j < |at| ==> at[i] < at[j]
    ensures forall i :: 0 <= i < |at| ==> at[i] < n && Within(p, kept, limit, n)[i] == kept[at[i]]
    ensures forall k: nat :: k < n ==> (k in at <==> k == 0 || TravelTime(p, kept[k].result) <= limit)
    ensures n > 0 ==> at != [] && at[0] == 0
  {
    hide TravelTime;
    if n == 0 {
      at := [];
    } else if n == 1 {
      at := [0];
    } else {
      at := WithinExactly(p, kept, limit, n - 1);
      if Fits(p, kept[n - 1], limit) {
        at := at + [n - 1];
      }
    }
  }

  // Of the routes collected exactly those stay that take at most the budget
  // longer than the first.
  lemma AffordableStay(p: Problem, safety: bool, budget: real, fastTime: real, collected: seq<Alternative>,
                       kept: seq<Alternative>) returns (at: seq<nat>)
    requires p.Valid() && Answered(p, safety, budget, fastTime, collected, kept)
    ensures |at| == |kept| && collected != [] && AllInRange(p, collected)
    ensures forall i, j :: 0 <= i < j < |at| ==> at[i] < at[j]
    ensures forall i :: 0 <= i < |at| ==>
              at[i] < |collected| && kept[i].result == collected[at[i]].result && kept[i].lam == collected[at[i]].lam
    ensures forall k: nat :: k < |collected| ==>
              (k in at <==> k == 0 || TravelTime(p, collected[k].result)
                                      <= (1.0 + budget) * TravelTime(p, collected[0].result))
  {
    hide Swept, Within, TravelTime, Slots, Problem.Valid;
    at := WithinExactly(p, collected, Limit(budget, fastTime), |collected|);
  }

  lemma WithinKeeps(p: Problem, safety: bool, budget: real, fastTime: real, kept: seq<Alternative>, slots: seq<nat>,
                    limit: real) returns (slots': seq<nat>)
    requires p.Valid() && StartsFast(p, fastTime, kept) && AllInRange(p, kept) && AllApart(p, kept)
    requires AllKept(p, safety, budget, fastTime, kept, slots)
    ensures var r := Within(p, kept, limit, |kept|);
            && |r| <= |kept| && StartsFast(p, fastTime, r) && AllInRange(p, r) && AllApart(p, r)
            && AllKept(p, safety, budget, fastTime, r, slots')
            && forall i :: 1 <= i < |r| ==> Fits(p, r[i], limit)
  {
    hide Kept, Apart, Ran, TravelTime, ArcCost, Within;
    var at := WithinExactly(p, kept, limit, |kept|);
    var r := Within(p, kept, limit, |kept|);
    slots' := seq(|at|, i requires 0 <= i < |at| => slots[at[i]]);
    Increasing(at, |kept|);
    forall i | 1 <= i < |r| ensures Fits(p, r[i], limit) {
      assert at[i] in at && at[0] < at[i];
    }
  }

  lemma {:induction false} Increasing(at: seq<nat>, n: nat)
    requires forall i, j :: 0 <= i < j < |at| ==> at[i] < at[j]
    requires forall i :: 0 <= i < |at| ==> at[i] < n
    ensures |at| <= n
  {
    if at != [] {
      Increasing(at[..|at| - 1], at[|at| - 1]);
    }
  }

  lemma RelabelKeeps(p: Problem, safety: bool, budget: real, fastTime: real, kept: seq<Alternative>, slots: seq<nat>)
    requires p.Valid() && StartsFast(p, fastTime, kept) && AllApart(p, kept)
    requires AllKept(p, safety, budget, fastTime, kept, slots)
    ensures StartsFast(p, fastTime, Relabel(kept)) && AllApart(p, Relabel(kept))
    ensures AllKept(p, safety, budget, fastTime, Relabel(kept), slots)
  {
    hide Ran, Kept, Slots, Alike, EdgeSet;
    var r := Relabel(kept);
    forall i, j | 0 <= i < j < |r| ensures Apart(p, r[i], r[j]) {
      assert Apart(p, kept[i], kept[j]);
    }
    forall i | 0 <= i < |kept| ensures Kept(p, safety, budget, fastTime, slots[i], r[i]) {
      KeptAnyKind(p, safety, budget, fastTime, slots[i], kept[i], r[i].kind);
    }
  }

  lemma KeptAnyKind(p: Problem, safety: bool, budget: real, fastTime: real, s: nat, a: Alternative, kind: Kind)
    requires p.Valid() && Kept(p, safety, budget, fastTime, s, a)
    ensures Kept(p, safety, budget, fastTime, s, a.(kind := kind))
  {
    hide Candidate, Ran, Flagged, Slots, IsPath, Dominates;
    var c :| NoWorse(p, Slots(p, safety)[s].0, budget, fastTime, a, c);
    assert NoWorse(p, Slots(p, safety)[s].0, budget, fastTime, a.(kind := kind), c);
  }

  // The answer keeps every promise made about it.
  lemma AnswerIsCurated(p: Problem, safety: bool, budget: real, kept: seq<Alternative>)
    requires p.Valid() && Answer(p, safety, budget, kept)
    ensures Curated(p, safety, budget, kept)
  {
    if Unreachable(p) {
      hide *;
      NoneIsCurated(p, safety, budget);
    } else {
      hide Collects, Unreachable, Labelled, Within, Limit, Curated;
      var fastTime, collected :| Answered(p, safety, budget, fastTime, collected, kept);
      FoundIsCurated(p, safety, budget, fastTime, collected, kept);
    }
  }

  lemma NoneIsCurated(p: Problem, safety: bool, budget: real)
    requires p.Valid() && Unreachable(p)
    ensures Curated(p, safety, budget, [])
  {
    hide Unreachable;
  }

  lemma FoundIsCurated(p: Problem, safety: bool, budget: real, fastTime: real, collected: seq<Alternative>,
                       kept: seq<Alternative>)
    requires p.Valid() && !Unreachable(p) && Answered(p, safety, budget, fastTime, collected, kept)
    ensures Curated(p, safety, budget, kept)
  {
    hide Swept, Unreachable, Limit, Ran, TravelTime, ArcCost, AllKept, AllApart, Within, Slots, Fits;
    var n, limit := |Slots(p, safety)|, Limit(budget, fastTime);
    SweptFirst(p, safety, budget, fastTime, n, collected);
    var slots := SweptKept(p, safety, budget, fastTime, n, collected);
    assert StartsFast(p, fastTime, collected);
    var slots' := WithinKeeps(p, safety, budget, fastTime, collected, slots, limit);
    var within := Within(p, collected, limit, |collected|);
    if safety && |within| > 1 {
      RelabelKeeps(p, safety, budget, fastTime, within, slots');
      RelabelFits(p, within, limit);
    }
    assert AllKept(p, safety, budget, fastTime, kept, slots');
  }

  lemma RelabelFits(p: Problem, kept: seq<Alternative>, limit: real)
    requires p.Valid() && AllInRange(p, kept)
    ensures AllInRange(p, Relabel(kept))
    ensures forall i :: 0 <= i < |kept| ==>
              && Fits(p, kept[i], limit) == Fits(p, Relabel(kept)[i], limit)
              && Relabel(kept)[i].kind == if i == 0 then Fast else if i == |kept| - 1 then Safe else Balanced
  {
  }

  // ------------------------------------------------------------- the sweep

  method Sweep(p: Problem, safety: bool) returns (sweep: seq<(Kind, real)>)
    ensures sweep == Slots(p, safety)
  {
    sweep := [(Fast, p.cfg.lambdaFast)];
    if safety {
      sweep := sweep + [(Balanced, p.cfg.lambdaBalanced), (Safe, p.cfg.lambdaSafe)];
    }
  }

  method AvoidWithinBudget(p: Problem, lam: real, fastTime: real, budget: real, plain: PathResult)
    returns (clean: Option<(PathResult, seq<real>)>)
    requires p.Valid() && 0.0 <= lam && InRange(p.q.topo, plain.turns)
    ensures clean.Some? ==>
              && clean.value.1 == AvoidCost(p, lam)
              && Avoids(p, lam, budget, fastTime, plain, clean.value.0)
    ensures clean.None? ==> forall r :: !Avoids(p, lam, budget, fastTime, plain, r)
  {
    if true !in p.flagged {
      NoneFlagged(p.flagged, plain.turns);
      return None;
    }
    var ac := AvoidCost(p, lam);
    ArraysDominate(p, lam, p.q.arc, {});
    var result := Run(p, ac);
    RanPath(p, ac, result);
    forall r | Ran(p, ac, Some(r)) ensures result == Some(r) {
      EnginesAgree(p.q.(arc := ac), result, Some(r));
    }
    if result == None {
      return None;
    }
    if Flagged(p.flagged, result.value.turns) >= Flagged(p.flagged, plain.turns) {
      return None;
    }
    if TravelTime(p, result.value) > (1.0 + budget) * fastTime {
      return None;
    }
    clean := Some((result.value, ac));
  }

  lemma OneRerun(p: Problem, ac0: seq<real>, r0: PathResult, keptSets: seq<set<nat>>, k: nat,
                 ac1: seq<real>, r1: PathResult, ac: seq<real>, r: PathResult)
    requires p.Valid() && Rerun(p, ac0, r0, keptSets, k, ac1, r1) && Inflated(p, keptSets, ac1, r1, ac)
    requires Ran(p, ac, Some(r))
    ensures Rerun(p, ac0, r0, keptSets, k + 1, ac, r)
  {
    hide Ran, Inflated;
    assert Rerun(p, ac0, r0, keptSets, k + 1 - 1, ac1, r1);
  }

  // The penalty method: inflate what is shared, search again, at most
  // max_reruns times.
  method Diversify(p: Problem, ac0: seq<real>, r0: PathResult, keptSets: seq<set<nat>>)
    returns (result: PathResult, ghost ac: seq<real>)
    requires p.Valid() && Dominates(p, ac0) && Ran(p, ac0, Some(r0)) && InRange(p.q.topo, r0.turns)
    ensures Dominates(p, ac) && Ran(p, ac, Some(result)) && InRange(p.q.topo, result.turns)
    ensures Diversified(p, ac0, r0, keptSets, ac, result)
  {
    hide Ran, Rerun, Duplicate, Repeats, Unreachable, IsPath, Inflated, EdgeSet, Inflate;
    result, ac := r0, ac0;
    RanPath(p, ac0, Some(r0));
    var cur := ac0;
    var edgeSet, reruns: nat := EdgeSet(p, result), 0;
    RerunStart(p, ac0, r0, keptSets, ac0, r0);
    RepeatsIfDuplicate(p, keptSets, result);
    while Duplicate(p.cfg.threshold, edgeSet, keptSets) && reruns < p.cfg.maxReruns
      invariant Dominates(p, ac) && Ran(p, ac, Some(result)) && InRange(p.q.topo, result.turns)
      invariant cur == ac && edgeSet == EdgeSet(p, result)
      invariant Duplicate(p.cfg.threshold, edgeSet, keptSets) <==> Repeats(p.cfg.threshold, edgeSet, keptSets)
      invariant reruns <= p.cfg.maxReruns && Rerun(p, ac0, r0, keptSets, reruns, ac, result)
      decreases p.cfg.maxReruns - reruns
    {
      var shared := Union(keptSets) * edgeSet;
      ArraysDominate(p, 0.0, cur, shared);
      InflateIs(p, keptSets, cur, result);
      cur := Inflate(p, cur, shared);
      var rerun := Run(p, cur);
      RanPath(p, cur, rerun);
      if rerun == None {
        assert false;
        break;
      }
      OneRerun(p, ac0, r0, keptSets, reruns, ac, result, cur, rerun.value);
      PathInRange(p, rerun.value);
      reruns := reruns + 1;
      result, ac := rerun.value, cur;
      edgeSet := EdgeSet(p, result);
      RepeatsIfDuplicate(p, keptSets, result);
    }
    assert StopsAt(p, keptSets, reruns, result);
  }

  // The budget as a ceiling.
  method EnforceBudget(p: Problem, kept: seq<Alternative>, limit: real) returns (r: seq<Alternative>)
    requires p.Valid() && AllInRange(p, kept) && kept != []
    ensures r == Within(p, kept, limit, |kept|)
  {
    hide Fits;
    r := [kept[0]];
    for k := 1 to |kept|
      invariant r == Within(p, kept, limit, k)
    {
      if Fits(p, kept[k], limit) {
        r := r + [kept[k]];
      }
    }
  }

  // The slot's result before diversity.
  method SlotCandidate(p: Problem, kind: Kind, lam: real, budget: real, fastTime: real, plain: PathResult)
    returns (c: PathResult, ac: seq<real>)
    requires p.Valid() && 0.0 <= lam && Ran(p, ArcCost(p, lam), Some(plain)) && InRange(p.q.topo, plain.turns)
    ensures Dominates(p, ac) && Ran(p, ac, Some(c)) && SlotBase(p, kind, lam, budget, fastTime, plain, c)
    ensures ac == if c == plain then ArcCost(p, lam) else AvoidCost(p, lam)
  {
    ArraysDominate(p, lam, p.q.arc, {});
    c, ac := plain, ArcCost(p, lam);
    if kind == Safe && budget > 0.0 && Flagged(p.flagged, plain.turns) > 0 {
      var clean := AvoidWithinBudget(p, lam, fastTime, budget, plain);
      if clean.Some? {
        c, ac := clean.value.0, clean.value.1;
      }
    }
  }

  lemma SlotRouteNow(p: Problem, slot: (Kind, real), budget: real, fastTime: real, keptSets: seq<set<nat>>,
                     plain: PathResult, c: PathResult, ac0: seq<real>, ac: seq<real>, r: PathResult)
    requires p.Valid() && 0.0 <= slot.1 && InRange(p.q.topo, r.turns)
    requires SlotBase(p, slot.0, slot.1, budget, fastTime, plain, c) && Diversified(p, ac0, c, keptSets, ac, r)
    requires ac0 == if c == plain then ArcCost(p, slot.1) else AvoidCost(p, slot.1)
    ensures InRange(p.q.topo, c.turns) && SlotRoute(p, slot, budget, fastTime, keptSets, c, r)
  {
    SlotInRange(p, slot.0, slot.1, budget, fastTime, plain, c);
    hide SlotBase, Diversified, ArcCost, AvoidCost;
    assert SlotRuns(p, slot, budget, fastTime, keptSets, plain, c, ac, r);
  }

  // One slot more.
  lemma SweepOn(p: Problem, safety: bool, budget: real, fastTime: real, n: nat, kept: seq<Alternative>,
                c: PathResult, r: PathResult)
    requires p.Valid() && n < |Slots(p, safety)| && Swept(p, safety, budget, fastTime, n, kept) && AllInRange(p, kept)
    requires InRange(p.q.topo, c.turns) && InRange(p.q.topo, r.turns)
    requires SlotRoute(p, Slots(p, safety)[n], budget, fastTime, SetsOf(p, kept), c, r)
    ensures Swept(p, safety, budget, fastTime, n + 1, Outcome(p, Slots(p, safety)[n], kept, c, r))
  {
    hide SlotRoute, SetsOf, Repeats, EdgeSet, Flagged, Slots, AllInRange;
    var slot := Slots(p, safety)[n];
    var after := Outcome(p, slot, kept, c, r);
    if Repeats(p.cfg.threshold, EdgeSet(p, r), SetsOf(p, kept)) || Flagged(p.flagged, r.turns) > Flagged(p.flagged, c.turns) {
      assert Drops(p, slot, budget, fastTime, kept, c, r);
      assert SweptPast(p, safety, budget, fastTime, n, after);
    } else {
      var a := Alternative(slot.0, slot.1, r);
      assert Takes(p, slot, budget, fastTime, kept, c, a);
      assert after[..|kept|] == kept && after[|kept|] == a;
      assert SweptOnto(p, safety, budget, fastTime, n, kept, a);
    }
  }

  // The first slot's optimum set the baseline, and it was collected.
  lemma {:induction false} Baseline(p: Problem, safety: bool, budget: real, fastTime: real, n: nat,
                                    kept: seq<Alternative>, plain: PathResult)
    requires p.Valid() && 0 < n <= |Slots(p, safety)| && Swept(p, safety, budget, fastTime, n, kept)
    requires Ran(p, ArcCost(p, p.cfg.lambdaFast), Some(plain))
    ensures kept != [] && kept[0].result == plain
  {
    hide Swept, Ran, ArcCost, Slots;
    SweptFirst(p, safety, budget, fastTime, n, kept);
    OneRan(p, ArcCost(p, p.cfg.lambdaFast), kept[0].result, plain);
  }

  lemma SetsExtend(p: Problem, kept: seq<Alternative>, a: Alternative)
    requires AllInRange(p, kept) && InRange(p.q.topo, a.result.turns)
    ensures AllInRange(p, kept + [a]) && SetsOf(p, kept + [a]) == SetsOf(p, kept) + [EdgeSet(p, a.result)]
  {
    hide EdgeSet;
  }

  method CollectRoutes(p: Problem, safety: bool, budget: real) returns (kept: seq<Alternative>, fastTime: Option<real>)
    requires p.Valid()
    ensures fastTime == None <==> Unreachable(p)
    ensures fastTime == None ==> kept == []
    ensures fastTime.Some? ==> Collects(p, safety, budget, fastTime.value, kept)
  {
    hide Ran, SlotBase, EdgeSet, Unreachable, Duplicate, SlotRoute, Diversified, Slots, Flagged, Swept,
         SetsOf, AllInRange, Dominates, TravelTime, ArcCost, AvoidCost, IsPath, Consistent, Repeats;
    var sweep := Sweep(p, safety);
    SlotOrder(p, safety);
    var keptSets: seq<set<nat>> := [];
    kept, fastTime := [], None;
    SweptNone(p, safety, budget, 0.0, []);
    for i := 0 to |sweep|
      invariant AllInRange(p, kept) && keptSets == SetsOf(p, kept)
      invariant fastTime == None ==> kept == []
      invariant i > 0 ==> (fastTime == None <==> Unreachable(p))
      invariant fastTime.Some? ==> i > 0 && Swept(p, safety, budget, fastTime.value, i, kept)
      invariant fastTime.Some? ==> kept != [] && InRange(p.q.topo, kept[0].result.turns)
      invariant fastTime.Some? ==> fastTime.value == TravelTime(p, kept[0].result)
    {
      var kind, lam := sweep[i].0, sweep[i].1;
      TimeDominates(p, lam);
      var found := Run(p, ArcCost(p, lam));
      RanPath(p, ArcCost(p, lam), found);
      if found == None { continue; }
      var plain := found.value;
      PathInRange(p, plain);
      if fastTime == None {
        fastTime := Some(TravelTime(p, plain));
        SweptNone(p, safety, budget, fastTime.value, []);
      }
      var c, ac := SlotCandidate(p, kind, lam, budget, fastTime.value, plain);
      SlotInRange(p, kind, lam, budget, fastTime.value, plain, c);
      var result, finalAc := Diversify(p, ac, c, keptSets);
      SlotRouteNow(p, sweep[i], budget, fastTime.value, keptSets, plain, c, ac, finalAc, result);
      SweepOn(p, safety, budget, fastTime.value, i, kept, c, result);
      RepeatsIfDuplicate(p, keptSets, result);
      if Duplicate(p.cfg.threshold, EdgeSet(p, result), keptSets) {
        if i == 0 { Baseline(p, safety, budget, fastTime.value, 1, kept, plain); }
        continue;
      }
      if Flagged(p.flagged, result.turns) > Flagged(p.flagged, c.turns) {
        if i == 0 { Baseline(p, safety, budget, fastTime.value, 1, kept, plain); }
        continue;
      }
      var a := Alternative(kind, lam, result);
      SetsExtend(p, kept, a);
      if i == 0 { Baseline(p, safety, budget, fastTime.value, 1, kept + [a], plain); }
      kept, keptSets := kept + [a], keptSets + [EdgeSet(p, result)];
    }
  }

  method ComputeAlternatives(p: Problem, safety: bool, budget: real) returns (kept: seq<Alternative>)
    requires p.Valid()
    ensures Answer(p, safety, budget, kept)
    ensures Curated(p, safety, budget, kept)
  {
    hide Unreachable, Collects, Within, Curated, Limit, Answered;
    var fastTime;
    kept, fastTime := CollectRoutes(p, safety, budget);
    ghost var collected := kept;
    if fastTime.Some? {
      CollectedShape(p, safety, budget, fastTime.value, kept);
      var limit := Limit(budget, fastTime.value);
      if |kept| > 1 {
        kept := EnforceBudget(p, kept, limit);
      } else {
        OneStays(p, kept, limit);
      }
    }
    if safety && |kept| > 1 {
      kept := Relabel(kept);
    }
    if fastTime.Some? {
      AnsweredNow(p, safety, budget, fastTime.value, collected);
      assert Answered(p, safety, budget, fastTime.value, collected, kept);
    }
    AnswerIsCurated(p, safety, budget, kept);
  }

  lemma {:induction false} AnsweredNow(p: Problem, safety: bool, budget: real, fastTime: real,
                                       collected: seq<Alternative>)
    requires p.Valid() && Collects(p, safety, budget, fastTime, collected)
    ensures AllInRange(p, collected)
    ensures Answered(p, safety, budget, fastTime, collected,
                     Labelled(safety, Within(p, collected, Limit(budget, fastTime), |collected|)))
  {
    hide Swept, Within, Limit, Labelled;
  }

  lemma CollectedShape(p: Problem, safety: bool, budget: real, fastTime: real, collected: seq<Alternative>)
    requires p.Valid() && Collects(p, safety, budget, fastTime, collected)
    ensures AllInRange(p, collected) && collected != []
  {
    hide Swept;
  }

  lemma {:induction false} OneStays(p: Problem, kept: seq<Alternative>, limit: real)
    requires p.Valid() && AllInRange(p, kept) && |kept| <= 1
    ensures Within(p, kept, limit, |kept|) == kept
  {
    assert kept[..|kept|] == kept;
  }

  lemma PathInRange(p: Problem, r: PathResult)
    requires p.q.Valid() && IsPath(p, r)
    ensures InRange(p.q.topo, r.turns)
  {
  }

  lemma SlotInRange(p: Problem, kind: Kind, lam: real, budget: real, fastTime: real, plain: PathResult, r: PathResult)
    requires p.Valid() && 0.0 <= lam && SlotBase(p, kind, lam, budget, fastTime, plain, r)
    ensures InRange(p.q.topo, r.turns)
  {
  }

  // What the reroute path answers at one level: the optimum at the carried
  // lambda, or the hard-avoid route measured against the fastest baseline.
  ghost predicate SingleLevel(p: Problem, level: Kind, lam: real, budget: real, plain: PathResult, r: PathResult)
    requires p.Valid() && 0.0 <= lam
  {
    && Ran(p, ArcCost(p, lam), Some(plain)) && InRange(p.q.topo, plain.turns)
    && if level == Safe && budget > 0.0 && Flagged(p.flagged, plain.turns) > 0
       then exists fast: PathResult :: InRange(p.q.topo, fast.turns) && Ran(p, ArcCost(p, 0.0), Some(fast))
              && SlotBase(p, level, lam, budget, TravelTime(p, fast), plain, r)
       else r == plain
  }

  // No sweep and no diversity; the baseline is computed only for the avoid
  // attempt and never returned.
  method ComputeSingle(p: Problem, level: Kind, lam: real, budget: real) returns (r: Option<PathResult>)
    requires p.Valid() && 0.0 <= lam
    ensures r.None? <==> Unreachable(p)
    ensures r.Some? ==> exists plain :: SingleLevel(p, level, lam, budget, plain, r.value)
  {
    hide Ran, IsPath, Avoids, Unreachable, SingleLevel, Flagged, TravelTime, ArcCost;
    ArraysDominate(p, lam, p.q.arc, {});
    r := Run(p, ArcCost(p, lam));
    RanPath(p, ArcCost(p, lam), r);
    if r == None {
      return;
    }
    ghost var plain := r.value;
    PathInRange(p, plain);
    if level == Safe && budget > 0.0 && Flagged(p.flagged, r.value.turns) > 0 {
      ArraysDominate(p, 0.0, p.q.arc, {});
      var baseline := Run(p, ArcCost(p, 0.0));
      RanPath(p, ArcCost(p, 0.0), baseline);
      if baseline.Some? {
        PathInRange(p, baseline.value);
        var clean := AvoidWithinBudget(p, lam, TravelTime(p, baseline.value), budget, r.value);
        if clean.Some? {
          r := Some(clean.value.0);
        }
        SingleAvoid(p, level, lam, budget, plain, baseline.value, r.value);
      }
    } else {
      SinglePlain(p, level, lam, budget, plain);
    }
  }

  lemma SinglePlain(p: Problem, level: Kind, lam: real, budget: real, plain: PathResult)
    requires p.Valid() && 0.0 <= lam && Ran(p, ArcCost(p, lam), Some(plain)) && InRange(p.q.topo, plain.turns)
    requires !(level == Safe && budget > 0.0 && Flagged(p.flagged, plain.turns) > 0)
    ensures SingleLevel(p, level, lam, budget, plain, plain)
  {
    hide Ran;
  }

  lemma SingleAvoid(p: Problem, level: Kind, lam: real, budget: real, plain: PathResult, fast: PathResult,
                    r: PathResult)
    requires p.Valid() && 0.0 <= lam && Ran(p, ArcCost(p, lam), Some(plain)) && InRange(p.q.topo, plain.turns)
    requires level == Safe && budget > 0.0 && Flagged(p.flagged, plain.turns) > 0
    requires Ran(p, ArcCost(p, 0.0), Some(fast)) && InRange(p.q.topo, fast.turns)
    requires Avoids(p, lam, budget, TravelTime(p, fast), plain, r)
             || (r == plain && forall a :: !Avoids(p, lam, budget, TravelTime(p, fast), plain, a))
    ensures SingleLevel(p, level, lam, budget, plain, r)
  {
    if Avoids(p, lam, budget, TravelTime(p, fast), plain, r) {
      AvoidsInRange(p, lam, TravelTime(p, fast), budget, plain, r);
    }
    hide Ran, Avoids, TravelTime, Flagged, ArcCost;
    assert SlotBase(p, level, lam, budget, TravelTime(p, fast), plain, r);
  }

  lemma AvoidsInRange(p: Problem, lam: real, fastTime: real, budget: real, plain: PathResult, r: PathResult)
    requires p.Valid() && 0.0 <= lam && InRange(p.q.topo, plain.turns) && Avoids(p, lam, budget, fastTime, plain, r)
    ensures InRange(p.q.topo, r.turns)
  {
  }
}
