// The optimality theorem: what `Returns` promises about routes.
module Routes {
  import opened Topology
  import opened Search
  import opened Parity
  import opened Optimality

  // ------------------------------------------------------------ over a run

  lemma {:induction false} RunInv(q: Query, run: seq<State>, k: nat)
    requires q.Valid() && Exact(q) && Consistent(q) && Steps(q, run) && run[0] == Initial(q) && k < |run|
    ensures Inv(q, run[k], q.topo.Turns())
  {
    hide *;
    if k == 0 {
      InitialInv(q);
    } else {
      RunInv(q, run, k - 1);
      StepAt(q, run, k - 1);
      StepKeeps(q, run[k - 1], run[k]);
    }
  }

  lemma StepAt(q: Query, run: seq<State>, k: nat)
    requires q.Valid() && Steps(q, run) && k + 1 < |run|
    ensures Shaped(q, run[k]) && Step(q, run[k], run[k + 1])
  {
  }

  lemma StepKeeps(q: Query, s: State, s': State)
    requires q.Valid() && Exact(q) && Consistent(q) && Inv(q, s, q.topo.Turns()) && Step(q, s, s')
    ensures Inv(q, s', q.topo.Turns())
    ensures s.order <= s'.order
    ensures Fixed(s, s')
  {
    hide Inv, HeapInv, Pop;
    var x :| Minimal(s.heap, x) && x.e < q.topo.Edges() && !Stops(q, s, x) && s' == Pop(q, s, x);
    PopKeeps(q, s, x);
  }

  // No edge is expanded twice in any run, complete or not.
  lemma ExpandedOnce(q: Query, run: seq<State>, k: nat, i: nat, j: nat)
    requires q.Valid() && Exact(q) && Consistent(q) && Steps(q, run) && run[0] == Initial(q) && k < |run|
    requires i < j < |run[k].order|
    ensures run[k].order[i] != run[k].order[j]
    ensures run[k].order[i] < |run[k].dist| && run[k].order[j] < |run[k].dist|
    ensures Key(q, run[k], run[k].order[i]) <= Key(q, run[k], run[k].order[j])
  {
    RunInv(q, run, k);
  }

  // What is expanded keeps its place, its distance and its predecessor for
  // the rest of the run.
  lemma {:induction false} Frozen(q: Query, run: seq<State>, j: nat, k: nat)
    requires q.Valid() && Exact(q) && Consistent(q) && Steps(q, run) && run[0] == Initial(q) && j <= k < |run|
    ensures run[j].order <= run[k].order && Fixed(run[j], run[k])
    decreases k - j
  {
    hide *;
    RunInv(q, run, j);
    if j == k {
      FixedSelf(q, run[j], q.topo.Turns());
    } else {
      RunInv(q, run, k - 1);
      Frozen(q, run, j, k - 1);
      StepAt(q, run, k - 1);
      StepKeeps(q, run[k - 1], run[k]);
      FixedTrans(run[j], run[k - 1], run[k]);
    }
  }

  // ------------------------------------------------------ lower bounds

  ghost predicate OpenBelow(q: Query, s: State, n: nat, bound: real)
    requires q.Valid() && Shaped(q, s)
  {
    n in OpenEdges(q, s) && Key(q, s, n) <= bound
  }

  ghost predicate FrontierBelow(q: Query, s: State, bound: real)
    requires q.Valid() && Shaped(q, s)
  {
    exists n: nat :: OpenBelow(q, s, n, bound)
  }

  // Either the walk is expanded to its end, or some frontier edge of it has a
  // key below the walk's own.
  lemma {:induction false} WalkBound(q: Query, s: State, i: nat, turns: seq<nat>)
    requires q.Valid() && Consistent(q) && Inv(q, s, q.topo.Turns()) && i < |q.seeds|
    requires IsWalk(q.topo, q.seeds[i].edge, turns) && InRange(q.topo, turns)
    ensures var d, c := End(q.topo, q.seeds[i].edge, turns), q.seeds[i].cost + Sum(q.arc, turns);
            (d in s.order && Cost(s, d) <= c) || FrontierBelow(q, s, c + q.H(d))
  {
    var d, c := End(q.topo, q.seeds[i].edge, turns), q.seeds[i].cost + Sum(q.arc, turns);
    hide Inv, HeapInv, OpenEdges, Topo.Valid, Consistent;
    if turns == [] {
      SeedIsBelow(q, s, i);
      ReachedIsBelow(q, s, d, c);
    } else {
      var t, before := turns[|turns| - 1], turns[..|turns| - 1];
      var d0, c0 := End(q.topo, q.seeds[i].edge, before), q.seeds[i].cost + Sum(q.arc, before);
      WalkBound(q, s, i, before);
      if d0 in s.order && Cost(s, d0) <= c0 {
        TurnIsRelaxed(q, s, t);
        ReachedIsBelow(q, s, d, c);
      } else {
        var n: nat :| OpenBelow(q, s, n, c0 + q.H(d0));
        assert OpenBelow(q, s, n, c + q.H(d));
      }
    }
  }

  lemma SeedIsBelow(q: Query, s: State, i: nat)
    requires q.Valid() && Inv(q, s, q.topo.Turns()) && i < |q.seeds|
    ensures Reached(s, q.seeds[i].edge) && Cost(s, q.seeds[i].edge) <= q.seeds[i].cost
  {
    hide HeapInv, Frontier, Relaxed, Preds, BestSoFar;
  }

  lemma TurnIsRelaxed(q: Query, s: State, t: nat)
    requires q.Valid() && Inv(q, s, q.topo.Turns()) && t < q.topo.Turns() && q.topo.inEdge[t] in s.order
    ensures RelaxedAt(q, s, t)
  {
    hide HeapInv, Frontier, Preds, BestSoFar, SeedsIn;
    assert Due(q, s, t, q.topo.Turns());
  }

  lemma ReachedIsBelow(q: Query, s: State, d: nat, c: real)
    requires q.Valid() && Inv(q, s, q.topo.Turns()) && Reached(s, d) && Cost(s, d) <= c
    ensures d in s.order || FrontierBelow(q, s, c + q.H(d))
  {
    hide HeapInv, Relaxed, Preds, BestSoFar, SeedsIn, OpenEdges;
    assert d !in s.order ==> OpenBelow(q, s, d, c + q.H(d));
  }

  lemma {:induction false} SlackCovers(q: Query, k: nat, j: nat)
    requires q.Valid() && Exact(q) && j < k <= |q.dests|
    ensures q.H(q.dests[j].edge) - q.dests[j].cost <= Slack(q, k)
  {
    if j < k - 1 {
      SlackCovers(q, k - 1, j);
    }
  }

  lemma {:induction false} AdjustListed(dests: seq<Endpoint>, e: nat)
    requires Adjust(dests, e).Some?
    ensures exists j :: 0 <= j < |dests| && dests[j] == Endpoint(e, Adjust(dests, e).value)
  {
    var last := dests[|dests| - 1];
    if last.edge == e {
      assert dests[|dests| - 1] == Endpoint(e, Adjust(dests, e).value);
    } else {
      AdjustListed(dests[..|dests| - 1], e);
      var j :| 0 <= j < |dests| - 1 && dests[..|dests| - 1][j] == Endpoint(e, Adjust(dests, e).value);
      assert dests[j] == Endpoint(e, Adjust(dests, e).value);
    }
  }

  lemma {:induction false} SlackOfDest(q: Query, d: nat)
    requires q.Valid() && Exact(q) && Adjust(q.dests, d).Some? && d < q.topo.Edges()
    ensures q.H(d) - Adjust(q.dests, d).value <= Slack(q, |q.dests|)
  {
    AdjustListed(q.dests, d);
    var j :| 0 <= j < |q.dests| && q.dests[j] == Endpoint(d, Adjust(q.dests, d).value);
    SlackCovers(q, |q.dests|, j);
  }

  lemma OpenEntry(q: Query, s: State, n: nat) returns (y: Entry)
    requires q.Valid() && Exact(q) && HeapInv(q, s) && n in OpenEdges(q, s)
    ensures y in s.heap && y.f == Key(q, s, n)
  {
    y := Entry(q.F(s.dist[n].g, n), n, s.dist[n].g);
  }

  // The slack stop is exact: when the machine halts, no route is cheaper than
  // the best finalized one.
  lemma HaltIsOptimal(q: Query, s: State, i: nat, turns: seq<nat>)
    requires q.Valid() && Exact(q) && Consistent(q) && Inv(q, s, q.topo.Turns()) && Halted(q, s)
    requires Route(q, i, turns) && InRange(q.topo, turns)
    ensures s.bestEdge >= 0 && s.bestFinal.g <= RouteCost(q, i, turns)
  {
    hide HeapInv, OpenEdges, Frontier, Relaxed, Preds, SeedsIn, Slack;
    var d, c := End(q.topo, q.seeds[i].edge, turns), q.seeds[i].cost + Sum(q.arc, turns);
    WalkBound(q, s, i, turns);
    SlackOfDest(q, d);
    if !(d in s.order && Cost(s, d) <= c) {
      var n: nat :| OpenBelow(q, s, n, c + q.H(d));
      var y := OpenEntry(q, s, n);
      var x :| Minimal(s.heap, x) && Stops(q, s, x);
      assert x.f <= y.f <= c + q.H(d);
    }
  }

  // ------------------------------------------------------- reconstruction

  // What walking `pred` back collects is a walk from a seed, of exactly the
  // edge's cost.
  lemma {:induction false} ChainIsWalk(q: Query, s: State, e: nat, turns: seq<nat>, first: nat)
    requires q.Valid() && Ordered(q, s) && Preds(q, s) && Reached(s, e) && Chain(q.topo, s.pred, e, turns, first)
    ensures InRange(q.topo, turns) && IsWalk(q.topo, first, turns) && End(q.topo, first, turns) == e
    ensures exists i :: 0 <= i < |q.seeds| && q.seeds[i].edge == first
              && q.seeds[i].cost + Sum(q.arc, turns) == Cost(s, e)
    decreases |turns|
  {
    assert Explained(q, s, e);
    if turns == [] {
      var i :| 0 <= i < |q.seeds| && q.seeds[i] == Endpoint(e, Cost(s, e));
      assert q.seeds[i].edge == first && q.seeds[i].cost + Sum(q.arc, turns) == Cost(s, e);
    } else {
      var t, before := turns[|turns| - 1], turns[..|turns| - 1];
      assert Reached(s, q.topo.inEdge[t]);
      ChainIsWalk(q, s, q.topo.inEdge[t], before, first);
      var i :| 0 <= i < |q.seeds| && q.seeds[i].edge == first
              && q.seeds[i].cost + Sum(q.arc, before) == Cost(s, q.topo.inEdge[t]);
      assert forall k :: 0 <= k < |turns| ==> turns[k] == if k < |before| then before[k] else t;
      assert q.seeds[i].edge == first && q.seeds[i].cost + Sum(q.arc, turns) == Cost(s, e);
    }
  }

  // `pred` has no cycle: from any expanded edge the walk back ends at a seed.
  lemma {:induction false} ChainExists(q: Query, s: State, j: nat) returns (turns: seq<nat>, first: nat)
    requires q.Valid() && Ordered(q, s) && Preds(q, s) && j < |s.order|
    ensures Chain(q.topo, s.pred, s.order[j], turns, first)
    decreases j
  {
    hide Explained, Ordered;
    var e := s.order[j];
    assert CameFrom(q, s, e, s.order[..j]);
    if s.pred[e] == -1 {
      turns, first := [], e;
    } else {
      var t := s.pred[e];
      var i :| 0 <= i < j && s.order[i] == q.topo.inEdge[t];
      turns, first := ChainExists(q, s, i);
      var before: seq<nat> := turns;
      turns := turns + [t as nat];
      assert turns[..|turns| - 1] == before;
    }
  }

  // ------------------------------------------------------------ the theorem

  lemma InvBest(q: Query, s: State)
    requires q.Valid() && Inv(q, s, q.topo.Turns())
    ensures Ordered(q, s) && Preds(q, s)
    ensures s.bestEdge >= 0 ==>
              && Reached(s, s.bestEdge) && Adjust(q.dests, s.bestEdge).Some?
              && s.bestFinal.g == Cost(s, s.bestEdge) + Adjust(q.dests, s.bestEdge).value
  {
  }

  lemma AnswerIsCheapest(q: Query, s: State, r: Option<PathResult>)
    requires q.Valid() && Exact(q) && Consistent(q) && Inv(q, s, q.topo.Turns()) && Halted(q, s) && Answers(q, s, r)
    ensures Cheapest(q, r)
  {
    InvBest(q, s);
    hide Inv, HeapInv, OpenEdges, Halted, Ordered, Preds, Exact, Consistent;
    forall i: nat, turns | Route(q, i, turns) ensures s.bestEdge >= 0 {
      WalkTurns(q.topo, q.seeds[i].edge, turns);
      HaltIsOptimal(q, s, i, turns);
    }
    if r.Some? {
      var p := r.value;
      ChainIsWalk(q, s, s.bestEdge, p.turns, p.first);
      var i :| 0 <= i < |q.seeds| && q.seeds[i].edge == p.first
               && q.seeds[i].cost + Sum(q.arc, p.turns) == Cost(s, s.bestEdge);
      assert IsSeedOf(q, i, p);
      forall i: nat, turns | Route(q, i, turns) && InRange(q.topo, turns) ensures p.total <= RouteCost(q, i, turns) {
        HaltIsOptimal(q, s, i, turns);
      }
    }
  }

  // For every topology, arc costs, seeds and refunds of any sign, and every
  // consistent heuristic.
  lemma SearchIsOptimal(q: Query, r: Option<PathResult>)
    requires q.Valid() && Exact(q) && Consistent(q) && Returns(q, r)
    ensures Cheapest(q, r)
  {
    hide Inv, HeapInv, Halted, Answers;
    var run :| CompleteRun(q, run) && Answers(q, run[|run| - 1], r);
    RunInv(q, run, |run| - 1);
    AnswerIsCheapest(q, run[|run| - 1], r);
  }

  // The heuristic changes which edges are expanded, never what is found.
  lemma HeuristicsAgree(q: Query, h': Option<seq<real>>, r: Option<PathResult>, r': Option<PathResult>)
    requires q.Valid() && Exact(q) && Consistent(q) && Returns(q, r)
    requires q.(h := h').Valid() && Consistent(q.(h := h')) && Returns(q.(h := h'), r')
    ensures r.None? <==> r'.None?
    ensures r.Some? ==> r.value.total == r'.value.total
  {
    var q' := q.(h := h');
    assert Exact(q') by { assert forall x, y :: q'.plus(x, y) == q.plus(x, y); }
    SearchIsOptimal(q, r);
    SearchIsOptimal(q', r');
    hide Returns, Consistent, Exact;
    assert forall i, turns :: Route(q, i, turns) <==> Route(q', i, turns);
    if r.Some? {
      var i :| IsSeedOf(q, i, r.value);
      assert Route(q', i, r.value.turns) && RouteCost(q', i, r.value.turns) == r.value.total;
    }
    if r'.Some? {
      var i :| IsSeedOf(q', i, r'.value);
      assert Route(q, i, r'.value.turns) && RouteCost(q, i, r'.value.turns) == r'.value.total;
    }
  }
}
