// What a complete run computes under exact addition and a consistent
// heuristic: the cheapest refunded route, each edge expanded at most once.
//
// Nothing is assumed about signs. A destination's refund may make the
// heuristic overestimate; the slack stop of P6 is what pays for that.
module Optimality {
  import opened Topology
  import opened Search
  import opened Parity

  // ------------------------------------------------------------ the promise

  // A walk from the i-th seed to a destination edge.
  ghost predicate Route(q: Query, i: nat, turns: seq<nat>)
    requires q.Valid()
  {
    && i < |q.seeds| && IsWalk(q.topo, q.seeds[i].edge, turns)
    && (turns != [] ==> turns[|turns| - 1] < q.topo.Turns())
    && Adjust(q.dests, End(q.topo, q.seeds[i].edge, turns)).Some?
  }

  ghost predicate InRange(topo: Topo, turns: seq<nat>) {
    forall k :: 0 <= k < |turns| ==> turns[k] < topo.Turns()
  }

  ghost function RouteCost(q: Query, i: nat, turns: seq<nat>): real
    requires q.Valid() && Route(q, i, turns) && InRange(q.topo, turns)
  {
    q.seeds[i].cost + Sum(q.arc, turns) + Adjust(q.dests, End(q.topo, q.seeds[i].edge, turns)).value
  }

  // r is the cheapest route, with its cost; None exactly when there is none.
  ghost predicate Cheapest(q: Query, r: Option<PathResult>)
    requires q.Valid()
  {
    && (r.None? ==> forall i, turns :: !Route(q, i, turns))
    && (r.Some? ==>
          && (exists i :: IsSeedOf(q, i, r.value))
          && forall i, turns :: Route(q, i, turns) && InRange(q.topo, turns) ==> r.value.total <= RouteCost(q, i, turns))
  }

  ghost predicate IsSeedOf(q: Query, i: nat, p: PathResult)
    requires q.Valid()
  {
    && Route(q, i, p.turns) && InRange(q.topo, p.turns)
    && q.seeds[i].edge == p.first && End(q.topo, p.first, p.turns) == p.dest
    && p.total == RouteCost(q, i, p.turns)
  }

  // ---------------------------------------------------------- the invariant

  function Cost(s: State, e: nat): real
    requires e < |s.dist|
  {
    if s.dist[e].Finite? then s.dist[e].g else 0.0
  }

  function Key(q: Query, s: State, e: nat): real
    requires e < |s.dist| && (q.h.Some? ==> |q.h.value| == |s.dist|)
  {
    Cost(s, e) + q.H(e)
  }

  predicate Reached(s: State, e: nat) {
    e < |s.dist| && s.dist[e].Finite?
  }

  // Edges are expanded once each, in key order.
  ghost predicate Ordered(q: Query, s: State)
    requires q.Valid()
    ensures Ordered(q, s) ==> Shaped(q, s)
  {
    && Shaped(q, s)
    && (forall i :: 0 <= i < |s.order| ==> Reached(s, s.order[i]))
    && (forall i, j :: 0 <= i < j < |s.order| ==> s.order[i] != s.order[j])
    && (forall i, j :: 0 <= i < j < |s.order| ==> Key(q, s, s.order[i]) <= Key(q, s, s.order[j]))
  }

  // Every reached edge is expanded or on the frontier, never both, and the
  // frontier lies above everything expanded.
  ghost predicate Frontier(q: Query, s: State)
    requires q.Valid()
    ensures Frontier(q, s) ==> Shaped(q, s)
  {
    && Ordered(q, s)
    && (forall i :: 0 <= i < |s.order| ==> s.order[i] !in OpenEdges(q, s))
    && (forall e: nat :: Reached(s, e) ==> e in s.order || e in OpenEdges(q, s))
    && (forall i, x :: 0 <= i < |s.order| && x in s.heap ==> Key(q, s, s.order[i]) <= x.f)
  }

  ghost predicate RelaxedAt(q: Query, s: State, t: nat)
    requires q.Valid() && Shaped(q, s) && t < q.topo.Turns()
  {
    q.topo.allowed[t] ==>
      && Reached(s, q.topo.outEdge[t])
      && Cost(s, q.topo.outEdge[t]) <= Cost(s, q.topo.inEdge[t]) + q.arc[t]
  }

  ghost predicate Due(q: Query, s: State, t: nat, upto: nat)
    requires q.Valid()
  {
    && t < q.topo.Turns() && q.topo.inEdge[t] in s.order
    && (q.topo.inEdge[t] == s.order[|s.order| - 1] ==> t < upto)
  }

  // All turns out of expanded edges are relaxed; out of the last one expanded,
  // those below `upto`.
  ghost predicate Relaxed(q: Query, s: State, upto: nat)
    requires q.Valid()
    ensures Relaxed(q, s, upto) ==> Shaped(q, s)
  {
    && Shaped(q, s)
    && forall t: nat :: Due(q, s, t, upto) ==> RelaxedAt(q, s, t)
  }

  ghost predicate IsSeed(q: Query, e: nat, g: real) {
    exists i :: 0 <= i < |q.seeds| && q.seeds[i] == Endpoint(e, g)
  }

  // `pred` explains every distance: by a seed, or by one turn out of an edge
  // already expanded, whose distance will not change any more.
  ghost predicate Explained(q: Query, s: State, e: nat)
    requires q.Valid() && Shaped(q, s) && e < q.topo.Edges()
  {
    if s.pred[e] == -1 then IsSeed(q, e, Cost(s, e))
    else
      var t := s.pred[e];
      && 0 <= t < q.topo.Turns() && q.topo.allowed[t] && q.topo.outEdge[t] == e
      && q.topo.inEdge[t] in s.order
      && Cost(s, e) == Cost(s, q.topo.inEdge[t]) + q.arc[t]
  }

  // The turn that reached e leaves an edge of `earlier`: `pred` has no cycle.
  ghost predicate CameFrom(q: Query, s: State, e: nat, earlier: seq<nat>)
    requires q.Valid() && Shaped(q, s) && e < q.topo.Edges()
  {
    s.pred[e] == -1 || (0 <= s.pred[e] < q.topo.Turns() && q.topo.inEdge[s.pred[e]] in earlier)
  }

  ghost predicate Preds(q: Query, s: State)
    requires q.Valid()
    ensures Preds(q, s) ==> Shaped(q, s)
  {
    && Shaped(q, s)
    && (forall e: nat :: Reached(s, e) ==> Explained(q, s, e))
    && (forall j :: 0 <= j < |s.order| ==> s.order[j] < q.topo.Edges() && CameFrom(q, s, s.order[j], s.order[..j]))
  }

  // The best finalized destination so far.
  ghost predicate BestSoFar(q: Query, s: State)
    requires q.Valid()
    ensures BestSoFar(q, s) ==> Shaped(q, s)
  {
    && Shaped(q, s)
    && (forall i :: 0 <= i < |s.order| ==> Reached(s, s.order[i]))
    && (s.bestEdge < 0 ==> s.bestFinal == Infinite)
    && (s.bestEdge >= 0 ==>
          && s.bestEdge in s.order && Adjust(q.dests, s.bestEdge).Some?
          && s.bestFinal.g == Cost(s, s.bestEdge) + Adjust(q.dests, s.bestEdge).value)
    && (forall i :: 0 <= i < |s.order| && Adjust(q.dests, s.order[i]).Some? ==>
          s.bestFinal.Finite? && s.bestFinal.g <= Cost(s, s.order[i]) + Adjust(q.dests, s.order[i]).value)
  }

  ghost predicate SeedsIn(q: Query, s: State, k: nat)
    requires q.Valid()
    ensures SeedsIn(q, s, k) ==> Shaped(q, s)
  {
    && Shaped(q, s)
    && forall i :: 0 <= i < k <= |q.seeds| ==>
         Reached(s, q.seeds[i].edge) && Cost(s, q.seeds[i].edge) <= q.seeds[i].cost
  }

  ghost predicate Inv(q: Query, s: State, upto: nat)
    requires q.Valid()
    ensures Inv(q, s, upto) ==> Shaped(q, s) && HeapInv(q, s)
  {
    && HeapInv(q, s)
    && Frontier(q, s) && Relaxed(q, s, upto) && Preds(q, s) && BestSoFar(q, s)
    && SeedsIn(q, s, |q.seeds|)
  }

  // --------------------------------------------------------------- the seeds

  // Before anything is expanded.
  ghost predicate Starting(q: Query, s: State, k: nat)
    requires q.Valid()
    ensures Starting(q, s, k) ==> Shaped(q, s)
  {
    && HeapInv(q, s) && s.order == [] && s.bestEdge < 0 && s.bestFinal == Infinite
    && (forall e: nat :: Reached(s, e) ==> e in OpenEdges(q, s) && Explained(q, s, e))
    && (forall e :: 0 <= e < q.topo.Edges() ==> s.pred[e] == -1)
    && SeedsIn(q, s, k)
  }

  lemma SeedOpens(q: Query, s: State, p: Endpoint)
    requires q.Valid() && HeapInv(q, s) && p.edge < q.topo.Edges()
    ensures Shaped(q, SeedOne(q, s, p))
    ensures OpenEdges(q, SeedOne(q, s, p)) == OpenEdges(q, s) + if SeedOne(q, s, p) == s then {} else {p.edge}
  {
    var s' := SeedOne(q, s, p);
    forall e: nat | e < |s.dist| && e != p.edge ensures Open(q, s', e) <==> Open(q, s, e) {
    }
  }

  lemma SeedStarts(q: Query, s: State, k: nat)
    requires q.Valid() && k < |q.seeds| && Starting(q, s, k)
    ensures Starting(q, SeedOne(q, s, q.seeds[k]), k + 1)
  {
    hide HeapInv, OpenEdges;
    var p := q.seeds[k];
    var s' := SeedOne(q, s, p);
    SeedOneInv(q, s, p);
    SeedOpens(q, s, p);
    forall e: nat | Reached(s', e) ensures e in OpenEdges(q, s') && Explained(q, s', e) {
      assert e != p.edge || s' == s ==> Reached(s, e);
    }
  }

  lemma {:induction false} SeededStarts(q: Query, k: nat)
    requires q.Valid() && k <= |q.seeds|
    ensures Starting(q, Seeded(q, k), k)
  {
    hide *;
    SeededUnfold(q, k);
    if k > 0 {
      SeededStarts(q, k - 1);
      SeedStarts(q, Seeded(q, k - 1), k - 1);
    }
  }

  lemma SeededUnfold(q: Query, k: nat)
    requires q.Valid() && k <= |q.seeds|
    ensures k == 0 ==> Starting(q, Seeded(q, k), k)
    ensures k > 0 ==> q.seeds[k - 1].edge < |Seeded(q, k - 1).dist|
    ensures k > 0 ==> Seeded(q, k) == SeedOne(q, Seeded(q, k - 1), q.seeds[k - 1])
  {
  }

  lemma InitialInv(q: Query)
    requires q.Valid()
    ensures Inv(q, Initial(q), q.topo.Turns())
  {
    hide HeapInv, OpenEdges, Seeded;
    SeededStarts(q, |q.seeds|);
  }

  // ------------------------------------------------------------ the expansion

  // Skipping an outdated entry.
  lemma SkipKeeps(q: Query, s: State, x: Entry)
    requires q.Valid() && Inv(q, s, q.topo.Turns()) && x in s.heap && s.dist[x.e] != Finite(x.g)
    ensures Inv(q, s.(heap := s.heap - multiset{x}), q.topo.Turns())
  {
    hide HeapInv, OpenEdges, Explained, CameFrom, RelaxedAt;
    var s' := s.(heap := s.heap - multiset{x});
    RemoveInv(q, s, x);
    SkipOpens(q, s, x);
    assert forall y :: y in s'.heap ==> y in s.heap;
    SameTables(q, s, s');
  }

  lemma SkipOpens(q: Query, s: State, x: Entry)
    requires q.Valid() && HeapInv(q, s) && x in s.heap && s.dist[x.e] != Finite(x.g)
    ensures OpenEdges(q, s.(heap := s.heap - multiset{x})) == OpenEdges(q, s)
  {
    var s' := s.(heap := s.heap - multiset{x});
    forall e: nat | e < |s.dist| ensures Open(q, s', e) <==> Open(q, s, e) {
    }
  }

  // The table predicates read `dist` and `pred` only (and grow with `order`).
  lemma SameTables(q: Query, s: State, s': State)
    requires q.Valid() && Shaped(q, s) && Shaped(q, s') && s'.dist == s.dist && s'.pred == s.pred
    requires forall e :: e in s.order ==> e in s'.order
    ensures forall t: nat :: t < q.topo.Turns() && RelaxedAt(q, s, t) ==> RelaxedAt(q, s', t)
    ensures forall e: nat :: e < q.topo.Edges() && Explained(q, s, e) ==> Explained(q, s', e)
    ensures forall e: nat, o: seq<nat> :: e < q.topo.Edges() && CameFrom(q, s, e, o) ==> CameFrom(q, s', e, o)
  {
  }

  // Popping a live minimal entry finalizes a new edge: nothing on the
  // frontier can improve it any more.
  lemma FinalizeFrontier(q: Query, s: State, x: Entry)
    requires q.Valid() && Exact(q) && HeapInv(q, s) && Frontier(q, s)
    requires Minimal(s.heap, x) && s.dist[x.e] == Finite(x.g)
    ensures x.e < q.topo.Edges() && x.e !in s.order
    ensures HeapInv(q, Finalize(q, s.(heap := s.heap - multiset{x}), x.e, x.g))
    ensures Frontier(q, Finalize(q, s.(heap := s.heap - multiset{x}), x.e, x.g))
  {
    hide HeapInv, OpenEdges, Finalize;
    var r := s.(heap := s.heap - multiset{x});
    FinalizeShape(q, r, x.e, x.g);
    EntryEdge(q, s, x);
    LiveIsOpen(q, s, x);
    RemoveCloses(q, s, x);
    FinalizeInv(q, r, x.e, x.g);
    FinalizeOpens(q, r, x.e, x.g);
    assert forall y :: y in r.heap ==> y in s.heap;
    assert Key(q, s, x.e) == x.f;
  }

  lemma FinalizeShape(q: Query, s: State, e: nat, g: real)
    ensures var r := Finalize(q, s, e, g);
            r.order == s.order + [e] && r.dist == s.dist && r.pred == s.pred && r.heap == s.heap
  {
  }

  lemma LiveIsOpen(q: Query, s: State, x: Entry)
    requires q.Valid() && HeapInv(q, s) && x in s.heap && s.dist[x.e] == Finite(x.g)
    ensures x.e in OpenEdges(q, s)
  {
    assert Open(q, s, x.e);
  }

  lemma FinalizeTables(q: Query, s: State, x: Entry)
    requires q.Valid() && Relaxed(q, s, q.topo.Turns()) && Preds(q, s) && Ordered(q, s)
    requires x.e < q.topo.Edges() && s.dist[x.e] == Finite(x.g)
    ensures var s' := Finalize(q, s.(heap := s.heap - multiset{x}), x.e, x.g);
            Relaxed(q, s', q.topo.turnPtr[x.e]) && Preds(q, s')
  {
    hide RelaxedAt, CameFrom;
    var s' := Finalize(q, s.(heap := s.heap - multiset{x}), x.e, x.g);
    SameTables(q, s, s');
    forall t: nat | Due(q, s', t, q.topo.turnPtr[x.e]) ensures RelaxedAt(q, s', t) {
      assert Due(q, s, t, q.topo.Turns());
    }
    forall j | 0 <= j < |s'.order| ensures CameFrom(q, s', s'.order[j], s'.order[..j]) {
      if j < |s.order| {
        assert CameFrom(q, s, s.order[j], s.order[..j]) && s'.order[..j] == s.order[..j];
      } else {
        assert Explained(q, s, x.e) && s'.order[..j] == s.order;
        NewCameFrom(q, s, s', x.e);
      }
    }
  }

  lemma FinalizeBest(q: Query, s: State, x: Entry)
    requires q.Valid() && Exact(q) && BestSoFar(q, s) && SeedsIn(q, s, |q.seeds|)
    requires x.e < q.topo.Edges() && s.dist[x.e] == Finite(x.g)
    ensures var s' := Finalize(q, s.(heap := s.heap - multiset{x}), x.e, x.g);
            BestSoFar(q, s') && SeedsIn(q, s', |q.seeds|)
  {
  }

  lemma NewCameFrom(q: Query, s: State, s': State, e: nat)
    requires q.Valid() && Shaped(q, s) && Shaped(q, s') && e < q.topo.Edges() && s'.pred == s.pred
    requires Explained(q, s, e)
    ensures CameFrom(q, s', e, s.order)
  {
  }

  // Relaxing turn t of the edge just finalized. Consistency keeps every
  // expanded edge out of reach of an improvement.
  lemma RelaxSettled(q: Query, s: State, t: nat)
    requires q.Valid() && Exact(q) && Consistent(q) && Ordered(q, s) && t < q.topo.Turns()
    requires s.order != [] && q.topo.inEdge[t] == s.order[|s.order| - 1]
    requires q.topo.outEdge[t] in s.order
    ensures Relax(q, s, Cost(s, q.topo.inEdge[t]), t) == s
  {
    var e, e2 := q.topo.inEdge[t], q.topo.outEdge[t];
    var i :| 0 <= i < |s.order| && s.order[i] == e2;
    assert Key(q, s, e2) <= Key(q, s, e);
  }

  lemma RelaxFrontier(q: Query, s: State, t: nat)
    requires q.Valid() && Exact(q) && Consistent(q) && HeapInv(q, s) && Frontier(q, s) && t < q.topo.Turns()
    requires s.order != [] && q.topo.inEdge[t] == s.order[|s.order| - 1]
    ensures HeapInv(q, Relax(q, s, Cost(s, q.topo.inEdge[t]), t))
    ensures Frontier(q, Relax(q, s, Cost(s, q.topo.inEdge[t]), t))
  {
    hide HeapInv, OpenEdges;
    var e, e2 := q.topo.inEdge[t], q.topo.outEdge[t];
    var s' := Relax(q, s, Cost(s, e), t);
    RelaxInv(q, s, Cost(s, e), t);
    if s' != s {
      if e2 in s.order { RelaxSettled(q, s, t); }
      RelaxOpens(q, s, Cost(s, e), t);
      var pushed := Entry(q.F(Cost(s, e) + q.arc[t], e2), e2, Cost(s, e) + q.arc[t]);
      assert s'.heap == s.heap + multiset{pushed};
      assert Key(q, s, e) <= pushed.f;
      forall i | 0 <= i < |s.order| ensures Key(q, s', s.order[i]) == Key(q, s, s.order[i]) <= Key(q, s, e) {
      }
    }
  }

  // Improving an edge that is not expanded leaves expanded edges alone.
  lemma RelaxCosts(q: Query, s: State, t: nat)
    requires q.Valid() && Exact(q) && Consistent(q) && t < q.topo.Turns() && Ordered(q, s)
    requires s.order != [] && q.topo.inEdge[t] == s.order[|s.order| - 1]
    ensures var s' := Relax(q, s, Cost(s, q.topo.inEdge[t]), t);
            && (forall o :: o in s.order ==> o < |s.dist| && s'.dist[o] == s.dist[o] && s'.pred[o] == s.pred[o])
            && (forall o: nat :: Reached(s, o) ==> Reached(s', o) && Cost(s', o) <= Cost(s, o))
            && (forall o: nat :: Reached(s', o) && (s' == s || o != q.topo.outEdge[t]) ==>
                  Reached(s, o) && Cost(s', o) == Cost(s, o) && s'.pred[o] == s.pred[o])
            && (s' != s ==> q.topo.allowed[t] && Reached(s', q.topo.outEdge[t]) && s'.pred[q.topo.outEdge[t]] == t
                            && Cost(s', q.topo.outEdge[t]) == Cost(s, q.topo.inEdge[t]) + q.arc[t])
            && RelaxedAt(q, s', t)
  {
    var s' := Relax(q, s, Cost(s, q.topo.inEdge[t]), t);
    if s' != s && q.topo.outEdge[t] in s.order { RelaxSettled(q, s, t); }
    assert Reached(s, q.topo.inEdge[t]);
  }

  lemma RelaxDue(q: Query, s: State, t: nat)
    requires q.Valid() && Exact(q) && Consistent(q) && t < q.topo.Turns() && Ordered(q, s) && Relaxed(q, s, t)
    requires s.order != [] && q.topo.inEdge[t] == s.order[|s.order| - 1]
    ensures Relaxed(q, Relax(q, s, Cost(s, q.topo.inEdge[t]), t), t + 1)
  {
    var s' := Relax(q, s, Cost(s, q.topo.inEdge[t]), t);
    RelaxCosts(q, s, t);
    forall u: nat | Due(q, s', u, t + 1) ensures RelaxedAt(q, s', u) {
      assert u != t ==> Due(q, s, u, t) && RelaxedAt(q, s, u);
      hide Ordered, Relax;
    }
  }

  lemma RelaxPreds(q: Query, s: State, t: nat)
    requires q.Valid() && Exact(q) && Consistent(q) && t < q.topo.Turns() && Ordered(q, s) && Preds(q, s)
    requires s.order != [] && q.topo.inEdge[t] == s.order[|s.order| - 1]
    ensures Preds(q, Relax(q, s, Cost(s, q.topo.inEdge[t]), t))
  {
    var s' := Relax(q, s, Cost(s, q.topo.inEdge[t]), t);
    RelaxCosts(q, s, t);
    assert q.topo.inEdge[t] in s.order;
    forall o: nat | Reached(s', o) ensures Explained(q, s', o) {
      if o != q.topo.outEdge[t] || s' == s {
        assert Explained(q, s, o);
        hide Ordered, Relax;
      }
    }
    forall j | 0 <= j < |s.order| ensures CameFrom(q, s', s'.order[j], s'.order[..j]) {
      assert CameFrom(q, s, s.order[j], s.order[..j]);
    }
  }

  lemma RelaxBest(q: Query, s: State, t: nat)
    requires q.Valid() && Exact(q) && Consistent(q) && t < q.topo.Turns()
    requires Ordered(q, s) && BestSoFar(q, s) && SeedsIn(q, s, |q.seeds|)
    requires s.order != [] && q.topo.inEdge[t] == s.order[|s.order| - 1]
    ensures var s' := Relax(q, s, Cost(s, q.topo.inEdge[t]), t);
            BestSoFar(q, s') && SeedsIn(q, s', |q.seeds|)
  {
    var e, e2 := q.topo.inEdge[t], q.topo.outEdge[t];
    var s' := Relax(q, s, Cost(s, e), t);
    if s' != s && e2 in s.order { RelaxSettled(q, s, t); }
    assert forall i :: 0 <= i < |s.order| ==> Cost(s', s.order[i]) == Cost(s, s.order[i]);
  }

  lemma RelaxKeeps(q: Query, s: State, t: nat)
    requires q.Valid() && Exact(q) && Consistent(q) && Inv(q, s, t) && t < q.topo.Turns()
    requires s.order != [] && q.topo.inEdge[t] == s.order[|s.order| - 1]
    ensures Inv(q, Relax(q, s, Cost(s, q.topo.inEdge[t]), t), t + 1)
  {
    hide HeapInv, Relaxed, Preds, BestSoFar, SeedsIn, Relax;
    RelaxFrontier(q, s, t);
    RelaxDue(q, s, t);
    RelaxPreds(q, s, t);
    RelaxBest(q, s, t);
  }

  lemma FinalizeKeeps(q: Query, s: State, x: Entry)
    requires q.Valid() && Exact(q) && Inv(q, s, q.topo.Turns())
    requires Minimal(s.heap, x) && s.dist[x.e] == Finite(x.g)
    ensures x.e < q.topo.Edges() && x.e !in s.order
    ensures Inv(q, Finalize(q, s.(heap := s.heap - multiset{x}), x.e, x.g), q.topo.turnPtr[x.e])
  {
    hide HeapInv, Relaxed, Preds, BestSoFar, SeedsIn, Finalize;
    FinalizeFrontier(q, s, x);
    FinalizeTables(q, s, x);
    FinalizeBest(q, s, x);
  }

  // What was expanded keeps its distance and its predecessor.
  ghost predicate Fixed(s: State, r: State) {
    forall o :: o in s.order ==>
      && o < |s.dist| && o < |s.pred| && o < |r.dist| && o < |r.pred|
      && r.dist[o] == s.dist[o] && r.pred[o] == s.pred[o]
  }

  lemma FixedTrans(a: State, b: State, c: State)
    requires Fixed(a, b) && Fixed(b, c) && forall o :: o in a.order ==> o in b.order
    ensures Fixed(a, c)
  {
  }

  lemma FixedSelf(q: Query, s: State, upto: nat)
    requires q.Valid() && Inv(q, s, upto)
    ensures Fixed(s, s)
  {
  }

  lemma SameFixed(s: State, s': State, r: State)
    requires s'.dist == s.dist && s'.pred == s.pred && forall o :: o in s.order ==> o in s'.order
    ensures Fixed(s', r) ==> Fixed(s, r)
    ensures Fixed(s, s) ==> Fixed(s, s')
  {
  }

  lemma RelaxFixes(q: Query, s: State, t: nat, g: real)
    requires q.Valid() && Exact(q) && Consistent(q) && Inv(q, s, t) && t < q.topo.Turns()
    requires s.order != [] && q.topo.inEdge[t] == s.order[|s.order| - 1] && s.dist[q.topo.inEdge[t]] == Finite(g)
    ensures Inv(q, Relax(q, s, g, t), t + 1) && Fixed(s, Relax(q, s, g, t))
    ensures Relax(q, s, g, t).order == s.order && Relax(q, s, g, t).dist[q.topo.inEdge[t]] == Finite(g)
  {
    RelaxKeeps(q, s, t);
    hide HeapInv, Relaxed, Preds, BestSoFar, SeedsIn, Consistent;
    RelaxCosts(q, s, t);
  }

  lemma RowOf(q: Query, e: nat, t: nat)
    requires q.Valid() && e < q.topo.Edges() && q.topo.turnPtr[e] <= t < q.topo.turnPtr[e + 1]
    ensures t < q.topo.Turns() && q.topo.inEdge[t] == e
  {
    q.topo.RowOwner(e, t);
  }

  // The expansion of e, popped with cost g, up to turn k.
  ghost predicate Expanding(q: Query, s: State, e: nat, g: real, k: nat)
    requires q.Valid() && Shaped(q, s) && e < q.topo.Edges()
  {
    && q.topo.turnPtr[e] <= k <= q.topo.turnPtr[e + 1] <= q.topo.Turns()
    && s.order != [] && s.order[|s.order| - 1] == e
    && var r := RelaxTo(q, s, g, q.topo.turnPtr[e], k);
       Inv(q, r, k) && r.dist[e] == Finite(g) && Fixed(s, r)
  }

  lemma ExpandingStarts(q: Query, s: State, e: nat, g: real)
    requires q.Valid() && e < q.topo.Edges() && Inv(q, s, q.topo.turnPtr[e])
    requires s.order != [] && s.order[|s.order| - 1] == e && s.dist[e] == Finite(g)
    ensures Expanding(q, s, e, g, q.topo.turnPtr[e])
  {
    FixedSelf(q, s, q.topo.turnPtr[e]);
    hide Inv, HeapInv, Fixed;
  }

  lemma ExpandingStep(q: Query, s: State, e: nat, g: real, k: nat)
    requires q.Valid() && Exact(q) && Consistent(q) && Shaped(q, s) && e < q.topo.Edges()
    requires Expanding(q, s, e, g, k) && k < q.topo.turnPtr[e + 1]
    ensures Expanding(q, s, e, g, k + 1)
  {
    hide Inv, HeapInv, Fixed, RelaxTo, Consistent, Exact, Relax;
    var lo := q.topo.turnPtr[e];
    var r := RelaxTo(q, s, g, lo, k);
    RelaxToUnfold(q, s, g, lo, k + 1);
    RowOf(q, e, k);
    RelaxFixes(q, r, k, g);
    FixedTrans(s, r, RelaxTo(q, s, g, lo, k + 1));
  }

  // The whole expansion, turn by turn.
  lemma {:induction false} ExpandingTo(q: Query, s: State, e: nat, g: real, k: nat)
    requires q.Valid() && Exact(q) && Consistent(q) && Shaped(q, s) && e < q.topo.Edges()
    requires Expanding(q, s, e, g, q.topo.turnPtr[e])
    requires q.topo.turnPtr[e] <= k <= q.topo.turnPtr[e + 1]
    ensures Expanding(q, s, e, g, k)
    decreases k
  {
    var lo := q.topo.turnPtr[e];
    hide *;
    if k > lo {
      ExpandingTo(q, s, e, g, k - 1);
      ExpandingStep(q, s, e, g, k - 1);
    } else {
      assert k == lo;
    }
  }

  lemma AllDue(q: Query, s: State, e: nat)
    requires q.Valid() && e < q.topo.Edges() && Inv(q, s, q.topo.turnPtr[e + 1])
    requires s.order != [] && s.order[|s.order| - 1] == e
    ensures Inv(q, s, q.topo.Turns())
  {
    hide HeapInv, Frontier, Preds, BestSoFar, SeedsIn, RelaxedAt;
    forall t: nat | Due(q, s, t, q.topo.Turns()) ensures RelaxedAt(q, s, t) {
      assert Due(q, s, t, q.topo.turnPtr[e + 1]);
    }
  }

  // One step keeps the invariant; a live pop expands an edge never expanded
  // before, and what was expanded keeps its distance and its predecessor.
  lemma PopKeeps(q: Query, s: State, x: Entry)
    requires q.Valid() && Exact(q) && Consistent(q) && Inv(q, s, q.topo.Turns()) && Minimal(s.heap, x)
    ensures x.e < q.topo.Edges() && Inv(q, Pop(q, s, x), q.topo.Turns())
    ensures s.dist[x.e] == Finite(x.g) ==> x.e !in s.order && Pop(q, s, x).order == s.order + [x.e]
    ensures s.dist[x.e] != Finite(x.g) ==> Pop(q, s, x).order == s.order
    ensures Fixed(s, Pop(q, s, x))
  {
    hide Inv, RelaxTo, HeapInv, Consistent, Fixed, Finalize;
    EntryEdge(q, s, x);
    FixedSelf(q, s, q.topo.Turns());
    if s.dist[x.e] != Finite(x.g) {
      SkipKeeps(q, s, x);
      SameFixed(s, Pop(q, s, x), Pop(q, s, x));
    } else {
      FinalizeKeeps(q, s, x);
      FinalizeShape(q, s.(heap := s.heap - multiset{x}), x.e, x.g);
      var r := Finalize(q, s.(heap := s.heap - multiset{x}), x.e, x.g);
      SameFixed(s, r, Pop(q, s, x));
      ExpandingStarts(q, r, x.e, x.g);
      ExpandingTo(q, r, x.e, x.g, q.topo.turnPtr[x.e + 1]);
      AllDue(q, Pop(q, s, x), x.e);
    }
  }
}
