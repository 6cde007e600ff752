// Why the engines stop, whatever `plus` rounds to and whatever the heuristic:
// no way around a cycle ever improves on where it started.
module Termination {
  import opened Topology
  import opened Search
  import opened Parity

  // ---------------------------------------------------------- the condition

  // With edges lifted by phi, no allowed turn leads down from any number that
  // a search can come to hold.
  ghost predicate Lifts(q: Query, phi: seq<real>, held: iset<real>)
    requires q.Valid()
  {
    && |phi| == q.topo.Edges()
    && (forall i :: 0 <= i < |q.seeds| ==> q.seeds[i].cost in held)
    && forall g, t :: g in held && 0 <= t < q.topo.Turns() && q.topo.allowed[t] ==> Rises(q, phi, held, g, t)
  }

  ghost predicate Rises(q: Query, phi: seq<real>, held: iset<real>, g: real, t: nat)
    requires q.Valid() && |phi| == q.topo.Edges() && t < q.topo.Turns()
  {
    && q.plus(g, q.arc[t]) in held
    && g + phi[q.topo.inEdge[t]] <= q.plus(g, q.arc[t]) + phi[q.topo.outEdge[t]]
  }

  ghost predicate Inflationary(q: Query)
    requires q.Valid()
  {
    exists phi, held :: Lifts(q, phi, held)
  }

  // A consistent heuristic lifts the edges so, in exact arithmetic, even where
  // an arc is negative; ...
  lemma ConsistentInflates(q: Query)
    requires q.Valid() && Exact(q) && Consistent(q)
    ensures Inflationary(q)
  {
    var phi := seq(q.topo.Edges(), e requires 0 <= e < q.topo.Edges() => q.H(e));
    var held := iset x: real | q.plus(x, 0.0) == x;
    forall g, t: nat | g in held && t < q.topo.Turns() && q.topo.allowed[t] ensures Rises(q, phi, held, g, t) {
    }
    assert Lifts(q, phi, held);
  }

  ghost predicate Rounds(q: Query, round: real -> real) {
    && (forall x, y :: q.plus(x, y) == round(x + y))
    && (forall x, y :: x <= y ==> round(x) <= round(y)) && (forall x :: round(round(x)) == round(x))
  }

  // ... and with arcs that are not negative nothing needs lifting, however a
  // sum is rounded to the numbers there are.
  lemma RoundedInflates(q: Query, round: real -> real)
    requires q.Valid() && Rounds(q, round)
    requires forall t :: 0 <= t < q.topo.Turns() && q.topo.allowed[t] ==> 0.0 <= q.arc[t]
    requires forall i :: 0 <= i < |q.seeds| ==> round(q.seeds[i].cost) == q.seeds[i].cost
    ensures Inflationary(q)
  {
    var phi := seq(q.topo.Edges(), e => 0.0);
    var held := iset x: real | round(x) == x;
    forall g, t: nat | g in held && t < q.topo.Turns() && q.topo.allowed[t] ensures Rises(q, phi, held, g, t) {
      assert round(g) <= round(g + q.arc[t]);
    }
    assert Lifts(q, phi, held);
  }

  // ------------------------------------------------------------- the trails

  // One turn of a trail of edges and the costs they were reached at.
  ghost predicate Hop(q: Query, a: (nat, real), b: (nat, real))
    requires q.Valid()
  {
    exists t: nat :: t < q.topo.Turns() && HopBy(q, a, b, t)
  }

  ghost predicate HopBy(q: Query, a: (nat, real), b: (nat, real), t: nat)
    requires q.Valid() && t < q.topo.Turns()
  {
    q.topo.allowed[t] && q.topo.inEdge[t] == a.0 && q.topo.outEdge[t] == b.0 && b.1 == q.plus(a.1, q.arc[t])
  }

  // A trail from a seed that visits no edge twice, each edge known by now at
  // no more than it cost on the trail.
  ghost predicate Trail(q: Query, held: iset<real>, dist: seq<Dist>, tr: seq<(nat, real)>)
    requires q.Valid()
  {
    && tr != [] && Endpoint(tr[0].0, tr[0].1) in q.seeds
    && (forall k :: 0 <= k < |tr| - 1 ==> Hop(q, tr[k], tr[k + 1]))
    && (forall k :: 0 <= k < |tr| ==> Known(held, dist, tr[k]))
    && (forall j, k :: 0 <= j < k < |tr| ==> tr[j].0 != tr[k].0)
  }

  ghost predicate Known(held: iset<real>, dist: seq<Dist>, p: (nat, real)) {
    p.0 < |dist| && dist[p.0].Finite? && dist[p.0].g <= p.1 && p.1 in held
  }

  ghost predicate TrailTo(q: Query, held: iset<real>, dist: seq<Dist>, tr: seq<(nat, real)>, e: nat)
    requires q.Valid() && e < |dist| && dist[e].Finite?
  {
    Trail(q, held, dist, tr) && tr[|tr| - 1] == (e, dist[e].g)
  }

  // Every distance is the cost of such a trail.
  ghost predicate Traced(q: Query, held: iset<real>, dist: seq<Dist>)
    requires q.Valid()
  {
    forall e: nat :: e < |dist| && dist[e].Finite? ==> exists tr :: TrailTo(q, held, dist, tr, e)
  }

  lemma {:induction false} TrailRises(q: Query, phi: seq<real>, held: iset<real>, dist: seq<Dist>,
                                      tr: seq<(nat, real)>, j: nat, k: nat)
    requires q.Valid() && Lifts(q, phi, held) && |dist| == q.topo.Edges() && Trail(q, held, dist, tr) && j <= k < |tr|
    ensures tr[j].0 < |phi| && tr[k].0 < |phi| && tr[j].1 + phi[tr[j].0] <= tr[k].1 + phi[tr[k].0]
    decreases k
  {
    assert Known(held, dist, tr[j]) && Known(held, dist, tr[k]);
    if j < k {
      TrailRises(q, phi, held, dist, tr, j, k - 1);
      assert Known(held, dist, tr[k - 1]) && Hop(q, tr[k - 1], tr[k - 1 + 1]);
      var t: nat :| t < q.topo.Turns() && HopBy(q, tr[k - 1], tr[k], t);
      assert Rises(q, phi, held, tr[k - 1].1, t);
    }
  }

  // ------------------------------------------- there are only so many costs

  // What n turns can cost.
  ghost function Costs(q: Query, n: nat): set<(nat, real)>
    requires q.Valid()
  {
    if n == 0 then set i | 0 <= i < |q.seeds| :: (q.seeds[i].edge, q.seeds[i].cost)
    else set p, t | p in Costs(q, n - 1) && 0 <= t < q.topo.Turns() && q.topo.inEdge[t] == p.0 ::
           (q.topo.outEdge[t], q.plus(p.1, q.arc[t]))
  }

  ghost function CostsTo(q: Query, n: nat): set<(nat, real)>
    requires q.Valid()
  {
    if n == 0 then {} else CostsTo(q, n - 1) + Costs(q, n - 1)
  }

  // The costs of trails that would still improve on what is known.
  ghost function Left(q: Query, dist: seq<Dist>): set<(nat, real)>
    requires q.Valid()
  {
    set p | p in CostsTo(q, q.topo.Edges()) && p.0 < |dist| && Less(p.1, dist[p.0])
  }

  lemma {:induction false} TrailCost(q: Query, held: iset<real>, dist: seq<Dist>, tr: seq<(nat, real)>, k: nat)
    requires q.Valid() && Trail(q, held, dist, tr) && k < |tr|
    ensures tr[k] in Costs(q, k)
  {
    hide Costs;
    if k == 0 {
      SeedCost(q, tr[0]);
    } else {
      TrailCost(q, held, dist, tr, k - 1);
      assert Hop(q, tr[k - 1], tr[k - 1 + 1]);
      HopCost(q, tr[k - 1], tr[k], k);
    }
  }

  lemma {:induction false} SeedCost(q: Query, p: (nat, real))
    requires q.Valid() && Endpoint(p.0, p.1) in q.seeds
    ensures p in Costs(q, 0)
  {
    var i :| 0 <= i < |q.seeds| && q.seeds[i] == Endpoint(p.0, p.1);
    assert p == (q.seeds[i].edge, q.seeds[i].cost);
  }

  lemma HopCost(q: Query, a: (nat, real), b: (nat, real), k: nat)
    requires q.Valid() && k > 0 && a in Costs(q, k - 1) && Hop(q, a, b)
    ensures b in Costs(q, k)
  {
    var t: nat :| t < q.topo.Turns() && HopBy(q, a, b, t);
    assert b == (q.topo.outEdge[t], q.plus(a.1, q.arc[t]));
  }

  lemma {:induction false} CostsWithin(q: Query, k: nat, n: nat)
    requires q.Valid() && k < n
    ensures Costs(q, k) <= CostsTo(q, n)
  {
    hide Costs;
    if k < n - 1 { CostsWithin(q, k, n - 1); }
  }

  // Distinct numbers below n are no more than n.
  lemma {:induction false} Pigeonhole(xs: seq<nat>, n: nat)
    requires (forall i :: 0 <= i < |xs| ==> xs[i] < n) && forall i, j :: 0 <= i < j < |xs| ==> xs[i] != xs[j]
    ensures |xs| <= n
  {
    var first := if xs == [] then 0 else xs[0];
    if n == 0 {
      assert xs == [];
    } else if i :| 0 <= i < |xs| && xs[i] == n - 1 {
      var ys := xs[..i] + xs[i + 1..];
      forall k | 0 <= k < |ys| ensures ys[k] < n - 1 {
        assert ys[k] == if k < i then xs[k] else xs[k + 1];
      }
      Pigeonhole(ys, n - 1);
    } else {
      Pigeonhole(xs, n - 1);
    }
  }

  // A trail that visits no edge twice is one of those counted.
  lemma {:induction false} TrailCounted(q: Query, held: iset<real>, dist: seq<Dist>, tr: seq<(nat, real)>)
    requires q.Valid() && Trail(q, held, dist, tr) && |dist| == q.topo.Edges()
    ensures tr[|tr| - 1] in CostsTo(q, q.topo.Edges())
  {
    hide Costs, CostsTo, Hop;
    var xs: seq<nat> := seq(|tr|, i requires 0 <= i < |tr| => tr[i].0);
    forall i | 0 <= i < |xs| ensures xs[i] < q.topo.Edges() { assert Known(held, dist, tr[i]); }
    Pigeonhole(xs, q.topo.Edges());
    TrailCost(q, held, dist, tr, |tr| - 1);
    CostsWithin(q, |tr| - 1, q.topo.Edges());
  }

  // ------------------------------------------------------------ the pred links

  // Along `pred` the lifted distances never rise.
  ghost predicate Downhill(q: Query, phi: seq<real>, s: State, e: nat)
    requires q.Valid() && Shaped(q, s) && |phi| == q.topo.Edges() && e < q.topo.Edges() && s.dist[e].Finite?
  {
    s.pred[e] != -1 ==>
      && 0 <= s.pred[e] < q.topo.Turns() && q.topo.outEdge[s.pred[e]] == e
      && var d := q.topo.inEdge[s.pred[e]];
         s.dist[d].Finite? && s.dist[d].g + phi[d] <= s.dist[e].g + phi[e]
  }

  ghost predicate HasChain(topo: Topo, pred: seq<int>, e: nat) {
    exists turns, first :: Chain(topo, pred, e, turns, first)
  }

  // Walking `pred` back from any edge reached comes to a seed.
  ghost predicate Rooted(q: Query, phi: seq<real>, s: State)
    requires q.Valid() && Shaped(q, s) && |phi| == q.topo.Edges()
  {
    forall e: nat :: e < q.topo.Edges() && s.dist[e].Finite? ==> Downhill(q, phi, s, e) && HasChain(q.topo, s.pred, e)
  }

  // A chain from below does not meet e2.
  lemma {:induction false} ChainKept(q: Query, phi: seq<real>, s: State, pred': seq<int>, e2: nat, t: nat, v: nat,
                                     turns: seq<nat>, first: nat)
    requires q.Valid() && Shaped(q, s) && |phi| == q.topo.Edges() && Rooted(q, phi, s)
    requires e2 < q.topo.Edges() && pred' == s.pred[e2 := t] && Chain(q.topo, s.pred, v, turns, first)
    requires v < q.topo.Edges() && s.dist[v].Finite?
    requires s.dist[e2].Finite? ==> s.dist[v].g + phi[v] < s.dist[e2].g + phi[e2]
    ensures Chain(q.topo, pred', v, turns, first)
    decreases |turns|
  {
    assert v != e2 && Downhill(q, phi, s, v);
    if turns != [] {
      var last := turns[|turns| - 1];
      ChainKept(q, phi, s, pred', e2, t, q.topo.inEdge[last], turns[..|turns| - 1], first);
    }
  }

  // A chain that did meet e2 goes on from there as e2's does now.
  lemma {:induction false} Rechained(topo: Topo, pred: seq<int>, pred': seq<int>, e2: nat, t: nat, v: nat,
                                     turns: seq<nat>, first: nat)
    requires e2 < |pred| && pred' == pred[e2 := t] && HasChain(topo, pred', e2) && Chain(topo, pred, v, turns, first)
    ensures HasChain(topo, pred', v)
    decreases |turns|
  {
    if v != e2 {
      if turns == [] {
        assert Chain(topo, pred', v, [], first);
      } else {
        var last := turns[|turns| - 1];
        Rechained(topo, pred, pred', e2, t, topo.inEdge[last], turns[..|turns| - 1], first);
        var ts, f :| Chain(topo, pred', topo.inEdge[last], ts, f);
        ChainMore(topo, pred', v, last, ts, f);
      }
    }
  }

  lemma {:induction false} ChainMore(topo: Topo, pred: seq<int>, v: nat, t: nat, turns: seq<nat>, first: nat)
    requires v < |pred| && pred[v] == t && t < |topo.inEdge| && Chain(topo, pred, topo.inEdge[t], turns, first)
    ensures Chain(topo, pred, v, turns + [t], first)
  {
    assert (turns + [t])[..|turns|] == turns;
  }

  // ---------------------------------------------------------- the invariant

  ghost predicate Settling(q: Query, phi: seq<real>, held: iset<real>, s: State)
    requires q.Valid()
    ensures Settling(q, phi, held, s) ==> Shaped(q, s)
  {
    && HeapInv(q, s) && |phi| == q.topo.Edges() && Traced(q, held, s.dist) && Rooted(q, phi, s)
    && (s.bestEdge >= 0 ==> s.dist[s.bestEdge].Finite?)
  }

  lemma {:induction false} SeededFrom(q: Query, k: nat)
    requires q.Valid() && k <= |q.seeds|
    ensures forall e: nat :: e < q.topo.Edges() && Seeded(q, k).dist[e].Finite? ==>
              Endpoint(e, Seeded(q, k).dist[e].g) in q.seeds
    ensures forall e :: 0 <= e < q.topo.Edges() ==> Seeded(q, k).pred[e] == -1
    ensures Seeded(q, k).bestEdge == -1
  {
    if k > 0 { SeededFrom(q, k - 1); }
  }

  lemma InitialSettles(q: Query, phi: seq<real>, held: iset<real>)
    requires q.Valid() && Lifts(q, phi, held)
    ensures Settling(q, phi, held, Initial(q))
  {
    SeededInv(q, |q.seeds|);
    SeededFrom(q, |q.seeds|);
    hide HeapInv, Seeded, Lifts, Traced, Rooted;
    LiftsEdges(q, phi, held);
    SeedsTraced(q, phi, held, Initial(q).dist);
    SeedsRooted(q, phi, Initial(q));
  }

  lemma SeedsTraced(q: Query, phi: seq<real>, held: iset<real>, dist: seq<Dist>)
    requires q.Valid() && Lifts(q, phi, held)
    requires forall e: nat :: e < |dist| && dist[e].Finite? ==> Endpoint(e, dist[e].g) in q.seeds
    ensures Traced(q, held, dist)
  {
    hide Lifts, TrailTo;
    forall e: nat | e < |dist| && dist[e].Finite? ensures exists tr :: TrailTo(q, held, dist, tr, e) {
      SeedTrail(q, phi, held, dist, e);
    }
  }

  lemma SeedsRooted(q: Query, phi: seq<real>, s: State)
    requires q.Valid() && Shaped(q, s) && |phi| == q.topo.Edges()
    requires forall e :: 0 <= e < q.topo.Edges() ==> s.pred[e] == -1
    ensures Rooted(q, phi, s)
  {
    hide HasChain;
    forall e: nat | e < q.topo.Edges() && s.dist[e].Finite?
      ensures Downhill(q, phi, s, e) && HasChain(q.topo, s.pred, e) {
      SeedChain(q.topo, s.pred, e);
    }
  }

  lemma LiftsEdges(q: Query, phi: seq<real>, held: iset<real>)
    requires q.Valid() && Lifts(q, phi, held)
    ensures |phi| == q.topo.Edges()
  {
  }

  lemma SeedTrail(q: Query, phi: seq<real>, held: iset<real>, dist: seq<Dist>, e: nat)
    requires q.Valid() && Lifts(q, phi, held) && e < |dist| && dist[e].Finite? && Endpoint(e, dist[e].g) in q.seeds
    ensures TrailTo(q, held, dist, [(e, dist[e].g)], e)
  {
    var i :| 0 <= i < |q.seeds| && q.seeds[i] == Endpoint(e, dist[e].g);
  }

  lemma SeedChain(topo: Topo, pred: seq<int>, e: nat)
    requires e < |pred| && pred[e] == -1
    ensures HasChain(topo, pred, e)
  {
    assert Chain(topo, pred, e, [], e);
  }

  // ---------------------------------------------------------- one relaxation

  // Better distances spoil no trail but those of the edge that changed.
  lemma TrailStays(q: Query, held: iset<real>, dist: seq<Dist>, e2: nat, g: real, tr: seq<(nat, real)>)
    requires q.Valid() && e2 < |dist| && Less(g, dist[e2]) && Trail(q, held, dist, tr)
    ensures Trail(q, held, dist[e2 := Finite(g)], tr)
  {
    hide Hop;
    var dist' := dist[e2 := Finite(g)];
    forall k | 0 <= k < |tr| ensures Known(held, dist', tr[k]) { assert Known(held, dist, tr[k]); }
  }

  // An edge already on the trail to e is not reached more cheaply through e.
  lemma NoWayRound(q: Query, phi: seq<real>, held: iset<real>, dist: seq<Dist>, tr: seq<(nat, real)>, e: nat, t: nat)
    requires q.Valid() && Lifts(q, phi, held) && |dist| == q.topo.Edges() && e < |dist| && dist[e].Finite?
    requires TrailTo(q, held, dist, tr, e) && t < q.topo.Turns() && q.topo.allowed[t] && q.topo.inEdge[t] == e
    requires Less(q.plus(dist[e].g, q.arc[t]), dist[q.topo.outEdge[t]])
    ensures dist[e].g in held && |phi| == q.topo.Edges() && Rises(q, phi, held, dist[e].g, t)
    ensures forall k :: 0 <= k < |tr| ==> tr[k].0 != q.topo.outEdge[t]
  {
    hide Hop;
    var e2 := q.topo.outEdge[t];
    assert Known(held, dist, tr[|tr| - 1]);
    assert Rises(q, phi, held, dist[e].g, t);
    forall k | 0 <= k < |tr| ensures tr[k].0 != e2 {
      assert Known(held, dist, tr[k]);
      TrailRises(q, phi, held, dist, tr, k, |tr| - 1);
    }
  }

  lemma TrailOn(q: Query, phi: seq<real>, held: iset<real>, dist: seq<Dist>, tr: seq<(nat, real)>, e: nat, t: nat)
    requires q.Valid() && Lifts(q, phi, held) && |dist| == q.topo.Edges() && e < |dist| && dist[e].Finite?
    requires TrailTo(q, held, dist, tr, e) && t < q.topo.Turns() && q.topo.allowed[t] && q.topo.inEdge[t] == e
    requires Less(q.plus(dist[e].g, q.arc[t]), dist[q.topo.outEdge[t]])
    ensures var e2, g := q.topo.outEdge[t], q.plus(dist[e].g, q.arc[t]);
            TrailTo(q, held, dist[e2 := Finite(g)], tr + [(e2, g)], e2)
  {
    hide Lifts, Rises;
    var e2, g := q.topo.outEdge[t], q.plus(dist[e].g, q.arc[t]);
    var dist', tr' := dist[e2 := Finite(g)], tr + [(e2, g)];
    NoWayRound(q, phi, held, dist, tr, e, t);
    TrailStays(q, held, dist, e2, g, tr);
    HeldNext(q, phi, held, dist[e].g, t);
    assert HopBy(q, tr[|tr| - 1], (e2, g), t);
    forall k | 0 <= k < |tr'| - 1 ensures Hop(q, tr'[k], tr'[k + 1]) {
      if k < |tr| - 1 { assert Hop(q, tr[k], tr[k + 1]); }
    }
    hide Hop, HopBy;
    assert Known(held, dist', (e2, g));
    forall k | 0 <= k < |tr'| ensures Known(held, dist', tr'[k]) {
      if k < |tr| { assert Known(held, dist', tr[k]); }
    }
  }

  lemma HeldNext(q: Query, phi: seq<real>, held: iset<real>, g: real, t: nat)
    requires q.Valid() && |phi| == q.topo.Edges() && t < q.topo.Turns() && Rises(q, phi, held, g, t)
    ensures q.plus(g, q.arc[t]) in held
  {
  }

  // Strictly better: one cost fewer is left to be found.
  lemma {:induction false} FewerLeft(q: Query, dist: seq<Dist>, e2: nat, g: real)
    requires q.Valid() && e2 < |dist| && Less(g, dist[e2]) && (e2, g) in CostsTo(q, q.topo.Edges())
    ensures Left(q, dist[e2 := Finite(g)]) < Left(q, dist)
  {
    hide CostsTo;
    assert (e2, g) in Left(q, dist) && (e2, g) !in Left(q, dist[e2 := Finite(g)]);
  }

  lemma TracedOn(q: Query, phi: seq<real>, held: iset<real>, dist: seq<Dist>, e: nat, t: nat)
    requires q.Valid() && Lifts(q, phi, held) && |dist| == q.topo.Edges() && Traced(q, held, dist)
    requires e < |dist| && dist[e].Finite? && t < q.topo.Turns() && q.topo.allowed[t] && q.topo.inEdge[t] == e
    requires Less(q.plus(dist[e].g, q.arc[t]), dist[q.topo.outEdge[t]])
    ensures var dist' := dist[q.topo.outEdge[t] := Finite(q.plus(dist[e].g, q.arc[t]))];
            Traced(q, held, dist') && Left(q, dist') < Left(q, dist) && dist'[e] == dist[e]
  {
    hide Lifts, Rises, Trail, Costs, CostsTo, Left;
    var e2, g := q.topo.outEdge[t], q.plus(dist[e].g, q.arc[t]);
    var dist' := dist[e2 := Finite(g)];
    var tr :| TrailTo(q, held, dist, tr, e);
    TrailOn(q, phi, held, dist, tr, e, t);
    TrailCounted(q, held, dist', tr + [(e2, g)]);
    FewerLeft(q, dist, e2, g);
    forall f: nat | f < |dist'| && dist'[f].Finite? ensures exists tr' :: TrailTo(q, held, dist', tr', f) {
      if f == e2 {
        assert TrailTo(q, held, dist', tr + [(e2, g)], f);
      } else {
        var tr' :| TrailTo(q, held, dist, tr', f);
        TrailStays(q, held, dist, e2, g, tr');
        assert TrailTo(q, held, dist', tr', f);
      }
    }
    NotItself(q, phi, held, dist, tr, e, t);
  }

  lemma NotItself(q: Query, phi: seq<real>, held: iset<real>, dist: seq<Dist>, tr: seq<(nat, real)>, e: nat, t: nat)
    requires q.Valid() && Lifts(q, phi, held) && |dist| == q.topo.Edges() && e < |dist| && dist[e].Finite?
    requires TrailTo(q, held, dist, tr, e) && t < q.topo.Turns() && q.topo.allowed[t] && q.topo.inEdge[t] == e
    requires Less(q.plus(dist[e].g, q.arc[t]), dist[q.topo.outEdge[t]])
    ensures q.topo.outEdge[t] != e
  {
    NoWayRound(q, phi, held, dist, tr, e, t);
  }

  lemma RootedOn(q: Query, phi: seq<real>, held: iset<real>, s: State, s': State, e: nat, t: nat)
    requires q.Valid() && Shaped(q, s) && Lifts(q, phi, held) && Traced(q, held, s.dist) && Rooted(q, phi, s)
    requires e < |s.dist| && s.dist[e].Finite? && t < q.topo.Turns() && q.topo.allowed[t] && q.topo.inEdge[t] == e
    requires Less(q.plus(s.dist[e].g, q.arc[t]), s.dist[q.topo.outEdge[t]])
    requires var e2 := q.topo.outEdge[t];
             s' == s.(dist := s.dist[e2 := Finite(q.plus(s.dist[e].g, q.arc[t]))], pred := s.pred[e2 := t], heap := s'.heap)
    ensures Shaped(q, s') && Rooted(q, phi, s')
  {
    var e2, g := q.topo.outEdge[t], q.plus(s.dist[e].g, q.arc[t]);
    var tr :| TrailTo(q, held, s.dist, tr, e);
    NoWayRound(q, phi, held, s.dist, tr, e, t);
    NotItself(q, phi, held, s.dist, tr, e, t);
    hide Lifts, Trail, TrailTo, Traced, Chain, Rises, HasChain;
    RootedAt(q, phi, s, e);
    NewRoot(q, phi, held, s, s'.pred, e, t);
    forall f: nat | f < q.topo.Edges() && s'.dist[f].Finite?
      ensures Downhill(q, phi, s', f) && HasChain(q.topo, s'.pred, f) {
      if f == e2 {
        LiftedOn(q, phi, held, s.dist[e].g, t);
      } else {
        RootedAt(q, phi, s, f);
        OldRoot(q.topo, s.pred, s'.pred, e2, t, f);
      }
    }
  }

  lemma RootedAt(q: Query, phi: seq<real>, s: State, e: nat)
    requires q.Valid() && Shaped(q, s) && |phi| == q.topo.Edges() && Rooted(q, phi, s)
    requires e < q.topo.Edges() && s.dist[e].Finite?
    ensures Downhill(q, phi, s, e) && HasChain(q.topo, s.pred, e)
  {
    hide HasChain;
  }

  lemma LiftedOn(q: Query, phi: seq<real>, held: iset<real>, g: real, t: nat)
    requires q.Valid() && |phi| == q.topo.Edges() && t < q.topo.Turns() && Rises(q, phi, held, g, t)
    ensures g + phi[q.topo.inEdge[t]] <= q.plus(g, q.arc[t]) + phi[q.topo.outEdge[t]]
  {
  }

  // The edge just improved hangs below e, ...
  lemma NewRoot(q: Query, phi: seq<real>, held: iset<real>, s: State, pred': seq<int>, e: nat, t: nat)
    requires q.Valid() && Shaped(q, s) && |phi| == q.topo.Edges() && Rooted(q, phi, s)
    requires e < q.topo.Edges() && s.dist[e].Finite? && t < q.topo.Turns() && q.topo.inEdge[t] == e
    requires Rises(q, phi, held, s.dist[e].g, t) && Less(q.plus(s.dist[e].g, q.arc[t]), s.dist[q.topo.outEdge[t]])
    requires pred' == s.pred[q.topo.outEdge[t] := t]
    ensures HasChain(q.topo, pred', q.topo.outEdge[t])
  {
    RootedAt(q, phi, s, e);
    hide Rooted, Chain, Downhill;
    var turns, first :| Chain(q.topo, s.pred, e, turns, first);
    ChainKept(q, phi, s, pred', q.topo.outEdge[t], t, e, turns, first);
    ChainMore(q.topo, pred', q.topo.outEdge[t], t, turns, first);
  }

  // ... and every other edge keeps a chain.
  lemma OldRoot(topo: Topo, pred: seq<int>, pred': seq<int>, e2: nat, t: nat, f: nat)
    requires e2 < |pred| && pred' == pred[e2 := t] && HasChain(topo, pred', e2) && HasChain(topo, pred, f)
    ensures HasChain(topo, pred', f)
  {
    var ts, fs :| Chain(topo, pred, f, ts, fs);
    Rechained(topo, pred, pred', e2, t, f, ts, fs);
  }

  // Relaxing a turn out of e, whose distance is g.
  lemma RelaxSettles(q: Query, phi: seq<real>, held: iset<real>, s: State, e: nat, g: real, t: nat)
    requires q.Valid() && Lifts(q, phi, held) && Settling(q, phi, held, s)
    requires e < q.topo.Edges() && s.dist[e] == Finite(g) && t < q.topo.Turns() && q.topo.inEdge[t] == e
    ensures var s' := Relax(q, s, g, t);
            && Settling(q, phi, held, s') && s'.dist[e] == Finite(g)
            && (Left(q, s'.dist) < Left(q, s.dist) || s' == s)
  {
    RelaxInv(q, s, g, t);
    hide HeapInv, Lifts, Traced, Rooted, Left;
    if Relax(q, s, g, t) != s {
      TracedOn(q, phi, held, s.dist, e, t);
      RootedOn(q, phi, held, s, Relax(q, s, g, t), e, t);
    }
  }

  lemma {:induction false} RelaxToSettles(q: Query, phi: seq<real>, held: iset<real>, s: State, e: nat, g: real, k: nat)
    requires q.Valid() && Lifts(q, phi, held) && Settling(q, phi, held, s) && e < q.topo.Edges() && s.dist[e] == Finite(g)
    requires q.topo.turnPtr[e] <= k <= q.topo.turnPtr[e + 1] && k <= q.topo.Turns()
    ensures var s' := RelaxTo(q, s, g, q.topo.turnPtr[e], k);
            && Settling(q, phi, held, s') && s'.dist[e] == Finite(g)
            && (Left(q, s'.dist) < Left(q, s.dist) || s' == s)
  {
    hide *;
    RowEnds(q, e);
    var lo := q.topo.turnPtr[e];
    RelaxToUnfold(q, s, g, lo, k);
    if lo < k {
      RowTurn(q, e, k - 1);
      RelaxToSettles(q, phi, held, s, e, g, k - 1);
      RelaxSettles(q, phi, held, RelaxTo(q, s, g, lo, k - 1), e, g, k - 1);
    }
  }

  // Every pop leaves less to find, or a smaller heap and nothing more to find.
  lemma PopSettles(q: Query, phi: seq<real>, held: iset<real>, s: State, x: Entry)
    requires q.Valid() && Lifts(q, phi, held) && Settling(q, phi, held, s) && x in s.heap
    ensures x.e < q.topo.Edges() && Settling(q, phi, held, Pop(q, s, x))
    ensures || Left(q, Pop(q, s, x).dist) < Left(q, s.dist)
            || (Left(q, Pop(q, s, x).dist) == Left(q, s.dist) && |Pop(q, s, x).heap| < |s.heap|)
  {
    hide *;
    SettledParts(q, phi, held, s);
    PopInv(q, s, x);
    var r := s.(heap := s.heap - multiset{x});
    RemoveInv(q, s, x);
    StillSettles(q, phi, held, s, r);
    PopIs(q, s, x);
    if s.dist[x.e] == Finite(x.g) {
      var f := Finalize(q, r, x.e, x.g);
      FinalizeInv(q, r, x.e, x.g);
      FinalizeSame(q, r, x.e, x.g);
      StillSettles(q, phi, held, r, f);
      RowEnds(q, x.e);
      RelaxToSettles(q, phi, held, f, x.e, x.g, q.topo.turnPtr[x.e + 1]);
    }
  }

  lemma SettledParts(q: Query, phi: seq<real>, held: iset<real>, s: State)
    requires q.Valid() && Settling(q, phi, held, s)
    ensures HeapInv(q, s) && Shaped(q, s) && |s.dist| == q.topo.Edges()
  {
  }

  lemma {:induction false} PopIs(q: Query, s: State, x: Entry)
    requires q.Valid() && Shaped(q, s) && x in s.heap && x.e < q.topo.Edges()
    ensures var r := s.(heap := s.heap - multiset{x});
            && Shaped(q, r) && |r.heap| < |s.heap| && x.e < |s.dist|
            && (s.dist[x.e] != Finite(x.g) ==> Pop(q, s, x) == r)
            && (s.dist[x.e] == Finite(x.g) ==>
                  && x.e + 1 < |q.topo.turnPtr| && q.topo.turnPtr[x.e] <= q.topo.turnPtr[x.e + 1] <= q.topo.Turns()
                  && Shaped(q, Finalize(q, r, x.e, x.g))
                  && Pop(q, s, x) == RelaxTo(q, Finalize(q, r, x.e, x.g), x.g, q.topo.turnPtr[x.e], q.topo.turnPtr[x.e + 1]))
  {
    hide RelaxTo;
    assert s.heap == (s.heap - multiset{x}) + multiset{x};
  }

  lemma FinalizeSame(q: Query, s: State, e: nat, g: real)
    requires q.Valid() && Shaped(q, s) && e < |s.dist| && s.dist[e].Finite?
    ensures var f := Finalize(q, s, e, g);
            f.dist == s.dist && f.pred == s.pred && f.heap == s.heap && (f.bestEdge == s.bestEdge || f.bestEdge == e)
  {
  }

  lemma StillSettles(q: Query, phi: seq<real>, held: iset<real>, s: State, s': State)
    requires q.Valid() && Settling(q, phi, held, s) && HeapInv(q, s') && s'.dist == s.dist && s'.pred == s.pred
    requires s'.bestEdge == s.bestEdge || (0 <= s'.bestEdge < |s.dist| && s.dist[s'.bestEdge].Finite?)
    ensures Settling(q, phi, held, s')
  {
    RootedSame(q, phi, s, s');
    hide HeapInv, Traced, Rooted;
  }

  lemma RootedSame(q: Query, phi: seq<real>, s: State, s': State)
    requires q.Valid() && Shaped(q, s) && Shaped(q, s') && |phi| == q.topo.Edges()
    requires s'.dist == s.dist && s'.pred == s.pred
    ensures Rooted(q, phi, s) ==> Rooted(q, phi, s')
  {
    hide Chain;
  }

  lemma RowTurn(q: Query, e: nat, t: nat)
    requires q.Valid() && e < q.topo.Edges() && q.topo.turnPtr[e] <= t < q.topo.turnPtr[e + 1]
    ensures t < q.topo.Turns() && q.topo.inEdge[t] == e
  {
    q.topo.RowOwner(e, t);
  }

  lemma RowEnds(q: Query, e: nat)
    requires q.Valid() && e < q.topo.Edges()
    ensures e + 1 < |q.topo.turnPtr| && q.topo.turnPtr[e] <= q.topo.turnPtr[e + 1] <= q.topo.Turns()
  {
  }

  // The walk back from the best edge ends.
  lemma BestHasChain(q: Query, phi: seq<real>, held: iset<real>, s: State) returns (turns: seq<nat>, first: nat)
    requires q.Valid() && Settling(q, phi, held, s) && s.bestEdge >= 0
    ensures Chain(q.topo, s.pred, s.bestEdge, turns, first)
  {
    hide HeapInv, Traced, Chain;
    assert HasChain(q.topo, s.pred, s.bestEdge);
    turns, first :| Chain(q.topo, s.pred, s.bestEdge, turns, first);
  }
}
