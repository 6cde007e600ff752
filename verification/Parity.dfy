// Parity of the two engines, as confluence: whatever a heap does with equal
// keys and with the payload g, and whatever addition rounds to, all complete
// runs expand the same edges in the same order and give the same answer.
module Parity {
  import opened Topology
  import opened Search

  // e has an entry that a pop would not skip.
  ghost predicate Open(q: Query, s: State, e: nat)
    requires q.Valid() && Shaped(q, s)
  {
    e < |s.dist| && s.dist[e].Finite? && Entry(q.F(s.dist[e].g, e), e, s.dist[e].g) in s.heap
  }

  // Strict-improvement pushes: every entry costs at least its edge's distance,
  // and at most one entry of an edge carries exactly that distance.
  ghost predicate HeapInv(q: Query, s: State)
    requires q.Valid()
    ensures HeapInv(q, s) ==> Shaped(q, s)
  {
    && Shaped(q, s)
    && (forall x :: x in s.heap ==>
          x.e < |s.dist| && s.dist[x.e].Finite? && s.dist[x.e].g <= x.g && x.f == q.F(x.g, x.e))
    && (forall x :: x in s.heap && s.dist[x.e] == Finite(x.g) ==> s.heap[x] == 1)
  }

  ghost function OpenEdges(q: Query, s: State): set<nat>
    requires q.Valid() && Shaped(q, s)
  {
    set e: nat | e < |s.dist| && Open(q, s, e)
  }

  // All of a state but the entries that will be skipped.
  datatype View = View(dist: seq<Dist>, pred: seq<int>, open: set<nat>,
                       bestFinal: Dist, bestEdge: int, order: seq<nat>)

  ghost function Visible(q: Query, s: State): View
    requires q.Valid() && Shaped(q, s)
  {
    View(s.dist, s.pred, OpenEdges(q, s), s.bestFinal, s.bestEdge, s.order)
  }

  lemma SeedOneInv(q: Query, s: State, p: Endpoint)
    requires q.Valid() && HeapInv(q, s) && p.edge < q.topo.Edges()
    ensures HeapInv(q, SeedOne(q, s, p))
  {
  }

  lemma {:induction false} SeededInv(q: Query, k: nat)
    requires q.Valid() && k <= |q.seeds|
    ensures HeapInv(q, Seeded(q, k))
  {
    if k > 0 {
      SeededInv(q, k - 1);
      SeedOneInv(q, Seeded(q, k - 1), q.seeds[k - 1]);
    }
  }

  lemma RelaxInv(q: Query, s: State, g: real, t: nat)
    requires q.Valid() && HeapInv(q, s) && t < q.topo.Turns()
    ensures HeapInv(q, Relax(q, s, g, t))
  {
  }

  lemma RelaxToUnfold(q: Query, s: State, g: real, lo: nat, k: nat)
    requires q.Valid() && Shaped(q, s) && lo <= k <= q.topo.Turns()
    ensures k == lo ==> RelaxTo(q, s, g, lo, k) == s
    ensures lo < k ==> k - 1 < |q.arc| && k - 1 < |q.topo.outEdge| && k - 1 < |q.topo.allowed|
    ensures lo < k ==> RelaxTo(q, s, g, lo, k) == Relax(q, RelaxTo(q, s, g, lo, k - 1), g, k - 1)
  {
  }

  lemma {:induction false} RelaxToInv(q: Query, s: State, g: real, lo: nat, k: nat)
    requires q.Valid() && HeapInv(q, s) && lo <= k <= q.topo.Turns()
    ensures HeapInv(q, RelaxTo(q, s, g, lo, k))
  {
    hide *;
    RelaxToUnfold(q, s, g, lo, k);
    if lo < k {
      RelaxToInv(q, s, g, lo, k - 1);
      RelaxInv(q, RelaxTo(q, s, g, lo, k - 1), g, k - 1);
    }
  }

  lemma EntryEdge(q: Query, s: State, x: Entry)
    requires q.Valid() && HeapInv(q, s) && x in s.heap
    ensures x.e < q.topo.Edges() && s.dist[x.e].Finite? && s.dist[x.e].g <= x.g && x.f == q.F(x.g, x.e)
  {
  }

  lemma RemoveInv(q: Query, s: State, x: Entry)
    requires q.Valid() && HeapInv(q, s)
    ensures HeapInv(q, s.(heap := s.heap - multiset{x}))
  {
    assert forall y :: y in s.heap - multiset{x} ==> y in s.heap;
  }

  lemma FinalizeInv(q: Query, s: State, e: nat, g: real)
    requires q.Valid() && HeapInv(q, s) && e < q.topo.Edges()
    ensures HeapInv(q, Finalize(q, s, e, g))
  {
  }

  lemma PopInv(q: Query, s: State, x: Entry)
    requires q.Valid() && HeapInv(q, s) && x in s.heap
    ensures x.e < q.topo.Edges() && HeapInv(q, Pop(q, s, x))
  {
    hide HeapInv, RelaxTo, Finalize;
    EntryEdge(q, s, x);
    var r := s.(heap := s.heap - multiset{x});
    RemoveInv(q, s, x);
    if s.dist[x.e] == Finite(x.g) {
      FinalizeInv(q, r, x.e, x.g);
      RelaxToInv(q, Finalize(q, r, x.e, x.g), x.g, q.topo.turnPtr[x.e], q.topo.turnPtr[x.e + 1]);
    }
  }

  // ---------------------------------------------------------- confluence

  // Skipping an entry changes nothing that Sim can see.
  lemma SkipStutters(q: Query, s: State, x: Entry)
    requires q.Valid() && HeapInv(q, s) && x in s.heap && s.dist[x.e] != Finite(x.g)
    ensures HeapInv(q, Pop(q, s, x)) && Visible(q, Pop(q, s, x)) == Visible(q, s)
  {
    PopInv(q, s, x);
  }

  lemma RelaxOpens(q: Query, s: State, g: real, t: nat)
    requires q.Valid() && HeapInv(q, s) && t < q.topo.Turns()
    ensures Shaped(q, Relax(q, s, g, t))
    ensures OpenEdges(q, Relax(q, s, g, t))
         == OpenEdges(q, s) + if Relax(q, s, g, t) == s then {} else {q.topo.outEdge[t]}
  {
    var s' := Relax(q, s, g, t);
    forall e: nat | e < |s.dist| && e != q.topo.outEdge[t] ensures Open(q, s', e) <==> Open(q, s, e) {
    }
  }

  lemma {:induction false} RelaxToAgree(q: Query, a: State, b: State, g: real, lo: nat, k: nat)
    requires q.Valid() && HeapInv(q, a) && HeapInv(q, b) && lo <= k <= q.topo.Turns()
    requires Visible(q, a) == Visible(q, b)
    ensures Visible(q, RelaxTo(q, a, g, lo, k)) == Visible(q, RelaxTo(q, b, g, lo, k))
  {
    hide *;
    RelaxToUnfold(q, a, g, lo, k);
    RelaxToUnfold(q, b, g, lo, k);
    if lo < k {
      RelaxToAgree(q, a, b, g, lo, k - 1);
      RelaxToInv(q, a, g, lo, k - 1);
      RelaxToInv(q, b, g, lo, k - 1);
      RelaxAgrees(q, RelaxTo(q, a, g, lo, k - 1), RelaxTo(q, b, g, lo, k - 1), g, k - 1);
    }
  }

  lemma RelaxAgrees(q: Query, a: State, b: State, g: real, t: nat)
    requires q.Valid() && HeapInv(q, a) && HeapInv(q, b) && t < q.topo.Turns()
    requires Visible(q, a) == Visible(q, b)
    ensures Shaped(q, Relax(q, a, g, t)) && Shaped(q, Relax(q, b, g, t))
    ensures Visible(q, Relax(q, a, g, t)) == Visible(q, Relax(q, b, g, t))
  {
    RelaxOpens(q, a, g, t);
    RelaxOpens(q, b, g, t);
  }

  // Taking a live entry out closes its edge and no other.
  lemma RemoveCloses(q: Query, s: State, x: Entry)
    requires q.Valid() && HeapInv(q, s) && x in s.heap && s.dist[x.e] == Finite(x.g)
    ensures HeapInv(q, s.(heap := s.heap - multiset{x}))
    ensures OpenEdges(q, s.(heap := s.heap - multiset{x})) == OpenEdges(q, s) - {x.e}
  {
    var s' := s.(heap := s.heap - multiset{x});
    assert forall y :: y in s'.heap ==> y in s.heap;
    forall e: nat | e < |s.dist| ensures Open(q, s', e) <==> Open(q, s, e) && e != x.e {
    }
  }

  // Two live pops from similar states pop the same entry, and agree again.
  lemma LivePopsAgree(q: Query, a: State, x: Entry, b: State, y: Entry)
    requires q.Valid() && HeapInv(q, a) && HeapInv(q, b) && Visible(q, a) == Visible(q, b)
    requires Minimal(a.heap, x) && a.dist[x.e] == Finite(x.g)
    requires Minimal(b.heap, y) && b.dist[y.e] == Finite(y.g)
    ensures x == y && Visible(q, Pop(q, a, x)) == Visible(q, Pop(q, b, y))
  {
    assert x.e in OpenEdges(q, a) && y.e in OpenEdges(q, b);
    assert Open(q, b, x.e) && Open(q, a, y.e);
    assert x == y;
    ExpansionsAgree(q, a, b, x);
  }

  lemma ExpansionsAgree(q: Query, a: State, b: State, x: Entry)
    requires q.Valid() && HeapInv(q, a) && HeapInv(q, b) && Visible(q, a) == Visible(q, b)
    requires x in a.heap && x in b.heap && a.dist[x.e] == Finite(x.g)
    ensures Visible(q, Pop(q, a, x)) == Visible(q, Pop(q, b, x))
  {
    RemoveCloses(q, a, x);
    RemoveCloses(q, b, x);
    var a', b' := a.(heap := a.heap - multiset{x}), b.(heap := b.heap - multiset{x});
    FinalizeAgrees(q, a', b', x.e, x.g);
    RelaxToAgree(q, Finalize(q, a', x.e, x.g), Finalize(q, b', x.e, x.g),
               x.g, q.topo.turnPtr[x.e], q.topo.turnPtr[x.e + 1]);
  }

  lemma FinalizeOpens(q: Query, s: State, e: nat, g: real)
    requires q.Valid() && Shaped(q, s) && e < q.topo.Edges()
    ensures Shaped(q, Finalize(q, s, e, g)) && OpenEdges(q, Finalize(q, s, e, g)) == OpenEdges(q, s)
  {
    assert forall i: nat | i < |s.dist| :: Open(q, Finalize(q, s, e, g), i) <==> Open(q, s, i);
  }

  lemma FinalizeAgrees(q: Query, a: State, b: State, e: nat, g: real)
    requires q.Valid() && HeapInv(q, a) && HeapInv(q, b) && Visible(q, a) == Visible(q, b) && e < q.topo.Edges()
    ensures HeapInv(q, Finalize(q, a, e, g)) && HeapInv(q, Finalize(q, b, e, g))
    ensures Visible(q, Finalize(q, a, e, g)) == Visible(q, Finalize(q, b, e, g))
  {
    FinalizeInv(q, a, e, g);
    FinalizeInv(q, b, e, g);
    FinalizeOpens(q, a, e, g);
    FinalizeOpens(q, b, e, g);
  }

  // Once one of two similar states halts, the other only skips.
  lemma HaltedBlocks(q: Query, a: State, b: State, y: Entry)
    requires q.Valid() && HeapInv(q, a) && HeapInv(q, b) && Visible(q, a) == Visible(q, b)
    requires Halted(q, a) && Minimal(b.heap, y) && !Stops(q, b, y)
    ensures b.dist[y.e] != Finite(y.g)
  {
    assert Open(q, b, y.e) ==> y.e in OpenEdges(q, b);
  }

  lemma {:induction false} RunsAgree(q: Query, ra: seq<State>, rb: seq<State>)
    requires q.Valid() && Steps(q, ra) && Steps(q, rb)
    requires Halted(q, ra[|ra| - 1]) && Halted(q, rb[|rb| - 1])
    requires HeapInv(q, ra[0]) && HeapInv(q, rb[0]) && Visible(q, ra[0]) == Visible(q, rb[0])
    ensures Visible(q, ra[|ra| - 1]) == Visible(q, rb[|rb| - 1])
    decreases |ra| + |rb|
  {
    if |ra| > 1 {
      var x := StepEntry(q, ra);
      if ra[0].dist[x.e] != Finite(x.g) {
        SkipStutters(q, ra[0], x);
        StepsTail(q, ra);
        RunsAgree(q, ra[1..], rb);
      } else if |rb| == 1 {
        HaltedBlocks(q, rb[0], ra[0], x);
      } else {
        BothStep(q, ra, x, rb);
      }
    } else if |rb| > 1 {
      var y := StepEntry(q, rb);
      HaltedBlocks(q, ra[0], rb[0], y);
      SkipStutters(q, rb[0], y);
      StepsTail(q, rb);
      RunsAgree(q, ra, rb[1..]);
    }
  }

  lemma {:induction false} BothStep(q: Query, ra: seq<State>, x: Entry, rb: seq<State>)
    requires q.Valid() && Steps(q, ra) && Steps(q, rb) && |ra| > 1 && |rb| > 1
    requires Halted(q, ra[|ra| - 1]) && Halted(q, rb[|rb| - 1])
    requires HeapInv(q, ra[0]) && HeapInv(q, rb[0]) && Visible(q, ra[0]) == Visible(q, rb[0])
    requires Minimal(ra[0].heap, x) && ra[0].dist[x.e] == Finite(x.g) && ra[1] == Pop(q, ra[0], x)
    ensures Visible(q, ra[|ra| - 1]) == Visible(q, rb[|rb| - 1])
    decreases |ra| + |rb|, 0
  {
    var y := StepEntry(q, rb);
    StepsTail(q, rb);
    if rb[0].dist[y.e] != Finite(y.g) {
      SkipStutters(q, rb[0], y);
      RunsAgree(q, ra, rb[1..]);
    } else {
      PopInv(q, ra[0], x);
      StepsTail(q, ra);
      LivePopsAgree(q, ra[0], x, rb[0], y);
      RunsAgree(q, ra[1..], rb[1..]);
    }
  }

  lemma StepEntry(q: Query, run: seq<State>) returns (x: Entry)
    requires q.Valid() && Steps(q, run) && |run| > 1 && HeapInv(q, run[0])
    ensures Minimal(run[0].heap, x) && !Stops(q, run[0], x) && run[1] == Pop(q, run[0], x)
    ensures HeapInv(q, run[1])
  {
    assert Step(q, run[0], run[1]);
    x :| Minimal(run[0].heap, x) && x.e < q.topo.Edges() && !Stops(q, run[0], x) && run[1] == Pop(q, run[0], x);
    PopInv(q, run[0], x);
  }

  lemma StepsTail(q: Query, run: seq<State>)
    requires q.Valid() && Steps(q, run) && |run| > 1
    ensures Steps(q, run[1..]) && run[1..][0] == run[1] && run[1..][|run| - 2] == run[|run| - 1]
  {
    var r := run[1..];
    forall i | 0 <= i < |r| - 1 ensures Step(q, r[i], r[i + 1]) {
      assert Step(q, run[i + 1], run[i + 2]);
    }
  }

  lemma {:induction false} ChainUnique(topo: Topo, pred: seq<int>, e: nat, s: seq<nat>, first: nat, s': seq<nat>,
                                       first': nat)
    requires Chain(topo, pred, e, s, first) && Chain(topo, pred, e, s', first')
    ensures s == s' && first == first'
    decreases |s|
  {
    if s != [] && s' != [] {
      var t := s[|s| - 1];
      ChainUnique(topo, pred, topo.inEdge[t], s[..|s| - 1], first, s'[..|s'| - 1], first');
      assert s == s[..|s| - 1] + [t] && s' == s'[..|s'| - 1] + [t];
    }
  }

  // The parity theorem, for every addition: no assumption on signs, on the
  // heuristic, or on how `plus` rounds.
  lemma Confluence(q: Query, ra: seq<State>, rb: seq<State>)
    requires q.Valid() && CompleteRun(q, ra) && CompleteRun(q, rb)
    ensures ra[|ra| - 1].order == rb[|rb| - 1].order
    ensures forall r, r' {:trigger Answers(q, ra[|ra| - 1], r), Answers(q, rb[|rb| - 1], r')} ::
              Answers(q, ra[|ra| - 1], r) && Answers(q, rb[|rb| - 1], r') ==> r == r'
  {
    SeededInv(q, |q.seeds|);
    RunsAgree(q, ra, rb);
    var a, b := ra[|ra| - 1], rb[|rb| - 1];
    forall r, r' | Answers(q, a, r) && Answers(q, b, r') ensures r == r' {
      if a.bestEdge >= 0 {
        ChainUnique(q.topo, a.pred, a.bestEdge, r.value.turns, r.value.first, r'.value.turns, r'.value.first);
      }
    }
  }

  // Hence two engines that both meet `Returns` give the same turns, edges
  // and cost.
  lemma EnginesAgree(q: Query, r: Option<PathResult>, r': Option<PathResult>)
    requires q.Valid() && Returns(q, r) && Returns(q, r')
    ensures r == r'
  {
    var ra :| CompleteRun(q, ra) && Answers(q, ra[|ra| - 1], r);
    var rb :| CompleteRun(q, rb) && Answers(q, rb[|rb| - 1], r');
    Confluence(q, ra, rb);
  }
}
