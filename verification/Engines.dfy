// The two implementations: pyref/search.py and core/src/engine.cpp. Both are
// proved to stop and to return the answer of a complete run, whatever `plus`
// rounds to: hence the same answer (Parity), and in exact arithmetic the
// cheapest route (Routes).
module Engines {
  import opened Topology
  import opened Search
  import opened Parity
  import opened Termination

  // ------------------------------------------------------ the library heap

  ghost predicate Below(x: Entry, y: Entry) { x.f < y.f || (x.f == y.f && x.e <= y.e) }

  lemma {:induction false} MinimalExists(heap: multiset<Entry>)
    requires heap != multiset{}
    ensures exists x :: Minimal(heap, x)
    decreases |heap|
  {
    var y :| y in heap;
    var rest := heap - multiset{y};
    assert heap == rest + multiset{y};
    if rest == multiset{} {
      assert Minimal(heap, y);
    } else {
      MinimalExists(rest);
      var x :| Minimal(rest, x);
      assert Minimal(heap, if Below(x, y) then x else y);
    }
  }

  // heapq.heappop / priority_queue: some minimal entry, and the rest.
  method PopMin(heap: multiset<Entry>) returns (x: Entry, rest: multiset<Entry>)
    requires heap != multiset{}
    ensures Minimal(heap, x) && rest == heap - multiset{x}
  {
    MinimalExists(heap);
    x :| x in heap && forall y :: y in heap ==> x.f < y.f || (x.f == y.f && x.e <= y.e);
    rest := heap - multiset{x};
  }

  // ------------------------------------------------- runs of an implementation

  // A run so far, ending in s.
  ghost predicate RunTo(q: Query, run: seq<State>, s: State)
    requires q.Valid()
    ensures RunTo(q, run, s) ==> Shaped(q, s)
  {
    Steps(q, run) && run[0] == Initial(q) && run[|run| - 1] == s
  }

  lemma StartRun(q: Query, phi: seq<real>, held: iset<real>)
    requires q.Valid() && Lifts(q, phi, held)
    ensures RunTo(q, [Initial(q)], Initial(q)) && Settling(q, phi, held, Initial(q))
  {
    InitialSettles(q, phi, held);
    hide Settling, Lifts;
  }

  // Every pop leaves fewer costs to be found, or a smaller heap.
  lemma ExtendRun(q: Query, phi: seq<real>, held: iset<real>, run: seq<State>, s: State, x: Entry)
    requires q.Valid() && Lifts(q, phi, held) && RunTo(q, run, s) && Settling(q, phi, held, s)
    requires Minimal(s.heap, x) && !Stops(q, s, x)
    ensures x.e < q.topo.Edges()
    ensures RunTo(q, run + [Pop(q, s, x)], Pop(q, s, x)) && Settling(q, phi, held, Pop(q, s, x))
    ensures s.dist[x.e] != Finite(x.g) ==> Pop(q, s, x) == s.(heap := s.heap - multiset{x})
    ensures || Left(q, Pop(q, s, x).dist) < Left(q, s.dist)
            || (Left(q, Pop(q, s, x).dist) == Left(q, s.dist) && |Pop(q, s, x).heap| < |s.heap|)
  {
    hide Settling, Lifts, RelaxTo, RunTo, Left;
    PopSettles(q, phi, held, s, x);
    var s' := Pop(q, s, x);
    assert Step(q, s, s') by { hide Pop, Minimal; }
    LongerRun(q, run, s, s');
  }

  lemma LongerRun(q: Query, run: seq<State>, s: State, s': State)
    requires q.Valid() && RunTo(q, run, s) && Step(q, s, s') && Shaped(q, s')
    ensures RunTo(q, run + [s'], s')
  {
    hide Step;
    var run' := run + [s'];
    forall i | 0 <= i < |run'| - 1 ensures Step(q, run'[i], run'[i + 1]) {
      assert i < |run| - 1 ==> Step(q, run[i], run[i + 1]);
    }
  }

  lemma FinishRun(q: Query, run: seq<State>, s: State, r: Option<PathResult>)
    requires q.Valid() && RunTo(q, run, s) && Halted(q, s) && Answers(q, s, r)
    ensures Returns(q, r)
  {
    assert CompleteRun(q, run);
  }

  // The tables and the best destination an implementation holds are s's.
  ghost predicate Holds(s: State, dist: array<Dist>, pred: array<int>, bestFinal: Dist, bestEdge: int)
    reads dist, pred
  {
    s.dist == dist[..] && s.pred == pred[..] && s.bestFinal == bestFinal && s.bestEdge == bestEdge
  }

  // ---------------------------------------------------------- P7, shared

  function Reversed(s: seq<nat>): (r: seq<nat>)
    ensures |r| == |s|
  {
    if s == [] then [] else Reversed(s[1..]) + [s[0]]
  }

  lemma {:induction false} ReversedSnoc(s: seq<nat>, t: nat)
    ensures Reversed(s + [t]) == [t] + Reversed(s)
  {
    if s == [] {
      assert ([] + [t])[1..] == [];
    } else {
      ReversedSnoc(s[1..], t);
      assert (s + [t])[1..] == s[1..] + [t];
    }
  }

  // The walk back from the best edge, collected and then reversed.
  method Reconstruct(q: Query, ghost s: State, pred: array<int>, best: nat, ghost chain: seq<nat>, ghost from: nat)
    returns (turns: seq<nat>, first: nat)
    requires q.Valid() && s.pred == pred[..] && Chain(q.topo, s.pred, best, chain, from)
    ensures turns == chain && first == from
  {
    var e: nat, back: seq<nat> := best, [];
    ghost var left := chain;
    assert left + Reversed(back) == chain;
    while pred[e] != -1
      invariant Chain(q.topo, s.pred, e, left, from) && left + Reversed(back) == chain
      decreases |left|
    {
      var t := pred[e];
      ghost var before := left[..|left| - 1];
      ReversedSnoc(back, t);
      assert left == before + [t];
      assert before + ([t] + Reversed(back)) == chain;
      e, back, left := q.topo.inEdge[t], back + [t], before;
    }
    turns, first := Reversed(back), e;
  }

  lemma BestChain(q: Query, phi: seq<real>, held: iset<real>, s: State) returns (turns: seq<nat>, first: nat)
    requires q.Valid() && Settling(q, phi, held, s) && s.bestEdge >= 0
    ensures Chain(q.topo, s.pred, s.bestEdge, turns, first) && s.bestFinal.Finite?
  {
    turns, first := BestHasChain(q, phi, held, s);
    hide HeapInv, Traced, Rooted, Chain;
  }

  lemma AnswersNow(q: Query, s: State, r: Option<PathResult>)
    requires q.Valid() && Shaped(q, s)
    requires if s.bestEdge < 0 then r == None
             else r.Some? && r.value.dest == s.bestEdge && Finite(r.value.total) == s.bestFinal
                  && Chain(q.topo, s.pred, s.bestEdge, r.value.turns, r.value.first)
    ensures Answers(q, s, r)
  {
  }

  // The answer, if a destination was finalized.
  method ReadOff(q: Query, ghost phi: seq<real>, ghost held: iset<real>, ghost s: State, pred: array<int>,
                 bestFinal: Dist, bestEdge: int)
    returns (r: Option<PathResult>)
    requires q.Valid() && Settling(q, phi, held, s)
    requires s.pred == pred[..] && s.bestFinal == bestFinal && s.bestEdge == bestEdge
    ensures Answers(q, s, r)
  {
    hide Settling, Chain, Answers;
    if bestEdge < 0 {
      r := None;
    } else {
      ghost var chain, from := BestChain(q, phi, held, s);
      var turns, first := Reconstruct(q, s, pred, bestEdge, chain, from);
      r := Some(PathResult(turns, first, bestEdge, bestFinal.g));
    }
    AnswersNow(q, s, r);
  }

  // ------------------------------------------------------ pyref/search.py

  method DestAdjust(dests: seq<Endpoint>) returns (m: map<nat, real>)
    ensures forall e: nat :: Adjust(dests, e) == if e in m then Some(m[e]) else None
  {
    m := map[];
    for i := 0 to |dests|
      invariant forall e: nat :: Adjust(dests[..i], e) == if e in m then Some(m[e]) else None
    {
      m := m[dests[i].edge := dests[i].cost];
      assert dests[..i + 1][..i] == dests[..i];
    }
    assert dests[..|dests|] == dests;
  }

  method SlackOf(q: Query) returns (slack: real)
    requires q.Valid()
    ensures slack == Slack(q, |q.dests|)
  {
    slack := 0.0;
    for i := 0 to |q.dests|
      invariant slack == Slack(q, i)
    {
      var s := q.plus(q.H(q.dests[i].edge), -q.dests[i].cost);
      if s > slack {
        slack := s;
      }
    }
  }

  method PushSeeds(q: Query, dist: array<Dist>) returns (heap: multiset<Entry>)
    requires q.Valid() && dist[..] == Blank(q).dist
    modifies dist
    ensures dist[..] == Initial(q).dist && heap == Initial(q).heap
    ensures Initial(q) == Blank(q).(dist := dist[..], heap := heap)
  {
    heap := multiset{};
    for i := 0 to |q.seeds|
      invariant Seeded(q, i) == Blank(q).(dist := dist[..], heap := heap)
    {
      var e, g0 := q.seeds[i].edge, q.seeds[i].cost;
      if Less(g0, dist[e]) {
        dist[e] := Finite(g0);
        heap := heap + multiset{Entry(q.F(g0, e), e, g0)};
      }
    }
  }

  // The turns of one row, relaxed in order.
  method RelaxRow(q: Query, ghost s: State, dist: array<Dist>, pred: array<int>, heap: multiset<Entry>,
                  g: real, lo: nat, hi: nat)
    returns (heap': multiset<Entry>)
    requires q.Valid() && Shaped(q, s) && lo <= hi <= q.topo.Turns()
    requires s.dist == dist[..] && s.pred == pred[..] && s.heap == heap
    modifies dist, pred
    ensures RelaxTo(q, s, g, lo, hi) == s.(dist := dist[..], pred := pred[..], heap := heap')
  {
    hide RelaxTo;
    heap' := heap;
    RelaxToUnfold(q, s, g, lo, lo);
    for t := lo to hi
      invariant RelaxTo(q, s, g, lo, t) == s.(dist := dist[..], pred := pred[..], heap := heap')
    {
      RelaxToUnfold(q, s, g, lo, t + 1);
      if !q.topo.allowed[t] { continue; }
      var e2 := q.topo.outEdge[t];
      var gNew := q.plus(g, q.arc[t]);
      if Less(gNew, dist[e2]) {
        dist[e2] := Finite(gNew);
        pred[e2] := t;
        heap' := heap' + multiset{Entry(q.F(gNew, e2), e2, gNew)};
      }
    }
  }

  // The body of the main loop past the lazy-deletion test: finalize, relax.
  // `adj` is what the implementation's refund table holds for the edge.
  method Expand(q: Query, ghost s: State, x: Entry, adj: Option<real>, dist: array<Dist>, pred: array<int>,
                rest: multiset<Entry>, bestFinal: Dist, bestEdge: int)
    returns (heap: multiset<Entry>, bestFinal': Dist, bestEdge': int)
    requires q.Valid() && Shaped(q, s) && x.e < q.topo.Edges() && s.dist[x.e] == Finite(x.g)
    requires adj == Adjust(q.dests, x.e) && rest == s.heap - multiset{x}
    requires Holds(s, dist, pred, bestFinal, bestEdge)
    modifies dist, pred
    ensures Holds(Pop(q, s, x), dist, pred, bestFinal', bestEdge') && Pop(q, s, x).heap == heap
  {
    hide RelaxTo;
    bestFinal', bestEdge' := bestFinal, bestEdge;
    if adj.Some? {
      var final := q.plus(x.g, adj.value);
      if Less(final, bestFinal) {
        bestFinal', bestEdge' := Finite(final), x.e;
      }
    }
    heap := RelaxRow(q, Finalize(q, s.(heap := rest), x.e, x.g), dist, pred, rest, x.g,
                     q.topo.turnPtr[x.e], q.topo.turnPtr[x.e + 1]);
  }

  method ShortestPath(q: Query) returns (r: Option<PathResult>)
    requires q.Valid() && Inflationary(q)
    ensures Returns(q, r)
  {
    hide Settling, Lifts, HeapInv, RelaxTo, Seeded, RunTo, Halted, Finalize, Left;
    var dist := new Dist[q.topo.Edges()](i => Infinite);
    var pred := new int[q.topo.Edges()](i => -1);
    var adjust := DestAdjust(q.dests);
    var slack := SlackOf(q);
    var heap := PushSeeds(q, dist);
    var bestFinal, bestEdge: int := Infinite, -1;
    ghost var s, run := Initial(q), [Initial(q)];
    ghost var phi, held :| Lifts(q, phi, held);
    StartRun(q, phi, held);
    hide Pop, Minimal, Slack, Answers, Topo.Valid, Query.Valid, Chain;
    while heap != multiset{}
      invariant RunTo(q, run, s) && Settling(q, phi, held, s)
      invariant Holds(s, dist, pred, bestFinal, bestEdge) && s.heap == heap
      decreases Left(q, s.dist), |heap|
    {
      var x, rest := PopMin(heap);
      if bestEdge >= 0 && x.f > q.plus(bestFinal.g, slack) {
        break;
      }
      heap := rest;
      ExtendRun(q, phi, held, run, s, x);
      ghost var s' := Pop(q, s, x);
      if dist[x.e] == Finite(x.g) {
        var adj := if x.e in adjust then Some(adjust[x.e]) else None;
        heap, bestFinal, bestEdge := Expand(q, s, x, adj, dist, pred, rest, bestFinal, bestEdge);
      }
      s, run := s', run + [s'];
    }
    assert Halted(q, s) by { HaltedNow(q, s); }
    r := ReadOff(q, phi, held, s, pred, bestFinal, bestEdge);
    FinishRun(q, run, s, r);
  }

  lemma HaltedNow(q: Query, s: State)
    requires q.Valid() && Shaped(q, s)
    requires s.heap == multiset{} || exists x :: Minimal(s.heap, x) && Stops(q, s, x)
    ensures Halted(q, s)
  {
  }

  // ----------------------------------------------------- core/src/engine.cpp

  // A vector indexed by edge, with infinity for "not a destination".
  ghost predicate RefundVector(dests: seq<Endpoint>, v: seq<Dist>) {
    forall e: nat :: e < |v| ==> Adjust(dests, e) == if v[e].Finite? then Some(v[e].g) else None
  }

  // The C++ engine is built once over the topology and keeps the refunds in
  // a vector.
  class Engine {
    const topo: Topo

    constructor (topo: Topo)
      ensures this.topo == topo
    {
      this.topo := topo;
    }

    method Refunds(dests: seq<Endpoint>) returns (v: array<Dist>)
      requires topo.Edges() >= 0 && forall i :: 0 <= i < |dests| ==> dests[i].edge < topo.Edges()
      ensures fresh(v) && v.Length == topo.Edges() && RefundVector(dests, v[..])
    {
      v := new Dist[topo.Edges()](i => Infinite);
      for i := 0 to |dests|
        invariant RefundVector(dests[..i], v[..])
      {
        v[dests[i].edge] := Finite(dests[i].cost);
        assert dests[..i + 1][..i] == dests[..i];
      }
      assert dests[..|dests|] == dests;
    }

    method ShortestPath(q: Query) returns (r: Option<PathResult>)
      requires q.topo == topo && q.Valid() && Inflationary(q)
      ensures Returns(q, r)
    {
      hide Settling, Lifts, HeapInv, RelaxTo, Seeded, RunTo, Halted, Finalize, RefundVector, Left;
      var dist := new Dist[topo.Edges()](i => Infinite);
      var pred := new int[topo.Edges()](i => -1);
      var destAdjust := Refunds(q.dests);
      var slack := SlackOf(q);
      var heap := PushSeeds(q, dist);
      var bestFinal, bestEdge: int := Infinite, -1;
      ghost var s, run := Initial(q), [Initial(q)];
      ghost var phi, held :| Lifts(q, phi, held);
      StartRun(q, phi, held);
      hide Pop, Minimal, Slack, Answers, Topo.Valid, Query.Valid, Chain;
      while heap != multiset{}
        invariant RunTo(q, run, s) && Settling(q, phi, held, s)
        invariant Holds(s, dist, pred, bestFinal, bestEdge) && s.heap == heap
        invariant RefundVector(q.dests, destAdjust[..])
        decreases Left(q, s.dist), |heap|
      {
        var top, rest := PopMin(heap);
        heap := rest;
        if bestEdge >= 0 && top.f > q.plus(bestFinal.g, slack) {
          break;
        }
        ExtendRun(q, phi, held, run, s, top);
        ghost var s' := Pop(q, s, top);
        if dist[top.e] == Finite(top.g) {
          var adj := if destAdjust[top.e].Finite? then Some(destAdjust[top.e].g) else None;
          RefundAt(q.dests, destAdjust[..], top.e);
          heap, bestFinal, bestEdge := Expand(q, s, top, adj, dist, pred, rest, bestFinal, bestEdge);
        }
        s, run := s', run + [s'];
      }
      assert Halted(q, s) by { HaltedNow(q, s); }
      r := ReadOff(q, phi, held, s, pred, bestFinal, bestEdge);
      FinishRun(q, run, s, r);
    }
  }

  lemma {:induction false} RefundAt(dests: seq<Endpoint>, v: seq<Dist>, e: nat)
    requires RefundVector(dests, v) && e < |v|
    ensures Adjust(dests, e) == if v[e].Finite? then Some(v[e].g) else None
  {
  }
}
