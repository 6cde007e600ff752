// The edge-based Dijkstra / A* engine as a state machine.
//
// The machine keeps the library heap abstract: a step may pop ANY entry that
// is minimal for the order on (f, edge). Addition is a parameter (`plus`), so
// that what holds whatever the rounding is stated for every `plus`, and what
// needs exact arithmetic says so (`Exact`).
module Search {
  import opened Topology

  datatype Dist = Infinite | Finite(g: real)

  predicate Less(x: real, d: Dist) { d.Infinite? || x < d.g }

  // A seed edge with its remaining cost, or a destination edge with its refund.
  datatype Endpoint = Endpoint(edge: nat, cost: real)

  datatype Entry = Entry(f: real, e: nat, g: real)

  datatype Query = Query(topo: Topo, arc: seq<real>, h: Option<seq<real>>,
                         seeds: seq<Endpoint>, dests: seq<Endpoint>, plus: (real, real) -> real) {
    ghost predicate Valid() {
      && topo.Valid()
      && |arc| == topo.Turns()
      && (h.Some? ==> |h.value| == topo.Edges())
      && (forall i :: 0 <= i < |seeds| ==> seeds[i].edge < topo.Edges())
      && (forall i :: 0 <= i < |dests| ==> dests[i].edge < topo.Edges())
    }

    // The heuristic value, 0 for plain Dijkstra.
    function H(e: nat): real
      requires h.Some? ==> e < |h.value|
    {
      if h.Some? then h.value[e] else 0.0
    }

    function F(g: real, e: nat): real
      requires h.Some? ==> e < |h.value|
    {
      plus(g, H(e))
    }
  }

  ghost predicate Exact(q: Query) {
    forall x, y :: q.plus(x, y) == x + y
  }

  // h never drops by more than the arc it crosses: with no heuristic this
  // says that no allowed arc is negative.
  ghost predicate Consistent(q: Query)
    requires q.Valid()
  {
    forall t :: 0 <= t < q.topo.Turns() && q.topo.allowed[t] ==>
      q.H(q.topo.inEdge[t]) <= q.arc[t] + q.H(q.topo.outEdge[t])
  }

  // Of two entries for one edge, the later wins.
  function Adjust(dests: seq<Endpoint>, e: nat): Option<real> {
    if dests == [] then None
    else if dests[|dests| - 1].edge == e then Some(dests[|dests| - 1].cost)
    else Adjust(dests[..|dests| - 1], e)
  }

  // P6: the largest h[d] - adjust over the LISTED destinations, at least 0.
  function Slack(q: Query, k: nat): real
    requires k <= |q.dests|
    requires q.h.Some? ==> forall i :: 0 <= i < |q.dests| ==> q.dests[i].edge < |q.h.value|
  {
    if k == 0 then 0.0
    else
      var s := q.plus(q.H(q.dests[k - 1].edge), -q.dests[k - 1].cost);
      if s > Slack(q, k - 1) then s else Slack(q, k - 1)
  }

  // ----------------------------------------------------------- the machine

  // `order` is the sequence of edges expanded so far (no implementation
  // stores it; it is what the runs are compared by).
  datatype State = State(dist: seq<Dist>, pred: seq<int>, heap: multiset<Entry>,
                         bestFinal: Dist, bestEdge: int, order: seq<nat>)

  ghost predicate Shaped(q: Query, s: State)
    requires q.Valid()
  {
    && |s.dist| == q.topo.Edges() && |s.pred| == q.topo.Edges()
    && (s.bestEdge >= 0 ==> s.bestFinal.Finite? && s.bestEdge < q.topo.Edges())
  }

  function Blank(q: Query): State
    requires q.topo.Edges() >= 0
  {
    State(seq(q.topo.Edges(), i => Infinite), seq(q.topo.Edges(), i => -1), multiset{}, Infinite, -1, [])
  }

  function SeedOne(q: Query, s: State, p: Endpoint): State
    requires p.edge < |s.dist| && (q.h.Some? ==> |q.h.value| == |s.dist|)
  {
    if Less(p.cost, s.dist[p.edge]) then
      s.(dist := s.dist[p.edge := Finite(p.cost)],
         heap := s.heap + multiset{Entry(q.F(p.cost, p.edge), p.edge, p.cost)})
    else s
  }

  ghost function Seeded(q: Query, k: nat): (s: State)
    requires q.Valid() && k <= |q.seeds|
    ensures Shaped(q, s)
  {
    if k == 0 then Blank(q) else SeedOne(q, Seeded(q, k - 1), q.seeds[k - 1])
  }

  ghost function Initial(q: Query): State
    requires q.Valid()
  {
    Seeded(q, |q.seeds|)
  }

  // P3: the strict relaxation of one turn out of an edge popped with cost g.
  function Relax(q: Query, s: State, g: real, t: nat): State
    requires t < |q.arc| && t < |q.topo.outEdge| && t < |q.topo.allowed|
    requires q.topo.outEdge[t] < |s.dist| && |s.pred| == |s.dist|
    requires q.h.Some? ==> |q.h.value| == |s.dist|
  {
    var e2, gNew := q.topo.outEdge[t], q.plus(g, q.arc[t]);
    if q.topo.allowed[t] && Less(gNew, s.dist[e2]) then
      s.(dist := s.dist[e2 := Finite(gNew)], pred := s.pred[e2 := t],
         heap := s.heap + multiset{Entry(q.F(gNew, e2), e2, gNew)})
    else s
  }

  // Turns lo .. k relaxed in order.
  ghost function RelaxTo(q: Query, s: State, g: real, lo: nat, k: nat): (r: State)
    requires q.Valid() && Shaped(q, s) && lo <= k <= q.topo.Turns()
    ensures Shaped(q, r) && r.order == s.order && r.bestEdge == s.bestEdge && r.bestFinal == s.bestFinal
  {
    if k == lo then s else Relax(q, RelaxTo(q, s, g, lo, k - 1), g, k - 1)
  }

  // P6: a destination edge is finalized when it is popped.
  function Finalize(q: Query, s: State, e: nat, g: real): State {
    var s := s.(order := s.order + [e]);
    var adj := Adjust(q.dests, e);
    if adj.Some? && Less(q.plus(g, adj.value), s.bestFinal) then
      s.(bestFinal := Finite(q.plus(g, adj.value)), bestEdge := e)
    else s
  }

  ghost predicate Minimal(heap: multiset<Entry>, x: Entry) {
    x in heap && forall y :: y in heap ==> x.f < y.f || (x.f == y.f && x.e <= y.e)
  }

  ghost predicate Stops(q: Query, s: State, x: Entry)
    requires q.Valid() && Shaped(q, s)
  {
    s.bestEdge >= 0 && x.f > q.plus(s.bestFinal.g, Slack(q, |q.dests|))
  }

  // Popping x: P4 skips an entry that no longer carries the edge's cost.
  ghost function Pop(q: Query, s: State, x: Entry): (r: State)
    requires q.Valid() && Shaped(q, s) && x.e < q.topo.Edges()
    ensures Shaped(q, r)
  {
    var s := s.(heap := s.heap - multiset{x});
    if s.dist[x.e] != Finite(x.g) then s
    else RelaxTo(q, Finalize(q, s, x.e, x.g), x.g, q.topo.turnPtr[x.e], q.topo.turnPtr[x.e + 1])
  }

  ghost predicate Step(q: Query, s: State, s': State)
    requires q.Valid() && Shaped(q, s)
  {
    exists x :: Minimal(s.heap, x) && x.e < q.topo.Edges() && !Stops(q, s, x) && s' == Pop(q, s, x)
  }

  ghost predicate Halted(q: Query, s: State)
    requires q.Valid() && Shaped(q, s)
  {
    s.heap == multiset{} || exists x :: Minimal(s.heap, x) && Stops(q, s, x)
  }

  // Any number of steps.
  ghost predicate Steps(q: Query, run: seq<State>)
    requires q.Valid()
  {
    && run != []
    && (forall i :: 0 <= i < |run| ==> Shaped(q, run[i]))
    && (forall i :: 0 <= i < |run| - 1 ==> Step(q, run[i], run[i + 1]))
  }

  ghost predicate CompleteRun(q: Query, run: seq<State>)
    requires q.Valid()
  {
    Steps(q, run) && run[0] == Initial(q) && Halted(q, run[|run| - 1])
  }

  // ------------------------------------------------------------ the answer

  datatype PathResult = PathResult(turns: seq<nat>, first: nat, dest: nat, total: real) {
    function EdgeList(outEdge: seq<nat>): (r: seq<nat>)
      requires forall i :: 0 <= i < |turns| ==> turns[i] < |outEdge|
    {
      [first] + seq(|turns|, i requires 0 <= i < |turns| => outEdge[turns[i]])
    }
  }

  // P7: `turns` is what walking `pred` back from e collects, reversed.
  ghost predicate Chain(topo: Topo, pred: seq<int>, e: nat, turns: seq<nat>, first: nat)
    decreases |turns|
  {
    && e < |pred|
    && if turns == [] then pred[e] == -1 && first == e
       else
         var t := turns[|turns| - 1];
         pred[e] == t && t < |topo.inEdge| && Chain(topo, pred, topo.inEdge[t], turns[..|turns| - 1], first)
  }

  ghost predicate Answers(q: Query, s: State, r: Option<PathResult>)
    requires q.Valid() && Shaped(q, s)
  {
    if s.bestEdge < 0 then r == None
    else r.Some? && r.value.dest == s.bestEdge && Finite(r.value.total) == s.bestFinal
         && Chain(q.topo, s.pred, s.bestEdge, r.value.turns, r.value.first)
  }

  // What every implementation of the engine must return: the answer read off
  // the end of some complete run.
  ghost predicate Returns(q: Query, r: Option<PathResult>)
    requires q.Valid()
  {
    exists run :: CompleteRun(q, run) && Answers(q, run[|run| - 1], r)
  }
}
