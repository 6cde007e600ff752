// The facade (pyref/engine.py, pyref/metrics.py): snapped endpoints become
// seeds and refunds, the sweep's routes become artifacts with an ETA, and
// each artifact reports its detour against the fastest one.
module Router {
  import opened Topology
  import opened Search
  import opened Optimality
  import opened Alternatives

  // A point on an edge, as a fraction of its length.
  datatype Snap = Snap(edge: nat, frac: real)

  // The costs of one departure time.
  datatype Network = Network(topo: Topo, edgeTime: seq<real>, turnDelay: seq<real>,
                             penalty: seq<real>, flagged: seq<bool>, cfg: Config) {
    ghost predicate Valid() {
      && topo.Valid() && cfg.Valid()
      && |edgeTime| == topo.Edges()
      && |turnDelay| == topo.Turns() && |penalty| == topo.Turns() && |flagged| == topo.Turns()
      && (forall e :: 0 <= e < topo.Edges() ==> 0.0 <= edgeTime[e])
      && (forall t :: 0 <= t < topo.Turns() ==> 0.0 <= turnDelay[t] && 0.0 <= penalty[t])
    }

    // turn_time_s: the link time of the edge entered plus the control delay.
    function TurnTime(): (r: seq<real>)
      requires Valid()
    {
      seq(topo.Turns(), t requires 0 <= t < topo.Turns() => edgeTime[topo.outEdge[t]] + turnDelay[t])
    }
  }

  ghost predicate SnapsOn(net: Network, cands: seq<Snap>) {
    && (forall i :: 0 <= i < |cands| ==> cands[i].edge < |net.edgeTime| && 0.0 <= cands[i].frac <= 1.0)
    && (forall i, j :: 0 <= i < j < |cands| ==> cands[i].edge != cands[j].edge)
  }

  // A share of an edge's time.
  function Part(share: real, time: real): real { share * time }

  // The seed pays for the rest of its edge, the destination is refunded it.
  function Seeds(net: Network, cands: seq<Snap>): (r: seq<Endpoint>)
    requires forall i :: 0 <= i < |cands| ==> cands[i].edge < |net.edgeTime|
  {
    seq(|cands|, i requires 0 <= i < |cands| =>
      Endpoint(cands[i].edge, Part(1.0 - cands[i].frac, net.edgeTime[cands[i].edge])))
  }

  function Dests(net: Network, cands: seq<Snap>): (r: seq<Endpoint>)
    requires forall i :: 0 <= i < |cands| ==> cands[i].edge < |net.edgeTime|
  {
    seq(|cands|, i requires 0 <= i < |cands| =>
      Endpoint(cands[i].edge, Part(cands[i].frac - 1.0, net.edgeTime[cands[i].edge])))
  }

  function Exactly(x: real, y: real): real { x + y }

  function Pose(net: Network, origins: seq<Snap>, dests: seq<Snap>, h: Option<seq<real>>): (p: Problem)
    requires net.Valid() && SnapsOn(net, origins) && SnapsOn(net, dests)
  {
    Problem(Query(net.topo, net.TurnTime(), h, Seeds(net, origins), Dests(net, dests), Exactly),
            net.penalty, net.flagged, net.cfg)
  }

  // ------------------------------------------------------------- metrics

  function Dot(xs: seq<real>, ws: seq<real>): real
    requires |xs| == |ws|
  {
    if xs == [] then 0.0 else Dot(xs[..|xs| - 1], ws[..|ws| - 1]) + xs[|xs| - 1] * ws[|ws| - 1]
  }

  lemma {:induction false} DotCut(xs: seq<real>, ws: seq<real>, i: nat, c: real)
    requires |xs| == |ws| && i < |xs|
    ensures Dot(xs, ws[i := ws[i] - c]) == Dot(xs, ws) - Part(c, xs[i])
  {
    var n := |xs| - 1;
    var ws' := ws[i := ws[i] - c];
    if i < n {
      DotCut(xs[..n], ws[..n], i, c);
      assert ws'[..n] == ws[..n][i := ws[i] - c];
    } else {
      assert ws'[..n] == ws[..n];
      assert xs[n] * (ws[n] - c) == xs[n] * ws[n] - c * xs[n];
    }
  }

  function Times(net: Network, r: PathResult): (ts: seq<real>)
    requires net.Valid() && InRange(net.topo, r.turns) && r.first < net.topo.Edges()
    ensures |ts| == |r.turns| + 1
  {
    [net.edgeTime[r.first]] + seq(|r.turns|, i requires 0 <= i < |r.turns| => net.edgeTime[net.topo.outEdge[r.turns[i]]])
  }

  // With whole shares: the first edge plus, turn by turn, the edge entered.
  lemma {:induction false} WholeShares(net: Network, r: PathResult, ones: seq<real>)
    requires net.Valid() && InRange(net.topo, r.turns) && r.first < net.topo.Edges()
    requires |ones| == |r.turns| + 1 && forall i :: 0 <= i < |ones| ==> ones[i] == 1.0
    ensures Dot(Times(net, r), ones) + Sum(net.turnDelay, r.turns) == net.edgeTime[r.first] + Sum(net.TurnTime(), r.turns)
    decreases |r.turns|
  {
    assert |net.TurnTime()| == net.topo.Turns();
    hide Times, Network.TurnTime, Dot, Sum;
    var n := |r.turns|;
    DotLastWhole(Times(net, r), ones);
    SumLast(net.turnDelay, r.turns);
    SumLast(net.TurnTime(), r.turns);
    if n == 0 {
      TimesFirst(net, r);
      assert Dot([], []) == 0.0 by { DotNothing(); }
      assert Times(net, r)[..0] == [] && ones[..0] == [];
    } else {
      var r' := r.(turns := r.turns[..n - 1]);
      WholeShares(net, r', ones[..n]);
      TimesLast(net, r);
      TurnTimeAt(net, r.turns[n - 1]);
    }
  }

  lemma {:induction false} DotLastWhole(xs: seq<real>, ws: seq<real>)
    requires |xs| == |ws| > 0 && ws[|ws| - 1] == 1.0
    ensures Dot(xs, ws) == Dot(xs[..|xs| - 1], ws[..|ws| - 1]) + xs[|xs| - 1]
  {
    assert xs[|xs| - 1] * 1.0 == xs[|xs| - 1];
  }

  lemma DotNothing()
    ensures Dot([], []) == 0.0
  {
  }

  lemma {:induction false} SumLast(w: seq<real>, turns: seq<nat>)
    requires forall i :: 0 <= i < |turns| ==> turns[i] < |w|
    ensures turns == [] ==> Sum(w, turns) == 0.0
    ensures turns != [] ==> Sum(w, turns) == Sum(w, turns[..|turns| - 1]) + w[turns[|turns| - 1]]
  {
  }

  lemma TimesFirst(net: Network, r: PathResult)
    requires net.Valid() && InRange(net.topo, r.turns) && r.first < net.topo.Edges()
    ensures Times(net, r)[0] == net.edgeTime[r.first]
    ensures Times(net, r)[|r.turns|] == net.edgeTime[End(net.topo, r.first, r.turns)]
  {
  }

  lemma TimesLast(net: Network, r: PathResult)
    requires net.Valid() && InRange(net.topo, r.turns) && r.first < net.topo.Edges() && r.turns != []
    ensures var n := |r.turns|;
            && Times(net, r)[..n] == Times(net, r.(turns := r.turns[..n - 1]))
            && Times(net, r)[n] == net.edgeTime[net.topo.outEdge[r.turns[n - 1]]]
  {
  }

  lemma TurnTimeAt(net: Network, t: nat)
    requires net.Valid() && t < net.topo.Turns()
    ensures net.TurnTime()[t] == net.edgeTime[net.topo.outEdge[t]] + net.turnDelay[t]
  {
  }

  // Partial first and last edge, every edge entered whole, every delay.
  function Eta(net: Network, r: PathResult, fracOrigin: real, fracDest: real): real
    requires net.Valid() && InRange(net.topo, r.turns) && r.first < net.topo.Edges() && r.dest < net.topo.Edges()
  {
    Part(1.0 - fracOrigin, net.edgeTime[r.first]) + Sum(net.TurnTime(), r.turns)
      + Part(fracDest - 1.0, net.edgeTime[r.dest])
  }

  // compute_metrics' ETA: link time by share, plus the delay of every turn.
  // A single-edge route cuts both ends off the same cell.
  method ComputeEta(net: Network, r: PathResult, fracOrigin: real, fracDest: real) returns (eta: real)
    requires net.Valid() && InRange(net.topo, r.turns) && r.first < net.topo.Edges() && r.dest < net.topo.Edges()
    requires r.dest == End(net.topo, r.first, r.turns)
    ensures eta == Eta(net, r, fracOrigin, fracDest)
  {
    var times := Times(net, r);
    var n := |r.turns|;
    var share := new real[n + 1](i => 1.0);
    ghost var ones := share[..];
    share[0] := share[0] - fracOrigin;
    ghost var first := share[..];
    share[n] := share[n] - (1.0 - fracDest);
    assert first == ones[0 := ones[0] - fracOrigin];
    assert share[..] == first[n := first[n] - (1.0 - fracDest)];
    eta := Dot(times, share[..]) + Sum(net.turnDelay, r.turns);
    EtaByShares(net, r, fracOrigin, fracDest, ones, first, share[..]);
  }

  lemma {:induction false} EtaByShares(net: Network, r: PathResult, fracOrigin: real, fracDest: real, ones: seq<real>,
                                       first: seq<real>, share: seq<real>)
    requires net.Valid() && InRange(net.topo, r.turns) && r.first < net.topo.Edges() && r.dest < net.topo.Edges()
    requires r.dest == End(net.topo, r.first, r.turns)
    requires |ones| == |r.turns| + 1 && forall i :: 0 <= i < |ones| ==> ones[i] == 1.0
    requires first == ones[0 := ones[0] - fracOrigin]
    requires share == first[|r.turns| := first[|r.turns|] - (1.0 - fracDest)]
    ensures Dot(Times(net, r), share) + Sum(net.turnDelay, r.turns) == Eta(net, r, fracOrigin, fracDest)
  {
    hide Dot, Sum, Times, Part, Eta, Network.TurnTime, Network.Valid, InRange;
    var times, n := Times(net, r), |r.turns|;
    WholeShares(net, r, ones);
    TimesFirst(net, r);
    EtaFields(net, r, fracOrigin, fracDest);
    DotCut(times, ones, 0, fracOrigin);
    DotCut(times, first, n, 1.0 - fracDest);
    Shares(times[0], times[n], fracOrigin, fracDest);
  }

  lemma Shares(a: real, b: real, fracOrigin: real, fracDest: real)
    ensures a - Part(fracOrigin, a) == Part(1.0 - fracOrigin, a)
    ensures -Part(1.0 - fracDest, b) == Part(fracDest - 1.0, b)
  {
  }

  // ---------------------------------------------------------- the artifacts

  class RouteOut {
    const kind: Kind
    const result: PathResult
    const etaS: real
    var detourPct: real

    constructor (kind: Kind, result: PathResult, etaS: real)
      ensures this.kind == kind && this.result == result && this.etaS == etaS && detourPct == 0.0
    {
      this.kind, this.result, this.etaS, detourPct := kind, result, etaS, 0.0;
    }
  }

  function Fastest(etas: seq<real>): (m: real)
    ensures etas != [] ==> m in etas
    ensures forall i :: 0 <= i < |etas| ==> m <= etas[i]
  {
    if etas == [] then 0.0
    else if |etas| == 1 then etas[0]
    else
      var m := Fastest(etas[..|etas| - 1]);
      if etas[|etas| - 1] < m then etas[|etas| - 1] else m
  }

  function Etas(routes: seq<RouteOut>): (r: seq<real>) {
    seq(|routes|, i requires 0 <= i < |routes| => routes[i].etaS)
  }

  // _with_detour_pct: extra time against the fastest route returned, left at
  // 0 when that one is not positive.
  method WithDetourPct(routes: seq<RouteOut>)
    modifies routes
    ensures var m := Fastest(Etas(routes));
            forall i :: 0 <= i < |routes| ==>
              routes[i].detourPct == if m > 0.0 then (routes[i].etaS - m) / m else old(routes[i].detourPct)
  {
    var m := Fastest(Etas(routes));
    if m > 0.0 {
      for k := 0 to |routes|
        invariant forall i :: 0 <= i < k ==> routes[i].detourPct == (routes[i].etaS - m) / m
      {
        routes[k].detourPct := (routes[k].etaS - m) / m;
      }
    }
  }

  // ------------------------------------------------------------- the facade

  datatype Reply = Refused(reason: string) | Served(routes: seq<RouteOut>)

  function FracOf(cands: seq<Snap>, e: nat): real {
    if cands == [] then 0.0
    else if cands[|cands| - 1].edge == e then cands[|cands| - 1].frac
    else FracOf(cands[..|cands| - 1], e)
  }

  predicate Snapped(cands: seq<Snap>, e: nat) {
    exists i :: 0 <= i < |cands| && cands[i].edge == e
  }

  lemma {:induction false} FracFound(cands: seq<Snap>, i: nat)
    requires i < |cands| && forall j, k :: 0 <= j < k < |cands| ==> cands[j].edge != cands[k].edge
    ensures FracOf(cands, cands[i].edge) == cands[i].frac
  {
    if i < |cands| - 1 {
      FracFound(cands[..|cands| - 1], i);
    }
  }

  lemma {:induction false} AdjustAt(es: seq<Endpoint>, i: nat)
    requires i < |es| && forall j, k :: 0 <= j < k < |es| ==> es[j].edge != es[k].edge
    ensures Adjust(es, es[i].edge) == Some(es[i].cost)
  {
    SeedLookup(es, i);
  }

  lemma {:induction false} AdjustFinds(es: seq<Endpoint>, e: nat)
    requires Adjust(es, e).Some?
    ensures exists i :: 0 <= i < |es| && es[i].edge == e
  {
    if es[|es| - 1].edge != e {
      AdjustFinds(es[..|es| - 1], e);
      var i :| 0 <= i < |es| - 1 && es[..|es| - 1][i].edge == e;
      assert es[i].edge == e;
    }
  }

  lemma {:induction false} SeedAt(net: Network, cands: seq<Snap>, i: nat)
    requires SnapsOn(net, cands) && i < |cands|
    ensures Adjust(Seeds(net, cands), cands[i].edge)
         == Some(Part(1.0 - FracOf(cands, cands[i].edge), net.edgeTime[cands[i].edge]))
  {
    hide Part;
    AdjustAt(Seeds(net, cands), i);
    FracFound(cands, i);
  }

  lemma {:induction false} DestAt(net: Network, cands: seq<Snap>, j: nat)
    requires SnapsOn(net, cands) && j < |cands|
    ensures Adjust(Dests(net, cands), cands[j].edge)
         == Some(Part(FracOf(cands, cands[j].edge) - 1.0, net.edgeTime[cands[j].edge]))
  {
    hide Part;
    AdjustAt(Dests(net, cands), j);
    FracFound(cands, j);
  }

  // A path of the query runs from a snapped origin edge to a snapped
  // destination edge.
  lemma EndsSnapped(net: Network, origins: seq<Snap>, dests: seq<Snap>, h: Option<seq<real>>, r: PathResult)
    returns (i: nat, j: nat)
    requires net.Valid() && SnapsOn(net, origins) && SnapsOn(net, dests) && Pose(net, origins, dests, h).q.Valid()
    requires IsPath(Pose(net, origins, dests, h), r)
    ensures InRange(net.topo, r.turns) && r.first < net.topo.Edges() && r.dest < net.topo.Edges()
    ensures i < |origins| && origins[i].edge == r.first && j < |dests| && dests[j].edge == r.dest
    ensures End(net.topo, r.first, r.turns) == r.dest
  {
    var p := Pose(net, origins, dests, h);
    i :| Route(p.q, i, r.turns) && InRange(p.q.topo, r.turns)
         && p.q.seeds[i].edge == r.first && End(p.q.topo, r.first, r.turns) == r.dest;
    AdjustFinds(p.q.dests, r.dest);
    j :| j < |p.q.dests| && p.q.dests[j].edge == r.dest;
  }

  // The ETA an artifact shows is the number the detour budget was held to,
  // for every path of any length.
  lemma {:induction false} EtaIsTravelTime(net: Network, origins: seq<Snap>, dests: seq<Snap>, h: Option<seq<real>>,
                                           r: PathResult)
    requires net.Valid() && SnapsOn(net, origins) && SnapsOn(net, dests) && Pose(net, origins, dests, h).q.Valid()
    requires IsPath(Pose(net, origins, dests, h), r)
    ensures InRange(net.topo, r.turns) && r.first < net.topo.Edges() && r.dest < net.topo.Edges()
    ensures TravelTime(Pose(net, origins, dests, h), r)
         == Eta(net, r, FracOf(origins, r.first), FracOf(dests, r.dest))
  {
    hide *;
    var i, j := EndsSnapped(net, origins, dests, h, r);
    SeedAt(net, origins, i);
    DestAt(net, dests, j);
    PoseFields(net, origins, dests, h);
    EtaFields(net, r, FracOf(origins, r.first), FracOf(dests, r.dest));
    LookedUp(Pose(net, origins, dests, h), r);
  }

  lemma PoseFields(net: Network, origins: seq<Snap>, dests: seq<Snap>, h: Option<seq<real>>)
    requires net.Valid() && SnapsOn(net, origins) && SnapsOn(net, dests)
    ensures var q := Pose(net, origins, dests, h).q;
            && q.seeds == Seeds(net, origins) && q.dests == Dests(net, dests)
            && q.arc == net.TurnTime() && q.topo == net.topo && |q.arc| == q.topo.Turns()
  {
  }

  lemma EtaFields(net: Network, r: PathResult, fo: real, fd: real)
    requires net.Valid() && InRange(net.topo, r.turns) && r.first < net.topo.Edges() && r.dest < net.topo.Edges()
    ensures Eta(net, r, fo, fd) == Part(1.0 - fo, net.edgeTime[r.first]) + Sum(net.TurnTime(), r.turns)
                                   + Part(fd - 1.0, net.edgeTime[r.dest])
  {
  }

  lemma LookedUp(p: Problem, r: PathResult)
    requires InRange(p.q.topo, r.turns) && |p.q.arc| == p.q.topo.Turns()
    requires Adjust(p.q.seeds, r.first).Some? && Adjust(p.q.dests, r.dest).Some?
    ensures TravelTime(p, r) == Adjust(p.q.seeds, r.first).value + Sum(p.q.arc, r.turns) + Adjust(p.q.dests, r.dest).value
  {
  }

  predicate Shared(origins: seq<Snap>, dests: seq<Snap>, i: int, j: int) {
    0 <= i < |origins| && 0 <= j < |dests| && origins[i].edge == dests[j].edge
  }

  // The destination lies at or after the origin on an edge both snap to.
  predicate Ahead(origins: seq<Snap>, dests: seq<Snap>, i: int, j: int) {
    Shared(origins, dests, i, j) && origins[i].frac <= dests[j].frac
  }

  ghost predicate NoneAhead(origins: seq<Snap>, dests: seq<Snap>) {
    forall i, j :: !Ahead(origins, dests, i, j)
  }

  // The short cut answers along the first origin edge with the destination
  // ahead, and costs the piece between.
  ghost predicate ShortCut(net: Network, origins: seq<Snap>, dests: seq<Snap>, i: int, j: int, r: PathResult) {
    && Ahead(origins, dests, i, j) && (forall i', j' :: Ahead(origins, dests, i', j') ==> i <= i')
    && origins[i].edge < |net.edgeTime|
    && r == PathResult([], origins[i].edge, origins[i].edge,
                       Part(dests[j].frac - origins[i].frac, net.edgeTime[origins[i].edge]))
  }

  method SameEdge(net: Network, origins: seq<Snap>, dests: seq<Snap>) returns (r: Option<PathResult>)
    requires net.Valid() && SnapsOn(net, origins) && SnapsOn(net, dests)
    ensures r.None? <==> NoneAhead(origins, dests)
    ensures r.Some? ==> exists i, j :: ShortCut(net, origins, dests, i, j, r.value)
  {
    hide Part;
    for i := 0 to |origins|
      invariant forall i', j :: i' < i ==> !Ahead(origins, dests, i', j)
    {
      var e := origins[i].edge;
      forall j: nat | j < |dests| && dests[j].edge == e ensures FracOf(dests, e) == dests[j].frac {
        FracFound(dests, j);
      }
      if Snapped(dests, e) && origins[i].frac <= FracOf(dests, e) {
        ghost var j :| 0 <= j < |dests| && dests[j].edge == e;
        assert Ahead(origins, dests, i, j);
        r := Some(PathResult([], e, e, Part(FracOf(dests, e) - origins[i].frac, net.edgeTime[e])));
        assert ShortCut(net, origins, dests, i, j, r.value);
        return;
      }
    }
    r := None;
  }

  ghost predicate Describes(p: Problem, a: Alternative, out: RouteOut) {
    && InRange(p.q.topo, a.result.turns) && |p.q.arc| == p.q.topo.Turns()
    && out.kind == a.kind && out.result == a.result && out.etaS == TravelTime(p, a.result)
  }

  // The artifacts are the curated alternatives, one for one.
  ghost predicate Publishes(p: Problem, safety: bool, budget: real, alts: seq<Alternative>, routes: seq<RouteOut>) {
    && p.Valid() && Curated(p, safety, budget, alts) && |alts| == |routes|
    && forall i :: 0 <= i < |routes| ==> Describes(p, alts[i], routes[i])
  }

  // _describe, over all alternatives.
  method Describe(net: Network, origins: seq<Snap>, dests: seq<Snap>, ghost h: Option<seq<real>>,
                  alts: seq<Alternative>) returns (routes: seq<RouteOut>)
    requires net.Valid() && SnapsOn(net, origins) && SnapsOn(net, dests) && Pose(net, origins, dests, h).q.Valid()
    requires forall i :: 0 <= i < |alts| ==> IsPath(Pose(net, origins, dests, h), alts[i].result)
    ensures |routes| == |alts| && fresh(routes)
    ensures forall i :: 0 <= i < |routes| ==>
              Describes(Pose(net, origins, dests, h), alts[i], routes[i]) && routes[i].detourPct == 0.0
  {
    hide IsPath, TravelTime, SnapsOn, FracOf, Eta;
    routes := [];
    for k := 0 to |alts|
      invariant |routes| == k && fresh(routes)
      invariant forall i :: 0 <= i < k ==>
                  Describes(Pose(net, origins, dests, h), alts[i], routes[i]) && routes[i].detourPct == 0.0
    {
      var r := alts[k].result;
      ghost var _, _ := EndsSnapped(net, origins, dests, h, r);
      EtaIsTravelTime(net, origins, dests, h, r);
      var eta := ComputeEta(net, r, FracOf(origins, r.first), FracOf(dests, r.dest));
      var out := new RouteOut(alts[k].kind, r, eta);
      routes := routes + [out];
    }
  }

  // The first alternative is the fastest route there is, and the others keep
  // to the budget measured from it.
  lemma FirstIsFastest(p: Problem, safety: bool, budget: real, alts: seq<Alternative>, r: PathResult)
    requires p.Valid() && Curated(p, safety, budget, alts) && alts != [] && p.cfg.lambdaFast == 0.0
    requires InRange(p.q.topo, r.turns) && IsPath(p, r)
    ensures InRange(p.q.topo, alts[0].result.turns)
    ensures TravelTime(p, alts[0].result) <= TravelTime(p, r)
  {
    hide Ran, TravelTime, AllKept, Apart, IsPath, Limit;
    FastestIsFastest(p, alts[0].result, r);
  }

  lemma CuratedPaths(p: Problem, safety: bool, budget: real, alts: seq<Alternative>, i: nat)
    requires p.Valid() && Curated(p, safety, budget, alts) && i < |alts|
    ensures InRange(p.q.topo, alts[0].result.turns)
    ensures InRange(p.q.topo, alts[i].result.turns) && IsPath(p, alts[i].result)
    ensures i == 0 || TravelTime(p, alts[i].result) <= (1.0 + budget) * TravelTime(p, alts[0].result)
  {
    hide Ran, TravelTime, AllApart, StartsFast, IsPath, Kept, Unreachable;
    var fastTime := TravelTime(p, alts[0].result);
    var slots :| AllKept(p, safety, budget, fastTime, alts, slots);
    KeptSlot(p, safety, budget, fastTime, slots[i], alts[i]);
  }

  // A detour measured from the fastest ETA m.
  lemma DetourInBudget(eta: real, m: real, budget: real)
    requires 0.0 <= budget && 0.0 < m <= eta && (eta == m || eta <= (1.0 + budget) * m)
    ensures 0.0 <= (eta - m) / m <= budget
  {
    assert (1.0 + budget) * m == m + budget * m;
    Ratio(eta - m, m, budget);
  }

  lemma Ratio(x: real, m: real, b: real)
    requires 0.0 <= x && 0.0 < m && 0.0 <= b && (x == 0.0 || x <= b * m)
    ensures 0.0 <= x / m <= b
  {
    if x > 0.0 {
      assert x / m <= (b * m) / m == b;
    }
  }

  // ---------------------------------------------------- when an ETA is negative

  // On a one-way edge with the destination behind the origin the short cut
  // does not fire, yet the edge is both a seed and a destination.
  ghost predicate Behind(net: Network, origins: seq<Snap>, dests: seq<Snap>, i: nat, j: nat) {
    && i < |origins| && j < |dests| && origins[i].edge == dests[j].edge < |net.edgeTime|
    && dests[j].frac < origins[i].frac && 0.0 < net.edgeTime[origins[i].edge]
  }

  lemma {:induction false} SumAtLeastLast(w: seq<real>, turns: seq<nat>)
    requires forall i :: 0 <= i < |turns| ==> turns[i] < |w|
    requires forall t :: 0 <= t < |w| ==> 0.0 <= w[t]
    ensures 0.0 <= Sum(w, turns) && (turns != [] ==> w[turns[|turns| - 1]] <= Sum(w, turns))
  {
    if turns != [] {
      SumAtLeastLast(w, turns[..|turns| - 1]);
    }
  }

  lemma Share(f: real, t: real)
    requires 0.0 <= f <= 1.0 && 0.0 <= t
    ensures 0.0 <= f * t <= t
  {
  }

  // A route has a negative ETA exactly when it takes no turn and its end lies
  // behind its start on an edge that takes time.
  lemma EtaSign(net: Network, r: PathResult, fo: real, fd: real)
    requires net.Valid() && InRange(net.topo, r.turns) && r.first < net.topo.Edges() && r.dest < net.topo.Edges()
    requires End(net.topo, r.first, r.turns) == r.dest && 0.0 <= fo <= 1.0 && 0.0 <= fd <= 1.0
    ensures Eta(net, r, fo, fd) < 0.0 <==> r.turns == [] && fd < fo && 0.0 < net.edgeTime[r.first]
  {
    var a, b := net.edgeTime[r.first], net.edgeTime[r.dest];
    if r.turns == [] {
      ZeroTurns(a, fo, fd);
    } else {
      SumAtLeastLast(net.TurnTime(), r.turns);
      assert b <= net.TurnTime()[r.turns[|r.turns| - 1]];
      hide Sum, Part;
      SomeTurns(a, b, fo, fd);
    }
  }

  lemma ZeroTurns(a: real, fo: real, fd: real)
    requires 0.0 <= a
    ensures Part(1.0 - fo, a) + Part(fd - 1.0, a) == Part(fd - fo, a)
    ensures Part(fd - fo, a) < 0.0 <==> fd < fo && 0.0 < a
  {
    if fd < fo && 0.0 < a {
      assert (fo - fd) * a > 0.0;
    }
  }

  lemma SomeTurns(a: real, b: real, fo: real, fd: real)
    requires 0.0 <= a && 0.0 <= b && 0.0 <= fo <= 1.0 && 0.0 <= fd <= 1.0
    ensures 0.0 <= Part(1.0 - fo, a) && -b <= Part(fd - 1.0, b)
  {
    Share(1.0 - fo, a);
    Share(1.0 - fd, b);
    assert (fd - 1.0) * b == -((1.0 - fd) * b);
  }

  // So the answer of a search for the fastest route has a negative ETA exactly
  // when some shared edge has the destination behind the origin.
  lemma FastEtaSign(net: Network, origins: seq<Snap>, dests: seq<Snap>, h: Option<seq<real>>, fast: PathResult)
    requires net.Valid() && SnapsOn(net, origins) && SnapsOn(net, dests) && Pose(net, origins, dests, h).Valid()
    requires InRange(net.topo, fast.turns)
    requires Ran(Pose(net, origins, dests, h), ArcCost(Pose(net, origins, dests, h), 0.0), Some(fast))
    ensures TravelTime(Pose(net, origins, dests, h), fast) < 0.0 <==> exists i: nat, j: nat :: Behind(net, origins, dests, i, j)
  {
    hide Ran, TravelTime, IsPath, Eta;
    var p := Pose(net, origins, dests, h);
    ArraysDominate(p, 0.0, p.q.arc, {});
    RanPath(p, ArcCost(p, 0.0), Some(fast));
    PathSign(net, origins, dests, h, fast);
    if i': nat, j': nat :| Behind(net, origins, dests, i', j') {
      var zero := PathResult([], origins[i'].edge, origins[i'].edge, 0.0);
      ZeroTurnPath(net, origins, dests, h, i', j');
      PathSign(net, origins, dests, h, zero);
      FracFound(origins, i');
      FracFound(dests, j');
      FastestIsFastest(p, fast, zero);
    }
  }

  // What is posed is a query: its ends lie on edges, each edge snapped once.
  lemma PosedQuery(net: Network, origins: seq<Snap>, dests: seq<Snap>, h: Option<seq<real>>)
    requires net.Valid() && SnapsOn(net, origins) && SnapsOn(net, dests)
    requires h.Some? ==> |h.value| == net.topo.Edges()
    ensures var p := Pose(net, origins, dests, h);
            && p.q.Valid() && Exact(p.q) && p.q.topo == net.topo && p.q.h == h && p.q.arc == net.TurnTime()
            && p.penalty == net.penalty && p.flagged == net.flagged && p.cfg == net.cfg
            && forall i, j :: 0 <= i < j < |p.q.seeds| ==> p.q.seeds[i].edge != p.q.seeds[j].edge
  {
  }

  // A one-way street that takes 10 seconds, from 0.7 of it to 0.3: no short cut
  // applies, and the street alone is a route, 4 seconds long backwards.
  const LANE := Network(Topo([0, 0], [], [], []), [10.0], [], [], [], Config(0.0, 0.0, 0.0, 1.0, 1.0, 0, 0.0))
  const FROM := [Snap(0, 0.7)]
  const TO := [Snap(0, 0.3)]

  lemma NegativeEta()
    ensures LANE.Valid() && SnapsOn(LANE, FROM) && SnapsOn(LANE, TO) && Pose(LANE, FROM, TO, None).Valid()
    ensures NoneAhead(FROM, TO) && Behind(LANE, FROM, TO, 0, 0) && !Unreachable(Pose(LANE, FROM, TO, None))
    ensures Eta(LANE, PathResult([], 0, 0, 0.0), 0.7, 0.3) == -4.0
  {
    LaneIsValid();
    hide Unreachable, Problem.Valid, Network.Valid, SnapsOn, Pose;
    PosedConfig(LANE, FROM, TO, None);
    ZeroTurnPath(LANE, FROM, TO, None, 0, 0);
    Reachable(Pose(LANE, FROM, TO, None), PathResult([], 0, 0, 0.0));
    LaneEta();
  }

  lemma LaneIsValid()
    ensures LANE.Valid() && SnapsOn(LANE, FROM) && SnapsOn(LANE, TO) && Pose(LANE, FROM, TO, None).Valid()
  {
    LaneHasNoTurns();
    PosedWithoutTurns(LANE, FROM, TO);
    hide Pose, Problem.Valid;
  }

  lemma LaneHasNoTurns()
    ensures LANE.Valid() && LANE.topo.Turns() == 0
  {
  }

  lemma PosedWithoutTurns(net: Network, origins: seq<Snap>, dests: seq<Snap>)
    requires net.Valid() && SnapsOn(net, origins) && SnapsOn(net, dests) && net.topo.Turns() == 0
    ensures Pose(net, origins, dests, None).Valid()
  {
    PosedQuery(net, origins, dests, None);
    hide Pose, Topo.Valid;
  }

  lemma LaneEta()
    ensures LANE.Valid() && Eta(LANE, PathResult([], 0, 0, 0.0), 0.7, 0.3) == -4.0
  {
    LaneIsValid();
    assert Sum(LANE.TurnTime(), []) == 0.0;
    assert Part(1.0 - 0.7, 10.0) == 3.0 && Part(0.3 - 1.0, 10.0) == -7.0;
    hide Part, Sum;
  }

  lemma Reachable(p: Problem, r: PathResult)
    requires p.q.Valid() && IsPath(p, r)
    ensures !Unreachable(p)
  {
    hide Route;
  }

  lemma {:induction false} PathSign(net: Network, origins: seq<Snap>, dests: seq<Snap>, h: Option<seq<real>>,
                                    r: PathResult)
    requires net.Valid() && SnapsOn(net, origins) && SnapsOn(net, dests) && Pose(net, origins, dests, h).q.Valid()
    requires IsPath(Pose(net, origins, dests, h), r) && InRange(net.topo, r.turns)
    ensures r.first < net.topo.Edges()
    ensures TravelTime(Pose(net, origins, dests, h), r) < 0.0 <==>
              r.turns == [] && FracOf(dests, r.first) < FracOf(origins, r.first) && 0.0 < net.edgeTime[r.first]
    ensures TravelTime(Pose(net, origins, dests, h), r) < 0.0 ==> exists i: nat, j: nat :: Behind(net, origins, dests, i, j)
  {
    hide TravelTime, IsPath, Eta;
    var i, j := EndsSnapped(net, origins, dests, h, r);
    EtaIsTravelTime(net, origins, dests, h, r);
    FracFound(origins, i);
    FracFound(dests, j);
    EtaSign(net, r, FracOf(origins, r.first), FracOf(dests, r.dest));
    if r.turns == [] && FracOf(dests, r.first) < FracOf(origins, r.first) && 0.0 < net.edgeTime[r.first] {
      assert Behind(net, origins, dests, i, j);
    }
  }

  lemma ZeroTurnPath(net: Network, origins: seq<Snap>, dests: seq<Snap>, h: Option<seq<real>>, i: nat, j: nat)
    requires net.Valid() && SnapsOn(net, origins) && SnapsOn(net, dests) && Pose(net, origins, dests, h).q.Valid()
    requires i < |origins| && j < |dests| && origins[i].edge == dests[j].edge
    ensures IsPath(Pose(net, origins, dests, h), PathResult([], origins[i].edge, origins[i].edge, 0.0))
  {
    var p := Pose(net, origins, dests, h);
    AdjustAt(p.q.dests, j);
    assert Route(p.q, i, []);
  }

  // route(): one to three artifacts, each with a detour between 0 and the
  // budget, or a refusal.
  method Serve(net: Network, origins: seq<Snap>, dests: seq<Snap>, h: Option<seq<real>>,
               safety: bool, budget: real) returns (reply: Reply)
    requires net.Valid() && SnapsOn(net, origins) && SnapsOn(net, dests) && Pose(net, origins, dests, h).Valid()
    requires 0.0 <= budget && net.cfg.lambdaFast == 0.0
    ensures reply.Refused? <==>
              || origins == [] || dests == []
              || (NoneAhead(origins, dests) && Unreachable(Pose(net, origins, dests, h)))
    ensures reply.Served? ==> 1 <= |reply.routes| <= 3 && reply.routes[0].kind == Fast
    ensures reply.Served? ==>
              forall i :: 0 <= i < |reply.routes| ==>
                0.0 <= reply.routes[i].detourPct <= budget && reply.routes[0].etaS <= reply.routes[i].etaS
    ensures reply.Served? && !NoneAhead(origins, dests) ==>
              && |reply.routes| == 1 && reply.routes[0].etaS == reply.routes[0].result.total
              && exists i, j :: ShortCut(net, origins, dests, i, j, reply.routes[0].result)
    ensures reply.Served? && NoneAhead(origins, dests) ==>
              exists alts :: && Publishes(Pose(net, origins, dests, h), safety, budget, alts, reply.routes)
                             && Answer(Pose(net, origins, dests, h), safety, budget, alts)
    ensures reply.Served? ==>
              (reply.routes[0].etaS < 0.0 <==>
                 NoneAhead(origins, dests) && exists i: nat, j: nat :: Behind(net, origins, dests, i, j))
  {
    hide *;
    if origins == [] {
      return Refused("origin is too far from any drivable road");
    }
    if dests == [] {
      return Refused("destination is too far from any drivable road");
    }
    var p := Pose(net, origins, dests, h);
    var same := SameEdge(net, origins, dests);
    if same.Some? {
      var only := DescribeSameEdge(net, origins, dests, same.value);
      return Served([only]);
    }
    var alts := ComputeAlternatives(p, safety, budget);
    CuratedShape(p, safety, budget, alts);
    if alts == [] {
      return Refused("no route found between these points");
    }
    var routes := Publish(net, origins, dests, h, safety, budget, alts);
    PublishedKinds(p, safety, budget, alts, routes);
    PublishedSign(net, origins, dests, h, safety, budget, alts, routes);
    reply := Served(routes);
  }

  method DescribeSameEdge(net: Network, origins: seq<Snap>, dests: seq<Snap>, r: PathResult) returns (out: RouteOut)
    requires net.Valid() && SnapsOn(net, origins) && SnapsOn(net, dests)
    requires exists i, j :: ShortCut(net, origins, dests, i, j, r)
    ensures fresh(out) && out.kind == Fast && out.detourPct == 0.0 && out.result == r && out.etaS == r.total >= 0.0
  {
    ghost var i, j :| ShortCut(net, origins, dests, i, j, r);
    FracFound(origins, i);
    FracFound(dests, j);
    var eta := ComputeEta(net, r, FracOf(origins, r.first), FracOf(dests, r.dest));
    ZeroTurns(net.edgeTime[r.first], FracOf(origins, r.first), FracOf(dests, r.dest));
    out := new RouteOut(Fast, r, eta);
  }

  // The sign of the published fastest ETA is that of the search's.
  lemma PublishedSign(net: Network, origins: seq<Snap>, dests: seq<Snap>, h: Option<seq<real>>,
                      safety: bool, budget: real, alts: seq<Alternative>, routes: seq<RouteOut>)
    requires net.Valid() && SnapsOn(net, origins) && SnapsOn(net, dests) && Pose(net, origins, dests, h).Valid()
    requires net.cfg.lambdaFast == 0.0 && alts != []
    requires Publishes(Pose(net, origins, dests, h), safety, budget, alts, routes)
    ensures |routes| == |alts|
    ensures routes[0].etaS < 0.0 <==> exists i: nat, j: nat :: Behind(net, origins, dests, i, j)
  {
    hide *;
    var p := Pose(net, origins, dests, h);
    PosedConfig(net, origins, dests, h);
    PoseFields(net, origins, dests, h);
    PublishedFirst(p, safety, budget, alts, routes);
    FastEtaSign(net, origins, dests, h, alts[0].result);
  }

  lemma PublishedFirst(p: Problem, safety: bool, budget: real, alts: seq<Alternative>, routes: seq<RouteOut>)
    requires Publishes(p, safety, budget, alts, routes) && alts != [] && p.cfg.lambdaFast == 0.0
    ensures p.Valid() && |routes| == |alts| && InRange(p.q.topo, alts[0].result.turns)
    ensures Ran(p, ArcCost(p, 0.0), Some(alts[0].result)) && routes[0].etaS == TravelTime(p, alts[0].result)
  {
    hide AllKept, AllApart, Ran, TravelTime, ArcCost, Unreachable, Limit;
    assert Describes(p, alts[0], routes[0]);
  }

  lemma CuratedShape(p: Problem, safety: bool, budget: real, alts: seq<Alternative>)
    requires p.Valid() && Curated(p, safety, budget, alts)
    ensures |alts| <= 3 && (alts == [] <==> Unreachable(p))
    ensures alts != [] ==> alts[0].kind == Fast
  {
    hide Ran, Kept, AllKept, AllApart, StartsFast, Unreachable;
  }

  lemma PublishedKinds(p: Problem, safety: bool, budget: real, alts: seq<Alternative>, routes: seq<RouteOut>)
    requires Publishes(p, safety, budget, alts, routes)
    ensures |routes| == |alts|
    ensures forall i :: 0 <= i < |routes| ==> routes[i].kind == alts[i].kind
  {
    hide Curated, TravelTime;
  }

  method Publish(net: Network, origins: seq<Snap>, dests: seq<Snap>, ghost h: Option<seq<real>>,
                 ghost safety: bool, ghost budget: real, alts: seq<Alternative>) returns (routes: seq<RouteOut>)
    requires net.Valid() && SnapsOn(net, origins) && SnapsOn(net, dests) && Pose(net, origins, dests, h).Valid()
    requires Curated(Pose(net, origins, dests, h), safety, budget, alts) && alts != []
    requires 0.0 <= budget && net.cfg.lambdaFast == 0.0
    ensures Publishes(Pose(net, origins, dests, h), safety, budget, alts, routes)
    ensures forall i :: 0 <= i < |routes| ==>
              0.0 <= routes[i].detourPct <= budget && routes[0].etaS <= routes[i].etaS
  {
    hide *;
    ghost var p := Pose(net, origins, dests, h);
    PosedConfig(net, origins, dests, h);
    forall i: nat | i < |alts| ensures IsPath(p, alts[i].result) {
      CuratedPaths(p, safety, budget, alts, i);
    }
    routes := Describe(net, origins, dests, h, alts);
    PublishesNow(p, safety, budget, alts, routes);
    forall i: nat | i < |routes|
      ensures routes[0].etaS <= routes[i].etaS
      ensures i == 0 || routes[i].etaS <= (1.0 + budget) * routes[0].etaS {
      EtaInBudget(p, safety, budget, alts, routes, i);
    }
    WithDetourPct(routes);
    FastestEta(routes);
    forall i: nat | i < |routes| ensures 0.0 <= routes[i].detourPct <= budget {
      if routes[0].etaS > 0.0 {
        DetourInBudget(routes[i].etaS, routes[0].etaS, budget);
      }
    }
    PublishesNow(p, safety, budget, alts, routes);
  }

  lemma PublishesNow(p: Problem, safety: bool, budget: real, alts: seq<Alternative>, routes: seq<RouteOut>)
    requires p.Valid() && Curated(p, safety, budget, alts) && |alts| == |routes|
    requires forall i :: 0 <= i < |routes| ==> Describes(p, alts[i], routes[i])
    ensures Publishes(p, safety, budget, alts, routes)
  {
  }

  lemma EtaInBudget(p: Problem, safety: bool, budget: real, alts: seq<Alternative>, routes: seq<RouteOut>, i: nat)
    requires Publishes(p, safety, budget, alts, routes) && i < |routes| && p.cfg.lambdaFast == 0.0
    ensures routes[0].etaS <= routes[i].etaS
    ensures i == 0 || routes[i].etaS <= (1.0 + budget) * routes[0].etaS
  {
    hide Curated, Describes, Problem.Valid, TravelTime, IsPath;
    Described(p, alts[0], routes[0]);
    Described(p, alts[i], routes[i]);
    CuratedPaths(p, safety, budget, alts, i);
    FirstIsFastest(p, safety, budget, alts, alts[i].result);
  }

  lemma PosedConfig(net: Network, origins: seq<Snap>, dests: seq<Snap>, h: Option<seq<real>>)
    requires net.Valid() && SnapsOn(net, origins) && SnapsOn(net, dests) && Pose(net, origins, dests, h).Valid()
    ensures Pose(net, origins, dests, h).cfg == net.cfg && Pose(net, origins, dests, h).q.Valid()
  {
  }

  lemma Described(p: Problem, a: Alternative, out: RouteOut)
    requires Describes(p, a, out)
    ensures InRange(p.q.topo, a.result.turns) && |p.q.arc| == p.q.topo.Turns() && out.etaS == TravelTime(p, a.result)
  {
  }

  lemma FastestEta(routes: seq<RouteOut>)
    requires routes != [] && forall i :: 0 <= i < |routes| ==> routes[0].etaS <= routes[i].etaS
    ensures Fastest(Etas(routes)) == routes[0].etaS
  {
    assert Etas(routes)[0] == routes[0].etaS;
  }
}
