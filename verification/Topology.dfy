// The static turn topology both search engines read, and walks over it.
//
// A search state is a directed edge; an arc is a turn from the edge it leaves
// (`inEdge`) to the edge it enters (`outEdge`). The turn rows of edge e are
// turnPtr[e] .. turnPtr[e+1].
module Topology {

  datatype Option<+T> = None | Some(value: T)

  datatype Topo = Topo(turnPtr: seq<nat>, outEdge: seq<nat>, inEdge: seq<nat>, allowed: seq<bool>) {
    function Edges(): int { |turnPtr| - 1 }

    function Turns(): nat { |outEdge| }

    ghost predicate Valid() {
      && |turnPtr| > 0 && turnPtr[0] == 0 && turnPtr[Edges()] == Turns()
      && |inEdge| == Turns() && |allowed| == Turns()
      && (forall e, e' :: 0 <= e <= e' <= Edges() ==> turnPtr[e] <= turnPtr[e'])
      && (forall t :: 0 <= t < Turns() ==> outEdge[t] < Edges())
      && (forall t :: 0 <= t < Turns() ==> inEdge[t] < Edges() && turnPtr[inEdge[t]] <= t < turnPtr[inEdge[t] + 1])
    }

    // A turn row lies in the rows of no edge but its in-edge.
    lemma RowOwner(e: nat, t: nat)
      requires Valid() && e < Edges() && turnPtr[e] <= t < turnPtr[e + 1]
      ensures t < Turns() && inEdge[t] == e
    {
      assert turnPtr[e + 1] <= turnPtr[Edges()];
    }
  }

  // The edge a turn sequence starting on `first` ends on.
  function End(topo: Topo, first: nat, turns: seq<nat>): nat
    requires turns != [] ==> turns[|turns| - 1] < topo.Turns()
  {
    if turns == [] then first else topo.outEdge[turns[|turns| - 1]]
  }

  // `turns` is a contiguous chain of allowed turns leaving `first`.
  ghost predicate IsWalk(topo: Topo, first: nat, turns: seq<nat>)
    requires topo.Valid()
  {
    turns != [] ==>
      var t, before := turns[|turns| - 1], turns[..|turns| - 1];
      && IsWalk(topo, first, before)
      && t < topo.Turns() && topo.allowed[t]
      && (before != [] ==> before[|before| - 1] < topo.Turns())
      && topo.inEdge[t] == End(topo, first, before)
  }

  function Sum(w: seq<real>, turns: seq<nat>): real
    requires forall i :: 0 <= i < |turns| ==> turns[i] < |w|
  {
    if turns == [] then 0.0 else Sum(w, turns[..|turns| - 1]) + w[turns[|turns| - 1]]
  }

  lemma {:induction false} WalkTurns(topo: Topo, first: nat, turns: seq<nat>)
    requires topo.Valid() && IsWalk(topo, first, turns)
    ensures forall i :: 0 <= i < |turns| ==> turns[i] < topo.Turns() && topo.allowed[turns[i]]
  {
    if turns != [] {
      WalkTurns(topo, first, turns[..|turns| - 1]);
    }
  }
}
