// The crossing-leg index (pyref/costs.py): which approaches a STRAIGHT turn
// crosses, listed once per pack, and its agreement with the per-request node
// histogram it replaced (tests/test_cross_count.py).
module Crossing {
  import opened Pack
  import opened Turns
  import opened Grouping

  datatype Control = NONE | STOP_2WAY | STOP_4WAY | SIGNAL_PERMISSIVE | SIGNAL_PROTECTED | ROUNDABOUT | YIELD

  // A pack as the cost model reads it: its turn table and the control each
  // edge faces at its head.
  datatype Streets = Streets(r: Roads, table: Table, inEdge: seq<nat>,
                             control: seq<Control>, mustStop: seq<bool>, observed: seq<bool>) {
    ghost predicate Valid() {
      && r.Valid() && TableTo(r, table, |r.edges|) && InEdges(table.turnPtr, inEdge, |r.edges|)
      && |control| == |r.edges| && |mustStop| == |r.edges| && |observed| == |r.edges|
    }

    function Turns(): nat { |table.outEdge| }

    // The edge a turn comes in on, the node it turns at, and the opposite
    // direction of the edge it leaves on, or -1.
    predicate HasRow(t: nat) {
      && t < |table.outEdge| && t < |inEdge| && t < |table.maneuver|
      && inEdge[t] < |r.edges| && table.outEdge[t] < |r.rev|
    }

    function Node(t: nat): nat
      requires HasRow(t)
    {
      r.edges[inEdge[t]].head
    }

    function Back(t: nat): int
      requires HasRow(t)
    {
      r.rev[table.outEdge[t]]
    }
  }

  function Heads(edges: seq<RawEdge>): (h: seq<nat>)
    ensures |h| == |edges|
  {
    seq(|edges|, e requires 0 <= e < |edges| => edges[e].head)
  }

  // What the histogram's arithmetic needs of a turn: the two legs it travels
  // along are incoming approaches of its node, and different ones.
  ghost predicate TwoLegs(s: Streets, t: nat) {
    && s.HasRow(t) && s.Back(t) != s.inEdge[t]
    && (s.Back(t) != -1 ==> 0 <= s.Back(t) < |s.r.edges| && s.r.edges[s.Back(t)].head == s.Node(t))
  }

  // Ingestion provides it for every STRAIGHT.
  lemma StraightHasTwoLegs(s: Streets, t: nat)
    requires s.Valid() && t < s.Turns()
    ensures s.HasRow(t) && (s.table.maneuver[t] == STRAIGHT ==> TwoLegs(s, t))
  {
    BuiltPackIsValid(s.r, s.table, s.inEdge);
    var f := s.table.outEdge[t];
    assert !StraightReversal(s.r, s.table, s.inEdge, t);
    hide TableTo;
    PairedEnds(s.r, f);
  }

  lemma PairedEnds(r: Roads, f: nat)
    requires r.Valid() && f < |r.edges|
    ensures f < |r.rev| && (r.rev[f] != -1 ==> 0 <= r.rev[f] < |r.edges| && r.edges[r.rev[f]].head == r.edges[f].tail)
  {
  }

  // ------------------------------------------------------------ the oracle

  // node_in[node]: how many approaches of the node the mask marks.
  function HistogramTo(edges: seq<RawEdge>, mask: seq<bool>, node: nat, n: nat): nat
    requires n <= |edges| == |mask|
  {
    if n == 0 then 0
    else HistogramTo(edges, mask, node, n - 1) + if edges[n - 1].head == node && mask[n - 1] then 1 else 0
  }

  function One(b: bool): int { if b then 1 else 0 }

  // The histogram, minus our own approach, minus the reverse of our way out:
  // is anything left?
  function Oracle(s: Streets, mask: seq<bool>, t: nat): bool
    requires s.HasRow(t) && |mask| == |s.r.edges|
  {
    var count := HistogramTo(s.r.edges, mask, s.Node(t), |s.r.edges|) - One(mask[s.inEdge[t]]);
    count - (if 0 <= s.Back(t) < |mask| then One(mask[s.Back(t)]) else 0) > 0
  }

  // ------------------------------------------------------- the static legs

  predicate Kept(s: Streets, t: nat, e: int)
    requires s.HasRow(t)
  {
    e >= 0 && e != s.inEdge[t] && e != s.Back(t)
  }

  // The approaches below n of the turn's node that it crosses.
  function LegsTo(s: Streets, t: nat, n: nat): (legs: seq<nat>)
    requires s.HasRow(t) && n <= |s.r.edges|
    ensures |legs| <= n
    ensures forall i :: 0 <= i < |legs| ==> legs[i] < |s.r.edges|
  {
    if n == 0 then []
    else LegsTo(s, t, n - 1) + if s.r.edges[n - 1].head == s.Node(t) && Kept(s, t, n - 1) then [n - 1] else []
  }

  function Legs(s: Streets, t: nat): seq<nat>
    requires s.HasRow(t)
  {
    LegsTo(s, t, |s.r.edges|)
  }

  function Marked(legs: seq<nat>, mask: seq<bool>): nat
    requires forall i :: 0 <= i < |legs| ==> legs[i] < |mask|
  {
    if legs == [] then 0
    else Marked(legs[..|legs| - 1], mask) + if mask[legs[|legs| - 1]] then 1 else 0
  }

  predicate Any(legs: seq<nat>, mask: seq<bool>)
    requires forall i :: 0 <= i < |legs| ==> legs[i] < |mask|
  {
    exists i :: 0 <= i < |legs| && mask[legs[i]]
  }

  lemma {:induction false} MarkedIsAny(legs: seq<nat>, mask: seq<bool>)
    requires forall i :: 0 <= i < |legs| ==> legs[i] < |mask|
    ensures Marked(legs, mask) > 0 <==> Any(legs, mask)
  {
    if legs != [] {
      var n := |legs| - 1;
      MarkedIsAny(legs[..n], mask);
      if Any(legs, mask) && !mask[legs[n]] {
        var i :| 0 <= i < |legs| && mask[legs[i]];
        assert legs[..n][i] == legs[i];
      }
    }
  }

  // Edge n - 1 joins the histogram if it is a marked approach of the node,
  // and the legs if it is one that is crossed.
  lemma HistogramStep(s: Streets, mask: seq<bool>, t: nat, n: nat)
    requires s.HasRow(t) && 0 < n <= |s.r.edges| == |mask|
    ensures HistogramTo(s.r.edges, mask, s.Node(t), n)
         == HistogramTo(s.r.edges, mask, s.Node(t), n - 1) + One(s.r.edges[n - 1].head == s.Node(t) && mask[n - 1])
  {
  }

  lemma LegsStep(s: Streets, mask: seq<bool>, t: nat, n: nat)
    requires s.HasRow(t) && 0 < n <= |s.r.edges| == |mask|
    ensures Marked(LegsTo(s, t, n), mask)
         == Marked(LegsTo(s, t, n - 1), mask) + One(s.r.edges[n - 1].head == s.Node(t) && Kept(s, t, n - 1) && mask[n - 1])
  {
    hide Marked;
    MarkedAppend(LegsTo(s, t, n - 1), n - 1, mask);
    assert LegsTo(s, t, n - 1) + [] == LegsTo(s, t, n - 1);
  }

  // The histogram counts the crossed legs and the two legs travelled along.
  lemma {:induction false} HistogramSplits(s: Streets, mask: seq<bool>, t: nat, n: nat)
    requires TwoLegs(s, t) && n <= |s.r.edges| == |mask|
    ensures HistogramTo(s.r.edges, mask, s.Node(t), n)
         == Marked(LegsTo(s, t, n), mask) + One(s.inEdge[t] < n && mask[s.inEdge[t]])
            + One(0 <= s.Back(t) < n && mask[s.Back(t)])
  {
    hide HistogramTo, LegsTo, Marked, Kept;
    if n == 0 {
      SplitsNone(s, mask, t);
    } else {
      HistogramSplits(s, mask, t, n - 1);
      HistogramStep(s, mask, t, n);
      LegsStep(s, mask, t, n);
      SplitStep(s, mask, t, n);
    }
  }

  lemma {:induction false} SplitsNone(s: Streets, mask: seq<bool>, t: nat)
    requires s.HasRow(t) && |mask| == |s.r.edges|
    ensures HistogramTo(s.r.edges, mask, s.Node(t), 0) == 0 == Marked(LegsTo(s, t, 0), mask)
  {
  }

  // A marked approach is crossed, or is one of the two travelled along.
  lemma SplitStep(s: Streets, mask: seq<bool>, t: nat, n: nat)
    requires TwoLegs(s, t) && 0 < n <= |s.r.edges| == |mask|
    ensures One(s.r.edges[n - 1].head == s.Node(t) && mask[n - 1])
         == One(s.r.edges[n - 1].head == s.Node(t) && Kept(s, t, n - 1) && mask[n - 1])
            + One(s.inEdge[t] < n && mask[s.inEdge[t]]) - One(s.inEdge[t] < n - 1 && mask[s.inEdge[t]])
            + One(0 <= s.Back(t) < n && mask[s.Back(t)]) - One(0 <= s.Back(t) < n - 1 && mask[s.Back(t)])
  {
  }

  lemma {:induction false} MarkedAppend(legs: seq<nat>, e: nat, mask: seq<bool>)
    requires e < |mask| && forall i :: 0 <= i < |legs| ==> legs[i] < |mask|
    ensures Marked(legs + [e], mask) == Marked(legs, mask) + One(mask[e])
  {
    assert (legs + [e])[..|legs|] == legs;
  }

  lemma LegsAreTheOracle(s: Streets, mask: seq<bool>, t: nat)
    requires TwoLegs(s, t) && |mask| == |s.r.edges|
    ensures Oracle(s, mask, t) <==> Any(Legs(s, t), mask)
  {
    HistogramSplits(s, mask, t, |s.r.edges|);
    MarkedIsAny(Legs(s, t), mask);
  }

  // Some approach the mask marks is crossed: one into the same node that is
  // neither the way in nor the other direction of the way out.
  ghost predicate CrossesSome(s: Streets, mask: seq<bool>, t: nat)
    requires s.HasRow(t)
  {
    exists e :: && 0 <= e < |s.r.edges| && e < |mask| && mask[e] && s.r.edges[e].head == s.r.edges[s.inEdge[t]].head
                && e != s.inEdge[t] && e != s.r.rev[s.table.outEdge[t]]
  }

  lemma {:induction false} LegsAre(s: Streets, t: nat, n: nat, e: nat)
    requires s.HasRow(t) && n <= |s.r.edges|
    ensures e in LegsTo(s, t, n) <==>
              && e < n && s.r.edges[e].head == s.r.edges[s.inEdge[t]].head
              && e != s.inEdge[t] && e != s.r.rev[s.table.outEdge[t]]
  {
    if n > 0 { LegsAre(s, t, n - 1, e); }
  }

  // What the histogram's arithmetic comes to.
  lemma OracleIsSomebody(s: Streets, mask: seq<bool>, t: nat)
    requires TwoLegs(s, t) && |mask| == |s.r.edges|
    ensures Oracle(s, mask, t) <==> CrossesSome(s, mask, t)
  {
    LegsAreTheOracle(s, mask, t);
    hide Oracle, LegsTo, TwoLegs;
    var legs := Legs(s, t);
    if Any(legs, mask) {
      var i :| 0 <= i < |legs| && mask[legs[i]];
      LegsAre(s, t, |s.r.edges|, legs[i]);
    }
    if CrossesSome(s, mask, t) {
      var e: nat :| && e < |s.r.edges| && e < |mask| && mask[e] && s.r.edges[e].head == s.r.edges[s.inEdge[t]].head
                    && e != s.inEdge[t] && e != s.r.rev[s.table.outEdge[t]];
      LegsAre(s, t, |s.r.edges|, e);
    }
  }

  // ------------------------------------------------------ _crossing_legs

  // `legs` padded to `depth` by repeating its first.
  function Padded(legs: seq<nat>, depth: nat): (p: seq<nat>)
    requires legs != [] && |legs| <= depth
    ensures |p| == depth
  {
    legs + seq(depth - |legs|, _ => legs[0])
  }

  // Repeating a leg leaves the answer as it was.
  lemma PaddingIsHarmless(legs: seq<nat>, depth: nat, mask: seq<bool>)
    requires legs != [] && |legs| <= depth && forall i :: 0 <= i < |legs| ==> legs[i] < |mask|
    ensures forall i :: 0 <= i < depth ==> Padded(legs, depth)[i] < |mask|
    ensures Any(Padded(legs, depth), mask) <==> Any(legs, mask)
  {
    var p := Padded(legs, depth);
    forall i | 0 <= i < depth ensures p[i] == legs[if i < |legs| then i else 0] {
    }
    if Any(legs, mask) {
      var i :| 0 <= i < |legs| && mask[legs[i]];
      assert p[i] == legs[i];
    }
  }

  // The first j cells of a padded row, padding dropped.
  function FirstCells(group: seq<nat>, j: nat): seq<nat> { if j < |group| then group[..j] else group }

  function CellOf(group: seq<nat>, j: nat): int { if j < |group| then group[j] else -1 }

  lemma CellIs(keys: seq<nat>, k: nat, j: nat)
    ensures Cell(keys, Identity(|keys|), k, j) == CellOf(Group(keys, k), j)
  {
  }

  lemma {:induction false} KeptStep(s: Streets, t: nat, group: seq<nat>, j: nat)
    requires s.HasRow(t)
    ensures KeptFrom(s, t, FirstCells(group, j + 1))
         == KeptFrom(s, t, FirstCells(group, j)) + if Kept(s, t, CellOf(group, j)) then [CellOf(group, j)] else []
  {
    if j < |group| {
      assert group[..j + 1][..j] == group[..j];
      assert j + 1 == |group| ==> group[..j + 1] == group;
    } else {
      assert KeptFrom(s, t, group) + [] == KeptFrom(s, t, group);
    }
  }

  // Every node's incoming edges, ascending, then padding.
  ghost predicate NodeRows(s: Streets, cand: array2<int>)
    reads cand
  {
    && cand.Length0 == s.r.nodes
    && (forall k: nat :: k < s.r.nodes ==> |Group(Heads(s.r.edges), k)| <= cand.Length1)
    && forall k: nat, j: nat :: k < s.r.nodes && j < cand.Length1 ==> cand[k, j] == CellOf(Group(Heads(s.r.edges), k), j)
  }

  // The kept cells of a row of the node matrix, in order.
  method KeptOf(s: Streets, t: nat, cand: array2<int>) returns (kept: seq<nat>)
    requires s.HasRow(t) && s.Node(t) < s.r.nodes && NodeRows(s, cand)
    ensures kept == Legs(s, t)
  {
    hide KeptFrom, CellOf, LegsTo, GroupTo;
    ghost var group := Group(Heads(s.r.edges), s.Node(t));
    kept := [];
    NothingKept(s, t, group);
    for j := 0 to cand.Length1
      invariant kept == KeptFrom(s, t, FirstCells(group, j))
    {
      KeptStep(s, t, group, j);
      var e := cand[s.Node(t), j];
      if Kept(s, t, e) {
        kept := kept + [e];
      }
    }
    GroupKept(s, t, |s.r.edges|);
  }

  lemma {:induction false} NothingKept(s: Streets, t: nat, group: seq<nat>)
    requires s.HasRow(t)
    ensures KeptFrom(s, t, FirstCells(group, 0)) == []
  {
  }

  function Identity(n: nat): seq<nat> { seq(n, i requires 0 <= i < n => i) }

  function KeptFrom(s: Streets, t: nat, group: seq<nat>): seq<nat>
    requires s.HasRow(t)
  {
    if group == [] then []
    else
      var n := |group| - 1;
      KeptFrom(s, t, group[..n]) + if Kept(s, t, group[n]) then [group[n]] else []
  }

  lemma {:induction false} GroupKept(s: Streets, t: nat, n: nat)
    requires s.HasRow(t) && n <= |s.r.edges|
    ensures KeptFrom(s, t, GroupTo(Heads(s.r.edges), s.Node(t), n)) == LegsTo(s, t, n)
  {
    if n > 0 {
      GroupKept(s, t, n - 1);
      var before := GroupTo(Heads(s.r.edges), s.Node(t), n - 1);
      assert (before + [n - 1])[..|before|] == before;
      assert before + [] == before;
    }
  }

  // The gated turns below n that cross somebody, and their legs, padded to one
  // depth.
  ghost predicate Listed(s: Streets, gate: seq<bool>, turns: seq<nat>, n: nat)
    requires forall t :: 0 <= t < n ==> s.HasRow(t)
    requires n <= |gate|
  {
    && (forall i, j :: 0 <= i < j < |turns| ==> turns[i] < turns[j])
    && (forall i :: 0 <= i < |turns| ==> turns[i] < n && gate[turns[i]] && Legs(s, turns[i]) != [])
    && (forall t :: 0 <= t < n && gate[t] && Legs(s, t) != [] ==> t in turns)
  }

  ghost predicate PaddedLegs(s: Streets, turns: seq<nat>, legs: seq<seq<nat>>, depth: nat)
    requires forall i :: 0 <= i < |turns| ==> s.HasRow(turns[i])
  {
    && |legs| <= |turns|
    && forall i :: 0 <= i < |legs| ==>
         Legs(s, turns[i]) != [] && |Legs(s, turns[i])| <= depth && legs[i] == Padded(Legs(s, turns[i]), depth)
  }

  lemma RowsExist(s: Streets)
    requires s.Valid()
    ensures forall t: nat :: t < s.Turns() ==> s.HasRow(t) && s.Node(t) < s.r.nodes
  {
    forall t: nat | t < s.Turns() ensures s.HasRow(t) && s.Node(t) < s.r.nodes {
      StraightHasTwoLegs(s, t);
    }
  }

  method CrossingLegs(s: Streets, gate: seq<bool>) returns (turns: seq<nat>, legs: seq<seq<nat>>, depth: nat)
    requires s.Valid() && |gate| == s.Turns()
    ensures forall t: nat :: t < s.Turns() ==> s.HasRow(t)
    ensures Listed(s, gate, turns, s.Turns())
    ensures |legs| == |turns| && PaddedLegs(s, turns, legs, depth)
  {
    hide Streets.Valid, Legs, NoStraightReversal, TableTo, Roads.Valid, InEdges, Padded;
    NeverFires(s);
    assert NoStraightReversal(s.r, s.table, s.inEdge);
    RowsExist(s);
    var cand := NodeMatrix(s);
    var rows: seq<seq<nat>>;
    turns, rows, depth := KeptRows(s, gate, cand);
    legs := [];
    for i := 0 to |turns|
      invariant |legs| == i && PaddedLegs(s, turns, legs, depth)
    {
      legs := legs + [Padded(rows[i], depth)];
    }
  }

  lemma NeverFires(s: Streets)
    requires s.Valid()
    ensures NoStraightReversal(s.r, s.table, s.inEdge)
  {
    BuiltPackIsValid(s.r, s.table, s.inEdge);
  }

  // The gated turns that keep a leg, what they keep, and the largest number.
  method KeptRows(s: Streets, gate: seq<bool>, cand: array2<int>) returns (turns: seq<nat>, rows: seq<seq<nat>>,
                  depth: nat)
    requires |gate| == s.Turns() && NodeRows(s, cand)
    requires forall t: nat :: t < s.Turns() ==> s.HasRow(t) && s.Node(t) < s.r.nodes
    ensures Listed(s, gate, turns, s.Turns()) && |rows| == |turns|
    ensures forall i :: 0 <= i < |turns| ==> rows[i] == Legs(s, turns[i]) && |rows[i]| <= depth
  {
    hide Legs;
    turns, rows, depth := [], [], 1;
    for t := 0 to s.Turns()
      invariant Listed(s, gate, turns, t) && |rows| == |turns| && NodeRows(s, cand)
      invariant forall i :: 0 <= i < |turns| ==> rows[i] == Legs(s, turns[i]) && |rows[i]| <= depth
    {
      if gate[t] {
        var kept := KeptOf(s, t, cand);
        if kept != [] {
          turns, rows := turns + [t], rows + [kept];
          if |kept| > depth {
            depth := |kept|;
          }
        }
      }
    }
  }

  // node_in: the incoming edges of every node.
  method NodeMatrix(s: Streets) returns (cand: array2<int>)
    requires s.Valid()
    ensures fresh(cand) && NodeRows(s, cand)
  {
    var heads := Heads(s.r.edges);
    cand := GroupPadded(heads, Identity(|heads|), s.r.nodes);
    forall k: nat, j: nat | k < s.r.nodes && j < cand.Length1 ensures cand[k, j] == CellOf(Group(heads, k), j) {
      CellIs(heads, k, j);
    }
  }

  // ------------------------------------------- the per-request predicate

  function Governs(s: Streets, t: nat): Control
    requires s.HasRow(t) && |s.control| == |s.r.edges|
  {
    s.control[s.inEdge[t]]
  }

  // The two static gates: an observed STRAIGHT from an uncontrolled approach,
  // and one from an approach that must stop or yield.
  predicate BusyGate(s: Streets, t: nat)
    requires s.HasRow(t) && |s.control| == |s.r.edges| == |s.observed|
  {
    s.table.maneuver[t] == STRAIGHT && s.observed[s.inEdge[t]] && Governs(s, t) == NONE
  }

  predicate MajorGate(s: Streets, t: nat)
    requires s.HasRow(t) && |s.control| == |s.r.edges| == |s.observed| == |s.mustStop|
  {
    && s.table.maneuver[t] == STRAIGHT && s.observed[s.inEdge[t]]
    && (Governs(s, t) == STOP_2WAY || Governs(s, t) == YIELD) && s.mustStop[s.inEdge[t]]
  }

  // A listed turn answers as the histogram does; an unlisted one that passes
  // the gate can only answer no.
  lemma ListedAnswers(s: Streets, gate: seq<bool>, turns: seq<nat>, legs: seq<seq<nat>>, depth: nat, mask: seq<bool>,
                      i: nat)
    requires s.Valid() && |gate| == s.Turns() && |mask| == |s.r.edges| && i < |turns| == |legs|
    requires forall t: nat :: t < s.Turns() ==> s.HasRow(t)
    requires Listed(s, gate, turns, s.Turns()) && PaddedLegs(s, turns, legs, depth)
    requires s.table.maneuver[turns[i]] == STRAIGHT
    ensures forall j :: 0 <= j < |legs[i]| ==> legs[i][j] < |mask|
    ensures Any(legs[i], mask) <==> Oracle(s, mask, turns[i])
  {
    StraightHasTwoLegs(s, turns[i]);
    LegsAreTheOracle(s, mask, turns[i]);
    hide Streets.Valid, Oracle, LegsTo, Any;
    assert forall j :: 0 <= j < |Legs(s, turns[i])| ==> Legs(s, turns[i])[j] < |mask| by { LegsInRange(s, turns[i]); }
    PaddingIsHarmless(Legs(s, turns[i]), depth, mask);
  }

  lemma LegsInRange(s: Streets, t: nat)
    requires s.HasRow(t)
    ensures forall j :: 0 <= j < |Legs(s, t)| ==> Legs(s, t)[j] < |s.r.edges|
  {
  }

  lemma UnlistedAnswersNo(s: Streets, gate: seq<bool>, turns: seq<nat>, mask: seq<bool>, t: nat)
    requires s.Valid() && |gate| == s.Turns() && |mask| == |s.r.edges| && t < s.Turns()
    requires forall u: nat :: u < s.Turns() ==> s.HasRow(u)
    requires Listed(s, gate, turns, s.Turns()) && gate[t] && t !in turns && s.table.maneuver[t] == STRAIGHT
    ensures !Oracle(s, mask, t)
  {
    StraightHasTwoLegs(s, t);
    LegsAreTheOracle(s, mask, t);
    hide Streets.Valid, Oracle, LegsTo;
  }

  // _uncontrolled_crossing, on both indexes.
  method UncontrolledCrossing(s: Streets, busyTurns: seq<nat>, busyLegs: seq<seq<nat>>, busyDepth: nat,
                              majorTurns: seq<nat>, majorLegs: seq<seq<nat>>, majorDepth: nat,
                              overTau: seq<bool>, edgeBusy: seq<bool>, edgeMajor: seq<bool>)
    returns (out: array<bool>)
    requires s.Valid() && forall t: nat :: t < s.Turns() ==> s.HasRow(t)
    requires |overTau| == s.Turns() && |edgeBusy| == |s.r.edges| == |edgeMajor|
    requires Listed(s, BusyGates(s), busyTurns, s.Turns()) && |busyLegs| == |busyTurns|
             && PaddedLegs(s, busyTurns, busyLegs, busyDepth)
    requires Listed(s, MajorGates(s), majorTurns, s.Turns()) && |majorLegs| == |majorTurns|
             && PaddedLegs(s, majorTurns, majorLegs, majorDepth)
    ensures fresh(out) && out.Length == s.Turns()
    ensures forall t: nat :: t < s.Turns() ==>
              (out[t] <==> overTau[t]
                           && ((BusyGate(s, t) && Oracle(s, edgeBusy, t)) || (MajorGate(s, t) && Oracle(s, edgeMajor, t))))
  {
    out := new bool[s.Turns()](_ => false);
    Scatter(s, BusyGates(s), busyTurns, busyLegs, busyDepth, overTau, edgeBusy, out);
    forall t: nat | t < s.Turns() ensures !(BusyGates(s)[t] && MajorGates(s)[t]) {
    }
    hide BusyGate, MajorGate, Oracle, Streets.Valid, Listed, PaddedLegs;
    Scatter(s, MajorGates(s), majorTurns, majorLegs, majorDepth, overTau, edgeMajor, out);
  }

  function BusyGates(s: Streets): (g: seq<bool>)
    requires forall t: nat :: t < s.Turns() ==> s.HasRow(t)
    requires |s.control| == |s.r.edges| == |s.observed| == |s.mustStop|
    ensures |g| == s.Turns() && forall t: nat :: t < s.Turns() ==> g[t] == BusyGate(s, t)
  {
    seq(s.Turns(), t requires 0 <= t < s.Turns() => BusyGate(s, t))
  }

  function MajorGates(s: Streets): (g: seq<bool>)
    requires forall t: nat :: t < s.Turns() ==> s.HasRow(t)
    requires |s.control| == |s.r.edges| == |s.observed| == |s.mustStop|
    ensures |g| == s.Turns() && forall t: nat :: t < s.Turns() ==> g[t] == MajorGate(s, t)
  {
    seq(s.Turns(), t requires 0 <= t < s.Turns() => MajorGate(s, t))
  }

  // One gate's flags written into `out`: the histogram's answer at every
  // gated turn over the threshold, and nothing else touched. A gated turn that
  // is not listed must be false already.
  method Scatter(s: Streets, gate: seq<bool>, turns: seq<nat>, legs: seq<seq<nat>>, depth: nat,
                 overTau: seq<bool>, mask: seq<bool>, out: array<bool>)
    requires s.Valid() && forall t: nat :: t < s.Turns() ==> s.HasRow(t)
    requires |gate| == s.Turns() == |overTau| == out.Length && |mask| == |s.r.edges|
    requires Listed(s, gate, turns, s.Turns()) && |legs| == |turns| && PaddedLegs(s, turns, legs, depth)
    requires forall t: nat :: t < s.Turns() && gate[t] ==> s.table.maneuver[t] == STRAIGHT && !out[t]
    modifies out
    ensures forall t: nat :: t < s.Turns() ==>
              out[t] == if gate[t] then overTau[t] && Oracle(s, mask, t) else old(out[t])
  {
    hide Oracle, Streets.Valid, Any;
    for i := 0 to |turns|
      invariant forall j :: 0 <= j < i ==> out[turns[j]] == (overTau[turns[j]] && Oracle(s, mask, turns[j]))
      invariant forall t: nat :: t < s.Turns() && t !in turns[..i] ==> out[t] == old(out[t])
    {
      var t := turns[i];
      ListedAnswers(s, gate, turns, legs, depth, mask, i);
      out[t] := overTau[t] && Any(legs[i], mask);
    }
    assert turns[..|turns|] == turns;
    forall t: nat | t < s.Turns()
      ensures out[t] == if gate[t] then overTau[t] && Oracle(s, mask, t) else old(out[t]) {
      if gate[t] && t !in turns { UnlistedAnswersNo(s, gate, turns, mask, t); }
    }
  }

  // A crossing nobody controls: going straight at an approach whose control was
  // observed, across a busy one when there is no control, across a major one
  // when it must stop or yield.
  ghost predicate Uncontrolled(s: Streets, busy: seq<bool>, major: seq<bool>, t: nat)
    requires s.HasRow(t) && |s.control| == |s.r.edges| == |s.observed| == |s.mustStop|
  {
    var e := s.inEdge[t];
    && s.table.maneuver[t] == STRAIGHT && s.observed[e]
    && (|| (s.control[e] == NONE && CrossesSome(s, busy, t))
        || (s.control[e] in {STOP_2WAY, YIELD} && s.mustStop[e] && CrossesSome(s, major, t)))
  }

  lemma GatesAre(s: Streets, busy: seq<bool>, major: seq<bool>, t: nat)
    requires s.Valid() && t < s.Turns() && |busy| == |s.r.edges| == |major|
    ensures s.HasRow(t)
    ensures (BusyGate(s, t) && Oracle(s, busy, t)) || (MajorGate(s, t) && Oracle(s, major, t))
            <==> Uncontrolled(s, busy, major, t)
  {
    StraightHasTwoLegs(s, t);
    hide Streets.Valid, Oracle, CrossesSome, TwoLegs;
    if s.table.maneuver[t] == STRAIGHT {
      OracleIsSomebody(s, busy, t);
      OracleIsSomebody(s, major, t);
    }
  }

  // Statics and request together: on any pack that was built, for any masks,
  // the flags are exactly the histogram's.
  method CrossingFlags(s: Streets, overTau: seq<bool>, edgeBusy: seq<bool>,
                       edgeMajor: seq<bool>) returns (out: array<bool>)
    requires s.Valid() && |overTau| == s.Turns() && |edgeBusy| == |s.r.edges| == |edgeMajor|
    ensures forall t: nat :: t < s.Turns() ==> s.HasRow(t)
    ensures out.Length == s.Turns()
    ensures forall t: nat :: t < s.Turns() ==>
              (out[t] <==> overTau[t]
                           && ((BusyGate(s, t) && Oracle(s, edgeBusy, t)) || (MajorGate(s, t) && Oracle(s, edgeMajor, t))))
    ensures forall t: nat :: t < s.Turns() ==> (out[t] <==> overTau[t] && Uncontrolled(s, edgeBusy, edgeMajor, t))
  {
    RowsExist(s);
    var busyTurns, busyLegs, busyDepth := CrossingLegs(s, BusyGates(s));
    var majorTurns, majorLegs, majorDepth := CrossingLegs(s, MajorGates(s));
    hide BusyGate, MajorGate, Oracle, Listed, PaddedLegs;
    out := UncontrolledCrossing(s, busyTurns, busyLegs, busyDepth, majorTurns, majorLegs, majorDepth,
                                overTau, edgeBusy, edgeMajor);
    hide Uncontrolled, Streets.Valid;
    forall t: nat | t < s.Turns() ensures out[t] <==> overTau[t] && Uncontrolled(s, edgeBusy, edgeMajor, t) {
      GatesAre(s, edgeBusy, edgeMajor, t);
    }
  }
}
