// The turn table (ingestion/turns.py), and what every built pack satisfies
// (GraphPack.validate in pyref/graph.py).
module Turns {
  import opened Topology
  import opened Pack

  datatype Maneuver = STRAIGHT | LEFT | RIGHT | UTURN

  const STRAIGHT_MAX_DEG := 30.0
  const UTURN_MIN_DEG := 150.0

  function Mod360(x: real): real { x - 360.0 * (x / 360.0).Floor as real }

  function WrapDelta(delta: real): real {
    var d := Mod360(delta + 180.0) - 180.0;
    if d == -180.0 then 180.0 else d
  }

  // How many whole turns wrapping adds.
  function WholeTurns(delta: real): int {
    var n := ((delta + 180.0) / 360.0).Floor;
    if Mod360(delta + 180.0) == 0.0 then 1 - n else -n
  }

  // The one angle in (-180, 180] that points the same way.
  lemma WrapIsUnique(delta: real, d: real, turns: int)
    ensures -180.0 < WrapDelta(delta) <= 180.0
    ensures WrapDelta(delta) == delta + 360.0 * WholeTurns(delta) as real
    ensures -180.0 < d <= 180.0 && d == delta + 360.0 * turns as real ==> d == WrapDelta(delta)
  {
    var k := WholeTurns(delta);
    if -180.0 < d <= 180.0 && d == delta + 360.0 * turns as real {
      assert -360.0 < 360.0 * (turns - k) as real < 360.0;
      assert turns == k;
    }
  }

  function Abs(x: real): real { if x < 0.0 then -x else x }

  function ClassifyManeuver(delta: real, isReversePair: bool): Maneuver {
    if isReversePair || Abs(delta) > UTURN_MIN_DEG then UTURN
    else if Abs(delta) < STRAIGHT_MAX_DEG then STRAIGHT
    else if delta > 0.0 then RIGHT else LEFT
  }

  // The edges of a pack: their order, node index, pairing and bearings.
  datatype Roads = Roads(edges: seq<RawEdge>, nodes: nat, ptr: seq<nat>, rev: seq<int>,
                         bearingIn: seq<real>, bearingOut: seq<real>) {
    ghost predicate Valid() {
      && EdgeList(edges, nodes) && NodeIndex(edges, nodes, ptr) && Pairing(edges, rev)
      && |bearingIn| == |edges| && |bearingOut| == |edges|
    }

    // The first edge leaving e's head, and how many there are.
    ghost function Lo(e: nat): nat
      requires Valid() && e < |edges|
    {
      ptr[edges[e].head]
    }

    ghost function Degree(e: nat): nat
      requires Valid() && e < |edges|
    {
      ptr[edges[e].head + 1] - ptr[edges[e].head]
    }
  }

  datatype Table = Table(turnPtr: seq<nat>, outEdge: seq<nat>, maneuver: seq<Maneuver>, angle: seq<real>,
                         allowed: seq<bool>)

  // Row t is the turn from e into e2.
  ghost predicate Row(r: Roads, table: Table, t: nat, e: nat, e2: nat)
    requires r.Valid() && e < |r.edges|
  {
    && e2 < |r.edges| && t < |table.outEdge| == |table.maneuver| == |table.angle| == |table.allowed|
    && table.outEdge[t] == e2
    && table.angle[t] == WrapDelta(r.bearingIn[e2] - r.bearingOut[e])
    && table.maneuver[t] == ClassifyManeuver(table.angle[t], r.rev[e] == e2)
    && table.allowed[t] == !(table.maneuver[t] == UTURN && r.Degree(e) > 1)
  }

  // The k-th row of e.
  ghost predicate RowK(r: Roads, table: Table, e: nat, k: nat)
    requires r.Valid() && e < |r.edges| && e < |table.turnPtr|
  {
    Row(r, table, table.turnPtr[e] + k, e, r.Lo(e) + k)
  }

  ghost predicate RowsOf(r: Roads, table: Table, e: nat, n: nat)
    requires r.Valid() && e < |r.edges| && e < |table.turnPtr|
  {
    forall k: nat :: k < n ==> RowK(r, table, e, k)
  }

  // The first n edges' rows, and nothing else.
  ghost predicate TableTo(r: Roads, table: Table, n: nat)
    requires r.Valid() && n <= |r.edges|
  {
    && |table.turnPtr| == n + 1 && table.turnPtr[0] == 0 && table.turnPtr[n] == |table.outEdge|
    && |table.outEdge| == |table.maneuver| == |table.angle| == |table.allowed|
    && (forall e :: 0 <= e < n ==> table.turnPtr[e + 1] == table.turnPtr[e] + r.Degree(e))
    && (forall e :: 0 <= e < n ==> RowsOf(r, table, e, r.Degree(e)))
  }

  // From e to f the road bends by d degrees, clockwise: the bearings differ by
  // that, but for whole turns.
  ghost predicate Bends(r: Roads, e: nat, f: nat, d: real, n: int) {
    && e < |r.bearingOut| && f < |r.bearingIn| && -180.0 < d <= 180.0
    && r.bearingIn[f] == r.bearingOut[e] + d + 360.0 * n as real
  }

  // What a bend is called; `back` when it leads back along the same street.
  ghost predicate Named(m: Maneuver, d: real, back: bool) {
    && (m == UTURN <==> back || d < -150.0 || 150.0 < d)
    && (m == LEFT <==> !back && -150.0 <= d <= -30.0)
    && (m == STRAIGHT <==> !back && -30.0 < d < 30.0)
    && (m == RIGHT <==> !back && 30.0 <= d <= 150.0)
  }

  // The row of the turn from e to f, whose bend is d.
  ghost predicate TurnIs(r: Roads, table: Table, e: nat, f: nat, d: real)
    requires r.Valid() && e < |r.edges| && e < |table.turnPtr| && r.Lo(e) <= f
  {
    var t := table.turnPtr[e] + (f - r.Lo(e));
    && t < |table.outEdge| == |table.maneuver| == |table.angle| == |table.allowed|
    && table.outEdge[t] == f && table.angle[t] == d && Named(table.maneuver[t], d, r.rev[e] == f)
    && (table.allowed[t] <==> table.maneuver[t] != UTURN || r.Degree(e) == 1)
  }

  // Every turn there is, by its bend.
  ghost predicate ByBearings(r: Roads, table: Table)
    requires r.Valid() && |r.edges| < |table.turnPtr|
  {
    forall e: nat, f: nat, d: real, n: int ::
      e < |r.edges| && f < |r.edges| && r.edges[f].tail == r.edges[e].head && Bends(r, e, f, d, n) ==>
        r.Lo(e) <= f && TurnIs(r, table, e, f, d)
  }

  lemma BendIsDelta(r: Roads, e: nat, f: nat, d: real, n: int)
    requires Bends(r, e, f, d, n)
    ensures d == WrapDelta(r.bearingIn[f] - r.bearingOut[e])
  {
    WrapIsUnique(r.bearingIn[f] - r.bearingOut[e], d, -n);
  }

  lemma RowIsNamed(r: Roads, table: Table, t: nat, e: nat, f: nat, d: real, n: int)
    requires r.Valid() && e < |r.edges| && Row(r, table, t, e, f) && Bends(r, e, f, d, n) && 0 < r.Degree(e)
    ensures table.outEdge[t] == f && table.angle[t] == d && Named(table.maneuver[t], d, r.rev[e] == f)
    ensures table.allowed[t] <==> table.maneuver[t] != UTURN || r.Degree(e) == 1
  {
    BendIsDelta(r, e, f, d, n);
    hide WrapDelta, Roads.Valid;
  }

  lemma TableByBearings(r: Roads, table: Table)
    requires r.Valid() && TableTo(r, table, |r.edges|)
    ensures ByBearings(r, table)
  {
    hide Row, Roads.Valid, Roads.Degree, Roads.Lo, Named, Bends;
    forall e: nat, f: nat, d: real, n: int
      | e < |r.edges| && f < |r.edges| && r.edges[f].tail == r.edges[e].head && Bends(r, e, f, d, n)
      ensures r.Lo(e) <= f && TurnIs(r, table, e, f, d) {
      OutRange(r, e, f);
      assert RowsOf(r, table, e, r.Degree(e));
      assert RowK(r, table, e, f - r.Lo(e));
      RowIsNamed(r, table, table.turnPtr[e] + (f - r.Lo(e)), e, f, d, n);
      RowInTable(r, table, table.turnPtr[e] + (f - r.Lo(e)), e, f);
    }
  }

  lemma RowInTable(r: Roads, table: Table, t: nat, e: nat, f: nat)
    requires r.Valid() && e < |r.edges| && Row(r, table, t, e, f)
    ensures t < |table.outEdge| == |table.maneuver| == |table.angle| == |table.allowed|
  {
  }

  method BuildTurnTable(r: Roads) returns (table: Table)
    requires r.Valid()
    ensures TableTo(r, table, |r.edges|) && ByBearings(r, table)
  {
    table := Table([0], [], [], [], []);
    for e := 0 to |r.edges|
      invariant TableTo(r, table, e)
    {
      var lo, hi := r.ptr[r.edges[e].head], r.ptr[r.edges[e].head + 1];
      ghost var before := table;
      for e2 := lo to hi
        invariant table.turnPtr == before.turnPtr && Grown(before, table)
        invariant |table.outEdge| == |before.outEdge| + (e2 - lo)
        invariant RowsOf(r, table, e, e2 - lo)
      {
        var delta := WrapDelta(r.bearingIn[e2] - r.bearingOut[e]);
        var man := ClassifyManeuver(delta, r.rev[e] == e2);
        var ok := !(man == UTURN && hi - lo > 1);
        ghost var rows := table;
        table := table.(outEdge := table.outEdge + [e2], maneuver := table.maneuver + [man],
                        angle := table.angle + [delta], allowed := table.allowed + [ok]);
        RowsGrow(r, rows, table, e, e2 - lo);
        hide ClassifyManeuver, WrapDelta;
      }
      ghost var rows := table;
      table := table.(turnPtr := table.turnPtr + [|table.outEdge|]);
      TableGrows(r, before, rows, table, e);
    }
    TableByBearings(r, table);
  }

  // The rows of `before` are still there.
  ghost predicate Grown(before: Table, after: Table) {
    && |after.outEdge| == |after.maneuver| == |after.angle| == |after.allowed|
    && before.outEdge <= after.outEdge && before.maneuver <= after.maneuver
    && before.angle <= after.angle && before.allowed <= after.allowed
  }

  lemma RowsGrow(r: Roads, before: Table, after: Table, e: nat, n: nat)
    requires r.Valid() && e < |r.edges| && e < |before.turnPtr| && before.turnPtr <= after.turnPtr
    requires Grown(before, after) && RowsOf(r, before, e, n)
    ensures RowsOf(r, after, e, n)
  {
    hide ClassifyManeuver, WrapDelta, Roads.Valid, Roads.Lo, Roads.Degree;
    forall k: nat | k < n ensures RowK(r, after, e, k) {
      assert RowK(r, before, e, k);
    }
  }

  lemma TableGrows(r: Roads, before: Table, rows: Table, after: Table, e: nat)
    requires r.Valid() && e < |r.edges| && TableTo(r, before, e)
    requires rows.turnPtr == before.turnPtr && Grown(before, rows)
    requires |rows.outEdge| == |before.outEdge| + r.Degree(e) && RowsOf(r, rows, e, r.Degree(e))
    requires after == rows.(turnPtr := rows.turnPtr + [|rows.outEdge|])
    ensures TableTo(r, after, e + 1)
  {
    hide RowsOf, Roads.Valid, Roads.Degree;
    assert Grown(before, after) && Grown(rows, after);
    forall f | 0 <= f < e + 1 ensures RowsOf(r, after, f, r.Degree(f)) {
      if f < e {
        RowsGrow(r, before, after, f, r.Degree(f));
      } else {
        RowsGrow(r, rows, after, e, r.Degree(e));
      }
    }
  }

  // np.repeat(arange(E), diff(turn_ptr))
  method TurnInEdge(turnPtr: seq<nat>) returns (inEdge: seq<nat>)
    requires turnPtr != [] && turnPtr[0] == 0
    requires forall e :: 0 <= e < |turnPtr| - 1 ==> turnPtr[e] <= turnPtr[e + 1]
    ensures InEdges(turnPtr, inEdge, |turnPtr| - 1)
  {
    inEdge := [];
    for e := 0 to |turnPtr| - 1
      invariant InEdges(turnPtr, inEdge, e)
    {
      ghost var before := inEdge;
      inEdge := inEdge + seq(turnPtr[e + 1] - turnPtr[e], _ => e);
      forall f: nat, t: nat | f < e + 1 && Owns(turnPtr, f, t) ensures t < |inEdge| && inEdge[t] == f {
        if f < e {
          assert before[t] == f;
        }
      }
    }
  }

  // The rows of the first n edges carry their edge's id.
  ghost predicate InEdges(turnPtr: seq<nat>, inEdge: seq<nat>, n: nat) {
    && n < |turnPtr| && |inEdge| == turnPtr[n]
    && forall e: nat, t: nat :: e < n && Owns(turnPtr, e, t) ==> t < |inEdge| && inEdge[t] == e
  }

  ghost predicate Owns(turnPtr: seq<nat>, e: nat, t: nat) {
    e + 1 < |turnPtr| && turnPtr[e] <= t < turnPtr[e + 1]
  }

  lemma {:induction false} PtrGrows(turnPtr: seq<nat>, e: nat, f: nat)
    requires e <= f < |turnPtr| && forall i :: 0 <= i < |turnPtr| - 1 ==> turnPtr[i] <= turnPtr[i + 1]
    ensures turnPtr[e] <= turnPtr[f]
  {
    if e < f { PtrGrows(turnPtr, e, f - 1); }
  }

  // Every row is some edge's.
  lemma {:induction false} RowOwned(turnPtr: seq<nat>, t: nat, n: nat)
    requires n < |turnPtr| && turnPtr[0] == 0 && t < turnPtr[n]
    ensures exists e: nat :: e < n && Owns(turnPtr, e, t)
  {
    if turnPtr[n - 1] > t {
      RowOwned(turnPtr, t, n - 1);
    } else {
      assert Owns(turnPtr, n - 1, t);
    }
  }

  // ---------------------------------------------------- every built pack

  // build_pack, from sorted edges to the turn table.
  method BuildRoads(edges: seq<RawEdge>, nodes: nat, bearingIn: seq<real>, bearingOut: seq<real>)
    returns (r: Roads, table: Table, inEdge: seq<nat>)
    requires EdgeList(edges, nodes) && |bearingIn| == |edges| == |bearingOut|
    ensures r.Valid() && r.edges == edges && MaximalTo(edges, r.rev, |edges|)
    ensures TableTo(r, table, |edges|) && InEdges(table.turnPtr, inEdge, |edges|) && ByBearings(r, table)
  {
    var ptr := NodeOutPtr(edges, nodes);
    IndexIsExact(edges, nodes, ptr[..]);
    var rev := PairReverses(edges);
    r := Roads(edges, nodes, ptr[..], rev[..], bearingIn, bearingOut);
    table := BuildTurnTable(r);
    inEdge := TurnInEdge(table.turnPtr);
  }

  function TopoOf(table: Table, inEdge: seq<nat>): Topo {
    Topo(table.turnPtr, table.outEdge, inEdge, table.allowed)
  }

  lemma RowAt(r: Roads, table: Table, inEdge: seq<nat>, t: nat)
    requires r.Valid() && TableTo(r, table, |r.edges|) && InEdges(table.turnPtr, inEdge, |r.edges|) && t < |table.outEdge|
    ensures t < |inEdge| && inEdge[t] < |r.edges|
    ensures var e := inEdge[t];
            && table.turnPtr[e] <= t < table.turnPtr[e + 1]
            && Row(r, table, t, e, r.Lo(e) + (t - table.turnPtr[e])) && t - table.turnPtr[e] < r.Degree(e)
  {
    hide Row, Roads.Valid, Roads.Degree, Roads.Lo;
    RowOwned(table.turnPtr, t, |r.edges|);
    var e: nat :| e < |r.edges| && Owns(table.turnPtr, e, t);
    assert RowsOf(r, table, e, r.Degree(e));
    var k: nat := t - table.turnPtr[e];
    assert RowK(r, table, e, k);
  }

  // The node index, read at an edge's head.
  lemma OutRange(r: Roads, e: nat, f: nat)
    requires r.Valid() && e < |r.edges| && f < |r.edges|
    ensures r.Lo(e) <= f < r.Lo(e) + r.Degree(e) <==> r.edges[f].tail == r.edges[e].head
  {
    assert r.edges[e].head < r.nodes;
    assert EnumeratesOut(r.edges, r.ptr, r.edges[e].head, f);
  }

  // Turns leave from the head of their in-edge, the table fits the search,
  // and no STRAIGHT goes back along its own street.
  lemma BuiltPackIsValid(r: Roads, table: Table, inEdge: seq<nat>)
    requires r.Valid() && TableTo(r, table, |r.edges|) && InEdges(table.turnPtr, inEdge, |r.edges|)
    ensures TopoOf(table, inEdge).Valid()
    ensures forall t :: 0 <= t < |table.outEdge| ==>
              && table.outEdge[t] < |r.edges| && inEdge[t] < |r.edges|
              && r.edges[table.outEdge[t]].tail == r.edges[inEdge[t]].head
    ensures NoStraightReversal(r, table, inEdge)
  {
    forall t: nat | t < |table.outEdge|
      ensures table.outEdge[t] < |r.edges| && inEdge[t] < |r.edges|
      ensures r.edges[table.outEdge[t]].tail == r.edges[inEdge[t]].head
      ensures table.turnPtr[inEdge[t]] <= t < table.turnPtr[inEdge[t] + 1]
      ensures table.maneuver[t] == STRAIGHT ==> r.rev[table.outEdge[t]] != inEdge[t] {
      RowAt(r, table, inEdge, t);
      OutRange(r, inEdge[t], table.outEdge[t]);
    }
    forall e, f | 0 <= e <= f <= |r.edges| ensures table.turnPtr[e] <= table.turnPtr[f] {
      PtrGrows(table.turnPtr, e, f);
    }
    hide Row, RowsOf, Roads.Valid;
  }

  ghost predicate StraightReversal(r: Roads, table: Table, inEdge: seq<nat>, t: nat) {
    && t < |table.outEdge| && t < |table.maneuver| && t < |inEdge| && table.outEdge[t] < |r.rev|
    && table.maneuver[t] == STRAIGHT && r.rev[table.outEdge[t]] == inEdge[t]
  }

  ghost predicate NoStraightReversal(r: Roads, table: Table, inEdge: seq<nat>) {
    forall t :: 0 <= t < |table.outEdge| ==> !StraightReversal(r, table, inEdge, t)
  }

  ghost predicate IsTurn(table: Table, inEdge: seq<nat>, t: int, e: nat, f: nat) {
    && 0 <= t < |table.outEdge| && t < |inEdge| && t < |table.maneuver| && t < |table.allowed|
    && inEdge[t] == e && table.outEdge[t] == f
  }

  // For every edge and every edge leaving its head there is exactly one turn;
  // it is allowed unless it is a U-turn with another way out, and the turn
  // back along the same street always is one.
  lemma EveryTurnOnce(r: Roads, table: Table, inEdge: seq<nat>, e: nat, f: nat)
    requires r.Valid() && TableTo(r, table, |r.edges|) && InEdges(table.turnPtr, inEdge, |r.edges|)
    requires e < |r.edges| && f < |r.edges| && r.edges[f].tail == r.edges[e].head
    ensures exists t :: && IsTurn(table, inEdge, t, e, f)
                        && (table.allowed[t] <==> r.Degree(e) == 1 || table.maneuver[t] != UTURN)
                        && (r.rev[e] == f ==> table.maneuver[t] == UTURN)
    ensures forall t, u :: IsTurn(table, inEdge, t, e, f) && IsTurn(table, inEdge, u, e, f) ==> t == u
  {
    OutRange(r, e, f);
    var k: nat := f - r.Lo(e);
    assert RowsOf(r, table, e, r.Degree(e));
    assert RowK(r, table, e, k);
    var t := table.turnPtr[e] + k;
    assert Owns(table.turnPtr, e, t);
    RowAt(r, table, inEdge, t);
    forall t, u | IsTurn(table, inEdge, t, e, f) && IsTurn(table, inEdge, u, e, f) ensures t == u {
      RowAt(r, table, inEdge, t);
      RowAt(r, table, inEdge, u);
    }
  }
}
