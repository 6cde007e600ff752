// What a departure makes of a turn (compute_costs in pyref/costs.py): its
// control delay, its safety penalty, whether it counts as unsafe and how it is
// painted, and that the sweep may search with the result.
module Costs {
  import opened Topology
  import opened Search
  import opened Alternatives
  import Crossing
  import Router
  import Tradeoffs
  import Turns

  datatype UnsafeType = UNSAFE_NONE | UNSAFE_LEFT | UNSAFE_CROSSING
  datatype Tier = TIER_SAFE | TIER_CAUTION | TIER_UNSAFE

  datatype Tuning = Tuning(wVol: real, volMax: real, scale: real, uturnPenalty: real,
                           tauCaution: real, tauUnsafe: real, capS: real, exp: real -> real) {
    // Nothing is scaled or waited for by a negative amount.
    ghost predicate Valid() {
      0.0 <= scale && 0.0 <= uturnPenalty && 0.0 <= capS && tauCaution <= tauUnsafe
    }
  }

  // The (pack, config)-only half of one turn's costs. `gap` is its critical
  // gap and the approaches whose flow it must clear.
  datatype Statics = Statics(rawBase: real, medTerm: real, protected: bool, controlMult: real, guessedMult: real,
                             isUturn: bool, isLeft: bool, observed: bool, ctrlNone: bool, unprotectedApproach: bool,
                             delayFixed: real, gap: Option<(real, seq<nat>)>)

  // ------------------------------------------------------------ the delay

  const EXP_X_MAX := 50.0

  function Min(x: real, y: real): real { if x < y then x else y }

  function Max(x: real, y: real): real { if x < y then y else x }

  // Adams' gap wait, capped: (exp(q*t) - q*t - 1) / q, and 0 where q is 0.
  function AdamsDelay(c: Tuning, q: real, t: real): real {
    var x := Min(q * t, EXP_X_MAX);
    var num := Max(c.exp(x) - x - 1.0, 0.0);
    Min(if q > 0.0 then num / q else 0.0, c.capS)
  }

  // Flow on the legs; the sentinel edge past the last one carries none.
  function FlowSum(flow: seq<real>, legs: seq<nat>): real {
    if legs == [] then 0.0
    else
      var n := |legs| - 1;
      FlowSum(flow, legs[..n]) + if legs[n] < |flow| then flow[legs[n]] else 0.0
  }

  function Pad(legs: seq<nat>, sentinel: nat, n: nat): seq<nat> { legs + seq(n, _ => sentinel) }

  // Padding with the sentinel adds nothing: a repeated leg would count twice.
  lemma {:induction false} SentinelAddsNothing(flow: seq<real>, legs: seq<nat>, n: nat)
    ensures FlowSum(flow, Pad(legs, |flow|, n)) == FlowSum(flow, legs)
  {
    if n > 0 {
      SentinelAddsNothing(flow, legs, n - 1);
      var p := Pad(legs, |flow|, n);
      assert p[..|p| - 1] == Pad(legs, |flow|, n - 1);
    } else {
      assert Pad(legs, |flow|, 0) == legs;
    }
  }

  lemma {:induction false} FlowSumNonNegative(flow: seq<real>, legs: seq<nat>)
    requires forall e :: 0 <= e < |flow| ==> 0.0 <= flow[e]
    ensures 0.0 <= FlowSum(flow, legs)
  {
    if legs != [] { FlowSumNonNegative(flow, legs[..|legs| - 1]); }
  }

  function ControlDelay(c: Tuning, s: Statics, flow: seq<real>): real {
    s.delayFixed + if s.gap.Some? then AdamsDelay(c, FlowSum(flow, s.gap.value.1) / 3600.0, s.gap.value.0) else 0.0
  }

  // A wait is never negative, and the gap wait never above its cap.
  lemma DelayBounds(c: Tuning, s: Statics, flow: seq<real>)
    requires c.Valid() && forall e :: 0 <= e < |flow| ==> 0.0 <= flow[e]
    ensures s.delayFixed <= ControlDelay(c, s, flow) <= s.delayFixed + c.capS
  {
    if s.gap.Some? {
      FlowSumNonNegative(flow, s.gap.value.1);
      AdamsBounds(c, FlowSum(flow, s.gap.value.1) / 3600.0, s.gap.value.0);
    }
  }

  lemma AdamsBounds(c: Tuning, q: real, t: real)
    requires 0.0 <= c.capS
    ensures 0.0 <= AdamsDelay(c, q, t) <= c.capS
  {
    var x := Min(q * t, EXP_X_MAX);
    var num := Max(c.exp(x) - x - 1.0, 0.0);
    if q > 0.0 {
      var w := num / q;
      assert w * q == num;
      assert w < 0.0 ==> w * q < 0.0;
    }
  }

  // Without flow nobody waits for a gap. With it, the wait is Adams' up to the
  // cap: times the flow, it is what the exponential has over its tangent.
  lemma GapWait(c: Tuning, q: real, t: real)
    requires 0.0 <= c.capS
    ensures q <= 0.0 ==> AdamsDelay(c, q, t) == 0.0
    ensures var x := if q * t < 50.0 then q * t else 50.0;
            var over := c.exp(x) - x - 1.0;
            && (0.0 < q && over <= 0.0 ==> AdamsDelay(c, q, t) == 0.0)
            && (0.0 < q && 0.0 <= over <= c.capS * q ==> AdamsDelay(c, q, t) * q == over)
            && (0.0 < q && c.capS * q <= over ==> AdamsDelay(c, q, t) == c.capS)
  {
    var x := Min(q * t, EXP_X_MAX);
    var num := Max(c.exp(x) - x - 1.0, 0.0);
    if q > 0.0 { Quotient(num, q, c.capS); }
  }

  // A turn waits its fixed time and, for q vehicles a second on the legs it must
  // clear, so long for a gap.
  lemma {:induction false} TurnWait(c: Tuning, s: Statics, flow: seq<real>, q: real)
    requires 0.0 <= c.capS && s.gap.Some? && 3600.0 * q == FlowSum(flow, s.gap.value.1)
    ensures var wait, x := ControlDelay(c, s, flow) - s.delayFixed, q * s.gap.value.0;
            var e := if x < 50.0 then x else 50.0;
            var over := c.exp(e) - 1.0 - e;
            && (q <= 0.0 || over <= 0.0 ==> wait == 0.0)
            && (0.0 < q && 0.0 <= over <= c.capS * q ==> wait * q == over)
            && (0.0 < q && c.capS * q <= over ==> wait == c.capS)
  {
    GapWait(c, q, s.gap.value.0);
    hide AdamsDelay, FlowSum;
    assert FlowSum(flow, s.gap.value.1) / 3600.0 == q;
  }

  lemma Quotient(x: real, y: real, cap: real)
    requires 0.0 < y && 0.0 <= x
    ensures (x / y) * y == x && (x / y <= cap <==> x <= cap * y) && (x / y >= cap <==> x >= cap * y)
    ensures x == 0.0 ==> x / y == 0.0
  {
    var w := x / y;
    assert w * y == x;
    assert (cap - w) * y == cap * y - x;
    assert cap - w > 0.0 ==> (cap - w) * y > 0.0;
    assert cap - w < 0.0 ==> (cap - w) * y < 0.0;
  }

  // The flow is summed over every leg that is an edge, as often as it is
  // listed.
  lemma {:induction false} FlowOfLegs(flow: seq<real>, legs: seq<nat>, e: nat)
    ensures FlowSum(flow, legs + [e]) == FlowSum(flow, legs) + if e < |flow| then flow[e] else 0.0
    ensures FlowSum(flow, []) == 0.0
  {
    assert (legs + [e])[..|legs|] == legs;
  }

  // ---------------------------------------------------------- the penalty

  function Norm(x: real, cap: real): real
    requires cap > 0.0
  {
    Max(0.0, Min(x / cap, 1.0))
  }

  function Raw(c: Tuning, s: Statics, volume: real): real
    requires c.volMax > 0.0
  {
    var raw := s.rawBase + c.wVol * Norm(volume, c.volMax) - s.medTerm;
    (if s.protected then 0.0 else raw) * s.controlMult * s.guessedMult
  }

  function Penalty(c: Tuning, s: Statics, raw: real): real {
    c.scale * Max(raw, 0.0) + if s.isUturn then c.uturnPenalty else 0.0
  }

  function Unsafe(c: Tuning, s: Statics, raw: real, outBusy: bool, outMajor: bool, crossing: bool): UnsafeType {
    var overTau := raw >= c.tauUnsafe;
    if s.isLeft && s.observed && overTau && ((s.ctrlNone && outBusy) || (s.unprotectedApproach && outMajor)) then UNSAFE_LEFT
    else if crossing then UNSAFE_CROSSING else UNSAFE_NONE
  }

  function Paint(c: Tuning, s: Statics, raw: real): Tier {
    var tier := if raw >= c.tauUnsafe then TIER_UNSAFE else if raw >= c.tauCaution then TIER_CAUTION else TIER_SAFE;
    if tier == TIER_UNSAFE && !s.observed then TIER_CAUTION else tier
  }

  // More traffic never makes a turn less of a risk, and past the maximum, or
  // below none, it makes no difference; a protected turn is none.
  lemma RiskOfTraffic(c: Tuning, s: Statics, low: real, high: real)
    requires c.volMax > 0.0 && 0.0 <= c.wVol && 0.0 <= s.controlMult && 0.0 <= s.guessedMult && low <= high
    ensures Raw(c, s, low) <= Raw(c, s, high)
    ensures high <= 0.0 || c.volMax <= low ==> Raw(c, s, low) == Raw(c, s, high)
    ensures s.protected ==> Raw(c, s, low) == 0.0
    ensures !s.protected && low <= 0.0 && c.volMax <= high ==>
              Raw(c, s, low) == (s.rawBase - s.medTerm) * s.controlMult * s.guessedMult
              && Raw(c, s, high) == (s.rawBase + c.wVol - s.medTerm) * s.controlMult * s.guessedMult
  {
    hide Norm, Raw, Weighted;
    NormRises(low, high, c.volMax);
    Scales(c.wVol, Norm(low, c.volMax), Norm(high, c.volMax));
    RawIs(c, s, low);
    RawIs(c, s, high);
    var a, b := c.wVol * Norm(low, c.volMax), c.wVol * Norm(high, c.volMax);
    var x, y := s.rawBase + a - s.medTerm, s.rawBase + b - s.medTerm;
    assert a <= b;
    WeighsMore(x, y, s);
    WeighsMore(0.0, 0.0, s);
    assert !s.protected && low <= 0.0 ==> x == s.rawBase - s.medTerm;
    assert !s.protected && c.volMax <= high ==> y == s.rawBase + c.wVol - s.medTerm;
  }

  function Weighted(x: real, s: Statics): real { x * s.controlMult * s.guessedMult }

  lemma RawIs(c: Tuning, s: Statics, volume: real)
    requires c.volMax > 0.0
    ensures Raw(c, s, volume)
         == Weighted(if s.protected then 0.0 else s.rawBase + c.wVol * Norm(volume, c.volMax) - s.medTerm, s)
  {
    hide Norm;
  }

  lemma WeighsMore(x: real, y: real, s: Statics)
    requires 0.0 <= s.controlMult && 0.0 <= s.guessedMult && x <= y
    ensures Weighted(x, s) <= Weighted(y, s) && Weighted(0.0, s) == 0.0
    ensures Weighted(x, s) == x * s.controlMult * s.guessedMult && Weighted(y, s) == y * s.controlMult * s.guessedMult
  {
    Scales(s.controlMult, x, y);
    Scales(s.guessedMult, x * s.controlMult, y * s.controlMult);
  }

  lemma Scales(f: real, x: real, y: real)
    requires 0.0 <= f && x <= y
    ensures f * x <= f * y && x * f <= y * f
  {
    assert f * (y - x) >= 0.0;
  }

  // A share of the maximum, from none to all of it.
  lemma NormIs(x: real, cap: real)
    requires cap > 0.0
    ensures x <= 0.0 ==> Norm(x, cap) == 0.0
    ensures 0.0 <= x <= cap ==> Times(Norm(x, cap), cap) == x
    ensures cap <= x ==> Norm(x, cap) == 1.0
    ensures 0.0 <= Norm(x, cap) <= 1.0
  {
    ShareIs(x, cap);
    hide Times;
  }

  function Times(x: real, y: real): real { x * y }

  lemma ShareIs(x: real, cap: real)
    requires cap > 0.0
    ensures Times(x / cap, cap) == x
    ensures (x / cap < 0.0 <==> x < 0.0) && (x / cap < 1.0 <==> x < cap)
    ensures (0.0 < x / cap <==> 0.0 < x) && (1.0 < x / cap <==> cap < x)
  {
    assert x / cap * cap == x;
    ShareBy(x / cap, x, cap);
  }

  lemma ShareBy(w: real, x: real, cap: real)
    requires cap > 0.0 && w * cap == x
    ensures (w < 0.0 <==> x < 0.0) && (w < 1.0 <==> x < cap) && (0.0 < w <==> 0.0 < x) && (1.0 < w <==> cap < x)
  {
    assert 0.0 * cap == 0.0 && 1.0 * cap == cap;
    Cancels(w, 0.0, cap);
    Cancels(w, 1.0, cap);
    Cancels(0.0, w, cap);
    Cancels(1.0, w, cap);
  }

  lemma Cancels(x: real, y: real, cap: real)
    requires cap > 0.0
    ensures x < y <==> x * cap < y * cap
  {
    var d := y - x;
    assert d * cap == y * cap - x * cap;
    assert d > 0.0 ==> d * cap > 0.0;
    assert d <= 0.0 ==> (-d) * cap >= 0.0;
  }

  lemma NormRises(low: real, high: real, cap: real)
    requires cap > 0.0 && low <= high
    ensures 0.0 <= Norm(low, cap) <= Norm(high, cap) <= 1.0
    ensures (low <= 0.0 ==> Norm(low, cap) == 0.0) && (high <= 0.0 ==> Norm(high, cap) == 0.0)
    ensures (cap <= low ==> Norm(low, cap) == 1.0) && (cap <= high ==> Norm(high, cap) == 1.0)
  {
    NormIs(low, cap);
    NormIs(high, cap);
    CancelTimes(Norm(high, cap), Norm(low, cap), cap);
    hide Norm, Times;
  }

  lemma CancelTimes(x: real, y: real, cap: real)
    requires cap > 0.0
    ensures x < y <==> Times(x, cap) < Times(y, cap)
  {
    Cancels(x, y, cap);
  }

  // A turn pays for its risk in proportion, nothing for having none, and for a
  // U-turn its own price on top.
  lemma PenaltyOfRisk(c: Tuning, s: Statics, raw: real, more: real)
    requires raw >= 0.0 && more >= 0.0
    ensures Penalty(c, s, raw + more) - Penalty(c, s, raw) == c.scale * more
    ensures Penalty(c, s, -more) == if s.isUturn then c.uturnPenalty else 0.0
  {
    assert c.scale * (raw + more) == c.scale * raw + c.scale * more;
    assert Max(-more, 0.0) == 0.0;
  }

  // Red is what was observed to reach the upper band, green what stays below
  // the lower one.
  lemma PaintIs(c: Tuning, s: Statics, raw: real)
    requires c.Valid()
    ensures Paint(c, s, raw) == TIER_UNSAFE <==> c.tauUnsafe <= raw && s.observed
    ensures Paint(c, s, raw) == TIER_SAFE <==> raw < c.tauCaution
  {
  }

  // The flags of a turn's statics, as the pack's streets have them: the
  // control is the one faced where the turn comes in.
  ghost predicate ReadOff(st: Crossing.Streets, t: nat, s: Statics)
    requires st.Valid() && st.HasRow(t)
  {
    var ctrl := Crossing.Governs(st, t);
    && s.observed == st.observed[st.inEdge[t]]
    && (s.protected <==> ctrl == Crossing.SIGNAL_PROTECTED || ctrl == Crossing.ROUNDABOUT)
    && (s.isLeft <==> st.table.maneuver[t] == Turns.LEFT) && (s.isUturn <==> st.table.maneuver[t] == Turns.UTURN)
    && (s.ctrlNone <==> ctrl == Crossing.NONE)
    && (s.unprotectedApproach <==> (ctrl == Crossing.STOP_2WAY || ctrl == Crossing.YIELD) && st.mustStop[st.inEdge[t]])
  }

  // The crossing flag, as CrossingFlags computes it.
  predicate Crosses(st: Crossing.Streets, overTau: bool, busy: seq<bool>, major: seq<bool>, t: nat)
    requires st.HasRow(t) && |busy| == |major| == |st.r.edges|
    requires |st.control| == |st.r.edges| == |st.observed| == |st.mustStop|
  {
    overTau && (|| (Crossing.BusyGate(st, t) && Crossing.Oracle(st, busy, t))
                || (Crossing.MajorGate(st, t) && Crossing.Oracle(st, major, t)))
  }

  // A left turn nobody is held back for: from an approach whose control was
  // observed, into a busy road when there is no control, into a major one when
  // it must stop or yield.
  ghost predicate UnprotectedLeft(st: Crossing.Streets, busy: seq<bool>, major: seq<bool>, t: nat)
    requires st.HasRow(t) && |busy| == |major| == |st.r.edges|
    requires |st.control| == |st.r.edges| == |st.observed| == |st.mustStop|
  {
    var e, f := st.inEdge[t], st.table.outEdge[t];
    && st.table.maneuver[t] == Turns.LEFT && st.observed[e] && f < |busy|
    && (|| (st.control[e] == Crossing.NONE && busy[f])
        || (st.control[e] in {Crossing.STOP_2WAY, Crossing.YIELD} && st.mustStop[e] && major[f]))
  }

  // What a turn counts as, with busy and major roads as they are now.
  function Counted(c: Tuning, st: Crossing.Streets, t: nat, s: Statics, raw: real, busy: seq<bool>,
                   major: seq<bool>): UnsafeType
    requires st.HasRow(t) && |busy| == |major| == |st.r.edges| && st.table.outEdge[t] < |busy|
    requires |st.control| == |st.r.edges| == |st.observed| == |st.mustStop|
  {
    var out := st.table.outEdge[t];
    Unsafe(c, s, raw, busy[out], major[out], Crosses(st, raw >= c.tauUnsafe, busy, major, t))
  }

  // The count and the map tell the same story: what counts as unsafe faces an
  // observed control that holds nobody back for it, is painted red and pays
  // for it. A left turn is never counted as a crossing, nor a crossing as a
  // left turn.
  lemma FlaggedIsRed(c: Tuning, st: Crossing.Streets, t: nat, s: Statics, volume: real, busy: seq<bool>,
                     major: seq<bool>)
    requires c.Valid() && c.volMax > 0.0 && c.tauUnsafe > 0.0
    requires st.Valid() && st.HasRow(t) && ReadOff(st, t, s) && |busy| == |major| == |st.r.edges|
    ensures st.table.outEdge[t] < |busy|
    ensures var raw, ctrl := Raw(c, s, volume), Crossing.Governs(st, t);
            var kind := Counted(c, st, t, s, raw, busy, major);
            && (kind != UNSAFE_NONE ==>
                  && st.observed[st.inEdge[t]] && Paint(c, s, raw) == TIER_UNSAFE && raw >= c.tauUnsafe
                  && (|| ctrl == Crossing.NONE
                      || ((ctrl == Crossing.STOP_2WAY || ctrl == Crossing.YIELD) && st.mustStop[st.inEdge[t]]))
                  && c.scale * c.tauUnsafe <= Penalty(c, s, raw))
            && (kind == UNSAFE_CROSSING <==> raw >= c.tauUnsafe && Crossing.Uncontrolled(st, busy, major, t))
            && (kind == UNSAFE_LEFT <==> raw >= c.tauUnsafe && UnprotectedLeft(st, busy, major, t))
            && (kind == UNSAFE_CROSSING ==> st.table.maneuver[t] == Turns.STRAIGHT)
            && (kind == UNSAFE_LEFT ==> st.table.maneuver[t] == Turns.LEFT)
  {
    var raw := Raw(c, s, volume);
    if raw >= c.tauUnsafe { assert c.scale * (raw - c.tauUnsafe) >= 0.0; }
    Crossing.GatesAre(st, busy, major, t);
    hide Crossing.Oracle, Crossing.CrossesSome, Raw;
  }

  // ------------------------------------------------ what the sweep is given

  // One departure: the roads as they are driven now, and each turn's statics
  // and conflicting flow.
  datatype Departure = Departure(roads: Tradeoffs.Roads, c: Tuning, statics: seq<Statics>, flow: seq<real>,
                                 raw: seq<real>) {
    ghost predicate Valid() {
      && roads.Valid() && c.Valid() && |statics| == |raw| == roads.topo.Turns()
      && (forall e :: 0 <= e < |flow| ==> 0.0 <= flow[e])
      && (forall t :: 0 <= t < |statics| ==> 0.0 <= statics[t].delayFixed)
    }

    // turn_time_s: the target edge's time plus the turn's delay.
    function TurnTime(t: nat): real
      requires roads.Valid() && |statics| == roads.topo.Turns() && t < |statics|
    {
      roads.EdgeTime(roads.topo.outEdge[t]) + ControlDelay(c, statics[t], flow)
    }
  }

  // A departure's costs meet everything the sweep assumes: times and
  // penalties are not negative, and the heuristic is consistent.
  lemma FitsTheSweep(d: Departure, p: Problem, dest: int)
    requires d.Valid() && p.q.Valid() && Exact(p.q) && p.cfg.Valid()
    requires p.q.topo == d.roads.topo && p.q.h == Some(d.roads.Heuristic(dest))
    requires |p.penalty| == |p.flagged| == p.q.topo.Turns()
    requires forall t: nat :: t < p.q.topo.Turns() ==>
               p.q.arc[t] == d.TurnTime(t) && p.penalty[t] == Penalty(d.c, d.statics[t], d.raw[t])
    requires forall i, j :: 0 <= i < j < |p.q.seeds| ==> p.q.seeds[i].edge != p.q.seeds[j].edge
    ensures p.Valid()
  {
    forall t: nat | t < p.q.topo.Turns()
      ensures d.roads.EdgeTime(p.q.topo.outEdge[t]) <= p.q.arc[t] && 0.0 <= p.q.arc[t] && 0.0 <= p.penalty[t] {
      DelayBounds(d.c, d.statics[t], d.flow);
      PenaltyNonNegative(d.c, d.statics[t], d.raw[t]);
      TimeNonNegative(d.roads, p.q.topo.outEdge[t]);
    }
    hide Departure.TurnTime, Penalty, ControlDelay, Tradeoffs.Roads.EdgeTime, Tradeoffs.Roads.Valid, Tradeoffs.Roads.Heuristic;
    Tradeoffs.HeuristicConsistent(d.roads, p.q, dest);
  }

  // The network of a departure, as the facade is given it.
  function NetworkOf(d: Departure, counted: seq<UnsafeType>, cfg: Config): Router.Network
    requires d.Valid() && |counted| == d.roads.topo.Turns()
  {
    Router.Network(d.roads.topo,
                   seq(d.roads.topo.Edges(), e requires 0 <= e < d.roads.topo.Edges() => d.roads.EdgeTime(e)),
                   seq(|d.statics|, t requires 0 <= t < |d.statics| => ControlDelay(d.c, d.statics[t], d.flow)),
                   seq(|d.statics|, t requires 0 <= t < |d.statics| => Penalty(d.c, d.statics[t], d.raw[t])),
                   seq(|counted|, t requires 0 <= t < |counted| => counted[t] != UNSAFE_NONE), cfg)
  }

  // Any query between any snaps, posed on a departure with the straight-line
  // heuristic, is one the facade may serve.
  lemma DeparturesCanBeServed(d: Departure, counted: seq<UnsafeType>, cfg: Config, origins: seq<Router.Snap>,
                              dests: seq<Router.Snap>, dest: int)
    requires d.Valid() && |counted| == d.roads.topo.Turns() && cfg.Valid()
    requires Router.SnapsOn(NetworkOf(d, counted, cfg), origins) && Router.SnapsOn(NetworkOf(d, counted, cfg), dests)
    ensures NetworkOf(d, counted, cfg).Valid()
    ensures forall t: nat :: t < |counted| ==>
              (NetworkOf(d, counted, cfg).flagged[t] <==> counted[t] == UNSAFE_LEFT || counted[t] == UNSAFE_CROSSING)
    ensures Router.Pose(NetworkOf(d, counted, cfg), origins, dests, Some(d.roads.Heuristic(dest))).Valid()
  {
    var net, h := NetworkOf(d, counted, cfg), Some(d.roads.Heuristic(dest));
    NetworkIsValid(d, counted, cfg);
    var p := Router.Pose(net, origins, dests, h);
    Router.PosedQuery(net, origins, dests, h);
    forall t: nat | t < p.q.topo.Turns()
      ensures p.q.arc[t] == d.TurnTime(t) && p.penalty[t] == Penalty(d.c, d.statics[t], d.raw[t]) {
      Router.TurnTimeAt(net, t);
    }
    hide Departure.Valid, Router.Network.Valid, Router.Pose, Problem.Valid, ControlDelay, Penalty, Departure.TurnTime,
         Tradeoffs.Roads.EdgeTime, Router.Network.TurnTime;
    FitsTheSweep(d, p, dest);
  }

  lemma NetworkIsValid(d: Departure, counted: seq<UnsafeType>, cfg: Config)
    requires d.Valid() && |counted| == d.roads.topo.Turns() && cfg.Valid()
    ensures NetworkOf(d, counted, cfg).Valid()
  {
    forall e: nat | e < d.roads.topo.Edges() ensures 0.0 <= d.roads.EdgeTime(e) { TimeNonNegative(d.roads, e); }
    forall t: nat | t < |d.statics|
      ensures 0.0 <= ControlDelay(d.c, d.statics[t], d.flow) && 0.0 <= Penalty(d.c, d.statics[t], d.raw[t]) {
      DelayBounds(d.c, d.statics[t], d.flow);
      PenaltyNonNegative(d.c, d.statics[t], d.raw[t]);
    }
    hide ControlDelay, Penalty, Tradeoffs.Roads.EdgeTime;
  }

  lemma PenaltyNonNegative(c: Tuning, s: Statics, raw: real)
    requires c.Valid()
    ensures 0.0 <= Penalty(c, s, raw)
  {
    assert c.scale * Max(raw, 0.0) >= 0.0;
  }

  lemma TimeNonNegative(r: Tradeoffs.Roads, e: nat)
    requires r.Valid() && e < r.topo.Edges()
    ensures 0.0 <= r.EdgeTime(e)
  {
    assert r.Edge(e);
    var x, v := r.EdgeTime(e), r.Speed(e);
    assert x * v == r.length[e];
    assert x < 0.0 ==> x * v < 0.0;
  }
}
