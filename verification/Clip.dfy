// clipArtifact (web/lib/tracePrivacy.ts): the artifact cut to its longest
// stretch away from the trip's private points and its own two ends.
module Clip {
  import opened Topology
  import opened TraceTypes

  const EPS_M := 0.000001

  datatype Sample = Sample(at: Place, s: real, clear: bool)

  function Ceil(x: real): int { -((-x).Floor) }

  // ------------------------------------------------------------ the line

  // Along-line distance of every vertex.
  function Cumulative(env: Env, coords: seq<Place>): (cum: seq<real>)
    ensures |cum| == if coords == [] then 1 else |coords|
  {
    if |coords| <= 1 then [0.0]
    else
      var before := Cumulative(env, coords[..|coords| - 1]);
      before + [before[|before| - 1] + env.dist(coords[|coords| - 2], coords[|coords| - 1])]
  }

  function Steps(length: real): (n: nat)
    ensures n >= 1
  {
    if Ceil(length) > 1 then Ceil(length) else 1
  }

  function Between(p: Place, q: Place, u: real): Place {
    Place(p.lat + u * (q.lat - p.lat), p.lon + u * (q.lon - p.lon))
  }

  function SampleAt(env: Env, coords: seq<Place>, cum: seq<real>, centers: seq<Anchor>, i: nat, k: nat): Sample
    requires i + 1 < |coords| == |cum|
  {
    var length := cum[i + 1] - cum[i];
    var u := k as real / Steps(length) as real;
    var at := if k == 0 then coords[i] else Between(coords[i], coords[i + 1], u);
    Sample(at, if k == 0 then cum[i] else cum[i] + u * length, env.PlaceClear(at, centers))
  }

  // The first k samples of segment i: its start vertex, then points along it.
  function SegmentSamples(env: Env, coords: seq<Place>, cum: seq<real>, centers: seq<Anchor>, i: nat, k: nat)
    : (r: seq<Sample>)
    requires i + 1 < |coords| == |cum|
    ensures |r| == k
  {
    seq(k, j requires 0 <= j < k => SampleAt(env, coords, cum, centers, i, j))
  }

  // Every sample of the first n segments.
  function SamplesTo(env: Env, coords: seq<Place>, cum: seq<real>, centers: seq<Anchor>, n: nat): seq<Sample>
    requires n < |coords| == |cum|
  {
    if n == 0 then []
    else
      SamplesTo(env, coords, cum, centers, n - 1)
      + SegmentSamples(env, coords, cum, centers, n - 1, Steps(cum[n] - cum[n - 1]))
  }

  function LastSample(env: Env, coords: seq<Place>, cum: seq<real>, centers: seq<Anchor>): Sample
    requires coords != [] && |coords| == |cum|
  {
    var p := coords[|coords| - 1];
    Sample(p, cum[|cum| - 1], env.PlaceClear(p, centers))
  }

  function Samples(env: Env, coords: seq<Place>, centers: seq<Anchor>): seq<Sample>
    requires coords != []
  {
    var cum := Cumulative(env, coords);
    SamplesTo(env, coords, cum, centers, |coords| - 1) + [LastSample(env, coords, cum, centers)]
  }

  // ------------------------------------------------------ the longest run

  predicate ClearAt(samples: seq<Sample>, k: int) { 0 <= k < |samples| && samples[k].clear }

  ghost predicate AllClear(samples: seq<Sample>, i: nat, j: nat) {
    i <= j < |samples| && forall k :: i <= k <= j ==> ClearAt(samples, k)
  }

  // A stretch of consecutive clear samples that cannot be extended.
  ghost predicate Run(samples: seq<Sample>, i: nat, j: nat) {
    AllClear(samples, i, j) && !ClearAt(samples, i - 1) && !ClearAt(samples, j + 1)
  }

  function Length(samples: seq<Sample>, i: nat, j: nat): real
    requires i < |samples| && j < |samples|
  {
    samples[j].s - samples[i].s
  }

  // The longest run of at least two samples among those starting below
  // `upto`; the first of equals.
  ghost predicate IsBest(samples: seq<Sample>, upto: nat, i: nat, j: nat) {
    && i < j && i < upto && Run(samples, i, j)
    && forall i', j' :: 0 <= i' < j' && i' < upto && Run(samples, i', j') ==>
         Length(samples, i', j') < Length(samples, i, j) || (Length(samples, i', j') == Length(samples, i, j) && i <= i')
  }

  ghost predicate NoRun(samples: seq<Sample>, upto: nat) {
    forall i: nat, j: nat :: i < j && i < upto ==> !Run(samples, i, j)
  }

  lemma BestUnique(samples: seq<Sample>, i: nat, j: nat, i': nat, j': nat)
    requires IsBest(samples, |samples|, i, j) && IsBest(samples, |samples|, i', j')
    ensures i == i' && j == j'
  {
    assert i == i';
  }

  method LongestRun(samples: seq<Sample>) returns (best: Option<(nat, nat)>)
    ensures best.None? ==> NoRun(samples, |samples|)
    ensures best.Some? ==> IsBest(samples, |samples|, best.value.0, best.value.1)
  {
    best := None;
    var i := 0;
    while i < |samples|
      invariant 0 <= i <= |samples|
      invariant ClearAt(samples, i) ==> !ClearAt(samples, i - 1)
      invariant best.None? ==> NoRun(samples, i)
      invariant best.Some? ==> IsBest(samples, i, best.value.0, best.value.1)
    {
      if !samples[i].clear {
        i := i + 1;
        continue;
      }
      var j := i;
      while j + 1 < |samples| && samples[j + 1].clear
        invariant i <= j < |samples| && AllClear(samples, i, j)
      {
        j := j + 1;
      }
      assert Run(samples, i, j);
      RunsFrom(samples, i, j);
      if j > i && (best.None? || Length(samples, i, j) > Length(samples, best.value.0, best.value.1)) {
        best := Some((i, j));
      }
      i := j + 1;
    }
  }

  // No other run starts inside a run.
  lemma RunsFrom(samples: seq<Sample>, i: nat, j: nat)
    requires Run(samples, i, j)
    ensures forall i': nat, j': nat :: i <= i' <= j && Run(samples, i', j') ==> i' == i && j' == j
  {
  }

  // With positions that never go back, nothing clear anywhere on the line is
  // longer than the stretch kept.
  lemma NothingLonger(samples: seq<Sample>, i: nat, j: nat, a: nat, b: nat)
    requires IsBest(samples, |samples|, i, j) && a < b && AllClear(samples, a, b)
    requires forall k, l :: 0 <= k <= l < |samples| ==> samples[k].s <= samples[l].s
    ensures Length(samples, a, b) <= Length(samples, i, j)
  {
    var a': nat, b': nat := a, b;
    while a' > 0 && samples[a' - 1].clear
      invariant a' <= a && AllClear(samples, a', b)
    {
      a' := a' - 1;
    }
    while b' + 1 < |samples| && samples[b' + 1].clear
      invariant b <= b' < |samples| && AllClear(samples, a', b')
      decreases |samples| - b'
    {
      b' := b' + 1;
    }
    assert Run(samples, a', b');
  }

  // ------------------------------------------------------------ the cut

  predicate Inside(x: real, a: real, b: real) { a + EPS_M < x < b - EPS_M }

  // The vertices strictly between the cuts.
  function Inner(coords: seq<Place>, at: seq<real>, a: real, b: real): (r: seq<Place>)
    requires |coords| == |at|
  {
    if coords == [] then []
    else
      var n := |coords| - 1;
      Inner(coords[..n], at[..n], a, b) + if Inside(at[n], a, b) then [coords[n]] else []
  }

  function FirstInner(at: seq<real>, a: real, b: real): (r: Option<nat>)
    ensures r.Some? ==> r.value < |at| && Inside(at[r.value], a, b)
    ensures forall k :: 0 <= k < (if r.Some? then r.value else |at|) ==> !Inside(at[k], a, b)
  {
    if at == [] then None
    else
      var n := |at| - 1;
      var r := FirstInner(at[..n], a, b);
      if r.Some? then r else if Inside(at[n], a, b) then Some(n) else None
  }

  predicate AllPlacesClear(env: Env, coords: seq<Place>, centers: seq<Anchor>) {
    forall k :: 0 <= k < |coords| ==> env.PlaceClear(coords[k], centers)
  }

  datatype Cuts = Cuts(a: real, b: real, cutA: Place, cutB: Place)

  function Shifted(xs: seq<real>, d: real): (r: seq<real>)
    ensures |r| == |xs|
  {
    seq(|xs|, k requires 0 <= k < |xs| => xs[k] + d)
  }

  // One per-edge piece, starting `segStart` along the line: None when it is
  // outside the stretch or not clear throughout.
  function SegmentCut(env: Env, sc: seq<Place>, segStart: real, c: Cuts, centers: seq<Anchor>): (r: Option<seq<Place>>)
    ensures r.Some? ==> AllPlacesClear(env, r.value, centers)
  {
    var scum := Shifted(Cumulative(env, sc), segStart);
    var s0, s1 := scum[0], scum[|scum| - 1];
    if |sc| < 2 || s1 <= c.a + EPS_M || s0 >= c.b - EPS_M then None
    else
      var n := |sc| - 1;
      var out := [if s0 < c.a - EPS_M then c.cutA else sc[0]] + Inner(sc[1..n], scum[1..n], c.a, c.b)
                 + [if s1 > c.b + EPS_M then c.cutB else sc[n]];
      if AllPlacesClear(env, out, centers) then Some(out) else None
  }

  function PolyLength(env: Env, coords: seq<Place>): real {
    var cum := Cumulative(env, coords);
    cum[|cum| - 1]
  }

  // The pieces tile the line, the first starting at 0.
  function SegmentsEnd(env: Env, segments: seq<seq<Place>>): real {
    if segments == [] then 0.0
    else
      var n := |segments| - 1;
      SegmentsEnd(env, segments[..n]) + PolyLength(env, segments[n])
  }

  function SegmentsCut(env: Env, segments: seq<seq<Place>>, c: Cuts, centers: seq<Anchor>): (r: seq<seq<Place>>)
    ensures forall k :: 0 <= k < |r| ==> AllPlacesClear(env, r[k], centers)
  {
    if segments == [] then []
    else
      var n := |segments| - 1;
      var cut := SegmentCut(env, segments[n], SegmentsEnd(env, segments[..n]), c, centers);
      SegmentsCut(env, segments[..n], c, centers) + if cut.Some? then [cut.value] else []
  }

  predicate ManeuverStays(env: Env, m: Maneuver, c: Cuts, centers: seq<Anchor>) {
    c.a - EPS_M <= m.offset <= c.b + EPS_M && env.PlaceClear(m.at, centers)
  }

  function ManeuversCut(env: Env, ms: seq<Maneuver>, c: Cuts, shift: real, centers: seq<Anchor>): (r: seq<Maneuver>)
    ensures forall k :: 0 <= k < |r| ==> env.PlaceClear(r[k].at, centers)
  {
    if ms == [] then []
    else
      var n := |ms| - 1;
      var m := ms[n];
      ManeuversCut(env, ms[..n], c, shift, centers)
      + if ManeuverStays(env, m, c, centers) then [m.(offset := if m.offset - shift > 0.0 then m.offset - shift else 0.0)]
        else []
  }

  // Unsafe points carry no offset: each is placed at its nearest sample.
  function Nearest(env: Env, samples: seq<Sample>, u: Place): (r: Sample)
    requires samples != []
    ensures r in samples
    ensures forall k :: 0 <= k < |samples| ==> env.dist(r.at, u) <= env.dist(samples[k].at, u)
  {
    var n := |samples| - 1;
    if n == 0 then samples[0]
    else
      var r := Nearest(env, samples[..n], u);
      if env.dist(samples[n].at, u) < env.dist(r.at, u) then samples[n] else r
  }

  function UnsafeCut(env: Env, us: seq<Place>, samples: seq<Sample>, c: Cuts, centers: seq<Anchor>): (r: seq<Place>)
    requires samples != []
    ensures AllPlacesClear(env, r, centers)
  {
    if us == [] then []
    else
      var n := |us| - 1;
      UnsafeCut(env, us[..n], samples, c, centers)
      + if env.PlaceClear(us[n], centers) && c.a <= Nearest(env, samples, us[n]).s <= c.b then [us[n]] else []
  }

  // The first of the samples nearest to u.
  ghost predicate NearestAt(env: Env, samples: seq<Sample>, u: Place, m: nat) {
    && m < |samples| && (forall k :: 0 <= k < |samples| ==> env.dist(samples[m].at, u) <= env.dist(samples[k].at, u))
    && forall k :: 0 <= k < m ==> env.dist(samples[m].at, u) < env.dist(samples[k].at, u)
  }

  lemma {:induction false} NearestIs(env: Env, samples: seq<Sample>, u: Place) returns (m: nat)
    requires samples != []
    ensures NearestAt(env, samples, u, m) && samples[m] == Nearest(env, samples, u)
  {
    var n := |samples| - 1;
    if n == 0 {
      m := 0;
    } else {
      m := NearestIs(env, samples[..n], u);
      hide NearestAt;
      NearestMore(env, samples, u, m);
      if env.dist(samples[n].at, u) < env.dist(samples[m].at, u) { m := n; }
    }
  }

  lemma NearestMore(env: Env, samples: seq<Sample>, u: Place, m: nat)
    requires |samples| > 1 && NearestAt(env, samples[..|samples| - 1], u, m)
    ensures m < |samples| - 1 && samples[..|samples| - 1][m] == samples[m]
    ensures var n: nat := |samples| - 1;
            NearestAt(env, samples, u, if env.dist(samples[n].at, u) < env.dist(samples[m].at, u) then n else m)
  {
    var n := |samples| - 1;
    forall k | 0 <= k < n ensures samples[k] == samples[..n][k] && env.dist(samples[m].at, u) <= env.dist(samples[k].at, u) {
    }
  }

  lemma OneNearest(env: Env, samples: seq<Sample>, u: Place, m: nat, m': nat)
    requires NearestAt(env, samples, u, m) && NearestAt(env, samples, u, m')
    ensures m == m'
  {
    var s, s' := samples[m], samples[m'];
    assert env.dist(s.at, u) <= env.dist(s'.at, u) <= env.dist(s.at, u);
  }

  // Exactly the unsafe points that are clear and whose nearest sample lies on
  // the stretch are kept, in order.
  lemma {:induction false} UnsafeKept(env: Env, us: seq<Place>, samples: seq<Sample>, c: Cuts, centers: seq<Anchor>)
    returns (from: seq<nat>)
    requires samples != []
    ensures var r := UnsafeCut(env, us, samples, c, centers);
            && |from| == |r| && (forall k, l :: 0 <= k < l < |from| ==> from[k] < from[l])
            && (forall k :: 0 <= k < |r| ==> from[k] < |us| && r[k] == us[from[k]])
            && forall k: nat :: k in from <==> k < |us| && UnsafeStays(env, us[k], samples, c, centers)
  {
    hide Env.PlaceClear, Nearest, NearestAt;
    from := [];
    if us != [] {
      var n := |us| - 1;
      from := UnsafeKept(env, us[..n], samples, c, centers);
      assert forall k :: 0 <= k < |from| ==> from[k] in from;
      UnsafeByNearest(env, us[n], samples, c, centers);
      hide UnsafeStays;
      if UnsafeStays(env, us[n], samples, c, centers) { from := from + [n]; }
    }
  }

  lemma {:induction false} UnsafeByNearest(env: Env, u: Place, samples: seq<Sample>, c: Cuts, centers: seq<Anchor>)
    requires samples != []
    ensures UnsafeStays(env, u, samples, c, centers)
            <==> env.PlaceClear(u, centers) && c.a <= Nearest(env, samples, u).s <= c.b
  {
    hide NearestAt, Nearest, Env.PlaceClear;
    var m := NearestIs(env, samples, u);
    forall k: nat | NearestAt(env, samples, u, k) ensures k == m {
      OneNearest(env, samples, u, k, m);
    }
  }

  ghost predicate UnsafeStays(env: Env, u: Place, samples: seq<Sample>, c: Cuts, centers: seq<Anchor>) {
    env.PlaceClear(u, centers) && exists m: nat :: NearestAt(env, samples, u, m) && c.a <= samples[m].s <= c.b
  }

  function Shift(env: Env, coords: seq<Place>, cum: seq<real>, c: Cuts): real
    requires |coords| == |cum|
  {
    var f := FirstInner(cum, c.a, c.b);
    if f.Some? then cum[f.value] - env.dist(c.cutA, coords[f.value]) else c.a
  }

  function Centers(artifact: Artifact, anchors: seq<Anchor>): seq<Anchor>
    requires artifact.coords != []
  {
    anchors + [Anchor(artifact.coords[0], 0.0), Anchor(artifact.coords[|artifact.coords| - 1], 0.0)]
  }

  // The artifact cut to the stretch between two samples; None rather than
  // upload a vertex that is not clear.
  function CutTo(env: Env, artifact: Artifact, centers: seq<Anchor>, samples: seq<Sample>, i: nat,
                 j: nat): Option<Artifact>
    requires |artifact.coords| >= 2 && i < |samples| && j < |samples|
  {
    var cum := Cumulative(env, artifact.coords);
    var c := Cuts(samples[i].s, samples[j].s, samples[i].at, samples[j].at);
    var geometry := [c.cutA] + Inner(artifact.coords, cum, c.a, c.b) + [c.cutB];
    if !AllPlacesClear(env, geometry, centers) then None
    else
      var shift := Shift(env, artifact.coords, cum, c);
      Some(artifact.(coords := geometry,
                     segments := SegmentsCut(env, artifact.segments, c, centers),
                     maneuvers := ManeuversCut(env, artifact.maneuvers, c, shift, centers),
                     unsafePoints := UnsafeCut(env, artifact.unsafePoints, samples, c, centers),
                     distance := PolyLength(env, geometry)))
  }

  ghost function Clipped(env: Env, artifact: Artifact, anchors: seq<Anchor>): Option<Artifact> {
    if |artifact.coords| < 2 then None
    else
      var centers := Centers(artifact, anchors);
      var samples := Samples(env, artifact.coords, centers);
      if best: (nat, nat) :| IsBest(samples, |samples|, best.0, best.1)
      then CutTo(env, artifact, centers, samples, best.0, best.1) else None
  }

  // Everything that is a place in an artifact is clear of these points.
  ghost predicate ArtifactClear(env: Env, artifact: Artifact, centers: seq<Anchor>) {
    && AllPlacesClear(env, artifact.coords, centers)
    && (forall k :: 0 <= k < |artifact.segments| ==> AllPlacesClear(env, artifact.segments[k], centers))
    && (forall k :: 0 <= k < |artifact.maneuvers| ==> env.PlaceClear(artifact.maneuvers[k].at, centers))
    && AllPlacesClear(env, artifact.unsafePoints, centers)
  }

  // No place that is uploaded lies near a private point or an end of the
  // route, and what is not a place is unchanged.
  lemma ClipIsPrivate(env: Env, artifact: Artifact, anchors: seq<Anchor>)
    ensures Clipped(env, artifact, anchors).Some? ==>
              var c := Clipped(env, artifact, anchors).value;
              && |artifact.coords| >= 2 && ArtifactClear(env, c, Centers(artifact, anchors))
              && c.etaS == artifact.etaS && c.level == artifact.level && c.profile == artifact.profile
              && c.rest == artifact.rest && c.distance == PolyLength(env, c.coords)
  {
  }

  // The place is one of the artifact's.
  ghost predicate Shows(artifact: Artifact, at: Place) {
    || at in artifact.coords || at in artifact.unsafePoints
    || (exists k :: 0 <= k < |artifact.segments| && at in artifact.segments[k])
    || exists k :: 0 <= k < |artifact.maneuvers| && artifact.maneuvers[k].at == at
  }

  // So whatever place is uploaded is 300 m and the accuracy of its measurement
  // away from each anchor, and 300 m from where the route begins and ends.
  lemma ClipKeepsAway(env: Env, artifact: Artifact, anchors: seq<Anchor>, at: Place)
    requires Clipped(env, artifact, anchors).Some? && Shows(Clipped(env, artifact, anchors).value, at)
    ensures forall t :: 0 <= t < |anchors| ==> 300.0 + anchors[t].accuracy <= env.dist(at, anchors[t].at)
    ensures 300.0 <= env.dist(at, artifact.coords[0]) && 300.0 <= env.dist(at, artifact.coords[|artifact.coords| - 1])
  {
    ClipIsPrivate(env, artifact, anchors);
    var c, centers := Clipped(env, artifact, anchors).value, Centers(artifact, anchors);
    hide Clipped, Centers, Env.PlaceClear;
    assert env.PlaceClear(at, centers);
    ClearOfAll(env, artifact, anchors, at);
  }

  lemma ClearOfAll(env: Env, artifact: Artifact, anchors: seq<Anchor>, at: Place)
    requires artifact.coords != [] && env.PlaceClear(at, Centers(artifact, anchors))
    ensures forall t :: 0 <= t < |anchors| ==> 300.0 + anchors[t].accuracy <= env.dist(at, anchors[t].at)
    ensures 300.0 <= env.dist(at, artifact.coords[0]) && 300.0 <= env.dist(at, artifact.coords[|artifact.coords| - 1])
  {
    var centers, n := Centers(artifact, anchors), |anchors|;
    assert centers[n] == Anchor(artifact.coords[0], 0.0);
    assert centers[n + 1] == Anchor(artifact.coords[|artifact.coords| - 1], 0.0);
    assert env.Separation(Anchor(at, 0.0), centers[n]) >= TRIM_M && env.Separation(Anchor(at, 0.0), centers[n + 1]) >= TRIM_M;
    forall t | 0 <= t < n ensures 300.0 + anchors[t].accuracy <= env.dist(at, anchors[t].at) {
      assert centers[t] == anchors[t] && env.Separation(Anchor(at, 0.0), centers[t]) >= TRIM_M;
    }
  }

  // ------------------------------------------------------- the implementation

  method CumulativeOf(env: Env, coords: seq<Place>) returns (cum: seq<real>)
    ensures cum == Cumulative(env, coords)
  {
    cum := [0.0];
    var i := 1;
    while i < |coords|
      invariant 1 <= i && (coords != [] ==> i <= |coords| && cum == Cumulative(env, coords[..i]))
      invariant coords == [] ==> cum == [0.0]
    {
      cum := cum + [cum[i - 1] + env.dist(coords[i - 1], coords[i])];
      assert coords[..i + 1][..i] == coords[..i];
      i := i + 1;
    }
    assert coords != [] ==> coords[..i] == coords;
  }

  method SampleLine(env: Env, coords: seq<Place>, centers: seq<Anchor>) returns (samples: seq<Sample>)
    requires coords != []
    ensures samples == Samples(env, coords, centers)
  {
    var cum := CumulativeOf(env, coords);
    samples := [];
    for i := 0 to |coords| - 1
      invariant samples == SamplesTo(env, coords, cum, centers, i)
    {
      var steps := Steps(cum[i + 1] - cum[i]);
      samples := samples + [SampleAt(env, coords, cum, centers, i, 0)];
      for k := 1 to steps
        invariant samples == SamplesTo(env, coords, cum, centers, i) + SegmentSamples(env, coords, cum, centers, i, k)
      {
        samples := samples + [SampleAt(env, coords, cum, centers, i, k)];
      }
    }
    samples := samples + [LastSample(env, coords, cum, centers)];
  }

  method CutSegments(env: Env, segments: seq<seq<Place>>, c: Cuts, centers: seq<Anchor>) returns (r: seq<seq<Place>>)
    ensures r == SegmentsCut(env, segments, c, centers)
  {
    r := [];
    var segStart := 0.0;
    for k := 0 to |segments|
      invariant segStart == SegmentsEnd(env, segments[..k]) && r == SegmentsCut(env, segments[..k], c, centers)
    {
      var cut := SegmentCut(env, segments[k], segStart, c, centers);
      segStart := segStart + PolyLength(env, segments[k]);
      if cut.Some? {
        r := r + [cut.value];
      }
      assert segments[..k + 1][..k] == segments[..k];
    }
    assert segments[..|segments|] == segments;
  }

  method ClipArtifact(env: Env, artifact: Artifact, anchors: seq<Anchor>) returns (r: Option<Artifact>)
    ensures r == Clipped(env, artifact, anchors)
  {
    if |artifact.coords| < 2 {
      return None;
    }
    var centers := Centers(artifact, anchors);
    var samples := SampleLine(env, artifact.coords, centers);
    var best := LongestRun(samples);
    if best.None? {
      return None;
    }
    var (i, j) := best.value;
    BestIsClipped(env, artifact, anchors, i, j);
    var cum := CumulativeOf(env, artifact.coords);
    var c := Cuts(samples[i].s, samples[j].s, samples[i].at, samples[j].at);
    var geometry := [c.cutA] + Inner(artifact.coords, cum, c.a, c.b) + [c.cutB];
    if !AllPlacesClear(env, geometry, centers) {
      return None;
    }
    var shift := Shift(env, artifact.coords, cum, c);
    var segments := CutSegments(env, artifact.segments, c, centers);
    r := Some(artifact.(coords := geometry, segments := segments,
                        maneuvers := ManeuversCut(env, artifact.maneuvers, c, shift, centers),
                        unsafePoints := UnsafeCut(env, artifact.unsafePoints, samples, c, centers),
                        distance := PolyLength(env, geometry)));
  }

  lemma BestIsClipped(env: Env, artifact: Artifact, anchors: seq<Anchor>, i: nat, j: nat)
    requires |artifact.coords| >= 2
    requires var samples := Samples(env, artifact.coords, Centers(artifact, anchors)); IsBest(samples, |samples|, i, j)
    ensures Clipped(env, artifact, anchors)
         == CutTo(env, artifact, Centers(artifact, anchors),
                  Samples(env, artifact.coords, Centers(artifact, anchors)), i, j)
  {
    var centers := Centers(artifact, anchors);
    var samples := Samples(env, artifact.coords, centers);
    assert IsBest(samples, |samples|, (i, j).0, (i, j).1);
    forall best: (nat, nat) | IsBest(samples, |samples|, best.0, best.1) ensures best == (i, j) {
      BestUnique(samples, i, j, best.0, best.1);
    }
  }
}
