// What a clipped artifact says about distance (web/lib/tracePrivacy.ts): its
// `distance_m` is the length of the stretch kept, and its maneuver offsets
// are rebased to that stretch, so neither says how far away the ends lie.
module ClipLength {
  import opened Topology
  import opened TraceTypes
  import opened Clip

  // A fraction of a length.
  function Part(u: real, len: real): real { u * len }

  lemma Parts(u: real, v: real, len: real)
    ensures Part(0.0, len) == 0.0 && Part(1.0, len) == len
    ensures Part(u, len) + Part(1.0 - u, len) == len && Part(v, len) - Part(u, len) == Part(v - u, len)
    ensures u <= v && len >= 0.0 ==> Part(u, len) <= Part(v, len)
    ensures u < v && len > 0.0 ==> Part(u, len) < Part(v, len)
  {
    var d := v - u;
    assert d * len == v * len - u * len;
    assert d >= 0.0 && len >= 0.0 ==> d * len >= 0.0;
    assert d > 0.0 && len > 0.0 ==> d * len > 0.0;
  }

  // Distance is a metric, and adds up along every segment of the line.
  ghost predicate Metric(env: Env) {
    && (forall p, q :: 0.0 <= env.dist(p, q) == env.dist(q, p))
    && forall p, q, r :: env.dist(p, r) <= env.dist(p, q) + env.dist(q, r)
  }

  ghost predicate Chords(env: Env, coords: seq<Place>) {
    forall k :: 0 <= k < |coords| - 1 ==> Chord(env, coords[k], coords[k + 1])
  }

  ghost predicate Chord(env: Env, p: Place, q: Place) {
    forall u: real, v: real :: 0.0 <= u <= v <= 1.0 ==>
      env.dist(Between(p, q, u), Between(p, q, v)) == Part(v - u, env.dist(p, q))
  }

  ghost predicate Straight(env: Env, coords: seq<Place>) { Metric(env) && Chords(env, coords) }

  // Vertices are repeated or told apart: none is within the slack of the next
  // and yet elsewhere.
  predicate ToldApart(env: Env, coords: seq<Place>) {
    forall k :: 0 <= k < |coords| - 1 ==>
      env.dist(coords[k], coords[k + 1]) == 0.0 || env.dist(coords[k], coords[k + 1]) > EPS_M
  }

  // How far off a vertex next to a cut may be: not at all, unless two vertices
  // are too close to be told apart.
  function Tolerance(env: Env, coords: seq<Place>): real {
    if ToldApart(env, coords) then 0.0 else EPS_M
  }

  lemma Triangle(env: Env, p: Place, q: Place, r: Place)
    requires Metric(env)
    ensures env.dist(p, r) <= env.dist(p, q) + env.dist(q, r)
    ensures 0.0 <= env.dist(p, q) == env.dist(q, p)
  {
  }

  // ------------------------------------------------------------- positions

  lemma {:induction false} CumulativeAt(env: Env, coords: seq<Place>, k: nat)
    requires k < |coords|
    ensures Cumulative(env, coords)[0] == 0.0
    ensures k + 1 < |coords| ==>
              Cumulative(env, coords)[k + 1] == Cumulative(env, coords)[k] + env.dist(coords[k], coords[k + 1])
  {
    if |coords| > 1 {
      var before := coords[..|coords| - 1];
      CumulativeAt(env, before, if k < |before| then k else 0);
    }
  }

  lemma {:induction false} Rises(env: Env, coords: seq<Place>, k: nat, l: nat)
    requires Metric(env) && k <= l < |coords|
    ensures 0.0 <= Cumulative(env, coords)[k] <= Cumulative(env, coords)[l]
    decreases l
  {
    hide Metric, Cumulative;
    CumulativeAt(env, coords, l);
    if 0 < l {
      CumulativeAt(env, coords, l - 1);
      Triangle(env, coords[l - 1], coords[l], coords[l]);
      Rises(env, coords, if k < l then k else l - 1, l - 1);
    }
  }

  // A sample lies a fraction u along segment p; on a segment longer than the
  // slack, not too close to either end of it unless it is that end.
  ghost predicate On(env: Env, coords: seq<Place>, smp: Sample, p: nat, u: real) {
    && p + 1 < |coords| && 0.0 <= u <= 1.0
    && var len := env.dist(coords[p], coords[p + 1]);
       && smp.s == Cumulative(env, coords)[p] + Part(u, len)
       && smp.at == Between(coords[p], coords[p + 1], u)
       && (len > EPS_M ==> (u > 0.0 ==> Part(u, len) > EPS_M) && (u < 1.0 ==> Part(1.0 - u, len) > EPS_M))
  }

  function Ratio(k: nat, n: nat): real
    requires n > 0
  {
    k as real / n as real
  }

  ghost predicate OnLine(env: Env, coords: seq<Place>, smp: Sample) {
    exists p: nat, u :: On(env, coords, smp, p, u)
  }

  lemma RatioFacts(k: nat, n: nat)
    requires k < n
    ensures 0.0 <= Ratio(k, n) < 1.0 && (k == 0 <==> Ratio(k, n) == 0.0)
    ensures Ratio(1, n) <= 1.0 - Ratio(k, n) && (k > 0 ==> Ratio(1, n) <= Ratio(k, n))
  {
    var u, one := Ratio(k, n), Ratio(1, n);
    assert u - one == (k as real - 1.0) / n as real;
    assert (1.0 - u) - one == (n as real - k as real - 1.0) / n as real;
  }

  // A segment of several steps has steps of more than half a metre.
  lemma LongSteps(len: real)
    requires Steps(len) > 1
    ensures Part(Ratio(1, Steps(len)), len) > EPS_M
  {
    var n := Steps(len) as real;
    assert n < len + 1.0 && len > 1.0;
    Half(len, n);
    assert 1.0 / n * len == len / n;
  }

  lemma Fraction(len: real, k: nat)
    requires len > EPS_M && k < Steps(len)
    ensures var u := Ratio(k, Steps(len));
            && 0.0 <= u < 1.0 && (k == 0 <==> u == 0.0)
            && (u > 0.0 ==> Part(u, len) > EPS_M) && Part(1.0 - u, len) > EPS_M
  {
    RatioFacts(k, Steps(len));
    if Steps(len) > 1 { LongSteps(len); }
    hide Ratio, Part, Steps;
    var u, one := Ratio(k, Steps(len)), Ratio(1, Steps(len));
    Parts(one, u, len);
    Parts(one, 1.0 - u, len);
    Parts(0.0, 1.0, len);
    if k == 0 { assert 1.0 - u == 1.0; }
  }

  lemma Half(len: real, n: real)
    requires 0.0 < n < 2.0 * len
    ensures len / n > 0.5
  {
    var r := len / n;
    assert r * n == len;
    assert r <= 0.5 ==> (0.5 - r) * n >= 0.0;
  }

  lemma BetweenEnds(p: Place, q: Place)
    ensures Between(p, q, 0.0) == p && Between(p, q, 1.0) == q
  {
  }

  lemma SampleShape(env: Env, coords: seq<Place>, cum: seq<real>, centers: seq<Anchor>, p: nat, k: nat)
    requires p + 1 < |coords| == |cum|
    ensures var smp, len := SampleAt(env, coords, cum, centers, p, k), cum[p + 1] - cum[p];
            var u := Ratio(k, Steps(len));
            smp.s == cum[p] + Part(u, len) && smp.at == Between(coords[p], coords[p + 1], u)
  {
    var len := cum[p + 1] - cum[p];
    if k == 0 {
      BetweenEnds(coords[p], coords[p + 1]);
      assert k as real / Steps(len) as real == 0.0;
      Parts(0.0, 0.0, len);
    }
    hide Steps;
  }

  lemma {:induction false} SampleOn(env: Env, coords: seq<Place>, centers: seq<Anchor>, p: nat, k: nat)
    requires p + 1 < |coords| && Metric(env)
    requires k < Steps(Cumulative(env, coords)[p + 1] - Cumulative(env, coords)[p])
    ensures var smp := SampleAt(env, coords, Cumulative(env, coords), centers, p, k);
            var u := Ratio(k, Steps(env.dist(coords[p], coords[p + 1])));
            On(env, coords, smp, p, u)
  {
    hide *;
    var len := env.dist(coords[p], coords[p + 1]);
    CumulativeAt(env, coords, p);
    SampleShape(env, coords, Cumulative(env, coords), centers, p, k);
    RatioFacts(k, Steps(len));
    if len > EPS_M { Fraction(len, k); }
    PlacedOn(env, coords, SampleAt(env, coords, Cumulative(env, coords), centers, p, k), p, Ratio(k, Steps(len)));
  }

  lemma {:induction false} PlacedOn(env: Env, coords: seq<Place>, smp: Sample, p: nat, u: real)
    requires p + 1 < |coords| && 0.0 <= u <= 1.0
    requires smp.s == Cumulative(env, coords)[p] + Part(u, env.dist(coords[p], coords[p + 1]))
    requires smp.at == Between(coords[p], coords[p + 1], u)
    requires env.dist(coords[p], coords[p + 1]) > EPS_M ==>
               && (u > 0.0 ==> Part(u, env.dist(coords[p], coords[p + 1])) > EPS_M)
               && (u < 1.0 ==> Part(1.0 - u, env.dist(coords[p], coords[p + 1])) > EPS_M)
    ensures On(env, coords, smp, p, u)
  {
    hide Cumulative, Part, Between;
  }

  // Where a sample on segment p lies.
  lemma {:induction false} Bracket(env: Env, coords: seq<Place>, s: Sample, p: nat, u: real)
    requires Metric(env) && On(env, coords, s, p, u)
    ensures var cum := Cumulative(env, coords);
            && p + 1 < |coords| == |cum| && 0.0 <= cum[p] <= s.s <= cum[p + 1]
            && cum[p + 1] == cum[p] + env.dist(coords[p], coords[p + 1])
            && s.s - cum[p] == Part(u, env.dist(coords[p], coords[p + 1]))
            && cum[p + 1] - s.s == Part(1.0 - u, env.dist(coords[p], coords[p + 1]))
  {
    CumulativeAt(env, coords, p);
    Rises(env, coords, p, p + 1);
    hide Cumulative, Between, Part, Metric;
    Parts(0.0, u, env.dist(coords[p], coords[p + 1]));
    Parts(u, 1.0, env.dist(coords[p], coords[p + 1]));
  }

  // Samples on the line, in order, between `lo` and `hi`.
  ghost predicate Tracks(env: Env, coords: seq<Place>, ss: seq<Sample>, lo: real, hi: real) {
    && lo <= hi && (forall i :: 0 <= i < |ss| ==> lo <= ss[i].s <= hi && OnLine(env, coords, ss[i]))
    && (forall i, j :: 0 <= i <= j < |ss| ==> ss[i].s <= ss[j].s)
  }

  lemma TracksAppend(env: Env, coords: seq<Place>, before: seq<Sample>, last: seq<Sample>, lo: real, mid: real,
                     hi: real)
    requires Tracks(env, coords, before, lo, mid) && Tracks(env, coords, last, mid, hi)
    ensures Tracks(env, coords, before + last, lo, hi)
  {
    hide OnLine;
    var ss := before + last;
    forall i | 0 <= i < |ss|
      ensures lo <= ss[i].s <= hi && OnLine(env, coords, ss[i])
      ensures if i < |before| then ss[i].s <= mid else mid <= ss[i].s {
      if i < |before| { assert ss[i] == before[i]; } else { assert ss[i] == last[i - |before|]; }
    }
    forall i, j | 0 <= i <= j < |ss| ensures ss[i].s <= ss[j].s {
      if j < |before| {
        assert ss[i] == before[i] && ss[j] == before[j];
      } else if i >= |before| {
        assert ss[i] == last[i - |before|] && ss[j] == last[j - |before|];
      }
    }
  }

  lemma {:induction false} SegmentTracks(env: Env, coords: seq<Place>, centers: seq<Anchor>, p: nat)
    requires p + 1 < |coords| && Metric(env)
    ensures var cum := Cumulative(env, coords);
            var ss := SegmentSamples(env, coords, cum, centers, p, Steps(cum[p + 1] - cum[p]));
            Tracks(env, coords, ss, cum[p], cum[p + 1])
  {
    hide Cumulative, Metric, On, Steps, SampleAt;
    var cum := Cumulative(env, coords);
    var ss := SegmentSamples(env, coords, cum, centers, p, Steps(cum[p + 1] - cum[p]));
    Rises(env, coords, p, p + 1);
    forall k | 0 <= k < |ss| ensures cum[p] <= ss[k].s <= cum[p + 1] && OnLine(env, coords, ss[k]) {
      SampleOn(env, coords, centers, p, k);
      Bracket(env, coords, ss[k], p, Ratio(k, Steps(env.dist(coords[p], coords[p + 1]))));
    }
    forall k, l | 0 <= k <= l < |ss| ensures ss[k].s <= ss[l].s {
      if k < l { Spread(env, coords, cum, centers, p, k, l); }
    }
  }

  lemma {:induction false} SamplesOn(env: Env, coords: seq<Place>, centers: seq<Anchor>, n: nat)
    requires n < |coords| && Metric(env)
    ensures var cum := Cumulative(env, coords); Tracks(env, coords, SamplesTo(env, coords, cum, centers, n), 0.0, cum[n])
  {
    hide Cumulative, Metric, On, SegmentSamples, Steps;
    CumulativeAt(env, coords, n);
    if n > 0 {
      hide Tracks;
      var cum := Cumulative(env, coords);
      SamplesOn(env, coords, centers, n - 1);
      SegmentTracks(env, coords, centers, n - 1);
      TracksAppend(env, coords, SamplesTo(env, coords, cum, centers, n - 1),
                   SegmentSamples(env, coords, cum, centers, n - 1, Steps(cum[n] - cum[n - 1])), 0.0, cum[n - 1], cum[n]);
    }
  }

  lemma RatioLess(k: nat, l: nat, n: nat)
    requires k < l && n > 0
    ensures Ratio(k, n) < Ratio(l, n)
  {
    assert Ratio(l, n) - Ratio(k, n) == (l as real - k as real) / n as real;
  }

  lemma Spread(env: Env, coords: seq<Place>, cum: seq<real>, centers: seq<Anchor>, p: nat, k: nat, l: nat)
    requires p + 1 < |coords| == |cum| && cum[p] <= cum[p + 1] && k < l
    ensures SampleAt(env, coords, cum, centers, p, k).s <= SampleAt(env, coords, cum, centers, p, l).s
  {
    var len := cum[p + 1] - cum[p];
    SampleShape(env, coords, cum, centers, p, k);
    SampleShape(env, coords, cum, centers, p, l);
    RatioLess(k, l, Steps(len));
    hide Part, SampleAt, Steps, Ratio;
    Parts(Ratio(k, Steps(len)), Ratio(l, Steps(len)), len);
  }

  // The last vertex.
  lemma {:induction false} LastOn(env: Env, coords: seq<Place>, centers: seq<Anchor>)
    requires |coords| >= 2 && Metric(env)
    ensures On(env, coords, LastSample(env, coords, Cumulative(env, coords), centers), |coords| - 2, 1.0)
    ensures LastSample(env, coords, Cumulative(env, coords), centers).s == Cumulative(env, coords)[|coords| - 1]
  {
    var p := |coords| - 2;
    CumulativeAt(env, coords, p);
    BetweenEnds(coords[p], coords[p + 1]);
    Parts(1.0, 1.0, env.dist(coords[p], coords[p + 1]));
    hide Cumulative, Part, Between, Metric;
  }

  // Every sample lies on the line, in order.
  lemma {:induction false} AllSamplesOn(env: Env, coords: seq<Place>, centers: seq<Anchor>)
    requires |coords| >= 2 && Metric(env)
    ensures Tracks(env, coords, Samples(env, coords, centers), 0.0, Cumulative(env, coords)[|coords| - 1])
  {
    hide Cumulative, On, LastSample, SamplesTo, Metric;
    SamplesOn(env, coords, centers, |coords| - 1);
    LastOn(env, coords, centers);
    var cum := Cumulative(env, coords);
    var last := LastSample(env, coords, cum, centers);
    assert OnLine(env, coords, last);
    assert Tracks(env, coords, [last], last.s, last.s);
    TracksAppend(env, coords, SamplesTo(env, coords, cum, centers, |coords| - 1), [last], 0.0, last.s, last.s);
  }

  // --------------------------------------------------------- the geometry

  lemma PolyLengthAppend(env: Env, coords: seq<Place>, q: Place)
    requires coords != []
    ensures PolyLength(env, coords + [q]) == PolyLength(env, coords) + env.dist(coords[|coords| - 1], q)
  {
    assert (coords + [q])[..|coords|] == coords;
  }

  lemma {:induction false} PolyLengthSlice(env: Env, coords: seq<Place>, at: Place, x: nat, y: nat)
    requires x < y <= |coords|
    ensures PolyLength(env, [at] + coords[x..y])
         == env.dist(at, coords[x]) + Cumulative(env, coords)[y - 1] - Cumulative(env, coords)[x]
  {
    hide PolyLength, Cumulative;
    if y == x + 1 {
      assert [at] + coords[x..y] == [at] + [coords[x]];
      PolyLengthAppend(env, [at], coords[x]);
      OnePoint(env, at);
    } else {
      PolyLengthSlice(env, coords, at, x, y - 1);
      var before := [at] + coords[x..y - 1];
      assert [at] + coords[x..y] == before + [coords[y - 1]];
      PolyLengthAppend(env, before, coords[y - 1]);
      assert before[|before| - 1] == coords[y - 2];
      CumulativeAt(env, coords, y - 2);
    }
  }

  lemma OnePoint(env: Env, p: Place)
    ensures PolyLength(env, [p]) == 0.0
  {
  }

  lemma {:induction false} InnerIsSlice(coords: seq<Place>, at: seq<real>, a: real, b: real, x: nat, y: nat)
    requires |coords| == |at| && x <= y <= |coords|
    requires forall k :: 0 <= k < |at| ==> (Inside(at[k], a, b) <==> x <= k < y)
    ensures Inner(coords, at, a, b) == coords[x..y]
  {
    hide Inside;
    if coords == [] {
      assert Inner(coords, at, a, b) == [];
    } else {
      var n := |coords| - 1;
      var before, ats := coords[..n], at[..n];
      var x', y' := if x < n then x else n, if y < n then y else n;
      assert forall k :: 0 <= k < n ==> ats[k] == at[k];
      InnerIsSlice(before, ats, a, b, x', y');
      InnerStep(coords, at, a, b);
      if x <= n < y {
        assert coords[x..y] == before[x'..y'] + [coords[n]];
      } else {
        assert coords[x..y] == before[x'..y'] + [];
      }
    }
  }

  lemma {:induction false} InnerStep(coords: seq<Place>, at: seq<real>, a: real, b: real)
    requires |coords| == |at| > 0
    ensures var n := |coords| - 1;
            Inner(coords, at, a, b) == Inner(coords[..n], at[..n], a, b) + if Inside(at[n], a, b) then [coords[n]] else []
  {
  }

  lemma Along(env: Env, coords: seq<Place>, p: nat, u: real, v: real)
    requires p + 1 < |coords| && Chords(env, coords) && 0.0 <= u <= v <= 1.0
    ensures env.dist(Between(coords[p], coords[p + 1], u), Between(coords[p], coords[p + 1], v))
         == Part(v - u, env.dist(coords[p], coords[p + 1]))
  {
    assert Chord(env, coords[p], coords[p + 1]);
  }

  // From a sample to the two ends of its segment.
  lemma {:induction false} ChordEnds(env: Env, coords: seq<Place>, s: Sample, p: nat, u: real)
    requires Straight(env, coords) && On(env, coords, s, p, u)
    ensures p + 1 < |coords|
    ensures env.dist(s.at, coords[p + 1]) == Cumulative(env, coords)[p + 1] - s.s
    ensures env.dist(coords[p], s.at) == s.s - Cumulative(env, coords)[p]
  {
    hide Chords, Between, Cumulative, Part, Metric;
    Bracket(env, coords, s, p, u);
    BetweenEnds(coords[p], coords[p + 1]);
    Along(env, coords, p, u, 1.0);
    Along(env, coords, p, 0.0, u);
    assert u - 0.0 == u;
  }

  // No vertex further on is further away than the line to it is long, ...
  lemma {:induction false} ReachesOn(env: Env, coords: seq<Place>, s: Sample, p: nat, u: real, k: nat)
    requires Straight(env, coords) && On(env, coords, s, p, u) && p < k < |coords|
    ensures env.dist(s.at, coords[k]) <= Cumulative(env, coords)[k] - s.s
    decreases k
  {
    ChordEnds(env, coords, s, p, u);
    hide Chords, Cumulative, Metric, On;
    if k > p + 1 {
      ReachesOn(env, coords, s, p, u, k - 1);
      CumulativeAt(env, coords, k - 1);
      Triangle(env, s.at, coords[k - 1], coords[k]);
    }
  }

  // ... and so for a sample further on.
  lemma {:induction false} ReachesBack(env: Env, coords: seq<Place>, e: Sample, q: nat, v: real, k: nat)
    requires Straight(env, coords) && On(env, coords, e, q, v) && k <= q
    ensures env.dist(coords[k], e.at) <= e.s - Cumulative(env, coords)[k]
    decreases q - k
  {
    ChordEnds(env, coords, e, q, v);
    hide Chords, Cumulative, Metric, On;
    if k < q {
      ReachesBack(env, coords, e, q, v, k + 1);
      CumulativeAt(env, coords, k);
      Triangle(env, coords[k], coords[k + 1], e.at);
    }
  }

  // A vertex within the slack after a sample, or before it, is within the
  // tolerance of it.
  lemma {:induction false} CloseAfter(env: Env, coords: seq<Place>, s: Sample, p: nat, u: real, k: nat)
    requires Straight(env, coords) && On(env, coords, s, p, u) && p < k < |coords|
    requires Cumulative(env, coords)[k] <= s.s + EPS_M
    ensures 0.0 <= Cumulative(env, coords)[k] - s.s <= Tolerance(env, coords)
    decreases k
  {
    Bracket(env, coords, s, p, u);
    Rises(env, coords, p + 1, k);
    hide Chords, Cumulative, Metric, Between;
    if k == p + 1 {
      Parts(0.0, 1.0 - u, env.dist(coords[p], coords[p + 1]));
      if env.dist(coords[p], coords[p + 1]) == 0.0 { Nothing(1.0 - u); }
      if u == 1.0 { Parts(0.0, 1.0, env.dist(coords[p], coords[p + 1])); assert 1.0 - u == 0.0; }
      hide Part;
    } else {
      hide Part, On;
      Rises(env, coords, k - 1, k);
      CumulativeAt(env, coords, k - 1);
      CloseAfter(env, coords, s, p, u, k - 1);
    }
  }

  lemma Nothing(u: real)
    ensures Part(u, 0.0) == 0.0
  {
  }

  lemma {:induction false} CloseBefore(env: Env, coords: seq<Place>, e: Sample, q: nat, v: real, k: nat)
    requires Straight(env, coords) && On(env, coords, e, q, v) && k <= q
    requires e.s - EPS_M <= Cumulative(env, coords)[k]
    ensures 0.0 <= e.s - Cumulative(env, coords)[k] <= Tolerance(env, coords)
    decreases q - k
  {
    Bracket(env, coords, e, q, v);
    Rises(env, coords, k, q);
    hide Chords, Cumulative, Metric, Between;
    if k == q {
      if env.dist(coords[q], coords[q + 1]) == 0.0 { Nothing(v); }
      if v == 0.0 { Parts(0.0, 1.0, env.dist(coords[q], coords[q + 1])); }
      hide Part;
    } else {
      hide Part, On;
      Rises(env, coords, k, k + 1);
      CumulativeAt(env, coords, k);
      CloseBefore(env, coords, e, q, v, k + 1);
    }
  }

  // Of the three legs that a detour over x and y has, the middle one is not
  // much longer than the way straight on.
  lemma Detour(env: Env, a: Place, x: Place, y: Place, b: Place, g: real, h: real)
    requires Metric(env) && env.dist(a, x) <= g && env.dist(y, b) <= h
    ensures env.dist(x, y) - g - h <= env.dist(a, b)
  {
    hide Metric;
    Triangle(env, x, a, b);
    Triangle(env, x, b, y);
    Triangle(env, a, x, b);
    Triangle(env, y, b, a);
    Triangle(env, b, y, a);
  }

  // ------------------------------------------------------ what is skipped

  // v is no detour on the way from p to q.
  ghost predicate OnTheWay(env: Env, p: Place, v: Place, q: Place) {
    env.dist(p, v) + env.dist(v, q) == env.dist(p, q)
  }

  lemma AtAnEnd(env: Env, p: Place, v: Place, q: Place)
    requires Metric(env) && (env.dist(p, v) <= 0.0 || env.dist(v, q) <= 0.0)
    ensures OnTheWay(env, p, v, q)
  {
    hide Metric;
    Triangle(env, p, v, q);
    Triangle(env, v, p, q);
    Triangle(env, p, q, v);
    Triangle(env, v, q, q);
    Triangle(env, q, v, v);
  }

  // Points one after another, at these positions along a line.
  ghost predicate Path(env: Env, pts: seq<Place>, pos: seq<real>) {
    |pts| == |pos| && forall i :: 0 <= i < |pts| - 1 ==> env.dist(pts[i], pts[i + 1]) == pos[i + 1] - pos[i]
  }

  lemma {:induction false} PathBound(env: Env, pts: seq<Place>, pos: seq<real>, n: nat)
    requires Metric(env) && Path(env, pts, pos) && 0 < n < |pts|
    ensures env.dist(pts[0], pts[n]) <= pos[n] - pos[0]
  {
    hide Metric;
    if n > 1 {
      PathBound(env, pts, pos, n - 1);
      Triangle(env, pts[0], pts[n - 1], pts[n]);
      assert env.dist(pts[n - 1], pts[n - 1 + 1]) == pos[n - 1 + 1] - pos[n - 1];
    } else {
      assert env.dist(pts[0], pts[0 + 1]) == pos[0 + 1] - pos[0];
    }
  }

  ghost predicate Forward(env: Env, pts: seq<Place>, i: nat)
    requires i + 1 < |pts|
  {
    OnTheWay(env, pts[0], pts[i], pts[i + 1])
  }

  // Going straight from the first point to the last is no shorter exactly when
  // each point in between is on the way from the first to the next.
  lemma {:induction false} StraightExactly(env: Env, pts: seq<Place>, pos: seq<real>, n: nat)
    requires Metric(env) && Path(env, pts, pos) && 0 < n < |pts|
    ensures env.dist(pts[0], pts[n]) == pos[n] - pos[0] <==> forall i :: 0 < i < n ==> Forward(env, pts, i)
  {
    hide Metric;
    PathBound(env, pts, pos, n);
    assert env.dist(pts[n - 1], pts[n - 1 + 1]) == pos[n - 1 + 1] - pos[n - 1];
    if n > 1 {
      PathBound(env, pts, pos, n - 1);
      StraightExactly(env, pts, pos, n - 1);
      Triangle(env, pts[0], pts[n - 1], pts[n]);
      assert Forward(env, pts, n - 1)
        <==> env.dist(pts[0], pts[n - 1]) + (pos[n] - pos[n - 1]) == env.dist(pts[0], pts[n]);
    }
  }

  // A vertex between the cuts that is within the slack of one, and so is not
  // kept.
  predicate Dropped(at: seq<real>, c: Cuts, k: int) {
    0 <= k < |at| && c.a < at[k] < c.b && !Inside(at[k], c.a, c.b)
  }

  // The last point of the geometry before vertex k, and the next of the line.
  function Before(coords: seq<Place>, at: seq<real>, c: Cuts, k: nat): Place
    requires k <= |coords| == |at|
  {
    if k == 0 then c.cutA else if Inside(at[k - 1], c.a, c.b) then coords[k - 1] else Before(coords, at, c, k - 1)
  }

  function After(coords: seq<Place>, at: seq<real>, c: Cuts, k: nat): Place
    requires k < |coords| == |at|
  {
    if k + 1 < |coords| && at[k + 1] <= c.b then coords[k + 1] else c.cutB
  }

  ghost predicate Harmless(env: Env, coords: seq<Place>, at: seq<real>, c: Cuts, k: nat)
    requires k < |coords| == |at|
  {
    Dropped(at, c, k) ==> OnTheWay(env, Before(coords, at, c, k), coords[k], After(coords, at, c, k))
  }

  // No vertex dropped below n was a detour.
  ghost predicate NoDetour(env: Env, coords: seq<Place>, at: seq<real>, c: Cuts, n: nat)
    requires n <= |coords| == |at|
  {
    forall k: nat :: k < n ==> Harmless(env, coords, at, c, k)
  }

  lemma {:induction false} BeforeIs(coords: seq<Place>, at: seq<real>, c: Cuts, x: nat, y: nat, k: nat)
    requires x <= y <= |coords| == |at| && k <= |coords|
    requires forall i :: 0 <= i < |at| ==> (Inside(at[i], c.a, c.b) <==> x <= i < y)
    ensures k <= x || (x == y <= k) ==> Before(coords, at, c, k) == c.cutA
    ensures x < y <= k ==> Before(coords, at, c, k) == coords[y - 1]
  {
    hide Inside;
    if k > 0 { BeforeIs(coords, at, c, x, y, k - 1); }
  }

  // From a cut to the first vertex past it that is kept.
  lemma {:induction false} FirstLeg(env: Env, coords: seq<Place>, s: Sample, p: nat, u: real, x: nat)
    requires Straight(env, coords) && On(env, coords, s, p, u) && p < x < |coords|
    requires forall k :: p < k < x ==> Cumulative(env, coords)[k] <= s.s + EPS_M
    ensures var d, len := env.dist(s.at, coords[x]), Cumulative(env, coords)[x] - s.s;
            len - 2.0 * Tolerance(env, coords) <= d <= len
  {
    hide Chords, Cumulative, On, Tolerance;
    SomeTolerance(env, coords);
    ReachesOn(env, coords, s, p, u, x);
    if x == p + 1 {
      ChordEnds(env, coords, s, p, u);
    } else {
      CloseAfter(env, coords, s, p, u, x - 1);
      ReachesOn(env, coords, s, p, u, x - 1);
      CumulativeAt(env, coords, x - 1);
      hide Metric;
      Triangle(env, coords[x - 1], s.at, coords[x]);
      Triangle(env, s.at, coords[x - 1], coords[x]);
    }
  }

  lemma SomeTolerance(env: Env, coords: seq<Place>)
    ensures 0.0 <= Tolerance(env, coords) <= EPS_M
  {
  }

  // From the last vertex kept to the other cut.
  lemma {:induction false} LastLeg(env: Env, coords: seq<Place>, e: Sample, q: nat, v: real, y: nat)
    requires Straight(env, coords) && On(env, coords, e, q, v) && y <= q
    requires forall k :: y < k <= q ==> e.s - EPS_M <= Cumulative(env, coords)[k]
    ensures var d, len := env.dist(coords[y], e.at), e.s - Cumulative(env, coords)[y];
            len - 2.0 * Tolerance(env, coords) <= d <= len
  {
    hide Chords, Cumulative, On, Tolerance;
    SomeTolerance(env, coords);
    Bracket(env, coords, e, q, v);
    ReachesBack(env, coords, e, q, v, y);
    if y == q {
      ChordEnds(env, coords, e, q, v);
    } else {
      CloseBefore(env, coords, e, q, v, y + 1);
      ReachesBack(env, coords, e, q, v, y + 1);
      CumulativeAt(env, coords, y);
      hide Metric;
      Triangle(env, coords[y], e.at, coords[y + 1]);
      Triangle(env, coords[y + 1], e.at, coords[y]);
    }
  }

  // From cut to cut, with no vertex kept in between: x is the first that is
  // not within the slack of the first cut.
  lemma {:induction false} OnlyLeg(env: Env, coords: seq<Place>, s: Sample, p: nat, u: real, e: Sample, q: nat,
                                   v: real, x: nat)
    requires Straight(env, coords) && s.s < e.s && p < q < |coords|
    requires On(env, coords, s, p, u) && On(env, coords, e, q, v)
    requires forall k :: p < k <= q ==>
               if k < x then Cumulative(env, coords)[k] <= s.s + EPS_M else e.s - EPS_M <= Cumulative(env, coords)[k]
    ensures e.s - s.s - 4.0 * Tolerance(env, coords) <= env.dist(s.at, e.at) <= e.s - s.s
  {
    hide Chords, Cumulative, On, Tolerance;
    SomeTolerance(env, coords);
    LineBound(env, coords, s, p, u, e, q, v);
    if x <= p + 1 {
      var y := p + 1;
      ChordEnds(env, coords, s, p, u);
      CloseBefore(env, coords, e, q, v, y);
      ReachesBack(env, coords, e, q, v, y);
      hide Metric;
      Triangle(env, s.at, e.at, coords[y]);
      Triangle(env, coords[y], e.at, s.at);
    } else if x <= q {
      CloseAfter(env, coords, s, p, u, x - 1);
      ReachesOn(env, coords, s, p, u, x - 1);
      CloseBefore(env, coords, e, q, v, x);
      ReachesBack(env, coords, e, q, v, x);
      CumulativeAt(env, coords, x - 1);
      Detour(env, s.at, coords[x - 1], coords[x], e.at, Cumulative(env, coords)[x - 1] - s.s, e.s - Cumulative(env, coords)[x]);
    } else {
      CloseAfter(env, coords, s, p, u, q);
      ReachesOn(env, coords, s, p, u, q);
      ChordEnds(env, coords, e, q, v);
      hide Metric;
      Triangle(env, coords[q], s.at, e.at);
      Triangle(env, s.at, coords[q], e.at);
    }
  }

  // Two samples are no further apart than the line between them is long.
  lemma LineBound(env: Env, coords: seq<Place>, s: Sample, p: nat, u: real, e: Sample, q: nat, v: real)
    requires Straight(env, coords) && On(env, coords, s, p, u) && On(env, coords, e, q, v) && p < q
    ensures env.dist(s.at, e.at) <= e.s - s.s
  {
    ChordEnds(env, coords, s, p, u);
    ReachesBack(env, coords, e, q, v, p + 1);
    hide Chords, Cumulative, On, Metric;
    Triangle(env, s.at, coords[p + 1], e.at);
  }

  lemma SameSegment(env: Env, coords: seq<Place>, s: Sample, p: nat, u: real, e: Sample, v: real)
    requires Straight(env, coords) && On(env, coords, s, p, u) && On(env, coords, e, p, v) && s.s <= e.s
    ensures env.dist(s.at, e.at) == e.s - s.s
  {
    hide Chords, Between, Cumulative, Part, Metric;
    Bracket(env, coords, s, p, u);
    Bracket(env, coords, e, p, v);
    var len := env.dist(coords[p], coords[p + 1]);
    Triangle(env, s.at, e.at, s.at);
    Parts(u, v, len);
    Parts(v, u, len);
    if u <= v { Along(env, coords, p, u, v); } else { Along(env, coords, p, v, u); }
    Triangle(env, coords[p], coords[p + 1], s.at);
  }

  // Two samples at one position are at no distance.
  lemma SamePosition(env: Env, coords: seq<Place>, s: Sample, e: Sample)
    requires Straight(env, coords) && OnLine(env, coords, s) && OnLine(env, coords, e) && s.s == e.s
    ensures env.dist(s.at, e.at) == 0.0
  {
    hide Chords, Metric, On, Cumulative;
    var p: nat, u :| On(env, coords, s, p, u);
    var q: nat, v :| On(env, coords, e, q, v);
    Triangle(env, s.at, e.at, s.at);
    if p < q {
      LineBound(env, coords, s, p, u, e, q, v);
    } else if q < p {
      LineBound(env, coords, e, q, v, s, p, u);
    } else {
      SameSegment(env, coords, s, p, u, e, v);
    }
  }

  // The vertices kept are consecutive.
  lemma KeptRange(env: Env, coords: seq<Place>, a: real, b: real) returns (x: nat, y: nat)
    requires Metric(env) && coords != []
    ensures x <= y <= |coords|
    ensures var cum := Cumulative(env, coords);
            && (forall k :: 0 <= k < x ==> cum[k] <= a + EPS_M) && (forall k :: y <= k < |coords| ==> b - EPS_M <= cum[k])
            && (forall k :: x <= k < |coords| ==> a + EPS_M < cum[k])
            && (forall k :: 0 <= k < |coords| ==> (Inside(cum[k], a, b) <==> x <= k < y))
  {
    hide Metric, Cumulative;
    var cum := Cumulative(env, coords);
    forall k, l | 0 <= k <= l < |coords| ensures cum[k] <= cum[l] { Rises(env, coords, k, l); }
    x := 0;
    while x < |coords| && cum[x] <= a + EPS_M
      invariant x <= |coords| && forall k :: 0 <= k < x ==> cum[k] <= a + EPS_M
    {
      x := x + 1;
    }
    y := x;
    while y < |coords| && cum[y] < b - EPS_M
      invariant x <= y <= |coords| && forall k :: x <= k < y ==> cum[k] < b - EPS_M
    {
      y := y + 1;
    }
  }

  // The geometry of a stretch from one sample to a later one, and where it
  // starts.
  lemma {:induction false} StretchLength(env: Env, coords: seq<Place>, s: Sample, e: Sample, p: nat, u: real, q: nat,
                                         v: real)
    requires Straight(env, coords) && s.s < e.s && On(env, coords, s, p, u) && On(env, coords, e, q, v)
    ensures |coords| == |Cumulative(env, coords)|
    ensures Measured(env, coords, Cuts(s.s, e.s, s.at, e.at))
  {
    var cum := Cumulative(env, coords);
    var c := Cuts(s.s, e.s, s.at, e.at);
    hide Chords, Cumulative, PolyLength, On, Between, Inside, Inner, FirstInner, Part, Tolerance, Metric, Measured;
    Bracket(env, coords, s, p, u);
    Bracket(env, coords, e, q, v);
    if q < p { Rises(env, coords, q + 1, p); }
    var x, y := KeptRange(env, coords, c.a, c.b);
    InnerIsSlice(coords, cum, c.a, c.b, x, y);
    AfterCut(env, coords, c.a, p, x);
    if x < y {
      BeforeCut(env, coords, c.a, c.b, q, x, y);
      SomeLegs(env, coords, s, e, p, u, q, v, x, y);
    } else {
      NoLegs(env, coords, s, e, p, u, q, v, x);
    }
  }

  // How the geometry of a stretch measures up.
  ghost predicate Measured(env: Env, coords: seq<Place>, c: Cuts)
    requires |coords| == |Cumulative(env, coords)|
  {
    var cum, tol := Cumulative(env, coords), Tolerance(env, coords);
    var length := PolyLength(env, [c.cutA] + Inner(coords, cum, c.a, c.b) + [c.cutB]);
    && c.b - c.a - 4.0 * tol <= length <= c.b - c.a
    && (length == c.b - c.a <==> NoDetour(env, coords, cum, c, |coords|))
    && c.a <= Shift(env, coords, cum, c) <= c.a + 2.0 * tol
    && (Shift(env, coords, cum, c) == c.a <==> NoDetour(env, coords, cum, c, KeptFrom(cum, c)))
  }

  // The first vertex kept, if any is.
  function KeptFrom(at: seq<real>, c: Cuts): (n: nat)
    ensures n <= |at|
  {
    var f := FirstInner(at, c.a, c.b);
    if f.Some? then f.value else 0
  }

  lemma {:induction false} AfterCut(env: Env, coords: seq<Place>, a: real, p: nat, x: nat)
    requires Metric(env) && p < |coords| && x <= |coords| && Cumulative(env, coords)[p] <= a
    requires forall k :: x <= k < |coords| ==> a + EPS_M < Cumulative(env, coords)[k]
    ensures p < x
  {
    hide Metric, Cumulative;
  }

  lemma {:induction false} BeforeCut(env: Env, coords: seq<Place>, a: real, b: real, q: nat, x: nat, y: nat)
    requires Metric(env) && q + 1 < |coords| && x < y <= |coords| && b <= Cumulative(env, coords)[q + 1]
    requires forall k :: 0 <= k < |coords| ==> (Inside(Cumulative(env, coords)[k], a, b) <==> x <= k < y)
    ensures y <= q + 1
  {
    hide Metric, Cumulative;
    assert Inside(Cumulative(env, coords)[y - 1], a, b);
    if q + 1 < y { Rises(env, coords, q + 1, y - 1); }
  }

  // The points of a leg after vertex `base`, one for one.
  lemma LegMatches(env: Env, pts: seq<Place>, n: nat, coords: seq<Place>, at: seq<real>, c: Cuts, base: nat)
    requires |coords| == |at| && 0 < n < |pts| && base + n <= |coords|
    requires forall k: nat :: base < k < base + n ==> (Harmless(env, coords, at, c, k) <==> Forward(env, pts, k - base))
    ensures (forall k: nat :: base < k < base + n ==> Harmless(env, coords, at, c, k))
            <==> forall i :: 0 < i < n ==> Forward(env, pts, i)
  {
    hide Harmless, Forward;
    if forall k: nat :: base < k < base + n ==> Harmless(env, coords, at, c, k) {
      forall i | 0 < i < n ensures Forward(env, pts, i) { assert Harmless(env, coords, at, c, base + i); }
    }
    if forall i :: 0 < i < n ==> Forward(env, pts, i) {
      forall k: nat | base < k < base + n ensures Harmless(env, coords, at, c, k) { assert Forward(env, pts, k - base); }
    }
  }

  // Up to the first vertex kept, ...
  lemma {:induction false} FirstLegExactly(env: Env, coords: seq<Place>, s: Sample, e: Sample, p: nat, u: real,
                                           x: nat, y: nat)
    requires Straight(env, coords) && On(env, coords, s, p, u) && p < x < y <= |coords| == |Cumulative(env, coords)|
    requires forall k :: 0 <= k < |coords| ==> (Inside(Cumulative(env, coords)[k], s.s, e.s) <==> x <= k < y)
    ensures env.dist(s.at, coords[x]) == Cumulative(env, coords)[x] - s.s
            <==> NoDetour(env, coords, Cumulative(env, coords), Cuts(s.s, e.s, s.at, e.at), x)
  {
    var cum, c := Cumulative(env, coords), Cuts(s.s, e.s, s.at, e.at);
    var pts, pos := [s.at] + coords[p + 1..x + 1], [s.s] + cum[p + 1..x + 1];
    hide Chords, Cumulative, On, Metric, Harmless, Forward, Path, Inside;
    FirstPath(env, coords, s, p, u, x);
    StraightExactly(env, pts, pos, x - p);
    assert pts[x - p] == coords[x] && pos[x - p] == cum[x];
    forall k: nat | k <= p ensures Harmless(env, coords, cum, c, k) { UpToCut(env, coords, s, e, p, u, k); }
    forall k: nat | p < k < x ensures Harmless(env, coords, cum, c, k) <==> Forward(env, pts, k - p) {
      FirstStep(env, coords, s, e, p, u, x, y, k);
    }
    LegMatches(env, pts, x - p, coords, cum, c, p);
  }

  // What lies before the first cut, or past the other, was not dropped.
  lemma {:induction false} UpToCut(env: Env, coords: seq<Place>, s: Sample, e: Sample, p: nat, u: real, k: nat)
    requires Metric(env) && On(env, coords, s, p, u) && k <= p < |coords| == |Cumulative(env, coords)|
    ensures Harmless(env, coords, Cumulative(env, coords), Cuts(s.s, e.s, s.at, e.at), k)
  {
    Bracket(env, coords, s, p, u);
    Rises(env, coords, k, p);
    hide Metric, Cumulative, On, Before, After, OnTheWay;
  }

  lemma {:induction false} PastCut(env: Env, coords: seq<Place>, s: Sample, e: Sample, q: nat, v: real, k: nat)
    requires Metric(env) && On(env, coords, e, q, v) && q < k < |coords| == |Cumulative(env, coords)|
    ensures Harmless(env, coords, Cumulative(env, coords), Cuts(s.s, e.s, s.at, e.at), k)
  {
    Bracket(env, coords, e, q, v);
    Rises(env, coords, q + 1, k);
    hide Metric, Cumulative, On, Before, After, OnTheWay;
  }

  lemma {:induction false} FirstStep(env: Env, coords: seq<Place>, s: Sample, e: Sample, p: nat, u: real, x: nat,
                                     y: nat, k: nat)
    requires Straight(env, coords) && On(env, coords, s, p, u)
    requires p < k < x < y <= |coords| == |Cumulative(env, coords)|
    requires forall i :: 0 <= i < |coords| ==> (Inside(Cumulative(env, coords)[i], s.s, e.s) <==> x <= i < y)
    ensures Harmless(env, coords, Cumulative(env, coords), Cuts(s.s, e.s, s.at, e.at), k)
            <==> Forward(env, [s.at] + coords[p + 1..x + 1], k - p)
  {
    var cum, c := Cumulative(env, coords), Cuts(s.s, e.s, s.at, e.at);
    var pts := [s.at] + coords[p + 1..x + 1];
    assert pts[k - p] == coords[k] && pts[k - p + 1] == coords[k + 1];
    BeforeIs(coords, cum, c, x, y, k);
    AfterKept(env, coords, c, x, k);
    AtTheCut(env, coords, s, p, u, k, coords[k + 1]);
    hide Straight, Cumulative, On, Before, After, OnTheWay, Inside;
    assert !Inside(cum[k], c.a, c.b);
  }

  // A vertex at the first cut is on the way from it to anywhere.
  lemma {:induction false} AtTheCut(env: Env, coords: seq<Place>, s: Sample, p: nat, u: real, k: nat, next: Place)
    requires Straight(env, coords) && On(env, coords, s, p, u) && p < k < |coords| == |Cumulative(env, coords)|
    ensures s.s <= Cumulative(env, coords)[k]
    ensures Cumulative(env, coords)[k] == s.s ==> OnTheWay(env, s.at, coords[k], next)
  {
    Bracket(env, coords, s, p, u);
    Rises(env, coords, p + 1, k);
    ReachesOn(env, coords, s, p, u, k);
    hide Chords, Cumulative, On, Metric, OnTheWay;
    if Cumulative(env, coords)[k] == s.s { AtAnEnd(env, s.at, coords[k], next); }
  }

  lemma {:induction false} AfterKept(env: Env, coords: seq<Place>, c: Cuts, x: nat, k: nat)
    requires Metric(env) && k < x < |coords| == |Cumulative(env, coords)| && Inside(Cumulative(env, coords)[x], c.a, c.b)
    ensures After(coords, Cumulative(env, coords), c, k) == coords[k + 1] && Cumulative(env, coords)[k] < c.b
  {
    Rises(env, coords, k + 1, x);
    Rises(env, coords, k, x);
    hide Metric, Cumulative;
  }

  lemma {:induction false} FirstPath(env: Env, coords: seq<Place>, s: Sample, p: nat, u: real, x: nat)
    requires Straight(env, coords) && On(env, coords, s, p, u) && p < x < |coords| == |Cumulative(env, coords)|
    ensures Path(env, [s.at] + coords[p + 1..x + 1], [s.s] + Cumulative(env, coords)[p + 1..x + 1])
  {
    var cum := Cumulative(env, coords);
    var pts, pos := [s.at] + coords[p + 1..x + 1], [s.s] + cum[p + 1..x + 1];
    ChordEnds(env, coords, s, p, u);
    hide Straight, Cumulative, On;
    forall i | 0 <= i < |pts| - 1 ensures env.dist(pts[i], pts[i + 1]) == pos[i + 1] - pos[i] {
      if i > 0 { CumulativeAt(env, coords, p + i); }
    }
  }

  // ... and past the last one, w.
  lemma {:induction false} LastLegExactly(env: Env, coords: seq<Place>, s: Sample, e: Sample, q: nat, v: real, x: nat,
                                          w: nat)
    requires Straight(env, coords) && On(env, coords, e, q, v) && x <= w <= q && q + 1 < |coords| == |Cumulative(env, coords)|
    requires forall k :: 0 <= k < |coords| ==> (Inside(Cumulative(env, coords)[k], s.s, e.s) <==> x <= k <= w)
    ensures env.dist(coords[w], e.at) == e.s - Cumulative(env, coords)[w]
            <==> forall k: nat :: w < k < |coords| ==>
                   Harmless(env, coords, Cumulative(env, coords), Cuts(s.s, e.s, s.at, e.at), k)
  {
    var cum, c := Cumulative(env, coords), Cuts(s.s, e.s, s.at, e.at);
    var pts, pos := coords[w..q + 1] + [e.at], cum[w..q + 1] + [e.s];
    var n := q + 1 - w;
    hide Chords, Cumulative, On, Metric, Harmless, Forward, Path, Inside;
    LastPath(env, coords, e, q, v, w);
    StraightExactly(env, pts, pos, n);
    assert pts[n] == e.at && pos[n] == e.s && pts[0] == coords[w] && pos[0] == cum[w];
    forall k: nat | q < k < |coords| ensures Harmless(env, coords, cum, c, k) { PastCut(env, coords, s, e, q, v, k); }
    forall k: nat | w < k < w + n ensures Harmless(env, coords, cum, c, k) <==> Forward(env, pts, k - w) {
      LastStep(env, coords, s, e, q, v, x, w, k);
    }
    LegMatches(env, pts, n, coords, cum, c, w);
  }

  lemma {:induction false} LastStep(env: Env, coords: seq<Place>, s: Sample, e: Sample, q: nat, v: real, x: nat,
                                    w: nat, k: nat)
    requires Straight(env, coords) && On(env, coords, e, q, v)
    requires x <= w < k <= q && q + 1 < |coords| == |Cumulative(env, coords)|
    requires forall i :: 0 <= i < |coords| ==> (Inside(Cumulative(env, coords)[i], s.s, e.s) <==> x <= i <= w)
    ensures Harmless(env, coords, Cumulative(env, coords), Cuts(s.s, e.s, s.at, e.at), k)
            <==> Forward(env, coords[w..q + 1] + [e.at], k - w)
  {
    var cum, c := Cumulative(env, coords), Cuts(s.s, e.s, s.at, e.at);
    var pts := coords[w..q + 1] + [e.at];
    var next := if k < q then coords[k + 1] else e.at;
    assert pts[k - w] == coords[k] && pts[k - w + 1] == next && pts[0] == coords[w];
    BeforeIs(coords, cum, c, x, w + 1, k);
    NextStep(env, coords, s, e, q, v, coords[w], k, next);
    AfterFirst(env, coords, c, w + 1, k);
    hide Straight, Cumulative, On, Before, After, OnTheWay, Inside;
    assert !Inside(cum[k], c.a, c.b);
  }

  lemma {:induction false} AfterFirst(env: Env, coords: seq<Place>, c: Cuts, y: nat, k: nat)
    requires Metric(env) && 0 < y <= k < |coords| == |Cumulative(env, coords)|
    requires Inside(Cumulative(env, coords)[y - 1], c.a, c.b)
    ensures c.a < Cumulative(env, coords)[k]
  {
    Rises(env, coords, y - 1, k);
    hide Metric, Cumulative;
  }

  // The vertex after k on the way to the other cut is `next`. At the cut
  // itself nothing is left to go.
  lemma {:induction false} NextStep(env: Env, coords: seq<Place>, s: Sample, e: Sample, q: nat, v: real, from: Place,
                                    k: nat, next: Place)
    requires Straight(env, coords) && On(env, coords, e, q, v) && k <= q && q + 1 < |coords| == |Cumulative(env, coords)|
    requires next == if k < q then coords[k + 1] else e.at
    ensures var cum, c := Cumulative(env, coords), Cuts(s.s, e.s, s.at, e.at);
            && cum[k] <= e.s
            && (cum[k] < e.s ==> After(coords, cum, c, k) == next)
            && (cum[k] == e.s ==> OnTheWay(env, from, coords[k], next))
  {
    var cum := Cumulative(env, coords);
    Bracket(env, coords, e, q, v);
    Rises(env, coords, k, q);
    hide Chords, Cumulative, Metric;
    if k < q {
      Rises(env, coords, k + 1, q);
      CumulativeAt(env, coords, k);
      if cum[k] == e.s {
        Rises(env, coords, k, k + 1);
        AtAnEnd(env, from, coords[k], next);
      }
    } else {
      ChordEnds(env, coords, e, q, v);
      if cum[k] == e.s {
        AtAnEnd(env, from, coords[k], next);
      } else if cum[q + 1] == e.s {
        WholeWay(env.dist(coords[q], coords[q + 1]), v);
        BetweenEnds(coords[q], coords[q + 1]);
      }
    }
  }

  lemma WholeWay(len: real, v: real)
    requires 0.0 <= v <= 1.0 && len >= 0.0 && Part(1.0 - v, len) == 0.0 && Part(v, len) > 0.0
    ensures v == 1.0
  {
    if v < 1.0 {
      if len > 0.0 { Parts(0.0, 1.0 - v, len); } else { Nothing(v); }
    }
  }

  lemma {:induction false} LastPath(env: Env, coords: seq<Place>, e: Sample, q: nat, v: real, y: nat)
    requires Straight(env, coords) && On(env, coords, e, q, v) && y <= q && q + 1 < |coords| == |Cumulative(env, coords)|
    ensures Path(env, coords[y..q + 1] + [e.at], Cumulative(env, coords)[y..q + 1] + [e.s])
  {
    var cum := Cumulative(env, coords);
    var pts, pos := coords[y..q + 1] + [e.at], cum[y..q + 1] + [e.s];
    ChordEnds(env, coords, e, q, v);
    hide Straight, Cumulative, On;
    forall i | 0 <= i < |pts| - 1 ensures env.dist(pts[i], pts[i + 1]) == pos[i + 1] - pos[i] {
      if y + i < q { CumulativeAt(env, coords, y + i); }
    }
  }

  // With no vertex kept, from cut to cut.
  lemma {:induction false} OnlyLegExactly(env: Env, coords: seq<Place>, s: Sample, p: nat, u: real, e: Sample, q: nat,
                                          v: real)
    requires Straight(env, coords) && p < q && q + 1 < |coords| == |Cumulative(env, coords)|
    requires On(env, coords, s, p, u) && On(env, coords, e, q, v)
    requires forall k :: 0 <= k < |coords| ==> !Inside(Cumulative(env, coords)[k], s.s, e.s)
    ensures env.dist(s.at, e.at) == e.s - s.s
            <==> NoDetour(env, coords, Cumulative(env, coords), Cuts(s.s, e.s, s.at, e.at), |coords|)
  {
    var cum, c := Cumulative(env, coords), Cuts(s.s, e.s, s.at, e.at);
    var pts, pos := [s.at] + coords[p + 1..q + 1] + [e.at], [s.s] + cum[p + 1..q + 1] + [e.s];
    var n := q + 1 - p;
    hide Chords, Cumulative, On, Metric, Harmless, Forward, Path, Inside;
    OnlyPath(env, coords, s, p, u, e, q, v);
    StraightExactly(env, pts, pos, n);
    assert pts[n] == e.at && pos[n] == e.s;
    forall k: nat | k <= p ensures Harmless(env, coords, cum, c, k) { UpToCut(env, coords, s, e, p, u, k); }
    forall k: nat | q < k < |coords| ensures Harmless(env, coords, cum, c, k) { PastCut(env, coords, s, e, q, v, k); }
    forall k: nat | p < k < p + n ensures Harmless(env, coords, cum, c, k) <==> Forward(env, pts, k - p) {
      OnlyStep(env, coords, s, p, u, e, q, v, k);
    }
    LegMatches(env, pts, n, coords, cum, c, p);
  }

  lemma {:induction false} OnlyStep(env: Env, coords: seq<Place>, s: Sample, p: nat, u: real, e: Sample, q: nat,
                                    v: real, k: nat)
    requires Straight(env, coords) && p < k <= q && q + 1 < |coords| == |Cumulative(env, coords)|
    requires On(env, coords, s, p, u) && On(env, coords, e, q, v)
    requires forall i :: 0 <= i < |coords| ==> !Inside(Cumulative(env, coords)[i], s.s, e.s)
    ensures Harmless(env, coords, Cumulative(env, coords), Cuts(s.s, e.s, s.at, e.at), k)
            <==> Forward(env, [s.at] + coords[p + 1..q + 1] + [e.at], k - p)
  {
    var cum, c := Cumulative(env, coords), Cuts(s.s, e.s, s.at, e.at);
    var pts := [s.at] + coords[p + 1..q + 1] + [e.at];
    var next := if k < q then coords[k + 1] else e.at;
    assert pts[k - p] == coords[k] && pts[k - p + 1] == next;
    BeforeIs(coords, cum, c, 0, 0, k);
    NextStep(env, coords, s, e, q, v, s.at, k, next);
    AtTheCut(env, coords, s, p, u, k, next);
    hide Straight, Cumulative, On, Before, After, OnTheWay, Inside;
    assert !Inside(cum[k], c.a, c.b);
  }

  lemma {:induction false} OnlyPath(env: Env, coords: seq<Place>, s: Sample, p: nat, u: real, e: Sample, q: nat,
                                    v: real)
    requires Straight(env, coords) && p < q && q + 1 < |coords| == |Cumulative(env, coords)|
    requires On(env, coords, s, p, u) && On(env, coords, e, q, v)
    ensures Path(env, [s.at] + coords[p + 1..q + 1] + [e.at], [s.s] + Cumulative(env, coords)[p + 1..q + 1] + [e.s])
  {
    var cum := Cumulative(env, coords);
    FirstPath(env, coords, s, p, u, q);
    ChordEnds(env, coords, e, q, v);
    hide Straight, Cumulative, On, Path;
    PathAppend(env, [s.at] + coords[p + 1..q + 1], [s.s] + cum[p + 1..q + 1], e.at, e.s);
  }

  lemma PathAppend(env: Env, pts: seq<Place>, pos: seq<real>, q: Place, s: real)
    requires Path(env, pts, pos) && pts != [] && env.dist(pts[|pts| - 1], q) == s - pos[|pos| - 1]
    ensures Path(env, pts + [q], pos + [s])
  {
    var pts', pos' := pts + [q], pos + [s];
    forall i | 0 <= i < |pts'| - 1 ensures env.dist(pts'[i], pts'[i + 1]) == pos'[i + 1] - pos'[i] {
      if i < |pts| - 1 { assert env.dist(pts[i], pts[i + 1]) == pos[i + 1] - pos[i]; }
    }
  }

  // A vertex kept was not dropped, and one far off is neither.
  lemma KeptIsHarmless(env: Env, coords: seq<Place>, at: seq<real>, c: Cuts, x: nat, y: nat)
    requires x <= y <= |coords| == |at| && forall k :: x <= k < y ==> Inside(at[k], c.a, c.b)
    ensures NoDetour(env, coords, at, c, |coords|) <==>
              && NoDetour(env, coords, at, c, x)
              && forall k: nat :: y <= k < |coords| ==> Harmless(env, coords, at, c, k)
  {
    hide Inside, Before, After, OnTheWay;
    if NoDetour(env, coords, at, c, x) && forall k: nat :: y <= k < |coords| ==> Harmless(env, coords, at, c, k) {
      forall k: nat | k < |coords| ensures Harmless(env, coords, at, c, k) {
        if k < x { assert Harmless(env, coords, at, c, k); }
      }
    }
  }

  lemma {:induction false} SomeLegs(env: Env, coords: seq<Place>, s: Sample, e: Sample, p: nat, u: real, q: nat,
                                    v: real, x: nat, y: nat)
    requires Straight(env, coords) && On(env, coords, s, p, u) && On(env, coords, e, q, v)
    requires p < x < y <= q + 1 < |coords| == |Cumulative(env, coords)|
    requires var cum, c := Cumulative(env, coords), Cuts(s.s, e.s, s.at, e.at);
             && (forall k :: 0 <= k < x ==> cum[k] <= c.a + EPS_M) && (forall k :: y <= k < |coords| ==> c.b - EPS_M <= cum[k])
             && (forall k :: 0 <= k < |coords| ==> (Inside(cum[k], c.a, c.b) <==> x <= k < y))
             && Inner(coords, cum, c.a, c.b) == coords[x..y]
    ensures Measured(env, coords, Cuts(s.s, e.s, s.at, e.at))
  {
    var cum := Cumulative(env, coords);
    var c := Cuts(s.s, e.s, s.at, e.at);
    hide Chords, Cumulative, PolyLength, On, Between, Inside, Inner, FirstInner, Part, Tolerance, Metric;
    FirstLeg(env, coords, s, p, u, x);
    LastLeg(env, coords, e, q, v, y - 1);
    PolyLengthSlice(env, coords, c.cutA, x, y);
    var before := [c.cutA] + coords[x..y];
    PolyLengthAppend(env, before, c.cutB);
    assert before[|before| - 1] == coords[y - 1];
    FirstInnerIs(cum, c.a, c.b, x);
    FirstLegExactly(env, coords, s, e, p, u, x, y);
    LastLegExactly(env, coords, s, e, q, v, x, y - 1);
    KeptIsHarmless(env, coords, cum, c, x, y);
    hide NoDetour, Harmless;
  }

  lemma {:induction false} NoLegs(env: Env, coords: seq<Place>, s: Sample, e: Sample, p: nat, u: real, q: nat,
                                  v: real, x: nat)
    requires Straight(env, coords) && s.s < e.s && On(env, coords, s, p, u) && On(env, coords, e, q, v)
    requires p <= q && q + 1 < |coords| == |Cumulative(env, coords)|
    requires var cum, c := Cumulative(env, coords), Cuts(s.s, e.s, s.at, e.at);
             && (forall k :: 0 <= k < |coords| ==>
                   if k < x then cum[k] <= c.a + EPS_M else c.b - EPS_M <= cum[k])
             && (forall k :: 0 <= k < |coords| ==> !Inside(cum[k], c.a, c.b))
             && Inner(coords, cum, c.a, c.b) == []
    ensures Measured(env, coords, Cuts(s.s, e.s, s.at, e.at))
  {
    var c := Cuts(s.s, e.s, s.at, e.at);
    hide Chords, Cumulative, PolyLength, On, Between, Inside, Inner, FirstInner, Part, Tolerance, Metric;
    SomeTolerance(env, coords);
    assert [c.cutA] + [] + [c.cutB] == [c.cutA] + [c.cutB];
    PolyLengthAppend(env, [c.cutA], c.cutB);
    OnePoint(env, c.cutA);
    NoneInner(Cumulative(env, coords), c);
    if p < q {
      OnlyLeg(env, coords, s, p, u, e, q, v, x);
      OnlyLegExactly(env, coords, s, p, u, e, q, v);
    } else {
      SameSegment(env, coords, s, p, u, e, v);
      NoneDropped(env, coords, s, p, u, e, v);
    }
    hide Harmless;
  }

  lemma {:induction false} NoneInner(at: seq<real>, c: Cuts)
    requires forall k :: 0 <= k < |at| ==> !Inside(at[k], c.a, c.b)
    ensures FirstInner(at, c.a, c.b) == None
  {
  }

  // Between two cuts on one segment there is no vertex.
  lemma {:induction false} NoneDropped(env: Env, coords: seq<Place>, s: Sample, p: nat, u: real, e: Sample, v: real)
    requires Metric(env) && On(env, coords, s, p, u) && On(env, coords, e, p, v)
    ensures |coords| == |Cumulative(env, coords)|
    ensures NoDetour(env, coords, Cumulative(env, coords), Cuts(s.s, e.s, s.at, e.at), |coords|)
  {
    var cum, c := Cumulative(env, coords), Cuts(s.s, e.s, s.at, e.at);
    Bracket(env, coords, s, p, u);
    Bracket(env, coords, e, p, v);
    hide Metric, Cumulative, On, Before, After, OnTheWay;
    forall k: nat | k < |coords| ensures Harmless(env, coords, cum, c, k) {
      if k <= p { Rises(env, coords, k, p); } else { Rises(env, coords, p + 1, k); }
    }
  }

  lemma {:induction false} FirstInnerIs(at: seq<real>, a: real, b: real, x: nat)
    requires x < |at| && Inside(at[x], a, b) && forall k :: 0 <= k < x ==> !Inside(at[k], a, b)
    ensures FirstInner(at, a, b) == Some(x)
  {
  }

  // `distance_m` is the length of the stretch kept, and maneuver offsets lose
  // the length before it: exactly, if and only if no vertex dropped next to a
  // cut was a detour; where vertices are repeated or told apart that is so, and
  // on every line it is so to within a few times the slack.
  lemma {:induction false} KeptLength(env: Env, coords: seq<Place>, centers: seq<Anchor>, i: nat, j: nat)
    requires |coords| >= 2 && Straight(env, coords) && i < j < |Samples(env, coords, centers)|
    ensures |coords| == |Cumulative(env, coords)|
    ensures var ss := Samples(env, coords, centers);
            ss[i].s <= ss[j].s && Measured(env, coords, Cuts(ss[i].s, ss[j].s, ss[i].at, ss[j].at))
  {
    AllSamplesOn(env, coords, centers);
    hide Straight, Cumulative, On, Samples, Measured;
    var ss := Samples(env, coords, centers);
    assert OnLine(env, coords, ss[i]) && OnLine(env, coords, ss[j]);
    if ss[i].s < ss[j].s {
      var p: nat, u :| On(env, coords, ss[i], p, u);
      var q: nat, v :| On(env, coords, ss[j], q, v);
      StretchLength(env, coords, ss[i], ss[j], p, u, q, v);
    } else {
      EmptyStretch(env, coords, ss[i], ss[j]);
    }
  }

  lemma {:induction false} EmptyStretch(env: Env, coords: seq<Place>, s: Sample, e: Sample)
    requires Straight(env, coords) && |coords| >= 2 && OnLine(env, coords, s) && OnLine(env, coords, e) && s.s == e.s
    ensures |coords| == |Cumulative(env, coords)| && Measured(env, coords, Cuts(s.s, e.s, s.at, e.at))
  {
    var cum := Cumulative(env, coords);
    var c := Cuts(s.s, e.s, s.at, e.at);
    hide Chords, Cumulative, PolyLength, OnLine, Inner, FirstInner, Tolerance, Metric;
    SomeTolerance(env, coords);
    SamePosition(env, coords, s, e);
    InnerIsSlice(coords, cum, c.a, c.b, 0, 0);
    assert coords[0..0] == [];
    assert [c.cutA] + [] + [c.cutB] == [c.cutA] + [c.cutB];
    PolyLengthAppend(env, [c.cutA], c.cutB);
    OnePoint(env, c.cutA);
    NoneInner(cum, c);
    hide Before, After, OnTheWay;
    assert forall k: nat :: k < |coords| ==> Harmless(env, coords, cum, c, k);
  }

  // ------------------------------------------------------------ maneuvers

  // Of the maneuvers ms, those at `from` are kept, as rs: each where it was and
  // as far from the start of the stretch as before, in the same order; and of
  // two that did not have to be moved up to the cut, exactly as far apart.
  ghost predicate Rebased(ms: seq<Maneuver>, rs: seq<Maneuver>, from: seq<nat>, a: real, tol: real) {
    && |from| == |rs| && (forall k :: 0 <= k < |from| ==> from[k] < |ms|)
    && (forall k, l :: 0 <= k < l < |from| ==> from[k] < from[l])
    && (forall k :: 0 <= k < |rs| ==> rs[k].at == ms[from[k]].at && RebasedOne(ms[from[k]].offset, rs[k].offset, a, tol))
    && (forall k, l :: 0 <= k < |rs| && 0 <= l < |rs| ==>
          Spaced(ms[from[k]].offset, rs[k].offset, ms[from[l]].offset, rs[l].offset))
  }

  predicate RebasedOne(before: real, after: real, a: real, tol: real) {
    0.0 <= after && -EPS_M <= before - a && before - a - tol <= after <= before - a + EPS_M
  }

  predicate Spaced(before: real, after: real, before': real, after': real) {
    && (before <= before' ==> after <= after')
    && (after > 0.0 && after' > 0.0 ==> after' - after == before' - before)
  }

  function Moved(m: Maneuver, shift: real): Maneuver {
    m.(offset := if m.offset - shift > 0.0 then m.offset - shift else 0.0)
  }

  // Exactly the maneuvers of the stretch that are clear are kept, in order.
  lemma {:induction false} ManeuversKept(env: Env, ms: seq<Maneuver>, c: Cuts, shift: real, centers: seq<Anchor>)
    returns (from: seq<nat>)
    ensures var rs := ManeuversCut(env, ms, c, shift, centers);
            && |from| == |rs| && (forall k, l :: 0 <= k < l < |from| ==> from[k] < from[l])
            && (forall i: nat :: i in from <==> i < |ms| && ManeuverStays(env, ms[i], c, centers))
            && forall k :: 0 <= k < |rs| ==> from[k] < |ms| && rs[k] == Moved(ms[from[k]], shift)
  {
    hide ManeuverStays;
    from := [];
    if ms != [] {
      var n := |ms| - 1;
      from := ManeuversKept(env, ms[..n], c, shift, centers);
      assert forall k :: 0 <= k < |from| ==> from[k] in from;
      if ManeuverStays(env, ms[n], c, centers) { from := from + [n]; }
    }
  }

  lemma ManeuversRebased(env: Env, ms: seq<Maneuver>, c: Cuts, shift: real, tol: real, centers: seq<Anchor>)
    returns (from: seq<nat>)
    requires c.a <= c.b && c.a <= shift <= c.a + tol
    ensures var rs := ManeuversCut(env, ms, c, shift, centers);
            && Rebased(ms, rs, from, c.a, tol)
            && (forall i: nat :: i in from <==> i < |ms| && ManeuverStays(env, ms[i], c, centers))
            && forall k :: 0 <= k < |rs| ==> rs[k].offset <= c.b - c.a + EPS_M
  {
    from := ManeuversKept(env, ms, c, shift, centers);
    hide ManeuversCut, Env.PlaceClear;
    var rs := ManeuversCut(env, ms, c, shift, centers);
    forall k | 0 <= k < |rs|
      ensures RebasedOne(ms[from[k]].offset, rs[k].offset, c.a, tol) && rs[k].offset <= c.b - c.a + EPS_M {
      assert from[k] in from;
    }
  }

  // A clipped artifact's distance is the length of the stretch kept: exactly,
  // unless a vertex dropped next to a cut was a detour. Every maneuver of the
  // stretch that is clear is kept, within it and as far from its start as
  // before, but for the slack the cut allows itself; and maneuvers keep their
  // order and their distances from one another.
  lemma ClippedIsRebased(env: Env, artifact: Artifact, anchors: seq<Anchor>) returns (i: nat, j: nat, from: seq<nat>)
    requires Clipped(env, artifact, anchors).Some? && Straight(env, artifact.coords)
    ensures var clip, coords := Clipped(env, artifact, anchors).value, artifact.coords;
            var centers := Centers(artifact, anchors);
            var ss, cum, tol := Samples(env, coords, centers), Cumulative(env, coords), Tolerance(env, coords);
            && |cum| == |coords| && IsBest(ss, |ss|, i, j) && j < |ss|
            && var c := Cuts(ss[i].s, ss[j].s, ss[i].at, ss[j].at);
               && c.b - c.a - 4.0 * tol <= clip.distance <= c.b - c.a
               && (clip.distance == c.b - c.a <==> NoDetour(env, coords, cum, c, |coords|))
               && Rebased(artifact.maneuvers, clip.maneuvers, from, c.a, 2.0 * tol)
               && (forall k: nat :: k in from <==>
                     && k < |artifact.maneuvers| && env.PlaceClear(artifact.maneuvers[k].at, centers)
                     && c.a - EPS_M <= artifact.maneuvers[k].offset <= c.b + EPS_M)
               && forall k :: 0 <= k < |clip.maneuvers| ==> clip.maneuvers[k].offset <= c.b - c.a + EPS_M
  {
    hide Samples, Inner, PolyLength, Cumulative, Straight, Centers, SegmentsCut, UnsafeCut, ManeuversCut, Rebased, Shift,
         Clipped, IsBest, Tolerance, NoDetour, ManeuverStays, KeptFrom;
    i, j := ClippedIsCut(env, artifact, anchors);
    var centers, tol := Centers(artifact, anchors), Tolerance(env, artifact.coords);
    var ss := Samples(env, artifact.coords, centers);
    KeptLength(env, artifact.coords, centers, i, j);
    var c := Cuts(ss[i].s, ss[j].s, ss[i].at, ss[j].at);
    var cum := Cumulative(env, artifact.coords);
    from := ManeuversRebased(env, artifact.maneuvers, c, Shift(env, artifact.coords, cum, c), 2.0 * tol, centers);
    StaysExactly(env, artifact.maneuvers, c, centers);
  }

  lemma StaysExactly(env: Env, ms: seq<Maneuver>, c: Cuts, centers: seq<Anchor>)
    ensures forall k: nat :: k < |ms| ==>
              (ManeuverStays(env, ms[k], c, centers)
               <==> env.PlaceClear(ms[k].at, centers) && c.a - EPS_M <= ms[k].offset <= c.b + EPS_M)
  {
    hide Env.PlaceClear;
  }

  lemma ClippedIsCut(env: Env, artifact: Artifact, anchors: seq<Anchor>) returns (i: nat, j: nat)
    requires Clipped(env, artifact, anchors).Some?
    ensures |artifact.coords| >= 2
    ensures var ss := Samples(env, artifact.coords, Centers(artifact, anchors));
            && i < j < |ss| && IsBest(ss, |ss|, i, j)
            && Clipped(env, artifact, anchors) == CutTo(env, artifact, Centers(artifact, anchors), ss, i, j)
  {
    hide CutTo, Samples, Centers;
    assert |artifact.coords| >= 2;
    var centers := Centers(artifact, anchors);
    var ss := Samples(env, artifact.coords, centers);
    var best: (nat, nat) :| IsBest(ss, |ss|, best.0, best.1)
      && Clipped(env, artifact, anchors) == CutTo(env, artifact, centers, ss, best.0, best.1);
    i, j := best.0, best.1;
  }
}
