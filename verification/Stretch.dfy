// The stretch a clipped artifact keeps (web/lib/tracePrivacy.ts): when there
// is one, how clear the whole of it is, and how little more is cut away than
// has to be.
module Stretch {
  import opened Topology
  import opened TraceTypes
  import opened Clip
  import opened ClipLength

  // ------------------------------------------------------------- the samples

  // Whether a sample is marked clear is whether it is.
  ghost predicate Truthful(env: Env, ss: seq<Sample>, centers: seq<Anchor>) {
    forall k :: 0 <= k < |ss| ==> ss[k].clear == env.PlaceClear(ss[k].at, centers)
  }

  // A sample at most a metre after another, or after nothing.
  ghost predicate Soon(ss: seq<Sample>, s: real) { ss != [] ==> s - ss[|ss| - 1].s <= 1.0 }

  ghost predicate Spaced(ss: seq<Sample>) {
    forall k :: 0 < k < |ss| ==> Soon(ss[..k], ss[k].s)
  }

  lemma StepLength(len: real, k: nat)
    requires 0.0 <= len
    ensures Part(Ratio(k + 1, Steps(len)), len) - Part(Ratio(k, Steps(len)), len) <= 1.0
    ensures Part(Ratio(Steps(len), Steps(len)), len) == len
  {
    var n := Steps(len) as real;
    assert len <= n;
    var u := Ratio(k + 1, Steps(len)) - Ratio(k, Steps(len));
    assert u == (k as real + 1.0) / n - k as real / n == 1.0 / n;
    assert u * n == 1.0;
    assert u > 0.0;
    assert (n - len) * u >= 0.0;
    assert Part(Ratio(k + 1, Steps(len)), len) - Part(Ratio(k, Steps(len)), len) == u * len;
  }

  lemma {:induction false} SegmentSpaced(env: Env, coords: seq<Place>, centers: seq<Anchor>, p: nat, k: nat)
    requires p + 1 < |coords| && Metric(env)
    requires k < Steps(Cumulative(env, coords)[p + 1] - Cumulative(env, coords)[p])
    ensures var cum := Cumulative(env, coords);
            var smp, n := SampleAt(env, coords, cum, centers, p, k), Steps(cum[p + 1] - cum[p]);
            && smp.clear == env.PlaceClear(smp.at, centers)
            && (k == 0 ==> smp.s == cum[p] && smp.at == coords[p])
            && (k + 1 < n ==> SampleAt(env, coords, cum, centers, p, k + 1).s - smp.s <= 1.0)
            && (k + 1 == n ==> cum[p + 1] - smp.s <= 1.0)
  {
    hide *;
    var cum := Cumulative(env, coords);
    CumulativeAt(env, coords, p);
    Rises(env, coords, p, p + 1);
    SampleTells(env, coords, cum, centers, p, k);
    SampleShape(env, coords, cum, centers, p, k);
    SampleShape(env, coords, cum, centers, p, k + 1);
    StepLength(cum[p + 1] - cum[p], k);
  }

  lemma SampleTells(env: Env, coords: seq<Place>, cum: seq<real>, centers: seq<Anchor>, p: nat, k: nat)
    requires p + 1 < |coords| == |cum|
    ensures var smp := SampleAt(env, coords, cum, centers, p, k);
            smp.clear == env.PlaceClear(smp.at, centers) && (k == 0 ==> smp.s == cum[p] && smp.at == coords[p])
  {
    hide Steps, Between, Env.PlaceClear;
  }

  // The samples of the first n segments, and the vertices they begin at.
  ghost predicate Sampled(env: Env, coords: seq<Place>, centers: seq<Anchor>, ss: seq<Sample>, n: nat)
    requires n < |coords| == |Cumulative(env, coords)|
  {
    && Truthful(env, ss, centers) && Spaced(ss) && Soon(ss, Cumulative(env, coords)[n])
    && forall v: nat :: v < n ==> SampledAt(env, coords, centers, ss, v)
  }

  ghost predicate SampledAt(env: Env, coords: seq<Place>, centers: seq<Anchor>, ss: seq<Sample>, v: nat)
    requires v < |coords| == |Cumulative(env, coords)|
  {
    exists k :: 0 <= k < |ss| && ss[k] == Sample(coords[v], Cumulative(env, coords)[v], env.PlaceClear(coords[v], centers))
  }

  lemma {:induction false} OneSample(env: Env, coords: seq<Place>, centers: seq<Anchor>, p: nat)
    requires p + 1 < |coords| && Metric(env)
    ensures var cum := Cumulative(env, coords);
            var row := SegmentSamples(env, coords, cum, centers, p, Steps(cum[p + 1] - cum[p]));
            && Truthful(env, row, centers) && Spaced(row) && Soon(row, cum[p + 1]) && row != []
            && row[0] == Sample(coords[p], cum[p], env.PlaceClear(coords[p], centers))
  {
    hide Metric, Cumulative, Steps, Env.PlaceClear, SampleAt;
    var cum := Cumulative(env, coords);
    var row := SegmentSamples(env, coords, cum, centers, p, Steps(cum[p + 1] - cum[p]));
    forall k | 0 <= k < |row|
      ensures row[k].clear == env.PlaceClear(row[k].at, centers)
      ensures k == 0 ==> row[k].s == cum[p] && row[k].at == coords[p]
      ensures k + 1 < |row| ==> row[k + 1].s - row[k].s <= 1.0 {
      SegmentSpaced(env, coords, centers, p, k);
    }
    forall k | 0 < k < |row| ensures Soon(row[..k], row[k].s) {
      assert row[k - 1 + 1].s - row[k - 1].s <= 1.0;
    }
    assert row[0].clear == env.PlaceClear(row[0].at, centers);
    SegmentSpaced(env, coords, centers, p, |row| - 1);
  }

  lemma {:induction false} SampledMore(env: Env, coords: seq<Place>, centers: seq<Anchor>, ss: seq<Sample>,
                                       row: seq<Sample>, n: nat)
    requires n + 1 < |coords| == |Cumulative(env, coords)|
    requires Sampled(env, coords, centers, ss, n) && Truthful(env, row, centers) && Spaced(row) && row != []
    requires Soon(row, Cumulative(env, coords)[n + 1])
    requires row[0] == Sample(coords[n], Cumulative(env, coords)[n], env.PlaceClear(coords[n], centers))
    ensures Sampled(env, coords, centers, ss + row, n + 1)
  {
    hide Cumulative, Env.PlaceClear;
    var all := ss + row;
    forall k | 0 < k < |all| ensures Soon(all[..k], all[k].s) {
      if k < |ss| {
        assert Soon(ss[..k], ss[k].s);
      } else if k > |ss| {
        assert Soon(row[..k - |ss|], row[k - |ss|].s);
      }
    }
    forall v: nat | v < n + 1 ensures SampledAt(env, coords, centers, all, v) {
      if v < n {
        assert SampledAt(env, coords, centers, ss, v);
        var k :| && 0 <= k < |ss|
                 && ss[k] == Sample(coords[v], Cumulative(env, coords)[v], env.PlaceClear(coords[v], centers));
        assert all[k] == ss[k];
      } else {
        assert all[|ss|] == row[0];
      }
    }
  }

  lemma {:induction false} SampledTo(env: Env, coords: seq<Place>, centers: seq<Anchor>, n: nat)
    requires n < |coords| == |Cumulative(env, coords)| && Metric(env)
    ensures Sampled(env, coords, centers, SamplesTo(env, coords, Cumulative(env, coords), centers, n), n)
  {
    hide Cumulative, Metric, SegmentSamples, Steps;
    if n > 0 {
      hide Sampled;
      var cum := Cumulative(env, coords);
      SampledTo(env, coords, centers, n - 1);
      OneSample(env, coords, centers, n - 1);
      SampledMore(env, coords, centers, SamplesTo(env, coords, cum, centers, n - 1),
                  SegmentSamples(env, coords, cum, centers, n - 1, Steps(cum[n] - cum[n - 1])), n - 1);
    }
  }

  // Every vertex of the line is sampled, and from sample to sample it is never
  // more than a metre.
  lemma {:induction false} EveryMetre(env: Env, coords: seq<Place>, centers: seq<Anchor>)
    requires |coords| >= 2 && Metric(env)
    ensures |coords| == |Cumulative(env, coords)|
    ensures var ss := Samples(env, coords, centers);
            && Truthful(env, ss, centers) && Spaced(ss)
            && forall v: nat :: v < |coords| ==> SampledAt(env, coords, centers, ss, v)
  {
    hide Cumulative, Metric, SamplesTo, Env.PlaceClear;
    assert |coords| == |Cumulative(env, coords)| by { CumulativeAt(env, coords, 0); }
    var n := |coords| - 1;
    SampledTo(env, coords, centers, n);
    var before := SamplesTo(env, coords, Cumulative(env, coords), centers, n);
    var last := LastSample(env, coords, Cumulative(env, coords), centers);
    var ss := Samples(env, coords, centers);
    assert ss == before + [last];
    forall k | 0 < k < |ss| ensures Soon(ss[..k], ss[k].s) {
      if k < |before| {
        assert ss[..k] == before[..k] && Soon(before[..k], before[k].s);
      } else {
        assert ss[..k] == before;
      }
    }
    forall v: nat | v < |coords| ensures SampledAt(env, coords, centers, ss, v) {
      if v < n {
        assert SampledAt(env, coords, centers, before, v);
        var k :| && 0 <= k < |before|
                 && before[k] == Sample(coords[v], Cumulative(env, coords)[v], env.PlaceClear(coords[v], centers));
        assert ss[k] == before[k];
      } else {
        assert ss[|before|] == last;
      }
    }
  }

  // ------------------------------------------------ when there is a stretch

  predicate BothClear(ss: seq<Sample>, k: int) { ClearAt(ss, k) && ClearAt(ss, k + 1) }

  // A clear stretch, made as long as it goes.
  lemma Extend(ss: seq<Sample>, a: nat, b: nat) returns (i: nat, j: nat)
    requires AllClear(ss, a, b)
    ensures Run(ss, i, j) && i <= a && b <= j
  {
    i, j := a, b;
    while i > 0 && ss[i - 1].clear
      invariant i <= a && AllClear(ss, i, b)
    {
      i := i - 1;
    }
    while j + 1 < |ss| && ss[j + 1].clear
      invariant b <= j < |ss| && AllClear(ss, i, j)
      decreases |ss| - j
    {
      j := j + 1;
    }
  }

  lemma {:induction false} BestExists(ss: seq<Sample>, upto: nat, i: nat, j: nat) returns (i': nat, j': nat)
    requires i < j && i < upto <= |ss| && Run(ss, i, j)
    ensures IsBest(ss, upto, i', j')
    decreases upto
  {
    var n: nat := upto - 1;
    if a: nat, b: nat :| a < b && a < n && Run(ss, a, b) {
      i', j' := BestExists(ss, n, a, b);
      if l: nat :| n < l && Run(ss, n, l) {
        RunsFrom(ss, n, l);
        if Length(ss, n, l) > Length(ss, i', j') { i', j' := n, l; }
      }
    } else {
      RunsFrom(ss, i, j);
      i', j' := i, j;
    }
  }

  lemma {:induction false} InnerFrom(coords: seq<Place>, at: seq<real>, a: real, b: real, k: nat) returns (v: nat)
    requires |coords| == |at| && k < |Inner(coords, at, a, b)|
    ensures v < |coords| && Inside(at[v], a, b) && coords[v] == Inner(coords, at, a, b)[k]
  {
    hide Inside;
    var n := |coords| - 1;
    if k < |Inner(coords[..n], at[..n], a, b)| {
      v := InnerFrom(coords[..n], at[..n], a, b, k);
    } else {
      v := n;
    }
  }

  // A vertex between two samples of a clear run is one of its samples.
  lemma {:induction false} VertexIsClear(env: Env, coords: seq<Place>, centers: seq<Anchor>, i: nat, j: nat, v: nat)
    requires |coords| >= 2 && Metric(env) && AllClear(Samples(env, coords, centers), i, j)
    requires v < |coords| == |Cumulative(env, coords)|
    requires Samples(env, coords, centers)[i].s < Cumulative(env, coords)[v] < Samples(env, coords, centers)[j].s
    ensures env.PlaceClear(coords[v], centers)
  {
    EveryMetre(env, coords, centers);
    AllSamplesOn(env, coords, centers);
    hide Metric, Cumulative, Samples, OnLine, Env.PlaceClear;
    var ss := Samples(env, coords, centers);
    assert SampledAt(env, coords, centers, ss, v);
    var k: nat :| k < |ss| && ss[k] == Sample(coords[v], Cumulative(env, coords)[v], env.PlaceClear(coords[v], centers));
    assert i <= k <= j;
    assert ClearAt(ss, k);
  }

  // What is kept never turns out not to be clear after all.
  lemma NeverFailsClosed(env: Env, artifact: Artifact, anchors: seq<Anchor>, i: nat, j: nat)
    requires |artifact.coords| >= 2 && Metric(env)
    requires AllClear(Samples(env, artifact.coords, Centers(artifact, anchors)), i, j)
    ensures var centers := Centers(artifact, anchors);
            CutTo(env, artifact, centers, Samples(env, artifact.coords, centers), i, j).Some?
  {
    var coords, centers := artifact.coords, Centers(artifact, anchors);
    EveryMetre(env, coords, centers);
    hide Metric, Cumulative, Samples, Env.PlaceClear, Centers, Inner, AllClear, SegmentsCut, ManeuversCut, UnsafeCut, Shift;
    var ss, cum := Samples(env, coords, centers), Cumulative(env, coords);
    assert ss[i].clear && ss[j].clear by { EndsClear(ss, i, j); }
    var inner := Inner(coords, cum, ss[i].s, ss[j].s);
    forall k: nat | k < |inner| ensures env.PlaceClear(inner[k], centers) {
      var v := InnerFrom(coords, cum, ss[i].s, ss[j].s, k);
      VertexIsClear(env, coords, centers, i, j, v);
    }
  }

  lemma EndsClear(ss: seq<Sample>, i: nat, j: nat)
    requires AllClear(ss, i, j)
    ensures i <= j < |ss| && ss[i].clear && ss[j].clear
  {
    assert ClearAt(ss, i) && ClearAt(ss, j);
  }

  // A route is kept back whole exactly when nowhere along it two samples in a
  // row are clear.
  lemma LostExactly(env: Env, artifact: Artifact, anchors: seq<Anchor>)
    requires Metric(env)
    ensures Clipped(env, artifact, anchors).None? <==>
              || |artifact.coords| < 2
              || forall k :: !BothClear(Samples(env, artifact.coords, Centers(artifact, anchors)), k)
  {
    hide Samples, Metric, Centers, CutTo, IsBest;
    if |artifact.coords| >= 2 {
      var ss := Samples(env, artifact.coords, Centers(artifact, anchors));
      if k: nat :| BothClear(ss, k) {
        assert AllClear(ss, k, k + 1);
        var a, b := Extend(ss, k, k + 1);
        var i, j := BestExists(ss, |ss|, a, b);
        BestIsClipped(env, artifact, anchors, i, j);
        BestIsRun(ss, i, j);
        NeverFailsClosed(env, artifact, anchors, i, j);
      } else {
        forall best: (nat, nat) ensures !IsBest(ss, |ss|, best.0, best.1) {
          if IsBest(ss, |ss|, best.0, best.1) { BestIsRun(ss, best.0, best.1); }
        }
        NoneBefore(ss);
      }
    }
  }

  lemma NoneBefore(ss: seq<Sample>)
    ensures forall k :: BothClear(ss, k) ==> k >= 0
  {
  }

  lemma BestIsRun(ss: seq<Sample>, i: nat, j: nat)
    requires IsBest(ss, |ss|, i, j)
    ensures i < j && Run(ss, i, j) && AllClear(ss, i, j) && BothClear(ss, i)
  {
  }

  // -------------------------------------------------- how clear it is

  // Two places on the line are no further apart than the line between them is
  // long.
  lemma Close(env: Env, coords: seq<Place>, s: Sample, e: Sample)
    requires Straight(env, coords) && OnLine(env, coords, s) && OnLine(env, coords, e) && s.s <= e.s
    ensures env.dist(s.at, e.at) == env.dist(e.at, s.at) <= e.s - s.s
  {
    hide Chords, Cumulative, On, Metric;
    var p: nat, u :| On(env, coords, s, p, u);
    var q: nat, v :| On(env, coords, e, q, v);
    Triangle(env, s.at, e.at, e.at);
    if p < q {
      LineBound(env, coords, s, p, u, e, q, v);
    } else if p == q {
      SameSegment(env, coords, s, p, u, e, v);
    } else {
      Bracket(env, coords, s, p, u);
      Bracket(env, coords, e, q, v);
      Rises(env, coords, q + 1, p);
      LineBound(env, coords, e, q, v, s, p, u);
    }
  }

  lemma {:induction false} Nearby(ss: seq<Sample>, i: nat, j: nat, x: real) returns (k: nat)
    requires i <= j < |ss| && Spaced(ss) && ss[i].s <= x <= ss[j].s
    ensures i <= k <= j && x - 0.5 <= ss[k].s <= x + 0.5
    decreases j
  {
    if ss[j].s <= x + 0.5 {
      k := j;
    } else {
      assert Soon(ss[..j], ss[j].s);
      if x <= ss[j - 1].s { k := Nearby(ss, i, j - 1, x); } else { k := j - 1; }
    }
  }

  // The samples are a metre apart, so no place of the line between the cuts,
  // vertex or not, is within 299.5 m of a private point.
  lemma AllOfItIsClear(env: Env, coords: seq<Place>, centers: seq<Anchor>, i: nat, j: nat, here: Sample, t: nat)
    requires |coords| >= 2 && Straight(env, coords) && AllClear(Samples(env, coords, centers), i, j)
    requires OnLine(env, coords, here) && t < |centers|
    requires Samples(env, coords, centers)[i].s <= here.s <= Samples(env, coords, centers)[j].s
    ensures env.dist(here.at, centers[t].at) - centers[t].accuracy >= 299.5
  {
    EveryMetre(env, coords, centers);
    AllSamplesOn(env, coords, centers);
    hide Chords, Cumulative, Samples, OnLine, Metric;
    var ss := Samples(env, coords, centers);
    var k := Nearby(ss, i, j, here.s);
    assert ClearAt(ss, k);
    IsClear(env, ss[k].at, centers, t);
    if here.s <= ss[k].s { Close(env, coords, here, ss[k]); } else { Close(env, coords, ss[k], here); }
    Triangle(env, ss[k].at, here.at, centers[t].at);
  }

  lemma IsClear(env: Env, at: Place, centers: seq<Anchor>, t: nat)
    requires env.PlaceClear(at, centers) && t < |centers|
    ensures env.dist(at, centers[t].at) - centers[t].accuracy >= 300.0
  {
  }

  // Nothing near is left out: a place less than 301 m from a private point.
  ghost predicate AtCircle(env: Env, at: Place, centers: seq<Anchor>) {
    exists t :: 0 <= t < |centers| && env.dist(at, centers[t].at) - centers[t].accuracy < 301.0
  }

  lemma NotClear(env: Env, at: Place, centers: seq<Anchor>) returns (t: nat)
    requires !env.PlaceClear(at, centers)
    ensures t < |centers| && env.dist(at, centers[t].at) - centers[t].accuracy < 300.0
  {
    t :| t < |centers| && env.Separation(Anchor(at, 0.0), centers[t]) < TRIM_M;
  }

  // The two ends of the line are themselves private, and the cuts are made no
  // later than a metre past a place that is not clear.
  lemma CutsNoMore(env: Env, artifact: Artifact, anchors: seq<Anchor>, i: nat, j: nat)
    requires |artifact.coords| >= 2 && Straight(env, artifact.coords)
    requires Run(Samples(env, artifact.coords, Centers(artifact, anchors)), i, j)
    ensures var centers := Centers(artifact, anchors);
            var ss := Samples(env, artifact.coords, centers);
            && 0 < i <= j < |ss| - 1 && AtCircle(env, ss[i].at, centers) && AtCircle(env, ss[j].at, centers)
  {
    var coords, centers := artifact.coords, Centers(artifact, anchors);
    hide *;
    EndsPrivate(env, artifact, anchors);
    RunInside(Samples(env, coords, centers), i, j);
    OneOff(env, coords, centers, i);
    OneOff(env, coords, centers, j + 1);
    var ss := Samples(env, coords, centers);
    NearMiss(env, coords, centers, ss[i - 1], ss[i]);
    NearMiss(env, coords, centers, ss[j + 1], ss[j]);
  }

  lemma RunInside(ss: seq<Sample>, i: nat, j: nat)
    requires Run(ss, i, j) && !ss[0].clear && !ss[|ss| - 1].clear
    ensures 0 < i <= j < |ss| - 1 && !ss[i - 1].clear && !ss[j + 1].clear
  {
    assert ClearAt(ss, i) && ClearAt(ss, j);
  }

  // Two samples in a row.
  lemma OneOff(env: Env, coords: seq<Place>, centers: seq<Anchor>, k: nat)
    requires |coords| >= 2 && Straight(env, coords) && 0 < k < |Samples(env, coords, centers)|
    ensures var ss := Samples(env, coords, centers);
            && ss[k - 1].s <= ss[k].s <= ss[k - 1].s + 1.0 && OnLine(env, coords, ss[k - 1]) && OnLine(env, coords, ss[k])
            && (!ss[k - 1].clear ==> !env.PlaceClear(ss[k - 1].at, centers))
            && (!ss[k].clear ==> !env.PlaceClear(ss[k].at, centers))
  {
    EveryMetre(env, coords, centers);
    AllSamplesOn(env, coords, centers);
    hide Chords, Cumulative, Samples, OnLine, Metric, Env.PlaceClear;
    assert Soon(Samples(env, coords, centers)[..k], Samples(env, coords, centers)[k].s);
  }

  lemma EndsPrivate(env: Env, artifact: Artifact, anchors: seq<Anchor>)
    requires |artifact.coords| >= 2 && Straight(env, artifact.coords)
    ensures var ss := Samples(env, artifact.coords, Centers(artifact, anchors));
            ss != [] && !ss[0].clear && !ss[|ss| - 1].clear
  {
    var coords, centers := artifact.coords, Centers(artifact, anchors);
    assert centers[|anchors|] == Anchor(coords[0], 0.0) && centers[|anchors| + 1] == Anchor(coords[|coords| - 1], 0.0);
    EveryMetre(env, coords, centers);
    AllSamplesOn(env, coords, centers);
    CumulativeAt(env, coords, 0);
    hide Chords, Cumulative, Samples, OnLine, Metric, Env.PlaceClear, Centers;
    var ss, cum := Samples(env, coords, centers), Cumulative(env, coords);
    assert SampledAt(env, coords, centers, ss, 0) && SampledAt(env, coords, centers, ss, |coords| - 1);
    var k :| 0 <= k < |ss| && ss[k] == Sample(coords[0], cum[0], env.PlaceClear(coords[0], centers));
    var n := |coords| - 1;
    var l :| 0 <= l < |ss| && ss[l] == Sample(coords[n], cum[n], env.PlaceClear(coords[n], centers));
    PrivateThere(env, coords, centers, ss[0], ss[k], |anchors|);
    PrivateThere(env, coords, centers, ss[|ss| - 1], ss[l], |anchors| + 1);
  }

  // A place at the position of a private one is not clear of it.
  lemma PrivateThere(env: Env, coords: seq<Place>, centers: seq<Anchor>, s: Sample, e: Sample, t: nat)
    requires Straight(env, coords) && OnLine(env, coords, s) && OnLine(env, coords, e) && s.s == e.s
    requires t < |centers| && centers[t] == Anchor(e.at, 0.0)
    ensures !env.PlaceClear(s.at, centers)
  {
    SamePosition(env, coords, s, e);
    hide Straight, OnLine;
    if env.PlaceClear(s.at, centers) { IsClear(env, s.at, centers, t); }
  }

  lemma NearMiss(env: Env, coords: seq<Place>, centers: seq<Anchor>, s: Sample, e: Sample)
    requires Straight(env, coords) && OnLine(env, coords, s) && OnLine(env, coords, e) && -1.0 <= e.s - s.s <= 1.0
    requires !env.PlaceClear(s.at, centers)
    ensures AtCircle(env, e.at, centers)
  {
    hide Chords, OnLine, Metric, Env.PlaceClear;
    var t := NotClear(env, s.at, centers);
    if s.s <= e.s { Close(env, coords, s, e); } else { Close(env, coords, e, s); }
    Triangle(env, e.at, s.at, centers[t].at);
  }
}
