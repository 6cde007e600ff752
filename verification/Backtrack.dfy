// A line whose clip says less than its length (web/lib/tracePrivacy.ts): it
// turns back within the slack of a cut.
module Backtrack {
  import opened Topology
  import opened TraceTypes
  import opened Clip
  import opened ClipLength

  function Taxi(p: Place, q: Place): real { Abs(p.lat - q.lat) + Abs(p.lon - q.lon) }

  const CITY := Env(Taxi, b => 0)

  // Out, back by half a slack, and on.
  const BACKTRACK := [Place(0.0, 0.0), Place(300.0, 0.0), Place(300.0000005, 0.0), Place(300.0, 0.0), Place(1000.0, 0.0)]
  const ALONG := [0.0, 300.0, 300.0000005, 300.000001, 1000.000001]

  lemma TaxiIsMetric()
    ensures Metric(CITY)
  {
    assert forall p, q :: CITY.dist(p, q) == Taxi(p, q);
  }

  lemma TaxiAddsUp(p: Place, q: Place)
    ensures Chord(CITY, p, q)
  {
    hide Between, Taxi;
    forall u: real, v: real | 0.0 <= u <= v <= 1.0
      ensures CITY.dist(Between(p, q, u), Between(p, q, v)) == Part(v - u, CITY.dist(p, q)) {
      TaxiPart(p, q, u, v);
    }
  }

  lemma TaxiPart(p: Place, q: Place, u: real, v: real)
    requires u <= v
    ensures Taxi(Between(p, q, u), Between(p, q, v)) == Part(v - u, Taxi(p, q))
  {
    BetweenIs(p, q, u);
    BetweenIs(p, q, v);
    Scaled(p.lat, q.lat, u, v);
    Scaled(p.lon, q.lon, u, v);
    Joined(v - u, Abs(p.lat - q.lat), Abs(p.lon - q.lon));
    hide Abs, Part, Between, Lerp;
  }

  function Lerp(x: real, y: real, u: real): real { x + u * (y - x) }

  lemma BetweenIs(p: Place, q: Place, u: real)
    ensures Between(p, q, u) == Place(Lerp(p.lat, q.lat, u), Lerp(p.lon, q.lon, u))
  {
  }

  lemma Scaled(x: real, y: real, u: real, v: real)
    requires u <= v
    ensures Abs(Lerp(x, y, u) - Lerp(x, y, v)) == Part(v - u, Abs(x - y))
  {
    var w, d := v - u, y - x;
    assert Lerp(x, y, u) - Lerp(x, y, v) == -(w * d);
    assert d >= 0.0 ==> w * d >= 0.0;
    assert d < 0.0 ==> w * d <= 0.0 && w * (-d) == -(w * d);
  }

  lemma Joined(w: real, a: real, b: real)
    ensures Part(w, a + b) == Part(w, a) + Part(w, b)
  {
  }

  lemma TaxiIsStraight(coords: seq<Place>)
    ensures Straight(CITY, coords)
  {
    TaxiIsMetric();
    hide Metric, Chord;
    forall k | 0 <= k < |coords| - 1 ensures Chord(CITY, coords[k], coords[k + 1]) {
      TaxiAddsUp(coords[k], coords[k + 1]);
    }
  }

  lemma BacktrackAlong()
    ensures Cumulative(CITY, BACKTRACK) == ALONG
  {
    hide Cumulative;
    CumulativeAt(CITY, BACKTRACK, 0);
    CumulativeAt(CITY, BACKTRACK, 1);
    CumulativeAt(CITY, BACKTRACK, 2);
    CumulativeAt(CITY, BACKTRACK, 3);
  }

  lemma BacktrackSteps()
    ensures Steps(300.0) == 300 && Steps(0.0000005) == 1 && Steps(700.0) == 700
  {
  }

  lemma SamplesStep(env: Env, coords: seq<Place>, cum: seq<real>, centers: seq<Anchor>, n: nat)
    requires n + 1 < |coords| == |cum|
    ensures SamplesTo(env, coords, cum, centers, 0) == []
    ensures SamplesTo(env, coords, cum, centers, n + 1)
         == SamplesTo(env, coords, cum, centers, n) + SegmentSamples(env, coords, cum, centers, n, Steps(cum[n + 1] - cum[n]))
  {
    hide Steps, SegmentSamples;
  }

  // The t-th sample, and where it is.
  function Segment(t: nat): (nat, nat) {
    if t < 300 then (0, t) else if t == 300 then (1, 0) else if t == 301 then (2, 0) else (3, t - 302)
  }

  function MetresAlong(t: nat): real {
    if t <= 300 then t as real else if t == 301 then 300.0000005 else t as real - 2.0
  }

  lemma BacktrackSamples(centers: seq<Anchor>, t: nat)
    requires t < 1002
    ensures |Samples(CITY, BACKTRACK, centers)| == 1003
    ensures Samples(CITY, BACKTRACK, centers)[t] == SampleAt(CITY, BACKTRACK, ALONG, centers, Segment(t).0, Segment(t).1)
  {
    hide Cumulative, SamplesTo, Steps, SampleAt, LastSample;
    BacktrackAlong();
    BacktrackSteps();
    SamplesStep(CITY, BACKTRACK, ALONG, centers, 0);
    SamplesStep(CITY, BACKTRACK, ALONG, centers, 1);
    SamplesStep(CITY, BACKTRACK, ALONG, centers, 2);
    SamplesStep(CITY, BACKTRACK, ALONG, centers, 3);
    assert ALONG[1] - ALONG[0] == 300.0 && ALONG[2] - ALONG[1] == 0.0000005;
    assert ALONG[3] - ALONG[2] == 0.0000005 && ALONG[4] - ALONG[3] == 700.0;
  }

  lemma BacktrackPlace(centers: seq<Anchor>, t: nat)
    requires t < 1002
    ensures var p := Place(MetresAlong(t), 0.0);
            SampleAt(CITY, BACKTRACK, ALONG, centers, Segment(t).0, Segment(t).1)
            == Sample(p, if t <= 301 then MetresAlong(t) else MetresAlong(t) + 0.000001, CITY.PlaceClear(p, centers))
  {
    BacktrackSteps();
    if t < 300 {
      OnLeg(0.0, 300.0, 300, t);
    } else if t >= 302 {
      OnLeg(300.0, 1000.0, 700, t - 302);
    }
    hide Steps, Env.PlaceClear, Lerp;
    BetweenIs(BACKTRACK[0], BACKTRACK[1], Ratio(t, 300));
    if t >= 302 { BetweenIs(BACKTRACK[3], BACKTRACK[4], Ratio(t - 302, 700)); }
    assert ALONG[1] - ALONG[0] == 300.0 && ALONG[4] - ALONG[3] == 700.0;
  }

  // Whole metres along a leg of n.
  lemma OnLeg(x: real, y: real, n: nat, k: nat)
    requires n > 0 && y - x == n as real
    ensures Lerp(x, y, Ratio(k, n)) == x + k as real && Ratio(k, n) * (y - x) == k as real
    ensures Lerp(0.0, 0.0, Ratio(k, n)) == 0.0
  {
  }

  const ENDS := [Anchor(BACKTRACK[0], 0.0), Anchor(BACKTRACK[4], 0.0)]

  lemma ClearAlong(x: real)
    requires 0.0 <= x <= 1000.0
    ensures CITY.PlaceClear(Place(x, 0.0), ENDS) <==> 300.0 <= x <= 700.0
  {
    var p := Anchor(Place(x, 0.0), 0.0);
    assert CITY.Separation(p, ENDS[0]) == Taxi(p.at, BACKTRACK[0]) == x;
    assert CITY.Separation(p, ENDS[1]) == Taxi(p.at, BACKTRACK[4]) == 1000.0 - x;
  }

  lemma BacktrackClear(t: nat)
    requires t < 1003
    ensures |Samples(CITY, BACKTRACK, ENDS)| == 1003
    ensures ClearAt(Samples(CITY, BACKTRACK, ENDS), t) <==> 300 <= t <= 702
  {
    if t < 1002 {
      BacktrackSamples(ENDS, t);
      BacktrackPlace(ENDS, t);
      ClearAlong(MetresAlong(t));
      hide Samples, SampleAt, Env.PlaceClear;
    } else {
      BacktrackSamples(ENDS, 0);
      BacktrackAlong();
      ClearAlong(1000.0);
      hide SamplesTo, Env.PlaceClear;
      assert Samples(CITY, BACKTRACK, ENDS)[1002] == LastSample(CITY, BACKTRACK, ALONG, ENDS);
    }
  }

  // The only clear stretch is the best.
  lemma OnlyStretch(samples: seq<Sample>, i: nat, j: nat)
    requires i < j < |samples| && forall k :: 0 <= k < |samples| ==> (ClearAt(samples, k) <==> i <= k <= j)
    ensures IsBest(samples, |samples|, i, j)
  {
    forall i', j' | 0 <= i' < j' && i' < |samples| && Run(samples, i', j') ensures i' == i && j' == j {
      assert ClearAt(samples, i') && ClearAt(samples, j');
      assert !ClearAt(samples, i' - 1) && !ClearAt(samples, j' + 1);
    }
    hide Length;
  }

  // Where vertices are closer than that, length can be lost: this line is
  // clipped to a stretch of which `distance_m` leaves out the way back and
  // forth.
  lemma TooCloseToTell(artifact: Artifact)
    requires artifact.coords == BACKTRACK
    ensures Straight(CITY, BACKTRACK) && Centers(artifact, []) == ENDS && |Samples(CITY, BACKTRACK, ENDS)| == 1003
    ensures IsBest(Samples(CITY, BACKTRACK, ENDS), 1003, 300, 702)
    ensures Length(Samples(CITY, BACKTRACK, ENDS), 300, 702) == 400.000001
    ensures Clipped(CITY, artifact, []).Some? && Clipped(CITY, artifact, []).value.distance == 400.0
  {
    hide Samples, Straight, Clipped, IsBest, CutTo, SampleAt;
    TaxiIsStraight(BACKTRACK);
    assert Centers(artifact, []) == ENDS;
    var ss := Samples(CITY, BACKTRACK, ENDS);
    BacktrackClear(0);
    forall k | 0 <= k < |ss| ensures ClearAt(ss, k) <==> 300 <= k <= 702 { BacktrackClear(k); }
    OnlyStretch(ss, 300, 702);
    BestIsClipped(CITY, artifact, [], 300, 702);
    BacktrackSamples(ENDS, 300);
    BacktrackSamples(ENDS, 702);
    BacktrackPlace(ENDS, 300);
    BacktrackPlace(ENDS, 702);
    BacktrackCut(artifact, ss);
  }

  lemma BacktrackCut(artifact: Artifact, ss: seq<Sample>)
    requires artifact.coords == BACKTRACK && |ss| == 1003
    requires ss[300].at == Place(300.0, 0.0) && ss[300].s == 300.0 && ss[702].at == Place(700.0, 0.0) && ss[702].s == 700.000001
    ensures CutTo(CITY, artifact, ENDS, ss, 300, 702).Some?
    ensures CutTo(CITY, artifact, ENDS, ss, 300, 702).value.distance == 400.0
  {
    hide Cumulative, PolyLength, Inner, Env.PlaceClear, SegmentsCut, ManeuversCut, UnsafeCut, Shift;
    BacktrackAlong();
    ClearAlong(300.0);
    ClearAlong(700.0);
    NoneKept();
    InnerIsSlice(BACKTRACK, ALONG, 300.0, 700.000001, 0, 0);
    var a, b := Place(300.0, 0.0), Place(700.0, 0.0);
    assert BACKTRACK[0..0] == [] && [a] + [] + [b] == [a] + [b];
    PolyLengthAppend(CITY, [a], b);
    OnePoint(CITY, a);
    assert CITY.dist(a, b) == Taxi(a, b) == 400.0;
    assert AllPlacesClear(CITY, [a] + [b], ENDS);
  }

  lemma NoneKept()
    ensures forall k :: 0 <= k < |ALONG| ==> !Inside(ALONG[k], 300.0, 700.000001)
  {
  }
}
