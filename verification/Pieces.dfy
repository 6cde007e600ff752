// The per-edge pieces of a clipped artifact (web/lib/tracePrivacy.ts): each is
// its segment's share of the stretch kept, and together they still tile the
// line, as web/lib/tracePrivacy.test.ts has it of one route.
module Pieces {
  import opened Topology
  import opened TraceTypes
  import opened Clip
  import opened ClipLength
  import opened Stretch

  // Segment k runs from vertex at[k] of the line to vertex at[k + 1].
  ghost predicate Tile(coords: seq<Place>, segments: seq<seq<Place>>, at: seq<nat>, k: nat) {
    && k + 1 < |at| && k < |segments| && at[k] < at[k + 1] < |coords| && segments[k] == coords[at[k]..at[k + 1] + 1]
  }

  ghost predicate Tiles(coords: seq<Place>, segments: seq<seq<Place>>, at: seq<nat>) {
    && |at| == |segments| + 1 && at[0] == 0 && at[|segments|] + 1 == |coords|
    && forall k :: 0 <= k < |segments| ==> Tile(coords, segments, at, k)
  }

  // ------------------------------------------------------------ positions

  lemma {:induction false} SliceCumulative(env: Env, coords: seq<Place>, x: nat, y: nat, m: nat)
    requires x <= y < |coords| == |Cumulative(env, coords)| && m <= y - x
    ensures |Cumulative(env, coords[x..y + 1])| == y - x + 1
    ensures Cumulative(env, coords[x..y + 1])[m] == Cumulative(env, coords)[x + m] - Cumulative(env, coords)[x]
  {
    hide Cumulative;
    CumulativeAt(env, coords[x..y + 1], 0);
    if m > 0 {
      SliceCumulative(env, coords, x, y, m - 1);
      CumulativeAt(env, coords[x..y + 1], m - 1);
      CumulativeAt(env, coords, x + m - 1);
    }
  }

  lemma {:induction false} SliceLength(env: Env, coords: seq<Place>, x: nat, y: nat)
    requires x <= y < |coords| == |Cumulative(env, coords)|
    ensures PolyLength(env, coords[x..y + 1]) == Cumulative(env, coords)[y] - Cumulative(env, coords)[x]
  {
    SliceCumulative(env, coords, x, y, y - x);
    hide Cumulative;
  }

  // A segment starts where the line has its first vertex.
  lemma {:induction false} TileStarts(env: Env, coords: seq<Place>, segments: seq<seq<Place>>, at: seq<nat>, k: nat)
    requires Tiles(coords, segments, at) && k <= |segments| && |coords| == |Cumulative(env, coords)|
    ensures at[k] < |coords| && SegmentsEnd(env, segments[..k]) == Cumulative(env, coords)[at[k]]
  {
    hide Cumulative, PolyLength;
    CumulativeAt(env, coords, 0);
    if k > 0 {
      assert Tile(coords, segments, at, k - 1);
      assert segments[..k][..k - 1] == segments[..k - 1];
      TileStarts(env, coords, segments, at, k - 1);
      SliceLength(env, coords, at[k - 1], at[k]);
    }
  }

  // ------------------------------------------------------------- one piece

  // The part of the line from vertex x to vertex y reaches into the stretch.
  predicate Meets(cum: seq<real>, c: Cuts, x: nat, y: nat)
    requires x < |cum| && y < |cum|
  {
    c.a + EPS_M < cum[y] && cum[x] < c.b - EPS_M
  }

  function Begin(coords: seq<Place>, cum: seq<real>, c: Cuts, x: nat): Place
    requires x < |coords| == |cum|
  {
    if cum[x] < c.a - EPS_M then c.cutA else coords[x]
  }

  function Finish(coords: seq<Place>, cum: seq<real>, c: Cuts, y: nat): Place
    requires y < |coords| == |cum|
  {
    if cum[y] > c.b + EPS_M then c.cutB else coords[y]
  }

  function Clamp(n: nat, lo: nat, hi: nat): nat { if n < lo then lo else if n > hi then hi else n }

  // With the vertices between the cuts numbered from `from` to `to`, what is
  // cut out of the segment from x to y.
  function Cutout(coords: seq<Place>, cum: seq<real>, c: Cuts, x: nat, y: nat, from: nat, to: nat): (r: seq<Place>)
    requires x < y < |coords| == |cum| && from <= to
    ensures |r| >= 2 && r[0] == Begin(coords, cum, c, x) && r[|r| - 1] == Finish(coords, cum, c, y)
  {
    [Begin(coords, cum, c, x)] + coords[Clamp(from, x + 1, y)..Clamp(to, x + 1, y)] + [Finish(coords, cum, c, y)]
  }

  ghost predicate Kept(cum: seq<real>, c: Cuts, from: nat, to: nat) {
    from <= to && forall k :: 0 <= k < |cum| ==> (Inside(cum[k], c.a, c.b) <==> from <= k < to)
  }

  lemma {:induction false} SlicePositions(env: Env, coords: seq<Place>, x: nat, y: nat)
    requires x <= y < |coords| == |Cumulative(env, coords)|
    ensures Shifted(Cumulative(env, coords[x..y + 1]), Cumulative(env, coords)[x]) == Cumulative(env, coords)[x..y + 1]
  {
    hide Cumulative;
    SliceCumulative(env, coords, x, y, 0);
    var cum := Cumulative(env, coords);
    var scum := Shifted(Cumulative(env, coords[x..y + 1]), cum[x]);
    forall m | 0 <= m < |scum| ensures scum[m] == cum[x..y + 1][m] {
      SliceCumulative(env, coords, x, y, m);
    }
    assert scum == cum[x..y + 1];
  }

  lemma SliceSlice<T>(s: seq<T>, x: nat, y: nat, i: nat, j: nat)
    requires x <= y <= |s| && i <= j <= y - x
    ensures s[x..y][i..j] == s[x + i..x + j]
  {
    var a, b := s[x..y][i..j], s[x + i..x + j];
    assert forall k :: 0 <= k < |a| ==> a[k] == b[k];
  }

  // The vertices kept of a part of the line.
  lemma InnerOfSlice(coords: seq<Place>, cum: seq<real>, c: Cuts, x: nat, y: nat, from: nat, to: nat)
    requires x < y < |coords| == |cum| && Kept(cum, c, from, to)
    ensures Inner(coords[x + 1..y], cum[x + 1..y], c.a, c.b) == coords[Clamp(from, x + 1, y)..Clamp(to, x + 1, y)]
  {
    hide Inner, Inside;
    var v, w := Clamp(from, x + 1, y) - (x + 1), Clamp(to, x + 1, y) - (x + 1);
    var part := cum[x + 1..y];
    forall k | 0 <= k < |part| ensures Inside(part[k], c.a, c.b) <==> v <= k < w {
      assert part[k] == cum[x + 1 + k];
    }
    InnerIsSlice(coords[x + 1..y], part, c.a, c.b, v, w);
    SliceSlice(coords, x + 1, y, v, w);
  }

  lemma {:induction false} SegmentIsCut(env: Env, coords: seq<Place>, c: Cuts, centers: seq<Anchor>, x: nat, y: nat,
                                        from: nat, to: nat)
    requires x < y < |coords| == |Cumulative(env, coords)| && Kept(Cumulative(env, coords), c, from, to)
    ensures var cum := Cumulative(env, coords);
            var out := Cutout(coords, cum, c, x, y, from, to);
            SegmentCut(env, coords[x..y + 1], cum[x], c, centers)
            == if Meets(cum, c, x, y) && AllPlacesClear(env, out, centers) then Some(out) else None
  {
    hide Cumulative, Inner, Kept, AllPlacesClear, Shifted, Clamp;
    var cum := Cumulative(env, coords);
    SlicePositions(env, coords, x, y);
    SliceSlice(coords, x, y + 1, 1, y - x);
    SliceSlice(cum, x, y + 1, 1, y - x);
    InnerOfSlice(coords, cum, c, x, y, from, to);
    var sc, scum := coords[x..y + 1], cum[x..y + 1];
    assert sc[0] == coords[x] && sc[|sc| - 1] == coords[y] && scum[0] == cum[x] && scum[|scum| - 1] == cum[y];
  }

  // ------------------------------------------------------------ all of them

  // Put together, each piece beginning where the one before ends.
  function Joined(pieces: seq<seq<Place>>): seq<Place>
    requires forall k :: 0 <= k < |pieces| ==> pieces[k] != []
  {
    if pieces == [] then []
    else if |pieces| == 1 then pieces[0]
    else Joined(pieces[..|pieces| - 1]) + pieces[|pieces| - 1][1..]
  }

  ghost predicate JoinsUp(pieces: seq<seq<Place>>) {
    && (forall k :: 0 <= k < |pieces| ==> |pieces[k]| >= 2)
    && forall k :: 0 < k < |pieces| ==> EndsAt(pieces[k - 1], pieces[k][0])
  }

  predicate EndsAt(piece: seq<Place>, q: Place) { piece != [] && piece[|piece| - 1] == q }

  function Last(pieces: seq<seq<Place>>): Place
    requires pieces != [] && pieces[|pieces| - 1] != []
  {
    pieces[|pieces| - 1][|pieces[|pieces| - 1]| - 1]
  }

  // The cut itself, or a vertex that cannot be told from it.
  ghost predicate AtCut(coords: seq<Place>, cum: seq<real>, q: Place, at: Place, s: real) {
    q == at || exists v :: 0 <= v < |coords| && v < |cum| && q == coords[v] && s - EPS_M <= cum[v] <= s + EPS_M
  }

  // What the pieces up to vertex x amount to.
  ghost predicate PutTogether(coords: seq<Place>, cum: seq<real>, c: Cuts, from: nat, to: nat, pieces: seq<seq<Place>>,
                              x: nat)
    requires x < |coords| == |cum|
  {
    && from <= to <= |coords| && JoinsUp(pieces)
    && if pieces == [] then cum[x] <= c.a + EPS_M || c.b - c.a <= 2.0 * EPS_M
       else
         && c.a + EPS_M < cum[x] && AtCut(coords, cum, pieces[0][0], c.cutA, c.a)
         && if cum[x] < c.b - EPS_M
            then from <= x && Last(pieces) == coords[x] && Joined(pieces) == [pieces[0][0]] + coords[from..x] + [coords[x]]
            else
              && AtCut(coords, cum, Last(pieces), c.cutB, c.b)
              && Joined(pieces) == [pieces[0][0]] + coords[from..to] + [Last(pieces)]
  }

  // The vertices between the cuts, from KeptRange: those before them all lie
  // no further than the first cut, those after them no nearer than the second.
  ghost predicate Ranged(cum: seq<real>, c: Cuts, from: nat, to: nat) {
    && Kept(cum, c, from, to) && to <= |cum|
    && (forall k :: 0 <= k < |cum| ==> (k < from <==> cum[k] <= c.a + EPS_M))
    && (forall k :: to <= k < |cum| ==> c.b - EPS_M <= cum[k])
  }

  lemma NotMet(coords: seq<Place>, cum: seq<real>, c: Cuts, from: nat, to: nat, pieces: seq<seq<Place>>, x: nat, y: nat)
    requires x < y < |coords| == |cum| && Ranged(cum, c, from, to) && cum[x] <= cum[y]
    requires PutTogether(coords, cum, c, from, to, pieces, x) && !Meets(cum, c, x, y)
    ensures PutTogether(coords, cum, c, from, to, pieces, y)
  {
    hide JoinsUp, Joined, Last, AtCut, Ranged;
  }

  lemma FirstMet(coords: seq<Place>, cum: seq<real>, c: Cuts, from: nat, to: nat, x: nat, y: nat)
    requires x < y < |coords| == |cum| && Ranged(cum, c, from, to) && cum[x] <= cum[y]
    requires PutTogether(coords, cum, c, from, to, [], x) && Meets(cum, c, x, y)
    ensures PutTogether(coords, cum, c, from, to, [Cutout(coords, cum, c, x, y, from, to)], y)
  {
    var p := Cutout(coords, cum, c, x, y, from, to);
    assert cum[x] <= c.a + EPS_M && x < from <= y;
    assert Joined([p]) == p;
    if cum[y] < c.b - EPS_M {
      assert Inside(cum[y], c.a, c.b);
    } else {
      assert !Inside(cum[y], c.a, c.b) && to <= y;
    }
  }

  lemma NextMet(coords: seq<Place>, cum: seq<real>, c: Cuts, from: nat, to: nat, pieces: seq<seq<Place>>, x: nat,
                y: nat)
    requires x < y < |coords| == |cum| && Ranged(cum, c, from, to) && cum[x] <= cum[y] && pieces != []
    requires PutTogether(coords, cum, c, from, to, pieces, x) && Meets(cum, c, x, y)
    ensures PutTogether(coords, cum, c, from, to, pieces + [Cutout(coords, cum, c, x, y, from, to)], y)
  {
    var p := Cutout(coords, cum, c, x, y, from, to);
    var all := pieces + [p];
    assert Inside(cum[x], c.a, c.b);
    JoinMore(pieces, p);
    hide JoinsUp, Joined, AtCut;
    if cum[y] < c.b - EPS_M {
      assert Inside(cum[y], c.a, c.b);
      assert coords[from..x] + [coords[x]] + coords[x + 1..y] == coords[from..y];
    } else {
      assert !Inside(cum[y], c.a, c.b) && to <= y;
      assert coords[from..x] + [coords[x]] + coords[x + 1..to] == coords[from..to];
    }
  }

  lemma {:induction false} JoinMore(pieces: seq<seq<Place>>, p: seq<Place>)
    requires JoinsUp(pieces) && pieces != [] && |p| >= 2 && p[0] == Last(pieces)
    ensures var all := pieces + [p];
            JoinsUp(all) && Joined(all) == Joined(pieces) + p[1..] && Last(all) == p[|p| - 1] && all[0] == pieces[0]
  {
    assert (pieces + [p])[..|pieces|] == pieces;
    hide EndsAt;
    assert EndsAt(pieces[|pieces| - 1], p[0]) by { LastEnds(pieces); }
  }

  lemma LastEnds(pieces: seq<seq<Place>>)
    requires pieces != [] && pieces[|pieces| - 1] != []
    ensures EndsAt(pieces[|pieces| - 1], Last(pieces))
  {
  }

  // --------------------------------------------------------- what is clear

  lemma AnyFlag(env: Env, coords: seq<Place>, s: Sample, clear: bool)
    requires OnLine(env, coords, s)
    ensures OnLine(env, coords, s.(clear := clear))
  {
    hide Cumulative, Between, Part;
    var p: nat, u :| On(env, coords, s, p, u);
    assert On(env, coords, s.(clear := clear), p, u);
  }

  lemma {:induction false} VertexOn(env: Env, coords: seq<Place>, v: nat)
    requires |coords| >= 2 && v < |coords| == |Cumulative(env, coords)|
    ensures OnLine(env, coords, Sample(coords[v], Cumulative(env, coords)[v], true))
  {
    hide Cumulative, Between, Part;
    var here := Sample(coords[v], Cumulative(env, coords)[v], true);
    var p := if v + 1 < |coords| then v else v - 1;
    var len := env.dist(coords[p], coords[p + 1]);
    CumulativeAt(env, coords, p);
    BetweenEnds(coords[p], coords[p + 1]);
    Parts(0.0, 1.0, len);
    assert 1.0 - 0.0 == 1.0;
    if p == v { assert On(env, coords, here, p, 0.0); } else { assert On(env, coords, here, p, 1.0); }
  }

  // A vertex within the slack of a sample is within the tolerance of it.
  lemma {:induction false} VertexNear(env: Env, coords: seq<Place>, s: Sample, v: nat)
    requires Straight(env, coords) && |coords| >= 2 && OnLine(env, coords, s) && v < |coords| == |Cumulative(env, coords)|
    requires s.s - EPS_M <= Cumulative(env, coords)[v] <= s.s + EPS_M
    ensures env.dist(coords[v], s.at) <= Tolerance(env, coords)
  {
    hide Straight, Cumulative, On, Tolerance;
    var here := Sample(coords[v], Cumulative(env, coords)[v], true);
    VertexOn(env, coords, v);
    var p: nat, u :| On(env, coords, s, p, u);
    if v <= p {
      CloseBefore(env, coords, s, p, u, v);
      Close(env, coords, here, s);
    } else {
      CloseAfter(env, coords, s, p, u, v);
      Close(env, coords, s, here);
    }
  }

  lemma SameClear(env: Env, p: Place, q: Place, centers: seq<Anchor>)
    requires Metric(env) && env.dist(p, q) <= 0.0 && env.PlaceClear(q, centers)
    ensures env.PlaceClear(p, centers)
  {
    forall t | 0 <= t < |centers| ensures env.Separation(Anchor(p, 0.0), centers[t]) >= TRIM_M {
      IsClear(env, q, centers, t);
      Triangle(env, q, p, centers[t].at);
    }
  }

  // No vertex within the slack of a cut is anything but clear.
  ghost predicate ClearAtCuts(env: Env, coords: seq<Place>, centers: seq<Anchor>, c: Cuts)
    requires |coords| == |Cumulative(env, coords)|
  {
    forall v: nat :: v < |coords| && NearCut(Cumulative(env, coords)[v], c) ==> env.PlaceClear(coords[v], centers)
  }

  predicate NearCut(s: real, c: Cuts) {
    c.a - EPS_M <= s <= c.a + EPS_M || c.b - EPS_M <= s <= c.b + EPS_M
  }

  function CutsAt(ss: seq<Sample>, i: nat, j: nat): Cuts
    requires i < |ss| && j < |ss|
  {
    Cuts(ss[i].s, ss[j].s, ss[i].at, ss[j].at)
  }

  // So it is where vertices are repeated or told apart.
  lemma {:induction false} ToldApartIsClear(env: Env, coords: seq<Place>, centers: seq<Anchor>, i: nat, j: nat)
    requires |coords| >= 2 && Straight(env, coords) && ToldApart(env, coords)
    requires AllClear(Samples(env, coords, centers), i, j)
    ensures |coords| == |Cumulative(env, coords)|
    ensures ClearAtCuts(env, coords, centers, CutsAt(Samples(env, coords, centers), i, j))
  {
    EveryMetre(env, coords, centers);
    AllSamplesOn(env, coords, centers);
    hide Chords, Metric, Cumulative, Samples, OnLine, Env.PlaceClear, ToldApart;
    var ss := Samples(env, coords, centers);
    EndsClear(ss, i, j);
    forall v: nat | v < |coords| && NearCut(Cumulative(env, coords)[v], CutsAt(ss, i, j))
      ensures env.PlaceClear(coords[v], centers) {
      var s := if ss[i].s - EPS_M <= Cumulative(env, coords)[v] <= ss[i].s + EPS_M then ss[i] else ss[j];
      VertexNear(env, coords, s, v);
      SameClear(env, coords[v], s.at, centers);
    }
  }

  // What is cut out of a segment that meets the stretch is clear if its ends
  // are.
  lemma {:induction false} CutoutIsClear(env: Env, coords: seq<Place>, centers: seq<Anchor>, i: nat, j: nat, x: nat,
                                         y: nat, from: nat, to: nat)
    requires |coords| >= 2 && Metric(env) && AllClear(Samples(env, coords, centers), i, j)
    requires x < y < |coords| == |Cumulative(env, coords)|
    requires var cum, c := Cumulative(env, coords), CutsAt(Samples(env, coords, centers), i, j);
             && Kept(cum, c, from, to) && Meets(cum, c, x, y) && cum[x] <= cum[y]
             && (NearCut(cum[x], c) ==> env.PlaceClear(coords[x], centers))
             && (NearCut(cum[y], c) ==> env.PlaceClear(coords[y], centers))
    ensures var cum, c := Cumulative(env, coords), CutsAt(Samples(env, coords, centers), i, j);
            AllPlacesClear(env, Cutout(coords, cum, c, x, y, from, to), centers)
  {
    EveryMetre(env, coords, centers);
    hide Metric, Cumulative, Samples, Env.PlaceClear, AllClear;
    var ss, cum := Samples(env, coords, centers), Cumulative(env, coords);
    var c := CutsAt(ss, i, j);
    EndsClear(ss, i, j);
    if c.a < cum[x] { VertexIsClear(env, coords, centers, i, j, x); }
    if cum[y] < c.b { VertexIsClear(env, coords, centers, i, j, y); }
    assert env.PlaceClear(Begin(coords, cum, c, x), centers) && env.PlaceClear(Finish(coords, cum, c, y), centers);
    var v, w := Clamp(from, x + 1, y), Clamp(to, x + 1, y);
    forall k: nat | v <= k < w ensures env.PlaceClear(coords[k], centers) {
      assert Inside(cum[k], c.a, c.b);
      VertexIsClear(env, coords, centers, i, j, k);
    }
    MiddleClear(env, coords, Begin(coords, cum, c, x), Finish(coords, cum, c, y), v, w, centers);
  }

  lemma MiddleClear(env: Env, coords: seq<Place>, p: Place, q: Place, v: nat, w: nat, centers: seq<Anchor>)
    requires v <= w <= |coords| && env.PlaceClear(p, centers) && env.PlaceClear(q, centers)
    requires forall k: nat :: v <= k < w ==> env.PlaceClear(coords[k], centers)
    ensures AllPlacesClear(env, [p] + coords[v..w] + [q], centers)
  {
    hide Env.PlaceClear;
  }

  // ------------------------------------------------------------ which pieces

  function CutOf(env: Env, segments: seq<seq<Place>>, c: Cuts, centers: seq<Anchor>, k: nat): Option<seq<Place>>
    requires k < |segments|
  {
    SegmentCut(env, segments[k], SegmentsEnd(env, segments[..k]), c, centers)
  }

  // The segments of which a piece is kept, in order.
  lemma {:induction false} PiecesFrom(env: Env, segments: seq<seq<Place>>, c: Cuts, centers: seq<Anchor>)
    returns (from: seq<nat>)
    ensures var r := SegmentsCut(env, segments, c, centers);
            && |from| == |r| && (forall k, l :: 0 <= k < l < |from| ==> from[k] < from[l])
            && (forall k: nat :: k in from <==> k < |segments| && CutOf(env, segments, c, centers, k).Some?)
            && forall m :: 0 <= m < |r| ==>
                 from[m] < |segments| && CutOf(env, segments, c, centers, from[m]) == Some(r[m])
  {
    hide CutOf, SegmentsCut;
    from := [];
    CutStep(env, segments, c, centers);
    if segments != [] {
      var n := |segments| - 1;
      from := PiecesFrom(env, segments[..n], c, centers);
      forall k: nat | k < n ensures CutOf(env, segments[..n], c, centers, k) == CutOf(env, segments, c, centers, k) {
        CutOfPrefix(env, segments, c, centers, k);
      }
      assert forall m :: 0 <= m < |from| ==> from[m] in from;
      if CutOf(env, segments, c, centers, n).Some? { from := from + [n]; }
    }
  }

  lemma {:induction false} CutStep(env: Env, segments: seq<seq<Place>>, c: Cuts, centers: seq<Anchor>)
    ensures segments == [] ==> SegmentsCut(env, segments, c, centers) == []
    ensures segments != [] ==>
              var n := |segments| - 1;
              var cut := CutOf(env, segments, c, centers, n);
              SegmentsCut(env, segments, c, centers)
              == SegmentsCut(env, segments[..n], c, centers) + if cut.Some? then [cut.value] else []
  {
    hide SegmentCut, SegmentsEnd;
  }

  lemma CutOfPrefix(env: Env, segments: seq<seq<Place>>, c: Cuts, centers: seq<Anchor>, k: nat)
    requires k + 1 < |segments|
    ensures CutOf(env, segments[..|segments| - 1], c, centers, k) == CutOf(env, segments, c, centers, k)
  {
    assert segments[..|segments| - 1][..k] == segments[..k];
  }

  // The piece lies on the line, from where it and the stretch both have begun
  // to where one of them ends, up to the slack; in between it has the vertices
  // of its segment that are between the cuts.
  ghost predicate Share(env: Env, coords: seq<Place>, c: Cuts, x: nat, y: nat, piece: seq<Place>)
    requires x < y < |coords| == |Cumulative(env, coords)|
  {
    var cum := Cumulative(env, coords);
    && |piece| >= 2
    && LiesNear(env, coords, piece[0], if cum[x] < c.a then c.a else cum[x])
    && LiesNear(env, coords, piece[|piece| - 1], if cum[y] < c.b then cum[y] else c.b)
    && exists v: nat, w: nat :: BetweenCuts(cum, c, x, y, v, w) && piece[1..|piece| - 1] == coords[v..w]
  }

  ghost predicate LiesNear(env: Env, coords: seq<Place>, q: Place, s: real) {
    exists pos :: s - EPS_M <= pos <= s + EPS_M && OnLine(env, coords, Sample(q, pos, true))
  }

  ghost predicate BetweenCuts(cum: seq<real>, c: Cuts, x: nat, y: nat, v: nat, w: nat) {
    x < v <= w <= y < |cum| && forall k :: x < k < y ==> (c.a + EPS_M < cum[k] < c.b - EPS_M <==> v <= k < w)
  }

  lemma {:induction false} CutoutIsShare(env: Env, coords: seq<Place>, s: Sample, e: Sample, x: nat, y: nat,
                                         from: nat, to: nat)
    requires |coords| >= 2 && x < y < |coords| == |Cumulative(env, coords)| && OnLine(env, coords, s) && OnLine(env, coords, e)
    requires Kept(Cumulative(env, coords), Cuts(s.s, e.s, s.at, e.at), from, to)
    ensures var cum, c := Cumulative(env, coords), Cuts(s.s, e.s, s.at, e.at);
            Share(env, coords, c, x, y, Cutout(coords, cum, c, x, y, from, to))
  {
    hide Cumulative, OnLine;
    var cum, c := Cumulative(env, coords), Cuts(s.s, e.s, s.at, e.at);
    var piece := Cutout(coords, cum, c, x, y, from, to);
    VertexOn(env, coords, x);
    VertexOn(env, coords, y);
    AnyFlag(env, coords, s, true);
    AnyFlag(env, coords, e, true);
    assert Sample(c.cutA, c.a, true) == s.(clear := true) && Sample(c.cutB, c.b, true) == e.(clear := true);
    assert LiesNear(env, coords, piece[0], if cum[x] < c.a then c.a else cum[x]);
    assert LiesNear(env, coords, piece[|piece| - 1], if cum[y] < c.b then cum[y] else c.b);
    assert BetweenCuts(cum, c, x, y, Clamp(from, x + 1, y), Clamp(to, x + 1, y));
    assert piece[1..|piece| - 1] == coords[Clamp(from, x + 1, y)..Clamp(to, x + 1, y)];
  }

  // Segment k of the line, cut to the stretch.
  lemma {:induction false} CutOfTile(env: Env, coords: seq<Place>, segments: seq<seq<Place>>, at: seq<nat>, c: Cuts,
                                     centers: seq<Anchor>, from: nat, to: nat, k: nat)
    requires Tiles(coords, segments, at) && k < |segments| && |coords| == |Cumulative(env, coords)|
    requires Kept(Cumulative(env, coords), c, from, to)
    ensures Tile(coords, segments, at, k)
    ensures var cum := Cumulative(env, coords);
            var out := Cutout(coords, cum, c, at[k], at[k + 1], from, to);
            CutOf(env, segments, c, centers, k)
            == if Meets(cum, c, at[k], at[k + 1]) && AllPlacesClear(env, out, centers) then Some(out) else None
  {
    hide Cumulative, SegmentCut, SegmentsEnd, Cutout, Kept, AllPlacesClear;
    assert Tile(coords, segments, at, k);
    TileStarts(env, coords, segments, at, k);
    SegmentIsCut(env, coords, c, centers, at[k], at[k + 1], from, to);
  }

  // A segment is left out when it does not meet the stretch; else only for an
  // end of it that lies within the slack of a cut and is not clear.
  ghost predicate LeftOut(env: Env, coords: seq<Place>, cum: seq<real>, c: Cuts, centers: seq<Anchor>, x: nat, y: nat)
    requires x < |coords| == |cum| && y < |coords|
  {
    || !Meets(cum, c, x, y)
    || (NearCut(cum[x], c) && !env.PlaceClear(coords[x], centers))
    || (NearCut(cum[y], c) && !env.PlaceClear(coords[y], centers))
  }

  // One for one, and in order, the pieces are the shares of the segments kept.
  ghost predicate Shares(env: Env, coords: seq<Place>, c: Cuts, at: seq<nat>, from: seq<nat>, pieces: seq<seq<Place>>)
    requires |coords| == |Cumulative(env, coords)|
  {
    && |from| == |pieces| && (forall k, l :: 0 <= k < l < |from| ==> from[k] < from[l])
    && forall m :: 0 <= m < |pieces| ==> SharesOne(env, coords, c, at, from[m], pieces[m])
  }

  ghost predicate SharesOne(env: Env, coords: seq<Place>, c: Cuts, at: seq<nat>, k: nat, piece: seq<Place>)
    requires |coords| == |Cumulative(env, coords)|
  {
    k + 1 < |at| && at[k] < at[k + 1] < |coords| && Share(env, coords, c, at[k], at[k + 1], piece)
  }

  // The range of vertices kept, with everything it is known by.
  lemma RangeKept(env: Env, coords: seq<Place>, c: Cuts) returns (from: nat, to: nat)
    requires Metric(env) && coords != [] && |coords| == |Cumulative(env, coords)|
    ensures Ranged(Cumulative(env, coords), c, from, to)
    ensures Inner(coords, Cumulative(env, coords), c.a, c.b) == coords[from..to]
  {
    hide Metric, Cumulative, Inside;
    from, to := KeptRange(env, coords, c.a, c.b);
    InnerIsSlice(coords, Cumulative(env, coords), c.a, c.b, from, to);
  }

  lemma {:induction false} WhyLeftOut(env: Env, coords: seq<Place>, centers: seq<Anchor>, i: nat, j: nat, x: nat,
                                      y: nat, from: nat, to: nat)
    requires |coords| >= 2 && Metric(env) && AllClear(Samples(env, coords, centers), i, j)
    requires x < y < |coords| == |Cumulative(env, coords)|
    requires var cum, c := Cumulative(env, coords), CutsAt(Samples(env, coords, centers), i, j);
             && Kept(cum, c, from, to)
             && !(Meets(cum, c, x, y) && AllPlacesClear(env, Cutout(coords, cum, c, x, y, from, to), centers))
    ensures var cum, c := Cumulative(env, coords), CutsAt(Samples(env, coords, centers), i, j);
            LeftOut(env, coords, cum, c, centers, x, y)
  {
    Rises(env, coords, x, y);
    hide Metric, Cumulative, Samples, Env.PlaceClear, AllClear, Kept, AllPlacesClear, Cutout;
    var cum, c := Cumulative(env, coords), CutsAt(Samples(env, coords, centers), i, j);
    if Meets(cum, c, x, y) && !LeftOut(env, coords, cum, c, centers, x, y) {
      CutoutIsClear(env, coords, centers, i, j, x, y, from, to);
    }
  }

  // Which segments are kept, and which not.
  ghost predicate Chosen(env: Env, coords: seq<Place>, c: Cuts, centers: seq<Anchor>, at: seq<nat>, from: seq<nat>)
    requires |coords| == |Cumulative(env, coords)|
  {
    forall k: nat :: k + 1 < |at| ==> ChosenOne(env, coords, c, centers, at, from, k)
  }

  ghost predicate ChosenOne(env: Env, coords: seq<Place>, c: Cuts, centers: seq<Anchor>, at: seq<nat>, from: seq<nat>,
                            k: nat)
    requires |coords| == |Cumulative(env, coords)| && k + 1 < |at|
  {
    && at[k] < |coords| && at[k + 1] < |coords|
    && if k in from then Meets(Cumulative(env, coords), c, at[k], at[k + 1])
       else LeftOut(env, coords, Cumulative(env, coords), c, centers, at[k], at[k + 1])
  }

  // Every segment that meets the stretch is kept.
  ghost predicate NoneMissing(env: Env, coords: seq<Place>, c: Cuts, at: seq<nat>, from: seq<nat>)
    requires |coords| == |Cumulative(env, coords)|
  {
    forall k: nat :: k + 1 < |at| && at[k] < |coords| && at[k + 1] < |coords| ==>
      (k in from <==> Meets(Cumulative(env, coords), c, at[k], at[k + 1]))
  }

  lemma {:induction false} TileChosen(env: Env, coords: seq<Place>, segments: seq<seq<Place>>, at: seq<nat>,
                                      centers: seq<Anchor>, i: nat, j: nat, from: nat, to: nat, k: nat)
    requires |coords| >= 2 && Metric(env) && AllClear(Samples(env, coords, centers), i, j)
    requires Tiles(coords, segments, at) && k < |segments| && |coords| == |Cumulative(env, coords)|
    requires Kept(Cumulative(env, coords), CutsAt(Samples(env, coords, centers), i, j), from, to)
    ensures Tile(coords, segments, at, k)
    ensures var cum, c := Cumulative(env, coords), CutsAt(Samples(env, coords, centers), i, j);
            var cut := CutOf(env, segments, c, centers, k);
            && (cut.Some? ==> Meets(cum, c, at[k], at[k + 1]) && SharesOne(env, coords, c, at, k, cut.value))
            && (cut.None? ==> LeftOut(env, coords, cum, c, centers, at[k], at[k + 1]))
  {
    hide Samples, Metric, Cumulative, Meets, LeftOut, Share, Cutout, AllPlacesClear, Kept, CutOf, Tiles, AllClear;
    var ss := Samples(env, coords, centers);
    EndsClear(ss, i, j);
    var c := CutsAt(ss, i, j);
    CutOfTile(env, coords, segments, at, c, centers, from, to, k);
    OnBoth(env, coords, centers, i, j);
    CutoutIsShare(env, coords, ss[i], ss[j], at[k], at[k + 1], from, to);
    if CutOf(env, segments, c, centers, k).None? {
      WhyLeftOut(env, coords, centers, i, j, at[k], at[k + 1], from, to);
    }
  }

  lemma PiecesOfRun(env: Env, coords: seq<Place>, segments: seq<seq<Place>>, at: seq<nat>, centers: seq<Anchor>, i: nat,
                    j: nat) returns (from: seq<nat>)
    requires |coords| >= 2 && Straight(env, coords) && AllClear(Samples(env, coords, centers), i, j)
    requires Tiles(coords, segments, at)
    ensures |coords| == |Cumulative(env, coords)|
    ensures var c := CutsAt(Samples(env, coords, centers), i, j);
            && Shares(env, coords, c, at, from, SegmentsCut(env, segments, c, centers))
            && Chosen(env, coords, c, centers, at, from)
            && (ClearAtCuts(env, coords, centers, c) ==> NoneMissing(env, coords, c, at, from))
            && (ToldApart(env, coords) ==> NoneMissing(env, coords, c, at, from))
  {
    hide Samples, Metric, Chords, Cumulative, SegmentsCut, Meets, LeftOut, SharesOne, Kept, CutOf, ToldApart, AllClear,
         ClearAtCuts;
    CumulativeAt(env, coords, 0);
    EveryMetre(env, coords, centers);
    EndsClear(Samples(env, coords, centers), i, j);
    var c := CutsAt(Samples(env, coords, centers), i, j);
    var lo, hi := RangeKept(env, coords, c);
    from := PiecesFrom(env, segments, c, centers);
    forall k: nat | k < |segments|
      ensures k in from ==> SharesOne(env, coords, c, at, k, CutOf(env, segments, c, centers, k).value)
      ensures ChosenOne(env, coords, c, centers, at, from, k) {
      TileChosen(env, coords, segments, at, centers, i, j, lo, hi, k);
    }
    assert forall m :: 0 <= m < |from| ==> from[m] in from;
    if ToldApart(env, coords) { ToldApartIsClear(env, coords, centers, i, j); }
    if ClearAtCuts(env, coords, centers, c) {
      NothingLeftOut(env, coords, centers, c);
      assert forall k: nat :: k + 1 < |at| ==> ChosenOne(env, coords, c, centers, at, from, k);
    }
  }

  // The pieces of a clipped artifact whose segments tile its line.
  lemma ClippedPieces(env: Env, artifact: Artifact, anchors: seq<Anchor>, at: seq<nat>)
    returns (i: nat, j: nat, from: seq<nat>)
    requires Clipped(env, artifact, anchors).Some? && Straight(env, artifact.coords)
    requires Tiles(artifact.coords, artifact.segments, at)
    ensures |artifact.coords| == |Cumulative(env, artifact.coords)| >= 2
    ensures var clip, coords := Clipped(env, artifact, anchors).value, artifact.coords;
            var ss := Samples(env, coords, Centers(artifact, anchors));
            && IsBest(ss, |ss|, i, j) && j < |ss|
            && var c := CutsAt(ss, i, j);
               && |clip.coords| >= 2 && clip.coords[0] == c.cutA && clip.coords[|clip.coords| - 1] == c.cutB
               && Shares(env, coords, c, at, from, clip.segments)
               && Chosen(env, coords, c, Centers(artifact, anchors), at, from)
               && (ToldApart(env, coords) ==> NoneMissing(env, coords, c, at, from))
  {
    hide Samples, Straight, Cumulative, Centers, SegmentsCut, UnsafeCut, ManeuversCut, Shift, Clipped, IsBest, Inner,
         ToldApart, AllPlacesClear, PolyLength, Shares, Chosen, NoneMissing, ClearAtCuts, Tiles;
    i, j := ClippedIsCut(env, artifact, anchors);
    BestIsRun(Samples(env, artifact.coords, Centers(artifact, anchors)), i, j);
    from := PiecesOfRun(env, artifact.coords, artifact.segments, at, Centers(artifact, anchors), i, j);
  }

  lemma OnBoth(env: Env, coords: seq<Place>, centers: seq<Anchor>, i: nat, j: nat)
    requires |coords| >= 2 && Metric(env) && i < |Samples(env, coords, centers)| && j < |Samples(env, coords, centers)|
    ensures OnLine(env, coords, Samples(env, coords, centers)[i]) && OnLine(env, coords, Samples(env, coords, centers)[j])
  {
    AllSamplesOn(env, coords, centers);
    hide Samples, OnLine, Metric, Cumulative;
  }

  lemma {:induction false} NothingLeftOut(env: Env, coords: seq<Place>, centers: seq<Anchor>, c: Cuts)
    requires |coords| == |Cumulative(env, coords)| && ClearAtCuts(env, coords, centers, c)
    ensures forall x: nat, y: nat :: x < |coords| && y < |coords| ==>
              (LeftOut(env, coords, Cumulative(env, coords), c, centers, x, y) <==> !Meets(Cumulative(env, coords), c, x, y))
  {
    hide Cumulative, Env.PlaceClear, Meets;
  }

  // --------------------------------------------------------- still a tiling

  // Nothing that meets the stretch is dropped.
  ghost predicate NoneDropped(env: Env, coords: seq<Place>, segments: seq<seq<Place>>, at: seq<nat>, c: Cuts,
                              centers: seq<Anchor>)
    requires Tiles(coords, segments, at) && |coords| == |Cumulative(env, coords)|
  {
    forall k: nat :: k < |segments| && MeetsTile(env, coords, segments, at, c, k) ==> CutOf(env, segments, c, centers, k).Some?
  }

  ghost predicate MeetsTile(env: Env, coords: seq<Place>, segments: seq<seq<Place>>, at: seq<nat>, c: Cuts, k: nat)
    requires |coords| == |Cumulative(env, coords)|
  {
    Tile(coords, segments, at, k) && Meets(Cumulative(env, coords), c, at[k], at[k + 1])
  }

  lemma {:induction false} PiecesTo(env: Env, coords: seq<Place>, segments: seq<seq<Place>>, at: seq<nat>, c: Cuts,
                                    centers: seq<Anchor>, from: nat, to: nat, k: nat)
    requires Tiles(coords, segments, at) && k <= |segments| && |coords| == |Cumulative(env, coords)| && Metric(env)
    requires 0.0 <= c.a && Ranged(Cumulative(env, coords), c, from, to)
    requires NoneDropped(env, coords, segments, at, c, centers)
    ensures at[k] < |coords|
    ensures PutTogether(coords, Cumulative(env, coords), c, from, to, SegmentsCut(env, segments[..k], c, centers), at[k])
  {
    hide Cumulative, SegmentsCut, CutOf, PutTogether, Ranged, Meets, Metric, Cutout, AllPlacesClear;
    var cum := Cumulative(env, coords);
    CutStep(env, segments[..k], c, centers);
    if k == 0 {
      CumulativeAt(env, coords, 0);
      NothingYet(coords, cum, c, from, to);
    } else {
      var before := SegmentsCut(env, segments[..k - 1], c, centers);
      assert segments[..k][..k - 1] == segments[..k - 1];
      PiecesTo(env, coords, segments, at, c, centers, from, to, k - 1);
      RangedKept(cum, c, from, to);
      CutOfTile(env, coords, segments, at, c, centers, from, to, k - 1);
      CutOfFirst(env, segments, c, centers, k);
      Rises(env, coords, at[k - 1], at[k]);
      if MeetsTile(env, coords, segments, at, c, k - 1) {
        if before == [] {
          FirstMet(coords, cum, c, from, to, at[k - 1], at[k]);
          assert before + [Cutout(coords, cum, c, at[k - 1], at[k], from, to)]
              == [Cutout(coords, cum, c, at[k - 1], at[k], from, to)];
        } else {
          NextMet(coords, cum, c, from, to, before, at[k - 1], at[k]);
        }
      } else {
        NotMet(coords, cum, c, from, to, before, at[k - 1], at[k]);
        assert before + [] == before;
      }
    }
  }

  lemma RangedKept(cum: seq<real>, c: Cuts, from: nat, to: nat)
    requires Ranged(cum, c, from, to)
    ensures Kept(cum, c, from, to) && from <= to <= |cum|
  {
  }

  lemma NothingYet(coords: seq<Place>, cum: seq<real>, c: Cuts, from: nat, to: nat)
    requires 0 < |coords| == |cum| && Ranged(cum, c, from, to) && cum[0] <= c.a
    ensures PutTogether(coords, cum, c, from, to, [], 0)
  {
  }

  lemma CutOfFirst(env: Env, segments: seq<seq<Place>>, c: Cuts, centers: seq<Anchor>, k: nat)
    requires 0 < k <= |segments|
    ensures CutOf(env, segments[..k], c, centers, k - 1) == CutOf(env, segments, c, centers, k - 1)
  {
    assert segments[..k][..k - 1] == segments[..k - 1];
  }

  lemma {:induction false} PolyLengthJoin(env: Env, p: seq<Place>, q: seq<Place>)
    requires p != [] && q != [] && p[|p| - 1] == q[0]
    ensures PolyLength(env, p + q[1..]) == PolyLength(env, p) + PolyLength(env, q)
    decreases |q|
  {
    hide PolyLength;
    if |q| == 1 {
      assert p + q[1..] == p && q == [q[0]];
      OnePoint(env, q[0]);
    } else {
      var n := |q| - 1;
      PolyLengthJoin(env, p, q[..n]);
      assert p + q[1..] == p + q[..n][1..] + [q[n]];
      assert q == q[..n] + [q[n]];
      PolyLengthAppend(env, p + q[..n][1..], q[n]);
      PolyLengthAppend(env, q[..n], q[n]);
    }
  }

  // Together the pieces are as long as the line they make up.
  lemma {:induction false} JoinedLength(env: Env, pieces: seq<seq<Place>>)
    requires JoinsUp(pieces) && pieces != []
    ensures Joined(pieces) != [] && Joined(pieces)[0] == pieces[0][0] && Joined(pieces)[|Joined(pieces)| - 1] == Last(pieces)
    ensures PolyLength(env, Joined(pieces)) == SegmentsEnd(env, pieces)
  {
    hide PolyLength;
    var n := |pieces| - 1;
    if n == 0 {
      assert SegmentsEnd(env, pieces[..0]) == 0.0;
    } else {
      assert JoinsUp(pieces[..n]) && EndsAt(pieces[n - 1], pieces[n][0]);
      hide JoinsUp;
      JoinedLength(env, pieces[..n]);
      PolyLengthJoin(env, Joined(pieces[..n]), pieces[n]);
    }
  }

  lemma {:induction false} SwapFirst(env: Env, p: Place, q: Place, rest: seq<Place>)
    requires Metric(env) && rest != []
    ensures var d := PolyLength(env, [p] + rest) - PolyLength(env, [q] + rest); -env.dist(p, q) <= d <= env.dist(p, q)
  {
    hide PolyLength, Metric;
    var n := |rest| - 1;
    if n == 0 {
      PolyLengthAppend(env, [p], rest[0]);
      PolyLengthAppend(env, [q], rest[0]);
      assert [p] + rest == [p] + [rest[0]] && [q] + rest == [q] + [rest[0]];
      OnePoint(env, p);
      OnePoint(env, q);
      Triangle(env, p, q, rest[0]);
      Triangle(env, q, p, rest[0]);
    } else {
      SwapFirst(env, p, q, rest[..n]);
      assert [p] + rest == [p] + rest[..n] + [rest[n]] && [q] + rest == [q] + rest[..n] + [rest[n]];
      PolyLengthAppend(env, [p] + rest[..n], rest[n]);
      PolyLengthAppend(env, [q] + rest[..n], rest[n]);
    }
  }

  lemma SwapEnds(env: Env, p: Place, p': Place, mid: seq<Place>, q: Place, q': Place, tol: real)
    requires Metric(env) && env.dist(p, p') <= tol && env.dist(q, q') <= tol
    ensures var d := PolyLength(env, [p] + mid + [q]) - PolyLength(env, [p'] + mid + [q']); -2.0 * tol <= d <= 2.0 * tol
  {
    hide PolyLength, Metric;
    assert [p] + mid + [q] == [p] + (mid + [q]) && [p'] + mid + [q] == [p'] + (mid + [q]);
    SwapFirst(env, p, p', mid + [q]);
    PolyLengthAppend(env, [p'] + mid, q);
    PolyLengthAppend(env, [p'] + mid, q');
    var last := ([p'] + mid)[|mid|];
    Triangle(env, last, q, q');
    Triangle(env, last, q', q);
    Triangle(env, q, q', q);
  }

  // A place at a cut is within the tolerance of it.
  lemma {:induction false} AtCutClose(env: Env, coords: seq<Place>, s: Sample, q: Place)
    requires Straight(env, coords) && |coords| >= 2 && OnLine(env, coords, s) && |coords| == |Cumulative(env, coords)|
    requires AtCut(coords, Cumulative(env, coords), q, s.at, s.s)
    ensures env.dist(q, s.at) <= Tolerance(env, coords)
  {
    hide Straight, Cumulative, OnLine, Tolerance;
    if q == s.at {
      SamePosition(env, coords, s, s);
      SomeTolerance(env, coords);
    } else {
      var v: nat :| v < |coords| && q == coords[v] && s.s - EPS_M <= Cumulative(env, coords)[v] <= s.s + EPS_M;
      VertexNear(env, coords, s, v);
    }
  }

  // The pieces join end to end into the line `clip`, but for a first and a
  // last point that may be off by the tolerance.
  ghost predicate Tiling(env: Env, pieces: seq<seq<Place>>, clip: seq<Place>, tol: real) {
    && JoinsUp(pieces) && |clip| >= 2
    && var line := Joined(pieces);
       && |line| == |clip| && line[1..|line| - 1] == clip[1..|clip| - 1]
       && env.dist(line[0], clip[0]) <= tol && env.dist(line[|line| - 1], clip[|clip| - 1]) <= tol
       && PolyLength(env, clip) - 2.0 * tol <= SegmentsEnd(env, pieces) <= PolyLength(env, clip) + 2.0 * tol
  }

  lemma AllLong(pieces: seq<seq<Place>>)
    requires JoinsUp(pieces)
    ensures forall k :: 0 <= k < |pieces| ==> |pieces[k]| >= 2
  {
  }

  lemma {:induction false} TogetherTiles(env: Env, coords: seq<Place>, s: Sample, e: Sample, from: nat, to: nat,
                                         pieces: seq<seq<Place>>)
    requires Straight(env, coords) && |coords| >= 2 && |coords| == |Cumulative(env, coords)|
    requires OnLine(env, coords, s) && OnLine(env, coords, e) && from <= to <= |coords| && pieces != [] && JoinsUp(pieces)
    requires AtCut(coords, Cumulative(env, coords), pieces[0][0], s.at, s.s)
    requires AtCut(coords, Cumulative(env, coords), Last(pieces), e.at, e.s)
    requires Joined(pieces) == [pieces[0][0]] + coords[from..to] + [Last(pieces)]
    ensures Tiling(env, pieces, [s.at] + coords[from..to] + [e.at], Tolerance(env, coords))
  {
    hide Chords, Metric, Cumulative, OnLine, Tolerance, JoinsUp, AtCut, PolyLength, Joined, Last, SegmentsEnd;
    AllLong(pieces);
    JoinedLength(env, pieces);
    AtCutClose(env, coords, s, pieces[0][0]);
    AtCutClose(env, coords, e, Last(pieces));
    SwapEnds(env, pieces[0][0], s.at, coords[from..to], Last(pieces), e.at, Tolerance(env, coords));
    var line, clip := Joined(pieces), [s.at] + coords[from..to] + [e.at];
    assert line[1..|line| - 1] == coords[from..to] == clip[1..|clip| - 1];
  }

  lemma {:induction false} NoneIsDropped(env: Env, coords: seq<Place>, segments: seq<seq<Place>>, at: seq<nat>,
                                         centers: seq<Anchor>, i: nat, j: nat, from: nat, to: nat)
    requires |coords| >= 2 && Metric(env) && AllClear(Samples(env, coords, centers), i, j) && Tiles(coords, segments, at)
    requires |coords| == |Cumulative(env, coords)|
    requires var c := CutsAt(Samples(env, coords, centers), i, j);
             ClearAtCuts(env, coords, centers, c) && Kept(Cumulative(env, coords), c, from, to)
    ensures NoneDropped(env, coords, segments, at, CutsAt(Samples(env, coords, centers), i, j), centers)
  {
    EndsClear(Samples(env, coords, centers), i, j);
    hide Samples, Metric, Cumulative, Meets, LeftOut, SharesOne, Kept, CutOf, ClearAtCuts, Tiles, AllClear;
    var c := CutsAt(Samples(env, coords, centers), i, j);
    NothingLeftOut(env, coords, centers, c);
    forall k: nat | k < |segments| && MeetsTile(env, coords, segments, at, c, k)
      ensures CutOf(env, segments, c, centers, k).Some? {
      TileChosen(env, coords, segments, at, centers, i, j, from, to, k);
    }
  }

  lemma {:induction false} SegmentsStillTile(env: Env, coords: seq<Place>, segments: seq<seq<Place>>, at: seq<nat>,
                                             centers: seq<Anchor>, i: nat, j: nat)
    requires |coords| >= 2 && Straight(env, coords) && AllClear(Samples(env, coords, centers), i, j)
    requires Tiles(coords, segments, at) && |coords| == |Cumulative(env, coords)|
    requires ClearAtCuts(env, coords, centers, CutsAt(Samples(env, coords, centers), i, j))
    ensures var c := CutsAt(Samples(env, coords, centers), i, j);
            var pieces := SegmentsCut(env, segments, c, centers);
            if pieces == [] then c.b - c.a <= 2.0 * EPS_M
            else Tiling(env, pieces, [c.cutA] + Inner(coords, Cumulative(env, coords), c.a, c.b) + [c.cutB],
                        Tolerance(env, coords))
  {
    hide Samples, Metric, Chords, Cumulative, SegmentsCut, Ranged, Tiling, NoneDropped, ClearAtCuts, OnLine, Inner,
         JoinsUp, AtCut, Joined, Last, Tolerance;
    var ss, cum := Samples(env, coords, centers), Cumulative(env, coords);
    EndsClear(ss, i, j);
    var c := CutsAt(ss, i, j);
    var from, to := RangeKept(env, coords, c);
    RangedKept(cum, c, from, to);
    NoneIsDropped(env, coords, segments, at, centers, i, j, from, to);
    OnBoth(env, coords, centers, i, j);
    CutsOnLine(env, coords, centers, i, j);
    PiecesTo(env, coords, segments, at, c, centers, from, to, |segments|);
    assert segments[..|segments|] == segments;
    var pieces := SegmentsCut(env, segments, c, centers);
    if pieces != [] {
      TogetherTiles(env, coords, ss[i], ss[j], from, to, pieces);
    }
  }

  lemma {:induction false} CutsOnLine(env: Env, coords: seq<Place>, centers: seq<Anchor>, i: nat, j: nat)
    requires |coords| >= 2 && Metric(env) && i <= j < |Samples(env, coords, centers)|
    ensures |coords| == |Cumulative(env, coords)|
    ensures var ss := Samples(env, coords, centers);
            0.0 <= ss[i].s <= ss[j].s <= Cumulative(env, coords)[|coords| - 1]
  {
    CumulativeAt(env, coords, 0);
    AllSamplesOn(env, coords, centers);
    EveryMetre(env, coords, centers);
    hide Samples, OnLine, Metric, Cumulative;
  }

  // The pieces still tile the line that is uploaded, and are as long as it,
  // exactly where vertices are repeated or told apart. Only a stretch no longer
  // than twice the slack may have no pieces.
  lemma StillTiles(env: Env, artifact: Artifact, anchors: seq<Anchor>, at: seq<nat>) returns (i: nat, j: nat)
    requires Clipped(env, artifact, anchors).Some? && Straight(env, artifact.coords)
    requires Tiles(artifact.coords, artifact.segments, at)
    ensures |artifact.coords| == |Cumulative(env, artifact.coords)| >= 2
    ensures var clip, coords := Clipped(env, artifact, anchors).value, artifact.coords;
            var centers := Centers(artifact, anchors);
            var ss := Samples(env, coords, centers);
            && IsBest(ss, |ss|, i, j) && j < |ss|
            && var c := CutsAt(ss, i, j);
               && (ToldApart(env, coords) ==> ClearAtCuts(env, coords, centers, c) && Tolerance(env, coords) == 0.0)
               && (ClearAtCuts(env, coords, centers, c) ==>
                     && (clip.segments == [] ==> c.b - c.a <= 2.0 * EPS_M)
                     && (clip.segments != [] ==>
                           && Tiling(env, clip.segments, clip.coords, Tolerance(env, coords))
                           && clip.distance == PolyLength(env, clip.coords)))
  {
    hide Samples, Chords, Metric, Cumulative, Centers, SegmentsCut, UnsafeCut, ManeuversCut, Shift, Clipped, IsBest, Inner,
         ToldApart, AllPlacesClear, PolyLength, ClearAtCuts, Tiles, Tiling;
    i, j := ClippedIsCut(env, artifact, anchors);
    var coords, centers := artifact.coords, Centers(artifact, anchors);
    BestIsRun(Samples(env, coords, centers), i, j);
    CumulativeAt(env, coords, 0);
    CutsOnLine(env, coords, centers, i, j);
    if ToldApart(env, coords) { ToldApartIsClear(env, coords, centers, i, j); }
    if ClearAtCuts(env, coords, centers, CutsAt(Samples(env, coords, centers), i, j)) {
      SegmentsStillTile(env, coords, artifact.segments, at, centers, i, j);
    }
  }
}
