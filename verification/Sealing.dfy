// What the recorder does to one trip record (web/lib/tripRecorder.ts): fixes
// and reroutes come in, sealed request bodies come out.
module Sealing {
  import opened Topology
  import opened TraceTypes
  import opened Clip

  // What a trip was given: the routes it followed, in the order they took
  // effect, its destination, and every fix that was accepted.
  datatype Log = Log(followed: seq<Followed>, destination: Option<Place>, accepted: seq<Fix>)

  // A record after an operation, and what it sealed.
  datatype Sealed = Sealed(trip: TripRecord, items: seq<Item>)

  function SealChunk(env: Env, t: TripRecord, body: Body, now: int): Sealed {
    if t.nextSeq > MAX_SEQ || env.size(body) > MAX_BODY_BYTES then Sealed(t, [])
    else Sealed(t.(nextSeq := t.nextSeq + 1), [Item(Chunk(t.tripId, t.nextSeq), body, now)])
  }

  ghost function SealArtifact(env: Env, t: TripRecord, fa: Followed, now: int): Sealed {
    var clipped := Clipped(env, fa.artifact, t.anchors);
    if clipped.None? then Sealed(t, [])
    else SealChunk(env, t, ChunkBody([], [fa.(artifact := clipped.value)]), now)
  }

  // The routes held back, in the order they took effect.
  ghost function SealArtifacts(env: Env, t: TripRecord, held: seq<Followed>, now: int): Sealed {
    if held == [] then Sealed(t, [])
    else
      var before := SealArtifacts(env, t, held[..|held| - 1], now);
      var last := SealArtifact(env, before.trip, held[|held| - 1], now);
      Sealed(last.trip, before.items + last.items)
  }

  // Chunks of at most 600, from the front.
  function SealFixes(env: Env, t: TripRecord, ready: seq<Fix>, now: int): Sealed
    decreases |ready|
  {
    if ready == [] then Sealed(t, [])
    else
      var n := if |ready| < MAX_FIXES_PER_CHUNK then |ready| else MAX_FIXES_PER_CHUNK;
      var first := SealChunk(env, t, ChunkBody(ready[..n], []), now);
      var rest := SealFixes(env, first.trip, ready[n..], now);
      Sealed(rest.trip, first.items + rest.items)
  }

  function ClearFixes(env: Env, fixes: seq<Fix>, anchors: seq<Anchor>): (r: seq<Fix>)
    ensures forall i :: 0 <= i < |r| ==> r[i] in fixes && env.ClearOf(Disk(r[i]), anchors)
  {
    if fixes == [] then []
    else
      var n := |fixes| - 1;
      ClearFixes(env, fixes[..n], anchors) + if env.ClearOf(Disk(fixes[n]), anchors) then [fixes[n]] else []
  }

  function Ready(env: Env, t: TripRecord): seq<Fix> {
    ClearFixes(env, t.pending[..SealablePrefix(env, t.pending, t.head)], t.anchors)
  }

  // The record once its sealable prefix is taken off.
  function Taken(env: Env, t: TripRecord): TripRecord {
    t.(pending := t.pending[SealablePrefix(env, t.pending, t.head)..],
       lastSealAt := if t.head.Some? then t.head.value.t else t.lastSealAt)
  }

  ghost function Seal(env: Env, t: TripRecord, now: int): Sealed {
    var t1, ready := Taken(env, t), Ready(env, t);
    if ready == [] then Sealed(t1, [])
    else if t.sealedFixes then SealFixes(env, t1, ready, now)
    else
      var a := SealArtifacts(env, t1.(sealedFixes := true), t.held, now);
      var f := SealFixes(env, a.trip.(held := []), ready, now);
      Sealed(f.trip, a.items + f.items)
  }

  // ------------------------------------------------------- the operations

  function PredictionOf(route: Artifact, at: int): Prediction {
    Prediction(at, route.etaS, route.level, route.profile)
  }

  function EndOf(route: Artifact): seq<Anchor> {
    if route.coords == [] then [] else [Anchor(route.coords[|route.coords| - 1], 0.0)]
  }

  function StartOf(route: Artifact): seq<Anchor> {
    if route.coords == [] then [] else [Anchor(route.coords[0], 0.0)]
  }

  function StartTrip(id: TripId, route: Artifact, destination: Option<Place>, at: int): TripRecord {
    TripRecord(id, at,
               StartOf(route) + EndOf(route) + (if destination.Some? then [Anchor(destination.value, 0.0)] else []),
               None, [], at, 0, false, [Followed(at, route)], Some(PredictionOf(route, at)))
  }

  // The record with an accepted fix as its head. Where the trip began is a
  // private point as well.
  function Headed(env: Env, t: TripRecord, fix: Fix): TripRecord {
    var anchors := t.anchors + if t.head.None? then [Disk(fix)] else [];
    t.(anchors := anchors, head := Some(fix),
       pending := t.pending + if env.ClearOf(Disk(fix), anchors) then [fix] else [])
  }

  // Sealing is due about every two minutes.
  predicate SealDue(t: TripRecord) {
    t.head.Some? && t.head.value.t - t.lastSealAt >= SEAL_INTERVAL_MS
  }

  ghost function AddFix(env: Env, t: TripRecord, fix: Fix, now: int): Sealed {
    var t1 := Headed(env, t, fix);
    if SealDue(t1) then Seal(env, t1, now) else Sealed(t1, [])
  }

  function RerouteAt(t: TripRecord, now: int): int {
    var after := (if t.prediction.Some? then t.prediction.value.effectiveAt else 0) + 1;
    if now > after then now else after
  }

  ghost function Reroute(env: Env, t: TripRecord, route: Artifact, now: int): Sealed {
    var at := RerouteAt(t, now);
    var t1 := t.(anchors := t.anchors + EndOf(route), prediction := Some(PredictionOf(route, at)));
    if t.sealedFixes then SealArtifact(env, t1, Followed(at, route), now)
    else Sealed(t1.(held := t1.held + [Followed(at, route)]), [])
  }

  function Max(x: int, y: int): int { if x < y then y else x }

  // A trip ends no earlier than its head and its prediction.
  function EndTime(t: TripRecord, at: int): int {
    Max(at, Max(if t.head.Some? then t.head.value.t else 0,
                if t.prediction.Some? then t.prediction.value.effectiveAt else 0))
  }

  // A last seal, then the end; what was held back is lost with the record.
  ghost function Finalize(env: Env, t: TripRecord, arrived: bool, endedAt: int, now: int): seq<Item> {
    Seal(env, t, now).items + [Item(End(t.tripId), EndBody(endedAt, arrived, t.prediction), now)]
  }

  // -------------------------------------------------------- the invariant

  // An open trip's record.
  ghost predicate TripOk(t: TripRecord) {
    && Increasing(t.pending) && (forall i :: 0 <= i < |t.pending| ==> FixOk(t.pending[i]))
    && (t.pending != [] ==> t.head.Some? && t.pending[|t.pending| - 1].t <= t.head.value.t)
    && t.nextSeq <= MAX_SEQ + 1
    && t.prediction.Some? && (t.sealedFixes ==> t.head.Some?)
    && (forall i, j :: 0 <= i < j < |t.held| ==> t.held[i].effectiveAt < t.held[j].effectiveAt)
    && (forall i :: 0 <= i < |t.held| ==> t.held[i].effectiveAt <= t.prediction.value.effectiveAt)
  }

  // Items with these consecutive seqs of trip id, all valid for the server.
  ghost predicate Consecutive(id: TripId, items: seq<Item>, lo: nat, hi: nat) {
    && hi == lo + |items| && hi <= MAX_SEQ + 1
    && forall i :: 0 <= i < |items| ==> items[i].key == Chunk(id, lo + i) && ValidBody(items[i].key, items[i].body)
  }

  // What sealing leaves alone.
  ghost predicate Same(t: TripRecord, t': TripRecord) {
    && t'.tripId == t.tripId && t'.anchors == t.anchors && t'.head == t.head && t'.pending == t.pending
    && t'.prediction == t.prediction
  }

  ghost predicate LogOk(log: Log) {
    && log.followed != [] && Increasing(log.accepted)
    && forall i, j :: 0 <= i < j < |log.followed| ==> log.followed[i].effectiveAt < log.followed[j].effectiveAt
  }

  ghost predicate LogGrows(log: Log, log': Log) {
    && log.followed <= log'.followed && log.accepted <= log'.accepted && log.destination == log'.destination
  }

  // What the record still holds was given to the trip.
  ghost predicate Recorded(log: Log, t: TripRecord) {
    && (forall i :: 0 <= i < |t.held| ==> t.held[i] in log.followed)
    && (forall i :: 0 <= i < |t.pending| ==> t.pending[i] in log.accepted)
  }

  predicate Among(some: seq<Anchor>, all: seq<Anchor>) {
    forall i :: 0 <= i < |some| ==> some[i] in all
  }

  // Every private point of the trip up to the time of this record: both ends
  // of the route it started on, its destination, the end of each route that
  // replaced another, and the first fix.
  ghost predicate Anchored(log: Log, t: TripRecord) {
    && log.followed != [] && t.prediction.Some?
    && Among(StartOf(log.followed[0].artifact), t.anchors)
    && (forall i :: 0 <= i < |log.followed| && log.followed[i].effectiveAt <= t.prediction.value.effectiveAt ==>
          Among(EndOf(log.followed[i].artifact), t.anchors))
    && (log.destination.Some? ==> Anchor(log.destination.value, 0.0) in t.anchors)
    && (t.head.Some? ==> log.accepted != [] && Disk(log.accepted[0]) in t.anchors)
  }

  // In so many words: the first and the last point of the route it started on,
  // its destination, the last point of each route followed by then, and the
  // first fix with its accuracy.
  ghost predicate Guards(log: Log, t: TripRecord) {
    && log.followed != [] && t.prediction.Some?
    && (log.followed[0].artifact.coords != [] ==> Anchor(log.followed[0].artifact.coords[0], 0.0) in t.anchors)
    && (forall i :: 0 <= i < |log.followed| && log.followed[i].effectiveAt <= t.prediction.value.effectiveAt ==>
          GuardsEnd(log.followed[i].artifact.coords, t.anchors))
    && (log.destination.Some? ==> Anchor(log.destination.value, 0.0) in t.anchors)
    && (t.head.Some? ==> log.accepted != [] && Anchor(log.accepted[0].at, log.accepted[0].accuracy) in t.anchors)
  }

  predicate GuardsEnd(coords: seq<Place>, anchors: seq<Anchor>) {
    coords != [] ==> Anchor(coords[|coords| - 1], 0.0) in anchors
  }

  lemma AnchoredGuards(log: Log, t: TripRecord)
    requires Anchored(log, t)
    ensures Guards(log, t)
  {
    var first := log.followed[0].artifact;
    if first.coords != [] { assert StartOf(first)[0] in t.anchors; }
    forall i | 0 <= i < |log.followed| && log.followed[i].effectiveAt <= t.prediction.value.effectiveAt
      ensures GuardsEnd(log.followed[i].artifact.coords, t.anchors) {
      var route := log.followed[i].artifact;
      if route.coords != [] { assert EndOf(route)[0] in t.anchors; }
    }
  }

  // The prediction is that of a route followed, its head one of the fixes.
  ghost predicate Dated(log: Log, t: TripRecord) {
    && (exists fa :: fa in log.followed && t.prediction == Some(PredictionOf(fa.artifact, fa.effectiveAt)))
    && (t.head.Some? ==> t.head.value in log.accepted)
  }

  ghost predicate Knows(log: Log, t: TripRecord) {
    Recorded(log, t) && Anchored(log, t) && Dated(log, t)
  }

  // The record of the trip as it is now: the last route and the last fix.
  ghost predicate Current(log: Log, t: TripRecord) {
    && log.followed != [] && t.prediction.Some?
    && t.prediction.value.effectiveAt == log.followed[|log.followed| - 1].effectiveAt
    && t.head == if log.accepted == [] then None else Some(log.accepted[|log.accepted| - 1])
  }

  // A body disclosed by the record t. Its fixes were accepted, and are clear
  // of the head and of every anchor. Its artifact is a route the trip
  // followed from that time on, clipped: clear of every anchor and of that
  // route's own two ends.
  ghost predicate Private(env: Env, log: Log, t: TripRecord, b: Body) {
    b.ChunkBody? ==>
      && (forall i :: 0 <= i < |b.fixes| ==> FixPrivate(env, log, t, b.fixes[i]))
      && (forall i :: 0 <= i < |b.artifacts| ==> ArtifactPrivate(env, log, t, b.artifacts[i]))
  }

  ghost predicate FixPrivate(env: Env, log: Log, t: TripRecord, f: Fix) {
    && f in log.accepted && env.ClearOf(Disk(f), t.anchors)
    && t.head.Some? && env.Separation(Disk(f), Disk(t.head.value)) >= TRIM_M
  }

  ghost predicate ArtifactPrivate(env: Env, log: Log, t: TripRecord, fa: Followed) {
    exists whole :: ClippedFrom(env, log, t, whole, fa)
  }

  ghost predicate ClippedFrom(env: Env, log: Log, t: TripRecord, whole: Artifact, fa: Followed) {
    && Followed(fa.effectiveAt, whole) in log.followed
    && Clipped(env, whole, t.anchors) == Some(fa.artifact)
    && |whole.coords| >= 2 && ArtifactClear(env, fa.artifact, Centers(whole, t.anchors))
  }

  ghost predicate AllPrivate(env: Env, log: Log, t: TripRecord, items: seq<Item>) {
    forall i :: 0 <= i < |items| ==> Private(env, log, t, items[i].body)
  }

  // ---------------------------------------------------------- the proofs

  lemma SealChunkOk(env: Env, t: TripRecord, body: Body, now: int)
    requires t.nextSeq <= MAX_SEQ + 1 && ValidBody(Chunk(t.tripId, 0), body)
    ensures var r := SealChunk(env, t, body, now);
            && Same(t, r.trip) && Consecutive(t.tripId, r.items, t.nextSeq, r.trip.nextSeq)
            && r.trip.held == t.held && r.trip.sealedFixes == t.sealedFixes && r.trip.lastSealAt == t.lastSealAt
            && r.trip.startedAt == t.startedAt
            && forall i :: 0 <= i < |r.items| ==> r.items[i].body == body
  {
  }

  lemma SealArtifactOk(env: Env, log: Log, t: TripRecord, fa: Followed, now: int)
    requires t.nextSeq <= MAX_SEQ + 1 && fa in log.followed
    ensures var r := SealArtifact(env, t, fa, now);
            && Same(t, r.trip) && Consecutive(t.tripId, r.items, t.nextSeq, r.trip.nextSeq)
            && AllPrivate(env, log, t, r.items) && r.trip.held == t.held && r.trip.sealedFixes == t.sealedFixes
            && (forall i :: 0 <= i < |r.items| ==> r.items[i].body.fixes == [] && |r.items[i].body.artifacts| == 1)
  {
    var clipped := Clipped(env, fa.artifact, t.anchors);
    if clipped.Some? {
      var body := ChunkBody([], [fa.(artifact := clipped.value)]);
      SealChunkOk(env, t, body, now);
      ClipIsPrivate(env, fa.artifact, t.anchors);
      assert ClippedFrom(env, log, t, fa.artifact, fa.(artifact := clipped.value));
      hide Clipped, ClippedFrom;
    }
  }

  lemma ConsecutiveConcat(id: TripId, a: seq<Item>, b: seq<Item>, lo: nat, mid: nat, hi: nat)
    requires Consecutive(id, a, lo, mid) && Consecutive(id, b, mid, hi)
    ensures Consecutive(id, a + b, lo, hi)
  {
    forall i | 0 <= i < |a + b|
      ensures (a + b)[i].key == Chunk(id, lo + i) && ValidBody((a + b)[i].key, (a + b)[i].body) {
      if i >= |a| { assert (a + b)[i] == b[i - |a|]; }
    }
  }

  lemma {:induction false} SealArtifactsOk(env: Env, log: Log, t: TripRecord, held: seq<Followed>, now: int)
    requires t.nextSeq <= MAX_SEQ + 1 && forall i :: 0 <= i < |held| ==> held[i] in log.followed
    ensures var r := SealArtifacts(env, t, held, now);
            && Same(t, r.trip) && Consecutive(t.tripId, r.items, t.nextSeq, r.trip.nextSeq)
            && AllPrivate(env, log, t, r.items) && r.trip.sealedFixes == t.sealedFixes
            && (forall i :: 0 <= i < |r.items| ==> r.items[i].body.fixes == [] && |r.items[i].body.artifacts| == 1)
  {
    if held != [] {
      var before := SealArtifacts(env, t, held[..|held| - 1], now);
      SealArtifactsOk(env, log, t, held[..|held| - 1], now);
      SealArtifactOk(env, log, before.trip, held[|held| - 1], now);
      var last := SealArtifact(env, before.trip, held[|held| - 1], now);
      ConsecutiveConcat(t.tripId, before.items, last.items, t.nextSeq, before.trip.nextSeq, last.trip.nextSeq);
      SamePrivate(env, log, t, before.trip, last.items);
      hide SealArtifact, Consecutive, Private;
    }
  }

  lemma PrivateHere(env: Env, log: Log, t: TripRecord, t': TripRecord, b: Body)
    requires t'.anchors == t.anchors && t'.head == t.head && Private(env, log, t', b)
    ensures Private(env, log, t, b)
  {
    hide Clipped, ArtifactClear, Env.ClearOf;
    if b.ChunkBody? {
      forall i | 0 <= i < |b.artifacts| ensures ArtifactPrivate(env, log, t, b.artifacts[i]) {
        assert ArtifactPrivate(env, log, t', b.artifacts[i]);
        var whole :| ClippedFrom(env, log, t', whole, b.artifacts[i]);
        assert ClippedFrom(env, log, t, whole, b.artifacts[i]);
      }
    }
  }

  lemma SamePrivate(env: Env, log: Log, t: TripRecord, t': TripRecord, items: seq<Item>)
    requires t'.anchors == t.anchors && t'.head == t.head && AllPrivate(env, log, t', items)
    ensures AllPrivate(env, log, t, items)
  {
    hide Private;
    forall i | 0 <= i < |items| ensures Private(env, log, t, items[i].body) {
      assert Private(env, log, t', items[i].body);
      PrivateHere(env, log, t, t', items[i].body);
    }
  }

  // Fixes in, the same fixes out, in order, in chunks; or lost for good when
  // the seqs or the size limit run out.
  lemma {:induction false} SealFixesOk(env: Env, log: Log, t: TripRecord, ready: seq<Fix>, now: int)
    requires t.nextSeq <= MAX_SEQ + 1 && Increasing(ready)
    requires forall i :: 0 <= i < |ready| ==> FixOk(ready[i]) && FixPrivate(env, log, t, ready[i])
    ensures var r := SealFixes(env, t, ready, now);
            && Same(t, r.trip) && Consecutive(t.tripId, r.items, t.nextSeq, r.trip.nextSeq)
            && AllPrivate(env, log, t, r.items) && r.trip.held == t.held && r.trip.sealedFixes == t.sealedFixes
            && InOrder(r.items, ready)
    decreases |ready|
  {
    if ready != [] {
      var n := if |ready| < MAX_FIXES_PER_CHUNK then |ready| else MAX_FIXES_PER_CHUNK;
      var body := ChunkBody(ready[..n], []);
      SealChunkOk(env, t, body, now);
      var first := SealChunk(env, t, body, now);
      SealFixesOk(env, log, first.trip, ready[n..], now);
      var rest := SealFixes(env, first.trip, ready[n..], now);
      ConsecutiveConcat(t.tripId, first.items, rest.items, t.nextSeq, first.trip.nextSeq, rest.trip.nextSeq);
      SamePrivate(env, log, t, first.trip, rest.items);
      assert Private(env, log, t, body);
      InOrderConcat(first.items, rest.items, ready, n);
      hide SealChunk, Consecutive, Private;
    }
  }

  // Every fix of every item is one of `ready`, and items and fixes keep its
  // order.
  ghost predicate InOrder(items: seq<Item>, ready: seq<Fix>) {
    && (forall i, k :: 0 <= i < |items| && items[i].body.ChunkBody? && 0 <= k < |items[i].body.fixes| ==>
          items[i].body.fixes[k] in ready)
    && (forall i, j, k, l :: Later(items, i, j, k, l) ==> items[i].body.fixes[k].t < items[j].body.fixes[l].t)
  }

  ghost predicate Later(items: seq<Item>, i: int, j: int, k: int, l: int) {
    && 0 <= i < j < |items| && items[i].body.ChunkBody? && items[j].body.ChunkBody?
    && 0 <= k < |items[i].body.fixes| && 0 <= l < |items[j].body.fixes|
  }

  lemma InSuffix(ready: seq<Fix>, n: nat, x: Fix) returns (m: nat)
    requires n <= |ready| && x in ready[n..]
    ensures n + m < |ready| && ready[n + m] == x
  {
    m :| m < |ready[n..]| && ready[n..][m] == x;
  }

  lemma InOrderConcat(first: seq<Item>, rest: seq<Item>, ready: seq<Fix>, n: nat)
    requires n <= |ready| && Increasing(ready) && InOrder(rest, ready[n..])
    requires |first| <= 1 && forall i :: 0 <= i < |first| ==> first[i].body == ChunkBody(ready[..n], [])
    ensures InOrder(first + rest, ready)
  {
    var items := first + rest;
    forall i, j, k, l | Later(items, i, j, k, l) ensures items[i].body.fixes[k].t < items[j].body.fixes[l].t {
      if i >= |first| {
        assert Later(rest, i - |first|, j - |first|, k, l);
      } else {
        assert items[j] == rest[j - |first|];
        var m := InSuffix(ready, n, items[j].body.fixes[l]);
      }
    }
    forall i, k | 0 <= i < |items| && items[i].body.ChunkBody? && 0 <= k < |items[i].body.fixes|
      ensures items[i].body.fixes[k] in ready {
      if i >= |first| {
        assert items[i] == rest[i - |first|];
      }
    }
  }

  lemma {:induction false} ClearFixesOrder(env: Env, fixes: seq<Fix>, anchors: seq<Anchor>)
    requires Increasing(fixes)
    ensures Increasing(ClearFixes(env, fixes, anchors))
  {
    if fixes != [] {
      var n := |fixes| - 1;
      ClearFixesOrder(env, fixes[..n], anchors);
      assert forall x :: x in ClearFixes(env, fixes[..n], anchors) ==> x in fixes[..n];
    }
  }

  // What one sealing discloses, and what it keeps: the sealed fixes come, in
  // order, from the front of `pending`, all before the fixes that stay.
  ghost predicate SealKeeps(env: Env, log: Log, t: TripRecord, r: Sealed) {
    && r.trip.tripId == t.tripId && r.trip.anchors == t.anchors && r.trip.head == t.head
    && r.trip.prediction == t.prediction
    && TripOk(r.trip) && Consecutive(t.tripId, r.items, t.nextSeq, r.trip.nextSeq) && AllPrivate(env, log, t, r.items)
    && (r.items != [] ==> r.trip.sealedFixes) && (t.sealedFixes ==> r.trip.sealedFixes)
    && (r.trip.sealedFixes ==> t.sealedFixes || Ready(env, t) != []) && (r.items != [] ==> Ready(env, t) != [])
    && (r.trip.held == t.held || r.trip.held == []) && InOrderPrefix(t, r)
  }

  lemma {:induction false} ReadyOk(env: Env, log: Log, t: TripRecord)
    requires TripOk(t) && Recorded(log, t)
    ensures Increasing(Ready(env, t)) && TripOk(Taken(env, t))
    ensures forall i :: 0 <= i < |Ready(env, t)| ==>
              FixOk(Ready(env, t)[i]) && FixPrivate(env, log, t, Ready(env, t)[i])
              && Ready(env, t)[i] in t.pending[..SealablePrefix(env, t.pending, t.head)]
  {
    var n := SealablePrefix(env, t.pending, t.head);
    ClearFixesOrder(env, t.pending[..n], t.anchors);
    TakenOk(env, t);
    forall i | 0 <= i < |Ready(env, t)|
      ensures FixOk(Ready(env, t)[i]) && FixPrivate(env, log, t, Ready(env, t)[i]) && Ready(env, t)[i] in t.pending[..n] {
      ReadyAt(env, log, t, i);
    }
    hide TripOk, Taken, Ready, FixOk, FixPrivate, ClearFixes, SealablePrefix;
  }

  lemma TakenOk(env: Env, t: TripRecord)
    requires TripOk(t)
    ensures TripOk(Taken(env, t))
  {
    hide FixOk, Env.Separation;
  }

  lemma {:induction false} ReadyAt(env: Env, log: Log, t: TripRecord, i: nat)
    requires TripOk(t) && Recorded(log, t) && i < |Ready(env, t)|
    ensures FixOk(Ready(env, t)[i]) && FixPrivate(env, log, t, Ready(env, t)[i])
    ensures Ready(env, t)[i] in t.pending[..SealablePrefix(env, t.pending, t.head)]
  {
    hide FixOk, Env.Separation;
    var n := SealablePrefix(env, t.pending, t.head);
    var k :| 0 <= k < n && t.pending[..n][k] == Ready(env, t)[i];
    assert t.pending[k] == Ready(env, t)[i];
  }

  // Sealing apart from the order of the fixes.
  ghost predicate SealsUp(env: Env, log: Log, t: TripRecord, r: Sealed) {
    && r.trip.tripId == t.tripId && r.trip.anchors == t.anchors && r.trip.head == t.head
    && r.trip.prediction == t.prediction && r.trip.pending == t.pending
    && Consecutive(t.tripId, r.items, t.nextSeq, r.trip.nextSeq) && AllPrivate(env, log, t, r.items)
    && r.trip.sealedFixes && (r.trip.held == t.held || r.trip.held == [])
  }

  lemma {:induction false} SealFirstOk(env: Env, log: Log, t: TripRecord, ready: seq<Fix>, now: int)
    requires t.nextSeq <= MAX_SEQ + 1 && Increasing(ready) && !t.sealedFixes && Recorded(log, t)
    requires forall i :: 0 <= i < |ready| ==> FixOk(ready[i]) && FixPrivate(env, log, t, ready[i])
    ensures var a := SealArtifacts(env, t.(sealedFixes := true), t.held, now);
            var f := SealFixes(env, a.trip.(held := []), ready, now);
            SealsUp(env, log, t, Sealed(f.trip, a.items + f.items))
  {
    var t0 := t.(sealedFixes := true);
    var a := SealArtifacts(env, t0, t.held, now);
    SealArtifactsOk(env, log, t0, t.held, now);
    var t2 := a.trip.(held := []);
    var f := SealFixes(env, t2, ready, now);
    assert forall i :: 0 <= i < |ready| ==> FixPrivate(env, log, t2, ready[i]);
    SealFixesOk(env, log, t2, ready, now);
    SamePrivate(env, log, t, t0, a.items);
    SamePrivate(env, log, t, t2, f.items);
    hide SealArtifacts, SealFixes, Private, Consecutive;
    ConsecutiveConcat(t.tripId, a.items, f.items, t.nextSeq, a.trip.nextSeq, f.trip.nextSeq);
  }

  lemma {:induction false} SealAgainOk(env: Env, log: Log, t: TripRecord, ready: seq<Fix>, now: int)
    requires t.nextSeq <= MAX_SEQ + 1 && Increasing(ready) && t.sealedFixes
    requires forall i :: 0 <= i < |ready| ==> FixOk(ready[i]) && FixPrivate(env, log, t, ready[i])
    ensures SealsUp(env, log, t, SealFixes(env, t, ready, now))
  {
    SealFixesOk(env, log, t, ready, now);
  }

  lemma SealOk(env: Env, log: Log, t: TripRecord, now: int)
    requires TripOk(t) && Recorded(log, t)
    ensures SealKeeps(env, log, t, Seal(env, t, now))
  {
    var t1, ready := Taken(env, t), Ready(env, t);
    ReadyOk(env, log, t);
    SealedInOrder(env, t, now);
    if ready != [] {
      assert forall i :: 0 <= i < |ready| ==> FixPrivate(env, log, t1, ready[i]);
      if t.sealedFixes {
        SealAgainOk(env, log, t1, ready, now);
      } else {
        SealFirstOk(env, log, t1, ready, now);
      }
      SealsUpKeeps(env, log, t, t1, Seal(env, t, now));
    }
  }

  lemma SealsUpKeeps(env: Env, log: Log, t: TripRecord, t1: TripRecord, r: Sealed)
    requires TripOk(t1) && SealsUp(env, log, t1, r) && InOrderPrefix(t, r) && t1.held == t.held
    requires t.head.Some? && Ready(env, t) != []
    requires t1.tripId == t.tripId && t1.anchors == t.anchors && t1.head == t.head && t1.prediction == t.prediction
    requires t1.nextSeq == t.nextSeq
    ensures SealKeeps(env, log, t, r)
  {
    SamePrivate(env, log, t, t1, r.items);
  }

  ghost predicate InOrderPrefix(t: TripRecord, r: Sealed) {
    exists n :: 0 <= n <= |t.pending| && r.trip.pending == t.pending[n..] && InOrder(r.items, t.pending[..n])
  }

  lemma {:induction false} SealedInOrder(env: Env, t: TripRecord, now: int)
    requires TripOk(t)
    ensures var n, r := SealablePrefix(env, t.pending, t.head), Seal(env, t, now);
            r.trip.pending == t.pending[n..] && InOrder(r.items, t.pending[..n])
  {
    hide Seal, SealFixes, SealArtifacts, Ready, Taken, InOrder, TripOk, ValidBody, Private;
    var t1, ready, n := Taken(env, t), Ready(env, t), SealablePrefix(env, t.pending, t.head);
    var log := Log(t.held, None, t.pending);
    ReadyOk(env, log, t);
    TakenIs(env, t);
    SealCases(env, t, now);
    if ready == [] {
      NothingInOrder(t.pending[..n]);
    } else {
      if t.sealedFixes {
        SealFixesOk(env, log, t1, ready, now);
      } else {
        var t0 := t1.(sealedFixes := true);
        var a := SealArtifacts(env, t0, t.held, now);
        SealArtifactsOk(env, log, t0, t.held, now);
        var f := SealFixes(env, a.trip.(held := []), ready, now);
        SealFixesOk(env, log, a.trip.(held := []), ready, now);
        ChunksOnly(t.tripId, a.items, t0.nextSeq, a.trip.nextSeq);
        ArtifactsFirst(a.items, f.items, ready);
      }
      InOrderWider(Seal(env, t, now).items, ready, t.pending[..n]);
    }
  }

  lemma ChunksOnly(id: TripId, items: seq<Item>, lo: nat, hi: nat)
    requires Consecutive(id, items, lo, hi)
    ensures forall i :: 0 <= i < |items| ==> items[i].body.ChunkBody?
  {
  }

  lemma {:induction false} TakenIs(env: Env, t: TripRecord)
    requires TripOk(t)
    ensures var t1 := Taken(env, t);
            && t1.pending == t.pending[SealablePrefix(env, t.pending, t.head)..] && t1.nextSeq == t.nextSeq
            && t1.anchors == t.anchors && t1.head == t.head && t1.tripId == t.tripId && t1.nextSeq <= MAX_SEQ + 1
  {
  }

  lemma NothingInOrder(fixes: seq<Fix>)
    ensures InOrder([], fixes)
  {
  }

  lemma InOrderWider(items: seq<Item>, some: seq<Fix>, all: seq<Fix>)
    requires InOrder(items, some) && forall f :: f in some ==> f in all
    ensures InOrder(items, all)
  {
  }

  // Sealing, by what it finds.
  lemma {:induction false} SealCases(env: Env, t: TripRecord, now: int)
    ensures Taken(env, t).sealedFixes == t.sealedFixes && Taken(env, t).held == t.held
    ensures Ready(env, t) == [] ==> Seal(env, t, now) == Sealed(Taken(env, t), [])
    ensures Ready(env, t) != [] && t.sealedFixes ==>
              Seal(env, t, now) == SealFixes(env, Taken(env, t), Ready(env, t), now)
    ensures Ready(env, t) != [] && !t.sealedFixes ==>
              var a := SealArtifacts(env, Taken(env, t).(sealedFixes := true), t.held, now);
              var f := SealFixes(env, a.trip.(held := []), Ready(env, t), now);
              Seal(env, t, now) == Sealed(f.trip, a.items + f.items)
  {
    hide Ready, SealArtifacts, SealFixes, SealablePrefix;
  }

  lemma ArtifactsFirst(a: seq<Item>, f: seq<Item>, ready: seq<Fix>)
    requires InOrder(f, ready) && forall i :: 0 <= i < |a| ==> a[i].body.ChunkBody? && a[i].body.fixes == []
    ensures InOrder(a + f, ready)
  {
    forall i, j, k, l | Later(a + f, i, j, k, l) ensures (a + f)[i].body.fixes[k].t < (a + f)[j].body.fixes[l].t {
      assert Later(f, i - |a|, j - |a|, k, l);
    }
  }

  // ------------------------------------------------------- each operation

  lemma StartTripOk(id: TripId, route: Artifact, destination: Option<Place>, at: int)
    ensures var t := StartTrip(id, route, destination, at);
            && TripOk(t) && t.nextSeq == 0 && !t.sealedFixes && t.pending == []
            && t.tripId == id && t.startedAt == t.lastSealAt == at && t.head == None && t.held == [Followed(at, route)]
            && t.prediction == Some(Prediction(at, route.etaS, route.level, route.profile))
            && (forall i :: 0 <= i < |StartOf(route)| ==> StartOf(route)[i] in t.anchors)
            && (forall i :: 0 <= i < |EndOf(route)| ==> EndOf(route)[i] in t.anchors)
            && (destination.Some? ==> Anchor(destination.value, 0.0) in t.anchors)
  {
  }

  // An accepted fix: the record grows its anchors at the first one, seals
  // about every two minutes, and discloses nothing else.
  lemma AddFixOk(env: Env, log: Log, t: TripRecord, fix: Fix, now: int)
    requires TripOk(t) && FixOk(fix) && FollowsHead(env, t.head, fix) && Recorded(log, t) && fix in log.accepted
    ensures SealKeeps(env, log, Headed(env, t, fix), AddFix(env, t, fix, now))
    ensures t.head.None? ==> Disk(fix) in AddFix(env, t, fix, now).trip.anchors
    ensures t.anchors <= AddFix(env, t, fix, now).trip.anchors
    ensures forall x :: x in Headed(env, t, fix).pending ==> x in t.pending || x == fix
    ensures forall x :: x in t.pending ==> x.t < fix.t
  {
    var t1 := Headed(env, t, fix);
    HeadedOk(env, log, t, fix);
    if SealDue(t1) {
      SealOk(env, log, t1, now);
    } else {
      NothingSealed(env, log, t1);
    }
  }

  lemma HeadedOk(env: Env, log: Log, t: TripRecord, fix: Fix)
    requires TripOk(t) && FixOk(fix) && FollowsHead(env, t.head, fix) && Recorded(log, t) && fix in log.accepted
    ensures var t1 := Headed(env, t, fix);
            && TripOk(t1) && Recorded(log, t1) && t.anchors <= t1.anchors && (t.head.None? ==> Disk(fix) in t1.anchors)
            && (forall x :: x in t1.pending ==> x in t.pending || x == fix)
            && (forall x :: x in t.pending ==> x.t < fix.t)
  {
    assert t.head.None? ==> Headed(env, t, fix).anchors[|t.anchors|] == Disk(fix);
  }

  lemma NothingSealed(env: Env, log: Log, t: TripRecord)
    requires TripOk(t)
    ensures SealKeeps(env, log, t, Sealed(t, []))
  {
    assert t.pending[0..] == t.pending && InOrder([], t.pending[..0]);
  }

  lemma RerouteOk(env: Env, log: Log, t: TripRecord, route: Artifact, now: int)
    requires TripOk(t) && Recorded(log, t) && Followed(RerouteAt(t, now), route) in log.followed
    ensures var r := Reroute(env, t, route, now);
            && r.trip.tripId == t.tripId && r.trip.head == t.head && r.trip.pending == t.pending
            && TripOk(r.trip) && r.trip.sealedFixes == t.sealedFixes
            && Consecutive(t.tripId, r.items, t.nextSeq, r.trip.nextSeq)
            && AllPrivate(env, log, r.trip, r.items) && (r.items != [] ==> t.sealedFixes) && Recorded(log, r.trip)
            && t.anchors <= r.trip.anchors
            && (forall i :: 0 <= i < |EndOf(route)| ==> EndOf(route)[i] in r.trip.anchors)
            && (forall i :: 0 <= i < |r.items| ==> r.items[i].body.fixes == [])
            && r.trip.prediction.value.effectiveAt > t.prediction.value.effectiveAt
  {
    hide SealArtifact, Private, FixOk;
    var at := RerouteAt(t, now);
    var t1 := t.(anchors := t.anchors + EndOf(route), prediction := Some(PredictionOf(route, at)));
    if t.sealedFixes {
      SealArtifactOk(env, log, t1, Followed(at, route), now);
      SamePrivate(env, log, Reroute(env, t, route, now).trip, t1, Reroute(env, t, route, now).items);
    }
  }

  // What a record knows of its trip stays true as the trip goes on, ...
  lemma KnowsGrows(log: Log, log': Log, t: TripRecord)
    requires Knows(log, t) && LogGrows(log, log') && LogOk(log')
    ensures Knows(log', t)
  {
    var fa :| fa in log.followed && t.prediction == Some(PredictionOf(fa.artifact, fa.effectiveAt));
    var k :| 0 <= k < |log.followed| && log.followed[k] == fa;
    assert log'.followed[k] == fa;
    forall i | 0 <= i < |log'.followed| && log'.followed[i].effectiveAt <= t.prediction.value.effectiveAt
      ensures i < |log.followed| && log'.followed[i] == log.followed[i] {
      assert i <= k;
    }
  }

  // ... and so does what its requests disclose.
  lemma PrivateGrows(env: Env, log: Log, log': Log, t: TripRecord, b: Body)
    requires Private(env, log, t, b) && LogGrows(log, log')
    ensures Private(env, log', t, b)
  {
    hide Clipped, ArtifactClear, Env.ClearOf;
    if b.ChunkBody? {
      forall i | 0 <= i < |b.artifacts| ensures ArtifactPrivate(env, log', t, b.artifacts[i]) {
        assert ArtifactPrivate(env, log, t, b.artifacts[i]);
        var whole :| ClippedFrom(env, log, t, whole, b.artifacts[i]);
        assert ClippedFrom(env, log', t, whole, b.artifacts[i]);
      }
    }
  }

  // Sealing forgets no private point.
  lemma KnowsLess(log: Log, t: TripRecord, t': TripRecord)
    requires Knows(log, t) && t'.anchors == t.anchors && t'.head == t.head && t'.prediction == t.prediction
    requires Recorded(log, t')
    ensures Knows(log, t')
  {
  }

  lemma StartKnows(id: TripId, route: Artifact, destination: Option<Place>, at: int)
    ensures var log := Log([Followed(at, route)], destination, []);
            var t := StartTrip(id, route, destination, at);
            LogOk(log) && Knows(log, t) && Current(log, t)
  {
    var log, t := Log([Followed(at, route)], destination, []), StartTrip(id, route, destination, at);
    assert log.followed[0] in log.followed;
  }

  function WithFix(log: Log, fix: Fix): Log { log.(accepted := log.accepted + [fix]) }

  // An accepted fix is the trip's last, and its first if there was none.
  lemma HeadedKnows(env: Env, log: Log, t: TripRecord, fix: Fix)
    requires LogOk(log) && Knows(log, t) && Current(log, t) && FollowsHead(env, t.head, fix)
    ensures var log' := WithFix(log, fix);
            && LogOk(log') && LogGrows(log, log') && Current(log', Headed(env, t, fix))
            && Knows(log', Headed(env, t, fix)) && fix in log'.accepted
  {
    var log', t' := WithFix(log, fix), Headed(env, t, fix);
    assert log'.accepted[|log.accepted|] == fix;
    FixedLog(env, log, t, fix);
    KnowsGrows(log, log', t);
    hide Env.ClearOf, LogOk, FollowsHead;
    if t.head.None? {
      assert t'.anchors[|t.anchors|] == Disk(fix);
    }
    assert t.anchors <= t'.anchors;
  }

  lemma FixedLog(env: Env, log: Log, t: TripRecord, fix: Fix)
    requires LogOk(log) && Current(log, t) && FollowsHead(env, t.head, fix)
    ensures LogOk(WithFix(log, fix)) && LogGrows(log, WithFix(log, fix))
  {
  }

  function WithRoute(log: Log, at: int, route: Artifact): Log {
    log.(followed := log.followed + [Followed(at, route)])
  }

  // A route that replaces another takes effect after it, and its end is a
  // private point from then on.
  lemma ReroutedKnows(env: Env, log: Log, t: TripRecord, route: Artifact, now: int)
    requires TripOk(t) && LogOk(log) && Knows(log, t) && Current(log, t)
    ensures var log' := WithRoute(log, RerouteAt(t, now), route);
            && LogOk(log') && LogGrows(log, log') && Current(log', Reroute(env, t, route, now).trip)
            && Knows(log', Reroute(env, t, route, now).trip) && Followed(RerouteAt(t, now), route) in log'.followed
  {
    var at := RerouteAt(t, now);
    var log', t' := WithRoute(log, at, route), Reroute(env, t, route, now).trip;
    RoutedLog(log, t, at, route);
    RerouteAnchors(env, t, route, now);
    hide Reroute, TripOk, Anchored, Dated, LogOk, LogGrows, Current;
    StillRecorded(log, log', t);
    RerouteOk(env, log', t, route, now);
    RoutedKnows(log, t, t', at, route);
  }

  lemma RoutedLog(log: Log, t: TripRecord, at: int, route: Artifact)
    requires LogOk(log) && Current(log, t) && t.prediction.value.effectiveAt < at
    ensures var log' := WithRoute(log, at, route); LogOk(log') && LogGrows(log, log')
    ensures Followed(at, route) in WithRoute(log, at, route).followed
  {
    assert WithRoute(log, at, route).followed[|log.followed|] == Followed(at, route);
  }

  lemma StillRecorded(log: Log, log': Log, t: TripRecord)
    requires Recorded(log, t) && LogGrows(log, log')
    ensures Recorded(log', t)
  {
  }

  lemma RoutedKnows(log: Log, t: TripRecord, t': TripRecord, at: int, route: Artifact)
    requires LogOk(log) && Anchored(log, t) && Dated(log, t) && Current(log, t)
    requires t'.anchors == t.anchors + EndOf(route) && t'.head == t.head
    requires t'.prediction == Some(PredictionOf(route, at))
    ensures var log' := WithRoute(log, at, route);
            Anchored(log', t') && Dated(log', t') && Current(log', t')
  {
    var log' := WithRoute(log, at, route);
    assert log'.followed[|log.followed|] == Followed(at, route);
    forall i | 0 <= i < |log'.followed| ensures Among(EndOf(log'.followed[i].artifact), t'.anchors) {
      if i < |log.followed| {
        assert log.followed[i].effectiveAt <= t.prediction.value.effectiveAt;
      }
    }
  }

  lemma RerouteAnchors(env: Env, t: TripRecord, route: Artifact, now: int)
    ensures var t' := Reroute(env, t, route, now).trip;
            && t'.anchors == t.anchors + EndOf(route) && t'.head == t.head
            && t'.prediction == Some(PredictionOf(route, RerouteAt(t, now)))
  {
    hide Clipped;
  }

  // The trip's end never precedes its prediction.
  lemma EndIsValid(t: TripRecord, arrived: bool, at: int)
    ensures ValidBody(End(t.tripId), EndBody(EndTime(t, at), arrived, t.prediction))
    ensures t.head.Some? ==> t.head.value.t <= EndTime(t, at)
  {
  }

  // ------------------------------------------------------------ exactly what

  // A reroute takes effect when it is made, or just after the route before it;
  // a trip ends when it is ended, or else with its last fix or its last route.
  lemma TimesExactly(t: TripRecord, at: int)
    requires t.prediction.Some?
    ensures var r := RerouteAt(t, at);
            r >= at && r > t.prediction.value.effectiveAt && (r == at || r == t.prediction.value.effectiveAt + 1)
    ensures var e := EndTime(t, at);
            && e >= at && e >= t.prediction.value.effectiveAt && (t.head.Some? ==> e >= t.head.value.t)
            && (e == at || e == t.prediction.value.effectiveAt || e == 0 || t.head == Some(t.head.value.(t := e)))
  {
  }

  // A body is sealed unless the seqs have run out or it is too large, under the
  // next seq and dated now.
  lemma SealsUnless(env: Env, t: TripRecord, body: Body, now: int)
    ensures var r := SealChunk(env, t, body, now);
            && (t.nextSeq <= 99999 && env.size(body) <= 1048576 ==>
                  r.items == [Item(Chunk(t.tripId, t.nextSeq), body, now)] && r.trip == t.(nextSeq := t.nextSeq + 1))
            && (t.nextSeq > 99999 || env.size(body) > 1048576 ==> r == Sealed(t, []))
  {
  }

  function FixesOf(items: seq<Item>): seq<Fix> {
    if items == [] then []
    else
      var b := items[|items| - 1].body;
      FixesOf(items[..|items| - 1]) + if b.ChunkBody? then b.fixes else []
  }

  lemma {:induction false} FixesOfConcat(a: seq<Item>, b: seq<Item>)
    ensures FixesOf(a + b) == FixesOf(a) + FixesOf(b)
  {
    if b == [] {
      assert a + b == a && FixesOf(a) + [] == FixesOf(a);
    } else {
      var n := |b| - 1;
      FixesOfConcat(a, b[..n]);
      assert (a + b)[..|a + b| - 1] == a + b[..n];
    }
  }

  lemma OneChunk(item: Item)
    requires item.body.ChunkBody?
    ensures FixesOf([item]) == item.body.fixes
  {
    assert FixesOf([]) == [];
    assert [item][..0] == [];
  }

  // No part of the fixes is too large for one request.
  ghost predicate AllFit(env: Env, fixes: seq<Fix>) {
    forall x, y :: 0 <= x <= y <= |fixes| && y - x <= 600 ==> env.size(ChunkBody(fixes[x..y], [])) <= 1048576
  }

  lemma FitsOn(env: Env, fixes: seq<Fix>, n: nat)
    requires AllFit(env, fixes) && n <= |fixes|
    ensures AllFit(env, fixes[n..]) && (n <= 600 ==> env.size(ChunkBody(fixes[..n], [])) <= 1048576)
  {
    forall x, y | 0 <= x <= y <= |fixes[n..]| && y - x <= 600
      ensures env.size(ChunkBody(fixes[n..][x..y], [])) <= 1048576 {
      assert fixes[n..][x..y] == fixes[n + x..n + y];
    }
    assert fixes[..n] == fixes[0..n];
  }

  // As long as there are seqs left and requests are not too large, what is
  // sealed is everything that was ready, in as few chunks as there can be.
  lemma {:induction false} SealsAll(env: Env, t: TripRecord, ready: seq<Fix>, now: int)
    requires t.nextSeq + (|ready| + 599) / 600 <= 100000 && AllFit(env, ready)
    ensures var r := SealFixes(env, t, ready, now);
            FixesOf(r.items) == ready && |r.items| == (|ready| + 599) / 600
    decreases |ready|
  {
    if ready != [] {
      var n := if |ready| < 600 then |ready| else 600;
      FitsOn(env, ready, n);
      var first := SealChunk(env, t, ChunkBody(ready[..n], []), now);
      SealsUnless(env, t, ChunkBody(ready[..n], []), now);
      SealsAll(env, first.trip, ready[n..], now);
      OneChunk(first.items[0]);
      FixesOfConcat(first.items, SealFixes(env, first.trip, ready[n..], now).items);
      assert ready[..n] + ready[n..] == ready;
    }
  }

  function ArtifactsOf(items: seq<Item>): seq<Followed> {
    if items == [] then []
    else
      var b := items[|items| - 1].body;
      ArtifactsOf(items[..|items| - 1]) + if b.ChunkBody? then b.artifacts else []
  }

  lemma {:induction false} ArtifactsOfConcat(a: seq<Item>, b: seq<Item>)
    ensures ArtifactsOf(a + b) == ArtifactsOf(a) + ArtifactsOf(b)
  {
    if b == [] {
      assert a + b == a && ArtifactsOf(a) + [] == ArtifactsOf(a);
    } else {
      var n := |b| - 1;
      ArtifactsOfConcat(a, b[..n]);
      assert (a + b)[..|a + b| - 1] == a + b[..n];
    }
  }

  // The routes of which something can be shown, each clipped.
  ghost function Shown(env: Env, held: seq<Followed>, anchors: seq<Anchor>): seq<Followed> {
    if held == [] then []
    else
      var n := |held| - 1;
      var clipped := Clipped(env, held[n].artifact, anchors);
      Shown(env, held[..n], anchors) + if clipped.Some? then [Followed(held[n].effectiveAt, clipped.value)] else []
  }

  ghost predicate RoutesFit(env: Env, held: seq<Followed>, anchors: seq<Anchor>) {
    forall k :: 0 <= k < |held| ==> RouteFits(env, held[k], anchors)
  }

  ghost predicate RouteFits(env: Env, fa: Followed, anchors: seq<Anchor>) {
    var clipped := Clipped(env, fa.artifact, anchors);
    clipped.Some? ==> env.size(ChunkBody([], [Followed(fa.effectiveAt, clipped.value)])) <= 1048576
  }

  lemma {:induction false} SealsRoute(env: Env, t: TripRecord, fa: Followed, now: int)
    requires t.nextSeq <= 99999 && RouteFits(env, fa, t.anchors)
    ensures var r := SealArtifact(env, t, fa, now);
            && r.trip.anchors == t.anchors && r.trip.nextSeq == t.nextSeq + |r.items| <= t.nextSeq + 1
            && ArtifactsOf(r.items) == Shown(env, [fa], t.anchors) && FixesOf(r.items) == []
  {
    hide Clipped;
    var r := SealArtifact(env, t, fa, now);
    assert [fa][..0] == [] && Shown(env, [], t.anchors) == [];
    assert r.items != [] ==> r.items[..0] == [] && ArtifactsOf([]) == [] && FixesOf([]) == [];
  }

  lemma {:induction false} SealsAllRoutes(env: Env, t: TripRecord, held: seq<Followed>, now: int)
    requires t.nextSeq + |held| <= 100000 && RoutesFit(env, held, t.anchors)
    ensures var r := SealArtifacts(env, t, held, now);
            && r.trip.anchors == t.anchors && r.trip.nextSeq <= t.nextSeq + |held|
            && ArtifactsOf(r.items) == Shown(env, held, t.anchors) && FixesOf(r.items) == []
  {
    hide SealArtifact, Clipped, RouteFits;
    if held == [] {
      assert ArtifactsOf([]) == [] && FixesOf([]) == [];
    } else {
      var n := |held| - 1;
      SealsAllRoutes(env, t, held[..n], now);
      var before := SealArtifacts(env, t, held[..n], now);
      SealsRoute(env, before.trip, held[n], now);
      var last := SealArtifact(env, before.trip, held[n], now);
      ArtifactsOfConcat(before.items, last.items);
      FixesOfConcat(before.items, last.items);
      ShownLast(env, held, t.anchors);
    }
  }

  lemma {:induction false} ShownLast(env: Env, held: seq<Followed>, anchors: seq<Anchor>)
    requires held != []
    ensures var n := |held| - 1; Shown(env, held, anchors) == Shown(env, held[..n], anchors) + Shown(env, [held[n]], anchors)
  {
    hide Clipped;
    assert [held[|held| - 1]][..0] == [] && Shown(env, [], anchors) == [];
  }

  lemma {:induction false} FixesOnly(env: Env, t: TripRecord, ready: seq<Fix>, now: int)
    ensures ArtifactsOf(SealFixes(env, t, ready, now).items) == []
    decreases |ready|
  {
    if ready == [] {
      assert ArtifactsOf([]) == [];
    } else {
      var n := if |ready| < MAX_FIXES_PER_CHUNK then |ready| else MAX_FIXES_PER_CHUNK;
      var first := SealChunk(env, t, ChunkBody(ready[..n], []), now);
      FixesOnly(env, first.trip, ready[n..], now);
      ArtifactsOfConcat(first.items, SealFixes(env, first.trip, ready[n..], now).items);
      assert first.items != [] ==> first.items[..0] == [] && ArtifactsOf([]) == [];
    }
  }

  // With room for it all, one sealing discloses every fix that was ready; and,
  // the first time there are any, whatever can be shown of each route held
  // back until then.
  lemma {:induction false} SealsEverything(env: Env, t: TripRecord, now: int)
    requires t.nextSeq + |t.held| + (|Ready(env, t)| + 599) / 600 <= 100000
    requires AllFit(env, Ready(env, t)) && RoutesFit(env, t.held, t.anchors)
    ensures var r := Seal(env, t, now);
            && FixesOf(r.items) == Ready(env, t)
            && ArtifactsOf(r.items) == (if Ready(env, t) != [] && !t.sealedFixes then Shown(env, t.held, t.anchors) else [])
            && (Ready(env, t) != [] && !t.sealedFixes ==> r.trip.sealedFixes && r.trip.held == [])
            && (Ready(env, t) == [] ==> r.trip.sealedFixes == t.sealedFixes && r.trip.held == t.held)
  {
    hide Ready, SealFixes, SealArtifacts, Shown, AllFit, RoutesFit, Taken, Seal;
    var t1, ready := Taken(env, t), Ready(env, t);
    SealCases(env, t, now);
    TakenKeeps(env, t);
    if ready == [] {
      assert FixesOf([]) == [] && ArtifactsOf([]) == [];
    } else if t.sealedFixes {
      SealsAll(env, t1, ready, now);
      FixesOnly(env, t1, ready, now);
    } else {
      var t0 := t1.(sealedFixes := true);
      SealsAllRoutes(env, t0, t.held, now);
      var a := SealArtifacts(env, t0, t.held, now);
      ArtifactsStay(env, t0, t.held, now);
      SealsAll(env, a.trip.(held := []), ready, now);
      FixesOnly(env, a.trip.(held := []), ready, now);
      FixesLeave(env, a.trip.(held := []), ready, now);
      var f := SealFixes(env, a.trip.(held := []), ready, now);
      FixesOfConcat(a.items, f.items);
      ArtifactsOfConcat(a.items, f.items);
    }
  }

  lemma TakenKeeps(env: Env, t: TripRecord)
    ensures Taken(env, t).nextSeq == t.nextSeq && Taken(env, t).anchors == t.anchors
  {
  }

  lemma {:induction false} ArtifactsStay(env: Env, t: TripRecord, held: seq<Followed>, now: int)
    ensures SealArtifacts(env, t, held, now).trip.sealedFixes == t.sealedFixes
  {
    hide Clipped;
    if held != [] { ArtifactsStay(env, t, held[..|held| - 1], now); }
  }

  lemma {:induction false} FixesLeave(env: Env, t: TripRecord, ready: seq<Fix>, now: int)
    ensures var r := SealFixes(env, t, ready, now).trip; r.sealedFixes == t.sealedFixes && r.held == t.held
    decreases |ready|
  {
    if ready != [] {
      var n := if |ready| < MAX_FIXES_PER_CHUNK then |ready| else MAX_FIXES_PER_CHUNK;
      FixesLeave(env, SealChunk(env, t, ChunkBody(ready[..n], []), now).trip, ready[n..], now);
    }
  }

  // Sealable are, in order, the fixes clear of every anchor that come before
  // any fix less than 300 m away from the head.
  lemma {:induction false} ClearFixesFrom(env: Env, fixes: seq<Fix>, anchors: seq<Anchor>) returns (from: seq<nat>)
    ensures var r := ClearFixes(env, fixes, anchors);
            && |from| == |r| && (forall k, l :: 0 <= k < l < |from| ==> from[k] < from[l])
            && (forall k :: 0 <= k < |r| ==> from[k] < |fixes| && r[k] == fixes[from[k]])
            && forall k: nat :: k in from <==> k < |fixes| && env.ClearOf(Disk(fixes[k]), anchors)
  {
    hide Env.ClearOf, ClearFixes;
    from := [];
    ClearFixesStep(env, fixes, anchors);
    if fixes != [] {
      var n := |fixes| - 1;
      from := ClearFixesFrom(env, fixes[..n], anchors);
      assert forall k :: 0 <= k < |from| ==> from[k] in from;
      if env.ClearOf(Disk(fixes[n]), anchors) { from := from + [n]; }
    }
  }

  lemma {:induction false} ClearFixesStep(env: Env, fixes: seq<Fix>, anchors: seq<Anchor>)
    ensures fixes == [] ==> ClearFixes(env, fixes, anchors) == []
    ensures fixes != [] ==>
              var n := |fixes| - 1;
              ClearFixes(env, fixes, anchors)
              == ClearFixes(env, fixes[..n], anchors) + if env.ClearOf(Disk(fixes[n]), anchors) then [fixes[n]] else []
  {
    hide Env.ClearOf;
  }

  // The disks of two fixes are 300 m apart.
  ghost predicate FarApart(env: Env, a: Fix, b: Fix) { env.dist(a.at, b.at) - a.accuracy - b.accuracy >= 300.0 }

  ghost predicate FarFromAll(env: Env, f: Fix, anchors: seq<Anchor>) {
    forall i :: 0 <= i < |anchors| ==> env.dist(f.at, anchors[i].at) - f.accuracy - anchors[i].accuracy >= 300.0
  }

  lemma ReadyExactly(env: Env, t: TripRecord) returns (from: seq<nat>)
    ensures var r := Ready(env, t);
            && |from| == |r| && (forall k, l :: 0 <= k < l < |from| ==> from[k] < from[l])
            && (forall k :: 0 <= k < |r| ==> from[k] < |t.pending| && r[k] == t.pending[from[k]])
            && forall k: nat :: k in from <==>
                 && k < |t.pending| && t.head.Some? && FarFromAll(env, t.pending[k], t.anchors)
                 && forall l :: 0 <= l <= k ==> FarApart(env, t.pending[l], t.head.value)
  {
    hide Env.ClearOf, FarApart, FarFromAll, SealablePrefix, ClearFixes;
    var n := SealablePrefix(env, t.pending, t.head);
    PrefixFits(env, t);
    from := ClearFixesFrom(env, t.pending[..n], t.anchors);
    forall k: nat | k < |t.pending|
      ensures k < n <==> t.head.Some? && forall l :: 0 <= l <= k ==> FarApart(env, t.pending[l], t.head.value)
      ensures env.ClearOf(Disk(t.pending[k]), t.anchors) <==> FarFromAll(env, t.pending[k], t.anchors) {
      PrefixExactly(env, t, k);
      ClearIsFar(env, t.pending[k], t.anchors);
    }
  }

  lemma {:induction false} PrefixFits(env: Env, t: TripRecord)
    ensures SealablePrefix(env, t.pending, t.head) <= |t.pending|
  {
  }

  lemma {:induction false} PrefixExactly(env: Env, t: TripRecord, k: nat)
    requires k < |t.pending|
    ensures k < SealablePrefix(env, t.pending, t.head)
            <==> t.head.Some? && forall l :: 0 <= l <= k ==> FarApart(env, t.pending[l], t.head.value)
  {
    var n := SealablePrefix(env, t.pending, t.head);
    if t.head.Some? && n < |t.pending| { assert !FarApart(env, t.pending[n], t.head.value); }
  }

  lemma ClearIsFar(env: Env, f: Fix, anchors: seq<Anchor>)
    ensures env.ClearOf(Disk(f), anchors) <==> FarFromAll(env, f, anchors)
  {
  }

  // A fix is only kept until two minutes have passed since the last sealing;
  // then whatever is sealable is taken.
  lemma SealsInTime(env: Env, t: TripRecord, fix: Fix, now: int)
    ensures var r, t1 := AddFix(env, t, fix, now), Headed(env, t, fix);
            && t1.head == Some(fix)
            && t1.anchors == (if t.head.None? then t.anchors + [Anchor(fix.at, fix.accuracy)] else t.anchors)
            && t1.pending == (if FarFromAll(env, fix, t1.anchors) then t.pending + [fix] else t.pending)
            && (fix.t - t.lastSealAt < 120000 ==> r == Sealed(t1, []))
            && (fix.t - t.lastSealAt >= 120000 ==> r == Seal(env, t1, now) && r.trip.lastSealAt == fix.t)
  {
    var t1 := Headed(env, t, fix);
    assert t.anchors + [] == t.anchors && t.pending + [] == t.pending;
    ClearIsFar(env, fix, t1.anchors);
    hide FarFromAll, Env.ClearOf, Seal;
    if SealDue(t1) { SealDates(env, t1, now); }
  }

  lemma SealDates(env: Env, t: TripRecord, now: int)
    requires t.head.Some?
    ensures Seal(env, t, now).trip.lastSealAt == t.head.value.t
  {
    var t1, ready := Taken(env, t), Ready(env, t);
    hide Taken, Ready, SealFixes, SealArtifacts;
    assert t1.lastSealAt == t.head.value.t by { TakenDates(env, t); }
    SealCases(env, t, now);
    FixesDate(env, t1, ready, now);
    var a := SealArtifacts(env, t1.(sealedFixes := true), t.held, now);
    ArtifactsDate(env, t1.(sealedFixes := true), t.held, now);
    FixesDate(env, a.trip.(held := []), ready, now);
  }

  lemma TakenDates(env: Env, t: TripRecord)
    requires t.head.Some?
    ensures Taken(env, t).lastSealAt == t.head.value.t
  {
  }

  lemma {:induction false} FixesDate(env: Env, t: TripRecord, ready: seq<Fix>, now: int)
    ensures SealFixes(env, t, ready, now).trip.lastSealAt == t.lastSealAt
    decreases |ready|
  {
    if ready != [] {
      var n := if |ready| < MAX_FIXES_PER_CHUNK then |ready| else MAX_FIXES_PER_CHUNK;
      FixesDate(env, SealChunk(env, t, ChunkBody(ready[..n], []), now).trip, ready[n..], now);
    }
  }

  lemma {:induction false} ArtifactsDate(env: Env, t: TripRecord, held: seq<Followed>, now: int)
    ensures SealArtifacts(env, t, held, now).trip.lastSealAt == t.lastSealAt
  {
    hide Clipped;
    if held != [] { ArtifactsDate(env, t, held[..|held| - 1], now); }
  }
}
