// The trip-trace records (web/lib/types.ts, web/lib/traceStorage.ts) and the
// on-device privacy rules every upload obeys (web/lib/tracePrivacy.ts).
module TraceTypes {
  import opened Topology

  datatype Place = Place(lat: real, lon: real)

  // A place to keep clear of, and how far off the measurement may be; a place
  // on a route is exact.
  datatype Anchor = Anchor(at: Place, accuracy: real)

  datatype Fix = Fix(t: int, at: Place, speed: Option<real>, accuracy: real, heading: Option<real>)

  datatype Maneuver = Maneuver(at: Place, offset: real)

  // A route alternative; `rest` stands for what is not a place.
  datatype Artifact = Artifact(coords: seq<Place>, segments: seq<seq<Place>>, maneuvers: seq<Maneuver>,
                               unsafePoints: seq<Place>, distance: real, etaS: real, level: string,
                               profile: Option<string>, rest: string)

  datatype Followed = Followed(effectiveAt: int, artifact: Artifact)

  datatype Prediction = Prediction(effectiveAt: int, etaS: real, level: string, profile: Option<string>)

  type TripId = nat

  datatype TripRecord = TripRecord(tripId: TripId, startedAt: int, anchors: seq<Anchor>, head: Option<Fix>,
                                   pending: seq<Fix>, lastSealAt: int, nextSeq: nat, sealedFixes: bool,
                                   held: seq<Followed>, prediction: Option<Prediction>)

  datatype Key = Chunk(trip: TripId, seqNo: nat) | End(trip: TripId)

  datatype Body = ChunkBody(fixes: seq<Fix>, artifacts: seq<Followed>)
                | EndBody(endedAt: int, arrived: bool, prediction: Option<Prediction>)

  datatype Item = Item(key: Key, body: Body, createdAt: int)

  const TRIM_M := 300.0
  const MAX_ACCURACY_M := 100.0
  const MIN_FIX_INTERVAL_MS := 900
  const MAX_SPEED_MPS := 70.0
  const SEAL_INTERVAL_MS := 120000
  const MAX_FIXES_PER_CHUNK := 600
  const MAX_SEQ := 99999
  const MAX_BODY_BYTES := 1048576

  // What the recorder cannot compute here: great-circle distance, and the
  // length in bytes of a serialized body.
  datatype Env = Env(dist: (Place, Place) -> real, size: Body -> nat) {
    // Distance between two uncertainty disks.
    function Separation(a: Anchor, b: Anchor): real {
      dist(a.at, b.at) - a.accuracy - b.accuracy
    }

    predicate ClearOf(p: Anchor, anchors: seq<Anchor>) {
      forall i :: 0 <= i < |anchors| ==> Separation(p, anchors[i]) >= TRIM_M
    }

    predicate PlaceClear(p: Place, anchors: seq<Anchor>) {
      ClearOf(Anchor(p, 0.0), anchors)
    }
  }

  function Disk(f: Fix): Anchor { Anchor(f.at, f.accuracy) }

  // ------------------------------------------------------------- readings

  // A number from the positioning sensor.
  datatype Reading = Num(v: real) | NotFinite

  datatype RawFix = RawFix(t: Reading, lat: Reading, lon: Reading, speed: Option<Reading>,
                           accuracy: Reading, heading: Option<Reading>)

  function Abs(x: real): real { if x < 0.0 then -x else x }

  function Round(x: real): int { (x + 0.5).Floor }

  // What is uploaded of a reading, or None when it cannot be used.
  function ToTraceFix(raw: RawFix): Option<Fix> {
    if raw.t.NotFinite? || raw.lat.NotFinite? || raw.lon.NotFinite? then None
    else if Abs(raw.lat.v) > 90.0 || Abs(raw.lon.v) > 180.0 then None
    else if raw.accuracy.NotFinite? || raw.accuracy.v < 0.0 then None
    else if raw.accuracy.v > MAX_ACCURACY_M then None
    else
      var speed := if raw.speed.Some? && raw.speed.value.Num? && raw.speed.value.v >= 0.0
                   then Some(raw.speed.value.v) else None;
      var heading := if raw.heading.Some? && raw.heading.value.Num? && 0.0 <= raw.heading.value.v <= 360.0
                     then Some(raw.heading.value.v) else None;
      Some(Fix(Round(raw.t.v), Place(raw.lat.v, raw.lon.v), speed, raw.accuracy.v, heading))
  }

  // Strictly later than the head, about 1 Hz, and no jump no car could make.
  predicate FollowsHead(env: Env, head: Option<Fix>, fix: Fix) {
    head.Some? ==>
      var dt := fix.t - head.value.t;
      dt >= MIN_FIX_INTERVAL_MS && env.dist(head.value.at, fix.at) <= MAX_SPEED_MPS * (dt as real / 1000.0)
  }

  // The length of the longest prefix of `pending` away from the head.
  function SealablePrefix(env: Env, pending: seq<Fix>, head: Option<Fix>): (n: nat)
    ensures n <= |pending|
    ensures head.Some? ==> forall i :: 0 <= i < n ==> env.Separation(Disk(pending[i]), Disk(head.value)) >= TRIM_M
    ensures head.Some? && n < |pending| ==> env.Separation(Disk(pending[n]), Disk(head.value)) < TRIM_M
    ensures head.None? ==> n == 0
  {
    if head.None? || pending == [] then 0
    else
      var n := SealablePrefix(env, pending[..|pending| - 1], head);
      if n == |pending| - 1 && env.Separation(Disk(pending[n]), Disk(head.value)) >= TRIM_M then n + 1 else n
  }

  // ------------------------------------------------- the server's validators

  ghost predicate FixOk(f: Fix) {
    && -90.0 <= f.at.lat <= 90.0 && -180.0 <= f.at.lon <= 180.0 && 0.0 <= f.accuracy
    && (f.speed.Some? ==> 0.0 <= f.speed.value)
    && (f.heading.Some? ==> 0.0 <= f.heading.value <= 360.0)
  }

  ghost predicate Increasing(fixes: seq<Fix>) {
    forall i, j :: 0 <= i < j < |fixes| ==> fixes[i].t < fixes[j].t
  }

  // commute/schemas.py for a request body under a key, times and the carried
  // ETA in range.
  ghost predicate ValidBody(k: Key, b: Body) {
    match k
    case Chunk(_, s) =>
      && b.ChunkBody? && s <= MAX_SEQ
      && |b.fixes| <= MAX_FIXES_PER_CHUNK && |b.artifacts| <= 16
      && (b.fixes != [] || b.artifacts != [])
      && Increasing(b.fixes) && (forall i :: 0 <= i < |b.fixes| ==> FixOk(b.fixes[i]))
      && (forall i, j :: 0 <= i < j < |b.artifacts| ==> b.artifacts[i].effectiveAt < b.artifacts[j].effectiveAt)
    case End(_) =>
      b.EndBody? && (b.prediction.Some? ==> b.prediction.value.effectiveAt <= b.endedAt)
  }

  lemma TraceFixIsValid(raw: RawFix)
    ensures ToTraceFix(raw).Some? ==>
              FixOk(ToTraceFix(raw).value) && ToTraceFix(raw).value.accuracy <= MAX_ACCURACY_M
  {
  }

  // A number within bounds.
  predicate Within(r: Reading, lo: real, hi: real) { r.Num? && lo <= r.v <= hi }

  // Exactly the readings with a place and an accuracy within 100 m are fixes;
  // a speed or a heading that cannot be right is left out, and nothing else is
  // changed but for rounding the time to the nearest millisecond.
  lemma TraceFixExactly(raw: RawFix)
    ensures ToTraceFix(raw).Some? <==>
              && raw.t.Num? && Within(raw.lat, -90.0, 90.0) && Within(raw.lon, -180.0, 180.0)
              && Within(raw.accuracy, 0.0, 100.0)
    ensures ToTraceFix(raw).Some? ==>
              var f := ToTraceFix(raw).value;
              && raw.t.v - 0.5 < f.t as real <= raw.t.v + 0.5
              && f.at.lat == raw.lat.v && f.at.lon == raw.lon.v && f.accuracy == raw.accuracy.v
              && (f.speed.Some? <==> raw.speed.Some? && raw.speed.value.Num? && 0.0 <= raw.speed.value.v)
              && (f.speed.Some? ==> f.speed.value == raw.speed.value.v)
              && (f.heading.Some? <==> raw.heading.Some? && Within(raw.heading.value, 0.0, 360.0))
              && (f.heading.Some? ==> f.heading.value == raw.heading.value.v)
  {
  }

  // After a head, a fix counts when it is 900 ms later or more and no more than
  // 70 m away for every second that passed.
  lemma FollowsExactly(env: Env, head: Fix, fix: Fix)
    ensures FollowsHead(env, None, fix)
    ensures FollowsHead(env, Some(head), fix)
            <==> fix.t >= head.t + 900 && 1000.0 * env.dist(head.at, fix.at) <= 70.0 * (fix.t - head.t) as real
  {
  }
}
