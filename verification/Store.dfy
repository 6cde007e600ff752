// The ingest service's datastore (commute/store.py) and its retention purge
// (commute/retention.py).
module Store {
  import opened Topology
  import opened TraceTypes

  type TokenId = int

  // The hash of a body, as a function that never collides.
  datatype Digest = Digest(content: Body)

  datatype Row = Row(receivedAt: int, digest: Digest, fixCount: nat, firstT: Option<int>, lastT: Option<int>,
                     body: Option<Body>, purgedAt: Option<int>)

  datatype EndRow = EndRow(receivedAt: int, digest: Digest, endedAt: int, arrived: bool, prediction: Option<Prediction>)

  datatype Db = Db(trips: map<TripId, TokenId>, chunks: map<(TripId, nat), Row>, ends: map<TripId, EndRow>)

  datatype Outcome = Created | Replayed | Conflict | NotYours

  const DAY_MS := 86400000

  // The first write to a trip makes it its writer's.
  function ClaimTrip(db: Db, id: TripId, token: TokenId): (r: (Db, bool)) {
    if id in db.trips then (db, db.trips[id] == token)
    else (db.(trips := db.trips[id := token]), true)
  }

  function NewRow(body: Body, now: int): Row
    requires body.ChunkBody?
  {
    var n := |body.fixes|;
    Row(now, Digest(body), n, if n > 0 then Some(body.fixes[0].t) else None,
        if n > 0 then Some(body.fixes[n - 1].t) else None, Some(body), None)
  }

  function PutChunk(db: Db, token: TokenId, id: TripId, seqNo: nat, body: Body, now: int): (r: (Db, Outcome))
    requires body.ChunkBody?
  {
    var (claimed, ours) := ClaimTrip(db, id, token);
    if !ours then (db, NotYours)
    else if (id, seqNo) in claimed.chunks then
      (claimed, if claimed.chunks[(id, seqNo)].digest == Digest(body) then Replayed else Conflict)
    else (claimed.(chunks := claimed.chunks[(id, seqNo) := NewRow(body, now)]), Created)
  }

  function EndTrip(db: Db, token: TokenId, id: TripId, body: Body, now: int): (r: (Db, Outcome))
    requires body.EndBody?
  {
    var (claimed, ours) := ClaimTrip(db, id, token);
    if !ours then (db, NotYours)
    else if id in claimed.ends then
      (claimed, if claimed.ends[id].digest == Digest(body) then Replayed else Conflict)
    else
      (claimed.(ends := claimed.ends[id := EndRow(now, Digest(body), body.endedAt, body.arrived, body.prediction)]), Created)
  }

  predicate Expired(row: Row, cutoff: int) { row.body.Some? && row.receivedAt < cutoff }

  function Purge(db: Db, now: int, maxAgeDays: nat): Db {
    var cutoff := now - maxAgeDays * DAY_MS;
    db.(chunks := map k | k in db.chunks ::
          if Expired(db.chunks[k], cutoff) then db.chunks[k].(body := None, purgedAt := Some(now)) else db.chunks[k])
  }

  // ------------------------------------------------------- append-only

  // The update trigger on trace_chunks lets exactly these through.
  predicate MayUpdate(before: Row, after: Row) {
    after.body.None? && after == before.(body := None, purgedAt := after.purgedAt)
  }

  // What history does to a database: rows are added, and a stored row changes
  // only by losing its body for good.
  ghost predicate Grows(db: Db, db': Db) {
    && (forall id :: id in db.trips ==> id in db'.trips && db'.trips[id] == db.trips[id])
    && (forall k :: k in db.chunks ==>
          k in db'.chunks && (db'.chunks[k] == db.chunks[k] || MayUpdate(db.chunks[k], db'.chunks[k])))
    && (forall id :: id in db.ends ==> id in db'.ends && db'.ends[id] == db.ends[id])
  }

  lemma GrowsTrans(a: Db, b: Db, c: Db)
    requires Grows(a, b) && Grows(b, c)
    ensures Grows(a, c)
  {
    forall k | k in a.chunks
      ensures k in c.chunks && (c.chunks[k] == a.chunks[k] || MayUpdate(a.chunks[k], c.chunks[k])) {
      assert k in b.chunks;
    }
  }

  lemma WritesGrow(db: Db, token: TokenId, id: TripId, seqNo: nat, body: Body, now: int)
    ensures body.ChunkBody? ==> Grows(db, PutChunk(db, token, id, seqNo, body, now).0)
    ensures body.EndBody? ==> Grows(db, EndTrip(db, token, id, body, now).0)
  {
  }

  lemma PurgeGrows(db: Db, now: int, maxAgeDays: nat)
    ensures Grows(db, Purge(db, now, maxAgeDays))
  {
  }

  // A cleared body never comes back, whatever is written afterwards.
  lemma PurgedForGood(db: Db, db': Db, k: (TripId, nat))
    requires Grows(db, db') && k in db.chunks && db.chunks[k].body.None?
    ensures k in db'.chunks && db'.chunks[k].body.None?
  {
  }

  // The purge clears exactly the expired bodies, keeps what carries no
  // location, and has nothing left to do afterwards.
  lemma PurgeExact(db: Db, now: int, maxAgeDays: nat, k: (TripId, nat))
    requires k in db.chunks
    ensures var p, cutoff := Purge(db, now, maxAgeDays), now - maxAgeDays * DAY_MS;
            && k in p.chunks && p.trips == db.trips && p.ends == db.ends
            && (p.chunks[k].body == None <==> db.chunks[k].body == None || db.chunks[k].receivedAt < cutoff)
            && p.chunks[k].digest == db.chunks[k].digest && p.chunks[k].receivedAt == db.chunks[k].receivedAt
            && Purge(p, now, maxAgeDays) == p
  {
    var p := Purge(db, now, maxAgeDays);
    assert Purge(p, now, maxAgeDays).chunks == p.chunks;
  }

  // What a row says of the chunk it stores, for good: how many fixes it has,
  // and when the first and the last were taken.
  ghost predicate Tells(row: Row, body: Body, receivedAt: int) {
    && row.receivedAt == receivedAt && row.digest == Digest(body) && body.ChunkBody? && row.fixCount == |body.fixes|
    && (row.firstT.None? <==> body.fixes == []) && (row.lastT.None? <==> body.fixes == [])
    && (body.fixes != [] ==> row.firstT.value == body.fixes[0].t && row.lastT.value == body.fixes[|body.fixes| - 1].t)
  }

  // From the day it is received a chunk is kept whole for `days` days; the
  // first purge after that clears its body and nothing else.
  lemma StoredForDays(db: Db, token: TokenId, id: TripId, seqNo: nat, body: Body, now: int, t: int, days: nat)
    requires body.ChunkBody? && PutChunk(db, token, id, seqNo, body, now).1 == Created
    ensures var stored := PutChunk(db, token, id, seqNo, body, now).0;
            var k, purged := (id, seqNo), Purge(stored, t, days);
            && k in stored.chunks && stored.chunks[k].body == Some(body) && stored.chunks[k].purgedAt == None
            && Tells(stored.chunks[k], body, now) && k in purged.chunks && Tells(purged.chunks[k], body, now)
            && (now + days * 86400000 < t ==> purged.chunks[k].body == None && purged.chunks[k].purgedAt == Some(t))
            && (t <= now + days * 86400000 ==> purged.chunks[k] == stored.chunks[k])
  {
  }

  // ------------------------------------------------------- requests

  // One request of the recorder, and the trip it is about.
  function TripOf(k: Key): TripId { if k.Chunk? then k.trip else k.trip }

  predicate Fits(k: Key, body: Body) { if k.Chunk? then body.ChunkBody? else body.EndBody? }

  function Handle(db: Db, token: TokenId, k: Key, body: Body, now: int): (r: (Db, Outcome))
    requires Fits(k, body)
  {
    match k
    case Chunk(id, s) => PutChunk(db, token, id, s, body, now)
    case End(id) => EndTrip(db, token, id, body, now)
  }

  // The service answers k with a row, and the row's digest.
  predicate Stored(db: Db, k: Key) {
    match k
    case Chunk(id, s) => (id, s) in db.chunks
    case End(id) => id in db.ends
  }

  function StoredDigest(db: Db, k: Key): Digest
    requires Stored(db, k)
  {
    match k
    case Chunk(id, s) => db.chunks[(id, s)].digest
    case End(id) => db.ends[id].digest
  }

  // Held under its own digest by its own tester.
  predicate Holds(db: Db, token: TokenId, k: Key, body: Body) {
    && TripOf(k) in db.trips && db.trips[TripOf(k)] == token
    && Stored(db, k) && StoredDigest(db, k) == Digest(body)
  }

  // However much later it comes and whatever was purged in between, sending a
  // held request again replays it; and a replay stores nothing.
  lemma RetryReplays(db: Db, db': Db, token: TokenId, k: Key, body: Body, now: int)
    requires Fits(k, body) && Holds(db, token, k, body) && Grows(db, db')
    ensures Handle(db', token, k, body, now) == (db', Replayed)
    ensures Holds(db', token, k, body)
  {
  }

  // What each outcome says about the database before, and leaves after.
  lemma HandleOutcome(db: Db, token: TokenId, k: Key, body: Body, now: int)
    requires Fits(k, body)
    ensures var (db', o) := Handle(db, token, k, body, now);
            && Grows(db, db')
            && (o == NotYours <==> TripOf(k) in db.trips && db.trips[TripOf(k)] != token)
            && (o == Conflict <==> o != NotYours && Stored(db, k) && StoredDigest(db, k) != Digest(body))
            && (o == Created || o == Replayed ==> Holds(db', token, k, body))
            && (o == Created <==> o != NotYours && !Stored(db, k))
            && (forall k' :: k' != k ==> (Stored(db', k') <==> Stored(db, k')))
            && (forall k' :: Stored(db, k') ==> Stored(db', k') && StoredDigest(db', k') == StoredDigest(db, k'))
            && (forall id :: id in db'.trips && id !in db.trips ==> id == TripOf(k) && db'.trips[id] == token)
  {
    match k
    case Chunk(_, _) => hide EndTrip, Grows; WritesGrow(db, token, k.trip, k.seqNo, body, now);
    case End(_) => hide PutChunk, Grows; WritesGrow(db, token, k.trip, 0, body, now);
  }

  // ------------------------------------------------------- the service

  class TraceStore {
    var trips: map<TripId, TokenId>
    var chunks: map<(TripId, nat), Row>
    var ends: map<TripId, EndRow>

    function Tables(): Db
      reads this
    {
      Db(trips, chunks, ends)
    }

    constructor ()
      ensures Tables() == Db(map[], map[], map[])
    {
      trips, chunks, ends := map[], map[], map[];
    }

    method Claim(id: TripId, token: TokenId) returns (ours: bool)
      modifies this`trips
      ensures (Tables(), ours) == ClaimTrip(old(Tables()), id, token)
    {
      if id !in trips {
        trips := trips[id := token];
        return true;
      }
      ours := trips[id] == token;
    }

    method Put(token: TokenId, id: TripId, seqNo: nat, body: Body, now: int) returns (o: Outcome)
      requires body.ChunkBody?
      modifies this
      ensures (Tables(), o) == PutChunk(old(Tables()), token, id, seqNo, body, now)
      ensures o == Created ==>
                && (id, seqNo) in chunks && chunks[(id, seqNo)].body == Some(body)
                && Tells(chunks[(id, seqNo)], body, now)
      ensures ends == old(ends) && chunks - {(id, seqNo)} == old(chunks) - {(id, seqNo)}
      ensures o != Created ==> chunks == old(chunks)
      ensures Grows(old(Tables()), Tables())
    {
      WritesGrow(Tables(), token, id, seqNo, body, now);
      var ours := Claim(id, token);
      if !ours {
        return NotYours;
      }
      if (id, seqNo) in chunks {
        return if chunks[(id, seqNo)].digest == Digest(body) then Replayed else Conflict;
      }
      chunks := chunks[(id, seqNo) := NewRow(body, now)];
      o := Created;
    }

    method End(token: TokenId, id: TripId, body: Body, now: int) returns (o: Outcome)
      requires body.EndBody?
      modifies this
      ensures (Tables(), o) == EndTrip(old(Tables()), token, id, body, now)
      ensures o == Created ==>
                && id in ends && ends[id].receivedAt == now && ends[id].digest == Digest(body)
                && ends[id].endedAt == body.endedAt && ends[id].arrived == body.arrived
                && ends[id].prediction == body.prediction
      ensures chunks == old(chunks) && ends - {id} == old(ends) - {id}
      ensures o != Created ==> ends == old(ends)
      ensures Grows(old(Tables()), Tables())
    {
      WritesGrow(Tables(), token, id, 0, body, now);
      var ours := Claim(id, token);
      if !ours {
        return NotYours;
      }
      if id in ends {
        return if ends[id].digest == Digest(body) then Replayed else Conflict;
      }
      ends := ends[id := EndRow(now, Digest(body), body.endedAt, body.arrived, body.prediction)];
      o := Created;
    }

    // Bodies past the age limit are cleared; how many rows that touched.
    method PurgeRawTraces(now: int, maxAgeDays: nat) returns (cleared: nat)
      modifies this`chunks
      ensures Tables() == Purge(old(Tables()), now, maxAgeDays)
      ensures cleared == |set k | k in old(chunks) && Expired(old(chunks)[k], now - maxAgeDays * DAY_MS)|
      ensures Grows(old(Tables()), Tables())
    {
      PurgeGrows(Tables(), now, maxAgeDays);
      var cutoff := now - maxAgeDays * DAY_MS;
      var due := set k | k in chunks && Expired(chunks[k], cutoff);
      cleared := |due|;
      chunks := map k | k in chunks :: if k in due then chunks[k].(body := None, purgedAt := Some(now)) else chunks[k];
    }
  }
}
