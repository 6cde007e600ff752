// Safety of the trip-trace protocol over every run.
module Safety {
  import opened Topology
  import opened TraceTypes
  import opened Sealing
  import opened Store
  import opened Protocol
  import Clip

  // ------------------------------------------------------- sealed items

  lemma {:induction false} BodiesAt(items: seq<Item>, i: nat)
    requires i < |items| && forall i, j :: 0 <= i < j < |items| ==> items[i].key != items[j].key
    ensures items[i].key in Bodies(items) && Bodies(items)[items[i].key] == items[i].body
  {
    if i < |items| - 1 {
      BodiesAt(items[..|items| - 1], i);
    }
  }

  lemma {:induction false} PutItemsAt(outbox: map<Key, Item>, items: seq<Item>, k: Key)
    requires forall i, j :: 0 <= i < j < |items| ==> items[i].key != items[j].key
    ensures k in PutItems(outbox, items) <==> k in outbox || k in Bodies(items)
    ensures k in Bodies(items) ==> PutItems(outbox, items)[k].key == k && PutItems(outbox, items)[k].body == Bodies(items)[k]
    ensures k in outbox && k !in Bodies(items) ==> PutItems(outbox, items)[k] == outbox[k]
  {
    if items != [] {
      PutItemsAt(outbox, items[..|items| - 1], k);
    }
  }

  // The bodies of consecutive chunks of one trip, under their keys.
  lemma {:induction false} ChunkBodies(id: TripId, items: seq<Item>, lo: nat, hi: nat, k: Key)
    requires Consecutive(id, items, lo, hi)
    ensures k in Bodies(items) <==> k.Chunk? && k.trip == id && lo <= k.seqNo < hi
    ensures k in Bodies(items) ==> Bodies(items)[k] == items[k.seqNo - lo].body
  {
    if k.Chunk? && k.trip == id && lo <= k.seqNo < hi {
      assert items[k.seqNo - lo].key == k;
      BodiesAt(items, k.seqNo - lo);
    }
  }

  // A fix of a sealed item was pending.
  lemma SealedFix(items: seq<Item>, pending: seq<Fix>, i: nat, x: Fix)
    requires InOrder(items, pending) && i < |items| && items[i].body.ChunkBody? && x in items[i].body.fixes
    ensures x in pending
  {
    var m :| 0 <= m < |items[i].body.fixes| && items[i].body.fixes[m] == x;
  }

  lemma SealedPair(items: seq<Item>, pending: seq<Fix>, i: nat, j: nat)
    requires InOrder(items, pending) && i < j < |items| && items[i].body.ChunkBody? && items[j].body.ChunkBody?
    ensures AllBefore(items[i].body.fixes, items[j].body.fixes)
  {
    forall x, y | x in items[i].body.fixes && y in items[j].body.fixes ensures x.t < y.t {
      var m :| 0 <= m < |items[i].body.fixes| && items[i].body.fixes[m] == x;
      var n :| 0 <= n < |items[j].body.fixes| && items[j].body.fixes[n] == y;
      assert Later(items, i, j, m, n);
    }
  }

  lemma BoundInOrder(env: Env, h: History, k: Key, l: Key)
    requires BoundOk(env, h) && SameTripInOrder(h.bound, k, l)
    ensures AllBefore(h.bound[k].fixes, h.bound[l].fixes)
  {
  }

  // What a record seals follows everything bound before.
  lemma SealedOrder(env: Env, h: History, t: TripRecord, r: Sealed, k: Key, l: Key)
    requires BoundOk(env, h) && Fresh(h.bound, t) && TripOk(t)
    requires Consecutive(t.tripId, r.items, t.nextSeq, r.trip.nextSeq)
    requires InOrder(r.items, t.pending) && SameTripInOrder(h.bound + Bodies(r.items), k, l)
    ensures AllBefore((h.bound + Bodies(r.items))[k].fixes, (h.bound + Bodies(r.items))[l].fixes)
  {
    hide BoundOk, InOrder, TripOk, Consecutive, Fresh, Bodies;
    var lo := t.nextSeq;
    ChunkBodies(t.tripId, r.items, lo, r.trip.nextSeq, k);
    ChunkBodies(t.tripId, r.items, lo, r.trip.nextSeq, l);
    ConsecutiveLength(t.tripId, r.items, lo, r.trip.nextSeq);
    var all := h.bound + Bodies(r.items);
    if l !in Bodies(r.items) {
      if TripOf(l) == t.tripId { BoundIsEarlier(h, t, l); }
      assert k !in Bodies(r.items);
      BoundInOrder(env, h, k, l);
    } else if k !in Bodies(r.items) {
      BoundBeforePending(h, t, k);
      forall y | y in all[l].fixes ensures y in t.pending {
        SealedFix(r.items, t.pending, l.seqNo - lo, y);
      }
    } else {
      SealedPair(r.items, t.pending, k.seqNo - lo, l.seqNo - lo);
    }
  }

  lemma BoundIsEarlier(h: History, t: TripRecord, k: Key)
    requires Fresh(h.bound, t) && k in h.bound && TripOf(k) == t.tripId
    ensures k.Chunk? && k.seqNo < t.nextSeq
  {
  }

  lemma BoundBeforePending(h: History, t: TripRecord, k: Key)
    requires Fresh(h.bound, t) && k in h.bound && TripOf(k) == t.tripId && h.bound[k].ChunkBody?
    ensures AllBefore(h.bound[k].fixes, t.pending)
  {
    forall x, y | x in h.bound[k].fixes && y in t.pending ensures x.t < y.t {
      assert Precedes(x, t);
    }
  }

  lemma ConsecutiveLength(id: TripId, items: seq<Item>, lo: nat, hi: nat)
    requires Consecutive(id, items, lo, hi)
    ensures hi == lo + |items|
  {
  }

  // A record that knows its trip, and may seal chunks.
  ghost predicate MaySeal(env: Env, h: History, t: TripRecord) {
    t.head.Some? && t.tripId in h.cleared && (Ready(env, t) != [] || t.sealedFixes)
  }

  lemma SealedItemsOk(env: Env, h: History, t: TripRecord, source: TripRecord, r: Sealed)
    requires BoundOk(env, h) && OpenTrip(h, t) && source.tripId == t.tripId && Knows(h.logs[t.tripId], source)
    requires Consecutive(t.tripId, r.items, t.nextSeq, r.trip.nextSeq)
    requires AllPrivate(env, h.logs[t.tripId], source, r.items)
    requires InOrder(r.items, t.pending) && (r.items != [] ==> MaySeal(env, h, source))
    ensures ItemsOk(env, h, source, r.items)
  {
    hide Private, Knows, ValidBody, Ready, BoundOk;
    forall k, l | SameTripInOrder(h.bound + Bodies(r.items), k, l)
      ensures AllBefore((h.bound + Bodies(r.items))[k].fixes, (h.bound + Bodies(r.items))[l].fixes) {
      SealedOrder(env, h, t, r, k, l);
    }
    forall i | 0 <= i < |r.items|
      ensures r.items[i].key !in h.bound && Discloses(env, h, source, r.items[i].key, r.items[i].body) {
      ChunkFits(t.tripId, r.items, t.nextSeq, r.trip.nextSeq, i);
    }
  }

  lemma ChunkFits(id: TripId, items: seq<Item>, lo: nat, hi: nat, i: nat)
    requires Consecutive(id, items, lo, hi) && i < |items|
    ensures items[i].key == Chunk(id, lo + i) && Store.Fits(items[i].key, items[i].body) && items[i].body.ChunkBody?
    ensures ValidBody(items[i].key, items[i].body)
  {
  }

  lemma SealKeepsItems(env: Env, h: History, t: TripRecord, r: Sealed)
    requires BoundOk(env, h) && OpenTrip(h, t) && SealKeeps(env, h.logs[t.tripId], t, r)
    requires r.trip.sealedFixes ==> t.tripId in h.cleared
    ensures ItemsOk(env, h, t, r.items) && Fresh(h.bound + Bodies(r.items), r.trip) && InOrder(r.items, t.pending)
    ensures OpenTrip(h, r.trip)
  {
    hide BoundOk, AllPrivate, Knows, ValidBody, FixOk, Fresh, ItemsOk, InOrder, Consecutive, Ready, TripOk, Bodies;
    var n :| 0 <= n <= |t.pending| && r.trip.pending == t.pending[n..] && InOrder(r.items, t.pending[..n]);
    ConsecutiveLength(t.tripId, r.items, t.nextSeq, r.trip.nextSeq);
    InOrderWider(r.items, t.pending[..n], t.pending);
    if r.items != [] { ReadyHead(env, t); }
    SealedItemsOk(env, h, t, t, r);
    SealedFresh(h, t, r, n);
    SealKnows(h.logs[t.tripId], t, r.trip, n);
    StillFresh(h, t, r.trip);
  }

  lemma ReadyHead(env: Env, t: TripRecord)
    requires Ready(env, t) != []
    ensures t.head.Some?
  {
  }

  lemma SealKnows(log: Log, t: TripRecord, t': TripRecord, n: nat)
    requires Knows(log, t) && t'.anchors == t.anchors && t'.head == t.head && t'.prediction == t.prediction
    requires n <= |t.pending| && t'.pending == t.pending[n..] && (t'.held == t.held || t'.held == [])
    ensures Knows(log, t')
  {
    hide Anchored, Dated;
    KnowsParts(log, t);
    assert Recorded(log, t');
    KnowsLess(log, t, t');
  }

  lemma KnowsParts(log: Log, t: TripRecord)
    requires Knows(log, t)
    ensures Recorded(log, t)
  {
  }

  lemma StillFresh(h: History, t: TripRecord, t': TripRecord)
    requires OpenTrip(h, t) && TripOk(t') && t'.tripId == t.tripId && t.nextSeq <= t'.nextSeq
    requires t.sealedFixes ==> t'.sealedFixes
    requires t.head.Some? ==> t'.head.Some? && t.head.value.t <= t'.head.value.t
    requires forall p :: p in t'.pending ==> p in t.pending || (t.head.Some? ==> t.head.value.t < p.t)
    requires Remembers(h, t')
    ensures OpenTrip(h, t')
  {
    hide Remembers;
    forall k | k in h.bound && TripOf(k) == t'.tripId && h.bound[k].ChunkBody?
      ensures forall f :: f in h.bound[k].fixes ==> Precedes(f, t') {
      forall f | f in h.bound[k].fixes ensures Precedes(f, t') {
        assert Precedes(f, t);
      }
    }
  }

  lemma SealedFresh(h: History, t: TripRecord, r: Sealed, n: nat)
    requires OpenTrip(h, t) && r.trip.tripId == t.tripId && r.trip.head == t.head
    requires Consecutive(t.tripId, r.items, t.nextSeq, r.trip.nextSeq)
    requires (r.items != [] ==> r.trip.sealedFixes) && (t.sealedFixes ==> r.trip.sealedFixes)
    requires n <= |t.pending| && r.trip.pending == t.pending[n..] && InOrder(r.items, t.pending[..n])
    ensures Fresh(h.bound + Bodies(r.items), r.trip)
  {
    hide TripOk, Precedes, InOrder, Bodies, Consecutive, OpenTrip;
    var all := h.bound + Bodies(r.items);
    SameId(h, t);
    forall k | k in all && TripOf(k) == t.tripId
      ensures k.Chunk? && k.seqNo < r.trip.nextSeq && r.trip.sealedFixes
      ensures all[k].ChunkBody? ==> forall f :: f in all[k].fixes ==> Precedes(f, r.trip) {
      if k in Bodies(r.items) {
        NewKeyFresh(t, r, n, k);
      } else {
        OldKeyFresh(h, t, r, n, k);
      }
    }
  }

  lemma SameId(h: History, t: TripRecord)
    requires OpenTrip(h, t)
    ensures TripOk(t)
  {
  }

  // A key bound before.
  lemma OldKeyFresh(h: History, t: TripRecord, r: Sealed, n: nat, k: Key)
    requires OpenTrip(h, t) && k in h.bound && TripOf(k) == t.tripId && r.trip.head == t.head
    requires Consecutive(t.tripId, r.items, t.nextSeq, r.trip.nextSeq) && (t.sealedFixes ==> r.trip.sealedFixes)
    requires n <= |t.pending| && r.trip.pending == t.pending[n..]
    ensures k.Chunk? && k.seqNo < r.trip.nextSeq && r.trip.sealedFixes
    ensures h.bound[k].ChunkBody? ==> forall f :: f in h.bound[k].fixes ==> Precedes(f, r.trip)
  {
    hide TripOk, Precedes;
    if h.bound[k].ChunkBody? {
      forall f | f in h.bound[k].fixes ensures Precedes(f, r.trip) {
        FewerPending(t, r.trip, n, f);
      }
    }
  }

  // A key just sealed.
  lemma NewKeyFresh(t: TripRecord, r: Sealed, n: nat, k: Key)
    requires TripOk(t) && k in Bodies(r.items) && r.trip.head == t.head
    requires Consecutive(t.tripId, r.items, t.nextSeq, r.trip.nextSeq) && (r.items != [] ==> r.trip.sealedFixes)
    requires n <= |t.pending| && r.trip.pending == t.pending[n..] && InOrder(r.items, t.pending[..n])
    ensures k.Chunk? && k.seqNo < r.trip.nextSeq && r.trip.sealedFixes
    ensures Bodies(r.items)[k].ChunkBody? ==> forall f :: f in Bodies(r.items)[k].fixes ==> Precedes(f, r.trip)
  {
    ChunkBodies(t.tripId, r.items, t.nextSeq, r.trip.nextSeq, k);
    ConsecutiveLength(t.tripId, r.items, t.nextSeq, r.trip.nextSeq);
    hide TripOk, Precedes, InOrder, Bodies, Consecutive;
    if Bodies(r.items)[k].ChunkBody? {
      forall f | f in Bodies(r.items)[k].fixes ensures Precedes(f, r.trip) {
        SealedFix(r.items, t.pending[..n], k.seqNo - t.nextSeq, f);
        SealedPrecedes(t, r.trip, n, f);
      }
    }
  }

  lemma FewerPending(t: TripRecord, t': TripRecord, n: nat, f: Fix)
    requires Precedes(f, t) && n <= |t.pending| && t'.pending == t.pending[n..] && t'.head == t.head
    ensures Precedes(f, t')
  {
  }

  lemma SealedPrecedes(t: TripRecord, t': TripRecord, n: nat, f: Fix)
    requires TripOk(t) && n <= |t.pending| && t'.pending == t.pending[n..] && t'.head == t.head && f in t.pending[..n]
    ensures Precedes(f, t')
  {
    var i :| 0 <= i < n && t.pending[i] == f;
    assert t.pending[i].t <= t.pending[|t.pending| - 1].t;
    forall p | p in t'.pending ensures f.t < p.t {
      var j :| 0 <= j < |t'.pending| && t'.pending[j] == p;
      assert t.pending[n + j] == p;
    }
  }

  // A finalization's items: the last chunks, then `end`.
  lemma FinalizeItems(env: Env, h: History, t: TripRecord, arrived: bool, at: int, now: int)
    requires BoundOk(env, h) && OpenTrip(h, t) && (Ready(env, t) != [] ==> t.tripId in h.cleared)
    ensures ItemsOk(env, h, t, Finalize(env, t, arrived, EndTime(t, at), now))
    ensures OpenTrip(h, Seal(env, t, now).trip)
    ensures var t' := Seal(env, t, now).trip;
            t'.tripId == t.tripId && t'.head == t.head && t'.prediction == t.prediction
  {
    hide BoundOk, Discloses, ItemsOk, Seal, Fresh, ValidBody, Ready;
    var r, log := Seal(env, t, now), h.logs[t.tripId];
    OpenParts(h, t);
    SealOk(env, log, t, now);
    SealKeepsItems(env, h, t, r);
    var end := Item(End(t.tripId), EndBody(EndTime(t, at), arrived, t.prediction), now);
    EndIsValid(t, arrived, at);
    EndUnbound(h, t);
    EndItem(env, h, t, r, end);
  }

  lemma OpenParts(h: History, t: TripRecord)
    requires OpenTrip(h, t)
    ensures TripOk(t) && t.tripId in h.logs && Recorded(h.logs[t.tripId], t) && Knows(h.logs[t.tripId], t)
    ensures t.sealedFixes ==> t.tripId in h.cleared
  {
  }

  lemma EndUnbound(h: History, t: TripRecord)
    requires OpenTrip(h, t)
    ensures End(t.tripId) !in h.bound
  {
  }

  lemma EndItem(env: Env, h: History, t: TripRecord, r: Sealed, end: Item)
    requires ItemsOk(env, h, t, r.items) && Consecutive(t.tripId, r.items, t.nextSeq, r.trip.nextSeq)
    requires end.key == End(t.tripId) && end.body.EndBody? && end.key !in h.bound && ValidBody(end.key, end.body)
    requires end.body.prediction == t.prediction && t.tripId in h.logs && Knows(h.logs[t.tripId], t)
    ensures ItemsOk(env, h, t, r.items + [end])
  {
    hide ValidBody, Bodies, AllBefore, Private, Knows;
    var items := r.items + [end];
    EndBodies(r.items, end);
    EndOrder(h.bound, r.items, end);
    EndPrivate(env, h.logs[t.tripId], t, end.body);
    forall i | 0 <= i < |items|
      ensures items[i].key !in h.bound && Discloses(env, h, t, items[i].key, items[i].body) {
      if i < |r.items| { assert items[i] == r.items[i]; }
    }
  }

  lemma EndPrivate(env: Env, log: Log, t: TripRecord, b: Body)
    requires b.EndBody?
    ensures Private(env, log, t, b)
  {
  }

  lemma {:induction false} EndOrder(bound: map<Key, Body>, items: seq<Item>, end: Item)
    requires end.key.End?
    requires forall k, l :: SameTripInOrder(bound + Bodies(items), k, l) ==>
               AllBefore((bound + Bodies(items))[k].fixes, (bound + Bodies(items))[l].fixes)
    ensures var after := bound + Bodies(items + [end]);
            forall k, l :: SameTripInOrder(after, k, l) ==> AllBefore(after[k].fixes, after[l].fixes)
  {
    hide Bodies, AllBefore;
    EndBodies(items, end);
    var before, after := bound + Bodies(items), bound + Bodies(items + [end]);
    forall k, l | SameTripInOrder(after, k, l) ensures AllBefore(after[k].fixes, after[l].fixes) {
      assert SameTripInOrder(before, k, l);
    }
  }

  lemma {:induction false} EndBodies(items: seq<Item>, end: Item)
    ensures Bodies(items + [end]) == Bodies(items)[end.key := end.body]
  {
    assert (items + [end])[..|items|] == items;
  }

  // ------------------------------------------------------- the logs

  // h' has taken note of more: trips taken, what they were given, and of
  // which a fix was found clear.
  ghost predicate NotesMore(h: History, h': History) {
    && h' == h.(used := h'.used, logs := h'.logs, cleared := h'.cleared)
    && h.used <= h'.used && h.cleared <= h'.cleared && LogsOk(h')
    && forall id :: id in h.logs ==> id in h'.logs && LogGrows(h.logs[id], h'.logs[id])
  }

  lemma RemembersMore(h: History, h': History, t: TripRecord)
    requires NotesMore(h, h') && Remembers(h, t)
    ensures Remembers(h', t)
  {
    hide Knows, LogOk, LogGrows;
    KnowsGrows(h.logs[t.tripId], h'.logs[t.tripId], t);
  }

  lemma OpenMore(h: History, h': History, t: TripRecord)
    requires NotesMore(h, h') && OpenTrip(h, t)
    ensures OpenTrip(h', t)
  {
    hide Knows, LogsOk, LogGrows, Remembers, TripOk, Fresh;
    RemembersMore(h, h', t);
  }

  lemma DisclosesMore(env: Env, h: History, h': History, t: TripRecord, k: Key, b: Body)
    requires NotesMore(h, h') && Discloses(env, h, t, k, b)
    ensures Discloses(env, h', t, k, b)
  {
    hide Knows, LogOk, LogGrows, Private, ValidBody, Ready;
    KnowsGrows(h.logs[t.tripId], h'.logs[t.tripId], t);
    PrivateGrows(env, h.logs[t.tripId], h'.logs[t.tripId], t, b);
  }

  lemma BoundMore(env: Env, h: History, h': History)
    requires NotesMore(h, h') && BoundOk(env, h)
    ensures BoundOk(env, h')
  {
    hide Discloses, LogsOk, LogGrows;
    forall k | k in h'.bound ensures k in h'.source && Discloses(env, h', h'.source[k], k, h'.bound[k]) {
      DisclosesMore(env, h, h', h.source[k], k, h.bound[k]);
    }
  }

  lemma DeviceMore(h: History, h': History, dev: Device)
    requires NotesMore(h, h') && DeviceOk(h, dev)
    ensures DeviceOk(h', dev)
  {
    hide OpenTrip, LogsOk, LogGrows;
    forall id | id in dev.trips ensures OpenTrip(h', dev.trips[id]) { OpenMore(h, h', dev.trips[id]); }
  }

  lemma MemoryMore(env: Env, h: History, h': History, dev: Device, m: Memory)
    requires NotesMore(h, h') && MemoryOk(env, h, dev, m) && m.op.Idle?
    ensures MemoryOk(env, h', dev, m)
  {
    hide OpenTrip, LogsOk, LogGrows;
    if m.trip.Some? { OpenMore(h, h', m.trip.value); }
  }

  lemma ServerMore(token: TokenId, h: History, h': History, db: Db)
    requires NotesMore(h, h') && ServerOk(token, h, db)
    ensures ServerOk(token, h', db)
  {
    hide LogsOk, LogGrows;
  }

  // The same logs, and perhaps one more trip that cleared.
  lemma OnlyCleared(h: History, s: set<TripId>)
    requires LogsOk(h)
    ensures NotesMore(h, h.(cleared := h.cleared + s))
  {
    hide LogOk;
  }

  lemma LogOkAt(h: History, id: TripId)
    requires LogsOk(h) && id in h.logs
    ensures LogOk(h.logs[id])
  {
  }

  // One log is new or longer.
  lemma OneLogMore(h: History, id: TripId, log: Log, s: set<TripId>)
    requires LogsOk(h) && id in h.used && LogOk(log) && (id in h.logs ==> LogGrows(h.logs[id], log))
    ensures NotesMore(h, h.(logs := h.logs[id := log], cleared := h.cleared + s))
  {
    hide LogOk;
  }

  // ------------------------------------------------------- the operations

  lemma BeginFinalizeOk(env: Env, h: History, dev: Device, m: Memory, t: TripRecord, arrived: bool, at: int, now: int,
                        next: Then)
    requires BoundOk(env, h) && OpenTrip(h, t) && (Ready(env, t) != [] ==> t.tripId in h.cleared)
    requires next.ThenStart? ==> NewTrip(h, next.id) && next.id != t.tripId
    requires next.ThenInit? ==>
               m.trip.None? && Enumerates(next.rest, dev.trips)
               && forall i :: 0 <= i < |next.rest| ==> next.rest[i].tripId != t.tripId
    ensures OpOk(env, h, dev, m.(op := BeginFinalize(env, t, arrived, at, now, next)))
  {
    FinalizeItems(env, h, t, arrived, at, now);
    hide ItemsOk, Finalize, BoundOk, OpenTrip, Ready;
  }

  lemma FinalizeOpenOk(env: Env, h: History, dev: Device, m: Memory, arrived: bool, now: int, next: Then)
    requires BoundOk(env, h) && MemoryOk(env, h, dev, m.(op := Idle)) && m.trip.Some? && CurrentOk(h, m)
    requires Ready(env, m.trip.value) != [] ==> m.trip.value.tripId in h.cleared
    requires next == Nothing || (next.ThenStart? && NewTrip(h, next.id) && next.id != m.trip.value.tripId)
    ensures var m' := FinalizeOpen(env, m, arrived, now, next); MemoryOk(env, h, dev, m') && CurrentOk(h, m')
  {
    hide OpOk, OpenTrip, BoundOk, OutboxOk, Seal, Finalize, Ready, LogOk;
    var m' := FinalizeOpen(env, m, arrived, now, next);
    FinalizeItems(env, h, m.trip.value, arrived, now, now);
    BeginFinalizeOk(env, h, dev, m', m.trip.value, arrived, now, now, next);
    assert m'.(op := BeginFinalize(env, m.trip.value, arrived, now, now, next)) == m';
  }

  // Of a finalization, the trip that may have cleared is the one finalized.
  lemma FinalizingClears(env: Env, t: TripRecord, arrived: bool, at: int, now: int, next: Then, e: Event)
    ensures ClearedBy(env, e, BeginFinalize(env, t, arrived, at, now, next)) == if Ready(env, t) != [] then {t.tripId} else {}
  {
    hide Finalize, Ready;
  }

  lemma BeginStartOk(env: Env, h: History, dev: Device, m: Memory, id: TripId, route: Artifact,
                     destination: Option<Place>, now: int)
    requires BoundOk(env, h) && MemoryOk(env, h, dev, m.(op := Idle)) && id in h.used && CurrentOk(h, m)
    requires forall k :: k in h.bound ==> TripOf(k) != id
    requires m.CanUpload() ==> id in h.logs && h.logs[id] == Log([Followed(now, route)], destination, [])
    ensures var m' := BeginStart(m, id, route, destination, now); MemoryOk(env, h, dev, m') && CurrentOk(h, m')
  {
    hide BoundOk, OutboxOk, Knows;
    if m.CanUpload() {
      var t := StartTrip(id, route, destination, now);
      StartTripOk(id, route, destination, now);
      StartKnows(id, route, destination, now);
      NoItems(env, h, t);
      StartOpen(h, t);
      hide OpenTrip, ItemsOk, TripOk, Current, Fresh;
    }
  }

  lemma StartOpen(h: History, t: TripRecord)
    requires TripOk(t) && t.tripId in h.used && t.tripId in h.logs && Knows(h.logs[t.tripId], t) && !t.sealedFixes
    requires forall k :: k in h.bound ==> TripOf(k) != t.tripId
    ensures OpenTrip(h, t) && Fresh(h.bound + Bodies([]), t)
  {
    hide TripOk, Knows;
    assert h.bound + Bodies([]) == h.bound;
  }

  lemma NoItems(env: Env, h: History, t: TripRecord)
    requires BoundOk(env, h) && t.tripId in h.used
    ensures ItemsOk(env, h, t, [])
  {
    hide Discloses;
    assert h.bound + Bodies([]) == h.bound;
  }

  // An accepted fix, with the fix in the trip's log.
  lemma LocatedOk(env: Env, h: History, dev: Device, m: Memory, raw: RawFix, now: int, log: Log)
    requires BoundOk(env, h) && MemoryOk(env, h, dev, m) && m.op.Idle? && Accepts(env, m, raw)
    requires LogOk(log) && Knows(log, m.trip.value) && Current(log, m.trip.value)
    requires h.logs[m.trip.value.tripId] == WithFix(log, ToTraceFix(raw).value)
    requires var t1 := Headed(env, m.trip.value, ToTraceFix(raw).value);
             SealDue(t1) && Ready(env, t1) != [] ==> t1.tripId in h.cleared
    ensures var m' := Operate(env, m, dev, Located(raw, now)); MemoryOk(env, h, dev, m') && CurrentOk(h, m')
  {
    hide BoundOk, OutboxOk, Knows, FixOk, ToTraceFix, FollowsHead, Seal, Ready, LogOk, Fresh, ItemsOk, TripOk, AddFix, SealKeeps,
         OpenTrip, Headed, WithFix, Current;
    var t, fix := m.trip.value, ToTraceFix(raw).value;
    var t1, r := Headed(env, t, fix), AddFix(env, t, fix, now);
    TraceFixIsValid(raw);
    OpenParts(h, t);
    HeadedKnows(env, log, t, fix);
    HeadedOpen(env, h, t, fix);
    AddFixOk(env, h.logs[t.tripId], t, fix, now);
    AddFixClears(env, t, fix, now);
    SealKeepsItems(env, h, t1, r);
    SealedHead(env, h.logs[t.tripId], t1, r);
    SavingOk(env, h, dev, m, t1, r);
  }

  lemma SealedHead(env: Env, log: Log, t: TripRecord, r: Sealed)
    requires SealKeeps(env, log, t, r)
    ensures r.trip.tripId == t.tripId && (Current(log, t) ==> Current(log, r.trip))
  {
  }

  lemma HeadedOpen(env: Env, h: History, t: TripRecord, fix: Fix)
    requires OpenTrip(h, t) && FixOk(fix) && FollowsHead(env, t.head, fix)
    requires fix in h.logs[t.tripId].accepted && Knows(h.logs[t.tripId], Headed(env, t, fix))
    ensures var t1 := Headed(env, t, fix);
            OpenTrip(h, t1) && t1.tripId == t.tripId && t1.sealedFixes == t.sealedFixes && Recorded(h.logs[t.tripId], t)
  {
    hide Knows, FixOk, Fresh;
    OpenParts(h, t);
    HeadedOk(env, h.logs[t.tripId], t, fix);
    hide TripOk;
    StillFresh(h, t, Headed(env, t, fix));
  }

  // Sealing is noted when it is due and finds a fix.
  lemma AddFixClears(env: Env, t: TripRecord, fix: Fix, now: int)
    ensures var t1, r := Headed(env, t, fix), AddFix(env, t, fix, now);
            r.trip.sealedFixes ==> t.sealedFixes || (SealDue(t1) && Ready(env, t1) != [])
  {
    var t1 := Headed(env, t, fix);
    SealCases(env, t1, now);
    hide Ready, SealFixes, SealArtifacts, Seal;
  }

  // An operation that saves the record it changed, with what it sealed.
  lemma SavingOk(env: Env, h: History, dev: Device, m: Memory, source: TripRecord, r: Sealed)
    requires MemoryOk(env, h, dev, m.(op := Idle)) && source.tripId == r.trip.tripId
    requires OpenTrip(h, r.trip) && ItemsOk(env, h, source, r.items) && Fresh(h.bound + Bodies(r.items), r.trip)
    ensures MemoryOk(env, h, dev,
              m.(trip := Some(r.trip), op := Saving(NO_OPS.(putTrips := [r.trip], putOutbox := r.items), source, r.items)))
  {
    hide OpenTrip, ItemsOk, Fresh, OutboxOk;
  }

  // A reroute, with the route in the trip's log.
  lemma ReroutedOk(env: Env, h: History, dev: Device, m: Memory, route: Artifact, now: int, log: Log)
    requires BoundOk(env, h) && MemoryOk(env, h, dev, m) && m.op.Idle? && m.trip.Some? && m.CanUpload()
    requires LogOk(log) && Knows(log, m.trip.value) && Current(log, m.trip.value)
    requires h.logs[m.trip.value.tripId] == WithRoute(log, RerouteAt(m.trip.value, now), route)
    ensures var m' := Operate(env, m, dev, Rerouted(route, now)); MemoryOk(env, h, dev, m') && CurrentOk(h, m')
  {
    hide BoundOk, OutboxOk, Knows, FixOk, LogOk, Fresh, ItemsOk, Reroute, ValidBody, Consecutive, AllPrivate;
    var t := m.trip.value;
    var log' := WithRoute(log, RerouteAt(t, now), route);
    var r := Reroute(env, t, route, now);
    OpenParts(h, t);
    ReroutedKnows(env, log, t, route, now);
    RerouteOk(env, log', t, route, now);
    ConsecutiveLength(t.tripId, r.items, t.nextSeq, r.trip.nextSeq);
    ChunksOnly(t.tripId, r.items, t.nextSeq, r.trip.nextSeq);
    StillFresh(h, t, r.trip);
    NothingReordered(r.items, t.pending);
    if r.items != [] { assert MaySeal(env, h, r.trip); }
    SealedItemsOk(env, h, t, r.trip, r);
    RerouteFresh(h, t, r);
    SavingOk(env, h, dev, m, r.trip, r);
  }

  lemma NothingReordered(items: seq<Item>, pending: seq<Fix>)
    requires forall i :: 0 <= i < |items| ==> items[i].body.ChunkBody? && items[i].body.fixes == []
    ensures InOrder(items, pending) && InOrder(items, pending[..0])
  {
  }

  lemma RerouteFresh(h: History, t: TripRecord, r: Sealed)
    requires OpenTrip(h, t) && r.trip.tripId == t.tripId && r.trip.head == t.head && r.trip.pending == t.pending
    requires Consecutive(t.tripId, r.items, t.nextSeq, r.trip.nextSeq)
    requires (r.items != [] ==> t.sealedFixes) && r.trip.sealedFixes == t.sealedFixes && InOrder(r.items, t.pending[..0])
    ensures Fresh(h.bound + Bodies(r.items), r.trip)
  {
    assert t.pending[0..] == t.pending;
    SealedFresh(h, t, r, 0);
  }

  // Each operation, with what is noted of it.
  ghost predicate OperationKept(env: Env, h: History, dev: Device, m: Memory, e: Event)
    requires m.op.Idle?
  {
    var m' := Operate(env, m, dev, e);
    var h' := Noted(env, Using(h, e), m, e, m'.op);
    NotesMore(h, h') && MemoryOk(env, h', dev, m') && CurrentOk(h', m')
  }

  ghost predicate AtRest(env: Env, h: History, dev: Device, m: Memory) {
    m.op.Idle? && LogsOk(h) && BoundOk(env, h) && MemoryOk(env, h, dev, m) && CurrentOk(h, m)
  }

  lemma SettingsKept(env: Env, h: History, dev: Device, m: Memory, e: Event)
    requires AtRest(env, h, dev, m) && (e.OptIn? || e.SetEnabled? || e.Forget?)
    ensures OperationKept(env, h, dev, m, e)
  {
    hide BoundOk, OpenTrip, OutboxOk, Current, LogOk;
    OnlyCleared(h, {});
    assert h.cleared + {} == h.cleared;
  }

  lemma EndingKept(env: Env, h: History, h': History, dev: Device, m: Memory, arrived: bool, now: int, next: Then)
    requires AtRest(env, h, dev, m) && m.trip.Some? && NotesMore(h, h') && h'.logs == h.logs
    requires Ready(env, m.trip.value) != [] ==> m.trip.value.tripId in h'.cleared
    requires next == Nothing || (next.ThenStart? && NewTrip(h', next.id) && next.id !in h.used)
    ensures var m' := FinalizeOpen(env, m, arrived, now, next); MemoryOk(env, h', dev, m') && CurrentOk(h', m')
  {
    hide BoundOk, OutboxOk, Current, LogsOk, LogGrows, Ready;
    assert m.(op := Idle) == m;
    OpenUsed(h, m.trip.value);
    hide OpenTrip;
    BoundMore(env, h, h');
    MemoryMore(env, h, h', dev, m);
    FinalizeOpenOk(env, h', dev, m, arrived, now, next);
  }

  lemma OpenUsed(h: History, t: TripRecord)
    requires OpenTrip(h, t)
    ensures t.tripId in h.used
  {
  }

  lemma EndedKept(env: Env, h: History, dev: Device, m: Memory, arrived: bool, now: int)
    requires AtRest(env, h, dev, m)
    ensures OperationKept(env, h, dev, m, Ended(arrived, now))
  {
    hide BoundOk, OpenTrip, OutboxOk, Current, LogOk, Ready, AtRest, FinalizeOpen, MemoryOk;
    ReadyParts(env, h, dev, m);
    assert h.cleared + {} == h.cleared;
    if m.trip.Some? {
      var m' := FinalizeOpen(env, m, arrived, now, Nothing);
      var h' := h.(cleared := h.cleared + ClearedBy(env, Ended(arrived, now), m'.op));
      EndsOp(env, m, arrived, now, Nothing, Ended(arrived, now));
      OnlyCleared(h, ClearedBy(env, Ended(arrived, now), m'.op));
      EndingKept(env, h, h', dev, m, arrived, now, Nothing);
    } else {
      OnlyCleared(h, {});
    }
  }

  lemma ReadyParts(env: Env, h: History, dev: Device, m: Memory)
    requires AtRest(env, h, dev, m)
    ensures m.op.Idle? && LogsOk(h) && MemoryOk(env, h, dev, m) && CurrentOk(h, m)
  {
  }

  lemma EndsOp(env: Env, m: Memory, arrived: bool, now: int, next: Then, e: Event)
    requires m.trip.Some?
    ensures ClearedBy(env, e, FinalizeOpen(env, m, arrived, now, next).op)
         == if Ready(env, m.trip.value) != [] then {m.trip.value.tripId} else {}
  {
    FinalizingClears(env, m.trip.value, arrived, now, now, next, e);
    hide Finalize, Ready, ClearedBy, Seal, BeginFinalize;
  }

  lemma StartKept(env: Env, h: History, dev: Device, m: Memory, id: TripId, route: Artifact,
                  destination: Option<Place>, now: int)
    requires AtRest(env, h, dev, m) && id !in h.used
    ensures OperationKept(env, h, dev, m, Start(id, route, destination, now))
  {
    var e := Start(id, route, destination, now);
    var h1 := Using(h, e);
    TakenNow(env, h, id);
    hide BoundOk, OpenTrip, OutboxOk, Current, LogsOk, Ready, AtRest, FinalizeOpen, MemoryOk, NotesMore, CurrentOk, ClearedBy;
    ReadyParts(env, h, dev, m);
    if m.trip.Some? {
      var m' := FinalizeOpen(env, m, false, now, ThenStart(id, route, destination));
      var h' := h1.(cleared := h1.cleared + ClearedBy(env, e, m'.op));
      EndsOp(env, m, false, now, ThenStart(id, route, destination), e);
      TakenMore(h, id, ClearedBy(env, e, m'.op));
      EndingKept(env, h, h', dev, m, false, now, ThenStart(id, route, destination));
    } else {
      StartFreshKept(env, h, dev, m, id, route, destination, now);
    }
  }

  lemma TakenNow(env: Env, h: History, id: TripId)
    requires LogsOk(h) && BoundOk(env, h) && id !in h.used
    ensures NewTrip(h.(used := h.used + {id}), id)
  {
    hide LogOk, ValidBody, Private, Knows;
  }

  lemma TakenMore(h: History, id: TripId, s: set<TripId>)
    requires LogsOk(h)
    ensures NotesMore(h, h.(used := h.used + {id}, cleared := h.cleared + s))
  {
    hide LogOk;
  }

  lemma StartFreshKept(env: Env, h: History, dev: Device, m: Memory, id: TripId, route: Artifact,
                       destination: Option<Place>, now: int)
    requires AtRest(env, h, dev, m) && id !in h.used && m.trip.None?
    ensures OperationKept(env, h, dev, m, Start(id, route, destination, now))
  {
    var e := Start(id, route, destination, now);
    var h1 := Using(h, e);
    TakenNow(env, h, id);
    StartKnows(id, route, destination, now);
    hide BoundOk, OpenTrip, OutboxOk, Current, LogOk, Ready, MemoryOk, Knows, StartTrip;
    var m' := BeginStart(m, id, route, destination, now);
    var h' := Noted(env, h1, m, e, m'.op);
    assert h1.cleared + {} == h1.cleared;
    assert LogsOk(h1);
    if m.CanUpload() {
      OneLogMore(h1, id, Log([Followed(now, route)], destination, []), {});
    }
    assert NotesMore(h, h');
    assert m.(op := Idle) == m;
    BoundMore(env, h, h');
    MemoryMore(env, h, h', dev, m);
    BeginStartOk(env, h', dev, m, id, route, destination, now);
  }

  lemma LocatedKept(env: Env, h: History, dev: Device, m: Memory, raw: RawFix, now: int)
    requires AtRest(env, h, dev, m)
    ensures OperationKept(env, h, dev, m, Located(raw, now))
  {
    hide BoundOk, OutboxOk, LogOk, Ready, MemoryOk, FollowsHead, ToTraceFix, AddFix, Current, Knows;
    var e := Located(raw, now);
    assert h.cleared + {} == h.cleared;
    if !Accepts(env, m, raw) {
      OnlyCleared(h, {});
    } else {
      var t, fix := m.trip.value, ToTraceFix(raw).value;
      var id, log := t.tripId, h.logs[t.tripId];
      MemoryTrip(env, h, dev, m);
      LogOkAt(h, id);
      HeadedKnows(env, log, t, fix);
      var op := Operate(env, m, dev, e).op;
      var h' := h.(logs := h.logs[id := WithFix(log, fix)], cleared := h.cleared + ClearedBy(env, e, op));
      hide Accepts, Headed, WithFix;
      OneLogMore(h, id, WithFix(log, fix), ClearedBy(env, e, op));
      BoundMore(env, h, h');
      MemoryMore(env, h, h', dev, m);
      LocatedOk(env, h', dev, m, raw, now, log);
    }
  }

  lemma MemoryTrip(env: Env, h: History, dev: Device, m: Memory)
    requires MemoryOk(env, h, dev, m) && m.trip.Some?
    ensures var t := m.trip.value;
            TripOk(t) && t.tripId in h.used && t.tripId in h.logs && Knows(h.logs[t.tripId], t)
  {
    hide BoundOk, OutboxOk, Knows, Fresh, TripOk;
  }

  lemma ReroutedKept(env: Env, h: History, dev: Device, m: Memory, route: Artifact, now: int)
    requires AtRest(env, h, dev, m)
    ensures OperationKept(env, h, dev, m, Rerouted(route, now))
  {
    hide BoundOk, OutboxOk, LogOk, Ready, MemoryOk, Reroute, Current, Knows;
    var e := Rerouted(route, now);
    assert h.cleared + {} == h.cleared;
    if m.trip.None? || !m.CanUpload() {
      OnlyCleared(h, {});
    } else {
      var t := m.trip.value;
      var id, log := t.tripId, h.logs[t.tripId];
      var log' := WithRoute(log, RerouteAt(t, now), route);
      MemoryTrip(env, h, dev, m);
      LogOkAt(h, id);
      ReroutedKnows(env, log, t, route, now);
      hide WithRoute, RerouteAt;
      var h' := h.(logs := h.logs[id := log'], cleared := h.cleared + {});
      OneLogMore(h, id, log', {});
      BoundMore(env, h, h');
      MemoryMore(env, h, h', dev, m);
      ReroutedOk(env, h', dev, m, route, now, log);
    }
  }

  lemma OperateOk(env: Env, h: History, dev: Device, m: Memory, e: Event)
    requires AtRest(env, h, dev, m) && IsOperation(e) && (e.Start? ==> e.id !in h.used)
    ensures OperationKept(env, h, dev, m, e)
  {
    hide AtRest, OperationKept;
    match e
    case OptIn => SettingsKept(env, h, dev, m, e);
    case SetEnabled(_) => SettingsKept(env, h, dev, m, e);
    case Forget => SettingsKept(env, h, dev, m, e);
    case Start(id, route, destination, now) => StartKept(env, h, dev, m, id, route, destination, now);
    case Located(raw, now) => LocatedKept(env, h, dev, m, raw, now);
    case Rerouted(route, now) => ReroutedKept(env, h, dev, m, route, now);
    case Ended(arrived, now) => EndedKept(env, h, dev, m, arrived, now);
  }

  // ------------------------------------------------------- the commit

  // What a commit adds to the history.
  ghost function Bind(h: History, t: TripRecord, items: seq<Item>): History {
    h.(bound := h.bound + Bodies(items), source := h.source + Sources(items, t))
  }

  lemma {:induction false} ItemAt(env: Env, h: History, t: TripRecord, items: seq<Item>, k: Key)
    requires ItemsOk(env, h, t, items) && k in Bodies(items)
    ensures k !in h.bound && TripOf(k) == t.tripId && t.tripId in h.used
    ensures Discloses(env, h, t, k, Bodies(items)[k])
    ensures k in Sources(items, t) && Sources(items, t)[k] == t
  {
    hide ValidBody, Private, Knows, Ready;
    var i :| 0 <= i < |items| && items[i].key == k;
    BodiesAt(items, i);
  }

  lemma SameDisclosure(env: Env, h: History, h': History, t: TripRecord, k: Key, b: Body)
    requires h'.used == h.used && h'.logs == h.logs && h'.cleared == h.cleared
    ensures Discloses(env, h, t, k, b) ==> Discloses(env, h', t, k, b)
  {
    hide ValidBody, Private, Knows, Ready;
  }

  lemma BindBoundOk(env: Env, h: History, t: TripRecord, items: seq<Item>)
    requires BoundOk(env, h) && ItemsOk(env, h, t, items)
    ensures BoundOk(env, Bind(h, t, items))
  {
    hide Discloses;
    var h' := Bind(h, t, items);
    forall k | k in h'.bound ensures k in h'.source && Discloses(env, h', h'.source[k], k, h'.bound[k]) {
      SameDisclosure(env, h, h', h'.source[k], k, h'.bound[k]);
      if k in Bodies(items) {
        ItemAt(env, h, t, items, k);
      } else {
        assert k in h.bound && k !in Sources(items, t);
      }
    }
  }

  lemma BindServerOk(env: Env, token: TokenId, h: History, db: Db, t: TripRecord, items: seq<Item>)
    requires ServerOk(token, h, db) && ItemsOk(env, h, t, items)
    ensures ServerOk(token, Bind(h, t, items), db)
  {
    hide ItemsOk;
    BoundUnchanged(env, h, t, items);
  }

  lemma BoundUnchanged(env: Env, h: History, t: TripRecord, items: seq<Item>)
    requires ItemsOk(env, h, t, items)
    ensures forall k :: k in h.bound ==> k in Bind(h, t, items).bound && Bind(h, t, items).bound[k] == h.bound[k]
  {
    hide ItemsOk;
    forall k | k in h.bound ensures k !in Bodies(items) {
      if k in Bodies(items) { ItemAt(env, h, t, items, k); }
    }
  }

  lemma ItemKeys(env: Env, h: History, t: TripRecord, items: seq<Item>)
    requires ItemsOk(env, h, t, items)
    ensures forall i, j :: 0 <= i < j < |items| ==> items[i].key != items[j].key
  {
  }

  lemma BindOtherTrip(env: Env, h: History, t: TripRecord, items: seq<Item>, other: TripRecord)
    requires ItemsOk(env, h, t, items) && OpenTrip(h, other) && other.tripId != t.tripId
    ensures OpenTrip(Bind(h, t, items), other)
  {
    hide ItemsOk, TripOk, Knows, Discloses, Precedes, Bodies;
    forall k | k in Bodies(items) ensures TripOf(k) == t.tripId { ItemAt(env, h, t, items, k); }
  }

  lemma BindNewTrip(env: Env, h: History, t: TripRecord, items: seq<Item>, id: TripId)
    requires ItemsOk(env, h, t, items) && NewTrip(h, id) && id != t.tripId
    ensures NewTrip(Bind(h, t, items), id)
  {
    forall k | k in Bodies(items) ensures TripOf(k) == t.tripId { ItemAt(env, h, t, items, k); }
    hide ItemsOk;
  }

  // Storage and memory both take the items under the keys just bound.
  lemma {:induction false} BindOutbox(env: Env, h: History, t: TripRecord, items: seq<Item>, outbox: map<Key, Item>)
    requires ItemsOk(env, h, t, items) && OutboxOk(h, outbox)
    ensures OutboxOk(Bind(h, t, items), PutItems(outbox, items))
    ensures PutItems(outbox, items).Keys == outbox.Keys + Bodies(items).Keys
  {
    hide ItemsOk, PutItems, Bodies;
    BoundUnchanged(env, h, t, items);
    ItemKeys(env, h, t, items);
    forall k
      ensures k in PutItems(outbox, items) <==> k in outbox || k in Bodies(items)
      ensures k in Bodies(items) ==> PutItems(outbox, items)[k].key == k && PutItems(outbox, items)[k].body == Bodies(items)[k]
      ensures k in outbox && k !in Bodies(items) ==> PutItems(outbox, items)[k] == outbox[k] {
      PutItemsAt(outbox, items, k);
    }
  }

  lemma BindItemBound(env: Env, h: History, t: TripRecord, items: seq<Item>, i: Item)
    requires ItemsOk(env, h, t, items) && ItemBound(h, i)
    ensures ItemBound(Bind(h, t, items), i)
  {
    if i.key in Bodies(items) { ItemAt(env, h, t, items, i.key); }
  }

  lemma {:induction false} CommitDevice(env: Env, h: History, dev: Device, t: TripRecord, items: seq<Item>,
                                        trips: map<TripId, TripRecord>)
    requires DeviceOk(h, dev) && ItemsOk(env, h, t, items)
    requires forall id :: id in trips ==>
               trips[id].tripId == id
               && (if id == t.tripId then OpenTrip(Bind(h, t, items), trips[id])
                   else id in dev.trips && trips[id] == dev.trips[id])
    ensures DeviceOk(Bind(h, t, items), Device(dev.settings, trips, PutItems(dev.outbox, items)))
  {
    var h' := Bind(h, t, items);
    BindOutbox(env, h, t, items, dev.outbox);
    forall id | id in trips ensures OpenTrip(h', trips[id]) {
      if id != t.tripId { BindOtherTrip(env, h, t, items, trips[id]); }
    }
    hide ItemsOk, OpenTrip, OutboxOk;
  }

  lemma {:induction false} SavedTripOpen(h: History, t: TripRecord, items: seq<Item>, trip: TripRecord)
    requires OpenTrip(h, trip) && Fresh(h.bound + Bodies(items), trip)
    ensures OpenTrip(Bind(h, t, items), trip)
  {
    hide Fresh, TripOk, Knows;
  }

  lemma BindLogs(h: History, t: TripRecord, items: seq<Item>)
    requires LogsOk(h)
    ensures LogsOk(Bind(h, t, items))
    ensures forall m :: CurrentOk(h, m) ==> CurrentOk(Bind(h, t, items), m)
  {
    hide LogOk, Current;
  }

  // What a commit notes beside the bindings: the trip it starts, and the trip
  // it goes on to seal.
  lemma CommitNotes(env: Env, h: History, m: Memory, now: int, op: Pending)
    requires LogsOk(h) && (m.op.Finalizing? && m.op.next.ThenStart? ==> NewTrip(h, m.op.next.id))
    ensures var h' := Noted(env, h, m, Committed(now), op);
            && NotesMore(h, h') && h'.cleared == h.cleared + ClearedBy(env, Committed(now), op)
            && (forall id :: id in h.logs ==> id in h'.logs && h'.logs[id] == h.logs[id])
            && (m.op.Finalizing? && m.op.next.ThenStart? && m.CanUpload() ==>
                  && m.op.next.id in h'.logs
                  && h'.logs[m.op.next.id] == Log([Followed(now, m.op.next.route)], m.op.next.destination, []))
            && (!(m.op.Finalizing? && m.op.next.ThenStart?) && op.Idle? ==> h' == h)
  {
    hide Ready;
    var s := ClearedBy(env, Committed(now), op);
    assert h.cleared + {} == h.cleared;
    OnlyCleared(h, s);
    if m.op.Finalizing? && m.op.next.ThenStart? && m.CanUpload() {
      OneLogMore(h, m.op.next.id, Log([Followed(now, m.op.next.route)], m.op.next.destination, []), s);
    }
  }

  lemma {:induction false} SavedDevice(dev: Device, trip: TripRecord, items: seq<Item>)
    ensures Apply(dev, NO_OPS.(putTrips := [trip], putOutbox := items))
         == Device(dev.settings, dev.trips[trip.tripId := trip], PutItems(dev.outbox, items))
  {
    assert [trip][..0] == [];
    assert PutTrips(dev.trips, [trip]) - {} == dev.trips[trip.tripId := trip];
    assert PutItems(dev.outbox, items) - {} == PutItems(dev.outbox, items);
  }

  lemma SavingCommits(env: Env, token: TokenId, w: World, m: Memory, now: int)
    requires Inv(env, token, w) && w.mem == Some(m) && m.op.Saving?
    ensures Inv(env, token, DoRunning(env, token, w, m, Committed(now)))
  {
    hide BoundOk, ServerOk, DeviceOk, OutboxOk, OpenTrip, ItemsOk, Fresh, Apply, PutItems, Grows, LogsOk, CurrentOk, Noted;
    var Saving(ops, t, items) := m.op;
    var h, h' := w.hist, Bind(w.hist, m.op.record, m.op.items);
    var trip := m.trip.value;
    BindLogs(h, t, items);
    CommitNotes(env, h', m, now, Idle);
    BindBoundOk(env, h, t, items);
    BindServerOk(env, token, h, w.db, t, items);
    SavedTripOpen(h, t, items, trip);
    SavedDevice(w.dev, trip, items);
    DeviceTrips(h, w.dev);
    CommitDevice(env, h, w.dev, t, items, w.dev.trips[trip.tripId := trip]);
    BindOutbox(env, h, t, items, m.outbox);
    BindOutbox(env, h, t, items, w.dev.outbox);
    if !m.drain.Asleep? { BindItemBound(env, h, t, items, m.drain.item); }
    StillCurrent(h', m, Continue(env, m, now));
  }

  lemma StillCurrent(h: History, m: Memory, m': Memory)
    requires CurrentOk(h, m) && (m'.trip == m.trip || m'.trip == None)
    ensures CurrentOk(h, m')
  {
  }

  lemma FinalizingCommits(env: Env, token: TokenId, w: World, m: Memory, now: int)
    requires Inv(env, token, w) && w.mem == Some(m) && m.op.Finalizing?
    ensures Inv(env, token, DoRunning(env, token, w, m, Committed(now)))
  {
    hide BoundOk, ServerOk, DeviceOk, ItemsOk, ClearingOk, OutboxOk, OpenTrip, BeginStart, NextInit, LogsOk, CurrentOk, Noted,
         NotesMore, NewTrip;
    var Finalizing(ops, t, items, next) := m.op;
    var h, h1 := w.hist, Bind(w.hist, m.op.record, m.op.items);
    var trips := w.dev.trips - {t.tripId};
    BindLogs(h, t, items);
    BindBoundOk(env, h, t, items);
    BindServerOk(env, token, h, w.db, t, items);
    DeviceTrips(h, w.dev);
    CommitDevice(env, h, w.dev, t, items, trips);
    var dev' := Device(w.dev.settings, trips, PutItems(w.dev.outbox, items));
    assert dev' == Apply(w.dev, ops) by { assert PutItems(w.dev.outbox, items) - {} == PutItems(w.dev.outbox, items); }
    var m1 := m.(op := Idle, outbox := PutItems(m.outbox, items),
                 trip := if m.trip.Some? && m.trip.value.tripId == t.tripId then None else m.trip);
    FinalizedMemory(env, h, w.dev, m, m1, dev');
    StillCurrent(h1, m, m1);
    if next.ThenStart? { BindNewTrip(env, h, t, items, next.id); }
    InitNext(env, h, w.dev, m, dev', trips);
    var m' := Continue(env, m, now);
    FinalizedNext(env, h1, dev', m, m1, now);
    var h2 := Noted(env, h1, m, Committed(now), m'.op);
    hide MemoryOk;
    CommitNotes(env, h1, m, now, m'.op);
    BoundMore(env, h1, h2);
    DeviceMore(h1, h2, dev');
    ServerMore(token, h1, h2, w.db);
    NotedLogs(h1, h2);
    FinalizedDrain(token, h, w.db, m, m');
  }

  lemma NotedLogs(h: History, h': History)
    requires NotesMore(h, h')
    ensures LogsOk(h')
  {
  }

  // The trips still to be ended are those left in storage.
  lemma InitNext(env: Env, h: History, dev: Device, m: Memory, dev': Device, trips: map<TripId, TripRecord>)
    requires OpOk(env, h, dev, m) && m.op.Finalizing? && trips == dev.trips - {m.op.record.tripId} && dev'.trips == trips
    ensures m.op.next.ThenInit? ==> Enumerates(m.op.next.rest, dev'.trips) && m.trip.None?
  {
    hide ItemsOk;
  }

  // What follows the finalization, with what is noted of it.
  lemma FinalizedNext(env: Env, h1: History, dev': Device, m: Memory, m1: Memory, now: int)
    requires m.op.Finalizing?
    requires m1 == m.(op := Idle, outbox := PutItems(m.outbox, m.op.items),
                      trip := if m.trip.Some? && m.trip.value.tripId == m.op.record.tripId then None else m.trip)
    requires LogsOk(h1) && BoundOk(env, h1) && DeviceOk(h1, dev') && MemoryOk(env, h1, dev', m1) && CurrentOk(h1, m1)
    requires m.op.next.ThenStart? ==> NewTrip(h1, m.op.next.id)
    requires m.op.next.ThenInit? ==> Enumerates(m.op.next.rest, dev'.trips) && m.trip.None?
    ensures var m' := Continue(env, m, now);
            var h2 := Noted(env, h1, m, Committed(now), m'.op);
            MemoryOk(env, h2, dev', m') && CurrentOk(h2, m') && m'.drain == m.drain
  {
    hide BoundOk, DeviceOk, OutboxOk, OpenTrip, BeginStart, NextInit, LogsOk, Noted, MemoryOk, PutItems, Current, Enumerates;
    var m' := Continue(env, m, now);
    var h2 := Noted(env, h1, m, Committed(now), m'.op);
    CommitNotes(env, h1, m, now, m'.op);
    BoundMore(env, h1, h2);
    DeviceMore(h1, h2, dev');
    MemoryMore(env, h1, h2, dev', m1);
    IdleAgain(env, h2, dev', m1);
    match m.op.next {
      case Nothing =>
      case ThenStart(id, route, destination) =>
        BeginStartOk(env, h2, dev', m1, id, route, destination, now);
        StartKeepsDrain(m1, id, route, destination, now);
      case ThenInit(rest) =>
        if rest != [] { InitClears(env, rest, now, Committed(now)); }
        InitContinues(env, h2, dev', m1, rest, now);
    }
  }

  // A launch that goes on to end the first orphan notes whether it cleared.
  lemma InitClears(env: Env, rest: seq<TripRecord>, now: int, e: Event)
    requires rest != []
    ensures ClearedBy(env, e, NextInit(env, rest, now)) == if Ready(env, rest[0]) != [] then {rest[0].tripId} else {}
  {
    FinalizingClears(env, rest[0], false, rest[0].startedAt, now, ThenInit(rest[1..]), e);
    hide BeginFinalize, Ready, ClearedBy;
  }

  lemma DeviceTrips(h: History, dev: Device)
    requires DeviceOk(h, dev)
    ensures OutboxOk(h, dev.outbox) && forall id :: id in dev.trips ==> dev.trips[id].tripId == id
  {
  }

  lemma IdleAgain(env: Env, h: History, dev: Device, m: Memory)
    requires m.op == Idle
    ensures m.(op := Idle) == m
  {
  }

  lemma StartKeepsDrain(m: Memory, id: TripId, route: Artifact, destination: Option<Place>, now: int)
    ensures BeginStart(m, id, route, destination, now).drain == m.drain
  {
  }

  lemma FinalizedMemory(env: Env, h: History, dev: Device, m: Memory, m1: Memory, dev': Device)
    requires MemoryOk(env, h, dev, m) && m.op.Finalizing?
    requires m1 == m.(op := Idle, outbox := PutItems(m.outbox, m.op.items),
                      trip := if m.trip.Some? && m.trip.value.tripId == m.op.record.tripId then None else m.trip)
    requires dev'.outbox == PutItems(dev.outbox, m.op.items) && OutboxOk(h, dev.outbox)
    ensures MemoryOk(env, Bind(h, m.op.record, m.op.items), dev', m1)
  {
    var t, items := m.op.record, m.op.items;
    BindOutbox(env, h, t, items, m.outbox);
    BindOutbox(env, h, t, items, dev.outbox);
    if m1.trip.Some? { BindOtherTrip(env, h, t, items, m1.trip.value); }
    if !m.drain.Asleep? { BindItemBound(env, h, t, items, m.drain.item); }
    hide OutboxOk, OpenTrip, ItemsOk;
  }

  lemma FinalizedDrain(token: TokenId, h: History, db: Db, m: Memory, m': Memory)
    requires ClearingOk(token, h, db, m) && m'.drain == m.drain
    ensures forall h' :: ClearingOk(token, h', db, m')
  {
  }

  lemma InitContinues(env: Env, h: History, dev: Device, m: Memory, rest: seq<TripRecord>, now: int)
    requires BoundOk(env, h) && DeviceOk(h, dev) && MemoryOk(env, h, dev, m.(op := Idle)) && m.trip.None?
    requires Enumerates(rest, dev.trips)
    requires rest != [] && Ready(env, rest[0]) != [] ==> rest[0].tripId in h.cleared
    ensures var m' := m.(op := NextInit(env, rest, now)); MemoryOk(env, h, dev, m') && CurrentOk(h, m')
  {
    hide OpenTrip, OutboxOk, BoundOk, OpOk, DeviceOk, Enumerates, BeginFinalize, Ready;
    if rest != [] {
      FirstOrphan(h, dev, rest);
      BeginFinalizeOk(env, h, dev, m, rest[0], false, rest[0].startedAt, now, ThenInit(rest[1..]));
    } else {
      NothingPending(env, h, dev, m);
    }
  }

  lemma FirstOrphan(h: History, dev: Device, rest: seq<TripRecord>)
    requires DeviceOk(h, dev) && Enumerates(rest, dev.trips) && rest != []
    ensures OpenTrip(h, rest[0]) && Enumerates(rest[1..], dev.trips)
    ensures forall i :: 0 <= i < |rest[1..]| ==> rest[1..][i].tripId != rest[0].tripId
  {
    hide OpenTrip, OutboxOk;
    assert forall i :: 0 <= i < |rest[1..]| ==> rest[1..][i] == rest[i + 1];
  }

  lemma NothingPending(env: Env, h: History, dev: Device, m: Memory)
    ensures OpOk(env, h, dev, m.(op := Idle))
  {
  }

  lemma ConfiguringCommits(env: Env, token: TokenId, w: World, m: Memory, now: int)
    requires Inv(env, token, w) && w.mem == Some(m) && m.op.Configuring?
    ensures Inv(env, token, DoRunning(env, token, w, m, Committed(now)))
  {
    hide BoundOk, ServerOk, DeviceOk, OutboxOk, OpenTrip, LogsOk, CurrentOk, Noted, NotesMore, Ready, FinalizeOpen, ClearingOk;
    var h, dev' := w.hist, Apply(w.dev, m.op.ops);
    var m' := Continue(env, m, now);
    var h' := Noted(env, h, m, Committed(now), m'.op);
    assert PutTrips(w.dev.trips, []) - {} == w.dev.trips;
    assert PutItems(w.dev.outbox, []) - {} == w.dev.outbox;
    assert h.forgotten + {} == h.forgotten;
    var m0 := m.(op := Idle);
    assert MemoryOk(env, h, dev', m0);
    CommitNotes(env, h, m, now, m'.op);
    BoundMore(env, h, h');
    SameDevice(h, w.dev, dev');
    DeviceMore(h, h', dev');
    ServerMore(token, h, h', w.db);
    NotedLogs(h, h');
    MemoryMore(env, h, h', dev', m0);
    SameCurrent(h, h', m, m0);
    if m.op.disabling && m.trip.Some? {
      EndsOp(env, m, false, now, Nothing, Committed(now));
      hide MemoryOk;
      SameCurrent(h, h', m, m);
      FinalizeOpenOk(env, h', dev', m, false, now, Nothing);
      EndKeepsDrain(env, m, false, now);
    }
    FinalizedDrain(token, h, w.db, m, m');
  }

  lemma EndKeepsDrain(env: Env, m: Memory, arrived: bool, now: int)
    requires m.trip.Some?
    ensures FinalizeOpen(env, m, arrived, now, Nothing).drain == m.drain
  {
  }

  lemma SameDevice(h: History, dev: Device, dev': Device)
    requires DeviceOk(h, dev) && dev'.trips == dev.trips && dev'.outbox == dev.outbox
    ensures DeviceOk(h, dev')
  {
    hide OpenTrip, OutboxOk;
  }

  lemma SameCurrent(h: History, h': History, m: Memory, m': Memory)
    requires CurrentOk(h, m) && m'.trip == m.trip
    requires forall id :: id in h.logs ==> id in h'.logs && h'.logs[id] == h.logs[id]
    ensures CurrentOk(h', m')
  {
    hide Current;
  }

  lemma ForgettingCommits(env: Env, token: TokenId, w: World, m: Memory, now: int)
    requires Inv(env, token, w) && w.mem == Some(m) && m.op.Forgetting?
    ensures Inv(env, token, DoRunning(env, token, w, m, Committed(now)))
  {
    hide LogOk, Discloses, OpenTrip, LogsOk, Noted, ClearingOk;
    var ops := m.op.ops;
    var h' := w.hist.(forgotten := w.hist.forgotten + ops.deleteOutbox);
    ForgottenBound(env, w.hist, h');
    assert ServerOk(token, h', w.db);
    CommitNotes(env, h', m, now, Idle);
    hide BoundOk, ServerOk, OutboxOk;
    Emptied(w.hist, w.dev, ops);
    NoOutbox(h');
    FinalizedDrain(token, w.hist, w.db, m, Continue(env, m, now));
  }

  lemma NoOutbox(h: History)
    ensures OutboxOk(h, map[])
  {
  }

  lemma ForgottenBound(env: Env, h: History, h': History)
    requires BoundOk(env, h) && LogsOk(h) && h' == h.(forgotten := h'.forgotten)
    ensures BoundOk(env, h') && LogsOk(h')
  {
    hide Discloses, LogOk;
    forall k | k in h'.bound ensures Discloses(env, h', h'.source[k], k, h'.bound[k]) {
      SameDisclosure(env, h, h', h'.source[k], k, h'.bound[k]);
    }
  }

  lemma Emptied(h: History, dev: Device, ops: StorageOps)
    requires DeviceOk(h, dev) && ops.putTrips == [] && ops.putOutbox == []
    requires dev.trips.Keys <= ops.deleteTrips && dev.outbox.Keys <= ops.deleteOutbox
    ensures Apply(dev, ops).trips == map[] && Apply(dev, ops).outbox == map[]
    ensures DeviceOk(h.(forgotten := h.forgotten + ops.deleteOutbox), Apply(dev, ops))
  {
    assert Apply(dev, ops).trips == map[] && Apply(dev, ops).outbox == map[];
  }

  // ------------------------------------------------------- the server's steps

  // A request of ours is never refused, wherever and whenever it arrives.
  lemma HandledOk(token: TokenId, h: History, db: Db, k: Key, body: Body, now: int)
    requires ServerOk(token, h, db) && (k, body) in h.sent && Store.Fits(k, body)
    ensures var (db', o) := Handle(db, token, k, body, now);
            && ServerOk(token, h, db') && Grows(db, db') && (o == Created || o == Replayed)
            && Store.Holds(db', token, k, body)
  {
    HandleOutcome(db, token, k, body, now);
    var (db', o) := Handle(db, token, k, body, now);
    assert h.bound[k] == body;
    forall k' | Stored(db', k') ensures k' in h.bound && StoredDigest(db', k') == Digest(h.bound[k']) {
      if k' != k { assert Stored(db, k'); }
    }
    forall k' | k' in h.acked ensures k' in h.bound && Store.Holds(db', token, k', h.bound[k']) {
      assert Store.Holds(db, token, k', h.bound[k']);
    }
    hide Handle;
  }

  lemma PurgedOk(token: TokenId, h: History, db: Db, now: int, days: nat)
    requires ServerOk(token, h, db)
    ensures ServerOk(token, h, Purge(db, now, days)) && Grows(db, Purge(db, now, days))
  {
    PurgeGrows(db, now, days);
    var db' := Purge(db, now, days);
    forall k | Stored(db', k) ensures k in h.bound && StoredDigest(db', k) == Digest(h.bound[k]) {
      assert Stored(db, k);
    }
  }

  lemma HoldsGrows(token: TokenId, db: Db, db': Db, k: Key, body: Body)
    requires Grows(db, db') && Store.Holds(db, token, k, body)
    ensures Store.Holds(db', token, k, body)
  {
  }

  // ------------------------------------------------------- every step

  // What no step ever takes back: bindings, requests on the network,
  // acknowledgements, and rows of the server but for their bodies.
  ghost predicate Evolves(w: World, w': World) {
    && (forall k :: k in w.hist.bound ==> k in w'.hist.bound && w'.hist.bound[k] == w.hist.bound[k])
    && w.hist.sent <= w'.hist.sent && w.hist.acked <= w'.hist.acked && w.hist.used <= w'.hist.used
    && w.hist.cleared <= w'.hist.cleared
    && Grows(w.db, w'.db)
  }

  lemma EvolvesTrans(a: World, b: World, c: World)
    requires Evolves(a, b) && Evolves(b, c)
    ensures Evolves(a, c)
  {
    GrowsTrans(a.db, b.db, c.db);
    hide Grows;
  }

  lemma GrowsSelf(db: Db)
    ensures Grows(db, db)
  {
  }

  lemma LaunchOk(env: Env, token: TokenId, w: World, order: seq<TripRecord>, now: int)
    requires Inv(env, token, w)
    ensures Inv(env, token, Do(env, token, w, Launch(order, now)))
  {
    hide BoundOk, ServerOk, OpenTrip, NextInit, OutboxOk, LogsOk, CurrentOk, NotesMore, DeviceOk, Ready, ClearedBy, Enumerates;
    if w.mem.None? && Enumerates(order, w.dev.trips) {
      var m := Memory(w.dev.settings, None, w.dev.outbox, Idle, Asleep);
      var s := ClearedBy(env, Launch(order, now), NextInit(env, order, now));
      var h' := w.hist.(cleared := w.hist.cleared + s);
      OnlyCleared(w.hist, s);
      LaunchMore(env, token, w, h');
      if order != [] { InitClears(env, order, now, Launch(order, now)); }
      DeviceTrips(h', w.dev);
      assert MemoryOk(env, h', w.dev, m);
      InitContinues(env, h', w.dev, m, order, now);
      assert m.(op := NextInit(env, order, now))
          == Memory(w.dev.settings, None, w.dev.outbox, NextInit(env, order, now), Asleep);
    }
  }

  lemma LaunchMore(env: Env, token: TokenId, w: World, h': History)
    requires Inv(env, token, w) && NotesMore(w.hist, h')
    ensures LogsOk(h') && BoundOk(env, h') && DeviceOk(h', w.dev) && ServerOk(token, h', w.db)
  {
    hide BoundOk, ServerOk, LogsOk, CurrentOk, NotesMore, DeviceOk, MemoryOk, ClearingOk;
    NotedLogs(w.hist, h');
    BoundMore(env, w.hist, h');
    DeviceMore(w.hist, h', w.dev);
    ServerMore(token, w.hist, h', w.db);
  }

  lemma OperationOk(env: Env, token: TokenId, w: World, m: Memory, e: Event)
    requires Inv(env, token, w) && w.mem == Some(m) && IsOperation(e) && m.op.Idle?
    requires e.Start? ==> e.id !in w.hist.used
    ensures Inv(env, token, DoRunning(env, token, w, m, e))
  {
    hide BoundOk, DeviceOk, ServerOk, MemoryOk, LogsOk, CurrentOk, NotesMore, ClearingOk, Noted, Operate;
    OperateOk(env, w.hist, w.dev, m, e);
    var m' := Operate(env, m, w.dev, e);
    LaunchMore(env, token, w, Noted(env, Using(w.hist, e), m, e, m'.op));
    OperateKeepsDrain(env, m, w.dev, e);
    FinalizedDrain(token, w.hist, w.db, m, m');
  }

  lemma OperateKeepsDrain(env: Env, m: Memory, dev: Device, e: Event)
    requires m.op.Idle?
    ensures Operate(env, m, dev, e).drain == m.drain
  {
  }

  lemma RunningOk(env: Env, token: TokenId, w: World, m: Memory, e: Event)
    requires Inv(env, token, w) && w.mem == Some(m) && !IsOperation(e) && !e.Committed?
    requires !e.Launch? && !e.Kill? && !e.Delivered? && !e.Purged?
    ensures Inv(env, token, DoRunning(env, token, w, m, e)) && Grows(w.db, DoRunning(env, token, w, m, e).db)
  {
    hide Inv, Grows, DoRunning;
    match e
    case Aborted => AbortedOk(env, token, w, m);
    case Send(k) => SendOk(env, token, w, m, k);
    case Answered(now) => AnsweredOk(env, token, w, m, now);
    case Failed(why) => FailedOk(env, token, w, m, why);
    case Cleared(ok) => ClearedOk(env, token, w, m, ok);
  }

  lemma AbortedOk(env: Env, token: TokenId, w: World, m: Memory)
    requires Inv(env, token, w) && w.mem == Some(m)
    ensures var w' := DoRunning(env, token, w, m, Aborted); Inv(env, token, w') && Grows(w.db, w'.db)
  {
    hide BoundOk, DeviceOk, ServerOk, ItemsOk, Fresh, Grows, LogsOk, Current;
    GrowsSelf(w.db);
  }

  lemma AnsweredOk(env: Env, token: TokenId, w: World, m: Memory, now: int)
    requires Inv(env, token, w) && w.mem == Some(m)
    ensures var w' := DoRunning(env, token, w, m, Answered(now)); Inv(env, token, w') && Grows(w.db, w'.db)
  {
    hide BoundOk, DeviceOk, ServerOk, Handle, OpOk, Grows, LogsOk, Current, OpenTrip;
    GrowsSelf(w.db);
    if m.drain.Sending? && Store.Fits(m.drain.item.key, m.drain.item.body) {
      HandledOk(token, w.hist, w.db, m.drain.item.key, m.drain.item.body, now);
      DrainIrrelevant(env, w.hist, w.dev, m, m.(drain := Clearing(m.drain.item, true)));
      DrainIrrelevant(env, w.hist, w.dev, m, m.(drain := Clearing(m.drain.item, false)));
      assert w.hist.(refused := w.hist.refused) == w.hist;
    }
  }

  // Histories that bind the same bodies satisfy the same conditions.
  lemma SameBindings(env: Env, h: History, h': History, dev: Device, dev': Device, m: Memory)
    requires h'.bound == h.bound && h'.source == h.source && h'.used == h.used && dev'.trips == dev.trips
    requires h'.logs == h.logs && h'.cleared == h.cleared
    requires dev'.outbox.Keys <= dev.outbox.Keys
    ensures BoundOk(env, h) ==> BoundOk(env, h')
    ensures forall t :: OpenTrip(h, t) ==> OpenTrip(h', t)
    ensures forall o :: OutboxOk(h, o) ==> OutboxOk(h', o)
    ensures OpOk(env, h, dev, m) ==> OpOk(env, h', dev', m)
    ensures forall i :: ItemBound(h, i) ==> ItemBound(h', i)
  {
    hide TripOk, Fresh, Knows, Discloses, BoundOk;
    forall t, items ensures ItemsOk(env, h, t, items) ==> ItemsOk(env, h', t, items) { SameItems(env, h, h', t, items); }
    SameBound(env, h, h');
    hide ItemsOk, OutboxOk;
  }

  lemma SameItems(env: Env, h: History, h': History, t: TripRecord, items: seq<Item>)
    requires h'.bound == h.bound && h'.used == h.used && h'.logs == h.logs && h'.cleared == h.cleared
    ensures ItemsOk(env, h, t, items) ==> ItemsOk(env, h', t, items)
  {
    hide Discloses;
    forall k, b ensures Discloses(env, h, t, k, b) ==> Discloses(env, h', t, k, b) { SameDisclosure(env, h, h', t, k, b); }
  }

  lemma SameBound(env: Env, h: History, h': History)
    requires h'.bound == h.bound && h'.source == h.source && h'.used == h.used && h'.logs == h.logs && h'.cleared == h.cleared
    ensures BoundOk(env, h) ==> BoundOk(env, h')
  {
    hide Discloses;
    forall t, k, b ensures Discloses(env, h, t, k, b) ==> Discloses(env, h', t, k, b) { SameDisclosure(env, h, h', t, k, b); }
  }

  lemma SendOk(env: Env, token: TokenId, w: World, m: Memory, k: Key)
    requires Inv(env, token, w) && w.mem == Some(m)
    ensures var w' := DoRunning(env, token, w, m, Send(k)); Inv(env, token, w') && Grows(w.db, w'.db)
  {
    hide BoundOk, OpenTrip, ItemsOk, Fresh, OpOk, Grows, LogOk, Current;
    GrowsSelf(w.db);
    if m.drain == Asleep && m.CanUpload() && k in m.outbox {
      var item := m.outbox[k];
      var h' := w.hist.(sent := w.hist.sent + {(item.key, item.body)});
      SameBindings(env, w.hist, h', w.dev, w.dev, m);
      DrainIrrelevant(env, h', w.dev, m, m.(drain := Sending(item)));
    }
  }

  lemma FailedOk(env: Env, token: TokenId, w: World, m: Memory, why: Failure)
    requires Inv(env, token, w) && w.mem == Some(m)
    ensures var w' := DoRunning(env, token, w, m, Failed(why)); Inv(env, token, w') && Grows(w.db, w'.db)
  {
    hide BoundOk, ServerOk, ItemsOk, OpenTrip, Fresh, Grows, LogsOk, Current;
    GrowsSelf(w.db);
  }

  lemma ClearedOk(env: Env, token: TokenId, w: World, m: Memory, ok: bool)
    requires Inv(env, token, w) && w.mem == Some(m)
    ensures var w' := DoRunning(env, token, w, m, Cleared(ok)); Inv(env, token, w') && Grows(w.db, w'.db)
  {
    hide BoundOk, DeviceOk, ServerOk, ItemsOk, OpenTrip, Fresh, Grows, LogsOk, Current;
    GrowsSelf(w.db);
    if m.drain.Clearing? && ok {
      ClearedItem(env, token, w, m);
    }
  }

  lemma ClearedItem(env: Env, token: TokenId, w: World, m: Memory)
    requires Inv(env, token, w) && w.mem == Some(m) && m.drain.Clearing?
    ensures Inv(env, token, DoRunning(env, token, w, m, Cleared(true)))
  {
    hide BoundOk, OpenTrip, ItemsOk, Fresh, OpOk, OutboxOk, Store.Holds, LogOk, Current;
    var k := m.drain.item.key;
    var h := w.hist;
    var h' := if m.drain.acked then h.(acked := h.acked + {k}) else h.(dropped := h.dropped + {k});
    var dev' := w.dev.(outbox := w.dev.outbox - {k});
    var m' := m.(drain := Asleep, outbox := m.outbox - {k});
    SameBindings(env, h, h', w.dev, dev', m);
    FewerItems(h', w.dev.outbox, k);
    FewerItems(h', m.outbox, k);
    assert DeviceOk(h', dev');
    assert ServerOk(token, h', w.db);
    DrainIrrelevant(env, h', dev', m, m');
    assert MemoryOk(env, h', dev', m');
  }

  lemma FewerItems(h: History, outbox: map<Key, Item>, k: Key)
    requires OutboxOk(h, outbox)
    ensures OutboxOk(h, outbox - {k})
  {
  }

  lemma DrainIrrelevant(env: Env, h: History, dev: Device, m: Memory, m': Memory)
    requires OpOk(env, h, dev, m) && m'.op == m.op && m'.trip == m.trip
    ensures OpOk(env, h, dev, m')
  {
    hide ItemsOk, Fresh;
  }

  // The invariant holds after every step, and every step only adds.
  lemma StepOk(env: Env, token: TokenId, w: World, e: Event)
    requires Inv(env, token, w)
    ensures Inv(env, token, Do(env, token, w, e)) && Evolves(w, Do(env, token, w, e))
  {
    StepInv(env, token, w, e);
    StepEvolves(env, token, w, e);
  }

  lemma StepInv(env: Env, token: TokenId, w: World, e: Event)
    requires Inv(env, token, w)
    ensures Inv(env, token, Do(env, token, w, e))
  {
    hide Inv, DoRunning;
    match e
    case Launch(order, now) => LaunchOk(env, token, w, order, now);
    case Kill => KilledOk(env, token, w);
    case Delivered(k, body, now) => DeliveredOk(env, token, w, k, body, now);
    case Purged(now, days) => PurgedInv(env, token, w, now, days);
    case _ =>
      if w.mem.Some? { RunningInv(env, token, w, w.mem.value, e); }
  }

  lemma KilledOk(env: Env, token: TokenId, w: World)
    requires Inv(env, token, w)
    ensures Inv(env, token, Do(env, token, w, Kill))
  {
    hide LogsOk, BoundOk, DeviceOk, ServerOk, MemoryOk, CurrentOk, ClearingOk;
  }

  lemma DeliveredOk(env: Env, token: TokenId, w: World, k: Key, body: Body, now: int)
    requires Inv(env, token, w)
    ensures Inv(env, token, Do(env, token, w, Delivered(k, body, now)))
  {
    hide LogsOk, BoundOk, DeviceOk, ServerOk, MemoryOk, CurrentOk, ClearingOk, Handle;
    if (k, body) in w.hist.sent && Store.Fits(k, body) {
      HandledOk(token, w.hist, w.db, k, body, now);
      DrainStillHeld(token, w, Handle(w.db, token, k, body, now).0);
    }
  }

  lemma PurgedInv(env: Env, token: TokenId, w: World, now: int, days: nat)
    requires Inv(env, token, w)
    ensures Inv(env, token, Do(env, token, w, Purged(now, days)))
  {
    hide LogsOk, BoundOk, DeviceOk, ServerOk, MemoryOk, CurrentOk, ClearingOk, Purge;
    PurgedOk(token, w.hist, w.db, now, days);
    DrainStillHeld(token, w, Purge(w.db, now, days));
  }

  lemma RunningInv(env: Env, token: TokenId, w: World, m: Memory, e: Event)
    requires Inv(env, token, w) && w.mem == Some(m)
    requires !e.Launch? && !e.Kill? && !e.Delivered? && !e.Purged?
    ensures Inv(env, token, DoRunning(env, token, w, m, e))
  {
    hide Inv;
    if IsOperation(e) {
      if m.op.Idle? && (e.Start? ==> e.id !in w.hist.used) {
        OperationOk(env, token, w, m, e);
      }
    } else if e.Committed? {
      match m.op
      case Idle => NothingCommits(env, token, w, m, e.now);
      case Saving(_, _, _) => SavingCommits(env, token, w, m, e.now);
      case Configuring(_, _) => ConfiguringCommits(env, token, w, m, e.now);
      case Finalizing(_, _, _, _) => FinalizingCommits(env, token, w, m, e.now);
      case Forgetting(_) => ForgettingCommits(env, token, w, m, e.now);
    } else {
      RunningOk(env, token, w, m, e);
    }
  }

  lemma NothingCommits(env: Env, token: TokenId, w: World, m: Memory, now: int)
    requires Inv(env, token, w) && w.mem == Some(m) && m.op.Idle?
    ensures DoRunning(env, token, w, m, Committed(now)) == w
  {
    hide Inv, Ready;
    assert PutTrips(w.dev.trips, []) - {} == w.dev.trips;
    assert PutItems(w.dev.outbox, []) - {} == w.dev.outbox;
    assert w.hist.forgotten + {} == w.hist.forgotten;
    assert w.hist.cleared + {} == w.hist.cleared;
  }

  lemma DrainStillHeld(token: TokenId, w: World, db': Db)
    requires Grows(w.db, db')
    ensures w.mem.Some? && ClearingOk(token, w.hist, w.db, w.mem.value) ==> ClearingOk(token, w.hist, db', w.mem.value)
  {
    if w.mem.Some? && ClearingOk(token, w.hist, w.db, w.mem.value) && w.mem.value.drain.Clearing? && w.mem.value.drain.acked {
      HoldsGrows(token, w.db, db', w.mem.value.drain.item.key, w.mem.value.drain.item.body);
    }
  }

  lemma StepEvolves(env: Env, token: TokenId, w: World, e: Event)
    requires Inv(env, token, w)
    ensures Evolves(w, Do(env, token, w, e))
  {
    hide Inv, Grows, Handle, Purge, DoRunning, NextInit, Enumerates;
    GrowsSelf(w.db);
    match e {
      case Delivered(k, body, now) => ServedGrows(env, token, w, k, body, now);
      case Purged(now, days) => PurgeGrows(w.db, now, days);
      case Launch(_, _) =>
      case Kill =>
      case _ =>
        if w.mem.Some? { RunningEvolves(env, token, w, w.mem.value, e); }
    }
  }

  lemma ServedGrows(env: Env, token: TokenId, w: World, k: Key, body: Body, now: int)
    requires Inv(env, token, w)
    ensures (k, body) in w.hist.sent && Store.Fits(k, body) ==> Grows(w.db, Handle(w.db, token, k, body, now).0)
  {
    hide Handle, Grows, BoundOk, DeviceOk, ServerOk, MemoryOk, ClearingOk;
    if (k, body) in w.hist.sent && Store.Fits(k, body) { HandledOk(token, w.hist, w.db, k, body, now); }
  }

  lemma RunningEvolves(env: Env, token: TokenId, w: World, m: Memory, e: Event)
    requires Inv(env, token, w) && w.mem == Some(m)
    requires !e.Launch? && !e.Kill? && !e.Delivered? && !e.Purged?
    ensures Evolves(w, DoRunning(env, token, w, m, e))
  {
    hide Inv, Grows, Handle, Operate, Continue, Apply;
    GrowsSelf(w.db);
    if e.Committed? {
      CommitEvolves(env, token, w, m, e.now);
    } else if !IsOperation(e) {
      RunningOk(env, token, w, m, e);
    }
  }

  lemma CommitEvolves(env: Env, token: TokenId, w: World, m: Memory, now: int)
    requires Inv(env, token, w) && w.mem == Some(m)
    ensures Evolves(w, DoRunning(env, token, w, m, Committed(now)))
  {
    hide Inv, Grows, Continue, Apply, Bodies;
    GrowsSelf(w.db);
    if RecordOf(m.op).Some? {
      PendingItems(env, token, w, m);
      BoundUnchanged(env, w.hist, RecordOf(m.op).value, ItemsOf(m.op));
    }
  }

  lemma PendingItems(env: Env, token: TokenId, w: World, m: Memory)
    requires Inv(env, token, w) && w.mem == Some(m) && RecordOf(m.op).Some?
    ensures ItemsOk(env, w.hist, RecordOf(m.op).value, ItemsOf(m.op))
  {
    hide BoundOk, DeviceOk, ServerOk, OutboxOk, OpenTrip, ItemsOk;
  }

  // --------------------------------------------------------------- every run

  // Any sequence of events, from a fresh phone and an empty server.
  ghost function After(env: Env, token: TokenId, events: seq<Event>): World {
    if events == [] then EMPTY
    else Do(env, token, After(env, token, events[..|events| - 1]), events[|events| - 1])
  }

  lemma {:induction false} AlwaysInv(env: Env, token: TokenId, events: seq<Event>)
    ensures Inv(env, token, After(env, token, events))
  {
    if events != [] {
      hide Inv, Do;
      AlwaysInv(env, token, events[..|events| - 1]);
      StepInv(env, token, After(env, token, events[..|events| - 1]), events[|events| - 1]);
    }
  }

  lemma {:induction false} OnlyEvolves(env: Env, token: TokenId, events: seq<Event>, n: nat)
    requires n <= |events|
    ensures Evolves(After(env, token, events[..n]), After(env, token, events))
    decreases |events|
  {
    if n == |events| {
      assert events[..n] == events;
      GrowsSelf(After(env, token, events).db);
    } else {
      var before := events[..|events| - 1];
      hide Evolves, Inv, Do;
      OnlyEvolves(env, token, before, n);
      assert before[..n] == events[..n];
      AlwaysInv(env, token, before);
      StepOk(env, token, After(env, token, before), events[|events| - 1]);
      EvolvesTrans(After(env, token, events[..n]), After(env, token, before), After(env, token, events));
    }
  }

  // ------------------------------------------------------- the guarantees

  // Whatever happened: no request is ever answered with a conflict or a trip
  // that is not ours, now or if it is delivered again later.
  lemma {:induction false} NeverRefused(env: Env, token: TokenId, events: seq<Event>)
    ensures !After(env, token, events).hist.refused
    ensures forall k, b, now :: (k, b) in After(env, token, events).hist.sent && Store.Fits(k, b) ==>
              Handle(After(env, token, events).db, token, k, b, now).1 in {Created, Replayed}
  {
    AlwaysInv(env, token, events);
    var w := After(env, token, events);
    forall k, b, now | (k, b) in w.hist.sent && Store.Fits(k, b)
      ensures Handle(w.db, token, k, b, now).1 in {Created, Replayed} {
      HandledOk(token, w.hist, w.db, k, b, now);
    }
    hide Handle;
  }

  // Each (trip, seq) and each trip end is bound to one body for good, every
  // request and every queued item carries it, and the server's rows change
  // only by losing their bodies.
  lemma {:induction false} OneBodyPerKey(env: Env, token: TokenId, events: seq<Event>, n: nat)
    requires n <= |events|
    ensures var early, late := After(env, token, events[..n]), After(env, token, events);
            && Grows(early.db, late.db)
            && (forall k :: k in early.hist.bound ==> k in late.hist.bound && late.hist.bound[k] == early.hist.bound[k])
            && (forall k, b :: (k, b) in early.hist.sent ==> k in late.hist.bound && late.hist.bound[k] == b)
            && (forall k :: k in late.dev.outbox ==> k in late.hist.bound && late.hist.bound[k] == late.dev.outbox[k].body)
  {
    OnlyEvolves(env, token, events, n);
    AlwaysInv(env, token, events);
    AlwaysInv(env, token, events[..n]);
    hide BoundOk, MemoryOk, OpenTrip, Grows, Store.Holds, Stored, After;
  }

  // What was acknowledged is held under its sealed digest, at that moment and
  // ever after; retrying it, even after a purge, is a replay that stores
  // nothing.
  lemma {:induction false} AcknowledgedIsHeld(env: Env, token: TokenId, events: seq<Event>, n: nat, k: Key, now: int)
    requires n <= |events| && k in After(env, token, events[..n]).hist.acked
    ensures var early, late := After(env, token, events[..n]), After(env, token, events);
            && k in early.hist.bound && Store.Fits(k, early.hist.bound[k])
            && Store.Holds(late.db, token, k, early.hist.bound[k])
            && Handle(late.db, token, k, early.hist.bound[k], now) == (late.db, Replayed)
  {
    OnlyEvolves(env, token, events, n);
    AlwaysInv(env, token, events[..n]);
    var early := After(env, token, events[..n]);
    assert Store.Holds(early.db, token, k, early.hist.bound[k]) && Store.Fits(k, early.hist.bound[k]) by {
      hide ValidBody, Private, MemoryOk;
    }
    RetryReplays(early.db, After(env, token, events).db, token, k, early.hist.bound[k], now);
  }

  // A sealed request waits in storage until it is acknowledged, dropped on a
  // permanent answer, or deleted by the user: it is never lost.
  lemma {:induction false} NothingLost(env: Env, token: TokenId, events: seq<Event>, k: Key)
    requires k in After(env, token, events).hist.bound
    ensures var w := After(env, token, events);
            k in w.dev.outbox || k in w.hist.acked || k in w.hist.dropped || k in w.hist.forgotten
  {
    AlwaysInv(env, token, events);
    hide BoundOk, ServerOk, MemoryOk, OutboxOk, OpenTrip;
  }

  // Everything that ever enters the outbox passes the server's validators and
  // keeps clear of private points: those its record held when it was sealed,
  // which are both ends of the route the trip started on, its destination,
  // the end of every route that had replaced another and the first fix. A fix
  // was accepted for the trip; an artifact is the route the trip followed from
  // that time on, cut clear of its own two ends as well.
  lemma {:induction false} OnlyValidAndPrivate(env: Env, token: TokenId, events: seq<Event>, k: Key)
    requires k in After(env, token, events).hist.bound
    ensures var h := After(env, token, events).hist;
            && ValidBody(k, h.bound[k])
            && k in h.source && h.source[k].tripId == TripOf(k) && TripOf(k) in h.logs
            && LogOk(h.logs[TripOf(k)]) && Guards(h.logs[TripOf(k)], h.source[k])
            && Private(env, h.logs[TripOf(k)], h.source[k], h.bound[k])
            && (k.Chunk? ==> h.source[k].head.Some?)
  {
    AlwaysInv(env, token, events);
    SourceGuards(env, token, events, k);
    hide Guards, ValidBody, Private, MemoryOk, DeviceOk, ServerOk, LogOk, Ready;
  }

  lemma {:induction false} SourceGuards(env: Env, token: TokenId, events: seq<Event>, k: Key)
    requires k in After(env, token, events).hist.bound
    ensures var h := After(env, token, events).hist;
            k in h.source && TripOf(k) in h.logs && Guards(h.logs[TripOf(k)], h.source[k])
  {
    AlwaysInv(env, token, events);
    hide ValidBody, Private, MemoryOk, DeviceOk, ServerOk, LogOk, Ready, Guards, Anchored, Recorded, Dated, After;
    var h := After(env, token, events).hist;
    AnchoredGuards(h.logs[TripOf(k)], h.source[k]);
  }

  // In metres: every fix is 300 m, and both accuracies, away from each private
  // point of its record and from where the phone was when it was sealed, and
  // every place an uploaded route shows is 300 m, and the accuracy, away from
  // each private point.
  lemma {:induction false} EverythingFar(env: Env, token: TokenId, events: seq<Event>, k: Key)
    requires k in After(env, token, events).hist.bound && k.Chunk?
    ensures var h := After(env, token, events).hist;
            && h.bound[k].ChunkBody? && k in h.source
            && (forall i :: 0 <= i < |h.bound[k].fixes| ==> FixFar(env, h.source[k], h.bound[k].fixes[i]))
            && (forall i, at :: 0 <= i < |h.bound[k].artifacts| && Clip.Shows(h.bound[k].artifacts[i].artifact, at) ==>
                  PlaceFar(env, at, h.source[k].anchors))
  {
    OnlyValidAndPrivate(env, token, events, k);
    var h := After(env, token, events).hist;
    hide After, Private, Guards, LogOk, FixFar, PlaceFar;
    IsFar(env, h.logs[TripOf(k)], h.source[k], h.bound[k]);
  }

  ghost predicate FixFar(env: Env, t: TripRecord, f: Fix) {
    t.head.Some? && FarApart(env, f, t.head.value) && FarFromAll(env, f, t.anchors)
  }

  ghost predicate PlaceFar(env: Env, at: Place, anchors: seq<Anchor>) {
    forall i :: 0 <= i < |anchors| ==> env.dist(at, anchors[i].at) - anchors[i].accuracy >= 300.0
  }

  lemma IsFar(env: Env, log: Log, t: TripRecord, b: Body)
    requires Private(env, log, t, b) && b.ChunkBody?
    ensures forall i :: 0 <= i < |b.fixes| ==> FixFar(env, t, b.fixes[i])
    ensures forall i, at :: 0 <= i < |b.artifacts| && Clip.Shows(b.artifacts[i].artifact, at) ==> PlaceFar(env, at, t.anchors)
  {
    forall i | 0 <= i < |b.fixes| ensures FixFar(env, t, b.fixes[i]) {
      assert FixPrivate(env, log, t, b.fixes[i]);
      ClearIsFar(env, b.fixes[i], t.anchors);
    }
    hide Clip.Clipped, Clip.ArtifactClear, Env.ClearOf, Clip.Shows;
    forall i, at | 0 <= i < |b.artifacts| && Clip.Shows(b.artifacts[i].artifact, at) ensures PlaceFar(env, at, t.anchors) {
      assert ArtifactPrivate(env, log, t, b.artifacts[i]);
      var whole :| ClippedFrom(env, log, t, whole, b.artifacts[i]);
      Clip.ClipKeepsAway(env, whole, t.anchors, at);
    }
  }

  // Nothing is put on the network but by a device whose user opted in and whose
  // token was not refused, and then only what waits in the outbox.
  lemma SendsOnlyWhenAllowed(env: Env, token: TokenId, w: World, e: Event, k: Key, b: Body)
    requires (k, b) in Do(env, token, w, e).hist.sent && (k, b) !in w.hist.sent && w.mem.Some?
    requires forall l :: l in w.mem.value.outbox ==> w.mem.value.outbox[l].key == l
    ensures w.mem.value.settings == Some(Settings(true, false)) && e == Send(k)
    ensures k in w.mem.value.outbox && w.mem.value.outbox[k].body == b
  {
    hide Operate, Continue, Remember, Protocol.Apply, Handle, Purge, NextInit, Noted;
    NotedIsNotSent(env);
  }

  // What a step notes is not what it sends.
  lemma NotedIsNotSent(env: Env)
    ensures forall h, m, e, op :: Noted(env, h, m, e, op).sent == h.sent
    ensures forall h, op :: Remember(h, op).sent == h.sent
  {
    hide ClearedBy, Accepts;
  }

  // So is everything waiting on the phone, and everything that ever left it.
  lemma {:induction false} SentAndQueuedAreBound(env: Env, token: TokenId, events: seq<Event>, k: Key)
    ensures var w := After(env, token, events);
            && (k in w.dev.outbox ==> k in w.hist.bound && w.dev.outbox[k].body == w.hist.bound[k])
            && (w.mem.Some? && k in w.mem.value.outbox ==>
                  k in w.hist.bound && w.mem.value.outbox[k].body == w.hist.bound[k])
            && forall b :: (k, b) in w.hist.sent ==> k in w.hist.bound && b == w.hist.bound[k]
  {
    AlwaysInv(env, token, events);
    hide BoundOk, OpenTrip, OpOk, Store.Holds, After;
  }

  // Of two routes followed from the same time there is only one, so the route
  // an artifact was cut from is its own.
  lemma {:induction false} OneWhole(env: Env, token: TokenId, events: seq<Event>, id: TripId, a: Followed, b: Followed)
    requires var h := After(env, token, events).hist; id in h.logs && a in h.logs[id].followed && b in h.logs[id].followed
    requires a.effectiveAt == b.effectiveAt
    ensures a == b
  {
    AlwaysInv(env, token, events);
    hide BoundOk, MemoryOk, DeviceOk, ServerOk, After;
    var log := After(env, token, events).hist.logs[id];
    assert LogOk(log);
  }

  // The prediction is a route's: its time, its expected duration, its level and
  // its profile.
  ghost predicate Predicts(p: Option<Prediction>, fa: Followed) {
    && p.Some? && p.value.effectiveAt == fa.effectiveAt && p.value.etaS == fa.artifact.etaS
    && p.value.level == fa.artifact.level && p.value.profile == fa.artifact.profile
  }

  // An end carries the prediction of a route the trip followed.
  lemma {:induction false} EndPredictsFollowed(env: Env, token: TokenId, events: seq<Event>, k: Key)
    requires k in After(env, token, events).hist.bound && k.End?
    ensures var h := After(env, token, events).hist;
            var b := h.bound[k];
            && k.trip in h.logs && b.EndBody?
            && exists fa :: fa in h.logs[k.trip].followed && Predicts(b.prediction, fa)
  {
    AlwaysInv(env, token, events);
    hide MemoryOk, DeviceOk, ServerOk, LogOk, Ready, Anchored, Private;
  }

  // A trip's trace comes out in time order: fixes of an earlier chunk precede
  // those of a later one, and within a chunk they increase; and every one of
  // them was accepted.
  lemma {:induction false} TraceInOrder(env: Env, token: TokenId, events: seq<Event>, k: Key, l: Key)
    requires SameTripInOrder(After(env, token, events).hist.bound, k, l)
    ensures var bound := After(env, token, events).hist.bound;
            AllBefore(bound[k].fixes, bound[l].fixes) && Increasing(bound[k].fixes) && Increasing(bound[l].fixes)
  {
    AlwaysInv(env, token, events);
    hide Private, MemoryOk, DeviceOk, ServerOk, Ready, Knows;
  }

  predicate IsChunk(bound: map<Key, Body>, k: Key) { k in bound && bound[k].ChunkBody? }

  // The fixes bound under the first n seqs of a trip, in seq order.
  function Trace(bound: map<Key, Body>, id: TripId, n: nat): seq<Fix> {
    if n == 0 then []
    else
      Trace(bound, id, n - 1)
      + if IsChunk(bound, Chunk(id, n - 1)) then bound[Chunk(id, n - 1)].fixes else []
  }

  // `at` are places of xs in ys, one after another.
  ghost predicate Places(xs: seq<Fix>, ys: seq<Fix>, at: seq<nat>) {
    && |at| == |xs| && (forall i, j :: 0 <= i < j < |at| ==> at[i] < at[j])
    && forall i :: 0 <= i < |at| ==> at[i] < |ys| && ys[at[i]] == xs[i]
  }

  // What is ever sealed of a trip is a time-ordered subsequence of the fixes
  // accepted for it: none invented, none twice, none out of order.
  lemma TraceIsSubsequence(env: Env, token: TokenId, events: seq<Event>, id: TripId, n: nat) returns (at: seq<nat>)
    requires id in After(env, token, events).hist.logs
    ensures var h := After(env, token, events).hist;
            Increasing(Trace(h.bound, id, n)) && Places(Trace(h.bound, id, n), h.logs[id].accepted, at)
  {
    AlwaysInv(env, token, events);
    hide After, Discloses, MemoryOk, DeviceOk, ServerOk, Trace, Places, Increasing;
    var h := After(env, token, events).hist;
    assert LogOk(h.logs[id]);
    TraceOk(env, h, id, n);
    at := PlacesOf(Trace(h.bound, id, n), h.logs[id].accepted);
  }

  lemma {:induction false} TraceOk(env: Env, h: History, id: TripId, n: nat)
    requires BoundOk(env, h) && id in h.logs
    ensures Increasing(Trace(h.bound, id, n))
    ensures forall x :: x in Trace(h.bound, id, n) ==> x in h.logs[id].accepted
    ensures forall m: nat :: n <= m && IsChunk(h.bound, Chunk(id, m)) ==>
              AllBefore(Trace(h.bound, id, n), h.bound[Chunk(id, m)].fixes)
  {
    hide Discloses, Increasing;
    if n == 0 {
      NoFixes();
    } else {
      TraceOk(env, h, id, n - 1);
      var k := Chunk(id, n - 1);
      var before := Trace(h.bound, id, n - 1);
      assert before + [] == before;
      if IsChunk(h.bound, k) {
        var fixes := h.bound[k].fixes;
        assert Trace(h.bound, id, n) == before + fixes;
        ChunkAccepted(env, h, k);
        Concatenated(before, fixes);
        forall m: nat | n <= m && IsChunk(h.bound, Chunk(id, m))
          ensures AllBefore(before + fixes, h.bound[Chunk(id, m)].fixes) {
          BoundInOrder(env, h, k, Chunk(id, m));
        }
      } else {
        assert Trace(h.bound, id, n) == before;
      }
    }
  }

  lemma NoFixes()
    ensures Increasing([])
  {
  }

  lemma ChunkAccepted(env: Env, h: History, k: Key)
    requires BoundOk(env, h) && k in h.bound && k.Chunk? && h.bound[k].ChunkBody?
    ensures k.trip in h.logs && Increasing(h.bound[k].fixes)
    ensures forall x :: x in h.bound[k].fixes ==> x in h.logs[k.trip].accepted
  {
    hide Ready, Knows, ArtifactPrivate, FixOk, Env.ClearOf;
    assert Discloses(env, h, h.source[k], k, h.bound[k]);
    forall x | x in h.bound[k].fixes ensures x in h.logs[k.trip].accepted {
      var i :| 0 <= i < |h.bound[k].fixes| && h.bound[k].fixes[i] == x;
      assert FixPrivate(env, h.logs[k.trip], h.source[k], h.bound[k].fixes[i]);
    }
  }

  lemma Concatenated(a: seq<Fix>, b: seq<Fix>)
    requires Increasing(a) && Increasing(b) && AllBefore(a, b)
    ensures Increasing(a + b)
  {
  }

  lemma {:induction false} PlacesOf(xs: seq<Fix>, ys: seq<Fix>) returns (at: seq<nat>)
    requires Increasing(xs) && Increasing(ys) && forall x :: x in xs ==> x in ys
    ensures Places(xs, ys, at)
  {
    if xs == [] {
      at := [];
    } else {
      var n := |xs| - 1;
      var before := PlacesOf(xs[..n], ys);
      assert xs[n] in ys;
      var k: nat :| k < |ys| && ys[k] == xs[n];
      forall i | 0 <= i < n ensures before[i] < k {
        assert ys[before[i]] == xs[i];
      }
      at := before + [k];
    }
  }

  // A chunk, with fixes or with a route, is sealed only by a record that has a
  // fix clear of everything private, or has sealed one before.
  lemma {:induction false} NoRouteBeforeFixes(env: Env, token: TokenId, events: seq<Event>, k: Key)
    requires k in After(env, token, events).hist.bound && k.Chunk?
    ensures var h := After(env, token, events).hist;
            k in h.source && k.trip in h.cleared && (Ready(env, h.source[k]) != [] || h.source[k].sealedFixes)
  {
    AlwaysInv(env, token, events);
    hide Private, ValidBody, ServerOk, MemoryOk, DeviceOk, Knows, Ready;
  }

  // So nothing but its `end` is ever bound for a trip of which no sealing found
  // such a fix, or leaves the phone.
  lemma {:induction false} NeverClearUploadsOnlyEnd(env: Env, token: TokenId, events: seq<Event>, k: Key)
    requires k in After(env, token, events).hist.bound && TripOf(k) !in After(env, token, events).hist.cleared
    ensures k == End(TripOf(k))
    ensures forall l, b :: (l, b) in After(env, token, events).hist.sent && TripOf(l) == TripOf(k) ==> l == k
  {
    AlwaysInv(env, token, events);
    hide Private, ValidBody, MemoryOk, DeviceOk, Knows, Ready, Store.Holds, After;
  }

  // A trip counts as cleared only because some step sealed a record of it
  // with a fix, accepted for the trip, that was clear of every anchor of the
  // record and of its head.
  lemma ClearedByStep(env: Env, token: TokenId, w: World, e: Event, id: TripId)
    requires id in Do(env, token, w, e).hist.cleared && id !in w.hist.cleared
    ensures var w' := Do(env, token, w, e);
            && w'.mem.Some? && RecordOf(w'.mem.value.op).Some?
            && var t := RecordOf(w'.mem.value.op).value;
               && t.tripId == id && Ready(env, t) != []
               && forall f :: f in Ready(env, t) ==>
                    f in t.pending && env.ClearOf(Disk(f), t.anchors)
                    && t.head.Some? && env.Separation(Disk(f), Disk(t.head.value)) >= TRIM_M
  {
    hide Handle, Purge, NextInit, Operate, Continue, Apply, Enumerates, Ready, Env.ClearOf;
    var w' := Do(env, token, w, e);
    assert w'.mem.Some? && RecordOf(w'.mem.value.op).Some?;
    var t := RecordOf(w'.mem.value.op).value;
    forall f | f in Ready(env, t)
      ensures f in t.pending && env.ClearOf(Disk(f), t.anchors)
      ensures t.head.Some? && env.Separation(Disk(f), Disk(t.head.value)) >= TRIM_M {
      ReadyIsClear(env, t, f);
    }
  }

  lemma ReadyIsClear(env: Env, t: TripRecord, f: Fix)
    requires f in Ready(env, t)
    ensures f in t.pending && env.ClearOf(Disk(f), t.anchors)
    ensures t.head.Some? && env.Separation(Disk(f), Disk(t.head.value)) >= TRIM_M
  {
    var n := SealablePrefix(env, t.pending, t.head);
    var i :| 0 <= i < |Ready(env, t)| && Ready(env, t)[i] == f;
    var k :| 0 <= k < n && t.pending[..n][k] == f;
    assert t.pending[k] == f;
  }
}
