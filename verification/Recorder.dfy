// The recorder as the objects it is (web/lib/tripRecorder.ts): a mutable trip
// record, the on-device storage, and the operations over them, each proved to
// run as steps of the protocol machine.
module Recorder {
  import opened Topology
  import opened TraceTypes
  import opened Clip
  import opened Sealing
  import opened Store
  import opened Protocol
  import opened Safety

  // How one storage transaction goes, and the clock when it is over. Past the
  // end of such a list, every transaction fails.
  datatype Commit = Commit(ok: bool, now: int)

  predicate Goes(disk: seq<Commit>, i: nat) { i < |disk| && disk[i].ok }

  // ------------------------------------------------------- the trip record

  class OpenTripRecord {
    const tripId: TripId
    const startedAt: int
    var anchors: seq<Anchor>
    var head: Option<Fix>
    var pending: seq<Fix>
    var lastSealAt: int
    var nextSeq: nat
    var sealedFixes: bool
    var held: seq<Followed>
    var prediction: Option<Prediction>

    function Record(): TripRecord
      reads this
    {
      TripRecord(tripId, startedAt, anchors, head, pending, lastSealAt, nextSeq, sealedFixes, held, prediction)
    }

    constructor (t: TripRecord)
      ensures Record() == t
    {
      tripId, startedAt := t.tripId, t.startedAt;
      anchors, head, pending, lastSealAt := t.anchors, t.head, t.pending, t.lastSealAt;
      nextSeq, sealedFixes, held, prediction := t.nextSeq, t.sealedFixes, t.held, t.prediction;
    }

    method SealChunk(env: Env, body: Body, into: seq<Item>, now: int) returns (items: seq<Item>)
      modifies this`nextSeq
      ensures var r := Sealing.SealChunk(env, old(Record()), body, now);
              Record() == r.trip && items == into + r.items
    {
      items := into;
      if nextSeq > MAX_SEQ || env.size(body) > MAX_BODY_BYTES {
        return;
      }
      items := into + [Item(Chunk(tripId, nextSeq), body, now)];
      nextSeq := nextSeq + 1;
    }

    method SealArtifact(env: Env, fa: Followed, into: seq<Item>, now: int) returns (items: seq<Item>)
      modifies this`nextSeq
      ensures var r := Sealing.SealArtifact(env, old(Record()), fa, now);
              Record() == r.trip && items == into + r.items
    {
      var clipped := ClipArtifact(env, fa.artifact, anchors);
      if clipped.None? {
        return into;
      }
      items := SealChunk(env, ChunkBody([], [fa.(artifact := clipped.value)]), into, now);
    }

    method SealHeld(env: Env, into: seq<Item>, now: int) returns (items: seq<Item>)
      modifies this`nextSeq
      ensures var r := SealArtifacts(env, old(Record()), old(held), now);
              Record() == r.trip && items == into + r.items
    {
      hide Sealing.SealArtifact;
      items := into;
      for i := 0 to |held|
        invariant held == old(held)
        invariant var r := SealArtifacts(env, old(Record()), held[..i], now);
                  Record() == r.trip && items == into + r.items
      {
        assert held[..i + 1][..i] == held[..i];
        items := SealArtifact(env, held[i], items, now);
      }
      assert held[..|held|] == held;
    }

    method SealReady(env: Env, ready: seq<Fix>, into: seq<Item>, now: int) returns (items: seq<Item>)
      modifies this`nextSeq
      ensures var r := SealFixes(env, old(Record()), ready, now);
              Record() == r.trip && items == into + r.items
    {
      hide Remaining, SealFixes, Sealing.SealChunk;
      items := into;
      ghost var whole := SealFixes(env, Record(), ready, now);
      var i := 0;
      assert ready[0..] == ready;
      RemainingAll(env, Record(), ready, now, into);
      while i < |ready|
        invariant 0 <= i <= |ready|
        invariant Remaining(env, Record(), ready[i..], now, items, whole.trip, into + whole.items)
      {
        var n := if |ready| - i < MAX_FIXES_PER_CHUNK then |ready| - i else MAX_FIXES_PER_CHUNK;
        assert ready[i..][..n] == ready[i..i + n] && ready[i..][n..] == ready[i + n..];
        RemainingStep(env, Record(), ready[i..], now, items, whole.trip, into + whole.items);
        items := SealChunk(env, ChunkBody(ready[i..i + n], []), items, now);
        i := i + n;
      }
      assert ready[i..] == [];
      RemainingDone(env, Record(), now, items, whole.trip, into + whole.items);
    }

    // A fix that follows the head becomes the head; sealing is due about
    // every two minutes.
    method Accept(env: Env, fix: Fix, now: int) returns (items: seq<Item>)
      modifies this
      ensures var r := Sealing.AddFix(env, old(Record()), fix, now);
              Record() == r.trip && items == r.items
    {
      hide Sealing.Seal;
      if head.None? {
        anchors := anchors + [Disk(fix)];
      }
      head := Some(fix);
      if env.ClearOf(Disk(fix), anchors) {
        pending := pending + [fix];
      }
      assert old(anchors) + [] == old(anchors) && old(pending) + [] == old(pending);
      items := [];
      if fix.t - lastSealAt >= SEAL_INTERVAL_MS {
        items := Seal(env, items, now);
      }
    }

    // A replacement route: its end is a private point, it is predicted from
    // and, once fixes were sealed, uploaded.
    method Follow(env: Env, route: Artifact, now: int) returns (items: seq<Item>)
      modifies this
      ensures var r := Sealing.Reroute(env, old(Record()), route, now);
              Record() == r.trip && items == r.items
    {
      hide Sealing.SealArtifact;
      var at := RerouteAt(Record(), now);
      anchors := anchors + EndOf(route);
      prediction := Some(PredictionOf(route, at));
      items := [];
      if sealedFixes {
        items := SealArtifact(env, Followed(at, route), items, now);
      } else {
        held := held + [Followed(at, route)];
      }
    }

    // The sealable prefix, taken off.
    method Take(env: Env) returns (ready: seq<Fix>)
      modifies this
      ensures Record() == Taken(env, old(Record())) && ready == Ready(env, old(Record()))
    {
      var n := PrefixOf(env, pending, head);
      ready := ClearOnes(env, pending[..n], anchors);
      pending := pending[n..];
      if head.Some? {
        lastSealAt := head.value.t;
      }
    }

    method Seal(env: Env, into: seq<Item>, now: int) returns (items: seq<Item>)
      modifies this
      ensures var r := Sealing.Seal(env, old(Record()), now);
              Record() == r.trip && items == into + r.items
    {
      hide Sealing.Seal, Taken, Ready, SealArtifacts, SealFixes;
      ghost var t := Record();
      SealCases(env, t, now);
      var ready := Take(env);
      items := into;
      if ready == [] {
        return;
      }
      if !sealedFixes {
        sealedFixes := true;
        assert Record() == Taken(env, t).(sealedFixes := true);
        items := SealHeld(env, items, now);
        held := [];
      }
      items := SealReady(env, ready, items, now);
    }
  }

  // Saving a changed record is one transaction.
  lemma {:induction false} FinishSaving(env: Env, m: Memory, dev: Device, source: TripRecord, r: Sealed,
                                        disk: seq<Commit>)
    requires m.op.Idle?
    ensures var ops := NO_OPS.(putTrips := [r.trip], putOutbox := r.items);
            Finish(env, m.(trip := Some(r.trip), op := Saving(ops, source, r.items)), dev, disk)
            == if !Goes(disk, 0) then (m.(trip := Some(r.trip)), dev)
               else (m.(trip := Some(r.trip), outbox := PutItems(m.outbox, r.items)), Protocol.Apply(dev, ops))
  {
    hide Protocol.Apply;
  }

  lemma {:induction false} FinishThenStart(env: Env, m: Memory, dev: Device, id: TripId, route: Artifact,
                                           destination: Option<Place>, now: int, disk: seq<Commit>)
    requires m.op.Idle? && m.trip.Some?
    ensures var t := m.trip.value;
            var items := Sealing.Finalize(env, t, false, EndTime(t, now), now);
            Finish(env, FinalizeOpen(env, m, false, now, ThenStart(id, route, destination)), dev, disk)
            == if !Goes(disk, 0) then (m.(trip := Some(Sealing.Seal(env, t, now).trip)), dev)
               else Finish(env, BeginStart(m.(trip := None, outbox := PutItems(m.outbox, items)), id, route, destination,
                                           disk[0].now),
                           Protocol.Apply(dev, NO_OPS.(putOutbox := items, deleteTrips := {t.tripId})), disk[1..])
  {
    PredictionStays(env, m.trip.value, now);
    hide Sealing.Seal, Protocol.Apply, Sealing.Finalize, BeginStart;
  }

  // A launch ends one orphaned trip per transaction.
  lemma {:induction false} FinishInit(env: Env, m: Memory, dev: Device, rest: seq<TripRecord>, now: int,
                                      disk: seq<Commit>)
    requires m.op.Idle? && m.trip.None?
    ensures var m' := m.(op := NextInit(env, rest, now));
            && (rest == [] ==> Finish(env, m', dev, disk) == (m, dev))
            && (rest != [] && !Goes(disk, 0) ==> Finish(env, m', dev, disk) == (m, dev))
            && (rest != [] && Goes(disk, 0) ==>
                  var items := Sealing.Finalize(env, rest[0], false, EndTime(rest[0], rest[0].startedAt), now);
                  Finish(env, m', dev, disk)
                  == Finish(env, m.(outbox := PutItems(m.outbox, items), op := NextInit(env, rest[1..], disk[0].now)),
                            Protocol.Apply(dev, NO_OPS.(putOutbox := items, deleteTrips := {rest[0].tripId})), disk[1..]))
  {
    hide Finish, Sealing.Finalize, Protocol.Apply;
    FinishStep(env, m.(op := NextInit(env, rest, now)), dev, disk);
  }

  // Sealing `ready` from here, with these items sealed already, ends so.
  ghost predicate Remaining(env: Env, t: TripRecord, ready: seq<Fix>, now: int, items: seq<Item>,
                            end: TripRecord, all: seq<Item>) {
    var r := SealFixes(env, t, ready, now);
    r.trip == end && items + r.items == all
  }

  lemma RemainingStep(env: Env, t: TripRecord, ready: seq<Fix>, now: int, items: seq<Item>, end: TripRecord,
                      all: seq<Item>)
    requires ready != [] && Remaining(env, t, ready, now, items, end, all)
    ensures var n := if |ready| < MAX_FIXES_PER_CHUNK then |ready| else MAX_FIXES_PER_CHUNK;
            var first := Sealing.SealChunk(env, t, ChunkBody(ready[..n], []), now);
            Remaining(env, first.trip, ready[n..], now, items + first.items, end, all)
  {
    hide Sealing.SealChunk;
  }

  lemma {:induction false} RemainingAll(env: Env, t: TripRecord, ready: seq<Fix>, now: int, into: seq<Item>)
    ensures var r := SealFixes(env, t, ready, now); Remaining(env, t, ready, now, into, r.trip, into + r.items)
  {
  }

  lemma RemainingDone(env: Env, t: TripRecord, now: int, items: seq<Item>, end: TripRecord, all: seq<Item>)
    requires Remaining(env, t, [], now, items, end, all)
    ensures t == end && items == all
  {
  }

  method PrefixOf(env: Env, pending: seq<Fix>, head: Option<Fix>) returns (n: nat)
    ensures n == SealablePrefix(env, pending, head)
  {
    n := 0;
    if head.None? {
      return;
    }
    while n < |pending| && env.Separation(Disk(pending[n]), Disk(head.value)) >= TRIM_M
      invariant n <= |pending| && SealablePrefix(env, pending[..n], head) == n
    {
      assert pending[..n + 1][..n] == pending[..n];
      n := n + 1;
    }
    PrefixStops(env, pending, head, n);
  }

  lemma {:induction false} PrefixStops(env: Env, pending: seq<Fix>, head: Option<Fix>, n: nat)
    requires head.Some? && n <= |pending| && SealablePrefix(env, pending[..n], head) == n
    requires n < |pending| ==> env.Separation(Disk(pending[n]), Disk(head.value)) < TRIM_M
    ensures SealablePrefix(env, pending, head) == n
  {
    if n == |pending| {
      assert pending[..n] == pending;
    } else {
      var before := pending[..|pending| - 1];
      if n < |before| {
        assert before[..n] == pending[..n];
        PrefixStops(env, before, head, n);
      } else {
        assert before == pending[..n];
      }
    }
  }

  method ClearOnes(env: Env, fixes: seq<Fix>, anchors: seq<Anchor>) returns (r: seq<Fix>)
    ensures r == ClearFixes(env, fixes, anchors)
  {
    r := [];
    for i := 0 to |fixes|
      invariant r == ClearFixes(env, fixes[..i], anchors)
    {
      assert fixes[..i + 1][..i] == fixes[..i];
      if env.ClearOf(Disk(fixes[i]), anchors) {
        r := r + [fixes[i]];
      }
    }
    assert fixes[..|fixes|] == fixes;
  }

  // ----------------------------------------------------- how a trip ends

  // The end of the trip is queued, predicting what its record predicted.
  predicate EndWaits(outbox: map<Key, Item>, t: TripRecord, endedAt: int, arrived: bool) {
    Key.End(t.tripId) in outbox && outbox[Key.End(t.tripId)].body == EndBody(endedAt, arrived, t.prediction)
  }

  predicate AllGo(disk: seq<Commit>, n: nat) { forall i :: 0 <= i < n ==> Goes(disk, i) }

  lemma StillWaits(before: map<Key, Item>, after: map<Key, Item>, id: TripId, t: TripRecord, endedAt: int,
                   arrived: bool)
    requires EndWaits(before, t, endedAt, arrived) && t.tripId != id
    requires forall k :: k in before && TripOf(k) != id ==> k in after && after[k] == before[k]
    ensures EndWaits(after, t, endedAt, arrived)
  {
  }

  ghost predicate OfTrip(items: seq<Item>, id: TripId) {
    forall i :: 0 <= i < |items| ==> TripOf(items[i].key) == id
  }

  lemma {:induction false} FixesOfTrip(env: Env, t: TripRecord, ready: seq<Fix>, now: int)
    ensures OfTrip(SealFixes(env, t, ready, now).items, t.tripId)
    decreases |ready|
  {
    if ready != [] {
      var n := if |ready| < MAX_FIXES_PER_CHUNK then |ready| else MAX_FIXES_PER_CHUNK;
      FixesOfTrip(env, Sealing.SealChunk(env, t, ChunkBody(ready[..n], []), now).trip, ready[n..], now);
    }
  }

  lemma {:induction false} RoutesOfTrip(env: Env, t: TripRecord, held: seq<Followed>, now: int)
    ensures OfTrip(SealArtifacts(env, t, held, now).items, t.tripId)
  {
    hide Clipped;
    if held != [] {
      RoutesOfTrip(env, t, held[..|held| - 1], now);
      ArtifactsKeep(env, t, held[..|held| - 1], now);
    }
  }

  lemma SealsOfTrip(env: Env, t: TripRecord, now: int)
    ensures OfTrip(Sealing.Seal(env, t, now).items, t.tripId)
  {
    hide Ready, SealFixes, SealArtifacts, Sealing.Seal;
    SealCases(env, t, now);
    var t1, ready := Taken(env, t), Ready(env, t);
    FixesOfTrip(env, t1, ready, now);
    RoutesOfTrip(env, t1.(sealedFixes := true), t.held, now);
    ArtifactsKeep(env, t1.(sealedFixes := true), t.held, now);
    FixesOfTrip(env, SealArtifacts(env, t1.(sealedFixes := true), t.held, now).trip.(held := []), ready, now);
  }

  lemma {:induction false} PutOthers(outbox: map<Key, Item>, items: seq<Item>, k: Key)
    requires forall i :: 0 <= i < |items| ==> items[i].key != k
    ensures k in PutItems(outbox, items) <==> k in outbox
    ensures k in outbox ==> PutItems(outbox, items)[k] == outbox[k]
  {
    if items != [] { PutOthers(outbox, items[..|items| - 1], k); }
  }

  // A finalization's items are the trip's own, its end the last of them.
  lemma {:induction false} FinalizePuts(env: Env, t: TripRecord, arrived: bool, endedAt: int, now: int,
                                        outbox: map<Key, Item>)
    ensures var after := PutItems(outbox, Sealing.Finalize(env, t, arrived, endedAt, now));
            && EndWaits(after, t, endedAt, arrived)
            && forall k :: k in outbox && TripOf(k) != t.tripId ==> k in after && after[k] == outbox[k]
  {
    SealsOfTrip(env, t, now);
    hide Sealing.Seal;
    var items := Sealing.Finalize(env, t, arrived, endedAt, now);
    var n := |items| - 1;
    assert items[..n] == Sealing.Seal(env, t, now).items;
    forall k | k in outbox && TripOf(k) != t.tripId
      ensures k in PutItems(outbox, items) && PutItems(outbox, items)[k] == outbox[k] {
      PutOthers(outbox, items, k);
    }
  }

  // --------------------------------------------------------- the storage

  class DeviceStorage {
    var settings: Option<Settings>
    var trips: map<TripId, TripRecord>
    var outbox: map<Key, Item>

    function State(): Device
      reads this
    {
      Device(settings, trips, outbox)
    }

    constructor ()
      ensures State() == Device(None, map[], map[])
    {
      settings, trips, outbox := None, map[], map[];
    }

    // A transaction takes effect whole, or not at all.
    method Apply(ops: StorageOps, goes: bool) returns (ok: bool)
      modifies this
      ensures ok == goes
      ensures State() == if ok then Protocol.Apply(old(State()), ops) else old(State())
    {
      ok := goes;
      if !ok {
        return;
      }
      if ops.settings.Some? {
        settings := ops.settings.value;
      }
      for i := 0 to |ops.putTrips|
        invariant trips == PutTrips(old(trips), ops.putTrips[..i]) && outbox == old(outbox)
        invariant settings == if ops.settings.Some? then ops.settings.value else old(settings)
      {
        assert ops.putTrips[..i + 1][..i] == ops.putTrips[..i];
        trips := trips[ops.putTrips[i].tripId := ops.putTrips[i]];
      }
      assert ops.putTrips[..|ops.putTrips|] == ops.putTrips;
      trips := trips - ops.deleteTrips;
      outbox := PutItems(outbox, ops.putOutbox) - ops.deleteOutbox;
    }
  }

  // -------------------------------------------------- operations as runs

  // What is left of an operation: its transactions, one after another, until
  // it is done or one fails.
  ghost function Finish(env: Env, m: Memory, dev: Device, disk: seq<Commit>): (Memory, Device)
    decreases |disk|
  {
    if m.op.Idle? then (m, dev)
    else if !Goes(disk, 0) then (m.(op := Idle), dev)
    else Finish(env, Continue(env, m, disk[0].now), Protocol.Apply(dev, OpsOf(m.op)), disk[1..])
  }

  // Finish, one transaction at a time.
  lemma {:induction false} FinishStep(env: Env, m: Memory, dev: Device, disk: seq<Commit>)
    ensures m.op.Idle? ==> Finish(env, m, dev, disk) == (m, dev)
    ensures !m.op.Idle? && !Goes(disk, 0) ==> Finish(env, m, dev, disk) == (m.(op := Idle), dev)
    ensures !m.op.Idle? && Goes(disk, 0) ==>
              Finish(env, m, dev, disk)
              == Finish(env, Continue(env, m, disk[0].now), Protocol.Apply(dev, OpsOf(m.op)), disk[1..])
  {
    hide Continue, Protocol.Apply;
  }

  // Ending the open trip is one transaction more.
  lemma {:induction false} FinishOpen(env: Env, m: Memory, dev: Device, arrived: bool, now: int, disk: seq<Commit>)
    requires m.op.Idle?
    ensures Finish(env, m, dev, disk) == (m, dev)
    ensures m.trip.Some? ==>
              var t := m.trip.value;
              var items := Sealing.Finalize(env, t, arrived, EndTime(t, now), now);
              Finish(env, FinalizeOpen(env, m, arrived, now, Nothing), dev, disk)
              == if !Goes(disk, 0) then (m.(trip := Some(Sealing.Seal(env, t, now).trip)), dev)
                 else (m.(trip := None, outbox := PutItems(m.outbox, items)),
                       Protocol.Apply(dev, NO_OPS.(putOutbox := items, deleteTrips := {t.tripId})))
  {
    if m.trip.Some? {
      PredictionStays(env, m.trip.value, now);
    }
    hide Sealing.Seal, Protocol.Apply, Sealing.Finalize;
  }

  lemma FinishNext(disk: seq<Commit>)
    requires disk != []
    ensures Goes(disk[1..], 0) == Goes(disk, 1)
    ensures |disk| > 1 ==> disk[1..][0] == disk[1]
  {
  }

  // The same as events of the protocol.
  ghost function Transactions(env: Env, m: Memory, dev: Device, disk: seq<Commit>): seq<Event>
    decreases |disk|
  {
    if m.op.Idle? then []
    else if !Goes(disk, 0) then [Aborted]
    else [Committed(disk[0].now)]
         + Transactions(env, Continue(env, m, disk[0].now), Protocol.Apply(dev, OpsOf(m.op)), disk[1..])
  }

  // A world whose app has this memory, over this storage.
  predicate At(w: World, m: Memory, dev: Device) {
    w.mem == Some(m) && w.dev == dev
  }

  lemma {:induction false} FinishIsRun(env: Env, token: TokenId, events: seq<Event>, m: Memory, dev: Device,
                                       disk: seq<Commit>)
    requires At(After(env, token, events), m, dev)
    ensures var (m', dev') := Finish(env, m, dev, disk);
            At(After(env, token, events + Transactions(env, m, dev, disk)), m', dev')
    decreases |disk|
  {
    hide Continue, Remember, Protocol.Apply, Noted, After, Do, Finish, Transactions;
    FinishStep(env, m, dev, disk);
    TransactionsStep(env, m, dev, disk);
    if m.op.Idle? {
      assert events + [] == events;
    } else if !Goes(disk, 0) {
      OneTransaction(env, token, events, m, dev, Aborted);
    } else {
      var m1, dev1 := Continue(env, m, disk[0].now), Protocol.Apply(dev, OpsOf(m.op));
      OneTransaction(env, token, events, m, dev, Committed(disk[0].now));
      FinishIsRun(env, token, events + [Committed(disk[0].now)], m1, dev1, disk[1..]);
      assert events + Transactions(env, m, dev, disk)
          == events + [Committed(disk[0].now)] + Transactions(env, m1, dev1, disk[1..]);
    }
  }

  lemma {:induction false} TransactionsStep(env: Env, m: Memory, dev: Device, disk: seq<Commit>)
    ensures m.op.Idle? ==> Transactions(env, m, dev, disk) == []
    ensures !m.op.Idle? && !Goes(disk, 0) ==> Transactions(env, m, dev, disk) == [Aborted]
    ensures !m.op.Idle? && Goes(disk, 0) ==>
              Transactions(env, m, dev, disk)
              == [Committed(disk[0].now)]
                 + Transactions(env, Continue(env, m, disk[0].now), Protocol.Apply(dev, OpsOf(m.op)), disk[1..])
  {
    hide Continue, Protocol.Apply;
  }

  lemma {:induction false} OneTransaction(env: Env, token: TokenId, events: seq<Event>, m: Memory, dev: Device,
                                          e: Event)
    requires At(After(env, token, events), m, dev) && (e.Committed? || e.Aborted?)
    ensures if e.Committed? then At(After(env, token, events + [e]), Continue(env, m, e.now), Protocol.Apply(dev, OpsOf(m.op)))
            else At(After(env, token, events + [e]), m.(op := Idle), dev)
  {
    Extend(env, token, events, e);
    hide Continue, Remember, Protocol.Apply, Noted, After;
  }

  // A whole operation is a run: the event that starts it, then its
  // transactions. So what holds after every run holds after every operation.
  lemma {:induction false} OperationIsRun(env: Env, token: TokenId, events: seq<Event>, m: Memory, dev: Device,
                                          e: Event, disk: seq<Commit>)
    requires At(After(env, token, events), m, dev) && m.op.Idle? && IsOperation(e)
    requires e.Start? ==> e.id !in After(env, token, events).hist.used
    ensures var m1 := Operate(env, m, dev, e);
            var (m', dev') := Finish(env, m1, dev, disk);
            At(After(env, token, events + [e] + Transactions(env, m1, dev, disk)), m', dev')
  {
    assert (events + [e])[..|events|] == events;
    FinishIsRun(env, token, events + [e], Operate(env, m, dev, e), dev, disk);
  }

  // The launch, too: the app comes up and ends the orphans, one transaction
  // each.
  lemma {:induction false} InitIsRun(env: Env, token: TokenId, events: seq<Event>, order: seq<TripRecord>, now: int,
                                     disk: seq<Commit>)
    requires var w := After(env, token, events); w.mem.None? && Enumerates(order, w.dev.trips)
    ensures var dev := After(env, token, events).dev;
            var m := Memory(dev.settings, None, dev.outbox, NextInit(env, order, now), Asleep);
            var (m', dev') := Finish(env, m, dev, disk);
            At(After(env, token, events + [Launch(order, now)] + Transactions(env, m, dev, disk)), m', dev')
  {
    hide NextInit, Finish, Transactions, Enumerates, ClearedBy;
    var dev := After(env, token, events).dev;
    assert (events + [Launch(order, now)])[..|events|] == events;
    FinishIsRun(env, token, events + [Launch(order, now)],
                Memory(dev.settings, None, dev.outbox, NextInit(env, order, now), Asleep), dev, disk);
  }

  // ------------------------------------------------------- the recorder

  class TripRecorder {
    const env: Env
    const storage: DeviceStorage
    var settings: Option<Settings>
    var trip: OpenTripRecord?
    var outbox: map<Key, Item>

    ghost function Mem(): Memory
      reads this, trip
    {
      Memory(settings, if trip == null then None else Some(trip.Record()), outbox, Idle, Asleep)
    }

    constructor (env: Env, storage: DeviceStorage)
      ensures this.env == env && this.storage == storage
      ensures Mem() == Memory(None, None, map[], Idle, Asleep)
    {
      this.env, this.storage := env, storage;
      settings, trip, outbox := None, null, map[];
    }

    predicate CanRecord()
      reads this
    {
      settings.Some? && settings.value.enabled && !settings.value.rejected
    }

    // In one transaction the trip is sealed a last time, what it still holds
    // back goes, its end is queued and its record removed.
    method Finalize(t: OpenTripRecord, arrived: bool, endedAt: int, now: int, goes: bool) returns (ok: bool)
      requires trip != null && trip.tripId == t.tripId ==> trip == t
      modifies this, storage, t
      ensures ok == goes
      ensures t.Record() == Sealing.Seal(env, old(t.Record()), now).trip
      ensures var items := Sealing.Finalize(env, old(t.Record()), arrived, endedAt, now);
              && storage.State() == (if ok
                                     then Protocol.Apply(old(storage.State()),
                                                         NO_OPS.(putOutbox := items, deleteTrips := {t.tripId}))
                                     else old(storage.State()))
              && outbox == (if ok then PutItems(old(outbox), items) else old(outbox))
      ensures trip == if ok && old(trip) == t then null else old(trip)
      ensures settings == old(settings)
      ensures storage.trips == if ok then old(storage.trips) - {t.tripId} else old(storage.trips)
      ensures ok ==> EndWaits(outbox, old(t.Record()), endedAt, arrived)
      ensures ok ==> EndWaits(storage.outbox, old(t.Record()), endedAt, arrived)
      ensures forall k :: k in old(outbox) && TripOf(k) != t.tripId ==> k in outbox && outbox[k] == old(outbox)[k]
    {
      hide Sealing.Seal;
      FinalizePuts(env, old(t.Record()), arrived, endedAt, now, outbox);
      FinalizePuts(env, old(t.Record()), arrived, endedAt, now, storage.outbox);
      var items := t.Seal(env, [], now);
      items := items + [Item(Key.End(t.tripId), EndBody(endedAt, arrived, t.prediction), now)];
      PredictionStays(env, old(t.Record()), now);
      assert items == Sealing.Finalize(env, old(t.Record()), arrived, endedAt, now);
      ok := storage.Apply(NO_OPS.(putOutbox := items, deleteTrips := {t.tripId}), goes);
      if !ok {
        return;
      }
      if trip != null && trip.tripId == t.tripId {
        trip := null;
      }
      outbox := PutItems(outbox, items);
    }

    method Init(order: seq<TripRecord>, now: int, disk: seq<Commit>)
      requires Enumerates(order, storage.trips)
      modifies this, storage
      ensures var dev := old(storage.State());
              (Mem(), storage.State())
              == Finish(env, Memory(dev.settings, None, dev.outbox, NextInit(env, order, now), Asleep), dev, disk)
      // every orphan up to the first transaction that fails is ended, as of
      // what it knows itself, and the others stay
      ensures forall i :: 0 <= i < |order| ==>
                if AllGo(disk, i + 1)
                then && order[i].tripId !in storage.trips
                     && EndWaits(outbox, order[i], EndTime(order[i], order[i].startedAt), false)
                else order[i].tripId in storage.trips
    {
      hide Finish, Protocol.Apply, Sealing.Seal, Sealing.Finalize, Continue, NextInit, EndWaits, EndTime;
      settings, trip, outbox := storage.settings, null, storage.outbox;
      var clock := now;
      ghost var whole := Finish(env, Mem().(op := NextInit(env, order, now)), storage.State(), disk);
      for i := 0 to |order|
        invariant trip == null && i <= |disk| && AllGo(disk, i)
        invariant whole == Finish(env, Mem().(op := NextInit(env, order[i..], clock)), storage.State(), disk[i..])
        invariant forall j :: 0 <= j < |order| ==> (order[j].tripId in storage.trips <==> i <= j)
        invariant forall j :: 0 <= j < i ==> EndWaits(outbox, order[j], EndTime(order[j], order[j].startedAt), false)
      {
        var t := new OpenTripRecord(order[i]);
        ghost var rest := order[i..];
        ghost var before := outbox;
        assert rest[0] == order[i] && rest[1..] == order[i + 1..];
        FinishInit(env, Mem(), storage.State(), rest, clock, disk[i..]);
        var ok := Finalize(t, false, EndTime(order[i], order[i].startedAt), clock, Goes(disk, i));
        if !ok {
          return;
        }
        forall j | 0 <= j < i ensures EndWaits(outbox, order[j], EndTime(order[j], order[j].startedAt), false) {
          StillWaits(before, outbox, order[i].tripId, order[j], EndTime(order[j], order[j].startedAt), false);
        }
        assert disk[i..][1..] == disk[i + 1..] && disk[i..][0] == disk[i];
        clock := disk[i].now;
      }
      FinishInit(env, Mem(), storage.State(), order[|order|..], clock, disk[|order|..]);
    }

    // The token was good.
    method OptIn(disk: seq<Commit>)
      modifies this, storage
      ensures (Mem(), storage.State())
           == Finish(env, Operate(env, old(Mem()), old(storage.State()), Event.OptIn), old(storage.State()), disk)
      ensures settings == Some(Settings(true, false)) && trip == old(trip) && outbox == old(outbox)
      ensures storage.settings == if Goes(disk, 0) then settings else old(storage.settings)
      ensures storage.trips == old(storage.trips) && storage.outbox == old(storage.outbox)
    {
      settings := Some(Settings(true, false));
      var ok := storage.Apply(NO_OPS.(settings := Some(settings)), Goes(disk, 0));
      assert Finish(env, Mem(), storage.State(), if disk == [] then [] else disk[1..]) == (Mem(), storage.State());
    }

    method SetEnabled(enabled: bool, disk: seq<Commit>)
      modifies this, storage, trip
      ensures (Mem(), storage.State())
           == Finish(env, Operate(env, old(Mem()), old(storage.State()), Event.SetEnabled(enabled)), old(storage.State()), disk)
      ensures settings == if old(settings).None? then None else Some(old(settings).value.(enabled := enabled))
      ensures old(settings).Some? && Goes(disk, 0) ==> storage.settings == settings
      ensures old(settings).None? || enabled || !Goes(disk, 0) ==>
                trip == old(trip) && outbox == old(outbox) && storage.outbox == old(storage.outbox)
      ensures old(settings).Some? && !enabled && Goes(disk, 0) && Goes(disk, 1) ==>
                && trip == null
                && (old(trip) != null ==>
                      EndWaits(outbox, old(trip.Record()), EndTime(old(trip.Record()), disk[0].now), false))
    {
      if settings.None? {
        return;
      }
      hide Finish, Protocol.Apply, Sealing.Seal, Sealing.Finalize;
      settings := Some(settings.value.(enabled := enabled));
      FinishStep(env, Mem().(op := Configuring(NO_OPS.(settings := Some(settings)), !enabled)), storage.State(), disk);
      var ok := storage.Apply(NO_OPS.(settings := Some(settings)), Goes(disk, 0));
      if ok {
        FinishOpen(env, Mem(), storage.State(), false, disk[0].now, disk[1..]);
        FinishNext(disk);
      }
      if ok && !enabled && trip != null {
        var now := disk[0].now;
        ok := Finalize(trip, false, EndTime(trip.Record(), now), now, Goes(disk, 1));
      }
    }

    method Forget(disk: seq<Commit>)
      modifies this, storage
      ensures (Mem(), storage.State())
           == Finish(env, Operate(env, old(Mem()), old(storage.State()), Event.Forget), old(storage.State()), disk)
      ensures Goes(disk, 0) ==> settings == None && trip == null && outbox == map[]
      ensures Goes(disk, 0) ==> storage.settings == None && storage.trips == map[] && storage.outbox == map[]
      ensures !Goes(disk, 0) ==> settings == old(settings) && trip == old(trip) && outbox == old(outbox)
      ensures !Goes(disk, 0) ==> storage.State() == old(storage.State())
    {
      var ok := storage.Apply(StorageOps(Some(None), [], storage.trips.Keys, [], storage.outbox.Keys), Goes(disk, 0));
      if ok {
        settings, trip, outbox := None, null, map[];
      }
    }

    method StartTrip(id: TripId, route: Artifact, destination: Option<Place>, now: int, disk: seq<Commit>)
      modifies this, storage, trip
      ensures (Mem(), storage.State())
           == Finish(env, Operate(env, old(Mem()), old(storage.State()), Start(id, route, destination, now)),
                     old(storage.State()), disk)
      ensures settings == old(settings)
      ensures old(trip) != null && !Goes(disk, 0) ==> trip == old(trip) && storage.State() == old(storage.State())
      ensures old(trip) != null && Goes(disk, 0) ==>
                EndWaits(outbox, old(trip.Record()), EndTime(old(trip.Record()), now), false)
      ensures (old(trip) == null || Goes(disk, 0)) && !CanRecord() ==> trip == null
      ensures (old(trip) == null || Goes(disk, 0)) && CanRecord() ==>
                && trip != null && trip.tripId == id && trip.head == None && trip.pending == []
                && (Goes(disk, if old(trip) == null then 0 else 1) ==>
                      id in storage.trips && storage.trips[id] == trip.Record())
    {
      hide Finish, Protocol.Apply, Sealing.Seal, Sealing.Finalize, BeginStart;
      var clock, left := now, disk;
      if trip != null {
        FinishThenStart(env, Mem(), storage.State(), id, route, destination, now, disk);
        var ok := Finalize(trip, false, EndTime(trip.Record(), now), now, Goes(disk, 0));
        if !ok {
          return;
        }
        FinishNext(disk);
        clock, left := disk[0].now, disk[1..];
      }
      BeginTrip(id, route, destination, clock, left);
    }

    // startTrip once no other trip is open.
    method BeginTrip(id: TripId, route: Artifact, destination: Option<Place>, now: int, disk: seq<Commit>)
      requires trip == null
      modifies this, storage
      ensures (Mem(), storage.State())
           == Finish(env, BeginStart(old(Mem()), id, route, destination, now), old(storage.State()), disk)
      ensures settings == old(settings) && outbox == old(outbox) && (!CanRecord() ==> trip == null)
      ensures CanRecord() ==> trip != null && trip.tripId == id && trip.head == None && trip.pending == []
      ensures CanRecord() && Goes(disk, 0) ==> id in storage.trips && storage.trips[id] == trip.Record()
    {
      hide Finish, Protocol.Apply;
      FinishStep(env, BeginStart(Mem(), id, route, destination, now), storage.State(), disk);
      if !CanRecord() {
        return;
      }
      trip := new OpenTripRecord(Sealing.StartTrip(id, route, destination, now));
      var ok := storage.Apply(NO_OPS.(putTrips := [trip.Record()]), Goes(disk, 0));
      if ok {
        FinishStep(env, Mem(), storage.State(), disk[1..]);
        PutOne(old(storage.State()), trip.Record());
      }
    }

    // What a fix or a reroute did to the record, stored with what it sealed.
    method Save(items: seq<Item>, goes: bool) returns (ok: bool)
      requires trip != null
      modifies this`outbox, storage
      ensures ok == goes
      ensures var ops := NO_OPS.(putTrips := [trip.Record()], putOutbox := items);
              && storage.State() == (if ok then Protocol.Apply(old(storage.State()), ops) else old(storage.State()))
              && outbox == (if ok then PutItems(old(outbox), items) else old(outbox))
      ensures storage.settings == old(storage.settings)
    {
      ok := storage.Apply(NO_OPS.(putTrips := [trip.Record()], putOutbox := items), goes);
      if ok {
        outbox := PutItems(outbox, items);
      }
    }

    method AddFix(raw: RawFix, now: int, disk: seq<Commit>)
      modifies this, storage, trip
      ensures (Mem(), storage.State())
           == Finish(env, Operate(env, old(Mem()), old(storage.State()), Located(raw, now)), old(storage.State()), disk)
      ensures settings == old(settings) && trip == old(trip) && storage.settings == old(storage.settings)
      ensures var fix := ToTraceFix(raw);
              if old(trip) != null && CanRecord() && fix.Some? && FollowsHead(env, old(trip.head), fix.value)
              then trip.head == fix
              else && (trip != null ==> trip.Record() == old(trip.Record()))
                   && outbox == old(outbox) && storage.State() == old(storage.State())
    {
      hide Finish, Protocol.Apply, ToTraceFix, FollowsHead, Sealing.AddFix;
      FinishStep(env, Mem(), storage.State(), disk);
      if trip == null || !CanRecord() {
        return;
      }
      var fix := ToTraceFix(raw);
      if fix.None? || !FollowsHead(env, trip.head, fix.value) {
        return;
      }
      ghost var m := Mem();
      AddFixHeads(env, trip.Record(), fix.value, now);
      var items := trip.Accept(env, fix.value, now);
      ghost var r := Sealing.AddFix(env, m.trip.value, fix.value, now);
      FinishSaving(env, m, storage.State(), Headed(env, m.trip.value, fix.value), r, disk);
      var ok := Save(items, Goes(disk, 0));
    }

    method Reroute(route: Artifact, now: int, disk: seq<Commit>)
      modifies this, storage, trip
      ensures (Mem(), storage.State())
           == Finish(env, Operate(env, old(Mem()), old(storage.State()), Rerouted(route, now)), old(storage.State()), disk)
      ensures settings == old(settings) && trip == old(trip)
      ensures old(trip) != null && CanRecord() ==>
                var at := RerouteAt(old(trip.Record()), now);
                && trip.prediction == Some(Prediction(at, route.etaS, route.level, route.profile))
                && trip.anchors == old(trip.anchors) + EndOf(route) && trip.head == old(trip.head)
      ensures old(trip) == null || !CanRecord() ==> outbox == old(outbox) && storage.State() == old(storage.State())
    {
      hide Finish, Protocol.Apply, Sealing.Reroute;
      FinishStep(env, Mem(), storage.State(), disk);
      if trip == null || !CanRecord() {
        return;
      }
      ghost var m := Mem();
      RerouteAnchors(env, trip.Record(), route, now);
      var items := trip.Follow(env, route, now);
      ghost var r := Sealing.Reroute(env, m.trip.value, route, now);
      FinishSaving(env, m, storage.State(), r.trip, r, disk);
      var ok := Save(items, Goes(disk, 0));
    }

    method EndTrip(arrived: bool, now: int, disk: seq<Commit>)
      modifies this, storage, trip
      ensures (Mem(), storage.State())
           == Finish(env, Operate(env, old(Mem()), old(storage.State()), Ended(arrived, now)), old(storage.State()), disk)
      ensures old(trip) == null || !Goes(disk, 0) ==>
                trip == old(trip) && outbox == old(outbox) && storage.State() == old(storage.State())
      ensures old(trip) != null && Goes(disk, 0) ==>
                var k := Key.End(old(trip).tripId);
                && trip == null && k in outbox && k in storage.outbox && old(trip).tripId !in storage.trips
                && outbox[k].key == k && outbox[k] == storage.outbox[k] && outbox[k].createdAt == now
                && outbox[k].body == EndBody(EndTime(old(trip.Record()), now), arrived, old(trip.prediction))
    {
      if trip == null {
        return;
      }
      var ok := Finalize(trip, arrived, EndTime(trip.Record(), now), now, Goes(disk, 0));
    }

    // outbox[0]: the array is kept sorted by outboxOrder.
    method First() returns (item: Item)
      requires outbox != map[] && forall k :: k in outbox ==> outbox[k].key == k
      ensures item.key in outbox && outbox[item.key] == item
      ensures forall k :: k in outbox ==> NotAfter(item, outbox[k]) && Sooner(item, outbox[k])
    {
      var k :| k in outbox;
      item := outbox[k];
      var left := outbox.Keys - {k};
      while left != {}
        invariant left <= outbox.Keys && item.key in outbox && outbox[item.key] == item
        invariant forall l :: l in outbox && l !in left ==> NotAfter(item, outbox[l])
        decreases |left|
      {
        var l :| l in left;
        if !NotAfter(item, outbox[l]) {
          item := outbox[l];
        }
        left := left - {l};
      }
    }

    // One request and what comes of it: whether to go on.
    method SendOne(item: Item, reply: Reply) returns (goOn: bool)
      requires CanRecord()
      modifies this`settings, this`outbox, storage
      ensures (Mem(), storage.State()) == AfterReply(old(Mem()), old(storage.State()), item.key, reply)
      ensures goOn == Dealt(reply)
    {
      SettledKeepsGoing(reply.status);
      match Classify(reply.status)
      case Done | Permanent =>
        goOn := storage.Apply(NO_OPS.(deleteOutbox := {item.key}), reply.goes);
        assert PutItems(old(storage.outbox), []) == old(storage.outbox);
        assert PutTrips(old(storage.trips), []) - {} == old(storage.trips);
        if goOn {
          outbox := outbox - {item.key};
        }
      case Refused =>
        settings := Some(settings.value.(rejected := true));
        var ok := storage.Apply(NO_OPS.(settings := Some(settings)), reply.goes);
        assert PutItems(old(storage.outbox), []) - {} == old(storage.outbox);
        assert PutTrips(old(storage.trips), []) - {} == old(storage.trips);
        goOn := false;
      case Retry =>
        goOn := false;
    }

    // Requests go out oldest first, as long as the replies allow.
    method Drain(replies: seq<Reply>) returns (ghost sent: seq<Key>)
      requires forall k :: k in outbox ==> outbox[k].key == k
      modifies this`settings, this`outbox, storage
      ensures |sent| <= |replies|
      ensures (Mem(), storage.State()) == Drained(old(Mem()), old(storage.State()), sent, replies)
      ensures SentInOrder(old(Mem()), old(storage.State()), sent, replies)
      ensures CanRecord() && outbox != map[] && |sent| < |replies| ==> sent != [] && !Dealt(replies[|sent| - 1])
      // requests go out oldest first, before all that stays behind
      ensures forall k :: k in sent ==> k in old(outbox)
      ensures forall i, j :: 0 <= i < j < |sent| ==> Sooner(old(outbox)[sent[i]], old(outbox)[sent[j]])
      ensures forall k, l :: k in sent && l in outbox ==> Sooner(old(outbox)[k], outbox[l])
      // only what was answered for good leaves, and nothing goes out after
      // anything else; only a last 401 changes the settings
      ensures forall i :: 0 <= i < |sent| - 1 ==> Dealt(replies[i])
      ensures outbox == old(outbox) - Removed(sent, replies)
      ensures storage.outbox == old(storage.outbox) - Removed(sent, replies) && storage.trips == old(storage.trips)
      ensures settings == if EndsRefused(sent, replies) then Rejected(old(settings)) else old(settings)
      ensures storage.settings == if EndsRefused(sent, replies) && replies[|sent| - 1].goes then settings
                                  else old(storage.settings)
    {
      hide AfterReply, Drained, SentInOrder, SentFirst, NotAfter, Classify, Dealt, Removed, EndsRefused, Rejected, Sooner;
      sent := [];
      NothingSent(Mem(), storage.State(), replies);
      var goOn, i := true, 0;
      while goOn && i < |replies| && CanRecord() && outbox != map[]
        invariant i == |sent| <= |replies| && forall k :: k in outbox ==> outbox[k].key == k
        invariant trip == old(trip) && (trip != null ==> trip.Record() == old(trip.Record()))
        invariant (Mem(), storage.State()) == Drained(old(Mem()), old(storage.State()), sent, replies)
        invariant SentInOrder(old(Mem()), old(storage.State()), sent, replies)
        invariant forall i :: 0 <= i < |sent| - 1 ==> Dealt(replies[i])
        invariant sent != [] ==> goOn == Dealt(replies[|sent| - 1])
        invariant if sent == [] then goOn && settings == old(settings) else old(settings).Some?
        decreases |replies| - i
      {
        var item := First();
        ghost var before, dev := Mem(), storage.State();
        var reply := replies[i];
        IsFirst(before, item);
        DrainedStep(old(Mem()), old(storage.State()), sent, item.key, replies);
        goOn := SendOne(item, reply);
        OutboxShrinks(before, dev, item.key, reply);
        sent, i := sent + [item.key], i + 1;
      }
      DrainedByStatus(old(Mem()), old(storage.State()), sent, replies);
      SentByAge(old(Mem()), old(storage.State()), sent, replies);
    }
  }

  // outboxOrder: oldest first; on a tie by key, a trip's chunks by seq and
  // before its end.
  function Rank(k: Key): int { if k.Chunk? then k.seqNo else MAX_SEQ + 1 }

  predicate NotAfter(a: Item, b: Item) {
    if a.createdAt != b.createdAt then a.createdAt < b.createdAt
    else if TripOf(a.key) != TripOf(b.key) then TripOf(a.key) < TripOf(b.key)
    else Rank(a.key) <= Rank(b.key)
  }

  // Older, or of one trip and moment: an earlier chunk, or a chunk before the
  // trip's end.
  predicate Sooner(a: Item, b: Item) {
    && a.createdAt <= b.createdAt
    && (a.createdAt == b.createdAt && TripOf(a.key) == TripOf(b.key) && b.key.Chunk? ==>
          if a.key.Chunk? then a.key.seqNo <= b.key.seqNo else MAX_SEQ < b.key.seqNo)
  }

  // What the network answered (None: nothing), and how the storage
  // transaction that follows goes.
  datatype Reply = Reply(status: Option<int>, goes: bool)

  datatype Kind = Done | Permanent | Refused | Retry {
    predicate KeepGoing() { this == Done || this == Permanent }
  }

  function Classify(status: Option<int>): Kind {
    if status.None? then Retry
    else if 200 <= status.value < 300 then Done
    else if status.value == 401 then Refused
    else if status.value in {408, 425, 429} || status.value >= 500 then Retry
    else Permanent
  }

  // Answered for good: accepted, or refused in a way no retry can mend. Not so
  // a request that was not answered, one without a valid token, one the server
  // was too slow or too busy for, and one it failed at.
  predicate Settled(status: Option<int>) {
    status.Some? && status.value < 500 && status.value !in {401, 408, 425, 429}
  }

  predicate Dealt(reply: Reply) { Settled(reply.status) && reply.goes }

  lemma SettledKeepsGoing(status: Option<int>)
    ensures Classify(status).KeepGoing() <==> Settled(status)
  {
  }

  function Rejected(s: Option<Settings>): Option<Settings> {
    if s.None? then None else Some(s.value.(rejected := true))
  }

  // A request is removed, from memory and storage, exactly when its answer
  // settles it and storage goes; a 401 leaves every request where it is and
  // marks the token; nothing else changes anything.
  lemma ReplyByStatus(m: Memory, dev: Device, k: Key, reply: Reply)
    requires m.settings.Some?
    ensures var (m', dev') := AfterReply(m, dev, k, reply);
            && (Dealt(reply) ==> m' == m.(outbox := m.outbox - {k}) && dev' == dev.(outbox := dev.outbox - {k}))
            && (!Dealt(reply) ==> m'.outbox == m.outbox && dev'.outbox == dev.outbox)
            && (reply.status == Some(401) ==>
                  && m' == m.(settings := Rejected(m.settings))
                  && dev' == if reply.goes then dev.(settings := Rejected(m.settings)) else dev)
            && (!Dealt(reply) && reply.status != Some(401) ==> m' == m && dev' == dev)
  {
  }

  function AfterReply(m: Memory, dev: Device, k: Key, reply: Reply): (Memory, Device) {
    match Classify(reply.status)
    case Done | Permanent =>
      if reply.goes then (m.(outbox := m.outbox - {k}), dev.(outbox := dev.outbox - {k})) else (m, dev)
    case Refused =>
      var s := if m.settings.Some? then Some(m.settings.value.(rejected := true)) else None;
      (m.(settings := s), if m.settings.Some? && reply.goes then dev.(settings := s) else dev)
    case Retry => (m, dev)
  }

  function Drained(m: Memory, dev: Device, sent: seq<Key>, replies: seq<Reply>): (Memory, Device)
    requires |sent| <= |replies|
  {
    if sent == [] then (m, dev)
    else
      var n := |sent| - 1;
      var (m1, dev1) := Drained(m, dev, sent[..n], replies);
      AfterReply(m1, dev1, sent[n], replies[n])
  }

  // The requests that left.
  function Removed(sent: seq<Key>, replies: seq<Reply>): set<Key>
    requires |sent| <= |replies|
  {
    set i | 0 <= i < |sent| && Dealt(replies[i]) :: sent[i]
  }

  predicate EndsRefused(sent: seq<Key>, replies: seq<Reply>)
    requires |sent| <= |replies|
  {
    sent != [] && replies[|sent| - 1].status == Some(401)
  }

  // A pass in which only the last answer may have been anything but final.
  lemma {:induction false} DrainedByStatus(m: Memory, dev: Device, sent: seq<Key>, replies: seq<Reply>)
    requires |sent| <= |replies| && (sent != [] ==> m.settings.Some?)
    requires forall i :: 0 <= i < |sent| - 1 ==> Dealt(replies[i])
    ensures var (m1, dev1) := Drained(m, dev, sent, replies);
            && m1 == m.(outbox := m.outbox - Removed(sent, replies),
                        settings := if EndsRefused(sent, replies) then Rejected(m.settings) else m.settings)
            && dev1 == dev.(outbox := dev.outbox - Removed(sent, replies),
                            settings := if EndsRefused(sent, replies) && replies[|sent| - 1].goes
                                        then Rejected(m.settings) else dev.settings)
  {
    if sent == [] {
      assert m.outbox - {} == m.outbox && dev.outbox - {} == dev.outbox;
    } else {
      hide AfterReply, Rejected;
      var n := |sent| - 1;
      DrainedByStatus(m, dev, sent[..n], replies);
      assert !EndsRefused(sent[..n], replies);
      var (m1, dev1) := Drained(m, dev, sent[..n], replies);
      ReplyByStatus(m1, dev1, sent[n], replies[n]);
      RemovedStep(sent, replies);
      assert m.outbox - Removed(sent[..n], replies) - {sent[n]} == m.outbox - (Removed(sent[..n], replies) + {sent[n]});
      assert dev.outbox - Removed(sent[..n], replies) - {sent[n]}
          == dev.outbox - (Removed(sent[..n], replies) + {sent[n]});
    }
  }

  lemma RemovedStep(sent: seq<Key>, replies: seq<Reply>)
    requires 0 < |sent| <= |replies|
    ensures var n := |sent| - 1;
            Removed(sent, replies) == Removed(sent[..n], replies) + if Dealt(replies[n]) then {sent[n]} else {}
  {
    var n := |sent| - 1;
    hide Dealt;
    forall k | k in Removed(sent, replies)
      ensures k in Removed(sent[..n], replies) + if Dealt(replies[n]) then {sent[n]} else {} {
      var i :| 0 <= i < |sent| && Dealt(replies[i]) && sent[i] == k;
      if i < n { assert sent[..n][i] == k; }
    }
    forall k | k in Removed(sent[..n], replies) ensures k in Removed(sent, replies) {
      var i :| 0 <= i < n && Dealt(replies[i]) && sent[..n][i] == k;
      assert sent[i] == k;
    }
  }

  // Each request was the first waiting when it was sent, by a recorder that
  // may upload.
  ghost predicate SentInOrder(m: Memory, dev: Device, sent: seq<Key>, replies: seq<Reply>)
    requires |sent| <= |replies|
  {
    forall i :: 0 <= i < |sent| ==> SentFirst(Drained(m, dev, sent[..i], replies).0, sent[i])
  }

  ghost predicate SentFirst(m: Memory, k: Key) {
    && m.CanUpload() && k in m.outbox && forall l :: l in m.outbox ==> NotAfter(m.outbox[k], m.outbox[l])
  }

  lemma {:induction false} DrainedShrinks(m: Memory, dev: Device, sent: seq<Key>, replies: seq<Reply>, i: nat)
    requires i <= |sent| <= |replies|
    ensures var before, after := Drained(m, dev, sent[..i], replies).0.outbox, Drained(m, dev, sent, replies).0.outbox;
            forall k :: k in after ==> k in before && after[k] == before[k]
    decreases |sent|
  {
    if i < |sent| {
      hide AfterReply;
      var n := |sent| - 1;
      assert sent[..n][..i] == sent[..i];
      DrainedShrinks(m, dev, sent[..n], replies, i);
      var (m1, dev1) := Drained(m, dev, sent[..n], replies);
      OutboxShrinks(m1, dev1, sent[n], replies[n]);
    } else {
      assert sent[..i] == sent;
    }
  }

  lemma FirstIsSooner(m: Memory, k: Key)
    requires SentFirst(m, k) && forall l :: l in m.outbox ==> m.outbox[l].key == l
    ensures k in m.outbox && forall l :: l in m.outbox ==> Sooner(m.outbox[k], m.outbox[l])
  {
  }

  // What is sent goes in order of age, and nothing older stays behind.
  lemma {:induction false} SentByAge(m: Memory, dev: Device, sent: seq<Key>, replies: seq<Reply>)
    requires |sent| <= |replies| && SentInOrder(m, dev, sent, replies)
    requires forall l :: l in m.outbox ==> m.outbox[l].key == l
    ensures var left := Drained(m, dev, sent, replies).0.outbox;
            && (forall k :: k in sent ==> k in m.outbox)
            && (forall i, j :: 0 <= i < j < |sent| ==> Sooner(m.outbox[sent[i]], m.outbox[sent[j]]))
            && (forall k, l :: k in sent && l in left ==> l in m.outbox && Sooner(m.outbox[k], left[l]))
  {
    hide Drained, SentInOrder, Sooner;
    var left := Drained(m, dev, sent, replies).0.outbox;
    assert sent[..|sent|] == sent;
    forall i, j | 0 <= i < j < |sent|
      ensures sent[i] in m.outbox && sent[j] in m.outbox && Sooner(m.outbox[sent[i]], m.outbox[sent[j]]) {
      SentBefore(m, dev, sent, replies, i, j);
    }
    forall k | k in sent
      ensures k in m.outbox && forall l :: l in left ==> l in m.outbox && Sooner(m.outbox[k], left[l]) {
      var i :| 0 <= i < |sent| && sent[i] == k;
      SentBefore(m, dev, sent, replies, i, |sent|);
    }
  }

  lemma {:induction false} SentBefore(m: Memory, dev: Device, sent: seq<Key>, replies: seq<Reply>, i: nat, j: nat)
    requires i < j <= |sent| <= |replies| && SentInOrder(m, dev, sent, replies)
    requires forall l :: l in m.outbox ==> m.outbox[l].key == l
    ensures sent[i] in m.outbox
    ensures var left := Drained(m, dev, sent[..j], replies).0.outbox;
            && (forall l :: l in left ==> l in m.outbox && left[l] == m.outbox[l] && Sooner(m.outbox[sent[i]], left[l]))
            && (j < |sent| ==> sent[j] in left)
  {
    hide Drained, Sooner, NotAfter;
    assert sent[..j][..i] == sent[..i] && sent[..j][..0] == [] && sent[..i][..0] == [];
    DrainedShrinks(m, dev, sent[..j], replies, i);
    DrainedShrinks(m, dev, sent[..i], replies, 0);
    NothingSent(m, dev, replies);
    assert SentFirst(Drained(m, dev, sent[..i], replies).0, sent[i]);
    FirstIsSooner(Drained(m, dev, sent[..i], replies).0, sent[i]);
    if j < |sent| { assert SentFirst(Drained(m, dev, sent[..j], replies).0, sent[j]); }
  }

  lemma {:induction false} NothingSent(m: Memory, dev: Device, replies: seq<Reply>)
    ensures Drained(m, dev, [], replies) == (m, dev) && SentInOrder(m, dev, [], replies)
  {
  }

  lemma IsFirst(m: Memory, item: Item)
    requires m.CanUpload() && item.key in m.outbox && m.outbox[item.key] == item
    requires forall l :: l in m.outbox ==> NotAfter(item, m.outbox[l])
    ensures SentFirst(m, item.key)
  {
  }

  lemma {:induction false} DrainedStep(m: Memory, dev: Device, sent: seq<Key>, k: Key, replies: seq<Reply>)
    requires |sent| < |replies| && SentInOrder(m, dev, sent, replies)
    requires SentFirst(Drained(m, dev, sent, replies).0, k)
    ensures SentInOrder(m, dev, sent + [k], replies)
    ensures var (m1, dev1) := Drained(m, dev, sent, replies);
            Drained(m, dev, sent + [k], replies) == AfterReply(m1, dev1, k, replies[|sent|])
  {
    hide AfterReply, SentFirst;
    var all := sent + [k];
    assert all[..|sent|] == sent;
    forall i | 0 <= i < |all| ensures SentFirst(Drained(m, dev, all[..i], replies).0, all[i]) {
      if i < |sent| { assert all[..i] == sent[..i]; }
    }
  }

  lemma OutboxShrinks(m: Memory, dev: Device, k: Key, reply: Reply)
    ensures var o := AfterReply(m, dev, k, reply).0.outbox;
            forall l :: l in o ==> l in m.outbox && o[l] == m.outbox[l]
  {
  }

  // One pass of the drain is a run of the protocol: whatever status came
  // back, some events of the machine lead to the same memory and storage. A
  // 2xx is what the server answers to every request of ours.
  lemma {:induction false} ReplyIsRun(env: Env, token: TokenId, events: seq<Event>, m: Memory, dev: Device, k: Key,
                                      reply: Reply, now: int)
    requires At(After(env, token, events), m, dev) && m.drain == Asleep && m.CanUpload() && k in m.outbox
    ensures var (m', dev') := AfterReply(m, dev, k, reply);
            At(After(env, token, events + Exchange(k, reply, now)), m', dev')
  {
    hide *;
    AlwaysInv(env, token, events);
    IsRunning(After(env, token, events), m, dev);
    ItemOfOurs(env, token, After(env, token, events), m, k);
    var script := Exchange(k, reply, now);
    ExchangeIs(k, reply, now);
    if Classify(reply.status).KeepGoing() {
      RunOfThree(env, token, events, script);
      AnsweredRun(env, token, After(env, token, events), m, dev, k, reply, script[1]);
    } else {
      RunOfTwo(env, token, events, script);
      FailedRun(env, token, After(env, token, events), m, dev, k, reply, script[1].why);
    }
  }

  // And that run remembers what became of the request: acknowledged by a 2xx
  // whose removal was stored, dropped by any other final answer, else neither.
  lemma {:induction false} ReplyIsRemembered(env: Env, token: TokenId, events: seq<Event>, m: Memory, dev: Device,
                                             k: Key, reply: Reply, now: int)
    requires At(After(env, token, events), m, dev) && m.drain == Asleep && m.CanUpload() && k in m.outbox
    ensures var h, h' := After(env, token, events).hist, After(env, token, events + Exchange(k, reply, now)).hist;
            var accepted := reply.status.Some? && 200 <= reply.status.value < 300;
            && h'.acked == h.acked + (if Dealt(reply) && accepted then {k} else {})
            && h'.dropped == h.dropped + (if Dealt(reply) && !accepted then {k} else {})
            && (k, m.outbox[k].body) in h'.sent && h'.forgotten == h.forgotten
  {
    hide *;
    AlwaysInv(env, token, events);
    var w := After(env, token, events);
    IsRunning(w, m, dev);
    ItemOfOurs(env, token, w, m, k);
    var script := Exchange(k, reply, now);
    ExchangeIs(k, reply, now);
    ExchangeByStatus(k, reply, now);
    if |script| == 3 {
      RunOfThree(env, token, events, script);
      NeverRefused(env, token, events + [Send(k)]);
      Extend(env, token, events, Send(k));
      SendKeepsDb(env, token, w, m, dev, k);
      AnswerIsRemembered(env, token, w, m, dev, k, reply.goes, script[1]);
    } else {
      RunOfTwo(env, token, events, script);
      FailureIsRemembered(env, token, w, m, dev, k, script[1].why);
    }
  }

  lemma ExchangeByStatus(k: Key, reply: Reply, now: int)
    ensures var script := Exchange(k, reply, now);
            && (|script| == 3 <==> Settled(reply.status))
            && (Dealt(reply) <==> Settled(reply.status) && reply.goes)
            && (script[1].Answered? <==> reply.status.Some? && 200 <= reply.status.value < 300)
  {
  }

  lemma SendKeepsDb(env: Env, token: TokenId, w: World, m: Memory, dev: Device, k: Key)
    requires At(w, m, dev) && m.drain == Asleep && m.CanUpload() && k in m.outbox && m.outbox[k].key == k
    ensures Do(env, token, w, Send(k)).db == w.db && (k, m.outbox[k].body) in Do(env, token, w, Send(k)).hist.sent
  {
  }

  lemma AnswerIsRemembered(env: Env, token: TokenId, w: World, m: Memory, dev: Device, k: Key, goes: bool, e: Event)
    requires At(w, m, dev) && m.drain == Asleep && m.CanUpload() && k in m.outbox
    requires m.outbox[k].key == k && Store.Fits(k, m.outbox[k].body) && (e.Answered? || e == Failed(OtherPermanent))
    requires e.Answered? ==> Handle(w.db, token, k, m.outbox[k].body, e.now).1 in {Created, Replayed}
    ensures var h' := Do(env, token, Do(env, token, Do(env, token, w, Send(k)), e), Cleared(goes)).hist;
            && h'.acked == w.hist.acked + (if goes && e.Answered? then {k} else {})
            && h'.dropped == w.hist.dropped + (if goes && !e.Answered? then {k} else {})
            && (k, m.outbox[k].body) in h'.sent && h'.forgotten == w.hist.forgotten
  {
    hide Handle;
  }

  lemma FailureIsRemembered(env: Env, token: TokenId, w: World, m: Memory, dev: Device, k: Key, why: Failure)
    requires At(w, m, dev) && m.drain == Asleep && m.CanUpload() && k in m.outbox
    requires m.outbox[k].key == k && !why.OtherPermanent?
    ensures var h' := Do(env, token, Do(env, token, w, Send(k)), Failed(why)).hist;
            && h'.acked == w.hist.acked && h'.dropped == w.hist.dropped && h'.forgotten == w.hist.forgotten
            && (k, m.outbox[k].body) in h'.sent
  {
  }

  lemma IsRunning(w: World, m: Memory, dev: Device)
    requires At(w, m, dev)
    ensures w.mem == Some(m)
  {
  }

  lemma ExchangeIs(k: Key, reply: Reply, now: int)
    ensures var script := Exchange(k, reply, now);
            && script[0] == Send(k)
            && (Classify(reply.status).KeepGoing() ==>
                  && |script| == 3 && script[2] == Cleared(reply.goes)
                  && (script[1].Answered? || script[1] == Failed(OtherPermanent)))
            && (!Classify(reply.status).KeepGoing() ==>
                  |script| == 2 && script[1] == Failed(if Classify(reply.status) == Refused
                                                       then Failure.Unauthorized(reply.goes) else Failure.Transient))
  {
  }

  lemma {:induction false} Extend(env: Env, token: TokenId, events: seq<Event>, e: Event)
    ensures After(env, token, events + [e]) == Do(env, token, After(env, token, events), e)
  {
    assert (events + [e])[..|events|] == events;
    hide Do;
  }

  lemma {:induction false} RunOfTwo(env: Env, token: TokenId, events: seq<Event>, more: seq<Event>)
    requires |more| == 2
    ensures After(env, token, events + more) == Do(env, token, Do(env, token, After(env, token, events), more[0]), more[1])
  {
    hide Do, After;
    Extend(env, token, events, more[0]);
    Extend(env, token, events + [more[0]], more[1]);
    assert events + [more[0]] + [more[1]] == events + more;
  }

  lemma {:induction false} RunOfThree(env: Env, token: TokenId, events: seq<Event>, more: seq<Event>)
    requires |more| == 3
    ensures After(env, token, events + more)
         == Do(env, token, Do(env, token, Do(env, token, After(env, token, events), more[0]), more[1]), more[2])
  {
    hide Do, After;
    RunOfTwo(env, token, events, more[..2]);
    Extend(env, token, events + more[..2], more[2]);
    assert events + more[..2] + [more[2]] == events + more;
  }

  // Sent, answered or permanently refused, and cleared if storage goes.
  lemma AnsweredRun(env: Env, token: TokenId, w: World, m: Memory, dev: Device, k: Key, reply: Reply, e: Event)
    requires At(w, m, dev) && m.drain == Asleep && m.CanUpload() && k in m.outbox
    requires m.outbox[k].key == k && Store.Fits(k, m.outbox[k].body)
    requires Classify(reply.status).KeepGoing() && (e.Answered? || e == Failed(OtherPermanent))
    ensures var (m', dev') := AfterReply(m, dev, k, reply);
            At(Do(env, token, Do(env, token, Do(env, token, w, Send(k)), e), Cleared(reply.goes)), m', dev')
  {
    hide Do;
    Sends(env, token, w, m, dev, k);
    var w1 := Do(env, token, w, Send(k));
    var acked := Answers(env, token, w1, m, dev, m.outbox[k], e);
    Clears(env, token, Do(env, token, w1, e), m, dev, m.outbox[k], acked, reply.goes);
  }

  // Sent, and nothing but the settings changed.
  lemma FailedRun(env: Env, token: TokenId, w: World, m: Memory, dev: Device, k: Key, reply: Reply, why: Failure)
    requires At(w, m, dev) && m.drain == Asleep && m.CanUpload() && k in m.outbox
    requires !Classify(reply.status).KeepGoing()
    requires why == if Classify(reply.status) == Refused then Failure.Unauthorized(reply.goes) else Failure.Transient
    ensures var (m', dev') := AfterReply(m, dev, k, reply);
            At(Do(env, token, Do(env, token, w, Send(k)), Failed(why)), m', dev')
  {
    hide Do;
    Sends(env, token, w, m, dev, k);
    Fails(env, token, Do(env, token, w, Send(k)), m, dev, m.outbox[k], why);
    assert m.(settings := m.settings) == m;
  }

  lemma Sends(env: Env, token: TokenId, w: World, m: Memory, dev: Device, k: Key)
    requires At(w, m, dev) && m.drain == Asleep && m.CanUpload() && k in m.outbox
    ensures At(Do(env, token, w, Send(k)), m.(drain := Sending(m.outbox[k])), dev)
  {
  }

  lemma Answers(env: Env, token: TokenId, w: World, m: Memory, dev: Device, item: Item, e: Event) returns (acked: bool)
    requires At(w, m.(drain := Sending(item)), dev) && Store.Fits(item.key, item.body)
    requires e.Answered? || e == Failed(OtherPermanent)
    ensures At(Do(env, token, w, e), m.(drain := Clearing(item, acked)), dev)
  {
    hide Handle;
    acked := Do(env, token, w, e).mem.value.drain.acked;
  }

  lemma Clears(env: Env, token: TokenId, w: World, m: Memory, dev: Device, item: Item, acked: bool, goes: bool)
    requires At(w, m.(drain := Clearing(item, acked)), dev) && m.drain == Asleep
    ensures var k := item.key;
            At(Do(env, token, w, Cleared(goes)), if goes then m.(outbox := m.outbox - {k}) else m,
               if goes then dev.(outbox := dev.outbox - {k}) else dev)
  {
  }

  lemma Fails(env: Env, token: TokenId, w: World, m: Memory, dev: Device, item: Item, why: Failure)
    requires At(w, m.(drain := Sending(item)), dev) && m.drain == Asleep && m.settings.Some? && !why.OtherPermanent?
    ensures var s := if why.Transient? then m.settings else Some(m.settings.value.(rejected := true));
            At(Do(env, token, w, Failed(why)), m.(settings := s),
               if why.Unauthorized? && why.stored then dev.(settings := s) else dev)
  {
  }

  // The events behind one reply.
  function Exchange(k: Key, reply: Reply, now: int): (script: seq<Event>)
    ensures |script| >= 2
  {
    match Classify(reply.status)
    case Done => [Send(k), Answered(now), Cleared(reply.goes)]
    case Permanent => [Send(k), Failed(OtherPermanent), Cleared(reply.goes)]
    case Refused => [Send(k), Failed(Failure.Unauthorized(reply.goes))]
    case Retry => [Send(k), Failed(Failure.Transient)]
  }

  lemma ItemOfOurs(env: Env, token: TokenId, w: World, m: Memory, k: Key)
    requires Inv(env, token, w) && w.mem == Some(m) && k in m.outbox
    ensures m.outbox[k].key == k && Store.Fits(k, m.outbox[k].body)
  {
    hide ValidBody, Private;
  }

  // Sealing leaves the prediction alone.
  lemma PredictionStays(env: Env, t: TripRecord, now: int)
    ensures Sealing.Seal(env, t, now).trip.prediction == t.prediction
    ensures Sealing.Seal(env, t, now).trip.tripId == t.tripId && Sealing.Seal(env, t, now).trip.head == t.head
  {
    var t1, ready := Taken(env, t), Ready(env, t);
    if t.sealedFixes {
      FixesKeep(env, t1, ready, now);
    } else {
      ArtifactsKeep(env, t1.(sealedFixes := true), t.held, now);
      FixesKeep(env, SealArtifacts(env, t1.(sealedFixes := true), t.held, now).trip.(held := []), ready, now);
    }
  }

  lemma AddFixHeads(env: Env, t: TripRecord, fix: Fix, now: int)
    ensures Sealing.AddFix(env, t, fix, now).trip.head == Some(fix)
  {
    PredictionStays(env, Headed(env, t, fix), now);
    hide Sealing.Seal;
  }

  lemma PutOne(dev: Device, t: TripRecord)
    ensures Protocol.Apply(dev, NO_OPS.(putTrips := [t])).trips == dev.trips[t.tripId := t]
  {
    assert [t][..0] == [] && PutTrips(dev.trips, []) == dev.trips;
  }

  lemma {:induction false} FixesKeep(env: Env, t: TripRecord, ready: seq<Fix>, now: int)
    ensures Same(t, SealFixes(env, t, ready, now).trip)
    decreases |ready|
  {
    if ready != [] {
      var n := if |ready| < MAX_FIXES_PER_CHUNK then |ready| else MAX_FIXES_PER_CHUNK;
      FixesKeep(env, Sealing.SealChunk(env, t, ChunkBody(ready[..n], []), now).trip, ready[n..], now);
    }
  }

  lemma {:induction false} ArtifactsKeep(env: Env, t: TripRecord, held: seq<Followed>, now: int)
    ensures Same(t, SealArtifacts(env, t, held, now).trip)
  {
    if held != [] {
      ArtifactsKeep(env, t, held[..|held| - 1], now);
    }
  }
}
