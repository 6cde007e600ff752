// The trip-trace protocol, phone to server, as a state machine over its
// steps: the recorder's operations cut at every storage transaction, the
// outbox drain running beside them, and a network, a server, a purge and a
// killed app that may intervene anywhere.
module Protocol {
  import opened Topology
  import opened TraceTypes
  import opened Sealing
  import opened Store

  datatype Settings = Settings(enabled: bool, rejected: bool)

  // Durable storage on the phone.
  datatype Device = Device(settings: Option<Settings>, trips: map<TripId, TripRecord>, outbox: map<Key, Item>)

  datatype StorageOps = StorageOps(settings: Option<Option<Settings>>, putTrips: seq<TripRecord>,
                                   deleteTrips: set<TripId>, putOutbox: seq<Item>, deleteOutbox: set<Key>)

  const NO_OPS := StorageOps(None, [], {}, [], {})

  function PutTrips(trips: map<TripId, TripRecord>, ts: seq<TripRecord>): map<TripId, TripRecord> {
    if ts == [] then trips
    else PutTrips(trips, ts[..|ts| - 1])[ts[|ts| - 1].tripId := ts[|ts| - 1]]
  }

  function PutItems(outbox: map<Key, Item>, items: seq<Item>): map<Key, Item> {
    if items == [] then outbox
    else PutItems(outbox, items[..|items| - 1])[items[|items| - 1].key := items[|items| - 1]]
  }

  // One transaction's changes.
  function Apply(dev: Device, ops: StorageOps): Device {
    Device(if ops.settings.Some? then ops.settings.value else dev.settings,
           PutTrips(dev.trips, ops.putTrips) - ops.deleteTrips,
           PutItems(dev.outbox, ops.putOutbox) - ops.deleteOutbox)
  }

  // What an operation does once a finalization has committed.
  datatype Then = Nothing
                | ThenStart(id: TripId, route: Artifact, destination: Option<Place>)
                | ThenInit(rest: seq<TripRecord>)

  // The operation waiting for its transaction, if any.
  datatype Pending = Idle
                   | Saving(ops: StorageOps, record: TripRecord, items: seq<Item>)
                   | Configuring(ops: StorageOps, disabling: bool)
                   | Finalizing(ops: StorageOps, record: TripRecord, items: seq<Item>, next: Then)
                   | Forgetting(ops: StorageOps)

  datatype Drain = Asleep | Sending(item: Item) | Clearing(item: Item, acked: bool)

  // The recorder's closure state.
  datatype Memory = Memory(settings: Option<Settings>, trip: Option<TripRecord>, outbox: map<Key, Item>,
                           op: Pending, drain: Drain) {
    predicate CanUpload() { settings.Some? && settings.value.enabled && !settings.value.rejected }
  }

  // What has happened: `bound` is what was ever durably sealed under each key
  // and `source` the record that sealed it; `sent` every request ever put on
  // the network; `refused` whether the recorder was ever answered that a trip
  // is not its own or that a key holds something else; `logs` what each trip
  // was given, and `cleared` the trips of which a sealing found a fix clear of
  // everything private.
  datatype History = History(bound: map<Key, Body>, source: map<Key, TripRecord>, sent: set<(Key, Body)>,
                             acked: set<Key>, dropped: set<Key>, forgotten: set<Key>, used: set<TripId>,
                             refused: bool, logs: map<TripId, Log>, cleared: set<TripId>)

  datatype World = World(mem: Option<Memory>, dev: Device, db: Db, hist: History)

  datatype Failure = Transient | Unauthorized(stored: bool) | OtherPermanent

  datatype Event =
    | Launch(order: seq<TripRecord>, now: int)
    | Kill
    | OptIn | SetEnabled(enabled: bool) | Forget
    | Start(id: TripId, route: Artifact, destination: Option<Place>, now: int)
    | Located(raw: RawFix, now: int)
    | Rerouted(route: Artifact, now: int)
    | Ended(arrived: bool, now: int)
    | Committed(now: int) | Aborted
    | Send(key: Key)
    | Answered(now: int) | Failed(why: Failure)
    | Cleared(ok: bool)
    | Delivered(key: Key, body: Body, now: int)
    | Purged(now: int, maxAgeDays: nat)

  // ------------------------------------------------------------ the steps

  // An operation that finalizes t: its record as sealing leaves it, and the
  // transaction that replaces it by requests.
  ghost function BeginFinalize(env: Env, t: TripRecord, arrived: bool, at: int, now: int, next: Then): Pending {
    var items := Finalize(env, t, arrived, EndTime(t, at), now);
    Finalizing(NO_OPS.(putOutbox := items, deleteTrips := {t.tripId}), t, items, next)
  }

  // startTrip past the finalization of its predecessor.
  function BeginStart(m: Memory, id: TripId, route: Artifact, destination: Option<Place>, now: int): Memory {
    if !m.CanUpload() then m.(op := Idle)
    else
      var t := StartTrip(id, route, destination, now);
      m.(trip := Some(t), op := Saving(NO_OPS.(putTrips := [t]), t, []))
  }

  ghost function NextInit(env: Env, rest: seq<TripRecord>, now: int): Pending {
    if rest == [] then Idle
    else BeginFinalize(env, rest[0], false, rest[0].startedAt, now, ThenInit(rest[1..]))
  }

  ghost function FinalizeOpen(env: Env, m: Memory, arrived: bool, now: int, next: Then): Memory
    requires m.trip.Some?
  {
    m.(trip := Some(Seal(env, m.trip.value, now).trip),
       op := BeginFinalize(env, m.trip.value, arrived, now, now, next))
  }

  // The memory once the pending transaction has committed.
  ghost function Continue(env: Env, m: Memory, now: int): Memory {
    match m.op
    case Idle => m
    case Saving(_, _, items) => m.(op := Idle, outbox := PutItems(m.outbox, items))
    case Configuring(_, disabling) =>
      if disabling && m.trip.Some? then FinalizeOpen(env, m, false, now, Nothing) else m.(op := Idle)
    case Finalizing(_, t, items, next) =>
      var m1 := m.(op := Idle, outbox := PutItems(m.outbox, items),
                   trip := if m.trip.Some? && m.trip.value.tripId == t.tripId then None else m.trip);
      (match next
       case Nothing => m1
       case ThenStart(id, route, destination) => BeginStart(m1, id, route, destination, now)
       case ThenInit(rest) => m1.(op := NextInit(env, rest, now)))
    case Forgetting(_) => m.(op := Idle, settings := None, trip := None, outbox := map[])
  }

  function Bodies(items: seq<Item>): (m: map<Key, Body>)
    ensures forall k :: k in m <==> exists i :: 0 <= i < |items| && items[i].key == k
  {
    if items == [] then map[]
    else Bodies(items[..|items| - 1])[items[|items| - 1].key := items[|items| - 1].body]
  }

  function Sources(items: seq<Item>, t: TripRecord): map<Key, TripRecord> {
    map k | k in Bodies(items) :: t
  }

  function OpsOf(op: Pending): StorageOps {
    if op.Idle? then NO_OPS else op.ops
  }

  function ItemsOf(op: Pending): seq<Item> {
    if op.Saving? || op.Finalizing? then op.items else []
  }

  // The record an operation's items were sealed by.
  function RecordOf(op: Pending): Option<TripRecord> {
    if op.Saving? || op.Finalizing? then Some(op.record) else None
  }

  function Remember(h: History, op: Pending): History {
    if RecordOf(op).None? then h.(forgotten := h.forgotten + OpsOf(op).deleteOutbox)
    else h.(bound := h.bound + Bodies(ItemsOf(op)), source := h.source + Sources(ItemsOf(op), RecordOf(op).value))
  }

  // Enumerates the trips found in storage.
  predicate Enumerates(order: seq<TripRecord>, trips: map<TripId, TripRecord>) {
    && (forall i :: 0 <= i < |order| ==> order[i].tripId in trips && trips[order[i].tripId] == order[i])
    && (forall i, j :: 0 <= i < j < |order| ==> order[i].tripId != order[j].tripId)
  }

  // The reading is a fix of the open trip.
  predicate Accepts(env: Env, m: Memory, raw: RawFix) {
    && m.trip.Some? && m.CanUpload()
    && ToTraceFix(raw).Some? && FollowsHead(env, m.trip.value.head, ToTraceFix(raw).value)
  }

  // An operation of the recorder: nothing unless the app runs and no other
  // operation is waiting.
  ghost function Operate(env: Env, m: Memory, dev: Device, e: Event): Memory
    requires m.op.Idle?
  {
    match e
    case OptIn =>
      var s := Some(Settings(true, false));
      m.(settings := s, op := Configuring(NO_OPS.(settings := Some(s)), false))
    case SetEnabled(enabled) =>
      if m.settings.None? then m
      else
        var s := Some(m.settings.value.(enabled := enabled));
        m.(settings := s, op := Configuring(NO_OPS.(settings := Some(s)), !enabled))
    case Forget =>
      m.(op := Forgetting(StorageOps(Some(None), [], dev.trips.Keys, [], dev.outbox.Keys)))
    case Start(id, route, destination, now) =>
      if m.trip.Some? then FinalizeOpen(env, m, false, now, ThenStart(id, route, destination))
      else BeginStart(m, id, route, destination, now)
    case Located(raw, now) =>
      if !Accepts(env, m, raw) then m
      else
        var fix := ToTraceFix(raw).value;
        var r := AddFix(env, m.trip.value, fix, now);
        m.(trip := Some(r.trip),
           op := Saving(NO_OPS.(putTrips := [r.trip], putOutbox := r.items), Headed(env, m.trip.value, fix), r.items))
    case Rerouted(route, now) =>
      if m.trip.None? || !m.CanUpload() then m
      else
        var r := Reroute(env, m.trip.value, route, now);
        m.(trip := Some(r.trip), op := Saving(NO_OPS.(putTrips := [r.trip], putOutbox := r.items), r.trip, r.items))
    case Ended(arrived, now) =>
      if m.trip.None? then m else FinalizeOpen(env, m, arrived, now, Nothing)
    case _ => m
  }

  // What a step gives to a trip: its first route and destination once it
  // starts, an accepted fix, a route that replaces the last.
  function Started(h: History, m: Memory, id: TripId, route: Artifact, destination: Option<Place>, now: int): History {
    if m.CanUpload() then h.(logs := h.logs[id := Log([Followed(now, route)], destination, [])]) else h
  }

  function Logged(env: Env, h: History, m: Memory, e: Event): History {
    match e
    case Start(id, route, destination, now) =>
      if m.trip.Some? then h else Started(h, m, id, route, destination, now)
    case Located(raw, now) =>
      if !Accepts(env, m, raw) || m.trip.value.tripId !in h.logs then h
      else
        var id := m.trip.value.tripId;
        h.(logs := h.logs[id := WithFix(h.logs[id], ToTraceFix(raw).value)])
    case Rerouted(route, now) =>
      if m.trip.None? || !m.CanUpload() || m.trip.value.tripId !in h.logs then h
      else
        var id := m.trip.value.tripId;
        h.(logs := h.logs[id := WithRoute(h.logs[id], RerouteAt(m.trip.value, now), route)])
    case Committed(now) =>
      if m.op.Finalizing? && m.op.next.ThenStart?
      then Started(h, m, m.op.next.id, m.op.next.route, m.op.next.destination, now) else h
    case _ => h
  }

  // The trip whose record a step seals, if the sealing finds a fix to seal:
  // a step seals the record it finalizes, and the record of an accepted fix
  // when sealing is due.
  function ClearedBy(env: Env, e: Event, op: Pending): set<TripId> {
    if (op.Finalizing? || (e.Located? && op.Saving? && SealDue(op.record))) && Ready(env, op.record) != []
    then {op.record.tripId} else {}
  }

  function Noted(env: Env, h: History, m: Memory, e: Event, op: Pending): History {
    Logged(env, h, m, e).(cleared := h.cleared + ClearedBy(env, e, op))
  }

  predicate IsOperation(e: Event) {
    e.OptIn? || e.SetEnabled? || e.Forget? || e.Start? || e.Located? || e.Rerouted? || e.Ended?
  }

  // One step of the whole system; an event that cannot happen changes nothing.
  ghost function Do(env: Env, token: TokenId, w: World, e: Event): World {
    match e
    case Launch(order, now) =>
      if w.mem.Some? || !Enumerates(order, w.dev.trips) then w
      else
        var op := NextInit(env, order, now);
        w.(mem := Some(Memory(w.dev.settings, None, w.dev.outbox, op, Asleep)),
           hist := w.hist.(cleared := w.hist.cleared + ClearedBy(env, e, op)))
    case Kill => w.(mem := None)
    case Delivered(k, body, now) =>
      if (k, body) !in w.hist.sent || !Store.Fits(k, body) then w
      else w.(db := Handle(w.db, token, k, body, now).0)
    case Purged(now, days) => w.(db := Purge(w.db, now, days))
    case _ =>
      if w.mem.None? then w else DoRunning(env, token, w, w.mem.value, e)
  }

  function Using(h: History, e: Event): History {
    if e.Start? then h.(used := h.used + {e.id}) else h
  }

  ghost function DoRunning(env: Env, token: TokenId, w: World, m: Memory, e: Event): World {
    if IsOperation(e) then
      if !m.op.Idle? || (e.Start? && e.id in w.hist.used) then w
      else
        var m' := Operate(env, m, w.dev, e);
        w.(mem := Some(m'), hist := Noted(env, Using(w.hist, e), m, e, m'.op))
    else if e.Committed? then
      var m' := Continue(env, m, e.now);
      w.(mem := Some(m'), dev := Apply(w.dev, OpsOf(m.op)), hist := Noted(env, Remember(w.hist, m.op), m, e, m'.op))
    else if e.Aborted? then w.(mem := Some(m.(op := Idle)))
    else if e.Send? then
      if m.drain != Asleep || !m.CanUpload() || e.key !in m.outbox then w
      else
        var item := m.outbox[e.key];
        w.(mem := Some(m.(drain := Sending(item))), hist := w.hist.(sent := w.hist.sent + {(item.key, item.body)}))
    else if e.Answered? then
      if !m.drain.Sending? || !Store.Fits(m.drain.item.key, m.drain.item.body) then w
      else
        var item := m.drain.item;
        var (db', o) := Handle(w.db, token, item.key, item.body, e.now);
        w.(mem := Some(m.(drain := Clearing(item, o == Created || o == Replayed))), db := db',
           hist := w.hist.(refused := w.hist.refused || o == Conflict || o == NotYours))
    else if e.Failed? then
      if !m.drain.Sending? then w
      else
        match e.why
        case Transient => w.(mem := Some(m.(drain := Asleep)))
        case OtherPermanent => w.(mem := Some(m.(drain := Clearing(m.drain.item, false))))
        case Unauthorized(stored) =>
          var s := if m.settings.Some? then Some(m.settings.value.(rejected := true)) else None;
          w.(mem := Some(m.(drain := Asleep, settings := s)),
             dev := if m.settings.Some? && stored then w.dev.(settings := s) else w.dev)
    else if e.Cleared? then
      if !m.drain.Clearing? then w
      else if !e.ok then w.(mem := Some(m.(drain := Asleep)))
      else
        var k := m.drain.item.key;
        w.(mem := Some(m.(drain := Asleep, outbox := m.outbox - {k})), dev := w.dev.(outbox := w.dev.outbox - {k}),
           hist := if m.drain.acked then w.hist.(acked := w.hist.acked + {k}) else w.hist.(dropped := w.hist.dropped + {k}))
    else w
  }

  const EMPTY := World(None, Device(None, map[], map[]), Db(map[], map[], map[]),
                       History(map[], map[], {}, {}, {}, {}, {}, false, map[], {}))

  // ------------------------------------------------------- the invariant

  // Nothing bound so far stands in the way of what t will seal next, and all
  // of it came before what t still holds.
  ghost predicate Fresh(bound: map<Key, Body>, t: TripRecord) {
    forall k :: k in bound && TripOf(k) == t.tripId ==>
      && k.Chunk? && k.seqNo < t.nextSeq && t.sealedFixes
      && (bound[k].ChunkBody? ==> forall f :: f in bound[k].fixes ==> Precedes(f, t))
  }

  ghost predicate Precedes(f: Fix, t: TripRecord) {
    && t.head.Some? && f.t <= t.head.value.t
    && forall p :: p in t.pending ==> f.t < p.t
  }

  ghost predicate OpenTrip(h: History, t: TripRecord) {
    TripOk(t) && t.tripId in h.used && Fresh(h.bound, t) && Remembers(h, t)
  }

  // The record knows its trip's private points, and has sealed fixes only if
  // some were found clear of them.
  ghost predicate Remembers(h: History, t: TripRecord) {
    t.tripId in h.logs && Knows(h.logs[t.tripId], t) && (t.sealedFixes ==> t.tripId in h.cleared)
  }

  ghost predicate LogsOk(h: History) {
    forall id :: id in h.logs ==> id in h.used && LogOk(h.logs[id])
  }

  ghost predicate CurrentOk(h: History, m: Memory) {
    m.trip.Some? ==> m.trip.value.tripId in h.logs && Current(h.logs[m.trip.value.tripId], m.trip.value)
  }

  // What the record t seals under k: a valid body, private to the record,
  // which knows its trip's private points; and a chunk only once a fix was
  // found clear of them.
  ghost predicate Discloses(env: Env, h: History, t: TripRecord, k: Key, b: Body) {
    && Store.Fits(k, b) && ValidBody(k, b) && TripOf(k) == t.tripId && t.tripId in h.used
    && t.tripId in h.logs && Knows(h.logs[t.tripId], t) && Private(env, h.logs[t.tripId], t, b)
    && (b.EndBody? ==> b.prediction == t.prediction)
    && (k.Chunk? ==> t.head.Some? && t.tripId in h.cleared && (Ready(env, t) != [] || t.sealedFixes))
  }

  // Everything bound is valid, private to its record, and in order.
  ghost predicate BoundOk(env: Env, h: History) {
    && (forall k :: k in h.bound ==> k in h.source && Discloses(env, h, h.source[k], k, h.bound[k]))
    && (forall k, l :: SameTripInOrder(h.bound, k, l) ==> AllBefore(h.bound[k].fixes, h.bound[l].fixes))
  }

  ghost predicate SameTripInOrder(bound: map<Key, Body>, k: Key, l: Key) {
    && k in bound && l in bound && k.Chunk? && l.Chunk? && k.trip == l.trip && k.seqNo < l.seqNo
    && bound[k].ChunkBody? && bound[l].ChunkBody?
  }

  ghost predicate AllBefore(a: seq<Fix>, b: seq<Fix>) {
    forall x, y :: x in a && y in b ==> x.t < y.t
  }

  ghost predicate OutboxOk(h: History, outbox: map<Key, Item>) {
    forall k :: k in outbox ==> outbox[k].key == k && k in h.bound && h.bound[k] == outbox[k].body
  }

  // The server and the network.
  ghost predicate ServerOk(token: TokenId, h: History, db: Db) {
    && (forall k, b :: (k, b) in h.sent ==> k in h.bound && h.bound[k] == b)
    && (forall id :: id in db.trips ==> db.trips[id] == token)
    && (forall k :: Stored(db, k) ==> k in h.bound && StoredDigest(db, k) == Digest(h.bound[k]))
    && (forall k :: k in h.acked ==> k in h.bound && Store.Holds(db, token, k, h.bound[k]))
    && !h.refused
  }

  // No sealed request is ever lost: it waits in storage, or its end is known.
  ghost predicate Conserved(h: History, dev: Device) {
    forall k :: k in h.bound ==> k in dev.outbox || k in h.acked || k in h.dropped || k in h.forgotten
  }

  ghost predicate DeviceOk(h: History, dev: Device) {
    && OutboxOk(h, dev.outbox) && Conserved(h, dev)
    && (forall id :: id in dev.trips ==> dev.trips[id].tripId == id && OpenTrip(h, dev.trips[id]))
  }

  // The items of a waiting operation: new keys of one trip, sealed by its
  // record, after everything bound before.
  ghost predicate ItemsOk(env: Env, h: History, t: TripRecord, items: seq<Item>) {
    && t.tripId in h.used
    && (forall i :: 0 <= i < |items| ==>
          items[i].key !in h.bound && Discloses(env, h, t, items[i].key, items[i].body))
    && (forall i, j :: 0 <= i < j < |items| ==> items[i].key != items[j].key)
    && (forall k, l :: SameTripInOrder(h.bound + Bodies(items), k, l) ==>
          AllBefore((h.bound + Bodies(items))[k].fixes, (h.bound + Bodies(items))[l].fixes))
  }

  ghost predicate OpOk(env: Env, h: History, dev: Device, m: Memory) {
    match m.op
    case Idle => true
    case Saving(ops, t, items) =>
      && m.trip.Some? && m.trip.value.tripId == t.tripId
      && ops == NO_OPS.(putTrips := [m.trip.value], putOutbox := items)
      && ItemsOk(env, h, t, items) && Fresh(h.bound + Bodies(items), m.trip.value)
    case Configuring(ops, _) => ops == NO_OPS.(settings := ops.settings)
    case Finalizing(ops, t, items, next) =>
      && ops == NO_OPS.(putOutbox := items, deleteTrips := {t.tripId})
      && ItemsOk(env, h, t, items)
      && (next.ThenStart? ==> NewTrip(h, next.id) && next.id != t.tripId)
      && (next.ThenInit? ==>
            && m.trip.None? && Enumerates(next.rest, dev.trips)
            && forall i :: 0 <= i < |next.rest| ==> next.rest[i].tripId != t.tripId)
    case Forgetting(ops) =>
      && ops.putTrips == [] && ops.putOutbox == [] && dev.trips.Keys <= ops.deleteTrips
      && dev.outbox.Keys <= ops.deleteOutbox
  }

  // Taken, and nothing done with it yet.
  ghost predicate NewTrip(h: History, id: TripId) {
    id in h.used && id !in h.logs && forall k :: k in h.bound ==> TripOf(k) != id
  }

  ghost predicate MemoryOk(env: Env, h: History, dev: Device, m: Memory) {
    && OutboxOk(h, m.outbox) && m.outbox.Keys <= dev.outbox.Keys
    && (m.trip.Some? ==> OpenTrip(h, m.trip.value))
    && OpOk(env, h, dev, m)
    && (m.drain.Sending? ==> ItemBound(h, m.drain.item) && (m.drain.item.key, m.drain.item.body) in h.sent)
    && (m.drain.Clearing? ==> ItemBound(h, m.drain.item))
  }

  ghost predicate ItemBound(h: History, i: Item) {
    i.key in h.bound && h.bound[i.key] == i.body
  }

  ghost predicate ClearingOk(token: TokenId, h: History, db: Db, m: Memory) {
    m.drain.Clearing? && m.drain.acked ==> Store.Holds(db, token, m.drain.item.key, m.drain.item.body)
  }

  ghost predicate Inv(env: Env, token: TokenId, w: World) {
    && LogsOk(w.hist) && BoundOk(env, w.hist) && DeviceOk(w.hist, w.dev) && ServerOk(token, w.hist, w.db)
    && (w.mem.Some? ==>
          && MemoryOk(env, w.hist, w.dev, w.mem.value) && CurrentOk(w.hist, w.mem.value)
          && ClearingOk(token, w.hist, w.db, w.mem.value))
  }
}
