// The per-client limiter (api/ratelimit.py): one bucket per client, the least
// recently used one dropped when there are too many.
module Limiter {
  import opened Topology
  import opened RateLimit

  type Client = string

  datatype Entry = Entry(key: Client, bucket: Bucket)

  // A request of `key`, the clock where a new bucket would be built, and the
  // clock where the token is taken.
  datatype Request = Request(key: Client, made: real, now: real)

  function Without(entries: seq<Entry>, key: Client): (r: seq<Entry>)
    ensures |r| <= |entries|
  {
    if entries == [] then []
    else
      var n := |entries| - 1;
      Without(entries[..n], key) + if entries[n].key == key then [] else [entries[n]]
  }

  function Find(entries: seq<Entry>, key: Client): Option<Bucket> {
    if entries == [] then None
    else
      var n := |entries| - 1;
      if entries[n].key == key then Some(entries[n].bucket) else Find(entries[..n], key)
  }

  // The map in insertion order, which reinsertion makes the order of use.
  function LimiterStep(entries: seq<Entry>, r: Request, max: nat, q: Quota): (seq<Entry>, Option<real>)
    requires max > 0 && q.rate > 0.0
  {
    var found, rest := Find(entries, r.key), Without(entries, r.key);
    var kept := if found.None? && |rest| >= max then rest[1..] else rest;
    var take := BucketStep(if found.Some? then found.value else Bucket(q.capacity, r.made), r.now, q);
    (kept + [Entry(r.key, take.bucket)], take.retryAfter)
  }

  function After(requests: seq<Request>, max: nat, q: Quota): seq<Entry>
    requires max > 0 && q.rate > 0.0
  {
    if requests == [] then []
    else LimiterStep(After(requests[..|requests| - 1], max, q), requests[|requests| - 1], max, q).0
  }

  // A client the map does not know starts with a full burst, whoever else has
  // been asking: it is admitted unless there is not one token to the burst.
  lemma {:induction false} StartsFull(entries: seq<Entry>, r: Request, max: nat, q: Quota)
    requires max > 0 && q.Ok() && Find(entries, r.key).None? && r.made <= r.now
    ensures var (after, answer) := LimiterStep(entries, r, max, q);
            && (answer.None? <==> q.capacity >= 1.0)
            && after != [] && after[|after| - 1].key == r.key
            && after[|after| - 1].bucket == Bucket(if q.capacity >= 1.0 then q.capacity - 1.0 else q.capacity, r.now)
  {
    assert Forward(r.now - r.made) * q.rate >= 0.0;
  }

  // ------------------------------------------------------------- recency

  // When `key` was last used, or -1.
  function LastUse(requests: seq<Request>, key: Client): (i: int)
    ensures -1 <= i < |requests|
    ensures i >= 0 ==> requests[i].key == key
    ensures forall j :: i < j < |requests| ==> requests[j].key != key
  {
    if requests == [] then -1
    else
      var n := |requests| - 1;
      if requests[n].key == key then n else LastUse(requests[..n], key)
  }

  // The same, without its properties.
  function Used(requests: seq<Request>, key: Client): int { LastUse(requests, key) }

  ghost predicate Tracked(entries: seq<Entry>, key: Client) {
    exists i :: 0 <= i < |entries| && entries[i].key == key
  }

  // The most recently used `max` keys, least recent first: in order of last
  // use, none left out while there is room, and none left out that was used
  // later than one kept.
  ghost predicate MostRecent(entries: seq<Entry>, requests: seq<Request>, max: nat) {
    && |entries| <= max
    && (forall i :: 0 <= i < |entries| ==> Used(requests, entries[i].key) >= 0)
    && (forall i, j :: 0 <= i < j < |entries| ==> Used(requests, entries[i].key) < Used(requests, entries[j].key))
    && (forall k :: Used(requests, k) >= 0 && !Tracked(entries, k) ==>
          |entries| == max && forall i :: 0 <= i < |entries| ==> Used(requests, k) < Used(requests, entries[i].key))
  }

  ghost predicate Distinct(entries: seq<Entry>) {
    forall i, j :: 0 <= i < j < |entries| ==> entries[i].key != entries[j].key
  }

  lemma {:induction false} FindWhere(entries: seq<Entry>, key: Client)
    ensures Find(entries, key).Some? <==> Tracked(entries, key)
    ensures Distinct(entries) ==>
              forall i :: 0 <= i < |entries| && entries[i].key == key ==> Find(entries, key) == Some(entries[i].bucket)
  {
    if entries != [] {
      var n := |entries| - 1;
      FindWhere(entries[..n], key);
      if Tracked(entries[..n], key) {
        var i :| 0 <= i < n && entries[..n][i].key == key;
        assert entries[i].key == key;
      }
      forall i | 0 <= i < |entries| && entries[i].key == key && Distinct(entries)
        ensures Find(entries, key) == Some(entries[i].bucket) {
        if i < n {
          assert entries[..n][i] == entries[i];
          assert Distinct(entries[..n]);
        }
      }
      if Tracked(entries, key) && entries[n].key != key {
        var i :| 0 <= i < |entries| && entries[i].key == key;
        assert entries[..n][i].key == key;
      }
    }
  }

  // Without a key that is there once: everything else, in the same order.
  lemma {:induction false} WithoutIs(entries: seq<Entry>, key: Client, i: nat)
    requires Distinct(entries) && i < |entries| && entries[i].key == key
    ensures Without(entries, key) == entries[..i] + entries[i + 1..]
  {
    var n := |entries| - 1;
    assert Distinct(entries[..n]);
    if i < n {
      WithoutIs(entries[..n], key, i);
      assert entries[..n][..i] + entries[..n][i + 1..] + [entries[n]] == entries[..i] + entries[i + 1..];
    } else {
      WithoutAbsent(entries[..n], key);
      assert entries[..n] + [] == entries[..i] + entries[i + 1..];
    }
  }

  lemma {:induction false} WithoutAbsent(entries: seq<Entry>, key: Client)
    requires forall i :: 0 <= i < |entries| ==> entries[i].key != key
    ensures Without(entries, key) == entries
  {
    if entries != [] {
      var n := |entries| - 1;
      WithoutAbsent(entries[..n], key);
      assert entries[..n] + [entries[n]] == entries;
    }
  }

  // One request's effect on the map: the key moves to the end, or the oldest
  // goes to make room.
  lemma StepShape(entries: seq<Entry>, r: Request, max: nat, q: Quota) returns (gone: nat)
    requires max > 0 && q.rate > 0.0 && Distinct(entries) && |entries| <= max
    ensures Follows(entries, LimiterStep(entries, r, max, q).0, gone, r.key) && MayGo(entries, gone, r.key, max)
  {
    hide BucketStep, Without, Find, Distinct, Follows;
    FindWhere(entries, r.key);
    if Tracked(entries, r.key) {
      var i: nat :| 0 <= i < |entries| && entries[i].key == r.key;
      gone := i;
      WithoutIs(entries, r.key, i);
    } else {
      gone := if |entries| >= max then 0 else |entries|;
      WithoutAbsent(entries, r.key);
    }
    StepFollows(entries, r, max, q, gone);
  }

  lemma {:induction false} StepFollows(entries: seq<Entry>, r: Request, max: nat, q: Quota, gone: nat)
    requires max > 0 && q.rate > 0.0 && gone <= |entries|
    requires Find(entries, r.key).Some? ==>
               gone < |entries| && Without(entries, r.key) == entries[..gone] + entries[gone + 1..]
    requires Find(entries, r.key).None? ==>
               Without(entries, r.key) == entries && gone == if |entries| >= max then 0 else |entries|
    ensures Follows(entries, LimiterStep(entries, r, max, q).0, gone, r.key)
  {
    hide BucketStep, Without, Find, Follows;
    var found, rest := Find(entries, r.key), Without(entries, r.key);
    var kept := if found.None? && |rest| >= max then rest[1..] else rest;
    var next := LimiterStep(entries, r, max, q).0;
    if found.None? {
      if |entries| >= max {
        assert kept == entries[..gone] + entries[gone + 1..];
      } else {
        assert kept == entries[..gone] + [];
      }
    }
    SnocFollows(entries, kept, next[|next| - 1], gone);
  }

  lemma SnocFollows(entries: seq<Entry>, kept: seq<Entry>, last: Entry, gone: nat)
    requires gone <= |entries| && kept == entries[..gone] + if gone < |entries| then entries[gone + 1..] else []
    ensures Follows(entries, kept + [last], gone, last.key)
  {
    assert (kept + [last])[..|kept|] == kept;
  }

  // After any sequence of requests the map is exactly the most recently used
  // `max` keys.
  lemma {:induction false} IsMostRecent(requests: seq<Request>, max: nat, q: Quota)
    requires max > 0 && q.rate > 0.0
    ensures MostRecent(After(requests, max, q), requests, max)
  {
    if requests != [] {
      var n := |requests| - 1;
      IsMostRecent(requests[..n], max, q);
      var before, after := After(requests[..n], max, q), After(requests, max, q);
      MostRecentDistinct(before, requests[..n], max);
      var gone := StepShape(before, requests[n], max, q);
      hide Used, LimiterStep, Follows, MayGo, Tracked;
      StillRecent(requests, before, after, gone, max);
    }
  }

  lemma Touched(requests: seq<Request>)
    requires requests != []
    ensures var n := |requests| - 1;
            && Used(requests, requests[n].key) == n
            && forall k :: k != requests[n].key ==> Used(requests, k) == Used(requests[..n], k) < n
  {
  }

  // The map with place `gone` dropped (none, if there is no such place) and
  // `key` last.
  ghost predicate Follows(before: seq<Entry>, after: seq<Entry>, gone: nat, key: Client) {
    && after != [] && after[|after| - 1].key == key && gone <= |before|
    && after[..|after| - 1] == before[..gone] + if gone < |before| then before[gone + 1..] else []
  }

  // Why that place: it was the key's own, or the oldest of a full map.
  ghost predicate MayGo(before: seq<Entry>, gone: nat, key: Client, max: nat) {
    if gone < |before| && before[gone].key == key then true
    else !Tracked(before, key) && (if gone < |before| then |before| == max && gone == 0 else |before| < max)
  }

  function From(j: nat, gone: nat): nat { if j < gone then j else j + 1 }

  lemma Place(before: seq<Entry>, after: seq<Entry>, gone: nat, key: Client, j: nat)
    requires Follows(before, after, gone, key) && j < |after| - 1
    ensures From(j, gone) < |before| && after[j] == before[From(j, gone)]
  {
    assert after[..|after| - 1][j] == after[j];
  }

  // Every other entry is still there.
  lemma StillThere(before: seq<Entry>, after: seq<Entry>, gone: nat, key: Client, x: nat)
    requires Follows(before, after, gone, key) && x < |before| && x != gone
    ensures Tracked(after, before[x].key)
  {
    var j := if x < gone then x else x - 1;
    assert after[..|after| - 1][j] == before[x];
    assert after[j].key == before[x].key;
  }

  lemma OtherKey(entries: seq<Entry>, gone: nat, key: Client, x: nat, max: nat)
    requires Distinct(entries) && MayGo(entries, gone, key, max) && x < |entries| && x != gone
    ensures entries[x].key != key
  {
  }

  lemma StillInOrder(requests: seq<Request>, before: seq<Entry>, after: seq<Entry>, gone: nat, max: nat)
    requires requests != [] && MostRecent(before, requests[..|requests| - 1], max) && Distinct(before)
    requires Follows(before, after, gone, requests[|requests| - 1].key)
    requires MayGo(before, gone, requests[|requests| - 1].key, max)
    ensures forall i :: 0 <= i < |after| ==> Used(requests, after[i].key) >= 0
    ensures forall i, j :: 0 <= i < j < |after| ==> Used(requests, after[i].key) < Used(requests, after[j].key)
  {
    hide Used, Tracked, Follows, MayGo;
    var key := requests[|requests| - 1].key;
    Touched(requests);
    LastIs(before, after, gone, key);
    forall j: nat | j < |after| - 1
      ensures From(j, gone) < |before| && after[j] == before[From(j, gone)] && after[j].key != key {
      Place(before, after, gone, key, j);
      OtherKey(before, gone, key, From(j, gone), max);
    }
    forall i, j | 0 <= i < j < |after| ensures Used(requests, after[i].key) < Used(requests, after[j].key) {
      if j < |after| - 1 {
        var earlier := requests[..|requests| - 1];
        assert Used(earlier, before[From(i, gone)].key) < Used(earlier, before[From(j, gone)].key);
      }
    }
  }

  lemma LastIs(before: seq<Entry>, after: seq<Entry>, gone: nat, key: Client)
    requires Follows(before, after, gone, key)
    ensures after != [] && after[|after| - 1].key == key
    ensures |after| == if gone < |before| then |before| else |before| + 1
  {
  }

  lemma StillComplete(requests: seq<Request>, before: seq<Entry>, after: seq<Entry>, gone: nat, max: nat, k: Client)
    requires requests != [] && MostRecent(before, requests[..|requests| - 1], max) && Distinct(before)
    requires Follows(before, after, gone, requests[|requests| - 1].key)
    requires MayGo(before, gone, requests[|requests| - 1].key, max)
    requires Used(requests, k) >= 0 && !Tracked(after, k)
    ensures |after| == max && forall i :: 0 <= i < |after| ==> Used(requests, k) < Used(requests, after[i].key)
  {
    hide Used, Follows;
    var key := requests[|requests| - 1].key;
    Touched(requests);
    LastIs(before, after, gone, key);
    assert k != key;
    if Tracked(before, k) {
      var x :| 0 <= x < |before| && before[x].key == k;
      if x != gone { StillThere(before, after, gone, key, x); }
    }
    forall j: nat | j < |after| - 1 ensures Used(requests, k) < Used(requests, after[j].key) {
      Place(before, after, gone, key, j);
      OtherKey(before, gone, key, From(j, gone), max);
    }
  }

  lemma StillRecent(requests: seq<Request>, before: seq<Entry>, after: seq<Entry>, gone: nat, max: nat)
    requires requests != [] && MostRecent(before, requests[..|requests| - 1], max)
    requires Follows(before, after, gone, requests[|requests| - 1].key)
    requires MayGo(before, gone, requests[|requests| - 1].key, max)
    ensures MostRecent(after, requests, max)
  {
    hide Used, Tracked, Follows;
    MostRecentDistinct(before, requests[..|requests| - 1], max);
    LastIs(before, after, gone, requests[|requests| - 1].key);
    StillInOrder(requests, before, after, gone, max);
    forall k | Used(requests, k) >= 0 && !Tracked(after, k)
      ensures |after| == max && forall i :: 0 <= i < |after| ==> Used(requests, k) < Used(requests, after[i].key) {
      StillComplete(requests, before, after, gone, max, k);
    }
  }

  // Keys in the map are distinct.
  lemma MostRecentDistinct(entries: seq<Entry>, requests: seq<Request>, max: nat)
    requires MostRecent(entries, requests, max)
    ensures Distinct(entries)
  {
  }

  ghost predicate AskedIn(requests: seq<Request>, key: Client) {
    exists j :: 0 <= j < |requests| && requests[j].key == key
  }

  // Being dropped takes `max` other clients: a client that asked and is no
  // longer in the map was followed by requests of `max` distinct others.
  lemma {:induction false} EvictionCost(requests: seq<Request>, max: nat, q: Quota, key: Client)
    requires max > 0 && q.rate > 0.0
    requires LastUse(requests, key) >= 0 && !Tracked(After(requests, max, q), key)
    ensures var entries, since := After(requests, max, q), requests[LastUse(requests, key) + 1..];
            && |entries| == max && Distinct(entries)
            && forall i :: 0 <= i < |entries| ==> entries[i].key != key && AskedIn(since, entries[i].key)
  {
    IsMostRecent(requests, max, q);
    var entries, last := After(requests, max, q), LastUse(requests, key);
    forall i | 0 <= i < |entries|
      ensures entries[i].key != key
      ensures AskedIn(requests[last + 1..], entries[i].key) {
      var l := LastUse(requests, entries[i].key);
      assert requests[last + 1..][l - last - 1] == requests[l];
    }
  }

  // ------------------------------------------------------------ the quota

  function Admitted(requests: seq<Request>, max: nat, q: Quota, key: Client): nat
    requires max > 0 && q.rate > 0.0
  {
    if requests == [] then 0
    else
      var n := |requests| - 1;
      var answer := LimiterStep(After(requests[..n], max, q), requests[n], max, q).1;
      Admitted(requests[..n], max, q, key) + if requests[n].key == key && answer.None? then 1 else 0
  }

  // How often `key` was dropped.
  ghost function Evictions(requests: seq<Request>, max: nat, q: Quota, key: Client): nat
    requires max > 0 && q.rate > 0.0
  {
    if requests == [] then 0
    else
      var n := |requests| - 1;
      Evictions(requests[..n], max, q, key)
      + if Tracked(After(requests[..n], max, q), key) && !Tracked(After(requests, max, q), key) then 1 else 0
  }

  // How often a bucket was built for it.
  ghost function Builds(requests: seq<Request>, max: nat, q: Quota, key: Client): nat
    requires max > 0 && q.rate > 0.0
  {
    if requests == [] then 0
    else
      var n := |requests| - 1;
      Builds(requests[..n], max, q, key)
      + if requests[n].key == key && !Tracked(After(requests[..n], max, q), key) then 1 else 0
  }

  // All forward movement of the clock.
  function Moved(requests: seq<Request>): (r: real)
    ensures r >= 0.0
  {
    if requests == [] then 0.0
    else
      var n := |requests| - 1;
      Moved(requests[..n]) + (if n == 0 then 0.0 else Forward(requests[n].made - requests[n - 1].now))
      + Forward(requests[n].now - requests[n].made)
  }

  lemma {:induction false} BuildsAreEvictions(requests: seq<Request>, max: nat, q: Quota, key: Client)
    requires max > 0 && q.rate > 0.0
    ensures Builds(requests, max, q, key)
         == Evictions(requests, max, q, key) + if Tracked(After(requests, max, q), key) then 1 else 0
  {
    if requests != [] {
      var n := |requests| - 1;
      BuildsAreEvictions(requests[..n], max, q, key);
      var before, after := After(requests[..n], max, q), After(requests, max, q);
      StillDistinct(requests[..n], max, q);
      if requests[n].key == key {
        var gone := StepShape(before, requests[n], max, q);
        LastIs(before, after, gone, key);
        assert after[|after| - 1].key == key;
      } else {
        OthersStay(before, requests[n], max, q, key);
      }
      hide LimiterStep;
    }
  }

  lemma {:induction false} StillDistinct(requests: seq<Request>, max: nat, q: Quota)
    requires max > 0 && q.rate > 0.0
    ensures Distinct(After(requests, max, q)) && |After(requests, max, q)| <= max
  {
    IsMostRecent(requests, max, q);
    MostRecentDistinct(After(requests, max, q), requests, max);
  }

  lemma NextDistinct(before: seq<Entry>, after: seq<Entry>, gone: nat, key: Client, max: nat)
    requires Distinct(before) && Follows(before, after, gone, key) && MayGo(before, gone, key, max)
    ensures Distinct(after)
  {
    hide Follows, MayGo;
    LastIs(before, after, gone, key);
    forall i: nat, j: nat | i < j < |after| ensures after[i].key != after[j].key {
      Place(before, after, gone, key, i);
      OtherKey(before, gone, key, From(i, gone), max);
      if j < |after| - 1 { Place(before, after, gone, key, j); }
    }
  }

  // Another client's request adds nobody and touches no other bucket.
  lemma {:induction false} OthersStay(entries: seq<Entry>, r: Request, max: nat, q: Quota, key: Client)
    requires max > 0 && q.rate > 0.0 && Distinct(entries) && |entries| <= max && r.key != key
    ensures var next := LimiterStep(entries, r, max, q).0;
            Tracked(next, key) ==> Tracked(entries, key) && Find(next, key) == Find(entries, key)
  {
    var next := LimiterStep(entries, r, max, q).0;
    var gone := StepShape(entries, r, max, q);
    FindWhere(entries, key);
    FindWhere(next, key);
    NextDistinct(entries, next, gone, r.key, max);
    hide LimiterStep, Find, Follows, MayGo;
    LastIs(entries, next, gone, r.key);
    if Tracked(next, key) {
      var i: nat :| 0 <= i < |next| && next[i].key == key;
      Place(entries, next, gone, r.key, i);
    }
  }

  // What a client may still draw: the tokens it holds, and what they have
  // grown by since its last request.
  function Owed(found: Option<Bucket>, now: real, q: Quota): real {
    if found.None? then 0.0 else found.value.tokens + Credit(Forward(now - found.value.ts), q.rate)
  }

  function Now(requests: seq<Request>): real {
    if requests == [] then 0.0 else requests[|requests| - 1].now
  }

  ghost predicate WithinQuota(requests: seq<Request>, max: nat, q: Quota, key: Client)
    requires max > 0 && q.rate > 0.0
  {
    var found := Find(After(requests, max, q), key);
    && (found.Some? ==> Holds(found.value, q))
    && Admitted(requests, max, q, key) as real + Owed(found, Now(requests), q)
       <= Credit(Builds(requests, max, q, key) as real, q.capacity) + Credit(Moved(requests), q.rate)
  }

  // The client's own request, on the bucket it held or on a new one.
  lemma OwnRequest(found: Option<Bucket>, r: Request, q: Quota)
    requires q.Ok() && (found.Some? ==> Holds(found.value, q))
    ensures var b := if found.Some? then found.value else Bucket(q.capacity, r.made);
            var b' := BucketStep(b, r.now, q).bucket;
            && Holds(b', q)
            && Admits(b, r.now, q) as real + Owed(Some(b'), r.now, q)
               <= (if found.Some? then Owed(found, r.now, q) else q.capacity + Credit(Forward(r.now - r.made), q.rate))
  {
    var b := if found.Some? then found.value else Bucket(q.capacity, r.made);
    StepBalances(b, r.now, q);
    CreditAdds(0.0, 0.0, q.rate);
    hide BucketStep, Credit, Spill;
  }

  // While the clock moves on, what is owed grows at most at the rate.
  lemma OwedGrows(found: Option<Bucket>, was: real, r: Request, q: Quota)
    requires q.Ok() && found.Some?
    ensures Owed(found, r.now, q)
         <= Owed(found, was, q) + Credit(Forward(r.made - was) + Forward(r.now - r.made), q.rate)
  {
    var ts := found.value.ts;
    CreditAdds(Forward(was - ts), Forward(r.made - was) + Forward(r.now - r.made), q.rate);
    CreditAdds(Forward(r.now - ts), Forward(was - ts) + (Forward(r.made - was) + Forward(r.now - r.made)), q.rate);
    hide Credit;
  }

  // How far the clock moved with the last request.
  function Gap(requests: seq<Request>): real
    requires requests != []
  {
    var n := |requests| - 1;
    (if n == 0 then 0.0 else Forward(requests[n].made - requests[n - 1].now)) + Forward(requests[n].now - requests[n].made)
  }

  lemma {:induction false} MovedStep(requests: seq<Request>, q: Quota)
    requires requests != [] && q.Ok()
    ensures Credit(Moved(requests), q.rate)
         == Credit(Moved(requests[..|requests| - 1]), q.rate) + Credit(Gap(requests), q.rate)
    ensures Credit(Forward(requests[|requests| - 1].now - requests[|requests| - 1].made), q.rate)
         <= Credit(Gap(requests), q.rate)
    ensures Credit(Gap(requests), q.rate) >= 0.0
  {
    var last := requests[|requests| - 1];
    CreditAdds(Moved(requests[..|requests| - 1]), Gap(requests), q.rate);
    CreditAdds(Forward(last.now - last.made), Gap(requests), q.rate);
    CreditAdds(0.0, Gap(requests), q.rate);
    hide Credit;
  }

  lemma Unowed(found: Option<Bucket>, now: real, q: Quota)
    requires q.Ok() && (found.Some? ==> Holds(found.value, q))
    ensures Owed(found, now, q) >= 0.0
  {
    if found.Some? { CreditAdds(0.0, Forward(now - found.value.ts), q.rate); }
    hide Credit;
  }

  lemma OwnQuota(requests: seq<Request>, max: nat, q: Quota, key: Client)
    requires max > 0 && q.Ok() && requests != [] && requests[|requests| - 1].key == key
    requires WithinQuota(requests[..|requests| - 1], max, q, key)
    ensures WithinQuota(requests, max, q, key)
  {
    hide Credit, Forward, Holds, Tracked, BucketStep, Gap, Without, Moved;
    var n := |requests| - 1;
    var r := requests[n];
    var found := Find(After(requests[..n], max, q), key);
    FindWhere(After(requests[..n], max, q), key);
    MovedStep(requests, q);
    OwnRequest(found, r, q);
    if found.Some? {
      OwedFrom(requests, max, q, key);
    }
    var builds := Builds(requests[..n], max, q, key) as real;
    CreditAdds(builds, 1.0, q.capacity);
    CreditOfOne(q.capacity);
    hide Owed;
  }

  lemma CreditOfOne(rate: real)
    ensures Credit(1.0, rate) == rate
  {
  }

  // Over one request a tracked client is owed at most the clock's movement.
  lemma OwedFrom(requests: seq<Request>, max: nat, q: Quota, key: Client)
    requires max > 0 && q.Ok() && requests != []
    requires Find(After(requests[..|requests| - 1], max, q), key).Some?
    ensures var found := Find(After(requests[..|requests| - 1], max, q), key);
            Owed(found, Now(requests), q) <= Owed(found, Now(requests[..|requests| - 1]), q) + Credit(Gap(requests), q.rate)
  {
    hide Credit, Forward, Owed, LimiterStep;
    var n := |requests| - 1;
    OwedGrows(Find(After(requests[..n], max, q), key), Now(requests[..n]), requests[n], q);
  }

  lemma OtherQuota(requests: seq<Request>, max: nat, q: Quota, key: Client)
    requires max > 0 && q.Ok() && requests != [] && requests[|requests| - 1].key != key
    requires WithinQuota(requests[..|requests| - 1], max, q, key)
    ensures WithinQuota(requests, max, q, key)
  {
    hide Credit, Forward, Holds, Owed, Tracked, LimiterStep, Gap, Moved, Distinct;
    var n := |requests| - 1;
    var before, after := After(requests[..n], max, q), After(requests, max, q);
    StillDistinct(requests[..n], max, q);
    OthersStay(before, requests[n], max, q, key);
    FindWhere(after, key);
    FindWhere(before, key);
    MovedStep(requests, q);
    Unowed(Find(before, key), Now(requests[..n]), q);
    OwedNone(Now(requests), q);
    if Find(before, key).Some? { OwedFrom(requests, max, q, key); }
  }

  lemma OwedNone(now: real, q: Quota)
    ensures Owed(None, now, q) == 0.0
  {
  }

  lemma {:induction false} AlwaysWithinQuota(requests: seq<Request>, max: nat, q: Quota, key: Client)
    requires max > 0 && q.Ok()
    ensures WithinQuota(requests, max, q, key)
  {
    if requests == [] {
      CreditAdds(0.0, 0.0, q.rate);
      CreditAdds(0.0, 0.0, q.capacity);
    } else {
      AlwaysWithinQuota(requests[..|requests| - 1], max, q, key);
      hide WithinQuota;
      if requests[|requests| - 1].key == key {
        OwnQuota(requests, max, q, key);
      } else {
        OtherQuota(requests, max, q, key);
      }
    }
  }

  // One client is admitted at most once per token: a full bucket, another one
  // each time it was dropped, and the rate times the clock's forward movement.
  lemma {:induction false} ClientBound(requests: seq<Request>, max: nat, q: Quota, key: Client)
    requires max > 0 && q.Ok()
    ensures Admitted(requests, max, q, key) as real
         <= Credit((1 + Evictions(requests, max, q, key)) as real, q.capacity) + Credit(Moved(requests), q.rate)
  {
    AlwaysWithinQuota(requests, max, q, key);
    BuildsAreEvictions(requests, max, q, key);
    hide Admitted, Evictions, Builds, Moved, After, Find, Tracked, Owed, Holds, Credit;
    Unowed(Find(After(requests, max, q), key), Now(requests), q);
    CreditAdds(Builds(requests, max, q, key) as real, (1 + Evictions(requests, max, q, key)) as real, q.capacity);
  }

  // ----------------------------------------------------- the implementation

  datatype Slot = Slot(key: Client, bucket: InProcessTokenBucket)

  function IndexOf(slots: seq<Slot>, key: Client): (i: nat)
    ensures i <= |slots|
    ensures i < |slots| ==> slots[i].key == key
    ensures forall j :: 0 <= j < i ==> slots[j].key != key
  {
    if slots == [] || slots[0].key == key then 0 else 1 + IndexOf(slots[1..], key)
  }

  class PerClientLimiter {
    const quota: Quota
    const max: nat
    // The dictionary, in insertion order.
    var slots: seq<Slot>

    ghost function Buckets(): set<InProcessTokenBucket>
      reads this
    {
      set i | 0 <= i < |slots| :: slots[i].bucket
    }

    ghost predicate Valid()
      reads this
    {
      && max > 0 && quota.rate > 0.0
      && forall i, j :: 0 <= i < j < |slots| ==> slots[i].key != slots[j].key && slots[i].bucket != slots[j].bucket
    }

    ghost predicate Shared()
      reads this, Buckets()
    {
      forall i :: 0 <= i < |slots| ==> slots[i].bucket.quota == quota
    }

    ghost function Entries(): (r: seq<Entry>)
      reads this, Buckets()
      ensures |r| == |slots|
      ensures forall i :: 0 <= i < |slots| ==> r[i] == Entry(slots[i].key, slots[i].bucket.Content())
    {
      seq(|slots|, i requires 0 <= i < |slots| reads this, Buckets() =>
        assert slots[i].bucket in Buckets(); Entry(slots[i].key, slots[i].bucket.Content()))
    }

    constructor (quota: Quota, maxClients: int)
      requires quota.rate > 0.0
      ensures Valid() && Shared() && Entries() == [] && this.quota == quota
      ensures max == if maxClients > 1 then maxClients else 1
    {
      this.quota := quota;
      max := if maxClients > 1 then maxClients else 1;
      slots := [];
    }

    // The lookup agrees with the map's entries.
    lemma {:induction false} Lookup(key: Client)
      requires Valid()
      ensures var i := IndexOf(slots, key);
              && (i < |slots| ==> Find(Entries(), key) == Some(slots[i].bucket.Content())
                                  && Without(Entries(), key) == Entries()[..i] + Entries()[i + 1..])
              && (i == |slots| ==> Find(Entries(), key) == None && Without(Entries(), key) == Entries())
    {
      var i := IndexOf(slots, key);
      assert Distinct(Entries());
      FindWhere(Entries(), key);
      if i < |slots| {
        assert Entries()[i].key == key;
        WithoutIs(Entries(), key, i);
      } else {
        WithoutAbsent(Entries(), key);
      }
    }

    // Pop the client's bucket, or make room for a new one.
    method Pop(key: Client) returns (bucket: InProcessTokenBucket?)
      requires Valid() && Shared()
      modifies this
      ensures Valid() && Shared() && Buckets() <= old(Buckets())
      ensures forall j :: 0 <= j < |slots| ==> slots[j].key != key && slots[j].bucket != bucket
      ensures var found := Find(old(Entries()), key);
              && (found.Some? <==> bucket != null)
              && (bucket != null ==>
                    && bucket in old(Buckets()) && bucket.quota == quota && found.value == bucket.Content()
                    && Entries() == Without(old(Entries()), key))
              && (bucket == null ==>
                    var rest := Without(old(Entries()), key); Entries() == if |rest| >= max then rest[1..] else rest)
    {
      Lookup(key);
      hide Find, Without, Entries;
      var i := IndexOf(slots, key);
      bucket := null;
      if i < |slots| {
        bucket := slots[i].bucket;
        RemoveAt(i);
      } else if |slots| >= max {
        RemoveAt(0);
      }
    }

    method RemoveAt(i: nat)
      requires Valid() && Shared() && i < |slots|
      modifies this
      ensures Valid() && Shared() && Buckets() <= old(Buckets())
      ensures slots == old(slots)[..i] + old(slots)[i + 1..]
      ensures Entries() == old(Entries())[..i] + old(Entries())[i + 1..]
      ensures forall j :: 0 <= j < |slots| ==>
                && slots[j].key != old(slots)[i].key && slots[j].bucket != old(slots)[i].bucket
                && slots[j] in old(slots)
    {
      slots := slots[..i] + slots[i + 1..];
      assert forall j :: 0 <= j < |slots| ==> slots[j] == old(slots)[From(j, i)];
    }

    method Push(key: Client, bucket: InProcessTokenBucket)
      requires Valid() && Shared() && bucket.quota == quota
      requires forall j :: 0 <= j < |slots| ==> slots[j].key != key && slots[j].bucket != bucket
      modifies this
      ensures Valid() && Shared() && slots == old(slots) + [Slot(key, bucket)]
      ensures Entries() == old(Entries()) + [Entry(key, bucket.Content())]
    {
      slots := slots + [Slot(key, bucket)];
    }

    // The last bucket's request.
    method TakeLast(now: real) returns (retryAfter: Option<real>)
      requires Valid() && Shared() && slots != []
      modifies slots[|slots| - 1].bucket
      ensures Valid() && Shared() && slots == old(slots)
      ensures var n, last := |slots| - 1, old(Entries()[|slots| - 1]);
              && Take(slots[n].bucket.Content(), retryAfter) == BucketStep(last.bucket, now, quota)
              && Entries() == old(Entries())[..n] + [Entry(last.key, slots[n].bucket.Content())]
    {
      hide BucketStep;
      retryAfter := slots[|slots| - 1].bucket.Acquire(now);
    }

    method Acquire(key: Client, made: real, now: real) returns (retryAfter: Option<real>)
      requires Valid() && Shared()
      modifies this, Buckets()
      ensures Valid() && Shared()
      ensures (Entries(), retryAfter) == LimiterStep(old(Entries()), Request(key, made, now), max, quota)
    {
      hide Find, Without, BucketStep, Entries, Valid, Shared;
      assert quota.rate > 0.0 by { RateIsPositive(); }
      var popped := Pop(key);
      var bucket: InProcessTokenBucket;
      if popped == null {
        bucket := new InProcessTokenBucket(quota, made);
      } else {
        bucket := popped;
      }
      ghost var kept := Entries();
      Push(key, bucket);
      assert Entries()[..|Entries()| - 1] == kept;
      retryAfter := TakeLast(now);
    }

    lemma RateIsPositive()
      requires Valid()
      ensures quota.rate > 0.0
    {
    }
  }
}
