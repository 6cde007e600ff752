// Token buckets (api/ratelimit.py): the arithmetic, the two backends, and
// what any run of requests can get out of them. The clock is whatever the
// source reads: it may stand still or step back.
module RateLimit {
  import opened Topology

  datatype Quota = Quota(rate: real, capacity: real) {
    ghost predicate Ok() { rate > 0.0 && capacity >= 0.0 }
  }

  datatype Bucket = Bucket(tokens: real, ts: real)

  // A bucket after a request, and how long the caller was told to wait: None
  // when it was admitted.
  datatype Take = Take(bucket: Bucket, retryAfter: Option<real>)

  function Forward(dt: real): real { if dt > 0.0 then dt else 0.0 }

  function Min(x: real, y: real): real { if x < y then x else y }

  function Ceil(x: real): int { -((-x).Floor) }

  function BucketStep(b: Bucket, now: real, q: Quota): Take
    requires q.rate > 0.0
  {
    var tokens := Min(q.capacity, b.tokens + Forward(now - b.ts) * q.rate);
    if tokens >= 1.0 then Take(Bucket(tokens - 1.0, now), None)
    else Take(Bucket(tokens, now), Some((1.0 - tokens) / q.rate))
  }

  function RetryAfterHeader(seconds: real): int {
    if Ceil(seconds) > 1 then Ceil(seconds) else 1
  }

  ghost predicate Holds(b: Bucket, q: Quota) { 0.0 <= b.tokens <= q.capacity }

  // ------------------------------------------------------- one caller

  // A refused caller who is alone is next admitted exactly when it has waited
  // `retry_after`: unless the capacity is below one token, and then never.
  lemma AdmittedExactly(b: Bucket, now: real, q: Quota, t: real)
    requires q.Ok() && BucketStep(b, now, q).retryAfter.Some?
    ensures var first := BucketStep(b, now, q);
            && first.retryAfter.value > 0.0
            && (BucketStep(first.bucket, t, q).retryAfter.None? <==> q.capacity >= 1.0 && t - now >= first.retryAfter.value)
  {
    var first := BucketStep(b, now, q);
    var short, r := 1.0 - first.bucket.tokens, first.retryAfter.value;
    Wait(short, q.rate, Forward(t - now));
    Wait(short, q.rate, 0.0);
  }

  // Waiting dt is enough for `short` tokens exactly when dt >= short / rate.
  lemma Wait(short: real, rate: real, dt: real)
    requires rate > 0.0
    ensures dt * rate >= short <==> dt >= short / rate
    ensures short > 0.0 ==> short / rate > 0.0
  {
    var r := short / rate;
    assert r * rate == short;
    assert (dt - r) * rate == dt * rate - short;
  }

  // The integer header of section 10.2.3 of RFC 9110 is never 0, it is always
  // long enough, and no smaller positive number of seconds is.
  lemma HeaderSuffices(b: Bucket, now: real, q: Quota, h: int)
    requires q.Ok() && q.capacity >= 1.0 && BucketStep(b, now, q).retryAfter.Some? && h >= 1
    ensures var first := BucketStep(b, now, q);
            && RetryAfterHeader(first.retryAfter.value) >= 1
            && (BucketStep(first.bucket, now + h as real, q).retryAfter.None?
                <==> h >= RetryAfterHeader(first.retryAfter.value))
  {
    AdmittedExactly(b, now, q, now + h as real);
    hide BucketStep;
  }

  // A refusal costs nothing: whoever else is turned away in between, the wait
  // only gets shorter, by the time that passed.
  lemma RefusalIsFree(b: Bucket, now: real, t: real, q: Quota)
    requires q.Ok() && q.capacity >= 1.0
    requires BucketStep(b, now, q).retryAfter.Some?
    requires BucketStep(BucketStep(b, now, q).bucket, t, q).retryAfter.Some?
    ensures var first := BucketStep(b, now, q);
            BucketStep(first.bucket, t, q).retryAfter.value == first.retryAfter.value - Forward(t - now)
  {
    var first := BucketStep(b, now, q);
    var d := Forward(t - now);
    assert (1.0 - (first.bucket.tokens + d * q.rate)) / q.rate == (1.0 - first.bucket.tokens) / q.rate - d by {
      assert d * q.rate / q.rate == d;
    }
  }

  // ------------------------------------------------------------- any run

  // The bucket after requests at these clock readings.
  function Run(b: Bucket, clock: seq<real>, q: Quota): Bucket
    requires q.rate > 0.0
  {
    if clock == [] then b
    else BucketStep(Run(b, clock[..|clock| - 1], q), clock[|clock| - 1], q).bucket
  }

  function Answer(b: Bucket, clock: seq<real>, q: Quota, i: nat): Option<real>
    requires q.rate > 0.0 && i < |clock|
  {
    BucketStep(Run(b, clock[..i], q), clock[i], q).retryAfter
  }

  function Admissions(b: Bucket, clock: seq<real>, q: Quota): nat
    requires q.rate > 0.0
  {
    if clock == [] then 0
    else
      var n := |clock| - 1;
      Admissions(b, clock[..n], q) + Admits(Run(b, clock[..n], q), clock[n], q)
  }

  // All forward movement of the clock over these readings, from `start`.
  function Elapsed(start: real, clock: seq<real>): (r: real)
    ensures r >= 0.0
  {
    if clock == [] then 0.0
    else
      var n := |clock| - 1;
      Elapsed(start, clock[..n]) + Forward(clock[n] - if n == 0 then start else clock[n - 1])
  }

  // Tokens worth `dt` of the clock.
  function Credit(dt: real, rate: real): real { dt * rate }

  lemma CreditAdds(x: real, y: real, rate: real)
    ensures Credit(x + y, rate) == Credit(x, rate) + Credit(y, rate) && Credit(0.0, rate) == 0.0
    ensures x <= y && rate >= 0.0 ==> Credit(x, rate) <= Credit(y, rate)
  {
    assert (x + y) * rate == x * rate + y * rate;
    var d := y - x;
    assert d * rate == y * rate - x * rate;
    assert d >= 0.0 && rate >= 0.0 ==> d * rate >= 0.0;
  }

  // What one request lets go over the brim.
  function Spill(b: Bucket, now: real, q: Quota): real {
    var full := b.tokens + Credit(Forward(now - b.ts), q.rate);
    if full > q.capacity then full - q.capacity else 0.0
  }

  function Spilled(b: Bucket, clock: seq<real>, q: Quota): real
    requires q.rate > 0.0
  {
    if clock == [] then 0.0
    else
      var n := |clock| - 1;
      Spilled(b, clock[..n], q) + Spill(Run(b, clock[..n], q), clock[n], q)
  }

  function Admits(b: Bucket, now: real, q: Quota): nat
    requires q.rate > 0.0
  {
    if BucketStep(b, now, q).retryAfter.None? then 1 else 0
  }

  // One request's account.
  lemma StepBalances(b: Bucket, now: real, q: Quota)
    requires q.Ok() && Holds(b, q)
    ensures var b' := BucketStep(b, now, q).bucket;
            && Holds(b', q) && b'.ts == now && Spill(b, now, q) >= 0.0
            && Admits(b, now, q) as real + b'.tokens + Spill(b, now, q) == b.tokens + Credit(Forward(now - b.ts), q.rate)
  {
    CreditAdds(0.0, Forward(now - b.ts), q.rate);
  }

  lemma {:induction false} RunTs(b: Bucket, clock: seq<real>, q: Quota)
    requires q.rate > 0.0
    ensures Run(b, clock, q).ts == if clock == [] then b.ts else clock[|clock| - 1]
  {
  }

  // The bucket is an account: what came in is what was taken, what is left
  // and what spilled. So it never owes, never overfills, and admits at most
  // what it held plus the rate times the clock's forward movement.
  lemma {:induction false} Conservation(b: Bucket, clock: seq<real>, q: Quota)
    requires q.Ok() && Holds(b, q)
    ensures Holds(Run(b, clock, q), q) && Spilled(b, clock, q) >= 0.0
    ensures Admissions(b, clock, q) as real + Run(b, clock, q).tokens + Spilled(b, clock, q)
         == b.tokens + Credit(Elapsed(b.ts, clock), q.rate)
    ensures Admissions(b, clock, q) as real <= b.tokens + Credit(Elapsed(b.ts, clock), q.rate)
  {
    hide BucketStep, Credit, Spill, Forward;
    if clock == [] {
      CreditAdds(0.0, 0.0, q.rate);
    } else {
      var n := |clock| - 1;
      Conservation(b, clock[..n], q);
      RunTs(b, clock[..n], q);
      StepBalances(Run(b, clock[..n], q), clock[n], q);
      CreditAdds(Elapsed(b.ts, clock[..n]), Forward(clock[n] - Run(b, clock[..n], q).ts), q.rate);
    }
  }

  // -------------------------------------------------------- the backends

  class InProcessTokenBucket {
    const quota: Quota
    var tokens: real
    var ts: real

    function Content(): Bucket
      reads this
    {
      Bucket(tokens, ts)
    }

    constructor (quota: Quota, clock: real)
      ensures this.quota == quota && Content() == Bucket(quota.capacity, clock)
      ensures quota.Ok() ==> Holds(Content(), quota)
    {
      this.quota := quota;
      tokens := quota.capacity;
      ts := clock;
    }

    method Acquire(clock: real) returns (retryAfter: Option<real>)
      requires quota.rate > 0.0
      modifies this
      ensures Take(Content(), retryAfter) == BucketStep(old(Content()), clock, quota)
    {
      var take := BucketStep(Content(), clock, quota);
      tokens, ts, retryAfter := take.bucket.tokens, take.bucket.ts, take.retryAfter;
    }
  }

  // The hash at the bucket's key, and when Redis drops it.
  datatype Hash = Hash(tokens: real, ts: real, expiresAt: real)

  // What a script sees: nothing, once the key has expired.
  function Seen(stored: Option<Hash>, now: real): Option<Hash> {
    if stored.Some? && now >= stored.value.expiresAt then None else stored
  }

  function Ttl(q: Quota): real
    requires q.rate > 0.0
  {
    Ceil(q.capacity / q.rate * 2000.0) as real / 1000.0
  }

  // A key outlives its bucket's refill twice over, by at most a millisecond
  // more.
  lemma TtlIsTwice(q: Quota)
    requires q.rate > 0.0
    ensures 2.0 * (q.capacity / q.rate) <= Ttl(q) < 2.0 * (q.capacity / q.rate) + 0.001
    ensures forall h: Hash, now :: Seen(Some(h), now) == if now < h.expiresAt then Some(h) else None
  {
    var full := q.capacity / q.rate;
    assert full * 2000.0 <= Ceil(full * 2000.0) as real < full * 2000.0 + 1.0;
  }

  // The bucket a missing or expired key stands for.
  function Current(stored: Option<Hash>, now: real, q: Quota): Bucket {
    var h := Seen(stored, now);
    if h.None? then Bucket(q.capacity, now) else Bucket(h.value.tokens, h.value.ts)
  }

  function RedisStep(stored: Option<Hash>, now: real, q: Quota): (r: (Option<Hash>, Option<real>))
    requires q.rate > 0.0
  {
    var take := BucketStep(Current(stored, now, q), now, q);
    (Some(Hash(take.bucket.tokens, now, now + Ttl(q))), take.retryAfter)
  }

  // The Lua script, statement by statement, is the same arithmetic.
  class RedisKey {
    var stored: Option<Hash>

    method TakeToken(q: Quota, now: real) returns (allowed: int, retryAfter: real)
      requires q.rate > 0.0
      modifies this
      ensures var (after, answer) := RedisStep(old(stored), now, q);
              && stored == after
              && allowed == (if answer.None? then 1 else 0)
              && retryAfter == (if answer.None? then 0.0 else answer.value)
    {
      hide Ttl;
      var state := Seen(stored, now);
      var tokens, ts := q.capacity, now;
      if state.Some? {
        tokens, ts := state.value.tokens, state.value.ts;
      }
      var elapsed := now - ts;
      if elapsed < 0.0 {
        elapsed := 0.0;
      }
      tokens := Min(q.capacity, tokens + elapsed * q.rate);
      allowed, retryAfter := 0, 0.0;
      if tokens >= 1.0 {
        tokens := tokens - 1.0;
        allowed := 1;
      } else {
        retryAfter := (1.0 - tokens) / q.rate;
      }
      stored := Some(Hash(tokens, now, now + Ttl(q)));
    }
  }

  // What happens to a key: somebody asks for a token, or time passes until
  // Redis, with the clock at `now`, looks for keys to drop.
  datatype Moment = Ask(now: real) | Pass(now: real)

  function RedisOn(moments: seq<Moment>, q: Quota): Option<Hash>
    requires q.rate > 0.0
  {
    if moments == [] then None
    else
      var before := RedisOn(moments[..|moments| - 1], q);
      match moments[|moments| - 1]
      case Ask(now) => RedisStep(before, now, q).0
      case Pass(now) => Seen(before, now)
  }

  // The in-process bucket knows only of the requests.
  function Asks(moments: seq<Moment>): seq<real> {
    if moments == [] then []
    else
      Asks(moments[..|moments| - 1])
      + if moments[|moments| - 1].Ask? then [moments[|moments| - 1].now] else []
  }

  function KeptOn(moments: seq<Moment>, q: Quota, start: real): Bucket
    requires q.rate > 0.0
  {
    Run(Bucket(q.capacity, start), Asks(moments), q)
  }

  lemma KeptStep(moments: seq<Moment>, q: Quota, start: real)
    requires q.Ok()
    ensures Holds(KeptOn(moments, q, start), q)
    ensures moments == [] ==> KeptOn(moments, q, start) == Bucket(q.capacity, start)
    ensures moments != [] ==>
              var before, last := KeptOn(moments[..|moments| - 1], q, start), moments[|moments| - 1];
              KeptOn(moments, q, start) == if last.Ask? then BucketStep(before, last.now, q).bucket else before
  {
    hide BucketStep, Credit, Admissions, Spilled, Elapsed;
    Conservation(Bucket(q.capacity, start), Asks(moments), q);
    if moments != [] {
      var before := Asks(moments[..|moments| - 1]);
      if moments[|moments| - 1].Ask? {
        assert (before + [moments[|moments| - 1].now])[..|before|] == before;
      } else {
        assert before + [] == before;
      }
    }
  }

  ghost predicate Ordered(moments: seq<Moment>, start: real) {
    && (moments != [] ==> start <= moments[0].now)
    && forall i, j :: 0 <= i < j < |moments| ==> moments[i].now <= moments[j].now
  }

  // By `now` the bucket would be full again.
  predicate Refilled(b: Bucket, now: real, q: Quota) {
    b.tokens + Credit(Forward(now - b.ts), q.rate) >= q.capacity
  }

  // Losing a bucket and starting with a full one changes what a request does
  // exactly when the bucket would not have been full by then; ...
  lemma DropInvisible(b: Bucket, now: real, q: Quota)
    requires q.Ok() && Holds(b, q)
    ensures BucketStep(b, now, q) == BucketStep(Bucket(q.capacity, now), now, q) <==> Refilled(b, now, q)
  {
    Refill(b, now, q);
    Refill(Bucket(q.capacity, now), now, q);
  }

  // ... and what its caller is told, exactly when neither that nor a token
  // would have been there.
  lemma DropUnheard(b: Bucket, now: real, q: Quota)
    requires q.Ok() && Holds(b, q)
    ensures BucketStep(b, now, q).retryAfter == BucketStep(Bucket(q.capacity, now), now, q).retryAfter
            <==> Refilled(b, now, q) || b.tokens + Credit(Forward(now - b.ts), q.rate) >= 1.0
  {
    Refill(b, now, q);
    Refill(Bucket(q.capacity, now), now, q);
    var full := b.tokens + Credit(Forward(now - b.ts), q.rate);
    hide Credit, Forward, BucketStep;
    if full < 1.0 && full < q.capacity && q.capacity < 1.0 {
      Slower(1.0 - full, 1.0 - q.capacity, q.rate);
    }
  }

  lemma Slower(x: real, y: real, rate: real)
    requires rate > 0.0 && x > y
    ensures x / rate > y / rate
  {
    var r, s := x / rate, y / rate;
    assert r * rate == x && s * rate == y;
    assert (r - s) * rate == x - y;
  }

  // One request, told by what the bucket is refilled to.
  lemma Refill(b: Bucket, now: real, q: Quota)
    requires q.Ok()
    ensures var tokens := Min(q.capacity, b.tokens + Credit(Forward(now - b.ts), q.rate));
            BucketStep(b, now, q) == if tokens >= 1.0 then Take(Bucket(tokens - 1.0, now), None)
                                     else Take(Bucket(tokens, now), Some((1.0 - tokens) / q.rate))
    ensures b == Bucket(q.capacity, now) ==> b.tokens + Credit(Forward(now - b.ts), q.rate) == q.capacity
  {
  }

  // The key holds what the in-process bucket does.
  ghost predicate Same(stored: Option<Hash>, b: Bucket, q: Quota)
    requires q.rate > 0.0
  {
    stored == Some(Hash(b.tokens, b.ts, b.ts + Ttl(q)))
  }

  // At the i-th moment, a request, both backends do the same: one answer, and
  // one bucket left behind.
  ghost predicate AgreeAt(moments: seq<Moment>, q: Quota, start: real, i: nat)
    requires q.rate > 0.0 && i < |moments|
  {
    var (stored, answer) := RedisStep(RedisOn(moments[..i], q), moments[i].now, q);
    var take := BucketStep(KeptOn(moments[..i], q, start), moments[i].now, q);
    answer == take.retryAfter && Same(stored, take.bucket, q)
  }

  // A request that finds no key is one whose bucket would be full anyway.
  ghost predicate HarmlessAt(moments: seq<Moment>, q: Quota, start: real, i: nat)
    requires q.rate > 0.0 && i < |moments|
  {
    var now := moments[i].now;
    Seen(RedisOn(moments[..i], q), now) == None ==> Refilled(KeptOn(moments[..i], q, start), now, q)
  }

  // The step at i, if the key is gone or is the bucket's.
  lemma {:induction false} AgreeWhen(moments: seq<Moment>, q: Quota, start: real, i: nat)
    requires q.Ok() && i < |moments|
    requires RedisOn(moments[..i], q) == None || Same(RedisOn(moments[..i], q), KeptOn(moments[..i], q, start), q)
    ensures AgreeAt(moments, q, start, i) <==> HarmlessAt(moments, q, start, i)
  {
    var b, now := KeptOn(moments[..i], q, start), moments[i].now;
    KeptStep(moments[..i], q, start);
    DropInvisible(b, now, q);
    StepsTs(b, now, q);
    StepsTs(Bucket(q.capacity, now), now, q);
    hide BucketStep, KeptOn, RedisOn, Ttl, Refilled;
  }

  lemma StepsTs(b: Bucket, now: real, q: Quota)
    requires q.rate > 0.0
    ensures BucketStep(b, now, q).bucket.ts == now
  {
  }

  lemma {:induction false} RedisLast(moments: seq<Moment>, q: Quota, k: nat)
    requires q.rate > 0.0 && k < |moments|
    ensures RedisOn(moments[..k + 1], q)
         == if moments[k].Ask? then RedisStep(RedisOn(moments[..k], q), moments[k].now, q).0
            else Seen(RedisOn(moments[..k], q), moments[k].now)
  {
    assert moments[..k + 1][..k] == moments[..k];
    hide RedisStep, Seen;
  }

  lemma KeptLast(moments: seq<Moment>, q: Quota, start: real, k: nat)
    requires q.Ok() && k < |moments|
    ensures KeptOn(moments[..k + 1], q, start)
         == if moments[k].Ask? then BucketStep(KeptOn(moments[..k], q, start), moments[k].now, q).bucket
            else KeptOn(moments[..k], q, start)
  {
    KeptStep(moments[..k + 1], q, start);
    assert moments[..k + 1][..k] == moments[..k];
    hide KeptOn, BucketStep;
  }

  // As long as requests agree, the key is gone or is the bucket's.
  lemma {:induction false} SameOrGone(moments: seq<Moment>, q: Quota, start: real, k: nat)
    requires q.Ok() && k <= |moments|
    requires forall i :: 0 <= i < k && moments[i].Ask? ==> AgreeAt(moments, q, start, i)
    ensures RedisOn(moments[..k], q) == None || Same(RedisOn(moments[..k], q), KeptOn(moments[..k], q, start), q)
  {
    if k > 0 {
      SameOrGone(moments, q, start, k - 1);
      RedisLast(moments, q, k - 1);
      KeptLast(moments, q, start, k - 1);
      hide RedisOn, KeptOn, BucketStep, RedisStep, Ttl;
      if moments[k - 1].Ask? { assert AgreeAt(moments, q, start, k - 1); }
    }
  }

  // On any clock, the backends agree at every request exactly when no request
  // finds the key gone before its bucket would have refilled.
  lemma AgreeExactly(moments: seq<Moment>, q: Quota, start: real)
    requires q.Ok()
    ensures (forall i :: 0 <= i < |moments| && moments[i].Ask? ==> AgreeAt(moments, q, start, i))
            <==> (forall i :: 0 <= i < |moments| && moments[i].Ask? ==> HarmlessAt(moments, q, start, i))
  {
    hide AgreeAt, HarmlessAt;
    if forall i :: 0 <= i < |moments| && moments[i].Ask? ==> AgreeAt(moments, q, start, i) {
      forall i | 0 <= i < |moments| && moments[i].Ask? ensures HarmlessAt(moments, q, start, i) {
        SameOrGone(moments, q, start, i);
        AgreeWhen(moments, q, start, i);
      }
    }
    if forall i :: 0 <= i < |moments| && moments[i].Ask? ==> HarmlessAt(moments, q, start, i) {
      HarmlessAgrees(moments, q, start, |moments|);
    }
  }

  lemma {:induction false} HarmlessAgrees(moments: seq<Moment>, q: Quota, start: real, k: nat)
    requires q.Ok() && k <= |moments|
    requires forall i :: 0 <= i < k && moments[i].Ask? ==> HarmlessAt(moments, q, start, i)
    ensures forall i :: 0 <= i < k && moments[i].Ask? ==> AgreeAt(moments, q, start, i)
  {
    hide AgreeAt, HarmlessAt;
    if k > 0 {
      HarmlessAgrees(moments, q, start, k - 1);
      SameOrGone(moments, q, start, k - 1);
      AgreeWhen(moments, q, start, k - 1);
    }
  }

  // ---------------------------------------------- a clock that keeps going

  // After the time to live an untouched bucket is full.
  lemma FullAgain(b: Bucket, now: real, q: Quota)
    requires q.Ok() && Holds(b, q) && now - b.ts >= Ttl(q)
    ensures Refilled(b, now, q)
  {
    var fill := q.capacity / q.rate;
    assert fill * q.rate == q.capacity;
    assert Ttl(q) >= fill * 2.0;
    assert fill < 0.0 ==> fill * q.rate < 0.0;
    CreditAdds(fill, Forward(now - b.ts), q.rate);
  }

  lemma StaysRefilled(b: Bucket, now: real, later: real, q: Quota)
    requires q.Ok() && Refilled(b, now, q) && now <= later
    ensures Refilled(b, later, q)
  {
    CreditAdds(Forward(now - b.ts), Forward(later - b.ts), q.rate);
  }

  lemma FullIsRefilled(b: Bucket, now: real, q: Quota)
    requires q.Ok() && b.tokens == q.capacity
    ensures Refilled(b, now, q)
  {
    CreditAdds(0.0, Forward(now - b.ts), q.rate);
  }

  // What holds after any moments in order: a key that is gone belonged to a
  // bucket that has refilled since, and a key that is there is the bucket's.
  ghost predicate Tracks(stored: Option<Hash>, b: Bucket, now: real, q: Quota)
    requires q.rate > 0.0
  {
    if stored == None then Refilled(b, now, q) else Same(stored, b, q) && b.ts <= now
  }

  lemma {:induction false} OrderedTracks(moments: seq<Moment>, q: Quota, start: real, k: nat, now: real)
    requires q.Ok() && Ordered(moments, start) && k <= |moments|
    requires if k == 0 then start <= now else moments[k - 1].now <= now
    ensures Tracks(RedisOn(moments[..k], q), KeptOn(moments[..k], q, start), now, q)
  {
    if k == 0 {
      KeptStep([], q, start);
      assert moments[..0] == [];
      FullIsRefilled(KeptOn([], q, start), now, q);
    } else {
      var t := moments[k - 1].now;
      OrderedTracks(moments, q, start, k - 1, t);
      RedisLast(moments, q, k - 1);
      KeptLast(moments, q, start, k - 1);
      KeptStep(moments[..k - 1], q, start);
      hide RedisOn, KeptOn, Ordered;
      if moments[k - 1].Ask? {
        TrackedAsk(RedisOn(moments[..k - 1], q), KeptOn(moments[..k - 1], q, start), t, q);
        StepsTs(KeptOn(moments[..k - 1], q, start), t, q);
      } else {
        TrackedPass(RedisOn(moments[..k - 1], q), KeptOn(moments[..k - 1], q, start), t, now, q);
      }
    }
  }

  lemma TrackedSeen(stored: Option<Hash>, b: Bucket, now: real, q: Quota)
    requires q.Ok() && Holds(b, q) && Tracks(stored, b, now, q)
    ensures Tracks(Seen(stored, now), b, now, q)
  {
    hide Ttl, Refilled;
    if stored.Some? && now >= stored.value.expiresAt {
      FullAgain(b, now, q);
    }
  }

  lemma TrackedAsk(stored: Option<Hash>, b: Bucket, now: real, q: Quota)
    requires q.Ok() && Holds(b, q) && Tracks(stored, b, now, q)
    ensures Same(RedisStep(stored, now, q).0, BucketStep(b, now, q).bucket, q)
  {
    hide Ttl, Refilled, BucketStep;
    TrackedSeen(stored, b, now, q);
    DropInvisible(b, now, q);
    StepsTs(b, now, q);
  }

  lemma TrackedPass(stored: Option<Hash>, b: Bucket, t: real, now: real, q: Quota)
    requires q.Ok() && Holds(b, q) && Tracks(stored, b, t, q) && t <= now
    ensures Tracks(Seen(stored, t), b, now, q)
  {
    hide Ttl, Refilled;
    TrackedSeen(stored, b, t, q);
    if Seen(stored, t) == None {
      StaysRefilled(b, t, now, q);
    }
  }

  // While the clock does not step back nobody can tell that keys expire,
  // whenever Redis drops them, or which backend answers: every answer is the
  // in-process bucket's.
  lemma BackendsAgree(moments: seq<Moment>, q: Quota, start: real, i: nat)
    requires q.Ok() && Ordered(moments, start) && i < |moments| && moments[i].Ask?
    ensures AgreeAt(moments, q, start, i)
  {
    var now := moments[i].now;
    OrderedTracks(moments, q, start, i, now);
    KeptStep(moments[..i], q, start);
    TrackedSeen(RedisOn(moments[..i], q), KeptOn(moments[..i], q, start), now, q);
    AgreeWhen(moments, q, start, i);
    hide RedisOn, KeptOn, Refilled, AgreeAt, Ttl;
  }

  // With a clock that steps back they can be told apart: the key that Redis
  // dropped in between comes back full, the bucket that was kept does not.
  lemma ExpiryShowsWhenClockStepsBack()
    ensures var q, moments := Quota(1.0, 1.0), [Ask(0.0), Pass(2.0), Ask(0.5)];
            && !AgreeAt(moments, q, 0.0, 2) && !HarmlessAt(moments, q, 0.0, 2)
            && RedisStep(RedisOn(moments[..2], q), 0.5, q).1 == None
            && BucketStep(KeptOn(moments[..2], q, 0.0), 0.5, q).retryAfter == Some(0.5)
  {
    ExpiryRun();
    hide RedisOn, KeptOn, Ttl;
  }

  // What the two backends hold when the last request comes.
  lemma ExpiryRun()
    ensures var q, moments := Quota(1.0, 1.0), [Ask(0.0), Pass(2.0), Ask(0.5)];
            RedisOn(moments[..2], q) == None && KeptOn(moments[..2], q, 0.0) == Bucket(0.0, 0.0)
  {
    var q, moments := Quota(1.0, 1.0), [Ask(0.0), Pass(2.0), Ask(0.5)];
    TtlOfOne();
    NothingYet(q, 0.0);
    assert moments[..0] == [];
    RedisLast(moments, q, 0);
    RedisLast(moments, q, 1);
    KeptLast(moments, q, 0.0, 0);
    KeptLast(moments, q, 0.0, 1);
    hide RedisOn, KeptOn, Ttl;
  }

  lemma {:induction false} NothingYet(q: Quota, start: real)
    requires q.Ok()
    ensures RedisOn([], q) == None && KeptOn([], q, start) == Bucket(q.capacity, start)
  {
  }

  lemma TtlOfOne()
    ensures Ttl(Quota(1.0, 1.0)) == 2.0
  {
    assert 1.0 / 1.0 * 2000.0 == 2000.0;
    CeilOf(2000);
  }

  lemma CeilOf(n: int)
    ensures Ceil(n as real) == n
  {
  }
}
