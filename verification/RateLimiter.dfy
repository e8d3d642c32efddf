/**
 * One token bucket a client, and the sweep that forgets idle clients. Time and tokens are real
 * numbers; rounding is not modelled. One request reads the clock up to three times.
 */
module RateLimiter {
  import opened Wrappers

  const IDLE_TTL := 600.0
  const SWEEP_EVERY: nat := 256

  /** Burst and tokens a second; the configuration refuses anything not positive. */
  datatype Limits = Limits(capacity: nat, refill: real) {
    predicate Valid() {
      capacity > 0 && refill > 0.0
    }

    function Full(): real {
      capacity as real
    }

    /** What flows in during `time`. */
    function Gain(time: real): real {
      time * refill
    }
  }

  lemma GainGrows(c: Limits, short: real, long: real)
    requires c.Valid() && short <= long
    ensures c.Gain(short) <= c.Gain(long)
    ensures short < long ==> c.Gain(short) < c.Gain(long)
  {
    assert c.Gain(long) - c.Gain(short) == (long - short) * c.refill;
  }

  lemma GainAdds(c: Limits, from: real, via: real, to: real)
    ensures c.Gain(to - from) == c.Gain(via - from) + c.Gain(to - via)
  {
  }

  // ---- Buckets -------------------------------------------------------------------------------

  datatype Bucket = Bucket(tokens: real, last: real, lastSeen: real)

  /** What a bucket holds at a time not before its last refill. */
  function Level(c: Limits, b: Bucket, now: real): real {
    var tokens := b.tokens + c.Gain(now - b.last);
    if tokens > c.Full() then c.Full() else tokens
  }

  function Fresh(c: Limits, now: real): Bucket {
    Bucket(c.Full(), now, now)
  }

  /** Refill, then spend a whole token if there is one. */
  function Spend(c: Limits, b: Bucket, now: real): (Bucket, bool) {
    var tokens := Level(c, b, now);
    if tokens < 1.0 then (Bucket(tokens, now, now), false) else (Bucket(tokens - 1.0, now, now), true)
  }

  predicate Sane(c: Limits, b: Bucket, now: real) {
    0.0 <= b.tokens <= c.Full() && b.last == b.lastSeen <= now
  }

  /** Idle for longer than the limit of the sweep at `now`. */
  predicate Idle(b: Bucket, now: real) {
    b.lastSeen < now - IDLE_TTL
  }

  /** Idle means full, for every bucket, exactly when the idle time is long enough to fill one. */
  lemma IdleMeansFull(c: Limits)
    requires c.Valid()
    ensures c.Gain(IDLE_TTL) >= c.Full() <==>
      forall b, now :: Sane(c, b, now) && Idle(b, now) ==> Level(c, b, now) == c.Full()
  {
    if c.Gain(IDLE_TTL) >= c.Full() {
      forall b, now | Sane(c, b, now) && Idle(b, now) ensures Level(c, b, now) == c.Full() {
        GainGrows(c, IDLE_TTL, now - b.last);
      }
    } else {
      // Empty at time 0, and looked at a moment after the idle time: not full yet.
      var short := c.Full() - c.Gain(IDLE_TTL);
      var moment := short / (2.0 * c.refill);
      var b, now := Bucket(0.0, 0.0, 0.0), IDLE_TTL + moment;
      assert moment > 0.0 && c.Gain(moment) == short / 2.0;
      assert Sane(c, b, now) && Idle(b, now);
      GainAdds(c, 0.0, IDLE_TTL, now);
      assert Level(c, b, now) < c.Full();
    }
  }

  /** Time only adds, and no more than flows in. */
  lemma LevelGrows(c: Limits, b: Bucket, now: real, later: real)
    requires c.Valid() && Sane(c, b, now) && now <= later
    ensures 0.0 <= Level(c, b, now) <= Level(c, b, later) <= Level(c, b, now) + c.Gain(later - now)
    ensures Level(c, b, later) <= c.Full()
  {
    GainGrows(c, 0.0, now - b.last);
    GainGrows(c, 0.0, later - now);
    GainAdds(c, b.last, now, later);
  }

  class TokenBucket {
    const limits: Limits
    var tokens: real
    var last: real
    var lastSeen: real

    ghost function Value(): Bucket
      reads this
    {
      Bucket(tokens, last, lastSeen)
    }

    constructor (limits: Limits, now: real)
      ensures this.limits == limits && Value() == Fresh(limits, now)
    {
      this.limits := limits;
      tokens, last, lastSeen := limits.capacity as real, now, now;
    }

    method Allow(now: real) returns (ok: bool)
      modifies this
      ensures (Value(), ok) == Spend(limits, old(Value()), now)
    {
      var elapsed := now - last;
      last := now;
      lastSeen := now;
      tokens := tokens + elapsed * limits.refill;
      if tokens > limits.capacity as real {
        tokens := limits.capacity as real;
      }
      assert tokens == Level(limits, old(Value()), now);
      ok := tokens >= 1.0;
      if ok {
        tokens := tokens - 1.0;
      }
    }
  }

  // ---- The limiter, as a value ------------------------------------------------------------------

  datatype State = State(buckets: map<string, Bucket>, inserts: nat, lastSwept: Option<real>)

  /** A request, and the three times at which serving it looks at the clock. */
  datatype Request = Request(key: string, fetched: real, swept: real, spent: real)

  function Fetch(c: Limits, s: State, r: Request): State {
    if r.key in s.buckets then s
    else State(s.buckets[r.key := Fresh(c, r.fetched)], s.inserts + 1, s.lastSwept)
  }

  /** The sweep happens at the first request past either trigger; the very first only starts the clock. */
  predicate Due(s: State, now: real) {
    s.lastSwept.Some? && (s.inserts >= SWEEP_EVERY || now - s.lastSwept.value >= IDLE_TTL)
  }

  function MaybeSweep(s: State, now: real): State {
    if s.lastSwept.None? then s.(lastSwept := Some(now))
    else if !Due(s, now) then s
    else State(map k | k in s.buckets && !Idle(s.buckets[k], now) :: s.buckets[k], 0, Some(now))
  }

  /** Fetch or create the bucket, sweep if due, and spend from the bucket fetched, swept or not. */
  function Served(c: Limits, s: State, r: Request): (State, bool) {
    var fetched := Fetch(c, s, r);
    var swept := MaybeSweep(fetched, r.swept);
    var (after, ok) := Spend(c, fetched.buckets[r.key], r.spent);
    (if r.key in swept.buckets then swept.(buckets := swept.buckets[r.key := after]) else swept, ok)
  }

  /** The sweep took away the bucket this request spends from. */
  predicate SweptUnderfoot(c: Limits, s: State, r: Request) {
    r.key !in MaybeSweep(Fetch(c, s, r), r.swept).buckets
  }

  // ---- The limiter ----------------------------------------------------------------------------------

  class Limiter {
    const limits: Limits
    var buckets: map<string, TokenBucket>
    var inserts: nat
    var lastSwept: Option<real>

    /** No two clients share a bucket. */
    ghost predicate Valid()
      reads this, buckets.Values
    {
      forall k :: k in buckets ==>
        buckets[k].limits == limits && forall j :: j in buckets && buckets[j] == buckets[k] ==> j == k
    }

    ghost function Value(): State
      reads this, buckets.Values
    {
      State(map k | k in buckets :: buckets[k].Value(), inserts, lastSwept)
    }

    constructor (limits: Limits)
      ensures Valid() && this.limits == limits && Value() == State(map[], 0, None)
    {
      this.limits := limits;
      buckets, inserts, lastSwept := map[], 0, None;
    }

    /** Deletes the buckets idle at `now`. */
    method DropIdle(now: real)
      requires Valid()
      modifies this`buckets
      ensures Valid()
      ensures forall k :: k in buckets <==> k in old(buckets) && !Idle(old(buckets[k].Value()), now)
      ensures forall k :: k in buckets ==> buckets[k] == old(buckets)[k]
    {
      var cutoff := now - IDLE_TTL;
      var keys := buckets.Keys;
      while keys != {}
        invariant keys <= old(buckets).Keys
        invariant forall k :: k in buckets <==> k in old(buckets) && (k in keys || old(buckets[k].lastSeen) >= cutoff)
        invariant forall k :: k in buckets ==> buckets[k] == old(buckets)[k]
        decreases keys
      {
        var key :| key in keys;
        keys := keys - {key};
        if buckets[key].lastSeen < cutoff {
          buckets := buckets - {key};
        }
      }
    }

    method Sweep(now: real)
      requires Valid()
      modifies this`buckets, this`inserts, this`lastSwept
      ensures Valid() && Value() == MaybeSweep(old(Value()), now)
      ensures forall k :: k in buckets ==> k in old(buckets) && buckets[k] == old(buckets)[k]
    {
      if lastSwept.None? {
        lastSwept := Some(now);
      } else if inserts >= SWEEP_EVERY || now - lastSwept.value >= IDLE_TTL {
        ghost var was := Value().buckets;
        inserts, lastSwept := 0, Some(now);
        DropIdle(now);
        ghost var left := Value().buckets;
        assert forall k :: k in left <==> k in was && !Idle(was[k], now);
        assert forall k :: k in left ==> left[k] == was[k];
        assert left == map k | k in was && !Idle(was[k], now) :: was[k];
      }
    }

    method FetchBucket(key: string, now: real) returns (b: TokenBucket)
      requires Valid()
      modifies this`buckets, this`inserts
      ensures Valid() && key in buckets && buckets[key] == b
      ensures fresh(b) || b in old(buckets).Values
      ensures Value() == if key in old(buckets) then old(Value())
                         else State(old(Value()).buckets[key := Fresh(limits, now)], old(inserts) + 1, lastSwept)
      ensures forall k :: k in buckets && k != key ==> k in old(buckets) && buckets[k] == old(buckets)[k]
    {
      if key in buckets {
        b := buckets[key];
      } else {
        b := new TokenBucket(limits, now);
        buckets := buckets[key := b];
        inserts := inserts + 1;
      }
    }

    /** Spends from the bucket that was fetched for `key`, whether or not the map still holds it. */
    method SpendFrom(b: TokenBucket, key: string, now: real) returns (ok: bool)
      requires Valid() && b.limits == limits && forall k :: k in buckets ==> (buckets[k] == b <==> k == key)
      modifies b
      ensures Valid() && ok == Spend(limits, old(b.Value()), now).1
      ensures Value() == if key in buckets
                         then State(old(Value()).buckets[key := Spend(limits, old(b.Value()), now).0],
                                    inserts, lastSwept)
                         else old(Value())
    {
      ghost var before := Value().buckets;
      ok := b.Allow(now);
      ghost var after := Value().buckets;
      assert after.Keys == before.Keys;
      assert forall k :: k in after && k != key ==> after[k] == before[k];
      assert after == if key in before then before[key := b.Value()] else before;
    }

    method Serve(r: Request) returns (ok: bool)
      requires Valid()
      modifies this, buckets.Values
      ensures Valid() && (Value(), ok) == Served(limits, old(Value()), r)
    {
      var b := FetchBucket(r.key, r.fetched);
      assert Value() == Fetch(limits, old(Value()), r);
      ghost var fetched := Value().buckets[r.key];
      Sweep(r.swept);
      ok := SpendFrom(b, r.key, r.spent);
      assert fetched == Fetch(limits, old(Value()), r).buckets[r.key];
    }
  }
}
