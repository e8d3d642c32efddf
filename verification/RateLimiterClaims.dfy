/** What the limiter admits over any window of any run, and what forgetting idle clients changes. */
module RateLimiterClaims {
  import opened Wrappers
  import opened RateLimiter

  const START := State(map[], 0, None)

  predicate Timely(r: Request, now: real) {
    now <= r.fetched <= r.swept <= r.spent
  }

  /** Requests are served one after the other, on a clock that never goes back. */
  predicate Ordered(requests: seq<Request>) {
    && (forall i :: 0 <= i < |requests| ==> Timely(requests[i], requests[i].fetched))
    && (forall i :: 0 < i < |requests| ==> requests[i - 1].spent <= requests[i].fetched)
  }

  /** The state before request `n`. */
  function After(c: Limits, requests: seq<Request>, n: nat): State
    requires n <= |requests|
  {
    if n == 0 then START else Served(c, After(c, requests, n - 1), requests[n - 1]).0
  }

  predicate Admits(c: Limits, requests: seq<Request>, n: nat)
    requires n < |requests|
  {
    Served(c, After(c, requests, n), requests[n]).1
  }

  /** Requests of `key` admitted among those from `i` up to `j`. */
  function Admitted(c: Limits, requests: seq<Request>, i: nat, j: nat, key: string): nat
    requires i <= j <= |requests|
  {
    if i == j then 0
    else
      Admitted(c, requests, i, j - 1, key)
      + if requests[j - 1].key == key && Admits(c, requests, j - 1) then 1 else 0
  }

  /** Whether a request of `key` in that stretch had its bucket swept away between fetching it and spending from it. */
  predicate Underfoot(c: Limits, requests: seq<Request>, i: nat, j: nat, key: string)
    requires i <= j <= |requests|
  {
    exists n :: i <= n < j && requests[n].key == key && SweptUnderfoot(c, After(c, requests, n), requests[n])
  }

  /** How many did. */
  function SweptCount(c: Limits, requests: seq<Request>, i: nat, j: nat, key: string): nat
    requires i <= j <= |requests|
  {
    if i == j then 0
    else
      SweptCount(c, requests, i, j - 1, key)
      + if requests[j - 1].key == key && SweptUnderfoot(c, After(c, requests, j - 1), requests[j - 1]) then 1 else 0
  }

  // ---- What every request keeps -----------------------------------------------------------------

  /** Buckets are within bounds, and no resident one was idle at the last sweep. */
  predicate Proper(c: Limits, s: State, now: real) {
    && (forall k :: k in s.buckets ==> Sane(c, s.buckets[k], now))
    && match s.lastSwept
       case None => s.buckets == map[] && s.inserts == 0
       case Some(swept) =>
         && swept <= now && s.inserts < SWEEP_EVERY
         && forall k :: k in s.buckets ==> s.buckets[k].lastSeen >= swept - IDLE_TTL
  }

  lemma SpendIsSane(c: Limits, b: Bucket, now: real)
    requires c.Valid() && Sane(c, b, b.last) && b.last <= now
    ensures Sane(c, Spend(c, b, now).0, now)
  {
    LevelGrows(c, b, b.last, now);
  }

  lemma ServeKeepsProper(c: Limits, s: State, r: Request, now: real)
    requires c.Valid() && Proper(c, s, now) && Timely(r, now)
    ensures Proper(c, Served(c, s, r).0, r.spent)
  {
    SpendIsSane(c, Fetch(c, s, r).buckets[r.key], r.spent);
  }

  lemma {:induction false} AlwaysProper(c: Limits, requests: seq<Request>, n: nat)
    requires c.Valid() && Ordered(requests) && n <= |requests|
    ensures n > 0 ==> Proper(c, After(c, requests, n), requests[n - 1].spent)
    ensures n < |requests| ==> Proper(c, After(c, requests, n), requests[n].fetched)
  {
    if n > 0 {
      AlwaysProper(c, requests, n - 1);
      ServeKeepsProper(c, After(c, requests, n - 1), requests[n - 1], requests[n - 1].fetched);
    }
  }

  /**
   * Past the sweep check of any request, every bucket still held was last used within twice the
   * idle time, and fewer buckets than the trigger were made since the last sweep. At the very first
   * request, which only starts the clock, the one bucket held is the one just made for it.
   */
  lemma NothingStaysForever(c: Limits, requests: seq<Request>, n: nat)
    requires c.Valid() && Ordered(requests) && n < |requests|
    ensures var s := MaybeSweep(Fetch(c, After(c, requests, n), requests[n]), requests[n].swept);
      && s.inserts < SWEEP_EVERY
      && (n > 0 ==> forall k :: k in s.buckets ==> s.buckets[k].lastSeen >= requests[n].swept - IDLE_TTL - IDLE_TTL)
      && (n == 0 ==> s.buckets == map[requests[n].key := Fresh(c, requests[n].fetched)])
  {
    AlwaysProper(c, requests, n);
    if n > 0 {
      assert After(c, requests, n).lastSwept.Some?;
    }
  }

  // ---- What a client may still do ------------------------------------------------------------------

  /** What `key` could spend at `now`: a client that is not known is one that has everything. */
  function Allowance(c: Limits, buckets: map<string, Bucket>, key: string, now: real): real {
    if key in buckets then Level(c, buckets[key], now) else c.Full()
  }

  /** Forgetting idle clients takes from nobody and gives to nobody. */
  lemma OthersAreUntouched(c: Limits, s: State, r: Request, now: real, key: string, later: real)
    requires c.Valid() && c.Gain(IDLE_TTL) >= c.Full()
    requires Proper(c, s, now) && Timely(r, now) && key != r.key && r.spent <= later
    ensures Allowance(c, Served(c, s, r).0.buckets, key, later) == Allowance(c, s.buckets, key, later)
  {
    if key in s.buckets {
      LevelGrows(c, s.buckets[key], s.buckets[key].last, later);
      if key !in Served(c, s, r).0.buckets {
        GainGrows(c, IDLE_TTL, later - s.buckets[key].last);
      }
    }
  }

  /**
   * A request is admitted exactly when its client has a whole token, and takes it, unless the bucket
   * went underfoot.
   */
  lemma OwnAllowance(c: Limits, s: State, r: Request, now: real)
    requires c.Valid() && Proper(c, s, now) && Timely(r, now)
    ensures var had, (t, ok) := Allowance(c, s.buckets, r.key, r.spent), Served(c, s, r);
      && (ok <==> had >= 1.0)
      && (!SweptUnderfoot(c, s, r) ==>
            r.key in t.buckets && t.buckets[r.key] == Bucket(if ok then had - 1.0 else had, r.spent, r.spent))
      && (SweptUnderfoot(c, s, r) ==> r.key !in t.buckets)
  {
    GainGrows(c, 0.0, r.spent - r.fetched);
  }

  // ---- The limiter that never forgets ----------------------------------------------------------------

  function Remembering(c: Limits, buckets: map<string, Bucket>, r: Request): (map<string, Bucket>, bool) {
    var (after, ok) := Spend(c, if r.key in buckets then buckets[r.key] else Fresh(c, r.fetched), r.spent);
    (buckets[r.key := after], ok)
  }

  function Remembered(c: Limits, requests: seq<Request>, n: nat): map<string, Bucket>
    requires n <= |requests|
  {
    if n == 0 then map[] else Remembering(c, Remembered(c, requests, n - 1), requests[n - 1]).0
  }

  /** From `now` on, `key` may spend as much in one as in the other. */
  ghost predicate Alike(c: Limits, one: map<string, Bucket>, other: map<string, Bucket>, key: string, now: real) {
    forall later :: now <= later ==> Allowance(c, one, key, later) == Allowance(c, other, key, later)
  }

  lemma {:induction false} AlwaysAlike(c: Limits, requests: seq<Request>, n: nat, key: string, now: real)
    requires c.Valid() && c.Gain(IDLE_TTL) >= c.Full() && Ordered(requests) && n <= |requests|
    requires n > 0 ==> requests[n - 1].spent <= now
    requires !Underfoot(c, requests, 0, n, key)
    ensures Alike(c, After(c, requests, n).buckets, Remembered(c, requests, n), key, now)
  {
    hide Served, Remembering, SweptUnderfoot, Underfoot;
    if n > 0 {
      hide Alike;
      var r := requests[n - 1];
      UnderfootGrows(c, requests, 0, n, key);
      AlwaysAlike(c, requests, n - 1, key, r.fetched);
      AlwaysProper(c, requests, n - 1);
      OneMoreAlike(c, After(c, requests, n - 1), Remembered(c, requests, n - 1), r, key);
    }
  }

  /** Alike before a request, both admit it or neither does. */
  lemma SameAnswer(c: Limits, s: State, m: map<string, Bucket>, r: Request)
    requires c.Valid() && Proper(c, s, r.fetched) && Timely(r, r.fetched) && Alike(c, s.buckets, m, r.key, r.fetched)
    ensures Served(c, s, r).1 == Remembering(c, m, r).1
    ensures var b := Remembering(c, m, r).0[r.key];
      b == Bucket(Allowance(c, s.buckets, r.key, r.spent) - (if Served(c, s, r).1 then 1.0 else 0.0), r.spent, r.spent)
  {
    OwnAllowance(c, s, r, r.fetched);
    GainGrows(c, 0.0, r.spent - r.fetched);
    assert Allowance(c, s.buckets, r.key, r.spent) == Allowance(c, m, r.key, r.spent);
  }

  /**
   * A request whose bucket the sweep takes is admitted, and costs its client nothing: it has all it
   * had before, one more than if nothing were forgotten.
   */
  lemma UnderfootCostsNothing(c: Limits, s: State, m: map<string, Bucket>, r: Request)
    requires c.Valid() && c.Gain(IDLE_TTL) >= c.Full()
    requires Proper(c, s, r.fetched) && Timely(r, r.fetched) && SweptUnderfoot(c, s, r)
    ensures var (t, ok) := Served(c, s, r);
      ok && Allowance(c, t.buckets, r.key, r.spent) == Allowance(c, s.buckets, r.key, r.spent) == c.Full()
    ensures Alike(c, s.buckets, m, r.key, r.fetched) ==>
      Allowance(c, Remembering(c, m, r).0, r.key, r.spent) == c.Full() - 1.0
  {
    OwnAllowance(c, s, r, r.fetched);
    GainGrows(c, 0.0, r.spent - r.fetched);
    if r.key in s.buckets {
      var u := s.buckets[r.key].lastSeen;
      GainGrows(c, IDLE_TTL, r.spent - u);
    }
    if Alike(c, s.buckets, m, r.key, r.fetched) {
      SameAnswer(c, s, m, r);
    }
  }

  /** One request keeps a client alike exactly when it does not lose that client's bucket underfoot. */
  lemma OneMoreAlike(c: Limits, s: State, m: map<string, Bucket>, r: Request, key: string)
    requires c.Valid() && c.Gain(IDLE_TTL) >= c.Full()
    requires Proper(c, s, r.fetched) && Timely(r, r.fetched)
    requires Alike(c, s.buckets, m, key, r.fetched)
    ensures Alike(c, Served(c, s, r).0.buckets, Remembering(c, m, r).0, key, r.spent)
       <==> !(r.key == key && SweptUnderfoot(c, s, r))
  {
    if r.key != key {
      forall later | r.spent <= later
        ensures Allowance(c, Served(c, s, r).0.buckets, key, later) == Allowance(c, Remembering(c, m, r).0, key, later)
      {
        OthersAreUntouched(c, s, r, r.fetched, key, later);
        assert Allowance(c, s.buckets, key, later) == Allowance(c, m, key, later);
      }
    } else if SweptUnderfoot(c, s, r) {
      UnderfootCostsNothing(c, s, m, r);
    } else {
      SameAnswer(c, s, m, r);
      OwnAllowance(c, s, r, r.fetched);
    }
  }

  /**
   * When the idle time is enough to fill a bucket, sweeping changes no decision about a client until
   * the sweep takes a bucket a request of its own spends from: up to there each of its requests is
   * answered as if nothing were ever forgotten, whatever happens to others.
   */
  lemma SweepingIsInvisible(c: Limits, requests: seq<Request>, n: nat)
    requires c.Valid() && c.Gain(IDLE_TTL) >= c.Full() && Ordered(requests) && n < |requests|
    requires !Underfoot(c, requests, 0, n, requests[n].key)
    ensures Admits(c, requests, n) == Remembering(c, Remembered(c, requests, n), requests[n]).1
  {
    AlwaysAlike(c, requests, n, requests[n].key, requests[n].fetched);
    AlwaysProper(c, requests, n);
    SameAnswer(c, After(c, requests, n), Remembered(c, requests, n), requests[n]);
  }

  // ---- The window -----------------------------------------------------------------------------------

  /** By how much the idle time fails to bring in a whole bucket and one token more. */
  function Shortfall(c: Limits): real {
    var missing := c.Full() + 1.0 - c.Gain(IDLE_TTL);
    if missing > 0.0 then missing else 0.0
  }

  /** What `swept` buckets lost underfoot give away: one token, and the shortfall for each after the first. */
  function Gift(c: Limits, swept: nat): real {
    if swept == 0 then 0.0 else 1.0 + (swept - 1) as real * Shortfall(c)
  }

  lemma OneMoreGift(c: Limits, swept: nat)
    ensures Gift(c, swept) >= if swept == 0 then 0.0 else 1.0
    ensures Gift(c, swept + 1) == Gift(c, swept) + if swept == 0 then 1.0 else Shortfall(c)
  {
    if swept > 0 {
      OneMoreTime(swept - 1, Shortfall(c));
    }
  }

  lemma SmallGift(c: Limits, swept: nat)
    ensures c.Gain(IDLE_TTL) >= c.Full() + 1.0 ==> Gift(c, swept) == if swept > 0 then 1.0 else 0.0
  {
  }

  lemma {:induction false} SweptCountMeans(c: Limits, requests: seq<Request>, i: nat, j: nat, key: string)
    requires i <= j <= |requests|
    ensures SweptCount(c, requests, i, j, key) > 0 <==> Underfoot(c, requests, i, j, key)
  {
    hide SweptUnderfoot, After;
    if i < j {
      SweptCountMeans(c, requests, i, j - 1, key);
      UnderfootGrows(c, requests, i, j, key);
    }
  }

  lemma OneMoreTime(n: nat, x: real)
    requires x >= 0.0
    ensures n as real * x >= 0.0 && (n + 1) as real * x == n as real * x + x
  {
  }

  /**
   * The account of one client since `from` is in balance: `admitted` requests so far, and `extra` for
   * the buckets that went underfoot. A bucket not used since `from` has admitted nothing since.
   */
  predicate Balanced(c: Limits, s: State, key: string, from: real, admitted: real, extra: real, now: real) {
    if key in s.buckets && s.buckets[key].lastSeen >= from
    then admitted + s.buckets[key].tokens <= c.Full() + c.Gain(s.buckets[key].lastSeen - from) + extra
    else admitted == extra == 0.0 || (key !in s.buckets && admitted <= c.Gain(now - from) + extra)
  }

  lemma OtherKeepsAccount(c: Limits, s: State, r: Request, now: real, key: string, from: real, admitted: real,
                          extra: real)
    requires c.Valid() && c.Gain(IDLE_TTL) >= c.Full()
    requires Proper(c, s, now) && Timely(r, now) && from <= r.spent && key != r.key
    requires Balanced(c, s, key, from, admitted, extra, now)
    ensures Balanced(c, Served(c, s, r).0, key, from, admitted, extra, r.spent)
  {
    var t := Served(c, s, r).0;
    if key !in t.buckets {
      if key in s.buckets {
        var u := s.buckets[key].lastSeen;
        GainAdds(c, from, u, r.spent);
        GainGrows(c, IDLE_TTL, r.spent - u);
      } else {
        GainAdds(c, from, now, r.spent);
        GainGrows(c, 0.0, r.spent - now);
      }
    }
  }

  lemma OwnKeepsAccount(c: Limits, s: State, r: Request, now: real, from: real, admitted: real, extra: real)
    requires c.Valid() && Proper(c, s, now) && Timely(r, now) && from <= r.spent && !SweptUnderfoot(c, s, r)
    requires Balanced(c, s, r.key, from, admitted, extra, now)
    ensures var (t, ok) := Served(c, s, r);
      Balanced(c, t, r.key, from, admitted + if ok then 1.0 else 0.0, extra, r.spent)
  {
    OwnAllowance(c, s, r, now);
    GainGrows(c, 0.0, r.spent - from);
    if r.key in s.buckets {
      var u := s.buckets[r.key].lastSeen;
      LevelGrows(c, s.buckets[r.key], u, r.spent);
      GainAdds(c, from, u, r.spent);
    } else {
      GainAdds(c, from, now, r.spent);
      GainGrows(c, 0.0, r.spent - now);
    }
  }

  lemma UnderfootKeepsAccount(c: Limits, s: State, r: Request, now: real, from: real, admitted: real, swept: nat)
    requires c.Valid() && c.Gain(IDLE_TTL) >= c.Full()
    requires Proper(c, s, now) && Timely(r, now) && from <= r.spent && SweptUnderfoot(c, s, r)
    requires Balanced(c, s, r.key, from, admitted, Gift(c, swept), now)
    ensures var (t, ok) := Served(c, s, r);
      Balanced(c, t, r.key, from, admitted + if ok then 1.0 else 0.0, Gift(c, swept + 1), r.spent)
  {
    OneMoreGift(c, swept);
    hide Gift;
    OwnAllowance(c, s, r, now);
    GainGrows(c, 0.0, r.spent - from);
    var u := if r.key in s.buckets then s.buckets[r.key].lastSeen else r.fetched;
    GainAdds(c, from, u, r.spent);
    GainGrows(c, IDLE_TTL, r.spent - u);
    GainAdds(c, from, now, u);
    if now <= u {
      GainGrows(c, 0.0, u - now);
    }
  }

  lemma UnderfootGrows(c: Limits, requests: seq<Request>, i: nat, j: nat, key: string)
    requires i < j <= |requests|
    ensures Underfoot(c, requests, i, j, key)
      <==> Underfoot(c, requests, i, j - 1, key)
           || (requests[j - 1].key == key && SweptUnderfoot(c, After(c, requests, j - 1), requests[j - 1]))
  {
  }

  /** The account after one more request, of this client or another. */
  lemma ServeKeepsAccount(c: Limits, s: State, r: Request, now: real, key: string, from: real, admitted: real,
                          swept: nat)
    requires c.Valid() && c.Gain(IDLE_TTL) >= c.Full() && Proper(c, s, now) && Timely(r, now) && from <= r.spent
    requires Balanced(c, s, key, from, admitted, Gift(c, swept), now)
    ensures var (t, ok) := Served(c, s, r);
      Balanced(c, t, key, from, admitted + (if r.key == key && ok then 1.0 else 0.0),
               Gift(c, if r.key == key && SweptUnderfoot(c, s, r) then swept + 1 else swept), r.spent)
  {
    hide Balanced, Served, SweptUnderfoot, Proper, Gift;
    if r.key != key {
      OtherKeepsAccount(c, s, r, now, key, from, admitted, Gift(c, swept));
    } else if SweptUnderfoot(c, s, r) {
      UnderfootKeepsAccount(c, s, r, now, from, admitted, swept);
    } else {
      OwnKeepsAccount(c, s, r, now, from, admitted, Gift(c, swept));
    }
  }

  /** At the first request of a stretch nothing has been admitted yet. */
  lemma AccountOpens(c: Limits, s: State, r: Request, key: string)
    requires c.Valid() && Proper(c, s, r.fetched) && Timely(r, r.fetched)
    ensures Balanced(c, s, key, r.spent, 0.0, 0.0, r.fetched)
  {
    if key in s.buckets && s.buckets[key].lastSeen >= r.spent {
      assert c.Gain(s.buckets[key].lastSeen - r.spent) == 0.0;
    }
  }

  /** What the account of a stretch is drawn up from. */
  function Total(c: Limits, requests: seq<Request>, i: nat, j: nat, key: string): real
    requires i <= j <= |requests|
  {
    Admitted(c, requests, i, j, key) as real
  }

  function Extra(c: Limits, requests: seq<Request>, i: nat, j: nat, key: string): real
    requires i <= j <= |requests|
  {
    Gift(c, SweptCount(c, requests, i, j, key))
  }

  lemma OneMoreRequest(c: Limits, requests: seq<Request>, i: nat, j: nat, key: string)
    requires i < j <= |requests|
    ensures var s, r := After(c, requests, j - 1), requests[j - 1];
      && Total(c, requests, i, j, key)
         == Total(c, requests, i, j - 1, key) + (if r.key == key && Served(c, s, r).1 then 1.0 else 0.0)
      && SweptCount(c, requests, i, j, key)
         == SweptCount(c, requests, i, j - 1, key) + (if r.key == key && SweptUnderfoot(c, s, r) then 1 else 0)
      && After(c, requests, j) == Served(c, s, r).0
  {
  }

  /** After the first request of a stretch. */
  lemma AccountStarts(c: Limits, requests: seq<Request>, i: nat, key: string)
    requires c.Valid() && Ordered(requests) && i < |requests| && c.Gain(IDLE_TTL) >= c.Full()
    ensures Balanced(c, After(c, requests, i + 1), key, requests[i].spent, Total(c, requests, i, i + 1, key),
                     Extra(c, requests, i, i + 1, key), requests[i].spent)
  {
    hide Balanced, Served, SweptUnderfoot, Proper;
    var s, r := After(c, requests, i), requests[i];
    AlwaysProper(c, requests, i);
    OneMoreRequest(c, requests, i, i + 1, key);
    AccountOpens(c, s, r, key);
    ServeKeepsAccount(c, s, r, r.fetched, key, r.spent, 0.0, 0);
  }

  /** After one more. */
  lemma AccountNext(c: Limits, requests: seq<Request>, i: nat, j: nat, key: string)
    requires c.Valid() && Ordered(requests) && i + 1 < j <= |requests| && c.Gain(IDLE_TTL) >= c.Full()
    requires requests[i].spent <= requests[j - 2].spent
    requires Balanced(c, After(c, requests, j - 1), key, requests[i].spent, Total(c, requests, i, j - 1, key),
                      Extra(c, requests, i, j - 1, key), requests[j - 2].spent)
    ensures Balanced(c, After(c, requests, j), key, requests[i].spent, Total(c, requests, i, j, key),
                     Extra(c, requests, i, j, key), requests[j - 1].spent)
  {
    hide Balanced, Served, SweptUnderfoot, SweptCount, Proper, Total;
    AlwaysProper(c, requests, j - 1);
    OneMoreRequest(c, requests, i, j, key);
    ServeKeepsAccount(c, After(c, requests, j - 1), requests[j - 1], requests[j - 2].spent, key, requests[i].spent,
                      Total(c, requests, i, j - 1, key), SweptCount(c, requests, i, j - 1, key));
  }

  lemma {:induction false} AccountHolds(c: Limits, requests: seq<Request>, i: nat, j: nat, key: string)
    requires c.Valid() && Ordered(requests) && i < j <= |requests| && c.Gain(IDLE_TTL) >= c.Full()
    ensures Balanced(c, After(c, requests, j), key, requests[i].spent, Total(c, requests, i, j, key),
                     Extra(c, requests, i, j, key), requests[j - 1].spent)
    ensures requests[i].spent <= requests[j - 1].spent
    decreases j
  {
    hide Balanced, Served, SweptUnderfoot, SweptCount, Total, Extra;
    if i == j - 1 {
      AccountStarts(c, requests, i, key);
    } else {
      AccountHolds(c, requests, i, j - 1, key);
      AccountNext(c, requests, i, j, key);
    }
  }

  /**
   * Over any stretch of any run, whoever else asks and whenever the sweep comes, when idle means full:
   * one client is admitted at most its burst and what flows in, one more if a bucket went underfoot,
   * and for each further one what the idle time falls short of a whole bucket and a token. With an
   * idle time that brings in both it is never more than the one.
   */
  lemma WindowIsBounded(c: Limits, requests: seq<Request>, i: nat, j: nat, key: string)
    requires c.Valid() && Ordered(requests) && i < j <= |requests| && c.Gain(IDLE_TTL) >= c.Full()
    ensures Admitted(c, requests, i, j, key) as real
      <= c.Full() + c.Gain(requests[j - 1].spent - requests[i].spent) + Gift(c, SweptCount(c, requests, i, j, key))
    ensures c.Gain(IDLE_TTL) >= c.Full() + 1.0 ==>
      Gift(c, SweptCount(c, requests, i, j, key)) == if Underfoot(c, requests, i, j, key) then 1.0 else 0.0
  {
    hide Served, SweptUnderfoot, SweptCount, After, Gift, Underfoot;
    SweptCountMeans(c, requests, i, j, key);
    SmallGift(c, SweptCount(c, requests, i, j, key));
    AccountHolds(c, requests, i, j, key);
    AlwaysProper(c, requests, j);
    var s, from, to := After(c, requests, j), requests[i].spent, requests[j - 1].spent;
    OneMoreGift(c, SweptCount(c, requests, i, j, key));
    GainGrows(c, 0.0, to - from);
    if key in s.buckets && s.buckets[key].lastSeen >= from {
      GainGrows(c, s.buckets[key].lastSeen - from, to - from);
    }
  }

  // ---- Nobody is refused without need -----------------------------------------------------------------

  /** Since its request `i` the client has had all that flowed into a full bucket, and `b` is what is left. */
  predicate SpentSince(c: Limits, requests: seq<Request>, i: nat, n: nat, key: string, b: Bucket)
    requires n <= |requests|
  {
    && i < n && requests[i].key == key
    && b.tokens == c.Full() + c.Gain(b.last - requests[i].spent) - Admitted(c, requests, i, n, key) as real
  }

  /** Whoever was full when it asked starts a new count. */
  lemma SpendingIsCounted(c: Limits, requests: seq<Request>, n: nat, b: Bucket, after: Bucket, since: nat)
    returns (from: nat)
    requires c.Valid() && n < |requests| && Sane(c, b, requests[n].spent)
    requires (after, Served(c, After(c, requests, n), requests[n]).1) == Spend(c, b, requests[n].spent)
    requires b.tokens == c.Full() || SpentSince(c, requests, since, n, requests[n].key, b)
    ensures SpentSince(c, requests, from, n + 1, requests[n].key, after)
  {
    hide Served, After;
    var r := requests[n];
    GainGrows(c, 0.0, r.spent - b.last);
    assert Admitted(c, requests, n, n, r.key) == 0;
    if b.tokens + c.Gain(r.spent - b.last) >= c.Full() {
      from := n;
    } else {
      from := since;
      GainAdds(c, requests[since].spent, b.last, r.spent);
    }
  }

  /** Another client's request, and the sweep it may bring, leave the count as it is. */
  lemma OthersAreNotCounted(c: Limits, requests: seq<Request>, n: nat, key: string)
    requires c.Valid() && n < |requests| && requests[n].key != key && key in After(c, requests, n + 1).buckets
    ensures key in After(c, requests, n).buckets
    ensures After(c, requests, n + 1).buckets[key] == After(c, requests, n).buckets[key]
    ensures forall i :: 0 <= i <= n ==> Admitted(c, requests, i, n + 1, key) == Admitted(c, requests, i, n, key)
  {
  }

  /** A client's own request, if its bucket is kept. */
  lemma OwnIsSpent(c: Limits, requests: seq<Request>, n: nat)
    requires c.Valid() && n < |requests| && requests[n].key in After(c, requests, n + 1).buckets
    ensures var s, r := After(c, requests, n), requests[n];
      (After(c, requests, n + 1).buckets[r.key], Served(c, s, r).1) == Spend(c, Fetch(c, s, r).buckets[r.key], r.spent)
  {
  }

  lemma {:induction false} AlwaysCounted(c: Limits, requests: seq<Request>, n: nat, key: string) returns (from: nat)
    requires c.Valid() && Ordered(requests) && n <= |requests| && key in After(c, requests, n).buckets
    ensures SpentSince(c, requests, from, n, key, After(c, requests, n).buckets[key])
  {
    hide Served;
    var s, r := After(c, requests, n - 1), requests[n - 1];
    if r.key == key {
      var since := 0;
      AlwaysProper(c, requests, n - 1);
      if key in s.buckets {
        since := AlwaysCounted(c, requests, n - 1, key);
      }
      OwnIsSpent(c, requests, n - 1);
      var fetched := Fetch(c, s, r).buckets[key];
      from := SpendingIsCounted(c, requests, n - 1, fetched, After(c, requests, n).buckets[key], since);
    } else {
      OthersAreNotCounted(c, requests, n - 1, key);
      from := AlwaysCounted(c, requests, n - 1, key);
    }
  }

  /**
   * A client is refused only when it has had its due: since request `from` of its own it was admitted
   * so often that one more would exceed a full bucket and all that has flowed in.
   */
  lemma RefusedOnlyWhenSpent(c: Limits, requests: seq<Request>, n: nat) returns (from: nat)
    requires c.Valid() && Ordered(requests) && n < |requests| && !Admits(c, requests, n)
    ensures from < n && requests[from].key == requests[n].key
    ensures Admitted(c, requests, from, n, requests[n].key) as real + 1.0
      > c.Full() + c.Gain(requests[n].spent - requests[from].spent)
  {
    var s, r := After(c, requests, n), requests[n];
    AlwaysProper(c, requests, n);
    OwnAllowance(c, s, r, r.fetched);
    hide Served, After, SweptUnderfoot;
    from := AlwaysCounted(c, requests, n, r.key);
    GainAdds(c, requests[from].spent, s.buckets[r.key].last, r.spent);
  }

  /** The extra one is real: back after a long silence, a client with a burst of one is admitted twice at once. */
  lemma OneExtraIsReached()
    ensures var c, requests := Limits(1, 1.0),
        [Request("a", 0.0, 0.0, 0.0), Request("a", 700.0, 700.0, 700.0), Request("a", 700.0, 700.0, 700.0)];
      Ordered(requests) && Admitted(c, requests, 1, 3, "a") == 2
  {
    var c := Limits(1, 1.0);
    var first, again := Request("a", 0.0, 0.0, 0.0), Request("a", 700.0, 700.0, 700.0);
    var requests := [first, again, again];
    var spent, swept := State(map["a" := Bucket(0.0, 0.0, 0.0)], 1, Some(0.0)), State(map[], 0, Some(700.0));
    FirstRequest(c, first);
    AfterNext(c, requests, 0, START, spent, true);
    BackAfterSilence(c, again);
    AfterNext(c, requests, 1, spent, swept, true);
    var full := State(map["a" := Bucket(0.0, 700.0, 700.0)], 1, Some(700.0));
    OnceMore(c, again);
    AfterNext(c, requests, 2, swept, full, true);
    TwoOfTwo(c, requests);
  }

  lemma AfterNext(c: Limits, requests: seq<Request>, n: nat, s: State, t: State, ok: bool)
    requires n < |requests| && After(c, requests, n) == s && Served(c, s, requests[n]) == (t, ok)
    ensures After(c, requests, n + 1) == t && Admits(c, requests, n) == ok
  {
  }

  lemma TwoOfTwo(c: Limits, requests: seq<Request>)
    requires |requests| == 3 && requests[1].key == requests[2].key == "a"
    requires Admits(c, requests, 1) && Admits(c, requests, 2)
    ensures Admitted(c, requests, 1, 3, "a") == 2
  {
    assert Admitted(c, requests, 1, 1, "a") == 0;
    assert Admitted(c, requests, 1, 2, "a") == 1;
  }

  lemma OnceMore(c: Limits, r: Request)
    requires c == Limits(1, 1.0) && r == Request("a", 700.0, 700.0, 700.0)
    ensures Served(c, State(map[], 0, Some(700.0)), r)
         == (State(map["a" := Bucket(0.0, 700.0, 700.0)], 1, Some(700.0)), true)
  {
    assert Level(c, Fresh(c, 700.0), 700.0) == 1.0;
    assert Fetch(c, State(map[], 0, Some(700.0)), r).buckets["a" := Bucket(0.0, 700.0, 700.0)]
      == map["a" := Bucket(0.0, 700.0, 700.0)];
  }

  lemma FirstRequest(c: Limits, r: Request)
    requires c == Limits(1, 1.0) && r == Request("a", 0.0, 0.0, 0.0)
    ensures Served(c, START, r) == (State(map["a" := Bucket(0.0, 0.0, 0.0)], 1, Some(0.0)), true)
  {
    assert Level(c, Fresh(c, 0.0), 0.0) == 1.0;
    assert Fetch(c, START, r).buckets["a" := Bucket(0.0, 0.0, 0.0)] == map["a" := Bucket(0.0, 0.0, 0.0)];
  }

  lemma BackAfterSilence(c: Limits, r: Request)
    requires c == Limits(1, 1.0) && r == Request("a", 700.0, 700.0, 700.0)
    ensures Served(c, State(map["a" := Bucket(0.0, 0.0, 0.0)], 1, Some(0.0)), r) == (State(map[], 0, Some(700.0)), true)
  {
    assert Level(c, Bucket(0.0, 0.0, 0.0), 700.0) == 1.0;
    assert MaybeSweep(State(map["a" := Bucket(0.0, 0.0, 0.0)], 1, Some(0.0)), 700.0).buckets == map[];
  }
}
