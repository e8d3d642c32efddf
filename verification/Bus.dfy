/** The in-process event bus: bounded buffers, sends that never wait, and who closes what. */
module Bus {
  import opened Wrappers
  import opened EventLog

  /** What became of one published event at one subscriber. */
  datatype Fate = Fate(e: Event, accepted: bool)

  function Accepted(fates: seq<Fate>): seq<Event> {
    if fates == [] then []
    else
      var last := fates[|fates| - 1];
      Accepted(fates[..|fates| - 1]) + if last.accepted then [last.e] else []
  }

  function Offered(fates: seq<Fate>): seq<Event> {
    seq(|fates|, k requires 0 <= k < |fates| => fates[k].e)
  }

  function OfJob(log: seq<Event>, jobId: string): seq<Event> {
    if log == [] then []
    else
      var last := log[|log| - 1];
      OfJob(log[..|log| - 1], jobId) + if last.jobId == jobId then [last] else []
  }

  // ---- Subscriptions -----------------------------------------------------------------------

  const DEFAULT_BUFFER: nat := 16

  /** What has come to a subscriber so far: what it received, what still waits, and what became of every event. */
  datatype Inbox = Inbox(received: seq<Event>, buffer: seq<Event>, fates: seq<Fate>)

  /** A send that does not wait. */
  function Sent(inbox: Inbox, capacity: nat, e: Event): Inbox {
    var ok := |inbox.buffer| < capacity;
    Inbox(inbox.received, if ok then inbox.buffer + [e] else inbox.buffer, inbox.fates + [Fate(e, ok)])
  }

  /**
   * Of the events published while subscribed, those of the job had a fate each, in order; the
   * accepted ones are, in order, what was received and then what waits; the rest were dropped.
   */
  predicate Accounted(inbox: Inbox, capacity: nat, jobId: string, published: seq<Event>) {
    && 0 < capacity && |inbox.buffer| <= capacity
    && Offered(inbox.fates) == OfJob(published, jobId)
    && Accepted(inbox.fates) == inbox.received + inbox.buffer
  }

  /** A channel and its reader. `start` and `end` say which part of the bus's log it was open for. */
  class Subscription {
    const jobId: string
    const capacity: nat
    var buffer: seq<Event>
    var closed: bool
    ghost const start: nat
    ghost var end: nat
    ghost var received: seq<Event>
    ghost var fates: seq<Fate>

    ghost function Holds(): Inbox
      reads this
    {
      Inbox(received, buffer, fates)
    }

    ghost function Published(log: seq<Event>): seq<Event>
      requires start <= end <= |log|
      reads this
    {
      if closed then log[start..end] else log[start..]
    }

    constructor (jobId: string, capacity: nat, ghost start: nat)
      ensures this.jobId == jobId && this.capacity == capacity && this.start == end == start
      ensures !closed && Holds() == Inbox([], [], [])
    {
      this.jobId, this.capacity, this.start, this.end := jobId, capacity, start, start;
      buffer, closed, fates, received := [], false, [], [];
    }

    /** Sending on a closed channel panics, hence the demand. */
    method TrySend(e: Event) returns (ok: bool)
      requires !closed
      modifies this`buffer, this`fates
      ensures ok <==> old(|buffer|) < capacity
      ensures Holds() == Sent(old(Holds()), capacity, e)
    {
      ok := |buffer| < capacity;
      if ok {
        buffer := buffer + [e];
      }
      fates := fates + [Fate(e, ok)];
    }

    /** Closing twice panics, hence the demand. */
    method Close(ghost at: nat)
      requires !closed
      modifies this`closed, this`end
      ensures closed && end == at
    {
      closed, end := true, at;
    }

    /** The reader's side; a closed channel still gives up what it holds. */
    method Receive(ghost published: seq<Event>) returns (e: Option<Event>)
      requires Accounted(Holds(), capacity, jobId, published)
      modifies this`buffer, this`received
      ensures Accounted(Holds(), capacity, jobId, published)
      ensures e.None? <==> old(buffer) == []
      ensures e.None? ==> Holds() == old(Holds())
      ensures e.Some? ==> [e.value] + buffer == old(buffer) && received == old(received) + [e.value]
    {
      e := None;
      if buffer != [] {
        e := Some(buffer[0]);
        assert received + buffer == received + [buffer[0]] + buffer[1..];
        buffer, received := buffer[1..], received + [buffer[0]];
      }
    }
  }

  // ---- The bus -----------------------------------------------------------------------------

  class InProcessBus {
    var subs: map<string, set<Subscription>>
    var dropCallback: bool
    ghost var log: seq<Event>
    ghost var made: set<Subscription>

    /** The subscribers of a job. */
    function Targets(jobId: string): set<Subscription>
      reads this`subs
    {
      if jobId in subs then subs[jobId] else {}
    }

    /** Registered exactly as long as the channel is open; and nothing published meanwhile is unaccounted for. */
    ghost predicate Keeps(s: Subscription)
      reads this`subs, this`log, s
    {
      && (s in Targets(s.jobId) <==> !s.closed) && s.start <= s.end <= |log|
      && Accounted(s.Holds(), s.capacity, s.jobId, s.Published(log))
    }

    ghost predicate Filed()
      reads this`subs, this`made
    {
      forall id, s :: s in Targets(id) ==> s in made && s.jobId == id
    }

    ghost predicate Valid()
      reads this, made
    {
      Filed() && forall s :: s in made ==> Keeps(s)
    }

    constructor ()
      ensures Valid() && made == {} && log == [] && !dropCallback
    {
      subs, dropCallback, log, made := map[], false, [], {};
    }

    method OnDrop(wanted: bool)
      requires Valid()
      modifies this`dropCallback
      ensures Valid() && dropCallback == wanted
    {
      hide Accounted;
      dropCallback := wanted;
      assert forall s :: s in made ==> old(Keeps(s));
    }

    method Subscribe(jobId: string, buffer: int) returns (s: Subscription)
      requires Valid()
      modifies this`subs, this`made
      ensures Valid() && fresh(s) && made == old(made) + {s}
      ensures s.jobId == jobId && s.start == |log| && s.Holds() == Inbox([], [], [])
      ensures s.capacity == if buffer <= 0 then DEFAULT_BUFFER else buffer
      ensures forall id :: Targets(id) == old(Targets(id)) + if id == jobId then {s} else {}
    {
      hide Accounted;
      assert forall o :: o in made ==> Keeps(o);
      s := new Subscription(jobId, if buffer <= 0 then DEFAULT_BUFFER else buffer, |log|);
      NothingIsAccounted(s.capacity, jobId, log);
      subs := subs[jobId := Targets(jobId) + {s}];
      made := made + {s};
      assert forall id :: Targets(id) == old(Targets(id)) + if id == jobId then {s} else {};
      assert forall id, o :: o in old(Targets(id)) ==> o in old(made) && o.jobId == id;
    }

    /** Drops the subscription from the sets, and the set with its last member. */
    method Deregister(s: Subscription)
      requires Filed()
      modifies this`subs
      ensures Filed() && forall id :: Targets(id) == old(Targets(id)) - {s}
    {
      if s.jobId in subs {
        var rest := subs[s.jobId] - {s};
        subs := if rest == {} then subs - {s.jobId} else subs[s.jobId := rest];
      }
      assert forall id, o :: o in old(Targets(id)) ==> o in made && o.jobId == id;
      assert forall id :: Targets(id) == old(Targets(id)) - {s};
    }

    /** Whoever unsubscribes first closes the channel; later calls find nothing to do. */
    method Unsubscribe(s: Subscription)
      requires Valid() && s in made
      modifies this`subs, s`closed, s`end
      ensures Valid() && s.closed
      ensures s.end == if old(s.closed) then old(s.end) else |log|
      ensures forall id :: Targets(id) == old(Targets(id)) - {s}
    {
      hide Accounted;
      assert forall o :: o in made ==> Keeps(o);
      Deregister(s);
      if !s.closed {
        assert log[s.start..] == log[s.start..|log|];
        s.Close(|log|);
      }
    }

    /** One non-blocking send to each; how many failed. */
    static method SendAll(targets: set<Subscription>, e: Event) returns (drops: nat)
      requires forall s :: s in targets ==> !s.closed
      modifies targets`buffer, targets`fates
      ensures forall s :: s in targets ==> s.Holds() == Sent(old(s.Holds()), s.capacity, e)
      ensures drops == |set s | s in targets && old(|s.buffer|) >= s.capacity|
    {
      drops := 0;
      var rest := targets;
      ghost var full: set<Subscription> := {};
      while rest != {}
        invariant rest <= targets
        invariant forall s :: s in rest ==> s.Holds() == old(s.Holds())
        invariant forall s :: s in targets && s !in rest ==> s.Holds() == Sent(old(s.Holds()), s.capacity, e)
        invariant forall s :: s in full <==> s in targets && s !in rest && old(|s.buffer|) >= s.capacity
        invariant drops == |full|
        decreases rest
      {
        var s :| s in rest;
        rest := rest - {s};
        assert s.Holds() == old(s.Holds());
        var ok := s.TrySend(e);
        if !ok {
          drops := drops + 1;
          full := full + {s};
        }
      }
      assert full == set s | s in targets && old(|s.buffer|) >= s.capacity;
    }

    /**
     * Every subscriber of the job is offered the event once; the failed sends are reported to the
     * callback, if there is one.
     */
    method Publish(e: Event) returns (calls: nat)
      requires Valid()
      modifies this`log, Targets(e.jobId)`buffer, Targets(e.jobId)`fates
      ensures Valid() && log == old(log) + [e]
      ensures forall s :: s in Targets(e.jobId) ==> s.Holds() == Sent(old(s.Holds()), s.capacity, e)
      ensures calls == if dropCallback then |set s | s in Targets(e.jobId) && old(|s.buffer|) >= s.capacity| else 0
    {
      hide Accounted;
      assert forall s :: s in made ==> Keeps(s);
      assert forall s :: s in Targets(e.jobId) ==> s in made && s.jobId == e.jobId;
      ghost var before := log;
      var drops := SendAll(Targets(e.jobId), e);
      log := log + [e];
      forall s | s in made ensures Keeps(s) {
        PublishedKeeps(old(s.Holds()), s.Holds(), s.capacity, s.jobId, before, s.start, s.end, s.closed, e);
      }
      calls := 0;
      if dropCallback {
        for i := 0 to drops
          invariant calls == i
        {
          calls := calls + 1;
        }
      }
    }
  }

  /** A subscription has nothing to account for at first. */
  lemma NothingIsAccounted(capacity: nat, jobId: string, log: seq<Event>)
    requires capacity > 0
    ensures Accounted(Inbox([], [], []), capacity, jobId, log[|log|..])
  {
  }

  lemma LogGrows(log: seq<Event>, start: nat, end: nat, e: Event)
    requires start <= end <= |log|
    ensures (log + [e])[start..end] == log[start..end] && (log + [e])[start..] == log[start..] + [e]
  {
  }

  /** An offer is accounted for. */
  lemma OfferIsAccounted(before: Inbox, capacity: nat, jobId: string, published: seq<Event>, e: Event)
    requires Accounted(before, capacity, jobId, published)
    ensures Accounted(if jobId == e.jobId then Sent(before, capacity, e) else before, capacity, jobId, published + [e])
  {
    assert (published + [e])[..|published|] == published;
    if jobId == e.jobId {
      var after := Sent(before, capacity, e);
      assert after.fates[..|after.fates| - 1] == before.fates;
      assert Offered(after.fates) == Offered(before.fates) + [e];
      assert before.received + (before.buffer + [e]) == before.received + before.buffer + [e];
    }
  }

  /** One more event in the log, and one more fate for the open subscriptions of its job. */
  lemma PublishedKeeps(before: Inbox, after: Inbox, capacity: nat, jobId: string, log: seq<Event>,
                       start: nat, end: nat, closed: bool, e: Event)
    requires start <= end <= |log|
    requires Accounted(before, capacity, jobId, if closed then log[start..end] else log[start..])
    requires after == if !closed && jobId == e.jobId then Sent(before, capacity, e) else before
    ensures Accounted(after, capacity, jobId, if closed then (log + [e])[start..end] else (log + [e])[start..])
  {
    hide Accounted, Sent;
    LogGrows(log, start, end, e);
    if !closed {
      OfferIsAccounted(before, capacity, jobId, log[start..], e);
    }
  }
}
