/**
 * Publishing through the durable log: stamp, append, and only then fan out. Any number of
 * publishers, subscribers and readers, each step of each an atomic action, in any order.
 */
module PersistingBus {
  import opened Wrappers
  import opened EventLog
  import opened Bus

  /** The time an event carries is set once, by whoever first finds it unset. */
  function Stamp(e: Event, now: int): Event {
    if e.createdAt == 0 then e.(createdAt := now) else e
  }

  datatype Sub = Sub(jobId: string, capacity: nat, open: bool, inbox: Inbox)

  /** `attempts` is all appending so far, of every job; `fanning` is what is stored but not yet fanned out. */
  datatype Sys = Sys(attempts: seq<Attempt>, fanning: multiset<Event>, subs: map<nat, Sub>)

  datatype Action =
    | Append(e: Event, now: int)
    | AppendFails(e: Event, now: int, kept: Option<nat>)   // with so much of the line written, if any
    | FanOut(e: Event, now: int)
    | Subscribe(id: nat, jobId: string, buffer: int)
    | Unsubscribe(id: nat)
    | Receive(id: nat)

  const START := Sys([], multiset{}, map[])

  predicate Enabled(codec: Codec, s: Sys, a: Action) {
    match a
    case Append(e, now) => now != 0 && codec.Encodes(Stamp(e, now))
    case AppendFails(e, now, kept) => now != 0 && (kept.Some? ==> Possible(codec, Torn(Stamp(e, now), kept.value)))
    case FanOut(e, now) => e in s.fanning
    case Subscribe(id, _, _) => id !in s.subs
    case Unsubscribe(id) => id in s.subs
    case Receive(id) => id in s.subs && s.subs[id].inbox.buffer != []
  }

  function Next(codec: Codec, s: Sys, a: Action): Sys
    requires Enabled(codec, s, a)
  {
    match a
    case Append(e, now) =>
      s.(attempts := s.attempts + [Whole(Stamp(e, now))], fanning := s.fanning + multiset{Stamp(e, now)})
    case AppendFails(e, now, kept) =>
      if kept.None? then s else s.(attempts := s.attempts + [Torn(Stamp(e, now), kept.value)])
    case FanOut(e, now) =>
      s.(fanning := s.fanning - multiset{e},
         subs := map id | id in s.subs :: Hears(s.subs[id], Stamp(e, now)))
    case Subscribe(id, jobId, buffer) =>
      s.(subs := s.subs[id := Sub(jobId, if buffer <= 0 then DEFAULT_BUFFER else buffer, true, Inbox([], [], []))])
    case Unsubscribe(id) => s.(subs := s.subs[id := s.subs[id].(open := false)])
    case Receive(id) =>
      var sub := s.subs[id];
      s.(subs := s.subs[id := sub.(inbox := Taken(sub.inbox))])
  }

  function Hears(sub: Sub, e: Event): Sub {
    if sub.open && sub.jobId == e.jobId then sub.(inbox := Sent(sub.inbox, sub.capacity, e)) else sub
  }

  function Taken(inbox: Inbox): Inbox
    requires inbox.buffer != []
  {
    Inbox(inbox.received + [inbox.buffer[0]], inbox.buffer[1..], inbox.fates)
  }

  /** The state after `actions`, if each was enabled in its turn. */
  function Exec(codec: Codec, actions: seq<Action>): Option<Sys> {
    if actions == [] then Some(START)
    else
      match Exec(codec, actions[..|actions| - 1])
      case None => None
      case Some(s) =>
        var a := actions[|actions| - 1];
        if Enabled(codec, s, a) then Some(Next(codec, s, a)) else None
  }

  // ---- What the log holds --------------------------------------------------------------------

  /** The log of one job. */
  function LogOf(attempts: seq<Attempt>, jobId: string): seq<Attempt> {
    if attempts == [] then []
    else
      var last := attempts[|attempts| - 1];
      LogOf(attempts[..|attempts| - 1], jobId) + if last.e.jobId == jobId then [last] else []
  }

  function Succeeded(attempts: seq<Attempt>): seq<Event> {
    if attempts == [] then []
    else
      var last := attempts[|attempts| - 1];
      Succeeded(attempts[..|attempts| - 1]) + if last.Whole? then [last.e] else []
  }

  /** Every append that succeeded found the log ending in a newline, or empty. */
  predicate Intact(codec: Codec, attempts: seq<Attempt>)
    requires AllPossible(codec, attempts)
  {
    forall k :: 0 <= k < |attempts| && attempts[k].Whole? ==> Tail(codec, attempts[..k]) == []
  }

  lemma IntactSnoc(codec: Codec, attempts: seq<Attempt>)
    requires AllPossible(codec, attempts) && attempts != []
    ensures var before, last := attempts[..|attempts| - 1], attempts[|attempts| - 1];
      Intact(codec, attempts) <==> Intact(codec, before) && (last.Whole? ==> Tail(codec, before) == [])
  {
    var before := attempts[..|attempts| - 1];
    assert forall k :: 0 <= k < |before| ==> attempts[k] == before[k] && attempts[..k] == before[..k];
  }

  lemma {:induction false} FewerReadable(codec: Codec, attempts: seq<Attempt>)
    requires AllPossible(codec, attempts)
    ensures |Readable(codec, attempts)| <= |Succeeded(attempts)|
    ensures |Readable(codec, attempts)| == |Succeeded(attempts)| <==> Intact(codec, attempts)
    ensures Intact(codec, attempts) ==> Readable(codec, attempts) == Succeeded(attempts)
  {
    if attempts != [] {
      FewerReadable(codec, attempts[..|attempts| - 1]);
      IntactSnoc(codec, attempts);
    }
  }

  /** The successful appends can all be read back exactly when each found the log intact. */
  lemma ReadableIffIntact(codec: Codec, attempts: seq<Attempt>)
    requires AllPossible(codec, attempts)
    ensures Readable(codec, attempts) == Succeeded(attempts) <==> Intact(codec, attempts)
  {
    FewerReadable(codec, attempts);
  }

  lemma {:induction false} LogOfIsPossible(codec: Codec, attempts: seq<Attempt>, jobId: string)
    requires AllPossible(codec, attempts)
    ensures AllPossible(codec, LogOf(attempts, jobId))
  {
    if attempts != [] {
      LogOfIsPossible(codec, attempts[..|attempts| - 1], jobId);
    }
  }

  function Times(events: seq<Event>, e: Event): nat {
    if events == [] then 0
    else Times(events[..|events| - 1], e) + if events[|events| - 1] == e then 1 else 0
  }

  lemma TimesSnoc(events: seq<Event>, last: Event, e: Event)
    ensures Times(events + [last], e) == Times(events, e) + if last == e then 1 else 0
  {
    assert (events + [last])[..|events|] == events;
  }

  /** How often `e` was stored. */
  function Stored(attempts: seq<Attempt>, e: Event): nat {
    Times(Succeeded(attempts), e)
  }

  lemma StoredSnoc(attempts: seq<Attempt>, a: Attempt, e: Event)
    ensures Stored(attempts + [a], e) == Stored(attempts, e) + if a == Whole(e) then 1 else 0
  {
    assert (attempts + [a])[..|attempts|] == attempts;
    if a.Whole? {
      TimesSnoc(Succeeded(attempts), a.e, e);
    } else {
      assert Succeeded(attempts + [a]) == Succeeded(attempts);
    }
  }

  lemma {:induction false} StoredInLog(attempts: seq<Attempt>, e: Event)
    ensures Stored(LogOf(attempts, e.jobId), e) == Stored(attempts, e)
  {
    if attempts != [] {
      var before, last := attempts[..|attempts| - 1], attempts[|attempts| - 1];
      var log := LogOf(before, e.jobId);
      StoredInLog(before, e);
      assert attempts == before + [last];
      StoredSnoc(before, last, e);
      if last.e.jobId == e.jobId {
        StoredSnoc(log, last, e);
        assert LogOf(attempts, e.jobId) == log + [last];
      } else {
        assert LogOf(attempts, e.jobId) == log;
      }
    }
  }

  // ---- Every run ------------------------------------------------------------------------------

  function Got(inbox: Inbox): seq<Event> {
    inbox.received + inbox.buffer
  }

  /** What a subscriber has of `e`, plus what is still to be fanned out of it, was all stored before. */
  predicate Backed(s: Sys, sub: Sub, e: Event) {
    && Times(Got(sub.inbox), e) + s.fanning[e] <= Stored(s.attempts, e)
    && (sub.jobId != e.jobId ==> Times(Got(sub.inbox), e) == 0)
  }

  ghost predicate Inv(codec: Codec, s: Sys, e: Event) {
    && AllPossible(codec, s.attempts)
    && (forall x :: x in s.fanning ==> x.createdAt != 0)
    && s.fanning[e] <= Stored(s.attempts, e)
    && (forall id :: id in s.subs ==> Backed(s, s.subs[id], e))
  }

  lemma HeardOnce(sub: Sub, x: Event)
    ensures Got(Hears(sub, x).inbox) == Got(sub.inbox)
      || (sub.jobId == x.jobId && Got(Hears(sub, x).inbox) == Got(sub.inbox) + [x])
  {
    assert sub.inbox.received + (sub.inbox.buffer + [x]) == sub.inbox.received + sub.inbox.buffer + [x];
  }

  lemma HeardIsBacked(s: Sys, sub: Sub, x: Event, t: Sys, e: Event)
    requires Backed(s, sub, e) && x in s.fanning
    requires t.fanning == s.fanning - multiset{x} && t.attempts == s.attempts
    ensures Backed(t, Hears(sub, x), e)
  {
    HeardOnce(sub, x);
    TimesSnoc(Got(sub.inbox), x, e);
    assert t.fanning[e] == s.fanning[e] - if x == e then 1 else 0;
  }

  /** Only what can be written gets into the log, and only what is stamped is fanned out. */
  lemma StepKeepsPossible(codec: Codec, s: Sys, a: Action)
    requires AllPossible(codec, s.attempts) && (forall x :: x in s.fanning ==> x.createdAt != 0) && Enabled(codec, s, a)
    ensures var t := Next(codec, s, a);
      AllPossible(codec, t.attempts) && (forall x :: x in t.fanning ==> x.createdAt != 0)
  {
  }

  lemma StepKeepsStored(codec: Codec, s: Sys, a: Action, e: Event)
    requires Inv(codec, s, e) && Enabled(codec, s, a)
    ensures var t := Next(codec, s, a);
      && AllPossible(codec, t.attempts)
      && (forall x :: x in t.fanning ==> x.createdAt != 0)
      && Stored(t.attempts, e) - t.fanning[e]
         == Stored(s.attempts, e) - s.fanning[e] + if a.FanOut? && a.e == e then 1 else 0
  {
    hide Stored, Backed, Possible, AllPossible, Stamp;
    StepKeepsPossible(codec, s, a);
    match a
    case Append(x, now) =>
      var stamped := Stamp(x, now);
      StoredSnoc(s.attempts, Whole(stamped), e);
      assert (s.fanning + multiset{stamped})[e] == s.fanning[e] + if stamped == e then 1 else 0;
    case FanOut(x, _) =>
      assert (s.fanning - multiset{x})[e] == s.fanning[e] - if x == e then 1 else 0;
    case AppendFails(x, now, kept) =>
      if kept.Some? {
        StoredSnoc(s.attempts, Torn(Stamp(x, now), kept.value), e);
      }
    case _ =>
  }

  /** Only a fan-out brings a subscriber anything. */
  lemma OthersBringNothing(codec: Codec, s: Sys, a: Action, id: nat)
    requires Enabled(codec, s, a) && !a.FanOut? && id in Next(codec, s, a).subs
    ensures var sub := Next(codec, s, a).subs[id];
      if id in s.subs then Got(sub.inbox) == Got(s.subs[id].inbox) && sub.jobId == s.subs[id].jobId
      else Got(sub.inbox) == []
  {
  }

  lemma StepKeepsBacked(codec: Codec, s: Sys, a: Action, id: nat, e: Event)
    requires Inv(codec, s, e) && Enabled(codec, s, a) && id in Next(codec, s, a).subs
    ensures var t := Next(codec, s, a); Backed(t, t.subs[id], e)
  {
    if a.FanOut? {
      HeardIsBacked(s, s.subs[id], a.e, Next(codec, s, a), e);
    } else {
      StepKeepsStored(codec, s, a, e);
      OthersBringNothing(codec, s, a, id);
    }
  }

  lemma {:induction false} RunKeepsInv(codec: Codec, actions: seq<Action>, e: Event)
    ensures Exec(codec, actions).Some? ==> Inv(codec, Exec(codec, actions).value, e)
  {
    if actions != [] {
      var before, a := actions[..|actions| - 1], actions[|actions| - 1];
      RunKeepsInv(codec, before, e);
      if Exec(codec, actions).Some? {
        var s := Exec(codec, before).value;
        StepKeepsStored(codec, s, a, e);
        forall id | id in Next(codec, s, a).subs ensures Backed(Next(codec, s, a), Next(codec, s, a).subs[id], e) {
          StepKeepsBacked(codec, s, a, id, e);
        }
      }
    }
  }

  function FanOuts(actions: seq<Action>, e: Event): nat {
    if actions == [] then 0
    else
      var a := actions[|actions| - 1];
      FanOuts(actions[..|actions| - 1], e) + if a.FanOut? && a.e == e then 1 else 0
  }

  /** What was stored has been fanned out, or still is to be: each time once, and nothing else ever is. */
  lemma {:induction false} StoredIsFannedOutOnce(codec: Codec, actions: seq<Action>, e: Event)
    requires Exec(codec, actions).Some?
    ensures var s := Exec(codec, actions).value; Stored(s.attempts, e) == s.fanning[e] + FanOuts(actions, e)
  {
    hide Stored;
    if actions == [] {
      assert Stored([], e) == 0 by {
        StoredMeans([], e);
      }
    } else {
      var before, a := actions[..|actions| - 1], actions[|actions| - 1];
      StoredIsFannedOutOnce(codec, before, e);
      RunKeepsInv(codec, before, e);
      StepKeepsStored(codec, Exec(codec, before).value, a, e);
    }
  }

  /** Everything fanned out while the subscription was open, of any job. */
  function FannedWhileOpen(codec: Codec, actions: seq<Action>, id: nat): seq<Event>
    requires Exec(codec, actions).Some?
  {
    if actions == [] then []
    else
      var before, a := actions[..|actions| - 1], actions[|actions| - 1];
      FannedWhileOpen(codec, before, id) + FannedBy(Exec(codec, before).value, a, id)
  }

  lemma HearsIsAccounted(sub: Sub, published: seq<Event>, x: Event)
    requires Accounted(sub.inbox, sub.capacity, sub.jobId, published)
    ensures sub.open ==> Accounted(Hears(sub, x).inbox, sub.capacity, sub.jobId, published + [x])
    ensures !sub.open ==> Hears(sub, x) == sub
  {
    hide Accounted, Sent;
    OfferIsAccounted(sub.inbox, sub.capacity, sub.jobId, published, x);
  }

  lemma TakenIsAccounted(inbox: Inbox, capacity: nat, jobId: string, published: seq<Event>)
    requires inbox.buffer != [] && Accounted(inbox, capacity, jobId, published)
    ensures Accounted(Taken(inbox), capacity, jobId, published)
  {
    assert inbox.received + inbox.buffer == inbox.received + [inbox.buffer[0]] + inbox.buffer[1..];
  }

  /** The subscriber was offered exactly these, and what it did not drop it has received or has waiting. */
  predicate HasHeard(s: Sys, id: nat, fanned: seq<Event>) {
    if id in s.subs then Accounted(s.subs[id].inbox, s.subs[id].capacity, s.subs[id].jobId, fanned) else fanned == []
  }

  function FannedBy(s: Sys, a: Action, id: nat): seq<Event> {
    if a.FanOut? && id in s.subs && s.subs[id].open then [Stamp(a.e, a.now)] else []
  }

  lemma StepIsHeard(codec: Codec, s: Sys, a: Action, id: nat, fanned: seq<Event>)
    requires Enabled(codec, s, a) && HasHeard(s, id, fanned)
    ensures HasHeard(Next(codec, s, a), id, fanned + FannedBy(s, a, id))
  {
    hide Accounted, Hears, Taken, Stamp;
    assert fanned + [] == fanned;
    if id in s.subs {
      var sub := s.subs[id];
      match a
      case FanOut(e, now) =>
        HearsIsAccounted(sub, fanned, Stamp(e, now));
        HearsKeepsTerms(sub, Stamp(e, now));
      case Receive(receiver) =>
        if receiver == id {
          TakenIsAccounted(sub.inbox, sub.capacity, sub.jobId, fanned);
        }
      case _ =>
    } else if a.Subscribe? && a.id == id {
      NothingOffered(if a.buffer <= 0 then DEFAULT_BUFFER else a.buffer, a.jobId);
    }
  }

  /**
   * In every run each subscriber was offered exactly what was fanned out for its job while it was
   * subscribed, in order: what it accepted it has received or has waiting, and the rest was dropped.
   */
  lemma {:induction false} SubscribersHearWhatIsFannedOut(codec: Codec, actions: seq<Action>, id: nat)
    requires Exec(codec, actions).Some?
    ensures HasHeard(Exec(codec, actions).value, id, FannedWhileOpen(codec, actions, id))
  {
    if actions != [] {
      hide HasHeard, Next, Enabled;
      var before, a := actions[..|actions| - 1], actions[|actions| - 1];
      SubscribersHearWhatIsFannedOut(codec, before, id);
      StepIsHeard(codec, Exec(codec, before).value, a, id, FannedWhileOpen(codec, before, id));
    }
  }

  lemma HearsKeepsTerms(sub: Sub, x: Event)
    ensures Hears(sub, x).capacity == sub.capacity && Hears(sub, x).jobId == sub.jobId && Hears(sub, x).open == sub.open
  {
  }

  lemma NothingOffered(capacity: nat, jobId: string)
    requires capacity > 0
    ensures Accounted(Inbox([], [], []), capacity, jobId, [])
  {
  }

  /**
   * Whatever the interleaving, an event that a subscriber has received or has waiting is already in
   * the history of the job it subscribed to, and at least as often, provided every append that
   * succeeded found the job's log intact.
   */
  lemma LiveEventsAreInHistory(codec: Codec, actions: seq<Action>, id: nat, e: Event)
    requires codec.Faithful() && codec.Strict() && Exec(codec, actions).Some?
    requires id in Exec(codec, actions).value.subs
    ensures var s := Exec(codec, actions).value;
      var sub, log := s.subs[id], LogOf(s.attempts, s.subs[id].jobId);
      && AllPossible(codec, log)
      && (Intact(codec, log) ==> Times(Got(sub.inbox), e) <= Times(Seen(codec, log), e))
  {
    RunKeepsInv(codec, actions, e);
    var s := Exec(codec, actions).value;
    var sub := s.subs[id];
    var log := LogOf(s.attempts, sub.jobId);
    LogOfIsPossible(codec, s.attempts, sub.jobId);
    assert Backed(s, sub, e);
    if Intact(codec, log) && sub.jobId == e.jobId {
      HistoryOfAnyLog(codec, log);
      ReadableIffIntact(codec, log);
      StoredInLog(s.attempts, e);
      TimesAppend(Readable(codec, log), Dangling(codec, log), e);
    }
  }

  /** Position `k` stores `e` on a line of its own: nothing torn was waiting there. */
  predicate StoredClean(codec: Codec, log: seq<Attempt>, e: Event, k: nat)
    requires AllPossible(codec, log)
  {
    k < |log| && log[k] == Whole(e) && Tail(codec, log[..k]) == []
  }

  lemma {:induction false} ReadableMeans(codec: Codec, log: seq<Attempt>, e: Event)
    requires AllPossible(codec, log)
    ensures e in Readable(codec, log) <==> exists k: nat :: StoredClean(codec, log, e, k)
  {
    hide Tail, Possible;
    if log != [] {
      var n := |log| - 1;
      ReadableMeans(codec, log[..n], e);
      if k: nat :| StoredClean(codec, log[..n], e, k) {
        assert log[..n][..k] == log[..k];
        assert StoredClean(codec, log, e, k);
      }
      if k: nat :| StoredClean(codec, log, e, k) && k < n {
        assert log[..n][..k] == log[..k];
        assert StoredClean(codec, log[..n], e, k);
      }
      if log[n] == Whole(e) && Tail(codec, log[..n]) == [] {
        assert StoredClean(codec, log, e, n);
      }
    }
  }

  lemma {:induction false} TimesMeans(events: seq<Event>, e: Event)
    ensures Times(events, e) > 0 <==> e in events
  {
    if events != [] {
      TimesMeans(events[..|events| - 1], e);
      assert events == events[..|events| - 1] + [events[|events| - 1]];
    }
  }

  lemma {:induction false} StoredMeans(attempts: seq<Attempt>, e: Event)
    ensures Stored(attempts, e) > 0 <==> Whole(e) in attempts
  {
    if attempts != [] {
      var before, last := attempts[..|attempts| - 1], attempts[|attempts| - 1];
      StoredMeans(before, e);
      StoredSnoc(before, last, e);
      assert attempts == before + [last];
    }
  }

  /**
   * An event that a subscriber has received or has waiting was stored, and it is missing from the
   * job's history exactly when every append that stored it found the log ending in a torn line. An
   * event that dangles, torn right before its newline, is there until the next append.
   */
  lemma MissingIffTorn(codec: Codec, actions: seq<Action>, id: nat, e: Event)
    requires codec.Faithful() && codec.Strict() && Exec(codec, actions).Some?
    requires id in Exec(codec, actions).value.subs && e in Got(Exec(codec, actions).value.subs[id].inbox)
    ensures var log := LogOf(Exec(codec, actions).value.attempts, e.jobId);
      && AllPossible(codec, log) && Whole(e) in log
      && (e !in Seen(codec, log) <==>
            e !in Dangling(codec, log)
            && forall k :: 0 <= k < |log| && log[k] == Whole(e) ==> Tail(codec, log[..k]) != [])
  {
    hide Exec, Tail, Readable, Dangling, Possible;
    RunKeepsInv(codec, actions, e);
    var s := Exec(codec, actions).value;
    var log := LogOf(s.attempts, e.jobId);
    assert Backed(s, s.subs[id], e);
    TimesMeans(Got(s.subs[id].inbox), e);
    LogOfIsPossible(codec, s.attempts, e.jobId);
    StoredInLog(s.attempts, e);
    StoredMeans(log, e);
    HistoryOfAnyLog(codec, log);
    ReadableMeans(codec, log, e);
    assert e in Readable(codec, log) ==> exists k: nat :: StoredClean(codec, log, e, k);
    if k :| 0 <= k < |log| && log[k] == Whole(e) && Tail(codec, log[..k]) == [] {
      assert StoredClean(codec, log, e, k);
    }
  }

  lemma {:induction false} TimesAppend(some: seq<Event>, more: seq<Event>, e: Event)
    ensures Times(some, e) <= Times(some + more, e)
  {
    if more == [] {
      assert some + more == some;
    } else {
      TimesAppend(some, more[..|more| - 1], e);
      assert some + more == some + more[..|more| - 1] + [more[|more| - 1]];
      TimesSnoc(some + more[..|more| - 1], more[|more| - 1], e);
    }
  }

  // ---- What does not hold -----------------------------------------------------------------------

  lemma AndThen(codec: Codec, actions: seq<Action>, s: Sys, a: Action, t: Sys)
    requires Exec(codec, actions) == Some(s) && Enabled(codec, s, a) && Next(codec, s, a) == t
    ensures Exec(codec, actions + [a]) == Some(t)
  {
    assert (actions + [a])[..|actions|] == actions;
  }

  /** One open subscription with these events waiting, none of them dropped. */
  function Listening(jobId: string, waiting: seq<Event>): map<nat, Sub> {
    map[0 := Sub(jobId, 16, true, Inbox([], waiting, AllAccepted(waiting)))]
  }

  function AllAccepted(events: seq<Event>): seq<Fate> {
    if events == [] then [] else AllAccepted(events[..|events| - 1]) + [Fate(events[|events| - 1], true)]
  }

  lemma Listens(codec: Codec, jobId: string)
    ensures Exec(codec, [Subscribe(0, jobId, 16)]) == Some(Sys([], multiset{}, Listening(jobId, [])))
  {
    assert [Subscribe(0, jobId, 16)][..0] == [];
    assert Listening(jobId, []) == map[0 := Sub(jobId, 16, true, Inbox([], [], []))];
  }

  lemma Fails(codec: Codec, actions: seq<Action>, s: Sys, e: Event, kept: nat)
    requires Exec(codec, actions) == Some(s) && e.createdAt != 0 && Possible(codec, Torn(e, kept))
    ensures Exec(codec, actions + [AppendFails(e, 1, Some(kept))]) == Some(s.(attempts := s.attempts + [Torn(e, kept)]))
  {
    AndThen(codec, actions, s, AppendFails(e, 1, Some(kept)), s.(attempts := s.attempts + [Torn(e, kept)]));
  }

  lemma Stores(codec: Codec, actions: seq<Action>, s: Sys, e: Event)
    requires Exec(codec, actions) == Some(s) && e.createdAt != 0 && codec.Encodes(e)
    ensures Exec(codec, actions + [Append(e, 1)])
         == Some(Sys(s.attempts + [Whole(e)], s.fanning + multiset{e}, s.subs))
  {
    AndThen(codec, actions, s, Append(e, 1), Sys(s.attempts + [Whole(e)], s.fanning + multiset{e}, s.subs));
  }

  lemma FansOut(codec: Codec, actions: seq<Action>, s: Sys, e: Event, waiting: seq<Event>)
    requires Exec(codec, actions) == Some(s) && e in s.fanning && e.createdAt != 0
    requires s.subs == Listening(e.jobId, waiting) && |waiting| < 16
    ensures Exec(codec, actions + [FanOut(e, 1)])
         == Some(Sys(s.attempts, s.fanning - multiset{e}, Listening(e.jobId, waiting + [e])))
  {
    assert (waiting + [e])[..|waiting|] == waiting;
    assert Hears(s.subs[0], e) == Listening(e.jobId, waiting + [e])[0];
    AndThen(codec, actions, s, FanOut(e, 1),
            Sys(s.attempts, s.fanning - multiset{e}, Listening(e.jobId, waiting + [e])));
  }

  /**
   * An append fails part way, its error is returned, and the service goes on: the next event of the
   * job is stored, fanned out and waiting at the subscriber, and missing from the history.
   */
  lemma TornAppendHidesALiveEvent(codec: Codec, a: Event, kept: nat, b: Event)
    requires codec.Faithful() && codec.Strict() && codec.Encodes(a) && codec.Encodes(b)
    requires a.jobId == b.jobId && a.createdAt != 0 && b.createdAt != 0 && 0 < kept <= |codec.Line(a)|
    ensures Exec(codec, [Subscribe(0, a.jobId, 16)] + [AppendFails(a, 1, Some(kept))] + [Append(b, 1)] + [FanOut(b, 1)])
         == Some(Sys([Torn(a, kept)] + [Whole(b)], multiset{}, Listening(a.jobId, [b])))
    ensures Seen(codec, [Torn(a, kept)] + [Whole(b)]) == []
  {
    Listens(codec, a.jobId);
    var actions, s := [Subscribe(0, a.jobId, 16)], Sys([], multiset{}, Listening(a.jobId, []));
    Fails(codec, actions, s, a, kept);
    actions, s := actions + [AppendFails(a, 1, Some(kept))], s.(attempts := [] + [Torn(a, kept)]);
    Stores(codec, actions, s, b);
    var none: multiset<Event> := multiset{};
    assert none + multiset{b} - multiset{b} == none && [] + [b] == [b] && [] + [Torn(a, kept)] == [Torn(a, kept)];
    FansOut(codec, actions + [Append(b, 1)], Sys(s.attempts + [Whole(b)], multiset{} + multiset{b}, s.subs), b, []);
    OneTornLine(codec, a, kept, b);
  }

  lemma BothStored(codec: Codec, a: Event, b: Event)
    requires codec.Encodes(a) && codec.Encodes(b) && a.createdAt != 0 && b.createdAt != 0
    ensures Exec(codec, [Subscribe(0, a.jobId, 16)] + [Append(a, 1)] + [Append(b, 1)])
         == Some(Sys([Whole(a), Whole(b)], multiset{a, b}, Listening(a.jobId, [])))
  {
    Listens(codec, a.jobId);
    var actions, s := [Subscribe(0, a.jobId, 16)], Sys([], multiset{}, Listening(a.jobId, []));
    var none: multiset<Event> := multiset{};
    assert none + multiset{a} == multiset{a} && multiset{a} + multiset{b} == multiset{a, b};
    assert [] + [Whole(a)] == [Whole(a)] && [Whole(a)] + [Whole(b)] == [Whole(a), Whole(b)];
    Stores(codec, actions, s, a);
    Stores(codec, actions + [Append(a, 1)], Sys([Whole(a)], multiset{a}, s.subs), b);
  }

  /** Two publishers of one job: stored in one order, heard in the other. */
  lemma OrderMayDiffer(codec: Codec, a: Event, b: Event)
    requires codec.Encodes(a) && codec.Encodes(b)
    requires a.jobId == b.jobId && a.createdAt != 0 && b.createdAt != 0
    ensures Exec(codec, [Subscribe(0, a.jobId, 16)] + [Append(a, 1)] + [Append(b, 1)] + [FanOut(b, 1)] + [FanOut(a, 1)])
         == Some(Sys([Whole(a), Whole(b)], multiset{}, Listening(a.jobId, [b, a])))
  {
    BothStored(codec, a, b);
    var actions := [Subscribe(0, a.jobId, 16)] + [Append(a, 1)] + [Append(b, 1)];
    assert multiset{a, b} - multiset{b} == multiset{a} && multiset{a} - multiset{a} == multiset{};
    assert [] + [b] == [b] && [b] + [a] == [b, a];
    FansOut(codec, actions, Sys([Whole(a), Whole(b)], multiset{a, b}, Listening(a.jobId, [])), b, []);
    FansOut(codec, actions + [FanOut(b, 1)], Sys([Whole(a), Whole(b)], multiset{a}, Listening(a.jobId, [b])), a, [b]);
  }
}
