/**
 * The life of every job in the service: intake, queue, worker pool, store, crash and recovery,
 * as atomic steps interleaved in any order. Store writes succeed; a crash forgets everything but
 * the store. Nothing in the store stops two holders of one job from overwriting each other, so
 * that no job ever has two holders is a property of the protocol.
 */
module Lifecycle {
  import opened Wrappers
  import opened Jobs

  type Id = string
  type WorkerId = nat

  /** What a busy worker has in hand: an id off the queue, then its own copy of the job. */
  datatype Hold = Fetched(id: Id) | Running(id: Id, status: Status)

  datatype Mode = Down | Recovering | Serving

  datatype Sys = Sys(
    store: map<Id, Status>,
    queue: seq<Id>,
    creating: set<Id>,               // stored, not yet offered to the queue
    rejected: set<Id>,               // refused by the queue, not yet marked failed
    workers: map<WorkerId, Hold>,    // the busy ones
    todo: seq<(Id, Status)>,         // what Recover's listing still has to look at
    stranded: set<Id>,               // queued jobs Recover found no room for
    mode: Mode)

  datatype Action =
    | Create(id: Id) | Enqueue(id: Id) | Compensate(id: Id)
    | Dequeue(w: WorkerId) | Load(w: WorkerId) | Write(w: WorkerId, next: Status) | Finish(w: WorkerId)
    | Crash | Restart(listing: seq<Id>) | RecoverOne | Serve

  predicate Interrupted(s: Status) {
    || s == Planning || s == PreparingWorkspace || s == Implementing || s == Verifying
    || s == Reviewing || s == WaitingForRevision
  }

  ghost predicate Lists(listing: seq<Id>, store: map<Id, Status>) {
    && (forall i, j :: 0 <= i < j < |listing| ==> listing[i] != listing[j])
    && (forall id :: id in listing <==> id in store)
  }

  ghost predicate Initial(s: Sys) {
    s == Sys(map[], [], {}, {}, map[], [], {}, Down)
  }

  ghost predicate Enabled(capacity: nat, s: Sys, a: Action) {
    match a
    case Create(id) => s.mode.Serving? && id !in s.store
    case Enqueue(id) => id in s.creating
    case Compensate(id) => id in s.rejected
    case Dequeue(w) => !s.mode.Down? && w !in s.workers && s.queue != []
    case Load(w) => w in s.workers && s.workers[w].Fetched? && s.workers[w].id in s.store
    case Write(w, next) => w in s.workers && s.workers[w].Running? && CanTransition(s.workers[w].status, next)
    case Finish(w) => w in s.workers && s.workers[w].Running? && Terminal(s.workers[w].status)
    case Crash => !s.mode.Down?
    case Restart(listing) => s.mode.Down? && Lists(listing, s.store)
    case RecoverOne => s.mode.Recovering? && s.todo != []
    case Serve => s.mode.Recovering? && s.todo == []
  }

  ghost function Next(capacity: nat, s: Sys, a: Action): Sys
    requires Enabled(capacity, s, a)
  {
    match a
    case Create(id) => s.(store := s.store[id := Queued], creating := s.creating + {id})
    case Enqueue(id) =>
      if |s.queue| < capacity
      then s.(creating := s.creating - {id}, queue := s.queue + [id])
      else s.(creating := s.creating - {id}, rejected := s.rejected + {id})
    case Compensate(id) => s.(rejected := s.rejected - {id}, store := s.store[id := Failed])
    case Dequeue(w) => s.(queue := s.queue[1..], workers := s.workers[w := Fetched(s.queue[0])])
    case Load(w) =>
      var id := s.workers[w].id;
      s.(workers := s.workers[w := Running(id, s.store[id])])
    case Write(w, next) =>
      var id := s.workers[w].id;
      s.(workers := s.workers[w := Running(id, next)], store := s.store[id := next])
    case Finish(w) => s.(workers := s.workers - {w})
    case Crash => Sys(s.store, [], {}, {}, map[], [], {}, Down)
    case Restart(listing) =>
      s.(todo := seq(|listing|, k requires 0 <= k < |listing| && Lists(listing, s.store) =>
                       assert listing[k] in listing; (listing[k], s.store[listing[k]])),
         mode := Recovering)
    case RecoverOne =>
      var (id, status) := s.todo[0];
      var rest := s.(todo := s.todo[1..]);
      if status == Queued then
        if |s.queue| < capacity then rest.(queue := s.queue + [id]) else rest.(stranded := s.stranded + {id})
      else if Interrupted(status) then rest.(store := s.store[id := Failed])
      else rest
    case Serve => s.(mode := Serving)
  }

  // ---- Where a job can be ------------------------------------------------------------

  datatype Place = InQueue(i: nat) | AtWorker(w: WorkerId) | AtIntake | Rejected | Stranded | AwaitingRecovery(i: nat)

  predicate At(s: Sys, id: Id, p: Place) {
    match p
    case InQueue(i) => i < |s.queue| && s.queue[i] == id
    case AtWorker(w) => w in s.workers && s.workers[w].id == id
    case AtIntake => id in s.creating
    case Rejected => id in s.rejected
    case Stranded => id in s.stranded
    case AwaitingRecovery(i) => i < |s.todo| && s.todo[i].0 == id
  }

  /** What the store must hold for a job at that place. */
  predicate Agrees(s: Sys, p: Place, stored: Status) {
    match p
    case AtWorker(w) =>
      w in s.workers && (s.workers[w].Fetched? ==> stored == Queued)
      && (s.workers[w].Running? ==> stored == s.workers[w].status)
    case AwaitingRecovery(i) => i < |s.todo| && stored == s.todo[i].1
    case _ => stored == Queued
  }

  /** No job is in two places. */
  ghost predicate Exclusive(s: Sys) {
    forall id, p, q :: At(s, id, p) && At(s, id, q) ==> p == q
  }

  ghost predicate Consistent(s: Sys) {
    forall id, p :: At(s, id, p) ==> id in s.store && Agrees(s, p, s.store[id])
  }

  /** While the process is up, every job that has not ended is somewhere. */
  ghost predicate Accounted(s: Sys) {
    s.mode.Down? || forall id :: id in s.store && !Terminal(s.store[id]) ==> exists p :: At(s, id, p)
  }

  ghost predicate Quiet(s: Sys) {
    && (s.mode.Down? ==> s.queue == [] && s.creating == s.rejected == s.stranded == {} && s.workers == map[])
    && (!s.mode.Recovering? ==> s.todo == [])
    && (!s.mode.Serving? ==> s.creating == s.rejected == {})
  }

  ghost predicate Inv(s: Sys) {
    Exclusive(s) && Consistent(s) && Accounted(s) && Quiet(s)
  }

  // ---- Every step keeps it -----------------------------------------------------------

  /** Where the job that is at `p` after the step was before it. */
  ghost function Before(capacity: nat, s: Sys, a: Action, id: Id, p: Place): Place
    requires Enabled(capacity, s, a)
  {
    match a
    case Enqueue(offered) =>
      if id == offered && (if |s.queue| < capacity then p == InQueue(|s.queue|) else p == Rejected)
      then AtIntake else p
    case Dequeue(w) =>
      if p == AtWorker(w) then InQueue(0) else if p.InQueue? then InQueue(p.i + 1) else p
    case RecoverOne =>
      var (listed, status) := s.todo[0];
      if p.AwaitingRecovery? then AwaitingRecovery(p.i + 1)
      else if id == listed && status == Queued
              && (if |s.queue| < capacity then p == InQueue(|s.queue|) else p == Stranded)
      then AwaitingRecovery(0) else p
    case _ => p
  }

  lemma RecoveryTookFrom(capacity: nat, s: Sys, id: Id, p: Place)
    requires Enabled(capacity, s, RecoverOne) && At(Next(capacity, s, RecoverOne), id, p)
    ensures At(s, id, Before(capacity, s, RecoverOne, id, p))
  {
    hide CanTransition, Terminal, Lists;
  }

  /** A job found somewhere after a step was somewhere before it, unless the step brought it in. */
  lemma WasSomewhere(capacity: nat, s: Sys, a: Action, id: Id, p: Place)
    requires Inv(s) && Enabled(capacity, s, a) && At(Next(capacity, s, a), id, p)
    requires !a.Restart? && !(a.Create? && id == a.id)
    ensures At(s, id, Before(capacity, s, a, id, p))
  {
    hide Exclusive, Consistent, Accounted, CanTransition, Terminal, Lists;
    match a
    case Enqueue(_) =>
    case Dequeue(_) =>
    case RecoverOne => RecoveryTookFrom(capacity, s, id, p);
    case _ =>
  }

  lemma StepKeepsExclusive(capacity: nat, s: Sys, a: Action)
    requires Inv(s) && Enabled(capacity, s, a)
    ensures Exclusive(Next(capacity, s, a))
  {
    var t := Next(capacity, s, a);
    forall id, p, q | At(t, id, p) && At(t, id, q) ensures p == q {
      if a.Create? && id == a.id {
        NewcomerIsNowhere(s, id);
        assert p != AtIntake ==> At(s, id, p);
        assert q != AtIntake ==> At(s, id, q);
      } else if !a.Restart? {
        WasSomewhere(capacity, s, a, id, p);
        WasSomewhere(capacity, s, a, id, q);
        var was, alsoWas := Before(capacity, s, a, id, p), Before(capacity, s, a, id, q);
        assert At(s, id, was) && At(s, id, alsoWas);
      }
    }
  }

  lemma NewcomerIsNowhere(s: Sys, id: Id)
    requires Consistent(s) && id !in s.store
    ensures forall p :: !At(s, id, p)
  {
  }

  /** The place from which a step that writes a record writes it. */
  predicate Writes(s: Sys, a: Action, id: Id, p: Place) {
    match a
    case Compensate(rejected) => id == rejected && p == Rejected
    case Write(w, _) => w in s.workers && id == s.workers[w].id && p == AtWorker(w)
    case RecoverOne => s.todo != [] && id == s.todo[0].0 && p == AwaitingRecovery(0) && Interrupted(s.todo[0].1)
    case _ => false
  }

  lemma OnlyCreateAddsRecords(capacity: nat, s: Sys, a: Action)
    requires Inv(s) && Enabled(capacity, s, a)
    ensures Next(capacity, s, a).store.Keys == s.store.Keys + if a.Create? then {a.id} else {}
  {
    match a
    case Compensate(id) => assert At(s, id, Rejected);
    case Write(w, _) => assert At(s, s.workers[w].id, AtWorker(w));
    case RecoverOne => assert At(s, s.todo[0].0, AwaitingRecovery(0));
    case _ =>
  }

  /** A record changes only under the hand of the one place that holds the job, and only legally. */
  lemma StoreChangesLegally(capacity: nat, s: Sys, a: Action, id: Id)
    requires Inv(s) && Enabled(capacity, s, a) && id in s.store
    ensures id in Next(capacity, s, a).store
    ensures var before, after := s.store[id], Next(capacity, s, a).store[id];
      after == before || (CanTransition(before, after) && exists p :: Writes(s, a, id, p) && At(s, id, p))
  {
    var after := Next(capacity, s, a).store[id];
    if after != s.store[id] {
      match a
      case Compensate(_) =>
        assert Writes(s, a, id, Rejected) && At(s, id, Rejected);
      case Write(w, _) =>
        assert Writes(s, a, id, AtWorker(w)) && At(s, id, AtWorker(w));
      case RecoverOne =>
        assert Writes(s, a, id, AwaitingRecovery(0)) && At(s, id, AwaitingRecovery(0));
      case _ =>
    }
  }

  lemma StepKeepsConsistent(capacity: nat, s: Sys, a: Action)
    requires Inv(s) && Enabled(capacity, s, a)
    ensures Consistent(Next(capacity, s, a))
  {
    var t := Next(capacity, s, a);
    forall id, p | At(t, id, p) ensures id in t.store && Agrees(t, p, t.store[id]) {
      if a.Create? && id == a.id {
        NewcomerIsNowhere(s, id);
        assert p != AtIntake ==> At(s, id, p);
      } else if !a.Restart? {
        WasSomewhere(capacity, s, a, id, p);
        var was := Before(capacity, s, a, id, p);
        assert Agrees(s, was, s.store[id]);
        StoreChangesLegally(capacity, s, a, id);
        if writer :| Writes(s, a, id, writer) && At(s, id, writer) {
          assert writer == was;
        }
      }
    }
  }

  /** Where the job that was at `p` is after the step, unless the step let go of it for good. */
  ghost function After(capacity: nat, s: Sys, a: Action, id: Id, p: Place): Place
    requires Enabled(capacity, s, a)
  {
    match a
    case Enqueue(offered) =>
      if id == offered && p == AtIntake then if |s.queue| < capacity then InQueue(|s.queue|) else Rejected
      else p
    case Dequeue(w) =>
      if p == InQueue(0) then AtWorker(w) else if p.InQueue? then InQueue(p.i - 1) else p
    case RecoverOne =>
      if p.AwaitingRecovery? && p.i > 0 then AwaitingRecovery(p.i - 1)
      else if p == AwaitingRecovery(0) && |s.queue| < capacity then InQueue(|s.queue|)
      else if p == AwaitingRecovery(0) then Stranded
      else p
    case _ => p
  }

  lemma RecoveryPutsSomewhere(capacity: nat, s: Sys, id: Id, p: Place)
    requires Inv(s) && Enabled(capacity, s, RecoverOne) && At(s, id, p) && id in Next(capacity, s, RecoverOne).store
    requires !Terminal(Next(capacity, s, RecoverOne).store[id])
    ensures At(Next(capacity, s, RecoverOne), id, After(capacity, s, RecoverOne, id, p))
  {
    assert Agrees(s, p, s.store[id]);
    hide Exclusive, Consistent, Accounted, Lists;
  }

  lemma StaysSomewhere(capacity: nat, s: Sys, a: Action, id: Id, p: Place)
    requires Inv(s) && Enabled(capacity, s, a) && At(s, id, p) && id in Next(capacity, s, a).store
    requires !Terminal(Next(capacity, s, a).store[id]) && !a.Crash? && !a.Restart?
    ensures At(Next(capacity, s, a), id, After(capacity, s, a, id, p))
  {
    hide Exclusive, Accounted, Lists;
    if a.RecoverOne? {
      RecoveryPutsSomewhere(capacity, s, id, p);
    } else if a.Finish? {
      assert Agrees(s, p, s.store[id]);
    }
  }

  lemma StepKeepsAccounted(capacity: nat, s: Sys, a: Action)
    requires Inv(s) && Enabled(capacity, s, a)
    ensures Accounted(Next(capacity, s, a))
  {
    var t := Next(capacity, s, a);
    OnlyCreateAddsRecords(capacity, s, a);
    forall id | !t.mode.Down? && id in t.store && !Terminal(t.store[id]) ensures exists p :: At(t, id, p) {
      if a.Create? && id == a.id {
        assert At(t, id, AtIntake);
      } else if a.Restart? {
        var i :| 0 <= i < |a.listing| && a.listing[i] == id;
        assert At(t, id, AwaitingRecovery(i));
      } else {
        StoreChangesLegally(capacity, s, a, id);
        TerminalIsFinal(s.store[id]);
        var p :| At(s, id, p);
        StaysSomewhere(capacity, s, a, id, p);
      }
    }
  }

  lemma StepKeepsInv(capacity: nat, s: Sys, a: Action)
    requires Inv(s) && Enabled(capacity, s, a)
    ensures Inv(Next(capacity, s, a))
  {
    StepKeepsExclusive(capacity, s, a);
    StepKeepsConsistent(capacity, s, a);
    StepKeepsAccounted(capacity, s, a);
  }

  // ---- Whole runs -----------------------------------------------------------------------

  /** The states of a run, one more than its actions. */
  ghost predicate IsRun(capacity: nat, states: seq<Sys>, actions: seq<Action>) {
    && |states| == |actions| + 1 && Initial(states[0])
    && (forall k :: 0 <= k < |actions| ==>
          Enabled(capacity, states[k], actions[k]) && states[k + 1] == Next(capacity, states[k], actions[k]))
  }

  lemma {:induction false} RunKeepsInv(capacity: nat, states: seq<Sys>, actions: seq<Action>, n: nat)
    requires IsRun(capacity, states, actions) && n < |states|
    ensures Inv(states[n])
  {
    if n > 0 {
      RunKeepsInv(capacity, states, actions, n - 1);
      StepKeepsInv(capacity, states[n - 1], actions[n - 1]);
    }
  }

  /**
   * Exclusive ownership, at every point of every run: a job is in at most one place; what is queued
   * is stored as queued; two workers never hold one job; and a job that is neither ended nor queued
   * is in a worker's hands, awaits recovery, or the process is down.
   */
  lemma ExclusiveOwnership(capacity: nat, states: seq<Sys>, actions: seq<Action>, n: nat)
    requires IsRun(capacity, states, actions) && n < |states|
    ensures var s := states[n];
      && (forall i :: 0 <= i < |s.queue| ==> s.queue[i] in s.store && s.store[s.queue[i]] == Queued)
      && (forall i, j :: 0 <= i < j < |s.queue| ==> s.queue[i] != s.queue[j])
      && (forall v, w :: v in s.workers && w in s.workers && v != w ==> s.workers[v].id != s.workers[w].id)
      && (forall w :: w in s.workers ==> s.workers[w].id !in s.queue)
      && (forall w :: w in s.workers && s.workers[w].Running? ==>
            s.workers[w].id in s.store && s.store[s.workers[w].id] == s.workers[w].status)
    ensures var s := states[n];
      forall id :: id in s.store && !s.mode.Down? && !Terminal(s.store[id]) && s.store[id] != Queued ==>
        || (exists w :: w in s.workers && s.workers[w] == Running(id, s.store[id]))
        || (s.mode.Recovering? && exists i :: 0 <= i < |s.todo| && s.todo[i] == (id, s.store[id]))
  {
    RunKeepsInv(capacity, states, actions, n);
    var s := states[n];
    assert forall i :: 0 <= i < |s.queue| ==> At(s, s.queue[i], InQueue(i));
    assert forall w :: w in s.workers ==> At(s, s.workers[w].id, AtWorker(w));
    forall i, j | 0 <= i < j < |s.queue| ensures s.queue[i] != s.queue[j] {
      assert InQueue(i) != InQueue(j);
    }
    forall w, i | w in s.workers && 0 <= i < |s.queue| ensures s.queue[i] != s.workers[w].id {
      assert At(s, s.queue[i], InQueue(i)) && At(s, s.workers[w].id, AtWorker(w));
    }
    forall id | id in s.store && !s.mode.Down? && !Terminal(s.store[id]) && s.store[id] != Queued
      ensures || (exists w :: w in s.workers && s.workers[w] == Running(id, s.store[id]))
              || (s.mode.Recovering? && exists i :: 0 <= i < |s.todo| && s.todo[i] == (id, s.store[id]))
    {
      var p :| At(s, id, p);
      assert Agrees(s, p, s.store[id]);
    }
  }

  /** A job with no holder while the process serves is stored as queued only if recovery had no room for it. */
  lemma NothingQueuedIsLost(capacity: nat, states: seq<Sys>, actions: seq<Action>, n: nat, id: Id)
    requires IsRun(capacity, states, actions) && n < |states| && states[n].mode.Serving?
    requires id in states[n].store && states[n].store[id] == Queued
    ensures var s := states[n];
      || id in s.queue || id in s.creating || id in s.rejected || id in s.stranded
      || exists w :: w in s.workers && s.workers[w].id == id
  {
    RunKeepsInv(capacity, states, actions, n);
    var p :| At(states[n], id, p);
  }

  /** Every run of the processor starts from a job stored as queued. */
  lemma WorkersLoadQueuedJobs(capacity: nat, states: seq<Sys>, actions: seq<Action>, n: nat, w: WorkerId)
    requires IsRun(capacity, states, actions) && n < |actions| && actions[n] == Load(w)
    ensures states[n + 1].workers[w] == Running(states[n].workers[w].id, Queued)
  {
    RunKeepsInv(capacity, states, actions, n);
    assert At(states[n], states[n].workers[w].id, AtWorker(w));
  }

  /** The statuses the store was made to hold for `id`, after its creation, in the first `n` steps. */
  ghost function Trail(states: seq<Sys>, id: Id, n: nat): seq<Status>
    requires n < |states|
  {
    if n == 0 then []
    else
      var before, after := states[n - 1].store, states[n].store;
      Trail(states, id, n - 1) +
      (if id in before && id in after && before[id] != after[id] then [after[id]] else [])
  }

  /** Through any interleaving and any number of crashes, each job's record follows the transition table. */
  lemma {:induction false} RecordsFollowTheTable(capacity: nat, states: seq<Sys>, actions: seq<Action>, id: Id, n: nat)
    requires IsRun(capacity, states, actions) && n < |states|
    ensures LegalPath(Queued, Trail(states, id, n))
    ensures id in states[n].store ==> states[n].store[id] == Last(Queued, Trail(states, id, n))
    ensures id !in states[n].store ==> Trail(states, id, n) == []
  {
    if n > 0 {
      var s, t, a := states[n - 1], states[n], actions[n - 1];
      var trail := Trail(states, id, n - 1);
      RecordsFollowTheTable(capacity, states, actions, id, n - 1);
      RunKeepsInv(capacity, states, actions, n - 1);
      OneChange(capacity, s, a, id);
      if id in s.store && t.store[id] != s.store[id] {
        LegalPathExtends(Queued, trail, t.store[id]);
      } else {
        assert Trail(states, id, n) == trail;
      }
    }
  }

  lemma OneChange(capacity: nat, s: Sys, a: Action, id: Id)
    requires Inv(s) && Enabled(capacity, s, a)
    ensures var after := Next(capacity, s, a).store;
      && (id in s.store ==> id in after && (after[id] == s.store[id] || CanTransition(s.store[id], after[id])))
      && (id !in s.store && id in after ==> after[id] == Queued)
  {
    OnlyCreateAddsRecords(capacity, s, a);
    if id in s.store {
      StoreChangesLegally(capacity, s, a, id);
    }
  }

  /** So a terminal status is never left again. */
  lemma {:induction false} TerminalIsForever(capacity: nat, states: seq<Sys>, actions: seq<Action>, id: Id,
                                             m: nat, n: nat)
    requires IsRun(capacity, states, actions) && m <= n < |states|
    requires id in states[m].store && Terminal(states[m].store[id])
    ensures id in states[n].store && states[n].store[id] == states[m].store[id]
    decreases n
  {
    if m < n {
      TerminalIsForever(capacity, states, actions, id, m, n - 1);
      RunKeepsInv(capacity, states, actions, n - 1);
      StoreChangesLegally(capacity, states[n - 1], actions[n - 1], id);
      TerminalIsFinal(states[n - 1].store[id]);
    }
  }

  // ---- The processor's runs fit the protocol ------------------------------------------------

  /** The state after `actions`, if each of them is enabled in its turn. */
  ghost function Exec(capacity: nat, s: Sys, actions: seq<Action>): Option<Sys> {
    if actions == [] then Some(s)
    else
      match Exec(capacity, s, actions[..|actions| - 1])
      case None => None
      case Some(t) =>
        var a := actions[|actions| - 1];
        if Enabled(capacity, t, a) then Some(Next(capacity, t, a)) else None
  }

  /** What a worker does with a job whose processing writes the statuses in `path`. */
  function Handling(w: WorkerId, path: seq<Status>): seq<Action> {
    if path == [] then [Load(w)] else Handling(w, path[..|path| - 1]) + [Write(w, path[|path| - 1])]
  }

  /** The worker has just written `now`. */
  function InHand(s: Sys, w: WorkerId, id: Id, now: Status): Sys {
    s.(workers := s.workers[w := Running(id, now)], store := s.store[id := now])
  }

  lemma WriteInHand(capacity: nat, s: Sys, w: WorkerId, id: Id, now: Status, next: Status)
    requires CanTransition(now, next)
    ensures var t := InHand(s, w, id, now);
      Enabled(capacity, t, Write(w, next)) && Next(capacity, t, Write(w, next)) == InHand(s, w, id, next)
  {
    assert InHand(s, w, id, now).workers[w := Running(id, next)] == InHand(s, w, id, next).workers;
    assert InHand(s, w, id, now).store[id := next] == InHand(s, w, id, next).store;
  }

  lemma {:induction false} HandlingIsPossible(capacity: nat, s: Sys, w: WorkerId, path: seq<Status>)
    requires Inv(s) && w in s.workers && s.workers[w].Fetched? && LegalPath(Queued, path)
    ensures Exec(capacity, s, Handling(w, path)) == Some(InHand(s, w, s.workers[w].id, Last(Queued, path)))
  {
    var actions, id := Handling(w, path), s.workers[w].id;
    assert At(s, id, AtWorker(w));
    if path == [] {
      assert actions[..0] == [];
      assert s.store[id := Queued] == s.store;
    } else {
      hide Enabled, Next, InHand;
      var n := |path| - 1;
      HandlingIsPossible(capacity, s, w, path[..n]);
      assert actions[..|actions| - 1] == Handling(w, path[..n]);
      WriteInHand(capacity, s, w, id, Last(Queued, path[..n]), path[n]);
    }
  }

  /**
   * A worker can carry any legal path that ends the job through to the end. Then it lets go of the
   * job; the record says how the path ended, and nothing else has changed.
   */
  lemma ProcessingFits(capacity: nat, s: Sys, w: WorkerId, path: seq<Status>)
    requires Inv(s) && w in s.workers && s.workers[w].Fetched?
    requires LegalPath(Queued, path) && Terminal(Last(Queued, path))
    ensures Exec(capacity, s, Handling(w, path) + [Finish(w)])
         == Some(s.(workers := s.workers - {w}, store := s.store[s.workers[w].id := Last(Queued, path)]))
  {
    HandlingIsPossible(capacity, s, w, path);
    var actions := Handling(w, path) + [Finish(w)];
    assert actions[..|actions| - 1] == Handling(w, path);
    assert InHand(s, w, s.workers[w].id, Last(Queued, path)).workers - {w} == s.workers - {w};
  }

  // ---- Nothing wedges ---------------------------------------------------------------------------

  lemma {:induction false} ThenExec(capacity: nat, s: Sys, a: Action, rest: seq<Action>)
    requires Enabled(capacity, s, a)
    ensures Exec(capacity, s, [a] + rest) == Exec(capacity, Next(capacity, s, a), rest)
  {
    hide Enabled, Next;
    var actions := [a] + rest;
    if rest == [] {
      assert actions[..0] == [] && actions == [a];
      assert Exec(capacity, s, actions[..|actions| - 1]) == Some(s);
    } else {
      ThenExec(capacity, s, a, rest[..|rest| - 1]);
      assert actions[..|actions| - 1] == [a] + rest[..|rest| - 1];
    }
  }

  lemma {:induction false} SomeoneIsFree(busy: set<WorkerId>) returns (w: WorkerId)
    ensures forall v :: v in busy ==> v < w
  {
    w := 0;
    if busy != {} {
      var v :| v in busy;
      var bound := SomeoneIsFree(busy - {v});
      w := if bound > v then bound else v + 1;
      assert forall u :: u in busy ==> u == v || u in busy - {v};
    }
  }

  /** The step that takes the job on from where it is; `free` is a worker with nothing in hand. */
  function Onward(s: Sys, id: Id, p: Place, free: WorkerId): Action {
    match p
    case InQueue(_) => Dequeue(free)
    case AtWorker(w) => if w in s.workers && s.workers[w].Running? then Write(w, Failed) else Load(w)
    case AtIntake => Enqueue(id)
    case Rejected => Compensate(id)
    case _ => RecoverOne
  }

  function Stage(s: Sys, p: Place): nat {
    match p
    case AtWorker(w) => if w in s.workers && s.workers[w].Running? then 0 else 1
    case InQueue(_) => 2
    case Rejected => 3
    case AtIntake => 4
    case _ => 5
  }

  function Distance(p: Place): nat {
    match p case InQueue(i) => i case AwaitingRecovery(i) => i case _ => 0
  }

  lemma OnwardIsEnabled(capacity: nat, s: Sys, id: Id, p: Place, free: WorkerId)
    requires Inv(s) && !s.mode.Down? && At(s, id, p) && p != Stranded && free !in s.workers
    requires id in s.store && !Terminal(s.store[id])
    ensures Enabled(capacity, s, Onward(s, id, p, free))
  {
    hide Exclusive, Accounted, Lists;
    assert Agrees(s, p, s.store[id]);
    TerminalIsFinal(s.store[id]);
  }

  lemma OnwardGetsCloser(capacity: nat, s: Sys, id: Id, p: Place, free: WorkerId)
    requires Inv(s) && !s.mode.Down? && At(s, id, p) && p != Stranded && free !in s.workers
    requires id in s.store && !Terminal(s.store[id])
    requires Enabled(capacity, s, Onward(s, id, p, free))
    ensures var a := Onward(s, id, p, free);
      var t, q := Next(capacity, s, a), After(capacity, s, a, id, p);
      && id in t.store && !t.mode.Down?
      && (!Terminal(t.store[id]) ==>
            || q == Stranded || Stage(t, q) < Stage(s, p)
            || (Stage(t, q) == Stage(s, p) && Distance(q) < Distance(p)))
  {
    hide Exclusive, Accounted, Lists;
    assert Agrees(s, p, s.store[id]);
  }

  /**
   * From every state the protocol can be in while the process is up, each unfinished job can be
   * brought to an end without a restart, unless it is one recovery had no room for.
   */
  lemma {:induction false} EveryJobCanFinish(capacity: nat, s: Sys, id: Id, p: Place) returns (actions: seq<Action>)
    requires Inv(s) && !s.mode.Down? && At(s, id, p) && p != Stranded
    ensures var t := Exec(capacity, s, actions);
      t.Some? && id in t.value.store && (Terminal(t.value.store[id]) || id in t.value.stranded)
    decreases Stage(s, p), Distance(p)
  {
    actions := [];
    assert id in s.store;
    if !Terminal(s.store[id]) {
      var free := SomeoneIsFree(s.workers.Keys);
      var a := Onward(s, id, p, free);
      OnwardIsEnabled(capacity, s, id, p, free);
      OnwardGetsCloser(capacity, s, id, p, free);
      var t, q := Next(capacity, s, a), After(capacity, s, a, id, p);
      StepKeepsInv(capacity, s, a);
      if !Terminal(t.store[id]) {
        StaysSomewhere(capacity, s, a, id, p);
        if q != Stranded {
          actions := EveryJobCanFinish(capacity, t, id, q);
        }
      }
      hide Next, Enabled, Inv, At, Stage, After, Onward;
      ThenExec(capacity, s, a, actions);
      actions := [a] + actions;
    }
  }
}
