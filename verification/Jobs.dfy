/** A job's status, the transition table, and the work list that drives it. */
module Jobs {
  datatype Status =
    | Queued | Planning | PreparingWorkspace | Implementing | Verifying
    | Reviewing | WaitingForRevision | Completed | Failed | Cancelled

  function LegalTransitions(from: Status): set<Status> {
    match from
    case Queued => {Planning, Cancelled, Failed}
    case Planning => {PreparingWorkspace, Failed, Cancelled}
    case PreparingWorkspace => {Implementing, Failed, Cancelled}
    case Implementing => {Verifying, Failed, Cancelled}
    case Verifying => {Reviewing, Failed, Cancelled}
    case Reviewing => {Completed, WaitingForRevision, Failed, Cancelled}
    case WaitingForRevision => {Implementing, Failed, Cancelled}
    case Completed => {}
    case Failed => {}
    case Cancelled => {}
  }

  predicate CanTransition(from: Status, to: Status) {
    to in LegalTransitions(from)
  }

  predicate Terminal(s: Status) {
    s == Completed || s == Failed || s == Cancelled
  }

  class Job {
    const id: string
    var status: Status

    constructor (id: string, status: Status)
      ensures this.id == id && this.status == status
    {
      this.id, this.status := id, status;
    }

    method Transition(next: Status) returns (ok: bool)
      modifies this
      ensures ok <==> CanTransition(old(status), next)
      ensures status == if ok then next else old(status)
    {
      ok := CanTransition(status, next);
      if ok {
        status := next;
      }
    }
  }

  // ---- Paths through the table -------------------------------------------

  /** Where a job that started in `from` stands after the writes in `path`. */
  function Last(from: Status, path: seq<Status>): Status {
    if path == [] then from else path[|path| - 1]
  }

  /** Every step of `path` is legal from the status before it. */
  predicate LegalPath(from: Status, path: seq<Status>) {
    path == [] ||
    (var before := path[..|path| - 1];
     LegalPath(from, before) && CanTransition(Last(from, before), path[|path| - 1]))
  }

  lemma LegalPathExtends(from: Status, path: seq<Status>, next: Status)
    requires LegalPath(from, path) && CanTransition(Last(from, path), next)
    ensures LegalPath(from, path + [next])
  {
    assert (path + [next])[..|path|] == path;
  }

  /** A terminal status is exactly one with no way out, and every other status may fail or be cancelled. */
  lemma TerminalIsFinal(s: Status)
    ensures Terminal(s) <==> forall next :: !CanTransition(s, next)
    ensures Terminal(s) <==> !CanTransition(s, Failed)
    ensures Terminal(s) <==> !CanTransition(s, Cancelled)
  {
    assert CanTransition(s, Failed) || Terminal(s);
  }

  /** Nothing follows a terminal status on a legal path. */
  lemma {:induction false} TerminalEndsPath(from: Status, path: seq<Status>, k: nat)
    requires LegalPath(from, path) && k < |path| && Terminal(path[k])
    ensures k == |path| - 1
  {
    var before := path[..|path| - 1];
    if k < |path| - 1 {
      TerminalEndsPath(from, before, k);
      TerminalIsFinal(path[k]);
    }
  }

  // ---- The work list ------------------------------------------------------

  const MAX_REVISIONS: nat := 1

  const FIRST_PASS: seq<Status> := [Planning, PreparingWorkspace, Implementing, Verifying, Reviewing]
  const REVISION_PASS: seq<Status> := [WaitingForRevision, Implementing, Verifying, Reviewing]

  /** The steps slice after `revisions` passes have been appended to it. */
  function WorkList(revisions: nat): seq<Status> {
    if revisions == 0 then FIRST_PASS else WorkList(revisions - 1) + REVISION_PASS
  }

  /** The step at position `k`, however far the list has grown. */
  function StepAt(k: nat): Status {
    if k == 0 then Planning
    else if k == 1 then PreparingWorkspace
    else if k % 4 == 2 then Implementing
    else if k % 4 == 3 then Verifying
    else if k % 4 == 0 then Reviewing
    else WaitingForRevision
  }

  lemma StepFollowsStep(k: nat)
    ensures !Terminal(StepAt(k))
    ensures CanTransition(if k == 0 then Queued else StepAt(k - 1), StepAt(k))
  {
  }

  /** Appending a pass never rewrites the steps already there. */
  lemma {:induction false} WorkListSteps(revisions: nat, k: nat)
    requires k < 5 + 4 * revisions
    ensures |WorkList(revisions)| == 5 + 4 * revisions
    ensures WorkList(revisions)[k] == StepAt(k)
  {
    if revisions > 0 {
      WorkListSteps(revisions - 1, if k < 1 + 4 * revisions then k else 0);
    }
  }

  /** The first `done` steps. */
  function Taken(done: nat): seq<Status> {
    if done == 0 then [] else Taken(done - 1) + [StepAt(done - 1)]
  }

  /** Where a job loaded as `loaded` stands after them. */
  function Reached(loaded: Status, done: nat): Status {
    if done == 0 then loaded else StepAt(done - 1)
  }

  lemma {:induction false} TakenSteps(done: nat)
    ensures |Taken(done)| == done && forall k :: 0 <= k < done ==> Taken(done)[k] == StepAt(k)
    ensures Last(Queued, Taken(done)) == Reached(Queued, done)
  {
    if done > 0 {
      TakenSteps(done - 1);
    }
  }

  lemma {:induction false} TakenIsLegal(done: nat)
    ensures LegalPath(Queued, Taken(done)) && Last(Queued, Taken(done)) == Reached(Queued, done)
  {
    TakenSteps(done);
    if done > 0 {
      TakenIsLegal(done - 1);
      StepFollowsStep(done - 1);
      LegalPathExtends(Queued, Taken(done - 1), StepAt(done - 1));
    }
  }

  /** However often it grows, the list is a legal path from queued that ends in reviewing. */
  lemma WorkListIsLegal(revisions: nat)
    ensures WorkList(revisions) == Taken(5 + 4 * revisions)
    ensures LegalPath(Queued, WorkList(revisions)) && Last(Queued, WorkList(revisions)) == Reviewing
  {
    var n := 5 + 4 * revisions;
    TakenIsLegal(n);
    TakenSteps(n);
    WorkListSteps(revisions, 0);
    forall k | 0 <= k < n ensures WorkList(revisions)[k] == Taken(n)[k] {
      WorkListSteps(revisions, k);
    }
  }

  /** Where a job stands before step `k`. */
  function StandsBefore(k: nat): Status {
    if k == 0 then Queued else StepAt(k - 1)
  }

  /** `to` is the step that follows `from` somewhere on the list. */
  ghost predicate NextOnTheList(from: Status, to: Status) {
    exists k: nat :: StandsBefore(k) == from && StepAt(k) == to
  }

  lemma ListIsInTheTable(from: Status, to: Status)
    requires NextOnTheList(from, to)
    ensures CanTransition(from, to)
  {
    var k: nat :| StandsBefore(k) == from && StepAt(k) == to;
    StepFollowsStep(k);
  }

  lemma TableIsOnTheList(from: Status, to: Status)
    requires CanTransition(from, to) && !Terminal(to)
    ensures NextOnTheList(from, to)
  {
    var k :=
      match from
      case Queued => 0
      case Planning => 1
      case PreparingWorkspace => 2
      case Implementing => 3
      case Verifying => 4
      case Reviewing => 5
      case _ => 6;
    assert StandsBefore(k) == from && StepAt(k) == to;
  }

  /**
   * The table allows the steps of the work list, completing a job in review, and ending any job
   * early, and nothing else.
   */
  lemma TableIsTheWorkList(from: Status, to: Status)
    ensures CanTransition(from, to)
       <==> || NextOnTheList(from, to)
            || (from == Reviewing && to == Completed)
            || (!Terminal(from) && (to == Failed || to == Cancelled))
  {
    hide NextOnTheList;
    if NextOnTheList(from, to) {
      ListIsInTheTable(from, to);
    } else if CanTransition(from, to) && !Terminal(to) {
      TableIsOnTheList(from, to);
    }
  }
}
