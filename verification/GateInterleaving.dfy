/**
 * The verification goroutines of one job, interleaved step by step. Each calls the verifier, then
 * assigns its candidate's report, then its error; a panic is caught and assigns the error alone.
 */
module GateInterleaving {
  import opened Wrappers
  import opened Verification

  /** What the verifier makes of one worktree. */
  datatype Judgement = Judged(report: Report, err: bool) | Panics

  datatype Progress = Waiting | Called | ReportAssigned | Finished

  /** A candidate and how far its goroutine has got; `dead` ones have no goroutine. */
  datatype Attempt = Attempt(dead: bool, report: Report, failed: bool, progress: Progress)

  function Advance(a: Attempt, j: Judgement): Attempt {
    if a.dead then a
    else match a.progress
      case Waiting =>
        if j.Panics? then a.(failed := true, progress := Finished) else a.(progress := Called)
      case Called => if j.Judged? then a.(report := j.report, progress := ReportAssigned) else a
      case ReportAssigned => if j.Judged? then a.(failed := j.err, progress := Finished) else a
      case Finished => a
  }

  /** Goroutine `k` takes one step. */
  function Step(s: seq<Attempt>, verify: nat -> Judgement, k: nat): seq<Attempt> {
    if k < |s| then s[k := Advance(s[k], verify(k))] else s
  }

  function Run(s: seq<Attempt>, verify: nat -> Judgement, schedule: seq<nat>): seq<Attempt>
    decreases |schedule|
  {
    if schedule == [] then s else Run(Step(s, verify, schedule[0]), verify, schedule[1..])
  }

  /** The wait group is released when no goroutine is left. */
  predicate AllDone(s: seq<Attempt>) {
    forall k :: 0 <= k < |s| ==> s[k].dead || s[k].progress.Finished?
  }

  predicate Fresh(s: seq<Attempt>) {
    forall k :: 0 <= k < |s| ==> s[k].progress.Waiting?
  }

  // ---- The outcome, attempt by attempt -------------------------------------------

  /** What one attempt ends up with, whatever the others do. */
  function Outcome(a: Attempt, j: Judgement): Attempt {
    if a.dead then a
    else if j.Panics? then a.(failed := true, progress := Finished)
    else a.(report := j.report, failed := j.err, progress := Finished)
  }

  /** `now` is some stage of the way from `start` to its outcome. */
  predicate OnTheWay(start: Attempt, now: Attempt, j: Judgement) {
    if start.dead then now == start
    else match now.progress
      case Waiting => now == start
      case Called => j.Judged? && now == start.(progress := Called)
      case ReportAssigned => j.Judged? && now == start.(report := j.report, progress := ReportAssigned)
      case Finished => now == Outcome(start, j)
  }

  predicate AllOnTheWay(start: seq<Attempt>, now: seq<Attempt>, verify: nat -> Judgement) {
    |now| == |start| && forall k :: 0 <= k < |start| ==> OnTheWay(start[k], now[k], verify(k))
  }

  lemma {:induction false} RunStaysOnTheWay(start: seq<Attempt>, now: seq<Attempt>, verify: nat -> Judgement,
                                            schedule: seq<nat>)
    requires AllOnTheWay(start, now, verify)
    ensures AllOnTheWay(start, Run(now, verify, schedule), verify)
    decreases |schedule|
  {
    if schedule != [] {
      RunStaysOnTheWay(start, Step(now, verify, schedule[0]), verify, schedule[1..]);
    }
  }

  /** Every completion order gives each attempt its own outcome. */
  lemma EveryOrderAgrees(start: seq<Attempt>, verify: nat -> Judgement, schedule: seq<nat>)
    requires Fresh(start) && AllDone(Run(start, verify, schedule))
    ensures |Run(start, verify, schedule)| == |start|
    ensures forall k :: 0 <= k < |start| ==> Run(start, verify, schedule)[k] == Outcome(start[k], verify(k))
  {
    RunStaysOnTheWay(start, start, verify, schedule);
  }

  function Outcomes(start: seq<Attempt>, verify: nat -> Judgement): seq<Attempt> {
    seq(|start|, k requires 0 <= k < |start| => Outcome(start[k], verify(k)))
  }

  /** ... so the reports, the errors and with them the winner do not depend on the schedule. */
  lemma SchedulesAreEquivalent(start: seq<Attempt>, verify: nat -> Judgement, one: seq<nat>, other: seq<nat>)
    requires Fresh(start)
    requires AllDone(Run(start, verify, one)) && AllDone(Run(start, verify, other))
    ensures Run(start, verify, one) == Run(start, verify, other) == Outcomes(start, verify)
  {
    EveryOrderAgrees(start, verify, one);
    EveryOrderAgrees(start, verify, other);
  }

  /** What happens to attempt `j`, a panic included, is invisible to the others. */
  lemma TroubleStaysLocal(start: seq<Attempt>, verify: nat -> Judgement, troubled: nat -> Judgement, j: nat,
                          one: seq<nat>, other: seq<nat>)
    requires Fresh(start) && forall k: nat :: k != j ==> verify(k) == troubled(k)
    requires AllDone(Run(start, verify, one)) && AllDone(Run(start, troubled, other))
    ensures |Run(start, verify, one)| == |Run(start, troubled, other)| == |start|
    ensures forall k :: 0 <= k < |start| && k != j ==>
      Run(start, verify, one)[k] == Run(start, troubled, other)[k]
  {
    EveryOrderAgrees(start, verify, one);
    EveryOrderAgrees(start, troubled, other);
  }

  // ---- When the wait is over ---------------------------------------------------------

  function Turns(schedule: seq<nat>, k: nat): nat {
    if schedule == [] then 0 else (if schedule[0] == k then 1 else 0) + Turns(schedule[1..], k)
  }

  function Advanced(a: Attempt, j: Judgement, turns: nat): Attempt
    decreases turns
  {
    if turns == 0 then a else Advanced(Advance(a, j), j, turns - 1)
  }

  /** An attempt is where its own turns have brought it. */
  lemma {:induction false} OwnTurnsDecide(s: seq<Attempt>, verify: nat -> Judgement, schedule: seq<nat>, k: nat)
    requires k < |s|
    ensures |Run(s, verify, schedule)| == |s|
    ensures Run(s, verify, schedule)[k] == Advanced(s[k], verify(k), Turns(schedule, k))
    decreases |schedule|
  {
    hide Advance;
    if schedule != [] {
      OwnTurnsDecide(Step(s, verify, schedule[0]), verify, schedule[1..], k);
    }
  }

  /** A verifier that returns takes three steps: the call, the report, the error; one that panics takes one. */
  function Needed(j: Judgement): nat {
    if j.Panics? then 1 else 3
  }

  lemma {:induction false} FinishedStays(a: Attempt, j: Judgement, turns: nat)
    requires a.dead || a.progress.Finished?
    ensures Advanced(a, j, turns) == a
    decreases turns
  {
    if turns > 0 {
      FinishedStays(a, j, turns - 1);
    }
  }

  lemma DoneAfterTurns(a: Attempt, j: Judgement, turns: nat)
    requires a.progress.Waiting? && !a.dead
    ensures Advanced(a, j, turns).progress.Finished? <==> turns >= Needed(j)
    ensures !Advanced(a, j, turns).dead
  {
    var one := Advance(a, j);
    if j.Panics? {
      if turns > 0 {
        FinishedStays(one, j, turns - 1);
      }
    } else {
      var two := Advance(one, j);
      var three := Advance(two, j);
      assert turns >= 1 ==> Advanced(a, j, turns) == Advanced(one, j, turns - 1);
      assert turns >= 2 ==> Advanced(one, j, turns - 1) == Advanced(two, j, turns - 2);
      if turns >= 3 {
        assert Advanced(two, j, turns - 2) == Advanced(three, j, turns - 3);
        FinishedStays(three, j, turns - 3);
      }
    }
  }

  /** No goroutine waits for another: all are done exactly when each live one has had its turns, in any order. */
  lemma DoneWhenAllHadTheirTurns(start: seq<Attempt>, verify: nat -> Judgement, schedule: seq<nat>)
    requires Fresh(start)
    ensures AllDone(Run(start, verify, schedule))
       <==> forall k :: 0 <= k < |start| && !start[k].dead ==> Turns(schedule, k) >= Needed(verify(k))
  {
    hide Run, Advanced, Needed;
    RunKeepsLength(start, verify, schedule);
    forall k | 0 <= k < |start|
      ensures var a := Run(start, verify, schedule)[k];
        a.dead || a.progress.Finished? <==> start[k].dead || Turns(schedule, k) >= Needed(verify(k))
    {
      OwnTurnsDecide(start, verify, schedule, k);
      if start[k].dead {
        FinishedStays(start[k], verify(k), Turns(schedule, k));
      } else {
        DoneAfterTurns(start[k], verify(k), Turns(schedule, k));
      }
    }
  }

  lemma {:induction false} RunKeepsLength(s: seq<Attempt>, verify: nat -> Judgement, schedule: seq<nat>)
    ensures |Run(s, verify, schedule)| == |s|
    decreases |schedule|
  {
    if schedule != [] {
      RunKeepsLength(Step(s, verify, schedule[0]), verify, schedule[1..]);
    }
  }

  // ---- The winner ------------------------------------------------------------------

  predicate Passed(a: Attempt) {
    !a.dead && !a.failed && AllPassed(a.report)
  }

  function Winner(s: seq<Attempt>): (winner: Option<nat>)
    ensures winner.None? <==> forall k :: 0 <= k < |s| ==> !Passed(s[k])
    ensures winner.Some? ==> winner.value < |s| && Passed(s[winner.value])
                             && forall k :: 0 <= k < winner.value ==> !Passed(s[k])
  {
    if s == [] then None
    else if Passed(s[0]) then Some(0)
    else match Winner(s[1..])
      case None => None
      case Some(k) => Some(k + 1)
  }

  /** An attempt wins exactly when it is the first that is alive and was judged clean this time. */
  lemma WinnerWasJudgedClean(start: seq<Attempt>, verify: nat -> Judgement, schedule: seq<nat>, k: nat)
    requires Fresh(start) && AllDone(Run(start, verify, schedule)) && k < |start|
    ensures Winner(Run(start, verify, schedule)) == Some(k)
       <==> && JudgedClean(start[k], verify(k))
            && forall i :: 0 <= i < k ==> !JudgedClean(start[i], verify(i))
  {
    EveryOrderAgrees(start, verify, schedule);
    var end := Run(start, verify, schedule);
    assert forall i :: 0 <= i < |start| ==> (Passed(end[i]) <==> JudgedClean(start[i], verify(i)));
  }

  predicate JudgedClean(a: Attempt, j: Judgement) {
    !a.dead && j.Judged? && !j.err && AllPassed(j.report)
  }
}
