/** The candidates of one job: independent attempts, each in its own worktree. */
module Fanout {
  import opened Wrappers
  import opened Jobs
  import opened Verification
  import opened Trace

  datatype Error =
    | StageFailed(stage: string)
    | IllegalTransition(from: Status, to: Status)
    | NotPersisted(status: Status)
    | NotImplemented(cause: Option<Error>)
    | CouldNotVerify(cause: Option<Error>)
    | NonePassed(failed: nat, total: nat)
    | ReviewRejected(notes: string)
    | MaxRevisionsExceeded(notes: string)
    | DeadlinePassed
    | Panic

  /** An error said to wrap a cause does wrap one. */
  predicate RealCause(e: Error) {
    e.NotImplemented? || e.CouldNotVerify? ==> e.cause.Some?
  }

  // ---- Candidates ------------------------------------------------------------

  const MAX_VARIANTS: nat := 8

  class Candidate {
    const index: nat
    const ws: Option<Worktree>
    var report: Report
    var err: Option<Error>
    var implErr: Option<Error>

    constructor (index: nat, ws: Option<Worktree>)
      ensures this.index == index && this.ws == ws
      ensures report == Report([]) && err == None && implErr == None
    {
      this.index, this.ws := index, ws;
      report, err, implErr := Report([]), None, None;
    }

    function Failure(): Option<Error>
      reads this
    {
      if implErr.Some? then implErr else err
    }

    predicate Implemented()
      reads this
    {
      ws.Some? && implErr.None?
    }

    predicate Passed()
      reads this
    {
      Failure().None? && ws.Some? && AllPassed(report)
    }
  }

  // ---- One implementing pass, attempt by attempt --------------------------------

  /**
   * A revision with feedback passes over the attempts that have nothing to correct; one without asks
   * them all again.
   */
  predicate Asked(dead: bool, feedback: string) {
    !dead || feedback == ""
  }

  /** An implementation error is never cleared. */
  predicate DeadAfter(dead: bool, worked: bool) {
    dead || !worked
  }

  /** Some attempt that was asked got its changes in, so the pass succeeds. */
  ghost predicate Productive(dead: seq<bool>, feedback: string, works: seq<bool>) {
    exists k :: 0 <= k < |dead| == |works| && Asked(dead[k], feedback) && works[k]
  }

  ghost predicate LeavesOneLive(dead: seq<bool>, works: seq<bool>) {
    exists k :: 0 <= k < |dead| == |works| && !DeadAfter(dead[k], works[k])
  }

  /**
   * A pass that succeeds is sure to leave a live attempt exactly when it comes with feedback, or no
   * attempt was dead before it.
   */
  lemma OneStaysLive(dead: seq<bool>, feedback: string)
    ensures (forall works: seq<bool> :: Productive(dead, feedback, works) ==> LeavesOneLive(dead, works))
       <==> feedback != "" || forall k :: 0 <= k < |dead| ==> !dead[k]
  {
    if feedback == "" && exists k :: 0 <= k < |dead| && dead[k] {
      // The dead ones are asked again and work, the live ones fail.
      assert Productive(dead, feedback, dead);
      assert !LeavesOneLive(dead, dead);
    } else {
      forall works: seq<bool> | Productive(dead, feedback, works) ensures LeavesOneLive(dead, works) {
        var k :| 0 <= k < |dead| == |works| && Asked(dead[k], feedback) && works[k];
        assert !DeadAfter(dead[k], works[k]);
      }
    }
  }

  // ---- Names, and the choice among the attempts -----------------------------------

  function Distance(a: int, b: int): nat {
    if a < b then b - a else a - b
  }

  /** Of the fan-outs allowed, the one nearest to what was asked for. */
  function VariantCount(requested: int): (count: nat)
    ensures 1 <= count <= MAX_VARIANTS
    ensures forall n :: 1 <= n <= MAX_VARIANTS ==> Distance(requested, count) <= Distance(requested, n)
  {
    if requested < 1 then 1 else if requested > MAX_VARIANTS then MAX_VARIANTS else requested
  }

  function VariantId(jobId: string, index: nat, total: nat): Worktree
    requires index < MAX_VARIANTS
  {
    if total <= 1 then jobId else jobId + "-v" + [('0' as int + index) as char]
  }

  /** Two attempts at one job never share a worktree. */
  lemma VariantIdInjective(jobId: string, i: nat, j: nat, total: nat)
    requires i < total <= MAX_VARIANTS && j < total && i != j
    ensures VariantId(jobId, i, total) != VariantId(jobId, j, total)
  {
    var a, b := VariantId(jobId, i, total), VariantId(jobId, j, total);
    assert a[|jobId| + 2] != b[|jobId| + 2];
  }

  /** The lowest-indexed candidate that passed, if one did. */
  method SelectWinner(cands: seq<Candidate>) returns (winner: Candidate?)
    ensures winner == null <==> forall c :: c in cands ==> !c.Passed()
    ensures winner != null ==>
      exists k :: 0 <= k < |cands| && cands[k] == winner && winner.Passed()
               && forall j :: 0 <= j < k ==> !cands[j].Passed()
  {
    for i := 0 to |cands|
      invariant forall j :: 0 <= j < i ==> !cands[j].Passed()
    {
      if cands[i].Passed() {
        return cands[i];
      }
    }
    return null;
  }

  /** The lowest-indexed implemented candidate, else the first. */
  ghost predicate Represents(cands: seq<Candidate>, best: Candidate)
    reads cands, best
  {
    && best in cands
    && (!best.Implemented() ==> best == cands[0] && forall c :: c in cands ==> !c.Implemented())
    && (best.Implemented() ==>
          exists k :: 0 <= k < |cands| && cands[k] == best && forall j :: 0 <= j < k ==> !cands[j].Implemented())
  }

  /** The candidate that stands for the job when none has won; none only when there are none. */
  method Representative(cands: seq<Candidate>) returns (best: Candidate?)
    ensures best == null <==> cands == []
    ensures best != null ==> Represents(cands, best)
  {
    for i := 0 to |cands|
      invariant forall j :: 0 <= j < i ==> !cands[j].Implemented()
    {
      if cands[i].Implemented() {
        return cands[i];
      }
    }
    return if |cands| > 0 then cands[0] else null;
  }

  /** How many candidates passed. */
  method Passing(cands: seq<Candidate>) returns (passed: nat)
    ensures passed <= |cands|
    ensures passed == 0 <==> forall c :: c in cands ==> !c.Passed()
  {
    passed := 0;
    for i := 0 to |cands|
      invariant passed <= i
      invariant passed == 0 <==> forall j :: 0 <= j < i ==> !cands[j].Passed()
    {
      if cands[i].Passed() {
        passed := passed + 1;
      }
    }
  }

  /** `cands` are distinct attempts in the worktrees listed. */
  ghost predicate Lists(created: seq<Worktree>, cands: seq<Candidate>) {
    && |created| == |cands|
    && (forall k :: 0 <= k < |cands| ==> cands[k].ws == Some(created[k]))
    && (forall j, k :: 0 <= j < k < |cands| ==> created[j] != created[k])
  }

  /** A candidate carries an implementation error exactly when the trace holds one for it. */
  ghost predicate Tracks(v: Evidence, cands: seq<Candidate>)
    reads cands
  {
    forall c :: c in cands ==>
      c.ws.Some? && (c.implErr.Some? <==> c.ws.value in v.implFailed)
  }

  ghost predicate AllLive(cands: seq<Candidate>)
    reads cands
  {
    forall c :: c in cands ==> c.implErr.None?
  }

  ghost predicate SomeLive(cands: seq<Candidate>)
    reads cands
  {
    exists c :: c in cands && c.implErr.None?
  }

  lemma OneIsAll(cands: seq<Candidate>)
    requires |cands| == 1 && SomeLive(cands)
    ensures AllLive(cands)
  {
  }

  lemma RepresentsOne(cands: seq<Candidate>, best: Candidate)
    requires Represents(cands, best)
    ensures best in cands
  {
  }
}
