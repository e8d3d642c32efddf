/** What the processor's contract comes to, effect by effect, in the trace of a run. */
module PipelineClaims {
  import opened Wrappers
  import opened Jobs
  import opened Verification
  import opened Trace
  import opened Fanout
  import opened Orchestration
  import Recovery

  /**
   * A delivered job earned it: the trace holds a passing verification of the returned worktree
   * after which no attempt was written to, the worktree was not verified again and no new verifying
   * pass began; no attempt created before it has such a pass without a failure of its own; at no
   * time did a proposal for it or a write to it fail; and, as far as there are a planner and an
   * implementor, there was a plan and a whole proposal was applied to it.
   */
  lemma CompletionIsEarned(cfg: Config, trace: seq<Effect>, ws: Worktree, patch: Patch, artifact: Option<Patch>)
    requires cfg.verifier && Delivered(cfg, Summarise(trace), ws, patch, artifact)
    ensures exists report, at: nat :: FreshPass(trace, ws, report, at)
    ensures forall k :: 0 <= k < |trace| ==> !FailsToImplement(trace[k], ws)
    ensures var created := Summarise(trace).checkouts.created;
      forall j, k :: 0 <= j < k < |created| && created[k] == ws ==>
        || (forall report, at: nat :: !FreshPass(trace, created[j], report, at))
        || exists n :: 0 <= n < |trace| && FailsToImplement(trace[n], created[j])
    ensures Created(ws, Ok) in trace
    ensures cfg.implementor ==> Applied(ws, Ok) in trace
    ensures cfg.planner ==> Planned(Ok) in trace
  {
    CertifiedMeansFresh(trace, ws, Summarise(trace).evidence.certified[ws]);
    AppliedMeans(trace, ws);
    EvidenceIsInTrace(trace);
    ImplFailedMeans(trace, ws);
    CreatedMeans(trace, ws);
    ghost var created := Summarise(trace).checkouts.created;
    forall j, k | 0 <= j < k < |created| && created[k] == ws
      ensures || (forall report, at: nat :: !FreshPass(trace, created[j], report, at))
              || exists n :: 0 <= n < |trace| && FailsToImplement(trace[n], created[j])
    {
      ImplFailedMeans(trace, created[j]);
      if report, at: nat :| FreshPass(trace, created[j], report, at) {
        CertifiedMeansFresh(trace, created[j], report);
      }
    }
  }

  /**
   * With the verifier that detects its checks, the fresh pass behind a delivered job holds results,
   * all of them passes.
   */
  lemma CertifiedChecksRan(cfg: Config, trace: seq<Effect>, ws: Worktree, patch: Patch, artifact: Option<Patch>)
    requires cfg.verifier && cfg.auto && Delivered(cfg, Summarise(trace), ws, patch, artifact)
    ensures exists report, at: nat :: FreshPass(trace, ws, report, at) && report.results != [] && AllPassed(report)
  {
    var report := Summarise(trace).evidence.certified[ws];
    CertifiedMeansFresh(trace, ws, report);
    var at: nat :| FreshPass(trace, ws, report, at);
    assert FreshPass(trace, ws, report, at) && report.results != [];
  }

  /**
   * A delivered job was approved, with or without a verifier, by a reviewer shown the patch of the
   * attempt it returns, unless that patch could not be read; with a verifier it was shown the report
   * of a fresh pass as well. If the capture went through, that very patch was saved in this run and is
   * what is stored.
   */
  lemma ApprovedWhatWasStored(cfg: Config, trace: seq<Effect>, ws: Worktree, patch: Patch, artifact: Option<Patch>)
    requires cfg.reviewer && Delivered(cfg, Summarise(trace), ws, patch, artifact)
    ensures !Summarise(trace).evidence.blind ==>
      exists notes, report :: Reviewed(patch, report, Approve, notes, Ok) in trace
                           && (cfg.verifier ==> exists at: nat :: FreshPass(trace, ws, report, at))
    ensures Summarise(trace).evidence.capture.Stored? ==> artifact == Some(patch) && Saved(patch, Ok) in trace
  {
    var v := Summarise(trace).evidence;
    EvidenceIsInTrace(trace);
    if !v.blind {
      var report := v.review.value.report;
      CertifiedMeansFresh(trace, ws, report);
      var notes :| Reviewed(patch, report, Approve, notes, Ok) in trace;
    }
  }

  lemma {:induction false} OnceInDistinct(trees: seq<Worktree>, ws: Worktree)
    requires Distinct(trees) && ws in trees
    ensures multiset(trees)[ws] == 1
  {
    var n := |trees| - 1;
    var before := trees[..n];
    assert trees == before + [trees[n]];
    assert Distinct(before);
    if ws in before {
      OnceInDistinct(before, ws);
      var k :| 0 <= k < |before| && before[k] == ws;
      assert trees[k] != trees[n];
    }
  }

  /**
   * A worktree handed out is removed at most once, and never applied to, verified or diffed after that.
   * It is removed exactly when Create never panicked, unless a panic in Cleanup comes first.
   */
  lemma RemovedExactlyOnce(trace: seq<Effect>, ws: Worktree)
    requires TidiedUp(Summarise(trace).checkouts) && Created(ws, Ok) in trace
    ensures Removals(trace, ws) <= 1
    ensures !Summarise(trace).checkouts.cleanupPanicked ==>
      (Removals(trace, ws) == 1 <==> forall k :: 0 <= k < |trace| ==> !CreatePanics(trace[k]))
    ensures forall i, j :: 0 <= i < j < |trace| && Removes(trace[i], ws) ==> !Uses(trace[j], ws)
  {
    var cleaned := Summarise(trace).checkouts.cleaned;
    CreatedMeans(trace, ws);
    CreatePanicMeans(trace);
    CleanedCounts(trace, ws);
    if ws in cleaned {
      OnceInDistinct(cleaned, ws);
    }
    forall i, j | 0 <= i < j < |trace| && Removes(trace[i], ws) ensures !Uses(trace[j], ws) {
      UsesPrecedeRemoval(trace, ws, i, j);
    }
  }

  /** Should the process die at any moment, recovery tries the name of every worktree a run has made. */
  lemma RecoveryNamesEveryWorktree(jobId: string, requested: int, created: seq<Worktree>, ws: Worktree)
    requires WellNamed(jobId, VariantCount(requested), created) && ws in created
    ensures ws in Recovery.ReclaimIds(jobId)
  {
    VariantIdsAre(jobId, VariantCount(requested), |created|);
    var k :| 0 <= k < |created| && created[k] == ws;
    Recovery.ReclaimCoversEveryAttempt(jobId, requested, k);
  }

  function TerminalEvents(trace: seq<Effect>): seq<EventKind> {
    if trace == [] then []
    else
      var e := trace[|trace| - 1];
      TerminalEvents(trace[..|trace| - 1]) + if e.Published? && Ends(e.kind) then [e.kind] else []
  }

  function StatusWrites(trace: seq<Effect>): seq<Status> {
    if trace == [] then []
    else
      var e := trace[|trace| - 1];
      StatusWrites(trace[..|trace| - 1]) + if e.Wrote? then [e.status] else []
  }

  /** The path and the ends of a summary list the trace's status writes and terminal events. */
  lemma {:induction false} LifeMeans(trace: seq<Effect>)
    ensures Summarise(trace).life.ends == TerminalEvents(trace)
    ensures Summarise(trace).life.path == StatusWrites(trace)
  {
    if trace != [] {
      var before, e, s := Unsnoc(trace);
      LifeMeans(before);
      assert Record(s, e).life == RecordLife(s.life, e);
    }
  }

  /**
   * Without a verifier the returned attempt may be one that failed to implement: exactly when every
   * attempt did. It takes a reviewer, an implementor and a second attempt, and a run gets there only
   * through a review that asks for changes with empty notes, the guard that lets a revision ask the
   * dead attempts again.
   */
  lemma DeadAttemptReturnedOnlyIfAllDied(cfg: Config, trace: seq<Effect>, ws: Worktree, patch: Patch,
                                         artifact: Option<Patch>)
    requires Delivered(cfg, Summarise(trace), ws, patch, artifact)
    ensures !cfg.verifier ==>
      ((exists k :: 0 <= k < |trace| && FailsToImplement(trace[k], ws))
       <==> forall other :: Created(other, Ok) in trace ==>
              exists k :: 0 <= k < |trace| && FailsToImplement(trace[k], other))
    ensures (exists k :: 0 <= k < |trace| && FailsToImplement(trace[k], ws)) ==>
      && !cfg.verifier && cfg.reviewer && cfg.implementor
      && |Summarise(trace).checkouts.created| >= 2
      && exists k :: 0 <= k < |trace| && AsksForNothing(trace[k])
  {
    hide AsksForNothing;
    MuteMeans(trace);
    ImplFailedMeans(trace, ws);
    CreatedMeans(trace, ws);
    forall other
      ensures Created(other, Ok) in trace <==> other in Summarise(trace).checkouts.created
      ensures other in Summarise(trace).evidence.implFailed
         <==> exists k :: 0 <= k < |trace| && FailsToImplement(trace[k], other)
    {
      CreatedMeans(trace, other);
      ImplFailedMeans(trace, other);
    }
  }

  lemma {:induction false} PathIsWritten(trace: seq<Effect>, status: Status)
    requires status in Summarise(trace).life.path
    ensures exists out :: Wrote(status, out) in trace
  {
    hide RecordLife, RecordCheckouts, RecordEvidence, RecordSigns;
    if trace != [] {
      var before, e, s := Unsnoc(trace);
      PathStep(s.life, e);
      if status in s.life.path {
        PathIsWritten(before, status);
        var out :| Wrote(status, out) in before;
        assert Wrote(status, out) in trace;
      } else {
        assert e == Wrote(status, e.out);
      }
    }
  }

  lemma PathStep(l: Life, e: Effect)
    ensures RecordLife(l, e).path == l.path + if e.Wrote? then [e.status] else []
  {
  }

  /** No attempt has both a fresh pass and no failure of its own. */
  ghost predicate NobodyPassed(trace: seq<Effect>) {
    forall ws :: Created(ws, Ok) in trace ==>
      || (forall report, at: nat :: !FreshPass(trace, ws, report, at))
      || exists k :: 0 <= k < |trace| && FailsToImplement(trace[k], ws)
  }

  lemma NoneCertifiedMeans(trace: seq<Effect>)
    requires NoneCertified(Summarise(trace).checkouts.created, Summarise(trace).evidence)
    ensures NobodyPassed(trace)
  {
    hide FreshPass;
    forall ws | Created(ws, Ok) in trace
      ensures || (forall report, at: nat :: !FreshPass(trace, ws, report, at))
              || exists k :: 0 <= k < |trace| && FailsToImplement(trace[k], ws)
    {
      CreatedMeans(trace, ws);
      ImplFailedMeans(trace, ws);
      if report, at: nat :| FreshPass(trace, ws, report, at) {
        CertifiedMeansFresh(trace, ws, report);
      }
    }
  }

  /**
   * A job is given up only for something that happened. A run that returns anything but nil holds an
   * effect that can divert it, and one that unwinds holds a panic. A deadline was seen, a step was
   * refused, or a call that no job gets past returned an error. That no attempt could be implemented
   * means that in the last implementing pass nothing was applied in full; that none passed means
   * that no live attempt has a fresh pass; and with an implementor neither that nor a request for
   * changes ends the job before a revision was tried.
   */
  lemma FailuresHaveCauses(cfg: Config, trace: seq<Effect>, exit: Exit)
    requires Warranted(cfg, Summarise(trace), exit)
    ensures exit != Returned(None) ==> exists k :: 0 <= k < |trace| && Hitch(trace[k])
    ensures exit.Unwinding? ==> exists k :: 0 <= k < |trace| && Panics(trace[k])
    ensures exit.Returned? && exit.err.Some? ==>
      match exit.err.value.cause
      case DeadlinePassed => Looked(DeadlineExceeded) in trace
      case StageFailed(_) => exists k :: 0 <= k < |trace| && Fatal(trace[k])
      case NotPersisted(_) => exists k :: 0 <= k < |trace| && Fatal(trace[k])
      case Panic => exists k :: 0 <= k < |trace| && Panics(trace[k])
      case NotImplemented(_) =>
        forall ws, at :: 0 <= at < |trace| && trace[at] == Applied(ws, Ok) ==>
          exists k :: at < k < |trace| && BeginsPass(trace[k])
      case CouldNotVerify(_) => NobodyPassed(trace)
      case NonePassed(_, _) =>
        NobodyPassed(trace) && (cfg.implementor ==> exists out :: Wrote(WaitingForRevision, out) in trace)
      case ReviewRejected(_) => exists e :: e in trace && e.Reviewed? && e.verdict == Reject
      case MaxRevisionsExceeded(_) =>
        && (exists e :: e in trace && e.Reviewed? && e.verdict == RequestChanges)
        && (cfg.implementor ==> exists out :: Wrote(WaitingForRevision, out) in trace)
      case IllegalTransition(_, to) => to in Summarise(trace).life.refused
  {
    hide NoneCertified, NobodyPassed, Summarise;
    SignsMean(trace);
    SeenMeans(trace);
    EvidenceIsInTrace(trace);
    if exit.Returned? && exit.err.Some? {
      var cause := exit.err.value.cause;
      if WantsRevision(cause) && cfg.implementor {
        PathIsWritten(trace, WaitingForRevision);
      }
      if cause.NonePassed? || cause.CouldNotVerify? {
        NoneCertifiedMeans(trace);
      } else if cause.NotImplemented? {
        NothingChangedMeans(trace);
      }
    }
  }

  lemma NothingChangedMeans(trace: seq<Effect>)
    requires Summarise(trace).evidence.changed == {}
    ensures forall ws, at :: 0 <= at < |trace| && trace[at] == Applied(ws, Ok) ==>
      exists k :: at < k < |trace| && BeginsPass(trace[k])
  {
    forall ws, at | 0 <= at < |trace| && trace[at] == Applied(ws, Ok)
      ensures exists k :: at < k < |trace| && BeginsPass(trace[k])
    {
      ChangedMeans(trace, ws);
    }
  }
}
