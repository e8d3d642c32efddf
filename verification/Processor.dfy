/** One job from pickup to terminal status: fan-out, gate, review, revision, and every way out. */
module Orchestration {
  import opened Wrappers
  import opened Text
  import opened Jobs
  import opened Verification
  import opened Trace
  import opened World
  import opened Fanout

  /** How a stage hands control on. */
  datatype Flow = Next | Fail(err: Error) | Unwind

  /** A cause, and the second error joined to it when ending the job failed as well. */
  datatype Failure = Failure(cause: Error, joined: Option<Error>)

  /** How Process is left: by a return, or by a panic on its way up. */
  datatype Exit = Returned(err: Option<Failure>) | Unwinding

  /** What one attempt's turn at implementing came to. */
  datatype Turn = Skipped | Changed | Stuck(err: Error) | Blown

  /** What the reviewing step decided. */
  datatype Decision = Approved | Revise(notes: string) | Rejected(err: Error) | Broken

  datatype Config = Config(
    bus: bool, workspaces: bool, verifier: bool, auto: bool, planner: bool, selector: bool,
    implementor: bool, artifacts: bool, reviewer: bool, variants: int)

  predicate RealFailure(exit: Exit) {
    exit.Returned? && exit.err.Some? ==> RealCause(exit.err.value.cause)
  }

  // ---- The shapes a run's record can have ---------------------------------------

  /** The job is still under way. */
  predicate Open(loaded: Status, l: Life, stored: Status, status: Status) {
    && !Terminal(status) && !Terminal(stored) && !Terminal(loaded)
    && l.ends == [] && !l.spoiled && !l.cancelled && !l.late
    && (loaded == Queued ==> l.refused == [])
  }

  /** The job has been taken to a terminal status, in memory at least. */
  predicate Closed(loaded: Status, l: Life, stored: Status, status: Status, ctx: Context, bus: bool) {
    && Terminal(status) && !l.late
    && |l.ends| <= 1 && (l.ends != [] ==> Ends(l.ends[0]) && Announces(l.ends[0]) == status)
    && (!l.spoiled ==> stored == status)
    && (stored == status || !Terminal(stored))
    && (l.cancelled ==> status == Cancelled && ctx.Canceled?)
    && (Terminal(loaded) ==> stored == loaded && l.ends == [] && !l.cancelled)
    && (!Terminal(loaded) ==>
         && (bus && status != Completed ==> l.ends != [])
         && (status == Cancelled ==> l.cancelled)
         && (status == Cancelled <==> l.seen.Canceled?) && (l.seen.DeadlineExceeded? ==> status == Failed))
    && (loaded == Queued ==> OnlyFailing(l.refused))
  }

  /** The table has turned nothing down but a second ending. */
  predicate OnlyFailing(refused: seq<Status>) {
    forall k :: 0 <= k < |refused| ==> refused[k] == Failed
  }

  /**
   * From `a` to `b` one terminal status `end` was announced (when there is a bus) and then, unless
   * that panicked, handed to the store; the record went from `was` to `now`.
   */
  predicate EndedAs(a: Summary, b: Summary, was: Status, now: Status, end: Status, kind: EventKind, bus: bool) {
    && b.life.ends == (if bus then a.life.ends + [kind] else a.life.ends)
    && b.life.refused == a.life.refused
    && b.life.cancelled == (a.life.cancelled || end.Cancelled?)
    && b.life.seen == a.life.seen && b.life.late == a.life.late && Grows(a.signs, b.signs)
    && (now == end || (b.life.spoiled && now == was))
    && (b.life.path == a.life.path + [end] || (b.life.spoiled && b.life.path == a.life.path))
    && b.checkouts == a.checkouts && b.evidence == a.evidence
  }

  /** Ending a job, or being refused that, leaves worktrees and evidence alone. */
  lemma EndingIsOnlyAboutLife(a: Summary, b: Summary, was: Status, now: Status, from: Status, end: Status,
                              kind: EventKind, bus: bool)
    requires b == Record(a, Refused(from, end)) || EndedAs(a, b, was, now, end, kind, bus)
    ensures b.checkouts == a.checkouts && b.evidence == a.evidence && Grows(a.signs, b.signs)
    ensures b.life.seen == a.life.seen && a.life.refused <= b.life.refused && a.life.path <= b.life.path
  {
  }

  lemma EndedCloses(loaded: Status, a: Summary, b: Summary, was: Status, now: Status, status: Status,
                    end: Status, kind: EventKind, ctx: Context, bus: bool)
    requires Open(loaded, a.life, was, status)
    requires Ends(kind) && Announces(kind) == end && end != Completed
    requires end.Cancelled? ==> ctx.Canceled?
    requires end.Cancelled? <==> a.life.seen.Canceled?
    requires EndedAs(a, b, was, now, end, kind, bus)
    ensures Closed(loaded, b.life, now, end, ctx, bus)
  {
  }

  /**
   * The statuses handed to the store are the first `done` steps of the work list, followed by the
   * terminal status once there is one. Only a job loaded as queued gets past the first step.
   */
  predicate Progress(loaded: Status, path: seq<Status>, status: Status, done: nat) {
    && done <= 5 + 4 * MAX_REVISIONS && (loaded != Queued ==> done == 0)
    && (if Terminal(status) && !Terminal(loaded)
        then path == Taken(done)
             || (path == Taken(done) + [status] && CanTransition(Reached(loaded, done), status))
        else path == Taken(done) && status == Reached(loaded, done))
  }

  /** Each status written that is not terminal is the work list's next one. */
  predicate Follows(path: seq<Status>) {
    forall k :: 0 <= k < |path| && !Terminal(path[k]) ==>
      k < |WorkList(MAX_REVISIONS)| && path[k] == WorkList(MAX_REVISIONS)[k]
  }

  lemma TakenFollows(loaded: Status, done: nat)
    requires done <= 5 + 4 * MAX_REVISIONS && (loaded != Queued ==> done == 0)
    ensures LegalPath(loaded, Taken(done)) && Follows(Taken(done))
    ensures Last(loaded, Taken(done)) == Reached(loaded, done)
  {
    hide WorkList, StepAt;
    TakenIsLegal(done);
    TakenSteps(done);
    forall k | 0 <= k < done ensures k < |WorkList(MAX_REVISIONS)| && Taken(done)[k] == WorkList(MAX_REVISIONS)[k] {
      WorkListSteps(MAX_REVISIONS, k);
    }
  }

  /** What Progress comes to: a legal path that follows the work list. */
  lemma ProgressIsLegal(loaded: Status, path: seq<Status>, status: Status, done: nat)
    requires Progress(loaded, path, status, done)
    ensures LegalPath(loaded, path) && Follows(path)
  {
    hide WorkList, StepAt, LegalPath, Taken, Reached, CanTransition, Last;
    TakenFollows(loaded, done);
    if path != Taken(done) {
      LegalPathExtends(loaded, Taken(done), status);
    }
  }

  /** The job had already ended when it was loaded. */
  predicate Inert(loaded: Status, l: Life, stored: Status, status: Status) {
    Terminal(loaded) && status == stored == loaded && l.ends == [] && !l.spoiled && !l.cancelled && !l.late
  }

  predicate Underway(loaded: Status, l: Life, stored: Status, status: Status, done: nat) {
    Progress(loaded, l.path, status, done) && (Open(loaded, l, stored, status) || Inert(loaded, l, stored, status))
  }

  /** A run may return once the job has ended; a panic may cut it short before or after that. */
  predicate Concluded(loaded: Status, l: Life, stored: Status, status: Status, ctx: Context, bus: bool,
                      done: nat, exit: Exit)
  {
    && ((Open(loaded, l, stored, status) && !l.seen.Canceled?) || Closed(loaded, l, stored, status, ctx, bus))
    && (Terminal(status) && !l.spoiled ==> stored == Last(loaded, l.path))
    && Progress(loaded, l.path, status, done)
    && (exit.Returned? ==> Terminal(status))
    && RealFailure(exit)
    && (exit == Returned(None) ==> status == stored && status != Failed && !Terminal(loaded) && (bus ==> l.ends != []))
  }

  /** Every status handed to the store, in order, is a legal step along the work list. */
  predicate WritesAlongTheList(loaded: Status, l: Life) {
    && LegalPath(loaded, l.path) && Follows(l.path)
    && (loaded == Queued ==> OnlyFailing(l.refused))
  }

  /** The job ends, as the last status written says, unless the terminal status or event was lost on the way. */
  predicate EndsUnlessLost(loaded: Status, l: Life, stored: Status) {
    && (!l.spoiled ==> Terminal(stored) && stored == Last(loaded, l.path))
    && (Terminal(loaded) ==> stored == loaded && l.path == [] && l.ends == [])
  }

  /** At most one terminal event, and it says what the record says; none is left out. */
  predicate AnnouncedOnce(bus: bool, loaded: Status, l: Life, stored: Status) {
    && |l.ends| <= 1
    && (l.ends != [] && Terminal(stored) ==> Ends(l.ends[0]) && Announces(l.ends[0]) == stored)
    && (stored != loaded && Terminal(stored) && stored != Completed && bus ==> l.ends != [])
  }

  /**
   * A job is cancelled exactly when a look at its context has found it canceled, and one whose
   * deadline has passed by then fails; from that look on nothing else is written.
   */
  predicate StopsWhenTold(loaded: Status, l: Life, stored: Status, ctx: Context) {
    && !l.late && (l.cancelled ==> ctx.Canceled?)
    && (!l.spoiled && !Terminal(loaded) ==>
         && (stored == Cancelled <==> l.seen.Canceled?) && (l.seen.DeadlineExceeded? ==> stored == Failed))
    && (stored == Cancelled && loaded != Cancelled ==> l.cancelled)
  }

  /** What the worker is told: nil only for a job completed or cancelled, and announced as that. */
  predicate ReturnsTruly(bus: bool, l: Life, stored: Status, exit: Exit) {
    && (exit == Returned(None) ==> (stored == Completed || stored == Cancelled) && (bus ==> l.ends != []))
    && (exit.Unwinding? ==> l.spoiled) && RealFailure(exit)
  }

  // ---- Why a run does not complete -------------------------------------------------

  /** No attempt is alive and certified. */
  predicate NoneCertified(created: seq<Worktree>, v: Evidence) {
    forall ws :: ws in created ==> ws !in v.certified || ws in v.implFailed
  }

  /** What the record shows when a job is failed for this cause. */
  predicate Shown(cfg: Config, s: Summary, cause: Error) {
    match cause
    case DeadlinePassed => s.life.seen.DeadlineExceeded?
    case IllegalTransition(_, to) => to in s.life.refused
    case StageFailed(_) => s.signs.fatal
    case NotPersisted(_) => s.signs.fatal
    case Panic => s.signs.panicked
    case NotImplemented(_) => cfg.implementor && s.evidence.changed == {}
    case CouldNotVerify(_) => cfg.verifier && NoneCertified(s.checkouts.created, s.evidence)
    case NonePassed(_, _) => cfg.verifier && NoneCertified(s.checkouts.created, s.evidence)
    case ReviewRejected(notes) => Answered(s.evidence, Reject) && notes == s.evidence.said
    case MaxRevisionsExceeded(notes) => Answered(s.evidence, RequestChanges) && notes == s.evidence.said
  }

  /** A revision would have been the answer. */
  predicate WantsRevision(cause: Error) {
    cause.NonePassed? || cause.MaxRevisionsExceeded?
  }

  /** The cause is a fact; and with an implementor, a revision was tried before the job was given up for want of one. */
  predicate Blames(cfg: Config, s: Summary, cause: Error) {
    Shown(cfg, s, cause) && (WantsRevision(cause) && cfg.implementor ==> WaitingForRevision in s.life.path)
  }

  predicate Answered(v: Evidence, verdict: Verdict) {
    v.review.Some? && v.review.value.verdict == verdict
  }

  /** Only trouble keeps a run from returning nil, only a panic from returning, and a failure's cause is a fact. */
  predicate Warranted(cfg: Config, s: Summary, exit: Exit) {
    && (exit != Returned(None) ==> s.signs.trouble)
    && (exit.Unwinding? ==> s.signs.panicked)
    && (exit.Returned? && exit.err.Some? ==> Blames(cfg, s, exit.err.value.cause))
  }

  /** Signs are never taken back. */
  predicate Grows(a: Signs, b: Signs) {
    (a.trouble ==> b.trouble) && (a.fatal ==> b.fatal) && (a.panicked ==> b.panicked)
  }

  /** There is trouble unless all went well, and a panic exactly when it is on its way up. */
  predicate Owns(a: Summary, b: Summary, well: bool, unwinds: bool) {
    && Grows(a.signs, b.signs) && (!well ==> b.signs.trouble)
    && (b.signs.panicked <==> a.signs.panicked || unwinds)
  }

  function Struck(s: Signs, panicked: bool): Signs {
    if panicked then Signs(true, s.fatal, true) else s
  }

  /** What a call nobody gets past leaves behind. */
  function Marked(s: Signs, flow: Flow): Signs {
    match flow
    case Next => s
    case Fail(_) => s.(trouble := true, fatal := true)
    case Unwind => Struck(s, true)
  }

  /** What is shown stays shown while a job is ended. */
  lemma BlameStays(cfg: Config, a: Summary, b: Summary, cause: Error)
    requires b.evidence == a.evidence && b.checkouts.created == a.checkouts.created && b.life.seen == a.life.seen
    requires a.life.refused <= b.life.refused && a.life.path <= b.life.path && Grows(a.signs, b.signs)
    requires Blames(cfg, a, cause)
    ensures Blames(cfg, b, cause)
  {
    hide NoneCertified, Answered;
  }

  lemma WarrantStays(cfg: Config, a: Summary, b: Summary, exit: Exit)
    requires b.evidence == a.evidence && b.checkouts.created == a.checkouts.created && b.life == a.life
    requires Grows(a.signs, b.signs) && Warranted(cfg, a, exit)
    ensures Warranted(cfg, b, exit)
  {
    hide NoneCertified, Answered, Blames;
    if exit.Returned? && exit.err.Some? {
      BlameStays(cfg, a, b, exit.err.value.cause);
    }
  }

  /** What a run without trouble comes to. */
  lemma NoTroubleCompletes(cfg: Config, trace: seq<Effect>, loaded: Status, stored: Status, ctx: Context, exit: Exit)
    requires !Summarise(trace).signs.trouble && loaded == Queued
    requires Warranted(cfg, Summarise(trace), exit)
    requires ReturnsTruly(cfg.bus, Summarise(trace).life, stored, exit)
    requires StopsWhenTold(loaded, Summarise(trace).life, stored, ctx)
    ensures stored == Completed && exit == Returned(None)
  {
    QuietMeans(trace);
  }

  lemma NothingDone(loaded: Status)
    ensures WritesAlongTheList(loaded, NOTHING.life) && TidiedUp(NOTHING.checkouts)
  {
  }

  lemma CleanableMeans(cfg: Config, co: Checkouts, cands: seq<Candidate>)
    requires Cleanable(cfg, co, cands)
    ensures co.cleaned == [] && !co.usedAfterCleanup && !co.cleanupPanicked
    ensures cands != [] ==> Lists(co.created, cands)
    ensures !co.createPanicked ==> |co.created| == |cands|
    ensures co.createPanicked || !cfg.workspaces ==> cands == []
    ensures cands != [] ==> Distinct(co.created)
  {
  }

  /** What the deferred cleanup leaves is tidy. */
  lemma Tidies(after: Checkouts, before: Checkouts, cands: seq<Candidate>)
    requires before.cleaned == [] && !before.usedAfterCleanup && !before.cleanupPanicked
    requires after == before.(cleaned := after.cleaned, cleanupPanicked := after.cleanupPanicked)
    requires after.cleaned <= after.created && (cands == [] ==> after.cleaned == [])
    requires cands != [] ==> Distinct(before.created)
    requires if before.createPanicked then cands == [] else |before.created| == |cands|
    requires !after.cleanupPanicked && cands != [] ==> after.cleaned == after.created
    ensures TidiedUp(after)
  {
    if cands == [] && !before.createPanicked {
      assert after.created == [];
    }
  }

  /** Cleaning up takes nothing from what was delivered. */
  lemma DeliveredStays(cfg: Config, a: Summary, b: Summary, ws: Worktree, patch: Patch, artifact: Option<Patch>)
    requires b.evidence == a.evidence && b.checkouts.created == a.checkouts.created
    ensures Delivered(cfg, a, ws, patch, artifact) ==> Delivered(cfg, b, ws, patch, artifact)
  {
  }

  /** What a run whose job has ended says about its writes. */
  lemma WhatWasWritten(loaded: Status, l: Life, stored: Status, status: Status, ctx: Context, bus: bool,
                       done: nat, exit: Exit)
    requires Concluded(loaded, l, stored, status, ctx, bus, done, exit) && Terminal(status)
    ensures WritesAlongTheList(loaded, l) && EndsUnlessLost(loaded, l, stored)
  {
    hide LegalPath, Follows;
    ProgressIsLegal(loaded, l.path, status, done);
  }

  /** ... and about the record, the events and the return. */
  lemma WhatItComesTo(loaded: Status, l: Life, stored: Status, status: Status, ctx: Context, bus: bool,
                      done: nat, exit: Exit)
    requires Concluded(loaded, l, stored, status, ctx, bus, done, exit) && Terminal(status)
    requires exit.Unwinding? ==> l.spoiled
    ensures AnnouncedOnce(bus, loaded, l, stored) && StopsWhenTold(loaded, l, stored, ctx)
    ensures ReturnsTruly(bus, l, stored, exit) && (Terminal(stored) ==> stored == status)
  {
    hide Progress, Last;
    assert Closed(loaded, l, stored, status, ctx, bus);
  }

  lemma OverIsClosed(loaded: Status, l: Life, stored: Status, status: Status, ctx: Context, bus: bool, done: nat,
                     exit: Exit)
    requires Concluded(loaded, l, stored, status, ctx, bus, done, exit) && Terminal(status)
    ensures Closed(loaded, l, stored, status, ctx, bus)
  {
    hide Progress, Last;
  }

  lemma RefusalKeepsClosed(loaded: Status, l: Life, stored: Status, status: Status, ctx: Context, later: Context,
                           bus: bool)
    requires Closed(loaded, l, stored, status, ctx, bus) && ContextMoves(ctx, later)
    ensures Closed(loaded, l.(refused := l.refused + [Failed]), stored, status, later, bus)
  {
    hide Terminal;
    var m := l.(refused := l.refused + [Failed]);
    assert OnlyFailing(l.refused) ==> OnlyFailing(m.refused);
  }

  /** Refusing to fail a job that has already ended changes nothing of how it ended. */
  lemma RefusalFinishes(loaded: Status, l: Life, stored: Status, status: Status, ctx: Context, later: Context,
                        bus: bool, done: nat, exit: Exit)
    requires Concluded(loaded, l, stored, status, ctx, bus, done, Unwinding) && Terminal(status)
    requires ContextMoves(ctx, later)
    requires exit.Returned? && exit.err.Some? && RealFailure(exit)
    ensures Concluded(loaded, l.(refused := l.refused + [Failed]), stored, status, later, bus, done, exit)
  {
    hide Open, Closed, Progress, Last, RealFailure;
    OverIsClosed(loaded, l, stored, status, ctx, bus, done, Unwinding);
    RefusalKeepsClosed(loaded, l, stored, status, ctx, later, bus);
  }

  /** A job under way that is marked failed has ended. */
  lemma FailureFinishes(loaded: Status, a: Summary, b: Summary, was: Status, now: Status, before: Status,
                        later: Context, bus: bool, done: nat, exit: Exit)
    requires Open(loaded, a.life, was, before) && !a.life.seen.Canceled? && Progress(loaded, a.life.path, before, done)
    requires exit.Returned? ==> exit.err.Some? && RealCause(exit.err.value.cause)
    requires EndedAs(a, b, was, now, Failed, JobFailed, bus)
    ensures Concluded(loaded, b.life, now, Failed, later, bus, done, exit)
  {
    TerminalIsFinal(before);
    EndedCloses(loaded, a, b, was, now, before, Failed, JobFailed, later, bus);
  }

  /** A run cut short before the job has ended leaves it open. */
  lemma CutShortIsOpen(loaded: Status, l: Life, stored: Status, status: Status, ctx: Context, bus: bool, done: nat)
    requires Concluded(loaded, l, stored, status, ctx, bus, done, Unwinding) && !Terminal(status)
    ensures Open(loaded, l, stored, status) && !l.seen.Canceled? && Progress(loaded, l.path, status, done)
  {
    hide Open, Progress, Last;
  }

  /** Marking a job failed finishes its run properly, whatever stood before. */
  lemma FailFinishes(loaded: Status, a: Summary, b: Summary, was: Status, now: Status, before: Status,
                     after: Status, ctx: Context, later: Context, bus: bool, done: nat, exit: Exit)
    requires Concluded(loaded, a.life, was, before, ctx, bus, done, Unwinding)
    requires ContextMoves(ctx, later)
    requires exit.Returned? ==> exit.err.Some? && RealCause(exit.err.value.cause)
    requires Terminal(before) ==>
      b == Record(a, Refused(before, Failed)) && after == before && now == was && exit.Returned?
    requires !Terminal(before) ==> after == Failed && EndedAs(a, b, was, now, Failed, JobFailed, bus)
    ensures Concluded(loaded, b.life, now, after, later, bus, done, exit)
  {
    hide Concluded, Open, Progress, EndedAs;
    if Terminal(before) {
      assert b.life == a.life.(refused := a.life.refused + [Failed]);
      RefusalFinishes(loaded, a.life, was, before, ctx, later, bus, done, exit);
    } else {
      CutShortIsOpen(loaded, a.life, was, before, ctx, bus, done);
      FailureFinishes(loaded, a, b, was, now, before, later, bus, done, exit);
    }
  }

  /** A job that is failed for a cause that is a fact is failed with warrant. */
  lemma FailIsWarranted(cfg: Config, a: Summary, b: Summary, was: Status, now: Status, before: Status, exit: Exit,
                        cause: Error)
    requires a.signs.trouble && Blames(cfg, a, cause) && (exit.Unwinding? ==> b.signs.panicked)
    requires exit.Returned? ==> exit.err.Some? && exit.err.value.cause == cause
    requires b == Record(a, Refused(before, Failed)) || EndedAs(a, b, was, now, Failed, JobFailed, cfg.bus)
    ensures Warranted(cfg, b, exit) && b.signs.trouble && Grows(a.signs, b.signs)
    ensures b.checkouts == a.checkouts && b.evidence == a.evidence
  {
    hide Blames;
    EndingIsOnlyAboutLife(a, b, was, now, before, Failed, JobFailed, cfg.bus);
    BlameStays(cfg, a, b, cause);
  }

  /** And so is one that is cancelled. */
  lemma CancelIsWarranted(cfg: Config, a: Summary, b: Summary, was: Status, now: Status, before: Status, exit: Exit)
    requires a.signs.trouble && (exit.Unwinding? ==> b.signs.panicked)
    requires exit.Returned? && exit.err.Some? ==>
      || (b == Record(a, Refused(before, Cancelled)) && exit.err.value.cause == IllegalTransition(before, Cancelled))
      || (b.signs.fatal && exit.err.value.cause == NotPersisted(Cancelled))
    requires b == Record(a, Refused(before, Cancelled)) || EndedAs(a, b, was, now, Cancelled, JobCancelled, cfg.bus)
    ensures Warranted(cfg, b, exit) && b.signs.trouble && Grows(a.signs, b.signs)
    ensures b.checkouts == a.checkouts && b.evidence == a.evidence
  {
    EndingIsOnlyAboutLife(a, b, was, now, before, Cancelled, JobCancelled, cfg.bus);
  }

  /** Handing the next step to the store keeps an open job open, whether or not the write gets through. */
  lemma Advanced(loaded: Status, l: Life, stored: Status, status: Status, done: nat, out: Outcome)
    requires Underway(loaded, l, stored, status, done) && done < 5 + 4 * MAX_REVISIONS
    requires loaded == Queued && l.seen.Live?
    ensures CanTransition(status, StepAt(done))
    ensures Underway(loaded, RecordLife(l, Wrote(StepAt(done), out)), if out.Ok? then StepAt(done) else stored,
                    StepAt(done), done + 1)
  {
    StepFollowsStep(done);
  }

  /** A job under way that has ended had ended when it was loaded, and nothing was written. */
  lemma MayHaveEnded(loaded: Status, l: Life, stored: Status, status: Status, done: nat)
    requires Underway(loaded, l, stored, status, done) && Terminal(status)
    ensures loaded == stored == status && l.path == []
  {
  }

  /** A panic may cut a job short while it is under way, and so may a deadline. */
  lemma MayStop(loaded: Status, l: Life, stored: Status, status: Status, ctx: Context, bus: bool, done: nat)
    requires Underway(loaded, l, stored, status, done) && !l.seen.Canceled?
    ensures Concluded(loaded, l, stored, status, ctx, bus, done, Unwinding)
  {
    hide Taken, Reached, CanTransition;
    if Terminal(status) {
      MayHaveEnded(loaded, l, stored, status, done);
    }
  }

  /** A job on its way has not ended, unless it had when it was loaded. */
  lemma NotEndedYet(loaded: Status, l: Life, stored: Status, status: Status, done: nat)
    requires Underway(loaded, l, stored, status, done)
    ensures !Terminal(loaded) ==> !Terminal(status)
  {
  }

  /** Marking a job cancelled concludes its run, once a look has found the context canceled. */
  lemma CancelFinishes(loaded: Status, a: Summary, b: Summary, was: Status, now: Status, before: Status,
                       after: Status, later: Context, bus: bool, done: nat, exit: Exit)
    requires Underway(loaded, a.life, was, before, done) && a.life.seen.Canceled? && later.Canceled?
      && RealFailure(exit)
    requires Terminal(before) ==>
      && b == Record(a, Refused(before, Cancelled)) && after == before && now == was
      && exit.Returned? && exit.err.Some?
    requires !Terminal(before) ==>
      && after == Cancelled && EndedAs(a, b, was, now, Cancelled, JobCancelled, bus)
      && (exit == Returned(None) ==> now == Cancelled)
    ensures Concluded(loaded, b.life, now, after, later, bus, done, exit)
  {
    TerminalIsFinal(before);
    if !Terminal(before) {
      EndedCloses(loaded, a, b, was, now, before, Cancelled, JobCancelled, later, bus);
    }
  }

  /** The completed status, handed to the store with whatever outcome, ends the job. */
  lemma CompletionConcludes(l: Life, stored: Status, ctx: Context, bus: bool, done: nat, out: Outcome)
    requires Underway(Queued, l, stored, Reviewing, done) && l.seen.Live?
    ensures CanTransition(Reviewing, Completed) && l.ends == []
    ensures Concluded(Queued, RecordLife(l, Wrote(Completed, out)), if out.Ok? then Completed else stored, Completed,
                      ctx, bus, done, Unwinding)
  {
  }

  /** ... and announcing it, if that goes through, is the one way to return nil with it. */
  lemma AnnouncementConcludes(l: Life, ctx: Context, bus: bool, done: nat, out: Outcome)
    requires Concluded(Queued, l, Completed, Completed, ctx, bus, done, Unwinding) && l.ends == []
    ensures var later := if bus then RecordLife(l, Published(JobCompleted, out)) else l;
      Concluded(Queued, later, Completed, Completed, ctx, bus, done,
                if bus && out.Panicked? then Unwinding else Returned(None))
  {
  }

  /** What a look at the context leaves behind. */
  lemma LookRecords(s: Summary, ctx: Context)
    ensures Record(s, Looked(ctx))
         == Summary(RecordLife(s.life, Looked(ctx)), s.checkouts, s.evidence,
                    s.signs.(trouble := s.signs.trouble || !ctx.Live?))
    ensures RecordLife(s.life, Looked(ctx)) == s.life.(seen := if s.life.seen.Live? then ctx else s.life.seen)
  {
  }

  lemma OpenAfterLook(loaded: Status, l: Life, stored: Status, status: Status, ctx: Context)
    requires Open(loaded, l, stored, status)
    ensures Open(loaded, RecordLife(l, Looked(ctx)), stored, status)
  {
    hide Terminal;
  }

  lemma InertAfterLook(loaded: Status, l: Life, stored: Status, status: Status, ctx: Context)
    requires Inert(loaded, l, stored, status)
    ensures Inert(loaded, RecordLife(l, Looked(ctx)), stored, status)
  {
    hide Terminal;
  }

  /** Finding the context ended is no end yet. */
  lemma LooksChangeNothing(loaded: Status, l: Life, stored: Status, status: Status, done: nat, ctx: Context)
    requires Underway(loaded, l, stored, status, done)
    ensures Underway(loaded, RecordLife(l, Looked(ctx)), stored, status, done)
  {
    hide Progress, Open, Inert;
    if Open(loaded, l, stored, status) {
      OpenAfterLook(loaded, l, stored, status, ctx);
    } else {
      InertAfterLook(loaded, l, stored, status, ctx);
    }
  }

  /** A run that may return may also be cut short; one that returns has ended. */
  lemma MayAlsoUnwind(loaded: Status, l: Life, stored: Status, status: Status, ctx: Context, later: Context, bus: bool,
                      done: nat, exit: Exit)
    requires Concluded(loaded, l, stored, status, ctx, bus, done, exit) && ContextMoves(ctx, later)
    ensures Concluded(loaded, l, stored, status, later, bus, done, Unwinding)
    ensures Concluded(loaded, l, stored, status, later, bus, done, exit) && (exit.Returned? ==> Terminal(status))
  {
    hide Progress, Last, Open;
  }

  /** A context that moves on leaves a concluded run concluded. */
  lemma ConclusionStands(loaded: Status, l: Life, stored: Status, status: Status, ctx: Context, later: Context,
                         bus: bool, done: nat, exit: Exit)
    requires Concluded(loaded, l, stored, status, ctx, bus, done, exit) && ContextMoves(ctx, later)
    ensures Concluded(loaded, l, stored, status, later, bus, done, exit)
  {
    hide Taken, Reached, CanTransition, Last;
  }

  /** After nine steps one of them was the wait for a revision. */
  lemma RevisionWasTried(loaded: Status, l: Life, stored: Status, status: Status)
    requires Underway(loaded, l, stored, status, 9)
    ensures WaitingForRevision in l.path
  {
    hide Open, Inert, CanTransition;
    TakenSteps(9);
    assert Taken(9)[5] == WaitingForRevision;
    assert Taken(9) <= l.path;
  }

  lemma WhereItStands(loaded: Status, l: Life, stored: Status, status: Status, done: nat)
    requires Underway(loaded, l, stored, status, done)
    ensures status == Reached(loaded, done) && (loaded != Queued ==> done == 0)
  {
    hide Taken, Open, Inert, CanTransition, Reached;
    if Terminal(status) {
      MayHaveEnded(loaded, l, stored, status, done);
    }
  }

  lemma RefusedAtFirst(loaded: Status, l: Life, stored: Status, status: Status, ctx: Context, bus: bool, done: nat,
                       next: Status)
    requires Underway(loaded, l, stored, status, done) && l.seen.Live? && loaded != Queued
    ensures Concluded(loaded, l.(refused := l.refused + [next]), stored, status, ctx, bus, done, Unwinding)
  {
    hide Progress, Taken, Reached, CanTransition;
    if Terminal(status) {
      MayHaveEnded(loaded, l, stored, status, done);
    }
  }

  /** Only a job loaded as queued can take the first step; another is turned down there. */
  lemma TurnedDown(loaded: Status, l: Life, stored: Status, status: Status, ctx: Context, bus: bool, done: nat)
    requires Underway(loaded, l, stored, status, done) && l.seen.Live? && done < 5 + 4 * MAX_REVISIONS
    ensures CanTransition(status, StepAt(done)) <==> loaded == Queued
    ensures loaded != Queued ==>
      Concluded(loaded, l.(refused := l.refused + [StepAt(done)]), stored, status, ctx, bus, done, Unwinding)
  {
    WhereItStands(loaded, l, stored, status, done);
    if loaded == Queued {
      StepFollowsStep(done);
    } else {
      RefusedAtFirst(loaded, l, stored, status, ctx, bus, done, StepAt(done));
    }
  }

  /** The locals Process carries from step to step. */
  datatype Locals = Locals(
    cands: seq<Candidate>, best: Candidate?, gateErr: Option<Error>,
    feedback: string, revisions: nat, steps: seq<Status>)

  const FIRST_LOCALS := Locals([], null, None, "", 0, FIRST_PASS)

  function PatchOf(diffOf: Tree -> Patch, trees: map<Worktree, Tree>, ws: Worktree): Patch {
    if ws in trees then diffOf(trees[ws]) else ""
  }

  /** The deferred cleanup has nothing behind it and knows every worktree it is to remove. */
  ghost predicate Cleanable(cfg: Config, co: Checkouts, cands: seq<Candidate>) {
    && co.cleaned == [] && !co.usedAfterCleanup && !co.cleanupPanicked
    && (!cfg.workspaces ==> cands == [])
    && (if co.createPanicked then cands == [] else Lists(co.created, cands))
  }

  /**
   * What the capture of an attempt with this patch can have come to: stored as it is, blank and so
   * not stored, or missed because reading or writing it failed; but never forgotten.
   */
  predicate Captured(cfg: Config, capture: Capture, patch: Patch, artifact: Option<Patch>) {
    && (capture.Stored? ==> capture.patch == patch && artifact == Some(patch))
    && (cfg.artifacts && cfg.workspaces ==> !capture.Untried? && (capture.Read? ==> Blank(patch)))
  }

  /** Every attempt without an implementation error has had a whole proposal applied to it. */
  ghost predicate Worked(v: Evidence, cands: seq<Candidate>)
    reads cands
  {
    forall c :: c in cands && c.implErr.None? ==> c.ws.Some? && c.ws.value in v.applied
  }

  /** The attempt the job would return, once the gate has named it. */
  ghost predicate GatedBy(cfg: Config, checkouts: Checkouts, evidence: Evidence, artifact: Option<Patch>,
                          diffOf: Tree -> Patch, trees: map<Worktree, Tree>, run: Locals)
    reads run.best, run.cands
  {
    && run.best != null && run.best in run.cands && run.best.ws.Some?
    && run.best.ws.value in checkouts.created
    && (run.gateErr.Some? ==>
        run.gateErr.value.NonePassed? && cfg.verifier && NoneCertified(checkouts.created, evidence))
    && (run.gateErr.None? && cfg.verifier ==>
          Wins(cfg, checkouts.created, evidence, run.best))
    && (!cfg.verifier && run.best.implErr.Some? ==> !SomeLive(run.cands))
    && Captured(cfg, evidence.capture, PatchOf(diffOf, trees, run.best.ws.value), artifact)
  }

  /** No attempt before `ws` is certified and alive. */
  predicate Earliest(created: seq<Worktree>, v: Evidence, ws: Worktree) {
    forall j, k :: 0 <= j < k < |created| && created[k] == ws ==>
      created[j] !in v.certified || created[j] in v.implFailed
  }

  /** ... and once the review has let it through. */
  ghost predicate AcceptedBy(cfg: Config, checkouts: Checkouts, evidence: Evidence, artifact: Option<Patch>,
                             diffOf: Tree -> Patch, trees: map<Worktree, Tree>, run: Locals)
    reads run.best, run.cands
  {
    && GatedBy(cfg, checkouts, evidence, artifact, diffOf, trees, run) && run.gateErr.None?
    && (cfg.reviewer && !evidence.blind ==>
          evidence.review
          == Some(Seen(PatchOf(diffOf, trees, run.best.ws.value), run.best.report, Approve)))
  }

  /** Whether the locals are in order when `i` steps have been worked through. */
  ghost predicate InOrder(cfg: Config, checkouts: Checkouts, evidence: Evidence, artifact: Option<Patch>,
                          diffOf: Tree -> Patch, trees: map<Worktree, Tree>, run: Locals, i: nat)
    reads run.best, run.cands
  {
    && run.revisions <= MAX_REVISIONS && run.steps == WorkList(run.revisions)
    && i <= |run.steps| == 5 + 4 * run.revisions && (i <= 4 ==> run.revisions == 0)
    && Cleanable(cfg, checkouts, run.cands) && !checkouts.createPanicked
    && Tracks(evidence, run.cands)
    && (i < 2 ==> run.cands == [] && evidence.implFailed == {})
    && (i >= 2 ==> (cfg.workspaces <==> run.cands != []))
    && (i <= 2 ==> AllLive(run.cands))
    && (i >= 1 && cfg.planner ==> evidence.planned)
    && (i >= 3 && cfg.implementor ==> Worked(evidence, run.cands))
    && (run.cands == [] ==> run.gateErr.None?)
    && (run.revisions > 0 && run.feedback == "" ==> evidence.mute) && (evidence.mute ==> cfg.reviewer)
    && (|run.cands| == 1 || !cfg.implementor ==> AllLive(run.cands))
    && (run.cands != [] ==>
          && (i <= 6 || run.feedback != "" ==> SomeLive(run.cands))
          && (i == 4 || i == 8 ==> GatedBy(cfg, checkouts, evidence, artifact, diffOf, trees, run))
          && (i == |run.steps| ==> AcceptedBy(cfg, checkouts, evidence, artifact, diffOf, trees, run)))
  }

  lemma InOrderMeans(cfg: Config, checkouts: Checkouts, evidence: Evidence, artifact: Option<Patch>,
                     diffOf: Tree -> Patch, trees: map<Worktree, Tree>, run: Locals, i: nat)
    requires InOrder(cfg, checkouts, evidence, artifact, diffOf, trees, run, i)
    ensures Cleanable(cfg, checkouts, run.cands)
    ensures run.revisions <= MAX_REVISIONS && run.steps == WorkList(run.revisions)
      && i <= |run.steps| == 5 + 4 * run.revisions
  {
  }

  lemma GatedWhenJudged(cfg: Config, checkouts: Checkouts, evidence: Evidence, artifact: Option<Patch>,
                        diffOf: Tree -> Patch, trees: map<Worktree, Tree>, run: Locals, i: nat)
    requires (i == 4 || i == 8) && run.cands != []
    requires InOrder(cfg, checkouts, evidence, artifact, diffOf, trees, run, i)
    ensures GatedBy(cfg, checkouts, evidence, artifact, diffOf, trees, run) && checkouts.cleaned == []
    ensures run.revisions == if i == 4 then 0 else 1
  {
  }

  /** An accepted attempt ends the list. */
  lemma AcceptedInOrder(cfg: Config, checkouts: Checkouts, before: Evidence, after: Evidence, artifact: Option<Patch>,
                        diffOf: Tree -> Patch, trees: map<Worktree, Tree>, run: Locals, i: nat)
    requires (i == 4 || i == 8) && i < |run.steps| && run.cands != []
    requires InOrder(cfg, checkouts, before, artifact, diffOf, trees, run, i)
    requires AcceptedBy(cfg, checkouts, after, artifact, diffOf, trees, run)
    requires SameWork(before, after) && (after.mute ==> before.mute || cfg.reviewer)
    ensures InOrder(cfg, checkouts, after, artifact, diffOf, trees, run, i + 1)
  {
    hide GatedBy, Cleanable, Captured, WorkList;
  }

  /** A revision makes it longer. */
  lemma RevisedInOrder(cfg: Config, checkouts: Checkouts, before: Evidence, after: Evidence, artifact: Option<Patch>,
                       diffOf: Tree -> Patch, trees: map<Worktree, Tree>, run: Locals, next: Locals, i: nat)
    requires (i == 4 || i == 8) && i < |run.steps| && run.cands != []
    requires InOrder(cfg, checkouts, before, artifact, diffOf, trees, run, i)
    requires next.cands == run.cands && next.revisions == run.revisions + 1 <= MAX_REVISIONS
    requires next.steps == run.steps + REVISION_PASS && next.gateErr.None?
    requires next.feedback == "" ==> after.mute
    requires SameWork(before, after) && (after.mute ==> before.mute || cfg.reviewer)
    ensures i == 4 && InOrder(cfg, checkouts, after, artifact, diffOf, trees, next, i + 1)
  {
    hide GatedBy, AcceptedBy, Cleanable, Captured;
  }

  /** Waiting for the revision asks nothing of the locals. */
  lemma StartsAfresh(cfg: Config, checkouts: Checkouts, evidence: Evidence, artifact: Option<Patch>,
                     diffOf: Tree -> Patch, trees: map<Worktree, Tree>, run: Locals)
    requires InOrder(cfg, checkouts, evidence, artifact, diffOf, trees, run, 5) && |run.steps| > 5
    ensures InOrder(cfg, checkouts, evidence, artifact, diffOf, trees, run, 6)
  {
  }

  /** Before the first step. */
  lemma InOrderAtFirst(cfg: Config, jobId: string, artifact: Option<Patch>, diffOf: Tree -> Patch,
                       trees: map<Worktree, Tree>, status: Status)
    ensures InOrder(cfg, NOTHING.checkouts, NOTHING.evidence, artifact, diffOf, trees, FIRST_LOCALS, 0)
    ensures Cleanable(cfg, NOTHING.checkouts, FIRST_LOCALS.cands)
    ensures WellNamed(jobId, VariantCount(cfg.variants), NOTHING.checkouts.created)
    ensures Underway(status, NOTHING.life, status, status, 0)
  {
  }

  /** Entering step `i` leaves the locals in order: only the gate's own step discards evidence. */
  lemma StillSound(cfg: Config, checkouts: Checkouts, evidence: Evidence, artifact: Option<Patch>,
                   diffOf: Tree -> Patch, trees: map<Worktree, Tree>, run: Locals, i: nat)
    requires InOrder(cfg, checkouts, evidence, artifact, diffOf, trees, run, i) && i < |run.steps|
    ensures var entered := RecordEvidence(evidence, Wrote(StepAt(i), Ok));
      && InOrder(cfg, checkouts, entered, artifact, diffOf, trees, run, i)
      && (StepAt(i).Verifying? ==> entered.capture.Untried?) && (StepAt(i).Implementing? ==> entered.changed == {})
  {
    hide Cleanable, GatedBy, AcceptedBy;
    assert StepAt(i).Verifying? || StepAt(i).Implementing? ==> i != 4 && i != 8;
  }

  /** The list ends with the job in review and the gate's objections dealt with. */
  lemma AtTheEnd(cfg: Config, s: Summary, artifact: Option<Patch>, diffOf: Tree -> Patch,
                 trees: map<Worktree, Tree>, run: Locals, stored: Status, status: Status)
    requires Underway(Queued, s.life, stored, status, |run.steps|)
    requires InOrder(cfg, s.checkouts, s.evidence, artifact, diffOf, trees, run, |run.steps|)
    ensures status == Reviewing && run.gateErr.None? && |run.steps| >= 5
  {
    assert status == StepAt(4 + 4 * run.revisions);
  }

  lemma SoundIsDelivered(cfg: Config, s: Summary, artifact: Option<Patch>, diffOf: Tree -> Patch,
                         trees: map<Worktree, Tree>, run: Locals)
    requires InOrder(cfg, s.checkouts, s.evidence, artifact, diffOf, trees, run, |run.steps|)
    requires cfg.workspaces && |run.steps| >= 5
    ensures run.best != null && run.best.ws.Some?
    ensures Delivered(cfg, s, run.best.ws.value, PatchOf(diffOf, trees, run.best.ws.value), artifact)
  {
    assert AcceptedBy(cfg, s.checkouts, s.evidence, artifact, diffOf, trees, run);
  }

  /** Stage work: no status written or announced, no worktree created or removed. */
  predicate OnlyStageWork(a: Summary, b: Summary) {
    b.life == a.life && (a.checkouts.cleaned == [] ==> b.checkouts == a.checkouts) && Grows(a.signs, b.signs)
  }

  lemma SameStage(a: Summary, b: Summary)
    ensures OnlyStageWork(a, a)
    ensures OnlyStageWork(a, b) ==> b.life == a.life && (a.checkouts.cleaned == [] ==> b.checkouts == a.checkouts)
  {
  }

  lemma StageThenSigns(a: Summary, b: Summary, c: Summary)
    requires OnlyStageWork(a, b) && c == b.(signs := c.signs) && Grows(b.signs, c.signs)
    ensures OnlyStageWork(a, c)
  {
  }

  lemma StageThenStage(a: Summary, b: Summary, c: Summary)
    requires OnlyStageWork(a, b) && OnlyStageWork(b, c) && b.checkouts == a.checkouts
    ensures OnlyStageWork(a, c)
  {
  }

  /** What a completed job has to show for the worktree `ws`, whose diff is `patch`. */
  predicate Delivered(cfg: Config, s: Summary, ws: Worktree, patch: Patch, artifact: Option<Patch>) {
    && ws in s.checkouts.created
    && (cfg.verifier ==>
          && ws in s.evidence.certified && ws !in s.evidence.implFailed
          && (cfg.auto ==> s.evidence.certified[ws].results != [])
          && Earliest(s.checkouts.created, s.evidence, ws))
    && (!s.evidence.mute || !cfg.reviewer || !cfg.implementor || |s.checkouts.created| == 1 ==>
          ws !in s.evidence.implFailed)
    && (!cfg.verifier ==>
          (ws in s.evidence.implFailed
           <==> forall other :: other in s.checkouts.created ==> other in s.evidence.implFailed))
    && (cfg.planner ==> s.evidence.planned)
    && (cfg.implementor && ws !in s.evidence.implFailed ==> ws in s.evidence.applied)
    && Captured(cfg, s.evidence.capture, patch, artifact)
    && (cfg.reviewer && !s.evidence.blind ==>
          && s.evidence.review.Some?
          && s.evidence.review.value.patch == patch && s.evidence.review.value.verdict == Approve
          && (cfg.verifier ==> s.evidence.review.value.report == s.evidence.certified[ws]))
  }

  predicate SameWork(a: Evidence, b: Evidence) {
    b.planned == a.planned && b.implFailed == a.implFailed && b.applied == a.applied && (a.mute ==> b.mute)
  }

  /** Reviewing may read the patch, but does not store it. */
  predicate OnlyReviewed(a: Evidence, b: Evidence) {
    && b == a.(review := b.review, blind := b.blind, capture := b.capture, mute := b.mute, said := b.said)
    && (a.mute ==> b.mute)
    && (!a.capture.Untried? ==> b.capture == a.capture) && (b.capture.Stored? ==> a.capture.Stored?)
  }

  /** What reading the patch leaves behind. */
  lemma DiffRecords(s: Summary, ws: Worktree, patch: Patch, out: Outcome)
    ensures var t := Record(s, Diffed(ws, patch, out));
      && OnlyStageWork(s, t) && OnlyReviewed(s.evidence, t.evidence) && (t.evidence.blind <==> out.Err?)
      && t.signs == Struck(s.signs, out.Panicked?)
  {
  }

  lemma DiffIsCapture(s: Summary, ws: Worktree, patch: Patch, out: Outcome)
    requires s.evidence.capture.Untried?
    ensures Record(s, Diffed(ws, patch, out)).evidence
         == s.evidence.(blind := out.Err?, capture := if out.Ok? then Read(patch) else Missed)
  {
  }

  /** What storing the patch leaves behind. */
  lemma SaveRecords(s: Summary, patch: Patch, out: Outcome)
    ensures var t := Record(s, Saved(patch, out));
      && t.life == s.life && t.checkouts == s.checkouts && t.signs == Struck(s.signs, out.Panicked?)
      && t.evidence == s.evidence.(capture := if out.Ok? then Stored(patch) else Missed)
  {
  }

  /** What a review leaves behind. */
  lemma ReviewRecords(s: Summary, patch: Patch, report: Report, verdict: Verdict, notes: string, out: Outcome)
    ensures var t := Record(s, Reviewed(patch, report, verdict, notes, out));
      && OnlyStageWork(s, t) && OnlyReviewed(s.evidence, t.evidence) && t.evidence.blind == s.evidence.blind
      && t.evidence.review == (if out.Ok? then Some(Seen(patch, report, verdict)) else None) && t.evidence.said == notes
      && (t.signs.trouble <==> s.signs.trouble || !out.Ok? || !verdict.Approve?)
      && (t.signs.fatal <==> s.signs.fatal || out.Err?) && (t.signs.panicked <==> s.signs.panicked || out.Panicked?)
      && (out.Ok? && verdict.RequestChanges? && notes == "" ==> t.evidence.mute)
  {
  }

  lemma ReviewedOn(a: Summary, b: Summary, c: Summary)
    requires OnlyStageWork(a, b) && OnlyReviewed(a.evidence, b.evidence)
    requires OnlyStageWork(b, c) && OnlyReviewed(b.evidence, c.evidence)
    ensures OnlyStageWork(a, c) && OnlyReviewed(a.evidence, c.evidence)
  {
  }

  /** A panic in between adds nothing but trouble. */
  lemma AlsoTroubled(a: Summary, b: Summary, c: Summary)
    requires OnlyStageWork(a, b) && OnlyReviewed(a.evidence, b.evidence)
    requires c == b.(signs := c.signs) && Grows(b.signs, c.signs)
    ensures OnlyStageWork(a, c) && OnlyReviewed(a.evidence, c.evidence)
  {
  }

  lemma NothingReviewed(s: Summary)
    ensures OnlyStageWork(s, s) && OnlyReviewed(s.evidence, s.evidence)
  {
  }

  predicate Distinct(trees: seq<Worktree>) {
    forall j, k :: 0 <= j < k < |trees| ==> trees[j] != trees[k]
  }

  /**
   * Each worktree was removed at most once, none was used after that, and unless a panic in Create
   * or Cleanup itself cut things short, those removed are exactly those created. After a panic in
   * Create none is removed, not even those made before it.
   */
  predicate TidiedUp(co: Checkouts) {
    && co.cleaned <= co.created && Distinct(co.cleaned) && !co.usedAfterCleanup
    && (!co.createPanicked && !co.cleanupPanicked ==> co.cleaned == co.created)
    && (co.createPanicked ==> co.cleaned == [])
  }

  /** The names of the first `n` attempts of `total`. */
  function VariantIds(jobId: string, total: nat, n: nat): seq<Worktree>
    requires n <= MAX_VARIANTS
  {
    if n == 0 then [] else VariantIds(jobId, total, n - 1) + [VariantId(jobId, n - 1, total)]
  }

  lemma {:induction false} VariantIdsAre(jobId: string, total: nat, n: nat)
    requires n <= MAX_VARIANTS
    ensures |VariantIds(jobId, total, n)| == n
    ensures forall k :: 0 <= k < n ==> VariantIds(jobId, total, n)[k] == VariantId(jobId, k, total)
  {
    if n > 0 {
      VariantIdsAre(jobId, total, n - 1);
    }
  }

  /** Worktrees are named after the job and their place, so that recovery can name them again. */
  predicate WellNamed(jobId: string, total: nat, created: seq<Worktree>) {
    |created| <= total <= MAX_VARIANTS && created == VariantIds(jobId, total, |created|)
  }

  lemma DistinctVariants(jobId: string, total: nat, n: nat)
    requires n <= total <= MAX_VARIANTS
    ensures |VariantIds(jobId, total, n)| == n && Distinct(VariantIds(jobId, total, n))
  {
    var created := VariantIds(jobId, total, n);
    VariantIdsAre(jobId, total, n);
    forall j, k | 0 <= j < k < |created| ensures created[j] != created[k] {
      VariantIdInjective(jobId, j, k, total);
    }
  }

  /** Distinct worktrees belong to distinct candidates. */
  lemma LaterDiffer(created: seq<Worktree>, cands: seq<Candidate>, i: nat)
    requires Lists(created, cands) && i < |cands|
    ensures forall k :: 0 <= k < |cands| && k != i ==> cands[k] != cands[i] && cands[k].ws != cands[i].ws
  {
  }

  lemma Apart(created: seq<Worktree>, cands: seq<Candidate>, c: Candidate, d: Candidate)
    requires Lists(created, cands) && c in cands && d in cands && c != d
    ensures c.ws.Some? && d.ws.Some? && c.ws.value != d.ws.value
  {
    var i :| 0 <= i < |cands| && cands[i] == c;
    LaterDiffer(created, cands, i);
  }

  /** The evidence holds the attempt's report exactly when its verification ran and passed. */
  ghost predicate Judged(cfg: Config, v: Evidence, c: Candidate)
    reads c
  {
    && c.ws.Some? && (c.err.None? && cfg.auto ==> c.report.results != [])
    && (c.ws.value in v.certified <==> c.err.None? && AllPassed(c.report))
    && (c.ws.value in v.certified ==> v.certified[c.ws.value] == c.report)
  }

  ghost predicate Certifies(cfg: Config, v: Evidence, c: Candidate)
    reads c
  {
    && c.ws.Some? && c.ws.value in v.certified && v.certified[c.ws.value] == c.report
    && (cfg.auto ==> c.report.results != [])
  }

  /** Alive, certified with its own report, and the first that is. */
  ghost predicate Wins(cfg: Config, created: seq<Worktree>, v: Evidence, c: Candidate)
    reads c
  {
    c.implErr.None? && Certifies(cfg, v, c) && Earliest(created, v, c.ws.value)
  }

  /** The first candidate that passed is the first that is alive and certified. */
  lemma FirstPassedWins(cfg: Config, created: seq<Worktree>, v: Evidence, cands: seq<Candidate>, best: Candidate)
    requires Lists(created, cands) && Tracks(v, cands)
    requires forall c :: c in cands && c.implErr.None? ==> Judged(cfg, v, c)
    requires exists k :: 0 <= k < |cands| && cands[k] == best && best.Passed()
                      && forall j :: 0 <= j < k ==> !cands[j].Passed()
    ensures Wins(cfg, created, v, best)
  {
    var k :| 0 <= k < |cands| && cands[k] == best && best.Passed() && forall j :: 0 <= j < k ==> !cands[j].Passed();
    assert best in cands;
    forall i, j | 0 <= j < i < |created| && created[i] == best.ws.value
      ensures created[j] !in v.certified || created[j] in v.implFailed
    {
      assert cands[j] in cands && created[k] == created[i];
    }
  }

  /** Verifying: certificates may come and go, and no panic gets out. */
  predicate OnlyCertified(a: Summary, b: Summary) {
    && OnlyStageWork(a, b) && b.checkouts == a.checkouts && Owns(a, b, true, false)
    && b.evidence == a.evidence.(certified := b.evidence.certified)
  }

  lemma CertifiedOn(a: Summary, b: Summary, c: Summary)
    requires OnlyCertified(a, b) && OnlyCertified(b, c)
    ensures OnlyCertified(a, c) && (b.signs.trouble ==> c.signs.trouble)
  {
  }

  lemma SameCheckouts(a: Summary, b: Summary)
    requires OnlyCertified(a, b)
    ensures b.checkouts == a.checkouts
  {
  }

  lemma NothingCertified(s: Summary)
    ensures OnlyCertified(s, s)
  {
  }

  lemma JudgedNow(cfg: Config, v: Evidence, c: Candidate)
    requires c.ws.Some? && (c.err.None? && cfg.auto ==> c.report.results != [])
    requires c.ws.value in v.certified <==> c.err.None? && AllPassed(c.report)
    requires c.ws.value in v.certified ==> v.certified[c.ws.value] == c.report
    ensures Judged(cfg, v, c)
  {
  }

  /** Verifying one attempt says nothing about another. */
  lemma JudgedStays(cfg: Config, before: Evidence, after: Evidence, ws: Worktree, other: Candidate)
    requires after.certified - {ws} == before.certified - {ws} && other.ws.Some? && other.ws.value != ws
    requires Judged(cfg, before, other)
    ensures Judged(cfg, after, other)
  {
    OthersKept(before.certified, after.certified, ws, other.ws.value);
  }

  /** If none passed, none is alive and certified. */
  lemma NonePassedMeans(cfg: Config, created: seq<Worktree>, v: Evidence, cands: seq<Candidate>)
    requires Lists(created, cands) && Tracks(v, cands)
    requires forall c :: c in cands && c.implErr.None? ==> Judged(cfg, v, c)
    requires forall c :: c in cands ==> !c.Passed()
    ensures NoneCertified(created, v)
  {
    forall ws | ws in created ensures ws !in v.certified || ws in v.implFailed {
      var k :| 0 <= k < |created| && created[k] == ws;
      assert cands[k] in cands;
    }
  }

  lemma OthersKept(before: map<Worktree, Report>, after: map<Worktree, Report>, ws: Worktree, other: Worktree)
    requires after - {ws} == before - {ws} && other != ws
    ensures other in after <==> other in before
    ensures other in after ==> after[other] == before[other]
  {
    assert other in after <==> other in after - {ws};
    assert other in before <==> other in before - {ws};
    if other in after {
      assert (after - {ws})[other] == (before - {ws})[other];
    }
  }

  const MAX_FEEDBACK_OUTPUT: nat := 4096

  function Truncate(s: string, max: nat): string {
    if |s| <= max then s else s[..max] + "\n... (truncated)"
  }

  /**
   * The decision is the reviewer's verdict and carries its notes; without a verdict it is an error,
   * or an approval of a patch nobody could read.
   */
  predicate Heeds(decision: Decision, v: Evidence, canRevise: bool) {
    match decision
    case Broken => true
    case Approved => v.blind || Answered(v, Approve)
    case Revise(notes) => canRevise && (notes == "" ==> v.mute) && Answered(v, RequestChanges) && notes == v.said
    case Rejected(err) =>
      match err
      case ReviewRejected(notes) => Answered(v, Reject) && notes == v.said
      case MaxRevisionsExceeded(notes) => !canRevise && Answered(v, RequestChanges) && notes == v.said
      case StageFailed(_) => v.review.None?
      case _ => false
  }

  /** What a failed check adds to the feedback. */
  function Block(res: Result): string {
    "\n--- " + res.check + " ---\n" + Truncate(res.output, MAX_FEEDBACK_OUTPUT) + "\n"
  }

  /** The failed checks of a report, in order; a passed one adds nothing. */
  function Blocks(results: seq<Result>): string {
    if results == [] then ""
    else
      var res := results[|results| - 1];
      Blocks(results[..|results| - 1]) + if res.passed then "" else Block(res)
  }

  lemma {:induction false} FailedChecksAreQuoted(results: seq<Result>, k: nat)
    requires k < |results| && !results[k].passed
    ensures Contains(Blocks(results), Block(results[k]))
  {
    var before, last := results[..|results| - 1], results[|results| - 1];
    if k < |before| {
      FailedChecksAreQuoted(before, k);
      ContainsMore(Blocks(before), Block(results[k]), "", if last.passed then "" else Block(last));
      assert "" + Blocks(before) == Blocks(before);
    } else {
      assert Blocks(results) == Blocks(before) + Block(last) + "";
    }
  }

  function Intro(): string {
    "The previous attempt failed verification: "
  }

  function Cause(): string {
    "\nThe verifier reported: "
  }

  function Request(): string {
    "\n\nFix the cause. Output from the failing checks:\n"
  }

  /** What stands before them. */
  function Opening(summary: string, failure: Option<string>): string {
    Intro() + summary + (if failure.Some? then Cause() + failure.value else "") + Request()
  }

  lemma Says(before: string, part: string, after: string)
    ensures Contains(before + part + after, part)
  {
  }

  lemma OpeningSays(summary: string, failure: Option<string>)
    ensures Contains(Opening(summary, failure), summary)
    ensures failure.Some? ==> Contains(Opening(summary, failure), failure.value)
  {
    hide Intro, Cause, Request, Contains;
    var mid := if failure.Some? then Cause() + failure.value else "";
    Says(Intro(), summary, mid + Request());
    assert Intro() + summary + mid + Request() == Intro() + summary + (mid + Request());
    if failure.Some? {
      Says(Intro() + summary + Cause(), failure.value, Request());
      assert Intro() + summary + mid + Request() == Intro() + summary + Cause() + failure.value + Request();
    }
  }

  lemma IntroIsSomething()
    ensures |Intro()| > 0
  {
  }

  lemma FeedbackSays(results: seq<Result>, summary: string, failure: Option<string>)
    ensures var text := Opening(summary, failure) + Blocks(results);
      && Contains(text, summary) && (failure.Some? ==> Contains(text, failure.value))
      && forall k :: 0 <= k < |results| && !results[k].passed ==> Contains(text, Block(results[k]))
  {
    hide Opening, Block, Contains;
    var opening, said := Opening(summary, failure), Blocks(results);
    OpeningSays(summary, failure);
    ContainsMore(opening, summary, "", said);
    assert "" + opening + said == opening + said;
    if failure.Some? {
      ContainsMore(opening, failure.value, "", said);
    }
    forall k | 0 <= k < |results| && !results[k].passed ensures Contains(opening + said, Block(results[k])) {
      FailedChecksAreQuoted(results, k);
      ContainsMore(said, Block(results[k]), opening, "");
      assert opening + said + "" == opening + said;
    }
  }

  /**
   * What a failed gate tells the implementor: the summary, why the attempt failed if that is known,
   * and the output of every failed check, and of no other. It is never empty.
   */
  method GateFeedback(report: Report, summary: string, failure: Option<string>) returns (text: string)
    ensures text != "" && Contains(text, summary)
    ensures failure.Some? ==> Contains(text, failure.value)
    ensures forall k :: 0 <= k < |report.results| && !report.results[k].passed ==>
      Contains(text, Block(report.results[k]))
    ensures text == Opening(summary, failure) + Blocks(report.results)
  {
    hide Contains, Intro, Cause, Request, Block;
    text := Intro() + summary;
    if failure.Some? {
      text := text + (Cause() + failure.value);
    }
    text := text + Request();
    assert failure.None? ==> Intro() + summary + "" == Intro() + summary;
    ghost var opening := text;
    assert opening == Opening(summary, failure);
    for i := 0 to |report.results|
      invariant text == opening + Blocks(report.results[..i])
    {
      assert report.results[..i + 1][..i] == report.results[..i];
      var res := report.results[i];
      if !res.passed {
        text := text + Block(res);
        assert text == opening + (Blocks(report.results[..i]) + Block(res));
      }
    }
    assert report.results[..|report.results|] == report.results;
    FeedbackSays(report.results, summary, failure);
    IntroIsSomething();
  }

  class Processor {
    const cfg: Config
    const summary: Report -> string
    const describe: Error -> string

    constructor (cfg: Config, summary: Report -> string, describe: Error -> string)
      ensures this.cfg == cfg
    {
      this.cfg, this.summary, this.describe := cfg, summary, describe;
    }

    method Emit(w: Environment, kind: EventKind) returns (panicked: bool)
      modifies w`trace, w`context
      ensures ContextMoves(old(w.context), w.context)
      ensures !Ends(kind) || !cfg.bus ==> w.Sum() == old(w.Sum()).(signs := Struck(old(w.Sum()).signs, panicked))
      ensures !cfg.bus ==> !panicked
      ensures Ends(kind) && cfg.bus ==>
        w.Sum() == Record(old(w.Sum()), Published(kind, if panicked then Panicked else Ok))
    {
      if !cfg.bus {
        return false;
      }
      var out := w.Publish(kind);
      return out.Panicked?;
    }

    method Advance(w: Environment, job: Job, next: Status) returns (flow: Flow)
      modifies job, w`trace, w`context, w`stored
      ensures ContextMoves(old(w.context), w.context)
      ensures flow.Fail? ==>
        flow.err == (if CanTransition(old(job.status), next) then NotPersisted(next)
                     else IllegalTransition(job.status, next))
      ensures !CanTransition(old(job.status), next) ==>
        && flow.Fail? && job.status == old(job.status) && w.stored == old(w.stored)
        && w.Sum() == Record(old(w.Sum()), Refused(job.status, next))
      ensures CanTransition(old(job.status), next) ==>
        var out := if flow.Next? then Ok else if flow.Fail? then Err else Panicked;
        && job.status == next && w.stored == (if out.Ok? then next else old(w.stored))
        && w.Sum() == Record(old(w.Sum()), Wrote(next, out))
    {
      var ok := job.Transition(next);
      if !ok {
        w.Refuse(job.status, next);
        return Fail(IllegalTransition(job.status, next));
      }
      var out := w.Write(next);
      match out
      case Ok => flow := Next;
      case Err => flow := Fail(NotPersisted(next));
      case Panicked => flow := Unwind;
    }

    /** Takes a job to failed; one that has already ended is left as it is. */
    method MarkFailed(w: Environment, job: Job, cause: Error) returns (exit: Exit)
      modifies job, w`trace, w`context, w`stored
      ensures ContextMoves(old(w.context), w.context)
      ensures exit.Returned? ==> exit.err.Some? && exit.err.value.cause == cause
      ensures Terminal(old(job.status)) ==>
        && w.Sum() == Record(old(w.Sum()), Refused(job.status, Failed)) && exit.Returned?
        && exit.err.value.joined == Some(IllegalTransition(job.status, Failed))
        && job.status == old(job.status) && w.stored == old(w.stored)
      ensures !Terminal(old(job.status)) ==>
        && job.status == Failed && (exit.Unwinding? ==> w.Sum().life.spoiled && w.Sum().signs.panicked)
        && (exit.Returned? ==>
             if exit.err.value.joined.None? then w.stored == Failed
             else
               && exit.err.value.joined == Some(NotPersisted(Failed))
               && w.stored == old(w.stored) && w.Sum().life.spoiled)
        && EndedAs(old(w.Sum()), w.Sum(), old(w.stored), w.stored, Failed, JobFailed, cfg.bus)
    {
      hide Summarise;
      TerminalIsFinal(job.status);
      var ok := job.Transition(Failed);
      if !ok {
        w.Refuse(job.status, Failed);
        return Returned(Some(Failure(cause, Some(IllegalTransition(job.status, Failed)))));
      }
      exit := Unwinding;
      var panicked := Emit(w, JobFailed);
      if !panicked {
        var out := w.Write(Failed);
        match out
        case Ok => exit := Returned(Some(Failure(cause, None)));
        case Err => exit := Returned(Some(Failure(cause, Some(NotPersisted(Failed)))));
        case Panicked =>
      }
    }

    method MarkCancelled(w: Environment, job: Job) returns (exit: Exit)
      modifies job, w`trace, w`context, w`stored
      ensures ContextMoves(old(w.context), w.context)
      ensures RealFailure(exit)
      ensures Terminal(old(job.status)) ==>
        && w.Sum() == Record(old(w.Sum()), Refused(job.status, Cancelled))
        && exit == Returned(Some(Failure(IllegalTransition(job.status, Cancelled), None)))
        && job.status == old(job.status) && w.stored == old(w.stored)
      ensures !Terminal(old(job.status)) ==>
        && job.status == Cancelled && (exit == Returned(None) ==> w.stored == Cancelled)
        && (exit.Unwinding? ==> w.Sum().life.spoiled && w.Sum().signs.panicked)
        && (exit.Returned? && exit.err.Some? ==> w.Sum().signs.fatal)
        && (exit.Returned? ==> exit in {Returned(None), Returned(Some(Failure(NotPersisted(Cancelled), None)))})
        && EndedAs(old(w.Sum()), w.Sum(), old(w.stored), w.stored, Cancelled, JobCancelled, cfg.bus)
    {
      TerminalIsFinal(job.status);
      var ok := job.Transition(Cancelled);
      if !ok {
        w.Refuse(job.status, Cancelled);
        return Returned(Some(Failure(IllegalTransition(job.status, Cancelled), None)));
      }
      exit := Unwinding;
      var panicked := Emit(w, JobCancelled);
      if !panicked {
        var out := w.Write(Cancelled);
        match out
        case Ok => exit := Returned(None);
        case Err => exit := Returned(Some(Failure(NotPersisted(Cancelled), None)));
        case Panicked =>
      }
    }

    // ---- The stages ------------------------------------------------------------

    /** Selection is best effort; only the planner itself can fail the job. */
    method Plan(w: Environment) returns (flow: Flow)
      modifies w`trace, w`context
      ensures ContextMoves(old(w.context), w.context)
      ensures w.Sum() == old(w.Sum()).(evidence := old(w.Sum()).evidence.(planned := w.Sum().evidence.planned),
                                       signs := w.Sum().signs)
      ensures Owns(old(w.Sum()), w.Sum(), flow.Next?, flow.Unwind?)
      ensures flow.Fail? ==> flow.err.StageFailed? && w.Sum().signs.fatal
      ensures flow.Next? ==> w.Sum().evidence.planned
      ensures flow.Fail? ==> RealCause(flow.err)
    {
      if cfg.selector {
        var selected := w.Select();
        if selected.Panicked? {
          return Unwind;
        }
      }
      var out := w.Plan();
      match out
      case Err => return Fail(StageFailed("plan job"));
      case Panicked => return Unwind;
      case Ok =>
        var p := Emit(w, PlanCreated);
        return if p then Unwind else Next;
    }

    method CreateOne(w: Environment, id: Worktree, index: nat) returns (c: Candidate?, flow: Flow)
      modifies w`trace, w`context, w`trees
      ensures ContextMoves(old(w.context), w.context)
      ensures flow.Fail? ==> flow.err.StageFailed?
      ensures flow.Next? <==> c != null
      ensures c != null ==> fresh(c) && c.ws == Some(id) && c.implErr.None?
      ensures var before := old(w.Sum());
        w.Sum() == before.(checkouts := before.checkouts.(
          created := if flow.Next? then before.checkouts.created + [id] else before.checkouts.created,
          createPanicked := before.checkouts.createPanicked || flow.Unwind?),
                         signs := Marked(before.signs, flow))
    {
      var out := w.Create(id);
      c := null;
      match out
      case Ok =>
        c := new Candidate(index, Some(id));
        flow := Next;
      case Err => flow := Fail(StageFailed("prepare workspaces"));
      case Panicked => flow := Unwind;
    }

    method CreateCandidates(w: Environment, jobId: string, total: nat) returns (cands: seq<Candidate>, flow: Flow)
      requires total <= MAX_VARIANTS
      requires w.Sum().checkouts.created == [] && !w.Sum().checkouts.createPanicked
      requires w.Sum().evidence.implFailed == {}
      modifies w`trace, w`context, w`trees
      ensures ContextMoves(old(w.context), w.context)
      ensures w.Sum() == old(w.Sum()).(checkouts :=
        old(w.Sum()).checkouts.(created := w.Sum().checkouts.created, createPanicked := flow.Unwind?),
                                      signs := Marked(old(w.Sum()).signs, flow))
      ensures forall c :: c in cands ==> fresh(c) && c.implErr.None?
      ensures Lists(w.Sum().checkouts.created, cands)
      ensures WellNamed(jobId, total, w.Sum().checkouts.created)
      ensures flow.Next? ==> |cands| == total
      ensures flow.Fail? ==> |cands| < total && flow.err.StageFailed?
    {
      hide VariantId, Summarise;
      cands, flow := [], Next;
      ghost var before := w.Sum();
      ghost var created: seq<Worktree> := [];
      while |cands| < total && flow.Next?
        invariant ContextMoves(old(w.context), w.context)
        invariant w.Sum() == before.(checkouts := before.checkouts.(created := created, createPanicked := flow.Unwind?),
                                     signs := Marked(before.signs, flow))
        invariant |cands| == |created| <= total && (flow.Fail? ==> |cands| < total && flow.err.StageFailed?)
        invariant created == VariantIds(jobId, total, |cands|)
        invariant forall c :: c in cands ==> fresh(c) && c.implErr.None?
        invariant forall k :: 0 <= k < |cands| ==> cands[k].ws == Some(created[k])
        decreases total - |cands|, flow.Next?
      {
        var id := VariantId(jobId, |cands|, total);
        var c;
        c, flow := CreateOne(w, id, |cands|);
        if c != null {
          cands, created := cands + [c], created + [id];
        }
      }
      DistinctVariants(jobId, total, |cands|);
    }

    /** A panic in Create leaves the caller without the candidates made before it. */
    method Prepare(w: Environment, jobId: string) returns (cands: seq<Candidate>, flow: Flow)
      requires w.Sum().checkouts.created == [] && !w.Sum().checkouts.createPanicked
      requires w.Sum().evidence.implFailed == {}
      modifies w`trace, w`context, w`trees
      ensures ContextMoves(old(w.context), w.context)
      ensures w.Sum() == old(w.Sum()).(checkouts :=
        old(w.Sum()).checkouts.(created := w.Sum().checkouts.created,
                                createPanicked := w.Sum().checkouts.createPanicked),
                                      signs := w.Sum().signs)
      ensures Owns(old(w.Sum()), w.Sum(), flow.Next?, flow.Unwind?)
      ensures forall c :: c in cands ==> fresh(c) && c.implErr.None?
      ensures !w.Sum().checkouts.createPanicked ==> Lists(w.Sum().checkouts.created, cands)
      ensures w.Sum().checkouts.createPanicked ==> cands == [] && flow.Unwind?
      ensures WellNamed(jobId, VariantCount(cfg.variants), w.Sum().checkouts.created)
      ensures flow.Next? ==> |cands| == VariantCount(cfg.variants)
      ensures flow.Fail? ==> flow.err.StageFailed? && w.Sum().signs.fatal
    {
      cands, flow := CreateCandidates(w, jobId, VariantCount(cfg.variants));
      if flow.Unwind? {
        return [], Unwind;
      }
      if flow.Next? {
        ghost var made := w.Sum();
        for i := 0 to |cands|
          invariant ContextMoves(old(w.context), w.context)
          invariant w.Sum() == made
          invariant forall c :: c in cands ==> c.implErr.None?
        {
          var p := Emit(w, WorkspaceCreated);
          if p {
            return cands, Unwind;
          }
        }
      }
    }

    /** One attempt's turn: skipped when a revision has nothing of it to correct. */
    method ImplementOne(w: Environment, c: Candidate, feedback: string) returns (turn: Turn)
      modifies w`trace, w`context, w`trees, c
      ensures ContextMoves(old(w.context), w.context)
      ensures OnlyStageWork(old(w.Sum()), w.Sum())
      ensures c.implErr == if turn.Stuck? then Some(turn.err) else old(c.implErr)
      ensures turn.Stuck? ==> c.ws.Some?
      ensures turn.Stuck? ==> w.Sum().evidence.implFailed == old(w.Sum()).evidence.implFailed + {c.ws.value}
      ensures !turn.Stuck? ==> w.Sum().evidence.implFailed == old(w.Sum()).evidence.implFailed
      ensures turn.Skipped? <==> c.ws.None? || (feedback != "" && old(c.implErr).Some?)
      ensures old(w.Sum()).evidence.applied <= w.Sum().evidence.applied
      ensures turn.Changed? ==> c.ws.value in w.Sum().evidence.applied
      ensures turn.Changed? ==> w.Sum().evidence.changed == old(w.Sum()).evidence.changed + {c.ws.value}
      ensures turn.Skipped? || turn.Stuck? ==> w.Sum().evidence.changed == old(w.Sum()).evidence.changed
      ensures Owns(old(w.Sum()), w.Sum(), !turn.Stuck? && !turn.Blown?, turn.Blown?)
      ensures w.Sum().evidence.planned == old(w.Sum()).evidence.planned
        && w.Sum().evidence.mute == old(w.Sum()).evidence.mute
    {
      hide Summarise;
      if c.ws.None? || (feedback != "" && c.implErr.Some?) {
        return Skipped;
      }
      var ws := c.ws.value;
      var stage := "propose changes";
      var out := w.Propose(ws);
      if out.Ok? {
        stage := "apply changes";
        out := w.Apply(ws);
      }
      match out
      case Panicked => return Blown;
      case Err =>
        turn := Stuck(StageFailed(stage));
        c.implErr := Some(turn.err);
      case Ok =>
        var p := Emit(w, ImplementationCompleted);
        turn := if p then Blown else Changed;
    }

    /** The turn of attempt `i` among the others. */
    method ImplementAt(w: Environment, cands: seq<Candidate>, i: nat, feedback: string) returns (turn: Turn)
      requires i < |cands| && w.Sum().checkouts.cleaned == []
      requires Lists(w.Sum().checkouts.created, cands) && Tracks(w.Sum().evidence, cands)
      modifies w`trace, w`context, w`trees, cands[i]
      ensures ContextMoves(old(w.context), w.context)
      ensures OnlyStageWork(old(w.Sum()), w.Sum())
      ensures Tracks(w.Sum().evidence, cands)
      ensures cands[i].implErr == if turn.Stuck? then Some(turn.err) else old(cands[i].implErr)
      ensures forall k :: 0 <= k < |cands| && k != i ==> cands[k].implErr == old(cands[k].implErr)
      ensures turn.Skipped? <==> !Asked(old(cands[i].implErr).Some?, feedback)
      ensures old(w.Sum()).evidence.applied <= w.Sum().evidence.applied
      ensures turn.Changed? ==> cands[i].ws.value in w.Sum().evidence.applied
      ensures turn.Changed? ==> w.Sum().evidence.changed == old(w.Sum()).evidence.changed + {cands[i].ws.value}
      ensures turn.Skipped? || turn.Stuck? ==> w.Sum().evidence.changed == old(w.Sum()).evidence.changed
      ensures Owns(old(w.Sum()), w.Sum(), !turn.Stuck? && !turn.Blown?, turn.Blown?)
      ensures w.Sum().evidence.planned == old(w.Sum()).evidence.planned
        && w.Sum().evidence.mute == old(w.Sum()).evidence.mute
    {
      LaterDiffer(w.Sum().checkouts.created, cands, i);
      assert cands[i] in cands;
      turn := ImplementOne(w, cands[i], feedback);
    }

    /** The turn of every attempt: how many worked, and the last error if one failed. */
    method ImplementAll(w: Environment, cands: seq<Candidate>, feedback: string)
      returns (implemented: nat, lastErr: Option<Error>, blown: bool, ghost works: seq<bool>)
      requires w.Sum().checkouts.cleaned == [] && w.Sum().evidence.changed == {}
      requires Lists(w.Sum().checkouts.created, cands) && Tracks(w.Sum().evidence, cands)
      modifies w`trace, w`context, w`trees, cands
      ensures ContextMoves(old(w.context), w.context)
      ensures OnlyStageWork(old(w.Sum()), w.Sum())
      ensures Tracks(w.Sum().evidence, cands)
      ensures w.Sum().evidence.planned == old(w.Sum()).evidence.planned
        && w.Sum().evidence.mute == old(w.Sum()).evidence.mute
      ensures Owns(old(w.Sum()), w.Sum(), !blown && lastErr.None?, blown)
      ensures !blown ==> w.Sum().evidence.changed <= w.Sum().evidence.applied
      ensures !blown ==>
        && |works| == |cands|
        && forall k :: 0 <= k < |cands| ==>
          && (works[k] <==> cands[k].ws.value in w.Sum().evidence.changed)
          && (works[k] ==> Asked(old(cands[k].implErr).Some?, feedback))
          && (cands[k].implErr.Some? <==> DeadAfter(old(cands[k].implErr).Some?, works[k]))
      ensures !blown ==> (implemented > 0 <==> exists k :: 0 <= k < |cands| && works[k])
      ensures !blown && implemented == 0 ==> w.Sum().evidence.changed == {}
      ensures !blown && implemented == 0 && lastErr.None? ==>
        forall k :: 0 <= k < |cands| ==> old(cands[k].implErr).Some?
    {
      hide OnlyStageWork, Tracks, Summarise;
      implemented, lastErr, blown, works := 0, None, false, [];
      ghost var before := w.Sum();
      SameStage(before, before);
      for i := 0 to |cands|
        invariant ContextMoves(old(w.context), w.context)
        invariant OnlyStageWork(before, w.Sum()) && w.Sum().checkouts == before.checkouts
        invariant Tracks(w.Sum().evidence, cands)
        invariant !blown && |works| == i
        invariant forall k :: i <= k < |cands| ==> cands[k].implErr == old(cands[k].implErr)
        invariant forall k :: 0 <= k < |cands| ==>
          (cands[k].ws.value in w.Sum().evidence.changed <==> k < i && works[k])
        invariant forall k :: 0 <= k < i ==>
          && (cands[k].implErr.Some? <==> DeadAfter(old(cands[k].implErr).Some?, works[k]))
          && (works[k] ==> Asked(old(cands[k].implErr).Some?, feedback))
        invariant w.Sum().evidence.changed <= w.Sum().evidence.applied
        invariant implemented > 0 <==> exists k :: 0 <= k < i && works[k]
        invariant implemented == 0 ==> w.Sum().evidence.changed == {}
        invariant Owns(before, w.Sum(), lastErr.None?, false)
        invariant implemented == 0 && lastErr.None? ==> forall k :: 0 <= k < i ==> old(cands[k].implErr).Some?
        invariant w.Sum().evidence.planned == before.evidence.planned && w.Sum().evidence.mute == before.evidence.mute
      {
        ghost var now := w.Sum();
        assert cands[i] in cands;
        var turn := ImplementAt(w, cands, i, feedback);
        SameStage(now, w.Sum());
        StageThenStage(before, now, w.Sum());
        works := works + [turn.Changed?];
        match turn
        case Skipped =>
        case Blown =>
          blown := true;
          return;
        case Stuck(err) => lastErr := Some(err);
        case Changed => implemented := implemented + 1;
      }
    }

    /**
     * Asks for changes and writes them into every attempt that is not already dead. It fails exactly
     * when no attempt had a proposal applied to it in full: one unlucky attempt does not sink the rest.
     */
    method Implement(w: Environment, cands: seq<Candidate>, feedback: string)
      returns (flow: Flow, ghost works: seq<bool>)
      requires w.Sum().checkouts.cleaned == [] && w.Sum().evidence.changed == {}
      requires Lists(w.Sum().checkouts.created, cands) && Tracks(w.Sum().evidence, cands)
      modifies w`trace, w`context, w`trees, cands
      ensures ContextMoves(old(w.context), w.context)
      ensures OnlyStageWork(old(w.Sum()), w.Sum())
      ensures Tracks(w.Sum().evidence, cands)
      ensures w.Sum().evidence.planned == old(w.Sum()).evidence.planned
        && w.Sum().evidence.mute == old(w.Sum()).evidence.mute
      ensures Owns(old(w.Sum()), w.Sum(), !flow.Unwind?, flow.Unwind?)
      ensures !flow.Unwind? ==>
        && |works| == |cands|
        && forall k :: 0 <= k < |cands| ==>
          && (works[k] <==> cands[k].ws.value in w.Sum().evidence.changed)
          && (works[k] ==> Asked(old(cands[k].implErr).Some?, feedback))
          && (cands[k].implErr.Some? <==> DeadAfter(old(cands[k].implErr).Some?, works[k]))
      ensures !flow.Unwind? ==> (flow.Next? <==> exists k :: 0 <= k < |cands| && works[k])
      ensures flow.Fail? ==> flow.err.NotImplemented? && w.Sum().evidence.changed == {}
      ensures flow.Fail? && old(SomeLive(cands)) ==> RealCause(flow.err) && w.Sum().signs.trouble
      ensures flow.Next? && (feedback != "" || old(AllLive(cands))) ==> SomeLive(cands)
      ensures flow.Next? ==> Worked(w.Sum().evidence, cands)
    {
      hide OnlyStageWork, Tracks;
      var implemented, lastErr, blown;
      implemented, lastErr, blown, works := ImplementAll(w, cands, feedback);
      flow := if blown then Unwind else if implemented == 0 then Fail(NotImplemented(lastErr)) else Next;
    }

    /** The attempt was verified without an error, and everything passed. */
    static predicate Clean(c: Candidate)
      reads c
    {
      c.err.None? && AllPassed(c.report)
    }

    /** One goroutine of the gate: a panic is caught and touches only this attempt. */
    method VerifyOne(w: Environment, c: Candidate)
      requires c.ws.Some?
      modifies w`trace, w`context, w`trees, c`report, c`err
      ensures ContextMoves(old(w.context), w.context)
      ensures OnlyStageWork(old(w.Sum()), w.Sum())
      ensures Owns(old(w.Sum()), w.Sum(), Clean(c), false)
      ensures c.err.None? && cfg.auto ==> c.report.results != []
      ensures var certified := w.Sum().evidence.certified;
        && w.Sum().evidence == old(w.Sum()).evidence.(certified := certified)
        && (c.ws.value in certified <==> c.err.None? && AllPassed(c.report))
        && (c.ws.value in certified ==> certified[c.ws.value] == c.report)
        && certified - {c.ws.value} == old(w.Sum()).evidence.certified - {c.ws.value}
    {
      var report, out := w.Verify(c.ws.value, cfg.auto);
      match out
      case Panicked =>
        c.err := Some(Panic);
      case Err =>
        c.report, c.err := report, Some(StageFailed("verify"));
      case Ok =>
        c.report, c.err := report, None;
    }

    /** One more attempt is judged, and what was judged before stands. */
    method VerifyNext(w: Environment, cands: seq<Candidate>, c: Candidate, ghost judged: set<Candidate>)
      requires w.Sum().checkouts.cleaned == [] && Lists(w.Sum().checkouts.created, cands)
      requires c in cands && c !in judged && forall d :: d in judged ==> d in cands && Judged(cfg, w.Sum().evidence, d)
      modifies w`trace, w`context, w`trees, c`report, c`err
      ensures ContextMoves(old(w.context), w.context)
      ensures OnlyCertified(old(w.Sum()), w.Sum()) && (!Clean(c) ==> w.Sum().signs.trouble)
      ensures forall d :: d in judged + {c} ==> Judged(cfg, w.Sum().evidence, d)
    {
      hide Judged, AllPassed, OnlyStageWork, Summarise;
      ghost var before := w.Sum();
      var k :| 0 <= k < |cands| && cands[k] == c;
      VerifyOne(w, c);
      SameStage(before, w.Sum());
      JudgedNow(cfg, w.Sum().evidence, c);
      forall d | d in judged ensures Judged(cfg, w.Sum().evidence, d) {
        Apart(w.Sum().checkouts.created, cands, c, d);
        JudgedStays(cfg, before.evidence, w.Sum().evidence, c.ws.value, d);
      }
    }

    /** Checks every implemented attempt; the attempts finish in any order. */
    method VerifyCandidates(w: Environment, cands: seq<Candidate>)
      requires w.Sum().checkouts.cleaned == []
      requires Lists(w.Sum().checkouts.created, cands)
      modifies w`trace, w`context, w`trees, cands`report, cands`err
      ensures ContextMoves(old(w.context), w.context)
      ensures OnlyCertified(old(w.Sum()), w.Sum())
      ensures forall c :: c in cands && c.implErr.Some? ==> c.report == old(c.report) && c.err == old(c.err)
      ensures forall c :: c in cands && c.implErr.None? ==> Judged(cfg, w.Sum().evidence, c)
      ensures forall c :: c in cands && c.implErr.None? && !Clean(c) ==> w.Sum().signs.trouble
    {
      hide Judged, Clean, AllPassed, OnlyCertified, Summarise;
      ghost var start := w.Sum();
      NothingCertified(start);
      var pending := set c | c in cands && c.Implemented();
      ghost var judged: set<Candidate> := {};
      while pending != {}
        invariant pending !! judged
        invariant forall c :: c in cands ==> (c.implErr.None? <==> c in pending + judged)
        invariant forall c :: c in pending + judged ==> c in cands
        invariant ContextMoves(old(w.context), w.context)
        invariant OnlyCertified(start, w.Sum()) && w.Sum().checkouts == start.checkouts
        invariant forall c :: c in cands && c !in judged ==> c.report == old(c.report) && c.err == old(c.err)
        invariant forall c :: c in judged ==> Judged(cfg, w.Sum().evidence, c)
        invariant forall c :: c in judged && !Clean(c) ==> w.Sum().signs.trouble
        decreases pending
      {
        var c :| c in pending;
        assert c in cands;
        ghost var before := w.Sum();
        VerifyNext(w, cands, c, judged);
        CertifiedOn(start, before, w.Sum());
        SameCheckouts(start, w.Sum());
        pending, judged := pending - {c}, judged + {c};
      }
    }

    /** The events of a finished gate. */
    method AnnounceReports(w: Environment, n: nat) returns (panicked: bool)
      modifies w`trace, w`context
      ensures ContextMoves(old(w.context), w.context) 
      ensures w.Sum() == old(w.Sum()).(signs := Struck(old(w.Sum()).signs, panicked))
    {
      for i := 0 to n
        invariant ContextMoves(old(w.context), w.context) && w.Sum() == old(w.Sum())
      {
        var p := Emit(w, VerificationCompleted);
        if p {
          return true;
        }
      }
      panicked := false;
    }

    /** A gate that nobody passed has seen a check fail, or an attempt that could not be implemented. */
    lemma SomethingFailed(w: Environment, cands: seq<Candidate>)
      requires cands != [] && Tracks(w.Sum().evidence, cands) && forall c :: c in cands ==> !c.Passed()
      requires forall c :: c in cands && c.implErr.None? && !Clean(c) ==> w.Sum().signs.trouble
      ensures w.Sum().signs.trouble
    {
      var c := cands[0];
      assert c in cands;
      if !w.Sum().signs.trouble {
        QuietMeans(w.trace);
      }
    }

    /** The lowest-indexed attempt that passed, or one to show for a gate that nobody passed. */
    method Choose(w: Environment, cands: seq<Candidate>)
      returns (best: Candidate?, gateErr: Option<Error>, panicked: bool)
      requires cands != [] && Lists(w.Sum().checkouts.created, cands) && Tracks(w.Sum().evidence, cands)
      requires forall c :: c in cands && c.implErr.None? ==> Judged(cfg, w.Sum().evidence, c)
      requires forall c :: c in cands && c.implErr.None? && !Clean(c) ==> w.Sum().signs.trouble
      modifies w`trace, w`context
      ensures ContextMoves(old(w.context), w.context)
      ensures w.Sum() == old(w.Sum()).(signs := Struck(old(w.Sum()).signs, panicked))
      ensures best != null && best in cands
      ensures gateErr.None? ==> Wins(cfg, w.Sum().checkouts.created, w.Sum().evidence, best)
      ensures gateErr.Some? ==>
        && gateErr.value == NonePassed(|cands|, |cands|) && Represents(cands, best)
        && NoneCertified(w.Sum().checkouts.created, w.Sum().evidence) && w.Sum().signs.trouble
    {
      hide NoneCertified, Judged, Wins, Represents, Lists, Tracks;
      gateErr, panicked := None, false;
      best := SelectWinner(cands);
      if best != null {
        FirstPassedWins(cfg, w.Sum().checkouts.created, w.Sum().evidence, cands, best);
      } else {
        NonePassedMeans(cfg, w.Sum().checkouts.created, w.Sum().evidence, cands);
        SomethingFailed(w, cands);
      }
      var passed := Passing(cands);
      if |cands| > 1 {
        panicked := Emit(w, FanoutCompleted);
      }
      if best == null {
        best := Representative(cands);
        RepresentsOne(cands, best);
        gateErr := Some(NonePassed(|cands| - passed, |cands|));
      }
    }

    /** Names the attempt that stands for the job, and why the gate rejects it if nothing passed. */
    method VerifyStage(w: Environment, cands: seq<Candidate>)
      returns (best: Candidate?, gateErr: Option<Error>, panicked: bool)
      requires cands != [] && w.Sum().checkouts.cleaned == []
      requires Lists(w.Sum().checkouts.created, cands) && Tracks(w.Sum().evidence, cands)
      modifies w`trace, w`context, w`trees, cands
      ensures ContextMoves(old(w.context), w.context)
      ensures OnlyStageWork(old(w.Sum()), w.Sum())
      ensures w.Sum().evidence == old(w.Sum()).evidence.(certified := w.Sum().evidence.certified)
      ensures forall c :: c in cands ==> c.implErr == old(c.implErr)
      ensures !panicked ==> best != null && best in cands
      ensures !panicked && gateErr.None? && cfg.verifier ==>
        Wins(cfg, w.Sum().checkouts.created, w.Sum().evidence, best)
      ensures !panicked && !cfg.verifier && best.implErr.Some? ==> !SomeLive(cands)
      ensures !panicked && (gateErr.Some? || !cfg.verifier) ==> Represents(cands, best)
      ensures gateErr.Some? ==>
        && cfg.verifier && gateErr.value == NonePassed(|cands|, |cands|)
        && NoneCertified(w.Sum().checkouts.created, w.Sum().evidence)
      ensures Owns(old(w.Sum()), w.Sum(), !panicked && gateErr.None?, panicked)
    {
      hide NoneCertified, Judged, Wins;
      gateErr, panicked := None, false;
      if !cfg.verifier {
        best := Representative(cands);
      } else {
        VerifyCandidates(w, cands);
        best := null;
        panicked := AnnounceReports(w, |cands|);
        if !panicked {
          best, gateErr, panicked := Choose(w, cands);
        }
      }
    }

    /** Stores the attempt's patch; never fails the job. */
    method CaptureDiff(w: Environment, c: Candidate?) returns (panicked: bool)
      requires w.Sum().evidence.capture.Untried?
      modifies w`trace, w`context, w`artifact
      ensures ContextMoves(old(w.context), w.context)
      ensures OnlyStageWork(old(w.Sum()), w.Sum()) && Owns(old(w.Sum()), w.Sum(), !panicked, panicked)
      ensures w.Sum().evidence
           == old(w.Sum()).evidence.(capture := w.Sum().evidence.capture, blind := w.Sum().evidence.blind)
      ensures !panicked && c != null && c.ws.Some? ==>
        Captured(cfg, w.Sum().evidence.capture, PatchOf(w.diffOf, w.trees, c.ws.value), w.artifact)
    {
      hide Record, Summarise;
      if !cfg.artifacts || !cfg.workspaces || c == null || c.ws.None? {
        return false;
      }
      var patch, out := w.Diff(c.ws.value);
      DiffRecords(old(w.Sum()), c.ws.value, patch, out);
      DiffIsCapture(old(w.Sum()), c.ws.value, patch, out);
      ghost var diffed := w.Sum();
      if !out.Ok? {
        return out.Panicked?;
      }
      if Blank(patch) {
        panicked := Emit(w, DiffCaptured);
        return panicked;
      }
      out := w.Save(patch);
      SaveRecords(diffed, patch, out);
      if !out.Ok? {
        return out.Panicked?;
      }
      panicked := Emit(w, DiffCaptured);
    }

    /** What a failed gate has to say about an attempt. */
    function Feedback(best: Candidate): string
      reads best
    {
      var failure := best.Failure();
      Opening(summary(best.report), if failure.None? then None else Some(describe(failure.value)))
      + Blocks(best.report.results)
    }

    /** Decides the job's fate after the gate; the caller always has an attempt to show. */
    method Review(w: Environment, best: Candidate, gateErr: Option<Error>, canRevise: bool)
      returns (decision: Decision)
      requires best.ws.Some? && (gateErr.Some? ==> RealCause(gateErr.value))
      modifies w`trace, w`context
      ensures ContextMoves(old(w.context), w.context)
      ensures OnlyStageWork(old(w.Sum()), w.Sum())
      ensures OnlyReviewed(old(w.Sum()).evidence, w.Sum().evidence)
      ensures gateErr.Some? ==>
        && w.Sum() == old(w.Sum()) && !decision.Approved? && !decision.Broken?
        && (decision.Revise? <==> canRevise && !(best.err.Some? && best.report.results == []))
      ensures decision.Approved? && cfg.reviewer && !w.Sum().evidence.blind ==>
        && best.ws.value in w.trees
        && w.Sum().evidence.review == Some(Seen(w.diffOf(w.trees[best.ws.value]), best.report, Approve))
      ensures decision.Revise? ==> canRevise
      ensures decision.Revise? && gateErr.Some? ==> decision.notes != ""
      ensures decision.Rejected? ==> RealCause(decision.err)
      ensures !cfg.reviewer ==> w.Sum() == old(w.Sum()) && (gateErr.None? ==> decision.Approved?)
      ensures gateErr.None? && cfg.reviewer ==> Heeds(decision, w.Sum().evidence, canRevise)
      ensures gateErr.None? ==> Owns(old(w.Sum()), w.Sum(), decision.Approved?, decision.Broken?)
      ensures gateErr.None? && decision.Rejected? && decision.err.StageFailed? ==> w.Sum().signs.fatal
      ensures gateErr.Some? && decision.Revise? ==> decision.notes == Feedback(best)
      ensures gateErr.Some? && decision.Rejected? ==>
        decision.err == (if CouldNotRun(best) then CouldNotVerify(best.Failure()) else gateErr.value)
    {
      hide Summarise;
      if gateErr.Some? {
        if best.err.Some? && |best.report.results| == 0 {
          return Rejected(CouldNotVerify(best.Failure()));
        }
        if !canRevise {
          return Rejected(gateErr.value);
        }
        var failure := best.Failure();
        var why := if failure.None? then None else Some(describe(failure.value));
        var text := GateFeedback(best.report, summary(best.report), why);
        return Revise(text);
      }
      if !cfg.reviewer {
        return Approved;
      }
      decision := AskReviewer(w, best, canRevise);
    }

    /** Shows the reviewer the patch, and turns its verdict into a decision. */
    method HearReviewer(w: Environment, best: Candidate, patch: Patch, canRevise: bool) returns (decision: Decision)
      modifies w`trace, w`context
      ensures ContextMoves(old(w.context), w.context)
      ensures OnlyStageWork(old(w.Sum()), w.Sum()) && OnlyReviewed(old(w.Sum()).evidence, w.Sum().evidence)
      ensures decision.Approved? ==> w.Sum().evidence.review == Some(Seen(patch, best.report, Approve))
      ensures w.Sum().evidence.blind == old(w.Sum()).evidence.blind
      ensures decision.Rejected? ==> RealCause(decision.err)
      ensures Owns(old(w.Sum()), w.Sum(), decision.Approved?, decision.Broken?)
      ensures decision.Rejected? && decision.err.StageFailed? ==> w.Sum().signs.fatal
      ensures Heeds(decision, w.Sum().evidence, canRevise)
    {
      hide OnlyStageWork, OnlyReviewed, Record;
      decision := Broken;
      var verdict, notes, reviewed := w.Review(patch, best.report);
      ReviewRecords(old(w.Sum()), patch, best.report, verdict, notes, reviewed);
      if reviewed.Err? {
        decision := Rejected(StageFailed("review job"));
      } else if reviewed.Ok? {
        var p := Emit(w, ReviewCompleted);
        AlsoTroubled(old(w.Sum()), Record(old(w.Sum()), Reviewed(patch, best.report, verdict, notes, reviewed)),
                     w.Sum());
        if !p {
          match verdict
          case Approve => decision := Approved;
          case Reject => decision := Rejected(ReviewRejected(notes));
          case RequestChanges => decision := if canRevise then Revise(notes) else Rejected(MaxRevisionsExceeded(notes));
        }
      }
    }

    /** A patch that cannot be read is approved on the gate alone; otherwise the reviewer decides. */
    method AskReviewer(w: Environment, best: Candidate, canRevise: bool) returns (decision: Decision)
      requires best.ws.Some?
      modifies w`trace, w`context
      ensures ContextMoves(old(w.context), w.context)
      ensures OnlyStageWork(old(w.Sum()), w.Sum())
      ensures OnlyReviewed(old(w.Sum()).evidence, w.Sum().evidence)
      ensures decision.Approved? && !w.Sum().evidence.blind ==>
        && best.ws.value in w.trees
        && w.Sum().evidence.review == Some(Seen(w.diffOf(w.trees[best.ws.value]), best.report, Approve))
      ensures decision.Rejected? ==> RealCause(decision.err)
      ensures Owns(old(w.Sum()), w.Sum(), decision.Approved?, decision.Broken?)
      ensures decision.Rejected? && decision.err.StageFailed? ==> w.Sum().signs.fatal
      ensures Heeds(decision, w.Sum().evidence, canRevise)
    {
      hide OnlyStageWork, OnlyReviewed, Record, RealCause;
      ghost var before := w.Sum();
      NothingReviewed(before);
      decision := Broken;
      var p := Emit(w, ReviewStarted);
      AlsoTroubled(before, before, w.Sum());
      if !p {
        var patch, out := w.Diff(best.ws.value);
        DiffRecords(before, best.ws.value, patch, out);
        if out.Err? {
          decision := Approved;
        } else if out.Ok? {
          decision := HearReviewer(w, best, patch, canRevise);
          ReviewedOn(before, Record(before, Diffed(best.ws.value, patch, out)), w.Sum());
        }
      }
    }

    /** The deferred cleanup: a failure is only logged, a panic leaves the rest in place. */
    method CleanupAll(w: Environment, cands: seq<Candidate>) returns (panicked: bool)
      requires w.Sum().checkouts.cleaned == [] && !w.Sum().checkouts.usedAfterCleanup
      requires cands != [] ==> Lists(w.Sum().checkouts.created, cands)
      modifies w`trace, w`context, w`trees
      ensures ContextMoves(old(w.context), w.context)
      ensures w.Sum().life == old(w.Sum()).life && w.Sum().evidence == old(w.Sum()).evidence
      ensures w.Sum().checkouts
           == old(w.Sum()).checkouts.(cleaned := w.Sum().checkouts.cleaned,
                                      cleanupPanicked := w.Sum().checkouts.cleanupPanicked)
      ensures cands == [] ==> w.Sum().checkouts.cleaned == []
      ensures w.Sum().checkouts.cleaned <= w.Sum().checkouts.created
      ensures !panicked && cands != [] ==> w.Sum().checkouts.cleaned == w.Sum().checkouts.created
      ensures Owns(old(w.Sum()), w.Sum(), !panicked, panicked)
      ensures w.Sum().checkouts.cleanupPanicked <==> old(w.Sum()).checkouts.cleanupPanicked || panicked
    {
      ghost var before := w.Sum();
      ghost var created := before.checkouts.created;
      for i := 0 to |cands|
        invariant ContextMoves(old(w.context), w.context)
        invariant cands == [] || w.Sum() == before.(checkouts := before.checkouts.(cleaned := created[..i]))
        invariant cands == [] ==> w.Sum() == before
      {
        var c := cands[i];
        if c.ws.Some? {
          var out := w.Cleanup(c.ws.value);
          assert created[..i] + [created[i]] == created[..i + 1];
          if out.Panicked? {
            return true;
          }
        }
      }
      return false;
    }

    // ---- The run -----------------------------------------------------------------

    ghost predicate Gated(w: Environment, run: Locals)
      reads w, run.best, run.cands
    {
      && GatedBy(cfg, w.Sum().checkouts, w.Sum().evidence, w.artifact, w.diffOf, w.trees, run)
      && (run.gateErr.Some? ==> w.Sum().signs.trouble)
    }

    ghost predicate Accepted(w: Environment, run: Locals)
      reads w, run.best, run.cands
    {
      AcceptedBy(cfg, w.Sum().checkouts, w.Sum().evidence, w.artifact, w.diffOf, w.trees, run)
    }

    /** What holds of the locals when `i` steps have been worked through. */
    ghost predicate Carried(w: Environment, run: Locals, i: nat)
      reads w, run.best, run.cands
    {
      && InOrder(cfg, w.Sum().checkouts, w.Sum().evidence, w.artifact, w.diffOf, w.trees, run, i)
      && (run.gateErr.Some? ==> w.Sum().signs.trouble)
    }

    /** One more pass can change something, and there is one left. */
    predicate MayRevise(run: Locals) {
      cfg.implementor && run.revisions < MAX_REVISIONS
    }

    /** The gate could not look at the attempt at all. */
    predicate CouldNotRun(best: Candidate)
      reads best
    {
      best.err.Some? && best.report.results == []
    }

    /** Names the attempt, and captures its patch whether or not the gate lets it through. */
    method GateStep(w: Environment, run: Locals) returns (next: Locals, flow: Flow)
      requires run.cands != [] && w.Sum().checkouts.cleaned == [] && w.Sum().evidence.capture.Untried?
      requires Lists(w.Sum().checkouts.created, run.cands) && Tracks(w.Sum().evidence, run.cands)
      modifies w`trace, w`context, w`trees, w`artifact, run.cands
      ensures ContextMoves(old(w.context), w.context)
      ensures OnlyStageWork(old(w.Sum()), w.Sum())
      ensures SameWork(old(w.Sum()).evidence, w.Sum().evidence)
      ensures w.Sum().evidence.mute == old(w.Sum()).evidence.mute
      ensures forall c :: c in run.cands ==> c.implErr == old(c.implErr)
      ensures next == run.(best := next.best, gateErr := next.gateErr)
      ensures !flow.Fail? && (flow.Next? ==> Gated(w, next)) && Owns(old(w.Sum()), w.Sum(), flow.Next?, flow.Unwind?)
    {
      hide Summarise;
      var best, gateErr, panicked := VerifyStage(w, run.cands);
      next := run.(best := best, gateErr := gateErr);
      if !panicked {
        ghost var k :| 0 <= k < |run.cands| && run.cands[k] == best;
        panicked := CaptureDiff(w, best);
      }
      flow := if panicked then Unwind else Next;
    }

    /**
     * A failed gate and a request for changes are answered with one more pass while there is an
     * implementor and a revision left, and fail the job otherwise; only a check that could not be run
     * is never worth another pass. Nothing else but the reviewer's own error or rejection fails it.
     */
    method ReviewStep(w: Environment, run: Locals) returns (next: Locals, flow: Flow)
      requires Gated(w, run) && run.revisions <= MAX_REVISIONS && w.Sum().checkouts.cleaned == []
      modifies w`trace, w`context
      ensures ContextMoves(old(w.context), w.context)
      ensures OnlyStageWork(old(w.Sum()), w.Sum())
      ensures SameWork(old(w.Sum()).evidence, w.Sum().evidence)
      ensures !cfg.reviewer ==> w.Sum() == old(w.Sum()).(signs := w.Sum().signs)
      ensures next.cands == run.cands && Owns(old(w.Sum()), w.Sum(), flow.Next?, flow.Unwind?)
      ensures flow.Next? ==>
        || (next == run && Accepted(w, run))
        || (next.revisions == run.revisions + 1 <= MAX_REVISIONS
            && next.steps == run.steps + REVISION_PASS && next.gateErr.None?
            && (run.gateErr.Some? ==> next.feedback != "")
            && (next.feedback == "" ==> w.Sum().evidence.mute))
      ensures flow.Next? && next != run ==>
        && MayRevise(run)
        && if run.gateErr.Some? then next.feedback == Feedback(run.best)
           else Answered(w.Sum().evidence, RequestChanges) && next.feedback == w.Sum().evidence.said
      ensures flow.Fail? ==> RealCause(flow.err) && Shown(cfg, w.Sum(), flow.err)
      // A failed gate.
      ensures run.gateErr.Some? && MayRevise(run) && !CouldNotRun(run.best) ==> !flow.Fail?
      ensures run.gateErr.Some? && !(MayRevise(run) && !CouldNotRun(run.best)) ==>
        flow == Fail(if CouldNotRun(run.best) then CouldNotVerify(run.best.Failure()) else run.gateErr.value)
      // A passed gate.
      ensures run.gateErr.None? && flow.Fail? ==>
        && cfg.reviewer
        && (w.Sum().evidence.review.None? || Answered(w.Sum().evidence, Reject)
            || (Answered(w.Sum().evidence, RequestChanges) && !MayRevise(run)))
      ensures run.gateErr.None? && cfg.reviewer && flow.Next? ==>
        || w.Sum().evidence.blind || Answered(w.Sum().evidence, Approve)
        || (Answered(w.Sum().evidence, RequestChanges) && MayRevise(run))
      ensures flow.Fail? && WantsRevision(flow.err) ==> !MayRevise(run)
    {
      hide OnlyStageWork, NoneCertified, Feedback, Summarise;
      next, flow := run, Next;
      var canRevise := cfg.implementor && run.revisions < MAX_REVISIONS;
      var decision := Review(w, run.best, run.gateErr, canRevise);
      SameStage(old(w.Sum()), w.Sum());
      match decision
      case Broken => flow := Unwind;
      case Rejected(err) => flow := Fail(err);
      case Approved =>
      case Revise(notes) =>
        next := run.(revisions := run.revisions + 1, feedback := notes, gateErr := None,
                     steps := run.steps + REVISION_PASS);
        ghost var reviewed := w.Sum();
        var p := Emit(w, RevisionRequested);
        StageThenSigns(old(w.Sum()), reviewed, w.Sum());
        flow := if p then Unwind else Next;
    }

    /** The work of the first two steps. */
    method SetUpStep(w: Environment, jobId: string, step: Status, ghost i: nat, run: Locals)
      returns (next: Locals, flow: Flow)
      requires i < 2 && step == StepAt(i) && Carried(w, run, i)
      modifies w`trace, w`context, w`trees
      ensures ContextMoves(old(w.context), w.context)
      ensures w.Sum().life == old(w.Sum()).life
      ensures Cleanable(cfg, w.Sum().checkouts, next.cands)
      ensures forall c :: c in next.cands ==> fresh(c)
      ensures WellNamed(jobId, VariantCount(cfg.variants), old(w.Sum()).checkouts.created) ==>
        WellNamed(jobId, VariantCount(cfg.variants), w.Sum().checkouts.created)
      ensures flow.Next? ==> Carried(w, next, i + 1) && next == run.(cands := next.cands)
      ensures Owns(old(w.Sum()), w.Sum(), flow.Next?, flow.Unwind?)
      ensures flow.Fail? ==> flow.err.StageFailed? && w.Sum().signs.fatal
    {
      next, flow := run, Next;
      if step == Planning {
        if cfg.planner {
          flow := Plan(w);
        }
      } else if cfg.workspaces {
        var cands;
        cands, flow := Prepare(w, jobId);
        next := next.(cands := cands);
        assert flow.Next? ==> cands[0] in cands;
      }
    }

    /** The work of an implementing step. */
    method ImplementStep(w: Environment, ghost i: nat, run: Locals) returns (flow: Flow)
      requires (i == 2 || i == 6) && i < |run.steps| && Carried(w, run, i)
      requires w.Sum().evidence.changed == {}
      modifies w`trace, w`context, w`trees, run.cands
      ensures ContextMoves(old(w.context), w.context)
      ensures w.Sum().life == old(w.Sum()).life
      ensures Cleanable(cfg, w.Sum().checkouts, run.cands)
      ensures w.Sum().checkouts == old(w.Sum()).checkouts
      ensures flow.Next? ==> Carried(w, run, i + 1)
      ensures Owns(old(w.Sum()), w.Sum(), flow.Next?, flow.Unwind?)
      ensures flow.Fail? ==> flow.err.NotImplemented? && RealCause(flow.err) && Shown(cfg, w.Sum(), flow.err)
    {
      flow := Next;
      if cfg.implementor && |run.cands| > 0 {
        ghost var works;
        flow, works := Implement(w, run.cands, run.feedback);
        if |run.cands| == 1 && SomeLive(run.cands) {
          OneIsAll(run.cands);
        }
      }
    }

    /** The work of a verifying step. */
    method GateWork(w: Environment, ghost i: nat, run: Locals) returns (next: Locals, flow: Flow)
      requires (i == 3 || i == 7) && i < |run.steps| && Carried(w, run, i) && run.cands != []
      requires w.Sum().evidence.capture.Untried?
      modifies w`trace, w`context, w`trees, w`artifact, run.cands
      ensures ContextMoves(old(w.context), w.context)
      ensures w.Sum().life == old(w.Sum()).life
      ensures Cleanable(cfg, w.Sum().checkouts, next.cands) && next.cands == run.cands
      ensures w.Sum().checkouts == old(w.Sum()).checkouts
      ensures flow.Next? ==> Carried(w, next, i + 1)
      ensures Owns(old(w.Sum()), w.Sum(), flow.Next?, flow.Unwind?)
      ensures !flow.Fail? && next.revisions == run.revisions && next.steps == run.steps
    {
      next, flow := GateStep(w, run);
    }

    /** The work of a reviewing step. */
    method ReviewWork(w: Environment, ghost i: nat, run: Locals) returns (next: Locals, flow: Flow)
      requires (i == 4 || i == 8) && i < |run.steps| && Carried(w, run, i) && run.cands != []
      modifies w`trace, w`context
      ensures ContextMoves(old(w.context), w.context)
      ensures w.Sum().life == old(w.Sum()).life
      ensures Cleanable(cfg, w.Sum().checkouts, next.cands) && next.cands == run.cands
      ensures w.Sum().checkouts == old(w.Sum()).checkouts
      ensures flow.Next? ==> Carried(w, next, i + 1)
      ensures Owns(old(w.Sum()), w.Sum(), flow.Next?, flow.Unwind?)
      ensures flow.Next? ==>
        next.revisions >= run.revisions && (next.revisions == run.revisions ==> next.steps == run.steps)
      ensures flow.Fail? ==> RealCause(flow.err) && Shown(cfg, w.Sum(), flow.err)
      ensures flow.Fail? && WantsRevision(flow.err) && cfg.implementor ==> i == 8
    {
      hide InOrder, AcceptedBy, GatedBy, Cleanable, Shown, Summarise;
      hide Answered, Feedback, CouldNotRun, SameWork, OnlyStageWork;
      InOrderMeans(cfg, w.Sum().checkouts, w.Sum().evidence, w.artifact, w.diffOf, w.trees, run, i);
      ghost var before := w.Sum();
      GatedWhenJudged(cfg, before.checkouts, before.evidence, w.artifact, w.diffOf, w.trees, run, i);
      next, flow := ReviewStep(w, run);
      SameStage(before, w.Sum());
      if flow.Next? {
        if next == run && Accepted(w, run) {
          AcceptedInOrder(cfg, before.checkouts, before.evidence, w.Sum().evidence, w.artifact, w.diffOf,
                          w.trees, run, i);
        } else {
          RevisedInOrder(cfg, before.checkouts, before.evidence, w.Sum().evidence, w.artifact, w.diffOf, w.trees,
                         run, next, i);
        }
        InOrderMeans(cfg, w.Sum().checkouts, w.Sum().evidence, w.artifact, w.diffOf, w.trees, next, i + 1);
      }
    }

    /** The work of a verifying or a reviewing step. */
    method JudgeStep(w: Environment, step: Status, ghost i: nat, run: Locals) returns (next: Locals, flow: Flow)
      requires step == StepAt(i) && (step.Verifying? || step.Reviewing?)
      requires i < |run.steps| && Carried(w, run, i)
      requires step.Verifying? ==> w.Sum().evidence.capture.Untried?
      modifies w`trace, w`context, w`trees, w`artifact, run.cands
      ensures ContextMoves(old(w.context), w.context)
      ensures w.Sum().life == old(w.Sum()).life
      ensures Cleanable(cfg, w.Sum().checkouts, next.cands) && next.cands == run.cands
      ensures w.Sum().checkouts == old(w.Sum()).checkouts
      ensures flow.Next? ==> Carried(w, next, i + 1)
      ensures flow.Next? ==>
        next.revisions >= run.revisions && (next.revisions == run.revisions ==> next.steps == run.steps)
      ensures Owns(old(w.Sum()), w.Sum(), flow.Next?, flow.Unwind?)
      ensures flow.Fail? ==> RealCause(flow.err) && Shown(cfg, w.Sum(), flow.err)
      ensures flow.Fail? && WantsRevision(flow.err) && cfg.implementor ==> i == 8
    {
      hide Shown;
      next, flow := run, Next;
      if |run.cands| > 0 {
        if step == Verifying {
          assert i == 3 || i == 7;
          next, flow := GateWork(w, i, run);
        } else {
          assert i == 4 || i == 8;
          next, flow := ReviewWork(w, i, run);
        }
      }
    }

    /** The work of step `i`, between its step.started and its step.completed. */
    method Work(w: Environment, jobId: string, step: Status, ghost i: nat, run: Locals)
      returns (next: Locals, flow: Flow)
      requires i < |run.steps| && step == StepAt(i) && Carried(w, run, i)
      requires step.Verifying? ==> w.Sum().evidence.capture.Untried?
      requires step.Implementing? ==> w.Sum().evidence.changed == {}
      modifies w`trace, w`context, w`trees, w`artifact, run.cands
      ensures ContextMoves(old(w.context), w.context)
      ensures w.Sum().life == old(w.Sum()).life
      ensures Cleanable(cfg, w.Sum().checkouts, next.cands)
      ensures forall c :: c in next.cands ==> c in run.cands || fresh(c)
      ensures WellNamed(jobId, VariantCount(cfg.variants), old(w.Sum()).checkouts.created) ==>
        WellNamed(jobId, VariantCount(cfg.variants), w.Sum().checkouts.created)
      ensures flow.Next? ==> Carried(w, next, i + 1)
      ensures flow.Next? ==>
        next.revisions >= run.revisions && (next.revisions == run.revisions ==> next.steps == run.steps)
      ensures Owns(old(w.Sum()), w.Sum(), flow.Next?, flow.Unwind?)
      ensures flow.Fail? ==> RealCause(flow.err) && Shown(cfg, w.Sum(), flow.err)
      ensures flow.Fail? && WantsRevision(flow.err) && cfg.implementor ==> i == 8
    {
      hide InOrder, Cleanable, WellNamed;
      InOrderMeans(cfg, w.Sum().checkouts, w.Sum().evidence, w.artifact, w.diffOf, w.trees, run, i);
      next, flow := run, Next;
      assert i <= 8;
      if step == Planning || step == PreparingWorkspace {
        next, flow := SetUpStep(w, jobId, step, i, run);
      } else if step == Implementing {
        flow := ImplementStep(w, i, run);
      } else if step == Verifying || step == Reviewing {
        next, flow := JudgeStep(w, step, i, run);
      } else {
        assert i == 5;
        StartsAfresh(cfg, w.Sum().checkouts, w.Sum().evidence, w.artifact, w.diffOf, w.trees, run);
      }
    }

    /** Where a run may stop. */
    ghost predicate Stopped(w: Environment, job: Job, exit: Exit, loaded: Status, done: nat)
      reads w, job
    {
      && Concluded(loaded, w.Sum().life, w.stored, job.status, w.context, cfg.bus, done, exit)
      && Warranted(cfg, w.Sum(), exit)
    }

    /** The job can take its next step, or was over before it began. */
    ghost predicate Standing(w: Environment, job: Job, loaded: Status, done: nat)
      reads w, job
    {
      Underway(loaded, w.Sum().life, w.stored, job.status, done) && w.Sum().life.seen.Live?
    }

    /** markFailed, as every way out uses it: whatever stood before, the job has ended after it. */
    method FailOut(w: Environment, job: Job, cause: Error, ghost loaded: Status, ghost done: nat) returns (exit: Exit)
      requires RealCause(cause) && Blames(cfg, w.Sum(), cause)
      requires Concluded(loaded, w.Sum().life, w.stored, job.status, w.context, cfg.bus, done, Unwinding)
      requires w.Sum().signs.trouble
      modifies job, w`trace, w`context, w`stored
      ensures ContextMoves(old(w.context), w.context)
      ensures Stopped(w, job, exit, loaded, done) && Terminal(job.status) && exit != Returned(None)
      ensures w.Sum().signs.trouble && Grows(old(w.Sum()).signs, w.Sum().signs)
      ensures w.Sum().checkouts == old(w.Sum()).checkouts && w.Sum().evidence == old(w.Sum()).evidence
      ensures exit.Unwinding? ==> w.Sum().life.spoiled
      ensures job.status == if Terminal(old(job.status)) then old(job.status) else Failed
      ensures Terminal(old(job.status)) ==> w.stored == old(w.stored)
    {
      hide Concluded, Warranted, Blames, EndedAs, Record, RealCause, RealFailure, CanTransition, Summarise;
      exit := MarkFailed(w, job, cause);
      FailIsWarranted(cfg, old(w.Sum()), w.Sum(), old(w.stored), w.stored, old(job.status), exit, cause);
      FailFinishes(loaded, old(w.Sum()), w.Sum(), old(w.stored), w.stored, old(job.status), job.status,
                   old(w.context), w.context, cfg.bus, done, exit);
    }

    /** A deadline ends the job as failed; only a cancellation ends it as cancelled. */
    method EndInterrupted(w: Environment, job: Job, cause: Context, ghost loaded: Status, ghost done: nat)
      returns (exit: Exit)
      requires !cause.Live? && w.context == cause == w.Sum().life.seen && w.Sum().signs.trouble
      requires Underway(loaded, w.Sum().life, w.stored, job.status, done)
      modifies job, w`trace, w`context, w`stored
      ensures w.context == cause
      ensures Stopped(w, job, exit, loaded, done)
      ensures w.Sum().signs.trouble && Grows(old(w.Sum()).signs, w.Sum().signs)
      ensures w.Sum().checkouts == old(w.Sum()).checkouts && w.Sum().evidence == old(w.Sum()).evidence
      ensures !Terminal(loaded) ==> job.status == if cause.DeadlineExceeded? then Failed else Cancelled
    {
      hide Underway, Concluded, Progress, Open, Closed, Inert, Warranted, EndedAs, Record, RealFailure, Summarise;
      NotEndedYet(loaded, w.Sum().life, w.stored, job.status, done);
      if cause.DeadlineExceeded? {
        MayStop(loaded, w.Sum().life, w.stored, job.status, w.context, cfg.bus, done);
        exit := FailOut(w, job, DeadlinePassed, loaded, done);
      } else {
        exit := MarkCancelled(w, job);
        CancelIsWarranted(cfg, old(w.Sum()), w.Sum(), old(w.stored), w.stored, old(job.status), exit);
        CancelFinishes(loaded, old(w.Sum()), w.Sum(), old(w.stored), w.stored, old(job.status), job.status,
                       w.context, cfg.bus, done, exit);
      }
    }

    /** Looks at the context and announces the next step. */
    method Checkpoint(w: Environment, job: Job, ghost loaded: Status, ghost done: nat) returns (stop: Option<Exit>)
      requires Standing(w, job, loaded, done)
      modifies w`trace, w`context, w`stored, job
      ensures ContextMoves(old(w.context), w.context)
      ensures w.Sum().checkouts == old(w.Sum()).checkouts && w.Sum().evidence == old(w.Sum()).evidence
      ensures !old(w.context).Live? ==> stop.Some?
      ensures stop.Some? ==> Stopped(w, job, stop.value, loaded, done)
      ensures stop.Some? && !Terminal(loaded) ==> job.status != Completed
      ensures stop.None? ==>
        && Standing(w, job, loaded, done) && w.Sum() == old(w.Sum())
        && w.stored == old(w.stored) && job.status == old(job.status)
    {
      hide Underway, Concluded, Progress, Open, Closed, Inert;
      NotEndedYet(loaded, w.Sum().life, w.stored, job.status, done);
      stop := None;
      var ctx := w.ContextErr();
      if !ctx.Live? {
        LooksChangeNothing(loaded, old(w.Sum()).life, w.stored, job.status, done, ctx);
        var exit := EndInterrupted(w, job, ctx, loaded, done);
        stop := Some(exit);
      } else {
        var p := Emit(w, StepStarted);
        MayStop(loaded, w.Sum().life, w.stored, job.status, w.context, cfg.bus, done);
        stop := if p then Some(Unwinding) else None;
      }
    }

    /** Moves the job into its next step. */
    method StartStep(w: Environment, job: Job, next: Status, ghost loaded: Status, ghost i: nat)
      returns (stop: Option<Exit>, ghost done: nat)
      requires Standing(w, job, loaded, i) && i < 5 + 4 * MAX_REVISIONS && next == StepAt(i)
      modifies w`trace, w`context, w`stored, job
      ensures ContextMoves(old(w.context), w.context)
      ensures Grows(old(w.Sum()).signs, w.Sum().signs) && w.Sum().checkouts == old(w.Sum()).checkouts
      ensures stop.Some? ==> Stopped(w, job, stop.value, loaded, done)
      ensures stop.Some? && !Terminal(loaded) ==> job.status != Completed
      ensures stop.None? ==> done == i + 1 && loaded == Queued && Standing(w, job, loaded, done)
      ensures stop.None? ==> w.Sum().evidence == RecordEvidence(old(w.Sum()).evidence, Wrote(next, Ok))
    {
      hide Underway, Concluded, Progress, Open, Closed, Inert, Summarise;
      ghost var before, was, stored := w.Sum(), job.status, w.stored;
      NotEndedYet(loaded, before.life, stored, was, i);
      TurnedDown(loaded, before.life, stored, was, w.context, cfg.bus, i);
      done := i;
      var flow := Advance(w, job, next);
      if loaded == Queued {
        done := i + 1;
        Advanced(loaded, before.life, stored, was, i, if flow.Next? then Ok else if flow.Fail? then Err else Panicked);
        NotEndedYet(loaded, w.Sum().life, w.stored, job.status, done);
        MayStop(loaded, w.Sum().life, w.stored, job.status, w.context, cfg.bus, done);
      } else {
        ConclusionStands(loaded, w.Sum().life, stored, was, old(w.context), w.context, cfg.bus, i, Unwinding);
      }
      stop := None;
      if flow.Fail? {
        var exit := FailOut(w, job, flow.err, loaded, done);
        stop := Some(exit);
      } else if flow.Unwind? {
        stop := Some(Unwinding);
      }
    }

    /** Announces the end of a step and pauses. */
    method FinishStep(w: Environment, job: Job, ghost loaded: Status, ghost done: nat) returns (stop: Option<Exit>)
      requires Standing(w, job, loaded, done)
      modifies w`trace, w`context, w`stored, job
      ensures ContextMoves(old(w.context), w.context)
      ensures w.Sum().checkouts == old(w.Sum()).checkouts && w.Sum().evidence == old(w.Sum()).evidence
      ensures stop.Some? ==> Stopped(w, job, stop.value, loaded, done)
      ensures stop.Some? && !Terminal(loaded) ==> job.status != Completed
      ensures stop.None? ==>
        && Standing(w, job, loaded, done) && w.Sum() == old(w.Sum())
        && w.stored == old(w.stored) && job.status == old(job.status)
    {
      hide Underway, Concluded, Progress, Open, Closed, Inert, Summarise;
      NotEndedYet(loaded, w.Sum().life, w.stored, job.status, done);
      stop := None;
      var p := Emit(w, StepCompleted);
      if p {
        MayStop(loaded, w.Sum().life, w.stored, job.status, w.context, cfg.bus, done);
        stop := Some(Unwinding);
      } else {
        var ctx := w.Pause();
        if !ctx.Live? {
          LooksChangeNothing(loaded, old(w.Sum()).life, w.stored, job.status, done, ctx);
          var exit := EndInterrupted(w, job, ctx, loaded, done);
          stop := Some(exit);
        }
      }
    }

    /** The last two events of a job that has been stored as completed. */
    method Finale(w: Environment, job: Job, ghost done: nat) returns (exit: Exit)
      requires Concluded(Queued, w.Sum().life, w.stored, job.status, w.context, cfg.bus, done, Unwinding)
      requires job.status == w.stored == Completed && w.Sum().life.ends == []
      modifies w`trace, w`context
      ensures ContextMoves(old(w.context), w.context)
      ensures Grows(old(w.Sum()).signs, w.Sum().signs) && w.Sum().checkouts == old(w.Sum()).checkouts
        && w.Sum().evidence == old(w.Sum()).evidence
      ensures Stopped(w, job, exit, Queued, done)
    {
      hide Concluded, Progress, Open, Closed;
      ghost var l := w.Sum().life;
      exit := Unwinding;
      var p := Emit(w, StepCompleted);
      ConclusionStands(Queued, l, Completed, Completed, old(w.context), w.context, cfg.bus, done, Unwinding);
      if !p {
        p := Emit(w, JobCompleted);
        ConclusionStands(Queued, l, Completed, Completed, old(w.context), w.context, cfg.bus, done, Unwinding);
        AnnouncementConcludes(l, w.context, cfg.bus, done, if p then Panicked else Ok);
        exit := if p then Unwinding else Returned(None);
      }
    }

    /** The terminal transition. */
    method Complete(w: Environment, job: Job, ghost loaded: Status, ghost done: nat) returns (exit: Exit)
      requires Standing(w, job, loaded, done) && loaded == Queued && job.status == Reviewing
      modifies w`trace, w`context, w`stored, job
      ensures ContextMoves(old(w.context), w.context)
      ensures Grows(old(w.Sum()).signs, w.Sum().signs) && w.Sum().checkouts == old(w.Sum()).checkouts
        && w.Sum().evidence == old(w.Sum()).evidence
      ensures Stopped(w, job, exit, loaded, done)
    {
      hide Underway, Concluded, Progress, Open, Closed, Inert;
      ghost var l, stored := w.Sum().life, w.stored;
      CompletionConcludes(l, stored, w.context, cfg.bus, done, Ok);
      var flow := Advance(w, job, Completed);
      CompletionConcludes(l, stored, w.context, cfg.bus, done,
                          if flow.Next? then Ok else if flow.Fail? then Err else Panicked);
      exit := Unwinding;
      if flow.Fail? {
        exit := FailOut(w, job, flow.err, loaded, done);
      } else if flow.Next? {
        exit := Finale(w, job, done);
      }
    }

    /** step.started and the status write of step `i`. */
    method EnterStep(w: Environment, job: Job, ghost i: nat, run: Locals, step: Status, ghost loaded: Status)
      returns (stop: Option<Exit>, ghost done: nat)
      requires i < |run.steps| && step == StepAt(i)
      requires Carried(w, run, i) && Standing(w, job, loaded, i)
      modifies w`trace, w`context, w`stored, job
      ensures ContextMoves(old(w.context), w.context)
      ensures !old(w.context).Live? ==> stop.Some?
      ensures stop.Some? ==> Cleanable(cfg, w.Sum().checkouts, run.cands) && Stopped(w, job, stop.value, loaded, done)
      ensures stop.Some? && !Terminal(loaded) ==> job.status != Completed
      ensures w.Sum().checkouts == old(w.Sum()).checkouts
      ensures stop.None? ==> done == i + 1 && loaded == Queued && Standing(w, job, loaded, done)
      ensures stop.None? ==> Carried(w, run, i) && (step.Verifying? ==> w.Sum().evidence.capture.Untried?)
      ensures stop.None? && step.Implementing? ==> w.Sum().evidence.changed == {}
    {
      hide Underway, Concluded, Progress, Open, Closed, Inert, InOrder, Cleanable;
      InOrderMeans(cfg, w.Sum().checkouts, w.Sum().evidence, w.artifact, w.diffOf, w.trees, run, i);
      done := i;
      stop := Checkpoint(w, job, loaded, done);
      if stop.None? {
        StillSound(cfg, w.Sum().checkouts, w.Sum().evidence, w.artifact, w.diffOf, w.trees, run, i);
        stop, done := StartStep(w, job, step, loaded, i);
      }
    }

    /** step.completed and the pause, or the way out if the work failed. */
    method LeaveStep(w: Environment, job: Job, flow: Flow, ghost next: Locals, ghost loaded: Status, ghost done: nat)
      returns (stop: Option<Exit>)
      requires Standing(w, job, loaded, done)
      requires (!flow.Next? ==> w.Sum().signs.trouble) && (flow.Unwind? ==> w.Sum().signs.panicked)
      requires flow.Fail? ==> RealCause(flow.err) && Blames(cfg, w.Sum(), flow.err)
      requires flow.Next? ==> Carried(w, next, done)
      modifies w`trace, w`context, w`stored, job
      ensures ContextMoves(old(w.context), w.context)
      ensures w.Sum().checkouts == old(w.Sum()).checkouts && w.Sum().evidence == old(w.Sum()).evidence
      ensures stop.Some? ==> Stopped(w, job, stop.value, loaded, done)
      ensures stop.Some? && !Terminal(loaded) ==> job.status != Completed
      ensures stop.None? ==> flow.Next? && Standing(w, job, loaded, done) && Carried(w, next, done)
    {
      hide Underway, Concluded, Progress, Open, Closed, Inert, InOrder;
      NotEndedYet(loaded, w.Sum().life, w.stored, job.status, done);
      MayStop(loaded, w.Sum().life, w.stored, job.status, w.context, cfg.bus, done);
      match flow
      case Fail(err) =>
        var exit := FailOut(w, job, err, loaded, done);
        stop := Some(exit);
      case Unwind =>
        stop := Some(Unwinding);
      case Next =>
        stop := FinishStep(w, job, loaded, done);
    }

    /** The work of a step that has been entered, and the way out of it. */
    method WorkAndLeave(w: Environment, job: Job, ghost i: nat, run: Locals, step: Status, ghost loaded: Status)
      returns (stop: Option<Exit>, next: Locals)
      requires i < |run.steps| && step == StepAt(i)
      requires Carried(w, run, i) && Standing(w, job, loaded, i + 1)
      requires step.Verifying? ==> w.Sum().evidence.capture.Untried?
      requires step.Implementing? ==> w.Sum().evidence.changed == {}
      modifies w`trace, w`context, w`stored, w`trees, w`artifact, job, run.cands
      ensures ContextMoves(old(w.context), w.context)
      ensures Cleanable(cfg, w.Sum().checkouts, next.cands)
      ensures forall c :: c in next.cands ==> c in run.cands || fresh(c)
      ensures WellNamed(job.id, VariantCount(cfg.variants), old(w.Sum()).checkouts.created) ==>
        WellNamed(job.id, VariantCount(cfg.variants), w.Sum().checkouts.created)
      ensures stop.Some? ==> Stopped(w, job, stop.value, loaded, i + 1)
      ensures stop.Some? && !Terminal(loaded) ==> job.status != Completed
      ensures stop.None? ==> Standing(w, job, loaded, i + 1) && Carried(w, next, i + 1)
      ensures stop.None? ==>
        next.revisions >= run.revisions && (next.revisions == run.revisions ==> next.steps == run.steps)
    {
      hide Underway, Concluded, Progress, Open, Closed, Inert, InOrder, Cleanable, WellNamed;
      var flow;
      next, flow := Work(w, job.id, step, i, run);
      if i == 8 {
        RevisionWasTried(loaded, w.Sum().life, w.stored, job.status);
      }
      stop := LeaveStep(w, job, flow, next, loaded, i + 1);
    }

    /** One turn of the work list. */
    method OneStep(w: Environment, job: Job, i: nat, run: Locals, ghost loaded: Status)
      returns (stop: Option<Exit>, next: Locals, ghost done: nat)
      requires i < |run.steps| && run.steps[i] == StepAt(i)
      requires Carried(w, run, i) && Standing(w, job, loaded, i)
      modifies w`trace, w`context, w`stored, w`trees, w`artifact, job, run.cands
      ensures ContextMoves(old(w.context), w.context)
      ensures Cleanable(cfg, w.Sum().checkouts, next.cands)
      ensures forall c :: c in next.cands ==> c in run.cands || fresh(c)
      ensures !old(w.context).Live? ==> stop.Some?
      ensures WellNamed(job.id, VariantCount(cfg.variants), old(w.Sum()).checkouts.created) ==>
        WellNamed(job.id, VariantCount(cfg.variants), w.Sum().checkouts.created)
      ensures stop.Some? ==> Stopped(w, job, stop.value, loaded, done)
      ensures stop.Some? && !Terminal(loaded) ==> job.status != Completed
      ensures stop.None? ==> done == i + 1 && loaded == Queued && Standing(w, job, loaded, done)
      ensures stop.None? ==> Carried(w, next, i + 1)
      ensures stop.None? ==>
        next.revisions >= run.revisions && (next.revisions == run.revisions ==> next.steps == run.steps)
    {
      hide Underway, Concluded, Progress, Open, Closed, Inert, InOrder, Cleanable, WellNamed;
      next := run;
      stop, done := EnterStep(w, job, i, run, run.steps[i], loaded);
      if stop.None? {
        stop, next := WorkAndLeave(w, job, i, run, run.steps[i], loaded);
      }
    }

    lemma CarriedMeans(w: Environment, run: Locals, i: nat)
      requires Carried(w, run, i)
      ensures Cleanable(cfg, w.Sum().checkouts, run.cands)
      ensures run.revisions <= MAX_REVISIONS && run.steps == WorkList(run.revisions)
      ensures i <= |run.steps| == 5 + 4 * run.revisions
    {
      InOrderMeans(cfg, w.Sum().checkouts, w.Sum().evidence, w.artifact, w.diffOf, w.trees, run, i);
    }

    lemma ReadyToStart(w: Environment, job: Job)
      requires w.Sum() == NOTHING && job.status == w.stored
      ensures Carried(w, FIRST_LOCALS, 0) && Standing(w, job, job.status, 0)
      ensures WellNamed(job.id, VariantCount(cfg.variants), w.Sum().checkouts.created)
    {
      InOrderAtFirst(cfg, job.id, w.artifact, w.diffOf, w.trees, job.status);
    }

    /** The loop over the work list, which grows while it runs. */
    method Drive(w: Environment, job: Job) returns (stop: Option<Exit>, run: Locals, ghost done: nat)
      requires w.Sum() == NOTHING && job.status == w.stored
      modifies w`trace, w`context, w`stored, w`trees, w`artifact, job
      ensures ContextMoves(old(w.context), w.context)
      ensures forall c :: c in run.cands ==> fresh(c)
      ensures !old(w.context).Live? ==> stop.Some?
      ensures WellNamed(job.id, VariantCount(cfg.variants), w.Sum().checkouts.created)
      ensures stop.Some? ==> Cleanable(cfg, w.Sum().checkouts, run.cands)
      ensures stop.Some? ==> Stopped(w, job, stop.value, old(job.status), done)
      ensures stop.Some? && !Terminal(old(job.status)) ==> job.status != Completed
      ensures stop.None? ==> old(job.status) == Queued && Standing(w, job, old(job.status), done)
      ensures stop.None? ==> done == |run.steps| && Carried(w, run, done)
    {
      hide Carried, Standing, Stopped, Cleanable, WellNamed, WorkList, StepAt, VariantCount;
      ghost var loaded := job.status;
      ReadyToStart(w, job);
      CarriedMeans(w, FIRST_LOCALS, 0);
      run, done, stop := FIRST_LOCALS, 0, None;
      var i := 0;
      while i < |run.steps|
        invariant ContextMoves(old(w.context), w.context)
        invariant i > 0 ==> old(w.context).Live?
        invariant WellNamed(job.id, VariantCount(cfg.variants), w.Sum().checkouts.created)
        invariant done == i && Carried(w, run, i) && Standing(w, job, loaded, done)
        invariant forall c :: c in run.cands ==> fresh(c)
        invariant stop.None? && (i > 0 ==> loaded == Queued)
        invariant run.revisions <= MAX_REVISIONS && run.steps == WorkList(run.revisions)
          && i <= |run.steps| == 5 + 4 * run.revisions
        decreases MAX_REVISIONS - run.revisions, |run.steps| - i
      {
        WorkListSteps(run.revisions, i);
        assert forall k :: 0 <= k < |run.cands| ==> run.cands[k] in run.cands;
        stop, run, done := OneStep(w, job, i, run, loaded);
        if stop.Some? {
          return;
        }
        i := i + 1;
        CarriedMeans(w, run, i);
      }
    }

    /** The way out at the end of the list, with one last look at the context and at the gate. */
    method Conclude(w: Environment, job: Job, gateErr: Option<Error>, ghost run: Locals, ghost loaded: Status,
                    ghost done: nat)
      returns (exit: Exit)
      requires Standing(w, job, loaded, done) && loaded == Queued && job.status == Reviewing
      requires Carried(w, run, done)
      requires gateErr.Some? ==> RealCause(gateErr.value)
      requires gateErr.Some? ==> Blames(cfg, w.Sum(), gateErr.value) && w.Sum().signs.trouble
      modifies w`trace, w`context, w`stored, job
      ensures ContextMoves(old(w.context), w.context)
      ensures Stopped(w, job, exit, loaded, done)
      ensures !old(w.context).Live? || gateErr.Some? ==> job.status != Completed
      ensures Carried(w, run, done)
      ensures w.Sum().checkouts == old(w.Sum()).checkouts && w.Sum().evidence == old(w.Sum()).evidence
    {
      hide Underway, Concluded, Progress, Open, Closed, Inert, InOrder, Record, RecordLife, Summarise;
      var ctx := w.ContextErr();
      LookRecords(old(w.Sum()), ctx);
      LooksChangeNothing(loaded, old(w.Sum()).life, w.stored, job.status, done, ctx);
      if !ctx.Live? {
        exit := EndInterrupted(w, job, ctx, loaded, done);
      } else {
        MayStop(loaded, w.Sum().life, w.stored, job.status, w.context, cfg.bus, done);
        if gateErr.Some? {
          BlameStays(cfg, old(w.Sum()), w.Sum(), gateErr.value);
          exit := FailOut(w, job, gateErr.value, loaded, done);
        } else {
          exit := Unwinding;
          var p := Emit(w, StepStarted);
          ConclusionStands(loaded, w.Sum().life, w.stored, job.status, ctx, w.context, cfg.bus, done, Unwinding);
          if !p {
            exit := Complete(w, job, loaded, done);
          }
        }
      }
    }

    /** The body of Process once the job is loaded: the work list, then the terminal transition. */
    method RunSteps(w: Environment, job: Job) returns (exit: Exit, run: Locals, ghost done: nat)
      requires w.Sum() == NOTHING && job.status == w.stored
      modifies w`trace, w`context, w`stored, w`trees, w`artifact, job
      ensures ContextMoves(old(w.context), w.context)
      ensures Cleanable(cfg, w.Sum().checkouts, run.cands)
      ensures WellNamed(job.id, VariantCount(cfg.variants), w.Sum().checkouts.created)
      ensures Stopped(w, job, exit, old(job.status), done)
      ensures !old(w.context).Live? && !Terminal(old(job.status)) ==> job.status != Completed
      ensures job.status == Completed && !Terminal(old(job.status)) && cfg.workspaces ==>
        && run.best != null && run.best.ws.Some?
        && Delivered(cfg, w.Sum(), run.best.ws.value, PatchOf(w.diffOf, w.trees, run.best.ws.value), w.artifact)
    {
      hide Underway, Concluded, Progress, Open, Closed, Inert, InOrder, Cleanable, WellNamed, Delivered;
      InOrderAtFirst(cfg, job.id, w.artifact, w.diffOf, w.trees, job.status);
      run, done, exit := FIRST_LOCALS, 0, Unwinding;
      var p := Emit(w, JobStarted);
      MayStop(job.status, w.Sum().life, w.stored, job.status, w.context, cfg.bus, 0);
      if !p {
        var stop;
        stop, run, done := Drive(w, job);
        if stop.Some? {
          exit := stop.value;
        } else {
          InOrderMeans(cfg, w.Sum().checkouts, w.Sum().evidence, w.artifact, w.diffOf, w.trees, run, done);
          AtTheEnd(cfg, w.Sum(), w.artifact, w.diffOf, w.trees, run, w.stored, job.status);
          exit := Conclude(w, job, run.gateErr, run, Queued, done);
          if cfg.workspaces {
            SoundIsDelivered(cfg, w.Sum(), w.artifact, w.diffOf, w.trees, run);
          }
        }
      }
    }

    /** The deferred calls: cleanup first, then the recovery of a panic, its own included. */
    method Unwound(w: Environment, job: Job, cands: seq<Candidate>, exit: Exit, ghost loaded: Status, ghost done: nat)
      returns (final: Exit)
      requires Cleanable(cfg, w.Sum().checkouts, cands)
      requires Stopped(w, job, exit, loaded, done)
      modifies w`trace, w`context, w`trees, w`stored, job
      ensures ContextMoves(old(w.context), w.context)
      ensures Stopped(w, job, final, loaded, done) && Terminal(job.status)
      ensures final.Unwinding? ==> w.Sum().life.spoiled
      ensures old(job.status) != Completed ==> job.status != Completed
      ensures w.Sum().evidence == old(w.Sum()).evidence
      ensures w.Sum().checkouts.created == old(w.Sum()).checkouts.created
      ensures TidiedUp(w.Sum().checkouts)
    {
      hide Concluded, Progress, Open, Closed, Cleanable, TidiedUp, Summarise;
      final := exit;
      var panicked := false;
      CleanableMeans(cfg, w.Sum().checkouts, cands);
      if cfg.workspaces {
        panicked := CleanupAll(w, cands);
      }
      Tidies(w.Sum().checkouts, old(w.Sum()).checkouts, cands);
      MayAlsoUnwind(loaded, w.Sum().life, w.stored, job.status, old(w.context), w.context, cfg.bus, done, exit);
      if panicked || exit.Unwinding? {
        final := FailOut(w, job, Panic, loaded, done);
      }
    }

    /**
     * One run. `picked` says the job was loaded, `result` is the worktree the job returns, and
     * `final` holds the worktrees' contents as the deferred cleanup found them.
     */
    method Process(w: Environment, id: string)
      returns (exit: Exit, ghost picked: bool, ghost result: Worktree, ghost final: map<Worktree, Tree>)
      requires w.trace == []
      modifies w
      // The record, the events and the return.
      ensures WritesAlongTheList(old(w.stored), w.Sum().life)
      ensures picked ==> EndsUnlessLost(old(w.stored), w.Sum().life, w.stored)
      ensures !picked ==> w.Sum() == NOTHING.(signs := w.Sum().signs) && w.stored == old(w.stored)
      ensures AnnouncedOnce(cfg.bus, old(w.stored), w.Sum().life, w.stored)
      ensures picked ==> StopsWhenTold(old(w.stored), w.Sum().life, w.stored, w.context)
      ensures !old(w.context).Live? && old(w.stored) != Completed ==> w.stored != Completed
      ensures ReturnsTruly(cfg.bus, w.Sum().life, w.stored, exit)
      // The outcome: only trouble keeps a queued job from completing, and a failure names what went wrong.
      ensures old(w.stored) == Queued && !w.Sum().signs.trouble ==>
        picked && w.stored == Completed && exit == Returned(None)
      ensures Warranted(cfg, w.Sum(), exit)
      // The worktrees.
      ensures WellNamed(id, VariantCount(cfg.variants), w.Sum().checkouts.created)
      ensures TidiedUp(w.Sum().checkouts)
      // What a completed job has to show.
      ensures w.stored == Completed && old(w.stored) != Completed && cfg.workspaces ==>
        Delivered(cfg, w.Sum(), result, PatchOf(w.diffOf, final, result), w.artifact)
    {
      hide Concluded, Progress, Open, Closed, Cleanable, Delivered, WellNamed, TidiedUp, LegalPath, Follows;
      ghost var loaded := w.stored;
      picked, result, final := false, "", map[];
      var status, out := w.Load();
      if !out.Ok? {
        InOrderAtFirst(cfg, id, w.artifact, w.diffOf, w.trees, loaded);
        NothingDone(loaded);
        exit := Returned(Some(Failure(if out.Err? then StageFailed("load job") else Panic, None)));
      } else {
        picked := true;
        var job := new Job(id, status);
        var run;
        ghost var done;
        exit, run, done := RunSteps(w, job);
        final := w.trees;
        if job.status == Completed && !Terminal(loaded) && cfg.workspaces {
          result := run.best.ws.value;
        }
        ghost var s := w.Sum();
        exit := Unwound(w, job, run.cands, exit, loaded, done);
        WhatWasWritten(loaded, w.Sum().life, w.stored, job.status, w.context, cfg.bus, done, exit);
        WhatItComesTo(loaded, w.Sum().life, w.stored, job.status, w.context, cfg.bus, done, exit);
        if !w.Sum().signs.trouble && loaded == Queued {
          NoTroubleCompletes(cfg, w.trace, loaded, w.stored, w.context, exit);
        }
        DeliveredStays(cfg, s, w.Sum(), result, PatchOf(w.diffOf, final, result), w.artifact);
      }
    }
  }
}
