/**
 * What one run of the processor did to the world, as a list of effects, and the summary that
 * the pipeline's contracts are stated in. Every call the processor makes appends one effect.
 */
module Trace {
  import opened Wrappers
  import opened Jobs
  import opened Verification

  type Worktree = string
  type Patch = string

  /** The job's own context: live, or ended for one reason or the other. */
  datatype Context = Live | Canceled | DeadlineExceeded

  /** How a call into a collaborator ended. */
  datatype Outcome = Ok | Err | Panicked

  datatype EventKind =
    | JobStarted | JobCompleted | JobFailed | JobCancelled | StepStarted | StepCompleted
    | PlanCreated | WorkspaceCreated | ImplementationCompleted | VerificationCompleted
    | FanoutCompleted | DiffCaptured | ReviewStarted | ReviewCompleted | RevisionRequested

  datatype Verdict = Approve | RequestChanges | Reject

  datatype Effect =
    | Loaded(out: Outcome)
    | Looked(context: Context)
    | Selected(out: Outcome)
    | Planned(out: Outcome)
    | Published(kind: EventKind, out: Outcome)
    | Wrote(status: Status, out: Outcome)
    | Refused(from: Status, to: Status)
    | Created(ws: Worktree, out: Outcome)
    | Proposed(ws: Worktree, out: Outcome)
    | Applied(ws: Worktree, out: Outcome)
    | Verified(ws: Worktree, report: Report, out: Outcome)
    | Diffed(ws: Worktree, patch: Patch, out: Outcome)
    | Saved(patch: Patch, out: Outcome)
    | Reviewed(patch: Patch, report: Report, verdict: Verdict, notes: string, out: Outcome)
    | Cleaned(ws: Worktree, out: Outcome)

  /** Calls that touch a worktree other than to create or remove it. */
  predicate Uses(e: Effect, ws: Worktree) {
    (e.Applied? || e.Verified? || e.Diffed?) && e.ws == ws
  }

  predicate Ends(kind: EventKind) {
    kind == JobCompleted || kind == JobFailed || kind == JobCancelled
  }

  /** The event that announces a terminal status. */
  function Announces(kind: EventKind): Status
    requires Ends(kind)
  {
    match kind case JobCompleted => Completed case JobFailed => Failed case JobCancelled => Cancelled
  }

  datatype Seen = Seen(patch: Patch, report: Report, verdict: Verdict)

  /** What became of the job's record. */
  datatype Life = Life(
    path: seq<Status>,       // statuses handed to the store, in order
    ends: seq<EventKind>,    // terminal events handed to the bus
    refused: seq<Status>,    // transitions the table turned down
    spoiled: bool,           // a terminal status or event did not get through
    cancelled: bool,         // `cancelled` was handed to the store or announced
    seen: Context,           // how the first look that found the context ended found it
    late: bool)              // a status other than failed or cancelled was handed on after that

  /** What became of the worktrees. */
  datatype Checkouts = Checkouts(
    created: seq<Worktree>,  // handed out, in order
    cleaned: seq<Worktree>,  // handed to Cleanup, in order
    usedAfterCleanup: bool,
    createPanicked: bool,
    cleanupPanicked: bool)

  /** The patch of the current verifying pass: not asked for, read, stored, or lost to an error. */
  datatype Capture = Untried | Read(patch: Patch) | Stored(patch: Patch) | Missed

  /** The evidence for the attempts; from `certified` on it is about the current verifying pass. */
  datatype Evidence = Evidence(
    planned: bool,                    // the planner has delivered
    implFailed: set<Worktree>,        // worktrees whose proposal or application ever failed
    applied: set<Worktree>,           // worktrees a whole proposal was ever applied to
    changed: set<Worktree>,           // ... in the current implementing pass
    certified: map<Worktree, Report>, // passing reports, with no write since
    capture: Capture,
    review: Option<Seen>,             // the review this pass got
    blind: bool,                      // the last diff of this pass could not be read
    mute: bool,                       // some review, of any pass, asked for changes without notes
    said: string)                     // the notes of the last review

  /** What did not go as well as it can. */
  datatype Signs = Signs(
    trouble: bool,   // anything that can divert a job
    fatal: bool,     // an error of a call that no job gets past
    panicked: bool)  // a panic on its way up; one of the verifier's is caught at once

  datatype Summary = Summary(life: Life, checkouts: Checkouts, evidence: Evidence, signs: Signs)

  const NOTHING := Summary(
    Life([], [], [], false, false, Live, false),
    Checkouts([], [], false, false, false),
    Evidence(false, {}, {}, {}, map[], Untried, None, false, false, ""),
    Signs(false, false, false))

  /** The statuses a job that did not get through may be given. */
  predicate EndsEarly(status: Status) {
    status == Failed || status == Cancelled
  }

  function RecordLife(l: Life, e: Effect): Life {
    match e
    case Published(kind, out) =>
      if Ends(kind)
      then l.(ends := l.ends + [kind],
              spoiled := l.spoiled || out.Panicked?,
              cancelled := l.cancelled || kind.JobCancelled?)
      else l
    case Wrote(status, out) =>
      l.(path := l.path + [status],
         spoiled := l.spoiled || (Terminal(status) && !out.Ok?),
         cancelled := l.cancelled || status.Cancelled?,
         late := l.late || (!l.seen.Live? && !EndsEarly(status)))
    case Looked(context) => l.(seen := if l.seen.Live? then context else l.seen)
    case Refused(_, to) => l.(refused := l.refused + [to])
    case _ => l
  }

  function RecordCheckouts(c: Checkouts, e: Effect): Checkouts {
    match e
    case Created(ws, out) =>
      c.(created := if out.Ok? then c.created + [ws] else c.created,
         createPanicked := c.createPanicked || out.Panicked?)
    case Cleaned(ws, out) =>
      c.(cleaned := c.cleaned + [ws], cleanupPanicked := c.cleanupPanicked || out.Panicked?)
    case _ =>
      if (e.Applied? || e.Verified? || e.Diffed?) && e.ws in c.cleaned then c.(usedAfterCleanup := true) else c
  }

  /** Nothing is certified, captured or reviewed yet. */
  function Cleared(v: Evidence): Evidence {
    v.(certified := map[], capture := Untried, review := None, blind := false)
  }

  /** A review that asks for changes and does not say which. */
  predicate AsksForNothing(e: Effect) {
    e.Reviewed? && e.out.Ok? && e.verdict.RequestChanges? && e.notes == ""
  }

  function RecordEvidence(v: Evidence, e: Effect): Evidence {
    match e
    case Planned(out) => if out.Ok? then v.(planned := true) else v
    case Wrote(status, _) =>
      if status.Verifying? then Cleared(v) else if status.Implementing? then v.(changed := {}) else v
    case Proposed(ws, out) =>
      if out.Err? then v.(implFailed := v.implFailed + {ws}) else v
    case Applied(ws, out) =>
      Cleared(v).(implFailed := if out.Err? then v.implFailed + {ws} else v.implFailed,
                  applied := if out.Ok? then v.applied + {ws} else v.applied,
                  changed := if out.Ok? then v.changed + {ws} else v.changed)
    case Verified(ws, report, out) =>
      v.(certified := if out.Ok? && AllPassed(report) then v.certified[ws := report] else v.certified - {ws})
    case Diffed(ws, patch, out) =>
      v.(blind := out.Err?,
         capture := if !v.capture.Untried? then v.capture else if out.Ok? then Read(patch) else Missed)
    case Saved(patch, out) => v.(capture := if out.Ok? then Stored(patch) else Missed)
    case Reviewed(patch, report, verdict, notes, out) =>
      v.(review := if out.Ok? then Some(Seen(patch, report, verdict)) else None,
         mute := v.mute || AsksForNothing(e),
         said := notes)
    case _ => v
  }

  /**
   * What can divert a job: a look that finds the context ended, a refusal, a call without which it
   * cannot go on that does not succeed, a panic anywhere, a verification that is not a pass, and a
   * review that is not an approval. Errors that are only logged are not among them.
   */
  predicate Hitch(e: Effect) {
    match e
    case Looked(context) => !context.Live?
    case Refused(_, _) => true
    case Loaded(out) => !out.Ok?
    case Planned(out) => !out.Ok?
    case Wrote(_, out) => !out.Ok?
    case Created(_, out) => !out.Ok?
    case Proposed(_, out) => !out.Ok?
    case Applied(_, out) => !out.Ok?
    case Verified(_, report, out) => !out.Ok? || !AllPassed(report)
    case Reviewed(_, _, verdict, _, out) => !out.Ok? || !verdict.Approve?
    case Selected(out) => out.Panicked?
    case Published(_, out) => out.Panicked?
    case Diffed(_, _, out) => out.Panicked?
    case Saved(_, out) => out.Panicked?
    case Cleaned(_, out) => out.Panicked?
  }

  /** The record could not be read, planning, creating, writing a status or reviewing came back with an error. */
  predicate Fatal(e: Effect) {
    (e.Loaded? || e.Planned? || e.Created? || e.Wrote? || e.Reviewed?) && e.out.Err?
  }

  predicate Panics(e: Effect) {
    !e.Looked? && !e.Refused? && !e.Verified? && e.out.Panicked?
  }

  function RecordSigns(s: Signs, e: Effect): Signs {
    Signs(s.trouble || Hitch(e), s.fatal || Fatal(e), s.panicked || Panics(e))
  }

  function Record(s: Summary, e: Effect): Summary {
    Summary(RecordLife(s.life, e), RecordCheckouts(s.checkouts, e), RecordEvidence(s.evidence, e),
            RecordSigns(s.signs, e))
  }

  function Summarise(trace: seq<Effect>): Summary {
    if trace == [] then NOTHING
    else Record(Summarise(trace[..|trace| - 1]), trace[|trace| - 1])
  }

  lemma SummariseSnoc(trace: seq<Effect>, e: Effect)
    ensures Summarise(trace + [e]) == Record(Summarise(trace), e)
  {
    assert (trace + [e])[..|trace|] == trace;
  }

  // ---- What the summary says about the trace --------------------------------

  /** After `e`, an earlier verification of `ws` no longer counts. */
  predicate Overrides(e: Effect, ws: Worktree) {
    e.Applied? || (e.Verified? && e.ws == ws) || (e.Wrote? && e.status.Verifying?)
  }

  /**
   * Position `at` is a passing verification of `ws`, and since then no candidate was written to,
   * `ws` was not verified again, and no new verifying pass began.
   */
  predicate FreshPass(trace: seq<Effect>, ws: Worktree, report: Report, at: nat) {
    && at < |trace|
    && trace[at] == Verified(ws, report, Ok)
    && AllPassed(report)
    && forall k :: at < k < |trace| ==> !Overrides(trace[k], ws)
  }

  /** The last effect of a non-empty trace is recorded on top of the summary of the rest. */
  lemma Unsnoc(trace: seq<Effect>) returns (before: seq<Effect>, e: Effect, s: Summary)
    requires trace != []
    ensures before == trace[..|trace| - 1] && e == trace[|trace| - 1] && trace == before + [e]
    ensures s == Summarise(before) && Summarise(trace) == Record(s, e)
    ensures forall k :: 0 <= k < |before| ==> before[k] == trace[k]
  {
    before, e := trace[..|trace| - 1], trace[|trace| - 1];
    s := Summarise(before);
  }

  lemma CertifiedStep(v: Evidence, e: Effect, ws: Worktree, report: Report)
    ensures (var next := RecordEvidence(v, e).certified;
             ws in next && next[ws] == report)
       <==> || (e == Verified(ws, report, Ok) && AllPassed(report))
            || (ws in v.certified && v.certified[ws] == report && !Overrides(e, ws))
  {
  }

  /** Certification means exactly that the trace holds a fresh pass with that report. */
  lemma {:induction false} CertifiedMeansFresh(trace: seq<Effect>, ws: Worktree, report: Report)
    ensures (ws in Summarise(trace).evidence.certified && Summarise(trace).evidence.certified[ws] == report)
       <==> exists at: nat :: FreshPass(trace, ws, report, at)
  {
    if trace != [] {
      var before, e, s := Unsnoc(trace);
      CertifiedMeansFresh(before, ws, report);
      CertifiedStep(s.evidence, e, ws, report);
      if at: nat :| FreshPass(trace, ws, report, at) && at < |before| {
        assert FreshPass(before, ws, report, at);
      }
      if at: nat :| FreshPass(before, ws, report, at) && !Overrides(e, ws) {
        assert FreshPass(trace, ws, report, at);
      }
      if e == Verified(ws, report, Ok) && AllPassed(report) {
        assert FreshPass(trace, ws, report, |before|);
      }
    }
  }

  predicate FailsToImplement(e: Effect, ws: Worktree) {
    e == Proposed(ws, Err) || e == Applied(ws, Err)
  }

  lemma ImplFailedStep(s: Summary, e: Effect, ws: Worktree)
    ensures ws in Record(s, e).evidence.implFailed <==> ws in s.evidence.implFailed || FailsToImplement(e, ws)
  {
  }

  /** A worktree is in implFailed exactly when some proposal for it or write to it failed. */
  lemma {:induction false} ImplFailedMeans(trace: seq<Effect>, ws: Worktree)
    ensures ws in Summarise(trace).evidence.implFailed
       <==> exists k :: 0 <= k < |trace| && FailsToImplement(trace[k], ws)
  {
    if trace != [] {
      var before, e, s := Unsnoc(trace);
      hide Record, Summarise;
      ImplFailedMeans(before, ws);
      ImplFailedStep(s, e, ws);
      if FailsToImplement(e, ws) {
        assert FailsToImplement(trace[|before|], ws);
      }
      if k :| 0 <= k < |before| && FailsToImplement(before[k], ws) {
        assert FailsToImplement(trace[k], ws);
      }
    }
  }

  lemma AppliedStep(s: Summary, e: Effect, ws: Worktree)
    ensures ws in Record(s, e).evidence.applied <==> ws in s.evidence.applied || e == Applied(ws, Ok)
  {
  }

  /** A worktree is in `applied` exactly when some proposal was applied to it in full. */
  lemma {:induction false} AppliedMeans(trace: seq<Effect>, ws: Worktree)
    ensures ws in Summarise(trace).evidence.applied <==> Applied(ws, Ok) in trace
  {
    if trace != [] {
      hide Record, Summarise;
      var before, e, s := Unsnoc(trace);
      AppliedMeans(before, ws);
      AppliedStep(s, e, ws);
    }
  }

  lemma EvidenceStep(s: Summary, e: Effect)
    ensures var v, next := s.evidence, Record(s, e).evidence;
      && (next.planned ==> v.planned || e == Planned(Ok))
      && (next.capture.Stored? ==> next.capture == v.capture || e == Saved(next.capture.patch, Ok))
      && (next.review.Some? ==>
            var seen := next.review.value;
            next.review == v.review || e == Reviewed(seen.patch, seen.report, seen.verdict, next.said, Ok))
  {
  }

  /** What is stored and reviewed in the summary was stored and reviewed in the trace. */
  lemma {:induction false} EvidenceIsInTrace(trace: seq<Effect>)
    ensures var v := Summarise(trace).evidence;
      && (v.planned ==> Planned(Ok) in trace)
      && (v.capture.Stored? ==> Saved(v.capture.patch, Ok) in trace)
      && (v.review.Some? ==>
            var seen := v.review.value;
            exists notes :: Reviewed(seen.patch, seen.report, seen.verdict, notes, Ok) in trace)
  {
    if trace != [] {
      var before, e, s := Unsnoc(trace);
      hide Record, Summarise;
      EvidenceIsInTrace(before);
      EvidenceStep(s, e);
      var now := Summarise(trace).evidence.review;
      if now.Some? && now == s.evidence.review {
        var notes :| Reviewed(now.value.patch, now.value.report, now.value.verdict, notes, Ok) in before;
        assert Reviewed(now.value.patch, now.value.report, now.value.verdict, notes, Ok) in trace;
      }
    }
  }

  lemma MuteStep(s: Summary, e: Effect)
    ensures Record(s, e).evidence.mute <==> s.evidence.mute || AsksForNothing(e)
  {
  }

  /** `mute` is set exactly when some review asked for changes without notes. */
  lemma {:induction false} MuteMeans(trace: seq<Effect>)
    ensures Summarise(trace).evidence.mute <==> exists k :: 0 <= k < |trace| && AsksForNothing(trace[k])
  {
    if trace != [] {
      var before, e, s := Unsnoc(trace);
      hide Record, Summarise, AsksForNothing;
      MuteMeans(before);
      MuteStep(s, e);
      assert trace[|before|] == e;
      if k :| 0 <= k < |before| && AsksForNothing(before[k]) {
        assert AsksForNothing(trace[k]);
      }
    }
  }

  /** A look that finds the context ended is remembered. */
  lemma {:induction false} SeenStays(trace: seq<Effect>, i: nat)
    requires i < |trace| && trace[i].Looked? && !trace[i].context.Live?
    ensures !Summarise(trace).life.seen.Live?
  {
    if i < |trace| - 1 {
      SeenStays(trace[..|trace| - 1], i);
    }
  }

  /** Without a late write, all that is written after such a look is failed or cancelled. */
  lemma {:induction false} LateMeans(trace: seq<Effect>, i: nat, j: nat)
    requires !Summarise(trace).life.late
    requires i < j < |trace| && trace[i].Looked? && !trace[i].context.Live? && trace[j].Wrote?
    ensures EndsEarly(trace[j].status)
  {
    var before := trace[..|trace| - 1];
    if j < |before| {
      LateMeans(before, i, j);
    } else {
      SeenStays(before, i);
    }
  }

  predicate Removes(e: Effect, ws: Worktree) {
    e.Cleaned? && e.ws == ws
  }

  function Removals(trace: seq<Effect>, ws: Worktree): nat {
    if trace == [] then 0
    else Removals(trace[..|trace| - 1], ws) + if Removes(trace[|trace| - 1], ws) then 1 else 0
  }

  /** A worktree is listed in `cleaned` as often as the trace removes it. */
  lemma {:induction false} CleanedCounts(trace: seq<Effect>, ws: Worktree)
    ensures multiset(Summarise(trace).checkouts.cleaned)[ws] == Removals(trace, ws)
  {
    if trace != [] {
      var before, e, s := Unsnoc(trace);
      CleanedCounts(before, ws);
      if e.Cleaned? {
        assert multiset(s.checkouts.cleaned + [e.ws]) == multiset(s.checkouts.cleaned) + multiset{e.ws};
      }
    }
  }

  lemma CleanedSnoc(c: Checkouts, e: Effect)
    ensures RecordCheckouts(c, e).cleaned == c.cleaned + if e.Cleaned? then [e.ws] else []
  {
  }

  lemma {:induction false} RemovedIsCleaned(trace: seq<Effect>, ws: Worktree, at: nat)
    requires at < |trace| && Removes(trace[at], ws)
    ensures ws in Summarise(trace).checkouts.cleaned
  {
    var last := |trace| - 1;
    CleanedSnoc(Summarise(trace[..last]).checkouts, trace[last]);
    if at < last {
      RemovedIsCleaned(trace[..last], ws, at);
    }
  }

  /** Without a use after cleanup, every use of a worktree comes before its removal. */
  lemma {:induction false} UsesPrecedeRemoval(trace: seq<Effect>, ws: Worktree, i: nat, j: nat)
    requires !Summarise(trace).checkouts.usedAfterCleanup
    requires i < j < |trace| && Removes(trace[i], ws)
    ensures !Uses(trace[j], ws)
  {
    var before, e, s := Unsnoc(trace);
    if j < |before| {
      UsesPrecedeRemoval(before, ws, i, j);
    } else {
      RemovedIsCleaned(before, ws, i);
    }
  }

  /** A worktree is in `created` exactly when some Create handed it out. */
  lemma {:induction false} CreatedMeans(trace: seq<Effect>, ws: Worktree)
    ensures ws in Summarise(trace).checkouts.created <==> Created(ws, Ok) in trace
  {
    if trace != [] {
      var before, e, s := Unsnoc(trace);
      CreatedMeans(before, ws);
    }
  }

  predicate CreatePanics(e: Effect) {
    e.Created? && e.out.Panicked?
  }

  lemma {:induction false} CreatePanicMeans(trace: seq<Effect>)
    ensures Summarise(trace).checkouts.createPanicked <==> exists k :: 0 <= k < |trace| && CreatePanics(trace[k])
  {
    if trace != [] {
      hide Record, Summarise, CreatePanics;
      var before, e, s := Unsnoc(trace);
      CreatePanicMeans(before);
      CreatePanicStep(s, e);
      assert trace[|before|] == e;
      if k :| 0 <= k < |before| && CreatePanics(before[k]) {
        assert CreatePanics(trace[k]);
      }
    }
  }

  lemma CreatePanicStep(s: Summary, e: Effect)
    ensures Record(s, e).checkouts.createPanicked <==> s.checkouts.createPanicked || CreatePanics(e)
  {
  }

  /** The signs are set exactly by the effects of their kind. */
  lemma {:induction false} SignsMean(trace: seq<Effect>)
    ensures Summarise(trace).signs.trouble <==> exists k :: 0 <= k < |trace| && Hitch(trace[k])
    ensures Summarise(trace).signs.fatal <==> exists k :: 0 <= k < |trace| && Fatal(trace[k])
    ensures Summarise(trace).signs.panicked <==> exists k :: 0 <= k < |trace| && Panics(trace[k])
  {
    if trace != [] {
      hide Hitch, Fatal, Panics, RecordLife, RecordCheckouts, RecordEvidence, Summarise;
      var before, e, s := Unsnoc(trace);
      SignsMean(before);
      assert trace[|before|] == e;
      if k :| 0 <= k < |before| && Hitch(before[k]) {
        assert Hitch(trace[k]);
      }
      if k :| 0 <= k < |before| && Fatal(before[k]) {
        assert Fatal(trace[k]);
      }
      if k :| 0 <= k < |before| && Panics(before[k]) {
        assert Panics(trace[k]);
      }
    }
  }

  lemma QuietStep(s: Summary, e: Effect)
    requires s.life.seen.Live? && !s.life.spoiled && s.evidence.implFailed == {} && !Hitch(e)
    ensures var t := Record(s, e); t.life.seen.Live? && !t.life.spoiled && t.evidence.implFailed == {}
  {
  }

  /** Without trouble no look has found the context ended, no ending was lost and no attempt has failed. */
  lemma {:induction false} QuietMeans(trace: seq<Effect>)
    requires !Summarise(trace).signs.trouble
    ensures var s := Summarise(trace); s.life.seen.Live? && !s.life.spoiled && s.evidence.implFailed == {}
  {
    if trace != [] {
      var before, e, s := Unsnoc(trace);
      QuietMeans(before);
      QuietStep(s, e);
    }
  }

  /** `e` begins an implementing pass. */
  predicate BeginsPass(e: Effect) {
    e.Wrote? && e.status.Implementing?
  }

  lemma ChangedStep(s: Summary, e: Effect, ws: Worktree)
    ensures ws in Record(s, e).evidence.changed
       <==> e == Applied(ws, Ok) || (ws in s.evidence.changed && !BeginsPass(e))
  {
  }

  /** A worktree counts as changed exactly when a proposal was applied to it in full since the last pass began. */
  lemma {:induction false} ChangedMeans(trace: seq<Effect>, ws: Worktree)
    ensures ws in Summarise(trace).evidence.changed
       <==> exists at :: 0 <= at < |trace| && trace[at] == Applied(ws, Ok)
                         && forall k :: at < k < |trace| ==> !BeginsPass(trace[k])
  {
    if trace != [] {
      hide Record, Summarise, BeginsPass;
      var before, e, s := Unsnoc(trace);
      ChangedMeans(before, ws);
      ChangedStep(s, e, ws);
      assert trace[|before|] == e;
      if at :| 0 <= at < |before| && before[at] == Applied(ws, Ok)
               && forall k :: at < k < |before| ==> !BeginsPass(before[k])
      {
        assert trace[at] == Applied(ws, Ok);
        assert !BeginsPass(e) ==> forall k :: at < k < |trace| ==> !BeginsPass(trace[k]);
      }
    }
  }

  /** The summary knows how a look found the context ended only from such a look. */
  lemma {:induction false} SeenMeans(trace: seq<Effect>)
    ensures !Summarise(trace).life.seen.Live? ==> Looked(Summarise(trace).life.seen) in trace
  {
    if trace != [] {
      var before, e, s := Unsnoc(trace);
      SeenMeans(before);
    }
  }
}
