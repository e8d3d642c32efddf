/**
 * When a job may return an attempt that failed to implement: the exact condition on how the processor
 * is put together, and a run that does it, effect by effect, for every one that meets it.
 */
module DeadAttempt {
  import opened Wrappers
  import opened Jobs
  import opened Verification
  import opened Trace
  import opened World
  import opened Fanout
  import opened Orchestration

  /**
   * All that Process promises of a job it loaded as queued and left completed, returning nil and, as
   * there are workspaces, an attempt. `ctx` is how it left the job's context.
   */
  predicate Promised(cfg: Config, id: string, s: Summary, ctx: Context, result: Worktree, patch: Patch,
                     artifact: Option<Patch>)
  {
    && WritesAlongTheList(Queued, s.life) && EndsUnlessLost(Queued, s.life, Completed)
    && AnnouncedOnce(cfg.bus, Queued, s.life, Completed) && StopsWhenTold(Queued, s.life, Completed, ctx)
    && ReturnsTruly(cfg.bus, s.life, Completed, Returned(None)) && Warranted(cfg, s, Returned(None))
    && WellNamed(id, VariantCount(cfg.variants), s.checkouts.created) && TidiedUp(s.checkouts)
    && cfg.workspaces && Delivered(cfg, s, result, patch, artifact)
  }

  /** Nothing judges the attempts but a reviewer, and an implementor works on at least two of them. */
  predicate MayReturnDead(cfg: Config) {
    cfg.workspaces && !cfg.verifier && cfg.reviewer && cfg.implementor && VariantCount(cfg.variants) >= 2
  }

  // ---- The run, as effects -------------------------------------------------------------

  function Say(cfg: Config, kind: EventKind): seq<Effect> {
    if cfg.bus then [Published(kind, Ok)] else []
  }

  function Name(cfg: Config, id: string, k: nat): Worktree
    requires k < MAX_VARIANTS
  {
    VariantId(id, k, VariantCount(cfg.variants))
  }

  /** The first `n` attempts are created. */
  function Creations(cfg: Config, id: string, n: nat): seq<Effect>
    requires n <= MAX_VARIANTS
  {
    if n == 0 then [] else Creations(cfg, id, n - 1) + [Created(Name(cfg, id, n - 1), Ok)]
  }

  function Announcements(cfg: Config, n: nat): seq<Effect> {
    if n == 0 then [] else Announcements(cfg, n - 1) + Say(cfg, WorkspaceCreated)
  }

  /** One attempt's turn at implementing. */
  function TurnOf(cfg: Config, ws: Worktree, works: bool): seq<Effect> {
    if works then [Proposed(ws, Ok)] + [Applied(ws, Ok)] + Say(cfg, ImplementationCompleted) else [Proposed(ws, Err)]
  }

  /** The turns of the first `n` attempts: either only attempt 0 works, or all but it do. */
  function Pass(cfg: Config, id: string, onlyFirst: bool, n: nat): seq<Effect>
    requires n <= MAX_VARIANTS
  {
    if n == 0 then []
    else Pass(cfg, id, onlyFirst, n - 1) + TurnOf(cfg, Name(cfg, id, n - 1), onlyFirst <==> n == 1)
  }

  function Reading(cfg: Config, ws: Worktree): seq<Effect> {
    if cfg.artifacts then [Diffed(ws, "", Ok)] + Say(cfg, DiffCaptured) else []
  }

  /** A review without notes. */
  function ReviewOf(cfg: Config, ws: Worktree, verdict: Verdict): seq<Effect> {
    Say(cfg, ReviewStarted) + [Diffed(ws, "", Ok)] + [Reviewed("", Report([]), verdict, "", Ok)]
    + Say(cfg, ReviewCompleted) + if verdict.RequestChanges? then Say(cfg, RevisionRequested) else []
  }

  function Thinking(cfg: Config): seq<Effect> {
    if cfg.planner
    then (if cfg.selector then [Selected(Ok)] else []) + [Planned(Ok)] + Say(cfg, PlanCreated)
    else []
  }

  /**
   * The work of step `k`. First every attempt but attempt 0 fails; the reviewer asks for changes and
   * leaves no notes; so all are asked again, and now attempt 0 fails. It is still the one to show.
   */
  function WorkOfStep(cfg: Config, id: string, k: nat): seq<Effect> {
    var n := VariantCount(cfg.variants);
    match k
    case 0 => Thinking(cfg)
    case 1 => Creations(cfg, id, n) + Announcements(cfg, n)
    case 2 => Pass(cfg, id, true, n)
    case 3 => Reading(cfg, Name(cfg, id, 0))
    case 4 => ReviewOf(cfg, Name(cfg, id, 0), RequestChanges)
    case 6 => Pass(cfg, id, false, n)
    case 7 => Reading(cfg, Name(cfg, id, 0))
    case 8 => ReviewOf(cfg, Name(cfg, id, 0), Approve)
    case _ => []
  }

  /** A look at the context and the status write; then the work; then the pause, with its look. */
  function Enter(cfg: Config, status: Status): seq<Effect> {
    [Looked(Live)] + Say(cfg, StepStarted) + [Wrote(status, Ok)]
  }

  function Leave(cfg: Config): seq<Effect> {
    Say(cfg, StepCompleted) + [Looked(Live)]
  }

  function Steps(cfg: Config, id: string, n: nat): seq<Effect> {
    if n == 0 then [Loaded(Ok)] + Say(cfg, JobStarted)
    else Steps(cfg, id, n - 1) + Enter(cfg, StepAt(n - 1)) + WorkOfStep(cfg, id, n - 1) + Leave(cfg)
  }

  function Removed(cfg: Config, id: string, n: nat): seq<Effect>
    requires n <= MAX_VARIANTS
  {
    if n == 0 then [] else Removed(cfg, id, n - 1) + [Cleaned(Name(cfg, id, n - 1), Ok)]
  }

  function Run(cfg: Config, id: string): seq<Effect> {
    Steps(cfg, id, 9) + Enter(cfg, Completed) + Say(cfg, StepCompleted) + Say(cfg, JobCompleted)
    + Removed(cfg, id, VariantCount(cfg.variants))
  }

  // ---- What effects come to --------------------------------------------------------------

  /** The summary `s` with `effects` recorded on top. */
  function Told(s: Summary, effects: seq<Effect>): Summary {
    if effects == [] then s
    else Record(Told(s, effects[..|effects| - 1]), effects[|effects| - 1])
  }

  lemma {:induction false} SummaryIsTold(trace: seq<Effect>)
    ensures Summarise(trace) == Told(NOTHING, trace)
  {
    hide Record;
    if trace != [] {
      SummaryIsTold(trace[..|trace| - 1]);
    }
  }

  lemma {:induction false} ThenTold(s: Summary, a: seq<Effect>, b: seq<Effect>)
    ensures Told(s, a + b) == Told(Told(s, a), b)
  {
    hide Record;
    if b == [] {
      assert a + b == a;
    } else {
      var n := |b| - 1;
      ThenTold(s, a, b[..n]);
      assert (a + b)[..|a + b| - 1] == a + b[..n];
    }
  }

  lemma OneTold(s: Summary, e: Effect)
    ensures Told(s, [e]) == Record(s, e)
  {
    assert [e][..0] == [];
  }

  lemma SayIsQuiet(cfg: Config, kind: EventKind, s: Summary)
    requires !Ends(kind)
    ensures Told(s, Say(cfg, kind)) == s
  {
    OneTold(s, Published(kind, Ok));
  }

  /** Work that only adds to what failed. A write may discard the patch that was read, and nothing else is read. */
  predicate Adds(a: Summary, b: Summary) {
    && OnlyStageWork(a, b) && b.evidence.planned == a.evidence.planned && b.evidence.mute == a.evidence.mute
    && a.evidence.implFailed <= b.evidence.implFailed
    && (b.evidence.capture.Untried? || b.evidence.capture == a.evidence.capture)
  }

  lemma FailureAdds(s: Summary, ws: Worktree)
    ensures Adds(s, Record(s, Proposed(ws, Err))) && ws in Record(s, Proposed(ws, Err)).evidence.implFailed
  {
  }

  lemma WorkAdds(s: Summary, ws: Worktree)
    ensures Adds(s, Record(Record(s, Proposed(ws, Ok)), Applied(ws, Ok)))
  {
  }

  lemma TurnAdds(cfg: Config, s: Summary, ws: Worktree, works: bool)
    ensures var t := Told(s, TurnOf(cfg, ws, works)); Adds(s, t) && (!works ==> ws in t.evidence.implFailed)
  {
    hide Record, Told, Adds;
    if works {
      var proposed := Record(s, Proposed(ws, Ok));
      OneTold(s, Proposed(ws, Ok));
      OneTold(proposed, Applied(ws, Ok));
      ThenTold(s, [Proposed(ws, Ok)], [Applied(ws, Ok)]);
      ThenTold(s, [Proposed(ws, Ok)] + [Applied(ws, Ok)], Say(cfg, ImplementationCompleted));
      SayIsQuiet(cfg, ImplementationCompleted, Record(proposed, Applied(ws, Ok)));
      WorkAdds(s, ws);
    } else {
      OneTold(s, Proposed(ws, Err));
      FailureAdds(s, ws);
    }
  }

  /** After the turns of `n` attempts those that did not work have failed. */
  lemma {:induction false} PassAdds(cfg: Config, id: string, onlyFirst: bool, s: Summary, n: nat)
    requires n <= MAX_VARIANTS && s.checkouts.cleaned == []
    ensures var t := Told(s, Pass(cfg, id, onlyFirst, n));
      && Adds(s, t)
      && forall k :: 0 <= k < n && (onlyFirst <==> k != 0) ==> Name(cfg, id, k) in t.evidence.implFailed
  {
    hide Record, TurnOf, Name;
    if n > 0 {
      var before := Told(s, Pass(cfg, id, onlyFirst, n - 1));
      PassAdds(cfg, id, onlyFirst, s, n - 1);
      ThenTold(s, Pass(cfg, id, onlyFirst, n - 1), TurnOf(cfg, Name(cfg, id, n - 1), onlyFirst <==> n == 1));
      TurnAdds(cfg, before, Name(cfg, id, n - 1), onlyFirst <==> n == 1);
    }
  }

  lemma CreateRecords(s: Summary, ws: Worktree)
    ensures Record(s, Created(ws, Ok)) == s.(checkouts := s.checkouts.(created := s.checkouts.created + [ws]))
  {
  }

  lemma {:induction false} CreationsTold(cfg: Config, id: string, s: Summary, n: nat)
    requires n <= MAX_VARIANTS && s.checkouts == NOTHING.checkouts
    ensures Told(s, Creations(cfg, id, n))
         == s.(checkouts := s.checkouts.(created := VariantIds(id, VariantCount(cfg.variants), n)))
  {
    hide Record, Told, VariantId;
    if n == 0 {
      NothingTold(s);
    } else {
      var before, ws := Creations(cfg, id, n - 1), Name(cfg, id, n - 1);
      CreationsTold(cfg, id, s, n - 1);
      ThenTold(s, before, [Created(ws, Ok)]);
      OneTold(Told(s, before), Created(ws, Ok));
      CreateRecords(Told(s, before), ws);
    }
  }

  lemma {:induction false} AnnouncementsAreQuiet(cfg: Config, s: Summary, n: nat)
    ensures Told(s, Announcements(cfg, n)) == s
  {
    hide Record, Say;
    if n > 0 {
      AnnouncementsAreQuiet(cfg, s, n - 1);
      ThenTold(s, Announcements(cfg, n - 1), Say(cfg, WorkspaceCreated));
      SayIsQuiet(cfg, WorkspaceCreated, s);
    }
  }

  lemma ReadingTold(cfg: Config, s: Summary, ws: Worktree)
    requires s.evidence.capture.Untried? && ws !in s.checkouts.cleaned
    ensures Told(s, Reading(cfg, ws))
         == if cfg.artifacts then s.(evidence := s.evidence.(blind := false, capture := Read(""))) else s
  {
    if cfg.artifacts {
      OneTold(s, Diffed(ws, "", Ok));
      ThenTold(s, [Diffed(ws, "", Ok)], Say(cfg, DiffCaptured));
      SayIsQuiet(cfg, DiffCaptured, Record(s, Diffed(ws, "", Ok)));
    }
  }

  function AfterReview(s: Summary, verdict: Verdict): Summary {
    var v := s.evidence;
    s.(evidence := v.(blind := false, capture := Read(""), review := Some(Seen("", Report([]), verdict)),
                      mute := v.mute || verdict.RequestChanges?, said := ""),
       signs := s.signs.(trouble := s.signs.trouble || !verdict.Approve?))
  }

  lemma ReviewRecorded(s: Summary, ws: Worktree, verdict: Verdict)
    requires s.evidence.capture.Untried? || s.evidence.capture == Read("")
    requires ws !in s.checkouts.cleaned
    ensures Record(Record(s, Diffed(ws, "", Ok)), Reviewed("", Report([]), verdict, "", Ok)) == AfterReview(s, verdict)
  {
  }

  lemma ReviewTold(cfg: Config, s: Summary, ws: Worktree, verdict: Verdict)
    requires s.evidence.capture.Untried? || s.evidence.capture == Read("")
    requires ws !in s.checkouts.cleaned
    ensures Told(s, ReviewOf(cfg, ws, verdict)) == AfterReview(s, verdict)
  {
    hide Record, Told, AfterReview, Say;
    var diffed, judged := Diffed(ws, "", Ok), Reviewed("", Report([]), verdict, "", Ok);
    var started, completed := Say(cfg, ReviewStarted), Say(cfg, ReviewCompleted);
    var end := AfterReview(s, verdict);
    ReviewRecorded(s, ws, verdict);
    SayIsQuiet(cfg, ReviewStarted, s);
    OneTold(s, diffed);
    OneTold(Record(s, diffed), judged);
    SayIsQuiet(cfg, ReviewCompleted, end);
    SayIsQuiet(cfg, RevisionRequested, end);
    ThenTold(s, started, [diffed]);
    ThenTold(s, started + [diffed], [judged]);
    ThenTold(s, started + [diffed] + [judged], completed);
    ThenTold(s, started + [diffed] + [judged] + completed, Say(cfg, RevisionRequested));
    assert started + [diffed] + [judged] + completed + [] == started + [diffed] + [judged] + completed;
  }

  lemma ThoughtRecords(s: Summary)
    ensures Record(s, Selected(Ok)) == s
    ensures Record(s, Planned(Ok)) == s.(evidence := s.evidence.(planned := true))
  {
  }

  lemma ThinkingTold(cfg: Config, s: Summary)
    ensures Told(s, Thinking(cfg)) == if cfg.planner then s.(evidence := s.evidence.(planned := true)) else s
  {
    hide Record, Say;
    if cfg.planner {
      ThoughtRecords(s);
      var select := if cfg.selector then [Selected(Ok)] else [];
      OneTold(s, Selected(Ok));
      OneTold(s, Planned(Ok));
      ThenTold(s, select, [Planned(Ok)]);
      ThenTold(s, select + [Planned(Ok)], Say(cfg, PlanCreated));
      SayIsQuiet(cfg, PlanCreated, Record(s, Planned(Ok)));
    }
  }

  lemma LoadIsQuiet(s: Summary)
    ensures Record(s, Loaded(Ok)) == s
  {
  }

  lemma LookIsQuiet(s: Summary)
    ensures Told(s, [Looked(Live)]) == s
  {
    OneTold(s, Looked(Live));
  }

  /** What writing a status does to the evidence. */
  function Entered(v: Evidence, status: Status): Evidence {
    RecordEvidence(v, Wrote(status, Ok))
  }

  /** Entering a step writes its status. */
  lemma EnterTold(cfg: Config, s: Summary, status: Status)
    requires s.life.seen.Live? && !s.life.spoiled && status != Cancelled
    ensures Told(s, Enter(cfg, status))
         == Summary(s.life.(path := s.life.path + [status]), s.checkouts,
                    Entered(s.evidence, status), s.signs)
  {
    LookIsQuiet(s);
    SayIsQuiet(cfg, StepStarted, s);
    OneTold(s, Wrote(status, Ok));
    ThenTold(s, [Looked(Live)], Say(cfg, StepStarted));
    ThenTold(s, [Looked(Live)] + Say(cfg, StepStarted), [Wrote(status, Ok)]);
  }

  lemma LeaveIsQuiet(cfg: Config, s: Summary)
    ensures Told(s, Leave(cfg)) == s
  {
    SayIsQuiet(cfg, StepCompleted, s);
    LookIsQuiet(s);
    ThenTold(s, Say(cfg, StepCompleted), [Looked(Live)]);
  }

  // ---- Step by step ------------------------------------------------------------------------

  /** What stands when `k` steps are done. */
  predicate Stands(cfg: Config, id: string, k: nat, s: Summary) {
    var n, v := VariantCount(cfg.variants), s.evidence;
    && s.life == NOTHING.life.(path := Taken(k))
    && s.checkouts == NOTHING.checkouts.(created := if k < 2 then [] else VariantIds(id, n, n))
    && (k >= 1 && cfg.planner ==> v.planned)
    && (k >= 3 ==> forall j :: 1 <= j < n ==> Name(cfg, id, j) in v.implFailed)
    && (k >= 5 ==> v.mute) && (k >= 7 ==> Name(cfg, id, 0) in v.implFailed)
    && (v.capture.Untried? || v.capture == Read("")) && (k >= 8 && cfg.artifacts ==> v.capture == Read(""))
    && (k == 9 ==> v.review == Some(Seen("", Report([]), Approve)) && !v.blind)
  }

  /** The work of one step, once it has been entered. */
  lemma WorkStands(cfg: Config, id: string, k: nat, s: Summary, entered: Summary)
    requires k < 9 && Stands(cfg, id, k, s)
    requires entered == Summary(s.life.(path := Taken(k + 1)), s.checkouts,
                                Entered(s.evidence, StepAt(k)), s.signs)
    ensures Stands(cfg, id, k + 1, Told(entered, WorkOfStep(cfg, id, k)))
  {
    hide Told, Record, Taken, VariantId, VariantIds, Thinking, Creations, Announcements, Pass, Reading, ReviewOf;
    var n := VariantCount(cfg.variants);
    match k
    case 0 => ThinkingTold(cfg, entered);
    case 1 =>
      CreationsTold(cfg, id, entered, n);
      ThenTold(entered, Creations(cfg, id, n), Announcements(cfg, n));
      AnnouncementsAreQuiet(cfg, Told(entered, Creations(cfg, id, n)), n);
    case 2 => PassAdds(cfg, id, true, entered, n);
    case 3 => ReadingTold(cfg, entered, Name(cfg, id, 0));
    case 4 => ReviewTold(cfg, entered, Name(cfg, id, 0), RequestChanges);
    case 6 => PassAdds(cfg, id, false, entered, n);
    case 7 => ReadingTold(cfg, entered, Name(cfg, id, 0));
    case 8 => ReviewTold(cfg, entered, Name(cfg, id, 0), Approve);
    case _ => NothingTold(entered);
  }

  lemma NothingTold(s: Summary)
    ensures Told(s, []) == s
  {
  }

  lemma {:induction false} StepsStand(cfg: Config, id: string, k: nat)
    requires k <= 9
    ensures Stands(cfg, id, k, Told(NOTHING, Steps(cfg, id, k)))
  {
    hide Told, Record, WorkOfStep, Enter, Leave, Say, StepAt;
    if k == 0 {
      OneTold(NOTHING, Loaded(Ok));
      ThenTold(NOTHING, [Loaded(Ok)], Say(cfg, JobStarted));
      SayIsQuiet(cfg, JobStarted, NOTHING);
      LoadIsQuiet(NOTHING);
    } else {
      StepsStand(cfg, id, k - 1);
      StepFollowsStep(k - 1);
      var before, enter, work := Steps(cfg, id, k - 1), Enter(cfg, StepAt(k - 1)), WorkOfStep(cfg, id, k - 1);
      var s := Told(NOTHING, before);
      var entered := Told(s, enter);
      EnterTold(cfg, s, StepAt(k - 1));
      WorkStands(cfg, id, k - 1, s, entered);
      LeaveIsQuiet(cfg, Told(entered, work));
      ThenTold(NOTHING, before, enter);
      ThenTold(NOTHING, before + enter, work);
      ThenTold(NOTHING, before + enter + work, Leave(cfg));
    }
  }

  // ---- The end -----------------------------------------------------------------------------

  lemma CleanRecords(s: Summary, ws: Worktree)
    ensures Record(s, Cleaned(ws, Ok)) == s.(checkouts := s.checkouts.(cleaned := s.checkouts.cleaned + [ws]))
  {
  }

  lemma {:induction false} RemovedTold(cfg: Config, id: string, s: Summary, n: nat)
    requires n <= MAX_VARIANTS && s.checkouts.cleaned == []
    ensures Told(s, Removed(cfg, id, n))
         == s.(checkouts := s.checkouts.(cleaned := VariantIds(id, VariantCount(cfg.variants), n)))
  {
    hide Record, Told, VariantId;
    if n == 0 {
      NothingTold(s);
    } else {
      var before, ws := Removed(cfg, id, n - 1), Name(cfg, id, n - 1);
      RemovedTold(cfg, id, s, n - 1);
      ThenTold(s, before, [Cleaned(ws, Ok)]);
      OneTold(Told(s, before), Cleaned(ws, Ok));
      CleanRecords(Told(s, before), ws);
    }
  }

  function AfterEnd(cfg: Config, id: string, s: Summary): Summary {
    var n := VariantCount(cfg.variants);
    Summary(s.life.(path := s.life.path + [Completed], ends := if cfg.bus then [JobCompleted] else []),
            s.checkouts.(cleaned := VariantIds(id, n, n)), s.evidence, s.signs)
  }

  lemma CompletedTold(cfg: Config, s: Summary)
    requires s.life.ends == []
    ensures Told(s, Say(cfg, JobCompleted)) == s.(life := s.life.(ends := if cfg.bus then [JobCompleted] else []))
  {
    OneTold(s, Published(JobCompleted, Ok));
  }

  lemma RunTold(cfg: Config, id: string)
    ensures var s := Told(NOTHING, Steps(cfg, id, 9));
      Stands(cfg, id, 9, s) && Summarise(Run(cfg, id)) == AfterEnd(cfg, id, s)
  {
    hide Told, Record, Summarise, Enter, Say, Steps, Removed, Taken;
    var n, steps, enter := VariantCount(cfg.variants), Steps(cfg, id, 9), Enter(cfg, Completed);
    var said, ended := Say(cfg, StepCompleted), Say(cfg, JobCompleted);
    var s := Told(NOTHING, steps);
    StepsStand(cfg, id, 9);
    EnterTold(cfg, s, Completed);
    var completed := Told(s, enter);
    SayIsQuiet(cfg, StepCompleted, completed);
    CompletedTold(cfg, completed);
    RemovedTold(cfg, id, Told(completed, ended), n);
    ThenTold(NOTHING, steps, enter);
    ThenTold(NOTHING, steps + enter, said);
    ThenTold(NOTHING, steps + enter + said, ended);
    ThenTold(NOTHING, steps + enter + said + ended, Removed(cfg, id, n));
    SummaryIsTold(Run(cfg, id));
  }

  lemma LifeIsPromised(cfg: Config, l: Life)
    requires l == NOTHING.life.(path := Taken(9) + [Completed], ends := if cfg.bus then [JobCompleted] else [])
    ensures WritesAlongTheList(Queued, l) && EndsUnlessLost(Queued, l, Completed)
    ensures AnnouncedOnce(cfg.bus, Queued, l, Completed) && StopsWhenTold(Queued, l, Completed, Live)
    ensures ReturnsTruly(cfg.bus, l, Completed, Returned(None))
  {
    hide Taken, LegalPath, Follows;
    assert CanTransition(StepAt(8), Completed);
    ProgressIsLegal(Queued, l.path, Completed, 9);
  }

  lemma DeliveryIsPromised(cfg: Config, id: string, s: Summary)
    requires MayReturnDead(cfg) && Stands(cfg, id, 9, s)
    ensures Delivered(cfg, s, Name(cfg, id, 0), "", None) && Name(cfg, id, 0) in s.evidence.implFailed
  {
    hide Taken, VariantId;
    var n := VariantCount(cfg.variants);
    VariantIdsAre(id, n, n);
    forall other | other in s.checkouts.created ensures other in s.evidence.implFailed {
      var j :| 0 <= j < n && VariantIds(id, n, n)[j] == other;
      assert other == Name(cfg, id, j);
    }
    assert VariantIds(id, n, n)[0] == Name(cfg, id, 0);
  }

  /**
   * The run keeps all that Process promises and returns an attempt whose proposal failed, in the very
   * pass that was accepted.
   */
  lemma RunReturnsDead(cfg: Config, id: string)
    requires MayReturnDead(cfg)
    ensures Promised(cfg, id, Summarise(Run(cfg, id)), Live, Name(cfg, id, 0), "", None)
    ensures Name(cfg, id, 0) in Summarise(Run(cfg, id)).evidence.implFailed
  {
    hide Taken, Steps, Run, Summarise, Told, VariantId, VariantIds, Delivered;
    hide WritesAlongTheList, EndsUnlessLost, AnnouncedOnce, StopsWhenTold, ReturnsTruly;
    var n := VariantCount(cfg.variants);
    var s := Told(NOTHING, Steps(cfg, id, 9));
    RunTold(cfg, id);
    LifeIsPromised(cfg, AfterEnd(cfg, id, s).life);
    DeliveryIsPromised(cfg, id, s);
    DeliveredStays(cfg, s, AfterEnd(cfg, id, s), Name(cfg, id, 0), "", None);
    DistinctVariants(id, n, n);
  }

  /**
   * Exactly then: without a verifier, with a reviewer and an implementor, and with more than one
   * attempt, some run that keeps all that is promised returns an attempt that failed to implement.
   */
  lemma DeadAttemptIsReturned(cfg: Config, id: string)
    ensures (exists trace, ctx, result, patch, artifact ::
               && Promised(cfg, id, Summarise(trace), ctx, result, patch, artifact)
               && result in Summarise(trace).evidence.implFailed)
       <==> MayReturnDead(cfg)
  {
    hide Summarise, Run, WellNamed, Promised, MayReturnDead;
    if MayReturnDead(cfg) {
      RunReturnsDead(cfg, id);
    }
    forall trace, ctx, result, patch, artifact | Promised(cfg, id, Summarise(trace), ctx, result, patch, artifact)
                                                  && result in Summarise(trace).evidence.implFailed
      ensures MayReturnDead(cfg)
    {
      OnlyThen(cfg, id, Summarise(trace), ctx, result, patch, artifact);
    }
  }

  lemma OnlyThen(cfg: Config, id: string, s: Summary, ctx: Context, result: Worktree, patch: Patch,
                 artifact: Option<Patch>)
    requires Promised(cfg, id, s, ctx, result, patch, artifact) && result in s.evidence.implFailed
    ensures MayReturnDead(cfg)
  {
    hide VariantIds, WritesAlongTheList, EndsUnlessLost, AnnouncedOnce, StopsWhenTold, ReturnsTruly, TidiedUp;
    assert s.checkouts.created != [];
  }
}
