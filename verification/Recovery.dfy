/** What one recovery pass does to the store, the queue and the worktrees a crash left behind. */
module Recovery {
  import opened Wrappers
  import opened Jobs
  import opened Query
  import opened Repository
  import opened Intake
  import opened Fanout
  import opened Trace
  import L = Lifecycle

  datatype Report = Report(requeued: nat, failedInterrupted: nat, worktreesReclaimed: nat, unqueueable: nat)

  /**
   * What the pass cannot choose: whether the store can list its jobs, the jobs whose update it
   * refuses, the worktrees whose removal fails, whether worktrees are reclaimed at all, and whether
   * there is a bus.
   */
  datatype Setting = Setting(unlisted: bool, failing: set<string>, stuck: set<Worktree>, reclaims: bool, bus: bool)

  // ---- Worktrees of a crashed job ------------------------------------------------------

  function ReclaimIdsUpTo(jobId: string, n: nat): seq<Worktree>
    requires n <= MAX_VARIANTS
  {
    if n == 0 then [jobId] else ReclaimIdsUpTo(jobId, n - 1) + [VariantId(jobId, n - 1, MAX_VARIANTS)]
  }

  /** Every name an attempt at the job can have had. */
  function ReclaimIds(jobId: string): seq<Worktree> {
    ReclaimIdsUpTo(jobId, MAX_VARIANTS)
  }

  lemma {:induction false} ReclaimIdsAre(jobId: string, n: nat, w: Worktree)
    requires n <= MAX_VARIANTS
    ensures w in ReclaimIdsUpTo(jobId, n)
      <==> w == jobId || exists i: nat :: i < n && w == VariantId(jobId, i, MAX_VARIANTS)
  {
    if n > 0 {
      ReclaimIdsAre(jobId, n - 1, w);
    }
  }

  /** Nothing of the crashed run was recorded, yet every worktree it can have made is named. */
  lemma ReclaimCoversEveryAttempt(jobId: string, requested: int, i: nat)
    requires i < VariantCount(requested)
    ensures VariantId(jobId, i, VariantCount(requested)) in ReclaimIds(jobId)
  {
    var total := VariantCount(requested);
    assert total > 1 ==> VariantId(jobId, i, total) == VariantId(jobId, i, MAX_VARIANTS);
    ReclaimIdsAre(jobId, MAX_VARIANTS, VariantId(jobId, i, total));
  }

  /** Ids the service makes are hexadecimal; a name never belongs to two such jobs. */
  lemma ReclaimSparesOtherJobs(one: string, other: string, w: Worktree)
    requires '-' !in one && '-' !in other && w in ReclaimIds(one) && w in ReclaimIds(other)
    ensures one == other
  {
    ReclaimIdsAre(one, MAX_VARIANTS, w);
    ReclaimIdsAre(other, MAX_VARIANTS, w);
    NameIsItsOwn(one, w);
    NameIsItsOwn(other, w);
  }

  /** The job's id can be read back off any of its worktrees: it is what stands before the dash. */
  lemma NameIsItsOwn(jobId: string, w: Worktree)
    requires '-' !in jobId && w in ReclaimIds(jobId)
    ensures BeforeDash(w) == jobId
  {
    ReclaimIdsAre(jobId, MAX_VARIANTS, w);
    if w == jobId {
      BeforeDashIs(jobId, []);
      assert jobId + [] == jobId;
    } else {
      var i: nat :| i < MAX_VARIANTS && w == VariantId(jobId, i, MAX_VARIANTS);
      var suffix := "-v" + [('0' as int + i) as char];
      BeforeDashIs(jobId, suffix);
      assert w == jobId + suffix;
    }
  }

  function BeforeDash(w: string): string {
    if w == [] || w[0] == '-' then [] else [w[0]] + BeforeDash(w[1..])
  }

  lemma {:induction false} BeforeDashIs(name: string, rest: string)
    requires '-' !in name && (rest == [] || rest[0] == '-')
    ensures BeforeDash(name + rest) == name
  {
    if name == [] {
      assert name + rest == rest;
    } else {
      assert (name + rest)[1..] == name[1..] + rest;
      BeforeDashIs(name[1..], rest);
    }
  }

  /** The worktrees of `job` that a pass can and does remove. */
  ghost predicate Reclaimable(c: Setting, job: Record, w: Worktree) {
    c.reclaims && job.repoPath != "" && w in ReclaimIds(job.id) && w !in c.stuck
  }

  ghost function Kept(c: Setting, job: Record, present: set<Worktree>): set<Worktree> {
    set w | w in present && !Reclaimable(c, job, w)
  }

  /** Looks at every possible name and removes what is there. */
  method ReclaimWorktree(c: Setting, job: Record, present: set<Worktree>) returns (reclaimed: bool, left: set<Worktree>)
    ensures left == Kept(c, job, present)
    ensures reclaimed <==> left != present
  {
    reclaimed, left := false, present;
    if c.reclaims && job.repoPath != "" {
      var ids := ReclaimIds(job.id);
      for i := 0 to |ids|
        invariant left == set w | w in present && !(w in ids[..i] && w !in c.stuck)
        invariant reclaimed <==> left != present
      {
        if ids[i] in left && ids[i] !in c.stuck {
          left, reclaimed := left - {ids[i]}, true;
        }
      }
    }
  }

  // ---- The pass, part by part ------------------------------------------------------------

  datatype Kind = Waiting | Broken

  predicate Is(kind: Kind, status: Status) {
    match kind
    case Waiting => status == Queued
    case Broken => L.Interrupted(status)
  }

  /** The listed jobs of a kind, in listing order, leaving some out. */
  function Ids(list: seq<Record>, kind: Kind, except: set<string>): seq<string> {
    if list == [] then []
    else
      var job := list[|list| - 1];
      Ids(list[..|list| - 1], kind, except) + if Is(kind, job.status) && job.id !in except then [job.id] else []
  }

  function Reconciled(job: Record, failing: set<string>): Record {
    if L.Interrupted(job.status) && job.id !in failing then job.(status := Failed) else job
  }

  /** The store after the listed jobs have been looked at. */
  function JobsAfter(jobs: Index, list: seq<Record>, failing: set<string>): Index {
    if list == [] then jobs
    else
      var job := list[|list| - 1];
      var before := JobsAfter(jobs, list[..|list| - 1], failing);
      if Is(Broken, job.status) && job.id !in failing then before[job.id := Reconciled(job, failing)] else before
  }

  ghost function WorktreesAfter(c: Setting, present: set<Worktree>, list: seq<Record>): set<Worktree> {
    if list == [] then present
    else
      var job := list[|list| - 1];
      var before := WorktreesAfter(c, present, list[..|list| - 1]);
      if Is(Broken, job.status) then Kept(c, job, before) else before
  }

  /** How many jobs had a worktree removed. */
  ghost function Reclaims(c: Setting, present: set<Worktree>, list: seq<Record>): nat {
    if list == [] then 0
    else
      var before := list[..|list| - 1];
      Reclaims(c, present, before)
      + if WorktreesAfter(c, present, list) == WorktreesAfter(c, present, before) then 0 else 1
  }

  /** The queue once the listed jobs have been offered to it. */
  function QueueAfter(capacity: nat, queue: seq<string>, list: seq<Record>): seq<string>
    requires |queue| <= capacity
  {
    var waiting := Ids(list, Waiting, {});
    queue + waiting[..Min(|waiting|, capacity - |queue|)]
  }

  lemma OneMoreOffered(capacity: nat, queue: seq<string>, list: seq<Record>, i: nat)
    requires i < |list| && |queue| <= capacity
    ensures var before := QueueAfter(capacity, queue, list[..i]);
      && |queue| <= |before| <= capacity
      && QueueAfter(capacity, queue, list[..i + 1])
         == if list[i].status == Queued && |before| < capacity then before + [list[i].id] else before
  {
    assert list[..i + 1][..i] == list[..i];
  }

  /** How every other part of the pass moves on by one job. */
  lemma OneMore(c: Setting, jobs: Index, present: set<Worktree>, list: seq<Record>, i: nat)
    requires i < |list|
    ensures var job, done, next := list[i], list[..i], list[..i + 1];
      && Ids(next, Waiting, {}) == Ids(done, Waiting, {}) + (if job.status == Queued then [job.id] else [])
      && Ids(next, Broken, {}) == Ids(done, Broken, {}) + (if L.Interrupted(job.status) then [job.id] else [])
      && Ids(next, Broken, c.failing)
         == Ids(done, Broken, c.failing) + (if L.Interrupted(job.status) && job.id !in c.failing then [job.id] else [])
    ensures var job, done, next := list[i], list[..i], list[..i + 1];
      && JobsAfter(jobs, next, c.failing)
         == (if L.Interrupted(job.status) && job.id !in c.failing
             then JobsAfter(jobs, done, c.failing)[job.id := job.(status := Failed)]
             else JobsAfter(jobs, done, c.failing))
      && WorktreesAfter(c, present, next)
         == (if L.Interrupted(job.status) then Kept(c, job, WorktreesAfter(c, present, done))
             else WorktreesAfter(c, present, done))
      && Reclaims(c, present, next) == Reclaims(c, present, done)
         + (if WorktreesAfter(c, present, next) == WorktreesAfter(c, present, done) then 0 else 1)
  {
    assert list[..i + 1][..i] == list[..i];
  }

  lemma ListingIsFiled(list: seq<Record>, jobs: Index)
    requires IsListing(list, jobs)
    ensures forall r :: r in list ==> r.id in jobs
  {
  }

  /** Before the first job is looked at. */
  lemma NothingLookedAt(c: Setting, jobs: Index, present: set<Worktree>)
    ensures JobsAfter(jobs, [], c.failing) == jobs && WorktreesAfter(c, present, []) == present
    ensures Reclaims(c, present, []) == 0
    ensures forall kind, except :: Ids([], kind, except) == []
    ensures forall capacity: nat, queue :: |queue| <= capacity ==> QueueAfter(capacity, queue, []) == queue
  {
  }

  /** The event goes out before the record is written. */
  method FailInterrupted(repo: InMemoryRepository, job: Record, c: Setting, announced: seq<string>)
    returns (ok: bool, said: seq<string>)
    requires job.id in repo.jobs && L.Interrupted(job.status)
    modifies repo
    ensures ok <==> job.id !in c.failing
    ensures said == if c.bus then announced + [job.id] else announced
    ensures repo.jobs == if ok then old(repo.jobs)[job.id := job.(status := Failed)] else old(repo.jobs)
  {
    ok, said := false, announced;
    if CanTransition(job.status, Failed) {
      if c.bus {
        said := said + [job.id];
      }
      if job.id !in c.failing {
        var reply := repo.Update(job.(status := Failed));
        ok := reply.Stored?;
      }
    }
  }

  /** Looks at one job. Without a queue a waiting job is passed over. */
  method RecoverJob(repo: InMemoryRepository, q: Queue?, c: Setting, job: Record, so: Report, worktrees: set<Worktree>,
                    said: seq<string>)
    returns (report: Report, left: set<Worktree>, announced: seq<string>)
    requires (q != null ==> q.Valid()) && job.id in repo.jobs
    modifies repo, q
    ensures q != null ==>
      && q.Valid()
      && q.items == if job.status == Queued && |old(q.items)| < q.capacity then old(q.items) + [job.id]
                    else old(q.items)
    ensures repo.jobs == if L.Interrupted(job.status) && job.id !in c.failing
                         then old(repo.jobs)[job.id := job.(status := Failed)] else old(repo.jobs)
    ensures left == (if L.Interrupted(job.status) then Kept(c, job, worktrees) else worktrees)
    ensures announced == said + (if L.Interrupted(job.status) && c.bus then [job.id] else [])
    ensures report == Report(
      so.requeued + (if job.status == Queued && q != null && |old(q.items)| < q.capacity then 1 else 0),
      so.failedInterrupted + (if L.Interrupted(job.status) && job.id !in c.failing then 1 else 0),
      so.worktreesReclaimed + (if left == worktrees then 0 else 1),
      so.unqueueable + (if job.status == Queued && q != null && |old(q.items)| >= q.capacity then 1 else 0))
  {
    report, left, announced := so, worktrees, said;
    if job.status == Queued {
      if q != null {
        var ok := q.Enqueue(job.id);
        if ok {
          report := report.(requeued := so.requeued + 1);
        } else {
          report := report.(unqueueable := so.unqueueable + 1);
        }
      }
    } else if L.Interrupted(job.status) {
      var reclaimed, ok;
      reclaimed, left := ReclaimWorktree(c, job, left);
      if reclaimed {
        report := report.(worktreesReclaimed := so.worktreesReclaimed + 1);
      }
      ok, announced := FailInterrupted(repo, job, c, said);
      if ok {
        report := report.(failedInterrupted := so.failedInterrupted + 1);
      }
    }
  }

  /** A store that cannot list its jobs ends the pass before it begins. */
  method Recover(repo: InMemoryRepository, q: Queue?, c: Setting, worktrees: set<Worktree>)
    returns (failed: bool, report: Report, list: seq<Record>, left: set<Worktree>, announced: seq<string>)
    requires (q != null ==> q.Valid()) && Filed(repo.jobs)
    modifies repo, q
    ensures failed <==> c.unlisted
    ensures failed ==>
      && repo.jobs == old(repo.jobs) && (q != null ==> q.items == old(q.items))
      && report == Report(0, 0, 0, 0) && left == worktrees && announced == []
    ensures q != null ==> q.Valid()
    ensures !failed ==>
      && IsListing(list, old(repo.jobs)) && repo.jobs == JobsAfter(old(repo.jobs), list, c.failing)
      && left == WorktreesAfter(c, worktrees, list) && announced == (if c.bus then Ids(list, Broken, {}) else [])
      && report.failedInterrupted == |Ids(list, Broken, c.failing)|
      && report.worktreesReclaimed == Reclaims(c, worktrees, list)
    ensures !failed && q != null ==>
      && q.items == QueueAfter(q.capacity, old(q.items), list)
      && report.requeued == |q.items| - |old(q.items)|
      && report.unqueueable == |Ids(list, Waiting, {})| - report.requeued
    ensures q == null ==> report.requeued == report.unqueueable == 0
  {
    hide JobsAfter, WorktreesAfter, Reclaims, QueueAfter, Ids, Kept, IsListing, L.Interrupted, Filed;
    failed, report, list, left, announced := c.unlisted, Report(0, 0, 0, 0), [], worktrees, [];
    if failed {
      return;
    }
    list := repo.List();
    ghost var jobs := repo.jobs;
    NothingLookedAt(c, jobs, worktrees);
    ListingIsFiled(list, jobs);
    for i := 0 to |list|
      invariant q != null ==> q.Valid()
      invariant repo.jobs == JobsAfter(jobs, list[..i], c.failing) && repo.jobs.Keys == jobs.Keys
      invariant q != null ==> q.items == QueueAfter(q.capacity, old(q.items), list[..i])
      invariant q != null ==> report.requeued == |q.items| - |old(q.items)|
      invariant q != null ==> report.unqueueable == |Ids(list[..i], Waiting, {})| - report.requeued
      invariant q == null ==> report.requeued == report.unqueueable == 0
      invariant left == WorktreesAfter(c, worktrees, list[..i])
      invariant announced == if c.bus then Ids(list[..i], Broken, {}) else []
      invariant report.failedInterrupted == |Ids(list[..i], Broken, c.failing)|
      invariant report.worktreesReclaimed == Reclaims(c, worktrees, list[..i])
    {
      assert list[i] in list;
      report, left, announced := RecoverJob(repo, q, c, list[i], report, left, announced);
      if q != null {
        OneMoreOffered(q.capacity, old(q.items), list, i);
      }
      OneMore(c, jobs, worktrees, list, i);
    }
    assert list[..|list|] == list;
  }

  // ---- What a pass comes to ----------------------------------------------------------------

  /** Nothing is listed twice. */
  lemma ListingHasNoRepeats(list: seq<Record>, jobs: Index)
    requires IsListing(list, jobs)
    ensures forall i, j :: 0 <= i < j < |list| ==> list[i].id != list[j].id
  {
    forall i, j | 0 <= i < j < |list| ensures list[i].id != list[j].id {
      assert list[i] in list && list[j] in list;
      PrecedesIsStrict(list[i], list[i]);
    }
  }

  lemma {:induction false} IdsAreExact(list: seq<Record>, kind: Kind, except: set<string>, id: string)
    ensures id in Ids(list, kind, except)
      <==> id !in except && exists r :: r in list && r.id == id && Is(kind, r.status)
  {
    if list != [] {
      var before, job := list[..|list| - 1], list[|list| - 1];
      assert list == before + [job];
      IdsAreExact(before, kind, except, id);
    }
  }

  lemma {:induction false} IdsHaveNoRepeats(list: seq<Record>, kind: Kind, except: set<string>)
    requires forall i, j :: 0 <= i < j < |list| ==> list[i].id != list[j].id
    ensures forall i, j :: 0 <= i < j < |Ids(list, kind, except)| ==>
      Ids(list, kind, except)[i] != Ids(list, kind, except)[j]
  {
    if list != [] {
      var before, job := list[..|list| - 1], list[|list| - 1];
      IdsHaveNoRepeats(before, kind, except);
      IdsAreExact(before, kind, except, job.id);
    }
  }

  /** Over a listing: each job of the kind exactly once, and nothing else. */
  lemma ListedIds(list: seq<Record>, jobs: Index, kind: Kind, except: set<string>)
    requires Filed(jobs) && IsListing(list, jobs)
    ensures forall id :: id in Ids(list, kind, except) <==> id in jobs && id !in except && Is(kind, jobs[id].status)
    ensures forall i, j :: 0 <= i < j < |Ids(list, kind, except)| ==>
      Ids(list, kind, except)[i] != Ids(list, kind, except)[j]
  {
    ListingHasNoRepeats(list, jobs);
    IdsHaveNoRepeats(list, kind, except);
    forall id ensures id in Ids(list, kind, except) <==> id in jobs && id !in except && Is(kind, jobs[id].status) {
      IdsAreExact(list, kind, except, id);
      assert id in jobs ==> jobs[id] in list;
    }
  }

  lemma {:induction false} RecordAfter(jobs: Index, list: seq<Record>, failing: set<string>, id: string)
    requires Filed(jobs) && forall r :: r in list ==> r.id in jobs && jobs[r.id] == r
    ensures JobsAfter(jobs, list, failing).Keys == jobs.Keys
    ensures id in jobs ==>
      JobsAfter(jobs, list, failing)[id] == if jobs[id] in list then Reconciled(jobs[id], failing) else jobs[id]
  {
    if list != [] {
      var before, job := list[..|list| - 1], list[|list| - 1];
      assert list == before + [job];
      assert job in list;
      RecordAfter(jobs, before, failing, id);
    }
  }

  /**
   * Terminal and waiting jobs are left as they are; exactly the interrupted ones whose update the
   * store accepted become failed.
   */
  lemma PassReconciles(jobs: Index, list: seq<Record>, failing: set<string>)
    requires Filed(jobs) && IsListing(list, jobs)
    ensures var after := JobsAfter(jobs, list, failing);
      Filed(after) && after.Keys == jobs.Keys && forall id :: id in jobs ==> after[id] == Reconciled(jobs[id], failing)
  {
    RecordAfter(jobs, list, failing, "");
    forall id | id in jobs ensures JobsAfter(jobs, list, failing)[id] == Reconciled(jobs[id], failing) {
      RecordAfter(jobs, list, failing, id);
      assert jobs[id] in list;
    }
  }

  /** Removed are the worktrees of interrupted jobs that can be removed, and no others. */
  lemma {:induction false} PassReclaims(c: Setting, present: set<Worktree>, list: seq<Record>, w: Worktree)
    ensures w in WorktreesAfter(c, present, list) <==>
      w in present && !exists r :: r in list && L.Interrupted(r.status) && Reclaimable(c, r, w)
  {
    if list != [] {
      var before, job := list[..|list| - 1], list[|list| - 1];
      assert list == before + [job];
      PassReclaims(c, present, before, w);
    }
  }

  /**
   * A second pass over what the first left finds to fail exactly the jobs whose update the store
   * refused the first time, though it announced those too; with no refusals it finds none.
   */
  lemma SecondPassFailsTheRest(jobs: Index, list: seq<Record>, failing: set<string>, relist: seq<Record>)
    requires Filed(jobs) && IsListing(list, jobs) && IsListing(relist, JobsAfter(jobs, list, failing))
    ensures forall id :: id in Ids(relist, Broken, {}) <==> id in Ids(list, Broken, {}) && id in failing
    ensures failing == {} ==> Ids(relist, Broken, {}) == []
  {
    PassReconciles(jobs, list, failing);
    ListedIds(list, jobs, Broken, {});
    ListedIds(relist, JobsAfter(jobs, list, failing), Broken, {});
    assert Ids(relist, Broken, {}) != [] ==> Ids(relist, Broken, {})[0] in Ids(relist, Broken, {});
  }

  // ---- The pass is the protocol's recovery ---------------------------------------------------

  function Listed(list: seq<Record>): seq<(string, Status)> {
    seq(|list|, k requires 0 <= k < |list| => (list[k].id, list[k].status))
  }

  function RecoverSteps(n: nat): seq<L.Action> {
    seq(n, _ => L.RecoverOne)
  }

  /** The protocol's view of a process in the middle of its recovery. */
  ghost function Recovering(jobs: Index, queue: seq<string>, rest: seq<Record>, stranded: set<string>): L.Sys {
    L.Sys(Statuses(jobs), queue, {}, {}, map[], Listed(rest), stranded, L.Recovering)
  }

  /** With a store that does not fail, `n` recovery steps of the protocol do what `n` turns of the loop do. */
  lemma {:induction false} RecoveryIsTheProtocol(capacity: nat, jobs: Index, queue: seq<string>,
                                                 list: seq<Record>, n: nat)
    returns (stranded: set<string>)
    requires n <= |list| && |queue| <= capacity
    ensures L.Exec(capacity, Recovering(jobs, queue, list, {}), RecoverSteps(n))
         == Some(Recovering(JobsAfter(jobs, list[..n], {}), QueueAfter(capacity, queue, list[..n]), list[n..],
                            stranded))
  {
    if n == 0 {
      assert list[..0] == [] && list[0..] == list && RecoverSteps(0) == [];
      assert QueueAfter(capacity, queue, []) == queue;
      stranded := {};
    } else {
      stranded := RecoveryIsTheProtocol(capacity, jobs, queue, list, n - 1);
      stranded := OneTurn(capacity, jobs, queue, list, n - 1, stranded);
      var steps := RecoverSteps(n);
      assert steps[..|steps| - 1] == RecoverSteps(n - 1) && steps[|steps| - 1] == L.RecoverOne;
    }
  }

  lemma OneTurn(capacity: nat, jobs: Index, queue: seq<string>, list: seq<Record>, n: nat, before: set<string>)
    returns (after: set<string>)
    requires n < |list| && |queue| <= capacity
    ensures var s := Recovering(JobsAfter(jobs, list[..n], {}), QueueAfter(capacity, queue, list[..n]),
                                list[n..], before);
      && L.Enabled(capacity, s, L.RecoverOne)
      && L.Next(capacity, s, L.RecoverOne)
         == Recovering(JobsAfter(jobs, list[..n + 1], {}), QueueAfter(capacity, queue, list[..n + 1]),
                       list[n + 1..], after)
  {
    hide JobsAfter, QueueAfter, Statuses;
    var job := list[n];
    OneMoreOffered(capacity, queue, list, n);
    OneMore(Setting(false, {}, {}, false, false), jobs, {}, list, n);
    assert Listed(list[n..])[1..] == Listed(list[n + 1..]);
    StatusesChange(JobsAfter(jobs, list[..n], {}), job.id, job.(status := Failed));
    after := before;
    if job.status == Queued && |QueueAfter(capacity, queue, list[..n])| >= capacity {
      after := before + {job.id};
    }
  }
}
