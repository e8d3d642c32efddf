/** The bounded queue and the submission that feeds it. */
module Intake {
  import opened Wrappers
  import opened Jobs
  import opened Repository
  import L = Lifecycle

  // ---- The queue -------------------------------------------------------------------

  class Queue {
    var items: seq<string>
    const capacity: nat

    ghost predicate Valid()
      reads this
    {
      |items| <= capacity && capacity >= 1
    }

    constructor (bufferSize: int)
      ensures Valid() && items == []
      ensures capacity == if bufferSize <= 0 then 1 else bufferSize
    {
      capacity := if bufferSize <= 0 then 1 else bufferSize;
      items := [];
    }

    /** Never waits: a full queue is an answer. */
    method Enqueue(id: string) returns (ok: bool)
      requires Valid()
      modifies this
      ensures Valid()
      ensures ok <==> old(|items|) < capacity
      ensures items == if ok then old(items) + [id] else old(items)
    {
      ok := |items| < capacity;
      if ok {
        items := items + [id];
      }
    }

    method Dequeue() returns (id: string)
      requires Valid() && items != []
      modifies this
      ensures Valid()
      ensures [id] + items == old(items)
    {
      id := items[0];
      items := items[1..];
    }
  }

  // ---- Submission --------------------------------------------------------------------

  datatype Response = Accepted | StoreFailed | QueueFull

  /** The statuses the store holds. */
  function Statuses(jobs: Index): map<string, Status> {
    map id | id in jobs :: jobs[id].status
  }

  /** A status written to a stored job is the only change to the statuses. */
  lemma StatusesChange(jobs: Index, id: string, job: Record)
    ensures Statuses(jobs[id := job]) == Statuses(jobs)[id := job.status]
  {
  }

  /** The protocol's view of a store and a queue while the service serves. */
  ghost function View(jobs: Index, items: seq<string>): L.Sys {
    L.Sys(Statuses(jobs), items, {}, {}, map[], [], {}, L.Serving)
  }

  /**
   * Store, then enqueue, then compensate. `createFails` and `updateFails` are the store's errors;
   * a store error leaves the record as it was. Without a queue a stored job is accepted as it is.
   */
  method Submit(repo: InMemoryRepository, q: Queue?, job: Record, createFails: bool, updateFails: bool)
    returns (response: Response)
    requires (q != null ==> q.Valid()) && job.status == Queued
    modifies repo, q
    ensures q != null ==> q.Valid()
    ensures response.Accepted? ==>
      && job.id !in old(repo.jobs) && repo.jobs == old(repo.jobs)[job.id := job]
      && (q != null ==> q.items == old(q.items) + [job.id])
    ensures response.StoreFailed? ==> repo.jobs == old(repo.jobs) && (q != null ==> q.items == old(q.items))
    ensures response.QueueFull? ==>
      && q != null && job.id !in old(repo.jobs) && |old(q.items)| == q.capacity && q.items == old(q.items)
      && repo.jobs == old(repo.jobs)[job.id := if updateFails then job else job.(status := Failed)]
    ensures response.StoreFailed? <==> createFails || job.id in old(repo.jobs)
    // With a store that does not fail, this is what the protocol's intake steps do.
    ensures q != null && !createFails && !updateFails && job.id !in old(repo.jobs) ==>
      L.Exec(q.capacity, View(old(repo.jobs), old(q.items)), IntakeSteps(job.id, response))
      == Some(View(repo.jobs, q.items))
  {
    if createFails {
      return StoreFailed;
    }
    ghost var jobs := repo.jobs;
    var reply := repo.Create(job);
    if !reply.Stored? {
      return StoreFailed;
    }
    if q == null {
      return Accepted;
    }
    ghost var items := q.items;
    var ok := q.Enqueue(job.id);
    if !ok {
      if CanTransition(job.status, Failed) && !updateFails {
        reply := repo.Update(job.(status := Failed));
      }
      response := QueueFull;
    } else {
      response := Accepted;
    }
    if !updateFails {
      IntakeIsTheProtocol(q.capacity, jobs, items, job, response);
      assert repo.jobs == jobs[job.id := if ok then job else job.(status := Failed)];
    }
  }

  ghost function IntakeSteps(id: string, response: Response): seq<L.Action> {
    if response.QueueFull? then [L.Create(id), L.Enqueue(id), L.Compensate(id)] else [L.Create(id), L.Enqueue(id)]
  }

  lemma IntakeIsTheProtocol(capacity: nat, jobs: Index, items: seq<string>, job: Record, response: Response)
    requires job.status == Queued && job.id !in jobs && !response.StoreFailed?
    requires response.Accepted? <==> |items| < capacity
    ensures L.Exec(capacity, View(jobs, items), IntakeSteps(job.id, response))
         == Some(if response.Accepted? then View(jobs[job.id := job], items + [job.id])
                 else View(jobs[job.id := job.(status := Failed)], items))
  {
    var s := View(jobs, items);
    var create, enqueue := L.Create(job.id), L.Enqueue(job.id);
    StatusesChange(jobs, job.id, job);
    StatusesChange(jobs, job.id, job.(status := Failed));
    assert [create][..0] == [] && [create, enqueue][..1] == [create];
    assert L.Exec(capacity, s, [create]) == Some(L.Next(capacity, s, create));
    var created := L.Next(capacity, s, create);
    assert L.Exec(capacity, s, [create, enqueue]) == Some(L.Next(capacity, created, enqueue));
    if response.QueueFull? {
      var refused := L.Next(capacity, created, enqueue);
      assert [create, enqueue, L.Compensate(job.id)][..2] == [create, enqueue];
      assert Statuses(jobs)[job.id := Queued][job.id := Failed] == Statuses(jobs)[job.id := Failed];
    }
  }
}
