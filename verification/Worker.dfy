/** A worker's turn with one job, where the pipeline meets the protocol. */
module Worker {
  import opened Wrappers
  import opened Jobs
  import opened Trace
  import opened World
  import opened Orchestration
  import L = Lifecycle

  /**
   * Whatever Process returns or panics with, the worker goes on to its next job. In the protocol `s`
   * is where worker `v` has just taken `id` off the queue. The writes of the run are steps the worker
   * can take there, and unless the job's ending was lost on the way they take the protocol to a
   * state that differs in nothing but that the record is the one the run left, which is a terminal
   * one, and that the worker is free again.
   */
  method Handle(p: Processor, w: Environment, id: string, ghost capacity: nat, ghost s: L.Sys, ghost v: L.WorkerId)
    returns (exit: Exit, ghost picked: bool)
    requires w.trace == []
    requires L.Inv(s) && v in s.workers && s.workers[v] == L.Fetched(id) && id in s.store && s.store[id] == w.stored
    modifies w
    ensures !picked ==> w.stored == s.store[id] && w.Sum() == NOTHING.(signs := w.Sum().signs)
    ensures L.Exec(capacity, s, L.Handling(v, w.Sum().life.path)).Some?
    ensures picked && !w.Sum().life.spoiled ==>
      && Terminal(w.stored)
      && L.Exec(capacity, s, L.Handling(v, w.Sum().life.path) + [L.Finish(v)])
         == Some(s.(workers := s.workers - {v}, store := s.store[id := w.stored]))
    ensures !w.Sum().signs.trouble ==> picked && w.stored == Completed && exit == Returned(None)
    ensures exit == Returned(None) ==> w.stored == Completed || w.stored == Cancelled
    ensures exit.Unwinding? ==> w.Sum().life.spoiled
  {
    assert L.At(s, id, L.AtWorker(v));
    ghost var result, final;
    exit, picked, result, final := p.Process(w, id);
    L.HandlingIsPossible(capacity, s, v, w.Sum().life.path);
    if picked && !w.Sum().life.spoiled {
      L.ProcessingFits(capacity, s, v, w.Sum().life.path);
    }
  }
}
