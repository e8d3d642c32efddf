/**
 * Everything the processor talks to. Each method is one call into a collaborator and does
 * whatever that collaborator pleases: it may succeed, return an error, or panic, its answer is
 * arbitrary, and the job's context may end meanwhile. All it must do is leave a record.
 */
module World {
  import opened Wrappers
  import opened Jobs
  import opened Verification
  import opened Trace

  /** A context that has ended stays ended, for the same reason. */
  predicate ContextMoves(before: Context, after: Context) {
    before.Live? || after == before
  }

  /** A worktree's files, by path. */
  type Tree = map<string, string>

  class Environment {
    var stored: Status                  // the job's record in the store
    var artifact: Option<Patch>         // what is stored under patch.diff
    var trees: map<Worktree, Tree>      // the worktrees' contents
    var context: Context                // the job's own context
    const diffOf: Tree -> Patch         // what git says about a worktree
    ghost var trace: seq<Effect>

    constructor (stored: Status, artifact: Option<Patch>, diffOf: Tree -> Patch)
      ensures this.stored == stored && this.artifact == artifact && trace == []
    {
      this.stored, this.artifact, this.diffOf := stored, artifact, diffOf;
      trees, context, trace := map[], Live, [];
    }

    ghost function Sum(): Summary
      reads `trace
    {
      Summarise(trace)
    }

    ghost method Log(e: Effect)
      modifies `trace
      ensures trace == old(trace) + [e]
      ensures Sum() == Record(old(Sum()), e)
    {
      SummariseSnoc(trace, e);
      trace := trace + [e];
    }

    method Tick()
      modifies `context
      ensures ContextMoves(old(context), context)
    {
      if context.Live? {
        context := *;
      }
    }

    method ContextErr() returns (ctx: Context)
      modifies `trace, `context
      ensures ContextMoves(old(context), context) && ctx == context
      ensures Sum() == Record(old(Sum()), Looked(ctx))
    {
      Tick();
      ctx := context;
      Log(Looked(ctx));
    }

    /** The pause between steps: when both branches are ready, either may be taken. */
    method Pause() returns (ctx: Context)
      modifies `trace, `context
      ensures ContextMoves(old(context), context)
      ensures ctx.Live? || ctx == context
      ensures Sum() == Record(old(Sum()), Looked(ctx))
    {
      Tick();
      var timerFires: bool := *;
      ctx := if timerFires then Live else context;
      Log(Looked(ctx));
    }

    /** Reads the job's record; the status is whatever the store holds. */
    method Load() returns (status: Status, out: Outcome)
      modifies `trace, `context
      ensures ContextMoves(old(context), context)
      ensures status == stored
      ensures Sum() == Record(old(Sum()), Loaded(out))
    {
      Tick();
      status, out := stored, *;
      Log(Loaded(out));
    }

    method Select() returns (out: Outcome)
      modifies `trace, `context
      ensures ContextMoves(old(context), context)
      ensures Sum() == Record(old(Sum()), Selected(out))
    {
      Tick();
      out := *;
      Log(Selected(out));
    }

    method Plan() returns (out: Outcome)
      modifies `trace, `context
      ensures ContextMoves(old(context), context)
      ensures Sum() == Record(old(Sum()), Planned(out))
    {
      Tick();
      out := *;
      Log(Planned(out));
    }

    method Publish(kind: EventKind) returns (out: Outcome)
      modifies `trace, `context
      ensures ContextMoves(old(context), context)
      ensures Sum() == Record(old(Sum()), Published(kind, out))
    {
      Tick();
      out := *;
      Log(Published(kind, out));
    }

    /** A write that fails or panics leaves the record as it was. */
    method Write(status: Status) returns (out: Outcome)
      modifies `trace, `context, `stored
      ensures ContextMoves(old(context), context)
      ensures Sum() == Record(old(Sum()), Wrote(status, out))
      ensures stored == if out.Ok? then status else old(stored)
    {
      Tick();
      out := *;
      if out.Ok? {
        stored := status;
      }
      Log(Wrote(status, out));
    }

    ghost method Refuse(from: Status, to: Status)
      modifies `trace
      ensures Sum() == Record(old(Sum()), Refused(from, to))
    {
      Log(Refused(from, to));
    }

    method Create(ws: Worktree) returns (out: Outcome)
      modifies `trace, `context, `trees
      ensures ContextMoves(old(context), context)
      ensures Sum() == Record(old(Sum()), Created(ws, out))
      ensures out.Ok? ==> ws in trees
      ensures forall other :: other in old(trees) && other != ws ==> other in trees && trees[other] == old(trees)[other]
    {
      Tick();
      out := *;
      if out.Ok? {
        var checkout: Tree := *;
        trees := trees[ws := checkout];
      }
      Log(Created(ws, out));
    }

    method Propose(ws: Worktree) returns (out: Outcome)
      modifies `trace, `context
      ensures ContextMoves(old(context), context)
      ensures Sum() == Record(old(Sum()), Proposed(ws, out))
    {
      Tick();
      out := *;
      Log(Proposed(ws, out));
    }

    /** Writes the operations into one worktree; a failure may come after a prefix of them. */
    method Apply(ws: Worktree) returns (out: Outcome)
      modifies `trace, `context, `trees
      ensures ContextMoves(old(context), context)
      ensures Sum() == Record(old(Sum()), Applied(ws, out))
      ensures trees.Keys == old(trees).Keys
    {
      Tick();
      out := *;
      Scribble(ws);
      Log(Applied(ws, out));
    }

    /**
     * The checks run in the worktree and may leave files of their own in it. With `auto` the verifier
     * is the one that detects its checks; whatever it finds and however they end, it says something.
     */
    method Verify(ws: Worktree, auto: bool) returns (report: Report, out: Outcome)
      modifies `trace, `context, `trees
      ensures ContextMoves(old(context), context)
      ensures Sum() == Record(old(Sum()), Verified(ws, report, out))
      ensures trees.Keys == old(trees).Keys
      ensures auto && out.Ok? ==> report.results != []
    {
      Tick();
      report, out := *, *;
      if auto {
        var m: Manifests, run: Check -> Run, ends: Option<nat> := *, *, *;
        var panics: bool, err := *, false;
        report, err := AutoVerify(m, run, ends);
        out := if panics then Panicked else if err then Err else Ok;
      }
      Scribble(ws);
      Log(Verified(ws, report, out));
    }

    method Scribble(ws: Worktree)
      modifies `trees
      ensures trees.Keys == old(trees).Keys
    {
      if ws in trees {
        var contents: Tree := *;
        trees := trees[ws := contents];
      }
    }

    method Diff(ws: Worktree) returns (patch: Patch, out: Outcome)
      modifies `trace, `context
      ensures ContextMoves(old(context), context)
      ensures Sum() == Record(old(Sum()), Diffed(ws, patch, out))
      ensures out.Ok? ==> ws in trees && patch == diffOf(trees[ws])
    {
      Tick();
      out, patch := *, "";
      if out.Ok? {
        if ws in trees {
          patch := diffOf(trees[ws]);
        } else {
          out := Err;
        }
      }
      Log(Diffed(ws, patch, out));
    }

    /** The artifact file is rewritten in place, so a write that does not succeed may leave anything. */
    method Save(patch: Patch) returns (out: Outcome)
      modifies `trace, `context, `artifact
      ensures ContextMoves(old(context), context)
      ensures Sum() == Record(old(Sum()), Saved(patch, out))
      ensures out.Ok? ==> artifact == Some(patch)
    {
      Tick();
      out := *;
      if out.Ok? {
        artifact := Some(patch);
      } else {
        artifact := *;
      }
      Log(Saved(patch, out));
    }

    method Review(patch: Patch, report: Report) returns (verdict: Verdict, notes: string, out: Outcome)
      modifies `trace, `context
      ensures ContextMoves(old(context), context)
      ensures Sum() == Record(old(Sum()), Reviewed(patch, report, verdict, notes, out))
    {
      Tick();
      verdict, notes, out := *, *, *;
      Log(Reviewed(patch, report, verdict, notes, out));
    }

    method Cleanup(ws: Worktree) returns (out: Outcome)
      modifies `trace, `context, `trees
      ensures ContextMoves(old(context), context)
      ensures Sum() == Record(old(Sum()), Cleaned(ws, out))
    {
      Tick();
      out := *;
      if out.Ok? {
        trees := trees - {ws};
      }
      Log(Cleaned(ws, out));
    }
  }
}
