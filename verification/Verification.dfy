/** The deterministic gate: which checks a worktree gets, and what their outcomes amount to. */
module Verification {
  import opened Wrappers
  import opened Text

  datatype Result = Result(check: string, passed: bool, output: string, note: string)
  datatype Report = Report(results: seq<Result>)

  predicate AllPassed(report: Report) {
    forall k :: 0 <= k < |report.results| ==> report.results[k].passed
  }

  datatype Check = Check(
    name: string, command: string, args: seq<string>,
    failOnOutput: bool, allowExit: map<int, string>)

  /** What running one command produced: its result, or the reason it could not run. */
  datatype Run = Exited(exitCode: int, stdout: string) | CouldNotRun(reason: string)

  /** The worktree and the host as detection sees them. */
  datatype Manifests = Manifests(files: set<string>, tools: set<string>, npm: NpmScript)
  datatype NpmScript = Unparseable(reason: string) | Script(text: string)

  const NPM_PLACEHOLDER := "echo \"Error: no test specified\" && exit 1"

  const GOFMT := Check("gofmt", "gofmt", ["-l", "."], true, map[])
  const GO_VET := Check("go vet", "go", ["vet", "./..."], false, map[])
  const GO_TEST := Check("go test", "go", ["test", "./..."], false, map[])
  const NPM_TEST := Check("npm test", "npm", ["test", "--silent"], false, map[])
  const PYTEST := Check("pytest", "pytest", ["-q"], false,
                        map[5 := "no tests collected: the gate ran nothing for Python"])
  const CARGO_TEST := Check("cargo test", "cargo", ["test"], false, map[])

  const DEFAULT_CHECKS: seq<Check> := [GOFMT, GO_VET, GO_TEST]

  // ---- What the gate is supposed to decide ---------------------------------

  predicate Python(m: Manifests) {
    "pyproject.toml" in m.files || "requirements.txt" in m.files || "setup.py" in m.files
  }

  predicate RealNpmScript(m: Manifests) {
    m.npm.Script? && m.npm.text != "" && m.npm.text != NPM_PLACEHOLDER
  }

  predicate BrokenPackage(m: Manifests) {
    "package.json" in m.files && m.npm.Unparseable?
  }

  predicate GoRuns(m: Manifests) {
    "go.mod" in m.files && "go" in m.tools
  }

  predicate NpmRuns(m: Manifests) {
    "package.json" in m.files && RealNpmScript(m) && "npm" in m.tools
  }

  predicate PytestRuns(m: Manifests) {
    Python(m) && "pytest" in m.tools
  }

  predicate CargoRuns(m: Manifests) {
    "Cargo.toml" in m.files && "cargo" in m.tools
  }

  /** A check applies when its manifest is present and the tool that runs it is installed. */
  predicate Applies(m: Manifests, c: Check) {
    || (c in DEFAULT_CHECKS && GoRuns(m)) || (c == NPM_TEST && NpmRuns(m))
    || (c == PYTEST && PytestRuns(m)) || (c == CARGO_TEST && CargoRuns(m))
  }

  /** Every language's tests apply exactly when one of its manifests is there and its tool is installed. */
  lemma TestsApply(m: Manifests)
    ensures Applies(m, GO_TEST) <==> "go.mod" in m.files && "go" in m.tools
    ensures Applies(m, PYTEST)
       <==> (exists f :: f in {"pyproject.toml", "requirements.txt", "setup.py"} && f in m.files) && "pytest" in m.tools
    ensures Applies(m, CARGO_TEST) <==> "Cargo.toml" in m.files && "cargo" in m.tools
    ensures Applies(m, NPM_TEST)
       <==> "package.json" in m.files && m.npm.Script? && m.npm.text !in {"", NPM_PLACEHOLDER} && "npm" in m.tools
  {
    assert GO_TEST.name != PYTEST.name && GO_TEST.name != CARGO_TEST.name && GO_TEST.name != NPM_TEST.name;
    assert PYTEST.name != CARGO_TEST.name && PYTEST.name != NPM_TEST.name && CARGO_TEST.name != NPM_TEST.name;
    assert forall c :: c in DEFAULT_CHECKS ==> c.name[0] == 'g';
    assert "pyproject.toml" in {"pyproject.toml", "requirements.txt", "setup.py"};
  }

  /** How many checks apply; each applicable one is wanted once. */
  function Wanted(m: Manifests): nat {
    (if GoRuns(m) then |DEFAULT_CHECKS| else 0) + (if NpmRuns(m) then 1 else 0)
    + (if PytestRuns(m) then 1 else 0) + (if CargoRuns(m) then 1 else 0)
  }

  lemma Collected(m: Manifests, go: seq<Check>, npm: seq<Check>, py: seq<Check>, cargo: seq<Check>)
    requires go == if GoRuns(m) then DEFAULT_CHECKS else []
    requires npm == if NpmRuns(m) then [NPM_TEST] else []
    requires py == if PytestRuns(m) then [PYTEST] else []
    requires cargo == if CargoRuns(m) then [CARGO_TEST] else []
    ensures forall c :: c in go + npm + py + cargo <==> Applies(m, c)
    ensures |go + npm + py + cargo| == Wanted(m)
  {
  }

  predicate AllPass(notes: seq<Result>) {
    forall n :: n in notes ==> n.passed
  }

  lemma NotesPass(a: seq<Result>, b: seq<Result>, c: seq<Result>, d: seq<Result>)
    ensures AllPass(a + b + c + d) <==> AllPass(a) && AllPass(b) && AllPass(c) && AllPass(d)
  {
    assert forall n :: n in a + b + c + d <==> n in a || n in b || n in c || n in d;
  }

  /** A command that ran and gave no sign of a problem. */
  predicate Clean(c: Check, run: Run) {
    && run.Exited?
    && (run.exitCode == 0 ==> !c.failOnOutput || Blank(run.stdout))
    && (run.exitCode != 0 ==> run.exitCode in c.allowExit)
  }

  /** It could not run, or its exit code is one the check does not tolerate. */
  predicate Broke(c: Check, run: Run) {
    run.CouldNotRun? || (run.exitCode != 0 && run.exitCode !in c.allowExit)
  }

  lemma BrokenIsNotClean(c: Check, run: Run)
    requires Broke(c, run)
    ensures !Clean(c, run)
  {
  }

  /** The report holds a failure of the check. */
  predicate Fails(report: Report, check: string) {
    exists k :: 0 <= k < |report.results| && report.results[k].check == check && !report.results[k].passed
  }

  // ---- The code ------------------------------------------------------------

  /**
   * A command that could not run has failed. One that exits nonzero passes exactly when the check
   * tolerates that code, with the note kept for it. One that exits zero passes, unless the check wants
   * silence and something other than white space was printed.
   */
  method RunCheck(c: Check, run: Run) returns (result: Result)
    ensures result.check == c.name
    ensures run.CouldNotRun? ==> !result.passed && result.output == run.reason
    ensures run.Exited? ==> result.output == run.stdout
    ensures run.Exited? && run.exitCode != 0 ==>
      && (result.passed <==> run.exitCode in c.allowExit)
      && (result.passed ==> result.note == c.allowExit[run.exitCode])
    ensures run.Exited? && run.exitCode == 0 && !c.failOnOutput ==> result.passed
    ensures run.Exited? && run.exitCode == 0 && c.failOnOutput ==>
      (result.passed <==> forall k :: 0 <= k < |run.stdout| ==> IsSpace(run.stdout[k]))
    ensures result.passed <==> Clean(c, run)
  {
    result := Result(c.name, false, "", "");
    match run
    case CouldNotRun(reason) =>
      result := result.(output := reason);
    case Exited(code, stdout) =>
      result := result.(output := stdout);
      if code != 0 {
        if code in c.allowExit {
          result := result.(passed := true, note := c.allowExit[code]);
        }
      } else if !(c.failOnOutput && !Blank(stdout)) {
        result := result.(passed := true);
      }
  }

  /** Runs `checks` in order after `notes`; the context ends before check number `ends`, if at all. */
  method RunAll(notes: seq<Result>, checks: seq<Check>, run: Check -> Run, ends: Option<nat>)
    returns (report: Report, cancelled: bool)
    ensures cancelled <==> ends.Some? && ends.value < |checks|
    ensures notes <= report.results
    ensures |report.results| == |notes| + if cancelled then ends.value else |checks|
    ensures forall k :: |notes| <= k < |report.results| ==>
      var c := checks[k - |notes|];
      report.results[k].check == c.name && (report.results[k].passed <==> Clean(c, run(c)))
  {
    report := Report(notes);
    for i := 0 to |checks|
      invariant ends.Some? ==> i <= ends.value
      invariant notes <= report.results && |report.results| == |notes| + i
      invariant forall k :: |notes| <= k < |report.results| ==>
        var c := checks[k - |notes|];
        report.results[k].check == c.name && (report.results[k].passed <==> Clean(c, run(c)))
    {
      if ends == Some(i) {
        return report, true;
      }
      var result := RunCheck(checks[i], run(checks[i]));
      report := Report(report.results + [result]);
    }
    return report, false;
  }

  /** What a report with one result a check comes to. */
  lemma ReportOfAll(checks: seq<Check>, run: Check -> Run, report: Report)
    requires |report.results| == |checks|
    requires forall k :: 0 <= k < |checks| ==>
      && report.results[k].check == checks[k].name
      && (report.results[k].passed <==> Clean(checks[k], run(checks[k])))
    ensures AllPassed(report) <==> forall c :: c in checks ==> Clean(c, run(c))
    ensures forall c :: c in checks && Broke(c, run(c)) ==> Fails(report, c.name)
  {
    hide Clean, Broke;
    if !AllPassed(report) {
      var k :| 0 <= k < |report.results| && !report.results[k].passed;
      assert checks[k] in checks;
    }
    forall c | c in checks
      ensures AllPassed(report) ==> Clean(c, run(c))
      ensures Broke(c, run(c)) ==> Fails(report, c.name)
    {
      var k :| 0 <= k < |checks| && checks[k] == c;
      if Broke(c, run(c)) {
        BrokenIsNotClean(c, run(c));
        assert !report.results[k].passed;
      }
    }
  }

  /** Runner: a fixed, non-empty list of checks, or a refusal. */
  method RunnerVerify(checks: seq<Check>, run: Check -> Run, ends: Option<nat>)
    returns (report: Report, err: bool)
    ensures err <==> checks == [] || (ends.Some? && ends.value < |checks|)
    ensures !err ==> |report.results| == |checks| > 0
    ensures !err ==> (AllPassed(report) <==> forall c :: c in checks ==> Clean(c, run(c)))
    ensures !err ==> forall c :: c in checks && Broke(c, run(c)) ==> Fails(report, c.name)
  {
    hide Clean, Broke, AllPassed, Fails;
    if |checks| == 0 {
      return Report([]), true;
    }
    report, err := RunAll([], checks, run, ends);
    if !err {
      ReportOfAll(checks, run, report);
    }
  }

  /** A stack whose manifest is there: its checks if its tool is installed, a passing note if not. */
  method DetectStack(m: Manifests, tool: string, stack: seq<Check>) returns (checks: seq<Check>, notes: seq<Result>)
    ensures checks == if tool in m.tools then stack else []
    ensures notes == [] <==> tool in m.tools
    ensures AllPass(notes)
  {
    checks, notes := [], [];
    if tool in m.tools {
      checks := stack;
    } else {
      notes := [Result(tool, true, "", tool + " is not installed on this host; checks skipped")];
    }
  }

  /** package.json: a manifest that does not parse fails the gate, one without a real script only notes it. */
  method DetectNpm(m: Manifests) returns (checks: seq<Check>, notes: seq<Result>)
    ensures checks == if RealNpmScript(m) && "npm" in m.tools then [NPM_TEST] else []
    ensures checks != [] || notes != []
    ensures AllPass(notes) <==> m.npm.Script?
  {
    checks, notes := [], [];
    if m.npm.Unparseable? {
      notes := [Result("npm", false, m.npm.reason, "")];
      assert notes[0] in notes;
    } else if m.npm.text == "" || m.npm.text == NPM_PLACEHOLDER {
      notes := [Result("npm", true, "", "package.json has no real test script; Node checks skipped")];
    } else {
      checks, notes := DetectStack(m, "npm", [NPM_TEST]);
    }
  }

  /** The checks worth running, and note-results for stacks that cannot be checked here. */
  method Detect(m: Manifests) returns (checks: seq<Check>, notes: seq<Result>)
    ensures forall c :: c in checks <==> Applies(m, c)
    ensures |checks| == Wanted(m)
    ensures checks != [] || notes != []
    ensures AllPass(notes) <==> !BrokenPackage(m)
  {
    var recognised := false;
    var go: seq<Check>, goNotes: seq<Result> := [], [];
    if "go.mod" in m.files {
      recognised := true;
      go, goNotes := DetectStack(m, "go", DEFAULT_CHECKS);
    }
    var npm: seq<Check>, npmNotes: seq<Result> := [], [];
    if "package.json" in m.files {
      recognised := true;
      npm, npmNotes := DetectNpm(m);
    }
    var py: seq<Check>, pyNotes: seq<Result> := [], [];
    if "pyproject.toml" in m.files || "requirements.txt" in m.files || "setup.py" in m.files {
      recognised := true;
      py, pyNotes := DetectStack(m, "pytest", [PYTEST]);
    }
    var cargo: seq<Check>, cargoNotes: seq<Result> := [], [];
    if "Cargo.toml" in m.files {
      recognised := true;
      cargo, cargoNotes := DetectStack(m, "cargo", [CARGO_TEST]);
    }
    checks, notes := go + npm + py + cargo, goNotes + npmNotes + pyNotes + cargoNotes;
    if !recognised {
      notes := [Result("detect", true, "", "no recognised toolchain: no checks were run")];
    }
    Collected(m, go, npm, py, cargo);
    NotesPass(goNotes, npmNotes, pyNotes, cargoNotes);
  }

  /**
   * AutoRunner: an error exactly when the context ends before the checks do, otherwise a non-empty
   * report that passes exactly when every applicable check is clean. A check that breaks shows in it.
   */
  method AutoVerify(m: Manifests, run: Check -> Run, ends: Option<nat>)
    returns (report: Report, err: bool)
    ensures err <==> ends.Some? && ends.value < Wanted(m)
    ensures !err ==> report.results != []
    ensures !err ==>
      (AllPassed(report) <==> !BrokenPackage(m) && forall c :: Applies(m, c) ==> Clean(c, run(c)))
    ensures !err ==> forall c :: Applies(m, c) && Broke(c, run(c)) ==> Fails(report, c.name)
    ensures !err && "go.mod" in m.files && "go" in m.tools && run(GO_TEST).Exited? && run(GO_TEST).exitCode != 0 ==>
      Fails(report, "go test")
  {
    var checks, notes := Detect(m);
    report, err := RunAll(notes, checks, run, ends);
    if !err {
      var n := |notes|;
      assert forall k :: 0 <= k < n ==> report.results[k] == notes[k];
      if AllPassed(report) {
        forall c | Applies(m, c) ensures Clean(c, run(c)) {
          var k :| 0 <= k < |checks| && checks[k] == c;
          assert report.results[n + k].passed;
        }
      } else if !BrokenPackage(m) {
        var k :| 0 <= k < |report.results| && !report.results[k].passed;
        assert k >= n by {
          assert forall i :: 0 <= i < n ==> notes[i] in notes;
        }
        assert checks[k - n] in checks;
      }
      forall c | Applies(m, c) && Broke(c, run(c)) ensures Fails(report, c.name) {
        BrokenIsNotClean(c, run(c));
        var k :| 0 <= k < |checks| && checks[k] == c;
        assert !report.results[n + k].passed;
      }
      TestsApply(m);
    }
  }
}
