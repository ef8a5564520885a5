/** Startup validation: six checks run in order, each answering `(success, message)`;
    failures become `name: message` errors, some checks add warnings, and validation passes
    exactly when no error was recorded. What each check probes (the interpreter version,
    the container runtimes, the environment, the data directory, the disk, the installed
    packages) is given as data. */
module Startup {
  import opened Prelude
  import opened Strings
  import opened Security
  import ContainerRunner

  // ---------------------------------------------------------------------------
  // Python version

  /** Python's `a < b` on tuples of integers: the first differing element decides, and a
      proper prefix is smaller. */
  function TupleLess(a: seq<int>, b: seq<int>): bool
  {
    if a == [] then b != []
    else if b == [] then false
    else if a[0] != b[0] then a[0] < b[0]
    else TupleLess(a[1..], b[1..])
  }

  /** `sys.version_info` as far as the comparison with `(3, 9)` reads it. */
  datatype VersionInfo = VersionInfo(major: nat, minor: nat, micro: nat)

  /** `version >= (3, 9)` holds exactly for 3.9 and later. */
  lemma VersionAtLeast(v: VersionInfo)
    ensures !TupleLess([v.major, v.minor, v.micro], [3, 9]) <==> v.major > 3 || (v.major == 3 && v.minor >= 9)
  {
    var a: seq<int> := [v.major, v.minor, v.micro];
    var b: seq<int> := [3, 9];
    assert a[0] == v.major && b[0] == 3;
    assert a[1..] == [v.minor, v.micro] && b[1..] == [9];
    assert a[1..][1..] == [v.micro] && b[1..][1..] == [];
    assert TupleLess(a[1..][1..], b[1..][1..]) == false;
    assert TupleLess(a[1..], b[1..]) == (v.minor < 9);
  }

  /** `check_python_version` */
  function CheckPythonVersion(v: VersionInfo): (r: (bool, string))
    ensures r.0 <==> v.major > 3 || (v.major == 3 && v.minor >= 9)
  {
    VersionAtLeast(v);
    if !TupleLess([v.major, v.minor, v.micro], [3, 9]) then
      (true, "Python " + NatToString(v.major) + "." + NatToString(v.minor) + "." + NatToString(v.micro))
    else
      (false, "Python " + NatToString(v.major) + "." + NatToString(v.minor) + " (requires 3.9+)")
  }

  // ---------------------------------------------------------------------------
  // Container runtime

  /** What `subprocess.run([runtime, "--version"], capture_output=True, text=True, timeout=5)`
      does: it exits with a code and an output, the executable is missing, or it raises. */
  datatype VersionProbe = Answered(code: int, stdout: string) | Missing | ProbeFailed(error: Exception)

  const RuntimeCandidates: seq<string> := ["docker", "podman"]
  const NoRuntimeFound := "Docker/Podman not found - install Docker or Podman"

  /** `stdout.strip().split()[2] if len(stdout.split()) > 2 else "unknown"`: the third word. */
  function VersionToken(stdout: string): string
  {
    FieldsStrip(stdout);
    if |Fields(stdout)| > 2 then Fields(Strip(stdout))[2] else "unknown"
  }

  /** The version reported is the third word of the output, or "unknown" when there are
      fewer than three. */
  lemma VersionTokenIsThirdWord(stdout: string)
    ensures |Fields(stdout)| > 2 ==> VersionToken(stdout) == Fields(stdout)[2]
    ensures |Fields(stdout)| <= 2 ==> VersionToken(stdout) == "unknown"
  {
    FieldsStrip(stdout);
  }

  /** The loop of `check_container_runtime`, as a value: the first candidate that exits 0. */
  function RuntimeCheck(probe: string -> VersionProbe, candidates: seq<string>): (bool, string)
  {
    if candidates == [] then (false, NoRuntimeFound)
    else
      match probe(candidates[0])
      case Answered(code, stdout) =>
        if code == 0 then (true, candidates[0] + " v" + VersionToken(stdout))
        else RuntimeCheck(probe, candidates[1..])
      case _ => RuntimeCheck(probe, candidates[1..])
  }

  /** Docker is asked first; podman answers only when docker did not exit 0. */
  lemma DockerBeforePodman(probe: string -> VersionProbe)
    ensures probe("docker").Answered? && probe("docker").code == 0 ==>
      RuntimeCheck(probe, RuntimeCandidates) == (true, "docker" + " v" + VersionToken(probe("docker").stdout))
    ensures !(probe("docker").Answered? && probe("docker").code == 0) ==>
      RuntimeCheck(probe, RuntimeCandidates) ==
        if probe("podman").Answered? && probe("podman").code == 0
        then (true, "podman" + " v" + VersionToken(probe("podman").stdout))
        else (false, NoRuntimeFound)
  {
    TwoCandidates(probe, "docker", "podman");
  }

  lemma TwoCandidates(probe: string -> VersionProbe, first: string, second: string)
    ensures probe(first).Answered? && probe(first).code == 0 ==>
      RuntimeCheck(probe, [first, second]) == (true, first + " v" + VersionToken(probe(first).stdout))
    ensures !(probe(first).Answered? && probe(first).code == 0) ==>
      RuntimeCheck(probe, [first, second]) ==
        if probe(second).Answered? && probe(second).code == 0
        then (true, second + " v" + VersionToken(probe(second).stdout))
        else (false, NoRuntimeFound)
  {
    var both := [first, second];
    assert both[0] == first && both[1..] == [second];
    assert both[1..][0] == second && both[1..][1..] == [];
    RuntimeCheckStep(probe, both);
    RuntimeCheckStep(probe, both[1..]);
  }

  /** One round of the probing loop. */
  lemma RuntimeCheckStep(probe: string -> VersionProbe, candidates: seq<string>)
    requires candidates != []
    ensures RuntimeCheck(probe, candidates) ==
      if probe(candidates[0]).Answered? && probe(candidates[0]).code == 0
      then (true, candidates[0] + " v" + VersionToken(probe(candidates[0]).stdout))
      else RuntimeCheck(probe, candidates[1..])
  {
  }

  /** `check_container_runtime` */
  method CheckContainerRuntime(probe: string -> VersionProbe) returns (ok: bool, message: string)
    ensures (ok, message) == RuntimeCheck(probe, RuntimeCandidates)
  {
    var i := 0;
    while i < |RuntimeCandidates|
      invariant 0 <= i <= |RuntimeCandidates|
      invariant RuntimeCheck(probe, RuntimeCandidates) == RuntimeCheck(probe, RuntimeCandidates[i..])
    {
      var runtime := RuntimeCandidates[i];
      assert RuntimeCandidates[i..][1..] == RuntimeCandidates[i + 1..];
      var result := probe(runtime);
      if result.Answered? && result.code == 0 {
        return true, runtime + " v" + VersionToken(result.stdout);
      }
      i := i + 1;
    }
    return false, NoRuntimeFound;
  }

  // ---------------------------------------------------------------------------
  // Authentication

  /** `os.getenv("CLAUDE_CODE_OAUTH_TOKEN") or os.getenv("ANTHROPIC_API_KEY")`, with an unset
      variable read as the empty string (both are falsy). */
  function Token(env: map<string, string>): string
  {
    var oauth := GetEnv(env, "CLAUDE_CODE_OAUTH_TOKEN", "");
    if oauth != "" then oauth else GetEnv(env, "ANTHROPIC_API_KEY", "")
  }

  /** The masked token shown in the report: the first ten and last four characters of a
      token longer than 14, otherwise nothing of it. */
  function Mask(token: string): (r: string)
    ensures |token| > 14 ==> |r| == 17 && r[..10] == token[..10] && r[10..13] == "..." && r[13..] == token[|token| - 4..]
    ensures |token| <= 14 ==> r == "***"
  {
    if |token| > 14 then token[..10] + "..." + token[|token| - 4..] else "***"
  }

  /** At most 14 characters of the token appear in its mask, and the mask never shows a
      token of 14 characters or fewer. */
  lemma MaskRevealsAtMost14(token: string)
    ensures |Mask(token)| - 3 <= 14
    ensures |token| <= 14 ==> forall i :: 0 <= i < |Mask(token)| ==> Mask(token)[i] == '*'
  {
  }

  /** `check_claude_auth` */
  function CheckClaudeAuth(env: map<string, string>): (r: (bool, string))
    ensures r.0 <==> GetEnv(env, "CLAUDE_CODE_OAUTH_TOKEN", "") != "" || GetEnv(env, "ANTHROPIC_API_KEY", "") != ""
  {
    var token := Token(env);
    if token != "" then (true, "Configured (" + Mask(token) + ")")
    else (false, "CLAUDE_CODE_OAUTH_TOKEN not set - run 'claude setup-token'")
  }

  /** The startup check passes exactly when the runner will pass a credential into the
      container, and the credential is the token the check masked. */
  lemma AuthMatchesCredential(env: map<string, string>)
    ensures CheckClaudeAuth(env).0 <==> ContainerRunner.CredentialArgs(env) != []
    ensures CheckClaudeAuth(env).0 ==>
      ContainerRunner.CredentialArgs(env)[1] ==
        (if GetEnv(env, "CLAUDE_CODE_OAUTH_TOKEN", "") != "" then "CLAUDE_CODE_OAUTH_TOKEN=" else "ANTHROPIC_API_KEY=")
        + Token(env)
  {
  }

  // ---------------------------------------------------------------------------
  // Data directory and disk

  /** `Path(os.getenv("DATA_DIR", "data"))` as text. */
  function DataDir(env: map<string, string>): string
  {
    GetEnv(env, "DATA_DIR", "data")
  }

  /** `check_database`: `failure` is the exception creating, writing or removing the test
      file raised, if any. */
  function CheckDatabase(dataDir: string, failure: Option<Exception>): (r: (bool, string))
    ensures r.0 <==> failure.None?
  {
    match failure
    case None => (true, "Writable at " + dataDir)
    case Some(e) => (false, "Cannot write to " + dataDir + ": " + Str(e))
  }

  const GiB := 0x4000_0000

  /** What a check answers and the warnings it adds. */
  datatype Report = Report(outcome: Result<(bool, string)>, warnings: seq<string>)

  /** `check_disk_space`, given the free bytes `shutil.disk_usage("/")` reports, or `None`
      when it raises. */
  function DiskReport(free: Option<nat>): Report
  {
    match free
    case None => Report(Success((true, "Unable to check (assuming OK)")), [])
    case Some(bytes) =>
      var gb := NatToString(bytes / GiB);
      if bytes / GiB < 1 then Report(Success((false, "Only " + gb + "GB free - need at least 1GB")), [])
      else if bytes / GiB < 5 then
        Report(Success((true, gb + "GB free (warning: low)")), ["Low disk space: " + gb + "GB free"])
      else Report(Success((true, gb + "GB free")), [])
  }

  /** Below 1 GiB fails, 1 to 4 GiB passes with exactly one warning, 5 GiB or more passes
      quietly, and a disk that cannot be queried passes. */
  lemma DiskThresholds(free: Option<nat>)
    ensures var r := DiskReport(free);
      && r.outcome.Success?
      && (r.outcome.value.0 <==> free.None? || free.value >= GiB)
      && |r.warnings| == (if free.Some? && GiB <= free.value < 5 * GiB then 1 else 0)
  {
  }

  // ---------------------------------------------------------------------------
  // Dependencies

  /** What `__import__(name)` does: succeeds, raises ImportError, or raises something else. */
  datatype ImportOutcome = Imports | ImportFails | ImportRaises(error: Exception)

  const Critical: seq<string> := ["fastapi", "uvicorn", "pydantic"]
  const Optional: seq<string> := ["croniter", "psutil"]

  /** The packages of `deps` that fail to import, in order; an exception other than
      ImportError ends the loop and escapes. */
  function MissingOf(importer: string -> ImportOutcome, deps: seq<string>): Result<seq<string>>
  {
    if deps == [] then Success([])
    else
      var init := MissingOf(importer, deps[..|deps| - 1]);
      var last := deps[|deps| - 1];
      if init.Failure? then init
      else
        match importer(last)
        case Imports => init
        case ImportFails => Success(init.value + [last])
        case ImportRaises(e) => Failure(e)
  }

  /** A package is reported missing exactly when importing it raises ImportError. */
  lemma {:induction false} MissingOfIff(importer: string -> ImportOutcome, deps: seq<string>, d: string)
    requires MissingOf(importer, deps).Success?
    ensures d in MissingOf(importer, deps).value <==> d in deps && importer(d) == ImportFails
  {
    if deps != [] {
      var init := deps[..|deps| - 1];
      assert deps == init + [deps[|deps| - 1]];
      MissingOfIff(importer, init, d);
    }
  }

  /** One of the two import loops of `check_dependencies`. */
  method CollectMissing(importer: string -> ImportOutcome, deps: seq<string>) returns (r: Result<seq<string>>)
    ensures r == MissingOf(importer, deps)
  {
    var missing := [];
    var i := 0;
    while i < |deps|
      invariant 0 <= i <= |deps|
      invariant MissingOf(importer, deps[..i]) == Success(missing)
    {
      assert deps[..i + 1][..i] == deps[..i];
      match importer(deps[i]) {
        case Imports =>
        case ImportFails =>
          missing := missing + [deps[i]];
        case ImportRaises(e) =>
          assert MissingOf(importer, deps[..i + 1]) == Failure(e);
          FailureStays(importer, deps, i + 1);
          return Failure(e);
      }
      i := i + 1;
    }
    assert deps[..i] == deps;
    return Success(missing);
  }

  /** Once the import loop has failed it stays failed. */
  lemma {:induction false} FailureStays(importer: string -> ImportOutcome, deps: seq<string>, n: nat)
    requires n <= |deps| && MissingOf(importer, deps[..n]).Failure?
    ensures MissingOf(importer, deps) == MissingOf(importer, deps[..n])
    decreases |deps| - n
  {
    if n < |deps| {
      assert deps[..n + 1][..n] == deps[..n];
      FailureStays(importer, deps, n + 1);
    } else {
      assert deps[..n] == deps;
    }
  }

  /** `check_dependencies`: both import loops run, then a missing critical package fails
      the check and missing optional packages only warn. */
  function DepsReport(importer: string -> ImportOutcome): Report
  {
    match MissingOf(importer, Critical)
    case Failure(e) => Report(Failure(e), [])
    case Success(missing) =>
      match MissingOf(importer, Optional)
      case Failure(e) => Report(Failure(e), [])
      case Success(optionalMissing) =>
        if missing != [] then
          Report(Success((false, "Missing critical: " + Join(missing, ", ")
                                 + " - run 'pip install -r server/requirements.txt'")), [])
        else if optionalMissing != [] then
          Report(Success((true, "Critical deps OK (optional missing: " + Join(optionalMissing, ", ") + ")")),
                 ["Missing optional: " + Join(optionalMissing, ", ")])
        else Report(Success((true, "All dependencies installed")), [])
  }

  /** When every import either succeeds or raises ImportError: the check fails exactly when
      a critical package is missing, and warns once exactly when only optional ones are. */
  lemma DepsVerdict(importer: string -> ImportOutcome)
    requires forall d :: d in Critical + Optional ==> !importer(d).ImportRaises?
    ensures var r := DepsReport(importer);
      && r.outcome.Success?
      && (!r.outcome.value.0 <==> exists d :: d in Critical && importer(d) == ImportFails)
      && |r.warnings| == (if (forall d :: d in Critical ==> importer(d) != ImportFails)
                             && (exists d :: d in Optional && importer(d) == ImportFails) then 1 else 0)
  {
    NoRaiseNoFailure(importer, Critical);
    NoRaiseNoFailure(importer, Optional);
    var missing := MissingOf(importer, Critical).value;
    var optionalMissing := MissingOf(importer, Optional).value;
    forall d ensures d in missing <==> d in Critical && importer(d) == ImportFails {
      MissingOfIff(importer, Critical, d);
    }
    forall d ensures d in optionalMissing <==> d in Optional && importer(d) == ImportFails {
      MissingOfIff(importer, Optional, d);
    }
    if missing != [] {
      assert missing[0] in missing;
    }
    if optionalMissing != [] {
      assert optionalMissing[0] in optionalMissing;
    }
  }

  /** Without an escaping exception the import loop succeeds. */
  lemma {:induction false} NoRaiseNoFailure(importer: string -> ImportOutcome, deps: seq<string>)
    requires forall d :: d in Critical + Optional ==> !importer(d).ImportRaises?
    requires forall d :: d in deps ==> d in Critical + Optional
    ensures MissingOf(importer, deps).Success?
  {
    if deps != [] {
      var init := deps[..|deps| - 1];
      assert forall d :: d in init ==> d in deps;
      assert deps[|deps| - 1] in deps;
      NoRaiseNoFailure(importer, init);
    }
  }

  // ---------------------------------------------------------------------------
  // The validator

  /** What the six checks observe. */
  datatype Probes = Probes(version: VersionInfo, runtime: string -> VersionProbe, env: map<string, string>,
                           database: Option<Exception>, free: Option<nat>, importer: string -> ImportOutcome)

  const CheckNames: seq<string> :=
    ["Python Version", "Docker/Podman", "Claude SDK Auth", "Database Access", "Disk Space", "Dependencies"]

  /** The `i`-th entry of the `checks` list of `validate_all`. */
  function CheckReport(i: nat, p: Probes): Report
    requires i < |CheckNames|
  {
    if i == 0 then Report(Success(CheckPythonVersion(p.version)), [])
    else if i == 1 then Report(Success(RuntimeCheck(p.runtime, RuntimeCandidates)), [])
    else if i == 2 then Report(Success(CheckClaudeAuth(p.env)), [])
    else if i == 3 then Report(Success(CheckDatabase(DataDir(p.env), p.database)), [])
    else if i == 4 then DiskReport(p.free)
    else DepsReport(p.importer)
  }

  /** The error a check's outcome adds: `name: message` for a failure, `name: str(e)` for an
      exception, nothing for a pass. */
  function ErrorLines(name: string, outcome: Result<(bool, string)>): (r: seq<string>)
    ensures r == [] <==> outcome.Success? && outcome.value.0
  {
    match outcome
    case Success((ok, message)) => if ok then [] else [name + ": " + message]
    case Failure(e) => [name + ": " + Str(e)]
  }

  /** `reports` are what the first `|reports|` checks return, in check order. */
  ghost predicate ReportsOf(p: Probes, reports: seq<Report>)
  {
    |reports| <= |CheckNames| && forall k :: 0 <= k < |reports| ==> reports[k] == CheckReport(k, p)
  }

  /** The errors the first `|reports|` of the checks named `names` add when they report
      `reports`, in check order. */
  function ErrorsOf(names: seq<string>, reports: seq<Report>): seq<string>
    requires |reports| <= |names|
  {
    if reports == [] then []
    else ErrorsOf(names, reports[..|reports| - 1])
         + ErrorLines(names[|reports| - 1], reports[|reports| - 1].outcome)
  }

  /** The warnings of `reports`, in check order. */
  function WarningsOf(reports: seq<Report>): seq<string>
  {
    if reports == [] then [] else WarningsOf(reports[..|reports| - 1]) + reports[|reports| - 1].warnings
  }

  /** One more check extends the errors at their end. */
  lemma ErrorsStep(names: seq<string>, reports: seq<Report>, report: Report)
    requires |reports| < |names|
    ensures ErrorsOf(names, reports + [report]) ==
      ErrorsOf(names, reports) + ErrorLines(names[|reports|], report.outcome)
  {
    assert (reports + [report])[..|reports|] == reports;
  }

  /** One more check extends the warnings at their end. */
  lemma WarningsStep(reports: seq<Report>, report: Report)
    ensures WarningsOf(reports + [report]) == WarningsOf(reports) + report.warnings
  {
    assert (reports + [report])[..|reports|] == reports;
  }

  /** The loop of `validate_all` keeps its error invariant over one more check. */
  lemma ErrorsKept(names: seq<string>, reports: seq<Report>, report: Report,
                   e0: seq<string>, errorsBefore: seq<string>, errorsAfter: seq<string>)
    requires |reports| < |names|
    requires errorsBefore == e0 + ErrorsOf(names, reports)
    requires errorsAfter == errorsBefore + ErrorLines(names[|reports|], report.outcome)
    ensures errorsAfter == e0 + ErrorsOf(names, reports + [report])
  {
    ErrorsStep(names, reports, report);
    assert errorsAfter == e0 + (ErrorsOf(names, reports) + ErrorLines(names[|reports|], report.outcome));
  }

  /** The loop of `validate_all` keeps its warning invariant over one more check. */
  lemma WarningsKept(reports: seq<Report>, report: Report,
                     w0: seq<string>, warningsBefore: seq<string>, warningsAfter: seq<string>)
    requires warningsBefore == w0 + WarningsOf(reports)
    requires warningsAfter == warningsBefore + report.warnings
    ensures warningsAfter == w0 + WarningsOf(reports + [report])
  {
    WarningsStep(reports, report);
    assert warningsAfter == w0 + (WarningsOf(reports) + report.warnings);
  }

  /** The reports grow by the one the next check returned. */
  lemma ReportsOfStep(p: Probes, reports: seq<Report>, report: Report)
    requires |reports| < |CheckNames| && ReportsOf(p, reports) && report == CheckReport(|reports|, p)
    ensures ReportsOf(p, reports + [report])
  {
    var more := reports + [report];
    assert forall k :: 0 <= k < |reports| ==> more[k] == reports[k];
  }

  /** A check that returned `(True, message)` without raising. */
  predicate Passed(r: Report)
  {
    r.outcome.Success? && r.outcome.value.0
  }

  /** No error is recorded exactly when every check returned success. */
  lemma {:induction false} NoErrorsIff(names: seq<string>, reports: seq<Report>)
    requires |reports| <= |names|
    ensures ErrorsOf(names, reports) == [] <==>
      forall i :: 0 <= i < |reports| ==> Passed(reports[i])
  {
    if reports != [] {
      var n := |reports| - 1;
      NoErrorsIff(names, reports[..n]);
      assert forall i :: 0 <= i < n ==> reports[..n][i] == reports[i];
    }
  }

  class StartupValidator {
    var errors: seq<string>
    var warnings: seq<string>

    constructor ()
      ensures errors == [] && warnings == []
    {
      errors := [];
      warnings := [];
    }

    /** `check_disk_space` */
    method CheckDiskSpace(free: Option<nat>) returns (ok: bool, message: string)
      modifies this
      ensures Success((ok, message)) == DiskReport(free).outcome
      ensures warnings == old(warnings) + DiskReport(free).warnings && errors == old(errors)
    {
      if free.None? {
        return true, "Unable to check (assuming OK)";
      }
      var freeGb := free.value / GiB;
      var gb := NatToString(freeGb);
      if freeGb < 1 {
        return false, "Only " + gb + "GB free - need at least 1GB";
      } else if freeGb < 5 {
        warnings := warnings + ["Low disk space: " + gb + "GB free"];
        return true, gb + "GB free (warning: low)";
      } else {
        return true, gb + "GB free";
      }
    }

    /** `check_dependencies` */
    method CheckDependencies(importer: string -> ImportOutcome) returns (r: Result<(bool, string)>)
      modifies this
      ensures r == DepsReport(importer).outcome
      ensures warnings == old(warnings) + DepsReport(importer).warnings && errors == old(errors)
    {
      var missing := CollectMissing(importer, Critical);
      if missing.Failure? {
        return Failure(missing.error);
      }
      var optionalMissing := CollectMissing(importer, Optional);
      if optionalMissing.Failure? {
        return Failure(optionalMissing.error);
      }
      if missing.value != [] {
        return Success((false, "Missing critical: " + Join(missing.value, ", ")
                               + " - run 'pip install -r server/requirements.txt'"));
      }
      if optionalMissing.value != [] {
        warnings := warnings + ["Missing optional: " + Join(optionalMissing.value, ", ")];
        return Success((true, "Critical deps OK (optional missing: " + Join(optionalMissing.value, ", ") + ")"));
      }
      return Success((true, "All dependencies installed"));
    }

    /** Calls the `i`-th check. */
    method RunCheck(i: nat, p: Probes) returns (outcome: Result<(bool, string)>)
      requires i < |CheckNames|
      modifies this
      ensures outcome == CheckReport(i, p).outcome
      ensures warnings == old(warnings) + CheckReport(i, p).warnings && errors == old(errors)
    {
      if i == 0 {
        outcome := Success(CheckPythonVersion(p.version));
      } else if i == 1 {
        var ok, message := CheckContainerRuntime(p.runtime);
        outcome := Success((ok, message));
      } else if i == 2 {
        outcome := Success(CheckClaudeAuth(p.env));
      } else if i == 3 {
        outcome := Success(CheckDatabase(DataDir(p.env), p.database));
      } else if i == 4 {
        var ok, message := CheckDiskSpace(p.free);
        outcome := Success((ok, message));
      } else {
        outcome := CheckDependencies(p.importer);
      }
    }

    /** One round of the loop in `validate_all`: run the `i`-th check, record its error if
        any; `report` is what the check returned. */
    method Check(i: nat, p: Probes) returns (ghost report: Report)
      requires i < |CheckNames|
      modifies this
      ensures report == CheckReport(i, p)
      ensures errors == old(errors) + ErrorLines(CheckNames[i], report.outcome)
      ensures warnings == old(warnings) + report.warnings
    {
      report := CheckReport(i, p);
      var outcome := RunCheck(i, p);
      Record(CheckNames[i], outcome);
    }

    /** The error bookkeeping of one round: `name: message` for a failure, `name: str(e)`
        for an exception, nothing for a pass. */
    method Record(name: string, outcome: Result<(bool, string)>)
      modifies this
      ensures errors == old(errors) + ErrorLines(name, outcome)
      ensures warnings == old(warnings)
    {
      match outcome {
        case Success((success, message)) =>
          if !success {
            errors := errors + [name + ": " + message];
          }
        case Failure(e) =>
          errors := errors + [name + ": " + Str(e)];
      }
    }

    /** `validate_all`: every check runs, in order, whatever the ones before returned;
        the answer is whether the error list is empty afterwards, so warnings never decide it.
        `reports` are what the six checks returned. */
    method ValidateAll(p: Probes) returns (ok: bool, ghost reports: seq<Report>)
      modifies this
      ensures |reports| == |CheckNames| && ReportsOf(p, reports)
      ensures errors == old(errors) + ErrorsOf(CheckNames, reports)
      ensures warnings == old(warnings) + WarningsOf(reports)
      ensures ok <==> old(errors) == [] && ErrorsOf(CheckNames, reports) == []
    {
      ghost var e0, w0 := errors, warnings;
      reports := [];
      var i := 0;
      while i < |CheckNames|
        invariant 0 <= i <= |CheckNames| && |reports| == i && ReportsOf(p, reports)
        invariant errors == e0 + ErrorsOf(CheckNames, reports)
        invariant warnings == w0 + WarningsOf(reports)
      {
        ghost var errorsBefore, warningsBefore := errors, warnings;
        ghost var report := Check(i, p);
        ReportsOfStep(p, reports, report);
        ErrorsKept(CheckNames, reports, report, e0, errorsBefore, errors);
        WarningsKept(reports, report, w0, warningsBefore, warnings);
        reports := reports + [report];
        i := i + 1;
      }
      ok := errors == [];
    }
  }

  /** `validate_all` passes on a fresh validator exactly when every check returned success. */
  lemma ValidationPassesIff(p: Probes, reports: seq<Report>)
    requires |reports| == |CheckNames| && ReportsOf(p, reports)
    ensures ErrorsOf(CheckNames, reports) == [] <==>
      forall i :: 0 <= i < |CheckNames| ==> Passed(CheckReport(i, p))
  {
    NoErrorsIff(CheckNames, reports);
  }
}
