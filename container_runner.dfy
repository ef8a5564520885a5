/** The server side of the sandbox boundary: how a worker container is configured,
    the command line that starts it, how its outcome becomes a response record, and
    what `run` does to the workspace and to the host's temporary files. */
module ContainerRunner {
  import opened Prelude
  import opened Strings
  import opened Security

  // ---------------------------------------------------------------------------
  // Runtime detection

  /** Candidate container runtimes, probed in this order. */
  const Runtimes: seq<string> := ["docker", "podman"]

  const NoRuntimeMessage := "No container runtime found. Install Docker or Podman."

  /** What `subprocess.run([runtime, "--version"], timeout=5)` does for one candidate:
      it exits with a code, the executable is missing (FileNotFoundError), the probe
      times out (TimeoutExpired), or it raises some other exception. */
  datatype Probe = ProbeExit(code: int) | ProbeMissing | ProbeTimeout | ProbeError(error: Exception)

  /** The loop in `_detect_runtime`, as a value: the first candidate whose probe exits 0;
      a missing executable, a timeout or a non-zero exit moves on; any other exception
      escapes the loop. */
  function FirstRuntime(probe: string -> Probe, candidates: seq<string>): Result<string>
  {
    if candidates == [] then Failure(RuntimeError(NoRuntimeMessage))
    else
      match probe(candidates[0])
      case ProbeExit(code) =>
        if code == 0 then Success(candidates[0]) else FirstRuntime(probe, candidates[1..])
      case ProbeError(e) => Failure(e)
      case _ => FirstRuntime(probe, candidates[1..])
  }

  /** A probe the loop steps over. */
  predicate Passed(p: Probe)
  {
    p.ProbeMissing? || p.ProbeTimeout? || (p.ProbeExit? && p.code != 0)
  }

  /** Docker is preferred over podman, podman is only tried after docker is passed over,
      and with neither the error names both. */
  lemma DetectionOrder(probe: string -> Probe)
    ensures FirstRuntime(probe, Runtimes) == Success("docker") <==> probe("docker") == ProbeExit(0)
    ensures FirstRuntime(probe, Runtimes) == Success("podman") <==>
      Passed(probe("docker")) && probe("podman") == ProbeExit(0)
    ensures Passed(probe("docker")) && Passed(probe("podman")) ==>
      FirstRuntime(probe, Runtimes) == Failure(RuntimeError(NoRuntimeMessage))
    ensures FirstRuntime(probe, Runtimes).Failure? <==>
      || probe("docker").ProbeError?
      || (Passed(probe("docker")) && (probe("podman").ProbeError? || Passed(probe("podman"))))
    ensures probe("docker").ProbeError? ==> FirstRuntime(probe, Runtimes) == Failure(probe("docker").error)
  {
    assert Runtimes[1..] == ["podman"];
    assert Runtimes[1..][1..] == [];
  }

  /** `_detect_runtime` */
  method DetectRuntime(probe: string -> Probe) returns (r: Result<string>)
    ensures r == FirstRuntime(probe, Runtimes)
  {
    var i := 0;
    while i < |Runtimes|
      invariant 0 <= i <= |Runtimes|
      invariant FirstRuntime(probe, Runtimes) == FirstRuntime(probe, Runtimes[i..])
    {
      var runtime := Runtimes[i];
      assert Runtimes[i..][1..] == Runtimes[i + 1..];
      match probe(runtime) {
        case ProbeExit(code) =>
          if code == 0 {
            return Success(runtime);
          }
        case ProbeError(e) =>
          return Failure(e);
        case _ =>
      }
      i := i + 1;
    }
    r := Failure(RuntimeError(NoRuntimeMessage));
  }

  // ---------------------------------------------------------------------------
  // Construction

  /** The keyword arguments of `ContainerRunner(...)`; `None` is an omitted argument. */
  datatype RunnerArgs = RunnerArgs(image: Option<string>, timeout: Option<int>,
                                   memoryLimit: Option<string>, cpuLimit: Option<string>)

  /** A configured runner. None of its fields changes after construction. */
  datatype Runner = Runner(image: string, timeout: int, memoryLimit: string, cpuLimit: string,
                           policy: Policy, runtime: string)

  /** `arg or os.getenv(key, default)`: an omitted or empty argument falls back. */
  function Setting(arg: Option<string>, env: map<string, string>, key: string, default: string): string
  {
    if arg.Some? && arg.value != "" then arg.value else GetEnv(env, key, default)
  }

  /** `timeout or int(os.getenv("CONTAINER_TIMEOUT", "120"))`: an omitted or zero
      argument falls back, and a value `int` cannot read raises ValueError. */
  function ConfiguredTimeout(arg: Option<int>, env: map<string, string>): Result<int>
  {
    if arg.Some? && arg.value != 0 then Success(arg.value)
    else
      var text := GetEnv(env, "CONTAINER_TIMEOUT", "120");
      match ParseInt(text)
      case Some(n) => Success(n)
      case None => Failure(ValueError("invalid literal for int() with base 10: '" + text + "'"))
  }

  /** `ContainerRunner.__init__` once the runtime probe has answered: a bad timeout is
      raised before any runtime is probed. */
  function Configure(args: RunnerArgs, env: map<string, string>, fs: FileSystem, runtime: Result<string>)
    : Result<Runner>
  {
    match ConfiguredTimeout(args.timeout, env)
    case Failure(e) => Failure(e)
    case Success(timeout) =>
      match runtime
      case Failure(e) => Failure(e)
      case Success(rt) =>
        Success(Runner(Setting(args.image, env, "WORKER_IMAGE", "noclaw-worker:latest"), timeout,
                       Setting(args.memoryLimit, env, "CONTAINER_MEMORY_LIMIT", "1g"),
                       Setting(args.cpuLimit, env, "CONTAINER_CPU_LIMIT", "1.0"),
                       NewPolicy(None, env, fs), rt))
  }

  /** `ContainerRunner.__init__` */
  method NewRunner(args: RunnerArgs, env: map<string, string>, fs: FileSystem, probe: string -> Probe)
    returns (r: Result<Runner>)
    ensures r == Configure(args, env, fs, FirstRuntime(probe, Runtimes))
  {
    var timeout := ConfiguredTimeout(args.timeout, env);
    if timeout.Failure? {
      return Failure(timeout.error);
    }
    var runtime := DetectRuntime(probe);
    r := Configure(args, env, fs, runtime);
  }

  lemma ParseDefaultTimeout()
    ensures ParseInt("120") == Some(120)
  {
    var one := NatToString(1);
    assert one == ['1'];
    var twelve := NatToString(12);
    assert twelve == one + ['2'];
    var all := NatToString(120);
    assert all == twelve + ['0'];
    assert all == "120";
    ParseIntToString(120);
  }

  /** With no arguments and none of the four variables set, the runner uses the
      documented defaults and the policy built from the environment. */
  lemma DefaultSettings(env: map<string, string>, fs: FileSystem, rt: string)
    requires "WORKER_IMAGE" !in env && "CONTAINER_TIMEOUT" !in env
    requires "CONTAINER_MEMORY_LIMIT" !in env && "CONTAINER_CPU_LIMIT" !in env
    ensures Configure(RunnerArgs(None, None, None, None), env, fs, Success(rt)) ==
      Success(Runner("noclaw-worker:latest", 120, "1g", "1.0", NewPolicy(None, env, fs), rt))
  {
    ParseDefaultTimeout();
  }

  /** Non-empty arguments win over the environment; a zero or omitted timeout reads
      `CONTAINER_TIMEOUT`, and an unreadable one fails the construction. */
  lemma ArgumentsWin(args: RunnerArgs, env: map<string, string>, fs: FileSystem, rt: string)
    requires args.image.Some? && args.image.value != ""
    requires args.timeout.Some? && args.timeout.value != 0
    requires args.memoryLimit.Some? && args.memoryLimit.value != ""
    requires args.cpuLimit.Some? && args.cpuLimit.value != ""
    ensures Configure(args, env, fs, Success(rt)) ==
      Success(Runner(args.image.value, args.timeout.value, args.memoryLimit.value, args.cpuLimit.value,
                     NewPolicy(None, env, fs), rt))
  {
  }

  lemma UnreadableTimeoutFails(args: RunnerArgs, env: map<string, string>, fs: FileSystem, runtime: Result<string>)
    requires args.timeout.None? || args.timeout.value == 0
    requires "CONTAINER_TIMEOUT" in env && ParseInt(env["CONTAINER_TIMEOUT"]).None?
    ensures Configure(args, env, fs, runtime) ==
      Failure(ValueError("invalid literal for int() with base 10: '" + env["CONTAINER_TIMEOUT"] + "'"))
  {
    assert GetEnv(env, "CONTAINER_TIMEOUT", "120") == env["CONTAINER_TIMEOUT"];
    assert ConfiguredTimeout(args.timeout, env) ==
      Failure(ValueError("invalid literal for int() with base 10: '" + env["CONTAINER_TIMEOUT"] + "'"));
  }

  lemma EnvironmentTimeout(env: map<string, string>, fs: FileSystem, rt: string, n: int)
    requires "CONTAINER_TIMEOUT" in env && env["CONTAINER_TIMEOUT"] == IntToString(n)
    ensures Configure(RunnerArgs(None, None, None, None), env, fs, Success(rt)).Success?
    ensures Configure(RunnerArgs(None, None, None, None), env, fs, Success(rt)).value.timeout == n
  {
    ParseIntToString(n);
  }

  // ---------------------------------------------------------------------------
  // The command line

  /** `"ro" if mount["readonly"] else "rw"` */
  function Mode(m: Mount): string
  {
    if Truthy(m.readonly) then "ro" else "rw"
  }

  /** `f"{mount['host']}:{mount['container']}:{mode}"` */
  function MountSpec(m: Mount): string
  {
    m.host + ":" + Display(m.container) + ":" + Mode(m)
  }

  /** The fixed head of the command: resource limits, hardening, the workspace mounted
      read-write and the input file mounted read-only. */
  function BaseArgs(runner: Runner, fs: FileSystem, workspace: string, inputPath: string): seq<string>
  {
    [runner.runtime, "run", "--rm", "--memory", runner.memoryLimit, "--cpus", runner.cpuLimit,
     "--security-opt", "no-new-privileges",
     "-v", PathString(fs.absolute(workspace)) + ":/workspace:rw",
     "-v", inputPath + ":/input.json:ro"]
  }

  /** One `-v host:container:mode` pair per loaded mount, in order. */
  function MountArgs(mounts: seq<Mount>): (r: seq<string>)
    ensures |r| == 2 * |mounts|
  {
    if mounts == [] then [] else ["-v", MountSpec(mounts[0])] + MountArgs(mounts[1..])
  }

  /** Mount `k` sits at positions `2k` and `2k + 1`. */
  lemma {:induction false} MountArgsAt(mounts: seq<Mount>, k: nat)
    requires k < |mounts|
    ensures MountArgs(mounts)[2 * k] == "-v" && MountArgs(mounts)[2 * k + 1] == MountSpec(mounts[k])
    decreases k
  {
    var r := MountArgs(mounts);
    if k > 0 {
      var rest := MountArgs(mounts[1..]);
      assert r == ["-v", MountSpec(mounts[0])] + rest;
      MountArgsAt(mounts[1..], k - 1);
      assert r[2 * k] == rest[2 * (k - 1)];
      assert r[2 * k + 1] == rest[2 * (k - 1) + 1];
    }
  }

  lemma {:induction false} MountArgsSnoc(mounts: seq<Mount>, m: Mount)
    ensures MountArgs(mounts + [m]) == MountArgs(mounts) + ["-v", MountSpec(m)]
    decreases |mounts|
  {
    if mounts == [] {
      assert [m][1..] == [];
    } else {
      assert (mounts + [m])[1..] == mounts[1..] + [m];
      MountArgsSnoc(mounts[1..], m);
    }
  }

  /** The credential passed into the container: the OAuth token when set and non-empty,
      otherwise the API key when set and non-empty, otherwise nothing. */
  function CredentialArgs(env: map<string, string>): seq<string>
  {
    var oauth := GetEnv(env, "CLAUDE_CODE_OAUTH_TOKEN", "");
    var apiKey := GetEnv(env, "ANTHROPIC_API_KEY", "");
    if oauth != "" then ["-e", "CLAUDE_CODE_OAUTH_TOKEN=" + oauth]
    else if apiKey != "" then ["-e", "ANTHROPIC_API_KEY=" + apiKey]
    else []
  }

  /** The image and the worker entry point close the command. */
  function EntrypointArgs(runner: Runner): seq<string>
  {
    [runner.image, "python3", "/app/worker.py"]
  }

  /** The command `_build_command` returns for the mounts `load_additional_mounts` gave. */
  function Command(runner: Runner, fs: FileSystem, workspace: string, inputPath: string,
                   mounts: seq<Mount>, env: map<string, string>): seq<string>
  {
    BaseArgs(runner, fs, workspace, inputPath) + MountArgs(mounts) + CredentialArgs(env) + EntrypointArgs(runner)
  }

  /** `_build_command`: the fixed head, then each loaded mount appended in turn, then the
      credential, then the entry point. */
  method BuildCommand(runner: Runner, fs: FileSystem, workspace: string, files: map<string, File>,
                      json: JsonLib, inputPath: string, env: map<string, string>)
    returns (cmd: seq<string>)
    ensures cmd == Command(runner, fs, workspace, inputPath, MountsFromConfig(fs, files, json), env)
  {
    cmd := BaseArgs(runner, fs, workspace, inputPath);
    var mounts := LoadAdditionalMounts(fs, files, json);
    var volumes := VolumeArgs(mounts);
    cmd := cmd + volumes;
    ghost var head := cmd;
    var oauth := GetEnv(env, "CLAUDE_CODE_OAUTH_TOKEN", "");
    var apiKey := GetEnv(env, "ANTHROPIC_API_KEY", "");
    if oauth != "" {
      cmd := cmd + ["-e", "CLAUDE_CODE_OAUTH_TOKEN=" + oauth];
    } else if apiKey != "" {
      cmd := cmd + ["-e", "ANTHROPIC_API_KEY=" + apiKey];
    }
    assert cmd == head + CredentialArgs(env);
    cmd := cmd + [runner.image, "python3", "/app/worker.py"];
  }

  /** The loop over the additional mounts: one `-v host:container:mode` pair each. */
  method VolumeArgs(mounts: seq<Mount>) returns (args: seq<string>)
    ensures args == MountArgs(mounts)
  {
    args := [];
    var i := 0;
    while i < |mounts|
      invariant 0 <= i <= |mounts|
      invariant args == MountArgs(mounts[..i])
    {
      MountArgsSnoc(mounts[..i], mounts[i]);
      assert mounts[..i + 1] == mounts[..i] + [mounts[i]];
      args := args + ["-v", MountSpec(mounts[i])];
      i := i + 1;
    }
    assert mounts[..i] == mounts;
  }

  /** The command starts with exactly the thirteen fixed arguments, has one `-v` pair per
      mount right after them in load order, and ends with the image and the worker entry
      point, so nothing that comes from the workspace follows the image. */
  lemma CommandLayout(runner: Runner, fs: FileSystem, workspace: string, inputPath: string,
                      mounts: seq<Mount>, env: map<string, string>)
    ensures var cmd := Command(runner, fs, workspace, inputPath, mounts, env);
      && |cmd| >= 16
      && cmd[..13] == [runner.runtime, "run", "--rm", "--memory", runner.memoryLimit, "--cpus",
                       runner.cpuLimit, "--security-opt", "no-new-privileges",
                       "-v", PathString(fs.absolute(workspace)) + ":/workspace:rw",
                       "-v", inputPath + ":/input.json:ro"]
      && (forall k :: 0 <= k < |mounts| ==>
            cmd[13 + 2 * k] == "-v" && cmd[13 + 2 * k + 1] == MountSpec(mounts[k]))
      && cmd[13 + 2 * |mounts|..|cmd| - 3] == CredentialArgs(env)
      && cmd[|cmd| - 3..] == [runner.image, "python3", "/app/worker.py"]
  {
    var base := BaseArgs(runner, fs, workspace, inputPath);
    var ms := MountArgs(mounts);
    var cred := CredentialArgs(env);
    var cmd := base + ms + cred + EntrypointArgs(runner);
    Segments(base, ms, cred, EntrypointArgs(runner));
    forall k | 0 <= k < |mounts|
      ensures cmd[13 + 2 * k] == "-v" && cmd[13 + 2 * k + 1] == MountSpec(mounts[k])
    {
      MountArgsAt(mounts, k);
    }
  }

  /** Where the four segments of a concatenation lie. */
  lemma Segments(a: seq<string>, b: seq<string>, c: seq<string>, d: seq<string>)
    ensures var s := a + b + c + d;
      && s[..|a|] == a
      && (forall i :: 0 <= i < |b| ==> s[|a| + i] == b[i])
      && s[|a| + |b|..|s| - |d|] == c
      && s[|s| - |d|..] == d
  {
    var s := a + b + c + d;
    assert s[..|a|] == a;
    assert s[|a| + |b|..|s| - |d|] == c;
    assert s[|s| - |d|..] == d;
  }

  /** At most one credential is passed and never both; the OAuth token wins. */
  lemma CredentialChoice(env: map<string, string>)
    ensures |CredentialArgs(env)| == 0 || |CredentialArgs(env)| == 2
    ensures CredentialArgs(env) != [] ==> CredentialArgs(env)[0] == "-e"
    ensures "CLAUDE_CODE_OAUTH_TOKEN" in env && env["CLAUDE_CODE_OAUTH_TOKEN"] != "" ==>
      CredentialArgs(env) == ["-e", "CLAUDE_CODE_OAUTH_TOKEN=" + env["CLAUDE_CODE_OAUTH_TOKEN"]]
    ensures (&& ("CLAUDE_CODE_OAUTH_TOKEN" !in env || env["CLAUDE_CODE_OAUTH_TOKEN"] == "")
             && "ANTHROPIC_API_KEY" in env && env["ANTHROPIC_API_KEY"] != "") ==>
      CredentialArgs(env) == ["-e", "ANTHROPIC_API_KEY=" + env["ANTHROPIC_API_KEY"]]
    ensures CredentialArgs(env) == [] <==>
      ("CLAUDE_CODE_OAUTH_TOKEN" !in env || env["CLAUDE_CODE_OAUTH_TOKEN"] == "")
      && ("ANTHROPIC_API_KEY" !in env || env["ANTHROPIC_API_KEY"] == "")
  {
  }

  /** A mount is passed read-only exactly when its `readonly` value is truthy, and an
      omitted `readonly` reads as read-only. */
  lemma ModeFollowsReadonly(m: Mount)
    ensures Mode(m) == "ro" <==> Truthy(m.readonly)
    ensures Mode(m) == "ro" || Mode(m) == "rw"
    ensures m.readonly == JBool(true) ==> MountSpec(m) == m.host + ":" + Display(m.container) + ":ro"
  {
  }

  // ---------------------------------------------------------------------------
  // Outcomes and their envelopes

  /** How the container process ended: it exited with a code and its decoded standard
      output and error, `asyncio.wait_for` timed out, or spawning or waiting raised an
      exception with the given `str(e)`. */
  datatype Outcome = Exited(exitCode: int, stdout: string, stderr: string) | TimedOut | Crashed(message: string)

  /** The record `_execute_container` encodes instead of the output, when it does. */
  function Envelope(outcome: Outcome, timeout: int): Option<Json>
  {
    match outcome
    case Exited(code, out, err) =>
      if code == 0 then None
      else Some(JObject([("response", JStr("Container execution failed with exit code " + IntToString(code))),
                         ("error", JStr(if err != "" then err else "Unknown error")),
                         ("stdout", JStr(out)),
                         ("exit_code", JInt(code))]))
    case TimedOut =>
      Some(JObject([("response", JStr("Execution timed out after " + IntToString(timeout) + " seconds")),
                    ("error", JStr("timeout"))]))
    case Crashed(msg) =>
      Some(JObject([("response", JStr("Container execution failed")), ("error", JStr(msg))]))
  }

  /** `_execute_container`: the standard output of a clean exit, otherwise the encoded envelope. */
  function ExecuteResult(outcome: Outcome, timeout: int, json: JsonLib): string
  {
    match Envelope(outcome, timeout)
    case Some(envelope) => json.dumps(envelope)
    case None => outcome.stdout
  }

  /** The record `run` builds when the container's output is not JSON. */
  function InvalidOutput(result: string, json: JsonLib): Json
  {
    JObject([("response", JStr("Error: Invalid response from container")),
             ("error", JStr(json.errorText(result))),
             ("raw_output", JStr(result))])
  }

  /** `json.loads(result)` with the fallback record: parsing never raises out of `run`. */
  function ParseOutput(result: string, json: JsonLib): (r: Json)
    ensures json.loads(result).None? ==> r.JObject? && Get(r.fields, "raw_output") == Some(JStr(result))
  {
    match json.loads(result)
    case Some(j) => j
    case None =>
      var r := InvalidOutput(result, json);
      GetAt(r.fields, 2, "raw_output");
      r
  }

  /** Encoding a record and decoding it again gives the record back, for every record a
      dict-based encoder can hold: objects with distinct keys. */
  ghost predicate Lossless(json: JsonLib)
  {
    forall j :: UniqueKeys(j) ==> json.loads(json.dumps(j)) == Some(j)
  }

  /** What reaches `run` after a failed exit: the failure message with the exit code,
      the standard error or "Unknown error" for an empty one, the standard output
      verbatim, and the code. */
  lemma FailedExitRecord(code: int, out: string, err: string, timeout: int, json: JsonLib)
    requires Lossless(json) && code != 0
    ensures var r := ParseOutput(ExecuteResult(Exited(code, out, err), timeout, json), json);
      && r.JObject?
      && Get(r.fields, "response") == Some(JStr("Container execution failed with exit code " + IntToString(code)))
      && Get(r.fields, "error") == Some(JStr(if err == "" then "Unknown error" else err))
      && Get(r.fields, "stdout") == Some(JStr(out))
      && Get(r.fields, "exit_code") == Some(JInt(code))
  {
    var e := Envelope(Exited(code, out, err), timeout).value;
    assert UniqueKeys(e);
    assert json.loads(json.dumps(e)) == Some(e);
    var f := e.fields;
    GetAt(f, 0, "response");
    GetAt(f, 1, "error");
    GetAt(f, 2, "stdout");
    GetAt(f, 3, "exit_code");
  }

  lemma TimeoutRecord(timeout: int, json: JsonLib)
    requires Lossless(json)
    ensures var r := ParseOutput(ExecuteResult(TimedOut, timeout, json), json);
      && r.JObject?
      && Get(r.fields, "error") == Some(JStr("timeout"))
      && Get(r.fields, "response") == Some(JStr("Execution timed out after " + IntToString(timeout) + " seconds"))
  {
    var e := Envelope(TimedOut, timeout).value;
    assert UniqueKeys(e);
    assert json.loads(json.dumps(e)) == Some(e);
    GetAt(e.fields, 0, "response");
    GetAt(e.fields, 1, "error");
  }

  lemma CrashRecord(msg: string, timeout: int, json: JsonLib)
    requires Lossless(json)
    ensures var r := ParseOutput(ExecuteResult(Crashed(msg), timeout, json), json);
      && r.JObject?
      && Get(r.fields, "response") == Some(JStr("Container execution failed"))
      && Get(r.fields, "error") == Some(JStr(msg))
  {
    var e := Envelope(Crashed(msg), timeout).value;
    assert UniqueKeys(e);
    assert json.loads(json.dumps(e)) == Some(e);
    GetAt(e.fields, 0, "response");
    GetAt(e.fields, 1, "error");
  }

  /** A clean exit hands its standard output to the parser untouched; output that is not
      JSON becomes the invalid-response record holding it as `raw_output`. */
  lemma CleanExitOutput(out: string, err: string, timeout: int, json: JsonLib)
    ensures ExecuteResult(Exited(0, out, err), timeout, json) == out
    ensures json.loads(out).Some? ==> ParseOutput(out, json) == json.loads(out).value
    ensures json.loads(out).None? ==> ParseOutput(out, json) == InvalidOutput(out, json)
  {
  }

  // ---------------------------------------------------------------------------
  // The sidecar file

  const SidecarName := ".noclaw_output.json"

  /** `"scheduled_tasks" in sidecar` followed by `sidecar["scheduled_tasks"]`, on whatever
      the sidecar decoded to. Only a dict answers normally; on the other types the test
      or the lookup raises TypeError, which `run` does not catch. */
  function SidecarTasks(sidecar: Json): Result<Option<Json>>
  {
    match sidecar
    case JObject(fields) => Success(Get(fields, "scheduled_tasks"))
    case JArray(items) =>
      if JStr("scheduled_tasks") in items then Failure(TypeError("list indices must be integers or slices, not str"))
      else Success(None)
    case JStr(s) =>
      if Contains(s, "scheduled_tasks") then Failure(TypeError("string indices must be integers, not 'str'"))
      else Success(None)
    case _ => Failure(TypeError("argument of type '" + TypeName(sidecar) + "' is not iterable"))
  }

  /** `output["scheduled_tasks"] = tasks`: only a dict output accepts the assignment. */
  function WithTasks(output: Json, tasks: Json): (r: Result<Json>)
    ensures output.JObject? ==>
      && r.Success? && r.value.JObject?
      && Get(r.value.fields, "scheduled_tasks") == Some(tasks)
      && forall k :: k != "scheduled_tasks" ==> Get(r.value.fields, k) == Get(output.fields, k)
    ensures !output.JObject? ==> r.Failure? && r.error.TypeError?
  {
    match output
    case JObject(fields) => Success(JObject(Put(fields, "scheduled_tasks", tasks)))
    case JArray(_) => Failure(TypeError("list indices must be integers or slices, not str"))
    case _ => Failure(TypeError("'" + TypeName(output) + "' object does not support item assignment"))
  }

  /** The sidecar block of `run` on the workspace files the container left behind: a
      missing, unreadable or unparseable sidecar leaves the output as it is. */
  function MergeSidecar(output: Json, files: map<string, File>, json: JsonLib): Result<Json>
  {
    if SidecarName !in files then Success(output)
    else
      match files[SidecarName]
      case Unreadable => Success(output)
      case Text(text) =>
        match json.loads(text)
        case None => Success(output)
        case Some(sidecar) =>
          match SidecarTasks(sidecar)
          case Failure(e) => Failure(e)
          case Success(None) => Success(output)
          case Success(Some(tasks)) => WithTasks(output, tasks)
  }

  /** A sidecar dict with `scheduled_tasks` replaces that key of a dict output and leaves
      every other key alone. */
  lemma SidecarReplacesTasks(output: Json, files: map<string, File>, json: JsonLib, text: string,
                             fields: seq<(string, Json)>, tasks: Json)
    requires output.JObject?
    requires SidecarName in files && files[SidecarName] == Text(text)
    requires json.loads(text) == Some(JObject(fields)) && Get(fields, "scheduled_tasks") == Some(tasks)
    ensures var r := MergeSidecar(output, files, json);
      && r.Success? && r.value.JObject?
      && Get(r.value.fields, "scheduled_tasks") == Some(tasks)
      && forall k :: k != "scheduled_tasks" ==> Get(r.value.fields, k) == Get(output.fields, k)
  {
  }

  /** A sidecar that is missing, unreadable, not JSON, or a dict without
      `scheduled_tasks` changes nothing. */
  lemma SidecarWithoutTasksKeepsOutput(output: Json, files: map<string, File>, json: JsonLib)
    requires || SidecarName !in files
             || files[SidecarName].Unreadable?
             || json.loads(files[SidecarName].contents).None?
             || (json.loads(files[SidecarName].contents).value.JObject?
                 && Get(json.loads(files[SidecarName].contents).value.fields, "scheduled_tasks").None?)
    ensures MergeSidecar(output, files, json) == Success(output)
  {
  }

  /** The sidecar stage only raises on a sidecar that decodes to something other than a
      dict, or when tasks are to be merged into an output that is not a dict. */
  lemma SidecarFailureCauses(output: Json, files: map<string, File>, json: JsonLib)
    ensures MergeSidecar(output, files, json).Failure? ==>
      && SidecarName in files && files[SidecarName].Text?
      && json.loads(files[SidecarName].contents).Some?
      && (!json.loads(files[SidecarName].contents).value.JObject? || !output.JObject?)
      && MergeSidecar(output, files, json).error.TypeError?
  {
    if SidecarName in files && files[SidecarName].Text? {
      var text := files[SidecarName].contents;
      if json.loads(text).Some? {
        var sidecar := json.loads(text).value;
        if sidecar.JObject? && Get(sidecar.fields, "scheduled_tasks").Some? {
          assert MergeSidecar(output, files, json) == WithTasks(output, Get(sidecar.fields, "scheduled_tasks").value);
        }
      }
    }
  }

  // ---------------------------------------------------------------------------
  // One run

  /** Temporary files on the host and every command spawned there. */
  class Host {
    var tempFiles: map<string, string>
    var launched: seq<seq<string>>

    constructor ()
      ensures tempFiles == map[] && launched == []
    {
      tempFiles := map[];
      launched := [];
    }
  }

  /** What the container did: how it ended, and the workspace files it left behind
      (the workspace is mounted read-write, so the worker's sidecar appears here). */
  datatype Launch = Launch(outcome: Outcome, files: map<string, File>)

  /** The sandbox: given the command, the contents of the mounted input file and the
      workspace files, it answers how the container ended and what the workspace holds. */
  type Sandbox = (seq<string>, string, map<string, File>) -> Launch

  /** How far `run` gets before it writes the input file. */
  datatype Admission =
    | Refused(error: Exception)       // raised before anything is created
    | NoInstructions(workspace: string, error: Exception) // raised after the workspace directory is created
    | Admitted(workspace: string, instructions: string)

  /** `context.get(key, default)` on the context dict. */
  function Lookup(context: seq<(string, Json)>, key: string, default: Json): Json
  {
    Get(context, key).GetOr(default)
  }

  // Fixed pieces of the rejection message.
  const RejectedHeader := "Workspace path rejected by security policy.\n\nRequested workspace: "
  const RootHeader := "\nAllowed workspace root: "
  const DefaultRootNote := "\n\nBy default, containers can only access workspaces under:\n  "
  const IsolationNote := "\n\nThis ensures secure isolation. Each user's workspace is separate.\nSee server/security.py for the full security model."

  /** The message of the ValueError raised for a rejected workspace. */
  function RejectionMessage(policy: Policy, fs: FileSystem, workspace: string): string
  {
    var root := PathString(policy.WorkspaceRoot());
    RejectedHeader + PathString(fs.absolute(workspace)) + RootHeader + root + DefaultRootNote + root + IsolationNote
  }

  /** The start of `run`: `Path(workspace)` needs a string, the policy must accept it,
      and `write_text` needs a string for `claude_md`. */
  function Admit(runner: Runner, fs: FileSystem, context: seq<(string, Json)>): Admission
  {
    match Lookup(context, "workspace", JStr("/tmp/workspace"))
    case JStr(workspace) =>
      (match ValidateWorkspace(runner.policy, fs, workspace)
       case Failure(e) => Refused(e)
       case Success(false) => Refused(ValueError(RejectionMessage(runner.policy, fs, workspace)))
       case Success(true) =>
         match Lookup(context, "claude_md", JStr(""))
         case JStr(md) => Admitted(workspace, md)
         case other => NoInstructions(workspace, TypeError("data must be str, not " + TypeName(other))))
    case other => Refused(TypeError("expected str, bytes or os.PathLike object, not " + TypeName(other)))
  }

  /** A workspace the policy does not accept is refused with the ValueError ... */
  lemma RejectedWorkspaceRaises(runner: Runner, fs: FileSystem, context: seq<(string, Json)>, ws: string)
    requires Lookup(context, "workspace", JStr("/tmp/workspace")) == JStr(ws)
    requires ValidateWorkspace(runner.policy, fs, ws) == Success(false)
    ensures Admit(runner, fs, context) == Refused(ValueError(RejectionMessage(runner.policy, fs, ws)))
  {
    var message := RejectionMessage(runner.policy, fs, ws);
    assert Admit(runner, fs, context) == Refused(ValueError(message));
  }

  /** ... one the policy cannot decide is refused with the policy's own exception ... */
  lemma UndecidedWorkspaceRaises(runner: Runner, fs: FileSystem, context: seq<(string, Json)>, ws: string)
    requires Lookup(context, "workspace", JStr("/tmp/workspace")) == JStr(ws)
    requires ValidateWorkspace(runner.policy, fs, ws).Failure?
    ensures Admit(runner, fs, context) == Refused(ValidateWorkspace(runner.policy, fs, ws).error)
  {
  }

  /** ... and a run goes past the checks exactly when the workspace is a string the policy
      accepts and the instructions are a string. */
  lemma AdmittedIff(runner: Runner, fs: FileSystem, context: seq<(string, Json)>)
    ensures Admit(runner, fs, context).Admitted? <==>
      && Lookup(context, "workspace", JStr("/tmp/workspace")).JStr?
      && ValidateWorkspace(runner.policy, fs, Lookup(context, "workspace", JStr("/tmp/workspace")).s) == Success(true)
      && Lookup(context, "claude_md", JStr("")).JStr?
    ensures Admit(runner, fs, context).Admitted? ==>
      && Lookup(context, "workspace", JStr("/tmp/workspace")) == JStr(Admit(runner, fs, context).workspace)
      && Lookup(context, "claude_md", JStr("")) == JStr(Admit(runner, fs, context).instructions)
  {
  }

  /** The record written to the input file. */
  function InputRecord(context: seq<(string, Json)>): Json
  {
    JObject([("prompt", Lookup(context, "prompt", JStr(""))),
             ("context", Lookup(context, "extra_context", JObject([]))),
             ("user", Lookup(context, "user", JStr("default"))),
             ("history", Lookup(context, "history", JArray([])))])
  }

  /** The input record holds exactly the prompt, the extra context (as `context`), the user
      and the history, with their defaults; it carries no model hint. */
  lemma InputRecordFields(context: seq<(string, Json)>)
    ensures var r := InputRecord(context);
      && r.JObject? && |r.fields| == 4
      && Get(r.fields, "prompt") == Some(Lookup(context, "prompt", JStr("")))
      && Get(r.fields, "context") == Some(Lookup(context, "extra_context", JObject([])))
      && Get(r.fields, "user") == Some(Lookup(context, "user", JStr("default")))
      && Get(r.fields, "history") == Some(Lookup(context, "history", JArray([])))
      && Get(r.fields, "model_hint").None?
  {
    InputFields(Lookup(context, "prompt", JStr("")), Lookup(context, "extra_context", JObject([])),
                Lookup(context, "user", JStr("default")), Lookup(context, "history", JArray([])));
  }

  lemma InputFields(prompt: Json, extra: Json, user: Json, history: Json)
    ensures var f := [("prompt", prompt), ("context", extra), ("user", user), ("history", history)];
      && Get(f, "prompt") == Some(prompt) && Get(f, "context") == Some(extra)
      && Get(f, "user") == Some(user) && Get(f, "history") == Some(history)
      && Get(f, "model_hint").None?
  {
    var f := [("prompt", prompt), ("context", extra), ("user", user), ("history", history)];
    GetAt(f, 0, "prompt");
    GetAt(f, 1, "context");
    GetAt(f, 2, "user");
    GetAt(f, 3, "history");
    assert forall j :: 0 <= j < |f| ==> |f[j].0| != |"model_hint"|;
    GetAbsent(f, "model_hint");
  }

  /** `prompt[:50]` in the log line `run` writes before starting the container. */
  function Announced(context: seq<(string, Json)>): Result<Json>
  {
    SliceTo(Lookup(context, "prompt", JStr("")), 50)
  }

  /** The log line raises exactly when the prompt is neither a string nor a list, and then
      it raises TypeError. */
  lemma AnnouncedFailsIff(context: seq<(string, Json)>)
    ensures var prompt := Lookup(context, "prompt", JStr(""));
      Announced(context).Failure? <==> !prompt.JStr? && !prompt.JArray?
    ensures Announced(context).Failure? ==> Announced(context).error.TypeError?
    ensures Announced(context).Success? && Lookup(context, "prompt", JStr("")).JStr? ==>
      Announced(context).value == JStr(Take(Lookup(context, "prompt", JStr("")).s, 50))
  {
  }

  /** The instructions file `run` writes into the workspace. */
  const ClaudeFile := "CLAUDE.md"

  /** Whether the two filesystem calls `run` makes before the container raise OSError:
      `mkdir` on the workspace, and opening `CLAUDE.md` in it for writing. */
  datatype DiskFaults = DiskFaults(mkdirFails: bool, writeFails: bool)

  /** `ContainerRunner.run`. A refused context changes nothing. An admitted one creates
      the workspace, writes `CLAUDE.md` and writes the input record to the fresh temporary
      file `inputPath`; an OSError from creating the workspace or writing `CLAUDE.md` ends
      the run there. A prompt the log line cannot slice then raises TypeError before
      anything is spawned; otherwise exactly one command is spawned. Either way the temporary
      file is gone afterwards, and after a spawn so is the sidecar, whether the sidecar stage
      raised or not. */
  method Run(runner: Runner, fs: FileSystem, json: JsonLib, env: map<string, string>,
             context: seq<(string, Json)>, ws: Directory, host: Host, inputPath: string, sandbox: Sandbox,
             faults: DiskFaults)
    returns (r: Result<Json>)
    requires inputPath !in host.tempFiles
    modifies ws, host
    ensures Admit(runner, fs, context).Refused? ==>
      r == Failure(Admit(runner, fs, context).error) && unchanged(ws) && unchanged(host)
    ensures !Admit(runner, fs, context).Refused? && faults.mkdirFails ==>
      r == Failure(OSError(Admit(runner, fs, context).workspace)) && unchanged(ws) && unchanged(host)
    ensures Admit(runner, fs, context).NoInstructions? && !faults.mkdirFails ==>
      r == Failure(Admit(runner, fs, context).error) && ws.present && ws.files == old(ws.files) && unchanged(host)
    ensures Admit(runner, fs, context).Admitted? && !faults.mkdirFails && faults.writeFails ==>
      r == Failure(OSError(ClaudeFile)) && ws.present && ws.files == old(ws.files) && unchanged(host)
    ensures Admit(runner, fs, context).Admitted? && !faults.mkdirFails && !faults.writeFails && Announced(context).Failure? ==>
      var a := Admit(runner, fs, context);
      && r == Failure(Announced(context).error)
      && ws.present && ws.files == old(ws.files)[ClaudeFile := Text(a.instructions)]
      && host.tempFiles == old(host.tempFiles) && host.launched == old(host.launched)
    ensures Admit(runner, fs, context).Admitted? && !faults.mkdirFails && !faults.writeFails && Announced(context).Success? ==>
      var a := Admit(runner, fs, context);
      var files := old(ws.files)[ClaudeFile := Text(a.instructions)];
      var cmd := Command(runner, fs, a.workspace, inputPath, MountsFromConfig(fs, files, json), env);
      var launch := sandbox(cmd, json.dumps(InputRecord(context)), files);
      && ws.present
      && ws.files == launch.files - {SidecarName}
      && host.tempFiles == old(host.tempFiles)
      && host.launched == old(host.launched) + [cmd]
      && r == MergeSidecar(ParseOutput(ExecuteResult(launch.outcome, runner.timeout, json), json), launch.files, json)
  {
    var admission := Admit(runner, fs, context);
    if admission.Refused? {
      return Failure(admission.error);
    }
    if faults.mkdirFails {
      return Failure(OSError(admission.workspace));
    }
    ws.present := true;
    if admission.NoInstructions? {
      return Failure(admission.error);
    }
    r := Execute(runner, fs, json, env, context, admission.workspace, admission.instructions, ws, host, inputPath, sandbox,
                 faults.writeFails);
  }

  /** The part of `run` after the checks: the instructions file, the input file, the
      command, the container, the parse, the sidecar, and the clean-up. When `CLAUDE.md`
      cannot be opened for writing, the OSError ends the run before anything else. */
  method Execute(runner: Runner, fs: FileSystem, json: JsonLib, env: map<string, string>,
               context: seq<(string, Json)>, workspace: string, instructions: string,
               ws: Directory, host: Host, inputPath: string, sandbox: Sandbox, writeFails: bool)
    returns (r: Result<Json>)
    requires inputPath !in host.tempFiles
    modifies ws, host
    ensures ws.present == old(ws.present) && host.tempFiles == old(host.tempFiles)
    ensures writeFails ==> r == Failure(OSError(ClaudeFile)) && unchanged(ws) && unchanged(host)
    ensures !writeFails ==>
      var files := old(ws.files)[ClaudeFile := Text(instructions)];
      match Announced(context)
      case Failure(e) =>
        r == Failure(e) && ws.files == files && host.launched == old(host.launched)
      case Success(_) =>
        var cmd := Command(runner, fs, workspace, inputPath, MountsFromConfig(fs, files, json), env);
        var launch := sandbox(cmd, json.dumps(InputRecord(context)), files);
        && ws.files == launch.files - {SidecarName}
        && host.launched == old(host.launched) + [cmd]
        && r == MergeSidecar(ParseOutput(ExecuteResult(launch.outcome, runner.timeout, json), json), launch.files, json)
  {
    if writeFails {
      return Failure(OSError(ClaudeFile));
    }
    var files := ws.files[ClaudeFile := Text(instructions)];
    ws.files := files;
    var input := json.dumps(InputRecord(context));
    ghost var temps := host.tempFiles;
    host.tempFiles := host.tempFiles[inputPath := input];
    var cmd := BuildCommand(runner, fs, workspace, files, json, inputPath, env);
    var announced := Announced(context);
    if announced.Failure? {
      host.tempFiles := host.tempFiles - {inputPath};
      AddThenRemove(temps, inputPath, input);
      return Failure(announced.error);
    }
    host.launched := host.launched + [cmd];
    var launch := sandbox(cmd, host.tempFiles[inputPath], files);
    ws.files := launch.files;
    var result := ExecuteResult(launch.outcome, runner.timeout, json);
    var output := ParseOutput(result, json);
    r := MergeSidecar(output, launch.files, json);
    ws.files := launch.files - {SidecarName};
    host.tempFiles := host.tempFiles - {inputPath};
    AddThenRemove(temps, inputPath, input);
  }
}
