/** The container security policy: which workspace directories and which extra host
    mounts may be exposed to a worker container, and how the optional `config.json`
    of a workspace turns into a list of extra mounts. */
module Security {
  import opened Prelude
  import opened Strings

  /** Path fragments that may never appear in a mounted path. */
  const BlockedPatterns: seq<string> :=
    [".ssh", ".aws", ".env", ".git/config", "credentials", "secrets", "node_modules", ".venv", "__pycache__"]

  /** An absolute path by its components: `/a/b` is `Path(["a", "b"])` and `/` is `Path([])`. */
  datatype Path = Path(parts: seq<string>) {
    /** `self / name` */
    function Child(name: string): Path {
      Path(parts + [name])
    }
  }

  /** `str(p)` for an absolute path. */
  function PathString(p: Path): string
  {
    "/" + Join(p.parts, "/")
  }

  /** `p.relative_to(root)` succeeds: it compares whole components, not characters. */
  predicate IsUnder(p: Path, root: Path)
  {
    root.parts <= p.parts
  }

  /** The host filesystem, seen only through the calls the policy makes on it.
      A path given as text may be relative or start with `~`; expanding `~user` raises
      RuntimeError for an unknown user or when no home directory can be found. */
  datatype FileSystem = FileSystem(
    resolve: string -> Result<Path>,
    absolute: string -> Path,
    expandUser: string -> Result<string>,
    present: Path -> bool,
    readable: Path -> bool)

  /** `os.getenv(key, default)` */
  function GetEnv(env: map<string, string>, key: string, default: string): string
  {
    if key in env then env[key] else default
  }

  datatype Policy = Policy(dataDir: Path) {
    /** `DATA_DIR/workspaces`, the only directory under which workspaces are allowed. */
    function WorkspaceRoot(): Path {
      dataDir.Child("workspaces")
    }
  }

  /** `SecurityPolicy(data_dir)`: the argument when it is a non-empty string, otherwise
      `$DATA_DIR`, otherwise `data`, made absolute. */
  function NewPolicy(dataDir: Option<string>, env: map<string, string>, fs: FileSystem): (p: Policy)
    ensures dataDir.Some? && dataDir.value != "" ==> p.WorkspaceRoot() == fs.absolute(dataDir.value).Child("workspaces")
    ensures (dataDir.None? || dataDir.value == "") && "DATA_DIR" in env ==> p.dataDir == fs.absolute(env["DATA_DIR"])
    ensures (dataDir.None? || dataDir.value == "") && "DATA_DIR" !in env ==> p.dataDir == fs.absolute("data")
  {
    var chosen := if dataDir.Some? && dataDir.value != "" then dataDir.value else GetEnv(env, "DATA_DIR", "data");
    Policy(fs.absolute(chosen))
  }

  /** No blocked pattern occurs anywhere in `s`. */
  predicate NoBlockedPattern(s: string)
  {
    forall k :: 0 <= k < |BlockedPatterns| ==> !Contains(s, BlockedPatterns[k])
  }

  /** The first of `patterns`, in list order, that occurs in `s` (the loop's early return). */
  function FirstMatch(s: string, patterns: seq<string>): (r: Option<string>)
    ensures r.None? <==> forall k :: 0 <= k < |patterns| ==> !Contains(s, patterns[k])
    ensures r.Some? ==> exists k :: (0 <= k < |patterns| && patterns[k] == r.value && Contains(s, r.value)
                                     && forall j :: 0 <= j < k ==> !Contains(s, patterns[j]))
  {
    if patterns == [] then None
    else if Contains(s, patterns[0]) then Some(patterns[0])
    else
      var r := FirstMatch(s, patterns[1..]);
      assert forall k :: 1 <= k < |patterns| ==> patterns[k] == patterns[1..][k - 1];
      if r.Some? then
        var k :| 0 <= k < |patterns[1..]| && patterns[1..][k] == r.value && Contains(s, r.value)
          && forall j :: 0 <= j < k ==> !Contains(s, patterns[1..][j]);
        assert patterns[k + 1] == r.value;
        r
      else r
  }

  function FirstBlocked(s: string): (r: Option<string>)
    ensures r.None? <==> NoBlockedPattern(s)
    ensures r.Some? ==> r.value in BlockedPatterns && Contains(s, r.value)
  {
    FirstMatch(s, BlockedPatterns)
  }

  /** Why `validate_workspace` answers as it does (the branch taken and the log line). */
  datatype WorkspaceVerdict =
    | WorkspaceAccepted(resolved: Path)
    | OutsideRoot
    | WorkspaceBlocked(pattern: string)

  /** `validate_workspace`, branch by branch. Only `ValueError` is caught: any other
      exception raised while resolving the workspace or the root is let through. */
  function CheckWorkspace(policy: Policy, fs: FileSystem, workspace: string): Result<WorkspaceVerdict>
  {
    match fs.resolve(workspace)
    case Failure(ValueError(_)) => Success(OutsideRoot)
    case Failure(e) => Failure(e)
    case Success(abs) =>
      match fs.resolve(PathString(policy.WorkspaceRoot()))
      case Failure(ValueError(_)) => Success(OutsideRoot)
      case Failure(e) => Failure(e)
      case Success(root) =>
        if !IsUnder(abs, root) then Success(OutsideRoot)
        else
          match FirstBlocked(PathString(abs))
          case Some(p) => Success(WorkspaceBlocked(p))
          case None => Success(WorkspaceAccepted(abs))
  }

  function ValidateWorkspace(policy: Policy, fs: FileSystem, workspace: string): Result<bool>
  {
    match CheckWorkspace(policy, fs, workspace)
    case Failure(e) => Failure(e)
    case Success(v) => Success(v.WorkspaceAccepted?)
  }

  /** A workspace is accepted exactly when it and the root resolve, the resolved workspace
      lies component-wise under the resolved root, and no blocked pattern occurs in its
      resolved path; a resolution error other than ValueError is raised, not answered. */
  lemma ValidateWorkspaceIff(policy: Policy, fs: FileSystem, workspace: string)
    ensures ValidateWorkspace(policy, fs, workspace) == Success(true) <==>
      && fs.resolve(workspace).Success?
      && fs.resolve(PathString(policy.WorkspaceRoot())).Success?
      && IsUnder(fs.resolve(workspace).value, fs.resolve(PathString(policy.WorkspaceRoot())).value)
      && NoBlockedPattern(PathString(fs.resolve(workspace).value))
    ensures ValidateWorkspace(policy, fs, workspace).Failure? <==>
      || (fs.resolve(workspace).Failure? && !fs.resolve(workspace).error.ValueError?)
      || (fs.resolve(workspace).Success?
          && fs.resolve(PathString(policy.WorkspaceRoot())).Failure?
          && !fs.resolve(PathString(policy.WorkspaceRoot())).error.ValueError?)
  {
    var root := PathString(policy.WorkspaceRoot());
    match fs.resolve(workspace)
    case Failure(e) =>
    case Success(abs) =>
      match fs.resolve(root)
      case Failure(e) =>
      case Success(r) =>
        if IsUnder(abs, r) {
          assert FirstBlocked(PathString(abs)).None? <==> NoBlockedPattern(PathString(abs));
        }
  }

  /** The root itself counts as under the root. */
  lemma RootIsUnderItself(root: Path)
    ensures IsUnder(root, root)
  {
  }

  /** Being under the root compares components: `/data/workspaces2` is not under
      `/data/workspaces` although the text of the one starts with the text of the other. */
  lemma SiblingWithCommonPrefixIsNotUnder()
    ensures PathString(Path(["data", "workspaces"])) <= PathString(Path(["data", "workspaces2"]))
    ensures !IsUnder(Path(["data", "workspaces2"]), Path(["data", "workspaces"]))
  {
    assert Path(["data", "workspaces"]).parts[1] != Path(["data", "workspaces2"]).parts[1];
  }

  /** A path under the root that has a blocked directory in it is rejected, whatever the
      root is: `<root>/bob/.ssh` and `<root>/charlie/.env` both fail. */
  lemma BlockedDirectoryUnderRootRejected(policy: Policy, fs: FileSystem, workspace: string, user: string, dir: string)
    requires dir in BlockedPatterns
    requires fs.resolve(PathString(policy.WorkspaceRoot())).Success?
    requires fs.resolve(workspace) == Success(fs.resolve(PathString(policy.WorkspaceRoot())).value.Child(user).Child(dir))
    ensures ValidateWorkspace(policy, fs, workspace) == Success(false)
  {
    var root := fs.resolve(PathString(policy.WorkspaceRoot())).value;
    var abs := root.Child(user).Child(dir);
    assert abs.parts == root.parts + [user, dir];
    JoinSnoc(root.parts + [user], dir, "/");
    assert PathString(abs) == "/" + Join(root.parts + [user], "/") + "/" + dir;
    ContainsMiddle("/" + Join(root.parts + [user], "/") + "/", dir, "");
    assert PathString(abs) == "/" + Join(root.parts + [user], "/") + "/" + dir + "";
    ValidateWorkspaceIff(policy, fs, workspace);
  }

  lemma {:induction false} JoinSnoc(parts: seq<string>, last: string, sep: string)
    requires parts != []
    ensures Join(parts + [last], sep) == Join(parts, sep) + sep + last
    decreases |parts|
  {
    if |parts| == 1 {
      assert (parts + [last])[1..] == [last];
    } else {
      assert (parts + [last])[1..] == parts[1..] + [last];
      JoinSnoc(parts[1..], last, sep);
    }
  }

  /** Why `validate_additional_mount` answers as it does, checked in this order. */
  datatype MountVerdict =
    | MountAccepted(resolved: Path)
    | MountBlocked(pattern: string)
    | MountMissing
    | MountUnreadable
    | MountError(error: Exception)

  /** `validate_additional_mount`, branch by branch: no workspace-root test, and every
      exception becomes a rejection. */
  function CheckMount(fs: FileSystem, mount: string): MountVerdict
  {
    match fs.resolve(mount)
    case Failure(e) => MountError(e)
    case Success(abs) =>
      match FirstBlocked(PathString(abs))
      case Some(p) => MountBlocked(p)
      case None =>
        if !fs.present(abs) then MountMissing
        else if !fs.readable(abs) then MountUnreadable
        else MountAccepted(abs)
  }

  predicate ValidateAdditionalMount(fs: FileSystem, mount: string)
  {
    CheckMount(fs, mount).MountAccepted?
  }

  /** A mount is accepted exactly when it resolves, has no blocked pattern, exists and is
      readable; the checks run blocked pattern first, then existence, then readability. */
  lemma ValidateAdditionalMountIff(fs: FileSystem, mount: string)
    ensures ValidateAdditionalMount(fs, mount) <==>
      && fs.resolve(mount).Success?
      && NoBlockedPattern(PathString(fs.resolve(mount).value))
      && fs.present(fs.resolve(mount).value)
      && fs.readable(fs.resolve(mount).value)
    ensures fs.resolve(mount).Success? && !NoBlockedPattern(PathString(fs.resolve(mount).value)) ==>
      CheckMount(fs, mount).MountBlocked?
    ensures (fs.resolve(mount).Success? && NoBlockedPattern(PathString(fs.resolve(mount).value))
             && !fs.present(fs.resolve(mount).value)) ==> CheckMount(fs, mount) == MountMissing
  {
    match fs.resolve(mount)
    case Failure(e) =>
    case Success(abs) =>
      assert FirstBlocked(PathString(abs)).None? <==> NoBlockedPattern(PathString(abs));
  }

  /** One validated extra mount, as `load_additional_mounts` records it: the host path made
      absolute, and `container` and `readonly` copied from the declaration as they are. */
  datatype Mount = Mount(host: string, container: Json, readonly: Json)

  /** What one declared entry does to the loop in `load_additional_mounts`. */
  datatype EntryOutcome = Keep(mount: Mount) | Skip | Raise

  /** One iteration of the loop: `mount["host"]` must be a string in an object (else the
      lookup raises), its `~` expansion must succeed (else it raises), a rejected host is
      skipped, and `mount["container"]` is only looked up for an accepted host. */
  function EntryResult(fs: FileSystem, entry: Json): (r: EntryOutcome)
  {
    match entry
    case JObject(fields) =>
      var host := Get(fields, "host");
      if !(host.Some? && host.value.JStr?) then Raise
      else if fs.expandUser(host.value.s).Failure? then Raise
      else
        var expanded := fs.expandUser(host.value.s).value;
        if !ValidateAdditionalMount(fs, expanded) then Skip
        else if Get(fields, "container").None? then Raise
        else Keep(Mount(PathString(fs.absolute(expanded)), Get(fields, "container").value,
                        Get(fields, "readonly").GetOr(JBool(true))))
    case _ => Raise
  }

  /** The whole loop: `None` when some entry raises (the caller then returns `[]`). */
  function ScanEntries(fs: FileSystem, entries: seq<Json>): (r: Option<seq<Mount>>)
    ensures r.Some? ==> |r.value| <= |entries|
  {
    if entries == [] then Some([])
    else
      match EntryResult(fs, entries[0])
      case Raise => None
      case Skip => ScanEntries(fs, entries[1..])
      case Keep(m) =>
        match ScanEntries(fs, entries[1..])
        case None => None
        case Some(ms) => Some([m] + ms)
  }

  /** `load_additional_mounts` as a value: `[]` without a readable, parseable `config.json`
      object, and `[]` when anything in it raises. */
  function MountsFromConfig(fs: FileSystem, files: map<string, File>, json: JsonLib): (r: seq<Mount>)
    ensures "config.json" !in files ==> r == []
  {
    if "config.json" !in files then []
    else
      match files["config.json"]
      case Unreadable => []
      case Text(text) =>
        match json.loads(text)
        case Some(JObject(config)) =>
          (match Get(config, "additional_mounts")
           case Some(JArray(entries)) => ScanEntries(fs, entries).GetOr([])
           case _ => [])
        case _ => []
  }

  /** The entries of `additional_mounts` when `config.json` is a readable JSON object that
      holds a list there. */
  function DeclaredEntries(files: map<string, File>, json: JsonLib): Option<seq<Json>>
  {
    if "config.json" in files && files["config.json"].Text? then
      match json.loads(files["config.json"].contents)
      case Some(JObject(config)) =>
        (match Get(config, "additional_mounts")
         case Some(JArray(entries)) => Some(entries)
         case _ => None)
      case _ => None
    else None
  }

  /** The loader reads the declared entries, when there are any, and nothing else. */
  lemma MountsFromDeclaredEntries(fs: FileSystem, files: map<string, File>, json: JsonLib)
    ensures MountsFromConfig(fs, files, json) ==
      if DeclaredEntries(files, json).None? then [] else ScanEntries(fs, DeclaredEntries(files, json).value).GetOr([])
  {
  }

  /** A mount is loaded exactly when `config.json` declares a list of entries, no entry
      raises, and some entry passes validation and yields that mount. */
  lemma LoadedMountsIff(fs: FileSystem, files: map<string, File>, json: JsonLib, m: Mount)
    ensures m in MountsFromConfig(fs, files, json) <==>
      && DeclaredEntries(files, json).Some?
      && (forall k :: 0 <= k < |DeclaredEntries(files, json).value| ==>
            !EntryResult(fs, DeclaredEntries(files, json).value[k]).Raise?)
      && exists k :: 0 <= k < |DeclaredEntries(files, json).value| &&
            EntryResult(fs, DeclaredEntries(files, json).value[k]) == Keep(m)
  {
    MountsFromDeclaredEntries(fs, files, json);
    var declared := DeclaredEntries(files, json);
    if declared.Some? {
      ScanFailsIffSomeEntryRaises(fs, declared.value);
      if ScanEntries(fs, declared.value).Some? {
        ScanKeepsAcceptedEntries(fs, declared.value, m);
      }
    }
  }

  /** `load_additional_mounts`: the loop that appends each accepted entry in turn. */
  method LoadAdditionalMounts(fs: FileSystem, files: map<string, File>, json: JsonLib)
    returns (mounts: seq<Mount>)
    ensures mounts == MountsFromConfig(fs, files, json)
  {
    MountsFromDeclaredEntries(fs, files, json);
    var declared := DeclaredEntries(files, json);
    if declared.None? {
      return [];
    }
    var entries := declared.value;
    var validated: seq<Mount> := [];
    var i := 0;
    assert entries[0..] == entries;
    while i < |entries|
      invariant 0 <= i <= |entries|
      invariant ScanEntries(fs, entries) == Prefixed(validated, ScanEntries(fs, entries[i..]))
    {
      assert entries[i..][0] == entries[i] && entries[i..][1..] == entries[i + 1..];
      var rest := ScanEntries(fs, entries[i + 1..]);
      match EntryResult(fs, entries[i]) {
        case Raise =>
          assert ScanEntries(fs, entries[i..]) == None;
          return [];
        case Skip =>
          assert ScanEntries(fs, entries[i..]) == rest;
        case Keep(m) =>
          assert ScanEntries(fs, entries[i..]) == Prefixed([m], rest);
          assert rest.Some? ==> validated + ([m] + rest.value) == (validated + [m]) + rest.value;
          validated := validated + [m];
      }
      i := i + 1;
    }
    assert entries[i..] == [];
    mounts := validated;
  }

  /** `prefix` followed by the mounts of a scan that did not raise. */
  function Prefixed(prefix: seq<Mount>, scan: Option<seq<Mount>>): (r: Option<seq<Mount>>)
    ensures prefix == [] ==> r == scan
  {
    assert scan.Some? ==> [] + scan.value == scan.value;
    match scan
    case None => None
    case Some(ms) => Some(prefix + ms)
  }

  /** Scanning two lists of entries one after the other is scanning them in turn: the
      accepted mounts keep the order of their declarations. */
  lemma {:induction false} ScanConcat(fs: FileSystem, a: seq<Json>, b: seq<Json>)
    ensures ScanEntries(fs, a + b) ==
      if ScanEntries(fs, a).Some? then Prefixed(ScanEntries(fs, a).value, ScanEntries(fs, b)) else None
    decreases |a|
  {
    if a == [] {
      assert a + b == b;
    } else {
      var ab := a + b;
      assert ab[0] == a[0];
      assert ab[1..] == a[1..] + b;
      ScanConcat(fs, a[1..], b);
      match EntryResult(fs, a[0]) {
        case Raise =>
          assert ScanEntries(fs, ab) == None;
        case Skip =>
          assert ScanEntries(fs, ab) == ScanEntries(fs, a[1..] + b);
        case Keep(m) =>
          assert ScanEntries(fs, ab) == Prefixed([m], ScanEntries(fs, a[1..] + b));
          if ScanEntries(fs, a[1..]).Some? && ScanEntries(fs, b).Some? {
            assert [m] + (ScanEntries(fs, a[1..]).value + ScanEntries(fs, b).value)
                == ([m] + ScanEntries(fs, a[1..]).value) + ScanEntries(fs, b).value;
          }
      }
    }
  }

  /** The scan fails exactly when some entry raises, so one malformed entry discards all. */
  lemma {:induction false} ScanFailsIffSomeEntryRaises(fs: FileSystem, entries: seq<Json>)
    ensures ScanEntries(fs, entries).None? <==> exists k :: 0 <= k < |entries| && EntryResult(fs, entries[k]).Raise?
    decreases |entries|
  {
    if entries != [] {
      ScanFailsIffSomeEntryRaises(fs, entries[1..]);
      assert forall k :: 1 <= k < |entries| ==> entries[k] == entries[1..][k - 1];
      if exists k :: 0 <= k < |entries[1..]| && EntryResult(fs, entries[1..][k]).Raise? {
        var k :| 0 <= k < |entries[1..]| && EntryResult(fs, entries[1..][k]).Raise?;
        assert EntryResult(fs, entries[k + 1]).Raise?;
      }
    }
  }

  /** The causes of an entry raising, in the order the loop body meets them: the entry is
      not an object or has no string `host`, `expanduser` raises on it, or the host is
      accepted but `container` is missing. */
  lemma EntryRaisesIff(fs: FileSystem, entry: Json)
    ensures EntryResult(fs, entry).Raise? <==>
      || !entry.JObject?
      || !(Get(entry.fields, "host").Some? && Get(entry.fields, "host").value.JStr?)
      || fs.expandUser(Get(entry.fields, "host").value.s).Failure?
      || (ValidateAdditionalMount(fs, fs.expandUser(Get(entry.fields, "host").value.s).value)
          && Get(entry.fields, "container").None?)
  {
  }

  /** A `~user` that cannot be expanded anywhere in the list empties the whole result, even
      when other entries would have been accepted. */
  lemma ExpansionFailureDiscardsAll(fs: FileSystem, files: map<string, File>, json: JsonLib, k: nat)
    requires DeclaredEntries(files, json).Some? && k < |DeclaredEntries(files, json).value|
    requires DeclaredEntries(files, json).value[k].JObject?
    requires Get(DeclaredEntries(files, json).value[k].fields, "host").Some?
    requires Get(DeclaredEntries(files, json).value[k].fields, "host").value.JStr?
    requires fs.expandUser(Get(DeclaredEntries(files, json).value[k].fields, "host").value.s).Failure?
    ensures MountsFromConfig(fs, files, json) == []
  {
    MountsFromDeclaredEntries(fs, files, json);
    ScanFailsIffSomeEntryRaises(fs, DeclaredEntries(files, json).value);
  }

  /** When nothing raises, a mount is in the result exactly when some declared entry is
      kept as that mount. */
  lemma {:induction false} ScanKeepsAcceptedEntries(fs: FileSystem, entries: seq<Json>, m: Mount)
    requires ScanEntries(fs, entries).Some?
    ensures m in ScanEntries(fs, entries).value <==> exists k :: 0 <= k < |entries| && EntryResult(fs, entries[k]) == Keep(m)
    decreases |entries|
  {
    if entries != [] {
      ScanKeepsAcceptedEntries(fs, entries[1..], m);
      assert forall k :: 1 <= k < |entries| ==> entries[k] == entries[1..][k - 1];
      if exists k :: 0 <= k < |entries[1..]| && EntryResult(fs, entries[1..][k]) == Keep(m) {
        var k :| 0 <= k < |entries[1..]| && EntryResult(fs, entries[1..][k]) == Keep(m);
        assert EntryResult(fs, entries[k + 1]) == Keep(m);
      }
    }
  }

  /** An accepted entry is recorded with its host made absolute after `~` expansion, its
      `container` verbatim, and `readonly` true unless the declaration says otherwise. */
  lemma KeptEntryFields(fs: FileSystem, fields: seq<(string, Json)>, m: Mount)
    requires EntryResult(fs, JObject(fields)) == Keep(m)
    ensures Get(fields, "host").Some? && Get(fields, "host").value.JStr?
    ensures fs.expandUser(Get(fields, "host").value.s).Success?
    ensures ValidateAdditionalMount(fs, fs.expandUser(Get(fields, "host").value.s).value)
    ensures m.host == PathString(fs.absolute(fs.expandUser(Get(fields, "host").value.s).value))
    ensures Get(fields, "container") == Some(m.container)
    ensures Get(fields, "readonly").None? ==> m.readonly == JBool(true)
    ensures Get(fields, "readonly").Some? ==> m.readonly == Get(fields, "readonly").value
  {
  }

  /** A single declaration of an existing, readable directory outside the workspace root and
      without blocked patterns yields one read-only mount at the declared container path. */
  lemma SingleDeclarationLoads(fs: FileSystem, files: map<string, File>, json: JsonLib,
                               text: string, host: string, expanded: string, container: string)
    requires files == map["config.json" := Text(text)]
    requires json.loads(text) == Some(JObject([("additional_mounts", JArray([
      JObject([("host", JStr(host)), ("container", JStr(container)), ("readonly", JBool(true))])]))]))
    requires fs.expandUser(host) == Success(expanded)
    requires ValidateAdditionalMount(fs, expanded)
    ensures MountsFromConfig(fs, files, json) ==
      [Mount(PathString(fs.absolute(expanded)), JStr(container), JBool(true))]
  {
    var entry := JObject([("host", JStr(host)), ("container", JStr(container)), ("readonly", JBool(true))]);
    var config := [("additional_mounts", JArray([entry]))];
    assert Get(config, "additional_mounts") == Some(JArray([entry]));
    var fields := [("host", JStr(host)), ("container", JStr(container)), ("readonly", JBool(true))];
    assert Get(fields, "host") == Some(JStr(host));
    assert Get(fields[2..], "readonly") == Some(JBool(true));
    assert fields[1..][1..] == fields[2..];
    assert Get(fields[1..], "container") == Some(JStr(container));
    assert Get(fields[1..], "readonly") == Some(JBool(true));
    assert Get(fields, "container") == Some(JStr(container));
    assert Get(fields, "readonly") == Some(JBool(true));
    var m := Mount(PathString(fs.absolute(expanded)), JStr(container), JBool(true));
    assert EntryResult(fs, entry) == Keep(m);
    assert [entry][1..] == [];
    assert ScanEntries(fs, []) == Some([]);
    assert [entry][0] == entry;
    assert [m] + [] == [m];
    assert ScanEntries(fs, [entry]) == Some([m]);
  }
}
