/** Resolving the conflict at one path of a tree with an external merge tool.
    The conflict is flattened to one hunk of at most one base and two sides,
    each side is written to a scratch file named after its role, the tool is
    run on those files, and whatever it leaves in the output file becomes the
    new value at the path: a resolved file, or a partially resolved conflict
    when the tool edits conflict markers. */
module ConflictResolution {
  import opened Common
  import opened Repo
  import opened ToolConfig
  import opened Interpolation

  /** A stored conflict: the values it removes and the values it adds. */
  datatype StoredConflict = StoredConflict(removes: seq<TreeValue>, adds: seq<TreeValue>)

  /** A conflict between ordinary files, flattened to a single hunk: the
      contents of its removed sides and of its added sides. */
  datatype ConflictHunk = ConflictHunk(removes: seq<Bytes>, adds: seq<Bytes>)

  datatype ConflictResolveError =
    | ExternalTool(cause: ExternalToolError)
    | PathNotFoundError(missing: RepoPath)
    | NotAConflictError(notConflicted: RepoPath)
    | NotNormalFilesError(unsupported: RepoPath, summary: string)
    | ConflictTooComplicatedError(path: RepoPath, removes: nat, adds: nat)
    | EmptyOrUnchanged
    | Backend(backendCause: BackendError)

  /** The store and the conflict library. Each field stands for one call whose
      workings are outside this model; only its result is used. */
  datatype ConflictStore = ConflictStore(
    readConflict: (RepoPath, ConflictId) -> Result<StoredConflict, BackendError>,
    extractSingleHunk: (RepoPath, StoredConflict) -> Option<ConflictHunk>,
    describeConflict: StoredConflict -> string,
    materialize: ConflictHunk -> Bytes,
    updateFromContent: (RepoPath, ConflictId, Bytes) -> Result<Option<ConflictId>, BackendError>,
    writeFile: (RepoPath, Bytes) -> Result<FileId, BackendError>,
    writeTree: map<RepoPath, TreeValue> -> TreeId)

  /** How a run of the merge tool ended: it could not be started, or it exited
      leaving the scratch files with the given contents. */
  datatype ToolRun = SpawnFailed(cause: IoError) | Exited(status: ExitStatus, files: map<Path, Bytes>)

  /** The machine the tool runs on: the fresh scratch directory (or why none
      could be made), and the tool's behaviour on a program name, its arguments
      and the scratch files. */
  datatype MergeHost = MergeHost(
    tempDir: Result<Path, IoError>,
    runTool: (string, seq<Arg>, map<Path, Bytes>) -> ToolRun)

  /** The tree written as the result: its id and its entries. */
  datatype WrittenTree = WrittenTree(id: TreeId, entries: map<RepoPath, TreeValue>)

  const BaseRole: string := "base"
  const LeftRole: string := "left"
  const RightRole: string := "right"
  const OutputRole: string := "output"

  /** The error reading the output file back gives when the tool removed it. */
  const OutputUnreadable: IoError := IoError("NotFound")

  /** What each role's scratch file initially holds. */
  datatype RoleContents = RoleContents(base: Bytes, left: Bytes, right: Bytes, output: Bytes)

  /** A conflict that passed every check before a tool is chosen. */
  datatype Prepared = Prepared(conflictId: ConflictId, hunk: ConflictHunk)

  /** The conflict id stored at `path`, if a conflict is stored there. */
  function LocateConflict(tree: Tree, path: RepoPath): (r: Result<ConflictId, ConflictResolveError>)
    ensures r.Ok? <==> path in tree.entries && tree.entries[path].Conflict?
    ensures r.Ok? ==> tree.entries[path] == Conflict(r.value)
    ensures path !in tree.entries ==> r == Err(PathNotFoundError(path))
    ensures path in tree.entries && !tree.entries[path].Conflict? ==> r == Err(NotAConflictError(path))
  {
    if path !in tree.entries then Err(PathNotFoundError(path))
    else
      match tree.entries[path]
      case Conflict(id) => Ok(id)
      case _ => Err(NotAConflictError(path))
  }

  /** The hunk shapes a merge tool can be given: at most one base and at most
      two sides. */
  predicate WellShaped(hunk: ConflictHunk) {
    |hunk.removes| <= 1 && |hunk.adds| <= 2
  }

  /** Locating, reading, flattening and shape-checking the conflict. */
  function PrepareConflict(tree: Tree, path: RepoPath, store: ConflictStore): (r: Result<Prepared, ConflictResolveError>)
    ensures r.Ok? ==>
              && path in tree.entries
              && tree.entries[path] == Conflict(r.value.conflictId)
              && store.readConflict(path, r.value.conflictId).Ok?
              && store.extractSingleHunk(path, store.readConflict(path, r.value.conflictId).value) == Some(r.value.hunk)
              && WellShaped(r.value.hunk)
    ensures LocateConflict(tree, path).Err? ==> r == Err(LocateConflict(tree, path).error)
    ensures LocateConflict(tree, path).Ok? ==>
              var id := LocateConflict(tree, path).value;
              var read := store.readConflict(path, id);
              && (read.Err? ==> r == Err(Backend(read.error)))
              && (read.Ok? && store.extractSingleHunk(path, read.value).None? ==>
                    r == Err(NotNormalFilesError(path, store.describeConflict(read.value))))
              && (read.Ok? && store.extractSingleHunk(path, read.value).Some? ==>
                    var hunk := store.extractSingleHunk(path, read.value).value;
                    && (WellShaped(hunk) ==> r == Ok(Prepared(id, hunk)))
                    && (!WellShaped(hunk) ==> r == Err(ConflictTooComplicatedError(path, |hunk.removes|, |hunk.adds|))))
  {
    match LocateConflict(tree, path)
    case Err(e) => Err(e)
    case Ok(conflictId) =>
      match store.readConflict(path, conflictId)
      case Err(e) => Err(Backend(e))
      case Ok(conflict) =>
        match store.extractSingleHunk(path, conflict)
        case None => Err(NotNormalFilesError(path, store.describeConflict(conflict)))
        case Some(hunk) =>
          if !WellShaped(hunk) then
            Err(ConflictTooComplicatedError(path, |hunk.removes|, |hunk.adds|))
          else
            Ok(Prepared(conflictId, hunk))
  }

  /** What the output file starts with: the conflict with its markers when the
      tool edits markers, nothing otherwise. */
  function InitialOutput(tool: MergeTool, store: ConflictStore, hunk: ConflictHunk): (seed: Bytes)
    ensures !tool.editsConflictMarkers ==> seed == []
    ensures tool.editsConflictMarkers ==> seed == store.materialize(hunk)
  {
    if tool.editsConflictMarkers then store.materialize(hunk) else []
  }

  /** The role of each side of a well-shaped hunk: the base is the removed side
      if there is one; with two added sides the first is `left` and the second
      `right`; a single added side is `right`. Missing sides are empty. */
  function AssignRoles(hunk: ConflictHunk, seed: Bytes): (roles: RoleContents)
    requires WellShaped(hunk)
    ensures roles.base == (if hunk.removes == [] then [] else hunk.removes[|hunk.removes| - 1])
    ensures roles.right == (if hunk.adds == [] then [] else hunk.adds[|hunk.adds| - 1])
    ensures roles.left == (if |hunk.adds| < 2 then [] else hunk.adds[|hunk.adds| - 2])
    ensures roles.output == seed
  {
    RoleContents(
      base := if |hunk.removes| == 1 then hunk.removes[0] else [],
      left := if |hunk.adds| == 2 then hunk.adds[0] else [],
      right := if |hunk.adds| == 2 then hunk.adds[1] else if |hunk.adds| == 1 then hunk.adds[0] else [],
      output := seed)
  }

  /** The suffix of every scratch file name: `_` and the conflicted file's
      name, or nothing for the root path. */
  function FileNameSuffix(path: RepoPath): (suffix: string)
    ensures suffix == "" <==> path == []
  {
    if path == [] then "" else "_" + path[|path| - 1]
  }

  /** The scratch file of `role`. */
  function RoleFile(dir: Path, role: string, suffix: string): Path {
    JoinPath(dir, role + suffix)
  }

  /** The table the argument template is interpolated with. */
  function RolePaths(dir: Path, suffix: string): map<string, Path> {
    map[BaseRole := RoleFile(dir, BaseRole, suffix),
        RightRole := RoleFile(dir, RightRole, suffix),
        LeftRole := RoleFile(dir, LeftRole, suffix),
        OutputRole := RoleFile(dir, OutputRole, suffix)]
  }

  /** The scratch files the tool is started on. */
  function Workspace(dir: Path, suffix: string, roles: RoleContents): map<Path, Bytes> {
    map[RoleFile(dir, BaseRole, suffix) := roles.base,
        RoleFile(dir, RightRole, suffix) := roles.right,
        RoleFile(dir, LeftRole, suffix) := roles.left,
        RoleFile(dir, OutputRole, suffix) := roles.output]
  }

  lemma RoleFileInitial(dir: Path, role: string, suffix: string)
    requires role != ""
    ensures |RoleFile(dir, role, suffix)| > |dir| + 1
    ensures RoleFile(dir, role, suffix)[|dir| + 1] == role[0]
  {
    assert RoleFile(dir, role, suffix) == dir + "/" + (role + suffix);
  }

  /** The four scratch files are distinct (their names start with distinct
      letters), so each holds its own role's contents. */
  lemma WorkspaceLayout(dir: Path, suffix: string, roles: RoleContents)
    ensures var files := Workspace(dir, suffix, roles);
            var paths := RolePaths(dir, suffix);
            && files.Keys == paths.Values
            && |files| == 4
            && files[paths[BaseRole]] == roles.base
            && files[paths[LeftRole]] == roles.left
            && files[paths[RightRole]] == roles.right
            && files[paths[OutputRole]] == roles.output
  {
    var b := RoleFile(dir, BaseRole, suffix);
    var r := RoleFile(dir, RightRole, suffix);
    var l := RoleFile(dir, LeftRole, suffix);
    var o := RoleFile(dir, OutputRole, suffix);
    RoleFileInitial(dir, BaseRole, suffix);
    RoleFileInitial(dir, RightRole, suffix);
    RoleFileInitial(dir, LeftRole, suffix);
    RoleFileInitial(dir, OutputRole, suffix);
    assert b != r && b != l && b != o && r != l && r != o && l != o;
    var files := Workspace(dir, suffix, roles);
    assert files.Keys == {b, r, l, o};
    var paths := RolePaths(dir, suffix);
    assert paths.Keys == {BaseRole, RightRole, LeftRole, OutputRole};
    assert paths[BaseRole] == b && paths[RightRole] == r && paths[LeftRole] == l && paths[OutputRole] == o;
    assert paths.Values == {b, r, l, o};
  }

  /** The tool's output is accepted only when it is not empty and differs from
      what the output file started with. */
  predicate OutputAccepted(output: Bytes, seed: Bytes) {
    output != [] && output != seed
  }

  /** The scratch file the tool's result is read back from. */
  function OutputFile(dir: Path, path: RepoPath): Path {
    RolePaths(dir, FileNameSuffix(path))[OutputRole]
  }

  /** The tool started in scratch directory `dir`: its merge template
      interpolated with the role files, which hold the hunk's sides. */
  function LaunchTool(tool: MergeTool, path: RepoPath, hunk: ConflictHunk, store: ConflictStore, host: MergeHost, dir: Path): ToolRun
    requires WellShaped(hunk)
  {
    var suffix := FileNameSuffix(path);
    host.runTool(tool.program, Interpolate(tool.mergeArgs, RolePaths(dir, suffix)),
                 Workspace(dir, suffix, AssignRoles(hunk, InitialOutput(tool, store, hunk))))
  }

  /** The tool's output is accepted only when it is not empty and, when the
      output file was seeded with the conflict's markers, differs from them. */
  lemma OutputAcceptance(tool: MergeTool, store: ConflictStore, hunk: ConflictHunk, output: Bytes)
    ensures OutputAccepted(output, InitialOutput(tool, store, hunk)) <==>
              output != [] && (tool.editsConflictMarkers ==> output != store.materialize(hunk))
  {
  }

  /** Preparing the scratch files, running the tool and reading back the
      output it accepted. */
  function RunTool(tool: MergeTool, path: RepoPath, hunk: ConflictHunk, store: ConflictStore, host: MergeHost): (r: Result<Bytes, ConflictResolveError>)
    requires WellShaped(hunk)
    ensures r.Ok? ==> OutputAccepted(r.value, InitialOutput(tool, store, hunk))
    ensures r.Err? && r.error.ExternalTool? && r.error.cause.FailedToExecute? ==> r.error.cause.toolBinary == tool.program
    ensures host.tempDir.Err? ==> r == Err(ExternalTool(SetUpDirError(host.tempDir.error)))
    ensures host.tempDir.Ok? ==>
              var run := LaunchTool(tool, path, hunk, store, host, host.tempDir.value);
              && (run.SpawnFailed? ==> r == Err(ExternalTool(FailedToExecute(tool.program, run.cause))))
              && (run.Exited? && !run.status.Success() ==> r == Err(ExternalTool(ToolAborted(run.status))))
              && (run.Exited? && run.status.Success() && OutputFile(host.tempDir.value, path) !in run.files ==>
                    r == Err(ExternalTool(IoFailure(OutputUnreadable))))
    ensures r.Ok? ==>
              && host.tempDir.Ok?
              && var run := LaunchTool(tool, path, hunk, store, host, host.tempDir.value);
                 && run.Exited? && run.status.Success()
                 && OutputFile(host.tempDir.value, path) in run.files
                 && r.value == run.files[OutputFile(host.tempDir.value, path)]
    ensures host.tempDir.Ok? ==>
              var run := LaunchTool(tool, path, hunk, store, host, host.tempDir.value);
              var out := OutputFile(host.tempDir.value, path);
              run.Exited? && run.status.Success() && out in run.files ==>
                && (OutputAccepted(run.files[out], InitialOutput(tool, store, hunk)) ==> r == Ok(run.files[out]))
                && (!OutputAccepted(run.files[out], InitialOutput(tool, store, hunk)) ==> r == Err(EmptyOrUnchanged))
  {
    var seed := InitialOutput(tool, store, hunk);
    match host.tempDir
    case Err(e) => Err(ExternalTool(SetUpDirError(e)))
    case Ok(dir) =>
      var out := OutputFile(dir, path);
      match LaunchTool(tool, path, hunk, store, host, dir)
      case SpawnFailed(e) => Err(ExternalTool(FailedToExecute(tool.program, e)))
      case Exited(status, files) =>
        if !status.Success() then Err(ExternalTool(ToolAborted(status)))
        else if out !in files then Err(ExternalTool(IoFailure(OutputUnreadable)))
        else
          var output := files[out];
          if !OutputAccepted(output, seed) then Err(EmptyOrUnchanged) else Ok(output)
  }

  /** The value stored at the path: a partially resolved conflict when the tool
      edits markers and the output still holds some, otherwise the output as a
      non-executable file. The output is written to the store as a file in
      both cases, so a failure of that write fails a partial resolution too. */
  function NewTreeValue(tool: MergeTool, path: RepoPath, conflictId: ConflictId, output: Bytes, store: ConflictStore): (r: Result<TreeValue, ConflictResolveError>)
    ensures r.Ok? ==> store.writeFile(path, output).Ok?
    ensures r.Ok? && r.value.Conflict? <==>
              && tool.editsConflictMarkers
              && store.updateFromContent(path, conflictId, output).Ok?
              && store.updateFromContent(path, conflictId, output).value.Some?
              && store.writeFile(path, output).Ok?
    ensures r.Ok? && r.value.Conflict? ==> r.value.conflictId == store.updateFromContent(path, conflictId, output).value.value
    ensures r.Ok? && !r.value.Conflict? ==> r.value == File(store.writeFile(path, output).value, false)
    ensures r.Err? <==>
              || (tool.editsConflictMarkers && store.updateFromContent(path, conflictId, output).Err?)
              || store.writeFile(path, output).Err?
    ensures tool.editsConflictMarkers && store.updateFromContent(path, conflictId, output).Err? ==>
              r == Err(Backend(store.updateFromContent(path, conflictId, output).error))
    ensures (!tool.editsConflictMarkers || store.updateFromContent(path, conflictId, output).Ok?)
              && store.writeFile(path, output).Err? ==>
              r == Err(Backend(store.writeFile(path, output).error))
  {
    var updated := if tool.editsConflictMarkers then store.updateFromContent(path, conflictId, output) else Ok(None);
    match updated
    case Err(e) => Err(Backend(e))
    case Ok(newConflict) =>
      match store.writeFile(path, output)
      case Err(e) => Err(Backend(e))
      case Ok(fileId) =>
        Ok(if newConflict.Some? then Conflict(newConflict.value) else File(fileId, false))
  }

  /** The whole resolution, and the hint shown while choosing the tool. */
  function ResolveConflict(tree: Tree, path: RepoPath, settings: Settings, store: ConflictStore, host: MergeHost): (r: (Result<WrittenTree, ConflictResolveError>, Option<Notice>))
    ensures r.0.Ok? ==>
              && path in tree.entries && tree.entries[path].Conflict?
              && path in r.0.value.entries
              && r.0.value.entries == tree.entries[path := r.0.value.entries[path]]
              && r.0.value.id == store.writeTree(r.0.value.entries)
              && (r.0.value.entries[path].Conflict? || r.0.value.entries[path].File?)
              && (r.0.value.entries[path].File? ==> !r.0.value.entries[path].executable)
    ensures PrepareConflict(tree, path, store).Err? ==> r == (Err(PrepareConflict(tree, path, store).error), None)
    ensures PrepareConflict(tree, path, store).Ok? ==> r.1 == GetMergeTool(settings).1
    ensures PrepareConflict(tree, path, store).Ok? && GetMergeTool(settings).0.Err? ==>
              r.0 == Err(ExternalTool(GetMergeTool(settings).0.error))
    ensures r.0.Ok? ==>
              var prepared := PrepareConflict(tree, path, store).value;
              var tool := GetMergeTool(settings).0.value;
              var output := RunTool(tool, path, prepared.hunk, store, host);
              && output.Ok?
              && NewTreeValue(tool, path, prepared.conflictId, output.value, store) == Ok(r.0.value.entries[path])
    ensures PrepareConflict(tree, path, store).Ok? && GetMergeTool(settings).0.Ok? ==>
              var prepared := PrepareConflict(tree, path, store).value;
              var tool := GetMergeTool(settings).0.value;
              var output := RunTool(tool, path, prepared.hunk, store, host);
              && (output.Err? ==> r.0 == Err(output.error))
              && (output.Ok? && NewTreeValue(tool, path, prepared.conflictId, output.value, store).Err? ==>
                    r.0 == Err(NewTreeValue(tool, path, prepared.conflictId, output.value, store).error))
              && (output.Ok? && NewTreeValue(tool, path, prepared.conflictId, output.value, store).Ok? ==> r.0.Ok?)
  {
    match PrepareConflict(tree, path, store)
    case Err(e) => (Err(e), None)
    case Ok(prepared) =>
      var (toolChoice, notice) := GetMergeTool(settings);
      match toolChoice
      case Err(e) => (Err(ExternalTool(e)), notice)
      case Ok(tool) =>
        match RunTool(tool, path, prepared.hunk, store, host)
        case Err(e) => (Err(e), notice)
        case Ok(output) =>
          match NewTreeValue(tool, path, prepared.conflictId, output, store)
          case Err(e) => (Err(e), notice)
          case Ok(value) =>
            var entries := tree.entries[path := value];
            (Ok(WrittenTree(store.writeTree(entries), entries)), notice)
  }

  /** `run_mergetool`: the same resolution, step by step, with the roles taken
      by popping the base from the removed sides and then `right` and `left`
      from the added sides. */
  method RunMergetool(tree: Tree, path: RepoPath, settings: Settings, store: ConflictStore, host: MergeHost)
    returns (r: Result<WrittenTree, ConflictResolveError>, notice: Option<Notice>)
    ensures (r, notice) == ResolveConflict(tree, path, settings, store, host)
  {
    if path !in tree.entries {
      return Err(PathNotFoundError(path)), None;
    }
    var conflictId: ConflictId;
    match tree.entries[path] {
      case Conflict(id) => conflictId := id;
      case _ => return Err(NotAConflictError(path)), None;
    }
    var conflict := store.readConflict(path, conflictId);
    if conflict.Err? {
      return Err(Backend(conflict.error)), None;
    }
    var single := store.extractSingleHunk(path, conflict.value);
    if single.None? {
      return Err(NotNormalFilesError(path, store.describeConflict(conflict.value))), None;
    }
    var content := single.value;
    if !WellShaped(content) {
      return Err(ConflictTooComplicatedError(path, |content.removes|, |content.adds|)), None;
    }

    var editor := GetMergeTool(settings);
    notice := editor.1;
    if editor.0.Err? {
      return Err(ExternalTool(editor.0.error)), notice;
    }
    var tool := editor.0.value;
    var initialOutputContent: Bytes := if tool.editsConflictMarkers then store.materialize(content) else [];

    var removes, adds := content.removes, content.adds;
    var popped: Option<Bytes>;
    popped, removes := Pop(removes);
    var base := popped.GetOr([]);
    popped, adds := Pop(adds);
    var right := popped.GetOr([]);
    if |content.adds| == 2 {
      assert right == content.adds[1] by { assert content.adds == adds + [right]; }
    }
    popped, adds := Pop(adds);
    var left := popped.GetOr([]);
    var roles := RoleContents(base, left, right, initialOutputContent);
    assert roles == AssignRoles(content, initialOutputContent);

    if host.tempDir.Err? {
      return Err(ExternalTool(SetUpDirError(host.tempDir.error))), notice;
    }
    var dir := host.tempDir.value;
    var suffix := FileNameSuffix(path);
    var paths := RolePaths(dir, suffix);
    var args := Interpolate(tool.mergeArgs, paths);
    var run := host.runTool(tool.program, args, Workspace(dir, suffix, roles));
    if run.SpawnFailed? {
      return Err(ExternalTool(FailedToExecute(tool.program, run.cause))), notice;
    }
    if !run.status.Success() {
      return Err(ExternalTool(ToolAborted(run.status))), notice;
    }
    if paths[OutputRole] !in run.files {
      return Err(ExternalTool(IoFailure(OutputUnreadable))), notice;
    }
    var outputFileContents := run.files[paths[OutputRole]];
    if outputFileContents == [] || outputFileContents == initialOutputContent {
      return Err(EmptyOrUnchanged), notice;
    }

    var newTreeValue: Option<TreeValue> := None;
    if tool.editsConflictMarkers {
      var updated := store.updateFromContent(path, conflictId, outputFileContents);
      if updated.Err? {
        return Err(Backend(updated.error)), notice;
      }
      if updated.value.Some? {
        newTreeValue := Some(Conflict(updated.value.value));
      }
    }
    // The fallback file is written before the choice is made, whichever way
    // the choice goes.
    var newFileId := store.writeFile(path, outputFileContents);
    if newFileId.Err? {
      return Err(Backend(newFileId.error)), notice;
    }
    var value := newTreeValue.GetOr(File(newFileId.value, false));
    var entries := tree.entries[path := value];
    r := Ok(WrittenTree(store.writeTree(entries), entries));
  }

  /** A path with no value, or with a value that is not a conflict, is reported
      before anything else happens. */
  lemma LookupFailuresComeFirst(tree: Tree, path: RepoPath, settings: Settings, store: ConflictStore, host: MergeHost)
    ensures path !in tree.entries ==>
              ResolveConflict(tree, path, settings, store, host) == (Err(PathNotFoundError(path)), None)
    ensures path in tree.entries && !tree.entries[path].Conflict? ==>
              ResolveConflict(tree, path, settings, store, host) == (Err(NotAConflictError(path)), None)
  {
  }

  /** A flattened conflict is rejected as too complicated exactly when it has
      more than one base or more than two sides; the error carries the path and
      the exact counts, and comes before any tool is chosen (no hint is shown,
      whatever the settings and the host). */
  lemma TooComplicatedIsCheckedFirst(tree: Tree, path: RepoPath, settings: Settings, store: ConflictStore, host: MergeHost,
                                     id: ConflictId, conflict: StoredConflict, hunk: ConflictHunk)
    requires path in tree.entries && tree.entries[path] == Conflict(id)
    requires store.readConflict(path, id) == Ok(conflict)
    requires store.extractSingleHunk(path, conflict) == Some(hunk)
    ensures var r := ResolveConflict(tree, path, settings, store, host);
            r.0.Err? && r.0.error.ConflictTooComplicatedError? <==> !WellShaped(hunk)
    ensures !WellShaped(hunk) ==>
              ResolveConflict(tree, path, settings, store, host) ==
                (Err(ConflictTooComplicatedError(path, |hunk.removes|, |hunk.adds|)), None)
  {
    var r := ResolveConflict(tree, path, settings, store, host);
    if WellShaped(hunk) {
      assert PrepareConflict(tree, path, store) == Ok(Prepared(id, hunk));
      var tool := GetMergeTool(settings).0;
      if tool.Ok? {
        var run := RunTool(tool.value, path, hunk, store, host);
        if run.Ok? {
          var v := NewTreeValue(tool.value, path, id, run.value, store);
          assert v.Err? ==> v.error.Backend?;
        }
      }
    }
  }

  /** A tool that exits successfully without touching its files is rejected as
      having left the output empty or unchanged, whether or not the output file
      started with the conflict markers. */
  lemma UntouchedOutputRejected(tool: MergeTool, path: RepoPath, hunk: ConflictHunk, store: ConflictStore, dir: Path)
    requires WellShaped(hunk)
    ensures RunTool(tool, path, hunk, store, MergeHost(Ok(dir), (program, args, files) => Exited(ExitStatus(Some(0)), files)))
              == Err(EmptyOrUnchanged)
  {
    var seed := InitialOutput(tool, store, hunk);
    WorkspaceLayout(dir, FileNameSuffix(path), AssignRoles(hunk, seed));
  }

  /** A tool that cannot be started, that exits unsuccessfully, or that
      removes the output file produces no tree: the error names the program,
      carries the exit status, or reports the unreadable output, and the hint
      is still shown. */
  lemma ToolFailuresProduceNoTree(tree: Tree, path: RepoPath, settings: Settings, store: ConflictStore, host: MergeHost,
                                  prepared: Prepared, tool: MergeTool, dir: Path)
    requires PrepareConflict(tree, path, store) == Ok(prepared)
    requires GetMergeTool(settings).0 == Ok(tool)
    requires host.tempDir == Ok(dir)
    ensures var run := LaunchTool(tool, path, prepared.hunk, store, host, dir);
            var r := ResolveConflict(tree, path, settings, store, host);
            && r.1 == GetMergeTool(settings).1
            && (run.SpawnFailed? ==> r.0 == Err(ExternalTool(FailedToExecute(tool.program, run.cause))))
            && (run.Exited? && !run.status.Success() ==> r.0 == Err(ExternalTool(ToolAborted(run.status))))
            && (run.Exited? && run.status.Success() && OutputFile(dir, path) !in run.files ==>
                  r.0 == Err(ExternalTool(IoFailure(OutputUnreadable))))
  {
  }

  /** A successful partial resolution still depends on writing the output as
      a file: when that write fails, the resolution fails with the store's
      error even though the updated conflict was obtained. */
  lemma PartialResolutionNeedsFileWrite(tool: MergeTool, path: RepoPath, conflictId: ConflictId, output: Bytes,
                                        store: ConflictStore, newConflict: ConflictId, e: BackendError)
    requires tool.editsConflictMarkers
    requires store.updateFromContent(path, conflictId, output) == Ok(Some(newConflict))
    requires store.writeFile(path, output) == Err(e)
    ensures NewTreeValue(tool, path, conflictId, output, store) == Err(Backend(e))
  {
  }

  /** For every conflict, tool and run: when the tool exits successfully
      leaving accepted output in the output file, and the store takes that
      output, the new tree holds at the path the reparsed conflict (for a tool
      that edits markers, when some remain) or the output as a non-executable
      file, and nothing else changes. */
  lemma ResolvedValueIsToolOutput(tree: Tree, path: RepoPath, settings: Settings, store: ConflictStore, host: MergeHost,
                                  prepared: Prepared, tool: MergeTool, dir: Path, status: ExitStatus,
                                  files: map<Path, Bytes>, fileId: FileId, reparsed: Option<ConflictId>)
    requires PrepareConflict(tree, path, store) == Ok(prepared)
    requires GetMergeTool(settings).0 == Ok(tool)
    requires host.tempDir == Ok(dir)
    requires LaunchTool(tool, path, prepared.hunk, store, host, dir) == Exited(status, files) && status.Success()
    requires OutputFile(dir, path) in files
    requires OutputAccepted(files[OutputFile(dir, path)], InitialOutput(tool, store, prepared.hunk))
    requires tool.editsConflictMarkers ==>
               store.updateFromContent(path, prepared.conflictId, files[OutputFile(dir, path)]) == Ok(reparsed)
    requires store.writeFile(path, files[OutputFile(dir, path)]) == Ok(fileId)
    ensures var value := if tool.editsConflictMarkers && reparsed.Some? then Conflict(reparsed.value) else File(fileId, false);
            var entries := tree.entries[path := value];
            ResolveConflict(tree, path, settings, store, host) ==
              (Ok(WrittenTree(store.writeTree(entries), entries)), GetMergeTool(settings).1)
  {
    var output := files[OutputFile(dir, path)];
    assert RunTool(tool, path, prepared.hunk, store, host) == Ok(output);
  }

  /** The merge tool used in `CopyLeftScenario`: it copies the file passed
      first to the file passed second, appending `extra`. */
  function CopyFirstToSecond(extra: byte): (string, seq<Arg>, map<Path, Bytes>) -> ToolRun {
    (program: string, args: seq<Arg>, files: map<Path, Bytes>) =>
      if |args| == 2 && args[0].PathArg? && args[1].PathArg? && args[0].path in files then
        Exited(ExitStatus(Some(0)), files[args[1].path := files[args[0].path] + [extra]])
      else
        Exited(ExitStatus(Some(1)), files)
  }

  /** A conflict with one base and two sides `sideA`, `sideB`, resolved by a
      tool configured as `$left $output` that copies its first file to its
      second with one byte appended, gives a tree whose value at the path is
      the first side plus that byte, as a non-executable file. */
  lemma CopyLeftScenario(tree: Tree, path: RepoPath, store: ConflictStore, dir: Path, extra: byte,
                         id: ConflictId, conflict: StoredConflict, base: Bytes, sideA: Bytes, sideB: Bytes,
                         name: string, fileId: FileId)
    requires path in tree.entries && tree.entries[path] == Conflict(id)
    requires store.readConflict(path, id) == Ok(conflict)
    requires store.extractSingleHunk(path, conflict) == Some(ConflictHunk([base], [sideA, sideB]))
    requires store.writeFile(path, sideA + [extra]) == Ok(fileId)
    ensures var settings := Settings(map[MergeEditorKey := Text(name)],
                                     Ok(map[name := Parsed(MergeTool("", [], ["$left", "$output"], false))]));
            var entries := tree.entries[path := File(fileId, false)];
            ResolveConflict(tree, path, settings, store, MergeHost(Ok(dir), CopyFirstToSecond(extra)))
              == (Ok(WrittenTree(store.writeTree(entries), entries)), None)
  {
    var settings := Settings(map[MergeEditorKey := Text(name)],
                             Ok(map[name := Parsed(MergeTool("", [], ["$left", "$output"], false))]));
    var tool := MergeTool(name, [], ["$left", "$output"], false);
    assert GetMergeTool(settings) == (Ok(tool), None);
    var hunk := ConflictHunk([base], [sideA, sideB]);
    assert PrepareConflict(tree, path, store) == Ok(Prepared(id, hunk));
    var suffix := FileNameSuffix(path);
    var paths := RolePaths(dir, suffix);
    var roles := AssignRoles(hunk, []);
    assert roles.left == sideA;
    WorkspaceLayout(dir, suffix, roles);
    var args := Interpolate(tool.mergeArgs, paths);
    assert "$left" == Sigil(LeftRole) && "$output" == Sigil(OutputRole);
    assert args == [PathArg(paths[LeftRole]), PathArg(paths[OutputRole])];
    var files := Workspace(dir, suffix, roles);
    assert files[paths[LeftRole]] == sideA;
    var after := files[paths[OutputRole] := sideA + [extra]];
    assert MergeHost(Ok(dir), CopyFirstToSecond(extra)).runTool(tool.program, args, files)
             == Exited(ExitStatus(Some(0)), after);
    assert after[paths[OutputRole]] == sideA + [extra];
    assert RunTool(tool, path, hunk, store, MergeHost(Ok(dir), CopyFirstToSecond(extra))) == Ok(sideA + [extra]);
  }
}
