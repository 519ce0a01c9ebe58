/** Editing the difference between two trees with an external diff editor.
    Both trees are checked out, restricted to the paths that differ, into
    sibling scratch directories; the editor is started on the two directories,
    may change the right one, and the right directory is then snapshotted back
    into a tree. */
module DiffEdit {
  import opened Common
  import opened Repo
  import opened ToolConfig
  import opened Interpolation

  /** The files of a checked-out directory, by path relative to it. */
  type Dir = map<RepoPath, Bytes>

  datatype CheckoutError = CheckoutError(message: string)
  datatype SnapshotError = SnapshotError(message: string)

  datatype DiffEditError =
    | ExternalTool(cause: ExternalToolError)
    | Checkout(checkoutCause: CheckoutError)
    | Snapshot(snapshotCause: SnapshotError)

  /** How a run of the diff editor ended: it could not be started, or it exited
      leaving the right directory with the given files. What it does to the
      left directory is not recorded, because only the right one is
      snapshotted. */
  datatype DiffToolRun = SpawnFailed(cause: IoError) | Exited(status: ExitStatus, right: Dir)

  /** The store, the working-copy engine and the machine the editor runs on.
      Each field stands for one call whose workings are outside this model. */
  datatype DiffHost = DiffHost(
    changedPaths: (Tree, Tree) -> seq<RepoPath>,
    tempDir: Result<Path, IoError>,
    checkOut: (Tree, seq<RepoPath>) -> Result<Dir, CheckoutError>,
    runTool: (string, seq<Arg>, Dir, Dir) -> DiffToolRun,
    snapshot: Dir -> Result<TreeId, SnapshotError>)

  /** Where the instructions for the user are put in the right directory. */
  const InstructionsFile: RepoPath := ["JJ-INSTRUCTIONS"]

  /** The editor's command line: its configured edit arguments, unchanged,
      followed by the left and the right directory. */
  function DiffEditorArgs(editArgs: seq<string>, leftDir: Path, rightDir: Path): (r: seq<Arg>)
    ensures |r| == |editArgs| + 2
    ensures forall i :: 0 <= i < |editArgs| ==> r[i] == Literal(editArgs[i])
    ensures r[|editArgs|] == PathArg(leftDir) && r[|editArgs| + 1] == PathArg(rightDir)
  {
    Literals(editArgs) + [PathArg(leftDir), PathArg(rightDir)]
  }

  /** Something exists at the instructions' name in the right directory: a
      file of that name, or a directory of that name holding some file. */
  predicate InstructionsPathExists(right: Dir) {
    exists p :: p in right && |p| > 0 && p[0] == InstructionsFile[0]
  }

  /** Instructions are added only when there are some and nothing of that
      name exists yet in the right directory. */
  predicate AddsInstructions(instructions: Bytes, right: Dir): (add: bool)
    ensures add ==> instructions != [] && InstructionsFile !in right
  {
    instructions != [] && !InstructionsPathExists(right)
  }

  /** Everything up to the snapshot: the right directory as the editor left it
      (without the instructions this step added), and the hint shown while
      choosing the editor. */
  function EditedRightDir(left: Tree, right: Tree, instructions: Bytes, settings: Settings, host: DiffHost): (r: (Result<Dir, DiffEditError>, Option<Notice>))
    ensures host.tempDir.Err? ==> r == (Err(ExternalTool(SetUpDirError(host.tempDir.error))), None)
    ensures host.tempDir.Ok? ==>
              var changed := host.changedPaths(left, right);
              && (host.checkOut(left, changed).Err? ==> r == (Err(Checkout(host.checkOut(left, changed).error)), None))
              && (host.checkOut(left, changed).Ok? && host.checkOut(right, changed).Err? ==>
                    r == (Err(Checkout(host.checkOut(right, changed).error)), None))
              && (host.checkOut(left, changed).Ok? && host.checkOut(right, changed).Ok? ==>
                    && r.1 == GetDiffEditor(settings).1
                    && (GetDiffEditor(settings).0.Err? ==> r.0 == Err(ExternalTool(GetDiffEditor(settings).0.error))))
    ensures r.0.Ok? ==>
              && host.tempDir.Ok?
              && var changed := host.changedPaths(left, right);
                 var tmp := host.tempDir.value;
                 && host.checkOut(left, changed).Ok?
                 && host.checkOut(right, changed).Ok?
                 && GetDiffEditor(settings).0.Ok?
                 && var tool := GetDiffEditor(settings).0.value;
                    var rightFiles := host.checkOut(right, changed).value;
                    var add := AddsInstructions(instructions, rightFiles);
                    var shown := if add then rightFiles[InstructionsFile := instructions] else rightFiles;
                    var run := host.runTool(tool.program, DiffEditorArgs(tool.editArgs, JoinPath(tmp, "left"), JoinPath(tmp, "right")),
                                            host.checkOut(left, changed).value, shown);
                    && run.Exited? && run.status.Success()
                    && r.0.value.Keys == run.right.Keys - (if add then {InstructionsFile} else {})
                    && (forall p :: p in r.0.value ==> r.0.value[p] == run.right[p])
    ensures host.tempDir.Ok? ==>
              var changed := host.changedPaths(left, right);
              var tmp := host.tempDir.value;
              host.checkOut(left, changed).Ok? && host.checkOut(right, changed).Ok? && GetDiffEditor(settings).0.Ok? ==>
                var tool := GetDiffEditor(settings).0.value;
                var rightFiles := host.checkOut(right, changed).value;
                var add := AddsInstructions(instructions, rightFiles);
                var shown := if add then rightFiles[InstructionsFile := instructions] else rightFiles;
                var run := host.runTool(tool.program, DiffEditorArgs(tool.editArgs, JoinPath(tmp, "left"), JoinPath(tmp, "right")),
                                        host.checkOut(left, changed).value, shown);
                && (run.SpawnFailed? ==> r.0 == Err(ExternalTool(FailedToExecute(tool.program, run.cause))))
                && (run.Exited? && !run.status.Success() ==> r.0 == Err(ExternalTool(ToolAborted(run.status))))
                && (run.Exited? && run.status.Success() ==>
                      r.0 == Ok(if add then run.right - {InstructionsFile} else run.right))
  {
    var changed := host.changedPaths(left, right);
    match host.tempDir
    case Err(e) => (Err(ExternalTool(SetUpDirError(e))), None)
    case Ok(tmp) =>
      var leftDir := JoinPath(tmp, "left");
      var rightDir := JoinPath(tmp, "right");
      match host.checkOut(left, changed)
      case Err(e) => (Err(Checkout(e)), None)
      case Ok(leftFiles) =>
        match host.checkOut(right, changed)
        case Err(e) => (Err(Checkout(e)), None)
        case Ok(rightFiles) =>
          var add := AddsInstructions(instructions, rightFiles);
          var seeded := if add then rightFiles[InstructionsFile := instructions] else rightFiles;
          var (editor, notice) := GetDiffEditor(settings);
          match editor
          case Err(e) => (Err(ExternalTool(e)), notice)
          case Ok(tool) =>
            match host.runTool(tool.program, DiffEditorArgs(tool.editArgs, leftDir, rightDir), leftFiles, seeded)
            case SpawnFailed(e) => (Err(ExternalTool(FailedToExecute(tool.program, e))), notice)
            case Exited(status, edited) =>
              if !status.Success() then (Err(ExternalTool(ToolAborted(status))), notice)
              else (Ok(if add then edited - {InstructionsFile} else edited), notice)
  }

  /** The whole diff edit: the id of the snapshot of the edited right
      directory, and the hint shown while choosing the editor. */
  function EditDiffSpec(left: Tree, right: Tree, instructions: Bytes, settings: Settings, host: DiffHost): (r: (Result<TreeId, DiffEditError>, Option<Notice>))
    ensures var edited := EditedRightDir(left, right, instructions, settings, host).0;
            r.0.Ok? <==> edited.Ok? && host.snapshot(edited.value).Ok?
    ensures var edited := EditedRightDir(left, right, instructions, settings, host).0;
            r.0.Ok? ==> host.snapshot(edited.value) == Ok(r.0.value)
    ensures var edited := EditedRightDir(left, right, instructions, settings, host).0;
            && (edited.Err? ==> r.0 == Err(edited.error))
            && (edited.Ok? && host.snapshot(edited.value).Err? ==> r.0 == Err(Snapshot(host.snapshot(edited.value).error)))
    ensures r.1 == EditedRightDir(left, right, instructions, settings, host).1
  {
    var (edited, notice) := EditedRightDir(left, right, instructions, settings, host);
    match edited
    case Err(e) => (Err(e), notice)
    case Ok(files) =>
      match host.snapshot(files)
      case Err(e) => (Err(Snapshot(e)), notice)
      case Ok(id) => (Ok(id), notice)
  }

  /** `edit_diff`: the same steps, with the right directory's files updated in
      place as the instructions are added, the editor runs and the instructions
      are removed again. */
  method EditDiff(left: Tree, right: Tree, instructions: Bytes, settings: Settings, host: DiffHost)
    returns (r: Result<TreeId, DiffEditError>, notice: Option<Notice>)
    ensures (r, notice) == EditDiffSpec(left, right, instructions, settings, host)
  {
    var changedFiles := host.changedPaths(left, right);
    if host.tempDir.Err? {
      return Err(ExternalTool(SetUpDirError(host.tempDir.error))), None;
    }
    var tempDir := host.tempDir.value;
    var leftWcDir := JoinPath(tempDir, "left");
    var rightWcDir := JoinPath(tempDir, "right");
    var leftCheckout := host.checkOut(left, changedFiles);
    if leftCheckout.Err? {
      return Err(Checkout(leftCheckout.error)), None;
    }
    var rightCheckout := host.checkOut(right, changedFiles);
    if rightCheckout.Err? {
      return Err(Checkout(rightCheckout.error)), None;
    }
    var rightFiles := rightCheckout.value;
    var addInstructions := AddsInstructions(instructions, rightFiles);
    if addInstructions {
      rightFiles := rightFiles[InstructionsFile := instructions];
    }

    var editor := GetDiffEditor(settings);
    notice := editor.1;
    if editor.0.Err? {
      return Err(ExternalTool(editor.0.error)), notice;
    }
    var tool := editor.0.value;
    var args := Literals(tool.editArgs);
    args := args + [PathArg(leftWcDir)];
    args := args + [PathArg(rightWcDir)];
    assert args == DiffEditorArgs(tool.editArgs, leftWcDir, rightWcDir);
    var run := host.runTool(tool.program, args, leftCheckout.value, rightFiles);
    if run.SpawnFailed? {
      return Err(ExternalTool(FailedToExecute(tool.program, run.cause))), notice;
    }
    if !run.status.Success() {
      return Err(ExternalTool(ToolAborted(run.status))), notice;
    }
    rightFiles := run.right;
    if addInstructions {
      // Removing a file the editor already removed is not an error.
      rightFiles := rightFiles - {InstructionsFile};
    }

    var snapshot := host.snapshot(rightFiles);
    if snapshot.Err? {
      return Err(Snapshot(snapshot.error)), notice;
    }
    r := Ok(snapshot.value);
  }

  /** The edit arguments are never interpolated: a role placeholder among them
      reaches the editor as literal text, while the same placeholder in a merge
      template with that role becomes the role's path. */
  lemma EditArgsAreNotInterpolated(args: seq<string>, leftDir: Path, rightDir: Path, paths: map<string, Path>, i: nat, role: string)
    requires i < |args| && role in paths && args[i] == Sigil(role)
    ensures DiffEditorArgs(args, leftDir, rightDir)[i] == Literal(Sigil(role))
    ensures Interpolate(args, paths)[i] == PathArg(paths[role])
  {
  }

  /** Instructions added for the user are shown to the editor but never reach
      the snapshot, whatever the editor does with them. */
  lemma InstructionsNeverSnapshotted(left: Tree, right: Tree, instructions: Bytes, settings: Settings, host: DiffHost, rightFiles: Dir)
    requires host.checkOut(right, host.changedPaths(left, right)) == Ok(rightFiles)
    requires AddsInstructions(instructions, rightFiles)
    ensures var edited := EditedRightDir(left, right, instructions, settings, host).0;
            edited.Ok? ==> InstructionsFile !in edited.value
  {
  }

  /** A file or directory of the instructions' name that the right tree
      already holds is left alone: the editor sees the checkout unchanged, and
      the directory is snapshotted as the editor leaves it. */
  lemma ExistingInstructionsFileKept(left: Tree, right: Tree, instructions: Bytes, settings: Settings, host: DiffHost, rightFiles: Dir)
    requires host.checkOut(right, host.changedPaths(left, right)) == Ok(rightFiles)
    requires InstructionsPathExists(rightFiles)
    ensures var edited := EditedRightDir(left, right, instructions, settings, host).0;
            edited.Ok? ==>
              var tool := GetDiffEditor(settings).0.value;
              var tmp := host.tempDir.value;
              var leftFiles := host.checkOut(left, host.changedPaths(left, right)).value;
              host.runTool(tool.program, DiffEditorArgs(tool.editArgs, JoinPath(tmp, "left"), JoinPath(tmp, "right")), leftFiles, rightFiles)
                == Exited(ExitStatus(Some(0)), edited.value)
  {
    var edited := EditedRightDir(left, right, instructions, settings, host).0;
    if edited.Ok? {
      var tool := GetDiffEditor(settings).0.value;
      var tmp := host.tempDir.value;
      var leftFiles := host.checkOut(left, host.changedPaths(left, right)).value;
      var run := host.runTool(tool.program, DiffEditorArgs(tool.editArgs, JoinPath(tmp, "left"), JoinPath(tmp, "right")), leftFiles, rightFiles);
      assert run.Exited? && run.status.Success() && run.right == edited.value;
    }
  }

  /** Whatever a successful editor leaves in the right directory is what is
      snapshotted, less only the instructions this step added; an editor that
      cannot be started or exits unsuccessfully aborts the edit before any
      snapshot, whatever the snapshot would have given. */
  lemma EditorRunDecidesSnapshot(left: Tree, right: Tree, instructions: Bytes, settings: Settings, host: DiffHost,
                                 tool: MergeTool, tmp: Path, leftFiles: Dir, rightFiles: Dir, run: DiffToolRun)
    requires host.tempDir == Ok(tmp)
    requires host.checkOut(left, host.changedPaths(left, right)) == Ok(leftFiles)
    requires host.checkOut(right, host.changedPaths(left, right)) == Ok(rightFiles)
    requires GetDiffEditor(settings).0 == Ok(tool)
    requires var shown := if AddsInstructions(instructions, rightFiles) then rightFiles[InstructionsFile := instructions] else rightFiles;
             host.runTool(tool.program, DiffEditorArgs(tool.editArgs, JoinPath(tmp, "left"), JoinPath(tmp, "right")), leftFiles, shown) == run
    ensures run.SpawnFailed? ==>
              EditDiffSpec(left, right, instructions, settings, host).0 == Err(ExternalTool(FailedToExecute(tool.program, run.cause)))
    ensures run.Exited? && !run.status.Success() ==>
              EditDiffSpec(left, right, instructions, settings, host).0 == Err(ExternalTool(ToolAborted(run.status)))
    ensures run.Exited? && run.status.Success() ==>
              var edited := if AddsInstructions(instructions, rightFiles) then run.right - {InstructionsFile} else run.right;
              EditDiffSpec(left, right, instructions, settings, host).0 ==
                match host.snapshot(edited)
                case Ok(id) => Ok(id)
                case Err(e) => Err(Snapshot(e))
  {
  }

  /** A file the editor deletes from the right directory is absent from what
      is snapshotted: an editor that removes `f` (other than the instructions)
      gives the snapshot of the checked-out right directory without `f`. */
  lemma DeletedFileLeavesSnapshot(left: Tree, right: Tree, instructions: Bytes, settings: Settings, host: DiffHost,
                                  f: RepoPath, rightFiles: Dir)
    requires host.tempDir.Ok?
    requires host.checkOut(left, host.changedPaths(left, right)).Ok?
    requires host.checkOut(right, host.changedPaths(left, right)) == Ok(rightFiles)
    requires GetDiffEditor(settings).0.Ok?
    requires f != InstructionsFile
    ensures var deleting := host.(runTool := (program, args, l, r: Dir) => Exited(ExitStatus(Some(0)), r - {f}));
            && EditedRightDir(left, right, instructions, settings, deleting).0 == Ok(rightFiles - {f})
            && EditDiffSpec(left, right, instructions, settings, deleting).0 ==
                 match host.snapshot(rightFiles - {f})
                 case Ok(id) => Ok(id)
                 case Err(e) => Err(Snapshot(e))
  {
    var deleting := host.(runTool := (program, args, l, r: Dir) => Exited(ExitStatus(Some(0)), r - {f}));
    if AddsInstructions(instructions, rightFiles) {
      assert rightFiles[InstructionsFile := instructions] - {f} - {InstructionsFile} == rightFiles - {f};
    }
  }
}
