# External merge tools and diff editors (jj), modelled in Dafny

This project models how jj hands work to external programs. The logic lives
in `src/merge_tools.rs`, and two workflows are modelled:

- **Conflict resolution** (`run_mergetool`). The conflict at one path of a
  tree is flattened to a single hunk. Hunks with more than one base or more
  than two sides are rejected. The sides are written to scratch files named
  after their roles (`base`, `left`, `right`, `output`). The configured merge
  tool runs with its argument template interpolated. The output file then
  becomes the new value at the path: a non-executable file, or a partially
  resolved conflict when the tool edits conflict markers.
- **Diff editing** (`edit_diff`). Both trees are checked out into sibling
  directories. The diff editor runs with its edit arguments followed by the
  two directories. The right directory is then snapshotted into a tree.

Both workflows rely on tool resolution from settings. A missing `ui.diff-editor`
or `ui.merge-editor` falls back to `meld` and shows a hint. Each name is looked
up in the `merge-tools` table. A name with no entry there is turned into a tool
that runs that name. An entry with no program runs under the name. A merge tool
with no merge arguments is refused. Argument interpolation replaces an argument
only when the whole argument is `$` followed by a known role.

Modules, one file each:

- `Common` (common.dfy): options and results, bytes, paths, command arguments,
  exit statuses, the external-tool errors, and `Pop` (a vector's `pop`).
- `ToolConfig` (tool_config.dfy): settings, tool descriptions and their
  resolution.
- `Interpolation` (interpolation.dfy): role placeholders in argument templates.
- `Repo` (repo.dfy): repository paths, tree values and trees.
- `ConflictResolution` (conflict_resolution.dfy): `ResolveConflict` specifies
  `run_mergetool` as a function. `RunMergetool` is the step-by-step method with
  early returns that pops the roles off the hunk's vectors. It is proved equal
  to `ResolveConflict`.
- `DiffEdit` (diff_edit.dfy): `EditDiffSpec` specifies `edit_diff`. `EditDiff`
  is the step-by-step method that updates the right directory's files as it
  goes. It is proved equal to `EditDiffSpec`.

The collaborators are given to the model as datatypes whose fields are total
functions, and only their results matter:

- the store and conflict library: reading a conflict, flattening it, describing
  it, materialising it with markers, reparsing edited text, writing a file, and
  writing a tree;
- the store's tree diff: the paths at which the two trees differ;
- the working-copy engine: checkout and snapshot;
- the scratch directory: where it was made, or why it could not be;
- the external program. Its behaviour is a function from program, arguments
  and scratch files to how it exited and what it left in those files. For the
  diff editor it returns only the right directory, because only the right
  directory is snapshotted (src/merge_tools.rs:374-375). Whatever the editor
  does under the left directory has no effect on the result.

The hint shown when the default editor is used is returned as an
`Option<Notice>` rather than printed.

Details of the code worth noting:

- Tool entries live under the `merge-tools` table (src/merge_tools.rs:423).
- The `meld` default applies to the merge editor as well as the diff editor
  (src/merge_tools.rs:472-480, tests at 567-582).
- `edit_diff` resolves the diff editor only after both checkouts and the
  instructions file. A configuration error is therefore reported after that
  work, though still before any program starts (src/merge_tools.rs:324-352).
- At src/merge_tools.rs:265 the fallback passed to `unwrap_or` is evaluated
  eagerly. The output is written to the store as a file blob even when a
  partially resolved conflict was obtained. A failure of that write fails the
  whole resolution. The model keeps this behaviour
  (`PartialResolutionNeedsFileWrite`).

## Model

| member | source | states |
|---|---|---|
| `ToolConfig.WithProgram` | src/merge_tools.rs:409-418 | a tool built from a bare name runs that name, has no edit or merge arguments, and does not edit markers |
| `ToolConfig.EditorNameFromSettings` | src/merge_tools.rs:464-484 | the key is unset exactly when the result is `meld` with a hint naming the key; a string value is used as it is with no hint; a value that is not a string is exactly the error case, reported as a type error for that key |
| `ToolConfig.GetToolConfig` | src/merge_tools.rs:420-439 | an unreadable tools table is the error; a name with no entry gives `{program: name, no args, no markers}`; a malformed entry gives a message prefixed `merge-tools.<name>: `; a parsed entry keeps its fields, and an empty program becomes the name; a non-empty name always gives a non-empty program |
| `ToolConfig.GetDiffEditor` | src/merge_tools.rs:441-447 | an unreadable editor name is returned as it is, with no hint; otherwise the hint is the one from the name lookup; the tool returned is exactly the tool config for that name, and a config error becomes `InvalidConfig` with that error; diff-editor resolution never fails for missing merge arguments |
| `ToolConfig.GetMergeTool` | src/merge_tools.rs:449-462 | an unreadable editor name is returned as it is, with no hint; otherwise the hint is the one from the name lookup; a config error becomes `InvalidConfig`; a config with merge arguments is returned as it is; one without is `MergeArgsNotConfigured` naming the editor, and that error arises in no other way; a returned tool always has merge arguments |
| `ToolConfig.MergeToolIsCheckedDiffEditor` | src/merge_tools.rs:441-462 | with both keys set alike, the merge tool equals the diff editor when that editor has merge arguments, is `MergeArgsNotConfigured` when it has none, and fails otherwise exactly when the diff editor fails |
| `ToolConfig.DefaultEditorIsMeld` | src/merge_tools.rs:508-582 | with neither key set, both roles resolve to the `meld` entry with program `meld`, each with a hint naming its own key |
| `ToolConfig.UnconfiguredToolByName` | src/merge_tools.rs:525-589 | a named tool with no entry is `{program: name, [], [], false}` as a diff editor and `MergeArgsNotConfigured(name)` as a merge tool |
| `ToolConfig.PartialEntryKeepsFields` | src/merge_tools.rs:535-610 | an entry without a program keeps its argument lists and takes the name as program; as a merge tool it is accepted exactly when its merge arguments are non-empty |
| `Interpolation.InterpolateArg` | src/merge_tools.rs:288-295 | an argument becomes a path exactly when it equals `$` + a role of the table, and then it is that role's path; otherwise it is the argument itself as literal text |
| `Interpolation.Interpolate` | src/merge_tools.rs:279-298 | the result has the template's length, and each position is the interpolation of the template argument at that position |
| `Interpolation.UnknownSigilIsLiteral` | src/merge_tools.rs:292-295 | `$r` for a role `r` missing from the table stays literal |
| `Interpolation.EmbeddedSigilIsLiteral` | src/merge_tools.rs:289-295 | an argument not starting with `$`, such as one containing `$left` further in, stays literal whatever the table |
| `Interpolation.InterpolatedPathsComeFromTable` | src/merge_tools.rs:286-297 | every path in the result is a path of the table, and every literal is the template's argument at the same position |
| `Common.Pop` | src/merge_tools.rs:202-207 | popping yields nothing exactly on an empty vector; otherwise the rest followed by the popped element is the original vector |
| `ConflictResolution.LocateConflict` | src/merge_tools.rs:163-167 | a missing path gives `PathNotFoundError`; a present non-conflict value gives `NotAConflictError`; only a conflict value proceeds, with its id |
| `ConflictResolution.PrepareConflict` | src/merge_tools.rs:163-191 | lookup failures pass through; a read failure is `Backend` with the store's error; a conflict with no single hunk is `NotNormalFilesError` with its description; a hunk with more than one base or two sides is `ConflictTooComplicatedError` with the counts; every other conflict is prepared with its id and hunk, and a prepared hunk is always well shaped |
| `ConflictResolution.InitialOutput` | src/merge_tools.rs:194-201 | the output file starts with the conflict materialised with markers when the tool edits markers, and empty otherwise |
| `ConflictResolution.AssignRoles` | src/merge_tools.rs:202-207 | the base is the last removed side, `right` the last added side and `left` the one before it, each empty when missing; the output role holds the seed |
| `ConflictResolution.FileNameSuffix` | src/merge_tools.rs:213-219 | the scratch-file suffix is empty exactly for the root path |
| `ConflictResolution.WorkspaceLayout` | src/merge_tools.rs:202-231 | the four role files are distinct paths, they are exactly the paths the template is interpolated with, and each holds its own role's contents |
| `ConflictResolution.RunTool` | src/merge_tools.rs:194-252 | without a scratch directory it is `SetUpDirError`; a tool that cannot be started gives `FailedToExecute` naming its program, one that exits unsuccessfully gives `ToolAborted` with its status, one that removes the output file gives the read error; an accepted result is exactly the contents the tool, started on the interpolated template and the role files, left in the output file after exiting successfully; such an exit with output that is empty or equals the seed gives `EmptyOrUnchanged` |
| `ConflictResolution.OutputAcceptance` | src/merge_tools.rs:194-201 | output is accepted exactly when it is non-empty and, for a tool that edits markers, differs from the materialised conflict |
| `ConflictResolution.NewTreeValue` | src/merge_tools.rs:254-273 | the new value is a conflict exactly when the tool edits markers, reparsing gave a new conflict id (which it then carries), and the file write succeeded; otherwise it is the written output as a non-executable file; it fails exactly when the reparse or the file write fails, with `Backend` carrying that call's store error (the reparse's first) |
| `ConflictResolution.ResolveConflict` | src/merge_tools.rs:157-277 | preparation errors pass through with no hint, later ones carry the merge tool's hint; tool-resolution, run and store errors pass through; a successful resolution is of a conflict at the path, and the value there is `NewTreeValue` of the output the tool left; the new tree equals the old one elsewhere; the result id is the store's id for those entries |
| `ConflictResolution.RunMergetool` | src/merge_tools.rs:157-277 | the step-by-step procedure, including the pops that choose base, right, then left, gives exactly `ResolveConflict`'s result and hint; so with one remove it is the base, with two adds `left = adds[0]` and `right = adds[1]`, with one add `right = adds[0]` and `left` is empty |
| `ConflictResolution.ResolvedValueIsToolOutput` | src/merge_tools.rs:233-276 | for every conflict, tool and run: a successful exit leaving accepted output, with the store taking it, gives the tree whose value at the path is the reparsed conflict (marker-editing tool, markers left) or the output as a non-executable file, nothing else changed, with the tool's hint |
| `ConflictResolution.LookupFailuresComeFirst` | src/merge_tools.rs:163-167 | a missing path or a non-conflict value is reported with no hint, whatever the settings, store or host |
| `ConflictResolution.TooComplicatedIsCheckedFirst` | src/merge_tools.rs:182-193 | a flattened conflict is rejected as too complicated exactly when it has more than 1 remove or more than 2 adds; the error carries the path and exact counts, and no tool is resolved first (no hint), whatever the settings and host |
| `ConflictResolution.UntouchedOutputRejected` | src/merge_tools.rs:194-252 | a tool that exits successfully without touching the files is rejected as `EmptyOrUnchanged`, with markers seeded or not |
| `ConflictResolution.ToolFailuresProduceNoTree` | src/merge_tools.rs:233-249 | for every conflict, tool and host: a tool that cannot be started gives `FailedToExecute` with its program, one that exits unsuccessfully gives `ToolAborted` with its status, one that leaves no output file gives the read error, each with the merge tool's hint |
| `ConflictResolution.PartialResolutionNeedsFileWrite` | src/merge_tools.rs:254-273 | when a partial resolution was obtained but writing the output as a file fails, the resolution fails with the store error |
| `ConflictResolution.CopyLeftScenario` | src/merge_tools.rs:202-276 | one base and two sides, template `$left $output`, a tool copying its first file to the second plus one byte: the new tree holds the first side plus that byte as a non-executable file at the path, and nothing else changes |
| `DiffEdit.DiffEditorArgs` | src/merge_tools.rs:352-357 | the editor's command line is its edit arguments, unchanged and in order, followed by the left and then the right directory |
| `DiffEdit.AddsInstructions` | src/merge_tools.rs:339-342 | instructions are added only when there are some and no file of that name is checked out (a directory of that name also prevents it) |
| `DiffEdit.EditedRightDir` | src/merge_tools.rs:308-372 | scratch-directory, checkout and editor-resolution errors pass through, with the hint once the checkouts succeed; the editor is started with its arguments on the left checkout and on the right checkout plus the instructions exactly when they are added; a launch failure gives `FailedToExecute` naming its program, an unsuccessful exit `ToolAborted` with its status, and a successful exit gives exactly the editor's right directory less the instructions file this step added; an edited directory exists only after such a successful exit |
| `DiffEdit.EditDiffSpec` | src/merge_tools.rs:300-376 | the result is a tree id exactly when the edited right directory exists and its snapshot succeeds, and then it is that snapshot's id; an earlier error passes through, a snapshot error becomes `Snapshot`; the hint is the one shown while resolving the editor |
| `DiffEdit.EditDiff` | src/merge_tools.rs:300-376 | the step-by-step procedure, updating the right directory's files in place, gives exactly `EditDiffSpec`'s result and hint |
| `DiffEdit.EditArgsAreNotInterpolated` | src/merge_tools.rs:354-357 | for every argument list and every role of a table, an argument `$role` reaches the diff editor as literal text, while at the same position of a merge template it becomes the role's path |
| `DiffEdit.InstructionsNeverSnapshotted` | src/merge_tools.rs:339-372 | instructions added to the right directory are never part of what is snapshotted |
| `DiffEdit.ExistingInstructionsFileKept` | src/merge_tools.rs:339-350 | when the right checkout already holds a file or directory of the instructions' name, the editor sees the checked-out files unchanged and its result is snapshotted as it stands |
| `DiffEdit.EditorRunDecidesSnapshot` | src/merge_tools.rs:352-375 | for every host and editor run: a launch failure or unsuccessful exit is the result, whatever the snapshot would give; after a successful exit the result is the snapshot of whatever the editor left in the right directory, less the instructions this step added |
| `DiffEdit.DeletedFileLeavesSnapshot` | src/merge_tools.rs:370-375 | a file the editor deletes from the right directory is absent from what is snapshotted, and the result is that snapshot |

## Left out

- Process launch and exit-status reporting are the host's `runTool` function. Only whether the program started, its exit status, and the files it left are modelled. Error message texts and `tracing` output are not.
- The scratch directory's removal at the end of each operation is not modelled. Neither is `set_readonly_recursively` on the role files or the left directory. These are file-system side effects, and a failure of the read-only step (a `SetUpDirError`) is not modelled.
- Failures writing an individual role file, writing the instructions file, or creating the checkout directories are not modelled. Only failure to create the scratch directory is. The role files go into a hash map whose iteration order is unspecified, so which write would fail first is not determined by the code.
- The output file is read twice, at src/merge_tools.rs:249 and again at 268 to store it. The model assumes both reads give the same contents.
- `EditorNameFromSettings`: writing the hint can fail with an I/O error (`ExternalToolError::IoError`). The model returns the hint as a value instead, so that error is not modelled.
- Deserialising a tool entry is not modelled. Each entry is given already parsed, or with the parser's error message. A missing `program` parses as the empty string. The settings library's rules are reduced to three cases: a key may be missing, hold text, or hold a value that is not a string.
- The store, conflict flattening, description, materialisation with markers, reparsing of edited text, tree writing, the tree diff, checkout, sparse patterns and snapshot (with ignore rules) are fields with unconstrained results. Their internals are not part of this model.
- The scratch directory is a value given by the host, so the `jj-resolve-` and `jj-diff-edit-` name prefixes (src/merge_tools.rs:210, 317) are not modelled. The `left` and `right` subdirectory names and the `JJ-INSTRUCTIONS` file name are. The working-copy state directories (`left_state`, `right_state`) are not, because only the checkout engine uses them.
- A checked-out directory is modelled as a map from path to file contents. So the model cannot express a diff editor that changes an executable bit or creates a symlink, though the snapshot would record both.
